/**
 * Text extraction: for every TextLine of the document, in document order, a
 * line break, then a fragment for each String child of that TextLine.
 *
 * The three versions differ only in the fragment a String contributes:
 *   - the older `alto_tools.py` and the text script write CONTENT and a space
 *     (`PlainRule`);
 *   - the packaged `alto_text` also handles hyphenation through SUBS_TYPE and
 *     carries the variable `text` from String to String (`HyphenRule`).
 * A Python exception ends the extraction; what was written before it stays
 * written, so the result is the output so far together with the error.
 */
module Text {
  import opened PyStr
  import opened AltoTree
  import Namespace

  /** The Python exceptions text extraction can raise. */
  datatype TextError =
    | MissingContent   // `None + " "`: a String without CONTENT
    | MissingSubsType  // `HypPart1 in None`: SUBS_CONTENT present, SUBS_TYPE absent
    | WriteNone        // `sys.stdout.write(None)`: nothing to write for this String

  /** The output written so far, the carried variable `text`, and the error that stopped the run. */
  datatype TextState = TextState(out: string, text: Option<string>, error: Option<TextError>)

  const Start := TextState("", None, None)

  /** The SUBS_TYPE markers of the first and second half of a hyphenated word. */
  const HypPart1: string := "HypPart" + "1"
  const HypPart2: string := "HypPart" + "2"

  function TextLines(root: Element, ns: string): seq<Element> {
    IterFind(root, QName(ns, "TextLine"))
  }

  function Strings(line: Element, ns: string): seq<Element> {
    FindAll(line, QName(ns, "String"))
  }

  /** Runs `rule` over `strs` from `st`, stopping at the first error. */
  function StringsFold(st: TextState, strs: seq<Element>, rule: (TextState, Element) -> TextState): TextState
    decreases |strs|
  {
    if |strs| == 0 then st
    else
      var before := StringsFold(st, strs[..|strs| - 1], rule);
      if before.error.Some? then before else rule(before, strs[|strs| - 1])
  }

  /** One TextLine: a line break, then its String children. */
  function LineStep(st: TextState, line: Element, ns: string, rule: (TextState, Element) -> TextState): TextState {
    if st.error.Some? then st
    else StringsFold(st.(out := st.out + "\n"), Strings(line, ns), rule)
  }

  function LinesFold(st: TextState, lines: seq<Element>, ns: string, rule: (TextState, Element) -> TextState): TextState
    decreases |lines|
  {
    if |lines| == 0 then st
    else LineStep(LinesFold(st, lines[..|lines| - 1], ns, rule), lines[|lines| - 1], ns, rule)
  }

  /** The whole extraction of a document with namespace `ns`. */
  function Extract(root: Element, ns: string, rule: (TextState, Element) -> TextState): TextState {
    LinesFold(Start, TextLines(root, ns), ns, rule)
  }

  /** Python's `sys.stdout.write(text)`, which raises on `None`. */
  function Write(st: TextState, text: Option<string>): TextState {
    match text
    case None => st.(text := None, error := Some(WriteNone))
    case Some(t) => st.(out := st.out + t, text := Some(t))
  }

  /** A String of the older tool and of the text script: `CONTENT + " "`. */
  function PlainRule(st: TextState, s: Element): (r: TextState)
    ensures "CONTENT" in s.attrs ==>
              r == TextState(st.out + s.attrs["CONTENT"] + " ", Some(s.attrs["CONTENT"] + " "), st.error)
    ensures "CONTENT" !in s.attrs ==> r == st.(error := Some(MissingContent))
  {
    match Attr(s, "CONTENT")
    case None => st.(error := Some(MissingContent))
    case Some(c) => Write(st, Some(c + " "))
  }

  /** A String of the packaged `alto_text`, as the code is written. */
  function HyphenRule(st: TextState, s: Element): (r: TextState)
    ensures st.error.None? && r.error.Some? ==> r.out == st.out
    ensures r.error.None? ==> st.error.None? && r.text.Some? && r.out == st.out + r.text.value
    ensures r.error.None? ==>
              r.text == st.text || r.text == Attr(s, "CONTENT")
              || ("CONTENT" in s.attrs && r.text == Some(s.attrs["CONTENT"] + " "))
  {
    if "SUBS_CONTENT" !in s.attrs && "SUBS_TYPE" !in s.attrs then PlainRule(st, s)
    else match Attr(s, "SUBS_TYPE")
      case None => st.(error := Some(MissingSubsType))
      case Some(t) =>
        if Contains(t, HypPart1) then
          if Contains(t, HypPart2) then PlainRule(st, s)
          else Write(st, Attr(s, "CONTENT"))
        else Write(st, st.text)
  }

  /**
   * The same String with the HypPart2 test moved out of the HypPart1 branch,
   * so that the second half of a hyphenated word writes its own CONTENT.
   */
  function CorrectedHyphenRule(st: TextState, s: Element): (r: TextState)
    ensures st.error.None? && r.error.Some? ==> r.out == st.out
    ensures r.error.None? ==> st.error.None? && r.text.Some? && r.out == st.out + r.text.value
    ensures r.error.None? ==>
              r.text == st.text || r.text == Attr(s, "CONTENT")
              || ("CONTENT" in s.attrs && r.text == Some(s.attrs["CONTENT"] + " "))
  {
    if "SUBS_CONTENT" !in s.attrs && "SUBS_TYPE" !in s.attrs then PlainRule(st, s)
    else match Attr(s, "SUBS_TYPE")
      case None => st.(error := Some(MissingSubsType))
      case Some(t) =>
        if Contains(t, HypPart2) then PlainRule(st, s)
        else if Contains(t, HypPart1) then Write(st, Attr(s, "CONTENT"))
        else Write(st, st.text)
  }

  // ----- running past an error changes nothing -----

  lemma {:induction false} StringsFoldStuck(st: TextState, strs: seq<Element>, k: nat, rule: (TextState, Element) -> TextState)
    requires k <= |strs| && StringsFold(st, strs[..k], rule).error.Some?
    ensures StringsFold(st, strs, rule) == StringsFold(st, strs[..k], rule)
    decreases |strs| - k
  {
    if k < |strs| {
      var init := strs[..|strs| - 1];
      assert init[..k] == strs[..k];
      StringsFoldStuck(st, init, k, rule);
    } else {
      assert strs[..k] == strs;
    }
  }

  lemma {:induction false} LinesFoldStuck(st: TextState, lines: seq<Element>, k: nat, ns: string, rule: (TextState, Element) -> TextState)
    requires k <= |lines| && LinesFold(st, lines[..k], ns, rule).error.Some?
    ensures LinesFold(st, lines, ns, rule) == LinesFold(st, lines[..k], ns, rule)
    decreases |lines| - k
  {
    if k < |lines| {
      var init := lines[..|lines| - 1];
      assert init[..k] == lines[..k];
      LinesFoldStuck(st, init, k, ns, rule);
    } else {
      assert lines[..k] == lines;
    }
  }

  lemma StringsFoldNext(st: TextState, strs: seq<Element>, j: nat, rule: (TextState, Element) -> TextState)
    requires j < |strs| && StringsFold(st, strs[..j], rule).error.None?
    ensures StringsFold(st, strs[..j + 1], rule) == rule(StringsFold(st, strs[..j], rule), strs[j])
  {
    assert strs[..j + 1][..j] == strs[..j];
  }

  lemma LinesFoldNext(st: TextState, lines: seq<Element>, i: nat, ns: string, rule: (TextState, Element) -> TextState)
    requires i < |lines|
    ensures LinesFold(st, lines[..i + 1], ns, rule) == LineStep(LinesFold(st, lines[..i], ns, rule), lines[i], ns, rule)
  {
    assert lines[..i + 1][..i] == lines[..i];
  }

  /**
   * `alto_text` of the older `alto_tools.py` (the text script runs the same
   * loop): a line break per TextLine, then CONTENT and a space per String.
   */
  method WritePlainText(root: Element, xmlns: string) returns (out: string, error: Option<TextError>)
    ensures out == Extract(root, xmlns, PlainRule).out
    ensures error == Extract(root, xmlns, PlainRule).error
  {
    var lines := TextLines(root, xmlns);
    out, error := "", None;
    var text: Option<string> := None;
    var i := 0;
    while i < |lines|
      invariant 0 <= i <= |lines|
      invariant LinesFold(Start, lines[..i], xmlns, PlainRule) == TextState(out, text, None)
    {
      out := out + "\n";
      ghost var lineStart := TextState(out, text, None);
      var strs := Strings(lines[i], xmlns);
      var j := 0;
      while j < |strs|
        invariant 0 <= j <= |strs|
        invariant StringsFold(lineStart, strs[..j], PlainRule) == TextState(out, text, None)
      {
        var s := strs[j];
        StringsFoldNext(lineStart, strs, j, PlainRule);
        if "CONTENT" !in s.attrs {
          error := Some(MissingContent);
          StringsFoldStuck(lineStart, strs, j + 1, PlainRule);
          LinesFoldNext(Start, lines, i, xmlns, PlainRule);
          LinesFoldStuck(Start, lines, i + 1, xmlns, PlainRule);
          return;
        }
        var fragment := s.attrs["CONTENT"] + " ";
        out := out + fragment;
        text := Some(fragment);
        j := j + 1;
      }
      assert strs[..j] == strs;
      LinesFoldNext(Start, lines, i, xmlns, PlainRule);
      i := i + 1;
    }
    assert lines[..i] == lines;
  }

  /**
   * The loop body of the packaged `alto_text` for one String: the fragment it
   * writes, which also becomes the carried `text`, or the exception it raises.
   */
  method HyphenFragment(out: string, text: Option<string>, s: Element) returns (fragment: Option<string>, failed: Option<TextError>)
    ensures HyphenRule(TextState(out, text, None), s).error == failed
    ensures failed.Some? ==> HyphenRule(TextState(out, text, None), s).out == out
    ensures failed.None? ==>
              fragment.Some? && HyphenRule(TextState(out, text, None), s) == TextState(out + fragment.value, fragment, None)
  {
    fragment, failed := text, None;
    if "SUBS_CONTENT" !in s.attrs && "SUBS_TYPE" !in s.attrs {
      if "CONTENT" !in s.attrs {
        failed := Some(MissingContent);
      } else {
        fragment := Some(s.attrs["CONTENT"] + " ");
      }
    } else if "SUBS_TYPE" !in s.attrs {
      failed := Some(MissingSubsType);
    } else {
      var subsType := s.attrs["SUBS_TYPE"];
      if Contains(subsType, HypPart1) {
        fragment := Attr(s, "CONTENT");
        if Contains(subsType, HypPart2) {
          if "CONTENT" !in s.attrs {
            failed := Some(MissingContent);
          } else {
            fragment := Some(s.attrs["CONTENT"] + " ");
          }
        }
      }
    }
    if failed.None? && fragment.None? {
      failed := Some(WriteNone);
    }
  }

  /** `alto_text` of the packaged tool, with its hyphenation handling as written. */
  method AltoText(root: Element, xmlns: string) returns (out: string, error: Option<TextError>)
    ensures out == Extract(root, xmlns, HyphenRule).out
    ensures error == Extract(root, xmlns, HyphenRule).error
  {
    var lines := TextLines(root, xmlns);
    out, error := "", None;
    var text: Option<string> := None;
    var i := 0;
    while i < |lines|
      invariant 0 <= i <= |lines|
      invariant LinesFold(Start, lines[..i], xmlns, HyphenRule) == TextState(out, text, None)
    {
      out := out + "\n";
      ghost var lineStart := TextState(out, text, None);
      var strs := Strings(lines[i], xmlns);
      var j := 0;
      while j < |strs|
        invariant 0 <= j <= |strs|
        invariant StringsFold(lineStart, strs[..j], HyphenRule) == TextState(out, text, None)
      {
        StringsFoldNext(lineStart, strs, j, HyphenRule);
        var fragment, failed := HyphenFragment(out, text, strs[j]);
        if failed.Some? {
          error := failed;
          StringsFoldStuck(lineStart, strs, j + 1, HyphenRule);
          LinesFoldNext(Start, lines, i, xmlns, HyphenRule);
          LinesFoldStuck(Start, lines, i + 1, xmlns, HyphenRule);
          return;
        }
        text := fragment;
        out := out + fragment.value;
        j := j + 1;
      }
      assert strs[..j] == strs;
      LinesFoldNext(Start, lines, i, xmlns, HyphenRule);
      i := i + 1;
    }
    assert lines[..i] == lines;
  }

  /**
   * The text script: all work happens only when standard output is not
   * already UTF-8; then a root-tag namespace outside its three URIs prints an
   * error line, and any other document gets the plain text extraction.
   */
  method OcrTextScript(stdoutEncoding: string, root: Element) returns (out: string, error: Option<TextError>)
    ensures stdoutEncoding == "UTF-8" ==> out == "" && error.None?
    ensures stdoutEncoding != "UTF-8" && Namespace.ScriptGate(root.tag).None? ==> out == Namespace.NotAlto && error.None?
    ensures stdoutEncoding != "UTF-8" && Namespace.ScriptGate(root.tag).Some? ==>
              var st := Extract(root, Namespace.ScriptGate(root.tag).value, PlainRule);
              out == st.out && error == st.error
  {
    out, error := "", None;
    if stdoutEncoding != "UTF-8" {
      var xmlns := Namespace.TagNamespace(root.tag);
      if xmlns in Namespace.ScriptRegistered {
        out, error := WritePlainText(root, xmlns);
      } else {
        out := Namespace.NotAlto;
      }
    }
  }

  // ----- the plain extraction against an independent definition -----

  /** Every String child of `line` has CONTENT. */
  ghost predicate LineHasContent(line: Element, ns: string) {
    forall s :: s in Strings(line, ns) ==> "CONTENT" in s.attrs
  }

  /** Every TextLine in `lines` has CONTENT on every String child. */
  ghost predicate AllContent(lines: seq<Element>, ns: string) {
    forall i :: 0 <= i < |lines| ==> LineHasContent(lines[i], ns)
  }

  /** A String's word: its CONTENT followed by a space. */
  function Word(s: Element): string {
    match Attr(s, "CONTENT")
    case Some(c) => c + " "
    case None => ""
  }

  /** The words of a TextLine, first String first. */
  function Words(strs: seq<Element>): string {
    if |strs| == 0 then "" else Word(strs[0]) + Words(strs[1..])
  }

  /** The text of a document: a line break and the words, TextLine after TextLine. */
  function DocumentText(lines: seq<Element>, ns: string): string {
    if |lines| == 0 then "" else "\n" + Words(Strings(lines[0], ns)) + DocumentText(lines[1..], ns)
  }

  lemma {:induction false} WordsSnoc(strs: seq<Element>)
    requires |strs| > 0
    ensures Words(strs) == Words(strs[..|strs| - 1]) + Word(strs[|strs| - 1])
    decreases |strs|
  {
    if |strs| > 1 {
      assert strs[1..][..|strs[1..]| - 1] == strs[..|strs| - 1][1..];
      WordsSnoc(strs[1..]);
    }
  }

  lemma {:induction false} DocumentTextSnoc(lines: seq<Element>, ns: string)
    requires |lines| > 0
    ensures DocumentText(lines, ns)
         == DocumentText(lines[..|lines| - 1], ns) + "\n" + Words(Strings(lines[|lines| - 1], ns))
    decreases |lines|
  {
    if |lines| > 1 {
      assert lines[1..][..|lines[1..]| - 1] == lines[..|lines| - 1][1..];
      DocumentTextSnoc(lines[1..], ns);
    }
  }

  lemma {:induction false} PlainStringsText(st: TextState, strs: seq<Element>)
    requires st.error.None?
    requires forall s :: s in strs ==> "CONTENT" in s.attrs
    ensures StringsFold(st, strs, PlainRule).error.None?
    ensures StringsFold(st, strs, PlainRule).out == st.out + Words(strs)
    decreases |strs|
  {
    if |strs| > 0 {
      PlainStringsText(st, strs[..|strs| - 1]);
      WordsSnoc(strs);
    }
  }

  lemma {:induction false} PlainLinesText(lines: seq<Element>, ns: string)
    requires AllContent(lines, ns)
    ensures LinesFold(Start, lines, ns, PlainRule).error.None?
    ensures LinesFold(Start, lines, ns, PlainRule).out == DocumentText(lines, ns)
    decreases |lines|
  {
    if |lines| > 0 {
      DocumentTextSnoc(lines, ns);
      assert AllContent(lines[..|lines| - 1], ns) by {
        assert forall i :: 0 <= i < |lines| - 1 ==> lines[..|lines| - 1][i] == lines[i];
      }
      assert LineHasContent(lines[|lines| - 1], ns);
      PlainLinesText(lines[..|lines| - 1], ns);
      var before := LinesFold(Start, lines[..|lines| - 1], ns, PlainRule);
      PlainStringsText(before.(out := before.out + "\n"), Strings(lines[|lines| - 1], ns));
    }
  }

  lemma {:induction false} PlainStringsFail(st: TextState, strs: seq<Element>, k: nat)
    requires k < |strs| && "CONTENT" !in strs[k].attrs
    requires st.error.None? || st.error == Some(MissingContent)
    ensures StringsFold(st, strs, PlainRule).error == Some(MissingContent)
    decreases |strs|
  {
    if k < |strs| - 1 {
      PlainStringsFail(st, strs[..|strs| - 1], k);
    } else {
      PlainStringsErrorKind(st, strs[..|strs| - 1]);
    }
  }

  lemma {:induction false} PlainStringsErrorKind(st: TextState, strs: seq<Element>)
    requires st.error.None? || st.error == Some(MissingContent)
    ensures StringsFold(st, strs, PlainRule).error.None? || StringsFold(st, strs, PlainRule).error == Some(MissingContent)
    decreases |strs|
  {
    if |strs| > 0 {
      PlainStringsErrorKind(st, strs[..|strs| - 1]);
    }
  }

  lemma {:induction false} PlainLinesFail(lines: seq<Element>, ns: string, i: nat, s: Element)
    requires i < |lines| && s in Strings(lines[i], ns) && "CONTENT" !in s.attrs
    ensures LinesFold(Start, lines, ns, PlainRule).error == Some(MissingContent)
    decreases |lines|
  {
    var before := LinesFold(Start, lines[..|lines| - 1], ns, PlainRule);
    if i < |lines| - 1 {
      PlainLinesFail(lines[..|lines| - 1], ns, i, s);
    } else {
      PlainLinesErrorKind(lines[..|lines| - 1], ns);
      if before.error.None? {
        var strs := Strings(lines[i], ns);
        var k :| 0 <= k < |strs| && strs[k] == s;
        PlainStringsFail(before.(out := before.out + "\n"), strs, k);
      }
    }
  }

  lemma {:induction false} PlainLinesErrorKind(lines: seq<Element>, ns: string)
    ensures LinesFold(Start, lines, ns, PlainRule).error.None? || LinesFold(Start, lines, ns, PlainRule).error == Some(MissingContent)
    decreases |lines|
  {
    if |lines| > 0 {
      PlainLinesErrorKind(lines[..|lines| - 1], ns);
      var before := LinesFold(Start, lines[..|lines| - 1], ns, PlainRule);
      if before.error.None? {
        PlainStringsErrorKind(before.(out := before.out + "\n"), Strings(lines[|lines| - 1], ns));
      }
    }
  }

  /**
   * The plain extraction writes a line break per TextLine followed by
   * CONTENT and a space per String child, and fails exactly when some String
   * child of some TextLine has no CONTENT.
   */
  lemma PlainTextMeaning(root: Element, ns: string)
    ensures AllContent(TextLines(root, ns), ns) ==>
              Extract(root, ns, PlainRule).error.None? &&
              Extract(root, ns, PlainRule).out == DocumentText(TextLines(root, ns), ns)
    ensures !AllContent(TextLines(root, ns), ns) ==> Extract(root, ns, PlainRule).error == Some(MissingContent)
  {
    var lines := TextLines(root, ns);
    if AllContent(lines, ns) {
      PlainLinesText(lines, ns);
    } else {
      var i :| 0 <= i < |lines| && !LineHasContent(lines[i], ns);
      var s :| s in Strings(lines[i], ns) && "CONTENT" !in s.attrs;
      PlainLinesFail(lines, ns, i, s);
    }
  }

  // ----- the hyphenating extraction -----

  /** Every String child of every TextLine in `lines` is free of SUBS_CONTENT and SUBS_TYPE. */
  ghost predicate NoSubstitutions(lines: seq<Element>, ns: string) {
    forall i, s :: 0 <= i < |lines| && s in Strings(lines[i], ns) ==>
      "SUBS_CONTENT" !in s.attrs && "SUBS_TYPE" !in s.attrs
  }

  lemma {:induction false} HyphenStringsAsPlain(st: TextState, strs: seq<Element>)
    requires forall s :: s in strs ==> "SUBS_CONTENT" !in s.attrs && "SUBS_TYPE" !in s.attrs
    ensures StringsFold(st, strs, HyphenRule) == StringsFold(st, strs, PlainRule)
    decreases |strs|
  {
    if |strs| > 0 {
      HyphenStringsAsPlain(st, strs[..|strs| - 1]);
    }
  }

  lemma {:induction false} HyphenLinesAsPlain(lines: seq<Element>, ns: string)
    requires NoSubstitutions(lines, ns)
    ensures LinesFold(Start, lines, ns, HyphenRule) == LinesFold(Start, lines, ns, PlainRule)
    decreases |lines|
  {
    if |lines| > 0 {
      var init := lines[..|lines| - 1];
      assert NoSubstitutions(init, ns) by {
        assert forall i :: 0 <= i < |init| ==> init[i] == lines[i];
      }
      HyphenLinesAsPlain(init, ns);
      var before := LinesFold(Start, init, ns, PlainRule);
      HyphenStringsAsPlain(before.(out := before.out + "\n"), Strings(lines[|lines| - 1], ns));
    }
  }

  /** On a document without hyphenation markup, the packaged tool writes what the older one writes. */
  lemma HyphenatedAgreesWithPlain(root: Element, ns: string)
    requires NoSubstitutions(TextLines(root, ns), ns)
    ensures Extract(root, ns, HyphenRule) == Extract(root, ns, PlainRule)
  {
    HyphenLinesAsPlain(TextLines(root, ns), ns);
  }

  lemma MarkerFacts()
    ensures Contains(HypPart1, HypPart1) && Contains(HypPart2, HypPart2)
    ensures !Contains(HypPart2, HypPart1) && !Contains(HypPart1, HypPart2)
  {
    assert HypPart1[..8] == HypPart1 && HypPart2[..8] == HypPart2;
    assert HypPart2[7] != HypPart1[7];
    assert |HypPart2[1..]| < 8 && |HypPart1[1..]| < 8;
  }

  /**
   * A String whose SUBS_TYPE names HypPart1 writes its CONTENT with no
   * trailing space, or with one when SUBS_TYPE also names HypPart2. Without
   * CONTENT it raises: `write(None)`, or `None + " "` when HypPart2 is named too.
   */
  lemma FirstHalfFragment(st: TextState, s: Element)
    requires st.error.None?
    requires "SUBS_TYPE" in s.attrs && Contains(s.attrs["SUBS_TYPE"], HypPart1)
    ensures "CONTENT" in s.attrs <==> HyphenRule(st, s).error.None?
    ensures "CONTENT" in s.attrs && !Contains(s.attrs["SUBS_TYPE"], HypPart2) ==>
              HyphenRule(st, s).out == st.out + s.attrs["CONTENT"]
    ensures "CONTENT" in s.attrs && Contains(s.attrs["SUBS_TYPE"], HypPart2) ==>
              HyphenRule(st, s).out == st.out + s.attrs["CONTENT"] + " "
    ensures "CONTENT" !in s.attrs && !Contains(s.attrs["SUBS_TYPE"], HypPart2) ==>
              HyphenRule(st, s) == st.(text := None, error := Some(WriteNone))
    ensures "CONTENT" !in s.attrs && Contains(s.attrs["SUBS_TYPE"], HypPart2) ==>
              HyphenRule(st, s) == st.(error := Some(MissingContent))
  {
  }

  /**
   * A String with SUBS_* markup whose SUBS_TYPE does not name HypPart1 leaves
   * `text` as it was and writes it again; with no earlier fragment, or with
   * no SUBS_TYPE at all, the run fails.
   */
  lemma OtherMarkupRewrites(st: TextState, s: Element)
    requires st.error.None?
    requires "SUBS_CONTENT" in s.attrs || "SUBS_TYPE" in s.attrs
    ensures "SUBS_TYPE" !in s.attrs ==> HyphenRule(st, s).error == Some(MissingSubsType)
    ensures "SUBS_TYPE" in s.attrs && !Contains(s.attrs["SUBS_TYPE"], HypPart1) ==>
              if st.text.None? then HyphenRule(st, s).error == Some(WriteNone)
              else HyphenRule(st, s) == st.(out := st.out + st.text.value)
  {
  }

  /** A String of namespace `ns` with a CONTENT and a SUBS_TYPE and no children. */
  function HalfWord(ns: string, content: string, subsType: string): Element {
    Element(QName(ns, "String"), map["CONTENT" := content, "SUBS_TYPE" := subsType], None, [])
  }

  /** A TextLine holding the single String `s`. */
  function LineOf(ns: string, s: Element): Element {
    Element(QName(ns, "TextLine"), map[], None, [s])
  }

  /** A two-line page whose only words are the halves `a` and `b` of a hyphenated word. */
  function SplitWordPage(ns: string, a: string, b: string): Element {
    Element(QName(ns, "alto"), map[], None, [LineOf(ns, HalfWord(ns, a, HypPart1)), LineOf(ns, HalfWord(ns, b, HypPart2))])
  }

  lemma LineOfShape(ns: string, s: Element)
    requires s.tag == QName(ns, "String") && s.children == []
    ensures Descendants(LineOf(ns, s)) == [s]
    ensures Strings(LineOf(ns, s), ns) == [s]
    ensures Tagged([LineOf(ns, s), s], QName(ns, "TextLine")) == [LineOf(ns, s)]
  {
    var tl := QName(ns, "TextLine");
    assert s.tag != tl by {
      assert |s.tag| != |tl|;
    }
    assert Descendants(s) == [];
    assert [s][1..] == [];
    assert DescendantsOf([s]) == [s];
    assert Tagged([s], tl) == [];
    assert [LineOf(ns, s), s][1..] == [s];
  }

  lemma SplitWordPageShape(ns: string, a: string, b: string)
    ensures TextLines(SplitWordPage(ns, a, b), ns) == SplitWordPage(ns, a, b).children
    ensures Strings(SplitWordPage(ns, a, b).children[0], ns) == [HalfWord(ns, a, HypPart1)]
    ensures Strings(SplitWordPage(ns, a, b).children[1], ns) == [HalfWord(ns, b, HypPart2)]
  {
    var first, second := HalfWord(ns, a, HypPart1), HalfWord(ns, b, HypPart2);
    var line1, line2 := LineOf(ns, first), LineOf(ns, second);
    LineOfShape(ns, first);
    LineOfShape(ns, second);
    var lines := [line1, line2];
    assert lines[1..] == [line2] && [line2][1..] == [];
    assert DescendantsOf([line2]) == [line2, second];
    assert DescendantsOf(lines) == [line1, first] + [line2, second];
    var tl := QName(ns, "TextLine");
    TaggedConcat([line1, first], [line2, second], tl);
  }

  /** A TextLine holding the single String `s`, reached with no error yet. */
  lemma OneStringLine(st: TextState, line: Element, s: Element, ns: string, rule: (TextState, Element) -> TextState)
    requires st.error.None? && Strings(line, ns) == [s]
    ensures LineStep(st, line, ns, rule) == rule(st.(out := st.out + "\n"), s)
  {
    var start := st.(out := st.out + "\n");
    assert [s][..0] == [];
    assert StringsFold(start, [s][..0], rule) == start;
    assert StringsFold(start, [s], rule) == rule(start, s);
  }

  lemma TwoLines(lines: seq<Element>, ns: string, rule: (TextState, Element) -> TextState)
    requires |lines| == 2
    ensures LinesFold(Start, lines, ns, rule) == LineStep(LineStep(Start, lines[0], ns, rule), lines[1], ns, rule)
  {
    assert lines[..1][..0] == [] && lines[..1] == [lines[0]] && lines[..2] == lines;
    assert LinesFold(Start, lines[..1][..0], ns, rule) == Start;
    assert LinesFold(Start, lines[..1], ns, rule) == LineStep(Start, lines[0], ns, rule);
  }

  /**
   * As written, the second half of a hyphenated word does not write its own
   * CONTENT: SUBS_TYPE HypPart2 fails the HypPart1 test, so the first half
   * is written a second time.
   */
  lemma SecondHalfRepeatsFirst(ns: string, a: string, b: string)
    ensures Extract(SplitWordPage(ns, a, b), ns, HyphenRule) == TextState("\n" + a + "\n" + a, Some(a), None)
  {
    SplitWordPageShape(ns, a, b);
    MarkerFacts();
    var root := SplitWordPage(ns, a, b);
    var line1, line2 := root.children[0], root.children[1];
    TwoLines(root.children, ns, HyphenRule);
    OneStringLine(Start, line1, HalfWord(ns, a, HypPart1), ns, HyphenRule);
    var st1 := LineStep(Start, line1, ns, HyphenRule);
    assert st1 == TextState("\n" + a, Some(a), None);
    OneStringLine(st1, line2, HalfWord(ns, b, HypPart2), ns, HyphenRule);
  }

  /** With the HypPart2 test on its own, the two halves are joined with only the line break between them. */
  lemma SecondHalfWrittenWhenCorrected(ns: string, a: string, b: string)
    ensures Extract(SplitWordPage(ns, a, b), ns, CorrectedHyphenRule) == TextState("\n" + a + "\n" + b + " ", Some(b + " "), None)
  {
    SplitWordPageShape(ns, a, b);
    MarkerFacts();
    var root := SplitWordPage(ns, a, b);
    var line1, line2 := root.children[0], root.children[1];
    TwoLines(root.children, ns, CorrectedHyphenRule);
    OneStringLine(Start, line1, HalfWord(ns, a, HypPart1), ns, CorrectedHyphenRule);
    var st1 := LineStep(Start, line1, ns, CorrectedHyphenRule);
    assert st1 == TextState("\n" + a, Some(a), None);
    OneStringLine(st1, line2, HalfWord(ns, b, HypPart2), ns, CorrectedHyphenRule);
  }

  /** Under the corrected rule a String marked HypPart2 writes its own CONTENT and a space. */
  lemma SecondHalfFragment(st: TextState, s: Element)
    requires st.error.None?
    requires "SUBS_TYPE" in s.attrs && Contains(s.attrs["SUBS_TYPE"], HypPart2) && "CONTENT" in s.attrs
    ensures CorrectedHyphenRule(st, s) == TextState(st.out + s.attrs["CONTENT"] + " ", Some(s.attrs["CONTENT"] + " "), None)
  {
  }

  /** The correction changes nothing for Strings whose SUBS_TYPE does not name HypPart2. */
  lemma CorrectionOnlyTouchesSecondHalves(st: TextState, s: Element)
    requires "SUBS_TYPE" !in s.attrs || !Contains(s.attrs["SUBS_TYPE"], HypPart2)
    ensures CorrectedHyphenRule(st, s) == HyphenRule(st, s)
  {
  }
}
