/**
 * The OCR metadata report: a fixed list of fields, each the text of the
 * element reached by a fixed path, printed as `label = value` under five
 * section headers. Each field is looked up on its own, so a field that is
 * not there prints a sentinel and does not stop the fields after it.
 */
module Metadata {
  import opened PyStr
  import opened AltoTree
  import Namespace

  /** What a field prints when its path does not lead to an element. */
  const Sentinel := "-- NOT_DEFINED --"

  /** Labels are padded with spaces to this width before the `=`. */
  const LabelWidth := 27

  /** A field lookup: no element at the end of the path, or the element's text (possibly `None`). */
  datatype FieldValue = Undefined | Shown(text: Option<string>)

  /**
   * A field: the first descendant tagged `first`, then a direct child for
   * each name in `rest`. The last name is also the field's label.
   */
  datatype Field = Field(first: string, rest: seq<string>)

  function Label(f: Field): string {
    if |f.rest| == 0 then f.first else f.rest[|f.rest| - 1]
  }

  /** The element reached from `e` by taking, for each name, the first direct child with that name. */
  function Follow(e: Element, ns: string, steps: seq<string>): Option<Element>
    decreases |steps|
  {
    if |steps| == 0 then Some(e)
    else match FindChild(e, QName(ns, steps[0]))
      case None => None
      case Some(c) => Follow(c, ns, steps[1..])
  }

  /** The element at the end of the field's path; `None` where Python raises AttributeError. */
  function Resolve(root: Element, ns: string, f: Field): Option<Element> {
    match FindDescendant(root, QName(ns, f.first))
    case None => None
    case Some(e) => Follow(e, ns, f.rest)
  }

  /** The value a field's `try` block prints: the sentinel case, or the text of the element found. */
  function Lookup(root: Element, ns: string, f: Field): (r: FieldValue)
    ensures r.Undefined? <==> Resolve(root, ns, f).None?
    ensures r.Shown? ==> r.text == Resolve(root, ns, f).value.text
  {
    match Resolve(root, ns, f)
    case None => Undefined
    case Some(e) => Shown(e.text)
  }

  /** Python's `'%s' % value` on the looked-up text, or the sentinel. */
  function Render(v: FieldValue): string {
    match v
    case Undefined => Sentinel
    case Shown(None) => "None"
    case Shown(Some(t)) => t
  }

  /** `name` followed by spaces up to `LabelWidth`. */
  function Pad(name: string): (r: string)
    ensures |name| <= LabelWidth ==> |r| == LabelWidth
    ensures |name| <= |r| && r[..|name|] == name
    ensures forall i :: |name| <= i < |r| ==> r[i] == ' '
    decreases LabelWidth - |name|
  {
    if |name| >= LabelWidth then name
    else
      var r := Pad(name + " ");
      assert r[..|name|] == (name + " ")[..|name|];
      r
  }

  /** What stands between a padded label and its value. */
  const Separator: string := ['='] + "   "

  /** One printed field: `\n`, the padded label, `=   `, the value. */
  function FieldLine(name: string, value: string): string {
    ['\n'] + Pad(name) + Separator + value
  }

  /** The printed lines of the fields `fs`, in order. */
  function FieldsText(root: Element, ns: string, fs: seq<Field>): string {
    if |fs| == 0 then ""
    else FieldLine(Label(fs[0]), Render(Lookup(root, ns, fs[0]))) + FieldsText(root, ns, fs[1..])
  }

  const DescriptionFields: seq<Field> := [
    Field("Description", ["sourceImageInformation", "fileName"]),
    Field("Description", ["sourceImageInformation", "fileIdentifier"]),
    Field("Description", ["sourceImageInformation", "documentIdentifier"]),
    Field("Description", ["MeasurementUnit"])
  ]

  /** The eight fields of a processing step, the same for the pre-, ocr- and post-processing step. */
  function StepFields(step: string): seq<Field> {
    [
      Field(step, ["processingDateTime"]),
      Field(step, ["processingAgency"]),
      Field(step, ["processingStepDescription"]),
      Field(step, ["processingStepSettings"]),
      Field(step, ["processingSoftware", "softwareCreator"]),
      Field(step, ["processingSoftware", "softwareName"]),
      Field(step, ["processingSoftware", "softwareVersion"]),
      Field(step, ["processingSoftware", "applicationDescription"])
    ]
  }

  /** The ID attribute of the first OCRProcessing: the sentinel only when there is no OCRProcessing. */
  function ProcessingId(root: Element, ns: string): FieldValue {
    match FindDescendant(root, QName(ns, "OCRProcessing"))
    case None => Undefined
    case Some(e) => Shown(Attr(e, "ID"))
  }

  const DescriptionHeader := "\n<" + "Description>\n"

  /** The description header and its four fields. */
  function DescriptionSection(root: Element, ns: string): (r: string)
    ensures |DescriptionHeader| <= |r| && r[..|DescriptionHeader|] == DescriptionHeader
  {
    DescriptionHeader + FieldsText(root, ns, DescriptionFields)
  }

  /** The report keeps the description header in front and ends with a line break. */
  lemma HeaderFirst(description: string, rest: string)
    requires |DescriptionHeader| <= |description| && description[..|DescriptionHeader|] == DescriptionHeader
    ensures |DescriptionHeader| <= |description + rest + "\n"|
    ensures (description + rest + "\n")[..|DescriptionHeader|] == DescriptionHeader
    ensures (description + rest + "\n")[|description + rest + "\n"| - 1] == '\n'
  {
    assert (description + rest + "\n")[..|DescriptionHeader|] == description[..|DescriptionHeader|];
  }

  /** The OCRProcessing header and its ID line. */
  function IdSection(root: Element, ns: string): string {
    "\n\n<" + "OCRProcessing>\n" + FieldLine("ID", Render(ProcessingId(root, ns)))
  }

  /** The header naming a processing step, then the step's eight fields. */
  function StepSection(root: Element, ns: string, step: string): string {
    "\n\n<" + step + ">\n" + FieldsText(root, ns, StepFields(step))
  }

  /** The whole report for a document of namespace `ns`. */
  function Report(root: Element, ns: string): (r: string)
    ensures |DescriptionHeader| <= |r| && r[..|DescriptionHeader|] == DescriptionHeader
    ensures r[|r| - 1] == '\n'
  {
    var description := DescriptionSection(root, ns);
    var rest := IdSection(root, ns)
      + StepSection(root, ns, "preProcessingStep")
      + StepSection(root, ns, "ocrProcessingStep")
      + StepSection(root, ns, "postProcessingStep");
    HeaderFirst(description, rest);
    description + rest + "\n"
  }

  /** The metadata script: the report when the root-tag namespace passes the three-URI gate, the error line otherwise. */
  function OcrMetadata(root: Element): (r: string)
    ensures Namespace.ScriptGate(root.tag).Some? ==> r == Report(root, Namespace.TagNamespace(root.tag))
    ensures Namespace.ScriptGate(root.tag).None? ==> r == Namespace.NotAlto
  {
    match Namespace.ScriptGate(root.tag)
    case None => Namespace.NotAlto
    case Some(ns) => Report(root, ns)
  }

  // ----- properties -----

  lemma {:induction false} FollowBelow(e: Element, ns: string, steps: seq<string>)
    requires Follow(e, ns, steps).Some?
    ensures |steps| == 0 ==> Follow(e, ns, steps).value == e
    ensures |steps| > 0 ==> Follow(e, ns, steps).value in Descendants(e)
    ensures |steps| > 0 ==> Follow(e, ns, steps).value.tag == QName(ns, steps[|steps| - 1])
    decreases |steps|
  {
    if |steps| > 0 {
      var c := FindChild(e, QName(ns, steps[0])).value;
      TaggedFrom(e.children, QName(ns, steps[0]), 0);
      BelowChild(e, c);
      FollowBelow(c, ns, steps[1..]);
      if |steps| > 1 {
        assert steps[1..][|steps[1..]| - 1] == steps[|steps| - 1];
      }
    }
  }

  /** The element a field prints lies below the root and carries the field's label. */
  lemma ResolvedElement(root: Element, ns: string, f: Field)
    requires Resolve(root, ns, f).Some?
    ensures Resolve(root, ns, f).value in Descendants(root)
    ensures Resolve(root, ns, f).value.tag == QName(ns, Label(f))
  {
    var found := IterFind(root, QName(ns, f.first));
    var first := found[0];
    TaggedFrom(Descendants(root), QName(ns, f.first), 0);
    assert first.tag == QName(ns, f.first) && first in Descendants(root);
    FollowBelow(first, ns, f.rest);
    BelowDescendant(root, first);
  }

  /**
   * A field's path starts at the earliest element of its first name in
   * document order; a later pre-, ocr- or postProcessingStep is never read.
   */
  lemma FirstStepOnly(root: Element, ns: string, f: Field)
    requires Resolve(root, ns, f).Some?
    ensures exists k :: 0 <= k < |Descendants(root)|
              && Descendants(root)[k].tag == QName(ns, f.first)
              && (forall j :: 0 <= j < k ==> Descendants(root)[j].tag != QName(ns, f.first))
              && Follow(Descendants(root)[k], ns, f.rest) == Resolve(root, ns, f)
  {
    FirstTaggedIsEarliest(Descendants(root), QName(ns, f.first));
  }

  /**
   * The three ways a field prints: the sentinel exactly when the path ends
   * nowhere; `None` for an element without text; the text otherwise.
   */
  lemma FieldOutcomes(root: Element, ns: string, f: Field)
    ensures Lookup(root, ns, f).Undefined? <==> Resolve(root, ns, f).None?
    ensures Resolve(root, ns, f).Some? && Resolve(root, ns, f).value.text.None? ==> Render(Lookup(root, ns, f)) == "None"
    ensures Resolve(root, ns, f).Some? && Resolve(root, ns, f).value.text.Some? ==>
              Render(Lookup(root, ns, f)) == Resolve(root, ns, f).value.text.value
  {
  }

  /** An OCRProcessing without an ID attribute prints `None`, not the sentinel. */
  lemma IdWithoutAttribute(root: Element, ns: string)
    requires FindDescendant(root, QName(ns, "OCRProcessing")).Some?
    requires "ID" !in FindDescendant(root, QName(ns, "OCRProcessing")).value.attrs
    ensures Render(ProcessingId(root, ns)) == "None"
  {
  }

  /** The printed fields are the fields' lines one after the other: each line depends on its own field only. */
  lemma {:induction false} FieldsTextConcat(root: Element, ns: string, a: seq<Field>, b: seq<Field>)
    ensures FieldsText(root, ns, a + b) == FieldsText(root, ns, a) + FieldsText(root, ns, b)
    decreases |a|
  {
    if |a| == 0 {
      assert a + b == b;
    } else {
      assert (a + b)[0] == a[0] && (a + b)[1..] == a[1..] + b;
      FieldsTextConcat(root, ns, a[1..], b);
    }
  }

  /** A missing field prints the sentinel and leaves the lines of every other field as they were. */
  lemma MissingFieldIsolated(root: Element, ns: string, before: seq<Field>, f: Field, after: seq<Field>)
    requires Resolve(root, ns, f).None?
    ensures FieldsText(root, ns, before + [f] + after)
         == FieldsText(root, ns, before) + FieldLine(Label(f), Sentinel) + FieldsText(root, ns, after)
  {
    assert FieldsText(root, ns, [f]) == FieldLine(Label(f), Sentinel) by {
      assert Lookup(root, ns, f) == Undefined;
      assert [f][1..] == [];
    }
    FieldsTextConcat(root, ns, before + [f], after);
    FieldsTextConcat(root, ns, before, [f]);
  }

  /** Each step section lists the same eight labels in the same order. */
  lemma StepLabels(step: string)
    ensures |StepFields(step)| == 8
    ensures forall k :: 0 <= k < 8 ==> Label(StepFields(step)[k]) == Label(StepFields("ocrProcessingStep")[k])
    ensures Label(StepFields(step)[0]) == "processingDateTime" && Label(StepFields(step)[7]) == "applicationDescription"
  {
  }

  /** Every label of the report fits the padding width. */
  lemma LabelsFit(step: string)
    ensures forall k :: 0 <= k < |DescriptionFields| ==> |Label(DescriptionFields[k])| <= LabelWidth
    ensures forall k :: 0 <= k < |StepFields(step)| ==> |Label(StepFields(step)[k])| <= LabelWidth
  {
  }

  /** A field line reads back: the padded label up to the `=`, the label once the padding is stripped, the value after `=   `. */
  lemma FieldLineReadsBack(name: string, value: string)
    requires 0 < |name| <= LabelWidth && '=' !in name && name[|name| - 1] != ' '
    ensures BeforeFirst(FieldLine(name, value)[1..], '=') == Pad(name)
    ensures StripRight(Pad(name), ' ') == name
    ensures FieldLine(name, value)[1 + LabelWidth + 4..] == value
  {
    var p := Pad(name);
    var line := FieldLine(name, value);
    LineParts(p, Separator, value);
    assert BeforeFirst(line[1..], '=') == p by {
      assert Separator[0] == '=';
      assert '=' !in p by {
        assert forall i :: 0 <= i < |p| ==> (i < |name| ==> p[i] == name[i]) && (i >= |name| ==> p[i] == ' ');
      }
      BeforeFirstAt(p, Separator[1..] + value, '=');
    }
    assert line[1 + LabelWidth + 4..] == value by {
      assert |p| == LabelWidth && |Separator[1..]| == 3;
    }
    StripPadding(name);
  }

  lemma LineParts(p: string, sep: string, value: string)
    requires |sep| > 0
    ensures (['\n'] + p + sep + value)[1..] == p + [sep[0]] + (sep[1..] + value)
    ensures (['\n'] + p + sep + value)[1 + |p| + |sep|..] == value
  {
    assert sep == [sep[0]] + sep[1..];
  }

  lemma StripPadding(name: string)
    requires |name| > 0 && name[|name| - 1] != ' '
    ensures StripRight(Pad(name), ' ') == name
  {
    var p := Pad(name);
    StripSpaces(name, p[|name|..]);
    assert p == name + p[|name|..];
  }

  lemma {:induction false} StripSpaces(s: string, spaces: string)
    requires |s| > 0 && s[|s| - 1] != ' '
    requires forall i :: 0 <= i < |spaces| ==> spaces[i] == ' '
    ensures StripRight(s + spaces, ' ') == s
    decreases |spaces|
  {
    if |spaces| == 0 {
      assert s + spaces == s;
    } else {
      var t := s + spaces;
      assert t[..|t| - 1] == s + spaces[..|spaces| - 1];
      StripSpaces(s, spaces[..|spaces| - 1]);
    }
  }

  /** A document outside the script's three namespaces gets only the error line. */
  lemma RefusedDocument(root: Element)
    requires Namespace.ScriptGate(root.tag).None?
    ensures OcrMetadata(root) == Namespace.NotAlto
  {
  }

  /** An ALTO v4 document is refused, although the packaged tool accepts it. */
  lemma V4Refused(root: Element)
    requires root.tag == "{" + Namespace.Alto4 + "}" + "alto"
    ensures OcrMetadata(root) == Namespace.NotAlto
  {
    Namespace.ScriptsRefuseV4(root.tag);
  }

  /** A root element with no children gives the sentinel for every field and for the ID. */
  lemma EmptyDocument(root: Element, ns: string, f: Field)
    requires |root.children| == 0
    ensures Render(Lookup(root, ns, f)) == Sentinel
    ensures Render(ProcessingId(root, ns)) == Sentinel
  {
    assert Descendants(root) == [];
  }
}
