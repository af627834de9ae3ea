/**
 * Layout information: the bounding boxes of Illustration and
 * GraphicalElement regions, written as `ID=HEIGHT,WIDTH,VPOS,HPOS` records,
 * and the element statistics of a document.
 */
module Layout {
  import opened PyStr
  import opened AltoTree

  /** The output written so far and, once Python raised, the attribute whose absence made it raise. */
  datatype Written = Written(out: string, missing: Option<string>)

  /**
   * `HEIGHT + "," + WIDTH + "," + VPOS + "," + HPOS`; Python evaluates the
   * sum from the left, so the first absent attribute in that order raises.
   */
  function Coords(e: Element): (r: Result<string, string>)
    ensures r.Ok? <==> "HEIGHT" in e.attrs && "WIDTH" in e.attrs && "VPOS" in e.attrs && "HPOS" in e.attrs
    ensures r.Fail? ==> r.error !in e.attrs
  {
    if "HEIGHT" !in e.attrs then Fail("HEIGHT")
    else if "WIDTH" !in e.attrs then Fail("WIDTH")
    else if "VPOS" !in e.attrs then Fail("VPOS")
    else if "HPOS" !in e.attrs then Fail("HPOS")
    else Ok(e.attrs["HEIGHT"] + "," + e.attrs["WIDTH"] + "," + e.attrs["VPOS"] + "," + e.attrs["HPOS"])
  }

  /** `ID + "=" + coords`, the record of one region, or the first absent attribute. */
  function BoxRecord(e: Element): (r: Result<string, string>)
    ensures r.Ok? <==> HasBox(e)
    ensures r.Fail? ==> r.error !in e.attrs
  {
    match Coords(e)
    case Fail(k) => Fail(k)
    case Ok(c) => if "ID" in e.attrs then Ok(e.attrs["ID"] + "=" + c) else Fail("ID")
  }

  /** All five attributes of a box are present. */
  predicate HasBox(e: Element) {
    "ID" in e.attrs && "HEIGHT" in e.attrs && "WIDTH" in e.attrs && "VPOS" in e.attrs && "HPOS" in e.attrs
  }

  /** What the packaged tool writes before each record: `File: <name>, <kind>: `. */
  function Prefix(name: string, kind: string): string {
    "File: " + name + ", " + kind + ": "
  }

  /** The packaged tool's line for one region. */
  function BoxLine(name: string, kind: string, record: string): string {
    "\n" + Prefix(name, kind) + record
  }

  /** One pass of the packaged tool's loop: the region's line, or the first absent attribute. */
  function BoxStep(name: string, kind: string, prev: Written, e: Element): Written {
    if prev.missing.Some? then prev
    else match BoxRecord(e)
      case Fail(k) => prev.(missing := Some(k))
      case Ok(r) => prev.(out := prev.out + BoxLine(name, kind, r))
  }

  /** The packaged tool's loop over the regions `es`, stopping at the first incomplete one. */
  function Boxes(name: string, kind: string, es: seq<Element>): Written
    decreases |es|
  {
    if |es| == 0 then Written("", None)
    else BoxStep(name, kind, Boxes(name, kind, es[..|es| - 1]), es[|es| - 1])
  }

  /**
   * One pass of the older tool's loop: the coordinates are built first,
   * then a line break is written, then `ID + "=" + coords`; a region without
   * ID fails after its line break.
   */
  function LegacyStep(prev: Written, e: Element): (r: Written)
    ensures prev.missing.Some? ==> r == prev
    ensures prev.missing.None? ==> (r.missing.None? <==> HasBox(e))
    ensures prev.missing.None? && r.missing.None? ==> r.out == prev.out + "\n" + Record(e)
    ensures r.missing.Some? && prev.missing.None? ==> r.missing.value !in e.attrs
  {
    if prev.missing.Some? then prev
    else match Coords(e)
      case Fail(k) => prev.(missing := Some(k))
      case Ok(c) =>
        if "ID" in e.attrs then prev.(out := prev.out + "\n" + (e.attrs["ID"] + "=" + c))
        else Written(prev.out + "\n", Some("ID"))
  }

  /** The older tool's loop over the regions `es`. */
  function LegacyBoxes(es: seq<Element>): Written
    decreases |es|
  {
    if |es| == 0 then Written("", None)
    else LegacyStep(LegacyBoxes(es[..|es| - 1]), es[|es| - 1])
  }

  lemma {:induction false} BoxesStuck(name: string, kind: string, es: seq<Element>, k: nat)
    requires k <= |es| && Boxes(name, kind, es[..k]).missing.Some?
    ensures Boxes(name, kind, es) == Boxes(name, kind, es[..k])
    decreases |es| - k
  {
    if k < |es| {
      var init := es[..|es| - 1];
      assert init[..k] == es[..k];
      BoxesStuck(name, kind, init, k);
    } else {
      assert es[..k] == es;
    }
  }

  lemma {:induction false} LegacyBoxesStuck(es: seq<Element>, k: nat)
    requires k <= |es| && LegacyBoxes(es[..k]).missing.Some?
    ensures LegacyBoxes(es) == LegacyBoxes(es[..k])
    decreases |es| - k
  {
    if k < |es| {
      var init := es[..|es| - 1];
      assert init[..k] == es[..k];
      LegacyBoxesStuck(init, k);
    } else {
      assert es[..k] == es;
    }
  }

  /**
   * The loop of the packaged `alto_illustrations` and `alto_graphics`: one
   * line per region of local name `kind` in document order.
   */
  method WriteBoxes(name: string, root: Element, xmlns: string, kind: string) returns (out: string, missing: Option<string>)
    ensures Written(out, missing) == Boxes(name, kind, IterFind(root, QName(xmlns, kind)))
  {
    var es := IterFind(root, QName(xmlns, kind));
    out, missing := "", None;
    var i := 0;
    while i < |es|
      invariant 0 <= i <= |es|
      invariant Boxes(name, kind, es[..i]) == Written(out, None)
    {
      var e := es[i];
      assert es[..i + 1][..i] == es[..i];
      var record := BoxRecord(e);
      if record.Fail? {
        missing := Some(record.error);
        BoxesStuck(name, kind, es, i + 1);
        return;
      }
      out := out + BoxLine(name, kind, record.value);
      i := i + 1;
    }
    assert es[..i] == es;
  }

  /** The packaged `alto_illustrations`. */
  method AltoIllustrations(name: string, root: Element, xmlns: string) returns (out: string, missing: Option<string>)
    ensures Written(out, missing) == Boxes(name, "Illustration", IterFind(root, QName(xmlns, "Illustration")))
  {
    out, missing := WriteBoxes(name, root, xmlns, "Illustration");
  }

  /** The packaged `alto_graphics`. */
  method AltoGraphics(name: string, root: Element, xmlns: string) returns (out: string, missing: Option<string>)
    ensures Written(out, missing) == Boxes(name, "GraphicalElement", IterFind(root, QName(xmlns, "GraphicalElement")))
  {
    out, missing := WriteBoxes(name, root, xmlns, "GraphicalElement");
  }

  /** `alto_illustrations` of the older tool. */
  method LegacyIllustrations(root: Element, xmlns: string) returns (out: string, missing: Option<string>)
    ensures Written(out, missing) == LegacyBoxes(IterFind(root, QName(xmlns, "Illustration")))
  {
    var es := IterFind(root, QName(xmlns, "Illustration"));
    out, missing := "", None;
    var i := 0;
    while i < |es|
      invariant 0 <= i <= |es|
      invariant LegacyBoxes(es[..i]) == Written(out, None)
    {
      var e := es[i];
      assert es[..i + 1][..i] == es[..i];
      var coords := Coords(e);
      if coords.Fail? {
        missing := Some(coords.error);
        LegacyBoxesStuck(es, i + 1);
        return;
      }
      ghost var before := out;
      out := out + "\n";
      if "ID" !in e.attrs {
        missing := Some("ID");
        assert LegacyBoxes(es[..i + 1]) == Written(before + "\n", Some("ID"));
        LegacyBoxesStuck(es, i + 1);
        return;
      }
      out := out + (e.attrs["ID"] + "=" + coords.value);
      assert LegacyBoxes(es[..i + 1]) == Written(before + "\n" + (e.attrs["ID"] + "=" + coords.value), None);
      i := i + 1;
    }
    assert es[..i] == es;
  }

  // ----- the records against an independent definition -----

  /** The value of attribute `key`, empty when absent. */
  function Field(e: Element, key: string): string {
    if key in e.attrs then e.attrs[key] else ""
  }

  /** `ID=HEIGHT,WIDTH,VPOS,HPOS` from the five attribute values. */
  function Record(e: Element): string {
    Field(e, "ID") + "=" + (Field(e, "HEIGHT") + "," + Field(e, "WIDTH") + "," + Field(e, "VPOS") + "," + Field(e, "HPOS"))
  }

  /** A line break, then `prefix`, then the record of `e`. */
  function Line(prefix: string, e: Element): string {
    "\n" + prefix + Record(e)
  }

  /** The lines `prefix + record` of the regions `es`, each after a line break, first region first. */
  function Lines(prefix: string, es: seq<Element>): string {
    if |es| == 0 then "" else Line(prefix, es[0]) + Lines(prefix, es[1..])
  }

  lemma {:induction false} LinesSnoc(prefix: string, es: seq<Element>)
    requires |es| > 0
    ensures Lines(prefix, es) == Lines(prefix, es[..|es| - 1]) + Line(prefix, es[|es| - 1])
    decreases |es|
  {
    if |es| > 1 {
      assert es[1..][..|es[1..]| - 1] == es[..|es| - 1][1..];
      LinesSnoc(prefix, es[1..]);
    }
  }

  /** A region has a record exactly when it has all five attributes; the record is then `ID=HEIGHT,WIDTH,VPOS,HPOS`. */
  lemma RecordIffBox(e: Element)
    ensures BoxRecord(e).Ok? <==> HasBox(e)
    ensures HasBox(e) ==> BoxRecord(e) == Ok(Record(e))
  {
  }

  lemma {:induction false} BoxesComplete(name: string, kind: string, es: seq<Element>)
    requires forall k :: 0 <= k < |es| ==> HasBox(es[k])
    ensures Boxes(name, kind, es) == Written(Lines(Prefix(name, kind), es), None)
    decreases |es|
  {
    if |es| > 0 {
      var init := es[..|es| - 1];
      assert forall k :: 0 <= k < |init| ==> init[k] == es[k];
      LinesSnoc(Prefix(name, kind), es);
      BoxesComplete(name, kind, init);
      RecordIffBox(es[|es| - 1]);
    }
  }

  lemma {:induction false} BoxesIncomplete(name: string, kind: string, es: seq<Element>, k: nat)
    requires k < |es| && !HasBox(es[k])
    ensures Boxes(name, kind, es).missing.Some?
    decreases |es|
  {
    if k < |es| - 1 {
      BoxesIncomplete(name, kind, es[..|es| - 1], k);
    }
  }

  /**
   * The packaged tool writes one line `File: <name>, <kind>: ID=HEIGHT,WIDTH,VPOS,HPOS`
   * per region in document order when every region is complete, and fails
   * exactly when some region lacks one of the five attributes.
   */
  lemma BoxesMeaning(name: string, kind: string, es: seq<Element>)
    ensures (forall k :: 0 <= k < |es| ==> HasBox(es[k])) ==>
              Boxes(name, kind, es) == Written(Lines(Prefix(name, kind), es), None)
    ensures (exists k :: 0 <= k < |es| && !HasBox(es[k])) ==> Boxes(name, kind, es).missing.Some?
  {
    if forall k :: 0 <= k < |es| ==> HasBox(es[k]) {
      BoxesComplete(name, kind, es);
    } else {
      var k :| 0 <= k < |es| && !HasBox(es[k]);
      BoxesIncomplete(name, kind, es, k);
    }
  }

  lemma {:induction false} LegacyBoxesComplete(es: seq<Element>)
    requires forall k :: 0 <= k < |es| ==> HasBox(es[k])
    ensures LegacyBoxes(es) == Written(Lines("", es), None)
    decreases |es|
  {
    if |es| > 0 {
      var init := es[..|es| - 1];
      assert forall k :: 0 <= k < |init| ==> init[k] == es[k];
      LinesSnoc("", es);
      LegacyBoxesComplete(init);
      var p := LegacyBoxes(init).out;
      assert "\n" + "" == "\n";
      assert p + Line("", es[|es| - 1]) == p + "\n" + Record(es[|es| - 1]);
    }
  }

  lemma {:induction false} LegacyBoxesIncomplete(es: seq<Element>, k: nat)
    requires k < |es| && !HasBox(es[k])
    ensures LegacyBoxes(es).missing.Some?
    decreases |es|
  {
    if k < |es| - 1 {
      LegacyBoxesIncomplete(es[..|es| - 1], k);
    }
  }

  /**
   * The older tool writes each record after a bare line break when every
   * region is complete, and fails exactly when some region is not.
   */
  lemma LegacyBoxesMeaning(es: seq<Element>)
    ensures (forall k :: 0 <= k < |es| ==> HasBox(es[k])) ==> LegacyBoxes(es) == Written(Lines("", es), None)
    ensures (exists k :: 0 <= k < |es| && !HasBox(es[k])) ==> LegacyBoxes(es).missing.Some?
  {
    if forall k :: 0 <= k < |es| ==> HasBox(es[k]) {
      LegacyBoxesComplete(es);
    } else {
      var k :| 0 <= k < |es| && !HasBox(es[k]);
      LegacyBoxesIncomplete(es, k);
    }
  }

  /** In the older tool a region with coordinates but no ID still gets its line break before the failure. */
  lemma LegacyBreakBeforeMissingId(es: seq<Element>, e: Element)
    requires LegacyBoxes(es).missing.None? && Coords(e).Ok? && "ID" !in e.attrs
    ensures LegacyBoxes(es + [e]) == Written(LegacyBoxes(es).out + "\n", Some("ID"))
    ensures Boxes("", "Illustration", [e]) == Written("", Some("ID"))
  {
    assert (es + [e])[..|es|] == es && (es + [e])[|es|] == e;
    assert [e][..0] == [];
  }

  /** The record splits back into the ID and the four coordinates when none of them holds a separator. */
  lemma RecordSplitsBack(e: Element)
    requires HasBox(e)
    requires '=' !in e.attrs["ID"]
    requires forall key :: key in ["HEIGHT", "WIDTH", "VPOS", "HPOS"] ==> '=' !in e.attrs[key] && ',' !in e.attrs[key]
    ensures Split(BoxRecord(e).value, '=') == [e.attrs["ID"], Coords(e).value]
    ensures Split(Coords(e).value, ',') == [e.attrs["HEIGHT"], e.attrs["WIDTH"], e.attrs["VPOS"], e.attrs["HPOS"]]
  {
    var h, w, v, p := e.attrs["HEIGHT"], e.attrs["WIDTH"], e.attrs["VPOS"], e.attrs["HPOS"];
    assert '=' !in h && '=' !in w && '=' !in v && '=' !in p;
    assert ',' !in h && ',' !in w && ',' !in v && ',' !in p;
    var coords := [h, w, v, p];
    assert coords[1..] == [w, v, p] && coords[1..][1..] == [v, p] && coords[1..][1..][1..] == [p];
    assert Join([p], ',') == p;
    assert Join([v, p], ',') == v + [','] + p;
    assert Join([w, v, p], ',') == w + [','] + (v + [','] + p);
    assert Join(coords, ',') == h + [','] + (w + [','] + (v + [','] + p));
    assert Coords(e).value == Join(coords, ',');
    SplitJoin(coords, ',');
    var c := Coords(e).value;
    assert '=' !in c;
    var parts := [e.attrs["ID"], c];
    assert Join(parts, '=') == e.attrs["ID"] + "=" + c by {
      assert parts[1..] == [c];
    }
    SplitJoin(parts, '=');
  }

  /** A complete region such as `block_20` with 201, 321, 61, 226 gives `block_20=201,321,61,226`. */
  lemma RecordExample(e: Element)
    requires e.attrs == map["ID" := "block_20", "HEIGHT" := "201", "WIDTH" := "321", "VPOS" := "61", "HPOS" := "226"]
    ensures BoxRecord(e) == Ok("block_20=201,321,61,226")
  {
    assert "ID" in e.attrs && e.attrs["ID"] == "block_20";
    assert Coords(e) == Ok("201" + "," + "321" + "," + "61" + "," + "226");
    assert "201" + "," + "321" + "," + "61" + "," + "226" == "201,321,61,226";
    assert "block_20" + "=" + "201,321,61,226" == "block_20=201,321,61,226";
  }

  // ----- statistics -----

  /** The decimal digit for `d`. */
  function Digit(d: nat): char
    requires d < 10
  {
    ('0' as int + d) as char
  }

  /** Python's `str(n)` for a natural number. */
  function Decimal(n: nat): (s: string)
    ensures |s| > 0 && forall i :: 0 <= i < |s| ==> '0' <= s[i] <= '9'
  {
    if n < 10 then [Digit(n)] else Decimal(n / 10) + [Digit(n % 10)]
  }

  /** The number a string of decimal digits denotes. */
  function DigitsValue(s: string): nat
    requires forall i :: 0 <= i < |s| ==> '0' <= s[i] <= '9'
  {
    if |s| == 0 then 0 else DigitsValue(s[..|s| - 1]) * 10 + (s[|s| - 1] as int - '0' as int)
  }

  /** Reading back what `Decimal` writes gives the number. */
  lemma {:induction false} DecimalRoundTrip(n: nat)
    ensures DigitsValue(Decimal(n)) == n
  {
    if n >= 10 {
      DecimalRoundTrip(n / 10);
      var s := Decimal(n);
      assert s[..|s| - 1] == Decimal(n / 10);
    }
  }

  /** The five tag counts of a document, under the keys `alto_statistics` returns. */
  function StatisticsOf(root: Element, xmlns: string): map<string, nat> {
    map[
      "textlines" := CountBelow(root, QName(xmlns, "TextLine")),
      "strings" := CountBelow(root, QName(xmlns, "String")),
      "glyphs" := CountBelow(root, QName(xmlns, "Glyph")),
      "illustrations" := CountBelow(root, QName(xmlns, "Illustration")),
      "graphics" := CountBelow(root, QName(xmlns, "GraphicalElement"))
    ]
  }

  /** The printed statistics block. */
  function StatisticsText(name: string, textlines: nat, strings: nat, glyphs: nat, illustrations: nat, graphics: nat): string {
    "\nFile: " + name + ", Statistics:"
    + "\n# of <TextLine> elements: " + Decimal(textlines)
    + "\n# of <String> elements: " + Decimal(strings)
    + "\n# of <Glyph> elements: " + Decimal(glyphs)
    + "\n# of <Illustration> elements: " + Decimal(illustrations)
    + "\n# of <GraphicalElement> elements: " + Decimal(graphics)
  }

  /** One `for ... in xml.iterfind(...): n += 1` loop. */
  method CountTagged(root: Element, tag: string) returns (n: nat)
    ensures n == |IterFind(root, tag)|
    ensures n == CountBelow(root, tag)
  {
    var found := IterFind(root, tag);
    n := 0;
    for i := 0 to |found|
      invariant n == |found[..i]|
    {
      n := n + 1;
    }
    IterFindCount(root, tag);
  }

  /** `alto_statistics`: the five counts, printed and returned under fixed keys. */
  method AltoStatistics(name: string, root: Element, xmlns: string) returns (out: string, stats: map<string, nat>)
    ensures stats == StatisticsOf(root, xmlns)
    ensures out == StatisticsText(name, stats["textlines"], stats["strings"], stats["glyphs"], stats["illustrations"], stats["graphics"])
  {
    var textlines := CountTagged(root, QName(xmlns, "TextLine"));
    var strings := CountTagged(root, QName(xmlns, "String"));
    var glyphs := CountTagged(root, QName(xmlns, "Glyph"));
    var illustrations := CountTagged(root, QName(xmlns, "Illustration"));
    var graphics := CountTagged(root, QName(xmlns, "GraphicalElement"));
    out := StatisticsText(name, textlines, strings, glyphs, illustrations, graphics);
    stats := map["textlines" := textlines, "strings" := strings, "glyphs" := glyphs,
                 "illustrations" := illustrations, "graphics" := graphics];
  }
}
