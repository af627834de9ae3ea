/**
 * Word confidence: the mean of the WC attributes of the String elements of a
 * document, as a percentage, before Python's `round`.
 *
 * Three versions exist: the packaged `alto_confidence` skips Strings without
 * WC; the older one and the one-shot confidence script read WC on every
 * String, so a String without WC fails (`float(None)`). The script also looks
 * only at Strings of the ALTO 2 namespace and divides by zero when there is
 * none. `main` averages the per-file results over a folder.
 *
 * Python's `float()` is the parameter `toFloat`: `None` where it raises
 * ValueError.
 */
module Confidence {
  import opened PyStr
  import opened AltoTree
  import Namespace

  /** The Python exceptions a confidence computation can raise. */
  datatype ConfError =
    | MissingWc          // `float(None)`: a String without WC where WC is required
    | BadWc(wc: string)  // `float(wc)` raising ValueError
    | ZeroDivision       // `score / count` with no String counted

  /** The accumulators `score` and `count`. */
  datatype Tally = Tally(score: real, count: nat)

  /** The WC of one String, when it is present and `float()` accepts it. */
  predicate Parses(s: Element, toFloat: string -> Option<real>) {
    "WC" in s.attrs && toFloat(s.attrs["WC"]).Some?
  }

  /** The WC value of a String whose WC parses. */
  function WcValue(s: Element, toFloat: string -> Option<real>): real
    requires Parses(s, toFloat)
  {
    toFloat(s.attrs["WC"]).value
  }

  /**
   * One pass of the String loop: a String with WC adds its value to `score`
   * and one to `count`; a String without WC is skipped when `skipMissing`
   * holds and fails otherwise. A failure stops the loop.
   */
  function TallyStep(prev: Result<Tally, ConfError>, s: Element, toFloat: string -> Option<real>, skipMissing: bool): (r: Result<Tally, ConfError>)
    ensures prev.Fail? ==> r == prev
    ensures prev.Ok? ==> (r.Fail? <==> !Parses(s, toFloat) && !(skipMissing && "WC" !in s.attrs))
    ensures prev.Ok? && r.Ok? && Parses(s, toFloat) ==>
              r.value == Tally(prev.value.score + WcValue(s, toFloat), prev.value.count + 1)
    ensures prev.Ok? && r.Ok? && !Parses(s, toFloat) ==> r == prev
  {
    match prev
    case Fail(e) => Fail(e)
    case Ok(t) =>
      if "WC" !in s.attrs then (if skipMissing then Ok(t) else Fail(MissingWc))
      else match toFloat(s.attrs["WC"])
        case None => Fail(BadWc(s.attrs["WC"]))
        case Some(x) => Ok(Tally(t.score + x, t.count + 1))
  }

  /** The accumulators after the loop over `strs`, or the exception that stopped it. */
  function WcTally(strs: seq<Element>, toFloat: string -> Option<real>, skipMissing: bool): Result<Tally, ConfError>
    decreases |strs|
  {
    if |strs| == 0 then Ok(Tally(0.0, 0))
    else TallyStep(WcTally(strs[..|strs| - 1], toFloat, skipMissing), strs[|strs| - 1], toFloat, skipMissing)
  }

  /** `100 * (score / count)`, the value rounded and printed. */
  function Percent(t: Tally): real
    requires t.count > 0
  {
    100.0 * (t.score / t.count as real)
  }

  /** The result of the packaged `alto_confidence`; `None` is the "00.00" case, which returns 0. */
  function FileConfidence(root: Element, xmlns: string, toFloat: string -> Option<real>): (r: Result<Option<real>, ConfError>)
    ensures r.Fail? <==> SomeWcRejected(IterFind(root, QName(xmlns, "String")), toFloat)
  {
    SkipFailsIffUnparsable(IterFind(root, QName(xmlns, "String")), toFloat);
    match WcTally(IterFind(root, QName(xmlns, "String")), toFloat, true)
    case Fail(e) => Fail(e)
    case Ok(t) => if t.count > 0 then Ok(Some(Percent(t))) else Ok(None)
  }

  /** What `alto_confidence` returns to `main`. */
  function Returned(r: Option<real>): real {
    match r
    case None => 0.0
    case Some(p) => p
  }

  lemma {:induction false} TallyStuck(strs: seq<Element>, k: nat, toFloat: string -> Option<real>, skipMissing: bool)
    requires k <= |strs| && WcTally(strs[..k], toFloat, skipMissing).Fail?
    ensures WcTally(strs, toFloat, skipMissing) == WcTally(strs[..k], toFloat, skipMissing)
    decreases |strs| - k
  {
    if k < |strs| {
      var init := strs[..|strs| - 1];
      assert init[..k] == strs[..k];
      TallyStuck(init, k, toFloat, skipMissing);
    } else {
      assert strs[..k] == strs;
    }
  }

  lemma TallyNext(strs: seq<Element>, k: nat, toFloat: string -> Option<real>, skipMissing: bool)
    requires k < |strs|
    ensures WcTally(strs[..k + 1], toFloat, skipMissing)
         == TallyStep(WcTally(strs[..k], toFloat, skipMissing), strs[k], toFloat, skipMissing)
  {
    assert strs[..k + 1][..k] == strs[..k];
  }

  lemma TallySnoc(strs: seq<Element>, s: Element, toFloat: string -> Option<real>, skipMissing: bool)
    ensures WcTally(strs + [s], toFloat, skipMissing) == TallyStep(WcTally(strs, toFloat, skipMissing), s, toFloat, skipMissing)
  {
    assert (strs + [s])[..|strs|] == strs;
  }

  /** The body of the String loop for one String. */
  method AddWc(t: Tally, s: Element, toFloat: string -> Option<real>, skipMissing: bool) returns (r: Result<Tally, ConfError>)
    ensures r == TallyStep(Ok(t), s, toFloat, skipMissing)
  {
    var wc := Attr(s, "WC");
    if wc.None? {
      if !skipMissing {
        return Fail(MissingWc);
      }
      return Ok(t);
    }
    var x := toFloat(wc.value);
    if x.None? {
      return Fail(BadWc(wc.value));
    }
    return Ok(Tally(t.score + x.value, t.count + 1));
  }

  /** The String loop shared by the packaged and the older `alto_confidence` and the script. */
  method SumWc(strs: seq<Element>, toFloat: string -> Option<real>, skipMissing: bool) returns (r: Result<Tally, ConfError>)
    ensures r == WcTally(strs, toFloat, skipMissing)
  {
    var tally := Tally(0.0, 0);
    var i := 0;
    while i < |strs|
      invariant 0 <= i <= |strs|
      invariant WcTally(strs[..i], toFloat, skipMissing) == Ok(tally)
    {
      TallyNext(strs, i, toFloat, skipMissing);
      r := AddWc(tally, strs[i], toFloat, skipMissing);
      if r.Fail? {
        TallyStuck(strs, i + 1, toFloat, skipMissing);
        return;
      }
      tally := r.value;
      i := i + 1;
    }
    assert strs[..i] == strs;
    return Ok(tally);
  }

  /**
   * The packaged `alto_confidence`: Strings without WC are skipped in both
   * the sum and the count; with nothing counted the result is `None`
   * (printed as "00.00", returned as 0).
   */
  method AltoConfidence(root: Element, xmlns: string, toFloat: string -> Option<real>) returns (r: Result<Option<real>, ConfError>)
    ensures r == FileConfidence(root, xmlns, toFloat)
  {
    var tally := SumWc(IterFind(root, QName(xmlns, "String")), toFloat, true);
    if tally.Fail? {
      return Fail(tally.error);
    }
    if tally.value.count > 0 {
      var confidence := tally.value.score / tally.value.count as real;
      assert 100.0 * confidence == Percent(tally.value);
      return Ok(Some(100.0 * confidence));
    }
    return Ok(None);
  }

  /**
   * The older `alto_confidence`: every String is read, so one without WC
   * fails; with no String the printed value is "00.00" (`None`).
   */
  method LegacyConfidence(root: Element, xmlns: string, toFloat: string -> Option<real>) returns (r: Result<Option<real>, ConfError>)
    ensures match WcTally(IterFind(root, QName(xmlns, "String")), toFloat, false)
            case Fail(e) => r == Fail(e)
            case Ok(t) => r == if t.count > 0 then Ok(Some(Percent(t))) else Ok(None)
  {
    var tally := SumWc(IterFind(root, QName(xmlns, "String")), toFloat, false);
    if tally.Fail? {
      return Fail(tally.error);
    }
    if tally.value.count > 0 {
      var confidence := tally.value.score / tally.value.count as real;
      assert 100.0 * confidence == Percent(tally.value);
      return Ok(Some(100.0 * confidence));
    }
    return Ok(None);
  }

  /**
   * The confidence script: only Strings of the ALTO 2 namespace, whatever
   * the document's own namespace; every one of them must have WC, and with
   * none the division by zero fails.
   */
  method ScriptConfidence(root: Element, toFloat: string -> Option<real>) returns (r: Result<real, ConfError>)
    ensures match WcTally(IterFind(root, QName(Namespace.Alto2, "String")), toFloat, false)
            case Fail(e) => r == Fail(e)
            case Ok(t) => r == if t.count > 0 then Ok(Percent(t)) else Fail(ZeroDivision)
  {
    var tally := SumWc(IterFind(root, QName(Namespace.Alto2, "String")), toFloat, false);
    if tally.Fail? {
      return Fail(tally.error);
    }
    if tally.value.count == 0 {
      return Fail(ZeroDivision);
    }
    var confidence := tally.value.score / tally.value.count as real;
    assert 100.0 * confidence == Percent(tally.value);
    return Ok(100.0 * confidence);
  }

  /** A parsed document handed to `main`: its root and its namespace. */
  datatype Document = Document(root: Element, xmlns: string)

  /** One file of the folder loop: its confidence added to the sum, or its failure. */
  function FolderStep(prev: Result<real, ConfError>, d: Document, toFloat: string -> Option<real>): Result<real, ConfError> {
    match prev
    case Fail(e) => Fail(e)
    case Ok(sum) =>
      match FileConfidence(d.root, d.xmlns, toFloat)
      case Fail(e) => Fail(e)
      case Ok(c) => Ok(sum + Returned(c))
  }

  /** `confidence_sum` after the files `docs`, or the first failure. */
  function FolderSum(docs: seq<Document>, toFloat: string -> Option<real>): Result<real, ConfError>
    decreases |docs|
  {
    if |docs| == 0 then Ok(0.0)
    else FolderStep(FolderSum(docs[..|docs| - 1], toFloat), docs[|docs| - 1], toFloat)
  }

  /**
   * What the folder run reports: nothing without the confidence flag or with
   * fewer than two files, otherwise `confidence_sum / number_of_files`; any
   * file's failure stops the run.
   */
  function FolderReport(docs: seq<Document>, confidenceFlag: bool, toFloat: string -> Option<real>): Result<Option<real>, ConfError> {
    if !confidenceFlag then Ok(None)
    else match FolderSum(docs, toFloat)
      case Fail(e) => Fail(e)
      case Ok(sum) => if |docs| >= 2 then Ok(Some(sum / |docs| as real)) else Ok(None)
  }

  lemma {:induction false} FolderSumStuck(docs: seq<Document>, k: nat, toFloat: string -> Option<real>)
    requires k <= |docs| && FolderSum(docs[..k], toFloat).Fail?
    ensures FolderSum(docs, toFloat) == FolderSum(docs[..k], toFloat)
    decreases |docs| - k
  {
    if k < |docs| {
      var init := docs[..|docs| - 1];
      assert init[..k] == docs[..k];
      FolderSumStuck(init, k, toFloat);
    } else {
      assert docs[..k] == docs;
    }
  }

  /** `confidence_sum += alto_confidence(alto, xml, xmlns)` for one file. */
  method AddFile(confidenceSum: real, d: Document, toFloat: string -> Option<real>) returns (r: Result<real, ConfError>)
    ensures r == FolderStep(Ok(confidenceSum), d, toFloat)
  {
    var c := AltoConfidence(d.root, d.xmlns, toFloat);
    if c.Fail? {
      return Fail(c.error);
    }
    return Ok(confidenceSum + Returned(c.value));
  }

  /**
   * The confidence part of `main`: every file is counted; with the
   * confidence flag each file's result is added to the sum, and the folder
   * mean `Some(sum / files)` is reported only for two files or more.
   */
  method FolderConfidence(docs: seq<Document>, confidenceFlag: bool, toFloat: string -> Option<real>)
    returns (r: Result<Option<real>, ConfError>)
    ensures r == FolderReport(docs, confidenceFlag, toFloat)
  {
    var confidenceSum := 0.0;
    var numberOfFiles := 0;
    while numberOfFiles < |docs|
      invariant 0 <= numberOfFiles <= |docs|
      invariant confidenceFlag ==> FolderSum(docs[..numberOfFiles], toFloat) == Ok(confidenceSum)
    {
      var d := docs[numberOfFiles];
      numberOfFiles := numberOfFiles + 1;
      if confidenceFlag {
        assert docs[..numberOfFiles][..numberOfFiles - 1] == docs[..numberOfFiles - 1];
        assert FolderSum(docs[..numberOfFiles], toFloat) == FolderStep(Ok(confidenceSum), d, toFloat);
        var next := AddFile(confidenceSum, d, toFloat);
        if next.Fail? {
          FolderSumStuck(docs, numberOfFiles, toFloat);
          return Fail(next.error);
        }
        confidenceSum := next.value;
      }
    }
    assert docs[..numberOfFiles] == docs;
    if numberOfFiles >= 2 && confidenceFlag {
      return Ok(Some(confidenceSum / numberOfFiles as real));
    }
    return Ok(None);
  }

  // ----- the tally against an independent definition -----

  function Sum(xs: seq<real>): real {
    if |xs| == 0 then 0.0 else xs[0] + Sum(xs[1..])
  }

  /** The parsed WC values of `strs`, first String first. */
  function Values(strs: seq<Element>, toFloat: string -> Option<real>): seq<real>
    requires forall k :: 0 <= k < |strs| ==> Parses(strs[k], toFloat)
  {
    if |strs| == 0 then [] else [WcValue(strs[0], toFloat)] + Values(strs[1..], toFloat)
  }

  /** The Strings of `strs` that carry WC, in order. */
  function WithWc(strs: seq<Element>): (r: seq<Element>)
    ensures forall k :: 0 <= k < |r| ==> "WC" in r[k].attrs
  {
    if |strs| == 0 then []
    else (if "WC" in strs[0].attrs then [strs[0]] else []) + WithWc(strs[1..])
  }

  lemma {:induction false} SumAppend(xs: seq<real>, x: real)
    ensures Sum(xs + [x]) == Sum(xs) + x
    decreases |xs|
  {
    if |xs| == 0 {
      assert xs + [x] == [x] && [x][1..] == [];
    } else {
      assert (xs + [x])[1..] == xs[1..] + [x];
      SumAppend(xs[1..], x);
    }
  }

  lemma {:induction false} ValuesSnoc(strs: seq<Element>, toFloat: string -> Option<real>)
    requires |strs| > 0 && forall k :: 0 <= k < |strs| ==> Parses(strs[k], toFloat)
    ensures Values(strs, toFloat) == Values(strs[..|strs| - 1], toFloat) + [WcValue(strs[|strs| - 1], toFloat)]
    decreases |strs|
  {
    if |strs| > 1 {
      assert strs[1..][..|strs[1..]| - 1] == strs[..|strs| - 1][1..];
      ValuesSnoc(strs[1..], toFloat);
    }
  }

  lemma {:induction false} WithWcSnoc(strs: seq<Element>)
    requires |strs| > 0
    ensures WithWc(strs) == WithWc(strs[..|strs| - 1]) + (if "WC" in strs[|strs| - 1].attrs then [strs[|strs| - 1]] else [])
    decreases |strs|
  {
    if |strs| > 1 {
      assert strs[1..][..|strs[1..]| - 1] == strs[..|strs| - 1][1..];
      WithWcSnoc(strs[1..]);
    }
  }

  lemma ParsedStep(t: Tally, s: Element, toFloat: string -> Option<real>, skipMissing: bool)
    requires Parses(s, toFloat)
    ensures TallyStep(Ok(t), s, toFloat, skipMissing) == Ok(Tally(t.score + WcValue(s, toFloat), t.count + 1))
  {
  }

  /** When every WC is present and parses, the tally is the sum and the number of the values. */
  lemma {:induction false} TallyIsSum(strs: seq<Element>, toFloat: string -> Option<real>, skipMissing: bool)
    requires forall k :: 0 <= k < |strs| ==> Parses(strs[k], toFloat)
    ensures WcTally(strs, toFloat, skipMissing) == Ok(Tally(Sum(Values(strs, toFloat)), |strs|))
    decreases |strs|
  {
    if |strs| > 0 {
      var init, s := strs[..|strs| - 1], strs[|strs| - 1];
      assert forall k :: 0 <= k < |init| ==> init[k] == strs[k];
      TallyIsSum(init, toFloat, skipMissing);
      var vs, x := Values(init, toFloat), WcValue(s, toFloat);
      ValuesSnoc(strs, toFloat);
      SumAppend(vs, x);
      assert Parses(s, toFloat);
      ParsedStep(Tally(Sum(vs), |init|), s, toFloat, skipMissing);
    }
  }

  /** The strict tally fails exactly when some String has no WC or a WC `float()` rejects. */
  lemma {:induction false} StrictFailsIffUnparsable(strs: seq<Element>, toFloat: string -> Option<real>)
    ensures WcTally(strs, toFloat, false).Fail? <==> exists k :: 0 <= k < |strs| && !Parses(strs[k], toFloat)
    decreases |strs|
  {
    if |strs| > 0 {
      var init := strs[..|strs| - 1];
      StrictFailsIffUnparsable(init, toFloat);
      if exists k :: 0 <= k < |init| && !Parses(init[k], toFloat) {
        var k :| 0 <= k < |init| && !Parses(init[k], toFloat);
        assert strs[k] == init[k];
      }
      if exists k :: 0 <= k < |strs| && !Parses(strs[k], toFloat) {
        var k :| 0 <= k < |strs| && !Parses(strs[k], toFloat);
        if k < |init| {
          assert init[k] == strs[k];
        }
      }
    }
  }

  /** Some String carries a WC that `float()` rejects. */
  predicate SomeWcRejected(strs: seq<Element>, toFloat: string -> Option<real>) {
    exists k :: 0 <= k < |strs| && "WC" in strs[k].attrs && !Parses(strs[k], toFloat)
  }

  /** The packaged tally fails exactly when some String carries a WC that `float()` rejects. */
  lemma {:induction false} SkipFailsIffUnparsable(strs: seq<Element>, toFloat: string -> Option<real>)
    ensures WcTally(strs, toFloat, true).Fail? <==> SomeWcRejected(strs, toFloat)
    decreases |strs|
  {
    if |strs| > 0 {
      var init := strs[..|strs| - 1];
      SkipFailsIffUnparsable(init, toFloat);
      if exists k :: 0 <= k < |init| && "WC" in init[k].attrs && !Parses(init[k], toFloat) {
        var k :| 0 <= k < |init| && "WC" in init[k].attrs && !Parses(init[k], toFloat);
        assert strs[k] == init[k];
      }
      if exists k :: 0 <= k < |strs| && "WC" in strs[k].attrs && !Parses(strs[k], toFloat) {
        var k :| 0 <= k < |strs| && "WC" in strs[k].attrs && !Parses(strs[k], toFloat);
        if k < |init| {
          assert init[k] == strs[k];
        }
      }
    }
  }

  /** Skipping the Strings without WC is the same as tallying strictly over the Strings that have one. */
  lemma {:induction false} SkipIsFilter(strs: seq<Element>, toFloat: string -> Option<real>)
    ensures WcTally(strs, toFloat, true) == WcTally(WithWc(strs), toFloat, false)
    decreases |strs|
  {
    if |strs| > 0 {
      var init := strs[..|strs| - 1];
      var s := strs[|strs| - 1];
      WithWcSnoc(strs);
      SkipIsFilter(init, toFloat);
      if "WC" in s.attrs {
        TallySnoc(WithWc(init), s, toFloat, false);
        TallyStepAgrees(WcTally(init, toFloat, true), s, toFloat);
      } else {
        assert WithWc(strs) == WithWc(init);
      }
    }
  }

  lemma TallyStepAgrees(prev: Result<Tally, ConfError>, s: Element, toFloat: string -> Option<real>)
    requires "WC" in s.attrs
    ensures TallyStep(prev, s, toFloat, true) == TallyStep(prev, s, toFloat, false)
  {
  }

  /** On a document where every String has WC, the older and the packaged tool agree. */
  lemma LegacyAgreesWhenAllHaveWc(strs: seq<Element>, toFloat: string -> Option<real>)
    requires forall k :: 0 <= k < |strs| ==> "WC" in strs[k].attrs
    ensures WcTally(strs, toFloat, false) == WcTally(strs, toFloat, true)
  {
    SkipIsFilter(strs, toFloat);
    WithWcKeepsAll(strs);
  }

  lemma {:induction false} WithWcKeepsAll(strs: seq<Element>)
    requires forall k :: 0 <= k < |strs| ==> "WC" in strs[k].attrs
    ensures WithWc(strs) == strs
    decreases |strs|
  {
    if |strs| > 0 {
      assert strs[0] in strs;
      WithWcKeepsAll(strs[1..]);
    }
  }

  lemma {:induction false} SumBounds(xs: seq<real>)
    requires forall k :: 0 <= k < |xs| ==> 0.0 <= xs[k] <= 1.0
    ensures 0.0 <= Sum(xs) <= |xs| as real
    decreases |xs|
  {
    if |xs| > 0 {
      SumBounds(xs[1..]);
    }
  }

  lemma MeanBound(s: real, n: real)
    requires 0.0 <= s <= n && n > 0.0
    ensures 0.0 <= 100.0 * (s / n) <= 100.0
  {
    assert s / n <= 1.0 by {
      assert s / n == s * (1.0 / n) && n / n == 1.0;
    }
  }

  /** WC values within [0, 1] give a confidence within [0, 100]. */
  lemma PercentBounds(strs: seq<Element>, toFloat: string -> Option<real>)
    requires |strs| > 0
    requires forall k :: 0 <= k < |strs| ==> Parses(strs[k], toFloat) && 0.0 <= WcValue(strs[k], toFloat) <= 1.0
    ensures WcTally(strs, toFloat, false).Ok?
    ensures 0.0 <= Percent(WcTally(strs, toFloat, false).value) <= 100.0
  {
    TallyIsSum(strs, toFloat, false);
    ValuesAt(strs, toFloat);
    var xs := Values(strs, toFloat);
    SumBounds(xs);
    MeanBound(Sum(xs), |strs| as real);
  }

  lemma {:induction false} ValuesAt(strs: seq<Element>, toFloat: string -> Option<real>)
    requires forall k :: 0 <= k < |strs| ==> Parses(strs[k], toFloat)
    ensures |Values(strs, toFloat)| == |strs|
    ensures forall k :: 0 <= k < |strs| ==> Values(strs, toFloat)[k] == WcValue(strs[k], toFloat)
    decreases |strs|
  {
    if |strs| > 0 {
      ValuesAt(strs[1..], toFloat);
    }
  }

  /** Three words of confidence 0.9, 0.8 and 0.7 give 80. */
  lemma ThreeWordExample(strs: seq<Element>, toFloat: string -> Option<real>)
    requires |strs| == 3 && forall k :: 0 <= k < 3 ==> Parses(strs[k], toFloat)
    requires WcValue(strs[0], toFloat) == 0.9 && WcValue(strs[1], toFloat) == 0.8 && WcValue(strs[2], toFloat) == 0.7
    ensures WcTally(strs, toFloat, true).Ok? && Percent(WcTally(strs, toFloat, true).value) == 80.0
  {
    TallyIsSum(strs, toFloat, true);
    ValuesAt(strs, toFloat);
    var xs := Values(strs, toFloat);
    assert xs == [0.9, 0.8, 0.7];
    assert xs[1..] == [0.8, 0.7] && xs[1..][1..] == [0.7] && xs[1..][1..][1..] == [];
    assert Sum([0.7]) == 0.7;
    assert Sum([0.8, 0.7]) == 1.5;
    assert Sum(xs) == 2.4;
  }

  /**
   * A file in which no String has WC still counts in the folder divisor,
   * with 0 added to the sum.
   */
  lemma UnscoredFileCounts(docs: seq<Document>, d: Document, toFloat: string -> Option<real>)
    requires FileConfidence(d.root, d.xmlns, toFloat) == Ok(None)
    ensures FolderSum(docs + [d], toFloat) == FolderSum(docs, toFloat)
  {
    var all := docs + [d];
    assert all[..|all| - 1] == docs && all[|all| - 1] == d;
    match FolderSum(docs, toFloat) {
      case Fail(e) =>
      case Ok(sum) => assert sum + Returned(None) == sum;
    }
  }

  /** Two files of confidence 78.29 and 81.71 make a folder confidence of 80. */
  lemma FolderExample(d1: Document, d2: Document, toFloat: string -> Option<real>)
    requires FileConfidence(d1.root, d1.xmlns, toFloat) == Ok(Some(78.29))
    requires FileConfidence(d2.root, d2.xmlns, toFloat) == Ok(Some(81.71))
    ensures FolderReport([d1, d2], true, toFloat) == Ok(Some(80.0))
  {
    assert [d1, d2][..1] == [d1] && [d1][..0] == [];
    assert FolderSum([d1][..0], toFloat) == Ok(0.0);
    assert FolderSum([d1], toFloat) == Ok(78.29);
    assert FolderSum([d1, d2], toFloat) == Ok(160.0);
  }

  /**
   * The script never sees the Strings of a document whose elements all
   * belong to another namespace: it divides by zero.
   */
  lemma ScriptNeedsAlto2Strings(root: Element, toFloat: string -> Option<real>)
    requires CountBelow(root, QName(Namespace.Alto2, "String")) == 0
    ensures WcTally(IterFind(root, QName(Namespace.Alto2, "String")), toFloat, false) == Ok(Tally(0.0, 0))
  {
    IterFindCount(root, QName(Namespace.Alto2, "String"));
  }
}
