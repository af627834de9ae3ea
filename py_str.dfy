/**
 * The few Python string operations the ALTO tools rely on, over Dafny's
 * `string` (a sequence of characters): `sub in s`, `s.split(c)`,
 * `s.split(c)[0]`, `s.split(c)[1]` and `s.strip(c)` for a single character `c`.
 */
module PyStr {

  datatype Option<+T> = None | Some(value: T)

  /** `sub` occurs in `s` at index `i`. */
  ghost predicate OccursAt(s: string, sub: string, i: int) {
    0 <= i && i + |sub| <= |s| && s[i..i + |sub|] == sub
  }

  /** Python's `sub in s`. */
  function Contains(s: string, sub: string): (r: bool)
    ensures r <==> exists i :: OccursAt(s, sub, i)
    decreases |s|
  {
    if |sub| > |s| then false
    else if s[..|sub|] == sub then
      assert OccursAt(s, sub, 0);
      true
    else
      OccursShift(s, sub);
      Contains(s[1..], sub)
  }

  lemma OccursShift(s: string, sub: string)
    requires |sub| <= |s| && s[..|sub|] != sub
    ensures (exists i :: OccursAt(s, sub, i)) <==> (exists i :: OccursAt(s[1..], sub, i))
  {
    if i :| OccursAt(s, sub, i) {
      assert i != 0;
      assert s[1..][i - 1..i - 1 + |sub|] == s[i..i + |sub|];
      assert OccursAt(s[1..], sub, i - 1);
    }
    if i :| OccursAt(s[1..], sub, i) {
      assert s[1..][i..i + |sub|] == s[i + 1..i + 1 + |sub|];
      assert OccursAt(s, sub, i + 1);
    }
  }

  /** Python's `s.split(c)[0]`: the text before the first `c`, or all of `s`. */
  function BeforeFirst(s: string, c: char): (r: string)
    ensures r <= s && c !in r
    ensures |r| < |s| ==> s[|r|] == c
  {
    if |s| == 0 || s[0] == c then [] else [s[0]] + BeforeFirst(s[1..], c)
  }

  /** The prefix up to a separator is the only prefix that `BeforeFirst` can return. */
  lemma BeforeFirstAt(a: string, b: string, c: char)
    requires c !in a
    ensures BeforeFirst(a + [c] + b, c) == a
    ensures BeforeFirst(a, c) == a
  {
    var s := a + [c] + b;
    assert forall i :: 0 <= i < |a| ==> s[i] == a[i];
    assert s[|a|] == c;
    var r := BeforeFirst(s, c);
    assert r == s[..|a|] == a;
    var q := BeforeFirst(a, c);
  }

  /** Python's `s.split(c)` for a one-character separator. */
  function Split(s: string, c: char): (parts: seq<string>)
    ensures |parts| >= 1 && parts[0] == BeforeFirst(s, c)
    ensures forall k :: 0 <= k < |parts| ==> c !in parts[k]
    decreases |s|
  {
    var head := BeforeFirst(s, c);
    if |head| == |s| then [s] else [head] + Split(s[|head| + 1..], c)
  }

  /** Python's `c.join(parts)`. */
  function Join(parts: seq<string>, c: char): string
  {
    if |parts| == 0 then ""
    else if |parts| == 1 then parts[0]
    else parts[0] + [c] + Join(parts[1..], c)
  }

  /** Splitting undoes joining, provided no part contains the separator. */
  lemma {:induction false} SplitJoin(parts: seq<string>, c: char)
    requires |parts| >= 1
    requires forall k :: 0 <= k < |parts| ==> c !in parts[k]
    ensures Split(Join(parts, c), c) == parts
    decreases |parts|
  {
    if |parts| == 1 {
      assert Join(parts, c) == parts[0];
      BeforeFirstAt(parts[0], "", c);
      assert Split(parts[0], c) == [parts[0]];
    } else {
      var rest := Join(parts[1..], c);
      var s := parts[0] + [c] + rest;
      assert Join(parts, c) == s;
      assert Split(s, c) == [parts[0]] + Split(rest, c) by {
        BeforeFirstAt(parts[0], rest, c);
        assert s[|parts[0]| + 1..] == rest;
      }
      SplitJoin(parts[1..], c);
      assert parts == [parts[0]] + parts[1..];
    }
  }

  /** Joining undoes splitting. */
  lemma {:induction false} JoinSplit(s: string, c: char)
    ensures Join(Split(s, c), c) == s
    decreases |s|
  {
    var head := BeforeFirst(s, c);
    if |head| < |s| {
      var tail := s[|head| + 1..];
      var ps := Split(tail, c);
      assert Split(s, c) == [head] + ps;
      JoinSplit(tail, c);
      assert ([head] + ps)[1..] == ps;
      assert Join([head] + ps, c) == head + [c] + Join(ps, c);
      assert s == head + [c] + tail;
    } else {
      assert head == s;
      assert Split(s, c) == [s];
    }
  }

  /** Python's `s.split(c)[1]`; `None` where Python raises IndexError. */
  function SecondField(s: string, c: char): (r: Option<string>)
    ensures r.None? <==> c !in s
  {
    var parts := Split(s, c);
    if |parts| >= 2 then Some(parts[1]) else None
  }

  /** Python's `s.lstrip(c)`. */
  function StripLeft(s: string, c: char): (r: string)
    ensures |r| <= |s| && r == s[|s| - |r|..]
    ensures |r| > 0 ==> r[0] != c
    ensures forall i :: 0 <= i < |s| - |r| ==> s[i] == c
  {
    if |s| > 0 && s[0] == c then StripLeft(s[1..], c) else s
  }

  /** Python's `s.rstrip(c)`. */
  function StripRight(s: string, c: char): (r: string)
    ensures |r| <= |s| && r == s[..|r|]
    ensures |r| > 0 ==> r[|r| - 1] != c
    ensures forall i :: |r| <= i < |s| ==> s[i] == c
  {
    if |s| > 0 && s[|s| - 1] == c then StripRight(s[..|s| - 1], c) else s
  }

  /** Python's `s.strip(c)`: every leading and every trailing `c` removed. */
  function Strip(s: string, c: char): (r: string)
    ensures |r| > 0 ==> r[0] != c && r[|r| - 1] != c
    ensures forall x :: x in r ==> x in s
  {
    StripRight(StripLeft(s, c), c)
  }

  /** Stripping leaves a string that neither starts nor ends with `c` unchanged. */
  lemma StripUntouched(s: string, c: char)
    requires |s| == 0 || (s[0] != c && s[|s| - 1] != c)
    ensures Strip(s, c) == s
  {
    var l := StripLeft(s, c);
    var r := StripRight(l, c);
  }

  /** One leading `c` is removed from `[c] + u`, and nothing else. */
  lemma StripOneLeading(u: string, c: char)
    requires |u| > 0 && u[0] != c && u[|u| - 1] != c
    ensures Strip([c] + u, c) == u
  {
    var s := [c] + u;
    assert s[1..] == u && s[0] == c;
    var l := StripLeft(s, c);
    assert l == u;
    StripUntouched(u, c);
  }

  /** One trailing `c` is removed from `u + [c]`, and nothing else. */
  lemma StripOneTrailing(u: string, c: char)
    requires |u| > 0 && u[0] != c && u[|u| - 1] != c
    ensures Strip(u + [c], c) == u
  {
    var s := u + [c];
    assert s[0] == u[0];
    assert StripLeft(s, c) == s;
    assert s[..|u|] == u && s[|u|] == c;
    assert StripRight(s, c) == StripRight(u, c);
    StripUntouched(u, c);
  }

  /** One `c` is removed from each end of `[c] + u + [c]`, and nothing else. */
  lemma StripOneEach(u: string, c: char)
    requires |u| > 0 && u[0] != c && u[|u| - 1] != c
    ensures Strip([c] + u + [c], c) == u
  {
    var s := [c] + u + [c];
    var l := u + [c];
    assert StripLeft(s, c) == l by {
      assert s[1..] == l && s[0] == c && l[0] == u[0];
    }
    assert StripRight(l, c) == u by {
      assert l[..|u|] == u && l[|u|] == c;
      StripUntouched(u, c);
    }
  }
}
