/**
 * Joining rendered parts with a separator: the pure counterpart of the
 * `first`-flag loops that write ", " before every part but the first.
 */
module Joining {

  function Join(parts: seq<string>, sep: string): string
  {
    if |parts| == 0 then ""
    else if |parts| == 1 then parts[0]
    else parts[0] + sep + Join(parts[1..], sep)
  }

  /**
   * Appending one part, as one iteration of a `first`-flag loop does: the
   * separator is written exactly when something was written before.
   */
  lemma {:induction false} JoinSnoc(parts: seq<string>, p: string, sep: string)
    ensures Join(parts + [p], sep) == if parts == [] then p else Join(parts, sep) + sep + p
  {
    if |parts| > 1 {
      assert (parts + [p])[1..] == parts[1..] + [p];
      JoinSnoc(parts[1..], p, sep);
    } else if |parts| == 1 {
      assert (parts + [p])[1..] == [p];
    }
  }

  /** One step of building `open + Join(parts, sep)` left to right: append a
      separator unless this is the first part, then the part itself. */
  lemma JoinAppend(open: string, parts: seq<string>, p: string, sep: string, s: string)
    requires s == open + Join(parts, sep)
    ensures parts == [] ==> s + p == open + Join(parts + [p], sep)
    ensures parts != [] ==> s + sep + p == open + Join(parts + [p], sep)
  {
    JoinSnoc(parts, p, sep);
  }

  /** Where part i begins in the joined text. */
  function Offset(parts: seq<string>, sep: string, i: nat): nat
    requires i <= |parts|
  {
    if i == 0 then 0 else Offset(parts, sep, i - 1) + |parts[i - 1]| + |sep|
  }

  /** Offsets past the first part, measured from the second part on. */
  lemma {:induction false} OffsetShift(parts: seq<string>, sep: string, i: nat)
    requires 1 <= i <= |parts|
    ensures Offset(parts, sep, i) == |parts[0]| + |sep| + Offset(parts[1..], sep, i - 1)
  {
    if i > 1 {
      OffsetShift(parts, sep, i - 1);
    }
  }

  /**
   * Every part appears in the joined text, whole, at its own offset: the
   * parts are written in order, each exactly once.
   */
  lemma {:induction false} JoinAt(parts: seq<string>, sep: string, i: nat)
    requires i < |parts|
    ensures Offset(parts, sep, i) + |parts[i]| <= |Join(parts, sep)|
    ensures Join(parts, sep)[Offset(parts, sep, i)..Offset(parts, sep, i) + |parts[i]|] == parts[i]
  {
    var j := Join(parts, sep);
    if i == 0 {
      if |parts| > 1 {
        assert j == parts[0] + (sep + Join(parts[1..], sep));
      }
    } else {
      JoinAt(parts[1..], sep, i - 1);
      OffsetShift(parts, sep, i);
      var o := Offset(parts[1..], sep, i - 1);
      assert j == (parts[0] + sep) + Join(parts[1..], sep);
      ShiftSlice(parts[0] + sep, Join(parts[1..], sep), o, o + |parts[i]|);
    }
  }

  /** A slice of the second half of a concatenation, shifted by the first half. */
  lemma ShiftSlice(a: string, b: string, lo: nat, hi: nat)
    requires lo <= hi <= |b|
    ensures (a + b)[|a| + lo..|a| + hi] == b[lo..hi]
  {
    assert forall k | 0 <= k < hi - lo :: (a + b)[|a| + lo..|a| + hi][k] == b[lo..hi][k];
  }

  /** A text is the prefix of any text that starts with it. */
  lemma PrefixOfConcat(a: string, b: string)
    ensures (a + b)[..|a|] == a
    ensures (a + b)[|a|..] == b
  {
  }

  /** Two texts framed by the same prefix and suffix are equal when the framed texts are. */
  lemma Unframe(pre: string, u: string, v: string, suf: string)
    requires pre + u + suf == pre + v + suf
    ensures u == v
  {
    assert |u| == |v|;
    forall k | 0 <= k < |u|
      ensures u[k] == v[k]
    {
      assert (pre + u + suf)[|pre| + k] == u[k];
      assert (pre + v + suf)[|pre| + k] == v[k];
    }
  }

  /** A slice of the middle of `a + m + b` is the same slice of `m`. */
  lemma InnerSlice(a: string, m: string, b: string, lo: nat, hi: nat)
    requires lo <= hi <= |m|
    ensures (a + m + b)[|a| + lo..|a| + hi] == m[lo..hi]
  {
    var w := a + m + b;
    assert forall k | 0 <= k < hi - lo :: w[|a| + lo..|a| + hi][k] == m[lo..hi][k];
  }

  /**
   * The same inside an opening and a closing bracket: part i is `x`, whole,
   * at position `at`, right after the opening bracket and the parts before it.
   */
  lemma BracketedAt(text: string, open: string, parts: seq<string>, sep: string, close: string, i: nat, x: string, at: nat)
    requires i < |parts| && parts[i] == x
    requires text == open + Join(parts, sep) + close
    requires at == |open| + Offset(parts, sep, i)
    ensures at + |x| + |close| <= |text| && text[at..at + |x|] == x
  {
    JoinAt(parts, sep, i);
    var o := Offset(parts, sep, i);
    InnerSlice(open, Join(parts, sep), close, o, o + |x|);
  }
}
