/**
  String helpers with the meaning JavaScript gives them: `Array.prototype.join`
  over strings, plain concatenation, and the ASCII part of `toUpperCase`.
 */
module Strings {

  /** Total length of a list of strings. */
  function SumLen(parts: seq<string>): nat
  {
    if |parts| == 0 then 0 else |parts[0]| + SumLen(parts[1..])
  }

  /** Concatenation with no separator, defined independently of `Join`. */
  function Concat(parts: seq<string>): string
  {
    if |parts| == 0 then "" else parts[0] + Concat(parts[1..])
  }

  /**
    `parts.join(sep)`: the empty list joins to "", one part joins to itself,
    and consecutive parts are separated by exactly one copy of `sep`.
   */
  function Join(parts: seq<string>, sep: string): (r: string)
    ensures |parts| == 0 ==> r == ""
    ensures |parts| == 1 ==> r == parts[0]
  {
    if |parts| == 0 then ""
    else if |parts| == 1 then parts[0]
    else parts[0] + sep + Join(parts[1..], sep)
  }

  /** A join is as long as its parts plus one separator between each pair of neighbours. */
  lemma {:induction false} JoinLength(parts: seq<string>, sep: string)
    requires |parts| >= 1
    ensures |Join(parts, sep)| == SumLen(parts) + |sep| * (|parts| - 1)
    decreases |parts|
  {
    if |parts| > 1 {
      JoinLength(parts[1..], sep);
      assert |sep| * (|parts| - 1) == |sep| + |sep| * (|parts| - 2);
    }
  }

  /** `parts.join(sep)` the way the engine builds it: one part at a time, left to right. */
  method JoinLeftToRight(parts: seq<string>, sep: string) returns (r: string)
    ensures r == Join(parts, sep)
  {
    if |parts| == 0 {
      return "";
    }
    r := parts[0];
    var k := 1;
    while k < |parts|
      invariant 1 <= k <= |parts|
      invariant r == Join(parts[..k], sep)
    {
      JoinSnoc(parts[..k], parts[k], sep);
      assert parts[..k + 1] == parts[..k] + [parts[k]];
      r := r + sep + parts[k];
      k := k + 1;
    }
    assert parts[..k] == parts;
  }

  /** Where part `i` starts inside `Join(parts, sep)`. */
  function Offset(parts: seq<string>, sep: string, i: nat): nat
    requires i <= |parts|
  {
    SumLen(parts[..i]) + i * |sep|
  }

  /** The length of a prefix plus one more part. */
  lemma {:induction false} SumLenSnoc(parts: seq<string>, p: string)
    ensures SumLen(parts + [p]) == SumLen(parts) + |p|
    decreases |parts|
  {
    if |parts| == 0 {
      assert parts + [p] == [p];
    } else {
      assert (parts + [p])[1..] == parts[1..] + [p];
      SumLenSnoc(parts[1..], p);
    }
  }

  /**
    JavaScript builds a join left to right: appending a part appends one
    separator and that part, and nothing else changes.
   */
  lemma {:induction false} JoinSnoc(parts: seq<string>, p: string, sep: string)
    requires |parts| >= 1
    ensures Join(parts + [p], sep) == Join(parts, sep) + sep + p
    decreases |parts|
  {
    if |parts| == 1 {
      assert parts + [p] == [parts[0], p];
      assert (parts + [p])[1..] == [p];
    } else {
      assert (parts + [p])[1..] == parts[1..] + [p];
      JoinSnoc(parts[1..], p, sep);
    }
  }

  /** With the empty separator a join is plain concatenation. */
  lemma {:induction false} JoinEmptySeparator(parts: seq<string>)
    ensures Join(parts, "") == Concat(parts)
    decreases |parts|
  {
    if |parts| > 1 {
      JoinEmptySeparator(parts[1..]);
    }
  }

  /** A slice taken past a prefix is a slice of what follows the prefix. */
  lemma SliceAfterPrefix(pre: string, rest: string, lo: nat, hi: nat)
    requires lo <= hi <= |rest|
    ensures (pre + rest)[|pre| + lo..|pre| + hi] == rest[lo..hi]
  {
  }

  /** Part `i` of a list starts one part and one separator later than part `i - 1` of its tail. */
  lemma OffsetStep(parts: seq<string>, sep: string, i: nat)
    requires 0 < i <= |parts|
    ensures Offset(parts, sep, i) == |parts[0]| + |sep| + Offset(parts[1..], sep, i - 1)
  {
    assert parts[..i][0] == parts[0];
    assert parts[..i][1..] == parts[1..][..i - 1];
  }

  /**
    Every part sits at its offset inside the join, unchanged: joining loses
    no part, not even an empty one.
   */
  lemma {:induction false} JoinSlot(parts: seq<string>, sep: string, i: nat)
    requires i < |parts|
    ensures Offset(parts, sep, i) + |parts[i]| <= |Join(parts, sep)|
    ensures Join(parts, sep)[Offset(parts, sep, i)..Offset(parts, sep, i) + |parts[i]|] == parts[i]
    decreases i
  {
    if i == 0 {
      assert parts[..0] == [];
    } else {
      var tail := parts[1..];
      JoinSlot(tail, sep, i - 1);
      OffsetStep(parts, sep, i);
      var o := Offset(tail, sep, i - 1);
      SliceAfterPrefix(parts[0] + sep, Join(tail, sep), o, o + |parts[i]|);
    }
  }

  /** Every part but the last is followed by exactly one separator. */
  lemma {:induction false} JoinSeparatorAfter(parts: seq<string>, sep: string, i: nat)
    requires i + 1 < |parts|
    ensures Offset(parts, sep, i) + |parts[i]| + |sep| <= |Join(parts, sep)|
    ensures Join(parts, sep)[Offset(parts, sep, i) + |parts[i]|..Offset(parts, sep, i) + |parts[i]| + |sep|] == sep
    decreases i
  {
    if i == 0 {
      assert parts[..0] == [];
      SliceAfterPrefix(parts[0], sep + Join(parts[1..], sep), 0, |sep|);
    } else {
      var tail := parts[1..];
      JoinSeparatorAfter(tail, sep, i - 1);
      OffsetStep(parts, sep, i);
      var o := Offset(tail, sep, i - 1) + |parts[i]|;
      SliceAfterPrefix(parts[0] + sep, Join(tail, sep), o, o + |sep|);
    }
  }

  /** The next part starts after this part and one separator. */
  lemma OffsetNext(parts: seq<string>, sep: string, i: nat)
    requires i < |parts|
    ensures Offset(parts, sep, i + 1) == Offset(parts, sep, i) + |parts[i]| + |sep|
  {
    assert parts[..i + 1] == parts[..i] + [parts[i]];
    SumLenSnoc(parts[..i], parts[i]);
    assert (i + 1) * |sep| == i * |sep| + |sep|;
  }

  /** Two adjacent slices of a string make up the slice that spans both. */
  lemma SliceSplit(s: string, lo: nat, mid: nat, hi: nat)
    requires lo <= mid <= hi <= |s|
    ensures s[lo..hi] == s[lo..mid] + s[mid..hi]
  {
  }

  /**
    An empty part between two others does not vanish from a join: the
    separators on either side of it end up next to each other.
   */
  lemma JoinKeepsEmptyPart(parts: seq<string>, sep: string, i: nat)
    requires 0 < i < |parts| - 1
    requires parts[i] == ""
    ensures |sep| <= Offset(parts, sep, i) && Offset(parts, sep, i) + |sep| <= |Join(parts, sep)|
    ensures Join(parts, sep)[Offset(parts, sep, i) - |sep|..Offset(parts, sep, i) + |sep|] == sep + sep
  {
    var j := Join(parts, sep);
    var o := Offset(parts, sep, i);
    var before := Offset(parts, sep, i - 1) + |parts[i - 1]|;
    JoinSeparatorAfter(parts, sep, i - 1);
    JoinSeparatorAfter(parts, sep, i);
    OffsetNext(parts, sep, i - 1);
    assert o == before + |sep|;
    SliceSplit(j, before, o, o + |sep|);
  }

  /** ASCII `toUpperCase` of one character; every other character is kept. */
  function UpperChar(c: char): char
  {
    if 'a' <= c <= 'z' then (c as int - 32) as char else c
  }

  /** ASCII `toLowerCase` of one character; every other character is kept. */
  function LowerChar(c: char): char
  {
    if 'A' <= c <= 'Z' then (c as int + 32) as char else c
  }

  /** `s.toUpperCase()` restricted to ASCII letters. */
  function ToUpper(s: string): (r: string)
    ensures |r| == |s|
    ensures forall i :: 0 <= i < |s| ==> r[i] == UpperChar(s[i])
  {
    seq(|s|, i requires 0 <= i < |s| => UpperChar(s[i]))
  }

  /** `str.slice(0, 1).toUpperCase() + str.slice(1)`, with an ASCII upper-casing. */
  function UpperFirst(s: string): (r: string)
    ensures |r| == |s|
    ensures |s| > 0 ==> r[0] == UpperChar(s[0]) && r[1..] == s[1..]
  {
    var head := if |s| == 0 then 0 else 1;
    ToUpper(s[..head]) + s[head..]
  }

  /** The inverse direction, used to state what `UpperFirst` loses. */
  function LowerFirst(s: string): (r: string)
    ensures |r| == |s|
    ensures |s| > 0 ==> r[0] == LowerChar(s[0]) && r[1..] == s[1..]
  {
    if |s| == 0 then "" else [LowerChar(s[0])] + s[1..]
  }

  /** Upper-casing the first character twice is the same as once. */
  lemma UpperFirstIdempotent(s: string)
    ensures UpperFirst(UpperFirst(s)) == UpperFirst(s)
  {
    if |s| > 0 {
      var u := UpperFirst(s);
      assert UpperFirst(u) == [UpperChar(u[0])] + u[1..];
      assert u == [u[0]] + u[1..];
    }
  }

  /**
    `UpperFirst` loses nothing unless the name already started with a capital:
    lowering the first character again gives the name back exactly when its
    first character was not an upper-case ASCII letter.
   */
  lemma UpperFirstRoundTrip(s: string)
    requires |s| > 0
    ensures LowerFirst(UpperFirst(s)) == s <==> !('A' <= s[0] <= 'Z')
  {
    var u := UpperFirst(s);
    assert LowerFirst(u) == [LowerChar(u[0])] + s[1..];
    assert s == [s[0]] + s[1..];
    if 'A' <= s[0] <= 'Z' {
      assert LowerFirst(u)[0] != s[0];
    }
  }
}
