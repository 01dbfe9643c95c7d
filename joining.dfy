/**
 * `Collectors.joining(sep)`: the strings of a stream in order, with `sep` between neighbours.
 * Java builds the result with a `StringJoiner`, which appends the separator and then each
 * further element; `Join` is the same string described from the front.
 */
module Joining {

  function Join(parts: seq<string>, sep: string): string
    decreases |parts|
  {
    if |parts| == 0 then ""
    else if |parts| == 1 then parts[0]
    else parts[0] + sep + Join(parts[1..], sep)
  }

  /** The string a `StringJoiner` holds after each element has been added, left to right. */
  function JoinerValue(parts: seq<string>, sep: string): string
    decreases |parts|
  {
    if |parts| == 0 then ""
    else if |parts| == 1 then parts[0]
    else JoinerValue(parts[..|parts| - 1], sep) + sep + parts[|parts| - 1]
  }

  /** Adding one more element appends the separator and that element. */
  lemma {:induction false} JoinSnoc(parts: seq<string>, last: string, sep: string)
    requires |parts| > 0
    ensures Join(parts + [last], sep) == Join(parts, sep) + sep + last
    decreases |parts|
  {
    if |parts| == 1 {
      assert parts + [last] == [parts[0], last];
      assert [parts[0], last][1..] == [last];
    } else {
      assert (parts + [last])[1..] == parts[1..] + [last];
      JoinSnoc(parts[1..], last, sep);
    }
  }

  /** Joining from the front and the `StringJoiner`'s left-to-right appends give the same string. */
  lemma {:induction false} JoinIsJoinerValue(parts: seq<string>, sep: string)
    ensures Join(parts, sep) == JoinerValue(parts, sep)
    decreases |parts|
  {
    if |parts| > 1 {
      var init := parts[..|parts| - 1];
      JoinIsJoinerValue(init, sep);
      JoinSnoc(init, parts[|parts| - 1], sep);
      assert init + [parts[|parts| - 1]] == parts;
    }
  }

  /** Where the `i`-th part starts in the joined string. */
  function Offset(parts: seq<string>, sep: string, i: nat): nat
    requires i <= |parts|
  {
    if i == 0 then 0 else Offset(parts, sep, i - 1) + |parts[i - 1]| + |sep|
  }

  lemma {:induction false} OffsetOfTail(parts: seq<string>, sep: string, i: nat)
    requires 0 < i <= |parts|
    ensures Offset(parts, sep, i) == |parts[0]| + |sep| + Offset(parts[1..], sep, i - 1)
    decreases i
  {
    if i > 1 {
      OffsetOfTail(parts, sep, i - 1);
    }
  }

  /** A slice of the right operand of a concatenation, taken from the concatenation. */
  lemma SliceOfConcat(a: string, b: string, p: nat, q: nat)
    requires p <= q <= |b|
    ensures (a + b)[|a| + p..|a| + q] == b[p..q]
  {
    assert forall k :: 0 <= k < q - p ==> (a + b)[|a| + p..|a| + q][k] == b[p..q][k];
  }

  /** Reading the joined string at an offset into the tail's joined string. */
  lemma {:induction false} TailSlice(parts: seq<string>, sep: string, p: nat, q: nat)
    requires |parts| > 1 && p <= q <= |Join(parts[1..], sep)|
    ensures |parts[0]| + |sep| + q <= |Join(parts, sep)|
    ensures Join(parts, sep)[|parts[0]| + |sep| + p..|parts[0]| + |sep| + q] == Join(parts[1..], sep)[p..q]
  {
    assert Join(parts, sep) == (parts[0] + sep) + Join(parts[1..], sep);
    SliceOfConcat(parts[0] + sep, Join(parts[1..], sep), p, q);
  }

  /** Every part appears in the joined string, in order: part `i` starts at `Offset(parts, sep, i)`. */
  lemma {:induction false} PartAt(parts: seq<string>, sep: string, i: nat)
    requires i < |parts|
    ensures Offset(parts, sep, i) + |parts[i]| <= |Join(parts, sep)|
    ensures Join(parts, sep)[Offset(parts, sep, i)..Offset(parts, sep, i) + |parts[i]|] == parts[i]
    decreases |parts|
  {
    if |parts| == 1 {
    } else if i == 0 {
      assert Join(parts, sep) == parts[0] + (sep + Join(parts[1..], sep));
    } else {
      PartAt(parts[1..], sep, i - 1);
      OffsetOfTail(parts, sep, i);
      assert parts[1..][i - 1] == parts[i];
      var o := Offset(parts[1..], sep, i - 1);
      TailSlice(parts, sep, o, o + |parts[i]|);
    }
  }

  /** Between part `i` and the part after it stands exactly the separator. */
  lemma {:induction false} SeparatorAfter(parts: seq<string>, sep: string, i: nat)
    requires i + 1 < |parts|
    ensures Offset(parts, sep, i + 1) <= |Join(parts, sep)|
    ensures Join(parts, sep)[Offset(parts, sep, i) + |parts[i]|..Offset(parts, sep, i + 1)] == sep
    decreases |parts|
  {
    if i == 0 {
      assert Join(parts, sep) == parts[0] + sep + Join(parts[1..], sep);
      assert Join(parts, sep) == (parts[0] + sep) + Join(parts[1..], sep);
      assert (parts[0] + sep)[|parts[0]|..|parts[0]| + |sep|] == sep;
    } else {
      SeparatorAfter(parts[1..], sep, i - 1);
      OffsetOfTail(parts, sep, i);
      OffsetOfTail(parts, sep, i + 1);
      assert parts[1..][i - 1] == parts[i];
      TailSlice(parts, sep, Offset(parts[1..], sep, i - 1) + |parts[i]|, Offset(parts[1..], sep, i));
    }
  }

  /** The joined string's length: all parts plus one separator between each pair of neighbours. */
  lemma {:induction false} JoinLength(parts: seq<string>, sep: string)
    requires |parts| > 0
    ensures |Join(parts, sep)| == Offset(parts, sep, |parts| - 1) + |parts[|parts| - 1]|
    decreases |parts|
  {
    if |parts| > 1 {
      JoinLength(parts[1..], sep);
      OffsetOfTail(parts, sep, |parts| - 1);
    }
  }
}
