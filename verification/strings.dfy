/** The two string operations of the generator: joining the uploaded file
    names for the Design cell, and cutting an ISO timestamp at its 'T'. */
module Strings {

  /** `b` occurs in `a` as a contiguous piece. */
  ghost predicate Contains(a: string, b: string) {
    exists k :: OccursAt(a, b, k)
  }

  /** `b` occurs in `a` starting at position `k`. */
  predicate OccursAt(a: string, b: string, k: int) {
    0 <= k <= |a| - |b| && a[k..k + |b|] == b
  }

  /** Array.prototype.join: the parts in order with `sep` between
      neighbours; no parts give "" and one part gives that part. */
  function Join(parts: seq<string>, sep: string): (r: string)
    ensures |parts| == 0 ==> r == ""
    ensures |parts| == 1 ==> r == parts[0]
    ensures |parts| > 1 ==> parts[0] + sep <= r
  {
    if |parts| == 0 then ""
    else if |parts| == 1 then parts[0]
    else parts[0] + sep + Join(parts[1..], sep)
  }

  /** Joining one more part appends the separator and that part. */
  lemma {:induction false} JoinSnoc(parts: seq<string>, sep: string, last: string)
    ensures Join(parts + [last], sep) == if |parts| == 0 then last else Join(parts, sep) + sep + last
    decreases |parts|
  {
    if |parts| == 0 {
      assert parts + [last] == [last];
    } else if |parts| == 1 {
      assert (parts + [last])[1..] == [last];
    } else {
      assert (parts + [last])[1..] == parts[1..] + [last];
      JoinSnoc(parts[1..], sep, last);
    }
  }

  /** Every part occurs in the joined string. */
  lemma {:induction false} JoinContainsPart(parts: seq<string>, sep: string, i: nat)
    requires i < |parts|
    ensures Contains(Join(parts, sep), parts[i])
    decreases |parts|
  {
    var r := Join(parts, sep);
    if i == 0 {
      assert OccursAt(r, parts[0], 0);
    } else {
      var rest := Join(parts[1..], sep);
      JoinContainsPart(parts[1..], sep, i - 1);
      var k :| OccursAt(rest, parts[i], k);
      var off := |parts[0]| + |sep|;
      assert r == (parts[0] + sep) + rest;
      assert r[off + k..off + k + |parts[i]|] == rest[k..k + |parts[i]|];
      assert OccursAt(r, parts[i], off + k);
    }
  }

  /** `s.split(sep)[0]`: the text before the first `sep`, or all of `s`. */
  function BeforeFirst(s: string, sep: char): (r: string)
    ensures r <= s
    ensures sep !in r
    ensures |r| < |s| ==> s[|r|] == sep
  {
    if |s| == 0 || s[0] == sep then "" else [s[0]] + BeforeFirst(s[1..], sep)
  }

  /** Cutting `head + sep + tail` at the first `sep` gives back `head`. */
  lemma {:induction false} BeforeFirstOfSplit(head: string, sep: char, tail: string)
    requires sep !in head
    ensures BeforeFirst(head + [sep] + tail, sep) == head
    decreases |head|
  {
    var s := head + [sep] + tail;
    if |head| > 0 {
      assert s[0] == head[0];
      assert s[1..] == head[1..] + [sep] + tail;
      BeforeFirstOfSplit(head[1..], sep, tail);
    }
  }
}
