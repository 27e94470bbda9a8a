/** The two Python string operations the core relies on: `sep.join(parts)` and
    `filter(None, parts)` over a list of strings. */
module Strings {

  /** Sum of the lengths of `parts`. */
  function TotalLength(parts: seq<string>): nat
  {
    if parts == [] then 0 else |parts[0]| + TotalLength(parts[1..])
  }

  /** Python's `sep.join(parts)`: the parts in order, `sep` between each neighbouring pair. */
  function Join(sep: string, parts: seq<string>): (r: string)
    ensures |r| == TotalLength(parts) + (if parts == [] then 0 else (|parts| - 1) * |sep|)
    ensures |parts| == 1 ==> r == parts[0]
  {
    if parts == [] then ""
    else if |parts| == 1 then parts[0]
    else parts[0] + sep + Join(sep, parts[1..])
  }

  /** Adding a part at the end adds one separator and that part. */
  lemma {:induction false} JoinAppend(sep: string, parts: seq<string>, last: string)
    requires parts != []
    ensures Join(sep, parts + [last]) == Join(sep, parts) + sep + last
  {
    if |parts| > 1 {
      assert (parts + [last])[1..] == parts[1..] + [last];
      JoinAppend(sep, parts[1..], last);
    }
  }

  /** `part` sits in `s` starting at offset `a`. */
  predicate OccursAt(s: string, part: string, a: nat)
  {
    a + |part| <= |s| && s[a..a + |part|] == part
  }

  /** Every part occurs verbatim in the joined string. */
  lemma {:induction false} JoinContains(sep: string, parts: seq<string>, j: nat)
    requires j < |parts|
    ensures exists a: nat :: OccursAt(Join(sep, parts), parts[j], a)
  {
    var r := Join(sep, parts);
    if j == 0 {
      assert OccursAt(r, parts[0], 0);
    } else {
      var rest := Join(sep, parts[1..]);
      JoinContains(sep, parts[1..], j - 1);
      var a': nat :| OccursAt(rest, parts[1..][j - 1], a');
      var head := parts[0] + sep;
      assert r == head + rest;
      assert r[|head| + a'..|head| + a' + |parts[j]|] == rest[a'..a' + |parts[j]|];
      assert OccursAt(r, parts[j], |head| + a');
    }
  }

  /** Python's `filter(None, parts)` on strings: the non-empty parts, in their order. */
  function NonEmpty(parts: seq<string>): (r: seq<string>)
    ensures forall s | s in r :: s != ""
    ensures forall s | s in parts && s != "" :: s in r
    ensures forall s | s in r :: s in parts
    ensures |r| <= |parts|
  {
    if parts == [] then []
    else (if parts[0] == "" then [] else [parts[0]]) + NonEmpty(parts[1..])
  }

  /** A single part is kept exactly when it is non-empty. */
  lemma NonEmptySingle(s: string)
    ensures NonEmpty([s]) == if s == "" then [] else [s]
  {
    assert [s][1..] == [];
  }

  /** Filtering distributes over concatenation, so order and repeats are kept. */
  lemma {:induction false} NonEmptyAppend(a: seq<string>, b: seq<string>)
    ensures NonEmpty(a + b) == NonEmpty(a) + NonEmpty(b)
  {
    if a == [] {
      assert a + b == b;
    } else {
      assert (a + b)[0] == a[0];
      assert (a + b)[1..] == a[1..] + b;
      NonEmptyAppend(a[1..], b);
    }
  }
}
