/**
 * `Array.prototype.filter`, the index-based `filter`/`map` updates used by the
 * forms, and the order-preserving sub-sequence relation they are measured by.
 */
module Sequences {

  /** `r` is obtained from `s` by deleting elements, keeping the order of the rest. */
  ghost predicate SubsequenceOf<T>(r: seq<T>, s: seq<T>)
    decreases |s|
  {
    if r == [] then true
    else if s == [] then false
    else (r[0] == s[0] && SubsequenceOf(r[1..], s[1..])) || SubsequenceOf(r, s[1..])
  }

  /**
   * `s.filter(keep)`.  The result is an order-preserving sub-sequence of `s`
   * that holds every kept value exactly as often as `s` does and no other value;
   * when every element is kept it is `s` itself.
   */
  function Filter<T(!new)>(s: seq<T>, keep: T -> bool): (r: seq<T>)
    ensures |r| <= |s|
    ensures SubsequenceOf(r, s)
    ensures forall x :: multiset(r)[x] == (if keep(x) then multiset(s)[x] else 0)
    ensures forall x :: x in r <==> x in s && keep(x)
    ensures (forall i :: 0 <= i < |s| ==> keep(s[i])) ==> r == s
  {
    if s == [] then []
    else
      var rest := Filter(s[1..], keep);
      assert s == [s[0]] + s[1..];
      if keep(s[0]) then
        var r := [s[0]] + rest;
        assert r[1..] == rest;
        r
      else
        rest
  }

  /** `s.filter((_, j) => j !== i)`: every element except the one at index `i`. */
  function RemoveIndex<T>(s: seq<T>, i: int): (r: seq<T>)
    decreases |s|
  {
    if s == [] then []
    else (if i == 0 then [] else [s[0]]) + RemoveIndex(s[1..], i - 1)
  }

  /**
   * Removing index `i` drops exactly that element when `i` is in range and
   * keeps the order of the rest; an index out of range changes nothing.
   */
  lemma {:induction false} RemoveIndexSpec<T>(s: seq<T>, i: int)
    ensures RemoveIndex(s, i) == if 0 <= i < |s| then s[..i] + s[i + 1..] else s
    decreases |s|
  {
    if s != [] {
      RemoveIndexSpec(s[1..], i - 1);
      if 0 < i < |s| {
        assert s[1..][..i - 1] == s[1..i];
        assert s[1..][i..] == s[i + 1..];
        assert [s[0]] + s[1..i] == s[..i];
      } else if i != 0 {
        assert [s[0]] + s[1..] == s;
      }
    }
  }

  /** `s.map((x, j) => j === i ? v : x)`: the element at index `i` replaced by `v`. */
  function ReplaceIndex<T>(s: seq<T>, i: int, v: T): (r: seq<T>)
    ensures |r| == |s|
    ensures forall j :: 0 <= j < |s| ==> r[j] == if j == i then v else s[j]
  {
    seq(|s|, j requires 0 <= j < |s| => if j == i then v else s[j])
  }

  /** Replacing index `i` is the sequence update `s[i := v]` in range and the identity outside it. */
  lemma ReplaceIndexSpec<T>(s: seq<T>, i: int, v: T)
    ensures ReplaceIndex(s, i, v) == if 0 <= i < |s| then s[i := v] else s
  {
  }
}
