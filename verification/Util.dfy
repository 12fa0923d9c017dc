/** Small types and sequence facts shared by the room, queue and allocator models. */
module Util {

  datatype Option<+T> = None | Some(value: T) {
    function GetOr(default: T): T {
      match this
      case Some(v) => v
      case None => default
    }
  }

  datatype Result<+T, +E> = Ok(value: T) | Err(error: E)

  function Max(a: int, b: int): int {
    if a >= b then a else b
  }

  /** The position of the first element that satisfies `p`, or the length if none does. */
  function IndexWhere<T>(xs: seq<T>, p: T -> bool): (at: nat)
    ensures at <= |xs| && (at < |xs| ==> p(xs[at]))
    ensures forall j :: 0 <= j < at ==> !p(xs[j])
  {
    if xs == [] || p(xs[0]) then 0 else 1 + IndexWhere(xs[1..], p)
  }

  ghost predicate Distinct<T>(xs: seq<T>) {
    forall i, j :: 0 <= i < j < |xs| ==> xs[i] != xs[j]
  }

  lemma DistinctAppend<T>(xs: seq<T>, x: T)
    requires Distinct(xs) && x !in xs
    ensures Distinct(xs + [x])
  {
  }

  /** A pigeonhole bound: a duplicate-free sequence drawn from `pool` is no longer than it. */
  lemma DistinctFits<T>(xs: seq<T>, pool: set<T>)
    requires Distinct(xs)
    requires forall x :: x in xs ==> x in pool
    ensures |xs| <= |pool|
    decreases |xs|
  {
    if xs != [] {
      var last := xs[|xs| - 1];
      forall x | x in xs[..|xs| - 1] ensures x in pool - {last} {
      }
      DistinctFits(xs[..|xs| - 1], pool - {last});
    }
  }

  lemma MultisetSplit<T>(xs: seq<T>, i: nat)
    requires i < |xs|
    ensures multiset(xs) == multiset([xs[i]]) + multiset(xs[..i] + xs[i + 1..])
  {
    assert xs == xs[..i] + [xs[i]] + xs[i + 1..];
  }

  /** What is left when one element is spliced out. */
  lemma SplicedMembers<T>(xs: seq<T>, at: nat, left: seq<T>)
    requires at < |xs| && left == xs[..at] + xs[at + 1..]
    ensures forall x :: x in left <==> exists i :: 0 <= i < |xs| && i != at && xs[i] == x
  {
    forall i | 0 <= i < |xs| && i != at
      ensures xs[i] in left
    {
      assert left[if i < at then i else i - 1] == xs[i];
    }
    forall x | x in left
      ensures exists i :: 0 <= i < |xs| && i != at && xs[i] == x
    {
      var i :| 0 <= i < |left| && left[i] == x;
      assert xs[if i < at then i else i + 1] == x;
    }
  }
}
