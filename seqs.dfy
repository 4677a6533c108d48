/** Selecting and removing the elements of a sequence that satisfy a condition. */
module Seqs {

  /** The elements satisfying `p`, in their original order. */
  function Filter<T>(s: seq<T>, p: T -> bool): (r: seq<T>)
    ensures |r| <= |s|
    ensures forall x | x in r :: x in s && p(x)
    ensures forall x | x in s && p(x) :: x in r
    decreases |s|
  {
    if s == [] then [] else (if p(s[0]) then [s[0]] else []) + Filter(s[1..], p)
  }

  /** The elements not satisfying `p`, in their original order. */
  function Reject<T>(s: seq<T>, p: T -> bool): (r: seq<T>)
    ensures |r| <= |s|
    ensures forall x | x in r :: x in s && !p(x)
    ensures forall x | x in s && !p(x) :: x in r
    decreases |s|
  {
    if s == [] then [] else (if p(s[0]) then [] else [s[0]]) + Reject(s[1..], p)
  }

  /** Selecting and rejecting split a sequence without losing or duplicating elements. */
  lemma {:induction false} FilterRejectPartition<T>(s: seq<T>, p: T -> bool)
    ensures multiset(Filter(s, p)) + multiset(Reject(s, p)) == multiset(s)
    decreases |s|
  {
    if s != [] {
      FilterRejectPartition(s[1..], p);
      assert s == [s[0]] + s[1..];
    }
  }

  /** Nothing is rejected when no element satisfies the condition. */
  lemma {:induction false} RejectNone<T>(s: seq<T>, p: T -> bool)
    requires forall x | x in s :: !p(x)
    ensures Reject(s, p) == s && Filter(s, p) == []
    decreases |s|
  {
    if s != [] {
      RejectNone(s[1..], p);
    }
  }

  /** When nothing is selected, nothing is rejected either. */
  lemma {:induction false} FilterEmptyRejectsNothing<T>(s: seq<T>, p: T -> bool)
    ensures Filter(s, p) == [] ==> Reject(s, p) == s
    decreases |s|
  {
    if s != [] && Filter(s, p) == [] {
      FilterEmptyRejectsNothing(s[1..], p);
    }
  }

  /** Every element replaced by its image under `f`. */
  function Map<T>(s: seq<T>, f: T -> T): (r: seq<T>)
    ensures |r| == |s|
    ensures forall i | 0 <= i < |s| :: r[i] == f(s[i])
    decreases |s|
  {
    if s == [] then [] else [f(s[0])] + Map(s[1..], f)
  }

  /** Selecting after a map that keeps the condition is mapping the selection. */
  lemma {:induction false} FilterOfMap<T>(s: seq<T>, f: T -> T, p: T -> bool)
    requires forall x | x in s :: p(f(x)) == p(x)
    ensures Filter(Map(s, f), p) == Map(Filter(s, p), f)
    decreases |s|
  {
    if s != [] {
      assert Map(s, f)[1..] == Map(s[1..], f);
      FilterOfMap(s[1..], f, p);
    }
  }

  /** Rejecting after a map that keeps the condition and fixes the rejected elements gives the same rows. */
  lemma {:induction false} RejectOfMap<T>(s: seq<T>, f: T -> T, p: T -> bool)
    requires forall x | x in s :: p(f(x)) == p(x)
    requires forall x | x in s && !p(x) :: f(x) == x
    ensures Reject(Map(s, f), p) == Reject(s, p)
    decreases |s|
  {
    if s != [] {
      assert Map(s, f)[1..] == Map(s[1..], f);
      RejectOfMap(s[1..], f, p);
    }
  }

  /** Rejecting from a sequence with one more element at the end. */
  lemma {:induction false} RejectAppend<T>(s: seq<T>, x: T, p: T -> bool)
    ensures Reject(s + [x], p) == Reject(s, p) + (if p(x) then [] else [x])
    decreases |s|
  {
    if s == [] {
      assert [x][1..] == [];
    } else {
      assert (s + [x])[1..] == s[1..] + [x];
      RejectAppend(s[1..], x, p);
    }
  }
}
