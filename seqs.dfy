/**
 * Order facts about sequences that the views and the ranking share: the
 * position of an element's first occurrence (`list.index`) and the
 * subsequence relation (some elements left out, the rest in their order).
 */
module Seqs {

  /** The index of the first occurrence of `x` in `xs`. */
  function IndexOf<T(==)>(xs: seq<T>, x: T): (k: nat)
    requires x in xs
    ensures k < |xs| && xs[k] == x
    ensures forall j | 0 <= j < k :: xs[j] != x
  {
    if xs[0] == x then 0
    else
      var k := IndexOf(xs[1..], x);
      assert forall j | 1 <= j < 1 + k :: xs[j] == xs[1..][j - 1];
      1 + k
  }

  /** An index holding `x` with no `x` before it is the first occurrence. */
  lemma IndexOfUnique<T>(xs: seq<T>, x: T, k: nat)
    requires k < |xs| && xs[k] == x && forall j | 0 <= j < k :: xs[j] != x
    ensures IndexOf(xs, x) == k
  {
  }

  /** Appending an element moves no first occurrence; a new element's first occurrence is at the end. */
  lemma IndexOfAppend<T>(xs: seq<T>, y: T)
    ensures forall x | x in xs :: IndexOf(xs + [y], x) == IndexOf(xs, x)
    ensures y !in xs ==> IndexOf(xs + [y], y) == |xs|
  {
    forall x | x in xs ensures IndexOf(xs + [y], x) == IndexOf(xs, x) {
      var k := IndexOf(xs, x);
      IndexOfUnique(xs + [y], x, k);
    }
    if y !in xs {
      IndexOfUnique(xs + [y], y, |xs|);
    }
  }

  /** Behind a different head, every first occurrence moves one place on. */
  lemma IndexOfCons<T>(h: T, tail: seq<T>, x: T)
    requires x in tail && x != h
    ensures IndexOf([h] + tail, x) == 1 + IndexOf(tail, x)
  {
    assert ([h] + tail)[1..] == tail;
  }

  /** `r` is `s` with some elements left out and the others kept in their order. */
  predicate Subsequence<T(==)>(r: seq<T>, s: seq<T>)
    decreases |s|
  {
    if r == [] then true
    else if s == [] then false
    else if r[0] == s[0] then Subsequence(r[1..], s[1..])
    else Subsequence(r, s[1..])
  }

  /** An element appended to `s` may be left out or appended to the subsequence as well. */
  lemma {:induction false} SubsequenceSnoc<T>(r: seq<T>, s: seq<T>, x: T)
    requires Subsequence(r, s)
    ensures Subsequence(r, s + [x]) && Subsequence(r + [x], s + [x])
    decreases |s|
  {
    if s == [] {
      assert r == [];
      assert ([] + [x])[1..] == [];
    } else {
      assert (s + [x])[1..] == s[1..] + [x];
      if r == [] {
        assert r + [x] == [x];
        if x != s[0] {
          SubsequenceSnoc(r, s[1..], x);
        }
      } else {
        assert (r + [x])[1..] == r[1..] + [x];
        if r[0] == s[0] {
          SubsequenceSnoc(r[1..], s[1..], x);
        } else {
          SubsequenceSnoc(r, s[1..], x);
        }
      }
    }
  }
}
