/**
 * The two ranking idioms of the views and the persona classifier, over a
 * score table: Python's `max(keys, key=scores.get)`, which keeps the first
 * of several maxima, and `Counter.most_common(n)`, a stable sort by
 * descending count cut after `n` entries, written as repeated selection of
 * the first maximum.
 */
module Ranking {

  /** `max(order, key=s.get)` as a position: the first one no other position beats. */
  function BestIndex<T>(order: seq<T>, s: map<T, nat>): (i: nat)
    requires |order| > 0 && forall x | x in order :: x in s
    ensures i < |order|
    ensures forall k | 0 <= k < |order| :: s[order[k]] <= s[order[i]]
    ensures forall k | 0 <= k < i :: s[order[k]] < s[order[i]]
  {
    BestUpTo(order, s, |order|)
  }

  /** The first maximum among the first `m` positions. */
  function BestUpTo<T>(order: seq<T>, s: map<T, nat>, m: nat): (i: nat)
    requires 0 < m <= |order| && forall x | x in order :: x in s
    ensures i < m
    ensures forall k | 0 <= k < m :: s[order[k]] <= s[order[i]]
    ensures forall k | 0 <= k < i :: s[order[k]] < s[order[i]]
  {
    if m == 1 then 0
    else
      var b := BestUpTo(order, s, m - 1);
      if s[order[m - 1]] > s[order[b]] then m - 1 else b
  }

  /** `xs` with position `i` removed. */
  function Without<T>(xs: seq<T>, i: nat): (r: seq<T>)
    requires i < |xs|
    ensures |r| == |xs| - 1
    ensures forall k | 0 <= k < i :: r[k] == xs[k]
    ensures forall k | i <= k < |r| :: r[k] == xs[k + 1]
  {
    seq(|xs| - 1, k requires 0 <= k < |xs| - 1 => if k < i then xs[k] else xs[k + 1])
  }

  /**
   * The first `n` keys in order of descending score, ties kept in key
   * order: take the first maximum, then rank the rest.
   */
  function SelectTop<T(==)>(keys: seq<T>, s: map<T, nat>, n: nat): (r: seq<T>)
    requires forall x | x in keys :: x in s
    ensures |r| == if n < |keys| then n else |keys|
    ensures forall x | x in r :: x in keys
    ensures forall i | 0 < i < |r| :: s[r[i]] <= s[r[i - 1]]
    decreases n
  {
    if n == 0 || keys == [] then []
    else
      var b := BestIndex(keys, s);
      var rest := Without(keys, b);
      assert forall x | x in rest :: x in keys;
      var tail := SelectTop(rest, s, n - 1);
      BestBeatsRest(keys, s, b);
      assert tail != [] ==> tail[0] in keys;
      [keys[b]] + tail
  }

  ghost predicate NoRepeats<T>(xs: seq<T>)
  {
    forall i, j | 0 <= i < j < |xs| :: xs[i] != xs[j]
  }

  /** Scores never increase along `r`. */
  predicate Ranked<T>(r: seq<T>, s: map<T, nat>)
  {
    forall i, j | 0 <= i < j < |r| :: r[i] in s && r[j] in s && s[r[i]] >= s[r[j]]
  }

  /** Every key other than the one at `b` is still among the rest. */
  lemma WithoutKeeps<T>(keys: seq<T>, b: nat, x: T)
    requires b < |keys| && x in keys && x != keys[b]
    ensures x in Without(keys, b)
  {
    var k :| 0 <= k < |keys| && keys[k] == x;
    if k < b { assert Without(keys, b)[k] == x; } else { assert Without(keys, b)[k - 1] == x; }
  }

  /** The keys other than the best one score no more than it. */
  lemma BestBeatsRest<T>(keys: seq<T>, s: map<T, nat>, b: nat)
    requires |keys| > 0 && (forall x | x in keys :: x in s) && b == BestIndex(keys, s)
    ensures forall x | x in keys :: s[x] <= s[keys[b]]
  {
    forall x | x in keys ensures s[x] <= s[keys[b]] {
      var k :| 0 <= k < |keys| && keys[k] == x;
    }
  }

  /** The selection comes out in order of non-increasing score. */
  lemma SelectTopSorted<T>(keys: seq<T>, s: map<T, nat>, n: nat)
    requires forall x | x in keys :: x in s
    ensures Ranked(SelectTop(keys, s, n), s)
  {
    var r := SelectTop(keys, s, n);
    forall i, j | 0 <= i < j < |r| ensures r[i] in s && r[j] in s && s[r[i]] >= s[r[j]] {
      ChainOrdered(r, s, i, j);
    }
  }

  /** Scores that never increase from one position to the next never increase over any distance. */
  lemma {:induction false} ChainOrdered<T>(r: seq<T>, s: map<T, nat>, i: nat, j: nat)
    requires forall x | x in r :: x in s
    requires forall k | 0 < k < |r| :: s[r[k]] <= s[r[k - 1]]
    requires i <= j < |r|
    ensures s[r[j]] <= s[r[i]]
    decreases j - i
  {
    if i < j {
      ChainOrdered(r, s, i, j - 1);
      assert s[r[j]] <= s[r[j - 1]];
    }
  }

  /** No key left out scores more than a key taken. */
  lemma {:induction false} SelectTopIsTop<T>(keys: seq<T>, s: map<T, nat>, n: nat, x: T, y: T)
    requires forall z | z in keys :: z in s
    requires x in keys && x !in SelectTop(keys, s, n) && y in SelectTop(keys, s, n)
    ensures s[x] <= s[y]
    decreases n
  {
    assert |SelectTop(keys, s, n)| > 0;
    var b := BestIndex(keys, s);
    var rest := Without(keys, b);
    SelectTopUnfold(keys, s, n);
    var tail := SelectTop(rest, s, n - 1);
    ConsSplit(keys[b], tail, x, y);
    if y == keys[b] {
      BestBeatsRest(keys, s, b);
    } else {
      WithoutKeeps(keys, b, x);
      SelectTopIsTop(rest, s, n - 1, x, y);
    }
  }

  /**
   * Ties are broken by key order, as in a stable sort: when `x` occurs at
   * position `i` of the keys and `y`, with the same score, only after it,
   * every place the selection holds `y` is preceded by an `x`.
   */
  lemma {:induction false} SelectTopStable<T>(keys: seq<T>, s: map<T, nat>, n: nat, x: T, y: T, i: nat)
    requires forall z | z in keys :: z in s
    requires i < |keys| && keys[i] == x && y in s && s[x] == s[y]
    requires forall k | 0 <= k <= i :: keys[k] != y
    ensures forall q | 0 <= q < |SelectTop(keys, s, n)| && SelectTop(keys, s, n)[q] == y :: x in SelectTop(keys, s, n)[..q]
    decreases n
  {
    if n > 0 {
      StableHead(keys, s, x, y, i);
      var b := BestIndex(keys, s);
      var rest := Without(keys, b);
      SelectTopUnfold(keys, s, n);
      var tail := SelectTop(rest, s, n - 1);
      if i != b {
        WithoutShift(keys, b, x, y, i);
        SelectTopStable(rest, s, n - 1, x, y, if i < b then i else i - 1);
      }
      ConsPrefix(keys[b], tail, x, y);
    }
  }

  /**
   * The first maximum is never the later of two tied keys: it either
   * scores more than both or comes no later than the earlier one.
   */
  lemma StableHead<T>(keys: seq<T>, s: map<T, nat>, x: T, y: T, i: nat)
    requires forall z | z in keys :: z in s
    requires i < |keys| && keys[i] == x && y in s && s[x] == s[y]
    requires forall k | 0 <= k <= i :: keys[k] != y
    ensures y != keys[BestIndex(keys, s)]
  {
    var b := BestIndex(keys, s);
    if i < b {
      assert s[keys[i]] < s[keys[b]];
    }
  }

  /** Removing another position keeps `x` ahead of every `y`, one place down when the removed position came first. */
  lemma WithoutShift<T>(keys: seq<T>, b: nat, x: T, y: T, i: nat)
    requires b < |keys| && i < |keys| && i != b && keys[i] == x
    requires forall k | 0 <= k <= i :: keys[k] != y
    ensures var i' := if i < b then i else i - 1;
      && i' < |Without(keys, b)| && Without(keys, b)[i'] == x
      && forall k | 0 <= k <= i' :: Without(keys, b)[k] != y
  {
    var rest := Without(keys, b);
    var i' := if i < b then i else i - 1;
    forall k | 0 <= k <= i' ensures rest[k] != y {
      if k < b {
        assert rest[k] == keys[k];
      } else {
        assert rest[k] == keys[k + 1];
      }
    }
  }

  /**
   * Behind a head other than `y`, every `y` of the tail that has an `x`
   * before it (or any `y` at all, when the head is `x`) still has one.
   */
  lemma ConsPrefix<T>(h: T, tail: seq<T>, x: T, y: T)
    requires h != y
    requires h == x || forall q | 0 <= q < |tail| && tail[q] == y :: x in tail[..q]
    ensures forall q | 0 <= q < |[h] + tail| && ([h] + tail)[q] == y :: x in ([h] + tail)[..q]
  {
    var r := [h] + tail;
    forall q | 0 <= q < |r| && r[q] == y ensures x in r[..q] {
      assert r[0] == h;
      assert r[..q] == [h] + tail[..q - 1];
      if h != x {
        assert tail[q - 1] == y;
      }
    }
  }

  /** Membership in a sequence with a given head. */
  lemma ConsSplit<T>(h: T, tail: seq<T>, x: T, y: T)
    requires x !in [h] + tail && y in [h] + tail
    ensures x != h && x !in tail && (y == h || y in tail)
  {
  }

  /** One step of the selection: the first maximum, then the selection from the rest. */
  lemma SelectTopUnfold<T>(keys: seq<T>, s: map<T, nat>, n: nat)
    requires (forall z | z in keys :: z in s) && n > 0 && keys != []
    ensures forall z | z in Without(keys, BestIndex(keys, s)) :: z in keys
    ensures SelectTop(keys, s, n) ==
      [keys[BestIndex(keys, s)]] + SelectTop(Without(keys, BestIndex(keys, s)), s, n - 1)
  {
    var b := BestIndex(keys, s);
    assert forall z | z in Without(keys, b) :: z in keys;
  }

  /** Distinct keys give a selection without repeats. */
  lemma {:induction false} SelectTopDistinct<T>(keys: seq<T>, s: map<T, nat>, n: nat)
    requires forall x | x in keys :: x in s
    requires NoRepeats(keys)
    ensures NoRepeats(SelectTop(keys, s, n))
    decreases n
  {
    if n > 0 && keys != [] {
      var b := BestIndex(keys, s);
      var rest := Without(keys, b);
      assert forall x | x in rest :: x in keys;
      WithoutDistinct(keys, b);
      SelectTopDistinct(rest, s, n - 1);
      var tail := SelectTop(rest, s, n - 1);
      assert keys[b] !in tail;
      ConsNoRepeats(keys[b], tail);
    }
  }

  lemma ConsNoRepeats<T>(h: T, tail: seq<T>)
    requires NoRepeats(tail) && h !in tail
    ensures NoRepeats([h] + tail)
  {
    var r := [h] + tail;
    forall i, j | 0 <= i < j < |r| ensures r[i] != r[j] {
      assert r[j] == tail[j - 1];
      if i > 0 {
        assert r[i] == tail[i - 1];
      }
    }
  }

  /** Removing a position from distinct keys leaves distinct keys without that one. */
  lemma WithoutDistinct<T>(keys: seq<T>, b: nat)
    requires b < |keys|
    requires NoRepeats(keys)
    ensures NoRepeats(Without(keys, b)) && keys[b] !in Without(keys, b)
  {
    var rest := Without(keys, b);
    forall i, j | 0 <= i < j < |rest| ensures rest[i] != rest[j] {
      var a := if i < b then i else i + 1;
      var c := if j < b then j else j + 1;
      assert rest[i] == keys[a] && rest[j] == keys[c] && a < c;
    }
    forall k | 0 <= k < |rest| ensures rest[k] != keys[b] {
      var a := if k < b then k else k + 1;
      assert rest[k] == keys[a] && a != b;
    }
  }
}
