/**
 Ranking: the application sorts with `(a, b) => key(b) - key(a)` on the
 engine's built-in sort, which is stable. `Rank` is a stable insertion sort by
 a real key, descending; it is proved sorted, a permutation, and to keep
 equal-key elements in their original order, which together pin the result down.
 */
module Ranking {

  /** Non-increasing in `key`. */
  ghost predicate SortedDesc<T>(xs: seq<T>, key: T -> real) {
    forall i, j :: 0 <= i < j < |xs| ==> key(xs[i]) >= key(xs[j])
  }

  /** The elements of `xs` whose key is exactly `k`, in their order in `xs`. */
  function Ties<T>(xs: seq<T>, key: T -> real, k: real): seq<T>
  {
    if |xs| == 0 then []
    else Ties(xs[..|xs| - 1], key, k) + (if key(xs[|xs| - 1]) == k then [xs[|xs| - 1]] else [])
  }

  lemma {:induction false} TiesAppend<T>(a: seq<T>, b: seq<T>, key: T -> real, k: real)
    ensures Ties(a + b, key, k) == Ties(a, key, k) + Ties(b, key, k)
    decreases |b|
  {
    if |b| == 0 {
      assert a + b == a;
    } else {
      var b' := b[..|b| - 1];
      assert (a + b)[..|a + b| - 1] == a + b';
      TiesAppend(a, b', key, k);
    }
  }

  /** No element of `xs` has key `k`, so it has no ties at `k`. */
  lemma {:induction false} TiesNone<T>(xs: seq<T>, key: T -> real, k: real)
    requires forall i :: 0 <= i < |xs| ==> key(xs[i]) != k
    ensures Ties(xs, key, k) == []
    decreases |xs|
  {
    if |xs| > 0 {
      TiesNone(xs[..|xs| - 1], key, k);
    }
  }

  /** The first tie at `k` is the first element of `xs` whose key is `k`. */
  lemma {:induction false} TiesHead<T>(xs: seq<T>, key: T -> real, k: real, i: nat)
    requires i < |xs| && key(xs[i]) == k
    requires forall j :: 0 <= j < i ==> key(xs[j]) != k
    ensures |Ties(xs, key, k)| > 0 && Ties(xs, key, k)[0] == xs[i]
  {
    assert xs == xs[..i] + ([xs[i]] + xs[i + 1..]);
    TiesAppend(xs[..i], [xs[i]] + xs[i + 1..], key, k);
    TiesAppend([xs[i]], xs[i + 1..], key, k);
    TiesNone(xs[..i], key, k);
    assert Ties([xs[i]], key, k) == [xs[i]] by {
      assert [xs[i]][..0] == [];
    }
  }

  /** Appending an element no greater than any of a sorted list keeps it sorted. */
  lemma AppendSorted<T>(r: seq<T>, y: T, key: T -> real)
    requires SortedDesc(r, key)
    requires forall i :: 0 <= i < |r| ==> key(r[i]) >= key(y)
    ensures SortedDesc(r + [y], key)
  {
    var ry := r + [y];
    forall i, j | 0 <= i < j < |ry| ensures key(ry[i]) >= key(ry[j]) {
      assert ry[i] == r[i];
    }
  }

  /** The inductive step of `Insert`: `r` is `init` with `x` inserted, and `last`,
      which ends the sorted `init + [last]`, has a key below that of `x`; then `last`
      may follow `r`. */
  lemma InsertStep<T>(init: seq<T>, last: T, x: T, r: seq<T>, key: T -> real)
    requires SortedDesc(init + [last], key) && key(last) < key(x)
    requires SortedDesc(r, key)
    requires multiset(r) == multiset(init) + multiset{x}
    requires forall i :: 0 <= i < |r| ==> r[i] == x || r[i] in init
    ensures SortedDesc(r + [last], key)
    ensures multiset(r + [last]) == multiset(init + [last]) + multiset{x}
    ensures forall i :: 0 <= i < |r| + 1 ==> (r + [last])[i] == x || (r + [last])[i] in init + [last]
  {
    var s := init + [last];
    forall i | 0 <= i < |r| ensures key(r[i]) >= key(last) {
      if r[i] != x {
        var j :| 0 <= j < |init| && init[j] == r[i];
        assert s[j] == init[j] && s[|s| - 1] == last;
      }
    }
    AppendSorted(r, last, key);
    forall i | 0 <= i < |r| + 1 ensures (r + [last])[i] == x || (r + [last])[i] in s {
      if i < |r| && r[i] != x {
        var j :| 0 <= j < |init| && init[j] == r[i];
        assert s[j] == r[i];
      }
    }
  }

  /** `x` placed after every element of `s` whose key is at least its own. */
  function Insert<T>(s: seq<T>, x: T, key: T -> real): (r: seq<T>)
    requires SortedDesc(s, key)
    ensures SortedDesc(r, key)
    ensures |r| == |s| + 1
    ensures multiset(r) == multiset(s) + multiset{x}
    ensures forall i :: 0 <= i < |r| ==> r[i] == x || r[i] in s
    decreases |s|
  {
    if |s| == 0 || key(s[|s| - 1]) >= key(x) then
      AppendSorted(s, x, key);
      s + [x]
    else
      var init, last := s[..|s| - 1], s[|s| - 1];
      assert s == init + [last];
      var r' := Insert(init, x, key);
      InsertStep(init, last, x, r', key);
      r' + [last]
  }

  /** Appending one element extends the ties at its key by that element. */
  lemma TiesSnoc<T>(xs: seq<T>, y: T, key: T -> real, k: real)
    ensures Ties(xs + [y], key, k) == Ties(xs, key, k) + (if key(y) == k then [y] else [])
  {
    assert (xs + [y])[..|xs + [y]| - 1] == xs;
  }

  /** The inductive step of `InsertTies`: putting `last`, whose key is below that of
      `x`, after a list whose ties gained `x` gives the ties of `init + [last]`
      followed by `x`. */
  lemma TiesStep<T>(init: seq<T>, r: seq<T>, last: T, x: T, key: T -> real, k: real)
    requires key(last) < key(x)
    requires Ties(r, key, k) == Ties(init, key, k) + (if key(x) == k then [x] else [])
    ensures Ties(r + [last], key, k) == Ties(init + [last], key, k) + (if key(x) == k then [x] else [])
  {
    TiesSnoc(r, last, key, k);
    TiesSnoc(init, last, key, k);
  }

  /** Inserting `x` adds it to the ties at its own key, last, and changes no other ties. */
  lemma {:induction false} InsertTies<T>(s: seq<T>, x: T, key: T -> real, k: real)
    requires SortedDesc(s, key)
    ensures Ties(Insert(s, x, key), key, k) == Ties(s, key, k) + (if key(x) == k then [x] else [])
    decreases |s|
  {
    if |s| == 0 || key(s[|s| - 1]) >= key(x) {
      TiesSnoc(s, x, key, k);
    } else {
      var init, last := s[..|s| - 1], s[|s| - 1];
      assert s == init + [last];
      InsertTies(init, x, key, k);
      TiesStep(init, Insert(init, x, key), last, x, key, k);
    }
  }

  /** The stable descending ranking of `xs` by `key`. */
  function Rank<T>(xs: seq<T>, key: T -> real): (r: seq<T>)
    ensures SortedDesc(r, key)
    ensures |r| == |xs|
    ensures multiset(r) == multiset(xs)
    decreases |xs|
  {
    if |xs| == 0 then []
    else
      var init := xs[..|xs| - 1];
      assert xs == init + [xs[|xs| - 1]];
      Insert(Rank(init, key), xs[|xs| - 1], key)
  }

  /** Stability: for every key value, the elements with that key appear in the
      ranking in the same relative order as in the input. */
  lemma {:induction false} RankIsStable<T>(xs: seq<T>, key: T -> real, k: real)
    ensures Ties(Rank(xs, key), key, k) == Ties(xs, key, k)
    decreases |xs|
  {
    if |xs| > 0 {
      var init := xs[..|xs| - 1];
      RankIsStable(init, key, k);
      InsertTies(Rank(init, key), xs[|xs| - 1], key, k);
    }
  }

  /** The head of a non-empty ranking is an element of the input with the greatest key. */
  lemma RankHeadIsMaximum<T>(xs: seq<T>, key: T -> real)
    requires |xs| > 0
    ensures Rank(xs, key)[0] in xs
    ensures forall x :: x in xs ==> key(x) <= key(Rank(xs, key)[0])
  {
    var r := Rank(xs, key);
    assert r[0] in multiset(xs);
    forall x | x in xs ensures key(x) <= key(r[0]) {
      assert x in multiset(r);
      var j :| 0 <= j < |r| && r[j] == x;
    }
  }

  /** Of the elements with the greatest key, the ranking's head is the one that
      comes first in the input: ties are broken by original order. */
  lemma RankHeadIsEarliestMaximum<T>(xs: seq<T>, key: T -> real)
    requires |xs| > 0
    ensures exists i :: (0 <= i < |xs| && xs[i] == Rank(xs, key)[0]
      && forall j :: 0 <= j < i ==> key(xs[j]) < key(xs[i]))
  {
    var r := Rank(xs, key);
    var m := key(r[0]);
    RankHeadIsMaximum(xs, key);
    var i := FirstWithKey(xs, key, m);
    assert xs[i] == r[0] by {
      TiesHead(xs, key, m, i);
      TiesHead(r, key, m, 0);
      RankIsStable(xs, key, m);
    }
    forall j | 0 <= j < i ensures key(xs[j]) < key(xs[i]) {
      assert xs[j] in xs;
      assert key(xs[j]) <= m && key(xs[j]) != m;
    }
  }

  /** Index of the first element of `xs` with key `k` (there is one). */
  function FirstWithKey<T>(xs: seq<T>, key: T -> real, k: real): (i: nat)
    requires exists x :: x in xs && key(x) == k
    ensures i < |xs| && key(xs[i]) == k
    ensures forall j :: 0 <= j < i ==> key(xs[j]) != k
  {
    if key(xs[0]) == k then 0
    else
      assert exists x :: x in xs[1..] && key(x) == k by {
        var x :| x in xs && key(x) == k;
        var j :| 0 <= j < |xs| && xs[j] == x;
        assert xs[1..][j - 1] == x;
      }
      1 + FirstWithKey(xs[1..], key, k)
  }

  function Min(a: nat, b: nat): nat {
    if a <= b then a else b
  }

  /** A prefix of a descending sequence dominates the rest and is a sub-multiset of it. */
  lemma PrefixDominates<T>(ranked: seq<T>, m: nat, key: T -> real)
    requires SortedDesc(ranked, key) && m <= |ranked|
    ensures forall i, j :: 0 <= i < m <= j < |ranked| ==> key(ranked[..m][i]) >= key(ranked[j])
    ensures multiset(ranked[..m]) <= multiset(ranked)
  {
    assert ranked == ranked[..m] + ranked[m..];
  }

  /** The first `n` entries of the ranking (`sorted.slice(0, n)`): every one of them
      ranks at least as high as everything left out. */
  function Top<T>(xs: seq<T>, key: T -> real, n: nat): (r: seq<T>)
    ensures |r| == Min(n, |xs|)
    ensures r == Rank(xs, key)[..|r|]
    ensures forall i, j :: 0 <= i < |r| <= j < |xs| ==> key(r[i]) >= key(Rank(xs, key)[j])
    ensures multiset(r) <= multiset(xs)
  {
    var ranked := Rank(xs, key);
    PrefixDominates(ranked, Min(n, |xs|), key);
    ranked[..Min(n, |xs|)]
  }

  /** Every element kept by `Top` ranks at least as high as any element of the
      input that was left out. */
  lemma TopBeatsTheRest<T>(xs: seq<T>, key: T -> real, n: nat, i: nat, p: T)
    requires i < |Top(xs, key, n)| && p in xs && p !in Top(xs, key, n)
    ensures key(Top(xs, key, n)[i]) >= key(p)
  {
    var top := Top(xs, key, n);
    var ranked := Rank(xs, key);
    assert p in multiset(ranked);
    var j :| 0 <= j < |ranked| && ranked[j] == p;
    assert forall k :: 0 <= k < |top| ==> top[k] == ranked[k];
    assert j >= |top|;
  }
}
