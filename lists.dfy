/**
 * Sequence helpers shared by the client and the API: duplicate-free lists,
 * `Array.from(new Set(xs))` (first occurrences, in order), and removing
 * every occurrence of a value.
 */
module Lists {

  predicate NoDups<T(==)>(xs: seq<T>) {
    forall i, j :: 0 <= i < j < |xs| ==> xs[i] != xs[j]
  }

  /** The first occurrence of every element, in the order of first appearance. */
  function Dedup<T(==,!new)>(xs: seq<T>): (r: seq<T>)
    ensures NoDups(r)
    ensures forall x :: x in r <==> x in xs
    ensures |r| <= |xs|
    ensures NoDups(xs) ==> r == xs
  {
    if xs == [] then []
    else
      var d := Dedup(xs[..|xs| - 1]);
      var y := xs[|xs| - 1];
      assert xs == xs[..|xs| - 1] + [y];
      if y in d then d else d + [y]
  }

  /** Adding one element to the input adds it to the result exactly when it is new. */
  lemma DedupSnoc<T(!new)>(xs: seq<T>, y: T)
    ensures Dedup(xs + [y]) == if y in xs then Dedup(xs) else Dedup(xs) + [y]
  {
    assert (xs + [y])[..|xs|] == xs;
  }

  /** Deduplicating `a + b` keeps the deduplicated `a` as its prefix: earlier elements stay first. */
  lemma {:induction false} DedupKeepsPrefix<T(!new)>(a: seq<T>, b: seq<T>)
    ensures |Dedup(a)| <= |Dedup(a + b)|
    ensures Dedup(a + b)[..|Dedup(a)|] == Dedup(a)
    decreases |b|
  {
    if b == [] {
      assert a + b == a;
    } else {
      var b' := b[..|b| - 1];
      var y := b[|b| - 1];
      DedupKeepsPrefix(a, b');
      assert a + b == (a + b') + [y] by {
        assert b == b' + [y];
        AppendAssoc(a, b', [y]);
      }
      DedupSnoc(a + b', y);
      PrefixSnoc(Dedup(a + b'), Dedup(a), y);
    }
  }

  lemma PrefixSnoc<T>(d: seq<T>, p: seq<T>, y: T)
    requires |p| <= |d| && d[..|p|] == p
    ensures (d + [y])[..|p|] == p
  {
  }

  /** Appending only elements already present changes nothing. */
  lemma {:induction false} DedupAbsorbs<T(!new)>(a: seq<T>, b: seq<T>)
    requires forall x :: x in b ==> x in a
    ensures Dedup(a + b) == Dedup(a)
    decreases |b|
  {
    if b == [] {
      assert a + b == a;
    } else {
      var b' := b[..|b| - 1];
      var y := b[|b| - 1];
      forall x | x in b' ensures x in a {
        assert x in b;
      }
      DedupAbsorbs(a, b');
      assert Dedup(a + b) == Dedup(a + b') by {
        assert a + b == (a + b') + [y] by {
          assert b == b' + [y];
          AppendAssoc(a, b', [y]);
        }
        assert y in b;
        assert y in a + b';
        DedupSnoc(a + b', y);
      }
    }
  }

  /** Every occurrence of `x` removed (`xs.filter(item => item !== x)`). */
  function Remove<T(==,!new)>(xs: seq<T>, x: T): (r: seq<T>)
    ensures x !in r
    ensures forall y :: y != x ==> (y in r <==> y in xs)
    ensures forall y :: multiset(r)[y] == if y == x then 0 else multiset(xs)[y]
    ensures |r| <= |xs|
  {
    if xs == [] then []
    else
      var rest := Remove(xs[..|xs| - 1], x);
      var y := xs[|xs| - 1];
      assert xs == xs[..|xs| - 1] + [y];
      if y == x then rest else rest + [y]
  }

  /** Removal works element by element, so the kept elements stay in their order. */
  lemma {:induction false} RemoveAppend<T(!new)>(a: seq<T>, b: seq<T>, x: T)
    ensures Remove(a + b, x) == Remove(a, x) + Remove(b, x)
    decreases |b|
  {
    if b == [] {
      assert a + b == a;
    } else {
      var b' := b[..|b| - 1];
      var y := b[|b| - 1];
      assert (a + b)[..|a + b| - 1] == a + b';
      assert (a + b)[|a + b| - 1] == y;
      RemoveAppend(a, b', x);
      if y != x {
        AppendAssoc(Remove(a, x), Remove(b', x), [y]);
      }
    }
  }

  lemma {:induction false} RemoveAbsent<T(!new)>(xs: seq<T>, x: T)
    requires x !in xs
    ensures Remove(xs, x) == xs
  {
    if xs != [] {
      RemoveAbsent(xs[..|xs| - 1], x);
      assert xs == xs[..|xs| - 1] + [xs[|xs| - 1]];
    }
  }

  /** Removing an element removes nothing else and keeps the list duplicate-free. */
  lemma {:induction false} RemoveKeepsNoDups<T(!new)>(xs: seq<T>, x: T)
    requires NoDups(xs)
    ensures NoDups(Remove(xs, x))
  {
    if xs != [] {
      var init := xs[..|xs| - 1];
      assert NoDups(init);
      RemoveKeepsNoDups(init, x);
      assert xs[|xs| - 1] !in init;
    }
  }

  /** The elements of a list, as a set. */
  function Elems<T>(xs: seq<T>): set<T> {
    set x | x in xs
  }

  lemma ElemsPrefixSnoc<T>(xs: seq<T>, n: nat)
    requires n < |xs|
    ensures Elems(xs[..n + 1]) == Elems(xs[..n]) + {xs[n]}
  {
    assert xs[..n + 1] == xs[..n] + [xs[n]];
  }

  /** In a list without duplicates, the element at `n` is not among those before it. */
  lemma NoDupsFresh<T>(xs: seq<T>, n: nat)
    requires NoDups(xs) && n < |xs|
    ensures xs[n] !in Elems(xs[..n])
  {
  }

  /** `key` never increases along the list. */
  predicate DescendingBy<T>(xs: seq<T>, key: T -> int) {
    forall i, j :: 0 <= i < j < |xs| ==> key(xs[i]) >= key(xs[j])
  }

  lemma ConsDescendingBy<T>(x: T, xs: seq<T>, key: T -> int)
    requires DescendingBy(xs, key) && (xs != [] ==> key(x) >= key(xs[0]))
    ensures DescendingBy([x] + xs, key)
  {
    var r := [x] + xs;
    forall i, j | 0 <= i < j < |r| ensures key(r[i]) >= key(r[j]) {
      if i == 0 && j > 1 {
        assert r[1] == xs[0] && r[j] == xs[j - 1];
      }
    }
  }

  /**
   * Places `x` after every element whose key is at least its key, so that
   * of two elements with equal keys the one inserted later comes later.
   */
  function InsertBy<T>(xs: seq<T>, x: T, key: T -> int): (r: seq<T>)
    requires DescendingBy(xs, key)
    ensures |r| == |xs| + 1
    ensures r[0] == x || (xs != [] && r[0] == xs[0])
    ensures DescendingBy(r, key)
    ensures multiset(r) == multiset(xs) + multiset{x}
  {
    if xs == [] then [x]
    else if key(xs[0]) >= key(x) then
      var rest := InsertBy(xs[1..], x, key);
      assert xs == [xs[0]] + xs[1..];
      ConsDescendingBy(xs[0], rest, key);
      [xs[0]] + rest
    else
      ConsDescendingBy(x, xs, key);
      [x] + xs
  }

  /** A stable sort by descending key (insertion sort, the input taken front to back). */
  function SortDescendingBy<T>(xs: seq<T>, key: T -> int): (r: seq<T>)
    ensures DescendingBy(r, key)
    ensures multiset(r) == multiset(xs)
  {
    if xs == [] then []
    else
      assert xs == xs[..|xs| - 1] + [xs[|xs| - 1]];
      InsertBy(SortDescendingBy(xs[..|xs| - 1], key), xs[|xs| - 1], key)
  }

  /** The elements whose key is `k`, in list order. */
  function WithKey<T>(xs: seq<T>, key: T -> int, k: int): seq<T> {
    if xs == [] then [] else (if key(xs[0]) == k then [xs[0]] else []) + WithKey(xs[1..], key, k)
  }

  /** `[x]` when `x` has key `k`, else nothing. */
  function Keyed<T>(x: T, key: T -> int, k: int): seq<T> {
    if key(x) == k then [x] else []
  }

  lemma {:induction false} WithKeyAppend<T>(xs: seq<T>, ys: seq<T>, key: T -> int, k: int)
    ensures WithKey(xs + ys, key, k) == WithKey(xs, key, k) + WithKey(ys, key, k)
  {
    if xs == [] {
      assert xs + ys == ys;
    } else {
      var x, rest := xs[0], xs[1..];
      assert WithKey(xs + ys, key, k) == Keyed(x, key, k) + WithKey(rest + ys, key, k) by {
        assert xs + ys == [x] + (rest + ys);
        WithKeyCons(x, rest + ys, key, k);
      }
      assert WithKey(xs, key, k) == Keyed(x, key, k) + WithKey(rest, key, k) by {
        assert xs == [x] + rest;
        WithKeyCons(x, rest, key, k);
      }
      WithKeyAppend(rest, ys, key, k);
      AppendAssoc(Keyed(x, key, k), WithKey(rest, key, k), WithKey(ys, key, k));
    }
  }

  lemma {:induction false} WithKeyBelow<T>(xs: seq<T>, key: T -> int, k: int)
    requires DescendingBy(xs, key) && (xs != [] ==> key(xs[0]) < k)
    ensures WithKey(xs, key, k) == []
  {
    if xs != [] {
      WithKeyBelow(xs[1..], key, k);
    }
  }

  lemma WithKeyCons<T>(y: T, ys: seq<T>, key: T -> int, k: int)
    ensures WithKey([y] + ys, key, k) == Keyed(y, key, k) + WithKey(ys, key, k)
  {
    assert ([y] + ys)[1..] == ys;
  }

  lemma InsertByUnfold<T>(xs: seq<T>, x: T, key: T -> int)
    requires DescendingBy(xs, key) && xs != []
    ensures DescendingBy(xs[1..], key)
    ensures InsertBy(xs, x, key) == if key(xs[0]) >= key(x) then [xs[0]] + InsertBy(xs[1..], x, key) else [x] + xs
  {
  }

  lemma AppendAssoc<T>(a: seq<T>, b: seq<T>, c: seq<T>)
    ensures a + (b + c) == (a + b) + c
  {
  }

  /** The last element of `a + b` is the last of `b`, and what precedes it is `a` and the rest of `b`. */
  lemma AppendLast<T>(a: seq<T>, b: seq<T>)
    requires b != []
    ensures (a + b)[..|a + b| - 1] == a + b[..|b| - 1]
    ensures (a + b)[|a + b| - 1] == b[|b| - 1]
  {
  }

  /** Regrouping `s + (a + c + r) + t` around its middle part. */
  lemma Regroup<T>(s: seq<T>, a: seq<T>, c: seq<T>, r: seq<T>, t: seq<T>)
    ensures s + (a + c + r) + t == (s + a) + c + (r + t)
  {
  }

  lemma ConsAt<T>(s: seq<T>, i: nat)
    requires i < |s|
    ensures [s[i]] + s[i + 1..] == s[i..]
  {
  }

  lemma SplitAt<T>(s: seq<T>, i: nat)
    requires i <= |s|
    ensures s[..i] + s[i..] == s
  {
  }

  lemma {:induction false} WithKeyInsert<T>(xs: seq<T>, x: T, key: T -> int, k: int)
    requires DescendingBy(xs, key)
    ensures WithKey(InsertBy(xs, x, key), key, k) == WithKey(xs, key, k) + Keyed(x, key, k)
    decreases |xs|, 1
  {
    if xs == [] {
      WithKeyCons(x, [], key, k);
    } else if key(xs[0]) >= key(x) {
      WithKeyInsertBehind(xs, x, key, k);
    } else {
      WithKeyInsertFront(xs, x, key, k);
    }
  }

  /** The insertion step before a first element whose key is below `x`'s. */
  lemma WithKeyInsertFront<T>(xs: seq<T>, x: T, key: T -> int, k: int)
    requires DescendingBy(xs, key) && xs != [] && key(xs[0]) < key(x)
    ensures WithKey(InsertBy(xs, x, key), key, k) == WithKey(xs, key, k) + Keyed(x, key, k)
  {
    InsertByUnfold(xs, x, key);
    WithKeyCons(x, xs, key, k);
    var w := WithKey(xs, key, k);
    if key(x) == k {
      WithKeyBelow(xs, key, k);
      assert [x] + w == w + [x];
    } else {
      assert [] + w == w + [];
    }
  }

  /** The insertion step past a first element whose key is at least `x`'s. */
  lemma {:induction false} WithKeyInsertBehind<T>(xs: seq<T>, x: T, key: T -> int, k: int)
    requires DescendingBy(xs, key) && xs != [] && key(xs[0]) >= key(x)
    ensures WithKey(InsertBy(xs, x, key), key, k) == WithKey(xs, key, k) + Keyed(x, key, k)
    decreases |xs|, 0
  {
    var y, ys := xs[0], xs[1..];
    var rest := InsertBy(ys, x, key);
    InsertByUnfold(xs, x, key);
    assert WithKey(xs, key, k) == Keyed(y, key, k) + WithKey(ys, key, k) by {
      WithKeyCons(y, ys, key, k);
      assert [y] + ys == xs;
    }
    assert WithKey(rest, key, k) == WithKey(ys, key, k) + Keyed(x, key, k) by {
      WithKeyInsert(ys, x, key, k);
    }
    WithKeyCons(y, rest, key, k);
    AppendAssoc(Keyed(y, key, k), WithKey(ys, key, k), Keyed(x, key, k));
  }

  /** Stability: elements with equal keys keep their relative order. */
  lemma {:induction false} SortKeepsTies<T>(xs: seq<T>, key: T -> int, k: int)
    ensures WithKey(SortDescendingBy(xs, key), key, k) == WithKey(xs, key, k)
  {
    if xs != [] {
      var init := xs[..|xs| - 1];
      var x := xs[|xs| - 1];
      assert xs == init + [x];
      var sortedInit := SortDescendingBy(init, key);
      assert SortDescendingBy(xs, key) == InsertBy(sortedInit, x, key);
      SortKeepsTies(init, key, k);
      WithKeyInsert(sortedInit, x, key, k);
      WithKeyAppend(init, [x], key, k);
      assert WithKey([x], key, k) == Keyed(x, key, k) + WithKey([], key, k);
    }
  }
}
