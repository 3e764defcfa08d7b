/** Result values and the list operations the modelled programs share, with the facts that make
    them indifferent to the arrangement of their input. */
module Collections {
  import opened Orders

  datatype Option<+T> = None | Some(value: T)

  datatype Result<+T, +E> = Success(value: T) | Failure(error: E)

  function Filter<T(!new)>(xs: seq<T>, p: T -> bool): (r: seq<T>)
    ensures forall x :: x in r <==> x in xs && p(x)
    ensures |r| <= |xs|
  {
    if xs == [] then []
    else (if p(xs[0]) then [xs[0]] else []) + Filter(xs[1..], p)
  }

  function Map<S, T>(f: S -> T, xs: seq<S>): (r: seq<T>)
    ensures |r| == |xs|
    ensures forall i :: 0 <= i < |xs| ==> r[i] == f(xs[i])
  {
    if xs == [] then [] else [f(xs[0])] + Map(f, xs[1..])
  }

  function Flatten<T>(xs: seq<seq<T>>): seq<T> {
    if xs == [] then [] else xs[0] + Flatten(xs[1..])
  }

  /** The first occurrence of each element, in order: Python's `tuple(dict.fromkeys(xs))`. */
  function Dedup<T(==,!new)>(xs: seq<T>): (r: seq<T>)
    ensures forall x :: x in r <==> x in xs
    ensures r == [] <==> xs == []
  {
    if xs == [] then []
    else
      var front := Dedup(xs[..|xs| - 1]);
      assert xs == xs[..|xs| - 1] + [xs[|xs| - 1]];
      if xs[|xs| - 1] in xs[..|xs| - 1] then front else front + [xs[|xs| - 1]]
  }

  predicate NoDuplicates<T(==)>(xs: seq<T>) {
    forall i, j :: 0 <= i < j < |xs| ==> xs[i] != xs[j]
  }

  lemma FilterAppend<T(!new)>(xs: seq<T>, ys: seq<T>, p: T -> bool)
    ensures Filter(xs + ys, p) == Filter(xs, p) + Filter(ys, p)
  {
    if xs == [] {
      assert xs + ys == ys;
    } else {
      assert (xs + ys)[1..] == xs[1..] + ys;
      FilterAppend(xs[1..], ys, p);
    }
  }

  lemma FilterStep<T(!new)>(xs: seq<T>, i: nat, p: T -> bool)
    requires i < |xs|
    ensures Filter(xs[..i + 1], p) == Filter(xs[..i], p) + (if p(xs[i]) then [xs[i]] else [])
  {
    FilterAppend(xs[..i], [xs[i]], p);
    assert xs[..i + 1] == xs[..i] + [xs[i]];
  }

  /** Every later member of a filtered list stood later in the list. */
  lemma {:induction false} FilterInOrder<T(!new)>(xs: seq<T>, p: T -> bool, i: nat, j: nat)
    requires i < j < |Filter(xs, p)|
    ensures exists a, b :: 0 <= a < b < |xs| && xs[a] == Filter(xs, p)[i] && xs[b] == Filter(xs, p)[j]
  {
    var rest := Filter(xs[1..], p);
    var k := if p(xs[0]) then 1 else 0;
    assert Filter(xs, p)[j] == rest[j - k];
    if p(xs[0]) && i == 0 {
      assert rest[j - 1] in xs[1..];
      var b :| 0 <= b < |xs[1..]| && xs[1..][b] == rest[j - 1];
      assert xs[0] == Filter(xs, p)[0] && xs[b + 1] == Filter(xs, p)[j];
    } else {
      FilterInOrder(xs[1..], p, i - k, j - k);
      var a, b :| 0 <= a < b < |xs[1..]| && xs[1..][a] == rest[i - k] && xs[1..][b] == rest[j - k];
      assert xs[a + 1] == Filter(xs, p)[i] && xs[b + 1] == Filter(xs, p)[j];
    }
  }

  lemma {:induction false} FilterAll<T(!new)>(xs: seq<T>, p: T -> bool)
    requires forall x :: x in xs ==> p(x)
    ensures Filter(xs, p) == xs
  {
    if xs == [] {
    } else {
      FilterAll(xs[1..], p);
    }
  }

  lemma {:induction false} FilterNone<T(!new)>(xs: seq<T>, p: T -> bool)
    requires forall x :: x in xs ==> !p(x)
    ensures Filter(xs, p) == []
  {
    if xs == [] {
    } else {
      FilterNone(xs[1..], p);
    }
  }

  lemma MapAppend<S, T>(f: S -> T, xs: seq<S>, ys: seq<S>)
    ensures Map(f, xs + ys) == Map(f, xs) + Map(f, ys)
  {
  }

  lemma AppendAssociates<T>(a: seq<T>, b: seq<T>, c: seq<T>)
    ensures a + (b + c) == a + b + c
  {
  }

  lemma MapStep<S, T>(f: S -> T, xs: seq<S>, i: nat)
    requires i < |xs|
    ensures Map(f, xs[..i + 1]) == Map(f, xs[..i]) + [f(xs[i])]
  {
  }

  lemma FlattenAppend<T>(xs: seq<seq<T>>, ys: seq<seq<T>>)
    ensures Flatten(xs + ys) == Flatten(xs) + Flatten(ys)
  {
    if xs == [] {
      assert xs + ys == ys;
    } else {
      assert (xs + ys)[1..] == xs[1..] + ys;
      FlattenAppend(xs[1..], ys);
    }
  }

  /** The elements marked true. */
  function Picked<T>(xs: seq<T>, picks: seq<bool>): seq<T>
    requires |xs| == |picks|
  {
    if xs == [] then []
    else (if picks[0] then [xs[0]] else []) + Picked(xs[1..], picks[1..])
  }

  lemma PickedHead<T>(xs: seq<T>, picks: seq<bool>, i: nat)
    requires |xs| == |picks| && 0 < i <= |xs|
    ensures Picked(xs[..i], picks[..i])
         == (if picks[0] then [xs[0]] else []) + Picked(xs[1..][..i - 1], picks[1..][..i - 1])
  {
    assert xs[..i][1..] == xs[1..][..i - 1] && picks[..i][1..] == picks[1..][..i - 1];
  }

  lemma {:induction false} PickedFacts<T>(xs: seq<T>, picks: seq<bool>)
    requires |xs| == |picks|
    ensures forall x :: x in Picked(xs, picks) ==> x in xs
    ensures forall i :: 0 <= i < |xs| && picks[i] ==> xs[i] in Picked(xs, picks)
    ensures NoDuplicates(xs) ==> NoDuplicates(Picked(xs, picks))
  {
    if xs == [] {
    } else {
      PickedFacts(xs[1..], picks[1..]);
      forall i | 0 <= i < |xs| && picks[i] ensures xs[i] in Picked(xs, picks) {
        if i > 0 {
          assert xs[i] == xs[1..][i - 1] && picks[1..][i - 1];
        }
      }
      if NoDuplicates(xs) {
        assert xs[0] !in xs[1..];
        assert xs[0] !in Picked(xs[1..], picks[1..]);
      }
    }
  }

  lemma {:induction false} PickedStep<T>(xs: seq<T>, picks: seq<bool>, i: nat)
    requires |xs| == |picks| && i < |xs|
    ensures Picked(xs[..i + 1], picks[..i + 1])
         == Picked(xs[..i], picks[..i]) + (if picks[i] then [xs[i]] else [])
  {
    PickedHead(xs, picks, i + 1);
    if i == 0 {
    } else {
      PickedStep(xs[1..], picks[1..], i - 1);
      PickedHead(xs, picks, i);
    }
  }

  lemma {:induction false} PickedExactly<T>(xs: seq<T>, picks: seq<bool>, i: nat)
    requires |xs| == |picks| && i < |xs| && NoDuplicates(xs)
    ensures xs[i] in Picked(xs, picks) <==> picks[i]
  {
    PickedFacts(xs, picks);
    PickedFacts(xs[1..], picks[1..]);
    if i == 0 {
    } else {
      assert xs[1..][i - 1] == xs[i] && picks[1..][i - 1] == picks[i];
      PickedExactly(xs[1..], picks[1..], i - 1);
    }
  }

  lemma {:induction false} FilterNoDuplicates<T(!new)>(xs: seq<T>, p: T -> bool)
    requires NoDuplicates(xs)
    ensures NoDuplicates(Filter(xs, p))
  {
    if xs == [] {
    } else {
      FilterNoDuplicates(xs[1..], p);
    }
  }

  /** Filtering and mapping only look at the members. */
  lemma {:induction false} FilterAgrees<T(!new)>(xs: seq<T>, p: T -> bool, q: T -> bool)
    requires forall x :: x in xs ==> p(x) == q(x)
    ensures Filter(xs, p) == Filter(xs, q)
  {
    if xs == [] {
    } else {
      FilterAgrees(xs[1..], p, q);
    }
  }

  /** Where the `j`-th element of the `k`-th list ends up once the lists are joined. */
  lemma {:induction false} FlattenPlace<T>(xs: seq<seq<T>>, k: nat, j: nat)
    requires k < |xs| && j < |xs[k]|
    ensures var at := |Flatten(xs[..k])| + j;
      at < |Flatten(xs)| && Flatten(xs)[at] == xs[k][j]
  {
    FlattenAppend(xs[..k], xs[k..]);
    assert xs == xs[..k] + xs[k..];
  }

  /** Joining lists around the `i`-th one. */
  lemma FlattenAround<T>(xs: seq<seq<T>>, i: nat)
    requires i < |xs|
    ensures Flatten(xs) == Flatten(xs[..i]) + xs[i] + Flatten(xs[i + 1..])
  {
    assert xs == xs[..i] + xs[i..];
    FlattenAppend(xs[..i], xs[i..]);
    assert xs[i..][1..] == xs[i + 1..];
  }

  /** Every element of the joined lists comes from one of them. */
  lemma {:induction false} FlattenOrigin<T>(xs: seq<seq<T>>, at: nat) returns (k: nat, j: nat)
    requires at < |Flatten(xs)|
    ensures k < |xs| && j < |xs[k]| && Flatten(xs)[at] == xs[k][j] && at == |Flatten(xs[..k])| + j
  {
    if at < |xs[0]| {
      k, j := 0, at;
    } else {
      k, j := FlattenOrigin(xs[1..], at - |xs[0]|);
      k := k + 1;
      assert xs[..k][1..] == xs[1..][..k - 1];
    }
  }

  ghost predicate DistinctWhere<T(!new), K>(xs: seq<T>, p: T -> bool, f: T -> K) {
    forall i, j :: 0 <= i < j < |xs| && p(xs[i]) && p(xs[j]) ==> f(xs[i]) != f(xs[j])
  }

  lemma DistinctWhereStep<T(!new), K>(xs: seq<T>, p: T -> bool, f: T -> K)
    requires xs != []
    ensures DistinctWhere(xs, p, f) <==>
      (DistinctWhere(xs[1..], p, f) && !(p(xs[0]) && exists y :: y in xs[1..] && p(y) && f(y) == f(xs[0])))
  {
    var tail := xs[1..];
    assert xs == [xs[0]] + tail;
    if DistinctWhere(xs, p, f) {
      forall i, j | 0 <= i < j < |tail| && p(tail[i]) && p(tail[j]) ensures f(tail[i]) != f(tail[j]) {
        assert tail[i] == xs[i + 1] && tail[j] == xs[j + 1];
      }
      forall y | p(xs[0]) && y in tail && p(y) ensures f(y) != f(xs[0]) {
        var j :| 0 <= j < |tail| && tail[j] == y;
        assert xs[j + 1] == y;
      }
    }
    if DistinctWhere(tail, p, f) && !(p(xs[0]) && exists y :: y in tail && p(y) && f(y) == f(xs[0])) {
      forall i, j | 0 <= i < j < |xs| && p(xs[i]) && p(xs[j]) ensures f(xs[i]) != f(xs[j]) {
        assert xs[j] == tail[j - 1] && xs[j] in tail;
        if i > 0 {
          assert xs[i] == tail[i - 1];
        }
      }
    }
  }

  lemma ImageAmong<T(!new), K>(xs: seq<T>, p: T -> bool, f: T -> K, v: K)
    ensures v in Map(f, Filter(xs, p)) <==> exists y :: y in xs && p(y) && f(y) == v
  {
    var found := Filter(xs, p);
    if v in Map(f, found) {
      var k :| 0 <= k < |found| && Map(f, found)[k] == v;
      assert found[k] in found;
    }
    if y :| y in xs && p(y) && f(y) == v {
      MapMembers(f, found, y);
    }
  }

  /** Filtering leaves images distinct exactly when no two matching elements share one. */
  lemma {:induction false} FilterDistinct<T(!new), K>(xs: seq<T>, p: T -> bool, f: T -> K)
    ensures NoDuplicates(Map(f, Filter(xs, p))) <==> DistinctWhere(xs, p, f)
  {
    if xs == [] {
    } else {
      hide DistinctWhere, NoDuplicates;
      FilterDistinct(xs[1..], p, f);
      DistinctWhereStep(xs, p, f);
      if p(xs[0]) {
        var rest := Map(f, Filter(xs[1..], p));
        assert Map(f, Filter(xs, p)) == [f(xs[0])] + rest;
        HeadDistinct(f(xs[0]), rest);
        ImageAmong(xs[1..], p, f, f(xs[0]));
      } else {
        assert Filter(xs, p) == Filter(xs[1..], p);
      }
    }
  }

  lemma HeadDistinct<T>(x: T, rest: seq<T>)
    ensures NoDuplicates([x] + rest) <==> NoDuplicates(rest) && x !in rest
  {
    if NoDuplicates([x] + rest) {
      forall i, j | 0 <= i < j < |rest| ensures rest[i] != rest[j] {
        assert ([x] + rest)[i + 1] == rest[i] && ([x] + rest)[j + 1] == rest[j];
      }
      forall i | 0 <= i < |rest| ensures rest[i] != x {
        assert ([x] + rest)[0] == x && ([x] + rest)[i + 1] == rest[i];
      }
    }
  }

  /** If the images of a longer list are all different, so are those of a prefix. */
  lemma PrefixDistinct<S, T>(f: S -> T, xs: seq<S>, n: nat)
    requires n <= |xs| && NoDuplicates(Map(f, xs))
    ensures NoDuplicates(Map(f, xs[..n]))
  {
    hide Map;
    var all, some := Map(f, xs), Map(f, xs[..n]);
    forall i, j | 0 <= i < j < n ensures some[i] != some[j] {
      assert all[i] == some[i] && all[j] == some[j];
    }
  }

  // ---------------------------------------------------------------- dictionaries

  /** The dictionary a loop `for x in xs: d[key(x)] = x` builds. */
  function IndexBy<K, V>(xs: seq<V>, key: V -> K): map<K, V> {
    if xs == [] then map[]
    else IndexBy(xs[..|xs| - 1], key)[key(xs[|xs| - 1]) := xs[|xs| - 1]]
  }

  lemma {:induction false} IndexFacts<K, V>(xs: seq<V>, key: V -> K)
    ensures forall k :: k in IndexBy(xs, key) <==> k in Map(key, xs)
    ensures forall k :: k in IndexBy(xs, key) ==> IndexBy(xs, key)[k] in xs && key(IndexBy(xs, key)[k]) == k
    ensures NoDuplicates(Map(key, xs)) ==>
      forall x :: x in xs ==> key(x) in IndexBy(xs, key) && IndexBy(xs, key)[key(x)] == x
  {
    hide Map, NoDuplicates;
    if xs == [] {
      assert Map(key, xs) == [];
    } else {
      var front, last := xs[..|xs| - 1], xs[|xs| - 1];
      assert xs == front + [last];
      IndexFacts(front, key);
      MapSnoc(key, front, last);
      if NoDuplicates(Map(key, xs)) {
        LastDistinct(Map(key, front), key(last));
        forall x | x in front ensures key(x) in IndexBy(xs, key) && IndexBy(xs, key)[key(x)] == x {
          MapMembers(key, front, x);
        }
      }
    }
  }

  lemma MapSnoc<S, T>(f: S -> T, xs: seq<S>, x: S)
    ensures Map(f, xs + [x]) == Map(f, xs) + [f(x)]
  {
    hide Map;
    MapAppend(f, xs, [x]);
    assert Map(f, [x]) == [f(x)];
  }

  lemma LastDistinct<T>(front: seq<T>, x: T)
    ensures NoDuplicates(front + [x]) <==> NoDuplicates(front) && x !in front
  {
    var xs := front + [x];
    if NoDuplicates(xs) {
      forall i, j | 0 <= i < j < |front| ensures front[i] != front[j] {
        assert xs[i] == front[i] && xs[j] == front[j];
      }
      forall i | 0 <= i < |front| ensures front[i] != x {
        assert xs[i] == front[i] && xs[|front|] == x;
      }
    }
  }

  /** Growing the list by one grows the dictionary by one key. */
  lemma IndexStep<K, V>(xs: seq<V>, x: V, key: V -> K)
    ensures IndexBy(xs + [x], key) == IndexBy(xs, key)[key(x) := x]
    ensures NoDuplicates(Map(key, xs + [x])) <==> NoDuplicates(Map(key, xs)) && key(x) !in IndexBy(xs, key)
  {
    hide Map, NoDuplicates;
    assert (xs + [x])[..|xs|] == xs;
    IndexFacts(xs, key);
    MapSnoc(key, xs, x);
    LastDistinct(Map(key, xs), key(x));
  }

  /** Once two entries of a list share a key, no longer list is free of duplicates. */
  lemma DuplicatesStay<T>(xs: seq<T>, n: nat)
    requires n <= |xs| && !NoDuplicates(xs[..n])
    ensures !NoDuplicates(xs)
  {
    var i, j :| 0 <= i < j < n && xs[..n][i] == xs[..n][j];
    assert xs[i] == xs[j];
  }

  // ---------------------------------------------------------------- permutations

  ghost predicate Permutation<T>(xs: seq<T>, ys: seq<T>) {
    multiset(xs) == multiset(ys)
  }

  function Without<T>(xs: seq<T>, i: nat): seq<T>
    requires i < |xs|
  {
    xs[..i] + xs[i + 1..]
  }

  lemma WithoutFacts<T>(xs: seq<T>, i: nat)
    requires i < |xs|
    ensures multiset(Without(xs, i)) == multiset(xs) - multiset{xs[i]}
  {
    assert xs == xs[..i] + [xs[i]] + xs[i + 1..];
  }

  /** Where the head of one arrangement sits in another, and that the rest still match. */
  lemma PermutationStep<T>(xs: seq<T>, ys: seq<T>) returns (i: nat)
    requires Permutation(xs, ys) && xs != []
    ensures i < |ys| && ys[i] == xs[0]
    ensures Permutation(xs[1..], Without(ys, i))
  {
    SamePermutation(xs, ys);
    assert xs[0] in ys;
    i :| 0 <= i < |ys| && ys[i] == xs[0];
    WithoutFacts(ys, i);
    assert xs == [xs[0]] + xs[1..];
  }

  lemma {:induction false} FilterCount<T(!new)>(xs: seq<T>, p: T -> bool, x: T)
    ensures multiset(Filter(xs, p))[x] == if p(x) then multiset(xs)[x] else 0
  {
    if xs == [] {
    } else {
      FilterCount(xs[1..], p, x);
      assert xs == [xs[0]] + xs[1..];
    }
  }

  lemma PermutationFilter<T(!new)>(xs: seq<T>, ys: seq<T>, p: T -> bool)
    requires Permutation(xs, ys)
    ensures Permutation(Filter(xs, p), Filter(ys, p))
  {
    forall x ensures multiset(Filter(xs, p))[x] == multiset(Filter(ys, p))[x] {
      FilterCount(xs, p, x);
      FilterCount(ys, p, x);
    }
  }

  lemma MapHead<S, T>(f: S -> T, xs: seq<S>)
    requires xs != []
    ensures multiset(Map(f, xs)) == multiset{f(xs[0])} + multiset(Map(f, xs[1..]))
  {
    hide Map;
    assert xs == [xs[0]] + xs[1..];
    MapAppend(f, [xs[0]], xs[1..]);
    assert Map(f, [xs[0]]) == [f(xs[0])];
  }

  lemma MapWithout<S, T>(f: S -> T, ys: seq<S>, i: nat)
    requires i < |ys|
    ensures multiset(Map(f, ys)) == multiset{f(ys[i])} + multiset(Map(f, Without(ys, i)))
  {
    hide *;
    var a, b, from := ys[..i], ys[i + 1..], ys[i..];
    assert ys == a + from && from[0] == ys[i] && from[1..] == b;
    MapAppend(f, a, from);
    MapHead(f, from);
    MapAppend(f, a, b);
    WithoutIs(ys, i);
  }

  lemma WithoutIs<T>(xs: seq<T>, i: nat)
    requires i < |xs|
    ensures Without(xs, i) == xs[..i] + xs[i + 1..]
  {
  }

  lemma {:induction false} PermutationMap<S, T>(f: S -> T, xs: seq<S>, ys: seq<S>)
    requires Permutation(xs, ys)
    ensures Permutation(Map(f, xs), Map(f, ys))
    decreases |xs|
  {
    hide Map, Without;
    SamePermutation(xs, ys);
    if xs == [] {
      assert ys == [];
    } else {
      var i := PermutationStep(xs, ys);
      PermutationMap(f, xs[1..], Without(ys, i));
      MapHead(f, xs);
      MapWithout(f, ys, i);
    }
  }

  lemma {:induction false} CountAtLeastTwo<T>(xs: seq<T>, i: nat, j: nat)
    requires i < j < |xs| && xs[i] == xs[j]
    ensures multiset(xs)[xs[i]] >= 2
  {
    assert xs == xs[..j] + xs[j..];
    assert xs[i] in xs[..j] && xs[i] in xs[j..];
    assert multiset(xs)[xs[i]] == multiset(xs[..j])[xs[i]] + multiset(xs[j..])[xs[i]];
  }

  lemma {:induction false} NoDuplicatesCount<T>(xs: seq<T>, x: T)
    requires NoDuplicates(xs)
    ensures multiset(xs)[x] <= 1
  {
    if xs == [] {
    } else {
      assert xs == [xs[0]] + xs[1..];
      NoDuplicatesCount(xs[1..], x);
      if x == xs[0] {
        assert x !in xs[1..];
      }
    }
  }

  lemma {:induction false} PermutationNoDuplicates<T>(xs: seq<T>, ys: seq<T>)
    requires Permutation(xs, ys) && NoDuplicates(xs)
    ensures NoDuplicates(ys)
  {
    forall i, j | 0 <= i < j < |ys| ensures ys[i] != ys[j] {
      if ys[i] == ys[j] {
        CountAtLeastTwo(ys, i, j);
        NoDuplicatesCount(xs, ys[i]);
      }
    }
  }

  lemma ImagesNoDuplicates<S, T>(f: S -> T, xs: seq<S>)
    requires NoDuplicates(xs)
    requires forall x, y :: x in xs && y in xs && f(x) == f(y) ==> x == y
    ensures NoDuplicates(Map(f, xs))
  {
    forall i, j | 0 <= i < j < |xs| ensures Map(f, xs)[i] != Map(f, xs)[j] {
      assert xs[i] in xs && xs[j] in xs;
    }
  }

  lemma AppendNoDuplicates<T>(xs: seq<T>, ys: seq<T>)
    requires NoDuplicates(xs) && NoDuplicates(ys)
    requires forall x :: x in xs ==> x !in ys
    ensures NoDuplicates(xs + ys)
  {
    forall i, j | 0 <= i < j < |xs + ys| ensures (xs + ys)[i] != (xs + ys)[j] {
      if i < |xs| <= j {
        assert xs[i] in xs && ys[j - |xs|] in ys;
      }
    }
  }

  lemma MapMembers<S, T>(f: S -> T, xs: seq<S>, x: S)
    requires x in xs
    ensures f(x) in Map(f, xs)
  {
    var i :| 0 <= i < |xs| && xs[i] == x;
    assert Map(f, xs)[i] == f(x);
  }

  /** Two duplicate-free lists with the same members are arrangements of each other. */
  lemma SameMembersPermutation<T>(xs: seq<T>, ys: seq<T>)
    requires NoDuplicates(xs) && NoDuplicates(ys)
    requires forall x :: x in xs <==> x in ys
    ensures Permutation(xs, ys)
  {
    forall x ensures multiset(xs)[x] == multiset(ys)[x] {
      NoDuplicatesCount(xs, x);
      NoDuplicatesCount(ys, x);
      assert x in multiset(xs) <==> x in xs;
      assert x in multiset(ys) <==> x in ys;
    }
  }

  /** Elements whose images are all different are themselves identified by their image. */
  lemma DistinctImages<S, T>(f: S -> T, xs: seq<S>)
    requires NoDuplicates(Map(f, xs))
    ensures NoDuplicates(xs)
    ensures forall x, y :: x in xs && y in xs && f(x) == f(y) ==> x == y
  {
    var images := Map(f, xs);
    forall i, j | 0 <= i < j < |xs| ensures xs[i] != xs[j] {
      assert images[i] != images[j];
    }
    forall x, y | x in xs && y in xs && f(x) == f(y) ensures x == y {
      var i :| 0 <= i < |xs| && xs[i] == x;
      var j :| 0 <= j < |xs| && xs[j] == y;
      assert images[i] == images[j];
    }
  }
}
