/** Comparison and sorting as Python's `sorted` uses them: strings compare by code point,
    and a list is put in order by a total preorder on its elements. */
module Orders {

  /** Python's `<=` on `str`: the first differing code point decides, a prefix comes first. */
  predicate StrLeq(a: string, b: string) {
    |a| == 0 || (|b| != 0 && (a[0] < b[0] || (a[0] == b[0] && StrLeq(a[1..], b[1..]))))
  }

  lemma {:induction false} StrTotal(a: string, b: string)
    ensures StrLeq(a, b) || StrLeq(b, a)
  {
    if |a| != 0 && |b| != 0 && a[0] == b[0] {
      StrTotal(a[1..], b[1..]);
    }
  }

  lemma {:induction false} StrAntisymmetric(a: string, b: string)
    requires StrLeq(a, b) && StrLeq(b, a)
    ensures a == b
  {
    if |a| != 0 {
      StrAntisymmetric(a[1..], b[1..]);
      assert a == [a[0]] + a[1..] == [b[0]] + b[1..] == b;
    }
  }

  lemma {:induction false} StrTransitive(a: string, b: string, c: string)
    requires StrLeq(a, b) && StrLeq(b, c)
    ensures StrLeq(a, c)
  {
    if |a| != 0 && a[0] == b[0] && b[0] == c[0] {
      StrTransitive(a[1..], b[1..], c[1..]);
    }
  }

  /** A proper prefix sorts strictly before the longer string. */
  lemma {:induction false} PrefixSortsFirst(a: string, b: string)
    requires a < b
    ensures StrLeq(a, b) && !StrLeq(b, a)
  {
    if |a| != 0 {
      PrefixSortsFirst(a[1..], b[1..]);
    }
  }

  /** Two texts agree up to some point, and there the first ends, or has the smaller character. */
  ghost predicate ReadsBefore(a: string, b: string) {
    exists k :: 0 <= k <= |a| && k <= |b| && a[..k] == b[..k] && (k == |a| || (k < |b| && a[k] < b[k]))
  }

  lemma {:induction false} StrLeqMeans(a: string, b: string)
    ensures StrLeq(a, b) <==> ReadsBefore(a, b)
  {
    if |a| == 0 {
      assert a[..0] == b[..0];
    } else if |b| != 0 && a[0] == b[0] {
      StrLeqMeans(a[1..], b[1..]);
      if ReadsBefore(a[1..], b[1..]) {
        var k :| 0 <= k <= |a[1..]| && k <= |b[1..]| && a[1..][..k] == b[1..][..k]
          && (k == |a[1..]| || (k < |b[1..]| && a[1..][k] < b[1..][k]));
        assert a[..k + 1] == [a[0]] + a[1..][..k] == b[..k + 1];
      }
      if k :| 0 <= k <= |a| && k <= |b| && a[..k] == b[..k] && (k == |a| || (k < |b| && a[k] < b[k])) {
        assert k > 0;
        assert a[1..][..k - 1] == a[..k][1..] == b[..k][1..] == b[1..][..k - 1];
      }
    } else {
      assert a[..0] == b[..0];
      forall k | 0 < k <= |a| && k <= |b| ensures a[..k] != b[..k] {
        assert a[..k][0] != b[..k][0];
      }
    }
  }

  function StrOrder(): (string, string) -> bool {
    (a: string, b: string) => StrLeq(a, b)
  }

  lemma StrOrderIsTotal()
    ensures TotalPreorder(StrOrder())
    ensures forall a, b :: StrOrder()(a, b) && StrOrder()(b, a) ==> a == b
  {
    forall a: string, b: string ensures StrOrder()(a, b) || StrOrder()(b, a) {
      StrTotal(a, b);
    }
    forall a: string, b: string, c: string | StrOrder()(a, b) && StrOrder()(b, c)
      ensures StrOrder()(a, c)
    {
      StrTransitive(a, b, c);
    }
    forall a: string, b: string | StrOrder()(a, b) && StrOrder()(b, a) ensures a == b {
      StrAntisymmetric(a, b);
    }
  }

  // ---------------------------------------------------------------- sorting

  ghost predicate TotalPreorder<T(!new)>(leq: (T, T) -> bool) {
    && (forall x, y :: leq(x, y) || leq(y, x))
    && (forall x, y, z :: leq(x, y) && leq(y, z) ==> leq(x, z))
  }

  /** Distinct members of `xs` are never tied. */
  ghost predicate NoTies<T(!new)>(xs: seq<T>, leq: (T, T) -> bool) {
    forall x, y :: x in xs && y in xs && leq(x, y) && leq(y, x) ==> x == y
  }

  ghost predicate Sorted<T(!new)>(xs: seq<T>, leq: (T, T) -> bool) {
    forall i, j :: 0 <= i < j < |xs| ==> leq(xs[i], xs[j])
  }

  function Insert<T(!new)>(x: T, xs: seq<T>, leq: (T, T) -> bool): seq<T> {
    if xs == [] || leq(x, xs[0]) then [x] + xs else [xs[0]] + Insert(x, xs[1..], leq)
  }

  /** Stable insertion sort: the value of Python's `sorted(xs, key=...)`. */
  function SortBy<T(!new)>(xs: seq<T>, leq: (T, T) -> bool): seq<T> {
    if xs == [] then [] else Insert(xs[0], SortBy(xs[1..], leq), leq)
  }

  lemma {:induction false} InsertMembers<T(!new)>(x: T, xs: seq<T>, leq: (T, T) -> bool)
    ensures multiset(Insert(x, xs, leq)) == multiset{x} + multiset(xs)
  {
    if xs != [] && !leq(x, xs[0]) {
      assert xs == [xs[0]] + xs[1..];
      InsertMembers(x, xs[1..], leq);
    }
  }

  lemma {:induction false} InsertFacts<T(!new)>(x: T, xs: seq<T>, leq: (T, T) -> bool)
    requires TotalPreorder(leq) && Sorted(xs, leq)
    ensures Sorted(Insert(x, xs, leq), leq)
    ensures multiset(Insert(x, xs, leq)) == multiset{x} + multiset(xs)
  {
    InsertMembers(x, xs, leq);
    if xs != [] && !leq(x, xs[0]) {
      var rest := Insert(x, xs[1..], leq);
      InsertFacts(x, xs[1..], leq);
      forall i | 0 <= i < |rest| ensures leq(xs[0], rest[i]) {
        assert rest[i] in multiset(rest);
        assert rest[i] == x || rest[i] in xs[1..];
      }
    }
  }

  lemma {:induction false} SortFacts<T(!new)>(xs: seq<T>, leq: (T, T) -> bool)
    requires TotalPreorder(leq)
    ensures Sorted(SortBy(xs, leq), leq)
    ensures multiset(SortBy(xs, leq)) == multiset(xs)
    ensures |SortBy(xs, leq)| == |xs|
    ensures forall x :: x in SortBy(xs, leq) <==> x in xs
  {
    if xs != [] {
      SortFacts(xs[1..], leq);
      InsertFacts(xs[0], SortBy(xs[1..], leq), leq);
      assert xs == [xs[0]] + xs[1..];
    }
    SamePermutation(SortBy(xs, leq), xs);
  }

  /** Two arrangements of the same elements have the same length and members. */
  lemma SamePermutation<T>(xs: seq<T>, ys: seq<T>)
    requires multiset(xs) == multiset(ys)
    ensures |xs| == |ys|
    ensures forall x :: x in xs <==> x in ys
  {
    assert |multiset(xs)| == |xs| && |multiset(ys)| == |ys|;
    forall x ensures x in xs <==> x in ys {
      assert x in xs <==> x in multiset(xs);
      assert x in ys <==> x in multiset(ys);
    }
  }

  lemma HeadIsLeast<T(!new)>(xs: seq<T>, x: T, leq: (T, T) -> bool)
    requires TotalPreorder(leq) && Sorted(xs, leq) && x in xs
    ensures leq(xs[0], x)
  {
    var i :| 0 <= i < |xs| && xs[i] == x;
    var head := xs[0];
    assert leq(head, head);
  }

  lemma SameHead<T(!new)>(xs: seq<T>, ys: seq<T>, leq: (T, T) -> bool)
    requires TotalPreorder(leq) && Sorted(xs, leq) && Sorted(ys, leq) && NoTies(xs, leq)
    requires xs != [] && ys != [] && forall x :: x in xs <==> x in ys
    ensures xs[0] == ys[0]
  {
    hide Sorted, TotalPreorder;
    assert xs[0] in ys && ys[0] in xs;
    HeadIsLeast(xs, ys[0], leq);
    HeadIsLeast(ys, xs[0], leq);
  }

  lemma TailFacts<T(!new)>(xs: seq<T>, leq: (T, T) -> bool)
    requires xs != []
    ensures multiset(xs[1..]) == multiset(xs) - multiset{xs[0]}
    ensures Sorted(xs, leq) ==> Sorted(xs[1..], leq)
    ensures NoTies(xs, leq) ==> NoTies(xs[1..], leq)
  {
    assert xs == [xs[0]] + xs[1..];
  }

  lemma SameHeadAndTail<T>(xs: seq<T>, ys: seq<T>)
    requires xs != [] && ys != [] && xs[0] == ys[0] && xs[1..] == ys[1..]
    ensures xs == ys
  {
    assert xs == [xs[0]] + xs[1..] && ys == [ys[0]] + ys[1..];
  }

  lemma {:induction false} SortedIsUnique<T(!new)>(xs: seq<T>, ys: seq<T>, leq: (T, T) -> bool)
    requires TotalPreorder(leq) && Sorted(xs, leq) && Sorted(ys, leq)
    requires multiset(xs) == multiset(ys) && NoTies(xs, leq)
    ensures xs == ys
  {
    hide Sorted, TotalPreorder, NoTies;
    SamePermutation(xs, ys);
    if xs == [] {
    } else {
      SameHead(xs, ys, leq);
      TailFacts(xs, leq);
      TailFacts(ys, leq);
      SortedIsUnique(xs[1..], ys[1..], leq);
      SameHeadAndTail(xs, ys);
    }
  }

  /** Sorting forgets the arrangement of its input. */
  lemma SortIgnoresOrder<T(!new)>(xs: seq<T>, ys: seq<T>, leq: (T, T) -> bool)
    requires TotalPreorder(leq) && multiset(xs) == multiset(ys) && NoTies(xs, leq)
    ensures SortBy(xs, leq) == SortBy(ys, leq)
  {
    SortFacts(xs, leq);
    SortFacts(ys, leq);
    SortedIsUnique(SortBy(xs, leq), SortBy(ys, leq), leq);
  }

  // ---------------------------------------------------------------- sorted enumeration of a set

  lemma {:induction false} LeastExists(s: set<string>)
    requires s != {}
    ensures exists m :: m in s && forall x :: x in s ==> StrLeq(m, x)
  {
    var a :| a in s;
    if s == {a} {
      StrTotal(a, a);
    } else {
      LeastExists(s - {a});
      var m :| m in s - {a} && forall x :: x in s - {a} ==> StrLeq(m, x);
      StrTotal(a, m);
      StrTotal(a, a);
      var least := if StrLeq(a, m) then a else m;
      forall x | x in s ensures StrLeq(least, x) {
        if x != a && least == a {
          StrTransitive(a, m, x);
        }
      }
    }
  }

  /** Python's `sorted(s)` on a set of strings. */
  function SortedSet(s: set<string>): seq<string> {
    if s == {} then []
    else
      LeastExists(s);
      StrOrderIsTotal();
      assert forall a, b :: StrLeq(a, b) == StrOrder()(a, b);
      var m :| m in s && forall x :: x in s ==> StrLeq(m, x);
      [m] + SortedSet(s - {m})
  }

  ghost predicate StrictlyIncreasing(xs: seq<string>) {
    forall i, j :: 0 <= i < j < |xs| ==> StrLeq(xs[i], xs[j]) && xs[i] != xs[j]
  }

  /** A list is strictly increasing exactly when its tail is and its head comes before all of it. */
  lemma IncreasingHead(x: string, rest: seq<string>)
    ensures StrictlyIncreasing([x] + rest) <==>
      StrictlyIncreasing(rest) && forall y :: y in rest ==> StrLeq(x, y) && x != y
  {
    hide StrLeq;
    var all := [x] + rest;
    if StrictlyIncreasing(all) {
      forall i, j | 0 <= i < j < |rest| ensures StrLeq(rest[i], rest[j]) && rest[i] != rest[j] {
        assert rest[i] == all[i + 1] && rest[j] == all[j + 1];
      }
      forall y | y in rest ensures StrLeq(x, y) && x != y {
        var j :| 0 <= j < |rest| && rest[j] == y;
        assert all[0] == x && all[j + 1] == y;
      }
    }
    if StrictlyIncreasing(rest) && forall y :: y in rest ==> StrLeq(x, y) && x != y {
      forall i, j | 0 <= i < j < |all| ensures StrLeq(all[i], all[j]) && all[i] != all[j] {
        assert all[j] == rest[j - 1] && rest[j - 1] in rest;
        if i > 0 {
          assert all[i] == rest[i - 1];
        }
      }
    }
  }

  lemma {:induction false} SortedSetFacts(s: set<string>)
    ensures forall x :: x in SortedSet(s) <==> x in s
    ensures StrictlyIncreasing(SortedSet(s))
    ensures |SortedSet(s)| == |s|
  {
    if s != {} {
      LeastExists(s);
      var m := SortedSet(s)[0];
      assert SortedSet(s) == [m] + SortedSet(s - {m});
      SortedSetFacts(s - {m});
    }
  }
}
