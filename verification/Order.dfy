/** The byte order Go's strings.Compare and sort.Strings use, and the sorted
    listings the stores and the policy evaluation return. A string is a
    sequence of characters compared by code, one character per byte. */
module Order {

  /** a comes strictly before b. */
  predicate Before(a: string, b: string)
    decreases |a|
  {
    if |b| == 0 then false
    else if |a| == 0 then true
    else a[0] < b[0] || (a[0] == b[0] && Before(a[1..], b[1..]))
  }

  /** A proper prefix comes before, and at the first difference the smaller
      character. */
  lemma {:induction false} BeforeMeans(a: string, b: string)
    ensures Before(a, b) <==>
      || (|a| < |b| && b[..|a|] == a)
      || exists i :: 0 <= i < |a| && i < |b| && a[..i] == b[..i] && a[i] < b[i]
    decreases |a|
  {
    if |a| > 0 && |b| > 0 && a[0] == b[0] {
      BeforeMeans(a[1..], b[1..]);
      assert a == [a[0]] + a[1..] && b == [a[0]] + b[1..];
      if |a| < |b| && b[1..][..|a| - 1] == a[1..] { assert b[..|a|] == a; }
      if i :| 0 <= i < |a| - 1 && i < |b| - 1 && a[1..][..i] == b[1..][..i] && a[1..][i] < b[1..][i] {
        assert a[..i + 1] == [a[0]] + a[1..][..i] && b[..i + 1] == [a[0]] + b[1..][..i];
        assert a[..i + 1] == b[..i + 1] && a[i + 1] < b[i + 1];
      }
      if i :| 0 <= i < |a| && i < |b| && a[..i] == b[..i] && a[i] < b[i] {
        assert i > 0;
        assert a[1..][..i - 1] == a[..i][1..] && b[1..][..i - 1] == b[..i][1..];
        assert a[1..][i - 1] < b[1..][i - 1];
      }
    } else if |a| > 0 && |b| > 0 && a[0] < b[0] {
      assert a[..0] == b[..0];
    }
  }

  lemma {:induction false} BeforeIrreflexive(a: string)
    ensures !Before(a, a)
  {
    if |a| > 0 { BeforeIrreflexive(a[1..]); }
  }

  lemma {:induction false} BeforeTransitive(a: string, b: string, c: string)
    requires Before(a, b) && Before(b, c)
    ensures Before(a, c)
    decreases |a|
  {
    if |a| > 0 && a[0] == b[0] && b[0] == c[0] { BeforeTransitive(a[1..], b[1..], c[1..]); }
  }

  lemma {:induction false} BeforeTotal(a: string, b: string)
    ensures Before(a, b) || a == b || Before(b, a)
    decreases |a|
  {
    if |a| > 0 && |b| > 0 && a[0] == b[0] {
      BeforeTotal(a[1..], b[1..]);
      if a[1..] == b[1..] { assert a == [a[0]] + a[1..] == b; }
    }
  }

  /** In order, repeats allowed. */
  ghost predicate Sorted(xs: seq<string>) {
    forall i, j :: 0 <= i < j < |xs| ==> !Before(xs[j], xs[i])
  }

  /** In order, no repeats. */
  ghost predicate StrictlySorted(xs: seq<string>) {
    forall i, j :: 0 <= i < j < |xs| ==> Before(xs[i], xs[j])
  }

  /** x in its place in a sorted listing. */
  function Insert(x: string, xs: seq<string>): (r: seq<string>)
    ensures multiset(r) == multiset(xs) + multiset{x}
  {
    if xs == [] then [x]
    else if Before(xs[0], x) then
      assert xs == [xs[0]] + xs[1..];
      [xs[0]] + Insert(x, xs[1..])
    else [x] + xs
  }

  /** What sort.Strings leaves in place of xs. */
  function Sort(xs: seq<string>): (r: seq<string>)
    ensures multiset(r) == multiset(xs)
  {
    if xs == [] then []
    else
      assert xs == [xs[0]] + xs[1..];
      Insert(xs[0], Sort(xs[1..]))
  }

  lemma InMultiset(xs: seq<string>, x: string)
    ensures x in xs <==> x in multiset(xs)
  {}

  lemma {:induction false} InsertSorted(x: string, xs: seq<string>)
    requires Sorted(xs)
    ensures Sorted(Insert(x, xs))
  {
    var r := Insert(x, xs);
    if xs != [] {
      if Before(xs[0], x) {
        InsertSorted(x, xs[1..]);
        var tail := Insert(x, xs[1..]);
        forall j | 1 <= j < |r| ensures !Before(r[j], r[0]) {
          assert r[j] in tail;
          InMultiset(tail, r[j]);
          if r[j] == x {
            if Before(x, xs[0]) { BeforeTransitive(x, xs[0], x); BeforeIrreflexive(x); }
          } else {
            InMultiset(xs[1..], r[j]);
            assert r[j] in xs[1..];
          }
        }
      } else {
        BeforeIrreflexive(xs[0]);
        forall j | 1 <= j < |r| ensures !Before(r[j], x) {
          if Before(r[j], x) {
            BeforeTotal(xs[0], x);
            if xs[0] != x { BeforeTransitive(r[j], x, xs[0]); }
          }
        }
      }
    }
  }

  lemma {:induction false} SortSorts(xs: seq<string>)
    ensures Sorted(Sort(xs))
  {
    if xs != [] {
      SortSorts(xs[1..]);
      InsertSorted(xs[0], Sort(xs[1..]));
    }
  }

  /** A sorted listing is fixed by how often it holds each string. */
  lemma {:induction false} SortedUnique(xs: seq<string>, ys: seq<string>)
    requires Sorted(xs) && Sorted(ys) && multiset(xs) == multiset(ys)
    ensures xs == ys
  {
    if xs == [] {
      assert |multiset(ys)| == 0;
    } else {
      assert xs[0] in multiset(ys);
      InMultiset(ys, xs[0]);
      assert ys[0] in multiset(xs);
      InMultiset(xs, ys[0]);
      BeforeTotal(xs[0], ys[0]);
      RestOf(xs);
      RestOf(ys);
      SortedUnique(xs[1..], ys[1..]);
    }
  }

  lemma RestOf(xs: seq<string>)
    requires xs != []
    ensures multiset(xs[1..]) == multiset(xs) - multiset{xs[0]}
  {
    assert xs == [xs[0]] + xs[1..];
  }

  lemma StrictIsDistinctSorted(xs: seq<string>)
    requires StrictlySorted(xs)
    ensures Sorted(xs)
    ensures forall i, j :: 0 <= i < j < |xs| ==> xs[i] != xs[j]
  {
    forall i, j | 0 <= i < j < |xs| ensures !Before(xs[j], xs[i]) && xs[i] != xs[j] {
      BeforeIrreflexive(xs[i]);
      if Before(xs[j], xs[i]) { BeforeTransitive(xs[i], xs[j], xs[i]); }
    }
  }

  lemma SortedDistinctIsStrict(xs: seq<string>)
    requires Sorted(xs)
    requires forall i, j :: 0 <= i < j < |xs| ==> xs[i] != xs[j]
    ensures StrictlySorted(xs)
  {
    forall i, j | 0 <= i < j < |xs| ensures Before(xs[i], xs[j]) { BeforeTotal(xs[i], xs[j]); }
  }

  /** Two strictly sorted listings of the same set are the same listing. */
  lemma StrictUnique(xs: seq<string>, ys: seq<string>)
    requires StrictlySorted(xs) && StrictlySorted(ys)
    requires forall x :: x in xs <==> x in ys
    ensures xs == ys
  {
    StrictIsDistinctSorted(xs);
    StrictIsDistinctSorted(ys);
    DistinctCounts(xs);
    DistinctCounts(ys);
    forall x ensures multiset(xs)[x] == multiset(ys)[x] {
      assert x in xs <==> x in ys;
    }
    assert multiset(xs) == multiset(ys);
    SortedUnique(xs, ys);
  }

  lemma {:induction false} DistinctCounts(xs: seq<string>)
    requires forall i, j :: 0 <= i < j < |xs| ==> xs[i] != xs[j]
    ensures forall x :: multiset(xs)[x] == if x in xs then 1 else 0
  {
    if xs != [] {
      var tail := xs[1..];
      DistinctCounts(tail);
      assert xs == [xs[0]] + tail;
    }
  }

  /** Sorting a duplicate-free listing gives a strictly sorted one. */
  lemma SortOfDistinct(xs: seq<string>)
    requires forall i, j :: 0 <= i < j < |xs| ==> xs[i] != xs[j]
    ensures StrictlySorted(Sort(xs))
    ensures forall x :: x in Sort(xs) <==> x in xs
  {
    var r := Sort(xs);
    SortSorts(xs);
    DistinctCounts(xs);
    forall x ensures x in r <==> x in xs { InMultiset(r, x); InMultiset(xs, x); }
    CountsDistinct(r);
    SortedDistinctIsStrict(r);
  }

  lemma {:induction false} CountsDistinct(xs: seq<string>)
    requires forall x :: multiset(xs)[x] <= 1
    ensures forall i, j :: 0 <= i < j < |xs| ==> xs[i] != xs[j]
  {
    if xs != [] {
      var tail := xs[1..];
      assert xs == [xs[0]] + tail;
      forall x ensures multiset(tail)[x] <= 1 { assert multiset(tail)[x] <= multiset(xs)[x]; }
      CountsDistinct(tail);
      forall j | 1 <= j < |xs| ensures xs[0] != xs[j] {
        assert xs[j] in tail && multiset(xs)[xs[j]] <= 1;
        assert multiset(xs)[xs[0]] == 1 + multiset(tail)[xs[0]];
      }
    }
  }
}
