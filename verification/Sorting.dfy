/** The array sort of the runtime: a stable sort by a total preorder. */
module Sorting {

  ghost predicate TotalPreorder<T(!new)>(le: (T, T) -> bool) {
    (forall x, y :: le(x, y) || le(y, x))
    && (forall x, y, z {:trigger le(x, y), le(y, z), le(x, z)} :: le(x, y) && le(y, z) ==> le(x, z))
  }

  predicate Sorted<T>(xs: seq<T>, le: (T, T) -> bool) {
    forall i, j :: 0 <= i < j < |xs| ==> le(xs[i], xs[j])
  }

  function Insert<T>(x: T, xs: seq<T>, le: (T, T) -> bool): seq<T> {
    if xs == [] || le(x, xs[0]) then [x] + xs else [xs[0]] + Insert(x, xs[1..], le)
  }

  function Sort<T>(xs: seq<T>, le: (T, T) -> bool): seq<T> {
    if xs == [] then [] else Insert(xs[0], Sort(xs[1..], le), le)
  }

  lemma {:induction false} InsertSorts<T(!new)>(x: T, xs: seq<T>, le: (T, T) -> bool)
    requires TotalPreorder(le) && Sorted(xs, le)
    ensures Sorted(Insert(x, xs, le), le)
    ensures multiset(Insert(x, xs, le)) == multiset{x} + multiset(xs)
  {
    if xs == [] || le(x, xs[0]) {
    } else {
      InsertSorts(x, xs[1..], le);
      var rest := Insert(x, xs[1..], le);
      forall y | y in rest ensures le(xs[0], y) {
        assert y in multiset(rest);
        if y != x { assert y in xs[1..]; }
      }
      assert xs == [xs[0]] + xs[1..];
    }
  }

  lemma {:induction false} SortSorts<T(!new)>(xs: seq<T>, le: (T, T) -> bool)
    requires TotalPreorder(le)
    ensures Sorted(Sort(xs, le), le)
    ensures multiset(Sort(xs, le)) == multiset(xs)
    ensures |Sort(xs, le)| == |xs|
    ensures forall x :: x in Sort(xs, le) <==> x in xs
  {
    if xs == [] {
    } else {
      SortSorts(xs[1..], le);
      InsertSorts(xs[0], Sort(xs[1..], le), le);
      assert xs == [xs[0]] + xs[1..];
    }
    assert |multiset(Sort(xs, le))| == |multiset(xs)|;
    forall x ensures x in Sort(xs, le) <==> x in xs {
      assert x in multiset(Sort(xs, le)) <==> x in multiset(xs);
    }
  }

  predicate Ties<T>(x: T, y: T, le: (T, T) -> bool) {
    le(x, y) && le(y, x)
  }

  // The elements that compare equal to x, in their order.
  function Class<T>(xs: seq<T>, x: T, le: (T, T) -> bool): seq<T> {
    if xs == [] then []
    else if Ties(x, xs[0], le) then [xs[0]] + Class(xs[1..], x, le)
    else Class(xs[1..], x, le)
  }

  lemma TiesAreOrdered<T(!new)>(x: T, y: T, z: T, le: (T, T) -> bool)
    requires TotalPreorder(le) && Ties(x, y, le) && Ties(x, z, le)
    ensures le(y, z)
  {
  }

  lemma ClassOfCons<T>(y: T, xs: seq<T>, x: T, le: (T, T) -> bool)
    ensures Class([y] + xs, x, le) == if Ties(x, y, le) then [y] + Class(xs, x, le) else Class(xs, x, le)
  {
    assert ([y] + xs)[1..] == xs;
  }

  lemma {:induction false} InsertIsStable<T(!new)>(y: T, xs: seq<T>, x: T, le: (T, T) -> bool)
    requires TotalPreorder(le)
    ensures Class(Insert(y, xs, le), x, le) == if Ties(x, y, le) then [y] + Class(xs, x, le) else Class(xs, x, le)
  {
    if xs == [] || le(y, xs[0]) {
      ClassOfCons(y, xs, x, le);
    } else {
      InsertIsStable(y, xs[1..], x, le);
      ClassOfCons(xs[0], Insert(y, xs[1..], le), x, le);
      if Ties(x, y, le) && Ties(x, xs[0], le) { TiesAreOrdered(x, y, xs[0], le); }
    }
  }

  lemma {:induction false} SortIsStable<T(!new)>(xs: seq<T>, x: T, le: (T, T) -> bool)
    requires TotalPreorder(le)
    ensures Class(Sort(xs, le), x, le) == Class(xs, x, le)
  {
    if xs != [] {
      SortIsStable(xs[1..], x, le);
      InsertIsStable(xs[0], Sort(xs[1..], le), x, le);
    }
  }

  lemma {:induction false} ClassFinds<T>(xs: seq<T>, x: T, i: nat, j: nat, le: (T, T) -> bool) returns (a: nat, b: nat)
    requires i < j < |xs| && Ties(x, xs[i], le) && Ties(x, xs[j], le)
    ensures a < b < |Class(xs, x, le)| && Class(xs, x, le)[a] == xs[i] && Class(xs, x, le)[b] == xs[j]
  {
    if i == 0 {
      a := 0;
      b := ClassFindsOne(xs[1..], x, j - 1, le);
      b := b + 1;
    } else {
      a, b := ClassFinds(xs[1..], x, i - 1, j - 1, le);
      if Ties(x, xs[0], le) { a, b := a + 1, b + 1; }
    }
  }

  lemma {:induction false} ClassFindsOne<T>(xs: seq<T>, x: T, i: nat, le: (T, T) -> bool) returns (a: nat)
    requires i < |xs| && Ties(x, xs[i], le)
    ensures a < |Class(xs, x, le)| && Class(xs, x, le)[a] == xs[i]
  {
    if i == 0 {
      a := 0;
    } else {
      a := ClassFindsOne(xs[1..], x, i - 1, le);
      if Ties(x, xs[0], le) { a := a + 1; }
    }
  }

  lemma {:induction false} ClassComes<T>(xs: seq<T>, x: T, a: nat, b: nat, le: (T, T) -> bool) returns (i: nat, j: nat)
    requires a < b < |Class(xs, x, le)|
    ensures i < j < |xs| && xs[i] == Class(xs, x, le)[a] && xs[j] == Class(xs, x, le)[b]
  {
    if Ties(x, xs[0], le) {
      if a == 0 {
        i := 0;
        j := ClassComesOne(xs[1..], x, b - 1, le);
        j := j + 1;
      } else {
        i, j := ClassComes(xs[1..], x, a - 1, b - 1, le);
        i, j := i + 1, j + 1;
      }
    } else {
      i, j := ClassComes(xs[1..], x, a, b, le);
      i, j := i + 1, j + 1;
    }
  }

  lemma {:induction false} ClassComesOne<T>(xs: seq<T>, x: T, a: nat, le: (T, T) -> bool) returns (i: nat)
    requires a < |Class(xs, x, le)|
    ensures i < |xs| && xs[i] == Class(xs, x, le)[a]
  {
    if Ties(x, xs[0], le) && a == 0 {
      i := 0;
    } else {
      i := ClassComesOne(xs[1..], x, if Ties(x, xs[0], le) then a - 1 else a, le);
      i := i + 1;
    }
  }

  // Elements that compare equal keep their order.
  lemma SortKeepsOrder<T(!new)>(xs: seq<T>, i: nat, j: nat, le: (T, T) -> bool) returns (k: nat, l: nat)
    requires TotalPreorder(le) && i < j < |Sort(xs, le)| && Ties(Sort(xs, le)[i], Sort(xs, le)[j], le)
    ensures k < l < |xs| && xs[k] == Sort(xs, le)[i] && xs[l] == Sort(xs, le)[j]
  {
    var x := Sort(xs, le)[i];
    var a, b := ClassFinds(Sort(xs, le), x, i, j, le);
    SortIsStable(xs, x, le);
    k, l := ClassComes(xs, x, a, b, le);
  }

  // [...new Set(xs)]: each element once, where it first occurs.
  function Dedupe<T(==)>(xs: seq<T>): seq<T> {
    if xs == [] then []
    else
      var rest := Dedupe(xs[..|xs| - 1]);
      if xs[|xs| - 1] in rest then rest else rest + [xs[|xs| - 1]]
  }

  lemma {:induction false} DedupeKeepsOneOfEach<T>(xs: seq<T>)
    ensures forall x :: x in Dedupe(xs) <==> x in xs
    ensures forall x :: multiset(Dedupe(xs))[x] == if x in xs then 1 else 0
  {
    if xs != [] {
      var init, last := xs[..|xs| - 1], xs[|xs| - 1];
      DedupeKeepsOneOfEach(init);
      assert xs == init + [last];
      assert multiset(Dedupe(init) + [last]) == multiset(Dedupe(init)) + multiset{last};
    }
  }

  ghost predicate Antisymmetric<T(!new)>(le: (T, T) -> bool) {
    (forall x :: le(x, x)) && forall x, y :: le(x, y) && le(y, x) ==> x == y
  }

  lemma SameLeast<T(!new)>(xs: seq<T>, ys: seq<T>, le: (T, T) -> bool)
    requires Antisymmetric(le) && xs != []
    requires Sorted(xs, le) && Sorted(ys, le) && multiset(xs) == multiset(ys)
    ensures ys != [] && xs[0] == ys[0]
  {
    assert xs[0] in multiset(ys);
    var i :| 0 <= i < |ys| && ys[i] == xs[0];
    assert ys[0] in multiset(xs);
    var j :| 0 <= j < |xs| && xs[j] == ys[0];
    assert le(xs[0], xs[j]) && le(ys[0], ys[i]);
  }

  lemma MultisetTail<T>(xs: seq<T>)
    requires xs != []
    ensures multiset(xs[1..]) == multiset(xs) - multiset{xs[0]}
  {
    assert xs == [xs[0]] + xs[1..];
  }

  // An order that ties nothing leaves one sorted arrangement.
  lemma {:induction false} SortedUniquely<T(!new)>(xs: seq<T>, ys: seq<T>, le: (T, T) -> bool)
    requires Antisymmetric(le)
    requires Sorted(xs, le) && Sorted(ys, le) && multiset(xs) == multiset(ys)
    ensures xs == ys
  {
    if xs == [] {
      assert |multiset(ys)| == |multiset(xs)|;
    } else {
      SameLeast(xs, ys, le);
      MultisetTail(xs);
      MultisetTail(ys);
      SortedUniquely(xs[1..], ys[1..], le);
      assert xs == [xs[0]] + xs[1..] && ys == [ys[0]] + ys[1..];
    }
  }

  function Mapped<T, U>(xs: seq<T>, f: T -> U): seq<U> {
    if xs == [] then [] else [f(xs[0])] + Mapped(xs[1..], f)
  }

  lemma {:induction false} InsertKeepsMapped<T, U>(x: T, xs: seq<T>, le: (T, T) -> bool, f: T -> U)
    ensures multiset(Mapped(Insert(x, xs, le), f)) == multiset{f(x)} + multiset(Mapped(xs, f))
  {
    if xs == [] || le(x, xs[0]) {
      assert Insert(x, xs, le)[1..] == xs;
    } else {
      InsertKeepsMapped(x, xs[1..], le, f);
      assert Insert(x, xs, le)[1..] == Insert(x, xs[1..], le);
    }
  }

  // Sorting keeps the bag of whatever is read off the elements.
  lemma {:induction false} SortKeepsMapped<T, U>(xs: seq<T>, le: (T, T) -> bool, f: T -> U)
    ensures multiset(Mapped(Sort(xs, le), f)) == multiset(Mapped(xs, f))
  {
    if xs != [] {
      SortKeepsMapped(xs[1..], le, f);
      InsertKeepsMapped(xs[0], Sort(xs[1..], le), le, f);
    }
  }
}
