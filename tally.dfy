/** Per-date reductions shared by the record builders and the daily totals:
    dates, the sorted duplicate-free union of a list of dates, and sums of
    quantities on one date. */
module Tally {

  /** A calendar date. Only equality and the order of dates are used, so a
      date is represented by an integer day number. */
  type Date = int

  /** One quantity (an amount in ml, a length in minutes, or 1 for a count)
      recorded on a date. */
  datatype Entry = Entry(date: Date, qty: nat)

  /** Strictly increasing: ascending and without duplicates. */
  predicate Increasing(xs: seq<Date>)
  {
    forall i, j :: 0 <= i < j < |xs| ==> xs[i] < xs[j]
  }

  /** `x` put into its place in an increasing list (nothing changes when it
      is already there). */
  function Insert(x: Date, xs: seq<Date>): (r: seq<Date>)
    requires Increasing(xs)
    ensures Increasing(r)
    ensures forall y :: y in r <==> y == x || y in xs
    ensures |r| <= |xs| + 1
  {
    if xs == [] then [x]
    else if x < xs[0] then [x] + xs
    else if x == xs[0] then xs
    else
      var tail := Insert(x, xs[1..]);
      assert forall y :: y in tail ==> xs[0] < y by {
        forall y | y in tail ensures xs[0] < y {
          if y != x {
            var k :| 0 <= k < |xs[1..]| && xs[1..][k] == y;
            assert xs[k + 1] == y;
          }
        }
      }
      IncreasingCons(xs[0], tail);
      [xs[0]] + tail
  }

  /** A date below every date of an increasing list can head it. */
  lemma IncreasingCons(h: Date, tail: seq<Date>)
    requires Increasing(tail) && forall y :: y in tail ==> h < y
    ensures Increasing([h] + tail)
  {
    var r := [h] + tail;
    forall i, j | 0 <= i < j < |r| ensures r[i] < r[j] {
      assert r[j] == tail[j - 1] && tail[j - 1] in tail;
      if i > 0 { assert r[i] == tail[i - 1]; }
    }
  }

  /** `sorted(set(ds))`: every date of `ds` once, in ascending order. */
  function SortedUnion(ds: seq<Date>): (r: seq<Date>)
    ensures Increasing(r)
    ensures forall d :: d in r <==> d in ds
    ensures |r| <= |ds|
  {
    if ds == [] then [] else Insert(ds[|ds| - 1], SortedUnion(ds[..|ds| - 1]))
  }

  /** The list of dates in increasing order is unique: any increasing list
      holding exactly the dates of `ds` is `SortedUnion(ds)`. */
  lemma {:induction false} SortedUnionUnique(ds: seq<Date>, xs: seq<Date>)
    requires Increasing(xs) && forall d :: d in xs <==> d in ds
    ensures xs == SortedUnion(ds)
  {
    IncreasingUnique(xs, SortedUnion(ds));
  }

  /** Two increasing lists with the same elements are equal. */
  lemma {:induction false} IncreasingUnique(xs: seq<Date>, ys: seq<Date>)
    requires Increasing(xs) && Increasing(ys)
    requires forall d :: d in xs <==> d in ys
    ensures xs == ys
    decreases |xs|
  {
    if xs != [] { assert xs[0] in xs; }
    if ys != [] { assert ys[0] in ys; }
    if xs != [] {
      assert xs[0] == ys[0] by {
        assert xs[0] in ys && ys[0] in xs;
      }
      forall d ensures d in xs[1..] <==> d in ys[1..] {
        if d in xs[1..] { assert xs[0] < d && d in ys; assert d != ys[0]; }
        if d in ys[1..] { assert ys[0] < d && d in xs; assert d != xs[0]; }
      }
      IncreasingUnique(xs[1..], ys[1..]);
      assert xs == [xs[0]] + xs[1..] && ys == [ys[0]] + ys[1..];
    }
  }

  /** Sum of the quantities recorded on date `d`. */
  function SumOn(es: seq<Entry>, d: Date): nat
  {
    if es == [] then 0
    else SumOn(es[..|es| - 1], d) + (if es[|es| - 1].date == d then es[|es| - 1].qty else 0)
  }

  /** Sum of all quantities. */
  function SumAll(es: seq<Entry>): nat
  {
    if es == [] then 0 else SumAll(es[..|es| - 1]) + es[|es| - 1].qty
  }

  /** The date column of a list of rows, row by row: `[r['date'] for r in rows]`. */
  function Dates<R>(date: R -> Date, rows: seq<R>): (ds: seq<Date>)
    ensures |ds| == |rows| && forall i :: 0 <= i < |rows| ==> ds[i] == date(rows[i])
  {
    seq(|rows|, i requires 0 <= i < |rows| => date(rows[i]))
  }

  function EntryDate(e: Entry): Date { e.date }

  /** One entry of quantity 1 per date: counting is summing these. */
  function Ones(ds: seq<Date>): (es: seq<Entry>)
    ensures |es| == |ds| && forall i :: 0 <= i < |ds| ==> es[i] == Entry(ds[i], 1)
  {
    if ds == [] then [] else Ones(ds[..|ds| - 1]) + [Entry(ds[|ds| - 1], 1)]
  }

  /** `sum(1 for r in records if r['date'] == d)`. */
  function CountOn(ds: seq<Date>, d: Date): nat
  {
    SumOn(Ones(ds), d)
  }

  /** The sum of the per-date sums over a list of dates. */
  function SumOver(es: seq<Entry>, xs: seq<Date>): nat
  {
    if xs == [] then 0 else SumOn(es, xs[0]) + SumOver(es, xs[1..])
  }

  /** A date that never occurs has sum 0. */
  lemma {:induction false} SumOnAbsent(es: seq<Entry>, d: Date)
    requires d !in Dates(EntryDate, es)
    ensures SumOn(es, d) == 0
  {
    if es != [] {
      var init := es[..|es| - 1];
      assert Dates(EntryDate, es) == Dates(EntryDate, init) + [es[|es| - 1].date];
      SumOnAbsent(init, d);
    }
  }

  /** Counting the occurrences of a date: zero exactly when it does not occur. */
  lemma {:induction false} CountOnZero(ds: seq<Date>, d: Date)
    ensures CountOn(ds, d) == 0 <==> d !in ds
    decreases |ds|
  {
    if ds != [] {
      var init := ds[..|ds| - 1];
      assert Ones(ds)[..|ds| - 1] == Ones(init);
      CountOnZero(init, d);
      assert ds == init + [ds[|ds| - 1]];
    }
  }

  /** Counting all entries of `Ones` gives the length. */
  lemma {:induction false} SumAllOnes(ds: seq<Date>)
    ensures SumAll(Ones(ds)) == |ds|
  {
    if ds != [] {
      assert Ones(ds)[..|ds| - 1] == Ones(ds[..|ds| - 1]);
      SumAllOnes(ds[..|ds| - 1]);
    }
  }

  /** The dates of `Ones(ds)` are `ds`. */
  lemma OnesDates(ds: seq<Date>)
    ensures Dates(EntryDate, Ones(ds)) == ds
  {
  }

  /** Adding one entry adds its quantity to the sum of the one date of an
      increasing list that it falls on, and to no other. */
  lemma {:induction false} SumOverSnoc(es: seq<Entry>, e: Entry, xs: seq<Date>)
    requires Increasing(xs)
    ensures SumOver(es + [e], xs) == SumOver(es, xs) + (if e.date in xs then e.qty else 0)
    decreases |xs|
  {
    if xs != [] {
      assert (es + [e])[..|es + [e]| - 1] == es;
      assert SumOn(es + [e], xs[0]) == SumOn(es, xs[0]) + (if e.date == xs[0] then e.qty else 0);
      SumOverSnoc(es, e, xs[1..]);
      if e.date == xs[0] {
        assert e.date !in xs[1..];
      } else {
        assert e.date in xs <==> e.date in xs[1..];
      }
    }
  }

  /** Conservation: the per-date sums over an increasing list that holds
      every date of the entries add up to the sum of all entries. Nothing is
      lost and nothing is counted twice. */
  lemma {:induction false} SumOverAll(es: seq<Entry>, xs: seq<Date>)
    requires Increasing(xs)
    requires forall i :: 0 <= i < |es| ==> es[i].date in xs
    ensures SumOver(es, xs) == SumAll(es)
    decreases |es|
  {
    if es == [] {
      SumOverEmpty(xs);
    } else {
      var init, e := es[..|es| - 1], es[|es| - 1];
      assert es == init + [e];
      SumOverAll(init, xs);
      SumOverSnoc(init, e, xs);
    }
  }

  lemma {:induction false} SumOverEmpty(xs: seq<Date>)
    ensures SumOver([], xs) == 0
    decreases |xs|
  {
    if xs != [] { SumOverEmpty(xs[1..]); }
  }

  /** The count form of conservation: the counts of each date of an
      increasing list holding them all add up to the number of dates. */
  lemma CountOverAll(ds: seq<Date>, xs: seq<Date>)
    requires Increasing(xs) && forall i :: 0 <= i < |ds| ==> ds[i] in xs
    ensures SumOver(Ones(ds), xs) == |ds|
  {
    SumOverAll(Ones(ds), xs);
    SumAllOnes(ds);
  }

  // ------------------------------------------------------ row order

  /** The sum of `g` over the elements. */
  function Total<T>(g: T -> nat, xs: seq<T>): nat
  {
    if xs == [] then 0 else Total(g, xs[..|xs| - 1]) + g(xs[|xs| - 1])
  }

  /** The sum over two runs is the sum of their sums. */
  lemma {:induction false} TotalConcat<T>(g: T -> nat, xs: seq<T>, ys: seq<T>)
    ensures Total(g, xs + ys) == Total(g, xs) + Total(g, ys)
    decreases |ys|
  {
    if ys == [] {
      assert xs + ys == xs;
    } else {
      var init := ys[..|ys| - 1];
      assert (xs + ys)[..|xs + ys| - 1] == xs + init;
      assert (xs + ys)[|xs + ys| - 1] == ys[|ys| - 1];
      TotalConcat(g, xs, init);
    }
  }

  /** Two lists holding the same elements as often: the last element of
      one sits somewhere in the other, and the rests hold the same elements. */
  lemma PermSplit<T>(xs: seq<T>, ys: seq<T>) returns (j: nat)
    requires xs != [] && multiset(xs) == multiset(ys)
    ensures j < |ys| && ys[j] == xs[|xs| - 1]
    ensures ys == ys[..j] + [ys[j]] + ys[j + 1..]
    ensures multiset(xs[..|xs| - 1]) == multiset(ys[..j] + ys[j + 1..])
  {
    var x := xs[|xs| - 1];
    assert xs == xs[..|xs| - 1] + [x];
    assert x in multiset(ys);
    j :| 0 <= j < |ys| && ys[j] == x;
    assert ys == ys[..j] + [ys[j]] + ys[j + 1..];
    assert multiset(ys) == multiset(ys[..j]) + multiset{x} + multiset(ys[j + 1..]);
    assert multiset(xs) == multiset(xs[..|xs| - 1]) + multiset{x};
    assert multiset(ys[..j] + ys[j + 1..]) == multiset(ys[..j]) + multiset(ys[j + 1..]);
    assert multiset(xs[..|xs| - 1]) == multiset(xs) - multiset{x};
    assert multiset(ys[..j] + ys[j + 1..]) == multiset(ys) - multiset{x};
  }

  /** A sum does not depend on the order of the elements. */
  lemma {:induction false} TotalPerm<T>(g: T -> nat, xs: seq<T>, ys: seq<T>)
    requires multiset(xs) == multiset(ys)
    ensures Total(g, xs) == Total(g, ys)
    decreases |xs|
  {
    if xs == [] {
      assert |ys| == |multiset(ys)| == 0;
    } else {
      var j := PermSplit(xs, ys);
      var before, after := ys[..j], ys[j + 1..];
      TotalPerm(g, xs[..|xs| - 1], before + after);
      TotalConcat(g, before + [ys[j]], after);
      TotalConcat(g, before, [ys[j]]);
      TotalConcat(g, before, after);
      assert [ys[j]][..0] == [];
    }
  }

  /** The quantity an entry adds to date d. */
  function QtyOn(d: Date): Entry -> nat
  {
    (e: Entry) => if e.date == d then e.qty else 0
  }

  /** The sum on a date adds up what each entry adds to it. */
  lemma {:induction false} SumOnTotal(es: seq<Entry>, d: Date)
    ensures SumOn(es, d) == Total(QtyOn(d), es)
  {
    if es != [] {
      SumOnTotal(es[..|es| - 1], d);
    }
  }

  /** The sum on a date does not depend on the order of the entries. */
  lemma SumOnPerm(es1: seq<Entry>, es2: seq<Entry>, d: Date)
    requires multiset(es1) == multiset(es2)
    ensures SumOn(es1, d) == SumOn(es2, d)
  {
    SumOnTotal(es1, d);
    SumOnTotal(es2, d);
    TotalPerm(QtyOn(d), es1, es2);
  }
}
