/** Helpers shared by the record builders: the tokens of a table cell, and
    the values kept from a run of tokens. */
module Cells {
  import opened Wrappers
  import opened Text
  import Tally

  /** `str(cell).split()` for a present cell, nothing for a missing one. */
  function Tokens(cell: Option<string>): seq<string>
  {
    if cell.None? then [] else Split(cell.value)
  }

  /** The values `f` keeps of the elements, in order: `f` gives None for
      an element it drops. */
  function Keep<A, B>(f: A -> Option<B>, xs: seq<A>): seq<B>
  {
    if xs == [] then []
    else
      var init := Keep(f, xs[..|xs| - 1]);
      match f(xs[|xs| - 1])
        case None => init
        case Some(e) => init + [e]
  }

  /** A single element: its value, if `f` keeps it. */
  lemma KeepOne<A, B>(f: A -> Option<B>, x: A)
    ensures Keep(f, [x]) == (if f(x).Some? then [f(x).value] else [])
  {
    assert [x][..0] == [];
  }

  /** One more element: its value, if `f` keeps it, comes last. */
  lemma KeepStep<A, B>(f: A -> Option<B>, xs: seq<A>, i: nat)
    requires i < |xs|
    ensures Keep(f, xs[..i + 1]) == Keep(f, xs[..i]) + (if f(xs[i]).Some? then [f(xs[i]).value] else [])
  {
    assert xs[..i + 1][..i] == xs[..i];
  }

  /** The values kept from two runs, one after the other. */
  lemma {:induction false} KeepConcat<A, B>(f: A -> Option<B>, xs1: seq<A>, xs2: seq<A>)
    ensures Keep(f, xs1 + xs2) == Keep(f, xs1) + Keep(f, xs2)
    decreases |xs2|
  {
    if xs2 == [] {
      assert xs1 + xs2 == xs1;
    } else {
      var init := xs2[..|xs2| - 1];
      assert (xs1 + xs2)[..|xs1 + xs2| - 1] == xs1 + init;
      assert (xs1 + xs2)[|xs1 + xs2| - 1] == xs2[|xs2| - 1];
      KeepConcat(f, xs1, init);
    }
  }

  /** A value is kept exactly when `f` gives it for some element. */
  lemma {:induction false} KeepFrom<A, B>(f: A -> Option<B>, xs: seq<A>, e: B)
    ensures e in Keep(f, xs) <==> exists i :: 0 <= i < |xs| && f(xs[i]) == Some(e)
    decreases |xs|
  {
    if xs != [] {
      var init := xs[..|xs| - 1];
      KeepFrom(f, init, e);
      if e in Keep(f, init) {
        var i :| 0 <= i < |init| && f(init[i]) == Some(e);
        assert xs[i] == init[i];
      }
      if exists i :: 0 <= i < |xs| && f(xs[i]) == Some(e) {
        var i :| 0 <= i < |xs| && f(xs[i]) == Some(e);
        if i < |init| {
          assert init[i] == xs[i];
        }
      }
    }
  }

  /** What `f` gives for the first element it gives anything for. */
  function First<T, F>(f: T -> Option<F>, xs: seq<T>): Option<F>
  {
    if xs == [] then None
    else
      var r := First(f, xs[..|xs| - 1]);
      if r.Some? then r else f(xs[|xs| - 1])
  }

  /** One more element: it decides only when none before it does. */
  lemma FirstStep<T, F>(f: T -> Option<F>, xs: seq<T>, i: nat)
    requires i < |xs|
    ensures First(f, xs[..i + 1]) == if First(f, xs[..i]).Some? then First(f, xs[..i]) else f(xs[i])
  {
    assert xs[..i + 1][..i] == xs[..i];
  }

  /** An element among the first n that `f` gives something for decides
      for the whole. */
  lemma {:induction false} FirstPrefix<T, F>(f: T -> Option<F>, xs: seq<T>, n: nat)
    requires n <= |xs| && First(f, xs[..n]).Some?
    ensures First(f, xs) == First(f, xs[..n])
    decreases |xs| - n
  {
    if n < |xs| {
      assert xs[..n + 1][..n] == xs[..n];
      FirstPrefix(f, xs, n + 1);
    } else {
      assert xs[..n] == xs;
    }
  }

  /** `First` gives something exactly when `f` does for some element, and
      then what `f` gives for one of them. */
  lemma {:induction false} FirstSome<T, F>(f: T -> Option<F>, xs: seq<T>)
    ensures First(f, xs).Some? <==> exists k :: 0 <= k < |xs| && f(xs[k]).Some?
    ensures First(f, xs).Some? ==> exists k :: 0 <= k < |xs| && First(f, xs) == f(xs[k])
    decreases |xs|
  {
    if xs != [] {
      var init := xs[..|xs| - 1];
      FirstSome(f, init);
      if First(f, init).Some? {
        var k :| 0 <= k < |init| && First(f, init) == f(init[k]);
        assert xs[k] == init[k];
      }
      if exists k :: 0 <= k < |xs| && f(xs[k]).Some? {
        var k :| 0 <= k < |xs| && f(xs[k]).Some?;
        if k < |init| {
          assert init[k] == xs[k];
        }
      }
    }
  }

  /** The lists `f` gives for each row, one after the other, in row order. */
  function Concat<R, T>(f: R -> seq<T>, rows: seq<R>): seq<T>
  {
    if rows == [] then [] else Concat(f, rows[..|rows| - 1]) + f(rows[|rows| - 1])
  }

  /** One more row: its list comes last. */
  lemma ConcatStep<R, T>(f: R -> seq<T>, rows: seq<R>, i: nat)
    requires i < |rows|
    ensures Concat(f, rows[..i + 1]) == Concat(f, rows[..i]) + f(rows[i])
  {
    assert rows[..i + 1][..i] == rows[..i];
  }

  /** Two runs of rows give the lists of the first run followed by those of
      the second. */
  lemma {:induction false} ConcatAppend<R, T>(f: R -> seq<T>, rows1: seq<R>, rows2: seq<R>)
    ensures Concat(f, rows1 + rows2) == Concat(f, rows1) + Concat(f, rows2)
    decreases |rows2|
  {
    if rows2 == [] {
      assert rows1 + rows2 == rows1;
    } else {
      var init := rows2[..|rows2| - 1];
      assert (rows1 + rows2)[..|rows1 + rows2| - 1] == rows1 + init;
      assert (rows1 + rows2)[|rows1 + rows2| - 1] == rows2[|rows2| - 1];
      ConcatAppend(f, rows1, init);
    }
  }

  /** A value is in the joined lists exactly when it is in the list of some row. */
  lemma {:induction false} ConcatFrom<R, T>(f: R -> seq<T>, rows: seq<R>, e: T)
    ensures e in Concat(f, rows) <==> exists k :: 0 <= k < |rows| && e in f(rows[k])
    decreases |rows|
  {
    if rows != [] {
      var init := rows[..|rows| - 1];
      ConcatFrom(f, init, e);
      if e in Concat(f, init) {
        var k :| 0 <= k < |init| && e in f(init[k]);
        assert rows[k] == init[k];
      }
      if exists k :: 0 <= k < |rows| && e in f(rows[k]) {
        var k :| 0 <= k < |rows| && e in f(rows[k]);
        if k < |init| {
          assert init[k] == rows[k];
        }
      }
    }
  }

  /** The joined lists of the rows in another order hold the same elements
      as often: row order changes only the order of the values. */
  lemma {:induction false} ConcatPerm<R, T>(f: R -> seq<T>, rows1: seq<R>, rows2: seq<R>)
    requires multiset(rows1) == multiset(rows2)
    ensures multiset(Concat(f, rows1)) == multiset(Concat(f, rows2))
    decreases |rows1|
  {
    if rows1 == [] {
      assert |rows2| == |multiset(rows2)| == 0;
    } else {
      var j := Tally.PermSplit(rows1, rows2);
      var before, after := rows2[..j], rows2[j + 1..];
      ConcatPerm(f, rows1[..|rows1| - 1], before + after);
      ConcatAppend(f, before + [rows2[j]], after);
      ConcatAppend(f, before, [rows2[j]]);
      ConcatAppend(f, before, after);
      assert [rows2[j]][..0] == [];
    }
  }
}
