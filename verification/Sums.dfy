/** Totals over rows: the aggregate queries of the services. */
module Sums {

  function Max(a: int, b: int): (m: int)
    ensures a <= m && b <= m && (m == a || m == b)
  {
    if a < b then b else a
  }

  /** `aggregate(Sum(...))` over a list of rows; the empty list totals zero. */
  function Sum<T>(xs: seq<T>, f: T -> int): int {
    if |xs| == 0 then 0 else f(xs[0]) + Sum(xs[1..], f)
  }

  /** `filter(...)` over a list of rows, in the same order. */
  function Filter<T(!new)>(xs: seq<T>, keep: T -> bool): seq<T> {
    if |xs| == 0 then [] else (if keep(xs[0]) then [xs[0]] else []) + Filter(xs[1..], keep)
  }

  lemma FilterMembers<T(!new)>(xs: seq<T>, keep: T -> bool)
    ensures forall y :: y in Filter(xs, keep) <==> y in xs && keep(y)
    ensures |Filter(xs, keep)| <= |xs|
  {
  }

  function Not<T>(keep: T -> bool): T -> bool {
    x => !keep(x)
  }

  lemma SumAppend<T>(xs: seq<T>, x: T, f: T -> int)
    ensures Sum(xs + [x], f) == Sum(xs, f) + f(x)
  {
    if |xs| != 0 {
      assert (xs + [x])[1..] == xs[1..] + [x];
      SumAppend(xs[1..], x, f);
    }
  }

  lemma SumUpdate<T>(xs: seq<T>, i: nat, x: T, f: T -> int)
    requires i < |xs|
    ensures Sum(xs[i := x], f) == Sum(xs, f) - f(xs[i]) + f(x)
  {
    if i == 0 {
      assert xs[0 := x][1..] == xs[1..];
    } else {
      assert xs[i := x][1..] == xs[1..][i - 1 := x];
      SumUpdate(xs[1..], i - 1, x, f);
    }
  }

  lemma SumConcat<T>(xs: seq<T>, ys: seq<T>, f: T -> int)
    ensures Sum(xs + ys, f) == Sum(xs, f) + Sum(ys, f)
  {
    if |xs| == 0 {
      assert xs + ys == ys;
    } else {
      assert (xs + ys)[1..] == xs[1..] + ys;
      SumConcat(xs[1..], ys, f);
    }
  }

  lemma {:induction false} SumRemove<T>(xs: seq<T>, k: nat, f: T -> int)
    requires k < |xs|
    ensures Sum(xs[..k] + xs[k + 1..], f) == Sum(xs, f) - f(xs[k])
  {
    if k == 0 {
      assert xs[..0] + xs[1..] == xs[1..];
    } else {
      var rest := xs[1..];
      assert xs[..k] + xs[k + 1..] == [xs[0]] + (rest[..k - 1] + rest[k..]);
      SumCons(xs[0], rest[..k - 1] + rest[k..], f);
      SumRemove(xs[1..], k - 1, f);
    }
  }

  lemma SumCons<T>(x: T, xs: seq<T>, f: T -> int)
    ensures Sum([x] + xs, f) == f(x) + Sum(xs, f)
    ensures [] + xs == xs
  {
    assert ([x] + xs)[1..] == xs;
  }

  /** Deleting the rows that match `out` takes exactly their total away. */
  lemma SumSplit<T(!new)>(xs: seq<T>, out: T -> bool, f: T -> int)
    ensures Sum(xs, f) == Sum(Filter(xs, out), f) + Sum(Filter(xs, Not(out)), f)
  {
    if |xs| != 0 {
      SumSplit(xs[1..], out, f);
      SumCons(xs[0], Filter(xs[1..], out), f);
      SumCons(xs[0], Filter(xs[1..], Not(out)), f);
      assert Filter(xs, Not(out)) == (if out(xs[0]) then [] else [xs[0]]) + Filter(xs[1..], Not(out));
    }
  }

  lemma SumSame<T, U>(xs: seq<T>, ys: seq<U>, f: T -> int, g: U -> int)
    requires |xs| == |ys|
    requires forall i :: 0 <= i < |xs| ==> f(xs[i]) == g(ys[i])
    ensures Sum(xs, f) == Sum(ys, g)
  {
    if |xs| != 0 {
      assert f(xs[0]) == g(ys[0]);
      SumSame(xs[1..], ys[1..], f, g);
    }
  }

  lemma SumAgree<T>(xs: seq<T>, f: T -> int, g: T -> int)
    requires forall x :: x in xs ==> f(x) == g(x)
    ensures Sum(xs, f) == Sum(xs, g)
  {
  }

  lemma SumZero<T>(xs: seq<T>, f: T -> int)
    requires forall x :: x in xs ==> f(x) == 0
    ensures Sum(xs, f) == 0
  {
  }

  lemma SumNonNegative<T>(xs: seq<T>, f: T -> int)
    requires forall x :: x in xs ==> f(x) >= 0
    ensures Sum(xs, f) >= 0
  {
  }

  lemma SumCombine<T>(xs: seq<T>, f: T -> int, g: T -> int, h: T -> int)
    requires forall x :: x in xs ==> h(x) == f(x) + g(x)
    ensures Sum(xs, h) == Sum(xs, f) + Sum(xs, g)
  {
  }

  lemma FilterAppend<T(!new)>(xs: seq<T>, x: T, keep: T -> bool)
    ensures Filter(xs + [x], keep) == Filter(xs, keep) + (if keep(x) then [x] else [])
  {
    if |xs| != 0 {
      assert (xs + [x])[1..] == xs[1..] + [x];
      FilterAppend(xs[1..], x, keep);
    }
  }

  lemma FilterNone<T(!new)>(xs: seq<T>, keep: T -> bool)
    requires forall x :: x in xs ==> !keep(x)
    ensures Filter(xs, keep) == []
  {
  }

  lemma FilterAll<T(!new)>(xs: seq<T>, keep: T -> bool)
    requires forall x :: x in xs ==> keep(x)
    ensures Filter(xs, keep) == xs
  {
  }
}
