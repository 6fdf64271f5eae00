/** Running mean and variance without storing the data (common/stat_live.py, `RunningStat`). */
module RunningStats {
  import opened Sums

  /** The values of the object's fields. */
  datatype Stat = Stat(m: real, s: real, mLast: real, sLast: real, n: nat)

  const RESET := Stat(0.0, 0.0, 0.0, 0.0, 0)

  function Counted(n: nat, maxTrackable: int): nat {
    if maxTrackable < 0 || n < maxTrackable then n + 1 else n
  }

  function Push(t: Stat, x: real, maxTrackable: int): Stat {
    var n := Counted(t.n, maxTrackable);
    if n == 0 then Stat(x, t.s, x, 0.0, 0)
    else
      var m := t.mLast + (x - t.mLast) / n as real;
      var s := t.sLast + (x - t.mLast) * (x - m);
      Stat(m, s, m, s, n)
  }

  function After(xs: seq<real>, maxTrackable: int): Stat {
    if xs == [] then RESET else Push(After(xs[..|xs| - 1], maxTrackable), xs[|xs| - 1], maxTrackable)
  }

  class RunningStat {
    const maxTrackable: int
    var M: real
    var S: real
    var MLast: real
    var SLast: real
    var n: nat

    ghost function View(): Stat
      reads this
    {
      Stat(M, S, MLast, SLast, n)
    }

    constructor (maxTrackable: int)
      ensures View() == RESET && this.maxTrackable == maxTrackable
    {
      this.maxTrackable := maxTrackable;
      M, S, MLast, SLast, n := 0.0, 0.0, 0.0, 0.0, 0;
    }

    method PushData(x: real)
      modifies this
      ensures View() == Push(old(View()), x, maxTrackable)
    {
      if maxTrackable < 0 || n < maxTrackable {
        n := n + 1;
      }
      if n == 0 {
        MLast := x;
        M := MLast;
        SLast := 0.0;
      } else {
        M := MLast + (x - MLast) / n as real;
        S := SLast + (x - MLast) * (x - M);
        MLast := M;
        SLast := S;
      }
    }

    /** Pushing a whole sequence gives what `After` says of it. */
    method PushAll(xs: seq<real>)
      requires View() == RESET
      modifies this
      ensures View() == After(xs, maxTrackable)
    {
      for k := 0 to |xs|
        invariant View() == After(xs[..k], maxTrackable)
      {
        assert xs[..k + 1][..k] == xs[..k];
        PushData(xs[k]);
      }
      assert xs[..|xs|] == xs;
    }

    method Variance() returns (v: real)
      ensures v == if n >= 2 then S / (n as real - 1.0) else 0.0
    {
      if n >= 2 {
        v := S / (n as real - 1.0);
      } else {
        v := 0.0;
      }
    }
  }

  // ---------- what the numbers are ----------

  /** One step of the recurrence, with n counted from one. */
  lemma StepAlgebra(n: real, x: real, mLast: real, m: real)
    requires n >= 1.0 && m == mLast + (x - mLast) / n
    ensures n * m == (n - 1.0) * mLast + x
    ensures (x - mLast) * (x - m) == x * x - n * (m * m) + (n - 1.0) * (mLast * mLast)
  {
    assert (x - mLast) / n * n == x - mLast;
    assert n * m == (n - 1.0) * mLast + x;
    StepIdentity(n, mLast, m, x);
  }

  lemma StepIdentity(n: real, p: real, m: real, x: real)
    requires x == n * m - (n - 1.0) * p
    ensures (x - p) * (x - m) == x * x - n * (m * m) + (n - 1.0) * (p * p)
  {
    assert x * m == n * (m * m) - (n - 1.0) * (p * m);
    assert x * p == n * (m * p) - (n - 1.0) * (p * p);
  }

  lemma WelfordStep(n: real, x: real, p: real, ps: real, m: real, s: real, sum: real, squares: real)
    requires n >= 1.0 && m == p + (x - p) / n && s == ps + (x - p) * (x - m)
    requires p * (n - 1.0) == sum && ps == squares - (n - 1.0) * (p * p)
    ensures m * n == sum + x && s == squares + x * x - n * (m * m)
  {
    StepAlgebra(n, x, p, m);
  }

  predicate Welford(t: Stat, count: nat, sum: real, squares: real) {
    t.n == count && t.mLast == t.m && t.sLast == t.s
    && t.m * count as real == sum && t.s == squares - count as real * (t.m * t.m)
  }

  lemma PushKeepsWelford(t: Stat, x: real, maxTrackable: int, count: nat, sum: real, squares: real)
    requires (maxTrackable < 0 || count < maxTrackable) && Welford(t, count, sum, squares)
    ensures Welford(Push(t, x, maxTrackable), count + 1, sum + x, squares + x * x)
  {
    var u := Push(t, x, maxTrackable);
    var n := (count + 1) as real;
    assert n - 1.0 == count as real;
    WelfordStep(n, x, t.m, t.s, u.m, u.s, sum, squares);
  }

  /** Up to the cap: the count, the sum, and the sum of squares less n times the squared mean. */
  lemma {:induction false} WelfordInvariant(xs: seq<real>, maxTrackable: int)
    requires maxTrackable < 0 || |xs| <= maxTrackable
    ensures Welford(After(xs, maxTrackable), |xs|, Sum(xs), SumOfSquares(xs))
  {
    hide Push, Welford, Sum, SumOfSquares;
    if xs == [] {
      ResetIsWelford();
      NothingSpreads(0.0);
    } else {
      var rest, x := xs[..|xs| - 1], xs[|xs| - 1];
      WelfordInvariant(rest, maxTrackable);
      PushKeepsWelford(After(rest, maxTrackable), x, maxTrackable, |rest|, Sum(rest), SumOfSquares(rest));
      SpreadUnfolds(xs, 0.0);
      assert SumOfSquares(xs) == SumOfSquares(rest) + x * x;
    }
  }

  lemma ResetIsWelford()
    ensures Welford(RESET, 0, 0.0, 0.0)
  {
  }

  /** Welford: after any pushes with no cap, or no more than the cap, M is the mean and S the sum of squared
      deviations. */
  lemma MeanAndSpread(xs: seq<real>, maxTrackable: int)
    requires xs != [] && (maxTrackable < 0 || |xs| <= maxTrackable)
    ensures var t := After(xs, maxTrackable);
            t.n == |xs| && t.m == Mean(xs) && t.s == Spread(xs, Mean(xs))
  {
    hide Spread, SumOfSquares, Sum, After;
    var t := After(xs, maxTrackable);
    var n := |xs| as real;
    WelfordInvariant(xs, maxTrackable);
    Quotient(t.m, n, Sum(xs));
    SpreadExpands(xs, t.m);
    MeanTerm(t.m, n, Sum(xs));
  }

  lemma Quotient(m: real, n: real, sum: real)
    requires n > 0.0 && m * n == sum
    ensures sum / n == m
  {
  }

  lemma MeanTerm(m: real, n: real, sum: real)
    requires m * n == sum
    ensures 2.0 * m * sum == 2.0 * (n * (m * m))
  {
    assert m * sum == m * (m * n);
  }

  // ---------- with a cap ----------

  predicate Within(xs: seq<real>, lo: real, hi: real) {
    forall k :: 0 <= k < |xs| ==> lo <= xs[k] <= hi
  }

  lemma Between(p: real, x: real, n: real, lo: real, hi: real)
    requires n >= 1.0 && lo <= p <= hi && lo <= x <= hi
    ensures lo <= p + (x - p) / n <= hi
  {
    var d := (x - p) / n;
    assert d * n == x - p;
    if x >= p {
      assert 0.0 <= d;
      Shrinks(d, n, x - p);
    } else {
      assert d <= 0.0;
      Shrinks(-d, n, p - x);
    }
  }

  lemma Shrinks(d: real, n: real, whole: real)
    requires d >= 0.0 && n >= 1.0 && d * n == whole
    ensures d <= whole
  {
    assert d * n - d == d * (n - 1.0);
    assert d * (n - 1.0) >= 0.0;
  }

  lemma Grows(p: real, x: real, n: real)
    requires n >= 1.0
    ensures (x - p) * (x - (p + (x - p) / n)) >= 0.0
  {
    var d := (x - p) / n;
    assert x - p == n * d;
    assert x - (p + d) == (n - 1.0) * d;
    NonNegative(n, d);
  }

  lemma NonNegative(n: real, d: real)
    requires n >= 1.0
    ensures n * d * ((n - 1.0) * d) >= 0.0
  {
    assert d * d >= 0.0;
    assert n * (n - 1.0) >= 0.0;
    assert n * d * ((n - 1.0) * d) == n * (n - 1.0) * (d * d);
  }

  lemma PushStaysInRange(t: Stat, x: real, maxTrackable: int, lo: real, hi: real)
    requires maxTrackable != 0 && lo <= x <= hi && t.mLast == t.m && t.sLast == t.s && t.s >= 0.0
    requires t.n == 0 || lo <= t.m <= hi
    requires maxTrackable > 0 ==> t.n <= maxTrackable
    ensures var u := Push(t, x, maxTrackable);
            lo <= u.m <= hi && u.mLast == u.m && u.sLast == u.s && u.s >= 0.0 && u.n == Counted(t.n, maxTrackable)
  {
    var n := Counted(t.n, maxTrackable);
    Grows(t.m, x, n as real);
    if t.n == 0 {
      assert n == 1;
      assert (x - t.m) / 1.0 == x - t.m;
    } else {
      Between(t.m, x, n as real, lo, hi);
    }
  }

  function CountAfter(k: nat, maxTrackable: int): nat {
    if maxTrackable < 0 || k <= maxTrackable then k else maxTrackable
  }

  /** With any cap but zero, M never leaves the range of the data seen, and S is never negative. */
  lemma {:induction false} CappedMeanStaysInRange(xs: seq<real>, maxTrackable: int, lo: real, hi: real)
    requires maxTrackable != 0 && Within(xs, lo, hi)
    ensures var t := After(xs, maxTrackable);
            (xs != [] ==> lo <= t.m <= hi) && t.mLast == t.m && t.sLast == t.s && t.s >= 0.0
            && t.n == CountAfter(|xs|, maxTrackable)
  {
    hide Push;
    if xs != [] {
      var rest, x := xs[..|xs| - 1], xs[|xs| - 1];
      assert forall k :: 0 <= k < |rest| ==> rest[k] == xs[k];
      CappedMeanStaysInRange(rest, maxTrackable, lo, hi);
      PushStaysInRange(After(rest, maxTrackable), x, maxTrackable, lo, hi);
    }
  }

  /** Beyond the cap the old mean keeps the weight of all samples but one: each push counts for one in
      `maxTrackable`, and S grows by the product of the two deviations. */
  lemma CappedPushForgets(xs: seq<real>, x: real, maxTrackable: int)
    requires 0 < maxTrackable <= |xs|
    ensures var t, u := After(xs, maxTrackable), After(xs + [x], maxTrackable);
            && u.m * maxTrackable as real == t.m * (maxTrackable as real - 1.0) + x
            && u.s == t.s + (x - t.m) * (x - u.m) && u.n == maxTrackable
  {
    hide After;
    var lo, hi := RangeOf(xs);
    CappedMeanStaysInRange(xs, maxTrackable, lo, hi);
    AfterOneMore(xs, x, maxTrackable);
    FullPush(After(xs, maxTrackable), x, maxTrackable);
  }

  lemma AfterOneMore(xs: seq<real>, x: real, maxTrackable: int)
    ensures After(xs + [x], maxTrackable) == Push(After(xs, maxTrackable), x, maxTrackable)
  {
    hide Push;
    assert (xs + [x])[..|xs|] == xs;
  }

  lemma FullPush(t: Stat, x: real, maxTrackable: int)
    requires 0 < maxTrackable == t.n && t.mLast == t.m && t.sLast == t.s
    ensures var u := Push(t, x, maxTrackable);
            && u.m * maxTrackable as real == t.m * (maxTrackable as real - 1.0) + x
            && u.s == t.s + (x - t.m) * (x - u.m) && u.n == maxTrackable
  {
    var k := maxTrackable as real;
    assert (x - t.m) / k * k == x - t.m;
  }

  lemma {:induction false} RangeOf(xs: seq<real>) returns (lo: real, hi: real)
    ensures Within(xs, lo, hi)
  {
    lo, hi := 0.0, 0.0;
    if xs != [] {
      var x := xs[|xs| - 1];
      lo, hi := RangeOf(xs[..|xs| - 1]);
      assert forall k :: 0 <= k < |xs| - 1 ==> xs[k] == xs[..|xs| - 1][k];
      lo, hi := if x < lo then x else lo, if x > hi then x else hi;
    }
  }

  /** A cap of zero keeps nothing: M is the last value pushed and S stays zero. */
  lemma {:induction false} ZeroCapKeepsTheLast(xs: seq<real>)
    ensures var t := After(xs, 0);
            t.n == 0 && t.s == 0.0 && t.m == if xs == [] then 0.0 else xs[|xs| - 1]
  {
    if xs != [] {
      ZeroCapKeepsTheLast(xs[..|xs| - 1]);
    }
  }
}
