/** What several components share: optional values, sums of samples, and turning a ring by one
    slot, and quotients. */
module Options {
  datatype Option<T> = None | Some(value: T)
}

module Sums {
  import opened Options

  function Sum(xs: seq<real>): real {
    if xs == [] then 0.0 else Sum(xs[..|xs| - 1]) + xs[|xs| - 1]
  }

  function SumOfSquares(xs: seq<real>): real {
    if xs == [] then 0.0 else SumOfSquares(xs[..|xs| - 1]) + xs[|xs| - 1] * xs[|xs| - 1]
  }

  /** The sum of the squared distances from c. */
  function Spread(xs: seq<real>, c: real): real {
    if xs == [] then 0.0 else Spread(xs[..|xs| - 1], c) + (xs[|xs| - 1] - c) * (xs[|xs| - 1] - c)
  }

  function Mean(xs: seq<real>): real
    requires xs != []
  {
    Sum(xs) / |xs| as real
  }

  lemma SpreadStep(c: real, x: real, from: (real, real, real, real), to: (real, real, real, real))
    requires from.0 == from.1 - 2.0 * c * from.2 + from.3 * (c * c)
    requires to.0 == from.0 + (x - c) * (x - c) && to.1 == from.1 + x * x
    requires to.2 == from.2 + x && to.3 == from.3 + 1.0
    ensures to.0 == to.1 - 2.0 * c * to.2 + to.3 * (c * c)
  {
    assert c * to.2 == c * from.2 + c * x;
    assert to.3 * (c * c) == from.3 * (c * c) + c * c;
    assert (x - c) * (x - c) == x * x - 2.0 * (c * x) + c * c;
  }

  lemma {:induction false} SpreadExpands(xs: seq<real>, c: real)
    ensures Spread(xs, c) == SumOfSquares(xs) - 2.0 * c * Sum(xs) + |xs| as real * (c * c)
  {
    hide Spread, SumOfSquares, Sum;
    if xs == [] {
      NothingSpreads(c);
    } else {
      var rest, x := xs[..|xs| - 1], xs[|xs| - 1];
      SpreadExpands(rest, c);
      SpreadUnfolds(xs, c);
      assert |xs| as real == |rest| as real + 1.0;
      SpreadStep(c, x, (Spread(rest, c), SumOfSquares(rest), Sum(rest), |rest| as real),
                 (Spread(xs, c), SumOfSquares(xs), Sum(xs), |xs| as real));
    }
  }

  lemma NothingSpreads(c: real)
    ensures Spread([], c) == 0.0 && SumOfSquares([]) == 0.0 && Sum([]) == 0.0
  {
  }

  lemma SpreadUnfolds(xs: seq<real>, c: real)
    requires xs != []
    ensures var rest, x := xs[..|xs| - 1], xs[|xs| - 1];
            Spread(xs, c) == Spread(rest, c) + (x - c) * (x - c)
            && SumOfSquares(xs) == SumOfSquares(rest) + x * x && Sum(xs) == Sum(rest) + x
  {
  }

  lemma {:induction false} SumConcat(xs: seq<real>, ys: seq<real>)
    ensures Sum(xs + ys) == Sum(xs) + Sum(ys) && SumOfSquares(xs + ys) == SumOfSquares(xs) + SumOfSquares(ys)
  {
    hide Sum, SumOfSquares;
    NothingSpreads(0.0);
    if ys == [] {
      assert xs + ys == xs;
    } else {
      SumConcat(xs, ys[..|ys| - 1]);
      assert (xs + ys)[..|xs + ys| - 1] == xs + ys[..|ys| - 1];
      SpreadUnfolds(ys, 0.0);
      SpreadUnfolds(xs + ys, 0.0);
    }
  }

  /** The mean, and the mean squared distance from it, of samples if there are any. */
  function Stats(xs: seq<real>): Option<(real, real)> {
    if xs == [] then None else Some((Mean(xs), Spread(xs, Mean(xs)) / |xs| as real))
  }

  lemma SpreadIs(xs: seq<real>, c: real, sum: real, squares: real, n: nat)
    requires sum == Sum(xs) && squares == SumOfSquares(xs) && n == |xs|
    ensures Spread(xs, c) == squares - 2.0 * c * sum + n as real * (c * c)
  {
    SpreadExpands(xs, c);
  }

  /** The order of the samples does not matter. */
  lemma SameStats(xs: seq<real>, ys: seq<real>)
    requires |xs| == |ys| && Sum(xs) == Sum(ys) && SumOfSquares(xs) == SumOfSquares(ys)
    ensures Stats(xs) == Stats(ys)
  {
    hide Sum, SumOfSquares, Spread;
    if xs != [] {
      var c, sum, squares, n := Mean(xs), Sum(xs), SumOfSquares(xs), |xs|;
      assert Mean(ys) == c;
      hide Mean;
      SpreadIs(xs, c, sum, squares, n);
      SpreadIs(ys, c, sum, squares, n);
    }
  }

  function MaxOf(xs: seq<real>): real
    requires xs != []
  {
    if |xs| == 1 then xs[0]
    else
      var m := MaxOf(xs[..|xs| - 1]);
      if xs[|xs| - 1] > m then xs[|xs| - 1] else m
  }
}

module Rings {
  /** Writing slot i and moving on, in the middle of the ring and at its end: seen from the current slot
      on, the oldest value goes and the new one comes last. */
  lemma TurnsOn<T>(values: seq<T>, i: nat, m: T)
    requires i + 1 < |values|
    ensures values[i := m][i + 2..] + values[i := m][..i + 1] == (values[i + 1..] + values[..i])[1..] + [m]
  {
    assert values[i := m][..i + 1] == values[..i] + [m];
    assert values[i := m][i + 2..] == values[i + 1..][1..];
  }

  lemma TurnsOver<T>(values: seq<T>, m: T)
    requires |values| > 1
    ensures var i := |values| - 1;
            values[i := m][1..] + values[i := m][..0] == (values[i + 1..] + values[..i])[1..] + [m]
  {
  }
}

module Quotients {
  lemma DivModUnique(w: nat, d: nat, q: nat, r: nat)
    requires d > 0 && w == d * q + r && r < d
    ensures w / d == q && w % d == r
  {
    var k := w / d - q;
    assert d * k == r - w % d;
    if k >= 1 {
      MulAtLeast(d, k);
      assert false;
    }
    if k <= -1 {
      MulAtLeast(d, -k);
      assert false;
    }
  }

  lemma MulAtLeast(d: int, k: int)
    requires d >= 0 && k >= 1
    ensures d * k >= d && d * -k <= -d
  {
    assert d * k == d + d * (k - 1);
  }

  /** One more divisor, one more in the quotient. */
  lemma OneMore(n: nat, d: nat)
    requires n >= d > 0
    ensures n / d == 1 + (n - d) / d
  {
    var q, r := (n - d) / d, (n - d) % d;
    assert n == d * (q + 1) + r;
    DivModUnique(n, d, q + 1, r);
  }
}
