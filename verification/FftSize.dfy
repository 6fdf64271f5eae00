/**
 fft_next_good_size of selfdrive/locationd/helpers.py: five nested loops over products of
 powers of 2, 3, 5, 7 and 11, all bounded by a `best` that shrinks while they run.
 */
module FftSize {

  function Pow(base: nat, e: nat): nat {
    if e == 0 then 1 else base * Pow(base, e - 1)
  }

  function Product(a: nat, b: nat, c: nat, d: nat, e: nat): nat {
    Pow(2, a) * Pow(3, b) * Pow(5, c) * Pow(7, d) * Pow(11, e)
  }

  /** `m` is a product of powers of 2, 3, 5, 7 and 11. */
  ghost predicate Smooth(m: int) {
    exists a: nat, b: nat, c: nat, d: nat, e: nat :: m == Product(a, b, c, d, e)
  }

  /** `r` is the smallest smooth number that is at least `n`. */
  ghost predicate IsNextGoodSize(n: int, r: int) {
    Smooth(r) && n <= r && forall m :: Smooth(m) && n <= m ==> r <= m
  }

  // ---------- what one loop level explores ----------

  /** The prime of a loop and those of the loops inside it. */
  datatype Nest = Body | Loop(prime: nat, inner: Nest)

  const LOOP11 := Loop(11, Body)
  const LOOP7 := Loop(7, LOOP11)
  const LOOP5 := Loop(5, LOOP7)
  const LOOP3 := Loop(3, LOOP5)
  const LOOP2 := Loop(2, LOOP3)

  /** The loop variable of a loop entered with `f` after `e` rounds. */
  function Scaled(f: nat, prime: nat, e: nat): nat {
    if e == 0 then f else Scaled(f, prime, e - 1) * prime
  }

  ghost predicate Reaches(nest: Nest, f: nat, m: int) {
    match nest
    case Body => m == f
    case Loop(p, inner) => exists e: nat :: Reaches(inner, Scaled(f, p, e), m)
  }

  /** `best` is no larger than any candidate of size at least `n` reachable from `f`. */
  ghost predicate Explored(nest: Nest, f: nat, n: int, best: int) {
    forall m :: Reaches(nest, f, m) && n <= m ==> best <= m
  }

  /** The same for the candidates of the rounds before `e` of one loop. */
  ghost predicate ExploredBefore(nest: Nest, f: nat, e: nat, n: int, best: int)
    requires nest.Loop?
  {
    forall k: nat :: k < e ==> Explored(nest.inner, Scaled(f, nest.prime, k), n, best)
  }

  ghost predicate Proper(nest: Nest) {
    nest.Loop? ==> nest.prime >= 2 && Proper(nest.inner)
  }

  lemma Doubling(x: nat, p: nat)
    requires p >= 2
    ensures x * p >= 2 * x
  {
  }

  lemma {:induction false} ScaledGrows(f: nat, p: nat, d: nat, e: nat)
    requires p >= 2 && d <= e
    ensures f <= Scaled(f, p, d) <= Scaled(f, p, e)
    decreases e
  {
    if e > 0 {
      Doubling(Scaled(f, p, e - 1), p);
      ScaledGrows(f, p, if d == e then d - 1 else d, e - 1);
    }
  }

  lemma {:induction false} ReachesOnlyAbove(nest: Nest, f: nat, m: int)
    requires Proper(nest) && Reaches(nest, f, m)
    ensures f <= m
    decreases nest
  {
    match nest
    case Body =>
    case Loop(p, inner) =>
      var e: nat :| Reaches(inner, Scaled(f, p, e), m);
      ReachesOnlyAbove(inner, Scaled(f, p, e), m);
      ScaledGrows(f, p, 0, e);
  }

  /** A loop may stop once its variable reaches `best`: later rounds cannot improve it. */
  lemma LoopExit(nest: Nest, f: nat, e: nat, n: int, best: int)
    requires nest.Loop? && Proper(nest)
    requires ExploredBefore(nest, f, e, n, best)
    requires best <= Scaled(f, nest.prime, e)
    ensures Explored(nest, f, n, best)
  {
    hide Scaled;
    forall m | Reaches(nest, f, m) && n <= m
      ensures best <= m
    {
      var k: nat :| Reaches(nest.inner, Scaled(f, nest.prime, k), m);
      if k < e {
        assert Explored(nest.inner, Scaled(f, nest.prime, k), n, best);
      } else {
        ReachesOnlyAbove(nest.inner, Scaled(f, nest.prime, k), m);
        ScaledGrows(f, nest.prime, e, k);
      }
    }
  }

  /** One more round: what was explored stays explored although `best` has shrunk. */
  lemma LoopRound(nest: Nest, f: nat, e: nat, n: int, best: int, best': int)
    requires nest.Loop? && best' <= best
    requires ExploredBefore(nest, f, e, n, best)
    requires Explored(nest.inner, Scaled(f, nest.prime, e), n, best')
    ensures ExploredBefore(nest, f, e + 1, n, best')
  {
    forall k: nat | k < e + 1
      ensures Explored(nest.inner, Scaled(f, nest.prime, k), n, best')
    {
      if k < e {
        assert Explored(nest.inner, Scaled(f, nest.prime, k), n, best);
      }
    }
  }

  // ---------- from the loop nest to all smooth numbers ----------

  lemma {:induction false} ScaledIsProduct(f: nat, p: nat, e: nat)
    ensures Scaled(f, p, e) == f * Pow(p, e)
  {
    if e > 0 {
      ScaledIsProduct(f, p, e - 1);
      Regroup(f, Pow(p, e - 1), p);
    }
  }

  lemma Regroup(x: nat, y: nat, z: nat)
    ensures (x * y) * z == x * (z * y)
  {
  }

  lemma NestValue(a: nat, b: nat, c: nat, d: nat, e: nat)
    ensures Product(a, b, c, d, e)
            == Scaled(Scaled(Scaled(Scaled(Scaled(1, 2, a), 3, b), 5, c), 7, d), 11, e)
  {
    hide Pow, Scaled;
    ScaledIsProduct(1, 2, a);
    ScaledIsProduct(Scaled(1, 2, a), 3, b);
    ScaledIsProduct(Scaled(Scaled(1, 2, a), 3, b), 5, c);
    ScaledIsProduct(Scaled(Scaled(Scaled(1, 2, a), 3, b), 5, c), 7, d);
    ScaledIsProduct(Scaled(Scaled(Scaled(Scaled(1, 2, a), 3, b), 5, c), 7, d), 11, e);
  }

  /** The loop nest, run without bound, would visit every smooth number. */
  lemma SmoothIsReached(m: int)
    requires Smooth(m)
    ensures Reaches(LOOP2, 1, m)
  {
    hide Scaled, Product;
    var a: nat, b: nat, c: nat, d: nat, e: nat :| m == Product(a, b, c, d, e);
    NestValue(a, b, c, d, e);
    var f2 := Scaled(1, 2, a);
    var f23 := Scaled(f2, 3, b);
    var f235 := Scaled(f23, 5, c);
    var f2357 := Scaled(f235, 7, d);
    assert Reaches(Body, Scaled(f2357, 11, e), m);
    assert Reaches(LOOP11, f2357, m);
    assert Reaches(LOOP7, f235, m);
    assert Reaches(LOOP5, f23, m);
    assert Reaches(LOOP3, f2, m);
  }

  /** Between n and 2n - 1 there is a power of two, so the initial bound is always improved. */
  lemma {:induction false} PowerOfTwoBetween(n: nat) returns (a: nat)
    requires n >= 1
    ensures n <= Pow(2, a) < 2 * n
  {
    if n == 1 {
      a := 0;
    } else {
      a := PowerOfTwoBetween((n + 1) / 2);
      if Pow(2, a) < n {
        a := a + 1;
      }
    }
  }

  lemma PowerOfTwoIsSmooth(a: nat)
    ensures Smooth(Pow(2, a))
  {
    assert Pow(2, a) == Product(a, 0, 0, 0, 0);
  }

  /** What `best` may be while the loops run: the initial bound or a smooth number. */
  ghost predicate Candidate(n: int, best: int) {
    n <= best <= 2 * n && (best == 2 * n || Smooth(best))
  }

  lemma ExploredAll(n: int, best: int)
    requires n > 0 && Candidate(n, best) && Explored(LOOP2, 1, n, best)
    ensures IsNextGoodSize(n, best)
  {
    forall m | Smooth(m) && n <= m
      ensures best <= m
    {
      SmoothIsReached(m);
    }
    var a := PowerOfTwoBetween(n);
    PowerOfTwoIsSmooth(a);
  }

  lemma SmallSizes(n: int)
    requires n <= 6
    ensures IsNextGoodSize(n, n) <==> n >= 1
  {
    assert Product(0, 0, 0, 0, 0) == 1 && Product(1, 0, 0, 0, 0) == 2 && Product(0, 1, 0, 0, 0) == 3;
    assert Product(2, 0, 0, 0, 0) == 4 && Product(0, 0, 1, 0, 0) == 5 && Product(1, 1, 0, 0, 0) == 6;
    if Smooth(n) {
      SmoothIsReached(n);
      ReachesOnlyAbove(LOOP2, 1, n);
    }
  }

  // ---------- the method ----------

  /** The documented result, the smallest smooth size that is at least `n`, is delivered for
      every positive `n`; for the other arguments the early return gives `n` itself, which is
      not a size of that form. */
  method FftNextGoodSize(n: int) returns (best: int)
    ensures IsNextGoodSize(n, best) <==> n >= 1
    ensures n <= 6 ==> best == n
  {
    hide IsNextGoodSize, Candidate, ExploredBefore, Explored, Product;
    if n <= 6 {
      SmallSizes(n);
      return n;
    }
    best := 2 * n;
    FirstBound(n);
    var f2 := 1;
    ghost var a := 0;
    EnterLoop(LOOP2, 1, n, best);
    while f2 < best
      invariant f2 == Scaled(1, 2, a) && f2 >= 1
      invariant Candidate(n, best) && ExploredBefore(LOOP2, 1, a, n, best)
      decreases best - f2
    {
      var f23 := f2;
      ghost var b, best2 := 0, best;
      EnterLoop(LOOP3, f2, n, best);
      while f23 < best
        invariant f23 == Scaled(f2, 3, b) && f23 >= 1
        invariant best <= best2 && Candidate(n, best) && ExploredBefore(LOOP3, f2, b, n, best)
        decreases best - f23
      {
        var f235 := f23;
        ghost var c, best3 := 0, best;
        EnterLoop(LOOP5, f23, n, best);
        while f235 < best
          invariant f235 == Scaled(f23, 5, c) && f235 >= 1
          invariant best <= best3 && Candidate(n, best) && ExploredBefore(LOOP5, f23, c, n, best)
          decreases best - f235
        {
          var f2357 := f235;
          ghost var d, best5 := 0, best;
          EnterLoop(LOOP7, f235, n, best);
          while f2357 < best
            invariant f2357 == Scaled(f235, 7, d) && f2357 >= 1
            invariant best <= best5 && Candidate(n, best) && ExploredBefore(LOOP7, f235, d, n, best)
            decreases best - f2357
          {
            var f235711 := f2357;
            ghost var e, best7 := 0, best;
            EnterLoop(LOOP11, f2357, n, best);
            while f235711 < best
              invariant f235711 == Scaled(f2357, 11, e) && f235711 >= 1
              invariant best <= best7 && Candidate(n, best) && ExploredBefore(LOOP11, f2357, e, n, best)
              decreases best - f235711
            {
              ghost var best11 := best;
              best := if f235711 >= n then f235711 else best;
              TryCandidate(a, b, c, d, e, f235711, f2357, n, best11);
              LoopRound(LOOP11, f2357, e, n, best11, best);
              f235711 := f235711 * 11;
              e := e + 1;
            }
            LoopExit(LOOP11, f2357, e, n, best);
            LoopRound(LOOP7, f235, d, n, best7, best);
            f2357 := f2357 * 7;
            d := d + 1;
          }
          LoopExit(LOOP7, f235, d, n, best);
          LoopRound(LOOP5, f23, c, n, best5, best);
          f235 := f235 * 5;
          c := c + 1;
        }
        LoopExit(LOOP5, f23, c, n, best);
        LoopRound(LOOP3, f2, b, n, best3, best);
        f23 := f23 * 3;
        b := b + 1;
      }
      LoopExit(LOOP3, f2, b, n, best);
      LoopRound(LOOP2, 1, a, n, best2, best);
      f2 := f2 * 2;
      a := a + 1;
    }
    LoopExit(LOOP2, 1, a, n, best);
    ExploredAll(n, best);
  }

  lemma EnterLoop(nest: Nest, f: nat, n: int, best: int)
    requires nest.Loop?
    ensures ExploredBefore(nest, f, 0, n, best)
  {
  }

  lemma FirstBound(n: int)
    requires n > 0
    ensures Candidate(n, 2 * n)
  {
  }

  /** The body of the innermost loop keeps `best` a candidate and takes `f` into account. */
  lemma TryCandidate(a: nat, b: nat, c: nat, d: nat, e: nat, f: nat, f2357: nat, n: int, best: int)
    requires f2357 == Scaled(Scaled(Scaled(Scaled(1, 2, a), 3, b), 5, c), 7, d)
    requires f == Scaled(f2357, 11, e) && f < best && Candidate(n, best)
    ensures Candidate(n, if f >= n then f else best)
    ensures Explored(Body, f, n, if f >= n then f else best)
  {
    NestValue(a, b, c, d, e);
  }
}
