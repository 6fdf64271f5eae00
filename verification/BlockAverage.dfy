/**
 Averages over a ring of blocks (selfdrive/locationd/lagd.py, `BlockAverage`), against the plain
 list of samples it summarises.
 */
module BlockAverages {
  import opened Options
  import opened Sums
  import opened Rings

  // ---------- the object, as values and in place ----------

  /** The values of the object's fields. */
  datatype Ring = Ring(values: seq<real>, blockIdx: nat, idx: nat, validBlocks: nat)

  predicate Fits(r: Ring, b: nat) {
    r.blockIdx < |r.values| && r.idx < b && r.validBlocks <= |r.values|
  }

  /** One more value in an average of n. */
  function Averaged(n: nat, mean: real, x: real): real {
    (n as real * mean + x) / (n as real + 1.0)
  }

  function Update(r: Ring, b: nat, x: real): Ring
    requires Fits(r, b)
  {
    var n := |r.values|;
    var values := r.values[r.blockIdx := Averaged(r.idx, r.values[r.blockIdx], x)];
    var idx := (r.idx + 1) % b;
    if idx == 0 then
      Ring(values, (r.blockIdx + 1) % n, idx, if r.validBlocks + 1 < n then r.validBlocks + 1 else n)
    else Ring(values, r.blockIdx, idx, r.validBlocks)
  }

  /** The indices that `get` averages over, in its order. */
  function ValidIdx(r: Ring, upTo: nat): seq<nat> {
    if upTo == 0 then []
    else ValidIdx(r, upTo - 1) + if upTo - 1 != r.blockIdx then [upTo - 1] else []
  }

  function Pick(values: seq<real>, at: seq<nat>): seq<real>
    requires forall k :: 0 <= k < |at| ==> at[k] < |values|
  {
    seq(|at|, k requires 0 <= k < |at| => values[at[k]])
  }

  class BlockAverage {
    const numBlocks: nat
    const blockSize: nat
    const values: array<real>
    var blockIdx: nat
    var idx: nat
    var validBlocks: nat

    ghost predicate Valid()
      reads this, values
    {
      values.Length == numBlocks && Fits(View(), blockSize)
    }

    ghost function View(): Ring
      reads this, values
    {
      Ring(values[..], blockIdx, idx, validBlocks)
    }

    constructor (numBlocks: nat, blockSize: nat, validBlocks: nat, initialValue: real)
      requires numBlocks > 0 && blockSize > 0 && validBlocks <= numBlocks
      ensures Valid() && this.numBlocks == numBlocks && this.blockSize == blockSize
      ensures View() == Start(numBlocks, validBlocks, initialValue) && fresh(values)
    {
      this.numBlocks, this.blockSize := numBlocks, blockSize;
      this.blockIdx := validBlocks % numBlocks;
      this.idx := 0;
      this.values := new real[numBlocks](_ => initialValue);
      this.validBlocks := validBlocks;
    }

    method UpdateWith(x: real)
      requires Valid()
      modifies this, values
      ensures Valid() && View() == Update(old(View()), blockSize, x)
    {
      ghost var r := View();
      var v := (idx as real * values[blockIdx] + x) / (idx as real + 1.0);
      assert v == Averaged(r.idx, r.values[r.blockIdx], x);
      hide Averaged;
      values[blockIdx] := v;
      assert values[..] == r.values[r.blockIdx := v];
      idx := (idx + 1) % blockSize;
      if idx == 0 {
        blockIdx := (blockIdx + 1) % numBlocks;
        validBlocks := if validBlocks + 1 < numBlocks then validBlocks + 1 else numBlocks;
      }
    }

    /** The mean and the squared standard deviation, over the valid slots and with the current one. */
    method Get() returns (valid: Option<(real, real)>, current: Option<(real, real)>)
      requires Valid()
      ensures (valid, current) == StatsOf(View())
    {
      var at: seq<nat> := [];
      for i := 0 to validBlocks
        invariant at == ValidIdx(View(), i)
      {
        if i != blockIdx {
          at := at + [i];
        }
      }
      ValidIdxInRange(View(), validBlocks);
      var all := at + if idx > 0 then [blockIdx] else [];
      valid := Stats(Pick(values[..], at));
      current := Stats(Pick(values[..], all));
    }
  }

  lemma {:induction false} ValidIdxInRange(r: Ring, upTo: nat)
    ensures forall k :: 0 <= k < |ValidIdx(r, upTo)| ==> ValidIdx(r, upTo)[k] < upTo
  {
    if upTo > 0 {
      ValidIdxInRange(r, upTo - 1);
    }
  }

  function StatsOf(r: Ring): (Option<(real, real)>, Option<(real, real)>)
    requires r.validBlocks <= |r.values| && r.blockIdx < |r.values|
  {
    ValidIdxInRange(r, r.validBlocks);
    var at := ValidIdx(r, r.validBlocks);
    var all := at + if r.idx > 0 then [r.blockIdx] else [];
    (Stats(Pick(r.values, at)), Stats(Pick(r.values, all)))
  }

  function Start(n: nat, v: nat, init: real): Ring
    requires n > 0
  {
    Ring(seq(n, _ => init), v % n, 0, v)
  }

  /** The ring after a list of samples. */
  function After(n: nat, b: nat, v: nat, init: real, xs: seq<real>): (r: Ring)
    requires n > 0 && b > 0 && v <= n
    ensures Fits(r, b) && |r.values| == n
  {
    if xs == [] then Start(n, v, init)
    else Update(After(n, b, v, init, xs[..|xs| - 1]), b, xs[|xs| - 1])
  }

  // ---------- the plain history ----------

  /** The means of the completed blocks, oldest first, and the samples of the block in progress. A
      restored estimator counts as having completed its restored blocks. */
  datatype Log = Log(means: seq<real>, current: seq<real>)

  function LogOf(b: nat, v: nat, init: real, xs: seq<real>): Log {
    if xs == [] then Log(seq(v, _ => init), [])
    else
      var l := LogOf(b, v, init, xs[..|xs| - 1]);
      var current := l.current + [xs[|xs| - 1]];
      if |current| == b then Log(l.means + [Mean(current)], []) else Log(l.means, current)
  }

  /** The values other than the current slot, oldest first. */
  function Others(r: Ring): seq<real>
    requires r.blockIdx < |r.values| && r.validBlocks <= |r.values|
  {
    if r.validBlocks < |r.values| then r.values[..r.validBlocks]
    else r.values[r.blockIdx + 1..] + r.values[..r.blockIdx]
  }

  function Last(xs: seq<real>, m: nat): seq<real> {
    if m <= |xs| then xs[|xs| - m..] else xs
  }

  /** The ring holds the last blocks of the log, and the current slot the mean of what is in
      progress. */
  predicate Agrees(r: Ring, b: nat, l: Log) {
    Fits(r, b) && r.idx == |l.current|
    && (|l.means| < |r.values| ==> r.blockIdx == |l.means|)
    && r.validBlocks == (if |l.means| < |r.values| then |l.means| else |r.values|)
    && Others(r) == Last(l.means, if |l.means| < |r.values| then |l.means| else |r.values| - 1)
    && (l.current != [] ==> r.values[r.blockIdx] == Mean(l.current))
  }

  lemma {:induction false} RunningMean(current: seq<real>, stale: real, x: real)
    requires current != [] ==> stale == Mean(current)
    ensures Mean(current + [x]) == Averaged(|current|, stale, x)
  {
    var n := |current| as real;
    assert (current + [x])[..|current|] == current;
    assert Sum(current + [x]) == Sum(current) + x;
    if current == [] {
      Zero(stale);
    } else {
      Undo(Sum(current), n, stale);
    }
  }

  lemma Zero(a: real)
    ensures 0.0 * a == 0.0
  {
  }

  lemma Undo(sum: real, n: real, mean: real)
    requires n > 0.0 && mean == sum / n
    ensures n * mean == sum
  {
  }

  lemma NextIn(i: nat, n: nat)
    requires i < n
    ensures (i + 1) % n == if i + 1 < n then i + 1 else 0
  {
  }

  /** While a block is in progress only the current slot changes. */
  lemma InProgress(r: Ring, b: nat, x: real, l: Log)
    requires Agrees(r, b, l) && |l.current| + 1 < b
    ensures Agrees(Update(r, b, x), b, Log(l.means, l.current + [x]))
  {
    hide Mean, Averaged;
    NextIn(r.idx, b);
    RunningMean(l.current, r.values[r.blockIdx], x);
  }

  /** The ring moves on to its next slot. */
  function Turned(r: Ring, m: real): Ring
    requires r.blockIdx < |r.values|
  {
    var n := |r.values|;
    Ring(r.values[r.blockIdx := m], if r.blockIdx + 1 < n then r.blockIdx + 1 else 0, 0,
         if r.validBlocks + 1 < n then r.validBlocks + 1 else n)
  }

  lemma TurnedFilling(r: Ring, means: seq<real>, m: real)
    requires r.blockIdx == |means| == r.validBlocks && |means| < |r.values| && Others(r) == means
    ensures var n := |r.values|;
            Others(Turned(r, m)) == Last(means + [m], if |means| + 1 < n then |means| + 1 else n - 1)
  {
    var u := Turned(r, m);
    assert u.values[..|means| + 1] == means + [m];
  }

  /** The values of a full ring from the slot after the current one on. */
  lemma OthersTurn(values: seq<real>, i: nat, m: real)
    requires i < |values| && |values| > 1
    ensures var n := if i + 1 < |values| then i + 1 else 0;
            values[i := m][n + 1..] + values[i := m][..n] == (values[i + 1..] + values[..i])[1..] + [m]
  {
    if i + 1 < |values| {
      TurnsOn(values, i, m);
    } else {
      TurnsOver(values, m);
    }
  }

  lemma OthersOfFull(r: Ring)
    requires r.blockIdx < |r.values| == r.validBlocks
    ensures Others(r) == r.values[r.blockIdx + 1..] + r.values[..r.blockIdx]
  {
  }

  lemma OthersOfTurned(r: Ring, m: real)
    requires r.blockIdx < |r.values| == r.validBlocks && |r.values| > 1
    ensures Others(Turned(r, m)) == Others(r)[1..] + [m]
  {
    OthersOfFull(r);
    OthersOfFull(Turned(r, m));
    OthersTurn(r.values, r.blockIdx, m);
    hide Others;
  }

  lemma TurnedFull(r: Ring, means: seq<real>, m: real)
    requires r.blockIdx < |r.values| == r.validBlocks <= |means| && Others(r) == Last(means, |r.values| - 1)
    ensures Others(Turned(r, m)) == Last(means + [m], |r.values| - 1)
  {
    var n := |r.values|;
    if n == 1 {
      assert Others(Turned(r, m)) == [];
    } else {
      OthersOfTurned(r, m);
      hide Last, Others, Turned;
      LastMoves(means, n - 1, m);
    }
  }

  /** A completed block becomes the newest of the others, and the oldest slot the current one. */
  lemma Completes(r: Ring, b: nat, x: real, l: Log)
    requires Agrees(r, b, l) && |l.current| + 1 == b
    ensures Agrees(Update(r, b, x), b, Log(l.means + [Mean(l.current + [x])], []))
  {
    hide Mean, Averaged, Others, Last;
    NextIn(r.idx, b);
    NextIn(r.blockIdx, |r.values|);
    RunningMean(l.current, r.values[r.blockIdx], x);
    var m := Mean(l.current + [x]);
    assert Update(r, b, x) == Turned(r, m);
    if |l.means| < |r.values| {
      WholeLast(l.means);
      TurnedFilling(r, l.means, m);
    } else {
      TurnedFull(r, l.means, m);
    }
  }

  lemma WholeLast(xs: seq<real>)
    ensures Last(xs, |xs|) == xs
  {
  }

  lemma LastMoves(xs: seq<real>, m: nat, x: real)
    requires 0 < m <= |xs|
    ensures Last(xs + [x], m) == Last(xs, m)[1..] + [x]
  {
  }

  lemma {:induction false} RingAgreesWithLog(n: nat, b: nat, v: nat, init: real, xs: seq<real>)
    requires n > 0 && b > 0 && v <= n
    ensures Agrees(After(n, b, v, init, xs), b, LogOf(b, v, init, xs)) && |LogOf(b, v, init, xs).current| < b
  {
    hide Agrees, Update, Mean;
    if xs == [] {
      StartAgrees(n, b, v, init);
    } else {
      var rest, x := xs[..|xs| - 1], xs[|xs| - 1];
      RingAgreesWithLog(n, b, v, init, rest);
      var r, l := After(n, b, v, init, rest), LogOf(b, v, init, rest);
      if |l.current| + 1 == b {
        Completes(r, b, x, l);
      } else {
        InProgress(r, b, x, l);
      }
    }
  }

  lemma StartAgrees(n: nat, b: nat, v: nat, init: real)
    requires n > 0 && b > 0 && v <= n
    ensures Agrees(Start(n, v, init), b, Log(seq(v, _ => init), []))
  {
    if v < n {
      Small(v, n);
    } else {
      Itself(n);
    }
  }

  lemma Small(v: nat, n: nat)
    requires v < n
    ensures v % n == v
  {
  }

  lemma Itself(n: nat)
    requires n > 0
    ensures n % n == 0
  {
  }

  // ---------- what get returns ----------

  lemma {:induction false} PickValid(r: Ring, upTo: nat)
    requires upTo <= |r.values| && r.blockIdx < |r.values|
    requires forall k :: 0 <= k < |ValidIdx(r, upTo)| ==> ValidIdx(r, upTo)[k] < |r.values|
    ensures Pick(r.values, ValidIdx(r, upTo)) ==
      if upTo <= r.blockIdx then r.values[..upTo] else r.values[..r.blockIdx] + r.values[r.blockIdx + 1..upTo]
  {
    if upTo > 0 {
      ValidIdxInRange(r, upTo - 1);
      PickValid(r, upTo - 1);
      PickAppends(r.values, ValidIdx(r, upTo - 1), upTo - 1);
    }
  }

  lemma PickAppends(values: seq<real>, at: seq<nat>, i: nat)
    requires i < |values| && forall k :: 0 <= k < |at| ==> at[k] < |values|
    ensures Pick(values, at + [i]) == Pick(values, at) + [values[i]]
  {
  }

  /** The picked values are the others, up to the order in which the ring holds them. */
  lemma PickedAreOthers(r: Ring)
    requires r.blockIdx < |r.values| && r.validBlocks <= |r.values|
    requires r.validBlocks < |r.values| ==> r.blockIdx == r.validBlocks
    ensures forall k :: 0 <= k < |ValidIdx(r, r.validBlocks)| ==> ValidIdx(r, r.validBlocks)[k] < |r.values|
    ensures var picked := Pick(r.values, ValidIdx(r, r.validBlocks));
            |picked| == |Others(r)| && Sum(picked) == Sum(Others(r)) && SumOfSquares(picked) == SumOfSquares(Others(r))
  {
    ValidIdxInRange(r, r.validBlocks);
    PickValid(r, r.validBlocks);
    if r.validBlocks == |r.values| {
      var front, back := r.values[..r.blockIdx], r.values[r.blockIdx + 1..];
      assert r.values[r.blockIdx + 1..r.validBlocks] == back;
      SumConcat(front, back);
      SumConcat(back, front);
    }
  }

  /** How many completed blocks the mean covers: the current slot costs one of a full ring. */
  function Covered(blocks: nat, n: nat): nat
    requires n > 0
  {
    if blocks < n then blocks else n - 1
  }

  /** What is averaged: the means of the last blocks of the log, and for the second pair also the mean
      of the block in progress. */
  function Averages(l: Log, n: nat): seq<real>
    requires n > 0
  {
    Last(l.means, Covered(|l.means|, n))
  }

  function AndCurrent(l: Log): seq<real> {
    if l.current == [] then [] else [Mean(l.current)]
  }

  /** Both pairs of `get`, in terms of the log. */
  lemma StatsAreOfLog(n: nat, b: nat, v: nat, init: real, xs: seq<real>)
    requires n > 0 && b > 0 && v <= n
    ensures var l := LogOf(b, v, init, xs);
            StatsOf(After(n, b, v, init, xs)) == (Stats(Averages(l, n)), Stats(Averages(l, n) + AndCurrent(l)))
  {
    hide Pick, ValidIdx, Others, Last, After, LogOf, Sum, SumOfSquares, Stats, Mean;
    RingAgreesWithLog(n, b, v, init, xs);
    var r, l := After(n, b, v, init, xs), LogOf(b, v, init, xs);
    PickedAreOthers(r);
    var at := ValidIdx(r, r.validBlocks);
    var picked := Pick(r.values, at);
    SameStats(picked, Averages(l, n));
    if l.current != [] {
      PickAppends(r.values, at, r.blockIdx);
      SumConcat(picked, AndCurrent(l));
      SumConcat(Averages(l, n), AndCurrent(l));
      SameStats(picked + AndCurrent(l), Averages(l, n) + AndCurrent(l));
    } else {
      assert at + [] == at && Averages(l, n) + [] == Averages(l, n);
    }
  }

  /** The samples by completed blocks, and those of the block in progress. */
  function BlocksOf(b: nat, v: nat, init: real, xs: seq<real>): (seq<seq<real>>, seq<real>) {
    if xs == [] then (seq(v, _ => seq(b, _ => init)), [])
    else
      var (blocks, current) := BlocksOf(b, v, init, xs[..|xs| - 1]);
      var more := current + [xs[|xs| - 1]];
      if |more| == b then (blocks + [more], []) else (blocks, more)
  }

  function Flat(blocks: seq<seq<real>>): seq<real> {
    if blocks == [] then [] else Flat(blocks[..|blocks| - 1]) + blocks[|blocks| - 1]
  }

  predicate MeansOf(means: seq<real>, blocks: seq<seq<real>>, b: nat) {
    |means| == |blocks| && b > 0
    && forall k :: 0 <= k < |blocks| ==> |blocks[k]| == b && means[k] == Mean(blocks[k])
  }

  lemma {:induction false} SumOfCopies(b: nat, init: real)
    ensures Sum(seq(b, _ => init)) == b as real * init
  {
    if b > 0 {
      SumOfCopies(b - 1, init);
      assert seq(b, _ => init)[..b - 1] == seq(b - 1, _ => init);
      assert b as real == (b - 1) as real + 1.0;
    }
  }

  lemma MeanOfCopies(b: nat, init: real)
    requires b > 0
    ensures Mean(seq(b, _ => init)) == init
  {
    SumOfCopies(b, init);
    Divides(b as real, init);
  }

  lemma Divides(n: real, a: real)
    requires n > 0.0
    ensures n * a / n == a
  {
  }

  lemma MeansAppend(means: seq<real>, blocks: seq<seq<real>>, b: nat, block: seq<real>)
    requires MeansOf(means, blocks, b) && |block| == b
    ensures MeansOf(means + [Mean(block)], blocks + [block], b)
  {
    hide Mean;
  }

  lemma FlatAppend(blocks: seq<seq<real>>, block: seq<real>)
    ensures Flat(blocks + [block]) == Flat(blocks) + block
  {
    assert (blocks + [block])[..|blocks|] == blocks;
  }

  /** Nothing is lost: the blocks and what is in progress are the restored blocks and the samples. */
  lemma {:induction false} BlocksAreTheSamples(b: nat, v: nat, init: real, xs: seq<real>)
    requires b > 0
    ensures var (blocks, current) := BlocksOf(b, v, init, xs);
            var l := LogOf(b, v, init, xs);
            MeansOf(l.means, blocks, b) && l.current == current && |current| < b
            && Flat(blocks) + current == Flat(seq(v, _ => seq(b, _ => init))) + xs
  {
    hide Mean, Flat, MeansOf;
    if xs == [] {
      RestoredMeans(b, v, init);
    } else {
      var rest, x := xs[..|xs| - 1], xs[|xs| - 1];
      BlocksAreTheSamples(b, v, init, rest);
      var (blocks, current) := BlocksOf(b, v, init, rest);
      var means := LogOf(b, v, init, rest).means;
      var more := current + [x];
      MoveOne(Flat(blocks), current, Flat(seq(v, _ => seq(b, _ => init))), rest, x);
      assert xs == rest + [x];
      if |more| == b {
        MeansAppend(means, blocks, b, more);
        FlatAppend(blocks, more);
      }
    }
  }

  lemma MoveOne(flat: seq<real>, current: seq<real>, pre: seq<real>, rest: seq<real>, x: real)
    requires flat + current == pre + rest
    ensures flat + (current + [x]) == pre + (rest + [x])
  {
    assert flat + (current + [x]) == flat + current + [x];
  }

  lemma RestoredMeans(b: nat, v: nat, init: real)
    requires b > 0
    ensures MeansOf(seq(v, _ => init), seq(v, _ => seq(b, _ => init)), b)
  {
    hide Mean;
    MeanOfCopies(b, init);
  }

  lemma SumStep(s: real, m: real, b: real, f: real, g: real)
    requires s * b == f && b * m == g
    ensures (s + m) * b == f + g
  {
  }

  lemma MeansLast(means: seq<real>, blocks: seq<seq<real>>, b: nat)
    requires MeansOf(means, blocks, b) && means != []
    ensures var k := |means| - 1;
            MeansOf(means[..k], blocks[..k], b) && |blocks| == |means| && |blocks[k]| == b
            && b as real * means[k] == Sum(blocks[k])
  {
    hide Sum;
    var k := |means| - 1;
    Undo(Sum(blocks[k]), b as real, means[k]);
  }

  lemma FlatLast(blocks: seq<seq<real>>)
    requires blocks != []
    ensures Flat(blocks) == Flat(blocks[..|blocks| - 1]) + blocks[|blocks| - 1]
  {
  }

  lemma TimesNext(k: nat, b: nat)
    ensures (k + 1) * b == k * b + b
  {
  }

  lemma {:induction false} FlatLength(means: seq<real>, blocks: seq<seq<real>>, b: nat)
    requires MeansOf(means, blocks, b)
    ensures |Flat(blocks)| == |means| * b
  {
    hide MeansOf, Mean;
    MeansNonempty(means, blocks, b);
    if means != [] {
      var k := |means| - 1;
      MeansLast(means, blocks, b);
      FlatLength(means[..k], blocks[..k], b);
      TimesNext(k, b);
    }
  }

  lemma MeansNonempty(means: seq<real>, blocks: seq<seq<real>>, b: nat)
    requires MeansOf(means, blocks, b)
    ensures b > 0 && |means| == |blocks|
  {
  }

  lemma {:induction false} SumOfMeans(means: seq<real>, blocks: seq<seq<real>>, b: nat)
    requires MeansOf(means, blocks, b)
    ensures Sum(means) * b as real == Sum(Flat(blocks))
  {
    hide MeansOf, Mean, Sum, Flat;
    if means == [] {
      MeansNonempty(means, blocks, b);
      NoMeans(b as real);
    } else {
      var k := |means| - 1;
      MeansLast(means, blocks, b);
      SumOfMeans(means[..k], blocks[..k], b);
      FlatLast(blocks);
      SumConcat(Flat(blocks[..k]), blocks[k]);
      SpreadUnfolds(means, 0.0);
      SumStep(Sum(means[..k]), means[k], b as real, Sum(Flat(blocks[..k])), Sum(blocks[k]));
    }
  }

  lemma NoMeans(b: real)
    ensures Sum([]) * b == 0.0 && Flat([]) == [] && Sum(Flat([])) == 0.0
  {
  }

  lemma MeanOfMeans(means: seq<real>, blocks: seq<seq<real>>, b: nat)
    requires MeansOf(means, blocks, b) && means != []
    ensures Flat(blocks) != [] && Mean(means) == Mean(Flat(blocks))
  {
    hide Sum, Flat;
    SumOfMeans(means, blocks, b);
    FlatLength(means, blocks, b);
    assert |means| * b > 0;
    Scales(Sum(means), |means| as real, b as real);
    assert |Flat(blocks)| as real == |means| as real * b as real;
  }

  lemma Scales(a: real, m: real, b: real)
    requires m > 0.0 && b > 0.0
    ensures m * b > 0.0 && a * b / (m * b) == a / m
  {
    assert a / m * (m * b) == a / m * m * b;
  }

  function LastBlocks(blocks: seq<seq<real>>, m: nat): seq<seq<real>> {
    if m <= |blocks| then blocks[|blocks| - m..] else blocks
  }

  /** After any samples, the valid mean is the plain mean of all the samples in the last completed
      blocks: all of them, or one less than the ring has slots. */
  lemma ValidMeanIsPlainMean(n: nat, b: nat, v: nat, init: real, xs: seq<real>)
    requires n > 0 && b > 0 && v <= n
    ensures var (blocks, current) := BlocksOf(b, v, init, xs);
            var samples := Flat(LastBlocks(blocks, Covered(|blocks|, n)));
            var valid := StatsOf(After(n, b, v, init, xs)).0;
            if samples == [] then valid == None else valid.Some? && valid.value.0 == Mean(samples)
  {
    hide After, StatsOf, LogOf, BlocksOf, Sum, Mean, Spread;
    StatsAreOfLog(n, b, v, init, xs);
    BlocksAreTheSamples(b, v, init, xs);
    var blocks := BlocksOf(b, v, init, xs).0;
    var means := LogOf(b, v, init, xs).means;
    var m := Covered(|blocks|, n);
    if m > 0 {
      MeanOfMeans(Last(means, m), LastBlocks(blocks, m), b);
    }
  }

  /** The current slot is the mean of its own samples: nothing of the stale value is left. */
  lemma CurrentSlotIsItsMean(n: nat, b: nat, v: nat, init: real, xs: seq<real>)
    requires n > 0 && b > 0 && v <= n
    ensures var r := After(n, b, v, init, xs);
            var current := BlocksOf(b, v, init, xs).1;
            r.idx == |current| && (current != [] ==> r.values[r.blockIdx] == Mean(current))
  {
    hide After, LogOf, BlocksOf, Mean;
    RingAgreesWithLog(n, b, v, init, xs);
    BlocksAreTheSamples(b, v, init, xs);
  }
}
