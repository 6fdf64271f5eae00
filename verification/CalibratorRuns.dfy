/** Whole runs of the calibrator, against the plain list of blocks finished since its last reset. */
module CalibratorRuns {
  import opened Calibration
  import opened Options
  import opened Sums
  import opened Rings

  // ---------- the valid indices ----------

  /** The valid indices are exactly those below the valid count other than the current one, each once
      and in order. */
  lemma ValidIdxsExactly(c: Cal)
    requires Fits(c)
    ensures forall i :: i in ValidIdxs(c) <==> 0 <= i < c.validBlocks && i != c.blockIdx
    ensures forall j, k :: 0 <= j < k < |ValidIdxs(c)| ==> ValidIdxs(c)[j] < ValidIdxs(c)[k]
  {
    var at := ValidIdxs(c);
    forall i | 0 <= i < c.validBlocks && i != c.blockIdx
      ensures i in at
    {
      if i < c.blockIdx {
        assert at[i] == i;
      } else {
        assert at[i - 1] == i;
      }
    }
  }

  lemma PickedBySlices(c: Cal)
    requires Fits(c)
    ensures Picked(c) == c.poses[..c.blockIdx]
      + if c.validBlocks > c.blockIdx then c.poses[c.blockIdx + 1..c.validBlocks] else []
  {
  }

  // ---------- the list of finished blocks ----------

  /** The calibrator, and since its last reset: the value it was filled with, the number of blocks
      that counted as valid from the start, and the blocks finished since. */
  datatype Traced = Traced(cal: Cal, base: Pose, restored: nat, finished: seq<Pose>)

  function Finishing(t: Traced, d: Cal): seq<Pose>
    requires Fits(t.cal) && Fits(d)
  {
    if d.idx == 0 then t.finished + [d.poses[t.cal.blockIdx]] else t.finished
  }

  /** The calibrator with the sample taken, before its status is updated. */
  function Midway(l: Limits, c: Cal, o: Odom): (d: Cal)
    requires Fits(c)
    ensures Fits(d)
  {
    SampledFits(c.(oldWeight := Faded(c.oldWeight)), Observed(l, o));
    Sampled(c.(oldWeight := Faded(c.oldWeight)), Observed(l, o))
  }

  /** What a restart fills the ring with. */
  function Restart(d: Cal): Pose
    requires Fits(d)
  {
    POSE_INIT.(rpy := d.poses[Previous(d.blockIdx)].rpy)
  }

  function TraceStep(l: Limits, t: Traced, o: Odom): Traced
    requires Fits(t.cal)
  {
    var after := Handle(l, t.cal, o);
    if !Accepted(t.cal, o) then t.(cal := after)
    else
      var d := Midway(l, t.cal, o);
      if Remounted(l, d) then Traced(after, Restart(d), 1, [])
      else t.(cal := after, finished := Finishing(t, d))
  }

  /** A new object: what was stored, and the status update of the constructor. */
  function StartOf(l: Limits, saved: Option<(Pose, int)>): Traced
    requires saved.Some? ==> saved.value.1 <= INPUTS_WANTED
  {
    var c := Loaded(saved);
    Traced(StatusUpdated(l, c), c.pose, c.validBlocks, [])
  }

  function Run(l: Limits, saved: Option<(Pose, int)>, os: seq<Odom>): (t: Traced)
    requires Sensible(l) && (saved.Some? ==> saved.value.1 <= INPUTS_WANTED)
    ensures Fits(t.cal)
  {
    if os == [] then
      LoadedIsNotSpread(l, saved);
      StartOf(l, saved)
    else
      var t := Run(l, saved, os[..|os| - 1]);
      HandleFits(l, t.cal, os[|os| - 1]);
      TraceStep(l, t, os[|os| - 1])
  }

  lemma HandleFits(l: Limits, c: Cal, o: Odom)
    requires Fits(c)
    ensures Fits(Handle(l, c, o))
  {
    hide Remounted, StatusOf, Sampled, Observed;
    SampledFits(c.(oldWeight := Faded(c.oldWeight)), Observed(l, o));
  }

  // ---------- what a run keeps ----------

  /** The ring holds the finished blocks, and the value it was filled with where none is yet. */
  predicate RingHolds(c: Cal, base: Pose, finished: seq<Pose>) {
    Fits(c)
    && (finished != [] ==> c.poses[Previous(c.blockIdx)] == finished[|finished| - 1])
    && if |finished| < INPUTS_WANTED then
         c.blockIdx == |finished| && c.poses[..c.blockIdx] == finished
         && forall i :: c.blockIdx < i < INPUTS_WANTED ==> c.poses[i] == base
       else c.poses[c.blockIdx + 1..] + c.poses[..c.blockIdx] == finished[|finished| - (INPUTS_WANTED - 1)..]
  }

  predicate Counts(c: Cal, restored: nat, finished: seq<Pose>) {
    restored <= INPUTS_WANTED
    && c.validBlocks == (var k := Min(|finished|, INPUTS_WANTED); if k < restored then restored else k)
  }

  predicate Holds(t: Traced) {
    RingHolds(t.cal, t.base, t.finished) && Counts(t.cal, t.restored, t.finished)
  }

  lemma RingFills(c: Cal, x: Pose, base: Pose, finished: seq<Pose>)
    requires RingHolds(c, base, finished) && c.idx + 1 == BLOCK_SIZE && |finished| + 1 < INPUTS_WANTED
    ensures var d := Sampled(c, x); RingHolds(d, base, finished + [d.poses[c.blockIdx]])
  {
    hide MovingAverage;
    var d := Sampled(c, x);
    var v := d.poses[c.blockIdx];
    assert d.poses == c.poses[c.blockIdx := v];
    assert d.poses[..|finished| + 1] == finished + [v];
  }

  lemma RingIsFull(c: Cal, x: Pose, base: Pose, finished: seq<Pose>)
    requires RingHolds(c, base, finished) && c.idx + 1 == BLOCK_SIZE && |finished| + 1 == INPUTS_WANTED
    ensures var d := Sampled(c, x); RingHolds(d, base, finished + [d.poses[c.blockIdx]])
  {
    hide MovingAverage;
    var d := Sampled(c, x);
    var v := d.poses[c.blockIdx];
    assert d.poses == c.poses[c.blockIdx := v];
    assert d.poses == finished + [v];
  }

  lemma RingTurnsOver(c: Cal, x: Pose, base: Pose, finished: seq<Pose>)
    requires RingHolds(c, base, finished) && c.idx + 1 == BLOCK_SIZE
    ensures var d := Sampled(c, x); RingHolds(d, base, finished + [d.poses[c.blockIdx]])
  {
    hide MovingAverage;
    if |finished| + 1 < INPUTS_WANTED {
      RingFills(c, x, base, finished);
    } else if |finished| + 1 == INPUTS_WANTED {
      RingIsFull(c, x, base, finished);
    } else {
      var d := Sampled(c, x);
      var v := d.poses[c.blockIdx];
      assert d.poses == c.poses[c.blockIdx := v];
      Turns(c.poses, c.blockIdx, v, finished);
    }
  }

  lemma Turns(poses: seq<Pose>, i: nat, v: Pose, finished: seq<Pose>)
    requires i < |poses| == INPUTS_WANTED <= |finished|
    requires poses[i + 1..] + poses[..i] == finished[|finished| - (INPUTS_WANTED - 1)..]
    ensures var n := (i + 1) % INPUTS_WANTED;
            poses[i := v][n + 1..] + poses[i := v][..n]
            == (finished + [v])[|finished| + 1 - (INPUTS_WANTED - 1)..]
  {
    var last := finished[|finished| - (INPUTS_WANTED - 1)..];
    assert (finished + [v])[|finished| + 1 - (INPUTS_WANTED - 1)..] == last[1..] + [v];
    if i + 1 < INPUTS_WANTED {
      TurnsOn(poses, i, v);
    } else {
      TurnsOver(poses, v);
    }
  }

  lemma MidwayHolds(l: Limits, t: Traced, o: Odom)
    requires Holds(t)
    ensures var d := Midway(l, t.cal, o);
            RingHolds(d, t.base, Finishing(t, d)) && Counts(d, t.restored, Finishing(t, d))
  {
    hide MovingAverage, Observed;
    var c := t.cal.(oldWeight := Faded(t.cal.oldWeight));
    var x := Observed(l, o);
    if c.idx + 1 == BLOCK_SIZE {
      RingTurnsOver(c, x, t.base, t.finished);
    } else {
      OnlyCurrentChanges(c, x, t.base, t.finished);
    }
  }

  lemma OnlyCurrentChanges(c: Cal, x: Pose, base: Pose, finished: seq<Pose>)
    requires RingHolds(c, base, finished) && c.idx + 1 < BLOCK_SIZE
    ensures RingHolds(Sampled(c, x), base, finished)
  {
    hide MovingAverage;
  }

  /** A ring with no finished block shows no spread. */
  lemma {:induction false} SameHaveNoSpread(xs: seq<real>, x: real)
    requires xs != [] && forall k :: 0 <= k < |xs| ==> xs[k] == x
    ensures MaxOf(xs) == x && MinOf(xs) == x
  {
    if |xs| > 1 {
      SameHaveNoSpread(xs[..|xs| - 1], x);
    }
  }

  lemma FreshIsNotSpread(l: Limits, c: Cal, base: Pose)
    requires Sensible(l) && RingHolds(c, base, [])
    ensures !TooSpread(l, RpysOf(Picked(c)))
  {
    var ps := Picked(c);
    var rs := RpysOf(ps);
    if ps != [] {
      forall k | 0 <= k < |ps|
        ensures ps[k] == base
      {
        ValidIdxsExactly(c);
        assert ValidIdxs(c)[k] in ValidIdxs(c);
      }
      SameHaveNoSpread(Pitches(rs), base.rpy.pitch);
      SameHaveNoSpread(Yaws(rs), base.rpy.yaw);
    }
  }

  lemma LoadedIsNotSpread(l: Limits, saved: Option<(Pose, int)>)
    requires Sensible(l) && (saved.Some? ==> saved.value.1 <= INPUTS_WANTED)
    ensures Fits(Loaded(saved)) && !TooSpread(l, RpysOf(Picked(Loaded(saved))))
  {
    FreshIsNotSpread(l, Loaded(saved), Loaded(saved).pose);
  }

  /** Whenever the spread makes the calibrator start over, it starts from the block finished last; and
      after a restart that takes at least five blocks. */
  lemma RemountRestartsFromLastBlock(l: Limits, t: Traced, o: Odom)
    requires Sensible(l) && Holds(t) && Remounted(l, Midway(l, t.cal, o))
    ensures var d := Midway(l, t.cal, o);
            var finished := Finishing(t, d);
            finished != [] && d.poses[Previous(d.blockIdx)] == finished[|finished| - 1]
            && (t.restored < INPUTS_NEEDED ==> |finished| >= INPUTS_NEEDED)
  {
    hide TooSpread, MovingAverage, Observed, Picked;
    MidwayHolds(l, t, o);
    var d := Midway(l, t.cal, o);
    if Finishing(t, d) == [] {
      FreshIsNotSpread(l, d, t.base);
    }
  }

  lemma RestartHolds(from: Pose, smoothFrom: Option<Rpy>)
    ensures Holds(Traced(Reset(from, 1, smoothFrom, Recalibrating), from, 1, []))
  {
  }

  lemma OtherFieldsDoNotMatter(c: Cal, d: Cal, base: Pose, restored: nat, finished: seq<Pose>)
    requires RingHolds(c, base, finished) && Counts(c, restored, finished)
    requires d == c.(pose := d.pose, status := d.status, oldWeight := d.oldWeight)
    ensures Holds(Traced(d, base, restored, finished))
  {
  }

  lemma StepHolds(l: Limits, t: Traced, o: Odom)
    requires Holds(t)
    ensures Holds(TraceStep(l, t, o))
  {
    hide Remounted, StatusOf, Averaged, RingHolds, Counts, Midway, Finishing, Handle;
    HoldsFits(t);
    var d := Midway(l, t.cal, o);
    var n := TraceStep(l, t, o);
    MidwayHolds(l, t, o);
    UpdateKeepsRing(l, t, o);
    if !Accepted(t.cal, o) {
      OtherFieldsDoNotMatter(t.cal, n.cal, t.base, t.restored, t.finished);
    } else if Remounted(l, d) {
      RestartHolds(Restart(d), Some(Averaged(d).rpy));
    } else {
      OtherFieldsDoNotMatter(d, n.cal, t.base, t.restored, Finishing(t, d));
    }
  }

  lemma HoldsFits(t: Traced)
    requires Holds(t)
    ensures Fits(t.cal)
  {
  }

  /** What the status update leaves alone, or starts over. */
  lemma UpdateKeepsRing(l: Limits, t: Traced, o: Odom)
    requires Fits(t.cal)
    ensures var d, u := Midway(l, t.cal, o), TraceStep(l, t, o).cal;
            if !Accepted(t.cal, o) then u == t.cal.(oldWeight := Faded(t.cal.oldWeight))
            else if Remounted(l, d) then
              u == Reset(Restart(d), 1, Some(Averaged(d).rpy), Recalibrating)
            else u == d.(pose := Averaged(d), status := StatusOf(l, d, Averaged(d).rpy))
  {
    hide Remounted, StatusOf, Averaged, Sampled, Observed;
  }

  lemma {:induction false} EveryRunHolds(l: Limits, saved: Option<(Pose, int)>, os: seq<Odom>)
    requires Sensible(l) && (saved.Some? ==> saved.value.1 <= INPUTS_WANTED)
    ensures Holds(Run(l, saved, os))
  {
    hide Holds, TraceStep;
    if os == [] {
      StartHolds(l, saved);
    } else {
      EveryRunHolds(l, saved, os[..|os| - 1]);
      StepHolds(l, Run(l, saved, os[..|os| - 1]), os[|os| - 1]);
    }
  }

  lemma StartHolds(l: Limits, saved: Option<(Pose, int)>)
    requires Sensible(l) && (saved.Some? ==> saved.value.1 <= INPUTS_WANTED)
    ensures Holds(StartOf(l, saved))
  {
    hide Averaged, StatusOf, TooSpread;
    LoadedIsNotSpread(l, saved);
    var c := Loaded(saved);
    OtherFieldsDoNotMatter(c, StatusUpdated(l, c), c.pose, c.validBlocks, []);
  }

  /** In every run: a status update that starts over does so from the block finished last, and not
      before five blocks have been finished since the previous restart. */
  lemma EveryRestartIsFromLastBlock(l: Limits, saved: Option<(Pose, int)>, os: seq<Odom>, o: Odom)
    requires Sensible(l) && (saved.Some? ==> saved.value.1 <= INPUTS_WANTED)
    requires var t := Run(l, saved, os); Accepted(t.cal, o) && Remounted(l, Midway(l, t.cal, o))
    ensures var t := Run(l, saved, os);
            var finished := Finishing(t, Midway(l, t.cal, o));
            finished != [] && (t.restored < INPUTS_NEEDED ==> |finished| >= INPUTS_NEEDED)
            && (var from := POSE_INIT.(rpy := finished[|finished| - 1].rpy);
                Handle(l, t.cal, o).pose == from && Handle(l, t.cal, o).poses == seq(INPUTS_WANTED, _ => from))
  {
    hide Run, Remounted, Holds, Midway, Finishing, Averaged;
    var t := Run(l, saved, os);
    EveryRunHolds(l, saved, os);
    RemountRestartsFromLastBlock(l, t, o);
    UpdateKeepsRing(l, t, o);
  }

  // ---------- the calibration is the mean of the last blocks ----------

  /** The mean does not depend on which part of the ring comes first. */
  lemma MeanOfParts(xs: seq<Pose>, ys: seq<Pose>)
    requires xs + ys != []
    ensures ys + xs != [] && MeanPose(xs + ys) == MeanPose(ys + xs)
  {
    hide MeanRpy, Mean;
    PosesByPart(xs, ys);
    PosesByPart(ys, xs);
    MeanOfRpys(RpysOf(xs), RpysOf(ys));
    MeanOfRpys(WidesOf(xs), WidesOf(ys));
    MeanOfReals(HeightsOf(xs), HeightsOf(ys));
  }

  lemma PosesByPart(xs: seq<Pose>, ys: seq<Pose>)
    ensures RpysOf(xs + ys) == RpysOf(xs) + RpysOf(ys)
    ensures WidesOf(xs + ys) == WidesOf(xs) + WidesOf(ys)
    ensures HeightsOf(xs + ys) == HeightsOf(xs) + HeightsOf(ys)
  {
  }

  lemma MeanOfReals(xs: seq<real>, ys: seq<real>)
    requires xs + ys != []
    ensures ys + xs != [] && Mean(xs + ys) == Mean(ys + xs)
  {
    hide Sum;
    SumConcat(xs, ys);
    SumConcat(ys, xs);
  }

  lemma MeanOfRpys(xs: seq<Rpy>, ys: seq<Rpy>)
    requires xs + ys != []
    ensures ys + xs != [] && MeanRpy(xs + ys) == MeanRpy(ys + xs)
  {
    hide Mean;
    RpysByPart(xs, ys);
    RpysByPart(ys, xs);
    MeanOfReals(Rolls(xs), Rolls(ys));
    MeanOfReals(Pitches(xs), Pitches(ys));
    MeanOfReals(Yaws(xs), Yaws(ys));
  }

  lemma RpysByPart(xs: seq<Rpy>, ys: seq<Rpy>)
    ensures Rolls(xs + ys) == Rolls(xs) + Rolls(ys)
    ensures Pitches(xs + ys) == Pitches(xs) + Pitches(ys)
    ensures Yaws(xs + ys) == Yaws(xs) + Yaws(ys)
  {
  }

  /** Which blocks the calibration averages: all that are finished and what was restored beyond them,
      or, once the ring is full, all but the oldest of the last fifty. */
  function Covered(base: Pose, restored: nat, finished: seq<Pose>): seq<Pose> {
    var k := |finished|;
    if k >= INPUTS_WANTED then finished[k - (INPUTS_WANTED - 1)..]
    else finished + seq(if k + 1 < restored then restored - k - 1 else 0, _ => base)
  }

  lemma MeanIsOfCovered(c: Cal, base: Pose, restored: nat, finished: seq<Pose>)
    requires RingHolds(c, base, finished) && Counts(c, restored, finished)
    ensures var covered := Covered(base, restored, finished);
            Averaged(c) == if covered == [] then c.pose else MeanPose(covered)
  {
    hide MeanPose, Picked;
    PickedBySlices(c);
    var front, back := c.poses[..c.blockIdx], c.poses[c.blockIdx + 1..];
    if |finished| >= INPUTS_WANTED {
      assert c.poses[c.blockIdx + 1..c.validBlocks] == back;
      MeanOfParts(front, back);
    } else {
      assert Picked(c) == Covered(base, restored, finished);
    }
  }

  /** In every run, after every accepted message that does not start over, the calibration is the mean
      of the blocks covered. */
  lemma CalibrationIsMeanOfBlocks(l: Limits, saved: Option<(Pose, int)>, os: seq<Odom>, o: Odom)
    requires Sensible(l) && (saved.Some? ==> saved.value.1 <= INPUTS_WANTED)
    requires var t := Run(l, saved, os); Accepted(t.cal, o) && !Remounted(l, Midway(l, t.cal, o))
    ensures var t := Run(l, saved, os);
            var covered := Covered(t.base, t.restored, Finishing(t, Midway(l, t.cal, o)));
            Handle(l, t.cal, o).pose == if covered == [] then t.cal.pose else MeanPose(covered)
  {
    hide Run, Remounted, Covered, MeanPose, RingHolds, Counts, StatusOf;
    var t := Run(l, saved, os);
    EveryRunHolds(l, saved, os);
    MidwayHolds(l, t, o);
    UpdateKeepsRing(l, t, o);
    MeanIsOfCovered(Midway(l, t.cal, o), t.base, t.restored, Finishing(t, Midway(l, t.cal, o)));
  }

  // ---------- what a finished block can hold ----------

  predicate InClip(l: Limits, r: Rpy) {
    l.pitchLow - 0.005 <= r.pitch <= l.pitchHigh + 0.005 && l.yawLow - 0.005 <= r.yaw <= l.yawHigh + 0.005
  }

  lemma ClipIsInClip(l: Limits, o: Odom)
    requires Sensible(l)
    ensures InClip(l, Observed(l, o).rpy)
  {
  }

  lemma FirstSampleReplaces(prev: real, x: real)
    ensures Decayed(prev, x, 0) == x
  {
  }

  lemma DecayStays(prev: real, x: real, idx: nat, low: real, high: real)
    requires idx < BLOCK_SIZE && low <= x <= high && (idx > 0 ==> low <= prev <= high)
    ensures low <= Decayed(prev, x, idx) <= high
    ensures idx == 0 ==> Decayed(prev, x, idx) == x
  {
    if idx == 0 {
      FirstSampleReplaces(prev, x);
    } else {
      hide Decayed;
      var i, j := idx as real, (BLOCK_SIZE - idx) as real;
      Weighted(i, prev, low, high);
      Weighted(j, x, low, high);
      Together(i, j, low);
      Together(i, j, high);
      DecayedIs(prev, x, idx, i * prev + j * x);
      Bracket(i * prev, i * low, i * high, j * x, j * low, j * high, low, high);
    }
  }

  lemma DecayedIs(prev: real, x: real, idx: nat, sum: real)
    requires idx < BLOCK_SIZE && sum == idx as real * prev + (BLOCK_SIZE - idx) as real * x
    ensures Decayed(prev, x, idx) == sum / 100.0
  {
  }

  lemma Bracket(a: real, al: real, ah: real, b: real, bl: real, bh: real, low: real, high: real)
    requires al <= a <= ah && bl <= b <= bh && al + bl == 100.0 * low && ah + bh == 100.0 * high
    ensures low <= (a + b) / 100.0 <= high
  {
  }

  lemma Weighted(w: real, x: real, low: real, high: real)
    requires w >= 0.0 && low <= x <= high
    ensures w * low <= w * x <= w * high
  {
  }

  lemma Together(i: real, j: real, x: real)
    requires i == 100.0 - j
    ensures i * x + j * x == 100.0 * x
  {
  }

  /** Every finished block lies within the clipping range, and so does what is in progress. */
  predicate BlocksInClip(l: Limits, t: Traced)
    requires Fits(t.cal)
  {
    (t.cal.idx > 0 ==> InClip(l, t.cal.poses[t.cal.blockIdx].rpy))
    && forall k :: 0 <= k < |t.finished| ==> InClip(l, t.finished[k].rpy)
  }

  lemma SlotInClip(l: Limits, c: Cal, x: Pose)
    requires Fits(c) && InClip(l, x.rpy) && (c.idx > 0 ==> InClip(l, c.poses[c.blockIdx].rpy))
    ensures InClip(l, Sampled(c, x).poses[c.blockIdx].rpy)
    ensures Sampled(c, x).idx == 0 || Sampled(c, x).blockIdx == c.blockIdx
  {
    hide Decayed;
    var prev := c.poses[c.blockIdx];
    DecayStays(prev.rpy.pitch, x.rpy.pitch, c.idx, l.pitchLow - 0.005, l.pitchHigh + 0.005);
    DecayStays(prev.rpy.yaw, x.rpy.yaw, c.idx, l.yawLow - 0.005, l.yawHigh + 0.005);
  }

  /** The first sample of a block replaces what its slot held: angles, wide-camera angles and height. */
  lemma SlotForgets(c: Cal, x: Pose)
    requires Fits(c) && c.idx == 0
    ensures Sampled(c, x).poses[c.blockIdx] == x
  {
    hide Decayed;
    var prev := c.poses[c.blockIdx];
    RpyForgets(prev.rpy, x.rpy);
    RpyForgets(prev.wide, x.wide);
    FirstSampleReplaces(prev.height, x.height);
  }

  lemma RpyForgets(prev: Rpy, x: Rpy)
    ensures DecayedRpy(prev, x, 0) == x
  {
    hide Decayed;
    FirstSampleReplaces(prev.roll, x.roll);
    FirstSampleReplaces(prev.pitch, x.pitch);
    FirstSampleReplaces(prev.yaw, x.yaw);
  }

  lemma StepInClip(l: Limits, t: Traced, o: Odom)
    requires Sensible(l) && Fits(t.cal) && BlocksInClip(l, t)
    ensures Fits(TraceStep(l, t, o).cal) && BlocksInClip(l, TraceStep(l, t, o))
  {
    hide Remounted, StatusOf, Averaged, InClip, Observed, MovingAverage, Handle;
    ClipIsInClip(l, o);
    SlotInClip(l, t.cal.(oldWeight := Faded(t.cal.oldWeight)), Observed(l, o));
    UpdateKeepsRing(l, t, o);
  }

  lemma {:induction false} EveryFinishedBlockInClip(l: Limits, saved: Option<(Pose, int)>, os: seq<Odom>)
    requires Sensible(l) && (saved.Some? ==> saved.value.1 <= INPUTS_WANTED)
    ensures BlocksInClip(l, Run(l, saved, os))
  {
    hide TraceStep, InClip;
    if os != [] {
      EveryFinishedBlockInClip(l, saved, os[..|os| - 1]);
      StepInClip(l, Run(l, saved, os[..|os| - 1]), os[|os| - 1]);
    }
  }

  // ---------- the transition is smooth ----------

  /** Messages taken since the last restart. */
  function Taken(c: Cal, finished: seq<Pose>): nat {
    |finished| * BLOCK_SIZE + c.idx
  }

  /** The old calibration keeps a weight only for the first ten messages after a restart. */
  predicate Fading(c: Cal, finished: seq<Pose>) {
    c.oldWeight == 0.0 || 0.0 < c.oldWeight <= 1.0 - Taken(c, finished) as real / SMOOTH_CYCLES as real
  }

  lemma MidwayFades(l: Limits, t: Traced, o: Odom)
    requires Fits(t.cal) && Fading(t.cal, t.finished)
    ensures var d := Midway(l, t.cal, o); Fading(d, Finishing(t, d))
  {
    hide MovingAverage, Observed;
  }

  lemma StepFades(l: Limits, t: Traced, o: Odom)
    requires Fits(t.cal) && Fading(t.cal, t.finished)
    ensures Fits(TraceStep(l, t, o).cal) && Fading(TraceStep(l, t, o).cal, TraceStep(l, t, o).finished)
  {
    hide Remounted, StatusOf, Averaged, Handle, Midway;
    MidwayFades(l, t, o);
    UpdateKeepsRing(l, t, o);
  }

  lemma {:induction false} EveryRunFades(l: Limits, saved: Option<(Pose, int)>, os: seq<Odom>)
    requires Sensible(l) && (saved.Some? ==> saved.value.1 <= INPUTS_WANTED)
    ensures var t := Run(l, saved, os); Fading(t.cal, t.finished)
  {
    hide TraceStep, Fading;
    if os == [] {
      StartFades(l, saved);
    } else {
      EveryRunFades(l, saved, os[..|os| - 1]);
      StepFades(l, Run(l, saved, os[..|os| - 1]), os[|os| - 1]);
    }
  }

  lemma StartFades(l: Limits, saved: Option<(Pose, int)>)
    requires Sensible(l) && (saved.Some? ==> saved.value.1 <= INPUTS_WANTED)
    ensures Fading(StartOf(l, saved).cal, [])
  {
    hide Averaged, StatusOf, TooSpread;
    LoadedIsNotSpread(l, saved);
  }

  /** In every run, a message that makes the calibrator start over gives the smoothed output that it
      would have given without starting over, and the earlier transition is over by then. */
  lemma RestartIsSmooth(l: Limits, saved: Option<(Pose, int)>, os: seq<Odom>, o: Odom)
    requires Sensible(l) && (saved.Some? ==> saved.value.1 <= INPUTS_WANTED)
    requires var t := Run(l, saved, os); Accepted(t.cal, o) && Remounted(l, Midway(l, t.cal, o))
    ensures var t := Run(l, saved, os);
            var d := Midway(l, t.cal, o);
            SmoothRpy(Handle(l, t.cal, o)) == SmoothRpy(d.(pose := Averaged(d)))
            && d.oldWeight == 0.0 && Handle(l, t.cal, o).status == Recalibrating
  {
    hide Run, Remounted, Holds, Midway, Finishing, Averaged, Handle;
    var t := Run(l, saved, os);
    EveryRunHolds(l, saved, os);
    EveryRunFades(l, saved, os);
    RemountRestartsFromLastBlock(l, t, o);
    MidwayFades(l, t, o);
    UpdateKeepsRing(l, t, o);
  }
}
