/**
 When the calibration has which status, when exactly it starts over, what one block makes of its
 samples, and how the output passes from the old calibration to the new one.
 */
module CalibratorRules {
  import opened Calibration
  import opened CalibratorRuns
  import opened Options
  import opened Sums

  // ---------- the status ----------

  /** The restarts of a run. */
  function Restarts(l: Limits, saved: Option<(Pose, int)>, os: seq<Odom>): nat
    requires Sensible(l) && (saved.Some? ==> saved.value.1 <= INPUTS_WANTED)
  {
    if os == [] then 0
    else
      var t, o := Run(l, saved, os[..|os| - 1]), os[|os| - 1];
      Restarts(l, saved, os[..|os| - 1]) + if Accepted(t.cal, o) && Remounted(l, Midway(l, t.cal, o)) then 1 else 0
  }

  /** The mean lies strictly between the limits of the device. */
  predicate Within(l: Limits, r: Rpy) {
    l.pitchLow < r.pitch && r.pitch < l.pitchHigh && l.yawLow < r.yaw && r.yaw < l.yawHigh
  }

  /** Restored blocks count until more have been finished, and never more than the ring holds. */
  function ValidBlocks(t: Traced): nat {
    if |t.finished| >= 50 then 50 else if |t.finished| <= t.restored then t.restored else |t.finished|
  }

  function StatusFor(l: Limits, t: Traced, restarts: nat): Status {
    if ValidBlocks(t) >= 5 then if Within(l, t.cal.pose.rpy) then Calibrated else Invalid
    else if restarts > 0 then Recalibrating else Uncalibrated
  }

  lemma CountsAreValid(t: Traced)
    requires Holds(t)
    ensures t.cal.validBlocks == ValidBlocks(t)
  {
  }

  lemma StatusStep(l: Limits, t: Traced, o: Odom, restarts: nat)
    requires Holds(t) && t.cal.status == StatusFor(l, t, restarts)
    ensures var n := if Accepted(t.cal, o) && Remounted(l, Midway(l, t.cal, o)) then restarts + 1 else restarts;
            TraceStep(l, t, o).cal.status == StatusFor(l, TraceStep(l, t, o), n)
  {
    hide Remounted, Averaged, Midway, Handle, RingHolds, Finishing, ValidBlocks, Holds;
    HoldsFits(t);
    StepHolds(l, t, o);
    UpdateKeepsRing(l, t, o);
    CountsAreValid(t);
    var u := TraceStep(l, t, o);
    CountsAreValid(u);
    MidwayKeepsStatus(l, t.cal, o);
    if Accepted(t.cal, o) && Remounted(l, Midway(l, t.cal, o)) {
      MoreBlocksStayValid(l, t, o);
    }
  }

  lemma MidwayKeepsStatus(l: Limits, c: Cal, o: Odom)
    requires Fits(c)
    ensures Midway(l, c, o).status == c.status && Midway(l, c, o).validBlocks >= c.validBlocks
  {
    hide MovingAverage, Observed;
  }

  lemma MoreBlocksStayValid(l: Limits, t: Traced, o: Odom)
    requires Holds(t) && Accepted(t.cal, o) && Remounted(l, Midway(l, t.cal, o))
    ensures ValidBlocks(TraceStep(l, t, o)) == 1
  {
    hide Remounted, Handle, Midway;
  }

  /** At every point of every run: with five valid blocks the calibration is valid exactly if the mean is
      within the limits; with fewer it is new, or being redone if it has ever started over. */
  lemma {:induction false} StatusExactly(l: Limits, saved: Option<(Pose, int)>, os: seq<Odom>)
    requires Sensible(l) && (saved.Some? ==> saved.value.1 <= INPUTS_WANTED)
    ensures var t := Run(l, saved, os); t.cal.status == StatusFor(l, t, Restarts(l, saved, os))
  {
    hide TraceStep, StatusFor, Remounted, Midway;
    if os == [] {
      StartStatus(l, saved);
    } else {
      var before := os[..|os| - 1];
      StatusExactly(l, saved, before);
      EveryRunHolds(l, saved, before);
      StatusStep(l, Run(l, saved, before), os[|os| - 1], Restarts(l, saved, before));
    }
  }

  lemma StartStatus(l: Limits, saved: Option<(Pose, int)>)
    requires Sensible(l) && (saved.Some? ==> saved.value.1 <= INPUTS_WANTED)
    ensures StartOf(l, saved).cal.status == StatusFor(l, StartOf(l, saved), 0)
  {
    hide Averaged, TooSpread;
    LoadedIsNotSpread(l, saved);
  }

  // ---------- exactly when it starts over ----------

  lemma {:induction false} ExtremesAreThere(xs: seq<real>)
    requires xs != []
    ensures MaxOf(xs) in xs && MinOf(xs) in xs
    ensures forall k :: 0 <= k < |xs| ==> MinOf(xs) <= xs[k] <= MaxOf(xs)
  {
    if |xs| > 1 {
      var rest := xs[..|xs| - 1];
      ExtremesAreThere(rest);
      forall k | 0 <= k < |xs|
        ensures MinOf(xs) <= xs[k] <= MaxOf(xs)
      {
        if k < |rest| {
          assert rest[k] == xs[k];
        }
      }
      assert xs == rest + [xs[|xs| - 1]];
    }
  }

  /** Two of the samples are further apart than the limit. */
  ghost predicate Apart(xs: seq<real>, limit: real) {
    exists j, k :: 0 <= j < |xs| && 0 <= k < |xs| && xs[j] - xs[k] > limit
  }

  lemma SpreadIsLargest(xs: seq<real>, limit: real)
    requires limit >= 0.0
    ensures SpreadOf(xs) > limit <==> Apart(xs, limit)
  {
    if xs != [] {
      ExtremesAreThere(xs);
      var j :| 0 <= j < |xs| && xs[j] == MaxOf(xs);
      var k :| 0 <= k < |xs| && xs[k] == MinOf(xs);
      assert xs[j] - xs[k] == SpreadOf(xs);
    }
  }

  /** Two of the blocks differ in pitch or in yaw by more than a fixed mount would allow. */
  ghost predicate Disagree(l: Limits, ps: seq<Pose>) {
    exists j, k :: 0 <= j < |ps| && 0 <= k < |ps|
      && (ps[j].rpy.pitch - ps[k].rpy.pitch > l.pitchSpread || ps[j].rpy.yaw - ps[k].rpy.yaw > l.yawSpread)
  }

  lemma TooSpreadExactly(l: Limits, ps: seq<Pose>)
    requires Sensible(l)
    ensures TooSpread(l, RpysOf(ps)) <==> Disagree(l, ps)
  {
    hide SpreadOf;
    var pitches, yaws := Pitches(RpysOf(ps)), Yaws(RpysOf(ps));
    SpreadIsLargest(pitches, l.pitchSpread);
    SpreadIsLargest(yaws, l.yawSpread);
    if Disagree(l, ps) {
      var j, k :| 0 <= j < |ps| && 0 <= k < |ps|
        && (ps[j].rpy.pitch - ps[k].rpy.pitch > l.pitchSpread || ps[j].rpy.yaw - ps[k].rpy.yaw > l.yawSpread);
      assert pitches[j] - pitches[k] == ps[j].rpy.pitch - ps[k].rpy.pitch;
      assert yaws[j] - yaws[k] == ps[j].rpy.yaw - ps[k].rpy.yaw;
    }
    if Apart(pitches, l.pitchSpread) {
      var j, k :| 0 <= j < |pitches| && 0 <= k < |pitches| && pitches[j] - pitches[k] > l.pitchSpread;
      assert ps[j].rpy.pitch - ps[k].rpy.pitch > l.pitchSpread;
    }
    if Apart(yaws, l.yawSpread) {
      var j, k :| 0 <= j < |yaws| && 0 <= k < |yaws| && yaws[j] - yaws[k] > l.yawSpread;
      assert ps[j].rpy.yaw - ps[k].rpy.yaw > l.yawSpread;
    }
  }

  /** Disagreement does not depend on the order. */
  lemma SameMembersDisagree(l: Limits, ps: seq<Pose>, qs: seq<Pose>)
    requires forall p :: p in ps <==> p in qs
    ensures Disagree(l, ps) <==> Disagree(l, qs)
  {
    if Disagree(l, ps) {
      DisagreeAmong(l, ps, qs);
    }
    if Disagree(l, qs) {
      DisagreeAmong(l, qs, ps);
    }
  }

  lemma DisagreeAmong(l: Limits, ps: seq<Pose>, qs: seq<Pose>)
    requires Disagree(l, ps) && forall p :: p in ps ==> p in qs
    ensures Disagree(l, qs)
  {
    var j, k :| 0 <= j < |ps| && 0 <= k < |ps|
      && (ps[j].rpy.pitch - ps[k].rpy.pitch > l.pitchSpread || ps[j].rpy.yaw - ps[k].rpy.yaw > l.yawSpread);
    assert ps[j] in qs && ps[k] in qs;
    var m :| 0 <= m < |qs| && qs[m] == ps[j];
    var n :| 0 <= n < |qs| && qs[n] == ps[k];
  }

  lemma PickedAreCovered(c: Cal, base: Pose, restored: nat, finished: seq<Pose>)
    requires RingHolds(c, base, finished) && Counts(c, restored, finished)
    ensures forall p :: p in Picked(c) <==> p in Covered(base, restored, finished)
  {
    hide Picked;
    PickedBySlices(c);
    var front, back := c.poses[..c.blockIdx], c.poses[c.blockIdx + 1..];
    if |finished| >= INPUTS_WANTED {
      assert c.poses[c.blockIdx + 1..c.validBlocks] == back;
      assert Covered(base, restored, finished) == back + front && Picked(c) == front + back;
    } else {
      assert Picked(c) == Covered(base, restored, finished);
    }
  }

  /** The blocks that the calibration would average after this message. */
  function CoveredAfter(l: Limits, t: Traced, o: Odom): seq<Pose>
    requires Fits(t.cal)
  {
    Covered(t.base, t.restored, Finishing(t, Midway(l, t.cal, o)))
  }

  /** In every run an accepted message starts over exactly if at least five blocks are valid, their mean is
      within the limits, and two of the blocks averaged disagree by more than the allowed spread. */
  lemma RestartsExactly(l: Limits, saved: Option<(Pose, int)>, os: seq<Odom>, o: Odom)
    requires Sensible(l) && (saved.Some? ==> saved.value.1 <= INPUTS_WANTED)
    requires Accepted(Run(l, saved, os).cal, o)
    ensures var t := Run(l, saved, os);
            var d := Midway(l, t.cal, o);
            var covered := CoveredAfter(l, t, o);
            Remounted(l, d) <==>
              ValidBlocks(t.(finished := Finishing(t, d))) >= 5 && Disagree(l, covered)
              && covered != [] && Within(l, MeanPose(covered).rpy)
  {
    hide Run, Midway, Finishing, MeanPose, TooSpread, Picked, Covered, Disagree;
    var t := Run(l, saved, os);
    EveryRunHolds(l, saved, os);
    MidwayHolds(l, t, o);
    var d, finished := Midway(l, t.cal, o), Finishing(t, Midway(l, t.cal, o));
    TooSpreadExactly(l, Picked(d));
    PickedAreCovered(d, t.base, t.restored, finished);
    SameMembersDisagree(l, Picked(d), Covered(t.base, t.restored, finished));
    MeanIsOfCovered(d, t.base, t.restored, finished);
    CountsAreValid(Traced(d, t.base, t.restored, finished));
    EmptyAgrees(l);
  }

  lemma EmptyAgrees(l: Limits)
    ensures !Disagree(l, [])
  {
  }

  // ---------- what a block makes of its samples ----------

  /** A block of samples: the first one, moved towards each later one by less and less. */
  function BlockOf(xs: seq<Pose>): Pose
    requires xs != []
  {
    if |xs| == 1 then xs[0] else MovingAverage(BlockOf(xs[..|xs| - 1]), xs[|xs| - 1], |xs| - 1)
  }

  /** The samples of the block in progress. */
  function InProgress(l: Limits, saved: Option<(Pose, int)>, os: seq<Odom>): seq<Pose>
    requires Sensible(l) && (saved.Some? ==> saved.value.1 <= INPUTS_WANTED)
  {
    if os == [] then []
    else
      var before, o := os[..|os| - 1], os[|os| - 1];
      var t := Run(l, saved, before);
      if !Accepted(t.cal, o) then InProgress(l, saved, before)
      else if Midway(l, t.cal, o).idx == 0 || Remounted(l, Midway(l, t.cal, o)) then []
      else InProgress(l, saved, before) + [Observed(l, o)]
  }

  /** The current slot holds the block of the samples in progress. */
  predicate SlotHolds(c: Cal, xs: seq<Pose>)
    requires Fits(c)
  {
    c.idx == |xs| && (xs != [] ==> c.poses[c.blockIdx] == BlockOf(xs))
  }

  lemma SampleJoins(c: Cal, x: Pose, xs: seq<Pose>)
    requires Fits(c) && SlotHolds(c, xs)
    ensures Sampled(c, x).poses[c.blockIdx] == BlockOf(xs + [x])
    ensures if |xs| == 99 then Sampled(c, x).idx == 0 && Sampled(c, x).blockIdx == (c.blockIdx + 1) % 50
            else Sampled(c, x).idx == |xs| + 1 && Sampled(c, x).blockIdx == c.blockIdx
  {
    hide Decayed;
    assert (xs + [x])[..|xs|] == xs;
    if xs == [] {
      SlotForgets(c, x);
    }
  }

  lemma MidwayJoins(l: Limits, c: Cal, o: Odom, xs: seq<Pose>)
    requires Fits(c) && SlotHolds(c, xs)
    ensures var d := Midway(l, c, o);
            && d.poses[c.blockIdx] == BlockOf(xs + [Observed(l, o)])
            && (d.idx == 0 <==> |xs| == 99)
            && (d.idx != 0 ==> SlotHolds(d, xs + [Observed(l, o)]))
  {
    hide MovingAverage, Observed, BlockOf;
    SampleJoins(c.(oldWeight := Faded(c.oldWeight)), Observed(l, o), xs);
  }

  /** In every run: the slot in progress is the block of its samples, and the message that completes a
      hundred of them finishes exactly their block. */
  lemma {:induction false} EveryBlockIsOfItsSamples(l: Limits, saved: Option<(Pose, int)>, os: seq<Odom>)
    requires Sensible(l) && (saved.Some? ==> saved.value.1 <= INPUTS_WANTED)
    ensures SlotHolds(Run(l, saved, os).cal, InProgress(l, saved, os))
    ensures os != [] ==>
      var before, o := os[..|os| - 1], os[|os| - 1];
      var t, xs := Run(l, saved, before), InProgress(l, saved, before);
      Accepted(t.cal, o) && |xs| == 99 ==>
        Finishing(t, Midway(l, t.cal, o)) == t.finished + [BlockOf(xs + [Observed(l, o)])]
  {
    hide BlockOf, Observed;
    if os == [] {
      hide Averaged, StatusOf, TooSpread;
      LoadedIsNotSpread(l, saved);
    } else {
      hide TraceStep, Midway, Remounted, Handle;
      var before, o := os[..|os| - 1], os[|os| - 1];
      var t := Run(l, saved, before);
      EveryBlockIsOfItsSamples(l, saved, before);
      MidwayJoins(l, t.cal, o, InProgress(l, saved, before));
      UpdateKeepsRing(l, t, o);
      assert Run(l, saved, os) == TraceStep(l, t, o);
    }
  }

  /** The weight of sample k in a block of n: it comes in with (100 - k) hundredths, and sample j after it
      leaves j hundredths of it. */
  function Weight(k: nat, n: nat): real
    requires k < n
  {
    if n == k + 1 then (100 - k) as real / 100.0 else Weight(k, n - 1) * (n - 1) as real / 100.0
  }

  /** The first samples of a block of n, each with its weight. */
  function Weighed(xs: seq<real>, n: nat): real
    requires |xs| <= n
  {
    if xs == [] then 0.0 else Weighed(xs[..|xs| - 1], n) + Weight(|xs| - 1, n) * xs[|xs| - 1]
  }

  function Blend(xs: seq<real>): real
    requires 0 < |xs| <= 100
  {
    if |xs| == 1 then xs[0] else Decayed(Blend(xs[..|xs| - 1]), xs[|xs| - 1], |xs| - 1)
  }

  lemma {:induction false} OneMoreSample(xs: seq<real>, n: nat)
    requires |xs| <= n
    ensures Weighed(xs, n + 1) == Weighed(xs, n) * n as real / 100.0
  {
    if xs != [] {
      var rest, x, w := xs[..|xs| - 1], xs[|xs| - 1], Weight(|xs| - 1, n);
      OneMoreSample(rest, n);
      Distributes(Weighed(rest, n), w, x, n as real);
    }
  }

  lemma Distributes(a: real, w: real, x: real, n: real)
    ensures a * n / 100.0 + w * n / 100.0 * x == (a + w * x) * n / 100.0
  {
    assert w * n * x == w * x * n;
  }

  /** A block is the weighted sum of its samples. */
  lemma {:induction false} BlendIsWeighed(xs: seq<real>)
    requires 0 < |xs| <= 100
    ensures Blend(xs) == Weighed(xs, |xs|)
  {
    var n := |xs| - 1;
    var rest, x := xs[..n], xs[n];
    if n == 0 {
      assert Weight(0, 1) == 1.0;
      assert Weighed(rest, 1) == 0.0;
    } else {
      BlendIsWeighed(rest);
      OneMoreSample(rest, n);
      DecayIs(Blend(rest), x, n);
    }
  }

  lemma DecayIs(prev: real, x: real, n: nat)
    requires n < 100
    ensures Decayed(prev, x, n) == prev * n as real / 100.0 + (100 - n) as real / 100.0 * x
  {
  }

  lemma {:induction false} SameSamples(xs: seq<real>, x: real)
    requires 0 < |xs| <= 100 && forall k :: 0 <= k < |xs| ==> xs[k] == x
    ensures Blend(xs) == x
  {
    if |xs| > 1 {
      SameSamples(xs[..|xs| - 1], x);
      SameDecays(x, |xs| - 1);
    }
  }

  lemma SameDecays(x: real, n: nat)
    requires n < 100
    ensures Decayed(x, x, n) == x
  {
    DecayIs(x, x, n);
    assert x * n as real / 100.0 + (100 - n) as real / 100.0 * x == x;
  }

  function Ones(n: nat): seq<real> {
    seq(n, _ => 1.0)
  }

  /** The weights are not negative and add up to one. */
  lemma WeightsAddUp(n: nat)
    requires 0 < n <= 100
    ensures Weighed(Ones(n), n) == 1.0
    ensures forall k :: 0 <= k < n ==> Weight(k, n) >= 0.0
  {
    BlendIsWeighed(Ones(n));
    SameSamples(Ones(n), 1.0);
    forall k | 0 <= k < n
      ensures Weight(k, n) >= 0.0
    {
      WeightIsPositive(k, n);
    }
  }

  lemma {:induction false} WeightIsPositive(k: nat, n: nat)
    requires k < n <= 100
    ensures Weight(k, n) >= 0.0
  {
    if n > k + 1 {
      WeightIsPositive(k, n - 1);
      assert Weight(k, n - 1) * (n - 1) as real >= 0.0;
    }
  }

  /** So every angle and the height of a block are the weighted means of those of its samples. */
  lemma {:induction false} BlockIsWeightedMean(xs: seq<Pose>)
    requires 0 < |xs| <= 100
    ensures var b := BlockOf(xs);
            && b.height == Weighed(HeightsOf(xs), |xs|)
            && IsWeighed(b.rpy, RpysOf(xs)) && IsWeighed(b.wide, WidesOf(xs))
  {
    hide Weighed;
    BlockIsBlend(xs);
    BlendIsWeighed(HeightsOf(xs));
    BlendsAreWeighed(RpysOf(xs));
    BlendsAreWeighed(WidesOf(xs));
  }

  predicate IsWeighed(r: Rpy, rs: seq<Rpy>) {
    r == Rpy(Weighed(Rolls(rs), |rs|), Weighed(Pitches(rs), |rs|), Weighed(Yaws(rs), |rs|))
  }

  function BlendRpy(rs: seq<Rpy>): Rpy
    requires 0 < |rs| <= 100
  {
    Rpy(Blend(Rolls(rs)), Blend(Pitches(rs)), Blend(Yaws(rs)))
  }

  lemma BlendsAreWeighed(rs: seq<Rpy>)
    requires 0 < |rs| <= 100
    ensures IsWeighed(BlendRpy(rs), rs)
  {
    hide Blend, Weighed;
    BlendIsWeighed(Rolls(rs));
    BlendIsWeighed(Pitches(rs));
    BlendIsWeighed(Yaws(rs));
  }

  lemma {:induction false} BlockIsBlend(xs: seq<Pose>)
    requires 0 < |xs| <= 100
    ensures BlockOf(xs) == Pose(BlendRpy(RpysOf(xs)), BlendRpy(WidesOf(xs)), Blend(HeightsOf(xs)))
  {
    hide Decayed;
    if |xs| > 1 {
      var rest := xs[..|xs| - 1];
      BlockIsBlend(rest);
      RpysButLast(RpysOf(xs));
      RpysButLast(WidesOf(xs));
      assert RpysOf(xs)[..|rest|] == RpysOf(rest) && WidesOf(xs)[..|rest|] == WidesOf(rest);
      assert HeightsOf(xs)[..|rest|] == HeightsOf(rest);
    }
  }

  lemma RpysButLast(rs: seq<Rpy>)
    requires rs != []
    ensures var rest := rs[..|rs| - 1];
            Rolls(rs)[..|rest|] == Rolls(rest) && Pitches(rs)[..|rest|] == Pitches(rest) && Yaws(rs)[..|rest|] == Yaws(rest)
  {
  }

  // ---------- the samples ----------

  /** What is taken of an observation: inside the range as it is, outside the nearest bound, and straight
      ahead if it is not a number; a message without the other two counts as the default for them. */
  lemma ClipExactly(l: Limits, o: Odom)
    requires Sensible(l)
    ensures var r := Observed(l, o).rpy;
            var x := if o.observed.Some? then o.observed.value else Rpy(0.0, 0.0, 0.0);
            && r.roll == x.roll
            && (l.pitchLow - 0.005 <= x.pitch <= l.pitchHigh + 0.005 ==> r.pitch == x.pitch)
            && (x.pitch < l.pitchLow - 0.005 ==> r.pitch == l.pitchLow - 0.005)
            && (x.pitch > l.pitchHigh + 0.005 ==> r.pitch == l.pitchHigh + 0.005)
            && (l.yawLow - 0.005 <= x.yaw <= l.yawHigh + 0.005 ==> r.yaw == x.yaw)
            && (x.yaw < l.yawLow - 0.005 ==> r.yaw == l.yawLow - 0.005)
            && (x.yaw > l.yawHigh + 0.005 ==> r.yaw == l.yawHigh + 0.005)
    ensures Observed(l, o).wide == if o.wide.Some? then o.wide.value else Rpy(0.0, 0.0, 0.0)
    ensures Observed(l, o).height == if o.height.Some? then o.height.value else 1.22
  {
  }

  /** While a block is being filled, what is averaged stays as it is. */
  lemma PickedStays(l: Limits, c: Cal, o: Odom)
    requires Fits(c) && Midway(l, c, o).idx != 0
    ensures Picked(Midway(l, c, o)) == Picked(c)
  {
    hide MovingAverage, Observed;
    var d, at := Midway(l, c, o), ValidIdxs(c);
    assert ValidIdxs(d) == at;
    ValidIdxsExactly(c);
    forall k | 0 <= k < |at|
      ensures d.poses[at[k]] == c.poses[at[k]]
    {
      assert at[k] in at;
    }
  }

  lemma SamePickedSameVerdict(l: Limits, c: Cal, d: Cal)
    requires Fits(c) && Fits(d) && Picked(c) == Picked(d) && c.pose == d.pose
    requires c.validBlocks == d.validBlocks
    ensures Remounted(l, c) <==> Remounted(l, d)
  {
    hide Picked, TooSpread, MeanPose, IsCalibrationValid;
  }

  lemma UpdatedIsSettled(l: Limits, c: Cal)
    requires Fits(c)
    ensures Fits(StatusUpdated(l, c)) && !Remounted(l, StatusUpdated(l, c))
  {
    hide TooSpread, MeanPose, IsCalibrationValid;
    var d := StatusUpdated(l, c);
    if !Remounted(l, c) {
      assert Picked(d) == Picked(c);
      hide Picked;
    }
  }

  lemma FadingChangesNothing(l: Limits, c: Cal, d: Cal)
    requires Fits(c) && d == c.(oldWeight := d.oldWeight)
    ensures Remounted(l, c) <==> Remounted(l, d)
  {
    assert Picked(d) == Picked(c);
    hide Picked, TooSpread, MeanPose, IsCalibrationValid;
  }

  lemma {:induction false} RunIsSettled(l: Limits, saved: Option<(Pose, int)>, os: seq<Odom>)
    requires Sensible(l) && (saved.Some? ==> saved.value.1 <= INPUTS_WANTED)
    ensures !Remounted(l, Run(l, saved, os).cal)
  {
    hide Remounted, Averaged, Midway, StatusUpdated;
    if os == [] {
      LoadedIsNotSpread(l, saved);
      UpdatedIsSettled(l, Loaded(saved));
    } else {
      var before, o := os[..|os| - 1], os[|os| - 1];
      var t := Run(l, saved, before);
      RunIsSettled(l, saved, before);
      UpdatedIsSettled(l, Midway(l, t.cal, o));
      FadingChangesNothing(l, t.cal, t.cal.(oldWeight := Faded(t.cal.oldWeight)));
      TakenIsUpdated(l, t.cal, o);
    }
  }

  lemma TakenIsUpdated(l: Limits, c: Cal, o: Odom)
    requires Fits(c)
    ensures Handle(l, c, o)
            == if Accepted(c, o) then StatusUpdated(l, Midway(l, c, o)) else c.(oldWeight := Faded(c.oldWeight))
  {
  }

  /** The calibration starts over only with a message that finishes a block. */
  lemma RestartFinishesBlock(l: Limits, saved: Option<(Pose, int)>, os: seq<Odom>, o: Odom)
    requires Sensible(l) && (saved.Some? ==> saved.value.1 <= INPUTS_WANTED)
    requires var c := Run(l, saved, os).cal; Accepted(c, o) && Remounted(l, Midway(l, c, o))
    ensures Run(l, saved, os).cal.idx == 99
  {
    hide Run, Remounted, MovingAverage, Observed, Picked;
    var c := Run(l, saved, os).cal;
    if Midway(l, c, o).idx != 0 {
      RunIsSettled(l, saved, os);
      PickedStays(l, c, o);
      SamePickedSameVerdict(l, c, Midway(l, c, o));
    }
  }

  lemma MidwayMoves(l: Limits, c: Cal, o: Odom)
    requires Fits(c) && (Remounted(l, Midway(l, c, o)) ==> c.idx == 99)
    ensures StatusUpdated(l, Midway(l, c, o)).idx != c.idx
  {
    hide Remounted, Averaged, MovingAverage, Observed, StatusOf;
  }

  lemma RunOneMore(l: Limits, saved: Option<(Pose, int)>, os: seq<Odom>, o: Odom)
    requires Sensible(l) && (saved.Some? ==> saved.value.1 <= INPUTS_WANTED)
    ensures Run(l, saved, os + [o]) == TraceStep(l, Run(l, saved, os), o)
  {
    hide TraceStep;
    assert (os + [o])[..|os|] == os;
  }

  /** In every run, a message is left out exactly if the car is not going straight and fast, or the
      observation is uncertain and five blocks are there; it then only fades the old calibration. */
  lemma LeftOutExactly(l: Limits, saved: Option<(Pose, int)>, os: seq<Odom>, o: Odom)
    requires Sensible(l) && (saved.Some? ==> saved.value.1 <= INPUTS_WANTED)
    ensures var t, u := Run(l, saved, os), Run(l, saved, os + [o]);
            var left := !o.straightAndFast || (!o.certain && ValidBlocks(t) >= 5);
            && (left <==> u.cal.idx == t.cal.idx)
            && (left ==> u == t.(cal := t.cal.(oldWeight := u.cal.oldWeight)))
  {
    hide Remounted, Midway, StatusUpdated, Finishing, Run, Holds, ValidBlocks, Faded;
    EveryRunHolds(l, saved, os);
    RunOneMore(l, saved, os, o);
    var t := Run(l, saved, os);
    CountsAreValid(t);
    TakenIsUpdated(l, t.cal, o);
    if Accepted(t.cal, o) {
      if Remounted(l, Midway(l, t.cal, o)) {
        RestartFinishesBlock(l, saved, os, o);
      }
      MidwayMoves(l, t.cal, o);
    }
  }

  // ---------- from the old calibration to the new ----------

  /** Fades by a tenth with every message, taken or not. */
  function Tenths(n: nat): real {
    if n >= 10 then 0.0 else 1.0 - n as real / 10.0
  }

  lemma TenthsFall(n: nat)
    ensures Faded(Tenths(n)) == Tenths(n + 1)
  {
  }

  /** No message from `from` on starts over. */
  ghost predicate NoRestart(l: Limits, saved: Option<(Pose, int)>, os: seq<Odom>, from: nat)
    requires Sensible(l) && (saved.Some? ==> saved.value.1 <= INPUTS_WANTED)
  {
    forall k :: from <= k < |os| ==>
      !(Accepted(Run(l, saved, os[..k]).cal, os[k]) && Remounted(l, Midway(l, Run(l, saved, os[..k]).cal, os[k])))
  }

  /** The restart happened in the last of the messages before `from`. */
  predicate JustRestarted(l: Limits, saved: Option<(Pose, int)>, os: seq<Odom>)
    requires Sensible(l) && (saved.Some? ==> saved.value.1 <= INPUTS_WANTED)
  {
    os != []
    && var t := Run(l, saved, os[..|os| - 1]);
       Accepted(t.cal, os[|os| - 1]) && Remounted(l, Midway(l, t.cal, os[|os| - 1]))
  }

  lemma {:induction false} WeightFades(l: Limits, saved: Option<(Pose, int)>, os: seq<Odom>, from: nat)
    requires Sensible(l) && (saved.Some? ==> saved.value.1 <= INPUTS_WANTED)
    requires from <= |os| && JustRestarted(l, saved, os[..from]) && NoRestart(l, saved, os, from)
    ensures var before := Run(l, saved, os[..from - 1]);
            var c := Run(l, saved, os).cal;
            c.oldWeight == Tenths(|os| - from)
            && c.oldRpy == Averaged(Midway(l, before.cal, os[from - 1])).rpy
    decreases |os|
  {
    hide TraceStep, Midway, Remounted, Averaged, Faded, Handle;
    var n := |os| - 1;
    var t, o := Run(l, saved, os[..n]), os[n];
    assert Run(l, saved, os) == TraceStep(l, t, o);
    UpdateKeepsRing(l, t, o);
    if from == |os| {
      assert os[..from] == os && os[..from - 1] == os[..n];
    } else {
      assert os[..n][..from] == os[..from] && os[..n][..from - 1] == os[..from - 1];
      forall k | from <= k < n
        ensures !(Accepted(Run(l, saved, os[..n][..k]).cal, os[..n][k])
                  && Remounted(l, Midway(l, Run(l, saved, os[..n][..k]).cal, os[..n][k])))
      {
        assert os[..n][..k] == os[..k];
      }
      WeightFades(l, saved, os[..n], from);
      TenthsFall(n - from);
      MidwayFadesOnce(l, t.cal, o);
    }
  }

  lemma MidwayFadesOnce(l: Limits, c: Cal, o: Odom)
    requires Fits(c)
    ensures Midway(l, c, o).oldWeight == Faded(c.oldWeight) && Midway(l, c, o).oldRpy == c.oldRpy
  {
    hide MovingAverage, Observed, Faded;
  }

  function Mixed(w: real, a: Rpy, b: Rpy): Rpy {
    Rpy(w * a.roll + (1.0 - w) * b.roll, w * a.pitch + (1.0 - w) * b.pitch, w * a.yaw + (1.0 - w) * b.yaw)
  }

  /** After a restart the output passes in ten messages from the calibration there was to the new one, a
      tenth at a time, and then is the new one. */
  lemma OutputPassesInTen(l: Limits, saved: Option<(Pose, int)>, os: seq<Odom>, from: nat)
    requires Sensible(l) && (saved.Some? ==> saved.value.1 <= INPUTS_WANTED)
    requires from <= |os| && JustRestarted(l, saved, os[..from]) && NoRestart(l, saved, os, from)
    ensures var before := Run(l, saved, os[..from - 1]);
            var was := Averaged(Midway(l, before.cal, os[from - 1])).rpy;
            var c, n := Run(l, saved, os).cal, |os| - from;
            SmoothRpy(c) == if n >= 10 then c.pose.rpy else Mixed((10 - n) as real / 10.0, was, c.pose.rpy)
  {
    hide Run, Averaged, Midway, NoRestart, JustRestarted;
    WeightFades(l, saved, os, from);
    var n := |os| - from;
    if n < 10 {
      assert (10 - n) as real / 10.0 == Tenths(n);
    }
  }
}
