/**
 The block bookkeeping of the camera calibration (selfdrive/locationd/calibrationd.py, `Calibrator`).
 A new observation is an arbitrary rotation, or none when it is not a number. The three arrays of the
 source, which are always written at the same place, are one sequence here.
 */
module Calibration {
  import opened Options
  import opened Sums

  const BLOCK_SIZE := 100
  const INPUTS_NEEDED := 5
  const INPUTS_WANTED := 50
  const SMOOTH_CYCLES := 10

  datatype Rpy = Rpy(roll: real, pitch: real, yaw: real)

  const RPY_INIT := Rpy(0.0, 0.0, 0.0)
  const HEIGHT_INIT := 1.22

  /** What is calibrated: the device, the wide camera relative to it, and its height. */
  datatype Pose = Pose(rpy: Rpy, wide: Rpy, height: real)

  const POSE_INIT := Pose(RPY_INIT, RPY_INIT, HEIGHT_INIT)

  /** The limits depend on the device, the spreads are angles. */
  datatype Limits = Limits(
    pitchLow: real, pitchHigh: real, yawLow: real, yawHigh: real, pitchSpread: real, yawSpread: real)

  predicate Sensible(l: Limits) {
    l.pitchLow <= l.pitchHigh && l.yawLow <= l.yawHigh && l.pitchSpread >= 0.0 && l.yawSpread >= 0.0
  }

  datatype Status = Uncalibrated | Calibrated | Invalid | Recalibrating

  predicate IsCalibrationValid(l: Limits, r: Rpy) {
    l.pitchLow < r.pitch < l.pitchHigh && l.yawLow < r.yaw < l.yawHigh
  }

  function Clip(x: real, low: real, high: real): real {
    if x < low then low else if x > high then high else x
  }

  function SanityClip(l: Limits, observed: Option<Rpy>): Rpy {
    var r := if observed.Some? then observed.value else RPY_INIT;
    Rpy(r.roll, Clip(r.pitch, l.pitchLow - 0.005, l.pitchHigh + 0.005),
        Clip(r.yaw, l.yawLow - 0.005, l.yawHigh + 0.005))
  }

  function Decayed(prev: real, x: real, idx: nat): real {
    (idx as real * prev + (BLOCK_SIZE - idx) as real * x) / BLOCK_SIZE as real
  }

  function DecayedRpy(prev: Rpy, x: Rpy, idx: nat): Rpy {
    Rpy(Decayed(prev.roll, x.roll, idx), Decayed(prev.pitch, x.pitch, idx), Decayed(prev.yaw, x.yaw, idx))
  }

  function MovingAverage(prev: Pose, x: Pose, idx: nat): Pose {
    Pose(DecayedRpy(prev.rpy, x.rpy, idx), DecayedRpy(prev.wide, x.wide, idx), Decayed(prev.height, x.height, idx))
  }

  // ---------- means and spreads ----------

  function MeanRpy(rs: seq<Rpy>): Rpy
    requires rs != []
  {
    Rpy(Mean(Rolls(rs)), Mean(Pitches(rs)), Mean(Yaws(rs)))
  }

  function RpysOf(ps: seq<Pose>): seq<Rpy> {
    seq(|ps|, k requires 0 <= k < |ps| => ps[k].rpy)
  }

  function WidesOf(ps: seq<Pose>): seq<Rpy> {
    seq(|ps|, k requires 0 <= k < |ps| => ps[k].wide)
  }

  function HeightsOf(ps: seq<Pose>): seq<real> {
    seq(|ps|, k requires 0 <= k < |ps| => ps[k].height)
  }

  function MeanPose(ps: seq<Pose>): Pose
    requires ps != []
  {
    Pose(MeanRpy(RpysOf(ps)), MeanRpy(WidesOf(ps)), Mean(HeightsOf(ps)))
  }

  function MinOf(xs: seq<real>): real
    requires xs != []
  {
    if |xs| == 1 then xs[0]
    else
      var m := MinOf(xs[..|xs| - 1]);
      if xs[|xs| - 1] < m then xs[|xs| - 1] else m
  }

  function Abs(x: real): real {
    if x < 0.0 then -x else x
  }

  function SpreadOf(xs: seq<real>): real {
    if xs == [] then 0.0 else Abs(MaxOf(xs) - MinOf(xs))
  }

  function Rolls(rs: seq<Rpy>): seq<real> {
    seq(|rs|, k requires 0 <= k < |rs| => rs[k].roll)
  }

  function Pitches(rs: seq<Rpy>): seq<real> {
    seq(|rs|, k requires 0 <= k < |rs| => rs[k].pitch)
  }

  function Yaws(rs: seq<Rpy>): seq<real> {
    seq(|rs|, k requires 0 <= k < |rs| => rs[k].yaw)
  }

  predicate TooSpread(l: Limits, rs: seq<Rpy>) {
    SpreadOf(Pitches(rs)) > l.pitchSpread || SpreadOf(Yaws(rs)) > l.yawSpread
  }

  // ---------- the object as values ----------

  /** The values of the object's fields. */
  datatype Cal = Cal(
    poses: seq<Pose>, pose: Pose, idx: nat, blockIdx: nat, validBlocks: nat, status: Status,
    oldRpy: Rpy, oldWeight: real)

  function Reset(from: Pose, validBlocks: int, smoothFrom: Option<Rpy>, status: Status): Cal {
    Cal(seq(INPUTS_WANTED, _ => from), from, 0, 0, if validBlocks < 0 then 0 else validBlocks, status,
        if smoothFrom.Some? then smoothFrom.value else RPY_INIT, if smoothFrom.Some? then 1.0 else 0.0)
  }

  predicate Fits(c: Cal) {
    |c.poses| == INPUTS_WANTED && c.idx < BLOCK_SIZE && c.blockIdx < INPUTS_WANTED
    && c.blockIdx <= c.validBlocks <= INPUTS_WANTED
  }

  function Range(from: nat, to: nat): seq<nat> {
    if from >= to then [] else seq(to - from, k requires 0 <= k < to - from => from + k)
  }

  function Min(a: nat, b: nat): nat {
    if a < b then a else b
  }

  function ValidIdxs(c: Cal): (at: seq<nat>)
    ensures Fits(c) ==> forall k :: 0 <= k < |at| ==> at[k] < INPUTS_WANTED
  {
    Range(0, c.blockIdx) + Range(Min(c.validBlocks, c.blockIdx + 1), c.validBlocks)
  }

  function Picked(c: Cal): seq<Pose>
    requires Fits(c)
  {
    var at := ValidIdxs(c);
    seq(|at|, k requires 0 <= k < |at| => c.poses[at[k]])
  }

  function Averaged(c: Cal): Pose
    requires Fits(c)
  {
    if Picked(c) == [] then c.pose else MeanPose(Picked(c))
  }

  function StatusOf(l: Limits, c: Cal, rpy: Rpy): Status {
    if c.validBlocks < INPUTS_NEEDED then if c.status == Recalibrating then Recalibrating else Uncalibrated
    else if IsCalibrationValid(l, rpy) then Calibrated
    else Invalid
  }

  /** Python's index -1 is the last one. */
  function Previous(i: nat): nat {
    if i == 0 then INPUTS_WANTED - 1 else i - 1
  }

  predicate Remounted(l: Limits, c: Cal)
    requires Fits(c)
  {
    TooSpread(l, RpysOf(Picked(c))) && StatusOf(l, c, Averaged(c).rpy) == Calibrated
  }

  function StatusUpdated(l: Limits, c: Cal): Cal
    requires Fits(c)
  {
    var pose := Averaged(c);
    if Remounted(l, c) then
      Reset(POSE_INIT.(rpy := c.poses[Previous(c.blockIdx)].rpy), 1, Some(pose.rpy), Recalibrating)
    else c.(pose := pose, status := StatusOf(l, c, pose.rpy))
  }

  function Faded(weight: real): real {
    var w := weight - 1.0 / SMOOTH_CYCLES as real;
    if w < 0.0 then 0.0 else w
  }

  /** One camera-odometry message: what the filters say of it, the observation, and the wide-camera angles
      and the height if the message has them. */
  datatype Odom = Odom(
    straightAndFast: bool, certain: bool, observed: Option<Rpy>, wide: Option<Rpy>, height: Option<real>)

  function Observed(l: Limits, o: Odom): Pose {
    Pose(SanityClip(l, o.observed), if o.wide.Some? then o.wide.value else RPY_INIT,
         if o.height.Some? then o.height.value else HEIGHT_INIT)
  }

  predicate Accepted(c: Cal, o: Odom) {
    o.straightAndFast && (o.certain || c.validBlocks < INPUTS_NEEDED)
  }

  /** The sample enters the current slot, and a completed block moves the slot on. */
  function Sampled(c: Cal, x: Pose): Cal
    requires Fits(c)
  {
    var d := c.(poses := c.poses[c.blockIdx := MovingAverage(c.poses[c.blockIdx], x, c.idx)]);
    if c.idx + 1 < BLOCK_SIZE then d.(idx := c.idx + 1)
    else
      d.(idx := 0, blockIdx := (c.blockIdx + 1) % INPUTS_WANTED,
         validBlocks := if c.validBlocks < c.blockIdx + 1 then c.blockIdx + 1 else c.validBlocks)
  }

  lemma SampledFits(c: Cal, x: Pose)
    requires Fits(c)
    ensures Fits(Sampled(c, x))
  {
  }

  function Handle(l: Limits, c: Cal, o: Odom): Cal
    requires Fits(c)
  {
    var d := c.(oldWeight := Faded(c.oldWeight));
    if Accepted(c, o) then
      SampledFits(d, Observed(l, o));
      StatusUpdated(l, Sampled(d, Observed(l, o)))
    else d
  }

  function SmoothRpy(c: Cal): Rpy {
    if c.oldWeight > 0.0 then
      var w := c.oldWeight;
      Rpy(w * c.oldRpy.roll + (1.0 - w) * c.pose.rpy.roll, w * c.oldRpy.pitch + (1.0 - w) * c.pose.rpy.pitch,
          w * c.oldRpy.yaw + (1.0 - w) * c.pose.rpy.yaw)
    else c.pose.rpy
  }

  // ---------- the object in place ----------

  class Calibrator {
    const limits: Limits
    var poses: seq<Pose>
    var pose: Pose
    var idx: nat
    var blockIdx: nat
    var validBlocks: nat
    var calStatus: Status
    var oldRpy: Rpy
    var oldRpyWeight: real

    ghost function View(): Cal
      reads this
    {
      Cal(poses, pose, idx, blockIdx, validBlocks, calStatus, oldRpy, oldRpyWeight)
    }

    /** `saved` is the calibration stored by an earlier run, which wrote at most 50 blocks. */
    constructor (limits: Limits, saved: Option<(Pose, int)>)
      requires saved.Some? ==> saved.value.1 <= INPUTS_WANTED
      ensures this.limits == limits && Fits(View())
      ensures View() == StatusUpdated(limits, Loaded(saved))
    {
      this.limits := limits;
      calStatus := Uncalibrated;
      new;
      var (init, blocks) := if saved.Some? then saved.value else (POSE_INIT, 0);
      ResetFrom(init, blocks, None);
      UpdateStatus();
    }

    method ResetFrom(poseInit: Pose, blocks: int, smoothFrom: Option<Rpy>)
      modifies this
      ensures View() == Reset(poseInit, blocks, smoothFrom, old(calStatus))
    {
      pose := poseInit;
      validBlocks := if blocks < 0 then 0 else blocks;
      poses := seq(INPUTS_WANTED, _ => poseInit);
      idx, blockIdx := 0, 0;
      if smoothFrom == None {
        oldRpy, oldRpyWeight := RPY_INIT, 0.0;
      } else {
        oldRpy, oldRpyWeight := smoothFrom.value, 1.0;
      }
    }

    method UpdateStatus()
      requires Fits(View())
      modifies this
      ensures Fits(View()) && View() == StatusUpdated(limits, old(View()))
    {
      hide TooSpread, Picked, MeanPose, IsCalibrationValid;
      var picked := Picked(Cal(poses, pose, idx, blockIdx, validBlocks, calStatus, oldRpy, oldRpyWeight));
      if picked != [] {
        pose := MeanPose(picked);
      }
      if validBlocks < INPUTS_NEEDED {
        calStatus := if calStatus == Recalibrating then Recalibrating else Uncalibrated;
      } else if IsCalibrationValid(limits, pose.rpy) {
        calStatus := Calibrated;
      } else {
        calStatus := Invalid;
      }
      if TooSpread(limits, RpysOf(picked)) && calStatus == Calibrated {
        ResetFrom(POSE_INIT.(rpy := poses[Previous(blockIdx)].rpy), 1, Some(pose.rpy));
        calStatus := Recalibrating;
      }
    }

    method HandleCamOdom(o: Odom)
      requires Fits(View())
      modifies this
      ensures Fits(View()) && View() == Handle(limits, old(View()), o)
    {
      hide StatusUpdated, Observed, MovingAverage;
      oldRpyWeight := if oldRpyWeight - 1.0 / SMOOTH_CYCLES as real < 0.0 then 0.0
                      else oldRpyWeight - 1.0 / SMOOTH_CYCLES as real;
      if !(o.straightAndFast && (o.certain || validBlocks < INPUTS_NEEDED)) {
        return;
      }
      var newPose := Observed(limits, o);
      poses := poses[blockIdx := MovingAverage(poses[blockIdx], newPose, idx)];
      idx := (idx + 1) % BLOCK_SIZE;
      if idx == 0 {
        blockIdx := blockIdx + 1;
        validBlocks := if validBlocks < blockIdx then blockIdx else validBlocks;
        blockIdx := blockIdx % INPUTS_WANTED;
      }
      UpdateStatus();
    }
  }

  function Loaded(saved: Option<(Pose, int)>): Cal {
    if saved.Some? then Reset(saved.value.0, saved.value.1, None, Uncalibrated)
    else Reset(POSE_INIT, 0, None, Uncalibrated)
  }
}
