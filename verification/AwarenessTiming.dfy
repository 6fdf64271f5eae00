/**
 When awareness moves, and how fast: exactly which steps lower or raise it, in terms of the inputs,
 and the schedule of alerts a driver sees who stays distracted, whose face stays out of sight, or who
 looks at the road again. Times are counted in steps, 20 to a second.
 */
module AwarenessTiming {
  import opened DriverMonitoringModel
  import opened AwarenessRuns

  // ---------- taking in a face ----------

  /** A face seen with certainty has just cleared the count of uncertain ones. */
  predicate FaceFits(s: State) {
    s.face.detected && s.face.lowStd ==> s.hiStds == 0
  }

  lemma UpdateEventsKeepsFace(s: State, i: Input, alwaysOn: bool)
    ensures var t := UpdateEvents(s, i, alwaysOn).0;
            t.face == s.face && t.hiStds == s.hiStds && t.stepChange == s.stepChange && t.active == s.active
            && t.thresholdPre == s.thresholdPre && t.thresholdPrompt == s.thresholdPrompt
  {
    hide ResetsFirst, Attentive, Alert;
    CountingKeepsFace(Lockout(s), s.awareness, i, alwaysOn);
    CountingKeepsFace(Recover(Lockout(s)), s.awareness, i, alwaysOn);
  }

  lemma CountingKeepsFace(s: State, prev: real, i: Input, alwaysOn: bool)
    ensures var t := CountTerminal(CountDown(s, i, alwaysOn), prev);
            t == s.(awareness := t.awareness, terminalTime := t.terminalTime, terminalAlertCnt := t.terminalAlertCnt)
  {
  }

  lemma {:induction false} ReachableFaceFits(saved: bool, ins: seq<Frame>)
    ensures FaceFits(After(saved, ins))
  {
    hide UpdateEvents;
    if ins != [] {
      var s, f := After(saved, ins[..|ins| - 1]), ins[|ins| - 1];
      ReachableFaceFits(saved, ins[..|ins| - 1]);
      UpdateEventsKeepsFace(UpdateStates(s, f.input), f.input, f.alwaysOn);
    }
  }

  /** From the orange distraction alert on, and from any red one, the mode no longer changes. */
  predicate ModeLocked(s: State) {
    (s.active && s.awareness <= 6.0 / 11.0) || s.awareness <= 0.0
  }

  predicate WantsActive(s: State, i: Input) {
    i.face.detected && s.hiStds <= 200
  }

  /** The mode and the size of a step after a face has been taken in. */
  lemma ModeExactly(s: State, i: Input)
    requires Good(s) && i.hasFace
    ensures var u := UpdateStates(s, i);
            && u.active == (if ModeLocked(s) then s.active else WantsActive(s, i))
            && u.stepChange == (if !u.active then 1.0 / 600.0
                                else if ModeLocked(s) && !WantsActive(s, i) then 0.0 else 1.0 / 220.0)
            && u.face == i.face
            && u.hiStds == (if i.face.detected && i.face.lowStd then 0
                            else s.hiStds + if i.face.detected && !i.face.distracted then 1 else 0)
  {
  }

  // ---------- exactly which steps move awareness ----------

  /** The driver is seen to be distracted, or cannot be seen for certain. */
  predicate NotWatching(u: State) {
    (u.face.detected && u.face.distracted && u.face.filter > 0.63) || !u.face.detected || u.hiStds > 200
  }

  predicate OnlyAlwaysOn(i: Input, alwaysOn: bool) {
    alwaysOn && !i.wrongGear && !i.opEngaged
  }

  /** Monitoring is on: engaged, or always-on monitoring short of red. */
  predicate Monitored(u: State, i: Input, alwaysOn: bool) {
    i.opEngaged || (OnlyAlwaysOn(i, alwaysOn) && u.awareness > 0.0)
  }

  /** The step would bring an alert that the circumstances forbid. */
  predicate Spared(u: State, i: Input, alwaysOn: bool) {
    var reached := u.awareness - u.stepChange;
    var orange := if u.active then 6.0 / 11.0 else 1.0 / 5.0;
    || (i.standstill && reached <= orange)
    || (OnlyAlwaysOn(i, alwaysOn) && i.carSpeed < 11.0 && reached <= orange)
    || (OnlyAlwaysOn(i, alwaysOn) && reached <= 0.0)
  }

  /** A hand on the wheel or a foot on the gas answers the passive countdown. */
  predicate Touched(u: State, i: Input) {
    i.driverEngaged && !u.active && u.awareness > 0.0
  }

  predicate Lowers(u: State, i: Input, alwaysOn: bool) {
    && u.awareness > -0.1 && u.stepChange > 0.0
    && NotWatching(u) && Monitored(u, i, alwaysOn) && !Touched(u, i) && !Spared(u, i, alwaysOn)
  }

  /** The driver looks at the road, and is seen to. */
  predicate Watching(u: State) {
    u.face.detected && u.face.lowStd && u.face.filter < 0.37
  }

  /** The step ends at full awareness with both saved values full. */
  predicate StartsOver(u: State, i: Input, alwaysOn: bool) {
    Touched(u, i) || !Monitored(u, i, alwaysOn) || (Watching(u) && i.driverEngaged && u.awareness > 0.0)
  }

  predicate Recovers(u: State, i: Input, alwaysOn: bool) {
    Watching(u) && u.awareness > 0.0 && !StartsOver(u, i, alwaysOn)
  }

  function Gain(u: State): real {
    (5.0 - 3.75 * u.awareness) * u.stepChange
  }

  lemma LockoutMovesNothing(u: State)
    ensures var t := Lockout(u); t == u.(tooDistracted := t.tooDistracted)
  {
  }

  lemma SameFace(u: State, v: State)
    requires u.face == v.face && u.hiStds == v.hiStds
    ensures Watching(u) == Watching(v) && FaceFits(u) == FaceFits(v)
  {
  }

  lemma OtherwiseMonitored(u: State, i: Input, alwaysOn: bool)
    requires !StartsOver(u, i, alwaysOn)
    ensures Monitored(u, i, alwaysOn) && !Touched(u, i)
  {
  }

  lemma CountDownExactly(u: State, i: Input, alwaysOn: bool)
    requires Good(u) && Monitored(u, i, alwaysOn) && !Touched(u, i)
    ensures CountDown(u, i, alwaysOn).awareness
            == if Lowers(u, i, alwaysOn) then Max(u.awareness - u.stepChange, -0.1) else u.awareness
  {
  }

  lemma WatchingIsNotLowered(u: State, i: Input, alwaysOn: bool)
    requires FaceFits(u) && Watching(u)
    ensures CountDown(u, i, alwaysOn) == u && !NotWatching(u)
  {
  }

  lemma RecoverExactly(u: State)
    ensures Recover(u).awareness == Min(u.awareness + Gain(u), 1.0)
    ensures Recover(u).face == u.face && Recover(u).hiStds == u.hiStds
  {
    var gain := (RECOVERY_FACTOR_MAX - RECOVERY_FACTOR_MIN) * (1.0 - u.awareness) + RECOVERY_FACTOR_MIN;
    assert gain == 5.0 - 3.75 * u.awareness;
    assert gain * u.stepChange == Gain(u);
  }

  lemma CountTerminalKeeps(s: State, prev: real)
    ensures CountTerminal(s, prev).awareness == s.awareness
  {
  }

  lemma StartsOverIsTested(u: State, i: Input, alwaysOn: bool)
    ensures StartsOver(u, i, alwaysOn) <==> ResetsFirst(u, i, alwaysOn) || (Attentive(u) && i.driverEngaged)
    ensures Attentive(u) <==> Watching(u) && u.awareness > 0.0
  {
  }

  /** Which of the three a step does, if any. */
  lemma OnlyOneHappens(u: State, i: Input, alwaysOn: bool)
    requires FaceFits(u)
    ensures Lowers(u, i, alwaysOn) ==> !StartsOver(u, i, alwaysOn) && !Recovers(u, i, alwaysOn)
    ensures Lowers(u, i, alwaysOn) ==> Max(u.awareness - u.stepChange, -0.1) < u.awareness
  {
  }

  function Moved(u: State, i: Input, alwaysOn: bool): real {
    if StartsOver(u, i, alwaysOn) then 1.0
    else if Recovers(u, i, alwaysOn) then Min(u.awareness + Gain(u), 1.0)
    else if Lowers(u, i, alwaysOn) then Max(u.awareness - u.stepChange, -0.1)
    else u.awareness
  }

  lemma UpdateAwarenessExactly(u: State, locked: set<Event>, i: Input, alwaysOn: bool)
    requires Good(u) && FaceFits(u)
    ensures UpdateAwareness(u, locked, i, alwaysOn).0.awareness == Moved(u, i, alwaysOn)
  {
    hide Recover, CountDown, CountTerminal, Lowers, Gain, StartsOver, ResetsFirst, Attentive, Watching, Good, Alert;
    StartsOverIsTested(u, i, alwaysOn);
    RecoverExactly(u);
    OnlyOneHappens(u, i, alwaysOn);
    CountTerminalKeeps(CountDown(u, i, alwaysOn), u.awareness);
    CountTerminalKeeps(CountDown(Recover(u), i, alwaysOn), u.awareness);
    if Watching(u) {
      SameFace(u, Recover(u));
      WatchingIsNotLowered(Recover(u), i, alwaysOn);
    }
    if !StartsOver(u, i, alwaysOn) {
      OtherwiseMonitored(u, i, alwaysOn);
      CountDownExactly(u, i, alwaysOn);
    }
  }

  lemma MovedIgnoresLockout(u: State, t: State, i: Input, alwaysOn: bool)
    requires t == u.(tooDistracted := t.tooDistracted)
    ensures Moved(t, i, alwaysOn) == Moved(u, i, alwaysOn)
  {
    assert Gain(t) == Gain(u);
  }

  lemma UpdateEventsExactly(u: State, i: Input, alwaysOn: bool)
    requires Good(u) && FaceFits(u)
    ensures UpdateEvents(u, i, alwaysOn).0.awareness == Moved(u, i, alwaysOn)
  {
    hide UpdateAwareness, Moved;
    LockoutMovesNothing(u);
    MovedIgnoresLockout(u, Lockout(u), i, alwaysOn);
    UpdateAwarenessExactly(Lockout(u), LockoutEvents(Lockout(u), alwaysOn), i, alwaysOn);
  }

  /** The saved passive value rises only on steps that start over or recover to full awareness. */
  lemma UpdateEventsPassive(u: State, i: Input, alwaysOn: bool)
    requires Good(u) && FaceFits(u)
    ensures var t := UpdateEvents(u, i, alwaysOn).0;
            && (StartsOver(u, i, alwaysOn) ==> t.awarenessActive == 1.0 && t.awarenessPassive == 1.0)
            && (!StartsOver(u, i, alwaysOn) ==> t.awarenessActive == u.awarenessActive)
            && (Recovers(u, i, alwaysOn) ==>
                  t.awarenessPassive
                  == if t.awareness == 1.0 then Min(u.awarenessPassive + u.stepChange, 1.0) else u.awarenessPassive)
            && (!StartsOver(u, i, alwaysOn) && !Recovers(u, i, alwaysOn) ==> t.awarenessPassive == u.awarenessPassive)
  {
    hide CountDown, CountTerminal, StartsOver, ResetsFirst, Attentive, Watching, Good, Alert;
    LockoutMovesNothing(u);
    var v := Lockout(u);
    StartsOverIsTested(u, i, alwaysOn);
    StartsOverIsTested(v, i, alwaysOn);
    StartsOverIgnoresLockout(u, v, i, alwaysOn);
    CountingKeepsFace(v, v.awareness, i, alwaysOn);
    CountingKeepsFace(Recover(v), v.awareness, i, alwaysOn);
    if Watching(u) {
      SameFace(u, Recover(v));
      WatchingIsNotLowered(Recover(v), i, alwaysOn);
    }
    CountTerminalKeeps(CountDown(Recover(v), i, alwaysOn), v.awareness);
  }

  lemma StartsOverIgnoresLockout(u: State, t: State, i: Input, alwaysOn: bool)
    requires t == u.(tooDistracted := t.tooDistracted)
    ensures StartsOver(t, i, alwaysOn) == StartsOver(u, i, alwaysOn)
    ensures Attentive(t) == Attentive(u) && ResetsFirst(t, i, alwaysOn) == ResetsFirst(u, i, alwaysOn)
  {
  }

  lemma TakingInKeepsFace(s: State, i: Input)
    requires FaceFits(s)
    ensures FaceFits(UpdateStates(s, i))
  {
  }

  lemma GainIsPositive(u: State)
    requires Good(u)
    ensures Gain(u) >= 0.0
  {
    assert 5.0 - 3.75 * u.awareness >= 0.0;
  }

  /** The state that a step of a run counts from, after its face has been taken in. */
  function Seen(saved: bool, ins: seq<Frame>, f: Frame): State {
    UpdateStates(After(saved, ins), f.input)
  }

  lemma SeenIsGood(saved: bool, ins: seq<Frame>, f: Frame)
    ensures Good(Seen(saved, ins, f)) && FaceFits(Seen(saved, ins, f))
    ensures After(saved, ins + [f]) == UpdateEvents(Seen(saved, ins, f), f.input, f.alwaysOn).0
    ensures Published(saved, ins + [f]) == UpdateEvents(Seen(saved, ins, f), f.input, f.alwaysOn).1
  {
    hide UpdateStates, UpdateEvents, Good, FaceFits;
    assert (ins + [f])[..|ins|] == ins;
    ReachableIsGood(saved, ins);
    ReachableFaceFits(saved, ins);
    UpdateStatesKeepsGood(After(saved, ins), f.input);
    TakingInKeepsFace(After(saved, ins), f.input);
  }

  /** What every step of every run does to awareness; it falls exactly on the steps that `Lowers`
      describes, and then by one step of its mode. */
  lemma AwarenessExactly(saved: bool, ins: seq<Frame>, f: Frame)
    ensures var u := Seen(saved, ins, f);
            var a := After(saved, ins + [f]).awareness;
            && (StartsOver(u, f.input, f.alwaysOn) ==>
                  a == ActiveValue(After(saved, ins + [f])) == PassiveValue(After(saved, ins + [f])) == 1.0)
            && (Recovers(u, f.input, f.alwaysOn) ==> a == Min(u.awareness + Gain(u), 1.0))
            && (Lowers(u, f.input, f.alwaysOn) ==> a == Max(u.awareness - u.stepChange, -0.1))
            && (a < u.awareness <==> Lowers(u, f.input, f.alwaysOn))
  {
    hide UpdateEvents, Lowers, Gain, StartsOver, Seen, After;
    SeenIsGood(saved, ins, f);
    var u := Seen(saved, ins, f);
    UpdateEventsExactly(u, f.input, f.alwaysOn);
    UpdateEventsPassive(u, f.input, f.alwaysOn);
    OnlyOneHappens(u, f.input, f.alwaysOn);
    GainIsPositive(u);
  }

  // ---------- exactly which alert is published ----------

  /** The alert of a level; `quiet` leaves out the mildest one. */
  function AlertAt(active: bool, awareness: real, quiet: bool): set<Event> {
    if active then
      if awareness <= 0.0 then {DriverDistracted}
      else if awareness <= 6.0 / 11.0 then {PromptDriverDistracted}
      else if awareness <= 8.0 / 11.0 && !quiet then {PreDriverDistracted}
      else {}
    else
      if awareness <= 0.0 then {DriverUnresponsive}
      else if awareness <= 1.0 / 5.0 then {PromptDriverUnresponsive}
      else if awareness <= 1.0 / 2.0 && !quiet then {PreDriverUnresponsive}
      else {}
  }

  predicate Orange(active: bool, awareness: real) {
    awareness <= if active then 6.0 / 11.0 else 1.0 / 5.0
  }

  predicate Slow(i: Input, alwaysOn: bool) {
    OnlyAlwaysOn(i, alwaysOn) && i.carSpeed < 11.0
  }

  /** No alert while starting over, nor while recovering above orange. */
  function AlertsFor(u: State, i: Input, alwaysOn: bool, after: real): set<Event> {
    if StartsOver(u, i, alwaysOn) || (Recovers(u, i, alwaysOn) && !Orange(u.active, after)) then {}
    else AlertAt(u.active, after, Slow(i, alwaysOn))
  }

  lemma LevelAlert(s: State, i: Input, alwaysOn: bool)
    requires Good(s)
    ensures Alert(s, i, alwaysOn) == AlertAt(s.active, s.awareness, Slow(i, alwaysOn))
    ensures s.awareness <= s.thresholdPrompt <==> Orange(s.active, s.awareness)
  {
  }

  lemma CountingIsGood(s: State, prev: real, i: Input, alwaysOn: bool)
    requires Good(s)
    ensures Good(CountTerminal(CountDown(s, i, alwaysOn), prev))
    ensures CountTerminal(CountDown(s, i, alwaysOn), prev).active == s.active
  {
  }

  lemma UpdateAwarenessAlerts(u: State, locked: set<Event>, i: Input, alwaysOn: bool)
    requires Good(u) && FaceFits(u)
    ensures var (t, events) := UpdateAwareness(u, locked, i, alwaysOn);
            events == locked + AlertsFor(u, i, alwaysOn, t.awareness)
  {
    hide Recover, CountDown, CountTerminal, Alert, StartsOver, ResetsFirst, Attentive, Watching, Good, AlertAt, Orange;
    StartsOverIsTested(u, i, alwaysOn);
    RecoverExactly(u);
    RecoverRaises(u);
    RecoverKeepsGood(u);
    CountTerminalKeeps(CountDown(Recover(u), i, alwaysOn), u.awareness);
    LevelAlert(Recover(u), i, alwaysOn);
    var c := CountTerminal(CountDown(u, i, alwaysOn), u.awareness);
    CountingIsGood(u, u.awareness, i, alwaysOn);
    LevelAlert(c, i, alwaysOn);
    var d := CountTerminal(CountDown(Recover(u), i, alwaysOn), u.awareness);
    CountingIsGood(Recover(u), u.awareness, i, alwaysOn);
    LevelAlert(d, i, alwaysOn);
    if Watching(u) {
      SameFace(u, Recover(u));
      WatchingIsNotLowered(Recover(u), i, alwaysOn);
    }
  }

  /** What every step of every run publishes: the alert of the level it ends at, and the lockout. */
  lemma AlertsExactly(saved: bool, ins: seq<Frame>, f: Frame)
    ensures var u, t := Seen(saved, ins, f), After(saved, ins + [f]);
            Published(saved, ins + [f])
            == AlertsFor(u, f.input, f.alwaysOn, t.awareness)
               + if t.tooDistracted || (f.alwaysOn && Orange(u.active, u.awareness)) then {TooDistracted} else {}
  {
    hide UpdateStates, UpdateAwareness, AlertsFor, Alert, Good;
    SeenIsGood(saved, ins, f);
    var u := Seen(saved, ins, f);
    var v := Lockout(u);
    LockoutMovesNothing(u);
    LockoutIsGood(u);
    UpdateAwarenessAlerts(v, LockoutEvents(v, f.alwaysOn), f.input, f.alwaysOn);
    AlertsIgnoreLockout(u, v, f.input, f.alwaysOn, After(saved, ins + [f]).awareness);
    LevelAlert(v, f.input, f.alwaysOn);
    UpdateAwarenessKeepsLockout(v, LockoutEvents(v, f.alwaysOn), f.input, f.alwaysOn);
  }

  lemma LockoutIsGood(u: State)
    requires Good(u)
    ensures Good(Lockout(u))
  {
  }

  lemma AlertsIgnoreLockout(u: State, t: State, i: Input, alwaysOn: bool, after: real)
    requires t == u.(tooDistracted := t.tooDistracted)
    ensures AlertsFor(t, i, alwaysOn, after) == AlertsFor(u, i, alwaysOn, after)
  {
  }

  lemma UpdateAwarenessKeepsLockout(s: State, locked: set<Event>, i: Input, alwaysOn: bool)
    ensures UpdateAwareness(s, locked, i, alwaysOn).0.tooDistracted == s.tooDistracted
  {
    hide ResetsFirst, Attentive, Alert;
    CountingKeepsFace(s, s.awareness, i, alwaysOn);
    CountingKeepsFace(Recover(s), s.awareness, i, alwaysOn);
  }

  // ---------- a driver who stays distracted ----------

  /** Engaged, moving, and the driver seen to be distracted; hands and pedals are free. */
  predicate DistractedFrame(f: Frame) {
    var i := f.input;
    i.hasFace && i.face.detected && i.face.distracted && i.face.filter > 0.63 && i.opEngaged && !i.standstill
  }

  lemma DistractedStep(saved: bool, ins: seq<Frame>, f: Frame)
    requires var s := After(saved, ins); s.active && s.hiStds <= 200
    requires DistractedFrame(f)
    ensures var s, t := After(saved, ins), After(saved, ins + [f]);
            && t.active && t.hiStds <= 200
            && t.awareness == Max(s.awareness - 1.0 / 220.0, -0.1)
  {
    hide UpdateStates, UpdateEvents, After;
    ReachableIsGood(saved, ins);
    SeenIsGood(saved, ins, f);
    var u := Seen(saved, ins, f);
    ModeExactly(After(saved, ins), f.input);
    UpdateEventsKeepsFace(u, f.input, f.alwaysOn);
    AwarenessExactly(saved, ins, f);
    SwitchKeepsBothValues(After(saved, ins).(face := f.input.face), WantsActive(After(saved, ins), f.input));
    TakingInKeepsAwareness(After(saved, ins), f.input);
    if u.awareness > -0.1 {
      assert Lowers(u, f.input, f.alwaysOn);
    } else {
      assert !StartsOver(u, f.input, f.alwaysOn) && !Recovers(u, f.input, f.alwaysOn);
      UpdateEventsExactly(u, f.input, f.alwaysOn);
    }
  }

  /** Taking in a face moves no awareness but by changing the mode. */
  lemma TakingInKeepsAwareness(s: State, i: Input)
    ensures var u := UpdateStates(s, i);
            && ActiveValue(u) == ActiveValue(s) && PassiveValue(u) == PassiveValue(s)
            && (u.active == s.active ==> u.awareness == s.awareness)
  {
  }

  /** One 220th on every step, down to the floor: 11 seconds from full awareness to none. */
  lemma {:induction false} DistractedCountdown(saved: bool, ins: seq<Frame>, from: nat)
    requires from <= |ins|
    requires var s := After(saved, ins[..from]); s.active && s.hiStds <= 200
    requires forall k :: from <= k < |ins| ==> DistractedFrame(ins[k])
    ensures var s, t := After(saved, ins[..from]), After(saved, ins);
            && t.active && t.hiStds <= 200
            && t.awareness == Max(s.awareness - (|ins| - from) as real / 220.0, -0.1)
    decreases |ins|
  {
    hide After, DistractedFrame;
    if from == |ins| {
      assert ins[..from] == ins;
      ReachableIsGood(saved, ins);
    } else {
      var before := ins[..|ins| - 1];
      assert before[..from] == ins[..from];
      DistractedCountdown(saved, before, from);
      DistractedStep(saved, before, ins[|ins| - 1]);
      assert before + [ins[|ins| - 1]] == ins;
    }
  }

  /** The schedule from full awareness, of a new object or after a reset: nothing for 59 steps, the
      mild alert from the 60th, orange from the 100th, red from the 220th on. */
  lemma DistractedSchedule(saved: bool, ins: seq<Frame>, from: nat)
    requires from < |ins|
    requires var s := After(saved, ins[..from]); s.active && s.hiStds <= 200 && s.awareness == 1.0
    requires forall k :: from <= k < |ins| ==> DistractedFrame(ins[k])
    ensures var n, events := |ins| - from, Published(saved, ins);
            && (PreDriverDistracted in events <==> 60 <= n < 100)
            && (PromptDriverDistracted in events <==> 100 <= n < 220)
            && (DriverDistracted in events <==> n >= 220)
  {
    hide After, Published, Seen, StartsOver, Recovers;
    var before, f := ins[..|ins| - 1], ins[|ins| - 1];
    assert before + [f] == ins && before[..from] == ins[..from];
    DistractedCountdown(saved, before, from);
    DistractedCountdown(saved, ins, from);
    AlertsExactly(saved, before, f);
    DistractedIsSeen(saved, before, f);
    assert Seen(saved, before, f).active;
    var a := After(saved, ins).awareness;
    var n := |ins| - from;
    assert a == Max(1.0 - n as real / 220.0, -0.1);
    assert (n as real >= 60.0 <==> n >= 60) && (n as real >= 100.0 <==> n >= 100) && (n as real >= 220.0 <==> n >= 220);
  }

  lemma DistractedIsSeen(saved: bool, ins: seq<Frame>, f: Frame)
    requires var s := After(saved, ins); s.active && s.hiStds <= 200
    requires DistractedFrame(f)
    ensures var u := Seen(saved, ins, f);
            u.active && !StartsOver(u, f.input, f.alwaysOn) && !Recovers(u, f.input, f.alwaysOn)
            && !Slow(f.input, f.alwaysOn)
  {
    hide UpdateStates, After;
    ReachableIsGood(saved, ins);
    ModeExactly(After(saved, ins), f.input);
  }

  // ---------- a driver who cannot be seen ----------

  /** Engaged, moving, no face in sight and no hand on the wheel or foot on the gas. */
  predicate FacelessFrame(f: Frame) {
    var i := f.input;
    i.hasFace && !i.face.detected && i.opEngaged && !i.standstill && !i.driverEngaged
  }

  /** The mode can still fall back to the passive one, or already has. */
  predicate FallsBack(s: State) {
    !s.active || s.awareness > 6.0 / 11.0
  }

  lemma FacelessStep(saved: bool, ins: seq<Frame>, f: Frame)
    requires FallsBack(After(saved, ins)) && FacelessFrame(f)
    ensures var s, t := After(saved, ins), After(saved, ins + [f]);
            && !t.active && t.hiStds == s.hiStds
            && t.awareness == Max(PassiveValue(s) - 1.0 / 600.0, -0.1)
            && Published(saved, ins + [f]) - {TooDistracted} == AlertAt(false, t.awareness, false)
  {
    hide UpdateStates, UpdateEvents, After, Published;
    ReachableIsGood(saved, ins);
    SeenIsGood(saved, ins, f);
    var u := Seen(saved, ins, f);
    ModeExactly(After(saved, ins), f.input);
    UpdateEventsKeepsFace(u, f.input, f.alwaysOn);
    AwarenessExactly(saved, ins, f);
    AlertsExactly(saved, ins, f);
    TakingInKeepsAwareness(After(saved, ins), f.input);
    if u.awareness > -0.1 {
      assert Lowers(u, f.input, f.alwaysOn);
    } else {
      assert !StartsOver(u, f.input, f.alwaysOn) && !Recovers(u, f.input, f.alwaysOn);
      UpdateEventsExactly(u, f.input, f.alwaysOn);
    }
  }

  /** One 600th on every step of the passive value, wherever it was kept. */
  lemma {:induction false} FacelessCountdown(saved: bool, ins: seq<Frame>, from: nat)
    requires from < |ins| && FallsBack(After(saved, ins[..from]))
    requires forall k :: from <= k < |ins| ==> FacelessFrame(ins[k])
    ensures var s, t := After(saved, ins[..from]), After(saved, ins);
            && !t.active
            && t.awareness == Max(PassiveValue(s) - (|ins| - from) as real / 600.0, -0.1)
            && Published(saved, ins) - {TooDistracted} == AlertAt(false, t.awareness, false)
    decreases |ins|
  {
    hide After, Published, FacelessFrame, AlertAt;
    var before, f := ins[..|ins| - 1], ins[|ins| - 1];
    assert before + [f] == ins && before[..from] == ins[..from];
    if from < |before| {
      FacelessCountdown(saved, before, from);
    } else {
      assert before == ins[..from];
    }
    FacelessStep(saved, before, f);
  }

  /** The schedule from full awareness: the mild alert from the 300th step, orange from the 480th,
      red from the 600th on. */
  lemma FacelessSchedule(saved: bool, ins: seq<Frame>, from: nat)
    requires from < |ins|
    requires FallsBack(After(saved, ins[..from])) && PassiveValue(After(saved, ins[..from])) == 1.0
    requires forall k :: from <= k < |ins| ==> FacelessFrame(ins[k])
    ensures var n, events := |ins| - from, Published(saved, ins);
            && (PreDriverUnresponsive in events <==> 300 <= n < 480)
            && (PromptDriverUnresponsive in events <==> 480 <= n < 600)
            && (DriverUnresponsive in events <==> n >= 600)
  {
    hide After, Published;
    FacelessCountdown(saved, ins, from);
    var events, n := Published(saved, ins), |ins| - from;
    assert forall e :: e != TooDistracted ==> (e in events <==> e in events - {TooDistracted});
    assert (n as real >= 300.0 <==> n >= 300) && (n as real >= 480.0 <==> n >= 480) && (n as real >= 600.0 <==> n >= 600);
  }

  /** Once the distraction alert is orange, a driver who hides the face gains nothing: awareness and
      alert stay where they are, however long it lasts. */
  lemma {:induction false} HidingHolds(saved: bool, ins: seq<Frame>, from: nat)
    requires from <= |ins| && !FallsBack(After(saved, ins[..from]))
    requires forall k :: from <= k < |ins| ==> FacelessFrame(ins[k])
    ensures var s, t := After(saved, ins[..from]), After(saved, ins);
            && t.active && t.awareness == s.awareness
            && (from < |ins| ==> Published(saved, ins) - {TooDistracted} == AlertAt(true, s.awareness, false))
    decreases |ins|
  {
    hide After, Published, FacelessFrame, AlertAt;
    if from == |ins| {
      assert ins[..from] == ins;
    } else {
      var before, f := ins[..|ins| - 1], ins[|ins| - 1];
      assert before + [f] == ins && before[..from] == ins[..from];
      HidingHolds(saved, before, from);
      HidingStep(saved, before, f);
    }
  }

  lemma HidingStep(saved: bool, ins: seq<Frame>, f: Frame)
    requires !FallsBack(After(saved, ins)) && FacelessFrame(f)
    ensures var s, t := After(saved, ins), After(saved, ins + [f]);
            && t.active && t.awareness == s.awareness
            && Published(saved, ins + [f]) - {TooDistracted} == AlertAt(true, t.awareness, false)
  {
    hide UpdateStates, UpdateEvents, After, Published;
    ReachableIsGood(saved, ins);
    SeenIsGood(saved, ins, f);
    var u := Seen(saved, ins, f);
    ModeExactly(After(saved, ins), f.input);
    UpdateEventsKeepsFace(u, f.input, f.alwaysOn);
    UpdateEventsExactly(u, f.input, f.alwaysOn);
    AlertsExactly(saved, ins, f);
    TakingInKeepsAwareness(After(saved, ins), f.input);
    assert !StartsOver(u, f.input, f.alwaysOn) && !Recovers(u, f.input, f.alwaysOn) && !Lowers(u, f.input, f.alwaysOn);
  }

  // ---------- a driver who looks at the road again ----------

  /** Engaged, the driver seen to look at the road, hands and feet off. */
  predicate WatchingFrame(f: Frame) {
    var i := f.input;
    i.hasFace && i.face.detected && i.face.lowStd && i.face.filter < 0.37 && i.opEngaged && !i.driverEngaged
  }

  lemma WatchingStep(saved: bool, ins: seq<Frame>, f: Frame)
    requires var s := After(saved, ins); s.active && s.hiStds <= 200 && s.awareness > 0.0
    requires WatchingFrame(f)
    ensures var s, t := After(saved, ins), After(saved, ins + [f]);
            && t.active && t.hiStds == 0
            && t.awareness == Min(s.awareness + (5.0 - 3.75 * s.awareness) / 220.0, 1.0)
            && t.awarenessPassive == (if t.awareness < 1.0 then s.awarenessPassive
                                      else Min(s.awarenessPassive + 1.0 / 220.0, 1.0))
            && Published(saved, ins + [f]) <= {TooDistracted, PromptDriverDistracted}
            && (PromptDriverDistracted in Published(saved, ins + [f]) <==> t.awareness <= 6.0 / 11.0)
  {
    hide UpdateStates, UpdateEvents, After, Published;
    ReachableIsGood(saved, ins);
    SeenIsGood(saved, ins, f);
    var s, u := After(saved, ins), Seen(saved, ins, f);
    ModeExactly(s, f.input);
    UpdateEventsKeepsFace(u, f.input, f.alwaysOn);
    UpdateEventsExactly(u, f.input, f.alwaysOn);
    UpdateEventsPassive(u, f.input, f.alwaysOn);
    AlertsExactly(saved, ins, f);
    TakingInKeepsAwareness(s, f.input);
    assert Recovers(u, f.input, f.alwaysOn);
    assert Gain(u) == (5.0 - 3.75 * s.awareness) / 220.0;
    assert Gain(u) > 0.0;
  }

  /** Recovery is at least five quarters as fast as the countdown: 176 steps suffice from any level
      above red, and then nothing is published but a lockout. */
  lemma {:induction false} WatchingRecovers(saved: bool, ins: seq<Frame>, from: nat)
    requires from <= |ins|
    requires var s := After(saved, ins[..from]); s.active && s.hiStds <= 200 && s.awareness > 0.0
    requires forall k :: from <= k < |ins| ==> WatchingFrame(ins[k])
    ensures var s, t := After(saved, ins[..from]), After(saved, ins);
            && t.active && t.hiStds <= 200 && s.awareness <= t.awareness
            && t.awareness >= Min(s.awareness + 1.25 * (|ins| - from) as real / 220.0, 1.0)
            && (|ins| - from >= 176 ==> t.awareness == 1.0 && Published(saved, ins) <= {TooDistracted})
    decreases |ins|
  {
    hide After, Published, WatchingFrame;
    ReachableIsGood(saved, ins);
    if from == |ins| {
      assert ins[..from] == ins;
    } else {
      var before, f := ins[..|ins| - 1], ins[|ins| - 1];
      assert before + [f] == ins && before[..from] == ins[..from];
      WatchingRecovers(saved, before, from);
      ReachableIsGood(saved, before);
      WatchingStep(saved, before, f);
      var a, n := After(saved, before).awareness, |ins| - from;
      assert 5.0 - 3.75 * a >= 1.25;
      assert (n - 1) as real == n as real - 1.0;
    }
  }
}
