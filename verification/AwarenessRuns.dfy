/**
 What the awareness machine guarantees over whole runs, whatever the face, engagement, speed and
 standstill inputs do.
 */
module AwarenessRuns {
  import opened DriverMonitoringModel

  // ---------- runs ----------

  /** The state after the steps `ins`, starting with a new object. */
  function After(saved: bool, ins: seq<Frame>): State {
    if ins == [] then Init(saved)
    else FrameStep(After(saved, ins[..|ins| - 1]), ins[|ins| - 1]).0
  }

  /** The events published by the last of the steps `ins`. */
  function Published(saved: bool, ins: seq<Frame>): set<Event>
    requires ins != []
  {
    FrameStep(After(saved, ins[..|ins| - 1]), ins[|ins| - 1]).1
  }

  /** The process: the toggle is set between steps, and the object goes through the states of the run. */
  method RunFrames(dm: DriverMonitoring, saved: bool, ins: seq<Frame>)
    requires dm.View() == Init(saved)
    modifies dm
    ensures dm.View() == After(saved, ins)
    ensures ins != [] ==> dm.currentEvents == Published(saved, ins)
  {
    hide Step;
    for k := 0 to |ins|
      invariant dm.View() == After(saved, ins[..k])
      invariant k > 0 ==> dm.currentEvents == Published(saved, ins[..k])
    {
      assert ins[..k + 1][..k] == ins[..k];
      dm.alwaysOn := ins[k].alwaysOn;
      dm.RunStep(ins[k].input);
    }
    assert ins[..|ins|] == ins;
  }

  // ---------- the invariant of every step ----------

  ghost predicate Good(s: State) {
    && -0.1 <= s.awareness <= 1.0
    && ACTIVE_PROMPT < s.awarenessActive <= 1.0
    && 0.0 < s.awarenessPassive <= 1.0
    && (s.active ==> s.thresholdPre == ACTIVE_PRE && s.thresholdPrompt == ACTIVE_PROMPT
                     && (s.stepChange == ACTIVE_STEP || s.stepChange == 0.0))
    && (!s.active ==> s.thresholdPre == PASSIVE_PRE && s.thresholdPrompt == PASSIVE_PROMPT
                      && s.stepChange == PASSIVE_STEP)
  }

  lemma UpdateStatesKeepsGood(s: State, i: Input)
    requires Good(s)
    ensures Good(UpdateStates(s, i))
  {
  }

  /** Recovery never lowers awareness and stays at most 1. */
  lemma RecoverRaises(s: State)
    requires Good(s)
    ensures var r := Recover(s);
            && s.awareness <= r.awareness <= 1.0
            && s.awarenessPassive <= r.awarenessPassive <= 1.0
            && r == s.(awareness := r.awareness, awarenessPassive := r.awarenessPassive)
  {
    var gain := (RECOVERY_FACTOR_MAX - RECOVERY_FACTOR_MIN) * (1.0 - s.awareness) + RECOVERY_FACTOR_MIN;
    assert gain >= 0.0;
    assert gain * s.stepChange >= 0.0;
  }

  lemma RecoverKeepsGood(s: State)
    requires Good(s)
    ensures Good(Recover(s))
  {
    hide Recover;
    RecoverRaises(s);
  }

  lemma CountAndAlertKeepsGood(s: State, prev: real, locked: set<Event>, i: Input, alwaysOn: bool)
    requires Good(s)
    ensures Good(CountAndAlert(s, prev, locked, i, alwaysOn).0)
  {
  }

  lemma UpdateEventsKeepsGood(s: State, i: Input, alwaysOn: bool)
    requires Good(s)
    ensures Good(UpdateEvents(s, i, alwaysOn).0)
  {
    hide Recover, CountAndAlert;
    var t, locked := Lockout(s), LockoutEvents(Lockout(s), alwaysOn);
    RecoverKeepsGood(t);
    CountAndAlertKeepsGood(t, t.awareness, locked, i, alwaysOn);
    CountAndAlertKeepsGood(Recover(t), t.awareness, locked, i, alwaysOn);
  }

  /** In every reachable state awareness lies in [-0.1, 1], the saved active value is above the
      orange level and the saved passive value is positive. */
  lemma {:induction false} ReachableIsGood(saved: bool, ins: seq<Frame>)
    ensures Good(After(saved, ins))
  {
    hide UpdateStates, UpdateEvents;
    if ins != [] {
      var s, f := After(saved, ins[..|ins| - 1]), ins[|ins| - 1];
      var i, alwaysOn := f.input, f.alwaysOn;
      ReachableIsGood(saved, ins[..|ins| - 1]);
      UpdateStatesKeepsGood(s, i);
      UpdateEventsKeepsGood(UpdateStates(s, i), i, alwaysOn);
    }
  }

  // ---------- what one step can do ----------

  predicate OnlyLockout(events: set<Event>) {
    events <= {TooDistracted}
  }

  predicate Red(events: set<Event>) {
    DriverDistracted in events || DriverUnresponsive in events
  }

  lemma CountAndAlertStep(s: State, prev: real, locked: set<Event>, i: Input, alwaysOn: bool)
    requires Good(s) && OnlyLockout(locked)
    ensures var (t, events) := CountAndAlert(s, prev, locked, i, alwaysOn);
            && s.awareness - s.stepChange <= t.awareness <= s.awareness
            && t.active == s.active && t.awarenessActive == s.awarenessActive && t.awarenessPassive == s.awarenessPassive
            && (DriverDistracted in events <==> s.active && t.awareness <= 0.0)
            && (DriverUnresponsive in events <==> !s.active && t.awareness <= 0.0)
            && (PromptDriverDistracted in events <==> s.active && 0.0 < t.awareness <= ACTIVE_PROMPT)
            && t.tooDistracted == s.tooDistracted
            && t.terminalTime == s.terminalTime + (if t.awareness <= 0.0 then 1 else 0)
            && t.terminalAlertCnt == s.terminalAlertCnt + (if t.awareness <= 0.0 && prev > 0.0 then 1 else 0)
  {
    assert Alert(CountTerminal(CountDown(s, i, alwaysOn), prev), i, alwaysOn) !! {TooDistracted};
  }

  /** The level lost in one step, and how the published alert tells the level reached. */
  lemma StepLevels(s: State, i: Input, alwaysOn: bool)
    requires Good(s)
    ensures var (t, events) := UpdateEvents(s, i, alwaysOn);
            && t.active == s.active
            && s.awareness - s.stepChange <= t.awareness
            && (s.awareness <= 0.0 ==> t.awareness <= 0.0 || t.awareness == 1.0)
            && (DriverDistracted in events <==> s.active && t.awareness <= 0.0)
            && (DriverUnresponsive in events <==> !s.active && t.awareness <= 0.0)
            && (s.active && 0.0 < t.awareness <= ACTIVE_PROMPT ==> PromptDriverDistracted in events)
  {
    hide Recover, CountAndAlert;
    var t, locked := Lockout(s), LockoutEvents(Lockout(s), alwaysOn);
    RecoverRaises(t);
    RecoverKeepsGood(t);
    CountAndAlertStep(t, t.awareness, locked, i, alwaysOn);
    CountAndAlertStep(Recover(t), t.awareness, locked, i, alwaysOn);
  }

  /** Entering active mode always happens above the orange level. */
  lemma EnteringActive(s: State, i: Input)
    requires Good(s)
    ensures var t := UpdateStates(s, i);
            t.active ==> if s.active then t.awareness == s.awareness else t.awareness > ACTIVE_PROMPT
  {
  }

  // ---------- red is preceded by orange ----------

  /** The number of consecutive last steps that each published the orange distraction alert. */
  function OrangeStreak(saved: bool, ins: seq<Frame>): nat {
    if ins == [] then 0
    else if PromptDriverDistracted in Published(saved, ins) then
      1 + OrangeStreak(saved, ins[..|ins| - 1])
    else 0
  }

  /** One unit is a 220th: 11 seconds at 20 steps per second. */
  lemma {:induction false} OrangeBudget(saved: bool, ins: seq<Frame>)
    ensures var s := After(saved, ins);
            s.active && 0.0 < s.awareness <= ACTIVE_PROMPT ==>
              s.awareness > (120 - OrangeStreak(saved, ins)) as real / 220.0
  {
    hide UpdateStates, UpdateEvents;
    if ins != [] {
      var before, f := ins[..|ins| - 1], ins[|ins| - 1];
      var i, alwaysOn := f.input, f.alwaysOn;
      var s := After(saved, before);
      OrangeBudget(saved, before);
      ReachableIsGood(saved, before);
      UpdateStatesKeepsGood(s, i);
      EnteringActive(s, i);
      StepLevels(UpdateStates(s, i), i, alwaysOn);
    }
  }

  lemma {:induction false} OrangeStreakMeaning(saved: bool, ins: seq<Frame>, k: nat)
    requires |ins| - OrangeStreak(saved, ins) <= k < |ins|
    ensures PromptDriverDistracted in Published(saved, ins[..k + 1])
  {
    hide Published;
    if k == |ins| - 1 {
      assert ins[..k + 1] == ins;
    } else {
      OrangeStreakMeaning(saved, ins[..|ins| - 1], k);
      assert ins[..|ins| - 1][..k + 1] == ins[..k + 1];
    }
  }

  predicate OrangeDistracted(saved: bool, ins: seq<Frame>, k: nat)
    requires k < |ins|
  {
    PromptDriverDistracted in Published(saved, ins[..k + 1])
  }

  predicate RedDistracted(saved: bool, ins: seq<Frame>, k: nat)
    requires k < |ins|
  {
    DriverDistracted in Published(saved, ins[..k + 1])
  }

  lemma RedStepLevels(saved: bool, ins: seq<Frame>)
    requires ins != [] && DriverDistracted in Published(saved, ins)
    ensures var before := After(saved, ins[..|ins| - 1]);
            before.active && before.awareness <= ACTIVE_STEP
  {
    hide UpdateStates, UpdateEvents;
    var s, f := After(saved, ins[..|ins| - 1]), ins[|ins| - 1];
    var i, alwaysOn := f.input, f.alwaysOn;
    ReachableIsGood(saved, ins[..|ins| - 1]);
    UpdateStatesKeepsGood(s, i);
    EnteringActive(s, i);
    StepLevels(UpdateStates(s, i), i, alwaysOn);
  }

  lemma NotRedMeansPositive(saved: bool, ins: seq<Frame>)
    requires ins != [] && DriverDistracted !in Published(saved, ins)
    requires After(saved, ins).active
    ensures After(saved, ins).awareness > 0.0
  {
    hide UpdateStates, UpdateEvents;
    var s, f := After(saved, ins[..|ins| - 1]), ins[|ins| - 1];
    var i, alwaysOn := f.input, f.alwaysOn;
    ReachableIsGood(saved, ins[..|ins| - 1]);
    UpdateStatesKeepsGood(s, i);
    StepLevels(UpdateStates(s, i), i, alwaysOn);
  }

  /** Six seconds of warning: whenever the red distraction alert starts at step k, each of the 120
      steps before k published the orange one. */
  lemma RedIsPrecededByOrange(saved: bool, ins: seq<Frame>, k: nat)
    requires k < |ins| && RedDistracted(saved, ins, k)
    requires k > 0 ==> !RedDistracted(saved, ins, k - 1)
    ensures k >= 120
    ensures forall j :: k - 120 <= j < k ==> OrangeDistracted(saved, ins, j)
  {
    hide Published, After, OrangeStreak;
    var before := ins[..k];
    assert ins[..k + 1][..k] == before;
    RedStepLevels(saved, ins[..k + 1]);
    EmptyRun(saved);
    if k > 0 {
      assert ins[..k - 1 + 1] == before;
      NotRedMeansPositive(saved, before);
    }
    OrangeBudget(saved, before);
    StreakBound(OrangeStreak(saved, before), After(saved, before).awareness);
    StreakFits(saved, before);
    forall j | k - 120 <= j < k
      ensures OrangeDistracted(saved, ins, j)
    {
      OrangeStreakMeaning(saved, before, j);
      assert before[..j + 1] == ins[..j + 1];
    }
  }

  lemma EmptyRun(saved: bool)
    ensures var s := After(saved, []);
            s.awareness == 1.0 && s.awarenessActive == 1.0 && s.awarenessPassive == 1.0
  {
  }

  lemma StreakBound(streak: nat, awareness: real)
    requires (120 - streak) as real / 220.0 < awareness <= ACTIVE_STEP
    ensures streak >= 120
  {
  }

  lemma {:induction false} StreakFits(saved: bool, ins: seq<Frame>)
    ensures OrangeStreak(saved, ins) <= |ins|
  {
    hide Published;
    if ins != [] {
      StreakFits(saved, ins[..|ins| - 1]);
    }
  }

  /** The awareness of each mode, wherever it is kept at the moment. */
  function ActiveValue(s: State): real {
    if s.active then s.awareness else s.awarenessActive
  }

  function PassiveValue(s: State): real {
    if s.active then s.awarenessPassive else s.awareness
  }

  /** The number of steps that published the orange wheel-touch alert since the passive value was
      last above its orange level. The driver may look at the camera in between. */
  function PassiveOrangeSteps(saved: bool, ins: seq<Frame>): nat {
    if ins == [] || PassiveValue(After(saved, ins)) > PASSIVE_PROMPT then 0
    else PassiveOrangeSteps(saved, ins[..|ins| - 1])
         + if PromptDriverUnresponsive in Published(saved, ins) then 1 else 0
  }

  lemma PassiveUpdateEvents(s: State, i: Input, alwaysOn: bool)
    requires Good(s)
    ensures var (t, events) := UpdateEvents(s, i, alwaysOn);
            && (s.active ==> PassiveValue(s) <= PassiveValue(t))
            && (!s.active ==> s.awareness - PASSIVE_STEP <= t.awareness)
            && (!s.active && 0.0 < t.awareness <= PASSIVE_PROMPT ==> PromptDriverUnresponsive in events)
            && (DriverUnresponsive in events ==> !s.active && t.awareness <= 0.0)
            && (s.awareness <= 0.0 ==> t.awareness <= 0.0 || t.awareness == 1.0)
  {
    hide Recover, CountAndAlert;
    var t, locked := Lockout(s), LockoutEvents(Lockout(s), alwaysOn);
    RecoverRaises(t);
    RecoverKeepsGood(t);
    CountAndAlertStep(t, t.awareness, locked, i, alwaysOn);
    CountAndAlertStep(Recover(t), t.awareness, locked, i, alwaysOn);
    PassiveAlert(t, t.awareness, locked, i, alwaysOn);
    PassiveAlert(Recover(t), t.awareness, locked, i, alwaysOn);
  }

  lemma PassiveAlert(s: State, prev: real, locked: set<Event>, i: Input, alwaysOn: bool)
    requires Good(s)
    ensures var (t, events) := CountAndAlert(s, prev, locked, i, alwaysOn);
            !s.active && 0.0 < t.awareness <= PASSIVE_PROMPT ==> PromptDriverUnresponsive in events
  {
  }

  lemma PassiveStep(s: State, i: Input, alwaysOn: bool)
    requires Good(s)
    ensures var (t, events) := Step(s, i, alwaysOn);
            && PassiveValue(s) - PASSIVE_STEP <= PassiveValue(t)
            && (PassiveValue(s) > 0.0 && PassiveValue(t) < PassiveValue(s) && 0.0 < PassiveValue(t) <= PASSIVE_PROMPT
                ==> PromptDriverUnresponsive in events)
            && (DriverUnresponsive in events ==> PassiveValue(t) <= 0.0)
            && (PassiveValue(s) <= 0.0 ==> PassiveValue(t) <= 0.0 || PassiveValue(t) == 1.0)
  {
    hide UpdateEvents;
    var u := UpdateStates(s, i);
    UpdateStatesKeepsGood(s, i);
    SwitchKeepsBothValues(s.(face := i.face), i.face.detected && !(s.hiStds > HI_STD_FALLBACK_TIME));
    StepLevels(u, i, alwaysOn);
    PassiveUpdateEvents(u, i, alwaysOn);
    UpdateEventsKeepsGood(u, i, alwaysOn);
  }

  /** One unit is a 600th: 30 seconds at 20 steps per second. */
  lemma {:induction false} PassiveBudget(saved: bool, ins: seq<Frame>)
    ensures var v := PassiveValue(After(saved, ins));
            0.0 < v <= PASSIVE_PROMPT ==> v > (120 - PassiveOrangeSteps(saved, ins)) as real / 600.0
  {
    hide Step;
    if ins != [] {
      var before := ins[..|ins| - 1];
      PassiveBudget(saved, before);
      ReachableIsGood(saved, before);
      PassiveStep(After(saved, before), ins[|ins| - 1].input, ins[|ins| - 1].alwaysOn);
    } else {
      EmptyRun(saved);
    }
  }

  /** The same six seconds for the wheel-touch countdown: when its red alert starts, at least 120
      steps since the passive value was last above the orange level published the orange alert. */
  lemma PassiveRedIsPrecededByOrange(saved: bool, ins: seq<Frame>)
    requires ins != [] && DriverUnresponsive in Published(saved, ins)
    requires |ins| > 1 ==> !Red(Published(saved, ins[..|ins| - 1]))
    ensures PassiveOrangeSteps(saved, ins[..|ins| - 1]) >= 120
  {
    hide Step, PassiveOrangeSteps, Red;
    var before := ins[..|ins| - 1];
    ReachableIsGood(saved, before);
    PassiveStep(After(saved, before), ins[|ins| - 1].input, ins[|ins| - 1].alwaysOn);
    if before == [] {
      EmptyRun(saved);
    } else {
      RedMeansNoAwareness(saved, before);
    }
    PassiveBudget(saved, before);
    var v := PassiveValue(After(saved, before));
    assert 0.0 < v <= PASSIVE_STEP;
    PassiveBound(PassiveOrangeSteps(saved, before), v);
  }

  lemma PassiveBound(steps: nat, value: real)
    requires (120 - steps) as real / 600.0 < value <= PASSIVE_STEP
    ensures steps >= 120
  {
  }

  // ---------- red holds until the driver disengages ----------

  lemma RedStepHolds(s: State, i: Input, alwaysOn: bool)
    requires Good(s) && s.awareness <= 0.0 && i.opEngaged
    ensures var (t, events) := Step(s, i, alwaysOn);
            t.awareness <= 0.0 && t.active == s.active && Red(events)
  {
    hide Recover, CountAndAlert;
    var u := UpdateStates(s, i);
    UpdateStatesKeepsGood(s, i);
    assert u.awareness == s.awareness && u.active == s.active;
    CountAndAlertStep(Lockout(u), u.awareness, LockoutEvents(Lockout(u), alwaysOn), i, alwaysOn);
  }

  /** Once a red alert is published it is published on every step until one is not engaged. */
  lemma {:induction false} RedHoldsWhileEngaged(saved: bool, ins: seq<Frame>, k: nat)
    requires k < |ins| && Red(Published(saved, ins[..k + 1]))
    requires forall j :: k < j < |ins| ==> ins[j].input.opEngaged
    ensures Red(Published(saved, ins)) && After(saved, ins).awareness <= 0.0
    decreases |ins|
  {
    hide Step;
    var before := ins[..|ins| - 1];
    if k == |ins| - 1 {
      assert ins[..k + 1] == ins;
      RedMeansNoAwareness(saved, ins);
    } else {
      assert before[..k + 1] == ins[..k + 1];
      RedHoldsWhileEngaged(saved, before, k);
      ReachableIsGood(saved, before);
      RedStepHolds(After(saved, before), ins[|ins| - 1].input, ins[|ins| - 1].alwaysOn);
    }
  }

  lemma RedMeansNoAwareness(saved: bool, ins: seq<Frame>)
    requires ins != []
    ensures Red(Published(saved, ins)) <==> After(saved, ins).awareness <= 0.0
  {
    hide UpdateStates, UpdateEvents;
    var s, f := After(saved, ins[..|ins| - 1]), ins[|ins| - 1];
    var i, alwaysOn := f.input, f.alwaysOn;
    ReachableIsGood(saved, ins[..|ins| - 1]);
    UpdateStatesKeepsGood(s, i);
    StepLevels(UpdateStates(s, i), i, alwaysOn);
  }

  /** A step without engagement never publishes a red alert, always-on monitoring included. */
  lemma RedOnlyWhileEngaged(s: State, i: Input, alwaysOn: bool)
    requires Good(s) && !i.opEngaged
    ensures !Red(Step(s, i, alwaysOn).1)
  {
    hide UpdateStates, Recover;
    var u := UpdateStates(s, i);
    UpdateStatesKeepsGood(s, i);
    var t, locked := Lockout(u), LockoutEvents(Lockout(u), alwaysOn);
    RecoverRaises(t);
    RecoverKeepsGood(t);
    if !ResetsFirst(t, i, alwaysOn) {
      NoTerminalWithoutEngagement(t, i, alwaysOn);
      NoTerminalWithoutEngagement(Recover(t), i, alwaysOn);
      CountAndAlertStep(t, t.awareness, locked, i, alwaysOn);
      CountAndAlertStep(Recover(t), t.awareness, locked, i, alwaysOn);
    }
  }

  lemma NoTerminalWithoutEngagement(s: State, i: Input, alwaysOn: bool)
    requires Good(s) && !i.opEngaged && AlwaysOnValid(i, alwaysOn) && s.awareness > 0.0
    ensures CountDown(s, i, alwaysOn).awareness > 0.0
  {
  }

  // ---------- switching modes gives nothing back ----------

  lemma SwitchKeepsBothValues(s: State, activeMonitoring: bool)
    ensures var t := SetTimers(s, activeMonitoring);
            ActiveValue(t) == ActiveValue(s) && PassiveValue(t) == PassiveValue(s)
  {
  }

  /** The step neither starts over nor recovers. */
  predicate NoRelief(s: State, i: Input, alwaysOn: bool) {
    var t := UpdateStates(s, i);
    !ResetsFirst(t, i, alwaysOn) && !Attentive(t)
  }

  lemma NoReliefStep(s: State, i: Input, alwaysOn: bool)
    requires Good(s) && NoRelief(s, i, alwaysOn)
    ensures var t := Step(s, i, alwaysOn).0;
            && ActiveValue(t) <= ActiveValue(s) && PassiveValue(t) <= PassiveValue(s)
            && (if t.active then PassiveValue(t) == PassiveValue(s) else ActiveValue(t) == ActiveValue(s))
  {
    hide Recover, CountAndAlert;
    var u := UpdateStates(s, i);
    UpdateStatesKeepsGood(s, i);
    SwitchKeepsBothValues(s.(face := i.face), i.face.detected && !(s.hiStds > HI_STD_FALLBACK_TIME));
    var t, locked := Lockout(u), LockoutEvents(Lockout(u), alwaysOn);
    CountAndAlertStep(t, t.awareness, locked, i, alwaysOn);
  }

  /** However the mode is switched, neither value rises again without a reset or recovery. */
  lemma {:induction false} NothingIsGivenBack(saved: bool, ins: seq<Frame>, k: nat)
    requires k <= |ins|
    requires forall j :: k <= j < |ins| ==> NoRelief(After(saved, ins[..j]), ins[j].input, ins[j].alwaysOn)
    ensures ActiveValue(After(saved, ins)) <= ActiveValue(After(saved, ins[..k]))
    ensures PassiveValue(After(saved, ins)) <= PassiveValue(After(saved, ins[..k]))
    decreases |ins|
  {
    hide Step, NoRelief;
    if k == |ins| {
      assert ins[..k] == ins;
    } else {
      var before := ins[..|ins| - 1];
      forall j | k <= j < |before|
        ensures NoRelief(After(saved, before[..j]), before[j].input, before[j].alwaysOn)
      {
        assert before[..j] == ins[..j];
      }
      NothingIsGivenBack(saved, before, k);
      assert before[..k] == ins[..k];
      ReachableIsGood(saved, before);
      NoReliefStep(After(saved, before), ins[|ins| - 1].input, ins[|ins| - 1].alwaysOn);
    }
  }

  // ---------- the lockout counts exactly the red alerts ----------

  function RedSteps(saved: bool, ins: seq<Frame>): nat {
    if ins == [] then 0
    else RedSteps(saved, ins[..|ins| - 1]) + if Red(Published(saved, ins)) then 1 else 0
  }

  /** The number of times a red alert started. */
  function RedStarts(saved: bool, ins: seq<Frame>): nat {
    if ins == [] then 0
    else
      var before := ins[..|ins| - 1];
      var starts := Red(Published(saved, ins)) && (before == [] || !Red(Published(saved, before)));
      RedStarts(saved, before) + if starts then 1 else 0
  }

  lemma UpdateStatesKeepsCounters(s: State, i: Input)
    requires Good(s)
    ensures var u := UpdateStates(s, i);
            && u.terminalTime == s.terminalTime && u.terminalAlertCnt == s.terminalAlertCnt
            && u.tooDistracted == s.tooDistracted && (u.awareness > 0.0 <==> s.awareness > 0.0)
  {
  }

  lemma UpdateEventsCounters(u: State, i: Input, alwaysOn: bool)
    requires Good(u)
    ensures var (t, events) := UpdateEvents(u, i, alwaysOn);
            && t.terminalTime == u.terminalTime + (if Red(events) then 1 else 0)
            && t.terminalAlertCnt == u.terminalAlertCnt + (if Red(events) && u.awareness > 0.0 then 1 else 0)
            && t.tooDistracted == Lockout(u).tooDistracted
  {
    hide Recover, CountAndAlert;
    var t, locked := Lockout(u), LockoutEvents(Lockout(u), alwaysOn);
    RecoverRaises(t);
    RecoverKeepsGood(t);
    CountAndAlertStep(t, t.awareness, locked, i, alwaysOn);
    CountAndAlertStep(Recover(t), t.awareness, locked, i, alwaysOn);
  }

  lemma StepCounters(s: State, i: Input, alwaysOn: bool)
    requires Good(s)
    ensures var (t, events) := Step(s, i, alwaysOn);
            && t.terminalTime == s.terminalTime + (if Red(events) then 1 else 0)
            && t.terminalAlertCnt == s.terminalAlertCnt + (if Red(events) && s.awareness > 0.0 then 1 else 0)
            && t.tooDistracted == (s.tooDistracted || s.terminalAlertCnt >= MAX_TERMINAL_ALERTS
                                   || s.terminalTime >= MAX_TERMINAL_DURATION)
  {
    hide UpdateStates, UpdateEvents, Red;
    UpdateStatesKeepsGood(s, i);
    UpdateStatesKeepsCounters(s, i);
    UpdateEventsCounters(UpdateStates(s, i), i, alwaysOn);
  }

  lemma {:induction false} CountersCountRed(saved: bool, ins: seq<Frame>)
    ensures var s := After(saved, ins);
            s.terminalTime == RedSteps(saved, ins) && s.terminalAlertCnt == RedStarts(saved, ins)
  {
    hide Step, Red;
    if ins != [] {
      var before := ins[..|ins| - 1];
      CountersCountRed(saved, before);
      ReachableIsGood(saved, before);
      StepCounters(After(saved, before), ins[|ins| - 1].input, ins[|ins| - 1].alwaysOn);
      if before == [] {
        EmptyRun(saved);
      } else {
        RedMeansNoAwareness(saved, before);
      }
    } else {
      EmptyCounters(saved);
    }
  }

  lemma EmptyCounters(saved: bool)
    ensures var s := After(saved, []);
            s.terminalTime == 0 && s.terminalAlertCnt == 0 && s.tooDistracted == saved
  {
  }

  /** The driver is locked out after a step exactly if the stored flag was set at the start, or the
      steps before it contained three red alerts or thirty seconds of red. */
  lemma {:induction false} LockoutExactly(saved: bool, ins: seq<Frame>)
    requires ins != []
    ensures var before := ins[..|ins| - 1];
            After(saved, ins).tooDistracted <==>
              saved || RedStarts(saved, before) >= 3 || RedSteps(saved, before) >= 600
    decreases |ins|
  {
    hide Step, Published, Red;
    var before := ins[..|ins| - 1];
    CountersCountRed(saved, before);
    ReachableIsGood(saved, before);
    StepCounters(After(saved, before), ins[|ins| - 1].input, ins[|ins| - 1].alwaysOn);
    if before == [] {
      EmptyCounters(saved);
    } else {
      LockoutExactly(saved, before);
    }
  }
}
