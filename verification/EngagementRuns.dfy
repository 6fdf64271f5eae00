/**
 Whole runs of the engagement process: the main machine keeps its own course and its own deadline
 whatever MADS does, and MADS itself is bounded by the shared timer.
 */
module EngagementRuns {
  import opened EventTables
  import opened Mads
  import opened MadsEdits
  import opened Selfdrived
  import SS = SelfdriveState

  function After(s: Settings, inputs: seq<StepInput>): Joint {
    if inputs == [] then START else Step(s, After(s, inputs[..|inputs| - 1]), inputs[|inputs| - 1])
  }

  function Rolled(s: Settings, j: Joint, inputs: seq<StepInput>): Joint {
    if inputs == [] then j else Step(s, Rolled(s, j, inputs[..|inputs| - 1]), inputs[|inputs| - 1])
  }

  // ---------- what every run keeps ----------

  predicate FlagsAgree(j: Joint) {
    j.enabled == SS.IsEnabled(j.main.state) && j.active == SS.IsActive(j.main.state)
    && j.madsEnabled == IsEnabled(j.mads) && j.madsActive == IsActive(j.mads)
  }

  predicate TimerFits(j: Joint) {
    j.main.timer <= SS.SOFT_DISABLE_STEPS
    && (j.main.state == SS.SoftDisabling ==> j.main.timer >= 1)
    && (j.main.state == SS.PreEnabled ==> j.main.timer <= SS.SOFT_DISABLE_STEPS - 1)
    && (j.main.state == SS.PreEnabled && j.mads == SoftDisabling ==> j.main.timer <= SS.SOFT_DISABLE_STEPS - 2)
  }

  predicate Good(s: Settings, j: Joint) {
    FlagsAgree(j) && TimerFits(j)
    && (!j.initialized ==> j.main.state == SS.Disabled && j.mads == Disabled)
    && (!s.enabledToggle ==> j.mads == Disabled)
  }

  /** What the main machine's step leaves behind, for MADS to see. */
  predicate MidGood(j: Joint, k: Joint, raw: multiset<EventName>) {
    k.enabled == SS.IsEnabled(k.main.state) && k.active == SS.IsActive(k.main.state)
    && k.mads == j.mads && k.madsEnabled == j.madsEnabled && k.madsActive == j.madsActive
    && k.main.timer <= SS.SOFT_DISABLE_STEPS
    && (k.main.state == SS.SoftDisabling ==> k.main.timer >= 1)
    && (k.main.state == SS.PreEnabled ==> k.main.timer <= SS.SOFT_DISABLE_STEPS - 1)
    && (k.main.state == SS.PreEnabled && Contains(raw, SoftDisable) ==> k.main.timer <= SS.SOFT_DISABLE_STEPS - 2)
  }

  lemma MainStepIsGood(j: Joint, i: StepInput)
    requires FlagsAgree(j) && TimerFits(j)
    requires !j.initialized ==> j.main.state == SS.Disabled
    ensures MidGood(j, MainStep(j, i), i.raw.main)
  {
    hide Contains;
    if Contains(i.raw.main, SoftDisable) {
      SoftDisableListForbidsEntry(i.raw.main);
    }
  }

  /** MADS never touches the main machine's state, and its timer only while that is disabled. */
  lemma MadsLeavesMain(s: State, m: SS.Main, selfEnabled: bool, ev: multiset<EventName>, sp: multiset<EventNameSP>)
    ensures var n := Mads.Update(s, m, selfEnabled, ev, sp).1;
            n.state == m.state && m.alerts <= n.alerts
            && (n.timer == m.timer || (!selfEnabled && n.timer == SS.SOFT_DISABLE_STEPS))
  {
    hide Check, CheckInList;
  }

  /** MADS is in its soft-disabling state only after a step whose edited list held SOFT_DISABLE. */
  lemma SoftNeedsSoft(s: State, m: SS.Main, selfEnabled: bool, ev: multiset<EventName>, sp: multiset<EventNameSP>)
    requires Mads.Update(s, m, selfEnabled, ev, sp).0 == SoftDisabling
    ensures Check(ev, sp, SoftDisable)
  {
    hide Check, CheckInList;
  }

  /** SOFT_DISABLE in the edited list comes from the raw list. */
  lemma EditedSoftIsRaw(c: Context, l: Lists)
    requires Check(Edited(c, l).main, Edited(c, l).sp, SoftDisable)
    ensures Contains(l.main, SoftDisable)
  {
    hide Edited, Contains, ContainsSP;
    SunnypilotNeverSoftDisables(Edited(c, l).sp);
    EditedIsPart(c, l);
    ContainsIsMonotone(Edited(c, l).main, l.main, SoftDisable);
  }

  lemma MadsRunIsGood(j: Joint, k: Joint, raw: multiset<EventName>, l: Lists)
    requires MidGood(j, k, raw) && FlagsAgree(j)
    requires !k.initialized ==> k.mads == Disabled
    requires Check(l.main, l.sp, SoftDisable) ==> Contains(raw, SoftDisable)
    ensures FlagsAgree(MadsRun(k, l)) && TimerFits(MadsRun(k, l))
  {
    hide Check, Contains, Mads.Update;
    MadsLeavesMain(k.mads, k.main, k.enabled, l.main, l.sp);
    var t := Mads.Update(k.mads, k.main, k.enabled, l.main, l.sp).0;
    if t == SoftDisabling {
      SoftNeedsSoft(k.mads, k.main, k.enabled, l.main, l.sp);
    }
  }

  lemma StepIsGood(s: Settings, j: Joint, i: StepInput)
    requires Good(s, j)
    ensures Good(s, Step(s, j, i))
  {
    hide Check, Contains, Edited;
    MainStepIsGood(j, i);
    var k := MainStep(j, i);
    var c := ContextOf(s, k, i);
    if Check(Edited(c, i.raw).main, Edited(c, i.raw).sp, SoftDisable) {
      EditedSoftIsRaw(c, i.raw);
    }
    if s.enabledToggle {
      MadsRunIsGood(j, k, i.raw.main, Edited(c, i.raw));
    }
  }

  lemma {:induction false} EveryRunIsGood(s: Settings, inputs: seq<StepInput>)
    ensures Good(s, After(s, inputs))
  {
    hide Step, Good;
    if inputs == [] {
      StartIsGood(s);
    } else {
      EveryRunIsGood(s, inputs[..|inputs| - 1]);
      StepIsGood(s, After(s, inputs[..|inputs| - 1]), inputs[|inputs| - 1]);
    }
  }

  lemma StartIsGood(s: Settings)
    ensures Good(s, START)
  {
  }

  // ---------- the main machine keeps its own course ----------

  /** The main machine with no MADS beside it. */
  function MainAlone(inputs: seq<StepInput>): (bool, SS.Main) {
    if inputs == [] then (false, START.main)
    else
      var (ready, m) := MainAlone(inputs[..|inputs| - 1]);
      var i := inputs[|inputs| - 1];
      if ready || i.ready then (true, SS.Update(m, i.raw.main)) else (false, m)
  }

  /** Same state, same deadline, and MADS only adds alert types. */
  predicate Follows(a: (bool, SS.Main), j: Joint) {
    a.0 == j.initialized && a.1.state == j.main.state && a.1.alerts <= j.main.alerts
    && (j.main.state == SS.SoftDisabling ==> a.1.timer == j.main.timer)
  }

  lemma UpdateFollows(a: SS.Main, b: SS.Main, events: multiset<EventName>)
    requires a.state == b.state && (a.state == SS.SoftDisabling ==> a.timer == b.timer)
    ensures var x, y := SS.Update(a, events), SS.Update(b, events);
            x.state == y.state && x.alerts == y.alerts && (x.state == SS.SoftDisabling ==> x.timer == y.timer)
  {
    hide Contains;
  }

  lemma MadsStepLeavesMain(s: Settings, j: Joint, i: StepInput)
    requires j.enabled == SS.IsEnabled(j.main.state)
    ensures var k := MadsStep(s, j, i);
            k.initialized == j.initialized && k.main.state == j.main.state && j.main.alerts <= k.main.alerts
            && (SS.IsEnabled(j.main.state) ==> k.main.timer == j.main.timer)
  {
    hide Edited, Mads.Update;
    var l := Edited(ContextOf(s, j, i), i.raw);
    MadsLeavesMain(j.mads, j.main, j.enabled, l.main, l.sp);
  }

  lemma StepFollows(s: Settings, a: (bool, SS.Main), j: Joint, i: StepInput)
    requires Good(s, j) && Follows(a, j)
    ensures Follows(if a.0 || i.ready then (true, SS.Update(a.1, i.raw.main)) else (false, a.1), Step(s, j, i))
  {
    hide SS.Update, MadsStep;
    UpdateFollows(a.1, j.main, i.raw.main);
    MadsStepLeavesMain(s, MainStep(j, i), i);
  }

  /** Whatever the settings, the toggles, the car and the other event list do, the main machine goes
      through the states it would go through alone, with the same deadline while soft-disabling. */
  lemma {:induction false} MadsDoesNotDisturbMain(s: Settings, inputs: seq<StepInput>)
    ensures Follows(MainAlone(inputs), After(s, inputs))
  {
    hide Step, Good, Follows, SS.Update;
    if inputs == [] {
      StartFollows();
    } else {
      var rest := inputs[..|inputs| - 1];
      MadsDoesNotDisturbMain(s, rest);
      EveryRunIsGood(s, rest);
      StepFollows(s, MainAlone(rest), After(s, rest), inputs[|inputs| - 1]);
    }
  }

  lemma StartFollows()
    ensures Follows((false, START.main), START)
  {
  }

  /** Two runs that differ only in what MADS reads have the same main machine. */
  lemma MainDependsOnRawListsOnly(s1: Settings, s2: Settings, run1: seq<StepInput>, run2: seq<StepInput>)
    requires |run1| == |run2|
    requires forall k :: 0 <= k < |run1| ==> SameForMain(run1[k], run2[k])
    ensures After(s1, run1).main.state == After(s2, run2).main.state
    ensures After(s1, run1).main.state == SS.SoftDisabling ==>
      After(s1, run1).main.timer == After(s2, run2).main.timer
  {
    MadsDoesNotDisturbMain(s1, run1);
    MadsDoesNotDisturbMain(s2, run2);
    SameAlone(run1, run2);
  }

  predicate SameForMain(i: StepInput, k: StepInput) {
    i.ready == k.ready && i.raw.main == k.raw.main
  }

  lemma {:induction false} SameAlone(run1: seq<StepInput>, run2: seq<StepInput>)
    requires |run1| == |run2|
    requires forall k :: 0 <= k < |run1| ==> SameForMain(run1[k], run2[k])
    ensures MainAlone(run1) == MainAlone(run2)
  {
    hide SS.Update;
    if run1 != [] {
      assert SameForMain(run1[|run1| - 1], run2[|run1| - 1]);
      SameAlone(run1[..|run1| - 1], run2[..|run1| - 1]);
    }
  }

  // ---------- the main machine's deadline ----------

  predicate SoftAt(i: StepInput) {
    Contains(i.raw.main, SoftDisable)
  }

  predicate NothingStronger(i: StepInput) {
    !Contains(i.raw.main, UserDisable) && !Contains(i.raw.main, ImmediateDisable)
  }

  lemma MainTimer(m: SS.Main, events: multiset<EventName>)
    ensures var n := SS.Update(m, events);
            n.state == SS.SoftDisabling ==>
              if m.state == SS.SoftDisabling then n.timer == m.timer - 1 && n.timer > 0
              else (m.state == SS.Enabled || m.state == SS.Overriding) && n.timer == SS.SOFT_DISABLE_STEPS
  {
    hide Contains;
  }

  /** Soft-disabling starts at 300, falls by one on every step and stays positive. */
  lemma SoftDisablingCountsDown(s: Settings, inputs: seq<StepInput>, i: StepInput)
    ensures var j, k := After(s, inputs), After(s, inputs + [i]);
            k.main.state == SS.SoftDisabling ==>
              1 <= k.main.timer <= SS.SOFT_DISABLE_STEPS
              && if j.main.state == SS.SoftDisabling then k.main.timer == j.main.timer - 1
                 else (j.main.state == SS.Enabled || j.main.state == SS.Overriding)
                      && k.main.timer == SS.SOFT_DISABLE_STEPS
  {
    hide SS.Update, MadsStep;
    var j := After(s, inputs);
    EveryRunIsGood(s, inputs);
    EveryRunIsGood(s, inputs + [i]);
    MainStepIsGood(j, i);
    MadsStepLeavesMain(s, MainStep(j, i), i);
    MainTimer(j.main, i.raw.main);
    assert (inputs + [i])[..|inputs|] == inputs;
  }

  function Deadline(j: Joint): nat {
    match j.main.state
    case Disabled => 0
    case SoftDisabling => j.main.timer
    case _ => SS.SOFT_DISABLE_STEPS + 1
  }

  lemma MainUnderSoft(m: SS.Main, events: multiset<EventName>)
    requires Contains(events, SoftDisable)
    ensures var n := SS.Update(m, events);
            match m.state
            case Disabled => n.state == SS.Disabled && n.timer == Less(m.timer)
            case SoftDisabling =>
              (n.state == SS.SoftDisabling && n.timer == m.timer - 1 > 0)
              || (n.state == SS.Disabled && n.timer == Less(m.timer))
            case PreEnabled => n.state != SS.SoftDisabling && n.state != SS.Overriding && n.timer == Less(m.timer)
            case _ =>
              (n.state == SS.SoftDisabling && n.timer == SS.SOFT_DISABLE_STEPS)
              || (n.state == SS.Disabled && n.timer == Less(m.timer))
  {
    hide Contains;
    SoftDisableListForbidsEntry(events);
  }

  lemma DeadlineFalls(s: Settings, j: Joint, i: StepInput)
    requires Good(s, j) && SoftAt(i) && j.main.state != SS.PreEnabled
    ensures Step(s, j, i).main.state != SS.PreEnabled
    ensures Deadline(Step(s, j, i)) <= Less(Deadline(j))
  {
    hide SS.Update, MadsStep, Contains;
    MainUnderSoft(j.main, i.raw.main);
    MadsStepLeavesMain(s, MainStep(j, i), i);
  }

  lemma {:induction false} DeadlineOverRun(s: Settings, inputs: seq<StepInput>, from: nat)
    requires from <= |inputs| && After(s, inputs[..from]).main.state != SS.PreEnabled
    requires forall k :: from <= k < |inputs| ==> SoftAt(inputs[k])
    ensures var j := After(s, inputs);
            j.main.state != SS.PreEnabled && Good(s, j)
            && (Deadline(j) == 0 || Deadline(j) + (|inputs| - from) <= Deadline(After(s, inputs[..from])))
  {
    hide Step, Good, Deadline, SoftAt;
    EveryRunIsGood(s, inputs);
    if from < |inputs| {
      var rest := inputs[..|inputs| - 1];
      assert rest[..from] == inputs[..from];
      assert forall k :: from <= k < |rest| ==> rest[k] == inputs[k];
      DeadlineOverRun(s, rest, from);
      DeadlineFalls(s, After(s, rest), inputs[|inputs| - 1]);
    } else {
      assert inputs[..from] == inputs;
    }
  }

  /** With SOFT_DISABLE on every step the main machine is disabled after at most 301 of them. */
  lemma MainIsDisabledInTime(s: Settings, inputs: seq<StepInput>, from: nat)
    requires from + SS.SOFT_DISABLE_STEPS + 1 <= |inputs|
    requires After(s, inputs[..from]).main.state != SS.PreEnabled
    requires forall k :: from <= k < |inputs| ==> SoftAt(inputs[k])
    ensures After(s, inputs).main.state == SS.Disabled
  {
    hide After, SoftAt;
    EveryRunIsGood(s, inputs[..from]);
    DeadlineOverRun(s, inputs, from);
  }

  predicate HoldsPreEnable(i: StepInput) {
    Contains(i.raw.main, PreEnable)
  }

  lemma PreEnableStep(s: Settings, j: Joint, i: StepInput)
    requires Good(s, j)
    ensures !HoldsPreEnable(i) ==> Step(s, j, i).main.state != SS.PreEnabled
    ensures HoldsPreEnable(i) && NothingStronger(i) && j.main.state == SS.PreEnabled ==>
      Step(s, j, i).main.state == SS.PreEnabled
  {
    hide MadsStep, Contains;
    MadsStepLeavesMain(s, MainStep(j, i), i);
  }

  /** From any state at all: after a step m without PRE_ENABLE, SOFT_DISABLE on it and on every later step
      disables the main machine after at most 301 more. */
  lemma MainIsDisabledFromAnyState(s: Settings, inputs: seq<StepInput>, m: nat)
    requires m + SS.SOFT_DISABLE_STEPS + 2 <= |inputs| && !HoldsPreEnable(inputs[m])
    requires forall k :: m <= k < |inputs| ==> SoftAt(inputs[k])
    ensures After(s, inputs).main.state == SS.Disabled
  {
    hide Step, SoftAt, HoldsPreEnable, Good;
    EveryRunIsGood(s, inputs[..m]);
    PreEnableStep(s, After(s, inputs[..m]), inputs[m]);
    assert inputs[..m + 1][..m] == inputs[..m];
    hide After;
    MainIsDisabledInTime(s, inputs, m + 1);
  }

  /** Before such a step the wait is the driver's: pre-enabled is held for as long as PRE_ENABLE is. */
  lemma {:induction false} PreEnabledIsHeld(s: Settings, inputs: seq<StepInput>, from: nat)
    requires from <= |inputs| && After(s, inputs[..from]).main.state == SS.PreEnabled
    requires forall k :: from <= k < |inputs| ==> HoldsPreEnable(inputs[k]) && NothingStronger(inputs[k])
    ensures After(s, inputs).main.state == SS.PreEnabled
  {
    hide Step, Good, HoldsPreEnable, NothingStronger;
    if from < |inputs| {
      var rest := inputs[..|inputs| - 1];
      assert rest[..from] == inputs[..from];
      assert forall k :: from <= k < |rest| ==> rest[k] == inputs[k];
      PreEnabledIsHeld(s, rest, from);
      EveryRunIsGood(s, rest);
      PreEnableStep(s, After(s, rest), inputs[|inputs| - 1]);
    } else {
      assert inputs[..from] == inputs;
    }
  }

  lemma CountdownStep(m: SS.Main, events: multiset<EventName>)
    requires Contains(events, SoftDisable)
    requires !Contains(events, UserDisable) && !Contains(events, ImmediateDisable)
    ensures var n := SS.Update(m, events);
            match m.state
            case PreEnabled => true
            case Disabled => n.state == SS.Disabled
            case SoftDisabling =>
              if m.timer > 1 then n.state == SS.SoftDisabling && n.timer == m.timer - 1 else n.state == SS.Disabled
            case _ => n.state == SS.SoftDisabling && n.timer == SS.SOFT_DISABLE_STEPS
  {
    hide Contains;
    SoftDisableListForbidsEntry(events);
  }

  predicate CountsDown(j: Joint, steps: nat) {
    if 1 <= steps <= SS.SOFT_DISABLE_STEPS
    then j.main.state == SS.SoftDisabling && j.main.timer == SS.SOFT_DISABLE_STEPS + 1 - steps
    else steps > 0 ==> j.main.state == SS.Disabled
  }

  lemma CountdownJointStep(s: Settings, j: Joint, i: StepInput, steps: nat)
    requires Good(s, j) && SoftAt(i) && NothingStronger(i) && CountsDown(j, steps)
    requires steps == 0 ==> j.main.state == SS.Enabled || j.main.state == SS.Overriding
    ensures CountsDown(Step(s, j, i), steps + 1)
  {
    hide SS.Update, MadsStep, Contains;
    CountdownStep(j.main, i.raw.main);
    MadsStepLeavesMain(s, MainStep(j, i), i);
  }

  /** The bound of 301 is exact: with nothing stronger present the countdown is seen in full. */
  lemma {:induction false} FullCountdown(s: Settings, inputs: seq<StepInput>, from: nat)
    requires from <= |inputs|
    requires var j := After(s, inputs[..from]); j.main.state == SS.Enabled || j.main.state == SS.Overriding
    requires forall k :: from <= k < |inputs| ==> SoftAt(inputs[k]) && NothingStronger(inputs[k])
    ensures CountsDown(After(s, inputs), |inputs| - from)
  {
    hide Step, Good, SoftAt, NothingStronger;
    if from < |inputs| {
      var rest := inputs[..|inputs| - 1];
      assert rest[..from] == inputs[..from];
      assert forall k :: from <= k < |rest| ==> rest[k] == inputs[k];
      FullCountdown(s, rest, from);
      EveryRunIsGood(s, rest);
      if from == |rest| {
        assert rest[..from] == rest;
      }
      CountdownJointStep(s, After(s, rest), inputs[|inputs| - 1], |rest| - from);
    }
  }

  // ---------- the MADS deadline ----------

  predicate EditedSoftAt(s: Settings, j: Joint, i: StepInput) {
    Contains(ListsAfter(s, j, i).main, SoftDisable)
  }

  /** How many more steps MADS may stay soft-disabling while its list asks for it. */
  function MadsBudget(j: Joint): nat {
    if j.mads != SoftDisabling then 0
    else match j.main.state
      case Disabled => if j.main.timer > 1 then j.main.timer else 1
      case SoftDisabling => j.main.timer
      case PreEnabled => if j.main.timer > 1 then j.main.timer + SS.SOFT_DISABLE_STEPS else 1
      case _ => SS.SOFT_DISABLE_STEPS + 1
  }

  predicate MadsOff(s: State) {
    s == Disabled || s == Paused
  }

  lemma MadsUnderSoft(s: State, m: SS.Main, selfEnabled: bool, ev: multiset<EventName>, sp: multiset<EventNameSP>)
    requires Contains(ev, SoftDisable)
    ensures var t := Mads.Update(s, m, selfEnabled, ev, sp).0;
            (MadsOff(s) ==> MadsOff(t))
            && (s == SoftDisabling ==> MadsOff(t) || (t == SoftDisabling && m.timer > 0))
            && (MadsOff(t) || t == SoftDisabling)
  {
    hide Contains, ContainsSP, CheckInList;
    SoftDisableListForbidsEntry(ev);
  }

  /** The same for the timer: MADS restarts it only when it enters soft-disabling. */
  lemma MadsUnderSoftTimer(s: State, m: SS.Main, selfEnabled: bool, ev: multiset<EventName>, sp: multiset<EventNameSP>)
    requires Contains(ev, SoftDisable) && s != Enabled && s != Overriding
    ensures var n := Mads.Update(s, m, selfEnabled, ev, sp).1; n.timer == m.timer && n.state == m.state
  {
    hide Contains, ContainsSP, CheckInList;
    SoftDisableListForbidsEntry(ev);
  }

  lemma RawSoftAt(s: Settings, j: Joint, i: StepInput)
    requires EditedSoftAt(s, j, i)
    ensures SoftAt(i)
  {
    hide Edited, Contains, ContainsSP;
    if s.enabledToggle {
      EditedSoftIsRaw(ContextOf(s, MainStep(j, i), i), i.raw);
    }
  }

  lemma MadsStepUnderSoft(s: Settings, j: Joint, i: StepInput)
    requires Good(s, j) && EditedSoftAt(s, j, i)
    ensures var k, n := MainStep(j, i), Step(s, j, i);
            (MadsOff(j.mads) ==> MadsOff(n.mads))
            && (j.mads == SoftDisabling ==>
                  n.main.timer == k.main.timer && n.main.state == k.main.state
                  && (MadsOff(n.mads) || (n.mads == SoftDisabling && k.main.timer > 0)))
            && (MadsOff(n.mads) || n.mads == SoftDisabling)
  {
    hide Edited, Contains, Mads.Update, SS.Update;
    var k := MainStep(j, i);
    if s.enabledToggle && k.initialized {
      var l := Edited(ContextOf(s, k, i), i.raw);
      MadsUnderSoft(k.mads, k.main, k.enabled, l.main, l.sp);
      if j.mads == SoftDisabling {
        MadsUnderSoftTimer(k.mads, k.main, k.enabled, l.main, l.sp);
      }
    }
  }

  lemma MadsBudgetFalls(s: Settings, j: Joint, i: StepInput)
    requires Good(s, j) && EditedSoftAt(s, j, i)
    requires MadsOff(j.mads) || j.mads == SoftDisabling
    ensures var n := Step(s, j, i);
            (MadsOff(n.mads) || n.mads == SoftDisabling) && MadsBudget(n) <= Less(MadsBudget(j))
  {
    hide SS.Update, MadsStep, Contains, EditedSoftAt;
    RawSoftAt(s, j, i);
    MainUnderSoft(j.main, i.raw.main);
    MadsStepUnderSoft(s, j, i);
  }

  lemma BudgetBound(s: Settings, j: Joint)
    requires Good(s, j)
    ensures MadsBudget(j) <= 598
    ensures MadsBudget(j) == 0 <==> j.mads != SoftDisabling
  {
  }

  lemma {:induction false} BudgetOverRun(s: Settings, inputs: seq<StepInput>, from: nat)
    requires from < |inputs|
    requires forall k :: from <= k < |inputs| ==> EditedSoftAt(s, After(s, inputs[..k]), inputs[k])
    ensures var j := After(s, inputs);
            (MadsOff(j.mads) || j.mads == SoftDisabling)
            && (MadsBudget(j) == 0 || MadsBudget(j) + (|inputs| - from - 1) <= 598)
  {
    hide Step, Good, MadsBudget, EditedSoftAt, MadsOff;
    var rest := inputs[..|inputs| - 1];
    var i := inputs[|inputs| - 1];
    EveryRunIsGood(s, rest);
    EveryRunIsGood(s, inputs);
    BudgetBound(s, After(s, inputs));
    assert EditedSoftAt(s, After(s, rest), i);
    if from < |rest| {
      forall k | from <= k < |rest|
        ensures EditedSoftAt(s, After(s, rest[..k]), rest[k])
      {
        assert rest[..k] == inputs[..k];
        assert EditedSoftAt(s, After(s, inputs[..k]), inputs[k]);
      }
      BudgetOverRun(s, rest, from);
      MadsBudgetFalls(s, After(s, rest), i);
    } else {
      MadsStepUnderSoft(s, After(s, rest), i);
    }
  }

  /** From any moment on, once the edited list has held SOFT_DISABLE for 599 steps in a row MADS is
      disabled or paused, and it stays so for as long as that lasts. */
  lemma MadsIsOffInTime(s: Settings, inputs: seq<StepInput>, from: nat)
    requires from + 599 <= |inputs|
    requires forall k :: from <= k < |inputs| ==> EditedSoftAt(s, After(s, inputs[..k]), inputs[k])
    ensures MadsOff(After(s, inputs).mads)
  {
    hide After, EditedSoftAt, Good, MadsBudget;
    EveryRunIsGood(s, inputs);
    BudgetBound(s, After(s, inputs));
    BudgetOverRun(s, inputs, from);
  }

  // ---------- when MADS becomes active ----------

  predicate AsksToEngage(l: Lists) {
    Check(l.main, l.sp, Enable) && !Check(l.main, l.sp, NoEntry)
  }

  predicate AsksToStop(l: Lists) {
    Check(l.main, l.sp, UserDisable) || Check(l.main, l.sp, ImmediateDisable)
  }

  lemma ActivationRule(s: State, m: SS.Main, selfEnabled: bool, l: Lists)
    requires MadsOff(s)
    ensures var t := Mads.Update(s, m, selfEnabled, l.main, l.sp).0;
            IsActive(t) <==> AsksToEngage(l) && !(s == Paused && AsksToStop(l))
  {
    hide Check, CheckInList;
  }

  /** MADS becomes active exactly on a step that runs it with ENABLE and no NO_ENTRY in the edited
      lists and, if it was paused, nothing that disables it. */
  lemma ActivationExactly(s: Settings, inputs: seq<StepInput>, i: StepInput)
    requires !After(s, inputs).madsActive
    ensures var j := After(s, inputs);
            var l := ListsAfter(s, j, i);
            After(s, inputs + [i]).madsActive <==>
              s.enabledToggle && (j.initialized || i.ready) && AsksToEngage(l) && !(j.mads == Paused && AsksToStop(l))
  {
    hide Edited, Mads.Update, SS.Update, AsksToEngage, AsksToStop;
    assert (inputs + [i])[..|inputs|] == inputs;
    var j := After(s, inputs);
    EveryRunIsGood(s, inputs);
    var k := MainStep(j, i);
    ActivationRule(k.mads, k.main, k.enabled, Edited(ContextOf(s, k, i), i.raw));
  }

  /** The engagement names that outlast the editing of a step. */
  predicate EngagementSurvives(s: Settings, j: Joint, i: StepInput) {
    var c := ContextOf(s, MainStep(j, i), i);
    i.raw.main[PcmEnable] > Removals(c, PcmEnable) || i.raw.main[ButtonEnable] > Removals(c, ButtonEnable)
  }

  /** Every activation comes from an engagement name that outlasted the editing, or from the other
      list. */
  lemma WhereActivationComesFrom(s: Settings, inputs: seq<StepInput>, i: StepInput)
    requires !After(s, inputs).madsActive && After(s, inputs + [i]).madsActive
    ensures var j := After(s, inputs);
            EngagementSurvives(s, j, i)
            || LkasEnable in ListsAfter(s, j, i).sp || SilentLkasEnable in ListsAfter(s, j, i).sp
  {
    hide Edited, After, Removals, Contains, ContainsSP;
    var j := After(s, inputs);
    var c := ContextOf(s, MainStep(j, i), i);
    ActivationExactly(s, inputs, i);
    EnableSurvives(c, i.raw);
    EnableSPMeansLkas(Edited(c, i.raw).sp);
  }

  lemma OnceIsNotEnough(c: Context, e: EventName, n: nat)
    requires (!c.toggles.unified || c.enabled) && IsEngagement(e) && n <= 1
    ensures n <= Removals(c, e)
  {
  }

  /** With unified engagement off, or from the paused state, engagement names that occur once do not
      activate MADS: the other list does. */
  lemma BlockedActivationIsLateral(s: Settings, inputs: seq<StepInput>, i: StepInput)
    requires !After(s, inputs).madsActive && After(s, inputs + [i]).madsActive
    requires !i.toggles.unified || After(s, inputs).mads == Paused
    requires i.raw.main[PcmEnable] <= 1 && i.raw.main[ButtonEnable] <= 1
    ensures var l := ListsAfter(s, After(s, inputs), i); LkasEnable in l.sp || SilentLkasEnable in l.sp
  {
    hide Edited, After, SS.Update, BlockUnified, Removals;
    EveryRunIsGood(s, inputs);
    WhereActivationComesFrom(s, inputs, i);
    var c := ContextOf(s, MainStep(After(s, inputs), i), i);
    OnceIsNotEnough(c, PcmEnable, i.raw.main[PcmEnable]);
    OnceIsNotEnough(c, ButtonEnable, i.raw.main[ButtonEnable]);
  }

  const DOUBLED := Lists(multiset{PcmEnable, PcmEnable}, multiset{})

  lemma DoubledIsEditedOnMainOnly(c: Context)
    requires c.selfEnabled && !c.paused && c.cs == NO_CAR_STATE && !c.csPrev.cruiseAvailable
    requires c.settings.steeringMode == RemainActive
    ensures Edited(c, DOUBLED).sp == multiset{}
  {
    hide BlockUnified, SilentEnable, RemoveMain;
    var d := EnableEdited(c, CarModeEdited(c, DOUBLED), SelfdriveEnables(DOUBLED.main));
    DoubledEnableStage(c);
    assert ButtonsEdited(c, d, c.cs.buttons) == d;
    RemoveKeepsSP();
  }

  lemma RemoveKeepsSP()
    ensures forall l, e :: RemoveMain(l, e).sp == l.sp
  {
  }

  lemma DoubledEnableStage(c: Context)
    requires c.cs == NO_CAR_STATE && !c.csPrev.cruiseAvailable
    ensures EnableEdited(c, CarModeEdited(c, DOUBLED), SelfdriveEnables(DOUBLED.main)).sp == multiset{}
  {
    hide BlockUnified;
    RemoveKeepsSP();
    assert PcmEnable in DOUBLED.main && PedalPressed !in DOUBLED.main && WrongCarMode !in DOUBLED.main;
  }

  lemma TwiceIsEnough(c: Context)
    ensures DOUBLED.main[PcmEnable] == 2 > Removals(c, PcmEnable)
  {
  }

  lemma NoTypeInNoList(et: ET)
    ensures !ContainsSP(multiset{}, et)
    ensures Contains(multiset{PcmEnable, PcmEnable}, et) <==> et == Enable
  {
    assert PcmEnable in multiset{PcmEnable, PcmEnable};
  }

  /** That the names occur once cannot be left out, for lists in general: one removal leaves the second of
      two equal names. The producers of events never put a name in twice. */
  lemma DoubledEnableActivates(s: Settings)
    requires s.enabledToggle && s.steeringMode == RemainActive
    ensures var i := StepInput(true, DOUBLED, NO_CAR_STATE, Toggles(false, false, false));
            After(s, [i]).madsActive && ListsAfter(s, START, i).sp == multiset{}
  {
    hide Edited, Contains, ContainsSP, Mads.Update, Types, Removals;
    var i := StepInput(true, DOUBLED, NO_CAR_STATE, Toggles(false, false, false));
    var k := MainStep(START, i);
    var c := ContextOf(s, k, i);
    NoTypeInNoList(Enable);
    NoTypeInNoList(NoEntry);
    NoTypeInNoList(PreEnable);
    NoTypeInNoList(OverrideLateral);
    NoTypeInNoList(OverrideLongitudinal);
    DoubledIsEditedOnMainOnly(c);
    EnableSurvives(c, DOUBLED);
    TwiceIsEnough(c);
    EditedIsPart(c, DOUBLED);
    if Contains(Edited(c, DOUBLED).main, NoEntry) {
      ContainsIsMonotone(Edited(c, DOUBLED).main, DOUBLED.main, NoEntry);
    }
    ActivationRule(k.mads, k.main, k.enabled, Edited(c, DOUBLED));
    assert [i][..0] == [];
    assert After(s, []) == START;
  }

  // ---------- hazards that MADS does not handle ----------

  lemma ImmediateTypes(e: EventName)
    ensures ImmediateDisable in Types(e) ==> NoEntry in Types(e) || e == CruiseDisabled || e == SpeedTooLow
  {
  }

  lemma ImmediateForbidsEntry(e: EventName)
    ensures ImmediateDisable in Types(e) && !Editable(e) ==> NoEntry in Types(e)
  {
    hide Types;
    ImmediateTypes(e);
  }

  lemma MadsUnderImmediate(s: State, m: SS.Main, selfEnabled: bool, ev: multiset<EventName>, sp: multiset<EventNameSP>)
    requires Contains(ev, ImmediateDisable) && Contains(ev, NoEntry)
    ensures MadsOff(Mads.Update(s, m, selfEnabled, ev, sp).0)
  {
    hide Contains, ContainsSP, CheckInList;
  }

  lemma Carried(events: multiset<EventName>, e: EventName, et: ET)
    requires e in events && et in Types(e)
    ensures Contains(events, et)
  {
  }

  lemma HazardReachesMads(c: Context, l: Lists, e: EventName)
    requires e in l.main && ImmediateDisable in Types(e) && !Editable(e)
    ensures Contains(l.main, ImmediateDisable) && Contains(l.main, NoEntry)
    ensures Contains(Edited(c, l).main, ImmediateDisable) && Contains(Edited(c, l).main, NoEntry)
  {
    hide Edited, Types, Editable, Contains;
    ImmediateForbidsEntry(e);
    EngagementIsNoHazard(e);
    OthersSurvive(c, l, e);
    Carried(l.main, e, ImmediateDisable);
    Carried(l.main, e, NoEntry);
    Carried(Edited(c, l).main, e, ImmediateDisable);
    Carried(Edited(c, l).main, e, NoEntry);
  }

  /** An event that disables at once, other than the few that MADS edits, leaves neither machine
      active after the step. */
  lemma HazardStopsBoth(s: Settings, inputs: seq<StepInput>, i: StepInput, e: EventName)
    requires e in i.raw.main && ImmediateDisable in Types(e) && !Editable(e)
    ensures var k := After(s, inputs + [i]); !k.active && !k.madsActive
  {
    hide Edited, Mads.Update, SS.Update, Types, Editable, Contains;
    assert (inputs + [i])[..|inputs|] == inputs;
    var j := After(s, inputs);
    EveryRunIsGood(s, inputs);
    EveryRunIsGood(s, inputs + [i]);
    var k := MainStep(j, i);
    var l := Edited(ContextOf(s, k, i), i.raw);
    HazardReachesMads(ContextOf(s, k, i), i.raw, e);
    MainUnderImmediate(j.main, i.raw.main);
    MadsStepLeavesMain(s, k, i);
    MadsUnderImmediate(k.mads, k.main, k.enabled, l.main, l.sp);
  }

  lemma EngagementIsNoHazard(e: EventName)
    requires ImmediateDisable in Types(e)
    ensures !IsEngagement(e)
  {
  }

  lemma MainUnderImmediate(m: SS.Main, events: multiset<EventName>)
    requires Contains(events, ImmediateDisable) && Contains(events, NoEntry)
    ensures SS.Update(m, events).state == SS.Disabled
  {
    hide Contains;
  }

  // ---------- the warnings shown ----------

  lemma MainWarns(m: SS.Main, events: multiset<EventName>)
    ensures var n := SS.Update(m, events); Warning in n.alerts <==> SS.IsActive(n.state)
  {
    hide Contains;
  }

  lemma MadsWarns(s: State, m: SS.Main, selfEnabled: bool, ev: multiset<EventName>, sp: multiset<EventNameSP>)
    ensures var (t, n) := Mads.Update(s, m, selfEnabled, ev, sp);
            Warning in n.alerts <==> Warning in m.alerts || (!selfEnabled && IsActive(t))
  {
    hide Check, CheckInList;
  }

  /** Warnings are shown exactly while the main machine is active, or MADS is and the main one is
      not even enabled. */
  lemma WarningsShown(s: Settings, inputs: seq<StepInput>, i: StepInput)
    requires After(s, inputs).initialized || i.ready
    ensures var k := After(s, inputs + [i]);
            Warning in k.main.alerts <==> k.active || (k.madsActive && !k.enabled)
  {
    hide Edited, Mads.Update, SS.Update;
    assert (inputs + [i])[..|inputs|] == inputs;
    var j := After(s, inputs);
    EveryRunIsGood(s, inputs);
    EveryRunIsGood(s, inputs + [i]);
    var k := MainStep(j, i);
    var l := Edited(ContextOf(s, k, i), i.raw);
    MainWarns(j.main, i.raw.main);
    MadsWarns(k.mads, k.main, k.enabled, l.main, l.sp);
    MadsStepLeavesMain(s, k, i);
  }
}
