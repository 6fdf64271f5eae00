/**
 The two engagement machines by the state they go to: exactly when each state is entered or kept, and
 exactly which alert types are shown, first for single steps and then along whole drives.
 */
module EngagementRules {
  import opened EventTables
  import opened Mads
  import opened MadsEdits
  import opened MadsRequests
  import opened Selfdrived
  import opened EngagementRuns
  import SS = SelfdriveState

  // ---------- the main machine ----------

  predicate Stops(ev: multiset<EventName>) {
    Contains(ev, UserDisable) || Contains(ev, ImmediateDisable)
  }

  predicate Engages(ev: multiset<EventName>) {
    Contains(ev, Enable) && !Contains(ev, NoEntry)
  }

  predicate Overrides(ev: multiset<EventName>) {
    Contains(ev, OverrideLateral) || Contains(ev, OverrideLongitudinal)
  }

  predicate Driving(s: SS.OpState) {
    s == SS.Enabled || s == SS.Overriding
  }

  /** From `m` to state `n` under the events, by the state that is reached. */
  predicate MainGoes(m: SS.Main, ev: multiset<EventName>, n: SS.OpState) {
    var off, soft := m.state == SS.Disabled, Contains(ev, SoftDisable);
    match n
    case Disabled =>
      if off then !Engages(ev) else Stops(ev) || (m.state == SS.SoftDisabling && soft && m.timer <= 1)
    case PreEnabled =>
      Contains(ev, PreEnable) && if off then Engages(ev) else m.state == SS.PreEnabled && !Stops(ev)
    case SoftDisabling =>
      soft && !Stops(ev) && (Driving(m.state) || (m.state == SS.SoftDisabling && m.timer > 1))
    case Overriding =>
      Overrides(ev)
      && if off then Engages(ev) && !Contains(ev, PreEnable) else Driving(m.state) && !Stops(ev) && !soft
    case Enabled =>
      if off then Engages(ev) && !Contains(ev, PreEnable) && !Overrides(ev)
      else !Stops(ev) && ((Driving(m.state) && !soft && !Overrides(ev)) || (m.state == SS.SoftDisabling && !soft)
                          || (m.state == SS.PreEnabled && !Contains(ev, PreEnable)))
  }

  /** The alert types of a step that takes the main machine from `m` to state `n`. */
  predicate MainShows(m: SS.Main, ev: multiset<EventName>, n: SS.OpState, et: ET) {
    match et
    case Permanent => true
    case UserDisable => m.state != SS.Disabled && Contains(ev, UserDisable)
    case ImmediateDisable => m.state != SS.Disabled && Contains(ev, ImmediateDisable) && !Contains(ev, UserDisable)
    case SoftDisable => n == SS.SoftDisabling
    case PreEnable => m.state == SS.PreEnabled && n == SS.PreEnabled
    case OverrideLateral | OverrideLongitudinal => m.state != SS.Disabled && n == SS.Overriding
    case Enable => m.state == SS.Disabled && n != SS.Disabled
    case NoEntry => m.state == SS.Disabled && Contains(ev, Enable) && Contains(ev, NoEntry)
    case Warning => n == SS.Enabled || n == SS.SoftDisabling || n == SS.Overriding
  }

  lemma MainStepExactly(m: SS.Main, ev: multiset<EventName>, n: SS.OpState, et: ET)
    ensures SS.Update(m, ev).state == n <==> MainGoes(m, ev, n)
    ensures et in SS.Update(m, ev).alerts <==> MainShows(m, ev, SS.Update(m, ev).state, et)
    ensures SS.Update(m, ev).timer == if SS.Update(m, ev).state == SS.SoftDisabling && m.state != SS.SoftDisabling
                                      then 300 else Less(m.timer)
  {
    hide Contains;
  }

  // ---------- MADS ----------

  predicate Steering(s: State) {
    s == Enabled || s == Overriding
  }

  /** A hazard that keeps MADS from starting, but lets it wait in the paused state. */
  predicate WaitsFor(l: Lists) {
    WrongGear in l.main || ReverseGear in l.main || BrakeHold in l.main || DoorOpen in l.main
    || SeatbeltNotLatched in l.main || ParkBrake in l.main
    || SilentWrongGear in l.sp || SilentReverseGear in l.sp || SilentBrakeHold in l.sp || SilentDoorOpen in l.sp
    || SilentSeatbeltNotLatched in l.sp || SilentParkBrake in l.sp
  }

  predicate PausesMads(s: State, l: Lists) {
    || (s != Disabled && Check(l.main, l.sp, UserDisable) && SilentLkasDisable in l.sp)
    || (s == Paused && !AsksToStop(l) && !AsksToEngage(l))
    || (s == Disabled && Check(l.main, l.sp, Enable) && Check(l.main, l.sp, NoEntry) && WaitsFor(l))
  }

  predicate EndsMads(s: State, timer: nat, l: Lists) {
    if s == Disabled then !AsksToEngage(l) && !(Check(l.main, l.sp, Enable) && WaitsFor(l))
    else
      || (Check(l.main, l.sp, UserDisable) && SilentLkasDisable !in l.sp)
      || (Check(l.main, l.sp, ImmediateDisable) && !Check(l.main, l.sp, UserDisable))
      || (s == SoftDisabling && !AsksToStop(l) && Check(l.main, l.sp, SoftDisable) && timer == 0)
  }

  /** From `s` to state `t` under the edited lists, by the state that is reached. */
  predicate MadsGoes(s: State, timer: nat, l: Lists, t: State) {
    var soft, lateral := Check(l.main, l.sp, SoftDisable), Check(l.main, l.sp, OverrideLateral);
    var starts := AsksToEngage(l) && (s == Disabled || (s == Paused && !AsksToStop(l)));
    match t
    case Paused => PausesMads(s, l)
    case Disabled => EndsMads(s, timer, l)
    case SoftDisabling => soft && !AsksToStop(l) && (Steering(s) || (s == SoftDisabling && timer > 0))
    case Overriding => lateral && (starts || (Steering(s) && !AsksToStop(l) && !soft))
    case Enabled =>
      (starts && !lateral)
      || (!AsksToStop(l) && !soft && ((Steering(s) && !lateral) || s == SoftDisabling))
  }

  lemma WaitingIsListed(l: Lists)
    ensures CheckInList(l.main, l.sp) <==> WaitsFor(l)
  {
    assert forall e :: e in GEARS_ALLOW_PAUSED <==>
      e == WrongGear || e == ReverseGear || e == BrakeHold || e == DoorOpen || e == SeatbeltNotLatched || e == ParkBrake;
    assert forall x :: x in GEARS_ALLOW_PAUSED_SILENT <==> SilentName(x);
    assert SilentName(SilentWrongGear) && SilentName(SilentReverseGear) && SilentName(SilentBrakeHold);
    assert SilentName(SilentDoorOpen) && SilentName(SilentSeatbeltNotLatched) && SilentName(SilentParkBrake);
  }

  lemma MadsStepExactly(s: State, m: SS.Main, selfEnabled: bool, l: Lists, t: State)
    ensures var (u, n) := Mads.Update(s, m, selfEnabled, l.main, l.sp);
            && (u == t <==> MadsGoes(s, m.timer, l, t))
            && n.timer == if !selfEnabled && Steering(s) && u == SoftDisabling then 300 else m.timer
  {
    hide Check, WaitsFor, CheckInList;
    WaitingIsListed(l);
  }

  /** The alert types that MADS adds; most only while the main machine is not enabled. */
  predicate MadsShows(s: State, selfEnabled: bool, l: Lists, t: State, et: ET) {
    match et
    case UserDisable => s != Disabled && Check(l.main, l.sp, UserDisable)
    case OverrideLateral => t == Overriding && (s == Overriding || (s == Enabled && !selfEnabled))
    case ImmediateDisable =>
      !selfEnabled && s != Disabled && Check(l.main, l.sp, ImmediateDisable) && !Check(l.main, l.sp, UserDisable)
    case SoftDisable => !selfEnabled && t == SoftDisabling
    case Enable => !selfEnabled && IsActive(t) && (s == Disabled || s == Paused)
    case NoEntry =>
      !selfEnabled && Check(l.main, l.sp, Enable) && Check(l.main, l.sp, NoEntry)
      && (s == Disabled || (s == Paused && !AsksToStop(l)))
    case Warning => !selfEnabled && IsActive(t)
    case Permanent | PreEnable | OverrideLongitudinal => false
  }

  lemma MadsAlertsExactly(s: State, m: SS.Main, selfEnabled: bool, l: Lists, et: ET)
    ensures var (t, n) := Mads.Update(s, m, selfEnabled, l.main, l.sp);
            et in n.alerts <==> et in m.alerts || MadsShows(s, selfEnabled, l, t, et)
  {
    hide Check, CheckInList;
  }

  // ---------- along drives ----------

  predicate Ready(j: Joint, i: StepInput) {
    j.initialized || i.ready
  }

  predicate RunsMads(s: Settings, j: Joint, i: StepInput) {
    s.enabledToggle && Ready(j, i)
  }

  lemma RunOneMore(s: Settings, inputs: seq<StepInput>, i: StepInput)
    ensures After(s, inputs + [i]) == Step(s, After(s, inputs), i)
  {
    hide Step;
    assert (inputs + [i])[..|inputs|] == inputs;
  }

  /** Every ready step of every drive moves both machines by these rules, the main one on the raw list and
      MADS on the edited ones. */
  lemma DriveGoesExactly(s: Settings, inputs: seq<StepInput>, i: StepInput, n: SS.OpState, t: State)
    requires Ready(After(s, inputs), i)
    ensures var j, k := After(s, inputs), After(s, inputs + [i]);
            && (k.main.state == n <==> MainGoes(j.main, i.raw.main, n))
            && (k.mads == t <==>
                  if s.enabledToggle then MadsGoes(j.mads, MainStep(j, i).main.timer, ListsAfter(s, j, i), t)
                  else t == Disabled)
            && k.enabled == (k.main.state != SS.Disabled)
            && k.active == (k.main.state != SS.Disabled && k.main.state != SS.PreEnabled)
            && k.madsEnabled == (k.mads != Disabled)
            && k.madsActive == (k.mads != Disabled && k.mads != Paused)
  {
    hide Edited, Mads.Update, SS.Update, MainGoes, MadsGoes, After;
    RunOneMore(s, inputs, i);
    var j := After(s, inputs);
    EveryRunIsGood(s, inputs);
    EveryRunIsGood(s, inputs + [i]);
    var k := MainStep(j, i);
    MainStepExactly(j.main, i.raw.main, n, Permanent);
    MadsStepLeavesMain(s, k, i);
    MadsStepExactly(k.mads, k.main, k.enabled, Edited(ContextOf(s, k, i), i.raw), t);
  }

  /** The alert types after a ready step: those of the main machine and those that MADS adds. */
  lemma DriveShowsExactly(s: Settings, inputs: seq<StepInput>, i: StepInput, et: ET)
    requires Ready(After(s, inputs), i)
    ensures var j, k := After(s, inputs), After(s, inputs + [i]);
            et in k.main.alerts <==>
              MainShows(j.main, i.raw.main, k.main.state, et)
              || (s.enabledToggle && MadsShows(j.mads, k.enabled, ListsAfter(s, j, i), k.mads, et))
  {
    hide Edited, Mads.Update, SS.Update, MainShows, MadsShows, After;
    RunOneMore(s, inputs, i);
    var j := After(s, inputs);
    var k := MainStep(j, i);
    MainStepExactly(j.main, i.raw.main, k.main.state, et);
    MadsStepLeavesMain(s, k, i);
    MadsAlertsExactly(k.mads, k.main, k.enabled, Edited(ContextOf(s, k, i), i.raw), et);
  }

  /** The driver takes over: whatever the state, after a step whose raw list carries USER_DISABLE the main
      machine is neither enabled nor active, and if it was on the alert says so. */
  lemma UserDisableStopsMain(s: Settings, inputs: seq<StepInput>, i: StepInput)
    requires Ready(After(s, inputs), i) && Contains(i.raw.main, UserDisable)
    requires After(s, inputs).main.state != SS.Disabled
    ensures var k := After(s, inputs + [i]);
            k.main.state == SS.Disabled && !k.enabled && !k.active && UserDisable in k.main.alerts
  {
    hide After;
    DriveGoesExactly(s, inputs, i, SS.Disabled, Disabled);
    DriveShowsExactly(s, inputs, i, UserDisable);
  }

  /** The names by which the driver, or the car in the driver's place, takes over. */
  lemma UserDisableNames(ev: multiset<EventName>)
    ensures Contains(ev, UserDisable) <==>
      PcmDisable in ev || ButtonCancel in ev || ParkBrake in ev || PedalPressed in ev || SteerDisengage in ev
      || WrongCarMode in ev || WrongCruiseMode in ev || ReverseGear in ev
  {
    hide Contains, Types;
    if Contains(ev, UserDisable) {
      var e := SomeEvent(ev, UserDisable);
      TakesOverExactly(e);
    }
    TakesOverIfIn(ev, PcmDisable);
    TakesOverIfIn(ev, ButtonCancel);
    TakesOverIfIn(ev, ParkBrake);
    TakesOverIfIn(ev, PedalPressed);
    TakesOverIfIn(ev, SteerDisengage);
    TakesOverIfIn(ev, WrongCarMode);
    TakesOverIfIn(ev, WrongCruiseMode);
    TakesOverIfIn(ev, ReverseGear);
  }

  lemma SomeEvent(ev: multiset<EventName>, et: ET) returns (e: EventName)
    requires Contains(ev, et)
    ensures e in ev && et in Types(e)
  {
    e :| e in ev && et in Types(e);
  }

  lemma TakesOverIfIn(ev: multiset<EventName>, e: EventName)
    requires TakesOver(e)
    ensures e in ev ==> Contains(ev, UserDisable)
  {
    hide Types;
    TakesOverExactly(e);
    if e in ev {
      Carried(ev, e, UserDisable);
    }
  }

  predicate TakesOver(e: EventName) {
    e.PcmDisable? || e.ButtonCancel? || e.ParkBrake? || e.PedalPressed? || e.SteerDisengage?
    || e.WrongCarMode? || e.WrongCruiseMode? || e.ReverseGear?
  }

  lemma TakesOverExactly(e: EventName)
    ensures UserDisable in Types(e) <==> TakesOver(e)
  {
  }

  /** From disabled the main machine leaves exactly on ENABLE without NO_ENTRY: into pre-enabled if
      PRE_ENABLE is there, else into overriding if an override is, else into enabled. */
  lemma MainActivationExactly(s: Settings, inputs: seq<StepInput>, i: StepInput)
    requires Ready(After(s, inputs), i) && After(s, inputs).main.state == SS.Disabled
    ensures var n := After(s, inputs + [i]).main.state;
            && (n == SS.Disabled <==> !Engages(i.raw.main))
            && (n == SS.PreEnabled <==> Engages(i.raw.main) && Contains(i.raw.main, PreEnable))
            && (n == SS.Overriding <==>
                  Engages(i.raw.main) && !Contains(i.raw.main, PreEnable) && Overrides(i.raw.main))
            && n != SS.SoftDisabling
  {
    hide After, Contains;
    DriveGoesExactly(s, inputs, i, SS.Disabled, Disabled);
    DriveGoesExactly(s, inputs, i, SS.PreEnabled, Disabled);
    DriveGoesExactly(s, inputs, i, SS.Overriding, Disabled);
    DriveGoesExactly(s, inputs, i, SS.SoftDisabling, Disabled);
  }

  /** While nothing disables, the main machine is overriding exactly on the steps that override. */
  lemma OverridingExactly(s: Settings, inputs: seq<StepInput>, i: StepInput)
    requires Ready(After(s, inputs), i) && Driving(After(s, inputs).main.state)
    requires !Stops(i.raw.main) && !Contains(i.raw.main, SoftDisable)
    ensures After(s, inputs + [i]).main.state == if Overrides(i.raw.main) then SS.Overriding else SS.Enabled
  {
    hide After, Contains;
    DriveGoesExactly(s, inputs, i, SS.Overriding, Disabled);
    DriveGoesExactly(s, inputs, i, SS.Enabled, Disabled);
  }

  // ---------- switching MADS off ----------

  lemma SPCarries(sp: multiset<EventNameSP>, x: EventNameSP, et: ET)
    requires x in sp && et in TypesSP(x)
    ensures ContainsSP(sp, et)
  {
  }

  lemma UserDisableNamesSP(sp: multiset<EventNameSP>)
    ensures ContainsSP(sp, UserDisable) <==>
      LkasDisable in sp || ManualSteeringRequired in sp || SilentLkasDisable in sp
  {
    hide ContainsSP;
    if LkasDisable in sp {
      SPCarries(sp, LkasDisable, UserDisable);
    }
    if ManualSteeringRequired in sp {
      SPCarries(sp, ManualSteeringRequired, UserDisable);
    }
    if SilentLkasDisable in sp {
      SPCarries(sp, SilentLkasDisable, UserDisable);
    }
    if ContainsSP(sp, UserDisable) {
      var x := SomeSP(sp, UserDisable);
    }
  }

  lemma SomeSP(sp: multiset<EventNameSP>, et: ET) returns (x: EventNameSP)
    requires ContainsSP(sp, et)
    ensures x in sp && et in TypesSP(x)
  {
    x :| x in sp && et in TypesSP(x);
  }

  /** What MADS's editing sees in a step. */
  function ContextAt(s: Settings, j: Joint, i: StepInput): Context {
    ContextOf(s, MainStep(j, i), i)
  }

  /** From any state but disabled a list with USER_DISABLE leads to paused exactly if it holds
      silentLkasDisable, by the raw list or by its reason, and to disabled otherwise. */
  lemma UserDisableGoesTo(s: Settings, inputs: seq<StepInput>, i: StepInput)
    requires var j := After(s, inputs);
             RunsMads(s, j, i) && j.mads != Disabled
             && Check(ListsAfter(s, j, i).main, ListsAfter(s, j, i).sp, UserDisable)
    ensures var j := After(s, inputs);
            After(s, inputs + [i]).mads
            == if SilentLkasDisable in i.raw.sp || PauseReason(ContextAt(s, j, i), i.raw.main) then Paused else Disabled
    ensures UserDisable in After(s, inputs + [i]).main.alerts
  {
    hide After, Check, Edited, PauseReason;
    var j := After(s, inputs);
    DriveGoesExactly(s, inputs, i, SS.Disabled, Paused);
    DriveGoesExactly(s, inputs, i, SS.Disabled, Disabled);
    DriveShowsExactly(s, inputs, i, UserDisable);
    RequestedExactly(ContextAt(s, j, i), i.raw, SilentLkasDisable);
  }

  /** MADS enters the paused state exactly when it is on and silently disabled, or off and asked to engage
      while a hazard it can wait for forbids entry. */
  lemma EntersPausedExactly(s: Settings, inputs: seq<StepInput>, i: StepInput)
    requires After(s, inputs).mads != Paused
    ensures var j := After(s, inputs);
            var l := ListsAfter(s, j, i);
            After(s, inputs + [i]).mads == Paused <==>
              RunsMads(s, j, i)
              && if j.mads != Disabled then Check(l.main, l.sp, UserDisable) && SilentLkasDisable in l.sp
                 else Check(l.main, l.sp, Enable) && Check(l.main, l.sp, NoEntry) && WaitsFor(l)
  {
    hide Check, Edited, WaitsFor, After, Mads.Update;
    if Ready(After(s, inputs), i) {
      DriveGoesExactly(s, inputs, i, SS.Disabled, Paused);
    } else {
      RunOneMore(s, inputs, i);
    }
  }

  predicate AsksEnable(s: Settings, j: Joint, i: StepInput) {
    Check(ListsAfter(s, j, i).main, ListsAfter(s, j, i).sp, Enable)
  }

  lemma OffStays(s: Settings, inputs: seq<StepInput>, i: StepInput)
    requires After(s, inputs).mads == Disabled && !AsksEnable(s, After(s, inputs), i)
    ensures After(s, inputs + [i]).mads == Disabled
  {
    hide Check, Edited, After, Mads.Update, WaitsFor;
    if Ready(After(s, inputs), i) {
      DriveGoesExactly(s, inputs, i, SS.Disabled, Disabled);
    } else {
      RunOneMore(s, inputs, i);
    }
  }

  /** What the driver has switched off stays off: from disabled MADS stays disabled until a step whose
      edited lists ask to engage. */
  lemma {:induction false} OffUntilAsked(s: Settings, inputs: seq<StepInput>, from: nat)
    requires from <= |inputs| && After(s, inputs[..from]).mads == Disabled
    requires forall k :: from <= k < |inputs| ==> !AsksEnable(s, After(s, inputs[..k]), inputs[k])
    ensures After(s, inputs).mads == Disabled
    decreases |inputs|
  {
    hide After, AsksEnable;
    if from == |inputs| {
      assert inputs[..from] == inputs;
    } else {
      var rest, i := inputs[..|inputs| - 1], inputs[|inputs| - 1];
      assert rest[..from] == inputs[..from] && rest + [i] == inputs;
      forall k | from <= k < |rest|
        ensures !AsksEnable(s, After(s, rest[..k]), rest[k])
      {
        assert rest[..k] == inputs[..k];
      }
      OffUntilAsked(s, rest, from);
      assert inputs[..|rest|] == rest;
      OffStays(s, rest, i);
    }
  }

  /** The lkas button always works: a press that counts while MADS is on leaves it not active, and asks
      for manual steering if the main machine is on. */
  lemma LkasButtonStopsMads(s: Settings, inputs: seq<StepInput>, i: StepInput)
    requires var j := After(s, inputs);
             RunsMads(s, j, i) && j.madsEnabled && LkasPress(ContextAt(s, j, i), i.cs.buttons)
    ensures var k := After(s, inputs + [i]);
            !k.madsActive && UserDisable in k.main.alerts
            && (if k.enabled then ManualSteeringRequired else LkasDisable) in ListsAfter(s, After(s, inputs), i).sp
  {
    hide After, Edited, SS.Update, LkasPress, Contains, ContainsSP;
    var j := After(s, inputs);
    var c, l := ContextAt(s, j, i), ListsAfter(s, j, i);
    EveryRunIsGood(s, inputs);
    RequestedExactly(c, i.raw, LkasDisable);
    RequestedExactly(c, i.raw, ManualSteeringRequired);
    UserDisableNamesSP(l.sp);
    UserDisableGoesTo(s, inputs, i);
    DriveGoesExactly(s, inputs, i, SS.Disabled, Paused);
    RunOneMore(s, inputs, i);
    MadsStepLeavesMain(s, MainStep(j, i), i);
  }

  /** Names that MADS hides, in lists that hold each of them at most once. */
  predicate Singles(main: multiset<EventName>) {
    main[PcmDisable] <= 1 && main[ButtonCancel] <= 1 && main[PedalPressed] <= 1 && main[WrongCarMode] <= 1
    && main[WrongCruiseMode] <= 1 && main[ParkBrake] <= 1 && main[ReverseGear] <= 1
  }

  /** Of the ways to take over, those that stop lateral control too. */
  predicate StopsLateral(c: Context, l: Lists) {
    || SteerDisengage in l.main
    || (!LateralOn(c) && (ParkBrake in l.main || ReverseGear in l.main))
    || LkasDisable in l.sp || ManualSteeringRequired in l.sp || SilentLkasDisable in l.sp
    || DisableReason(c, l.main) || PauseReason(c, l.main)
    || (LkasPress(c, c.cs.buttons) && c.enabled && c.selfEnabled)
  }

  /** The edited lists carry USER_DISABLE exactly for these. */
  lemma UserDisableReachesMads(c: Context, l: Lists)
    requires Singles(l.main)
    ensures Check(Edited(c, l).main, Edited(c, l).sp, UserDisable) <==> StopsLateral(c, l)
  {
    hide Edited, Contains, ContainsSP, DisableReason, PauseReason, LkasPress, Singles;
    TakeoversLeft(c, l);
    UserDisableNamesSP(Edited(c, l).sp);
    RequestedExactly(c, l, LkasDisable);
    RequestedExactly(c, l, ManualSteeringRequired);
    RequestedExactly(c, l, SilentLkasDisable);
  }

  lemma TakeoverRemovals(c: Context)
    ensures Removals(c, PcmDisable) == Removals(c, ButtonCancel) == Removals(c, PedalPressed) == 1
    ensures Removals(c, WrongCarMode) == Removals(c, WrongCruiseMode) == 1 && Removals(c, SteerDisengage) == 0
    ensures Removals(c, ParkBrake) == Removals(c, ReverseGear) == if LateralOn(c) then 1 else 0
  {
  }

  lemma LeftExactly(c: Context, l: Lists, e: EventName)
    ensures e in Edited(c, l).main <==> l.main[e] > Removals(c, e)
  {
    hide Edited, Removals;
    EditedCount(c, l, e);
  }

  lemma TakeoversLeft(c: Context, l: Lists)
    requires Singles(l.main)
    ensures Contains(Edited(c, l).main, UserDisable) <==>
      SteerDisengage in l.main || (!LateralOn(c) && (ParkBrake in l.main || ReverseGear in l.main))
  {
    hide Edited, Contains, Removals, LateralOn;
    UserDisableNames(Edited(c, l).main);
    TakeoverRemovals(c);
    LeftExactly(c, l, PcmDisable);
    LeftExactly(c, l, ButtonCancel);
    LeftExactly(c, l, ParkBrake);
    LeftExactly(c, l, PedalPressed);
    LeftExactly(c, l, SteerDisengage);
    LeftExactly(c, l, WrongCarMode);
    LeftExactly(c, l, WrongCruiseMode);
    LeftExactly(c, l, ReverseGear);
  }

  // ---------- the brake, by its mode ----------

  /** Only the brake: nothing else in the lists, no button, and the cruise switch left alone. */
  predicate OnlyBrakes(j: Joint, i: StepInput) {
    i.raw == Lists(multiset{PedalPressed}, multiset{}) && i.cs.buttons == []
    && i.cs.cruiseAvailable == j.csPrev.cruiseAvailable && !i.cs.gasPressed
  }

  lemma BrakeLists(c: Context, l: Lists)
    requires l == Lists(multiset{PedalPressed}, multiset{}) && c.cs.buttons == [] && LateralOn(c) && !c.paused
    requires c.cs.cruiseAvailable == c.csPrev.cruiseAvailable && !c.cs.gasPressed
    ensures Edited(c, l).main == multiset{}
    ensures forall x :: x in Edited(c, l).sp <==>
      (x == SilentLkasDisable && c.settings.steeringMode == Pause)
      || (x == LkasDisable && c.settings.steeringMode == Disengage)
  {
    hide Edited;
    EditedIsPart(c, l);
    EditedCount(c, l, PedalPressed);
    assert l.main[PedalPressed] == 1;
    assert !Pressed([], Lkas) && !Moved([], Cancel) && !SetSpeedMoved([]);
    forall x
      ensures x in Edited(c, l).sp <==> (x == SilentLkasDisable && c.settings.steeringMode == Pause)
                                        || (x == LkasDisable && c.settings.steeringMode == Disengage)
    {
      RequestedExactly(c, l, x);
    }
  }

  /** The brake always stops the main machine; what it does to MADS is the mode the driver has chosen:
      steering goes on, pauses, or ends. */
  lemma BrakeByMode(s: Settings, inputs: seq<StepInput>, i: StepInput)
    requires var j := After(s, inputs); RunsMads(s, j, i) && j.madsActive && OnlyBrakes(j, i)
    ensures var k := After(s, inputs + [i]);
            && !k.enabled
            && match s.steeringMode
               case RemainActive => k.mads == Enabled
               case Pause => k.mads == Paused
               case Disengage => k.mads == Disabled
  {
    hide After, Edited, SS.Update, Contains, ContainsSP, Mads.Update;
    var j := After(s, inputs);
    var c, l := ContextAt(s, j, i), ListsAfter(s, j, i);
    EveryRunIsGood(s, inputs);
    OnlyPedalTypes();
    MainStepExactly(j.main, i.raw.main, SS.Disabled, Permanent);
    RunOneMore(s, inputs, i);
    MadsStepLeavesMain(s, MainStep(j, i), i);
    BrakeLists(c, i.raw);
    BrakeTypes(l);
    DriveGoesExactly(s, inputs, i, SS.Disabled, Enabled);
    DriveGoesExactly(s, inputs, i, SS.Disabled, Paused);
    DriveGoesExactly(s, inputs, i, SS.Disabled, Disabled);
  }

  lemma OnlyPedalTypes()
    ensures var ev := multiset{PedalPressed};
            Contains(ev, UserDisable) && Contains(ev, NoEntry) && !Contains(ev, Enable)
  {
    assert PedalPressed in multiset{PedalPressed};
  }

  lemma BrakeTypes(l: Lists)
    requires l.main == multiset{}
    requires forall x :: x in l.sp ==> x == SilentLkasDisable || x == LkasDisable
    ensures Check(l.main, l.sp, UserDisable) <==> SilentLkasDisable in l.sp || LkasDisable in l.sp
    ensures forall et :: et != UserDisable ==> !Check(l.main, l.sp, et)
  {
  }

  // ---------- MADS's own countdown ----------

  /** SOFT_DISABLE for MADS, and nothing stronger. */
  predicate SoftlyAt(s: Settings, j: Joint, i: StepInput) {
    EditedSoftAt(s, j, i) && !AsksToStop(ListsAfter(s, j, i))
  }

  predicate MadsCountsDown(j: Joint, steps: nat) {
    if 1 <= steps <= 300 then j.mads == SoftDisabling && j.main.timer == 301 - steps
    else steps > 0 ==> MadsOff(j.mads)
  }

  lemma MadsCountdownStep(s: Settings, inputs: seq<StepInput>, i: StepInput, steps: nat)
    requires var j := After(s, inputs);
             j.main.state == SS.Disabled && SoftlyAt(s, j, i) && MadsCountsDown(j, steps)
             && (steps == 0 ==> Steering(j.mads))
    ensures var k := After(s, inputs + [i]); k.main.state == SS.Disabled && MadsCountsDown(k, steps + 1)
  {
    hide After, Edited, SS.Update, Mads.Update, Contains, ContainsSP;
    var j := After(s, inputs);
    EveryRunIsGood(s, inputs);
    RunOneMore(s, inputs, i);
    RawSoftAt(s, j, i);
    MainUnderSoft(j.main, i.raw.main);
    var k, l := MainStep(j, i), ListsAfter(s, j, i);
    MadsStepLeavesMain(s, k, i);
    MadsStepUnderSoft(s, j, i);
    if s.enabledToggle && k.initialized {
      MadsStepExactly(k.mads, k.main, k.enabled, l, SoftDisabling);
    }
  }

  /** Three seconds for steering too: from steering with the main machine off, SOFT_DISABLE and nothing
      stronger is counted down in full, 300 steps, and then steering ends. */
  lemma {:induction false} MadsFullCountdown(s: Settings, inputs: seq<StepInput>, from: nat)
    requires from <= |inputs|
    requires var j := After(s, inputs[..from]); j.main.state == SS.Disabled && Steering(j.mads)
    requires forall k :: from <= k < |inputs| ==> SoftlyAt(s, After(s, inputs[..k]), inputs[k])
    ensures var j := After(s, inputs); j.main.state == SS.Disabled && MadsCountsDown(j, |inputs| - from)
    decreases |inputs|
  {
    hide After, SoftlyAt;
    if from == |inputs| {
      assert inputs[..from] == inputs;
    } else {
      var rest, i := inputs[..|inputs| - 1], inputs[|inputs| - 1];
      assert rest[..from] == inputs[..from] && rest + [i] == inputs && inputs[..|rest|] == rest;
      forall k | from <= k < |rest|
        ensures SoftlyAt(s, After(s, rest[..k]), rest[k])
      {
        assert rest[..k] == inputs[..k];
      }
      MadsFullCountdown(s, rest, from);
      if from == |rest| {
        assert rest[..from] == rest;
      }
      MadsCountdownStep(s, rest, i, |rest| - from);
    }
  }
}
