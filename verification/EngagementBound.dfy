/**
 The bound of `EngagementRuns.MadsIsOffInTime` is exact: a run in which MADS stays soft-disabling for
 598 steps with SOFT_DISABLE in the edited list. The car stands still with its cruise control available; its
 raw lists are ones that the producers of events give.
 */
module EngagementBound {
  import opened EventTables
  import opened Mads
  import opened MadsEdits
  import opened Selfdrived
  import opened EngagementRuns
  import opened EngagementSources
  import opened CarSpecific
  import SS = SelfdriveState

  const TOGGLES := Toggles(false, true, false)

  /** Standing, with cruise control available; and the lkas button pressed. */
  const CAR := CarState(true, 0.0, false, false, true, [])
  const CAR_LKAS := CAR.(buttons := [ButtonEvent(Lkas, true)])

  function Input(main: multiset<EventName>): StepInput {
    StepInput(true, Lists(main, multiset{}), CAR, TOGGLES)
  }

  const WAKING := Input(multiset{SelfdriveInitializing}).(ready := false)
  const LATERAL := Input(multiset{PreEnableStandstill}).(cs := CAR_LKAS)
  const ENGAGE := Input(multiset{ButtonEnable, PreEnableStandstill})
  const HOLD := Input(multiset{CameraMalfunction, PreEnableStandstill})
  const FAULT := Input(multiset{CameraMalfunction})

  // ---------- lists that the editing leaves alone but for the names it removes ----------

  predicate Calm(main: multiset<EventName>) {
    DoorOpen !in main && SeatbeltNotLatched !in main && WrongGear !in main && ReverseGear !in main
    && BrakeHold !in main && ParkBrake !in main && WrongCarMode !in main && PedalPressed !in main
  }

  predicate Plain(s: Settings) {
    s.enabledToggle && s.steeringMode == RemainActive
  }

  lemma CalmPart(part: multiset<EventName>, main: multiset<EventName>)
    requires part <= main && Calm(main)
    ensures Calm(part)
  {
  }

  lemma RemovePart(l: Lists, e: EventName)
    ensures RemoveMain(l, e).main <= l.main && RemoveMain(l, e).sp == l.sp
  {
  }

  lemma CalmLateral(c: Context, l: Lists)
    requires Plain(c.settings) && Calm(l.main)
    ensures LateralEdited(c, l).sp == l.sp && LateralEdited(c, l).main <= l.main
  {
    hide RemoveMain, PedalNotGas, SlowOrReverse;
    var a := RemoveMain(l, PreEnableStandstill);
    var b := RemoveMain(a, BelowEngageSpeed);
    var d := RemoveMain(b, SpeedTooLow);
    var f := RemoveMain(d, CruiseDisabled);
    RemovePart(l, PreEnableStandstill);
    RemovePart(a, BelowEngageSpeed);
    RemovePart(b, SpeedTooLow);
    RemovePart(d, CruiseDisabled);
    RemovePart(f, ManualRestart);
    assert Silenced(c, l) == l by {
      CalmSilenced(c, l);
    }
    hide Silenced;
  }

  lemma CalmSilenced(c: Context, l: Lists)
    requires Plain(c.settings) && Calm(l.main)
    ensures Silenced(c, l) == l
  {
    hide RemoveMain, PedalNotGas, AskPause;
  }

  predicate StillCar(c: Context) {
    Plain(c.settings) && (c.cs == CAR || c.cs == CAR_LKAS) && !c.paused && !c.toggles.mainEnabled
  }

  lemma CalmEngage(c: Context, l: Lists)
    requires StillCar(c) && Calm(l.main)
    ensures var d := EnableEdited(c, CarModeEdited(c, l), SelfdriveEnables(l.main)); d.sp == l.sp && d.main <= l.main
  {
    hide BlockUnified, RemoveMain, SelfdriveEnables, SetSpeedButton;
    RemovePart(l, WrongCarMode);
    var a := CarModeEdited(c, l);
    CalmPart(a.main, l.main);
    RemovePart(a, PcmEnable);
    RemovePart(RemoveMain(a, PcmEnable), ButtonEnable);
  }

  lemma CalmRest(c: Context, l: Lists)
    requires StillCar(c) && Calm(l.main)
    ensures FinalEdited(c, BrakeEdited(c, MainOffEdited(c, l))).sp == l.sp
  {
    hide RemoveMain, SilentEnable;
    RemoveKeepsSP();
  }

  /** On a calm list of this car the editing adds nothing but what the lkas button asks for. */
  lemma CalmEdited(c: Context, l: Lists)
    requires StillCar(c) && Calm(l.main)
    ensures Edited(c, l).sp == (if c.cs == CAR_LKAS then ButtonEdited(c, l, ButtonEvent(Lkas, true)) else l).sp
    ensures Edited(c, l).main <= l.main
    ensures CameraMalfunction in l.main ==> CameraMalfunction in Edited(c, l).main
  {
    hide LateralEdited, EnableEdited, CarModeEdited, ButtonsEdited, MainOffEdited, BrakeEdited, FinalEdited;
    hide SelfdriveEnables, Calm;
    var a := LateralEdited(c, l);
    CalmLateral(c, l);
    CalmPart(a.main, l.main);
    var d := EnableEdited(c, CarModeEdited(c, a), SelfdriveEnables(a.main));
    CalmEngage(c, a);
    CalmPart(d.main, a.main);
    CalmButtons(c, d);
    CalmRest(c, ButtonsEdited(c, d, c.cs.buttons));
    EditedIsPart(c, l);
    if CameraMalfunction in l.main {
      OthersSurvive(c, l, CameraMalfunction);
    }
  }

  lemma CalmButtons(c: Context, l: Lists)
    requires StillCar(c)
    ensures ButtonsEdited(c, l, c.cs.buttons) ==
      if c.cs == CAR_LKAS then ButtonEdited(c, l, ButtonEvent(Lkas, true)) else l
  {
    hide ButtonEdited;
    if c.cs == CAR_LKAS {
      assert c.cs.buttons[..0] == [];
      assert ButtonsEdited(c, l, []) == l;
    }
  }

  // ---------- the types in the lists of the run ----------

  lemma HoldTypes(main: multiset<EventName>)
    requires main <= multiset{CameraMalfunction, PreEnableStandstill}
    ensures !Contains(main, UserDisable) && !Contains(main, ImmediateDisable) && !Contains(main, Enable)
    ensures CameraMalfunction in main ==> Contains(main, SoftDisable)
    ensures PreEnableStandstill in main ==> Contains(main, PreEnable)
    ensures PreEnableStandstill !in main ==> !Contains(main, PreEnable)
  {
    forall e | e in main
      ensures e == CameraMalfunction || e == PreEnableStandstill
    {
      assert multiset{CameraMalfunction, PreEnableStandstill}[e] > 0;
    }
    if PreEnableStandstill in main {
      assert PreEnable in Types(PreEnableStandstill);
    }
    if CameraMalfunction in main {
      assert SoftDisable in Types(CameraMalfunction);
    }
  }

  lemma NothingSP(et: ET)
    ensures !ContainsSP(multiset{}, et)
  {
  }

  // ---------- the steps of the run ----------

  /** Where both machines are, and the timer. */
  predicate At(j: Joint, main: SS.OpState, mads: State, timer: nat) {
    FlagsAgree(j) && j.initialized && j.csPrev.cruiseAvailable
    && j.main.state == main && j.mads == mads && j.main.timer == timer
  }

  lemma MadsHolds(m: SS.Main, ev: multiset<EventName>)
    requires m.timer > 0 && CameraMalfunction in ev && ev <= multiset{CameraMalfunction, PreEnableStandstill}
    ensures Mads.Update(SoftDisabling, m, true, ev, multiset{}) == (SoftDisabling, m)
  {
    hide Contains, ContainsSP;
    HoldTypes(ev);
    NothingSP(UserDisable);
    NothingSP(ImmediateDisable);
  }

  lemma RunsOn(s: Settings, j: Joint, i: StepInput, timer: nat)
    requires Plain(s) && FlagsAgree(j) && j.initialized && j.csPrev.cruiseAvailable && j.mads == SoftDisabling
    requires i == HOLD || i == FAULT
    requires var m := SS.Update(j.main, i.raw.main); SS.IsEnabled(m.state) && m.timer == timer > 0
    ensures At(Step(s, j, i), SS.Update(j.main, i.raw.main).state, SoftDisabling, timer)
    ensures EditedSoftAt(s, j, i)
  {
    hide SS.Update, Mads.Update, Edited, Contains;
    var k := MainStep(j, i);
    var c := ContextOf(s, k, i);
    assert Calm(i.raw.main);
    CalmEdited(c, i.raw);
    HoldTypes(Edited(c, i.raw).main);
    MadsHolds(k.main, Edited(c, i.raw).main);
  }

  /** Holding before engagement: both machines stay where they are and the timer falls. */
  lemma HoldStep(s: Settings, j: Joint, timer: nat)
    requires Plain(s) && At(j, SS.PreEnabled, SoftDisabling, timer + 1) && timer > 0
    ensures At(Step(s, j, HOLD), SS.PreEnabled, SoftDisabling, timer) && EditedSoftAt(s, j, HOLD)
  {
    hide Contains, Edited, Mads.Update, MadsStep, EditedSoftAt;
    HoldTypes(HOLD.raw.main);
    RunsOn(s, j, HOLD, timer);
  }

  /** The main machine engages, or counts down. */
  lemma FaultStep(s: Settings, j: Joint, main: SS.OpState, timer: nat)
    requires Plain(s) && At(j, main, SoftDisabling, timer + 1) && timer > 0
    requires main == SS.PreEnabled || main == SS.SoftDisabling
    ensures EditedSoftAt(s, j, FAULT)
    ensures At(Step(s, j, FAULT), if main == SS.PreEnabled then SS.Enabled else main, SoftDisabling, timer)
  {
    hide Contains, Edited, Mads.Update, MadsStep, EditedSoftAt;
    HoldTypes(FAULT.raw.main);
    RunsOn(s, j, FAULT, timer);
  }

  /** The main machine starts soft-disabling and restarts the timer. */
  lemma RestartStep(s: Settings, j: Joint, timer: nat)
    requires Plain(s) && At(j, SS.Enabled, SoftDisabling, timer)
    ensures At(Step(s, j, FAULT), SS.SoftDisabling, SoftDisabling, 300) && EditedSoftAt(s, j, FAULT)
  {
    hide Contains, Edited, Mads.Update, MadsStep, EditedSoftAt;
    HoldTypes(FAULT.raw.main);
    RunsOn(s, j, FAULT, 300);
  }

  // ---------- how the run begins ----------

  lemma LateralTypes(et: ET)
    ensures ContainsSP(multiset{LkasEnable}, et) <==> et == Enable
    ensures Add(multiset{}, LkasEnable) == multiset{LkasEnable}
  {
    assert LkasEnable in multiset{LkasEnable};
  }

  lemma StandstillTypes(main: multiset<EventName>, et: ET)
    requires main <= multiset{PreEnableStandstill}
    ensures Contains(main, et) ==> et == PreEnable
  {
    if Contains(main, et) {
      var e :| e in main && et in Types(e);
      assert multiset{PreEnableStandstill}[e] > 0;
      assert Types(PreEnableStandstill) == {PreEnable};
    }
  }

  lemma EngageNames(main: multiset<EventName>, e: EventName)
    requires main <= ENGAGE.raw.main && e in main
    ensures e == ButtonEnable || e == PreEnableStandstill
  {
    assert multiset{ButtonEnable, PreEnableStandstill}[e] > 0;
  }

  lemma EngageNameTypes(et: ET)
    ensures et in Types(ButtonEnable) ==> et == Enable
    ensures et in Types(PreEnableStandstill) ==> et == PreEnable
  {
  }

  lemma EngageOne(main: multiset<EventName>, e: EventName, et: ET)
    requires main <= ENGAGE.raw.main && e in main && et in Types(e)
    ensures et == Enable || et == PreEnable
  {
    EngageNames(main, e);
    EngageNameTypes(et);
    hide Types;
    if e == ButtonEnable {
      assert et == Enable;
    }
  }

  lemma EngageTypes(main: multiset<EventName>, et: ET)
    requires main <= ENGAGE.raw.main
    ensures Contains(main, et) ==> et == Enable || et == PreEnable
  {
    hide Types;
    if Contains(main, et) {
      var e :| e in main && et in Types(e);
      EngageOne(main, e, et);
    }
  }

  lemma EngageAsks()
    ensures Contains(ENGAGE.raw.main, Enable) && Contains(ENGAGE.raw.main, PreEnable)
  {
    assert ButtonEnable in ENGAGE.raw.main && Enable in Types(ButtonEnable);
    assert PreEnableStandstill in ENGAGE.raw.main && PreEnable in Types(PreEnableStandstill);
  }

  lemma WakingStep(s: Settings)
    ensures Step(s, START, WAKING) == START.(csPrev := CAR)
  {
    hide Edited;
  }

  lemma LateralLists(c: Context)
    requires StillCar(c) && c.cs == CAR_LKAS && !c.enabled
    ensures var l := Edited(c, LATERAL.raw);
            Check(l.main, l.sp, Enable) && !Check(l.main, l.sp, NoEntry) && !Check(l.main, l.sp, OverrideLateral)
  {
    hide Contains, ContainsSP, Edited;
    CalmEdited(c, LATERAL.raw);
    LateralTypes(Enable);
    LateralTypes(NoEntry);
    LateralTypes(OverrideLateral);
    StandstillTypes(Edited(c, LATERAL.raw).main, NoEntry);
    StandstillTypes(Edited(c, LATERAL.raw).main, OverrideLateral);
  }

  /** The lkas button turns MADS on. */
  lemma FirstStep(s: Settings, j: Joint)
    requires Plain(s) && j == START.(csPrev := CAR)
    ensures At(Step(s, j, LATERAL), SS.Disabled, Enabled, 0)
  {
    hide Contains, Check, Edited, CheckInList;
    HoldTypes(LATERAL.raw.main);
    LateralLists(ContextOf(s, MainStep(j, LATERAL), LATERAL));
  }

  lemma SecondStep(s: Settings, j: Joint)
    requires Plain(s) && At(j, SS.Disabled, Enabled, 0)
    ensures At(Step(s, j, HOLD), SS.Disabled, SoftDisabling, 300)
  {
    hide Contains, ContainsSP, Edited, CheckInList;
    var k := MainStep(j, HOLD);
    var c := ContextOf(s, k, HOLD);
    HoldTypes(HOLD.raw.main);
    CalmEdited(c, HOLD.raw);
    HoldTypes(Edited(c, HOLD.raw).main);
    NothingSP(UserDisable);
    NothingSP(ImmediateDisable);
  }

  lemma ThirdStep(s: Settings, j: Joint)
    requires Plain(s) && At(j, SS.Disabled, SoftDisabling, 300)
    ensures At(Step(s, j, ENGAGE), SS.PreEnabled, Enabled, 299)
  {
    hide Contains, ContainsSP, Edited, CheckInList;
    var k := MainStep(j, ENGAGE);
    var c := ContextOf(s, k, ENGAGE);
    EngageAsks();
    EngageTypes(ENGAGE.raw.main, NoEntry);
    CalmEdited(c, ENGAGE.raw);
    var ev := Edited(c, ENGAGE.raw).main;
    EngageTypes(ev, UserDisable);
    EngageTypes(ev, ImmediateDisable);
    EngageTypes(ev, SoftDisable);
    NothingSP(UserDisable);
    NothingSP(ImmediateDisable);
    NothingSP(SoftDisable);
  }

  lemma FourthStep(s: Settings, j: Joint)
    requires Plain(s) && At(j, SS.PreEnabled, Enabled, 299)
    ensures At(Step(s, j, HOLD), SS.PreEnabled, SoftDisabling, 298) && EditedSoftAt(s, j, HOLD)
  {
    hide Contains, ContainsSP, Edited, CheckInList;
    var k := MainStep(j, HOLD);
    var c := ContextOf(s, k, HOLD);
    HoldTypes(HOLD.raw.main);
    CalmEdited(c, HOLD.raw);
    HoldTypes(Edited(c, HOLD.raw).main);
    NothingSP(UserDisable);
    NothingSP(ImmediateDisable);
  }

  // ---------- the run ----------

  function LongInput(k: nat): StepInput {
    if k == 0 then WAKING else if k == 1 then LATERAL else if k == 2 then HOLD else if k == 3 then ENGAGE
    else if k < 301 then HOLD else FAULT
  }

  function Long(n: nat): seq<StepInput> {
    if n == 0 then [] else Long(n - 1) + [LongInput(n - 1)]
  }

  /** Where the run is after n steps. */
  predicate OnTrack(j: Joint, n: nat) {
    if n == 0 then j == START
    else if n == 1 then j == START.(csPrev := CAR)
    else if n == 2 then At(j, SS.Disabled, Enabled, 0)
    else if n == 3 then At(j, SS.Disabled, SoftDisabling, 300)
    else if n == 4 then At(j, SS.PreEnabled, Enabled, 299)
    else if n <= 301 then At(j, SS.PreEnabled, SoftDisabling, 303 - n)
    else if n == 302 then At(j, SS.Enabled, SoftDisabling, 1)
    else if n <= 602 then At(j, SS.SoftDisabling, SoftDisabling, 603 - n)
    else true
  }

  lemma LongStep(s: Settings, j: Joint, n: nat)
    requires Plain(s) && OnTrack(j, n) && n <= 601
    ensures OnTrack(Step(s, j, LongInput(n)), n + 1)
    ensures n >= 4 ==> EditedSoftAt(s, j, LongInput(n))
  {
    hide Step, At, EditedSoftAt;
    if n == 0 {
      WakingStep(s);
    } else if n == 1 {
      FirstStep(s, j);
    } else if n == 2 {
      SecondStep(s, j);
    } else if n == 3 {
      ThirdStep(s, j);
    } else if n == 4 {
      FourthStep(s, j);
    } else if n < 301 {
      HoldStep(s, j, 302 - n);
    } else if n == 301 {
      FaultStep(s, j, SS.PreEnabled, 1);
    } else if n == 302 {
      RestartStep(s, j, 1);
    } else {
      FaultStep(s, j, SS.SoftDisabling, 602 - n);
    }
  }

  lemma {:induction false} LongParts(n: nat, k: nat)
    requires k < n
    ensures |Long(n)| == n && Long(n)[..k] == Long(k) && Long(n)[k] == LongInput(k)
    decreases n
  {
    hide LongInput;
    LongLength(n - 1);
    if k < n - 1 {
      LongParts(n - 1, k);
      assert Long(n)[..k] == Long(n - 1)[..k];
    } else {
      assert Long(n)[..k] == Long(n - 1);
    }
  }

  lemma {:induction false} LongLength(n: nat)
    ensures |Long(n)| == n
  {
    hide LongInput;
    if n > 0 {
      LongLength(n - 1);
    }
  }

  lemma {:induction false} LongIsOnTrack(s: Settings, n: nat)
    requires Plain(s) && n <= 602
    ensures OnTrack(After(s, Long(n)), n)
  {
    hide Step, OnTrack, LongInput, Long, Plain;
    if n == 0 {
      StartsOnTrack(s);
    } else {
      LongLength(n);
      LongIsOnTrack(s, n - 1);
      LongParts(n, n - 1);
      LongStep(s, After(s, Long(n - 1)), n - 1);
    }
  }

  lemma LongEnds(s: Settings, n: nat)
    requires Plain(s) && n == 602
    ensures After(s, Long(n)).mads == SoftDisabling
  {
    hide After, Long;
    LongIsOnTrack(s, n);
  }

  lemma LongAsks(s: Settings, n: nat, k: nat)
    requires Plain(s) && 4 <= k < n <= 602
    ensures |Long(n)| == n && EditedSoftAt(s, After(s, Long(n)[..k]), Long(n)[k])
  {
    hide After, Long, EditedSoftAt, LongInput, OnTrack, Plain;
    LongParts(n, k);
    LongIsOnTrack(s, k);
    LongStep(s, After(s, Long(k)), k);
  }

  lemma StartsOnTrack(s: Settings)
    ensures OnTrack(After(s, Long(0)), 0)
  {
    assert Long(0) == [];
  }

  /** The bound of 599 steps is exact: here the edited list has held SOFT_DISABLE for 598 steps in a row
      and MADS is still soft-disabling. */
  lemma BoundIsExact(s: Settings)
    requires Plain(s)
    ensures |Long(602)| == 602
    ensures forall k :: 4 <= k < 602 ==> EditedSoftAt(s, After(s, Long(602)[..k]), Long(602)[k])
    ensures After(s, Long(602)).mads == SoftDisabling
  {
    hide After, Long, EditedSoftAt, Plain;
    LongLength(602);
    LongEnds(s, 602);
    forall k | 4 <= k < 602
      ensures EditedSoftAt(s, After(s, Long(602)[..k]), Long(602)[k])
    {
      LongAsks(s, 602, k);
    }
  }

  // ---------- its raw lists are produced ----------

  const BUTTON_CAR := CarParams(OtherBrand, false, true, 0.0, 0.0, 60.0, false, false)

  /** Standing in drive, with or without the brake, the button that engages and the lkas button. */
  function Standing(cs: CarState, brake: bool, engage: bool): Sample {
    Sample(cs, true, false, false, false, false, false, false, false, false, false, false, false, false, false,
           brake, 0, false, false, false, false, engage, false, false, false, false, false)
  }

  const NO_SAMPLE := Standing(NO_CAR_STATE, false, false).(drivableGear := false)

  /** A new object, and the empty state of the car that the process starts with. */
  const NEW_CAR := (Memory(0, false, false, true), NO_SAMPLE)

  function SourcesOf(
    past: (Memory, Sample), cs: CarState, canValid: bool, brake: bool, engage: bool, others: multiset<EventName>)
    : Sources
  {
    Sources(BUTTON_CAR, past.0, Standing(cs, brake, engage), past.1, Control(0.0, false, false), canValid, true,
            KeptOf(canValid, brake, engage), others)
  }

  function KeptOf(canValid: bool, brake: bool, engage: bool): multiset<EventName> {
    if canValid then When(brake, PreEnableStandstill) + When(engage, ButtonEnable) else multiset{}
  }

  lemma {:induction false} FromNone(adds: seq<(bool, EventName)>)
    requires forall k :: 0 <= k < |adds| ==> !adds[k].0
    ensures From(adds) == multiset{}
  {
    if adds != [] {
      FromNone(adds[..|adds| - 1]);
    }
  }

  lemma {:induction false} FromBoth(xs: seq<(bool, EventName)>, ys: seq<(bool, EventName)>)
    ensures From(xs + ys) == From(xs) + From(ys)
  {
    hide When;
    if ys == [] {
      assert xs + ys == xs;
    } else {
      FromBoth(xs, ys[..|ys| - 1]);
      assert (xs + ys)[..|xs + ys| - 1] == xs + ys[..|ys| - 1];
    }
  }

  lemma StandingBody(s: Sample)
    requires s.drivableGear && !s.cs.reverse && s.cs.cruiseAvailable
    requires !s.doorOpen && !s.seatbeltUnlatched && !s.espDisabled && !s.espActive
    ensures BodyEvents(s) == multiset{}
  {
    FromNone([(s.doorOpen, DoorOpen), (s.seatbeltUnlatched, SeatbeltNotLatched), (!s.drivableGear, WrongGear),
              (s.cs.reverse, ReverseGear), (!s.cs.cruiseAvailable, WrongCarMode), (s.espDisabled, EspDisabled),
              (s.espActive, EspActive)]);
  }

  lemma StandingStock(cp: CarParams, s: Sample)
    requires !s.stockFcw && !s.stockAeb && !s.stockLkas && s.cs.vEgo <= cp.maxCtrlSpeed && !s.nonAdaptive
    requires !s.brakeHoldActive && !s.parkingBrake && !s.accFaulted
    ensures StockEvents(cp, s) == multiset{}
  {
    FromNone([(s.stockFcw, StockFcw), (s.stockAeb, StockAeb), (s.stockLkas, StockLkas),
              (s.cs.vEgo > cp.maxCtrlSpeed, SpeedTooHigh), (s.nonAdaptive, WrongCruiseMode),
              (s.brakeHoldActive && cp.openpilotLongitudinal, BrakeHold), (s.parkingBrake, ParkBrake),
              (s.accFaulted, AccFaulted)]);
  }

  lemma FromSingle(b: bool, e: EventName)
    ensures From([(b, e)]) == When(b, e)
  {
    assert [(b, e)][..0] == [];
    assert From([]) == multiset{};
  }

  lemma DriverParts(s: Sample, prev: Sample, before: seq<(bool, EventName)>, brake: seq<(bool, EventName)>,
                    later: seq<(bool, EventName)>)
    requires before == [(s.steeringPressed, SteerOverride), (s.steeringDisengage && !prev.steeringDisengage, SteerDisengage)]
    requires brake == [(s.brakePressed && s.cs.standstill, PreEnableStandstill)]
    requires later == [(s.cs.gasPressed, GasPressedOverride), (s.vehicleSensorsInvalid, VehicleSensorsInvalid),
                       (s.invalidLkasSetting, InvalidLkasSetting), (s.lowSpeedAlert, BelowSteerSpeed)]
    ensures DriverEvents(s, prev) == From(before + brake + later)
  {
    hide From;
    assert before + brake + later ==
      [(s.steeringPressed, SteerOverride), (s.steeringDisengage && !prev.steeringDisengage, SteerDisengage),
       (s.brakePressed && s.cs.standstill, PreEnableStandstill), (s.cs.gasPressed, GasPressedOverride),
       (s.vehicleSensorsInvalid, VehicleSensorsInvalid), (s.invalidLkasSetting, InvalidLkasSetting),
       (s.lowSpeedAlert, BelowSteerSpeed)];
  }

  lemma StandingDriver(s: Sample, prev: Sample)
    requires !s.steeringPressed && !s.steeringDisengage && s.cs.standstill && !s.cs.gasPressed
    requires !s.vehicleSensorsInvalid && !s.invalidLkasSetting && !s.lowSpeedAlert
    ensures DriverEvents(s, prev) == When(s.brakePressed, PreEnableStandstill)
  {
    hide When, From, DriverEvents;
    var before := [(s.steeringPressed, SteerOverride), (s.steeringDisengage && !prev.steeringDisengage, SteerDisengage)];
    var brake := [(s.brakePressed && s.cs.standstill, PreEnableStandstill)];
    var later := [(s.cs.gasPressed, GasPressedOverride), (s.vehicleSensorsInvalid, VehicleSensorsInvalid),
                  (s.invalidLkasSetting, InvalidLkasSetting), (s.lowSpeedAlert, BelowSteerSpeed)];
    FromNone(before);
    FromNone(later);
    FromBoth(before + brake, later);
    FromBoth(before, brake);
    FromSingle(s.brakePressed && s.cs.standstill, PreEnableStandstill);
    DriverParts(s, prev, before, brake, later);
  }

  lemma StandingCancels(cs: CarState)
    requires cs == CAR || cs == CAR_LKAS
    ensures CancelEvents(BUTTON_CAR, cs.buttons) == multiset{}
  {
    if cs == CAR_LKAS {
      assert cs.buttons[..0] == [];
    }
  }

  /** What the car raises. */
  lemma StandingEvents(past: (Memory, Sample), cs: CarState, brake: bool, engage: bool, others: multiset<EventName>)
    requires cs == CAR || cs == CAR_LKAS
    ensures var src := SourcesOf(past, cs, true, brake, engage, others);
            CarEventsOf(src) == When(brake, PreEnableStandstill) + When(engage, ButtonEnable)
  {
    hide BodyEvents, StockEvents, DriverEvents, CancelEvents, When;
    var src := SourcesOf(past, cs, true, brake, engage, others);
    StandingBody(src.sample);
    StandingStock(src.cp, src.sample);
    StandingDriver(src.sample, src.prev);
    StandingCancels(cs);
    assert When(false, SteerUnavailable) == multiset{} && When(false, PcmDisable) == multiset{} by {
      NotWhen();
    }
  }

  lemma NotWhen()
    ensures forall e :: When(false, e) == multiset{}
  {
  }

  lemma StandingIsProduced(
    i: StepInput, past: (Memory, Sample), canValid: bool, brake: bool, engage: bool, others: multiset<EventName>)
    requires i.cs == CAR || i.cs == CAR_LKAS
    requires forall e :: e in others ==> AddedElsewhere(e)
    requires canValid && brake ==> past.1.brakePressed
    requires i.raw.sp == multiset{}
    requires i.raw.main == others + KeptOf(canValid, brake, engage)
    ensures Produced(i, SourcesOf(past, i.cs, canValid, brake, engage, others))
  {
    hide CarEventsOf, AddedElsewhere;
    var src := SourcesOf(past, i.cs, canValid, brake, engage, others);
    NotWhen();
    if canValid {
      StandingEvents(past, i.cs, brake, engage, others);
      assert !Pedal(src);
    } else {
      NoCarEvents(src);
    }
    hide When;
    assert i.raw.main == others + src.kept + multiset{};
  }

  lemma NoCarEvents(src: Sources)
    requires !src.canValid
    ensures CarEventsOf(src) == multiset{}
  {
  }

  function OthersAt(k: nat): multiset<EventName> {
    if k == 0 then multiset{SelfdriveInitializing} else if k == 1 || k == 3 then multiset{} else multiset{CameraMalfunction}
  }

  /** The drive: each step takes over what the one before left. */
  function SourcesAt(k: nat): Sources {
    var past := if k == 0 then NEW_CAR else LeftBy(SourcesAt(k - 1));
    SourcesOf(past, if k == 1 then CAR_LKAS else CAR, k > 0, k < 301, k == 3, OthersAt(k))
  }

  lemma BrakeHeld(k: nat)
    ensures SourcesAt(k).sample.brakePressed <==> k < 301
  {
    hide LeftBy;
  }

  lemma OthersAllowed(k: nat)
    ensures forall e :: e in OthersAt(k) ==> AddedElsewhere(e)
  {
  }

  lemma FirstMains()
    ensures WAKING.raw.main == OthersAt(0) + KeptOf(false, true, false)
    ensures LATERAL.raw.main == OthersAt(1) + KeptOf(true, true, false)
    ensures ENGAGE.raw.main == OthersAt(3) + KeptOf(true, true, true)
  {
  }

  lemma FaultMains()
    ensures HOLD.raw.main == multiset{CameraMalfunction} + KeptOf(true, true, false)
    ensures FAULT.raw.main == multiset{CameraMalfunction} + KeptOf(true, false, false)
  {
  }

  lemma MainAt(k: nat)
    ensures LongInput(k).raw.main == OthersAt(k) + KeptOf(k > 0, k < 301, k == 3)
  {
    hide KeptOf;
    FirstMains();
    FaultMains();
  }

  lemma CarAt(k: nat)
    ensures LongInput(k).cs == (if k == 1 then CAR_LKAS else CAR) && LongInput(k).raw.sp == multiset{}
  {
  }

  function PastAt(k: nat): (Memory, Sample) {
    if k == 0 then NEW_CAR else LeftBy(SourcesAt(k - 1))
  }

  lemma SourcesUnfold(k: nat)
    ensures SourcesAt(k) ==
      SourcesOf(PastAt(k), if k == 1 then CAR_LKAS else CAR, k > 0, k < 301, k == 3, OthersAt(k))
  {
    hide SourcesOf, LeftBy, OthersAt;
  }

  lemma PastBraked(k: nat)
    requires 0 < k < 301
    ensures PastAt(k).1.brakePressed
  {
    hide LeftBy, SourcesAt;
    BrakeHeld(k - 1);
    LeavesSample(SourcesAt(k - 1));
  }

  lemma LeavesSample(src: Sources)
    ensures LeftBy(src).1 == src.sample
  {
  }

  /** One drive produces the run: every raw list is one that the producers give, with the car's memory and
      its earlier state carried from step to step. */
  lemma LongIsProduced(k: nat)
    ensures Produced(LongInput(k), SourcesAt(k))
    ensures if k == 0 then (SourcesAt(0).memory, SourcesAt(0).prev) == NEW_CAR
            else Continues(SourcesAt(k - 1), SourcesAt(k))
  {
    hide Produced, LongInput, OthersAt, LeftBy, SourcesAt, KeptOf;
    SourcesUnfold(k);
    MainAt(k);
    CarAt(k);
    OthersAllowed(k);
    if 0 < k < 301 {
      PastBraked(k);
    }
    StandingIsProduced(LongInput(k), PastAt(k), k > 0, k < 301, k == 3, OthersAt(k));
    DriveContinues(k);
  }

  lemma DriveContinues(k: nat)
    ensures if k == 0 then (SourcesAt(0).memory, SourcesAt(0).prev) == NEW_CAR
            else Continues(SourcesAt(k - 1), SourcesAt(k))
  {
    hide OthersAt, LeftBy, SourcesAt, KeptOf;
    SourcesUnfold(k);
    if k > 0 {
      SourcesUnfold(k - 1);
    }
  }
}
