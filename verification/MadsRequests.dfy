/**
 What MADS's editing asks of its own machine: for every name of the sunnypilot list, exactly when it is
 in the list after the editing, by what the driver does and what the raw lists hold.
 */
module MadsRequests {
  import opened EventTables
  import opened Mads
  import opened MadsEdits

  // ---------- what the driver does ----------

  /** The brake, and not the gas pedal that counts as one. */
  predicate Braking(c: Context, main: multiset<EventName>) {
    PedalPressed in main && !(c.settings.disengageOnAccelerator && c.cs.gasPressed && !c.csPrev.gasPressed)
  }

  predicate Pressed(bs: seq<ButtonEvent>, kind: ButtonType) {
    exists k :: 0 <= k < |bs| && bs[k] == ButtonEvent(kind, true)
  }

  predicate Released(bs: seq<ButtonEvent>, kind: ButtonType) {
    exists k :: 0 <= k < |bs| && bs[k] == ButtonEvent(kind, false)
  }

  predicate Moved(bs: seq<ButtonEvent>, kind: ButtonType) {
    Pressed(bs, kind) || Released(bs, kind)
  }

  /** A press of the lkas button that counts. */
  predicate LkasPress(c: Context, bs: seq<ButtonEvent>) {
    Pressed(bs, Lkas) && (c.cs.cruiseAvailable || c.settings.allowAlways)
  }

  predicate CruiseSwitchedOn(c: Context) {
    c.toggles.mainEnabled && c.cs.cruiseAvailable && !c.csPrev.cruiseAvailable
  }

  predicate CruiseSwitchedOff(c: Context) {
    !c.cs.cruiseAvailable && c.csPrev.cruiseAvailable && !c.settings.noMainCruise
  }

  predicate Engaging(main: multiset<EventName>) {
    PcmEnable in main || ButtonEnable in main
  }

  predicate LateralOn(c: Context) {
    c.enabled && !c.selfEnabled
  }

  predicate Has(cs: CarState, main: multiset<EventName>, e: EventName) {
    e in main && TakenSilently(cs, e)
  }

  /** Something that pauses MADS, and no more. */
  predicate PausesQuietly(cs: CarState, main: multiset<EventName>) {
    Has(cs, main, DoorOpen) || Has(cs, main, SeatbeltNotLatched) || Has(cs, main, WrongGear)
    || Has(cs, main, ReverseGear) || Has(cs, main, BrakeHold) || Has(cs, main, ParkBrake)
  }

  // ---------- the reasons for each name ----------

  predicate PauseReason(c: Context, main: multiset<EventName>) {
    LateralOn(c) && !c.paused && (PausesQuietly(c.cs, main) || (c.settings.steeringMode == Pause && Braking(c, main)))
  }

  predicate DisableReason(c: Context, main: multiset<EventName>) {
    || (LkasPress(c, c.cs.buttons) && LateralOn(c))
    || CruiseSwitchedOff(c)
    || (c.settings.steeringMode == Disengage && Braking(c, main) && c.enabled)
  }

  predicate SilentName(x: EventNameSP) {
    x.SilentDoorOpen? || x.SilentSeatbeltNotLatched? || x.SilentWrongGear? || x.SilentReverseGear?
    || x.SilentBrakeHold? || x.SilentParkBrake?
  }

  /** The name of the main list that a silent one stands for. */
  function Loud(x: EventNameSP): EventName
    requires SilentName(x)
  {
    if x.SilentDoorOpen? then DoorOpen else if x.SilentSeatbeltNotLatched? then SeatbeltNotLatched
    else if x.SilentWrongGear? then WrongGear else if x.SilentReverseGear? then ReverseGear
    else if x.SilentBrakeHold? then BrakeHold else ParkBrake
  }

  /** No silent hazard, from the raw list or put there by the editing. */
  ghost predicate NothingSilent(c: Context, l: Lists) {
    forall x :: SilentName(x) ==> x !in l.sp && !(LateralOn(c) && Has(c.cs, l.main, Loud(x)))
  }

  ghost predicate Reason(c: Context, l: Lists, x: EventNameSP) {
    if SilentName(x) then LateralOn(c) && Has(c.cs, l.main, Loud(x))
    else match x
      case SilentLkasDisable => PauseReason(c, l.main)
      case LkasDisable => DisableReason(c, l.main)
      case ManualSteeringRequired => LkasPress(c, c.cs.buttons) && c.enabled && c.selfEnabled
      case ManualLongitudinalRequired => Moved(c.cs.buttons, Cancel) && !c.selfEnabled && c.selfEnabledPrev
      case SilentLkasEnable =>
        c.paused && NothingSilent(c, l) && !(c.settings.steeringMode == Pause && Braking(c, l.main))
      case LkasEnable =>
        (LkasPress(c, c.cs.buttons) && !c.enabled) || (CruiseSwitchedOn(c) && !Engaging(l.main))
      case WrongCarModeAlertOnly =>
        WrongCarMode in l.main && (Engaging(l.main) || SetSpeedMoved(c.cs.buttons))
      case PedalPressedAlertOnly =>
        Braking(c, l.main) && (Engaging(l.main) || BrakeBlocks(c, l.main))
      case _ => false
  }

  predicate SetSpeedMoved(bs: seq<ButtonEvent>) {
    Moved(bs, AccelCruise) || Moved(bs, ResumeCruise) || Moved(bs, DecelCruise) || Moved(bs, SetCruise)
  }

  /** Braking takes back a request to switch MADS on, if the list answers the query of the source. */
  predicate BrakeBlocks(c: Context, main: multiset<EventName>) {
    c.settings.steeringMode == Disengage && Braking(c, main) && !c.enabled && c.toggles.nameMatches
  }

  // ---------- stage by stage ----------

  /** What silencing an event that is there, and has to be silenced, puts in the list. */
  predicate Told(c: Context, taken: bool, silent: EventNameSP, x: EventNameSP) {
    taken && (x == silent || (x.SilentLkasDisable? && !c.paused))
  }

  lemma SilenceAsks(c: Context, l: Lists, when: bool, e: EventName, silent: EventNameSP, x: EventNameSP)
    ensures x in Silence(c, l, when, e, silent).sp <==> x in l.sp || Told(c, when && e in l.main, silent, x)
  {
    hide RemoveMain, AddSP;
    RemoveCount(l, e, e);
    var m := AddSP(RemoveMain(l, e), silent);
    AddAsks(RemoveMain(l, e), silent, x);
    assert x == SilentLkasDisable <==> x.SilentLkasDisable?;
    AddAsks(m, SilentLkasDisable, x);
  }

  lemma AddAsks(l: Lists, added: EventNameSP, x: EventNameSP)
    ensures x in AddSP(l, added).sp <==> x in l.sp || x == added
  {
  }

  lemma SilenceKeepsOthers(c: Context, l: Lists, when: bool, e: EventName, silent: EventNameSP, y: EventName)
    requires y != e
    ensures y in Silence(c, l, when, e, silent).main <==> y in l.main
  {
    hide Silence;
    SilenceCount(c, l, when, e, silent, y);
  }

  lemma PauseAsks(c: Context, l: Lists, ask: bool, x: EventNameSP)
    ensures x in (if ask then AskPause(c, l) else l).sp <==> x in l.sp || (ask && !c.paused && x == SilentLkasDisable)
  {
  }

  /** The first half of the silencing. */
  function QuietDoors(c: Context, l: Lists): Lists {
    Silence(c, Silence(c, Silence(c, l, c.cs.standstill, DoorOpen, SilentDoorOpen),
                       c.cs.standstill, SeatbeltNotLatched, SilentSeatbeltNotLatched),
            SlowOrReverse(c.cs), WrongGear, SilentWrongGear)
  }

  function QuietBrakes(c: Context, l: Lists): Lists {
    Silence(c, Silence(c, Silence(c, l, true, ReverseGear, SilentReverseGear),
                       true, BrakeHold, SilentBrakeHold),
            true, ParkBrake, SilentParkBrake)
  }

  predicate DoorsReason(c: Context, main: multiset<EventName>, x: EventNameSP) {
    (x.SilentDoorOpen? && Has(c.cs, main, DoorOpen))
    || (x.SilentSeatbeltNotLatched? && Has(c.cs, main, SeatbeltNotLatched))
    || (x.SilentWrongGear? && Has(c.cs, main, WrongGear))
    || (x.SilentLkasDisable? && !c.paused
        && (Has(c.cs, main, DoorOpen) || Has(c.cs, main, SeatbeltNotLatched) || Has(c.cs, main, WrongGear)))
  }

  predicate BrakesReason(c: Context, main: multiset<EventName>, x: EventNameSP) {
    (x.SilentReverseGear? && Has(c.cs, main, ReverseGear))
    || (x.SilentBrakeHold? && Has(c.cs, main, BrakeHold))
    || (x.SilentParkBrake? && Has(c.cs, main, ParkBrake))
    || (x.SilentLkasDisable? && !c.paused
        && (Has(c.cs, main, ReverseGear) || Has(c.cs, main, BrakeHold) || Has(c.cs, main, ParkBrake)))
  }

  lemma HasEach(cs: CarState, main: multiset<EventName>)
    ensures Has(cs, main, DoorOpen) <==> cs.standstill && DoorOpen in main
    ensures Has(cs, main, SeatbeltNotLatched) <==> cs.standstill && SeatbeltNotLatched in main
    ensures Has(cs, main, WrongGear) <==> SlowOrReverse(cs) && WrongGear in main
    ensures Has(cs, main, ReverseGear) <==> ReverseGear in main
    ensures Has(cs, main, BrakeHold) <==> BrakeHold in main
    ensures Has(cs, main, ParkBrake) <==> ParkBrake in main
  {
  }

  lemma DoorsAreTold(c: Context, main: multiset<EventName>, x: EventNameSP)
    ensures DoorsReason(c, main, x) <==>
      Told(c, c.cs.standstill && DoorOpen in main, SilentDoorOpen, x)
      || Told(c, c.cs.standstill && SeatbeltNotLatched in main, SilentSeatbeltNotLatched, x)
      || Told(c, SlowOrReverse(c.cs) && WrongGear in main, SilentWrongGear, x)
  {
    HasEach(c.cs, main);
    hide Has, SlowOrReverse;
  }

  lemma QuietDoorsAsks(c: Context, l: Lists, x: EventNameSP)
    ensures x in QuietDoors(c, l).sp <==> x in l.sp || DoorsReason(c, l.main, x)
  {
    hide Silence, SlowOrReverse, DoorsReason, Told;
    var a := Silence(c, l, c.cs.standstill, DoorOpen, SilentDoorOpen);
    var b := Silence(c, a, c.cs.standstill, SeatbeltNotLatched, SilentSeatbeltNotLatched);
    DoorsAreTold(c, l.main, x);
    SilenceAsks(c, l, c.cs.standstill, DoorOpen, SilentDoorOpen, x);
    SilenceKeepsOthers(c, l, c.cs.standstill, DoorOpen, SilentDoorOpen, SeatbeltNotLatched);
    SilenceKeepsOthers(c, l, c.cs.standstill, DoorOpen, SilentDoorOpen, WrongGear);
    SilenceAsks(c, a, c.cs.standstill, SeatbeltNotLatched, SilentSeatbeltNotLatched, x);
    SilenceKeepsOthers(c, a, c.cs.standstill, SeatbeltNotLatched, SilentSeatbeltNotLatched, WrongGear);
    SilenceAsks(c, b, SlowOrReverse(c.cs), WrongGear, SilentWrongGear, x);
  }

  lemma BrakesAreTold(c: Context, main: multiset<EventName>, x: EventNameSP)
    ensures BrakesReason(c, main, x) <==>
      Told(c, true && ReverseGear in main, SilentReverseGear, x)
      || Told(c, true && BrakeHold in main, SilentBrakeHold, x)
      || Told(c, true && ParkBrake in main, SilentParkBrake, x)
  {
    HasEach(c.cs, main);
    hide Has;
  }

  lemma QuietBrakesAsks(c: Context, l: Lists, x: EventNameSP)
    ensures x in QuietBrakes(c, l).sp <==> x in l.sp || BrakesReason(c, l.main, x)
  {
    hide Silence, BrakesReason, Told;
    BrakesAreTold(c, l.main, x);
    var a := Silence(c, l, true, ReverseGear, SilentReverseGear);
    var b := Silence(c, a, true, BrakeHold, SilentBrakeHold);
    SilenceAsks(c, l, true, ReverseGear, SilentReverseGear, x);
    SilenceKeepsOthers(c, l, true, ReverseGear, SilentReverseGear, BrakeHold);
    SilenceKeepsOthers(c, l, true, ReverseGear, SilentReverseGear, ParkBrake);
    SilenceAsks(c, a, true, BrakeHold, SilentBrakeHold, x);
    SilenceKeepsOthers(c, a, true, BrakeHold, SilentBrakeHold, ParkBrake);
    SilenceAsks(c, b, true, ParkBrake, SilentParkBrake, x);
  }

  lemma QuietDoorsKeeps(c: Context, l: Lists, y: EventName)
    requires y != DoorOpen && y != SeatbeltNotLatched && y != WrongGear
    ensures y in QuietDoors(c, l).main <==> y in l.main
  {
    hide Silence;
    var a := Silence(c, l, c.cs.standstill, DoorOpen, SilentDoorOpen);
    var b := Silence(c, a, c.cs.standstill, SeatbeltNotLatched, SilentSeatbeltNotLatched);
    SilenceKeepsOthers(c, l, c.cs.standstill, DoorOpen, SilentDoorOpen, y);
    SilenceKeepsOthers(c, a, c.cs.standstill, SeatbeltNotLatched, SilentSeatbeltNotLatched, y);
    SilenceKeepsOthers(c, b, SlowOrReverse(c.cs), WrongGear, SilentWrongGear, y);
  }

  lemma QuietBrakesKeeps(c: Context, l: Lists, y: EventName)
    requires y != ReverseGear && y != BrakeHold && y != ParkBrake
    ensures y in QuietBrakes(c, l).main <==> y in l.main
  {
    hide Silence;
    var a := Silence(c, l, true, ReverseGear, SilentReverseGear);
    var b := Silence(c, a, true, BrakeHold, SilentBrakeHold);
    SilenceKeepsOthers(c, l, true, ReverseGear, SilentReverseGear, y);
    SilenceKeepsOthers(c, a, true, BrakeHold, SilentBrakeHold, y);
    SilenceKeepsOthers(c, b, true, ParkBrake, SilentParkBrake, y);
  }

  lemma BrakingByPedal(c: Context, m: multiset<EventName>, n: multiset<EventName>)
    requires PedalPressed in m <==> PedalPressed in n
    ensures Braking(c, m) == Braking(c, n) == PedalNotGas(c, n)
  {
  }

  predicate SilentReason(c: Context, main: multiset<EventName>, x: EventNameSP) {
    if SilentName(x) then Has(c.cs, main, Loud(x))
    else x.SilentLkasDisable? && !c.paused
         && (PausesQuietly(c.cs, main) || (c.settings.steeringMode == Pause && Braking(c, main)))
  }

  lemma SilentReasonParts(c: Context, main: multiset<EventName>, x: EventNameSP)
    ensures SilentReason(c, main, x) <==>
      DoorsReason(c, main, x) || BrakesReason(c, main, x)
      || (c.settings.steeringMode == Pause && Braking(c, main) && !c.paused && x == SilentLkasDisable)
  {
    hide Has, Braking;
  }

  lemma SameBrakesReason(c: Context, m: multiset<EventName>, n: multiset<EventName>, x: EventNameSP)
    requires ReverseGear in m <==> ReverseGear in n
    requires BrakeHold in m <==> BrakeHold in n
    requires ParkBrake in m <==> ParkBrake in n
    ensures BrakesReason(c, m, x) <==> BrakesReason(c, n, x)
  {
    HasEach(c.cs, m);
    HasEach(c.cs, n);
    hide Has;
  }

  lemma SilencedAsks(c: Context, l: Lists, x: EventNameSP)
    ensures x in Silenced(c, l).sp <==> x in l.sp || SilentReason(c, l.main, x)
  {
    hide Silence, PedalNotGas, AskPause, Braking, DoorsReason, BrakesReason, SilentReason, Silenced, QuietDoors, QuietBrakes;
    var a := QuietDoors(c, l);
    var b := QuietBrakes(c, a);
    QuietDoorsAsks(c, l, x);
    QuietDoorsKeeps(c, l, ReverseGear);
    QuietDoorsKeeps(c, l, BrakeHold);
    QuietDoorsKeeps(c, l, ParkBrake);
    QuietDoorsKeeps(c, l, PedalPressed);
    SameBrakesReason(c, l.main, a.main, x);
    QuietBrakesAsks(c, a, x);
    QuietBrakesKeeps(c, a, PedalPressed);
    BrakingByPedal(c, l.main, b.main);
    PauseAsks(c, b, c.settings.steeringMode == Pause && PedalNotGas(c, b.main), x);
    SilencedInHalves(c, l);
    SilentReasonParts(c, l.main, x);
  }

  lemma SilencedInHalves(c: Context, l: Lists)
    ensures Silenced(c, l) ==
      var b := QuietBrakes(c, QuietDoors(c, l));
      if c.settings.steeringMode == Pause && PedalNotGas(c, b.main) then AskPause(c, b) else b
  {
    hide Silence, PedalNotGas, AskPause;
  }

  lemma RemoveKeepsSP()
    ensures forall l, e :: RemoveMain(l, e).sp == l.sp
  {
  }

  lemma LateralAsks(c: Context, l: Lists, x: EventNameSP)
    ensures x in LateralEdited(c, l).sp <==> x in l.sp || (LateralOn(c) && SilentReason(c, l.main, x))
  {
    hide RemoveMain, Silenced, SilentReason;
    RemoveKeepsSP();
    SilencedAsks(c, l, x);
  }

  lemma SetSpeedIsMoved(bs: seq<ButtonEvent>)
    ensures SetSpeedButton(bs) <==> SetSpeedMoved(bs)
  {
    if SetSpeedButton(bs) {
      var k :| 0 <= k < |bs| && bs[k].kind in {AccelCruise, ResumeCruise, DecelCruise, SetCruise};
      assert bs[k] == ButtonEvent(bs[k].kind, true) || bs[k] == ButtonEvent(bs[k].kind, false);
    }
  }

  lemma CarModeAsks(c: Context, l: Lists, x: EventNameSP)
    ensures x in CarModeEdited(c, l).sp <==>
      x in l.sp || (x == WrongCarModeAlertOnly && WrongCarMode in l.main
                    && (Engaging(l.main) || SetSpeedMoved(c.cs.buttons)))
  {
    hide RemoveMain, SetSpeedButton, SetSpeedMoved;
    RemoveKeepsSP();
    SetSpeedIsMoved(c.cs.buttons);
  }

  lemma EnableAsks(c: Context, l: Lists, x: EventNameSP)
    ensures x in EnableEdited(c, l, Engaging(l.main)).sp <==>
      x in l.sp
      || (x == PedalPressedAlertOnly && Engaging(l.main) && Braking(c, l.main))
      || (x == LkasEnable && !Engaging(l.main) && CruiseSwitchedOn(c))
  {
    hide RemoveMain, PedalNotGas, Braking, BlockUnified;
    RemoveKeepsSP();
    BrakingByPedal(c, l.main, l.main);
  }

  lemma PressedMore(bs: seq<ButtonEvent>, kind: ButtonType)
    requires bs != []
    ensures var rest, b := bs[..|bs| - 1], bs[|bs| - 1];
            && (Pressed(bs, kind) <==> Pressed(rest, kind) || b == ButtonEvent(kind, true))
            && (Released(bs, kind) <==> Released(rest, kind) || b == ButtonEvent(kind, false))
  {
    var rest := bs[..|bs| - 1];
    if Pressed(rest, kind) {
      var k :| 0 <= k < |rest| && rest[k] == ButtonEvent(kind, true);
      assert bs[k] == rest[k];
    }
    if Released(rest, kind) {
      var k :| 0 <= k < |rest| && rest[k] == ButtonEvent(kind, false);
      assert bs[k] == rest[k];
    }
  }

  predicate ButtonReason(c: Context, bs: seq<ButtonEvent>, x: EventNameSP) {
    (x.ManualLongitudinalRequired? && Moved(bs, Cancel) && !c.selfEnabled && c.selfEnabledPrev)
    || (LkasPress(c, bs)
        && ((x.LkasEnable? && !c.enabled) || (x.LkasDisable? && LateralOn(c))
            || (x.ManualSteeringRequired? && c.enabled && c.selfEnabled)))
  }

  predicate OneButtonReason(c: Context, b: ButtonEvent, x: EventNameSP) {
    (x.ManualLongitudinalRequired? && b.kind == Cancel && !c.selfEnabled && c.selfEnabledPrev)
    || (b == ButtonEvent(Lkas, true) && (c.cs.cruiseAvailable || c.settings.allowAlways)
        && ((x.LkasEnable? && !c.enabled) || (x.LkasDisable? && LateralOn(c))
            || (x.ManualSteeringRequired? && c.enabled && c.selfEnabled)))
  }

  lemma ButtonAsks(c: Context, l: Lists, b: ButtonEvent, x: EventNameSP)
    ensures x in ButtonEdited(c, l, b).sp <==> x in l.sp || OneButtonReason(c, b, x)
  {
    hide AddSP;
    AddAsks(l, ManualLongitudinalRequired, x);
    AddAsks(l, if !c.enabled then LkasEnable else if c.selfEnabled then ManualSteeringRequired else LkasDisable, x);
  }

  lemma ButtonReasonMore(c: Context, bs: seq<ButtonEvent>, x: EventNameSP)
    requires bs != []
    ensures ButtonReason(c, bs, x) <==>
      ButtonReason(c, bs[..|bs| - 1], x) || OneButtonReason(c, bs[|bs| - 1], x)
  {
    hide Pressed, Released;
    PressedMore(bs, Lkas);
    PressedMore(bs, Cancel);
  }

  lemma {:induction false} ButtonsAsk(c: Context, l: Lists, bs: seq<ButtonEvent>, x: EventNameSP)
    ensures x in ButtonsEdited(c, l, bs).sp <==> x in l.sp || ButtonReason(c, bs, x)
  {
    if bs == [] {
      assert !Pressed(bs, Lkas) && !Moved(bs, Cancel);
    } else {
      hide ButtonReason, OneButtonReason, ButtonEdited;
      ButtonsAsk(c, l, bs[..|bs| - 1], x);
      ButtonAsks(c, ButtonsEdited(c, l, bs[..|bs| - 1]), bs[|bs| - 1], x);
      ButtonReasonMore(c, bs, x);
    }
  }

  lemma MainOffAsks(c: Context, l: Lists, x: EventNameSP)
    ensures x in MainOffEdited(c, l).sp <==> x in l.sp || (x == LkasDisable && CruiseSwitchedOff(c))
  {
    hide RemoveMain;
    RemoveKeepsSP();
  }

  lemma BrakeAsks(c: Context, l: Lists, x: EventNameSP)
    requires x != LkasEnable || !BrakeBlocks(c, l.main)
    ensures x in BrakeEdited(c, l).sp <==>
      x in l.sp
      || (x == LkasDisable && c.settings.steeringMode == Disengage && Braking(c, l.main) && c.enabled)
      || (x == PedalPressedAlertOnly && BrakeBlocks(c, l.main))
  {
    hide PedalNotGas, Braking;
    BrakingByPedal(c, l.main, l.main);
  }

  ghost predicate SilentFree(sp: multiset<EventNameSP>) {
    forall x :: SilentName(x) ==> x !in sp
  }

  lemma SilentFreeIsNone(sp: multiset<EventNameSP>)
    ensures ContainsInListSP(sp, GEARS_ALLOW_PAUSED_SILENT) <==> !SilentFree(sp)
  {
    assert forall x :: x in GEARS_ALLOW_PAUSED_SILENT <==> SilentName(x);
  }

  lemma FinalAsks(c: Context, l: Lists, x: EventNameSP)
    ensures x in FinalEdited(c, l).sp <==>
      x in l.sp
      || (x == SilentLkasEnable && c.paused && SilentFree(l.sp)
          && !(c.settings.steeringMode == Pause && Braking(c, l.main)))
  {
    hide RemoveMain, PedalNotGas, Braking, SilentFree, ContainsInListSP;
    RemoveKeepsSP();
    SilentFreeIsNone(l.sp);
    BrakingByPedal(c, l.main, l.main);
  }

  // ---------- the whole editing ----------

  /** The lists before the last stage. */
  function Late(c: Context, l: Lists): Lists {
    BrakeEdited(c, MainOffEdited(c, ButtonsEdited(c, Early(c, l), c.cs.buttons)))
  }

  /** The lists before the buttons. */
  function Early(c: Context, l: Lists): Lists {
    var a := LateralEdited(c, l);
    EnableEdited(c, CarModeEdited(c, a), SelfdriveEnables(a.main))
  }

  lemma LateralKeepsKeys(c: Context, l: Lists)
    ensures var m := LateralEdited(c, l).main;
            && (PedalPressed in m <==> PedalPressed in l.main) && (WrongCarMode in m <==> WrongCarMode in l.main)
            && (PcmEnable in m <==> PcmEnable in l.main) && (ButtonEnable in m <==> ButtonEnable in l.main)
  {
    hide LateralEdited;
    LateralCount(c, l, PedalPressed);
    LateralCount(c, l, WrongCarMode);
    LateralCount(c, l, PcmEnable);
    LateralCount(c, l, ButtonEnable);
  }

  lemma EarlyAsks(c: Context, l: Lists, x: EventNameSP)
    ensures x in Early(c, l).sp <==>
      x in l.sp || (LateralOn(c) && SilentReason(c, l.main, x))
      || (x == WrongCarModeAlertOnly && WrongCarMode in l.main && (Engaging(l.main) || SetSpeedMoved(c.cs.buttons)))
      || (x == PedalPressedAlertOnly && Engaging(l.main) && Braking(c, l.main))
      || (x == LkasEnable && !Engaging(l.main) && CruiseSwitchedOn(c))
    ensures PedalPressed in Early(c, l).main <==> PedalPressed in l.main
  {
    hide LateralEdited, EnableEdited, CarModeEdited, SilentReason, SetSpeedMoved, Braking, CruiseSwitchedOn;
    var a := LateralEdited(c, l);
    LateralAsks(c, l, x);
    LateralKeepsKeys(c, l);
    var b := CarModeEdited(c, a);
    CarModeAsks(c, a, x);
    CarModeKeepsEnabling(c, a);
    CarModeCount(c, a, PedalPressed);
    EnableAsks(c, b, x);
    EnableCount(c, b, PedalPressed);
    BrakingByPedal(c, l.main, b.main);
  }

  /** What the stages before the last one ask for. */
  predicate LateReason(c: Context, l: Lists, x: EventNameSP) {
    (LateralOn(c) && SilentReason(c, l.main, x))
    || (x.WrongCarModeAlertOnly? && WrongCarMode in l.main && (Engaging(l.main) || SetSpeedMoved(c.cs.buttons)))
    || (x.PedalPressedAlertOnly? && Engaging(l.main) && Braking(c, l.main))
    || (x.LkasEnable? && !Engaging(l.main) && CruiseSwitchedOn(c))
    || ButtonReason(c, c.cs.buttons, x)
    || (x.LkasDisable? && CruiseSwitchedOff(c))
    || (x.LkasDisable? && c.settings.steeringMode == Disengage && Braking(c, l.main) && c.enabled)
    || (x.PedalPressedAlertOnly? && BrakeBlocks(c, l.main))
  }

  lemma LateAsks(c: Context, l: Lists, x: EventNameSP)
    requires x != LkasEnable || !BrakeBlocks(c, l.main)
    ensures x in Late(c, l).sp <==> x in l.sp || LateReason(c, l, x)
    ensures Braking(c, Late(c, l).main) == Braking(c, l.main)
  {
    hide Early, ButtonsEdited, MainOffEdited, BrakeEdited, SilentReason, SetSpeedMoved, Braking, CruiseSwitchedOn;
    hide CruiseSwitchedOff, ButtonReason, Engaging;
    var d := Early(c, l);
    EarlyAsks(c, l, x);
    var f := ButtonsEdited(c, d, c.cs.buttons);
    ButtonsAsk(c, d, c.cs.buttons, x);
    ButtonsKeepMain(c, d, c.cs.buttons);
    var g := MainOffEdited(c, f);
    MainOffAsks(c, f, x);
    MainOffCount(c, f, PedalPressed);
    BrakingByPedal(c, l.main, g.main);
    BrakeAsks(c, g, x);
    BrakeKeepsMain(c, g);
  }

  lemma BrakeTakesBack(c: Context, l: Lists)
    ensures LkasEnable in BrakeEdited(c, l).sp ==> LkasEnable in l.sp
  {
    hide PedalNotGas;
  }

  lemma LateSwitchesOn(c: Context, l: Lists)
    ensures LkasEnable in Late(c, l).sp ==> LkasEnable in l.sp || LateReason(c, l, LkasEnable)
  {
    hide Early, ButtonsEdited, MainOffEdited, BrakeEdited, SilentReason, SetSpeedMoved, Braking, CruiseSwitchedOn;
    hide CruiseSwitchedOff, ButtonReason, Engaging;
    var d := Early(c, l);
    EarlyAsks(c, l, LkasEnable);
    var f := ButtonsEdited(c, d, c.cs.buttons);
    ButtonsAsk(c, d, c.cs.buttons, LkasEnable);
    MainOffAsks(c, f, LkasEnable);
    BrakeTakesBack(c, MainOffEdited(c, f));
  }

  lemma LateReasonsAreReasons(c: Context, l: Lists, x: EventNameSP)
    requires x != SilentLkasEnable
    ensures LateReason(c, l, x) <==> Reason(c, l, x)
  {
    hide SetSpeedMoved, Braking, CruiseSwitchedOn, CruiseSwitchedOff, Engaging, Has, LkasPress, Moved, PausesQuietly;
  }

  lemma NotLate(c: Context, l: Lists)
    ensures !LateReason(c, l, SilentLkasEnable)
  {
  }

  lemma SilentFreeLate(c: Context, l: Lists)
    ensures SilentFree(Late(c, l).sp) <==> NothingSilent(c, l)
  {
    hide Late, LateReason, Has;
    forall x | SilentName(x)
      ensures x in Late(c, l).sp <==> x in l.sp || (LateralOn(c) && Has(c.cs, l.main, Loud(x)))
    {
      LateAsks(c, l, x);
      LateReasonsAreReasons(c, l, x);
    }
  }

  lemma ResumeReason(c: Context, l: Lists)
    ensures Reason(c, l, SilentLkasEnable) <==>
      c.paused && NothingSilent(c, l) && !(c.settings.steeringMode == Pause && Braking(c, l.main))
  {
    hide Braking, NothingSilent;
  }

  lemma ResumesExactly(c: Context, l: Lists)
    ensures SilentLkasEnable in Edited(c, l).sp <==>
      SilentLkasEnable in l.sp || Reason(c, l, SilentLkasEnable)
  {
    hide Edited, Late, LateReason, FinalEdited, Braking, Has, NothingSilent, SilentFree, Reason;
    EditedIsFinal(c, l);
    LateAsks(c, l, SilentLkasEnable);
    FinalAsks(c, Late(c, l), SilentLkasEnable);
    SilentFreeLate(c, l);
    NotLate(c, l);
    ResumeReason(c, l);
  }

  /** Every name of the sunnypilot list after the editing was there before or has its reason, and every
      reason puts it there; the one exception is a request to switch on that braking takes back, for which
      `SwitchOnExactly` gives the count. */
  lemma RequestedExactly(c: Context, l: Lists, x: EventNameSP)
    requires x != LkasEnable || !BrakeBlocks(c, l.main)
    ensures x in Edited(c, l).sp <==> x in l.sp || Reason(c, l, x)
  {
    hide Edited, Late, LateReason, FinalEdited, Braking, Has, NothingSilent, SilentFree, Reason, BrakeBlocks;
    if x == SilentLkasEnable {
      ResumesExactly(c, l);
    } else {
      EditedIsFinal(c, l);
      LateAsks(c, l, x);
      FinalAsks(c, Late(c, l), x);
      LateReasonsAreReasons(c, l, x);
    }
  }

  /** Without exception, no name is there without a reason. */
  lemma RequestedWithReason(c: Context, l: Lists, x: EventNameSP)
    requires x in Edited(c, l).sp
    ensures x in l.sp || Reason(c, l, x)
  {
    hide Edited, LateReason, Braking, Has, NothingSilent, SilentFree, FinalEdited;
    if x == LkasEnable {
      EditedIsFinal(c, l);
      FinalAsks(c, Late(c, l), x);
      LateSwitchesOn(c, l);
      LateReasonsAreReasons(c, l, x);
    } else {
      RequestedExactly(c, l, x);
    }
  }

  lemma EditedIsFinal(c: Context, l: Lists)
    ensures Edited(c, l) == FinalEdited(c, Late(c, l))
  {
    hide FinalEdited, BrakeEdited, MainOffEdited, ButtonsEdited, EnableEdited, CarModeEdited, LateralEdited;
  }

  // ---------- how often MADS is asked to switch on ----------

  function Presses(bs: seq<ButtonEvent>): nat {
    if bs == [] then 0 else Presses(bs[..|bs| - 1]) + if bs[|bs| - 1] == ButtonEvent(Lkas, true) then 1 else 0
  }

  /** Every lkas press that counts while MADS is off, and the cruise switch going on. */
  function OnRequests(c: Context, main: multiset<EventName>): nat {
    (if !c.enabled && (c.cs.cruiseAvailable || c.settings.allowAlways) then Presses(c.cs.buttons) else 0)
    + (if CruiseSwitchedOn(c) && !Engaging(main) then 1 else 0)
  }

  function Ons(l: Lists): nat {
    l.sp[LkasEnable]
  }

  lemma AddOns(l: Lists, x: EventNameSP)
    ensures Ons(AddSP(l, x)) == if x == LkasEnable then Ons(l) + 1 else Ons(l)
  {
  }

  lemma RemoveOns(l: Lists, e: EventName)
    ensures Ons(RemoveMain(l, e)) == Ons(l)
  {
  }

  lemma PauseOns(c: Context, l: Lists)
    ensures Ons(AskPause(c, l)) == Ons(l)
  {
    hide AddSP, Ons;
    AddOns(l, SilentLkasDisable);
  }

  lemma SilenceOns(c: Context, l: Lists, when: bool, e: EventName, silent: EventNameSP)
    requires silent != LkasEnable
    ensures Ons(Silence(c, l, when, e, silent)) == Ons(l)
  {
    hide AddSP, RemoveMain, AskPause, Ons;
    RemoveOns(l, e);
    AddOns(RemoveMain(l, e), silent);
    PauseOns(c, AddSP(RemoveMain(l, e), silent));
  }

  lemma SilencedOns(c: Context, l: Lists)
    ensures Ons(Silenced(c, l)) == Ons(l)
  {
    hide Silence, PedalNotGas, AskPause, Ons, SlowOrReverse;
    var a := Silence(c, l, c.cs.standstill, DoorOpen, SilentDoorOpen);
    SilenceOns(c, l, c.cs.standstill, DoorOpen, SilentDoorOpen);
    var b := Silence(c, a, c.cs.standstill, SeatbeltNotLatched, SilentSeatbeltNotLatched);
    SilenceOns(c, a, c.cs.standstill, SeatbeltNotLatched, SilentSeatbeltNotLatched);
    var d := Silence(c, b, SlowOrReverse(c.cs), WrongGear, SilentWrongGear);
    SilenceOns(c, b, SlowOrReverse(c.cs), WrongGear, SilentWrongGear);
    var f := Silence(c, d, true, ReverseGear, SilentReverseGear);
    SilenceOns(c, d, true, ReverseGear, SilentReverseGear);
    var g := Silence(c, f, true, BrakeHold, SilentBrakeHold);
    SilenceOns(c, f, true, BrakeHold, SilentBrakeHold);
    var h := Silence(c, g, true, ParkBrake, SilentParkBrake);
    SilenceOns(c, g, true, ParkBrake, SilentParkBrake);
    PauseOns(c, h);
  }

  lemma LateralOns(c: Context, l: Lists)
    ensures Ons(LateralEdited(c, l)) == Ons(l)
  {
    hide RemoveMain, Silenced;
    RemoveKeepsSP();
    SilencedOns(c, l);
  }

  lemma CarModeOns(c: Context, l: Lists)
    ensures Ons(CarModeEdited(c, l)) == Ons(l)
  {
    hide RemoveMain, AddSP, SetSpeedButton, Ons;
    RemoveOns(l, WrongCarMode);
    AddOns(RemoveMain(l, WrongCarMode), WrongCarModeAlertOnly);
  }

  lemma EnableOns(c: Context, l: Lists)
    ensures Ons(EnableEdited(c, l, Engaging(l.main)))
            == Ons(l) + if CruiseSwitchedOn(c) && !Engaging(l.main) then 1 else 0
  {
    hide RemoveMain, AddSP, PedalNotGas, BlockUnified, Engaging, Ons;
    AddOns(l, LkasEnable);
    AddOns(l, PedalPressedAlertOnly);
    var a := if PedalNotGas(c, l.main) then AddSP(l, PedalPressedAlertOnly) else l;
    RemoveOns(a, PcmEnable);
    RemoveOns(RemoveMain(a, PcmEnable), ButtonEnable);
  }

  lemma ButtonOns(c: Context, l: Lists, b: ButtonEvent)
    ensures Ons(ButtonEdited(c, l, b))
            == Ons(l) + if b == ButtonEvent(Lkas, true) && !c.enabled && (c.cs.cruiseAvailable || c.settings.allowAlways)
                        then 1 else 0
  {
    hide AddSP, Ons;
    AddOns(l, ManualLongitudinalRequired);
    AddOns(l, if !c.enabled then LkasEnable else if c.selfEnabled then ManualSteeringRequired else LkasDisable);
  }

  lemma {:induction false} ButtonsOns(c: Context, l: Lists, bs: seq<ButtonEvent>)
    ensures Ons(ButtonsEdited(c, l, bs))
            == Ons(l) + if !c.enabled && (c.cs.cruiseAvailable || c.settings.allowAlways) then Presses(bs) else 0
  {
    hide ButtonEdited, Ons;
    if bs != [] {
      ButtonsOns(c, l, bs[..|bs| - 1]);
      ButtonOns(c, ButtonsEdited(c, l, bs[..|bs| - 1]), bs[|bs| - 1]);
    }
  }

  lemma MainOffOns(c: Context, l: Lists)
    ensures Ons(MainOffEdited(c, l)) == Ons(l)
  {
    hide RemoveMain, AddSP, Ons;
    RemoveOns(l, ButtonEnable);
    AddOns(RemoveMain(l, ButtonEnable), LkasDisable);
  }

  lemma TakenBack(l: Lists)
    ensures Ons(l.(sp := Remove(l.sp, LkasEnable))) == Minus(Ons(l), 1)
  {
  }

  lemma BrakeOns(c: Context, l: Lists)
    ensures Ons(BrakeEdited(c, l)) == Minus(Ons(l), if BrakeBlocks(c, l.main) then 1 else 0)
  {
    BrakingByPedal(c, l.main, l.main);
    TakenBack(l);
    hide PedalNotGas, Braking, AddSP, Ons, Remove;
    AddOns(l, LkasDisable);
    AddOns(l.(sp := Remove(l.sp, LkasEnable)), PedalPressedAlertOnly);
  }

  lemma FinalOns(c: Context, l: Lists)
    ensures Ons(FinalEdited(c, l)) == Ons(l)
  {
    hide RemoveMain, AddSP, SilentEnable;
    RemoveKeepsSP();
    AddOns(l, SilentLkasEnable);
  }

  lemma EarlyOns(c: Context, l: Lists)
    ensures Ons(Early(c, l)) == Ons(l) + if CruiseSwitchedOn(c) && !Engaging(l.main) then 1 else 0
    ensures PedalPressed in Early(c, l).main <==> PedalPressed in l.main
  {
    EarlyAsks(c, l, LkasEnable);
    hide LateralEdited, CarModeEdited, EnableEdited, CruiseSwitchedOn, Ons;
    var a := LateralEdited(c, l);
    LateralOns(c, l);
    LateralKeepsKeys(c, l);
    CarModeOns(c, a);
    CarModeKeepsEnabling(c, a);
    EnableOns(c, CarModeEdited(c, a));
  }

  /** The number of requests to switch on: those of the raw list and those the editing adds, less the one
      that braking may take back. */
  lemma SwitchOnExactly(c: Context, l: Lists)
    ensures Edited(c, l).sp[LkasEnable]
            == Minus(l.sp[LkasEnable] + OnRequests(c, l.main), if BrakeBlocks(c, l.main) then 1 else 0)
  {
    EditedIsFinal(c, l);
    EarlyOns(c, l);
    hide Edited, FinalEdited, BrakeEdited, MainOffEdited, ButtonsEdited, Early, CruiseSwitchedOn, Engaging, Braking, Minus;
    var d := Early(c, l);
    ButtonsOns(c, d, c.cs.buttons);
    ButtonsKeepMain(c, d, c.cs.buttons);
    var f := ButtonsEdited(c, d, c.cs.buttons);
    MainOffOns(c, f);
    MainOffCount(c, f, PedalPressed);
    var g := MainOffEdited(c, f);
    BrakingByPedal(c, l.main, g.main);
    BrakeOns(c, g);
    FinalOns(c, BrakeEdited(c, g));
  }
}
