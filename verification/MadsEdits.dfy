/** What MADS's editing does to the main event list, name by name. */
module MadsEdits {
  import opened EventTables
  import opened Mads

  function Less(n: nat): nat {
    if n == 0 then 0 else n - 1
  }

  function Minus(n: nat, k: nat): nat {
    if n <= k then 0 else n - k
  }

  /** How often the editing takes one occurrence of a name out of the list, by the circumstances. */
  function Removals(c: Context, e: EventName): nat {
    if e == PcmEnable then if Blocks(c) then 1 else 0
    else if e == ButtonEnable then
      (if Blocks(c) then 1 else 0) + (if !c.cs.cruiseAvailable && !c.settings.noMainCruise then 1 else 0)
    else if TakenAlways(e) || TakenLaterally(c, e) then 1
    else 0
  }

  predicate TakenAlways(e: EventName) {
    e == WrongCarMode || e == PcmDisable || e == ButtonCancel || e == PedalPressed || e == WrongCruiseMode
  }

  predicate TakenLaterally(c: Context, e: EventName) {
    c.enabled && !c.selfEnabled && (TakenSilently(c.cs, e) || TakenLast(e))
  }

  /** What MADS keeps quiet about while only it is on: doors and belts at standstill, the wrong gear
      when slow or in reverse, and reverse and the brakes that hold the car. */
  predicate TakenSilently(cs: CarState, e: EventName) {
    if e == DoorOpen || e == SeatbeltNotLatched then cs.standstill
    else if e == WrongGear then cs.vEgo < 2.5 || cs.reverse
    else e == ReverseGear || e == BrakeHold || e == ParkBrake
  }

  predicate TakenLast(e: EventName) {
    e == PreEnableStandstill || e == BelowEngageSpeed || e == SpeedTooLow || e == CruiseDisabled || e == ManualRestart
  }

  /** Engaging the main machine does not engage MADS: they are not unified, MADS is on already, or the
      main machine was engaged before this step. */
  predicate Blocks(c: Context) {
    !c.toggles.unified || c.enabled || (c.selfEnabled && c.selfEnabledPrev)
  }

  /** The names some stage may take out of the main list; the engagement names come separately. */
  predicate Editable(e: EventName) {
    e == DoorOpen || e == SeatbeltNotLatched || e == WrongGear || e == ReverseGear || e == BrakeHold || e == ParkBrake
    || e == PreEnableStandstill || e == BelowEngageSpeed || e == SpeedTooLow || e == CruiseDisabled
    || e == ManualRestart || e == WrongCarMode
    || e == PcmDisable || e == ButtonCancel || e == PedalPressed || e == WrongCruiseMode
  }

  lemma OnlyEditableIsRemoved(c: Context, e: EventName)
    ensures !Editable(e) && !IsEngagement(e) ==> Removals(c, e) == 0
  {
  }

  // ---------- stage by stage ----------

  lemma RemoveCount(l: Lists, x: EventName, e: EventName)
    ensures RemoveMain(l, x).main[e] == if e == x then Less(l.main[e]) else l.main[e]
    ensures RemoveMain(l, x).sp == l.sp
  {
  }

  lemma SilenceCount(c: Context, l: Lists, when: bool, x: EventName, silent: EventNameSP, e: EventName)
    ensures Silence(c, l, when, x, silent).main[e] == if e == x && when then Less(l.main[e]) else l.main[e]
  {
    hide RemoveMain;
    RemoveCount(l, x, e);
    RemoveCount(l, x, x);
  }

  lemma PauseCount(c: Context, l: Lists, ask: bool)
    ensures (if ask then AskPause(c, l) else l).main == l.main
  {
  }

  lemma SilencedCount(c: Context, l: Lists, e: EventName)
    ensures Silenced(c, l).main[e] == if TakenSilently(c.cs, e) then Less(l.main[e]) else l.main[e]
  {
    hide Silence, PedalNotGas, AskPause;
    var a := Silence(c, l, c.cs.standstill, DoorOpen, SilentDoorOpen);
    SilenceCount(c, l, c.cs.standstill, DoorOpen, SilentDoorOpen, e);
    var b := Silence(c, a, c.cs.standstill, SeatbeltNotLatched, SilentSeatbeltNotLatched);
    SilenceCount(c, a, c.cs.standstill, SeatbeltNotLatched, SilentSeatbeltNotLatched, e);
    var d := Silence(c, b, SlowOrReverse(c.cs), WrongGear, SilentWrongGear);
    SilenceCount(c, b, SlowOrReverse(c.cs), WrongGear, SilentWrongGear, e);
    var f := Silence(c, d, true, ReverseGear, SilentReverseGear);
    SilenceCount(c, d, true, ReverseGear, SilentReverseGear, e);
    var g := Silence(c, f, true, BrakeHold, SilentBrakeHold);
    SilenceCount(c, f, true, BrakeHold, SilentBrakeHold, e);
    var h := Silence(c, g, true, ParkBrake, SilentParkBrake);
    SilenceCount(c, g, true, ParkBrake, SilentParkBrake, e);
    PauseCount(c, h, c.settings.steeringMode == Pause && PedalNotGas(c, h.main));
  }

  lemma TakenLastCount(l: Lists, e: EventName)
    ensures RemoveMain(RemoveMain(RemoveMain(RemoveMain(RemoveMain(
              l, PreEnableStandstill), BelowEngageSpeed), SpeedTooLow), CruiseDisabled), ManualRestart).main[e]
            == if TakenLast(e) then Less(l.main[e]) else l.main[e]
  {
    hide RemoveMain;
    RemoveCount(l, PreEnableStandstill, e);
    var b := RemoveMain(l, PreEnableStandstill);
    RemoveCount(b, BelowEngageSpeed, e);
    var d := RemoveMain(b, BelowEngageSpeed);
    RemoveCount(d, SpeedTooLow, e);
    var f := RemoveMain(d, SpeedTooLow);
    RemoveCount(f, CruiseDisabled, e);
    RemoveCount(RemoveMain(f, CruiseDisabled), ManualRestart, e);
  }

  lemma LateralCount(c: Context, l: Lists, e: EventName)
    ensures LateralEdited(c, l).main[e] == if TakenLaterally(c, e) then Less(l.main[e]) else l.main[e]
  {
    hide RemoveMain, Silenced, TakenSilently, TakenLast;
    SilencedCount(c, l, e);
    TakenLastCount(Silenced(c, l), e);
    NotTakenTwice(c.cs, e);
  }

  lemma NotTakenTwice(cs: CarState, e: EventName)
    ensures !(TakenSilently(cs, e) && TakenLast(e))
  {
  }

  lemma CarModeCount(c: Context, l: Lists, e: EventName)
    ensures CarModeEdited(c, l).main[e] == if e == WrongCarMode then Less(l.main[e]) else l.main[e]
  {
    hide RemoveMain, SetSpeedButton;
    RemoveCount(l, WrongCarMode, e);
  }

  lemma EnableCount(c: Context, l: Lists, e: EventName)
    ensures EnableEdited(c, l, SelfdriveEnables(l.main)).main[e]
            == if IsEngagement(e) && Blocks(c) then Less(l.main[e]) else l.main[e]
  {
    hide RemoveMain, PedalNotGas;
    var a := if PedalNotGas(c, l.main) then AddSP(l, PedalPressedAlertOnly) else l;
    RemoveCount(a, PcmEnable, e);
    RemoveCount(RemoveMain(a, PcmEnable), ButtonEnable, e);
  }

  lemma CarModeKeepsEnabling(c: Context, l: Lists)
    ensures SelfdriveEnables(CarModeEdited(c, l).main) == SelfdriveEnables(l.main)
  {
    hide CarModeEdited;
    CarModeCount(c, l, PcmEnable);
    CarModeCount(c, l, ButtonEnable);
  }

  lemma ButtonsKeepMain(c: Context, l: Lists, bs: seq<ButtonEvent>)
    ensures ButtonsEdited(c, l, bs).main == l.main
  {
  }

  lemma BrakeKeepsMain(c: Context, l: Lists)
    ensures BrakeEdited(c, l).main == l.main
  {
    hide PedalNotGas;
  }

  lemma MainOffCount(c: Context, l: Lists, e: EventName)
    ensures MainOffEdited(c, l).main[e]
            == if !c.cs.cruiseAvailable && !c.settings.noMainCruise && e == ButtonEnable then Less(l.main[e]) else l.main[e]
  {
    hide RemoveMain;
    RemoveCount(l, ButtonEnable, e);
  }

  lemma FinalCount(c: Context, l: Lists, e: EventName)
    ensures FinalEdited(c, l).main[e] ==
      if e == PcmDisable || e == ButtonCancel || e == PedalPressed || e == WrongCruiseMode
      then Less(l.main[e]) else l.main[e]
  {
    hide RemoveMain, SilentEnable;
    var a := if SilentEnable(c, l) && c.paused then AddSP(l, SilentLkasEnable) else l;
    RemoveCount(a, PcmDisable, e);
    var b := RemoveMain(a, PcmDisable);
    RemoveCount(b, ButtonCancel, e);
    var d := RemoveMain(b, ButtonCancel);
    RemoveCount(d, PedalPressed, e);
    RemoveCount(RemoveMain(d, PedalPressed), WrongCruiseMode, e);
  }

  // ---------- the whole editing ----------

  /** The count of a name through the five stages that remove. */
  function LeftOf(c: Context, e: EventName, n: nat): nat {
    var a := if TakenLaterally(c, e) then Less(n) else n;
    var b := if e == WrongCarMode then Less(a) else a;
    var d := if IsEngagement(e) && Blocks(c) then Less(b) else b;
    var f := if !c.cs.cruiseAvailable && !c.settings.noMainCruise && e == ButtonEnable then Less(d) else d;
    if e == PcmDisable || e == ButtonCancel || e == PedalPressed || e == WrongCruiseMode then Less(f) else f
  }

  lemma NamesApart(c: Context, e: EventName)
    ensures IsEngagement(e) ==> !TakenAlways(e)
    ensures IsEngagement(e) || TakenAlways(e) ==> !TakenLaterally(c, e)
  {
  }

  lemma LeftOfIsMinus(c: Context, e: EventName, n: nat)
    ensures LeftOf(c, e, n) == Minus(n, Removals(c, e))
  {
    hide Blocks, TakenLaterally;
    NamesApart(c, e);
  }

  /** What the editing leaves of each name. */
  lemma EditedCount(c: Context, l: Lists, e: EventName)
    ensures Edited(c, l).main[e] == Minus(l.main[e], Removals(c, e))
  {
    hide LateralEdited, EnableEdited, CarModeEdited, ButtonsEdited, MainOffEdited, BrakeEdited, FinalEdited;
    hide Removals, Minus, Less, TakenLaterally, IsEngagement, Blocks;
    LeftOfIsMinus(c, e, l.main[e]);
    var a := LateralEdited(c, l);
    LateralCount(c, l, e);
    var b := CarModeEdited(c, a);
    CarModeCount(c, a, e);
    CarModeKeepsEnabling(c, a);
    var d := EnableEdited(c, b, SelfdriveEnables(a.main));
    EnableCount(c, b, e);
    var f := ButtonsEdited(c, d, c.cs.buttons);
    ButtonsKeepMain(c, d, c.cs.buttons);
    var g := MainOffEdited(c, f);
    MainOffCount(c, f, e);
    var h := BrakeEdited(c, g);
    BrakeKeepsMain(c, g);
    FinalCount(c, h, e);
  }

  /** The edited list is part of the raw one. */
  lemma EditedIsPart(c: Context, l: Lists)
    ensures Edited(c, l).main <= l.main
  {
    hide Edited, Removals;
    forall e
      ensures Edited(c, l).main[e] <= l.main[e]
    {
      EditedCount(c, l, e);
    }
  }

  /** The edited main list still asks to engage exactly when an engagement name occurred often
      enough to outlast the removals. */
  lemma EnableSurvives(c: Context, l: Lists)
    ensures Contains(Edited(c, l).main, Enable) <==>
      l.main[PcmEnable] > Removals(c, PcmEnable) || l.main[ButtonEnable] > Removals(c, ButtonEnable)
  {
    hide Edited, Removals, Contains;
    EditedCount(c, l, PcmEnable);
    EditedCount(c, l, ButtonEnable);
    EnableMeansEngagement(Edited(c, l).main);
  }

  /** An event outside `Editable` that is not an engagement name always reaches MADS. */
  lemma OthersSurvive(c: Context, l: Lists, e: EventName)
    requires e in l.main && !Editable(e) && !IsEngagement(e)
    ensures e in Edited(c, l).main
  {
    hide Edited, Removals;
    EditedCount(c, l, e);
    OnlyEditableIsRemoved(c, e);
  }
}
