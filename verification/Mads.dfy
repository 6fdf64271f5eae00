/**
 MADS, the lateral-only assistance (sunnypilot/mads/mads.py and sunnypilot/mads/state.py): it edits
 the event lists after the main machine has seen them and runs its own state machine, which shares
 the main machine's soft-disable timer and alert types.
 */
module Mads {
  import opened EventTables
  import SS = SelfdriveState

  datatype State = Disabled | Paused | Enabled | SoftDisabling | Overriding

  predicate IsActive(s: State) {
    s == Enabled || s == SoftDisabling || s == Overriding
  }

  predicate IsEnabled(s: State) {
    s == Paused || IsActive(s)
  }

  // ---------- inputs ----------

  datatype ButtonType = AccelCruise | ResumeCruise | DecelCruise | SetCruise | Cancel | Lkas | OtherButton

  datatype ButtonEvent = ButtonEvent(kind: ButtonType, pressed: bool)

  datatype CarState = CarState(
    standstill: bool, vEgo: real, reverse: bool, gasPressed: bool, cruiseAvailable: bool, buttons: seq<ButtonEvent>)

  datatype SteeringMode = RemainActive | Pause | Disengage

  /** Read once, when the process starts. */
  datatype Settings = Settings(
    enabledToggle: bool, steeringMode: SteeringMode, disengageOnAccelerator: bool, allowAlways: bool, noMainCruise: bool)

  /** Read again while driving. `nameMatches` is the answer of the list to the one query that
      passes an event name where an event type is expected. */
  datatype Toggles = Toggles(mainEnabled: bool, unified: bool, nameMatches: bool)

  /** Everything update_events looks at besides the lists. */
  datatype Context = Context(
    settings: Settings, toggles: Toggles, cs: CarState, csPrev: CarState,
    selfEnabled: bool, selfEnabledPrev: bool, enabled: bool, paused: bool)

  // ---------- the edited lists ----------

  predicate LateralOnly(c: Context) {
    !c.selfEnabled && c.enabled
  }

  predicate PedalNotGas(c: Context, ev: multiset<EventName>) {
    PedalPressed in ev && !(c.cs.gasPressed && !c.csPrev.gasPressed && c.settings.disengageOnAccelerator)
  }

  predicate SelfdriveEnables(ev: multiset<EventName>) {
    PcmEnable in ev || ButtonEnable in ev
  }

  predicate SetSpeedButton(bs: seq<ButtonEvent>) {
    exists k :: 0 <= k < |bs| && bs[k].kind in {AccelCruise, ResumeCruise, DecelCruise, SetCruise}
  }

  predicate BlockUnified(c: Context) {
    !c.toggles.unified || c.enabled || (c.selfEnabled && c.selfEnabledPrev)
  }

  predicate SlowOrReverse(cs: CarState) {
    cs.vEgo < 2.5 || cs.reverse
  }

  /** Both event lists. */
  datatype Lists = Lists(main: multiset<EventName>, sp: multiset<EventNameSP>)

  function RemoveMain(l: Lists, e: EventName): Lists {
    l.(main := Remove(l.main, e))
  }

  function AddSP(l: Lists, e: EventNameSP): Lists {
    l.(sp := Add(l.sp, e))
  }

  /** Ask for the paused state, unless already paused. */
  function AskPause(c: Context, l: Lists): Lists {
    if c.paused then l else AddSP(l, SilentLkasDisable)
  }

  /** An event that MADS handles silently: replaced when `when` holds and it is present. */
  function Silence(c: Context, l: Lists, when: bool, e: EventName, silent: EventNameSP): Lists {
    if when && e in l.main then AskPause(c, AddSP(RemoveMain(l, e), silent)) else l
  }

  function Silenced(c: Context, l: Lists): Lists {
    var a := Silence(c, l, c.cs.standstill, DoorOpen, SilentDoorOpen);
    var b := Silence(c, a, c.cs.standstill, SeatbeltNotLatched, SilentSeatbeltNotLatched);
    var d := Silence(c, b, SlowOrReverse(c.cs), WrongGear, SilentWrongGear);
    var f := Silence(c, d, true, ReverseGear, SilentReverseGear);
    var g := Silence(c, f, true, BrakeHold, SilentBrakeHold);
    var h := Silence(c, g, true, ParkBrake, SilentParkBrake);
    if c.settings.steeringMode == Pause && PedalNotGas(c, h.main) then AskPause(c, h) else h
  }

  function LateralEdited(c: Context, l: Lists): Lists {
    if !LateralOnly(c) then l
    else
      RemoveMain(RemoveMain(RemoveMain(RemoveMain(RemoveMain(
        Silenced(c, l), PreEnableStandstill), BelowEngageSpeed), SpeedTooLow), CruiseDisabled), ManualRestart)
  }

  function CarModeEdited(c: Context, l: Lists): Lists {
    if SelfdriveEnables(l.main) || SetSpeedButton(c.cs.buttons) then
      if WrongCarMode in l.main then AddSP(RemoveMain(l, WrongCarMode), WrongCarModeAlertOnly) else l
    else RemoveMain(l, WrongCarMode)
  }

  function EnableEdited(c: Context, l: Lists, enables: bool): Lists {
    if enables then
      var a := if PedalNotGas(c, l.main) then AddSP(l, PedalPressedAlertOnly) else l;
      if BlockUnified(c) then RemoveMain(RemoveMain(a, PcmEnable), ButtonEnable) else a
    else if c.toggles.mainEnabled && c.cs.cruiseAvailable && !c.csPrev.cruiseAvailable then AddSP(l, LkasEnable)
    else l
  }

  function ButtonEdited(c: Context, l: Lists, b: ButtonEvent): Lists {
    if b.kind == Cancel then
      if !c.selfEnabled && c.selfEnabledPrev then AddSP(l, ManualLongitudinalRequired) else l
    else if b.kind == Lkas && b.pressed && (c.cs.cruiseAvailable || c.settings.allowAlways) then
      AddSP(l, if !c.enabled then LkasEnable else if c.selfEnabled then ManualSteeringRequired else LkasDisable)
    else l
  }

  function ButtonsEdited(c: Context, l: Lists, bs: seq<ButtonEvent>): Lists {
    if bs == [] then l else ButtonEdited(c, ButtonsEdited(c, l, bs[..|bs| - 1]), bs[|bs| - 1])
  }

  function MainOffEdited(c: Context, l: Lists): Lists {
    if !c.cs.cruiseAvailable && !c.settings.noMainCruise then
      var a := RemoveMain(l, ButtonEnable);
      if c.csPrev.cruiseAvailable then AddSP(a, LkasDisable) else a
    else l
  }

  function BrakeEdited(c: Context, l: Lists): Lists {
    if c.settings.steeringMode == Disengage && PedalNotGas(c, l.main) then
      if c.enabled then AddSP(l, LkasDisable)
      else if c.toggles.nameMatches then AddSP(l.(sp := Remove(l.sp, LkasEnable)), PedalPressedAlertOnly)
      else l
    else l
  }

  const GEARS_ALLOW_PAUSED_SILENT :=
    {SilentWrongGear, SilentReverseGear, SilentBrakeHold, SilentDoorOpen, SilentSeatbeltNotLatched, SilentParkBrake}
  const GEARS_ALLOW_PAUSED := {WrongGear, ReverseGear, BrakeHold, DoorOpen, SeatbeltNotLatched, ParkBrake}

  predicate SilentEnable(c: Context, l: Lists) {
    !(c.settings.steeringMode == Pause && PedalNotGas(c, l.main))
    && !ContainsInListSP(l.sp, GEARS_ALLOW_PAUSED_SILENT)
  }

  function FinalEdited(c: Context, l: Lists): Lists {
    var a := if SilentEnable(c, l) && c.paused then AddSP(l, SilentLkasEnable) else l;
    RemoveMain(RemoveMain(RemoveMain(RemoveMain(a, PcmDisable), ButtonCancel), PedalPressed), WrongCruiseMode)
  }

  /** The lists after update_events. */
  function Edited(c: Context, l: Lists): Lists {
    var a := LateralEdited(c, l);
    var b := EnableEdited(c, CarModeEdited(c, a), SelfdriveEnables(a.main));
    FinalEdited(c, BrakeEdited(c, MainOffEdited(c, ButtonsEdited(c, b, c.cs.buttons))))
  }

  // ---------- the MADS state machine ----------

  predicate Check(ev: multiset<EventName>, sp: multiset<EventNameSP>, et: ET) {
    Contains(ev, et) || ContainsSP(sp, et)
  }

  predicate CheckInList(ev: multiset<EventName>, sp: multiset<EventNameSP>) {
    ContainsInList(ev, GEARS_ALLOW_PAUSED) || ContainsInListSP(sp, GEARS_ALLOW_PAUSED_SILENT)
  }

  function Show(m: SS.Main, types: seq<ET>): SS.Main {
    m.(alerts := m.alerts + types)
  }

  /** Alert types are only added on behalf of MADS while the main machine is not enabled. */
  function ShowIf(selfEnabled: bool, m: SS.Main, et: ET): SS.Main {
    if selfEnabled then m else Show(m, [et])
  }

  function EnterSoft(m: SS.Main, selfEnabled: bool): (State, SS.Main) {
    (SoftDisabling,
     if selfEnabled then m else Show(m.(timer := SS.SOFT_DISABLE_STEPS), [SoftDisable]))
  }

  function Next(s: State, m: SS.Main, selfEnabled: bool, ev: multiset<EventName>, sp: multiset<EventNameSP>)
    : (State, SS.Main)
  {
    var soft, lateral := Check(ev, sp, SoftDisable), Check(ev, sp, OverrideLateral);
    if s != Disabled && Check(ev, sp, UserDisable) then
      (if SilentLkasDisable in sp then Paused else Disabled, Show(m, [UserDisable]))
    else if s != Disabled && Check(ev, sp, ImmediateDisable) then (Disabled, ShowIf(selfEnabled, m, ImmediateDisable))
    else match s
      case Enabled =>
        if soft then EnterSoft(m, selfEnabled)
        else if lateral then (Overriding, ShowIf(selfEnabled, m, OverrideLateral))
        else (Enabled, m)
      case SoftDisabling =>
        if !soft then (Enabled, m)
        else if m.timer > 0 then (SoftDisabling, ShowIf(selfEnabled, m, SoftDisable))
        else (Disabled, m)
      case Paused =>
        if !Check(ev, sp, Enable) then (Paused, m)
        else if Check(ev, sp, NoEntry) then (Paused, ShowIf(selfEnabled, m, NoEntry))
        else (if lateral then Overriding else Enabled, ShowIf(selfEnabled, m, Enable))
      case Overriding =>
        if soft then EnterSoft(m, selfEnabled)
        else if !lateral then (Enabled, m)
        else (Overriding, Show(m, [OverrideLateral]))
      case Disabled =>
        if !Check(ev, sp, Enable) then (Disabled, m)
        else if Check(ev, sp, NoEntry) then
          (if CheckInList(ev, sp) then Paused else Disabled, ShowIf(selfEnabled, m, NoEntry))
        else (if lateral then Overriding else Enabled, ShowIf(selfEnabled, m, Enable))
  }

  function Update(s: State, m: SS.Main, selfEnabled: bool, ev: multiset<EventName>, sp: multiset<EventNameSP>)
    : (State, SS.Main)
  {
    var (t, n) := Next(s, m, selfEnabled, ev, sp);
    (t, if IsActive(t) then ShowIf(selfEnabled, n, Warning) else n)
  }

  class MadsStateMachine {
    const ssStateMachine: SS.StateMachine
    var state: State

    constructor (ss: SS.StateMachine)
      ensures state == Disabled && ssStateMachine == ss
    {
      ssStateMachine := ss;
      state := Disabled;
    }

    method AddCurrentAlertTypes(alertType: ET, selfEnabled: bool)
      modifies ssStateMachine`currentAlertTypes
      ensures ssStateMachine.View() == ShowIf(selfEnabled, old(ssStateMachine.View()), alertType)
    {
      if !selfEnabled {
        ssStateMachine.currentAlertTypes := ssStateMachine.currentAlertTypes + [alertType];
      }
    }

    method EnterSoftDisabling(selfEnabled: bool)
      modifies this`state, ssStateMachine`softDisableTimer, ssStateMachine`currentAlertTypes
      ensures (state, ssStateMachine.View()) == EnterSoft(old(ssStateMachine.View()), selfEnabled)
    {
      state := SoftDisabling;
      if !selfEnabled {
        ssStateMachine.softDisableTimer := SS.SOFT_DISABLE_STEPS;
        ssStateMachine.currentAlertTypes := ssStateMachine.currentAlertTypes + [SoftDisable];
      }
    }

    method UpdateWith(selfEnabled: bool, ev: multiset<EventName>, sp: multiset<EventNameSP>)
      returns (enabled: bool, active: bool)
      modifies this`state, ssStateMachine`softDisableTimer, ssStateMachine`currentAlertTypes
      ensures (state, ssStateMachine.View()) == Update(old(state), old(ssStateMachine.View()), selfEnabled, ev, sp)
      ensures enabled == IsEnabled(state) && active == IsActive(state)
    {
      hide Next;
      Transition(selfEnabled, ev, sp);
      enabled := state == Paused || IsActive(state);
      active := IsActive(state);
      if active {
        AddCurrentAlertTypes(Warning, selfEnabled);
      }
    }

    method Transition(selfEnabled: bool, ev: multiset<EventName>, sp: multiset<EventNameSP>)
      modifies this`state, ssStateMachine`softDisableTimer, ssStateMachine`currentAlertTypes
      ensures (state, ssStateMachine.View()) == Next(old(state), old(ssStateMachine.View()), selfEnabled, ev, sp)
    {
      hide Check, CheckInList, EnterSoft, ShowIf;
      if state != Disabled {
        if Check(ev, sp, UserDisable) {
          if SilentLkasDisable in sp {
            state := Paused;
          } else {
            state := Disabled;
          }
          ssStateMachine.currentAlertTypes := ssStateMachine.currentAlertTypes + [UserDisable];
        } else if Check(ev, sp, ImmediateDisable) {
          state := Disabled;
          AddCurrentAlertTypes(ImmediateDisable, selfEnabled);
        } else if state == Enabled {
          if Check(ev, sp, SoftDisable) {
            EnterSoftDisabling(selfEnabled);
          } else if Check(ev, sp, OverrideLateral) {
            state := Overriding;
            AddCurrentAlertTypes(OverrideLateral, selfEnabled);
          }
        } else if state == SoftDisabling {
          if !Check(ev, sp, SoftDisable) {
            state := Enabled;
          } else if ssStateMachine.softDisableTimer > 0 {
            AddCurrentAlertTypes(SoftDisable, selfEnabled);
          } else {
            state := Disabled;
          }
        } else if state == Paused {
          if Check(ev, sp, Enable) {
            if Check(ev, sp, NoEntry) {
              AddCurrentAlertTypes(NoEntry, selfEnabled);
            } else {
              if Check(ev, sp, OverrideLateral) {
                state := Overriding;
              } else {
                state := Enabled;
              }
              AddCurrentAlertTypes(Enable, selfEnabled);
            }
          }
        } else {
          if Check(ev, sp, SoftDisable) {
            EnterSoftDisabling(selfEnabled);
          } else if !Check(ev, sp, OverrideLateral) {
            state := Enabled;
          } else {
            ssStateMachine.currentAlertTypes := ssStateMachine.currentAlertTypes + [OverrideLateral];
          }
        }
      } else if Check(ev, sp, Enable) {
        if Check(ev, sp, NoEntry) {
          if CheckInList(ev, sp) {
            state := Paused;
          }
          AddCurrentAlertTypes(NoEntry, selfEnabled);
        } else {
          if Check(ev, sp, OverrideLateral) {
            state := Overriding;
          } else {
            state := Enabled;
          }
          AddCurrentAlertTypes(Enable, selfEnabled);
        }
      }
    }
  }
}
