/**
 One control step of the engagement process: the main machine on the raw lists, then MADS, which
 edits the lists in place and runs its own machine (selfdrive/selfdrived/selfdrived.py, `step`, and
 sunnypilot/mads/mads.py).
 */
module Selfdrived {
  import opened EventTables
  import opened Mads
  import SS = SelfdriveState

  // ---------- one step as a function ----------

  /** The fields of the process that this model follows. */
  datatype Joint = Joint(
    initialized: bool, main: SS.Main, enabled: bool, active: bool, enabledPrev: bool, csPrev: CarState,
    mads: State, madsEnabled: bool, madsActive: bool)

  const NO_CAR_STATE := CarState(false, 0.0, false, false, false, [])

  const START :=
    Joint(false, SS.Main(SS.Disabled, 0, [Permanent]), false, false, false, NO_CAR_STATE, Disabled, false, false)

  /** What one step reads: whether the services are ready, the raw lists, the car and the toggles. */
  datatype StepInput = StepInput(ready: bool, raw: Lists, cs: CarState, toggles: Toggles)

  function MainStep(j: Joint, i: StepInput): Joint {
    if j.initialized || i.ready then
      var m := SS.Update(j.main, i.raw.main);
      j.(initialized := true, main := m, enabled := SS.IsEnabled(m.state), active := SS.IsActive(m.state))
    else j
  }

  function ContextOf(s: Settings, j: Joint, i: StepInput): Context {
    Context(s, i.toggles, i.cs, j.csPrev, j.enabled, j.enabledPrev, j.madsEnabled, j.mads == Paused)
  }

  function MadsRun(j: Joint, l: Lists): Joint {
    if j.initialized then
      var (t, m) := Mads.Update(j.mads, j.main, j.enabled, l.main, l.sp);
      j.(mads := t, main := m, madsEnabled := IsEnabled(t), madsActive := IsActive(t))
    else j
  }

  function MadsStep(s: Settings, j: Joint, i: StepInput): Joint {
    if s.enabledToggle then MadsRun(j, Edited(ContextOf(s, j, i), i.raw)).(enabledPrev := j.enabled) else j
  }

  /** The lists at the end of a step. */
  function ListsAfter(s: Settings, j: Joint, i: StepInput): Lists {
    if s.enabledToggle then Edited(ContextOf(s, MainStep(j, i), i), i.raw) else i.raw
  }

  function Step(s: Settings, j: Joint, i: StepInput): Joint {
    MadsStep(s, MainStep(j, i), i).(csPrev := i.cs)
  }

  // ---------- the objects ----------

  /** The two event lists, shared by everyone who holds this object. */
  class EventLists {
    var main: multiset<EventName>
    var sp: multiset<EventNameSP>

    ghost function View(): Lists
      reads this
    {
      Lists(main, sp)
    }

    constructor ()
      ensures main == multiset{} && sp == multiset{}
    {
      main, sp := multiset{}, multiset{};
    }

    method RemoveEvent(e: EventName)
      modifies this`main
      ensures View() == RemoveMain(old(View()), e)
    {
      main := Remove(main, e);
    }

    method AddEventSP(e: EventNameSP)
      modifies this`sp
      ensures View() == AddSP(old(View()), e)
    {
      sp := Add(sp, e);
    }
  }

  lemma SilenceCases(c: Context, l: Lists, when: bool, e: EventName, silent: EventNameSP)
    ensures when && e in l.main ==> Silence(c, l, when, e, silent) == AskPause(c, AddSP(RemoveMain(l, e), silent))
    ensures !(when && e in l.main) ==> Silence(c, l, when, e, silent) == l
  {
  }

  class ModularAssistiveDrivingSystem {
    const settings: Settings
    const lists: EventLists
    const stateMachine: MadsStateMachine
    var enabled: bool
    var active: bool
    var selfdriveEnabledPrev: bool

    constructor (settings: Settings, lists: EventLists, stateMachine: MadsStateMachine)
      ensures this.settings == settings && this.lists == lists && this.stateMachine == stateMachine
      ensures !enabled && !active && !selfdriveEnabledPrev
    {
      this.settings, this.lists, this.stateMachine := settings, lists, stateMachine;
      enabled, active, selfdriveEnabledPrev := false, false, false;
    }

    method TransitionPausedState(c: Context)
      modifies lists
      ensures lists.View() == AskPause(c, old(lists.View()))
    {
      if !c.paused {
        lists.AddEventSP(SilentLkasDisable);
      }
    }

    method ReplaceEvent(e: EventName, silent: EventNameSP)
      modifies lists
      ensures lists.View() == AddSP(RemoveMain(old(lists.View()), e), silent)
    {
      hide RemoveMain, AddSP;
      lists.RemoveEvent(e);
      lists.AddEventSP(silent);
    }

    method ReplaceSilently(c: Context, when: bool, e: EventName, silent: EventNameSP)
      modifies lists
      ensures lists.View() == Silence(c, old(lists.View()), when, e, silent)
    {
      hide RemoveMain, AddSP, AskPause, Silence;
      ghost var l := lists.View();
      if when && e in lists.main {
        ReplaceEvent(e, silent);
        TransitionPausedState(c);
        assert lists.View() == AskPause(c, AddSP(RemoveMain(l, e), silent));
      }
      SilenceCases(c, l, when, e, silent);
    }

    method SilenceEdits(c: Context)
      modifies lists
      ensures lists.View() == Silenced(c, old(lists.View()))
    {
      hide Silence, PedalNotGas, AskPause;
      ReplaceSilently(c, c.cs.standstill, DoorOpen, SilentDoorOpen);
      ReplaceSilently(c, c.cs.standstill, SeatbeltNotLatched, SilentSeatbeltNotLatched);
      ReplaceSilently(c, c.cs.vEgo < 2.5 || c.cs.reverse, WrongGear, SilentWrongGear);
      ReplaceSilently(c, true, ReverseGear, SilentReverseGear);
      ReplaceSilently(c, true, BrakeHold, SilentBrakeHold);
      ReplaceSilently(c, true, ParkBrake, SilentParkBrake);
      if c.settings.steeringMode == Pause {
        if PedalNotGas(c, lists.main) {
          TransitionPausedState(c);
        }
      }
    }

    method LateralEdits(c: Context)
      modifies lists
      ensures lists.View() == LateralEdited(c, old(lists.View()))
    {
      hide RemoveMain, Silenced;
      if !c.selfEnabled && c.enabled {
        SilenceEdits(c);
        lists.RemoveEvent(PreEnableStandstill);
        lists.RemoveEvent(BelowEngageSpeed);
        lists.RemoveEvent(SpeedTooLow);
        lists.RemoveEvent(CruiseDisabled);
        lists.RemoveEvent(ManualRestart);
      }
    }

    method EnableEdits(c: Context)
      modifies lists
      ensures var l := old(lists.View());
              lists.View() == EnableEdited(c, CarModeEdited(c, l), SelfdriveEnables(l.main))
    {
      hide RemoveMain, AddSP, PedalNotGas;
      var selfdriveEnableEvents := PcmEnable in lists.main || ButtonEnable in lists.main;
      var setSpeedBtnsEnable := SetSpeedButton(c.cs.buttons);
      if selfdriveEnableEvents || setSpeedBtnsEnable {
        if WrongCarMode in lists.main {
          lists.RemoveEvent(WrongCarMode);
          lists.AddEventSP(WrongCarModeAlertOnly);
        }
      } else {
        lists.RemoveEvent(WrongCarMode);
      }
      if selfdriveEnableEvents {
        if PedalNotGas(c, lists.main) {
          lists.AddEventSP(PedalPressedAlertOnly);
        }
        if BlockUnified(c) {
          lists.RemoveEvent(PcmEnable);
          lists.RemoveEvent(ButtonEnable);
        }
      } else if c.toggles.mainEnabled {
        if c.cs.cruiseAvailable && !c.csPrev.cruiseAvailable {
          lists.AddEventSP(LkasEnable);
        }
      }
    }

    method ButtonEdits(c: Context)
      modifies lists
      ensures lists.View() == ButtonsEdited(c, old(lists.View()), c.cs.buttons)
    {
      hide AddSP;
      var bs := c.cs.buttons;
      for k := 0 to |bs|
        invariant lists.View() == ButtonsEdited(c, old(lists.View()), bs[..k])
      {
        var be := bs[k];
        assert bs[..k + 1][..k] == bs[..k];
        if be.kind == Cancel {
          if !c.selfEnabled && c.selfEnabledPrev {
            lists.AddEventSP(ManualLongitudinalRequired);
          }
        }
        if be.kind == Lkas && be.pressed && (c.cs.cruiseAvailable || c.settings.allowAlways) {
          if c.enabled {
            if c.selfEnabled {
              lists.AddEventSP(ManualSteeringRequired);
            } else {
              lists.AddEventSP(LkasDisable);
            }
          } else {
            lists.AddEventSP(LkasEnable);
          }
        }
      }
      assert bs[..|bs|] == bs;
    }

    method BrakeEdits(c: Context)
      modifies lists
      ensures lists.View() == BrakeEdited(c, MainOffEdited(c, old(lists.View())))
    {
      hide RemoveMain, AddSP, PedalNotGas;
      if !c.cs.cruiseAvailable && !c.settings.noMainCruise {
        lists.RemoveEvent(ButtonEnable);
        if c.csPrev.cruiseAvailable {
          lists.AddEventSP(LkasDisable);
        }
      }
      if c.settings.steeringMode == Disengage {
        if PedalNotGas(c, lists.main) {
          if c.enabled {
            lists.AddEventSP(LkasDisable);
          } else if c.toggles.nameMatches {
            lists.sp := Remove(lists.sp, LkasEnable);
            lists.AddEventSP(PedalPressedAlertOnly);
          }
        }
      }
    }

    method FinalEdits(c: Context)
      modifies lists
      ensures lists.View() == FinalEdited(c, old(lists.View()))
    {
      hide RemoveMain, AddSP, SilentEnable;
      if SilentEnable(c, Lists(lists.main, lists.sp)) {
        if c.paused {
          lists.AddEventSP(SilentLkasEnable);
        }
      }
      lists.RemoveEvent(PcmDisable);
      lists.RemoveEvent(ButtonCancel);
      lists.RemoveEvent(PedalPressed);
      lists.RemoveEvent(WrongCruiseMode);
    }

    method UpdateEvents(c: Context)
      modifies lists
      ensures lists.View() == Edited(c, old(lists.View()))
    {
      hide LateralEdited, EnableEdited, CarModeEdited, ButtonsEdited, MainOffEdited, BrakeEdited, FinalEdited;
      LateralEdits(c);
      EnableEdits(c);
      ButtonEdits(c);
      BrakeEdits(c);
      FinalEdits(c);
    }

    method UpdateWith(c: Context, initialized: bool)
      modifies this`enabled, this`active, this`selfdriveEnabledPrev, lists,
        stateMachine`state, stateMachine.ssStateMachine`softDisableTimer,
        stateMachine.ssStateMachine`currentAlertTypes
      ensures lists.View() == if settings.enabledToggle then Edited(c, old(lists.View())) else old(lists.View())
      ensures (stateMachine.state, stateMachine.ssStateMachine.View()) ==
        var before := (old(stateMachine.state), old(stateMachine.ssStateMachine.View()));
        if settings.enabledToggle && initialized
        then Mads.Update(before.0, before.1, c.selfEnabled, lists.main, lists.sp)
        else before
      ensures enabled == if settings.enabledToggle && initialized then IsEnabled(stateMachine.state) else old(enabled)
      ensures active == if settings.enabledToggle && initialized then IsActive(stateMachine.state) else old(active)
      ensures selfdriveEnabledPrev == if settings.enabledToggle then c.selfEnabled else old(selfdriveEnabledPrev)
    {
      hide Edited, Mads.Update, IsEnabled, IsActive;
      if !settings.enabledToggle {
        return;
      }
      UpdateEvents(c);
      if initialized {
        enabled, active := stateMachine.UpdateWith(c.selfEnabled, lists.main, lists.sp);
      }
      selfdriveEnabledPrev := c.selfEnabled;
    }
  }

  class SelfdriveD {
    const stateMachine: SS.StateMachine
    const lists: EventLists
    const mads: ModularAssistiveDrivingSystem
    var initialized: bool
    var enabled: bool
    var active: bool
    var csPrev: CarState

    ghost predicate Valid() {
      mads.lists == lists && mads.stateMachine.ssStateMachine == stateMachine
    }

    ghost function View(): Joint
      reads this, stateMachine, mads, mads.stateMachine
    {
      Joint(initialized, stateMachine.View(), enabled, active, mads.selfdriveEnabledPrev, csPrev,
            mads.stateMachine.state, mads.enabled, mads.active)
    }

    constructor (settings: Settings)
      ensures Valid() && View() == START && mads.settings == settings
    {
      var ss := new SS.StateMachine();
      var ls := new EventLists();
      var ms := new MadsStateMachine(ss);
      stateMachine, lists := ss, ls;
      mads := new ModularAssistiveDrivingSystem(settings, ls, ms);
      initialized, enabled, active, csPrev := false, false, false, NO_CAR_STATE;
    }

    method RunMain(i: StepInput)
      requires Valid()
      modifies this`initialized, this`enabled, this`active, lists, stateMachine
      ensures View() == MainStep(old(View()), i)
      ensures lists.View() == i.raw
    {
      hide SS.Update, SS.IsEnabled, SS.IsActive;
      initialized := initialized || i.ready;
      lists.main, lists.sp := i.raw.main, i.raw.sp;
      if initialized {
        enabled, active := stateMachine.UpdateWith(lists.main);
      }
    }

    method RunMads(i: StepInput)
      requires Valid() && lists.View() == i.raw
      modifies lists, stateMachine, mads, mads.stateMachine`state
      ensures View() == MadsStep(mads.settings, old(View()), i)
      ensures lists.View() == if mads.settings.enabledToggle
                              then Edited(ContextOf(mads.settings, old(View()), i), i.raw) else i.raw
    {
      hide Mads.Update, Edited, IsEnabled, IsActive;
      var c := Context(mads.settings, i.toggles, i.cs, csPrev, enabled, mads.selfdriveEnabledPrev,
                       mads.enabled, mads.stateMachine.state == Paused);
      assert c == ContextOf(mads.settings, View(), i);
      mads.UpdateWith(c, initialized);
    }

    method StepWith(i: StepInput)
      requires Valid()
      modifies this, lists, stateMachine, mads, mads.stateMachine`state
      ensures View() == Step(mads.settings, old(View()), i)
      ensures lists.View() == ListsAfter(mads.settings, old(View()), i)
    {
      hide MainStep, MadsStep, Edited, ContextOf;
      RunMain(i);
      RunMads(i);
      csPrev := i.cs;
      assert View() == MadsStep(mads.settings, MainStep(old(View()), i), i).(csPrev := i.cs);
    }
  }
}
