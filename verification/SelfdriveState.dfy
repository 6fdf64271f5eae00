/** The main engagement state machine (selfdrive/selfdrived/state.py). */
module SelfdriveState {
  import opened EventTables

  datatype OpState = Disabled | PreEnabled | Enabled | SoftDisabling | Overriding

  const SOFT_DISABLE_STEPS := 300    // SOFT_DISABLE_TIME / DT_CTRL

  predicate IsActive(s: OpState) {
    s == Enabled || s == SoftDisabling || s == Overriding
  }

  predicate IsEnabled(s: OpState) {
    s == PreEnabled || IsActive(s)
  }

  /** The values of the machine's fields. */
  datatype Main = Main(state: OpState, timer: nat, alerts: seq<ET>)

  predicate Overridden(events: multiset<EventName>) {
    Contains(events, OverrideLateral) || Contains(events, OverrideLongitudinal)
  }

  function Next(m: Main, events: multiset<EventName>): Main {
    var t := if m.timer > 0 then m.timer - 1 else 0;
    var soft := Contains(events, SoftDisable);
    if m.state != Disabled && Contains(events, UserDisable) then Main(Disabled, t, [Permanent, UserDisable])
    else if m.state != Disabled && Contains(events, ImmediateDisable) then
      Main(Disabled, t, [Permanent, ImmediateDisable])
    else match m.state
      case Enabled =>
        if soft then Main(SoftDisabling, SOFT_DISABLE_STEPS, [Permanent, SoftDisable])
        else if Overridden(events) then Main(Overriding, t, [Permanent, OverrideLateral, OverrideLongitudinal])
        else Main(Enabled, t, [Permanent])
      case SoftDisabling =>
        if !soft then Main(Enabled, t, [Permanent])
        else if t > 0 then Main(SoftDisabling, t, [Permanent, SoftDisable])
        else Main(Disabled, t, [Permanent])
      case PreEnabled =>
        if !Contains(events, PreEnable) then Main(Enabled, t, [Permanent])
        else Main(PreEnabled, t, [Permanent, PreEnable])
      case Overriding =>
        if soft then Main(SoftDisabling, SOFT_DISABLE_STEPS, [Permanent, SoftDisable])
        else if !Overridden(events) then Main(Enabled, t, [Permanent])
        else Main(Overriding, t, [Permanent, OverrideLateral, OverrideLongitudinal])
      case Disabled =>
        if !Contains(events, Enable) then Main(Disabled, t, [Permanent])
        else if Contains(events, NoEntry) then Main(Disabled, t, [Permanent, NoEntry])
        else if Contains(events, PreEnable) then Main(PreEnabled, t, [Permanent, Enable])
        else if Overridden(events) then Main(Overriding, t, [Permanent, Enable])
        else Main(Enabled, t, [Permanent, Enable])
  }

  function Update(m: Main, events: multiset<EventName>): Main {
    var next := Next(m, events);
    if IsActive(next.state) then next.(alerts := next.alerts + [Warning]) else next
  }

  class StateMachine {
    var state: OpState
    var softDisableTimer: nat
    var currentAlertTypes: seq<ET>

    ghost function View(): Main
      reads this
    {
      Main(state, softDisableTimer, currentAlertTypes)
    }

    constructor ()
      ensures View() == Main(Disabled, 0, [Permanent])
    {
      currentAlertTypes := [Permanent];
      state := Disabled;
      softDisableTimer := 0;
    }

    method UpdateWith(events: multiset<EventName>) returns (enabled: bool, active: bool)
      modifies this
      ensures View() == Update(old(View()), events)
      ensures enabled == IsEnabled(state) && active == IsActive(state)
    {
      hide Next;
      Transition(events);
      enabled := state == PreEnabled || IsActive(state);
      active := IsActive(state);
      if active {
        currentAlertTypes := currentAlertTypes + [Warning];
      }
    }

    method Transition(events: multiset<EventName>)
      modifies this
      ensures View() == Next(old(View()), events)
    {
      hide Contains;
      softDisableTimer := if softDisableTimer - 1 > 0 then softDisableTimer - 1 else 0;
      currentAlertTypes := [Permanent];
      if state != Disabled {
        if Contains(events, UserDisable) {
          state := Disabled;
          currentAlertTypes := currentAlertTypes + [UserDisable];
        } else if Contains(events, ImmediateDisable) {
          state := Disabled;
          currentAlertTypes := currentAlertTypes + [ImmediateDisable];
        } else {
          if state == Enabled {
            if Contains(events, SoftDisable) {
              state := SoftDisabling;
              softDisableTimer := SOFT_DISABLE_STEPS;
              currentAlertTypes := currentAlertTypes + [SoftDisable];
            } else if Contains(events, OverrideLateral) || Contains(events, OverrideLongitudinal) {
              state := Overriding;
              currentAlertTypes := currentAlertTypes + [OverrideLateral, OverrideLongitudinal];
            }
          } else if state == SoftDisabling {
            if !Contains(events, SoftDisable) {
              state := Enabled;
            } else if softDisableTimer > 0 {
              currentAlertTypes := currentAlertTypes + [SoftDisable];
            } else {
              state := Disabled;
            }
          } else if state == PreEnabled {
            if !Contains(events, PreEnable) {
              state := Enabled;
            } else {
              currentAlertTypes := currentAlertTypes + [PreEnable];
            }
          } else {
            if Contains(events, SoftDisable) {
              state := SoftDisabling;
              softDisableTimer := SOFT_DISABLE_STEPS;
              currentAlertTypes := currentAlertTypes + [SoftDisable];
            } else if !(Contains(events, OverrideLateral) || Contains(events, OverrideLongitudinal)) {
              state := Enabled;
            } else {
              currentAlertTypes := currentAlertTypes + [OverrideLateral, OverrideLongitudinal];
            }
          }
        }
      } else if Contains(events, Enable) {
        if Contains(events, NoEntry) {
          currentAlertTypes := currentAlertTypes + [NoEntry];
        } else {
          if Contains(events, PreEnable) {
            state := PreEnabled;
          } else if Contains(events, OverrideLateral) || Contains(events, OverrideLongitudinal) {
            state := Overriding;
          } else {
            state := Enabled;
          }
          currentAlertTypes := currentAlertTypes + [Enable];
        }
      }
    }
  }
}
