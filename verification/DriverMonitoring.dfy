/**
 The awareness machine of selfdrive/monitoring/helpers.py: two countdowns that are swapped when
 the monitoring mode changes, lock-in at the orange and red levels, recovery, exemptions and the
 latched lockout. Floats are reals; face, pose and phone classification arrive as inputs.
 */
module DriverMonitoringModel {

  const DT_DMON := 0.05
  const AWARENESS_TIME := 30.0
  const AWARENESS_PRE_TIME_TILL_TERMINAL := 15.0
  const AWARENESS_PROMPT_TIME_TILL_TERMINAL := 6.0
  const DISTRACTED_TIME := 11.0
  const DISTRACTED_PRE_TIME_TILL_TERMINAL := 8.0
  const DISTRACTED_PROMPT_TIME_TILL_TERMINAL := 6.0
  const RECOVERY_FACTOR_MAX := 5.0
  const RECOVERY_FACTOR_MIN := 1.25
  const HI_STD_FALLBACK_TIME := 200     // 10 s of steps
  const MAX_TERMINAL_ALERTS := 3
  const MAX_TERMINAL_DURATION := 600    // 30 s of steps
  const ALWAYS_ON_ALERT_MIN_SPEED := 11.0

  const ACTIVE_STEP := DT_DMON / DISTRACTED_TIME
  const PASSIVE_STEP := DT_DMON / AWARENESS_TIME
  const ACTIVE_PRE := DISTRACTED_PRE_TIME_TILL_TERMINAL / DISTRACTED_TIME
  const ACTIVE_PROMPT := DISTRACTED_PROMPT_TIME_TILL_TERMINAL / DISTRACTED_TIME
  const PASSIVE_PRE := AWARENESS_PRE_TIME_TILL_TERMINAL / AWARENESS_TIME
  const PASSIVE_PROMPT := AWARENESS_PROMPT_TIME_TILL_TERMINAL / AWARENESS_TIME

  datatype Event =
    | TooDistracted
    | PreDriverDistracted | PromptDriverDistracted | DriverDistracted
    | PreDriverUnresponsive | PromptDriverUnresponsive | DriverUnresponsive

  /** What the camera model says about the driver in one step. */
  datatype Face = Face(detected: bool, lowStd: bool, distracted: bool, filter: real)

  /** One step of input; `face` is absent when the model output is incomplete. */
  datatype Input = Input(
    hasFace: bool, face: Face,
    driverEngaged: bool, opEngaged: bool, standstill: bool, wrongGear: bool, carSpeed: real)

  /** One step of a drive: its input, and the always-on toggle as it stands then; the process reloads
      the toggle while it runs. */
  datatype Frame = Frame(input: Input, alwaysOn: bool)

  /** The values of the object's fields but the toggle. */
  datatype State = State(
    awareness: real, awarenessActive: real, awarenessPassive: real,
    stepChange: real, active: bool, thresholdPre: real, thresholdPrompt: real,
    terminalAlertCnt: nat, terminalTime: nat, tooDistracted: bool,
    hiStds: nat, face: Face)

  // ---------- one step as a function ----------

  function ResetAwareness(s: State): State {
    s.(awareness := 1.0, awarenessActive := 1.0, awarenessPassive := 1.0)
  }

  function SetTimers(s: State, activeMonitoring: bool): State {
    if s.active && s.awareness <= s.thresholdPrompt then
      s.(stepChange := if activeMonitoring then ACTIVE_STEP else 0.0)
    else if s.awareness <= 0.0 then s
    else if activeMonitoring then
      var t := if s.active then s else s.(awarenessPassive := s.awareness, awareness := s.awarenessActive);
      t.(thresholdPre := ACTIVE_PRE, thresholdPrompt := ACTIVE_PROMPT, stepChange := ACTIVE_STEP, active := true)
    else
      var t := if s.active then s.(awarenessActive := s.awareness, awareness := s.awarenessPassive) else s;
      t.(thresholdPre := PASSIVE_PRE, thresholdPrompt := PASSIVE_PROMPT, stepChange := PASSIVE_STEP, active := false)
  }

  function UpdateStates(s: State, i: Input): State {
    if !i.hasFace then s
    else
      var t := SetTimers(s.(face := i.face), i.face.detected && !(s.hiStds > HI_STD_FALLBACK_TIME));
      if i.face.detected && !i.face.lowStd && !i.face.distracted then t.(hiStds := t.hiStds + 1)
      else if i.face.detected && i.face.lowStd then t.(hiStds := 0)
      else t
  }

  predicate AlwaysOnValid(i: Input, alwaysOn: bool) {
    alwaysOn && !i.wrongGear
  }

  /** The step starts over from full awareness at its first test. */
  predicate ResetsFirst(s: State, i: Input, alwaysOn: bool) {
    || (i.driverEngaged && s.awareness > 0.0 && !s.active)
    || (!AlwaysOnValid(i, alwaysOn) && !i.opEngaged)
    || (AlwaysOnValid(i, alwaysOn) && !i.opEngaged && s.awareness <= 0.0)
  }

  predicate Attentive(s: State) {
    s.face.filter < 0.37 && s.face.detected && s.face.lowStd && s.awareness > 0.0
  }

  function Min(a: real, b: real): real { if a <= b then a else b }
  function Max(a: real, b: real): real { if a >= b then a else b }

  function Recover(s: State): State {
    var up := Min(s.awareness + ((RECOVERY_FACTOR_MAX - RECOVERY_FACTOR_MIN) * (1.0 - s.awareness)
                                 + RECOVERY_FACTOR_MIN) * s.stepChange, 1.0);
    s.(awareness := up,
       awarenessPassive := if up == 1.0 then Min(s.awarenessPassive + s.stepChange, 1.0) else s.awarenessPassive)
  }

  /** The countdown part of the step. */
  function CountDown(s: State, i: Input, alwaysOn: bool): State {
    var audible := s.awareness - s.stepChange <= s.thresholdPrompt;
    var terminal := s.awareness - s.stepChange <= 0.0;
    var exempt := (i.standstill && audible)
                  || (AlwaysOnValid(i, alwaysOn) && !i.opEngaged && terminal)
                  || (LowSpeedExempt(i, alwaysOn) && audible);
    var certainly := s.face.filter > 0.63 && s.face.distracted && s.face.detected;
    var maybe := s.hiStds > HI_STD_FALLBACK_TIME || !s.face.detected;
    if (certainly || maybe) && !exempt then s.(awareness := Max(s.awareness - s.stepChange, -0.1)) else s
  }

  predicate LowSpeedExempt(i: Input, alwaysOn: bool) {
    AlwaysOnValid(i, alwaysOn) && !i.opEngaged && i.carSpeed < ALWAYS_ON_ALERT_MIN_SPEED
  }

  function Alert(s: State, i: Input, alwaysOn: bool): set<Event> {
    if s.awareness <= 0.0 then {if s.active then DriverDistracted else DriverUnresponsive}
    else if s.awareness <= s.thresholdPrompt then {if s.active then PromptDriverDistracted else PromptDriverUnresponsive}
    else if s.awareness <= s.thresholdPre && !LowSpeedExempt(i, alwaysOn) then
      {if s.active then PreDriverDistracted else PreDriverUnresponsive}
    else {}
  }

  /** Bookkeeping of the red alert; `prev` is the awareness before this step's changes. */
  function CountTerminal(s: State, prev: real): State {
    if s.awareness > 0.0 then s
    else s.(terminalTime := s.terminalTime + 1,
            terminalAlertCnt := if prev > 0.0 then s.terminalAlertCnt + 1 else s.terminalAlertCnt)
  }

  function Lockout(s: State): State {
    if s.terminalAlertCnt >= MAX_TERMINAL_ALERTS || s.terminalTime >= MAX_TERMINAL_DURATION
    then s.(tooDistracted := true) else s
  }

  function LockoutEvents(s: State, alwaysOn: bool): set<Event> {
    if s.tooDistracted || (alwaysOn && s.awareness <= s.thresholdPrompt) then {TooDistracted} else {}
  }

  function UpdateEvents(s: State, i: Input, alwaysOn: bool): (State, set<Event>) {
    UpdateAwareness(Lockout(s), LockoutEvents(Lockout(s), alwaysOn), i, alwaysOn)
  }

  function UpdateAwareness(s: State, locked: set<Event>, i: Input, alwaysOn: bool): (State, set<Event>) {
    if ResetsFirst(s, i, alwaysOn) || (Attentive(s) && i.driverEngaged) then (ResetAwareness(s), locked)
    else
      var r := if Attentive(s) then Recover(s) else s;
      if Attentive(s) && r.awareness > r.thresholdPrompt then (r, locked)
      else CountAndAlert(r, s.awareness, locked, i, alwaysOn)
  }

  function CountAndAlert(r: State, prev: real, locked: set<Event>, i: Input, alwaysOn: bool): (State, set<Event>) {
    var c := CountTerminal(CountDown(r, i, alwaysOn), prev);
    (c, locked + Alert(c, i, alwaysOn))
  }

  function Step(s: State, i: Input, alwaysOn: bool): (State, set<Event>) {
    UpdateEvents(UpdateStates(s, i), i, alwaysOn)
  }

  function FrameStep(s: State, f: Frame): (State, set<Event>) {
    Step(s, f.input, f.alwaysOn)
  }

  function Init(tooDistracted: bool): State {
    SetTimers(State(1.0, 1.0, 1.0, 0.0, true, ACTIVE_PRE, ACTIVE_PROMPT, 0, 0, tooDistracted, 0,
                    Face(false, true, false, 0.0)), true)
  }

  // ---------- the object ----------

  class DriverMonitoring {
    var alwaysOn: bool
    var awareness: real
    var awarenessActive: real
    var awarenessPassive: real
    var stepChange: real
    var activeMonitoringMode: bool
    var thresholdPre: real
    var thresholdPrompt: real
    var terminalAlertCnt: nat
    var terminalTime: nat
    var tooDistracted: bool
    var savedTooDistracted: bool    // the DriverTooDistracted parameter
    var hiStds: nat
    var face: Face
    var currentEvents: set<Event>

    ghost function View(): State
      reads this
    {
      State(awareness, awarenessActive, awarenessPassive, stepChange, activeMonitoringMode, thresholdPre,
            thresholdPrompt, terminalAlertCnt, terminalTime, tooDistracted, hiStds, face)
    }

    constructor (alwaysOn: bool, saved: bool)
      ensures View() == Init(saved) && this.alwaysOn == alwaysOn && currentEvents == {}
      ensures savedTooDistracted == saved
    {
      this.alwaysOn := alwaysOn;
      terminalAlertCnt, terminalTime := 0, 0;
      stepChange := 0.0;
      activeMonitoringMode := true;
      hiStds := 0;
      face := Face(false, true, false, 0.0);
      thresholdPre := DISTRACTED_PRE_TIME_TILL_TERMINAL / DISTRACTED_TIME;
      thresholdPrompt := DISTRACTED_PROMPT_TIME_TILL_TERMINAL / DISTRACTED_TIME;
      tooDistracted, savedTooDistracted := saved, saved;
      currentEvents := {};
      new;
      Reset();
      SetTimersOf(true);
    }

    method Reset()
      modifies this`awareness, this`awarenessActive, this`awarenessPassive
      ensures View() == ResetAwareness(old(View()))
    {
      awareness := 1.0;
      awarenessActive := 1.0;
      awarenessPassive := 1.0;
    }

    method SetTimersOf(activeMonitoring: bool)
      modifies this`awareness, this`awarenessActive, this`awarenessPassive, this`stepChange
      modifies this`thresholdPre, this`thresholdPrompt, this`activeMonitoringMode
      ensures View() == SetTimers(old(View()), activeMonitoring)
    {
      if activeMonitoringMode && awareness <= thresholdPrompt {
        if activeMonitoring {
          stepChange := DT_DMON / DISTRACTED_TIME;
        } else {
          stepChange := 0.0;
        }
        return;
      } else if awareness <= 0.0 {
        return;
      }
      if activeMonitoring {
        if !activeMonitoringMode {
          awarenessPassive := awareness;
          awareness := awarenessActive;
        }
        thresholdPre := DISTRACTED_PRE_TIME_TILL_TERMINAL / DISTRACTED_TIME;
        thresholdPrompt := DISTRACTED_PROMPT_TIME_TILL_TERMINAL / DISTRACTED_TIME;
        stepChange := DT_DMON / DISTRACTED_TIME;
        activeMonitoringMode := true;
      } else {
        if activeMonitoringMode {
          awarenessActive := awareness;
          awareness := awarenessPassive;
        }
        thresholdPre := AWARENESS_PRE_TIME_TILL_TERMINAL / AWARENESS_TIME;
        thresholdPrompt := AWARENESS_PROMPT_TIME_TILL_TERMINAL / AWARENESS_TIME;
        stepChange := DT_DMON / AWARENESS_TIME;
        activeMonitoringMode := false;
      }
    }

    method UpdateStatesOf(i: Input)
      modifies this
      ensures alwaysOn == old(alwaysOn)
      ensures View() == UpdateStates(old(View()), i)
      ensures savedTooDistracted == old(savedTooDistracted)
    {
      if !i.hasFace {
        return;
      }
      face := i.face;
      var isModelUncertain := hiStds > HI_STD_FALLBACK_TIME;
      SetTimersOf(face.detected && !isModelUncertain);
      if face.detected && !face.lowStd && !face.distracted {
        hiStds := hiStds + 1;
      } else if face.detected && face.lowStd {
        hiStds := 0;
      }
    }

    method UpdateEventsOf(i: Input)
      modifies this
      ensures alwaysOn == old(alwaysOn)
      ensures (View(), currentEvents) == UpdateEvents(old(View()), i, alwaysOn)
      ensures savedTooDistracted == (old(savedTooDistracted) || (tooDistracted && !old(tooDistracted)))
    {
      hide UpdateAwareness;
      CheckLockout();
      UpdateAwarenessOf(i);
    }

    method UpdateAwarenessOf(i: Input)
      modifies this`awareness, this`awarenessActive, this`awarenessPassive
      modifies this`terminalTime, this`terminalAlertCnt, this`currentEvents
      ensures (View(), currentEvents) == UpdateAwareness(old(View()), old(currentEvents), i, alwaysOn)
    {
      hide Recover, CountAndAlert;
      var alwaysOnValid := alwaysOn && !i.wrongGear;
      if || (i.driverEngaged && awareness > 0.0 && !activeMonitoringMode)
         || (!alwaysOnValid && !i.opEngaged)
         || (alwaysOnValid && !i.opEngaged && awareness <= 0.0)
      {
        Reset();
        return;
      }

      var driverAttentive := face.filter < 0.37;
      var awarenessPrev := awareness;
      if driverAttentive && face.detected && face.lowStd && awareness > 0.0 {
        if i.driverEngaged {
          Reset();
          return;
        }
        RecoverAwareness();
        if awareness > thresholdPrompt {
          return;
        }
      }
      CountAndAlertOf(i, alwaysOnValid, awarenessPrev);
    }

    method CountAndAlertOf(i: Input, alwaysOnValid: bool, awarenessPrev: real)
      requires alwaysOnValid == AlwaysOnValid(i, alwaysOn)
      modifies this`awareness, this`terminalTime, this`terminalAlertCnt, this`currentEvents
      ensures (View(), currentEvents) == CountAndAlert(old(View()), awarenessPrev, old(currentEvents), i, alwaysOn)
    {
      hide CountDown, CountTerminal, Alert;
      CountDownAwareness(i, alwaysOnValid);
      PublishAlert(i, alwaysOnValid, awarenessPrev);
    }

    /** Block engaging until the next ignition cycle after too many or too long distractions. */
    method CheckLockout()
      modifies this`tooDistracted, this`savedTooDistracted, this`currentEvents
      ensures View() == Lockout(old(View())) && currentEvents == LockoutEvents(View(), alwaysOn)
      ensures savedTooDistracted == (old(savedTooDistracted) || (tooDistracted && !old(tooDistracted)))
    {
      currentEvents := {};
      if terminalAlertCnt >= MAX_TERMINAL_ALERTS || terminalTime >= MAX_TERMINAL_DURATION {
        if !tooDistracted {
          savedTooDistracted := true;
        }
        tooDistracted := true;
      }
      if tooDistracted || (alwaysOn && awareness <= thresholdPrompt) {
        currentEvents := {TooDistracted};
      }
    }

    method RecoverAwareness()
      modifies this`awareness, this`awarenessPassive
      ensures View() == Recover(old(View()))
    {
      awareness := Min(awareness + ((RECOVERY_FACTOR_MAX - RECOVERY_FACTOR_MIN) * (1.0 - awareness)
                                    + RECOVERY_FACTOR_MIN) * stepChange, 1.0);
      if awareness == 1.0 {
        awarenessPassive := Min(awarenessPassive + stepChange, 1.0);
      }
    }

    method CountDownAwareness(i: Input, alwaysOnValid: bool)
      requires alwaysOnValid == AlwaysOnValid(i, alwaysOn)
      modifies this`awareness
      ensures View() == CountDown(old(View()), i, alwaysOn)
    {
      var reachingAudible := awareness - stepChange <= thresholdPrompt;
      var reachingTerminal := awareness - stepChange <= 0.0;
      var standstillOrangeExemption := i.standstill && reachingAudible;
      var alwaysOnRedExemption := alwaysOnValid && !i.opEngaged && reachingTerminal;
      var alwaysOnLowspeedExemption := alwaysOnValid && !i.opEngaged && i.carSpeed < ALWAYS_ON_ALERT_MIN_SPEED;
      var certainlyDistracted := face.filter > 0.63 && face.distracted && face.detected;
      var maybeDistracted := hiStds > HI_STD_FALLBACK_TIME || !face.detected;
      if certainlyDistracted || maybeDistracted {
        if !(standstillOrangeExemption || alwaysOnRedExemption || (alwaysOnLowspeedExemption && reachingAudible)) {
          awareness := Max(awareness - stepChange, -0.1);
        }
      }
    }

    method PublishAlert(i: Input, alwaysOnValid: bool, awarenessPrev: real)
      requires alwaysOnValid == AlwaysOnValid(i, alwaysOn)
      modifies this`terminalTime, this`terminalAlertCnt, this`currentEvents
      ensures View() == CountTerminal(old(View()), awarenessPrev)
      ensures currentEvents == old(currentEvents) + Alert(View(), i, alwaysOn)
    {
      if awareness <= 0.0 {
        currentEvents := currentEvents + {if activeMonitoringMode then DriverDistracted else DriverUnresponsive};
        terminalTime := terminalTime + 1;
        if awarenessPrev > 0.0 {
          terminalAlertCnt := terminalAlertCnt + 1;
        }
      } else if awareness <= thresholdPrompt {
        currentEvents := currentEvents
                         + {if activeMonitoringMode then PromptDriverDistracted else PromptDriverUnresponsive};
      } else if awareness <= thresholdPre
                && !(alwaysOnValid && !i.opEngaged && i.carSpeed < ALWAYS_ON_ALERT_MIN_SPEED) {
        currentEvents := currentEvents + {if activeMonitoringMode then PreDriverDistracted else PreDriverUnresponsive};
      }
    }

    /** run_step: one frame of driver state and car state. */
    method RunStep(i: Input)
      modifies this
      ensures alwaysOn == old(alwaysOn)
      ensures (View(), currentEvents) == Step(old(View()), i, alwaysOn)
    {
      UpdateStatesOf(i);
      UpdateEventsOf(i);
    }
  }
}
