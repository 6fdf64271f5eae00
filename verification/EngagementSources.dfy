/**
 Where an activation of MADS comes from, given who puts events in the raw lists
 (selfdrive/selfdrived/selfdrived.py, `update_events`, and selfdrive/car/car_specific.py).
 */
module EngagementSources {
  import opened EventTables
  import opened Mads
  import opened MadsEdits
  import opened MadsRequests
  import opened Selfdrived
  import opened EngagementRuns
  import opened CarSpecific

  // ---------- the raw lists ----------

  /** The names that selfdrived itself adds, takes over from driver monitoring, or keeps from the start. */
  predicate AddedElsewhere(e: EventName) {
    match e
    case JoystickDebug | LongitudinalManeuver | Startup | StartupMaster | StartupNoControl | StartupNoCar
      | StartupNoSecOcKey | CarUnrecognized | DashcamMode | SelfdriveInitializing | UserBookmark | AudioFeedback
      | ResumeBlocked | Overheat | OutOfSpace | LowMemory | FanMalfunction | CalibrationIncomplete
      | CalibrationRecalibrating | CalibrationInvalid | Ldw | ExcessiveActuation | LaneChangeBlocked
      | PreLaneChangeLeft | PreLaneChangeRight | LaneChange | ControlsMismatch | RelayMalfunction
      | ProcessNotRunning | CameraMalfunction | CameraFrameRate | SelfdrivedLagging | CanError
      | RadarTempUnavailable | RadarFault | UsbError | CanBusMissing | CommIssue | CommIssueAvgFreq
      | PosenetInvalid | LocationdTemporaryError | ParamsdTemporaryError | SensorDataInvalid | CruiseMismatch
      | SteerSaturated | Fcw | NoGps | ModeldLagging | PersonalityChanged | BelowSteerSpeed
      | TooDistracted | PreDriverDistracted | PromptDriverDistracted | DriverDistracted
      | PreDriverUnresponsive | PromptDriverUnresponsive | DriverUnresponsive => true
    case _ => false
  }

  /** One call of update_events: the car's side, what the sunnypilot part leaves of the car's events, and
      what the rest adds. `canValid` says whether the car's events are asked for at all. */
  datatype Sources = Sources(
    cp: CarParams, memory: Memory, sample: Sample, prev: Sample, control: Control, canValid: bool,
    disengageOnAccelerator: bool, kept: multiset<EventName>, others: multiset<EventName>)

  function CarEventsOf(src: Sources): multiset<EventName> {
    if src.canValid then CarUpdate(src.memory, src.cp, src.sample, src.prev, src.control).1 else multiset{}
  }

  predicate Pedal(src: Sources) {
    var s, p := src.sample, src.prev;
    (s.cs.gasPressed && !p.cs.gasPressed && src.disengageOnAccelerator)
    || (s.brakePressed && (!p.brakePressed || !s.cs.standstill))
    || (s.regenBraking && (!p.regenBraking || !s.cs.standstill))
  }

  ghost predicate Produced(i: StepInput, src: Sources) {
    i.cs == src.sample.cs
    && i.raw.main == src.others + src.kept + When(src.canValid && Pedal(src), PedalPressed)
    && (forall e :: e in src.others ==> AddedElsewhere(e))
    && src.kept <= CarEventsOf(src)
    && (forall e :: e != BelowSteerSpeed && e != ResumeRequired ==> src.kept[e] == CarEventsOf(src)[e])
    && LkasEnable !in i.raw.sp && SilentLkasEnable !in i.raw.sp
  }

  /** What a step leaves for the next: the memory of the car's object, and this state of the car. */
  function LeftBy(src: Sources): (Memory, Sample) {
    (if src.canValid then CarUpdate(src.memory, src.cp, src.sample, src.prev, src.control).0 else src.memory,
     src.sample)
  }

  /** Two calls in a row of one drive. */
  predicate Continues(src: Sources, next: Sources) {
    (next.memory, next.prev) == LeftBy(src) && next.cp == src.cp
    && next.disengageOnAccelerator == src.disengageOnAccelerator
  }

  lemma OthersLack(others: multiset<EventName>)
    requires forall e :: e in others ==> AddedElsewhere(e)
    ensures Lacks(others)
  {
    assert PcmEnable in others ==> AddedElsewhere(PcmEnable);
    assert ButtonEnable in others ==> AddedElsewhere(ButtonEnable);
    assert !AddedElsewhere(PcmEnable) && !AddedElsewhere(ButtonEnable);
  }

  lemma CountParts(others: multiset<EventName>, kept: multiset<EventName>, pedal: multiset<EventName>,
                   car: multiset<EventName>, e: EventName)
    requires kept <= car
    ensures (others + kept + pedal)[e] <= others[e] + car[e] + pedal[e]
  {
  }

  /** No raw list of the program holds an engagement name twice. */
  lemma EngagementNamesAreSingle(i: StepInput, src: Sources)
    requires Produced(i, src)
    ensures i.raw.main[PcmEnable] <= 1 && i.raw.main[ButtonEnable] <= 1
  {
    hide CarUpdate, AddedElsewhere, PcmRises, Pedal, When;
    OthersLack(src.others);
    CarRaisesOnce(src);
    var pedal := When(src.canValid && Pedal(src), PedalPressed);
    Other(src.canValid && Pedal(src), PedalPressed);
    CountParts(src.others, src.kept, pedal, CarEventsOf(src), PcmEnable);
    CountParts(src.others, src.kept, pedal, CarEventsOf(src), ButtonEnable);
  }

  lemma CarRaisesOnce(src: Sources)
    ensures CarEventsOf(src)[PcmEnable] <= 1 && CarEventsOf(src)[ButtonEnable] <= 1
  {
    hide CarUpdate, PcmRises;
    EngagementOnce(src.memory, src.cp, src.sample, src.prev, src.control);
  }

  /** With unified engagement off, or from paused, every activation comes from the sunnypilot list. */
  lemma BlockedActivationIsFromLateralList(s: Settings, inputs: seq<StepInput>, i: StepInput, src: Sources)
    requires Produced(i, src)
    requires !After(s, inputs).madsActive && After(s, inputs + [i]).madsActive
    requires !i.toggles.unified || After(s, inputs).mads == Paused
    ensures var l := ListsAfter(s, After(s, inputs), i); LkasEnable in l.sp || SilentLkasEnable in l.sp
  {
    hide After, Produced, ListsAfter;
    EngagementNamesAreSingle(i, src);
    BlockedActivationIsLateral(s, inputs, i);
  }

  // ---------- who adds the lateral names ----------

  /** MADS's editing adds the names that switch it on only for the lkas button, the cruise switch, or to
      leave the paused state. */
  lemma WhoAddsLateral(c: Context, l: Lists, x: EventNameSP)
    requires (x == LkasEnable || x == SilentLkasEnable) && x in Edited(c, l).sp
    ensures x in l.sp || (x == LkasEnable && ((LkasPress(c, c.cs.buttons) && !c.enabled) || CruiseSwitchedOn(c)))
            || (x == SilentLkasEnable && c.paused)
  {
    hide Edited;
    RequestedWithReason(c, l, x);
  }

  /** An engagement name that occurs once outlasts the editing only with unified engagement on. */
  lemma SurvivesUnified(c: Context, raw: multiset<EventName>)
    requires raw[PcmEnable] <= 1 && raw[ButtonEnable] <= 1
    requires raw[PcmEnable] > Removals(c, PcmEnable) || raw[ButtonEnable] > Removals(c, ButtonEnable)
    ensures c.toggles.unified && (PcmEnable in raw || ButtonEnable in raw)
  {
    hide Removals;
    if !c.toggles.unified {
      OnceIsNotEnough(c, PcmEnable, raw[PcmEnable]);
      OnceIsNotEnough(c, ButtonEnable, raw[ButtonEnable]);
    }
  }

  lemma NoneIsRaw(i: StepInput, src: Sources)
    requires Produced(i, src)
    ensures LkasEnable !in i.raw.sp && SilentLkasEnable !in i.raw.sp
  {
    hide CarUpdate;
  }

  lemma PausedIsBefore(s: Settings, j: Joint, i: StepInput)
    ensures ContextOf(s, MainStep(j, i), i).paused ==> j.mads == Paused
  {
    hide SS.Update;
  }

  /** Whatever else happens, MADS becomes active only out of the paused state, for the lkas button, for
      the cruise switch, or, with unified engagement on, together with an engagement of the main
      machine. */
  lemma WhatActivatesMads(s: Settings, inputs: seq<StepInput>, i: StepInput, src: Sources)
    requires Produced(i, src)
    requires !After(s, inputs).madsActive && After(s, inputs + [i]).madsActive
    ensures var j := After(s, inputs);
            var c := ContextOf(s, MainStep(j, i), i);
            j.mads == Paused || (LkasPress(c, i.cs.buttons) && !c.enabled) || CruiseSwitchedOn(c)
            || (i.toggles.unified && (PcmEnable in i.raw.main || ButtonEnable in i.raw.main))
  {
    hide After, Edited, LkasPress, CruiseSwitchedOn, Produced, Removals;
    var j := After(s, inputs);
    var c := ContextOf(s, MainStep(j, i), i);
    EngagementNamesAreSingle(i, src);
    WhereActivationComesFrom(s, inputs, i);
    PausedIsBefore(s, j, i);
    NoneIsRaw(i, src);
    if EngagementSurvives(s, j, i) {
      SurvivesUnified(c, i.raw.main);
    }
    if LkasEnable in Edited(c, i.raw).sp {
      WhoAddsLateral(c, i.raw, LkasEnable);
    }
    if SilentLkasEnable in Edited(c, i.raw).sp {
      WhoAddsLateral(c, i.raw, SilentLkasEnable);
    }
  }
}
