/**
 The event tables: which event types each event name carries (selfdrive/selfdrived/events.py and
 sunnypilot/selfdrive/selfdrived/events.py), and the event lists of
 sunnypilot/selfdrive/selfdrived/events_base.py. A list is kept sorted by the source, so only how
 often each name occurs matters: it is a multiset here.
 */
module EventTables {

  datatype ET =
    | Enable | PreEnable | OverrideLateral | OverrideLongitudinal | NoEntry
    | Warning | UserDisable | SoftDisable | ImmediateDisable | Permanent

  /** Names of the main event list; `Unlisted` stands for every name without a table entry. */
  datatype EventName =
    | StockFcw | ActuatorsApiUnavailable | JoystickDebug | LongitudinalManeuver | SelfdriveInitializing
    | Startup | StartupMaster | StartupNoControl | StartupNoCar | StartupNoSecOcKey | DashcamMode
    | InvalidLkasSetting | CruiseMismatch | CarUnrecognized | Aeb | StockAeb | StockLkas | Fcw | Ldw
    | SteerTempUnavailableSilent | PreDriverDistracted | PromptDriverDistracted | DriverDistracted
    | PreDriverUnresponsive | PromptDriverUnresponsive | DriverUnresponsive | ManualRestart
    | ResumeRequired | BelowSteerSpeed | PreLaneChangeLeft | PreLaneChangeRight | LaneChangeBlocked
    | LaneChange | SteerSaturated | FanMalfunction | CameraMalfunction | CameraFrameRate
    | LocationdTemporaryError | LocationdPermanentError | ParamsdTemporaryError | ParamsdPermanentError
    | PcmEnable | ButtonEnable | PcmDisable | ButtonCancel | BrakeHold | ParkBrake | PedalPressed
    | SteerDisengage | PreEnableStandstill | GasPressedOverride | SteerOverride | WrongCarMode
    | ResumeBlocked | WrongCruiseMode | SteerTempUnavailable | SteerTimeLimit | OutOfSpace
    | BelowEngageSpeed | SensorDataInvalid | NoGps | TooDistracted | ExcessiveActuation | Overheat
    | WrongGear | CalibrationInvalid | CalibrationIncomplete | CalibrationRecalibrating | DoorOpen
    | SeatbeltNotLatched | EspDisabled | LowBattery | CommIssue | CommIssueAvgFreq | SelfdrivedLagging
    | ProcessNotRunning | RadarFault | RadarTempUnavailable | ModeldLagging | PosenetInvalid
    | DeviceFalling | LowMemory | AccFaulted | EspActive | ControlsMismatch | UsbError | CanError
    | CanBusMissing | SteerUnavailable | ReverseGear | CruiseDisabled | RelayMalfunction | SpeedTooLow
    | SpeedTooHigh | VehicleSensorsInvalid | PersonalityChanged | UserBookmark | AudioFeedback
    | Unlisted(number: nat)

  /** The table EVENTS, one case per set of types. */
  function Types(e: EventName): set<ET> {
    match e
    case StockFcw | ActuatorsApiUnavailable | CruiseMismatch | NoGps | Unlisted(_) =>
      {}
    case JoystickDebug | LongitudinalManeuver =>
      {Permanent, Warning}
    case SelfdriveInitializing | StockLkas | ResumeBlocked | BelowEngageSpeed | TooDistracted =>
      {NoEntry}
    case Startup | StartupMaster | StartupNoCar | StartupNoSecOcKey | DashcamMode | CarUnrecognized | Fcw |
         Ldw | PreDriverDistracted | PromptDriverDistracted | DriverDistracted | PreDriverUnresponsive |
         PromptDriverUnresponsive | DriverUnresponsive | FanMalfunction | UserBookmark | AudioFeedback =>
      {Permanent}
    case StartupNoControl | InvalidLkasSetting | Aeb | StockAeb | OutOfSpace =>
      {NoEntry, Permanent}
    case SteerTempUnavailableSilent | ManualRestart | ResumeRequired | BelowSteerSpeed | PreLaneChangeLeft |
         PreLaneChangeRight | LaneChangeBlocked | LaneChange | SteerSaturated | BrakeHold |
         PersonalityChanged =>
      {Warning}
    case CameraMalfunction | CameraFrameRate | SensorDataInvalid | Overheat | CalibrationInvalid |
         CalibrationIncomplete | CalibrationRecalibrating | ModeldLagging | LowMemory | UsbError =>
      {NoEntry, Permanent, SoftDisable}
    case LocationdTemporaryError | ParamsdTemporaryError | SteerTempUnavailable | SteerTimeLimit |
         ExcessiveActuation | WrongGear | DoorOpen | SeatbeltNotLatched | EspDisabled | LowBattery |
         CommIssue | CommIssueAvgFreq | SelfdrivedLagging | ProcessNotRunning | RadarFault |
         RadarTempUnavailable | PosenetInvalid | DeviceFalling | EspActive =>
      {NoEntry, SoftDisable}
    case LocationdPermanentError | ParamsdPermanentError | AccFaulted | CanError | CanBusMissing |
         SteerUnavailable | RelayMalfunction | VehicleSensorsInvalid =>
      {ImmediateDisable, NoEntry, Permanent}
    case PcmEnable | ButtonEnable =>
      {Enable}
    case PcmDisable =>
      {UserDisable}
    case ButtonCancel | ParkBrake | PedalPressed | SteerDisengage | WrongCarMode | WrongCruiseMode =>
      {NoEntry, UserDisable}
    case PreEnableStandstill =>
      {PreEnable}
    case GasPressedOverride =>
      {OverrideLongitudinal}
    case SteerOverride =>
      {OverrideLateral}
    case ControlsMismatch =>
      {ImmediateDisable, NoEntry}
    case ReverseGear =>
      {NoEntry, Permanent, UserDisable}
    case CruiseDisabled | SpeedTooLow =>
      {ImmediateDisable}
    case SpeedTooHigh =>
      {NoEntry, Warning}
  }

  /** Names of the sunnypilot event list. */
  datatype EventNameSP =
    | LkasEnable | LkasDisable | ManualSteeringRequired | ManualLongitudinalRequired | SilentLkasEnable
    | SilentLkasDisable | SilentBrakeHold | SilentWrongGear | SilentReverseGear | SilentDoorOpen
    | SilentSeatbeltNotLatched | SilentParkBrake | ControlsMismatchLateral | ExperimentalModeSwitched
    | WrongCarModeAlertOnly | PedalPressedAlertOnly | LaneTurnLeft | LaneTurnRight | SpeedLimitActive
    | SpeedLimitChanged | SpeedLimitPreActive | SpeedLimitPending | E2eChime | UnlistedSP(number: nat)

  /** The table EVENTS_SP, one case per set of types. */
  function TypesSP(e: EventNameSP): set<ET> {
    match e
    case LkasEnable | SilentLkasEnable =>
      {Enable}
    case LkasDisable | ManualSteeringRequired | SilentLkasDisable =>
      {UserDisable}
    case ManualLongitudinalRequired | ExperimentalModeSwitched | WrongCarModeAlertOnly |
         PedalPressedAlertOnly | LaneTurnLeft | LaneTurnRight | SpeedLimitActive | SpeedLimitChanged |
         SpeedLimitPreActive | SpeedLimitPending =>
      {Warning}
    case SilentBrakeHold | SilentWrongGear | SilentDoorOpen | SilentSeatbeltNotLatched | SilentParkBrake =>
      {NoEntry, Warning}
    case SilentReverseGear =>
      {NoEntry, Permanent}
    case ControlsMismatchLateral =>
      {ImmediateDisable, NoEntry}
    case E2eChime =>
      {Permanent}
    case UnlistedSP(_) =>
      {}
  }
  // ---------- event lists ----------

  predicate Contains(events: multiset<EventName>, et: ET) {
    exists e :: e in events && et in Types(e)
  }

  predicate ContainsSP(events: multiset<EventNameSP>, et: ET) {
    exists e :: e in events && et in TypesSP(e)
  }

  predicate ContainsInList(events: multiset<EventName>, names: set<EventName>) {
    exists e :: e in events && e in names
  }

  predicate ContainsInListSP(events: multiset<EventNameSP>, names: set<EventNameSP>) {
    exists e :: e in events && e in names
  }

  /** `list.remove`: one occurrence goes, if there is one. */
  function Remove<T>(events: multiset<T>, e: T): multiset<T> {
    events - multiset{e}
  }

  function Add<T>(events: multiset<T>, e: T): multiset<T> {
    events + multiset{e}
  }

  // ---------- facts about the tables ----------

  lemma SoftDisableForbidsEntry(e: EventName)
    ensures SoftDisable in Types(e) ==> NoEntry in Types(e)
  {
  }

  /** The names that ask to engage. */
  predicate IsEngagement(e: EventName) {
    e == PcmEnable || e == ButtonEnable
  }

  lemma OnlyEngagementEnables(e: EventName)
    ensures Enable in Types(e) <==> e == PcmEnable || e == ButtonEnable
  {
  }

  lemma SunnypilotTypes(e: EventNameSP)
    ensures SoftDisable !in TypesSP(e)
    ensures Enable in TypesSP(e) <==> e == LkasEnable || e == SilentLkasEnable
  {
  }

  /** A list with a soft-disable event also forbids entry. */
  lemma SoftDisableListForbidsEntry(events: multiset<EventName>)
    requires Contains(events, SoftDisable)
    ensures Contains(events, NoEntry)
  {
    var e :| e in events && SoftDisable in Types(e);
    SoftDisableForbidsEntry(e);
  }

  lemma SunnypilotNeverSoftDisables(events: multiset<EventNameSP>)
    ensures !ContainsSP(events, SoftDisable)
  {
    forall e | e in events
      ensures SoftDisable !in TypesSP(e)
    {
      SunnypilotTypes(e);
    }
  }

  lemma EnableMeansEngagement(events: multiset<EventName>)
    ensures Contains(events, Enable) <==> PcmEnable in events || ButtonEnable in events
  {
    forall e | e in events
      ensures Enable in Types(e) <==> e == PcmEnable || e == ButtonEnable
    {
      OnlyEngagementEnables(e);
    }
    OnlyEngagementEnables(PcmEnable);
    OnlyEngagementEnables(ButtonEnable);
  }

  lemma EnableSPMeansLkas(events: multiset<EventNameSP>)
    ensures ContainsSP(events, Enable) <==> LkasEnable in events || SilentLkasEnable in events
  {
    forall e | e in events
      ensures Enable in TypesSP(e) <==> e == LkasEnable || e == SilentLkasEnable
    {
      SunnypilotTypes(e);
    }
    SunnypilotTypes(LkasEnable);
    SunnypilotTypes(SilentLkasEnable);
  }

  /** Removing events can only remove types. */
  lemma ContainsIsMonotone(fewer: multiset<EventName>, more: multiset<EventName>, et: ET)
    requires fewer <= more && Contains(fewer, et)
    ensures Contains(more, et)
  {
    var e :| e in fewer && et in Types(e);
    assert e in more;
  }
}
