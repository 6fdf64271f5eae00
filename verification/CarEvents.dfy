/**
 The events a car raises (selfdrive/car/car_specific.py, `CarSpecificEvents`): the producer of the
 engagement names.
 */
module CarSpecific {
  import opened EventTables
  import opened Mads

  datatype Brand = Chrysler | Honda | Toyota | Gm | Volkswagen | Hyundai | BodyOrMock | OtherBrand

  /** What stays the same over a drive; `maxCtrlSpeed` belongs to the car interface. */
  datatype CarParams = CarParams(
    brand: Brand, pcmCruise: bool, openpilotLongitudinal: bool, minSteerSpeed: real, minEnableSpeed: real,
    maxCtrlSpeed: real, hybrid: bool, forwardCamera: bool)

  /** One state of the car; `cs` is the part that MADS reads too. */
  datatype Sample = Sample(
    cs: CarState, drivableGear: bool, doorOpen: bool, seatbeltUnlatched: bool, espDisabled: bool, espActive: bool,
    stockFcw: bool, stockAeb: bool, stockLkas: bool, nonAdaptive: bool, brakeHoldActive: bool, parkingBrake: bool,
    accFaulted: bool, steeringPressed: bool, steeringDisengage: bool, brakePressed: bool, brake: int,
    regenBraking: bool, vehicleSensorsInvalid: bool, invalidLkasSetting: bool, lowSpeedAlert: bool,
    buttonEnable: bool, steerFaultTemporary: bool, steerFaultPermanent: bool, cruiseEnabled: bool,
    cruiseStandstill: bool, blockPcmEnable: bool)

  datatype Control = Control(accel: real, resume: bool, enabled: bool)

  /** The values of the object's fields. */
  datatype Memory = Memory(steeringUnpressed: nat, lowSpeedAlert: bool, noSteerWarning: bool, silentSteerWarning: bool)

  const STEERING_STEPS := 150    // 1.5 / DT_CTRL

  function When(b: bool, e: EventName): multiset<EventName> {
    if b then multiset{e} else multiset{}
  }

  /** The names whose condition holds, added one after the other. */
  function From(adds: seq<(bool, EventName)>): multiset<EventName> {
    if adds == [] then multiset{}
    else From(adds[..|adds| - 1]) + When(adds[|adds| - 1].0, adds[|adds| - 1].1)
  }

  // ---------- events of every brand ----------

  function BodyEvents(s: Sample): multiset<EventName> {
    From([(s.doorOpen, DoorOpen), (s.seatbeltUnlatched, SeatbeltNotLatched), (!s.drivableGear, WrongGear),
          (s.cs.reverse, ReverseGear), (!s.cs.cruiseAvailable, WrongCarMode), (s.espDisabled, EspDisabled),
          (s.espActive, EspActive)])
  }

  function StockEvents(cp: CarParams, s: Sample): multiset<EventName> {
    From([(s.stockFcw, StockFcw), (s.stockAeb, StockAeb), (s.stockLkas, StockLkas),
          (s.cs.vEgo > cp.maxCtrlSpeed, SpeedTooHigh), (s.nonAdaptive, WrongCruiseMode),
          (s.brakeHoldActive && cp.openpilotLongitudinal, BrakeHold), (s.parkingBrake, ParkBrake),
          (s.accFaulted, AccFaulted)])
  }

  function DriverEvents(s: Sample, prev: Sample): multiset<EventName> {
    From([(s.steeringPressed, SteerOverride), (s.steeringDisengage && !prev.steeringDisengage, SteerDisengage),
          (s.brakePressed && s.cs.standstill, PreEnableStandstill), (s.cs.gasPressed, GasPressedOverride),
          (s.vehicleSensorsInvalid, VehicleSensorsInvalid), (s.invalidLkasSetting, InvalidLkasSetting),
          (s.lowSpeedAlert, BelowSteerSpeed)])
  }

  function CancelEvents(cp: CarParams, bs: seq<ButtonEvent>): multiset<EventName> {
    if bs == [] then multiset{}
    else
      CancelEvents(cp, bs[..|bs| - 1])
      + When(bs[|bs| - 1].kind == Cancel && (cp.brand != Hyundai || !cp.pcmCruise), ButtonCancel)
  }

  function SteerFault(m: Memory, s: Sample, prev: Sample): (Memory, multiset<EventName>) {
    var unpressed := if s.steeringPressed then 0 else m.steeringUnpressed + 1;
    if !s.steerFaultTemporary then
      (m.(steeringUnpressed := unpressed, noSteerWarning := false, silentSteerWarning := false), multiset{})
    else if s.steeringPressed && (!prev.steerFaultTemporary || m.noSteerWarning) then
      (m.(steeringUnpressed := unpressed, noSteerWarning := true), multiset{})
    else if m.silentSteerWarning || s.cs.standstill || unpressed < STEERING_STEPS then
      (m.(steeringUnpressed := unpressed, noSteerWarning := false, silentSteerWarning := true),
       multiset{SteerTempUnavailableSilent})
    else (m.(steeringUnpressed := unpressed, noSteerWarning := false), multiset{SteerTempUnavailable})
  }

  /** The brands that engage with the car's own cruise control, here; honda has its own rule. */
  function PcmEvents(cp: CarParams, s: Sample, prev: Sample): multiset<EventName> {
    if !(cp.pcmCruise && cp.brand != Honda) then multiset{}
    else if s.cruiseEnabled && !prev.cruiseEnabled && !s.blockPcmEnable then multiset{PcmEnable}
    else When(!s.cruiseEnabled, PcmDisable)
  }

  function CommonEvents(m: Memory, cp: CarParams, s: Sample, prev: Sample): (Memory, multiset<EventName>) {
    var (n, fault) := SteerFault(m, s, prev);
    (n, BodyEvents(s) + StockEvents(cp, s) + DriverEvents(s, prev) + When(s.buttonEnable, ButtonEnable)
        + CancelEvents(cp, s.cs.buttons) + fault + When(s.steerFaultPermanent, SteerUnavailable)
        + PcmEvents(cp, s, prev))
  }

  // ---------- events of one brand ----------

  function ChryslerAlert(m: Memory, cp: CarParams, s: Sample): bool {
    if cp.minSteerSpeed > 0.0 && s.cs.vEgo < cp.minSteerSpeed + 0.5 then true
    else if s.cs.vEgo > cp.minSteerSpeed + 1.0 then false
    else m.lowSpeedAlert
  }

  function HondaEvents(cp: CarParams, s: Sample, prev: Sample, cc: Control): multiset<EventName> {
    When(cp.pcmCruise && s.cs.vEgo < cp.minEnableSpeed, BelowEngageSpeed)
    + (if !cp.pcmCruise then multiset{}
       else if s.cruiseEnabled && !prev.cruiseEnabled then multiset{PcmEnable}
       else if !s.cruiseEnabled && (cc.accel >= 0.0 || !cp.openpilotLongitudinal) then
         multiset{if s.cs.vEgo < cp.minEnableSpeed + 2.0 then SpeedTooLow else CruiseDisabled}
       else multiset{})
    + When(cp.minEnableSpeed > 0.0 && s.cs.vEgo < 0.001, ManualRestart)
  }

  function ToyotaEvents(cp: CarParams, s: Sample, cc: Control): multiset<EventName> {
    if !cp.openpilotLongitudinal then multiset{}
    else
      When(s.cruiseStandstill && !s.brakePressed && (cc.resume || cp.hybrid), ResumeRequired)
      + (if s.cs.vEgo < cp.minEnableSpeed then
           multiset{BelowEngageSpeed} + When(cc.accel > 0.3, SpeedTooLow) + When(s.cs.vEgo < 0.001, ManualRestart)
         else multiset{})
  }

  function GmEvents(cp: CarParams, s: Sample): multiset<EventName> {
    When(s.cs.vEgo < cp.minEnableSpeed && !(s.cs.standstill && s.brake >= 20 && cp.forwardCamera), BelowEngageSpeed)
    + When(s.cruiseStandstill, ResumeRequired)
  }

  function VolkswagenEvents(cp: CarParams, s: Sample, cc: Control): multiset<EventName> {
    if !cp.openpilotLongitudinal then multiset{}
    else
      When(s.cs.vEgo < cp.minEnableSpeed + 0.5, BelowEngageSpeed)
      + When(cc.enabled && s.cs.vEgo < cp.minEnableSpeed, SpeedTooLow)
  }

  function BrandEvents(m: Memory, cp: CarParams, s: Sample, prev: Sample, cc: Control): (Memory, multiset<EventName>) {
    match cp.brand
    case Chrysler =>
      var alert := ChryslerAlert(m, cp, s);
      (m.(lowSpeedAlert := alert), When(alert, BelowSteerSpeed))
    case Honda => (m, HondaEvents(cp, s, prev, cc))
    case Toyota => (m, ToyotaEvents(cp, s, cc))
    case Gm => (m, GmEvents(cp, s))
    case Volkswagen => (m, VolkswagenEvents(cp, s, cc))
    case _ => (m, multiset{})
  }

  function CarUpdate(m: Memory, cp: CarParams, s: Sample, prev: Sample, cc: Control): (Memory, multiset<EventName>) {
    if cp.brand == BodyOrMock then (m, multiset{})
    else
      var (n, common) := CommonEvents(m, cp, s, prev);
      var (o, brand) := BrandEvents(n, cp, s, prev, cc);
      (o, common + brand)
  }

  // ---------- the object ----------

  class CarSpecificEvents {
    const cp: CarParams
    var steeringUnpressed: nat
    var lowSpeedAlert: bool
    var noSteerWarning: bool
    var silentSteerWarning: bool

    ghost function View(): Memory
      reads this
    {
      Memory(steeringUnpressed, lowSpeedAlert, noSteerWarning, silentSteerWarning)
    }

    constructor (cp: CarParams)
      ensures this.cp == cp && View() == Memory(0, false, false, true)
    {
      this.cp := cp;
      steeringUnpressed, lowSpeedAlert, noSteerWarning, silentSteerWarning := 0, false, false, true;
    }

    method UpdateWith(s: Sample, prev: Sample, cc: Control) returns (events: multiset<EventName>)
      modifies this
      ensures (View(), events) == CarUpdate(old(View()), cp, s, prev, cc)
    {
      hide CommonEvents, BrandEvents;
      if cp.brand == BodyOrMock {
        return multiset{};
      }
      events := CreateCommonEvents(s, prev);
      var more := AddBrandEvents(s, prev, cc);
      events := events + more;
    }

    method AddBrandEvents(s: Sample, prev: Sample, cc: Control) returns (events: multiset<EventName>)
      modifies this`lowSpeedAlert
      ensures (View(), events) == BrandEvents(old(View()), cp, s, prev, cc)
    {
      hide HondaEvents, ToyotaEvents, GmEvents, VolkswagenEvents;
      events := multiset{};
      match cp.brand {
        case Chrysler =>
          if cp.minSteerSpeed > 0.0 && s.cs.vEgo < cp.minSteerSpeed + 0.5 {
            lowSpeedAlert := true;
          } else if s.cs.vEgo > cp.minSteerSpeed + 1.0 {
            lowSpeedAlert := false;
          }
          events := When(lowSpeedAlert, BelowSteerSpeed);
        case Honda => events := HondaEvents(cp, s, prev, cc);
        case Toyota => events := ToyotaEvents(cp, s, cc);
        case Gm => events := GmEvents(cp, s);
        case Volkswagen => events := VolkswagenEvents(cp, s, cc);
        case _ =>
      }
    }

    method CreateCommonEvents(s: Sample, prev: Sample) returns (events: multiset<EventName>)
      modifies this`steeringUnpressed, this`noSteerWarning, this`silentSteerWarning
      ensures (View(), events) == CommonEvents(old(View()), cp, s, prev)
    {
      hide BodyEvents, StockEvents, DriverEvents, CancelEvents, PcmEvents, SteerFault, When;
      var cancels := AddCancelEvents(s.cs.buttons);
      var fault := AddSteerFault(s, prev);
      events := BodyEvents(s) + StockEvents(cp, s) + DriverEvents(s, prev) + When(s.buttonEnable, ButtonEnable)
        + cancels + fault + When(s.steerFaultPermanent, SteerUnavailable) + PcmEvents(cp, s, prev);
    }

    method AddCancelEvents(bs: seq<ButtonEvent>) returns (events: multiset<EventName>)
      ensures events == CancelEvents(cp, bs)
    {
      events := multiset{};
      for k := 0 to |bs|
        invariant events == CancelEvents(cp, bs[..k])
      {
        assert bs[..k + 1][..k] == bs[..k];
        if bs[k].kind == Cancel && (cp.brand != Hyundai || !cp.pcmCruise) {
          events := Add(events, ButtonCancel);
        }
      }
      assert bs[..|bs|] == bs;
    }

    method AddSteerFault(s: Sample, prev: Sample) returns (events: multiset<EventName>)
      modifies this`steeringUnpressed, this`noSteerWarning, this`silentSteerWarning
      ensures (View(), events) == SteerFault(old(View()), s, prev)
    {
      events := multiset{};
      steeringUnpressed := if s.steeringPressed then 0 else steeringUnpressed + 1;
      if s.steerFaultTemporary {
        if s.steeringPressed && (!prev.steerFaultTemporary || noSteerWarning) {
          noSteerWarning := true;
        } else {
          noSteerWarning := false;
          if silentSteerWarning || s.cs.standstill || steeringUnpressed < STEERING_STEPS {
            silentSteerWarning := true;
            events := multiset{SteerTempUnavailableSilent};
          } else {
            events := multiset{SteerTempUnavailable};
          }
        }
      } else {
        noSteerWarning := false;
        silentSteerWarning := false;
      }
    }
  }

  // ---------- the engagement names ----------

  /** None of the engagement names is in the list. */
  predicate Lacks(events: multiset<EventName>) {
    events[PcmEnable] == 0 && events[ButtonEnable] == 0
  }

  lemma Nothing()
    ensures Lacks(multiset{})
  {
  }

  lemma Other(b: bool, name: EventName)
    requires !IsEngagement(name)
    ensures Lacks(When(b, name))
  {
  }

  lemma Both(x: multiset<EventName>, y: multiset<EventName>)
    ensures Lacks(x) && Lacks(y) ==> Lacks(x + y)
  {
  }

  lemma {:induction false} FromLacks(adds: seq<(bool, EventName)>)
    requires forall k :: 0 <= k < |adds| ==> !IsEngagement(adds[k].1)
    ensures Lacks(From(adds))
  {
    hide When, Lacks;
    if adds == [] {
      Nothing();
    } else {
      var rest, last := adds[..|adds| - 1], adds[|adds| - 1];
      FromLacks(rest);
      Other(last.0, last.1);
      Both(From(rest), When(last.0, last.1));
    }
  }

  lemma BodyLacks(s: Sample)
    ensures Lacks(BodyEvents(s))
  {
    hide From, Lacks;
    FromLacks([(s.doorOpen, DoorOpen), (s.seatbeltUnlatched, SeatbeltNotLatched), (!s.drivableGear, WrongGear),
               (s.cs.reverse, ReverseGear), (!s.cs.cruiseAvailable, WrongCarMode), (s.espDisabled, EspDisabled),
               (s.espActive, EspActive)]);
  }

  lemma StockLacks(cp: CarParams, s: Sample)
    ensures Lacks(StockEvents(cp, s))
  {
    hide From, Lacks;
    FromLacks([(s.stockFcw, StockFcw), (s.stockAeb, StockAeb), (s.stockLkas, StockLkas),
               (s.cs.vEgo > cp.maxCtrlSpeed, SpeedTooHigh), (s.nonAdaptive, WrongCruiseMode),
               (s.brakeHoldActive && cp.openpilotLongitudinal, BrakeHold), (s.parkingBrake, ParkBrake),
               (s.accFaulted, AccFaulted)]);
  }

  lemma DriverLacks(s: Sample, prev: Sample)
    ensures Lacks(DriverEvents(s, prev))
  {
    hide From, Lacks;
    FromLacks([(s.steeringPressed, SteerOverride), (s.steeringDisengage && !prev.steeringDisengage, SteerDisengage),
               (s.brakePressed && s.cs.standstill, PreEnableStandstill), (s.cs.gasPressed, GasPressedOverride),
               (s.vehicleSensorsInvalid, VehicleSensorsInvalid), (s.invalidLkasSetting, InvalidLkasSetting),
               (s.lowSpeedAlert, BelowSteerSpeed)]);
  }

  lemma FaultLacks(m: Memory, s: Sample, prev: Sample)
    ensures Lacks(SteerFault(m, s, prev).1)
  {
  }

  lemma {:induction false} CancelsLack(cp: CarParams, bs: seq<ButtonEvent>)
    ensures Lacks(CancelEvents(cp, bs))
  {
    hide When, Lacks;
    if bs == [] {
      Nothing();
    } else {
      var rest, b := CancelEvents(cp, bs[..|bs| - 1]), bs[|bs| - 1].kind == Cancel && (cp.brand != Hyundai || !cp.pcmCruise);
      CancelsLack(cp, bs[..|bs| - 1]);
      Other(b, ButtonCancel);
      Both(rest, When(b, ButtonCancel));
    }
  }

  lemma OtherBrandsLack(m: Memory, cp: CarParams, s: Sample, prev: Sample, cc: Control)
    requires cp.brand != Honda
    ensures Lacks(BrandEvents(m, cp, s, prev, cc).1)
  {
    hide ToyotaEvents, GmEvents, VolkswagenEvents, ChryslerAlert, Lacks, When;
    Nothing();
    Other(ChryslerAlert(m, cp, s), BelowSteerSpeed);
    ToyotaLacks(cp, s, cc);
    GmLacks(cp, s);
    VolkswagenLacks(cp, s, cc);
  }

  lemma ToyotaLacks(cp: CarParams, s: Sample, cc: Control)
    ensures Lacks(ToyotaEvents(cp, s, cc))
  {
  }

  lemma GmLacks(cp: CarParams, s: Sample)
    ensures Lacks(GmEvents(cp, s))
  {
  }

  lemma VolkswagenLacks(cp: CarParams, s: Sample, cc: Control)
    ensures Lacks(VolkswagenEvents(cp, s, cc))
  {
  }

  /** When the car's own cruise control has just come on and may engage. */
  predicate PcmRises(cp: CarParams, s: Sample, prev: Sample) {
    cp.brand != BodyOrMock && cp.pcmCruise && s.cruiseEnabled && !prev.cruiseEnabled
    && (cp.brand == Honda || !s.blockPcmEnable)
  }

  lemma EngagementOfHonda(cp: CarParams, s: Sample, prev: Sample, cc: Control)
    requires cp.brand == Honda
    ensures var events := HondaEvents(cp, s, prev, cc);
            events[PcmEnable] == (if PcmRises(cp, s, prev) then 1 else 0) && events[ButtonEnable] == 0
  {
  }

  lemma EngagementOfPcm(cp: CarParams, s: Sample, prev: Sample)
    ensures var events := PcmEvents(cp, s, prev);
            events[ButtonEnable] == 0
            && events[PcmEnable] == (if cp.pcmCruise && cp.brand != Honda && s.cruiseEnabled && !prev.cruiseEnabled
                                        && !s.blockPcmEnable then 1 else 0)
  {
  }

  lemma EngagementInCommon(m: Memory, cp: CarParams, s: Sample, prev: Sample)
    ensures var events := CommonEvents(m, cp, s, prev).1;
            events[PcmEnable] == PcmEvents(cp, s, prev)[PcmEnable]
            && events[ButtonEnable] == (if s.buttonEnable then 1 else 0)
  {
    hide BodyEvents, StockEvents, DriverEvents, CancelEvents, SteerFault, PcmEvents;
    BodyLacks(s);
    StockLacks(cp, s);
    DriverLacks(s, prev);
    CancelsLack(cp, s.cs.buttons);
    FaultLacks(m, s, prev);
    EngagementOfPcm(cp, s, prev);
  }

  /** A car raises each engagement name at most once in a step, and exactly when its rule says so. */
  lemma EngagementOnce(m: Memory, cp: CarParams, s: Sample, prev: Sample, cc: Control)
    ensures var events := CarUpdate(m, cp, s, prev, cc).1;
            events[PcmEnable] == (if PcmRises(cp, s, prev) then 1 else 0)
            && events[ButtonEnable] == (if cp.brand != BodyOrMock && s.buttonEnable then 1 else 0)
  {
    hide CommonEvents, HondaEvents, PcmEvents, ToyotaEvents, GmEvents, VolkswagenEvents, When;
    if cp.brand != BodyOrMock {
      var n := CommonEvents(m, cp, s, prev).0;
      EngagementInCommon(m, cp, s, prev);
      EngagementOfPcm(cp, s, prev);
      if cp.brand == Honda {
        EngagementOfHonda(cp, s, prev, cc);
      } else {
        hide BrandEvents;
        OtherBrandsLack(n, cp, s, prev, cc);
      }
    }
  }
}
