/**
 When a car raises which event (selfdrive/car/car_specific.py), name by name, and what its memory means
 over a drive: when a temporary steering fault gives the full warning, the silent one or none.
 */
module CarEventRules {
  import opened EventTables
  import opened Mads
  import opened CarSpecific

  // ---------- one step ----------

  predicate CancelPressed(cp: CarParams, bs: seq<ButtonEvent>) {
    (cp.brand != Hyundai || !cp.pcmCruise) && exists k :: 0 <= k < |bs| && bs[k].kind == Cancel
  }

  /** A steering fault, unless the driver had been steering when it came and still is. */
  predicate WarnsOfFault(m: Memory, s: Sample, prev: Sample) {
    s.steerFaultTemporary && (!s.steeringPressed || (prev.steerFaultTemporary && !m.noSteerWarning))
  }

  /** The last 150 steps, this one included, without a hand on the wheel. */
  predicate HandsOff(m: Memory, s: Sample) {
    !s.steeringPressed && m.steeringUnpressed >= 149
  }

  predicate Slow(cp: CarParams, s: Sample) {
    s.cs.vEgo < cp.minEnableSpeed
  }

  predicate NotFast(m: Memory, cp: CarParams, s: Sample) {
    (cp.minSteerSpeed > 0.0 && s.cs.vEgo < cp.minSteerSpeed + 0.5)
    || (m.lowSpeedAlert && s.cs.vEgo <= cp.minSteerSpeed + 1.0)
  }

  predicate Is(name: EventName, e: EventName) {
    e == name
  }

  predicate BodyCause(e: EventName, s: Sample) {
    || (s.doorOpen && Is(DoorOpen, e))
    || (s.seatbeltUnlatched && Is(SeatbeltNotLatched, e))
    || (!s.drivableGear && Is(WrongGear, e))
    || (s.cs.reverse && Is(ReverseGear, e))
    || (!s.cs.cruiseAvailable && Is(WrongCarMode, e))
    || (s.espDisabled && Is(EspDisabled, e))
    || (s.espActive && Is(EspActive, e))
  }

  predicate StockCause(e: EventName, cp: CarParams, s: Sample) {
    || (s.stockFcw && Is(StockFcw, e))
    || (s.stockAeb && Is(StockAeb, e))
    || (s.stockLkas && Is(StockLkas, e))
    || (s.cs.vEgo > cp.maxCtrlSpeed && Is(SpeedTooHigh, e))
    || (s.nonAdaptive && Is(WrongCruiseMode, e))
    || (s.brakeHoldActive && cp.openpilotLongitudinal && Is(BrakeHold, e))
    || (s.parkingBrake && Is(ParkBrake, e))
    || (s.accFaulted && Is(AccFaulted, e))
  }

  predicate DriverCause(e: EventName, s: Sample, prev: Sample) {
    || (s.steeringPressed && Is(SteerOverride, e))
    || (s.steeringDisengage && !prev.steeringDisengage && Is(SteerDisengage, e))
    || (s.brakePressed && s.cs.standstill && Is(PreEnableStandstill, e))
    || (s.cs.gasPressed && Is(GasPressedOverride, e))
    || (s.vehicleSensorsInvalid && Is(VehicleSensorsInvalid, e))
    || (s.invalidLkasSetting && Is(InvalidLkasSetting, e))
    || (s.lowSpeedAlert && Is(BelowSteerSpeed, e))
  }

  predicate FaultCause(e: EventName, m: Memory, s: Sample, prev: Sample) {
    var silent := m.silentSteerWarning || s.cs.standstill || !HandsOff(m, s);
    (WarnsOfFault(m, s, prev) && silent && Is(SteerTempUnavailableSilent, e))
    || (WarnsOfFault(m, s, prev) && !silent && Is(SteerTempUnavailable, e))
  }

  /** The car's own cruise control has switched on, or it is off: outside honda, which has its own rule
      for the second. */
  predicate PcmCause(e: EventName, cp: CarParams, s: Sample, prev: Sample) {
    || (PcmRises(cp, s, prev) && Is(PcmEnable, e))
    || (cp.pcmCruise && cp.brand != Honda && !s.cruiseEnabled && Is(PcmDisable, e))
  }

  predicate SignalCause(e: EventName, cp: CarParams, s: Sample) {
    || (s.buttonEnable && Is(ButtonEnable, e))
    || (CancelPressed(cp, s.cs.buttons) && Is(ButtonCancel, e))
    || (s.steerFaultPermanent && Is(SteerUnavailable, e))
  }

  /** The cruise control is off while nothing asks for braking. */
  predicate HondaDrops(e: EventName, cp: CarParams, s: Sample, cc: Control) {
    cp.pcmCruise && !s.cruiseEnabled && (cc.accel >= 0.0 || !cp.openpilotLongitudinal)
    && if s.cs.vEgo < cp.minEnableSpeed + 2.0 then Is(SpeedTooLow, e) else Is(CruiseDisabled, e)
  }

  predicate HondaCause(e: EventName, cp: CarParams, s: Sample, cc: Control) {
    || (cp.pcmCruise && Slow(cp, s) && Is(BelowEngageSpeed, e))
    || HondaDrops(e, cp, s, cc)
    || (cp.minEnableSpeed > 0.0 && s.cs.vEgo < 0.001 && Is(ManualRestart, e))
  }

  predicate ToyotaSlowCause(e: EventName, s: Sample, cc: Control) {
    || Is(BelowEngageSpeed, e)
    || (cc.accel > 0.3 && Is(SpeedTooLow, e))
    || (s.cs.vEgo < 0.001 && Is(ManualRestart, e))
  }

  predicate ToyotaCause(e: EventName, cp: CarParams, s: Sample, cc: Control) {
    cp.openpilotLongitudinal
    && ((s.cruiseStandstill && !s.brakePressed && (cc.resume || cp.hybrid) && Is(ResumeRequired, e))
        || (Slow(cp, s) && ToyotaSlowCause(e, s, cc)))
  }

  predicate GmCause(e: EventName, cp: CarParams, s: Sample) {
    || (Slow(cp, s) && !(s.cs.standstill && s.brake >= 20 && cp.forwardCamera) && Is(BelowEngageSpeed, e))
    || (s.cruiseStandstill && Is(ResumeRequired, e))
  }

  predicate VolkswagenCause(e: EventName, cp: CarParams, s: Sample, cc: Control) {
    cp.openpilotLongitudinal
    && ((s.cs.vEgo < cp.minEnableSpeed + 0.5 && Is(BelowEngageSpeed, e))
        || (Slow(cp, s) && cc.enabled && Is(SpeedTooLow, e)))
  }

  predicate BrandCause(e: EventName, m: Memory, cp: CarParams, s: Sample, cc: Control) {
    if cp.brand == Chrysler then NotFast(m, cp, s) && Is(BelowSteerSpeed, e)
    else if cp.brand == Honda then HondaCause(e, cp, s, cc)
    else if cp.brand == Toyota then ToyotaCause(e, cp, s, cc)
    else if cp.brand == Gm then GmCause(e, cp, s)
    else if cp.brand == Volkswagen then VolkswagenCause(e, cp, s, cc)
    else false
  }

  /** One condition with its name. */
  predicate Adds(add: (bool, EventName), e: EventName) {
    add.0 && Is(add.1, e)
  }

  lemma AddsIs(b: bool, name: EventName, e: EventName)
    ensures Adds((b, name), e) == (b && Is(name, e))
  {
  }

  lemma {:induction false} FromHas(adds: seq<(bool, EventName)>, e: EventName)
    ensures e in From(adds) <==> exists k :: 0 <= k < |adds| && Adds(adds[k], e)
  {
    if adds != [] {
      var n := |adds| - 1;
      FromHas(adds[..n], e);
      if e in From(adds) && !(e in From(adds[..n])) {
        assert Adds(adds[n], e);
      }
      if k :| 0 <= k < |adds| && Adds(adds[k], e) {
        if k < n {
          assert Adds(adds[..n][k], e);
        }
      }
    }
  }

  lemma SevenHave(a: (bool, EventName), b: (bool, EventName), c: (bool, EventName), d: (bool, EventName),
                  f: (bool, EventName), g: (bool, EventName), h: (bool, EventName), e: EventName)
    ensures e in From([a, b, c, d, f, g, h])
            <==> Adds(a, e) || Adds(b, e) || Adds(c, e) || Adds(d, e) || Adds(f, e) || Adds(g, e) || Adds(h, e)
  {
    hide From, Adds;
    var adds := [a, b, c, d, f, g, h];
    FromHas(adds, e);
    assert adds[0] == a && adds[1] == b && adds[2] == c && adds[3] == d && adds[4] == f && adds[5] == g && adds[6] == h;
  }

  lemma EightHave(a: (bool, EventName), b: (bool, EventName), c: (bool, EventName), d: (bool, EventName),
                  f: (bool, EventName), g: (bool, EventName), h: (bool, EventName), i: (bool, EventName), e: EventName)
    ensures e in From([a, b, c, d, f, g, h, i])
            <==> Adds(a, e) || Adds(b, e) || Adds(c, e) || Adds(d, e) || Adds(f, e) || Adds(g, e) || Adds(h, e)
                 || Adds(i, e)
  {
    hide From, Adds;
    var adds := [a, b, c, d, f, g, h, i];
    FromHas(adds, e);
    assert adds[0] == a && adds[1] == b && adds[2] == c && adds[3] == d && adds[4] == f && adds[5] == g && adds[6] == h
           && adds[7] == i;
  }

  lemma BodyHas(s: Sample, e: EventName)
    ensures e in BodyEvents(s) <==> BodyCause(e, s)
  {
    hide From, Is, Adds;
    SevenHave((s.doorOpen, DoorOpen), (s.seatbeltUnlatched, SeatbeltNotLatched), (!s.drivableGear, WrongGear),
              (s.cs.reverse, ReverseGear), (!s.cs.cruiseAvailable, WrongCarMode), (s.espDisabled, EspDisabled),
              (s.espActive, EspActive), e);
    AddsIs(s.doorOpen, DoorOpen, e);
    AddsIs(s.seatbeltUnlatched, SeatbeltNotLatched, e);
    AddsIs(!s.drivableGear, WrongGear, e);
    AddsIs(s.cs.reverse, ReverseGear, e);
    AddsIs(!s.cs.cruiseAvailable, WrongCarMode, e);
    AddsIs(s.espDisabled, EspDisabled, e);
    AddsIs(s.espActive, EspActive, e);
  }

  lemma StockHas(cp: CarParams, s: Sample, e: EventName)
    ensures e in StockEvents(cp, s) <==> StockCause(e, cp, s)
  {
    hide From, Is, Adds;
    EightHave((s.stockFcw, StockFcw), (s.stockAeb, StockAeb), (s.stockLkas, StockLkas),
              (s.cs.vEgo > cp.maxCtrlSpeed, SpeedTooHigh), (s.nonAdaptive, WrongCruiseMode),
              (s.brakeHoldActive && cp.openpilotLongitudinal, BrakeHold), (s.parkingBrake, ParkBrake),
              (s.accFaulted, AccFaulted), e);
    AddsIs(s.stockFcw, StockFcw, e);
    AddsIs(s.stockAeb, StockAeb, e);
    AddsIs(s.stockLkas, StockLkas, e);
    AddsIs(s.cs.vEgo > cp.maxCtrlSpeed, SpeedTooHigh, e);
    AddsIs(s.nonAdaptive, WrongCruiseMode, e);
    AddsIs(s.brakeHoldActive && cp.openpilotLongitudinal, BrakeHold, e);
    AddsIs(s.parkingBrake, ParkBrake, e);
    AddsIs(s.accFaulted, AccFaulted, e);
  }

  lemma DriverHas(s: Sample, prev: Sample, e: EventName)
    ensures e in DriverEvents(s, prev) <==> DriverCause(e, s, prev)
  {
    hide From, Is, Adds;
    SevenHave((s.steeringPressed, SteerOverride), (s.steeringDisengage && !prev.steeringDisengage, SteerDisengage),
              (s.brakePressed && s.cs.standstill, PreEnableStandstill), (s.cs.gasPressed, GasPressedOverride),
              (s.vehicleSensorsInvalid, VehicleSensorsInvalid), (s.invalidLkasSetting, InvalidLkasSetting),
              (s.lowSpeedAlert, BelowSteerSpeed), e);
    AddsIs(s.steeringPressed, SteerOverride, e);
    AddsIs(s.steeringDisengage && !prev.steeringDisengage, SteerDisengage, e);
    AddsIs(s.brakePressed && s.cs.standstill, PreEnableStandstill, e);
    AddsIs(s.cs.gasPressed, GasPressedOverride, e);
    AddsIs(s.vehicleSensorsInvalid, VehicleSensorsInvalid, e);
    AddsIs(s.invalidLkasSetting, InvalidLkasSetting, e);
    AddsIs(s.lowSpeedAlert, BelowSteerSpeed, e);
  }

  lemma {:induction false} CancelsHave(cp: CarParams, bs: seq<ButtonEvent>, e: EventName)
    ensures e in CancelEvents(cp, bs) <==> CancelPressed(cp, bs) && Is(ButtonCancel, e)
  {
    if bs != [] {
      var n := |bs| - 1;
      CancelsHave(cp, bs[..n], e);
      assert CancelPressed(cp, bs) <==>
        CancelPressed(cp, bs[..n]) || (bs[n].kind == Cancel && (cp.brand != Hyundai || !cp.pcmCruise)) by {
        if k :| 0 <= k < |bs| && bs[k].kind == Cancel {
          if k < n {
            assert bs[..n][k].kind == Cancel;
          }
        }
      }
    }
  }

  lemma OneHas(name: EventName, e: EventName)
    ensures e in multiset{name} <==> Is(name, e)
  {
  }

  lemma WhenHas(b: bool, name: EventName, e: EventName)
    ensures e in When(b, name) <==> b && Is(name, e)
  {
    OneHas(name, e);
    hide Is;
  }

  lemma FaultHas(m: Memory, s: Sample, prev: Sample, e: EventName)
    ensures e in SteerFault(m, s, prev).1 <==> FaultCause(e, m, s, prev)
  {
    hide Is;
    OneHas(SteerTempUnavailable, e);
    OneHas(SteerTempUnavailableSilent, e);
  }

  lemma PcmHas(cp: CarParams, s: Sample, prev: Sample, e: EventName)
    requires cp.brand != BodyOrMock
    ensures PcmCause(e, cp, s, prev)
            <==> e in PcmEvents(cp, s, prev) || (cp.brand == Honda && PcmRises(cp, s, prev) && Is(PcmEnable, e))
  {
    hide When, Is;
    WhenHas(!s.cruiseEnabled, PcmDisable, e);
    OneHas(PcmEnable, e);
  }

  lemma EitherHas(a: multiset<EventName>, b: multiset<EventName>, e: EventName)
    ensures e in a + b <==> e in a || e in b
  {
  }

  lemma AnyHas(a: multiset<EventName>, b: multiset<EventName>, c: multiset<EventName>, d: multiset<EventName>,
               f: multiset<EventName>, g: multiset<EventName>, h: multiset<EventName>, i: multiset<EventName>,
               e: EventName)
    ensures e in a + b + c + d + f + g + h + i
            <==> e in a || e in b || e in c || e in d || e in f || e in g || e in h || e in i
  {
  }

  lemma CommonIs(m: Memory, cp: CarParams, s: Sample, prev: Sample)
    ensures CommonEvents(m, cp, s, prev).1
            == BodyEvents(s) + StockEvents(cp, s) + DriverEvents(s, prev) + When(s.buttonEnable, ButtonEnable)
               + CancelEvents(cp, s.cs.buttons) + SteerFault(m, s, prev).1
               + When(s.steerFaultPermanent, SteerUnavailable) + PcmEvents(cp, s, prev)
  {
    hide BodyEvents, StockEvents, DriverEvents, CancelEvents, PcmEvents, SteerFault, When;
  }

  lemma SignalHas(cp: CarParams, s: Sample, e: EventName)
    ensures e in When(s.buttonEnable, ButtonEnable) || e in CancelEvents(cp, s.cs.buttons)
            || e in When(s.steerFaultPermanent, SteerUnavailable)
            <==> SignalCause(e, cp, s)
  {
    hide CancelEvents, When, CancelPressed, Is;
    WhenHas(s.buttonEnable, ButtonEnable, e);
    CancelsHave(cp, s.cs.buttons, e);
    WhenHas(s.steerFaultPermanent, SteerUnavailable, e);
  }

  lemma CommonHas(m: Memory, cp: CarParams, s: Sample, prev: Sample, e: EventName)
    ensures e in CommonEvents(m, cp, s, prev).1 <==>
      BodyCause(e, s) || StockCause(e, cp, s) || DriverCause(e, s, prev) || SignalCause(e, cp, s)
      || FaultCause(e, m, s, prev) || e in PcmEvents(cp, s, prev)
  {
    hide *;
    CommonIs(m, cp, s, prev);
    AnyHas(BodyEvents(s), StockEvents(cp, s), DriverEvents(s, prev), When(s.buttonEnable, ButtonEnable),
           CancelEvents(cp, s.cs.buttons), SteerFault(m, s, prev).1, When(s.steerFaultPermanent, SteerUnavailable),
           PcmEvents(cp, s, prev), e);
    BodyHas(s, e);
    StockHas(cp, s, e);
    DriverHas(s, prev, e);
    SignalHas(cp, s, e);
    FaultHas(m, s, prev, e);
  }

  /** What honda's own rule for the cruise control raises. */
  function HondaCruise(cp: CarParams, s: Sample, prev: Sample, cc: Control): multiset<EventName> {
    if !cp.pcmCruise then multiset{}
    else if s.cruiseEnabled && !prev.cruiseEnabled then multiset{PcmEnable}
    else if !s.cruiseEnabled && (cc.accel >= 0.0 || !cp.openpilotLongitudinal) then
      multiset{if s.cs.vEgo < cp.minEnableSpeed + 2.0 then SpeedTooLow else CruiseDisabled}
    else multiset{}
  }

  lemma HondaCruiseHas(cp: CarParams, s: Sample, prev: Sample, cc: Control, e: EventName)
    requires cp.brand == Honda
    ensures e in HondaCruise(cp, s, prev, cc) <==>
              HondaDrops(e, cp, s, cc) || (PcmRises(cp, s, prev) && Is(PcmEnable, e))
  {
    hide Is;
    OneHas(PcmEnable, e);
    OneHas(SpeedTooLow, e);
    OneHas(CruiseDisabled, e);
  }

  lemma TwoWhen(b: bool, n: EventName, c: bool, m: EventName, e: EventName)
    ensures e in When(b, n) + When(c, m) <==> (b && Is(n, e)) || (c && Is(m, e))
  {
    hide When, Is;
    WhenHas(b, n, e);
    WhenHas(c, m, e);
    EitherHas(When(b, n), When(c, m), e);
  }

  lemma AroundHas(b: bool, n: EventName, middle: multiset<EventName>, c: bool, m: EventName, e: EventName)
    ensures e in When(b, n) + middle + When(c, m) <==> (b && Is(n, e)) || e in middle || (c && Is(m, e))
  {
    hide When, Is;
    WhenHas(b, n, e);
    WhenHas(c, m, e);
    EitherHas(When(b, n), middle, e);
    EitherHas(When(b, n) + middle, When(c, m), e);
  }

  lemma HondaIs(cp: CarParams, s: Sample, prev: Sample, cc: Control)
    ensures HondaEvents(cp, s, prev, cc)
            == When(cp.pcmCruise && Slow(cp, s), BelowEngageSpeed) + HondaCruise(cp, s, prev, cc)
               + When(cp.minEnableSpeed > 0.0 && s.cs.vEgo < 0.001, ManualRestart)
  {
    hide When;
  }

  lemma HondaHas(cp: CarParams, s: Sample, prev: Sample, cc: Control, e: EventName)
    requires cp.brand == Honda
    ensures e in HondaEvents(cp, s, prev, cc) <==>
      HondaCause(e, cp, s, cc) || (PcmRises(cp, s, prev) && Is(PcmEnable, e))
  {
    hide When, Is, PcmRises, HondaEvents, HondaCruise, HondaDrops, Slow;
    HondaIs(cp, s, prev, cc);
    AroundHas(cp.pcmCruise && Slow(cp, s), BelowEngageSpeed, HondaCruise(cp, s, prev, cc),
              cp.minEnableSpeed > 0.0 && s.cs.vEgo < 0.001, ManualRestart, e);
    HondaCruiseHas(cp, s, prev, cc, e);
  }

  function ToyotaSlow(s: Sample, cc: Control): multiset<EventName> {
    multiset{BelowEngageSpeed} + When(cc.accel > 0.3, SpeedTooLow) + When(s.cs.vEgo < 0.001, ManualRestart)
  }

  lemma ToyotaSlowHas(s: Sample, cc: Control, e: EventName)
    ensures e in ToyotaSlow(s, cc) <==> ToyotaSlowCause(e, s, cc)
  {
    hide Is, When;
    var low, stopped := When(cc.accel > 0.3, SpeedTooLow), When(s.cs.vEgo < 0.001, ManualRestart);
    EitherHas(multiset{BelowEngageSpeed}, low, e);
    EitherHas(multiset{BelowEngageSpeed} + low, stopped, e);
    OneHas(BelowEngageSpeed, e);
    WhenHas(cc.accel > 0.3, SpeedTooLow, e);
    WhenHas(s.cs.vEgo < 0.001, ManualRestart, e);
  }

  lemma ToyotaIs(cp: CarParams, s: Sample, cc: Control)
    requires cp.openpilotLongitudinal
    ensures ToyotaEvents(cp, s, cc)
            == When(s.cruiseStandstill && !s.brakePressed && (cc.resume || cp.hybrid), ResumeRequired)
               + if Slow(cp, s) then ToyotaSlow(s, cc) else multiset{}
  {
    hide When;
  }

  lemma ToyotaHas(cp: CarParams, s: Sample, cc: Control, e: EventName)
    ensures e in ToyotaEvents(cp, s, cc) <==> ToyotaCause(e, cp, s, cc)
  {
    hide When, Is, ToyotaSlow, Slow, ToyotaSlowCause;
    if cp.openpilotLongitudinal {
      ToyotaIs(cp, s, cc);
      hide ToyotaEvents;
      var resume := s.cruiseStandstill && !s.brakePressed && (cc.resume || cp.hybrid);
      WhenHas(resume, ResumeRequired, e);
      if Slow(cp, s) {
        EitherHas(When(resume, ResumeRequired), ToyotaSlow(s, cc), e);
        ToyotaSlowHas(s, cc, e);
      } else {
        EitherHas(When(resume, ResumeRequired), multiset{}, e);
      }
    }
  }

  lemma GmHas(cp: CarParams, s: Sample, e: EventName)
    ensures e in GmEvents(cp, s) <==> GmCause(e, cp, s)
  {
    hide When, Is;
    TwoWhen(s.cs.vEgo < cp.minEnableSpeed && !(s.cs.standstill && s.brake >= 20 && cp.forwardCamera), BelowEngageSpeed,
            s.cruiseStandstill, ResumeRequired, e);
  }

  lemma VolkswagenHas(cp: CarParams, s: Sample, cc: Control, e: EventName)
    ensures e in VolkswagenEvents(cp, s, cc) <==> VolkswagenCause(e, cp, s, cc)
  {
    hide When, Is;
    TwoWhen(s.cs.vEgo < cp.minEnableSpeed + 0.5, BelowEngageSpeed,
            cc.enabled && s.cs.vEgo < cp.minEnableSpeed, SpeedTooLow, e);
  }

  lemma ChryslerHas(m: Memory, cp: CarParams, s: Sample, e: EventName)
    ensures e in When(ChryslerAlert(m, cp, s), BelowSteerSpeed) <==> NotFast(m, cp, s) && Is(BelowSteerSpeed, e)
  {
    hide When, Is;
    WhenHas(ChryslerAlert(m, cp, s), BelowSteerSpeed, e);
  }

  lemma HondaBrand(m: Memory, cp: CarParams, s: Sample, prev: Sample, cc: Control, e: EventName)
    requires cp.brand == Honda
    ensures BrandEvents(m, cp, s, prev, cc).1 == HondaEvents(cp, s, prev, cc)
    ensures BrandCause(e, m, cp, s, cc) == HondaCause(e, cp, s, cc)
  {
    hide HondaEvents, ToyotaEvents, GmEvents, VolkswagenEvents, When, ChryslerAlert, HondaCause, ToyotaCause, GmCause,
      VolkswagenCause;
  }

  lemma OtherBrand(m: Memory, cp: CarParams, s: Sample, prev: Sample, cc: Control, e: EventName)
    requires cp.brand != Honda
    ensures BrandEvents(m, cp, s, prev, cc).1
            == if cp.brand == Chrysler then When(ChryslerAlert(m, cp, s), BelowSteerSpeed)
               else if cp.brand == Toyota then ToyotaEvents(cp, s, cc)
               else if cp.brand == Gm then GmEvents(cp, s)
               else if cp.brand == Volkswagen then VolkswagenEvents(cp, s, cc)
               else multiset{}
    ensures BrandCause(e, m, cp, s, cc)
            == if cp.brand == Chrysler then NotFast(m, cp, s) && Is(BelowSteerSpeed, e)
               else if cp.brand == Toyota then ToyotaCause(e, cp, s, cc)
               else if cp.brand == Gm then GmCause(e, cp, s)
               else if cp.brand == Volkswagen then VolkswagenCause(e, cp, s, cc)
               else false
  {
    hide HondaEvents, ToyotaEvents, GmEvents, VolkswagenEvents, When, ChryslerAlert, HondaCause, ToyotaCause, GmCause,
      VolkswagenCause, NotFast, Is;
  }

  lemma BrandHas(m: Memory, cp: CarParams, s: Sample, prev: Sample, cc: Control, e: EventName)
    ensures e in BrandEvents(m, cp, s, prev, cc).1 <==>
      BrandCause(e, m, cp, s, cc) || (cp.brand == Honda && PcmRises(cp, s, prev) && Is(PcmEnable, e))
  {
    hide *;
    if cp.brand == Honda {
      HondaBrand(m, cp, s, prev, cc, e);
      HondaHas(cp, s, prev, cc, e);
    } else {
      OtherBrand(m, cp, s, prev, cc, e);
      ChryslerHas(m, cp, s, e);
      ToyotaHas(cp, s, cc, e);
      GmHas(cp, s, e);
      VolkswagenHas(cp, s, cc, e);
    }
  }

  lemma FaultKeepsAlert(m: Memory, cp: CarParams, s: Sample, prev: Sample)
    ensures CommonEvents(m, cp, s, prev).0.lowSpeedAlert == m.lowSpeedAlert
  {
    hide BodyEvents, StockEvents, DriverEvents, CancelEvents, PcmEvents;
  }

  lemma AlertDecides(m: Memory, n: Memory, e: EventName, cp: CarParams, s: Sample, cc: Control)
    requires m.lowSpeedAlert == n.lowSpeedAlert
    ensures BrandCause(e, m, cp, s, cc) <==> BrandCause(e, n, cp, s, cc)
  {
  }

  lemma CarIs(m: Memory, cp: CarParams, s: Sample, prev: Sample, cc: Control)
    requires cp.brand != BodyOrMock
    ensures var (n, common) := CommonEvents(m, cp, s, prev);
            CarUpdate(m, cp, s, prev, cc).1 == common + BrandEvents(n, cp, s, prev, cc).1
  {
    hide CommonEvents, BrandEvents;
  }

  /** For every brand and every name: when a step of the car raises it. A body or a mock car raises
      nothing. */
  lemma RaisedExactly(e: EventName, m: Memory, cp: CarParams, s: Sample, prev: Sample, cc: Control)
    ensures e in CarUpdate(m, cp, s, prev, cc).1 <==>
      cp.brand != BodyOrMock
      && (BodyCause(e, s) || StockCause(e, cp, s) || DriverCause(e, s, prev) || SignalCause(e, cp, s)
          || FaultCause(e, m, s, prev) || PcmCause(e, cp, s, prev) || BrandCause(e, m, cp, s, cc))
  {
    if cp.brand != BodyOrMock {
      hide *;
      var (n, common) := CommonEvents(m, cp, s, prev);
      CarIs(m, cp, s, prev, cc);
      EitherHas(common, BrandEvents(n, cp, s, prev, cc).1, e);
      CommonHas(m, cp, s, prev, e);
      PcmHas(cp, s, prev, e);
      BrandHas(n, cp, s, prev, cc, e);
      FaultKeepsAlert(m, cp, s, prev);
      AlertDecides(m, n, e, cp, s, cc);
    }
  }

  // ---------- the memory over a drive ----------

  const NEW := Memory(0, false, false, true)

  /** What the object remembers after a drive; `first` stands for the state before it. */
  function MemoryAfter(cp: CarParams, first: Sample, ss: seq<Sample>, ccs: seq<Control>): Memory
    requires |ccs| == |ss|
  {
    if ss == [] then NEW
    else
      var n := |ss| - 1;
      CarUpdate(MemoryAfter(cp, first, ss[..n], ccs[..n]), cp, ss[n], Before(first, ss, n), ccs[n]).0
  }

  function Before(first: Sample, ss: seq<Sample>, n: nat): Sample
    requires n <= |ss|
  {
    if n == 0 then first else ss[n - 1]
  }

  /** What step n of a drive raises. */
  function RaisedAt(cp: CarParams, first: Sample, ss: seq<Sample>, ccs: seq<Control>, n: nat): multiset<EventName>
    requires n < |ss| == |ccs|
  {
    CarUpdate(MemoryAfter(cp, first, ss[..n], ccs[..n]), cp, ss[n], Before(first, ss, n), ccs[n]).1
  }

  /** How many of the last steps were without a hand on the wheel. */
  function HandsOffFor(ss: seq<Sample>): nat {
    if ss == [] || ss[|ss| - 1].steeringPressed then 0 else HandsOffFor(ss[..|ss| - 1]) + 1
  }

  lemma {:induction false} HandsOffForExactly(ss: seq<Sample>, k: nat)
    ensures k <= HandsOffFor(ss) <==> k <= |ss| && forall i :: |ss| - k <= i < |ss| ==> !ss[i].steeringPressed
  {
    if ss != [] && k > 0 {
      var n := |ss| - 1;
      HandsOffForExactly(ss[..n], k - 1);
      assert forall i :: 0 <= i < n ==> ss[..n][i] == ss[i];
      if k <= |ss| && !ss[n].steeringPressed {
        assert (forall i :: |ss| - k <= i < n ==> !ss[i].steeringPressed) ==>
          forall i :: |ss| - k <= i < |ss| ==> !ss[i].steeringPressed;
      }
    }
  }

  /** A fault that the driver has been steering through since it came. */
  predicate SteeredThrough(first: Sample, ss: seq<Sample>) {
    ss != []
    && var n := |ss| - 1;
       ss[n].steerFaultTemporary && ss[n].steeringPressed
       && (!Before(first, ss, n).steerFaultTemporary || SteeredThrough(first, ss[..n]))
  }

  /** Whether a fault now is to be told silently: none has been absent yet since the start, or a silent
      warning has been given since it was. */
  predicate Silent(cp: CarParams, first: Sample, ss: seq<Sample>, ccs: seq<Control>)
    requires |ccs| == |ss|
  {
    forall c :: 0 <= c < |ss| && !ss[c].steerFaultTemporary ==>
      exists i :: c < i < |ss| && SteerTempUnavailableSilent in RaisedAt(cp, first, ss, ccs, i)
  }

  predicate Remembers(m: Memory, cp: CarParams, first: Sample, ss: seq<Sample>, ccs: seq<Control>)
    requires |ccs| == |ss|
  {
    && m.steeringUnpressed == HandsOffFor(ss)
    && m.noSteerWarning == SteeredThrough(first, ss)
    && m.silentSteerWarning == Silent(cp, first, ss, ccs)
  }

  predicate IsWarning(e: EventName) {
    e == SteerTempUnavailable || e == SteerTempUnavailableSilent
  }

  lemma WarningIsNotBody(e: EventName, s: Sample)
    requires IsWarning(e)
    ensures !BodyCause(e, s)
  {
  }

  lemma WarningIsNotDriver(e: EventName, s: Sample, prev: Sample)
    requires IsWarning(e)
    ensures !DriverCause(e, s, prev)
  {
  }

  lemma WarningIsNotStock(e: EventName, cp: CarParams, s: Sample)
    requires IsWarning(e)
    ensures !StockCause(e, cp, s)
  {
  }

  lemma WarningIsNoBrands(e: EventName, m: Memory, cp: CarParams, s: Sample, cc: Control)
    requires IsWarning(e)
    ensures !BrandCause(e, m, cp, s, cc)
  {
    hide NotFast, Slow;
  }

  lemma WarningIsNoSignal(e: EventName, cp: CarParams, s: Sample)
    requires IsWarning(e)
    ensures !SignalCause(e, cp, s)
  {
    hide CancelPressed;
  }

  lemma WarningIsOther(e: EventName)
    requires IsWarning(e)
    ensures !Is(PcmEnable, e) && !Is(PcmDisable, e)
  {
  }

  lemma WarningIsNotPcm(e: EventName, cp: CarParams, s: Sample, prev: Sample)
    requires IsWarning(e)
    ensures !PcmCause(e, cp, s, prev)
  {
    WarningIsOther(e);
    hide PcmRises, Is, IsWarning;
  }

  lemma WarningExactly(e: EventName, m: Memory, cp: CarParams, s: Sample, prev: Sample, cc: Control)
    requires IsWarning(e) && cp.brand != BodyOrMock
    ensures e in CarUpdate(m, cp, s, prev, cc).1 <==> FaultCause(e, m, s, prev)
  {
    hide *;
    RaisedExactly(e, m, cp, s, prev, cc);
    WarningIsNotBody(e, s);
    WarningIsNotDriver(e, s, prev);
    WarningIsNotStock(e, cp, s);
    WarningIsNoBrands(e, m, cp, s, cc);
    WarningIsNoSignal(e, cp, s);
    WarningIsNotPcm(e, cp, s, prev);
  }

  lemma WarnedExactly(m: Memory, cp: CarParams, s: Sample, prev: Sample, cc: Control)
    requires cp.brand != BodyOrMock
    ensures var events := CarUpdate(m, cp, s, prev, cc).1;
            var silent := m.silentSteerWarning || s.cs.standstill || !HandsOff(m, s);
            && (SteerTempUnavailable in events <==> WarnsOfFault(m, s, prev) && !silent)
            && (SteerTempUnavailableSilent in events <==> WarnsOfFault(m, s, prev) && silent)
  {
    hide CarUpdate, WarnsOfFault, HandsOff;
    WarningExactly(SteerTempUnavailable, m, cp, s, prev, cc);
    WarningExactly(SteerTempUnavailableSilent, m, cp, s, prev, cc);
  }

  lemma CarKeepsFaultMemory(m: Memory, cp: CarParams, s: Sample, prev: Sample, cc: Control)
    requires cp.brand != BodyOrMock
    ensures var n := CarUpdate(m, cp, s, prev, cc).0;
            n == SteerFault(m, s, prev).0.(lowSpeedAlert := n.lowSpeedAlert)
  {
    hide BodyEvents, StockEvents, DriverEvents, CancelEvents, PcmEvents, HondaEvents, ToyotaEvents, GmEvents,
      VolkswagenEvents, When, ChryslerAlert, SteerFault;
  }

  lemma FaultStep(m: Memory, cp: CarParams, s: Sample, prev: Sample, cc: Control)
    requires cp.brand != BodyOrMock
    ensures var (n, events) := CarUpdate(m, cp, s, prev, cc);
            && n.steeringUnpressed == (if s.steeringPressed then 0 else m.steeringUnpressed + 1)
            && n.noSteerWarning
               == (s.steerFaultTemporary && s.steeringPressed && (!prev.steerFaultTemporary || m.noSteerWarning))
            && n.silentSteerWarning
               == (s.steerFaultTemporary && (m.silentSteerWarning || SteerTempUnavailableSilent in events))
  {
    hide CarUpdate;
    WarnedExactly(m, cp, s, prev, cc);
    CarKeepsFaultMemory(m, cp, s, prev, cc);
  }

  lemma RaisedBefore(cp: CarParams, first: Sample, ss: seq<Sample>, ccs: seq<Control>, i: nat, n: nat)
    requires i < n <= |ss| == |ccs|
    ensures RaisedAt(cp, first, ss[..n], ccs[..n], i) == RaisedAt(cp, first, ss, ccs, i)
  {
    hide CarUpdate, MemoryAfter;
    assert ss[..n][..i] == ss[..i] && ccs[..n][..i] == ccs[..i];
  }

  lemma SilentStep(cp: CarParams, first: Sample, ss: seq<Sample>, ccs: seq<Control>)
    requires |ccs| == |ss| > 0
    ensures var n := |ss| - 1;
            Silent(cp, first, ss, ccs) <==>
              ss[n].steerFaultTemporary
              && (Silent(cp, first, ss[..n], ccs[..n]) || SteerTempUnavailableSilent in RaisedAt(cp, first, ss, ccs, n))
  {
    hide RaisedAt;
    var n := |ss| - 1;
    forall i | 0 <= i < n
      ensures RaisedAt(cp, first, ss[..n], ccs[..n], i) == RaisedAt(cp, first, ss, ccs, i) && ss[..n][i] == ss[i]
    {
      RaisedBefore(cp, first, ss, ccs, i, n);
    }
  }

  /** Over every drive the memory means what its fields say. */
  lemma {:induction false} EveryDriveRemembers(cp: CarParams, first: Sample, ss: seq<Sample>, ccs: seq<Control>)
    requires |ccs| == |ss| && cp.brand != BodyOrMock
    ensures Remembers(MemoryAfter(cp, first, ss, ccs), cp, first, ss, ccs)
  {
    hide CarUpdate, RaisedAt;
    if ss != [] {
      var n := |ss| - 1;
      EveryDriveRemembers(cp, first, ss[..n], ccs[..n]);
      FaultStep(MemoryAfter(cp, first, ss[..n], ccs[..n]), cp, ss[n], Before(first, ss, n), ccs[n]);
      SilentStep(cp, first, ss, ccs);
      RaisedIs(cp, first, ss, ccs, n);
      if n > 0 {
        assert ss[..n][n - 1] == ss[n - 1];
      }
    }
  }

  lemma RaisedIs(cp: CarParams, first: Sample, ss: seq<Sample>, ccs: seq<Control>, n: nat)
    requires n < |ss| == |ccs|
    ensures RaisedAt(cp, first, ss, ccs, n)
            == CarUpdate(MemoryAfter(cp, first, ss[..n], ccs[..n]), cp, ss[n], Before(first, ss, n), ccs[n]).1
  {
  }

  lemma SteeredNext(first: Sample, ss: seq<Sample>, n: nat)
    requires n < |ss|
    ensures SteeredThrough(first, ss[..n + 1]) <==>
      ss[n].steerFaultTemporary && ss[n].steeringPressed
      && (!Before(first, ss, n).steerFaultTemporary || SteeredThrough(first, ss[..n]))
  {
    assert ss[..n + 1][..n] == ss[..n];
    if n > 0 {
      assert ss[..n + 1][n - 1] == ss[n - 1];
    }
  }

  lemma NoneBefore(ss: seq<Sample>, n: nat)
    requires n < |ss|
    ensures (forall i :: n - 149 <= i < n && i >= 0 ==> !ss[..n][i].steeringPressed) <==>
            (forall i :: n - 149 <= i < n && i >= 0 ==> !ss[i].steeringPressed)
  {
    assert forall i :: 0 <= i < n ==> ss[..n][i] == ss[i];
  }

  /** Over every drive, in terms of what happened: the full warning is given exactly if there is a fault,
      the car moves, the last 150 steps were without a hand on the wheel, and some earlier step without
      fault was followed by no silent warning. Otherwise a fault is told silently, or not at all while
      the driver has been steering through it since it came. */
  lemma FullWarningExactly(cp: CarParams, first: Sample, ss: seq<Sample>, ccs: seq<Control>, n: nat)
    requires n < |ss| == |ccs| && cp.brand != BodyOrMock
    ensures var events := RaisedAt(cp, first, ss, ccs, n);
            var full := n >= 149 && (forall i :: n - 149 <= i <= n ==> !ss[i].steeringPressed)
                        && !ss[n].cs.standstill && !Silent(cp, first, ss[..n], ccs[..n]);
            && (SteerTempUnavailable in events <==> ss[n].steerFaultTemporary && full)
            && (SteerTempUnavailableSilent in events <==>
                  ss[n].steerFaultTemporary && !full && !SteeredThrough(first, ss[..n + 1]))
  {
    hide CarUpdate, Silent, HandsOffFor, MemoryAfter, SteeredThrough;
    var m := MemoryAfter(cp, first, ss[..n], ccs[..n]);
    EveryDriveRemembers(cp, first, ss[..n], ccs[..n]);
    WarnedExactly(m, cp, ss[n], Before(first, ss, n), ccs[n]);
    HandsOffForExactly(ss[..n], 149);
    SteeredNext(first, ss, n);
    NoneBefore(ss, n);
  }
}
