/**
 The OBD multiplexing handshake between the car process (selfdrive/car/card.py, `obd_callback`) and
 pandad (selfdrive/pandad/panda_safety.cc), which share nothing but the parameter store. Each read
 or write of a parameter and each command to a panda is one atomic step, and the steps of the two
 processes interleave freely.
 */
module ObdHandshake {

  datatype SafetyModel = Silent | Elm327 | OtherModel(number: nat)

  datatype Mode = Mode(model: SafetyModel, param: nat)

  /** The mode panda i has for fingerprinting, with or without multiplexing. */
  function ElmFor(multiplexing: bool, i: nat): Mode {
    Mode(Elm327, if i > 0 || !multiplexing then 1 else 0)
  }

  function Configured(configs: seq<Mode>, i: nat): Mode {
    if i < |configs| then configs[i] else Mode(Silent, 0)
  }

  // ---------- pandad's side ----------

  /** Where pandad is inside configureSafetyMode. */
  datatype Pc =
    | Loop
    | InitPanda(next: nat)
    | ReadRequest
    | SwitchPanda(request: bool, next: nat)
    | WriteChanged
    | ReadFirmware
    | ReadReady
    | ReadCarParams
    | ConfigurePanda(configs: seq<Mode>, next: nat)

  datatype Pandad = Pandad(pc: Pc, initialized: bool, prev: bool, configured: bool, pandas: seq<Mode>)

  /** What pandad would read now: its onroad flag, the three flags and the car's configuration. */
  datatype Reads = Reads(onroad: bool, requested: bool, firmwareDone: bool, ready: bool, configs: seq<Mode>)

  /** One atomic step of pandad. */
  function PandadStep(p: Pandad, r: Reads): Pandad {
    match p.pc
    case Loop =>
      if r.onroad && !p.configured then
        if p.initialized then p.(pc := ReadRequest) else p.(pc := InitPanda(0), prev := false)
      else if !r.onroad then p.(initialized := false, configured := false)
      else p
    case InitPanda(i) =>
      if i < |p.pandas| then p.(pc := InitPanda(i + 1), pandas := p.pandas[i := Mode(Elm327, 1)])
      else p.(pc := ReadRequest, initialized := true)
    case ReadRequest =>
      if r.requested != p.prev then p.(pc := SwitchPanda(r.requested, 0)) else p.(pc := ReadFirmware)
    case SwitchPanda(q, i) =>
      if i < |p.pandas| then p.(pc := SwitchPanda(q, i + 1), pandas := p.pandas[i := ElmFor(q, i)])
      else p.(pc := WriteChanged, prev := q)
    case WriteChanged => p.(pc := ReadFirmware)
    case ReadFirmware => p.(pc := if r.firmwareDone then ReadReady else Loop)
    case ReadReady => p.(pc := if r.ready then ReadCarParams else Loop)
    case ReadCarParams => p.(pc := ConfigurePanda(r.configs, 0))
    case ConfigurePanda(cs, i) =>
      if i < |p.pandas| then p.(pc := ConfigurePanda(cs, i + 1), pandas := p.pandas[i := Configured(cs, i)])
      else p.(pc := Loop, configured := true)
  }

  // ---------- both sides ----------

  /** Where the car process is: between calls, inside a call of set_obd_multiplexing, or past the
      firmware query. */
  datatype Card =
    | Idle
    | Compare(x: bool)
    | RemoveChanged(x: bool)
    | WriteEnabled(x: bool)
    | AwaitChanged(x: bool)
    | Finished

  datatype World = World(enabled: bool, changed: bool, firmwareDone: bool, card: Card, pandad: Pandad)

  /** Who moves next, and with what from outside. A move that is not possible changes nothing. */
  datatype Action =
    | Call(x: bool)
    | Finish
    | CardMoves
    | PandadMoves(onroad: bool, ready: bool, configs: seq<Mode>)

  function CardStep(w: World): World {
    match w.card
    case Idle => w
    case Compare(x) => w.(card := if w.enabled != x then RemoveChanged(x) else Idle)
    case RemoveChanged(x) => w.(changed := false, card := WriteEnabled(x))
    case WriteEnabled(x) => w.(enabled := x, card := AwaitChanged(x))
    case AwaitChanged(x) => if w.changed then w.(card := Idle) else w
    case Finished => w
  }

  function Apply(w: World, a: Action): World {
    match a
    case Call(x) => if w.card == Idle then w.(card := Compare(x)) else w
    case Finish => if w.card == Idle then w.(card := Finished, firmwareDone := true) else w
    case CardMoves => CardStep(w)
    case PandadMoves(onroad, ready, configs) =>
      w.(pandad := PandadStep(w.pandad, Reads(onroad, w.enabled, w.firmwareDone, ready, configs)),
         changed := w.changed || w.pandad.pc == WriteChanged)
  }

  /** A session starts with pandad fresh from an offroad step and the three parameters as they are. */
  function Fresh(enabled: bool, changed: bool, firmwareDone: bool, prev: bool, pandas: seq<Mode>): World {
    World(enabled, changed, firmwareDone, Idle, Pandad(Loop, false, prev, false, pandas))
  }

  /** With the request and the end of the firmware query cleared; the old answer may still be there. */
  function Start(changed: bool, prev: bool, pandas: seq<Mode>): World {
    Fresh(false, changed, false, prev, pandas)
  }

  function After(w: World, actions: seq<Action>): World {
    if actions == [] then w else Apply(After(w, actions[..|actions| - 1]), actions[|actions| - 1])
  }

  predicate Onroad(a: Action) {
    a.PandadMoves? ==> a.onroad
  }

  // ---------- the invariant ----------

  /** Every panda before n is in the fingerprinting mode for q: ELM327, of which parameter 0 means
      multiplexing and 1 means none, and only the first panda ever multiplexes. */
  predicate InElm(pandas: seq<Mode>, q: bool, n: nat) {
    n <= |pandas| && forall i :: 0 <= i < n ==> pandas[i] == Mode(Elm327, if q && i == 0 then 0 else 1)
  }

  predicate AllElm(p: Pandad, q: bool) {
    InElm(p.pandas, q, |p.pandas|)
  }

  predicate Configuring(p: Pandad) {
    p.configured || p.pc.ConfigurePanda?
  }

  predicate Switching(p: Pandad) {
    p.pc.SwitchPanda? || p.pc.WriteChanged?
  }

  predicate PandadInv(p: Pandad, firmwareDone: bool) {
    (p.configured ==> p.pc == Loop)
    && (Configuring(p) || p.pc.ReadReady? || p.pc.ReadCarParams? ==> firmwareDone)
    && (p.pc.InitPanda? ==> !p.prev && InElm(p.pandas, false, p.pc.next))
    && (p.initialized <==> !(p.pc.InitPanda? || (p.pc.Loop? && !p.initialized)))
    && (p.pc.SwitchPanda? ==> p.pc.request != p.prev && InElm(p.pandas, p.pc.request, p.pc.next))
    && (p.initialized && !Configuring(p) && !p.pc.SwitchPanda? ==> AllElm(p, p.prev))
  }

  /** Pandad has nothing to answer: it has made, or need not make, the switch to `enabled`. */
  predicate Settled(w: World) {
    !Switching(w.pandad) && (if w.pandad.initialized then w.pandad.prev == w.enabled else !w.enabled)
  }

  predicate Inv(w: World) {
    PandadInv(w.pandad, w.firmwareDone)
    && (w.firmwareDone <==> w.card == Finished)
    && match w.card
       case Idle => Settled(w)
       case Compare(_) => Settled(w)
       case RemoveChanged(x) => Settled(w) && w.enabled != x
       case WriteEnabled(x) => Settled(w) && w.enabled != x && !w.changed
       case Finished => Settled(w)
       case AwaitChanged(x) =>
         w.enabled == x
         && if w.changed then w.pandad.initialized && Settled(w)
            else match w.pandad.pc
              case SwitchPanda(q, _) => q == x
              case WriteChanged => w.pandad.prev == x
              case _ => if w.pandad.initialized then w.pandad.prev != x else x
  }

  lemma PandadKeepsInv(p: Pandad, r: Reads)
    requires PandadInv(p, r.firmwareDone) && r.onroad
    ensures PandadInv(PandadStep(p, r), r.firmwareDone)
  {
  }

  lemma InvKept(w: World, a: Action)
    requires Inv(w) && Onroad(a)
    ensures Inv(Apply(w, a))
  {
    match a
    case PandadMoves(onroad, ready, configs) =>
      PandadKeepsInv(w.pandad, Reads(onroad, w.enabled, w.firmwareDone, ready, configs));
    case _ =>
  }

  lemma {:induction false} EverySessionKeepsInv(changed: bool, prev: bool, pandas: seq<Mode>, actions: seq<Action>)
    requires forall k :: 0 <= k < |actions| ==> Onroad(actions[k])
    ensures Inv(After(Start(changed, prev, pandas), actions))
  {
    hide Inv, Apply, Onroad;
    if actions == [] {
      StartInv(changed, prev, pandas);
    } else {
      var rest := actions[..|actions| - 1];
      EverySessionKeepsInv(changed, prev, pandas, rest);
      InvKept(After(Start(changed, prev, pandas), rest), actions[|actions| - 1]);
    }
  }

  lemma StartInv(changed: bool, prev: bool, pandas: seq<Mode>)
    ensures Inv(Start(changed, prev, pandas))
  {
  }

  // ---------- what the handshake promises ----------

  /** In every session, a call that changed the parameter returns only once every panda is in the
      fingerprinting mode it asked for. */
  lemma CallReturnsSwitched(changed: bool, prev: bool, pandas: seq<Mode>, actions: seq<Action>, x: bool)
    requires forall k :: 0 <= k < |actions| ==> Onroad(actions[k])
    requires var w := After(Start(changed, prev, pandas), actions);
             w.card == AwaitChanged(x) && CardStep(w).card == Idle
    ensures AllElm(After(Start(changed, prev, pandas), actions).pandad, x)
  {
    hide After, Onroad;
    EverySessionKeepsInv(changed, prev, pandas, actions);
  }

  /** And they stay there until the next call writes the parameter, or the firmware query ends. */
  lemma PandasHoldTheRequest(changed: bool, prev: bool, pandas: seq<Mode>, actions: seq<Action>)
    requires forall k :: 0 <= k < |actions| ==> Onroad(actions[k])
    requires var w := After(Start(changed, prev, pandas), actions);
             w.pandad.initialized && (w.card == Idle || w.card.Compare? || w.card.RemoveChanged? || w.card.WriteEnabled?)
    ensures var w := After(Start(changed, prev, pandas), actions); AllElm(w.pandad, w.enabled)
  {
    hide After, Onroad;
    EverySessionKeepsInv(changed, prev, pandas, actions);
  }

  /** A call for the value already stored returns at once; only before pandad has put the pandas in
      fingerprinting mode, and only for x false, can they be in another mode then. */
  lemma CallWithoutChange(changed: bool, prev: bool, pandas: seq<Mode>, actions: seq<Action>, x: bool)
    requires forall k :: 0 <= k < |actions| ==> Onroad(actions[k])
    requires var w := After(Start(changed, prev, pandas), actions); w.card == Compare(x) && w.enabled == x
    ensures var w := After(Start(changed, prev, pandas), actions);
            CardStep(w).card == Idle && if w.pandad.initialized then AllElm(w.pandad, x) else !x
  {
    hide After, Onroad;
    EverySessionKeepsInv(changed, prev, pandas, actions);
  }

  // ---------- the wait ends ----------

  /** Steps of pandad still needed before it writes the answer the car process waits for. */
  function Left(p: Pandad): nat
    requires p.pc.SwitchPanda? ==> p.pc.next <= |p.pandas|
    requires p.pc.InitPanda? ==> p.pc.next <= |p.pandas|
    requires !Configuring(p)
  {
    var n := |p.pandas|;
    match p.pc
    case WriteChanged => 1
    case SwitchPanda(_, i) => 2 + (n - i)
    case ReadRequest => 3 + n
    case InitPanda(i) => 4 + n + (n - i)
    case Loop => 5 + 2 * n
    case _ => 8 + 2 * n
  }

  predicate Waiting(w: World) {
    w.card.AwaitChanged? && !w.changed
  }

  /** While the car process waits, each step of pandad brings the answer closer. */
  lemma WaitGetsShorter(w: World, a: Action)
    requires Inv(w) && Onroad(a) && Waiting(w)
    ensures !Configuring(w.pandad)
    ensures var v := Apply(w, a);
            !Waiting(v) || (Inv(v) && if a.PandadMoves? then Left(v.pandad) < Left(w.pandad) else v == w)
  {
    InvKept(w, a);
  }

  function PandadSteps(actions: seq<Action>): nat {
    if actions == [] then 0
    else PandadSteps(actions[..|actions| - 1]) + if actions[|actions| - 1].PandadMoves? then 1 else 0
  }

  /** Each of them uses up at least one of the steps left at the start. */
  lemma {:induction false} WaitEnds(w: World, actions: seq<Action>)
    requires Inv(w) && Waiting(w)
    requires forall k :: 0 <= k < |actions| ==> Onroad(actions[k])
    requires forall k :: 0 <= k <= |actions| ==> Waiting(After(w, actions[..k]))
    ensures Inv(After(w, actions)) && !Configuring(After(w, actions).pandad)
    ensures !Configuring(w.pandad) && PandadSteps(actions) + Left(After(w, actions).pandad) <= Left(w.pandad)
  {
    hide Apply, Onroad, Inv, Left, Waiting, Configuring;
    NotConfiguring(w);
    if actions != [] {
      var rest := actions[..|actions| - 1];
      assert actions[..|actions|] == actions;
      forall k | 0 <= k <= |rest|
        ensures Waiting(After(w, rest[..k]))
      {
        assert rest[..k] == actions[..k];
      }
      WaitEnds(w, rest);
      assert rest[..|rest|] == rest;
      WaitGetsShorter(After(w, rest), actions[|actions| - 1]);
      NotConfiguring(After(w, actions));
    }
  }

  lemma NotConfiguring(w: World)
    requires Inv(w) && Waiting(w)
    ensures !Configuring(w.pandad)
    ensures w.pandad.pc.SwitchPanda? || w.pandad.pc.InitPanda? ==> w.pandad.pc.next <= |w.pandad.pandas|
    ensures 1 <= Left(w.pandad) <= 8 + 2 * |w.pandad.pandas|
  {
  }

  /** Whatever else happens, the car process waits for at most 2n + 7 steps of pandad, n being the
      number of pandas. */
  lemma WaitIsBounded(changed: bool, prev: bool, pandas: seq<Mode>, before: seq<Action>, actions: seq<Action>)
    requires forall k :: 0 <= k < |before| ==> Onroad(before[k])
    requires forall k :: 0 <= k < |actions| ==> Onroad(actions[k])
    requires var w := After(Start(changed, prev, pandas), before);
             forall k :: 0 <= k <= |actions| ==> Waiting(After(w, actions[..k]))
    ensures PandadSteps(actions) < 8 + 2 * |After(Start(changed, prev, pandas), before).pandad.pandas|
  {
    hide Apply, Onroad, Inv, Waiting, After, Left, Configuring;
    var w := After(Start(changed, prev, pandas), before);
    EverySessionKeepsInv(changed, prev, pandas, before);
    AfterNone(w);
    assert actions[..0] == [];
    assert Waiting(After(w, actions[..0]));
    NotConfiguring(w);
    WaitEnds(w, actions);
    assert actions[..|actions|] == actions;
    NotConfiguring(After(w, actions));
  }

  lemma AfterNone(w: World)
    ensures After(w, []) == w
  {
  }

  // ---------- once configured ----------

  /** Once pandad has set the car's own safety modes, whatever the parameters and the car process do,
      it changes no panda before an offroad step. */
  lemma {:induction false} ConfiguredIsFinal(w: World, actions: seq<Action>)
    requires w.pandad.configured && w.pandad.pc == Loop
    requires forall k :: 0 <= k < |actions| ==> Onroad(actions[k])
    ensures After(w, actions).pandad == w.pandad
  {
    hide After;
    if actions == [] {
      AfterNone(w);
    } else {
      var rest := actions[..|actions| - 1];
      ConfiguredIsFinal(w, rest);
      AfterLast(w, actions);
      ConfiguredStands(After(w, rest), actions[|actions| - 1]);
    }
  }

  lemma AfterLast(w: World, actions: seq<Action>)
    requires actions != []
    ensures After(w, actions) == Apply(After(w, actions[..|actions| - 1]), actions[|actions| - 1])
  {
  }

  lemma ConfiguredStands(w: World, a: Action)
    requires w.pandad.configured && w.pandad.pc == Loop && Onroad(a)
    ensures Apply(w, a).pandad == w.pandad
  {
  }

  /** The first n pandas have the modes of the car, in order, and are silent where it has none. */
  predicate InModes(pandas: seq<Mode>, configs: seq<Mode>, n: nat) {
    n <= |pandas|
    && forall i :: 0 <= i < n ==> pandas[i] == if i < |configs| then configs[i] else Mode(Silent, 0)
  }

  /** Setting the car's modes has begun, or is over and not undone. */
  predicate SetsModes(p: Pandad, configs: seq<Mode>) {
    if p.pc.ConfigurePanda? then p.pc.configs == configs && InModes(p.pandas, configs, p.pc.next)
    else p.pc == Loop && p.configured && InModes(p.pandas, configs, |p.pandas|)
  }

  lemma SetsModesOn(w: World, a: Action, configs: seq<Mode>)
    requires SetsModes(w.pandad, configs) && Onroad(a)
    ensures SetsModes(Apply(w, a).pandad, configs)
  {
  }

  /** From the step that reads the car's parameters on, and until the next offroad step, pandad is
      setting the modes they hold or every panda has its mode: whatever the processes do. */
  lemma {:induction false} SafetyModesHold(w: World, ready: bool, configs: seq<Mode>, actions: seq<Action>)
    requires w.pandad.pc == ReadCarParams
    requires forall k :: 0 <= k < |actions| ==> Onroad(actions[k])
    ensures var v := After(Apply(w, PandadMoves(true, ready, configs)), actions);
            SetsModes(v.pandad, configs)
  {
    hide After;
    var u := Apply(w, PandadMoves(true, ready, configs));
    if actions == [] {
      AfterNone(u);
    } else {
      var rest := actions[..|actions| - 1];
      SafetyModesHold(w, ready, configs, rest);
      AfterLast(u, actions);
      hide Apply, SetsModes, Onroad;
      assert Onroad(actions[|actions| - 1]);
      SetsModesOn(After(u, rest), actions[|actions| - 1], configs);
    }
  }

  // ---------- and not before ----------

  /** A move in which pandad finds the car not ready. */
  predicate Unready(a: Action) {
    a.PandadMoves? ==> !a.ready
  }

  /** Pandad is at, or past, the step that reads the car's parameters. */
  predicate PastReady(p: Pandad) {
    Configuring(p) || p.pc.ReadCarParams?
  }

  lemma UnreadyStep(w: World, a: Action)
    requires Unready(a) && !PastReady(w.pandad)
    ensures !PastReady(Apply(w, a).pandad)
  {
  }

  /** As long as the car is not ready pandad leaves the pandas in their fingerprinting modes, wherever
      else it may be and whatever the other parameters hold. */
  lemma {:induction false} NotBeforeReady(w: World, actions: seq<Action>)
    requires !PastReady(w.pandad)
    requires forall k :: 0 <= k < |actions| ==> Unready(actions[k])
    ensures !PastReady(After(w, actions).pandad)
  {
    hide After;
    if actions == [] {
      AfterNone(w);
    } else {
      var rest := actions[..|actions| - 1];
      NotBeforeReady(w, rest);
      AfterLast(w, actions);
      UnreadyStep(After(w, rest), actions[|actions| - 1]);
    }
  }

  /** Nor does it before the firmware query is done. */
  lemma NotBeforeFirmware(changed: bool, prev: bool, pandas: seq<Mode>, actions: seq<Action>)
    requires forall k :: 0 <= k < |actions| ==> Onroad(actions[k])
    ensures var w := After(Start(changed, prev, pandas), actions);
            w.card != Finished ==> !PastReady(w.pandad)
  {
    hide After, Onroad;
    EverySessionKeepsInv(changed, prev, pandas, actions);
  }

  // ---------- why the session must start cleared ----------

  const MOVE: Action := PandadMoves(true, false, [])

  /** One panda, switched to multiplexing by a completed call. */
  const SWITCHED := World(true, true, false, Idle, Pandad(Loop, true, true, false, [ElmFor(true, 0)]))

  /** Pandad goes offroad once, the parameters are kept, and the next call overlaps its restart. */
  const OVERLAP: seq<Action> :=
    [PandadMoves(false, false, []), MOVE, MOVE, MOVE, Call(false), CardMoves, CardMoves,
     MOVE, MOVE, MOVE, CardMoves, MOVE, CardMoves]

  lemma NextOf(w: World, actions: seq<Action>, k: nat)
    requires k < |actions|
    ensures After(w, actions[..k + 1]) == Apply(After(w, actions[..k]), actions[k])
  {
    assert actions[..k + 1][..k] == actions[..k];
  }

  /** Halfway: the panda is back without multiplexing and the call has removed the old answer. */
  const HALFWAY := World(true, false, false, WriteEnabled(false), Pandad(ReadRequest, true, false, false, [ElmFor(false, 0)]))

  lemma OverlapHalfway()
    ensures After(SWITCHED, OVERLAP[..7]) == HALFWAY
  {
    hide After;
    AfterNone(SWITCHED);
    assert OVERLAP[..0] == [];
    NextOf(SWITCHED, OVERLAP, 0);
    NextOf(SWITCHED, OVERLAP, 1);
    NextOf(SWITCHED, OVERLAP, 2);
    NextOf(SWITCHED, OVERLAP, 3);
    NextOf(SWITCHED, OVERLAP, 4);
    NextOf(SWITCHED, OVERLAP, 5);
    NextOf(SWITCHED, OVERLAP, 6);
  }

  /** A session that goes through an offroad step and keeps the request: the call for multiplexing off
      returns while the panda still multiplexes. */
  lemma OffroadStepBreaksThePromise()
    ensures Inv(SWITCHED)
    ensures var w := After(SWITCHED, OVERLAP);
            w.card == Idle && !w.enabled && w.pandad.initialized && w.pandad.pandas == [ElmFor(true, 0)]
            && !AllElm(w.pandad, false)
  {
    hide After;
    OverlapHalfway();
    NextOf(SWITCHED, OVERLAP, 7);
    NextOf(SWITCHED, OVERLAP, 8);
    NextOf(SWITCHED, OVERLAP, 9);
    NextOf(SWITCHED, OVERLAP, 10);
    NextOf(SWITCHED, OVERLAP, 11);
    NextOf(SWITCHED, OVERLAP, 12);
    assert OVERLAP[..13] == OVERLAP;
    assert After(SWITCHED, OVERLAP).pandad.pandas[0] == Mode(Elm327, 0);
  }

  // ---------- pandad's call in one piece ----------

  function Fingerprinting(n: nat, q: bool): seq<Mode> {
    seq(n, i requires 0 <= i < n => ElmFor(q, i))
  }

  function Configuration(configs: seq<Mode>, n: nat): seq<Mode> {
    seq(n, i requires 0 <= i < n => Configured(configs, i))
  }

  function Initialised(p: Pandad): Pandad {
    if p.initialized then p
    else p.(initialized := true, prev := false, pandas := Fingerprinting(|p.pandas|, false))
  }

  function Requested(p: Pandad, q: bool): Pandad {
    if q != p.prev then p.(prev := q, pandas := Fingerprinting(|p.pandas|, q)) else p
  }

  /** All of configureSafetyMode. A call reads each flag at most once, so `r` can stand for reads made
      at different moments. */
  function Configure(p: Pandad, r: Reads): Pandad {
    var n := |p.pandas|;
    if r.onroad && !p.configured then
      var b := Requested(Initialised(p), r.requested);
      if r.firmwareDone && r.ready then
        b.(configured := true, pandas := Configuration(r.configs, n))
      else b
    else if !r.onroad then p.(initialized := false, configured := false)
    else p
  }

  /** Pandad alone for k steps. */
  function Alone(p: Pandad, r: Reads, k: nat): Pandad {
    if k == 0 then p else PandadStep(Alone(p, r, k - 1), r)
  }

  lemma {:induction false} AloneAdds(p: Pandad, r: Reads, j: nat, k: nat)
    ensures Alone(p, r, j + k) == Alone(Alone(p, r, j), r, k)
  {
    hide PandadStep;
    if k > 0 {
      AloneAdds(p, r, j, k - 1);
    }
  }

  ghost predicate Reaches(p: Pandad, q: Pandad, r: Reads) {
    exists k: nat :: Alone(p, r, k) == q
  }

  lemma ReachesIn(p: Pandad, r: Reads, k: nat)
    ensures Reaches(p, Alone(p, r, k), r)
  {
  }

  lemma OneStep(p: Pandad, r: Reads)
    ensures Reaches(p, PandadStep(p, r), r)
  {
    hide PandadStep;
    assert Alone(p, r, 0) == p;
    assert Alone(p, r, 1) == PandadStep(p, r);
  }

  lemma ReachesOn(p: Pandad, q: Pandad, t: Pandad, r: Reads)
    requires Reaches(p, q, r) && Reaches(q, t, r)
    ensures Reaches(p, t, r)
  {
    hide Alone;
    var j: nat :| Alone(p, r, j) == q;
    var k: nat :| Alone(q, r, k) == t;
    AloneAdds(p, r, j, k);
  }

  lemma StepThen(p: Pandad, t: Pandad, r: Reads)
    requires Reaches(PandadStep(p, r), t, r)
    ensures Reaches(p, t, r)
  {
    hide Alone, PandadStep, Reaches;
    OneStep(p, r);
    ReachesOn(p, PandadStep(p, r), t, r);
  }

  lemma ThenStep(p: Pandad, t: Pandad, r: Reads)
    requires Reaches(p, t, r)
    ensures Reaches(p, PandadStep(t, r), r)
  {
    hide Alone, PandadStep, Reaches;
    OneStep(t, r);
    ReachesOn(p, t, PandadStep(t, r), r);
  }

  lemma FingerprintingOne(ps: seq<Mode>, q: bool, k: nat)
    requires k < |ps|
    ensures |Fingerprinting(k, q)| == k
    ensures (Fingerprinting(k, q) + ps[k..])[k := ElmFor(q, k)] == Fingerprinting(k + 1, q) + ps[k + 1..]
  {
  }

  lemma ConfigurationOne(ps: seq<Mode>, cs: seq<Mode>, k: nat)
    requires k < |ps|
    ensures |Configuration(cs, k)| == k
    ensures (Configuration(cs, k) + ps[k..])[k := Configured(cs, k)] == Configuration(cs, k + 1) + ps[k + 1..]
  {
  }

  lemma NoFingerprinting(ps: seq<Mode>, q: bool)
    ensures Fingerprinting(0, q) + ps[0..] == ps
  {
  }

  lemma NoConfiguration(ps: seq<Mode>, cs: seq<Mode>)
    ensures Configuration(cs, 0) + ps[0..] == ps
  {
  }

  lemma OnePanda(p: Pandad, r: Reads, i: nat)
    requires i < |p.pandas|
    ensures p.pc == InitPanda(i) ==>
      PandadStep(p, r) == p.(pc := InitPanda(i + 1), pandas := p.pandas[i := ElmFor(false, i)])
    ensures p.pc.SwitchPanda? && p.pc.next == i ==>
      PandadStep(p, r) == p.(pc := SwitchPanda(p.pc.request, i + 1), pandas := p.pandas[i := ElmFor(p.pc.request, i)])
    ensures p.pc.ConfigurePanda? && p.pc.next == i ==>
      PandadStep(p, r) ==
      p.(pc := ConfigurePanda(p.pc.configs, i + 1), pandas := p.pandas[i := Configured(p.pc.configs, i)])
  {
  }

  lemma {:induction false} InitLoop(p: Pandad, r: Reads, k: nat)
    requires p.pc == InitPanda(0) && k <= |p.pandas|
    ensures Alone(p, r, k) == p.(pc := InitPanda(k), pandas := Fingerprinting(k, false) + p.pandas[k..])
  {
    hide ElmFor, Fingerprinting, PandadStep;
    if k == 0 {
      NoFingerprinting(p.pandas, false);
    } else {
      InitLoop(p, r, k - 1);
      FingerprintingOne(p.pandas, false, k - 1);
      OnePanda(Alone(p, r, k - 1), r, k - 1);
    }
  }

  lemma {:induction false} SwitchLoop(p: Pandad, r: Reads, q: bool, k: nat)
    requires p.pc == SwitchPanda(q, 0) && k <= |p.pandas|
    ensures Alone(p, r, k) == p.(pc := SwitchPanda(q, k), pandas := Fingerprinting(k, q) + p.pandas[k..])
  {
    hide ElmFor, Fingerprinting, PandadStep;
    if k == 0 {
      NoFingerprinting(p.pandas, q);
    } else {
      SwitchLoop(p, r, q, k - 1);
      FingerprintingOne(p.pandas, q, k - 1);
      OnePanda(Alone(p, r, k - 1), r, k - 1);
    }
  }

  lemma {:induction false} ConfigureLoop(p: Pandad, r: Reads, cs: seq<Mode>, k: nat)
    requires p.pc == ConfigurePanda(cs, 0) && k <= |p.pandas|
    ensures Alone(p, r, k) == p.(pc := ConfigurePanda(cs, k), pandas := Configuration(cs, k) + p.pandas[k..])
  {
    hide Configured, Configuration, PandadStep;
    if k == 0 {
      NoConfiguration(p.pandas, cs);
    } else {
      ConfigureLoop(p, r, cs, k - 1);
      ConfigurationOne(p.pandas, cs, k - 1);
      OnePanda(Alone(p, r, k - 1), r, k - 1);
    }
  }

  lemma InitStage(p: Pandad, r: Reads)
    requires p.pc == Loop && r.onroad && !p.configured
    ensures Reaches(p, Initialised(p).(pc := ReadRequest), r)
  {
    hide Alone, Reaches, Fingerprinting;
    if p.initialized {
      OneStep(p, r);
    } else {
      var n := |p.pandas|;
      var a := p.(pc := InitPanda(0), prev := false);
      InitLoop(a, r, n);
      ReachesIn(a, r, n);
      FingerprintingAll(p.pandas, false);
      ThenStep(a, Alone(a, r, n), r);
      StepThen(p, Initialised(p).(pc := ReadRequest), r);
    }
  }

  lemma FingerprintingAll(ps: seq<Mode>, q: bool)
    ensures Fingerprinting(|ps|, q) + ps[|ps|..] == Fingerprinting(|ps|, q)
    ensures |Fingerprinting(|ps|, q)| == |ps|
  {
  }

  lemma RequestStage(p: Pandad, r: Reads)
    requires p.pc == ReadRequest
    ensures Reaches(p, Requested(p, r.requested).(pc := ReadFirmware), r)
  {
    hide Alone, Reaches, Fingerprinting;
    if r.requested == p.prev {
      OneStep(p, r);
    } else {
      var n := |p.pandas|;
      var a := p.(pc := SwitchPanda(r.requested, 0));
      SwitchLoop(a, r, r.requested, n);
      ReachesIn(a, r, n);
      FingerprintingAll(p.pandas, r.requested);
      ThenStep(a, Alone(a, r, n), r);
      ThenStep(a, PandadStep(Alone(a, r, n), r), r);
      StepThen(p, Requested(p, r.requested).(pc := ReadFirmware), r);
    }
  }

  lemma FinalStage(p: Pandad, r: Reads)
    requires p.pc == ReadFirmware
    ensures Reaches(p, if r.firmwareDone && r.ready
                       then p.(pc := Loop, configured := true, pandas := Configuration(r.configs, |p.pandas|))
                       else p.(pc := Loop), r)
  {
    hide Alone, Reaches, Configuration;
    OneStep(p, r);
    if r.firmwareDone {
      var b := p.(pc := ReadReady);
      OneStep(b, r);
      if r.ready {
        var n := |p.pandas|;
        var a := p.(pc := ConfigurePanda(r.configs, 0));
        ConfigureLoop(a, r, r.configs, n);
        ReachesIn(a, r, n);
        ConfigurationAll(p.pandas, r.configs);
        ThenStep(a, Alone(a, r, n), r);
        StepThen(p.(pc := ReadCarParams), PandadStep(Alone(a, r, n), r), r);
        StepThen(b, PandadStep(Alone(a, r, n), r), r);
        StepThen(p, PandadStep(Alone(a, r, n), r), r);
      } else {
        ThenStep(p, b, r);
      }
    }
  }

  lemma ConfigurationAll(ps: seq<Mode>, cs: seq<Mode>)
    ensures Configuration(cs, |ps|) + ps[|ps|..] == Configuration(cs, |ps|)
    ensures |Configuration(cs, |ps|)| == |ps|
  {
  }

  /** The whole call is what the atomic steps add up to. */
  lemma StepsMakeTheCall(p: Pandad, r: Reads)
    requires p.pc == Loop
    ensures Reaches(p, Configure(p, r), r)
  {
    hide Alone, Reaches, Fingerprinting, Configuration;
    if r.onroad && !p.configured {
      FingerprintingAll(p.pandas, false);
      FingerprintingAll(p.pandas, r.requested);
      var a := Initialised(p);
      var b := Requested(a, r.requested);
      InitStage(p, r);
      RequestStage(a.(pc := ReadRequest), r);
      FinalStage(b.(pc := ReadFirmware), r);
      ReachesOn(p, a.(pc := ReadRequest), b.(pc := ReadFirmware), r);
      ReachesOn(p, b.(pc := ReadFirmware), Configure(p, r), r);
    } else {
      OneStep(p, r);
    }
  }

  // ---------- exactly when the promise is kept ----------

  ghost predicate AllOnroad(actions: seq<Action>) {
    forall k :: 0 <= k < |actions| ==> Onroad(actions[k])
  }

  /** In every onroad session from w, whenever a call that changed the parameter can return every panda
      is in the mode it asked for. */
  ghost predicate KeepsPromise(w: World) {
    forall actions, x :: AllOnroad(actions) && Returning(After(w, actions), x) ==> AllElm(After(w, actions).pandad, x)
  }

  predicate Returning(w: World, x: bool) {
    w.card == AwaitChanged(x) && w.changed
  }

  ghost predicate Leads(w: World, v: World) {
    exists actions :: AllOnroad(actions) && After(w, actions) == v
  }

  lemma {:induction false} AfterBoth(w: World, before: seq<Action>, later: seq<Action>)
    ensures After(w, before + later) == After(After(w, before), later)
  {
    if later == [] {
      assert before + later == before;
    } else {
      var k := |later| - 1;
      AfterBoth(w, before, later[..k]);
      assert (before + later)[..|before + later| - 1] == before + later[..k];
    }
  }

  lemma LeadsOn(w: World, u: World, v: World)
    requires Leads(w, u) && Leads(u, v)
    ensures Leads(w, v)
  {
    hide After, Onroad;
    var before :| AllOnroad(before) && After(w, before) == u;
    var later :| AllOnroad(later) && After(u, later) == v;
    AfterBoth(w, before, later);
    assert AllOnroad(before + later);
  }

  lemma Stays(w: World)
    ensures Leads(w, w)
  {
    assert AllOnroad([]) && After(w, []) == w;
  }

  lemma Moves(w: World, u: World, a: Action)
    requires Leads(w, u) && Onroad(a)
    ensures Leads(w, Apply(u, a))
  {
    hide Apply, After, Leads;
    assert Leads(u, Apply(u, a)) by {
      OneAction(u, a);
    }
    LeadsOn(w, u, Apply(u, a));
  }

  lemma OneAction(w: World, a: Action)
    requires Onroad(a)
    ensures Leads(w, Apply(w, a))
  {
    hide Apply;
    assert [a][..0] == [];
    assert After(w, [a]) == Apply(w, a);
    assert AllOnroad([a]);
  }

  /** Pandad moves, with the car ready and no configuration. */
  const READY: Action := PandadMoves(true, true, [])

  function ReadsIn(w: World): Reads {
    Reads(true, w.enabled, w.firmwareDone, true, [])
  }

  /** Several steps of pandad in a row, none of which writes the answer. */
  lemma {:induction false} MovesAlone(w: World, u: World, k: nat)
    requires Leads(w, u)
    requires forall j :: 0 <= j < k ==> Alone(u.pandad, ReadsIn(u), j).pc != WriteChanged
    ensures Leads(w, u.(pandad := Alone(u.pandad, ReadsIn(u), k)))
  {
    hide Leads, PandadStep;
    if k == 0 {
      assert u.(pandad := u.pandad) == u;
    } else {
      MovesAlone(w, u, k - 1);
      var m := u.(pandad := Alone(u.pandad, ReadsIn(u), k - 1));
      Moves(w, m, READY);
      assert Alone(u.pandad, ReadsIn(u), k - 1).pc != WriteChanged;
    }
  }

  /** Pandad initialises its pandas. */
  lemma MovesThroughInit(w: World, u: World)
    requires Leads(w, u) && u.pandad.pc == InitPanda(0)
    ensures Leads(w, u.(pandad := u.pandad.(pc := ReadRequest, initialized := true,
                                            pandas := Fingerprinting(|u.pandad.pandas|, false))))
  {
    hide Leads, Fingerprinting, Alone;
    var p, n := u.pandad, |u.pandad.pandas|;
    forall j | 0 <= j < n
      ensures Alone(p, ReadsIn(u), j).pc != WriteChanged
    {
      InitLoop(p, ReadsIn(u), j);
    }
    MovesAlone(w, u, n);
    InitLoop(p, ReadsIn(u), n);
    FingerprintingAll(p.pandas, false);
    Moves(w, u.(pandad := Alone(p, ReadsIn(u), n)), READY);
  }

  /** Pandad switches its pandas. */
  lemma MovesThroughSwitch(w: World, u: World, q: bool)
    requires Leads(w, u) && u.pandad.pc == SwitchPanda(q, 0)
    ensures Leads(w, u.(pandad := u.pandad.(pc := WriteChanged, prev := q,
                                            pandas := Fingerprinting(|u.pandad.pandas|, q))))
  {
    hide Leads, Fingerprinting, Alone;
    var p, n := u.pandad, |u.pandad.pandas|;
    forall j | 0 <= j < n
      ensures Alone(p, ReadsIn(u), j).pc != WriteChanged
    {
      SwitchLoop(p, ReadsIn(u), q, j);
    }
    MovesAlone(w, u, n);
    SwitchLoop(p, ReadsIn(u), q, n);
    FingerprintingAll(p.pandas, q);
    Moves(w, u.(pandad := Alone(p, ReadsIn(u), n)), READY);
  }

  lemma Breaks(w: World, v: World, x: bool)
    requires Leads(w, v) && Returning(v, x) && !AllElm(v.pandad, x)
    ensures !KeepsPromise(w)
  {
    hide After, AllOnroad, AllElm;
    var actions :| AllOnroad(actions) && After(w, actions) == v;
  }

  /** A request left over: the first call to take it back can return on the answer to the old one. */
  lemma StaleRequestBreaks(changed: bool, firmwareDone: bool, prev: bool, pandas: seq<Mode>)
    requires pandas != []
    ensures !KeepsPromise(Fresh(true, changed, firmwareDone, prev, pandas))
  {
    hide Leads, KeepsPromise, Fingerprinting, AllElm;
    var w, n := Fresh(true, changed, firmwareDone, prev, pandas), |pandas|;
    Stays(w);
    Moves(w, w, READY);
    var u1 := Apply(w, READY);
    MovesThroughInit(w, u1);
    var u2 := u1.(pandad := Pandad(ReadRequest, true, false, false, Fingerprinting(n, false)));
    Moves(w, u2, Call(false));
    var u3 := u2.(card := Compare(false));
    Moves(w, u3, CardMoves);
    var u4 := u2.(card := RemoveChanged(false));
    Moves(w, u4, CardMoves);
    var u5 := u2.(card := WriteEnabled(false), changed := false);
    Moves(w, u5, READY);
    StaleRequestIsAnswered(w, u5.(pandad := u5.pandad.(pc := SwitchPanda(true, 0))), n);
  }

  lemma StaleRequestIsAnswered(w: World, u: World, n: nat)
    requires Leads(w, u) && n > 0 && u.card == WriteEnabled(false)
    requires u.pandad == Pandad(SwitchPanda(true, 0), true, false, false, Fingerprinting(n, false))
    ensures !KeepsPromise(w)
  {
    hide Leads, KeepsPromise, Fingerprinting, AllElm;
    FingerprintingLength(n, false);
    MovesThroughSwitch(w, u, true);
    var u1 := u.(pandad := Pandad(WriteChanged, true, true, false, Fingerprinting(n, true)));
    Moves(w, u1, CardMoves);
    var u2 := u1.(card := AwaitChanged(false), enabled := false);
    Moves(w, u2, READY);
    var u3 := u2.(changed := true, pandad := u2.pandad.(pc := ReadFirmware));
    NotTheOther(u3.pandad, n);
    Breaks(w, u3, false);
  }

  lemma FingerprintingLength(n: nat, q: bool)
    ensures |Fingerprinting(n, q)| == n
  {
  }

  lemma NotTheOther(p: Pandad, n: nat)
    requires n > 0 && p.pandas == Fingerprinting(n, true)
    ensures !AllElm(p, false)
  {
    assert p.pandas[0] == ElmFor(true, 0);
  }

  /** A firmware query left over: pandad goes on to the car's modes while the call has not returned. */
  lemma StaleFirmwareBreaks(changed: bool, prev: bool, pandas: seq<Mode>)
    requires pandas != []
    ensures !KeepsPromise(Fresh(false, changed, true, prev, pandas))
  {
    hide Leads, KeepsPromise, Fingerprinting, AllElm;
    var w, n := Fresh(false, changed, true, prev, pandas), |pandas|;
    Stays(w);
    Moves(w, w, Call(true));
    var u1 := w.(card := Compare(true));
    Moves(w, u1, CardMoves);
    var u2 := w.(card := RemoveChanged(true));
    Moves(w, u2, CardMoves);
    var u3 := w.(card := WriteEnabled(true), changed := false);
    Moves(w, u3, CardMoves);
    var u4 := w.(card := AwaitChanged(true), changed := false, enabled := true);
    Moves(w, u4, READY);
    var u5 := u4.(pandad := Pandad(InitPanda(0), false, false, false, pandas));
    MovesThroughInit(w, u5);
    var u6 := u4.(pandad := Pandad(ReadRequest, true, false, false, Fingerprinting(n, false)));
    Moves(w, u6, READY);
    FingerprintingLength(n, false);
    var u7 := u4.(pandad := Pandad(SwitchPanda(true, 0), true, false, false, Fingerprinting(n, false)));
    MovesThroughSwitch(w, u7, true);
    var u8 := u4.(pandad := Pandad(WriteChanged, true, true, false, Fingerprinting(n, true)));
    StaleFirmwareIsTaken(w, u8, n);
  }

  lemma StaleFirmwareIsTaken(w: World, u: World, n: nat)
    requires Leads(w, u) && n > 0 && u.card == AwaitChanged(true) && u.firmwareDone
    requires u.pandad == Pandad(WriteChanged, true, true, false, Fingerprinting(n, true))
    ensures !KeepsPromise(w)
  {
    hide Leads, KeepsPromise, Fingerprinting, AllElm;
    FingerprintingLength(n, true);
    Moves(w, u, READY);
    var u1 := u.(changed := true, pandad := u.pandad.(pc := ReadFirmware));
    Moves(w, u1, READY);
    var u2 := u1.(pandad := u.pandad.(pc := ReadReady));
    Moves(w, u2, READY);
    var u3 := u1.(pandad := u.pandad.(pc := ReadCarParams));
    Moves(w, u3, READY);
    var u4 := u1.(pandad := u.pandad.(pc := ConfigurePanda([], 0)));
    Moves(w, u4, READY);
    var u5 := Apply(u4, READY);
    SilentIsNotElm(u5.pandad);
    Breaks(w, u5, true);
  }

  lemma SilentIsNotElm(p: Pandad)
    requires p.pandas != [] && p.pandas[0] == Mode(Silent, 0)
    ensures !AllElm(p, true)
  {
  }

  /** For a pandad fresh from an offroad step, the promise is kept over every onroad session exactly if
      neither a request nor the end of a firmware query is left over; an old answer does no harm. */
  lemma PromiseKeptExactly(enabled: bool, changed: bool, firmwareDone: bool, prev: bool, pandas: seq<Mode>)
    requires pandas != []
    ensures KeepsPromise(Fresh(enabled, changed, firmwareDone, prev, pandas)) <==> !enabled && !firmwareDone
  {
    hide KeepsPromise;
    if enabled {
      StaleRequestBreaks(changed, firmwareDone, prev, pandas);
    } else if firmwareDone {
      StaleFirmwareBreaks(changed, prev, pandas);
    } else {
      ClearedKeepsPromise(changed, prev, pandas);
    }
  }

  lemma ClearedKeepsPromise(changed: bool, prev: bool, pandas: seq<Mode>)
    ensures KeepsPromise(Start(changed, prev, pandas))
  {
    hide After, AllElm;
    var w := Start(changed, prev, pandas);
    forall actions, x | AllOnroad(actions) && Returning(After(w, actions), x)
      ensures AllElm(After(w, actions).pandad, x)
    {
      CallReturnsSwitched(changed, prev, pandas, actions, x);
    }
  }

  class PandaSafety {
    const pandas: array<Mode>
    const experiences: array<(nat, nat)>    // alternative experience and sunnypilot parameter, per panda
    var initialized: bool
    var safetyConfigured: bool
    var prevObdMultiplexing: bool

    ghost function View(): Pandad
      reads this, pandas
    {
      Pandad(Loop, initialized, prevObdMultiplexing, safetyConfigured, pandas[..])
    }

    constructor (pandas: array<Mode>, experiences: array<(nat, nat)>)
      ensures this.pandas == pandas && this.experiences == experiences && !initialized && !safetyConfigured && !prevObdMultiplexing
    {
      this.pandas, this.experiences := pandas, experiences;
      initialized, safetyConfigured, prevObdMultiplexing := false, false, false;
    }

    /** `experience` is read from the car's parameters together with the modes. */
    method ConfigureSafetyMode(r: Reads, experience: (nat, nat)) returns (changed: bool)
      requires experiences.Length == pandas.Length
      modifies this, pandas, experiences
      ensures experiences[..] ==
        if r.onroad && !old(safetyConfigured) && r.firmwareDone && r.ready then seq(pandas.Length, _ => experience)
        else old(experiences[..])
      ensures View() == Configure(old(View()), r)
      ensures changed <==>
        r.onroad && !old(safetyConfigured) && r.requested != (old(initialized) && old(prevObdMultiplexing))
      ensures safetyConfigured <==> r.onroad && (old(safetyConfigured) || (r.firmwareDone && r.ready))
      ensures r.onroad && !old(safetyConfigured) && safetyConfigured ==> InModes(pandas[..], r.configs, pandas.Length)
      ensures changed && !safetyConfigured ==> InElm(pandas[..], r.requested, pandas.Length)
    {
      changed := false;
      if r.onroad && !safetyConfigured {
        changed := UpdateMultiplexingMode(r.requested);
        if r.firmwareDone && r.ready {
          SetSafetyMode(r.configs, experience);
          safetyConfigured := true;
        }
      } else if !r.onroad {
        initialized := false;
        safetyConfigured := false;
      }
    }

    method UpdateMultiplexingMode(requested: bool) returns (changed: bool)
      modifies this`initialized, this`prevObdMultiplexing, pandas
      ensures initialized && prevObdMultiplexing == requested
      ensures changed <==> requested != (old(initialized) && old(prevObdMultiplexing))
      ensures pandas[..] == if changed || !old(initialized) then Fingerprinting(pandas.Length, requested) else old(pandas[..])
      ensures changed || !old(initialized) ==> InElm(pandas[..], requested, pandas.Length)
    {
      if !initialized {
        prevObdMultiplexing := false;
        for i := 0 to pandas.Length
          modifies pandas
          invariant forall k :: 0 <= k < i ==> pandas[k] == ElmFor(false, k)
        {
          pandas[i] := Mode(Elm327, 1);
        }
        initialized := true;
      }
      changed := requested != prevObdMultiplexing;
      if changed {
        for i := 0 to pandas.Length
          modifies pandas
          invariant forall k :: 0 <= k < i ==> pandas[k] == ElmFor(requested, k)
        {
          pandas[i] := Mode(Elm327, if i > 0 || !requested then 1 else 0);
        }
        prevObdMultiplexing := requested;
      }
    }

    method SetSafetyMode(configs: seq<Mode>, experience: (nat, nat))
      requires experiences.Length == pandas.Length
      modifies pandas, experiences
      ensures forall i :: 0 <= i < pandas.Length ==> pandas[i] == Configured(configs, i)
      ensures InModes(pandas[..], configs, pandas.Length)
      ensures experiences[..] == seq(pandas.Length, _ => experience)
    {
      for i := 0 to pandas.Length
        invariant forall k :: 0 <= k < i ==> pandas[k] == Configured(configs, k)
        invariant forall k :: 0 <= k < i ==> experiences[k] == experience
      {
        var mode := Mode(Silent, 0);
        if i < |configs| {
          mode := configs[i];
        }
        experiences[i] := experience;
        pandas[i] := mode;
      }
    }
  }
}
