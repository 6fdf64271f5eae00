/**
 Writing parameters without blocking (common/params.cc, `putNonBlocking` and `asyncWriteThread`, over
 the queue of common/queue.h): one thread pushes, and a thread started on demand drains the queue.
 The steps of the two interleave freely.
 */
module ParamQueue {
  import opened Options

  /** A queue behind a lock; each method is one atomic step. What was pushed and what was popped so far
      are kept beside it. */
  class SafeQueue<T> {
    var q: seq<T>
    ghost var pushed: seq<T>
    ghost var popped: seq<T>

    /** First in, first out: everything pushed has been popped, in order, or waits in order. */
    ghost predicate Valid()
      reads this
    {
      pushed == popped + q
    }

    constructor ()
      ensures Valid() && pushed == [] && popped == []
    {
      q, pushed, popped := [], [], [];
    }

    method Push(v: T)
      requires Valid()
      modifies this
      ensures Valid() && pushed == old(pushed) + [v] && popped == old(popped)
    {
      q := q + [v];
      pushed := pushed + [v];
      assert pushed == popped + q;
    }

    /** Waits until there is something: it proceeds only then. */
    method Pop() returns (v: T)
      requires Valid() && popped != pushed
      modifies this
      ensures Valid() && pushed == old(pushed) && popped == old(popped) + [v]
    {
      v := q[0];
      q := q[1..];
      popped := popped + [v];
    }

    /** Pops what was pushed longest ago, or reports that everything pushed has been popped. */
    method TryPop() returns (v: Option<T>)
      requires Valid()
      modifies this
      ensures Valid() && pushed == old(pushed)
      ensures if old(popped) == pushed then v == None && popped == pushed
              else v.Some? && popped == old(popped) + [v.value]
    {
      if q == [] {
        return None;
      }
      v := Some(q[0]);
      q := q[1..];
      popped := popped + [v.value];
    }
  }

  type Entry = (string, string)

  /** Where a writer thread is: about to pop, writing what it popped, past its last pop, or done. */
  datatype Writer = Popping | Putting(entry: Entry) | Leaving | Done

  /** `future` is the last thread started, if any; `checking` means the pushing thread has pushed and
      not yet looked at it. `attempted` is what was handed to `put`, in order. */
  datatype State = State(
    pushed: seq<Entry>, queue: seq<Entry>, attempted: seq<Entry>, threads: seq<Writer>, checking: bool)

  const START := State([], [], [], [], false)

  datatype Action = Push(entry: Entry) | Check | Work(thread: nat)

  function Worked(s: State, t: nat): State
    requires t < |s.threads|
  {
    match s.threads[t]
    case Popping =>
      if s.queue == [] then s.(threads := s.threads[t := Leaving])
      else s.(threads := s.threads[t := Putting(s.queue[0])], queue := s.queue[1..])
    case Putting(e) => s.(threads := s.threads[t := Popping], attempted := s.attempted + [e])
    case Leaving => s.(threads := s.threads[t := Done])
    case Done => s
  }

  function Apply(s: State, a: Action): State {
    match a
    case Push(e) => if s.checking then s else s.(pushed := s.pushed + [e], queue := s.queue + [e], checking := true)
    case Check =>
      if !s.checking then s
      else if s.threads == [] || s.threads[|s.threads| - 1] == Done then
        s.(checking := false, threads := s.threads + [Popping])
      else s.(checking := false)
    case Work(t) => if t < |s.threads| then Worked(s, t) else s
  }

  function After(actions: seq<Action>): State {
    if actions == [] then START else Apply(After(actions[..|actions| - 1]), actions[|actions| - 1])
  }

  // ---------- the object ----------

  lemma SameRest(before: seq<Entry>, x: seq<Entry>, y: seq<Entry>)
    requires before + x == before + y
    ensures x == y
  {
    assert x == (before + x)[|before|..];
    assert y == (before + y)[|before|..];
  }

  /** The pushing side of Params and the threads it starts; each method is one atomic step. */
  class NonBlockingParams {
    const queue: SafeQueue<Entry>
    var threads: seq<Writer>
    var checking: bool
    var attempted: seq<Entry>

    ghost function View(): State
      reads this, queue
    {
      State(queue.pushed, queue.q, attempted, threads, checking)
    }

    ghost predicate Valid()
      reads this, queue
    {
      queue.Valid()
    }

    constructor ()
      ensures Valid() && View() == START && fresh(queue)
    {
      queue := new SafeQueue<Entry>();
      threads, checking, attempted := [], false, [];
    }

    /** The first half of putNonBlocking. */
    method PushEntry(e: Entry)
      requires Valid() && !checking
      modifies this`checking, queue
      ensures Valid() && View() == Apply(old(View()), Push(e))
    {
      ghost var q := queue.q;
      queue.Push(e);
      SameRest(queue.popped, queue.q, q + [e]);
      checking := true;
    }

    /** The second half: a thread is started when there is none, or the last one is done. */
    method StartOnDemand()
      requires Valid() && checking
      modifies this`checking, this`threads
      ensures Valid() && View() == Apply(old(View()), Check)
    {
      if threads == [] || threads[|threads| - 1] == Done {
        threads := threads + [Popping];
      }
      checking := false;
    }

    /** One step of the loop of asyncWriteThread. */
    method WriterStep(t: nat)
      requires Valid() && t < |threads|
      modifies this`threads, this`attempted, queue
      ensures Valid() && View() == Apply(old(View()), Work(t))
    {
      match threads[t] {
        case Popping =>
          ghost var q, popped := queue.q, queue.popped;
          var p := queue.TryPop();
          if p == None {
            SameRest(popped, q, []);
          } else {
            SameRest(popped, q, [p.value] + queue.q);
          }
          threads := threads[t := if p == None then Leaving else Putting(p.value)];
        case Putting(e) =>
          attempted := attempted + [e];
          threads := threads[t := Popping];
        case Leaving =>
          threads := threads[t := Done];
        case Done =>
      }
    }
  }

  // ---------- order and conservation ----------

  /** What has been popped and not yet handed to `put`. */
  function InHand(threads: seq<Writer>): seq<Entry> {
    if threads != [] && threads[|threads| - 1].Putting? then [threads[|threads| - 1].entry] else []
  }

  /** All threads but the last are done. */
  predicate OneWriter(threads: seq<Writer>) {
    forall t :: 0 <= t < |threads| - 1 ==> threads[t] == Done
  }

  predicate Inv(s: State) {
    OneWriter(s.threads) && s.pushed == s.attempted + InHand(s.threads) + s.queue
  }

  lemma StepKeepsInv(s: State, a: Action)
    requires Inv(s)
    ensures Inv(Apply(s, a))
  {
    var v := Apply(s, a);
    match a {
      case Push(e) =>
        assert s.attempted + InHand(s.threads) + (s.queue + [e]) == s.attempted + InHand(s.threads) + s.queue + [e];
      case Check =>
      case Work(t) =>
        if t < |s.threads| && s.threads[t] != Done {
          assert t == |s.threads| - 1;
          if s.threads[t] == Popping && s.queue != [] {
            assert s.queue == [s.queue[0]] + s.queue[1..];
          }
        }
    }
  }

  /** In every interleaving there is at most one writer, and everything pushed has been attempted, is
      in its hand or is still queued, in the order of the pushes. */
  lemma {:induction false} NothingLostOrReordered(actions: seq<Action>)
    ensures Inv(After(actions))
  {
    hide Inv, Apply;
    if actions == [] {
      StartInv();
    } else {
      NothingLostOrReordered(actions[..|actions| - 1]);
      StepKeepsInv(After(actions[..|actions| - 1]), actions[|actions| - 1]);
    }
  }

  lemma StartInv()
    ensures Inv(START)
  {
  }

  // ---------- what the store holds in the end ----------

  /** The store after puts that all succeed. */
  function Stored(entries: seq<Entry>): map<string, string> {
    if entries == [] then map[]
    else Stored(entries[..|entries| - 1])[entries[|entries| - 1].0 := entries[|entries| - 1].1]
  }

  predicate IsLastFor(entries: seq<Entry>, k: nat) {
    k < |entries| && forall j :: k < j < |entries| ==> entries[j].0 != entries[k].0
  }

  lemma {:induction false} StoredIsLast(entries: seq<Entry>, k: nat)
    requires IsLastFor(entries, k)
    ensures entries[k].0 in Stored(entries) && Stored(entries)[entries[k].0] == entries[k].1
  {
    if k < |entries| - 1 {
      assert entries[|entries| - 1].0 != entries[k].0;
      StoredIsLast(entries[..|entries| - 1], k);
    }
  }

  /** Once the queue is empty and no entry is in hand, the puts attempted are those pushed: if they
      all succeed each key holds the value pushed last for it. */
  lemma DrainedHoldsLastPushed(actions: seq<Action>, k: nat)
    requires var s := After(actions); s.queue == [] && InHand(s.threads) == [] && IsLastFor(s.pushed, k)
    ensures var s := After(actions);
            var (key, value) := s.pushed[k];
            s.attempted == s.pushed && key in Stored(s.attempted) && Stored(s.attempted)[key] == value
  {
    hide After;
    NothingLostOrReordered(actions);
    StoredIsLast(After(actions).pushed, k);
  }

  // ---------- when a push is left behind ----------

  /** Nothing will move any more unless something is pushed. */
  predicate Stalled(s: State) {
    !s.checking && forall t :: 0 <= t < |s.threads| ==> s.threads[t] == Done
  }

  /** The newest thread has made its last pop and is not done. */
  predicate LastLeaving(threads: seq<Writer>) {
    threads != [] && threads[|threads| - 1] == Leaving
  }

  predicate LastWorking(threads: seq<Writer>) {
    threads != [] && (threads[|threads| - 1] == Popping || threads[|threads| - 1].Putting?)
  }

  /** The last check that took effect found the newest thread leaving, with something in the queue. */
  predicate Missed(actions: seq<Action>) {
    actions != []
    && var s := After(actions[..|actions| - 1]);
       if actions[|actions| - 1] == Check && s.checking then LastLeaving(s.threads) && s.queue != []
       else Missed(actions[..|actions| - 1])
  }

  predicate Draining(s: State, missed: bool) {
    s.checking
    || if missed then s.queue != [] && s.threads != [] && !LastWorking(s.threads)
       else s.queue == [] || LastWorking(s.threads)
  }

  lemma StepKeepsDraining(s: State, a: Action, missed: bool)
    requires Inv(s) && Draining(s, missed)
    ensures Draining(Apply(s, a), if a == Check && s.checking then LastLeaving(s.threads) && s.queue != [] else missed)
  {
  }

  lemma {:induction false} EveryRunDrains(actions: seq<Action>)
    ensures Draining(After(actions), Missed(actions))
  {
    hide Inv, Apply, Draining;
    if actions == [] {
      StartDrains();
    } else {
      var rest := actions[..|actions| - 1];
      EveryRunDrains(rest);
      NothingLostOrReordered(rest);
      StepKeepsDraining(After(rest), actions[|actions| - 1], Missed(rest));
    }
  }

  lemma StartDrains()
    ensures Draining(START, false)
  {
  }

  /** When nothing moves any more, the queue has been drained exactly if the last check was not missed:
      it did not fall between the last pop of the running thread and its end. */
  lemma DrainedUnlessMissed(actions: seq<Action>)
    requires Stalled(After(actions))
    ensures After(actions).queue == [] <==> !Missed(actions)
  {
    hide After, Missed;
    EveryRunDrains(actions);
  }

  /** Until then a working thread gets on: every step of its own brings the end closer. */
  function Remaining(s: State): nat {
    if !LastWorking(s.threads) then 0
    else 3 * |s.queue| + if s.threads[|s.threads| - 1] == Popping then 1 else 2
  }

  lemma WorkGetsOn(s: State)
    requires LastWorking(s.threads)
    ensures Remaining(Apply(s, Work(|s.threads| - 1))) < Remaining(s)
  {
  }

  // ---------- the destructor ----------

  predicate OnlyWork(actions: seq<Action>) {
    forall k :: 0 <= k < |actions| ==> actions[k].Work?
  }

  /** The future is ready: the newest thread, if there is one, is done. */
  predicate Ready(s: State) {
    s.threads == [] || s.threads[|s.threads| - 1] == Done
  }

  lemma {:induction false} WorkMissesNothing(before: seq<Action>, waiting: seq<Action>)
    requires OnlyWork(waiting) && !After(before).checking
    ensures Missed(before + waiting) == Missed(before) && !After(before + waiting).checking
  {
    hide Missed, After;
    if waiting == [] {
      assert before + waiting == before;
    } else {
      var k := |waiting| - 1;
      assert (before + waiting)[..|before + waiting| - 1] == before + waiting[..k];
      assert waiting[k].Work?;
      WorkMissesNothing(before, waiting[..k]);
      LastAction(before + waiting[..k], waiting[k]);
      assert before + waiting == before + waiting[..k] + [waiting[k]];
      WorkChecksNothing(After(before + waiting[..k]), waiting[k]);
    }
  }

  lemma LastAction(actions: seq<Action>, a: Action)
    ensures After(actions + [a]) == Apply(After(actions), a)
    ensures a.Work? ==> Missed(actions + [a]) == Missed(actions)
  {
    assert (actions + [a])[..|actions|] == actions;
  }

  lemma WorkChecksNothing(s: State, a: Action)
    requires a.Work? && !s.checking
    ensures !Apply(s, a).checking
  {
  }

  /** The destructor lets the threads work until the future is ready and then asserts that the queue is
      empty: the assertion holds if and only if the last check was not missed. */
  lemma DestructorAssertion(actions: seq<Action>, waiting: seq<Action>)
    requires !After(actions).checking && OnlyWork(waiting) && Ready(After(actions + waiting))
    ensures After(actions + waiting).queue == [] <==> !Missed(actions)
  {
    hide After, Missed, Inv;
    WorkMissesNothing(actions, waiting);
    NothingLostOrReordered(actions + waiting);
    AllDone(After(actions + waiting));
    DrainedUnlessMissed(actions + waiting);
  }

  lemma AllDone(s: State)
    requires Inv(s) && Ready(s) && !s.checking
    ensures Stalled(s)
  {
  }

  /** And the wait ends: the newest thread gets there by working alone. */
  lemma {:induction false} FutureGetsReady(actions: seq<Action>)
    requires !After(actions).checking
    ensures exists waiting :: OnlyWork(waiting) && Ready(After(actions + waiting))
    decreases StepsToDone(After(actions))
  {
    hide After;
    var s := After(actions);
    if Ready(s) {
      assert actions + [] == actions && OnlyWork([]);
    } else {
      var a := Work(|s.threads| - 1);
      LastAction(actions, a);
      WorkChecksNothing(s, a);
      WorkBringsDone(s);
      FutureGetsReady(actions + [a]);
      var later :| OnlyWork(later) && Ready(After(actions + [a] + later));
      assert actions + [a] + later == actions + ([a] + later);
      assert OnlyWork([a] + later);
    }
  }

  function StepsToDone(s: State): nat {
    if Ready(s) then 0
    else if s.threads[|s.threads| - 1] == Leaving then 1
    else Remaining(s) + 1
  }

  lemma WorkBringsDone(s: State)
    requires !Ready(s)
    ensures StepsToDone(Apply(s, Work(|s.threads| - 1))) < StepsToDone(s)
  {
  }

  /** The push lands after the writer's last pop, and its check before the writer is done. */
  const LATE: seq<Action> :=
    [Push(FIRST), Check, Work(0), Work(0), Work(0), Push(SECOND), Check, Work(0)]

  lemma NextOf(k: nat)
    requires k < |LATE|
    ensures After(LATE[..k + 1]) == Apply(After(LATE[..k]), LATE[k])
  {
    assert LATE[..k + 1][..k] == LATE[..k];
  }

  const FIRST: Entry := ("a", "1")
  const SECOND: Entry := ("b", "2")

  /** Such a run: a push stays in the queue with no writer to take it. */
  lemma LatePushIsLeftBehind()
    ensures Stalled(After(LATE)) && After(LATE).queue == [SECOND] && Missed(LATE)
  {
    hide After, Missed;
    LateBegins();
    NextOf(3);
    NextOf(4);
    NextOf(5);
    NextOf(6);
    NextOf(7);
    assert LATE[..8] == LATE;
    DrainedUnlessMissed(LATE);
  }

  lemma LateBegins()
    ensures After(LATE[..3]) == State([FIRST], [], [], [Putting(FIRST)], false)
  {
    assert LATE[..0] == [];
    NextOf(0);
    NextOf(1);
    NextOf(2);
  }
}
