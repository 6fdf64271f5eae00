/**
 The parameter store (common/params.cc, `put` and `remove`): every parameter is a file, replaced by
 writing a temporary file, flushing it, renaming it over the old one and flushing the directory. Any
 number of calls interleave, one system call at a time, any call may fail, and the machine may lose
 power at any moment. What is proved does not rest on the lock file.
 */
module ParamStore {
  import opened Options

  type Key = string
  type Value = string

  datatype Job = Put(key: Key, value: Value) | Remove(key: Key)

  /** A change to the parameter directory: a file takes a key's name, or the name goes. The temporary
      file of a call has the call's number. */
  datatype Change = Rename(key: Key, file: nat) | Unlink(key: Key)

  /** The changes in order, of which the first `durable` are known to be on disk; what was written to
      each file, which files are flushed, and which still have their temporary name. */
  datatype Disk = Disk(
    changes: seq<Change>, durable: nat, data: map<nat, Value>, flushed: set<nat>, temps: set<nat>)

  /** Which system call comes next. */
  datatype Pc =
    | MakeTemp
    | WriteTemp
    | FlushTemp
    | RenameTemp
    | UnlinkFile
    | FlushDir
    | CleanUp(result: int)
    | Returned(result: int)

  /** A call; `at` counts the changes up to and with its own, and is zero before that. */
  datatype Caller = Caller(job: Job, pc: Pc, at: nat)

  datatype World = World(disk: Disk, callers: seq<Caller>)

  /** A new call, or the next system call of an old one with the number it gives back. */
  datatype Action = Call(job: Job) | Next(who: nat, code: int)

  function ChangeOf(job: Job, who: nat): Change {
    match job
    case Put(key, _) => Rename(key, who)
    case Remove(key) => Unlink(key)
  }

  function Changed(d: Disk, c: Change): Disk {
    d.(changes := d.changes + [c])
  }

  /** A system call other than `write` gives back 0 or more, or -1. */
  function Stepped(d: Disk, c: Caller, who: nat, code: int): (Disk, Caller) {
    match c.pc
    case MakeTemp =>
      if code < 0 then (d, c.(pc := Returned(-1)))
      else (d.(data := d.data[who := ""], temps := d.temps + {who}), c.(pc := WriteTemp))
    case WriteTemp =>
      var value := if c.job.Put? then c.job.value else "";
      if 0 <= code < |value| then (d.(data := d.data[who := value[..code]]), c.(pc := CleanUp(-20)))
      else if code != |value| then (d, c.(pc := CleanUp(-20)))
      else (d.(data := d.data[who := value]), c.(pc := FlushTemp))
    case FlushTemp =>
      if code < 0 then (d, c.(pc := CleanUp(-1))) else (d.(flushed := d.flushed + {who}), c.(pc := RenameTemp))
    case RenameTemp =>
      if code < 0 then (d, c.(pc := CleanUp(-1)))
      else
        (Changed(d, ChangeOf(c.job, who)).(temps := d.temps - {who}), c.(pc := FlushDir, at := |d.changes| + 1))
    case UnlinkFile =>
      if code != 0 then (d, c.(pc := Returned(-1)))
      else (Changed(d, ChangeOf(c.job, who)), c.(pc := FlushDir, at := |d.changes| + 1))
    case FlushDir =>
      if code == 0 then (d.(durable := |d.changes|), c.(pc := CleanUp(0))) else (d, c.(pc := CleanUp(-1)))
    case CleanUp(result) =>
      (if result != 0 then d.(temps := d.temps - {who}) else d, c.(pc := Returned(result)))
    case Returned(_) => (d, c)
  }

  function Apply(w: World, a: Action): World {
    match a
    case Call(job) => w.(callers := w.callers + [Caller(job, if job.Put? then MakeTemp else UnlinkFile, 0)])
    case Next(who, code) =>
      if who < |w.callers| then
        var (d, c) := Stepped(w.disk, w.callers[who], who, code);
        World(d, w.callers[who := c])
      else w
  }

  const EMPTY := World(Disk([], 0, map[], {}, {}), [])

  function After(actions: seq<Action>): World {
    if actions == [] then EMPTY else Apply(After(actions[..|actions| - 1]), actions[|actions| - 1])
  }

  // ---------- what can be read ----------

  /** What is left of the changes, by their places: all those on disk, and any of the others. */
  predicate Keeps(d: Disk, kept: set<nat>) {
    forall k :: 0 <= k < d.durable ==> k in kept
  }

  /** The last of the first n changes that is kept and concerns a key, counted from one; zero if there
      is none. */
  function LastOn(changes: seq<Change>, n: nat, kept: set<nat>, key: Key): (at: nat)
    requires n <= |changes|
    ensures at <= n
    ensures at > 0 ==> changes[at - 1].key == key && at - 1 in kept
    ensures forall k :: at <= k < n && k in kept ==> changes[k].key != key
  {
    if n == 0 then 0 else if n - 1 in kept && changes[n - 1].key == key then n else LastOn(changes, n - 1, kept, key)
  }

  /** What a reader finds when the kept changes have happened: after a loss of power the content of a
      file that was not flushed can be anything. */
  function ReadBack(d: Disk, kept: set<nat>, key: Key, junk: Value): Option<Value> {
    var at := LastOn(d.changes, |d.changes|, kept, key);
    if at == 0 || d.changes[at - 1].Unlink? then None
    else
      var file := d.changes[at - 1].file;
      Some(if file in d.flushed && file in d.data then d.data[file] else junk)
  }

  /** What the store should hold: the whole value of the last job on the key that is kept. */
  function Meant(w: World, kept: set<nat>, key: Key): Option<Value>
    requires Inv(w)
  {
    var at := LastOn(w.disk.changes, |w.disk.changes|, kept, key);
    if at == 0 || w.disk.changes[at - 1].Unlink? then None
    else
      var c := w.disk.changes[at - 1];
      assert Done(w, c);
      Some(w.callers[c.file].job.value)
  }

  // ---------- the invariant ----------

  predicate Whole(d: Disk, c: Caller, who: nat) {
    c.job.Put? && who in d.data && d.data[who] == c.job.value && who in d.flushed
  }

  predicate Done(w: World, c: Change) {
    c.Rename? ==>
      c.file < |w.callers| && Whole(w.disk, w.callers[c.file], c.file)
      && w.callers[c.file].job.key == c.key && w.callers[c.file].at > 0
  }

  predicate CallerInv(d: Disk, c: Caller, who: nat) {
    (c.pc == MakeTemp || c.pc == WriteTemp || c.pc == FlushTemp || c.pc == RenameTemp ==> c.job.Put? && c.at == 0)
    && (c.pc == UnlinkFile ==> c.job.Remove? && c.at == 0)
    && (c.pc == FlushTemp ==> who in d.data && d.data[who] == c.job.value)
    && (c.pc == RenameTemp ==> Whole(d, c, who))
    && (c.pc == FlushDir ==> c.at > 0)
    && (c.at > 0 ==> c.at <= |d.changes| && d.changes[c.at - 1] == ChangeOf(c.job, who))
    && (c.pc == CleanUp(0) || c.pc == Returned(0) ==> 0 < c.at <= d.durable)
    && (c.pc == CleanUp(-20) || c.pc == Returned(-20) ==> c.at == 0)
    && (c.pc.CleanUp? ==> c.pc.result == 0 || c.pc.result == -1 || c.pc.result == -20)
    && (c.pc.Returned? ==> c.pc.result == 0 || c.pc.result == -1 || c.pc.result == -20)
    && (c.pc == MakeTemp || c.pc == UnlinkFile || c.pc == FlushDir || c.pc == CleanUp(0) || c.pc.Returned? ==>
          who !in d.temps)
  }

  ghost predicate Inv(w: World) {
    w.disk.durable <= |w.disk.changes|
    && (forall k :: 0 <= k < |w.disk.changes| ==> Done(w, w.disk.changes[k]))
    && (forall who :: 0 <= who < |w.callers| ==> CallerInv(w.disk, w.callers[who], who))
    && (forall f :: f in w.disk.temps ==> f < |w.callers|)
  }

  /** A system call changes only its own file, and only before its change is in the directory. */
  predicate TouchesOwn(d: Disk, e: Disk, who: nat, at: nat) {
    (forall f :: f != who && f in d.data ==> f in e.data && e.data[f] == d.data[f])
    && d.flushed <= e.flushed && e.temps - {who} == d.temps - {who}
    && (at > 0 ==> (who in d.data ==> who in e.data && e.data[who] == d.data[who]))
    && d.durable <= e.durable && |d.changes| <= |e.changes| <= |d.changes| + 1
    && d.changes == e.changes[..|d.changes|]
  }

  lemma StepTouchesOwn(d: Disk, c: Caller, who: nat, code: int)
    requires CallerInv(d, c, who) && d.durable <= |d.changes|
    ensures var (e, n) := Stepped(d, c, who, code);
            TouchesOwn(d, e, who, c.at) && e.durable <= |e.changes| && n.job == c.job && c.at <= n.at
  {
  }

  lemma StepKeepsCaller(d: Disk, c: Caller, who: nat, code: int)
    requires CallerInv(d, c, who) && d.durable <= |d.changes|
    ensures var (e, n) := Stepped(d, c, who, code); CallerInv(e, n, who)
    ensures var (e, n) := Stepped(d, c, who, code);
            |e.changes| > |d.changes| ==>
              e.changes == d.changes + [ChangeOf(c.job, who)] && n.at == |e.changes|
              && (c.job.Put? ==> Whole(e, n, who))
  {
  }

  lemma OthersKeepTheirs(d: Disk, e: Disk, who: nat, at: nat, c: Caller, other: nat)
    requires TouchesOwn(d, e, who, at) && other != who && CallerInv(d, c, other)
    ensures CallerInv(e, c, other)
  {
    assert other in e.temps <==> other in e.temps - {who};
    assert other in d.temps <==> other in d.temps - {who};
  }

  lemma StepKeepsDone(w: World, who: nat, code: int, k: nat)
    requires Inv(w) && who < |w.callers| && k < |w.disk.changes|
    ensures Done(Apply(w, Next(who, code)), w.disk.changes[k])
  {
    hide Stepped;
    assert CallerInv(w.disk, w.callers[who], who);
    assert Done(w, w.disk.changes[k]);
    StepTouchesOwn(w.disk, w.callers[who], who, code);
  }

  lemma NextKeepsInv(w: World, who: nat, code: int)
    requires Inv(w)
    ensures Inv(Apply(w, Next(who, code)))
  {
    if who < |w.callers| {
      hide Stepped, CallerInv, TouchesOwn, Done;
      var v := Apply(w, Next(who, code));
      var c := w.callers[who];
      assert CallerInv(w.disk, c, who);
      StepTouchesOwn(w.disk, c, who, code);
      StepKeepsCaller(w.disk, c, who, code);
      GrowsByOne(w.disk, v.disk, who, c.at);
      forall k | 0 <= k < |v.disk.changes|
        ensures Done(v, v.disk.changes[k])
      {
        if k < |w.disk.changes| {
          StepKeepsDone(w, who, code, k);
        } else {
          NewIsDone(v, who, v.disk.changes[k]);
        }
      }
      forall other | 0 <= other < |v.callers|
        ensures CallerInv(v.disk, v.callers[other], other)
      {
        if other != who {
          OthersKeepTheirs(w.disk, v.disk, who, c.at, w.callers[other], other);
        }
      }
    }
  }

  lemma GrowsByOne(d: Disk, e: Disk, who: nat, at: nat)
    requires TouchesOwn(d, e, who, at)
    ensures d.changes == e.changes[..|d.changes|] && |e.changes| <= |d.changes| + 1
    ensures forall k :: 0 <= k < |d.changes| ==> e.changes[k] == d.changes[k]
  {
  }

  lemma NewIsDone(w: World, who: nat, c: Change)
    requires who < |w.callers| && c == ChangeOf(w.callers[who].job, who) && w.callers[who].at > 0
    requires w.callers[who].job.Put? ==> Whole(w.disk, w.callers[who], who)
    ensures Done(w, c)
  {
  }

  lemma CallKeepsInv(w: World, job: Job)
    requires Inv(w)
    ensures Inv(Apply(w, Call(job)))
  {
    var v := Apply(w, Call(job));
    forall k | 0 <= k < |v.disk.changes|
      ensures Done(v, v.disk.changes[k])
    {
      assert Done(w, w.disk.changes[k]);
    }
    forall other | 0 <= other < |v.callers|
      ensures CallerInv(v.disk, v.callers[other], other)
    {
      if other < |w.callers| {
        assert CallerInv(w.disk, w.callers[other], other);
      }
    }
  }

  lemma {:induction false} EveryRunKeepsInv(actions: seq<Action>)
    ensures Inv(After(actions))
  {
    hide Inv, Apply;
    if actions == [] {
      EmptyInv();
    } else {
      EveryRunKeepsInv(actions[..|actions| - 1]);
      match actions[|actions| - 1] {
        case Call(job) => CallKeepsInv(After(actions[..|actions| - 1]), job);
        case Next(who, code) => NextKeepsInv(After(actions[..|actions| - 1]), who, code);
      }
    }
  }

  lemma EmptyInv()
    ensures Inv(EMPTY)
  {
  }

  // ---------- what the store promises ----------

  /** After any run, cut off anywhere, with any of the unflushed changes lost: a key reads as the whole
      value of the last put among the changes that remain, or as absent. */
  lemma AlwaysWhole(actions: seq<Action>, kept: set<nat>, key: Key, junk: Value)
    requires Keeps(After(actions).disk, kept)
    ensures Inv(After(actions)) && ReadBack(After(actions).disk, kept, key, junk) == Meant(After(actions), kept, key)
  {
    EveryRunKeepsInv(actions);
    hide After, CallerInv;
    var w := After(actions);
    var at := LastOn(w.disk.changes, |w.disk.changes|, kept, key);
    if at > 0 {
      assert Done(w, w.disk.changes[at - 1]);
    }
  }

  lemma LastOnPrefix(changes: seq<Change>, more: seq<Change>, n: nat, kept: set<nat>, key: Key)
    requires n <= |changes| <= |more| && more[..|changes|] == changes
    ensures LastOn(more, n, kept, key) == LastOn(changes, n, kept, key)
  {
    if n > 0 {
      assert more[n - 1] == changes[n - 1];
      LastOnPrefix(changes, more, n - 1, kept, key);
    }
  }

  /** One system call moves what a key can read as from the old value to the new one, with nothing in
      between: what can be found after it, whichever changes are kept, could be found before with the
      same changes kept, or is what this job means. */
  lemma OldOrNew(w: World, who: nat, code: int, kept: set<nat>, key: Key, junk: Value)
    requires Inv(w) && who < |w.callers| && Keeps(Apply(w, Next(who, code)).disk, kept)
    ensures var v := Apply(w, Next(who, code));
            var job := w.callers[who].job;
            Keeps(w.disk, kept)
            && (ReadBack(v.disk, kept, key, junk) == ReadBack(w.disk, kept, key, junk)
                || (|v.disk.changes| == |w.disk.changes| + 1 && |w.disk.changes| in kept && job.key == key
                    && ReadBack(v.disk, kept, key, junk) == if job.Put? then Some(job.value) else None))
  {
    var v := Apply(w, Next(who, code));
    hide Apply, Stepped, CallerInv, ReadBack, Inv;
    NextAppends(w, who, code);
    JobsStay(w, who, code);
    if |v.disk.changes| == |w.disk.changes| + 1 && |w.disk.changes| in kept && w.callers[who].job.key == key {
      NewReading(w, v, who, kept, key, junk);
    } else {
      SameReading(w, v, kept, key, junk);
    }
  }

  lemma NextAppends(w: World, who: nat, code: int)
    requires Inv(w) && who < |w.callers|
    ensures var v := Apply(w, Next(who, code));
            Inv(v) && w.disk.durable <= v.disk.durable
            && |w.disk.changes| <= |v.disk.changes| <= |w.disk.changes| + 1
            && v.disk.changes[..|w.disk.changes|] == w.disk.changes
            && (|v.disk.changes| > |w.disk.changes| ==>
                  v.disk.changes[|w.disk.changes|] == ChangeOf(w.callers[who].job, who)
                  && v.callers[who].job == w.callers[who].job)
  {
    NextKeepsInv(w, who, code);
    hide Stepped, TouchesOwn, CallerInv, Done;
    var c := w.callers[who];
    assert CallerInv(w.disk, c, who);
    StepTouchesOwn(w.disk, c, who, code);
    StepKeepsCaller(w.disk, c, who, code);
    OnlyGrows(w.disk, Stepped(w.disk, c, who, code).0, who, c.at);
  }

  lemma OnlyGrows(d: Disk, e: Disk, who: nat, at: nat)
    requires TouchesOwn(d, e, who, at)
    ensures d.durable <= e.durable && |d.changes| <= |e.changes| <= |d.changes| + 1
    ensures e.changes[..|d.changes|] == d.changes
  {
  }

  /** What a change holds: the file is flushed, and holds its put's value. */
  lemma DoneReads(w: World, k: nat)
    requires Inv(w) && k < |w.disk.changes| && w.disk.changes[k].Rename?
    ensures var file := w.disk.changes[k].file;
            file < |w.callers| && w.callers[file].job.Put? && file in w.disk.flushed && file in w.disk.data
            && w.disk.data[file] == w.callers[file].job.value
  {
    assert Done(w, w.disk.changes[k]);
  }

  lemma JobsStay(w: World, who: nat, code: int)
    requires Inv(w) && who < |w.callers|
    ensures var v := Apply(w, Next(who, code));
            |v.callers| == |w.callers| && forall f :: 0 <= f < |w.callers| ==> v.callers[f].job == w.callers[f].job
  {
    hide Stepped;
    assert CallerInv(w.disk, w.callers[who], who);
    StepTouchesOwn(w.disk, w.callers[who], who, code);
  }

  /** v comes after w: the same jobs, and perhaps one more change. */
  ghost predicate Comes(w: World, v: World) {
    Inv(w) && Inv(v) && |v.callers| == |w.callers| && |w.disk.changes| <= |v.disk.changes|
    && v.disk.changes[..|w.disk.changes|] == w.disk.changes
    && forall f :: 0 <= f < |w.callers| ==> v.callers[f].job == w.callers[f].job
  }

  lemma SameLast(w: World, v: World, kept: set<nat>, key: Key)
    requires Comes(w, v) && |v.disk.changes| <= |w.disk.changes| + 1
    requires |v.disk.changes| > |w.disk.changes| ==> |w.disk.changes| !in kept || v.disk.changes[|w.disk.changes|].key != key
    ensures LastOn(v.disk.changes, |v.disk.changes|, kept, key) == LastOn(w.disk.changes, |w.disk.changes|, kept, key)
  {
    hide Inv;
    LastOnPrefix(w.disk.changes, v.disk.changes, |w.disk.changes|, kept, key);
  }

  lemma SameReading(w: World, v: World, kept: set<nat>, key: Key, junk: Value)
    requires Comes(w, v) && |v.disk.changes| <= |w.disk.changes| + 1
    requires |v.disk.changes| > |w.disk.changes| ==> |w.disk.changes| !in kept || v.disk.changes[|w.disk.changes|].key != key
    ensures ReadBack(v.disk, kept, key, junk) == ReadBack(w.disk, kept, key, junk)
  {
    hide Inv;
    SameLast(w, v, kept, key);
    var at := LastOn(w.disk.changes, |w.disk.changes|, kept, key);
    if at > 0 {
      assert v.disk.changes[at - 1] == w.disk.changes[at - 1];
      if w.disk.changes[at - 1].Rename? {
        DoneReads(w, at - 1);
        DoneReads(v, at - 1);
      }
    }
  }

  lemma NewReading(w: World, v: World, who: nat, kept: set<nat>, key: Key, junk: Value)
    requires Comes(w, v) && who < |w.callers| && |v.disk.changes| == |w.disk.changes| + 1
    requires v.disk.changes[|w.disk.changes|] == ChangeOf(w.callers[who].job, who)
    requires |w.disk.changes| in kept && w.callers[who].job.key == key
    ensures ReadBack(v.disk, kept, key, junk) == if w.callers[who].job.Put? then Some(w.callers[who].job.value) else None
  {
    hide Inv;
    var n := |w.disk.changes|;
    if w.callers[who].job.Put? {
      DoneReads(v, n);
    }
  }

  // ---------- what the result of a call means ----------

  /** When a call has returned 0 its change is on disk: after any loss of power the key reads as what
      this call meant, or as a later change on the same key left it. */
  lemma SuccessIsDurable(actions: seq<Action>, who: nat, kept: set<nat>)
    requires var w := After(actions);
             who < |w.callers| && w.callers[who].pc == Returned(0) && Keeps(w.disk, kept)
    ensures var w := After(actions);
            var c := w.callers[who];
            0 < c.at <= |w.disk.changes| && w.disk.changes[c.at - 1] == ChangeOf(c.job, who)
            && LastOn(w.disk.changes, |w.disk.changes|, kept, c.job.key) >= c.at
  {
    EveryRunKeepsInv(actions);
    hide After, Done;
    var w := After(actions);
    assert CallerInv(w.disk, w.callers[who], who);
  }

  /** A put returns 0, -1 or -20, and leaves no temporary file. With -20 it has changed no key. */
  lemma FailedWriteChangesNothing(actions: seq<Action>, who: nat)
    requires var w := After(actions); who < |w.callers| && w.callers[who].job.Put? && w.callers[who].pc.Returned?
    ensures var w := After(actions);
            var result := w.callers[who].pc.result;
            (result == 0 || result == -1 || result == -20) && who !in w.disk.temps
            && (result == -20 ==>
                  forall k :: 0 <= k < |w.disk.changes| ==> w.disk.changes[k] != ChangeOf(w.callers[who].job, who))
  {
    EveryRunKeepsInv(actions);
    hide After, CallerInv;
    var w := After(actions);
    CallerResult(w, who);
    forall k | 0 <= k < |w.disk.changes| && w.callers[who].pc == Returned(-20)
      ensures w.disk.changes[k] != ChangeOf(w.callers[who].job, who)
    {
      assert Done(w, w.disk.changes[k]);
    }
  }

  lemma CallerResult(w: World, who: nat)
    requires Inv(w) && who < |w.callers| && w.callers[who].pc.Returned?
    ensures var c := w.callers[who];
            (c.pc.result == 0 || c.pc.result == -1 || c.pc.result == -20) && who !in w.disk.temps
            && (c.pc.result == -20 ==> c.at == 0)
  {
    assert CallerInv(w.disk, w.callers[who], who);
  }

  // ---------- what a call did, from its system calls ----------

  /** What each system call of one `put` or `remove` gives back. */
  datatype Codes = Codes(mkstemp: int, written: int, fsync: int, rename: int, unlink: int, fsyncDir: int)

  function CodeAt(codes: Codes, pc: Pc): int {
    match pc
    case MakeTemp => codes.mkstemp
    case WriteTemp => codes.written
    case FlushTemp => codes.fsync
    case RenameTemp => codes.rename
    case UnlinkFile => codes.unlink
    case _ => codes.fsyncDir
  }

  /** The directory takes the change of a put exactly when everything up to the rename succeeds, and that of
      a remove when the unlink does. */
  predicate ChangesKey(job: Job, codes: Codes) {
    match job
    case Put(_, value) =>
      codes.mkstemp >= 0 && codes.written == |value| && codes.fsync >= 0 && codes.rename >= 0
    case Remove(_) => codes.unlink == 0
  }

  predicate WriteFails(job: Job, codes: Codes) {
    job.Put? && codes.mkstemp >= 0 && codes.written != |job.value|
  }

  /** Which of the results of a call goes with which system calls. */
  predicate ResultFits(job: Job, codes: Codes, result: int) {
    (result == 0 || result == -1 || result == -20)
    && (result == 0 <==> ChangesKey(job, codes) && codes.fsyncDir == 0)
    && (result == -20 <==> WriteFails(job, codes))
  }

  function Gave(codes: Codes, pc: Pc, code: int): Codes {
    match pc
    case MakeTemp => codes.(mkstemp := code)
    case WriteTemp => codes.(written := code)
    case FlushTemp => codes.(fsync := code)
    case RenameTemp => codes.(rename := code)
    case UnlinkFile => codes.(unlink := code)
    case FlushDir => codes.(fsyncDir := code)
    case _ => codes
  }

  /** What the system calls of one caller gave back in a run. */
  function CodesIn(actions: seq<Action>, who: nat): Codes {
    if actions == [] then Codes(0, 0, 0, 0, 0, 0)
    else
      var rest, a := actions[..|actions| - 1], actions[|actions| - 1];
      var w := After(rest);
      if a.Next? && a.who == who && who < |w.callers| then Gave(CodesIn(rest, who), w.callers[who].pc, a.code)
      else CodesIn(rest, who)
  }

  predicate CodesInv(c: Caller, codes: Codes) {
    match c.pc
    case MakeTemp => c.job.Put? && c.at == 0
    case WriteTemp => c.job.Put? && c.at == 0 && codes.mkstemp >= 0
    case FlushTemp => c.job.Put? && c.at == 0 && codes.mkstemp >= 0 && codes.written == |c.job.value|
    case RenameTemp =>
      c.job.Put? && c.at == 0 && codes.mkstemp >= 0 && codes.written == |c.job.value| && codes.fsync >= 0
    case UnlinkFile => c.job.Remove? && c.at == 0
    case FlushDir => ChangesKey(c.job, codes) && c.at > 0
    case CleanUp(r) => ResultFits(c.job, codes, r) && (c.at > 0 <==> ChangesKey(c.job, codes))
    case Returned(r) => ResultFits(c.job, codes, r) && (c.at > 0 <==> ChangesKey(c.job, codes))
  }

  lemma StepKeepsCodes(d: Disk, c: Caller, who: nat, code: int, codes: Codes)
    requires CodesInv(c, codes)
    ensures CodesInv(Stepped(d, c, who, code).1, Gave(codes, c.pc, code))
  {
  }

  lemma {:induction false} EveryRunKeepsCodes(actions: seq<Action>, who: nat)
    requires who < |After(actions).callers|
    ensures CodesInv(After(actions).callers[who], CodesIn(actions, who))
  {
    hide Stepped, Gave, CodesInv;
    if actions == [] {
      NothingYet();
    } else {
      var rest, a := actions[..|actions| - 1], actions[|actions| - 1];
      var w := After(rest);
      if who < |w.callers| {
        EveryRunKeepsCodes(rest, who);
        if a.Next? && a.who == who {
          StepKeepsCodes(w.disk, w.callers[who], who, a.code, CodesIn(rest, who));
        }
      } else {
        NewCallFits(After(actions).callers[who], CodesIn(actions, who));
      }
    }
  }

  lemma NewCallFits(c: Caller, codes: Codes)
    requires c == Caller(c.job, if c.job.Put? then MakeTemp else UnlinkFile, 0)
    ensures CodesInv(c, codes)
  {
  }

  /** In every run, once a call has returned: its change is in the directory if and only if its system
      calls up to the rename, or the unlink, succeeded. So a put that fails has changed its key if and only
      if nothing but the directory could not be flushed, and then it returns -1. */
  lemma ChangedExactly(actions: seq<Action>, who: nat)
    requires var w := After(actions); who < |w.callers| && w.callers[who].pc.Returned?
    ensures var w := After(actions);
            var c, codes := w.callers[who], CodesIn(actions, who);
            ResultFits(c.job, codes, c.pc.result)
            && (c.at > 0 <==> ChangesKey(c.job, codes))
            && (c.at > 0 ==> c.at <= |w.disk.changes| && w.disk.changes[c.at - 1] == ChangeOf(c.job, who))
            && (c.job.Put? ==> (ChangeOf(c.job, who) in w.disk.changes <==> ChangesKey(c.job, codes)))
            && (ChangesKey(c.job, codes) && c.pc.result != 0 <==>
                  ChangesKey(c.job, codes) && codes.fsyncDir != 0 && c.pc.result == -1)
  {
    EveryRunKeepsInv(actions);
    EveryRunKeepsCodes(actions, who);
    hide *;
    ReturnedExactly(After(actions), who, CodesIn(actions, who));
  }

  lemma ReturnedExactly(w: World, who: nat, codes: Codes)
    requires Inv(w) && who < |w.callers| && w.callers[who].pc.Returned? && CodesInv(w.callers[who], codes)
    ensures var c := w.callers[who];
            ResultFits(c.job, codes, c.pc.result)
            && (c.at > 0 <==> ChangesKey(c.job, codes))
            && (c.at > 0 ==> c.at <= |w.disk.changes| && w.disk.changes[c.at - 1] == ChangeOf(c.job, who))
            && (c.job.Put? ==> (ChangeOf(c.job, who) in w.disk.changes <==> ChangesKey(c.job, codes)))
            && (ChangesKey(c.job, codes) && c.pc.result != 0 <==>
                  ChangesKey(c.job, codes) && codes.fsyncDir != 0 && c.pc.result == -1)
  {
    assert CallerInv(w.disk, w.callers[who], who);
    if w.callers[who].job.Put? {
      ChangeMeansAt(w, who);
    }
  }

  lemma ChangeMeansAt(w: World, who: nat)
    requires Inv(w) && who < |w.callers| && w.callers[who].job.Put?
    ensures ChangeOf(w.callers[who].job, who) in w.disk.changes ==> w.callers[who].at > 0
  {
    if ChangeOf(w.callers[who].job, who) in w.disk.changes {
      var k :| 0 <= k < |w.disk.changes| && w.disk.changes[k] == ChangeOf(w.callers[who].job, who);
      assert Done(w, w.disk.changes[k]);
    }
  }

  const SOME_PUT := Call(Put("k", "v"))
  const NO_TEMP := [SOME_PUT, Next(0, -1)]
  const NO_DIR_FLUSH := [SOME_PUT, Next(0, 0), Next(0, 1), Next(0, 0), Next(0, 0), Next(0, -1), Next(0, 0)]

  lemma NextOf(actions: seq<Action>, k: nat)
    requires k < |actions|
    ensures After(actions[..k + 1]) == Apply(After(actions[..k]), actions[k])
  {
    assert actions[..k + 1][..k] == actions[..k];
  }

  /** Both cases of -1 arise: without a temporary file nothing has changed, and when only the directory could
      not be flushed the key has its new value, though a loss of power can still take it back. */
  lemma MinusOneDoesNotTell()
    ensures var w := After(NO_TEMP); |w.callers| == 1 && w.callers[0].pc == Returned(-1) && w.disk.changes == []
    ensures var w := After(NO_DIR_FLUSH);
            |w.callers| == 1 && w.callers[0].pc == Returned(-1) && w.disk.changes == [Rename("k", 0)] && w.disk.durable == 0
            && w.disk.data == map[0 := "v"] && w.disk.flushed == {0}
  {
    hide After;
    NothingYet();
    assert NO_TEMP[..0] == [] && NO_TEMP[..2] == NO_TEMP;
    NextOf(NO_TEMP, 0);
    NextOf(NO_TEMP, 1);
    FlushedTemp();
    NextOf(NO_DIR_FLUSH, 4);
    NextOf(NO_DIR_FLUSH, 5);
    NextOf(NO_DIR_FLUSH, 6);
    assert NO_DIR_FLUSH[..7] == NO_DIR_FLUSH;
  }

  lemma NothingYet()
    ensures After([]) == EMPTY
  {
  }

  lemma FlushedTemp()
    ensures After(NO_DIR_FLUSH[..4]) ==
      World(Disk([], 0, map[0 := "v"], {0}, {0}), [Caller(Put("k", "v"), RenameTemp, 0)])
  {
    hide After;
    NothingYet();
    assert NO_DIR_FLUSH[..0] == [];
    NextOf(NO_DIR_FLUSH, 0);
    NextOf(NO_DIR_FLUSH, 1);
    NextOf(NO_DIR_FLUSH, 2);
    NextOf(NO_DIR_FLUSH, 3);
  }

  // ---------- one call in one piece ----------

  function StepsLeft(pc: Pc): nat {
    match pc
    case MakeTemp => 6
    case WriteTemp => 5
    case FlushTemp => 4
    case RenameTemp => 3
    case UnlinkFile => 3
    case FlushDir => 2
    case CleanUp(_) => 1
    case Returned(_) => 0
  }

  /** The steps of a call that nothing interrupts. */
  function Alone(d: Disk, c: Caller, who: nat, codes: Codes): (Disk, int)
    decreases StepsLeft(c.pc)
  {
    if c.pc.Returned? then (d, c.pc.result)
    else
      var (e, n) := Stepped(d, c, who, CodeAt(codes, c.pc));
      Alone(e, n, who, codes)
  }

  lemma OneStep(d: Disk, c: Caller, who: nat, codes: Codes)
    requires !c.pc.Returned?
    ensures var (e, n) := Stepped(d, c, who, CodeAt(codes, c.pc)); Alone(d, c, who, codes) == Alone(e, n, who, codes)
  {
  }

  lemma Ends(d: Disk, c: Caller, who: nat, codes: Codes, result: int)
    requires c.pc == Returned(result) || (c.pc == CleanUp(result) && (result == 0 || who !in d.temps))
    ensures Alone(d, c, who, codes) == (d, result)
  {
    assert who !in d.temps ==> d.(temps := d.temps - {who}) == d;
  }

  /** One put on its own, for every disk and whatever its system calls give back. */
  lemma PutAloneExactly(d: Disk, key: Key, value: Value, file: nat, codes: Codes)
    ensures var (e, result) := Alone(d, Caller(Put(key, value), MakeTemp, 0), file, codes);
            ResultFits(Put(key, value), codes, result)
            && e.changes == (if ChangesKey(Put(key, value), codes) then d.changes + [Rename(key, file)] else d.changes)
            && e.durable == (if result == 0 then |e.changes| else d.durable)
  {
    hide Alone;
    var c := Caller(Put(key, value), MakeTemp, 0);
    OneStep(d, c, file, codes);
    var (d1, c1) := Stepped(d, c, file, codes.mkstemp);
    if c1.pc.Returned? {
      Ends(d1, c1, file, codes, -1);
    } else {
      OneStep(d1, c1, file, codes);
      var (d2, c2) := Stepped(d1, c1, file, codes.written);
      if c2.pc == CleanUp(-20) {
        Fails(d2, c2, file, codes, -20);
      } else {
        OneStep(d2, c2, file, codes);
        var (d3, c3) := Stepped(d2, c2, file, codes.fsync);
        PutAloneRest(d3, c3, file, codes);
      }
    }
  }

  lemma Fails(d: Disk, c: Caller, who: nat, codes: Codes, result: int)
    requires c.pc == CleanUp(result)
    ensures var (e, r) := Alone(d, c, who, codes); r == result && e.changes == d.changes && e.durable == d.durable
  {
    hide Alone;
    OneStep(d, c, who, codes);
    var (e, n) := Stepped(d, c, who, CodeAt(codes, c.pc));
    Ends(e, n, who, codes, result);
  }

  lemma PutAloneRest(d: Disk, c: Caller, file: nat, codes: Codes)
    requires c.job.Put? && (c.pc == RenameTemp || c.pc == CleanUp(-1))
    ensures var (e, result) := Alone(d, c, file, codes);
            var renamed := c.pc == RenameTemp && codes.rename >= 0;
            result == (if renamed && codes.fsyncDir == 0 then 0 else -1)
            && e.changes == (if renamed then d.changes + [Rename(c.job.key, file)] else d.changes)
            && e.durable == (if result == 0 then |e.changes| else d.durable)
  {
    hide Alone;
    if c.pc == CleanUp(-1) {
      Fails(d, c, file, codes, -1);
    } else {
      OneStep(d, c, file, codes);
      var (d1, c1) := Stepped(d, c, file, codes.rename);
      if c1.pc == CleanUp(-1) {
        Fails(d1, c1, file, codes, -1);
      } else {
        OneStep(d1, c1, file, codes);
        var (d2, c2) := Stepped(d1, c1, file, codes.fsyncDir);
        Fails(d2, c2, file, codes, if codes.fsyncDir == 0 then 0 else -1);
      }
    }
  }

  class Params {
    var disk: Disk

    constructor ()
      ensures disk == EMPTY.disk
    {
      disk := EMPTY.disk;
    }

    method SyncDir(c: Caller, who: nat, codes: Codes) returns (result: int)
      requires c.pc == FlushDir && who !in disk.temps
      modifies this
      ensures (disk, result) == Alone(old(disk), c, who, codes)
    {
      hide Alone;
      OneStep(disk, c, who, codes);
      result := if codes.fsyncDir == 0 then 0 else -1;
      if result == 0 {
        disk := disk.(durable := |disk.changes|);
      }
      Ends(disk, c.(pc := CleanUp(result)), who, codes, result);
    }

    /** `file` is the number of the temporary file. */
    method PutValue(key: Key, value: Value, file: nat, codes: Codes) returns (result: int)
      requires file !in disk.temps
      modifies this
      ensures (disk, result) == Alone(old(disk), Caller(Put(key, value), MakeTemp, 0), file, codes)
    {
      hide Alone;
      ghost var c := Caller(Put(key, value), MakeTemp, 0);
      OneStep(disk, c, file, codes);
      if codes.mkstemp < 0 {
        Ends(disk, c.(pc := Returned(-1)), file, codes, -1);
        return -1;
      }
      disk := disk.(data := disk.data[file := ""], temps := disk.temps + {file});
      OneStep(disk, c.(pc := WriteTemp), file, codes);
      if 0 <= codes.written <= |value| {
        disk := disk.(data := disk.data[file := value[..codes.written]]);
      }
      if codes.written < 0 || codes.written != |value| {
        result := -20;
        CleanUpTemp(c, file, codes, result);
        return;
      }
      assert value[..|value|] == value;
      OneStep(disk, c.(pc := FlushTemp), file, codes);
      if codes.fsync < 0 {
        result := -1;
        CleanUpTemp(c, file, codes, result);
        return;
      }
      disk := disk.(flushed := disk.flushed + {file});
      OneStep(disk, c.(pc := RenameTemp), file, codes);
      if codes.rename < 0 {
        result := -1;
        CleanUpTemp(c, file, codes, result);
        return;
      }
      disk := disk.(changes := disk.changes + [Rename(key, file)], temps := disk.temps - {file});
      result := SyncDir(Caller(Put(key, value), FlushDir, |disk.changes|), file, codes);
    }

    /** What `put` does last when it fails. */
    method CleanUpTemp(ghost c: Caller, file: nat, ghost codes: Codes, result: int)
      requires result != 0
      modifies this
      ensures (disk, result) == Alone(old(disk), c.(pc := CleanUp(result)), file, codes)
    {
      hide Alone;
      OneStep(disk, c.(pc := CleanUp(result)), file, codes);
      disk := disk.(temps := disk.temps - {file});
      Ends(disk, c.(pc := Returned(result)), file, codes, result);
    }

    method RemoveKey(key: Key, who: nat, codes: Codes) returns (result: int)
      requires who !in disk.temps
      modifies this
      ensures (disk, result) == Alone(old(disk), Caller(Remove(key), UnlinkFile, 0), who, codes)
    {
      hide Alone;
      ghost var c := Caller(Remove(key), UnlinkFile, 0);
      OneStep(disk, c, who, codes);
      if codes.unlink != 0 {
        result := -1;
        Ends(disk, c.(pc := Returned(result)), who, codes, result);
        return;
      }
      disk := disk.(changes := disk.changes + [Unlink(key)]);
      result := SyncDir(Caller(Remove(key), FlushDir, |disk.changes|), who, codes);
    }
  }
}
