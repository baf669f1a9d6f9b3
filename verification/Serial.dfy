/** Concurrent Store and KeepConfAlive calls of one process, command by command, with time passing and other hosts
    acting in between.
    The mutex makes every interleaving a serial execution in the order of acquisition. */
module Serial {
  import opened Values
  import opened Config
  import opened Published
  import opened Redis
  import opened Plan
  import opened ClosedForm
  import opened KeepAlive

  datatype Op = Publishing(c: Configuration) | Keeping

  datatype Shared = Shared(db: Db, last: Option<Configuration>)

  /** Where a call is between two commands. */
  datatype Local =
    | Ready
    | Renewing(todo: set<string>, missing: bool)
    | Doing(c: Configuration, ch: Choice, done: nat, halted: bool)
    | Done(ok: bool)

  ghost predicate LastKnown(s: Shared)
  {
    s.last.Some? ==> WfConf(s.last.value)
  }

  ghost predicate EntersStore(inst: Inst, db: Db, c: Configuration, l: Local)
  {
    l.Doing? && l.c == c && l.done == 0 && !l.halted && Possible(inst, db, c, l.ch)
  }

  ghost predicate Starts(inst: Inst, op: Op, s: Shared, l': Local)
    requires LastKnown(s)
  {
    match op
    case Publishing(c) => EntersStore(inst, s.db, c, l')
    case Keeping =>
      if s.last.None? then l' == Done(true)
      else
        l' == Done(false) ||
        if Sentinel(inst) !in s.db.strings then EntersStore(inst, s.db, s.last.value, l')
        else if inst.ttl == 0 then l' == Done(true)
        else KvOf(s.last.value).Some? && l' == Renewing(Wanted(inst, s.last.value), false)
  }

  ghost predicate Renews(inst: Inst, s: Shared, l: Local, s': Shared, l': Local)
    requires l.Renewing?
  {
    || (s' == s && l' == Done(false))
    || (l.todo == {} && s' == s && if l.missing then s.last.Some? && EntersStore(inst, s.db, s.last.value, l')
        else l' == Done(true))
    || (inst.ttl > 0 && exists k :: RenewsOne(inst, s, l, s', l', k))
  }

  ghost predicate RenewsOne(inst: Inst, s: Shared, l: Local, s': Shared, l': Local, k: string)
    requires l.Renewing? && inst.ttl > 0
  {
    k in l.todo && s' == s.(db := s.db.PExpire(k, inst.ttl))
    && l' == Renewing(l.todo - {k}, l.missing || k !in s.db.strings)
  }

  ghost predicate Stores(inst: Inst, s: Shared, l: Local, s': Shared, l': Local)
    requires l.Doing?
  {
    && WfConf(l.c) && Shaped(l.ch) && l.done <= |StorePlan(l.c, l.ch)|
    && var p := StorePlan(l.c, l.ch);
       if l.done == |p| then
         if KvOf(l.c).Some? then s' == s.(last := Some(l.c)) && l' == Done(true) else s' == s && l' == Done(false)
       else
         || (s' == s && l' == Done(false) && (p[l.done].Put? || p[l.done].Stamp?))
         || (var y := Do(inst, Sys(s.db, l.halted), p[l.done]);
             s' == s.(db := y.db) && l' == l.(done := l.done + 1, halted := y.halted))
  }

  /** One command of a call that holds the mutex. */
  ghost predicate Act(inst: Inst, op: Op, s: Shared, l: Local, s': Shared, l': Local)
  {
    && LastKnown(s)
    && match l
       case Ready => s' == s && Starts(inst, op, s, l')
       case Renewing(_, _) => Renews(inst, s, l, s', l')
       case Doing(_, _, _, _) => Stores(inst, s, l, s', l')
       case Done(_) => false
  }

  // ---------- a call alone is one step of the store model ----------

  ghost predicate KeepBase(inst: Inst, s0: Shared, c: Configuration, base: Db)
    requires WfConf(c)
  {
    var alive := Sentinel(inst) in s0.db.strings;
    || (base == s0.db && !alive)
    || (alive && inst.ttl > 0 && KvOf(c).Some? && base == Renewed(s0.db, Wanted(inst, c), inst.ttl)
        && !(Wanted(inst, c) <= s0.db.strings.Keys))
  }

  ghost predicate InStore(inst: Inst, base: Db, s: Shared, l: Local)
    requires l.Doing?
  {
    && WfConf(l.c) && Possible(inst, base, l.c, l.ch) && l.done <= |StorePlan(l.c, l.ch)|
    && Sys(s.db, l.halted) == Run(inst, Sys(base, false), StorePlan(l.c, l.ch)[..l.done])
  }

  ghost predicate StoreDone(inst: Inst, db: Db, c: Configuration, db': Db, ok: bool)
    requires WfConf(c)
  {
    exists ch, done :: StoreStep(inst, db, c, ch, done, db', ok)
  }

  ghost predicate CallDone(inst: Inst, op: Op, s0: Shared, s: Shared, ok: bool)
    requires LastKnown(s0)
  {
    match op
    case Publishing(c) => WfConf(c) && StoreDone(inst, s0.db, c, s.db, ok) && s.last == if ok then Some(c) else s0.last
    case Keeping => s.last == s0.last && exists k :: KeepStep(inst, s0.db, s0.last, k, s.db, ok)
  }

  /** How far a call that began in `s0` and was not interrupted by time has got. */
  ghost predicate Progress(inst: Inst, op: Op, s0: Shared, s: Shared, l: Local)
  {
    && LastKnown(s0) && (op.Publishing? ==> WfConf(op.c))
    && match l
       case Ready => s == s0
       case Renewing(todo, missing) =>
         && op.Keeping? && s0.last.Some? && KvOf(s0.last.value).Some? && inst.ttl > 0 && Sentinel(inst) in s0.db.strings
         && var w := Wanted(inst, s0.last.value);
            s == s0.(db := Renewed(s0.db, w - todo, inst.ttl)) && todo <= w
            && missing == !(w - todo <= s0.db.strings.Keys)
       case Doing(c, _, _, _) =>
         && s.last == s0.last
         && (match op
             case Publishing(c') => c == c' && InStore(inst, s0.db, s, l)
             case Keeping =>
               s0.last == Some(c) && exists base :: KeepBase(inst, s0, c, base) && InStore(inst, base, s, l))
       case Done(ok) => CallDone(inst, op, s0, s, ok)
  }

  lemma RenewOne(db: Db, ks: set<string>, k: string, ttl: nat)
    requires ttl > 0 && k !in ks
    ensures Renewed(db, ks, ttl).PExpire(k, ttl) == Renewed(db, ks + {k}, ttl)
    ensures k in Renewed(db, ks, ttl).strings <==> k in db.strings
  {
    assert Renewed(db, ks, ttl).PExpire(k, ttl).strings == Renewed(db, ks + {k}, ttl).strings;
  }

  lemma RenewNone(db: Db, ttl: nat)
    ensures Renewed(db, {}, ttl) == db
  {
    assert Renewed(db, {}, ttl).strings == db.strings;
  }

  lemma EnterInStore(inst: Inst, s: Shared, c: Configuration, l: Local)
    requires WfConf(c) && EntersStore(inst, s.db, c, l)
    ensures InStore(inst, s.db, s, l)
  {
    hide WfConf, KvOf;
    PossibleShaped(inst, s.db, c, l.ch);
    assert StorePlan(c, l.ch)[..0] == [];
  }

  lemma StoreAct(inst: Inst, base: Db, s: Shared, l: Local, s': Shared, l': Local)
    requires l.Doing? && InStore(inst, base, s, l) && Stores(inst, s, l, s', l')
    ensures l'.Doing? ==> InStore(inst, base, s', l') && l'.c == l.c && s'.last == s.last
    ensures l'.Done? ==> StoreDone(inst, base, l.c, s'.db, l'.ok) && s'.last == if l'.ok then Some(l.c) else s.last
  {
    hide WfConf, KvOf, Possible, Run, Do, StorePlan;
    var p := StorePlan(l.c, l.ch);
    if l.done == |p| {
      assert p[..l.done] == p;
    } else if l'.Doing? {
      assert p[..l.done + 1] == p[..l.done] + [p[l.done]];
      RunSnoc(inst, Sys(base, false), p[..l.done], p[l.done]);
    }
    if l'.Done? {
      assert StoreStep(inst, base, l.c, l.ch, l.done, s'.db, l'.ok);
    }
  }

  lemma KeepStored(inst: Inst, s0: Shared, c: Configuration, base: Db, db': Db, ok: bool)
    requires WfConf(c) && s0.last == Some(c) && KeepBase(inst, s0, c, base) && StoreDone(inst, base, c, db', ok)
    ensures exists k :: KeepStep(inst, s0.db, s0.last, k, db', ok)
  {
    hide WfConf, KvOf, StoreStep, Sentinel;
    var ch, done :| StoreStep(inst, base, c, ch, done, db', ok);
    var renewed := Sentinel(inst) in s0.db.strings;
    assert KeepStep(inst, s0.db, s0.last, Restore(renewed, ch, done), db', ok);
  }

  lemma ReadyProgress(inst: Inst, op: Op, s: Shared, l': Local)
    requires Progress(inst, op, s, s, Ready) && Starts(inst, op, s, l')
    ensures Progress(inst, op, s, s, l')
  {
    hide WfConf, KvOf, InStore, Possible, Sentinel;
    match op
    case Publishing(c) => EnterInStore(inst, s, c, l');
    case Keeping =>
      if s.last.None? {
        assert KeepStep(inst, s.db, s.last, Idle, s.db, true);
      } else {
        var c := s.last.value;
        match l'
        case Doing(_, _, _, _) => EnterInStore(inst, s, c, l'); assert KeepBase(inst, s, c, s.db);
        case Done(ok) => assert KeepStep(inst, s.db, s.last, if ok then Idle else NoAnswer, s.db, ok);
        case Renewing(todo, _) =>
          RenewNone(s.db, inst.ttl);
          assert Wanted(inst, c) - todo == {};
        case Ready =>
      }
  }

  lemma RenewProgress(inst: Inst, op: Op, s0: Shared, s: Shared, l: Local, s': Shared, l': Local)
    requires l.Renewing? && Progress(inst, op, s0, s, l) && Renews(inst, s, l, s', l')
    ensures Progress(inst, op, s0, s', l')
  {
    hide WfConf, KvOf, InStore, Possible, Sentinel, StoreStep, Wanted, Renewed;
    var c := s0.last.value;
    var w := Wanted(inst, c);
    match l'
    case Done(ok) =>
      assert l.todo == {} ==> w - l.todo == w;
      assert KeepStep(inst, s0.db, s0.last, Renew(w - l.todo, ok), s'.db, ok);
    case Doing(_, _, _, _) =>
      assert w - l.todo == w;
      EnterInStore(inst, s, c, l');
      assert KeepBase(inst, s0, c, s.db);
    case Renewing(todo, _) =>
      var k :| RenewsOne(inst, s, l, s', l', k);
      RenewOne(s0.db, w - l.todo, k, inst.ttl);
      assert w - todo == (w - l.todo) + {k};
    case Ready =>
  }

  lemma ActProgress(inst: Inst, op: Op, s0: Shared, s: Shared, l: Local, s': Shared, l': Local)
    requires Progress(inst, op, s0, s, l) && Act(inst, op, s, l, s', l')
    ensures Progress(inst, op, s0, s', l')
  {
    match l
    case Ready => ReadyProgress(inst, op, s, l');
    case Renewing(_, _) => RenewProgress(inst, op, s0, s, l, s', l');
    case Doing(_, _, _, _) => StoreProgress(inst, op, s0, s, l, s', l');
  }

  lemma StoreProgress(inst: Inst, op: Op, s0: Shared, s: Shared, l: Local, s': Shared, l': Local)
    requires l.Doing? && Progress(inst, op, s0, s, l) && Stores(inst, s, l, s', l')
    ensures Progress(inst, op, s0, s', l')
  {
    hide WfConf, KvOf, InStore, KeepBase, StoreDone, KeepStep, StorePlan, Do;
    assert l'.Doing? || l'.Done?;
    hide Stores;
    match op
    case Publishing(_) => StoreAct(inst, s0.db, s, l, s', l');
    case Keeping =>
      var base :| KeepBase(inst, s0, l.c, base) && InStore(inst, base, s, l);
      StoreAct(inst, base, s, l, s', l');
      if l'.Done? { KeepStored(inst, s0, l.c, base, s'.db, l'.ok); }
  }

  /** The states a call goes through when nothing happens between its commands. */
  ghost predicate CallRun(inst: Inst, op: Op, ss: seq<Shared>, ls: seq<Local>)
  {
    && |ss| == |ls| > 0 && ls[0] == Ready
    && forall i :: 0 <= i < |ls| - 1 ==> Act(inst, op, ss[i], ls[i], ss[i + 1], ls[i + 1])
  }

  lemma {:induction false} CallProgress(inst: Inst, op: Op, ss: seq<Shared>, ls: seq<Local>, i: nat)
    requires CallRun(inst, op, ss, ls) && LastKnown(ss[0]) && (op.Publishing? ==> WfConf(op.c)) && i < |ls|
    ensures Progress(inst, op, ss[0], ss[i], ls[i])
  {
    if i > 0 {
      hide Act, Progress, WfConf;
      CallProgress(inst, op, ss, ls, i - 1);
      ActProgress(inst, op, ss[0], ss[i - 1], ls[i - 1], ss[i], ls[i]);
    }
  }

  /** Executed command by command, a call has exactly the effect that RedisStore's methods promise. */
  lemma CallIsStep(inst: Inst, op: Op, ss: seq<Shared>, ls: seq<Local>)
    requires CallRun(inst, op, ss, ls) && LastKnown(ss[0]) && (op.Publishing? ==> WfConf(op.c)) && ls[|ls| - 1].Done?
    ensures CallDone(inst, op, ss[0], ss[|ls| - 1], ls[|ls| - 1].ok)
  {
    hide Act, WfConf;
    CallProgress(inst, op, ss, ls, |ls| - 1);
  }

  // ---------- the process: several goroutines, one mutex ----------

  datatype Thread = Out | Waiting(op: Op) | Inside(op: Op, local: Local)

  datatype World = World(shared: Shared, owner: Option<nat>, threads: map<nat, Thread>)

  datatype Label = Call(t: nat, op: Op) | Acquire(t: nat) | Command(t: nat) | Release(t: nat) | Outside(db: Db)

  /** Nobody else changes this host's name sets while one of its calls is in progress. Otherwise anything may happen
      outside the mutex: time, lost keys, a flush of the database, other hosts. */
  ghost predicate SetsKept(inst: Inst, a: Db, b: Db)
  {
    forall t :: OwnUpTo(inst, |SETS|, t) ==> b.Members(t) == a.Members(t)
  }

  ghost predicate WorldStep(inst: Inst, a: World, e: Label, b: World)
  {
    match e
    case Call(t, op) => t in a.threads && a.threads[t].Out? && b == a.(threads := a.threads[t := Waiting(op)])
    case Acquire(t) =>
      && t in a.threads && a.threads[t].Waiting? && a.owner.None?
      && b == a.(owner := Some(t), threads := a.threads[t := Inside(a.threads[t].op, Ready)])
    case Command(t) =>
      && t in a.threads && a.threads[t].Inside? && t in b.threads && b.threads[t].Inside?
      && Act(inst, a.threads[t].op, a.shared, a.threads[t].local, b.shared, b.threads[t].local)
      && b == a.(shared := b.shared, threads := a.threads[t := Inside(a.threads[t].op, b.threads[t].local)])
    case Release(t) =>
      && t in a.threads && a.threads[t].Inside? && a.threads[t].local.Done?
      && b == a.(owner := None, threads := a.threads[t := Out])
    case Outside(db) => (a.owner.Some? ==> SetsKept(inst, a.shared.db, db)) && b == a.(shared := a.shared.(db := db))
  }

  ghost predicate IsTrace(inst: Inst, worlds: seq<World>, labels: seq<Label>)
  {
    |worlds| == |labels| + 1 && forall i :: 0 <= i < |labels| ==> WorldStep(inst, worlds[i], labels[i], worlds[i + 1])
  }

  /** Only the owner of the mutex is inside a call. */
  ghost predicate Exclusive(w: World)
  {
    && (w.owner.Some? ==> w.owner.value in w.threads && w.threads[w.owner.value].Inside?)
    && (forall t :: t in w.threads && w.threads[t].Inside? ==> w.owner == Some(t))
  }

  lemma StepExclusive(inst: Inst, a: World, e: Label, b: World)
    requires Exclusive(a) && WorldStep(inst, a, e, b)
    ensures Exclusive(b)
  {
    hide Act;
  }

  lemma {:induction false} MutualExclusion(inst: Inst, worlds: seq<World>, labels: seq<Label>, i: nat)
    requires IsTrace(inst, worlds, labels) && Exclusive(worlds[0]) && i < |worlds|
    ensures Exclusive(worlds[i])
  {
    if i > 0 {
      hide WorldStep, Exclusive;
      MutualExclusion(inst, worlds, labels, i - 1);
      StepExclusive(inst, worlds[i - 1], labels[i - 1], worlds[i]);
    }
  }

  // ---------- the serial machine: one call after the other ----------

  datatype Solo = Solo(shared: Shared, current: Option<(Op, Local)>)

  datatype SoloLabel = Begin(op: Op) | Next | End | Elsewhere(db: Db)

  ghost predicate SoloStep(inst: Inst, a: Solo, e: SoloLabel, b: Solo)
  {
    match e
    case Begin(op) => a.current.None? && b == Solo(a.shared, Some((op, Ready)))
    case Next =>
      && a.current.Some? && b.current.Some? && b.current.value.0 == a.current.value.0
      && Act(inst, a.current.value.0, a.shared, a.current.value.1, b.shared, b.current.value.1)
    case End => a.current.Some? && a.current.value.1.Done? && b == Solo(a.shared, None)
    case Elsewhere(db) =>
      (a.current.Some? ==> SetsKept(inst, a.shared.db, db)) && b == a.(shared := a.shared.(db := db))
  }

  ghost predicate IsSolo(inst: Inst, solos: seq<Solo>, steps: seq<SoloLabel>)
  {
    |solos| == |steps| + 1 && forall i :: 0 <= i < |steps| ==> SoloStep(inst, solos[i], steps[i], solos[i + 1])
  }

  function Ops(steps: seq<SoloLabel>): seq<Op>
  {
    if steps == [] then []
    else
      var last := steps[|steps| - 1];
      Ops(steps[..|steps| - 1]) + if last.Begin? then [last.op] else []
  }

  /** The operations in the order in which they acquired the mutex. */
  function Acquired(worlds: seq<World>, labels: seq<Label>, n: nat): seq<Op>
    requires n <= |labels| && n <= |worlds|
  {
    if n == 0 then []
    else
      var e, w := labels[n - 1], worlds[n - 1];
      Acquired(worlds, labels, n - 1) + if e.Acquire? && e.t in w.threads && w.threads[e.t].Waiting?
      then [w.threads[e.t].op] else []
  }

  function SoloOf(w: World): Solo
  {
    Solo(w.shared, if w.owner.Some? && w.owner.value in w.threads && w.threads[w.owner.value].Inside?
                   then Some((w.threads[w.owner.value].op, w.threads[w.owner.value].local)) else None)
  }

  /** The serial counterpart of a label; calls and waiting for the mutex are invisible. */
  function SerialOf(w: World, e: Label): Option<SoloLabel>
  {
    match e
    case Call(_, _) => None
    case Acquire(t) => if t in w.threads && w.threads[t].Waiting? then Some(Begin(w.threads[t].op)) else None
    case Command(_) => Some(Next)
    case Release(_) => Some(End)
    case Outside(db) => Some(Elsewhere(db))
  }

  lemma StepSerial(inst: Inst, a: World, e: Label, b: World)
    requires Exclusive(a) && WorldStep(inst, a, e, b)
    ensures SerialOf(a, e).None? ==> SoloOf(b) == SoloOf(a)
    ensures SerialOf(a, e).Some? ==> SoloStep(inst, SoloOf(a), SerialOf(a, e).value, SoloOf(b))
  {
    hide Act;
  }

  lemma SoloSnoc(inst: Inst, solos: seq<Solo>, steps: seq<SoloLabel>, e: SoloLabel, b: Solo)
    requires IsSolo(inst, solos, steps) && SoloStep(inst, solos[|steps|], e, b)
    ensures IsSolo(inst, solos + [b], steps + [e]) && Ops(steps + [e]) == Ops(steps) + if e.Begin? then [e.op] else []
  {
    hide SoloStep;
    assert (steps + [e])[..|steps|] == steps;
  }

  /** Every interleaving is a serial execution of the same calls, in the order in which they got the mutex,
      with the same things happening outside. */
  lemma {:induction false} Serializable(inst: Inst, worlds: seq<World>, labels: seq<Label>, n: nat)
    returns (solos: seq<Solo>, steps: seq<SoloLabel>)
    requires IsTrace(inst, worlds, labels) && Exclusive(worlds[0]) && worlds[0].owner.None? && n <= |labels|
    ensures IsSolo(inst, solos, steps) && solos[0] == Solo(worlds[0].shared, None)
    ensures solos[|steps|] == SoloOf(worlds[n])
    ensures solos[|steps|].shared == worlds[n].shared
    ensures Ops(steps) == Acquired(worlds, labels, n)
  {
    if n == 0 {
      solos, steps := [SoloOf(worlds[0])], [];
    } else {
      hide WorldStep, SoloStep, Exclusive;
      solos, steps := Serializable(inst, worlds, labels, n - 1);
      MutualExclusion(inst, worlds, labels, n - 1);
      StepSerial(inst, worlds[n - 1], labels[n - 1], worlds[n]);
      var e := SerialOf(worlds[n - 1], labels[n - 1]);
      if e.Some? {
        SoloSnoc(inst, solos, steps, e.value, SoloOf(worlds[n]));
        solos, steps := solos + [SoloOf(worlds[n])], steps + [e.value];
      }
    }
  }

  // ---------- what a renewal may republish ----------

  /** The configuration of the last Store that has returned successfully, from the trace alone. */
  function LastStored(worlds: seq<World>, labels: seq<Label>, n: nat): Option<Configuration>
    requires |worlds| > 0 && n <= |labels| && n <= |worlds|
  {
    if n == 0 then worlds[0].shared.last
    else
      var e, w := labels[n - 1], worlds[n - 1];
      if e.Release? && e.t in w.threads && w.threads[e.t].Inside? && w.threads[e.t].op.Publishing?
         && w.threads[e.t].local == Done(true)
      then Some(w.threads[e.t].op.c)
      else LastStored(worlds, labels, n - 1)
  }

  /** lastConfig is what the last returned Store published, or what a Store about to return has published. */
  ghost predicate Remembered(w: World, stored: Option<Configuration>)
  {
    && Exclusive(w) && LastKnown(w.shared) && (w.shared.last.Some? ==> KvOf(w.shared.last.value).Some?)
    && (match SoloOf(w).current
        case None => w.shared.last == stored
        case Some((op, l)) =>
          && w.shared.last == (if op.Publishing? && l == Done(true) then Some(op.c) else stored)
          && (l.Renewing? ==> op.Keeping? && w.shared.last.Some?)
          && (l.Doing? ==> if op.Publishing? then l.c == op.c else Some(l.c) == w.shared.last))
  }

  lemma ActRemembers(inst: Inst, op: Op, s: Shared, l: Local, s': Shared, l': Local)
    requires Act(inst, op, s, l, s', l')
    requires l.Doing? ==> if op.Publishing? then l.c == op.c else Some(l.c) == s.last
    requires l.Renewing? ==> op.Keeping? && s.last.Some?
    requires l != Done(true) && (s.last.Some? ==> KvOf(s.last.value).Some?)
    ensures LastKnown(s') && (s'.last.Some? ==> KvOf(s'.last.value).Some?)
    ensures l'.Doing? ==> if op.Publishing? then l'.c == op.c else Some(l'.c) == s'.last
    ensures l'.Renewing? ==> op.Keeping? && s'.last.Some?
    ensures s'.last == if op.Publishing? && l' == Done(true) then Some(op.c) else s.last
  {
    hide Possible, KvOf, WfConf, Sentinel, Do, StorePlan;
  }

  lemma StepRemembers(inst: Inst, a: World, e: Label, b: World, stored: Option<Configuration>,
                      stored': Option<Configuration>)
    requires Remembered(a, stored) && WorldStep(inst, a, e, b)
    requires stored' == if e.Release? && e.t in a.threads && a.threads[e.t].Inside?
                           && a.threads[e.t].op.Publishing? && a.threads[e.t].local == Done(true)
                        then Some(a.threads[e.t].op.c) else stored
    ensures Remembered(b, stored')
  {
    hide Act, KvOf, WfConf;
    StepExclusive(inst, a, e, b);
    if e.Command? {
      var op, l, l' := a.threads[e.t].op, a.threads[e.t].local, b.threads[e.t].local;
      DoneIsFinal(inst, op, a.shared, l, b.shared, l');
      ActRemembers(inst, op, a.shared, l, b.shared, l');
    }
  }

  lemma DoneIsFinal(inst: Inst, op: Op, s: Shared, l: Local, s': Shared, l': Local)
    requires Act(inst, op, s, l, s', l')
    ensures !l.Done?
  {
  }

  lemma {:induction false} AlwaysRemembered(inst: Inst, worlds: seq<World>, labels: seq<Label>, n: nat)
    requires IsTrace(inst, worlds, labels) && Remembered(worlds[0], worlds[0].shared.last) && n <= |labels|
    ensures Remembered(worlds[n], LastStored(worlds, labels, n))
  {
    hide WorldStep, Remembered;
    if n > 0 {
      AlwaysRemembered(inst, worlds, labels, n - 1);
      StepRemembers(inst, worlds[n - 1], labels[n - 1], worlds[n], LastStored(worlds, labels, n - 1),
                    LastStored(worlds, labels, n));
    }
  }

  /** Whatever the interleaving, a KeepConfAlive that re-publishes does so with the configuration of the last
      completed Store, never an older one. */
  lemma RepublishesLatest(inst: Inst, worlds: seq<World>, labels: seq<Label>, n: nat, t: nat)
    requires IsTrace(inst, worlds, labels) && Remembered(worlds[0], worlds[0].shared.last) && n <= |labels|
    requires t in worlds[n].threads && worlds[n].threads[t].Inside? && worlds[n].threads[t].op.Keeping?
    requires worlds[n].threads[t].local.Doing?
    ensures Some(worlds[n].threads[t].local.c) == LastStored(worlds, labels, n)
  {
    hide IsTrace;
    AlwaysRemembered(inst, worlds, labels, n);
  }

  /** No Store is inside the mutex. */
  predicate OnlyKeeping(w: World)
  {
    SoloOf(w).current.Some? ==> SoloOf(w).current.value.0.Keeping?
  }

  predicate StartsPublishing(w: World, e: Label)
  {
    e.Acquire? && e.t in w.threads && w.threads[e.t].Waiting? && w.threads[e.t].op.Publishing?
  }

  lemma DoCreates(inst: Inst, y: Sys, m: Micro, k: string)
    requires k !in y.db.strings && k in Do(inst, y, m).db.strings
    ensures (m.Put? && m.key == k) || (m.Stamp? && k == Sentinel(inst))
  {
    hide Sentinel, SetKey, NewKey, K, ServersPrefix;
  }

  /** A command of a re-publishing call creates only keys of the configuration. */
  lemma StoresCreates(inst: Inst, s: Shared, l: Local, s': Shared, l': Local, c: Configuration, k: string)
    requires l.Doing? && l.c == c && WfConf(c) && KvOf(c).Some? && Stores(inst, s, l, s', l')
    requires k !in Wanted(inst, c) && k !in s.db.strings
    ensures k !in s'.db.strings
  {
    hide KvOf, WfConf, Do, FullPlan, Sentinel;
    var p := StorePlan(c, l.ch);
    if l.done < |p| {
      PlanWrites(c, KvOf(c).value, l.ch, p[l.done]);
      var y := Do(inst, Sys(s.db, l.halted), p[l.done]);
      if k in y.db.strings {
        DoCreates(inst, Sys(s.db, l.halted), p[l.done], k);
      }
    }
  }

  lemma KeepCreates(inst: Inst, s: Shared, l: Local, s': Shared, l': Local, c: Configuration, k: string)
    requires Act(inst, Keeping, s, l, s', l') && s.last == Some(c) && (l.Doing? ==> l.c == c) && KvOf(c).Some?
    requires k !in Wanted(inst, c) && k !in s.db.strings
    ensures k !in s'.db.strings
  {
    hide KvOf, WfConf, Stores, Wanted, Sentinel;
    if l.Doing? {
      StoresCreates(inst, s, l, s', l', c, k);
    }
  }

  /** The key is none of the configuration's and does not exist; no Store is going on. */
  ghost predicate Away(inst: Inst, w: World, c: Configuration, k: string)
  {
    WfConf(c) && KvOf(c).Some? && k !in Wanted(inst, c) && OnlyKeeping(w) && k !in w.shared.db.strings
  }

  /** Somebody else creates the key. */
  predicate CreatedOutside(w: World, e: Label, k: string)
  {
    e.Outside? && k in e.db.strings && k !in w.shared.db.strings
  }

  /** So names that the last Store dropped are not resurrected: until another Store gets the mutex, this process
      creates no key outside its configuration. */
  lemma {:induction false} NotResurrected(inst: Inst, worlds: seq<World>, labels: seq<Label>, i: nat, j: nat,
                                          c: Configuration, k: string)
    requires IsTrace(inst, worlds, labels) && Remembered(worlds[0], worlds[0].shared.last) && i <= j <= |labels|
    requires LastStored(worlds, labels, i) == Some(c) && Away(inst, worlds[i], c, k)
    requires forall n :: i <= n < j ==>
      !StartsPublishing(worlds[n], labels[n]) && !CreatedOutside(worlds[n], labels[n], k)
    ensures LastStored(worlds, labels, j) == Some(c) && Away(inst, worlds[j], c, k)
  {
    hide WorldStep, Remembered, StartsPublishing, CreatedOutside, Away, LastStored, Exclusive;
    if i < j {
      NotResurrected(inst, worlds, labels, i, j - 1, c, k);
      AlwaysRemembered(inst, worlds, labels, j - 1);
      StaysAway(inst, worlds[j - 1], labels[j - 1], worlds[j], c, k);
      StillStored(worlds, labels, j, c);
    }
  }

  lemma StillStored(worlds: seq<World>, labels: seq<Label>, j: nat, c: Configuration)
    requires 0 < j <= |labels| && j <= |worlds| && LastStored(worlds, labels, j - 1) == Some(c)
    requires Exclusive(worlds[j - 1]) && OnlyKeeping(worlds[j - 1])
    ensures LastStored(worlds, labels, j) == Some(c)
  {
  }

  lemma StaysAway(inst: Inst, a: World, e: Label, b: World, c: Configuration, k: string)
    requires WorldStep(inst, a, e, b) && Remembered(a, Some(c)) && Away(inst, a, c, k) && !StartsPublishing(a, e)
    requires !CreatedOutside(a, e, k)
    ensures Away(inst, b, c, k) && Exclusive(a) && OnlyKeeping(a)
  {
    hide Act, KvOf, WfConf, Wanted;
    if e.Command? {
      KeepCreates(inst, a.shared, a.threads[e.t].local, b.shared, b.threads[e.t].local, c, k);
    }
  }
}
