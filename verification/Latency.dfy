/** TTL safety when calls take time: between two commands of a call any time may pass. What counts is when the last
    successful call began. */
module Latency {
  import opened Values
  import opened Config
  import opened Published
  import opened Redis
  import opened Plan
  import opened ClosedForm
  import opened Ownership
  import opened KeepAlive
  import opened Ttl
  import opened Serial

  /** When the call in progress began. */
  function BegunNext(begun: nat, a: Solo, e: SoloLabel): nat
  {
    if e.Begin? then a.shared.db.now else begun
  }

  /** When the last successful call began. */
  function SinceNext(since: nat, begun: nat, e: SoloLabel, b: Solo): nat
  {
    if e == SoloLabel.Next && b.current.Some? && b.current.value.1 == Done(true) then begun else since
  }

  ghost predicate LongLived(db: Db, keys: set<string>, t: nat)
  {
    forall k :: k in keys && k in db.strings ==> Outlives(db.strings[k], t)
  }

  /** The keys that these commands have written. */
  function Covered(inst: Inst, p: seq<Micro>): set<string>
  {
    set m | m in p && (m.Put? || m.Stamp?) :: if m.Put? then m.key else Sentinel(inst)
  }

  /** A configuration whose keys are all among those nobody else writes. */
  ghost predicate Ours(inst: Inst, ours: set<string>, c: Configuration)
  {
    WfConf(c) && (KvOf(c).Some? ==> Wanted(inst, c) <= ours)
  }

  ghost predicate LastSafe(inst: Inst, ours: set<string>, s: Shared, since: nat)
  {
    s.last.Some? ==>
      Ours(inst, ours, s.last.value) && KvOf(s.last.value).Some?
      && LongLived(s.db, Wanted(inst, s.last.value), since + inst.ttl)
  }

  ghost predicate CallSafe(inst: Inst, ours: set<string>, s: Shared, op: Op, l: Local, begun: nat)
  {
    && (op.Publishing? ==> Ours(inst, ours, op.c))
    && match l
       case Ready => true
       case Done(_) => true
       case Renewing(todo, _) =>
         && s.last.Some? && Ours(inst, ours, s.last.value) && KvOf(s.last.value).Some? && op.Keeping?
         && LongLived(s.db, Wanted(inst, s.last.value) - todo, begun + inst.ttl)
       case Doing(c, ch, done, _) =>
         && Ours(inst, ours, c) && Shaped(ch) && done <= |StorePlan(c, ch)| && (op.Keeping? ==> s.last == Some(c))
         && (op.Publishing? ==> op.c == c)
         && LongLived(s.db, Covered(inst, StorePlan(c, ch)[..done]), begun + inst.ttl)
  }

  ghost predicate Safe(inst: Inst, ours: set<string>, s: Solo, since: nat, begun: nat)
  {
    && inst.ttl > 0 && since <= s.shared.db.now && LastSafe(inst, ours, s.shared, since)
    && (s.current.Some? ==>
          since <= begun <= s.shared.db.now
          && CallSafe(inst, ours, s.shared, s.current.value.0, s.current.value.1, begun))
  }

  /** Outside, time passes and keys may be lost; nobody else writes one of these keys. */
  ghost predicate Leaves(ours: set<string>, a: Db, b: Db)
  {
    a.now <= b.now && forall k :: k in ours && k in b.strings ==> k in a.strings && b.strings[k] == a.strings[k]
  }

  ghost predicate Allowed(inst: Inst, ours: set<string>, a: Solo, e: SoloLabel)
  {
    && (e.Begin? && e.op.Publishing? ==> Ours(inst, ours, e.op.c))
    && (e.Elsewhere? ==> Leaves(ours, a.shared.db, e.db))
  }

  // ---------- one command ----------

  /** Every key is as before or was written by the command, with the full TTL from now. */
  ghost predicate OneWrite(inst: Inst, a: Db, m: Micro, b: Db)
  {
    && b.now == a.now
    && forall k :: k in b.strings ==>
         || (k in a.strings && b.strings[k] == a.strings[k])
         || b.strings[k].deadline == a.Deadline(inst.ttl)
  }

  lemma DoWrites(inst: Inst, y: Sys, m: Micro)
    ensures OneWrite(inst, y.db, m, Do(inst, y, m).db)
    ensures m.Put? && m.key in Do(inst, y, m).db.strings ==>
      Do(inst, y, m).db.strings[m.key].deadline == y.db.Deadline(inst.ttl)
    ensures m.Stamp? ==>
      Sentinel(inst) in Do(inst, y, m).db.strings
      && Do(inst, y, m).db.strings[Sentinel(inst)].deadline == y.db.Deadline(inst.ttl)
  {
    hide Sentinel, SetKey, NewKey, K, ServersPrefix;
  }

  lemma WriteKeeps(inst: Inst, a: Db, m: Micro, b: Db, keys: set<string>, t: nat)
    requires OneWrite(inst, a, m, b) && LongLived(a, keys, t) && t <= a.now + inst.ttl && inst.ttl > 0
    ensures LongLived(b, keys, t)
  {
  }

  lemma CoveredSnoc(inst: Inst, p: seq<Micro>, m: Micro)
    ensures Covered(inst, p + [m])
            == Covered(inst, p) + (if m.Put? then {m.key} else if m.Stamp? then {Sentinel(inst)} else {})
  {
    hide Sentinel;
    forall x | x in Covered(inst, p) ensures x in Covered(inst, p + [m]) {
      var c :| c in p && (c.Put? || c.Stamp?) && x == if c.Put? then c.key else Sentinel(inst);
      assert c in p + [m];
    }
    assert m in p + [m];
  }

  /** The complete plan covers everything the configuration publishes. */
  lemma AllCovered(inst: Inst, c: Configuration, ch: Choice)
    requires WfConf(c) && KvOf(c).Some? && Shaped(ch)
    ensures Wanted(inst, c) <= Covered(inst, StorePlan(c, ch))
  {
    var kv, p := KvOf(c).value, StorePlan(c, ch);
    hide WfConf, KvOf, TrackPlan, CleanPlan, Swaps, Sentinel, SortedSeq;
    forall k | k in kv ensures k in Covered(inst, p) {
      var keys := SortedSeq(kv.Keys);
      assert k in keys;
      var i :| 0 <= i < |keys| && keys[i] == k;
      assert WritePlan(kv)[i] == Put(k, kv[k]);
      assert Put(k, kv[k]) in WritePlan(kv);
      assert Put(k, kv[k]) in p;
    }
    assert Stamp(ch.stamp) in p;
  }

  // ---------- one step ----------

  lemma BeginSafe(inst: Inst, ours: set<string>, a: Solo, op: Op, b: Solo, since: nat, begun: nat)
    requires Safe(inst, ours, a, since, begun) && SoloStep(inst, a, Begin(op), b) && Allowed(inst, ours, a, Begin(op))
    ensures Safe(inst, ours, b, since, a.shared.db.now)
  {
    hide Ours, LastSafe;
  }

  lemma LoseLongLived(ours: set<string>, a: Db, b: Db, keys: set<string>, t: nat)
    requires Leaves(ours, a, b) && keys <= ours && LongLived(a, keys, t)
    ensures LongLived(b, keys, t)
  {
  }

  lemma CoveredOurs(inst: Inst, ours: set<string>, c: Configuration, ch: Choice, done: nat)
    requires Ours(inst, ours, c) && Shaped(ch) && done <= |StorePlan(c, ch)|
    ensures Covered(inst, StorePlan(c, ch)[..done]) <= ours
  {
    var p := StorePlan(c, ch);
    if KvOf(c).Some? {
      forall x | x in Covered(inst, p[..done]) ensures x in ours {
        var m :| m in p[..done] && (m.Put? || m.Stamp?) && x == if m.Put? then m.key else Sentinel(inst);
        hide WfConf, KvOf, FullPlan, Sentinel;
        assert m in p;
        PlanWrites(c, KvOf(c).value, ch, m);
        assert Sentinel(inst) in Wanted(inst, c);
      }
    } else {
      TracksQuiet(c, ch.replies, |SETS|);
      hide WfConf, KvOf, Tracks, Sentinel;
      forall m | m in p[..done] ensures !m.Put? && !m.Stamp? { assert m in p; }
      assert Covered(inst, p[..done]) == {};
    }
  }

  lemma ElsewhereSafe(inst: Inst, ours: set<string>, a: Solo, db: Db, b: Solo, since: nat, begun: nat)
    requires Safe(inst, ours, a, since, begun) && SoloStep(inst, a, Elsewhere(db), b) && Leaves(ours, a.shared.db, db)
    ensures Safe(inst, ours, b, since, begun)
  {
    hide WfConf, KvOf, StorePlan, Covered, LongLived, Wanted, Leaves, SetsKept;
    LeavesNow(ours, a.shared.db, db);
    if a.shared.last.Some? {
      LoseLongLived(ours, a.shared.db, db, Wanted(inst, a.shared.last.value), since + inst.ttl);
    }
    if a.current.Some? {
      var l := a.current.value.1;
      if l.Renewing? {
        LoseLongLived(ours, a.shared.db, db, Wanted(inst, a.shared.last.value) - l.todo, begun + inst.ttl);
      } else if l.Doing? {
        CoveredOurs(inst, ours, l.c, l.ch, l.done);
        LoseLongLived(ours, a.shared.db, db, Covered(inst, StorePlan(l.c, l.ch)[..l.done]), begun + inst.ttl);
      }
    }
  }

  lemma LeavesNow(ours: set<string>, a: Db, b: Db)
    requires Leaves(ours, a, b)
    ensures a.now <= b.now
  {
  }

  lemma StartSafe(inst: Inst, ours: set<string>, op: Op, s: Shared, l': Local, since: nat, begun: nat)
    requires LastKnown(s) && Starts(inst, op, s, l') && inst.ttl > 0 && since <= begun && LastSafe(inst, ours, s, since)
    requires CallSafe(inst, ours, s, op, Ready, begun)
    ensures CallSafe(inst, ours, s, op, l', begun)
    ensures l' == Done(true) ==> LastSafe(inst, ours, s, begun)
  {
    hide WfConf, KvOf, Possible, Wanted, Sentinel;
    match l'
    case Doing(c, ch, _, _) =>
      PossibleShaped(inst, s.db, c, ch);
      assert StorePlan(c, ch)[..0] == [];
    case Renewing(todo, _) => assert Wanted(inst, s.last.value) - todo == {};
    case Done(_) =>
    case Ready =>
  }

  lemma RenewSafe(inst: Inst, ours: set<string>, op: Op, s: Shared, l: Local, s': Shared, l': Local, since: nat,
                  begun: nat)
    requires l.Renewing? && Renews(inst, s, l, s', l') && inst.ttl > 0 && since <= begun <= s.db.now
    requires LastSafe(inst, ours, s, since) && CallSafe(inst, ours, s, op, l, begun)
    ensures CallSafe(inst, ours, s', op, l', begun) && s'.db.now == s.db.now
    ensures LastSafe(inst, ours, s', if l' == Done(true) then begun else since)
  {
    hide WfConf, KvOf, Possible, Wanted, Sentinel;
    var w := Wanted(inst, s.last.value);
    match l'
    case Done(ok) => if ok { assert w - l.todo == w; }
    case Doing(c, ch, _, _) =>
      PossibleShaped(inst, s.db, c, ch);
      assert StorePlan(c, ch)[..0] == [];
    case Renewing(todo, _) =>
      var k :| RenewsOne(inst, s, l, s', l', k);
      OneRenewed(s.db, w - l.todo, k, inst.ttl, begun + inst.ttl);
      OneRenewed(s.db, w, k, inst.ttl, since + inst.ttl);
      assert w - todo <= (w - l.todo) + {k};
      assert w <= w + {k};
    case Ready =>
  }

  lemma OneRenewed(db: Db, keys: set<string>, k: string, ttl: nat, t: nat)
    requires ttl > 0 && LongLived(db, keys, t) && t <= db.now + ttl
    ensures LongLived(db.PExpire(k, ttl), keys + {k}, t) && db.PExpire(k, ttl).now == db.now
  {
  }

  lemma StoreSafe(inst: Inst, ours: set<string>, op: Op, s: Shared, l: Local, s': Shared, l': Local, since: nat,
                  begun: nat)
    requires l.Doing? && Stores(inst, s, l, s', l') && inst.ttl > 0 && since <= begun <= s.db.now
    requires LastSafe(inst, ours, s, since) && CallSafe(inst, ours, s, op, l, begun)
    ensures CallSafe(inst, ours, s', op, l', begun) && s'.db.now == s.db.now
    ensures LastSafe(inst, ours, s', if l' == Done(true) then begun else since)
  {
    hide WfConf, KvOf, Possible, Wanted, Sentinel, Covered, LongLived, StorePlan, Do, Ours;
    if l'.Done? && l'.ok {
      StoreEnds(inst, ours, op, s, l, s', begun);
    } else if l'.Doing? {
      StoreGoes(inst, ours, op, s, l, s', l', since, begun);
    }
  }

  /** The store succeeds. */
  lemma StoreEnds(inst: Inst, ours: set<string>, op: Op, s: Shared, l: Local, s': Shared, begun: nat)
    requires l.Doing? && Stores(inst, s, l, s', Done(true)) && CallSafe(inst, ours, s, op, l, begun)
    ensures LastSafe(inst, ours, s', begun) && s'.db == s.db && CallSafe(inst, ours, s', op, Done(true), begun)
  {
    var p := StorePlan(l.c, l.ch);
    hide WfConf, KvOf, Possible, Wanted, Sentinel, Covered, LongLived, StorePlan, Do;
    AllCovered(inst, l.c, l.ch);
    assert p[..l.done] == p;
    FewerLongLived(s.db, Covered(inst, p), Wanted(inst, l.c), begun + inst.ttl);
  }

  lemma LastStaysSafe(inst: Inst, ours: set<string>, s: Shared, m: Micro, s': Shared, since: nat)
    requires LastSafe(inst, ours, s, since) && OneWrite(inst, s.db, m, s'.db) && s'.last == s.last && inst.ttl > 0
    requires since <= s.db.now
    ensures LastSafe(inst, ours, s', since)
  {
    hide WfConf, KvOf, Wanted, LongLived, OneWrite;
    if s.last.Some? {
      WriteKeeps(inst, s.db, m, s'.db, Wanted(inst, s.last.value), since + inst.ttl);
    }
  }

  lemma OneMore(inst: Inst, c: Configuration, ch: Choice, d: nat, a: Db, b: Db, t: nat)
    requires WfConf(c) && Shaped(ch) && d < |StorePlan(c, ch)| && OneWrite(inst, a, StorePlan(c, ch)[d], b)
    requires inst.ttl > 0 && t <= a.now + inst.ttl
    requires LongLived(a, Covered(inst, StorePlan(c, ch)[..d]), t)
    requires var m := StorePlan(c, ch)[d];
      && (m.Put? && m.key in b.strings ==> b.strings[m.key].deadline == a.Deadline(inst.ttl))
      && (m.Stamp? ==> Sentinel(inst) in b.strings && b.strings[Sentinel(inst)].deadline == a.Deadline(inst.ttl))
    ensures LongLived(b, Covered(inst, StorePlan(c, ch)[..d + 1]), t)
  {
    hide WfConf, StorePlan, Covered, LongLived, OneWrite, Sentinel;
    assert StorePlan(c, ch)[..d + 1] == StorePlan(c, ch)[..d] + [StorePlan(c, ch)[d]];
    CommandCovers(inst, a, StorePlan(c, ch)[..d], StorePlan(c, ch)[d], b, t);
  }

  /** The store goes on. */
  lemma StoreGoes(inst: Inst, ours: set<string>, op: Op, s: Shared, l: Local, s': Shared, l': Local, since: nat,
                  begun: nat)
    requires l.Doing? && l'.Doing? && Stores(inst, s, l, s', l') && inst.ttl > 0 && since <= begun <= s.db.now
    requires LastSafe(inst, ours, s, since) && CallSafe(inst, ours, s, op, l, begun)
    ensures CallSafe(inst, ours, s', op, l', begun) && s'.db.now == s.db.now && LastSafe(inst, ours, s', since)
  {
    hide WfConf, KvOf, Covered, LongLived, StorePlan, Do, OneWrite, LastSafe, Ours;
    var m := StorePlan(l.c, l.ch)[l.done];
    DoWrites(inst, Sys(s.db, l.halted), m);
    OneMore(inst, l.c, l.ch, l.done, s.db, s'.db, begun + inst.ttl);
    LastStaysSafe(inst, ours, s, m, s', since);
    SameNow(inst, s.db, m, s'.db);
  }

  lemma SameNow(inst: Inst, a: Db, m: Micro, b: Db)
    requires OneWrite(inst, a, m, b)
    ensures b.now == a.now
  {
  }

  lemma FewerLongLived(db: Db, a: set<string>, b: set<string>, t: nat)
    requires LongLived(db, a, t) && b <= a
    ensures LongLived(db, b, t)
  {
  }

  lemma CommandCovers(inst: Inst, a: Db, p: seq<Micro>, m: Micro, b: Db, t: nat)
    requires OneWrite(inst, a, m, b) && LongLived(a, Covered(inst, p), t) && t <= a.now + inst.ttl && inst.ttl > 0
    requires m.Put? && m.key in b.strings ==> b.strings[m.key].deadline == a.Deadline(inst.ttl)
    requires m.Stamp? ==> Sentinel(inst) in b.strings && b.strings[Sentinel(inst)].deadline == a.Deadline(inst.ttl)
    ensures LongLived(b, Covered(inst, p + [m]), t)
  {
    hide Sentinel, Covered;
    CoveredSnoc(inst, p, m);
    WriteKeeps(inst, a, m, b, Covered(inst, p), t);
  }

  lemma NextSafe(inst: Inst, ours: set<string>, a: Solo, b: Solo, since: nat, begun: nat)
    requires Safe(inst, ours, a, since, begun) && SoloStep(inst, a, SoloLabel.Next, b)
    ensures Safe(inst, ours, b, SinceNext(since, begun, SoloLabel.Next, b), begun)
  {
    var op, l, s, s', l' := a.current.value.0, a.current.value.1, a.shared, b.shared, b.current.value.1;
    hide LastSafe, CallSafe, Starts, Renews, Stores;
    match l
    case Ready => StartSafe(inst, ours, op, s, l', since, begun);
    case Renewing(_, _) => RenewSafe(inst, ours, op, s, l, s', l', since, begun);
    case Doing(_, _, _, _) => StoreSafe(inst, ours, op, s, l, s', l', since, begun);
  }

  lemma StepSafe(inst: Inst, ours: set<string>, a: Solo, e: SoloLabel, b: Solo, since: nat, begun: nat)
    requires Safe(inst, ours, a, since, begun) && SoloStep(inst, a, e, b) && Allowed(inst, ours, a, e)
    ensures Safe(inst, ours, b, SinceNext(since, begun, e, b), BegunNext(begun, a, e))
  {
    match e
    case Begin(op) => BeginSafe(inst, ours, a, op, b, since, begun);
    case Next => NextSafe(inst, ours, a, b, since, begun);
    case End =>
    case Elsewhere(db) => ElsewhereSafe(inst, ours, a, db, b, since, begun);
  }

  // ---------- whole traces of concurrent calls ----------

  /** When the call that holds the mutex got it. */
  function BegunAt(worlds: seq<World>, labels: seq<Label>, n: nat): nat
    requires n <= |labels| && n < |worlds|
  {
    if n == 0 then worlds[0].shared.db.now
    else
      var before, e := BegunAt(worlds, labels, n - 1), SerialOf(worlds[n - 1], labels[n - 1]);
      if e.None? then before else BegunNext(before, SoloOf(worlds[n - 1]), e.value)
  }

  /** When the last successful call got the mutex. */
  function SinceAt(worlds: seq<World>, labels: seq<Label>, n: nat): nat
    requires n <= |labels| && n < |worlds|
  {
    if n == 0 then worlds[0].shared.db.now
    else
      var before, e := SinceAt(worlds, labels, n - 1), SerialOf(worlds[n - 1], labels[n - 1]);
      if e.None? then before else SinceNext(before, BegunAt(worlds, labels, n - 1), e.value, SoloOf(worlds[n]))
  }

  ghost predicate AllAllowed(inst: Inst, ours: set<string>, worlds: seq<World>, labels: seq<Label>)
    requires |worlds| == |labels| + 1
  {
    forall i :: 0 <= i < |labels| ==>
      var e := SerialOf(worlds[i], labels[i]); e.Some? ==> Allowed(inst, ours, SoloOf(worlds[i]), e.value)
  }

  /** Goroutines may be waiting, but none has published yet. */
  ghost predicate Unpublished(inst: Inst, w: World)
  {
    inst.ttl > 0 && Exclusive(w) && w.owner.None? && w.shared.last.None?
  }

  lemma {:induction false} AlwaysSafe(inst: Inst, ours: set<string>, worlds: seq<World>, labels: seq<Label>, n: nat)
    requires IsTrace(inst, worlds, labels) && n <= |labels| && Unpublished(inst, worlds[0])
    requires AllAllowed(inst, ours, worlds, labels)
    ensures Safe(inst, ours, SoloOf(worlds[n]), SinceAt(worlds, labels, n), BegunAt(worlds, labels, n))
  {
    hide Safe, SoloStep, Allowed, WorldStep, SoloOf, SerialOf;
    if n == 0 {
      FirstSafe(inst, ours, worlds[0]);
    } else {
      AlwaysSafe(inst, ours, worlds, labels, n - 1);
      MutualExclusion(inst, worlds, labels, n - 1);
      StepSerial(inst, worlds[n - 1], labels[n - 1], worlds[n]);
      var e := SerialOf(worlds[n - 1], labels[n - 1]);
      if e.Some? {
        StepSafe(inst, ours, SoloOf(worlds[n - 1]), e.value, SoloOf(worlds[n]), SinceAt(worlds, labels, n - 1),
                 BegunAt(worlds, labels, n - 1));
      }
    }
  }

  lemma FirstSafe(inst: Inst, ours: set<string>, w: World)
    requires Unpublished(inst, w)
    ensures Safe(inst, ours, SoloOf(w), w.shared.db.now, w.shared.db.now)
  {
  }

  /** However slow and however interleaved the calls are: time less than a TTL after the last successful call got the
      mutex expires no key of the last configuration, nor the sentinel. */
  lemma SlowCallsExpireNothing(inst: Inst, ours: set<string>, worlds: seq<World>, labels: seq<Label>, n: nat, d: nat)
    requires IsTrace(inst, worlds, labels) && n <= |labels| && Unpublished(inst, worlds[0])
    requires AllAllowed(inst, ours, worlds, labels)
    requires worlds[n].shared.last.Some? && worlds[n].shared.db.now + d < SinceAt(worlds, labels, n) + inst.ttl
    ensures WfConf(worlds[n].shared.last.value) && KvOf(worlds[n].shared.last.value).Some?
    ensures Spared(worlds[n].shared.db, worlds[n].shared.db.Tick(d), Wanted(inst, worlds[n].shared.last.value))
  {
    hide WorldStep, AllAllowed, SinceAt, BegunAt;
    AlwaysSafe(inst, ours, worlds, labels, n);
    hide WfConf, KvOf, Wanted, CallSafe;
  }
}
