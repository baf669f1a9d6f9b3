/** Renewal, recovery and expiry: what KeepConfAlive restores, and why published keys do not expire. */
module KeepAlive {
  import opened Paths
  import opened Values
  import opened Config
  import opened Published
  import opened Redis
  import opened Plan
  import opened ClosedForm

  // ---------- what a plan can write and what it can delete ----------

  /** After any commands, a key is as before or as the plan wrote it. */
  lemma {:induction false} RunOnlyWrites(inst: Inst, y: Sys, p: seq<Micro>, k: string)
    requires k in Run(inst, y, p).db.strings
    ensures Run(inst, y, p).db.now == y.db.now
    ensures var i := Run(inst, y, p).db.strings[k];
      || (k in y.db.strings && i == y.db.strings[k])
      || (exists v :: Put(k, v) in p && i == Item(v, y.db.Deadline(inst.ttl)))
      || (k == Sentinel(inst) && exists t :: Stamp(t) in p && i == Item(t, y.db.Deadline(inst.ttl)))
  {
    RunNow(inst, y, p);
    if p != [] {
      var n := |p| - 1;
      var a, m := Run(inst, y, p[..n]), p[n];
      RunNow(inst, y, p[..n]);
      hide Sentinel, SetKey, NewKey, K, ServersPrefix;
      assert p == p[..n] + [m];
      if m == Put(k, if m.Put? then m.value else "") || (m.Stamp? && k == Sentinel(inst)) {
      } else {
        assert k in a.db.strings && Run(inst, y, p).db.strings[k] == a.db.strings[k];
        RunOnlyWrites(inst, y, p[..n], k);
      }
    }
  }

  lemma {:induction false} RunNow(inst: Inst, y: Sys, p: seq<Micro>)
    ensures Run(inst, y, p).db.now == y.db.now
  {
    if p != [] {
      hide SetKey, NewKey, K, ServersPrefix, Sentinel;
      RunNow(inst, y, p[..|p| - 1]);
    }
  }

  /** The command cannot delete the key. */
  predicate Spares(m: Micro, k: string)
  {
    match m
    case Remove(sn, name) => Tracked(sn) && Plain(name) && !Under(sn, name, k)
    case Stale(proto, name, kept) => k in kept || !(ServersPrefix(proto, name) <= k)
    case Add(_, _) => true
    case Put(_, _) => true
    case Swap(_) => true
    case Stamp(_) => true
  }

  lemma SparesStep(inst: Inst, y: Sys, m: Micro, k: string)
    requires Spares(m, k) && k in y.db.strings
    ensures k in Do(inst, y, m).db.strings
  {
    if m.Remove? { GlobIsUnder(m.sn, m.name, k); }
  }

  lemma {:induction false} RunKeeps(inst: Inst, y: Sys, p: seq<Micro>, k: string)
    requires k in y.db.strings && forall m :: m in p ==> Spares(m, k)
    ensures k in Run(inst, y, p).db.strings
  {
    if p != [] {
      hide Do, Spares;
      RunKeeps(inst, y, p[..|p| - 1], k);
      SparesStep(inst, Run(inst, y, p[..|p| - 1]), p[|p| - 1], k);
    }
  }

  // ---------- what a complete store leaves ----------

  /** The writes of the plan are those of the rendering. */
  lemma PlanWrites(c: Configuration, kv: map<string, string>, ch: Choice, m: Micro)
    requires Shaped(ch) && m in FullPlan(c, kv, ch)
    ensures m.Put? ==> m.key in kv && m.value == kv[m.key]
    ensures m.Stale? ==> m.kept == kv.Keys
  {
    TracksQuietNoStale(c, ch.replies, |SETS|);
    StalesKept(ch.services, kv.Keys, |PROTO_ORDER|);
    hide Tracks, AllStales, Names, SortedSeq;
    assert m in TrackPlan(c, ch) || m in WritePlan(kv) || m in CleanPlan(kv, ch) || m in Swaps(|SETS|)
           || m == Stamp(ch.stamp);
  }

  lemma {:induction false} TracksQuietNoStale(c: Configuration, replies: seq<seq<string>>, n: nat)
    requires n <= |SETS| && n <= |replies|
    ensures forall m :: m in Tracks(c, replies, n) ==>
      m.Add? || (m.Remove? && exists i :: 0 <= i < n && m.sn == SETS[i] && m.name in replies[i])
  {
    if n > 0 {
      hide Names;
      TracksQuietNoStale(c, replies, n - 1);
    }
  }

  lemma {:induction false} StalesKept(services: seq<seq<string>>, kept: set<string>, n: nat)
    requires n <= |services| && n <= |PROTO_ORDER|
    ensures forall m :: m in AllStales(services, kept, n) ==> m.Stale? && m.kept == kept
  {
    if n > 0 {
      StalesKept(services, kept, n - 1);
    }
  }

  /** A complete store writes every key of the rendering and the sentinel, with the configured TTL,
      and neither creates nor changes any other string key. */
  lemma FullStoreEffect(inst: Inst, db: Db, c: Configuration, kv: map<string, string>, ch: Choice)
    requires Possible(inst, db, c, ch) && ValidDb(db) && Shaped(ch)
    ensures var r := Run(inst, Sys(db, false), FullPlan(c, kv, ch)).db; var dl := db.Deadline(inst.ttl);
      && r.now == db.now
      && Sentinel(inst) in r.strings && r.strings[Sentinel(inst)] == Item(ch.stamp, dl)
      && (forall k :: k in kv && k != Sentinel(inst) ==> k in r.strings && r.strings[k] == Item(kv[k], dl))
      && (forall k :: k in r.strings && k !in kv && k != Sentinel(inst) ==>
            k in db.strings && r.strings[k] == db.strings[k])
  {
    var y0, r := Sys(db, false), Run(inst, Sys(db, false), FullPlan(c, kv, ch)).db;
    StoreKeeps(inst, db, c, kv, ch);
    forall k | k in r.strings && k !in kv && k != Sentinel(inst)
      ensures k in db.strings && r.strings[k] == db.strings[k]
    {
      hide Run, FullPlan, Sentinel;
      RunOnlyWrites(inst, y0, FullPlan(c, kv, ch), k);
      if v :| Put(k, v) in FullPlan(c, kv, ch) {
        PlanWrites(c, kv, ch, Put(k, v));
        assert false;
      }
    }
  }

  lemma StoreKeeps(inst: Inst, db: Db, c: Configuration, kv: map<string, string>, ch: Choice)
    requires Possible(inst, db, c, ch) && ValidDb(db) && Shaped(ch)
    ensures var r := Run(inst, Sys(db, false), FullPlan(c, kv, ch)).db; var dl := db.Deadline(inst.ttl);
      && r.now == db.now
      && Sentinel(inst) in r.strings && r.strings[Sentinel(inst)] == Item(ch.stamp, dl)
      && (forall k :: k in kv && k != Sentinel(inst) ==> k in r.strings && r.strings[k] == Item(kv[k], dl))
  {
    hide Run, Do, Possible, FullPlan, TrackPlan, WritePlan, CleanPlan, Swaps, Swapped, Names, ValidDb, Sentinel,
      ServerKey;
    var y1, y2, y3, y4 := StoreStages(inst, Sys(db, false), c, kv, ch);
    TrackPlanValid(inst, db, c, ch);
    WriteStage(inst, y1, kv);
    CleanStage(inst, db, y2, c, ch, kv);
    SameSetsValid(y1.db, y3.db);
    SwapsRun(inst, y3, |SETS|);
    StampStrings(inst, y4, ch.stamp);
  }

  // ---------- recovery ----------

  /** An error-free KeepConfAlive with a TTL leaves everything of the last configuration present with the
      full TTL, from whatever was lost; it creates and changes no other string key. */
  lemma Recovery(inst: Inst, db: Db, c: Configuration, k: Keep, db': Db)
    requires WfConf(c) && ValidDb(db) && KeepStep(inst, db, Some(c), k, db', true) && inst.ttl > 0
    ensures KvOf(c).Some? && db'.now == db.now
    ensures forall s :: s in Wanted(inst, c) ==> s in db'.strings && db'.strings[s].deadline == Some(db.now + inst.ttl)
    ensures forall s :: s in db'.strings && s !in Wanted(inst, c) ==> s in db.strings && db'.strings[s] == db.strings[s]
  {
    hide Run, FullPlan, TrackPlan, Possible, KvOf, WfConf, ValidDb, Sentinel;
    match k
    case Renew(applied, complete) =>
    case Restore(renewed, ch, done) =>
      var db1 := if renewed then Renewed(db, Wanted(inst, c), inst.ttl) else db;
      SameSetsValid(db, db1);
      PossibleShaped(inst, db1, c, ch);
      RestoreEffect(inst, db1, c, KvOf(c).value, ch, done, db');
  }

  lemma RestoreEffect(inst: Inst, db: Db, c: Configuration, kv: map<string, string>, ch: Choice, done: nat, db': Db)
    requires WfConf(c) && KvOf(c) == Some(kv) && Shaped(ch) && ValidDb(db)
    requires StoreStep(inst, db, c, ch, done, db', true)
    ensures var dl := db.Deadline(inst.ttl);
      && db'.now == db.now
      && Sentinel(inst) in db'.strings && db'.strings[Sentinel(inst)] == Item(ch.stamp, dl)
      && (forall k :: k in kv && k != Sentinel(inst) ==> k in db'.strings && db'.strings[k] == Item(kv[k], dl))
      && (forall k :: k in db'.strings && k !in kv && k != Sentinel(inst) ==>
            k in db.strings && db'.strings[k] == db.strings[k])
  {
    hide Run, FullPlan, TrackPlan, Possible, KvOf, WfConf, ValidDb, Sentinel;
    assert FullPlan(c, kv, ch)[..done] == FullPlan(c, kv, ch);
    FullStoreEffect(inst, db, c, kv, ch);
  }

  /** Without a TTL the check rests on the sentinel alone: KeepConfAlive restores everything when the sentinel
      was lost, and does nothing when it was not. */
  lemma RecoveryWithoutTtl(inst: Inst, db: Db, c: Configuration, k: Keep, db': Db)
    requires WfConf(c) && ValidDb(db) && KeepStep(inst, db, Some(c), k, db', true) && inst.ttl == 0
    ensures Sentinel(inst) in db.strings ==> db' == db
    ensures Sentinel(inst) !in db.strings ==>
      KvOf(c).Some? && forall s :: s in Wanted(inst, c) ==> s in db'.strings && db'.strings[s].deadline == None
  {
    hide Run, FullPlan, TrackPlan, Possible, KvOf, WfConf, ValidDb, Sentinel;
    if Sentinel(inst) !in db.strings {
      PossibleShaped(inst, db, c, k.ch);
      RestoreEffect(inst, db, c, KvOf(c).value, k.ch, k.done, db');
    }
  }

  /** So without a TTL, all keys are back after an error-free KeepConfAlive exactly when none was missing
      or the sentinel was missing too. */
  lemma RecoveryWithoutTtlIff(inst: Inst, db: Db, c: Configuration, k: Keep, db': Db)
    requires WfConf(c) && ValidDb(db) && KeepStep(inst, db, Some(c), k, db', true) && inst.ttl == 0 && KvOf(c).Some?
    ensures Wanted(inst, c) <= db'.strings.Keys <==> Sentinel(inst) !in db.strings || Wanted(inst, c) <= db.strings.Keys
  {
    hide KvOf, WfConf, ValidDb, Sentinel, KeepStep;
    RecoveryWithoutTtl(inst, db, c, k, db');
  }
}
