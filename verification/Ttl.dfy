/** TTL safety over whole runs: nothing of the last configuration expires while operations keep succeeding in time. */
module Ttl {
  import opened Paths
  import opened Values
  import opened Config
  import opened Published
  import opened Redis
  import opened Plan
  import opened Removal
  import opened ClosedForm
  import opened Ownership
  import opened KeepAlive

  /** `since`: when an operation last succeeded. */
  datatype Site = Site(db: Db, last: Option<Configuration>, since: nat)

  datatype Happening =
    | Publish(c: Configuration, ch: Choice, done: nat, ok: bool)
    | KeepCall(k: Keep, ok: bool)
    | Pass(d: nat)
    | Vanish(db: Db)

  ghost predicate LastWf(s: Site)
  {
    s.last.Some? ==> WfConf(s.last.value)
  }

  /** Anything lost from outside, up to a flush of the whole database; the sets are whatever is found afterwards. */
  ghost predicate Loses(a: Db, b: Db)
  {
    b.now == a.now && ValidDb(b) && forall k :: k in b.strings ==> k in a.strings && b.strings[k] == a.strings[k]
  }

  ghost predicate Next(inst: Inst, a: Site, e: Happening, b: Site)
  {
    && LastWf(a)
    && match e
       case Publish(c, ch, done, ok) =>
         && WfConf(c) && ValidDb(a.db) && StoreStep(inst, a.db, c, ch, done, b.db, ok)
         && b.last == (if ok then Some(c) else a.last) && b.since == if ok then a.db.now else a.since
       case KeepCall(k, ok) =>
         && ValidDb(a.db) && KeepStep(inst, a.db, a.last, k, b.db, ok)
         && b.last == a.last && b.since == if ok then a.db.now else a.since
       case Pass(d) => b == a.(db := a.db.Tick(d))
       case Vanish(db) => Loses(a.db, db) && b == a.(db := db)
  }

  ghost predicate IsHistory(inst: Inst, sites: seq<Site>, events: seq<Happening>)
  {
    |sites| == |events| + 1 && forall i :: 0 <= i < |events| ==> Next(inst, sites[i], events[i], sites[i + 1])
  }

  predicate Outlives(i: Item, t: nat)
  {
    i.deadline.None? || t <= i.deadline.value
  }

  /** Every key of the last configuration that is still there lasts a full TTL beyond the last success. */
  ghost predicate Fresh(inst: Inst, s: Site)
  {
    && inst.ttl > 0 && s.since <= s.db.now && ValidDb(s.db) && LastWf(s)
    && (s.last.Some? ==> KvOf(s.last.value).Some? && Lasting(inst, s))
  }

  ghost predicate Lasting(inst: Inst, s: Site)
    requires LastWf(s) && s.last.Some? && KvOf(s.last.value).Some?
  {
    forall k :: k in Wanted(inst, s.last.value) && k in s.db.strings ==> Outlives(s.db.strings[k], s.since + inst.ttl)
  }

  /** A store or renewal, complete or cut, leaves each key as it was or gives it the full TTL. */
  ghost predicate KeptOrFull(inst: Inst, a: Db, b: Db)
  {
    && b.now == a.now
    && forall k :: k in b.strings ==>
         (k in a.strings && b.strings[k] == a.strings[k]) || b.strings[k].deadline == a.Deadline(inst.ttl)
  }

  lemma StoreKeptOrFull(inst: Inst, db: Db, c: Configuration, ch: Choice, done: nat, db': Db, ok: bool)
    requires WfConf(c) && StoreStep(inst, db, c, ch, done, db', ok)
    ensures KeptOrFull(inst, db, db')
  {
    PossibleShaped(inst, db, c, ch);
    var p := StorePlan(c, ch)[..done];
    hide Run, StorePlan, Possible, KvOf, WfConf, Sentinel;
    RunNow(inst, Sys(db, false), p);
    forall k | k in db'.strings
      ensures (k in db.strings && db'.strings[k] == db.strings[k]) || db'.strings[k].deadline == db.Deadline(inst.ttl)
    {
      RunOnlyWrites(inst, Sys(db, false), p, k);
    }
  }

  lemma KeepKeptOrFull(inst: Inst, db: Db, last: Option<Configuration>, k: Keep, db': Db, ok: bool)
    requires last.Some? ==> WfConf(last.value)
    requires KeepStep(inst, db, last, k, db', ok) && ValidDb(db)
    ensures KeptOrFull(inst, db, db') && ValidDb(db')
  {
    hide StoreStep, KvOf, WfConf, Sentinel;
    if last.Some? && k.Restore? {
      var db1 := if k.renewed then Renewed(db, Wanted(inst, last.value), inst.ttl) else db;
      SameSetsValid(db, db1);
      StoreKeptOrFull(inst, db1, last.value, k.ch, k.done, db', ok);
      StoreValid(inst, db1, last.value, k.ch, k.done, db', ok);
    } else if last.Some? && k.Renew? {
      SameSetsValid(db, db');
    }
  }

  lemma KeptStaysFresh(inst: Inst, a: Site, b: Site)
    requires Fresh(inst, a) && KeptOrFull(inst, a.db, b.db) && ValidDb(b.db) && b.last == a.last && b.since == a.since
    ensures Fresh(inst, b)
  {
    hide KvOf, WfConf, Sentinel, ValidDb;
  }

  lemma PublishFull(inst: Inst, db: Db, c: Configuration, ch: Choice, done: nat, db': Db)
    requires WfConf(c) && ValidDb(db) && StoreStep(inst, db, c, ch, done, db', true)
    ensures KvOf(c).Some? && db'.now == db.now
    ensures forall s :: s in Wanted(inst, c) ==> s in db'.strings && db'.strings[s].deadline == db.Deadline(inst.ttl)
  {
    hide Run, FullPlan, Possible, KvOf, WfConf, ValidDb, Sentinel;
    PossibleShaped(inst, db, c, ch);
    RestoreEffect(inst, db, c, KvOf(c).value, ch, done, db');
  }

  /** One event keeps the remaining keys fresh; a success makes all of them fresh. */
  lemma NextFresh(inst: Inst, a: Site, e: Happening, b: Site)
    requires Fresh(inst, a) && Next(inst, a, e, b)
    ensures Fresh(inst, b)
  {
    hide KvOf, WfConf, Sentinel, StoreStep, KeepStep, ValidDb;
    match e
    case Publish(c, ch, done, ok) =>
      StoreKeptOrFull(inst, a.db, c, ch, done, b.db, ok);
      StoreValid(inst, a.db, c, ch, done, b.db, ok);
      if ok {
        PublishFull(inst, a.db, c, ch, done, b.db);
      } else {
        KeptStaysFresh(inst, a, b);
      }
    case KeepCall(k, ok) =>
      KeepKeptOrFull(inst, a.db, a.last, k, b.db, ok);
      if ok && a.last.Some? {
        Recovery(inst, a.db, a.last.value, k, b.db);
      } else if a.last.Some? {
        KeptStaysFresh(inst, a, b);
      }
    case Pass(d) => SameSetsValid(a.db, b.db);
    case Vanish(_) =>
  }

  lemma {:induction false} HistoryFresh(inst: Inst, sites: seq<Site>, events: seq<Happening>, i: nat)
    requires IsHistory(inst, sites, events) && Fresh(inst, sites[0]) && i < |sites|
    ensures Fresh(inst, sites[i])
  {
    if i > 0 {
      hide Next, Fresh;
      HistoryFresh(inst, sites, events, i - 1);
      NextFresh(inst, sites[i - 1], events[i - 1], sites[i]);
    }
  }

  /** The next success would still come less than a TTL after the last one. */
  predicate Timely(inst: Inst, a: Site, e: Happening)
  {
    e.Pass? ==> a.db.now + e.d < a.since + inst.ttl
  }

  ghost predicate Spared(a: Db, b: Db, keys: set<string>)
  {
    forall k :: k in keys && k in a.strings ==> k in b.strings && b.strings[k] == a.strings[k]
  }

  /** In any run, whatever fails or is lost in it, time that passes less than a TTL after the last successful
      operation expires no key of the last configuration, nor the sentinel. */
  lemma NothingExpires(inst: Inst, sites: seq<Site>, events: seq<Happening>, i: nat)
    requires IsHistory(inst, sites, events) && Fresh(inst, sites[0])
    requires i < |events| && events[i].Pass? && Timely(inst, sites[i], events[i]) && sites[i].last.Some?
    ensures LastWf(sites[i]) && KvOf(sites[i].last.value).Some?
    ensures Spared(sites[i].db, sites[i + 1].db, Wanted(inst, sites[i].last.value))
  {
    HistoryFresh(inst, sites, events, i);
    hide KvOf, WfConf, Sentinel, Wanted, ValidDb, StoreStep, KeepStep;
    assert Next(inst, sites[i], events[i], sites[i + 1]);
  }

  // ---------- everything stays published ----------

  ghost predicate Intact(inst: Inst, s: Site)
  {
    && Fresh(inst, s)
    && (s.last.Some? ==> Wanted(inst, s.last.value) <= s.db.strings.Keys)
  }

  /** A KeepConfAlive that fails while everything is there deletes nothing and shortens nothing. */
  lemma FailedKeepHarmless(inst: Inst, db: Db, c: Configuration, k: Keep, db': Db, s: string)
    requires WfConf(c) && KvOf(c).Some? && Wanted(inst, c) <= db.strings.Keys
    requires KeepStep(inst, db, Some(c), k, db', false) && s in db.strings
    ensures s in db'.strings && db'.strings[s].value == db.strings[s].value
    ensures db'.strings[s].deadline == db.strings[s].deadline
            || (s in Wanted(inst, c) && db'.strings[s].deadline == Some(db.now + inst.ttl))
    ensures db'.strings.Keys == db.strings.Keys && db'.sets == db.sets
  {
    hide KvOf, WfConf, StoreStep, Sentinel;
    assert Sentinel(inst) in Wanted(inst, c);
    if k.Restore? { assert false; }
  }

  /** No dropped name is a name of the configuration up to "@docker". */
  ghost predicate Apart(inst: Inst, db: Db, c: Configuration)
  {
    forall i, n, m :: 0 <= i < |SETS| && n in Dropped(inst, db, c, SETS[i]) && m in Names(c, SETS[i]) ==>
      Plain(n) && StripDocker(n) != StripDocker(m)
  }

  lemma ApartAt(inst: Inst, db: Db, c: Configuration, i: nat, n: string, m: string)
    requires Apart(inst, db, c) && i < |SETS| && n in Dropped(inst, db, c, SETS[i]) && m in Names(c, SETS[i])
    ensures Plain(n) && StripDocker(n) != StripDocker(m)
  {
    hide Dropped, Names;
  }

  lemma SentinelUnserved(inst: Inst, proto: string, name: string)
    ensures !(ServersPrefix(proto, name) <= Sentinel(inst))
  {
    assert Sentinel(inst)[7] == "traefik_"[7] == '_';
    assert ServersPrefix(proto, name)[7] == "traefik/"[7] == '/';
  }

  lemma DroppedSpares(inst: Inst, db: Db, c: Configuration, i: nat, name: string, k: string)
    requires WfConf(c) && KvOf(c).Some? && Apart(inst, db, c) && i < |SETS| && name in Dropped(inst, db, c, SETS[i])
    requires k in Wanted(inst, c)
    ensures !Under(SETS[i], name, k)
  {
    hide KvOf, WfConf, Names, Dropped, Sentinel;
    if Under(SETS[i], name, k) {
      SentinelOutside(inst, SETS[i]);
      var m := TrackedKeyHasName(c, SETS[i], k);
      UnderUnique(SETS[i], m, SETS[i], name, k);
    }
  }

  /** No command of a store deletes what the store is about to publish. */
  lemma PlanSpares(inst: Inst, db: Db, c: Configuration, ch: Choice, m: Micro, k: string)
    requires WfConf(c) && KvOf(c).Some? && Possible(inst, db, c, ch) && Shaped(ch) && Apart(inst, db, c)
    requires PlainDrops(inst, db, c) && m in StorePlan(c, ch) && k in Wanted(inst, c)
    ensures Spares(m, k)
  {
    hide Sentinel, Dropped, Under, Apart, KvOf, WfConf, FullPlan, Possible, ServersPrefix, Names;
    PlanWrites(c, KvOf(c).value, ch, m);
    if m.Stale? {
      SentinelUnserved(inst, m.proto, m.name);
    } else if m.Remove? {
      var i := RemoveComesFrom(inst, db, c, KvOf(c).value, ch, m);
      DroppedSpares(inst, db, c, i, m.name, k);
    }
  }

  lemma RemoveComesFrom(inst: Inst, db: Db, c: Configuration, kv: map<string, string>, ch: Choice, m: Micro)
    returns (i: nat)
    requires Possible(inst, db, c, ch) && Shaped(ch) && m in FullPlan(c, kv, ch) && m.Remove?
    ensures i < |SETS| && m.sn == SETS[i] && m.name in Dropped(inst, db, c, SETS[i])
  {
    TracksQuietNoStale(c, ch.replies, |SETS|);
    StalesKept(ch.services, kv.Keys, |PROTO_ORDER|);
    hide Tracks, AllStales, Names, SortedSeq, Dropped;
    assert m in TrackPlan(c, ch);
    i :| 0 <= i < |SETS| && m.sn == SETS[i] && m.name in ch.replies[i];
  }

  ghost predicate PlainDrops(inst: Inst, db: Db, c: Configuration)
  {
    forall i :: 0 <= i < |SETS| ==> PlainNames(Dropped(inst, db, c, SETS[i]))
  }

  /** A store, complete or cut anywhere, never deletes a key that the stored configuration publishes. */
  lemma StoreCutKeeps(inst: Inst, db: Db, c: Configuration, ch: Choice, done: nat, db': Db, ok: bool, k: string)
    requires WfConf(c) && KvOf(c).Some? && StoreStep(inst, db, c, ch, done, db', ok)
    requires Apart(inst, db, c) && PlainDrops(inst, db, c) && k in Wanted(inst, c) && k in db.strings
    ensures k in db'.strings
  {
    PossibleShaped(inst, db, c, ch);
    var p := StorePlan(c, ch)[..done];
    hide Run, StorePlan, Possible, KvOf, WfConf, Sentinel, Apart, PlainDrops, Spares, Wanted;
    forall m | m in p ensures Spares(m, k) {
      PlanSpares(inst, db, c, ch, m, k);
    }
    RunKeeps(inst, Sys(db, false), p, k);
  }

  /** However much has been lost and wherever a KeepConfAlive fails, it deletes and shortens no key of its
      configuration: each keeps its deadline or gets the full TTL. */
  lemma FailedKeepKeeps(inst: Inst, db: Db, c: Configuration, k: Keep, db': Db, s: string)
    requires WfConf(c) && KvOf(c).Some? && KeepStep(inst, db, Some(c), k, db', false) && ValidDb(db)
    requires Apart(inst, db, c) && PlainDrops(inst, db, c) && s in Wanted(inst, c) && s in db.strings
    ensures s in db'.strings
    ensures db'.strings[s].deadline == db.strings[s].deadline || db'.strings[s].deadline == db.Deadline(inst.ttl)
  {
    hide KvOf, WfConf, StoreStep, Sentinel, Wanted, Apart, PlainDrops;
    if k.Restore? {
      var db1 := if k.renewed then Renewed(db, Wanted(inst, c), inst.ttl) else db;
      SameDrops(inst, db, db1, c);
      StoreCutKeeps(inst, db1, c, k.ch, k.done, db', false, s);
      StoreKeptOrFull(inst, db1, c, k.ch, k.done, db', false);
    }
  }

  lemma SameDrops(inst: Inst, a: Db, b: Db, c: Configuration)
    requires a.sets == b.sets && Apart(inst, a, c) && PlainDrops(inst, a, c)
    ensures Apart(inst, b, c) && PlainDrops(inst, b, c)
  {
    hide SetKey, NewKey, Names;
    forall i | 0 <= i < |SETS| ensures Dropped(inst, b, c, SETS[i]) == Dropped(inst, a, c, SETS[i]) {}
    hide Dropped;
  }

  predicate Undisturbed(e: Happening)
  {
    !e.Vanish? && (e.Publish? ==> e.ok)
  }

  lemma NextIntact(inst: Inst, a: Site, e: Happening, b: Site)
    requires Intact(inst, a) && Next(inst, a, e, b) && Undisturbed(e) && Timely(inst, a, e)
    ensures Intact(inst, b)
  {
    NextFresh(inst, a, e, b);
    hide KvOf, WfConf, Sentinel, StoreStep, KeepStep, ValidDb, Wanted;
    match e
    case Publish(c, ch, done, ok) => PublishFull(inst, a.db, c, ch, done, b.db);
    case KeepCall(k, ok) =>
      if a.last.Some? {
        if ok {
          Recovery(inst, a.db, a.last.value, k, b.db);
        } else {
          forall s | s in Wanted(inst, a.last.value) ensures s in b.db.strings {
            FailedKeepHarmless(inst, a.db, a.last.value, k, b.db, s);
          }
        }
      }
    case Pass(d) =>
  }

  /** Without deletions from outside and failed stores, but with any number of failed renewals, everything that
      was last published is there at every moment, as long as successes come less than a TTL apart. */
  lemma {:induction false} StaysIntact(inst: Inst, sites: seq<Site>, events: seq<Happening>, i: nat)
    requires IsHistory(inst, sites, events) && Intact(inst, sites[0]) && i < |sites|
    requires forall j :: 0 <= j < |events| ==> Undisturbed(events[j]) && Timely(inst, sites[j], events[j])
    ensures Intact(inst, sites[i])
  {
    if i > 0 {
      hide Next, Intact, Undisturbed, Timely;
      StaysIntact(inst, sites, events, i - 1);
      NextIntact(inst, sites[i - 1], events[i - 1], sites[i]);
    }
  }

  // ---------- the renewal schedule of Start ----------

  function Interval(inst: Inst): nat
  {
    inst.ttl / 3
  }

  lemma IntervalSpelled(inst: Inst)
    ensures 3 * Interval(inst) <= inst.ttl < 3 * Interval(inst) + 3
  {
  }

  /** The moment of the last tick before site n; Start publishes before the first. */
  function TickTime(sites: seq<Site>, ticks: set<nat>, n: nat): nat
    requires n < |sites|
  {
    if n == 0 then sites[0].db.now else if n - 1 in ticks then sites[n].db.now else TickTime(sites, ticks, n - 1)
  }

  /** Whether that tick's KeepConfAlive succeeded. */
  function TickOk(events: seq<Happening>, ticks: set<nat>, n: nat): bool
    requires n <= |events|
  {
    if n == 0 then true
    else if n - 1 in ticks then events[n - 1].KeepCall? && events[n - 1].ok
    else TickOk(events, ticks, n - 1)
  }

  /** keepStoreAlive among everything else: `ticks` are its KeepConfAlive calls, at most an interval apart. Stores and
      the poller's calls may come at any time in between. */
  ghost predicate Ticking(inst: Inst, sites: seq<Site>, events: seq<Happening>, ticks: set<nat>)
  {
    && |sites| == |events| + 1
    && (forall t :: t in ticks ==> t < |events| && events[t].KeepCall?)
    && (forall n :: 0 <= n < |sites| ==> sites[n].db.now <= TickTime(sites, ticks, n) + Interval(inst))
  }

  /** No two consecutive ticks fail. */
  ghost predicate NoTwoFailures(events: seq<Happening>, ticks: set<nat>)
  {
    forall t :: t in ticks && t < |events| && events[t].KeepCall? && !events[t].ok ==> TickOk(events, ticks, t)
  }

  /** The last tick is never more than an interval, if it failed, or nothing, if it succeeded, ahead of the last
      success. */
  ghost predicate Lagging(inst: Inst, sites: seq<Site>, events: seq<Happening>, ticks: set<nat>, n: nat)
    requires n < |sites| && n <= |events|
  {
    TickTime(sites, ticks, n) <= sites[n].since + (if TickOk(events, ticks, n) then 0 else Interval(inst))
  }

  /** `since` never goes back, and a success sets it to the present. */
  lemma SinceGrows(inst: Inst, a: Site, e: Happening, b: Site)
    requires Fresh(inst, a) && Next(inst, a, e, b)
    ensures a.since <= b.since && (e.KeepCall? ==> b.db.now == a.db.now && (e.ok ==> b.since == b.db.now))
  {
    hide KvOf, WfConf, StoreStep, KeepStep, ValidDb;
    if e.KeepCall? { KeepKeptOrFull(inst, a.db, a.last, e.k, b.db, e.ok); }
  }

  lemma {:induction false} AlwaysLagging(inst: Inst, sites: seq<Site>, events: seq<Happening>, ticks: set<nat>, n: nat)
    requires IsHistory(inst, sites, events) && Ticking(inst, sites, events, ticks) && NoTwoFailures(events, ticks)
    requires Fresh(inst, sites[0]) && sites[0].since == sites[0].db.now && n < |sites|
    ensures Lagging(inst, sites, events, ticks, n)
  {
    hide Next, Fresh, Interval;
    if n > 0 {
      AlwaysLagging(inst, sites, events, ticks, n - 1);
      HistoryFresh(inst, sites, events, n - 1);
      SinceGrows(inst, sites[n - 1], events[n - 1], sites[n]);
    }
  }

  lemma TwoIntervals(inst: Inst)
    requires inst.ttl > 0
    ensures 2 * Interval(inst) < inst.ttl
  {
  }

  lemma FreshTtl(inst: Inst, s: Site)
    requires Fresh(inst, s)
    ensures inst.ttl > 0
  {
  }

  lemma TickingTimely(inst: Inst, sites: seq<Site>, events: seq<Happening>, ticks: set<nat>, n: nat)
    requires IsHistory(inst, sites, events) && Ticking(inst, sites, events, ticks) && NoTwoFailures(events, ticks)
    requires Fresh(inst, sites[0]) && sites[0].since == sites[0].db.now && n < |events|
    ensures Timely(inst, sites[n], events[n])
  {
    hide Fresh, Interval, TickOk, NoTwoFailures;
    AlwaysLagging(inst, sites, events, ticks, n);
    FreshTtl(inst, sites[0]);
    TwoIntervals(inst);
    if events[n].Pass? {
      assert n !in ticks;
      PassTime(inst, sites, events, n);
      assert TickTime(sites, ticks, n + 1) == TickTime(sites, ticks, n);
    }
  }

  lemma PassTime(inst: Inst, sites: seq<Site>, events: seq<Happening>, n: nat)
    requires IsHistory(inst, sites, events) && n < |events| && events[n].Pass?
    ensures sites[n + 1].db.now == sites[n].db.now + events[n].d
  {
    hide StoreStep, KeepStep, WfConf;
    assert Next(inst, sites[n], events[n], sites[n + 1]);
  }

  /** Renewing every third of the TTL tolerates one failed renewal between two successful ones, whatever stores and
      other renewals happen in between: nothing that was published is ever gone. */
  lemma OneFailureTolerated(inst: Inst, sites: seq<Site>, events: seq<Happening>, ticks: set<nat>, n: nat)
    requires IsHistory(inst, sites, events) && Ticking(inst, sites, events, ticks) && NoTwoFailures(events, ticks)
    requires Intact(inst, sites[0]) && sites[0].since == sites[0].db.now && n < |sites|
    requires forall i :: 0 <= i < |events| ==> Undisturbed(events[i])
    ensures Intact(inst, sites[n])
  {
    hide Next, NoTwoFailures, Ticking, Undisturbed, Timely, Fresh;
    forall i | 0 <= i < |events| ensures Timely(inst, sites[i], events[i]) {
      TickingTimely(inst, sites, events, ticks, i);
    }
    StaysIntact(inst, sites, events, n);
  }
}
