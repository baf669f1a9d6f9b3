/** Runs that start clean stay clean: without failed stores and outside interference the tracking sets are always
    the names of the last configuration. A Store is then the closed-form update when the names it drops published
    something, and in general exactly when of each set's dropped names all or none have keys. */
module CleanRuns {
  import opened Paths
  import opened Values
  import opened Config
  import opened Published
  import opened Redis
  import opened Plan
  import opened Removal
  import opened ClosedForm
  import opened Ownership
  import opened Ttl
  import opened Leak

  ghost predicate Emits(c: Configuration, sn: SetName, n: string)
    requires WfConf(c) && KvOf(c).Some?
  {
    exists k :: k in KvOf(c).value && Under(sn, n, k)
  }

  ghost predicate Rendered(last: Option<Configuration>)
  {
    last.Some? ==> WfConf(last.value) && KvOf(last.value).Some?
  }

  /** Every name that a store of `c` drops published at least one key. */
  ghost predicate DroppedEmit(last: Option<Configuration>, c: Configuration)
    requires Rendered(last)
  {
    last.Some? ==> forall i, n ::
      0 <= i < |SETS| && n in Names(last.value, SETS[i]) && n !in Names(c, SETS[i]) ==> Emits(last.value, SETS[i], n)
  }

  function LastNames(last: Option<Configuration>, sn: SetName): set<string>
  {
    if last.None? then {} else Names(last.value, sn)
  }

  /** The tracking sets are those of the last configuration, with nothing left of an interrupted store. */
  ghost predicate Tidy(inst: Inst, db: Db, last: Option<Configuration>)
  {
    forall i :: 0 <= i < |SETS| ==>
      db.Members(SetKey(inst, SETS[i])) == LastNames(last, SETS[i]) && db.Members(NewKey(inst, SETS[i])) == {}
  }

  ghost predicate Clean(inst: Inst, s: Site)
  {
    Intact(inst, s) && Tidy(inst, s.db, s.last)
  }

  lemma TidyDropped(inst: Inst, db: Db, last: Option<Configuration>, c: Configuration, i: nat)
    requires Tidy(inst, db, last) && i < |SETS|
    ensures Dropped(inst, db, c, SETS[i]) == LastNames(last, SETS[i]) - Names(c, SETS[i])
  {
    hide SetKey, NewKey, Names;
  }

  lemma EmitsLive(strings: map<string, Item>, c: Configuration, i: nat, n: string)
    requires WfConf(c) && KvOf(c).Some? && KvOf(c).value.Keys <= strings.Keys && i < |SETS| && Emits(c, SETS[i], n)
    ensures Live(strings, SETS[i], n)
  {
    hide KvOf, WfConf, Under;
    var k :| k in KvOf(c).value && Under(SETS[i], n, k);
    assert k in strings;
  }

  lemma NamesSeparate(c: Configuration, i: nat, ns: set<string>)
    requires WfConf(c) && i < |SETS| && ns <= Names(c, SETS[i])
    ensures PlainNames(ns) && AllSeparate(ns)
  {
    hide WfConf, Names, AreaEntries;
    forall n | n in ns ensures Plain(n) { EntryWf(c, SETS[i], n); }
    forall a, b | a in ns && b in ns && StripDocker(a) == StripDocker(b) ensures a == b { EntryWf(c, SETS[i], a); }
  }

  /** The names to drop are among those of a rendered configuration that is all there, and each of them emits. */
  lemma EmittingDrops(inst: Inst, db: Db, last: Option<Configuration>, c: Configuration, i: nat)
    requires Rendered(last) && DroppedEmit(last, c) && i < |SETS|
    requires last.Some? ==> KvOf(last.value).value.Keys <= db.strings.Keys
    requires Dropped(inst, db, c, SETS[i]) <= LastNames(last, SETS[i]) - Names(c, SETS[i])
    ensures var ds := Dropped(inst, db, c, SETS[i]);
      PlainNames(ds) && AllSeparate(ds) && forall n :: n in ds ==> Live(db.strings, SETS[i], n)
  {
    hide Dropped, Names, Live, KvOf, WfConf, PlainNames, AllSeparate, Emits;
    var ds := Dropped(inst, db, c, SETS[i]);
    if last.Some? {
      NamesSeparate(last.value, i, ds);
      forall n | n in ds ensures Live(db.strings, SETS[i], n) {
        EmitsLive(db.strings, last.value, i, n);
      }
    } else {
      assert ds == {};
      NoNames();
    }
  }

  lemma EmittingDropsEven(inst: Inst, db: Db, last: Option<Configuration>, c: Configuration)
    requires Rendered(last) && DroppedEmit(last, c)
    requires last.Some? ==> KvOf(last.value).value.Keys <= db.strings.Keys
    requires forall i :: 0 <= i < |SETS| ==>
      Dropped(inst, db, c, SETS[i]) <= LastNames(last, SETS[i]) - Names(c, SETS[i])
    ensures DropsEven(inst, db, c)
  {
    hide Dropped, Names, LastNames, Live, Rendered, KvOf, PlainNames, AllSeparate, DroppedEmit;
    forall i | 0 <= i < |SETS|
      ensures var ds := Dropped(inst, db, c, SETS[i]);
        PlainNames(ds) && AllSeparate(ds) && EvenIn(db.strings, SETS[i], ds)
    {
      EmittingDrops(inst, db, last, c, i);
    }
  }

  /** In a clean state every name that a store drops still has a key, if it ever had one. */
  lemma CleanDropsLive(inst: Inst, s: Site, c: Configuration, i: nat)
    requires Clean(inst, s) && Rendered(s.last) && DroppedEmit(s.last, c) && i < |SETS|
    ensures var ds := Dropped(inst, s.db, c, SETS[i]);
      PlainNames(ds) && AllSeparate(ds) && forall n :: n in ds ==> Live(s.db.strings, SETS[i], n)
  {
    hide Tidy, Dropped, Names, Live, DroppedEmit, PlainNames, AllSeparate, KvOf, WfConf, Lasting, Sentinel;
    TidyDropped(inst, s.db, s.last, c, i);
    EmittingDrops(inst, s.db, s.last, c, i);
  }

  lemma CleanDropsEven(inst: Inst, s: Site, c: Configuration)
    requires Clean(inst, s) && Rendered(s.last) && DroppedEmit(s.last, c)
    ensures DropsEven(inst, s.db, c)
  {
    hide Tidy, Dropped, Names, LastNames, DroppedEmit, KvOf, WfConf, Lasting, Sentinel;
    forall i | 0 <= i < |SETS|
      ensures Dropped(inst, s.db, c, SETS[i]) <= LastNames(s.last, SETS[i]) - Names(c, SETS[i])
    {
      TidyDropped(inst, s.db, s.last, c, i);
    }
    EmittingDropsEven(inst, s.db, s.last, c);
  }

  lemma NoNames()
    ensures PlainNames({}) && AllSeparate({})
  {
  }

  lemma CleanHas(inst: Inst, s: Site)
    requires Clean(inst, s)
    ensures Rendered(s.last) && ValidDb(s.db) && Tidy(inst, s.db, s.last)
  {
    hide KvOf, WfConf, Tidy, Lasting;
  }

  // ---------- staying clean ----------

  /** Stores succeed, nothing is lost, time passes in time. */
  ghost predicate Orderly(inst: Inst, a: Site, e: Happening)
  {
    Undisturbed(e) && Timely(inst, a, e)
  }

  lemma FinalTidy(inst: Inst, db: Db, last: Option<Configuration>, c: Configuration, db': Db)
    requires Tidy(inst, db, last) && FinalSets(inst, db, c, db')
    ensures Tidy(inst, db', Some(c))
  {
    hide SetKey, NewKey, Names, OwnUpTo;
  }

  lemma SameSetsTidy(inst: Inst, a: Db, b: Db, last: Option<Configuration>)
    requires Tidy(inst, a, last) && a.sets == b.sets
    ensures Tidy(inst, b, last)
  {
    hide SetKey, NewKey, Names;
  }

  lemma KeepSameSets(inst: Inst, a: Site, k: Keep, ok: bool, b: Site)
    requires Intact(inst, a) && Next(inst, a, KeepCall(k, ok), b)
    ensures b.db.sets == a.db.sets
  {
    hide StoreStep, KvOf, WfConf, Sentinel, ValidDb;
    if a.last.Some? {
      assert Sentinel(inst) in Wanted(inst, a.last.value);
    }
  }

  /** A successful store leaves the sets of its configuration, whatever it dropped. */
  lemma StoredSets(inst: Inst, db: Db, c: Configuration, ch: Choice, done: nat, db': Db)
    requires WfConf(c) && ValidDb(db) && StoreStep(inst, db, c, ch, done, db', true)
    ensures KvOf(c).Some? && FinalSets(inst, db, c, db')
  {
    hide Possible, KvOf, WfConf, Run, FullPlan, FinalSets, ValidDb;
    PossibleShaped(inst, db, c, ch);
    assert StorePlan(c, ch)[..done] == StorePlan(c, ch);
    StoreSets(inst, db, c, KvOf(c).value, ch);
  }

  lemma NextClean(inst: Inst, a: Site, e: Happening, b: Site)
    requires Clean(inst, a) && Next(inst, a, e, b) && Orderly(inst, a, e)
    ensures Clean(inst, b)
  {
    NextIntact(inst, a, e, b);
    hide Intact, Tidy, StoreStep, KeepStep, KvOf, WfConf, FinalSets, ValidDb;
    match e
    case Publish(c, ch, done, ok) =>
      StoredSets(inst, a.db, c, ch, done, b.db);
      FinalTidy(inst, a.db, a.last, c, b.db);
    case KeepCall(k, ok) =>
      KeepSameSets(inst, a, k, ok, b);
      SameSetsTidy(inst, a.db, b.db, a.last);
    case Pass(d) => SameSetsTidy(inst, a.db, b.db, a.last);
  }

  /** Without failed stores and losses, the tracking sets are the names of the last configuration at every moment. */
  lemma {:induction false} StaysClean(inst: Inst, sites: seq<Site>, events: seq<Happening>, i: nat)
    requires IsHistory(inst, sites, events) && Clean(inst, sites[0]) && i < |sites|
    requires forall j :: 0 <= j < |events| ==> Orderly(inst, sites[j], events[j])
    ensures Clean(inst, sites[i])
  {
    if i > 0 {
      hide Next, Clean, Orderly;
      StaysClean(inst, sites, events, i - 1);
      NextClean(inst, sites[i - 1], events[i - 1], sites[i]);
    }
  }

  // ---------- the stores of such a run ----------

  /** A successful store from an even state is the closed-form update. */
  lemma StoreCloses(inst: Inst, db: Db, c: Configuration, ch: Choice, done: nat, db': Db)
    requires WfConf(c) && ValidDb(db) && DropsEven(inst, db, c) && StoreStep(inst, db, c, ch, done, db', true)
    ensures KvOf(c).Some? && db'.strings == FinalStrings(inst, db, c, KvOf(c).value, ch.stamp)
    ensures FinalSets(inst, db, c, db')
  {
    hide WfConf, KvOf, Possible, DropsEven, FullPlan, Run, FinalStrings, FinalSets, ValidDb;
    PossibleShaped(inst, db, c, ch);
    assert StorePlan(c, ch)[..done] == StorePlan(c, ch);
    StoreClosedForm(inst, db, c, KvOf(c).value, ch);
  }

  lemma PublishClosed(inst: Inst, a: Site, c: Configuration, ch: Choice, done: nat, b: Site)
    requires Clean(inst, a) && Next(inst, a, Publish(c, ch, done, true), b)
    requires Rendered(a.last) && DroppedEmit(a.last, c)
    ensures WfConf(c) && KvOf(c).Some? && b.db.strings == FinalStrings(inst, a.db, c, KvOf(c).value, ch.stamp)
  {
    CleanDropsEven(inst, a, c);
    hide DropsEven, Clean, StoreStep, KvOf, WfConf, FinalStrings, FinalSets, ValidDb, DroppedEmit;
    StoreCloses(inst, a.db, c, ch, done, b.db);
  }

  /** Along an orderly run, a Store that drops only names that published something is the closed-form update. */
  lemma CleanStores(inst: Inst, sites: seq<Site>, events: seq<Happening>, i: nat)
    requires IsHistory(inst, sites, events) && Clean(inst, sites[0]) && i < |events|
    requires forall j :: 0 <= j < |events| ==> Orderly(inst, sites[j], events[j])
    requires events[i].Publish? && Rendered(sites[i].last) && DroppedEmit(sites[i].last, events[i].c)
    ensures var e, a, b := events[i], sites[i].db, sites[i + 1].db;
      WfConf(e.c) && KvOf(e.c).Some? && b.strings == FinalStrings(inst, a, e.c, KvOf(e.c).value, e.ch.stamp)
  {
    hide Next, Clean, FinalStrings, KvOf, WfConf, DroppedEmit, Rendered;
    StaysClean(inst, sites, events, i);
    assert Next(inst, sites[i], events[i], sites[i + 1]) && Orderly(inst, sites[i], events[i]);
    PublishClosed(inst, sites[i], events[i].c, events[i].ch, events[i].done, sites[i + 1]);
  }

  /** The dropped names and the names of the configuration differ up to "@docker". */
  ghost predicate DroppedApart(last: Option<Configuration>, c: Configuration)
  {
    forall i, n, m ::
      0 <= i < |SETS| && n in LastNames(last, SETS[i]) && n !in Names(c, SETS[i]) && m in Names(c, SETS[i]) ==>
      StripDocker(n) != StripDocker(m)
  }

  lemma DropsApart(inst: Inst, db: Db, last: Option<Configuration>, c: Configuration)
    requires Rendered(last) && DroppedApart(last, c)
    requires forall i :: 0 <= i < |SETS| ==>
      Dropped(inst, db, c, SETS[i]) <= LastNames(last, SETS[i]) - Names(c, SETS[i])
    ensures Apart(inst, db, c) && DropNames(inst, db, c)
  {
    hide WfConf, KvOf, LastNames, PlainNames, AllSeparate, DroppedApart, Rendered;
    forall i | 0 <= i < |SETS|
      ensures PlainNames(Dropped(inst, db, c, SETS[i])) && AllSeparate(Dropped(inst, db, c, SETS[i]))
    {
      LastSeparate(last, i, Dropped(inst, db, c, SETS[i]));
    }
    forall i: nat, n, m | i < |SETS| && n in Dropped(inst, db, c, SETS[i]) && m in Names(c, SETS[i])
      ensures StripDocker(n) != StripDocker(m)
    {
      assert n in LastNames(last, SETS[i]) - Names(c, SETS[i]);
      DroppedApartAt(last, c, i, n, m);
    }
    IsApart(inst, db, c);
  }

  lemma IsApart(inst: Inst, db: Db, c: Configuration)
    requires forall i :: 0 <= i < |SETS| ==> PlainNames(Dropped(inst, db, c, SETS[i]))
    requires forall i: nat, n, m :: i < |SETS| && n in Dropped(inst, db, c, SETS[i]) && m in Names(c, SETS[i]) ==>
      StripDocker(n) != StripDocker(m)
    ensures Apart(inst, db, c)
  {
    hide Dropped, Names, StripDocker;
  }

  lemma DroppedApartAt(last: Option<Configuration>, c: Configuration, i: nat, n: string, m: string)
    requires DroppedApart(last, c) && i < |SETS|
    requires n in LastNames(last, SETS[i]) && n !in Names(c, SETS[i]) && m in Names(c, SETS[i])
    ensures StripDocker(n) != StripDocker(m)
  {
    hide LastNames, Names;
  }

  lemma LastSeparate(last: Option<Configuration>, i: nat, ns: set<string>)
    requires Rendered(last) && i < |SETS| && ns <= LastNames(last, SETS[i])
    ensures PlainNames(ns) && AllSeparate(ns)
  {
    hide WfConf, KvOf, Names;
    if last.Some? {
      NamesSeparate(last.value, i, ns);
    } else {
      assert ns == {};
    }
  }

  /** In general a Store of such a run is the closed-form update, for every reply order, exactly when of each set's
      dropped names all or none have keys at that moment. */
  lemma CleanStoresIff(inst: Inst, sites: seq<Site>, events: seq<Happening>, i: nat, c: Configuration,
                       kv: map<string, string>)
    requires IsHistory(inst, sites, events) && Clean(inst, sites[0]) && i < |sites|
    requires forall j :: 0 <= j < |events| ==> Orderly(inst, sites[j], events[j])
    requires WfConf(c) && KvOf(c) == Some(kv) && DroppedApart(sites[i].last, c)
    ensures AlwaysClosedForm(inst, sites[i].db, c, kv)
            <==> forall j :: 0 <= j < |SETS| ==>
                   EvenIn(sites[i].db.strings, SETS[j], LastNames(sites[i].last, SETS[j]) - Names(c, SETS[j]))
  {
    hide IsHistory, Clean, Orderly, AlwaysClosedForm, EvenIn, KvOf, WfConf, DroppedApart, Tidy, Dropped, Names,
      LastNames, Rendered;
    StaysClean(inst, sites, events, i);
    var s := sites[i];
    CleanHas(inst, s);
    forall j | 0 <= j < |SETS|
      ensures Dropped(inst, s.db, c, SETS[j]) == LastNames(s.last, SETS[j]) - Names(c, SETS[j])
    {
      TidyDropped(inst, s.db, s.last, c, j);
    }
    DropsApart(inst, s.db, s.last, c);
    ClosedFormIff(inst, s.db, c, kv);
  }

  lemma OtherNamesKey(c: Configuration, i: nat, n: string, k: string)
    requires WfConf(c) && KvOf(c).Some? && i < |SETS| && Under(SETS[i], n, k)
    requires forall m :: m in Names(c, SETS[i]) ==> StripDocker(m) != StripDocker(n)
    ensures k !in KvOf(c).value
  {
    hide KvOf, WfConf, Names;
    if k in KvOf(c).value {
      var m := TrackedKeyHasName(c, SETS[i], k);
      UnderUnique(SETS[i], m, SETS[i], n, k);
    }
  }

  /** A name that a closed-form store dropped has no key left. */
  lemma DroppedNameGone(inst: Inst, a: Site, c: Configuration, ch: Choice, done: nat, b: Site, i: nat, n: string,
                        k: string)
    requires Clean(inst, a) && Next(inst, a, Publish(c, ch, done, true), b) && i < |SETS|
    requires Rendered(a.last) && DroppedEmit(a.last, c)
    requires n in LastNames(a.last, SETS[i])
    requires forall m :: m in Names(c, SETS[i]) ==> StripDocker(m) != StripDocker(n)
    requires Under(SETS[i], n, k)
    ensures k !in b.db.strings
  {
    hide Clean, KvOf, WfConf, Next, DroppedEmit, Dropped, Sentinel, Claimed, Tidy, FinalStrings, AllClaims, Under,
      Names, LastNames;
    PublishClosed(inst, a, c, ch, done, b);
    CleanHas(inst, a);
    TidyDropped(inst, a.db, a.last, c, i);
    assert n in Dropped(inst, a.db, c, SETS[i]);
    DroppedIsClaimed(inst, a.db, c, i, n, k);
    NotSentinel(inst, SETS[i], n, k);
    OtherNamesKey(c, i, n, k);
    ClaimedGone(inst, a.db, c, KvOf(c).value, ch.stamp, k);
  }
}
