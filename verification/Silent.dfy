/** Names that publish nothing. A name whose entry emits no key is tracked all the same, so dropping it together
    with one that does stops removeKeys early: keys are left behind although nothing failed and nothing was lost. */
module Silent {
  import opened Paths
  import opened Values
  import opened Flatten
  import opened Config
  import opened Published
  import opened Redis
  import opened Plan
  import opened Removal
  import opened ClosedForm
  import opened Ownership
  import opened KeepAlive
  import opened Ttl
  import opened Leak
  import opened CleanRuns
  import opened Collision
  import Roundtrip

  /** None of the configuration's names has a key yet. */
  ghost predicate NoKeys(strings: map<string, Item>, c: Configuration)
  {
    forall i, n :: 0 <= i < |SETS| && n in Names(c, SETS[i]) ==> !Live(strings, SETS[i], n)
  }

  /** Of these names all publish something or none does. */
  ghost predicate EvenlyEmit(c: Configuration, sn: SetName, names: set<string>)
    requires WfConf(c) && KvOf(c).Some?
  {
    (forall n :: n in names ==> Emits(c, sn, n)) || (forall n :: n in names ==> !Emits(c, sn, n))
  }

  /** After a complete store of new names, a name has keys exactly when it published some. */
  lemma StoredLive(inst: Inst, db: Db, c: Configuration, ch: Choice, done: nat, db': Db, i: nat, n: string)
    requires WfConf(c) && ValidDb(db) && NoKeys(db.strings, c) && StoreStep(inst, db, c, ch, done, db', true)
    requires i < |SETS| && n in Names(c, SETS[i])
    ensures KvOf(c).Some? && (Live(db'.strings, SETS[i], n) <==> Emits(c, SETS[i], n))
    ensures forall k :: k in db'.strings && Under(SETS[i], n, k) ==> k in KvOf(c).value
  {
    hide KvOf, WfConf, Names, Under, Possible, FullPlan, Run, Sentinel, ValidDb;
    PossibleShaped(inst, db, c, ch);
    RestoreEffect(inst, db, c, KvOf(c).value, ch, done, db');
    assert !Live(db.strings, SETS[i], n);
    forall k | k in db'.strings && Under(SETS[i], n, k) ensures k in KvOf(c).value {
      NotSentinel(inst, SETS[i], n, k);
    }
  }

  lemma StoredEven(inst: Inst, db: Db, c: Configuration, ch: Choice, done: nat, db': Db, i: nat, names: set<string>)
    requires WfConf(c) && ValidDb(db) && NoKeys(db.strings, c) && StoreStep(inst, db, c, ch, done, db', true)
    requires i < |SETS| && names <= Names(c, SETS[i])
    ensures KvOf(c).Some? && (EvenIn(db'.strings, SETS[i], names) <==> EvenlyEmit(c, SETS[i], names))
  {
    hide KvOf, WfConf, Names, Live, Emits, Possible, Run, StorePlan, NoKeys, ValidDb;
    forall n | n in names ensures Live(db'.strings, SETS[i], n) <==> Emits(c, SETS[i], n) {
      StoredLive(inst, db, c, ch, done, db', i, n);
    }
  }

  /** Two stores in a row, from a database that knows none of the names: the second is the closed-form update, for
      every reply order, exactly when of the names it drops from each set all published something or none did. */
  lemma TwoStoresIff(inst: Inst, db: Db, c0: Configuration, ch: Choice, done: nat, db1: Db, c1: Configuration,
                     kv: map<string, string>)
    requires WfConf(c0) && ValidDb(db) && Tidy(inst, db, None) && NoKeys(db.strings, c0)
    requires StoreStep(inst, db, c0, ch, done, db1, true)
    requires WfConf(c1) && KvOf(c1) == Some(kv) && DroppedApart(Some(c0), c1)
    ensures KvOf(c0).Some?
    ensures AlwaysClosedForm(inst, db1, c1, kv)
            <==> forall i :: 0 <= i < |SETS| ==> EvenlyEmit(c0, SETS[i], Names(c0, SETS[i]) - Names(c1, SETS[i]))
  {
    StoreValid(inst, db, c0, ch, done, db1, true);
    hide KvOf, WfConf, Names, Tidy, ValidDb, NoKeys, StoreStep, DroppedApart, AlwaysClosedForm, EvenIn, EvenlyEmit,
      Dropped, FinalSets;
    StoredSets(inst, db, c0, ch, done, db1);
    FinalTidy(inst, db, None, c0, db1);
    forall i | 0 <= i < |SETS|
      ensures var ds := Names(c0, SETS[i]) - Names(c1, SETS[i]);
        Dropped(inst, db1, c1, SETS[i]) == ds && (EvenIn(db1.strings, SETS[i], ds) <==> EvenlyEmit(c0, SETS[i], ds))
    {
      TidyDropped(inst, db1, Some(c0), c1, i);
      StoredEven(inst, db, c0, ch, done, db1, i, Names(c0, SETS[i]) - Names(c1, SETS[i]));
    }
    DropsApart(inst, db1, Some(c0), c1);
    ClosedFormIff(inst, db1, c1, kv);
  }

  lemma EmitsShape(c: Configuration, sn: SetName, n: string)
    requires WfConf(c) && KvOf(c).Some? && Tracked(sn) && n in Names(c, sn) && Emits(c, sn, n)
    ensures EntryShape(c, sn, n).Some?
  {
    hide KvOf, WfConf, Names, EntryShape, Under, Keyed, Flat, NamePath, Plain, K;
    var k :| k in KvOf(c).value && Under(sn, n, k);
    EntryPlain(c, sn, n);
    GlobIsUnder(sn, n, k);
    PrefixDeletionExact(c, sn, n, k);
  }

  lemma EntryPlain(c: Configuration, sn: SetName, n: string)
    requires WfConf(c) && Tracked(sn) && n in Names(c, sn)
    ensures Plain(n)
  {
    EntryWf(c, sn, n);
  }

  lemma PathKey(sn: SetName, n: string, q: seq<string>) returns (k: string)
    requires Tracked(sn) && Plain(n) && AllPlain(q) && q != []
    ensures Split(k) == NamePath(sn, n) + q && Under(sn, n, k) && InArea(sn, k)
  {
    k := Join(NamePath(sn, n) + q);
    hide Plain, StripDocker, Join, Split;
    KIsNamePath(sn, n);
    SplitJoin(NamePath(sn, n) + q);
    assert AreaPath(sn) <= NamePath(sn, n);
  }

  lemma PathEmitted(p: seq<string>, t: Trie, q: seq<string>, k: string)
    requires |p| > 0 && q in Flat(t) && Split(k) == p + q && !Ignored(k)
    ensures k in Emitted(p, Some(t))
  {
    hide Flat, Split, Ignored, Keyed;
    assert (p + q)[|p|..] == q;
    KeyedAt(p, Flat(t), k);
  }

  lemma ShapeEmits(c: Configuration, sn: SetName, n: string)
    requires WfConf(c) && KvOf(c).Some? && Tracked(sn) && n in Names(c, sn) && EntryShape(c, sn, n).Some?
    ensures Emits(c, sn, n)
  {
    hide KvOf, WfConf, Names, EntryShape, Emitted, Flat, Plain, StripDocker, Ignored, Under, Split, InArea, K, AllPlain;
    var t := EntryShape(c, sn, n).value;
    EntryPlain(c, sn, n);
    EntrySolid(c, sn, n);
    EntryNotTip(c, sn, n);
    Roundtrip.SolidFlat(t);
    assert Flat(t).Keys != {};
    var q :| q in Flat(t);
    Roundtrip.SolidPlain(t, q);
    var k := PathKey(sn, n, q);
    NotIgnored(sn, k);
    PathEmitted(NamePath(sn, n), t, q, k);
    PrefixDeletionExact(c, sn, n, k);
  }

  /** A name publishes something exactly when its entry is not empty once pruned. */
  lemma EmitsIff(c: Configuration, sn: SetName, n: string)
    requires WfConf(c) && KvOf(c).Some? && Tracked(sn) && n in Names(c, sn)
    ensures Emits(c, sn, n) <==> EntryShape(c, sn, n).Some?
  {
    hide KvOf, WfConf, Names, EntryShape, Emits;
    if Emits(c, sn, n) {
      EmitsShape(c, sn, n);
    } else if EntryShape(c, sn, n).Some? {
      ShapeEmits(c, sn, n);
    }
  }

  lemma EntrySolid(c: Configuration, sn: SetName, n: string)
    requires WfConf(c) && Tracked(sn) && n in Names(c, sn) && EntryShape(c, sn, n).Some?
    ensures Roundtrip.Solid(EntryShape(c, sn, n).value)
  {
    EntryWf(c, sn, n);
    Roundtrip.ShapeSolid(NamePath(sn, n), AreaEntries(c, sn)[n], false);
  }

  /** Storing a configuration with a name that emits and a silent one in the same set, then one without the two:
      for some reply order a key of the first is left that no tracking set covers. */
  lemma SilentNameLeaks(inst: Inst, db: Db, c0: Configuration, ch0: Choice, done0: nat, db1: Db, c1: Configuration,
                        i: nat, silent: string, n: string)
    returns (ch: Choice, done: nat, db2: Db, k: string)
    requires WfConf(c0) && ValidDb(db) && Tidy(inst, db, None) && NoKeys(db.strings, c0)
    requires StoreStep(inst, db, c0, ch0, done0, db1, true)
    requires WfConf(c1) && KvOf(c1).Some? && DroppedApart(Some(c0), c1) && i < |SETS|
    requires silent in Names(c0, SETS[i]) && silent !in Names(c1, SETS[i]) && KvOf(c0).Some?
    requires !Emits(c0, SETS[i], silent)
    requires n in Names(c0, SETS[i]) && n !in Names(c1, SETS[i]) && Emits(c0, SETS[i], n)
    ensures StoreStep(inst, db1, c1, ch, done, db2, true)
    ensures k in KvOf(c0).value && k in db2.strings && Under(SETS[i], n, k)
    ensures !HasOwner(TrackedNames(inst, db2, SETS[i]), SETS[i], k)
  {
    StoreValid(inst, db, c0, ch0, done0, db1, true);
    hide KvOf, WfConf, Names, Tidy, ValidDb, NoKeys, StoreStep, DroppedApart, Dropped, FinalSets, Live, Emits, Under,
      LeftApart, HasOwner, Run, FullPlan;
    StoredSets(inst, db, c0, ch0, done0, db1);
    FinalTidy(inst, db, None, c0, db1);
    StoredLive(inst, db, c0, ch0, done0, db1, i, silent);
    StoredLive(inst, db, c0, ch0, done0, db1, i, n);
    TidyApart(inst, db1, c0, c1);
    TidyDropped(inst, db1, Some(c0), c1, i);
    ch, k := MixedDropLeaks(inst, db1, c1, KvOf(c1).value, i, silent, n);
    done, db2 := Completed(inst, db1, c1, ch);
  }

  lemma TidyApart(inst: Inst, db: Db, c0: Configuration, c1: Configuration)
    requires WfConf(c0) && KvOf(c0).Some? && Tidy(inst, db, Some(c0)) && DroppedApart(Some(c0), c1)
    ensures DropNames(inst, db, c1) && Apart(inst, db, c1) && LeftApart(inst, db, c1)
  {
    hide WfConf, KvOf, Names, Dropped, DroppedApart, DropNames, Apart, SetKey, NewKey;
    forall i | 0 <= i < |SETS|
      ensures Dropped(inst, db, c1, SETS[i]) == Names(c0, SETS[i]) - Names(c1, SETS[i])
      ensures db.Members(NewKey(inst, SETS[i])) == {}
    {
      TidyDropped(inst, db, Some(c0), c1, i);
    }
    DropsApart(inst, db, Some(c0), c1);
  }
}
