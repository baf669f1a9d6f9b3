/** KeepConfAlive between a failed store and its retry: it re-publishes the older configuration, and when that fails
    half-way, the names of the older configuration are left in the temporary sets, some with keys and some without. */
module Republication {
  import opened Paths
  import opened Values
  import opened Config
  import opened Published
  import opened Redis
  import opened Plan
  import opened Removal
  import opened ClosedForm
  import opened Ownership
  import opened Ttl
  import opened Leak
  import opened CleanRuns
  import opened Failure
  import opened Collision
  import Serial

  /** Attempts to store `c` have failed before they reached the swaps; the tracking sets are still those of `p`. */
  ghost predicate Pending(inst: Inst, db: Db, p: Configuration, c: Configuration)
  {
    Retriable(inst, db, c) && forall i :: 0 <= i < |SETS| ==> db.Members(SetKey(inst, SETS[i])) == Names(p, SETS[i])
  }

  lemma FailureIsPending(inst: Inst, db: Db, p: Configuration, c: Configuration, ch: Choice, done: nat, db': Db)
    requires WfConf(c) && ValidDb(db) && DropsEven(inst, db, c) && Apart(inst, db, c) && Tidy(inst, db, Some(p))
    requires StoreStep(inst, db, c, ch, done, db', false) && done + 1 != |StorePlan(c, ch)|
    ensures Pending(inst, db', p, c)
  {
    PossibleShaped(inst, db, c, ch);
    hide WfConf, ValidDb, DropsEven, Apart, Tidy, KvOf, StoreStep, Retriable, Announced, SetKey, NewKey, Names,
      StorePlan;
    TidyLeftover(inst, db, p, c);
    FailureIsRetriable(inst, db, c, ch, done, db');
    FailureAnnounces(inst, db, c, ch, done, db');
    forall i | 0 <= i < |SETS| ensures db'.Members(SetKey(inst, SETS[i])) == Names(p, SETS[i]) {
      AnnouncedTidy(inst, db, p, c, db', i);
    }
  }

  lemma AnnouncedTidy(inst: Inst, db: Db, p: Configuration, c: Configuration, db': Db, i: nat)
    requires Tidy(inst, db, Some(p)) && Announced(inst, db, c, db') && i < |SETS|
    ensures db'.Members(SetKey(inst, SETS[i])) == Names(p, SETS[i])
  {
    hide SetKey, NewKey, Names;
  }

  lemma TidyLeftover(inst: Inst, db: Db, p: Configuration, c: Configuration)
    requires Tidy(inst, db, Some(p))
    ensures LeftoverOf(inst, db, c)
  {
    hide SetKey, NewKey, Names;
  }

  /** Short of the sentinel, a failed store has changed no tracking set. */
  lemma FailureAnnounces(inst: Inst, db: Db, c: Configuration, ch: Choice, done: nat, db': Db)
    requires WfConf(c) && ValidDb(db) && DropsEven(inst, db, c) && Shaped(ch)
    requires StoreStep(inst, db, c, ch, done, db', false) && done + 1 != |StorePlan(c, ch)|
    ensures Announced(inst, db, c, db')
  {
    hide WfConf, ValidDb, DropsEven, KvOf, StoreStep, Announced, StorePlan, TrackPlan, Run, SortedSeq, Written,
      Cleaned, FinalSets;
    if KvOf(c).None? {
      UnrenderedStops(inst, db, c, ch, done, db');
      TrackedAnnounced(inst, db, c, ch);
    } else {
      EvenHasNames(inst, db, c);
      NamesPlain(inst, db, c);
      var j, left := FailedStore(inst, db, c, ch, done, db');
    }
  }

  /** The name has a key among the first j of the sorted keys. */
  ghost predicate WrittenBy(c: Configuration, j: nat, sn: SetName, n: string)
    requires WfConf(c) && KvOf(c).Some? && j <= |SortedSeq(KvOf(c).value.Keys)|
  {
    exists k :: k in Among(SortedSeq(KvOf(c).value.Keys)[..j]) && Under(sn, n, k)
  }

  /** A store that writes j keys gives a key to exactly those of its names that had one or have one among these. */
  lemma CutLive(inst: Inst, db: Db, p: Configuration, j: nat, left: map<string, Item>, db': Db, i: nat, n: string)
    requires WfConf(p) && KvOf(p).Some? && j < |SortedSeq(KvOf(p).value.Keys)|
    requires Removed(inst, db, p, left) && LeftBy(inst, db, p, KvOf(p).value, j, left, db')
    requires i < |SETS| && !Live(db.strings, SETS[i], n)
    ensures Live(db'.strings, SETS[i], n) <==> WrittenBy(p, j, SETS[i], n)
  {
    hide WfConf, KvOf, SortedSeq, Under, Among, Announced, DropsEven, Claimed, AllClaims;
  }

  /** A re-publication of `p` after failed attempts to store `c`, stopped when j keys were written. */
  ghost predicate HalfRestored(inst: Inst, db1: Db, p: Configuration, c: Configuration, j: nat, db2: Db)
  {
    && WfConf(p) && KvOf(p).Some? && j < |SortedSeq(KvOf(p).value.Keys)| && ValidDb(db2) && Pending(inst, db1, p, c)
    && exists left :: Removed(inst, db1, p, left) && LeftBy(inst, db1, p, KvOf(p).value, j, left, db2)
  }

  lemma RestoreFails(inst: Inst, db1: Db, p: Configuration, c: Configuration, ch: Choice, done: nat, db2: Db)
    returns (j: nat)
    requires WfConf(p) && KvOf(p).Some? && Pending(inst, db1, p, c)
    requires StoreStep(inst, db1, p, ch, done, db2, false) && done + 1 != |StorePlan(p, ch)|
    ensures HalfRestored(inst, db1, p, c, j, db2)
  {
    PendingValid(inst, db1, p, c);
    StoreValid(inst, db1, p, ch, done, db2, false);
    hide WfConf, KvOf, ValidDb, Pending, StoreStep, StorePlan, SortedSeq, Removed, LeftBy, PlainDrops;
    PendingPlain(inst, db1, p, c);
    var left;
    j, left := FailedStore(inst, db1, p, ch, done, db2);
  }

  lemma PendingValid(inst: Inst, db: Db, p: Configuration, c: Configuration)
    requires Pending(inst, db, p, c)
    ensures ValidDb(db) && Retriable(inst, db, c)
  {
  }

  lemma FewerPending(inst: Inst, a: Db, b: Db, p: Configuration, c: Configuration)
    requires Pending(inst, a, p, c) && Fewer(a, b)
    ensures Pending(inst, b, p, c)
  {
    hide Retriable, Names, SetKey;
    FewerRetriable(inst, a, b, c);
    forall i | 0 <= i < |SETS| ensures b.Members(SetKey(inst, SETS[i])) == a.Members(SetKey(inst, SETS[i])) {}
  }

  /** In such a state a store of `p` drops nothing, and one of `c` the names of `p` that it lacks. */
  lemma PendingDropped(inst: Inst, db: Db, p: Configuration, c: Configuration, i: nat)
    requires Pending(inst, db, p, c) && i < |SETS|
    ensures db.Members(NewKey(inst, SETS[i])) <= Names(c, SETS[i])
    ensures Dropped(inst, db, p, SETS[i]) == {}
    ensures Dropped(inst, db, c, SETS[i]) == Names(p, SETS[i]) - Names(c, SETS[i])
  {
    hide SetKey, NewKey, Names, DropsDead, Apart, ValidDb;
  }

  lemma PendingPlain(inst: Inst, db: Db, p: Configuration, c: Configuration)
    requires Pending(inst, db, p, c)
    ensures PlainDrops(inst, db, p)
  {
    hide Pending, Dropped;
    forall i | 0 <= i < |SETS| ensures PlainNames(Dropped(inst, db, p, SETS[i])) {
      PendingDropped(inst, db, p, c, i);
    }
  }

  lemma PendingDead(inst: Inst, db: Db, p: Configuration, c: Configuration, i: nat, n: string)
    requires Pending(inst, db, p, c) && i < |SETS| && n in Names(p, SETS[i]) - Names(c, SETS[i])
    ensures !Live(db.strings, SETS[i], n)
  {
    hide SetKey, NewKey, Names, Dropped, Live, Apart, ValidDb, LeftoverOf, DropNames;
    PendingDropped(inst, db, p, c, i);
  }

  lemma HalfLive(inst: Inst, db1: Db, p: Configuration, c: Configuration, j: nat, db2: Db, i: nat, n: string)
    requires HalfRestored(inst, db1, p, c, j, db2) && i < |SETS| && n in Names(p, SETS[i]) - Names(c, SETS[i])
    ensures Live(db2.strings, SETS[i], n) <==> WrittenBy(p, j, SETS[i], n)
  {
    hide WfConf, KvOf, ValidDb, Pending, SortedSeq, Removed, LeftBy, Names, Live, WrittenBy;
    var left :| Removed(inst, db1, p, left) && LeftBy(inst, db1, p, KvOf(p).value, j, left, db2);
    PendingDead(inst, db1, p, c, i, n);
    CutLive(inst, db1, p, j, left, db2, i, n);
  }

  lemma HalfAnnounced(inst: Inst, db1: Db, p: Configuration, c: Configuration, j: nat, db2: Db)
    requires HalfRestored(inst, db1, p, c, j, db2)
    ensures Announced(inst, db1, p, db2) && Pending(inst, db1, p, c)
  {
    hide WfConf, KvOf, ValidDb, Pending, SortedSeq, Removed, Announced, Written;
  }

  /** The retry finds the older names in the temporary set, so it drops them only where it has no names itself. */
  lemma HalfDropped(inst: Inst, db1: Db, p: Configuration, c: Configuration, j: nat, db2: Db, i: nat)
    requires HalfRestored(inst, db1, p, c, j, db2) && i < |SETS|
    ensures Dropped(inst, db2, c, SETS[i]) == if Names(c, SETS[i]) == {} then Names(p, SETS[i]) else {}
    ensures db2.Members(NewKey(inst, SETS[i])) + Names(c, SETS[i]) == Names(p, SETS[i]) + Names(c, SETS[i])
  {
    hide HalfRestored, SetKey, NewKey, Names, Retriable;
    HalfAnnounced(inst, db1, p, c, j, db2);
    PendingDropped(inst, db1, p, c, i);
    assert db1.Members(SetKey(inst, SETS[i])) == Names(p, SETS[i]);
  }

  /** Of these names all have a key among the first j or none has. */
  ghost predicate EvenlyWritten(p: Configuration, j: nat, sn: SetName, names: set<string>)
    requires WfConf(p) && KvOf(p).Some? && j <= |SortedSeq(KvOf(p).value.Keys)|
  {
    (forall n :: n in names ==> WrittenBy(p, j, sn, n)) || (forall n :: n in names ==> !WrittenBy(p, j, sn, n))
  }

  lemma HalfEven(inst: Inst, db1: Db, p: Configuration, c: Configuration, j: nat, db2: Db, i: nat, names: set<string>)
    requires HalfRestored(inst, db1, p, c, j, db2) && i < |SETS| && names <= Names(p, SETS[i]) - Names(c, SETS[i])
    ensures EvenIn(db2.strings, SETS[i], names) <==> EvenlyWritten(p, j, SETS[i], names)
  {
    hide HalfRestored, WfConf, KvOf, ValidDb, SortedSeq, Names, Live, WrittenBy;
    HalfWf(inst, db1, p, c, j, db2);
    forall n | n in names ensures Live(db2.strings, SETS[i], n) <==> WrittenBy(p, j, SETS[i], n) {
      HalfLive(inst, db1, p, c, j, db2, i, n);
    }
  }

  /** The retry of `c` is the closed-form update, for every reply order, exactly when in each set in which `c` has no
      names the re-publication had written a key of every name of `p` or of none. */
  lemma RetryAfterCutIff(inst: Inst, db1: Db, p: Configuration, c: Configuration, j: nat, db2: Db,
                         kv: map<string, string>)
    requires HalfRestored(inst, db1, p, c, j, db2) && WfConf(c) && KvOf(c) == Some(kv) && DroppedApart(Some(p), c)
    ensures AlwaysClosedForm(inst, db2, c, kv)
            <==> forall i :: 0 <= i < |SETS| && Names(c, SETS[i]) == {} ==>
                   EvenlyWritten(p, j, SETS[i], Names(p, SETS[i]))
  {
    hide HalfRestored, WfConf, KvOf, ValidDb, Names, Dropped, EvenIn, EvenlyWritten, DroppedApart, AlwaysClosedForm,
      SortedSeq, Apart, DropNames;
    HalfWf(inst, db1, p, c, j, db2);
    forall i | 0 <= i < |SETS|
      ensures Dropped(inst, db2, c, SETS[i]) == if Names(c, SETS[i]) == {} then Names(p, SETS[i]) else {}
      ensures EvenIn(db2.strings, SETS[i], Dropped(inst, db2, c, SETS[i]))
              <==> (Names(c, SETS[i]) == {} ==> EvenlyWritten(p, j, SETS[i], Names(p, SETS[i])))
    {
      HalfDropped(inst, db1, p, c, j, db2, i);
      HalfEven(inst, db1, p, c, j, db2, i, Dropped(inst, db2, c, SETS[i]));
      if Names(c, SETS[i]) != {} { EmptyEven(db2.strings, SETS[i]); }
    }
    DropsApart(inst, db2, Some(p), c);
    ClosedFormIff(inst, db2, c, kv);
  }

  lemma EmptyEven(strings: map<string, Item>, sn: SetName)
    ensures EvenIn(strings, sn, {})
  {
  }

  lemma HalfWf(inst: Inst, db1: Db, p: Configuration, c: Configuration, j: nat, db2: Db)
    requires HalfRestored(inst, db1, p, c, j, db2)
    ensures WfConf(p) && KvOf(p).Some? && j < |SortedSeq(KvOf(p).value.Keys)| && ValidDb(db2)
  {
    hide WfConf, KvOf, Pending, Removed, LeftBy, ValidDb, SortedSeq;
  }

  /** A closed-form store leaves alone the keys of a name that it neither drops nor has. */
  lemma ForeignKeyKept(inst: Inst, db: Db, c: Configuration, kv: map<string, string>, stamp: string, i: nat, n: string,
                       k: string)
    requires WfConf(c) && KvOf(c) == Some(kv) && i < |SETS| && Dropped(inst, db, c, SETS[i]) == {}
    requires Under(SETS[i], n, k)
    requires forall x :: x in Names(c, SETS[i]) ==> StripDocker(x) != StripDocker(n)
    ensures k in FinalStrings(inst, db, c, kv, stamp) <==> k in db.strings
  {
    hide WfConf, KvOf, Names, Dropped, Under, ServersPrefix, Sentinel, ClaimsUpTo;
    OtherNamesKey(c, i, n, k);
    NotSentinel(inst, SETS[i], n, k);
    NotClaimed(inst, db, c, i, n, k);
    if ServerKey(c, k) {
      var proto, name :| proto in PROTOCOLS && name in Names(c, SetName(proto, "services"))
      && ServersPrefix(proto, name) <= k;
      StaleElsewhere(c, i, n, k, proto, name);
    }
  }

  lemma NotClaimed(inst: Inst, db: Db, c: Configuration, i: nat, n: string, k: string)
    requires i < |SETS| && Dropped(inst, db, c, SETS[i]) == {} && Under(SETS[i], n, k)
    ensures !Claimed(AllClaims(inst, db, c), k)
  {
    hide Dropped, Under, ClaimsUpTo;
    if Claimed(AllClaims(inst, db, c), k) {
      var d :| d in AllClaims(inst, db, c) && Under(d.0, d.1, k);
      ClaimsUpToAt(inst, db, c, |SETS|, d);
      UnderUnique(SETS[i], n, d.0, d.1, k);
    }
  }

  /** A name that a closed-form store dropped, and no other name of the configuration claims, has no key left. */
  lemma DroppedDead(inst: Inst, db: Db, c: Configuration, kv: map<string, string>, stamp: string, i: nat, n: string)
    requires WfConf(c) && KvOf(c) == Some(kv) && i < |SETS| && n in Dropped(inst, db, c, SETS[i])
    requires forall x :: x in Names(c, SETS[i]) ==> StripDocker(x) != StripDocker(n)
    ensures !Live(FinalStrings(inst, db, c, kv, stamp), SETS[i], n)
  {
    hide WfConf, KvOf, Names, Dropped, Under, Sentinel, AllClaims, FinalStrings, Claimed;
    forall k | Under(SETS[i], n, k) ensures k !in FinalStrings(inst, db, c, kv, stamp) {
      OtherNamesKey(c, i, n, k);
      NotSentinel(inst, SETS[i], n, k);
      DroppedIsClaimed(inst, db, c, i, n, k);
      ClaimedGone(inst, db, c, kv, stamp, k);
    }
  }

  lemma ForeignLive(inst: Inst, db: Db, c: Configuration, kv: map<string, string>, stamp: string, i: nat, n: string)
    requires WfConf(c) && KvOf(c) == Some(kv) && i < |SETS| && Dropped(inst, db, c, SETS[i]) == {}
    requires forall x :: x in Names(c, SETS[i]) ==> StripDocker(x) != StripDocker(n)
    ensures Live(FinalStrings(inst, db, c, kv, stamp), SETS[i], n) <==> Live(db.strings, SETS[i], n)
  {
    hide WfConf, KvOf, Names, Dropped, Under, FinalStrings;
    forall k | Under(SETS[i], n, k) ensures k in FinalStrings(inst, db, c, kv, stamp) <==> k in db.strings {
      ForeignKeyKept(inst, db, c, kv, stamp, i, n, k);
    }
  }

  /** After that retry a name of `p` that `c` lacks has keys exactly when the re-publication had written one of them
      and `c` has names in its set. */
  lemma RetriedLive(inst: Inst, db1: Db, p: Configuration, c: Configuration, j: nat, db2: Db, kv: map<string, string>,
                    stamp: string, i: nat, n: string)
    requires HalfRestored(inst, db1, p, c, j, db2) && WfConf(c) && KvOf(c) == Some(kv) && DroppedApart(Some(p), c)
    requires i < |SETS| && n in Names(p, SETS[i]) - Names(c, SETS[i])
    ensures Live(FinalStrings(inst, db2, c, kv, stamp), SETS[i], n)
            <==> Names(c, SETS[i]) != {} && WrittenBy(p, j, SETS[i], n)
  {
    hide HalfRestored, WfConf, KvOf, Names, Dropped, Live, FinalStrings, WrittenBy, DroppedApart, SortedSeq;
    HalfDropped(inst, db1, p, c, j, db2, i);
    forall x | x in Names(c, SETS[i]) ensures StripDocker(x) != StripDocker(n) {
      DroppedApartAt(Some(p), c, i, n, x);
    }
    if Names(c, SETS[i]) == {} {
      DroppedDead(inst, db2, c, kv, stamp, i, n);
    } else {
      ForeignLive(inst, db2, c, kv, stamp, i, n);
      HalfLive(inst, db1, p, c, j, db2, i, n);
    }
  }

  /** The retry has taken the older names over into the tracking sets. */
  lemma RetriedDropped(inst: Inst, db1: Db, p: Configuration, c: Configuration, j: nat, db2: Db, db3: Db, i: nat)
    requires HalfRestored(inst, db1, p, c, j, db2) && FinalSets(inst, db2, c, db3) && i < |SETS|
    ensures Dropped(inst, db3, c, SETS[i]) == Names(p, SETS[i]) - Names(c, SETS[i])
  {
    hide HalfRestored, SetKey, NewKey, Names, OwnUpTo;
    HalfDropped(inst, db1, p, c, j, db2, i);
  }

  /** And the store of `c` after that retry is the closed-form update, for every reply order, exactly when in each set
      in which `c` has names the re-publication had written a key of every name of `p` that `c` lacks or of none. */
  lemma NextStoreIff(inst: Inst, db1: Db, p: Configuration, c: Configuration, j: nat, db2: Db, kv: map<string, string>,
                     stamp: string, db3: Db)
    requires HalfRestored(inst, db1, p, c, j, db2) && WfConf(c) && KvOf(c) == Some(kv) && DroppedApart(Some(p), c)
    requires ValidDb(db3) && FinalSets(inst, db2, c, db3) && db3.strings == FinalStrings(inst, db2, c, kv, stamp)
    ensures AlwaysClosedForm(inst, db3, c, kv)
            <==> forall i :: 0 <= i < |SETS| && Names(c, SETS[i]) != {} ==>
                   EvenlyWritten(p, j, SETS[i], Names(p, SETS[i]) - Names(c, SETS[i]))
  {
    hide HalfRestored, WfConf, KvOf, ValidDb, Names, Dropped, EvenIn, EvenlyWritten, DroppedApart, AlwaysClosedForm,
      SortedSeq, Apart, DropNames, FinalSets, FinalStrings;
    HalfWf(inst, db1, p, c, j, db2);
    forall i | 0 <= i < |SETS|
      ensures Dropped(inst, db3, c, SETS[i]) == Names(p, SETS[i]) - Names(c, SETS[i])
      ensures EvenIn(db3.strings, SETS[i], Dropped(inst, db3, c, SETS[i]))
              <==> (Names(c, SETS[i]) != {} ==> EvenlyWritten(p, j, SETS[i], Names(p, SETS[i]) - Names(c, SETS[i])))
    {
      RetriedDropped(inst, db1, p, c, j, db2, db3, i);
      RetriedEven(inst, db1, p, c, j, db2, kv, stamp, i);
    }
    DropsApart(inst, db3, Some(p), c);
    ClosedFormIff(inst, db3, c, kv);
  }

  lemma RetriedEven(inst: Inst, db1: Db, p: Configuration, c: Configuration, j: nat, db2: Db, kv: map<string, string>,
                    stamp: string, i: nat)
    requires HalfRestored(inst, db1, p, c, j, db2) && WfConf(c) && KvOf(c) == Some(kv) && DroppedApart(Some(p), c)
    requires i < |SETS|
    ensures var names := Names(p, SETS[i]) - Names(c, SETS[i]);
      EvenIn(FinalStrings(inst, db2, c, kv, stamp), SETS[i], names)
      <==> (Names(c, SETS[i]) != {} ==> EvenlyWritten(p, j, SETS[i], names))
  {
    hide HalfRestored, WfConf, KvOf, Names, Live, FinalStrings, WrittenBy, DroppedApart, SortedSeq, ValidDb;
    HalfWf(inst, db1, p, c, j, db2);
    forall n | n in Names(p, SETS[i]) - Names(c, SETS[i])
      ensures Live(FinalStrings(inst, db2, c, kv, stamp), SETS[i], n)
              <==> Names(c, SETS[i]) != {} && WrittenBy(p, j, SETS[i], n)
    {
      RetriedLive(inst, db1, p, c, j, db2, kv, stamp, i, n);
    }
  }

  // ---------- such a re-publication exists ----------

  lemma OneLess(c: Configuration, l: nat, sn: SetName, n: string)
    requires WfConf(c) && KvOf(c).Some? && l < |SortedSeq(KvOf(c).value.Keys)|
    ensures WrittenBy(c, l + 1, sn, n) <==> WrittenBy(c, l, sn, n) || Under(sn, n, SortedSeq(KvOf(c).value.Keys)[l])
  {
    hide WfConf, KvOf, SortedSeq, Under;
    var keys := SortedSeq(KvOf(c).value.Keys);
    assert keys[..l + 1] == keys[..l] + [keys[l]];
    assert Among(keys[..l + 1]) == Among(keys[..l]) + {keys[l]};
  }

  /** Going back from a point at which one of two names has a key, there is a point at which only one of them has. */
  lemma {:induction false} FirstMix(c: Configuration, l: nat, sn: SetName, u: string, v: string) returns (j: nat)
    requires WfConf(c) && KvOf(c).Some? && StripDocker(u) != StripDocker(v)
    requires l <= |SortedSeq(KvOf(c).value.Keys)| && (WrittenBy(c, l, sn, u) || WrittenBy(c, l, sn, v))
    ensures j <= |SortedSeq(KvOf(c).value.Keys)| && WrittenBy(c, j, sn, u) != WrittenBy(c, j, sn, v)
  {
    hide WfConf, KvOf, SortedSeq, Under;
    if WrittenBy(c, l, sn, u) != WrittenBy(c, l, sn, v) {
      j := l;
    } else {
      var keys := SortedSeq(KvOf(c).value.Keys);
      assert l > 0;
      OneLess(c, l - 1, sn, u);
      OneLess(c, l - 1, sn, v);
      if Under(sn, u, keys[l - 1]) && Under(sn, v, keys[l - 1]) {
        UnderUnique(sn, u, sn, v, keys[l - 1]);
      }
      j := FirstMix(c, l - 1, sn, u, v);
    }
  }

  lemma AllWritten(c: Configuration, sn: SetName, n: string)
    requires WfConf(c) && KvOf(c).Some? && Emits(c, sn, n)
    ensures WrittenBy(c, |SortedSeq(KvOf(c).value.Keys)|, sn, n)
  {
    hide WfConf, KvOf, SortedSeq, Under;
    var keys := SortedSeq(KvOf(c).value.Keys);
    assert keys[..|keys|] == keys;
    var k :| k in KvOf(c).value && Under(sn, n, k);
    assert k in Among(keys);
  }

  /** For two names that publish something there is a point at which one of them has a key and the other has none. */
  lemma SomeCutMixes(c: Configuration, sn: SetName, u: string, v: string) returns (j: nat)
    requires WfConf(c) && KvOf(c).Some? && Emits(c, sn, u) && Emits(c, sn, v) && StripDocker(u) != StripDocker(v)
    ensures j < |SortedSeq(KvOf(c).value.Keys)| && WrittenBy(c, j, sn, u) != WrittenBy(c, j, sn, v)
  {
    hide WfConf, KvOf, SortedSeq, Emits, WrittenBy;
    AllWritten(c, sn, u);
    AllWritten(c, sn, v);
    j := FirstMix(c, |SortedSeq(KvOf(c).value.Keys)|, sn, u, v);
  }

  lemma PutIsNotLast(c: Configuration, kv: map<string, string>, ch: Choice, d: nat)
    requires Shaped(ch) && d < |FullPlan(c, kv, ch)| && FullPlan(c, kv, ch)[d].Put?
    ensures d + 1 != |FullPlan(c, kv, ch)|
  {
    hide TrackPlan, WritePlan, CleanPlan, Swaps;
  }

  /** A store can stop after any number of its SETs. */
  lemma StopsAfter(inst: Inst, db: Db, c: Configuration, j: nat) returns (ch: Choice, done: nat, db': Db)
    requires WfConf(c) && KvOf(c).Some? && ValidDb(db) && j < |SortedSeq(KvOf(c).value.Keys)|
    ensures Shaped(ch) && StoreStep(inst, db, c, ch, done, db', false) && ValidDb(db')
    ensures done + 1 != |StorePlan(c, ch)|
    ensures LeftBy(inst, db, c, KvOf(c).value, j, Run(inst, Sys(db, false), TrackPlan(c, ch)).db.strings, db')
    ensures Possible(inst, db, c, ch)
  {
    hide WfConf, KvOf, ValidDb, Possible, Dropped, Enumerates, SortedSeq, Run, CutPlan, FullPlan, LeftBy, TrackPlan;
    var reply := Enumeration(Dropped(inst, db, c, SETS[0]));
    ch := PossibleWith(inst, db, c, 0, reply);
    var kv := KvOf(c).value;
    CutIsPrefix(c, kv, ch, j);
    done := |CutPlan(c, kv, ch, j)|;
    PutIsNotLast(c, kv, ch, done);
    db' := Run(inst, Sys(db, false), CutPlan(c, kv, ch, j)).db;
    CutLeftBy(inst, db, c, kv, ch, j, db');
    CutValid(inst, db, c, kv, ch, j);
  }

  lemma SomeHalf(inst: Inst, db1: Db, p: Configuration, c: Configuration, j: nat)
    returns (ch: Choice, done: nat, db2: Db)
    requires WfConf(p) && KvOf(p).Some? && Pending(inst, db1, p, c) && j < |SortedSeq(KvOf(p).value.Keys)|
    ensures StoreStep(inst, db1, p, ch, done, db2, false) && HalfRestored(inst, db1, p, c, j, db2)
  {
    PendingValid(inst, db1, p, c);
    hide WfConf, KvOf, ValidDb, Pending, SortedSeq, StoreStep, Removed, LeftBy, Possible, PlainDrops, Run, TrackPlan;
    PendingPlain(inst, db1, p, c);
    ch, done, db2 := StopsAfter(inst, db1, p, j);
    RemovalLeaves(inst, db1, p, ch);
  }

  /** A KeepConfAlive finds keys of `p` gone, renews the rest if the sentinel is there, and re-publishes. */
  lemma SomeFailingKeep(inst: Inst, db1: Db, p: Configuration, c: Configuration, j: nat, i: nat, u: string)
    returns (keep: Keep, base: Db, db2: Db)
    requires inst.ttl > 0 && WfConf(p) && KvOf(p).Some? && Pending(inst, db1, p, c)
    requires j < |SortedSeq(KvOf(p).value.Keys)|
    requires i < |SETS| && u in Names(p, SETS[i]) - Names(c, SETS[i]) && Emits(p, SETS[i], u)
    ensures KeepStep(inst, db1, Some(p), keep, db2, false) && HalfRestored(inst, base, p, c, j, db2)
  {
    hide WfConf, KvOf, Pending, StoreStep, SortedSeq, Names, Emits, HalfRestored, ValidDb, Sentinel;
    var renewed := Sentinel(inst) in db1.strings;
    base := if renewed then Renewed(db1, Wanted(inst, p), inst.ttl) else db1;
    FewerPending(inst, db1, base, p, c);
    var ch, done;
    ch, done, db2 := SomeHalf(inst, base, p, c, j);
    keep := Restore(renewed, ch, done);
    KeyMissing(inst, db1, p, c, i, u);
  }

  lemma KeyMissing(inst: Inst, db: Db, p: Configuration, c: Configuration, i: nat, u: string)
    requires WfConf(p) && KvOf(p).Some? && Pending(inst, db, p, c)
    requires i < |SETS| && u in Names(p, SETS[i]) - Names(c, SETS[i]) && Emits(p, SETS[i], u)
    ensures !(Wanted(inst, p) <= db.strings.Keys)
  {
    hide WfConf, KvOf, Pending, Names, Under, Sentinel;
    PendingDead(inst, db, p, c, i, u);
    var k :| k in KvOf(p).value && Under(SETS[i], u, k);
    assert k in Wanted(inst, p) && k !in db.strings;
  }

  lemma AnyStore(inst: Inst, db: Db, c: Configuration) returns (ch: Choice, done: nat, db': Db)
    requires WfConf(c) && KvOf(c).Some? && ValidDb(db)
    ensures Shaped(ch) && Possible(inst, db, c, ch) && StoreStep(inst, db, c, ch, done, db', true)
    ensures FinalSets(inst, db, c, db') && ValidDb(db')
    ensures db' == Run(inst, Sys(db, false), FullPlan(c, KvOf(c).value, ch)).db
  {
    hide WfConf, KvOf, ValidDb, Possible, Dropped, Enumerates, StoreStep, FinalSets, Run, FullPlan;
    var reply := Enumeration(Dropped(inst, db, c, SETS[0]));
    ch := PossibleWith(inst, db, c, 0, reply);
    done, db' := Completed(inst, db, c, ch);
  }

  lemma ClosedFormOf(inst: Inst, db: Db, c: Configuration, kv: map<string, string>, ch: Choice)
    requires AlwaysClosedForm(inst, db, c, kv) && Possible(inst, db, c, ch) && Shaped(ch)
    ensures Run(inst, Sys(db, false), FullPlan(c, kv, ch)).db.strings == FinalStrings(inst, db, c, kv, ch.stamp)
  {
    hide Possible, Run, FullPlan, FinalStrings;
  }

  /** The retry of `c` succeeds and takes the older names over. */
  lemma RetryTakesOver(inst: Inst, db1: Db, p: Configuration, c: Configuration, j: nat, db2: Db)
    returns (ch: Choice, done: nat, stamp: string, db3: Db)
    requires HalfRestored(inst, db1, p, c, j, db2) && WfConf(c) && KvOf(c).Some? && DroppedApart(Some(p), c)
    requires forall l :: 0 <= l < |SETS| && Names(c, SETS[l]) == {} ==> Names(p, SETS[l]) == {}
    ensures StoreStep(inst, db2, c, ch, done, db3, true) && ValidDb(db3) && FinalSets(inst, db2, c, db3)
    ensures db3.strings == FinalStrings(inst, db2, c, KvOf(c).value, stamp)
  {
    hide HalfRestored, WfConf, KvOf, ValidDb, Possible, StoreStep, FinalSets, Run, FullPlan, FinalStrings,
      AlwaysClosedForm, DroppedApart, WrittenBy, SortedSeq, Names;
    HalfWf(inst, db1, p, c, j, db2);
    ch, done, db3 := AnyStore(inst, db2, c);
    stamp := ch.stamp;
    RetryAfterCutIff(inst, db1, p, c, j, db2, KvOf(c).value);
    ClosedFormOf(inst, db2, c, KvOf(c).value, ch);
  }

  /** The leak: a failed store of `c`, a KeepConfAlive that re-publishes the older `p` and fails, the successful retry
      of `c`, and one more store of `c` leave a key that no tracking set covers, for some number of writes and some
      reply order, whenever `c` lacks two names of `p` that publish something and has names in every set in which `p`
      has. */
  lemma RepublicationLeaks(inst: Inst, db1: Db, p: Configuration, c: Configuration, i: nat, u: string, v: string)
    returns (keep: Keep, db2: Db, db3: Db, db4: Db, k: string)
    requires inst.ttl > 0
    requires WfConf(p) && KvOf(p).Some? && WfConf(c) && KvOf(c).Some? && Pending(inst, db1, p, c)
    requires DroppedApart(Some(p), c)
    requires forall l :: 0 <= l < |SETS| && Names(c, SETS[l]) == {} ==> Names(p, SETS[l]) == {}
    requires i < |SETS| && u in Names(p, SETS[i]) - Names(c, SETS[i]) && v in Names(p, SETS[i]) - Names(c, SETS[i])
    requires u != v
    requires Emits(p, SETS[i], u) && Emits(p, SETS[i], v)
    ensures KeepStep(inst, db1, Some(p), keep, db2, false)
    ensures Serial.StoreDone(inst, db2, c, db3, true) && Serial.StoreDone(inst, db3, c, db4, true)
    ensures k in db4.strings && (Under(SETS[i], u, k) || Under(SETS[i], v, k))
    ensures !HasOwner(TrackedNames(inst, db4, SETS[i]), SETS[i], k)
  {
    hide WfConf, KvOf, Pending, StoreStep, FinalSets, FinalStrings, DroppedApart, WrittenBy, SortedSeq, Names, Emits,
      Under, HalfRestored, HasOwner, Live, StripDocker, ValidDb, KeepStep;
    DifferentNames(p, i, u, v);
    var j := SomeCutMixes(p, SETS[i], u, v);
    var base, ch2, done2, stamp, ch3, done3;
    keep, base, db2 := SomeFailingKeep(inst, db1, p, c, j, i, u);
    ch2, done2, stamp, db3 := RetryTakesOver(inst, base, p, c, j, db2);
    var dead, n := MixedAfter(inst, base, p, c, j, db2, KvOf(c).value, stamp, i, u, v);
    ch3, done3, db4, k := MixedStoreLeaks(inst, base, p, c, j, db2, db3, i, dead, n);
    IsDone(inst, db2, c, ch2, done2, db3, true);
    IsDone(inst, db3, c, ch3, done3, db4, true);
  }

  lemma IsDone(inst: Inst, db: Db, c: Configuration, ch: Choice, done: nat, db': Db, ok: bool)
    requires WfConf(c) && StoreStep(inst, db, c, ch, done, db', ok)
    ensures Serial.StoreDone(inst, db, c, db', ok)
  {
    hide WfConf, StoreStep;
  }

  lemma DifferentNames(c: Configuration, i: nat, u: string, v: string)
    requires WfConf(c) && i < |SETS| && u in Names(c, SETS[i]) && v in Names(c, SETS[i]) && u != v
    ensures StripDocker(u) != StripDocker(v)
  {
    EntryWf(c, SETS[i], u);
  }

  lemma MixedAfter(inst: Inst, db1: Db, p: Configuration, c: Configuration, j: nat, db2: Db, kv: map<string, string>,
                   stamp: string, i: nat, u: string, v: string)
    returns (dead: string, n: string)
    requires HalfRestored(inst, db1, p, c, j, db2) && WfConf(c) && KvOf(c) == Some(kv) && DroppedApart(Some(p), c)
    requires i < |SETS| && u in Names(p, SETS[i]) - Names(c, SETS[i]) && v in Names(p, SETS[i]) - Names(c, SETS[i])
    requires WfConf(p) && KvOf(p).Some? && j < |SortedSeq(KvOf(p).value.Keys)| && Names(c, SETS[i]) != {}
    requires WrittenBy(p, j, SETS[i], u) != WrittenBy(p, j, SETS[i], v)
    ensures {dead, n} == {u, v}
    ensures !Live(FinalStrings(inst, db2, c, kv, stamp), SETS[i], dead)
    ensures Live(FinalStrings(inst, db2, c, kv, stamp), SETS[i], n)
  {
    hide WfConf, KvOf, FinalStrings, DroppedApart, WrittenBy, SortedSeq, Names, HalfRestored, Live;
    RetriedLive(inst, db1, p, c, j, db2, kv, stamp, i, u);
    RetriedLive(inst, db1, p, c, j, db2, kv, stamp, i, v);
    if WrittenBy(p, j, SETS[i], u) {
      dead, n := v, u;
    } else {
      dead, n := u, v;
    }
  }

  lemma MixedStoreLeaks(inst: Inst, db1: Db, p: Configuration, c: Configuration, j: nat, db2: Db, db3: Db, i: nat,
                        dead: string, n: string)
    returns (ch: Choice, done: nat, db4: Db, k: string)
    requires HalfRestored(inst, db1, p, c, j, db2) && WfConf(c) && KvOf(c).Some? && DroppedApart(Some(p), c)
    requires ValidDb(db3) && FinalSets(inst, db2, c, db3) && i < |SETS|
    requires dead in Names(p, SETS[i]) - Names(c, SETS[i]) && !Live(db3.strings, SETS[i], dead)
    requires n in Names(p, SETS[i]) - Names(c, SETS[i]) && Live(db3.strings, SETS[i], n)
    ensures StoreStep(inst, db3, c, ch, done, db4, true)
    ensures k in db4.strings && Under(SETS[i], n, k) && !HasOwner(TrackedNames(inst, db4, SETS[i]), SETS[i], k)
  {
    hide HalfRestored, WfConf, KvOf, ValidDb, StoreStep, FinalSets, Run, FullPlan, DroppedApart, SortedSeq, Names,
      Under, HasOwner, Live, Dropped, LeftApart, Apart, DropNames, Possible;
    HalfWf(inst, db1, p, c, j, db2);
    forall l | 0 <= l < |SETS| ensures Dropped(inst, db3, c, SETS[l]) == Names(p, SETS[l]) - Names(c, SETS[l]) {
      RetriedDropped(inst, db1, p, c, j, db2, db3, l);
    }
    DropsApart(inst, db3, Some(p), c);
    NothingLeft(inst, db2, c, db3);
    ch, k := MixedDropLeaks(inst, db3, c, KvOf(c).value, i, dead, n);
    done, db4 := Completed(inst, db3, c, ch);
  }

  lemma NothingLeft(inst: Inst, db: Db, c: Configuration, db': Db)
    requires FinalSets(inst, db, c, db')
    ensures LeftApart(inst, db', c)
  {
    hide SetKey, NewKey, Names, OwnUpTo, Dropped;
  }
}
