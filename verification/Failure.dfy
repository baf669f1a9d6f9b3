/** Where a store that returns an error has stopped, and that storing the same configuration again finds nothing left
    to remove. */
module Failure {
  import opened Paths
  import opened Values
  import opened Config
  import opened Published
  import opened Redis
  import opened Plan
  import opened Removal
  import opened ClosedForm
  import opened Ownership
  import opened KeepAlive
  import opened Ttl

  // ---------- where it stopped ----------

  lemma PlanAt(c: Configuration, kv: map<string, string>, ch: Choice, d: nat)
    requires Shaped(ch) && d < |FullPlan(c, kv, ch)|
    ensures d < |TrackPlan(c, ch)| ==> FullPlan(c, kv, ch)[d].Add? || FullPlan(c, kv, ch)[d].Remove?
    ensures |TrackPlan(c, ch)| + |WritePlan(kv)| <= d < |TrackPlan(c, ch)| + |WritePlan(kv)| + |CleanPlan(kv, ch)| ==>
      FullPlan(c, kv, ch)[d].Stale?
    ensures |TrackPlan(c, ch)| + |WritePlan(kv)| + |CleanPlan(kv, ch)| <= d < |FullPlan(c, kv, ch)| - 1 ==>
      FullPlan(c, kv, ch)[d].Swap?
  {
    TracksQuiet(c, ch.replies, |SETS|);
    AllStalesQuiet(ch.services, kv.Keys, |PROTO_ORDER|);
    hide Tracks, AllStales, WritePlan;
    var t, w, s, p := TrackPlan(c, ch), WritePlan(kv), CleanPlan(kv, ch), FullPlan(c, kv, ch);
    if d < |t| {
      assert p[d] == t[d] && t[d] in t;
    } else if |t| + |w| <= d < |t| + |w| + |s| {
      assert p[d] == s[d - |t| - |w|] && s[d - |t| - |w|] in s;
    }
  }

  /** The command that failed is a SET of the rendering, or the last command. */
  lemma StopsAt(c: Configuration, kv: map<string, string>, ch: Choice, done: nat) returns (j: nat)
    requires Shaped(ch) && done < |FullPlan(c, kv, ch)|
    requires FullPlan(c, kv, ch)[done].Put? || FullPlan(c, kv, ch)[done].Stamp?
    ensures j <= |SortedSeq(kv.Keys)|
    ensures j < |SortedSeq(kv.Keys)| ==> FullPlan(c, kv, ch)[..done] == CutPlan(c, kv, ch, j)
    ensures j == |SortedSeq(kv.Keys)| <==> done == |FullPlan(c, kv, ch)| - 1
  {
    PlanAt(c, kv, ch, done);
    hide TrackPlan, CleanPlan, SortedSeq;
    var t, n := |TrackPlan(c, ch)|, |SortedSeq(kv.Keys)|;
    if t <= done < t + n {
      j := done - t;
      CutIsPrefix(c, kv, ch, j);
    } else {
      j := n;
    }
  }

  /** The sets after the removal phase: the new names are in the temporary sets, the tracking sets as before. */
  ghost predicate Announced(inst: Inst, db: Db, c: Configuration, db': Db)
  {
    forall i :: 0 <= i < |SETS| ==>
      && db'.Members(SetKey(inst, SETS[i])) == db.Members(SetKey(inst, SETS[i]))
      && db'.Members(NewKey(inst, SETS[i])) == db.Members(NewKey(inst, SETS[i])) + Names(c, SETS[i])
  }

  lemma TrackedAnnounced(inst: Inst, db: Db, c: Configuration, ch: Choice)
    requires Shaped(ch)
    ensures Announced(inst, db, c, Run(inst, Sys(db, false), TrackPlan(c, ch)).db)
  {
    hide Run, Tracks, SetKey, NewKey, Names;
    forall i | 0 <= i < |SETS|
      ensures Run(inst, Sys(db, false), TrackPlan(c, ch)).db.Members(SetKey(inst, SETS[i]))
              == db.Members(SetKey(inst, SETS[i]))
      ensures Run(inst, Sys(db, false), TrackPlan(c, ch)).db.Members(NewKey(inst, SETS[i]))
              == db.Members(NewKey(inst, SETS[i])) + Names(c, SETS[i])
    {
      NewNames(inst, db, c, ch, i);
      forall j | 0 <= j < |SETS|
        ensures SetKey(inst, SETS[i]) != NewKey(inst, SETS[j])
      {
        OwnKeysDistinct(inst, SETS[j], SETS[i]);
      }
      AddedMiss(inst, c, |SETS|, SetKey(inst, SETS[i]));
      TracksSets(inst, Sys(db, false), c, ch.replies, |SETS|, SetKey(inst, SETS[i]));
    }
  }

  lemma SameAnnounced(inst: Inst, db: Db, c: Configuration, a: Db, b: Db)
    requires Announced(inst, db, c, a) && a.sets == b.sets
    ensures Announced(inst, db, c, b)
  {
    hide SetKey, NewKey, Names;
  }

  /** What the removal phase leaves of the keys: nothing is changed, nothing else is removed than what a dropped name
      claims, and all of that when of each set's dropped names all or none have keys. */
  ghost predicate Removed(inst: Inst, db: Db, c: Configuration, left: map<string, Item>)
  {
    && (forall k :: k in left ==> k in db.strings && left[k] == db.strings[k])
    && (forall k :: k in db.strings && !Claimed(AllClaims(inst, db, c), k) ==> k in left)
    && (DropsEven(inst, db, c) ==> left == Purge(db.strings, AllClaims(inst, db, c)))
  }

  lemma TrackSpares(inst: Inst, db: Db, c: Configuration, ch: Choice, m: Micro, k: string)
    requires Possible(inst, db, c, ch) && Shaped(ch) && PlainDrops(inst, db, c) && m in TrackPlan(c, ch)
    requires !Claimed(AllClaims(inst, db, c), k)
    ensures Spares(m, k) && !m.Put? && !m.Stamp?
  {
    TracksQuietNoStale(c, ch.replies, |SETS|);
    PossibleReplies(inst, db, c, ch);
    hide Tracks, Dropped, Claimed, AllClaims, Possible;
    if m.Remove? {
      var i :| 0 <= i < |SETS| && m.sn == SETS[i] && m.name in ch.replies[i];
      assert m.name in Dropped(inst, db, c, SETS[i]);
      if Under(m.sn, m.name, k) { DroppedIsClaimed(inst, db, c, i, m.name, k); }
    }
  }

  lemma RemovalLeaves(inst: Inst, db: Db, c: Configuration, ch: Choice)
    requires Possible(inst, db, c, ch) && Shaped(ch) && PlainDrops(inst, db, c)
    ensures Removed(inst, db, c, Run(inst, Sys(db, false), TrackPlan(c, ch)).db.strings)
  {
    var p, left := TrackPlan(c, ch), Run(inst, Sys(db, false), TrackPlan(c, ch)).db.strings;
    TracksQuiet(c, ch.replies, |SETS|);
    hide Run, Tracks, Possible, DropsEven, Claimed, AllClaims, PlainDrops, Purge, Sentinel, Spares;
    forall k | k in left ensures k in db.strings && left[k] == db.strings[k] {
      RunOnlyWrites(inst, Sys(db, false), p, k);
    }
    forall k | k in db.strings && !Claimed(AllClaims(inst, db, c), k) ensures k in left {
      forall m | m in p ensures Spares(m, k) { TrackSpares(inst, db, c, ch, m, k); }
      RunKeeps(inst, Sys(db, false), p, k);
    }
    if DropsEven(inst, db, c) { TrackPlanStrings(inst, db, c, ch); }
  }

  /** What a failed store of a renderable configuration leaves after `j` successful writes: with `left` of the old
      keys, exactly the first j of the sorted keys written, or everything done but the sentinel. */
  ghost predicate LeftBy(inst: Inst, db: Db, c: Configuration, kv: map<string, string>, j: nat,
                         left: map<string, Item>, db': Db)
    requires j <= |SortedSeq(kv.Keys)|
  {
    if j < |SortedSeq(kv.Keys)| then
      Announced(inst, db, c, db')
      && db'.strings == Written(left, kv, Among(SortedSeq(kv.Keys)[..j]), db.Deadline(inst.ttl))
    else
      FinalSets(inst, db, c, db') && db'.strings == Cleaned(Written(left, kv, kv.Keys, db.Deadline(inst.ttl)), c, kv)
  }

  lemma CutLeftBy(inst: Inst, db: Db, c: Configuration, kv: map<string, string>, ch: Choice, j: nat, db': Db)
    requires Shaped(ch) && ValidDb(db) && j < |SortedSeq(kv.Keys)|
    requires db' == Run(inst, Sys(db, false), CutPlan(c, kv, ch, j)).db
    ensures LeftBy(inst, db, c, kv, j, Run(inst, Sys(db, false), TrackPlan(c, ch)).db.strings, db')
  {
    hide ValidDb, TrackPlan, CutPlan, SortedSeq, Run, Announced, Written, Among;
    TrackPlanValid(inst, db, c, ch);
    CutWrites(inst, Sys(db, false), c, kv, ch, j);
    CutAnnounced(inst, db, c, kv, ch, j);
  }

  lemma DoneLeftBy(inst: Inst, db: Db, c: Configuration, kv: map<string, string>, ch: Choice, db': Db)
    requires Shaped(ch) && ValidDb(db) && Possible(inst, db, c, ch) && |FullPlan(c, kv, ch)| > 0
    requires db' == Run(inst, Sys(db, false), FullPlan(c, kv, ch)[..|FullPlan(c, kv, ch)| - 1]).db
    ensures LeftBy(inst, db, c, kv, |SortedSeq(kv.Keys)|, Run(inst, Sys(db, false), TrackPlan(c, ch)).db.strings, db')
  {
    hide ValidDb, Possible, TrackPlan, FullPlan, SortedSeq, Run, FinalSets, Written, Cleaned;
    var y4 := Run(inst, Sys(db, false), FullPlan(c, kv, ch)[..|FullPlan(c, kv, ch)| - 1]);
    BeforeStampStrings(inst, db, c, kv, ch, y4);
    BeforeStampSets(inst, db, c, kv, ch, y4);
  }

  /** A store that returns an error stops after some first j of the sorted keys, or with only the sentinel missing. */
  lemma FailedStore(inst: Inst, db: Db, c: Configuration, ch: Choice, done: nat, db': Db)
    returns (j: nat, left: map<string, Item>)
    requires WfConf(c) && KvOf(c).Some? && ValidDb(db) && PlainDrops(inst, db, c)
    requires StoreStep(inst, db, c, ch, done, db', false)
    ensures Shaped(ch) && j <= |SortedSeq(KvOf(c).value.Keys)|
    ensures Removed(inst, db, c, left) && LeftBy(inst, db, c, KvOf(c).value, j, left, db')
    ensures j == |SortedSeq(KvOf(c).value.Keys)| <==> done == |StorePlan(c, ch)| - 1
  {
    hide WfConf, KvOf, ValidDb, Possible, FullPlan, TrackPlan, CutPlan, SortedSeq, Run, PlainDrops, Removed, LeftBy;
    var kv := KvOf(c).value;
    PossibleShaped(inst, db, c, ch);
    j := StopsAt(c, kv, ch, done);
    left := Run(inst, Sys(db, false), TrackPlan(c, ch)).db.strings;
    RemovalLeaves(inst, db, c, ch);
    if j < |SortedSeq(kv.Keys)| {
      CutLeftBy(inst, db, c, kv, ch, j, db');
    } else {
      DoneLeftBy(inst, db, c, kv, ch, db');
    }
  }

  lemma CutAnnounced(inst: Inst, db: Db, c: Configuration, kv: map<string, string>, ch: Choice, j: nat)
    requires Shaped(ch) && j <= |SortedSeq(kv.Keys)|
    ensures Announced(inst, db, c, Run(inst, Sys(db, false), CutPlan(c, kv, ch, j)).db)
  {
    hide Run, TrackPlan, Written, SortedSeq, Among, Announced;
    TrackedAnnounced(inst, db, c, ch);
    CutWrites(inst, Sys(db, false), c, kv, ch, j);
    PutsRun(inst, Run(inst, Sys(db, false), TrackPlan(c, ch)), kv, SortedSeq(kv.Keys), j);
    SameAnnounced(inst, db, c, Run(inst, Sys(db, false), TrackPlan(c, ch)).db,
                  Run(inst, Sys(db, false), CutPlan(c, kv, ch, j)).db);
  }

  // ---------- storing the same configuration again ----------

  /** Only names of this configuration are left in the temporary sets. */
  ghost predicate LeftoverOf(inst: Inst, db: Db, c: Configuration)
  {
    forall i :: 0 <= i < |SETS| ==> db.Members(NewKey(inst, SETS[i])) <= Names(c, SETS[i])
  }

  /** A store of the configuration has nothing left to remove. */
  ghost predicate DropsDead(inst: Inst, db: Db, c: Configuration)
  {
    DropNames(inst, db, c) && forall i, n :: 0 <= i < |SETS| && n in Dropped(inst, db, c, SETS[i]) ==>
      !Live(db.strings, SETS[i], n)
  }

  /** The state between attempts to store the same configuration. */
  ghost predicate Retriable(inst: Inst, db: Db, c: Configuration)
  {
    ValidDb(db) && LeftoverOf(inst, db, c) && Apart(inst, db, c) && DropsDead(inst, db, c)
  }

  lemma AnnouncedDropped(inst: Inst, db: Db, c: Configuration, db': Db, i: nat)
    requires Announced(inst, db, c, db') && i < |SETS|
    ensures Dropped(inst, db', c, SETS[i]) == Dropped(inst, db, c, SETS[i])
  {
    hide SetKey, NewKey, Names;
  }

  lemma FinalDropped(inst: Inst, db: Db, c: Configuration, db': Db, i: nat)
    requires FinalSets(inst, db, c, db') && LeftoverOf(inst, db, c) && i < |SETS|
    ensures Dropped(inst, db', c, SETS[i]) == {} && db'.Members(NewKey(inst, SETS[i])) == {}
  {
    hide SetKey, NewKey, Names, OwnUpTo;
  }

  /** After the removal phase and some writes no dropped name has a key. */
  lemma WrittenDead(inst: Inst, db: Db, c: Configuration, strings: map<string, Item>, i: nat, n: string)
    requires WfConf(c) && Apart(inst, db, c) && i < |SETS| && n in Dropped(inst, db, c, SETS[i])
    requires forall k :: k in strings ==>
      k in Purge(db.strings, AllClaims(inst, db, c)) || (KvOf(c).Some? && k in KvOf(c).value)
    ensures !Live(strings, SETS[i], n)
  {
    hide WfConf, KvOf, Apart, Dropped, AllClaims, Under, Claimed;
    forall k | k in strings ensures !Under(SETS[i], n, k) {
      if Under(SETS[i], n, k) {
        DroppedIsClaimed(inst, db, c, i, n, k);
        if KvOf(c).Some? { DroppedSpares(inst, db, c, i, n, k); }
      }
    }
  }

  lemma AnnouncedRetriable(inst: Inst, db: Db, c: Configuration, db': Db)
    requires WfConf(c) && DropNames(inst, db, c) && LeftoverOf(inst, db, c) && Apart(inst, db, c) && ValidDb(db')
    requires Announced(inst, db, c, db')
    requires forall k :: k in db'.strings ==>
      k in Purge(db.strings, AllClaims(inst, db, c)) || (KvOf(c).Some? && k in KvOf(c).value)
    ensures Retriable(inst, db', c)
  {
    forall i | 0 <= i < |SETS|
      ensures Dropped(inst, db', c, SETS[i]) == Dropped(inst, db, c, SETS[i])
      ensures db'.Members(NewKey(inst, SETS[i])) <= Names(c, SETS[i])
      ensures forall n :: n in Dropped(inst, db, c, SETS[i]) ==> !Live(db'.strings, SETS[i], n)
    {
      AnnouncedDropped(inst, db, c, db', i);
      hide WfConf, KvOf, Dropped, Names, NewKey, SetKey, Apart, Purge, Live;
      forall n | n in Dropped(inst, db, c, SETS[i]) ensures !Live(db'.strings, SETS[i], n) {
        WrittenDead(inst, db, c, db'.strings, i, n);
      }
    }
    hide WfConf, KvOf, Dropped, Names, NewKey, SetKey, Purge, Live, ValidDb, Announced, PlainNames, AllSeparate;
  }

  lemma FinalRetriable(inst: Inst, db: Db, c: Configuration, db': Db)
    requires LeftoverOf(inst, db, c) && FinalSets(inst, db, c, db') && ValidDb(db')
    ensures Retriable(inst, db', c)
  {
    forall i | 0 <= i < |SETS|
      ensures Dropped(inst, db', c, SETS[i]) == {} && db'.Members(NewKey(inst, SETS[i])) == {}
    {
      FinalDropped(inst, db, c, db', i);
    }
    hide Dropped, Names, NewKey, SetKey, Live, FinalSets;
  }

  lemma WrittenKeys(strings: map<string, Item>, kv: map<string, string>, ks: set<string>, dl: Option<nat>, k: string)
    requires ks <= kv.Keys && k in Written(strings, kv, ks, dl)
    ensures k in strings || k in kv
  {
  }

  /** However a store fails, one more store of the same configuration finds nothing left to remove. */
  lemma FailureIsRetriable(inst: Inst, db: Db, c: Configuration, ch: Choice, done: nat, db': Db)
    requires WfConf(c) && ValidDb(db) && DropsEven(inst, db, c) && LeftoverOf(inst, db, c) && Apart(inst, db, c)
    requires StoreStep(inst, db, c, ch, done, db', false)
    ensures Retriable(inst, db', c)
  {
    PossibleShaped(inst, db, c, ch);
    StoreValid(inst, db, c, ch, done, db', false);
    hide WfConf, ValidDb, DropsEven, LeftoverOf, Apart, Possible, TrackPlan, Run, Announced, FinalSets, Purge, Written,
      Cleaned, AllClaims, Retriable, SortedSeq, Among, DropNames, FullPlan;
    EvenHasNames(inst, db, c);
    NamesPlain(inst, db, c);
    if KvOf(c).None? {
      UnrenderedStops(inst, db, c, ch, done, db');
      TrackedAnnounced(inst, db, c, ch);
      TrackPlanStrings(inst, db, c, ch);
      AnnouncedRetriable(inst, db, c, db');
    } else {
      hide KvOf, StoreStep;
      var j, left := FailedStore(inst, db, c, ch, done, db');
      var kv := KvOf(c).value;
      if j < |SortedSeq(kv.Keys)| {
        forall k | k in db'.strings ensures k in Purge(db.strings, AllClaims(inst, db, c)) || k in kv {
          WrittenKeys(Purge(db.strings, AllClaims(inst, db, c)), kv, Among(SortedSeq(kv.Keys)[..j]),
                      db.Deadline(inst.ttl), k);
        }
        AnnouncedRetriable(inst, db, c, db');
      } else {
        FinalRetriable(inst, db, c, db');
      }
    }
  }

  lemma NamesPlain(inst: Inst, db: Db, c: Configuration)
    requires DropNames(inst, db, c)
    ensures PlainDrops(inst, db, c)
  {
    hide Dropped, PlainNames;
  }

  lemma EvenHasNames(inst: Inst, db: Db, c: Configuration)
    requires DropsEven(inst, db, c)
    ensures DropNames(inst, db, c)
  {
  }

  /** Without a rendering the store ends right after the removal phase. */
  lemma UnrenderedStops(inst: Inst, db: Db, c: Configuration, ch: Choice, done: nat, db': Db)
    requires WfConf(c) && KvOf(c).None? && Shaped(ch) && StoreStep(inst, db, c, ch, done, db', false)
    ensures db' == Run(inst, Sys(db, false), TrackPlan(c, ch)).db
  {
    TracksQuiet(c, ch.replies, |SETS|);
    hide WfConf, KvOf, Possible, Tracks, Run;
    var p := StorePlan(c, ch);
    forall d | 0 <= d < |p| ensures p[d].Add? || p[d].Remove? {
      assert p[d] in p;
    }
    assert p[..|p|] == p;
  }

  /** What may happen between two attempts: time and lost keys. */
  ghost predicate Fewer(a: Db, b: Db)
  {
    b.sets == a.sets && b.strings.Keys <= a.strings.Keys
  }

  lemma FewerRetriable(inst: Inst, a: Db, b: Db, c: Configuration)
    requires Retriable(inst, a, c) && Fewer(a, b)
    ensures Retriable(inst, b, c)
  {
    SameSetsValid(a, b);
    hide SetKey, NewKey, Names, Under, ValidDb, Apart, PlainNames, AllSeparate;
    forall i | 0 <= i < |SETS|
      ensures Dropped(inst, b, c, SETS[i]) == Dropped(inst, a, c, SETS[i])
      ensures b.Members(NewKey(inst, SETS[i])) == a.Members(NewKey(inst, SETS[i]))
    {
    }
    hide Dropped;
    ApartSame(inst, a, b, c);
    forall i, n | 0 <= i < |SETS| && n in Dropped(inst, a, c, SETS[i]) ensures !Live(b.strings, SETS[i], n) {
      assert !Live(a.strings, SETS[i], n);
    }
  }

  lemma ApartSame(inst: Inst, a: Db, b: Db, c: Configuration)
    requires Apart(inst, a, c)
    requires forall i :: 0 <= i < |SETS| ==> Dropped(inst, b, c, SETS[i]) == Dropped(inst, a, c, SETS[i])
    ensures Apart(inst, b, c)
  {
    forall i, n, m | 0 <= i < |SETS| && n in Dropped(inst, b, c, SETS[i]) && m in Names(c, SETS[i])
      ensures Plain(n) && StripDocker(n) != StripDocker(m)
    {
      ApartAt(inst, a, c, i, n, m);
    }
  }

  lemma DeadIsEven(inst: Inst, db: Db, c: Configuration)
    requires DropsDead(inst, db, c)
    ensures DropsEven(inst, db, c)
  {
    hide Dropped, Live, PlainNames, AllSeparate;
  }

  lemma RetriableHas(inst: Inst, db: Db, c: Configuration)
    requires Retriable(inst, db, c)
    ensures ValidDb(db) && DropsEven(inst, db, c) && LeftoverOf(inst, db, c) && Apart(inst, db, c)
  {
    DeadIsEven(inst, db, c);
  }
}
