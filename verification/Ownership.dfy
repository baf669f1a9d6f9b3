/** Over any run of stores cut anywhere, renewals, restarts, expiry and external loss, every live key
    this instance wrote in a tracked area lies under a name it still tracks. */
module Ownership {
  import opened Paths
  import opened Values
  import opened Config
  import opened Published
  import opened Redis
  import opened Plan
  import opened Removal
  import opened ClosedForm

  /** `mine`: the keys this instance has ever written by SET. */
  datatype Ledger = Ledger(db: Db, mine: set<string>)

  ghost predicate HasOwner(names: set<string>, sn: SetName, key: string)
  {
    exists n :: n in names && Under(sn, n, key)
  }

  function TrackedNames(inst: Inst, db: Db, sn: SetName): set<string>
  {
    db.Members(SetKey(inst, sn)) + db.Members(NewKey(inst, sn))
  }

  ghost predicate Owned(inst: Inst, db: Db, mine: set<string>)
  {
    forall i, k :: 0 <= i < |SETS| && k in mine && k in db.strings && InArea(SETS[i], k)
      ==> HasOwner(TrackedNames(inst, db, SETS[i]), SETS[i], k)
  }

  /** Owned by the names about to be swapped in. */
  ghost predicate OwnedNew(inst: Inst, db: Db, mine: set<string>)
  {
    forall i, k :: 0 <= i < |SETS| && k in mine && k in db.strings && InArea(SETS[i], k)
      ==> HasOwner(db.Members(NewKey(inst, SETS[i])), SETS[i], k)
  }

  lemma OwnerMonotone(a: set<string>, b: set<string>, sn: SetName, key: string)
    requires a <= b && HasOwner(a, sn, key)
    ensures HasOwner(b, sn, key)
  {
  }

  /** Fewer keys, more names. */
  ghost predicate Shrinks(a: Db, b: Db)
  {
    a.strings.Keys >= b.strings.Keys && forall t :: a.Members(t) <= b.Members(t)
  }

  lemma OwnedShrinks(inst: Inst, a: Db, b: Db, mine: set<string>)
    requires Owned(inst, a, mine) && Shrinks(a, b)
    ensures Owned(inst, b, mine)
  {
    hide Under, InArea, SetKey, NewKey;
    forall i, k | 0 <= i < |SETS| && k in mine && k in b.strings && InArea(SETS[i], k)
      ensures HasOwner(TrackedNames(inst, b, SETS[i]), SETS[i], k)
    {
      OwnerMonotone(TrackedNames(inst, a, SETS[i]), TrackedNames(inst, b, SETS[i]), SETS[i], k);
    }
  }

  predicate Quiet(m: Micro)
  {
    m.Add? || m.Remove? || m.Stale?
  }

  lemma QuietStep(inst: Inst, y: Sys, m: Micro)
    requires Quiet(m)
    ensures Shrinks(y.db, Do(inst, y, m).db)
    ensures m.Stale? ==> Do(inst, y, m).db.sets == y.db.sets
  {
    if m.Add? {
      forall t ensures y.db.Members(t) <= Do(inst, y, m).db.Members(t) {
        AddMembers(y.db, NewKey(inst, m.sn), m.names, t);
      }
    }
  }

  lemma {:induction false} QuietRun(inst: Inst, y: Sys, p: seq<Micro>)
    requires forall m :: m in p ==> Quiet(m)
    ensures Shrinks(y.db, Run(inst, y, p).db)
    ensures (forall m :: m in p ==> m.Stale?) ==> Run(inst, y, p).db.sets == y.db.sets
  {
    if p != [] {
      hide Do;
      var n := |p| - 1;
      QuietRun(inst, y, p[..n]);
      QuietStep(inst, Run(inst, y, p[..n]), p[n]);
    }
  }

  lemma {:induction false} TracksQuiet(c: Configuration, replies: seq<seq<string>>, n: nat)
    requires n <= |SETS| && n <= |replies|
    ensures forall m :: m in Tracks(c, replies, n) ==> m.Add? || m.Remove?
  {
    if n > 0 {
      TracksQuiet(c, replies, n - 1);
    }
  }

  lemma {:induction false} AllStalesQuiet(services: seq<seq<string>>, kept: set<string>, n: nat)
    requires n <= |services| && n <= |PROTO_ORDER|
    ensures forall m :: m in AllStales(services, kept, n) ==> m.Stale?
  {
    if n > 0 {
      AllStalesQuiet(services, kept, n - 1);
    }
  }

  // ---------- after removeOldKeys ----------

  lemma NewNames(inst: Inst, db: Db, c: Configuration, ch: Choice, i: nat)
    requires Shaped(ch) && i < |SETS|
    ensures Run(inst, Sys(db, false), TrackPlan(c, ch)).db.Members(NewKey(inst, SETS[i]))
            == db.Members(NewKey(inst, SETS[i])) + Names(c, SETS[i])
  {
    hide Run, Tracks, NewKey, Names;
    TracksSets(inst, Sys(db, false), c, ch.replies, |SETS|, NewKey(inst, SETS[i]));
    AddedHit(inst, c, |SETS|, i);
  }

  lemma DroppedIsClaimed(inst: Inst, db: Db, c: Configuration, i: nat, n: string, k: string)
    requires i < |SETS| && n in Dropped(inst, db, c, SETS[i]) && Under(SETS[i], n, k)
    ensures Claimed(AllClaims(inst, db, c), k)
  {
    ClaimsUpToAt(inst, db, c, |SETS|, (SETS[i], n));
    assert (SETS[i], n) in AllClaims(inst, db, c);
  }

  /** Whatever survives the removal phase is owned by the names about to be swapped in. */
  lemma TrackedOwnedNew(inst: Inst, db: Db, mine: set<string>, c: Configuration, ch: Choice)
    requires Possible(inst, db, c, ch) && DropsEven(inst, db, c) && Owned(inst, db, mine) && Shaped(ch)
    ensures OwnedNew(inst, Run(inst, Sys(db, false), TrackPlan(c, ch)).db, mine)
  {
    var r := Run(inst, Sys(db, false), TrackPlan(c, ch)).db;
    TrackPlanStrings(inst, db, c, ch);
    hide Run, TrackPlan, Possible, DropsEven, Names, NewKey, SetKey, Under, InArea;
    forall i, k | 0 <= i < |SETS| && k in mine && k in r.strings && InArea(SETS[i], k)
      ensures HasOwner(r.Members(NewKey(inst, SETS[i])), SETS[i], k)
    {
      NewNames(inst, db, c, ch, i);
      var n :| n in TrackedNames(inst, db, SETS[i]) && Under(SETS[i], n, k);
      if n in Dropped(inst, db, c, SETS[i]) {
        DroppedIsClaimed(inst, db, c, i, n, k);
        assert false;
      }
      assert n in db.Members(NewKey(inst, SETS[i])) + Names(c, SETS[i]);
    }
  }

  lemma PutOwned(c: Configuration, i: nat, k: string, names: set<string>)
    requires WfConf(c) && KvOf(c).Some? && k in KvOf(c).value && i < |SETS| && InArea(SETS[i], k)
    requires Names(c, SETS[i]) <= names
    ensures HasOwner(names, SETS[i], k)
  {
    hide KvOf, WfConf, InArea, Under, Names;
    var n := TrackedKeyHasName(c, SETS[i], k);
  }

  /** Writing keys of the configuration keeps everything owned by the new names. */
  lemma WritesOwnedNew(inst: Inst, y: Sys, mine: set<string>, c: Configuration, kv: map<string, string>,
                       keys: seq<string>, j: nat)
    requires WfConf(c) && KvOf(c) == Some(kv) && j <= |keys| && (forall k :: k in keys ==> k in kv)
    requires OwnedNew(inst, y.db, mine)
    requires forall i :: 0 <= i < |SETS| ==> Names(c, SETS[i]) <= y.db.Members(NewKey(inst, SETS[i]))
    ensures OwnedNew(inst, Run(inst, y, Puts(kv, keys[..j])).db, mine + Among(keys[..j]))
    ensures Run(inst, y, Puts(kv, keys[..j])).db.sets == y.db.sets
  {
    PutsRun(inst, y, kv, keys, j);
    var r := Run(inst, y, Puts(kv, keys[..j])).db;
    hide Run, Puts, KvOf, WfConf, Names, NewKey, Under, InArea, HasOwner;
    forall i, k | 0 <= i < |SETS| && k in mine + Among(keys[..j]) && k in r.strings && InArea(SETS[i], k)
      ensures HasOwner(r.Members(NewKey(inst, SETS[i])), SETS[i], k)
    {
      assert r.Members(NewKey(inst, SETS[i])) == y.db.Members(NewKey(inst, SETS[i]));
      if k in Among(keys[..j]) {
        PutOwned(c, i, k, y.db.Members(NewKey(inst, SETS[i])));
      }
    }
  }

  lemma OwnedNewShrinks(inst: Inst, a: Db, b: Db, mine: set<string>)
    requires OwnedNew(inst, a, mine) && Shrinks(a, b)
    ensures OwnedNew(inst, b, mine) && Owned(inst, b, mine)
  {
    hide Under, InArea, SetKey, NewKey;
    forall i, k | 0 <= i < |SETS| && k in mine && k in b.strings && InArea(SETS[i], k)
      ensures HasOwner(b.Members(NewKey(inst, SETS[i])), SETS[i], k)
      ensures HasOwner(TrackedNames(inst, b, SETS[i]), SETS[i], k)
    {
      OwnerMonotone(a.Members(NewKey(inst, SETS[i])), b.Members(NewKey(inst, SETS[i])), SETS[i], k);
      OwnerMonotone(b.Members(NewKey(inst, SETS[i])), TrackedNames(inst, b, SETS[i]), SETS[i], k);
    }
  }

  /** Swapping, cut anywhere. */
  lemma SwapsOwned(inst: Inst, y: Sys, mine: set<string>, n: nat)
    requires n <= |SETS| && ValidDb(y.db) && OwnedNew(inst, y.db, mine)
    ensures Owned(inst, Run(inst, y, Swaps(n)).db, mine)
  {
    SwapsRun(inst, y, n);
    var r := Run(inst, y, Swaps(n)).db;
    hide Run, Swaps, NewKey, SetKey, Under, InArea, HasOwner, Swapped;
    forall i, k | 0 <= i < |SETS| && k in mine && k in r.strings && InArea(SETS[i], k)
      ensures HasOwner(TrackedNames(inst, r, SETS[i]), SETS[i], k)
    {
      SwappedMembers(inst, y.db, r, n, i);
      OwnerMonotone(y.db.Members(NewKey(inst, SETS[i])), TrackedNames(inst, r, SETS[i]), SETS[i], k);
    }
  }

  lemma SwappedMembers(inst: Inst, a: Db, b: Db, n: nat, i: nat)
    requires n <= |SETS| && i < |SETS| && Swapped(inst, a, b, n)
    ensures a.Members(NewKey(inst, SETS[i])) <= TrackedNames(inst, b, SETS[i])
  {
    hide NewKey, SetKey;
    if i >= n {
      forall j | 0 <= j < n
        ensures NewKey(inst, SETS[i]) != SetKey(inst, SETS[j]) && NewKey(inst, SETS[i]) != NewKey(inst, SETS[j])
      {
        SetsDistinct(j, i);
        OwnKeysDistinct(inst, SETS[i], SETS[j]);
      }
      assert !OwnUpTo(inst, n, NewKey(inst, SETS[i]));
    }
  }

  // ---------- a store cut anywhere ----------

  function PutKeys(p: seq<Micro>): set<string>
  {
    set m | m in p && m.Put? :: m.key
  }

  lemma PutKeysConcat(a: seq<Micro>, b: seq<Micro>)
    ensures PutKeys(a + b) == PutKeys(a) + PutKeys(b)
  {
  }

  lemma NoPuts(p: seq<Micro>)
    requires forall m :: m in p ==> !m.Put?
    ensures PutKeys(p) == {}
  {
  }

  lemma PutKeysOfPuts(kv: map<string, string>, keys: seq<string>)
    requires forall k :: k in keys ==> k in kv
    ensures PutKeys(Puts(kv, keys)) == Among(keys)
  {
    var p := Puts(kv, keys);
    forall k | k in keys ensures k in PutKeys(p) {
      var i :| 0 <= i < |keys| && keys[i] == k;
      assert p[i] == Put(k, kv[k]) && p[i] in p;
    }
  }

  ghost predicate OwnedAfter(inst: Inst, db: Db, mine: set<string>, p: seq<Micro>)
  {
    Owned(inst, Run(inst, Sys(db, false), p).db, mine + PutKeys(p))
  }

  lemma CutInTracks(inst: Inst, db: Db, mine: set<string>, c: Configuration, ch: Choice, m: nat)
    requires Shaped(ch) && m <= |TrackPlan(c, ch)| && Owned(inst, db, mine)
    ensures OwnedAfter(inst, db, mine, TrackPlan(c, ch)[..m])
  {
    hide Run, Tracks, Owned;
    TracksQuiet(c, ch.replies, |SETS|);
    var p := TrackPlan(c, ch)[..m];
    forall x | x in p ensures Quiet(x) && !x.Put? {}
    QuietRun(inst, Sys(db, false), p);
    OwnedShrinks(inst, db, Run(inst, Sys(db, false), p).db, mine);
    NoPuts(p);
    assert mine + {} == mine;
  }

  /** The removal phase and j writes. */
  lemma CutInWrites(inst: Inst, db: Db, mine: set<string>, c: Configuration, kv: map<string, string>, ch: Choice,
                    j: nat)
    requires Possible(inst, db, c, ch) && DropsEven(inst, db, c) && Owned(inst, db, mine) && Shaped(ch)
    requires WfConf(c) && KvOf(c) == Some(kv) && j <= |SortedSeq(kv.Keys)|
    ensures OwnedNew(inst, Run(inst, Sys(db, false), CutPlan(c, kv, ch, j)).db, mine + PutKeys(CutPlan(c, kv, ch, j)))
  {
    hide Run, Tracks, Owned, OwnedNew, KvOf, WfConf, Possible, DropsEven, Names, NewKey, Puts, SortedSeq, Among;
    var y1 := Run(inst, Sys(db, false), TrackPlan(c, ch));
    var keys := SortedSeq(kv.Keys)[..j];
    TrackedOwnedNew(inst, db, mine, c, ch);
    forall i | 0 <= i < |SETS| ensures Names(c, SETS[i]) <= y1.db.Members(NewKey(inst, SETS[i])) {
      NewNames(inst, db, c, ch, i);
    }
    WritesOwnedNew(inst, y1, mine, c, kv, SortedSeq(kv.Keys), j);
    CutWrites(inst, Sys(db, false), c, kv, ch, j);
    TracksQuiet(c, ch.replies, |SETS|);
    NoPuts(TrackPlan(c, ch));
    PutKeysOfPuts(kv, keys);
    PutKeysConcat(TrackPlan(c, ch), Puts(kv, keys));
    assert mine + ({} + Among(keys)) == mine + Among(keys);
  }

  lemma OwnedNewOwned(inst: Inst, db: Db, mine: set<string>)
    requires OwnedNew(inst, db, mine)
    ensures Owned(inst, db, mine)
  {
    OwnedNewShrinks(inst, db, db, mine);
  }

  /** Clean-up and swaps, cut anywhere, after all the writes. */
  lemma CutInTail(inst: Inst, y: Sys, mine: set<string>, kv: map<string, string>, ch: Choice, m: nat)
    requires Shaped(ch) && ValidDb(y.db) && OwnedNew(inst, y.db, mine)
    requires m <= |CleanPlan(kv, ch)| + |SETS|
    ensures Owned(inst, Run(inst, y, (CleanPlan(kv, ch) + Swaps(|SETS|))[..m]).db, mine)
    ensures PutKeys((CleanPlan(kv, ch) + Swaps(|SETS|))[..m]) == {}
  {
    hide Run, AllStales, Owned, OwnedNew, ValidDb, Shrinks;
    AllStalesQuiet(ch.services, kv.Keys, |PROTO_ORDER|);
    var cp := CleanPlan(kv, ch);
    var p := (cp + Swaps(|SETS|))[..m];
    forall x | x in p ensures !x.Put? {
      assert x in cp || x in Swaps(|SETS|);
    }
    NoPuts(p);
    if m <= |cp| {
      assert p == cp[..m];
      QuietRun(inst, y, p);
      OwnedNewShrinks(inst, y.db, Run(inst, y, p).db, mine);
    } else {
      var z, n := Run(inst, y, cp), m - |cp|;
      QuietRun(inst, y, cp);
      OwnedNewShrinks(inst, y.db, z.db, mine);
      SameSetsValid(y.db, z.db);
      assert p == cp + Swaps(n);
      RunConcat(inst, y, cp, Swaps(n));
      SwapsOwned(inst, z, mine, n);
    }
  }

  lemma StampOwned(inst: Inst, y: Sys, mine: set<string>, text: string)
    requires Owned(inst, y.db, mine)
    ensures Owned(inst, Do(inst, y, Stamp(text)).db, mine)
  {
    var b := Do(inst, y, Stamp(text)).db;
    forall i | 0 <= i < |SETS| ensures !InArea(SETS[i], Sentinel(inst)) {
      SentinelOutside(inst, SETS[i]);
    }
    hide InArea, Under, Sentinel, SetKey, NewKey;
    forall i, k | 0 <= i < |SETS| && k in mine && k in b.strings && InArea(SETS[i], k)
      ensures HasOwner(TrackedNames(inst, b, SETS[i]), SETS[i], k)
    {
      assert TrackedNames(inst, b, SETS[i]) == TrackedNames(inst, y.db, SETS[i]);
    }
  }

  lemma InsideSlash(sn: SetName, s: string)
    requires Tracked(sn) && InArea(sn, s)
    ensures |s| > 7 && s[7] == '/'
  {
    BelowImpliesGlob(["traefik"], s);
    assert s[7] == ("traefik" + "/")[7];
  }

  lemma SentinelOutside(inst: Inst, sn: SetName)
    requires Tracked(sn)
    ensures !InArea(sn, Sentinel(inst))
  {
    assert Sentinel(inst)[7] == "traefik_"[7] == '_';
    if InArea(sn, Sentinel(inst)) {
      InsideSlash(sn, Sentinel(inst));
      assert false;
    }
  }

  lemma NotSentinel(inst: Inst, sn: SetName, n: string, k: string)
    requires Tracked(sn) && Under(sn, n, k)
    ensures k != Sentinel(inst)
  {
    SentinelOutside(inst, sn);
  }

  /** Ownership survives a store that stops after any number of commands. */
  lemma StorePrefixOwned(inst: Inst, db: Db, mine: set<string>, c: Configuration, ch: Choice, m: nat)
    requires WfConf(c) && ValidDb(db) && Possible(inst, db, c, ch) && DropsEven(inst, db, c) && Owned(inst, db, mine)
    requires Shaped(ch)
    requires m <= |StorePlan(c, ch)|
    ensures OwnedAfter(inst, db, mine, StorePlan(c, ch)[..m])
  {
    hide Run, TrackPlan, Owned, OwnedNew, KvOf, WfConf, Possible, DropsEven, ValidDb, CutPlan, CleanPlan, Swaps,
      SortedSeq, Puts, Do, PutKeys;
    var p := StorePlan(c, ch)[..m];
    if KvOf(c).None? || m <= |TrackPlan(c, ch)| {
      assert p == TrackPlan(c, ch)[..m];
      CutInTracks(inst, db, mine, c, ch, m);
    } else {
      var kv := KvOf(c).value;
      FullPrefixOwned(inst, db, mine, c, kv, ch, m);
    }
  }

  lemma FullPrefixOwned(inst: Inst, db: Db, mine: set<string>, c: Configuration, kv: map<string, string>, ch: Choice,
                        m: nat)
    requires Possible(inst, db, c, ch) && DropsEven(inst, db, c) && Owned(inst, db, mine) && Shaped(ch) && ValidDb(db)
    requires WfConf(c) && KvOf(c) == Some(kv) && |TrackPlan(c, ch)| < m <= |FullPlan(c, kv, ch)|
    ensures OwnedAfter(inst, db, mine, FullPlan(c, kv, ch)[..m])
  {
    hide Run, TrackPlan, Owned, OwnedNew, KvOf, WfConf, Possible, DropsEven, ValidDb, SortedSeq, Do, PutKeys, AllStales;
    var n := |SortedSeq(kv.Keys)|;
    var p, y0 := FullPlan(c, kv, ch)[..m], Sys(db, false);
    var j := if m <= |TrackPlan(c, ch)| + n then m - |TrackPlan(c, ch)| else n;
    var w := CutPlan(c, kv, ch, j);
    CutIsPrefix(c, kv, ch, j);
    CutInWrites(inst, db, mine, c, kv, ch, j);
    OwnedNewOwned(inst, Run(inst, y0, w).db, mine + PutKeys(w));
    if j < n || m == |TrackPlan(c, ch)| + n {
      assert p == w;
    } else {
      assert SortedSeq(kv.Keys)[..n] == SortedSeq(kv.Keys);
      var tail := CleanPlan(kv, ch) + Swaps(|SETS|);
      assert FullPlan(c, kv, ch) == w + tail + [Stamp(ch.stamp)];
      CutValid(inst, db, c, kv, ch, n);
      var k := if m <= |w| + |tail| then m - |w| else |tail|;
      CutInTail(inst, Run(inst, y0, w), mine + PutKeys(w), kv, ch, k);
      RunConcat(inst, y0, w, tail[..k]);
      PutKeysConcat(w, tail[..k]);
      assert mine + PutKeys(w) == mine + PutKeys(w + tail[..k]);
      if m <= |w| + |tail| {
        assert p == w + tail[..k];
      } else {
        assert p == (w + tail[..k]) + [Stamp(ch.stamp)];
        LastStamp(inst, y0, mine, w + tail[..k], ch.stamp);
      }
    }
  }

  lemma LastStamp(inst: Inst, y0: Sys, mine: set<string>, p: seq<Micro>, text: string)
    requires Owned(inst, Run(inst, y0, p).db, mine + PutKeys(p))
    ensures Owned(inst, Run(inst, y0, p + [Stamp(text)]).db, mine + PutKeys(p + [Stamp(text)]))
  {
    hide Owned, Run, Do;
    RunSnoc(inst, y0, p, Stamp(text));
    StampOwned(inst, Run(inst, y0, p), mine + PutKeys(p), text);
    PutKeysConcat(p, [Stamp(text)]);
    NoPuts([Stamp(text)]);
    assert PutKeys(p) + {} == PutKeys(p);
  }

  lemma CutValid(inst: Inst, db: Db, c: Configuration, kv: map<string, string>, ch: Choice, j: nat)
    requires Shaped(ch) && ValidDb(db) && j <= |SortedSeq(kv.Keys)|
    ensures ValidDb(Run(inst, Sys(db, false), CutPlan(c, kv, ch, j)).db)
  {
    hide Run, TrackPlan, Written, SortedSeq, Among, ValidDb;
    TrackPlanValid(inst, db, c, ch);
    CutWrites(inst, Sys(db, false), c, kv, ch, j);
    PutsRun(inst, Run(inst, Sys(db, false), TrackPlan(c, ch)), kv, SortedSeq(kv.Keys), j);
    SameSetsValid(Run(inst, Sys(db, false), TrackPlan(c, ch)).db, Run(inst, Sys(db, false), CutPlan(c, kv, ch, j)).db);
  }

  // ---------- whole runs ----------

  datatype Event =
    | Stored(c: Configuration, ch: Choice, done: nat)   // a store, completed, failed or killed after `done` commands
    | Renewal(keys: set<string>)                        // PEXPIREs of a KeepConfAlive
    | Pass(d: nat)
    | Lost(keys: set<string>)                           // keys flushed or deleted by someone else
    | Flushed(sets: map<string, set<string>>)           // Redis lost everything; someone may have filled its sets anew
    | Restarted                                         // a new process with the same hostname

  /** One event. Of the names a store drops from a set, all or none must have keys when it begins. */
  ghost predicate Step(inst: Inst, a: Ledger, e: Event, b: Ledger)
  {
    match e
    case Stored(c, ch, done) =>
      && WfConf(c) && Shaped(ch) && Possible(inst, a.db, c, ch) && DropsEven(inst, a.db, c)
      && done <= |StorePlan(c, ch)|
      && b == Ledger(Run(inst, Sys(a.db, false), StorePlan(c, ch)[..done]).db,
                     a.mine + PutKeys(StorePlan(c, ch)[..done]))
    case Renewal(keys) => b == a.(db := Renewed(a.db, keys, inst.ttl))
    case Pass(d) => b == a.(db := a.db.Tick(d))
    case Lost(keys) => b == a.(db := a.db.Unlink(keys))
    case Flushed(sets) => b == a.(db := Db(map[], sets, a.db.now)) && ValidDb(b.db)
    case Restarted => b == a
  }

  /** A run visits nodes[0], nodes[1], ... by the events in order. */
  ghost predicate IsRun(inst: Inst, nodes: seq<Ledger>, events: seq<Event>)
  {
    |nodes| == |events| + 1 && forall i :: 0 <= i < |events| ==> Step(inst, nodes[i], events[i], nodes[i + 1])
  }

  ghost predicate Good(inst: Inst, a: Ledger)
  {
    ValidDb(a.db) && Owned(inst, a.db, a.mine)
  }

  lemma DoValid(inst: Inst, y: Sys, m: Micro)
    requires ValidDb(y.db)
    ensures ValidDb(Do(inst, y, m).db)
  {
    if m.Swap? { assert Do(inst, y, m).db == SwapDb(inst, y.db, m.sn); }
  }

  lemma {:induction false} RunValid(inst: Inst, y: Sys, p: seq<Micro>)
    requires ValidDb(y.db)
    ensures ValidDb(Run(inst, y, p).db)
  {
    if p != [] {
      hide Do, ValidDb;
      RunValid(inst, y, p[..|p| - 1]);
      DoValid(inst, Run(inst, y, p[..|p| - 1]), p[|p| - 1]);
    }
  }

  lemma StoreValid(inst: Inst, db: Db, c: Configuration, ch: Choice, done: nat, db': Db, ok: bool)
    requires WfConf(c) && StoreStep(inst, db, c, ch, done, db', ok) && ValidDb(db)
    ensures ValidDb(db')
  {
    hide WfConf, KvOf, ValidDb, Possible, StorePlan, Run;
    PossibleShaped(inst, db, c, ch);
    RunValid(inst, Sys(db, false), StorePlan(c, ch)[..done]);
  }

  lemma StepGood(inst: Inst, a: Ledger, e: Event, b: Ledger)
    requires Good(inst, a) && Step(inst, a, e, b)
    ensures Good(inst, b)
  {
    match e
    case Stored(c, ch, done) =>
      hide Owned, StorePlan, Run, DropsEven, Possible, WfConf, ValidDb, PutKeys;
      StorePrefixOwned(inst, a.db, a.mine, c, ch, done);
      RunValid(inst, Sys(a.db, false), StorePlan(c, ch)[..done]);
    case Renewal(keys) => OwnedShrinks(inst, a.db, b.db, a.mine);
    case Pass(d) => OwnedShrinks(inst, a.db, b.db, a.mine);
    case Lost(keys) => OwnedShrinks(inst, a.db, b.db, a.mine);
    case Flushed(sets) =>
    case Restarted =>
  }

  /** Tracking never loses a live key, whatever happens in between. */
  lemma {:induction false} OwnershipOverRuns(inst: Inst, nodes: seq<Ledger>, events: seq<Event>, i: nat)
    requires IsRun(inst, nodes, events) && Good(inst, nodes[0]) && i < |nodes|
    ensures Good(inst, nodes[i])
  {
    if i > 0 {
      hide Step, Good;
      OwnershipOverRuns(inst, nodes, events, i - 1);
      StepGood(inst, nodes[i - 1], events[i - 1], nodes[i]);
    }
  }

  /** A renewal changes neither the dropped names nor which of them have keys. */
  lemma RenewedDropsEven(inst: Inst, db: Db, c: Configuration, keys: set<string>)
    requires DropsEven(inst, db, c)
    ensures DropsEven(inst, Renewed(db, keys, inst.ttl), c)
  {
    SameDropsEven(inst, db, Renewed(db, keys, inst.ttl), c);
  }

  lemma SameDropsEven(inst: Inst, a: Db, b: Db, c: Configuration)
    requires DropsEven(inst, a, c) && a.sets == b.sets && a.strings.Keys == b.strings.Keys
    ensures DropsEven(inst, b, c)
  {
    hide SetKey, NewKey, Names, Under;
    forall i | 0 <= i < |SETS|
      ensures Dropped(inst, b, c, SETS[i]) == Dropped(inst, a, c, SETS[i])
      ensures forall n :: Live(b.strings, SETS[i], n) <==> Live(a.strings, SETS[i], n)
    {
      forall n ensures Live(b.strings, SETS[i], n) <==> Live(a.strings, SETS[i], n) {
        SameKeysLive(a.strings, b.strings, SETS[i], n);
      }
    }
    hide Dropped, Live;
  }

  lemma SameKeysLive(a: map<string, Item>, b: map<string, Item>, sn: SetName, n: string)
    requires a.Keys == b.Keys
    ensures Live(b, sn, n) <==> Live(a, sn, n)
  {
    hide Under;
    if k :| k in a && Under(sn, n, k) { assert k in b; }
    if k :| k in b && Under(sn, n, k) { assert k in a; }
  }

  /** A KeepConfAlive is at most a renewal followed by a store, so runs cover it. */
  lemma KeepIsRun(inst: Inst, a: Ledger, c: Configuration, k: Keep, db': Db, ok: bool)
    returns (nodes: seq<Ledger>, events: seq<Event>)
    requires WfConf(c) && KeepStep(inst, a.db, Some(c), k, db', ok) && DropsEven(inst, a.db, c)
    ensures IsRun(inst, nodes, events) && nodes[0] == a && nodes[|events|].db == db'
  {
    hide KvOf, WfConf, DropsEven, StorePlan, Run, Possible, PutKeys, Renewed;
    match k
    case Idle => nodes, events := [a], [];
    case NoAnswer => nodes, events := [a], [];
    case Renew(applied, complete) => nodes, events := [a, a.(db := db')], [Renewal(applied)];
    case Restore(renewed, ch, done) =>
      var keys := if renewed then Wanted(inst, c) else {};
      var b := if renewed then a.(db := Renewed(a.db, keys, inst.ttl)) else a;
      PossibleShaped(inst, b.db, c, ch);
      RenewedDropsEven(inst, a.db, c, keys);
      var d := Ledger(db', a.mine + PutKeys(StorePlan(c, ch)[..done]));
      if renewed {
        nodes, events := [a, b, d], [Renewal(keys), Stored(c, ch, done)];
      } else {
        nodes, events := [a, d], [Stored(c, ch, done)];
      }
  }
}
