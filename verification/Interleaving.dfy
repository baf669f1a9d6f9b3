/** Ownership command by command: over traces of concurrent calls, with time passing and keys vanishing between any two
    commands, every live key of this instance lies under a name it tracks, as long as no removal loop stops early while
    names ahead of it still have keys. */
module Interleaving {
  import opened Paths
  import opened Values
  import opened Config
  import opened Published
  import opened Redis
  import opened Plan
  import opened Removal
  import opened ClosedForm
  import opened Ownership
  import opened Serial

  // ---------- the order of the commands ----------

  function PlaceFrom(sn: SetName, n: nat): nat
    requires n <= |SETS|
    decreases |SETS| - n
  {
    if n == |SETS| || SETS[n] == sn then n else PlaceFrom(sn, n + 1)
  }

  function Place(sn: SetName): nat
  {
    PlaceFrom(sn, 0)
  }

  lemma {:induction false} PlaceAt(i: nat, n: nat)
    requires n <= i < |SETS|
    ensures PlaceFrom(SETS[i], n) == i
    decreases i - n
  {
    if n < i {
      SetsDistinct(n, i);
      PlaceAt(i, n + 1);
    }
  }

  /** Adds and removals set by set, then the writes, the clean-up, the swaps and the sentinel. */
  function Rank(m: Micro): nat
  {
    match m
    case Add(sn, _) => 2 * Place(sn)
    case Remove(sn, _) => 2 * Place(sn) + 1
    case Put(_, _) => 20
    case Stale(_, _, _) => 21
    case Swap(sn) => 22 + Place(sn)
    case Stamp(_) => 40
  }

  ghost predicate Precedes(a: Micro, b: Micro)
  {
    Rank(a) <= Rank(b) && (Rank(a) == Rank(b) ==> !a.Add? && !a.Swap?)
  }

  ghost predicate Ordered(p: seq<Micro>)
  {
    forall x, y :: 0 <= x < y < |p| ==> Precedes(p[x], p[y])
  }

  lemma OrderedConcat(p: seq<Micro>, q: seq<Micro>)
    requires Ordered(p) && Ordered(q) && forall a, b :: a in p && b in q ==> Precedes(a, b)
    ensures Ordered(p + q)
  {
    hide Precedes;
    forall x, y | 0 <= x < y < |p + q| ensures Precedes((p + q)[x], (p + q)[y]) {
      if x < |p| <= y {
        assert p[x] in p && q[y - |p|] in q;
      }
    }
  }

  lemma RemovesOrdered(sn: SetName, names: seq<string>)
    ensures Ordered(Removes(sn, names)) && forall m :: m in Removes(sn, names) ==> m.Remove? && m.sn == sn
  {
  }

  lemma {:induction false} TracksOrdered(c: Configuration, replies: seq<seq<string>>, n: nat)
    requires n <= |SETS| && n <= |replies|
    ensures Ordered(Tracks(c, replies, n)) && forall m :: m in Tracks(c, replies, n) ==> Rank(m) < 2 * n
  {
    if n > 0 {
      var sn := SETS[n - 1];
      var t, a, r := Tracks(c, replies, n - 1), [Add(sn, Names(c, sn))], Removes(sn, replies[n - 1]);
      assert Tracks(c, replies, n) == t + a + r;
      TracksOrdered(c, replies, n - 1);
      RemovesOrdered(sn, replies[n - 1]);
      PlaceAt(n - 1, 0);
      hide Names, Tracks, Removes, PlaceFrom;
      OrderedConcat(t, a);
      OrderedConcat(t + a, r);
    }
  }

  lemma PutsOrdered(kv: map<string, string>, keys: seq<string>)
    requires forall k :: k in keys ==> k in kv
    ensures Ordered(Puts(kv, keys)) && forall m :: m in Puts(kv, keys) ==> Rank(m) == 20
  {
    hide Place;
  }

  lemma StalesOrdered(proto: string, names: seq<string>, kept: set<string>)
    ensures Ordered(Stales(proto, names, kept)) && forall m :: m in Stales(proto, names, kept) ==> m.Stale?
  {
    hide Place;
  }

  lemma {:induction false} AllStalesOrdered(services: seq<seq<string>>, kept: set<string>, n: nat)
    requires n <= |PROTO_ORDER| && n <= |services|
    ensures Ordered(AllStales(services, kept, n)) && forall m :: m in AllStales(services, kept, n) ==> m.Stale?
  {
    if n > 0 {
      AllStalesOrdered(services, kept, n - 1);
      StalesOrdered(PROTO_ORDER[n - 1], services[n - 1], kept);
      hide Stales, Place;
      OrderedConcat(AllStales(services, kept, n - 1), Stales(PROTO_ORDER[n - 1], services[n - 1], kept));
    }
  }

  lemma SwapsOrdered(n: nat)
    requires n <= |SETS|
    ensures Ordered(Swaps(n)) && forall m :: m in Swaps(n) ==> m.Swap? && 22 <= Rank(m) < 22 + n
  {
    forall i | 0 <= i < n ensures Place(SETS[i]) == i { PlaceAt(i, 0); }
    hide Place;
  }

  lemma TrackRanks(c: Configuration, ch: Choice)
    requires Shaped(ch)
    ensures Ordered(TrackPlan(c, ch)) && forall m :: m in TrackPlan(c, ch) ==> Rank(m) < 16
  {
    TracksOrdered(c, ch.replies, |SETS|);
  }

  lemma FullOrdered(c: Configuration, kv: map<string, string>, ch: Choice)
    requires Shaped(ch)
    ensures Ordered(FullPlan(c, kv, ch))
  {
    var t, w, s, x, e := TrackPlan(c, ch), WritePlan(kv), CleanPlan(kv, ch), Swaps(|SETS|), [Stamp(ch.stamp)];
    TrackRanks(c, ch);
    PutsOrdered(kv, SortedSeq(kv.Keys));
    AllStalesOrdered(ch.services, kv.Keys, |PROTO_ORDER|);
    SwapsOrdered(|SETS|);
    hide TrackPlan, WritePlan, CleanPlan, Swaps, Place;
    OrderedConcat(t, w);
    OrderedConcat(t + w, s);
    OrderedConcat(t + w + s, x);
    OrderedConcat(t + w + s + x, e);
  }

  lemma PlanOrdered(c: Configuration, ch: Choice)
    requires WfConf(c) && Shaped(ch)
    ensures Ordered(StorePlan(c, ch))
  {
    hide WfConf, KvOf, FullPlan, TrackPlan, Ordered;
    TrackRanks(c, ch);
    if KvOf(c).Some? { FullOrdered(c, KvOf(c).value, ch); }
  }

  // ---------- what the commands are ----------

  predicate TrackedSet(sn: SetName)
  {
    exists i :: 0 <= i < |SETS| && sn == SETS[i]
  }

  /** The command belongs to a store of `c`. */
  ghost predicate Fitting(c: Configuration, m: Micro)
    requires WfConf(c)
  {
    match m
    case Add(sn, names) => TrackedSet(sn) && names == Names(c, sn)
    case Remove(sn, _) => TrackedSet(sn)
    case Put(key, _) => KvOf(c).Some? && key in KvOf(c).value
    case Stale(_, _, _) => true
    case Swap(sn) => TrackedSet(sn)
    case Stamp(_) => true
  }

  lemma {:induction false} TracksFitting(c: Configuration, replies: seq<seq<string>>, n: nat, m: Micro)
    requires n <= |SETS| && n <= |replies| && WfConf(c) && m in Tracks(c, replies, n)
    ensures (m.Add? || m.Remove?) && Fitting(c, m)
  {
    var sn, names := SETS[n - 1], replies[n - 1];
    hide WfConf, Names, KvOf;
    if m in Tracks(c, replies, n - 1) {
      TracksFitting(c, replies, n - 1, m);
    } else {
      RemovesOrdered(sn, names);
      assert TrackedSet(sn);
    }
  }

  lemma RemovesHave(sn: SetName, names: seq<string>, name: string)
    requires name in names
    ensures Remove(sn, name) in Removes(sn, names)
  {
    var l :| 0 <= l < |names| && names[l] == name;
    assert Removes(sn, names)[l] == Remove(sn, name);
  }

  lemma {:induction false} TracksHave(c: Configuration, replies: seq<seq<string>>, n: nat, i: nat)
    requires i < n <= |SETS| && n <= |replies|
    ensures Add(SETS[i], Names(c, SETS[i])) in Tracks(c, replies, n)
    ensures forall name :: name in replies[i] ==> Remove(SETS[i], name) in Tracks(c, replies, n)
  {
    hide Names, Removes;
    if i < n - 1 {
      TracksHave(c, replies, n - 1, i);
    } else {
      forall name | name in replies[i] ensures Remove(SETS[i], name) in Removes(SETS[i], replies[i]) {
        RemovesHave(SETS[i], replies[i], name);
      }
    }
  }

  lemma FullFitting(c: Configuration, ch: Choice, m: Micro)
    requires WfConf(c) && KvOf(c).Some? && Shaped(ch) && m in FullPlan(c, KvOf(c).value, ch) && m !in TrackPlan(c, ch)
    ensures Fitting(c, m)
  {
    hide WfConf, KvOf, TrackPlan, SortedSeq;
    var kv := KvOf(c).value;
    if m in WritePlan(kv) {
    } else if m in CleanPlan(kv, ch) {
      AllStalesQuiet(ch.services, kv.Keys, |PROTO_ORDER|);
    } else if m in Swaps(|SETS|) {
      var i :| 0 <= i < |SETS| && Swaps(|SETS|)[i] == m;
    }
  }

  lemma PlanFitting(c: Configuration, ch: Choice, m: Micro)
    requires WfConf(c) && Shaped(ch) && m in StorePlan(c, ch)
    ensures Fitting(c, m)
  {
    hide WfConf, KvOf, Tracks, FullPlan, Fitting;
    if m in TrackPlan(c, ch) {
      TracksFitting(c, ch.replies, |SETS|, m);
    } else {
      FullFitting(c, ch, m);
    }
  }

  // ---------- what holds between two commands ----------

  ghost predicate AddAhead(rest: seq<Micro>, i: nat)
    requires i < |SETS|
  {
    exists m :: m in rest && m.Add? && m.sn == SETS[i]
  }

  ghost predicate SwapAhead(rest: seq<Micro>, i: nat)
    requires i < |SETS|
  {
    Swap(SETS[i]) in rest
  }

  /** The names whose removal is still to come. */
  function RemovalsAhead(rest: seq<Micro>, sn: SetName): set<string>
  {
    set m | m in rest && m.Remove? && m.sn == sn :: m.name
  }

  ghost predicate OwnedBy(db: Db, mine: set<string>, i: nat, names: set<string>)
    requires i < |SETS|
  {
    forall k :: k in mine && k in db.strings && InArea(SETS[i], k) ==> HasOwner(names, SETS[i], k)
  }

  /** As long as its swap is to come, the live keys of a set are under names about to be swapped in or about to be
      removed; before its new names are added, what will be dropped is about to be removed. */
  ghost predicate SetHolds(inst: Inst, c: Configuration, y: Sys, mine: set<string>, rest: seq<Micro>, i: nat)
    requires i < |SETS|
  {
    SwapAhead(rest, i) ==>
      if AddAhead(rest, i) then Dropped(inst, y.db, c, SETS[i]) <= RemovalsAhead(rest, SETS[i])
      else
        && Names(c, SETS[i]) <= y.db.Members(NewKey(inst, SETS[i]))
        && OwnedBy(y.db, mine, i,
                   y.db.Members(NewKey(inst, SETS[i])) + (if y.halted then {} else RemovalsAhead(rest, SETS[i])))
  }

  ghost predicate SetOwned(inst: Inst, db: Db, mine: set<string>, i: nat)
    requires i < |SETS|
  {
    OwnedBy(db, mine, i, TrackedNames(inst, db, SETS[i]))
  }

  lemma OwnedSets(inst: Inst, db: Db, mine: set<string>)
    ensures Owned(inst, db, mine) <==> forall i: nat :: i < |SETS| ==> SetOwned(inst, db, mine, i)
  {
    hide InArea, HasOwner, TrackedNames;
    if forall i: nat :: i < |SETS| ==> SetOwned(inst, db, mine, i) {
      forall i: nat, k | i < |SETS| && k in mine && k in db.strings && InArea(SETS[i], k)
        ensures HasOwner(TrackedNames(inst, db, SETS[i]), SETS[i], k)
      {
        assert SetOwned(inst, db, mine, i);
      }
    }
  }

  lemma OwnedByMore(a: Db, b: Db, mine: set<string>, i: nat, x: set<string>, y: set<string>)
    requires i < |SETS| && OwnedBy(a, mine, i, x) && x <= y
    requires forall k :: k in mine && k in b.strings ==> k in a.strings
    ensures OwnedBy(b, mine, i, y)
  {
    hide InArea, HasOwner;
    forall k | k in mine && k in b.strings && InArea(SETS[i], k) ensures HasOwner(y, SETS[i], k) {
      OwnerMonotone(x, y, SETS[i], k);
    }
  }

  // ---------- one command ----------

  lemma RemovalsSplit(m: Micro, tail: seq<Micro>, sn: SetName)
    ensures RemovalsAhead([m] + tail, sn)
            == RemovalsAhead(tail, sn) + (if m.Remove? && m.sn == sn then {m.name} else {})
  {
    var rest := [m] + tail;
    forall x | x in RemovalsAhead(tail, sn) ensures x in RemovalsAhead(rest, sn) {
      var r :| r in tail && r.Remove? && r.sn == sn && r.name == x;
      assert r in rest;
    }
    if m.Remove? && m.sn == sn { assert m in rest; }
  }

  lemma AheadSplit(m: Micro, tail: seq<Micro>, i: nat)
    requires i < |SETS|
    ensures SwapAhead([m] + tail, i) <==> SwapAhead(tail, i) || m == Swap(SETS[i])
    ensures AddAhead([m] + tail, i) <==> AddAhead(tail, i) || (m.Add? && m.sn == SETS[i])
  {
    var rest := [m] + tail;
    if AddAhead(tail, i) {
      var a :| a in tail && a.Add? && a.sn == SETS[i];
      assert a in rest;
    }
    if m.Add? && m.sn == SETS[i] { assert m in rest; }
  }

  /** Commands that change no set and create no key. */
  lemma QuietHolds(inst: Inst, c: Configuration, y: Sys, y': Sys, mine: set<string>, m: Micro, tail: seq<Micro>, i: nat)
    requires i < |SETS| && SetHolds(inst, c, y, mine, [m] + tail, i) && SetOwned(inst, y.db, mine, i)
    requires y'.db.sets == y.db.sets && (forall k :: k in mine && k in y'.db.strings ==> k in y.db.strings)
    requires m.Stale? || m.Stamp? || (m.Remove? && m.sn != SETS[i])
    requires y'.halted ==> y.halted || (SwapAhead(tail, i) && !AddAhead(tail, i) ==> RemovalsAhead(tail, SETS[i]) == {})
    ensures SetHolds(inst, c, y', mine, tail, i) && SetOwned(inst, y'.db, mine, i)
  {
    RemovalsSplit(m, tail, SETS[i]);
    AheadSplit(m, tail, i);
    SameDropped(inst, y.db, y'.db, c, i);
    hide OwnedBy, NewKey, SetKey, Names, SwapAhead, AddAhead, RemovalsAhead, Dropped;
    OwnedByMore(y.db, y'.db, mine, i, TrackedNames(inst, y.db, SETS[i]), TrackedNames(inst, y'.db, SETS[i]));
    if SwapAhead(tail, i) && !AddAhead(tail, i) {
      var added := y.db.Members(NewKey(inst, SETS[i]));
      OwnedByMore(y.db, y'.db, mine, i, added + (if y.halted then {} else RemovalsAhead([m] + tail, SETS[i])),
                  added + (if y'.halted then {} else RemovalsAhead(tail, SETS[i])));
    }
  }

  lemma SameDropped(inst: Inst, a: Db, b: Db, c: Configuration, i: nat)
    requires i < |SETS| && b.Members(SetKey(inst, SETS[i])) == a.Members(SetKey(inst, SETS[i]))
    requires b.Members(NewKey(inst, SETS[i])) == a.Members(NewKey(inst, SETS[i]))
    ensures Dropped(inst, b, c, SETS[i]) == Dropped(inst, a, c, SETS[i])
  {
    hide SetKey, NewKey, Names;
  }

  lemma AddSets(inst: Inst, y: Sys, sn: SetName, names: set<string>, i: nat)
    requires i < |SETS| && TrackedSet(sn)
    ensures var b := Do(inst, y, Add(sn, names));
      && b.db.strings == y.db.strings && !b.halted
      && b.db.Members(SetKey(inst, SETS[i])) == y.db.Members(SetKey(inst, SETS[i]))
      && b.db.Members(NewKey(inst, SETS[i]))
         == y.db.Members(NewKey(inst, SETS[i])) + (if sn == SETS[i] then names else {})
  {
    hide Do, SetKey, NewKey;
    AddStep(inst, y, sn, names);
    OwnKeysDistinct(inst, sn, SETS[i]);
  }

  /** The names of a set are added: what is not among the names to be swapped in is dropped. */
  lemma AddHolds(inst: Inst, c: Configuration, y: Sys, mine: set<string>, sn: SetName, tail: seq<Micro>, i: nat)
    requires i < |SETS| && TrackedSet(sn) && SetOwned(inst, y.db, mine, i)
    requires SetHolds(inst, c, y, mine, [Add(sn, Names(c, sn))] + tail, i) && (sn == SETS[i] ==> !AddAhead(tail, i))
    ensures var y' := Do(inst, y, Add(sn, Names(c, sn)));
      SetHolds(inst, c, y', mine, tail, i) && SetOwned(inst, y'.db, mine, i)
  {
    var y' := Do(inst, y, Add(sn, Names(c, sn)));
    RemovalsSplit(Add(sn, Names(c, sn)), tail, SETS[i]);
    AheadSplit(Add(sn, Names(c, sn)), tail, i);
    AddSets(inst, y, sn, Names(c, sn), i);
    hide Do, OwnedBy, NewKey, SetKey, Names, SwapAhead, AddAhead, RemovalsAhead;
    OwnedByMore(y.db, y'.db, mine, i, TrackedNames(inst, y.db, SETS[i]), TrackedNames(inst, y'.db, SETS[i]));
    if SwapAhead(tail, i) && !AddAhead(tail, i) {
      var added, ahead := y.db.Members(NewKey(inst, SETS[i])), RemovalsAhead(tail, SETS[i]);
      if sn == SETS[i] {
        assert TrackedNames(inst, y.db, SETS[i]) <= added + Names(c, sn) + ahead;
        OwnedByMore(y.db, y'.db, mine, i, TrackedNames(inst, y.db, SETS[i]), added + Names(c, sn) + ahead);
      } else {
        OwnedByMore(y.db, y'.db, mine, i, added + (if y.halted then {} else ahead), added + ahead);
      }
    }
  }

  /** At its turn the name has keys, or no name from here on has any: the loop does not stop before its work is done. */
  ghost predicate Harmless(db: Db, sn: SetName, name: string, rest: seq<Micro>)
  {
    Plain(name) && (Live(db.strings, sn, name) || forall n :: n in RemovalsAhead(rest, sn) ==> !Live(db.strings, sn, n))
  }

  /** The keys of the name are gone. */
  lemma LiveRemoved(inst: Inst, db: Db, mine: set<string>, i: nat, name: string, b: Db, added: set<string>,
                    ahead: set<string>)
    requires i < |SETS| && b.strings == Purge(db.strings, {(SETS[i], name)})
    requires OwnedBy(db, mine, i, added + ({name} + ahead))
    ensures OwnedBy(b, mine, i, added + ahead)
  {
    hide InArea, Under;
    assert (SETS[i], name) in {(SETS[i], name)};
    forall k | k in mine && k in b.strings && InArea(SETS[i], k) ensures HasOwner(added + ahead, SETS[i], k) {
      var n :| n in added + ({name} + ahead) && Under(SETS[i], n, k);
    }
  }

  /** No name ahead has keys, so all keys belong to the names to be swapped in. */
  lemma NoneAhead(db: Db, mine: set<string>, i: nat, added: set<string>, ahead: set<string>)
    requires i < |SETS| && OwnedBy(db, mine, i, added + ahead)
    requires forall n :: n in ahead ==> !Live(db.strings, SETS[i], n)
    ensures OwnedBy(db, mine, i, added)
  {
    hide InArea, Under;
    forall k | k in mine && k in db.strings && InArea(SETS[i], k) ensures HasOwner(added, SETS[i], k) {
      var n :| n in added + ahead && Under(SETS[i], n, k);
    }
  }

  /** A removal from the set itself. */
  lemma RemoveHolds(inst: Inst, c: Configuration, y: Sys, mine: set<string>, name: string, tail: seq<Micro>, i: nat)
    requires i < |SETS| && SetOwned(inst, y.db, mine, i)
    requires SetHolds(inst, c, y, mine, [Remove(SETS[i], name)] + tail, i)
    requires !AddAhead([Remove(SETS[i], name)] + tail, i)
    requires !y.halted ==> Harmless(y.db, SETS[i], name, [Remove(SETS[i], name)] + tail)
    ensures var y' := Do(inst, y, Remove(SETS[i], name));
      SetHolds(inst, c, y', mine, tail, i) && SetOwned(inst, y'.db, mine, i)
  {
    var m := Remove(SETS[i], name);
    var y' := Do(inst, y, m);
    RemovalsSplit(m, tail, SETS[i]);
    AheadSplit(m, tail, i);
    QuietStep(inst, y, m);
    RemoveOutcome(inst, y, i, name);
    hide Do, OwnedBy, NewKey, SetKey, Names, SwapAhead, AddAhead, RemovalsAhead, Live, Purge, Plain;
    OwnedByMore(y.db, y'.db, mine, i, TrackedNames(inst, y.db, SETS[i]), TrackedNames(inst, y'.db, SETS[i]));
    if SwapAhead(tail, i) && !y.halted {
      var added, ahead := y.db.Members(NewKey(inst, SETS[i])), RemovalsAhead(tail, SETS[i]);
      assert added + ({name} + ahead) == added + (ahead + {name});
      if Live(y.db.strings, SETS[i], name) {
        LiveRemoved(inst, y.db, mine, i, name, y'.db, added, ahead);
      } else {
        NoneAhead(y.db, mine, i, added, ahead + {name});
        OwnedByMore(y.db, y'.db, mine, i, added, added + {});
      }
    }
  }

  lemma RemoveOutcome(inst: Inst, y: Sys, i: nat, name: string)
    requires i < |SETS| && (!y.halted ==> Plain(name))
    ensures var y' := Do(inst, y, Remove(SETS[i], name));
      && y'.db.sets == y.db.sets
      && (y.halted ==> y' == y)
      && (!y.halted && Live(y.db.strings, SETS[i], name) ==>
            !y'.halted && y'.db.strings == Purge(y.db.strings, {(SETS[i], name)}))
      && (!y.halted && !Live(y.db.strings, SETS[i], name) ==> y'.halted && y'.db == y.db)
  {
    if !y.halted {
      if Live(y.db.strings, SETS[i], name) {
        RemoveLive(inst, y, SETS[i], name);
      } else {
        RemoveDead(inst, y, SETS[i], name);
      }
    }
  }

  /** A key of the configuration is written while every swap is still to come. */
  lemma PutHolds(inst: Inst, c: Configuration, y: Sys, mine: set<string>, key: string, value: string, tail: seq<Micro>,
                 i: nat)
    requires i < |SETS| && WfConf(c) && Fitting(c, Put(key, value)) && SetOwned(inst, y.db, mine, i)
    requires SetHolds(inst, c, y, mine, [Put(key, value)] + tail, i) && SwapAhead(tail, i) && !AddAhead(tail, i)
    ensures var y' := Do(inst, y, Put(key, value));
      SetHolds(inst, c, y', mine + {key}, tail, i) && SetOwned(inst, y'.db, mine + {key}, i)
  {
    var m, y' := Put(key, value), Do(inst, y, Put(key, value));
    RemovalsSplit(m, tail, SETS[i]);
    AheadSplit(m, tail, i);
    assert y'.db.strings.Keys == y.db.strings.Keys + {key} && y'.db.sets == y.db.sets && y'.halted == y.halted;
    hide Do, NewKey, SetKey, Names, SwapAhead, AddAhead, RemovalsAhead, WfConf, KvOf, OwnedBy;
    var added := y.db.Members(NewKey(inst, SETS[i]));
    var names := added + (if y.halted then {} else RemovalsAhead(tail, SETS[i]));
    WrittenOwned(c, y.db, y'.db, mine, i, key, names);
    WrittenOwned(c, y.db, y'.db, mine, i, key, TrackedNames(inst, y.db, SETS[i]));
    assert TrackedNames(inst, y'.db, SETS[i]) == TrackedNames(inst, y.db, SETS[i]);
  }

  lemma WrittenOwned(c: Configuration, a: Db, b: Db, mine: set<string>, i: nat, key: string, names: set<string>)
    requires WfConf(c) && KvOf(c).Some? && key in KvOf(c).value && i < |SETS| && Names(c, SETS[i]) <= names
    requires OwnedBy(a, mine, i, names) && b.strings.Keys == a.strings.Keys + {key}
    ensures OwnedBy(b, mine + {key}, i, names)
  {
    hide WfConf, KvOf, Names, InArea, HasOwner;
    if InArea(SETS[i], key) { PutOwned(c, i, key, names); }
  }

  /** A swap: of the set itself, or of another. */
  lemma SwapHolds(inst: Inst, c: Configuration, y: Sys, mine: set<string>, sn: SetName, tail: seq<Micro>, i: nat)
    requires i < |SETS| && TrackedSet(sn) && SetOwned(inst, y.db, mine, i)
    requires SetHolds(inst, c, y, mine, [Swap(sn)] + tail, i)
    requires sn == SETS[i] ==> !SwapAhead(tail, i) && !AddAhead(tail, i) && RemovalsAhead(tail, SETS[i]) == {}
    ensures var y' := Do(inst, y, Swap(sn)); SetHolds(inst, c, y', mine, tail, i) && SetOwned(inst, y'.db, mine, i)
  {
    var m, y' := Swap(sn), Do(inst, y, Swap(sn));
    RemovalsSplit(m, tail, SETS[i]);
    AheadSplit(m, tail, i);
    assert y'.db == SwapDb(inst, y.db, sn) && y'.halted == y.halted && y'.db.strings == y.db.strings;
    SwapMembers(inst, y.db, sn, SetKey(inst, SETS[i]));
    SwapMembers(inst, y.db, sn, NewKey(inst, SETS[i]));
    OwnKeysDistinct(inst, sn, SETS[i]);
    OwnKeysDistinct(inst, SETS[i], sn);
    hide Do, SwapDb, NewKey, SetKey, Names, SwapAhead, AddAhead, RemovalsAhead, OwnedBy;
    var added := y.db.Members(NewKey(inst, SETS[i]));
    if sn == SETS[i] {
      assert added + {} == added;
      OwnedByMore(y.db, y'.db, mine, i, added, TrackedNames(inst, y'.db, SETS[i]));
    } else {
      SameDropped(inst, y.db, y'.db, c, i);
      hide Dropped;
      OwnedByMore(y.db, y'.db, mine, i, TrackedNames(inst, y.db, SETS[i]), TrackedNames(inst, y'.db, SETS[i]));
      if SwapAhead(tail, i) && !AddAhead(tail, i) {
        var names := added + (if y.halted then {} else RemovalsAhead(tail, SETS[i]));
        OwnedByMore(y.db, y'.db, mine, i, names, names);
      }
    }
  }

  // ---------- a store in progress ----------

  /** What the order of the plan says about the commands after its first: no set is touched out of turn. */
  ghost predicate InTurn(m: Micro, tail: seq<Micro>, i: nat)
    requires i < |SETS|
  {
    && (m.Put? ==> SwapAhead(tail, i) && !AddAhead(tail, i))
    && (m.Add? && m.sn == SETS[i] ==> !AddAhead(tail, i))
    && (m.Remove? && m.sn == SETS[i] ==> !AddAhead(tail, i))
    && (m.Remove? && m.sn != SETS[i] && !AddAhead(tail, i) ==> RemovalsAhead(tail, SETS[i]) == {})
    && (m.Swap? && m.sn == SETS[i] ==> !SwapAhead(tail, i) && !AddAhead(tail, i) && RemovalsAhead(tail, SETS[i]) == {})
  }

  lemma NotBehind(p: seq<Micro>, d: nat, m: Micro)
    requires Ordered(p) && d < |p| && m in p && Rank(p[d]) < Rank(m)
    ensures m in p[d + 1..]
  {
    assert forall z :: 0 <= z < d ==> Precedes(p[z], p[d]);
    hide Rank;
    var x :| 0 <= x < |p| && p[x] == m;
    assert p[d + 1..][x - d - 1] == m;
  }

  lemma TailFollows(p: seq<Micro>, d: nat, m: Micro)
    requires Ordered(p) && d < |p| && m in p[d + 1..]
    ensures Precedes(p[d], m)
  {
    hide Precedes;
    var x :| 0 <= x < |p[d + 1..]| && p[d + 1..][x] == m;
    assert p[d + 1 + x] == m;
  }

  lemma PlanHas(c: Configuration, ch: Choice, i: nat)
    requires WfConf(c) && Shaped(ch) && i < |SETS|
    ensures Add(SETS[i], Names(c, SETS[i])) in StorePlan(c, ch)
    ensures forall name :: name in ch.replies[i] ==> Remove(SETS[i], name) in StorePlan(c, ch)
    ensures KvOf(c).Some? ==> Swap(SETS[i]) in StorePlan(c, ch)
  {
    TracksHave(c, ch.replies, |SETS|, i);
    hide WfConf, KvOf, Tracks, WritePlan, CleanPlan, Names;
    if KvOf(c).Some? {
      assert Swaps(|SETS|)[i] == Swap(SETS[i]);
      assert Swap(SETS[i]) in Swaps(|SETS|);
    }
  }

  /** No command of lower rank is still to come. */
  lemma Behind(p: seq<Micro>, d: nat, i: nat)
    requires Ordered(p) && d < |p| && i < |SETS|
    ensures Rank(p[d]) > 2 * i || (p[d].Add? && Rank(p[d]) == 2 * i) ==> !AddAhead(p[d + 1..], i)
    ensures Rank(p[d]) > 2 * i + 1 ==> RemovalsAhead(p[d + 1..], SETS[i]) == {}
    ensures p[d] == Swap(SETS[i]) ==> !SwapAhead(p[d + 1..], i)
  {
    PlaceAt(i, 0);
    var tail := p[d + 1..];
    forall m | m in tail ensures Precedes(p[d], m) { TailFollows(p, d, m); }
    hide PlaceFrom, Ordered;
  }

  lemma PlanInTurn(c: Configuration, ch: Choice, d: nat, i: nat)
    requires WfConf(c) && Shaped(ch) && d < |StorePlan(c, ch)| && i < |SETS|
    ensures InTurn(StorePlan(c, ch)[d], StorePlan(c, ch)[d + 1..], i)
  {
    hide WfConf, KvOf, StorePlan, Names, Ordered, PlaceFrom, AddAhead, SwapAhead, RemovalsAhead;
    var p := StorePlan(c, ch);
    PlanOrdered(c, ch);
    PlanHas(c, ch, i);
    PlanFitting(c, ch, p[d]);
    PlaceAt(i, 0);
    Behind(p, d, i);
    if p[d].Put? {
      NotBehind(p, d, Swap(SETS[i]));
      IsAhead(p[d + 1..], i);
    }
    if p[d].Remove? && p[d].sn != SETS[i] && RemovalsAhead(p[d + 1..], SETS[i]) != {} {
      RemovalThenAdd(p, d, p[d].sn, i, Names(c, SETS[i]));
    }
  }

  lemma IsAhead(tail: seq<Micro>, i: nat)
    requires i < |SETS| && Swap(SETS[i]) in tail
    ensures SwapAhead(tail, i)
  {
  }

  /** Before the removals of a later set its names are added. */
  lemma RemovalThenAdd(p: seq<Micro>, d: nat, sn: SetName, i: nat, names: set<string>)
    requires Ordered(p) && d < |p| && p[d].Remove? && p[d].sn == sn && TrackedSet(sn) && i < |SETS| && sn != SETS[i]
    requires Add(SETS[i], names) in p && RemovalsAhead(p[d + 1..], SETS[i]) != {}
    ensures AddAhead(p[d + 1..], i)
  {
    var l :| 0 <= l < |SETS| && sn == SETS[l];
    var n :| n in RemovalsAhead(p[d + 1..], SETS[i]);
    var r :| r in p[d + 1..] && r.Remove? && r.sn == SETS[i] && r.name == n;
    PlaceAt(i, 0);
    PlaceAt(l, 0);
    hide Ordered, PlaceFrom;
    TailFollows(p, d, r);
    NotBehind(p, d, Add(SETS[i], names));
  }

  /** Between two commands of a store. */
  ghost predicate Underway(inst: Inst, c: Configuration, ch: Choice, done: nat, y: Sys, mine: set<string>)
    requires WfConf(c) && Shaped(ch) && done <= |StorePlan(c, ch)|
  {
    forall i: nat :: i < |SETS| ==>
      SetOwned(inst, y.db, mine, i) && SetHolds(inst, c, y, mine, StorePlan(c, ch)[done..], i)
  }

  lemma CommandHolds(inst: Inst, c: Configuration, y: Sys, mine: set<string>, m: Micro, tail: seq<Micro>, i: nat)
    requires i < |SETS| && WfConf(c) && Fitting(c, m) && InTurn(m, tail, i)
    requires SetOwned(inst, y.db, mine, i) && SetHolds(inst, c, y, mine, [m] + tail, i)
    requires m.Remove? && !y.halted ==> Harmless(y.db, m.sn, m.name, [m] + tail)
    ensures var y', mine' := Do(inst, y, m), mine + (if m.Put? then {m.key} else {});
      SetHolds(inst, c, y', mine', tail, i) && SetOwned(inst, y'.db, mine', i)
  {
    hide WfConf, Do, SetOwned, SetHolds, Harmless, SwapAhead, AddAhead, RemovalsAhead;
    assert mine + {} == mine;
    match m
    case Add(sn, names) => AddHolds(inst, c, y, mine, sn, tail, i);
    case Remove(sn, name) =>
      if sn == SETS[i] {
        AheadSplit(m, tail, i);
        RemoveHolds(inst, c, y, mine, name, tail, i);
      } else {
        QuietStep(inst, y, m);
        OtherSets(inst, y, m);
        QuietHolds(inst, c, y, Do(inst, y, m), mine, m, tail, i);
      }
    case Put(key, value) => PutHolds(inst, c, y, mine, key, value, tail, i);
    case Stale(_, _, _) =>
      QuietStep(inst, y, m);
      OtherSets(inst, y, m);
      QuietHolds(inst, c, y, Do(inst, y, m), mine, m, tail, i);
    case Swap(sn) => SwapHolds(inst, c, y, mine, sn, tail, i);
    case Stamp(text) => StampHolds(inst, c, y, mine, text, tail, i);
  }

  lemma OtherSets(inst: Inst, y: Sys, m: Micro)
    requires m.Remove? || m.Stale?
    ensures Do(inst, y, m).db.sets == y.db.sets && (m.Stale? ==> Do(inst, y, m).halted == y.halted)
  {
  }

  /** The sentinel is in no tracked area. */
  lemma StampHolds(inst: Inst, c: Configuration, y: Sys, mine: set<string>, text: string, tail: seq<Micro>, i: nat)
    requires i < |SETS| && SetOwned(inst, y.db, mine, i) && SetHolds(inst, c, y, mine, [Stamp(text)] + tail, i)
    ensures var y' := Do(inst, y, Stamp(text)); SetHolds(inst, c, y', mine, tail, i) && SetOwned(inst, y'.db, mine, i)
  {
    var y' := Do(inst, y, Stamp(text));
    var z := y.(db := y.db.(strings := y'.db.strings));
    SentinelOutside(inst, SETS[i]);
    RemovalsSplit(Stamp(text), tail, SETS[i]);
    AheadSplit(Stamp(text), tail, i);
    SameDropped(inst, y.db, y'.db, c, i);
    assert y'.db.strings.Keys == y.db.strings.Keys + {Sentinel(inst)} && y'.halted == y.halted
           && y'.db.sets == y.db.sets;
    hide Do, NewKey, SetKey, Names, SwapAhead, AddAhead, RemovalsAhead, Dropped, InArea, HasOwner, Sentinel;
    assert TrackedNames(inst, y'.db, SETS[i]) == TrackedNames(inst, y.db, SETS[i]);
  }

  /** One command of a store, at any time: nothing gets lost sight of. */
  lemma Advance(inst: Inst, c: Configuration, ch: Choice, done: nat, y: Sys, mine: set<string>)
    requires WfConf(c) && Shaped(ch) && done < |StorePlan(c, ch)| && Underway(inst, c, ch, done, y, mine)
    requires var m := StorePlan(c, ch)[done];
      m.Remove? && !y.halted ==> Harmless(y.db, m.sn, m.name, StorePlan(c, ch)[done..])
    ensures var m := StorePlan(c, ch)[done];
      Underway(inst, c, ch, done + 1, Do(inst, y, m), mine + (if m.Put? then {m.key} else {}))
  {
    var m, tail := StorePlan(c, ch)[done], StorePlan(c, ch)[done + 1..];
    assert StorePlan(c, ch)[done..] == [m] + tail;
    hide WfConf, StorePlan, SetOwned, SetHolds, Do, Harmless, Fitting, InTurn;
    PlanFitting(c, ch, m);
    var y', mine' := Do(inst, y, m), mine + (if m.Put? then {m.key} else {});
    forall i: nat | i < |SETS| ensures SetHolds(inst, c, y', mine', tail, i) && SetOwned(inst, y'.db, mine', i) {
      PlanInTurn(c, ch, done, i);
      CommandHolds(inst, c, y, mine, m, tail, i);
    }
  }

  lemma Enter(inst: Inst, c: Configuration, ch: Choice, db: Db, mine: set<string>)
    requires WfConf(c) && Possible(inst, db, c, ch) && Owned(inst, db, mine) && Shaped(ch)
    ensures Underway(inst, c, ch, 0, Sys(db, false), mine)
  {
    var p := StorePlan(c, ch);
    PossibleReplies(inst, db, c, ch);
    OwnedSets(inst, db, mine);
    assert p[0..] == p;
    hide WfConf, StorePlan, Possible, Dropped, Names, SetOwned, SwapAhead, OwnedBy, NewKey;
    forall i: nat | i < |SETS| ensures SetHolds(inst, c, Sys(db, false), mine, p, i) {
      PlanHas(c, ch, i);
      assert AddAhead(p, i);
      forall n | n in Dropped(inst, db, c, SETS[i]) ensures n in RemovalsAhead(p, SETS[i]) {
        assert n in ch.replies[i];
        assert Remove(SETS[i], n) in p;
      }
    }
  }

  /** Between two commands keys may vanish. */
  lemma Wait(inst: Inst, c: Configuration, ch: Choice, done: nat, y: Sys, mine: set<string>, db: Db)
    requires WfConf(c) && Shaped(ch) && done <= |StorePlan(c, ch)| && Underway(inst, c, ch, done, y, mine)
    requires SetsKept(inst, y.db, db) && forall k :: k in mine && k in db.strings ==> k in y.db.strings
    ensures Underway(inst, c, ch, done, Sys(db, y.halted), mine)
  {
    hide WfConf, StorePlan, SetsKept;
    var rest := StorePlan(c, ch)[done..];
    forall i: nat | i < |SETS|
      ensures SetHolds(inst, c, Sys(db, y.halted), mine, rest, i) && SetOwned(inst, db, mine, i)
    {
      assert SetOwned(inst, y.db, mine, i) && SetHolds(inst, c, y, mine, rest, i);
      WaitOne(inst, c, y, mine, db, rest, i);
    }
  }

  lemma OwnSetsKept(inst: Inst, a: Db, b: Db, i: nat)
    requires SetsKept(inst, a, b) && i < |SETS|
    ensures b.Members(SetKey(inst, SETS[i])) == a.Members(SetKey(inst, SETS[i]))
    ensures b.Members(NewKey(inst, SETS[i])) == a.Members(NewKey(inst, SETS[i]))
  {
    hide SetKey, NewKey;
    assert OwnUpTo(inst, |SETS|, SetKey(inst, SETS[i])) && OwnUpTo(inst, |SETS|, NewKey(inst, SETS[i]));
  }

  lemma WaitOne(inst: Inst, c: Configuration, y: Sys, mine: set<string>, db: Db, rest: seq<Micro>, i: nat)
    requires i < |SETS| && SetOwned(inst, y.db, mine, i) && SetHolds(inst, c, y, mine, rest, i)
    requires SetsKept(inst, y.db, db) && forall k :: k in mine && k in db.strings ==> k in y.db.strings
    ensures SetHolds(inst, c, Sys(db, y.halted), mine, rest, i) && SetOwned(inst, db, mine, i)
  {
    OwnSetsKept(inst, y.db, db, i);
    SameDropped(inst, y.db, db, c, i);
    hide OwnedBy, NewKey, SetKey, Names, SwapAhead, AddAhead, RemovalsAhead, Dropped, SetsKept;
    OwnedByMore(y.db, db, mine, i, TrackedNames(inst, y.db, SETS[i]), TrackedNames(inst, db, SETS[i]));
    if SwapAhead(rest, i) && !AddAhead(rest, i) {
      var names := y.db.Members(NewKey(inst, SETS[i])) + (if y.halted then {} else RemovalsAhead(rest, SETS[i]));
      OwnedByMore(y.db, db, mine, i, names, names);
    }
  }

  lemma UnderwayOwned(inst: Inst, c: Configuration, ch: Choice, done: nat, y: Sys, mine: set<string>)
    requires WfConf(c) && Shaped(ch) && done <= |StorePlan(c, ch)| && Underway(inst, c, ch, done, y, mine)
    ensures Owned(inst, y.db, mine)
  {
    hide WfConf, StorePlan, SetHolds, SetOwned;
    OwnedSets(inst, y.db, mine);
  }

  // ---------- calls ----------

  ghost predicate CanRun(l: Local)
  {
    l.Doing? && WfConf(l.c) && Shaped(l.ch) && l.done <= |StorePlan(l.c, l.ch)|
  }

  ghost predicate Watched(inst: Inst, s: Solo, mine: set<string>)
  {
    && Owned(inst, s.shared.db, mine)
    && (s.current.Some? && s.current.value.1.Doing? && WfConf(s.current.value.1.c) ==>
          var l := s.current.value.1;
          CanRun(l) && Underway(inst, l.c, l.ch, l.done, Sys(s.shared.db, l.halted), mine))
  }

  /** The key that this step writes, if any. */
  ghost function Wrote(a: Solo, e: SoloLabel, b: Solo): set<string>
  {
    if e.Next? && a.current.Some? && b.current.Some? && b.current.value.1.Doing? && CanRun(a.current.value.1)
       && a.current.value.1.done < |StorePlan(a.current.value.1.c, a.current.value.1.ch)|
    then
      var m := StorePlan(a.current.value.1.c, a.current.value.1.ch)[a.current.value.1.done];
      if m.Put? then {m.key} else {}
    else {}
  }

  /** A removal comes at a harmless moment; outside, no key of this instance is written, and its sets are left alone, or
      nothing of it remains, as after a flush between two calls. */
  ghost predicate Gentle(inst: Inst, mine: set<string>, a: Solo, e: SoloLabel)
  {
    && (e.Next? && a.current.Some? && CanRun(a.current.value.1) ==>
          var l := a.current.value.1;
          var p := StorePlan(l.c, l.ch);
          l.done < |p| && p[l.done].Remove? && !l.halted ==>
            Harmless(a.shared.db, p[l.done].sn, p[l.done].name, p[l.done..]))
    && (e.Elsewhere? ==>
          || (SetsKept(inst, a.shared.db, e.db) && forall k :: k in mine && k in e.db.strings ==>
                k in a.shared.db.strings)
          || (a.current.None? && forall k :: k in mine ==> k !in e.db.strings))
  }

  lemma EnterWatched(inst: Inst, s: Shared, op: Op, c: Configuration, l: Local, mine: set<string>)
    requires EntersStore(inst, s.db, c, l) && Owned(inst, s.db, mine)
    ensures Watched(inst, Solo(s, Some((op, l))), mine)
  {
    PossibleShaped(inst, s.db, c, l.ch);
    hide WfConf, StorePlan, Possible, Owned, Underway;
    if WfConf(c) { Enter(inst, c, l.ch, s.db, mine); }
  }

  lemma StoresWatched(inst: Inst, s: Shared, op: Op, l: Local, s': Shared, l': Local, mine: set<string>)
    requires l.Doing? && Stores(inst, s, l, s', l') && Watched(inst, Solo(s, Some((op, l))), mine)
    requires Gentle(inst, mine, Solo(s, Some((op, l))), SoloLabel.Next)
    ensures Watched(inst, Solo(s', Some((op, l'))),
                    mine + Wrote(Solo(s, Some((op, l))), SoloLabel.Next, Solo(s', Some((op, l')))))
  {
    hide WfConf, KvOf, StorePlan, Do, Underway, Owned, Harmless;
    assert mine + {} == mine;
    if l'.Doing? {
      Advance(inst, l.c, l.ch, l.done, Sys(s.db, l.halted), mine);
      var m := StorePlan(l.c, l.ch)[l.done];
      UnderwayOwned(inst, l.c, l.ch, l.done + 1, Do(inst, Sys(s.db, l.halted), m),
                    mine + (if m.Put? then {m.key} else {}));
    }
  }

  lemma RenewsWatched(inst: Inst, s: Shared, op: Op, l: Local, s': Shared, l': Local, mine: set<string>)
    requires l.Renewing? && Renews(inst, s, l, s', l') && Owned(inst, s.db, mine)
    ensures Watched(inst, Solo(s', Some((op, l'))), mine)
  {
    hide WfConf, KvOf, StorePlan, Underway, Owned, EntersStore;
    EntersIs(inst, s, l');
    if l'.Doing? {
      EnterWatched(inst, s, op, s.last.value, l', mine);
    } else if l'.Renewing? {
      var k :| RenewsOne(inst, s, l, s', l', k);
      OwnedShrinks(inst, s.db, s'.db, mine);
    }
  }

  lemma EntersIs(inst: Inst, s: Shared, l: Local)
    ensures forall c :: EntersStore(inst, s.db, c, l) ==> l.Doing? && l.c == c
  {
  }

  lemma StartsWatched(inst: Inst, s: Shared, op: Op, l': Local, mine: set<string>)
    requires LastKnown(s) && Starts(inst, op, s, l') && Owned(inst, s.db, mine)
    ensures Watched(inst, Solo(s, Some((op, l'))), mine)
  {
    hide WfConf, KvOf, StorePlan, Underway, Owned, EntersStore;
    EntersIs(inst, s, l');
    if l'.Doing? {
      EnterWatched(inst, s, op, l'.c, l', mine);
    }
  }

  lemma NextWatched(inst: Inst, a: Solo, b: Solo, mine: set<string>)
    requires SoloStep(inst, a, SoloLabel.Next, b) && Watched(inst, a, mine) && Gentle(inst, mine, a, SoloLabel.Next)
    ensures Watched(inst, b, mine + Wrote(a, SoloLabel.Next, b))
  {
    var op, l, l' := a.current.value.0, a.current.value.1, b.current.value.1;
    hide WfConf, KvOf, StorePlan, Underway, Owned, Starts, Renews, Stores, Gentle;
    if l.Doing? {
      StoresWatched(inst, a.shared, op, l, b.shared, l', mine);
    } else {
      assert mine + {} == mine;
      if l.Ready? {
        StartsWatched(inst, a.shared, op, l', mine);
      } else {
        RenewsWatched(inst, a.shared, op, l, b.shared, l', mine);
      }
    }
  }

  lemma ElsewhereWatched(inst: Inst, a: Solo, db: Db, b: Solo, mine: set<string>)
    requires SoloStep(inst, a, Elsewhere(db), b) && Watched(inst, a, mine) && Gentle(inst, mine, a, Elsewhere(db))
    ensures Watched(inst, b, mine)
  {
    hide WfConf, StorePlan, Underway, SetsKept;
    if SetsKept(inst, a.shared.db, db) && forall k :: k in mine && k in db.strings ==> k in a.shared.db.strings {
      SpareOwned(inst, a.shared.db, db, mine);
      if a.current.Some? && a.current.value.1.Doing? && WfConf(a.current.value.1.c) {
        var l := a.current.value.1;
        Wait(inst, l.c, l.ch, l.done, Sys(a.shared.db, l.halted), mine, db);
      }
    }
  }

  lemma SpareOwned(inst: Inst, a: Db, b: Db, mine: set<string>)
    requires Owned(inst, a, mine) && SetsKept(inst, a, b) && forall k :: k in mine && k in b.strings ==> k in a.strings
    ensures Owned(inst, b, mine)
  {
    hide SetKey, NewKey, SetsKept, OwnedBy;
    OwnedSets(inst, a, mine);
    OwnedSets(inst, b, mine);
    forall i: nat | i < |SETS| ensures SetOwned(inst, b, mine, i) {
      assert SetOwned(inst, a, mine, i);
      OwnSetsKept(inst, a, b, i);
      OwnedByMore(a, b, mine, i, TrackedNames(inst, a, SETS[i]), TrackedNames(inst, b, SETS[i]));
    }
  }

  lemma StepWatched(inst: Inst, a: Solo, e: SoloLabel, b: Solo, mine: set<string>)
    requires SoloStep(inst, a, e, b) && Watched(inst, a, mine) && Gentle(inst, mine, a, e)
    ensures Watched(inst, b, mine + Wrote(a, e, b))
  {
    hide WfConf, StorePlan, Underway, Owned, Gentle, Act;
    assert mine + {} == mine;
    match e
    case Begin(op) =>
    case Next => NextWatched(inst, a, b, mine);
    case End =>
    case Elsewhere(db) => ElsewhereWatched(inst, a, db, b, mine);
  }

  // ---------- whole traces of concurrent calls ----------

  /** The keys this process has written so far. */
  ghost function MineAt(worlds: seq<World>, labels: seq<Label>, n: nat): set<string>
    requires n <= |labels| && n < |worlds|
  {
    if n == 0 then {}
    else
      var before, e := MineAt(worlds, labels, n - 1), SerialOf(worlds[n - 1], labels[n - 1]);
      if e.None? then before else before + Wrote(SoloOf(worlds[n - 1]), e.value, SoloOf(worlds[n]))
  }

  ghost predicate AllGentle(inst: Inst, worlds: seq<World>, labels: seq<Label>)
    requires |worlds| == |labels| + 1
  {
    forall i :: 0 <= i < |labels| ==>
      var e := SerialOf(worlds[i], labels[i]);
      e.Some? ==> Gentle(inst, MineAt(worlds, labels, i), SoloOf(worlds[i]), e.value)
  }

  lemma {:induction false} AlwaysWatched(inst: Inst, worlds: seq<World>, labels: seq<Label>, n: nat)
    requires IsTrace(inst, worlds, labels) && Exclusive(worlds[0]) && worlds[0].owner.None?
    requires AllGentle(inst, worlds, labels)
    requires n <= |labels|
    ensures Watched(inst, SoloOf(worlds[n]), MineAt(worlds, labels, n))
  {
    hide Watched, SoloStep, Gentle, WorldStep, SoloOf, SerialOf, Wrote;
    if n == 0 {
      FirstWatched(inst, worlds[0]);
    } else {
      AlwaysWatched(inst, worlds, labels, n - 1);
      MutualExclusion(inst, worlds, labels, n - 1);
      StepSerial(inst, worlds[n - 1], labels[n - 1], worlds[n]);
      var e := SerialOf(worlds[n - 1], labels[n - 1]);
      if e.Some? {
        StepWatched(inst, SoloOf(worlds[n - 1]), e.value, SoloOf(worlds[n]), MineAt(worlds, labels, n - 1));
      }
    }
  }

  lemma FirstWatched(inst: Inst, w: World)
    requires w.owner.None?
    ensures Watched(inst, SoloOf(w), {})
  {
  }

  /** Whatever the interleaving, however much time passes and whatever keys vanish between commands: every live key that
      this process has written in a tracked area is under a name in its tracking or temporary sets, as long as each
      removal finds its name with keys, or none of the names still to be removed with any. */
  lemma OwnershipOverTraces(inst: Inst, worlds: seq<World>, labels: seq<Label>, n: nat)
    requires IsTrace(inst, worlds, labels) && Exclusive(worlds[0]) && worlds[0].owner.None?
    requires AllGentle(inst, worlds, labels)
    requires n <= |labels|
    ensures Owned(inst, worlds[n].shared.db, MineAt(worlds, labels, n))
  {
    hide WorldStep, AllGentle, MineAt, Owned;
    AlwaysWatched(inst, worlds, labels, n);
  }
}
