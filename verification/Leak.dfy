/** Why the live-key condition matters: when a store drops a name without keys together with one that has some,
    a reply order exists after which live keys are left that no tracking set covers any more. */
module Leak {
  import opened Paths
  import opened Values
  import opened Config
  import opened Published
  import opened Redis
  import opened Plan
  import opened Removal
  import opened ClosedForm
  import opened Ownership
  import opened KeepAlive
  import opened Hosts
  import opened Ttl

  lemma OtherSetSpares(i: nat, j: nat, n: string, name: string, k: string)
    requires i < |SETS| && j < |SETS| && i != j && Under(SETS[i], n, k) && Plain(name)
    ensures Spares(Remove(SETS[j], name), k)
  {
    SetsDistinct(if i < j then i else j, if i < j then j else i);
    if Under(SETS[j], name, k) {
      UnderUnique(SETS[i], n, SETS[j], name, k);
    }
  }

  lemma RemovesKeep(inst: Inst, y: Sys, sn: SetName, names: seq<string>, k: string)
    requires k in y.db.strings && forall name :: name in names ==> Spares(Remove(sn, name), k)
    ensures k in Run(inst, y, Removes(sn, names)).db.strings
  {
    hide Run, Spares;
    forall m | m in Removes(sn, names) ensures Spares(m, k) {
      var x :| 0 <= x < |names| && Removes(sn, names)[x] == m;
    }
    RunKeeps(inst, y, Removes(sn, names), k);
  }

  /** The key outlives the removal phase: of its own set nothing is removed, as the first name has no key. */
  lemma {:induction false} TracksKeep(inst: Inst, db: Db, c: Configuration, replies: seq<seq<string>>, i: nat,
                                      n: string, k: string, j: nat)
    requires |replies| == |SETS| && i < |SETS| && j <= |SETS| && k in db.strings && Under(SETS[i], n, k)
    requires |replies[i]| > 0 && Plain(replies[i][0]) && !Live(db.strings, SETS[i], replies[i][0])
    requires forall l :: 0 <= l < |SETS| ==> AllPlain(replies[l])
    ensures k in Run(inst, Sys(db, false), Tracks(c, replies, j)).db.strings
  {
    hide Run, Do, Tracks, Names, NewKey, Under, Live, Removes;
    var y := Sys(db, false);
    if j == 0 {
      TracksNone(inst, y, c, replies);
    } else {
      var sn := SETS[j - 1];
      TracksKeep(inst, db, c, replies, i, n, k, j - 1);
      var a := Run(inst, y, Tracks(c, replies, j - 1));
      var b := Do(inst, a, Add(sn, Names(c, sn)));
      AddStep(inst, a, sn, Names(c, sn));
      TrackStep(inst, y, c, replies, j);
      if j - 1 == i {
        StillNoKey(inst, db, c, replies, j - 1, sn, replies[i][0]);
        SameStringsDead(a.db.strings, b.db.strings, sn, replies[i][0]);
        RemovesFirstDead(inst, b, sn, replies[i][0], replies[i][1..]);
        assert replies[i] == [replies[i][0]] + replies[i][1..];
      } else {
        forall name | name in replies[j - 1] ensures Spares(Remove(sn, name), k) {
          OtherSetSpares(i, j - 1, n, name, k);
        }
        RemovesKeep(inst, b, sn, replies[j - 1], k);
      }
    }
  }

  lemma SameStringsDead(a: map<string, Item>, b: map<string, Item>, sn: SetName, name: string)
    requires a == b && !Live(a, sn, name)
    ensures !Live(b, sn, name)
  {
  }

  lemma StillNoKey(inst: Inst, db: Db, c: Configuration, replies: seq<seq<string>>, j: nat, sn: SetName, dead: string)
    requires |replies| == |SETS| && j <= |SETS| && !Live(db.strings, sn, dead)
    ensures !Live(Run(inst, Sys(db, false), Tracks(c, replies, j)).db.strings, sn, dead)
  {
    TracksQuiet(c, replies, j);
    hide Run, Tracks, Under;
    QuietRun(inst, Sys(db, false), Tracks(c, replies, j));
  }

  /** The commands after the removal phase spare the key too. */
  lemma TailSpares(inst: Inst, db: Db, c: Configuration, kv: map<string, string>, ch: Choice, i: nat, n: string,
                   k: string, m: Micro)
    requires Possible(inst, db, c, ch) && Shaped(ch) && i < |SETS| && Under(SETS[i], n, k) && WfConf(c)
    requires forall x :: x in Names(c, SETS[i]) ==> StripDocker(x) != StripDocker(n)
    requires m in WritePlan(kv) + CleanPlan(kv, ch) + Swaps(|SETS|) + [Stamp(ch.stamp)]
    ensures Spares(m, k)
  {
    hide WfConf, Names, SortedSeq, AllStales, Under, ServersPrefix;
    if m in CleanPlan(kv, ch) {
      var p := StaleFrom(ch.services, kv.Keys, |PROTO_ORDER|, m);
      assert m.name in Names(c, SetName(m.proto, "services"));
      if ServersPrefix(m.proto, m.name) <= k {
        StaleElsewhere(c, i, n, k, m.proto, m.name);
      }
    }
  }

  lemma StaleElsewhere(c: Configuration, i: nat, n: string, k: string, proto: string, name: string)
    requires WfConf(c) && i < |SETS| && Under(SETS[i], n, k) && proto in PROTOCOLS
    requires name in Names(c, SetName(proto, "services"))
    requires forall x :: x in Names(c, SETS[i]) ==> StripDocker(x) != StripDocker(n)
    ensures !(ServersPrefix(proto, name) <= k)
  {
    hide WfConf, Names, ServersPrefix, Under;
    if ServersPrefix(proto, name) <= k {
      EntryWf(c, SetName(proto, "services"), name);
      ServersUnder(proto, name, k);
      UnderUnique(SETS[i], n, SetName(proto, "services"), name, k);
    }
  }

  /** The dropped names also differ from those left in the temporary sets, up to "@docker". */
  ghost predicate LeftApart(inst: Inst, db: Db, c: Configuration)
  {
    forall i, n, m ::
      0 <= i < |SETS| && n in Dropped(inst, db, c, SETS[i]) && m in db.Members(NewKey(inst, SETS[i])) ==>
      StripDocker(n) != StripDocker(m)
  }

  lemma KeyStays(inst: Inst, db: Db, c: Configuration, kv: map<string, string>, ch: Choice, i: nat, n: string,
                 k: string)
    requires WfConf(c) && Possible(inst, db, c, ch) && Shaped(ch) && i < |SETS| && DropNames(inst, db, c)
    requires Apart(inst, db, c)
    requires n in Dropped(inst, db, c, SETS[i]) && k in db.strings && Under(SETS[i], n, k)
    requires |ch.replies[i]| > 0 && !Live(db.strings, SETS[i], ch.replies[i][0])
    ensures k in Run(inst, Sys(db, false), FullPlan(c, kv, ch)).db.strings
  {
    var tail := WritePlan(kv) + CleanPlan(kv, ch) + Swaps(|SETS|) + [Stamp(ch.stamp)];
    PossibleReplies(inst, db, c, ch);
    forall x | x in Names(c, SETS[i]) ensures StripDocker(x) != StripDocker(n) {
      ApartAt(inst, db, c, i, n, x);
    }
    hide WfConf, Possible, Names, Dropped, NewKey, Apart, Under, Live, Tracks, CleanPlan, WritePlan, Swaps, Run, Spares;
    forall l | 0 <= l < |SETS| ensures AllPlain(ch.replies[l]) {
      assert forall x :: x in ch.replies[l] ==> Plain(x);
    }
    assert ch.replies[i][0] in ch.replies[i];
    TracksKeep(inst, db, c, ch.replies, i, n, k, |SETS|);
    forall m | m in tail ensures Spares(m, k) {
      TailSpares(inst, db, c, kv, ch, i, n, k, m);
    }
    RunKeeps(inst, Run(inst, Sys(db, false), TrackPlan(c, ch)), tail, k);
    PlanSplit(c, kv, ch);
    RunConcat(inst, Sys(db, false), TrackPlan(c, ch), tail);
  }

  lemma PlanSplit(c: Configuration, kv: map<string, string>, ch: Choice)
    requires Shaped(ch)
    ensures FullPlan(c, kv, ch)
            == TrackPlan(c, ch) + (WritePlan(kv) + CleanPlan(kv, ch) + Swaps(|SETS|) + [Stamp(ch.stamp)])
  {
    hide TrackPlan, WritePlan, CleanPlan, Swaps;
  }

  lemma NobodyOwns(inst: Inst, db: Db, c: Configuration, i: nat, n: string, k: string, db': Db)
    requires i < |SETS| && Apart(inst, db, c) && LeftApart(inst, db, c) && n in Dropped(inst, db, c, SETS[i])
    requires Under(SETS[i], n, k)
    requires FinalSets(inst, db, c, db')
    ensures !HasOwner(TrackedNames(inst, db', SETS[i]), SETS[i], k)
  {
    forall m | m in db.Members(NewKey(inst, SETS[i])) + Names(c, SETS[i]) ensures StripDocker(n) != StripDocker(m) {
      if m in Names(c, SETS[i]) {
        ApartAt(inst, db, c, i, n, m);
      } else {
        LeftApartAt(inst, db, c, i, n, m);
      }
    }
    hide Names, Dropped, NewKey, SetKey, Under, OwnUpTo, Apart, LeftApart;
    assert db'.Members(NewKey(inst, SETS[i])) == {};
    forall m | m in TrackedNames(inst, db', SETS[i]) ensures !Under(SETS[i], m, k) {
      assert m in db.Members(NewKey(inst, SETS[i])) + Names(c, SETS[i]);
      if Under(SETS[i], m, k) {
        UnderUnique(SETS[i], n, SETS[i], m, k);
      }
    }
  }

  lemma LeftApartAt(inst: Inst, db: Db, c: Configuration, i: nat, n: string, m: string)
    requires LeftApart(inst, db, c) && i < |SETS| && n in Dropped(inst, db, c, SETS[i])
    requires m in db.Members(NewKey(inst, SETS[i]))
    ensures StripDocker(n) != StripDocker(m)
  {
  }

  lemma PossibleWith(inst: Inst, db: Db, c: Configuration, i: nat, reply: seq<string>) returns (ch: Choice)
    requires i < |SETS| && Enumerates(reply, Dropped(inst, db, c, SETS[i]))
    ensures Shaped(ch) && Possible(inst, db, c, ch) && ch.replies[i] == reply
  {
    hide Names, Dropped, Enumerates;
    var replies := RepliesWith(inst, db, c, i, reply, |SETS|);
    var a := Enumeration(Names(c, SetName("http", "services")));
    var b := Enumeration(Names(c, SetName("tcp", "services")));
    var d := Enumeration(Names(c, SetName("udp", "services")));
    ch := Choice(replies, [a, b, d], "");
  }

  lemma {:induction false} RepliesWith(inst: Inst, db: Db, c: Configuration, i: nat, reply: seq<string>, n: nat)
    returns (replies: seq<seq<string>>)
    requires i < |SETS| && n <= |SETS| && Enumerates(reply, Dropped(inst, db, c, SETS[i]))
    ensures |replies| == n && (i < n ==> replies[i] == reply)
    ensures forall l :: 0 <= l < n ==> Enumerates(replies[l], Dropped(inst, db, c, SETS[l]))
  {
    hide Dropped, Enumerates;
    if n == 0 {
      replies := [];
    } else {
      var before := RepliesWith(inst, db, c, i, reply, n - 1);
      var last := Enumeration(Dropped(inst, db, c, SETS[n - 1]));
      replies := before + [if n - 1 == i then reply else last];
    }
  }

  /** When some dropped name has keys and another has none, there are replies for which the complete store leaves
      a key of the first behind that, besides, no tracking set covers any more. */
  lemma MixedDropLeaks(inst: Inst, db: Db, c: Configuration, kv: map<string, string>, i: nat, dead: string, n: string)
    returns (ch: Choice, k: string)
    requires WfConf(c) && ValidDb(db) && i < |SETS| && DropNames(inst, db, c) && Apart(inst, db, c)
    requires dead in Dropped(inst, db, c, SETS[i]) && !Live(db.strings, SETS[i], dead)
    requires n in Dropped(inst, db, c, SETS[i]) && Live(db.strings, SETS[i], n)
    ensures Shaped(ch) && Possible(inst, db, c, ch)
    ensures var r := Run(inst, Sys(db, false), FullPlan(c, kv, ch)).db;
      && k in db.strings && Under(SETS[i], n, k) && k in r.strings
      && (LeftApart(inst, db, c) ==> !HasOwner(TrackedNames(inst, r, SETS[i]), SETS[i], k))
  {
    k :| k in db.strings && Under(SETS[i], n, k);
    hide WfConf, Names, Dropped, Under, Live, ValidDb, FullPlan, Run, FinalSets, DropNames, Apart, LeftApart, HasOwner,
      Possible;
    var rest := Enumeration(Dropped(inst, db, c, SETS[i]) - {dead});
    ch := PossibleWith(inst, db, c, i, [dead] + rest);
    KeyStays(inst, db, c, kv, ch, i, n, k);
    StoreSets(inst, db, c, kv, ch);
    if LeftApart(inst, db, c) {
      NobodyOwns(inst, db, c, i, n, k, Run(inst, Sys(db, false), FullPlan(c, kv, ch)).db);
    }
  }

  lemma Uneven(inst: Inst, db: Db, c: Configuration) returns (i: nat, dead: string, n: string)
    requires !Even(inst, db, c)
    ensures i < |SETS| && dead in Dropped(inst, db, c, SETS[i]) && !Live(db.strings, SETS[i], dead)
    ensures n in Dropped(inst, db, c, SETS[i]) && Live(db.strings, SETS[i], n)
  {
    hide Dropped, Live;
    i :| 0 <= i < |SETS| && !EvenIn(db.strings, SETS[i], Dropped(inst, db, c, SETS[i]));
    dead :| dead in Dropped(inst, db, c, SETS[i]) && !Live(db.strings, SETS[i], dead);
    n :| n in Dropped(inst, db, c, SETS[i]) && Live(db.strings, SETS[i], n);
  }

  // ---------- the exact condition ----------

  /** For every choice that Go and Redis have, the complete store is the closed-form update. */
  ghost predicate AlwaysClosedForm(inst: Inst, db: Db, c: Configuration, kv: map<string, string>)
  {
    forall ch :: Possible(inst, db, c, ch) ==>
      Shaped(ch) && Run(inst, Sys(db, false), FullPlan(c, kv, ch)).db.strings == FinalStrings(inst, db, c, kv, ch.stamp)
  }

  lemma UnevenNotClosed(inst: Inst, db: Db, c: Configuration, kv: map<string, string>)
    requires WfConf(c) && KvOf(c) == Some(kv) && ValidDb(db) && DropNames(inst, db, c) && Apart(inst, db, c)
    requires !Even(inst, db, c)
    ensures !AlwaysClosedForm(inst, db, c, kv)
  {
    hide WfConf, KvOf, ValidDb, DropNames, Apart, Even, Dropped, Live, Possible, Run, FullPlan, FinalStrings,
      AllClaims, Claimed, Under, Names;
    var i, dead, n := Uneven(inst, db, c);
    var ch, k := MixedDropLeaks(inst, db, c, kv, i, dead, n);
    DroppedIsClaimed(inst, db, c, i, n, k);
    KeyOfDropped(inst, db, c, i, n, k);
    NotSentinel(inst, SETS[i], n, k);
    ClaimedGone(inst, db, c, kv, ch.stamp, k);
  }

  lemma KeyOfDropped(inst: Inst, db: Db, c: Configuration, i: nat, n: string, k: string)
    requires WfConf(c) && KvOf(c).Some? && Apart(inst, db, c) && i < |SETS| && n in Dropped(inst, db, c, SETS[i])
    requires Under(SETS[i], n, k)
    ensures k !in KvOf(c).value
  {
    hide WfConf, KvOf, Apart, Dropped, Under, Sentinel;
    if k in KvOf(c).value {
      DroppedSpares(inst, db, c, i, n, k);
    }
  }

  /** A complete store is the closed-form update, whatever the replies, exactly when of each set's dropped names
      all or none have keys: something to be read off the database before the call. */
  lemma ClosedFormIff(inst: Inst, db: Db, c: Configuration, kv: map<string, string>)
    requires WfConf(c) && KvOf(c) == Some(kv) && ValidDb(db) && DropNames(inst, db, c) && Apart(inst, db, c)
    ensures AlwaysClosedForm(inst, db, c, kv) <==> Even(inst, db, c)
  {
    hide WfConf, KvOf, ValidDb, DropNames, Apart, Even, Possible, FullPlan, Run, FinalStrings, FinalSets;
    if Even(inst, db, c) {
      forall ch | Possible(inst, db, c, ch)
        ensures Shaped(ch)
        ensures Run(inst, Sys(db, false), FullPlan(c, kv, ch)).db.strings == FinalStrings(inst, db, c, kv, ch.stamp)
      {
        PossibleShaped(inst, db, c, ch);
        StoreClosedForm(inst, db, c, kv, ch);
      }
    } else {
      UnevenNotClosed(inst, db, c, kv);
    }
  }

  /** For every choice, the complete store keeps every live key of the instance under a name it tracks. */
  ghost predicate AlwaysOwned(inst: Inst, db: Db, c: Configuration, kv: map<string, string>)
  {
    forall ch, mine :: Possible(inst, db, c, ch) && Owned(inst, db, mine) ==>
      Shaped(ch) && Owned(inst, Run(inst, Sys(db, false), FullPlan(c, kv, ch)).db, mine + PutKeys(FullPlan(c, kv, ch)))
  }

  lemma OneOwned(inst: Inst, db: Db, c: Configuration, i: nat, n: string, k: string)
    requires i < |SETS| && n in Dropped(inst, db, c, SETS[i]) && Under(SETS[i], n, k)
    ensures Owned(inst, db, {k}) && InArea(SETS[i], k)
  {
    hide SetKey, NewKey, Names;
    assert AreaPath(SETS[i]) <= NamePath(SETS[i], n);
    forall j | 0 <= j < |SETS| && InArea(SETS[j], k) ensures j == i {
      var s := Split(k);
      assert s[1] == SETS[j].proto && s[2] == SETS[j].kind && s[1] == SETS[i].proto && s[2] == SETS[i].kind;
      if j < i { SetsDistinct(j, i); } else if i < j { SetsDistinct(i, j); }
    }
    assert n in TrackedNames(inst, db, SETS[i]);
  }

  lemma UnevenNotOwned(inst: Inst, db: Db, c: Configuration, kv: map<string, string>)
    requires WfConf(c) && KvOf(c) == Some(kv) && ValidDb(db) && DropNames(inst, db, c) && Apart(inst, db, c)
    requires LeftApart(inst, db, c)
    requires !Even(inst, db, c)
    ensures !AlwaysOwned(inst, db, c, kv)
  {
    hide WfConf, KvOf, ValidDb, DropNames, Apart, LeftApart, Even, Dropped, Live, Possible, Run, FullPlan, Under,
      Names, HasOwner, InArea;
    var i, dead, n := Uneven(inst, db, c);
    var ch, k := MixedDropLeaks(inst, db, c, kv, i, dead, n);
    OneOwned(inst, db, c, i, n, k);
    NotOwned(inst, Run(inst, Sys(db, false), FullPlan(c, kv, ch)).db, {k} + PutKeys(FullPlan(c, kv, ch)), i, k);
  }

  lemma NotOwned(inst: Inst, db: Db, mine: set<string>, i: nat, k: string)
    requires i < |SETS| && k in mine && k in db.strings && InArea(SETS[i], k)
    requires !HasOwner(TrackedNames(inst, db, SETS[i]), SETS[i], k)
    ensures !Owned(inst, db, mine)
  {
  }

  /** The same condition is exact for ownership. */
  lemma OwnershipIff(inst: Inst, db: Db, c: Configuration, kv: map<string, string>)
    requires WfConf(c) && KvOf(c) == Some(kv) && ValidDb(db) && DropNames(inst, db, c) && Apart(inst, db, c)
    requires LeftApart(inst, db, c)
    ensures AlwaysOwned(inst, db, c, kv) <==> Even(inst, db, c)
  {
    hide WfConf, KvOf, ValidDb, DropNames, Apart, LeftApart, Even, Possible, FullPlan, Run, Owned, PutKeys;
    if Even(inst, db, c) {
      forall ch, mine | Possible(inst, db, c, ch) && Owned(inst, db, mine)
        ensures Shaped(ch)
        ensures Owned(inst, Run(inst, Sys(db, false), FullPlan(c, kv, ch)).db, mine + PutKeys(FullPlan(c, kv, ch)))
      {
        PossibleShaped(inst, db, c, ch);
        StorePrefixOwned(inst, db, mine, c, ch, |FullPlan(c, kv, ch)|);
        assert FullPlan(c, kv, ch)[..|FullPlan(c, kv, ch)|] == FullPlan(c, kv, ch);
      }
    } else {
      UnevenNotOwned(inst, db, c, kv);
    }
  }
}
