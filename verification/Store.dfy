/** RedisStore: the publisher, proved command by command against its plan. */
module Store {
  import opened Paths
  import opened Values
  import opened Flatten
  import opened Walk
  import opened Config
  import opened Published
  import opened Redis
  import opened Plan
  import opened Removal
  import opened ClosedForm
  import opened Sending

  method ConfigToKV(conf: Configuration) returns (kv: map<string, string>, ok: bool)
    requires WfConf(conf)
    ensures ok == KvOf(conf).Some?
    ensures ok ==> kv == KvOf(conf).value
  {
    SplitOnPlain('/', "traefik");
    assert Split("traefik") == ROOT;
    var w := new KV();
    var added;
    added, ok := w.WalkTypedValue("traefik", ConfValue(conf), false);
    kv := w.data;
    assert ok ==> kv == map[] + Emitted(ROOT, ConfShape(conf));
  }

  lemma SortedStep(r: seq<string>, todo: set<string>, k: string)
    requires IsLeast(k, todo)
    ensures (r + [k]) + SortedSeq(todo - {k}) == r + SortedSeq(todo)
  {
    hide LexLe, Enumerates;
    LexAntisymmetric(k, Least(todo));
    assert SortedSeq(todo) == [k] + SortedSeq(todo - {k});
  }

  /** sort.Strings(collectKeys(kv)) */
  method SortedKeys(kv: map<string, string>) returns (r: seq<string>)
    ensures r == SortedSeq(kv.Keys)
  {
    r := [];
    var todo := kv.Keys;
    while todo != {}
      invariant todo <= kv.Keys
      invariant r + SortedSeq(todo) == SortedSeq(kv.Keys)
      decreases todo
    {
      hide SortedSeq, LexLe, Enumerates;
      LeastExists(todo);
      var k :| k in todo && forall x :: x in todo ==> LexLe(k, x);
      assert IsLeast(k, todo);
      SortedStep(r, todo, k);
      r := r + [k];
      todo := todo - {k};
    }
  }

  /** Earlier sets do not disturb the reply for a later one. */
  lemma DroppedStable(inst: Inst, db: Db, c: Configuration, replies: seq<seq<string>>, i: nat)
    requires i < |SETS| && i <= |replies|
    ensures Dropped(inst, Run(inst, Sys(db, false), Tracks(c, replies, i)).db, c, SETS[i])
            == Dropped(inst, db, c, SETS[i])
  {
    hide Run, Tracks, Names, SetKey, NewKey;
    var y := Sys(db, false);
    forall j | 0 <= j < i
      ensures SetKey(inst, SETS[i]) != NewKey(inst, SETS[j]) && NewKey(inst, SETS[i]) != NewKey(inst, SETS[j])
    {
      SetsDistinct(j, i);
      OwnKeysDistinct(inst, SETS[j], SETS[i]);
    }
    TracksSets(inst, y, c, replies, i, SetKey(inst, SETS[i]));
    TracksSets(inst, y, c, replies, i, NewKey(inst, SETS[i]));
    AddedMiss(inst, c, i, SetKey(inst, SETS[i]));
    AddedMiss(inst, c, i, NewKey(inst, SETS[i]));
  }

  lemma {:induction false} TracksExtend(c: Configuration, a: seq<seq<string>>, b: seq<seq<string>>, n: nat)
    requires n <= |SETS| && n <= |a| && n <= |b| && a[..n] == b[..n]
    ensures Tracks(c, a, n) == Tracks(c, b, n)
  {
    if n > 0 {
      assert a[..n - 1] == a[..n][..n - 1] == b[..n][..n - 1] == b[..n - 1];
      assert a[n - 1] == a[..n][n - 1] == b[..n][n - 1] == b[n - 1];
      TracksExtend(c, a, b, n - 1);
    }
  }

  lemma {:induction false} AllStalesExtend(a: seq<seq<string>>, b: seq<seq<string>>, kept: set<string>, n: nat)
    requires n <= |PROTO_ORDER| && n <= |a| && n <= |b| && a[..n] == b[..n]
    ensures AllStales(a, kept, n) == AllStales(b, kept, n)
  {
    if n > 0 {
      assert a[..n - 1] == a[..n][..n - 1] == b[..n][..n - 1] == b[..n - 1];
      assert a[n - 1] == a[..n][n - 1] == b[..n][n - 1] == b[n - 1];
      AllStalesExtend(a, b, kept, n - 1);
    }
  }

  /** Some order of the services, for the part of a choice that was never reached. */
  lemma AnyServices(c: Configuration) returns (services: seq<seq<string>>)
    ensures |services| == |PROTO_ORDER|
    ensures forall i :: 0 <= i < |PROTO_ORDER| ==>
      Enumerates(services[i], Names(c, SetName(PROTO_ORDER[i], "services")))
  {
    hide Names, Enumerates;
    var a := Enumeration(Names(c, SetName("http", "services")));
    var b := Enumeration(Names(c, SetName("tcp", "services")));
    var d := Enumeration(Names(c, SetName("udp", "services")));
    services := [a, b, d];
  }

  /** The calls that take the mutex, with their outcome. */
  datatype Called = StoreCalled(conf: Configuration, ok: bool) | KeepCalled(ok: bool)

  class RedisStore {
    const inst: Inst
    const client: Client
    var lastConfig: Option<Configuration>
    /** Every call of Store and KeepConfAlive, in order. */
    ghost var called: seq<Called>

    constructor (hostname: string, ttl: nat, client: Client)
      ensures inst == Inst(hostname, ttl) && this.client == client && lastConfig == None && called == []
    {
      this.inst := Inst(hostname, ttl);
      this.client := client;
      this.lastConfig, this.called := None, [];
    }

    method SwapKeys(sn: SetName)
      modifies client
      ensures client.View() == SwapDb(inst, old(client.View()), sn) && client.sent == old(client.sent)
    {
      var ok := client.Rename(NewKey(inst, sn), SetKey(inst, sn));
      if !ok {
        client.UnlinkSet(SetKey(inst, sn));
      }
    }

    /** Stops at the first name without live keys, as its UNLINK is an error. */
    method RemoveKeys(sn: SetName, keys: seq<string>)
      modifies client
      ensures client.View() == Run(inst, Sys(old(client.View()), false), Removes(sn, keys)).db
      ensures client.sent == old(client.sent)
    {
      hide Run, Removes, Do;
      ghost var y := Sys(client.View(), false);
      RunNothing(inst, y);
      RemovesNothing(sn, keys[..0]);
      for i := 0 to |keys|
        invariant Run(inst, y, Removes(sn, keys[..i])) == Sys(client.View(), false)
        invariant client.sent == old(client.sent)
      {
        RemovesSnoc(inst, y, sn, keys, i);
        RemoveIs(inst, Sys(client.View(), false), sn, keys[i]);
        var res := client.Keys(K(SetLabel(sn), keys[i]) + "/");
        var ok := client.Unlink(res);
        if !ok {
          RemovesStopped(inst, y, sn, keys, i + 1);
          return;
        }
      }
      assert keys[..|keys|] == keys;
    }

    method RemoveOldKeys(names: set<string>, sn: SetName) returns (ghost reply: seq<string>)
      requires Tracked(sn)
      modifies client
      ensures Enumerates(reply, old(client.View()).Members(SetKey(inst, sn))
                - (if names == {} then {} else old(client.View()).Members(NewKey(inst, sn)) + names))
      ensures client.View()
              == Run(inst, Sys(old(client.View()).SAdd(NewKey(inst, sn), names), false), Removes(sn, reply)).db
      ensures client.sent == old(client.sent)
    {
      var res;
      if names == {} {
        res := client.SMembers(SetKey(inst, sn));
      } else {
        client.SAdd(NewKey(inst, sn), names);
        AddMembers(old(client.View()), NewKey(inst, sn), names, SetKey(inst, sn));
        AddMembers(old(client.View()), NewKey(inst, sn), names, NewKey(inst, sn));
        OwnKeysDistinct(inst, sn, sn);
        res := client.SDiff(SetKey(inst, sn), NewKey(inst, sn));
      }
      reply := res;
      RemoveKeys(sn, res);
    }

    method RemoveStaleServerKeys(kv: map<string, string>, services: set<string>, proto: string)
      returns (ghost order: seq<string>)
      modifies client
      ensures Enumerates(order, services)
      ensures client.View() == Run(inst, Sys(old(client.View()), false), Stales(proto, order, kv.Keys)).db
      ensures !Run(inst, Sys(old(client.View()), false), Stales(proto, order, kv.Keys)).halted
      ensures client.sent == old(client.sent)
    {
      hide Run, Do, Stales, Enumerates;
      order := [];
      ghost var y := Sys(client.View(), false);
      RunNothing(inst, y);
      StalesNothing(proto, kv.Keys);
      EnumeratesNothing(order);
      var todo := services;
      while todo != {}
        invariant todo <= services && Enumerates(order, services - todo)
        invariant Run(inst, y, Stales(proto, order, kv.Keys)) == Sys(client.View(), false)
        invariant client.sent == old(client.sent)
        decreases todo
      {
        var name :| name in todo;
        assert todo - {name} + {name} == todo;
        todo := todo - {name};
        StaleNext(inst, y, proto, order, name, kv.Keys);
        EnumeratesNext(order, services, todo, name);
        order := order + [name];
        var prefix := "traefik/" + proto + "/services/" + StripDocker(name) + "/loadBalancer/servers/";
        var existing := client.Keys(prefix);
        ghost var before := client.View();
        ghost var gone: set<string> := {};
        while existing != {}
          invariant gone <= before.Matching(prefix) - kv.Keys
          invariant before.Matching(prefix) - kv.Keys - gone <= existing <= before.Matching(prefix)
          invariant client.View() == before.Unlink(gone) && client.sent == old(client.sent)
          decreases existing
        {
          var key :| key in existing;
          existing := existing - {key};
          if key !in kv {
            var _ := client.Unlink({key});
            assert before.strings - gone - {key} == before.strings - (gone + {key});
            gone := gone + {key};
          }
        }
        assert gone == before.Matching(prefix) - kv.Keys;
      }
      assert services - todo == services;
    }

    method RemoveAllOldKeys(conf: Configuration) returns (ghost replies: seq<seq<string>>)
      modifies client
      ensures |replies| == |SETS|
      ensures forall i :: 0 <= i < |SETS| ==> Enumerates(replies[i], Dropped(inst, old(client.View()), conf, SETS[i]))
      ensures client.View() == Run(inst, Sys(old(client.View()), false), Tracks(conf, replies, |SETS|)).db
      ensures client.sent == old(client.sent)
    {
      hide Names, Dropped, Do, Run, Removes, Enumerates, Tracks;
      ghost var db := client.View();
      replies := [];
      TracksNothing(inst, db, conf, replies);
      for i := 0 to |SETS|
        invariant |replies| == i
        invariant forall j :: 0 <= j < i ==> Enumerates(replies[j], Dropped(inst, db, conf, SETS[j]))
        invariant client.View() == Run(inst, Sys(db, false), Tracks(conf, replies, i)).db
        invariant client.sent == old(client.sent)
      {
        ghost var a := Run(inst, Sys(db, false), Tracks(conf, replies, i));
        ghost var reply := RemoveOldKeys(Names(conf, SETS[i]), SETS[i]);
        DroppedStable(inst, db, conf, replies, i);
        TrackExtend(inst, db, conf, replies, i, reply);
        DroppedIs(inst, a.db, conf, SETS[i]);
        replies := replies + [reply];
      }
    }

    /** SET in sorted order until one is refused; `n` keys have been written. */
    method WriteAll(kv: map<string, string>, ghost y: Sys) returns (ok: bool, ghost n: nat)
      requires y.db == client.View()
      modifies client
      ensures n <= |SortedSeq(kv.Keys)| && ok == (n == |SortedSeq(kv.Keys)|)
      ensures client.View() == Run(inst, y, Puts(kv, SortedSeq(kv.Keys)[..n])).db
      ensures client.sent == old(client.sent) + SentBy(inst, Puts(kv, SortedSeq(kv.Keys)[..n]))
                             + RefusedAt(inst, Puts(kv, SortedSeq(kv.Keys)), n)
      ensures ok <==> Answered(client.sent[|old(client.sent)|..])
    {
      hide Run, Do, SortedSeq, Answered;
      var keys := SortedKeys(kv);
      RunNothing(inst, y);
      assert Puts(kv, keys[..0]) == [];
      for i := 0 to |keys|
        invariant client.View() == Run(inst, y, Puts(kv, keys[..i])).db
        invariant client.sent == old(client.sent) + SentBy(inst, Puts(kv, keys[..i]))
      {
        PutsSnoc(inst, y, kv, keys, i);
        SentPutsSnoc(inst, kv, keys, i);
        PutDo(inst, Run(inst, y, Puts(kv, keys[..i])), keys[i], kv[keys[i]]);
        ok := client.Set(keys[i], kv[keys[i]], inst.ttl);
        if !ok {
          WritesSent(inst, kv, keys, i, old(client.sent), client.sent);
          return false, i;
        }
      }
      WritesSent(inst, kv, keys, |keys|, old(client.sent), client.sent);
      return true, |keys|;
    }

    method RemoveAllStale(kv: map<string, string>, conf: Configuration, ghost y: Sys)
      returns (ghost services: seq<seq<string>>)
      requires y.db == client.View()
      modifies client
      ensures |services| == |PROTO_ORDER|
      ensures forall i :: 0 <= i < |PROTO_ORDER| ==>
        Enumerates(services[i], Names(conf, SetName(PROTO_ORDER[i], "services")))
      ensures client.View() == Run(inst, y, AllStales(services, kv.Keys, |PROTO_ORDER|)).db
      ensures client.sent == old(client.sent)
    {
      hide Run, Do, Names, Enumerates;
      services := [];
      RunNothing(inst, y);
      for i := 0 to |PROTO_ORDER|
        invariant |services| == i
        invariant forall j :: 0 <= j < i ==> Enumerates(services[j], Names(conf, SetName(PROTO_ORDER[j], "services")))
        invariant client.View() == Run(inst, y, AllStales(services, kv.Keys, i)).db
        invariant client.sent == old(client.sent)
      {
        ghost var order := RemoveStaleServerKeys(kv, Names(conf, SetName(PROTO_ORDER[i], "services")), PROTO_ORDER[i]);
        StalesExtend(inst, y, services, kv.Keys, i, order);
        services := services + [order];
      }
    }

    method SwapAllKeys(ghost y: Sys)
      requires y.db == client.View()
      modifies client
      ensures client.View() == Run(inst, y, Swaps(|SETS|)).db && client.sent == old(client.sent)
    {
      hide Run, SwapDb;
      RunNothing(inst, y);
      assert Swaps(0) == [];
      for i := 0 to |SETS|
        invariant client.View() == Run(inst, y, Swaps(i)).db && client.sent == old(client.sent)
      {
        SwapNext(inst, y, i);
        SwapKeys(SETS[i]);
      }
    }

    /** The body of Store, run with the mutex held. A refused SET leaves a prefix of the plan executed: the SETs sent
        are those of the executed commands and, if the plan is not finished, the one that comes next in it. */
    method StoreLocked(conf: Configuration) returns (ok: bool, ghost ch: Choice, ghost done: nat)
      requires WfConf(conf)
      modifies `lastConfig, client
      ensures StoreStep(inst, old(client.View()), conf, ch, done, client.View(), ok)
      ensures lastConfig == if ok then Some(conf) else old(lastConfig)
      ensures Shaped(ch) && client.sent == old(client.sent) + SentBy(inst, StorePlan(conf, ch)[..done])
                                           + RefusedAt(inst, StorePlan(conf, ch), done)
      ensures ok <==> KvOf(conf).Some? && Answered(client.sent[|old(client.sent)|..])
    {
      hide KvOf, Names, Dropped, Do, Run, Removes, WfConf, Enumerates, SortedSeq, AllStales, Tracks, Puts, Swaps,
        FullPlan, CutPlan, Written, Among, SentBy, RefusedAt, Answered;
      ghost var y0 := Sys(client.View(), false);
      ghost var replies := RemoveAllOldKeys(conf);
      ghost var any := AnyServices(conf);
      ch := Choice(replies, any, "");
      ghost var y1 := Run(inst, y0, TrackPlan(conf, ch));
      var kv;
      kv, ok := ConfigToKV(conf);
      if !ok {
        done := |StorePlan(conf, ch)|;
        assert StorePlan(conf, ch)[..done] == TrackPlan(conf, ch);
        TrackSent(inst, conf, ch);
        Unrefused(inst, StorePlan(conf, ch), done);
        return;
      }
      ghost var n;
      ok, n := WriteAll(kv, y1);
      if !ok {
        done := |CutPlan(conf, kv, ch, n)|;
        CutWrites(inst, y0, conf, kv, ch, n);
        CutIsPrefix(conf, kv, ch, n);
        CutSent(inst, conf, kv, ch, n);
        NewlySent(inst, StorePlan(conf, ch), done, old(client.sent), client.sent);
        return;
      }
      assert SortedSeq(kv.Keys)[..n] == SortedSeq(kv.Keys);
      ghost var y2 := Run(inst, y1, WritePlan(kv));
      ghost var services := RemoveAllStale(kv, conf, y2);
      ch := ch.(services := services);
      ghost var y3 := Run(inst, y2, CleanPlan(kv, ch));
      SwapAllKeys(y3);
      ghost var y4 := Run(inst, y3, Swaps(|SETS|));
      var stamp: string := *;
      ch := ch.(stamp := stamp);
      ok := client.Set(Sentinel(inst), stamp, inst.ttl);
      var _, _, _, _ := StoreStages(inst, y0, conf, kv, ch);
      StampDo(inst, y4, stamp);
      FullSent(inst, conf, kv, ch);
      AllWritten(inst, kv, n);
      if !ok {
        done := |StorePlan(conf, ch)| - 1;
        StampRefused(inst, StorePlan(conf, ch), stamp);
        NewlySent(inst, StorePlan(conf, ch), done, old(client.sent), client.sent);
        return;
      }
      done := |StorePlan(conf, ch)|;
      assert StorePlan(conf, ch)[..done] == StorePlan(conf, ch);
      Unrefused(inst, StorePlan(conf, ch), done);
      NewlySent(inst, StorePlan(conf, ch), done, old(client.sent), client.sent);
      lastConfig := Some(conf);
    }

    /** A successful Store is the closed-form update, whenever of each set's dropped names all or none have keys. It
        succeeds exactly when the configuration renders and Redis has refused nothing. */
    method Store(conf: Configuration) returns (ok: bool, ghost ch: Choice, ghost done: nat)
      requires WfConf(conf)
      modifies `lastConfig, `called, client
      ensures called == old(called) + [StoreCalled(conf, ok)] && old(client.sent) <= client.sent
      ensures ok <==> KvOf(conf).Some? && Answered(client.sent[|old(client.sent)|..])
      ensures StoreStep(inst, old(client.View()), conf, ch, done, client.View(), ok)
      ensures Shaped(ch) && client.sent == old(client.sent) + SentBy(inst, StorePlan(conf, ch)[..done])
                                           + RefusedAt(inst, StorePlan(conf, ch), done)
      ensures lastConfig == if ok then Some(conf) else old(lastConfig)
      ensures ok && ValidDb(old(client.View())) && DropsEven(inst, old(client.View()), conf) ==>
        && client.View().strings == FinalStrings(inst, old(client.View()), conf, KvOf(conf).value, ch.stamp)
        && FinalSets(inst, old(client.View()), conf, client.View())
    {
      hide FinalStrings, FinalSets, FullPlan, DropsEven, Possible, KvOf, Run, SentBy, RefusedAt;
      ok, ch, done := StoreLocked(conf);
      called := called + [StoreCalled(conf, ok)];
      if ok && ValidDb(old(client.View())) && DropsEven(inst, old(client.View()), conf) {
        PossibleShaped(inst, old(client.View()), conf, ch);
        assert StorePlan(conf, ch)[..done] == StorePlan(conf, ch);
        StoreClosedForm(inst, old(client.View()), conf, KvOf(conf).value, ch);
      }
    }

    /** The answer is "no error" exactly when there is nothing to keep, or Redis has refused nothing and the last
        configuration renders wherever it is needed. */
    method KeepConfAlive() returns (ok: bool, ghost k: Keep)
      requires lastConfig.Some? ==> WfConf(lastConfig.value)
      modifies `lastConfig, `called, client
      ensures KeepStep(inst, old(client.View()), old(lastConfig), k, client.View(), ok)
      ensures lastConfig == old(lastConfig) && called == old(called) + [KeepCalled(ok)]
      ensures old(client.sent) <= client.sent
      ensures old(lastConfig).None? ==> ok && client.sent == old(client.sent)
      ensures old(lastConfig).Some? ==>
        && old(client.sent) < client.sent && client.sent[|old(client.sent)|].call == ExistsCall(Sentinel(inst))
        && (ok <==> Answered(client.sent[|old(client.sent)|..])
                    && (KvOf(old(lastConfig).value).Some?
                        || (Sentinel(inst) in old(client.strings) && inst.ttl == 0)))
    {
      hide StoreStep, KeepStep, KvOf, SentBy, RefusedAt, Answered;
      if lastConfig.None? {
        ok, k := true, Idle;
        NothingToKeep(inst, client.View());
      } else {
        ok, k := KeepLocked(lastConfig.value);
      }
      called := called + [KeepCalled(ok)];
    }

    /** KeepConfAlive, once something has been published. */
    method KeepLocked(c: Configuration) returns (ok: bool, ghost k: Keep)
      requires WfConf(c) && lastConfig == Some(c)
      modifies `lastConfig, client
      ensures KeepStep(inst, old(client.View()), Some(c), k, client.View(), ok) && lastConfig == old(lastConfig)
      ensures old(client.sent) < client.sent
      ensures client.sent[|old(client.sent)|].call == ExistsCall(Sentinel(inst))
      ensures ok <==> Answered(client.sent[|old(client.sent)|..])
                      && (KvOf(c).Some? || (Sentinel(inst) in old(client.strings) && inst.ttl == 0))
    {
      hide StoreStep, StorePlan, KvOf, SentBy, RefusedAt, Answered, Shaped;
      ghost var before := client.sent;
      var answered, exists_ := client.Exists(Sentinel(inst));
      AnsweredOne(before, ExistsCall(Sentinel(inst)), answered);
      if !answered {
        return false, NoAnswer;
      }
      ghost var ch, done;
      if !exists_ {
        ghost var mid := client.sent;
        ok, ch, done := StoreLocked(c);
        AnsweredLater(before, mid, client.sent);
        return ok, Restore(false, ch, done);
      }
      if inst.ttl == 0 {
        return true, Idle;
      }
      var kv, rendered := ConfigToKV(c);
      if !rendered {
        return false, NoAnswer;
      }
      ghost var applied;
      ghost var asked := client.sent;
      var executed, allFound;
      executed, allFound, applied := client.PExpireAll(kv.Keys + {Sentinel(inst)}, inst.ttl);
      AnsweredOne(asked, ExpireCall(kv.Keys + {Sentinel(inst)}, inst.ttl), executed);
      AnsweredLater(before, asked, client.sent);
      if !executed {
        return false, Renew(applied, false);
      }
      if !allFound {
        ghost var mid := client.sent;
        ok, ch, done := StoreLocked(c);
        AnsweredLater(before, mid, client.sent);
        return ok, Restore(true, ch, done);
      }
      return true, Renew(applied, true);
    }

    /** A missing key reads as the empty string. */
    method Get(key: string) returns (ok: bool, v: string)
      modifies client`sent
      ensures client.sent == old(client.sent) + [Sent(GetCall(key), ok)]
      ensures ok ==> v == if key in client.strings then client.strings[key].value else ""
      ensures !ok ==> v == ""
    {
      var answered, found := client.Get(key);
      if !answered {
        return false, "";
      }
      if found.None? {
        return true, "";
      }
      return true, found.value;
    }

    /** All keys matching prefix*suffix with their values, or the first error. */
    method Gets(prefix: string, suffix: string) returns (ok: bool, vals: map<string, string>)
      modifies client`sent
      ensures old(client.sent) < client.sent && client.sent[|old(client.sent)|].call == KeysCall(prefix, suffix)
      ensures ok ==> Answered(client.sent[|old(client.sent)|..])
      ensures !ok ==> ReadRefused(client.sent[|old(client.sent)|..], prefix, suffix)
      ensures ok ==> vals == GetsOf(client.View(), prefix, suffix)
      ensures !ok ==> vals == map[]
    {
      ghost var before := client.sent;
      var answered, keys := client.KeysGlob(prefix, suffix);
      AnsweredOne(before, KeysCall(prefix, suffix), answered);
      if !answered {
        assert client.sent[|before|..] == [Sent(KeysCall(prefix, suffix), false)];
        return false, map[];
      }
      vals := map[];
      var todo := keys;
      while todo != {}
        invariant todo <= keys
        invariant vals == map k | k in keys - todo && k in client.strings :: client.strings[k].value
        invariant before < client.sent && client.sent[|before|].call == KeysCall(prefix, suffix)
        invariant Answered(client.sent[|before|..])
        decreases todo
      {
        var k :| k in todo;
        var v;
        ghost var asked := client.sent;
        ok, v := Get(k);
        AnsweredOne(asked, GetCall(k), ok);
        AnsweredLater(before, asked, client.sent);
        if !ok {
          GetRefused(before, asked, k, prefix, suffix);
          return false, map[];
        }
        vals := vals[k := v];
        todo := todo - {k};
      }
      assert keys - todo == keys;
      return true, vals;
    }
  }

  ghost function GetsOf(db: Db, prefix: string, suffix: string): map<string, string>
  {
    map k | k in db.Globbed(prefix, suffix) :: db.strings[k].value
  }

  // ---------- what has been sent ----------

  lemma AnsweredOne(before: seq<Sent>, call: Call, ok: bool)
    ensures (before + [Sent(call, ok)])[|before|..] == [Sent(call, ok)]
    ensures Answered((before + [Sent(call, ok)])[|before|..]) <==> ok
  {
    assert [Sent(call, ok)][0].ok == ok;
  }

  lemma AnsweredLater(before: seq<Sent>, mid: seq<Sent>, after: seq<Sent>)
    requires before <= mid <= after
    ensures Answered(after[|before|..]) <==> Answered(mid[|before|..]) && Answered(after[|mid|..])
  {
    assert after[|before|..] == mid[|before|..] + after[|mid|..];
    AnsweredConcat(mid[|before|..], after[|mid|..]);
  }

  lemma GetRefused(before: seq<Sent>, asked: seq<Sent>, k: string, prefix: string, suffix: string)
    requires before <= asked && Glob(prefix, suffix, k)
    ensures ReadRefused((asked + [Sent(GetCall(k), false)])[|before|..], prefix, suffix)
  {
    var calls := (asked + [Sent(GetCall(k), false)])[|before|..];
    assert calls[|asked| - |before|] == Sent(GetCall(k), false);
  }

  lemma Unrefused(inst: Inst, plan: seq<Micro>, done: nat)
    requires done >= |plan|
    ensures RefusedAt(inst, plan, done) == []
  {
  }

  lemma WritesSent(inst: Inst, kv: map<string, string>, keys: seq<string>, n: nat, before: seq<Sent>, after: seq<Sent>)
    requires keys == SortedSeq(kv.Keys) && n <= |keys|
    requires after == before + SentBy(inst, Puts(kv, keys[..n])) + RefusedAt(inst, Puts(kv, keys), n)
    ensures Answered(after[|before|..]) <==> n == |keys|
  {
    hide SortedSeq, SentBy, Answered;
    assert Puts(kv, keys)[..n] == Puts(kv, keys[..n]);
    NewlySent(inst, Puts(kv, keys), n, before, after);
  }

  lemma AllWritten(inst: Inst, kv: map<string, string>, n: nat)
    requires n == |SortedSeq(kv.Keys)|
    ensures RefusedAt(inst, Puts(kv, SortedSeq(kv.Keys)), n) == []
  {
    hide SortedSeq;
  }

  lemma NothingToKeep(inst: Inst, db: Db)
    ensures KeepStep(inst, db, None, Idle, db, true)
  {
  }

  lemma StampRefused(inst: Inst, plan: seq<Micro>, text: string)
    requires |plan| > 0 && plan[|plan| - 1] == Stamp(text)
    ensures RefusedAt(inst, plan, |plan| - 1) == Sends(inst, Stamp(text), false)
  {
  }

  lemma NewlySent(inst: Inst, plan: seq<Micro>, done: nat, before: seq<Sent>, after: seq<Sent>)
    requires done <= |plan| && (done < |plan| ==> plan[done].Put? || plan[done].Stamp?)
    requires after == before + SentBy(inst, plan[..done]) + RefusedAt(inst, plan, done)
    ensures Answered(after[|before|..]) <==> done == |plan|
  {
    FinishedIff(inst, plan, done);
    assert after[|before|..] == SentBy(inst, plan[..done]) + RefusedAt(inst, plan, done);
  }

  // ---------- bookkeeping between the loops and the plan ----------

  lemma RunNothing(inst: Inst, y: Sys)
    ensures Run(inst, y, []) == y
  {
  }

  lemma TracksNothing(inst: Inst, db: Db, c: Configuration, replies: seq<seq<string>>)
    ensures Run(inst, Sys(db, false), Tracks(c, replies, 0)).db == db
  {
  }

  lemma RemovesNothing(sn: SetName, names: seq<string>)
    requires names == []
    ensures Removes(sn, names) == []
  {
  }

  lemma RemoveIs(inst: Inst, y: Sys, sn: SetName, name: string)
    requires !y.halted
    ensures var hit := y.db.Matching(K(SetLabel(sn), name) + "/");
      Do(inst, y, Remove(sn, name)) == Sys(y.db.Unlink(hit), hit == {})
  {
    var hit := y.db.Matching(K(SetLabel(sn), name) + "/");
    assert hit == {} ==> y.db.strings - hit == y.db.strings;
  }

  lemma RemovesStopped(inst: Inst, y: Sys, sn: SetName, names: seq<string>, i: nat)
    requires i <= |names| && Run(inst, y, Removes(sn, names[..i])).halted
    ensures Run(inst, y, Removes(sn, names)) == Run(inst, y, Removes(sn, names[..i]))
  {
    hide Run;
    assert names == names[..i] + names[i..];
    assert Removes(sn, names) == Removes(sn, names[..i]) + Removes(sn, names[i..]);
    RunConcat(inst, y, Removes(sn, names[..i]), Removes(sn, names[i..]));
    RemovesHalted(inst, Run(inst, y, Removes(sn, names[..i])), sn, names[i..]);
  }

  lemma StalesNothing(proto: string, kept: set<string>)
    ensures Stales(proto, [], kept) == []
  {
  }

  lemma StaleNext(inst: Inst, y: Sys, proto: string, order: seq<string>, name: string, kept: set<string>)
    ensures var a := Run(inst, y, Stales(proto, order, kept));
      Run(inst, y, Stales(proto, order + [name], kept))
      == a.(db := a.db.Unlink(a.db.Matching(ServersPrefix(proto, name)) - kept))
  {
    hide Run;
    StalesSnoc(inst, y, proto, order + [name], kept, |order|);
    assert (order + [name])[..|order|] == order && (order + [name])[..|order| + 1] == order + [name];
  }

  lemma EnumeratesNothing(r: seq<string>)
    requires r == []
    ensures forall s: set<string> :: Enumerates(r, s - s)
  {
  }

  lemma EnumeratesNext(r: seq<string>, all: set<string>, todo: set<string>, x: string)
    requires x in all && x !in todo && Enumerates(r, all - (todo + {x}))
    ensures Enumerates(r + [x], all - todo)
  {
  }

  lemma DroppedIs(inst: Inst, db: Db, c: Configuration, sn: SetName)
    ensures Dropped(inst, db, c, sn) == db.Members(SetKey(inst, sn)) -
              (if Names(c, sn) == {} then {} else db.Members(NewKey(inst, sn)) + Names(c, sn))
  {
  }

  lemma AddIs(inst: Inst, y: Sys, sn: SetName, names: set<string>)
    ensures Do(inst, y, Add(sn, names)) == Sys(y.db.SAdd(NewKey(inst, sn), names), false)
  {
  }

  lemma TrackExtend(inst: Inst, db: Db, c: Configuration, replies: seq<seq<string>>, i: nat, reply: seq<string>)
    requires i < |SETS| && |replies| == i
    ensures var a := Run(inst, Sys(db, false), Tracks(c, replies, i));
      Run(inst, Sys(db, false), Tracks(c, replies + [reply], i + 1)).db
      == Run(inst, Sys(a.db.SAdd(NewKey(inst, SETS[i]), Names(c, SETS[i])), false), Removes(SETS[i], reply)).db
  {
    var y, names := Sys(db, false), Names(c, SETS[i]);
    hide Run, Removes, Tracks, Names, NewKey;
    AddIs(inst, Run(inst, y, Tracks(c, replies, i)), SETS[i], names);
    TracksExtend(c, replies, replies + [reply], i);
    TrackStep(inst, Sys(db, false), c, replies + [reply], i + 1);
  }

  lemma PutDo(inst: Inst, y: Sys, k: string, v: string)
    ensures Do(inst, y, Put(k, v)).db == y.db.Set(k, v, inst.ttl)
  {
  }

  lemma StampDo(inst: Inst, y: Sys, text: string)
    ensures Do(inst, y, Stamp(text)).db == y.db.Set(Sentinel(inst), text, inst.ttl)
  {
  }

  lemma StalesExtend(inst: Inst, y: Sys, services: seq<seq<string>>, kept: set<string>, i: nat, order: seq<string>)
    requires i < |PROTO_ORDER| && |services| == i
    ensures Run(inst, y, AllStales(services + [order], kept, i + 1)).db
            == Run(inst, Sys(Run(inst, y, AllStales(services, kept, i)).db, false),
                   Stales(PROTO_ORDER[i], order, kept)).db
  {
    hide Run;
    var a := Run(inst, y, AllStales(services, kept, i));
    AllStalesExtend(services, services + [order], kept, i);
    RunConcat(inst, y, AllStales(services, kept, i), Stales(PROTO_ORDER[i], order, kept));
    StalesRun(inst, a, PROTO_ORDER[i], order, kept);
    StalesRun(inst, Sys(a.db, false), PROTO_ORDER[i], order, kept);
  }

  lemma SwapNext(inst: Inst, y: Sys, i: nat)
    requires i < |SETS|
    ensures Run(inst, y, Swaps(i + 1)).db == SwapDb(inst, Run(inst, y, Swaps(i)).db, SETS[i])
  {
    assert Swaps(i + 1) == Swaps(i) + [Swap(SETS[i])];
    RunSnoc(inst, y, Swaps(i), Swap(SETS[i]));
  }
}
