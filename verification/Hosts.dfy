/** Several hosts in one database: operations of the others leave a host's keys, deadlines and tracking sets alone. */
module Hosts {
  import opened Paths
  import opened Values
  import opened Flatten
  import opened Config
  import opened Published
  import opened Redis
  import opened Plan
  import opened ClosedForm
  import opened Ownership
  import opened KeepAlive

  // ---------- which hostnames get along ----------

  /** The keys of the name sets of a host: tracking sets and temporary sets. */
  ghost predicate OwnSet(host: string, t: string)
  {
    exists i :: 0 <= i < |SETS| && (t == Sk(host, SetLabel(SETS[i])) || t == Sk(host, SetLabel(SETS[i])) + "_new")
  }

  predicate HostsApart(a: string, b: string)
  {
    a != b && a != b + "_new" && b != a + "_new"
  }

  lemma SetOfOneHost(a: string, b: string, t: string)
    requires OwnSet(a, t) && OwnSet(b, t)
    ensures !HostsApart(a, b)
  {
    var i :| 0 <= i < |SETS| && (t == Sk(a, SetLabel(SETS[i])) || t == Sk(a, SetLabel(SETS[i])) + "_new");
    var j :| 0 <= j < |SETS| && (t == Sk(b, SetLabel(SETS[j])) || t == Sk(b, SetLabel(SETS[j])) + "_new");
    LabelPlain(SETS[i]);
    LabelPlain(SETS[j]);
    hide Sk, SetLabel;
    var x := if t == Sk(a, SetLabel(SETS[i])) then "" else "_new";
    var y := if t == Sk(b, SetLabel(SETS[j])) then "" else "_new";
    assert t == Sk(a, SetLabel(SETS[i])) + x && t == Sk(b, SetLabel(SETS[j])) + y;
    SkInjective(a, SetLabel(SETS[i]), x, b, SetLabel(SETS[j]), y);
    if x == y {
      assert a == (a + x)[..|a|] && b == (b + y)[..|b|];
    } else if x == "" {
      assert a + x == a;
    } else {
      assert b + y == b;
    }
  }

  /** Different hostnames are not enough: two hosts share no set exactly when neither is the other followed by
      "_new". */
  lemma SetsDisjointIff(a: string, b: string)
    ensures (forall t :: !(OwnSet(a, t) && OwnSet(b, t))) <==> HostsApart(a, b)
  {
    forall t | OwnSet(a, t) && OwnSet(b, t) ensures !HostsApart(a, b) {
      SetOfOneHost(a, b, t);
    }
    if !HostsApart(a, b) {
      var l := SetLabel(SETS[0]);
      var t := if a == b + "_new" then Sk(a, l) else Sk(b, l);
      if a == b + "_new" {
        assert Sk(b, l) + "_new" == Sk(a, l);
      } else if b == a + "_new" {
        assert Sk(a, l) + "_new" == Sk(b, l);
      }
      assert OwnSet(a, t) && OwnSet(b, t);
    }
  }

  /** Two hosts "x" and "x_new" are such a pair: the temporary set of the one is the tracking set of the other. */
  lemma CollidingHosts(a: string, sn: SetName)
    ensures NewKey(Inst(a, 0), sn) == SetKey(Inst(a + "_new", 0), sn) && a != a + "_new"
  {
    assert Sk(a, SetLabel(sn)) + "_new" == Sk(a + "_new", SetLabel(sn));
    assert |a| != |a + "_new"|;
  }

  // ---------- what belongs to a host ----------

  /** The name is not one of the configuration's, up to "@docker". */
  ghost predicate NameApart(a: Configuration, sn: SetName, n: string)
  {
    Plain(n) && forall m :: m in Names(a, sn) ==> StripDocker(m) != StripDocker(n)
  }

  ghost predicate NamesApart(a: Configuration, c: Configuration)
  {
    forall i, n :: 0 <= i < |SETS| && n in Names(c, SETS[i]) ==> NameApart(a, SETS[i], n)
  }

  /** Outside the tracked areas nothing is published by both. */
  ghost predicate RestApart(a: Configuration, c: Configuration)
    requires WfConf(a) && KvOf(a).Some? && WfConf(c)
  {
    KvOf(c).Some? ==>
      forall k :: k in KvOf(a).value && k in KvOf(c).value ==> exists i :: 0 <= i < |SETS| && InArea(SETS[i], k)
  }

  lemma KvDisjoint(a: Configuration, c: Configuration, k: string)
    requires WfConf(a) && KvOf(a).Some? && WfConf(c) && KvOf(c).Some?
    requires NamesApart(a, c) && RestApart(a, c) && k in KvOf(c).value
    ensures k !in KvOf(a).value
  {
    hide KvOf, WfConf, Names, InArea, Under;
    if k in KvOf(a).value {
      var i :| 0 <= i < |SETS| && InArea(SETS[i], k);
      var n := TrackedKeyHasName(a, SETS[i], k);
      var m := TrackedKeyHasName(c, SETS[i], k);
      UnderUnique(SETS[i], n, SETS[i], m, k);
    }
  }

  /** The host's keys, with their deadlines, and its name sets are the same in both. */
  ghost predicate Untouched(inst: Inst, a: Configuration, db: Db, db': Db)
    requires WfConf(a) && KvOf(a).Some?
  {
    && db'.now == db.now
    && (forall k :: k in Wanted(inst, a) ==>
          (k in db.strings <==> k in db'.strings) && (k in db.strings ==> db'.strings[k] == db.strings[k]))
    && (forall t :: OwnSet(inst.host, t) ==>
          (t in db.sets <==> t in db'.sets) && (t in db.sets ==> db'.sets[t] == db.sets[t]))
  }

  /** The command, sent by another host, concerns none of the host's names. */
  ghost predicate Foreign(inst: Inst, a: Configuration, m: Micro)
    requires WfConf(a) && KvOf(a).Some?
  {
    match m
    case Add(sn, names) => sn in SETS && forall n :: n in names ==> NameApart(a, sn, n)
    case Remove(sn, name) => sn in SETS && NameApart(a, sn, name)
    case Put(key, _) => key !in Wanted(inst, a)
    case Stale(proto, name, _) => proto in PROTOCOLS && NameApart(a, SetName(proto, "services"), name)
    case Swap(sn) => sn in SETS
    case Stamp(_) => true
  }

  lemma KvKeyForm(a: Configuration, k: string)
    requires WfConf(a) && KvOf(a).Some? && k in KvOf(a).value
    ensures "traefik/" <= k
  {
    KvAt(a, k);
    RootNotTip(a);
    hide Flat, ConfShape, KvOf, Split;
    assert ROOT[1..] == [] && Join(ROOT) + "/" == "traefik/";
    BelowImpliesGlob(ROOT, k);
  }

  lemma RootNotTip(a: Configuration)
    requires WfConf(a)
    ensures !InFlat(ConfShape(a), [])
  {
    var kids := FieldsKids(ROOT, ConfFields(a));
    hide FieldsKids, ConfFields;
    FlatNode(kids, []);
  }

  lemma StampForeign(inst: Inst, a: Configuration, other: Inst)
    requires WfConf(a) && KvOf(a).Some? && inst.host != other.host
    ensures Sentinel(other) !in Wanted(inst, a)
  {
    hide KvOf, WfConf;
    assert Sentinel(other)[7] == "traefik_"[7] == '_' && "traefik/"[7] == '/';
    if Sentinel(other) in KvOf(a).value {
      KvKeyForm(a, Sentinel(other));
    }
    assert other.host + "" == other.host && inst.host + "" == inst.host;
    if Sentinel(other) == Sentinel(inst) {
      SkInjective(other.host, "kop_last_update", "", inst.host, "kop_last_update", "");
    }
  }

  lemma RemoveForeign(inst: Inst, a: Configuration, sn: SetName, name: string, k: string)
    requires WfConf(a) && KvOf(a).Some? && sn in SETS && NameApart(a, sn, name) && k in Wanted(inst, a)
    ensures !Under(sn, name, k)
  {
    hide KvOf, WfConf, Names, Sentinel;
    if Under(sn, name, k) {
      SentinelOutside(inst, sn);
      var n := TrackedKeyHasName(a, sn, k);
      UnderUnique(sn, n, sn, name, k);
    }
  }

  lemma ServersUnder(proto: string, name: string, k: string)
    requires proto in PROTOCOLS && Plain(name) && ServersPrefix(proto, name) <= k
    ensures Under(SetName(proto, "services"), name, k)
  {
    hide K, Join, Under, ServersPrefix;
    ServersBelowName(proto, name);
    PrefixOfPrefix(K(SetLabel(SetName(proto, "services")), name) + "/", "loadBalancer/servers/", k);
    GlobIsUnder(SetName(proto, "services"), name, k);
  }

  lemma PrefixOfPrefix(p: string, q: string, k: string)
    requires p + q <= k
    ensures p <= k
  {
    assert (p + q)[..|p|] == p;
  }

  lemma ServersBelowName(proto: string, name: string)
    requires proto in PROTOCOLS
    ensures ServersPrefix(proto, name) == K(SetLabel(SetName(proto, "services")), name) + "/" + "loadBalancer/servers/"
  {
    KIsNamePath(SetName(proto, "services"), name);
    AreaJoin(proto, "services", StripDocker(name));
    hide K, Join, SetLabel;
    var s := "traefik/" + proto + "/services/" + StripDocker(name);
    assert "traefik/" + proto + "/" + "services" + "/" + StripDocker(name) == s;
    assert s + "/loadBalancer/servers/" == s + "/" + "loadBalancer/servers/";
  }

  /** One foreign command. */
  lemma StepUntouched(inst: Inst, a: Configuration, other: Inst, y: Sys, m: Micro)
    requires WfConf(a) && KvOf(a).Some? && Foreign(inst, a, m) && HostsApart(inst.host, other.host)
    ensures Untouched(inst, a, y.db, Do(other, y, m).db)
  {
    hide KvOf, WfConf, Wanted;
    forall k | k in Wanted(inst, a)
      ensures k in y.db.strings <==> k in Do(other, y, m).db.strings
      ensures k in y.db.strings ==> Do(other, y, m).db.strings[k] == y.db.strings[k]
    {
      StringUntouched(inst, a, other, y, m, k);
    }
    forall t | OwnSet(inst.host, t)
      ensures t in y.db.sets <==> t in Do(other, y, m).db.sets
      ensures t in y.db.sets ==> Do(other, y, m).db.sets[t] == y.db.sets[t]
    {
      SetUntouched(inst.host, other, y, m, t);
    }
    StepNow(other, y, m);
    hide Do, OwnSet;
  }

  lemma StepNow(inst: Inst, y: Sys, m: Micro)
    ensures Do(inst, y, m).db.now == y.db.now
  {
    hide SetKey, NewKey, K, ServersPrefix, Sentinel;
  }

  lemma StringUntouched(inst: Inst, a: Configuration, other: Inst, y: Sys, m: Micro, k: string)
    requires WfConf(a) && KvOf(a).Some? && Foreign(inst, a, m) && HostsApart(inst.host, other.host)
    requires k in Wanted(inst, a)
    ensures k in y.db.strings <==> k in Do(other, y, m).db.strings
    ensures k in y.db.strings ==> Do(other, y, m).db.strings[k] == y.db.strings[k]
  {
    hide KvOf, WfConf, Wanted, SetKey, NewKey, Sentinel, Under, NameApart;
    match m
    case Add(_, _) =>
    case Remove(sn, name) =>
      RemoveForeign(inst, a, sn, name, k);
      ApartPlain(a, sn, name);
      GlobIsUnder(sn, name, k);
    case Put(_, _) =>
    case Stale(proto, name, _) =>
      ApartPlain(a, SetName(proto, "services"), name);
      ServicesTracked(proto);
      RemoveForeign(inst, a, SetName(proto, "services"), name, k);
      if ServersPrefix(proto, name) <= k { ServersUnder(proto, name, k); }
    case Swap(_) =>
    case Stamp(_) => StampForeign(inst, a, other);
  }

  lemma ApartPlain(a: Configuration, sn: SetName, n: string)
    requires NameApart(a, sn, n)
    ensures Plain(n)
  {
  }

  lemma ServicesTracked(proto: string)
    requires proto in PROTOCOLS
    ensures SetName(proto, "services") in SETS
  {
    assert SETS[2] == SetName("http", "services") && SETS[5] == SetName("tcp", "services")
           && SETS[7] == SetName("udp", "services");
  }

  lemma OwnSetOf(inst: Inst, sn: SetName)
    requires sn in SETS
    ensures OwnSet(inst.host, SetKey(inst, sn)) && OwnSet(inst.host, NewKey(inst, sn)) && Tracked(sn)
  {
    var i :| 0 <= i < |SETS| && SETS[i] == sn;
  }

  /** The command changes no set but those of the host that sends it. */
  predicate OnOwnSets(m: Micro)
  {
    m.Add? || m.Swap? ==> m.sn in SETS
  }

  lemma SetUntouched(host: string, other: Inst, y: Sys, m: Micro, t: string)
    requires OnOwnSets(m) && HostsApart(host, other.host) && OwnSet(host, t)
    ensures t in y.db.sets <==> t in Do(other, y, m).db.sets
    ensures t in y.db.sets ==> Do(other, y, m).db.sets[t] == y.db.sets[t]
  {
    hide SetKey, NewKey, Sentinel, OwnSet, HostsApart, K, ServersPrefix;
    if m.Add? || m.Swap? {
      OwnSetOf(other, m.sn);
      if t == SetKey(other, m.sn) || t == NewKey(other, m.sn) {
        SetOfOneHost(host, other.host, t);
      }
    }
  }

  // ---------- the others' names stay apart ----------

  /** Whatever another host tracks is apart from the host's names. */
  ghost predicate OthersApart(inst: Inst, a: Configuration, db: Db)
  {
    forall h, i, n :: HostsApart(inst.host, h) && 0 <= i < |SETS| && n in TrackedNames(Inst(h, 0), db, SETS[i])
      ==> NameApart(a, SETS[i], n)
  }

  lemma SameLabel(h1: string, x1: string, h2: string, x2: string, a: SetName, b: SetName)
    requires Tracked(a) && Tracked(b) && Sk(h1, SetLabel(a)) + x1 == Sk(h2, SetLabel(b)) + x2
    ensures a == b
  {
    LabelPlain(a);
    LabelPlain(b);
    hide Sk, SetLabel;
    SkInjective(h1, SetLabel(a), x1, h2, SetLabel(b), x2);
    LabelInjective(a, b);
  }

  lemma StepApart(inst: Inst, a: Configuration, other: Inst, y: Sys, m: Micro)
    requires WfConf(a) && KvOf(a).Some? && Foreign(inst, a, m) && HostsApart(inst.host, other.host)
    requires OthersApart(inst, a, y.db)
    ensures OthersApart(inst, a, Do(other, y, m).db)
  {
    hide KvOf, WfConf, HostsApart, NameApart;
    var db' := Do(other, y, m).db;
    forall h, i, n | HostsApart(inst.host, h) && 0 <= i < |SETS| && n in TrackedNames(Inst(h, 0), db', SETS[i])
      ensures NameApart(a, SETS[i], n)
    {
      NameStaysApart(inst, a, other, y, m, h, i, n);
    }
    hide Do, TrackedNames;
  }

  lemma NameStaysApart(inst: Inst, a: Configuration, other: Inst, y: Sys, m: Micro, h: string, i: nat, n: string)
    requires WfConf(a) && KvOf(a).Some? && Foreign(inst, a, m) && HostsApart(inst.host, other.host)
    requires OthersApart(inst, a, y.db)
    requires HostsApart(inst.host, h) && i < |SETS| && n in TrackedNames(Inst(h, 0), Do(other, y, m).db, SETS[i])
    ensures NameApart(a, SETS[i], n)
  {
    hide KvOf, WfConf, HostsApart, NameApart, K, ServersPrefix, Sentinel, SetKey, NewKey;
    var t := if n in Do(other, y, m).db.Members(SetKey(Inst(h, 0), SETS[i])) then SetKey(Inst(h, 0), SETS[i])
             else NewKey(Inst(h, 0), SETS[i]);
    assert n in Do(other, y, m).db.Members(t);
    if m.Add? || m.Swap? {
      if n !in y.db.Members(t) {
        MovedFrom(other, y, m, t, n);
        OwnSetOf(other, m.sn);
        LabelOf(Inst(h, 0), SETS[i], other, m.sn, t);
        TrackedBy(inst, a, other, y.db, m.sn, i, n);
      }
    }
    if n in y.db.Members(t) {
      assert n in TrackedNames(Inst(h, 0), y.db, SETS[i]);
    }
  }

  lemma LabelOf(inst: Inst, sn: SetName, other: Inst, sn': SetName, t: string)
    requires Tracked(sn) && Tracked(sn') && (t == SetKey(inst, sn) || t == NewKey(inst, sn))
    requires t == SetKey(other, sn') || t == NewKey(other, sn')
    ensures sn == sn'
  {
    var x := if t == SetKey(inst, sn) then "" else "_new";
    var y := if t == SetKey(other, sn') then "" else "_new";
    hide Sk, SetLabel;
    assert t == Sk(inst.host, SetLabel(sn)) + x && t == Sk(other.host, SetLabel(sn')) + y;
    SameLabel(inst.host, x, other.host, y, sn, sn');
  }

  lemma TrackedBy(inst: Inst, a: Configuration, other: Inst, db: Db, sn: SetName, i: nat, n: string)
    requires OthersApart(inst, a, db) && HostsApart(inst.host, other.host) && i < |SETS| && sn == SETS[i]
    ensures n in db.Members(SetKey(other, sn)) || n in db.Members(NewKey(other, sn)) ==> NameApart(a, sn, n)
  {
    assert SetKey(Inst(other.host, 0), sn) == SetKey(other, sn) && NewKey(Inst(other.host, 0), sn) == NewKey(other, sn);
    hide SetKey, NewKey, HostsApart, NameApart;
    assert n in db.Members(SetKey(other, sn)) || n in db.Members(NewKey(other, sn)) ==>
             n in TrackedNames(Inst(other.host, 0), db, sn);
  }

  /** Where a new member of a set comes from. */
  lemma MovedFrom(inst: Inst, y: Sys, m: Micro, t: string, n: string)
    requires m.Add? || (m.Swap? && m.sn in SETS)
    requires n in Do(inst, y, m).db.Members(t) && n !in y.db.Members(t)
    ensures t == SetKey(inst, m.sn) || t == NewKey(inst, m.sn)
    ensures m.Add? ==> n in m.names
    ensures m.Swap? ==> n in y.db.Members(NewKey(inst, m.sn))
  {
    hide SetKey, NewKey;
    if m.Add? {
      AddMembers(y.db, NewKey(inst, m.sn), m.names, t);
    } else {
      OwnSetOf(inst, m.sn);
      assert Do(inst, y, m).db == SwapDb(inst, y.db, m.sn);
      SwapMembers(inst, y.db, m.sn, t);
    }
  }

  // ---------- whole operations, and runs of them ----------

  lemma {:induction false} RunForeign(inst: Inst, a: Configuration, other: Inst, y: Sys, p: seq<Micro>)
    requires WfConf(a) && KvOf(a).Some? && HostsApart(inst.host, other.host) && OthersApart(inst, a, y.db)
    requires forall m :: m in p ==> Foreign(inst, a, m)
    ensures Untouched(inst, a, y.db, Run(other, y, p).db) && OthersApart(inst, a, Run(other, y, p).db)
  {
    if p != [] {
      hide Do, Foreign, OthersApart, HostsApart, KvOf, WfConf, Wanted, OwnSet;
      var n := |p| - 1;
      RunForeign(inst, a, other, y, p[..n]);
      StepUntouched(inst, a, other, Run(other, y, p[..n]), p[n]);
      StepApart(inst, a, other, Run(other, y, p[..n]), p[n]);
    }
  }

  /** What the other host publishes concerns none of the host's names. */
  ghost predicate Neighbour(inst: Inst, a: Configuration, other: Inst, c: Configuration)
    requires WfConf(a) && KvOf(a).Some?
  {
    WfConf(c) && HostsApart(inst.host, other.host) && NamesApart(a, c) && RestApart(a, c)
  }

  lemma TrackForeign(inst: Inst, a: Configuration, other: Inst, db: Db, c: Configuration, ch: Choice, m: Micro)
    requires WfConf(a) && KvOf(a).Some? && Neighbour(inst, a, other, c) && OthersApart(inst, a, db)
    requires Possible(other, db, c, ch) && Shaped(ch) && m in TrackPlan(c, ch)
    ensures Foreign(inst, a, m)
  {
    var i := TrackFrom(c, ch.replies, |SETS|, m);
    hide KvOf, WfConf, Names, Tracks, NameApart, RestApart, OthersApart, HostsApart;
    if m.Remove? {
      TrackedBy(inst, a, other, db, SETS[i], i, m.name);
    }
  }

  lemma {:induction false} TrackFrom(c: Configuration, replies: seq<seq<string>>, n: nat, m: Micro) returns (i: nat)
    requires n <= |SETS| && n <= |replies| && m in Tracks(c, replies, n)
    ensures i < n
    ensures (m.Add? && m.sn == SETS[i] && m.names == Names(c, SETS[i]))
            || (m.Remove? && m.sn == SETS[i] && m.name in replies[i])
  {
    hide Names;
    if m in Tracks(c, replies, n - 1) {
      i := TrackFrom(c, replies, n - 1, m);
    } else {
      i := n - 1;
    }
  }

  lemma {:induction false} StaleFrom(services: seq<seq<string>>, kept: set<string>, n: nat, m: Micro) returns (i: nat)
    requires n <= |services| && n <= |PROTO_ORDER| && m in AllStales(services, kept, n)
    ensures i < n && m.Stale? && m.proto == PROTO_ORDER[i] && m.name in services[i]
  {
    if m in AllStales(services, kept, n - 1) {
      i := StaleFrom(services, kept, n - 1, m);
    } else {
      i := n - 1;
    }
  }

  lemma CleanForeign(inst: Inst, a: Configuration, other: Inst, db: Db, c: Configuration, kv: map<string, string>,
                     ch: Choice, m: Micro)
    requires WfConf(a) && KvOf(a).Some? && Neighbour(inst, a, other, c)
    requires Possible(other, db, c, ch) && Shaped(ch) && m in CleanPlan(kv, ch)
    ensures Foreign(inst, a, m)
  {
    var i := StaleFrom(ch.services, kv.Keys, |PROTO_ORDER|, m);
    hide KvOf, WfConf, Names, AllStales, NameApart, RestApart, HostsApart;
    ServicesTracked(m.proto);
    var j :| 0 <= j < |SETS| && SETS[j] == SetName(m.proto, "services");
    assert m.name in Names(c, SETS[j]);
  }

  lemma PlanForeign(inst: Inst, a: Configuration, other: Inst, db: Db, c: Configuration, ch: Choice, m: Micro)
    requires WfConf(a) && KvOf(a).Some? && Neighbour(inst, a, other, c) && OthersApart(inst, a, db)
    requires Possible(other, db, c, ch) && Shaped(ch) && m in StorePlan(c, ch)
    ensures Foreign(inst, a, m)
  {
    hide KvOf, WfConf, Names, OthersApart, HostsApart, Possible, TrackPlan, CleanPlan, Wanted, NamesApart, RestApart;
    if m in TrackPlan(c, ch) {
      TrackForeign(inst, a, other, db, c, ch, m);
    } else {
      var kv := KvOf(c).value;
      if m in CleanPlan(kv, ch) {
        CleanForeign(inst, a, other, db, c, kv, ch, m);
      } else {
        PlanWrites(c, kv, ch, m);
        if m.Put? {
          KvDisjoint(a, c, m.key);
          PutForeign(inst, a, c, m.key);
        }
      }
    }
  }

  lemma PutForeign(inst: Inst, a: Configuration, c: Configuration, k: string)
    requires WfConf(a) && KvOf(a).Some? && k !in KvOf(a).value && WfConf(c) && KvOf(c).Some? && k in KvOf(c).value
    ensures k !in Wanted(inst, a)
  {
    hide KvOf, WfConf;
    KvKeyForm(c, k);
    assert Sentinel(inst)[7] == "traefik_"[7] == '_' && "traefik/"[7] == '/';
  }

  lemma StoreUntouched(inst: Inst, a: Configuration, other: Inst, db: Db, c: Configuration, ch: Choice, done: nat,
                       db': Db, ok: bool)
    requires WfConf(a) && KvOf(a).Some? && Neighbour(inst, a, other, c) && OthersApart(inst, a, db)
    requires StoreStep(other, db, c, ch, done, db', ok)
    ensures Untouched(inst, a, db, db') && OthersApart(inst, a, db')
  {
    PossibleShaped(other, db, c, ch);
    var p := StorePlan(c, ch)[..done];
    hide KvOf, WfConf, OthersApart, HostsApart, Possible, StorePlan, Foreign, Run, NamesApart, RestApart, Untouched;
    forall m | m in p ensures Foreign(inst, a, m) {
      PlanForeign(inst, a, other, db, c, ch, m);
    }
    RunForeign(inst, a, other, Sys(db, false), p);
  }

  lemma RenewUntouched(inst: Inst, a: Configuration, other: Inst, db: Db, c: Configuration, keys: set<string>)
    requires WfConf(a) && KvOf(a).Some? && Neighbour(inst, a, other, c) && OthersApart(inst, a, db) && KvOf(c).Some?
    requires keys <= Wanted(other, c)
    ensures Untouched(inst, a, db, Renewed(db, keys, other.ttl)) && OthersApart(inst, a, Renewed(db, keys, other.ttl))
  {
    var b := Renewed(db, keys, other.ttl);
    hide KvOf, WfConf, NamesApart, RestApart, OwnSet, NameApart;
    forall k | k in Wanted(inst, a) ensures k !in keys {
      StampForeign(inst, a, other);
      if k in keys && k in KvOf(c).value {
        KvDisjoint(a, c, k);
        PutForeign(inst, a, c, k);
      }
    }
    hide HostsApart, Wanted;
    SameSetsApart(inst, a, db, b);
  }

  lemma SameSetsApart(inst: Inst, a: Configuration, x: Db, y: Db)
    requires OthersApart(inst, a, x) && x.sets == y.sets
    ensures OthersApart(inst, a, y)
  {
    hide HostsApart, NameApart, SetKey, NewKey;
    forall h, i | 0 <= i < |SETS|
      ensures TrackedNames(Inst(h, 0), y, SETS[i]) == TrackedNames(Inst(h, 0), x, SETS[i])
    {
    }
    hide TrackedNames;
  }

  lemma UntouchedTwice(inst: Inst, a: Configuration, x: Db, y: Db, z: Db)
    requires WfConf(a) && KvOf(a).Some? && Untouched(inst, a, x, y) && Untouched(inst, a, y, z)
    ensures Untouched(inst, a, x, z)
  {
    hide KvOf, WfConf, Wanted, OwnSet;
  }

  lemma KeepUntouched(inst: Inst, a: Configuration, other: Inst, db: Db, last: Option<Configuration>, k: Keep, db': Db,
                      ok: bool)
    requires WfConf(a) && KvOf(a).Some? && OthersApart(inst, a, db)
    requires last.Some? ==> Neighbour(inst, a, other, last.value)
    requires KeepStep(other, db, last, k, db', ok)
    ensures Untouched(inst, a, db, db') && OthersApart(inst, a, db')
  {
    hide KvOf, OthersApart, HostsApart, StoreStep, NamesApart, RestApart, Untouched, Wanted, OwnSet;
    UntouchedSame(inst, a, db);
    if last.Some? {
      var c := last.value;
      match k
      case Idle =>
      case NoAnswer =>
      case Renew(applied, _) => RenewUntouched(inst, a, other, db, c, applied);
      case Restore(renewed, ch, done) =>
        if renewed {
          var db1 := Renewed(db, Wanted(other, c), other.ttl);
          RenewUntouched(inst, a, other, db, c, Wanted(other, c));
          StoreUntouched(inst, a, other, db1, c, ch, done, db', ok);
          UntouchedTwice(inst, a, db, db1, db');
        } else {
          StoreUntouched(inst, a, other, db, c, ch, done, db', ok);
        }
    }
  }

  lemma UntouchedSame(inst: Inst, a: Configuration, db: Db)
    requires WfConf(a) && KvOf(a).Some?
    ensures Untouched(inst, a, db, db)
  {
    hide KvOf, WfConf, Wanted, OwnSet;
  }

  datatype Other =
    | OtherStore(other: Inst, c: Configuration, ch: Choice, done: nat, ok: bool)
    | OtherKeep(other: Inst, last: Option<Configuration>, k: Keep, ok: bool)
    | Pass(d: nat)

  /** One operation of some other host, complete or cut, or time. */
  ghost predicate OtherStep(inst: Inst, a: Configuration, db: Db, e: Other, db': Db)
    requires WfConf(a) && KvOf(a).Some?
  {
    match e
    case OtherStore(other, c, ch, done, ok) =>
      Neighbour(inst, a, other, c) && StoreStep(other, db, c, ch, done, db', ok)
    case OtherKeep(other, last, k, ok) =>
      (last.Some? ==> Neighbour(inst, a, other, last.value)) && KeepStep(other, db, last, k, db', ok)
    case Pass(d) => db' == db.Tick(d)
  }

  ghost predicate OtherRun(inst: Inst, a: Configuration, dbs: seq<Db>, events: seq<Other>)
    requires WfConf(a) && KvOf(a).Some?
  {
    |dbs| == |events| + 1 && forall i :: 0 <= i < |events| ==> OtherStep(inst, a, dbs[i], events[i], dbs[i + 1])
  }

  /** The same run with nothing happening but the passing of time. */
  function Alone(db: Db, events: seq<Other>): Db
  {
    if events == [] then db
    else
      var before := Alone(db, events[..|events| - 1]);
      match events[|events| - 1]
      case Pass(d) => before.Tick(d)
      case OtherStore(_, _, _, _, _) => before
      case OtherKeep(_, _, _, _) => before
  }

  lemma TickUntouched(inst: Inst, a: Configuration, x: Db, y: Db, d: nat)
    requires WfConf(a) && KvOf(a).Some? && Untouched(inst, a, x, y)
    ensures Untouched(inst, a, x.Tick(d), y.Tick(d))
  {
    hide KvOf, WfConf, Wanted, OwnSet;
  }

  /** Whatever the other hosts do, in whatever order and however it fails, the host's published keys, their
      deadlines, its sentinel and its tracking sets are as if only time had passed. */
  lemma {:induction false} NonInterference(inst: Inst, a: Configuration, dbs: seq<Db>, events: seq<Other>, i: nat)
    requires WfConf(a) && KvOf(a).Some? && OtherRun(inst, a, dbs, events) && OthersApart(inst, a, dbs[0]) && i < |dbs|
    ensures Untouched(inst, a, Alone(dbs[0], events[..i]), dbs[i]) && OthersApart(inst, a, dbs[i])
  {
    hide KvOf, WfConf, OthersApart, Untouched, StoreStep, KeepStep, Neighbour;
    if i == 0 {
      UntouchedSame(inst, a, dbs[0]);
    } else {
      NonInterference(inst, a, dbs, events, i - 1);
      assert events[..i][..i - 1] == events[..i - 1];
      var x, y, z := Alone(dbs[0], events[..i - 1]), dbs[i - 1], dbs[i];
      assert OtherStep(inst, a, y, events[i - 1], z);
      match events[i - 1]
      case OtherStore(other, c, ch, done, ok) =>
        StoreUntouched(inst, a, other, y, c, ch, done, z, ok);
        UntouchedTwice(inst, a, x, y, z);
      case OtherKeep(other, last, k, ok) =>
        KeepUntouched(inst, a, other, y, last, k, z, ok);
        UntouchedTwice(inst, a, x, y, z);
      case Pass(d) =>
        TickUntouched(inst, a, x, y, d);
        SameSetsApart(inst, a, y, z);
    }
  }
}
