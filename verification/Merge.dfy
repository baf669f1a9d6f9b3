/** Merging a service's servers with what any host has published, and what repeated merge-then-store rounds add up
    to. */
module Merge {
  import opened Paths
  import opened Values
  import opened Config
  import opened Published
  import opened Redis
  import opened Plan
  import opened ClosedForm
  import opened Ownership
  import opened Store
  import opened Readback
  import opened Services
  import Docker

  /** strconv.ParseBool, with the error read as false. */
  predicate ParseBool(s: string)
  {
    s in {"1", "t", "T", "true", "TRUE", "True"}
  }

  /** The kop.merge-lbs label, or its earlier spelling. */
  predicate WantsMerge(found: Option<Docker.Container>)
  {
    found.Some?
    && (ParseBool(Docker.Label(found.value, "kop.merge-lbs"))
        || ParseBool(Docker.Label(found.value, "traefik.merge-lbs")))
  }

  function PlainServer(addr: string): Server
  {
    Server(addr, "", "", [])
  }

  /** The list holds one fresh server per address, in some order. */
  ghost predicate Lists(ss: seq<Server>, addrs: set<string>)
  {
    && (forall i :: 0 <= i < |ss| ==> ss[i] == PlainServer(ss[i].addr))
    && (forall i, j :: 0 <= i < j < |ss| ==> ss[i].addr != ss[j].addr)
    && (forall a :: a in addrs <==> exists i :: 0 <= i < |ss| && ss[i].addr == a)
  }

  ghost function Shown(db: Db, proto: string, name: string): set<string>
  {
    GetsOf(db, ServersPrefix(proto, name), "/" + AddrField(proto)).Values
  }

  /** What the merge makes of one service. */
  ghost predicate MergedService(db: Db, proto: string, name: string, wants: bool, s: Option<Service>,
                                s': Option<Service>)
  {
    if !wants || Shown(db, proto, name) == {} || Lb(s).None? then s' == s
    else exists ss ::
           Lists(ss, Shown(db, proto, name) + Addresses(ServersOf(s))) && s' == Some(WithServers(s.value, ss))
  }

  /** Services whose published addresses could not be read, by protocol. */
  type Unread = map<string, set<string>>

  predicate IsUnread(unread: Unread, proto: string, name: string)
  {
    proto in unread && name in unread[proto]
  }

  ghost predicate MergedOne(db: Db, unread: Unread, details: map<string, Docker.Container>,
                            routers: map<string, string>, proto: string, name: string,
                            s: Option<Service>, s': Option<Service>)
  {
    exists r ::
      Docker.CanFind(details, routers, proto, name, r)
      && MergedService(db, proto, name, WantsMerge(r) && !IsUnread(unread, proto, name), s, s')
  }

  /** Some lookup result for the service asks for merging, and a read of its published addresses was refused. */
  ghost predicate Unreadable(calls: seq<Sent>, details: map<string, Docker.Container>, routers: map<string, string>,
                             proto: string, name: string)
  {
    && (exists r :: Docker.CanFind(details, routers, proto, name, r) && WantsMerge(r))
    && ReadRefused(calls, ServersPrefix(proto, name), "/" + AddrField(proto))
  }

  ghost predicate MergedServices(db: Db, unread: Unread, details: map<string, Docker.Container>,
                                 routers: map<string, string>, proto: string,
                                 services: map<string, Option<Service>>, services': map<string, Option<Service>>)
  {
    && services'.Keys == services.Keys
    && forall k :: k in services ==> MergedOne(db, unread, details, routers, proto, k, services[k], services'[k])
  }

  /** mergeLoadBalancers on all three protocols. */
  ghost predicate MergedConf(db: Db, unread: Unread, details: map<string, Docker.Container>, c: Configuration,
                             c': Configuration)
  {
    && MergedServices(db, unread, details, RouterServices(c, "http"), "http", c.http.services, c'.http.services)
    && MergedServices(db, unread, details, RouterServices(c, "tcp"), "tcp", c.tcp.services, c'.tcp.services)
    && MergedServices(db, unread, details, RouterServices(c, "udp"), "udp", c.udp.services, c'.udp.services)
    && c' == WithServices(WithServices(WithServices(c, "http", c'.http.services), "tcp", c'.tcp.services), "udp",
                          c'.udp.services)
  }

  // ---------- the merged configuration is well-formed ----------

  lemma PlainServersWf(path: seq<string>, proto: string, ss: seq<Server>)
    requires forall i :: 0 <= i < |ss| ==> ss[i] == PlainServer(ss[i].addr)
    ensures Wf(path, ServersValue(proto, ss))
  {
    forall i | 0 <= i < |ss| ensures Wf(path + [Dec(i)], ServersValue(proto, ss).items[i]) {
      assert ServersValue(proto, ss).items[i] == ServerValue(proto, ss[i]);
      PlainServerWf(path + [Dec(i)], proto, ss[i].addr);
    }
  }

  lemma PlainServerWf(path: seq<string>, proto: string, addr: string)
    ensures Wf(path, ServerValue(proto, PlainServer(addr)))
  {
    var f := F(AddrField(proto), Str(addr));
    JsonNameOf(AddrField(proto), Str(addr));
    assert [f] + [] == [f];
    assert [f][..0] == [];
    hide JsonFieldName;
    assert WfFields(path, []) && WfField(path, f);
    assert WfFields(path, [f]);
  }

  lemma MergedServiceWf(db: Db, proto: string, name: string, wants: bool, s: Option<Service>, s': Option<Service>)
    requires MergedService(db, proto, name, wants, s, s')
    requires Wf(NamePath(SetName(proto, "services"), name), ServiceValue(proto, s))
    ensures Wf(NamePath(SetName(proto, "services"), name), ServiceValue(proto, s'))
  {
    hide Wf, ServiceValue, ServersValue, NamePath, Shown;
    if s' != s {
      var ss :| Lists(ss, Shown(db, proto, name) + Addresses(ServersOf(s))) && s' == Some(WithServers(s.value, ss));
      var path := NamePath(SetName(proto, "services"), name);
      PlainServersWf(path + ["loadBalancer"] + ["servers"], proto, ss);
      ServiceRewf(path, proto, s.value, ss);
    }
  }

  lemma MergedServicesWf(db: Db, unread: Unread, details: map<string, Docker.Container>, routers: map<string, string>,
                         proto: string,
                         services: map<string, Option<Service>>, services': map<string, Option<Service>>)
    requires MergedServices(db, unread, details, routers, proto, services, services') && WfServices(proto, services)
    ensures WfServices(proto, services')
  {
    hide Wf, ServiceValue, NamePath, MergedService, Docker.CanFind;
    forall k | k in services'
      ensures Plain(k) && Wf(NamePath(SetName(proto, "services"), k), ServiceValue(proto, services'[k]))
    {
      assert MergedOne(db, unread, details, routers, proto, k, services[k], services'[k]);
      var r :| Docker.CanFind(details, routers, proto, k, r)
               && MergedService(db, proto, k, WantsMerge(r) && !IsUnread(unread, proto, k), services[k], services'[k]);
      MergedServiceWf(db, proto, k, WantsMerge(r) && !IsUnread(unread, proto, k), services[k], services'[k]);
    }
  }

  lemma MergeKeepsWf(db: Db, unread: Unread, details: map<string, Docker.Container>, c: Configuration,
                     c': Configuration)
    requires WfConf(c) && MergedConf(db, unread, details, c, c')
    ensures WfConf(c')
  {
    hide WfConf, WfServices, MergedServices;
    var c1 := WithServices(c, "http", c'.http.services);
    var c2 := WithServices(c1, "tcp", c'.tcp.services);
    SameNames(db, unread, details, c, c');
    EntriesWf(c, "http");
    MergedServicesWf(db, unread, details, RouterServices(c, "http"), "http", c.http.services, c'.http.services);
    ServicesRewf(c, "http", c'.http.services);
    EntriesWf(c1, "tcp");
    MergedServicesWf(db, unread, details, RouterServices(c, "tcp"), "tcp", c.tcp.services, c'.tcp.services);
    ServicesRewf(c1, "tcp", c'.tcp.services);
    EntriesWf(c2, "udp");
    MergedServicesWf(db, unread, details, RouterServices(c, "udp"), "udp", c.udp.services, c'.udp.services);
    ServicesRewf(c2, "udp", c'.udp.services);
  }

  lemma SameNames(db: Db, unread: Unread, details: map<string, Docker.Container>, c: Configuration, c': Configuration)
    requires MergedConf(db, unread, details, c, c')
    ensures c'.http.services.Keys == c.http.services.Keys && c'.tcp.services.Keys == c.tcp.services.Keys
    ensures c'.udp.services.Keys == c.udp.services.Keys
  {
    hide MergedOne;
  }

  // ---------- rounds of merge and store ----------

  /** Every possible lookup result for the service asks for merging. */
  ghost predicate MergesOn(details: map<string, Docker.Container>, routers: map<string, string>, proto: string,
                           name: string)
  {
    forall r :: Docker.CanFind(details, routers, proto, name, r) ==> WantsMerge(r)
  }

  datatype Round =
    | Round(inst: Inst, unread: Unread, details: map<string, Docker.Container>, c: Configuration, merged: Configuration,
            ch: Choice, done: nat, name: string)
    | Pass(d: nat)

  /** One host merges and stores without anyone in between; its configuration has the service, merging is on, the TTL
      is 0, and the published addresses can be read. */
  ghost predicate RoundStep(proto: string, target: string, db: Db, e: Round, db': Db)
  {
    match e
    case Pass(d) => db' == db.Tick(d)
    case Round(inst, unread, details, c, merged, ch, done, name) =>
      && inst.ttl == 0 && proto in PROTOCOLS && WfConf(c) && WfConf(merged)
      && MergedConf(db, unread, details, c, merged) && StoreStep(inst, db, merged, ch, done, db', true)
      && name in SectionOf(c, proto).services && StripDocker(name) == StripDocker(target)
      && Lb(ServiceAt(c, proto, name)).Some? && SimpleServers(ServersOf(ServiceAt(c, proto, name)))
      && MergesOn(details, RouterServices(c, proto), proto, name) && !IsUnread(unread, proto, name)
  }

  /** The host's own addresses for the service. */
  function Own(proto: string, e: Round): set<string>
  {
    if e.Round? && e.name in SectionOf(e.c, proto).services then Addresses(ServersOf(ServiceAt(e.c, proto, e.name)))
    else {}
  }

  lemma MergedAt(db: Db, unread: Unread, details: map<string, Docker.Container>, c: Configuration, c': Configuration,
                 proto: string, name: string)
    requires MergedConf(db, unread, details, c, c') && proto in PROTOCOLS && name in SectionOf(c, proto).services
    requires MergesOn(details, RouterServices(c, proto), proto, name) && !IsUnread(unread, proto, name)
    ensures name in SectionOf(c', proto).services
    ensures MergedService(db, proto, name, true, ServiceAt(c, proto, name), ServiceAt(c', proto, name))
  {
    hide MergedService, Docker.CanFind, WantsMerge;
    assert MergedServices(db, unread, details, RouterServices(c, proto), proto, SectionOf(c, proto).services,
                          SectionOf(c', proto).services);
    assert MergedOne(db, unread, details, RouterServices(c, proto), proto, name, ServiceAt(c, proto, name),
                     ServiceAt(c', proto, name));
  }

  /** The addresses that the merged configuration lists for the service. */
  lemma MergedAddresses(db: Db, proto: string, name: string, s: Option<Service>, s': Option<Service>)
    requires MergedService(db, proto, name, true, s, s') && Lb(s).Some? && SimpleServers(ServersOf(s))
    requires "" !in Shown(db, proto, name)
    ensures Addresses(ServersOf(s')) == Shown(db, proto, name) + Addresses(ServersOf(s)) && SimpleServers(ServersOf(s'))
  {
    hide Shown;
    if Shown(db, proto, name) != {} {
      var ss :| Lists(ss, Shown(db, proto, name) + Addresses(ServersOf(s))) && s' == Some(WithServers(s.value, ss));
      assert ServersOf(s') == ss;
      ListedAddresses(ss, Shown(db, proto, name) + Addresses(ServersOf(s)));
    }
  }

  /** Merging touches the server list alone. */
  lemma MergedRest(db: Db, proto: string, name: string, wants: bool, s: Option<Service>, s': Option<Service>)
    requires MergedService(db, proto, name, wants, s, s')
    ensures s' == s || (Lb(s).Some? && Lb(s').Some? && Lb(s').value.rest == Lb(s).value.rest
                        && s'.value.rest == s.value.rest)
  {
    hide Shown, Lists;
  }

  lemma ListedAddresses(ss: seq<Server>, addrs: set<string>)
    requires Lists(ss, addrs) && "" !in addrs
    ensures Addresses(ss) == addrs && SimpleServers(ss)
  {
    forall a ensures a in Addresses(ss) <==> a in addrs {}
  }

  /** Published addresses are not empty and never expire. */
  ghost predicate Durable(db: Db, proto: string, name: string)
  {
    && ValidDb(db)
    && forall k :: k in db.Globbed(ServersPrefix(proto, name), "/" + AddrField(proto)) ==>
         db.strings[k].deadline == None && db.strings[k].value != ""
  }

  lemma DurableShown(db: Db, proto: string, name: string)
    requires Durable(db, proto, name)
    ensures "" !in Shown(db, proto, name)
  {
    hide ServersPrefix, Glob;
    var got := GetsOf(db, ServersPrefix(proto, name), "/" + AddrField(proto));
    forall v | v in got.Values ensures v != "" {
      var k :| k in got && got[k] == v;
    }
  }

  lemma SameTarget(db: Db, proto: string, a: string, b: string)
    requires StripDocker(a) == StripDocker(b)
    ensures Shown(db, proto, a) == Shown(db, proto, b) && Durable(db, proto, a) == Durable(db, proto, b)
  {
    assert ServersPrefix(proto, a) == ServersPrefix(proto, b);
    hide ServersPrefix;
  }

  /** After a store with TTL 0, what is read back lasts. */
  lemma StoredDurable(inst: Inst, db: Db, c: Configuration, ch: Choice, done: nat, db': Db, proto: string, name: string)
    requires WfConf(c) && ValidDb(db) && StoreStep(inst, db, c, ch, done, db', true) && inst.ttl == 0
    requires proto in PROTOCOLS && name in SectionOf(c, proto).services
    requires SimpleServers(ServersOf(ServiceAt(c, proto, name)))
    ensures Durable(db', proto, name)
  {
    hide WfConf, KvOf, ValidDb, StoreStep, ServersPrefix, Glob, AddrKey, SimpleServers, Sentinel, Names, Wanted,
      ServerKey;
    StoredKeys(inst, db, c, ch, done, db');
    StoreValid(inst, db, c, ch, done, db', true);
    forall k | k in db'.Globbed(ServersPrefix(proto, name), "/" + AddrField(proto))
      ensures db'.strings[k].deadline == None && db'.strings[k].value != ""
    {
      KvServerKey(c, proto, name, k);
      ServerKeyMatch(c, proto, name, k);
      KeyNotSentinel(inst, proto, name, k);
    }
  }

  /** One round publishes exactly what was published before and the host's own addresses. */
  lemma RoundAdds(proto: string, target: string, db: Db, e: Round, db': Db)
    requires RoundStep(proto, target, db, e, db') && Durable(db, proto, target)
    ensures Shown(db', proto, target) == Shown(db, proto, target) + Own(proto, e) && Durable(db', proto, target)
  {
    hide WfConf, StoreStep, MergedConf, MergesOn, SimpleServers, MergedService, Addresses;
    match e
    case Pass(d) => TickShows(db, proto, target, d);
    case Round(inst, unread, details, c, merged, ch, done, name) =>
      hide Shown, Durable;
      SameTarget(db, proto, name, target);
      SameTarget(db', proto, name, target);
      DurableShown(db, proto, name);
      DurableValid(db, proto, name);
      MergedAt(db, unread, details, c, merged, proto, name);
      MergedAddresses(db, proto, name, ServiceAt(c, proto, name), ServiceAt(merged, proto, name));
      ReadBackShown(inst, db, merged, ch, done, db', proto, name);
      StoredDurable(inst, db, merged, ch, done, db', proto, name);
  }

  lemma ReadBackShown(inst: Inst, db: Db, c: Configuration, ch: Choice, done: nat, db': Db, proto: string, name: string)
    requires WfConf(c) && ValidDb(db) && StoreStep(inst, db, c, ch, done, db', true)
    requires proto in PROTOCOLS && name in SectionOf(c, proto).services
    requires SimpleServers(ServersOf(ServiceAt(c, proto, name)))
    ensures Shown(db', proto, name) == Addresses(ServersOf(ServiceAt(c, proto, name)))
  {
    hide WfConf, ValidDb, StoreStep, ServersPrefix, SimpleServers, Reads;
    ReadBack(inst, db, c, ch, done, db', proto, name);
  }

  lemma DurableValid(db: Db, proto: string, name: string)
    requires Durable(db, proto, name)
    ensures ValidDb(db)
  {
  }

  lemma TickShows(db: Db, proto: string, name: string, d: nat)
    requires Durable(db, proto, name)
    ensures Shown(db.Tick(d), proto, name) == Shown(db, proto, name) && Durable(db.Tick(d), proto, name)
  {
    hide ServersPrefix, Glob;
    var p, s := ServersPrefix(proto, name), "/" + AddrField(proto);
    assert db.Tick(d).Globbed(p, s) == db.Globbed(p, s);
    assert GetsOf(db.Tick(d), p, s) == GetsOf(db, p, s);
  }

  ghost predicate Rounds(proto: string, target: string, dbs: seq<Db>, events: seq<Round>)
  {
    |dbs| == |events| + 1 && forall i :: 0 <= i < |events| ==> RoundStep(proto, target, dbs[i], events[i], dbs[i + 1])
  }

  function AllOwn(proto: string, events: seq<Round>, n: nat): set<string>
    requires n <= |events|
  {
    if n == 0 then {} else AllOwn(proto, events, n - 1) + Own(proto, events[n - 1])
  }

  /** Over any sequence of rounds by any hosts the published set is the initial one and everything the hosts
      brought; no address is ever lost. */
  lemma {:induction false} RoundsAccumulate(proto: string, target: string, dbs: seq<Db>, events: seq<Round>, i: nat)
    requires Rounds(proto, target, dbs, events) && Durable(dbs[0], proto, target) && i <= |events|
    ensures Shown(dbs[i], proto, target) == Shown(dbs[0], proto, target) + AllOwn(proto, events, i)
    ensures Durable(dbs[i], proto, target)
  {
    hide RoundStep, Shown, Durable, Own;
    if i > 0 {
      RoundsAccumulate(proto, target, dbs, events, i - 1);
      RoundAdds(proto, target, dbs[i - 1], events[i - 1], dbs[i]);
    }
  }

  /** A further round with addresses that are already there changes nothing. */
  lemma RoundIdempotent(proto: string, target: string, dbs: seq<Db>, events: seq<Round>, i: nat)
    requires Rounds(proto, target, dbs, events) && Durable(dbs[0], proto, target) && i < |events|
    requires Own(proto, events[i]) <= Shown(dbs[0], proto, target) + AllOwn(proto, events, i)
    ensures Shown(dbs[i + 1], proto, target) == Shown(dbs[i], proto, target)
  {
    hide RoundStep, Shown, Durable, Own;
    RoundsAccumulate(proto, target, dbs, events, i);
    RoundsAccumulate(proto, target, dbs, events, i + 1);
  }
}
