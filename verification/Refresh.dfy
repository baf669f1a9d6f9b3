/** createConfigHandler: a configuration that is rewritten, merged and stored, changed in place step by step. */
module Refresh {
  import opened Paths
  import opened Values
  import opened Config
  import opened Published
  import opened Redis
  import opened Plan
  import opened Store
  import opened Readback
  import opened Services
  import opened Merge
  import opened Rewrite
  import opened Sending
  import Docker

  type Containers = map<string, Docker.Container>
  type Routers = map<string, string>
  type ServiceMap = map<string, Option<Service>>

  /** No search for a port gets to a host configuration that is not there. */
  ghost predicate PortsResolvable(u: Urls, found: Option<Docker.Container>, proto: string, svcName: string,
                                  servers: seq<Server>)
  {
    forall s :: s in servers ==> Docker.Resolvable(found, proto, svcName, InferredPort(u, proto, s))
  }

  /** What replaceIPs relies on: load balancers are there, containers are found unambiguously, ports can be resolved. */
  ghost predicate Ready(u: Urls, details: Containers, routers: Routers, proto: string, services: ServiceMap)
  {
    forall k :: k in services ==>
      && services[k].Some? && Lb(services[k]).Some?
      && Docker.Unambiguous(details, routers, proto, k)
      && PortsResolvable(u, Docker.Found(details, routers, proto, k), proto, k, ServersOf(services[k]))
  }

  /** A service whose servers are rewritten one by one, in their order. */
  ghost predicate HttpService(u: Urls, details: Containers, routers: Routers, bindIP: string, k: string,
                              s: Option<Service>, s': Option<Service>)
  {
    s.Some? && s.value.lb.Some?
    && s' == Some(WithServers(s.value,
                              HttpServers(u, Docker.Found(details, routers, "http", k), k, bindIP, ServersOf(s))))
  }

  ghost predicate L4Service(u: Urls, details: Containers, routers: Routers, proto: string, ip: string, k: string,
                            s: Option<Service>, s': Option<Service>)
  {
    s.Some? && s.value.lb.Some?
    && s' == Some(WithServers(s.value,
                              L4Servers(u, Docker.Found(details, routers, proto, k), proto, k, ip, ServersOf(s))))
  }

  ghost function L4Of(details: Containers, routers: Routers, proto: string, services: ServiceMap): (m: map<string, L4>)
    ensures m.Keys == services.Keys
  {
    map k | k in services :: L4(NetworkIp(Docker.Found(details, routers, proto, k)), |ServersOf(services[k])|)
  }

  ghost predicate HttpRewritten(u: Urls, details: Containers, routers: Routers, bindIP: string, services: ServiceMap,
                                services': ServiceMap)
  {
    services'.Keys == services.Keys && forall k :: k in services ==>
      HttpService(u, details, routers, bindIP, k, services[k], services'[k])
  }

  /** The TCP or UDP services, visited in this order with this address at the start. */
  ghost predicate L4Rewritten(u: Urls, details: Containers, routers: Routers, proto: string, order: seq<string>,
                              ip: string,
                              services: ServiceMap, services': ServiceMap)
  {
    && Enumerates(order, services.Keys) && services'.Keys == services.Keys
    && L4Upto(u, details, routers, proto, order, ip, services, services')
  }

  ghost predicate L4Upto(u: Urls, details: Containers, routers: Routers, proto: string, order: seq<string>, ip: string,
                         services: ServiceMap, services': ServiceMap)
  {
    && services'.Keys == services.Keys && (forall k :: k in order ==> k in services)
    && forall i :: 0 <= i < |order| ==>
         L4Service(u, details, routers, proto, HostAt(L4Of(details, routers, proto, services), order, ip, i), order[i],
                   services[order[i]], services'[order[i]])
  }

  /** replaceIPs: `tcp` and `udp` are the iteration orders; the address carried out of the TCP loop enters the UDP
      loop. */
  ghost predicate Rewritten(u: Urls, details: Containers, c: Configuration, bindIP: string, tcp: seq<string>,
                            udp: seq<string>, c': Configuration)
  {
    && HttpRewritten(u, details, RouterServices(c, "http"), bindIP, c.http.services, c'.http.services)
    && L4Rewritten(u, details, RouterServices(c, "tcp"), "tcp", tcp, bindIP, c.tcp.services, c'.tcp.services)
    && (forall k :: k in tcp ==> k in c.tcp.services)
    && L4Rewritten(u, details, RouterServices(c, "udp"), "udp", udp, Carried(details, c, tcp, bindIP), c.udp.services,
                   c'.udp.services)
    && c' == WithServices(WithServices(WithServices(c, "http", c'.http.services), "tcp", c'.tcp.services), "udp",
                          c'.udp.services)
  }

  /** The address that comes out of the TCP loop. */
  ghost function Carried(details: Containers, c: Configuration, tcp: seq<string>, bindIP: string): string
    requires forall k :: k in tcp ==> k in c.tcp.services
  {
    IpAfter(L4Of(details, RouterServices(c, "tcp"), "tcp", c.tcp.services), tcp, bindIP, |tcp|)
  }

  class Handler {
    var conf: Configuration
    const details: Containers
    const urls: Urls
    const store: RedisStore

    constructor (conf: Configuration, details: Containers, urls: Urls, store: RedisStore)
      ensures this.conf == conf && this.details == details && this.urls == urls && this.store == store
    {
      this.conf, this.details, this.urls, this.store := conf, details, urls, store;
    }

    method FindContainer(svcType: string, svcName: string, routers: Routers) returns (r: Option<Docker.Container>)
      ensures Docker.CanFind(details, routers, svcType, svcName, r)
      ensures Docker.Unambiguous(details, routers, svcType, svcName) ==>
        r == Docker.Found(details, routers, svcType, svcName)
    {
      r := Docker.Lookup(details, routers, svcType, svcName);
    }

    method RewriteHttpServers(svcName: string, servers: seq<Server>, bindIP: string, routers: Routers)
      returns (servers': seq<Server>)
      requires Docker.Unambiguous(details, routers, "http", svcName)
      requires PortsResolvable(urls, Docker.Found(details, routers, "http", svcName), "http", svcName, servers)
      ensures servers' == HttpServers(urls, Docker.Found(details, routers, "http", svcName), svcName, bindIP, servers)
    {
      hide Docker.PortFor, Docker.Found, Docker.Unambiguous, Docker.Resolvable, PortsResolvable;
      servers' := servers;
      ghost var goal := HttpServers(urls, Docker.Found(details, routers, "http", svcName), svcName, bindIP, servers);
      for i := 0 to |servers|
        invariant |servers'| == |servers|
        invariant forall j :: 0 <= j < i ==> servers'[j] == goal[j]
        invariant forall j :: i <= j < |servers| ==> servers'[j] == servers[j]
      {
        var found := FindContainer("http", svcName, routers);
        var (ip, changed) := GetKopOverrideBinding(found, svcName, bindIP);
        if !changed {
          found := FindContainer("http", svcName, routers);
          ip := GetContainerNetworkIP(found, ip);
        }
        var server := servers'[i];
        found := FindContainer("http", svcName, routers);
        ResolvableAt(urls, found, "http", svcName, servers, i);
        if server.addr != "" {
          var p := Docker.GetContainerPort(found, "http", svcName, urls.port(server.addr));
          server := server.(addr := urls.withHost(server.addr, if p != "" then ip + ":" + p else ip));
        } else {
          var scheme := "http";
          if server.scheme != "" {
            scheme := server.scheme;
          }
          var url := scheme + "://" + ip;
          var port := Docker.GetContainerPort(found, "http", svcName, server.port);
          if port != "" {
            url := url + (":" + port);
          }
          UrlParts(scheme, ip, port);
          server := server.(addr := url);
        }
        servers' := servers'[i := server];
      }
    }

    method RewriteHttp(bindIP: string)
      requires Ready(urls, details, RouterServices(conf, "http"), "http", conf.http.services)
      modifies `conf
      ensures HttpRewritten(urls, details, RouterServices(old(conf), "http"), bindIP, old(conf).http.services,
                            conf.http.services)
      ensures conf == WithServices(old(conf), "http", conf.http.services)
    {
      hide Docker.Found, Docker.Unambiguous, HttpServers, RouterServices, HttpUpto, Ready, HttpService;
      ghost var c := conf;
      var services := conf.http.services;
      var routers := RouterServices(conf, "http");
      var todo := services.Keys;
      HttpStart(urls, details, routers, bindIP, services);
      while todo != {}
        invariant todo <= services.Keys
        invariant conf == c.(http := c.http.(services := conf.http.services))
        invariant HttpUpto(urls, details, routers, bindIP, services, conf.http.services, todo)
        decreases todo
      {
        var name :| name in todo;
        ReadyAt(urls, details, routers, "http", services, name);
        HttpLeft(urls, details, routers, bindIP, services, conf.http.services, todo, name);
        var svc := conf.http.services[name].value;
        var servers := RewriteHttpServers(name, svc.lb.value.servers, bindIP, routers);
        HttpNext(urls, details, routers, bindIP, services, conf.http.services, todo, name, servers);
        todo := todo - {name};
        conf := conf.(http := conf.http.(services := conf.http.services[name := Some(WithServers(svc, servers))]));
      }
      HttpEnd(urls, details, routers, bindIP, services, conf.http.services);
    }

    /** The servers of one TCP or UDP service; the address that comes out is carried on. */
    method RewriteL4Servers(proto: string, svcName: string, servers: seq<Server>, ip0: string, routers: Routers)
      returns (servers': seq<Server>, ip: string)
      requires Docker.Unambiguous(details, routers, proto, svcName)
      requires proto != "http"
      requires PortsResolvable(urls, Docker.Found(details, routers, proto, svcName), proto, svcName, servers)
      ensures ip == Carry(L4(NetworkIp(Docker.Found(details, routers, proto, svcName)), |servers|), ip0)
      ensures servers' == L4Servers(urls, Docker.Found(details, routers, proto, svcName), proto, svcName, ip, servers)
    {
      hide Docker.PortFor, Docker.Found, Docker.Unambiguous, Docker.Resolvable, PortsResolvable, NetworkIp;
      servers', ip := servers, ip0;
      ghost var end := Carry(L4(NetworkIp(Docker.Found(details, routers, proto, svcName)), |servers|), ip0);
      ghost var goal := L4Servers(urls, Docker.Found(details, routers, proto, svcName), proto, svcName, end, servers);
      for i := 0 to |servers|
        invariant |servers'| == |servers| && ip == if i == 0 then ip0 else end
        invariant forall j :: 0 <= j < i ==> servers'[j] == goal[j]
        invariant forall j :: i <= j < |servers| ==> servers'[j] == servers[j]
      {
        var found := FindContainer(proto, svcName, routers);
        ip := GetContainerNetworkIP(found, ip);
        var server := servers'[i];
        if server.port == "" {
          server := server.(port := urls.splitPort(server.addr));
        }
        found := FindContainer(proto, svcName, routers);
        ResolvableAt(urls, found, proto, svcName, servers, i);
        var port := Docker.GetContainerPort(found, proto, svcName, server.port);
        server := server.(port := port, addr := ip);
        if server.port != "" {
          server := server.(addr := server.addr + ":" + server.port);
        }
        servers' := servers'[i := server];
      }
    }

    method RewriteL4(proto: string, ip0: string) returns (ip: string, ghost order: seq<string>)
      requires proto == "tcp" || proto == "udp"
      requires Ready(urls, details, RouterServices(conf, proto), proto, SectionOf(conf, proto).services)
      modifies `conf
      ensures L4Rewritten(urls, details, RouterServices(old(conf), proto), proto, order, ip0,
                          SectionOf(old(conf), proto).services, SectionOf(conf, proto).services)
      ensures forall k :: k in order ==> k in SectionOf(old(conf), proto).services
      ensures ip == IpAfter(L4Of(details, RouterServices(old(conf), proto), proto,
                                 SectionOf(old(conf), proto).services), order, ip0, |order|)
      ensures conf == WithServices(old(conf), proto, SectionOf(conf, proto).services)
    {
      hide Docker.Found, Docker.Unambiguous, L4Servers, NetworkIp, RouterServices, L4Upto, L4Of, Ready, Enumerates,
        L4Service, IpAfter, Carry;
      ghost var c := conf;
      var services := SectionOf(conf, proto).services;
      var routers := RouterServices(conf, proto);
      ip := ip0;
      order := [];
      ghost var m := L4Of(details, routers, proto, services);
      var todo := services.Keys;
      NothingYet(urls, details, routers, proto, ip0, services);
      while todo != {}
        invariant todo <= services.Keys
        invariant conf == WithServices(c, proto, SectionOf(conf, proto).services)
        invariant Enumerates(order, services.Keys - todo) && (forall k :: k in order ==> k in services)
        invariant ip == IpAfter(m, order, ip0, |order|)
        invariant L4Upto(urls, details, routers, proto, order, ip0, services, SectionOf(conf, proto).services)
        invariant SectionOf(conf, proto).services.Keys == services.Keys
        invariant forall k :: k in todo ==> SectionOf(conf, proto).services[k] == services[k]
        decreases todo
      {
        var name :| name in todo;
        assert todo - {name} + {name} == todo;
        NotVisited(order, services.Keys, todo, name);
        todo := todo - {name};
        L4At(details, routers, proto, services, name);
        ReadyAt(urls, details, routers, proto, services, name);
        var svc := SectionOf(conf, proto).services[name].value;
        var servers;
        ghost var before, ip1 := SectionOf(conf, proto).services, ip;
        servers, ip := RewriteL4Servers(proto, name, svc.lb.value.servers, ip, routers);
        conf := WithServices(conf, proto, SectionOf(conf, proto).services[name := Some(WithServers(svc, servers))]);
        L4Next(urls, details, routers, proto, order, ip0, services, before, name, servers, todo);
        order := order + [name];
      }
      assert services.Keys - todo == services.Keys;
    }

    /** replaceIPs: every server keeps its place; the TCP and UDP loops carry their address on. */
    method ReplaceIPs(bindIP: string) returns (ghost tcp: seq<string>, ghost udp: seq<string>)
      requires Ready(urls, details, RouterServices(conf, "http"), "http", conf.http.services)
      requires Ready(urls, details, RouterServices(conf, "tcp"), "tcp", conf.tcp.services)
      requires Ready(urls, details, RouterServices(conf, "udp"), "udp", conf.udp.services)
      modifies `conf
      ensures Rewritten(urls, details, old(conf), bindIP, tcp, udp, conf)
    {
      hide Ready, HttpRewritten, L4Rewritten, L4Of, RouterServices;
      ghost var c0 := conf;
      RewriteHttp(bindIP);
      SameRouters(c0, "http", conf.http.services);
      ghost var c1 := conf;
      var ip;
      ip, tcp := RewriteL4("tcp", bindIP);
      SameRouters(c1, "tcp", conf.tcp.services);
      ip, udp := RewriteL4("udp", ip);
    }

    /** The addresses to publish for one service: those found in the store and its own. */
    method CollectAddresses(existing: map<string, string>, servers: seq<Server>) returns (keySet: set<string>)
      ensures keySet == existing.Values + Addresses(servers)
    {
      keySet := {};
      var todo := existing.Keys;
      while todo != {}
        invariant todo <= existing.Keys
        invariant keySet == set k | k in existing.Keys - todo :: existing[k]
        decreases todo
      {
        var k :| k in todo;
        todo := todo - {k};
        keySet := keySet + {existing[k]};
        assert existing.Keys - todo == (existing.Keys - (todo + {k})) + {k};
      }
      assert keySet == existing.Values;
      for i := 0 to |servers|
        invariant keySet == existing.Values + Addresses(servers[..i])
      {
        AddressesSnoc(servers, i);
        var k := servers[i].addr;
        if k != "" {
          keySet := keySet + {k};
        }
      }
      assert servers[..|servers|] == servers;
    }

    /** One fresh server per address, in arbitrary order. */
    method ListServers(keySet: set<string>) returns (newServers: seq<Server>)
      ensures Lists(newServers, keySet)
    {
      newServers := [];
      var todo := keySet;
      while todo != {}
        invariant todo <= keySet && Lists(newServers, keySet - todo)
        decreases todo
      {
        var k :| k in todo;
        assert todo - {k} + {k} == todo;
        todo := todo - {k};
        ListsSnoc(newServers, keySet, todo, k);
        newServers := newServers + [PlainServer(k)];
      }
      assert keySet - todo == keySet;
    }

    /** Unread is a service that asks for merging and whose addresses Redis refused to tell; nothing else is sent. */
    method MergeService(proto: string, name: string, svc: Option<Service>, routers: Routers)
      returns (svc': Option<Service>, ghost read: bool)
      modifies store.client`sent
      ensures old(store.client.sent) <= store.client.sent
      ensures read <==> Answered(store.client.sent[|old(store.client.sent)|..])
      ensures !read ==> Unreadable(store.client.sent[|old(store.client.sent)|..], details, routers, proto, name)
      ensures MergedOne(store.client.View(), if read then map[] else map[proto := {name}], details, routers, proto,
                        name, svc, svc')
    {
      hide GetsOf, Lists, Answered, ReadRefused, ServersPrefix, Docker.CanFind;
      NothingSent(store.client.sent);
      var found := FindContainer(proto, name, routers);
      svc', read := svc, true;
      var merge := found.Some? && ParseBool(Docker.Label(found.value, "kop.merge-lbs"));
      if !merge {
        merge := found.Some? && ParseBool(Docker.Label(found.value, "traefik.merge-lbs"));
      }
      if merge {
        var answered, existing := store.Gets(ServersPrefix(proto, name), "/" + AddrField(proto));
        read := answered;
        if !read {
          RefusedNotAnswered(store.client.sent[|old(store.client.sent)|..], ServersPrefix(proto, name),
                             "/" + AddrField(proto));
          assert Docker.CanFind(details, routers, proto, name, found) && WantsMerge(found);
        }
        NoValues(existing);
        if answered && |existing| != 0 && svc.Some? && svc.value.lb.Some? {
          var keySet := CollectAddresses(existing, svc.value.lb.value.servers);
          var newServers := ListServers(keySet);
          svc' := Some(WithServers(svc.value, newServers));
        }
      }
      assert MergedService(store.client.View(), proto, name,
        WantsMerge(found) && !IsUnread(if read then map[] else map[proto := {name}], proto, name), svc, svc');
    }

    /** mergeGenericLoadBalancers, over the services in arbitrary order. */
    method MergeGenericLoadBalancers(proto: string) returns (ghost unread: set<string>)
      requires proto in PROTOCOLS
      modifies `conf, store.client`sent
      ensures old(store.client.sent) <= store.client.sent
      ensures UnreadOf(store.client.sent[|old(store.client.sent)|..], details, RouterServices(old(conf), proto), proto,
                       SectionOf(old(conf), proto).services, unread)
      ensures MergedServices(store.client.View(), map[proto := unread], details, RouterServices(old(conf), proto),
                             proto,
                             SectionOf(old(conf), proto).services, SectionOf(conf, proto).services)
      ensures conf == WithServices(old(conf), proto, SectionOf(conf, proto).services)
    {
      hide MergedOne, RouterServices, MergeUpto, SectionOf, WithServices, Answered, Unreadable, UnreadOf;
      ghost var c, db, before := conf, store.client.View(), store.client.sent;
      var services := SectionOf(conf, proto).services;
      var routers := RouterServices(conf, proto);
      var todo := services.Keys;
      unread := {};
      ServicesBack(c, proto, services, services);
      MergeStart(db, unread, details, routers, proto, services);
      NothingUnread(before, details, routers, proto, services);
      while todo != {}
        invariant todo <= services.Keys
        invariant conf == WithServices(c, proto, SectionOf(conf, proto).services)
        invariant store.client.View() == db && before <= store.client.sent
        invariant UnreadOf(store.client.sent[|before|..], details, routers, proto, services, unread)
        invariant MergeUpto(db, unread, details, routers, proto, services, SectionOf(conf, proto).services, todo)
        decreases todo
      {
        var name :| name in todo;
        var current := SectionOf(conf, proto).services;
        MergeLeft(db, unread, details, routers, proto, services, current, todo, name);
        var svc;
        ghost var read, mid := true, store.client.sent;
        svc, read := MergeService(proto, name, current[name], routers);
        MergeNext(db, unread, details, routers, proto, services, current, todo, name, svc, read);
        UnreadNext(before, mid, store.client.sent, details, routers, proto, services, unread, name, read);
        unread := if read then unread else unread + {name};
        todo := todo - {name};
        ServicesBack(c, proto, current, current[name := svc]);
        conf := WithServices(conf, proto, current[name := svc]);
      }
      MergeEnd(db, unread, details, routers, proto, services, SectionOf(conf, proto).services);
    }

    /** When Redis refuses nothing every service is read: the configuration is merged with no exception. */
    method MergeLoadBalancers() returns (ghost unread: Unread)
      modifies `conf, store.client`sent
      ensures old(store.client.sent) <= store.client.sent
      ensures AllUnreadable(store.client.sent[|old(store.client.sent)|..], details, old(conf), unread)
      ensures MergedConf(store.client.View(), unread, details, old(conf), conf)
      ensures Answered(store.client.sent[|old(store.client.sent)|..]) ==>
        MergedConf(store.client.View(), map[], details, old(conf), conf)
    {
      hide MergedServices, RouterServices, Answered, UnreadOf, AllUnreadable;
      ghost var c0, db, s0 := conf, store.client.View(), store.client.sent;
      ghost var a := MergeGenericLoadBalancers("http");
      SameRouters(c0, "http", conf.http.services);
      ghost var c1, s1 := conf, store.client.sent;
      ghost var b := MergeGenericLoadBalancers("tcp");
      SameRouters(c1, "tcp", conf.tcp.services);
      ghost var s2 := store.client.sent;
      ghost var d := MergeGenericLoadBalancers("udp");
      unread := map["http" := a, "tcp" := b, "udp" := d];
      SameUnread(db, map["http" := a], unread, details, RouterServices(c0, "http"), "http", c0.http.services,
                 conf.http.services);
      SameUnread(db, map["tcp" := b], unread, details, RouterServices(c0, "tcp"), "tcp", c0.tcp.services,
                 conf.tcp.services);
      SameUnread(db, map["udp" := d], unread, details, RouterServices(c0, "udp"), "udp", c0.udp.services,
                 conf.udp.services);
      EachUnread(s0, s1, s2, store.client.sent, details, c0, a, b, d);
      if Answered(store.client.sent[|s0|..]) {
        NoneUnread(store.client.sent[|s0|..], db, details, c0, conf, unread);
      }
    }

    /** The configuration handler, after filtering: rewrite, merge, store. `merging` is what the merge asked Redis. */
    method Handle(bindIP: string, replace: bool)
      returns (ok: bool, ghost rewritten: Configuration, ghost unread: Unread, ghost tcp: seq<string>,
               ghost udp: seq<string>, ghost ch: Choice,
               ghost done: nat, ghost merging: seq<Sent>)
      requires WfConf(conf)
      requires replace ==>
        forall p :: p in PROTOCOLS ==> Ready(urls, details, RouterServices(conf, p), p, SectionOf(conf, p).services)
      modifies this, store, store.client
      ensures replace ==> Rewritten(urls, details, old(conf), bindIP, tcp, udp, rewritten)
      ensures !replace ==> rewritten == old(conf)
      ensures MergedConf(old(store.client.View()), unread, details, rewritten, conf) && WfConf(rewritten)
      ensures AllUnreadable(merging, details, rewritten, unread)
      ensures Answered(merging) ==> MergedConf(old(store.client.View()), map[], details, rewritten, conf)
      ensures WfConf(conf)
      ensures StoreStep(store.inst, old(store.client.View()), conf, ch, done, store.client.View(), ok)
      ensures store.lastConfig == if ok then Some(conf) else old(store.lastConfig)
      ensures store.called == old(store.called) + [StoreCalled(conf, ok)]
      ensures old(store.client.sent) + merging <= store.client.sent
      ensures ok <==> KvOf(conf).Some? && Answered(store.client.sent[|old(store.client.sent) + merging|..])
    {
      hide WfConf, Rewritten, MergedConf, StoreStep, Ready, RouterServices, KvOf, Answered, AllUnreadable, SentBy,
        RefusedAt;
      tcp, udp := [], [];
      ghost var c0 := conf;
      if replace {
        ReadyEach(urls, details, conf);
        tcp, udp := ReplaceIPs(bindIP);
        RewriteKeepsWf(urls, details, c0, bindIP, tcp, udp, conf);
      }
      rewritten := conf;
      ghost var before := store.client.sent;
      unread := MergeLoadBalancers();
      merging := store.client.sent[|before|..];
      assert before + merging == store.client.sent;
      MergeKeepsWf(store.client.View(), unread, details, rewritten, conf);
      ok, ch, done := store.Store(conf);
    }
  }

  // ---------- the services that could not be read ----------

  /** Exactly when a call was refused some service is unread, and each unread one asks for merging and met a refusal. */
  ghost predicate UnreadOf(calls: seq<Sent>, details: Containers, routers: Routers, proto: string,
                           services: ServiceMap, unread: set<string>)
  {
    && (unread == {} <==> Answered(calls))
    && forall k :: k in unread ==> k in services && Unreadable(calls, details, routers, proto, k)
  }

  ghost predicate AllUnreadable(calls: seq<Sent>, details: Containers, c: Configuration, unread: Unread)
  {
    && unread.Keys == PROTOCOLS && ((forall p :: p in PROTOCOLS ==> unread[p] == {}) <==> Answered(calls))
    && forall p, k :: p in PROTOCOLS && k in unread[p] ==>
         k in SectionOf(c, p).services && Unreadable(calls, details, RouterServices(c, p), p, k)
  }

  lemma NothingSent(sent: seq<Sent>)
    ensures Answered(sent[|sent|..])
  {
  }

  lemma NothingUnread(sent: seq<Sent>, details: Containers, routers: Routers, proto: string, services: ServiceMap)
    ensures UnreadOf(sent[|sent|..], details, routers, proto, services, {})
  {
  }

  lemma UnreadableWithin(calls: seq<Sent>, part: seq<Sent>, before: seq<Sent>, after: seq<Sent>, details: Containers,
                         routers: Routers, proto: string, name: string)
    requires calls == before + part + after && Unreadable(part, details, routers, proto, name)
    ensures Unreadable(calls, details, routers, proto, name)
  {
    hide ReadRefused, WantsMerge, Docker.CanFind, ServersPrefix;
    RefusedConcat(before, part, ServersPrefix(proto, name), "/" + AddrField(proto));
    RefusedConcat(before + part, after, ServersPrefix(proto, name), "/" + AddrField(proto));
  }

  lemma UnreadNext(before: seq<Sent>, mid: seq<Sent>, after: seq<Sent>, details: Containers, routers: Routers,
                   proto: string, services: ServiceMap, unread: set<string>, name: string, read: bool)
    requires before <= mid <= after && name in services
    requires UnreadOf(mid[|before|..], details, routers, proto, services, unread)
    requires read <==> Answered(after[|mid|..])
    requires !read ==> Unreadable(after[|mid|..], details, routers, proto, name)
    ensures UnreadOf(after[|before|..], details, routers, proto, services, if read then unread else unread + {name})
  {
    hide Unreadable, Answered;
    AnsweredLater(before, mid, after);
    assert after[|before|..] == mid[|before|..] + after[|mid|..];
    if !read {
      UnreadableWithin(after[|before|..], after[|mid|..], mid[|before|..], [], details, routers, proto, name);
    }
    forall k | k in unread ensures Unreadable(after[|before|..], details, routers, proto, k) {
      UnreadableWithin(after[|before|..], mid[|before|..], [], after[|mid|..], details, routers, proto, k);
    }
  }

  lemma EachUnread(s0: seq<Sent>, s1: seq<Sent>, s2: seq<Sent>, s3: seq<Sent>, details: Containers, c: Configuration,
                   a: set<string>, b: set<string>, d: set<string>)
    requires s0 <= s1 <= s2 <= s3
    requires UnreadOf(s1[|s0|..], details, RouterServices(c, "http"), "http", c.http.services, a)
    requires UnreadOf(s2[|s1|..], details, RouterServices(c, "tcp"), "tcp", c.tcp.services, b)
    requires UnreadOf(s3[|s2|..], details, RouterServices(c, "udp"), "udp", c.udp.services, d)
    ensures AllUnreadable(s3[|s0|..], details, c, map["http" := a, "tcp" := b, "udp" := d])
  {
    hide Unreadable, Answered, RouterServices;
    var x, y, z, all := s1[|s0|..], s2[|s1|..], s3[|s2|..], s3[|s0|..];
    AnsweredLater(s0, s1, s3);
    AnsweredLater(s1, s2, s3);
    assert all == [] + x + (y + z) && all == x + y + z && all == (x + y) + z + [];
    var unread := map["http" := a, "tcp" := b, "udp" := d];
    forall k | k in a ensures Unreadable(all, details, RouterServices(c, "http"), "http", k) {
      UnreadableWithin(all, x, [], y + z, details, RouterServices(c, "http"), "http", k);
    }
    forall k | k in b ensures Unreadable(all, details, RouterServices(c, "tcp"), "tcp", k) {
      UnreadableWithin(all, y, x, z, details, RouterServices(c, "tcp"), "tcp", k);
    }
    forall k | k in d ensures Unreadable(all, details, RouterServices(c, "udp"), "udp", k) {
      UnreadableWithin(all, z, x + y, [], details, RouterServices(c, "udp"), "udp", k);
    }
    assert unread["http"] == a && unread["tcp"] == b && unread["udp"] == d;
    forall p, k | p in PROTOCOLS && k in unread[p]
      ensures k in SectionOf(c, p).services && Unreadable(all, details, RouterServices(c, p), p, k)
    {
    }
  }

  lemma NoneUnreadIn(db: Db, details: Containers, routers: Routers, proto: string, services: ServiceMap,
                     services': ServiceMap, unread: Unread)
    requires MergedServices(db, unread, details, routers, proto, services, services')
    requires proto in unread && unread[proto] == {}
    ensures MergedServices(db, map[], details, routers, proto, services, services')
  {
    hide MergedOne;
    forall k | k in services ensures MergedOne(db, map[], details, routers, proto, k, services[k], services'[k]) {
      UnreadMatters(db, unread, map[], details, routers, proto, k, services[k], services'[k]);
    }
  }

  lemma NoneUnread(calls: seq<Sent>, db: Db, details: Containers, c: Configuration, c': Configuration, unread: Unread)
    requires MergedConf(db, unread, details, c, c') && AllUnreadable(calls, details, c, unread) && Answered(calls)
    ensures MergedConf(db, map[], details, c, c')
  {
    hide MergedServices, RouterServices, Answered, Unreadable;
    NoneUnreadIn(db, details, RouterServices(c, "http"), "http", c.http.services, c'.http.services, unread);
    NoneUnreadIn(db, details, RouterServices(c, "tcp"), "tcp", c.tcp.services, c'.tcp.services, unread);
    NoneUnreadIn(db, details, RouterServices(c, "udp"), "udp", c.udp.services, c'.udp.services, unread);
  }

  lemma ReadyEach(u: Urls, details: Containers, c: Configuration)
    requires forall p :: p in PROTOCOLS ==> Ready(u, details, RouterServices(c, p), p, SectionOf(c, p).services)
    ensures Ready(u, details, RouterServices(c, "http"), "http", c.http.services)
    ensures Ready(u, details, RouterServices(c, "tcp"), "tcp", c.tcp.services)
    ensures Ready(u, details, RouterServices(c, "udp"), "udp", c.udp.services)
  {
    hide Ready, RouterServices;
    assert SectionOf(c, "http") == c.http && SectionOf(c, "tcp") == c.tcp && SectionOf(c, "udp") == c.udp;
  }

  lemma NoValues(m: map<string, string>)
    ensures m.Values == {} <==> |m| == 0
  {
    if |m| != 0 {
      assert m.Keys != {};
      var k :| k in m;
      assert m[k] in m.Values;
    }
  }

  lemma AddressesSnoc(servers: seq<Server>, i: nat)
    requires i < |servers|
    ensures Addresses(servers[..i + 1])
            == Addresses(servers[..i]) + (if servers[i].addr != "" then {servers[i].addr} else {})
  {
    var a, b := servers[..i], servers[..i + 1];
    forall x | x in Addresses(a) ensures x in Addresses(b) {
      var j :| 0 <= j < |a| && a[j].addr != "" && a[j].addr == x;
      assert b[j] == a[j];
    }
    assert b[i] == servers[i];
    forall x | x in Addresses(b) ensures x in Addresses(a) || x == servers[i].addr {
      var j :| 0 <= j < |b| && b[j].addr != "" && b[j].addr == x;
      if j < i { assert a[j] == b[j]; }
    }
  }

  lemma ListsSnoc(ss: seq<Server>, all: set<string>, todo: set<string>, k: string)
    requires k in all && k !in todo && Lists(ss, all - (todo + {k}))
    ensures Lists(ss + [PlainServer(k)], all - todo)
  {
    var r := ss + [PlainServer(k)];
    forall a ensures a in all - todo <==> exists i :: 0 <= i < |r| && r[i].addr == a {
      if a == k { assert r[|ss|].addr == k; }
      if a in all - (todo + {k}) {
        var i :| 0 <= i < |ss| && ss[i].addr == a;
        assert r[i].addr == a;
      }
    }
  }

  // ---------- the rewritten configuration ----------

  lemma RewrittenServiceWf(proto: string, name: string, s: Service, ss: seq<Server>)
    requires s.lb.Some? && Wf(NamePath(SetName(proto, "services"), name), ServiceValue(proto, Some(s)))
    requires |ss| == |s.lb.value.servers| && forall i :: 0 <= i < |ss| ==> ss[i].rest == s.lb.value.servers[i].rest
    ensures Wf(NamePath(SetName(proto, "services"), name), ServiceValue(proto, Some(WithServers(s, ss))))
  {
    hide ServiceValue, LbValue, ServersValue, Wf, NamePath;
    var path := NamePath(SetName(proto, "services"), name);
    ServiceKid(path, proto, Some(s));
    LbKid(path + ["loadBalancer"], proto, s.lb);
    ServersRewf(path + ["loadBalancer"] + ["servers"], proto, s.lb.value.servers, ss);
    ServiceRewf(path, proto, s, ss);
  }

  lemma HttpWf(u: Urls, details: Containers, routers: Routers, bindIP: string, services: ServiceMap,
               services': ServiceMap)
    requires HttpRewritten(u, details, routers, bindIP, services, services') && WfServices("http", services)
    ensures WfServices("http", services')
  {
    hide ServiceValue, Wf, NamePath, Docker.Found, Docker.PortFor;
    forall k | k in services'
      ensures Plain(k) && Wf(NamePath(SetName("http", "services"), k), ServiceValue("http", services'[k]))
    {
      assert HttpService(u, details, routers, bindIP, k, services[k], services'[k]);
      RewrittenServiceWf("http", k, services[k].value, ServersOf(services'[k]));
    }
  }

  lemma L4Wf(u: Urls, details: Containers, routers: Routers, proto: string, order: seq<string>, ip: string,
             services: ServiceMap, services': ServiceMap)
    requires L4Rewritten(u, details, routers, proto, order, ip, services, services') && WfServices(proto, services)
    ensures WfServices(proto, services')
  {
    hide ServiceValue, Wf, NamePath, Docker.Found, Docker.PortFor, HostAt, L4Of;
    forall k | k in services'
      ensures Plain(k) && Wf(NamePath(SetName(proto, "services"), k), ServiceValue(proto, services'[k]))
    {
      assert k in order;
      var i :| 0 <= i < |order| && order[i] == k;
      assert L4Service(u, details, routers, proto, HostAt(L4Of(details, routers, proto, services), order, ip, i), k,
                       services[k], services'[k]);
      RewrittenServiceWf(proto, k, services[k].value, ServersOf(services'[k]));
    }
  }

  lemma RewriteKeepsWf(u: Urls, details: Containers, c: Configuration, bindIP: string, tcp: seq<string>,
                       udp: seq<string>, c': Configuration)
    requires WfConf(c) && Rewritten(u, details, c, bindIP, tcp, udp, c')
    ensures WfConf(c')
  {
    hide WfConf, WfServices, HttpRewritten, L4Upto, Enumerates, RouterServices, Carried;
    var c1 := WithServices(c, "http", c'.http.services);
    var c2 := WithServices(c1, "tcp", c'.tcp.services);
    SameServiceNames(u, details, c, bindIP, tcp, udp, c');
    EntriesWf(c, "http");
    HttpWf(u, details, RouterServices(c, "http"), bindIP, c.http.services, c'.http.services);
    ServicesRewf(c, "http", c'.http.services);
    EntriesWf(c1, "tcp");
    L4Wf(u, details, RouterServices(c, "tcp"), "tcp", tcp, bindIP, c.tcp.services, c'.tcp.services);
    ServicesRewf(c1, "tcp", c'.tcp.services);
    EntriesWf(c2, "udp");
    L4Wf(u, details, RouterServices(c, "udp"), "udp", udp, Carried(details, c, tcp, bindIP), c.udp.services,
         c'.udp.services);
    ServicesRewf(c2, "udp", c'.udp.services);
  }

  lemma SameServiceNames(u: Urls, details: Containers, c: Configuration, bindIP: string, tcp: seq<string>,
                         udp: seq<string>, c': Configuration)
    requires Rewritten(u, details, c, bindIP, tcp, udp, c')
    ensures c'.http.services.Keys == c.http.services.Keys && c'.tcp.services.Keys == c.tcp.services.Keys
    ensures c'.udp.services.Keys == c.udp.services.Keys
  {
    hide HttpService, L4Upto, Carried;
  }

  lemma SameRouters(c: Configuration, proto: string, services: ServiceMap)
    requires proto in PROTOCOLS
    ensures forall p :: RouterServices(WithServices(c, proto, services), p) == RouterServices(c, p)
  {
  }

  /** The services outside `todo` are rewritten, those inside are as they were. */
  ghost predicate HttpUpto(u: Urls, details: Containers, routers: Routers, bindIP: string, services: ServiceMap,
                           current: ServiceMap, todo: set<string>)
  {
    && current.Keys == services.Keys
    && forall k :: k in services ==>
         if k in todo then current[k] == services[k]
         else HttpService(u, details, routers, bindIP, k, services[k], current[k])
  }

  lemma HttpStart(u: Urls, details: Containers, routers: Routers, bindIP: string, services: ServiceMap)
    ensures HttpUpto(u, details, routers, bindIP, services, services, services.Keys)
  {
  }

  lemma HttpLeft(u: Urls, details: Containers, routers: Routers, bindIP: string, services: ServiceMap,
                 current: ServiceMap, todo: set<string>, k: string)
    requires HttpUpto(u, details, routers, bindIP, services, current, todo) && k in todo && k in services
    ensures k in current && current[k] == services[k]
  {
  }

  lemma HttpNext(u: Urls, details: Containers, routers: Routers, bindIP: string, services: ServiceMap,
                 current: ServiceMap, todo: set<string>,
                 k: string, servers: seq<Server>)
    requires HttpUpto(u, details, routers, bindIP, services, current, todo) && k in todo && k in services
    requires services[k].Some? && services[k].value.lb.Some?
    requires servers
             == HttpServers(u, Docker.Found(details, routers, "http", k), k, bindIP, services[k].value.lb.value.servers)
    ensures HttpUpto(u, details, routers, bindIP, services, current[k := Some(WithServers(services[k].value, servers))],
                     todo - {k})
  {
    hide HttpServers, Docker.Found;
  }

  lemma HttpEnd(u: Urls, details: Containers, routers: Routers, bindIP: string, services: ServiceMap,
                current: ServiceMap)
    requires HttpUpto(u, details, routers, bindIP, services, current, {})
    ensures HttpRewritten(u, details, routers, bindIP, services, current)
  {
    hide HttpService;
  }

  ghost predicate MergeUpto(db: Db, unread: set<string>, details: Containers, routers: Routers, proto: string,
                            services: ServiceMap, current: ServiceMap,
                            todo: set<string>)
  {
    && current.Keys == services.Keys && unread !! todo
    && forall k :: k in services ==>
         if k in todo then current[k] == services[k]
         else MergedOne(db, map[proto := unread], details, routers, proto, k, services[k], current[k])
  }

  lemma MergeStart(db: Db, unread: set<string>, details: Containers, routers: Routers, proto: string,
                   services: ServiceMap)
    requires unread == {}
    ensures MergeUpto(db, unread, details, routers, proto, services, services, services.Keys)
  {
  }

  lemma MergeLeft(db: Db, unread: set<string>, details: Containers, routers: Routers, proto: string,
                  services: ServiceMap, current: ServiceMap,
                  todo: set<string>, k: string)
    requires MergeUpto(db, unread, details, routers, proto, services, current, todo) && k in todo && k in services
    ensures k in current && current[k] == services[k]
  {
  }

  /** Only whether this very service was read matters. */
  lemma UnreadMatters(db: Db, a: Unread, b: Unread, details: Containers, routers: Routers, proto: string, k: string,
                      s: Option<Service>, s': Option<Service>)
    requires MergedOne(db, a, details, routers, proto, k, s, s') && IsUnread(a, proto, k) == IsUnread(b, proto, k)
    ensures MergedOne(db, b, details, routers, proto, k, s, s')
  {
    hide MergedService, Docker.CanFind, WantsMerge;
  }

  lemma MergeNext(db: Db, unread: set<string>, details: Containers, routers: Routers, proto: string,
                  services: ServiceMap, current: ServiceMap,
                  todo: set<string>, k: string, svc: Option<Service>, read: bool)
    requires MergeUpto(db, unread, details, routers, proto, services, current, todo) && k in todo && k in services
    requires MergedOne(db, if read then map[] else map[proto := {k}], details, routers, proto, k, services[k], svc)
    ensures MergeUpto(db, if read then unread else unread + {k}, details, routers, proto, services, current[k := svc],
                      todo - {k})
  {
    hide MergedOne;
    var unread' := if read then unread else unread + {k};
    forall x | x in services && x !in todo - {k}
      ensures MergedOne(db, map[proto := unread'], details, routers, proto, x, services[x], current[k := svc][x])
    {
      if x == k {
        UnreadMatters(db, if read then map[] else map[proto := {k}], map[proto := unread'], details, routers, proto, k,
                      services[k], svc);
      } else {
        UnreadMatters(db, map[proto := unread], map[proto := unread'], details, routers, proto, x, services[x],
                      current[x]);
      }
    }
  }

  lemma MergeEnd(db: Db, unread: set<string>, details: Containers, routers: Routers, proto: string,
                 services: ServiceMap, current: ServiceMap)
    requires MergeUpto(db, unread, details, routers, proto, services, current, {})
    ensures MergedServices(db, map[proto := unread], details, routers, proto, services, current)
  {
    hide MergedOne;
  }

  lemma SameUnread(db: Db, a: Unread, b: Unread, details: Containers, routers: Routers, proto: string,
                   services: ServiceMap, services': ServiceMap)
    requires MergedServices(db, a, details, routers, proto, services, services') && proto in a && proto in b
    requires a[proto] == b[proto]
    ensures MergedServices(db, b, details, routers, proto, services, services')
  {
    hide MergedOne;
    forall k | k in services ensures MergedOne(db, b, details, routers, proto, k, services[k], services'[k]) {
      UnreadMatters(db, a, b, details, routers, proto, k, services[k], services'[k]);
    }
  }

  /** Replacing the services of a protocol twice. */
  lemma ServicesBack(c: Configuration, proto: string, a: ServiceMap, b: ServiceMap)
    requires proto in PROTOCOLS
    ensures WithServices(c, proto, SectionOf(c, proto).services) == c
    ensures SectionOf(WithServices(c, proto, b), proto).services == b
    ensures WithServices(WithServices(c, proto, a), proto, b) == WithServices(c, proto, b)
  {
  }

  lemma NothingYet(u: Urls, details: Containers, routers: Routers, proto: string, ip: string, services: ServiceMap)
    ensures L4Upto(u, details, routers, proto, [], ip, services, services)
    ensures Enumerates([], services.Keys - services.Keys)
    ensures IpAfter(L4Of(details, routers, proto, services), [], ip, 0) == ip
  {
  }

  lemma NotVisited(order: seq<string>, all: set<string>, todo: set<string>, name: string)
    requires Enumerates(order, all - todo) && name in todo
    ensures name !in order
  {
  }

  lemma L4At(details: Containers, routers: Routers, proto: string, services: ServiceMap, k: string)
    requires k in services
    ensures L4Of(details, routers, proto, services)[k]
            == L4(NetworkIp(Docker.Found(details, routers, proto, k)), |ServersOf(services[k])|)
  {
    hide Docker.Found, NetworkIp;
  }

  lemma ResolvableAt(u: Urls, found: Option<Docker.Container>, proto: string, svcName: string, servers: seq<Server>,
                     i: nat)
    requires PortsResolvable(u, found, proto, svcName, servers) && i < |servers|
    ensures Docker.Resolvable(found, proto, svcName, InferredPort(u, proto, servers[i]))
  {
    hide Docker.Resolvable, InferredPort;
  }

  lemma ReadyAt(u: Urls, details: Containers, routers: Routers, proto: string, services: ServiceMap, k: string)
    requires Ready(u, details, routers, proto, services) && k in services
    ensures services[k].Some? && services[k].value.lb.Some? && Docker.Unambiguous(details, routers, proto, k)
    ensures PortsResolvable(u, Docker.Found(details, routers, proto, k), proto, k, services[k].value.lb.value.servers)
  {
    hide Docker.Unambiguous, Docker.Found, PortsResolvable;
  }

  /** One more service of the order. */
  lemma L4Next(u: Urls, details: Containers, routers: Routers, proto: string, order: seq<string>, ip0: string,
               services: ServiceMap, before: ServiceMap, name: string, servers: seq<Server>, todo: set<string>)
    requires L4Upto(u, details, routers, proto, order, ip0, services, before) && name in services && name !in todo
    requires name !in order
    requires Enumerates(order, services.Keys - (todo + {name})) && before[name] == services[name]
    requires services[name].Some? && services[name].value.lb.Some?
    requires forall k :: k in order ==> k in services
    requires var m := L4Of(details, routers, proto, services);
      servers == L4Servers(u, Docker.Found(details, routers, proto, name), proto, name,
                           Carry(m[name], IpAfter(m, order, ip0, |order|)), services[name].value.lb.value.servers)
    ensures L4Upto(u, details, routers, proto, order + [name], ip0, services,
                   before[name := Some(WithServers(services[name].value, servers))])
    ensures Enumerates(order + [name], services.Keys - todo)
    ensures var m := L4Of(details, routers, proto, services);
      IpAfter(m, order + [name], ip0, |order| + 1) == Carry(m[name], IpAfter(m, order, ip0, |order|))
  {
    var m := L4Of(details, routers, proto, services);
    OrderSnoc(m, order, ip0, name);
    EnumeratesNext(order, services.Keys, todo, name);
    hide L4Of, L4Servers, Docker.Found, IpAfter, HostAt, Carry, Enumerates;
    var after := before[name := Some(WithServers(services[name].value, servers))];
    var order' := order + [name];
    forall i | 0 <= i < |order'|
      ensures L4Service(u, details, routers, proto, HostAt(m, order', ip0, i), order'[i], services[order'[i]],
                        after[order'[i]])
    {
      if i < |order| {
        assert order'[i] == order[i] && order[i] in order;
        assert L4Service(u, details, routers, proto, HostAt(m, order, ip0, i), order[i], services[order[i]],
                         before[order[i]]);
      }
    }
  }

  lemma UrlParts(scheme: string, ip: string, port: string)
    ensures scheme + "://" + HostPort(ip, port)
            == if port != "" then scheme + "://" + ip + (":" + port) else scheme + "://" + ip
  {
    assert scheme + "://" + (ip + ":" + port) == scheme + "://" + ip + (":" + port);
  }

  lemma OrderSnoc(m: map<string, L4>, order: seq<string>, ip: string, name: string)
    requires name in m && forall k :: k in order ==> k in m
    ensures forall n :: 0 <= n <= |order| ==> IpAfter(m, order + [name], ip, n) == IpAfter(m, order, ip, n)
    ensures forall i :: 0 <= i < |order| ==> HostAt(m, order + [name], ip, i) == HostAt(m, order, ip, i)
    ensures HostAt(m, order + [name], ip, |order|) == Carry(m[name], IpAfter(m, order, ip, |order|))
    ensures IpAfter(m, order + [name], ip, |order| + 1) == Carry(m[name], IpAfter(m, order, ip, |order|))
  {
    forall n | 0 <= n <= |order| ensures IpAfter(m, order + [name], ip, n) == IpAfter(m, order, ip, n) {
      IpAfterPrefix(m, order, name, ip, n);
    }
  }

  lemma {:induction false} IpAfterPrefix(m: map<string, L4>, order: seq<string>, name: string, ip: string, n: nat)
    requires name in m && n <= |order| && forall k :: k in order ==> k in m
    ensures IpAfter(m, order + [name], ip, n) == IpAfter(m, order, ip, n)
  {
    if n > 0 {
      IpAfterPrefix(m, order, name, ip, n - 1);
      assert (order + [name])[n - 1] == order[n - 1];
    }
  }

  // ---------- what rewriting means for each server ----------

  /** HTTP: as many servers, in the same order, each made from its own container alone. */
  lemma HttpServersInPlace(u: Urls, details: Containers, routers: Routers, bindIP: string, services: ServiceMap,
                           services': ServiceMap, k: string, i: nat)
    requires HttpRewritten(u, details, routers, bindIP, services, services') && k in services
    requires i < |ServersOf(services[k])|
    ensures k in services' && |ServersOf(services'[k])| == |ServersOf(services[k])|
    ensures ServersOf(services'[k])[i]
            == HttpServer(u, Docker.Found(details, routers, "http", k), k, bindIP, ServersOf(services[k])[i])
  {
    hide HttpServer, Docker.Found;
    assert HttpService(u, details, routers, bindIP, k, services[k], services'[k]);
  }

  /** TCP and UDP: as many servers, in the same order; each made from its own container alone when no address is
      carried over. */
  lemma L4ServersInPlace(u: Urls, details: Containers, routers: Routers, proto: string, order: seq<string>, ip: string,
                         bindIP: string,
                         services: ServiceMap, services': ServiceMap, k: string, i: nat)
    requires L4Rewritten(u, details, routers, proto, order, ip, services, services') && k in services
    requires i < |ServersOf(services[k])|
    ensures k in services' && |ServersOf(services'[k])| == |ServersOf(services[k])|
    ensures (forall n :: n in order ==> n in services)
    ensures EachOwn(L4Of(details, routers, proto, services), order, ip, bindIP) ==>
      var found := Docker.Found(details, routers, proto, k);
      ServersOf(services'[k])[i]
      == L4Server(u, found, proto, k, GetContainerNetworkIP(found, bindIP), ServersOf(services[k])[i])
  {
    hide L4Server, Docker.Found, HostAt, L4Of, NetworkIp;
    var m := L4Of(details, routers, proto, services);
    L4At(details, routers, proto, services, k);
    assert k in order;
    var j :| 0 <= j < |order| && order[j] == k;
    assert L4Service(u, details, routers, proto, HostAt(m, order, ip, j), k, services[k], services'[k]);
  }

  /** No address is carried over, in either protocol, when nothing can leak. */
  lemma OwnHosts(details: Containers, c: Configuration, bindIP: string, tcp: seq<string>, udp: seq<string>)
    requires Enumerates(tcp, c.tcp.services.Keys) && Enumerates(udp, c.udp.services.Keys)
    requires NoLeak(TcpOf(details, c), UdpOf(details, c), bindIP)
    ensures (forall k :: k in tcp ==> k in c.tcp.services) && (forall k :: k in udp ==> k in c.udp.services)
    ensures EachOwn(L4Of(details, RouterServices(c, "tcp"), "tcp", c.tcp.services), tcp, bindIP, bindIP)
    ensures EachOwn(L4Of(details, RouterServices(c, "udp"), "udp", c.udp.services), udp,
                    Carried(details, c, tcp, bindIP), bindIP)
  {
    var a, b := L4Of(details, RouterServices(c, "tcp"), "tcp", c.tcp.services),
      L4Of(details, RouterServices(c, "udp"), "udp", c.udp.services);
    hide L4Of, RouterServices, NoLeak, EachOwn;
    NoLeakIndependent(a, b, bindIP);
  }

  // ---------- the exact condition for a configuration ----------

  /** Every TCP and UDP service has a load balancer, as the loops assume. */
  ghost predicate Balanced(services: ServiceMap)
  {
    forall k :: k in services ==> services[k].Some? && services[k].value.lb.Some?
  }

  /** Each server of the protocol is made from its own container alone. */
  ghost predicate OwnServers(u: Urls, details: Containers, routers: Routers, proto: string, bindIP: string,
                             services: ServiceMap, services': ServiceMap)
  {
    forall k, i :: k in services && 0 <= i < |ServersOf(services[k])| ==>
      OwnServer(u, details, routers, proto, bindIP, services, services', k, i)
  }

  ghost predicate OwnServer(u: Urls, details: Containers, routers: Routers, proto: string, bindIP: string,
                            services: ServiceMap, services': ServiceMap,
                            k: string, i: nat)
    requires k in services && i < |ServersOf(services[k])|
  {
    var found := Docker.Found(details, routers, proto, k);
    && k in services' && i < |ServersOf(services'[k])|
    && ServersOf(services'[k])[i]
       == L4Server(u, found, proto, k, GetContainerNetworkIP(found, bindIP), ServersOf(services[k])[i])
  }

  /** Whatever the iteration orders, address rewriting makes each TCP and UDP server from its own container alone. */
  ghost predicate AlwaysOwn(u: Urls, details: Containers, c: Configuration, bindIP: string)
  {
    forall tcp, udp, c' :: Rewritten(u, details, c, bindIP, tcp, udp, c') ==>
      OwnServers(u, details, RouterServices(c, "tcp"), "tcp", bindIP, c.tcp.services, c'.tcp.services) &&
      OwnServers(u, details, RouterServices(c, "udp"), "udp", bindIP, c.udp.services, c'.udp.services)
  }

  ghost function TcpOf(details: Containers, c: Configuration): (m: map<string, L4>)
    ensures m.Keys == c.tcp.services.Keys
  {
    L4Of(details, RouterServices(c, "tcp"), "tcp", c.tcp.services)
  }

  ghost function UdpOf(details: Containers, c: Configuration): (m: map<string, L4>)
    ensures m.Keys == c.udp.services.Keys
  {
    L4Of(details, RouterServices(c, "udp"), "udp", c.udp.services)
  }

  lemma EachOwnServers(u: Urls, details: Containers, routers: Routers, proto: string, order: seq<string>, ip: string,
                       bindIP: string,
                       services: ServiceMap, services': ServiceMap)
    requires L4Rewritten(u, details, routers, proto, order, ip, services, services')
    requires forall k :: k in order ==> k in services
    requires EachOwn(L4Of(details, routers, proto, services), order, ip, bindIP)
    ensures OwnServers(u, details, routers, proto, bindIP, services, services')
  {
    hide L4Rewritten, L4Server, Docker.Found, EachOwn, L4Of, NetworkIp;
    forall k, i | k in services && 0 <= i < |ServersOf(services[k])|
      ensures OwnServer(u, details, routers, proto, bindIP, services, services', k, i)
    {
      L4ServersInPlace(u, details, routers, proto, order, ip, bindIP, services, services', k, i);
    }
  }

  lemma HostPortInjective(a: string, b: string, port: string)
    requires HostPort(a, port) == HostPort(b, port)
    ensures a == b
  {
    if port != "" {
      assert (a + ":" + port)[..|a|] == a && (b + ":" + port)[..|b|] == b;
    }
  }

  /** Conversely, own servers need the own address at every position. */
  lemma OwnServersEach(u: Urls, details: Containers, routers: Routers, proto: string, order: seq<string>, ip: string,
                       bindIP: string,
                       services: ServiceMap, services': ServiceMap)
    requires L4Rewritten(u, details, routers, proto, order, ip, services, services')
    requires OwnServers(u, details, routers, proto, bindIP, services, services')
    ensures forall k :: k in order ==> k in services
    ensures EachOwn(L4Of(details, routers, proto, services), order, ip, bindIP)
  {
    var m := L4Of(details, routers, proto, services);
    hide Docker.Found, Docker.PortFor, L4Of, NetworkIp, HostAt, HostPort;
    forall j | 0 <= j < |order| && m[order[j]].servers > 0
      ensures HostAt(m, order, ip, j) == OwnHost(m[order[j]], bindIP)
    {
      var k := order[j];
      L4At(details, routers, proto, services, k);
      assert k in order;
      assert L4Service(u, details, routers, proto, HostAt(m, order, ip, j), k, services[k], services'[k]);
      assert OwnServer(u, details, routers, proto, bindIP, services, services', k, 0);
      var s := ServersOf(services[k])[0];
      HostPortInjective(HostAt(m, order, ip, j), OwnHost(m[k], bindIP),
        Docker.PortFor(Docker.Found(details, routers, proto, k), proto, k,
                       if s.port == "" then u.splitPort(s.addr) else s.port));
    }
  }

  /** A rewriting exists for any orders. */
  lemma L4Exists(u: Urls, details: Containers, routers: Routers, proto: string, order: seq<string>, ip: string,
                 services: ServiceMap)
    returns (services': ServiceMap)
    requires Balanced(services) && Enumerates(order, services.Keys)
    ensures L4Rewritten(u, details, routers, proto, order, ip, services, services')
  {
    services' := L4Map(u, details, routers, proto, order, ip, services, |order|);
  }

  lemma {:induction false} L4Map(u: Urls, details: Containers, routers: Routers, proto: string, order: seq<string>,
                                 ip: string, services: ServiceMap, n: nat)
    returns (services': ServiceMap)
    requires Balanced(services) && Enumerates(order, services.Keys) && n <= |order|
    ensures services'.Keys == services.Keys && (forall k :: k in order ==> k in services)
    ensures forall i :: 0 <= i < n ==>
      L4Service(u, details, routers, proto, HostAt(L4Of(details, routers, proto, services), order, ip, i), order[i],
                services[order[i]], services'[order[i]])
  {
    hide L4Of, L4Servers, Docker.Found, HostAt;
    if n == 0 {
      services' := services;
    } else {
      var before := L4Map(u, details, routers, proto, order, ip, services, n - 1);
      var k := order[n - 1];
      var host := HostAt(L4Of(details, routers, proto, services), order, ip, n - 1);
      services' := before[k := Some(WithServers(services[k].value,
                                                L4Servers(u, Docker.Found(details, routers, proto, k), proto, k, host,
                                                          ServersOf(services[k]))))];
    }
  }

  lemma HttpExists(u: Urls, details: Containers, routers: Routers, bindIP: string, services: ServiceMap)
    returns (services': ServiceMap)
    requires Balanced(services)
    ensures HttpRewritten(u, details, routers, bindIP, services, services')
  {
    hide HttpServers, Docker.Found;
    services' := map k | k in services ::
      Some(WithServers(services[k].value,
                       HttpServers(u, Docker.Found(details, routers, "http", k), k, bindIP, ServersOf(services[k]))));
  }

  lemma RewritingExists(u: Urls, details: Containers, c: Configuration, bindIP: string, tcp: seq<string>,
                        udp: seq<string>)
    returns (c': Configuration)
    requires Balanced(c.http.services) && Balanced(c.tcp.services) && Balanced(c.udp.services)
    requires Enumerates(tcp, c.tcp.services.Keys) && Enumerates(udp, c.udp.services.Keys)
    ensures Rewritten(u, details, c, bindIP, tcp, udp, c')
  {
    hide HttpRewritten, L4Rewritten, Balanced, RouterServices;
    var a := HttpExists(u, details, RouterServices(c, "http"), bindIP, c.http.services);
    var b := L4Exists(u, details, RouterServices(c, "tcp"), "tcp", tcp, bindIP, c.tcp.services);
    var d := L4Exists(u, details, RouterServices(c, "udp"), "udp", udp, Carried(details, c, tcp, bindIP),
                      c.udp.services);
    c' := WithServices(WithServices(WithServices(c, "http", a), "tcp", b), "udp", d);
  }

  /** For a configuration: in every iteration order each TCP and UDP server is made from its own container alone,
      exactly when no service that selects another address than the bind IP can precede one that selects none. */
  lemma RewritingIndependentIff(u: Urls, details: Containers, c: Configuration, bindIP: string)
    requires Balanced(c.http.services) && Balanced(c.tcp.services) && Balanced(c.udp.services)
    ensures AlwaysOwn(u, details, c, bindIP) <==> NoLeak(TcpOf(details, c), UdpOf(details, c), bindIP)
  {
    if NoLeak(TcpOf(details, c), UdpOf(details, c), bindIP) {
      hide NoLeak, TcpOf, UdpOf, Rewritten, OwnServers;
      forall tcp, udp, c' | Rewritten(u, details, c, bindIP, tcp, udp, c')
        ensures OwnServers(u, details, RouterServices(c, "tcp"), "tcp", bindIP, c.tcp.services, c'.tcp.services)
        ensures OwnServers(u, details, RouterServices(c, "udp"), "udp", bindIP, c.udp.services, c'.udp.services)
      {
        NoLeakOwnServers(u, details, c, bindIP, tcp, udp, c');
      }
    } else {
      hide NoLeak, TcpOf, UdpOf, AlwaysOwn, Balanced;
      if AlwaysOwn(u, details, c, bindIP) {
        OwnIsIndependent(u, details, c, bindIP);
        IndependentIff(TcpOf(details, c), UdpOf(details, c), bindIP);
      }
    }
  }

  lemma OwnIsIndependent(u: Urls, details: Containers, c: Configuration, bindIP: string)
    requires AlwaysOwn(u, details, c, bindIP) && Balanced(c.http.services) && Balanced(c.tcp.services)
    requires Balanced(c.udp.services)
    ensures Independent(TcpOf(details, c), UdpOf(details, c), bindIP)
  {
    var a, b := TcpOf(details, c), UdpOf(details, c);
    hide AlwaysOwn, Balanced, TcpOf, UdpOf, EachOwn, IpAfter, Enumerates;
    forall t, v | Enumerates(t, a.Keys) && Enumerates(v, b.Keys)
      ensures (forall k :: k in t ==> k in a) && (forall k :: k in v ==> k in b)
      ensures EachOwn(a, t, bindIP, bindIP) && EachOwn(b, v, IpAfter(a, t, bindIP, |t|), bindIP)
    {
      OwnEveryOrder(u, details, c, bindIP, t, v);
    }
  }

  lemma NoLeakOwnServers(u: Urls, details: Containers, c: Configuration, bindIP: string, tcp: seq<string>,
                         udp: seq<string>, c': Configuration)
    requires NoLeak(TcpOf(details, c), UdpOf(details, c), bindIP) && Rewritten(u, details, c, bindIP, tcp, udp, c')
    ensures OwnServers(u, details, RouterServices(c, "tcp"), "tcp", bindIP, c.tcp.services, c'.tcp.services)
    ensures OwnServers(u, details, RouterServices(c, "udp"), "udp", bindIP, c.udp.services, c'.udp.services)
  {
    hide NoLeak, L4Upto, HttpRewritten, RouterServices, OwnServers, L4Of;
    OwnHosts(details, c, bindIP, tcp, udp);
    EachOwnServers(u, details, RouterServices(c, "tcp"), "tcp", tcp, bindIP, bindIP, c.tcp.services, c'.tcp.services);
    EachOwnServers(u, details, RouterServices(c, "udp"), "udp", udp, Carried(details, c, tcp, bindIP), bindIP,
                   c.udp.services, c'.udp.services);
  }

  lemma OwnEveryOrder(u: Urls, details: Containers, c: Configuration, bindIP: string, tcp: seq<string>,
                      udp: seq<string>)
    requires AlwaysOwn(u, details, c, bindIP) && Enumerates(tcp, c.tcp.services.Keys)
    requires Enumerates(udp, c.udp.services.Keys)
    requires Balanced(c.http.services) && Balanced(c.tcp.services) && Balanced(c.udp.services)
    ensures (forall k :: k in tcp ==> k in c.tcp.services) && (forall k :: k in udp ==> k in c.udp.services)
    ensures EachOwn(TcpOf(details, c), tcp, bindIP, bindIP)
    ensures EachOwn(UdpOf(details, c), udp, IpAfter(TcpOf(details, c), tcp, bindIP, |tcp|), bindIP)
  {
    hide RouterServices, OwnServers, L4Of, EachOwn, Balanced, L4Upto, HttpRewritten;
    var c' := RewritingExists(u, details, c, bindIP, tcp, udp);
    OwnServersEach(u, details, RouterServices(c, "tcp"), "tcp", tcp, bindIP, bindIP, c.tcp.services, c'.tcp.services);
    OwnServersEach(u, details, RouterServices(c, "udp"), "udp", udp, Carried(details, c, tcp, bindIP), bindIP,
                   c.udp.services, c'.udp.services);
  }
}
