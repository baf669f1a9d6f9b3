/** Which labels and port bindings of a container decide, written out. `n` stands for a name without "@docker". */
module Labels {
  import opened Paths
  import opened Values
  import opened Config
  import opened Docker
  import opened Merge
  import Services

  /** findContainerByServiceName: a label of the service, or of its router when it has one. */
  lemma MatchSpelled(c: Container, svcType: string, svcName: string, n: string, routerName: string, r: string)
    requires Bare(svcName, n) && Bare(routerName, r)
    ensures Matches(c, svcType, svcName, routerName)
            <==> exists k :: k in c.labels &&
                   ("traefik." + svcType + ".services." + n + "." <= k
                    || (r != "" && "traefik." + svcType + ".routers." + r + "." <= k))
  {
    hide StripDocker;
    StripIsBare(svcName, n);
    StripIsBare(routerName, r);
    assert "traefik." + svcType + "." + "services" + "." + n + "." == "traefik." + svcType + ".services." + n + ".";
    assert "traefik." + svcType + "." + "routers" + "." + r + "." == "traefik." + svcType + ".routers." + r + ".";
  }

  /** getRouterOfService: a router that names the service without "@docker". */
  lemma RouterSpelled(routers: map<string, string>, svcName: string, n: string, name: string)
    requires Bare(svcName, n)
    ensures RouterFor(routers, svcName, name)
            <==> (name in routers && routers[name] == n)
                 || (name == "" && forall m :: m in routers ==> routers[m] != n)
  {
    hide StripDocker;
    StripIsBare(svcName, n);
    assert forall m :: RoutesTo(routers, m, svcName) <==> m in routers && routers[m] == n;
  }

  /** The routers are those of the service's own protocol. */
  lemma RouterOfService(c: Configuration, proto: string, svcName: string, n: string, name: string)
    requires Bare(svcName, n) && proto in PROTOCOLS
    ensures var routers := if proto == "http" then c.http.routers else if proto == "tcp" then c.tcp.routers
                           else c.udp.routers;
      RouterFor(Services.RouterServices(c, proto), svcName, name)
      <==> (name in routers && routers[name].Some? && routers[name].value.service == n)
           || (name == "" && forall m :: m in routers && routers[m].Some? ==> routers[m].value.service != n)
  {
    hide RouterFor;
    var routers := if proto == "http" then c.http.routers else if proto == "tcp" then c.tcp.routers else c.udp.routers;
    var services := Services.RouterServices(c, proto);
    RouterSpelled(services, svcName, n, name);
    assert forall m :: m in services <==> m in routers && routers[m].Some?;
  }

  /** Merging is asked for by a true value of one of two labels. */
  lemma WantsMergeSpelled(c: Container)
    ensures !WantsMerge(None)
    ensures WantsMerge(Some(c))
            <==> exists l, t :: l in ["kop.merge-lbs", "traefik.merge-lbs"] && l in c.labels
                                && t in ["1", "t", "T", "TRUE", "true", "True"] && c.labels[l] == t
  {
    var names, texts := ["kop.merge-lbs", "traefik.merge-lbs"], ["1", "t", "T", "TRUE", "true", "True"];
    forall l ensures l in names <==> l == "kop.merge-lbs" || l == "traefik.merge-lbs" {}
    forall t ensures t in texts <==> ParseBool(t) {}
    assert !ParseBool("");
  }

  // ---------- ports ----------

  /** Nothing usable is configured: no port, or a single one that is unbound or bound to no certain host port. */
  ghost predicate NothingConfigured(m: PortMap)
  {
    |m| == 0
    || (|m| == 1
        && exists k :: k in m
                       && (|m[k]| == 0
                           || (|m[k]| == 1 && (m[k][0].hostPort == "" || m[k][0].hostPort == "0"))))
  }

  /** `p` is the one configured host port, or else the first runtime host port of the one published port. */
  ghost predicate PublishedAs(c: Container, p: string)
  {
    c.host.Some? && p != "" &&
    (var m := c.host.value;
     || (|m| == 1 && p != "0" && exists k :: k in m && |m[k]| == 1 && m[k][0].hostPort == p)
     || (NothingConfigured(m) && c.net.Some? && |c.net.value.ports| == 1
         && exists k :: k in c.net.value.ports && |c.net.value.ports[k]| > 0
                        && c.net.value.ports[k][0].hostPort == p))
  }

  /** More than one port, or more than one binding of the only port. */
  ghost predicate ManyConfigured(m: PortMap)
  {
    |m| > 1 || (|m| == 1 && exists k :: k in m && |m[k]| > 1)
  }

  lemma SoleSpelled(c: Container, p: string)
    requires c.host.Some?
    ensures SolePort(c) == Port(p) <==> PublishedAs(c, p)
    ensures SolePort(c) == Ambiguous <==> ManyConfigured(c.host.value)
  {
    OneEntry(c.host.value);
    if c.net.Some? { OneEntry(c.net.value.ports); }
    hide Only;
  }

  lemma OneEntry(m: PortMap)
    ensures |m| == 1 ==> (exists k :: k in m && m[k] == Only(m)) && forall k :: k in m ==> m[k] == Only(m)
  {
    hide Only;
    if |m| == 1 {
      assert m.Keys != {};
      forall k | k in m ensures m[k] == Only(m) { OnlyIs(m, k); }
      var k :| k in m;
    }
  }

  /** getContainerPort: the host port bound for the asked port, which is the label's or else the given one; then the
      label itself, then the sole published port, then the given one. */
  ghost predicate ResolvedAs(c: Container, svcType: string, n: string, given: string, r: string)
  {
    var l := "traefik." + svcType + ".services." + n + ".loadbalancer.server.port";
    var explicit := if l in c.labels then c.labels[l] else "";
    var asked := if explicit != "" then explicit else given;
    var key := if svcType == "udp" then asked + "/udp" else asked + "/tcp";
    if !BoundAs(c, key, "") then r != "" && BoundAs(c, key, r)
    else if explicit != "" then r == explicit
    else if exists p :: PublishedAs(c, p) then PublishedAs(c, r)
    else r == given
  }

  /** Without a container the given port stays. */
  lemma ResolvesSpelled(found: Option<Container>, svcType: string, svcName: string, n: string, given: string, r: string)
    requires Bare(svcName, n) && Resolves(found, svcType, svcName, given, r)
    ensures if found.None? then r == given else ResolvedAs(found.value, svcType, n, given, r)
  {
    hide StripDocker, FirstUsable, Candidates, BoundAs, SolePort, PublishedAs;
    StripIsBare(svcName, n);
    if found.Some? {
      var c := found.value;
      var asked := Asked(IsPortSet(c, svcType, svcName), given);
      assert asked + "/" + "tcp" == asked + "/tcp" && asked + "/" + "udp" == asked + "/udp";
      BoundIs(c, PortKey(svcType, asked), "");
      BoundIs(c, PortKey(svcType, asked), r);
      if c.host.Some? {
        forall p ensures SolePort(c) == Port(p) <==> PublishedAs(c, p) { SoleSpelled(c, p); }
      } else {
        NoHost(c);
      }
    }
  }

  lemma NoHost(c: Container)
    requires c.host.None?
    ensures forall p :: !PublishedAs(c, p)
  {
  }
}
