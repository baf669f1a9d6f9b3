/** What replaceIPs makes of each server, written out on the rewritten configuration. `n` stands for the service's name
    without "@docker". */
module Addresses {
  import opened Paths
  import opened Values
  import opened Config
  import opened Readback
  import opened Services
  import opened Rewrite
  import opened Refresh
  import opened Labels
  import Docker

  // ---------- hosts ----------

  predicate HasLabel(c: Docker.Container, l: string)
  {
    l in c.labels && c.labels[l] != ""
  }

  /** The container is to be reached on the network that it names, at this address. */
  ghost predicate OnNetwork(found: Option<Docker.Container>, h: string)
  {
    && found.Some? && HasLabel(found.value, "traefik.docker.network") && found.value.net.Some?
    && found.value.labels["traefik.docker.network"] in found.value.net.value.networks
    && found.value.net.value.networks[found.value.labels["traefik.docker.network"]] == Some(h)
  }

  /** The host of an HTTP server: the service's own label, then kop.bind.ip, then the network address, then the bind
      IP. */
  ghost predicate HttpHostOf(found: Option<Docker.Container>, n: string, bindIP: string, h: string)
  {
    var own := "kop." + n + ".bind.ip";
    if found.Some? && HasLabel(found.value, own) then h == found.value.labels[own]
    else if found.Some? && HasLabel(found.value, "kop.bind.ip") then h == found.value.labels["kop.bind.ip"]
    else OnNetwork(found, h) || (h == bindIP && forall x :: !OnNetwork(found, x))
  }

  lemma NetworkIpSpelled(found: Option<Docker.Container>, h: string)
    ensures NetworkIp(found) == Some(h) <==> OnNetwork(found, h)
    ensures NetworkIp(found) == None <==> forall x :: !OnNetwork(found, x)
  {
    if NetworkIp(found).Some? {
      assert OnNetwork(found, NetworkIp(found).value);
    }
  }

  lemma HttpHostSpelled(found: Option<Docker.Container>, svcName: string, n: string, bindIP: string)
    requires Bare(svcName, n)
    ensures HttpHostOf(found, n, bindIP, HttpHost(found, svcName, bindIP))
  {
    hide StripDocker, NetworkIp, OnNetwork;
    StripIsBare(svcName, n);
    NetworkIpSpelled(found, bindIP);
    if NetworkIp(found).Some? { NetworkIpSpelled(found, NetworkIp(found).value); }
  }

  /** The port of a server, from the one it had. */
  ghost predicate PortOf(found: Option<Docker.Container>, proto: string, n: string, given: string, p: string)
  {
    if found.None? then p == given else ResolvedAs(found.value, proto, n, given, p)
  }

  lemma PortSpelled(found: Option<Docker.Container>, proto: string, svcName: string, n: string, given: string)
    requires Bare(svcName, n)
    ensures PortOf(found, proto, n, given, Docker.PortFor(found, proto, svcName, given))
  {
    hide ResolvedAs, Docker.Resolves, Docker.PortFor;
    ResolvesSpelled(found, proto, svcName, n, given, Docker.PortFor(found, proto, svcName, given));
  }

  /** As many servers as before, and everything else of the service as it was. */
  ghost predicate OnlyServersChange(s: Option<Service>, s': Option<Service>)
  {
    && s.Some? && s'.Some? && s.value.lb.Some? && s'.value.lb.Some?
    && |s'.value.lb.value.servers| == |s.value.lb.value.servers|
    && s'.value.lb.value.rest == s.value.lb.value.rest && s'.value.rest == s.value.rest
  }

  /** HTTP: the address with the resolved host and port put into it, or one made of scheme, host and port. Nothing else
      of the server changes. */
  lemma HttpAddress(u: Urls, details: Containers, routers: Routers, bindIP: string, services: ServiceMap,
                    services': ServiceMap, k: string, n: string, i: nat)
    returns (found: Option<Docker.Container>, h: string, p: string)
    requires HttpRewritten(u, details, routers, bindIP, services, services') && k in services && Bare(k, n)
    requires i < |ServersOf(services[k])|
    ensures k in services' && OnlyServersChange(services[k], services'[k])
    ensures Docker.CanFind(details, routers, "http", k, found) && HttpHostOf(found, n, bindIP, h)
    ensures var s, s' := ServersOf(services[k])[i], ServersOf(services'[k])[i];
      var hostPort := if p != "" then h + ":" + p else h;
      && s' == s.(addr := s'.addr)
      && PortOf(found, "http", n, if s.addr != "" then u.port(s.addr) else s.port, p)
      && s'.addr == if s.addr != "" then u.withHost(s.addr, hostPort)
                    else if s.scheme != "" then s.scheme + "://" + hostPort
                    else "http://" + hostPort
  {
    hide HttpRewritten, HttpHost, HttpHostOf, PortOf, Docker.PortFor, Docker.Found, Docker.CanFind;
    HttpServersInPlace(u, details, routers, bindIP, services, services', k, i);
    assert OnlyServersChange(services[k],
                             services'[k]) by { HttpRest(u, details, routers, bindIP, services, services', k); }
    var s := ServersOf(services[k])[i];
    var given := if s.addr != "" then u.port(s.addr) else s.port;
    found := Docker.Found(details, routers, "http", k);
    h, p := HttpHost(found, k, bindIP), Docker.PortFor(found, "http", k, given);
    HttpHostSpelled(found, k, n, bindIP);
    PortSpelled(found, "http", k, n, given);
    assert "http" + "://" == "http://";
  }

  lemma HttpRest(u: Urls, details: Containers, routers: Routers, bindIP: string, services: ServiceMap,
                 services': ServiceMap, k: string)
    requires HttpRewritten(u, details, routers, bindIP, services, services') && k in services
    ensures k in services' && OnlyServersChange(services[k], services'[k])
  {
    hide Docker.Found, HttpServer;
    assert HttpService(u, details, routers, bindIP, k, services[k], services'[k]);
  }

  // ---------- TCP and UDP ----------

  /** A service with servers whose container is on a network of its own. */
  ghost predicate Selects(details: Containers, routers: Routers, proto: string, services: ServiceMap, name: string,
                          h: string)
  {
    && name in services && |ServersOf(services[name])| > 0
    && OnNetwork(Docker.Found(details, routers, proto, name), h)
  }

  ghost predicate SelectsNone(details: Containers, routers: Routers, proto: string, services: ServiceMap, name: string)
  {
    forall x :: !Selects(details, routers, proto, services, name, x)
  }

  /** The last selection among the first `count` services of the order, or the address from before the loop. */
  ghost predicate LastSelected(details: Containers, routers: Routers, proto: string, services: ServiceMap,
                               order: seq<string>, ip: string, count: nat, h: string)
    requires count <= |order|
  {
    || (exists m :: 0 <= m < count && Selects(details, routers, proto, services, order[m], h)
                    && forall l :: m < l < count ==> SelectsNone(details, routers, proto, services, order[l]))
    || (h == ip && forall l :: 0 <= l < count ==> SelectsNone(details, routers, proto, services, order[l]))
  }

  lemma SelectedIs(details: Containers, routers: Routers, proto: string, services: ServiceMap, name: string, ip: string)
    requires name in services
    ensures var h := Carry(L4Of(details, routers, proto, services)[name], ip);
      Selects(details, routers, proto, services, name, h)
      || (h == ip && SelectsNone(details, routers, proto, services, name))
  {
    hide NetworkIp, OnNetwork, Docker.Found, L4Of;
    L4At(details, routers, proto, services, name);
    var found := Docker.Found(details, routers, proto, name);
    NetworkIpSpelled(found, ip);
    if NetworkIp(found).Some? { NetworkIpSpelled(found, NetworkIp(found).value); }
  }

  lemma {:induction false} CarriedIs(details: Containers, routers: Routers, proto: string, services: ServiceMap,
                                     order: seq<string>, ip: string, count: nat)
    requires count <= |order| && forall k :: k in order ==> k in services
    ensures LastSelected(details, routers, proto, services, order, ip, count,
                         IpAfter(L4Of(details, routers, proto, services), order, ip, count))
  {
    hide Selects, SelectsNone, L4Of, Carry;
    if count > 0 {
      CarriedIs(details, routers, proto, services, order, ip, count - 1);
      SelectedIs(details, routers, proto, services, order[count - 1],
                 IpAfter(L4Of(details, routers, proto, services), order, ip, count - 1));
    }
  }

  /** Where the service comes in the order, and the address that the loop has there. */
  lemma L4Place(u: Urls, details: Containers, routers: Routers, proto: string, order: seq<string>, ip: string,
                services: ServiceMap, services': ServiceMap, k: string)
    returns (j: nat, h: string)
    requires L4Rewritten(u, details, routers, proto, order, ip, services, services') && k in services
    ensures (forall l :: l in order ==> l in services) && k in services'
    ensures j < |order| && order[j] == k && h == IpAfter(L4Of(details, routers, proto, services), order, ip, j + 1)
    ensures L4Service(u, details, routers, proto, h, k, services[k], services'[k])
  {
    hide L4Service, L4Of, IpAfter;
    assert k in order;
    j :| 0 <= j < |order| && order[j] == k;
    h := HostAt(L4Of(details, routers, proto, services), order, ip, j);
  }

  /** TCP and UDP: the carried address and the resolved port, at whichever place of the order the service comes. */
  lemma L4Address(u: Urls, details: Containers, routers: Routers, proto: string, order: seq<string>, ip: string,
                  services: ServiceMap, services': ServiceMap, k: string, n: string, i: nat)
    returns (found: Option<Docker.Container>, j: nat, h: string, p: string)
    requires L4Rewritten(u, details, routers, proto, order, ip, services, services') && k in services && Bare(k, n)
    requires i < |ServersOf(services[k])|
    ensures k in services' && OnlyServersChange(services[k], services'[k])
    ensures Docker.CanFind(details, routers, proto, k, found)
    ensures j < |order| && order[j] == k && LastSelected(details, routers, proto, services, order, ip, j + 1, h)
    ensures var s, s' := ServersOf(services[k])[i], ServersOf(services'[k])[i];
      && PortOf(found, proto, n, if s.port == "" then u.splitPort(s.addr) else s.port, p)
      && s' == s.(addr := if p != "" then h + ":" + p else h, port := p)
  {
    hide PortOf, Docker.PortFor, Docker.Found, Docker.CanFind, L4Of, LastSelected, IpAfter, L4Rewritten, HostPort;
    found := Docker.Found(details, routers, proto, k);
    j, h := L4Place(u, details, routers, proto, order, ip, services, services', k);
    CarriedIs(details, routers, proto, services, order, ip, j + 1);
    var s := ServersOf(services[k])[i];
    var given := if s.port == "" then u.splitPort(s.addr) else s.port;
    p := Docker.PortFor(found, proto, k, given);
    HostPortSpelled(h, p);
    PortSpelled(found, proto, k, n, given);
  }

  lemma HostPortSpelled(h: string, p: string)
    ensures HostPort(h, p) == if p != "" then h + ":" + p else h
  {
  }

  /** A whole configuration: HTTP servers by themselves, TCP starting from the bind IP, UDP from what TCP left. */
  lemma EachProtocol(u: Urls, details: Containers, c: Configuration, bindIP: string, tcp: seq<string>,
                     udp: seq<string>, c': Configuration)
    returns (ip: string)
    requires Rewritten(u, details, c, bindIP, tcp, udp, c')
    ensures HttpRewritten(u, details, RouterServices(c, "http"), bindIP, c.http.services, c'.http.services)
    ensures L4Rewritten(u, details, RouterServices(c, "tcp"), "tcp", tcp, bindIP, c.tcp.services, c'.tcp.services)
    ensures L4Rewritten(u, details, RouterServices(c, "udp"), "udp", udp, ip, c.udp.services, c'.udp.services)
    ensures LastSelected(details, RouterServices(c, "tcp"), "tcp", c.tcp.services, tcp, bindIP, |tcp|, ip)
    ensures c' == c.(http := c.http.(services := c'.http.services), tcp := c.tcp.(services := c'.tcp.services),
                     udp := c.udp.(services := c'.udp.services))
  {
    hide HttpRewritten, L4Rewritten, LastSelected, RouterServices, L4Of, IpAfter;
    ip := Carried(details, c, tcp, bindIP);
    CarriedIs(details, RouterServices(c, "tcp"), "tcp", c.tcp.services, tcp, bindIP, |tcp|);
  }
}
