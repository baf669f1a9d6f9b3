/** Address rewriting: which host and port each server ends up with. */
module Rewrite {
  import opened Paths
  import opened Values
  import opened Config
  import opened Redis
  import opened Removal
  import opened Services
  import opened Docker

  /** What net/url and net.SplitHostPort do; these are taken as given. */
  datatype Urls = Urls(port: string -> string, withHost: (string, string) -> string, splitPort: string -> string)

  function HostPort(ip: string, port: string): string
  {
    if port != "" then ip + ":" + port else ip
  }

  // ---------- hosts ----------

  function OverrideLabel(svcName: string): string
  {
    "kop." + StripDocker(svcName) + ".bind.ip"
  }

  /** getKopOverrideBinding, for the container that the lookup returned. */
  function GetKopOverrideBinding(found: Option<Container>, svcName: string, hostIP: string): (r: (string, bool))
    ensures r.1
            <==> found.Some?
                 && (Label(found.value, OverrideLabel(svcName)) != "" || Label(found.value, "kop.bind.ip") != "")
    ensures r.1 ==> r.0 != "" && r.0 in {Label(found.value, OverrideLabel(svcName)), Label(found.value, "kop.bind.ip")}
    ensures r.1 && r.0 != Label(found.value, OverrideLabel(svcName)) ==>
      Label(found.value, OverrideLabel(svcName)) == ""
    ensures !r.1 ==> r.0 == hostIP
  {
    if found.None? then (hostIP, false)
    else if Label(found.value, OverrideLabel(svcName)) != "" then (Label(found.value, OverrideLabel(svcName)), true)
    else if Label(found.value, "kop.bind.ip") != "" then (Label(found.value, "kop.bind.ip"), true)
    else (hostIP, false)
  }

  /** The address on the container's own network, when it has chosen one. */
  function NetworkIp(found: Option<Container>): Option<string>
  {
    if found.None? || Label(found.value, "traefik.docker.network") == "" || found.value.net.None? then None
    else
      var name, nets := Label(found.value, "traefik.docker.network"), found.value.net.value.networks;
      if name in nets then nets[name] else None
  }

  /** getContainerNetworkIP, for the container that the lookup returned. */
  function GetContainerNetworkIP(found: Option<Container>, hostIP: string): string
  {
    if NetworkIp(found).Some? then NetworkIp(found).value else hostIP
  }

  /** The sources of an HTTP server's host, best first. */
  function HostSources(found: Option<Container>, svcName: string, bindIP: string): seq<Option<string>>
  {
    var l := (k: string) => if found.Some? && Label(found.value, k) != "" then Some(Label(found.value, k)) else None;
    [l(OverrideLabel(svcName)), l("kop.bind.ip"), NetworkIp(found), Some(bindIP)]
  }

  predicate FirstSome(xs: seq<Option<string>>, r: string)
  {
    exists i :: 0 <= i < |xs| && xs[i] == Some(r) && forall j :: 0 <= j < i ==> xs[j].None?
  }

  function HttpHost(found: Option<Container>, svcName: string, bindIP: string): string
  {
    var (ip, changed) := GetKopOverrideBinding(found, svcName, bindIP);
    if changed then ip else GetContainerNetworkIP(found, ip)
  }

  /** Each HTTP server's host is the first available of per-service label, kop.bind.ip, network IP and bind IP. */
  lemma HttpHostIsFirst(found: Option<Container>, svcName: string, bindIP: string)
    ensures FirstSome(HostSources(found, svcName, bindIP), HttpHost(found, svcName, bindIP))
  {
    var xs := HostSources(found, svcName, bindIP);
    assert |xs| == 4 && xs[3] == Some(bindIP);
    var i := if xs[0].Some? then 0 else if xs[1].Some? then 1 else if xs[2].Some? then 2 else 3;
    assert xs[i] == Some(HttpHost(found, svcName, bindIP));
  }

  // ---------- servers and services ----------

  /** The port that the search starts with. */
  function InferredPort(u: Urls, proto: string, s: Server): string
  {
    if proto == "http" then (if s.addr != "" then u.port(s.addr) else s.port)
    else if s.port == "" then u.splitPort(s.addr)
    else s.port
  }

  ghost function HttpServer(u: Urls, found: Option<Container>, svcName: string, bindIP: string, s: Server): Server
  {
    var ip := HttpHost(found, svcName, bindIP);
    if s.addr != "" then
      s.(addr := u.withHost(s.addr, HostPort(ip, PortFor(found, "http", svcName, u.port(s.addr)))))
    else
      s.(addr := (if s.scheme != "" then s.scheme else "http") + "://"
         + HostPort(ip, PortFor(found, "http", svcName, s.port)))
  }

  /** A TCP or UDP server, given the address that the loop has at that point. */
  ghost function L4Server(u: Urls, found: Option<Container>, proto: string, svcName: string, ip: string,
                          s: Server): Server
  {
    var port := PortFor(found, proto, svcName, if s.port == "" then u.splitPort(s.addr) else s.port);
    s.(addr := HostPort(ip, port), port := port)
  }

  ghost function HttpServers(u: Urls, found: Option<Container>, svcName: string, bindIP: string,
                             ss: seq<Server>): (r: seq<Server>)
    ensures |r| == |ss|
  {
    seq(|ss|, i requires 0 <= i < |ss| => HttpServer(u, found, svcName, bindIP, ss[i]))
  }

  ghost function L4Servers(u: Urls, found: Option<Container>, proto: string, svcName: string, ip: string,
                           ss: seq<Server>): (r: seq<Server>)
    ensures |r| == |ss|
  {
    seq(|ss|, i requires 0 <= i < |ss| => L4Server(u, found, proto, svcName, ip, ss[i]))
  }

  // ---------- the carried address of the TCP and UDP loops ----------

  /** What a service contributes to the loop: the network address it selects, and whether it has servers at all. */
  datatype L4 = L4(selected: Option<string>, servers: nat)

  function Carry(l: L4, ip: string): string
  {
    if l.servers > 0 && l.selected.Some? then l.selected.value else ip
  }

  /** The address that the loop carries after the first n services of the order. */
  function IpAfter(m: map<string, L4>, order: seq<string>, ip: string, n: nat): string
    requires n <= |order| && forall k :: k in order ==> k in m
  {
    if n == 0 then ip else Carry(m[order[n - 1]], IpAfter(m, order, ip, n - 1))
  }

  /** The host that the servers of the service at position i get. */
  function HostAt(m: map<string, L4>, order: seq<string>, ip: string, i: nat): string
    requires i < |order| && forall k :: k in order ==> k in m
  {
    IpAfter(m, order, ip, i + 1)
  }

  /** The host that depends on the service's own container only. */
  function OwnHost(l: L4, bindIP: string): string
  {
    if l.selected.Some? then l.selected.value else bindIP
  }

  ghost predicate EachOwn(m: map<string, L4>, order: seq<string>, ip: string, bindIP: string)
    requires forall k :: k in order ==> k in m
  {
    forall i :: 0 <= i < |order| && m[order[i]].servers > 0 ==> HostAt(m, order, ip, i) == OwnHost(m[order[i]], bindIP)
  }

  /** In every iteration order, each TCP and UDP server gets the host of its own container. */
  ghost predicate Independent(tcp: map<string, L4>, udp: map<string, L4>, bindIP: string)
  {
    forall t, v :: Enumerates(t, tcp.Keys) && Enumerates(v, udp.Keys) ==>
      EachOwn(tcp, t, bindIP, bindIP) && EachOwn(udp, v, IpAfter(tcp, t, bindIP, |t|), bindIP)
  }

  /** `b` selects another address than the bind IP, and `a`, with no selection, can come after it. */
  predicate Leaks(a: L4, b: L4, bindIP: string)
  {
    a.servers > 0 && a.selected.None? && b.servers > 0 && b.selected.Some? && b.selected.value != bindIP
  }

  ghost predicate NoLeak(tcp: map<string, L4>, udp: map<string, L4>, bindIP: string)
  {
    && (forall a, b :: a in tcp && b in tcp ==> !Leaks(tcp[a], tcp[b], bindIP))
    && (forall a, b :: a in udp && b in udp ==> !Leaks(udp[a], udp[b], bindIP))
    && (forall a, b :: a in udp && b in tcp ==> !Leaks(udp[a], tcp[b], bindIP))
  }

  /** The carried address is the initial one or a selection made on the way. */
  lemma {:induction false} IpFrom(m: map<string, L4>, order: seq<string>, ip: string, n: nat)
    requires n <= |order| && forall k :: k in order ==> k in m
    ensures IpAfter(m, order, ip, n) == ip
            || exists j ::
                 0 <= j < n && m[order[j]].servers > 0 && m[order[j]].selected == Some(IpAfter(m, order, ip, n))
  {
    if n > 0 {
      IpFrom(m, order, ip, n - 1);
    }
  }

  lemma NoLeakOwn(m: map<string, L4>, order: seq<string>, ip: string, bindIP: string)
    requires forall k :: k in order ==> k in m
    requires forall a, b :: a in m && b in m ==> !Leaks(m[a], m[b], bindIP)
    requires ip == bindIP || forall a :: a in m && m[a].servers > 0 ==> m[a].selected.Some?
    ensures EachOwn(m, order, ip, bindIP)
  {
    forall i | 0 <= i < |order| && m[order[i]].servers > 0
      ensures HostAt(m, order, ip, i) == OwnHost(m[order[i]], bindIP)
    {
      if m[order[i]].selected.None? {
        IpFrom(m, order, ip, i);
        if j :| 0 <= j < i && m[order[j]].servers > 0 && m[order[j]].selected == Some(IpAfter(m, order, ip, i)) {
          assert !Leaks(m[order[i]], m[order[j]], bindIP);
        }
      }
    }
  }

  lemma NoLeakIndependent(tcp: map<string, L4>, udp: map<string, L4>, bindIP: string)
    requires NoLeak(tcp, udp, bindIP)
    ensures Independent(tcp, udp, bindIP)
  {
    forall t, v | Enumerates(t, tcp.Keys) && Enumerates(v, udp.Keys)
      ensures EachOwn(tcp, t, bindIP, bindIP) && EachOwn(udp, v, IpAfter(tcp, t, bindIP, |t|), bindIP)
    {
      NoLeakOwn(tcp, t, bindIP, bindIP);
      var ip := IpAfter(tcp, t, bindIP, |t|);
      IpFrom(tcp, t, bindIP, |t|);
      if ip != bindIP {
        var j :| 0 <= j < |t| && tcp[t[j]].servers > 0 && tcp[t[j]].selected == Some(ip);
        forall a | a in udp && udp[a].servers > 0 ensures udp[a].selected.Some? {
          assert !Leaks(udp[a], tcp[t[j]], bindIP);
        }
      }
      NoLeakOwn(udp, v, ip, bindIP);
    }
  }

  /** An order that starts with two given names. */
  lemma OrderFrom(keys: set<string>, b: string, a: string) returns (order: seq<string>)
    requires a in keys && b in keys && a != b
    ensures Enumerates(order, keys) && |order| > 1 && order[0] == b && order[1] == a
  {
    var rest := Enumeration(keys - {a, b});
    order := [b, a] + rest;
  }

  lemma OrderWithin(keys: set<string>, first: Option<string>, last: Option<string>) returns (order: seq<string>)
    requires first.Some? ==> first.value in keys && last.None?
    requires last.Some? ==> last.value in keys
    ensures Enumerates(order, keys)
    ensures first.Some? ==> |order| > 0 && order[0] == first.value
    ensures last.Some? ==> |order| > 0 && order[|order| - 1] == last.value
  {
    if first.Some? {
      var rest := Enumeration(keys - {first.value});
      order := [first.value] + rest;
    } else if last.Some? {
      var rest := Enumeration(keys - {last.value});
      order := rest + [last.value];
    } else {
      order := Enumeration(keys);
    }
  }

  lemma LeakWithin(m: map<string, L4>, ip: string, bindIP: string, a: string, b: string) returns (order: seq<string>)
    requires a in m && b in m && Leaks(m[a], m[b], bindIP)
    ensures Enumerates(order, m.Keys) && !EachOwn(m, order, ip, bindIP)
  {
    order := OrderFrom(m.Keys, b, a);
    assert IpAfter(m, order, ip, 1) == Carry(m[b], IpAfter(m, order, ip, 0));
    assert HostAt(m, order, ip, 1) == m[b].selected.value;
  }

  lemma LeakBreaks(tcp: map<string, L4>, udp: map<string, L4>, bindIP: string)
    requires !NoLeak(tcp, udp, bindIP)
    ensures !Independent(tcp, udp, bindIP)
  {
    hide Enumerates;
    if a, b :| a in tcp && b in tcp && Leaks(tcp[a], tcp[b], bindIP) {
      var t := LeakWithin(tcp, bindIP, bindIP, a, b);
      var v := Enumeration(udp.Keys);
      assert Enumerates(t, tcp.Keys) && Enumerates(v, udp.Keys);
    } else if a, b :| a in udp && b in udp && Leaks(udp[a], udp[b], bindIP) {
      var t := Enumeration(tcp.Keys);
      assert forall k :: k in t ==> k in tcp by { OrderKeys(t, tcp); }
      var v := LeakWithin(udp, IpAfter(tcp, t, bindIP, |t|), bindIP, a, b);
      assert Enumerates(t, tcp.Keys) && Enumerates(v, udp.Keys);
    } else {
      var a, b :| a in udp && b in tcp && Leaks(udp[a], tcp[b], bindIP);
      var t := OrderWithin(tcp.Keys, None, Some(b));
      var v := OrderWithin(udp.Keys, Some(a), None);
      OrderKeys(t, tcp);
      OrderKeys(v, udp);
      assert IpAfter(tcp, t, bindIP, |t|) == tcp[b].selected.value;
      var ip := tcp[b].selected.value;
      assert IpAfter(udp, v, ip, 1) == Carry(udp[v[0]], IpAfter(udp, v, ip, 0));
      assert HostAt(udp, v, ip, 0) == ip;
    }
  }

  lemma OrderKeys(order: seq<string>, m: map<string, L4>)
    requires Enumerates(order, m.Keys)
    ensures forall k :: k in order ==> k in m
  {
  }

  /** TCP and UDP rewriting depends on each server's own container, in every iteration order, exactly when no
      service that selects another address than the bind IP can precede one that selects none. */
  lemma IndependentIff(tcp: map<string, L4>, udp: map<string, L4>, bindIP: string)
    ensures Independent(tcp, udp, bindIP) <==> NoLeak(tcp, udp, bindIP)
  {
    if NoLeak(tcp, udp, bindIP) {
      NoLeakIndependent(tcp, udp, bindIP);
    } else {
      LeakBreaks(tcp, udp, bindIP);
    }
  }

  /** In particular when no TCP or UDP container selects a network IP. */
  lemma NoSelectionIndependent(tcp: map<string, L4>, udp: map<string, L4>, bindIP: string)
    requires forall k :: k in tcp ==> tcp[k].selected.None?
    requires forall k :: k in udp ==> udp[k].selected.None?
    ensures Independent(tcp, udp, bindIP)
  {
    hide Independent;
    NoLeakIndependent(tcp, udp, bindIP);
  }

  /** A concrete case: one service on its own network, visited before a plain one, hands its address to it. */
  lemma CarriedAddress()
    ensures var m := map["a" := L4(Some("10.0.0.5"), 1), "b" := L4(None, 1)];
      HostAt(m, ["a", "b"], "192.0.2.1", 1) == "10.0.0.5" && HostAt(m, ["b", "a"], "192.0.2.1", 0) == "192.0.2.1"
  {
    var m := map["a" := L4(Some("10.0.0.5"), 1), "b" := L4(None, 1)];
    assert IpAfter(m, ["a", "b"], "192.0.2.1", 1) == Carry(m["a"], IpAfter(m, ["a", "b"], "192.0.2.1", 0));
    assert IpAfter(m, ["b", "a"], "192.0.2.1", 1) == Carry(m["b"], IpAfter(m, ["b", "a"], "192.0.2.1", 0));
  }

  // ---------- rewriting keeps configurations well-formed ----------

  lemma ServerRewf(path: seq<string>, proto: string, s: Server, s': Server)
    requires Wf(path, ServerValue(proto, s)) && s'.rest == s.rest
    ensures Wf(path, ServerValue(proto, s'))
  {
    var fs := [F(AddrField(proto), Str(s.addr))] + s.rest;
    var v := ServerValue(proto, s);
    assert WfFields(path, fs);
    TextWf(path + [AddrField(proto)], s'.addr);
    WfReplace(path, fs, 0, AddrField(proto), Str(s.addr), Str(s'.addr));
    assert fs[0 := F(AddrField(proto), Str(s'.addr))] == [F(AddrField(proto), Str(s'.addr))] + s'.rest;
  }

  lemma TextWf(path: seq<string>, text: string)
    ensures Wf(path, Str(text))
  {
  }

  lemma ServersRewf(path: seq<string>, proto: string, ss: seq<Server>, ss': seq<Server>)
    requires Wf(path, ServersValue(proto, ss)) && |ss'| == |ss|
    requires forall i :: 0 <= i < |ss| ==> ss'[i].rest == ss[i].rest
    ensures Wf(path, ServersValue(proto, ss'))
  {
    hide ServerValue;
    var v, v' := ServersValue(proto, ss), ServersValue(proto, ss');
    forall i | 0 <= i < |ss'| ensures Wf(path + [Dec(i)], v'.items[i]) {
      assert v.items[i] == ServerValue(proto, ss[i]) && v'.items[i] == ServerValue(proto, ss'[i]);
      ServerRewf(path + [Dec(i)], proto, ss[i], ss'[i]);
    }
  }
}
