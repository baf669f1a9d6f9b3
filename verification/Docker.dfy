/** Container lookup and port resolution. Map iteration picks any remaining entry; the results do not depend on it. */
module Docker {
  import opened Paths
  import opened Values

  datatype Binding = Binding(hostPort: string)

  type PortMap = map<string, seq<Binding>>

  /** `networks`: the IP address of each endpoint; None is a nil endpoint. */
  datatype NetworkSettings = NetworkSettings(ports: PortMap, networks: map<string, Option<string>>)

  /** The parts of an inspect result that are read; a nil HostConfig or NetworkSettings is None. */
  datatype Container = Container(id: string, labels: map<string, string>, host: Option<PortMap>,
                                 net: Option<NetworkSettings>)

  /** Reading a label map: a missing label is empty. */
  function Label(c: Container, k: string): string
  {
    if k in c.labels then c.labels[k] else ""
  }

  // ---------- lookup ----------

  function Needle(kind: string, svcType: string, name: string): string
  {
    "traefik." + svcType + "." + kind + "." + StripDocker(name) + "."
  }

  predicate MatchesLabel(k: string, svcType: string, svcName: string, routerName: string)
  {
    Needle("services", svcType, svcName) <= k
    || (StripDocker(routerName) != "" && Needle("routers", svcType, routerName) <= k)
  }

  predicate Matches(c: Container, svcType: string, svcName: string, routerName: string)
  {
    exists k :: k in c.labels && MatchesLabel(k, svcType, svcName, routerName)
  }

  predicate RoutesTo(routers: map<string, string>, name: string, svcName: string)
  {
    name in routers && routers[name] == StripDocker(svcName)
  }

  /** A name that getRouterOfService may return; `routers` gives the service of each router. */
  ghost predicate RouterFor(routers: map<string, string>, svcName: string, name: string)
  {
    RoutesTo(routers, name, svcName) || (name == "" && forall n :: !RoutesTo(routers, n, svcName))
  }

  method GetRouterOfService(routers: map<string, string>, svcName: string) returns (name: string)
    ensures RouterFor(routers, svcName, name)
  {
    name := "";
    var todo := routers.Keys;
    while todo != {}
      invariant todo <= routers.Keys
      invariant forall n :: n in routers.Keys - todo ==> !RoutesTo(routers, n, svcName)
      decreases todo
    {
      var n :| n in todo;
      todo := todo - {n};
      if routers[n] == StripDocker(svcName) {
        return n;
      }
    }
  }

  /** A result that findContainerByServiceName may return. */
  ghost predicate MayFind(details: map<string, Container>, svcType: string, svcName: string, routerName: string,
                          r: Option<Container>)
  {
    match r
    case Some(c) => exists id :: id in details && details[id] == c && Matches(c, svcType, svcName, routerName)
    case None => forall id :: id in details ==> !Matches(details[id], svcType, svcName, routerName)
  }

  method FindContainerByServiceName(details: map<string, Container>, svcType: string, svcName: string,
                                    routerName: string)
    returns (r: Option<Container>)
    ensures MayFind(details, svcType, svcName, routerName, r)
  {
    var todo := details.Keys;
    while todo != {}
      invariant todo <= details.Keys
      invariant forall id :: id in details.Keys - todo ==> !Matches(details[id], svcType, svcName, routerName)
      decreases todo
    {
      var id :| id in todo;
      todo := todo - {id};
      var c := details[id];
      var labels := c.labels.Keys;
      while labels != {}
        invariant labels <= c.labels.Keys
        invariant forall k :: k in c.labels.Keys - labels ==> !MatchesLabel(k, svcType, svcName, routerName)
        decreases labels
      {
        var k :| k in labels;
        labels := labels - {k};
        if MatchesLabel(k, svcType, svcName, routerName) {
          return Some(c);
        }
      }
    }
    return None;
  }

  /** A result of the whole lookup, for some router of the service. */
  ghost predicate CanFind(details: map<string, Container>, routers: map<string, string>, svcType: string,
                          svcName: string, r: Option<Container>)
  {
    exists name :: RouterFor(routers, svcName, name) && MayFind(details, svcType, svcName, name, r)
  }

  ghost predicate Unambiguous(details: map<string, Container>, routers: map<string, string>, svcType: string,
                              svcName: string)
  {
    forall r, s :: CanFind(details, routers, svcType, svcName, r) && CanFind(details, routers, svcType, svcName, s) ==>
      r == s
  }

  method Lookup(details: map<string, Container>, routers: map<string, string>, svcType: string, svcName: string)
    returns (r: Option<Container>)
    ensures CanFind(details, routers, svcType, svcName, r)
  {
    var name := GetRouterOfService(routers, svcName);
    r := FindContainerByServiceName(details, svcType, svcName, name);
  }

  lemma SomeRouter(routers: map<string, string>, svcName: string) returns (name: string)
    ensures RouterFor(routers, svcName, name)
  {
    if n :| RoutesTo(routers, n, svcName) {
      name := n;
    } else {
      name := "";
    }
  }

  lemma SomeFind(details: map<string, Container>, routers: map<string, string>, svcType: string, svcName: string)
    ensures exists r :: CanFind(details, routers, svcType, svcName, r)
  {
    var name := SomeRouter(routers, svcName);
    hide RouterFor;
    var r: Option<Container>;
    if id :| id in details && Matches(details[id], svcType, svcName, name) {
      r := Some(details[id]);
    } else {
      r := None;
    }
    assert MayFind(details, svcType, svcName, name, r);
    assert CanFind(details, routers, svcType, svcName, r);
  }

  /** The container of a service; where the lookup is ambiguous, one of those it may return. */
  ghost function Found(details: map<string, Container>, routers: map<string, string>, svcType: string,
                       svcName: string): (r: Option<Container>)
    ensures CanFind(details, routers, svcType, svcName, r)
  {
    SomeFind(details, routers, svcType, svcName);
    var r :| CanFind(details, routers, svcType, svcName, r); r
  }

  // ---------- ports ----------

  predicate Usable(b: Binding)
  {
    b.hostPort != "" && b.hostPort != "0"
  }

  function PortLabel(svcType: string, svcName: string): string
  {
    "traefik." + svcType + ".services." + StripDocker(svcName) + ".loadbalancer.server.port"
  }

  /** isPortSet */
  function IsPortSet(c: Container, svcType: string, svcName: string): string
  {
    Label(c, PortLabel(svcType, svcName))
  }

  function PortKey(svcType: string, port: string): string
  {
    port + "/" + (if svcType == "udp" then "udp" else "tcp")
  }

  function BindingsOf(m: PortMap, key: string): seq<Binding>
  {
    if key in m then m[key] else []
  }

  /** All bindings of a port: runtime bindings first, then configured ones. */
  function Candidates(c: Container, key: string): seq<Binding>
  {
    (if c.net.Some? then BindingsOf(c.net.value.ports, key) else [])
    + (if c.host.Some? then BindingsOf(c.host.value, key) else [])
  }

  /** `r` is the port of the first usable binding, or empty when there is none. */
  predicate FirstUsable(bs: seq<Binding>, r: string)
  {
    if r == "" then forall i :: 0 <= i < |bs| ==> !Usable(bs[i])
    else exists i :: 0 <= i < |bs| && Usable(bs[i]) && bs[i].hostPort == r && forall j :: 0 <= j < i ==> !Usable(bs[j])
  }

  lemma FirstUsableUnique(bs: seq<Binding>, r: string, s: string)
    requires FirstUsable(bs, r) && FirstUsable(bs, s)
    ensures r == s
  {
    if r != "" && s != "" {
      var i :| 0 <= i < |bs| && Usable(bs[i]) && bs[i].hostPort == r && forall j :: 0 <= j < i ==> !Usable(bs[j]);
      var k :| 0 <= k < |bs| && Usable(bs[k]) && bs[k].hostPort == s && forall j :: 0 <= j < k ==> !Usable(bs[j]);
      assert i == k;
    }
  }

  lemma FirstUsableAppend(a: seq<Binding>, b: seq<Binding>, r: string)
    requires FirstUsable(a, "")
    ensures FirstUsable(b, r) ==> FirstUsable(a + b, r)
  {
    if FirstUsable(b, r) && r != "" {
      var i :| 0 <= i < |b| && Usable(b[i]) && b[i].hostPort == r && forall j :: 0 <= j < i ==> !Usable(b[j]);
      assert (a + b)[|a| + i] == b[i];
      forall j | 0 <= j < |a| + i ensures !Usable((a + b)[j]) {
        if j >= |a| { assert (a + b)[j] == b[j - |a|]; }
      }
    }
  }

  lemma FirstUsablePrefix(a: seq<Binding>, b: seq<Binding>, r: string)
    requires FirstUsable(a, r) && r != ""
    ensures FirstUsable(a + b, r)
  {
    var i :| 0 <= i < |a| && Usable(a[i]) && a[i].hostPort == r && forall j :: 0 <= j < i ==> !Usable(a[j]);
    assert (a + b)[i] == a[i];
    forall j | 0 <= j < i ensures !Usable((a + b)[j]) { assert (a + b)[j] == a[j]; }
  }

  ghost function FirstPort(bs: seq<Binding>): (r: string)
    ensures FirstUsable(bs, r)
  {
    if bs == [] then ""
    else if Usable(bs[0]) then assert FirstUsable(bs, bs[0].hostPort); bs[0].hostPort
    else
      FirstUsableAppend([bs[0]], bs[1..], FirstPort(bs[1..]));
      assert [bs[0]] + bs[1..] == bs;
      FirstPort(bs[1..])
  }

  // ---------- the same on the port maps themselves ----------

  function Runtime(c: Container): Option<PortMap>
  {
    if c.net.Some? then Some(c.net.value.ports) else None
  }

  /** The first host port listed under the key in this map; "" and "0" stand for no port. */
  ghost predicate FirstIn(m: Option<PortMap>, key: string, r: string)
  {
    m.Some? && key in m.value && r != "" && r != "0"
    && exists i :: 0 <= i < |m.value[key]| && m.value[key][i].hostPort == r
                   && forall j :: 0 <= j < i ==> m.value[key][j].hostPort == "" || m.value[key][j].hostPort == "0"
  }

  ghost predicate NoneIn(m: Option<PortMap>, key: string)
  {
    m.Some? && key in m.value ==>
      forall i :: 0 <= i < |m.value[key]| ==> m.value[key][i].hostPort == "" || m.value[key][i].hostPort == "0"
  }

  /** The runtime map decides when it has a port under the key, then the configured map; "" when neither has. */
  ghost predicate BoundAs(c: Container, key: string, r: string)
  {
    || FirstIn(Runtime(c), key, r)
    || (NoneIn(Runtime(c), key) && FirstIn(c.host, key, r))
    || (NoneIn(Runtime(c), key) && NoneIn(c.host, key) && r == "")
  }

  lemma FirstInIs(m: Option<PortMap>, key: string, r: string)
    ensures var bs := if m.Some? then BindingsOf(m.value, key) else [];
      && (FirstUsable(bs, "") <==> NoneIn(m, key))
      && (r != "" ==> (FirstUsable(bs, r) <==> FirstIn(m, key, r)))
  {
  }

  lemma FirstOfTwo(a: seq<Binding>, b: seq<Binding>, r: string)
    ensures FirstUsable(a + b, r)
            <==> (FirstUsable(a, r) && r != "") || (FirstUsable(a, "") && FirstUsable(b, r))
  {
    hide FirstUsable, Usable;
    var p, q := FirstPort(a), FirstPort(b);
    if p != "" {
      FirstUsablePrefix(a, b, p);
      if FirstUsable(a + b, r) { FirstUsableUnique(a + b, p, r); }
      if FirstUsable(a, "") { FirstUsableUnique(a, p, ""); }
      if FirstUsable(a, r) { FirstUsableUnique(a, p, r); }
    } else {
      FirstUsableAppend(a, b, q);
      if FirstUsable(a + b, r) { FirstUsableUnique(a + b, q, r); }
      if FirstUsable(b, r) { FirstUsableUnique(b, q, r); }
      if FirstUsable(a, r) { FirstUsableUnique(a, "", r); }
    }
  }

  lemma BoundIs(c: Container, key: string, r: string)
    ensures FirstUsable(Candidates(c, key), r) <==> BoundAs(c, key, r)
  {
    hide FirstUsable, FirstIn, NoneIn, BindingsOf;
    var a := if c.net.Some? then BindingsOf(c.net.value.ports, key) else [];
    var b := if c.host.Some? then BindingsOf(c.host.value, key) else [];
    FirstOfTwo(a, b, r);
    FirstInIs(Runtime(c), key, r);
    FirstInIs(c.host, key, r);
    if FirstIn(Runtime(c), key, r) || FirstIn(c.host, key, r) { NotEmptyPort(Runtime(c), c.host, key, r); }
  }

  lemma NotEmptyPort(m: Option<PortMap>, n: Option<PortMap>, key: string, r: string)
    requires FirstIn(m, key, r) || FirstIn(n, key, r)
    ensures r != "" && r != "0"
  {
  }

  /** HTTP and TCP services are bound under port/tcp, UDP services under port/udp; "0" is never an answer. */
  ghost predicate ServiceBinding(c: Container, svcType: string, port: string, r: string)
  {
    && (svcType == "http" || svcType == "tcp" ==> BoundAs(c, port + "/tcp", r))
    && (svcType == "udp" ==> BoundAs(c, port + "/udp", r))
    && r != "0"
  }

  lemma ServiceBindingIs(c: Container, svcType: string, port: string, r: string)
    requires FirstUsable(Candidates(c, PortKey(svcType, port)), r)
    ensures ServiceBinding(c, svcType, port, r)
  {
    hide FirstUsable, Candidates;
    BoundIs(c, PortKey(svcType, port), r);
    assert port + "/" + "tcp" == port + "/tcp" && port + "/" + "udp" == port + "/udp";
  }

  /** Two containers with the same entries except under one key. */
  ghost predicate SameBut(a: Container, b: Container, key: string)
  {
    && (a.net.Some? <==> b.net.Some?) && (a.host.Some? <==> b.host.Some?)
    && (a.net.Some? ==> a.net.value.ports - {key} == b.net.value.ports - {key})
    && (a.host.Some? ==> a.host.value - {key} == b.host.value - {key})
  }

  /** What is bound for one transport cannot change the answer for the other. */
  lemma OtherTransport(a: Container, b: Container, port: string, r: string)
    ensures SameBut(a, b, port + "/udp") ==> (BoundAs(a, port + "/tcp", r) <==> BoundAs(b, port + "/tcp", r))
    ensures SameBut(a, b, port + "/tcp") ==> (BoundAs(a, port + "/udp", r) <==> BoundAs(b, port + "/udp", r))
  {
    hide FirstIn, NoneIn;
    var t, u := port + "/tcp", port + "/udp";
    assert t[|port| + 1] == 't' && u[|port| + 1] == 'u';
    if SameBut(a, b, u) {
      SameAnswer(Runtime(a), Runtime(b), u, t, r);
      SameAnswer(a.host, b.host, u, t, r);
    }
    if SameBut(a, b, t) {
      SameAnswer(Runtime(a), Runtime(b), t, u, r);
      SameAnswer(a.host, b.host, t, u, r);
    }
  }

  lemma SameAnswer(m: Option<PortMap>, n: Option<PortMap>, other: string, key: string, r: string)
    requires (m.Some? <==> n.Some?) && (m.Some? ==> m.value - {other} == n.value - {other}) && key != other
    ensures FirstIn(m, key, r) == FirstIn(n, key, r) && NoneIn(m, key) == NoneIn(n, key)
  {
    if m.Some? {
      assert key in m.value <==> key in m.value - {other};
      assert key in n.value <==> key in n.value - {other};
      assert key in m.value ==> m.value[key] == (m.value - {other})[key] == n.value[key];
    }
  }

  /** getServicePortBinding: over the two port maps, the bindings of the port in order. */
  method GetServicePortBinding(c: Container, svcType: string, port: string) returns (r: string)
    ensures FirstUsable(Candidates(c, PortKey(svcType, port)), r)
    ensures ServiceBinding(c, svcType, port, r) && r != "0"
  {
    hide BoundAs;
    forall x | FirstUsable(Candidates(c, PortKey(svcType, port)), x)
      ensures ServiceBinding(c, svcType, port, x)
    {
      ServiceBindingIs(c, svcType, port, x);
    }
    var key := PortKey(svcType, port);
    var maps: seq<PortMap> := [];
    if c.net.Some? {
      maps := maps + [c.net.value.ports];
    }
    if c.host.Some? {
      maps := maps + [c.host.value];
    }
    ghost var seen: seq<Binding> := [];
    hide FirstUsable, Candidates, Upto, BindingsOf, Usable;
    NoneUsable(maps, key);
    for n := 0 to |maps|
      invariant FirstUsable(seen, "")
      invariant seen == Upto(maps, key, n)
    {
      var bs := BindingsOf(maps[n], key);
      for i := 0 to |bs|
        invariant FirstUsable(bs[..i], "")
      {
        UsableAt(bs, i);
        if Usable(bs[i]) {
          FirstUsableAppend(seen, bs, bs[i].hostPort);
          UptoIs(c, maps, key, n);
          FirstUsablePrefix(seen + bs, Upto(maps[n + 1..], key, |maps| - n - 1), bs[i].hostPort);
          return bs[i].hostPort;
        }
      }
      assert bs[..|bs|] == bs;
      FirstUsableAppend(seen, bs, "");
      UptoNext(maps, key, n);
      seen := seen + bs;
    }
    UptoAll(c, maps, key);
    return "";
  }

  ghost function Upto(maps: seq<PortMap>, key: string, n: nat): seq<Binding>
    requires n <= |maps|
  {
    if n == 0 then [] else Upto(maps, key, n - 1) + BindingsOf(maps[n - 1], key)
  }

  lemma UptoNext(maps: seq<PortMap>, key: string, n: nat)
    requires n < |maps|
    ensures Upto(maps, key, n + 1) == Upto(maps, key, n) + BindingsOf(maps[n], key)
  {
  }

  lemma NoneUsable(maps: seq<PortMap>, key: string)
    ensures FirstUsable([], "") && Upto(maps, key, 0) == []
    ensures forall bs: seq<Binding> :: FirstUsable(bs[..0], "")
  {
  }

  /** The next binding, when none before it is usable. */
  lemma UsableAt(bs: seq<Binding>, i: nat)
    requires i < |bs| && FirstUsable(bs[..i], "")
    ensures Usable(bs[i]) ==> bs[i].hostPort != "" && FirstUsable(bs, bs[i].hostPort)
    ensures !Usable(bs[i]) ==> FirstUsable(bs[..i + 1], "")
  {
    forall j | 0 <= j < i ensures !Usable(bs[j]) { assert bs[..i][j] == bs[j]; }
  }

  lemma UptoAll(c: Container, maps: seq<PortMap>, key: string)
    requires maps == (if c.net.Some? then [c.net.value.ports] else []) + (if c.host.Some? then [c.host.value] else [])
    ensures Upto(maps, key, |maps|) == Candidates(c, key)
  {
    hide BindingsOf;
    UptoTwo(maps, key);
    match (c.net, c.host)
    case (Some(n), Some(h)) => assert maps[0] == n.ports && maps[1] == h;
    case (Some(n), None) => assert maps[0] == n.ports;
    case (None, Some(h)) => assert maps[0] == h;
    case (None, None) =>
  }

  lemma UptoTwo(maps: seq<PortMap>, key: string)
    ensures Upto(maps, key, 0) == []
    ensures |maps| > 0 ==> Upto(maps, key, 1) == BindingsOf(maps[0], key)
    ensures |maps| > 1 ==> Upto(maps, key, 2) == BindingsOf(maps[0], key) + BindingsOf(maps[1], key)
  {
    hide BindingsOf;
    if |maps| > 0 {
      assert Upto(maps, key, 1) == Upto(maps, key, 0) + BindingsOf(maps[0], key);
    }
    if |maps| > 1 {
      assert Upto(maps, key, 2) == Upto(maps, key, 1) + BindingsOf(maps[1], key);
    }
  }

  lemma UptoIs(c: Container, maps: seq<PortMap>, key: string, n: nat)
    requires maps == (if c.net.Some? then [c.net.value.ports] else []) + (if c.host.Some? then [c.host.value] else [])
    requires n < |maps|
    ensures Upto(maps, key, n) + BindingsOf(maps[n], key) + Upto(maps[n + 1..], key, |maps| - n - 1)
            == Candidates(c, key)
  {
    hide BindingsOf;
    UptoAll(c, maps, key);
    UptoTwo(maps, key);
    UptoTwo(maps[n + 1..], key);
    if n == 0 && |maps| == 2 {
      assert maps[1..][0] == maps[1];
    }
  }

  datatype Publication = Port(port: string) | Ambiguous | NoBinding

  ghost function Only(m: PortMap): (v: seq<Binding>)
    requires |m| == 1
    ensures exists k :: k in m && m[k] == v && m == map[k := v]
  {
    assert m.Keys != {};
    var k :| k in m;
    OneKey(m, k);
    m[k]
  }

  lemma OneKey(m: PortMap, k: string)
    requires |m| == 1 && k in m
    ensures m == map[k := m[k]]
  {
    assert |m.Keys - {k}| == 0;
    assert m.Keys == {k};
  }

  /** The single published port of a container: the one configured binding, else the first runtime binding of
      the one published port. */
  ghost function SolePort(c: Container): Publication
    requires c.host.Some?
  {
    if |c.host.value| > 1 || (|c.host.value| == 1 && |Only(c.host.value)| > 1) then Ambiguous
    else if |c.host.value| == 1 && |Only(c.host.value)| == 1 && Usable(Only(c.host.value)[0])
         then Port(Only(c.host.value)[0].hostPort)
    else if c.net.Some? && |c.net.value.ports| == 1 && |Only(c.net.value.ports)| > 0
         && Only(c.net.value.ports)[0].hostPort != ""
    then Port(Only(c.net.value.ports)[0].hostPort)
    else NoBinding
  }

  lemma OnlyIs(m: PortMap, k: string)
    requires |m| == 1 && k in m
    ensures Only(m) == m[k]
  {
    OneKey(m, k);
  }

  /** getPortBinding; a nil HostConfig would be dereferenced. */
  method GetPortBinding(c: Container) returns (r: Publication)
    requires c.host.Some?
    ensures r == SolePort(c)
  {
    var bindings := c.host.value;
    if |bindings| > 1 {
      return Ambiguous;
    }
    var todo := bindings.Keys;
    while todo != {}
      invariant todo <= bindings.Keys
      invariant todo != bindings.Keys ==>
        |bindings| == 1 && |Only(bindings)| <= 1 && !(|Only(bindings)| == 1 && Usable(Only(bindings)[0]))
      decreases todo
    {
      var k :| k in todo;
      todo := todo - {k};
      var v := bindings[k];
      assert |bindings| == 1 by { assert bindings.Keys != {}; }
      OnlyIs(bindings, k);
      if |v| > 1 {
        return Ambiguous;
      }
      if |v| > 0 && v[0].hostPort != "" && v[0].hostPort != "0" {
        return Port(v[0].hostPort);
      }
    }
    assert |bindings| == 1 ==> bindings.Keys != {};
    if c.net.Some? && |c.net.value.ports| == 1 {
      var ports := c.net.value.ports;
      todo := ports.Keys;
      while todo != {}
        invariant todo <= ports.Keys
        invariant todo != ports.Keys ==> !(|Only(ports)| > 0 && Only(ports)[0].hostPort != "")
        decreases todo
      {
        var k :| k in todo;
        todo := todo - {k};
        OnlyIs(ports, k);
        var v := ports[k];
        if |v| > 0 {
          var port := v[0].hostPort;
          if port != "" {
            return Port(port);
          }
        }
      }
      assert ports.Keys != {};
    }
    return NoBinding;
  }

  // ---------- the resolved port ----------

  /** The port that is looked up: the label, else the inferred one. */
  function Asked(explicit: string, inferred: string): string
  {
    if explicit != "" then explicit else inferred
  }

  /** The precedence of sources: a binding of the asked port, the label, the sole published port, the inferred port. */
  ghost predicate Resolves(c: Option<Container>, svcType: string, svcName: string, inferred: string, r: string)
  {
    if c.None? then r == inferred
    else
      var explicit := IsPortSet(c.value, svcType, svcName);
      var bound := Candidates(c.value, PortKey(svcType, Asked(explicit, inferred)));
      if !FirstUsable(bound, "") then FirstUsable(bound, r) && r != ""
      else if explicit != "" then r == explicit
      else if c.value.host.Some? && SolePort(c.value).Port? then r == SolePort(c.value).port
      else r == inferred
  }

  /** So there is one answer, whatever the order in which the port maps are visited. */
  lemma ResolvesUnique(c: Option<Container>, svcType: string, svcName: string, inferred: string, r: string, s: string)
    requires Resolves(c, svcType, svcName, inferred, r) && Resolves(c, svcType, svcName, inferred, s)
    ensures r == s
  {
    hide FirstUsable, SolePort;
    if c.Some? {
      var bound := Candidates(c.value, PortKey(svcType, Asked(IsPortSet(c.value, svcType, svcName), inferred)));
      if FirstUsable(bound, r) && FirstUsable(bound, s) {
        FirstUsableUnique(bound, r, s);
      }
    }
  }

  /** The port that a service ends up with. */
  ghost function PortFor(c: Option<Container>, svcType: string, svcName: string, inferred: string): (r: string)
    ensures Resolves(c, svcType, svcName, inferred, r)
  {
    if c.None? then inferred
    else
      var explicit := IsPortSet(c.value, svcType, svcName);
      var bound := Candidates(c.value, PortKey(svcType, Asked(explicit, inferred)));
      if FirstPort(bound) != "" then
        SomeUsable(bound, FirstPort(bound));
        FirstPort(bound)
      else if explicit != "" then explicit
      else if c.value.host.Some? && SolePort(c.value).Port? then SolePort(c.value).port
      else inferred
  }

  /** The search gets to the sole published port only in a container with a host configuration. */
  predicate Resolvable(found: Option<Container>, svcType: string, svcName: string, port: string)
  {
    found.Some? ==>
      var explicit := IsPortSet(found.value, svcType, svcName);
      || found.value.host.Some? || explicit != ""
      || !FirstUsable(Candidates(found.value, PortKey(svcType, Asked(explicit, port))), "")
  }

  /** getContainerPort, for the container that the lookup returned. */
  method GetContainerPort(found: Option<Container>, svcType: string, svcName: string, port: string) returns (r: string)
    requires Resolvable(found, svcType, svcName, port)
    ensures Resolves(found, svcType, svcName, port, r)
    ensures r == PortFor(found, svcType, svcName, port)
  {
    hide FirstUsable, PortFor;
    forall s | Resolves(found, svcType, svcName, port, s) ensures s == PortFor(found, svcType, svcName, port) {
      ResolvesUnique(found, svcType, svcName, port, s, PortFor(found, svcType, svcName, port));
    }
    if found.None? {
      return port;
    }
    var c := found.value;
    var asked := port;
    var explicitPort := IsPortSet(c, svcType, svcName);
    if explicitPort != "" {
      asked := explicitPort;
    }
    var p := GetServicePortBinding(c, svcType, asked);
    if p != "" {
      SomeUsable(Candidates(c, PortKey(svcType, asked)), p);
      return p;
    }
    if explicitPort != "" {
      return explicitPort;
    }
    var exposed := GetPortBinding(c);
    match exposed
    case Port(x) => return x;
    case Ambiguous => return asked;
    case NoBinding => return asked;
  }

  lemma SomeUsable(bs: seq<Binding>, r: string)
    requires FirstUsable(bs, r) && r != ""
    ensures !FirstUsable(bs, "")
  {
  }
}
