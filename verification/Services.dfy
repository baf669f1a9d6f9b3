/** Changing the server lists of a configuration: what stays well-formed. */
module Services {
  import opened Paths
  import opened Values
  import opened Config
  import opened Published
  import opened Readback

  lemma {:induction false} WfFieldsUpdate(path: seq<string>, fs: seq<Field>, i: nat, f: Field)
    requires WfFields(path, fs) && i < |fs| && NamesOf(f) == NamesOf(fs[i]) && WfField(path, f)
    ensures WfFields(path, fs[i := f]) && FieldNames(fs[i := f]) == FieldNames(fs)
    decreases |fs|
  {
    hide NamesOf, WfField;
    var n := |fs| - 1;
    var gs := fs[i := f];
    if i < n {
      WfFieldsUpdate(path, fs[..n], i, f);
      assert gs[..n] == fs[..n][i := f] && gs[n] == fs[n];
    } else {
      assert gs[..n] == fs[..n] && gs[n] == f;
    }
  }

  /** Another value for a field written by F. */
  lemma WfReplace(path: seq<string>, fs: seq<Field>, i: nat, name: string, v: Value, w: Value)
    requires WfFields(path, fs) && i < |fs| && fs[i] == F(name, v) && ',' !in name && name != "" && Plain(name)
    requires Wf(path + [name], w)
    ensures WfFields(path, fs[i := F(name, w)])
  {
    JsonNameOf(name, v);
    JsonNameOf(name, w);
    hide JsonFieldName, F, FieldNames, WfFields, Wf;
    WfFieldsUpdate(path, fs, i, F(name, w));
  }

  /** A service whose server list is replaced by well-formed servers. */
  lemma ServiceRewf(path: seq<string>, proto: string, s: Service, ss: seq<Server>)
    requires s.lb.Some? && Wf(path, ServiceValue(proto, Some(s)))
    requires Wf(path + ["loadBalancer"] + ["servers"], ServersValue(proto, ss))
    ensures Wf(path, ServiceValue(proto, Some(WithServers(s, ss))))
  {
    hide F, ServersValue, Wf, WfFields;
    var lb := s.lb.value;
    var fs := [F("loadBalancer", LbValue(proto, Some(lb)))] + s.rest;
    var gs := [F("servers", ServersValue(proto, lb.servers))] + lb.rest;
    var s' := WithServers(s, ss);
    ServiceKid(path, proto, Some(s));
    RecWf(path, fs);
    RecWf(path + ["loadBalancer"], gs);
    WfReplace(path + ["loadBalancer"], gs, 0, "servers", ServersValue(proto, lb.servers), ServersValue(proto, ss));
    var gs' := gs[0 := F("servers", ServersValue(proto, ss))];
    assert gs' == [F("servers", ServersValue(proto, ss))] + lb.rest;
    RecWf(path + ["loadBalancer"], gs');
    WfReplace(path, fs, 0, "loadBalancer", LbValue(proto, Some(lb)), LbValue(proto, s'.lb));
    var fs' := fs[0 := F("loadBalancer", LbValue(proto, s'.lb))];
    assert fs' == [F("loadBalancer", LbValue(proto, s'.lb))] + s.rest;
    RecWf(path, fs');
  }

  /** The service with another server list. */
  function WithServers(s: Service, ss: seq<Server>): Service
    requires s.lb.Some?
  {
    s.(lb := Some(s.lb.value.(servers := ss)))
  }

  function WithServices(c: Configuration, proto: string, services: map<string, Option<Service>>): Configuration
  {
    match proto
    case "http" => c.(http := c.http.(services := services))
    case "tcp" => c.(tcp := c.tcp.(services := services))
    case _ => c.(udp := c.udp.(services := services))
  }

  /** The service of each router; routers are not nil. */
  function RouterServices(c: Configuration, proto: string): map<string, string>
  {
    var rs := SectionOf(c, proto).routers;
    map n | n in rs && rs[n].Some? :: rs[n].value.service
  }

  ghost predicate WfServices(proto: string, services: map<string, Option<Service>>)
  {
    forall k :: k in services ==>
      Plain(k) && Wf(NamePath(SetName(proto, "services"), k), ServiceValue(proto, services[k]))
  }

  lemma EntriesWf(c: Configuration, proto: string)
    requires WfConf(c) && proto in PROTOCOLS
    ensures WfServices(proto, SectionOf(c, proto).services)
  {
    hide WfConf, ServiceValue, Wf, Names, AreaEntries;
    forall k | k in SectionOf(c, proto).services
      ensures Plain(k)
      ensures Wf(NamePath(SetName(proto, "services"), k), ServiceValue(proto, SectionOf(c, proto).services[k]))
    {
      ServiceName(c, proto, k);
      EntryWf(c, SetName(proto, "services"), k);
    }
  }

  lemma ServicesMapWf(c: Configuration, proto: string, services: map<string, Option<Service>>)
    requires WfConf(c) && proto in PROTOCOLS && services.Keys == SectionOf(c, proto).services.Keys
    requires WfServices(proto, services)
    ensures Wf(AreaPath(SetName(proto, "services")),
               Map(true, Entries(proto, SectionOf(c, proto).(services := services), "services")))
  {
    var sn := SetName(proto, "services");
    AreaShape(c, sn);
    hide ServiceValue, WfConf, ConfShape, Shape, Kid;
    var was, es := AreaEntries(c, sn), Entries(proto, SectionOf(c, proto).(services := services), "services");
    assert es.Keys == was.Keys;
    forall k | k in es ensures Plain(k) && Wf(AreaPath(sn) + [MapKey(AreaPath(sn), k)], es[k]) {
      assert MapKey(AreaPath(sn), k) == StripDocker(k);
      assert es[k] == ServiceValue(proto, services[k]);
    }
    MapWf(AreaPath(sn), was, es);
  }

  lemma MapWf(path: seq<string>, a: map<string, Value>, b: map<string, Value>)
    requires Wf(path, Map(true, a)) && a.Keys == b.Keys
    requires forall k :: k in b ==> Plain(k) && Wf(path + [MapKey(path, k)], b[k])
    ensures Wf(path, Map(true, b))
  {
    var v := Map(true, a);
    forall k, l | k in b && l in b && MapKey(path, k) == MapKey(path, l) ensures k == l {
      assert k in v.entries && l in v.entries;
    }
    hide MapKey;
  }

  lemma SectionUpdate(c: Configuration, proto: string, services: map<string, Option<Service>>)
    requires WfConf(c) && proto in PROTOCOLS && services.Keys == SectionOf(c, proto).services.Keys
    requires WfServices(proto, services)
    ensures Wf(ROOT + [proto], Rec(SectionFields(proto, SectionOf(c, proto).(services := services))))
  {
    var s := SectionOf(c, proto);
    var s' := s.(services := services);
    hide WfConf, Entries, F, Wf, WfFields, WfServices;
    SectionShape(c, proto);
    ServicesMapWf(c, proto, services);
    var fs := SectionFields(proto, s);
    assert ROOT + [proto] + ["services"] == AreaPath(SetName(proto, "services"));
    WfReplace(ROOT + [proto], fs, 1, "services", Map(true, Entries(proto, s, "services")),
              Map(true, Entries(proto, s', "services")));
    SameOtherEntries(proto, s, services);
    assert fs[1 := F("services", Map(true, Entries(proto, s', "services")))] == SectionFields(proto, s');
    RecWf(ROOT + [proto], SectionFields(proto, s'));
  }

  lemma SameOtherEntries(proto: string, s: Section, services: map<string, Option<Service>>)
    ensures Entries(proto, s.(services := services), "routers") == Entries(proto, s, "routers")
    ensures Entries(proto, s.(services := services), "middlewares") == Entries(proto, s, "middlewares")
  {
  }

  /** Replacing the services of one protocol by well-formed ones of the same names. */
  lemma ServicesRewf(c: Configuration, proto: string, services: map<string, Option<Service>>)
    requires WfConf(c) && proto in PROTOCOLS && services.Keys == SectionOf(c, proto).services.Keys
    requires WfServices(proto, services)
    ensures WfConf(WithServices(c, proto, services))
  {
    var c' := WithServices(c, proto, services);
    hide F, Wf, WfFields, SectionFields, WfServices, ConfFields;
    SectionUpdate(c, proto, services);
    ConfWf(c);
    ConfWf(c');
    var i := ConfFieldsUpdate(c, proto, services);
    WfReplace(ROOT, ConfFields(c), i, proto, Rec(SectionFields(proto, SectionOf(c, proto))),
              Rec(SectionFields(proto, SectionOf(c', proto))));
  }

  lemma ConfFieldsUpdate(c: Configuration, proto: string, services: map<string, Option<Service>>) returns (i: nat)
    requires proto in PROTOCOLS
    ensures i < |ConfFields(c)| && ConfFields(c)[i] == F(proto, Rec(SectionFields(proto, SectionOf(c, proto))))
    ensures var c' := WithServices(c, proto, services);
      ConfFields(c') == ConfFields(c)[i := F(proto, Rec(SectionFields(proto, SectionOf(c', proto))))]
    ensures SectionOf(WithServices(c, proto, services), proto) == SectionOf(c, proto).(services := services)
    ensures WithServices(c, proto, services).udp.middlewares == c.udp.middlewares
    ensures '/' !in proto && ',' !in proto && proto != ""
  {
    hide F, SectionFields;
    i := if proto == "http" then 0 else if proto == "tcp" then 1 else 2;
  }
}
