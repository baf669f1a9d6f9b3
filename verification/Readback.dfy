/** What Gets returns for a service after it was stored: exactly its non-empty server addresses, whatever was there
    before. */
module Readback {
  import opened Paths
  import opened Values
  import opened Flatten
  import opened Config
  import opened Published
  import opened Redis
  import opened Plan
  import opened ClosedForm
  import opened KeepAlive
  import opened Store

  // ---------- following a path into a shape ----------

  ghost function Descend(t: Option<Trie>, p: seq<string>): Option<Trie>
    decreases p
  {
    if p == [] then t else Descend(Kid(t, p[0]), p[1..])
  }

  lemma {:induction false} FlatDescend(t: Option<Trie>, p: seq<string>, q: seq<string>)
    ensures InFlat(t, p + q) <==> InFlat(Descend(t, p), q)
    ensures InFlat(t, p + q) ==> Flat(t.value)[p + q] == Flat(Descend(t, p).value)[q]
    decreases p
  {
    if p == [] {
      assert p + q == q;
    } else {
      hide Flat;
      FlatKid(t, p + q);
      assert (p + q)[0] == p[0] && (p + q)[1..] == p[1..] + q;
      FlatDescend(Kid(t, p[0]), p[1..], q);
    }
  }

  // ---------- the servers of a service ----------

  function Lb(s: Option<Service>): Option<LoadBalancer>
  {
    if s.None? then None else s.value.lb
  }

  function ServersOf(s: Option<Service>): seq<Server>
  {
    if Lb(s).None? then [] else Lb(s).value.servers
  }

  /** The service as configured under this key. */
  function ServiceAt(c: Configuration, proto: string, name: string): Option<Service>
    requires name in SectionOf(c, proto).services
  {
    SectionOf(c, proto).services[name]
  }

  function LbPath(proto: string, name: string): seq<string>
  {
    NamePath(SetName(proto, "services"), name) + ["loadBalancer"]
  }

  lemma PathIs(proto: string, name: string)
    ensures ServersPath(proto, name) == LbPath(proto, name) + ["servers"]
            == ROOT + [proto, "services", StripDocker(name), "loadBalancer", "servers"]
  {
  }

  lemma ServiceName(c: Configuration, proto: string, name: string)
    requires proto in PROTOCOLS && name in SectionOf(c, proto).services
    ensures name in Names(c, SetName(proto, "services")) && Tracked(SetName(proto, "services"))
    ensures AreaEntries(c, SetName(proto, "services"))[name] == ServiceValue(proto, ServiceAt(c, proto, name))
  {
  }

  lemma ServiceKid(path: seq<string>, proto: string, s: Option<Service>)
    requires Wf(path, ServiceValue(proto, s))
    ensures Wf(path + ["loadBalancer"], LbValue(proto, Lb(s)))
    ensures Kid(Shape(path, ServiceValue(proto, s), false), "loadBalancer")
            == Shape(path + ["loadBalancer"], LbValue(proto, Lb(s)), false)
  {
    if s.Some? {
      var fs := [F("loadBalancer", LbValue(proto, s.value.lb))] + s.value.rest;
      hide F, LbValue, Wf;
      RecWf(path, fs);
      KidOfField(path, fs, 0, "loadBalancer", LbValue(proto, s.value.lb), false);
    }
  }

  lemma LbKid(path: seq<string>, proto: string, lb: Option<LoadBalancer>)
    requires Wf(path, LbValue(proto, lb))
    ensures lb.Some? ==> Wf(path + ["servers"], ServersValue(proto, lb.value.servers))
    ensures Kid(Shape(path, LbValue(proto, lb), false), "servers")
            == if lb.Some? then Shape(path + ["servers"], ServersValue(proto, lb.value.servers), false) else None
  {
    if lb.Some? {
      var fs := [F("servers", ServersValue(proto, lb.value.servers))] + lb.value.rest;
      hide F, ServersValue, Wf;
      RecWf(path, fs);
      KidOfField(path, fs, 0, "servers", ServersValue(proto, lb.value.servers), false);
    }
  }

  /** The shape below the servers path is that of the server list. */
  ghost predicate ServersAre(c: Configuration, proto: string, name: string, t: Option<Trie>)
    requires WfConf(c) && proto in PROTOCOLS && name in SectionOf(c, proto).services
  {
    var ss, path := ServersOf(ServiceAt(c, proto, name)), ServersPath(proto, name);
    Wf(path, ServersValue(proto, ss)) && t == Shape(path, ServersValue(proto, ss), false)
  }

  lemma NoServers(path: seq<string>, proto: string)
    ensures Wf(path, ServersValue(proto, [])) && Shape(path, ServersValue(proto, []), false) == None
  {
    assert ServersValue(proto, []) == Slice([]);
  }

  lemma ServersDescend(c: Configuration, proto: string, name: string)
    requires WfConf(c) && proto in PROTOCOLS && name in SectionOf(c, proto).services
    ensures ServersAre(c, proto, name,
                       Descend(ConfShape(c), [proto, "services", StripDocker(name), "loadBalancer", "servers"]))
  {
    var sn, svc := SetName(proto, "services"), ServiceAt(c, proto, name);
    hide WfConf, ConfShape, Shape, Wf, ServiceValue, LbValue, ServersValue, Names, AreaEntries, Kid;
    ServiceName(c, proto, name);
    EntryKid(c, sn, name);
    EntryWf(c, sn, name);
    ServiceKid(NamePath(sn, name), proto, svc);
    LbKid(LbPath(proto, name), proto, Lb(svc));
    PathIs(proto, name);
    NoServers(ServersPath(proto, name), proto);
    DescendFive(ConfShape(c), proto, "services", StripDocker(name), "loadBalancer", "servers");
  }

  lemma DescendFive(t: Option<Trie>, a: string, b: string, c: string, d: string, e: string)
    ensures Descend(t, [a, b, c, d, e]) == Kid(Kid(Kid(Kid(Kid(t, a), b), c), d), e)
  {
    assert [a, b, c, d, e] == [a] + [b, c, d, e] && [b, c, d, e] == [b] + [c, d, e] && [c, d, e] == [c] + [d, e]
           && [d, e] == [d] + [e];
    DescendOne(t, a, [b, c, d, e]);
    DescendOne(Kid(t, a), b, [c, d, e]);
    DescendOne(Kid(Kid(t, a), b), c, [d, e]);
    DescendOne(Kid(Kid(Kid(t, a), b), c), d, [e]);
    DescendOne(Kid(Kid(Kid(Kid(t, a), b), c), d), e, []);
    assert [e] == [e] + [];
  }

  lemma DescendOne(t: Option<Trie>, a: string, p: seq<string>)
    ensures Descend(t, [a] + p) == Descend(Kid(t, a), p)
  {
    assert ([a] + p)[1..] == p;
  }

  // ---------- one server ----------

  /** Apart from its address, a server has only plain-valued fields (weight, preservePath, tls, ...). */
  predicate Simple(f: Field)
  {
    Visible(f) ==>
      !Embedded(f) && (f.value.Leaf? || (f.value.Ptr? && (f.value.target.Some? ==> f.value.target.value.Leaf?)))
  }

  predicate SimpleFields(fs: seq<Field>)
  {
    forall i :: 0 <= i < |fs| ==> Simple(fs[i])
  }

  predicate SimpleServers(ss: seq<Server>)
  {
    forall i :: 0 <= i < |ss| ==> SimpleFields(ss[i].rest)
  }

  lemma {:induction false} SimpleKids(path: seq<string>, fs: seq<Field>)
    requires WfFields(path, fs) && SimpleFields(fs)
    ensures forall k :: k in FieldsKids(path, fs) ==> FieldsKids(path, fs)[k].Tip?
    decreases |fs|
  {
    if fs != [] {
      hide JsonFieldName, IsEmptyJSONValue;
      SimpleKids(path, fs[..|fs| - 1]);
      SimpleKid(path, fs[|fs| - 1]);
    }
  }

  lemma SimpleKid(path: seq<string>, f: Field)
    requires WfField(path, f) && Simple(f)
    ensures forall k :: k in FieldKids(path, f) ==> FieldKids(path, f)[k].Tip?
  {
    hide JsonFieldName, IsEmptyJSONValue;
    if Walked(f) {
      SimpleShape(path + [JsonFieldName(f).name], f.value, f.allowEmpty);
    }
  }

  lemma SimpleShape(path: seq<string>, v: Value, allow: bool)
    requires Wf(path, v) && (v.Leaf? || (v.Ptr? && (v.target.Some? ==> v.target.value.Leaf?)))
    ensures Shape(path, v, allow).Some? ==> Shape(path, v, allow).value.Tip?
  {
  }

  /** What a server publishes with the address field as its last segment: its address, if it has one. */
  lemma ServerEmits(path: seq<string>, proto: string, s: Server, q: seq<string>)
    requires Wf(path, ServerValue(proto, s)) && SimpleFields(s.rest) && |q| > 0 && q[|q| - 1] == AddrField(proto)
    ensures InFlat(Shape(path, ServerValue(proto, s), false), q) <==> q == [AddrField(proto)] && s.addr != ""
    ensures InFlat(Shape(path, ServerValue(proto, s), false), q) ==>
      Flat(Shape(path, ServerValue(proto, s), false).value)[q] == s.addr
  {
    var fs, name := [F(AddrField(proto), Str(s.addr))] + s.rest, AddrField(proto);
    var t := Shape(path, ServerValue(proto, s), false);
    AddrSimple(proto, s);
    ServerShape(path, proto, s);
    SimpleKids(path, fs);
    KidOfField(path, fs, 0, name, Str(s.addr), false);
    hide FieldsKids, Flat, F, WfFields, Wf;
    FlatKid(t, q);
    TextShape(path + [name], s.addr);
    if q == [name] {
      assert q[1..] == [];
      TipFlat(s.addr);
    } else if InFlat(t, q) {
      TipOnly(FieldsKids(path, fs), q);
    }
  }

  lemma TextShape(path: seq<string>, text: string)
    ensures Wf(path, Str(text)) && Shape(path, Str(text), false) == if text == "" then None else Some(Tip(text))
  {
  }

  lemma TipFlat(text: string)
    ensures Flat(Tip(text)) == map[[] := text]
  {
  }

  lemma TipOnly(kids: map<string, Trie>, q: seq<string>)
    requires (forall k :: k in kids ==> kids[k].Tip?) && InFlat(Pack(kids), q)
    ensures |q| == 1
  {
    FlatNode(kids, q);
    assert kids[q[0]].Tip?;
    assert q[1..] == [];
  }

  lemma AddrSimple(proto: string, s: Server)
    requires SimpleFields(s.rest)
    ensures SimpleFields([F(AddrField(proto), Str(s.addr))] + s.rest)
  {
    JsonNameOf(AddrField(proto), Str(s.addr));
    hide JsonFieldName;
  }

  lemma ServerShape(path: seq<string>, proto: string, s: Server)
    requires Wf(path, ServerValue(proto, s))
    ensures var fs := [F(AddrField(proto), Str(s.addr))] + s.rest;
      WfFields(path, fs) && Shape(path, ServerValue(proto, s), false) == Pack(FieldsKids(path, fs))
  {
    hide F;
  }

  // ---------- the published addresses of a service ----------

  ghost function ServersShape(path: seq<string>, proto: string, ss: seq<Server>): Option<Trie>
    requires Wf(path, ServersValue(proto, ss))
  {
    Shape(path, ServersValue(proto, ss), false)
  }

  lemma ItemKid(path: seq<string>, proto: string, ss: seq<Server>, i: nat)
    requires Wf(path, ServersValue(proto, ss)) && i < |ss|
    ensures Wf(path + [Dec(i)], ServerValue(proto, ss[i]))
    ensures Kid(ServersShape(path, proto, ss), Dec(i)) == Shape(path + [Dec(i)], ServerValue(proto, ss[i]), false)
  {
    var v := ServersValue(proto, ss);
    assert v.items[i] == ServerValue(proto, ss[i]);
    SliceKidsAt(path, v.items, |ss|, i);
    PackedSlice(path, v);
    hide ServerValue;
  }

  lemma PackedSlice(path: seq<string>, v: Value)
    requires v.Slice? && Wf(path, v)
    ensures Shape(path, v, false) == Pack(SliceKids(path, v.items, |v.items|))
  {
  }

  lemma ItemIndex(path: seq<string>, proto: string, ss: seq<Server>, q: seq<string>) returns (i: nat)
    requires Wf(path, ServersValue(proto, ss)) && InFlat(ServersShape(path, proto, ss), q)
    ensures |q| > 0 && i < |ss| && q[0] == Dec(i)
  {
    var v := ServersValue(proto, ss);
    PackedSlice(path, v);
    var kids := SliceKids(path, v.items, |v.items|);
    hide SliceKids, Flat, Dec, ServersValue;
    FlatNode(kids, q);
    SliceKidsNames(path, v.items, |v.items|, q[0]);
    i :| 0 <= i < |v.items| && q[0] == Dec(i);
  }

  /** Of the paths below the server list, those ending in the address field are index/field of the non-empty
      addresses. */
  lemma ListEmits(path: seq<string>, proto: string, ss: seq<Server>, q: seq<string>)
    requires Wf(path, ServersValue(proto, ss)) && SimpleServers(ss) && |q| > 1 && q[|q| - 1] == AddrField(proto)
    ensures InFlat(ServersShape(path, proto, ss), q) <==> exists i ::
      0 <= i < |ss| && q == [Dec(i), AddrField(proto)] && ss[i].addr != ""
    ensures forall i :: 0 <= i < |ss| && q == [Dec(i), AddrField(proto)] && ss[i].addr != "" ==>
      InFlat(ServersShape(path, proto, ss), q) && Flat(ServersShape(path, proto, ss).value)[q] == ss[i].addr
  {
    hide ServersShape, Flat, Dec, ServersValue, ServerValue, Shape, Wf, Kid;
    var name := AddrField(proto);
    forall i | 0 <= i < |ss| && q[0] == Dec(i)
      ensures InFlat(ServersShape(path, proto, ss), q) <==> q[1..] == [name] && ss[i].addr != ""
      ensures InFlat(ServersShape(path, proto, ss), q) ==> Flat(ServersShape(path, proto, ss).value)[q] == ss[i].addr
    {
      ItemKid(path, proto, ss, i);
      FlatKid(ServersShape(path, proto, ss), q);
      ServerEmits(path + [Dec(i)], proto, ss[i], q[1..]);
    }
    if InFlat(ServersShape(path, proto, ss), q) {
      var i := ItemIndex(path, proto, ss, q);
      assert q == [q[0]] + q[1..];
    }
  }

  /** The key of the address of server number i. */
  function AddrKey(proto: string, name: string, i: nat): string
  {
    ServersPrefix(proto, name) + Dec(i) + "/" + AddrField(proto)
  }

  lemma ServersPrefixIs(proto: string, name: string)
    ensures ServersPrefix(proto, name) == Join(ServersPath(proto, name)) + "/"
  {
    var s := StripDocker(name);
    JoinSnoc(["traefik"], proto);
    JoinSnoc(["traefik", proto], "services");
    JoinSnoc(["traefik", proto, "services"], s);
    JoinSnoc(["traefik", proto, "services", s], "loadBalancer");
    JoinSnoc(["traefik", proto, "services", s, "loadBalancer"], "servers");
    assert ["traefik"] + [proto] == ["traefik", proto]
           && ["traefik", proto] + ["services"] == ["traefik", proto, "services"];
    assert ["traefik", proto, "services"] + [s] == ["traefik", proto, "services", s];
    assert ["traefik", proto, "services", s] + ["loadBalancer"] == ["traefik", proto, "services", s, "loadBalancer"];
    assert ["traefik", proto, "services", s, "loadBalancer"] + ["servers"] == ServersPath(proto, name);
    hide Join;
    assert Join(["traefik"]) == "traefik" by { JoinOne("traefik"); }
    var a := "traefik/" + proto + "/services/" + s + "/loadBalancer";
    assert "traefik" + "/" + proto + "/" + "services" + "/" + s + "/" + "loadBalancer" == a;
    assert a + "/" + "servers" + "/" == a + "/servers/";
  }

  /** The pattern of the read-back, on segments: at least two more, the last one the address field. */
  lemma GlobIsDeep(p: seq<string>, field: string, key: string)
    requires |p| > 0 && AllPlain(p) && Plain(field)
    ensures Glob(Join(p) + "/", "/" + field, key)
            <==> p <= Split(key) && |Split(key)| > |p| + 1 && Split(key)[|Split(key)| - 1] == field
  {
    if Glob(Join(p) + "/", "/" + field, key) {
      DeepOfGlob(p, field, key);
    }
    if p <= Split(key) && |Split(key)| > |p| + 1 && Split(key)[|Split(key)| - 1] == field {
      GlobOfDeep(p, field, key);
    }
  }

  lemma DeepOfGlob(p: seq<string>, field: string, key: string)
    requires |p| > 0 && AllPlain(p) && Plain(field) && Glob(Join(p) + "/", "/" + field, key)
    ensures p <= Split(key) && |Split(key)| > |p| + 1 && Split(key)[|Split(key)| - 1] == field
  {
    hide Join, Split, SplitOn;
    var n := |key| - |"/" + field|;
    var a := key[..n];
    assert key == a + ("/" + field) == a + "/" + field;
    SplitSegment(a, field);
    assert Join(p) + "/" <= a;
    GlobImpliesBelow(p, a);
  }

  lemma GlobOfDeep(p: seq<string>, field: string, key: string)
    requires |p| > 0 && p <= Split(key) && |Split(key)| > |p| + 1 && Split(key)[|Split(key)| - 1] == field
    ensures Glob(Join(p) + "/", "/" + field, key)
  {
    hide Join, Split, SplitOn;
    var s := Split(key);
    var mid := s[|p|..|s| - 1];
    JoinSplit(key);
    assert s == (p + mid) + [field];
    JoinSnoc(p + mid, field);
    JoinConcat(p, mid);
    var a := Join(p) + "/" + Join(mid);
    assert key == a + "/" + field == a + ("/" + field);
    assert key[|a|..] == "/" + field;
    assert a == (Join(p) + "/") + Join(mid);
  }

  lemma AddrKeySplit(proto: string, name: string, i: nat)
    requires proto in PROTOCOLS && Plain(name)
    ensures Split(AddrKey(proto, name, i)) == ServersPath(proto, name) + [Dec(i), AddrField(proto)]
  {
    ServersPrefixIs(proto, name);
    ServersPlain(proto, name);
    hide Join, Split, SplitOn, ServersPrefix;
    var p, d, f := ServersPath(proto, name), Dec(i), AddrField(proto);
    DecPlain(i);
    SplitSegment(Join(p), d);
    SplitSegment(Join(p) + "/" + d, f);
    SplitJoin(p);
    assert p + [d] + [f] == p + [d, f];
  }

  lemma ServersPlain(proto: string, name: string)
    requires proto in PROTOCOLS && Plain(name)
    ensures AllPlain(ServersPath(proto, name)) && Plain(AddrField(proto))
  {
  }

  lemma AddrKeyOf(proto: string, name: string, key: string, q: seq<string>, i: nat)
    requires proto in PROTOCOLS && Plain(name) && Split(key) == ServersPath(proto, name) + q
    ensures key == AddrKey(proto, name, i) <==> q == [Dec(i), AddrField(proto)]
  {
    hide Split, SplitOn, AddrKey, ServersPath, Dec;
    AddrKeySplit(proto, name, i);
    var p := ServersPath(proto, name);
    if q == [Dec(i), AddrField(proto)] {
      SplitInjective(key, AddrKey(proto, name, i));
    }
    if key == AddrKey(proto, name, i) {
      assert q == (p + q)[|p|..] == (p + [Dec(i), AddrField(proto)])[|p|..];
    }
  }

  /** Among the published keys, the read-back pattern selects those of the non-empty addresses. */
  lemma KvServerKey(c: Configuration, proto: string, name: string, key: string)
    requires WfConf(c) && KvOf(c).Some? && proto in PROTOCOLS && name in SectionOf(c, proto).services
    requires SimpleServers(ServersOf(ServiceAt(c, proto, name)))
    requires Glob(ServersPrefix(proto, name), "/" + AddrField(proto), key)
    ensures var ss := ServersOf(ServiceAt(c, proto, name));
      && (key in KvOf(c).value <==> exists i :: 0 <= i < |ss| && key == AddrKey(proto, name, i) && ss[i].addr != "")
      && forall i :: 0 <= i < |ss| && key == AddrKey(proto, name, i) && ss[i].addr != "" ==>
           key in KvOf(c).value && KvOf(c).value[key] == ss[i].addr
  {
    hide WfConf, KvOf, ConfShape, Flat, Split, Join, ServersPrefix, Names, AreaEntries, Descend, SimpleServers,
      AddrKey, Dec, ServersValue, Shape, Wf, ServersShape;
    ServiceName(c, proto, name);
    EntryWf(c, SetName(proto, "services"), name);
    ServersPrefixIs(proto, name);
    ServersPlain(proto, name);
    var p, ss, f := ServersPath(proto, name), ServersOf(ServiceAt(c, proto, name)), AddrField(proto);
    GlobIsDeep(p, f, key);
    var q := Split(key)[|p|..];
    assert Split(key) == p + q;
    ServersDescend(c, proto, name);
    ServersKv(c, proto, name, key, q);
    ListEmits(p, proto, ss, q);
    forall i: nat { AddrKeyOf(proto, name, key, q, i); }
  }

  lemma ServersKv(c: Configuration, proto: string, name: string, key: string, q: seq<string>)
    requires WfConf(c) && KvOf(c).Some? && proto in PROTOCOLS && name in SectionOf(c, proto).services
    requires Split(key) == ServersPath(proto, name) + q
    ensures var ss, p := ServersOf(ServiceAt(c, proto, name)), ServersPath(proto, name);
      && Wf(p, ServersValue(proto, ss))
      && (key in KvOf(c).value <==> InFlat(ServersShape(p, proto, ss), q))
      && (key in KvOf(c).value ==> KvOf(c).value[key] == Flat(ServersShape(p, proto, ss).value)[q])
  {
    hide WfConf, KvOf, ConfShape, Flat, Split, ServersPrefix, Names, AreaEntries, Descend, ServersValue, Shape, Wf,
      Ignored;
    ServersDescend(c, proto, name);
    KvAt(c, key);
    InServices(proto, name, key, q);
    NotIgnored(SetName(proto, "services"), key);
    FlatDescend(ConfShape(c), [proto, "services", StripDocker(name), "loadBalancer", "servers"], q);
  }

  lemma InServices(proto: string, name: string, key: string, q: seq<string>)
    requires Split(key) == ServersPath(proto, name) + q && proto in PROTOCOLS
    ensures Tracked(SetName(proto, "services")) && InArea(SetName(proto, "services"), key) && ROOT <= Split(key)
    ensures Split(key)[1..] == [proto, "services", StripDocker(name), "loadBalancer", "servers"] + q
  {
  }

  /** A complete store leaves no load-balancer entry of its services that it did not write. */
  lemma StoreCleans(inst: Inst, db: Db, c: Configuration, kv: map<string, string>, ch: Choice, k: string)
    requires Possible(inst, db, c, ch) && ValidDb(db) && Shaped(ch) && ServerKey(c, k) && k !in kv
    requires k != Sentinel(inst)
    ensures k !in Run(inst, Sys(db, false), FullPlan(c, kv, ch)).db.strings
  {
    hide Run, Do, Possible, FullPlan, TrackPlan, WritePlan, CleanPlan, Swaps, Swapped, Names, ValidDb, Sentinel,
      ServerKey;
    var y1, y2, y3, y4 := StoreStages(inst, Sys(db, false), c, kv, ch);
    TrackPlanValid(inst, db, c, ch);
    WriteStage(inst, y1, kv);
    CleanStage(inst, db, y2, c, ch, kv);
    SameSetsValid(y1.db, y3.db);
    SwapsRun(inst, y3, |SETS|);
    StampStrings(inst, y4, ch.stamp);
  }

  /** The non-empty addresses of a server list. */
  function Addresses(ss: seq<Server>): set<string>
  {
    set i | 0 <= i < |ss| && ss[i].addr != "" :: ss[i].addr
  }

  /** `got` holds exactly the non-empty addresses, each under the key of its position. */
  ghost predicate Reads(got: map<string, string>, proto: string, name: string, ss: seq<Server>)
  {
    && (forall k :: k in got <==> exists i :: 0 <= i < |ss| && k == AddrKey(proto, name, i) && ss[i].addr != "")
    && (forall i :: 0 <= i < |ss| && ss[i].addr != "" ==>
          AddrKey(proto, name, i) in got && got[AddrKey(proto, name, i)] == ss[i].addr)
  }

  lemma ReadsValues(got: map<string, string>, proto: string, name: string, ss: seq<Server>)
    requires Reads(got, proto, name, ss)
    ensures got.Values == Addresses(ss)
  {
    hide AddrKey;
    forall v ensures v in got.Values <==> v in Addresses(ss) {
      if v in got.Values {
        var k :| k in got && got[k] == v;
      }
      if v in Addresses(ss) {
        var i :| 0 <= i < |ss| && ss[i].addr != "" && ss[i].addr == v;
        assert got[AddrKey(proto, name, i)] == v;
      }
    }
  }

  lemma ServerKeyMatch(c: Configuration, proto: string, name: string, key: string)
    requires proto in PROTOCOLS && name in SectionOf(c, proto).services
    requires Glob(ServersPrefix(proto, name), "/" + AddrField(proto), key)
    ensures ServerKey(c, key)
  {
    ServiceName(c, proto, name);
    hide ServersPrefix, Names, AddrField;
  }

  lemma KeyNotSentinel(inst: Inst, proto: string, name: string, key: string)
    requires Glob(ServersPrefix(proto, name), "/" + AddrField(proto), key)
    ensures key != Sentinel(inst)
  {
    assert Sentinel(inst)[7] == "traefik_"[7] == '_';
    assert ServersPrefix(proto, name)[7] == "traefik/"[7] == '/';
  }

  lemma AddrKeyGlob(proto: string, name: string, i: nat)
    ensures Glob(ServersPrefix(proto, name), "/" + AddrField(proto), AddrKey(proto, name, i))
  {
    hide ServersPrefix;
    var p, d, f := ServersPrefix(proto, name), Dec(i), AddrField(proto);
    var k := AddrKey(proto, name, i);
    assert k == (p + d) + ("/" + f);
    assert k == p + (d + "/" + f);
    assert k[|k| - |"/" + f|..] == "/" + f;
  }

  /** Read-back agreement: after a successful store, Gets on a configured service's servers returns exactly the
      non-empty addresses of its server list, whatever longer or shorter list was published before. */
  lemma ReadBack(inst: Inst, db: Db, c: Configuration, ch: Choice, done: nat, db': Db, proto: string, name: string)
    requires WfConf(c) && ValidDb(db) && StoreStep(inst, db, c, ch, done, db', true)
    requires proto in PROTOCOLS && name in SectionOf(c, proto).services
    requires SimpleServers(ServersOf(ServiceAt(c, proto, name)))
    ensures Reads(GetsOf(db', ServersPrefix(proto, name), "/" + AddrField(proto)), proto, name,
                  ServersOf(ServiceAt(c, proto, name)))
    ensures GetsOf(db', ServersPrefix(proto, name), "/" + AddrField(proto)).Values
            == Addresses(ServersOf(ServiceAt(c, proto, name)))
  {
    var prefix, suffix, ss := ServersPrefix(proto, name), "/" + AddrField(proto), ServersOf(ServiceAt(c, proto, name));
    var got := GetsOf(db', prefix, suffix);
    hide WfConf, KvOf, ValidDb, StoreStep, ServersPrefix, Glob, AddrKey, SimpleServers, Sentinel, Names, Wanted;
    StoredKeys(inst, db, c, ch, done, db');
    var kv := KvOf(c).value;
    forall k
      ensures k in got <==> exists i :: 0 <= i < |ss| && k == AddrKey(proto, name, i) && ss[i].addr != ""
      ensures forall i :: 0 <= i < |ss| && k == AddrKey(proto, name, i) && ss[i].addr != "" ==>
        k in got && got[k] == ss[i].addr
    {
      if Glob(prefix, suffix, k) {
        KvServerKey(c, proto, name, k);
        ServerKeyMatch(c, proto, name, k);
        KeyNotSentinel(inst, proto, name, k);
      }
      forall i: nat { AddrKeyGlob(proto, name, i); }
    }
    ReadsValues(got, proto, name, ss);
  }

  /** What a successful store leaves, key by key. */
  lemma StoredKeys(inst: Inst, db: Db, c: Configuration, ch: Choice, done: nat, db': Db)
    requires WfConf(c) && ValidDb(db) && StoreStep(inst, db, c, ch, done, db', true)
    ensures KvOf(c).Some?
    ensures forall k :: k in KvOf(c).value && k != Sentinel(inst) ==>
      k in db'.strings && db'.strings[k] == Item(KvOf(c).value[k], db.Deadline(inst.ttl))
    ensures forall k :: k !in KvOf(c).value && k != Sentinel(inst) && ServerKey(c, k) ==> k !in db'.strings
  {
    PossibleShaped(inst, db, c, ch);
    var kv := KvOf(c).value;
    hide Run, FullPlan, Possible, KvOf, WfConf, ValidDb, Sentinel, ServerKey;
    assert FullPlan(c, kv, ch)[..done] == FullPlan(c, kv, ch);
    FullStoreEffect(inst, db, c, kv, ch);
    forall k | k !in kv && k != Sentinel(inst) && ServerKey(c, k) ensures k !in db'.strings {
      StoreCleans(inst, db, c, kv, ch, k);
    }
  }
}
