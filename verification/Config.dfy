/** The dynamic configuration: the parts the publisher handles by name, and the value tree the walk sees. */
module Config {
  import opened Paths
  import opened Values
  import opened Flatten

  /** `addr` is the url (http) or the address (tcp, udp); scheme and port are hidden from the JSON form. */
  datatype Server = Server(addr: string, scheme: string, port: string, rest: seq<Field>)

  datatype LoadBalancer = LoadBalancer(servers: seq<Server>, rest: seq<Field>)

  datatype Service = Service(lb: Option<LoadBalancer>, rest: seq<Field>)

  datatype Router = Router(service: string, rest: seq<Field>)

  datatype Section = Section(routers: map<string, Option<Router>>, services: map<string, Option<Service>>,
                             middlewares: map<string, Option<seq<Field>>>, rest: seq<Field>)

  datatype Configuration = Configuration(http: Section, tcp: Section, udp: Section, tls: Option<seq<Field>>)

  /** One of the eight name sets that RedisStore tracks. */
  datatype SetName = SetName(proto: string, kind: string)

  const SETS: seq<SetName> := [
    SetName("http", "middlewares"), SetName("http", "routers"), SetName("http", "services"),
    SetName("tcp", "middlewares"), SetName("tcp", "routers"), SetName("tcp", "services"),
    SetName("udp", "routers"), SetName("udp", "services")]

  predicate Tracked(sn: SetName)
  {
    sn.proto in PROTOCOLS && sn.kind in KINDS
  }

  // ---------- value trees ----------

  function F(name: string, v: Value): Field
  {
    Field(name, true, name + "," + "omitempty", false, false, v)
  }

  function Str(s: string): Value
  {
    Leaf(Some(s), s == "", false)
  }

  function Rec(fs: seq<Field>): Value
  {
    Ptr(Some(Struct(fs)))
  }

  function AddrField(proto: string): string
  {
    if proto == "http" then "url" else "address"
  }

  function ServerValue(proto: string, s: Server): Value
  {
    Struct([F(AddrField(proto), Str(s.addr))] + s.rest)
  }

  function ServersValue(proto: string, ss: seq<Server>): Value
  {
    Slice(seq(|ss|, i requires 0 <= i < |ss| => ServerValue(proto, ss[i])))
  }

  function LbValue(proto: string, lb: Option<LoadBalancer>): Value
  {
    if lb.None? then Ptr(None) else Rec([F("servers", ServersValue(proto, lb.value.servers))] + lb.value.rest)
  }

  function ServiceValue(proto: string, s: Option<Service>): Value
  {
    if s.None? then Ptr(None) else Rec([F("loadBalancer", LbValue(proto, s.value.lb))] + s.value.rest)
  }

  function RouterValue(r: Option<Router>): Value
  {
    if r.None? then Ptr(None) else Rec([F("service", Str(r.value.service))] + r.value.rest)
  }

  function MiddlewareValue(m: Option<seq<Field>>): Value
  {
    if m.None? then Ptr(None) else Rec(m.value)
  }

  function Entries(proto: string, s: Section, kind: string): map<string, Value>
  {
    match kind
    case "routers" => map k | k in s.routers :: RouterValue(s.routers[k])
    case "services" => map k | k in s.services :: ServiceValue(proto, s.services[k])
    case _ => map k | k in s.middlewares :: MiddlewareValue(s.middlewares[k])
  }

  function SectionFields(proto: string, s: Section): seq<Field>
  {
    [F("routers", Map(true, Entries(proto, s, "routers"))),
     F("services", Map(true, Entries(proto, s, "services"))),
     F("middlewares", Map(true, Entries(proto, s, "middlewares")))] + s.rest
  }

  function ConfFields(c: Configuration): seq<Field>
  {
    [F("http", Rec(SectionFields("http", c.http))),
     F("tcp", Rec(SectionFields("tcp", c.tcp))),
     F("udp", Rec(SectionFields("udp", c.udp))),
     F("tls", if c.tls.None? then Ptr(None) else Rec(c.tls.value))]
  }

  function ConfValue(c: Configuration): Value
  {
    Struct(ConfFields(c))
  }

  const ROOT: seq<string> := ["traefik"]

  /** The standing assumptions on a configuration; UDP has no middlewares. */
  ghost predicate WfConf(c: Configuration)
  {
    Wf(ROOT, ConfValue(c)) && c.udp.middlewares == map[]
  }

  function SectionOf(c: Configuration, proto: string): Section
  {
    match proto
    case "http" => c.http
    case "tcp" => c.tcp
    case _ => c.udp
  }

  function AreaEntries(c: Configuration, sn: SetName): map<string, Value>
  {
    Entries(sn.proto, SectionOf(c, sn.proto), sn.kind)
  }

  /** collectKeys on one of the maps of the configuration. */
  function Names(c: Configuration, sn: SetName): set<string>
  {
    AreaEntries(c, sn).Keys
  }

  ghost function ConfShape(c: Configuration): Option<Trie>
    requires WfConf(c)
  {
    Shape(ROOT, ConfValue(c), false)
  }

  /** ConfigToKV: the published map, or the error. */
  ghost function KvOf(c: Configuration): Option<map<string, string>>
    requires WfConf(c)
  {
    if Fails(ConfValue(c)) then None else Some(Emitted(ROOT, ConfShape(c)))
  }

  // ---------- looking into shapes ----------

  function Kid(t: Option<Trie>, name: string): Option<Trie>
  {
    if t.Some? && t.value.Node? && name in t.value.kids then Some(t.value.kids[name]) else None
  }

  lemma JsonNameOf(name: string, v: Value)
    requires ',' !in name && name != ""
    ensures Visible(F(name, v)) && JsonFieldName(F(name, v)) == Named(name, true) && !Embedded(F(name, v))
  {
    hide SplitOn;
    SplitOnConcat(',', name, "omitempty");
    SplitOnPlain(',', name);
    SplitOnPlain(',', "omitempty");
    assert name + "," + "omitempty" == name + [','] + "omitempty";
    assert |name + "," + "omitempty"| > 1;
    assert ([name] + ["omitempty"])[1..] == ["omitempty"];
  }

  lemma {:induction false} FieldsKidsAt(path: seq<string>, fs: seq<Field>, i: nat)
    requires WfFields(path, fs) && i < |fs| && Visible(fs[i]) && !Embedded(fs[i])
    ensures WfField(path, fs[i])
    ensures var name := JsonFieldName(fs[i]).name;
            && name in FieldNames(fs)
            && (name in FieldsKids(path, fs) <==> FieldShape(path, fs[i]).Some?)
            && (name in FieldsKids(path, fs) ==> FieldsKids(path, fs)[name] == FieldShape(path, fs[i]).value)
    decreases |fs|
  {
    hide Shape, JsonFieldName;
    var rest, last := fs[..|fs| - 1], fs[|fs| - 1];
    FieldKidsNames(path, last);
    FieldsKidsNames(path, rest);
    if i < |fs| - 1 {
      FieldsKidsAt(path, rest, i);
      assert rest[i] == fs[i];
    } else {
      var name := JsonFieldName(last).name;
      assert NamesOf(last) == {name};
      assert FieldKids(path, last) == if Walked(last) then One(name, FieldShape(path, last)) else map[];
    }
  }

  /** The child under a plain field written by F. */
  lemma KidOfField(path: seq<string>, fs: seq<Field>, i: nat, name: string, v: Value, ptr: bool)
    requires WfFields(path, fs) && i < |fs| && fs[i] == F(name, v)
    requires ',' !in name && name != "" && (v.Leaf? ==> v == Str(if v.text.Some? then v.text.value else ""))
    ensures Wf(path + [name], v)
    ensures Wf(path, Struct(fs)) && Kid(Shape(path, Struct(fs), ptr), name) == Shape(path + [name], v, false)
    ensures Wf(path, Rec(fs)) && Kid(Shape(path, Rec(fs), false), name) == Shape(path + [name], v, false)
  {
    JsonNameOf(name, v);
    FieldsKidsAt(path, fs, i);
    if IsEmptyJSONValue(v) { EmptyShape(path + [name], v); }
    PackShape(path, Struct(fs), ptr);
    RecShape(path, fs);
  }

  lemma RecShape(path: seq<string>, fs: seq<Field>)
    requires WfFields(path, fs)
    ensures Wf(path, Rec(fs)) && Shape(path, Rec(fs), false) == Pack(FieldsKids(path, fs))
  {
    assert Wf(path, Struct(fs));
    PackShape(path, Struct(fs), false);
  }

  lemma EmptyShape(path: seq<string>, v: Value)
    requires Wf(path, v) && IsEmptyJSONValue(v) && (v.Leaf? ==> v == Str(if v.text.Some? then v.text.value else ""))
    ensures Shape(path, v, false) == None
  {
    if v.Map? { assert v.entries == map[]; }
  }

  lemma RecWf(path: seq<string>, fs: seq<Field>)
    ensures Wf(path, Rec(fs)) <==> WfFields(path, fs)
  {
    assert Wf(path, Struct(fs)) <==> WfFields(path, fs);
  }

  lemma ConfWf(c: Configuration)
    ensures Wf(ROOT, ConfValue(c)) <==> WfFields(ROOT, ConfFields(c))
  {
    hide ConfFields;
  }
}
