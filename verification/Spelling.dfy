/** The texts of the program written out: keys, set names, JSON tags. `n` stands for a name without "@docker". */
module Spelling {
  import opened Paths
  import opened Values
  import opened Flatten
  import opened Config
  import opened Published
  import opened Plan
  import opened Readback
  import opened Merge

  // ---------- names in keys ----------

  /** RedisStore.k: a name with "@docker" and without it have the same path, and nothing else is cut off. */
  lemma KSpelled(proto: string, kind: string, name: string, n: string)
    requires Tracked(SetName(proto, kind)) && Bare(name, n)
    ensures K(proto + "_" + kind, name) == "traefik/" + proto + "/" + kind + "/" + n
  {
    hide ReplaceAll;
    LabelPath(proto, kind);
    StripIsBare(name, n);
  }

  lemma SetsSpelled(inst: Inst, proto: string, kind: string)
    ensures SetKey(inst, SetName(proto, kind)) == "traefik_" + proto + "_" + kind + "@" + inst.host
    ensures NewKey(inst, SetName(proto, kind)) == "traefik_" + proto + "_" + kind + "@" + inst.host + "_new"
    ensures Sentinel(inst) == "traefik_kop_last_update@" + inst.host
  {
    assert "traefik_" + (proto + "_" + kind) == "traefik_" + proto + "_" + kind;
    assert "traefik_" + "kop_last_update" + "@" + inst.host == "traefik_kop_last_update@" + inst.host;
  }

  /** Eight sets: every protocol and kind, but no UDP middlewares. */
  lemma TrackedSets(proto: string, kind: string)
    ensures (exists i :: 0 <= i < |SETS| && SETS[i] == SetName(proto, kind))
            <==> proto in {"http", "tcp", "udp"} && kind in {"routers", "services", "middlewares"}
                 && !(proto == "udp" && kind == "middlewares")
    ensures |SETS| == 8
  {
    assert SETS[0] == SetName("http", "middlewares") && SETS[1] == SetName("http", "routers");
    assert SETS[2] == SetName("http", "services") && SETS[3] == SetName("tcp", "middlewares");
    assert SETS[4] == SetName("tcp", "routers") && SETS[5] == SetName("tcp", "services");
    assert SETS[6] == SetName("udp", "routers") && SETS[7] == SetName("udp", "services");
  }

  lemma ServersPrefixSpelled(proto: string, name: string, n: string)
    requires Bare(name, n)
    ensures ServersPrefix(proto, name) == "traefik/" + proto + "/services/" + n + "/loadBalancer/servers/"
  {
    StripIsBare(name, n);
  }

  lemma InAreaSpelled(proto: string, kind: string, key: string)
    requires Tracked(SetName(proto, kind)) && "traefik/" + proto + "/" + kind + "/" <= key
    ensures InArea(SetName(proto, kind), key)
  {
    hide Join;
    AreaJoin(proto, kind, "");
    GlobImpliesBelow(["traefik", proto, kind], key);
  }

  /** Every key published for routers, services or middlewares lies below the bare name of one of them. */
  lemma PublishedKeySpelled(c: Configuration, proto: string, kind: string, key: string)
    returns (name: string, n: string)
    requires WfConf(c) && KvOf(c).Some? && Tracked(SetName(proto, kind))
    requires key in KvOf(c).value && "traefik/" + proto + "/" + kind + "/" <= key
    ensures name in Names(c, SetName(proto, kind)) && Bare(name, n)
    ensures "traefik/" + proto + "/" + kind + "/" + n + "/" <= key
  {
    hide WfConf, KvOf, Names, StripDocker, K;
    InAreaSpelled(proto, kind, key);
    name := TrackedKeyHasName(c, SetName(proto, kind), key);
    n := StripDocker(name);
    StripIsBare(name, n);
    EntryWf(c, SetName(proto, kind), name);
    GlobIsUnder(SetName(proto, kind), name, key);
    KSpelled(proto, kind, name, n);
  }

  /** A router publishes the service it names. */
  lemma RouterKey(c: Configuration, proto: string, name: string, n: string, r: Router)
    requires WfConf(c) && KvOf(c).Some? && proto in PROTOCOLS && Bare(name, n) && r.service != ""
    requires name in SectionOf(c, proto).routers && SectionOf(c, proto).routers[name] == Some(r)
    ensures var key := "traefik/" + proto + "/routers/" + n + "/service";
      key in KvOf(c).value && KvOf(c).value[key] == r.service
  {
    hide WfConf, KvOf, ConfShape, Flat, Split, Join, Kid, Shape, Wf, F;
    var sn := SetName(proto, "routers");
    var path := NamePath(sn, name);
    StripIsBare(name, n);
    EntryKid(c, sn, name);
    EntryWf(c, sn, name);
    var fs := [F("service", Str(r.service))] + r.rest;
    assert AreaEntries(c, sn)[name] == Rec(fs);
    RecWf(path, fs);
    KidOfField(path, fs, 0, "service", Str(r.service), false);
    TextShape(path + ["service"], r.service);
    KeyBelow(c, sn, n, "service", r.service);
    assert "traefik/" + proto + "/" + "routers" + "/" + n + "/" + "service"
           == "traefik/" + proto + "/routers/" + n + "/service";
  }

  /** A text right below a name's entry. */
  lemma KeyBelow(c: Configuration, sn: SetName, n: string, field: string, text: string)
    requires WfConf(c) && KvOf(c).Some? && Tracked(sn) && Plain(n) && Plain(field)
    requires Kid(Kid(Kid(Kid(ConfShape(c), sn.proto), sn.kind), n), field) == Some(Tip(text))
    ensures var key := "traefik/" + sn.proto + "/" + sn.kind + "/" + n + "/" + field;
      key in KvOf(c).value && KvOf(c).value[key] == text
  {
    hide WfConf, KvOf, ConfShape, Split, Join, Kid, Ignored;
    var p, q := ["traefik", sn.proto, sn.kind, n], [sn.proto, sn.kind, n, field];
    var key := "traefik/" + sn.proto + "/" + sn.kind + "/" + n + "/" + field;
    AreaJoin(sn.proto, sn.kind, n);
    assert ["traefik", sn.proto, sn.kind] + [n] == p;
    SplitJoin(p);
    SplitSegment(Join(p), field);
    assert Split(key) == p + [field] == ["traefik"] + q;
    assert Split(key)[1..] == q && AreaPath(sn) <= Split(key) && ROOT <= Split(key);
    NotIgnored(sn, key);
    KvAt(c, key);
    hide Flat;
    FlatArea(ConfShape(c), q);
    assert q[3..] == [field];
    FlatKid(Kid(Kid(Kid(ConfShape(c), sn.proto), sn.kind), n), [field]);
    TipFlat(text);
    assert [field][1..] == [];
  }

  /** The address of server number i of a service; `rest` may hold any plain fields. */
  lemma AddressKey(c: Configuration, proto: string, name: string, n: string, i: nat)
    requires WfConf(c) && KvOf(c).Some? && proto in PROTOCOLS && name in SectionOf(c, proto).services && Bare(name, n)
    requires SimpleServers(ServersOf(ServiceAt(c, proto, name))) && i < |ServersOf(ServiceAt(c, proto, name))|
    requires ServersOf(ServiceAt(c, proto, name))[i].addr != ""
    ensures var key := "traefik/" + proto + "/services/" + n + "/loadBalancer/servers/" + Dec(i)
                       + (if proto == "http" then "/url" else "/address");
      key in KvOf(c).value && KvOf(c).value[key] == ServersOf(ServiceAt(c, proto, name))[i].addr
  {
    hide WfConf, KvOf, ServersPrefix, SimpleServers, Dec;
    ServersPrefixSpelled(proto, name, n);
    AddrKeyGlob(proto, name, i);
    KvServerKey(c, proto, name, AddrKey(proto, name, i));
    var prefix := ServersPrefix(proto, name) + Dec(i);
    assert prefix + "/" + "url" == prefix + "/url" && prefix + "/" + "address" == prefix + "/address";
  }

  // ---------- fields and their JSON tags ----------

  /** The name before the first comma, or the Go name; "omitempty" among the options after it. */
  lemma TagParts(f: Field, parts: seq<string>)
    requires f.jsonTag != "-" && SplitOn(',', f.jsonTag) == parts && |parts| > 0
    ensures JsonFieldName(f) == Named(if parts[0] == "" then f.goName else parts[0], "omitempty" in parts[1..])
  {
    hide SplitOn;
  }

  lemma TagAlone(f: Field, name: string)
    requires f.jsonTag == name && ',' !in name && name != "-"
    ensures JsonFieldName(f) == Named(if name == "" then f.goName else name, false)
  {
    hide SplitOn, JsonFieldName;
    SplitOnPlain(',', name);
    TagParts(f, [name]);
  }

  lemma TagOption(f: Field, name: string, option: string)
    requires f.jsonTag == name + "," + option && ',' !in name && ',' !in option
    ensures JsonFieldName(f) == Named(if name == "" then f.goName else name, option == "omitempty")
  {
    hide SplitOn, JsonFieldName;
    SplitOnPlain(',', name);
    SplitOnPlain(',', option);
    SplitOnConcat(',', name, option);
    assert f.jsonTag == name + [','] + option && f.jsonTag[|name|] == ',' && f.jsonTag != "-";
    assert [name] + [option] == [name, option] && [name, option][1..] == [option];
    TagParts(f, [name, option]);
  }

  lemma TagOptions(f: Field, name: string, option: string)
    requires f.jsonTag == name + "," + option + ",omitempty" && ',' !in name && ',' !in option
    ensures JsonFieldName(f) == Named(if name == "" then f.goName else name, true)
  {
    hide SplitOn, JsonFieldName;
    SplitOnPlain(',', name);
    SplitOnPlain(',', option);
    SplitOnPlain(',', "omitempty");
    SplitOnConcat(',', name, option);
    SplitOnConcat(',', name + [','] + option, "omitempty");
    assert f.jsonTag == (name + [','] + option) + [','] + "omitempty" && f.jsonTag[|name|] == ',';
    assert f.jsonTag != "-";
    var parts := [name, option, "omitempty"];
    assert [name] + [option] + ["omitempty"] == parts && parts[1..] == [option, "omitempty"];
    TagParts(f, parts);
  }

  /** What a struct with this one field publishes at `path`. */
  ghost function OneFieldKeys(path: seq<string>, f: Field): map<string, string>
    requires |path| > 0 && Wf(path, Struct([f]))
  {
    Emitted(path, Shape(path, Struct([f]), false))
  }

  lemma OneFieldIs(path: seq<string>, f: Field)
    requires |path| > 0 && Wf(path, Struct([f]))
    ensures WfField(path, f)
    ensures OneFieldKeys(path, f) == if Visible(f) then Emitted(Goal(path, f), FieldShape(path, f)) else map[]
  {
    var fs := [f];
    hide Emitted, EmittedKids, JsonFieldName;
    assert WfFields(path, fs);
    WfPrefix(path, fs, 0);
    assert fs[..0] == [] && fs[..1] == fs;
    PackShape(path, Struct(fs), false);
    EmittedPack(path, FieldsKids(path, fs));
    FieldEmits(path, f);
    assert FieldsKids(path, fs) == map[] + FieldKids(path, f) == FieldKids(path, f);
  }

  lemma SkippedField(path: seq<string>, f: Field)
    requires |path| > 0 && Wf(path, Struct([f])) && (!f.exported || f.jsonTag == "-")
    ensures OneFieldKeys(path, f) == map[]
  {
    hide OneFieldKeys, SplitOn;
    OneFieldIs(path, f);
  }

  /** The value's own keys under `name`. */
  ghost predicate UnderName(path: seq<string>, f: Field, name: string, keys: map<string, string>)
    requires |path| > 0
  {
    && Wf(path + [name], f.value)
    && keys == Emitted(path + [name], Shape(path + [name], f.value, f.allowEmpty))
  }

  lemma NamedField(path: seq<string>, f: Field, name: string, omitEmpty: bool)
    requires |path| > 0 && Wf(path, Struct([f])) && f.exported && JsonFieldName(f) == Named(name, omitEmpty)
    requires !(f.anonymous && name == f.goName)
    ensures if omitEmpty && f.value.Leaf? && f.value.zero then OneFieldKeys(path, f) == map[]
            else UnderName(path, f, name, OneFieldKeys(path, f))
  {
    hide OneFieldKeys, Emitted, JsonFieldName, Shape, Wf;
    OneFieldIs(path, f);
    EmittedNothing(path + [name]);
    assert Wf(path + [name], f.value);
    if IsEmptyJSONValue(f.value) {
      NothingInside(path + [name], f.value, f.allowEmpty);
    }
  }

  /** An empty list or map and a nil publish nothing, omitempty or not. */
  lemma NothingInside(path: seq<string>, v: Value, allow: bool)
    requires Wf(path, v) && IsEmptyJSONValue(v)
    ensures v.Leaf? ==> v.zero
    ensures !v.Leaf? ==> Shape(path, v, allow) == None
  {
    if v.Map? { assert v.entries == map[]; }
  }

  /** Without omitempty a field publishes its value under its name, zero or not. */
  lemma PlainField(path: seq<string>, f: Field, name: string)
    requires |path| > 0 && Wf(path, Struct([f])) && f.exported && ',' !in name && name != "-" && f.jsonTag == name
    requires !(f.anonymous && (name == "" || name == f.goName))
    ensures UnderName(path, f, if name == "" then f.goName else name, OneFieldKeys(path, f))
  {
    hide UnderName, OneFieldKeys, JsonFieldName, Wf;
    TagAlone(f, name);
    NamedField(path, f, if name == "" then f.goName else name, false);
  }

  /** With omitempty a zero value publishes nothing, and every other value the same as without. */
  lemma OmitEmptyField(path: seq<string>, f: Field, name: string)
    requires |path| > 0 && Wf(path, Struct([f])) && f.exported && ',' !in name && f.jsonTag == name + ",omitempty"
    requires !(f.anonymous && (name == "" || name == f.goName))
    ensures if f.value.Leaf? && f.value.zero then OneFieldKeys(path, f) == map[]
            else UnderName(path, f, if name == "" then f.goName else name, OneFieldKeys(path, f))
  {
    hide UnderName, OneFieldKeys, JsonFieldName, Wf;
    assert name + "," + "omitempty" == name + ",omitempty";
    TagOption(f, name, "omitempty");
    NamedField(path, f, if name == "" then f.goName else name, true);
  }

  /** An embedded struct publishes its fields at the path of the struct around it. */
  lemma EmbeddedField(path: seq<string>, f: Field)
    requires |path| > 0 && Wf(path, Struct([f])) && f.exported && f.anonymous && ',' !in f.goName && f.goName != "-"
    requires f.jsonTag == "" || f.jsonTag == f.goName
    ensures Wf(path, f.value) && OneFieldKeys(path, f) == Emitted(path, Shape(path, f.value, false))
  {
    hide OneFieldKeys, Emitted, JsonFieldName, Shape, Wf;
    TagAlone(f, f.jsonTag);
    OneFieldIs(path, f);
    assert Wf(path, f.value);
  }

  /** A text at a path outside traefik/tls/ is one key. */
  lemma TextKey(path: seq<string>, name: string, v: Value)
    requires |path| > 0 && AllPlain(path) && Plain(name) && !("traefik/tls/" <= Join(path) + "/" + name)
    requires v.Leaf? && v.text.Some? && v.text.value != ""
    ensures Wf(path + [name], v)
    ensures Emitted(path + [name], Shape(path + [name], v, false)) == map[Join(path) + "/" + name := v.text.value]
  {
    hide Emitted, Join;
    JoinSnoc(path, name);
    EmittedTip(path + [name], v.text.value);
  }

  /** The three kinds of tag on a field that holds plain text, such as `preservePath` of a server. */
  lemma TextField(path: seq<string>, f: Field, name: string)
    requires |path| > 0 && AllPlain(path) && !("traefik/tls/" <= Join(path) + "/" + name)
    requires f.exported && !f.anonymous && !f.allowEmpty && Plain(name) && ',' !in name && name != "" && name != "-"
    requires f.value.Leaf? && f.value.text.Some? && f.value.text.value != "" && Wf(path, Struct([f]))
    ensures var key := map[Join(path) + "/" + name := f.value.text.value];
      && (f.jsonTag == "-" ==> OneFieldKeys(path, f) == map[])
      && (f.jsonTag == name ==> OneFieldKeys(path, f) == key)
      && (f.jsonTag == name + ",omitempty" ==> OneFieldKeys(path, f) == if f.value.zero then map[] else key)
  {
    hide OneFieldKeys, Emitted, JsonFieldName, Shape, Wf, Join;
    TextKey(path, name, f.value);
    if f.jsonTag == "-" {
      SkippedField(path, f);
    } else if f.jsonTag == name {
      PlainField(path, f, name);
    } else if f.jsonTag == name + ",omitempty" {
      OmitEmptyField(path, f, name);
    }
  }

  lemma OneTextKey(path: seq<string>, name: string, text: string)
    requires |path| > 0 && AllPlain(path) && text != "" && !("traefik/tls/" <= Join(path) + "/" + name)
    requires Plain(name) && ',' !in name && name != "" && name != "-" && Wf(path, Struct([F(name, Str(text))]))
    ensures Emitted(path, Shape(path, Struct([F(name, Str(text))]), false)) == map[Join(path) + "/" + name := text]
  {
    hide Emitted, JsonFieldName, Shape, Wf, Join, AllPlain, Plain;
    var f := F(name, Str(text));
    assert f.jsonTag == name + "," + "omitempty" == name + ",omitempty";
    TextField(path, f, name);
  }

  lemma PlainServerIs(proto: string, addr: string)
    ensures ServerValue(proto, PlainServer(addr)) == Struct([F(AddrField(proto), Str(addr))])
  {
    hide F, AddrField, Str;
    assert [F(AddrField(proto), Str(addr))] + [] == [F(AddrField(proto), Str(addr))];
  }

  lemma AddrFieldSpelled(proto: string)
    ensures AddrField("http") == "url" && AddrField("tcp") == "address" && AddrField("udp") == "address"
    ensures Plain(AddrField(proto)) && ',' !in AddrField(proto) && AddrField(proto) !in ["", "-"]
  {
  }

  /** A server that the merge adds publishes its address and nothing else. */
  lemma MergedServerKey(path: seq<string>, proto: string, addr: string)
    requires |path| > 0 && AllPlain(path) && addr != ""
    requires !("traefik/tls/" <= Join(path) + "/" + AddrField(proto))
    ensures var v := ServerValue(proto, PlainServer(addr));
      Wf(path, v) && Emitted(path, Shape(path, v, false)) == map[Join(path) + "/" + AddrField(proto) := addr]
    ensures AddrField("http") == "url" && AddrField("tcp") == "address" && AddrField("udp") == "address"
  {
    hide Emitted, Shape, Wf, Join, AllPlain, F, ServerValue, PlainServer, AddrField, Plain;
    PlainServerWf(path, proto, addr);
    PlainServerIs(proto, addr);
    AddrFieldSpelled(proto);
    OneTextKey(path, AddrField(proto), addr);
  }

  /** The marker: a struct that publishes nothing behind a pointer whose field allows it, and only then. */
  lemma MarkerKey(path: seq<string>, t: Value, allow: bool)
    requires |path| > 0 && AllPlain(path) && !("traefik/tls/" <= Join(path)) && Wf(path, t)
    ensures Wf(path, Ptr(Some(t)))
    ensures Emitted(path, Shape(path, Ptr(Some(t)), allow))
            == if allow && (t.Struct? || (t.Leaf? && t.struct)) && Shape(path, t, false).None?
               then map[Join(path) := "true"]
               else Emitted(path, Shape(path, t, false))
  {
    hide Emitted, Join;
    EmittedTip(path, "true");
  }

  /** Interfaces are seen through, the field's marker included. */
  lemma InterfaceKeys(path: seq<string>, held: Value, allow: bool)
    requires |path| > 0 && Wf(path, Iface(Some(held)))
    ensures Wf(path, held)
    ensures Emitted(path, Shape(path, Iface(Some(held)), allow)) == Emitted(path, Shape(path, held, allow))
  {
    hide Emitted, FieldsKids, MapKids, SliceKids;
  }

  lemma NilShape(path: seq<string>, v: Value, allow: bool)
    requires v == Iface(None) || v == Ptr(None) || v == Other
    ensures Wf(path, v) && Shape(path, v, allow) == None
  {
  }

  /** What is nil or no data publishes nothing. */
  lemma NilKeys(path: seq<string>, v: Value, allow: bool)
    requires |path| > 0 && (v == Iface(None) || v == Ptr(None) || v == Other)
    ensures Wf(path, v) && Emitted(path, Shape(path, v, allow)) == map[]
  {
    hide Emitted, Shape, Wf;
    NilShape(path, v, allow);
    EmittedNothing(path);
  }

  /** The walk fails at a leaf that cannot be rendered, at a map whose keys are no strings, and wherever something it
      visits inside fails; nothing else fails. */
  lemma FailsSpelled(v: Value)
    ensures v.Leaf? ==> (Fails(v) <==> v.text == None)
    ensures v.Ptr? ==> (Fails(v) <==> v.target.Some? && Fails(v.target.value))
    ensures v.Iface? ==> (Fails(v) <==> v.held.Some? && Fails(v.held.value))
    ensures v.Slice? ==> (Fails(v) <==> exists i :: 0 <= i < |v.items| && Fails(v.items[i]))
    ensures v.Map? && v.entries.Keys == {} ==> !Fails(v)
    ensures v.Map? && v.entries.Keys != {} ==>
      (Fails(v) <==> !v.stringKeys || exists k :: k in v.entries && Fails(v.entries[k]))
    ensures v.Other? ==> !Fails(v)
  {
    if v.Map? {
      assert v.entries.Keys == {} ==> v.entries == map[];
      if v.entries.Keys != {} { assert |v.entries| != 0; }
    }
  }

  /** A struct's own failures: a field that is left out cannot fail. */
  lemma FieldFails(f: Field, name: string)
    requires ',' !in name
    ensures !f.exported || f.jsonTag == "-" ==> !Fails(Struct([f]))
    ensures f.exported && f.jsonTag == name && name != "-" ==> (Fails(Struct([f])) <==> Fails(f.value))
    ensures f.exported && f.jsonTag == name + ",omitempty" && f.value.Leaf? ==>
      (Fails(Struct([f])) <==> !f.value.zero && f.value.text == None)
  {
    hide JsonFieldName, SplitOn;
    SkippedName(f);
    assert name + "," + "omitempty" == name + ",omitempty";
    if f.jsonTag == name && name != "-" { TagAlone(f, name); }
    if f.jsonTag == name + ",omitempty" { TagOption(f, name, "omitempty"); }
    assert Walked(f) ==> Walked([f][0]);
    assert Fails(Struct([f])) <==> Walked(f) && Fails(f.value);
  }

  lemma SkippedName(f: Field)
    ensures f.jsonTag == "-" ==> JsonFieldName(f) == Skip
  {
    hide SplitOn;
  }

  // ---------- map keys ----------

  /** A map entry is published under its key; "@docker" is taken off a name, which stands at one of nine places. */
  lemma EntryKeys(path: seq<string>, k: string, n: string, v: Value)
    requires |path| > 0 && Wf(path, Map(true, map[k := v])) && Bare(k, n)
    ensures var names := |path| == 3 && path[0] == "traefik" && path[1] in {"http", "tcp", "udp"}
                         && path[2] in {"routers", "services", "middlewares"};
      var s := if names then n else k;
      && Wf(path + [s], v)
      && Emitted(path, Shape(path, Map(true, map[k := v]), false)) == Emitted(path + [s], Shape(path + [s], v, false))
  {
    hide Emitted, EmittedKids, StripDocker, Shape, MapKids;
    StripIsBare(k, n);
    var m := Map(true, map[k := v]);
    var s := MapKey(path, k);
    assert k in m.entries;
    NoChildren(path, m);
    MapKidsAdd(path, m, {}, k);
    assert {} + {k} == m.entries.Keys;
    assert map[] + One(s, Shape(path + [s], v, false)) == One(s, Shape(path + [s], v, false));
    PackShape(path, m, false);
    EmittedPack(path, MapKids(path, m, m.entries.Keys));
    EmittedOne(path, s, Shape(path + [s], v, false));
  }
}
