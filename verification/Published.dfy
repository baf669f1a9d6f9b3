/** Where the published keys of a named router, service or middleware live, and that a prefix
    deletion for one name removes exactly the keys emitted from it. */
module Published {
  import opened Paths
  import opened Values
  import opened Flatten
  import opened Config

  // ---------- RedisStore.sk and RedisStore.k ----------

  function SetLabel(sn: SetName): string
  {
    sn.proto + "_" + sn.kind
  }

  /** The tracking set of a host, e.g. traefik_http_routers@culture.local */
  function Sk(host: string, b: string): string
  {
    "traefik_" + b + "@" + host
  }

  function ReplaceAll(s: string, from: char, to: char): string
  {
    seq(|s|, i requires 0 <= i < |s| => if s[i] == from then to else s[i])
  }

  /** The path of a name's keys, e.g. traefik/http/routers/nginx */
  function K(sk: string, b: string): string
  {
    ReplaceAll("traefik_" + sk, '_', '/') + "/" + StripDocker(b)
  }

  function AreaPath(sn: SetName): seq<string>
  {
    ["traefik", sn.proto, sn.kind]
  }

  function NamePath(sn: SetName, name: string): seq<string>
  {
    AreaPath(sn) + [StripDocker(name)]
  }

  /** The key is removed when the name is dropped from its set. */
  predicate Under(sn: SetName, name: string, key: string)
  {
    Below(NamePath(sn, name), key)
  }

  predicate InArea(sn: SetName, key: string)
  {
    AreaPath(sn) <= Split(key)
  }

  lemma LabelPath(proto: string, kind: string)
    requires '_' !in proto && '_' !in kind
    ensures ReplaceAll("traefik_" + (proto + "_" + kind), '_', '/') == "traefik/" + proto + "/" + kind
  {
    var l, r := "traefik_" + (proto + "_" + kind), "traefik/" + proto + "/" + kind;
    assert |l| == |r|;
    forall i | 0 <= i < |l| ensures (if l[i] == '_' then '/' else l[i]) == r[i] {
      if 8 <= i < 8 + |proto| {
        assert l[i] == proto[i - 8] == r[i];
      } else if 8 + |proto| < i {
        assert l[i] == kind[i - 9 - |proto|] == r[i];
      }
    }
  }

  lemma AreaJoin(proto: string, kind: string, name: string)
    ensures Join(["traefik", proto, kind]) == "traefik/" + proto + "/" + kind
    ensures Join(["traefik", proto, kind] + [name]) == "traefik/" + proto + "/" + kind + "/" + name
  {
    JoinSnoc(["traefik"], proto);
    JoinSnoc(["traefik", proto], kind);
    JoinSnoc(["traefik", proto, kind], name);
    assert ["traefik"] + [proto] == ["traefik", proto];
    assert ["traefik", proto] + [kind] == ["traefik", proto, kind];
    assert "traefik" + "/" == "traefik/";
  }

  lemma KIsNamePath(sn: SetName, b: string)
    requires Tracked(sn)
    ensures K(SetLabel(sn), b) == Join(NamePath(sn, b))
    ensures Plain(b) ==> AllPlain(NamePath(sn, b))
  {
    hide ReplaceAll, Join;
    LabelPath(sn.proto, sn.kind);
    AreaJoin(sn.proto, sn.kind, StripDocker(b));
  }

  /** KEYS k(set, name)/STAR matches exactly the keys under the name, for any key in the store. */
  lemma GlobIsUnder(sn: SetName, name: string, key: string)
    requires Tracked(sn) && Plain(name)
    ensures K(SetLabel(sn), name) + "/" <= key <==> Under(sn, name, key)
  {
    KIsNamePath(sn, name);
    GlobIsBelow(NamePath(sn, name), key);
  }

  /** Two names claim the same key only if they are the same name up to "@docker", in the same set. */
  lemma UnderUnique(s1: SetName, n1: string, s2: SetName, n2: string, key: string)
    requires Under(s1, n1, key) && Under(s2, n2, key)
    ensures s1 == s2 && StripDocker(n1) == StripDocker(n2)
  {
    var p, q, s := NamePath(s1, n1), NamePath(s2, n2), Split(key);
    assert p[1] == s[1] == q[1] && p[2] == s[2] == q[2] && p[3] == s[3] == q[3];
  }

  // ---------- the shape below an area ----------

  lemma SectionShape(c: Configuration, proto: string)
    requires WfConf(c) && proto in PROTOCOLS
    ensures WfFields(ROOT + [proto], SectionFields(proto, SectionOf(c, proto)))
    ensures Kid(ConfShape(c), proto) == Shape(ROOT + [proto], Rec(SectionFields(proto, SectionOf(c, proto))), false)
  {
    var i := if proto == "http" then 0 else if proto == "tcp" then 1 else 2;
    KidOfField(ROOT, ConfFields(c), i, proto, Rec(SectionFields(proto, SectionOf(c, proto))), false);
  }

  lemma AreaShape(c: Configuration, sn: SetName)
    requires WfConf(c) && Tracked(sn)
    ensures Wf(AreaPath(sn), Map(true, AreaEntries(c, sn)))
    ensures Kid(Kid(ConfShape(c), sn.proto), sn.kind) == Shape(AreaPath(sn), Map(true, AreaEntries(c, sn)), false)
  {
    hide Shape, Entries, ConfShape, Wf;
    SectionShape(c, sn.proto);
    var i := if sn.kind == "routers" then 0 else if sn.kind == "services" then 1 else 2;
    var fs := SectionFields(sn.proto, SectionOf(c, sn.proto));
    KidOfField(ROOT + [sn.proto], fs, i, sn.kind, Map(true, AreaEntries(c, sn)), false);
    assert ROOT + [sn.proto] + [sn.kind] == AreaPath(sn);
  }

  lemma EntryWf(c: Configuration, sn: SetName, name: string)
    requires WfConf(c) && Tracked(sn) && name in Names(c, sn)
    ensures Plain(name) && Wf(NamePath(sn, name), AreaEntries(c, sn)[name])
    ensures forall n :: n in Names(c, sn) && StripDocker(n) == StripDocker(name) ==> n == name
  {
    AreaShape(c, sn);
    var v := Map(true, AreaEntries(c, sn));
    assert name in v.entries && MapKey(AreaPath(sn), name) == StripDocker(name);
    forall n | n in Names(c, sn) && StripDocker(n) == StripDocker(name) ensures n == name {
      assert n in v.entries && MapKey(AreaPath(sn), n) == StripDocker(n);
    }
  }

  ghost function EntryShape(c: Configuration, sn: SetName, name: string): Option<Trie>
    requires WfConf(c) && Tracked(sn) && name in Names(c, sn)
  {
    EntryWf(c, sn, name);
    Shape(NamePath(sn, name), AreaEntries(c, sn)[name], false)
  }

  /** The children of an area are the stripped names that emit something. */
  lemma EntryKid(c: Configuration, sn: SetName, name: string)
    requires WfConf(c) && Tracked(sn) && name in Names(c, sn)
    ensures Kid(Kid(Kid(ConfShape(c), sn.proto), sn.kind), StripDocker(name)) == EntryShape(c, sn, name)
  {
    AreaShape(c, sn);
    EntryWf(c, sn, name);
    var v := Map(true, AreaEntries(c, sn));
    hide MapKids, Entries, ConfShape;
    MapShape(AreaPath(sn), v);
    MapKidsAt(AreaPath(sn), v, v.entries.Keys, StripDocker(name));
    assert MapKey(AreaPath(sn), name) == StripDocker(name);
  }

  lemma MapShape(path: seq<string>, v: Value)
    requires v.Map? && Wf(path, v)
    ensures Shape(path, v, false) == Pack(MapKids(path, v, v.entries.Keys))
  {
  }

  lemma KidHasName(c: Configuration, sn: SetName, key: string) returns (name: string)
    requires WfConf(c) && Tracked(sn) && Kid(Kid(Kid(ConfShape(c), sn.proto), sn.kind), key).Some?
    ensures name in Names(c, sn) && StripDocker(name) == key
  {
    hide MapKids, Entries, ConfShape, Shape, Wf, WfConf, StripDocker;
    AreaShape(c, sn);
    var v := Map(true, AreaEntries(c, sn));
    MapShape(AreaPath(sn), v);
    MapKidsAt(AreaPath(sn), v, v.entries.Keys, key);
    name :| name in v.entries && MapKey(AreaPath(sn), name) == key;
  }

  // ---------- from shapes to keys ----------

  ghost predicate InFlat(t: Option<Trie>, q: seq<string>)
  {
    t.Some? && q in Flat(t.value)
  }

  lemma FlatKid(t: Option<Trie>, q: seq<string>)
    requires |q| > 0
    ensures InFlat(t, q) <==> InFlat(Kid(t, q[0]), q[1..])
    ensures InFlat(t, q) ==> Flat(t.value)[q] == Flat(Kid(t, q[0]).value)[q[1..]]
  {
    if t.Some? && t.value.Node? {
      FlatNode(t.value.kids, q);
    }
  }

  lemma FlatArea(t: Option<Trie>, q: seq<string>)
    requires |q| > 2
    ensures var e := Kid(Kid(Kid(t, q[0]), q[1]), q[2]);
      && (InFlat(t, q) <==> InFlat(e, q[3..]))
      && (InFlat(t, q) ==> Flat(t.value)[q] == Flat(e.value)[q[3..]])
  {
    hide Flat;
    FlatKid(t, q);
    FlatKid(Kid(t, q[0]), q[1..]);
    FlatKid(Kid(Kid(t, q[0]), q[1]), q[2..]);
    assert q[1..][1..] == q[2..] && q[2..][1..] == q[3..];
  }

  lemma KvAt(c: Configuration, key: string)
    requires WfConf(c) && KvOf(c).Some?
    ensures key in KvOf(c).value <==> ROOT <= Split(key) && InFlat(ConfShape(c), Split(key)[1..]) && !Ignored(key)
    ensures key in KvOf(c).value ==> KvOf(c).value[key] == Flat(ConfShape(c).value)[Split(key)[1..]]
  {
    hide Flat, Keyed;
    if ConfShape(c).Some? {
      KeyedAt(ROOT, Flat(ConfShape(c).value), key);
    }
  }

  lemma NotIgnored(sn: SetName, key: string)
    requires Tracked(sn) && InArea(sn, key)
    ensures !Ignored(key)
  {
    if Ignored(key) {
      JoinSnoc(["traefik"], "tls");
      assert ["traefik"] + ["tls"] == ["traefik", "tls"];
      assert TLS == Join(["traefik", "tls"]) + "/";
      GlobImpliesBelow(["traefik", "tls"], key);
      assert false;
    }
  }

  lemma SegTail(p: seq<string>, s: seq<string>)
    requires |p| == 4 && p <= s
    ensures s[1..][0] == p[1] && s[1..][1] == p[2] && s[1..][2] == p[3] && s[1..][3..] == s[4..]
  {
  }

  /** Every published key in a tracked area lies strictly below one of the configuration's names there. */
  lemma TrackedKeyHasName(c: Configuration, sn: SetName, key: string) returns (name: string)
    requires WfConf(c) && KvOf(c).Some? && Tracked(sn)
    requires key in KvOf(c).value && InArea(sn, key)
    ensures name in Names(c, sn) && Under(sn, name, key)
  {
    hide Flat, KvOf, ConfShape, Entries;
    KvAt(c, key);
    var s := Split(key);
    assert s[0] == "traefik" && s[1] == sn.proto && s[2] == sn.kind;
    AreaNotTip(c, sn, s[1..]);
    FlatArea(ConfShape(c), s[1..]);
    name := KidHasName(c, sn, s[3]);
    EntryKid(c, sn, name);
    EntryNotTip(c, sn, name);
    assert s[1..][3..] == s[4..];
    assert s[4..] != [];
    assert NamePath(sn, name) == s[..4];
  }

  /** A named entry is a pointer to a struct, so what it emits lies strictly below its own path. */
  lemma EntryNotTip(c: Configuration, sn: SetName, name: string)
    requires WfConf(c) && Tracked(sn) && name in Names(c, sn)
    ensures !InFlat(EntryShape(c, sn, name), [])
  {
    EntryWf(c, sn, name);
    var v := AreaEntries(c, sn)[name];
    if v.target.Some? {
      RecShape(NamePath(sn, name), v.target.value.fields);
      var kids := FieldsKids(NamePath(sn, name), v.target.value.fields);
      FlatNode(kids, []);
    }
  }

  lemma MapNotTip(path: seq<string>, v: Value)
    requires v.Map? && Wf(path, v)
    ensures !InFlat(Shape(path, v, false), [])
  {
    MapShape(path, v);
    FlatNode(MapKids(path, v, v.entries.Keys), []);
  }

  lemma AreaNotTip(c: Configuration, sn: SetName, q: seq<string>)
    requires WfConf(c) && Tracked(sn) && [sn.proto, sn.kind] <= q && InFlat(ConfShape(c), q)
    ensures |q| > 2
  {
    hide Entries, ConfShape, Shape, Flat;
    AreaShape(c, sn);
    if |q| == 2 {
      assert q[0] == sn.proto && q[1] == sn.kind && q[1..][0] == sn.kind;
      FlatKid(ConfShape(c), q);
      FlatKid(Kid(ConfShape(c), sn.proto), q[1..]);
      assert q[1..][1..] == [];
      MapNotTip(AreaPath(sn), Map(true, AreaEntries(c, sn)));
    }
  }

  /** Prefix deletion is exact: of the published keys, k(set, name)/STAR selects those emitted from that entry. */
  lemma PrefixDeletionExact(c: Configuration, sn: SetName, name: string, key: string)
    requires WfConf(c) && KvOf(c).Some? && Tracked(sn) && name in Names(c, sn)
    ensures key in KvOf(c).value && K(SetLabel(sn), name) + "/" <= key
            <==> key in Emitted(NamePath(sn, name), EntryShape(c, sn, name))
    ensures key in Emitted(NamePath(sn, name), EntryShape(c, sn, name))
            ==> KvOf(c).value[key] == Emitted(NamePath(sn, name), EntryShape(c, sn, name))[key]
  {
    EntryWf(c, sn, name);
    GlobIsUnder(sn, name, key);
    EntryKid(c, sn, name);
    EntryNotTip(c, sn, name);
    var p, e, s := NamePath(sn, name), EntryShape(c, sn, name), Split(key);
    hide Flat, Keyed, ConfShape, Entries, EntryShape, KvOf;
    if e.Some? { KeyedAt(p, Flat(e.value), key); }
    KvAt(c, key);
    if p <= s {
      SegTail(p, s);
      NotIgnored(sn, key);
      FlatArea(ConfShape(c), s[1..]);
      assert InFlat(ConfShape(c), s[1..]) <==> InFlat(e, s[4..]);
    }
  }

  /** Dropping one name never touches a key of another, even when one name is a prefix of the other. */
  lemma SiblingSafe(c: Configuration, sn: SetName, dropped: string, other: string, key: string)
    requires WfConf(c) && KvOf(c).Some? && Tracked(sn) && Plain(dropped)
    requires other in Names(c, sn) && StripDocker(other) != StripDocker(dropped)
    requires key in Emitted(NamePath(sn, other), EntryShape(c, sn, other))
    ensures !(K(SetLabel(sn), dropped) + "/" <= key)
  {
    PrefixDeletionExact(c, sn, other, key);
    EntryWf(c, sn, other);
    GlobIsUnder(sn, other, key);
    GlobIsUnder(sn, dropped, key);
    if Under(sn, dropped, key) {
      UnderUnique(sn, dropped, sn, other, key);
    }
  }
}
