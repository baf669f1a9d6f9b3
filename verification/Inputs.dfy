/** Inputs from an empty database that lead to keys which no tracking set covers. */
module Inputs {
  import opened Paths
  import opened Values
  import opened Flatten
  import opened Config
  import opened Published
  import opened Redis
  import opened Plan
  import opened Removal
  import opened ClosedForm
  import opened Ownership
  import opened Ttl
  import opened Leak
  import opened CleanRuns
  import opened Collision
  import opened Silent
  import opened Failure
  import opened Republication
  import opened FaultyRuns
  import opened Start
  import Serial

  // ---------- a family of configurations ----------

  predicate Word(s: string)
  {
    Plain(s) && ',' !in s && s != ""
  }

  /** A struct with one plain field. */
  lemma OneField(path: seq<string>, name: string, v: Value)
    requires Word(name) && Wf(path + [name], v) && !Fails(v) && !v.Leaf?
    ensures Wf(path, Rec([F(name, v)])) && !Fails(Rec([F(name, v)]))
    ensures var s := Shape(path + [name], v, false);
      Shape(path, Rec([F(name, v)]), false) == if s.None? then None else Some(Node(map[name := s.value]))
  {
    var fs := [F(name, v)];
    JsonNameOf(name, v);
    if IsEmptyJSONValue(v) { EmptyShape(path + [name], v); }
    hide Shape, Wf, Fails, JsonFieldName, Rec;
    PlainFields(path, fs, [name], [v]);
    RecWf(path, fs);
    NoFailure(fs);
    RecShape(path, fs);
    FieldsKidsAt(path, fs, 0);
    FieldsKidsNames(path, fs);
    var kids, s := FieldsKids(path, fs), Shape(path + [name], v, false);
    assert FieldShape(path, fs[0]) == s;
    assert kids.Keys <= {name};
    assert name in kids <==> s.Some?;
    assert kids == if s.None? then map[] else map[name := s.value];
  }

  lemma OneEntryWf(path: seq<string>, key: string, v: string)
    requires |path| > 3 && Plain(key)
    ensures Wf(path, Map(true, map[key := Str(v)])) && !Fails(Map(true, map[key := Str(v)]))
  {
    assert Wf(path + [key], Str(v));
  }

  /** A map with one text. */
  lemma OneEntry(path: seq<string>, key: string, v: string)
    requires |path| > 3 && Plain(key)
    ensures Wf(path, Map(true, map[key := Str(v)])) && !Fails(Map(true, map[key := Str(v)]))
    ensures Shape(path, Map(true, map[key := Str(v)]), false)
            == if v == "" then None else Some(Node(map[key := Tip(v)]))
  {
    hide Shape, Wf, Fails, MapKids, Str, Plain, Pack, One;
    var m := Map(true, map[key := Str(v)]);
    OneEntryWf(path, key, v);
    OneText(path + [key], v);
    OneKid(path, m, key);
    MapShape(path, m);
    assert m.entries.Keys == {key};
    PackOne(key, Shape(path + [key], m.entries[key], false));
  }

  lemma OneText(path: seq<string>, v: string)
    ensures Shape(path, Str(v), false) == if v == "" then None else Some(Tip(v))
  {
  }

  lemma OneKid(path: seq<string>, m: Value, key: string)
    requires m.Map? && Wf(path, m) && |path| > 3 && key in m.entries
    ensures Wf(path + [key], m.entries[key])
    ensures MapKids(path, m, {key}) == One(key, Shape(path + [key], m.entries[key], false))
  {
    hide Shape;
    MapKidsAdd(path, m, {}, key);
    assert {} + {key} == {key};
  }

  lemma PackOne(key: string, s: Option<Trie>)
    ensures Pack(One(key, s)) == if s.None? then None else Some(Node(map[key := s.value]))
  {
    if s.Some? { assert key in One(key, s); }
  }

  /** What a struct with a struct with a map with one text emits. */
  lemma NestedEntry(path: seq<string>, a: string, b: string, key: string, v: string)
    requires |path| > 3 && Word(a) && Word(b) && Plain(key)
    ensures var n := Rec([F(a, Rec([F(b, Map(true, map[key := Str(v)]))]))]);
      && Wf(path, n) && !Fails(n)
      && Shape(path, n, false)
         == if v == "" then None else Some(Node(map[a := Node(map[b := Node(map[key := Tip(v)])])]))
  {
    var m := Map(true, map[key := Str(v)]);
    hide Shape, Wf, Fails, F, Word;
    OneEntry(path + [a] + [b], key, v);
    OneField(path + [a], b, m);
    OneField(path, a, Rec([F(b, m)]));
  }

  /** A headers middleware with one custom request header; an empty value tells Traefik to remove the header. */
  function Headers(v: string): seq<Field>
  {
    [F("headers", Rec([F("customRequestHeaders", Map(true, map["X-Script-Name" := Str(v)]))]))]
  }

  /** Two headers middlewares. */
  function TwoHeaders(a: string, v: string, b: string, w: string): Configuration
  {
    Configuration(Section(map[], map[], map[a := Some(Headers(v)), b := Some(Headers(w))], []), NOTHING, NOTHING, None)
  }

  const MIDDLEWARES: SetName := SetName("http", "middlewares")

  lemma HeadersShape(path: seq<string>, v: string)
    requires |path| > 3
    ensures Wf(path, Rec(Headers(v))) && !Fails(Rec(Headers(v)))
    ensures Shape(path, Rec(Headers(v)), false).Some? <==> v != ""
  {
    hide Shape, Wf, Fails, F, Rec;
    NestedEntry(path, "headers", "customRequestHeaders", "X-Script-Name", v);
  }

  lemma TwoEntries(path: seq<string>, a: string, b: string, x: Value, y: Value)
    requires Plain(a) && Plain(b) && a != b && MapKey(path, a) == a && MapKey(path, b) == b
    requires Wf(path + [a], x) && Wf(path + [b], y) && !Fails(x) && !Fails(y)
    ensures Wf(path, Map(true, map[a := x, b := y])) && !Fails(Map(true, map[a := x, b := y]))
  {
  }

  /** Two different names that `@docker` and slashes do not matter to. */
  predicate PlainPair(a: string, b: string)
  {
    Plain(a) && Plain(b) && a != b && StripDocker(a) == a && StripDocker(b) == b
  }

  lemma TwoHeadersEntries(a: string, v: string, b: string, w: string)
    requires a != b
    ensures var s := TwoHeaders(a, v, b, w).http;
      && Entries("http", s, "routers") == map[] && Entries("http", s, "services") == map[]
      && Entries("http", s, "middlewares") == map[a := Rec(Headers(v)), b := Rec(Headers(w))]
  {
    hide Headers, Rec;
  }

  lemma TwoHeadersNames(a: string, v: string, b: string, w: string)
    requires PlainPair(a, b)
    ensures Names(TwoHeaders(a, v, b, w), SETS[0]) == {a, b}
    ensures forall i :: 0 < i < |SETS| ==> Names(TwoHeaders(a, v, b, w), SETS[i]) == {}
    ensures AreaEntries(TwoHeaders(a, v, b, w), SETS[0]) == map[a := Rec(Headers(v)), b := Rec(Headers(w))]
  {
    TwoHeadersEntries(a, v, b, w);
    hide Headers, Rec;
  }

  lemma PlainKeys(a: string, b: string)
    requires PlainPair(a, b)
    ensures MapKey(AreaPath(MIDDLEWARES), a) == a && MapKey(AreaPath(MIDDLEWARES), b) == b
  {
  }

  lemma TwoHeadersWf(a: string, v: string, b: string, w: string)
    requires PlainPair(a, b)
    ensures WfConf(TwoHeaders(a, v, b, w)) && KvOf(TwoHeaders(a, v, b, w)).Some?
  {
    hide Shape, Wf, Fails, F, Rec, Headers, WfConf, KvOf, MapKey, Entries, StripDocker, Plain;
    var c := TwoHeaders(a, v, b, w);
    var area, fs := AreaPath(MIDDLEWARES), SectionFields("http", c.http);
    var m := Map(true, map[a := Rec(Headers(v)), b := Rec(Headers(w))]);
    PlainKeys(a, b);
    TwoHeadersEntries(a, v, b, w);
    HeadersShape(area + [a], v);
    HeadersShape(area + [b], w);
    TwoEntries(area, a, b, Rec(Headers(v)), Rec(Headers(w)));
    EmptyMapWf(ROOT + ["http"] + ["routers"]);
    EmptyMapWf(ROOT + ["http"] + ["services"]);
    assert ROOT + ["http"] + ["middlewares"] == area;
    ThreeMaps(ROOT + ["http"], fs, [Map(true, map[]), Map(true, map[]), m]);
    HttpOnly(c);
  }

  /** A middleware publishes something exactly when its header is not empty. */
  lemma TwoHeadersEmit(a: string, v: string, b: string, w: string)
    requires PlainPair(a, b)
    ensures WfConf(TwoHeaders(a, v, b, w)) && KvOf(TwoHeaders(a, v, b, w)).Some?
    ensures Emits(TwoHeaders(a, v, b, w), SETS[0], a) <==> v != ""
    ensures Emits(TwoHeaders(a, v, b, w), SETS[0], b) <==> w != ""
  {
    var c := TwoHeaders(a, v, b, w);
    assert NamePath(SETS[0], a) == AreaPath(SETS[0]) + [a] && NamePath(SETS[0], b) == AreaPath(SETS[0]) + [b];
    TwoHeadersWf(a, v, b, w);
    TwoHeadersNames(a, v, b, w);
    hide Shape, Wf, Rec, Headers, WfConf, KvOf, Names, AreaEntries, NamePath, Emits, TwoHeaders;
    HeadersShape(AreaPath(SETS[0]) + [a], v);
    HeadersShape(AreaPath(SETS[0]) + [b], w);
    EmitsIff(c, SETS[0], a);
    EmitsIff(c, SETS[0], b);
  }

  // ---------- without any failure ----------

  lemma EmptyTidy(inst: Inst, c: Configuration)
    ensures ValidDb(EMPTY) && Tidy(inst, EMPTY, None) && NoKeys(EMPTY.strings, c)
  {
    hide SetKey, NewKey, Names;
  }

  /** A first store from nothing, and what it leaves. */
  lemma FirstStore(inst: Inst, c: Configuration) returns (ch: Choice, done: nat, db: Db)
    requires WfConf(c) && KvOf(c).Some?
    ensures StoreStep(inst, EMPTY, c, ch, done, db, true) && ValidDb(db) && Tidy(inst, db, Some(c))
  {
    hide WfConf, KvOf, StoreStep, Possible, Names, Dropped, ValidDb, Tidy, FinalSets, Enumerates;
    EmptyTidy(inst, c);
    var reply := Enumeration(Dropped(inst, EMPTY, c, SETS[0]));
    ch := PossibleWith(inst, EMPTY, c, 0, reply);
    done, db := Completed(inst, EMPTY, c, ch);
    FinalTidy(inst, EMPTY, None, c, db);
  }

  ghost predicate TwoPublishes(inst: Inst, sites: seq<Site>, events: seq<Happening>, c0: Configuration,
                               c1: Configuration)
  {
    && |events| == 2 && IsHistory(inst, sites, events) && sites[0] == Site(EMPTY, None, 0)
    && events[0].Publish? && events[0].c == c0 && events[1].Publish? && events[1].c == c1
    && forall j :: 0 <= j < 2 ==> Orderly(inst, sites[j], events[j])
  }

  lemma PublishBoth(inst: Inst, c0: Configuration, ch0: Choice, done0: nat, db1: Db, c1: Configuration, ch1: Choice,
                    done1: nat, db2: Db)
    returns (sites: seq<Site>, events: seq<Happening>)
    requires WfConf(c0) && WfConf(c1) && ValidDb(EMPTY) && ValidDb(db1)
    requires StoreStep(inst, EMPTY, c0, ch0, done0, db1, true) && StoreStep(inst, db1, c1, ch1, done1, db2, true)
    ensures TwoPublishes(inst, sites, events, c0, c1) && sites[2].db == db2
  {
    hide WfConf, StoreStep, ValidDb;
    sites := [Site(EMPTY, None, 0), Site(db1, Some(c0), 0), Site(db2, Some(c1), db1.now)];
    events := [Publish(c0, ch0, done0, true), Publish(c1, ch1, done1, true)];
    assert Next(inst, sites[0], events[0], sites[1]);
    assert Next(inst, sites[1], events[1], sites[2]);
  }

  lemma LeakingRun(inst: Inst, c0: Configuration, c1: Configuration, i: nat, silent: string, n: string)
    returns (sites: seq<Site>, events: seq<Happening>, k: string)
    requires WfConf(c0) && KvOf(c0).Some? && WfConf(c1) && KvOf(c1).Some? && DroppedApart(Some(c0), c1) && i < |SETS|
    requires silent in Names(c0, SETS[i]) && silent !in Names(c1, SETS[i]) && !Emits(c0, SETS[i], silent)
    requires n in Names(c0, SETS[i]) && n !in Names(c1, SETS[i]) && Emits(c0, SETS[i], n)
    ensures TwoPublishes(inst, sites, events, c0, c1)
    ensures k in KvOf(c0).value && k in sites[2].db.strings && Under(SETS[i], n, k)
    ensures !HasOwner(TrackedNames(inst, sites[2].db, SETS[i]), SETS[i], k)
  {
    hide WfConf, KvOf, StoreStep, Names, ValidDb, Tidy, NoKeys, DroppedApart, Emits, Under, HasOwner, TwoPublishes;
    EmptyTidy(inst, c0);
    var ch0, done0, db1 := FirstStore(inst, c0);
    var ch1, done1, db2;
    ch1, done1, db2, k := SilentNameLeaks(inst, EMPTY, c0, ch0, done0, db1, c1, i, silent, n);
    sites, events := PublishBoth(inst, c0, ch0, done0, db1, c1, ch1, done1, db2);
  }

  const MIXED: Configuration := TwoHeaders("set", "/app", "unset", "")

  /** A run a fresh process can make on an empty database: two successful stores, no time passing, nothing lost. For
      some reply order it leaves a key of its own that no tracking set covers. */
  lemma FailureFreeLeak(inst: Inst) returns (sites: seq<Site>, events: seq<Happening>, k: string)
    ensures TwoPublishes(inst, sites, events, MIXED, BARE)
    ensures WfConf(MIXED) && KvOf(MIXED).Some? && k in KvOf(MIXED).value && k in sites[2].db.strings
    ensures Under(MIDDLEWARES, "set", k)
    ensures !HasOwner(TrackedNames(inst, sites[2].db, MIDDLEWARES), MIDDLEWARES, k)
  {
    TwoHeadersEmit("set", "/app", "unset", "");
    TwoHeadersNames("set", "/app", "unset", "");
    BareIsFine();
    BareNames(0);
    BareApart(MIXED);
    assert SETS[0] == MIDDLEWARES;
    hide WfConf, KvOf, Names, DroppedApart, Emits, Under, HasOwner, NamePath, TwoPublishes, TwoHeaders;
    sites, events, k := LeakingRun(inst, MIXED, BARE, 0, "unset", "set");
  }

  lemma BareApart(c: Configuration)
    ensures DroppedApart(Some(c), BARE)
  {
    hide Names, StripDocker;
    forall i: nat | i < |SETS| ensures Names(BARE, SETS[i]) == {} { BareNames(i); }
  }

  // ---------- with a failed re-publication ----------

  /** A store, a store of another configuration that fails at its first SET, a KeepConfAlive that fails while it
      re-publishes the first configuration, and two successful stores of the second. */
  ghost predicate FailedRestore(inst: Inst, dbs: seq<Db>, p: Configuration, keep: Keep, c: Configuration)
    requires WfConf(p) && WfConf(c)
  {
    && |dbs| == 6 && dbs[0] == EMPTY
    && Serial.StoreDone(inst, dbs[0], p, dbs[1], true) && Serial.StoreDone(inst, dbs[1], c, dbs[2], false)
    && KeepStep(inst, dbs[2], Some(p), keep, dbs[3], false)
    && Serial.StoreDone(inst, dbs[3], c, dbs[4], true) && Serial.StoreDone(inst, dbs[4], c, dbs[5], true)
  }

  /** A store of `p` on the empty database, and one of `c` that fails at its first SET. */
  lemma FirstFailure(inst: Inst, p: Configuration, c: Configuration) returns (db1: Db, db2: Db)
    requires WfConf(p) && KvOf(p).Some? && WfConf(c) && KvOf(c).Some? && KvOf(c).value != map[]
    requires DroppedEmit(Some(p), c) && DroppedApart(Some(p), c)
    ensures Serial.StoreDone(inst, EMPTY, p, db1, true) && Serial.StoreDone(inst, db1, c, db2, false)
    ensures Pending(inst, db2, p, c)
  {
    hide WfConf, KvOf, StoreStep, ValidDb, Tidy, DroppedEmit, DroppedApart, Pending, SortedSeq, LeftBy, Possible,
      DropsEven, Apart, LeftoverOf, Sentinel, StorePlan, TrackPlan, Run;
    EmptyTidy(inst, p);
    var ch0, done0, ch1, done1;
    ch0, done0, db1 := FirstStore(inst, p);
    PublishFull(inst, EMPTY, p, ch0, done0, db1);
    SettledReady(inst, db1, Some(p), c);
    SortedSize(KvOf(c).value.Keys);
    assert KvOf(c).value.Keys != {};
    ch1, done1, db2 := StopsAfter(inst, db1, c, 0);
    FailureIsPending(inst, db1, p, c, ch1, done1, db2);
    IsDone(inst, EMPTY, p, ch0, done0, db1, true);
    IsDone(inst, db1, c, ch1, done1, db2, false);
  }

  lemma LeakingRestore(inst: Inst, p: Configuration, c: Configuration, i: nat, u: string, v: string)
    returns (dbs: seq<Db>, keep: Keep, k: string)
    requires inst.ttl > 0 && WfConf(p) && KvOf(p).Some? && WfConf(c) && KvOf(c).Some? && KvOf(c).value != map[]
    requires DroppedEmit(Some(p), c) && DroppedApart(Some(p), c)
    requires forall l :: 0 <= l < |SETS| && Names(c, SETS[l]) == {} ==> Names(p, SETS[l]) == {}
    requires i < |SETS| && u in Names(p, SETS[i]) - Names(c, SETS[i]) && v in Names(p, SETS[i]) - Names(c, SETS[i])
    requires u != v && Emits(p, SETS[i], u) && Emits(p, SETS[i], v)
    ensures FailedRestore(inst, dbs, p, keep, c)
    ensures k in dbs[5].strings && (Under(SETS[i], u, k) || Under(SETS[i], v, k))
    ensures !HasOwner(TrackedNames(inst, dbs[5], SETS[i]), SETS[i], k)
  {
    hide WfConf, KvOf, Names, Emits, DroppedEmit, DroppedApart, KeepStep, Pending, HasOwner, Under, Serial.StoreDone;
    var db1, db2 := FirstFailure(inst, p, c);
    var db3, db4, db5;
    keep, db3, db4, db5, k := RepublicationLeaks(inst, db2, p, c, i, u, v);
    dbs := [EMPTY, db1, db2, db3, db4, db5];
  }

  /** Two pairs of headers middlewares without a common name. */
  lemma HeadersFit(a: string, v: string, b: string, w: string, x: string, r: string, y: string, t: string)
    requires PlainPair(a, b) && PlainPair(x, y) && a != x && a != y && b != x && b != y
    requires v != "" && w != "" && r != "" && t != ""
    ensures var p, c := TwoHeaders(a, v, b, w), TwoHeaders(x, r, y, t);
      && WfConf(p) && KvOf(p).Some? && WfConf(c) && KvOf(c).Some? && KvOf(c).value != map[]
      && DroppedEmit(Some(p), c) && DroppedApart(Some(p), c)
      && (forall i :: 0 <= i < |SETS| && Names(c, SETS[i]) == {} ==> Names(p, SETS[i]) == {})
      && Names(p, SETS[0]) - Names(c, SETS[0]) == {a, b} && Emits(p, SETS[0], a) && Emits(p, SETS[0], b)
  {
    var p, c := TwoHeaders(a, v, b, w), TwoHeaders(x, r, y, t);
    hide WfConf, KvOf, Names, TwoHeaders, Emits, StripDocker, Plain, DroppedEmit, DroppedApart, AreaEntries, Rec,
      Headers;
    TwoHeadersEmit(a, v, b, w);
    TwoHeadersNames(a, v, b, w);
    TwoHeadersEmit(x, r, y, t);
    TwoHeadersNames(x, r, y, t);
    EmitsSomething(c, SETS[0], x);
    BothEmit(p, c, a, b);
    BothApart(p, c, a, b, x, y);
  }

  lemma EmitsSomething(c: Configuration, sn: SetName, n: string)
    requires WfConf(c) && KvOf(c).Some? && Emits(c, sn, n)
    ensures KvOf(c).value != map[]
  {
    hide WfConf, KvOf, Under;
  }

  lemma BothEmit(p: Configuration, c: Configuration, a: string, b: string)
    requires WfConf(p) && KvOf(p).Some? && Emits(p, SETS[0], a) && Emits(p, SETS[0], b)
    requires Names(p, SETS[0]) == {a, b} && forall i :: 0 < i < |SETS| ==> Names(p, SETS[i]) == {}
    ensures DroppedEmit(Some(p), c)
  {
    hide WfConf, KvOf, Names, Emits;
  }

  lemma BothApart(p: Configuration, c: Configuration, a: string, b: string, x: string, y: string)
    requires PlainPair(a, b) && PlainPair(x, y) && a != x && a != y && b != x && b != y
    requires Names(p, SETS[0]) == {a, b} && Names(c, SETS[0]) == {x, y}
    requires forall i :: 0 < i < |SETS| ==> Names(p, SETS[i]) == {}
    ensures DroppedApart(Some(p), c)
  {
    hide Names, StripDocker, Plain;
  }

  /** So an older configuration with two middlewares and a newer one with two others: with a failed store and a failed
      re-publication in between, a key of the older one is left that no tracking set covers. */
  lemma FailedRestoreLeak(inst: Inst) returns (dbs: seq<Db>, keep: Keep, k: string)
    requires inst.ttl > 0
    ensures var p, c := TwoHeaders("first", "/a", "second", "/b"), TwoHeaders("third", "/c", "fourth", "/d");
      WfConf(p) && WfConf(c) && FailedRestore(inst, dbs, p, keep, c)
    ensures k in dbs[5].strings && (Under(MIDDLEWARES, "first", k) || Under(MIDDLEWARES, "second", k))
    ensures !HasOwner(TrackedNames(inst, dbs[5], MIDDLEWARES), MIDDLEWARES, k)
  {
    hide WfConf, KvOf, Names, Emits, DroppedEmit, DroppedApart, FailedRestore, HasOwner, Under, TwoHeaders;
    HeadersFit("first", "/a", "second", "/b", "third", "/c", "fourth", "/d");
    assert SETS[0] == MIDDLEWARES;
    dbs, keep, k := LeakingRestore(inst, TwoHeaders("first", "/a", "second", "/b"),
                                   TwoHeaders("third", "/c", "fourth", "/d"), 0, "first", "second");
  }
}
