/** What goes wrong between two hosts when the one is named like the other followed by "_new", and that nothing else
    does. */
module Collision {
  import opened Paths
  import opened Values
  import opened Config
  import opened Published
  import opened Redis
  import opened Plan
  import opened Removal
  import opened ClosedForm
  import opened Hosts
  import opened Leak

  /** Any complete store of host x deletes every tracking set of host x_new, or takes it for its own. */
  lemma CollisionDestroys(x: string, ttl: nat, db: Db, c: Configuration, kv: map<string, string>, ch: Choice, i: nat)
    requires Shaped(ch) && ValidDb(db) && Possible(Inst(x, ttl), db, c, ch) && i < |SETS|
    ensures var r := Run(Inst(x, ttl), Sys(db, false), FullPlan(c, kv, ch)).db;
      SetKey(Inst(x + "_new", ttl), SETS[i]) !in r.sets
    ensures var r := Run(Inst(x, ttl), Sys(db, false), FullPlan(c, kv, ch)).db;
      db.Members(SetKey(Inst(x + "_new", ttl), SETS[i])) <= r.Members(SetKey(Inst(x, ttl), SETS[i]))
  {
    hide Possible, Run, FullPlan, ValidDb, Names, OwnUpTo;
    StoreSets(Inst(x, ttl), db, c, kv, ch);
    CollidingHosts(x, SETS[i]);
    SameKeys(x, ttl, SETS[i]);
  }

  lemma SameKeys(x: string, ttl: nat, sn: SetName)
    ensures NewKey(Inst(x, ttl), sn) == SetKey(Inst(x + "_new", ttl), sn)
  {
    CollidingHosts(x, sn);
  }

  /** No store of the other host, complete or cut, changes a name set of this host. */
  ghost predicate LeavesSetsAlone(host: string, other: Inst)
  {
    forall db, c, ch, done, db', ok :: WfConf(c) && ValidDb(db) && StoreStep(other, db, c, ch, done, db', ok) ==>
      SameSets(host, db, db')
  }

  ghost predicate SameSets(host: string, a: Db, b: Db)
  {
    forall t :: OwnSet(host, t) ==> b.Members(t) == a.Members(t)
  }

  lemma PlanOnOwnSets(c: Configuration, ch: Choice, m: Micro)
    requires WfConf(c) && Shaped(ch) && m in StorePlan(c, ch)
    ensures OnOwnSets(m)
  {
    hide WfConf, KvOf, Tracks, AllStales, SortedSeq, Names;
    if m in TrackPlan(c, ch) {
      var i := TrackFrom(c, ch.replies, |SETS|, m);
    } else if m in CleanPlan(KvOf(c).value, ch) {
      var i := StaleFrom(ch.services, KvOf(c).value.Keys, |PROTO_ORDER|, m);
    }
  }

  lemma {:induction false} RunSameSets(host: string, other: Inst, y: Sys, p: seq<Micro>)
    requires HostsApart(host, other.host) && forall m :: m in p ==> OnOwnSets(m)
    ensures SameSets(host, y.db, Run(other, y, p).db)
  {
    if p != [] {
      hide Do, OnOwnSets, OwnSet, HostsApart;
      var n := |p| - 1;
      RunSameSets(host, other, y, p[..n]);
      forall t | OwnSet(host, t)
        ensures Do(other, Run(other, y, p[..n]), p[n]).db.Members(t) == Run(other, y, p[..n]).db.Members(t)
      {
        SetUntouched(host, other, Run(other, y, p[..n]), p[n], t);
      }
    }
  }

  lemma ApartLeavesAlone(host: string, other: Inst)
    requires HostsApart(host, other.host)
    ensures LeavesSetsAlone(host, other)
  {
    hide WfConf, KvOf, Run, StorePlan, Possible, ValidDb, SameSets, OnOwnSets, HostsApart;
    forall db, c, ch, done: nat, db', ok | WfConf(c) && ValidDb(db) && StoreStep(other, db, c, ch, done, db', ok)
      ensures SameSets(host, db, db')
    {
      PossibleShaped(other, db, c, ch);
      forall m | m in StorePlan(c, ch)[..done] ensures OnOwnSets(m) {
        PlanOnOwnSets(c, ch, m);
      }
      RunSameSets(host, other, Sys(db, false), StorePlan(c, ch)[..done]);
    }
  }

  // ---------- the converse ----------

  const NOTHING: Section := Section(map[], map[], map[], [])

  /** A configuration without routers, services and middlewares. */
  const BARE: Configuration := Configuration(NOTHING, NOTHING, NOTHING, None)

  lemma PlainField(path: seq<string>, name: string, v: Value)
    requires Plain(name) && ',' !in name && name != "" && Wf(path + [name], v)
    ensures WfField(path, F(name, v)) && NamesOf(F(name, v)) == {name}
  {
    JsonNameOf(name, v);
    hide JsonFieldName, F;
  }

  ghost predicate FieldsOf(fs: seq<Field>, names: seq<string>, vs: seq<Value>)
  {
    |fs| == |names| == |vs| && forall i :: 0 <= i < |fs| ==> fs[i] == F(names[i], vs[i])
  }

  /** Distinct names make well-formed fields. */
  lemma {:induction false} PlainFields(path: seq<string>, fs: seq<Field>, names: seq<string>, vs: seq<Value>)
    requires FieldsOf(fs, names, vs)
    requires forall i :: 0 <= i < |names| ==>
      Plain(names[i]) && ',' !in names[i] && names[i] != "" && Wf(path + [names[i]], vs[i])
    requires forall i, j :: 0 <= i < j < |names| ==> names[i] != names[j]
    ensures WfFields(path, fs) && FieldNames(fs) == set i | 0 <= i < |names| :: names[i]
  {
    hide F, Wf, WfField, NamesOf;
    if fs != [] {
      var n := |fs| - 1;
      PlainFields(path, fs[..n], names[..n], vs[..n]);
      PlainField(path, names[n], vs[n]);
      assert names[..n][..n] == names[..n];
      forall x ensures x in FieldNames(fs) <==> exists i :: 0 <= i < |names| && names[i] == x {
        if x in FieldNames(fs[..n]) {
          var i :| 0 <= i < |names[..n]| && names[..n][i] == x;
          assert names[i] == x;
        }
        if i :| 0 <= i < |names| && names[i] == x {
          if i < n { assert names[..n][i] == x; }
        }
      }
    }
  }

  lemma BareFields(proto: string)
    ensures FieldsOf(SectionFields(proto, NOTHING), ["routers", "services", "middlewares"],
                     [Map(true, map[]), Map(true, map[]), Map(true, map[])])
  {
    hide F;
    assert Entries(proto, NOTHING, "routers") == map[] && Entries(proto, NOTHING, "services") == map[]
           && Entries(proto, NOTHING, "middlewares") == map[];
  }

  lemma BareSection(path: seq<string>, proto: string)
    ensures Wf(path, Rec(SectionFields(proto, NOTHING))) && !Fails(Rec(SectionFields(proto, NOTHING)))
  {
    BareFields(proto);
    hide F, SectionFields, Wf, WfFields, Fails, FieldsOf, Rec;
    var names := ["routers", "services", "middlewares"];
    forall i | 0 <= i < 3 ensures Wf(path + [names[i]], Map(true, map[])) && !Fails(Map(true, map[])) {
      EmptyMapWf(path + [names[i]]);
    }
    ThreeMaps(path, SectionFields(proto, NOTHING), [Map(true, map[]), Map(true, map[]), Map(true, map[])]);
  }

  /** A section is well-formed and can be rendered when its three maps are and can. */
  lemma ThreeMaps(path: seq<string>, fs: seq<Field>, vs: seq<Value>)
    requires FieldsOf(fs, ["routers", "services", "middlewares"], vs)
    requires forall i :: 0 <= i < 3 ==> Wf(path + [["routers", "services", "middlewares"][i]], vs[i]) && !Fails(vs[i])
    ensures Wf(path, Rec(fs)) && !Fails(Rec(fs))
  {
    var names := ["routers", "services", "middlewares"];
    hide F, Wf, WfFields, Fails, Rec;
    PlainFields(path, fs, names, vs);
    FieldValues(fs, names, vs);
    RecWf(path, fs);
    NoFailure(fs);
  }

  lemma FieldValues(fs: seq<Field>, names: seq<string>, vs: seq<Value>)
    requires FieldsOf(fs, names, vs) && forall i :: 0 <= i < |vs| ==> !Fails(vs[i])
    ensures forall i :: 0 <= i < |fs| ==> !Fails(fs[i].value)
  {
    hide Fails;
  }

  lemma NoFailure(fs: seq<Field>)
    requires forall i :: 0 <= i < |fs| ==> !Fails(fs[i].value)
    ensures !Fails(Struct(fs)) && !Fails(Rec(fs))
  {
    assert !Fails(Struct(fs));
  }

  lemma EmptyMapWf(path: seq<string>)
    ensures Wf(path, Map(true, map[])) && !Fails(Map(true, map[]))
  {
  }

  lemma BareIsFine()
    ensures WfConf(BARE) && KvOf(BARE).Some?
  {
    BareSection(ROOT + ["http"], "http");
    hide F, SectionFields, Wf, Fails, Rec;
    HttpOnly(BARE);
  }

  /** A configuration with nothing but an http section is as well-formed as that section. */
  lemma HttpOnly(c: Configuration)
    requires c.tcp == NOTHING && c.udp == NOTHING && c.tls == None
    requires Wf(ROOT + ["http"], Rec(SectionFields("http", c.http))) && !Fails(Rec(SectionFields("http", c.http)))
    ensures WfConf(c) && KvOf(c).Some?
  {
    var fs, names := ConfFields(c), ["http", "tcp", "udp", "tls"];
    var vs := [Rec(SectionFields("http", c.http)), Rec(SectionFields("tcp", NOTHING)),
               Rec(SectionFields("udp", NOTHING)), Ptr(None)];
    BareSection(ROOT + ["tcp"], "tcp");
    BareSection(ROOT + ["udp"], "udp");
    EmptyPtr(ROOT + ["tls"]);
    hide F, SectionFields, Wf, Fails, Rec;
    assert FieldsOf(fs, names, vs);
    PlainFields(ROOT, fs, names, vs);
    FieldValues(fs, names, vs);
    hide ConfFields;
    ConfWf(c);
    NoFailure(fs);
  }

  lemma EmptyPtr(path: seq<string>)
    ensures Wf(path, Ptr(None)) && !Fails(Ptr(None))
  {
  }

  lemma BareNames(i: nat)
    requires i < |SETS|
    ensures Names(BARE, SETS[i]) == {}
  {
  }

  /** Hosts that are not apart share a set, and a store of the bare configuration empties it. */
  lemma SharedSetEmptied(host: string, other: Inst, t: string) returns (db: Db, ch: Choice, done: nat, db': Db)
    requires OwnSet(host, t) && OwnSet(other.host, t)
    ensures WfConf(BARE) && ValidDb(db) && StoreStep(other, db, BARE, ch, done, db', true) && !SameSets(host, db, db')
  {
    BareIsFine();
    db := Db(map[], map[t := {"a"}], 0);
    hide WfConf, KvOf, Run, FullPlan, StorePlan, Possible, Dropped, OwnSet, SameSets, StoreStep, FinalSets;
    var reply := Enumeration(Dropped(other, db, BARE, SETS[0]));
    ch := PossibleWith(other, db, BARE, 0, reply);
    done, db' := Completed(other, db, BARE, ch);
    var i := OwnIndex(other, t);
    BareNames(i);
    EmptiedSet(other, db, db', t, i);
    NotSame(host, db, db', t);
  }

  /** The store that executes the whole plan. */
  lemma Completed(inst: Inst, db: Db, c: Configuration, ch: Choice) returns (done: nat, db': Db)
    requires WfConf(c) && KvOf(c).Some? && ValidDb(db) && Shaped(ch) && Possible(inst, db, c, ch)
    ensures StoreStep(inst, db, c, ch, done, db', true) && ValidDb(db') && FinalSets(inst, db, c, db')
    ensures db' == Run(inst, Sys(db, false), FullPlan(c, KvOf(c).value, ch)).db
  {
    hide WfConf, KvOf, Run, FullPlan, Possible, FinalSets, ValidDb;
    var p := StorePlan(c, ch);
    done := |p|;
    assert p[..|p|] == p;
    db' := Run(inst, Sys(db, false), p).db;
    StoreSets(inst, db, c, KvOf(c).value, ch);
  }

  lemma EmptiedSet(inst: Inst, db: Db, db': Db, t: string, i: nat)
    requires db.sets == map[t := {"a"}] && FinalSets(inst, db, BARE, db') && i < |SETS| && Names(BARE, SETS[i]) == {}
    requires t == SetKey(inst, SETS[i]) || t == NewKey(inst, SETS[i])
    ensures db.Members(t) == {"a"} && db'.Members(t) == {}
  {
    OwnKeysDistinct(inst, SETS[i], SETS[i]);
    hide SetKey, NewKey, OwnUpTo, Names;
  }

  lemma NotSame(host: string, a: Db, b: Db, t: string)
    requires OwnSet(host, t) && a.Members(t) == {"a"} && b.Members(t) == {}
    ensures !SameSets(host, a, b)
  {
    hide OwnSet;
    assert "a" in a.Members(t);
  }

  lemma OwnIndex(inst: Inst, t: string) returns (i: nat)
    requires OwnSet(inst.host, t)
    ensures i < |SETS| && (t == SetKey(inst, SETS[i]) || t == NewKey(inst, SETS[i]))
  {
    i :| 0 <= i < |SETS| && (t == Sk(inst.host, SetLabel(SETS[i])) || t == Sk(inst.host, SetLabel(SETS[i])) + "_new");
  }

  /** Another host's stores leave this host's name sets alone exactly when the names differ and neither is the
      other followed by "_new". */
  lemma LeavesSetsAloneIff(host: string, other: Inst)
    ensures LeavesSetsAlone(host, other) <==> HostsApart(host, other.host)
  {
    SetsDisjointIff(host, other.host);
    if HostsApart(host, other.host) {
      ApartLeavesAlone(host, other);
    } else {
      hide HostsApart, OwnSet, WfConf, StoreStep, SameSets, ValidDb;
      var t :| OwnSet(host, t) && OwnSet(other.host, t);
      var db, ch, done, db' := SharedSetEmptied(host, other, t);
    }
  }
}
