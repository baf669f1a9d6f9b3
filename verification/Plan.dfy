/** RedisStore.store as the sequence of commands it sends. A Store that fails at a SET, or a process that
    dies midway, executes a prefix of this plan. */
module Plan {
  import opened Paths
  import opened Values
  import opened Config
  import opened Published
  import opened Redis

  datatype Inst = Inst(host: string, ttl: nat)

  datatype Micro =
    | Add(sn: SetName, names: set<string>)
    | Remove(sn: SetName, name: string)
    | Put(key: string, value: string)
    | Stale(proto: string, name: string, kept: set<string>)
    | Swap(sn: SetName)
    | Stamp(text: string)

  /** `halted`: the current removeKeys call has returned early. */
  datatype Sys = Sys(db: Db, halted: bool)

  function SetKey(inst: Inst, sn: SetName): string
  {
    Sk(inst.host, SetLabel(sn))
  }

  function NewKey(inst: Inst, sn: SetName): string
  {
    SetKey(inst, sn) + "_new"
  }

  function Sentinel(inst: Inst): string
  {
    Sk(inst.host, "kop_last_update")
  }

  function ServersPath(proto: string, name: string): seq<string>
  {
    ["traefik", proto, "services", StripDocker(name), "loadBalancer", "servers"]
  }

  function ServersPrefix(proto: string, name: string): string
  {
    "traefik/" + proto + "/services/" + StripDocker(name) + "/loadBalancer/servers/"
  }

  function Do(inst: Inst, y: Sys, m: Micro): Sys
  {
    var db := y.db;
    match m
    case Add(sn, names) => Sys(db.SAdd(NewKey(inst, sn), names), false)
    case Remove(sn, name) =>
      var hit := db.Matching(K(SetLabel(sn), name) + "/");
      if y.halted || hit == {} then y.(halted := true) else y.(db := db.Unlink(hit))
    case Put(key, value) => y.(db := db.Set(key, value, inst.ttl))
    case Stale(proto, name, kept) => y.(db := db.Unlink(db.Matching(ServersPrefix(proto, name)) - kept))
    case Swap(sn) =>
      y.(db := if NewKey(inst, sn) in db.sets then db.Rename(NewKey(inst, sn), SetKey(inst, sn))
               else db.UnlinkSet(SetKey(inst, sn)))
    case Stamp(text) => y.(db := db.Set(Sentinel(inst), text, inst.ttl))
  }

  function Run(inst: Inst, y: Sys, plan: seq<Micro>): Sys
  {
    if plan == [] then y else Do(inst, Run(inst, y, plan[..|plan| - 1]), plan[|plan| - 1])
  }

  lemma {:induction false} RunConcat(inst: Inst, y: Sys, a: seq<Micro>, b: seq<Micro>)
    ensures Run(inst, y, a + b) == Run(inst, Run(inst, y, a), b)
  {
    if b == [] {
      assert a + b == a;
    } else {
      var b' := b[..|b| - 1];
      RunConcat(inst, y, a, b');
      assert (a + b)[..|a + b| - 1] == a + b';
    }
  }

  lemma RunSnoc(inst: Inst, y: Sys, a: seq<Micro>, m: Micro)
    ensures Run(inst, y, a + [m]) == Do(inst, Run(inst, y, a), m)
  {
    assert (a + [m])[..|a|] == a;
  }

  // ---------- sorted keys ----------

  predicate LexLe(a: string, b: string)
  {
    a == "" || (b != "" && (a[0] < b[0] || (a[0] == b[0] && LexLe(a[1..], b[1..]))))
  }

  /** A prefix comes first; otherwise the first difference decides. */
  lemma {:induction false} LexLeIs(a: string, b: string)
    ensures LexLe(a, b)
            <==> a <= b || exists i :: 0 <= i < |a| && i < |b| && a[..i] == b[..i] && a[i] < b[i]
  {
    if a != "" && b != "" && a[0] == b[0] {
      LexLeIs(a[1..], b[1..]);
      assert a <= b <==> a[1..] <= b[1..];
      if i :| 0 <= i < |a[1..]| && i < |b[1..]| && a[1..][..i] == b[1..][..i] && a[1..][i] < b[1..][i] {
        assert a[..i + 1] == [a[0]] + a[1..][..i] && b[..i + 1] == [b[0]] + b[1..][..i];
        assert a[i + 1] < b[i + 1];
      }
      if i :| 0 <= i < |a| && i < |b| && a[..i] == b[..i] && a[i] < b[i] {
        assert a[1..][..i - 1] == a[..i][1..] && b[1..][..i - 1] == b[..i][1..];
        assert a[1..][i - 1] < b[1..][i - 1];
      }
    } else if a != "" && b != "" {
      assert a[..0] == b[..0];
      if i :| 0 <= i < |a| && i < |b| && a[..i] == b[..i] && a[i] < b[i] {
        assert i > 0 ==> a[0] == a[..i][0] == b[..i][0] == b[0];
      }
    }
  }

  lemma LexTotal(a: string, b: string)
    ensures LexLe(a, b) || LexLe(b, a)
  {
  }

  lemma LexTransitive(a: string, b: string, c: string)
    requires LexLe(a, b) && LexLe(b, c)
    ensures LexLe(a, c)
  {
  }

  lemma LexAntisymmetric(a: string, b: string)
    requires LexLe(a, b) && LexLe(b, a)
    ensures a == b
  {
    if a != "" {
      LexAntisymmetric(a[1..], b[1..]);
      assert a == [a[0]] + a[1..] && b == [b[0]] + b[1..];
    }
  }

  ghost predicate IsLeast(m: string, s: set<string>)
  {
    m in s && forall x :: x in s ==> LexLe(m, x)
  }

  lemma {:induction false} LeastExists(s: set<string>)
    requires s != {}
    ensures exists m :: IsLeast(m, s)
  {
    var x :| x in s;
    var rest := s - {x};
    LexTotal(x, x);
    if rest == {} {
      assert s == {x} + rest;
      assert IsLeast(x, s);
    } else {
      LeastExists(rest);
      var n :| IsLeast(n, rest);
      LexTotal(x, n);
      var m := if LexLe(x, n) then x else n;
      forall y | y in s ensures LexLe(m, y) {
        if y != x && m == x { LexTransitive(x, n, y); }
      }
      assert IsLeast(m, s);
    }
  }

  ghost function Least(s: set<string>): (m: string)
    requires s != {}
    ensures IsLeast(m, s)
  {
    LeastExists(s);
    var m :| IsLeast(m, s); m
  }

  /** sort.Strings on the keys of a map. */
  ghost function SortedSeq(s: set<string>): (r: seq<string>)
    ensures Enumerates(r, s)
  {
    if s == {} then [] else [Least(s)] + SortedSeq(s - {Least(s)})
  }

  lemma {:induction false} SortedSeqIsSorted(s: set<string>, i: nat, j: nat)
    requires i < j < |SortedSeq(s)|
    ensures LexLe(SortedSeq(s)[i], SortedSeq(s)[j])
  {
    var r, rest := SortedSeq(s), SortedSeq(s - {Least(s)});
    if i == 0 {
      assert r[j] in r;
    } else {
      SortedSeqIsSorted(s - {Least(s)}, i - 1, j - 1);
    }
  }

  // ---------- the plan of store ----------

  /** What Go and Redis leave open: reply orders of SDIFF/SMEMBERS, map iteration over the services, the time stamp. */
  datatype Choice = Choice(replies: seq<seq<string>>, services: seq<seq<string>>, stamp: string)

  const PROTO_ORDER: seq<string> := ["http", "tcp", "udp"]

  function Removes(sn: SetName, names: seq<string>): seq<Micro>
  {
    seq(|names|, i requires 0 <= i < |names| => Remove(sn, names[i]))
  }

  /** removeOldKeys for the first n sets. */
  function Tracks(c: Configuration, replies: seq<seq<string>>, n: nat): seq<Micro>
    requires n <= |SETS| && n <= |replies|
  {
    if n == 0 then []
    else Tracks(c, replies, n - 1) + [Add(SETS[n - 1], Names(c, SETS[n - 1]))] + Removes(SETS[n - 1], replies[n - 1])
  }

  ghost function Puts(kv: map<string, string>, keys: seq<string>): seq<Micro>
    requires forall k :: k in keys ==> k in kv
  {
    seq(|keys|, i requires 0 <= i < |keys| => Put(keys[i], kv[keys[i]]))
  }

  function Stales(proto: string, names: seq<string>, kept: set<string>): seq<Micro>
  {
    seq(|names|, i requires 0 <= i < |names| => Stale(proto, names[i], kept))
  }

  /** The last command of each kind of loop. */
  lemma RemovesSnoc(inst: Inst, y: Sys, sn: SetName, names: seq<string>, i: nat)
    requires i < |names|
    ensures Run(inst, y, Removes(sn, names[..i + 1]))
            == Do(inst, Run(inst, y, Removes(sn, names[..i])), Remove(sn, names[i]))
  {
    hide Do, Run;
    assert Removes(sn, names[..i + 1]) == Removes(sn, names[..i]) + [Remove(sn, names[i])];
    RunSnoc(inst, y, Removes(sn, names[..i]), Remove(sn, names[i]));
  }

  lemma PutsSnoc(inst: Inst, y: Sys, kv: map<string, string>, keys: seq<string>, i: nat)
    requires i < |keys| && forall k :: k in keys ==> k in kv
    ensures Run(inst, y, Puts(kv, keys[..i + 1]))
            == Do(inst, Run(inst, y, Puts(kv, keys[..i])), Put(keys[i], kv[keys[i]]))
  {
    hide Do, Run;
    assert Puts(kv, keys[..i + 1]) == Puts(kv, keys[..i]) + [Put(keys[i], kv[keys[i]])];
    RunSnoc(inst, y, Puts(kv, keys[..i]), Put(keys[i], kv[keys[i]]));
  }

  lemma StalesSnoc(inst: Inst, y: Sys, proto: string, names: seq<string>, kept: set<string>, i: nat)
    requires i < |names|
    ensures Run(inst, y, Stales(proto, names[..i + 1], kept))
            == Do(inst, Run(inst, y, Stales(proto, names[..i], kept)), Stale(proto, names[i], kept))
  {
    hide Do, Run;
    assert Stales(proto, names[..i + 1], kept) == Stales(proto, names[..i], kept) + [Stale(proto, names[i], kept)];
    RunSnoc(inst, y, Stales(proto, names[..i], kept), Stale(proto, names[i], kept));
  }

  function AllStales(services: seq<seq<string>>, kept: set<string>, n: nat): seq<Micro>
    requires n <= |PROTO_ORDER| && n <= |services|
  {
    if n == 0 then [] else AllStales(services, kept, n - 1) + Stales(PROTO_ORDER[n - 1], services[n - 1], kept)
  }

  function Swaps(n: nat): seq<Micro>
    requires n <= |SETS|
  {
    seq(n, i requires 0 <= i < n => Swap(SETS[i]))
  }

  predicate Shaped(ch: Choice)
  {
    |ch.replies| == |SETS| && |ch.services| == |PROTO_ORDER|
  }

  ghost function TrackPlan(c: Configuration, ch: Choice): seq<Micro>
    requires Shaped(ch)
  {
    Tracks(c, ch.replies, |SETS|)
  }

  ghost function WritePlan(kv: map<string, string>): seq<Micro>
  {
    Puts(kv, SortedSeq(kv.Keys))
  }

  ghost function CleanPlan(kv: map<string, string>, ch: Choice): seq<Micro>
    requires Shaped(ch)
  {
    AllStales(ch.services, kv.Keys, |PROTO_ORDER|)
  }

  /** The commands that publish a rendered configuration. */
  ghost function FullPlan(c: Configuration, kv: map<string, string>, ch: Choice): seq<Micro>
    requires Shaped(ch)
  {
    TrackPlan(c, ch) + WritePlan(kv) + CleanPlan(kv, ch) + Swaps(|SETS|) + [Stamp(ch.stamp)]
  }

  /** The commands of one store call; without a rendering it stops after removeOldKeys. */
  ghost function StorePlan(c: Configuration, ch: Choice): seq<Micro>
    requires WfConf(c) && Shaped(ch)
  {
    if KvOf(c).None? then TrackPlan(c, ch) else FullPlan(c, KvOf(c).value, ch)
  }

  /** The names that removeOldKeys asks Redis for. */
  function Dropped(inst: Inst, db: Db, c: Configuration, sn: SetName): set<string>
  {
    var names := Names(c, sn);
    db.Members(SetKey(inst, sn)) - (if names == {} then {} else db.Members(NewKey(inst, sn)) + names)
  }

  /** The choices are replies Redis and Go could give, starting from `db`. */
  ghost predicate Possible(inst: Inst, db: Db, c: Configuration, ch: Choice)
  {
    && Shaped(ch)
    && (forall i :: 0 <= i < |SETS| ==> Enumerates(ch.replies[i], Dropped(inst, db, c, SETS[i])))
    && (forall i :: 0 <= i < |PROTO_ORDER| ==>
          Enumerates(ch.services[i], Names(c, SetName(PROTO_ORDER[i], "services"))))
  }

  // ---------- the two operations, as relations on the database ----------

  /** One call of store: `done` commands were executed before it returned; only a failing SET ends it early. */
  ghost predicate StoreStep(inst: Inst, db: Db, c: Configuration, ch: Choice, done: nat, db': Db, ok: bool)
    requires WfConf(c)
  {
    && Possible(inst, db, c, ch)
    && done <= |StorePlan(c, ch)|
    && db' == Run(inst, Sys(db, false), StorePlan(c, ch)[..done]).db
    && ok == (KvOf(c).Some? && done == |StorePlan(c, ch)|)
    && (done < |StorePlan(c, ch)| ==> StorePlan(c, ch)[done].Put? || StorePlan(c, ch)[done].Stamp?)
  }

  /** Everything a configuration keeps alive. */
  ghost function Wanted(inst: Inst, c: Configuration): set<string>
    requires WfConf(c) && KvOf(c).Some?
  {
    KvOf(c).value.Keys + {Sentinel(inst)}
  }

  datatype Keep =
    | Idle                                            // nothing published yet, or nothing to renew
    | NoAnswer                                        // the sentinel check or the rendering failed
    | Renew(applied: set<string>, complete: bool)     // the pipeline of PEXPIREs
    | Restore(renewed: bool, ch: Choice, done: nat)   // a store of the last configuration

  /** One call of KeepConfAlive. */
  ghost predicate KeepStep(inst: Inst, db: Db, last: Option<Configuration>, k: Keep, db': Db, ok: bool)
    requires last.Some? ==> WfConf(last.value)
  {
    if last.None? then k == Idle && db' == db && ok
    else
      var c := last.value;
      var alive := Sentinel(inst) in db.strings;
      match k
      case Idle => ok && db' == db && alive && inst.ttl == 0
      case NoAnswer => !ok && db' == db
      case Renew(applied, complete) =>
        && alive && inst.ttl > 0 && KvOf(c).Some? && ok == complete
        && applied <= Wanted(inst, c) && db' == Renewed(db, applied, inst.ttl)
        && (complete ==> applied == Wanted(inst, c) && Wanted(inst, c) <= db.strings.Keys)
      case Restore(renewed, ch, done) =>
        if renewed then
          && alive && inst.ttl > 0 && KvOf(c).Some? && !(Wanted(inst, c) <= db.strings.Keys)
          && StoreStep(inst, Renewed(db, Wanted(inst, c), inst.ttl), c, ch, done, db', ok)
        else !alive && StoreStep(inst, db, c, ch, done, db', ok)
  }
}
