/** A successful store is one closed-form update of the database. */
module ClosedForm {
  import opened Values
  import opened Config
  import opened Published
  import opened Redis
  import opened Plan
  import opened Removal

  // ---------- the tracking sets of a host ----------

  lemma FirstSeparator(sep: char, a: string, x: string, b: string, y: string)
    requires sep !in a && sep !in b && a + [sep] + x == b + [sep] + y
    ensures a == b && x == y
  {
    var s, t := a + [sep] + x, b + [sep] + y;
    assert s[|a|] == sep && t[|b|] == sep;
    if |a| < |b| {
      assert false;
    }
    if |b| < |a| {
      assert false;
    }
    assert a == s[..|a|] && b == t[..|b|] && x == s[|a| + 1..] && y == t[|b| + 1..];
  }

  lemma LabelInjective(a: SetName, b: SetName)
    requires Tracked(a) && Tracked(b) && SetLabel(a) == SetLabel(b)
    ensures a == b
  {
    assert a.proto + "_" + a.kind == a.proto + ['_'] + a.kind;
    assert b.proto + "_" + b.kind == b.proto + ['_'] + b.kind;
    FirstSeparator('_', a.proto, a.kind, b.proto, b.kind);
  }

  lemma LabelPlain(a: SetName)
    requires Tracked(a)
    ensures '@' !in SetLabel(a)
  {
  }

  lemma SkInjective(h1: string, l1: string, x1: string, h2: string, l2: string, x2: string)
    requires '@' !in l1 && '@' !in l2 && Sk(h1, l1) + x1 == Sk(h2, l2) + x2
    ensures l1 == l2 && h1 + x1 == h2 + x2
  {
    assert Sk(h1, l1) + x1 == ("traefik_" + l1) + ['@'] + (h1 + x1);
    assert Sk(h2, l2) + x2 == ("traefik_" + l2) + ['@'] + (h2 + x2);
    FirstSeparator('@', "traefik_" + l1, h1 + x1, "traefik_" + l2, h2 + x2);
    assert l1 == ("traefik_" + l1)[8..] && l2 == ("traefik_" + l2)[8..];
  }

  /** The sixteen set keys of one host are distinct. */
  lemma OwnKeysDistinct(inst: Inst, a: SetName, b: SetName)
    requires Tracked(a) && Tracked(b)
    ensures SetKey(inst, a) == SetKey(inst, b) ==> a == b
    ensures NewKey(inst, a) == NewKey(inst, b) ==> a == b
    ensures NewKey(inst, a) != SetKey(inst, b)
  {
    LabelPlain(a);
    LabelPlain(b);
    if SetKey(inst, a) == SetKey(inst, b) {
      SkInjective(inst.host, SetLabel(a), "", inst.host, SetLabel(b), "");
      LabelInjective(a, b);
    }
    if NewKey(inst, a) == NewKey(inst, b) {
      SkInjective(inst.host, SetLabel(a), "_new", inst.host, SetLabel(b), "_new");
      LabelInjective(a, b);
    }
    if NewKey(inst, a) == SetKey(inst, b) {
      SkInjective(inst.host, SetLabel(a), "_new", inst.host, SetLabel(b), "");
      assert false;
    }
  }

  lemma SetsDistinct(i: nat, j: nat)
    requires i < j < |SETS|
    ensures SETS[i] != SETS[j]
  {
  }

  /** Redis keeps no empty set. */
  ghost predicate ValidDb(db: Db)
  {
    forall s :: s in db.sets ==> db.sets[s] != {}
  }

  // ---------- removeOldKeys ----------

  ghost function ClaimsUpTo(inst: Inst, db: Db, c: Configuration, n: nat): set<Claim>
    requires n <= |SETS|
  {
    if n == 0 then {} else ClaimsUpTo(inst, db, c, n - 1) + ClaimsOf(SETS[n - 1], Dropped(inst, db, c, SETS[n - 1]))
  }

  /** Everything removeOldKeys deletes. */
  ghost function AllClaims(inst: Inst, db: Db, c: Configuration): set<Claim>
  {
    ClaimsUpTo(inst, db, c, |SETS|)
  }

  lemma ClaimsUpToAt(inst: Inst, db: Db, c: Configuration, n: nat, d: Claim)
    requires n <= |SETS|
    ensures d in ClaimsUpTo(inst, db, c, n) <==> exists i ::
      0 <= i < n && d.0 == SETS[i] && d.1 in Dropped(inst, db, c, SETS[i])
  {
  }

  /** The standing assumption on the names of the tracking sets: slash-free, and different up to "@docker". */
  ghost predicate DropNames(inst: Inst, db: Db, c: Configuration)
  {
    forall i :: 0 <= i < |SETS| ==>
      PlainNames(Dropped(inst, db, c, SETS[i])) && AllSeparate(Dropped(inst, db, c, SETS[i]))
  }

  /** The names all have keys or all have none: no UNLINK is empty, or every one is. */
  ghost predicate EvenIn(strings: map<string, Item>, sn: SetName, names: set<string>)
  {
    (forall n :: n in names ==> Live(strings, sn, n)) || (forall n :: n in names ==> !Live(strings, sn, n))
  }

  /** Set by set, the early return of removeKeys leaves nothing behind. */
  ghost predicate Even(inst: Inst, db: Db, c: Configuration)
  {
    forall i :: 0 <= i < |SETS| ==> EvenIn(db.strings, SETS[i], Dropped(inst, db, c, SETS[i]))
  }

  ghost predicate DropsEven(inst: Inst, db: Db, c: Configuration)
  {
    DropNames(inst, db, c) && Even(inst, db, c)
  }

  lemma EvenAt(inst: Inst, db: Db, c: Configuration, i: nat)
    requires DropsEven(inst, db, c) && i < |SETS|
    ensures var ds := Dropped(inst, db, c, SETS[i]);
      PlainNames(ds) && AllSeparate(ds) && EvenIn(db.strings, SETS[i], ds)
  {
    hide Dropped, EvenIn, PlainNames, AllSeparate;
  }

  function Added(inst: Inst, c: Configuration, n: nat, t: string): set<string>
    requires n <= |SETS|
  {
    if n == 0 then {}
    else Added(inst, c, n - 1, t) + (if t == NewKey(inst, SETS[n - 1]) then Names(c, SETS[n - 1]) else {})
  }

  lemma {:induction false} AddedMiss(inst: Inst, c: Configuration, n: nat, t: string)
    requires n <= |SETS| && forall i :: 0 <= i < n ==> t != NewKey(inst, SETS[i])
    ensures Added(inst, c, n, t) == {}
  {
    if n > 0 {
      AddedMiss(inst, c, n - 1, t);
    }
  }

  lemma {:induction false} AddedHit(inst: Inst, c: Configuration, n: nat, i: nat)
    requires i < n <= |SETS|
    ensures Added(inst, c, n, NewKey(inst, SETS[i])) == Names(c, SETS[i])
  {
    hide NewKey, Names;
    if i < n - 1 {
      AddedHit(inst, c, n - 1, i);
      OwnKeysDistinct(inst, SETS[i], SETS[n - 1]);
      SetsDistinct(i, n - 1);
    } else {
      forall j | 0 <= j < n - 1 ensures NewKey(inst, SETS[j]) != NewKey(inst, SETS[i]) {
        OwnKeysDistinct(inst, SETS[j], SETS[i]);
        SetsDistinct(j, i);
      }
      AddedMiss(inst, c, n - 1, NewKey(inst, SETS[i]));
    }
  }

  lemma {:induction false} RemovesKeepSets(inst: Inst, y: Sys, sn: SetName, names: seq<string>)
    ensures Run(inst, y, Removes(sn, names)).db.sets == y.db.sets
    ensures Run(inst, y, Removes(sn, names)).db.now == y.db.now
  {
    if names != [] {
      var i := |names| - 1;
      RemovesKeepSets(inst, y, sn, names[..i]);
      assert Removes(sn, names)[..i] == Removes(sn, names[..i]);
    }
  }

  lemma AddMembers(db: Db, s: string, xs: set<string>, t: string)
    ensures db.SAdd(s, xs).Members(t) == db.Members(t) + (if t == s then xs else {})
    ensures ValidDb(db) ==> ValidDb(db.SAdd(s, xs))
  {
  }

  /** One removeOldKeys call is an Add and its Removes. */
  lemma TrackStep(inst: Inst, y: Sys, c: Configuration, replies: seq<seq<string>>, n: nat)
    requires 0 < n <= |SETS| && n <= |replies|
    ensures var sn := SETS[n - 1];
      var b := Do(inst, Run(inst, y, Tracks(c, replies, n - 1)), Add(sn, Names(c, sn)));
      Run(inst, y, Tracks(c, replies, n)) == Run(inst, b, Removes(sn, replies[n - 1]))
  {
    hide Do, Run, Removes, Names;
    var sn, t := SETS[n - 1], Tracks(c, replies, n - 1);
    RunSnoc(inst, y, t, Add(sn, Names(c, sn)));
    RunConcat(inst, y, t + [Add(sn, Names(c, sn))], Removes(sn, replies[n - 1]));
  }

  lemma AddStep(inst: Inst, y: Sys, sn: SetName, names: set<string>)
    ensures var b := Do(inst, y, Add(sn, names));
      && b.db.strings == y.db.strings && b.db.now == y.db.now && !b.halted
      && (ValidDb(y.db) ==> ValidDb(b.db))
      && forall t :: b.db.Members(t) == y.db.Members(t) + (if t == NewKey(inst, sn) then names else {})
  {
    forall t { AddMembers(y.db, NewKey(inst, sn), names, t); }
  }

  lemma {:induction false} TracksValid(inst: Inst, y: Sys, c: Configuration, replies: seq<seq<string>>, n: nat)
    requires n <= |SETS| && n <= |replies|
    ensures var r := Run(inst, y, Tracks(c, replies, n)).db;
      r.now == y.db.now && (ValidDb(y.db) ==> ValidDb(r))
  {
    if n > 0 {
      hide Do, NewKey, Names, Run, Removes, Tracks;
      TracksValid(inst, y, c, replies, n - 1);
      var sn := SETS[n - 1];
      var a := Run(inst, y, Tracks(c, replies, n - 1));
      AddStep(inst, a, sn, Names(c, sn));
      TrackStep(inst, y, c, replies, n);
      RemovesKeepSets(inst, Do(inst, a, Add(sn, Names(c, sn))), sn, replies[n - 1]);
    }
  }

  lemma TrackMembers(inst: Inst, y: Sys, c: Configuration, replies: seq<seq<string>>, n: nat, t: string)
    requires 0 < n <= |SETS| && n <= |replies|
    ensures Run(inst, y, Tracks(c, replies, n)).db.Members(t)
            == Run(inst, y, Tracks(c, replies, n - 1)).db.Members(t)
               + (if t == NewKey(inst, SETS[n - 1]) then Names(c, SETS[n - 1]) else {})
  {
    hide Do, NewKey, Names, Run, Removes, Tracks;
    var sn, a := SETS[n - 1], Run(inst, y, Tracks(c, replies, n - 1));
    AddStep(inst, a, sn, Names(c, sn));
    TrackStep(inst, y, c, replies, n);
    RemovesKeepSets(inst, Do(inst, a, Add(sn, Names(c, sn))), sn, replies[n - 1]);
  }

  /** The tracking sets after n removeOldKeys calls, whatever the replies. */
  lemma {:induction false} TracksSets(inst: Inst, y: Sys, c: Configuration, replies: seq<seq<string>>, n: nat,
                                      t: string)
    requires n <= |SETS| && n <= |replies|
    ensures Run(inst, y, Tracks(c, replies, n)).db.Members(t) == y.db.Members(t) + Added(inst, c, n, t)
  {
    if n > 0 {
      hide NewKey, Names, Run, Tracks;
      TracksSets(inst, y, c, replies, n - 1, t);
      TrackMembers(inst, y, c, replies, n, t);
    }
  }

  lemma OtherClaims(inst: Inst, db: Db, c: Configuration, n: nat)
    requires n < |SETS|
    ensures forall d :: d in ClaimsUpTo(inst, db, c, n) ==> d.0 != SETS[n]
  {
    hide Dropped;
    forall d | d in ClaimsUpTo(inst, db, c, n) ensures d.0 != SETS[n] {
      ClaimsUpToAt(inst, db, c, n, d);
      var i :| 0 <= i < n && d.0 == SETS[i] && d.1 in Dropped(inst, db, c, SETS[i]);
      SetsDistinct(i, n);
    }
  }

  /** The removal for one set, in a database where names of other sets are already gone. */
  lemma RemoveEven(inst: Inst, b: Sys, strings: map<string, Item>, claims: set<Claim>, sn: SetName, ds: set<string>,
                   reply: seq<string>)
    requires Tracked(sn) && !b.halted && PlainNames(ds) && AllSeparate(ds) && EvenIn(strings, sn, ds)
    requires Enumerates(reply, ds)
    requires b.db.strings == Purge(strings, claims) && forall d :: d in claims ==> d.0 != sn
    ensures Run(inst, b, Removes(sn, reply)).db.strings == Purge(strings, claims + ClaimsOf(sn, ds))
  {
    hide Run, Removes, Live, Purge, PlainNames, AllSeparate, Enumerates;
    if forall name :: name in ds ==> Live(strings, sn, name) {
      forall name | name in ds ensures Live(b.db.strings, sn, name) {
        StillLive(strings, claims, sn, name);
      }
      AllLiveComplete(inst, b, sn, ds, reply);
    } else {
      forall name | name in ds ensures !Live(b.db.strings, sn, name) {
        StillDead(strings, claims, sn, name);
      }
      NoneLiveComplete(inst, b, sn, ds, reply);
    }
    PurgeTwice(strings, claims, ClaimsOf(sn, ds));
  }

  /** The removal phase for one set. */
  lemma RemoveStep(inst: Inst, b: Sys, db: Db, c: Configuration, n: nat, reply: seq<string>)
    requires n < |SETS| && !b.halted && DropsEven(inst, db, c)
    requires Enumerates(reply, Dropped(inst, db, c, SETS[n]))
    requires b.db.strings == Purge(db.strings, ClaimsUpTo(inst, db, c, n))
    ensures Run(inst, b, Removes(SETS[n], reply)).db.strings == Purge(db.strings, ClaimsUpTo(inst, db, c, n + 1))
  {
    hide Run, Removes, Dropped, Purge, DropsEven, EvenIn, PlainNames, AllSeparate, Enumerates, ClaimsUpTo;
    EvenAt(inst, db, c, n);
    OtherClaims(inst, db, c, n);
    RemoveEven(inst, b, db.strings, ClaimsUpTo(inst, db, c, n), SETS[n], Dropped(inst, db, c, SETS[n]), reply);
    ClaimsNext(inst, db, c, n);
  }

  lemma ClaimsNext(inst: Inst, db: Db, c: Configuration, n: nat)
    requires n < |SETS|
    ensures ClaimsUpTo(inst, db, c, n + 1)
            == ClaimsUpTo(inst, db, c, n) + ClaimsOf(SETS[n], Dropped(inst, db, c, SETS[n]))
  {
    hide Dropped;
  }

  lemma StillDead(strings: map<string, Item>, ds: set<Claim>, sn: SetName, name: string)
    requires !Live(strings, sn, name)
    ensures !Live(Purge(strings, ds), sn, name)
  {
  }

  lemma TracksNone(inst: Inst, y: Sys, c: Configuration, replies: seq<seq<string>>)
    ensures Run(inst, y, Tracks(c, replies, 0)) == y
    ensures Purge(y.db.strings, ClaimsUpTo(inst, y.db, c, 0)) == y.db.strings
  {
    PurgeNone(y.db.strings);
  }

  lemma PossibleReplies(inst: Inst, db: Db, c: Configuration, ch: Choice)
    requires Possible(inst, db, c, ch)
    ensures Shaped(ch) && forall i :: 0 <= i < |SETS| ==> Enumerates(ch.replies[i], Dropped(inst, db, c, SETS[i]))
  {
    hide Enumerates, Dropped;
  }

  lemma {:induction false} TracksStrings(inst: Inst, y: Sys, c: Configuration, ch: Choice, n: nat)
    requires n <= |SETS| && Possible(inst, y.db, c, ch) && DropsEven(inst, y.db, c)
    ensures Run(inst, y, Tracks(c, ch.replies, n)).db.strings == Purge(y.db.strings, ClaimsUpTo(inst, y.db, c, n))
  {
    hide Do, NewKey, Names, Run, Removes, Dropped, Live, Purge, Tracks, DropsEven, ClaimsUpTo, Possible;
    PossibleReplies(inst, y.db, c, ch);
    if n == 0 {
      TracksNone(inst, y, c, ch.replies);
    } else {
      TracksStrings(inst, y, c, ch, n - 1);
      var a := Run(inst, y, Tracks(c, ch.replies, n - 1));
      AddStep(inst, a, SETS[n - 1], Names(c, SETS[n - 1]));
      TrackStep(inst, y, c, ch.replies, n);
      RemoveStep(inst, Do(inst, a, Add(SETS[n - 1], Names(c, SETS[n - 1]))), y.db, c, n - 1, ch.replies[n - 1]);
    }
  }

  // ---------- writes ----------

  ghost function Written(strings: map<string, Item>, kv: map<string, string>, ks: set<string>,
                         deadline: Option<nat>): map<string, Item>
    requires ks <= kv.Keys
  {
    strings + map k | k in ks :: Item(kv[k], deadline)
  }

  lemma WrittenStep(strings: map<string, Item>, kv: map<string, string>, ks: set<string>, k: string,
                    deadline: Option<nat>)
    requires ks <= kv.Keys && k in kv
    ensures Written(strings, kv, ks, deadline)[k := Item(kv[k], deadline)] == Written(strings, kv, ks + {k}, deadline)
  {
  }

  function Among(keys: seq<string>): set<string>
  {
    set k | k in keys
  }

  lemma PutNext(inst: Inst, y: Sys, strings: map<string, Item>, kv: map<string, string>, keys: seq<string>, i: nat)
    requires i < |keys| && forall k :: k in keys ==> k in kv
    requires y.db.strings == Written(strings, kv, Among(keys[..i]), y.db.Deadline(inst.ttl))
    ensures Do(inst, y, Put(keys[i], kv[keys[i]]))
            == y.(db := y.db.(strings := Written(strings, kv, Among(keys[..i + 1]), y.db.Deadline(inst.ttl))))
  {
    hide Written;
    assert keys[..i + 1] == keys[..i] + [keys[i]];
    assert Among(keys[..i + 1]) == Among(keys[..i]) + {keys[i]};
    WrittenStep(strings, kv, Among(keys[..i]), keys[i], y.db.Deadline(inst.ttl));
  }

  /** The first writes leave exactly those keys written, nothing else touched. */
  lemma {:induction false} PutsRun(inst: Inst, y: Sys, kv: map<string, string>, keys: seq<string>, i: nat)
    requires i <= |keys| && forall k :: k in keys ==> k in kv
    ensures Run(inst, y, Puts(kv, keys[..i]))
            == y.(db := y.db.(strings := Written(y.db.strings, kv, Among(keys[..i]), y.db.Deadline(inst.ttl))))
  {
    if i == 0 {
      assert Among(keys[..0]) == {};
      assert Written(y.db.strings, kv, {}, y.db.Deadline(inst.ttl)) == y.db.strings;
    } else {
      hide Written, Run, Do, Puts, Among;
      PutsRun(inst, y, kv, keys, i - 1);
      PutsSnoc(inst, y, kv, keys, i - 1);
      PutNext(inst, Run(inst, y, Puts(kv, keys[..i - 1])), y.db.strings, kv, keys, i - 1);
    }
  }

  // ---------- stale server entries ----------

  predicate ServerKeyOf(proto: string, names: seq<string>, key: string)
  {
    exists n :: n in names && ServersPrefix(proto, n) <= key
  }

  function Unserved(strings: map<string, Item>, proto: string, names: seq<string>, kept: set<string>): map<string, Item>
  {
    map k | k in strings && (k in kept || !ServerKeyOf(proto, names, k)) :: strings[k]
  }

  lemma ServerKeySnoc(proto: string, names: seq<string>, i: nat, k: string)
    requires i < |names|
    ensures ServerKeyOf(proto, names[..i + 1], k)
            <==> ServerKeyOf(proto, names[..i], k) || ServersPrefix(proto, names[i]) <= k
  {
    hide ServersPrefix;
    assert names[..i + 1] == names[..i] + [names[i]];
  }

  lemma StaleStep(inst: Inst, y: Sys, strings: map<string, Item>, proto: string, names: seq<string>, kept: set<string>,
                  i: nat)
    requires i < |names| && y.db.strings == Unserved(strings, proto, names[..i], kept)
    ensures Do(inst, y, Stale(proto, names[i], kept))
            == y.(db := y.db.(strings := Unserved(strings, proto, names[..i + 1], kept)))
  {
    hide ServersPrefix, ServerKeyOf;
    forall k { ServerKeySnoc(proto, names, i, k); }
    assert y.db.strings - (y.db.Matching(ServersPrefix(proto, names[i])) - kept)
           == Unserved(strings, proto, names[..i + 1], kept);
  }

  lemma {:induction false} StalesRun(inst: Inst, y: Sys, proto: string, names: seq<string>, kept: set<string>)
    ensures Run(inst, y, Stales(proto, names, kept))
            == y.(db := y.db.(strings := Unserved(y.db.strings, proto, names, kept)))
  {
    if names != [] {
      hide Run, Do, Unserved, Stales;
      var i := |names| - 1;
      StalesRun(inst, y, proto, names[..i], kept);
      assert names[..i + 1] == names;
      StalesSnoc(inst, y, proto, names, kept, i);
      StaleStep(inst, Run(inst, y, Stales(proto, names[..i], kept)), y.db.strings, proto, names, kept, i);
    }
  }

  ghost predicate ServerKeyUpTo(services: seq<seq<string>>, n: nat, key: string)
    requires n <= |services| && n <= |PROTO_ORDER|
  {
    exists i :: 0 <= i < n && ServerKeyOf(PROTO_ORDER[i], services[i], key)
  }

  function UnservedUpTo(strings: map<string, Item>, services: seq<seq<string>>, kept: set<string>,
                        n: nat): map<string, Item>
    requires n <= |services| && n <= |PROTO_ORDER|
  {
    if n == 0 then strings
    else Unserved(UnservedUpTo(strings, services, kept, n - 1), PROTO_ORDER[n - 1], services[n - 1], kept)
  }

  lemma {:induction false} UnservedUpToAt(strings: map<string, Item>, services: seq<seq<string>>, kept: set<string>,
                                          n: nat)
    requires n <= |services| && n <= |PROTO_ORDER|
    ensures UnservedUpTo(strings, services, kept, n)
            == map k | k in strings && (k in kept || !ServerKeyUpTo(services, n, k)) :: strings[k]
  {
    if n > 0 {
      hide ServerKeyOf;
      UnservedUpToAt(strings, services, kept, n - 1);
    }
  }

  lemma {:induction false} AllStalesRun(inst: Inst, y: Sys, services: seq<seq<string>>, kept: set<string>, n: nat)
    requires n <= |services| && n <= |PROTO_ORDER|
    ensures Run(inst, y, AllStales(services, kept, n))
            == y.(db := y.db.(strings := UnservedUpTo(y.db.strings, services, kept, n)))
  {
    if n > 0 {
      hide Run, Stales, Unserved;
      AllStalesRun(inst, y, services, kept, n - 1);
      RunConcat(inst, y, AllStales(services, kept, n - 1), Stales(PROTO_ORDER[n - 1], services[n - 1], kept));
      StalesRun(inst, Run(inst, y, AllStales(services, kept, n - 1)), PROTO_ORDER[n - 1], services[n - 1], kept);
    }
  }

  // ---------- swaps ----------

  function SwapDb(inst: Inst, db: Db, sn: SetName): Db
  {
    if NewKey(inst, sn) in db.sets then db.Rename(NewKey(inst, sn), SetKey(inst, sn))
    else db.UnlinkSet(SetKey(inst, sn))
  }

  lemma SwapMembers(inst: Inst, db: Db, sn: SetName, t: string)
    requires Tracked(sn)
    ensures SwapDb(inst, db, sn).Members(t) ==
      if t == SetKey(inst, sn) then db.Members(NewKey(inst, sn))
      else if t == NewKey(inst, sn) then {}
      else db.Members(t)
    ensures ValidDb(db) ==> ValidDb(SwapDb(inst, db, sn))
  {
    OwnKeysDistinct(inst, sn, sn);
  }

  predicate OwnUpTo(inst: Inst, n: nat, t: string)
    requires n <= |SETS|
  {
    exists i :: 0 <= i < n && (t == SetKey(inst, SETS[i]) || t == NewKey(inst, SETS[i]))
  }

  /** Tracking sets after the first n swaps. */
  ghost predicate Swapped(inst: Inst, a: Db, b: Db, n: nat)
    requires n <= |SETS|
  {
    && (forall i :: 0 <= i < n ==>
          b.Members(SetKey(inst, SETS[i])) == a.Members(NewKey(inst, SETS[i]))
          && b.Members(NewKey(inst, SETS[i])) == {})
    && (forall t :: !OwnUpTo(inst, n, t) ==> b.Members(t) == a.Members(t))
  }

  lemma SwapStep(inst: Inst, a0: Db, a: Db, n: nat)
    requires 0 < n <= |SETS| && Swapped(inst, a0, a, n - 1)
    ensures Swapped(inst, a0, SwapDb(inst, a, SETS[n - 1]), n)
  {
    hide SetKey, NewKey, SwapDb;
    var sn, b := SETS[n - 1], SwapDb(inst, a, SETS[n - 1]);
    OwnKeysDistinct(inst, sn, sn);
    SwapMembers(inst, a, sn, SetKey(inst, sn));
    SwapMembers(inst, a, sn, NewKey(inst, sn));
    assert !OwnUpTo(inst, n - 1, NewKey(inst, sn)) by {
      forall i | 0 <= i < n - 1
        ensures NewKey(inst, sn) != SetKey(inst, SETS[i]) && NewKey(inst, sn) != NewKey(inst, SETS[i])
      {
        SetsDistinct(i, n - 1);
        OwnKeysDistinct(inst, sn, SETS[i]);
      }
    }
    forall i | 0 <= i < n - 1
      ensures b.Members(SetKey(inst, SETS[i])) == a0.Members(NewKey(inst, SETS[i]))
      ensures b.Members(NewKey(inst, SETS[i])) == {}
    {
      SetsDistinct(i, n - 1);
      OwnKeysDistinct(inst, SETS[i], sn);
      OwnKeysDistinct(inst, sn, SETS[i]);
      SwapMembers(inst, a, sn, SetKey(inst, SETS[i]));
      SwapMembers(inst, a, sn, NewKey(inst, SETS[i]));
    }
    forall t | !OwnUpTo(inst, n, t) ensures b.Members(t) == a0.Members(t) {
      SwapMembers(inst, a, sn, t);
      assert !OwnUpTo(inst, n - 1, t);
    }
  }

  lemma {:induction false} SwapsRun(inst: Inst, y: Sys, n: nat)
    requires n <= |SETS| && ValidDb(y.db)
    ensures var r := Run(inst, y, Swaps(n));
      r.halted == y.halted && r.db.strings == y.db.strings && r.db.now == y.db.now && ValidDb(r.db)
      && Swapped(inst, y.db, r.db, n)
  {
    if n > 0 {
      hide Swapped;
      SwapsRun(inst, y, n - 1);
      assert Swaps(n)[..n - 1] == Swaps(n - 1);
      var a, b := Run(inst, y, Swaps(n - 1)).db, Run(inst, y, Swaps(n)).db;
      assert b == SwapDb(inst, a, SETS[n - 1]);
      SwapMembers(inst, a, SETS[n - 1], "");
      SwapStep(inst, y.db, a, n);
    } else {
      assert Swaps(0) == [];
    }
  }

  // ---------- the whole store ----------

  /** A load-balancer entry of one of the configuration's services. */
  ghost predicate ServerKey(c: Configuration, key: string)
  {
    exists proto, n :: proto in PROTOCOLS && n in Names(c, SetName(proto, "services")) && ServersPrefix(proto, n) <= key
  }

  /** The string keys after a successful store. */
  ghost function FinalStrings(inst: Inst, db: Db, c: Configuration, kv: map<string, string>,
                              stamp: string): map<string, Item>
  {
    var dl := db.Deadline(inst.ttl);
    var kept := map k | k in db.strings && !Claimed(AllClaims(inst, db, c), k) && !(ServerKey(c, k) && k !in kv) ::
                  db.strings[k];
    (kept + map k | k in kv :: Item(kv[k], dl))[Sentinel(inst) := Item(stamp, dl)]
  }

  lemma ClaimedGone(inst: Inst, db: Db, c: Configuration, kv: map<string, string>, stamp: string, k: string)
    requires Claimed(AllClaims(inst, db, c), k) && k !in kv && k != Sentinel(inst)
    ensures k !in FinalStrings(inst, db, c, kv, stamp)
  {
    hide ServerKey, Claimed, ClaimsUpTo, Sentinel;
  }

  /** The tracking sets after a successful store: leftovers of an interrupted store are taken over. */
  ghost predicate FinalSets(inst: Inst, db: Db, c: Configuration, db': Db)
  {
    && (forall i :: 0 <= i < |SETS| ==>
          && db'.Members(SetKey(inst, SETS[i])) == db.Members(NewKey(inst, SETS[i])) + Names(c, SETS[i])
          && NewKey(inst, SETS[i]) !in db'.sets)
    && (forall t :: !OwnUpTo(inst, |SETS|, t) ==> db'.Members(t) == db.Members(t))
  }

  lemma ServerKeyIs(inst: Inst, db: Db, c: Configuration, ch: Choice, key: string)
    requires Possible(inst, db, c, ch)
    ensures ServerKeyUpTo(ch.services, |PROTO_ORDER|, key) <==> ServerKey(c, key)
  {
    hide Names, Dropped, ServersPrefix;
    if ServerKey(c, key) {
      var proto, n :| proto in PROTOCOLS && n in Names(c, SetName(proto, "services")) && ServersPrefix(proto, n) <= key;
      var i := if proto == "http" then 0 else if proto == "tcp" then 1 else 2;
      assert PROTO_ORDER[i] == proto;
      assert ServerKeyOf(PROTO_ORDER[i], ch.services[i], key);
    }
    if ServerKeyUpTo(ch.services, |PROTO_ORDER|, key) {
      var i :| 0 <= i < |PROTO_ORDER| && ServerKeyOf(PROTO_ORDER[i], ch.services[i], key);
      var n :| n in ch.services[i] && ServersPrefix(PROTO_ORDER[i], n) <= key;
      assert PROTO_ORDER[i] in PROTOCOLS && n in Names(c, SetName(PROTO_ORDER[i], "services"));
    }
  }

  /** The commands executed before SET number j. */
  ghost function CutPlan(c: Configuration, kv: map<string, string>, ch: Choice, j: nat): seq<Micro>
    requires Shaped(ch) && j <= |SortedSeq(kv.Keys)|
  {
    TrackPlan(c, ch) + Puts(kv, SortedSeq(kv.Keys)[..j])
  }

  lemma CutIsPrefix(c: Configuration, kv: map<string, string>, ch: Choice, j: nat)
    requires Shaped(ch) && j <= |SortedSeq(kv.Keys)|
    ensures CutPlan(c, kv, ch, j) <= FullPlan(c, kv, ch)
    ensures FullPlan(c, kv, ch)[..|CutPlan(c, kv, ch, j)|] == CutPlan(c, kv, ch, j)
    ensures j < |SortedSeq(kv.Keys)| ==> var n := |CutPlan(c, kv, ch, j)|;
      n < |FullPlan(c, kv, ch)| && FullPlan(c, kv, ch)[n] == Put(SortedSeq(kv.Keys)[j], kv[SortedSeq(kv.Keys)[j]])
  {
    hide TrackPlan, CleanPlan, Swaps, SortedSeq;
    assert Puts(kv, SortedSeq(kv.Keys))[..j] == Puts(kv, SortedSeq(kv.Keys)[..j]);
  }

  lemma CutWrites(inst: Inst, y: Sys, c: Configuration, kv: map<string, string>, ch: Choice, j: nat)
    requires Shaped(ch) && j <= |SortedSeq(kv.Keys)|
    ensures var y1 := Run(inst, y, TrackPlan(c, ch));
      && Run(inst, y, CutPlan(c, kv, ch, j)) == Run(inst, y1, Puts(kv, SortedSeq(kv.Keys)[..j]))
      && Run(inst, y, CutPlan(c, kv, ch, j)).db.strings
         == Written(y1.db.strings, kv, Among(SortedSeq(kv.Keys)[..j]), y1.db.Deadline(inst.ttl))
  {
    hide Run, Do, TrackPlan, Written, SortedSeq, Among;
    RunConcat(inst, y, TrackPlan(c, ch), Puts(kv, SortedSeq(kv.Keys)[..j]));
    PutsRun(inst, Run(inst, y, TrackPlan(c, ch)), kv, SortedSeq(kv.Keys), j);
  }

  /** A store that fails at SET number j leaves exactly the first j of the sorted keys written. */
  lemma FailedStoreWritesSortedPrefix(inst: Inst, db: Db, c: Configuration, kv: map<string, string>, ch: Choice, j: nat)
    requires Shaped(ch) && j <= |SortedSeq(kv.Keys)| && Possible(inst, db, c, ch) && DropsEven(inst, db, c)
    ensures Run(inst, Sys(db, false), CutPlan(c, kv, ch, j)).db.strings
            == Written(Purge(db.strings, AllClaims(inst, db, c)), kv, Among(SortedSeq(kv.Keys)[..j]),
                       db.Deadline(inst.ttl))
  {
    hide Run, TrackPlan, Possible, DropsEven, Purge, ClaimsUpTo, SortedSeq, CutPlan, Written, Among;
    TrackPlanStrings(inst, db, c, ch);
    CutWrites(inst, Sys(db, false), c, kv, ch, j);
  }

  lemma {:induction false} SortedSize(s: set<string>)
    ensures |SortedSeq(s)| == |s|
  {
    if s != {} {
      SortedSize(s - {Least(s)});
    }
  }

  lemma StoreStages(inst: Inst, y0: Sys, c: Configuration, kv: map<string, string>, ch: Choice)
    returns (y1: Sys, y2: Sys, y3: Sys, y4: Sys)
    requires Shaped(ch)
    ensures y1 == Run(inst, y0, TrackPlan(c, ch)) && y2 == Run(inst, y1, WritePlan(kv))
    ensures y3 == Run(inst, y2, CleanPlan(kv, ch)) && y4 == Run(inst, y3, Swaps(|SETS|))
    ensures |FullPlan(c, kv, ch)| > 0 && FullPlan(c, kv, ch)[|FullPlan(c, kv, ch)| - 1] == Stamp(ch.stamp)
    ensures Run(inst, y0, FullPlan(c, kv, ch)[..|FullPlan(c, kv, ch)| - 1]) == y4
    ensures Run(inst, y0, FullPlan(c, kv, ch)) == Do(inst, y4, Stamp(ch.stamp))
  {
    hide Run, Do, TrackPlan, WritePlan, CleanPlan, Swaps;
    y1 := Run(inst, y0, TrackPlan(c, ch));
    y2 := Run(inst, y1, WritePlan(kv));
    y3 := Run(inst, y2, CleanPlan(kv, ch));
    y4 := Run(inst, y3, Swaps(|SETS|));
    var a, b, d := TrackPlan(c, ch), TrackPlan(c, ch) + WritePlan(kv),
      TrackPlan(c, ch) + WritePlan(kv) + CleanPlan(kv, ch);
    RunConcat(inst, y0, a, WritePlan(kv));
    RunConcat(inst, y0, b, CleanPlan(kv, ch));
    RunConcat(inst, y0, d, Swaps(|SETS|));
    RunSnoc(inst, y0, d + Swaps(|SETS|), Stamp(ch.stamp));
    assert FullPlan(c, kv, ch)[..|FullPlan(c, kv, ch)| - 1] == d + Swaps(|SETS|);
  }

  /** String keys once the stale server entries are gone. */
  ghost function Cleaned(strings: map<string, Item>, c: Configuration, kv: map<string, string>): map<string, Item>
  {
    map k | k in strings && (k in kv || !ServerKey(c, k)) :: strings[k]
  }

  lemma WriteStage(inst: Inst, y: Sys, kv: map<string, string>)
    ensures Run(inst, y, WritePlan(kv))
            == y.(db := y.db.(strings := Written(y.db.strings, kv, kv.Keys, y.db.Deadline(inst.ttl))))
  {
    hide Run, Do, Written;
    var keys := SortedSeq(kv.Keys);
    PutsRun(inst, y, kv, keys, |keys|);
    assert keys[..|keys|] == keys && Among(keys) == kv.Keys;
  }

  lemma CleanStage(inst: Inst, db: Db, y: Sys, c: Configuration, ch: Choice, kv: map<string, string>)
    requires Possible(inst, db, c, ch)
    ensures Run(inst, y, CleanPlan(kv, ch)) == y.(db := y.db.(strings := Cleaned(y.db.strings, c, kv)))
  {
    hide Run, Do, Possible, ServerKey, ServerKeyUpTo;
    PossibleShaped(inst, db, c, ch);
    AllStalesRun(inst, y, ch.services, kv.Keys, |PROTO_ORDER|);
    UnservedUpToAt(y.db.strings, ch.services, kv.Keys, |PROTO_ORDER|);
    forall k { ServerKeyIs(inst, db, c, ch, k); }
  }

  /** Removal, writes, clean-up and stamp compose to the closed form on string keys. */
  lemma StringsCompose(inst: Inst, db: Db, c: Configuration, kv: map<string, string>, stamp: string)
    ensures var dl := db.Deadline(inst.ttl);
      Cleaned(Written(Purge(db.strings, AllClaims(inst, db, c)), kv, kv.Keys, dl), c,
              kv)[Sentinel(inst) := Item(stamp, dl)]
      == FinalStrings(inst, db, c, kv, stamp)
  {
    hide ServerKey, Claimed, Sentinel, AllClaims;
  }

  /** Everything but the sentinel: removal, writes, clean-up and swaps. */
  lemma BeforeStampStrings(inst: Inst, db: Db, c: Configuration, kv: map<string, string>, ch: Choice, y4: Sys)
    requires ValidDb(db) && Possible(inst, db, c, ch) && Shaped(ch)
    requires |FullPlan(c, kv, ch)| > 0
    requires y4 == Run(inst, Sys(db, false), FullPlan(c, kv, ch)[..|FullPlan(c, kv, ch)| - 1])
    ensures var left := Run(inst, Sys(db, false), TrackPlan(c, ch)).db.strings;
      y4.db.strings == Cleaned(Written(left, kv, kv.Keys, db.Deadline(inst.ttl)), c, kv)
    ensures y4.db.now == db.now
  {
    hide Run, Do, Possible, Written, Cleaned, FullPlan, TrackPlan, WritePlan, CleanPlan, Swaps, Swapped, Names, ValidDb;
    var y1, y2, y3, _ := StoreStages(inst, Sys(db, false), c, kv, ch);
    TrackPlanValid(inst, db, c, ch);
    WriteStage(inst, y1, kv);
    CleanStage(inst, db, y2, c, ch, kv);
    SameSetsValid(y1.db, y3.db);
    SwapsRun(inst, y3, |SETS|);
  }

  lemma StoreStrings(inst: Inst, db: Db, c: Configuration, kv: map<string, string>, ch: Choice)
    requires ValidDb(db) && Possible(inst, db, c, ch) && DropsEven(inst, db, c) && Shaped(ch)
    ensures Run(inst, Sys(db, false), FullPlan(c, kv, ch)).db.strings == FinalStrings(inst, db, c, kv, ch.stamp)
    ensures Run(inst, Sys(db, false), FullPlan(c, kv, ch)).db.now == db.now
  {
    hide Run, Do, Possible, DropsEven, Written, Purge, Cleaned, FinalStrings, FullPlan, ValidDb, AllClaims, Sentinel;
    var _, _, _, y4 := StoreStages(inst, Sys(db, false), c, kv, ch);
    TrackPlanStrings(inst, db, c, ch);
    BeforeStampStrings(inst, db, c, kv, ch, y4);
    StampStrings(inst, y4, ch.stamp);
    StringsCompose(inst, db, c, kv, ch.stamp);
  }

  lemma TrackPlanStrings(inst: Inst, db: Db, c: Configuration, ch: Choice)
    requires Possible(inst, db, c, ch) && DropsEven(inst, db, c)
    ensures Shaped(ch)
    ensures var r := Run(inst, Sys(db, false), TrackPlan(c, ch)).db;
      r.strings == Purge(db.strings, AllClaims(inst, db, c)) && r.now == db.now && (ValidDb(db) ==> ValidDb(r))
  {
    hide Run, Tracks, DropsEven, Purge, ClaimsUpTo;
    TracksStrings(inst, Sys(db, false), c, ch, |SETS|);
    TracksValid(inst, Sys(db, false), c, ch.replies, |SETS|);
  }

  lemma BeforeStampSets(inst: Inst, db: Db, c: Configuration, kv: map<string, string>, ch: Choice, y4: Sys)
    requires ValidDb(db) && Possible(inst, db, c, ch) && Shaped(ch)
    requires |FullPlan(c, kv, ch)| > 0
    requires y4 == Run(inst, Sys(db, false), FullPlan(c, kv, ch)[..|FullPlan(c, kv, ch)| - 1])
    ensures ValidDb(y4.db) && FinalSets(inst, db, c, y4.db)
  {
    hide Run, Do, Possible, Written, Cleaned, Swapped, FullPlan, TrackPlan, WritePlan, CleanPlan, Swaps, FinalSets,
      Names, ValidDb;
    var y1, y2, y3, _ := StoreStages(inst, Sys(db, false), c, kv, ch);
    TrackPlanValid(inst, db, c, ch);
    WriteStage(inst, y1, kv);
    CleanStage(inst, db, y2, c, ch, kv);
    SameSetsValid(y1.db, y3.db);
    SwapsRun(inst, y3, |SETS|);
    FinalSetsCompose(inst, db, c, ch, y3.db, y4.db);
  }

  lemma StoreSets(inst: Inst, db: Db, c: Configuration, kv: map<string, string>, ch: Choice)
    requires ValidDb(db) && Possible(inst, db, c, ch) && Shaped(ch)
    ensures var r := Run(inst, Sys(db, false), FullPlan(c, kv, ch)).db; ValidDb(r) && FinalSets(inst, db, c, r)
  {
    hide Run, Do, Possible, FullPlan, FinalSets, ValidDb;
    var r := Run(inst, Sys(db, false), FullPlan(c, kv, ch)).db;
    var _, _, _, y4 := StoreStages(inst, Sys(db, false), c, kv, ch);
    BeforeStampSets(inst, db, c, kv, ch, y4);
    StampSets(inst, y4, ch.stamp);
    FinalSetsOf(inst, db, c, y4.db, r);
    SameSetsValid(y4.db, r);
  }

  lemma SameSetsValid(a: Db, b: Db)
    requires a.sets == b.sets && ValidDb(a)
    ensures ValidDb(b)
  {
  }

  lemma StampStrings(inst: Inst, y: Sys, text: string)
    ensures Do(inst, y, Stamp(text)).db
            == y.db.(strings := y.db.strings[Sentinel(inst) := Item(text, y.db.Deadline(inst.ttl))])
  {
  }

  lemma StampSets(inst: Inst, y: Sys, text: string)
    ensures Do(inst, y, Stamp(text)).db.sets == y.db.sets
  {
  }

  lemma TrackPlanValid(inst: Inst, db: Db, c: Configuration, ch: Choice)
    requires Shaped(ch) && ValidDb(db)
    ensures ValidDb(Run(inst, Sys(db, false), TrackPlan(c, ch)).db)
    ensures Run(inst, Sys(db, false), TrackPlan(c, ch)).db.now == db.now
  {
    hide Run, Tracks;
    TracksValid(inst, Sys(db, false), c, ch.replies, |SETS|);
  }

  lemma FinalSetsOf(inst: Inst, db: Db, c: Configuration, a: Db, b: Db)
    requires FinalSets(inst, db, c, a) && a.sets == b.sets
    ensures FinalSets(inst, db, c, b)
  {
    hide SetKey, NewKey, Names, OwnUpTo;
    forall t ensures b.Members(t) == a.Members(t) {}
  }

  lemma FinalSetsCompose(inst: Inst, db: Db, c: Configuration, ch: Choice, a: Db, b: Db)
    requires Shaped(ch) && a.sets == Run(inst, Sys(db, false), TrackPlan(c, ch)).db.sets
    requires Swapped(inst, a, b, |SETS|) && ValidDb(b)
    ensures FinalSets(inst, db, c, b)
  {
    hide Run, Tracks, SetKey, NewKey, Names;
    var y0 := Sys(db, false);
    var y1 := Run(inst, y0, TrackPlan(c, ch));
    forall i | 0 <= i < |SETS|
      ensures b.Members(SetKey(inst, SETS[i])) == db.Members(NewKey(inst, SETS[i])) + Names(c, SETS[i])
      ensures NewKey(inst, SETS[i]) !in b.sets
    {
      TracksSets(inst, y0, c, ch.replies, |SETS|, NewKey(inst, SETS[i]));
      AddedHit(inst, c, |SETS|, i);
      assert a.Members(NewKey(inst, SETS[i])) == y1.db.Members(NewKey(inst, SETS[i]));
      assert b.Members(NewKey(inst, SETS[i])) == {};
    }
    forall t | !OwnUpTo(inst, |SETS|, t) ensures b.Members(t) == db.Members(t) {
      TracksSets(inst, y0, c, ch.replies, |SETS|, t);
      AddedMiss(inst, c, |SETS|, t);
      assert a.Members(t) == y1.db.Members(t);
    }
  }

  /** A successful store is one closed-form update: dropped names and stale server entries go, the
      flattened configuration and the sentinel are written with the configured TTL, every other key keeps
      value and expiry, and each tracking set becomes the new names (with any leftover), no temporary set left. */
  lemma StoreClosedForm(inst: Inst, db: Db, c: Configuration, kv: map<string, string>, ch: Choice)
    requires ValidDb(db) && Possible(inst, db, c, ch) && DropsEven(inst, db, c) && Shaped(ch)
    ensures var r := Run(inst, Sys(db, false), FullPlan(c, kv, ch)).db;
      && r.strings == FinalStrings(inst, db, c, kv, ch.stamp)
      && r.now == db.now
      && ValidDb(r) && FinalSets(inst, db, c, r)
  {
    hide FinalStrings, FinalSets, FullPlan, Run, Possible, DropsEven;
    StoreStrings(inst, db, c, kv, ch);
    StoreSets(inst, db, c, kv, ch);
  }

  lemma PossibleShaped(inst: Inst, db: Db, c: Configuration, ch: Choice)
    requires Possible(inst, db, c, ch)
    ensures Shaped(ch)
  {
  }
}
