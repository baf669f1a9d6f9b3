/** What the removal phase of a store deletes: exactly the keys of the dropped names, provided
    the early return of removeKeys on an empty UNLINK is never taken. */
module Removal {
  import opened Paths
  import opened Config
  import opened Published
  import opened Redis
  import opened Plan

  type Claim = (SetName, string)

  predicate Claimed(ds: set<Claim>, key: string)
  {
    exists d :: d in ds && Under(d.0, d.1, key)
  }

  function Purge(strings: map<string, Item>, ds: set<Claim>): map<string, Item>
  {
    map k | k in strings && !Claimed(ds, k) :: strings[k]
  }

  predicate Live(strings: map<string, Item>, sn: SetName, name: string)
  {
    exists k :: k in strings && Under(sn, name, k)
  }

  function Claims(sn: SetName, names: seq<string>): set<Claim>
  {
    set n | n in names :: (sn, n)
  }

  lemma MatchingIsUnder(db: Db, sn: SetName, name: string, key: string)
    requires Tracked(sn) && Plain(name)
    ensures key in db.Matching(K(SetLabel(sn), name) + "/") <==> key in db.strings && Under(sn, name, key)
  {
    GlobIsUnder(sn, name, key);
  }

  /** One KEYS and UNLINK for a name that still has keys. */
  lemma RemoveLive(inst: Inst, y: Sys, sn: SetName, name: string)
    requires Tracked(sn) && Plain(name) && !y.halted && Live(y.db.strings, sn, name)
    ensures Do(inst, y, Remove(sn, name)) == Sys(y.db.(strings := Purge(y.db.strings, {(sn, name)})), false)
  {
    var hit := y.db.Matching(K(SetLabel(sn), name) + "/");
    forall k ensures k in hit <==> k in y.db.strings && Under(sn, name, k) {
      MatchingIsUnder(y.db, sn, name, k);
    }
    forall k ensures Claimed({(sn, name)}, k) <==> Under(sn, name, k) {
      if Under(sn, name, k) { assert (sn, name) in {(sn, name)}; }
    }
    assert y.db.strings - hit == Purge(y.db.strings, {(sn, name)});
  }

  lemma RemoveDead(inst: Inst, y: Sys, sn: SetName, name: string)
    requires Tracked(sn) && Plain(name) && !Live(y.db.strings, sn, name)
    ensures Do(inst, y, Remove(sn, name)) == y.(halted := true)
  {
    var hit := y.db.Matching(K(SetLabel(sn), name) + "/");
    forall k ensures k !in hit {
      MatchingIsUnder(y.db, sn, name, k);
    }
    assert hit == {};
  }

  lemma PurgeTwice(strings: map<string, Item>, a: set<Claim>, b: set<Claim>)
    ensures Purge(Purge(strings, a), b) == Purge(strings, a + b)
  {
    forall k ensures Claimed(a + b, k) <==> Claimed(a, k) || Claimed(b, k) {
      if d :| d in a && Under(d.0, d.1, k) { assert d in a + b; }
      if d :| d in b && Under(d.0, d.1, k) { assert d in a + b; }
    }
  }

  lemma PurgeNone(strings: map<string, Item>)
    ensures Purge(strings, {}) == strings
  {
  }

  /** Names that differ once stripped have their own keys. */
  predicate Separate(names: seq<string>)
  {
    forall i, j :: 0 <= i < j < |names| ==> StripDocker(names[i]) != StripDocker(names[j])
  }

  lemma StillLive(strings: map<string, Item>, ds: set<Claim>, sn: SetName, name: string)
    requires Live(strings, sn, name)
    requires forall d :: d in ds ==> d.0 != sn || StripDocker(d.1) != StripDocker(name)
    ensures Live(Purge(strings, ds), sn, name)
  {
    var k :| k in strings && Under(sn, name, k);
    if Claimed(ds, k) {
      var d :| d in ds && Under(d.0, d.1, k);
      UnderUnique(d.0, d.1, sn, name, k);
    }
    assert k in Purge(strings, ds);
  }

  lemma RemoveNext(inst: Inst, z: Sys, strings: map<string, Item>, sn: SetName, names: seq<string>, i: nat)
    requires Tracked(sn) && i < |names| && Plain(names[i]) && Separate(names) && Live(strings, sn, names[i])
    requires !z.halted && z.db.strings == Purge(strings, Claims(sn, names[..i]))
    ensures Do(inst, z, Remove(sn, names[i]))
            == Sys(z.db.(strings := Purge(strings, Claims(sn, names[..i + 1]))), false)
  {
    hide Do, Purge, Live;
    StillLive(strings, Claims(sn, names[..i]), sn, names[i]);
    RemoveLive(inst, z, sn, names[i]);
    PurgeTwice(strings, Claims(sn, names[..i]), {(sn, names[i])});
    assert names[..i + 1] == names[..i] + [names[i]];
    assert Claims(sn, names[..i + 1]) == Claims(sn, names[..i]) + {(sn, names[i])};
  }

  lemma {:induction false} RemovesLiveUpTo(inst: Inst, y: Sys, sn: SetName, names: seq<string>, i: nat)
    requires Tracked(sn) && AllPlain(names) && Separate(names) && !y.halted && i <= |names|
    requires forall n :: n in names ==> Live(y.db.strings, sn, n)
    ensures Run(inst, y, Removes(sn, names[..i]))
            == Sys(y.db.(strings := Purge(y.db.strings, Claims(sn, names[..i]))), false)
  {
    if i == 0 {
      assert Claims(sn, names[..0]) == {};
      PurgeNone(y.db.strings);
    } else {
      hide Run, Do, Purge, Live, Claims;
      RemovesLiveUpTo(inst, y, sn, names, i - 1);
      RemovesSnoc(inst, y, sn, names, i - 1);
      RemoveNext(inst, Run(inst, y, Removes(sn, names[..i - 1])), y.db.strings, sn, names, i - 1);
    }
  }

  /** When every name still has a key, all their keys go. */
  lemma RemovesLive(inst: Inst, y: Sys, sn: SetName, names: seq<string>)
    requires Tracked(sn) && AllPlain(names) && Separate(names) && !y.halted
    requires forall n :: n in names ==> Live(y.db.strings, sn, n)
    ensures Run(inst, y, Removes(sn, names)) == Sys(y.db.(strings := Purge(y.db.strings, Claims(sn, names))), false)
  {
    RemovesLiveUpTo(inst, y, sn, names, |names|);
    assert names[..|names|] == names;
  }

  /** Once returned early, the rest of the names are skipped. */
  lemma {:induction false} RemovesHalted(inst: Inst, y: Sys, sn: SetName, names: seq<string>)
    requires y.halted
    ensures Run(inst, y, Removes(sn, names)) == y
  {
    if names != [] {
      var i := |names| - 1;
      RemovesHalted(inst, y, sn, names[..i]);
      assert Removes(sn, names)[..i] == Removes(sn, names[..i]);
    }
  }

  lemma RemovesFirstDead(inst: Inst, y: Sys, sn: SetName, dead: string, rest: seq<string>)
    requires Tracked(sn) && Plain(dead) && !Live(y.db.strings, sn, dead)
    ensures Run(inst, y, Removes(sn, [dead] + rest)) == y.(halted := true)
  {
    assert Removes(sn, [dead] + rest) == [Remove(sn, dead)] + Removes(sn, rest);
    RunConcat(inst, y, [Remove(sn, dead)], Removes(sn, rest));
    RunSnoc(inst, y, [], Remove(sn, dead));
    assert [] + [Remove(sn, dead)] == [Remove(sn, dead)];
    RemoveDead(inst, y, sn, dead);
    RemovesHalted(inst, y.(halted := true), sn, rest);
  }

  lemma {:induction false} Enumeration(s: set<string>) returns (r: seq<string>)
    ensures Enumerates(r, s)
  {
    if s == {} {
      r := [];
    } else {
      var x :| x in s;
      var r' := Enumeration(s - {x});
      r := [x] + r';
    }
  }

  ghost predicate AllSeparate(names: set<string>)
  {
    forall a, b :: a in names && b in names && StripDocker(a) == StripDocker(b) ==> a == b
  }

  ghost predicate PlainNames(names: set<string>)
  {
    forall n :: n in names ==> Plain(n)
  }

  function ClaimsOf(sn: SetName, names: set<string>): set<Claim>
  {
    set n | n in names :: (sn, n)
  }

  lemma PurgeDead(strings: map<string, Item>, sn: SetName, names: set<string>)
    requires forall n :: n in names ==> !Live(strings, sn, n)
    ensures Purge(strings, ClaimsOf(sn, names)) == strings
  {
    forall k | k in strings ensures !Claimed(ClaimsOf(sn, names), k) {
      if d :| d in ClaimsOf(sn, names) && Under(d.0, d.1, k) {
        assert Live(strings, sn, d.1);
      }
    }
  }

  lemma PurgeLive(strings: map<string, Item>, sn: SetName, names: set<string>, live: string)
    requires live in names && Live(strings, sn, live)
    ensures Purge(strings, ClaimsOf(sn, names)) != strings
  {
    var k :| k in strings && Under(sn, live, k);
    assert (sn, live) in ClaimsOf(sn, names);
    assert k !in Purge(strings, ClaimsOf(sn, names));
  }

  /** The removal loop, fed with the names in this order, leaves no key of any of them. */
  ghost predicate Complete(inst: Inst, y: Sys, sn: SetName, names: set<string>, reply: seq<string>)
  {
    Run(inst, y, Removes(sn, reply)).db.strings == Purge(y.db.strings, ClaimsOf(sn, names))
  }

  ghost predicate AllLive(y: Sys, sn: SetName, names: set<string>)
  {
    forall n :: n in names ==> Live(y.db.strings, sn, n)
  }

  ghost predicate NoneLive(y: Sys, sn: SetName, names: set<string>)
  {
    forall n :: n in names ==> !Live(y.db.strings, sn, n)
  }

  lemma AllLiveComplete(inst: Inst, y: Sys, sn: SetName, names: set<string>, reply: seq<string>)
    requires Tracked(sn) && PlainNames(names) && AllSeparate(names) && !y.halted && AllLive(y, sn, names)
    requires Enumerates(reply, names)
    ensures Complete(inst, y, sn, names, reply)
  {
    RemovesLive(inst, y, sn, reply);
    assert Claims(sn, reply) == ClaimsOf(sn, names);
  }

  lemma NoneLiveComplete(inst: Inst, y: Sys, sn: SetName, names: set<string>, reply: seq<string>)
    requires Tracked(sn) && PlainNames(names) && NoneLive(y, sn, names) && Enumerates(reply, names)
    ensures Complete(inst, y, sn, names, reply)
  {
    RemovesDead(inst, y, sn, reply);
    PurgeDead(y.db.strings, sn, names);
  }

  lemma MixedIncomplete(inst: Inst, y: Sys, sn: SetName, names: set<string>) returns (reply: seq<string>)
    requires Tracked(sn) && PlainNames(names) && !AllLive(y, sn, names) && !NoneLive(y, sn, names)
    ensures Enumerates(reply, names) && !Complete(inst, y, sn, names, reply)
  {
    hide Live, Run, Purge;
    var dead :| dead in names && !Live(y.db.strings, sn, dead);
    var live :| live in names && Live(y.db.strings, sn, live);
    var rest := Enumeration(names - {dead});
    reply := [dead] + rest;
    RemovesFirstDead(inst, y, sn, dead, rest);
    PurgeLive(y.db.strings, sn, names, live);
  }

  /** removeKeys deletes everything it was asked to, for every reply order Redis may choose,
      exactly when either each of the names has a live key or none has. */
  lemma RemovalCompleteIff(inst: Inst, y: Sys, sn: SetName, names: set<string>)
    requires Tracked(sn) && PlainNames(names) && AllSeparate(names) && !y.halted
    ensures (forall reply :: Enumerates(reply, names) ==> Complete(inst, y, sn, names, reply))
            <==> AllLive(y, sn, names) || NoneLive(y, sn, names)
  {
    hide Complete, Live, Enumerates;
    forall reply | Enumerates(reply, names) && (AllLive(y, sn, names) || NoneLive(y, sn, names))
      ensures Complete(inst, y, sn, names, reply)
    {
      if AllLive(y, sn, names) {
        AllLiveComplete(inst, y, sn, names, reply);
      } else {
        NoneLiveComplete(inst, y, sn, names, reply);
      }
    }
    if !AllLive(y, sn, names) && !NoneLive(y, sn, names) {
      var reply := MixedIncomplete(inst, y, sn, names);
    }
  }

  lemma RemovesDead(inst: Inst, y: Sys, sn: SetName, names: seq<string>)
    requires Tracked(sn) && AllPlain(names)
    requires forall n :: n in names ==> !Live(y.db.strings, sn, n)
    ensures Run(inst, y, Removes(sn, names)).db == y.db
  {
    if names != [] {
      RemovesFirstDead(inst, y, sn, names[0], names[1..]);
      assert names == [names[0]] + names[1..];
    }
  }
}
