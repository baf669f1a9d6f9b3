/** The part of Redis the publisher uses: string keys with an optional deadline, sets, and a clock.
    A missing set is an empty set; an empty set does not exist. */
module Redis {
  import opened Values

  datatype Item = Item(value: string, deadline: Option<nat>)

  datatype Db = Db(strings: map<string, Item>, sets: map<string, set<string>>, now: nat)
  {
    /** SMEMBERS */
    function Members(s: string): set<string>
    {
      if s in sets then sets[s] else {}
    }

    /** KEYS prefix* */
    function Matching(prefix: string): set<string>
    {
      set k | k in strings && prefix <= k
    }

    /** KEYS prefix*suffix */
    function Globbed(prefix: string, suffix: string): set<string>
    {
      set k | k in strings && Glob(prefix, suffix, k)
    }

    /** SET: replaces value and deadline; a ttl of 0 means no expiry. */
    function Set(k: string, v: string, ttl: nat): Db
    {
      this.(strings := strings[k := Item(v, Deadline(ttl))])
    }

    function Deadline(ttl: nat): Option<nat>
    {
      if ttl == 0 then None else Some(now + ttl)
    }

    /** PEXPIRE: a missing key is left missing. */
    function PExpire(k: string, ttl: nat): Db
      requires ttl > 0
    {
      if k in strings then this.(strings := strings[k := Item(strings[k].value, Some(now + ttl))]) else this
    }

    /** UNLINK on string keys. */
    function Unlink(ks: set<string>): Db
    {
      this.(strings := strings - ks)
    }

    function UnlinkSet(s: string): Db
    {
      this.(sets := sets - {s})
    }

    /** SADD */
    function SAdd(s: string, xs: set<string>): Db
    {
      if xs == {} then this else this.(sets := sets[s := Members(s) + xs])
    }

    /** RENAME of a set onto another name; the source must exist. */
    function Rename(from: string, to: string): Db
      requires from in sets
    {
      this.(sets := (sets - {from})[to := sets[from]])
    }

    /** Time passes: keys whose deadline has come are gone. */
    function Tick(d: nat): Db
    {
      this.(now := now + d, strings := map k | k in strings && !Expired(strings[k], now + d) :: strings[k])
    }
  }

  /** The pattern prefix*suffix; the star may match anything. */
  predicate Glob(prefix: string, suffix: string, k: string)
  {
    |prefix| + |suffix| <= |k| && prefix <= k && k[|k| - |suffix|..] == suffix
  }

  predicate Expired(i: Item, now: nat)
  {
    i.deadline.Some? && i.deadline.value <= now
  }

  /** A key that is set lives for its TTL and no longer, or for ever. */
  lemma SetLives(db: Db, k: string, v: string, ttl: nat, d: nat)
    ensures k in db.Set(k, v, ttl).Tick(d).strings <==> ttl == 0 || d < ttl
    ensures k in db.Set(k, v, ttl).Tick(d).strings ==> db.Set(k, v, ttl).Tick(d).strings[k].value == v
  {
  }

  /** So does a key whose TTL is renewed; the other keys keep the deadline they had. */
  lemma RenewedLives(db: Db, ks: set<string>, ttl: nat, k: string, d: nat)
    requires k in db.strings && ttl > 0
    ensures k in ks ==> (k in Renewed(db, ks, ttl).Tick(d).strings <==> d < ttl)
    ensures k !in ks ==> (k in Renewed(db, ks, ttl).Tick(d).strings <==> k in db.Tick(d).strings)
    ensures Renewed(db, ks, ttl).strings[k].value == db.strings[k].value
  {
  }

  // ---------- the client object ----------

  /** The commands that may be refused. */
  datatype Call =
    | SetCall(key: string, value: string, ttl: nat)
    | GetCall(key: string)
    | ExistsCall(key: string)
    | KeysCall(prefix: string, suffix: string)
    | ExpireCall(keys: set<string>, ttl: nat)

  datatype Sent = Sent(call: Call, ok: bool)

  /** None of these calls was refused. */
  ghost predicate Answered(calls: seq<Sent>)
  {
    forall i :: 0 <= i < |calls| ==> calls[i].ok
  }

  /** A KEYS with this pattern or a GET of a key that matches it was refused. */
  ghost predicate ReadRefused(calls: seq<Sent>, prefix: string, suffix: string)
  {
    exists i :: 0 <= i < |calls| && !calls[i].ok &&
      (calls[i].call == KeysCall(prefix, suffix)
       || (calls[i].call.GetCall? && Glob(prefix, suffix, calls[i].call.key)))
  }

  lemma AnsweredConcat(a: seq<Sent>, b: seq<Sent>)
    ensures Answered(a + b) <==> Answered(a) && Answered(b)
  {
    if Answered(a + b) {
      assert forall i :: 0 <= i < |a| ==> (a + b)[i] == a[i];
      assert forall i :: 0 <= i < |b| ==> (a + b)[|a| + i] == b[i];
    }
  }

  lemma RefusedNotAnswered(calls: seq<Sent>, prefix: string, suffix: string)
    requires ReadRefused(calls, prefix, suffix)
    ensures !Answered(calls)
  {
  }

  lemma RefusedConcat(a: seq<Sent>, b: seq<Sent>, prefix: string, suffix: string)
    ensures ReadRefused(a, prefix, suffix) || ReadRefused(b, prefix, suffix) ==> ReadRefused(a + b, prefix, suffix)
  {
    assert forall i :: 0 <= i < |a| ==> (a + b)[i] == a[i];
    assert forall i :: 0 <= i < |b| ==> (a + b)[|a| + i] == b[i];
  }

  class Client {
    var strings: map<string, Item>
    var sets: map<string, set<string>>
    var now: nat
    /** Every call that may be refused, with its outcome, in the order of sending. */
    ghost var sent: seq<Sent>

    ghost function View(): Db
      reads `strings, `sets, `now
    {
      Db(strings, sets, now)
    }

    constructor ()
      ensures View() == Db(map[], map[], 0) && sent == []
    {
      strings, sets, now, sent := map[], map[], 0, [];
    }

    /** SET may fail, in which case nothing is written. */
    method Set(k: string, v: string, ttl: nat) returns (ok: bool)
      modifies this
      ensures View() == if ok then old(View()).Set(k, v, ttl) else old(View())
      ensures sent == old(sent) + [Sent(SetCall(k, v, ttl), ok)]
    {
      ok := *;
      if ok {
        strings := strings[k := Item(v, if ttl == 0 then None else Some(now + ttl))];
      }
      sent := sent + [Sent(SetCall(k, v, ttl), ok)];
    }

    /** GET may fail; a missing key is no failure. */
    method Get(k: string) returns (ok: bool, v: Option<string>)
      modifies `sent
      ensures ok ==> v == if k in strings then Some(strings[k].value) else None
      ensures sent == old(sent) + [Sent(GetCall(k), ok)]
    {
      ok := *;
      v := if k in strings then Some(strings[k].value) else None;
      sent := sent + [Sent(GetCall(k), ok)];
    }

    /** EXISTS may fail. */
    method Exists(k: string) returns (ok: bool, found: bool)
      modifies `sent
      ensures ok ==> found == (k in strings)
      ensures sent == old(sent) + [Sent(ExistsCall(k), ok)]
    {
      ok := *;
      found := k in strings;
      sent := sent + [Sent(ExistsCall(k), ok)];
    }

    /** KEYS prefix*, in no particular order. */
    method Keys(prefix: string) returns (ks: set<string>)
      ensures ks == View().Matching(prefix)
    {
      ks := set k | k in strings && prefix <= k;
    }

    /** KEYS prefix*suffix, on behalf of a reader; may fail. */
    method KeysGlob(prefix: string, suffix: string) returns (ok: bool, ks: set<string>)
      modifies `sent
      ensures ok ==> ks == View().Globbed(prefix, suffix)
      ensures sent == old(sent) + [Sent(KeysCall(prefix, suffix), ok)]
    {
      ok := *;
      ks := set k | k in strings && Glob(prefix, suffix, k);
      sent := sent + [Sent(KeysCall(prefix, suffix), ok)];
    }

    /** UNLINK without keys is an error. */
    method Unlink(ks: set<string>) returns (ok: bool)
      modifies this
      ensures ok == (ks != {})
      ensures View() == old(View()).Unlink(ks)
      ensures sent == old(sent)
    {
      ok := ks != {};
      strings := strings - ks;
    }

    method UnlinkSet(s: string)
      modifies this
      ensures View() == old(View()).UnlinkSet(s)
      ensures sent == old(sent)
    {
      sets := sets - {s};
    }

    method SAdd(s: string, xs: set<string>)
      requires xs != {}
      modifies this
      ensures View() == old(View()).SAdd(s, xs)
      ensures sent == old(sent)
    {
      sets := sets[s := (if s in sets then sets[s] else {}) + xs];
    }

    /** SMEMBERS, in an arbitrary order. */
    method SMembers(s: string) returns (r: seq<string>)
      ensures Enumerates(r, View().Members(s))
    {
      r := Listing(View().Members(s), if s in sets then sets[s] else {});
    }

    /** SDIFF s t, in an arbitrary order. */
    method SDiff(s: string, t: string) returns (r: seq<string>)
      ensures Enumerates(r, View().Members(s) - View().Members(t))
    {
      var a := if s in sets then sets[s] else {};
      var b := if t in sets then sets[t] else {};
      r := Listing(View().Members(s) - View().Members(t), a - b);
    }

    /** RENAME: false is the "no such key" error. */
    method Rename(from: string, to: string) returns (ok: bool)
      modifies this
      ensures ok == (from in old(sets))
      ensures View() == if ok then old(View()).Rename(from, to) else old(View())
      ensures sent == old(sent)
    {
      ok := from in sets;
      if ok {
        sets := (sets - {from})[to := sets[from]];
      }
    }

    /** A pipeline of PEXPIRE. On failure an arbitrary part of it may have been applied. */
    method PExpireAll(ks: set<string>, ttl: nat) returns (ok: bool, allFound: bool, ghost applied: set<string>)
      requires ttl > 0
      modifies this
      ensures applied <= ks && (ok ==> applied == ks)
      ensures ok ==> allFound == (ks <= old(strings).Keys)
      ensures View() == Renewed(old(View()), applied, ttl)
      ensures sent == old(sent) + [Sent(ExpireCall(ks, ttl), ok)]
    {
      ok := *;
      sent := sent + [Sent(ExpireCall(ks, ttl), ok)];
      allFound := ks <= strings.Keys;
      var some: set<string> := *;
      some := if ok then ks else some * ks;
      applied := some;
      strings := map k | k in strings :: if k in some then Item(strings[k].value, Some(now + ttl)) else strings[k];
    }
  }

  /** PEXPIRE on each of a set of keys. */
  function Renewed(db: Db, ks: set<string>, ttl: nat): Db
  {
    db.(strings := map k | k in db.strings ::
          if k in ks then Item(db.strings[k].value, Some(db.now + ttl)) else db.strings[k])
  }

  ghost predicate Enumerates(r: seq<string>, s: set<string>)
  {
    && (forall x :: x in r <==> x in s)
    && (forall i, j :: 0 <= i < j < |r| ==> r[i] != r[j])
  }

  method Listing(ghost of: set<string>, s: set<string>) returns (r: seq<string>)
    requires s == of
    ensures Enumerates(r, of)
  {
    r := [];
    var todo := s;
    while todo != {}
      invariant todo <= s
      invariant Enumerates(r, s - todo)
      decreases todo
    {
      var x :| x in todo;
      todo := todo - {x};
      r := r + [x];
    }
  }
}
