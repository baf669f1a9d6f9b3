/** dockerCache: containers listed and inspected once per epoch, with lower-cased label keys. */
module Cache {
  import opened Values
  import Docker

  const LIFETIME: nat := 5

  function LowerChar(c: char): char
  {
    if 'A' <= c <= 'Z' then (c as int + 32) as char else c
  }

  /** strings.ToLower on ASCII */
  function Lower(s: string): string
  {
    seq(|s|, i requires 0 <= i < |s| => LowerChar(s[i]))
  }

  /** Each of the 26 capital letters becomes the small one, and nothing else changes. */
  lemma LowerSpelled(s: string, i: nat, n: nat)
    requires i < |s| && n < 26
    ensures |Lower(s)| == |s|
    ensures s[i] == "ABCDEFGHIJKLMNOPQRSTUVWXYZ"[n] ==> Lower(s)[i] == "abcdefghijklmnopqrstuvwxyz"[n]
    ensures s[i] !in "ABCDEFGHIJKLMNOPQRSTUVWXYZ" ==> Lower(s)[i] == s[i]
  {
    var capitals, small := "ABCDEFGHIJKLMNOPQRSTUVWXYZ", "abcdefghijklmnopqrstuvwxyz";
    assert forall j :: 0 <= j < 26 ==> capitals[j] as int == 65 + j && small[j] as int == 97 + j;
    if 'A' <= s[i] <= 'Z' {
      assert s[i] == capitals[s[i] as int - 65];
    }
  }

  lemma LowerTwice(s: string)
    ensures Lower(Lower(s)) == Lower(s)
  {
  }

  /** Every key lower-cased; of keys that coincide then, one wins. */
  ghost predicate Normalised(labels: map<string, string>, r: map<string, string>)
  {
    && (forall k :: k in labels ==> Lower(k) in r)
    && (forall l :: l in r ==> exists k :: k in labels && Lower(k) == l && r[l] == labels[k])
  }

  ghost predicate LowerDistinct(labels: map<string, string>)
  {
    forall k, l :: k in labels && l in labels && Lower(k) == Lower(l) ==> k == l
  }

  /** With labels distinct after lower-casing the result does not depend on the iteration order. */
  lemma NormalisedUnique(labels: map<string, string>, a: map<string, string>, b: map<string, string>)
    requires LowerDistinct(labels) && Normalised(labels, a) && Normalised(labels, b)
    ensures a == b
  {
    hide Lower;
    forall l ensures l in a <==> l in b {
      if l in a { var k :| k in labels && Lower(k) == l && a[l] == labels[k]; }
      if l in b { var k :| k in labels && Lower(k) == l && b[l] == labels[k]; }
    }
    forall l | l in a ensures a[l] == b[l] {
      var k :| k in labels && Lower(k) == l && a[l] == labels[k];
      var m :| m in labels && Lower(m) == l && b[l] == labels[m];
    }
  }

  /** Normalising again changes nothing. */
  lemma NormalisedAgain(labels: map<string, string>, r: map<string, string>, r': map<string, string>)
    requires Normalised(labels, r) && Normalised(r, r')
    ensures r' == r
  {
    hide Lower;
    forall l | l in r ensures Lower(l) == l {
      var k :| k in labels && Lower(k) == l && r[l] == labels[k];
      LowerTwice(k);
    }
    forall l ensures l in r <==> l in r' {
      if l in r' { var k :| k in r && Lower(k) == l && r'[l] == r[k]; }
    }
    forall l | l in r' ensures r'[l] == r[l] {
      var k :| k in r && Lower(k) == l && r'[l] == r[k];
    }
    assert r.Keys == r'.Keys;
  }

  method NormaliseLabels(raw: map<string, string>) returns (labels: map<string, string>)
    ensures Normalised(raw, labels)
  {
    hide Lower;
    labels := map[];
    var todo := raw.Keys;
    while todo != {}
      invariant todo <= raw.Keys
      invariant forall k :: k in raw.Keys - todo ==> Lower(k) in labels
      invariant forall l :: l in labels ==> exists k :: k in raw && Lower(k) == l && labels[l] == raw[k]
      decreases todo
    {
      var k :| k in todo;
      todo := todo - {k};
      labels := labels[Lower(k) := raw[k]];
    }
  }

  /** What Docker answered to one request. */
  datatype Answer =
    | Listed(ids: seq<string>)
    | Inspected(id: string, result: Docker.Container)
    | Refused

  ghost predicate NoneRefused(answers: seq<Answer>)
  {
    forall i :: 0 <= i < |answers| ==> !answers[i].Refused?
  }

  /** The cached entry is this result with its label keys lower-cased. */
  ghost predicate EntryOf(entry: Docker.Container, result: Docker.Container)
  {
    entry == result.(labels := entry.labels) && Normalised(result.labels, entry.labels)
  }

  /** The list is the one listing among the answers. */
  ghost predicate ListIs(answers: seq<Answer>, list: Option<seq<string>>)
  {
    && (list.Some? ==> exists i :: 0 <= i < |answers| && answers[i].Listed?)
    && (forall i :: 0 <= i < |answers| && answers[i].Listed? ==> list == Some(answers[i].ids))
    && (forall i, j :: 0 <= i < j < |answers| ==> !(answers[i].Listed? && answers[j].Listed?))
  }

  /** The entries are the results of the inspections among the answers; nothing was inspected twice. */
  ghost predicate DetailsAre(answers: seq<Answer>, details: map<string, Docker.Container>)
  {
    && (forall id :: id in details ==> exists i :: 0 <= i < |answers| && answers[i].Inspected? && answers[i].id == id)
    && (forall i :: 0 <= i < |answers| && answers[i].Inspected? ==>
          answers[i].id in details && EntryOf(details[answers[i].id], answers[i].result))
    && (forall i, j :: 0 <= i < j < |answers| && answers[i].Inspected? && answers[j].Inspected? ==>
          answers[i].id != answers[j].id)
  }

  lemma NewListing(answers: seq<Answer>, ids: seq<string>)
    requires ListIs(answers, None)
    ensures ListIs(answers + [Listed(ids)], Some(ids))
  {
    var more := answers + [Listed(ids)];
    assert more[|answers|] == Listed(ids);
  }

  lemma NewEntry(answers: seq<Answer>, details: map<string, Docker.Container>, id: string, result: Docker.Container,
                 entry: Docker.Container)
    requires DetailsAre(answers, details) && id !in details && EntryOf(entry, result)
    ensures DetailsAre(answers + [Inspected(id, result)], details[id := entry])
  {
    hide EntryOf;
    var more, entries := answers + [Inspected(id, result)], details[id := entry];
    assert more[|answers|] == Inspected(id, result);
    forall x | x in entries
      ensures exists i :: 0 <= i < |more| && more[i].Inspected? && more[i].id == x
    {
      if x != id {
        var i :| 0 <= i < |answers| && answers[i].Inspected? && answers[i].id == x;
        assert more[i] == answers[i];
      }
    }
  }

  /** Answers of the other kind, and refusals, change neither. */
  lemma OtherAnswer(answers: seq<Answer>, list: Option<seq<string>>, details: map<string, Docker.Container>, a: Answer)
    ensures !a.Listed? && ListIs(answers, list) ==> ListIs(answers + [a], list)
    ensures !a.Inspected? && DetailsAre(answers, details) ==> DetailsAre(answers + [a], details)
  {
    hide EntryOf;
    var more := answers + [a];
    assert forall i :: 0 <= i < |answers| ==> more[i] == answers[i];
  }

  lemma RefusedLater(a: seq<Answer>, b: seq<Answer>)
    ensures NoneRefused(a + b) <==> NoneRefused(a) && NoneRefused(b)
  {
    if NoneRefused(a + b) {
      assert forall i :: 0 <= i < |a| ==> (a + b)[i] == a[i];
      assert forall i :: 0 <= i < |b| ==> (a + b)[|a| + i] == b[i];
    }
  }

  /** Requests in two parts of a call. */
  lemma NoneRefusedIn(before: seq<Answer>, mid: seq<Answer>, after: seq<Answer>)
    requires before <= mid <= after
    ensures NoneRefused(after[|before|..]) <==> NoneRefused(mid[|before|..]) && NoneRefused(after[|mid|..])
  {
    assert after[|before|..] == mid[|before|..] + after[|mid|..];
    RefusedLater(mid[|before|..], after[|mid|..]);
  }

  class DockerCache {
    var list: Option<seq<string>>
    var details: map<string, Docker.Container>
    /** -1 is the zero time, before every clock reading. */
    var expires: int
    /** Docker's answers, recorded by the two requests, and where those of the current epoch begin. */
    ghost var answers: seq<Answer>
    ghost var epoch: nat

    constructor ()
      ensures Valid() && list == None && details == map[] && expires == -1 && answers == []
    {
      list, details, expires, answers, epoch := None, map[], -1, [], 0;
    }

    /** List and entries are what Docker has answered in this epoch, each thing asked at most once. */
    ghost predicate Valid()
      reads this
    {
      && epoch <= |answers| && ListIs(answers[epoch..], list) && DetailsAre(answers[epoch..], details)
      && (list.None? ==> details == map[])
      && (list.Some? ==> forall id :: id in details ==> id in list.value)
    }

    /** Docker's answers are arbitrary. */
    method ContainerList() returns (ok: bool, ids: seq<string>)
      modifies `answers
      ensures answers == old(answers) + [if ok then Listed(ids) else Refused]
    {
      ok, ids := *, *;
      answers := answers + [if ok then Listed(ids) else Refused];
    }

    method ContainerInspect(id: string) returns (ok: bool, result: Docker.Container)
      modifies `answers
      ensures answers == old(answers) + [if ok then Inspected(id, result) else Refused]
    {
      ok, result := *, *;
      answers := answers + [if ok then Inspected(id, result) else Refused];
    }

    /** `started` and `finished` are the two clock readings of the call. It fails exactly when Docker refuses a
        request, and an expired cache keeps nothing of what it had. */
    method Populate(started: nat, finished: nat) returns (ok: bool)
      requires Valid() && started <= finished
      modifies this
      ensures Valid() && old(answers) <= answers
      ensures ok <==> NoneRefused(answers[|old(answers)|..])
      ensures epoch == if started > old(expires) then |old(answers)| else old(epoch)
      ensures ok ==> list.Some? && details.Keys == (set id | id in list.value) && expires == finished + 5
      ensures !ok ==> expires == old(expires)
      ensures started <= old(expires) && old(list).Some? ==> list == old(list)
      ensures started <= old(expires) ==>
        forall id :: id in old(details) ==> id in details && details[id] == old(details)[id]
    {
      hide ListIs, DetailsAre, NoneRefused;
      ghost var before := answers;
      if started > expires {
        list, details := None, map[];
        epoch := |answers|;
        FreshEpoch(answers);
      }
      ghost var details0 := details;
      NothingAsked(before);
      if list.None? {
        var listed := Relist();
        if !listed {
          return false;
        }
      }
      var ids := list.value;
      for n := 0 to |ids|
        invariant Valid() && list == Some(ids) && expires == old(expires) && before <= answers
        invariant epoch == if started > old(expires) then |before| else old(epoch)
        invariant NoneRefused(answers[|before|..])
        invariant forall id :: id in ids[..n] ==> id in details
        invariant forall id :: id in details0 ==> id in details && details[id] == details0[id]
      {
        var id := ids[n];
        assert id in ids && ids[..n + 1] == ids[..n] + [id];
        ghost var mid := answers;
        ok := Visit(id);
        NoneRefusedIn(before, mid, answers);
        if !ok {
          return false;
        }
      }
      assert ids[..|ids|] == ids;
      expires := finished + LIFETIME;
      return true;
    }

    /** The lookup by service or router label, in a freshly populated cache. */
    method FindContainerByServiceName(started: nat, finished: nat, svcType: string, svcName: string, routerName: string)
      returns (ok: bool, r: Option<Docker.Container>)
      requires Valid() && started <= finished
      modifies this
      ensures Valid() && old(answers) <= answers
      ensures ok <==> NoneRefused(answers[|old(answers)|..])
      ensures epoch == if started > old(expires) then |old(answers)| else old(epoch)
      ensures ok ==> list.Some? && details.Keys == (set id | id in list.value)
      ensures ok ==> Docker.MayFind(details, svcType, svcName, routerName, r)
      ensures !ok ==> r == None
    {
      ok := Populate(started, finished);
      r := None;
      if ok {
        r := Docker.FindContainerByServiceName(details, svcType, svcName, routerName);
      }
    }

    method Relist() returns (ok: bool)
      requires Valid() && list.None?
      modifies `list, `answers
      ensures Valid() && old(answers) < answers && (ok <==> NoneRefused(answers[|old(answers)|..]))
      ensures ok <==> list.Some?
    {
      hide ListIs, DetailsAre;
      ghost var before := answers;
      var ids;
      ok, ids := ContainerList();
      SnocTail(before, epoch, answers[|before|]);
      SnocTail(before, |before|, answers[|before|]);
      OtherAnswer(before[epoch..], None, details, answers[|before|]);
      if ok {
        NewListing(before[epoch..], ids);
        list := Some(ids);
      } else {
        assert answers[|before|..][0].Refused?;
      }
    }

    /** One container of the list: inspected unless it is cached, and its labels normalised. */
    method Visit(id: string) returns (ok: bool)
      requires Valid() && list.Some? && id in list.value
      modifies `details, `answers
      ensures Valid() && (ok ==> id in details) && old(answers) <= answers
      ensures ok <==> NoneRefused(answers[|old(answers)|..])
      ensures forall x :: x in old(details) ==> x in details && details[x] == old(details)[x]
    {
      hide ListIs, DetailsAre, EntryOf, Normalised;
      ghost var before := answers;
      if id !in details {
        var inspected, result := ContainerInspect(id);
        SnocTail(before, epoch, answers[|before|]);
        SnocTail(before, |before|, answers[|before|]);
        OtherAnswer(before[epoch..], list, details, answers[|before|]);
        if !inspected {
          assert answers[|before|..][0].Refused?;
          return false;
        }
        var labels := NormaliseLabels(result.labels);
        NewLabels(result, labels);
        NewEntry(before[epoch..], details, id, result, result.(labels := labels));
        details := details[id := result.(labels := labels)];
      } else {
        var labels := NormaliseLabels(details[id].labels);
        LabelsKept(id, labels);
        details := details[id := details[id].(labels := labels)];
      }
      return true;
    }

    lemma LabelsKept(id: string, labels: map<string, string>)
      requires Valid() && id in details && Normalised(details[id].labels, labels)
      ensures details[id := details[id].(labels := labels)] == details
    {
      hide Normalised;
      var now := answers[epoch..];
      var i :| 0 <= i < |now| && now[i].Inspected? && now[i].id == id;
      NormalisedAgain(now[i].result.labels, details[id].labels, labels);
      assert details[id].(labels := labels) == details[id];
    }
  }

  lemma NewLabels(result: Docker.Container, labels: map<string, string>)
    requires Normalised(result.labels, labels)
    ensures EntryOf(result.(labels := labels), result)
  {
  }

  lemma FreshEpoch(answers: seq<Answer>)
    ensures ListIs(answers[|answers|..], None) && DetailsAre(answers[|answers|..], map[])
  {
  }

  lemma NothingAsked(answers: seq<Answer>)
    ensures NoneRefused(answers[|answers|..])
  {
  }

  lemma SnocTail(answers: seq<Answer>, n: nat, a: Answer)
    requires n <= |answers|
    ensures (answers + [a])[n..] == answers[n..] + [a]
  {
  }
}
