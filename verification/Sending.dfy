/** Which commands a store call has sent and which one was refused, as the client recorded them. */
module Sending {
  import opened Config
  import opened Redis
  import opened Plan
  import opened ClosedForm

  /** The commands of a plan that can be refused are its SETs. */
  function Sends(inst: Inst, m: Micro, ok: bool): seq<Sent>
  {
    match m
    case Put(key, value) => [Sent(SetCall(key, value, inst.ttl), ok)]
    case Stamp(text) => [Sent(SetCall(Sentinel(inst), text, inst.ttl), ok)]
    case Add(_, _) => []
    case Remove(_, _) => []
    case Stale(_, _, _) => []
    case Swap(_) => []
  }

  /** The SETs of an executed plan, all of them accepted. */
  function SentBy(inst: Inst, plan: seq<Micro>): seq<Sent>
  {
    if plan == [] then [] else SentBy(inst, plan[..|plan| - 1]) + Sends(inst, plan[|plan| - 1], true)
  }

  /** The refused SET that ended the plan after `done` commands. */
  function RefusedAt(inst: Inst, plan: seq<Micro>, done: nat): seq<Sent>
  {
    if done < |plan| then Sends(inst, plan[done], false) else []
  }

  lemma SentSnoc(inst: Inst, plan: seq<Micro>, m: Micro)
    ensures SentBy(inst, plan + [m]) == SentBy(inst, plan) + Sends(inst, m, true)
  {
    assert (plan + [m])[..|plan|] == plan;
  }

  lemma {:induction false} SentConcat(inst: Inst, a: seq<Micro>, b: seq<Micro>)
    ensures SentBy(inst, a + b) == SentBy(inst, a) + SentBy(inst, b)
  {
    if b == [] {
      assert a + b == a;
    } else {
      SentConcat(inst, a, b[..|b| - 1]);
      assert (a + b)[..|a + b| - 1] == a + b[..|b| - 1];
    }
  }

  lemma {:induction false} SilentSends(inst: Inst, plan: seq<Micro>)
    requires forall i :: 0 <= i < |plan| ==> !plan[i].Put? && !plan[i].Stamp?
    ensures SentBy(inst, plan) == []
  {
    if plan != [] {
      SilentSends(inst, plan[..|plan| - 1]);
    }
  }

  lemma {:induction false} SentAnswered(inst: Inst, plan: seq<Micro>)
    ensures Answered(SentBy(inst, plan))
  {
    if plan != [] {
      SentAnswered(inst, plan[..|plan| - 1]);
      AnsweredConcat(SentBy(inst, plan[..|plan| - 1]), Sends(inst, plan[|plan| - 1], true));
    }
  }

  /** A plan whose commands were sent up to a refused SET has been finished exactly when none was refused. */
  lemma FinishedIff(inst: Inst, plan: seq<Micro>, done: nat)
    requires done <= |plan| && (done < |plan| ==> plan[done].Put? || plan[done].Stamp?)
    ensures Answered(SentBy(inst, plan[..done]) + RefusedAt(inst, plan, done)) <==> done == |plan|
  {
    SentAnswered(inst, plan[..done]);
    AnsweredConcat(SentBy(inst, plan[..done]), RefusedAt(inst, plan, done));
    if done < |plan| {
      assert !RefusedAt(inst, plan, done)[0].ok;
    }
  }

  lemma SentPutsSnoc(inst: Inst, kv: map<string, string>, keys: seq<string>, i: nat)
    requires i < |keys| && forall k :: k in keys ==> k in kv
    ensures SentBy(inst, Puts(kv, keys[..i + 1]))
            == SentBy(inst, Puts(kv, keys[..i])) + [Sent(SetCall(keys[i], kv[keys[i]], inst.ttl), true)]
  {
    hide SentBy;
    assert Puts(kv, keys[..i + 1]) == Puts(kv, keys[..i]) + [Put(keys[i], kv[keys[i]])];
    SentSnoc(inst, Puts(kv, keys[..i]), Put(keys[i], kv[keys[i]]));
  }

  lemma {:induction false} TracksSilent(inst: Inst, c: Configuration, replies: seq<seq<string>>, n: nat)
    requires n <= |SETS| && n <= |replies|
    ensures SentBy(inst, Tracks(c, replies, n)) == []
  {
    hide Names, SentBy;
    if n == 0 {
      SilentSends(inst, Tracks(c, replies, 0));
    } else {
      TracksSilent(inst, c, replies, n - 1);
      var step := [Add(SETS[n - 1], Names(c, SETS[n - 1]))] + Removes(SETS[n - 1], replies[n - 1]);
      SilentSends(inst, step);
      SentConcat(inst, Tracks(c, replies, n - 1), step);
      assert Tracks(c, replies, n) == Tracks(c, replies, n - 1) + step;
    }
  }

  lemma {:induction false} StalesSilent(inst: Inst, services: seq<seq<string>>, kept: set<string>, n: nat)
    requires n <= |PROTO_ORDER| && n <= |services|
    ensures SentBy(inst, AllStales(services, kept, n)) == []
  {
    hide SentBy;
    if n == 0 {
      SilentSends(inst, AllStales(services, kept, 0));
    } else {
      StalesSilent(inst, services, kept, n - 1);
      SilentSends(inst, Stales(PROTO_ORDER[n - 1], services[n - 1], kept));
      SentConcat(inst, AllStales(services, kept, n - 1), Stales(PROTO_ORDER[n - 1], services[n - 1], kept));
    }
  }

  lemma TrackSent(inst: Inst, c: Configuration, ch: Choice)
    requires Shaped(ch)
    ensures SentBy(inst, TrackPlan(c, ch)) == []
  {
    TracksSilent(inst, c, ch.replies, |SETS|);
  }

  /** Up to write number j. */
  lemma CutSent(inst: Inst, c: Configuration, kv: map<string, string>, ch: Choice, j: nat)
    requires Shaped(ch) && j < |SortedSeq(kv.Keys)|
    ensures var done := |CutPlan(c, kv, ch, j)|;
      && done < |FullPlan(c, kv, ch)|
      && SentBy(inst, FullPlan(c, kv, ch)[..done]) == SentBy(inst, Puts(kv, SortedSeq(kv.Keys)[..j]))
      && RefusedAt(inst, FullPlan(c, kv, ch), done) == RefusedAt(inst, Puts(kv, SortedSeq(kv.Keys)), j)
  {
    hide SentBy, SortedSeq, TrackPlan, FullPlan;
    CutIsPrefix(c, kv, ch, j);
    TrackSent(inst, c, ch);
    SentConcat(inst, TrackPlan(c, ch), Puts(kv, SortedSeq(kv.Keys)[..j]));
  }

  /** Up to the sentinel. */
  lemma FullSent(inst: Inst, c: Configuration, kv: map<string, string>, ch: Choice)
    requires Shaped(ch)
    ensures var n := |FullPlan(c, kv, ch)|;
      && n > 0
      && SentBy(inst, FullPlan(c, kv, ch)[..n - 1]) == SentBy(inst, Puts(kv, SortedSeq(kv.Keys)))
      && FullPlan(c, kv, ch)[n - 1] == Stamp(ch.stamp)
      && SentBy(inst, FullPlan(c, kv, ch))
         == SentBy(inst, FullPlan(c, kv, ch)[..n - 1]) + Sends(inst, Stamp(ch.stamp), true)
  {
    hide SentBy, SortedSeq, TrackPlan, AllStales, Stales;
    var a, w, d, s := TrackPlan(c, ch), WritePlan(kv), CleanPlan(kv, ch), Swaps(|SETS|);
    TrackSent(inst, c, ch);
    StalesSilent(inst, ch.services, kv.Keys, |PROTO_ORDER|);
    SilentSends(inst, s);
    SentConcat(inst, a, w);
    SentConcat(inst, a + w, d);
    SentConcat(inst, a + w + d, s);
    SentSnoc(inst, a + w + d + s, Stamp(ch.stamp));
    assert (a + w + d + s + [Stamp(ch.stamp)])[..|a + w + d + s|] == a + w + d + s;
  }
}
