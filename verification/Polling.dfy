/** The polling supervisor: one attempt at a time, each earlier one cancelled and stopped first. */
module Polling {
  import opened Values
  import opened Config
  import opened Redis
  import opened Plan
  import opened Store

  const UINT64: nat := 0x1_0000_0000_0000_0000

  /** A polling attempt: its context and its pool of goroutines. */
  class Attempt {
    var cancelled: bool
    var stopped: bool

    constructor ()
      ensures !cancelled && !stopped
    {
      cancelled, stopped := false, false;
    }

    /** The context's cancel function. */
    method Cancel()
      modifies `cancelled
      ensures cancelled
    {
      cancelled := true;
    }

    /** Pool.Stop returns when every goroutine of the pool has ended. */
    method Stop()
      modifies `stopped
      ensures stopped
    {
      stopped := true;
    }
  }

  ghost predicate Over(a: Attempt)
    reads a
  {
    a.cancelled && a.stopped
  }

  ghost predicate AllOver(s: seq<Attempt>)
    reads s
  {
    forall i :: 0 <= i < |s| ==> Over(s[i])
  }

  datatype Wake = Tick | Done

  /** The ticks that are served before the context is done. */
  function TicksServed(wakes: seq<Wake>): nat
  {
    if wakes == [] || wakes[0] == Done then 0 else 1 + TicksServed(wakes[1..])
  }

  lemma {:induction false} TicksSplit(wakes: seq<Wake>, n: nat)
    requires n <= |wakes| && forall i :: 0 <= i < n ==> wakes[i] == Tick
    ensures TicksServed(wakes) == n + TicksServed(wakes[n..])
  {
    if n > 0 {
      TicksSplit(wakes[1..], n - 1);
      assert wakes[1..][n - 1..] == wakes[n..];
    } else {
      assert wakes[0..] == wakes;
    }
  }

  /** A KeepConfAlive call, as the database saw it. */
  datatype Kept = Kept(k: Keep, ok: bool)

  /** The calls lead from the first database to the last, one after the other. */
  ghost predicate KeepsChain(inst: Inst, last: Option<Configuration>, dbs: seq<Db>, calls: seq<Kept>)
  {
    && |dbs| == |calls| + 1 && (last.Some? ==> WfConf(last.value))
    && forall i :: 0 <= i < |calls| ==> KeepStep(inst, dbs[i], last, calls[i].k, dbs[i + 1], calls[i].ok)
  }

  lemma ChainStart(inst: Inst, last: Option<Configuration>, db: Db)
    requires last.Some? ==> WfConf(last.value)
    ensures KeepsChain(inst, last, [db], [])
  {
  }

  lemma ChainSnoc(inst: Inst, last: Option<Configuration>, dbs: seq<Db>, calls: seq<Kept>, call: Kept, db: Db)
    requires KeepsChain(inst, last, dbs, calls) && KeepStep(inst, dbs[|calls|], last, call.k, db, call.ok)
    ensures KeepsChain(inst, last, dbs + [db], calls + [call])
    ensures (dbs + [db])[0] == dbs[0] && (dbs + [db])[|calls + [call]|] == db
  {
    hide KeepStep, WfConf;
  }

  /** The calls, as the store recorded them. */
  function KeepCalls(calls: seq<Kept>): seq<Called>
  {
    seq(|calls|, i requires 0 <= i < |calls| => KeepCalled(calls[i].ok))
  }

  lemma NoCalls()
    ensures KeepCalls([]) == []
  {
  }

  lemma CallsSnoc(calls: seq<Kept>, call: Kept)
    ensures KeepCalls(calls + [call]) == KeepCalls(calls) + [KeepCalled(call.ok)]
  {
  }

  class PollingProvider {
    const refreshInterval: nat
    const store: RedisStore
    var activeAttempt: Attempt?
    var activeAttemptCancel: bool
    var attemptNumber: nat
    /** Every attempt ever started, in order. */
    ghost var history: seq<Attempt>
    /** The attempts that the upstream's Provide was called for. */
    ghost var provided: seq<Attempt>
    /** How many calls the store had served by then. */
    ghost var servedBy: seq<nat>

    constructor (refreshInterval: nat, store: RedisStore)
      ensures Valid() && history == [] && this.refreshInterval == refreshInterval && this.store == store
    {
      this.refreshInterval, this.store := refreshInterval, store;
      activeAttempt, activeAttemptCancel, attemptNumber := null, false, 0;
      history, provided, servedBy := [], [], [];
    }

    /** At most the last attempt is live, and then it is the active one; the upstream was called for each attempt. */
    ghost predicate Valid()
      reads this, history
    {
      && provided == history && |servedBy| == |history|
      && attemptNumber == |history| % UINT64
      && (activeAttempt == null ==> AllOver(history))
      && (activeAttempt != null ==>
            |history| > 0 && history[|history| - 1] == activeAttempt && AllOver(history[..|history| - 1]))
      && (activeAttemptCancel <==> activeAttempt != null)
      && (forall i, j :: 0 <= i < j < |history| ==> history[i] != history[j])
    }

    /** The upstream's Provide is only called when every earlier attempt is over; it may fail. */
    method UpstreamProvide(attempt: Attempt) returns (ok: bool)
      requires history == provided + [attempt] && AllOver(provided)
      modifies `provided, `servedBy
      ensures provided == old(provided) + [attempt] && servedBy == old(servedBy) + [|store.called|]
    {
      ok := *;
      provided, servedBy := provided + [attempt], servedBy + [|store.called|];
    }

    lemma ActiveInHistory()
      requires Valid()
      ensures |servedBy| == |history|
      ensures activeAttempt != null ==> activeAttempt in history
      ensures history == [] ==> activeAttempt == null && AllOver(history)
    {
    }

    method StartPollAttempt()
      requires Valid()
      modifies this, activeAttempt
      ensures Valid()
      ensures |history| == |old(history)| + 1 && history[..|old(history)|] == old(history)
      ensures AllOver(old(history)) && servedBy == old(servedBy) + [|store.called|]
      ensures activeAttempt != null && fresh(activeAttempt)
    {
      if activeAttemptCancel {
        activeAttempt.Cancel();
      }
      if activeAttempt != null {
        activeAttempt.Stop();
      }
      assert AllOver(history);
      var attempt := new Attempt();
      attemptNumber := (attemptNumber + 1) % UINT64;
      activeAttempt := attempt;
      activeAttemptCancel := true;
      history := history + [attempt];
      assert history[..|history| - 1] == old(history);
      var ok := UpstreamProvide(attempt);
    }

    method CancelActiveAttempt()
      requires Valid()
      modifies this, activeAttempt
      ensures Valid() && history == old(history) && AllOver(history) && activeAttempt == null
      ensures servedBy == old(servedBy)
    {
      if activeAttemptCancel {
        activeAttempt.Cancel();
        activeAttemptCancel := false;
      }
      if activeAttempt != null {
        activeAttempt.Stop();
        activeAttempt := null;
      }
    }

    /** The supervising loop, for the wake-ups received so far; it exits when the context is done. Each tick
        starts one attempt and then makes one call of KeepConfAlive, and nothing
        else acts on the store. A disabled provider does nothing. */
    method Provide(wakes: seq<Wake>) returns (exited: bool, ghost dbs: seq<Db>, ghost calls: seq<Kept>)
      requires Valid() && history == []
      requires store.lastConfig.Some? ==> WfConf(store.lastConfig.value)
      modifies this, store, store.client
      ensures Valid()
      ensures refreshInterval == 0 ==> history == [] && exited
      ensures refreshInterval > 0 ==> |history| == TicksServed(wakes) && (exited <==> Done in wakes)
      ensures exited ==> AllOver(history) && activeAttempt == null
      ensures store.lastConfig == old(store.lastConfig)
      ensures |calls| == (if refreshInterval == 0 then 0 else TicksServed(wakes))
      ensures |dbs| == |calls| + 1 && dbs[0] == old(store.client.View()) && dbs[|calls|] == store.client.View()
      ensures KeepsChain(store.inst, store.lastConfig, dbs, calls)
      ensures store.called == old(store.called) + KeepCalls(calls)
      ensures |servedBy| == |calls| && forall i :: 0 <= i < |calls| ==> servedBy[i] == |old(store.called)| + i
    {
      hide KeepStep, WfConf, KeepsChain, Answered, KvOf, KeepCalls, Valid, AllOver;
      NoCalls();
      ChainStart(store.inst, store.lastConfig, store.client.View());
      dbs, calls := [store.client.View()], [];
      ActiveInHistory();
      if refreshInterval == 0 {
        return true, dbs, calls;
      }
      for i := 0 to |wakes|
        invariant Valid() && |history| == i && (forall a :: a in history ==> fresh(a))
        invariant forall j :: 0 <= j < i ==> wakes[j] == Tick
        invariant store.lastConfig == old(store.lastConfig)
        invariant |calls| == i && |dbs| == i + 1 && KeepsChain(store.inst, store.lastConfig, dbs, calls)
        invariant dbs[0] == old(store.client.View()) && dbs[|calls|] == store.client.View()
        invariant store.called == old(store.called) + KeepCalls(calls) && |store.called| == |old(store.called)| + i
        invariant |servedBy| == i && forall j :: 0 <= j < i ==> servedBy[j] == |old(store.called)| + j
      {
        ActiveInHistory();
        match wakes[i]
        case Tick =>
          ghost var before := history;
          StartPollAttempt();
          assert history == before + [activeAttempt];
          var ok, k := store.KeepConfAlive();
          ChainSnoc(store.inst, store.lastConfig, dbs, calls, Kept(k, ok), store.client.View());
          CallsSnoc(calls, Kept(k, ok));
          dbs, calls := dbs + [store.client.View()], calls + [Kept(k, ok)];
        case Done =>
          CancelActiveAttempt();
          TicksSplit(wakes, i);
          return true, dbs, calls;
      }
      TicksSplit(wakes, |wakes|);
      return false, dbs, calls;
    }
  }

  /** Every attempt but the last has been cancelled and has stopped. */
  lemma EarlierOver(p: PollingProvider, i: nat)
    requires p.Valid() && i < |p.history|
    ensures i < |p.history| - 1 || p.activeAttempt == null ==> p.history[i].cancelled && p.history[i].stopped
  {
    var h := p.history;
    if p.activeAttempt != null {
      assert forall k :: 0 <= k < |h| - 1 ==> h[..|h| - 1][k] == h[k];
    }
  }

  /** In every state of the supervisor at most one attempt is live, and it is the last one started. */
  lemma AtMostOneLive(p: PollingProvider, i: nat, j: nat)
    requires p.Valid() && i < |p.history| && j < |p.history| && !Over(p.history[i]) && !Over(p.history[j])
    ensures i == j == |p.history| - 1 && p.activeAttempt == p.history[i]
  {
    var h := p.history;
    if p.activeAttempt != null {
      assert forall k :: 0 <= k < |h| - 1 ==> h[..|h| - 1][k] == h[k];
    }
  }
}
