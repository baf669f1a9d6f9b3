/** Runs with failing stores, retried until they succeed. Nothing is asked of the database at each store: that every
    store finds its dropped names all with keys, or all without, follows from how the run got there. */
module FaultyRuns {
  import opened Values
  import opened Config
  import opened Redis
  import opened Plan
  import opened Removal
  import opened ClosedForm
  import opened Ownership
  import opened Ttl
  import opened CleanRuns
  import opened Failure
  import opened Retries
  import opened Republication

  /** What the database holds: a stored configuration; the older `p` while stores of `c` fail; `p` re-published after
      stores of `c` have failed; or parts of `c` over something else. */
  datatype Phase =
    | Settled(last: Option<Configuration>)
    | Open(p: Configuration, c: Configuration)
    | Reverted(p: Configuration, c: Configuration)
    | Stuck(c: Configuration)

  datatype Point = Point(ledger: Ledger, phase: Phase)

  datatype Deed =
    | Attempted(d: Configuration, ch: Choice, done: nat, ok: bool)   // a Store, or the store of a KeepConfAlive
    | Extended(keys: set<string>)                                    // PEXPIREs of a KeepConfAlive
    | Meanwhile(db: Db)                                              // time passes, keys are lost
    | Flushed                                                        // Redis has lost everything

  /** What may be stored next: anything that fits once the last store is through; until then the same configuration
      again, or once the older one, if that succeeds. */
  ghost predicate Allowed(ph: Phase, d: Configuration, ok: bool)
  {
    match ph
    case Settled(last) => Rendered(last) && Fits(last, d)
    case Open(p, c) => d == c || (d == p && ok)
    case Reverted(p, c) => d == c
    case Stuck(c) => d == c
  }

  /** All was done, or all but the sentinel. */
  ghost predicate Through(d: Configuration, ch: Choice, done: nat, ok: bool)
    requires WfConf(d) && Shaped(ch)
  {
    ok || (KvOf(d).Some? && done + 1 == |StorePlan(d, ch)|)
  }

  ghost function AfterStore(ph: Phase, d: Configuration, through: bool): Phase
  {
    if ph.Open? && d != ph.c then Reverted(ph.p, ph.c)
    else if through then Settled(Some(d))
    else if ph.Open? then ph
    else if ph.Settled? && ph.last.Some? then Open(ph.last.value, d)
    else Stuck(d)
  }

  ghost predicate AllThere(c: Configuration, db: Db)
    requires WfConf(c) && KvOf(c).Some?
  {
    KvOf(c).value.Keys <= db.strings.Keys
  }

  ghost function AfterLoss(ph: Phase, db: Db): Phase
  {
    if ph.Settled? && ph.last.Some? && Rendered(ph.last) && !AllThere(ph.last.value, db)
       then Open(ph.last.value, ph.last.value)
    else ph
  }

  /** Nothing is lost of an older configuration that has been re-published. */
  ghost predicate Bearable(ph: Phase, db: Db)
  {
    ph.Reverted? && Rendered(Some(ph.p)) ==> AllThere(ph.p, db)
  }

  ghost predicate Happens(inst: Inst, a: Point, e: Deed, b: Point)
  {
    match e
    case Attempted(d, ch, done, ok) =>
      && WfConf(d) && Allowed(a.phase, d, ok) && Shaped(ch)
      && StoreStep(inst, a.ledger.db, d, ch, done, b.ledger.db, ok)
      && b.ledger.mine == a.ledger.mine + PutKeys(StorePlan(d, ch)[..done])
      && b.phase == AfterStore(a.phase, d, Through(d, ch, done, ok))
    case Extended(keys) => b == a.(ledger := a.ledger.(db := Renewed(a.ledger.db, keys, inst.ttl)))
    case Meanwhile(db) =>
      && Fewer(a.ledger.db, db) && Bearable(a.phase, db)
      && b == Point(a.ledger.(db := db), AfterLoss(a.phase, db))
    case Flushed => b == Point(a.ledger.(db := Db(map[], map[], a.ledger.db.now)), Settled(None))
  }

  ghost predicate IsFaultyRun(inst: Inst, points: seq<Point>, deeds: seq<Deed>)
  {
    |points| == |deeds| + 1 && forall i :: 0 <= i < |deeds| ==> Happens(inst, points[i], deeds[i], points[i + 1])
  }

  ghost predicate PhaseHolds(inst: Inst, ph: Phase, db: Db)
  {
    match ph
    case Settled(last) => Rendered(last) && Tidy(inst, db, last) && (last.Some? ==> AllThere(last.value, db))
    case Open(p, c) => Rendered(Some(p)) && WfConf(c) && Fits(Some(p), c) && Pending(inst, db, p, c)
    case Reverted(p, c) => Rendered(Some(p)) && WfConf(c) && Fits(Some(p), c) && RevertedTo(inst, db, p, c)
    case Stuck(c) => WfConf(c) && Retriable(inst, db, c)
  }

  ghost predicate Sound(inst: Inst, a: Point)
  {
    Good(inst, a.ledger) && PhaseHolds(inst, a.phase, a.ledger.db)
  }

  // ---------- every store is covered ----------

  lemma SettledReady(inst: Inst, db: Db, last: Option<Configuration>, d: Configuration)
    requires ValidDb(db) && PhaseHolds(inst, Settled(last), db) && Fits(last, d)
    ensures Ready(inst, db, d)
  {
    hide ValidDb, DropsEven, Apart, WfConf, KvOf, DroppedEmit, DroppedApart, Tidy, Dropped, Names, LastNames;
    forall i | 0 <= i < |SETS|
      ensures Dropped(inst, db, d, SETS[i]) <= LastNames(last, SETS[i]) - Names(d, SETS[i])
    {
      TidyDropped(inst, db, last, d, i);
    }
    TidyHasNoLeftover(inst, db, last, d);
    EmittingDropsEven(inst, db, last, d);
    DropsApart(inst, db, last, d);
  }

  lemma TidyHasNoLeftover(inst: Inst, db: Db, last: Option<Configuration>, d: Configuration)
    requires Tidy(inst, db, last)
    ensures LeftoverOf(inst, db, d)
  {
    hide SetKey, NewKey, Names;
  }

  lemma NothingDropped(inst: Inst, db: Db, c: Configuration)
    requires forall i :: 0 <= i < |SETS| ==> Dropped(inst, db, c, SETS[i]) == {}
    ensures DropsEven(inst, db, c) && DropsDead(inst, db, c) && Apart(inst, db, c)
  {
    hide Dropped, Names, Live;
    NoNames();
  }

  /** Whatever may be stored next has its dropped names all with keys or all without, set by set. */
  lemma AttemptCovered(inst: Inst, a: Point, d: Configuration, ok: bool)
    requires Sound(inst, a) && WfConf(d) && Allowed(a.phase, d, ok)
    ensures DropsEven(inst, a.ledger.db, d)
    ensures !(a.phase.Open? && d != a.phase.c) ==> Ready(inst, a.ledger.db, d)
  {
    hide WfConf, KvOf, DropsEven, Ready, Owned, ValidDb, Pending, RevertedTo, Fits, Retriable, Tidy, Dropped, AllThere;
    var db := a.ledger.db;
    ReadyEven(inst, db, d);
    match a.phase
    case Settled(last) => SettledReady(inst, db, last, d);
    case Open(p, c) =>
      PendingValid(inst, db, p, c);
      if d == c {
        RetriableReady(inst, db, c);
      } else {
        forall i | 0 <= i < |SETS| ensures Dropped(inst, db, p, SETS[i]) == {} { PendingDropped(inst, db, p, c, i); }
        NothingDropped(inst, db, p);
      }
    case Reverted(p, c) => RevertedReady(inst, db, p, c);
    case Stuck(c) => RetriableReady(inst, db, c);
  }

  lemma ReadyEven(inst: Inst, db: Db, d: Configuration)
    ensures Ready(inst, db, d) ==> DropsEven(inst, db, d)
  {
    hide ValidDb, DropsEven, LeftoverOf, Apart;
  }

  // ---------- one deed ----------

  /** A store that is through, with or without its sentinel, leaves its configuration settled. */
  lemma ThroughSettles(inst: Inst, db: Db, d: Configuration, ch: Choice, done: nat, db': Db, ok: bool)
    requires WfConf(d) && Ready(inst, db, d) && Shaped(ch) && StoreStep(inst, db, d, ch, done, db', ok)
    requires Through(d, ch, done, ok)
    ensures PhaseHolds(inst, Settled(Some(d)), db')
  {
    hide WfConf, KvOf, StoreStep, StorePlan, ValidDb, DropsEven, LeftoverOf, Apart, FinalSets, FinalStrings, Tidy,
      Sentinel, SortedSeq, Removed, Written, Cleaned, Announced;
    if ok {
      RetrySucceeds(inst, db, d, ch, done, db');
      PublishFull(inst, db, d, ch, done, db');
    } else {
      EvenHasNames(inst, db, d);
      NamesPlain(inst, db, d);
      var j, left := FailedStore(inst, db, d, ch, done, db');
      LeftoverTidy(inst, db, d, db');
      CleanedHas(left, d, KvOf(d).value, db.Deadline(inst.ttl));
    }
  }

  lemma CleanedHas(left: map<string, Item>, c: Configuration, kv: map<string, string>, dl: Option<nat>)
    ensures kv.Keys <= Cleaned(Written(left, kv, kv.Keys, dl), c, kv).Keys
  {
    hide ServerKey;
  }

  /** One that is not through leaves its dropped names dead and the tracking sets alone. */
  lemma FailureLeaves(inst: Inst, db: Db, d: Configuration, ch: Choice, done: nat, db': Db)
    requires WfConf(d) && Ready(inst, db, d) && Shaped(ch) && StoreStep(inst, db, d, ch, done, db', false)
    requires !Through(d, ch, done, false)
    ensures Retriable(inst, db', d)
    ensures forall i :: 0 <= i < |SETS| ==> db'.Members(SetKey(inst, SETS[i])) == db.Members(SetKey(inst, SETS[i]))
  {
    hide WfConf, KvOf, StoreStep, ValidDb, DropsEven, LeftoverOf, Apart, Retriable, SetKey, NewKey, Names, StorePlan;
    FailureIsRetriable(inst, db, d, ch, done, db');
    FailureSpareSets(inst, db, d, ch, done, db');
  }

  lemma FailureSpareSets(inst: Inst, db: Db, d: Configuration, ch: Choice, done: nat, db': Db)
    requires WfConf(d) && Ready(inst, db, d) && Shaped(ch) && StoreStep(inst, db, d, ch, done, db', false)
    requires !Through(d, ch, done, false)
    ensures forall i :: 0 <= i < |SETS| ==> db'.Members(SetKey(inst, SETS[i])) == db.Members(SetKey(inst, SETS[i]))
  {
    hide WfConf, KvOf, StoreStep, ValidDb, DropsEven, LeftoverOf, Apart, SetKey, NewKey, Names, StorePlan, TrackPlan,
      Run;
    if KvOf(d).None? {
      UnrenderedStops(inst, db, d, ch, done, db');
      TrackedAnnounced(inst, db, d, ch);
    } else {
      FailureAnnounces(inst, db, d, ch, done, db');
    }
  }

  lemma AttemptHolds(inst: Inst, a: Point, d: Configuration, ch: Choice, done: nat, ok: bool, db': Db)
    requires Sound(inst, a) && WfConf(d) && Allowed(a.phase, d, ok) && Shaped(ch)
    requires StoreStep(inst, a.ledger.db, d, ch, done, db', ok)
    ensures PhaseHolds(inst, AfterStore(a.phase, d, Through(d, ch, done, ok)), db')
  {
    hide WfConf, KvOf, StoreStep, StorePlan, Ready, Owned, Fits, Retriable, Tidy, AllThere, RevertedTo, LeftoverOf,
      DropsEven, SetKey, Names, ValidDb;
    var db, ph := a.ledger.db, a.phase;
    AttemptCovered(inst, a, d, ok);
    if ph.Open? && d != ph.c {
      PendingValid(inst, db, ph.p, ph.c);
      RetriableReady(inst, db, ph.c);
      ReadyLeftover(inst, db, ph.c);
      Reverts(inst, db, ph.p, ph.c, ch, done, db');
    } else if Through(d, ch, done, ok) {
      ThroughSettles(inst, db, d, ch, done, db', ok);
    } else {
      FailureLeaves(inst, db, d, ch, done, db');
      if ph.Settled? && ph.last.Some? {
        TidyNames(inst, db, ph.last.value);
      }
    }
  }

  lemma ReadyLeftover(inst: Inst, db: Db, c: Configuration)
    requires Ready(inst, db, c)
    ensures ValidDb(db) && LeftoverOf(inst, db, c)
  {
  }

  lemma TidyNames(inst: Inst, db: Db, c: Configuration)
    requires Tidy(inst, db, Some(c))
    ensures forall i :: 0 <= i < |SETS| ==> db.Members(SetKey(inst, SETS[i])) == Names(c, SETS[i])
  {
    hide SetKey, NewKey, Names;
  }

  lemma AttemptSound(inst: Inst, a: Point, d: Configuration, ch: Choice, done: nat, ok: bool, b: Point)
    requires Sound(inst, a) && Happens(inst, a, Attempted(d, ch, done, ok), b)
    ensures Sound(inst, b)
  {
    hide WfConf, KvOf, Allowed, AfterStore, PhaseHolds, StorePlan, Owned, ValidDb, DropsEven, Ready, PutKeys, Possible,
      Run, Through;
    AttemptCovered(inst, a, d, ok);
    AttemptHolds(inst, a, d, ch, done, ok, b.ledger.db);
    StorePrefixOwned(inst, a.ledger.db, a.ledger.mine, d, ch, done);
    RunValid(inst, Sys(a.ledger.db, false), StorePlan(d, ch)[..done]);
  }

  /** Fewer keys and the same sets: a settled configuration may have to be stored again, the rest stays as it was. */
  lemma LossHolds(inst: Inst, ph: Phase, a: Db, b: Db)
    requires PhaseHolds(inst, ph, a) && ValidDb(a) && Fewer(a, b) && Bearable(ph, b)
    ensures PhaseHolds(inst, AfterLoss(ph, b), b)
  {
    hide WfConf, KvOf, Fits, Retriable, Tidy, AllThere, RevertedTo, Names, SetKey, ValidDb, Pending;
    SameSetsValid(a, b);
    match ph
    case Settled(last) =>
      SameSetsTidy(inst, a, b, last);
      if last.Some? {
        TidyPending(inst, b, last.value);
        FitsItself(last.value);
      }
    case Open(p, c) => FewerPending(inst, a, b, p, c);
    case Reverted(p, c) => LossReverted(inst, a, b, p, c);
    case Stuck(c) => FewerRetriable(inst, a, b, c);
  }

  lemma LossReverted(inst: Inst, a: Db, b: Db, p: Configuration, c: Configuration)
    requires Rendered(Some(p)) && RevertedTo(inst, a, p, c) && Fewer(a, b) && AllThere(p, b)
    ensures RevertedTo(inst, b, p, c)
  {
    hide WfConf, KvOf, RevertedTo;
    SameReverted(inst, a, b, p, c);
  }

  lemma FitsItself(c: Configuration)
    requires Rendered(Some(c))
    ensures Fits(Some(c), c)
  {
    hide WfConf, KvOf, Names, Emits;
  }

  /** With its own sets in place a configuration has nothing to drop. */
  lemma TidyPending(inst: Inst, db: Db, c: Configuration)
    requires Tidy(inst, db, Some(c)) && ValidDb(db)
    ensures Pending(inst, db, c, c)
  {
    hide ValidDb, Tidy, Dropped, DropsDead, Apart, LeftoverOf, SetKey, Names;
    forall i | 0 <= i < |SETS| ensures Dropped(inst, db, c, SETS[i]) == {} { TidyDropped(inst, db, Some(c), c, i); }
    NothingDropped(inst, db, c);
    TidyHasNoLeftover(inst, db, Some(c), c);
    TidyNames(inst, db, c);
  }

  lemma ExtendedHolds(inst: Inst, ph: Phase, a: Db, keys: set<string>)
    requires PhaseHolds(inst, ph, a) && ValidDb(a)
    ensures PhaseHolds(inst, ph, Renewed(a, keys, inst.ttl))
  {
    var b := Renewed(a, keys, inst.ttl);
    LossOfNothing(ph, a, b);
    hide PhaseHolds, ValidDb, Renewed;
    LossHolds(inst, ph, a, b);
  }

  lemma LossOfNothing(ph: Phase, a: Db, b: Db)
    requires a.strings.Keys == b.strings.Keys
    ensures AfterLoss(ph, b) == AfterLoss(ph, a) && (Bearable(ph, a) ==> Bearable(ph, b))
  {
    hide WfConf, KvOf;
  }

  lemma FlushedHolds(inst: Inst, now: nat)
    ensures PhaseHolds(inst, Settled(None), Db(map[], map[], now)) && ValidDb(Db(map[], map[], now))
  {
    hide SetKey, NewKey;
  }

  lemma DeedSound(inst: Inst, a: Point, e: Deed, b: Point)
    requires Sound(inst, a) && Happens(inst, a, e, b)
    ensures Sound(inst, b)
  {
    hide WfConf, KvOf, Allowed, AfterStore, AfterLoss, Bearable, PhaseHolds, Owned, ValidDb, Renewed;
    match e
    case Attempted(d, ch, done, ok) => AttemptSound(inst, a, d, ch, done, ok, b);
    case Extended(keys) =>
      ExtendedHolds(inst, a.phase, a.ledger.db, keys);
      StepGood(inst, a.ledger, Renewal(keys), b.ledger);
    case Meanwhile(db) =>
      SameSetsValid(a.ledger.db, db);
      LossHolds(inst, a.phase, a.ledger.db, db);
      FewerOwned(inst, a.ledger.db, db, a.ledger.mine);
    case Flushed =>
      FlushedHolds(inst, a.ledger.db.now);
      EmptyOwned(inst, b.ledger.db, b.ledger.mine);
  }

  lemma FewerOwned(inst: Inst, a: Db, b: Db, mine: set<string>)
    requires Owned(inst, a, mine) && Fewer(a, b)
    ensures Owned(inst, b, mine)
  {
    hide Owned;
    OwnedShrinks(inst, a, b, mine);
  }

  lemma EmptyOwned(inst: Inst, db: Db, mine: set<string>)
    requires db.strings == map[]
    ensures Owned(inst, db, mine)
  {
  }

  /** At every point of such a run every live key of this instance in a tracked area is under a name it tracks, and the
      tracking sets are as the phase says: those of the stored configuration whenever one is settled. */
  lemma {:induction false} AlwaysSound(inst: Inst, points: seq<Point>, deeds: seq<Deed>, i: nat)
    requires IsFaultyRun(inst, points, deeds) && Sound(inst, points[0]) && i < |points|
    ensures Sound(inst, points[i])
  {
    if i > 0 {
      hide Happens, Sound;
      AlwaysSound(inst, points, deeds, i - 1);
      DeedSound(inst, points[i - 1], deeds[i - 1], points[i]);
    }
  }

  /** Every store of such a run that succeeds is the closed-form update. */
  lemma StoresCovered(inst: Inst, points: seq<Point>, deeds: seq<Deed>, i: nat)
    requires IsFaultyRun(inst, points, deeds) && Sound(inst, points[0]) && i < |deeds|
    requires deeds[i].Attempted? && deeds[i].ok
    ensures var e, a, b := deeds[i], points[i].ledger.db, points[i + 1].ledger.db;
      && WfConf(e.d) && KvOf(e.d).Some? && b.strings == FinalStrings(inst, a, e.d, KvOf(e.d).value, e.ch.stamp)
      && FinalSets(inst, a, e.d, b)
  {
    hide WfConf, KvOf, Allowed, AfterStore, Sound, StoreStep, PutKeys, FinalStrings, FinalSets, DropsEven, Ready;
    AlwaysSound(inst, points, deeds, i);
    var e, a := deeds[i], points[i];
    assert Happens(inst, a, e, points[i + 1]);
    AttemptCovered(inst, a, e.d, true);
    SoundValid(inst, a);
    StoreCloses(inst, a.ledger.db, e.d, e.ch, e.done, points[i + 1].ledger.db);
  }

  lemma SoundValid(inst: Inst, a: Point)
    requires Sound(inst, a)
    ensures ValidDb(a.ledger.db)
  {
    hide PhaseHolds, ValidDb, Owned;
  }

  /** A KeepConfAlive is at most a renewal followed by a store of the last configuration. */
  lemma KeepIsDeeds(inst: Inst, a: Point, p: Configuration, k: Keep, db': Db, ok: bool)
    returns (points: seq<Point>, deeds: seq<Deed>)
    requires WfConf(p) && KeepStep(inst, a.ledger.db, Some(p), k, db', ok) && Allowed(a.phase, p, ok)
    ensures IsFaultyRun(inst, points, deeds) && points[0] == a && points[|deeds|].ledger.db == db'
  {
    hide KvOf, WfConf, StorePlan, Run, Possible, PutKeys, Renewed, Allowed, AfterStore, Through;
    match k
    case Idle => points, deeds := [a], [];
    case NoAnswer => points, deeds := [a], [];
    case Renew(applied, complete) => points, deeds := [a, a.(ledger := a.ledger.(db := db'))], [Extended(applied)];
    case Restore(renewed, ch, done) =>
      var keys := if renewed then Wanted(inst, p) else {};
      var b := if renewed then a.(ledger := a.ledger.(db := Renewed(a.ledger.db, keys, inst.ttl))) else a;
      PossibleShaped(inst, b.ledger.db, p, ch);
      var d := Point(Ledger(db', a.ledger.mine + PutKeys(StorePlan(p, ch)[..done])),
                     AfterStore(a.phase, p, Through(p, ch, done, ok)));
      if renewed {
        points, deeds := [a, b, d], [Extended(keys), Attempted(p, ch, done, ok)];
      } else {
        points, deeds := [a, d], [Attempted(p, ch, done, ok)];
      }
  }
}
