/** Storing a configuration again after a failure, with time passing, keys lost and the process's own KeepConfAlive
    calls in between: when the attempts are covered, and what a re-publication of the older configuration does. */
module Retries {
  import opened Values
  import opened Config
  import opened Redis
  import opened Plan
  import opened ClosedForm
  import opened Ownership
  import opened Ttl
  import opened CleanRuns
  import opened Failure

  /** A store of the configuration meets the condition of the closed form and of the run theorems. */
  ghost predicate Ready(inst: Inst, db: Db, c: Configuration)
  {
    ValidDb(db) && DropsEven(inst, db, c) && LeftoverOf(inst, db, c) && Apart(inst, db, c)
  }

  /** A complete store of `p` took over what failed attempts of `c` had left in the temporary sets. */
  ghost predicate RevertedTo(inst: Inst, db: Db, p: Configuration, c: Configuration)
    requires WfConf(p) && KvOf(p).Some?
  {
    && ValidDb(db) && KvOf(p).value.Keys <= db.strings.Keys
    && forall i :: 0 <= i < |SETS| ==>
         db.Members(NewKey(inst, SETS[i])) == {}
         && db.Members(SetKey(inst, SETS[i])) <= Names(p, SETS[i]) + Names(c, SETS[i])
  }

  lemma Reverts(inst: Inst, db: Db, p: Configuration, c: Configuration, ch: Choice, done: nat, db': Db)
    requires WfConf(p) && ValidDb(db) && LeftoverOf(inst, db, c) && StoreStep(inst, db, p, ch, done, db', true)
    ensures KvOf(p).Some? && RevertedTo(inst, db', p, c)
  {
    StoreValid(inst, db, p, ch, done, db', true);
    hide WfConf, KvOf, StoreStep, ValidDb, Names, SetKey, NewKey, OwnUpTo, Sentinel;
    StoredSets(inst, db, p, ch, done, db');
    PublishFull(inst, db, p, ch, done, db');
  }

  /** Every name that a store of `c` drops published something, and is none of the names of `c` up to "@docker". */
  ghost predicate Fits(last: Option<Configuration>, c: Configuration)
    requires Rendered(last)
  {
    DroppedEmit(last, c) && DroppedApart(last, c)
  }

  lemma RevertedDropped(inst: Inst, db: Db, p: Configuration, c: Configuration, i: nat)
    requires WfConf(p) && KvOf(p).Some? && RevertedTo(inst, db, p, c) && i < |SETS|
    ensures Dropped(inst, db, c, SETS[i]) <= Names(p, SETS[i]) - Names(c, SETS[i])
    ensures db.Members(NewKey(inst, SETS[i])) <= Names(c, SETS[i])
  {
    hide WfConf, KvOf, ValidDb, Names, SetKey, NewKey;
  }

  lemma RevertedReady(inst: Inst, db: Db, p: Configuration, c: Configuration)
    requires WfConf(p) && KvOf(p).Some? && RevertedTo(inst, db, p, c) && Fits(Some(p), c)
    ensures Ready(inst, db, c)
  {
    hide WfConf, KvOf, ValidDb, Names, SetKey, NewKey, Dropped, DroppedEmit, DroppedApart;
    forall i | 0 <= i < |SETS|
      ensures Dropped(inst, db, c, SETS[i]) <= LastNames(Some(p), SETS[i]) - Names(c, SETS[i])
      ensures db.Members(NewKey(inst, SETS[i])) <= Names(c, SETS[i])
    {
      RevertedDropped(inst, db, p, c, i);
    }
    EmittingDropsEven(inst, db, Some(p), c);
    DropsApart(inst, db, Some(p), c);
  }

  lemma RetriableReady(inst: Inst, db: Db, c: Configuration)
    requires Retriable(inst, db, c)
    ensures Ready(inst, db, c)
  {
    hide Retriable, DropsEven, LeftoverOf, Apart, ValidDb;
    RetriableHas(inst, db, c);
  }

  // ---------- the attempts ----------

  datatype Attempt = Try(ch: Choice, done: nat) | Kept(k: Keep, ok: bool) | Meanwhile

  predicate Restores(e: Attempt)
  {
    e.Kept? && e.k.Restore?
  }

  /** Something has been re-published since the last attempt. */
  function Restored(steps: seq<Attempt>, n: nat): bool
    requires n <= |steps|
  {
    n > 0 && (Restores(steps[n - 1]) || (!steps[n - 1].Try? && Restored(steps, n - 1)))
  }

  /** A failing attempt to store `c`; a KeepConfAlive of the process, whose last configuration is `last`, that does
      not fail half-way through a re-publication; or time passing and keys lost, but none of `last` while it is
      re-published. */
  ghost predicate AttemptStep(inst: Inst, last: Option<Configuration>, c: Configuration, a: Db, e: Attempt,
                              restored: bool, b: Db)
    requires WfConf(c) && Rendered(last)
  {
    match e
    case Try(ch, done) => StoreStep(inst, a, c, ch, done, b, false)
    case Kept(k, ok) => KeepStep(inst, a, last, k, b, ok) && (k.Restore? ==> ok)
    case Meanwhile =>
      Fewer(a, b) && (restored && last.Some? ==> a.strings.Keys * KvOf(last.value).value.Keys <= b.strings.Keys)
  }

  ghost predicate Attempts(inst: Inst, last: Option<Configuration>, c: Configuration, dbs: seq<Db>, steps: seq<Attempt>)
    requires WfConf(c) && Rendered(last)
  {
    && |dbs| == |steps| + 1
    && forall i :: 0 <= i < |steps| ==> AttemptStep(inst, last, c, dbs[i], steps[i], Restored(steps, i), dbs[i + 1])
  }

  /** What holds between two attempts. */
  ghost predicate Standing(inst: Inst, db: Db, last: Option<Configuration>, c: Configuration, restored: bool)
    requires Rendered(last)
  {
    if restored then last.Some? && RevertedTo(inst, db, last.value, c) else Retriable(inst, db, c)
  }

  lemma StandingReady(inst: Inst, db: Db, last: Option<Configuration>, c: Configuration, restored: bool)
    requires Rendered(last) && Standing(inst, db, last, c, restored) && (restored ==> Fits(last, c))
    ensures Ready(inst, db, c)
  {
    hide RevertedTo, Retriable, Fits, WfConf, KvOf, Ready;
    if restored {
      RevertedReady(inst, db, last.value, c);
    } else {
      RetriableReady(inst, db, c);
    }
  }

  lemma SameReverted(inst: Inst, a: Db, b: Db, p: Configuration, c: Configuration)
    requires WfConf(p) && KvOf(p).Some? && RevertedTo(inst, a, p, c) && a.sets == b.sets
    requires KvOf(p).value.Keys <= b.strings.Keys
    ensures RevertedTo(inst, b, p, c)
  {
    hide WfConf, KvOf, Names, SetKey, NewKey;
  }

  lemma StandingLeftover(inst: Inst, db: Db, last: Option<Configuration>, c: Configuration, restored: bool)
    requires Rendered(last) && Standing(inst, db, last, c, restored)
    ensures ValidDb(db) && LeftoverOf(inst, db, c)
  {
    hide WfConf, KvOf, Names, SetKey, NewKey, ValidDb, DropsDead, Apart;
  }

  lemma StandingQuiet(inst: Inst, a: Db, b: Db, last: Option<Configuration>, c: Configuration, restored: bool)
    requires Rendered(last) && Standing(inst, a, last, c, restored) && Fewer(a, b)
    requires restored && last.Some? ==> a.strings.Keys * KvOf(last.value).value.Keys <= b.strings.Keys
    ensures Standing(inst, b, last, c, restored)
  {
    hide WfConf, KvOf, Retriable;
    if restored {
      RevertedKeys(inst, a, last.value, c);
      SameReverted(inst, a, b, last.value, c);
    } else {
      FewerRetriable(inst, a, b, c);
    }
  }

  lemma RevertedKeys(inst: Inst, db: Db, p: Configuration, c: Configuration)
    requires WfConf(p) && KvOf(p).Some? && RevertedTo(inst, db, p, c)
    ensures KvOf(p).value.Keys <= db.strings.Keys
  {
  }

  /** A KeepConfAlive re-publishes completely or changes no key and no set. */
  lemma KeepStanding(inst: Inst, a: Db, last: Option<Configuration>, c: Configuration, restored: bool, k: Keep, b: Db,
                     ok: bool)
    requires Rendered(last) && Standing(inst, a, last, c, restored) && KeepStep(inst, a, last, k, b, ok)
    requires k.Restore? ==> ok
    ensures Standing(inst, b, last, c, restored || k.Restore?)
  {
    hide WfConf, KvOf, StoreStep, Standing, Sentinel, Wanted, LeftoverOf, RevertedTo;
    StandingLeftover(inst, a, last, c, restored);
    if last.Some? && k.Restore? {
      var db1 := if k.renewed then Renewed(a, Wanted(inst, last.value), inst.ttl) else a;
      SameSetsValid(a, db1);
      SameLeftover(inst, a, db1, c);
      Reverts(inst, db1, last.value, c, k.ch, k.done, b);
      IsReverted(inst, b, last, c);
    } else {
      assert Fewer(a, b);
      StandingQuiet(inst, a, b, last, c, restored);
    }
  }

  lemma IsReverted(inst: Inst, db: Db, last: Option<Configuration>, c: Configuration)
    requires Rendered(last) && last.Some? && RevertedTo(inst, db, last.value, c)
    ensures Standing(inst, db, last, c, true)
  {
  }

  lemma SameLeftover(inst: Inst, a: Db, b: Db, c: Configuration)
    requires LeftoverOf(inst, a, c) && a.sets == b.sets
    ensures LeftoverOf(inst, b, c)
  {
    hide NewKey, Names;
  }

  lemma TryStanding(inst: Inst, a: Db, last: Option<Configuration>, c: Configuration, ch: Choice, done: nat, b: Db)
    requires WfConf(c) && Rendered(last) && Ready(inst, a, c) && StoreStep(inst, a, c, ch, done, b, false)
    ensures Standing(inst, b, last, c, false)
  {
    hide WfConf, KvOf, StoreStep, DropsEven, LeftoverOf, Apart, ValidDb, Retriable;
    FailureIsRetriable(inst, a, c, ch, done, b);
  }

  /** After a failed store, over any number of further failures, with time passing, keys lost and KeepConfAlive calls in
      between, every attempt to store the same configuration is covered, unless a re-publication of the older
      configuration failed in between. Where one succeeded, the names to drop must each publish something. */
  lemma {:induction false} RetriesCovered(inst: Inst, last: Option<Configuration>, c: Configuration, dbs: seq<Db>,
                                          steps: seq<Attempt>, i: nat)
    requires WfConf(c) && Rendered(last) && Attempts(inst, last, c, dbs, steps) && Retriable(inst, dbs[0], c)
    requires i < |dbs|
    requires (exists j :: 0 <= j < |steps| && Restores(steps[j])) ==> Fits(last, c)
    ensures Standing(inst, dbs[i], last, c, Restored(steps, i)) && Ready(inst, dbs[i], c)
  {
    hide WfConf, KvOf, Rendered, Standing, Ready, Fits, AttemptStep;
    if i == 0 {
      NotRestored(inst, dbs[0], last, c);
    } else {
      RetriesCovered(inst, last, c, dbs, steps, i - 1);
      NextAttempt(inst, last, c, dbs[i - 1], steps[i - 1], Restored(steps, i - 1), dbs[i]);
    }
    if Restored(steps, i) { RestoredSome(steps, i); }
    StandingReady(inst, dbs[i], last, c, Restored(steps, i));
  }

  lemma NotRestored(inst: Inst, db: Db, last: Option<Configuration>, c: Configuration)
    requires Rendered(last) && Retriable(inst, db, c)
    ensures Standing(inst, db, last, c, false)
  {
  }

  lemma {:induction false} RestoredSome(steps: seq<Attempt>, n: nat)
    requires n <= |steps| && Restored(steps, n)
    ensures exists j :: 0 <= j < |steps| && Restores(steps[j])
  {
    if !Restores(steps[n - 1]) {
      RestoredSome(steps, n - 1);
    }
  }

  lemma NextAttempt(inst: Inst, last: Option<Configuration>, c: Configuration, a: Db, e: Attempt, restored: bool, b: Db)
    requires WfConf(c) && Rendered(last) && Ready(inst, a, c) && Standing(inst, a, last, c, restored)
    requires AttemptStep(inst, last, c, a, e, restored, b)
    ensures Standing(inst, b, last, c, Restores(e) || (!e.Try? && restored))
  {
    hide WfConf, KvOf, Standing, Ready, StoreStep, KeepStep, Fewer;
    match e
    case Try(ch, done) => TryStanding(inst, a, last, c, ch, done, b);
    case Kept(k, ok) => KeepStanding(inst, a, last, c, restored, k, b, ok);
    case Meanwhile => StandingQuiet(inst, a, b, last, c, restored);
  }

  /** And the attempt that succeeds is the closed-form update. */
  lemma RetrySucceeds(inst: Inst, db: Db, c: Configuration, ch: Choice, done: nat, db': Db)
    requires WfConf(c) && Ready(inst, db, c) && StoreStep(inst, db, c, ch, done, db', true)
    ensures KvOf(c).Some? && db'.strings == FinalStrings(inst, db, c, KvOf(c).value, ch.stamp)
    ensures FinalSets(inst, db, c, db')
    ensures Tidy(inst, db', Some(c))
  {
    hide WfConf, KvOf, StoreStep, DropsEven, LeftoverOf, Apart, FinalStrings, FinalSets, ValidDb, Tidy;
    StoreCloses(inst, db, c, ch, done, db');
    LeftoverTidy(inst, db, c, db');
  }

  lemma LeftoverTidy(inst: Inst, db: Db, c: Configuration, db': Db)
    requires LeftoverOf(inst, db, c) && FinalSets(inst, db, c, db')
    ensures Tidy(inst, db', Some(c))
  {
    hide SetKey, NewKey, Names, OwnUpTo;
  }
}
