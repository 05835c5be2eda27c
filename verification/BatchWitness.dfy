/** A manual retry can run `finally` or `then` while a job is unsettled: one run of each kind. */
module BatchWitness {
  import opened Lists
  import opened BatchModel
  import opened BatchLedger

  const PLAIN := JobSpec(1, 0)
  const FIRST := JobKey(0, 0)

  /** Two plain jobs, failures allowed. */
  const TWO_JOBS := BatchOptions([[PLAIN], [PLAIN]], true, {Finally})

  /** A chain of two, failures allowed. */
  const CHAIN := BatchOptions([[PLAIN, PLAIN]], true, {Then})

  /** The first job is in a handler at `pc`; any other entry waits. */
  predicate At(o: BatchOptions, s: State, r: Store, pc: Pc, retries: nat) {
    && s.store == r && s.retries == retries && |s.lanes| == |o.entries| > 0 && |o.entries[0]| > 0
    && s.lanes[0].phase == Active(pc) && s.lanes[0].todo == o.entries[0] && s.lanes[0].past == []
        && s.lanes[0].made == 0
    && o.entries[0][0] == PLAIN
    && forall k :: 0 < k < |s.lanes| ==> s.lanes[k].phase == Waiting && s.lanes[k].todo == o.entries[k]
  }

  lemma Extend(o: BatchOptions, run: seq<Action>, a: Action) returns (longer: seq<Action>)
    ensures longer == run + [a] && Exec(o, longer) == Apply(o, Exec(o, run), a)
  {
    longer := run + [a];
    assert longer[..|longer| - 1] == run;
  }

  /** One command of the first job's handler. */
  lemma Advance(o: BatchOptions, run: seq<Action>, r: Store, pc: Pc, retries: nat, r': Store, pc': Pc)
      returns (longer: seq<Action>)
    requires At(o, Exec(o, run), r, pc, retries) && !pc.Processing? && !pc.Leave?
    requires var t := Command(o.allowFailures, r, pc, FIRST, |o.entries[0]|); t.store == r' && t.pc == pc'
    ensures At(o, Exec(o, longer), r', pc', retries)
  {
    longer := Extend(o, run, Step(0));
  }

  lemma Throw(o: BatchOptions, run: seq<Action>, r: Store, at: nat, retries: nat) returns (longer: seq<Action>)
    requires At(o, Exec(o, run), r, Processing, retries)
    ensures At(o, Exec(o, longer), r, IncrementFailed(at), retries)
  {
    longer := Extend(o, run, Finish(0, Throws(false), at));
  }

  lemma Return(o: BatchOptions, run: seq<Action>, r: Store, retries: nat) returns (longer: seq<Action>)
    requires At(o, Exec(o, run), r, Processing, retries)
    ensures At(o, Exec(o, longer), r, SuccessRefs, retries)
  {
    longer := Extend(o, run, Finish(0, Returns, 0));
  }

  /** A list of one reference: what LRANGE finds of its job, and what is left once it is removed. */
  lemma OnlyRef(once: FailedJobRef)
    requires once.job == FIRST
    ensures RefsOf([once], FIRST) == [once] && Lrem([once], once) == []
  {
    assert [once][1..] == [];
    KeepFirst([once], (ref: FailedJobRef) => ref.job == FIRST);
    KeepFirst([once], OtherThan(once));
    assert !OtherThan(once)(once);
  }

  lemma RetryByHand(o: BatchOptions, run: seq<Action>, r: Store) returns (longer: seq<Action>)
    requires At(o, Exec(o, run), r, Leave(Broken), 0)
    ensures At(o, Exec(o, longer), r, CheckCancelled, 1)
  {
    longer := Extend(o, run, Step(0));
    longer := Extend(o, longer, Retry(0));
    longer := Extend(o, longer, Pick(0));
  }

  /** The first job begins and throws, and the failure is listed. */
  lemma FailOnce(o: BatchOptions, run: seq<Action>, r: Store, once: FailedJobRef) returns (longer: seq<Action>)
    requires o.allowFailures && At(o, Exec(o, run), r, CheckCancelled, 0)
    requires r == Store(2, 0, 0, false, false, false, false, [], 0, 0, 0) && once == FailedJobRef(FIRST, 7)
    ensures At(o, Exec(o, longer), r.(failed := 1, failures := [once]), RunCatch(1), 0)
  {
    var r1 := r.(failed := 1);
    longer := Advance(o, run, r, CheckCancelled, 0, r, Processing);
    longer := Throw(o, longer, r, 7, 0);
    longer := Advance(o, longer, r, IncrementFailed(7), 0, r1, FailureRefs(1, 7));
    longer := Advance(o, longer, r1, FailureRefs(1, 7), 0, r1, PushRef(1, 7));
    longer := Advance(o, longer, r1, PushRef(1, 7), 0, r1.(failures := [once]), RunCatch(1));
  }

  // ----- finally -----

  lemma StartTwo() returns (run: seq<Action>)
    ensures At(TWO_JOBS, Exec(TWO_JOBS, run), Store(2, 0, 0, false, false, false, false, [], 0, 0, 0),
               CheckCancelled, 0)
  {
    var o := TWO_JOBS;
    assert o.entries[1..] == [[PLAIN]] && Total([[PLAIN]]) == 1;
    run := Extend(o, [], Enqueue);
    run := Extend(o, run, Enqueue);
    run := Extend(o, run, Pick(0));
  }

  lemma FailAgain(o: BatchOptions, run: seq<Action>, r: Store, once: FailedJobRef, twice: FailedJobRef)
      returns (longer: seq<Action>)
    requires At(o, Exec(o, run), r, CheckCancelled, 1) && |o.entries[0]| == 1 && once.job == FIRST
            && twice == FailedJobRef(FIRST, 8)
    requires r.failed == 1 && r.failures == [once] && !r.cancelled
    ensures At(o, Exec(o, longer), r.(failed := 2, failures := [twice]), ReadPending(2), 1)
  {
    var r1 := r.(failed := 2);
    longer := Advance(o, run, r, CheckCancelled, 1, r, Processing);
    longer := Throw(o, longer, r, 8, 1);
    longer := Advance(o, longer, r, IncrementFailed(8), 1, r1, FailureRefs(2, 8));
    longer := Relist(o, longer, r1, once, twice);
  }

  lemma Relist(o: BatchOptions, run: seq<Action>, r: Store, once: FailedJobRef, twice: FailedJobRef)
      returns (longer: seq<Action>)
    requires At(o, Exec(o, run), r, FailureRefs(2, 8), 1) && |o.entries[0]| == 1 && once.job == FIRST
            && twice == FailedJobRef(FIRST, 8)
    requires r.failures == [once]
    ensures At(o, Exec(o, longer), r.(failures := [twice]), ReadPending(2), 1)
  {
    var cleared := r.(failures := []);
    OnlyRef(once);
    longer := Advance(o, run, r, FailureRefs(2, 8), 1, r, FailureForget(2, 8, [once]));
    longer := Advance(o, longer, r, FailureForget(2, 8, [once]), 1, cleared, PushRef(2, 8));
    longer := Advance(o, longer, cleared, PushRef(2, 8), 1, r.(failures := [twice]), ReadPending(2));
  }

  lemma SettleEarly(run: seq<Action>, r: Store) returns (longer: seq<Action>)
    requires At(TWO_JOBS, Exec(TWO_JOBS, run), r, ReadPending(2), 1)
    requires r.pending == 2 && !r.finallyGuard && r.finallyRuns == 0
    ensures At(TWO_JOBS, Exec(TWO_JOBS, longer), r.(finallyGuard := true, finallyRuns := 1), Leave(Broken), 1)
  {
    var o := TWO_JOBS;
    var claimed := r.(finallyGuard := true);
    longer := Advance(o, run, r, ReadPending(2), 1, r, ClaimFinally(Broken));
    longer := Advance(o, longer, r, ClaimFinally(Broken), 1, claimed, RunFinally(Broken));
    longer := Advance(o, longer, claimed, RunFinally(Broken), 1, claimed.(finallyRuns := 1), Leave(Broken));
  }

  /** The first job fails, is retried by hand and fails again: two failures against two pending jobs,
    * so `finally` runs although the second job has not even started.
    */
  lemma RetryMakesFinallyEarly() returns (run: seq<Action>)
    ensures var s := Exec(TWO_JOBS, run);
            && s.store.finallyRuns == 1 && s.retries == 1
            && |s.lanes| == 2 && s.lanes[1].phase == Waiting && Unsettled(s.lanes[1]) == 1
  {
    var once := FailedJobRef(FIRST, 7);
    var r0 := Store(2, 0, 0, false, false, false, false, [], 0, 0, 0);
    var r1 := Store(2, 1, 0, false, false, false, false, [once], 0, 0, 0);
    var r2 := r1.(catchRuns := 1);
    run := StartTwo();
    run := FailOnce(TWO_JOBS, run, r0, once);
    run := Advance(TWO_JOBS, run, r1, RunCatch(1), 0, r2, ReadPending(1));
    run := Advance(TWO_JOBS, run, r2, ReadPending(1), 0, r2, Leave(Broken));
    run := RetryByHand(TWO_JOBS, run, r2);
    run := FailAgain(TWO_JOBS, run, r2, once, FailedJobRef(FIRST, 8));
    run := SettleEarly(run, Store(2, 2, 0, false, false, false, false, [FailedJobRef(FIRST, 8)], 0, 1, 0));
  }

  // ----- then -----

  lemma StartChain() returns (run: seq<Action>)
    ensures At(CHAIN, Exec(CHAIN, run), Store(2, 0, 0, false, false, false, false, [], 0, 0, 0), CheckCancelled, 0)
  {
    var o := CHAIN;
    assert o.entries[1..] == [] && Total([]) == 0;
    run := Extend(o, [], Enqueue);
    run := Extend(o, run, Pick(0));
  }

  /** The link behind the failed one is written off, which settles the batch. */
  lemma WriteOff(run: seq<Action>, r: Store) returns (longer: seq<Action>)
    requires At(CHAIN, Exec(CHAIN, run), r, RunCatch(1), 0)
    requires r.pending == 2 && r.failed == 1 && r.catchRuns == 0 && !r.finallyGuard && r.finallyRuns == 0
    ensures At(CHAIN, Exec(CHAIN, longer), r.(catchRuns := 1, pending := 1, finallyGuard := true, finallyRuns := 1),
               Leave(Broken), 0)
  {
    var o := CHAIN;
    var r1 := r.(catchRuns := 1);
    var r2 := r1.(pending := 1);
    var r3 := r2.(finallyGuard := true);
    longer := Advance(o, run, r, RunCatch(1), 0, r1, Decrement(1, Broken));
    longer := Advance(o, longer, r1, Decrement(1, Broken), 0, r2, ReadFailed(1, Broken));
    longer := Advance(o, longer, r2, ReadFailed(1, Broken), 0, r2, ClaimFinally(Broken));
    longer := Advance(o, longer, r2, ClaimFinally(Broken), 0, r3, RunFinally(Broken));
    longer := Advance(o, longer, r3, RunFinally(Broken), 0, r3.(finallyRuns := 1), Leave(Broken));
  }

  lemma SucceedLate(o: BatchOptions, run: seq<Action>, r: Store, once: FailedJobRef) returns (longer: seq<Action>)
    requires At(o, Exec(o, run), r, CheckCancelled, 1)
    requires once.job == FIRST && r.failures == [once] && !r.cancelled
    ensures At(o, Exec(o, longer), r.(failures := []), Decrement(1, Succeeded), 1)
  {
    OnlyRef(once);
    longer := Advance(o, run, r, CheckCancelled, 1, r, Processing);
    longer := Return(o, longer, r, 1);
    longer := Advance(o, longer, r, SuccessRefs, 1, r, SuccessForget([once]));
    longer := Advance(o, longer, r, SuccessForget([once]), 1, r.(failures := []), Decrement(1, Succeeded));
  }

  lemma FinishEarly(run: seq<Action>, r: Store) returns (longer: seq<Action>)
    requires At(CHAIN, Exec(CHAIN, run), r, Decrement(1, Succeeded), 1)
    requires r.pending == 1 && r.failed == 1 && !r.finishedGuard && r.thenRuns == 0
    ensures At(CHAIN, Exec(CHAIN, longer), r.(pending := 0, finishedGuard := true, finished := true, thenRuns := 1),
               ClaimFinally(Succeeded), 1)
  {
    var o := CHAIN;
    var r1 := r.(pending := 0);
    var r2 := r1.(finishedGuard := true);
    var r3 := r2.(finished := true);
    longer := Advance(o, run, r, Decrement(1, Succeeded), 1, r1, ReadFailed(0, Succeeded));
    longer := Advance(o, longer, r1, ReadFailed(0, Succeeded), 1, r1, ClaimFinished(0, 1, Succeeded));
    longer := Advance(o, longer, r1, ClaimFinished(0, 1, Succeeded), 1, r2, WriteFinished(0, 1, Succeeded));
    longer := Advance(o, longer, r2, WriteFinished(0, 1, Succeeded), 1, r3, RunThen(0, 1, Succeeded));
    longer := Advance(o, longer, r3, RunThen(0, 1, Succeeded), 1, r3.(thenRuns := 1), ClaimFinally(Succeeded));
  }

  lemma FailedChain(once: FailedJobRef) returns (run: seq<Action>)
    requires once == FailedJobRef(FIRST, 7)
    ensures At(CHAIN, Exec(CHAIN, run), Store(1, 1, 0, false, false, false, true, [once], 0, 1, 1), CheckCancelled, 1)
  {
    run := StartChain();
    run := FailOnce(CHAIN, run, Store(2, 0, 0, false, false, false, false, [], 0, 0, 0), once);
    run := WriteOff(run, Store(2, 1, 0, false, false, false, false, [once], 0, 0, 0));
    run := RetryByHand(CHAIN, run, Store(1, 1, 0, false, false, false, true, [once], 0, 1, 1));
  }

  /** The first link fails and writes off the second; retried by hand it succeeds, `pendingJobs` is at zero
    * and `then` runs before the second link is even queued.
    */
  lemma RetryMakesThenEarly() returns (run: seq<Action>)
    ensures var s := Exec(CHAIN, run);
            && s.store.thenRuns == 1 && s.retries == 1
            && |s.lanes| == 1 && s.lanes[0].todo == [PLAIN, PLAIN] && Unsettled(s.lanes[0]) == 1
  {
    var once := FailedJobRef(FIRST, 7);
    var r := Store(1, 1, 0, false, false, false, true, [once], 0, 1, 1);
    run := FailedChain(once);
    run := SucceedLate(CHAIN, run, r, once);
    run := FinishEarly(run, r.(failures := []));
  }
}
