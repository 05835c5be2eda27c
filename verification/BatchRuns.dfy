/** The guarantees of the batch protocol, over every run: every interleaving of dispatch, handlers,
  * cancellations and manual retries at single Redis commands.
  */
module BatchRuns {
  import opened Lists
  import opened BatchModel
  import opened BatchLedger
  import opened BatchHooks
  import opened BatchLives
  import opened BatchFailures
  import opened Rounding

  predicate Inv(o: BatchOptions, s: State) {
    && |s.lanes| == |o.entries|
    && Shaped(s) && Ledger(s) && HooksSafe(o, s) && LivesOk(s) && ListInv(s)
    && (s.retries == 0 ==> s.reopened == 0)
    && s.store.pending <= Total(o.entries)
    && (Total(o.entries) > 0 ==> FinallyPromised(s) && FinishedPromised(s))
  }

  lemma {:induction false} InitSums(entries: seq<seq<JobSpec>>, lanes: seq<Lane>)
    requires |lanes| == |entries|
    requires forall k :: 0 <= k < |lanes| ==> lanes[k] == Lane(entries[k], [], Held, 0, 0, 0)
    ensures Sum(Owed, lanes) == Total(entries)
    ensures Sum(FailedIn, lanes) == 0
    ensures Sum(CatchToken, lanes) == 0 && Sum(ThenToken, lanes) == 0 && Sum(FinallyToken, lanes) == 0
  {
    if lanes != [] {
      InitSums(entries[1..], lanes[1..]);
    }
  }

  /** A batch as dispatch creates it, before anything is queued. */
  predicate Unqueued(o: BatchOptions, s: State) {
    && s.store == Store(Total(o.entries), 0, 0, false, false, false, false, [], 0, 0, 0)
    && |s.lanes| == |o.entries|
    && (forall k :: 0 <= k < |s.lanes| ==> s.lanes[k] == Lane(o.entries[k], [], Held, 0, 0, 0))
    && s.next == 0 && s.retries == 0 && s.reopened == 0 && s.log == []
  }

  lemma UnqueuedShaped(o: BatchOptions, s: State)
    requires Unqueued(o, s)
    ensures Shaped(s) && LivesOk(s)
  {
  }

  lemma UnqueuedLedger(o: BatchOptions, s: State)
    requires Unqueued(o, s)
    ensures Ledger(s)
  {
    InitSums(o.entries, s.lanes);
  }

  lemma UnqueuedHooks(o: BatchOptions, s: State)
    requires Unqueued(o, s)
    ensures HooksSafe(o, s)
    ensures Total(o.entries) > 0 ==> FinallyPromised(s) && FinishedPromised(s)
  {
    InitSums(o.entries, s.lanes);
  }

  lemma UnqueuedList(o: BatchOptions, s: State)
    requires Unqueued(o, s)
    ensures ListInv(s)
  {
    assert Listed(s.log) == [];
  }

  lemma InitInv(o: BatchOptions)
    ensures Inv(o, Init(o))
  {
    var s := Init(o);
    assert Unqueued(o, s);
    UnqueuedShaped(o, s);
    UnqueuedLedger(o, s);
    UnqueuedHooks(o, s);
    UnqueuedList(o, s);
  }

  lemma InvStep(o: BatchOptions, s: State, a: Action)
    requires Inv(o, s)
    ensures Inv(o, Apply(o, s, a)) && Grows(s.store, Apply(o, s, a).store)
  {
    ShapedStep(o, s, a);
    LedgerStep(o, s, a);
    HooksSafeStep(o, s, a);
    LivesStep(o, s, a);
    ListInvStep(o, s, a);
    if Total(o.entries) > 0 {
      PromisesStep(o, s, a);
    }
    RetriesStep(o, s, a);
  }

  lemma RetriesStep(o: BatchOptions, s: State, a: Action)
    ensures !a.Retry? ==> Apply(o, s, a).retries == s.retries && Apply(o, s, a).reopened == s.reopened
    ensures Apply(o, s, a).retries == 0 ==> s.retries == 0 && Apply(o, s, a).reopened == s.reopened
  {
  }

  /** Every reachable state keeps the invariant. */
  lemma {:induction false} Invariant(o: BatchOptions, run: seq<Action>)
    ensures Inv(o, Exec(o, run))
  {
    if run == [] {
      InitInv(o);
    } else {
      Invariant(o, run[..|run| - 1]);
      InvStep(o, Exec(o, run[..|run| - 1]), run[|run| - 1]);
    }
  }

  lemma ExecNext(o: BatchOptions, run: seq<Action>, a: Action)
    ensures Exec(o, run + [a]) == Apply(o, Exec(o, run), a)
  {
    assert (run + [a])[..|run + [a]| - 1] == run;
  }

  /** The state after more actions. */
  function Continue(o: BatchOptions, s: State, more: seq<Action>): State
    decreases |more|
  {
    if more == [] then s else Continue(o, Apply(o, s, more[0]), more[1..])
  }

  lemma {:induction false} ExecContinues(o: BatchOptions, run: seq<Action>, more: seq<Action>)
    ensures Exec(o, run + more) == Continue(o, Exec(o, run), more)
    decreases |more|
  {
    if more == [] {
      assert run + more == run;
    } else {
      assert run + more == run + [more[0]] + more[1..];
      ExecNext(o, run, more[0]);
      ExecContinues(o, run + [more[0]], more[1..]);
    }
  }

  lemma {:induction false} RetryFreeRun(o: BatchOptions, run: seq<Action>)
    requires RetryFree(run)
    ensures Exec(o, run).retries == 0 && Exec(o, run).reopened == 0
  {
    if run != [] {
      assert forall k :: 0 <= k < |run| - 1 ==> run[..|run| - 1][k] == run[k];
      RetryFreeRun(o, run[..|run| - 1]);
      RetriesStep(o, Exec(o, run[..|run| - 1]), run[|run| - 1]);
    }
  }

  lemma {:induction false} SumSplit(lanes: seq<Lane>)
    ensures Sum(Owed, lanes) == Sum(Unsettled, lanes) + Sum(FailedIn, lanes)
  {
    if lanes != [] {
      SumSplit(lanes[1..]);
    }
  }

  // ----- What the counters mean -----

  /** Conservation, exactly: `pendingJobs - failedJobs` counts the unsettled jobs of the batch,
    * unstarted links included, in every state in which no manual retry has taken effect, and in no
    * other. Each retry takes it one too low, and one more for each link it reopens.
    */
  lemma Conservation(o: BatchOptions, run: seq<Action>)
    ensures var s := Exec(o, run);
            && s.store.pending - s.store.failed == Sum(Unsettled, s.lanes) - s.retries - s.reopened
            && (s.store.pending - s.store.failed == Sum(Unsettled, s.lanes) <==> s.retries == 0)
            && (RetryFree(run) ==> s.retries == 0 && s.store.pending >= 0)
  {
    Invariant(o, run);
    SumSplit(Exec(o, run).lanes);
    if RetryFree(run) {
      RetryFreeRun(o, run);
    }
  }

  /** `pendingJobs` alone: what every lane still owes, less the links that retries reopened. */
  lemma PendingMeans(o: BatchOptions, run: seq<Action>)
    ensures var s := Exec(o, run);
            && s.store.pending == Sum(Owed, s.lanes) - s.reopened
            && s.store.failed == Sum(FailedIn, s.lanes) + s.retries
  {
    Invariant(o, run);
  }

  // ----- Chain-free batches under any retries -----

  /** A job of a chain-free batch that has succeeded or been skipped. */
  function Concluded(l: Lane): nat {
    if l.todo == [] then 0
    else if l.phase == Completed then 1
    else if l.phase.Active? && StageOf(l.phase.pc) in {Landed(Succeeded), Landed(Skipped)} then 1
    else 0
  }

  function Size(l: Lane): nat { |l.todo| + |l.past| }

  predicate Single(l: Lane) { Size(l) <= 1 && l.past == [] }

  lemma {:induction false} ConcludedSum(lanes: seq<Lane>)
    requires forall k :: 0 <= k < |lanes| ==> Single(lanes[k]) && Shape(lanes[k])
    ensures Sum(Owed, lanes) + Sum(Concluded, lanes) == Sum(Size, lanes)
  {
    if lanes != [] {
      assert Single(lanes[0]) && Shape(lanes[0]);
      ConcludedSum(lanes[1..]);
    }
  }

  lemma {:induction false} SizeInit(entries: seq<seq<JobSpec>>, lanes: seq<Lane>)
    requires |lanes| == |entries| && forall k :: 0 <= k < |lanes| ==> Size(lanes[k]) == |entries[k]|
    ensures Sum(Size, lanes) == Total(entries)
  {
    if lanes != [] {
      SizeInit(entries[1..], lanes[1..]);
    }
  }

  predicate SizesKept(o: BatchOptions, s: State) {
    |s.lanes| == |o.entries| && forall k :: 0 <= k < |s.lanes| ==> Size(s.lanes[k]) == |o.entries[k]|
  }

  lemma SizesStep(o: BatchOptions, s: State, a: Action)
    requires SizesKept(o, s)
    ensures SizesKept(o, Apply(o, s, a))
  {
  }

  lemma {:induction false} ChainFreeRun(o: BatchOptions, run: seq<Action>)
    requires ChainFree(o)
    ensures SizesKept(o, Exec(o, run)) && Exec(o, run).reopened == 0
    ensures forall k :: 0 <= k < |Exec(o, run).lanes| ==> Single(Exec(o, run).lanes[k])
  {
    if run != [] {
      var s := Exec(o, run[..|run| - 1]);
      ChainFreeRun(o, run[..|run| - 1]);
      SizesStep(o, s, run[|run| - 1]);
      ChainFreeStep(o, s, run[|run| - 1]);
    }
  }

  lemma ChainFreeStep(o: BatchOptions, s: State, a: Action)
    requires forall k :: 0 <= k < |s.lanes| ==> Single(s.lanes[k])
    ensures Apply(o, s, a).reopened == s.reopened
    ensures forall k :: 0 <= k < |Apply(o, s, a).lanes| ==> Single(Apply(o, s, a).lanes[k])
  {
  }

  /** Without chains `pendingJobs` is the total less the jobs that succeeded or were skipped, however
    * often failed jobs are retried; so it never goes below zero.
    */
  lemma ChainFreePending(o: BatchOptions, run: seq<Action>)
    requires ChainFree(o)
    ensures var s := Exec(o, run);
            0 <= s.store.pending == Total(o.entries) - Sum(Concluded, s.lanes)
  {
    var s := Exec(o, run);
    Invariant(o, run);
    ChainFreeRun(o, run);
    SizeInit(o.entries, s.lanes);
    ConcludedSum(s.lanes);
  }

  // ----- Quiet states -----

  lemma QuietSums(o: BatchOptions, s: State)
    requires Inv(o, s) && Quiescent(s)
    ensures Sum(Unsettled, s.lanes) == 0
    ensures s.store.catchRuns == Once(s.store.failed > 0)
    ensures s.store.thenRuns == Once(s.store.finishedGuard)
    ensures s.store.finallyRuns == Once(s.store.finallyGuard)
    ensures Total(o.entries) > 0 ==> (s.store.finishedGuard <==> s.store.pending <= 0)
    ensures Total(o.entries) > 0 ==> (s.store.finallyGuard <==> s.store.pending - s.store.failed <= 0)
  {
    forall k | 0 <= k < |s.lanes|
      ensures Unsettled(s.lanes[k]) == 0 && CatchToken(s.lanes[k]) == 0
      ensures ThenToken(s.lanes[k]) == 0 && FinallyToken(s.lanes[k]) == 0
    {
      assert Ended(s.lanes[k]);
    }
    SumZero(Unsettled, s.lanes);
    SumZero(CatchToken, s.lanes);
    SumZero(ThenToken, s.lanes);
    SumZero(FinallyToken, s.lanes);
  }

  // ----- finally -----

  /** `finally` runs at most once in every run, and once it has run at most as many jobs are unsettled
    * as manual retries took out of the count. So without a manual retry it is never early.
    */
  lemma FinallyNeverEarly(o: BatchOptions, run: seq<Action>)
    ensures var s := Exec(o, run);
            && s.store.finallyRuns <= 1
            && (s.store.finallyRuns == 1 || s.store.finallyGuard ==> Sum(Unsettled, s.lanes) <= s.retries + s.reopened)
            && (RetryFree(run) && s.store.finallyGuard ==>
                  forall k :: 0 <= k < |s.lanes| ==> Unsettled(s.lanes[k]) == 0)
  {
    var s := Exec(o, run);
    Invariant(o, run);
    SumSplit(s.lanes);
    if RetryFree(run) {
      RetryFreeRun(o, run);
      SumZero(Unsettled, s.lanes);
    }
  }

  /** When every handler is done `finally` has run exactly once, manual retries or not. */
  lemma FinallyExactlyOnce(o: BatchOptions, run: seq<Action>)
    requires Total(o.entries) > 0 && Quiescent(Exec(o, run))
    ensures Exec(o, run).store.finallyRuns == 1
    ensures Enqueued(o, Exec(o, run), Finally) == if Finally in o.hooks then 1 else 0
  {
    Invariant(o, run);
    SumSplit(Exec(o, run).lanes);
    QuietSums(o, Exec(o, run));
  }

  // ----- then -----

  /** `then` runs at most once in every run, and only after `pendingJobs` reached zero. As long as no retry
    * has reopened a chain it is claimed only when every job has succeeded or been skipped; without a manual
    * retry only when no job failed.
    */
  lemma ThenOnlyWhenDone(o: BatchOptions, run: seq<Action>)
    ensures var s := Exec(o, run);
            && s.store.thenRuns <= 1
            && (s.store.thenRuns == 1 || s.store.finishedGuard
                ==> s.store.pending <= 0 && Sum(Owed, s.lanes) <= s.reopened)
            && (s.store.finishedGuard && s.reopened == 0 ==> forall k :: 0 <= k < |s.lanes| ==> Owed(s.lanes[k]) == 0)
            && (RetryFree(run) && s.store.finishedGuard ==> s.store.pending == 0 && s.store.failed == 0)
  {
    var s := Exec(o, run);
    Invariant(o, run);
    SumZero(Owed, s.lanes);
    if RetryFree(run) {
      Conservation(o, run);
      RetryFreeRun(o, run);
      SumSplit(s.lanes);
    }
  }

  /** When every handler is done `then` has run exactly once if `pendingJobs` got to zero and not at all
    * otherwise. Without a manual retry that is: if and only if nothing failed.
    */
  lemma ThenExactlyOnce(o: BatchOptions, run: seq<Action>)
    requires Total(o.entries) > 0 && Quiescent(Exec(o, run))
    ensures var s := Exec(o, run);
            && s.store.thenRuns == Once(s.store.pending <= 0)
            && (RetryFree(run) ==> s.store.thenRuns == Once(s.store.failed == 0))
            && (s.store.pending <= 0 ==> s.store.finished)
  {
    var s := Exec(o, run);
    Invariant(o, run);
    QuietSums(o, s);
    FinishedFlag(o, run);
    if RetryFree(run) {
      Conservation(o, run);
    }
  }

  /** The flag in the hash trails its guard only while one handler is about to write it. */
  predicate FlagFollows(s: State) {
    s.store.finishedGuard && !s.store.finished ==>
      exists k :: 0 <= k < |s.lanes| && s.lanes[k].phase.Active? && s.lanes[k].phase.pc.WriteFinished?
  }

  lemma FlagCommand(allow: bool, r: Store, pc: Pc, job: JobKey, links: nat)
    requires !pc.Processing? && !pc.Leave?
    requires r.finishedGuard && !r.finished ==> pc.WriteFinished?
    ensures var t := Command(allow, r, pc, job, links);
            t.store.finishedGuard && !t.store.finished ==> t.pc.WriteFinished?
  {
  }

  lemma FlagStep(o: BatchOptions, s: State, a: Action)
    requires FlagFollows(s) && Shaped(s) && HooksSafe(o, s)
    ensures FlagFollows(Apply(o, s, a))
  {
    var s' := Apply(o, s, a);
    HooksSafeStep(o, s, a);
    if Enabled(s, a) && s'.store.finishedGuard && !s'.store.finished {
      var moved := match a case Enqueue => s.next case CancelBatch => |s.lanes| case _ => a.lane;
      if s.store.finishedGuard && !s.store.finished {
        var k :| 0 <= k < |s.lanes| && s.lanes[k].phase.Active? && s.lanes[k].phase.pc.WriteFinished?;
        if k == moved {
          FlagCommand(o.allowFailures, s.store, s.lanes[k].phase.pc, JobKey(k, |s.lanes[k].past|), |s.lanes[k].todo|);
          assert s'.lanes[k].phase.pc.WriteFinished?;
        } else {
          assert s'.lanes[k] == s.lanes[k];
        }
      } else {
        FlagCommand(o.allowFailures, s.store, s.lanes[moved].phase.pc, JobKey(moved, |s.lanes[moved].past|),
                    |s.lanes[moved].todo|);
        assert s'.lanes[moved].phase.pc.WriteFinished?;
      }
    }
  }

  lemma {:induction false} FinishedFlag(o: BatchOptions, run: seq<Action>)
    ensures FlagFollows(Exec(o, run))
  {
    if run != [] {
      FinishedFlag(o, run[..|run| - 1]);
      Invariant(o, run[..|run| - 1]);
      FlagStep(o, Exec(o, run[..|run| - 1]), run[|run| - 1]);
    }
  }

  /** A chain-free batch drains to finished exactly when no job is left failed, retries included. */
  lemma ChainFreeDrains(o: BatchOptions, run: seq<Action>)
    requires ChainFree(o) && Total(o.entries) > 0 && Quiescent(Exec(o, run))
    ensures var s := Exec(o, run);
            s.store.finishedGuard <==> forall k :: 0 <= k < |s.lanes| ==> s.lanes[k].phase == Completed
  {
    var s := Exec(o, run);
    Invariant(o, run);
    QuietSums(o, s);
    ChainFreeRun(o, run);
    SumZero(Owed, s.lanes);
    assert forall k :: 0 <= k < |s.lanes| ==> Ended(s.lanes[k]);
    assert forall k :: 0 <= k < |s.lanes| ==> (Owed(s.lanes[k]) == 0 <==> s.lanes[k].phase == Completed);
  }

  // ----- catch -----

  /** In every run exactly one failure is the first: `catch` runs at most once, runs by the time the
    * handlers are done if and only if a failure was recorded, and finds the batch cancelled unless
    * failures are allowed.
    */
  lemma CatchExactlyOnce(o: BatchOptions, run: seq<Action>)
    ensures var s := Exec(o, run);
            && s.store.catchRuns <= Once(s.store.failed > 0)
            && (s.store.catchRuns == 1 && !o.allowFailures ==> s.store.cancelled && s.store.finished)
            && (Quiescent(s) ==> s.store.catchRuns == Once(s.store.failed > 0))
  {
    Invariant(o, run);
    if Quiescent(Exec(o, run)) {
      QuietSums(o, Exec(o, run));
    }
  }

  // ----- progress -----

  /** What `find` reports. `Math.round` rounds half up; the quotient is taken exactly. */
  function Progress(total: nat, pending: int): nat {
    if total == 0 then 0 else
    var processed := total - (if pending < 0 then 0 else pending);
    if processed < 0 then 0 else RoundedQuotient(100 * processed, total)
  }

  /** The percentage is the one nearest to the share processed. */
  lemma ProgressIsNearest(total: nat, pending: int)
    requires total > 0 && pending <= total
    ensures Nearest(Progress(total, pending), 100 * (total - if pending < 0 then 0 else pending), total)
  {
    RoundedIsNearest(100 * (total - if pending < 0 then 0 else pending), total);
  }

  lemma ProgressMonotone(total: nat, p: int, q: int)
    requires q <= p <= total
    ensures Progress(total, p) <= Progress(total, q) <= 100
    ensures total > 0 ==> (Progress(total, q) == 100 <==> 200 * q <= total)
  {
    if total > 0 {
      var a := total - (if p < 0 then 0 else p);
      var b := total - (if q < 0 then 0 else q);
      DivMonotone(200 * a + total, 200 * b + total, 2 * total);
      DivMonotone(200 * b + total, 201 * total, 2 * total);
      DivIs(201 * total, 2 * total, 100, total);
      if 200 * q <= total {
        DivMonotone(200 * total, 200 * b + total, 2 * total);
        DivIs(200 * total, 2 * total, 100, 0);
      } else {
        DivMonotone(200 * b + total, 200 * total - 1, 2 * total);
        DivIs(200 * total - 1, 2 * total, 99, 2 * total - 1);
      }
    }
  }

  /** Progress stays within 0 to 100 and never falls as a run goes on, although `pendingJobs` may go
    * below zero. It reads 100 early: once at most one job in two hundred is pending.
    */
  lemma ProgressNeverFalls(o: BatchOptions, run: seq<Action>, more: seq<Action>)
    ensures var s, s' := Exec(o, run), Exec(o, run + more);
            var total := Total(o.entries);
            && Progress(total, s.store.pending) <= Progress(total, s'.store.pending) <= 100
            && (total > 0 ==> (Progress(total, s'.store.pending) == 100 <==> 200 * s'.store.pending <= total))
  {
    Invariant(o, run);
    StoreGrows(o, run, more);
    ProgressMonotone(Total(o.entries), Exec(o, run).store.pending, Exec(o, run + more).store.pending);
  }

  lemma {:induction false} GrowsOn(o: BatchOptions, s: State, more: seq<Action>)
    requires Inv(o, s)
    ensures Inv(o, Continue(o, s, more)) && Grows(s.store, Continue(o, s, more).store)
    decreases |more|
  {
    if more != [] {
      InvStep(o, s, more[0]);
      GrowsOn(o, Apply(o, s, more[0]), more[1..]);
    }
  }

  /** Over any stretch of any run the counters only move one way and no flag or guard is taken back. */
  lemma StoreGrows(o: BatchOptions, run: seq<Action>, more: seq<Action>)
    ensures Grows(Exec(o, run).store, Exec(o, run + more).store)
  {
    Invariant(o, run);
    GrowsOn(o, Exec(o, run), more);
    ExecContinues(o, run, more);
  }

  // ----- The life of a job -----

  /** In every run each life of a job, from being queued or retried to its outcome, makes exactly one
    * settling call and is picked up at most once an attempt and once a release. Without a manual
    * retry a job has one life, so this is its whole life.
    */
  lemma SettledOnce(o: BatchOptions, run: seq<Action>, k: nat)
    requires k < |Exec(o, run).lanes|
    ensures SettlesOnce(Exec(o, run).lanes[k])
  {
    LivesHold(o, run);
    LifeSettles(Exec(o, run).lanes[k]);
  }

  lemma LivesHold(o: BatchOptions, run: seq<Action>)
    ensures LivesOk(Exec(o, run))
  {
    Invariant(o, run);
  }

  predicate SettlesOnce(l: Lane) {
    && (forall i :: 0 <= i < |l.past| ==> l.past[i].1.settles == 1 && l.past[i].1.started <= PickLimit(l.past[i].0))
    && l.settles <= 1
    && (|l.todo| > 0 ==> l.started <= PickLimit(l.todo[0]))
    && (|l.todo| > 0 && Ended(l) ==> l.settles == 1)
    && (l.phase.Held? || l.phase.Waiting? ==> l.settles == 0)
  }

  lemma LifeSettles(l: Lane)
    requires LifeOk(l)
    ensures SettlesOnce(l)
  {
    assert forall i :: 0 <= i < |l.past| ==> EndedWell(l.past[i].0, l.past[i].1);
  }

  /** Dispatch and the handlers alone take any state the invariants allow to its end. */
  lemma {:induction false} RunsOut(o: BatchOptions, s: State) returns (more: seq<Action>)
    requires Shaped(s) && LivesOk(s)
    ensures Quiescent(Continue(o, s, more))
    ensures forall a :: a in more ==> !a.Retry? && !a.CancelBatch?
    decreases Sum(Work, s.lanes), Sum(Refs, s.lanes)
  {
    if Quiescent(s) {
      more := [];
    } else {
      var a := SomethingEnabled(s);
      EveryStepDescends(o, s, a);
      ShapedStep(o, s, a);
      LivesStep(o, s, a);
      var rest := RunsOut(o, Apply(o, s, a));
      more := [a] + rest;
      assert more[1..] == rest;
    }
  }

  /** Every reachable state can be run to the end by dispatch and handlers alone; and since each of
    * their steps lowers a well-founded measure, they always get there.
    */
  lemma RunsToTheEnd(o: BatchOptions, run: seq<Action>) returns (more: seq<Action>)
    ensures Quiescent(Exec(o, run + more))
    ensures forall a :: a in more ==> !a.Retry? && !a.CancelBatch?
  {
    Invariant(o, run);
    more := RunsOut(o, Exec(o, run));
    ExecContinues(o, run, more);
  }

  // ----- The failure list -----

  /** In every run the list has at most one reference a job; and whenever no handler is between
    * removing a reference and landing its record, it is exactly the jobs whose last success or
    * failure record is a failure, newest first. Skipping a job leaves it unchanged.
    */
  lemma FailureListIs(o: BatchOptions, run: seq<Action>)
    ensures var s := Exec(o, run);
            && OncePerJob(s.store.failures)
            && ((forall k :: 0 <= k < |s.lanes| ==> !Moving(s.lanes[k])) ==> s.store.failures == Listed(s.log))
            && (Quiescent(s) ==> s.store.failures == Listed(s.log))
  {
    var s := Exec(o, run);
    Invariant(o, run);
    VisibleOnce(s);
    if forall k :: 0 <= k < |s.lanes| ==> !Moving(s.lanes[k]) {
      KeepAll(Listed(s.log), (ref: FailedJobRef) => Shown(s.lanes, ref));
    }
    if Quiescent(s) {
      assert forall k :: 0 <= k < |s.lanes| ==> Ended(s.lanes[k]);
    }
  }
}
