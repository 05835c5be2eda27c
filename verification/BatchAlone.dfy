/** The record calls when no other handler interferes: what each one does to the batch as a whole.
  *
  * The methods of `BatchService` are proved against these functions, and the lemmas here prove that a
  * handler of the transition system that runs its commands back to back does the same.
  */
module BatchAlone {
  import opened Lists
  import opened BatchModel
  import opened BatchLedger
  import opened BatchLives
  import opened BatchFailures

  function MarkedFinished(r: Store): Store {
    if r.finishedGuard then r
    else r.(finishedGuard := true, finished := true, thenRuns := r.thenRuns + 1)
  }

  function RanFinally(r: Store): Store {
    if r.finallyGuard then r else r.(finallyGuard := true, finallyRuns := r.finallyRuns + 1)
  }

  function Cancelled(r: Store): Store { r.(cancelled := true, finished := true) }

  /** `recordSuccess` of a call that names no job. */
  function Succeeding(r: Store, amount: nat): Store {
    var counted := r.(pending := r.pending - amount);
    var marked := if counted.pending <= 0 then MarkedFinished(counted) else counted;
    if counted.pending - r.failed <= 0 then RanFinally(marked) else marked
  }

  function SucceedingJob(r: Store, job: JobKey): Store {
    Succeeding(r.(failures := Without(r.failures, job)), 1)
  }

  function Skipping(r: Store, links: nat): Store {
    Succeeding(r.(skipped := r.skipped + links), links)
  }

  /** `recordFailure`: the first failure cancels the rest and runs `catch`. */
  function Failing(allow: bool, r: Store, ref: FailedJobRef, abandoned: nat): Store {
    FailingOn(allow, r.(failed := r.failed + 1, failures := [ref] + Without(r.failures, ref.job)), abandoned)
  }

  /** What the first failure does besides being counted. */
  function FirstFailure(allow: bool, r: Store): Store {
    if r.failed != 1 then r
    else
      var barred := if allow then r else Cancelled(r);
      barred.(catchRuns := barred.catchRuns + 1)
  }

  /** A broken chain writes off its links; otherwise the failure itself may settle the batch. */
  function AfterFailure(r: Store, abandoned: nat): Store {
    if abandoned > 0 then Succeeding(r, abandoned)
    else if r.pending - r.failed <= 0 then RanFinally(r)
    else r
  }

  function FailingOn(allow: bool, r: Store, abandoned: nat): Store {
    AfterFailure(FirstFailure(allow, r), abandoned)
  }

  // ----- What each call does to the counters -----

  lemma SucceedingCounts(r: Store, amount: nat)
    ensures var r' := Succeeding(r, amount);
            r'.pending == r.pending - amount && r'.failed == r.failed && r'.skipped == r.skipped
            && r'.failures == r.failures && r'.cancelled == r.cancelled && r'.catchRuns == r.catchRuns
  {
  }

  lemma FirstFailureCounts(allow: bool, r: Store)
    ensures var r' := FirstFailure(allow, r);
            r'.pending == r.pending && r'.failed == r.failed && r'.skipped == r.skipped && r'.failures == r.failures
            && r'.cancelled == (r.cancelled || (r.failed == 1 && !allow))
  {
  }

  lemma FailingCounts(allow: bool, r: Store, ref: FailedJobRef, abandoned: nat)
    ensures var r' := Failing(allow, r, ref, abandoned);
            r'.pending == r.pending - abandoned && r'.failed == r.failed + 1 && r'.skipped == r.skipped
            && r'.failures == [ref] + Without(r.failures, ref.job)
            && r'.cancelled == (r.cancelled || (r.failed == 0 && !allow))
  {
    var counted := r.(failed := r.failed + 1, failures := [ref] + Without(r.failures, ref.job));
    FirstFailureCounts(allow, counted);
    SucceedingCounts(FirstFailure(allow, counted), abandoned);
  }

  // ----- A handler of the transition system, uninterrupted -----

  function PcRefs(pc: Pc): nat {
    match pc
    case SuccessForget(refs) => |refs|
    case FailureForget(_, _, refs) => |refs|
    case _ => 0
  }

  /** The store once the handler at `pc` has issued all of its commands, with nobody in between. */
  function RunAlone(allow: bool, r: Store, pc: Pc, job: JobKey, links: nat): Store
    decreases PcRank(pc), PcRefs(pc)
  {
    if pc.Leave? || pc.Processing? then r else
    var t := Command(allow, r, pc, job, links);
    CommandRank(allow, r, pc, job, links);
    RunAlone(allow, t.store, t.pc, job, links)
  }

  lemma AloneFinally(allow: bool, r: Store, after: After, job: JobKey, links: nat)
    ensures RunAlone(allow, r, ClaimFinally(after), job, links) == RanFinally(r)
  {
    if !r.finallyGuard {
      var claimed := r.(finallyGuard := true);
      assert RunAlone(allow, claimed, RunFinally(after), job, links) == RanFinally(r);
    }
  }

  lemma AloneAfterFinished(allow: bool, r: Store, pending: int, failed: nat, after: After, job: JobKey, links: nat)
    ensures RunAlone(allow, r, AfterFinished(pending, failed, after), job, links)
            == if pending - failed <= 0 then RanFinally(r) else r
  {
    AloneFinally(allow, r, after, job, links);
  }

  lemma AloneFinished(allow: bool, r: Store, pending: int, failed: nat, after: After, job: JobKey, links: nat)
    ensures RunAlone(allow, r, ClaimFinished(pending, failed, after), job, links)
            == if pending - failed <= 0 then RanFinally(MarkedFinished(r)) else MarkedFinished(r)
  {
    AloneAfterFinished(allow, MarkedFinished(r), pending, failed, after, job, links);
    if !r.finishedGuard {
      var claimed := r.(finishedGuard := true);
      var written := claimed.(finished := true);
      assert RunAlone(allow, claimed, WriteFinished(pending, failed, after), job, links)
             == RunAlone(allow, written, RunThen(pending, failed, after), job, links);
    }
  }

  lemma AloneSucceeding(allow: bool, r: Store, amount: nat, after: After, job: JobKey, links: nat)
    ensures RunAlone(allow, r, Decrement(amount, after), job, links) == Succeeding(r, amount)
  {
    var counted := r.(pending := r.pending - amount);
    var p := counted.pending;
    assert RunAlone(allow, r, Decrement(amount, after), job, links)
           == RunAlone(allow, counted, ReadFailed(p, after), job, links);
    AloneFinished(allow, counted, p, r.failed, after, job, links);
    AloneAfterFinished(allow, counted, p, r.failed, after, job, links);
  }

  lemma AloneSkipping(allow: bool, r: Store, job: JobKey, links: nat)
    ensures RunAlone(allow, r, CountSkipped, job, links) == Skipping(r, links)
  {
    var counted := r.(skipped := r.skipped + links);
    assert RunAlone(allow, r, CountSkipped, job, links)
            == RunAlone(allow, counted, Decrement(links, Skipped), job, links);
    AloneSucceeding(allow, counted, links, Skipped, job, links);
  }

  lemma AloneFirst(allow: bool, r: Store, job: JobKey, links: nat)
    ensures RunAlone(allow, r, AfterPush(allow, r.failed, links), job, links)
            == RunAlone(allow, FirstFailure(allow, r), AfterCatch(r.failed, links), job, links)
  {
    if r.failed == 1 {
      var barred := if allow then r else Cancelled(r);
      assert RunAlone(allow, barred, RunCatch(1), job, links)
             == RunAlone(allow, FirstFailure(allow, r), AfterCatch(1, links), job, links);
    }
  }

  lemma AloneCaught(allow: bool, r: Store, job: JobKey, links: nat)
    requires links > 0
    ensures RunAlone(allow, r, AfterPush(allow, r.failed, links), job, links) == FailingOn(allow, r, links - 1)
  {
    var caught := FirstFailure(allow, r);
    AloneFirst(allow, r, job, links);
    if links > 1 {
      AloneSucceeding(allow, caught, links - 1, Broken, job, links);
    } else {
      AloneAfterFinished(allow, caught, caught.pending, r.failed, Broken, job, links);
    }
  }

  lemma AlonePush(allow: bool, r: Store, at: nat, job: JobKey, links: nat)
    ensures var pushed := r.(failures := [FailedJobRef(job, at)] + r.failures);
            RunAlone(allow, r, PushRef(r.failed, at), job, links)
            == RunAlone(allow, pushed, AfterPush(allow, r.failed, links), job, links)
  {
  }

  lemma AloneCount(allow: bool, r: Store, at: nat, job: JobKey, links: nat)
    ensures var counted := r.(failed := r.failed + 1);
            RunAlone(allow, r, IncrementFailed(at), job, links)
            == RunAlone(allow, counted, AfterFailureRefs(r.failed + 1, at, RefsOf(r.failures, job)), job, links)
  {
    var counted := r.(failed := r.failed + 1);
    assert RunAlone(allow, r, IncrementFailed(at), job, links)
           == RunAlone(allow, counted, FailureRefs(r.failed + 1, at), job, links);
  }

  /** The loop of `forgetFailure` removes every reference of the job, however many there are. */
  lemma {:induction false} ForgetLoop(list: seq<FailedJobRef>, job: JobKey, refs: seq<FailedJobRef>)
    requires forall ref :: ref in list && ref.job == job ==> ref in refs
    requires forall ref :: ref in refs ==> ref.job == job
    ensures refs == [] ==> list == Without(list, job)
    ensures refs != [] ==>
              && Without(Lrem(list, refs[0]), job) == Without(list, job)
              && (forall ref :: ref in Lrem(list, refs[0]) && ref.job == job ==> ref in refs[1..])
  {
    if refs == [] {
      KeepAll(list, (ref: FailedJobRef) => ref.job != job);
    } else {
      var others := OtherThan(refs[0]);
      KeepTwice(list, others, (ref: FailedJobRef) => ref.job != job, (ref: FailedJobRef) => ref.job != job);
      forall ref | ref in Lrem(list, refs[0]) && ref.job == job ensures ref in refs[1..] {
        KeepIn(list, others, ref);
      }
    }
  }

  lemma {:induction false} ForgetThenPush(allow: bool, r: Store, refs: seq<FailedJobRef>, failed: nat, at: nat,
                                          job: JobKey, links: nat)
    requires forall ref :: ref in r.failures && ref.job == job ==> ref in refs
    requires forall ref :: ref in refs ==> ref.job == job
    ensures RunAlone(allow, r, AfterFailureRefs(failed, at, refs), job, links)
            == RunAlone(allow, r.(failures := Without(r.failures, job)), PushRef(failed, at), job, links)
    decreases |refs|
  {
    ForgetLoop(r.failures, job, refs);
    if refs == [] {
      assert r == r.(failures := Without(r.failures, job));
    } else {
      var removed := r.(failures := Lrem(r.failures, refs[0]));
      assert RunAlone(allow, r, AfterFailureRefs(failed, at, refs), job, links)
             == RunAlone(allow, removed, AfterFailureRefs(failed, at, refs[1..]), job, links);
      ForgetThenPush(allow, removed, refs[1..], failed, at, job, links);
    }
  }

  lemma {:induction false} ForgetThenCount(allow: bool, r: Store, refs: seq<FailedJobRef>, job: JobKey, links: nat)
    requires forall ref :: ref in r.failures && ref.job == job ==> ref in refs
    requires forall ref :: ref in refs ==> ref.job == job
    ensures RunAlone(allow, r, AfterRefs(refs), job, links)
            == RunAlone(allow, r.(failures := Without(r.failures, job)), Decrement(1, Succeeded), job, links)
    decreases |refs|
  {
    ForgetLoop(r.failures, job, refs);
    if refs == [] {
      assert r == r.(failures := Without(r.failures, job));
    } else {
      var removed := r.(failures := Lrem(r.failures, refs[0]));
      assert RunAlone(allow, r, AfterRefs(refs), job, links)
             == RunAlone(allow, removed, AfterRefs(refs[1..]), job, links);
      ForgetThenCount(allow, removed, refs[1..], job, links);
    }
  }

  lemma OwnRefs(list: seq<FailedJobRef>, job: JobKey)
    ensures forall ref :: ref in list && ref.job == job ==> ref in RefsOf(list, job)
    ensures forall ref :: ref in RefsOf(list, job) ==> ref.job == job
  {
    forall ref ensures ref in RefsOf(list, job) <==> ref in list && ref.job == job {
      KeepIn(list, (other: FailedJobRef) => other.job == job, ref);
    }
  }

  lemma AloneRefs(allow: bool, r: Store, job: JobKey, links: nat)
    ensures RunAlone(allow, r, SuccessRefs, job, links)
            == RunAlone(allow, r, AfterRefs(RefsOf(r.failures, job)), job, links)
  {
  }

  /** A handler that records a success back to back does what `recordSuccess` is said to do. */
  lemma AloneSuccess(allow: bool, r: Store, job: JobKey, links: nat)
    ensures RunAlone(allow, r, SuccessRefs, job, links) == SucceedingJob(r, job)
  {
    AloneRefs(allow, r, job, links);
    OwnRefs(r.failures, job);
    ForgetThenCount(allow, r, RefsOf(r.failures, job), job, links);
    AloneSucceeding(allow, r.(failures := Without(r.failures, job)), 1, Succeeded, job, links);
  }

  /** A handler that records a failure back to back does what `recordFailure` is said to do. */
  lemma AloneFailure(allow: bool, r: Store, at: nat, job: JobKey, links: nat)
    requires links > 0
    ensures RunAlone(allow, r, IncrementFailed(at), job, links) == Failing(allow, r, FailedJobRef(job, at), links - 1)
  {
    var counted := r.(failed := r.failed + 1);
    var cleared := counted.(failures := Without(r.failures, job));
    var pushed := cleared.(failures := [FailedJobRef(job, at)] + Without(r.failures, job));
    OwnRefs(r.failures, job);
    AloneCount(allow, r, at, job, links);
    ForgetThenPush(allow, counted, RefsOf(r.failures, job), counted.failed, at, job, links);
    AlonePush(allow, cleared, at, job, links);
    AloneCaught(allow, pushed, job, links);
  }

  /** From any reachable lane, stepping that lane alone leads to the store `RunAlone` gives. */
  lemma {:induction false} StepsAlone(o: BatchOptions, run: seq<Action>, i: nat) returns (more: seq<Action>)
    requires i < |Exec(o, run).lanes|
    requires Exec(o, run).lanes[i].phase.Active? && |Exec(o, run).lanes[i].todo| > 0
    ensures forall k :: 0 <= k < |more| ==> more[k] == Step(i)
    ensures var s, s' := Exec(o, run), Exec(o, run + more);
            var l := s.lanes[i];
            && |s'.lanes| == |s.lanes| && s'.lanes[i].phase.Active?
            && (s'.lanes[i].phase.pc.Leave? || s'.lanes[i].phase.pc.Processing?)
            && s'.store == RunAlone(o.allowFailures, s.store, l.phase.pc, JobKey(i, |l.past|), |l.todo|)
    decreases PcRank(Exec(o, run).lanes[i].phase.pc), PcRefs(Exec(o, run).lanes[i].phase.pc)
  {
    var l := Exec(o, run).lanes[i];
    if l.phase.pc.Leave? || l.phase.pc.Processing? {
      more := [];
      assert run + more == run;
    } else {
      CommandRank(o.allowFailures, Exec(o, run).store, l.phase.pc, JobKey(i, |l.past|), |l.todo|);
      var longer := run + [Step(i)];
      assert longer[..|longer| - 1] == run;
      var rest := StepsAlone(o, longer, i);
      more := [Step(i)] + rest;
      assert run + more == longer + rest;
    }
  }
}
