/** The batch service and the base processor in the source's own form: methods that update the keys
  * of one batch in place, proved against the functions of `BatchAlone`.
  */
module BatchService {
  import opened Lists
  import opened Options
  import opened BatchModel
  import opened BatchLedger
  import opened BatchFailures
  import opened BatchAlone
  import opened BatchRuns
  import opened Rounding

  /** A job put on a queue: a link with the rest of its chain, or a hook with its priority. */
  datatype Queued = Link(spec: JobSpec, chain: seq<JobSpec>) | HookJob(hook: Hook, priority: nat)

  /** What `find` returns, without the timestamps. */
  datatype BatchView = BatchView(total: nat, pending: nat, processed: int, failed: nat, skipped: nat,
                                 cancelled: bool, finished: bool, progress: nat)

  function View(total: nat, r: Store): BatchView {
    var pending := if r.pending < 0 then 0 else r.pending;
    BatchView(total, pending, total - pending, r.failed, r.skipped, r.cancelled, r.finished, Progress(total, r.pending))
  }

  /** The hook jobs a change of the store put on their queues. */
  function HookJobs(hooks: set<Hook>, r: Store, r': Store): seq<Queued> {
    (if r'.catchRuns > r.catchRuns && Catch in hooks then [HookJob(Catch, 1)] else []) +
    (if r'.thenRuns > r.thenRuns && Then in hooks then [HookJob(Then, 1)] else []) +
    (if r'.finallyRuns > r.finallyRuns && Finally in hooks then [HookJob(Finally, 2)] else [])
  }

  /** The jobs dispatch queues: the head of each entry, carrying the rest of its chain. */
  function Heads(entries: seq<seq<JobSpec>>): seq<Queued> {
    if entries == [] then []
    else (if entries[0] == [] then [] else [Link(entries[0][0], entries[0][1..])]) + Heads(entries[1..])
  }

  lemma {:induction false} HeadsAppend(entries: seq<seq<JobSpec>>, entry: seq<JobSpec>)
    ensures Heads(entries + [entry]) == Heads(entries) + if entry == [] then [] else [Link(entry[0], entry[1..])]
    ensures Total(entries + [entry]) == Total(entries) + |entry|
  {
    if entries == [] {
      assert entries + [entry] == [entry];
    } else {
      assert (entries + [entry])[1..] == entries[1..] + [entry];
      HeadsAppend(entries[1..], entry);
    }
  }

  function CountedRun(r: Store, hook: Hook): Store {
    match hook
    case Then => r.(thenRuns := r.thenRuns + 1)
    case Catch => r.(catchRuns := r.catchRuns + 1)
    case Finally => r.(finallyRuns := r.finallyRuns + 1)
  }

  /** Whatever a failure call queues, `catch` goes ahead of it. */
  lemma CatchFirst(hooks: set<Hook>, r: Store, counted: Store, caught: Store, r': Store)
    requires counted.thenRuns == r.thenRuns && counted.finallyRuns == r.finallyRuns && counted.catchRuns == r.catchRuns
    requires caught.thenRuns == r.thenRuns && caught.finallyRuns == r.finallyRuns && r'.catchRuns == caught.catchRuns
    ensures HookJobs(hooks, r, r') == HookJobs(hooks, counted, caught) + HookJobs(hooks, caught, r')
    ensures HookJobs(hooks, counted, counted) == []
  {
  }

  /** The loop of `forgetFailure`, from its first entry on: each match removes every equal element. */
  function Forgotten(list: seq<FailedJobRef>, raw: seq<FailedJobRef>, job: JobKey): seq<FailedJobRef>
    decreases raw
  {
    if raw == [] then list
    else Forgotten(if raw[0].job == job then Lrem(list, raw[0]) else list, raw[1..], job)
  }

  lemma {:induction false} ForgottenIsWithout(list: seq<FailedJobRef>, raw: seq<FailedJobRef>, job: JobKey)
    requires forall ref :: ref in list && ref.job == job ==> ref in raw
    ensures Forgotten(list, raw, job) == Without(list, job)
    decreases raw
  {
    if raw == [] {
      KeepAll(list, (ref: FailedJobRef) => ref.job != job);
    } else if raw[0].job == job {
      var others := OtherThan(raw[0]);
      var others' := (ref: FailedJobRef) => ref.job != job;
      forall ref | ref in Lrem(list, raw[0]) && ref.job == job ensures ref in raw[1..] {
        KeepIn(list, others, ref);
      }
      ForgottenIsWithout(Lrem(list, raw[0]), raw[1..], job);
      KeepTwice(list, others, others', others');
    } else {
      ForgottenIsWithout(list, raw[1..], job);
    }
  }

  /** The Redis keys of one batch: its hash with the guards and the failure list, and the queues it
    * puts jobs on. Each assignment to `store` is one command. */
  class BatchService {
    const options: BatchOptions
    var total: nat
    var store: Store
    var queued: seq<Queued>

    constructor (options: BatchOptions)
      ensures this.options == options && queued == []
    {
      this.options := options;
      total := 0;
      store := Store(0, 0, 0, false, false, false, false, [], 0, 0, 0);
      queued := [];
    }

    /** Creates the batch and queues the head of every entry, in order. */
    method Dispatch() returns (view: BatchView)
      modifies this
      ensures store == Init(options).store
      ensures total == Total(options.entries)
      ensures queued == old(queued) + Heads(options.entries)
      ensures view == View(total, store)
    {
      total := CountJobs();
      store := Store(total, 0, 0, false, false, false, false, [], 0, 0, 0);
      QueueHeads();
      view := Find();
    }

    /** The loop of `dispatch`: an empty entry queues nothing. */
    method QueueHeads()
      modifies this`queued
      ensures queued == old(queued) + Heads(options.entries)
    {
      for i := 0 to |options.entries|
        invariant queued == old(queued) + Heads(options.entries[..i])
      {
        assert options.entries[..i + 1] == options.entries[..i] + [options.entries[i]];
        HeadsAppend(options.entries[..i], options.entries[i]);
        var entry := options.entries[i];
        if entry != [] {
          queued := queued + [Link(entry[0], entry[1..])];
        }
      }
      assert options.entries[..|options.entries|] == options.entries;
    }

    /** A chain counts as many jobs as it has links, even though only the first is queued. */
    method CountJobs() returns (count: nat)
      ensures count == Total(options.entries)
    {
      count := 0;
      for i := 0 to |options.entries|
        invariant count == Total(options.entries[..i])
      {
        assert options.entries[..i + 1] == options.entries[..i] + [options.entries[i]];
        HeadsAppend(options.entries[..i], options.entries[i]);
        count := count + |options.entries[i]|;
      }
      assert options.entries[..|options.entries|] == options.entries;
    }

    method ContinueChain(chain: seq<JobSpec>)
      modifies this`queued
      ensures queued == old(queued) + if chain == [] then [] else [Link(chain[0], chain[1..])]
    {
      if chain != [] {
        queued := queued + [Link(chain[0], chain[1..])];
      }
    }

    method Find() returns (view: BatchView)
      ensures view == View(total, store)
      ensures view.total == total && view.pending == (if store.pending > 0 then store.pending else 0)
      ensures view.failed == store.failed && view.skipped == store.skipped
      ensures view.cancelled == store.cancelled && view.finished == store.finished
      ensures store.pending <= total ==> 0 <= view.processed == total - view.pending && view.progress <= 100
      ensures 0 < total && store.pending <= total ==> Nearest(view.progress, 100 * view.processed, total)
      ensures total == 0 ==> view.progress == 0
    {
      var left := if store.pending < 0 then 0 else store.pending;
      if store.pending <= total {
        ProgressMonotone(total, store.pending, store.pending);
        if total > 0 {
          ProgressIsNearest(total, store.pending);
        }
      }
      view := BatchView(total, left, total - left, store.failed, store.skipped, store.cancelled, store.finished,
                        Progress(total, store.pending));
    }

    /** Drops a job from the failure list: every reference, not just the first one found. */
    method ForgetFailure(job: JobKey)
      modifies this`store
      ensures store == old(store).(failures := Without(old(store).failures, job))
    {
      var raw := store.failures;
      for i := 0 to |raw|
        invariant store == old(store).(failures := store.failures)
        invariant Forgotten(store.failures, raw[i..], job) == Forgotten(raw, raw, job)
      {
        assert raw[i..][1..] == raw[i + 1..];
        if raw[i].job == job {
          store := store.(failures := Lrem(store.failures, raw[i]));
        }
      }
      ForgottenIsWithout(raw, raw, job);
    }

    method FailedJobs() returns (refs: seq<FailedJobRef>)
      ensures refs == store.failures
    {
      refs := store.failures;
    }

    method Cancel()
      modifies this`store
      ensures store == Cancelled(old(store))
    {
      MarkCancelled();
    }

    method MarkCancelled()
      modifies this`store
      ensures store == Cancelled(old(store))
    {
      store := store.(cancelled := true, finished := true);
    }

    /** A job finished, or links were written off. Only this moves `pendingJobs`. */
    method RecordSuccess(amount: nat, job: Option<JobKey>)
      modifies this`store, this`queued
      ensures store == match job
                       case None => Succeeding(old(store), amount)
                       case Some(key) => Succeeding(old(store).(failures := Without(old(store).failures, key)), amount)
      ensures queued == old(queued) + HookJobs(options.hooks, old(store), store)
    {
      if job.Some? {
        ForgetFailure(job.value);
      }
      store := store.(pending := store.pending - amount);
      var pending := store.pending;
      var failed := store.failed;
      if pending <= 0 {
        MarkFinished();
      }
      if pending - failed <= 0 {
        RunFinally();
      }
    }

    method RecordSkipped(abandoned: nat)
      modifies this`store, this`queued
      ensures store == Skipping(old(store), 1 + abandoned)
      ensures queued == old(queued) + HookJobs(options.hooks, old(store), store)
    {
      var amount := 1 + abandoned;
      store := store.(skipped := store.skipped + amount);
      RecordSuccess(amount, None);
    }

    method RecordFailure(abandoned: nat, ref: FailedJobRef)
      modifies this`store, this`queued
      ensures store == Failing(options.allowFailures, old(store), ref, abandoned)
      ensures queued == old(queued) + HookJobs(options.hooks, old(store), store)
    {
      var failed := CountFailure(ref);
      ghost var counted := store;
      if failed == 1 {
        CatchFailure();
      }
      ghost var caught := store;
      SettleFailure(abandoned, failed);
      CatchFirst(options.hooks, old(store), counted, caught, store);
    }

    /** Only the links of a broken chain are written off. */
    method SettleFailure(abandoned: nat, failed: nat)
      requires failed == store.failed
      modifies this`store, this`queued
      ensures store == AfterFailure(old(store), abandoned) && store.catchRuns == old(store).catchRuns
      ensures queued == old(queued) + HookJobs(options.hooks, old(store), store)
    {
      if abandoned > 0 {
        RecordSuccess(abandoned, None);
        return;
      }
      var pending := store.pending;
      if pending - failed <= 0 {
        RunFinally();
      }
    }

    /** Counts the failure and lists it, the job's old reference first going. */
    method CountFailure(ref: FailedJobRef) returns (failed: nat)
      modifies this`store
      ensures failed == old(store).failed + 1
      ensures store == old(store).(failed := failed, failures := [ref] + Without(old(store).failures, ref.job))
    {
      store := store.(failed := store.failed + 1);
      failed := store.failed;
      ForgetFailure(ref.job);
      store := store.(failures := [ref] + store.failures);
    }

    /** The first failure cancels the rest, and only then runs `catch`. */
    method CatchFailure()
      requires store.failed == 1
      modifies this`store, this`queued
      ensures store == FirstFailure(options.allowFailures, old(store))
      ensures queued == old(queued) + HookJobs(options.hooks, old(store), store)
    {
      if !options.allowFailures {
        MarkCancelled();
      }
      Run(Catch);
    }

    /** `pendingJobs` got to zero: the one place from which `then` can fire, and only once. Every job has then
      * succeeded or been skipped, unless a retry reopened a chain (`BatchEarlyThen`).
      */
    method MarkFinished()
      modifies this`store, this`queued
      ensures store == MarkedFinished(old(store))
      ensures queued == old(queued) + HookJobs(options.hooks, old(store), store)
    {
      if store.finishedGuard {
        return;
      }
      store := store.(finishedGuard := true);
      store := store.(finished := true);
      Run(Then);
    }

    method RunFinally()
      modifies this`store, this`queued
      ensures store == RanFinally(old(store))
      ensures queued == old(queued) + HookJobs(options.hooks, old(store), store)
    {
      if store.finallyGuard {
        return;
      }
      store := store.(finallyGuard := true);
      Run(Finally);
    }

    /** Queues a hook the batch declares, `finally` behind the others. */
    method Run(hook: Hook)
      modifies this`store, this`queued
      ensures store == CountedRun(old(store), hook)
      ensures queued == old(queued) + if hook !in options.hooks then []
                                      else [HookJob(hook, if hook == Finally then 2 else 1)]
    {
      store := CountedRun(store, hook);
      if hook in options.hooks {
        queued := queued + [HookJob(hook, if hook == Finally then 2 else 1)];
      }
    }
  }

  // ----- The base processor -----

  datatype ErrorKind = DelayedError | WaitingChildrenError | UnrecoverableError | OtherError

  /** An error as `handle` sees it: its class when this copy of bullmq made it, and its name. */
  datatype JobError = JobError(instance: ErrorKind, name: ErrorKind)

  datatype ProcessResult = Returned(aborted: bool) | Threw(error: JobError)

  datatype HandleResult = Result | SkippedResult | Rethrown(error: JobError)

  datatype BatchedJob = BatchedJob(key: JobKey, inBatch: bool, callback: bool, chain: seq<JobSpec>,
                                   attemptsMade: nat, attempts: Option<nat>, now: nat)

  /** Whether BullMQ moved the job itself; by name too, since a second bullmq breaks `instanceof`. */
  predicate Moved(error: JobError) {
    || error.instance == DelayedError || error.instance == WaitingChildrenError
    || error.name == DelayedError || error.name == WaitingChildrenError
  }

  predicate LastAttempt(job: BatchedJob, error: JobError) {
    || error.instance == UnrecoverableError || error.name == UnrecoverableError
    || job.attemptsMade + 1 >= (match job.attempts case None => 1 case Some(n) => n)
  }

  /** What one handling of a job does to its batch. */
  function Handled(allow: bool, r: Store, job: BatchedJob, result: ProcessResult): Store {
    var ref := FailedJobRef(job.key, job.now);
    if !job.inBatch || job.callback then r
    else if r.cancelled then Skipping(r, 1 + |job.chain|)
    else match result
      case Returned(aborted) =>
        if aborted then Failing(allow, r, ref, |job.chain|) else SucceedingJob(r, job.key)
      case Threw(error) =>
        if !Moved(error) && LastAttempt(job, error) then Failing(allow, r, ref, |job.chain|) else r
  }

  /** The next link is queued exactly when this one ran and succeeded. */
  function NextLink(r: Store, job: BatchedJob, result: ProcessResult): seq<Queued> {
    if job.inBatch && !job.callback && !r.cancelled && result == Returned(false) && job.chain != [] then
      [Link(job.chain[0], job.chain[1..])]
    else []
  }

  /** When a handling counts a failure, and when it leaves the batch alone. */
  lemma HandledCounts(allow: bool, r: Store, job: BatchedJob, result: ProcessResult)
    ensures var r' := Handled(allow, r, job, result);
            && (!job.inBatch || job.callback ==> r' == r)
            && (job.inBatch && !job.callback && r.cancelled ==>
                  r'.failed == r.failed && r'.skipped == r.skipped + 1 + |job.chain|
                  && r'.pending == r.pending - 1 - |job.chain|)
            && (job.inBatch && !job.callback && !r.cancelled && result == Returned(false) ==>
                  r'.failed == r.failed && r'.skipped == r.skipped && r'.pending == r.pending - 1)
            && (job.inBatch && !job.callback && !r.cancelled && result == Returned(true) ==>
                  r'.failed == r.failed + 1 && r'.skipped == r.skipped && r'.pending == r.pending - |job.chain|)
            && (job.inBatch && !job.callback && !r.cancelled && result.Threw? ==>
                  var instance, name := result.error.instance, result.error.name;
                  var moved := instance == DelayedError || name == DelayedError
                               || instance == WaitingChildrenError || name == WaitingChildrenError;
                  var last := instance == UnrecoverableError || name == UnrecoverableError
                              || job.attemptsMade + 1 >= (if job.attempts.Some? then job.attempts.value else 1);
                  if moved || !last then r' == r
                  else r'.failed == r.failed + 1 && r'.skipped == r.skipped && r'.pending == r.pending - |job.chain|)
  {
    var links := 1 + |job.chain|;
    SucceedingCounts(r.(skipped := r.skipped + links), links);
    SucceedingCounts(r.(failures := Without(r.failures, job.key)), 1);
    FailingCounts(allow, r, FailedJobRef(job.key, job.now), |job.chain|);
  }

  class BatchedProcessor {
    const batches: BatchService

    constructor (batches: BatchService)
      ensures this.batches == batches
    {
      this.batches := batches;
    }

    /** `result` is how the user's `process()` ends, if it is called at all. */
    method Handle(job: BatchedJob, result: ProcessResult) returns (r: HandleResult)
      modifies batches`store, batches`queued
      ensures batches.store == Handled(batches.options.allowFailures, old(batches.store), job, result)
      ensures batches.queued == old(batches.queued)
                                + HookJobs(batches.options.hooks, old(batches.store), batches.store)
                                + NextLink(old(batches.store), job, result)
      ensures r.SkippedResult? <==>
                job.inBatch && !job.callback && (old(batches.store.cancelled) || result == Returned(true))
      ensures r.Rethrown? <==> result.Threw? && !r.SkippedResult?
      ensures r.Rethrown? ==> r.error == result.error
      ensures job.inBatch && !job.callback && !old(batches.store.cancelled) && result.Threw? ==>
                var instance, name := result.error.instance, result.error.name;
                var moved := instance == DelayedError || name == DelayedError
                             || instance == WaitingChildrenError || name == WaitingChildrenError;
                var last := instance == UnrecoverableError || name == UnrecoverableError
                            || job.attemptsMade + 1 >= (if job.attempts.Some? then job.attempts.value else 1);
                && batches.store.failed == old(batches.store.failed) + (if last && !moved then 1 else 0)
                && (moved || !last ==> batches.store == old(batches.store) && batches.queued == old(batches.queued))
    {
      HandledCounts(batches.options.allowFailures, batches.store, job, result);
      if !job.inBatch || job.callback {
        return if result.Threw? then Rethrown(result.error) else Result;
      }
      if batches.store.cancelled {
        batches.RecordSkipped(|job.chain|);
        return SkippedResult;
      }
      match result {
        case Returned(aborted) =>
          if aborted {
            batches.RecordFailure(|job.chain|, FailedJobRef(job.key, job.now));
            return SkippedResult;
          }
          batches.RecordSuccess(1, Some(job.key));
          if |job.chain| > 0 {
            batches.ContinueChain(job.chain);
          }
          return Result;
        case Threw(error) =>
          if Moved(error) {
            return Rethrown(error);
          }
          if LastAttempt(job, error) {
            batches.RecordFailure(|job.chain|, FailedJobRef(job.key, job.now));
          }
          return Rethrown(error);
      }
    }
  }
}
