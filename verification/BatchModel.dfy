/** The batch protocol as a transition system: one Redis command per step.
  *
  * A batch entry is a lane: the job at its head and the chain that job carries in its payload.
  * At most one job of a lane is on a queue or in a handler at a time, so a lane also holds the
  * program counter of the handler that runs it. Any number of lanes run at once.
  *
  * Under the assumption that the TTL does not lapse, EXISTS always answers yes and EXPIRE changes
  * nothing, and the hook specs never change after dispatch; those commands are not steps.
  */
module BatchModel {
  import opened Lists

  datatype Hook = Then | Catch | Finally

  /** What bounds one job: `opts.attempts` and the release cap in force for it. */
  datatype JobSpec = JobSpec(attempts: nat, cap: nat)

  datatype BatchOptions = BatchOptions(entries: seq<seq<JobSpec>>, allowFailures: bool, hooks: set<Hook>)

  /** A job id. The position in the batch stands for it, so ids are unique across the batch. */
  datatype JobKey = JobKey(lane: nat, link: nat)

  datatype FailedJobRef = FailedJobRef(job: JobKey, failedAt: nat)

  /** The success and failure records of a run, in the order their last write landed. */
  datatype Record = Failure(ref: FailedJobRef) | Success(job: JobKey)

  /** The batch hash, its two one-shot guards, its failure list and how often each hook ran. */
  datatype Store = Store(
    pending: int,
    failed: nat,
    skipped: nat,
    cancelled: bool,
    finished: bool,
    finishedGuard: bool,
    finallyGuard: bool,
    failures: seq<FailedJobRef>,
    thenRuns: nat,
    catchRuns: nat,
    finallyRuns: nat)

  /** What the handler does once the record call it made returns. */
  datatype After = Succeeded | Skipped | Broken

  /** The command a handler issues next, with the replies it still needs. */
  datatype Pc =
    | CheckCancelled
    | CountSkipped
    | Processing
    | IncrementFailed(at: nat)
    | FailureRefs(failed: nat, at: nat)
    | FailureForget(failed: nat, at: nat, refs: seq<FailedJobRef>)
    | PushRef(failed: nat, at: nat)
    | CancelRest(failed: nat)
    | RunCatch(failed: nat)
    | ReadPending(failed: nat)
    | SuccessRefs
    | SuccessForget(refs: seq<FailedJobRef>)
    | Decrement(amount: nat, after: After)
    | ReadFailed(pending: int, after: After)
    | ClaimFinished(pending: int, failed: nat, after: After)
    | WriteFinished(pending: int, failed: nat, after: After)
    | RunThen(pending: int, failed: nat, after: After)
    | ClaimFinally(after: After)
    | RunFinally(after: After)
    | Leave(after: After)

  datatype Phase = Held | Waiting | Active(pc: Pc) | Completed | Failed

  /** One life of a job: from being queued, or retried by hand, to its outcome. */
  datatype Life = Life(started: nat, settles: nat)

  /** `todo[0]` is the job at the head of the lane, `todo[1..]` the chain in its payload. */
  datatype Lane = Lane(
    todo: seq<JobSpec>,
    past: seq<(JobSpec, Life)>,
    phase: Phase,
    made: nat,
    started: nat,
    settles: nat)

  datatype State = State(
    store: Store,
    lanes: seq<Lane>,
    next: nat,
    retries: nat,
    reopened: nat,
    log: seq<Record>)

  /** How the user's `process()` ends. */
  datatype Outcome = Returns | Releases | Throws(unrecoverable: bool)

  datatype Action =
    | Enqueue
    | Pick(lane: nat)
    | Step(lane: nat)
    | Finish(lane: nat, outcome: Outcome, at: nat)
    | CancelBatch
    | Retry(lane: nat)

  function Total(entries: seq<seq<JobSpec>>): nat {
    if entries == [] then 0 else |entries[0]| + Total(entries[1..])
  }

  function Init(o: BatchOptions): State {
    State(
      Store(Total(o.entries), 0, 0, false, false, false, false, [], 0, 0, 0),
      seq(|o.entries|, i requires 0 <= i < |o.entries| => Lane(o.entries[i], [], Held, 0, 0, 0)),
      0, 0, 0, [])
  }

  // ----- The failure list -----

  function RefsOf(list: seq<FailedJobRef>, job: JobKey): seq<FailedJobRef> {
    Keep(list, (ref: FailedJobRef) => ref.job == job)
  }

  // ----- One command of one handler -----

  datatype Turn = Turn(store: Store, pc: Pc, log: seq<Record>)

  function AfterFinished(pending: int, failed: nat, after: After): Pc {
    if pending - failed <= 0 then ClaimFinally(after) else Leave(after)
  }

  function AfterRefs(refs: seq<FailedJobRef>): Pc {
    if refs == [] then Decrement(1, Succeeded) else SuccessForget(refs)
  }

  function AfterFailureRefs(failed: nat, at: nat, refs: seq<FailedJobRef>): Pc {
    if refs == [] then PushRef(failed, at) else FailureForget(failed, at, refs)
  }

  function AfterPush(allowFailures: bool, failed: nat, links: nat): Pc {
    if failed == 1 then if allowFailures then RunCatch(failed) else CancelRest(failed)
    else AfterCatch(failed, links)
  }

  /** Only the links of a broken chain are written off; without any, `pendingJobs` is read. */
  function AfterCatch(failed: nat, links: nat): Pc {
    if links > 1 then Decrement(links - 1, Broken) else ReadPending(failed)
  }

  /** The command at `pc`, issued by the handler of `job`, whose lane still holds `links` links. */
  function Command(allowFailures: bool, r: Store, pc: Pc, job: JobKey, links: nat): Turn
    requires !pc.Processing? && !pc.Leave?
  {
    match pc
    case CheckCancelled => Turn(r, if r.cancelled then CountSkipped else Processing, [])
    case CountSkipped => Turn(r.(skipped := r.skipped + links), Decrement(links, Skipped), [])
    case IncrementFailed(at) => Turn(r.(failed := r.failed + 1), FailureRefs(r.failed + 1, at), [])
    case FailureRefs(failed, at) => Turn(r, AfterFailureRefs(failed, at, RefsOf(r.failures, job)), [])
    case FailureForget(failed, at, refs) =>
      if refs == [] then Turn(r, PushRef(failed, at), [])
      else Turn(r.(failures := Lrem(r.failures, refs[0])), AfterFailureRefs(failed, at, refs[1..]), [])
    case PushRef(failed, at) =>
      var ref := FailedJobRef(job, at);
      Turn(r.(failures := [ref] + r.failures), AfterPush(allowFailures, failed, links), [Failure(ref)])
    case CancelRest(failed) => Turn(r.(cancelled := true, finished := true), RunCatch(failed), [])
    case RunCatch(failed) => Turn(r.(catchRuns := r.catchRuns + 1), AfterCatch(failed, links), [])
    case ReadPending(failed) => Turn(r, AfterFinished(r.pending, failed, Broken), [])
    case SuccessRefs => Turn(r, AfterRefs(RefsOf(r.failures, job)), [])
    case SuccessForget(refs) =>
      if refs == [] then Turn(r, Decrement(1, Succeeded), [])
      else Turn(r.(failures := Lrem(r.failures, refs[0])), AfterRefs(refs[1..]), [])
    case Decrement(amount, after) =>
      Turn(r.(pending := r.pending - amount), ReadFailed(r.pending - amount, after),
           if after == Succeeded then [Success(job)] else [])
    case ReadFailed(pending, after) =>
      Turn(r, if pending <= 0 then ClaimFinished(pending, r.failed, after)
              else AfterFinished(pending, r.failed, after), [])
    case ClaimFinished(pending, failed, after) =>
      if r.finishedGuard then Turn(r, AfterFinished(pending, failed, after), [])
      else Turn(r.(finishedGuard := true), WriteFinished(pending, failed, after), [])
    case WriteFinished(pending, failed, after) =>
      Turn(r.(finished := true), RunThen(pending, failed, after), [])
    case RunThen(pending, failed, after) =>
      Turn(r.(thenRuns := r.thenRuns + 1), AfterFinished(pending, failed, after), [])
    case ClaimFinally(after) =>
      if r.finallyGuard then Turn(r, Leave(after), [])
      else Turn(r.(finallyGuard := true), RunFinally(after), [])
    case RunFinally(after) => Turn(r.(finallyRuns := r.finallyRuns + 1), Leave(after), [])
  }

  /** The settling call a handler has entered by going from `pc` to `pc'`, if any. */
  predicate Settles(pc: Pc, pc': Pc) {
    pc == CheckCancelled && pc' == CountSkipped
  }

  function MaxNat(a: nat, b: nat): nat { if a < b then b else a }

  /** The handler returns to BullMQ: the next link is queued, or the job is completed or failed. */
  function LeaveLane(l: Lane, after: After): Lane
    requires |l.todo| > 0
  {
    match after
    case Succeeded =>
      if |l.todo| > 1 then
        Lane(l.todo[1..], l.past + [(l.todo[0], Life(l.started, l.settles))], Waiting, 0, 0, 0)
      else l.(phase := Completed)
    case Skipped => l.(phase := Completed)
    case Broken => l.(phase := Failed, made := l.made + 1)
  }

  /** `process()` ended; a release past the budget throws like any other error. */
  function FinishLane(l: Lane, outcome: Outcome, at: nat): Lane
    requires |l.todo| > 0
  {
    var spec := l.todo[0];
    match outcome
    case Returns => l.(phase := Active(SuccessRefs), settles := l.settles + 1)
    case Releases =>
      if l.started - l.made - 1 >= spec.cap then ThrowLane(l, false, at)
      else l.(phase := Waiting)
    case Throws(unrecoverable) => ThrowLane(l, unrecoverable, at)
  }

  function ThrowLane(l: Lane, unrecoverable: bool, at: nat): Lane
    requires |l.todo| > 0
  {
    if unrecoverable || l.made + 1 >= l.todo[0].attempts then
      l.(phase := Active(IncrementFailed(at)), settles := l.settles + 1)
    else
      l.(phase := Waiting, made := l.made + 1)
  }

  predicate Enabled(s: State, a: Action) {
    match a
    case Enqueue => s.next < |s.lanes|
    case Pick(i) => i < |s.lanes| && s.lanes[i].phase == Waiting && |s.lanes[i].todo| > 0
    case Step(i) => i < |s.lanes| && s.lanes[i].phase.Active? && s.lanes[i].phase.pc != Processing
        && |s.lanes[i].todo| > 0
    case Finish(i, _, _) => i < |s.lanes| && s.lanes[i].phase == Active(Processing) && |s.lanes[i].todo| > 0
    case CancelBatch => true
    case Retry(i) => i < |s.lanes| && s.lanes[i].phase == Failed && |s.lanes[i].todo| > 0
  }

  function StepLane(o: BatchOptions, s: State, i: nat): State
    requires Enabled(s, Step(i))
  {
    var l := s.lanes[i];
    if l.phase.pc.Leave? then
      s.(lanes := s.lanes[i := LeaveLane(l, l.phase.pc.after)])
    else
      var t := Command(o.allowFailures, s.store, l.phase.pc, JobKey(i, |l.past|), |l.todo|);
      var settles := if Settles(l.phase.pc, t.pc) then l.settles + 1 else l.settles;
      s.(store := t.store, lanes := s.lanes[i := l.(phase := Active(t.pc), settles := settles)], log := s.log + t.log)
  }

  /** One action of the system. An action that is not enabled changes nothing. */
  function Apply(o: BatchOptions, s: State, a: Action): State {
    if !Enabled(s, a) then s else
    match a
    case Enqueue =>
      var l := s.lanes[s.next];
      s.(lanes := s.lanes[s.next := l.(phase := if l.todo == [] then Completed else Waiting)], next := s.next + 1)
    case Pick(i) =>
      var l := s.lanes[i];
      s.(lanes := s.lanes[i := l.(phase := Active(CheckCancelled), started := l.started + 1)])
    case Step(i) => StepLane(o, s, i)
    case Finish(i, outcome, at) => s.(lanes := s.lanes[i := FinishLane(s.lanes[i], outcome, at)])
    case CancelBatch => s.(store := s.store.(cancelled := true, finished := true))
    case Retry(i) =>
      var l := s.lanes[i];
      s.(lanes := s.lanes[i := l.(phase := Waiting, made := 0, started := 0, settles := 0)],
         retries := s.retries + 1,
         reopened := s.reopened + |l.todo| - 1)
  }

  /** The state after a run. A run is any sequence of actions, so it is any interleaving. */
  function Exec(o: BatchOptions, run: seq<Action>): State {
    if run == [] then Init(o)
    else Apply(o, Exec(o, run[..|run| - 1]), run[|run| - 1])
  }

  predicate RetryFree(run: seq<Action>) {
    forall k :: 0 <= k < |run| ==> !run[k].Retry?
  }

  predicate ChainFree(o: BatchOptions) {
    forall k :: 0 <= k < |o.entries| ==> |o.entries[k]| <= 1
  }

  predicate Ended(l: Lane) { l.phase.Completed? || l.phase.Failed? }

  /** Dispatch has queued every entry and no job is waiting or in a handler. */
  predicate Quiescent(s: State) {
    s.next == |s.lanes| && forall k :: 0 <= k < |s.lanes| ==> Ended(s.lanes[k])
  }

  /** How often a hook's one-shot path was taken to its end. */
  function Runs(r: Store, hook: Hook): nat {
    match hook
    case Then => r.thenRuns
    case Catch => r.catchRuns
    case Finally => r.finallyRuns
  }

  /** How often a hook job was put on its queue: never, when the batch does not declare it. */
  function Enqueued(o: BatchOptions, s: State, hook: Hook): nat {
    if hook in o.hooks then Runs(s.store, hook) else 0
  }
}
