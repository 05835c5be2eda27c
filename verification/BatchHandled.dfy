/** The base processor is the lanes: a lane picked up with nobody in between does to the store, to its own chain
  * and to its job what `BatchedProcessor.Handle` does.
  */
module BatchHandled {
  import opened Options
  import opened BatchModel
  import opened BatchLedger
  import opened BatchLives
  import opened BatchAlone
  import opened BatchRuns
  import opened BatchEarly
  import opened BatchEarlyThen
  import opened BatchService

  // ----- A handler on its way out -----

  predicate OnSuccessPath(pc: Pc) {
    || pc.SuccessRefs? || pc.SuccessForget? || (pc.Decrement? && pc.after == Succeeded)
    || StageOf(pc) == Landed(Succeeded)
  }

  /** Where the handler at `pc` is bound to leave. */
  predicate Toward(pc: Pc, after: After) {
    match after
    case Succeeded => OnSuccessPath(pc)
    case Skipped => OnSkipPath(pc)
    case Broken => OnFailPath(pc)
  }

  lemma TowardKept(allow: bool, r: Store, pc: Pc, after: After, job: JobKey, links: nat)
    requires !pc.Processing? && !pc.Leave? && Toward(pc, after)
    ensures Toward(Command(allow, r, pc, job, links).pc, after) && !Settles(pc, Command(allow, r, pc, job, links).pc)
  {
    match after
    case Succeeded =>
    case Skipped => SkipPathKept(allow, r, pc, job, links);
    case Broken => FailPathKept(allow, r, pc, job, links);
  }

  /** A lane once its handler has returned to BullMQ. */
  predicate Left(l: Lane, l': Lane, after: After)
    requires |l.todo| > 0
  {
    match after
    case Succeeded =>
      if |l.todo| > 1 then
        l' == Lane(l.todo[1..], l.past + [(l.todo[0], Life(l.started, l.settles))], Waiting, 0, 0, 0)
      else l' == l.(phase := Completed)
    case Skipped => l' == l.(phase := Completed)
    case Broken => l' == l.(phase := Failed, made := l.made + 1)
  }

  lemma {:induction false} LeavesToward(o: BatchOptions, s: State, i: nat, after: After) returns (more: seq<Action>)
    requires i < |s.lanes| && |s.lanes[i].todo| > 0 && s.lanes[i].phase.Active? && Toward(s.lanes[i].phase.pc, after)
    ensures forall a :: a in more ==> a == Step(i)
    ensures var l, s' := s.lanes[i], Continue(o, s, more);
            && |s'.lanes| == |s.lanes| && s'.lanes == s.lanes[i := s'.lanes[i]] && Left(l, s'.lanes[i], after)
            && s'.store == RunAlone(o.allowFailures, s.store, l.phase.pc, JobKey(i, |l.past|), |l.todo|)
    decreases PcRank(s.lanes[i].phase.pc), Refs(s.lanes[i])
  {
    var l := s.lanes[i];
    var pc := l.phase.pc;
    if pc.Leave? {
      more := [Step(i)] + [];
      ContinueOne(o, s, Step(i), []);
    } else {
      var job := JobKey(i, |l.past|);
      var s' := Apply(o, s, Step(i));
      TowardKept(o.allowFailures, s.store, pc, after, job, |l.todo|);
      CommandRank(o.allowFailures, s.store, pc, job, |l.todo|);
      assert s'.lanes[i] == l.(phase := s'.lanes[i].phase);
      var rest := LeavesToward(o, s', i, after);
      more := [Step(i)] + rest;
      ContinueOne(o, s, Step(i), rest);
    }
  }

  // ----- One handling, from pick-up to the end -----

  /** The job as the handler is given it. */
  predicate Carries(l: Lane, i: nat, job: BatchedJob) {
    && |l.todo| > 0 && job.inBatch && !job.callback
    && job.key == JobKey(i, |l.past|) && job.chain == l.todo[1..] && job.attemptsMade == l.made
    && (job.attempts == Some(l.todo[0].attempts) || (job.attempts == None && l.todo[0].attempts == 1))
  }

  predicate OfKind(error: JobError, kind: ErrorKind) { error.instance == kind || error.name == kind }

  predicate MovedOn(error: JobError) { OfKind(error, DelayedError) || OfKind(error, WaitingChildrenError) }

  predicate OnLaneOnly(a: Action, i: nat) { a == Pick(i) || a == Step(i) || (a.Finish? && a.lane == i) }

  lemma PickedThenSkipped(o: BatchOptions, s: State, i: nat, picked: State, skipping: State)
    requires i < |s.lanes| && |s.lanes[i].todo| > 0 && s.lanes[i].phase == Waiting && s.store.cancelled
    requires var l := s.lanes[i];
             && picked == s.(lanes := s.lanes[i := l.(phase := Active(CheckCancelled), started := l.started + 1)])
             && skipping == s.(lanes := s.lanes[i := l.(phase := Active(CountSkipped), started := l.started + 1,
                                                        settles := l.settles + 1)])
    ensures Apply(o, s, Pick(i)) == picked && Apply(o, picked, Step(i)) == skipping
  {
    assert picked.lanes[i := skipping.lanes[i]] == skipping.lanes;
  }

  lemma SkipsAlone(o: BatchOptions, s: State, i: nat) returns (more: seq<Action>)
    requires i < |s.lanes| && |s.lanes[i].todo| > 0 && s.lanes[i].phase == Waiting && s.store.cancelled
    ensures forall a :: a in more ==> OnLaneOnly(a, i)
    ensures var l, s' := s.lanes[i], Continue(o, s, more);
            && |s'.lanes| == |s.lanes| && s'.store == Skipping(s.store, |l.todo|)
            && s'.lanes == s.lanes[i := l.(phase := Completed, started := l.started + 1, settles := l.settles + 1)]
  {
    var l := s.lanes[i];
    var picked := s.(lanes := s.lanes[i := l.(phase := Active(CheckCancelled), started := l.started + 1)]);
    var skipping := s.(lanes := s.lanes[i := l.(phase := Active(CountSkipped), started := l.started + 1,
                                                settles := l.settles + 1)]);
    PickedThenSkipped(o, s, i, picked, skipping);
    var rest := LeavesToward(o, skipping, i, Skipped);
    AloneSkipping(o.allowFailures, s.store, JobKey(i, |l.past|), |l.todo|);
    more := [Pick(i)] + ([Step(i)] + rest);
    ContinueOne(o, s, Pick(i), [Step(i)] + rest);
    ContinueOne(o, picked, Step(i), rest);
  }

  /** A lane whose handler has found the batch not cancelled and is running `process()`. */
  lemma Begins(o: BatchOptions, s: State, i: nat) returns (more: seq<Action>)
    requires i < |s.lanes| && |s.lanes[i].todo| > 0 && s.lanes[i].phase == Waiting && !s.store.cancelled
    ensures forall a :: a in more ==> OnLaneOnly(a, i)
    ensures var l := s.lanes[i];
            Continue(o, s, more) == s.(lanes := s.lanes[i := l.(phase := Active(Processing), started := l.started + 1)])
  {
    var l := s.lanes[i];
    var picked := s.(lanes := s.lanes[i := l.(phase := Active(CheckCancelled), started := l.started + 1)]);
    assert Apply(o, s, Pick(i)) == picked;
    more := [Pick(i)] + ([Step(i)] + []);
    ContinueOne(o, s, Pick(i), [Step(i)] + []);
    ContinueOne(o, picked, Step(i), []);
  }

  lemma Succeeds(o: BatchOptions, s: State, i: nat) returns (more: seq<Action>)
    requires i < |s.lanes| && |s.lanes[i].todo| > 0 && s.lanes[i].phase == Active(Processing)
    ensures forall a :: a in more ==> OnLaneOnly(a, i)
    ensures var l, s' := s.lanes[i], Continue(o, s, more);
            && |s'.lanes| == |s.lanes| && s'.lanes == s.lanes[i := s'.lanes[i]]
            && s'.store == SucceedingJob(s.store, JobKey(i, |l.past|))
            && Left(l.(settles := l.settles + 1), s'.lanes[i], Succeeded)
  {
    var l := s.lanes[i];
    var a := Finish(i, Returns, 0);
    var returned := s.(lanes := s.lanes[i := l.(phase := Active(SuccessRefs), settles := l.settles + 1)]);
    assert Apply(o, s, a) == returned;
    var rest := LeavesToward(o, returned, i, Succeeded);
    AloneSuccess(o.allowFailures, s.store, JobKey(i, |l.past|), |l.todo|);
    more := [a] + rest;
    ContinueOne(o, s, a, rest);
  }

  lemma Fails(o: BatchOptions, s: State, i: nat, unrecoverable: bool, at: nat) returns (more: seq<Action>)
    requires i < |s.lanes| && |s.lanes[i].todo| > 0 && s.lanes[i].phase == Active(Processing)
    requires unrecoverable || s.lanes[i].made + 1 >= s.lanes[i].todo[0].attempts
    ensures forall a :: a in more ==> OnLaneOnly(a, i)
    ensures var l, s' := s.lanes[i], Continue(o, s, more);
            && |s'.lanes| == |s.lanes|
            && s'.lanes == s.lanes[i := l.(phase := Failed, made := l.made + 1, settles := l.settles + 1)]
            && s'.store == Failing(o.allowFailures, s.store, FailedJobRef(JobKey(i, |l.past|), at), |l.todo| - 1)
  {
    var l := s.lanes[i];
    var a := Finish(i, Throws(unrecoverable), at);
    var thrown := s.(lanes := s.lanes[i := l.(phase := Active(IncrementFailed(at)), settles := l.settles + 1)]);
    assert Apply(o, s, a) == thrown;
    var rest := LeavesToward(o, thrown, i, Broken);
    AloneFailure(o.allowFailures, s.store, at, JobKey(i, |l.past|), |l.todo|);
    more := [a] + rest;
    ContinueOne(o, s, a, rest);
  }

  /** A release within the budget, or a throw with attempts left: the same job waits again. */
  lemma GoesBack(o: BatchOptions, s: State, i: nat, released: bool) returns (more: seq<Action>)
    requires i < |s.lanes| && |s.lanes[i].todo| > 0 && s.lanes[i].phase == Active(Processing)
    requires var l := s.lanes[i];
             if released then l.started - l.made - 1 < l.todo[0].cap else l.made + 1 < l.todo[0].attempts
    ensures forall a :: a in more ==> OnLaneOnly(a, i)
    ensures var l := s.lanes[i];
            Continue(o, s, more)
            == s.(lanes := s.lanes[i := l.(phase := Waiting, made := if released then l.made else l.made + 1)])
  {
    var a := Finish(i, if released then Releases else Throws(false), 0);
    more := [a] + [];
    ContinueOne(o, s, a, []);
  }

  /** What becomes of the lane. `moved` and `last` are what the handler reads off the error and the job. */
  predicate LaneHandled(r: Store, l: Lane, l': Lane, result: ProcessResult, moved: bool, last: bool)
    requires |l.todo| > 0
  {
    if r.cancelled then l'.phase == Completed && l'.todo == l.todo && l'.past == l.past
    else if result.Returned? then
      if |l.todo| > 1 then
        && l'.phase == Waiting && l'.todo == l.todo[1..] && |l'.past| == |l.past| + 1 && l'.made == l'.started == 0
      else l'.phase == Completed && l'.todo == l.todo && l'.past == l.past
    else
      && l'.todo == l.todo && l'.past == l.past && l'.started == l.started + 1
      && (if moved then l'.phase == Waiting && l'.made == l.made
          else l'.phase == (if last then Failed else Waiting) && l'.made == l.made + 1)
  }

  /** `l` picked up, with `process()` under way. */
  predicate Running(s: State, i: nat, l: Lane) {
    && i < |s.lanes| && |l.todo| > 0 && !s.store.cancelled
    && s.lanes[i] == l.(phase := Active(Processing), started := l.started + 1)
  }

  lemma Throwing(o: BatchOptions, s: State, i: nat, l: Lane, job: BatchedJob, error: JobError)
      returns (more: seq<Action>)
    requires Running(s, i, l) && Carries(l, i, job)
    requires MovedOn(error) ==> l.started - l.made < l.todo[0].cap
    ensures forall a :: a in more ==> OnLaneOnly(a, i)
    ensures var s' := Continue(o, s, more);
            var last := OfKind(error, UnrecoverableError) || l.made + 1 >= l.todo[0].attempts;
            && |s'.lanes| == |s.lanes| && s'.lanes == s.lanes[i := s'.lanes[i]]
            && s'.store == Handled(o.allowFailures, s.store, job, Threw(error))
            && LaneHandled(s.store, l, s'.lanes[i], Threw(error), MovedOn(error), last)
  {
    if MovedOn(error) {
      more := GoesBack(o, s, i, true);
    } else if OfKind(error, UnrecoverableError) || l.made + 1 >= l.todo[0].attempts {
      more := Fails(o, s, i, OfKind(error, UnrecoverableError), job.now);
    } else {
      more := GoesBack(o, s, i, false);
    }
  }

  lemma Returning(o: BatchOptions, s: State, i: nat, l: Lane, job: BatchedJob) returns (more: seq<Action>)
    requires Running(s, i, l) && Carries(l, i, job)
    ensures forall a :: a in more ==> OnLaneOnly(a, i)
    ensures var s' := Continue(o, s, more);
            && |s'.lanes| == |s.lanes| && s'.lanes == s.lanes[i := s'.lanes[i]]
            && s'.store == Handled(o.allowFailures, s.store, job, Returned(false))
            && LaneHandled(s.store, l, s'.lanes[i], Returned(false), false, false)
  {
    more := Succeeds(o, s, i);
  }

  lemma Handles(o: BatchOptions, s: State, i: nat, job: BatchedJob, result: ProcessResult) returns (more: seq<Action>)
    requires i < |s.lanes| && s.lanes[i].phase == Waiting && Carries(s.lanes[i], i, job) && result != Returned(true)
    requires result.Threw? && MovedOn(result.error) ==> s.lanes[i].started - s.lanes[i].made < s.lanes[i].todo[0].cap
    ensures forall a :: a in more ==> OnLaneOnly(a, i)
    ensures var l, s' := s.lanes[i], Continue(o, s, more);
            var moved := result.Threw? && MovedOn(result.error);
            var last := result.Threw? && (OfKind(result.error, UnrecoverableError) || l.made + 1 >= l.todo[0].attempts);
            && |s'.lanes| == |s.lanes| && s'.lanes == s.lanes[i := s'.lanes[i]]
            && s'.store == Handled(o.allowFailures, s.store, job, result)
            && LaneHandled(s.store, l, s'.lanes[i], result, moved, last)
  {
    var l := s.lanes[i];
    if s.store.cancelled {
      more := SkipsAlone(o, s, i);
    } else {
      var first := Begins(o, s, i);
      var begun := Continue(o, s, first);
      assert Running(begun, i, l);
      var rest;
      match result {
        case Returned(_) => rest := Returning(o, begun, i, l, job);
        case Threw(error) => rest := Throwing(o, begun, i, l, job, error);
      }
      more := first + rest;
      ContinueJoins(o, s, first, rest);
    }
  }

  /** From any state a run can reach: the lane's own actions take the store where `Handle` leaves it, and the
    * lane goes on with the link `Handle` queues, the whole rest of the chain behind it, or with none.
    */
  lemma HandleIsTheLanes(o: BatchOptions, run: seq<Action>, i: nat, job: BatchedJob, result: ProcessResult)
      returns (more: seq<Action>)
    requires i < |Exec(o, run).lanes| && Exec(o, run).lanes[i].phase == Waiting
    requires Carries(Exec(o, run).lanes[i], i, job)
    requires result != Returned(true)
    requires result.Threw? && MovedOn(result.error) ==>
               Exec(o, run).lanes[i].started - Exec(o, run).lanes[i].made < Exec(o, run).lanes[i].todo[0].cap
    ensures forall a :: a in more ==> OnLaneOnly(a, i)
    ensures |Exec(o, run + more).lanes| == |Exec(o, run).lanes|
    ensures var s, s' := Exec(o, run), Exec(o, run + more);
            var l, l' := s.lanes[i], s'.lanes[i];
            var moved := result.Threw? && MovedOn(result.error);
            var last := result.Threw? && (OfKind(result.error, UnrecoverableError) || l.made + 1 >= l.todo[0].attempts);
            && s'.lanes == s.lanes[i := l']
            && s'.store == Handled(o.allowFailures, s.store, job, result)
            && LaneHandled(s.store, l, l', result, moved, last)
            && NextLink(s.store, job, result) == if l'.past == l.past then [] else [Link(l'.todo[0], l'.todo[1..])]
  {
    more := Handles(o, Exec(o, run), i, job, result);
    ExecContinues(o, run, more);
  }
}
