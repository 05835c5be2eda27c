/** The life of one batched job: how often it is picked up, that it settles once, and that it ends. */
module BatchLives {
  import opened BatchModel
  import opened BatchLedger

  /** How often a job may be picked up in one life: once an attempt, and once more a release. */
  function PickLimit(spec: JobSpec): nat { MaxNat(1, spec.attempts) + spec.cap }

  predicate EndedWell(spec: JobSpec, life: Life) {
    life.settles == 1 && 1 <= life.started <= PickLimit(spec)
  }

  predicate LifeOk(l: Lane) {
    && (forall k :: 0 <= k < |l.past| ==> EndedWell(l.past[k].0, l.past[k].1))
    && (match l.phase
        case Held => l.made == 0 && l.started == 0 && l.settles == 0
        case Waiting => |l.todo| > 0 && l.settles == 0 && l.made + 1 <= MaxNat(1, l.todo[0].attempts)
                        && l.made <= l.started <= l.made + l.todo[0].cap
        case Active(pc) => |l.todo| > 0 && l.made + 1 <= MaxNat(1, l.todo[0].attempts)
                           && l.made < l.started <= l.made + 1 + l.todo[0].cap
                           && l.settles == if pc == CheckCancelled || pc == Processing then 0 else 1
        case Completed => if l.todo == [] then l.settles == 0 else EndedWell(l.todo[0], Life(l.started, l.settles))
        case Failed => |l.todo| > 0 && EndedWell(l.todo[0], Life(l.started, l.settles)))
  }

  predicate LivesOk(s: State) {
    forall k :: 0 <= k < |s.lanes| ==> LifeOk(s.lanes[k])
  }

  lemma CommandEnters(allow: bool, r: Store, pc: Pc, job: JobKey, links: nat)
    requires !pc.Processing? && !pc.Leave?
    ensures var t := Command(allow, r, pc, job, links);
            && t.pc != CheckCancelled
            && (t.pc == Processing ==> pc == CheckCancelled)
            && (pc == CheckCancelled ==> t.pc == Processing || Settles(pc, t.pc))
            && (pc != CheckCancelled ==> !Settles(pc, t.pc))
  {
  }

  lemma LeaveLife(l: Lane, after: After)
    requires LifeOk(l) && l.phase == Active(Leave(after))
    ensures LifeOk(LeaveLane(l, after))
  {
    assert EndedWell(l.todo[0], Life(l.started, l.settles));
  }

  lemma LivesStep(o: BatchOptions, s: State, a: Action)
    requires Shaped(s) && LivesOk(s)
    ensures LivesOk(Apply(o, s, a))
  {
    if Enabled(s, a) && a.Step? {
      var l := s.lanes[a.lane];
      if l.phase.pc.Leave? {
        LeaveLife(l, l.phase.pc.after);
      } else {
        CommandEnters(o.allowFailures, s.store, l.phase.pc, JobKey(a.lane, |l.past|), |l.todo|);
      }
    } else if Enabled(s, a) && a.Finish? {
      FinishLife(s.lanes[a.lane], a.outcome, a.at);
    }
  }

  lemma FinishLife(l: Lane, outcome: Outcome, at: nat)
    requires LifeOk(l) && l.phase == Active(Processing)
    ensures LifeOk(FinishLane(l, outcome, at))
  {
  }

  // ----- A measure that every handler and dispatch step lowers -----

  /** Commands still ahead of a handler at `pc`; both reference loops count once. */
  function PcRank(pc: Pc): nat {
    match pc
    case CheckCancelled => 24
    case Processing => 23
    case CountSkipped => 21
    case IncrementFailed(_) => 22
    case FailureRefs(_, _) => 21
    case FailureForget(_, _, _) => 20
    case PushRef(_, _) => 19
    case CancelRest(_) => 18
    case RunCatch(_) => 17
    case ReadPending(_) => 16
    case SuccessRefs => 18
    case SuccessForget(_) => 17
    case Decrement(_, _) => 16
    case ReadFailed(_, _) => 15
    case ClaimFinished(_, _, _) => 14
    case WriteFinished(_, _, _) => 13
    case RunThen(_, _, _) => 12
    case ClaimFinally(_) => 11
    case RunFinally(_) => 10
    case Leave(_) => 9
  }

  const PICK := 25

  function ChainRank(todo: seq<JobSpec>): nat {
    if todo == [] then 0 else 1 + PickLimit(todo[0]) * PICK + ChainRank(todo[1..])
  }

  function PicksLeft(l: Lane): nat
    requires |l.todo| > 0
  {
    if l.started <= PickLimit(l.todo[0]) then PickLimit(l.todo[0]) - l.started else 0
  }

  /** What one lane can still do: picks left to its head, then the chain behind it. */
  function Work(l: Lane): nat {
    match l.phase
    case Held => 1 + ChainRank(l.todo)
    case Waiting => if l.todo == [] then 0 else PicksLeft(l) * PICK + ChainRank(l.todo[1..])
    case Active(pc) => if l.todo == [] then 0 else PicksLeft(l) * PICK + PcRank(pc) + ChainRank(l.todo[1..])
    case Completed | Failed => 0
  }

  /** References a handler still has to remove before its rank falls. */
  function Refs(l: Lane): nat {
    if !l.phase.Active? then 0 else
    match l.phase.pc
    case SuccessForget(refs) => |refs|
    case FailureForget(_, _, refs) => |refs|
    case _ => 0
  }

  predicate Lower(s': State, s: State) {
    || Sum(Work, s'.lanes) < Sum(Work, s.lanes)
    || (Sum(Work, s'.lanes) == Sum(Work, s.lanes) && Sum(Refs, s'.lanes) < Sum(Refs, s.lanes))
  }

  lemma CommandRank(allow: bool, r: Store, pc: Pc, job: JobKey, links: nat)
    requires !pc.Processing? && !pc.Leave?
    ensures var t := Command(allow, r, pc, job, links);
            || PcRank(t.pc) < PcRank(pc)
            || (pc.SuccessForget? && t.pc.SuccessForget? && |t.pc.refs| < |pc.refs|)
            || (pc.FailureForget? && t.pc.FailureForget? && |t.pc.refs| < |pc.refs|)
  {
  }

  lemma LaneLower(s: State, s': State, i: nat)
    requires i < |s.lanes| && |s'.lanes| == |s.lanes| && s'.lanes == s.lanes[i := s'.lanes[i]]
    requires LowerLane(s'.lanes[i], s.lanes[i])
    ensures Lower(s', s)
  {
    SumUpdate(Work, s.lanes, i, s'.lanes[i]);
    SumUpdate(Refs, s.lanes, i, s'.lanes[i]);
  }

  predicate LowerLane(l': Lane, l: Lane) {
    Work(l') < Work(l) || (Work(l') == Work(l) && Refs(l') < Refs(l))
  }

  lemma PickLower(l: Lane)
    requires LifeOk(l) && l.phase == Waiting && |l.todo| > 0
    ensures LowerLane(l.(phase := Active(CheckCancelled), started := l.started + 1), l)
  {
    assert l.started < PickLimit(l.todo[0]);
  }

  lemma FinishLower(l: Lane, outcome: Outcome, at: nat)
    requires LifeOk(l) && l.phase == Active(Processing) && |l.todo| > 0
    ensures LowerLane(FinishLane(l, outcome, at), l)
  {
  }

  lemma LeaveLower(l: Lane, after: After)
    requires l.phase == Active(Leave(after)) && |l.todo| > 0
    ensures LowerLane(LeaveLane(l, after), l)
  {
    var rest := l.todo[1..];
    assert rest != [] ==> ChainRank(rest) == 1 + PickLimit(rest[0]) * PICK + ChainRank(rest[1..]);
  }

  lemma EnqueueLower(l: Lane)
    requires LifeOk(l) && l.phase == Held
    ensures LowerLane(l.(phase := if l.todo == [] then Completed else Waiting), l)
  {
  }

  /** Dispatch and every handler step lower the measure. Cancelling does not raise it; a manual
    * retry is the only action that can. */
  lemma EveryStepDescends(o: BatchOptions, s: State, a: Action)
    requires Shaped(s) && LivesOk(s) && Enabled(s, a)
    ensures a.CancelBatch? ==> Apply(o, s, a).lanes == s.lanes
    ensures !a.CancelBatch? && !a.Retry? ==> Lower(Apply(o, s, a), s)
  {
    var s' := Apply(o, s, a);
    match a
    case CancelBatch =>
    case Retry(_) =>
    case Enqueue => EnqueueLower(s.lanes[s.next]); LaneLower(s, s', s.next);
    case Pick(i) => PickLower(s.lanes[i]); LaneLower(s, s', i);
    case Finish(i, outcome, at) => FinishLower(s.lanes[i], outcome, at); LaneLower(s, s', i);
    case Step(i) => StepLower(o, s, i); LaneLower(s, s', i);
  }

  lemma StepLower(o: BatchOptions, s: State, i: nat)
    requires Shaped(s) && Enabled(s, Step(i))
    ensures LowerLane(StepLane(o, s, i).lanes[i], s.lanes[i])
  {
    var l := s.lanes[i];
    if l.phase.pc.Leave? {
      LeaveLower(l, l.phase.pc.after);
    } else {
      CommandRank(o.allowFailures, s.store, l.phase.pc, JobKey(i, |l.past|), |l.todo|);
    }
  }

  /** No deadlock: until the batch is quiet, dispatch or some handler has a step. */
  lemma SomethingEnabled(s: State) returns (a: Action)
    requires Shaped(s) && !Quiescent(s)
    ensures Enabled(s, a) && !a.CancelBatch? && !a.Retry?
  {
    if s.next < |s.lanes| {
      a := Enqueue;
    } else {
      var k :| 0 <= k < |s.lanes| && !Ended(s.lanes[k]);
      a := if s.lanes[k].phase == Waiting then Pick(k)
           else if s.lanes[k].phase == Active(Processing) then Finish(k, Returns, 0)
           else Step(k);
    }
  }
}
