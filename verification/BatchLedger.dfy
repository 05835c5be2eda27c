/** What the two counters of a batch mean, in every reachable state of every run. */
module BatchLedger {
  import opened BatchModel

  function Sum(f: Lane -> nat, lanes: seq<Lane>): nat {
    if lanes == [] then 0 else f(lanes[0]) + Sum(f, lanes[1..])
  }

  lemma {:induction false} SumUpdate(f: Lane -> nat, lanes: seq<Lane>, i: nat, l: Lane)
    requires i < |lanes|
    ensures Sum(f, lanes[i := l]) + f(lanes[i]) == Sum(f, lanes) + f(l)
  {
    if i == 0 {
      assert lanes[i := l][1..] == lanes[1..];
    } else {
      assert lanes[i := l][1..] == lanes[1..][i - 1 := l];
      SumUpdate(f, lanes[1..], i - 1, l);
    }
  }

  lemma {:induction false} SumZero(f: Lane -> nat, lanes: seq<Lane>)
    ensures Sum(f, lanes) == 0 <==> forall k :: 0 <= k < |lanes| ==> f(lanes[k]) == 0
  {
    if lanes != [] {
      SumZero(f, lanes[1..]);
      assert forall k :: 0 < k < |lanes| ==> lanes[k] == lanes[1..][k - 1];
      if Sum(f, lanes) == 0 {
        forall k | 0 <= k < |lanes| ensures f(lanes[k]) == 0 {
          if k > 0 { assert lanes[k] == lanes[1..][k - 1]; }
        }
      } else if f(lanes[0]) == 0 {
        var k :| 0 <= k < |lanes[1..]| && f(lanes[1..][k]) != 0;
        assert f(lanes[k + 1]) != 0;
      }
    }
  }

  lemma {:induction false} SumMember(f: Lane -> nat, lanes: seq<Lane>, i: nat)
    requires i < |lanes|
    ensures f(lanes[i]) <= Sum(f, lanes)
  {
    if i > 0 {
      SumMember(f, lanes[1..], i - 1);
    }
  }

  // ----- What each lane still owes the counters -----

  /** Which of the writes that settle a job have landed when its handler is at `pc`. */
  datatype Stage = Open | Counted | Landed(after: After)

  function StageOf(pc: Pc): Stage {
    match pc
    case CheckCancelled | CountSkipped | Processing | SuccessRefs | SuccessForget(_) | IncrementFailed(_) => Open
    case FailureRefs(_, _) | FailureForget(_, _, _) | PushRef(_, _) | CancelRest(_) | RunCatch(_) | ReadPending(_) =>
      Counted
    case Decrement(_, after) => if after == Broken then Counted else Open
    case ReadFailed(_, after) => Landed(after)
    case ClaimFinished(_, _, after) => Landed(after)
    case WriteFinished(_, _, after) => Landed(after)
    case RunThen(_, _, after) => Landed(after)
    case ClaimFinally(after) => Landed(after)
    case RunFinally(after) => Landed(after)
    case Leave(after) => Landed(after)
  }

  function UnsettledAt(pc: Pc, links: nat): nat
    requires links > 0
  {
    match StageOf(pc)
    case Open => links
    case Counted => links - 1
    case Landed(after) => if after == Succeeded then links - 1 else 0
  }

  predicate FailedAt(pc: Pc) {
    StageOf(pc) == Counted || StageOf(pc) == Landed(Broken)
  }

  /** The jobs of a lane, unstarted links included, whose settling write has not landed. */
  function Unsettled(l: Lane): nat {
    match l.phase
    case Held | Waiting => |l.todo|
    case Completed | Failed => 0
    case Active(pc) => if l.todo == [] then 0 else UnsettledAt(pc, |l.todo|)
  }

  /** Whether the head of the lane has a failure counted against its current life. */
  predicate HasFailed(l: Lane) {
    l.phase == Failed || (l.phase.Active? && FailedAt(l.phase.pc))
  }

  function FailedIn(l: Lane): nat { if HasFailed(l) then 1 else 0 }

  /** A failed job stays in `pendingJobs` until a retry completes it. */
  function Owed(l: Lane): nat { Unsettled(l) + FailedIn(l) }

  /** What the locals of a handler say about the lane it works on. */
  predicate PcShape(pc: Pc, links: nat) {
    match pc
    case Decrement(amount, after) =>
      (match after
       case Succeeded => amount == 1
       case Skipped => amount == links
       case Broken => amount == links - 1 && amount > 0)
    case ReadPending(_) => links == 1
    case _ => true
  }

  /** The shape every lane keeps. */
  predicate Shape(l: Lane) {
    && (l.phase.Waiting? || l.phase.Active? || l.phase.Failed? ==> |l.todo| > 0)
    && (l.phase.Active? ==> PcShape(l.phase.pc, |l.todo|))
  }

  predicate Shaped(s: State) {
    && s.next <= |s.lanes|
    && forall k :: 0 <= k < |s.lanes| ==> Shape(s.lanes[k]) && (s.lanes[k].phase == Held <==> k >= s.next)
  }

  lemma CommandShape(allow: bool, r: Store, pc: Pc, job: JobKey, links: nat)
    requires !pc.Processing? && !pc.Leave? && links > 0 && PcShape(pc, links)
    ensures PcShape(Command(allow, r, pc, job, links).pc, links)
  {
  }

  lemma ShapedStep(o: BatchOptions, s: State, a: Action)
    requires Shaped(s)
    ensures Shaped(Apply(o, s, a)) && |Apply(o, s, a).lanes| == |s.lanes|
  {
    if Enabled(s, a) && a.Step? && !s.lanes[a.lane].phase.pc.Leave? {
      var l := s.lanes[a.lane];
      CommandShape(o.allowFailures, s.store, l.phase.pc, JobKey(a.lane, |l.past|), |l.todo|);
    }
  }

  /** One command moves a lane's debt and the two counters together. */
  lemma CommandLedger(allow: bool, r: Store, pc: Pc, job: JobKey, links: nat)
    requires !pc.Processing? && !pc.Leave? && links > 0 && PcShape(pc, links)
    ensures var t := Command(allow, r, pc, job, links);
            var was, now := if FailedAt(pc) then 1 else 0, if FailedAt(t.pc) then 1 else 0;
            && t.store.pending - r.pending == UnsettledAt(t.pc, links) + now - UnsettledAt(pc, links) - was
            && t.store.failed - r.failed == now - was
            && t.store.pending <= r.pending && t.store.failed >= r.failed
  {
    match pc {
      case Decrement(_, after) =>
      case IncrementFailed(_) =>
      case FailureRefs(_, _) =>
      case FailureForget(_, _, _) =>
      case PushRef(_, _) =>
      case RunCatch(_) =>
      case SuccessRefs =>
      case SuccessForget(_) =>
      case _ =>
    }
  }

  lemma LaneTurn(o: BatchOptions, s: State, i: nat)
    requires Shaped(s) && Enabled(s, Step(i))
    ensures var s' := StepLane(o, s, i);
            && |s'.lanes| == |s.lanes|
            && s'.lanes == s.lanes[i := s'.lanes[i]]
            && s'.store.pending - s.store.pending == Owed(s'.lanes[i]) - Owed(s.lanes[i])
            && s'.store.failed - s.store.failed == FailedIn(s'.lanes[i]) - FailedIn(s.lanes[i])
            && s'.store.pending <= s.store.pending && s'.store.failed >= s.store.failed
  {
    var l := s.lanes[i];
    if !l.phase.pc.Leave? {
      CommandLedger(o.allowFailures, s.store, l.phase.pc, JobKey(i, |l.past|), |l.todo|);
    }
  }

  /** The ledger: in every run, manual retries included. */
  predicate Ledger(s: State) {
    && s.store.pending + s.reopened == Sum(Owed, s.lanes)
    && s.store.failed == Sum(FailedIn, s.lanes) + s.retries
  }

  /** Replacing one lane, with the counters moving as its debt does, keeps the ledger. */
  lemma LedgerMove(s: State, s': State, i: nat)
    requires i < |s.lanes| && |s'.lanes| == |s.lanes| && s'.lanes == s.lanes[i := s'.lanes[i]]
    requires s'.store.pending + s'.reopened + Owed(s.lanes[i]) == s.store.pending + s.reopened + Owed(s'.lanes[i])
    requires s'.store.failed + FailedIn(s.lanes[i]) + s.retries == s.store.failed + FailedIn(s'.lanes[i]) + s'.retries
    requires Ledger(s)
    ensures Ledger(s')
  {
    SumUpdate(Owed, s.lanes, i, s'.lanes[i]);
    SumUpdate(FailedIn, s.lanes, i, s'.lanes[i]);
  }

  lemma LedgerTurn(o: BatchOptions, s: State, i: nat)
    requires Shaped(s) && Ledger(s) && Enabled(s, Step(i))
    ensures Ledger(StepLane(o, s, i))
  {
    LaneTurn(o, s, i);
    LedgerMove(s, StepLane(o, s, i), i);
  }

  /** Only a retry moves the debt of a lane without a command of a handler. */
  lemma LedgerRetry(o: BatchOptions, s: State, i: nat)
    requires Shaped(s) && Ledger(s) && Enabled(s, Retry(i))
    ensures Ledger(Apply(o, s, Retry(i)))
  {
    LedgerMove(s, Apply(o, s, Retry(i)), i);
  }

  lemma FinishDebt(l: Lane, outcome: Outcome, at: nat)
    requires |l.todo| > 0 && l.phase == Active(Processing)
    ensures Owed(FinishLane(l, outcome, at)) == Owed(l) && FailedIn(FinishLane(l, outcome, at)) == FailedIn(l)
  {
  }

  lemma LedgerStep(o: BatchOptions, s: State, a: Action)
    requires Shaped(s) && Ledger(s)
    ensures Ledger(Apply(o, s, a))
  {
    if Enabled(s, a) {
      var s' := Apply(o, s, a);
      match a
      case CancelBatch =>
      case Step(i) => LedgerTurn(o, s, i);
      case Retry(i) => LedgerRetry(o, s, i);
      case Enqueue => LedgerMove(s, s', s.next);
      case Pick(i) => LedgerMove(s, s', i);
      case Finish(i, outcome, at) => FinishDebt(s.lanes[i], outcome, at); LedgerMove(s, s', i);
    }
  }
}
