/** Which hooks run, how often and when: the invariants behind the one-shot guarantees. */
module BatchHooks {
  import opened BatchModel
  import opened BatchLedger

  // ----- Stale locals only err on the safe side -----

  /** `pendingJobs` only falls and `failedJobs` only rises, so a reply bounds the counter it read. */
  predicate Locals(allow: bool, r: Store, pc: Pc) {
    match pc
    case FailureRefs(f, _) => 1 <= f <= r.failed
    case FailureForget(f, _, _) => 1 <= f <= r.failed
    case PushRef(f, _) => 1 <= f <= r.failed
    case CancelRest(f) => f == 1 <= r.failed && !allow
    case RunCatch(f) => f == 1 <= r.failed && (allow || r.cancelled)
    case ReadPending(f) => 1 <= f <= r.failed
    case Decrement(_, after) => after == Broken ==> 1 <= r.failed
    case ReadFailed(p, _) => r.pending <= p
    case ClaimFinished(p, f, _) => r.pending <= p <= 0 && f <= r.failed
    case WriteFinished(p, f, _) => r.pending <= p <= 0 && f <= r.failed
    case RunThen(p, f, _) => r.pending <= p <= 0 && f <= r.failed
    case ClaimFinally(_) => r.pending - r.failed <= 0
    case RunFinally(_) => r.pending - r.failed <= 0
    case _ => true
  }

  /** What every command keeps about the store, whoever issues it. */
  predicate Grows(r: Store, r': Store) {
    && r'.pending <= r.pending && r'.failed >= r.failed && r'.skipped >= r.skipped
    && (r.cancelled ==> r'.cancelled) && (r.finished ==> r'.finished)
    && (r.finishedGuard ==> r'.finishedGuard) && (r.finallyGuard ==> r'.finallyGuard)
  }

  predicate GuardsHold(r: Store) {
    && (r.finishedGuard ==> r.pending <= 0)
    && (r.finallyGuard ==> r.pending - r.failed <= 0)
    && (r.finished ==> r.cancelled || r.finishedGuard)
    && (r.cancelled ==> r.finished)
  }

  /** A `catch` hook that inspects its batch finds it cancelled, unless failures are allowed. */
  predicate CatchSeesCancelled(allow: bool, r: Store) {
    r.catchRuns > 0 && !allow ==> r.cancelled
  }

  lemma CommandGrows(allow: bool, r: Store, pc: Pc, job: JobKey, links: nat)
    requires !pc.Processing? && !pc.Leave?
    ensures Grows(r, Command(allow, r, pc, job, links).store)
  {
  }

  lemma CommandLocals(allow: bool, r: Store, pc: Pc, job: JobKey, links: nat)
    requires !pc.Processing? && !pc.Leave? && Locals(allow, r, pc)
    ensures Locals(allow, Command(allow, r, pc, job, links).store, Command(allow, r, pc, job, links).pc)
  {
  }

  lemma CommandGuards(allow: bool, r: Store, pc: Pc, job: JobKey, links: nat)
    requires !pc.Processing? && !pc.Leave? && Locals(allow, r, pc) && GuardsHold(r)
    requires pc.WriteFinished? ==> r.finishedGuard
    requires CatchSeesCancelled(allow, r)
    ensures GuardsHold(Command(allow, r, pc, job, links).store)
    ensures CatchSeesCancelled(allow, Command(allow, r, pc, job, links).store)
  {
  }

  // ----- One token for each hook that is claimed but has not run yet -----

  function CatchTokenAt(pc: Pc): nat {
    match pc
    case FailureRefs(f, _) => if f == 1 then 1 else 0
    case FailureForget(f, _, _) => if f == 1 then 1 else 0
    case PushRef(f, _) => if f == 1 then 1 else 0
    case CancelRest(_) => 1
    case RunCatch(_) => 1
    case _ => 0
  }

  function ThenTokenAt(pc: Pc): nat { if pc.WriteFinished? || pc.RunThen? then 1 else 0 }

  function FinallyTokenAt(pc: Pc): nat { if pc.RunFinally? then 1 else 0 }

  function CatchToken(l: Lane): nat { if l.phase.Active? then CatchTokenAt(l.phase.pc) else 0 }

  function ThenToken(l: Lane): nat { if l.phase.Active? then ThenTokenAt(l.phase.pc) else 0 }

  function FinallyToken(l: Lane): nat { if l.phase.Active? then FinallyTokenAt(l.phase.pc) else 0 }

  function Once(claimed: bool): nat { if claimed then 1 else 0 }

  predicate Tokens(s: State) {
    && s.store.catchRuns + Sum(CatchToken, s.lanes) == Once(s.store.failed > 0)
    && s.store.thenRuns + Sum(ThenToken, s.lanes) == Once(s.store.finishedGuard)
    && s.store.finallyRuns + Sum(FinallyToken, s.lanes) == Once(s.store.finallyGuard)
  }

  /** Where a handler counts a failure and sees to `catch`. */
  predicate OnCatchPath(pc: Pc) {
    || pc.IncrementFailed? || pc.FailureRefs? || pc.FailureForget? || pc.PushRef? || pc.CancelRest? || pc.RunCatch?
  }

  lemma CatchElsewhere(allow: bool, r: Store, pc: Pc, job: JobKey, links: nat)
    requires !pc.Processing? && !pc.Leave? && !OnCatchPath(pc)
    ensures var t := Command(allow, r, pc, job, links);
            t.store.catchRuns == r.catchRuns && t.store.failed == r.failed
                && CatchTokenAt(pc) == CatchTokenAt(t.pc) == 0
  {
  }

  lemma CommandCatch(allow: bool, r: Store, pc: Pc, job: JobKey, links: nat)
    requires !pc.Processing? && !pc.Leave? && Locals(allow, r, pc)
    ensures var t := Command(allow, r, pc, job, links);
            t.store.catchRuns + CatchTokenAt(t.pc) + Once(r.failed > 0)
            == r.catchRuns + CatchTokenAt(pc) + Once(t.store.failed > 0)
  {
    if !OnCatchPath(pc) {
      CatchElsewhere(allow, r, pc, job, links);
    }
  }

  lemma CommandThen(allow: bool, r: Store, pc: Pc, job: JobKey, links: nat)
    requires !pc.Processing? && !pc.Leave?
    ensures var t := Command(allow, r, pc, job, links);
            t.store.thenRuns + ThenTokenAt(t.pc) + Once(r.finishedGuard)
            == r.thenRuns + ThenTokenAt(pc) + Once(t.store.finishedGuard)
  {
  }

  lemma CommandFinally(allow: bool, r: Store, pc: Pc, job: JobKey, links: nat)
    requires !pc.Processing? && !pc.Leave?
    ensures var t := Command(allow, r, pc, job, links);
            t.store.finallyRuns + FinallyTokenAt(t.pc) + Once(r.finallyGuard)
            == r.finallyRuns + FinallyTokenAt(pc) + Once(t.store.finallyGuard)
  {
  }

  // ----- The handler whose write settled the batch is bound to notice -----

  /** The handler at `pc` will try to claim `finally`, whatever the others do meanwhile. */
  predicate WillClaimFinally(r: Store, pc: Pc) {
    match pc
    case FailureRefs(f, _) => r.pending - f <= 0
    case FailureForget(f, _, _) => r.pending - f <= 0
    case PushRef(f, _) => r.pending - f <= 0
    case CancelRest(f) => r.pending - f <= 0
    case RunCatch(f) => r.pending - f <= 0
    case ReadPending(f) => r.pending - f <= 0
    case Decrement(_, after) => after == Broken && r.pending - r.failed <= 0
    case ReadFailed(p, _) => p - r.failed <= 0
    case ClaimFinished(p, f, _) => p - f <= 0
    case WriteFinished(p, f, _) => p - f <= 0
    case RunThen(p, f, _) => p - f <= 0
    case ClaimFinally(_) => true
    case _ => false
  }

  predicate WillClaimFinished(pc: Pc) {
    match pc
    case ReadFailed(p, _) => p <= 0
    case ClaimFinished(_, _, _) => true
    case _ => false
  }

  predicate FinallyPromised(s: State) {
    s.store.pending - s.store.failed <= 0 && !s.store.finallyGuard ==>
      exists k :: 0 <= k < |s.lanes| && s.lanes[k].phase.Active? && WillClaimFinally(s.store, s.lanes[k].phase.pc)
  }

  predicate FinishedPromised(s: State) {
    s.store.pending <= 0 && !s.store.finishedGuard ==>
      exists k :: 0 <= k < |s.lanes| && s.lanes[k].phase.Active? && WillClaimFinished(s.lanes[k].phase.pc)
  }

  lemma PromiseKept(r: Store, r': Store, pc: Pc)
    requires Grows(r, r') && WillClaimFinally(r, pc)
    ensures WillClaimFinally(r', pc)
  {
  }

  /** The command that settles the batch makes the promise; later commands keep or redeem it. */
  lemma CommandPromise(allow: bool, r: Store, pc: Pc, job: JobKey, links: nat)
    requires !pc.Processing? && !pc.Leave? && Locals(allow, r, pc) && PcShape(pc, links) && links > 0
    requires r.pending - r.failed > 0 || WillClaimFinally(r, pc)
    ensures var t := Command(allow, r, pc, job, links);
            t.store.pending - t.store.failed > 0 || t.store.finallyGuard || WillClaimFinally(t.store, t.pc)
  {
  }

  lemma CommandFinish(allow: bool, r: Store, pc: Pc, job: JobKey, links: nat)
    requires !pc.Processing? && !pc.Leave?
    requires r.pending > 0 || WillClaimFinished(pc)
    ensures var t := Command(allow, r, pc, job, links);
            t.store.pending > 0 || t.store.finishedGuard || WillClaimFinished(t.pc)
  {
  }

  // ----- The invariant of every run -----

  predicate LocalsHold(o: BatchOptions, s: State) {
    forall k :: 0 <= k < |s.lanes| && s.lanes[k].phase.Active? ==>
      && Locals(o.allowFailures, s.store, s.lanes[k].phase.pc)
      && (s.lanes[k].phase.pc.WriteFinished? ==> s.store.finishedGuard)
  }

  predicate HooksSafe(o: BatchOptions, s: State) {
    LocalsHold(o, s) && GuardsHold(s.store) && Tokens(s) && CatchSeesCancelled(o.allowFailures, s.store)
  }

  lemma LocalsStable(allow: bool, r: Store, r': Store, pc: Pc)
    requires Grows(r, r') && Locals(allow, r, pc)
    ensures Locals(allow, r', pc)
  {
  }

  lemma TokenMove(s: State, s': State, i: nat)
    requires i < |s.lanes| && |s'.lanes| == |s.lanes| && s'.lanes == s.lanes[i := s'.lanes[i]]
    requires Tokens(s)
    requires s'.store.catchRuns + CatchToken(s'.lanes[i]) + Once(s.store.failed > 0)
             == s.store.catchRuns + CatchToken(s.lanes[i]) + Once(s'.store.failed > 0)
    requires s'.store.thenRuns + ThenToken(s'.lanes[i]) + Once(s.store.finishedGuard)
             == s.store.thenRuns + ThenToken(s.lanes[i]) + Once(s'.store.finishedGuard)
    requires s'.store.finallyRuns + FinallyToken(s'.lanes[i]) + Once(s.store.finallyGuard)
             == s.store.finallyRuns + FinallyToken(s.lanes[i]) + Once(s'.store.finallyGuard)
    ensures Tokens(s')
  {
    SumUpdate(CatchToken, s.lanes, i, s'.lanes[i]);
    SumUpdate(ThenToken, s.lanes, i, s'.lanes[i]);
    SumUpdate(FinallyToken, s.lanes, i, s'.lanes[i]);
  }

  /** A lane moved by no command of its own stands where no hook is claimed and no reply is held. */
  predicate HoldsNothing(l: Lane) {
    l.phase.Active? ==> l.phase.pc == CheckCancelled || l.phase.pc == SuccessRefs || l.phase.pc == Processing
                        || l.phase.pc.IncrementFailed? || l.phase.pc.Leave?
  }

  lemma HooksMoved(o: BatchOptions, s: State, s': State, i: nat)
    requires HooksSafe(o, s) && i < |s.lanes| == |s'.lanes| && s'.lanes == s.lanes[i := s'.lanes[i]]
    requires s'.store == s.store && HoldsNothing(s.lanes[i]) && HoldsNothing(s'.lanes[i])
    ensures HooksSafe(o, s')
  {
    TokenMove(s, s', i);
  }

  lemma StepSafe(o: BatchOptions, s: State, i: nat)
    requires Shaped(s) && HooksSafe(o, s) && Enabled(s, Step(i))
    ensures HooksSafe(o, StepLane(o, s, i)) && Grows(s.store, StepLane(o, s, i).store)
  {
    var l := s.lanes[i];
    var s' := StepLane(o, s, i);
    if l.phase.pc.Leave? {
      HooksMoved(o, s, s', i);
    } else {
      var job := JobKey(i, |l.past|);
      CommandGrows(o.allowFailures, s.store, l.phase.pc, job, |l.todo|);
      CommandGuards(o.allowFailures, s.store, l.phase.pc, job, |l.todo|);
      StepTokens(o, s, i);
      StepLocals(o, s, i);
    }
  }

  lemma StepTokens(o: BatchOptions, s: State, i: nat)
    requires Shaped(s) && HooksSafe(o, s) && Enabled(s, Step(i)) && !s.lanes[i].phase.pc.Leave?
    ensures Tokens(StepLane(o, s, i))
  {
    var l := s.lanes[i];
    var job := JobKey(i, |l.past|);
    CommandCatch(o.allowFailures, s.store, l.phase.pc, job, |l.todo|);
    CommandThen(o.allowFailures, s.store, l.phase.pc, job, |l.todo|);
    CommandFinally(o.allowFailures, s.store, l.phase.pc, job, |l.todo|);
    TokenMove(s, StepLane(o, s, i), i);
  }

  lemma StepLocals(o: BatchOptions, s: State, i: nat)
    requires Shaped(s) && HooksSafe(o, s) && Enabled(s, Step(i)) && !s.lanes[i].phase.pc.Leave?
    ensures LocalsHold(o, StepLane(o, s, i))
  {
    var l := s.lanes[i];
    var job := JobKey(i, |l.past|);
    var s' := StepLane(o, s, i);
    CommandGrows(o.allowFailures, s.store, l.phase.pc, job, |l.todo|);
    CommandLocals(o.allowFailures, s.store, l.phase.pc, job, |l.todo|);
    CommandClaims(o.allowFailures, s.store, l.phase.pc, job, |l.todo|);
    forall k | 0 <= k < |s'.lanes| && k != i && s'.lanes[k].phase.Active?
      ensures Locals(o.allowFailures, s'.store, s'.lanes[k].phase.pc)
    {
      LocalsStable(o.allowFailures, s.store, s'.store, s.lanes[k].phase.pc);
    }
  }

  lemma CommandClaims(allow: bool, r: Store, pc: Pc, job: JobKey, links: nat)
    requires !pc.Processing? && !pc.Leave?
    ensures Command(allow, r, pc, job, links).pc.WriteFinished?
            ==> Command(allow, r, pc, job, links).store.finishedGuard
  {
  }

  lemma HooksCancel(o: BatchOptions, s: State)
    requires HooksSafe(o, s)
    ensures HooksSafe(o, Apply(o, s, CancelBatch))
  {
    var s' := Apply(o, s, CancelBatch);
    forall k | 0 <= k < |s'.lanes| && s'.lanes[k].phase.Active?
      ensures Locals(o.allowFailures, s'.store, s'.lanes[k].phase.pc)
    {
      LocalsStable(o.allowFailures, s.store, s'.store, s.lanes[k].phase.pc);
    }
  }

  lemma HooksSafeStep(o: BatchOptions, s: State, a: Action)
    requires Shaped(s) && HooksSafe(o, s)
    ensures HooksSafe(o, Apply(o, s, a)) && Grows(s.store, Apply(o, s, a).store)
  {
    if Enabled(s, a) {
      match a
      case Step(i) => StepSafe(o, s, i);
      case CancelBatch => HooksCancel(o, s);
      case Enqueue => HooksMoved(o, s, Apply(o, s, a), s.next);
      case Pick(i) => HooksMoved(o, s, Apply(o, s, a), i);
      case Finish(i, outcome, at) => HooksMoved(o, s, Apply(o, s, a), i);
      case Retry(i) => HooksMoved(o, s, Apply(o, s, a), i);
    }
  }

  lemma FinallyPromiseStep(o: BatchOptions, s: State, i: nat)
    requires Shaped(s) && HooksSafe(o, s) && Enabled(s, Step(i)) && FinallyPromised(s)
    ensures FinallyPromised(StepLane(o, s, i))
  {
    var l := s.lanes[i];
    var s' := StepLane(o, s, i);
    StepSafe(o, s, i);
    if s'.store.pending - s'.store.failed <= 0 && !s'.store.finallyGuard {
      var job := JobKey(i, |l.past|);
      if s.store.pending - s.store.failed <= 0 {
        var k :| 0 <= k < |s.lanes| && s.lanes[k].phase.Active? && WillClaimFinally(s.store, s.lanes[k].phase.pc);
        if k == i {
          CommandPromise(o.allowFailures, s.store, l.phase.pc, job, |l.todo|);
          assert WillClaimFinally(s'.store, s'.lanes[i].phase.pc);
        } else {
          PromiseKept(s.store, s'.store, s.lanes[k].phase.pc);
          assert WillClaimFinally(s'.store, s'.lanes[k].phase.pc);
        }
      } else {
        CommandPromise(o.allowFailures, s.store, l.phase.pc, job, |l.todo|);
        assert WillClaimFinally(s'.store, s'.lanes[i].phase.pc);
      }
    }
  }

  lemma FinishedPromiseStep(o: BatchOptions, s: State, i: nat)
    requires Shaped(s) && HooksSafe(o, s) && Enabled(s, Step(i)) && FinishedPromised(s)
    ensures FinishedPromised(StepLane(o, s, i))
  {
    var l := s.lanes[i];
    var s' := StepLane(o, s, i);
    StepSafe(o, s, i);
    if s'.store.pending <= 0 && !s'.store.finishedGuard {
      var job := JobKey(i, |l.past|);
      if s.store.pending <= 0 {
        var k :| 0 <= k < |s.lanes| && s.lanes[k].phase.Active? && WillClaimFinished(s.lanes[k].phase.pc);
        if k == i {
          CommandFinish(o.allowFailures, s.store, l.phase.pc, job, |l.todo|);
          assert WillClaimFinished(s'.lanes[i].phase.pc);
        } else {
          assert WillClaimFinished(s'.lanes[k].phase.pc);
        }
      } else {
        CommandFinish(o.allowFailures, s.store, l.phase.pc, job, |l.todo|);
        assert WillClaimFinished(s'.lanes[i].phase.pc);
      }
    }
  }

  lemma PromisesStep(o: BatchOptions, s: State, a: Action)
    requires Shaped(s) && HooksSafe(o, s) && FinallyPromised(s) && FinishedPromised(s)
    ensures FinallyPromised(Apply(o, s, a)) && FinishedPromised(Apply(o, s, a))
  {
    if Enabled(s, a) {
      if a.Step? {
        FinallyPromiseStep(o, s, a.lane);
        FinishedPromiseStep(o, s, a.lane);
      } else {
        QuietStep(o, s, a);
      }
    }
  }

  /** The other actions move no counter, and the lane they move made no promise. */
  lemma QuietStep(o: BatchOptions, s: State, a: Action)
    requires Shaped(s) && Enabled(s, a) && !a.Step? && FinallyPromised(s) && FinishedPromised(s)
    ensures FinallyPromised(Apply(o, s, a)) && FinishedPromised(Apply(o, s, a))
  {
    var s' := Apply(o, s, a);
    var moved := match a case Enqueue => s.next case CancelBatch => |s.lanes| case _ => a.lane;
    assert forall k :: 0 <= k < |s.lanes| && k != moved ==> s'.lanes[k] == s.lanes[k];
    if s'.store.pending - s'.store.failed <= 0 && !s'.store.finallyGuard {
      var k :| 0 <= k < |s.lanes| && s.lanes[k].phase.Active? && WillClaimFinally(s.store, s.lanes[k].phase.pc);
      assert s'.lanes[k] == s.lanes[k] && WillClaimFinally(s'.store, s'.lanes[k].phase.pc);
    }
    if s'.store.pending <= 0 && !s'.store.finishedGuard {
      var k :| 0 <= k < |s.lanes| && s.lanes[k].phase.Active? && WillClaimFinished(s.lanes[k].phase.pc);
      assert s'.lanes[k] == s.lanes[k] && WillClaimFinished(s'.lanes[k].phase.pc);
    }
  }
}
