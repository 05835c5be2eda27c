/** Exactly which batches a manual retry can make `then` early for. */
module BatchEarlyThen {
  import opened BatchModel
  import opened BatchLedger
  import opened BatchHooks
  import opened BatchLives
  import opened BatchRuns
  import opened BatchEarly
  import opened BatchEarlyFinally

  /** Some entry is a chain, and a retry of its head can get past the cancellation of the batch: failures
    * are allowed, or another entry can fail first and hold the cancellation up.
    */
  ghost predicate ThenAtRisk(o: BatchOptions) {
    exists i :: 0 <= i < |o.entries| && |o.entries[i]| > 1 && (o.allowFailures || Another(o, i))
  }

  ghost predicate Another(o: BatchOptions, i: nat) {
    exists j :: 0 <= j < |o.entries| && j != i && o.entries[j] != []
  }

  function ThenClaimed(): Store -> bool { (r: Store) => r.finishedGuard }

  function ThenRan(): Store -> bool { (r: Store) => r.thenRuns > 0 }

  // ----- Without that risk: never early -----

  lemma ChainFreeNeverEarly(o: BatchOptions, run: seq<Action>)
    requires ChainFree(o)
    ensures !Early(o, run, ThenClaimed(), Owed) && !Early(o, run, ThenRan(), Owed)
  {
    Invariant(o, run);
    ChainFreeRun(o, run);
  }

  /** A handler that is skipping the jobs of its lane. */
  predicate OnSkipPath(pc: Pc) {
    pc == CountSkipped || (pc.Decrement? && pc.after == Skipped) || StageOf(pc) == Landed(Skipped)
  }

  lemma SkipPathKept(allow: bool, r: Store, pc: Pc, job: JobKey, links: nat)
    requires !pc.Processing? && !pc.Leave? && (OnSkipPath(pc) || (pc == CheckCancelled && r.cancelled))
    ensures OnSkipPath(Command(allow, r, pc, job, links).pc)
  {
  }

  /** The lane can only be skipped from here on, given that the batch is cancelled. */
  predicate SkipsOut(l: Lane) {
    l.todo == [] || match l.phase
                    case Held => false
                    case Waiting => true
                    case Active(pc) => pc == CheckCancelled || OnSkipPath(pc)
                    case Completed => true
                    case Failed => false
  }

  predicate RetriedSkips(s: State) {
    s.retries > 0 ==> s.store.cancelled && forall k :: 0 <= k < |s.lanes| ==> SkipsOut(s.lanes[k])
  }

  /** The only lane of a batch that does not allow failures has failed: the batch is cancelled. */
  lemma FailedCancels(o: BatchOptions, s: State, i: nat)
    requires OneEntry(o) && !o.allowFailures && SizesKept(o, s) && Inv(o, s)
    requires i < |s.lanes| && s.lanes[i].phase == Failed
    ensures s.store.cancelled
  {
    forall k | 0 <= k < |s.lanes| ensures CatchToken(s.lanes[k]) == 0 {
      if s.lanes[k].phase.Active? {
        OnlyLane(o, s, i, k);
      }
    }
    SumZero(CatchToken, s.lanes);
    SumMember(FailedIn, s.lanes, i);
  }

  lemma RetryStarts(o: BatchOptions, s: State, i: nat)
    requires OneEntry(o) && !o.allowFailures && SizesKept(o, s) && Inv(o, s) && Enabled(s, Retry(i))
    ensures RetriedSkips(Apply(o, s, Retry(i)))
  {
    FailedCancels(o, s, i);
    var s' := Apply(o, s, Retry(i));
    forall k | 0 <= k < |s'.lanes| ensures SkipsOut(s'.lanes[k]) {
      assert o.entries[i] != [];
      assert k != i ==> o.entries[k] == [];
    }
  }

  lemma SkipsStepLane(o: BatchOptions, s: State, i: nat)
    requires Shaped(s) && Enabled(s, Step(i)) && s.store.cancelled && SkipsOut(s.lanes[i])
    ensures SkipsOut(StepLane(o, s, i).lanes[i]) && StepLane(o, s, i).store.cancelled
  {
    var l := s.lanes[i];
    if !l.phase.pc.Leave? {
      SkipPathKept(o.allowFailures, s.store, l.phase.pc, JobKey(i, |l.past|), |l.todo|);
      CommandGrows(o.allowFailures, s.store, l.phase.pc, JobKey(i, |l.past|), |l.todo|);
    }
  }

  lemma SkipsOn(o: BatchOptions, s: State, a: Action)
    requires Shaped(s) && s.store.cancelled && forall k :: 0 <= k < |s.lanes| ==> SkipsOut(s.lanes[k])
    ensures Apply(o, s, a).store.cancelled
    ensures forall k :: 0 <= k < |Apply(o, s, a).lanes| ==> SkipsOut(Apply(o, s, a).lanes[k])
  {
    if Enabled(s, a) && a.Step? {
      SkipsStepLane(o, s, a.lane);
    }
  }

  lemma {:induction false} RetriedRun(o: BatchOptions, run: seq<Action>)
    requires OneEntry(o) && !o.allowFailures
    ensures RetriedSkips(Exec(o, run))
  {
    if run != [] {
      var before, a := run[..|run| - 1], run[|run| - 1];
      var s := Exec(o, before);
      RetriedRun(o, before);
      Invariant(o, before);
      SizesHold(o, before);
      RetriesStep(o, s, a);
      if s.retries > 0 {
        SkipsOn(o, s, a);
      } else if a.Retry? && Enabled(s, a) {
        RetryStarts(o, s, a.lane);
      }
    }
  }

  predicate NewlyDone(r: Store, r': Store) {
    (!r.finishedGuard && r'.finishedGuard) || r'.thenRuns > r.thenRuns
  }

  lemma CommandDone(allow: bool, r: Store, pc: Pc, job: JobKey, links: nat)
    requires !pc.Processing? && !pc.Leave? && NewlyDone(r, Command(allow, r, pc, job, links).store)
    ensures pc.ClaimFinished? || pc.RunThen?
    ensures StageOf(Command(allow, r, pc, job, links).pc) == StageOf(pc)
  {
  }

  /** The step that claims or queues `then` is taken by a handler whose own jobs are accounted for. */
  lemma DoneBySkip(o: BatchOptions, s: State, a: Action) returns (i: nat)
    requires Shaped(s) && NewlyDone(s.store, Apply(o, s, a).store)
    requires forall k :: 0 <= k < |s.lanes| ==> SkipsOut(s.lanes[k])
    ensures i < |s.lanes| && s.lanes[i].phase.Active?
    ensures Owed(Apply(o, s, a).lanes[i]) == 0
  {
    i := a.lane;
    var l := s.lanes[i];
    CommandDone(o.allowFailures, s.store, l.phase.pc, JobKey(i, |l.past|), |l.todo|);
  }

  lemma OneEntryThen(o: BatchOptions, run: seq<Action>)
    requires OneEntry(o) && !o.allowFailures
    ensures !Early(o, run, ThenClaimed(), Owed) && !Early(o, run, ThenRan(), Owed)
  {
    if run != [] {
      var before, a := run[..|run| - 1], run[|run| - 1];
      var s, s' := Exec(o, before), Exec(o, run);
      Invariant(o, before);
      Invariant(o, run);
      RetriedRun(o, before);
      RetriesStep(o, s, a);
      if NewlyDone(s.store, s'.store) {
        RetryChangesNothing(o, s, a);
        if s.retries > 0 {
          var i := DoneBySkip(o, s, a);
          SizesHold(o, run);
          SizesHold(o, before);
          AllAccounted(o, s, s', i);
        }
      }
    }
  }

  lemma RetryChangesNothing(o: BatchOptions, s: State, a: Action)
    ensures a.Retry? ==> Apply(o, s, a).store == s.store
  {
  }

  lemma AllAccounted(o: BatchOptions, s: State, s': State, i: nat)
    requires OneEntry(o) && SizesKept(o, s) && SizesKept(o, s') && Shaped(s) && Shaped(s')
    requires i < |s.lanes| == |s'.lanes| && s.lanes[i].phase.Active? && Owed(s'.lanes[i]) == 0
    ensures Sum(Owed, s'.lanes) == 0
  {
    forall k | 0 <= k < |s'.lanes| ensures Owed(s'.lanes[k]) == 0 {
      assert o.entries[i] != [];
      assert k != i ==> o.entries[k] == [];
    }
    SumZero(Owed, s'.lanes);
  }

  lemma NeverEarly(o: BatchOptions, run: seq<Action>)
    requires !ThenAtRisk(o)
    ensures !Early(o, run, ThenClaimed(), Owed) && !Early(o, run, ThenRan(), Owed)
  {
    if ChainFree(o) {
      ChainFreeNeverEarly(o, run);
    } else {
      var i :| 0 <= i < |o.entries| && |o.entries[i]| > 1;
      forall a, b | 0 <= a < b < |o.entries| ensures o.entries[a] == [] || o.entries[b] == [] {
        assert !Another(o, i);
      }
      OneEntryThen(o, run);
    }
  }

  // ----- With it: a run that is early -----

  /** The handler will not cancel the batch. */
  predicate WillNotCancel(allow: bool, pc: Pc) {
    match pc
    case FailureRefs(f, _) => allow || f >= 2
    case FailureForget(f, _, _) => allow || f >= 2
    case PushRef(f, _) => allow || f >= 2
    case CancelRest(_) => false
    case _ => true
  }

  /** Lane `i` fails and is retried over and over in a batch that is not cancelled. */
  predicate Looping(o: BatchOptions, s: State, i: nat) {
    && i < |s.lanes| && |s.lanes[i].todo| > 0 && !s.store.cancelled && (o.allowFailures || s.store.failed > 0)
    && match s.lanes[i].phase
       case Held => true
       case Waiting => true
       case Active(pc) => pc == CheckCancelled || pc == Processing
           || (OnFailPath(pc) && WillNotCancel(o.allowFailures, pc))
       case Completed => false
       case Failed => true
  }

  lemma LoopingCommand(allow: bool, r: Store, pc: Pc, job: JobKey, links: nat)
    requires !pc.Processing? && !pc.Leave? && OnFailPath(pc) && WillNotCancel(allow, pc)
    requires !r.cancelled && (allow || r.failed > 0)
    ensures var t := Command(allow, r, pc, job, links);
            OnFailPath(t.pc) && WillNotCancel(allow, t.pc) && !t.store.cancelled && t.store.failed >= r.failed
  {
    FailPathKept(allow, r, pc, job, links);
  }

  lemma LoopingStep(o: BatchOptions, s: State, a: Action, i: nat)
    requires Looping(o, s, i) && OnLane(a, i)
    ensures Looping(o, Apply(o, s, a), i)
  {
    var l := s.lanes[i];
    if Enabled(s, a) && a.Step? && l.phase.pc != CheckCancelled && !l.phase.pc.Leave? {
      LoopingCommand(o.allowFailures, s.store, l.phase.pc, JobKey(i, |l.past|), |l.todo|);
    }
  }

  lemma LoopingOwes(o: BatchOptions, s: State, i: nat)
    requires Looping(o, s, i)
    ensures Owed(s.lanes[i]) > 0
  {
  }

  lemma {:induction false} LoopingOn(o: BatchOptions, s: State, more: seq<Action>, i: nat)
    requires Looping(o, s, i) && forall a :: a in more ==> OnLane(a, i)
    ensures Looping(o, Continue(o, s, more), i)
    decreases |more|
  {
    if more != [] {
      LoopingStep(o, s, more[0], i);
      LoopingOn(o, Apply(o, s, more[0]), more[1..], i);
    }
  }

  /** Any number of rounds, each of which reopens at least one link. */
  lemma {:induction false} Rounds(o: BatchOptions, s: State, i: nat, n: nat) returns (more: seq<Action>)
    requires Looping(o, s, i) && s.lanes[i] == Fresh(s.lanes[i].todo, true) && |s.lanes[i].todo| > 1
    ensures forall a :: a in more ==> OnLane(a, i)
    ensures Continue(o, s, more).lanes == s.lanes && Continue(o, s, more).reopened >= s.reopened + n
    decreases n
  {
    if n == 0 {
      more := [];
    } else {
      var round := FailsAndRetries(o, s, i);
      var s' := Continue(o, s, round);
      LoopingOn(o, s, round, i);
      var rest := Rounds(o, s', i, n - 1);
      more := round + rest;
      ContinueJoins(o, s, round, rest);
    }
  }

  /** With enough links reopened `pendingJobs` is at zero, and nobody is left to notice but those who have. */
  lemma ReopenedToZero(o: BatchOptions, s: State, s': State)
    requires Inv(o, s) && Inv(o, s') && Total(o.entries) > 0 && s.reopened == 0
    requires s'.lanes == s.lanes && s'.reopened >= Total(o.entries)
    requires forall k :: 0 <= k < |s.lanes| && s.lanes[k].phase.Active? ==> s.lanes[k].phase.pc.FailureRefs?
    ensures s'.store.finishedGuard && s'.store.thenRuns == 1
  {
    assert s'.store.pending <= 0;
    SumZero(ThenToken, s'.lanes);
  }

  /** Where the rounds can start: failures are allowed, or the first failure has not cancelled yet. */
  predicate Ready(o: BatchOptions, s: State, i: nat) {
    && Looping(o, s, i) && s.lanes[i] == Fresh(s.lanes[i].todo, true) && |s.lanes[i].todo| > 1
    && s.reopened == 0 && !s.store.finishedGuard && s.store.thenRuns == 0
    && forall k :: 0 <= k < |s.lanes| && s.lanes[k].phase.Active? ==> s.lanes[k].phase.pc.FailureRefs?
  }

  lemma RoundsEarly(o: BatchOptions, start: seq<Action>, i: nat, done: Store -> bool) returns (run: seq<Action>)
    requires Ready(o, Exec(o, start), i) && (done == ThenClaimed() || done == ThenRan())
    requires Total(o.entries) > 0
    ensures Early(o, run, done, Owed)
  {
    var s := Exec(o, start);
    var more := Rounds(o, s, i, Total(o.entries));
    ExecContinues(o, start, more);
    Invariant(o, start);
    Invariant(o, start + more);
    ReopenedToZero(o, s, Exec(o, start + more));
    var n := FindStep(o, start, more, done);
    assert forall a :: a in more[..n] ==> a in more;
    ExecContinues(o, start, more[..n]);
    LoopingOn(o, s, more[..n], i);
    LoopingOwes(o, Exec(o, start + more[..n]), i);
    EarlyAt(o, start, more, n, done, Owed, i);
    run := start + more[..n];
  }

  /** The head of lane `j` fails first; its handler is held up before it cancels the batch. */
  lemma FailsFirst(o: BatchOptions, s: State, j: nat) returns (more: seq<Action>)
    requires j < |s.lanes| && |s.lanes[j].todo| > 0 && s.lanes[j].phase == Waiting && s.store.failed == 0
            && !s.store.cancelled
    ensures var l, s' := s.lanes[j], Continue(o, s, more);
            && s'.store == s.store.(failed := 1) && s'.reopened == s.reopened && |s'.lanes| == |s.lanes|
            && (forall k :: 0 <= k < |s.lanes| && k != j ==> s'.lanes[k] == s.lanes[k])
            && s'.lanes[j].phase == Active(FailureRefs(1, 0))
  {
    var start := ThrowsHead(o, s, j);
    var thrown := Continue(o, s, start);
    more := start + ([Step(j)] + []);
    ContinueJoins(o, s, start, [Step(j)] + []);
    ContinueOne(o, thrown, Step(j), []);
  }

  lemma GetsReady(o: BatchOptions, i: nat) returns (start: seq<Action>)
    requires i < |o.entries| && |o.entries[i]| > 1 && (o.allowFailures || Another(o, i))
    ensures Ready(o, Exec(o, start), i)
  {
    start := QueuesAll(o, |o.entries|);
    var s := Exec(o, start);
    if !o.allowFailures {
      var j :| 0 <= j < |o.entries| && j != i && o.entries[j] != [];
      var first := FailsFirst(o, s, j);
      ExecContinues(o, start, first);
      start := start + first;
    }
  }

  lemma SomeThenEarly(o: BatchOptions, done: Store -> bool)
    requires ThenAtRisk(o) && (done == ThenClaimed() || done == ThenRan())
    ensures exists run :: Early(o, run, done, Owed)
  {
    var i :| 0 <= i < |o.entries| && |o.entries[i]| > 1 && (o.allowFailures || Another(o, i));
    var start := GetsReady(o, i);
    TotalAtLeast(o.entries, i);
    var run := RoundsEarly(o, start, i, done);
  }

  /** A batch has a run, with manual retries, in which `then` is claimed although some job has neither
    * succeeded nor been skipped, exactly when a chain of it can be retried before the batch is cancelled; and
    * the same goes for the step that queues it.
    */
  lemma ThenEarlyExactly(o: BatchOptions)
    ensures (exists run :: Early(o, run, ThenClaimed(), Owed)) <==> ThenAtRisk(o)
    ensures (exists run :: Early(o, run, ThenRan(), Owed)) <==> ThenAtRisk(o)
  {
    if ThenAtRisk(o) {
      SomeThenEarly(o, ThenClaimed());
      SomeThenEarly(o, ThenRan());
    } else {
      forall run ensures !Early(o, run, ThenClaimed(), Owed) && !Early(o, run, ThenRan(), Owed) {
        NeverEarly(o, run);
      }
    }
  }
}
