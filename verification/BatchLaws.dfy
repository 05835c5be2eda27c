/** What the runs say of single jobs: when a throw is a failure, in which order a chain runs, and where every
  * job of the batch went.
  */
module BatchLaws {
  import opened BatchModel
  import opened BatchLedger
  import opened BatchLives
  import opened BatchRuns
  import opened BatchEarly

  // ----- When a throw is a failure -----

  /** How the end of `process()` moves a lane, outcome by outcome. */
  predicate EndsAs(l: Lane, l': Lane, outcome: Outcome, at: nat)
    requires |l.todo| > 0
  {
    var spec := l.todo[0];
    var failing := l.(phase := Active(IncrementFailed(at)), settles := l.settles + 1);
    var thrown := if l.made + 1 < spec.attempts then l.(phase := Waiting, made := l.made + 1) else failing;
    && (outcome == Returns ==> l' == l.(phase := Active(SuccessRefs), settles := l.settles + 1))
    && (outcome == Releases && l.started - l.made - 1 < spec.cap ==> l' == l.(phase := Waiting))
    && (outcome == Releases && l.started - l.made - 1 >= spec.cap ==> l' == thrown)
    && (outcome == Throws(false) ==> l' == thrown)
    && (outcome == Throws(true) ==> l' == failing)
  }

  lemma FinishEnds(l: Lane, outcome: Outcome, at: nat)
    requires |l.todo| > 0
    ensures EndsAs(l, FinishLane(l, outcome, at), outcome, at)
  {
  }

  /** In every run a throw with attempts left puts the same job back and no more, and nothing else of the batch
    * moves when `process()` ends.
    */
  lemma Endings(o: BatchOptions, run: seq<Action>, i: nat, outcome: Outcome, at: nat)
    requires i < |Exec(o, run).lanes| && |Exec(o, run).lanes[i].todo| > 0
    requires Exec(o, run).lanes[i].phase == Active(Processing)
    ensures |Exec(o, run + [Finish(i, outcome, at)]).lanes| == |Exec(o, run).lanes|
    ensures var s, s' := Exec(o, run), Exec(o, run + [Finish(i, outcome, at)]);
            s' == s.(lanes := s.lanes[i := s'.lanes[i]]) && EndsAs(s.lanes[i], s'.lanes[i], outcome, at)
  {
    ExecNext(o, run, Finish(i, outcome, at));
    FinishEnds(Exec(o, run).lanes[i], outcome, at);
  }

  predicate NothingUnrecoverable(run: seq<Action>) {
    forall a :: a in run && a.Finish? ==> a.outcome != Throws(true)
  }

  /** All attempts of the head of the lane, of which there is at least one, are spent if it fails. */
  predicate Spent(l: Lane) {
    |l.todo| > 0 ==>
      var attempts := if l.todo[0].attempts == 0 then 1 else l.todo[0].attempts;
      && (l.phase == Failed ==> l.made == attempts)
      && (l.phase.Active? && OnFailPath(l.phase.pc) ==> l.made + 1 == attempts)
  }

  lemma SpentCommand(allow: bool, r: Store, pc: Pc, job: JobKey, links: nat)
    requires !pc.Processing? && !pc.Leave?
    ensures OnFailPath(Command(allow, r, pc, job, links).pc) ==> OnFailPath(pc)
  {
  }

  lemma SpentFinish(l: Lane, outcome: Outcome, at: nat)
    requires LifeOk(l) && l.phase == Active(Processing) && outcome != Throws(true)
    ensures Spent(FinishLane(l, outcome, at))
  {
  }

  lemma SpentLeave(l: Lane, after: After)
    requires |l.todo| > 0 && l.phase == Active(Leave(after)) && Spent(l)
    ensures Spent(LeaveLane(l, after))
  {
  }

  lemma SpentStep(o: BatchOptions, s: State, a: Action)
    requires Shaped(s) && LivesOk(s) && (a.Finish? ==> a.outcome != Throws(true))
    requires forall k :: 0 <= k < |s.lanes| ==> Spent(s.lanes[k])
    ensures forall k :: 0 <= k < |Apply(o, s, a).lanes| ==> Spent(Apply(o, s, a).lanes[k])
  {
    if Enabled(s, a) && a.Step? {
      var l := s.lanes[a.lane];
      if l.phase.pc.Leave? {
        SpentLeave(l, l.phase.pc.after);
      } else {
        SpentCommand(o.allowFailures, s.store, l.phase.pc, JobKey(a.lane, |l.past|), |l.todo|);
      }
    } else if Enabled(s, a) && a.Finish? {
      SpentFinish(s.lanes[a.lane], a.outcome, a.at);
    }
  }

  /** In every run in which nothing unrecoverable is thrown a job fails only with all of its attempts spent,
    * however many workers, releases, cancellations and manual retries there are.
    */
  lemma {:induction false} AttemptsSpent(o: BatchOptions, run: seq<Action>)
    requires NothingUnrecoverable(run)
    ensures forall k :: 0 <= k < |Exec(o, run).lanes| ==> Spent(Exec(o, run).lanes[k])
  {
    if run != [] {
      var before, a := run[..|run| - 1], run[|run| - 1];
      assert a in run && forall b :: b in before ==> b in run;
      AttemptsSpent(o, before);
      Invariant(o, before);
      SpentStep(o, Exec(o, before), a);
    }
  }

  // ----- What a cancel does -----

  /** From a cancel on, whatever happens, the batch stays cancelled and finished. */
  lemma {:induction false} CancelStays(o: BatchOptions, run: seq<Action>)
    requires CancelBatch in run
    ensures Exec(o, run).store.cancelled && Exec(o, run).store.finished
  {
    var before, a := run[..|run| - 1], run[|run| - 1];
    assert run == before + [a];
    if a != CancelBatch {
      CancelStays(o, before);
      StoreGrows(o, before, [a]);
    }
  }

  lemma ReadsCancelled(o: BatchOptions, s: State, i: nat)
    requires i < |s.lanes| && |s.lanes[i].todo| > 0 && s.store.cancelled && s.lanes[i].phase == Active(CheckCancelled)
    ensures Apply(o, s, Step(i))
            == s.(lanes := s.lanes[i := s.lanes[i].(phase := Active(CountSkipped), settles := s.lanes[i].settles + 1)])
  {
  }

  lemma CountsSkipped(o: BatchOptions, s: State, i: nat)
    requires i < |s.lanes| && |s.lanes[i].todo| > 0 && s.lanes[i].phase == Active(CountSkipped)
    ensures var l, s' := s.lanes[i], Apply(o, s, Step(i));
            && s'.lanes == s.lanes[i := l.(phase := Active(Decrement(|l.todo|, Skipped)))]
            && s'.store == s.store.(skipped := s.store.skipped + |l.todo|)
  {
  }

  /** So a handler that has yet to read the flag skips its job, and the whole chain behind it. */
  lemma CancelBars(o: BatchOptions, run: seq<Action>, i: nat)
    requires CancelBatch in run && i < |Exec(o, run).lanes| && |Exec(o, run).lanes[i].todo| > 0
    requires Exec(o, run).lanes[i].phase == Active(CheckCancelled)
    ensures var s := Exec(o, run);
            var s' := Apply(o, Apply(o, s, Step(i)), Step(i));
            && |s'.lanes| == |s.lanes|
            && s'.lanes[i].todo == s.lanes[i].todo && s'.lanes[i].phase == Active(Decrement(|s.lanes[i].todo|, Skipped))
            && s'.store == s.store.(skipped := s.store.skipped + |s.lanes[i].todo|)
  {
    CancelStays(o, run);
    ReadsCancelled(o, Exec(o, run), i);
    CountsSkipped(o, Apply(o, Exec(o, run), Step(i)), i);
  }

  // ----- The order of a chain -----

  function Specs(past: seq<(JobSpec, Life)>): (specs: seq<JobSpec>)
    ensures |specs| == |past| && forall k :: 0 <= k < |past| ==> specs[k] == past[k].0
  {
    seq(|past|, k requires 0 <= k < |past| => past[k].0)
  }

  predicate InOrder(o: BatchOptions, s: State) {
    && |s.lanes| == |o.entries|
    && forall k :: 0 <= k < |s.lanes| ==> Specs(s.lanes[k].past) + s.lanes[k].todo == o.entries[k]
  }

  lemma LeaveInOrder(l: Lane, after: After)
    requires |l.todo| > 0
    ensures Specs(LeaveLane(l, after).past) + LeaveLane(l, after).todo == Specs(l.past) + l.todo
  {
    if after == Succeeded && |l.todo| > 1 {
      var l' := LeaveLane(l, after);
      assert Specs(l'.past) == Specs(l.past) + [l.todo[0]];
      assert l.todo == [l.todo[0]] + l'.todo;
    }
  }

  lemma InOrderStep(o: BatchOptions, s: State, a: Action)
    requires InOrder(o, s)
    ensures InOrder(o, Apply(o, s, a))
  {
    if Enabled(s, a) && a.Step? && s.lanes[a.lane].phase.pc.Leave? {
      LeaveInOrder(s.lanes[a.lane], s.lanes[a.lane].phase.pc.after);
    }
  }

  /** In every run the links a lane is done with and those it has left are its entry, link by link in order. */
  lemma {:induction false} LinksInOrder(o: BatchOptions, run: seq<Action>)
    ensures InOrder(o, Exec(o, run))
  {
    if run != [] {
      LinksInOrder(o, run[..|run| - 1]);
      InOrderStep(o, Exec(o, run[..|run| - 1]), run[|run| - 1]);
    }
  }

  // ----- Where every job went -----

  /** How many successes were recorded. */
  function Successes(log: seq<Record>): nat {
    if log == [] then 0 else (if log[0].Success? then 1 else 0) + Successes(log[1..])
  }

  lemma {:induction false} SuccessesAppend(log: seq<Record>, more: seq<Record>)
    ensures Successes(log + more) == Successes(log) + Successes(more)
  {
    if log == [] {
      assert log + more == more;
    } else {
      assert (log + more)[1..] == log[1..] + more;
      SuccessesAppend(log[1..], more);
    }
  }

  /** Links counted as skipped that are still in `pendingJobs`. */
  function SkippedAt(pc: Pc, links: nat): nat { if pc.Decrement? && pc.after == Skipped then links else 0 }

  function SkippedAhead(l: Lane): nat { if l.phase.Active? then SkippedAt(l.phase.pc, |l.todo|) else 0 }

  /** Links behind a failed one that were written off. */
  function WrittenAt(pc: Pc, links: nat): nat
    requires links > 0
  {
    if StageOf(pc) == Landed(Broken) then links - 1 else 0
  }

  function WrittenOff(l: Lane): nat {
    if l.todo == [] then 0
    else match l.phase
      case Failed => |l.todo| - 1
      case Active(pc) => WrittenAt(pc, |l.todo|)
      case _ => 0
  }

  /** Every job of the batch is pending, has succeeded, was skipped or was written off; retries put what they
    * reopen back without counting it as pending again.
    */
  predicate Accounted(o: BatchOptions, s: State) {
    Total(o.entries) + Sum(SkippedAhead, s.lanes)
    == s.store.pending + Successes(s.log) + s.store.skipped + Sum(WrittenOff, s.lanes) + s.reopened
  }

  predicate Accounts(r: Store, pc: Pc, t: Turn, links: nat)
    requires links > 0
  {
    t.store.pending + Successes(t.log) + t.store.skipped - SkippedAt(t.pc, links) + WrittenAt(t.pc, links)
    == r.pending + r.skipped - SkippedAt(pc, links) + WrittenAt(pc, links)
  }

  lemma DecrementAccounts(allow: bool, r: Store, pc: Pc, job: JobKey, links: nat)
    requires pc.Decrement? && links > 0 && PcShape(pc, links)
    ensures Accounts(r, pc, Command(allow, r, pc, job, links), links)
  {
  }

  lemma CommandAccounts(allow: bool, r: Store, pc: Pc, job: JobKey, links: nat)
    requires !pc.Processing? && !pc.Leave? && links > 0 && PcShape(pc, links)
    ensures Accounts(r, pc, Command(allow, r, pc, job, links), links)
  {
    if pc.Decrement? {
      DecrementAccounts(allow, r, pc, job, links);
    }
  }

  lemma AccountsMove(o: BatchOptions, s: State, s': State, i: nat)
    requires Accounted(o, s) && i < |s.lanes| == |s'.lanes| && s'.lanes == s.lanes[i := s'.lanes[i]]
    requires s'.store.pending + Successes(s'.log) + s'.store.skipped + s'.reopened
             - SkippedAhead(s'.lanes[i]) + WrittenOff(s'.lanes[i])
             == s.store.pending + Successes(s.log) + s.store.skipped + s.reopened
                - SkippedAhead(s.lanes[i]) + WrittenOff(s.lanes[i])
    ensures Accounted(o, s')
  {
    SumUpdate(SkippedAhead, s.lanes, i, s'.lanes[i]);
    SumUpdate(WrittenOff, s.lanes, i, s'.lanes[i]);
  }

  lemma AccountsTurn(o: BatchOptions, s: State, i: nat)
    requires Shaped(s) && Accounted(o, s) && Enabled(s, Step(i))
    ensures Accounted(o, StepLane(o, s, i))
  {
    var l := s.lanes[i];
    if !l.phase.pc.Leave? {
      CommandAccounts(o.allowFailures, s.store, l.phase.pc, JobKey(i, |l.past|), |l.todo|);
      SuccessesAppend(s.log, Command(o.allowFailures, s.store, l.phase.pc, JobKey(i, |l.past|), |l.todo|).log);
    }
    AccountsMove(o, s, StepLane(o, s, i), i);
  }

  lemma AccountsStep(o: BatchOptions, s: State, a: Action)
    requires Shaped(s) && Accounted(o, s)
    ensures Accounted(o, Apply(o, s, a))
  {
    if Enabled(s, a) {
      match a
      case Step(i) => AccountsTurn(o, s, i);
      case CancelBatch =>
      case Enqueue => AccountsMove(o, s, Apply(o, s, a), s.next);
      case Pick(i) => AccountsMove(o, s, Apply(o, s, a), i);
      case Finish(i, _, _) => AccountsMove(o, s, Apply(o, s, a), i);
      case Retry(i) => AccountsMove(o, s, Apply(o, s, a), i);
    }
  }

  lemma AccountsInit(o: BatchOptions)
    ensures Accounted(o, Init(o))
  {
    var s := Init(o);
    forall k | 0 <= k < |s.lanes| ensures SkippedAhead(s.lanes[k]) == 0 && WrittenOff(s.lanes[k]) == 0 {
    }
    SumZero(SkippedAhead, s.lanes);
    SumZero(WrittenOff, s.lanes);
  }

  /** In every run, manual retries included, `skippedJobs` is what the other ways out of `pendingJobs` leave. */
  lemma {:induction false} EveryJobAccounted(o: BatchOptions, run: seq<Action>)
    ensures Accounted(o, Exec(o, run))
  {
    if run == [] {
      AccountsInit(o);
    } else {
      EveryJobAccounted(o, run[..|run| - 1]);
      Invariant(o, run[..|run| - 1]);
      AccountsStep(o, Exec(o, run[..|run| - 1]), run[|run| - 1]);
    }
  }

  /** When every handler is done: what is skipped is what neither succeeded, nor failed, nor was written off. */
  lemma SkippedAtTheEnd(o: BatchOptions, run: seq<Action>)
    requires Quiescent(Exec(o, run))
    ensures var s := Exec(o, run);
            s.store.skipped + Successes(s.log) + Sum(FailedIn, s.lanes) + Sum(WrittenOff, s.lanes) == Total(o.entries)
  {
    var s := Exec(o, run);
    EveryJobAccounted(o, run);
    PendingMeans(o, run);
    SumSplit(s.lanes);
    forall k | 0 <= k < |s.lanes| ensures SkippedAhead(s.lanes[k]) == 0 && Unsettled(s.lanes[k]) == 0 {
      assert Ended(s.lanes[k]);
    }
    SumZero(SkippedAhead, s.lanes);
    SumZero(Unsettled, s.lanes);
  }
}
