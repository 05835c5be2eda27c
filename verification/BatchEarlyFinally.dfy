/** Exactly which batches a manual retry can make `finally` early for. */
module BatchEarlyFinally {
  import opened BatchModel
  import opened BatchLedger
  import opened BatchHooks
  import opened BatchLives
  import opened BatchRuns
  import opened BatchEarly

  /** At most one entry has a job in it. */
  ghost predicate OneEntry(o: BatchOptions) {
    forall i, j :: 0 <= i < j < |o.entries| ==> o.entries[i] == [] || o.entries[j] == []
  }

  function FinallyClaimed(): Store -> bool { (r: Store) => r.finallyGuard }

  function FinallyRan(): Store -> bool { (r: Store) => r.finallyRuns > 0 }

  // ----- One entry: never early -----

  predicate HasHead(l: Lane) { l.phase.Waiting? || l.phase.Active? || l.phase.Failed? }

  /** With one entry the only lane that ever waits, runs or fails is the one with jobs. */
  lemma OnlyLane(o: BatchOptions, s: State, i: nat, k: nat)
    requires OneEntry(o) && SizesKept(o, s) && Shaped(s) && i < |s.lanes| && k < |s.lanes|
    requires HasHead(s.lanes[i]) && HasHead(s.lanes[k])
    ensures i == k
  {
    assert o.entries[i] != [] && o.entries[k] != [];
  }

  lemma OneFailed(o: BatchOptions, s: State, i: nat)
    requires OneEntry(o) && SizesKept(o, s) && Inv(o, s) && s.retries == 0
    requires i < |s.lanes| && s.lanes[i].phase == Failed
    ensures s.store.finallyRuns == 1
  {
    forall k | 0 <= k < |s.lanes| ensures Unsettled(s.lanes[k]) == 0 && FinallyToken(s.lanes[k]) == 0 {
      if Unsettled(s.lanes[k]) > 0 || FinallyToken(s.lanes[k]) > 0 {
        OneOwing(o, s, i, k);
      }
    }
    SumZero(Unsettled, s.lanes);
    SumZero(FinallyToken, s.lanes);
    SumSplit(s.lanes);
    TotalAtLeast(o.entries, i);
    if !s.store.finallyGuard {
      var k :| 0 <= k < |s.lanes| && s.lanes[k].phase.Active? && WillClaimFinally(s.store, s.lanes[k].phase.pc);
      OnlyLane(o, s, i, k);
      assert false;
    }
  }

  lemma OneOwing(o: BatchOptions, s: State, i: nat, k: nat)
    requires OneEntry(o) && SizesKept(o, s) && Shaped(s) && i < |s.lanes| && k < |s.lanes| && s.lanes[i].phase == Failed
    ensures Unsettled(s.lanes[k]) == 0 && FinallyToken(s.lanes[k]) == 0
  {
    if k != i {
      assert o.entries[i] != [] && o.entries[k] == [];
    }
  }

  lemma {:induction false} TotalAtLeast(entries: seq<seq<JobSpec>>, i: nat)
    requires i < |entries|
    ensures |entries[i]| <= Total(entries)
  {
    if i > 0 {
      TotalAtLeast(entries[1..], i - 1);
    }
  }

  lemma {:induction false} SizesHold(o: BatchOptions, run: seq<Action>)
    ensures SizesKept(o, Exec(o, run))
  {
    if run != [] {
      SizesHold(o, run[..|run| - 1]);
      SizesStep(o, Exec(o, run[..|run| - 1]), run[|run| - 1]);
    }
  }

  /** With one entry nothing is retried before `finally` has run. */
  lemma {:induction false} RetriedAfterFinally(o: BatchOptions, run: seq<Action>)
    requires OneEntry(o)
    ensures Exec(o, run).retries > 0 ==> Exec(o, run).store.finallyRuns == 1
  {
    if run != [] {
      var before, a := run[..|run| - 1], run[|run| - 1];
      var s := Exec(o, before);
      RetriedAfterFinally(o, before);
      Invariant(o, before);
      Invariant(o, run);
      SizesHold(o, before);
      RetriesStep(o, s, a);
      RunsKept(o, s, a);
      if s.retries == 0 && a.Retry? && Enabled(s, a) {
        OneFailed(o, s, a.lane);
      }
    }
  }

  lemma CommandRuns(allow: bool, r: Store, pc: Pc, job: JobKey, links: nat)
    requires !pc.Processing? && !pc.Leave?
    ensures Command(allow, r, pc, job, links).store.finallyRuns >= r.finallyRuns
  {
  }

  lemma RunsKept(o: BatchOptions, s: State, a: Action)
    ensures Apply(o, s, a).store.finallyRuns >= s.store.finallyRuns
    ensures a.Retry? ==> Apply(o, s, a).store == s.store
  {
    if Enabled(s, a) && a.Step? && !s.lanes[a.lane].phase.pc.Leave? {
      var l := s.lanes[a.lane];
      CommandRuns(o.allowFailures, s.store, l.phase.pc, JobKey(a.lane, |l.past|), |l.todo|);
    }
  }

  /** Then the counters were exact when `finally` was claimed, and when it was queued. */
  lemma OneEntryNeverEarly(o: BatchOptions, run: seq<Action>)
    requires OneEntry(o)
    ensures !Early(o, run, FinallyClaimed(), Unsettled) && !Early(o, run, FinallyRan(), Unsettled)
  {
    if run != [] {
      var before := run[..|run| - 1];
      var s, s' := Exec(o, before), Exec(o, run);
      Invariant(o, before);
      Invariant(o, run);
      RetriedAfterFinally(o, before);
      RetriesStep(o, s, run[|run| - 1]);
      RunsKept(o, s, run[|run| - 1]);
      SumSplit(s'.lanes);
    }
  }

  // ----- Two entries: a run that is early -----

  /** An action that leaves the head of lane `j` on its queue. */
  predicate Spares(a: Action, j: nat) { a != Pick(j) }

  /** A lane that is never picked up keeps all of its jobs. */
  lemma {:induction false} Untouched(o: BatchOptions, run: seq<Action>, j: nat)
    requires j < |o.entries| && o.entries[j] != [] && forall a :: a in run ==> Spares(a, j)
    ensures var s := Exec(o, run);
            && |s.lanes| == |o.entries| && s.lanes[j].todo == o.entries[j]
            && (s.lanes[j].phase == Held || s.lanes[j].phase == Waiting)
            && Unsettled(s.lanes[j]) == |o.entries[j]|
  {
    if run != [] {
      var before, a := run[..|run| - 1], run[|run| - 1];
      assert a in run && forall b :: b in before ==> b in run;
      Untouched(o, before, j);
      UntouchedStep(o, Exec(o, before), a, j);
    }
  }

  lemma UntouchedStep(o: BatchOptions, s: State, a: Action, j: nat)
    requires j < |s.lanes| && |s.lanes[j].todo| > 0 && (s.lanes[j].phase == Held || s.lanes[j].phase == Waiting)
            && Spares(a, j)
    ensures var s' := Apply(o, s, a);
            && |s'.lanes| == |s.lanes| && s'.lanes[j].todo == s.lanes[j].todo
            && (s'.lanes[j].phase == Held || s'.lanes[j].phase == Waiting)
  {
  }

  /** Everything but lane `j` is at its end. */
  predicate DoneBut(s: State, j: nat) {
    s.next == |s.lanes| && forall k :: 0 <= k < |s.lanes| && k != j ==> Ended(s.lanes[k])
  }

  lemma SomethingElse(s: State, j: nat) returns (a: Action)
    requires Shaped(s) && s.next == |s.lanes| && !DoneBut(s, j)
    ensures Enabled(s, a) && Spares(a, j) && !a.CancelBatch? && !a.Retry? && !a.Enqueue? && a.lane != j
  {
    var k :| 0 <= k < |s.lanes| && k != j && !Ended(s.lanes[k]);
    a := if s.lanes[k].phase == Waiting then Pick(k)
         else if s.lanes[k].phase == Active(Processing) then Finish(k, Returns, 0)
         else Step(k);
  }

  lemma OtherLane(o: BatchOptions, s: State, a: Action, j: nat)
    requires Enabled(s, a) && !a.CancelBatch? && !a.Retry? && !a.Enqueue? && a.lane != j && j < |s.lanes|
    ensures Apply(o, s, a).next == s.next && |Apply(o, s, a).lanes| == |s.lanes|
            && Apply(o, s, a).lanes[j] == s.lanes[j]
  {
  }

  /** The handlers of the other lanes alone take them to their ends. */
  lemma {:induction false} OthersRunOut(o: BatchOptions, s: State, j: nat) returns (more: seq<Action>)
    requires Shaped(s) && LivesOk(s) && s.next == |s.lanes| && j < |s.lanes|
    ensures forall a :: a in more ==> Spares(a, j) && !a.Retry?
    ensures DoneBut(Continue(o, s, more), j)
    ensures |Continue(o, s, more).lanes| == |s.lanes| && Continue(o, s, more).lanes[j] == s.lanes[j]
    decreases Sum(Work, s.lanes), Sum(Refs, s.lanes)
  {
    if DoneBut(s, j) {
      more := [];
    } else {
      var a := SomethingElse(s, j);
      EveryStepDescends(o, s, a);
      ShapedStep(o, s, a);
      LivesStep(o, s, a);
      OtherLane(o, s, a, j);
      var rest := OthersRunOut(o, Apply(o, s, a), j);
      more := [a] + rest;
      assert more[1..] == rest;
    }
  }

  /** With one retry that reopened enough links, the counters say the batch is settled. */
  lemma SettledButOne(o: BatchOptions, s: State, j: nat)
    requires Inv(o, s) && Total(o.entries) > 0 && j < |s.lanes| && DoneBut(s, j) && s.lanes[j].phase == Waiting
    requires |s.lanes[j].todo| <= s.retries + s.reopened
    ensures s.store.finallyGuard && s.store.finallyRuns == 1
  {
    forall k | 0 <= k < |s.lanes|
      ensures FinallyToken(s.lanes[k]) == 0 && (k != j ==> Unsettled(s.lanes[k]) == 0) && !s.lanes[k].phase.Active?
    {
      assert k != j ==> Ended(s.lanes[k]);
    }
    SumOnly(Unsettled, s.lanes, j);
    SumZero(FinallyToken, s.lanes);
    SumSplit(s.lanes);
    assert s.store.pending - s.store.failed <= 0;
  }

  /** Every entry is queued, and the head of lane `i` has failed once and been retried. */
  lemma RetriedRun(o: BatchOptions, i: nat, j: nat) returns (run: seq<Action>)
    requires i < |o.entries| && |o.entries[i]| > 0 && i != j
    ensures forall a :: a in run ==> Spares(a, j)
    ensures var s := Exec(o, run);
            && s.next == |s.lanes| == |o.entries| && s.retries + s.reopened == |o.entries[i]|
            && (j < |o.entries| ==> s.lanes[j] == Fresh(o.entries[j], true))
  {
    var start := QueuesAll(o, |o.entries|);
    var s := Exec(o, start);
    assert s.lanes[i] == Fresh(o.entries[i], true);
    var round := FailsAndRetries(o, s, i);
    run := start + round;
    ExecContinues(o, start, round);
  }

  /** Fails and retries the head of lane `i`, then lets every lane but `j` end. */
  lemma EarlyRun(o: BatchOptions, i: nat, j: nat) returns (run: seq<Action>)
    requires i < |o.entries| && j < |o.entries| && i != j && 0 < |o.entries[j]| <= |o.entries[i]|
    ensures forall a :: a in run ==> Spares(a, j)
    ensures Exec(o, run).store.finallyGuard && Exec(o, run).store.finallyRuns == 1
  {
    var start := RetriedRun(o, i, j);
    Invariant(o, start);
    var rest := OthersRunOut(o, Exec(o, start), j);
    RetriesKept(o, Exec(o, start), rest);
    run := start + rest;
    ExecContinues(o, start, rest);
    Invariant(o, run);
    TotalAtLeast(o.entries, j);
    SettledButOne(o, Exec(o, run), j);
  }

  lemma TwoEntriesEarly(o: BatchOptions, i: nat, j: nat, done: Store -> bool) returns (run: seq<Action>)
    requires i < |o.entries| && j < |o.entries| && i != j && 0 < |o.entries[j]| <= |o.entries[i]|
    requires done == FinallyClaimed() || done == FinallyRan()
    ensures Early(o, run, done, Unsettled)
  {
    var whole := EarlyRun(o, i, j);
    assert [] + whole == whole;
    var n := FindStep(o, [], whole, done);
    assert forall a :: a in whole[..n] ==> a in whole;
    assert [] + whole[..n] == whole[..n];
    Untouched(o, whole[..n], j);
    EarlyAt(o, [], whole, n, done, Unsettled, j);
    run := [] + whole[..n];
  }

  lemma SomeEarly(o: BatchOptions, done: Store -> bool)
    requires !OneEntry(o) && (done == FinallyClaimed() || done == FinallyRan())
    ensures exists run :: Early(o, run, done, Unsettled)
  {
    var i, j :| 0 <= i < j < |o.entries| && o.entries[i] != [] && o.entries[j] != [];
    if |o.entries[j]| <= |o.entries[i]| {
      var run := TwoEntriesEarly(o, i, j, done);
    } else {
      var run := TwoEntriesEarly(o, j, i, done);
    }
  }

  /** A batch has a run, with manual retries, in which `finally` is claimed while a job is unsettled exactly
    * when two of its entries have jobs; and the same goes for the step that queues it.
    */
  lemma FinallyEarlyExactly(o: BatchOptions)
    ensures (exists run :: Early(o, run, FinallyClaimed(), Unsettled)) <==> !OneEntry(o)
    ensures (exists run :: Early(o, run, FinallyRan(), Unsettled)) <==> !OneEntry(o)
  {
    if OneEntry(o) {
      forall run ensures !Early(o, run, FinallyClaimed(), Unsettled) && !Early(o, run, FinallyRan(), Unsettled) {
        OneEntryNeverEarly(o, run);
      }
    } else {
      SomeEarly(o, FinallyClaimed());
      SomeEarly(o, FinallyRan());
    }
  }
}
