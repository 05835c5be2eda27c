/** Runs of the batch protocol put together by hand: queueing every entry, failing a job and retrying it,
  * and the step of a run at which something first happened.
  */
module BatchEarly {
  import opened Lists
  import opened BatchModel
  import opened BatchLedger
  import opened BatchHooks
  import opened BatchLives
  import opened BatchRuns

  /** The last action of a run makes `done` true of the store while some lane still has `open` jobs. */
  ghost predicate Early(o: BatchOptions, run: seq<Action>, done: Store -> bool, open: Lane -> nat) {
    && run != []
    && !done(Exec(o, run[..|run| - 1]).store)
    && done(Exec(o, run).store)
    && Sum(open, Exec(o, run).lanes) > 0
  }

  /** Whatever became true during `more` became true at one action of it. */
  lemma {:induction false} FindStep(o: BatchOptions, run: seq<Action>, more: seq<Action>, done: Store -> bool)
      returns (n: nat)
    requires !done(Exec(o, run).store) && done(Exec(o, run + more).store)
    ensures 0 < n <= |more|
    ensures !done(Exec(o, run + more[..n - 1]).store) && done(Exec(o, run + more[..n]).store)
    decreases |more|
  {
    assert run + [] == run;
    if more == [] {
      assert false;
    }
    var last := |more| - 1;
    assert more[..|more|] == more;
    if done(Exec(o, run + more[..last]).store) {
      n := FindStep(o, run, more[..last], done);
      assert more[..last][..n] == more[..n] && more[..last][..n - 1] == more[..n - 1];
    } else {
      n := |more|;
    }
  }

  lemma EarlyAt(o: BatchOptions, run: seq<Action>, more: seq<Action>, n: nat, done: Store -> bool, open: Lane -> nat,
                k: nat)
    requires 0 < n <= |more|
    requires !done(Exec(o, run + more[..n - 1]).store) && done(Exec(o, run + more[..n]).store)
    requires k < |Exec(o, run + more[..n]).lanes| && open(Exec(o, run + more[..n]).lanes[k]) > 0
    ensures Early(o, run + more[..n], done, open)
  {
    var early := run + more[..n];
    assert early[..|early| - 1] == run + more[..n - 1];
    SumMember(open, Exec(o, early).lanes, k);
  }

  /** A sum over lanes of which all but one count for nothing. */
  lemma {:induction false} SumOnly(f: Lane -> nat, lanes: seq<Lane>, i: nat)
    requires i < |lanes| && forall k :: 0 <= k < |lanes| && k != i ==> f(lanes[k]) == 0
    ensures Sum(f, lanes) == f(lanes[i])
  {
    if i == 0 {
      assert forall k :: 0 <= k < |lanes[1..]| ==> lanes[1..][k] == lanes[k + 1];
      SumZero(f, lanes[1..]);
    } else {
      assert forall k :: 0 <= k < |lanes[1..]| ==> lanes[1..][k] == lanes[k + 1];
      SumOnly(f, lanes[1..], i - 1);
    }
  }

  lemma {:induction false} ContinueJoins(o: BatchOptions, s: State, a: seq<Action>, b: seq<Action>)
    ensures Continue(o, s, a + b) == Continue(o, Continue(o, s, a), b)
    decreases |a|
  {
    if a == [] {
      assert a + b == b;
    } else {
      assert (a + b)[1..] == a[1..] + b;
      ContinueJoins(o, Apply(o, s, a[0]), a[1..], b);
    }
  }

  lemma {:induction false} RetriesKept(o: BatchOptions, s: State, more: seq<Action>)
    requires forall a :: a in more ==> !a.Retry?
    ensures Continue(o, s, more).retries == s.retries && Continue(o, s, more).reopened == s.reopened
    decreases |more|
  {
    if more != [] {
      RetriesStep(o, s, more[0]);
      RetriesKept(o, Apply(o, s, more[0]), more[1..]);
    }
  }

  // ----- Queueing every entry -----

  function Fresh(todo: seq<JobSpec>, queued: bool): Lane {
    Lane(todo, [], if !queued then Held else if todo == [] then Completed else Waiting, 0, 0, 0)
  }

  predicate Queued(o: BatchOptions, s: State, n: nat) {
    && s.store == Store(Total(o.entries), 0, 0, false, false, false, false, [], 0, 0, 0)
    && |s.lanes| == |o.entries| && s.next == n && s.retries == 0 && s.reopened == 0
    && forall k :: 0 <= k < |s.lanes| ==> s.lanes[k] == Fresh(o.entries[k], k < n)
  }

  lemma {:induction false} QueuesAll(o: BatchOptions, n: nat) returns (run: seq<Action>)
    requires n <= |o.entries|
    ensures Queued(o, Exec(o, run), n) && forall a :: a in run ==> a == Enqueue
  {
    if n == 0 {
      run := [];
    } else {
      var earlier := QueuesAll(o, n - 1);
      run := earlier + [Enqueue];
      ExecNext(o, earlier, Enqueue);
      QueuesOne(o, Exec(o, earlier), n - 1);
    }
  }

  lemma QueuesOne(o: BatchOptions, s: State, n: nat)
    requires n < |o.entries| && Queued(o, s, n)
    ensures Queued(o, Apply(o, s, Enqueue), n + 1)
  {
  }

  // ----- Failing the head of a lane and retrying it -----

  /** A handler that is recording a failure. */
  predicate OnFailPath(pc: Pc) { pc.IncrementFailed? || FailedAt(pc) }

  lemma FailPathKept(allow: bool, r: Store, pc: Pc, job: JobKey, links: nat)
    requires !pc.Processing? && !pc.Leave? && OnFailPath(pc)
    ensures OnFailPath(Command(allow, r, pc, job, links).pc)
  {
  }

  /** An action on lane `i` that neither completes nor skips its head. */
  predicate OnLane(a: Action, i: nat) {
    a == Pick(i) || a == Step(i) || a == Retry(i) || (a.Finish? && a.lane == i && a.outcome == Throws(true))
  }

  /** A handler on that path, run on its own, fails its job for good. */
  lemma {:induction false} FailsOut(o: BatchOptions, s: State, i: nat) returns (more: seq<Action>)
    requires i < |s.lanes| && |s.lanes[i].todo| > 0 && s.lanes[i].phase.Active? && OnFailPath(s.lanes[i].phase.pc)
    ensures forall a :: a in more ==> a == Step(i)
    ensures var s' := Continue(o, s, more);
            && s'.lanes == s.lanes[i := s.lanes[i].(phase := Failed, made := s.lanes[i].made + 1)]
            && s'.next == s.next
    decreases PcRank(s.lanes[i].phase.pc), Refs(s.lanes[i])
  {
    var l := s.lanes[i];
    var s' := Apply(o, s, Step(i));
    if l.phase.pc.Leave? {
      more := [Step(i)];
      assert more[1..] == [];
    } else {
      var job := JobKey(i, |l.past|);
      FailPathKept(o.allowFailures, s.store, l.phase.pc, job, |l.todo|);
      CommandRank(o.allowFailures, s.store, l.phase.pc, job, |l.todo|);
      CommandEnters(o.allowFailures, s.store, l.phase.pc, job, |l.todo|);
      assert s'.lanes[i] == l.(phase := s'.lanes[i].phase);
      var rest := FailsOut(o, s', i);
      more := [Step(i)] + rest;
      assert more[1..] == rest;
    }
  }

  lemma ContinueOne(o: BatchOptions, s: State, a: Action, rest: seq<Action>)
    ensures Continue(o, s, [a] + rest) == Continue(o, Apply(o, s, a), rest)
  {
    assert ([a] + rest)[1..] == rest;
  }

  /** Picks up the waiting head of a lane, whose handler throws for good. */
  lemma ThrowsHead(o: BatchOptions, s: State, i: nat) returns (more: seq<Action>)
    requires i < |s.lanes| && |s.lanes[i].todo| > 0 && s.lanes[i].phase == Waiting && !s.store.cancelled
    ensures forall a :: a in more ==> OnLane(a, i) && !a.Retry?
    ensures var l := s.lanes[i];
            Continue(o, s, more)
            == s.(lanes := s.lanes[i := Lane(l.todo, l.past, Active(IncrementFailed(0)),
                                             l.made, l.started + 1, l.settles + 1)])
  {
    var l := s.lanes[i];
    var picked := s.(lanes := s.lanes[i := l.(phase := Active(CheckCancelled), started := l.started + 1)]);
    var begun := s.(lanes := s.lanes[i := l.(phase := Active(Processing), started := l.started + 1)]);
    var ends := Finish(i, Throws(true), 0);
    assert Apply(o, s, Pick(i)) == picked;
    assert Apply(o, picked, Step(i)) == begun;
    more := [Pick(i)] + ([Step(i)] + ([ends] + []));
    ContinueOne(o, s, Pick(i), [Step(i)] + ([ends] + []));
    ContinueOne(o, picked, Step(i), [ends] + []);
    ContinueOne(o, begun, ends, []);
  }

  /** Picks up the waiting head of a lane and fails it. */
  lemma FailsHead(o: BatchOptions, s: State, i: nat) returns (more: seq<Action>)
    requires i < |s.lanes| && |s.lanes[i].todo| > 0 && s.lanes[i].phase == Waiting && !s.store.cancelled
    ensures forall a :: a in more ==> OnLane(a, i) && !a.Retry?
    ensures var l, s' := s.lanes[i], Continue(o, s, more);
            && s'.lanes == s.lanes[i := Lane(l.todo, l.past, Failed, l.made + 1, l.started + 1, l.settles + 1)]
            && s'.next == s.next
  {
    var start := ThrowsHead(o, s, i);
    var rest := FailsOut(o, Continue(o, s, start), i);
    more := start + rest;
    ContinueJoins(o, s, start, rest);
  }

  /** Fails the head of a lane nobody has touched, and retries it: the lanes are as before. */
  lemma FailsAndRetries(o: BatchOptions, s: State, i: nat) returns (more: seq<Action>)
    requires i < |s.lanes| && |s.lanes[i].todo| > 0 && s.lanes[i] == Fresh(s.lanes[i].todo, true) && !s.store.cancelled
    ensures forall a :: a in more ==> OnLane(a, i)
    ensures var s' := Continue(o, s, more);
            && s'.lanes == s.lanes && s'.next == s.next
            && s'.retries == s.retries + 1 && s'.reopened == s.reopened + |s.lanes[i].todo| - 1
  {
    var first := FailsHead(o, s, i);
    var failed := Continue(o, s, first);
    RetriesKept(o, s, first);
    more := first + [Retry(i)];
    ContinueJoins(o, s, first, [Retry(i)]);
    assert [Retry(i)][1..] == [];
    assert Continue(o, failed, [Retry(i)]) == Apply(o, failed, Retry(i));
  }
}
