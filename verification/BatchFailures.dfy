/** What the failure list of a batch holds: every interleaving, manual retries included. */
module BatchFailures {
  import opened Lists
  import opened BatchModel
  import opened BatchLedger

  // ----- Filtering a list of references -----

  function Without(list: seq<FailedJobRef>, job: JobKey): seq<FailedJobRef> {
    Keep(list, (ref: FailedJobRef) => ref.job != job)
  }

  // ----- What the list should hold, read off the history -----

  function JobOf(record: Record): JobKey {
    match record
    case Failure(ref) => ref.job
    case Success(job) => job
  }

  /** The jobs whose last success-or-failure record is a failure, newest failure first. */
  function Listed(log: seq<Record>): seq<FailedJobRef> {
    if log == [] then [] else
    var older := Listed(log[..|log| - 1]);
    match log[|log| - 1]
    case Failure(ref) => [ref] + Without(older, ref.job)
    case Success(job) => Without(older, job)
  }

  /** The record at `k` is the last one its job has. */
  predicate LastOf(log: seq<Record>, k: nat) {
    k < |log| && forall m :: k < m < |log| ==> JobOf(log[m]) != JobOf(log[k])
  }

  predicate OncePerJob(list: seq<FailedJobRef>) {
    forall i, j :: 0 <= i < j < |list| ==> list[i].job != list[j].job
  }

  lemma {:induction false} KeepOnce(list: seq<FailedJobRef>, p: FailedJobRef -> bool)
    requires OncePerJob(list)
    ensures OncePerJob(Keep(list, p))
  {
    if list != [] {
      var rest := list[1..];
      assert forall i, j :: 0 <= i < j < |rest| ==> rest[i] == list[i + 1] && rest[j] == list[j + 1];
      KeepOnce(rest, p);
      forall ref | ref in Keep(rest, p) ensures ref.job != list[0].job {
        KeepIn(rest, p, ref);
      }
    }
  }

  lemma {:induction false} ListedOnce(log: seq<Record>)
    ensures OncePerJob(Listed(log))
  {
    if log != [] {
      var older := Listed(log[..|log| - 1]);
      var job := JobOf(log[|log| - 1]);
      ListedOnce(log[..|log| - 1]);
      KeepOnce(older, (ref: FailedJobRef) => ref.job != job);
      forall ref | ref in Without(older, job) ensures ref.job != job {
        KeepIn(older, (ref: FailedJobRef) => ref.job != job, ref);
      }
    }
  }

  ghost predicate LastFailure(log: seq<Record>, ref: FailedJobRef) {
    exists k :: 0 <= k < |log| && log[k] == Failure(ref) && LastOf(log, k)
  }

  lemma LastFailureGrows(log: seq<Record>, ref: FailedJobRef)
    requires log != []
    ensures var older, last := log[..|log| - 1], log[|log| - 1];
            LastFailure(log, ref) <==> last == Failure(ref) || (JobOf(last) != ref.job && LastFailure(older, ref))
  {
    var n := |log| - 1;
    var older := log[..n];
    if log[n] == Failure(ref) {
      assert LastOf(log, n);
    } else if JobOf(log[n]) != ref.job && LastFailure(older, ref) {
      var k :| 0 <= k < |older| && older[k] == Failure(ref) && LastOf(older, k);
      assert log[k] == Failure(ref) && LastOf(log, k);
    }
    if LastFailure(log, ref) && log[n] != Failure(ref) {
      var k :| 0 <= k < |log| && log[k] == Failure(ref) && LastOf(log, k);
      assert older[k] == Failure(ref) && LastOf(older, k);
    }
  }

  /** A reference is listed exactly when it is the last record of its job. */
  lemma {:induction false} ListedIsLastFailures(log: seq<Record>, ref: FailedJobRef)
    ensures ref in Listed(log) <==> LastFailure(log, ref)
  {
    if log != [] {
      var older := log[..|log| - 1];
      var job := JobOf(log[|log| - 1]);
      ListedIsLastFailures(older, ref);
      LastFailureGrows(log, ref);
      KeepIn(Listed(older), (other: FailedJobRef) => other.job != job, ref);
    }
  }

  /** Newest first: of two listed references, the earlier one was recorded later. */
  lemma {:induction false} ListedNewestFirst(log: seq<Record>, i: nat, j: nat, a: nat, b: nat)
    requires i < j < |Listed(log)| && a < |log| && b < |log|
    requires log[a] == Failure(Listed(log)[i]) && LastOf(log, a)
    requires log[b] == Failure(Listed(log)[j]) && LastOf(log, b)
    ensures b < a
  {
    var n := |log| - 1;
    var older := log[..n];
    var job := JobOf(log[n]);
    ListedOnce(log);
    assert Listed(log)[0].job != Listed(log)[j].job;
    if a != n && b != n {
      var shift := if log[n].Failure? then 1 else 0;
      var i', j' := KeepOrder(Listed(older), (ref: FailedJobRef) => ref.job != job, i - shift, j - shift);
      assert LastOf(older, a) && LastOf(older, b);
      ListedNewestFirst(older, i', j', a, b);
    }
  }

  lemma {:induction false} KeepOrder(list: seq<FailedJobRef>, p: FailedJobRef -> bool, i: nat, j: nat)
      returns (i': nat, j': nat)
    requires i < j < |Keep(list, p)|
    ensures i' < j' < |list| && list[i'] == Keep(list, p)[i] && list[j'] == Keep(list, p)[j]
  {
    if p(list[0]) && i == 0 {
      i' := 0;
      KeepIn(list[1..], p, Keep(list, p)[j]);
      assert Keep(list, p)[j] == Keep(list[1..], p)[j - 1];
      j' :| 0 < j' < |list| && list[j'] == Keep(list, p)[j];
    } else {
      var shift := if p(list[0]) then 1 else 0;
      var a, b := KeepOrder(list[1..], p, i - shift, j - shift);
      i', j' := a + 1, b + 1;
    }
  }

  // ----- The list in Redis -----

  /** Between removing a job's old reference and landing its new record. */
  predicate Moving(l: Lane) {
    l.phase.Active? && match l.phase.pc
                       case PushRef(_, _) => true
                       case Decrement(_, after) => after == Succeeded
                       case _ => false
  }

  predicate Shown(lanes: seq<Lane>, ref: FailedJobRef) {
    ref.job.lane < |lanes| && !Moving(lanes[ref.job.lane])
  }

  function Visible(list: seq<FailedJobRef>, lanes: seq<Lane>): seq<FailedJobRef> {
    Keep(list, (ref: FailedJobRef) => Shown(lanes, ref))
  }

  /** A listed job is the head of its lane, and has not succeeded since. */
  predicate RefsCurrent(s: State) {
    forall ref :: ref in Listed(s.log) ==>
      && ref.job.lane < |s.lanes|
      && ref.job.link == |s.lanes[ref.job.lane].past|
      && (s.lanes[ref.job.lane].phase.Active? ==> StageOf(s.lanes[ref.job.lane].phase.pc) != Landed(Succeeded))
  }

  predicate ForgetsOwn(s: State, k: nat)
    requires k < |s.lanes|
  {
    s.lanes[k].phase.Active? && (s.lanes[k].phase.pc.SuccessForget? || s.lanes[k].phase.pc.FailureForget?) ==>
      var refs := s.lanes[k].phase.pc.refs;
      |refs| == 1 && RefsOf(s.store.failures, JobKey(k, |s.lanes[k].past|)) == refs
  }

  predicate ListInv(s: State) {
    && s.store.failures == Visible(Listed(s.log), s.lanes)
    && RefsCurrent(s)
    && forall k :: 0 <= k < |s.lanes| ==> ForgetsOwn(s, k)
  }

  // ----- One handler step -----

  /** A step by lane `i` that logs nothing and changes no link keeps every listed reference current. */
  lemma CurrentStep(s: State, s': State, i: nat)
    requires RefsCurrent(s) && i < |s.lanes| == |s'.lanes| && s'.log == s.log
    requires forall k :: 0 <= k < |s.lanes| && k != i ==> s'.lanes[k] == s.lanes[k]
    requires s'.lanes[i].past == s.lanes[i].past
    requires s'.lanes[i].phase.Active? && StageOf(s'.lanes[i].phase.pc) == Landed(Succeeded) ==>
               s.lanes[i].phase.Active? && StageOf(s.lanes[i].phase.pc) == Landed(Succeeded)
    ensures RefsCurrent(s')
  {
  }

  /** If the set of moving lanes and the history are unchanged, so is what the list shows. */
  lemma VisibleSame(list: seq<FailedJobRef>, lanes: seq<Lane>, lanes': seq<Lane>)
    requires |lanes| == |lanes'| && forall k :: 0 <= k < |lanes| ==> Moving(lanes[k]) == Moving(lanes'[k])
    ensures Visible(list, lanes) == Visible(list, lanes')
  {
    KeepSame(list, (ref: FailedJobRef) => Shown(lanes, ref), (ref: FailedJobRef) => Shown(lanes', ref));
  }

  /** An action that touches neither the list nor the history. */
  lemma ListQuiet(s: State, s': State, i: nat)
    requires ListInv(s) && i < |s.lanes| == |s'.lanes|
    requires forall k :: 0 <= k < |s.lanes| && k != i ==> s'.lanes[k] == s.lanes[k]
    requires s'.store.failures == s.store.failures && s'.log == s.log
    requires RefsCurrent(s')
    requires Moving(s'.lanes[i]) == Moving(s.lanes[i])
    requires ForgetsOwn(s', i)
    ensures ListInv(s')
  {
    VisibleSame(Listed(s.log), s.lanes, s'.lanes);
    forall k | 0 <= k < |s'.lanes| ensures ForgetsOwn(s', k) {
      if k != i {
        assert ForgetsOwn(s, k);
      }
    }
  }

  /** Removing or adding references of job `i` leaves those of every other job alone. */
  lemma OthersKeep(list: seq<FailedJobRef>, list': seq<FailedJobRef>, i: nat, job: JobKey)
    requires job.lane != i
    requires list' == list
             || (exists ref: FailedJobRef :: ref.job.lane == i && list' == Lrem(list, ref))
             || (exists ref: FailedJobRef :: ref.job.lane == i && list' == [ref] + list)
    ensures RefsOf(list', job) == RefsOf(list, job)
  {
    if list' != list {
      var mine := (ref: FailedJobRef) => ref.job == job;
      if ref: FailedJobRef :| ref.job.lane == i && list' == Lrem(list, ref) {
        KeepTwice(list, OtherThan(ref), mine, mine);
      } else {
        var ref: FailedJobRef :| ref.job.lane == i && list' == [ref] + list;
        assert list'[1..] == list;
      }
    }
  }

  lemma OthersForget(s: State, s': State, i: nat)
    requires ListInv(s) && i < |s.lanes| == |s'.lanes|
    requires forall k :: 0 <= k < |s.lanes| && k != i ==> s'.lanes[k] == s.lanes[k]
    requires s'.store.failures == s.store.failures
             || (exists ref: FailedJobRef :: ref.job.lane == i && s'.store.failures == Lrem(s.store.failures, ref))
             || (exists ref: FailedJobRef :: ref.job.lane == i && s'.store.failures == [ref] + s.store.failures)
    ensures forall k :: 0 <= k < |s'.lanes| && k != i ==> ForgetsOwn(s', k)
  {
    forall k | 0 <= k < |s'.lanes| && k != i ensures ForgetsOwn(s', k) {
      assert ForgetsOwn(s, k);
      OthersKeep(s.store.failures, s'.store.failures, i, JobKey(k, |s.lanes[k].past|));
    }
  }

  /** Of a list with one reference a job, LRANGE finds at most one for the job asked about. */
  lemma {:induction false} RefsOfOnce(list: seq<FailedJobRef>, job: JobKey)
    requires OncePerJob(list)
    ensures |RefsOf(list, job)| <= 1
  {
    if list != [] {
      var rest := list[1..];
      assert forall i, j :: 0 <= i < j < |rest| ==> rest[i] == list[i + 1] && rest[j] == list[j + 1];
      assert forall i :: 0 <= i < |rest| ==> rest[i] == list[i + 1];
      if list[0].job == job {
        KeepNone(rest, (ref: FailedJobRef) => ref.job == job);
      } else {
        RefsOfOnce(rest, job);
      }
    }
  }

  lemma VisibleOnce(s: State)
    requires ListInv(s)
    ensures OncePerJob(s.store.failures)
  {
    ListedOnce(s.log);
    KeepOnce(Listed(s.log), (ref: FailedJobRef) => Shown(s.lanes, ref));
  }

  /** The reference of job `i` leaves the list as lane `i` starts to move. */
  lemma HideOwn(s: State, lanes': seq<Lane>, i: nat)
    requires ListInv(s) && i < |s.lanes| == |lanes'|
    requires forall k :: 0 <= k < |s.lanes| && k != i ==> lanes'[k] == s.lanes[k]
    requires !Moving(s.lanes[i]) && Moving(lanes'[i])
    ensures var job := JobKey(i, |s.lanes[i].past|);
            && Visible(Listed(s.log), lanes') == Without(s.store.failures, job)
            && (RefsOf(s.store.failures, job) == [] ==> Visible(Listed(s.log), lanes') == s.store.failures)
  {
    var job := JobKey(i, |s.lanes[i].past|);
    var list := Listed(s.log);
    KeepTwice(list, (ref: FailedJobRef) => Shown(s.lanes, ref), (ref: FailedJobRef) => ref.job != job,
              (ref: FailedJobRef) => Shown(lanes', ref));
    if RefsOf(s.store.failures, job) == [] {
      forall ref | ref in s.store.failures ensures ref.job != job {
        KeepIn(s.store.failures, (other: FailedJobRef) => other.job == job, ref);
      }
      KeepAll(s.store.failures, (ref: FailedJobRef) => ref.job != job);
    }
  }

  /** With one reference a job, removing the one LRANGE found removes all of the job's. */
  lemma LremIsWithout(list: seq<FailedJobRef>, job: JobKey, ref: FailedJobRef)
    requires RefsOf(list, job) == [ref]
    ensures ref.job == job && Lrem(list, ref) == Without(list, job)
  {
    var mine := (other: FailedJobRef) => other.job == job;
    assert ref in RefsOf(list, job);
    KeepIn(list, mine, ref);
    forall other | other in list ensures (other != ref) == (other.job != job) {
      KeepIn(list, mine, other);
    }
    KeepSame(list, OtherThan(ref), (other: FailedJobRef) => other.job != job);
  }

  /** The steps of `forgetFailure`: reading the list, and removing the reference found. */
  lemma ForgetStep(o: BatchOptions, s: State, i: nat)
    requires Shaped(s) && ListInv(s) && Enabled(s, Step(i))
    requires var pc := s.lanes[i].phase.pc; pc.SuccessRefs? || pc.FailureRefs? || pc.SuccessForget? || pc.FailureForget?
    ensures ListInv(StepLane(o, s, i))
  {
    var l := s.lanes[i];
    var pc := l.phase.pc;
    var job := JobKey(i, |l.past|);
    var s' := StepLane(o, s, i);
    assert s'.log == s.log;
    assert ForgetsOwn(s, i);
    VisibleOnce(s);
    RefsOfOnce(s.store.failures, job);
    CurrentStep(s, s', i);
    if pc.SuccessRefs? || pc.FailureRefs? {
      if RefsOf(s.store.failures, job) == [] {
        HideOwn(s, s'.lanes, i);
        OthersForget(s, s', i);
      } else {
        ListQuiet(s, s', i);
      }
    } else {
      var ref := pc.refs[0];
      LremIsWithout(s.store.failures, job, ref);
      HideOwn(s, s'.lanes, i);
      OthersForget(s, s', i);
    }
  }

  lemma VisibleFirst(ref: FailedJobRef, list: seq<FailedJobRef>, lanes: seq<Lane>)
    requires Shown(lanes, ref)
    ensures Visible([ref] + list, lanes) == [ref] + Visible(list, lanes)
  {
    assert ([ref] + list)[1..] == list;
  }

  lemma ListedGrows(log: seq<Record>, record: Record)
    ensures record.Failure? ==> Listed(log + [record]) == [record.ref] + Without(Listed(log), record.ref.job)
    ensures record.Success? ==> Listed(log + [record]) == Without(Listed(log), record.job)
  {
    assert (log + [record])[..|log|] == log;
  }

  /** What a push does to the list, from what it does to the lane and to the history. */
  lemma PushedList(s: State, s': State, i: nat, ref: FailedJobRef)
    requires ListInv(s) && i < |s.lanes| == |s'.lanes| && s'.lanes == s.lanes[i := s'.lanes[i]]
    requires ref.job == JobKey(i, |s.lanes[i].past|) && s'.lanes[i].past == s.lanes[i].past
    requires s'.store.failures == [ref] + s.store.failures && Listed(s'.log) == [ref] + Without(Listed(s.log), ref.job)
    requires Moving(s.lanes[i]) && !Moving(s'.lanes[i]) && Counting(s'.lanes[i])
    ensures ListInv(s')
  {
    RevealOthers(s, s'.lanes, i);
    VisibleFirst(ref, Without(Listed(s.log), ref.job), s'.lanes);
    RefsAfter(s, s', i);
    OthersForget(s, s', i);
  }

  /** The failure of the lane's head is counted and its handler holds no references. */
  predicate Counting(l: Lane) {
    l.phase.Active? && StageOf(l.phase.pc) == Counted && !l.phase.pc.SuccessForget? && !l.phase.pc.FailureForget?
  }

  /** LPUSH: the new reference heads the list, and the old one was already gone. */
  lemma PushStep(o: BatchOptions, s: State, i: nat)
    requires Shaped(s) && ListInv(s) && Enabled(s, Step(i)) && s.lanes[i].phase.pc.PushRef?
    ensures ListInv(StepLane(o, s, i))
  {
    var l := s.lanes[i];
    var s' := StepLane(o, s, i);
    var ref := FailedJobRef(JobKey(i, |l.past|), l.phase.pc.at);
    ListedGrows(s.log, Failure(ref));
    PushedList(s, s', i, ref);
  }

  /** HINCRBY of a success: its reference was removed before, and now the history agrees. */
  lemma SuccessStep(o: BatchOptions, s: State, i: nat)
    requires Shaped(s) && ListInv(s) && Enabled(s, Step(i))
    requires s.lanes[i].phase.pc.Decrement? && s.lanes[i].phase.pc.after == Succeeded
    ensures ListInv(StepLane(o, s, i))
  {
    var l := s.lanes[i];
    var job := JobKey(i, |l.past|);
    var s' := StepLane(o, s, i);
    ListedGrows(s.log, Success(job));
    RevealOthers(s, s'.lanes, i);
    RefsAfter(s, s', i);
    OthersForget(s, s', i);
  }

  /** Lane `i` stops moving once its references are out of the history too. */
  lemma RevealOthers(s: State, lanes': seq<Lane>, i: nat)
    requires ListInv(s) && i < |s.lanes| == |lanes'|
    requires forall k :: 0 <= k < |s.lanes| && k != i ==> lanes'[k] == s.lanes[k]
    requires Moving(s.lanes[i]) && !Moving(lanes'[i])
    ensures Visible(Without(Listed(s.log), JobKey(i, |s.lanes[i].past|)), lanes') == s.store.failures
  {
    var job := JobKey(i, |s.lanes[i].past|);
    KeepTwice(Listed(s.log), (ref: FailedJobRef) => ref.job != job, (ref: FailedJobRef) => Shown(lanes', ref),
              (ref: FailedJobRef) => Shown(s.lanes, ref));
  }

  lemma RefsAfter(s: State, s': State, i: nat)
    requires RefsCurrent(s) && i < |s.lanes| == |s'.lanes|
    requires forall k :: 0 <= k < |s.lanes| && k != i ==> s'.lanes[k] == s.lanes[k]
    requires s'.lanes[i].past == s.lanes[i].past && s'.lanes[i].phase.Active?
    requires var job := JobKey(i, |s.lanes[i].past|);
             || Listed(s'.log) == Without(Listed(s.log), job)
             || ((exists ref: FailedJobRef :: ref.job == job && Listed(s'.log) == [ref] + Without(Listed(s.log), job))
                 && StageOf(s'.lanes[i].phase.pc) != Landed(Succeeded))
    ensures RefsCurrent(s')
  {
    var job := JobKey(i, |s.lanes[i].past|);
    forall ref | ref in Listed(s'.log)
      ensures ref.job.lane < |s'.lanes| && ref.job.link == |s'.lanes[ref.job.lane].past|
      ensures s'.lanes[ref.job.lane].phase.Active? ==> StageOf(s'.lanes[ref.job.lane].phase.pc) != Landed(Succeeded)
    {
      KeepIn(Listed(s.log), (other: FailedJobRef) => other.job != job, ref);
    }
  }

  lemma ListStepLane(o: BatchOptions, s: State, i: nat)
    requires Shaped(s) && ListInv(s) && Enabled(s, Step(i))
    ensures ListInv(StepLane(o, s, i))
  {
    var l := s.lanes[i];
    var pc := l.phase.pc;
    var s' := StepLane(o, s, i);
    if pc.SuccessRefs? || pc.FailureRefs? || pc.SuccessForget? || pc.FailureForget? {
      ForgetStep(o, s, i);
    } else if pc.PushRef? {
      PushStep(o, s, i);
    } else if pc.Decrement? && pc.after == Succeeded {
      SuccessStep(o, s, i);
    } else if pc.Leave? {
      LeaveStep(o, s, i);
    } else {
      OtherCommand(o.allowFailures, s.store, pc, JobKey(i, |l.past|), |l.todo|);
      CurrentStep(s, s', i);
      ListQuiet(s, s', i);
    }
  }

  lemma LeaveStep(o: BatchOptions, s: State, i: nat)
    requires Shaped(s) && ListInv(s) && Enabled(s, Step(i)) && s.lanes[i].phase.pc.Leave?
    ensures ListInv(StepLane(o, s, i))
  {
    var s' := StepLane(o, s, i);
    assert s'.log == s.log;
    ListQuiet(s, s', i);
  }

  lemma OtherCommand(allow: bool, r: Store, pc: Pc, job: JobKey, links: nat)
    requires !pc.Processing? && !pc.Leave? && !pc.PushRef?
    requires !pc.SuccessRefs? && !pc.FailureRefs? && !pc.SuccessForget? && !pc.FailureForget?
    requires pc.Decrement? ==> pc.after != Succeeded
    ensures var t := Command(allow, r, pc, job, links);
            && t.log == [] && t.store.failures == r.failures
            && !t.pc.SuccessForget? && !t.pc.FailureForget? && !t.pc.PushRef?
            && (t.pc.Decrement? ==> t.pc.after != Succeeded)
            && (StageOf(t.pc) == Landed(Succeeded) ==> StageOf(pc) == Landed(Succeeded))
  {
  }

  lemma ListCancel(o: BatchOptions, s: State)
    requires ListInv(s)
    ensures ListInv(Apply(o, s, CancelBatch))
  {
    var s' := Apply(o, s, CancelBatch);
    forall k | 0 <= k < |s'.lanes| ensures ForgetsOwn(s', k) {
      assert ForgetsOwn(s, k);
    }
  }

  /** A lane moved by no command of its own: it neither starts nor stops moving, and reads nothing. */
  predicate QuietMove(l: Lane, l': Lane) {
    && l'.past == l.past && !Moving(l) && !Moving(l')
    && (l'.phase.Active? ==> StageOf(l'.phase.pc) == Open && !l'.phase.pc.SuccessForget? && !l'.phase.pc.FailureForget?)
  }

  lemma ListMoved(s: State, s': State, i: nat)
    requires ListInv(s) && i < |s.lanes| == |s'.lanes| && s'.lanes == s.lanes[i := s'.lanes[i]]
    requires s'.store.failures == s.store.failures && s'.log == s.log
    requires QuietMove(s.lanes[i], s'.lanes[i])
    ensures ListInv(s')
  {
    CurrentStep(s, s', i);
    ListQuiet(s, s', i);
  }

  lemma FinishMove(l: Lane, outcome: Outcome, at: nat)
    requires |l.todo| > 0 && l.phase == Active(Processing)
    ensures QuietMove(l, FinishLane(l, outcome, at))
  {
  }

  lemma ListInvStep(o: BatchOptions, s: State, a: Action)
    requires Shaped(s) && ListInv(s)
    ensures ListInv(Apply(o, s, a))
  {
    if Enabled(s, a) {
      match a
      case Step(i) => ListStepLane(o, s, i);
      case Enqueue => ListMoved(s, Apply(o, s, a), s.next);
      case CancelBatch => ListCancel(o, s);
      case Finish(i, outcome, at) => FinishMove(s.lanes[i], outcome, at); ListMoved(s, Apply(o, s, a), i);
      case Pick(i) => ListMoved(s, Apply(o, s, a), i);
      case Retry(i) => ListMoved(s, Apply(o, s, a), i);
    }
  }
}
