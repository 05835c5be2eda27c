/** Starting, pausing and resuming workers: boot, then a poll every few seconds that may take longer than
  * the gap to the next. Each reply and each `await` inside a poll is a step of its own.
  */
module PauseMachine {
  import opened Options

  /** A BullMQ worker. `run()` on a paused worker returns early; `hushed` records that it was ever paused
    * before it ran.
    */
  datatype Worker = Worker(runs: nat, running: bool, paused: bool, hushed: bool)

  datatype Entry = Entry(supervisor: string, started: bool, worker: Worker)

  function Run(w: Worker): Worker { w.(runs := w.runs + 1, running := w.running || !w.paused) }

  function Pause(w: Worker): Worker { w.(paused := true, hushed := w.hushed || w.runs == 0) }

  function Resume(w: Worker): Worker { w.(paused := false) }

  function Opened(e: Entry): Entry { e.(started := true, worker := Run(e.worker)) }

  predicate Consuming(e: Entry) { e.worker.running && !e.worker.paused }

  /** What boot does to one worker. */
  function Started(e: Entry, paused: set<string>): Entry {
    if e.supervisor in paused then e else Opened(e)
  }

  /** What a poll does to one worker. */
  function Polled(e: Entry, paused: set<string>): Entry {
    var shouldPause := e.supervisor in paused;
    if !shouldPause && !e.started then Opened(e)
    else
      var hushed := if shouldPause && e.started && !e.worker.paused then e.(worker := Pause(e.worker)) else e;
      if !shouldPause && hushed.worker.paused then hushed.(worker := Resume(hushed.worker)) else hushed
  }

  function StartedAll(entries: seq<Entry>, paused: set<string>): (r: seq<Entry>)
    ensures |r| == |entries| && forall k :: 0 <= k < |r| ==> r[k] == Started(entries[k], paused)
  {
    seq(|entries|, k requires 0 <= k < |entries| => Started(entries[k], paused))
  }

  function PolledAll(entries: seq<Entry>, paused: set<string>): (r: seq<Entry>)
    ensures |r| == |entries| && forall k :: 0 <= k < |r| ==> r[k] == Polled(entries[k], paused)
  {
    seq(|entries|, k requires 0 <= k < |entries| => Polled(entries[k], paused))
  }

  /** A terminate flag raised before this process started is not for it. */
  predicate ShouldTerminate(requestedAt: Option<int>, startedAt: int) {
    requestedAt.Some? && requestedAt.value != 0 && requestedAt.value >= startedAt
  }

  // ----- Steps -----

  datatype Poll = Idle | Asking | Reading | Applying(paused: set<string>, next: nat)

  /** `last` is the set the latest poll to reach every worker had read, until a worker is touched again. */
  datatype State = State(entries: seq<Entry>, booted: bool, poll: Poll, last: Option<set<string>>)

  /** A reply of None stands for a command that failed. */
  datatype Event =
    | BootReads(paused: Option<set<string>>)
    | Tick
    | TerminateReads(terminate: Option<bool>)
    | FlagsRead(paused: Option<set<string>>)
    | NextWorker
    | WorkerFails

  function Init(supervisors: seq<string>): State {
    var unopened := Worker(0, false, false, false);
    State(seq(|supervisors|, k requires 0 <= k < |supervisors| => Entry(supervisors[k], false, unopened)),
          false, Idle, None)
  }

  /** The poll is over once no worker is left. */
  function Settle(s: State): State {
    if s.poll.Applying? && s.poll.next >= |s.entries| then s.(poll := Idle, last := Some(s.poll.paused)) else s
  }

  function Apply(s: State, e: Event): State {
    match e
    case BootReads(paused) =>
      if s.booted then s
      else
        var flags := if paused.Some? then paused.value else {};
        s.(entries := StartedAll(s.entries, flags), booted := true, last := Some(flags))
    case Tick => if s.booted && s.poll == Idle then s.(poll := Asking) else s
    case TerminateReads(terminate) =>
      if s.poll != Asking then s else s.(poll := if terminate == Some(false) then Reading else Idle)
    case FlagsRead(paused) =>
      if s.poll != Reading then s
      else if paused.None? then s.(poll := Idle)
      else Settle(s.(poll := Applying(paused.value, 0), last := None))
    case NextWorker =>
      if !s.poll.Applying? || s.poll.next >= |s.entries| then s
      else
        var k := s.poll.next;
        Settle(s.(entries := s.entries[k := Polled(s.entries[k], s.poll.paused)], poll := s.poll.(next := k + 1)))
    case WorkerFails => if s.poll.Applying? then s.(poll := Idle) else s
  }

  function Exec(supervisors: seq<string>, run: seq<Event>): State {
    if run == [] then Init(supervisors) else Apply(Exec(supervisors, run[..|run| - 1]), run[|run| - 1])
  }

  // ----- What every run keeps -----

  predicate EntryOk(e: Entry) {
    && !e.worker.hushed
    && e.worker.runs == (if e.started then 1 else 0)
    && e.worker.running == e.started
    && (!e.started ==> !e.worker.paused)
  }

  predicate Obeys(e: Entry, paused: set<string>) { Consuming(e) <==> e.supervisor !in paused }

  lemma PolledOk(e: Entry, paused: set<string>)
    requires EntryOk(e)
    ensures EntryOk(Polled(e, paused)) && Obeys(Polled(e, paused), paused)
  {
  }

  predicate Inv(s: State) {
    && (forall k :: 0 <= k < |s.entries| ==> EntryOk(s.entries[k]))
    && (!s.booted ==> s.poll == Idle && s.last == None && forall k :: 0 <= k < |s.entries| ==> !s.entries[k].started)
    && (s.poll.Applying? ==> s.poll.next < |s.entries|
                             && forall k :: 0 <= k < s.poll.next ==> Obeys(s.entries[k], s.poll.paused))
    && (s.last.Some? ==> forall k :: 0 <= k < |s.entries| ==> Obeys(s.entries[k], s.last.value))
    && (s.poll.Applying? ==> s.last == None)
  }

  lemma InvStep(s: State, e: Event)
    requires Inv(s)
    ensures Inv(Apply(s, e))
  {
    if e.NextWorker? && s.poll.Applying? {
      PolledOk(s.entries[s.poll.next], s.poll.paused);
    }
  }

  lemma {:induction false} InvHolds(supervisors: seq<string>, run: seq<Event>)
    ensures Inv(Exec(supervisors, run)) && |Exec(supervisors, run).entries| == |supervisors|
    ensures forall k :: 0 <= k < |supervisors| ==> Exec(supervisors, run).entries[k].supervisor == supervisors[k]
  {
    if run != [] {
      InvHolds(supervisors, run[..|run| - 1]);
      InvStep(Exec(supervisors, run[..|run| - 1]), run[|run| - 1]);
    }
  }

  /** In every run each worker has `run()` called at most once, exactly when its entry says so, and is
    * never paused before that.
    */
  lemma RunAtMostOnce(supervisors: seq<string>, run: seq<Event>, k: nat)
    requires k < |supervisors|
    ensures |Exec(supervisors, run).entries| == |supervisors|
    ensures var e := Exec(supervisors, run).entries[k];
            && e.worker.runs <= 1 && (e.started <==> e.worker.runs == 1)
            && !e.worker.hushed && (e.worker.paused ==> e.started)
  {
    InvHolds(supervisors, run);
  }

  /** When a poll, or boot, has reached every worker, each consumes exactly when its supervisor was not in
    * the set that was read.
    */
  lemma PollsAreObeyed(supervisors: seq<string>, run: seq<Event>, k: nat)
    requires k < |supervisors| && Exec(supervisors, run).last.Some?
    ensures |Exec(supervisors, run).entries| == |supervisors|
    ensures var s := Exec(supervisors, run);
            Consuming(s.entries[k]) <==> supervisors[k] !in s.last.value
  {
    InvHolds(supervisors, run);
  }

  /** The steps a poll takes after its two reads. */
  function Workers(n: nat): seq<Event> { if n == 0 then [] else Workers(n - 1) + [NextWorker] }

  function PollEvents(paused: set<string>, n: nat): seq<Event> {
    [Tick, TerminateReads(Some(false)), FlagsRead(Some(paused))] + Workers(n)
  }

  /** The state after some events, from any state. */
  function Continue(s: State, events: seq<Event>): State {
    if events == [] then s else Apply(Continue(s, events[..|events| - 1]), events[|events| - 1])
  }

  lemma {:induction false} ExecContinues(supervisors: seq<string>, run: seq<Event>, more: seq<Event>)
    ensures Exec(supervisors, run + more) == Continue(Exec(supervisors, run), more)
  {
    if more == [] {
      assert run + more == run;
    } else {
      assert (run + more)[..|run + more| - 1] == run + more[..|more| - 1];
      ExecContinues(supervisors, run, more[..|more| - 1]);
    }
  }

  function Partly(entries: seq<Entry>, paused: set<string>, n: nat): (r: seq<Entry>)
    requires n <= |entries|
  {
    PolledAll(entries[..n], paused) + entries[n..]
  }

  /** A poll that has reached `n` workers. */
  function Midway(s: State, paused: set<string>, n: nat): State
    requires n <= |s.entries|
  {
    Settle(State(Partly(s.entries, paused, n), true, Applying(paused, n), None))
  }

  lemma MidwayNext(s: State, paused: set<string>, n: nat)
    requires n < |s.entries|
    ensures Apply(Midway(s, paused, n), NextWorker) == Midway(s, paused, n + 1)
  {
    var before := Partly(s.entries, paused, n);
    assert before[n] == s.entries[n];
    assert before[n := Polled(s.entries[n], paused)] == Partly(s.entries, paused, n + 1);
  }

  lemma PollReads(s: State, paused: set<string>)
    requires s.booted && s.poll == Idle
    ensures Continue(s, PollEvents(paused, 0)) == Settle(s.(poll := Applying(paused, 0), last := None))
  {
    var ticked, asked := [Tick], [Tick, TerminateReads(Some(false))];
    var events := PollEvents(paused, 0);
    assert events[..|events| - 1] == asked;
    assert asked[..|asked| - 1] == ticked;
    assert ticked[..|ticked| - 1] == [];
    assert Continue(s, ticked) == s.(poll := Asking);
    assert Continue(s, asked) == s.(poll := Reading);
  }

  lemma {:induction false} PollWorkers(s: State, paused: set<string>, n: nat)
    requires s.booted && s.poll == Idle && |s.entries| > 0 && n <= |s.entries|
    ensures Continue(s, PollEvents(paused, n)) == Midway(s, paused, n)
  {
    if n == 0 {
      assert Partly(s.entries, paused, 0) == s.entries;
      PollReads(s, paused);
    } else {
      var events := PollEvents(paused, n);
      PollWorkers(s, paused, n - 1);
      assert events[..|events| - 1] == PollEvents(paused, n - 1);
      MidwayNext(s, paused, n - 1);
    }
  }

  /** A poll that is not cut short leaves every worker as its own set wants it, whatever went before. */
  lemma WholePoll(supervisors: seq<string>, run: seq<Event>, paused: set<string>)
    requires Exec(supervisors, run).booted && Exec(supervisors, run).poll == Idle
    ensures var s, n := Exec(supervisors, run), |supervisors|;
            Exec(supervisors, run + PollEvents(paused, n))
                == State(PolledAll(s.entries, paused), true, Idle, Some(paused))
  {
    var s, n := Exec(supervisors, run), |supervisors|;
    InvHolds(supervisors, run);
    ExecContinues(supervisors, run, PollEvents(paused, n));
    if n > 0 {
      PollWorkers(s, paused, n);
      assert Partly(s.entries, paused, n) == PolledAll(s.entries, paused);
    } else {
      PollReads(s, paused);
    }
  }

  /** One tick as its replies come in: whether to terminate, and which supervisors are paused. */
  function TickEvents(terminate: Option<bool>, flags: Option<set<string>>, n: nat): seq<Event> {
    [Tick, TerminateReads(terminate), FlagsRead(flags)]
    + Workers(if terminate == Some(false) && flags.Some? then n else 0)
  }

  /** A tick turns every worker once, or none at all: if it is told to terminate or a read fails, boot and the
    * polls before it stand.
    */
  lemma TickIsOnePoll(supervisors: seq<string>, run: seq<Event>, terminate: Option<bool>, flags: Option<set<string>>)
    requires Exec(supervisors, run).booted && Exec(supervisors, run).poll == Idle
    ensures var s := Exec(supervisors, run);
            Exec(supervisors, run + TickEvents(terminate, flags, |supervisors|))
                == if terminate.None? || terminate.value || flags.None? then s
                   else State(PolledAll(s.entries, flags.value), true, Idle, flags)
  {
    var s, n := Exec(supervisors, run), |supervisors|;
    var events := TickEvents(terminate, flags, n);
    if terminate == Some(false) && flags.Some? {
      WholePoll(supervisors, run, flags.value);
      assert events == PollEvents(flags.value, n);
    } else {
      var ticked, asked := [Tick], [Tick, TerminateReads(terminate)];
      ExecContinues(supervisors, run, events);
      assert events[..|events| - 1] == asked;
      assert asked[..|asked| - 1] == ticked;
      assert ticked[..|ticked| - 1] == [];
      assert Continue(s, ticked) == s.(poll := Asking);
    }
  }

  /** While a poll is under way a tick does nothing; and a failure ends the poll, the workers it has turned staying
    * as they are.
    */
  lemma PollsStandApart(supervisors: seq<string>, run: seq<Event>)
    requires Exec(supervisors, run).poll != Idle
    ensures Exec(supervisors, run + [Tick]) == Exec(supervisors, run)
    ensures Exec(supervisors, run).poll.Applying? ==>
              Exec(supervisors, run + [WorkerFails]) == Exec(supervisors, run).(poll := Idle)
  {
    var ticked, failed := run + [Tick], run + [WorkerFails];
    assert ticked[..|ticked| - 1] == run && failed[..|failed| - 1] == run;
  }

  /** Boot opens every worker that is not paused, and all of them if the flags cannot be read. */
  lemma BootOpens(supervisors: seq<string>, flags: Option<set<string>>, k: nat)
    requires k < |supervisors|
    ensures |Exec(supervisors, [BootReads(flags)]).entries| == |supervisors|
    ensures Consuming(Exec(supervisors, [BootReads(flags)]).entries[k])
            <==> flags.None? || supervisors[k] !in flags.value
  {
    assert [BootReads(flags)][..0] == [];
  }

  /** Polling again with the same flags touches no worker. */
  lemma PollAgain(e: Entry, paused: set<string>)
    requires EntryOk(e)
    ensures Polled(Polled(e, paused), paused) == Polled(e, paused)
  {
  }
}
