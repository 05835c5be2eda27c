/** `WorkerManager`: the same boot and poll over entries changed in place. */
module WorkerManager {
  import opened Options
  import opened PauseMachine

  class WorkerEntry {
    const supervisor: string
    var started: bool
    var worker: Worker

    constructor (supervisor: string)
      ensures Value() == Entry(supervisor, false, Worker(0, false, false, false))
    {
      this.supervisor := supervisor;
      started := false;
      worker := Worker(0, false, false, false);
    }

    function Value(): Entry
      reads this
    {
      Entry(supervisor, started, worker)
    }

    method Open()
      modifies this
      ensures Value() == Opened(old(Value()))
    {
      started := true;
      worker := Run(worker);
    }

    /** One turn of the loop of `readPauseFlags`. */
    method Follow(paused: set<string>)
      modifies this
      ensures Value() == Polled(old(Value()), paused)
    {
      var shouldPause := supervisor in paused;
      if !shouldPause && !started {
        Open();
        return;
      }
      if shouldPause && started && !worker.paused {
        worker := Pause(worker);
      }
      if !shouldPause && worker.paused {
        worker := Resume(worker);
      }
    }
  }

  class WorkerManager {
    const workers: seq<WorkerEntry>
    var checkingPause: bool
    const startedAt: int

    ghost predicate Valid() {
      forall i, j :: 0 <= i < j < |workers| ==> workers[i] != workers[j]
    }

    /** Boot: the flags are read before anything opens; if they cannot be, everything opens. */
    method Start(flags: Option<set<string>>)
      requires Valid()
      modifies workers
      ensures forall k :: 0 <= k < |workers| ==>
                workers[k].Value() == Started(old(workers[k].Value()), if flags.Some? then flags.value else {})
    {
      var paused := if flags.Some? then flags.value else {};
      for i := 0 to |workers|
        invariant forall k :: 0 <= k < i ==> workers[k].Value() == Started(old(workers[k].Value()), paused)
        invariant forall k :: i <= k < |workers| ==> workers[k].Value() == old(workers[k].Value())
      {
        if workers[i].supervisor !in paused {
          workers[i].Open();
        }
      }
    }

    /** One tick. A pass that is still waiting for a worker keeps later ticks out. */
    method ApplyPauseFlags(requestedAt: Option<int>, flags: Option<set<string>>)
      requires Valid()
      modifies this`checkingPause, workers
      ensures checkingPause == old(checkingPause)
      ensures var stopping := requestedAt.Some? && requestedAt.value != 0 && requestedAt.value >= startedAt;
              forall k :: 0 <= k < |workers| ==>
                workers[k].Value() == if old(checkingPause) || stopping || flags.None? then old(workers[k].Value())
                                      else Polled(old(workers[k].Value()), flags.value)
    {
      if checkingPause {
        return;
      }
      checkingPause := true;
      if !ShouldTerminate(requestedAt, startedAt) && flags.Some? {
        ReadPauseFlags(flags.value);
      }
      checkingPause := false;
    }

    method ReadPauseFlags(paused: set<string>)
      requires Valid()
      modifies workers
      ensures forall k :: 0 <= k < |workers| ==> workers[k].Value() == Polled(old(workers[k].Value()), paused)
    {
      for i := 0 to |workers|
        invariant forall k :: 0 <= k < i ==> workers[k].Value() == Polled(old(workers[k].Value()), paused)
        invariant forall k :: i <= k < |workers| ==> workers[k].Value() == old(workers[k].Value())
      {
        workers[i].Follow(paused);
      }
    }

    constructor (supervisors: seq<string>, startedAt: int)
      ensures Valid() && !checkingPause && |workers| == |supervisors| && this.startedAt == startedAt
      ensures fresh(workers)
      ensures forall k :: 0 <= k < |workers| ==> workers[k].Value() == Init(supervisors).entries[k]
    {
      var entries: seq<WorkerEntry> := [];
      for i := 0 to |supervisors|
        invariant |entries| == i && fresh(entries)
        invariant forall k :: 0 <= k < i ==>
                    entries[k].Value() == Entry(supervisors[k], false, Worker(0, false, false, false))
        invariant forall j, k :: 0 <= j < k < i ==> entries[j] != entries[k]
      {
        var entry := new WorkerEntry(supervisors[i]);
        entries := entries + [entry];
      }
      this.workers := entries;
      this.checkingPause := false;
      this.startedAt := startedAt;
    }
  }
}
