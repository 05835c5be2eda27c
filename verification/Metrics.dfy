/** Counters rolled into a bounded series, one Redis command per step.
  *
  * Any number of completions are being recorded and any number of snapshotters are rolling counters up
  * at once. A counter lives under the key of a queue or of a job name; each command touches one key.
  */
module Metrics {
  import opened Rounding

  datatype Key = QueueKey(name: string) | JobKey(name: string)

  datatype Counter = Counter(throughput: nat, runtime: nat)

  datatype Point = Point(throughput: nat, runtime: nat, time: int)

  /** A completion whose pipeline has had `sent` of its counter commands run: the queue's throughput and
    * runtime, then the job's. */
  datatype Recorder = Recorder(queue: string, job: string, runtime: nat, sent: nat)

  datatype Stage = Reading | Pushing(raw: Counter) | Trimming | Done

  datatype Roller = Roller(source: Key, at: int, stage: Stage)

  /** `landed`, `ever`, `since` and `cleared` are the history of the run. */
  datatype State = State(
    live: map<Key, Counter>,
    series: map<Key, seq<Point>>,
    recorders: seq<Recorder>,
    rollers: seq<Roller>,
    ever: map<Key, seq<Point>>,
    since: map<Key, seq<Point>>,
    cleared: map<Key, nat>)

  datatype Action =
    | Complete(queue: string, job: string, runtime: nat)
    | Send(recorder: nat)
    | Roll(source: Key, at: int)
    | Advance(roller: nat)
    | ClearCounter(key: Key)
    | ClearSeries(key: Key)

  /** Points kept per queue and per job name. */
  datatype Keep = Keep(queue: nat, job: nat)

  function KeepFor(keep: Keep, key: Key): nat {
    match key case QueueKey(_) => keep.queue case JobKey(_) => keep.job
  }

  function LiveAt(live: map<Key, Counter>, key: Key): Counter { if key in live then live[key] else Counter(0, 0) }

  function PointsAt(points: map<Key, seq<Point>>, key: Key): seq<Point> { if key in points then points[key] else [] }

  function NumberAt(numbers: map<Key, nat>, key: Key): nat { if key in numbers then numbers[key] else 0 }

  function Newest(points: seq<Point>, keep: nat): seq<Point> { if |points| <= keep then points else points[..keep] }

  /** `LTRIM key 0 keep-1`. With nothing to keep the range is `0 -1`, which is the whole list. */
  function Ltrim(points: seq<Point>, keep: nat): seq<Point> { if keep == 0 then points else Newest(points, keep) }

  /** The average runtime, rounded; an idle window measures zero. */
  function Measured(raw: Counter, at: int): Point {
    Point(raw.throughput, if raw.throughput == 0 then 0 else RoundedQuotient(raw.runtime, raw.throughput), at)
  }

  /** A point says how much was done and, to the nearest whole number, how long it took on average. */
  predicate Averages(p: Point, raw: Counter) {
    && p.throughput == raw.throughput
    && if raw.throughput == 0 then p.runtime == 0 else Nearest(p.runtime, raw.runtime, raw.throughput)
  }

  lemma MeasuredAverages(raw: Counter, at: int)
    ensures Averages(Measured(raw, at), raw) && Measured(raw, at).time == at
  {
    if raw.throughput > 0 {
      RoundedIsNearest(raw.runtime, raw.throughput);
    }
  }

  /** The runtimes counted add up as if each were between the two bounds. */
  predicate Between(c: Counter, lo: nat, hi: nat) { lo * c.throughput <= c.runtime <= hi * c.throughput }

  lemma BetweenAdds(c: Counter, runtime: nat, lo: nat, hi: nat)
    requires Between(c, lo, hi) && lo <= runtime <= hi
    ensures Between(Counter(c.throughput + 1, c.runtime + runtime), lo, hi)
  {
    assert lo * (c.throughput + 1) == lo * c.throughput + lo;
    assert hi * (c.throughput + 1) == hi * c.throughput + hi;
  }

  lemma AveragesBetween(p: Point, c: Counter, lo: nat, hi: nat)
    requires Averages(p, c) && c.throughput > 0 && Between(c, lo, hi)
    ensures lo <= p.runtime <= hi
  {
    NearestBetween(p.runtime, c.runtime, c.throughput, lo, hi);
  }

  const Empty := State(map[], map[], [], [], map[], map[], map[])

  /** The commands of one completion, in the order its pipeline sends them. */
  function Increment(live: map<Key, Counter>, r: Recorder): map<Key, Counter> {
    var queue, job := QueueKey(r.queue), JobKey(r.job);
    if r.sent == 0 then CountOne(live, queue)
    else if r.sent == 1 then AddRuntime(live, queue, r.runtime)
    else if r.sent == 2 then CountOne(live, job)
    else AddRuntime(live, job, r.runtime)
  }

  function CountOne(live: map<Key, Counter>, key: Key): map<Key, Counter> {
    var c := LiveAt(live, key);
    live[key := c.(throughput := c.throughput + 1)]
  }

  function AddRuntime(live: map<Key, Counter>, key: Key, runtime: nat): map<Key, Counter> {
    var c := LiveAt(live, key);
    live[key := c.(runtime := c.runtime + runtime)]
  }

  /** One action. The read and the delete of a roll-up are one transaction; its push and its trim are two
    * commands that others may come between.
    */
  function Apply(keep: Keep, s: State, a: Action): State {
    match a
    case Complete(queue, job, runtime) => s.(recorders := s.recorders + [Recorder(queue, job, runtime, 0)])
    case Send(i) =>
      if i < |s.recorders| && s.recorders[i].sent < 4 then
        var r := s.recorders[i];
        s.(live := Increment(s.live, r), recorders := s.recorders[i := r.(sent := r.sent + 1)])
      else s
    case Roll(source, at) => s.(rollers := s.rollers + [Roller(source, at, Reading)])
    case Advance(i) => if i < |s.rollers| then RollStep(keep, s, i) else s
    case ClearCounter(key) =>
      s.(live := s.live - {key}, cleared := s.cleared[key := NumberAt(s.cleared, key) + LiveAt(s.live, key).throughput])
    case ClearSeries(key) => s.(series := s.series - {key}, since := s.since - {key})
  }

  function RollStep(keep: Keep, s: State, i: nat): State
    requires i < |s.rollers|
  {
    var r := s.rollers[i];
    match r.stage
    case Reading =>
      s.(live := s.live - {r.source}, rollers := s.rollers[i := r.(stage := Pushing(LiveAt(s.live, r.source)))])
    case Pushing(raw) =>
      var point := Measured(raw, r.at);
      s.(series := s.series[r.source := [point] + PointsAt(s.series, r.source)],
         rollers := s.rollers[i := r.(stage := Trimming)],
         ever := s.ever[r.source := [point] + PointsAt(s.ever, r.source)],
         since := s.since[r.source := [point] + PointsAt(s.since, r.source)])
    case Trimming =>
      s.(series := s.series[r.source := Ltrim(PointsAt(s.series, r.source), KeepFor(keep, r.source))],
         rollers := s.rollers[i := r.(stage := Done)])
    case Done => s
  }

  /** The state after a run: any sequence of actions, so any interleaving. */
  function Exec(keep: Keep, run: seq<Action>): State {
    if run == [] then Empty else Apply(keep, Exec(keep, run[..|run| - 1]), run[|run| - 1])
  }

  // ----- Sums -----

  /** Completions whose throughput command for `key` has run. */
  function Landed(recorders: seq<Recorder>, key: Key): nat {
    if recorders == [] then 0 else LandedOne(recorders[0], key) + Landed(recorders[1..], key)
  }

  function LandedOne(r: Recorder, key: Key): nat {
    match key
    case QueueKey(name) => if r.queue == name && r.sent > 0 then 1 else 0
    case JobKey(name) => if r.job == name && r.sent > 2 then 1 else 0
  }

  /** Throughput a snapshotter has read and not pushed yet. */
  function Held(rollers: seq<Roller>, key: Key): nat {
    if rollers == [] then 0 else HeldOne(rollers[0], key) + Held(rollers[1..], key)
  }

  function HeldOne(r: Roller, key: Key): nat {
    if r.source == key && r.stage.Pushing? then r.stage.raw.throughput else 0
  }

  /** Snapshotters of `key` between their push and their trim. */
  function Untrimmed(rollers: seq<Roller>, key: Key): nat {
    if rollers == [] then 0 else UntrimmedOne(rollers[0], key) + Untrimmed(rollers[1..], key)
  }

  function UntrimmedOne(r: Roller, key: Key): nat { if r.source == key && r.stage.Trimming? then 1 else 0 }

  function Throughput(points: seq<Point>): nat {
    if points == [] then 0 else points[0].throughput + Throughput(points[1..])
  }

  lemma {:induction false} LandedUpdate(recorders: seq<Recorder>, key: Key, i: nat, r: Recorder)
    requires i < |recorders|
    ensures Landed(recorders[i := r], key) + LandedOne(recorders[i], key) == Landed(recorders, key) + LandedOne(r, key)
  {
    if i == 0 {
      assert recorders[i := r][1..] == recorders[1..];
    } else {
      assert recorders[i := r][1..] == recorders[1..][i - 1 := r];
      LandedUpdate(recorders[1..], key, i - 1, r);
    }
  }

  lemma {:induction false} LandedAppend(recorders: seq<Recorder>, key: Key, r: Recorder)
    ensures Landed(recorders + [r], key) == Landed(recorders, key) + LandedOne(r, key)
  {
    if recorders != [] {
      assert (recorders + [r])[1..] == recorders[1..] + [r];
      LandedAppend(recorders[1..], key, r);
    }
  }

  lemma {:induction false} RollersUpdate(rollers: seq<Roller>, key: Key, i: nat, r: Roller)
    requires i < |rollers|
    ensures Held(rollers[i := r], key) + HeldOne(rollers[i], key) == Held(rollers, key) + HeldOne(r, key)
    ensures Untrimmed(rollers[i := r], key) + UntrimmedOne(rollers[i], key)
            == Untrimmed(rollers, key) + UntrimmedOne(r, key)
  {
    if i == 0 {
      assert rollers[i := r][1..] == rollers[1..];
    } else {
      assert rollers[i := r][1..] == rollers[1..][i - 1 := r];
      RollersUpdate(rollers[1..], key, i - 1, r);
    }
  }

  lemma {:induction false} RollersAppend(rollers: seq<Roller>, key: Key, r: Roller)
    ensures Held(rollers + [r], key) == Held(rollers, key) + HeldOne(r, key)
    ensures Untrimmed(rollers + [r], key) == Untrimmed(rollers, key) + UntrimmedOne(r, key)
  {
    if rollers != [] {
      assert (rollers + [r])[1..] == rollers[1..] + [r];
      RollersAppend(rollers[1..], key, r);
    }
  }

  // ----- Conservation -----

  /** Nothing is lost and nothing counted twice. */
  predicate Conserved(s: State, key: Key) {
    Landed(s.recorders, key)
    == LiveAt(s.live, key).throughput + Held(s.rollers, key) + Throughput(PointsAt(s.ever, key))
        + NumberAt(s.cleared, key)
  }

  /** The kept series is the newest points pushed since it was last cleared, but for trims still due. */
  predicate Bounded(keep: Keep, s: State, key: Key) {
    && Ltrim(PointsAt(s.series, key), KeepFor(keep, key)) == Ltrim(PointsAt(s.since, key), KeepFor(keep, key))
    && (KeepFor(keep, key) > 0 ==> |PointsAt(s.series, key)| <= KeepFor(keep, key) + Untrimmed(s.rollers, key))
  }

  lemma ConservedSend(keep: Keep, s: State, i: nat, key: Key)
    requires Conserved(s, key)
    ensures Conserved(Apply(keep, s, Send(i)), key)
  {
    if i < |s.recorders| && s.recorders[i].sent < 4 {
      var r := s.recorders[i];
      LandedUpdate(s.recorders, key, i, r.(sent := r.sent + 1));
    }
  }

  lemma ConservedRead(keep: Keep, s: State, i: nat, key: Key)
    requires i < |s.rollers| && s.rollers[i].stage.Reading?
    requires Conserved(s, key) && Bounded(keep, s, key)
    ensures Conserved(RollStep(keep, s, i), key) && Bounded(keep, RollStep(keep, s, i), key)
  {
    var r := s.rollers[i];
    RollersUpdate(s.rollers, key, i, r.(stage := Pushing(LiveAt(s.live, r.source))));
  }

  lemma ConservedPush(keep: Keep, s: State, i: nat, key: Key)
    requires i < |s.rollers| && s.rollers[i].stage.Pushing?
    requires Conserved(s, key) && Bounded(keep, s, key)
    ensures Conserved(RollStep(keep, s, i), key) && Bounded(keep, RollStep(keep, s, i), key)
  {
    var r := s.rollers[i];
    RollersUpdate(s.rollers, key, i, r.(stage := Trimming));
    if r.source == key {
      var point := Measured(r.stage.raw, r.at);
      PushTrims(point, PointsAt(s.series, key), PointsAt(s.since, key), KeepFor(keep, key));
      assert ([point] + PointsAt(s.ever, key))[1..] == PointsAt(s.ever, key);
    }
  }

  lemma ConservedTrim(keep: Keep, s: State, i: nat, key: Key)
    requires i < |s.rollers| && s.rollers[i].stage.Trimming?
    requires Conserved(s, key) && Bounded(keep, s, key)
    ensures Conserved(RollStep(keep, s, i), key) && Bounded(keep, RollStep(keep, s, i), key)
  {
    var r := s.rollers[i];
    RollersUpdate(s.rollers, key, i, r.(stage := Done));
  }

  lemma ConservedRoll(keep: Keep, s: State, i: nat, key: Key)
    requires Conserved(s, key) && Bounded(keep, s, key)
    ensures Conserved(Apply(keep, s, Advance(i)), key) && Bounded(keep, Apply(keep, s, Advance(i)), key)
  {
    if i < |s.rollers| {
      match s.rollers[i].stage
      case Reading => ConservedRead(keep, s, i, key);
      case Pushing(_) => ConservedPush(keep, s, i, key);
      case Trimming => ConservedTrim(keep, s, i, key);
      case Done =>
    }
  }

  lemma PushTrims(point: Point, a: seq<Point>, b: seq<Point>, keep: nat)
    requires Ltrim(a, keep) == Ltrim(b, keep)
    ensures Ltrim([point] + a, keep) == Ltrim([point] + b, keep)
  {
    if keep > 0 {
      assert Newest([point] + a, keep) == [point] + Newest(Newest(a, keep), keep - 1);
      assert Newest([point] + b, keep) == [point] + Newest(Newest(b, keep), keep - 1);
    }
  }

  lemma ConservedStep(keep: Keep, s: State, a: Action, key: Key)
    requires Conserved(s, key) && Bounded(keep, s, key)
    ensures Conserved(Apply(keep, s, a), key) && Bounded(keep, Apply(keep, s, a), key)
  {
    match a
    case Complete(queue, job, runtime) => LandedAppend(s.recorders, key, Recorder(queue, job, runtime, 0));
    case Send(i) => ConservedSend(keep, s, i, key);
    case Roll(source, at) => RollersAppend(s.rollers, key, Roller(source, at, Reading));
    case Advance(i) => ConservedRoll(keep, s, i, key);
    case ClearCounter(_) =>
    case ClearSeries(_) =>
  }

  /** In every run, for every queue and every job name, the points ever pushed together with the live
    * counter, what snapshotters hold and what was cleared add up to the completions counted; and the
    * kept series is the newest `keep` of the points pushed, or all of them if `keep` is zero.
    */
  lemma {:induction false} ThroughputIsConserved(keep: Keep, run: seq<Action>, key: Key)
    ensures Conserved(Exec(keep, run), key) && Bounded(keep, Exec(keep, run), key)
  {
    if run != [] {
      ThroughputIsConserved(keep, run[..|run| - 1], key);
      ConservedStep(keep, Exec(keep, run[..|run| - 1]), run[|run| - 1], key);
    }
  }

  /** Clearing a series forgets its points and nothing else: not what is still being counted, and no other key. */
  lemma ClearsOneSeries(keep: Keep, run: seq<Action>, cleared: Key, key: Key)
    ensures var s, s' := Exec(keep, run), Exec(keep, run + [ClearSeries(cleared)]);
            && PointsAt(s'.series, key) == (if key == cleared then [] else PointsAt(s.series, key))
            && PointsAt(s'.since, key) == (if key == cleared then [] else PointsAt(s.since, key))
            && PointsAt(s'.ever, key) == PointsAt(s.ever, key) && LiveAt(s'.live, key) == LiveAt(s.live, key)
  {
    var longer := run + [ClearSeries(cleared)];
    assert longer[..|longer| - 1] == run;
  }

  predicate Quiet(s: State) {
    && (forall i :: 0 <= i < |s.recorders| ==> s.recorders[i].sent >= 4)
    && (forall i :: 0 <= i < |s.rollers| ==> s.rollers[i].stage.Done?)
  }

  predicate Counts(r: Recorder, key: Key) {
    match key case QueueKey(name) => r.queue == name case JobKey(name) => r.job == name
  }

  /** Completions recorded for a queue or a job name. */
  function Completions(recorders: seq<Recorder>, key: Key): nat {
    if recorders == [] then 0
    else (if Counts(recorders[0], key) then 1 else 0) + Completions(recorders[1..], key)
  }

  lemma {:induction false} QuietSums(recorders: seq<Recorder>, rollers: seq<Roller>, key: Key)
    requires forall i :: 0 <= i < |recorders| ==> recorders[i].sent >= 4
    requires forall i :: 0 <= i < |rollers| ==> rollers[i].stage.Done?
    ensures Landed(recorders, key) == Completions(recorders, key)
    ensures Held(rollers, key) == 0 && Untrimmed(rollers, key) == 0
    decreases |recorders| + |rollers|
  {
    if recorders != [] {
      QuietSums(recorders[1..], rollers, key);
    } else if rollers != [] {
      QuietSums(recorders, rollers[1..], key);
    }
  }

  /** Once nothing is in flight: every completion is in a point, in the live counter or was cleared, and
    * the series is the newest `keep` points. It is no longer than that exactly when `keep` is not zero, or
    * no point was ever pushed: a `keep` of zero keeps everything.
    */
  lemma QuietAccounts(keep: Keep, run: seq<Action>, key: Key)
    requires Quiet(Exec(keep, run))
    ensures var s := Exec(keep, run);
            var kept, pushed := if key.QueueKey? then keep.queue else keep.job, PointsAt(s.since, key);
            && Completions(s.recorders, key)
               == LiveAt(s.live, key).throughput + Throughput(PointsAt(s.ever, key)) + NumberAt(s.cleared, key)
            && PointsAt(s.series, key) == (if kept == 0 || |pushed| <= kept then pushed else pushed[..kept])
            && (|PointsAt(s.series, key)| <= kept <==> kept > 0 || pushed == [])
  {
    var s := Exec(keep, run);
    ThroughputIsConserved(keep, run, key);
    QuietSums(s.recorders, s.rollers, key);
  }
}
