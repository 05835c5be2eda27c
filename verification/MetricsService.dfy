/** The metrics service in the source's own form, with nobody else at work. Its roll-up is proved to be
  * three steps of one snapshotter of `Metrics`.
  */
module MetricsService {
  import opened Options
  import opened Numbers
  import opened Rounding
  import opened Metrics

  const MAX_SNAPSHOTS: nat := 24

  /** How many points an option asks to keep; the default when it is missing or no positive number. */
  function KeepOf(value: Option<Number>): nat {
    if value.Some? && value.value.Finite? && value.value.value > 0.0 then value.value.value.Floor else MAX_SNAPSHOTS
  }

  /** The comment beside it promises at least one. It is one or more exactly when the option is not a
    * fraction below one, which is rounded down to zero.
    */
  lemma KeepsAtLeastOne(value: Option<Number>)
    ensures KeepOf(value) >= 1 <==> !(value.Some? && value.value.Finite? && 0.0 < value.value.value < 1.0)
  {
  }

  /** The whole part of a positive number, and 24 for anything else. */
  predicate KeepsAsked(value: Option<Number>, kept: nat) {
    if value.Some? && value.value.Finite? && value.value.value > 0.0 then
      kept as real <= value.value.value < kept as real + 1.0
    else kept == 24
  }

  datatype Completion = Completion(queue: string, job: string, runtime: nat)

  function Completed(live: map<Key, Counter>, c: Completion): map<Key, Counter> {
    var queued := AddRuntime(CountOne(live, QueueKey(c.queue)), QueueKey(c.queue), c.runtime);
    AddRuntime(CountOne(queued, JobKey(c.job)), JobKey(c.job), c.runtime)
  }

  /** The counters after one completion after another. */
  function CompletedAll(live: map<Key, Counter>, all: seq<Completion>): map<Key, Counter> {
    if all == [] then live else Completed(CompletedAll(live, all[..|all| - 1]), all[|all| - 1])
  }

  /** However many completions of between `lo` and `hi` a counter has seen, the point rolled up from it and
    * the figure read off it lie between `lo` and `hi`.
    */
  lemma {:induction false} AverageIsBetween(live: map<Key, Counter>, all: seq<Completion>, key: Key, lo: nat, hi: nat,
                                            p: Point)
    requires Between(LiveAt(live, key), lo, hi) && forall c :: c in all ==> lo <= c.runtime <= hi
    ensures Between(LiveAt(CompletedAll(live, all), key), lo, hi)
    ensures Averages(p, LiveAt(CompletedAll(live, all), key)) && p.throughput > 0 ==> lo <= p.runtime <= hi
  {
    if all != [] {
      var before, c := all[..|all| - 1], all[|all| - 1];
      assert c in all && forall other :: other in before ==> other in all;
      AverageIsBetween(live, before, key, lo, hi, p);
      BetweenAdds(LiveAt(CompletedAll(live, before), key), c.runtime, lo, hi);
    }
    if Averages(p, LiveAt(CompletedAll(live, all), key)) && p.throughput > 0 {
      AveragesBetween(p, LiveAt(CompletedAll(live, all), key), lo, hi);
    }
  }

  class MetricsService {
    const keep: Keep
    var live: map<Key, Counter>
    var series: map<Key, seq<Point>>
    var queues: set<string>
    var jobs: set<string>

    constructor (queueSnapshots: Option<Number>, jobSnapshots: Option<Number>)
      ensures KeepsAsked(queueSnapshots, keep.queue) && KeepsAsked(jobSnapshots, keep.job)
      ensures live == map[] && series == map[] && queues == {} && jobs == {}
    {
      keep := Keep(KeepOf(queueSnapshots), KeepOf(jobSnapshots));
      live, series, queues, jobs := map[], map[], {}, {};
    }

    /** Counts a completion against its queue and its job name, and nothing else. */
    method RecordCompleted(queue: string, job: string, runtime: nat)
      modifies this`live, this`queues, this`jobs
      ensures queues == old(queues) + {queue} && jobs == old(jobs) + {job}
      ensures live == Completed(old(live), Completion(queue, job, runtime))
      ensures forall key :: LiveAt(live, key) ==
                var was := LiveAt(old(live), key);
                if key == QueueKey(queue) || key == JobKey(job) then
                  Counter(was.throughput + 1, was.runtime + runtime)
                else was
    {
      queues := queues + {queue};
      jobs := jobs + {job};
      live := CountOne(live, QueueKey(queue));
      live := AddRuntime(live, QueueKey(queue), runtime);
      live := CountOne(live, JobKey(job));
      live := AddRuntime(live, JobKey(job), runtime);
    }

    /** Reads and resets a counter, and pushes what it held: its throughput and its average runtime. */
    method RollUp(source: Key, at: int)
      modifies this`live, this`series
      ensures live == old(live) - {source}
      ensures series == old(series)[source := Extended(old(live), old(series), source, at, keep)]
      ensures series[source] != [] && series[source][0].time == at
      ensures Averages(series[source][0], LiveAt(old(live), source))
      ensures var kept := if source.QueueKey? then keep.queue else keep.job;
              var whole := [series[source][0]] + PointsAt(old(series), source);
              series[source] == if kept == 0 || |whole| <= kept then whole else whole[..kept]
    {
      var raw := LiveAt(live, source);
      live := live - {source};
      var point := Measured(raw, at);
      MeasuredAverages(raw, at);
      series := series[source := [point] + PointsAt(series, source)];
      series := series[source := Ltrim(PointsAt(series, source), KeepFor(keep, source))];
    }

    /** Rolls every counter that was ever used, the queues first. */
    method Snapshot(at: int)
      modifies this`live, this`series
      ensures forall key :: Rolled(key, Known(), at, old(live), old(series), live, series, keep)
      ensures forall key :: key in Known() ==>
                && PointsAt(series, key) != [] && PointsAt(series, key)[0].time == at
                && Averages(PointsAt(series, key)[0], LiveAt(old(live), key)) && LiveAt(live, key) == Counter(0, 0)
    {
      var names := queues;
      ghost var done: set<Key> := {};
      while names != {}
        invariant names <= queues
        invariant done == set name | name in queues && name !in names :: QueueKey(name)
        invariant forall key :: Rolled(key, done, at, old(live), old(series), live, series, keep)
        decreases names
      {
        var name :| name in names;
        assert QueueKey(name) !in done;
        ghost var live', series' := live, series;
        RollUp(QueueKey(name), at);
        RollOne(QueueKey(name), done, at, old(live), old(series), live', series', live, series, keep);
        names := names - {name};
        done := done + {QueueKey(name)};
      }
      names := jobs;
      ghost var first := done;
      assert forall key :: key in first ==> key.QueueKey?;
      while names != {}
        invariant names <= jobs
        invariant done == first + set name | name in jobs && name !in names :: JobKey(name)
        invariant forall key :: Rolled(key, done, at, old(live), old(series), live, series, keep)
        decreases names
      {
        var name :| name in names;
        assert JobKey(name) !in done;
        ghost var live', series' := live, series;
        RollUp(JobKey(name), at);
        RollOne(JobKey(name), done, at, old(live), old(series), live', series', live, series, keep);
        names := names - {name};
        done := done + {JobKey(name)};
      }
      assert done == Known();
      forall key | key in Known() ensures
        && PointsAt(series, key) != [] && PointsAt(series, key)[0].time == at
        && Averages(PointsAt(series, key)[0], LiveAt(old(live), key)) && LiveAt(live, key) == Counter(0, 0)
      {
        assert Rolled(key, done, at, old(live), old(series), live, series, keep);
        MeasuredAverages(LiveAt(old(live), key), at);
      }
    }

    ghost function Known(): set<Key>
      reads this`queues, this`jobs
    {
      (set name | name in queues :: QueueKey(name)) + set name | name in jobs :: JobKey(name)
    }

    /** `snapshots`: the points of a series that are read at all, oldest first. */
    method Snapshots(key: Key) returns (points: seq<Point>)
      ensures points == Reversed(Readable(keep, PointsAt(series, key)))
      ensures var all, most := PointsAt(series, key), if keep.queue > keep.job then keep.queue else keep.job;
              && |points| == (if most == 0 || |all| <= most then |all| else most)
              && forall k :: 0 <= k < |points| ==> points[k] == all[|points| - 1 - k]
    {
      ReversedAt(Readable(keep, PointsAt(series, key)));
      points := Reversed(Readable(keep, PointsAt(series, key)));
    }

    /** The last point that saw work, when the live counter has none: oldest first, read backwards. */
    method Summary(key: Key) returns (r: Point)
      ensures LiveAt(live, key).throughput > 0 ==> Averages(r, LiveAt(live, key))
      ensures LiveAt(live, key).throughput == 0 ==>
                match NewestBusy(Readable(keep, PointsAt(series, key)))
                case None => r.throughput == 0
                case Some(point) => r == point
    {
      var current := Measured(LiveAt(live, key), 0);
      MeasuredAverages(LiveAt(live, key), 0);
      if current.throughput > 0 {
        return current;
      }
      var points := Snapshots(key);
      ghost var read := Readable(keep, PointsAt(series, key));
      ReversedAt(read);
      var i := |points| - 1;
      while i >= 0
        invariant -1 <= i < |points|
        invariant NewestBusy(read) == NewestBusy(read[|points| - 1 - i..])
      {
        if points[i].throughput > 0 {
          return points[i];
        }
        i := i - 1;
      }
      r := current;
    }
  }

  /** `LRANGE key 0 max-1`, where `max` is the larger of the two keeps; a keep of zero on both reads it all. */
  function Readable(keep: Keep, points: seq<Point>): seq<Point> {
    Ltrim(points, if keep.queue < keep.job then keep.job else keep.queue)
  }

  /** A trimmed series is read whole, unless one of the two keeps is zero and the other is not. */
  lemma TrimmedIsReadable(keep: Keep, key: Key, points: seq<Point>)
    requires points == Ltrim(points, KeepFor(keep, key))
    ensures Readable(keep, points) == points
            <==> (keep.queue == 0 && keep.job == 0) || |points| <= keep.queue || |points| <= keep.job
    ensures (keep.queue == 0 <==> keep.job == 0) ==> Readable(keep, points) == points
  {
  }

  function NewestBusy(points: seq<Point>): Option<Point> {
    if points == [] then None
    else if points[0].throughput > 0 then Some(points[0])
    else NewestBusy(points[1..])
  }

  function Reversed(points: seq<Point>): seq<Point> {
    if points == [] then [] else Reversed(points[1..]) + [points[0]]
  }

  lemma {:induction false} ReversedAt(points: seq<Point>)
    ensures |Reversed(points)| == |points|
    ensures forall k :: 0 <= k < |points| ==> Reversed(points)[k] == points[|points| - 1 - k]
  {
    if points != [] {
      ReversedAt(points[1..]);
    }
  }

  /** A series with the measurement of its live counter at its head, trimmed. */
  function Extended(live: map<Key, Counter>, series: map<Key, seq<Point>>, key: Key, at: int, keep: Keep): seq<Point> {
    Ltrim([Measured(LiveAt(live, key), at)] + PointsAt(series, key), KeepFor(keep, key))
  }

  /** What a snapshot does to one key: rolled exactly once if it is known, untouched otherwise. */
  predicate Rolled(key: Key, done: set<Key>, at: int, live: map<Key, Counter>, series: map<Key, seq<Point>>,
                   live': map<Key, Counter>, series': map<Key, seq<Point>>, keep: Keep) {
    if key in done then
      && LiveAt(live', key) == Counter(0, 0)
      && PointsAt(series', key) == Extended(live, series, key, at, keep)
    else
      LiveAt(live', key) == LiveAt(live, key) && PointsAt(series', key) == PointsAt(series, key)
  }

  lemma RollOne(source: Key, done: set<Key>, at: int, live0: map<Key, Counter>, series0: map<Key, seq<Point>>,
                live: map<Key, Counter>, series: map<Key, seq<Point>>,
                live': map<Key, Counter>, series': map<Key, seq<Point>>, keep: Keep)
    requires source !in done && forall key :: Rolled(key, done, at, live0, series0, live, series, keep)
    requires live' == live - {source}
    requires series' == series[source := Extended(live, series, source, at, keep)]
    ensures forall key :: Rolled(key, done + {source}, at, live0, series0, live', series', keep)
  {
    forall key ensures Rolled(key, done + {source}, at, live0, series0, live', series', keep) {
      assert Rolled(key, done, at, live0, series0, live, series, keep);
    }
  }

  /** Four commands of one completion, with nobody in between, are one `RecordCompleted`. */
  lemma CompletedIsFourSends(keep: Keep, s: State, i: nat)
    requires i < |s.recorders| && s.recorders[i].sent == 0
    ensures var r := s.recorders[i];
            var first := Apply(keep, Apply(keep, s, Send(i)), Send(i));
            var s' := Apply(keep, Apply(keep, first, Send(i)), Send(i));
            && s' == s.(live := s'.live, recorders := s.recorders[i := r.(sent := 4)])
            && s'.live == Completed(s.live, Completion(r.queue, r.job, r.runtime))
  {
  }

  /** Three steps of one snapshotter, with nobody in between, are one roll-up. */
  lemma RollUpIsThreeSteps(keep: Keep, s: State, i: nat, key: Key)
    requires i < |s.rollers| && s.rollers[i].stage.Reading?
    ensures var r := s.rollers[i];
            var s' := RollStep(keep, RollStep(keep, RollStep(keep, s, i), i), i);
            && s'.rollers[i].stage.Done?
            && Rolled(key, {r.source}, r.at, s.live, s.series, s'.live, s'.series, keep)
  {
  }
}
