/** `JobsService.retryAll`: a chunked loop over a failed set that shrinks as it runs. */
module RetryAll {
  import opened Lists

  /** Failed jobs pulled per round. */
  const RETRY_CHUNK: nat := 100

  /** The failed jobs of one queue in the order they are read, and the ones that refuse to move. */
  class FailedSet {
    var failed: seq<string>
    const refuses: set<string>
    ghost var tried: seq<string>

    constructor (failed: seq<string>, refuses: set<string>)
      ensures this.failed == failed && this.refuses == refuses && tried == []
    {
      this.failed := failed;
      this.refuses := refuses;
      tried := [];
    }

    /** Puts a failed job back on its queue, or throws. */
    method Retry(id: string) returns (moved: bool)
      modifies this
      ensures moved <==> id in old(failed) && id !in refuses
      ensures failed == if moved then Lrem(old(failed), id) else old(failed)
      ensures tried == old(tried) + [id]
    {
      tried := tried + [id];
      moved := id in failed && id !in refuses;
      if moved {
        failed := Lrem(failed, id);
      }
    }
  }

  function Ids(ids: seq<string>): set<string> { set id | id in ids }

  function Chunk(ids: seq<string>): seq<string> {
    if |ids| <= RETRY_CHUNK then ids else ids[..RETRY_CHUNK]
  }

  /** What `retryAll` leaves behind, given how many refusing jobs stand ahead: the refusing jobs, and
    * every job with a full chunk of refusing jobs ahead of it. */
  function Left(ids: seq<string>, refuses: set<string>, ahead: nat): seq<string> {
    if ids == [] then []
    else if ids[0] in refuses then [ids[0]] + Left(ids[1..], refuses, ahead + 1)
    else if ahead < RETRY_CHUNK then Left(ids[1..], refuses, ahead)
    else [ids[0]] + Left(ids[1..], refuses, ahead)
  }

  /** The refusing jobs among `ids`. */
  function Stuck(ids: seq<string>, refuses: set<string>): nat {
    if ids == [] then 0 else (if ids[0] in refuses then 1 else 0) + Stuck(ids[1..], refuses)
  }

  // ----- What is left, job by job -----

  /** A job is left exactly when it refuses, or when a hundred refusing jobs stand ahead of it. */
  lemma {:induction false} LeftExactly(ids: seq<string>, refuses: set<string>, ahead: nat, i: nat)
    requires Distinct(ids) && i < |ids|
    ensures ids[i] in Left(ids, refuses, ahead)
            <==> ids[i] in refuses || ahead + Stuck(ids[..i], refuses) >= 100
  {
    var rest := ids[1..];
    var now := if ids[0] in refuses then ahead + 1 else ahead;
    if i == 0 {
      LeftMembers(rest, refuses, now);
    } else {
      assert ids[..i][1..] == rest[..i - 1] && ids[..i][0] == ids[0];
      DistinctRest(ids);
      LeftExactly(rest, refuses, now, i - 1);
      assert ids[i] != ids[0];
    }
  }

  lemma {:induction false} LeftMembers(ids: seq<string>, refuses: set<string>, ahead: nat)
    ensures forall id :: id in Left(ids, refuses, ahead) ==> id in ids
    ensures |Left(ids, refuses, ahead)| <= |ids|
  {
    if ids != [] {
      LeftMembers(ids[1..], refuses, if ids[0] in refuses then ahead + 1 else ahead);
    }
  }

  /** Fewer than a hundred refusing jobs: every other job moves, so only the refusing ones are left. */
  lemma {:induction false} FewRefusalsMoveTheRest(ids: seq<string>, refuses: set<string>, ahead: nat)
    requires ahead + Stuck(ids, refuses) < 100
    ensures |Left(ids, refuses, ahead)| == Stuck(ids, refuses)
    ensures forall id :: id in Left(ids, refuses, ahead) ==> id in refuses
    ensures forall id :: id in ids && id in refuses ==> id in Left(ids, refuses, ahead)
  {
    if ids != [] {
      FewRefusalsMoveTheRest(ids[1..], refuses, if ids[0] in refuses then ahead + 1 else ahead);
      assert ids == [ids[0]] + ids[1..];
    }
  }

  // ----- Moving a job does not change what will be left -----

  /** Dropping a job that moves, and that a chunk can reach, leaves the same jobs in the end. */
  lemma {:induction false} DropKeepsLeft(ids: seq<string>, refuses: set<string>, ahead: nat, id: string)
    requires id !in refuses && Distinct(ids)
    requires forall i :: 0 <= i < |ids| && ids[i] == id ==> ahead + i < RETRY_CHUNK
    ensures Left(Lrem(ids, id), refuses, ahead) == Left(ids, refuses, ahead)
  {
    if ids != [] {
      var rest := ids[1..];
      DistinctRest(ids);
      LremFirst(ids, id);
      if ids[0] == id {
        LremAbsent(rest, id);
        assert Lrem(ids, id) == rest;
      } else {
        var now := if ids[0] in refuses then ahead + 1 else ahead;
        assert forall i :: 0 <= i < |rest| && rest[i] == id ==> ids[i + 1] == id;
        DropKeepsLeft(rest, refuses, now, id);
        assert ([ids[0]] + Lrem(rest, id))[1..] == Lrem(rest, id);
      }
    }
  }

  /** Once a whole chunk refuses, or all that is left does, nothing more will move. */
  lemma {:induction false} StuckChunkStays(ids: seq<string>, refuses: set<string>, ahead: nat)
    requires forall i :: 0 <= i < |ids| && ahead + i < RETRY_CHUNK ==> ids[i] in refuses
    ensures Left(ids, refuses, ahead) == ids
  {
    if ids != [] {
      var rest := ids[1..];
      if ids[0] in refuses {
        assert forall i :: 0 <= i < |rest| && ahead + 1 + i < RETRY_CHUNK ==> rest[i] == ids[i + 1];
        StuckChunkStays(rest, refuses, ahead + 1);
      } else {
        StuckChunkStays(rest, refuses, ahead);
      }
    }
  }

  // ----- The loop -----

  /** Every job of `these` stands where a chunk read from the start reaches it. */
  ghost predicate Reached(ids: seq<string>, ahead: nat, these: set<string>) {
    forall i :: 0 <= i < |ids| && ids[i] in these ==> ahead + i < RETRY_CHUNK
  }

  lemma {:induction false} DropReached(ids: seq<string>, ahead: nat, these: set<string>, id: string)
    requires Reached(ids, ahead, these)
    ensures Reached(Lrem(ids, id), ahead, these)
  {
    if ids != [] {
      var rest := ids[1..];
      assert forall i :: 0 <= i < |rest| ==> rest[i] == ids[i + 1];
      DropReached(rest, ahead + 1, these, id);
    }
  }

  function NotIn(seen: set<string>): string -> bool { (id: string) => id !in seen }

  function Fresh(jobs: seq<string>, seen: set<string>): seq<string> { Keep(jobs, NotIn(seen)) }

  lemma FreshMembers(jobs: seq<string>, seen: set<string>)
    requires Distinct(jobs)
    ensures forall id :: id in Fresh(jobs, seen) <==> id in jobs && id !in seen
    ensures Distinct(Fresh(jobs, seen))
  {
    KeepMembers(jobs, NotIn(seen));
    KeepDistinct(jobs, NotIn(seen));
  }

  lemma ChunkReached(ids: seq<string>, seen: set<string>)
    requires Distinct(ids)
    ensures Distinct(Chunk(ids))
    ensures Reached(ids, 0, Ids(Fresh(Chunk(ids), seen)))
    ensures forall id :: id in Chunk(ids) ==> id in ids
  {
    FreshMembers(Chunk(ids), seen);
    forall i | 0 <= i < |ids| && ids[i] in Fresh(Chunk(ids), seen) ensures i < RETRY_CHUNK {
      var k :| 0 <= k < |Chunk(ids)| && Chunk(ids)[k] == ids[i];
      assert k == i;
    }
  }

  /** What the loop keeps: the same jobs will be left, and no job is tried a second time. `log` holds the
    * jobs tried so far. */
  ghost predicate Progress(failed: seq<string>, refuses: set<string>, log: seq<string>, was: seq<string>,
                           seen: set<string>, retried: nat)
  {
    && Distinct(failed) && Distinct(log)
    && Left(failed, refuses, 0) == Left(was, refuses, 0)
    && retried + |failed| == |was|
    && (forall id :: id in failed ==> id in was)
    && (forall id :: id in seen && id in failed ==> id in refuses)
    && (forall id :: id in log <==> id in seen)
  }

  function After(failed: seq<string>, refuses: set<string>, id: string): seq<string> {
    if id in refuses then failed else Lrem(failed, id)
  }

  lemma TryOne(failed: seq<string>, refuses: set<string>, log: seq<string>, was: seq<string>, seen: set<string>,
               retried: nat, id: string, these: set<string>)
    requires Progress(failed, refuses, log, was, seen, retried)
    requires id in failed && id !in seen && id in these && Reached(failed, 0, these)
    ensures var left := After(failed, refuses, id);
            && Progress(left, refuses, log + [id], was, seen + {id}, if id in refuses then retried else retried + 1)
            && Reached(left, 0, these)
            && (forall other :: other in failed && other != id ==> other in left)
  {
    assert id !in log;
    if id !in refuses {
      DropKeepsLeft(failed, refuses, 0, id);
    }
    LremMembers(failed, id);
    KeepDistinct(failed, OtherThan(id));
    LremCounted(failed, id);
    DropReached(failed, 0, these, id);
  }

  /** What one read of the failed set gives: the round's jobs, or the end of the loop. */
  lemma Round(failed: seq<string>, refuses: set<string>, log: seq<string>, was: seq<string>, seen: set<string>,
              retried: nat)
    requires Progress(failed, refuses, log, was, seen, retried)
    ensures var untried := Fresh(Chunk(failed), seen);
            && Distinct(untried) && Reached(failed, 0, Ids(untried))
            && (forall id :: id in untried ==> id in failed && id in was && id !in seen)
            && (untried == [] ==> failed == Left(was, refuses, 0))
  {
    ChunkReached(failed, seen);
    FreshMembers(Chunk(failed), seen);
    if Fresh(Chunk(failed), seen) == [] {
      forall i | 0 <= i < |failed| && i < RETRY_CHUNK ensures failed[i] in refuses {
        assert Chunk(failed)[i] == failed[i];
        assert Chunk(failed)[i] in seen;
      }
      StuckChunkStays(failed, refuses, 0);
    }
  }

  /** Retries every failed job of a queue in chunks, always from the start: retried jobs leave the set. */
  method RetryQueue(q: FailedSet) returns (retried: nat, ghost log: seq<string>)
    requires Distinct(q.failed)
    modifies q
    ensures q.failed == Left(old(q.failed), q.refuses, 0)
    ensures retried + |q.failed| == |old(q.failed)|
    ensures q.tried == old(q.tried) + log && Distinct(log)
  {
    var seen: set<string> := {};
    retried := 0;
    log := [];
    ghost var was, first := q.failed, q.tried;
    ghost var all := Ids(was);
    var more := true;
    while more
      invariant Progress(q.failed, q.refuses, log, was, seen, retried) && seen <= all
      invariant q.tried == first + log
      invariant !more ==> q.failed == Left(was, q.refuses, 0)
      decreases more, all - seen
    {
      more, retried, seen, log := RetryRound(q, seen, retried, was, log, first, all);
    }
  }

  /** The body of the loop: reads the chunk, and stops when it holds nothing new. */
  method RetryRound(q: FailedSet, seen: set<string>, retried: nat, ghost was: seq<string>, ghost log: seq<string>,
                    ghost first: seq<string>, ghost all: set<string>)
      returns (more: bool, retried': nat, seen': set<string>, ghost log': seq<string>)
    requires Progress(q.failed, q.refuses, log, was, seen, retried)
    requires q.tried == first + log && seen <= all && all == Ids(was)
    modifies q
    ensures Progress(q.failed, q.refuses, log', was, seen', retried') && seen' <= all
    ensures q.tried == first + log'
    ensures if more then all - seen' < all - seen else q.failed == Left(was, q.refuses, 0)
  {
    Round(q.failed, q.refuses, log, was, seen, retried);
    var jobs := Chunk(q.failed);
    var untried := Fresh(jobs, seen);
    if untried == [] {
      return false, retried, seen, log;
    }
    Shrinks(all, seen, untried);
    more := true;
    retried', seen' := RetryChunk(q, untried, seen, retried, was, log);
    log' := log + untried;
  }

  lemma Shrinks(all: set<string>, seen: set<string>, untried: seq<string>)
    requires untried != [] && forall id :: id in untried ==> id in all && id !in seen
    ensures all - (seen + Ids(untried)) < all - seen
  {
    assert untried[0] in all - seen && untried[0] !in all - (seen + Ids(untried));
  }

  /** Where a round stands once `k` of its jobs have been tried. */
  ghost predicate InChunk(failed: seq<string>, refuses: set<string>, log: seq<string>, was: seq<string>,
                          seen: set<string>, untried: seq<string>, k: nat, seen': set<string>, retried: nat)
  {
    && k <= |untried|
    && Progress(failed, refuses, log + untried[..k], was, seen', retried)
    && seen' == seen + Ids(untried[..k])
    && (forall j :: k <= j < |untried| ==> untried[j] in failed)
    && Reached(failed, 0, Ids(untried))
  }

  lemma ChunkNext(failed: seq<string>, refuses: set<string>, log: seq<string>, was: seq<string>, seen: set<string>,
                  untried: seq<string>, k: nat, seen': set<string>, retried: nat)
    requires Distinct(untried) && k < |untried| && forall id :: id in untried ==> id !in seen
    requires InChunk(failed, refuses, log, was, seen, untried, k, seen', retried)
    ensures untried[k] in failed
    ensures InChunk(After(failed, refuses, untried[k]), refuses, log, was, seen, untried, k + 1, seen' + {untried[k]},
                    if untried[k] in refuses then retried else retried + 1)
  {
    var id := untried[k];
    assert id !in untried[..k] && id in untried;
    TryOne(failed, refuses, log + untried[..k], was, seen', retried, id, Ids(untried));
    assert untried[..k + 1] == untried[..k] + [id];
    assert Ids(untried[..k + 1]) == Ids(untried[..k]) + {id};
    assert log + untried[..k] + [id] == log + untried[..k + 1];
  }

  lemma ChunkStarts(failed: seq<string>, refuses: set<string>, log: seq<string>, was: seq<string>, seen: set<string>,
                    untried: seq<string>, retried: nat)
    requires Progress(failed, refuses, log, was, seen, retried) && Reached(failed, 0, Ids(untried))
    requires forall id :: id in untried ==> id in failed
    ensures InChunk(failed, refuses, log, was, seen, untried, 0, seen, retried)
  {
    assert log + untried[..0] == log && Ids(untried[..0]) == {};
  }

  lemma ChunkEnds(failed: seq<string>, refuses: set<string>, log: seq<string>, was: seq<string>, seen: set<string>,
                  untried: seq<string>, seen': set<string>, retried: nat)
    requires InChunk(failed, refuses, log, was, seen, untried, |untried|, seen', retried)
    ensures Progress(failed, refuses, log + untried, was, seen', retried)
    ensures seen' == seen + Ids(untried) && untried[..|untried|] == untried
  {
    assert untried[..|untried|] == untried;
  }

  /** One turn of a round. */
  method RetryNext(q: FailedSet, untried: seq<string>, ghost seen: set<string>, retried: nat, ghost was: seq<string>,
                   ghost log: seq<string>, k: nat, ghost tried: set<string>) returns (retried': nat)
    requires Distinct(untried) && k < |untried| && forall id :: id in untried ==> id !in seen
    requires InChunk(q.failed, q.refuses, log, was, seen, untried, k, tried, retried)
    modifies q
    ensures InChunk(q.failed, q.refuses, log, was, seen, untried, k + 1, tried + {untried[k]}, retried')
    ensures q.tried == old(q.tried) + [untried[k]]
  {
    ChunkNext(q.failed, q.refuses, log, was, seen, untried, k, tried, retried);
    retried' := retried;
    var moved := q.Retry(untried[k]);
    if moved {
      retried' := retried' + 1;
    }
    assert q.failed == After(old(q.failed), q.refuses, untried[k]);
  }

  /** One round: every job of the chunk that was not tried yet is tried once. */
  method RetryChunk(q: FailedSet, untried: seq<string>, seen: set<string>, retried: nat,
                    ghost was: seq<string>, ghost log: seq<string>)
      returns (retried': nat, seen': set<string>)
    requires Progress(q.failed, q.refuses, log, was, seen, retried)
    requires Distinct(untried) && (forall id :: id in untried ==> id in q.failed && id !in seen)
    requires Reached(q.failed, 0, Ids(untried))
    modifies q
    ensures Progress(q.failed, q.refuses, log + untried, was, seen', retried')
    ensures seen' == seen + Ids(untried)
    ensures q.tried == old(q.tried) + untried
  {
    retried', seen' := retried, seen;
    ChunkStarts(q.failed, q.refuses, log, was, seen, untried, retried);
    for k := 0 to |untried|
      invariant InChunk(q.failed, q.refuses, log, was, seen, untried, k, seen', retried')
      invariant q.tried == old(q.tried) + untried[..k]
    {
      ghost var before := seen';
      seen' := seen' + {untried[k]};
      retried' := RetryNext(q, untried, seen, retried', was, log, k, before);
      assert untried[..k + 1] == untried[..k] + [untried[k]];
    }
    ChunkEnds(q.failed, q.refuses, log, was, seen, untried, seen', retried');
  }

  /** Retries every failed job of the queues, one queue after another. */
  method RetryEvery(queues: seq<FailedSet>) returns (retried: nat)
    requires forall i, j :: 0 <= i < j < |queues| ==> queues[i] != queues[j]
    requires forall i :: 0 <= i < |queues| ==> Distinct(queues[i].failed)
    modifies queues
    ensures forall i :: 0 <= i < |queues| ==> queues[i].failed == Left(old(queues[i].failed), queues[i].refuses, 0)
    ensures retried + FailedIn(queues) == old(FailedIn(queues))
  {
    retried := 0;
    for k := 0 to |queues|
      invariant forall i :: 0 <= i < k ==> queues[i].failed == Left(old(queues[i].failed), queues[i].refuses, 0)
      invariant forall i :: k <= i < |queues| ==> queues[i].failed == old(queues[i].failed)
      invariant retried + FailedIn(queues[..k]) == old(FailedIn(queues[..k]))
    {
      assert queues[k] !in queues[..k] && queues[..k + 1][..k] == queues[..k];
      ghost var done := FailedIn(queues[..k]);
      var n, _ := RetryQueue(queues[k]);
      assert FailedIn(queues[..k]) == done;
      retried := retried + n;
    }
    assert queues[..|queues|] == queues;
  }

  ghost function FailedIn(queues: seq<FailedSet>): nat
    reads queues
  {
    if queues == [] then 0 else FailedIn(queues[..|queues| - 1]) + |queues[|queues| - 1].failed|
  }
}
