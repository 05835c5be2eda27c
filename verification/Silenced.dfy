/** The index of jobs that finished quietly: one sorted set a queue, read at one retention floor. */
module Silenced {
  import opened Lists
  import opened Options
  import opened BoundedMerge
  import opened JobRefs
  import opened JobsListing

  /** Most a single read of the index pulls back. */
  const MAX_SCAN: nat := 1000

  datatype Entry = Entry(jobId: string, at: int)

  /** A sorted set a queue. */
  type Index = map<string, seq<Entry>>

  /** A row of the merge across queues. */
  datatype Row = Row(ref: JobRef, at: int)

  datatype SilencedPage = SilencedPage(refs: seq<JobRef>, total: nat, reachable: Option<nat>)

  // ----- Sorted sets, highest score first -----

  function LexBefore(a: string, b: string): bool {
    if b == [] then false else if a == [] then true
    else a[0] < b[0] || (a[0] == b[0] && LexBefore(a[1..], b[1..]))
  }

  function ZRem(z: seq<Entry>, id: string): seq<Entry> {
    if z == [] then [] else (if z[0].jobId == id then [] else [z[0]]) + ZRem(z[1..], id)
  }

  /** Equal scores come back in reverse order of the member. */
  function ZInsert(z: seq<Entry>, e: Entry): seq<Entry> {
    if z == [] || z[0].at < e.at || (z[0].at == e.at && LexBefore(z[0].jobId, e.jobId)) then [e] + z
    else [z[0]] + ZInsert(z[1..], e)
  }

  /** ZADD rewrites the score of a member it already has. */
  function ZAdd(z: seq<Entry>, id: string, at: int): seq<Entry> { ZInsert(ZRem(z, id), Entry(id, at)) }

  function ZRemRange(z: seq<Entry>, low: int, high: int): seq<Entry> {
    if z == [] then []
    else (if low <= z[0].at <= high then [] else [z[0]]) + ZRemRange(z[1..], low, high)
  }

  /** The entries with a score of `floor` or more, the newest first. */
  function Live(z: seq<Entry>, floor: int): seq<Entry> {
    if z == [] then [] else (if z[0].at >= floor then [z[0]] else []) + Live(z[1..], floor)
  }

  /** Ordered by score, with one entry a job. */
  ghost predicate ZSet(z: seq<Entry>) {
    z != [] ==> ZSet(z[1..]) && forall e :: e in z[1..] ==> z[0].at >= e.at && z[0].jobId != e.jobId
  }

  lemma {:induction false} ZSetOrdered(z: seq<Entry>, i: nat, j: nat)
    requires ZSet(z) && i < j < |z|
    ensures z[i].at >= z[j].at && z[i].jobId != z[j].jobId
  {
    if i > 0 {
      ZSetOrdered(z[1..], i - 1, j - 1);
    } else {
      assert z[j] == z[1..][j - 1];
    }
  }

  lemma ZSetCons(e: Entry, z: seq<Entry>)
    requires ZSet(z) && forall other :: other in z ==> e.at >= other.at && e.jobId != other.jobId
    ensures ZSet([e] + z)
  {
    assert ([e] + z)[1..] == z;
  }

  lemma {:induction false} ZRemIs(z: seq<Entry>, id: string)
    requires ZSet(z)
    ensures ZSet(ZRem(z, id))
    ensures forall e :: e in ZRem(z, id) <==> e in z && e.jobId != id
  {
    if z != [] {
      ZRemIs(z[1..], id);
      assert z == [z[0]] + z[1..];
      if z[0].jobId != id {
        ZSetCons(z[0], ZRem(z[1..], id));
      } else {
        assert ZRem(z, id) == ZRem(z[1..], id);
      }
    }
  }

  lemma {:induction false} ZInsertIs(z: seq<Entry>, e: Entry)
    requires ZSet(z) && forall other :: other in z ==> other.jobId != e.jobId
    ensures ZSet(ZInsert(z, e))
    ensures forall other :: other in ZInsert(z, e) <==> other == e || other in z
  {
    if z == [] {
      ZSetCons(e, z);
    } else {
      assert z == [z[0]] + z[1..];
      if z[0].at < e.at || (z[0].at == e.at && LexBefore(z[0].jobId, e.jobId)) {
        ZSetCons(e, z);
      } else {
        ZInsertIs(z[1..], e);
        ZSetCons(z[0], ZInsert(z[1..], e));
      }
    }
  }

  /** Adding an entry keeps the set ordered and with one entry a job, and leaves the others alone. */
  lemma ZAddIs(z: seq<Entry>, id: string, at: int)
    requires ZSet(z)
    ensures ZSet(ZAdd(z, id, at))
    ensures forall e :: e in ZAdd(z, id, at) <==> e == Entry(id, at) || (e in z && e.jobId != id)
  {
    ZRemIs(z, id);
    ZInsertIs(ZRem(z, id), Entry(id, at));
  }

  lemma {:induction false} ZRemRangeIs(z: seq<Entry>, low: int, high: int)
    requires ZSet(z)
    ensures ZSet(ZRemRange(z, low, high))
    ensures forall e :: e in ZRemRange(z, low, high) <==> e in z && !(low <= e.at <= high)
  {
    if z != [] {
      ZRemRangeIs(z[1..], low, high);
      assert z == [z[0]] + z[1..];
      if low <= z[0].at <= high {
        assert ZRemRange(z, low, high) == ZRemRange(z[1..], low, high);
      } else {
        ZSetCons(z[0], ZRemRange(z[1..], low, high));
      }
    }
  }

  lemma {:induction false} LiveIs(z: seq<Entry>, floor: int)
    requires ZSet(z)
    ensures ZSet(Live(z, floor))
    ensures forall e :: e in Live(z, floor) <==> e in z && e.at >= floor
  {
    if z != [] {
      LiveIs(z[1..], floor);
      assert z == [z[0]] + z[1..];
      if z[0].at >= floor {
        ZSetCons(z[0], Live(z[1..], floor));
      } else {
        assert Live(z, floor) == Live(z[1..], floor);
      }
    }
  }

  lemma RowsOrdered(queue: string, z: seq<Entry>, floor: int)
    requires ZSet(z)
    ensures Ordered(AtOf(), ToRows(queue, Live(z, floor)))
  {
    LiveIs(z, floor);
    var live := Live(z, floor);
    forall i, j | 0 <= i < j < |live| ensures live[i].at >= live[j].at {
      ZSetOrdered(live, i, j);
    }
  }

  // ----- Rows of the merge -----

  function ToRows(queue: string, entries: seq<Entry>): (rows: seq<Row>)
    ensures |rows| == |entries|
    ensures forall k :: 0 <= k < |rows| ==> rows[k] == Row(JobRef(queue, entries[k].jobId), entries[k].at)
  {
    seq(|entries|, k requires 0 <= k < |entries| => Row(JobRef(queue, entries[k].jobId), entries[k].at))
  }

  function RefsOf(rows: seq<Row>): (refs: seq<JobRef>)
    ensures |refs| == |rows|
    ensures forall k :: 0 <= k < |refs| ==> refs[k] == rows[k].ref
  {
    seq(|rows|, k requires 0 <= k < |rows| => rows[k].ref)
  }

  function AtOf(): Row -> int { (row: Row) => row.at }

  /** The index as it is read at one floor: a source a queue, each limited alike. */
  function IndexSources(index: Index, keys: seq<string>, floor: int, limit: nat): seq<Source<Row>> {
    if keys == [] then []
    else
      [Source(ToRows(keys[0], Live(EntriesAt(index, keys[0]), floor)), limit)]
      + IndexSources(index, keys[1..], floor, limit)
  }

  function EntriesAt(index: Index, queue: string): seq<Entry> {
    if queue in index then index[queue] else []
  }

  function TotalLive(index: Index, keys: seq<string>, floor: int): nat {
    if keys == [] then 0 else |Live(EntriesAt(index, keys[0]), floor)| + TotalLive(index, keys[1..], floor)
  }

  ghost predicate ValidIndex(index: Index) {
    forall queue :: queue in index ==> ZSet(index[queue])
  }

  lemma LiveTells(queue: string, z: seq<Entry>, floor: int, limit: nat, m: nat)
    requires ZSet(z) && m <= limit
    ensures Tells(AtOf(), m, Source(ToRows(queue, Live(z, floor)), limit))
  {
    RowsOrdered(queue, z, floor);
    OrderedTells(AtOf(), m, Source(ToRows(queue, Live(z, floor)), limit));
  }

  lemma {:induction false} SourcesOrdered(index: Index, keys: seq<string>, floor: int, limit: nat, m: nat)
    requires ValidIndex(index) && m <= limit
    ensures var sources := IndexSources(index, keys, floor, limit);
            forall i :: 0 <= i < |sources| ==> Tells(AtOf(), m, sources[i])
  {
    if keys != [] {
      var z := EntriesAt(index, keys[0]);
      assert ZSet(z);
      var sources := IndexSources(index, keys, floor, limit);
      assert sources[1..] == IndexSources(index, keys[1..], floor, limit);
      LiveTells(keys[0], z, floor, limit, m);
      SourcesOrdered(index, keys[1..], floor, limit, m);
      forall i | 0 <= i < |sources| ensures Tells(AtOf(), m, sources[i]) {
        if i > 0 {
          assert sources[i] == sources[1..][i - 1];
        }
      }
    }
  }

  lemma {:induction false} WholeSame(index: Index, keys: seq<string>, floor: int, limit: nat)
    ensures Whole(IndexSources(index, keys, floor, limit)) == AllLive(index, keys, floor)
    ensures |AllLive(index, keys, floor)| == TotalLive(index, keys, floor)
  {
    if keys != [] {
      WholeSame(index, keys[1..], floor, limit);
      assert IndexSources(index, keys, floor, limit)[1..] == IndexSources(index, keys[1..], floor, limit);
    }
  }

  function AllLive(index: Index, keys: seq<string>, floor: int): seq<Row> {
    if keys == [] then []
    else ToRows(keys[0], Live(EntriesAt(index, keys[0]), floor)) + AllLive(index, keys[1..], floor)
  }

  // ----- A WITHSCORES reply -----

  datatype Reply = Member(id: string) | Score(at: int)

  function Flattened(entries: seq<Entry>): (reply: seq<Reply>)
    ensures |reply| == 2 * |entries|
    ensures forall k :: 0 <= k < |entries| ==>
              reply[2 * k] == Member(entries[k].jobId) && reply[2 * k + 1] == Score(entries[k].at)
  {
    if entries == [] then [] else [Member(entries[0].jobId), Score(entries[0].at)] + Flattened(entries[1..])
  }

  lemma {:induction false} FlattenedTail(entries: seq<Entry>, i: nat)
    requires i < |entries|
    ensures Flattened(entries)[2 * i..] == [Member(entries[i].jobId), Score(entries[i].at)]
            + Flattened(entries[i + 1..])
  {
    if i > 0 {
      FlattenedTail(entries[1..], i - 1);
      assert Flattened(entries)[2 * i..] == Flattened(entries[1..])[2 * (i - 1)..];
      assert entries[1..][i..] == entries[i + 1..];
    }
  }

  // ----- What the pages and the counts mean -----

  function UpTo(page: nat, perPage: nat): nat { Min((page + 1) * perPage, MAX_SCAN) }

  /** The whole silenced listing, the newest first. */
  function SilencedListing(index: Index, keys: seq<string>, floor: int): seq<Row> {
    Sorted(AtOf(), AllLive(index, keys, floor))
  }

  /** It is in the order its jobs were recorded, the last of them first. */
  lemma ListedNewestFirst(index: Index, keys: seq<string>, floor: int, i: nat, j: nat)
    requires i < j < |SilencedListing(index, keys, floor)|
    ensures SilencedListing(index, keys, floor)[i].at >= SilencedListing(index, keys, floor)[j].at
  {
    SortedIsStable(AtOf(), AllLive(index, keys, floor));
  }

  /** A page across queues. */
  function MergedPage(index: Index, keys: seq<string>, floor: int, page: nat, perPage: nat): seq<JobRef> {
    RefsOf(Page(Sorted(AtOf(), Collected(IndexSources(index, keys, floor, UpTo(page, perPage)))), page, perPage))
  }

  /** A page across queues that ends within the window is the page of the whole silenced listing. */
  lemma MergedPageIsFull(index: Index, keys: seq<string>, floor: int, page: nat, perPage: nat)
    requires ValidIndex(index) && (page + 1) * perPage <= MAX_SCAN
    ensures MergedPage(index, keys, floor, page, perPage)
            == RefsOf(Page(SilencedListing(index, keys, floor), page, perPage))
  {
    var m := (page + 1) * perPage;
    SourcesOrdered(index, keys, floor, m, m);
    WholeSame(index, keys, floor, m);
    PageIsFull(AtOf(), IndexSources(index, keys, floor, m), page, perPage);
  }

  function MergedPageOf(index: Index, keys: seq<string>, floor: int, perPage: nat): nat -> seq<JobRef> {
    (page: nat) => MergedPage(index, keys, floor, page, perPage)
  }

  lemma RefsOfPage(rows: seq<Row>, page: nat, perPage: nat)
    ensures RefsOf(Page(rows, page, perPage)) == Page(RefsOf(rows), page, perPage)
  {
  }

  /** Consecutive pages across queues put together are the beginning of the silenced listing. */
  lemma MergedPagesConcatenate(index: Index, keys: seq<string>, floor: int, count: nat, perPage: nat)
    requires ValidIndex(index) && count * perPage <= MAX_SCAN
    ensures InTurn(MergedPageOf(index, keys, floor, perPage), count)
            == Prefix(count * perPage, RefsOf(SilencedListing(index, keys, floor)))
  {
    var listing := SilencedListing(index, keys, floor);
    forall page: nat | page < count
      ensures MergedPageOf(index, keys, floor, perPage)(page) == PageAt(RefsOf(listing), perPage)(page)
    {
      PageWithin(page, count, perPage);
      MergedPageIsFull(index, keys, floor, page, perPage);
      RefsOfPage(listing, page, perPage);
    }
    InTurnSame(MergedPageOf(index, keys, floor, perPage), PageAt(RefsOf(listing), perPage), count);
    PagesConcatenate(RefsOf(listing), count, perPage);
  }

  /** Read alone, a queue with no other index beside it gives the pages the merge gives. */
  lemma OneQueueAgrees(index: Index, queue: string, floor: int, page: nat, perPage: nat)
    requires ValidIndex(index)
    ensures Page(SilencedListing(index, [queue], floor), page, perPage)
            == Page(ToRows(queue, Live(EntriesAt(index, queue), floor)), page, perPage)
  {
    var rows := ToRows(queue, Live(EntriesAt(index, queue), floor));
    RowsOrdered(queue, EntriesAt(index, queue), floor);
    assert AllLive(index, [queue], floor) == rows;
    SortedFixed(AtOf(), rows);
  }

  /** The strings `members` hides, which stop at the window on each queue. */
  function MembersOf(index: Index, keys: seq<string>, floor: int): set<string> {
    if keys == [] then {}
    else Encoded(keys[0], Prefix(MAX_SCAN, Live(EntriesAt(index, keys[0]), floor))) + MembersOf(index, keys[1..], floor)
  }

  function Encoded(queue: string, entries: seq<Entry>): set<string> {
    set k | 0 <= k < |entries| :: Encode(JobRef(queue, entries[k].jobId))
  }

  /** No queue has more live entries than one read returns, and no name has a colon. */
  ghost predicate WithinScan(index: Index, keys: seq<string>, floor: int) {
    && ValidIndex(index)
    && (forall i, j :: 0 <= i < j < |keys| ==> keys[i] != keys[j])
    && (forall key :: key in keys ==> ':' !in key && |Live(EntriesAt(index, key), floor)| <= MAX_SCAN)
  }

  function RefSet(rows: seq<Row>): set<JobRef> { set row | row in rows :: row.ref }

  lemma WithinRest(index: Index, keys: seq<string>, floor: int)
    requires keys != [] && WithinScan(index, keys, floor)
    ensures WithinScan(index, keys[1..], floor)
  {
    var rest := keys[1..];
    assert forall key :: key in rest ==> key in keys;
    assert forall i :: 0 <= i < |rest| ==> rest[i] == keys[i + 1];
  }

  lemma AllLiveFirst(index: Index, keys: seq<string>, floor: int)
    requires keys != []
    ensures var own := ToRows(keys[0], Live(EntriesAt(index, keys[0]), floor));
            && RefSet(AllLive(index, keys, floor)) == RefSet(own) + RefSet(AllLive(index, keys[1..], floor))
            && (forall ref :: ref in RefSet(own) ==> ref.queue == keys[0])
  {
  }

  lemma {:induction false} AllLiveQueues(index: Index, keys: seq<string>, floor: int)
    ensures forall ref :: ref in RefSet(AllLive(index, keys, floor)) ==> ref.queue in keys
  {
    if keys != [] {
      AllLiveQueues(index, keys[1..], floor);
    }
  }

  lemma RefSetCons(row: Row, rows: seq<Row>)
    ensures RefSet([row] + rows) == {row.ref} + RefSet(rows)
  {
    forall ref | ref in {row.ref} + RefSet(rows) ensures ref in RefSet([row] + rows) {
      if ref == row.ref {
        assert row in [row] + rows;
      }
    }
  }

  lemma RefSetOwn(queue: string, entries: seq<Entry>, id: string)
    requires forall e :: e in entries ==> e.jobId != id
    ensures JobRef(queue, id) !in RefSet(ToRows(queue, entries))
  {
    var rows := ToRows(queue, entries);
    forall row | row in rows ensures row.ref != JobRef(queue, id) {
      var k :| 0 <= k < |rows| && rows[k] == row;
      assert entries[k] in entries;
    }
  }

  lemma {:induction false} DistinctRefs(queue: string, entries: seq<Entry>)
    requires ZSet(entries)
    ensures |RefSet(ToRows(queue, entries))| == |entries|
  {
    if entries == [] {
      assert RefSet(ToRows(queue, entries)) == {};
    } else {
      var e, rest := entries[0], ToRows(queue, entries[1..]);
      DistinctRefs(queue, entries[1..]);
      RefSetOwn(queue, entries[1..], e.jobId);
      assert ToRows(queue, entries) == [Row(JobRef(queue, e.jobId), e.at)] + rest;
      RefSetCons(Row(JobRef(queue, e.jobId), e.at), rest);
    }
  }

  /** The figure `count` reports is the number of different jobs the index names. */
  lemma {:induction false} LiveRefsCounted(index: Index, keys: seq<string>, floor: int)
    requires ValidIndex(index) && forall i, j :: 0 <= i < j < |keys| ==> keys[i] != keys[j]
    ensures |RefSet(AllLive(index, keys, floor))| == TotalLive(index, keys, floor)
  {
    if keys == [] {
      assert RefSet(AllLive(index, keys, floor)) == {};
    } else {
      var z := EntriesAt(index, keys[0]);
      LiveIs(z, floor);
      DistinctRefs(keys[0], Live(z, floor));
      assert forall i :: 0 <= i < |keys[1..]| ==> keys[1..][i] == keys[i + 1];
      AllLiveFirst(index, keys, floor);
      AllLiveQueues(index, keys[1..], floor);
      LiveRefsCounted(index, keys[1..], floor);
      assert RefSet(ToRows(keys[0], Live(z, floor))) !! RefSet(AllLive(index, keys[1..], floor));
    }
  }

  lemma ListingNames(index: Index, keys: seq<string>, floor: int)
    ensures RefSet(SilencedListing(index, keys, floor)) == RefSet(AllLive(index, keys, floor))
  {
    SortedIsStable(AtOf(), AllLive(index, keys, floor));
  }

  /** `members` names exactly the live entries. */
  lemma {:induction false} MembersAreLive(index: Index, keys: seq<string>, floor: int)
    requires WithinScan(index, keys, floor)
    ensures MembersOf(index, keys, floor) == set ref | ref in RefSet(AllLive(index, keys, floor)) :: Encode(ref)
  {
    if keys != [] {
      var live := Live(EntriesAt(index, keys[0]), floor);
      var own := ToRows(keys[0], live);
      WithinRest(index, keys, floor);
      AllLiveFirst(index, keys, floor);
      MembersAreLive(index, keys[1..], floor);
      assert Prefix(MAX_SCAN, live) == live;
      forall k | 0 <= k < |live|
        ensures Encode(JobRef(keys[0], live[k].jobId)) in set ref | ref in RefSet(own) :: Encode(ref)
      {
        assert own[k] in own && own[k].ref in RefSet(own);
        assert own[k].ref == JobRef(keys[0], live[k].jobId);
      }
      assert Encoded(keys[0], live) == set ref | ref in RefSet(own) :: Encode(ref);
    }
  }

  lemma {:induction false} EncodedCount(refs: set<JobRef>)
    requires forall ref :: ref in refs ==> ':' !in ref.queue
    ensures |set ref | ref in refs :: Encode(ref)| == |refs|
  {
    if refs == {} {
      assert (set ref | ref in refs :: Encode(ref)) == {};
    } else {
      var one :| one in refs;
      var rest := refs - {one};
      EncodedCount(rest);
      var codes := set ref | ref in rest :: Encode(ref);
      if Encode(one) in codes {
        var other :| other in rest && Encode(other) == Encode(one);
        EncodeInjective(one, other);
      }
      assert (set ref | ref in refs :: Encode(ref)) == codes + {Encode(one)};
    }
  }

  /** `count` is the size of `members`. */
  lemma MembersCounted(index: Index, keys: seq<string>, floor: int)
    requires WithinScan(index, keys, floor)
    ensures |MembersOf(index, keys, floor)| == TotalLive(index, keys, floor)
  {
    MembersAreLive(index, keys, floor);
    AllLiveQueues(index, keys, floor);
    LiveRefsCounted(index, keys, floor);
    EncodedCount(RefSet(AllLive(index, keys, floor)));
  }

  lemma {:induction false} EncodedOnce(queue: string, entries: seq<Entry>)
    requires forall i, j :: 0 <= i < j < |entries| ==> entries[i].jobId != entries[j].jobId
    ensures |Encoded(queue, entries)| == |entries|
  {
    if entries == [] {
      assert Encoded(queue, entries) == {};
    } else {
      var n := |entries| - 1;
      var last := Encode(JobRef(queue, entries[n].jobId));
      EncodedOnce(queue, entries[..n]);
      forall k | 0 <= k < n ensures Encode(JobRef(queue, entries[k].jobId)) != last {
        assert Encode(JobRef(queue, entries[k].jobId))[|queue| + 1..] == entries[k].jobId;
        assert last[|queue| + 1..] == entries[n].jobId;
      }
      assert Encoded(queue, entries) == Encoded(queue, entries[..n]) + {last};
    }
  }

  /** Of one queue `members` hides a thousand entries at the most, and all of them up to that. */
  lemma OneQueueMembers(index: Index, keys: seq<string>, floor: int)
    ensures |keys| == 1 && ValidIndex(index) ==>
              |MembersOf(index, keys, floor)| == Min(TotalLive(index, keys, floor), 1000)
  {
    if |keys| == 1 && ValidIndex(index) {
      var live := Live(EntriesAt(index, keys[0]), floor);
      var read := Prefix(MAX_SCAN, live);
      LiveIs(EntriesAt(index, keys[0]), floor);
      forall i, j | 0 <= i < j < |read| ensures read[i].jobId != read[j].jobId {
        ZSetOrdered(live, i, j);
      }
      EncodedOnce(keys[0], read);
      assert MembersOf(index, keys[1..], floor) == {} && TotalLive(index, keys[1..], floor) == 0;
    }
  }

  lemma HiddenIsLive(index: Index, keys: seq<string>, floor: int, ref: JobRef)
    requires WithinScan(index, keys, floor) && ':' !in ref.queue
    ensures Encode(ref) in MembersOf(index, keys, floor) <==> ref in RefSet(SilencedListing(index, keys, floor))
  {
    MembersAreLive(index, keys, floor);
    AllLiveQueues(index, keys, floor);
    ListingNames(index, keys, floor);
    var live := RefSet(AllLive(index, keys, floor));
    if Encode(ref) in MembersOf(index, keys, floor) {
      var other :| other in live && Encode(other) == Encode(ref);
      EncodeInjective(ref, other);
    }
  }

  /** Of any rows, those the completed listing shows are those the silenced listing does not have. */
  lemma ShownOrSilenced(index: Index, keys: seq<string>, floor: int, rows: seq<JobView>, job: JobView)
    requires WithinScan(index, keys, floor) && job in rows && ':' !in job.ref.queue
    ensures job in Keep(rows, Visible(Completed, Everything, MembersOf(index, keys, floor)))
            <==> job.ref !in RefSet(SilencedListing(index, keys, floor))
  {
    HiddenIsLive(index, keys, floor, job.ref);
    KeepIn(rows, Visible(Completed, Everything, MembersOf(index, keys, floor)), job);
  }

  /** A finished job shows in exactly one of the completed and the silenced listing: of all jobs, and of the
    * rows the window of a request reads.
    */
  lemma ShownInExactlyOne(index: Index, keys: seq<string>, floor: int, queues: seq<Queue>, wanted: nat,
                          job: JobView)
    requires WithinScan(index, keys, floor) && ':' !in job.ref.queue
    ensures job in AllRows(Completed, queues) ==>
              (job in FullListing(Completed, Everything, queues, MembersOf(index, keys, floor))
               <==> job.ref !in RefSet(SilencedListing(index, keys, floor)))
    ensures job in Collected(Sources(Completed, Everything, queues, wanted)) ==>
              (job in Kept(Completed, Everything, queues, MembersOf(index, keys, floor), wanted)
               <==> job.ref !in RefSet(SilencedListing(index, keys, floor)))
  {
    var all, read := AllRows(Completed, queues), Collected(Sources(Completed, Everything, queues, wanted));
    SortedIsStable(KeyOf(Completed), all);
    SortedIsStable(KeyOf(Completed), read);
    if job in all {
      ShownOrSilenced(index, keys, floor, Sorted(KeyOf(Completed), all), job);
    }
    if job in read {
      ShownOrSilenced(index, keys, floor, Sorted(KeyOf(Completed), read), job);
    }
  }

  // ----- The total of the completed listing -----

  function JobsIn(rows: seq<JobView>): set<JobRef> { set row | row in rows :: row.ref }

  ghost predicate OneRowAJob(rows: seq<JobView>) {
    forall i, j :: 0 <= i < j < |rows| ==> rows[i].ref != rows[j].ref
  }

  lemma JobsInCons(row: JobView, rest: seq<JobView>)
    ensures JobsIn([row] + rest) == {row.ref} + JobsIn(rest)
  {
    forall ref | ref in {row.ref} + JobsIn(rest) ensures ref in JobsIn([row] + rest) {
      if ref == row.ref {
        assert row in [row] + rest;
      }
    }
  }

  lemma {:induction false} KeptCounted(rows: seq<JobView>, p: JobView -> bool, hidden: set<JobRef>)
    requires OneRowAJob(rows) && hidden <= JobsIn(rows)
    requires forall row :: row in rows ==> (p(row) <==> row.ref !in hidden)
    ensures |Keep(rows, p)| + |hidden| == |rows|
  {
    if rows != [] {
      var rest := rows[1..];
      assert forall i :: 0 <= i < |rest| ==> rest[i] == rows[i + 1];
      assert rows == [rows[0]] + rest;
      JobsInCons(rows[0], rest);
      KeptCounted(rest, p, hidden - {rows[0].ref});
      KeepFirst(rows, p);
    }
  }

  /** The completed jobs of a request: one row a job, on queues without a colon in their name whose index, if
    * they have one, is among the keys; and all of the queue asked for, if one is.
    */
  ghost predicate Requested(index: Index, keys: seq<string>, queue: Option<string>, rows: seq<JobView>) {
    && OneRowAJob(rows)
    && (queue.Some? ==> ':' !in queue.value && (queue.value in index ==> queue.value in keys))
    && forall row :: row in rows ==>
         && ':' !in row.ref.queue && (row.ref.queue in index ==> row.ref.queue in keys)
         && (queue.Some? ==> row.ref.queue == queue.value)
  }

  lemma {:induction false} LiveOn(index: Index, keys: seq<string>, floor: int, ref: JobRef)
    ensures ref in RefSet(AllLive(index, keys, floor))
            <==> ref.queue in keys && exists e :: e in Live(EntriesAt(index, ref.queue), floor) && e.jobId == ref.jobId
  {
    if keys != [] {
      var live := Live(EntriesAt(index, keys[0]), floor);
      var own := ToRows(keys[0], live);
      LiveOn(index, keys[1..], floor, ref);
      assert keys == [keys[0]] + keys[1..];
      assert RefSet(AllLive(index, keys, floor)) == RefSet(own) + RefSet(AllLive(index, keys[1..], floor));
      if ref.queue == keys[0] && exists e :: e in live && e.jobId == ref.jobId {
        var k :| 0 <= k < |live| && live[k].jobId == ref.jobId;
        assert own[k] in own;
      }
    }
  }

  lemma CountedWithin(index: Index, keys: seq<string>, floor: int, queue: Option<string>)
    requires WithinScan(index, keys, floor)
    requires queue.Some? ==> ':' !in queue.value && (queue.value in index ==> queue.value in keys)
    ensures WithinScan(index, if queue.Some? then [queue.value] else keys, floor)
  {
  }

  /** A row is hidden exactly when `count` counts its job. */
  lemma HiddenIsCounted(index: Index, keys: seq<string>, floor: int, queue: Option<string>,
                        rows: seq<JobView>, row: JobView)
    requires WithinScan(index, keys, floor) && Requested(index, keys, queue, rows) && row in rows
    ensures Visible(Completed, Everything, MembersOf(index, keys, floor))(row)
            <==> row.ref !in RefSet(AllLive(index, if queue.Some? then [queue.value] else keys, floor))
  {
    HiddenIsLive(index, keys, floor, row.ref);
    ListingNames(index, keys, floor);
    LiveOn(index, keys, floor, row.ref);
    LiveOn(index, if queue.Some? then [queue.value] else keys, floor, row.ref);
  }

  lemma WithinCounted(part: set<JobRef>, all: set<JobRef>)
    requires part <= all
    ensures |part| <= |all| && (|part| == |all| <==> all <= part)
  {
    assert all == part + (all - part);
    if all <= part {
      assert all == part;
    } else {
      var one :| one in all - part;
      assert |all - part| > 0;
    }
  }

  /** Every job `count` counts is still among the rows. */
  ghost predicate CountedAreRows(index: Index, keys: seq<string>, floor: int, queue: Option<string>,
                                 rows: seq<JobView>)
  {
    RefSet(AllLive(index, if queue.Some? then [queue.value] else keys, floor)) <= JobsIn(rows)
  }

  /** The rows the completed listing keeps are never fewer than the rows there are less the figure `count`
    * subtracts, and as many exactly when every job counted is still a completed row.
    */
  lemma CompletedTotal(index: Index, keys: seq<string>, floor: int, queue: Option<string>, rows: seq<JobView>)
    requires WithinScan(index, keys, floor) && Requested(index, keys, queue, rows)
    ensures var kept := |Keep(rows, Visible(Completed, Everything, MembersOf(index, keys, floor)))|;
            var left := |rows| - TotalLive(index, if queue.Some? then [queue.value] else keys, floor);
            left <= kept && (left == kept <==> CountedAreRows(index, keys, floor, queue, rows))
  {
    var visible := Visible(Completed, Everything, MembersOf(index, keys, floor));
    var counted := RefSet(AllLive(index, if queue.Some? then [queue.value] else keys, floor));
    var hidden := counted * JobsIn(rows);
    CountedWithin(index, keys, floor, queue);
    LiveRefsCounted(index, if queue.Some? then [queue.value] else keys, floor);
    forall row | row in rows ensures visible(row) <==> row.ref !in hidden {
      HiddenIsCounted(index, keys, floor, queue, rows, row);
    }
    KeptCounted(rows, visible, hidden);
    WithinCounted(hidden, counted);
  }

  function CompletedRows(queues: seq<Queue>): seq<JobView> { Sorted(KeyOf(Completed), AllRows(Completed, queues)) }

  lemma MaxExactly(kept: nat, left: int, full: nat)
    requires kept <= full && left <= full
    ensures Max(kept, left) <= full && (Max(kept, left) == full <==> kept == full || left == full)
  {
  }

  /** The total a completed page reports is never more than the length of the listing it pages over. It is that
    * length exactly when the window kept every row of it, or every job `count` counts is still a completed row.
    */
  lemma FooterIsTheListing(index: Index, keys: seq<string>, floor: int, queue: Option<string>,
                           rows: seq<JobView>, kept: nat)
    requires WithinScan(index, keys, floor) && Requested(index, keys, queue, rows)
    requires kept <= |Keep(rows, Visible(Completed, Everything, MembersOf(index, keys, floor)))|
    ensures var full := |Keep(rows, Visible(Completed, Everything, MembersOf(index, keys, floor)))|;
            var total := Max(kept, |rows| - TotalLive(index, if queue.Some? then [queue.value] else keys, floor));
            && total <= full
            && (total == full <==> kept == full || CountedAreRows(index, keys, floor, queue, rows))
  {
    CompletedTotal(index, keys, floor, queue, rows);
    MaxExactly(kept, |rows| - TotalLive(index, if queue.Some? then [queue.value] else keys, floor),
               |Keep(rows, Visible(Completed, Everything, MembersOf(index, keys, floor)))|);
  }

  // ----- Trimming -----

  function Trimmed(index: Index, floor: int): Index {
    map key | key in index :: ZRemRange(index[key], 0, floor)
  }

  lemma TrimmedIs(index: Index, floor: int)
    requires ValidIndex(index)
    ensures ValidIndex(Trimmed(index, floor))
    ensures forall key, e :: key in index ==>
              (e in Trimmed(index, floor)[key] <==> e in index[key] && !(0 <= e.at <= floor))
  {
    forall key | key in index ensures ZSet(Trimmed(index, floor)[key]) {
      ZRemRangeIs(index[key], 0, floor);
    }
    forall key, e | key in index
      ensures e in Trimmed(index, floor)[key] <==> e in index[key] && !(0 <= e.at <= floor)
    {
      ZRemRangeIs(index[key], 0, floor);
    }
  }

  /** What SCAN returns: every key, each once. */
  ghost predicate Scanned(keys: seq<string>, index: Index) {
    && (forall key :: key in keys <==> key in index)
    && (forall i, j :: 0 <= i < j < |keys| ==> keys[i] != keys[j])
  }

  function TrimmedOn(index: Index, keys: seq<string>, floor: int): Index {
    if keys == [] then index
    else
      var before := TrimmedOn(index, keys[..|keys| - 1], floor);
      var last := keys[|keys| - 1];
      if last in before then before[last := ZRemRange(before[last], 0, floor)] else before
  }

  lemma {:induction false} TrimmedOnEach(index: Index, keys: seq<string>, floor: int, key: string)
    requires forall i, j :: 0 <= i < j < |keys| ==> keys[i] != keys[j]
    ensures key in TrimmedOn(index, keys, floor) <==> key in index
    ensures key in index ==>
              TrimmedOn(index, keys, floor)[key] == if key in keys then ZRemRange(index[key], 0, floor) else index[key]
  {
    if keys != [] {
      var n := |keys| - 1;
      TrimmedOnEach(index, keys[..n], floor, key);
      assert keys == keys[..n] + [keys[n]];
      if key == keys[n] {
        assert key !in keys[..n];
      }
    }
  }

  lemma TrimmedOnAll(index: Index, keys: seq<string>, floor: int)
    requires Scanned(keys, index)
    ensures TrimmedOn(index, keys, floor) == Trimmed(index, floor)
  {
    forall key
      ensures key in TrimmedOn(index, keys, floor) <==> key in index
      ensures key in index ==> TrimmedOn(index, keys, floor)[key] == Trimmed(index, floor)[key]
    {
      TrimmedOnEach(index, keys, floor, key);
    }
  }

  /** No read made after a trim, of any kind, can tell that it happened. */
  lemma {:induction false} TrimChangesNoRead(index: Index, keys: seq<string>, trimmedAt: int, floor: int)
    requires trimmedAt < floor
    ensures AllLive(Trimmed(index, trimmedAt), keys, floor) == AllLive(index, keys, floor)
    ensures MembersOf(Trimmed(index, trimmedAt), keys, floor) == MembersOf(index, keys, floor)
  {
    if keys != [] {
      TrimUnseen(EntriesAt(index, keys[0]), trimmedAt, floor);
      TrimChangesNoRead(index, keys[1..], trimmedAt, floor);
    }
  }

  /** How many entries are scored at the floor. */
  function AtFloor(z: seq<Entry>, floor: int): nat {
    if z == [] then 0 else (if z[0].at == floor then 1 else 0) + AtFloor(z[1..], floor)
  }

  /** A trim drops nothing a later read would return. */
  lemma {:induction false} TrimUnseen(z: seq<Entry>, trimmedAt: int, floor: int)
    requires trimmedAt < floor
    ensures Live(ZRemRange(z, 0, trimmedAt), floor) == Live(z, floor)
  {
    if z != [] {
      TrimUnseen(z[1..], trimmedAt, floor);
      if !(0 <= z[0].at <= trimmedAt) {
        assert ZRemRange(z, 0, trimmedAt)[1..] == ZRemRange(z[1..], 0, trimmedAt);
      } else {
        assert ZRemRange(z, 0, trimmedAt) == ZRemRange(z[1..], 0, trimmedAt);
      }
    }
  }

  /** A read at the very instant of the trim loses the entries at the floor, and only those. */
  lemma {:induction false} TrimAtFloor(z: seq<Entry>, floor: int)
    requires floor >= 0
    ensures Live(ZRemRange(z, 0, floor), floor) == Live(z, floor + 1)
    ensures |Live(z, floor + 1)| + AtFloor(z, floor) == |Live(z, floor)|
    ensures AtFloor(z, floor) == 0 ==> Live(z, floor + 1) == Live(z, floor)
  {
    if z != [] {
      TrimAtFloor(z[1..], floor);
      if !(0 <= z[0].at <= floor) {
        assert ZRemRange(z, 0, floor)[1..] == ZRemRange(z[1..], 0, floor);
      } else {
        assert ZRemRange(z, 0, floor) == ZRemRange(z[1..], 0, floor);
      }
    }
  }

  ghost predicate NoneAtFloor(index: Index, keys: seq<string>, floor: int) {
    forall key :: key in keys ==> AtFloor(EntriesAt(index, key), floor) == 0
  }

  lemma {:induction false} TrimAtFloorTotals(index: Index, keys: seq<string>, floor: int)
    requires floor >= 0
    ensures TotalLive(Trimmed(index, floor), keys, floor) <= TotalLive(index, keys, floor)
    ensures TotalLive(Trimmed(index, floor), keys, floor) == TotalLive(index, keys, floor)
            <==> NoneAtFloor(index, keys, floor)
  {
    if keys != [] {
      TrimAtFloor(EntriesAt(index, keys[0]), floor);
      TrimAtFloorTotals(index, keys[1..], floor);
      assert keys == [keys[0]] + keys[1..];
    }
  }

  lemma {:induction false} TrimAtFloorSame(index: Index, keys: seq<string>, floor: int)
    requires floor >= 0 && NoneAtFloor(index, keys, floor)
    ensures AllLive(Trimmed(index, floor), keys, floor) == AllLive(index, keys, floor)
  {
    if keys != [] {
      TrimAtFloor(EntriesAt(index, keys[0]), floor);
      assert forall key :: key in keys[1..] ==> key in keys;
      TrimAtFloorSame(index, keys[1..], floor);
    }
  }

  /** Of the whole index, such a read is unchanged exactly when no entry is scored at the floor. */
  lemma TrimAtFloorExactly(index: Index, keys: seq<string>, floor: int)
    requires floor >= 0
    ensures AllLive(Trimmed(index, floor), keys, floor) == AllLive(index, keys, floor)
            <==> NoneAtFloor(index, keys, floor)
    ensures TotalLive(Trimmed(index, floor), keys, floor) <= TotalLive(index, keys, floor)
    ensures TotalLive(Trimmed(index, floor), keys, floor) == TotalLive(index, keys, floor)
            <==> NoneAtFloor(index, keys, floor)
  {
    TrimAtFloorTotals(index, keys, floor);
    WholeSame(index, keys, floor, 0);
    WholeSame(Trimmed(index, floor), keys, floor, 0);
    if NoneAtFloor(index, keys, floor) {
      TrimAtFloorSame(index, keys, floor);
    }
  }
}
