/** `SilencedService`: the sorted sets changed in place, one a queue. */
module SilencedService {
  import opened Lists
  import opened Options
  import opened BoundedMerge
  import opened JobRefs
  import opened JobsListing
  import opened Silenced
  import opened SilencedRuns

  class SilencedService {
    var index: Index

    /** Seconds an entry is worth keeping. */
    const ttl: nat

    constructor (trimRecentMinutes: nat)
      ensures index == map[] && ValidIndex(index)
      ensures ttl == if trimRecentMinutes >= 1 then 60 * trimRecentMinutes else 60
    {
      index := map[];
      ttl := if trimRecentMinutes * 60 > 60 then trimRecentMinutes * 60 else 60;
    }

    method Record(queue: string, jobId: string, at: int)
      requires ValidIndex(index)
      modifies this`index
      ensures ValidIndex(index) && index == After(ttl, old(index), Recorded(queue, jobId, at))
      ensures forall e :: e in index[queue] <==>
                            e == Entry(jobId, at) || (e in EntriesAt(old(index), queue) && e.jobId != jobId)
    {
      var z := if queue in index then index[queue] else [];
      assert ZSet(z);
      ZAddIs(z, jobId, at);
      index := index[queue := ZAdd(z, jobId, at)];
    }

    method Forget(queue: string, jobId: string)
      requires ValidIndex(index)
      modifies this`index
      ensures ValidIndex(index) && index == After(ttl, old(index), Forgot(queue, jobId))
      ensures forall e :: e in index[queue] <==> e in EntriesAt(old(index), queue) && e.jobId != jobId
    {
      var z := if queue in index then index[queue] else [];
      assert ZSet(z);
      ZRemIs(z, jobId);
      index := index[queue := ZRem(z, jobId)];
    }

    /** Ages entries out one by one, on every queue `keys` lists. */
    method Trim(keys: seq<string>, now: int)
      requires ValidIndex(index) && Scanned(keys, index)
      modifies this`index
      ensures ValidIndex(index) && index == After(ttl, old(index), TrimmedAt(now))
      ensures Retained(old(index), index, now, ttl)
    {
      TrimKeeps(ttl, index, now);
      TrimTo(keys, FloorAt(now, ttl));
    }

    method TrimTo(keys: seq<string>, floor: int)
      requires Scanned(keys, index)
      modifies this`index
      ensures index == Trimmed(old(index), floor)
    {
      for i := 0 to |keys|
        invariant index == TrimmedOn(old(index), keys[..i], floor)
      {
        assert keys[..i + 1][..i] == keys[..i];
        if keys[i] in index {
          index := index[keys[i] := ZRemRange(index[keys[i]], 0, floor)];
        }
      }
      assert keys[..|keys|] == keys;
      TrimmedOnAll(old(index), keys, floor);
    }

    /** Drops the index of one queue, or of all of them. */
    method Clear(queue: Option<string>)
      modifies this`index
      ensures index == After(ttl, old(index), Cleared(queue))
    {
      index := if queue.Some? then index - {queue.value} else map[];
    }

    /** One page, read at the service's own floor. */
    method PageAt(keys: seq<string>, now: int, page: nat, perPage: nat, queue: Option<string>) returns (r: SilencedPage)
      requires ValidIndex(index) && Scanned(keys, index)
      ensures CountsRecent(index, now, ttl, queue, r.total)
      ensures PageOfListing(index, keys, FloorAt(now, ttl), page, perPage, queue, r)
    {
      RecentCounted(index, keys, FloorAt(now, ttl), now, ttl, queue);
      r := ReadListing(index, keys, FloorAt(now, ttl), page, perPage, queue);
    }

    /** What the completed listing hides, read at the service's own floor. */
    method MembersAt(keys: seq<string>, now: int) returns (quiet: set<string>)
      requires ValidIndex(index) && Scanned(keys, index)
      ensures quiet == MembersOf(index, keys, FloorAt(now, ttl))
      ensures WithinScan(index, keys, FloorAt(now, ttl)) ==> HidesRecent(index, now, ttl, quiet)
    {
      quiet := Members(index, keys, FloorAt(now, ttl));
      MembersAreRecent(index, keys, FloorAt(now, ttl), now, ttl);
    }

    /** How many completions are kept out of the completed listing, counted at the service's own floor. */
    method CountAt(keys: seq<string>, now: int, queue: Option<string>) returns (n: nat)
      requires ValidIndex(index) && Scanned(keys, index)
      ensures n == TotalLive(index, if queue.Some? then [queue.value] else keys, FloorAt(now, ttl))
      ensures CountsRecent(index, now, ttl, queue, n)
    {
      n := Count(index, keys, FloorAt(now, ttl), queue);
      RecentCounted(index, keys, FloorAt(now, ttl), now, ttl, queue);
    }
  }

  /** `n` is how many jobs were recorded within the retention: on one queue, or on all of them. */
  ghost predicate CountsRecent(index: Index, now: int, ttl: nat, queue: Option<string>, n: nat) {
    match queue
    case None => n == |Recent(index, now, ttl)|
    case Some(one) => n == |RecentOn(EntriesAt(index, one), now, ttl)|
  }

  function RecentOn(entries: seq<Entry>, now: int, ttl: nat): set<Entry> {
    set e | e in entries && now - e.at <= 1000 * ttl
  }

  /** What a page of the silenced listing has to be: cut from that of one queue wherever it lies, and from that
    * of all of them as far as a thousand rows.
    */
  ghost predicate PageOfListing(index: Index, keys: seq<string>, floor: int, page: nat, perPage: nat,
                                queue: Option<string>, r: SilencedPage)
  {
    var read := if queue.Some? then [queue.value] else keys;
    && |r.refs| <= perPage && |r.refs| <= r.total
    && (r.reachable.Some? ==> |r.refs| <= r.reachable.value <= r.total)
    && (queue.Some? || Wanted(page, perPage) <= 1000 ==>
          r.refs == RefsOf(Page(SilencedListing(index, read, floor), page, perPage)))
  }

  lemma {:induction false} EntriesCounted(z: seq<Entry>)
    requires ZSet(z)
    ensures |set e | e in z| == |z|
  {
    if z == [] {
      assert (set e | e in z) == {};
    } else {
      EntriesCounted(z[1..]);
      assert (set e | e in z) == {z[0]} + set e | e in z[1..];
    }
  }

  lemma RecentCounted(index: Index, keys: seq<string>, floor: int, now: int, ttl: nat, queue: Option<string>)
    requires ValidIndex(index) && Scanned(keys, index) && floor == now - 1000 * ttl
    ensures CountsRecent(index, now, ttl, queue,
                         TotalLive(index, if queue.Some? then [queue.value] else keys, floor))
  {
    match queue
    case None => CountIsRecent(index, keys, floor, now, ttl);
    case Some(one) =>
      var z := EntriesAt(index, one);
      assert [one][1..] == [] && TotalLive(index, [], floor) == 0;
      LiveIs(z, floor);
      EntriesCounted(Live(z, floor));
      assert RecentOn(z, now, ttl) == set e | e in Live(z, floor);
  }

  /** The strings of the jobs recorded within the retention, no two of them alike. */
  ghost predicate HidesRecent(index: Index, now: int, ttl: nat, quiet: set<string>) {
    && quiet == (set ref | ref in Recent(index, now, ttl) :: Encode(ref))
    && |quiet| == |Recent(index, now, ttl)|
  }

  lemma MembersAreRecent(index: Index, keys: seq<string>, floor: int, now: int, ttl: nat)
    requires ValidIndex(index) && Scanned(keys, index) && floor == now - 1000 * ttl
    ensures WithinScan(index, keys, floor) ==> HidesRecent(index, now, ttl, MembersOf(index, keys, floor))
  {
    if WithinScan(index, keys, floor) {
      MembersAreLive(index, keys, floor);
      MembersCounted(index, keys, floor);
      LiveAreRecent(index, keys, floor, now, ttl);
      CountIsRecent(index, keys, floor, now, ttl);
    }
  }

  /** `pairs`: reads a WITHSCORES reply back, two elements a row. */
  method Pairs(queue: string, scored: seq<Reply>, ghost entries: seq<Entry>) returns (rows: seq<Row>)
    requires scored == Flattened(entries)
    ensures rows == ToRows(queue, entries)
  {
    rows := [];
    var i := 0;
    while i < |scored|
      invariant i % 2 == 0 && 0 <= i <= |scored|
      invariant rows == ToRows(queue, entries[..i / 2])
    {
      ghost var k := i / 2;
      assert scored[2 * k] == Member(entries[k].jobId) && scored[2 * k + 1] == Score(entries[k].at);
      rows := rows + [Row(JobRef(queue, scored[i].id), scored[i + 1].at)];
      i := i + 2;
    }
    assert entries[..|entries|] == entries;
  }

  /** `ZREVRANGEBYSCORE key +inf floor WITHSCORES LIMIT 0 upTo` on every key, read into rows. */
  method ReadQueues(index: Index, keys: seq<string>, floor: int, upTo: nat) returns (rows: seq<Row>)
    ensures rows == Collected(IndexSources(index, keys, floor, upTo))
  {
    if keys == [] {
      return [];
    }
    var read := Prefix(upTo, Live(EntriesAt(index, keys[0]), floor));
    var own := Pairs(keys[0], Flattened(read), read);
    var rest := ReadQueues(index, keys[1..], floor, upTo);
    var sources := IndexSources(index, keys, floor, upTo);
    assert sources[1..] == IndexSources(index, keys[1..], floor, upTo);
    assert own == Prefix(upTo, ToRows(keys[0], Live(EntriesAt(index, keys[0]), floor)));
    rows := own + rest;
  }

  method CountLive(index: Index, keys: seq<string>, floor: int) returns (total: nat)
    ensures total == TotalLive(index, keys, floor)
  {
    total := 0;
    for i := |keys| downto 0
      invariant total == TotalLive(index, keys[i..], floor)
    {
      total := |Live(EntriesAt(index, keys[i]), floor)| + total;
      assert keys[i..][1..] == keys[i + 1..];
    }
  }

  /** One page of silenced jobs. One queue reads its own index at its own offset; across queues the merge
    * reads a window of each.
    */
  method ReadPage(index: Index, keys: seq<string>, floor: int, page: nat, perPage: nat, queue: Option<string>)
      returns (r: SilencedPage)
    requires ValidIndex(index)
    ensures queue.Some? ==>
              && r.reachable == None && r.total == TotalLive(index, [queue.value], floor)
              && r.refs == RefsOf(Page(SilencedListing(index, [queue.value], floor), page, perPage))
    ensures queue.None? ==> r.total == TotalLive(index, keys, floor)
    ensures queue.None? && perPage == 0 ==> r.refs == [] && r.reachable == None
    ensures queue.None? && perPage > 0 ==>
              && r.refs == MergedPage(index, keys, floor, page, perPage)
              && var depth := if Wanted(page, perPage) < 1000 then Wanted(page, perPage) else 1000;
                 r.reachable == Some(Min(r.total, |Collected(IndexSources(index, keys, floor, depth))|))
    ensures queue.None? && Wanted(page, perPage) <= MAX_SCAN ==>
              r.refs == RefsOf(Page(SilencedListing(index, keys, floor), page, perPage))
    ensures r.reachable.Some? ==> |r.refs| <= r.reachable.value <= r.total
    ensures |r.refs| <= perPage && |r.refs| <= r.total
  {
    if queue.Some? {
      r := ReadOwn(index, queue.value, floor, page, perPage);
      return;
    }
    var total := CountLive(index, keys, floor);
    if perPage == 0 {
      return SilencedPage([], total, None);
    }
    var collected := ReadQueues(index, keys, floor, UpTo(page, perPage));
    var merged := Sorted(AtOf(), collected);
    SortedIsStable(AtOf(), collected);
    CollectedWithin(IndexSources(index, keys, floor, UpTo(page, perPage)));
    WholeSame(index, keys, floor, UpTo(page, perPage));
    if Wanted(page, perPage) <= MAX_SCAN {
      MergedPageIsFull(index, keys, floor, page, perPage);
    }
    r := SilencedPage(RefsOf(Page(merged, page, perPage)), total, Some(Min(total, |merged|)));
  }

  lemma {:induction false} CollectedWithin(sources: seq<Source<Row>>)
    ensures |Collected(sources)| <= |Whole(sources)|
  {
    if sources != [] {
      CollectedWithin(sources[1..]);
    }
  }

  /** The same, as one statement. */
  method ReadListing(index: Index, keys: seq<string>, floor: int, page: nat, perPage: nat, queue: Option<string>)
      returns (r: SilencedPage)
    requires ValidIndex(index)
    ensures r.total == TotalLive(index, if queue.Some? then [queue.value] else keys, floor)
    ensures PageOfListing(index, keys, floor, page, perPage, queue, r)
  {
    r := ReadPage(index, keys, floor, page, perPage, queue);
  }

  method ReadOwn(index: Index, queue: string, floor: int, page: nat, perPage: nat) returns (r: SilencedPage)
    requires ValidIndex(index)
    ensures r.refs == RefsOf(Page(SilencedListing(index, [queue], floor), page, perPage))
    ensures r.total == TotalLive(index, [queue], floor) && r.reachable == None
    ensures |r.refs| <= perPage && |r.refs| <= r.total
  {
    var live := Live(EntriesAt(index, queue), floor);
    var rows := ToRows(queue, if perPage > 0 then Page(live, page, perPage) else []);
    OneQueueAgrees(index, queue, floor, page, perPage);
    assert [queue][1..] == [] && TotalLive(index, [], floor) == 0;
    assert rows == Page(ToRows(queue, live), page, perPage);
    r := SilencedPage(RefsOf(rows), |live|, None);
  }

  /** `members`: what the completed listing hides. */
  method Members(index: Index, keys: seq<string>, floor: int) returns (quiet: set<string>)
    ensures quiet == MembersOf(index, keys, floor)
    ensures WithinScan(index, keys, floor) ==> |quiet| == TotalLive(index, keys, floor)
    ensures |keys| == 1 && ValidIndex(index) ==> |quiet| == Min(TotalLive(index, keys, floor), 1000)
  {
    OneQueueMembers(index, keys, floor);
    quiet := {};
    for i := |keys| downto 0
      invariant quiet == MembersOf(index, keys[i..], floor)
    {
      var read := Prefix(MAX_SCAN, Live(EntriesAt(index, keys[i]), floor));
      quiet := Encoded(keys[i], read) + quiet;
      assert keys[i..][1..] == keys[i + 1..];
    }
    if WithinScan(index, keys, floor) {
      MembersCounted(index, keys, floor);
    }
  }

  /** `count`: the total of an empty page. */
  method Count(index: Index, keys: seq<string>, floor: int, queue: Option<string>) returns (n: nat)
    requires ValidIndex(index)
    ensures n == TotalLive(index, if queue.Some? then [queue.value] else keys, floor)
    ensures queue.None? && WithinScan(index, keys, floor) ==> n == |MembersOf(index, keys, floor)|
  {
    var r := ReadPage(index, keys, floor, 0, 0, queue);
    n := r.total;
    if queue.None? && WithinScan(index, keys, floor) {
      MembersCounted(index, keys, floor);
    }
  }

  ghost predicate InScope(index: Index, keys: seq<string>, floor: int, queue: Option<string>, queues: seq<Queue>) {
    WithinScan(index, keys, floor) && Requested(index, keys, queue, CompletedRows(queues))
  }

  /** How long the completed listing is, and how much of it the window of a request keeps. */
  function Length(index: Index, keys: seq<string>, floor: int, queues: seq<Queue>): nat {
    |FullListing(Completed, Everything, queues, MembersOf(index, keys, floor))|
  }

  function Reached(index: Index, keys: seq<string>, floor: int, queues: seq<Queue>, wanted: nat): nat {
    |Kept(Completed, Everything, queues, MembersOf(index, keys, floor), wanted)|
  }

  ghost predicate AllSmall(queues: seq<Queue>) { forall k :: 0 <= k < |queues| ==> Small(Completed, queues[k]) }

  /** The footer is never more than the length of the listing, and is that length exactly when the window kept
    * all of it or every job counted is still a completed job.
    */
  ghost predicate FooterRight(index: Index, keys: seq<string>, floor: int, queue: Option<string>,
                              queues: seq<Queue>, wanted: nat, total: nat)
  {
    var full := Length(index, keys, floor, queues);
    && total <= full
    && (total == full <==> Reached(index, keys, floor, queues, wanted) == full
                           || CountedAreRows(index, keys, floor, queue, CompletedRows(queues)))
  }

  function TotalOf(index: Index, keys: seq<string>, floor: int, queue: Option<string>, queues: seq<Queue>,
                   wanted: nat): nat
  {
    var count := TotalLive(index, if queue.Some? then [queue.value] else keys, floor);
    Max(Reached(index, keys, floor, queues, wanted), RowsOf(Completed, queues) - count)
  }

  lemma ReachedWithin(index: Index, keys: seq<string>, floor: int, queues: seq<Queue>, wanted: nat)
    ensures Reached(index, keys, floor, queues, wanted) <= Length(index, keys, floor, queues)
    ensures Length(index, keys, floor, queues)
            == |Keep(CompletedRows(queues), Visible(Completed, Everything, MembersOf(index, keys, floor)))|
  {
    KeptWithin(Completed, Everything, queues, MembersOf(index, keys, floor), wanted);
  }

  lemma TotalIsRight(index: Index, keys: seq<string>, floor: int, queue: Option<string>,
                     queues: seq<Queue>, wanted: nat)
    requires InScope(index, keys, floor, queue, queues)
    ensures FooterRight(index, keys, floor, queue, queues, wanted, TotalOf(index, keys, floor, queue, queues, wanted))
  {
    var rows, kept := CompletedRows(queues), Reached(index, keys, floor, queues, wanted);
    ReachedWithin(index, keys, floor, queues, wanted);
    RowsSorted(Completed, queues);
    assert |rows| == RowsOf(Completed, queues);
    FooterIsTheListing(index, keys, floor, queue, rows, kept);
  }

  lemma SmallIsReached(index: Index, keys: seq<string>, floor: int, queues: seq<Queue>, wanted: nat)
    requires AllSmall(queues)
    ensures Reached(index, keys, floor, queues, wanted) == Length(index, keys, floor, queues)
  {
    SmallKept(queues, MembersOf(index, keys, floor), wanted);
  }

  /** While no queue outgrows the window, the footer is the length of the listing, whatever the index says, and
    * the rows are the page of the whole listing.
    */
  lemma SmallIsRight(index: Index, keys: seq<string>, floor: int, queue: Option<string>,
                     queues: seq<Queue>, page: nat, perPage: nat)
    requires InScope(index, keys, floor, queue, queues) && AllSmall(queues)
    ensures TotalOf(index, keys, floor, queue, queues, Wanted(page, perPage)) == Length(index, keys, floor, queues)
    ensures Listed(Completed, Everything, queues, MembersOf(index, keys, floor), page, perPage)
            == Page(FullListing(Completed, Everything, queues, MembersOf(index, keys, floor)), page, perPage)
  {
    var wanted := Wanted(page, perPage);
    TotalIsRight(index, keys, floor, queue, queues, wanted);
    SmallIsReached(index, keys, floor, queues, wanted);
    SmallListingIsFull(Completed, Everything, queues, MembersOf(index, keys, floor), page, perPage);
  }

  /** What a page of the completed listing has to be: its footer right, and its rows those of the whole listing
    * while no queue outgrows the window.
    */
  ghost predicate CompletedIsRight(index: Index, keys: seq<string>, floor: int, queue: Option<string>,
                                   queues: seq<Queue>, asked: nat, size: nat, r: JobPage)
  {
    && r.total == TotalOf(index, keys, floor, queue, queues, Wanted(asked, size))
    && (InScope(index, keys, floor, queue, queues) ==>
          FooterRight(index, keys, floor, queue, queues, Wanted(asked, size), r.total))
    && (AllSmall(queues) ==>
          r.jobs == Page(FullListing(Completed, Everything, queues, MembersOf(index, keys, floor)), asked, size))
    && |r.jobs| <= size
  }

  lemma RequestIsRight(index: Index, keys: seq<string>, floor: int, queue: Option<string>, queues: seq<Queue>,
                       asked: nat, size: nat, r: JobPage)
    requires r.total == TotalOf(index, keys, floor, queue, queues, Wanted(asked, size)) && |r.jobs| <= size
    requires r.jobs == Listed(Completed, Everything, queues, MembersOf(index, keys, floor), asked, size)
    ensures CompletedIsRight(index, keys, floor, queue, queues, asked, size, r)
  {
    if InScope(index, keys, floor, queue, queues) {
      TotalIsRight(index, keys, floor, queue, queues, Wanted(asked, size));
    }
    if AllSmall(queues) {
      SmallListingIsFull(Completed, Everything, queues, MembersOf(index, keys, floor), asked, size);
    }
  }

  /** A page of the completed listing as a request makes it: what to hide, the figure to subtract, and `list`. */
  method CompletedPage(silencing: SilencedService, keys: seq<string>, now: int, queue: Option<string>,
                       queues: seq<Queue>, page: int, perPage: int) returns (r: JobPage)
    requires ValidIndex(silencing.index) && Scanned(keys, silencing.index)
    ensures var asked: nat := if page < 0 then 0 else page;
            var size: nat := if perPage <= 0 then 25 else if perPage > 200 then 200 else perPage;
            CompletedIsRight(silencing.index, keys, FloorAt(now, silencing.ttl), queue, queues, asked, size, r)
  {
    var quiet := silencing.MembersAt(keys, now);
    var count := silencing.CountAt(keys, now, queue);
    r := ListCompleted(silencing.index, keys, FloorAt(now, silencing.ttl), queue, queues, quiet, count, page, perPage);
  }

  method ListCompleted(ghost index: Index, ghost keys: seq<string>, ghost floor: int, ghost queue: Option<string>,
                       queues: seq<Queue>, quiet: set<string>, count: nat, page: int, perPage: int) returns (r: JobPage)
    requires quiet == MembersOf(index, keys, floor)
    requires count == TotalLive(index, if queue.Some? then [queue.value] else keys, floor)
    ensures var asked: nat := if page < 0 then 0 else page;
            var size: nat := if perPage <= 0 then 25 else if perPage > 200 then 200 else perPage;
            CompletedIsRight(index, keys, floor, queue, queues, asked, size, r)
  {
    r := List(Completed, Everything, queues, quiet, count, page, perPage);
    RequestIsRight(index, keys, floor, queue, queues, ClampPage(page), ClampPerPage(perPage), r);
  }
}
