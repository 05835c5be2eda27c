/** `JobsService.list`: one page of jobs across queues, read through bounded windows. */
module JobsListing {
  import opened Lists
  import opened Options
  import opened BoundedMerge
  import opened JobRefs

  datatype JobView = JobView(ref: JobRef, name: string, tags: seq<string>, createdAt: Option<int>,
                             finishedAt: Option<int>)

  datatype Listing = Pending | Active | Completed | Failed

  /** What one queue holds, each state in the order BullMQ returns it. */
  datatype Queue = Queue(name: string, waiting: seq<JobView>, prioritized: seq<JobView>, delayed: seq<JobView>,
                         paused: seq<JobView>, active: seq<JobView>, completed: seq<JobView>, failed: seq<JobView>)

  datatype JobPage = JobPage(jobs: seq<JobView>, total: nat, reachable: Option<nat>)

  const SEARCH_WINDOW: nat := 1000

  function StatesOf(listing: Listing, q: Queue): seq<seq<JobView>> {
    match listing
    case Pending => [q.waiting, q.prioritized, q.delayed, q.paused]
    case Active => [q.active]
    case Completed => [q.completed]
    case Failed => [q.failed]
  }

  /** Jobs that already ran are ordered by when they finished, the others by age. */
  function SortKey(listing: Listing, job: JobView): int {
    var created := if job.createdAt.Some? then job.createdAt.value else 0;
    if (listing == Completed || listing == Failed) && job.finishedAt.Some? then job.finishedAt.value else created
  }

  function KeyOf(listing: Listing): JobView -> int { (job: JobView) => SortKey(listing, job) }

  /** A search, or none. */
  datatype Search = Everything | Matching(matches: JobView -> bool)

  function Partial(listing: Listing, search: Search, q: Queue): bool {
    search.Everything? && listing != Completed && (listing != Pending || |q.delayed| == 0)
  }

  /** How many rows of each state of a queue a request reads. */
  function ReadLimit(listing: Listing, search: Search, q: Queue, wanted: nat): nat {
    if Partial(listing, search, q) && wanted < SEARCH_WINDOW then wanted else SEARCH_WINDOW
  }

  function Limited(states: seq<seq<JobView>>, limit: nat): seq<Source<JobView>> {
    if states == [] then [] else [Source(states[0], limit)] + Limited(states[1..], limit)
  }

  function Sources(listing: Listing, search: Search, queues: seq<Queue>, wanted: nat): seq<Source<JobView>> {
    if queues == [] then []
    else
      var last := queues[|queues| - 1];
      Sources(listing, search, queues[..|queues| - 1], wanted)
      + Limited(StatesOf(listing, last), ReadLimit(listing, search, last, wanted))
  }

  /** Which rows a listing shows: the silenced ones are hidden from the completed listing. */
  predicate Shows(listing: Listing, search: Search, quiet: set<string>, job: JobView) {
    && (listing == Completed ==> Encode(job.ref) !in quiet)
    && (search.Matching? ==> search.matches(job))
  }

  function Visible(listing: Listing, search: Search, quiet: set<string>): JobView -> bool {
    (job: JobView) => Shows(listing, search, quiet, job)
  }

  predicate FastPath(listing: Listing, search: Search, queues: seq<Queue>) {
    |queues| == 1 && search.Everything? && listing != Completed && listing != Pending
  }

  function Rows(states: seq<seq<JobView>>): nat {
    if states == [] then 0 else |states[0]| + Rows(states[1..])
  }

  function RowsOf(listing: Listing, queues: seq<Queue>): nat {
    if queues == [] then 0
    else RowsOf(listing, queues[..|queues| - 1]) + Rows(StatesOf(listing, queues[|queues| - 1]))
  }

  /** Whether any queue is read through the window rather than at the offset asked for. */
  function AnyBounded(listing: Listing, search: Search, queues: seq<Queue>): bool {
    if queues == [] then false
    else AnyBounded(listing, search, queues[..|queues| - 1]) || !Partial(listing, search, queues[|queues| - 1])
  }

  function ClampPage(page: int): nat { if page > 0 then page else 0 }

  function ClampPerPage(perPage: int): (n: nat)
    ensures 1 <= n <= 200
  {
    if perPage > 0 then if perPage < 200 then perPage else 200 else 25
  }

  lemma {:induction false} CollectedAppend(a: seq<Source<JobView>>, b: seq<Source<JobView>>)
    ensures Collected(a + b) == Collected(a) + Collected(b)
    ensures Whole(a + b) == Whole(a) + Whole(b)
  {
    if a == [] {
      assert a + b == b;
    } else {
      assert (a + b)[1..] == a[1..] + b;
      CollectedAppend(a[1..], b);
    }
  }

  /** How far into the merge a page reaches. */
  function Wanted(page: nat, perPage: nat): nat { (page + 1) * perPage }

  /** What a request returns before the totals are added. */
  function Listed(listing: Listing, search: Search, queues: seq<Queue>, quiet: set<string>, page: nat,
                  perPage: nat): seq<JobView>
  {
    if FastPath(listing, search, queues) then Page(StatesOf(listing, queues[0])[0], page, perPage)
    else
      var merged := Sorted(KeyOf(listing), Collected(Sources(listing, search, queues, Wanted(page, perPage))));
      Page(Keep(merged, Visible(listing, search, quiet)), page, perPage)
  }

  /** The whole listing: every row of every queue, merged, hidden and filtered. */
  function FullListing(listing: Listing, search: Search, queues: seq<Queue>, quiet: set<string>): seq<JobView> {
    Keep(Sorted(KeyOf(listing), AllRows(listing, queues)), Visible(listing, search, quiet))
  }

  function AllRows(listing: Listing, queues: seq<Queue>): seq<JobView> {
    if queues == [] then []
    else AllRows(listing, queues[..|queues| - 1]) + Joined(StatesOf(listing, queues[|queues| - 1]))
  }

  function Joined(states: seq<seq<JobView>>): seq<JobView> {
    if states == [] then [] else states[0] + Joined(states[1..])
  }

  /** The rows the window keeps once the silenced ones are hidden and the search is applied. */
  function Kept(listing: Listing, search: Search, queues: seq<Queue>, quiet: set<string>, wanted: nat): seq<JobView> {
    Keep(Sorted(KeyOf(listing), Collected(Sources(listing, search, queues, wanted))), Visible(listing, search, quiet))
  }

  /** The page, its total and how far paging reaches, from the rows kept. */
  function Footed(listing: Listing, search: Search, kept: seq<JobView>, rows: nat, bounded: bool, quietCount: nat,
                  page: nat, perPage: nat): JobPage
  {
    if search.Matching? then JobPage(Page(kept, page, perPage), |kept|, None)
    else
      var total := if listing == Completed then Max(|kept|, rows - quietCount) else rows;
      JobPage(Page(kept, page, perPage), total, if bounded then Some(Min(total, |kept|)) else None)
  }

  method List(listing: Listing, search: Search, queues: seq<Queue>, quiet: set<string>, quietCount: nat, page: int,
              perPage: int)
      returns (r: JobPage)
    ensures r.jobs == Listed(listing, search, queues, quiet, ClampPage(page), ClampPerPage(perPage))
    ensures FastPath(listing, search, queues) ==> r.total == RowsOf(listing, queues) && r.reachable.None?
    ensures !FastPath(listing, search, queues) ==>
              r == Footed(listing, search,
                          Kept(listing, search, queues, quiet, Wanted(ClampPage(page), ClampPerPage(perPage))),
                          RowsOf(listing, queues), AnyBounded(listing, search, queues), quietCount,
                          ClampPage(page), ClampPerPage(perPage))
    ensures |r.jobs| <= r.total && (r.reachable.Some? ==> |r.jobs| <= r.reachable.value <= r.total)
    ensures var asked: nat := if page < 0 then 0 else page;
            var size: nat := if perPage <= 0 then 25 else if perPage > 200 then 200 else perPage;
            && |r.jobs| <= size
            && (PageKnown(listing, search, queues, quiet, asked, size) ==>
                  r.jobs == Page(FullListing(listing, search, queues, quiet), asked, size))
    ensures listing != Completed && search.Everything? ==> r.total == |FullListing(listing, search, queues, quiet)|
    ensures search.Matching? && (forall k :: 0 <= k < |queues| ==> Small(listing, queues[k])) ==>
              r.total == |FullListing(listing, search, queues, quiet)|
    ensures r.reachable.Some? <==> search.Everything? && exists q :: q in queues && ReadWhole(listing, q)
  {
    ListedIsKnown(listing, search, queues, quiet, ClampPage(page), ClampPerPage(perPage));
    OthersTotal(listing, queues, quiet);
    SearchTotal(listing, search, queues, quiet, Wanted(ClampPage(page), ClampPerPage(perPage)));
    WindowedIs(listing, search, queues);
    var from := ClampPage(page);
    var size := ClampPerPage(perPage);
    if |queues| == 1 && search.Everything? && listing != Completed && listing != Pending {
      r := ReadOne(listing, queues, from, size);
    } else {
      var collected, total, bounded := CollectRows(listing, search, queues, Wanted(from, size));
      r := MergeRows(listing, search, collected, total, bounded, quiet, quietCount, from, size);
    }
  }

  /** A single queue in a single state needs no merge and pages at its own offset. */
  method ReadOne(listing: Listing, queues: seq<Queue>, page: nat, perPage: nat) returns (r: JobPage)
    requires FastPath(listing, Everything, queues)
    ensures r == JobPage(Page(StatesOf(listing, queues[0])[0], page, perPage), RowsOf(listing, queues), None)
    ensures |r.jobs| <= r.total
  {
    var state := StatesOf(listing, queues[0])[0];
    assert queues[..0] == [] && StatesOf(listing, queues[0])[1..] == [];
    assert Rows(StatesOf(listing, queues[0])) == |state|;
    assert RowsOf(listing, queues[..0]) == 0;
    r := JobPage(Page(state, page, perPage), |state|, None);
  }

  /** The rest of `list`: sort, hide, count, search and slice. */
  method MergeRows(listing: Listing, search: Search, collected: seq<JobView>, rows: nat, bounded: bool,
                   quiet: set<string>, quietCount: nat, page: nat, perPage: nat) returns (r: JobPage)
    requires |collected| <= rows
    ensures r == Footed(listing, search, Keep(Sorted(KeyOf(listing), collected), Visible(listing, search, quiet)),
                        rows, bounded, quietCount, page, perPage)
    ensures |r.jobs| <= r.total
    ensures r.reachable.Some? ==> |r.jobs| <= r.reachable.value <= r.total
  {
    SortedIsStable(KeyOf(listing), collected);
    var merged := Sorted(KeyOf(listing), collected);
    KeptVisible(merged, listing, search, quiet);
    KeepMembers(merged, Visible(listing, search, quiet));
    var total := rows;
    if listing == Completed {
      merged := Keep(merged, (job: JobView) => Encode(job.ref) !in quiet);
      total := Max(|merged|, Max(0, rows - quietCount));
    }
    if search.Matching? {
      var matched := Keep(merged, search.matches);
      return JobPage(Page(matched, page, perPage), |matched|, None);
    }
    r := JobPage(Page(merged, page, perPage), total, if bounded then Some(Min(total, |merged|)) else None);
  }

  /** The loop of `list`: each queue at its own read limit. */
  method CollectRows(listing: Listing, search: Search, queues: seq<Queue>, wanted: nat)
      returns (collected: seq<JobView>, total: nat, bounded: bool)
    ensures collected == Collected(Sources(listing, search, queues, wanted))
    ensures total == RowsOf(listing, queues) && |collected| <= total
    ensures bounded == AnyBounded(listing, search, queues)
  {
    collected, total, bounded := [], 0, false;
    for i := 0 to |queues|
      invariant collected == Collected(Sources(listing, search, queues[..i], wanted))
      invariant total == RowsOf(listing, queues[..i]) && |collected| <= total
      invariant bounded == AnyBounded(listing, search, queues[..i])
    {
      var q := queues[i];
      var states := StatesOf(listing, q);
      SourcesGrow(listing, search, queues, i, wanted);
      total := total + Rows(states);
      if !Partial(listing, search, q) {
        bounded := true;
      }
      var limit := ReadLimit(listing, search, q, wanted);
      var read := ReadStates(states, limit);
      collected := collected + read;
    }
    assert queues[..|queues|] == queues;
  }

  lemma SourcesGrow(listing: Listing, search: Search, queues: seq<Queue>, i: nat, wanted: nat)
    requires i < |queues|
    ensures AnyBounded(listing, search, queues[..i + 1])
            == (AnyBounded(listing, search, queues[..i]) || !Partial(listing, search, queues[i]))
    ensures RowsOf(listing, queues[..i + 1]) == RowsOf(listing, queues[..i]) + Rows(StatesOf(listing, queues[i]))
    ensures Collected(Sources(listing, search, queues[..i + 1], wanted))
            == Collected(Sources(listing, search, queues[..i], wanted))
               + Collected(Limited(StatesOf(listing, queues[i]), ReadLimit(listing, search, queues[i], wanted)))
  {
    assert queues[..i + 1][..i] == queues[..i];
    CollectedAppend(Sources(listing, search, queues[..i], wanted),
                    Limited(StatesOf(listing, queues[i]), ReadLimit(listing, search, queues[i], wanted)));
  }

  function Max(a: int, b: int): int { if a < b then b else a }

  function Min(a: nat, b: nat): nat { if a < b then a else b }

  /** The two filters of `list` amount to the one predicate. */
  lemma KeptVisible(rows: seq<JobView>, listing: Listing, search: Search, quiet: set<string>)
    ensures var loud := if listing == Completed then Keep(rows, (job: JobView) => Encode(job.ref) !in quiet) else rows;
            (if search.Matching? then Keep(loud, search.matches) else loud)
                == Keep(rows, Visible(listing, search, quiet))
  {
    var visible := Visible(listing, search, quiet);
    var all := (job: JobView) => true;
    var loud := (job: JobView) => listing == Completed ==> Encode(job.ref) !in quiet;
    var wanted := (job: JobView) => search.Matching? ==> search.matches(job);
    KeepTwice(rows, loud, wanted, visible);
    if listing != Completed {
      KeepAll(rows, loud);
    } else {
      KeepSame(rows, loud, (job: JobView) => Encode(job.ref) !in quiet);
    }
    if search.Matching? {
      KeepSame(Keep(rows, loud), wanted, search.matches);
    } else {
      KeepAll(Keep(rows, loud), wanted);
    }
  }

  /** `getJobs`: the range is applied once per state and the results concatenated. */
  method ReadStates(states: seq<seq<JobView>>, limit: nat) returns (read: seq<JobView>)
    ensures read == Collected(Limited(states, limit)) && |read| <= Rows(states)
  {
    if states == [] {
      return [];
    }
    var rest := ReadStates(states[1..], limit);
    var sources := Limited(states, limit);
    assert sources[1..] == Limited(states[1..], limit);
    read := Prefix(limit, states[0]) + rest;
  }

  // ----- The page a request returns is the page of the whole listing -----

  /** Each state of the queue is read whole, or comes in the order of the sort key. */
  ghost predicate Readable(listing: Listing, q: Queue, limit: nat, m: nat) {
    forall state :: state in StatesOf(listing, q) ==> |state| <= limit || (m <= limit && Ordered(KeyOf(listing), state))
  }

  ghost predicate AllReadable(listing: Listing, search: Search, queues: seq<Queue>, m: nat, wanted: nat) {
    forall k :: 0 <= k < |queues| ==> Readable(listing, queues[k], ReadLimit(listing, search, queues[k], wanted), m)
  }

  lemma {:induction false} LimitedTells(listing: Listing, states: seq<seq<JobView>>, limit: nat, m: nat)
    requires forall state :: state in states ==> |state| <= limit || (m <= limit && Ordered(KeyOf(listing), state))
    ensures forall i :: 0 <= i < |Limited(states, limit)| ==> Tells(KeyOf(listing), m, Limited(states, limit)[i])
    ensures Whole(Limited(states, limit)) == Joined(states)
  {
    if states != [] {
      var sources := Limited(states, limit);
      LimitedTells(listing, states[1..], limit, m);
      OrderedTells(KeyOf(listing), m, Source(states[0], limit));
      assert sources[1..] == Limited(states[1..], limit);
      assert forall i :: 0 < i < |sources| ==> sources[i] == sources[1..][i - 1];
    }
  }

  lemma TellsAppend(at: JobView -> int, m: nat, a: seq<Source<JobView>>, b: seq<Source<JobView>>)
    requires forall i :: 0 <= i < |a| ==> Tells(at, m, a[i])
    requires forall i :: 0 <= i < |b| ==> Tells(at, m, b[i])
    ensures forall i :: 0 <= i < |a + b| ==> Tells(at, m, (a + b)[i])
  {
  }

  lemma {:induction false} SourcesTell(listing: Listing, search: Search, queues: seq<Queue>, m: nat, wanted: nat)
    requires AllReadable(listing, search, queues, m, wanted)
    ensures var sources := Sources(listing, search, queues, wanted);
            && (forall i :: 0 <= i < |sources| ==> Tells(KeyOf(listing), m, sources[i]))
            && Whole(sources) == AllRows(listing, queues)
  {
    if queues != [] {
      var n := |queues| - 1;
      var last := queues[n];
      var limit := ReadLimit(listing, search, last, wanted);
      assert Readable(listing, queues[n], limit, m);
      SourcesTell(listing, search, queues[..n], m, wanted);
      LimitedTells(listing, StatesOf(listing, last), limit, m);
      CollectedAppend(Sources(listing, search, queues[..n], wanted), Limited(StatesOf(listing, last), limit));
      TellsAppend(KeyOf(listing), m, Sources(listing, search, queues[..n], wanted),
                  Limited(StatesOf(listing, last), limit));
    }
  }

  /** The states of a queue come newest first; but with delayed jobs, which come by due date, the window
    * is read instead, and it is enough that no state outgrows it.
    */
  ghost predicate Orderly(listing: Listing, q: Queue) {
    forall state :: state in StatesOf(listing, q) ==>
      Ordered(KeyOf(listing), state) || (listing == Pending && |q.delayed| > 0 && |state| <= SEARCH_WINDOW)
  }

  lemma OrderlyReadable(listing: Listing, queues: seq<Queue>, wanted: nat)
    requires listing != Completed && wanted <= SEARCH_WINDOW
    requires forall k :: 0 <= k < |queues| ==> Orderly(listing, queues[k])
    ensures AllReadable(listing, Everything, queues, wanted, wanted)
  {
    forall k | 0 <= k < |queues|
      ensures Readable(listing, queues[k], ReadLimit(listing, Everything, queues[k], wanted), wanted)
    {
      assert Orderly(listing, queues[k]);
    }
  }

  lemma FastPathIsFull(listing: Listing, queues: seq<Queue>, quiet: set<string>, page: nat, perPage: nat)
    requires FastPath(listing, Everything, queues) && Orderly(listing, queues[0])
    ensures Listed(listing, Everything, queues, quiet, page, perPage)
            == Page(FullListing(listing, Everything, queues, quiet), page, perPage)
  {
    var at := KeyOf(listing);
    var state := StatesOf(listing, queues[0])[0];
    assert state in StatesOf(listing, queues[0]);
    SortedFixed(at, state);
    assert queues[..0] == [] && StatesOf(listing, queues[0])[1..] == [];
    assert Joined(StatesOf(listing, queues[0])) == state;
    assert AllRows(listing, queues) == state;
    KeepAll(state, Visible(listing, Everything, quiet));
  }

  /** An unfiltered page that ends within the window is the page of the whole listing, whichever path
    * served it: filtering by queue does not reorder rows.
    */
  lemma UnfilteredPageIsFull(listing: Listing, queues: seq<Queue>, quiet: set<string>, page: nat, perPage: nat)
    requires listing != Completed && (page + 1) * perPage <= SEARCH_WINDOW
    requires forall k :: 0 <= k < |queues| ==> Orderly(listing, queues[k])
    ensures Listed(listing, Everything, queues, quiet, page, perPage)
            == Page(FullListing(listing, Everything, queues, quiet), page, perPage)
  {
    if FastPath(listing, Everything, queues) {
      FastPathIsFull(listing, queues, quiet, page, perPage);
    } else {
      var at := KeyOf(listing);
      var visible := Visible(listing, Everything, quiet);
      var wanted := Wanted(page, perPage);
      var sources := Sources(listing, Everything, queues, wanted);
      OrderlyReadable(listing, queues, wanted);
      SourcesTell(listing, Everything, queues, wanted, wanted);
      PageIsFull(at, sources, page, perPage);
      KeepAll(Sorted(at, AllRows(listing, queues)), visible);
      KeepAll(Sorted(at, Collected(sources)), visible);
    }
  }

  /** A page of the completed listing, or of a search, is the page of the whole filtered listing when it
    * ends within the rows kept of the first thousand of the merge.
    */
  lemma FilteredPageIsFull(listing: Listing, search: Search, queues: seq<Queue>, quiet: set<string>, page: nat,
                           perPage: nat)
    requires listing == Completed || search.Matching?
    requires forall k :: 0 <= k < |queues| ==> Readable(listing, queues[k], SEARCH_WINDOW, SEARCH_WINDOW)
    requires (page + 1) * perPage <= |KeptOfWindow(listing, search, queues, quiet)|
    ensures Listed(listing, search, queues, quiet, page, perPage)
            == Page(FullListing(listing, search, queues, quiet), page, perPage)
  {
    var at := KeyOf(listing);
    var wanted := Wanted(page, perPage);
    var sources := Sources(listing, search, queues, wanted);
    WindowReadable(listing, search, queues, SEARCH_WINDOW, wanted);
    SourcesTell(listing, search, queues, SEARCH_WINDOW, wanted);
    BoundedMerge.FilteredPageIsFull(at, SEARCH_WINDOW, sources, Visible(listing, search, quiet), page, perPage);
  }

  function KeptOfWindow(listing: Listing, search: Search, queues: seq<Queue>, quiet: set<string>): seq<JobView> {
    Keep(Prefix(SEARCH_WINDOW, Sorted(KeyOf(listing), AllRows(listing, queues))), Visible(listing, search, quiet))
  }

  lemma WindowReadable(listing: Listing, search: Search, queues: seq<Queue>, m: nat, wanted: nat)
    requires listing == Completed || search.Matching?
    requires forall k :: 0 <= k < |queues| ==> Readable(listing, queues[k], SEARCH_WINDOW, m)
    ensures AllReadable(listing, search, queues, m, wanted)
  {
    forall k | 0 <= k < |queues|
      ensures Readable(listing, queues[k], ReadLimit(listing, search, queues[k], wanted), m)
    {
      assert ReadLimit(listing, search, queues[k], wanted) == SEARCH_WINDOW;
    }
  }

  ghost predicate Small(listing: Listing, q: Queue) {
    forall state :: state in StatesOf(listing, q) ==> |state| <= SEARCH_WINDOW
  }

  /** Then the window reads every row. */
  lemma SmallReadsAll(listing: Listing, search: Search, queues: seq<Queue>, wanted: nat)
    requires listing == Completed || search.Matching?
    requires forall k :: 0 <= k < |queues| ==> Small(listing, queues[k])
    ensures Sorted(KeyOf(listing), Collected(Sources(listing, search, queues, wanted)))
            == Sorted(KeyOf(listing), AllRows(listing, queues))
  {
    var at := KeyOf(listing);
    var sources := Sources(listing, search, queues, wanted);
    var read, full := Sorted(at, Collected(sources)), Sorted(at, AllRows(listing, queues));
    var m := |read| + |full|;
    forall k | 0 <= k < |queues| ensures Readable(listing, queues[k], SEARCH_WINDOW, m) {
      assert Small(listing, queues[k]);
    }
    WindowReadable(listing, search, queues, m, wanted);
    SourcesTell(listing, search, queues, m, wanted);
    BoundedIsFull(at, m, sources);
    assert read == Prefix(m, read) && full == Prefix(m, full);
  }

  /** While no state holds more than a thousand jobs, every page of a filtered listing is exact. */
  lemma SmallListingIsFull(listing: Listing, search: Search, queues: seq<Queue>, quiet: set<string>, page: nat,
                           perPage: nat)
    requires listing == Completed || search.Matching?
    requires forall k :: 0 <= k < |queues| ==> Small(listing, queues[k])
    ensures Listed(listing, search, queues, quiet, page, perPage)
            == Page(FullListing(listing, search, queues, quiet), page, perPage)
  {
    SmallReadsAll(listing, search, queues, Wanted(page, perPage));
  }

  lemma {:induction false} JoinedCounted(states: seq<seq<JobView>>)
    ensures |Joined(states)| == Rows(states)
  {
    if states != [] {
      JoinedCounted(states[1..]);
    }
  }

  lemma {:induction false} RowsCounted(listing: Listing, queues: seq<Queue>)
    ensures |AllRows(listing, queues)| == RowsOf(listing, queues)
  {
    if queues != [] {
      RowsCounted(listing, queues[..|queues| - 1]);
      JoinedCounted(StatesOf(listing, queues[|queues| - 1]));
    }
  }

  lemma SmallKept(queues: seq<Queue>, quiet: set<string>, wanted: nat)
    requires forall k :: 0 <= k < |queues| ==> Small(Completed, queues[k])
    ensures Kept(Completed, Everything, queues, quiet, wanted) == FullListing(Completed, Everything, queues, quiet)
  {
    SmallReadsAll(Completed, Everything, queues, wanted);
  }

  lemma RowsSorted(listing: Listing, queues: seq<Queue>)
    ensures |Sorted(KeyOf(listing), AllRows(listing, queues))| == RowsOf(listing, queues)
  {
    SortedIsStable(KeyOf(listing), AllRows(listing, queues));
    RowsCounted(listing, queues);
  }

  // ----- A window never keeps more rows than there are -----

  lemma {:induction false} WholeLimited(states: seq<seq<JobView>>, limit: nat)
    ensures Whole(Limited(states, limit)) == Joined(states)
  {
    if states != [] {
      WholeLimited(states[1..], limit);
      assert Limited(states, limit)[1..] == Limited(states[1..], limit);
    }
  }

  lemma {:induction false} WholeSources(listing: Listing, search: Search, queues: seq<Queue>, wanted: nat)
    ensures Whole(Sources(listing, search, queues, wanted)) == AllRows(listing, queues)
  {
    if queues != [] {
      var n := |queues| - 1;
      var limit := ReadLimit(listing, search, queues[n], wanted);
      WholeSources(listing, search, queues[..n], wanted);
      WholeLimited(StatesOf(listing, queues[n]), limit);
      CollectedAppend(Sources(listing, search, queues[..n], wanted), Limited(StatesOf(listing, queues[n]), limit));
    }
  }

  lemma KeptWithin(listing: Listing, search: Search, queues: seq<Queue>, quiet: set<string>, wanted: nat)
    ensures |Kept(listing, search, queues, quiet, wanted)| <= |FullListing(listing, search, queues, quiet)|
  {
    var at, visible := KeyOf(listing), Visible(listing, search, quiet);
    var sources := Sources(listing, search, queues, wanted);
    WholeSources(listing, search, queues, wanted);
    SortedKeeps(at, Collected(sources), visible);
    SortedKeeps(at, AllRows(listing, queues), visible);
    CollectedKeeps(sources, visible);
  }

  // ----- Consecutive pages -----

  ghost predicate Exact(listing: Listing, search: Search, queues: seq<Queue>, quiet: set<string>, page: nat,
                        perPage: nat)
  {
    Listed(listing, search, queues, quiet, page, perPage)
        == Page(FullListing(listing, search, queues, quiet), page, perPage)
  }

  function PageOf(listing: Listing, search: Search, queues: seq<Queue>, quiet: set<string>,
                  perPage: nat): nat -> seq<JobView>
  {
    (page: nat) => Listed(listing, search, queues, quiet, page, perPage)
  }

  function ListedPages(listing: Listing, search: Search, queues: seq<Queue>, quiet: set<string>, count: nat,
                       perPage: nat)
      : seq<JobView>
  {
    InTurn(PageOf(listing, search, queues, quiet, perPage), count)
  }

  lemma AllExact(listing: Listing, search: Search, queues: seq<Queue>, quiet: set<string>, count: nat, perPage: nat)
    requires forall page: nat :: page < count ==> Exact(listing, search, queues, quiet, page, perPage)
    ensures ListedPages(listing, search, queues, quiet, count, perPage)
            == Prefix(count * perPage, FullListing(listing, search, queues, quiet))
  {
    var full := FullListing(listing, search, queues, quiet);
    forall page: nat | page < count
      ensures PageOf(listing, search, queues, quiet, perPage)(page) == PageAt(full, perPage)(page)
    {
      assert Exact(listing, search, queues, quiet, page, perPage);
    }
    InTurnSame(PageOf(listing, search, queues, quiet, perPage), PageAt(full, perPage), count);
    PagesConcatenate(full, count, perPage);
  }

  // ----- What a request can count on -----

  /** A queue is read through the window and not at the offset asked for: all completed jobs, which may have to
    * be hidden, and pending ones when some are delayed.
    */
  predicate ReadWhole(listing: Listing, q: Queue) {
    listing == Completed || (listing == Pending && q.delayed != [])
  }

  lemma {:induction false} LimitedAlike(states: seq<seq<JobView>>, limit: nat)
    ensures |Limited(states, limit)| == |states|
    ensures forall k :: 0 <= k < |states| ==> Limited(states, limit)[k] == Source(states[k], limit)
  {
    if states != [] {
      LimitedAlike(states[1..], limit);
    }
  }

  /** How deep each state of a queue is read: to the end of the page asked for, unless rows may be hidden, searched
    * or out of order; and never deeper than a thousand rows.
    */
  lemma ReadDepth(listing: Listing, search: Search, q: Queue, wanted: nat)
    ensures var sources, states := Sources(listing, search, [q], wanted), StatesOf(listing, q);
            var offset := search.Everything? && !ReadWhole(listing, q) && wanted < 1000;
            && |sources| == |states|
            && forall k :: 0 <= k < |states| ==> sources[k] == Source(states[k], if offset then wanted else 1000)
  {
    LimitedAlike(StatesOf(listing, q), ReadLimit(listing, search, q, wanted));
    assert Sources(listing, search, [q][..0], wanted) == [];
  }

  lemma {:induction false} WindowedIs(listing: Listing, search: Search, queues: seq<Queue>)
    ensures search.Everything? ==>
              (AnyBounded(listing, search, queues) <==> exists q :: q in queues && ReadWhole(listing, q))
  {
    if queues != [] {
      var n := |queues| - 1;
      WindowedIs(listing, search, queues[..n]);
      assert queues == queues[..n] + [queues[n]];
      assert search.Everything? ==> (ReadWhole(listing, queues[n]) <==> !Partial(listing, search, queues[n]));
    }
  }

  /** The pages that are sure to be those of the whole listing. */
  ghost predicate PageKnown(listing: Listing, search: Search, queues: seq<Queue>, quiet: set<string>, page: nat,
                            perPage: nat)
  {
    if listing != Completed && search.Everything? then
      && (forall k :: 0 <= k < |queues| ==> Orderly(listing, queues[k]))
      && (page * perPage + perPage <= 1000 || (|queues| == 1 && listing != Pending))
    else
      || (forall k :: 0 <= k < |queues| ==> Small(listing, queues[k]))
      || ((forall k :: 0 <= k < |queues| ==> Readable(listing, queues[k], 1000, 1000))
          && page * perPage + perPage <= |KeptOfWindow(listing, search, queues, quiet)|)
  }

  lemma ListedIsKnown(listing: Listing, search: Search, queues: seq<Queue>, quiet: set<string>, page: nat, perPage: nat)
    ensures PageKnown(listing, search, queues, quiet, page, perPage) ==>
              Exact(listing, search, queues, quiet, page, perPage)
  {
    if PageKnown(listing, search, queues, quiet, page, perPage) {
      assert page * perPage + perPage == (page + 1) * perPage;
      if listing != Completed && search.Everything? {
        if FastPath(listing, search, queues) {
          FastPathIsFull(listing, queues, quiet, page, perPage);
        } else {
          UnfilteredPageIsFull(listing, queues, quiet, page, perPage);
        }
      } else if forall k :: 0 <= k < |queues| ==> Small(listing, queues[k]) {
        SmallListingIsFull(listing, search, queues, quiet, page, perPage);
      } else {
        FilteredPageIsFull(listing, search, queues, quiet, page, perPage);
      }
    }
  }

  lemma OthersTotal(listing: Listing, queues: seq<Queue>, quiet: set<string>)
    ensures listing != Completed ==> RowsOf(listing, queues) == |FullListing(listing, Everything, queues, quiet)|
  {
    RowsSorted(listing, queues);
    if listing != Completed {
      KeepAll(Sorted(KeyOf(listing), AllRows(listing, queues)), Visible(listing, Everything, quiet));
    }
  }

  lemma SearchTotal(listing: Listing, search: Search, queues: seq<Queue>, quiet: set<string>, wanted: nat)
    ensures search.Matching? && (forall k :: 0 <= k < |queues| ==> Small(listing, queues[k])) ==>
              Kept(listing, search, queues, quiet, wanted) == FullListing(listing, search, queues, quiet)
  {
    if search.Matching? && forall k :: 0 <= k < |queues| ==> Small(listing, queues[k]) {
      SmallReadsAll(listing, search, queues, wanted);
    }
  }

  // ----- What the whole listing is -----

  lemma JoinedCons(first: seq<JobView>, rest: seq<seq<JobView>>)
    ensures Joined([first] + rest) == first + Joined(rest)
  {
    assert ([first] + rest)[1..] == rest;
  }

  lemma JoinedOne(rows: seq<JobView>)
    ensures Joined([rows]) == rows
  {
    assert Joined([rows]) == rows + Joined([rows][1..]);
  }

  /** Which jobs of a queue a listing is about, in the order they are merged. */
  lemma QueueRows(q: Queue)
    ensures Joined(StatesOf(Pending, q)) == q.waiting + q.prioritized + q.delayed + q.paused
    ensures Joined(StatesOf(Active, q)) == q.active
    ensures Joined(StatesOf(Completed, q)) == q.completed
    ensures Joined(StatesOf(Failed, q)) == q.failed
  {
    JoinedOne(q.paused);
    JoinedOne(q.active);
    JoinedOne(q.completed);
    JoinedOne(q.failed);
    JoinedCons(q.delayed, [q.paused]);
    JoinedCons(q.prioritized, [q.delayed, q.paused]);
    JoinedCons(q.waiting, [q.prioritized, q.delayed, q.paused]);
    assert StatesOf(Pending, q) == [q.waiting] + [q.prioritized, q.delayed, q.paused];
    assert [q.prioritized, q.delayed, q.paused] == [q.prioritized] + [q.delayed, q.paused];
    assert [q.delayed, q.paused] == [q.delayed] + [q.paused];
    assert q.waiting + (q.prioritized + (q.delayed + q.paused)) == q.waiting + q.prioritized + q.delayed + q.paused;
  }

  predicate Holds(listing: Listing, q: Queue, job: JobView) {
    match listing
    case Pending => job in q.waiting || job in q.prioritized || job in q.delayed || job in q.paused
    case Active => job in q.active
    case Completed => job in q.completed
    case Failed => job in q.failed
  }

  lemma {:induction false} AllRowsHold(listing: Listing, queues: seq<Queue>, job: JobView)
    ensures job in AllRows(listing, queues) <==> exists q :: q in queues && Holds(listing, q, job)
  {
    if queues != [] {
      var n := |queues| - 1;
      AllRowsHold(listing, queues[..n], job);
      QueueRows(queues[n]);
      assert queues == queues[..n] + [queues[n]];
      assert job in Joined(StatesOf(listing, queues[n])) <==> Holds(listing, queues[n], job);
    }
  }

  /** The whole listing is the jobs of its states that match the search, the silenced ones left out of the
    * completed ones.
    */
  lemma ListingHolds(listing: Listing, search: Search, queues: seq<Queue>, quiet: set<string>, job: JobView)
    ensures job in FullListing(listing, search, queues, quiet)
            <==> (exists q :: q in queues && Holds(listing, q, job))
                 && (listing == Completed ==> job.ref.queue + ":" + job.ref.jobId !in quiet)
                 && (search.Matching? ==> search.matches(job))
  {
    AllRowsHold(listing, queues, job);
    SortedIsStable(KeyOf(listing), AllRows(listing, queues));
    KeepIn(Sorted(KeyOf(listing), AllRows(listing, queues)), Visible(listing, search, quiet), job);
  }

  /** When a row happened, as far as its listing is concerned. */
  predicate HappenedAt(listing: Listing, job: JobView, at: int) {
    if (listing == Completed || listing == Failed) && job.finishedAt.Some? then at == job.finishedAt.value
    else if job.createdAt.Some? then at == job.createdAt.value
    else at == 0
  }

  /** The whole listing is in order: by when its jobs finished if they have, by age otherwise. */
  lemma NewestFirst(listing: Listing, search: Search, queues: seq<Queue>, quiet: set<string>, i: nat, j: nat,
                    a: int, b: int)
    requires i < j < |FullListing(listing, search, queues, quiet)|
    requires HappenedAt(listing, FullListing(listing, search, queues, quiet)[i], a)
    requires HappenedAt(listing, FullListing(listing, search, queues, quiet)[j], b)
    ensures a >= b
  {
    SortedIsStable(KeyOf(listing), AllRows(listing, queues));
    KeepOrdered(KeyOf(listing), Sorted(KeyOf(listing), AllRows(listing, queues)), Visible(listing, search, quiet));
  }

  /** A page reaches exactly as far into the listing as is read for it. */
  lemma WantedIsTheEnd<T>(rows: seq<T>, page: nat, perPage: nat)
    requires perPage > 0 && Wanted(page, perPage) <= |rows|
    ensures |Page(rows, page, perPage)| == perPage && Wanted(page, perPage) > 0
    ensures Page(rows, page, perPage)[perPage - 1] == rows[Wanted(page, perPage) - 1]
  {
    var from := page * perPage;
    assert Wanted(page, perPage) == from + perPage;
    assert rows[from..][perPage - 1] == rows[from + perPage - 1];
  }

  lemma PageWithin(page: nat, count: nat, perPage: nat)
    requires page < count
    ensures (page + 1) * perPage <= count * perPage
  {
  }

  /** Consecutive pages of a listing put together are its beginning: no row skipped, none repeated. Across
    * queues as far as the window goes; on the single-queue path without end.
    */
  lemma ListingPagesConcatenate(listing: Listing, queues: seq<Queue>, quiet: set<string>, count: nat, perPage: nat)
    requires listing != Completed && (FastPath(listing, Everything, queues) || count * perPage <= SEARCH_WINDOW)
    requires forall k :: 0 <= k < |queues| ==> Orderly(listing, queues[k])
    ensures ListedPages(listing, Everything, queues, quiet, count, perPage)
            == Prefix(count * perPage, FullListing(listing, Everything, queues, quiet))
  {
    forall page: nat | page < count ensures Exact(listing, Everything, queues, quiet, page, perPage)
    {
      if FastPath(listing, Everything, queues) {
        FastPathIsFull(listing, queues, quiet, page, perPage);
      } else {
        PageWithin(page, count, perPage);
        UnfilteredPageIsFull(listing, queues, quiet, page, perPage);
      }
    }
    AllExact(listing, Everything, queues, quiet, count, perPage);
  }

  /** So are those of the completed listing and of a search, as far as the rows kept of the window go; and
    * without end while no state outgrows the window.
    */
  lemma FilteredPagesConcatenate(listing: Listing, search: Search, queues: seq<Queue>, quiet: set<string>, count: nat,
                                 perPage: nat)
    requires listing == Completed || search.Matching?
    requires || (forall k :: 0 <= k < |queues| ==> Small(listing, queues[k]))
             || ((forall k :: 0 <= k < |queues| ==> Readable(listing, queues[k], SEARCH_WINDOW, SEARCH_WINDOW))
                 && count * perPage <= |KeptOfWindow(listing, search, queues, quiet)|)
    ensures ListedPages(listing, search, queues, quiet, count, perPage)
            == Prefix(count * perPage, FullListing(listing, search, queues, quiet))
  {
    forall page: nat | page < count ensures Exact(listing, search, queues, quiet, page, perPage)
    {
      if forall k :: 0 <= k < |queues| ==> Small(listing, queues[k]) {
        SmallListingIsFull(listing, search, queues, quiet, page, perPage);
      } else {
        PageWithin(page, count, perPage);
        FilteredPageIsFull(listing, search, queues, quiet, page, perPage);
      }
    }
    AllExact(listing, search, queues, quiet, count, perPage);
  }
}
