/** The silenced index over time: what any sequence of its operations leaves, and who is read back when. */
module SilencedRuns {
  import opened Options
  import opened BoundedMerge
  import opened JobRefs
  import opened JobsListing
  import opened Silenced

  datatype Op =
    | Recorded(queue: string, jobId: string, at: int)
    | Forgot(queue: string, jobId: string)
    | TrimmedAt(now: int)
    | Cleared(only: Option<string>)

  /** The oldest score still worth reading. */
  function FloorAt(now: int, ttl: nat): (floor: int)
    ensures floor == now - 1000 * ttl
  {
    now - ttl * 1000
  }

  /** One operation of a service that keeps entries `ttl` seconds. */
  function After(ttl: nat, index: Index, op: Op): Index {
    match op
    case Recorded(queue, id, at) => index[queue := ZAdd(EntriesAt(index, queue), id, at)]
    case Forgot(queue, id) => index[queue := ZRem(EntriesAt(index, queue), id)]
    case TrimmedAt(now) => Trimmed(index, FloorAt(now, ttl))
    case Cleared(None) => map[]
    case Cleared(Some(queue)) => index - {queue}
  }

  function Exec(ttl: nat, ops: seq<Op>): Index {
    if ops == [] then map[] else After(ttl, Exec(ttl, ops[..|ops| - 1]), ops[|ops| - 1])
  }

  /** When a job was last recorded, if it was and has not been forgotten or cleared since. */
  function LastRecorded(ops: seq<Op>, ref: JobRef): Option<int> {
    if ops == [] then None
    else
      var earlier := LastRecorded(ops[..|ops| - 1], ref);
      match ops[|ops| - 1]
      case Recorded(queue, id, at) => if queue == ref.queue && id == ref.jobId then Some(at) else earlier
      case Forgot(queue, id) => if queue == ref.queue && id == ref.jobId then None else earlier
      case TrimmedAt(_) => earlier
      case Cleared(queue) => if queue == None || queue == Some(ref.queue) then None else earlier
  }

  /** Every trim ran before `now`, by a millisecond at least. */
  predicate TrimsBefore(ops: seq<Op>, now: int) { forall op :: op in ops && op.TrimmedAt? ==> op.now < now }

  /** Recorded within the last `1000 * ttl` milliseconds. */
  ghost predicate IsRecent(index: Index, ref: JobRef, now: int, ttl: nat) {
    exists at :: Holds(index, ref, at) && now - at <= 1000 * ttl
  }

  function JobsOf(index: Index): set<JobRef> {
    set queue, e | queue in index && e in index[queue] :: JobRef(queue, e.jobId)
  }

  /** The jobs of the index that are recent. */
  ghost function Recent(index: Index, now: int, ttl: nat): set<JobRef> {
    set ref | ref in JobsOf(index) && IsRecent(index, ref, now, ttl)
  }

  lemma InRecent(index: Index, now: int, ttl: nat, ref: JobRef)
    ensures ref in Recent(index, now, ttl) <==> IsRecent(index, ref, now, ttl)
  {
    if IsRecent(index, ref, now, ttl) {
      var at :| Holds(index, ref, at) && now - at <= 1000 * ttl;
      assert ref == JobRef(ref.queue, Entry(ref.jobId, at).jobId);
    }
  }

  predicate Holds(index: Index, ref: JobRef, at: int) { Entry(ref.jobId, at) in EntriesAt(index, ref.queue) }

  lemma RecordedHolds(index: Index, queue: string, id: string, t: int, ref: JobRef, at: int)
    requires ValidIndex(index)
    ensures var after := index[queue := ZAdd(EntriesAt(index, queue), id, t)];
            && ValidIndex(after)
            && (Holds(after, ref, at)
                <==> if queue == ref.queue && id == ref.jobId then at == t else Holds(index, ref, at))
  {
    ZAddIs(EntriesAt(index, queue), id, t);
  }

  lemma ForgotHolds(index: Index, queue: string, id: string, ref: JobRef, at: int)
    requires ValidIndex(index)
    ensures var after := index[queue := ZRem(EntriesAt(index, queue), id)];
            && ValidIndex(after)
            && (Holds(after, ref, at) <==> Holds(index, ref, at) && !(queue == ref.queue && id == ref.jobId))
  {
    ZRemIs(EntriesAt(index, queue), id);
  }

  lemma TrimmedHolds(index: Index, floor: int, ref: JobRef, at: int)
    requires ValidIndex(index)
    ensures ValidIndex(Trimmed(index, floor))
    ensures Holds(Trimmed(index, floor), ref, at) <==> Holds(index, ref, at) && !(0 <= at <= floor)
  {
    TrimmedIs(index, floor);
  }

  lemma HoldsAfter(ttl: nat, index: Index, op: Op, ref: JobRef, at: int)
    requires ValidIndex(index)
    ensures ValidIndex(After(ttl, index, op))
    ensures Holds(After(ttl, index, op), ref, at)
            <==> match op
                 case Recorded(queue, id, t) =>
                   if queue == ref.queue && id == ref.jobId then at == t else Holds(index, ref, at)
                 case Forgot(queue, id) => Holds(index, ref, at) && !(queue == ref.queue && id == ref.jobId)
                 case TrimmedAt(now) => Holds(index, ref, at) && !(0 <= at <= now - 1000 * ttl)
                 case Cleared(queue) => Holds(index, ref, at) && queue != None && queue != Some(ref.queue)
  {
    match op
    case Recorded(queue, id, t) => RecordedHolds(index, queue, id, t, ref, at);
    case Forgot(queue, id) => ForgotHolds(index, queue, id, ref, at);
    case TrimmedAt(now) => TrimmedHolds(index, FloorAt(now, ttl), ref, at);
    case Cleared(_) =>
  }

  /** On the same queues, exactly the entries younger than the retention, and those never given a time. */
  ghost predicate Retained(before: Index, after: Index, now: int, ttl: nat) {
    && after.Keys == before.Keys
    && forall queue, e :: queue in before ==>
         (e in after[queue] <==> e in before[queue] && (e.at < 0 || now - e.at < 1000 * ttl))
  }

  /** What a trim leaves. */
  lemma TrimKeeps(ttl: nat, index: Index, now: int)
    requires ValidIndex(index)
    ensures ValidIndex(After(ttl, index, TrimmedAt(now)))
    ensures Retained(index, After(ttl, index, TrimmedAt(now)), now, ttl)
  {
    TrimmedIs(index, FloorAt(now, ttl));
  }

  /** An entry is its job's last record; and it is there as long as it would be read at `now`. */
  lemma {:induction false} HeldWhileRecent(ttl: nat, ops: seq<Op>, ref: JobRef, now: int, at: int)
    requires TrimsBefore(ops, now)
    ensures ValidIndex(Exec(ttl, ops))
    ensures Holds(Exec(ttl, ops), ref, at) ==> LastRecorded(ops, ref) == Some(at)
    ensures LastRecorded(ops, ref) == Some(at) && now - at <= 1000 * ttl ==> Holds(Exec(ttl, ops), ref, at)
  {
    if ops != [] {
      var before, op := ops[..|ops| - 1], ops[|ops| - 1];
      assert op in ops && forall other :: other in before ==> other in ops;
      HeldWhileRecent(ttl, before, ref, now, at);
      HoldsAfter(ttl, Exec(ttl, before), op, ref, at);
    }
  }

  lemma RecentIsRecorded(ttl: nat, ops: seq<Op>, ref: JobRef, now: int)
    requires TrimsBefore(ops, now)
    ensures IsRecent(Exec(ttl, ops), ref, now, ttl)
            <==> LastRecorded(ops, ref).Some? && now - LastRecorded(ops, ref).value <= 1000 * ttl
  {
    var index := Exec(ttl, ops);
    if IsRecent(index, ref, now, ttl) {
      var at :| Holds(index, ref, at) && now - at <= 1000 * ttl;
      HeldWhileRecent(ttl, ops, ref, now, at);
    }
    if LastRecorded(ops, ref).Some? {
      HeldWhileRecent(ttl, ops, ref, now, LastRecorded(ops, ref).value);
    }
  }

  lemma LiveIsRecent(index: Index, keys: seq<string>, floor: int, now: int, ttl: nat, ref: JobRef)
    requires ValidIndex(index) && Scanned(keys, index) && floor == now - 1000 * ttl
    ensures ref in RefSet(AllLive(index, keys, floor)) <==> IsRecent(index, ref, now, ttl)
  {
    var z := EntriesAt(index, ref.queue);
    LiveOn(index, keys, floor, ref);
    LiveIs(z, floor);
    if IsRecent(index, ref, now, ttl) {
      var at :| Holds(index, ref, at) && now - at <= 1000 * ttl;
      assert Entry(ref.jobId, at) in Live(z, floor);
    }
    if e :| e in Live(z, floor) && e.jobId == ref.jobId {
      assert e == Entry(ref.jobId, e.at);
      assert Holds(index, ref, e.at);
    }
  }

  /** What the silenced listing names, read at the floor of `now`. */
  lemma ListedIsRecent(index: Index, keys: seq<string>, floor: int, now: int, ttl: nat, ref: JobRef)
    requires ValidIndex(index) && Scanned(keys, index) && floor == now - 1000 * ttl
    ensures ref in RefSet(SilencedListing(index, keys, floor)) <==> IsRecent(index, ref, now, ttl)
  {
    LiveIsRecent(index, keys, floor, now, ttl, ref);
    ListingNames(index, keys, floor);
  }

  lemma LiveAreRecent(index: Index, keys: seq<string>, floor: int, now: int, ttl: nat)
    requires ValidIndex(index) && Scanned(keys, index) && floor == now - 1000 * ttl
    ensures RefSet(AllLive(index, keys, floor)) == Recent(index, now, ttl)
  {
    forall ref ensures ref in RefSet(AllLive(index, keys, floor)) <==> ref in Recent(index, now, ttl) {
      LiveIsRecent(index, keys, floor, now, ttl, ref);
      InRecent(index, now, ttl, ref);
    }
  }

  /** And how many jobs `count` counts. */
  lemma CountIsRecent(index: Index, keys: seq<string>, floor: int, now: int, ttl: nat)
    requires ValidIndex(index) && Scanned(keys, index) && floor == now - 1000 * ttl
    ensures TotalLive(index, keys, floor) == |Recent(index, now, ttl)|
  {
    LiveAreRecent(index, keys, floor, now, ttl);
    LiveRefsCounted(index, keys, floor);
  }

  /** What the pages are cut from and what `members` hides, both read at `floor`, have to say of `ref`. */
  ghost predicate ReadEverywhere(index: Index, keys: seq<string>, floor: int, ref: JobRef, read: bool) {
    && (ref in RefSet(SilencedListing(index, keys, floor)) <==> read)
    && (Encode(ref) in MembersOf(index, keys, floor) <==> read)
  }

  lemma ReadIsRecent(index: Index, keys: seq<string>, floor: int, ref: JobRef, now: int, ttl: nat)
    requires Scanned(keys, index) && WithinScan(index, keys, floor) && ':' !in ref.queue && floor == now - 1000 * ttl
    ensures ReadEverywhere(index, keys, floor, ref, IsRecent(index, ref, now, ttl))
  {
    ListedIsRecent(index, keys, floor, now, ttl, ref);
    HiddenIsLive(index, keys, floor, ref);
  }

  /** From end to end: with `minutes` of retention, a job recorded at `t` and left alone since is in the listing
    * the pages are cut from, in `members` and in `count` at `now` exactly while `now - t` is at most that many
    * minutes, whatever was recorded, forgotten, cleared or trimmed before.
    */
  lemma RecordedIsRead(minutes: nat, ttl: nat, ops: seq<Op>, keys: seq<string>, ref: JobRef, now: int, floor: int)
    requires minutes >= 1 && ttl == 60 * minutes && floor == now - 60000 * minutes
    requires TrimsBefore(ops, now) && Scanned(keys, Exec(ttl, ops))
    requires WithinScan(Exec(ttl, ops), keys, floor) && ':' !in ref.queue
    ensures var within := LastRecorded(ops, ref).Some? && now - LastRecorded(ops, ref).value <= 60000 * minutes;
            && ReadEverywhere(Exec(ttl, ops), keys, floor, ref, within)
            && TotalLive(Exec(ttl, ops), keys, floor) == |Recent(Exec(ttl, ops), now, ttl)|
            && (ref in Recent(Exec(ttl, ops), now, ttl) <==> within)
  {
    RecentIsRecorded(ttl, ops, ref, now);
    ReadIsRecent(Exec(ttl, ops), keys, floor, ref, now, ttl);
    InRecent(Exec(ttl, ops), now, ttl, ref);
    CountIsRecent(Exec(ttl, ops), keys, floor, now, ttl);
  }
}
