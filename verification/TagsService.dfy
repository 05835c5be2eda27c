/** The tags service over its keys in Redis: collecting jobs under watched tags and letting a tag go. */
module TagsService {
  import opened Lists
  import opened Options
  import opened JobRefs
  import opened Tags

  datatype Snapshot = Snapshot(name: string, state: string, tags: seq<string>)

  datatype TagIndex = Jobs | Failures

  /** A missing key reads as an empty list. */
  function ListAt(lists: map<string, seq<string>>, tag: string): seq<string> {
    if tag in lists then lists[tag] else []
  }

  function SnapshotKey(prefix: string, entry: string, index: TagIndex): string {
    prefix + (if index == Failures then ":failed-tagged:" else ":tagged:") + entry
  }

  /** Keys of one index are told apart by the entry, and the two indexes never share a key. */
  lemma SnapshotKeysDiffer(prefix: string, a: string, i: TagIndex, b: string, j: TagIndex)
    ensures SnapshotKey(prefix, a, i) == SnapshotKey(prefix, b, j) <==> a == b && i == j
  {
    var n := |prefix|;
    var left, right := SnapshotKey(prefix, a, i), SnapshotKey(prefix, b, j);
    if i == j {
      var kind := if i == Failures then ":failed-tagged:" else ":tagged:";
      assert left[n + |kind|..] == a && right[n + |kind|..] == b;
    } else {
      assert left[n + 1] == (if i == Failures then 'f' else 't');
      assert right[n + 1] == (if j == Failures then 'f' else 't');
    }
  }

  /** An entry survives being parsed and put together again exactly when it has a colon. */
  lemma RejoinEntry(entry: string)
    ensures Encode(Parse(entry)) == entry <==> ':' in entry
  {
    var k := ColonAt(entry);
    if k < |entry| {
      assert entry == entry[..k] + [':'] + entry[k + 1..];
    } else {
      assert |Encode(Parse(entry))| > |entry|;
    }
  }

  /** Pushing an entry that already heads a capped list changes nothing. */
  lemma PushTwice(list: seq<string>, entry: string)
    ensures PushCapped(PushCapped(list, entry), entry) == PushCapped(list, entry)
  {
    var once := PushCapped(list, entry);
    LremMembers(list, entry);
    assert once == [entry] + once[1..];
    assert forall k :: 0 <= k < |once[1..]|
            ==> once[1..][k] == Lrem(list, entry)[k] && Lrem(list, entry)[k] in Lrem(list, entry);
    LremAbsent(once[1..], entry);
  }

  /** Every tag named has the entry pushed once, and no other list changes. */
  ghost predicate Pushed(lists: map<string, seq<string>>, r: map<string, seq<string>>, tags: seq<string>,
                         entry: string)
  {
    forall tag :: ListAt(r, tag) == if tag in tags then PushCapped(ListAt(lists, tag), entry) else ListAt(lists, tag)
  }

  lemma PushedNext(lists: map<string, seq<string>>, r: map<string, seq<string>>, tags: seq<string>, i: nat,
                   entry: string)
    requires i < |tags| && Pushed(lists, r, tags[..i], entry)
    ensures Pushed(lists, r[tags[i] := PushCapped(ListAt(r, tags[i]), entry)], tags[..i + 1], entry)
  {
    PushTwice(ListAt(lists, tags[i]), entry);
    assert tags[..i + 1] == tags[..i] + [tags[i]];
  }

  lemma PushMembers(list: seq<string>, entry: string)
    ensures forall other :: other in PushCapped(list, entry) ==> other == entry || other in list
  {
    LremMembers(list, entry);
  }

  class TagsService {
    const prefix: string
    var lists: map<string, seq<string>>
    var failedLists: map<string, seq<string>>
    var monitored: set<string>
    var snapshots: map<string, Snapshot>

    /** Every entry was written by `Push`, so it has a colon. */
    ghost predicate Valid()
      reads this
    {
      && (forall tag, entry :: tag in lists && entry in lists[tag] ==> ':' in entry)
      && (forall tag, entry :: tag in failedLists && entry in failedLists[tag] ==> ':' in entry)
    }

    constructor (prefix: string)
      ensures this.prefix == prefix && Valid()
      ensures lists == map[] && failedLists == map[] && monitored == {} && snapshots == map[]
    {
      this.prefix := prefix;
      lists, failedLists, monitored, snapshots := map[], map[], {}, map[];
    }

    method Monitor(tag: string)
      modifies this`monitored
      ensures monitored == old(monitored) + {tag}
    {
      monitored := monitored + {tag};
    }

    /** Records a job under each of its tags that is being monitored. */
    method Index(ref: JobRef, tags: seq<string>, snapshot: Option<Snapshot>)
      requires Valid()
      modifies this`lists, this`snapshots
      ensures Valid()
      ensures forall tag :: ListAt(lists, tag) ==
                if tag in tags && tag in monitored then PushCapped(ListAt(old(lists), tag), Encode(ref))
                    else ListAt(old(lists), tag)
      ensures snapshots == if snapshot.Some? && exists tag :: tag in tags && tag in monitored
                           then old(snapshots)[SnapshotKey(prefix, Encode(ref), Jobs) := snapshot.value]
                           else old(snapshots)
    {
      var watched := [];
      for i := 0 to |tags|
        invariant forall tag :: tag in watched <==> tag in tags[..i] && tag in monitored
      {
        if tags[i] in monitored {
          watched := watched + [tags[i]];
        }
      }
      assert tags[..|tags|] == tags;
      lists := Push(lists, ref, watched);
      if watched != [] && snapshot.Some? {
        assert watched[0] in tags && watched[0] in monitored;
        snapshots := snapshots[SnapshotKey(prefix, Encode(ref), Jobs) := snapshot.value];
      }
    }

    /** Records a failed job under all of its tags, monitored or not. */
    method IndexFailure(ref: JobRef, tags: seq<string>, snapshot: Option<Snapshot>)
      requires Valid()
      modifies this`failedLists, this`snapshots
      ensures Valid()
      ensures forall tag :: ListAt(failedLists, tag) ==
                if tag in tags then PushCapped(ListAt(old(failedLists), tag), Encode(ref))
                    else ListAt(old(failedLists), tag)
      ensures snapshots == if snapshot.Some? && tags != []
                           then old(snapshots)[SnapshotKey(prefix, Encode(ref), Failures) := snapshot.value]
                           else old(snapshots)
    {
      failedLists := Push(failedLists, ref, tags);
      if tags != [] && snapshot.Some? {
        snapshots := snapshots[SnapshotKey(prefix, Encode(ref), Failures) := snapshot.value];
      }
    }

    /** The pipeline of `push`: for each tag LREM, LPUSH, LTRIM. */
    static method Push(lists: map<string, seq<string>>, ref: JobRef, tags: seq<string>)
        returns (r: map<string, seq<string>>)
      requires forall tag, entry :: tag in lists && entry in lists[tag] ==> ':' in entry
      ensures Pushed(lists, r, tags, Encode(ref))
      ensures forall tag, entry :: tag in r && entry in r[tag] ==> ':' in entry
    {
      r := lists;
      var entry := Encode(ref);
      assert entry[|ref.queue|] == ':';
      for i := 0 to |tags|
        invariant Pushed(lists, r, tags[..i], entry)
        invariant forall tag, other :: tag in r && other in r[tag] ==> ':' in other
      {
        var list := ListAt(r, tags[i]);
        PushMembers(list, entry);
        PushedNext(lists, r, tags, i, entry);
        r := r[tags[i] := Ltrim([entry] + Lrem(list, entry), TAG_HISTORY)];
      }
      assert tags[..|tags|] == tags;
    }

    /** Whether a tag still watched lists the entry. */
    ghost predicate Held(entry: string, others: set<string>, lists: map<string, seq<string>>) {
      exists tag :: tag in others && entry in ListAt(lists, tag)
    }

    /** Stops watching a tag and drops the jobs collected under it. The copy of a job goes exactly when
      * the dropped tag listed the job and no tag still monitored does; no other copy is touched.
      */
    method StopMonitoring(tag: string)
      requires Valid()
      modifies this
      ensures Valid()
      ensures monitored == old(monitored) - {tag} && failedLists == old(failedLists)
      ensures forall other :: ListAt(lists, other) == if other == tag then [] else ListAt(old(lists), other)
      ensures forall key :: key in snapshots ==> key in old(snapshots) && snapshots[key] == old(snapshots)[key]
      ensures forall key :: key in old(snapshots) && key !in snapshots ==>
                exists entry :: key == SnapshotKey(prefix, entry, Jobs)
      ensures forall entry :: SnapshotKey(prefix, entry, Jobs) in old(snapshots) ==>
                (SnapshotKey(prefix, entry, Jobs) !in snapshots
                 <==> entry in ListAt(old(lists), tag) && !Held(entry, monitored, lists))
    {
      var entries := ListAt(lists, tag);
      monitored := monitored - {tag};
      lists := lists - {tag};
      if entries == [] {
        return;
      }
      var held := CollectHeld();
      var orphaned := Orphaned(entries, held);
      ghost var before := snapshots;
      DropCopies(orphaned);
      forall entry | SnapshotKey(prefix, entry, Jobs) in before
        ensures SnapshotKey(prefix, entry, Jobs) !in snapshots <==> entry in entries && !Held(entry, monitored, lists)
      {
        forall other | other in orphaned
          ensures SnapshotKey(prefix, other, Jobs) == SnapshotKey(prefix, entry, Jobs) <==> other == entry
        {
          SnapshotKeysDiffer(prefix, other, Jobs, entry, Jobs);
        }
      }
    }

    /** The jobs the tags still monitored list, parsed and put together again. */
    method CollectHeld() returns (held: set<string>)
      requires Valid()
      ensures forall entry :: entry in held <==> Held(entry, monitored, lists)
    {
      held := {};
      var todo := monitored;
      while todo != {}
        invariant todo <= monitored
        invariant forall entry :: entry in held <==> Held(entry, monitored - todo, lists)
        decreases todo
      {
        var other :| other in todo;
        var rows := ListAt(lists, other);
        ghost var earlier := held;
        for i := 0 to |rows|
          invariant forall entry :: entry in held <==> entry in earlier || entry in rows[..i]
        {
          assert rows[i] in rows;
          RejoinEntry(rows[i]);
          assert rows[..i + 1] == rows[..i] + [rows[i]];
          held := held + {Encode(Parse(rows[i]))};
        }
        assert rows[..|rows|] == rows;
        ghost var done := monitored - todo;
        todo := todo - {other};
        assert monitored - todo == done + {other};
      }
      assert monitored - todo == monitored;
    }

    /** The entries of the dropped tag that nothing else holds. */
    method Orphaned(entries: seq<string>, held: set<string>) returns (orphaned: seq<string>)
      requires forall entry :: entry in entries ==> ':' in entry
      ensures forall entry :: entry in orphaned <==> entry in entries && entry !in held
    {
      orphaned := [];
      for i := 0 to |entries|
        invariant forall entry :: entry in orphaned <==> entry in entries[..i] && entry !in held
      {
        RejoinEntry(entries[i]);
        assert entries[..i + 1] == entries[..i] + [entries[i]];
        var rejoined := Encode(Parse(entries[i]));
        if rejoined !in held {
          orphaned := orphaned + [rejoined];
        }
      }
      assert entries[..|entries|] == entries;
    }

    method DropCopies(orphaned: seq<string>)
      modifies this`snapshots
      ensures forall key :: key in snapshots <==>
                && key in old(snapshots)
                && forall k :: 0 <= k < |orphaned| ==> key != SnapshotKey(prefix, orphaned[k], Jobs)
      ensures forall key :: key in snapshots ==> snapshots[key] == old(snapshots)[key]
    {
      for i := 0 to |orphaned|
        invariant forall key :: key in snapshots <==>
                    key in old(snapshots) && forall k :: 0 <= k < i ==> key != SnapshotKey(prefix, orphaned[k], Jobs)
        invariant forall key :: key in snapshots ==> snapshots[key] == old(snapshots)[key]
      {
        snapshots := snapshots - {SnapshotKey(prefix, orphaned[i], Jobs)};
      }
    }
  }
}
