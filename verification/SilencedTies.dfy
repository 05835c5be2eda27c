/** Entries with equal scores: the sorted sets return them by reverse order of the member. */
module SilencedTies {
  import JobRefs
  import opened Silenced
  import opened SilencedRuns

  /** `a` is a proper beginning of `b`, or the first character they differ in is the smaller one. */
  ghost predicate Before(a: string, b: string) { exists k: nat :: FirstDiffers(a, b, k) }

  ghost predicate FirstDiffers(a: string, b: string, k: nat) {
    && k <= |a| && k < |b| && a[..k] == b[..k]
    && (k == |a| || a[k] < b[k])
  }

  lemma {:induction false} LexMeans(a: string, b: string)
    ensures LexBefore(a, b) <==> Before(a, b)
  {
    if b == [] {
    } else if a == [] {
      assert FirstDiffers(a, b, 0);
    } else {
      LexMeans(a[1..], b[1..]);
      if a[0] < b[0] {
        assert FirstDiffers(a, b, 0);
      }
      if k: nat :| a[0] == b[0] && FirstDiffers(a[1..], b[1..], k) {
        assert a == [a[0]] + a[1..] && b == [b[0]] + b[1..];
        assert FirstDiffers(a, b, k + 1);
      }
      if k: nat :| FirstDiffers(a, b, k) {
        if k > 0 {
          assert a[..k][0] == b[..k][0];
          assert a[1..][..k - 1] == a[..k][1..] && b[1..][..k - 1] == b[..k][1..];
          assert FirstDiffers(a[1..], b[1..], k - 1);
        }
      }
    }
  }

  lemma {:induction false} LexTotal(a: string, b: string)
    requires a != b
    ensures LexBefore(a, b) || LexBefore(b, a)
  {
    if a != [] && b != [] {
      if a[0] == b[0] {
        assert a == [a[0]] + a[1..] && b == [b[0]] + b[1..];
        LexTotal(a[1..], b[1..]);
      }
    }
  }

  lemma {:induction false} LexTransitive(a: string, b: string, c: string)
    requires LexBefore(a, b) && LexBefore(b, c)
    ensures LexBefore(a, c)
  {
    if a != [] && a[0] == b[0] && b[0] == c[0] {
      LexTransitive(a[1..], b[1..], c[1..]);
    }
  }

  ghost predicate Tied(z: seq<Entry>) {
    z != [] ==> Tied(z[1..]) && forall e :: e in z[1..] && e.at == z[0].at ==> LexBefore(e.jobId, z[0].jobId)
  }

  lemma TiedCons(e: Entry, z: seq<Entry>)
    requires Tied(z) && forall other :: other in z && other.at == e.at ==> LexBefore(other.jobId, e.jobId)
    ensures Tied([e] + z)
  {
    assert ([e] + z)[1..] == z;
  }

  lemma {:induction false} TiedOrder(z: seq<Entry>, i: nat, j: nat)
    requires Tied(z) && i < j < |z| && z[i].at == z[j].at
    ensures LexBefore(z[j].jobId, z[i].jobId)
  {
    if i > 0 {
      TiedOrder(z[1..], i - 1, j - 1);
    } else {
      assert z[j] == z[1..][j - 1];
    }
  }

  lemma {:induction false} ZRemTied(z: seq<Entry>, id: string)
    requires ZSet(z) && Tied(z)
    ensures Tied(ZRem(z, id))
  {
    if z != [] {
      ZRemTied(z[1..], id);
      ZRemIs(z[1..], id);
      if z[0].jobId != id {
        TiedCons(z[0], ZRem(z[1..], id));
      } else {
        assert ZRem(z, id) == ZRem(z[1..], id);
      }
    }
  }

  lemma {:induction false} ZRemRangeTied(z: seq<Entry>, low: int, high: int)
    requires ZSet(z) && Tied(z)
    ensures Tied(ZRemRange(z, low, high))
  {
    if z != [] {
      ZRemRangeTied(z[1..], low, high);
      ZRemRangeIs(z[1..], low, high);
      if low <= z[0].at <= high {
        assert ZRemRange(z, low, high) == ZRemRange(z[1..], low, high);
      } else {
        TiedCons(z[0], ZRemRange(z[1..], low, high));
      }
    }
  }

  lemma InsertedFirst(z: seq<Entry>, e: Entry)
    requires z != [] && ZSet(z) && Tied(z) && z[0].at == e.at && LexBefore(z[0].jobId, e.jobId)
    ensures Tied([e] + z)
  {
    forall other | other in z && other.at == e.at ensures LexBefore(other.jobId, e.jobId) {
      if other != z[0] {
        assert other in z[1..];
        LexTransitive(other.jobId, z[0].jobId, e.jobId);
      }
    }
    TiedCons(e, z);
  }

  lemma {:induction false} ZInsertTied(z: seq<Entry>, e: Entry)
    requires ZSet(z) && Tied(z) && forall other :: other in z ==> other.jobId != e.jobId
    ensures Tied(ZInsert(z, e))
  {
    if z == [] {
      TiedCons(e, z);
    } else if z[0].at < e.at {
      assert forall other :: other in z ==> other == z[0] || other in z[1..];
      TiedCons(e, z);
    } else if z[0].at == e.at && LexBefore(z[0].jobId, e.jobId) {
      InsertedFirst(z, e);
    } else {
      assert forall other :: other in z[1..] ==> other in z;
      assert z[0] in z;
      ZInsertTied(z[1..], e);
      ZInsertIs(z[1..], e);
      LexTotal(z[0].jobId, e.jobId);
      TiedCons(z[0], ZInsert(z[1..], e));
    }
  }

  ghost predicate AllTied(index: Index) {
    ValidIndex(index) && forall queue :: queue in index ==> Tied(index[queue])
  }

  lemma TiedAfter(ttl: nat, index: Index, op: Op)
    requires AllTied(index)
    ensures AllTied(After(ttl, index, op))
  {
    HoldsAfter(ttl, index, op, JobRefs.JobRef("", ""), 0);
    match op
    case Recorded(queue, id, at) =>
      var z := EntriesAt(index, queue);
      ZRemTied(z, id);
      ZRemIs(z, id);
      ZInsertTied(ZRem(z, id), Entry(id, at));
    case Forgot(queue, id) => ZRemTied(EntriesAt(index, queue), id);
    case TrimmedAt(now) =>
      forall queue | queue in index ensures Tied(ZRemRange(index[queue], 0, FloorAt(now, ttl))) {
        ZRemRangeTied(index[queue], 0, FloorAt(now, ttl));
      }
    case Cleared(_) =>
  }

  lemma {:induction false} RunsTied(ttl: nat, ops: seq<Op>)
    ensures AllTied(Exec(ttl, ops))
  {
    if ops != [] {
      RunsTied(ttl, ops[..|ops| - 1]);
      TiedAfter(ttl, Exec(ttl, ops[..|ops| - 1]), ops[|ops| - 1]);
    }
  }

  /** Whatever was recorded, forgotten, cleared or trimmed, and in whatever order: a queue's index names each job
    * once, the newest first, and of jobs with the same score the one whose id sorts last.
    */
  lemma IndexOrder(ttl: nat, ops: seq<Op>, queue: string, i: nat, j: nat)
    requires queue in Exec(ttl, ops) && i < j < |Exec(ttl, ops)[queue]|
    ensures var z := Exec(ttl, ops)[queue];
            && z[i].jobId != z[j].jobId
            && (z[i].at > z[j].at || (z[i].at == z[j].at && Before(z[j].jobId, z[i].jobId)))
  {
    RunsTied(ttl, ops);
    var z := Exec(ttl, ops)[queue];
    ZSetOrdered(z, i, j);
    if z[i].at == z[j].at {
      TiedOrder(z, i, j);
      LexMeans(z[j].jobId, z[i].jobId);
    }
  }
}
