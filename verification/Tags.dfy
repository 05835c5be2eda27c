/** The tag index: one capped move-to-front list a tag, and a snapshot a job. */
module Tags {
  import opened Lists
  import opened JobRefs

  /** Jobs kept per tag. Older ones fall off the end. */
  const TAG_HISTORY: nat := 1000

  // ----- One list -----

  function Ltrim(list: seq<string>, keep: nat): seq<string> {
    if |list| <= keep then list else list[..keep]
  }

  /** LREM, LPUSH: a job indexed again moves to the front instead of doubling. */
  function MoveToFront(list: seq<string>, entry: string): seq<string> { [entry] + Lrem(list, entry) }

  /** One pipeline of `push`, taken as one step. */
  function PushCapped(list: seq<string>, entry: string): seq<string> { Ltrim(MoveToFront(list, entry), TAG_HISTORY) }

  /** The list after a sequence of pushes, trimmed after each of them. */
  function Capped(pushes: seq<string>): seq<string> {
    if pushes == [] then [] else PushCapped(Capped(pushes[..|pushes| - 1]), pushes[|pushes| - 1])
  }

  /** The same pushes on a list that is never trimmed. */
  function Uncapped(pushes: seq<string>): seq<string> {
    if pushes == [] then [] else MoveToFront(Uncapped(pushes[..|pushes| - 1]), pushes[|pushes| - 1])
  }

  lemma MoveToFrontDistinct(list: seq<string>, entry: string)
    requires Distinct(list)
    ensures Distinct(MoveToFront(list, entry))
  {
    KeepDistinct(list, OtherThan(entry));
    LremMembers(list, entry);
    DistinctCons(entry, Lrem(list, entry));
  }

  lemma LtrimCons(first: string, rest: seq<string>, keep: nat)
    requires keep > 0
    ensures Ltrim([first] + rest, keep) == [first] + Ltrim(rest, keep - 1)
  {
  }

  /** Without repeats, trimming before removing an entry loses nothing that trimming after would keep. */
  lemma {:induction false} LremTrimmed(list: seq<string>, entry: string, keep: nat)
    requires Distinct(list)
    ensures Ltrim(Lrem(Ltrim(list, keep + 1), entry), keep) == Ltrim(Lrem(list, entry), keep)
  {
    if list != [] && |list| > keep + 1 {
      var rest, cut := list[1..], list[..keep + 1];
      assert cut[1..] == rest[..keep];
      DistinctRest(list);
      LremFirst(list, entry);
      LremFirst(cut, entry);
      if list[0] == entry {
        LremAbsent(rest, entry);
        LremAbsent(rest[..keep], entry);
      } else if keep > 0 {
        LremTrimmed(rest, entry, keep - 1);
        LtrimCons(list[0], Lrem(rest[..keep], entry), keep);
        LtrimCons(list[0], Lrem(rest, entry), keep);
      }
    }
  }

  /** Capping after every push loses nothing compared with trimming once: the capped list is the first
    * thousand of the uncapped move-to-front list of the same pushes, and no job is in it twice.
    */
  lemma {:induction false} CappedIsFirstOfUncapped(pushes: seq<string>)
    ensures Capped(pushes) == if |Uncapped(pushes)| <= 1000 then Uncapped(pushes) else Uncapped(pushes)[..1000]
    ensures Distinct(Uncapped(pushes)) && Distinct(Capped(pushes))
  {
    if pushes != [] {
      var n := |pushes| - 1;
      var earlier, entry := pushes[..n], pushes[n];
      CappedIsFirstOfUncapped(earlier);
      var full := Uncapped(earlier);
      MoveToFrontDistinct(full, entry);
      LremTrimmed(full, entry, TAG_HISTORY - 1);
      LtrimCons(entry, Lrem(Ltrim(full, TAG_HISTORY), entry), TAG_HISTORY);
      LtrimCons(entry, Lrem(full, entry), TAG_HISTORY);
    }
  }

  /** Position of an entry's last push, counted so that later is larger; zero if it was never pushed. */
  function LastPush(pushes: seq<string>, entry: string): nat {
    if pushes == [] then 0
    else if pushes[|pushes| - 1] == entry then |pushes|
    else LastPush(pushes[..|pushes| - 1], entry)
  }

  lemma {:induction false} LremOrder(list: seq<string>, entry: string, i: nat, j: nat) returns (i': nat, j': nat)
    requires i < j < |Lrem(list, entry)|
    ensures i' < j' < |list| && list[i'] == Lrem(list, entry)[i] && list[j'] == Lrem(list, entry)[j]
  {
    if list[0] == entry {
      var a, b := LremOrder(list[1..], entry, i, j);
      i', j' := a + 1, b + 1;
    } else if i == 0 {
      LremMembers(list[1..], entry);
      assert Lrem(list, entry)[j] == Lrem(list[1..], entry)[j - 1];
      var rest := list[1..];
      assert Lrem(list, entry)[j] in rest;
      var k :| 0 <= k < |rest| && rest[k] == Lrem(list, entry)[j];
      i', j' := 0, k + 1;
    } else {
      var a, b := LremOrder(list[1..], entry, i - 1, j - 1);
      i', j' := a + 1, b + 1;
    }
  }

  /** Newest first: the uncapped list holds exactly the entries pushed, by their last push. */
  lemma {:induction false} UncappedNewestFirst(pushes: seq<string>, i: nat, j: nat)
    requires i < j < |Uncapped(pushes)|
    ensures LastPush(pushes, Uncapped(pushes)[j]) < LastPush(pushes, Uncapped(pushes)[i])
  {
    var n := |pushes| - 1;
    var earlier, entry := pushes[..n], pushes[n];
    var list := Uncapped(pushes);
    CappedIsFirstOfUncapped(pushes);
    LastPushBound(earlier, list[j]);
    assert list[j] != list[0];
    if i > 0 {
      var a, b := LremOrder(Uncapped(earlier), entry, i - 1, j - 1);
      UncappedNewestFirst(earlier, a, b);
      assert list[i] != list[0];
    }
  }

  lemma {:induction false} LastPushBound(pushes: seq<string>, entry: string)
    ensures LastPush(pushes, entry) <= |pushes|
  {
    if pushes != [] {
      LastPushBound(pushes[..|pushes| - 1], entry);
    }
  }

  lemma {:induction false} UncappedMembers(pushes: seq<string>, entry: string)
    ensures entry in Uncapped(pushes) <==> entry in pushes
  {
    if pushes != [] {
      var n := |pushes| - 1;
      UncappedMembers(pushes[..n], entry);
      LremMembers(Uncapped(pushes[..n]), pushes[n]);
      assert pushes == pushes[..n] + [pushes[n]];
    }
  }
}
