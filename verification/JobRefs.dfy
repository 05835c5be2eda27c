/** The `queue:jobId` strings that name a job in the indexes. */
module JobRefs {

  datatype JobRef = JobRef(queue: string, jobId: string)

  function Encode(ref: JobRef): string { ref.queue + ":" + ref.jobId }

  /** `entry.indexOf(':')`, with -1 written out as the length of a slice. */
  function ColonAt(entry: string): (k: nat)
    ensures k <= |entry|
    ensures k < |entry| ==> entry[k] == ':'
    ensures forall i :: 0 <= i < k ==> entry[i] != ':'
  {
    if entry == [] || entry[0] == ':' then 0 else 1 + ColonAt(entry[1..])
  }

  /** Splits at the first colon. Without one `slice(0, -1)` drops the last character. */
  function Parse(entry: string): JobRef {
    var k := ColonAt(entry);
    if k < |entry| then JobRef(entry[..k], entry[k + 1..])
    else JobRef(if entry == [] then [] else entry[..|entry| - 1], entry)
  }

  /** Parsing undoes encoding for every job id exactly when the queue name has no colon. */
  lemma ParseUndoesEncode(ref: JobRef)
    ensures Parse(Encode(ref)) == ref <==> ':' !in ref.queue
  {
    var entry := Encode(ref);
    var k := ColonAt(entry);
    assert entry[|ref.queue|] == ':';
    assert forall i :: 0 <= i < |ref.queue| ==> entry[i] == ref.queue[i];
    if ':' !in ref.queue {
      assert k == |ref.queue|;
      assert entry[..k] == ref.queue && entry[k + 1..] == ref.jobId;
    } else {
      assert k < |ref.queue|;
      assert |Parse(entry).queue| == k;
    }
  }

  /** Encoding tells apart any two jobs on queues without a colon in their name. */
  lemma EncodeInjective(a: JobRef, b: JobRef)
    requires ':' !in a.queue && ':' !in b.queue && Encode(a) == Encode(b)
    ensures a == b
  {
    ParseUndoesEncode(a);
    ParseUndoesEncode(b);
  }
}
