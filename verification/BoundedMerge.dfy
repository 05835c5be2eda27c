/** Paging over several newest-first sources while reading only a prefix of each.
  *
  * `at` is the sort key. The stable sort is defined here by insertion; `StableIsUnique` shows that any
  * sort that orders by the key and keeps the order of equal rows gives the same list.
  */
module BoundedMerge {
  import opened Lists

  ghost predicate Ordered<T(!new)>(at: T -> int, rows: seq<T>) {
    forall i, j :: 0 <= i < j < |rows| ==> at(rows[i]) >= at(rows[j])
  }

  function Insert<T>(at: T -> int, row: T, rows: seq<T>): seq<T> {
    if rows == [] || at(row) >= at(rows[0]) then [row] + rows
    else [rows[0]] + Insert(at, row, rows[1..])
  }

  /** `rows.sort((a, b) => at(b) - at(a))`, which is stable. */
  function Sorted<T>(at: T -> int, rows: seq<T>): seq<T> {
    if rows == [] then [] else Insert(at, rows[0], Sorted(at, rows[1..]))
  }

  /** What a read of at most `k` rows returns. */
  function Prefix<T>(k: nat, rows: seq<T>): seq<T> {
    if |rows| <= k then rows else rows[..k]
  }

  /** A source and how many of its rows a request reads. */
  datatype Source<T> = Source(rows: seq<T>, limit: nat)

  function Whole<T>(sources: seq<Source<T>>): seq<T> {
    if sources == [] then [] else sources[0].rows + Whole(sources[1..])
  }

  /** The rows read, source after source. */
  function Collected<T>(sources: seq<Source<T>>): seq<T> {
    if sources == [] then [] else Prefix(sources[0].limit, sources[0].rows) + Collected(sources[1..])
  }

  /** `rows.slice(page * perPage, (page + 1) * perPage)` */
  function Page<T>(rows: seq<T>, page: nat, perPage: nat): (r: seq<T>)
    ensures |r| <= perPage && |r| <= |rows|
  {
    var from := page * perPage;
    if |rows| <= from then [] else Prefix(perPage, rows[from..])
  }

  // ----- The sort orders, loses nothing and keeps ties in place -----

  /** The rows with key `key`, in the order they come. */
  function AtKey<T>(at: T -> int, rows: seq<T>, key: int): seq<T> {
    if rows == [] then [] else (if at(rows[0]) == key then [rows[0]] else []) + AtKey(at, rows[1..], key)
  }

  lemma {:induction false} InsertMembers<T(!new)>(at: T -> int, row: T, rows: seq<T>)
    ensures forall other :: other in Insert(at, row, rows) <==> other == row || other in rows
    ensures |Insert(at, row, rows)| == |rows| + 1
  {
    if rows != [] && at(row) < at(rows[0]) {
      InsertMembers(at, row, rows[1..]);
      assert rows == [rows[0]] + rows[1..];
    }
  }

  lemma {:induction false} InsertOrdered<T(!new)>(at: T -> int, row: T, rows: seq<T>)
    requires Ordered(at, rows)
    ensures Ordered(at, Insert(at, row, rows))
  {
    if rows != [] && at(row) < at(rows[0]) {
      InsertOrdered(at, row, rows[1..]);
      InsertMembers(at, row, rows[1..]);
      var rest := Insert(at, row, rows[1..]);
      forall k | 0 <= k < |rest| ensures at(rows[0]) >= at(rest[k]) {
        assert rest[k] in rest;
        assert rest[k] != row ==> rest[k] in rows[1..];
      }
    }
  }

  lemma {:induction false} InsertAtKey<T(!new)>(at: T -> int, row: T, rows: seq<T>, key: int)
    ensures AtKey(at, Insert(at, row, rows), key) == (if at(row) == key then [row] else []) + AtKey(at, rows, key)
  {
    if rows == [] || at(row) >= at(rows[0]) {
      AtKeyFirst(at, row, rows, key);
    } else {
      var head, tail := rows[0], rows[1..];
      var rest := Insert(at, row, tail);
      InsertAtKey(at, row, tail, key);
      AtKeyFirst(at, head, rest, key);
      AtKeyFirst(at, head, tail, key);
      assert [head] + tail == rows && Insert(at, row, rows) == [head] + rest;
    }
  }

  lemma AtKeyFirst<T(!new)>(at: T -> int, row: T, rows: seq<T>, key: int)
    ensures at(row) == key ==> AtKey(at, [row] + rows, key) == [row] + AtKey(at, rows, key)
    ensures at(row) != key ==> AtKey(at, [row] + rows, key) == AtKey(at, rows, key)
  {
    assert ([row] + rows)[1..] == rows;
  }

  /** The sort is one: it orders by the key, keeps every row, and keeps rows of equal key in order. */
  lemma {:induction false} SortedIsStable<T(!new)>(at: T -> int, rows: seq<T>)
    ensures Ordered(at, Sorted(at, rows)) && |Sorted(at, rows)| == |rows|
    ensures forall key :: AtKey(at, Sorted(at, rows), key) == AtKey(at, rows, key)
    ensures forall row :: row in Sorted(at, rows) <==> row in rows
  {
    if rows != [] {
      var rest := Sorted(at, rows[1..]);
      SortedIsStable(at, rows[1..]);
      InsertOrdered(at, rows[0], rest);
      InsertMembers(at, rows[0], rest);
      forall key ensures AtKey(at, Sorted(at, rows), key) == AtKey(at, rows, key) {
        InsertAtKey(at, rows[0], rest, key);
      }
    }
  }

  lemma {:induction false} AtKeyNone<T(!new)>(at: T -> int, rows: seq<T>, key: int)
    requires forall row :: row in rows ==> at(row) != key
    ensures AtKey(at, rows, key) == []
  {
    if rows != [] {
      AtKeyNone(at, rows[1..], key);
    }
  }

  lemma {:induction false} AtKeySome<T(!new)>(at: T -> int, rows: seq<T>, row: T)
    requires row in rows
    ensures AtKey(at, rows, at(row)) != []
  {
    if rows[0] != row {
      AtKeySome(at, rows[1..], row);
    }
  }

  ghost predicate SameKeys<T(!new)>(at: T -> int, a: seq<T>, b: seq<T>) {
    forall key :: AtKey(at, a, key) == AtKey(at, b, key)
  }

  lemma SameKeysRest<T(!new)>(at: T -> int, a: seq<T>, b: seq<T>)
    requires a != [] && b != [] && a[0] == b[0] && SameKeys(at, a, b)
    ensures SameKeys(at, a[1..], b[1..])
  {
    forall key ensures AtKey(at, a[1..], key) == AtKey(at, b[1..], key) {
      var first := if at(a[0]) == key then [a[0]] else [];
      assert AtKey(at, a, key) == AtKey(at, b, key);
      assert AtKey(at, a[1..], key) == AtKey(at, a, key)[|first|..];
      assert AtKey(at, b[1..], key) == AtKey(at, b, key)[|first|..];
    }
  }

  lemma SameKeysEmpty<T(!new)>(at: T -> int, a: seq<T>, b: seq<T>)
    requires SameKeys(at, a, b)
    ensures a == [] <==> b == []
  {
    if a != [] {
      AtKeySome(at, a, a[0]);
      assert AtKey(at, b, at(a[0])) != [];
    }
    if b != [] {
      AtKeySome(at, b, b[0]);
      assert AtKey(at, a, at(b[0])) != [];
    }
  }

  /** Two ordered lists with the same rows at every key are the same list. */
  lemma {:induction false} StableIsUnique<T(!new)>(at: T -> int, a: seq<T>, b: seq<T>)
    requires Ordered(at, a) && Ordered(at, b) && SameKeys(at, a, b)
    ensures a == b
  {
    SameKeysEmpty(at, a, b);
    if a != [] {
      SameHead(at, a, b);
      SameKeysRest(at, a, b);
      StableIsUnique(at, a[1..], b[1..]);
      assert a == [a[0]] + a[1..] && b == [b[0]] + b[1..];
    }
  }

  lemma SameHead<T(!new)>(at: T -> int, a: seq<T>, b: seq<T>)
    requires a != [] && b != [] && Ordered(at, a) && Ordered(at, b) && SameKeys(at, a, b)
    ensures a[0] == b[0]
  {
    AtKeySome(at, a, a[0]);
    AtKeySome(at, b, b[0]);
    if at(a[0]) > at(b[0]) {
      AtKeyNone(at, b, at(a[0]));
    } else if at(b[0]) > at(a[0]) {
      AtKeyNone(at, a, at(b[0]));
    }
    assert AtKey(at, a, at(a[0]))[0] == a[0];
    assert AtKey(at, b, at(b[0]))[0] == b[0];
  }

  // ----- Merging two ordered lists -----

  function Merge<T>(at: T -> int, a: seq<T>, b: seq<T>): seq<T>
    decreases |a| + |b|
  {
    if a == [] then b
    else if b == [] || at(a[0]) >= at(b[0]) then [a[0]] + Merge(at, a[1..], b)
    else [b[0]] + Merge(at, a, b[1..])
  }

  lemma {:induction false} InsertMerges<T(!new)>(at: T -> int, row: T, a: seq<T>, b: seq<T>)
    requires Ordered(at, a) && Ordered(at, b)
    ensures Insert(at, row, Merge(at, a, b)) == Merge(at, Insert(at, row, a), b)
    decreases |a| + |b|
  {
    if a == [] {
      InsertIsMerge(at, row, b);
      assert Insert(at, row, a) == [row];
    } else if b == [] {
      MergeEmpty(at, a);
      MergeEmpty(at, Insert(at, row, a));
    } else if at(a[0]) >= at(b[0]) {
      var rest := Merge(at, a[1..], b);
      assert ([a[0]] + rest)[1..] == rest;
      if at(row) >= at(a[0]) {
        assert ([row] + a)[1..] == a;
      } else {
        InsertMerges(at, row, a[1..], b);
        assert Insert(at, row, a)[1..] == Insert(at, row, a[1..]);
      }
    } else {
      var rest := Merge(at, a, b[1..]);
      assert ([b[0]] + rest)[1..] == rest;
      if at(row) >= at(b[0]) {
        assert at(row) >= at(a[0]);
        assert ([row] + a)[1..] == a;
      } else {
        InsertMerges(at, row, a, b[1..]);
        assert at(Insert(at, row, a)[0]) < at(b[0]);
      }
    }
  }

  lemma {:induction false} MergeEmpty<T(!new)>(at: T -> int, a: seq<T>)
    ensures Merge(at, a, []) == a
  {
    if a != [] {
      MergeEmpty(at, a[1..]);
    }
  }

  lemma {:induction false} InsertIsMerge<T(!new)>(at: T -> int, row: T, b: seq<T>)
    ensures Merge(at, [row], b) == Insert(at, row, b)
  {
    if b != [] {
      if at(row) >= at(b[0]) {
        assert [row][1..] == [];
      } else {
        InsertIsMerge(at, row, b[1..]);
      }
    }
  }

  /** Sorting a concatenation merges the sorted parts, ties going to the first. */
  lemma {:induction false} SortedConcat<T(!new)>(at: T -> int, a: seq<T>, b: seq<T>)
    ensures Sorted(at, a + b) == Merge(at, Sorted(at, a), Sorted(at, b))
  {
    if a == [] {
      assert a + b == b;
    } else {
      assert (a + b)[1..] == a[1..] + b;
      SortedConcat(at, a[1..], b);
      SortedIsStable(at, a[1..]);
      SortedIsStable(at, b);
      InsertMerges(at, a[0], Sorted(at, a[1..]), Sorted(at, b));
    }
  }

  lemma {:induction false} SortedFixed<T(!new)>(at: T -> int, rows: seq<T>)
    requires Ordered(at, rows)
    ensures Sorted(at, rows) == rows
  {
    if rows != [] {
      SortedFixed(at, rows[1..]);
    }
  }

  // ----- A prefix of the merge needs only a prefix of each part -----

  lemma PrefixAgree<T(!new)>(k: nat, a: seq<T>, b: seq<T>)
    requires k > 0 && Prefix(k, a) == Prefix(k, b)
    ensures Prefix(k - 1, a) == Prefix(k - 1, b)
    ensures a == [] <==> b == []
    ensures a != [] ==> a[0] == b[0] && Prefix(k - 1, a[1..]) == Prefix(k - 1, b[1..])
  {
    assert Prefix(k - 1, a) == Prefix(k - 1, Prefix(k, a));
    assert Prefix(k - 1, b) == Prefix(k - 1, Prefix(k, b));
    if a != [] && b != [] {
      assert a[0] == Prefix(k, a)[0] && b[0] == Prefix(k, b)[0];
      assert Prefix(k - 1, a[1..]) == Prefix(k, a)[1..];
      assert Prefix(k - 1, b[1..]) == Prefix(k, b)[1..];
    }
  }

  lemma PrefixCons<T(!new)>(k: nat, row: T, a: seq<T>, b: seq<T>)
    requires k > 0 && Prefix(k - 1, a) == Prefix(k - 1, b)
    ensures Prefix(k, [row] + a) == Prefix(k, [row] + b)
  {
    assert Prefix(k, [row] + a) == [row] + Prefix(k - 1, a);
    assert Prefix(k, [row] + b) == [row] + Prefix(k - 1, b);
  }

  lemma {:induction false} MergeAgrees<T(!new)>(at: T -> int, a: seq<T>, b: seq<T>, a': seq<T>, b': seq<T>, k: nat)
    requires Prefix(k, a) == Prefix(k, a') && Prefix(k, b) == Prefix(k, b')
    ensures Prefix(k, Merge(at, a, b)) == Prefix(k, Merge(at, a', b'))
    decreases k
  {
    if k > 0 {
      PrefixAgree(k, a, a');
      PrefixAgree(k, b, b');
      if a == [] {
      } else if b == [] || at(a[0]) >= at(b[0]) {
        MergeAgrees(at, a[1..], b, a'[1..], b', k - 1);
        PrefixCons(k, a[0], Merge(at, a[1..], b), Merge(at, a'[1..], b'));
      } else {
        MergeAgrees(at, a, b[1..], a', b'[1..], k - 1);
        PrefixCons(k, b[0], Merge(at, a, b[1..]), Merge(at, a', b'[1..]));
      }
    }
  }

  /** What is read of a source tells its first `m` rows in the order of the key. */
  ghost predicate Tells<T(!new)>(at: T -> int, m: nat, source: Source<T>) {
    Prefix(m, Sorted(at, Prefix(source.limit, source.rows))) == Prefix(m, Sorted(at, source.rows))
  }

  /** It does if the source comes in the order of the key, and if it is read whole. */
  lemma OrderedTells<T(!new)>(at: T -> int, m: nat, source: Source<T>)
    requires |source.rows| <= source.limit || (m <= source.limit && Ordered(at, source.rows))
    ensures Tells(at, m, source)
  {
    if |source.rows| > source.limit {
      SortedFixed(at, source.rows);
      SortedFixed(at, source.rows[..source.limit]);
    }
  }

  /** The first `m` rows of the bounded merge are those of the full merge. */
  lemma {:induction false} BoundedIsFull<T(!new)>(at: T -> int, m: nat, sources: seq<Source<T>>)
    requires forall i :: 0 <= i < |sources| ==> Tells(at, m, sources[i])
    ensures Prefix(m, Sorted(at, Collected(sources))) == Prefix(m, Sorted(at, Whole(sources)))
  {
    if sources != [] {
      var head, rest := sources[0], sources[1..];
      var cut := Prefix(head.limit, head.rows);
      BoundedIsFull(at, m, rest);
      SortedConcat(at, head.rows, Whole(rest));
      SortedConcat(at, cut, Collected(rest));
      assert Tells(at, m, head);
      MergeAgrees(at, Sorted(at, head.rows), Sorted(at, Whole(rest)), Sorted(at, cut), Sorted(at, Collected(rest)), m);
    }
  }

  // ----- Pages -----

  lemma PagePrefix<T(!new)>(rows: seq<T>, page: nat, perPage: nat, m: nat)
    requires (page + 1) * perPage <= m
    ensures Page(rows, page, perPage) == Page(Prefix(m, rows), page, perPage)
  {
    var from := page * perPage;
    assert from + perPage == (page + 1) * perPage;
    if |rows| > m {
      assert Prefix(m, rows)[from..] == rows[from..m];
      assert Prefix(perPage, rows[from..]) == rows[from..from + perPage];
      assert Prefix(perPage, rows[from..m]) == rows[from..from + perPage];
    }
  }

  /** Any page that ends within the read window is the page of the full merge. */
  lemma PageIsFull<T(!new)>(at: T -> int, sources: seq<Source<T>>, page: nat, perPage: nat)
    requires forall i :: 0 <= i < |sources| ==> Tells(at, (page + 1) * perPage, sources[i])
    ensures Page(Sorted(at, Collected(sources)), page, perPage) == Page(Sorted(at, Whole(sources)), page, perPage)
  {
    var m := (page + 1) * perPage;
    BoundedIsFull(at, m, sources);
    PagePrefix(Sorted(at, Collected(sources)), page, perPage, m);
    PagePrefix(Sorted(at, Whole(sources)), page, perPage, m);
  }

  /** The pages a reader returns, one after another. */
  function InTurn<T>(page: nat -> seq<T>, count: nat): seq<T> {
    if count == 0 then [] else InTurn(page, count - 1) + page(count - 1)
  }

  function PageAt<T>(rows: seq<T>, perPage: nat): nat -> seq<T> { (page: nat) => Page(rows, page, perPage) }

  lemma PageExtends<T>(rows: seq<T>, page: nat, perPage: nat)
    ensures Prefix(page * perPage, rows) + Page(rows, page, perPage) == Prefix((page + 1) * perPage, rows)
  {
    var from := page * perPage;
    assert (page + 1) * perPage == from + perPage;
    if |rows| > from + perPage {
      assert rows[..from + perPage] == rows[..from] + rows[from..][..perPage];
    }
  }

  /** Consecutive pages put together are the list itself: no row is skipped and none is repeated. */
  lemma {:induction false} PagesConcatenate<T>(rows: seq<T>, count: nat, perPage: nat)
    ensures InTurn(PageAt(rows, perPage), count) == Prefix(count * perPage, rows)
  {
    if count > 0 {
      PagesConcatenate(rows, count - 1, perPage);
      PageExtends(rows, count - 1, perPage);
    }
  }

  lemma {:induction false} InTurnSame<T>(page: nat -> seq<T>, other: nat -> seq<T>, count: nat)
    requires forall p: nat :: p < count ==> page(p) == other(p)
    ensures InTurn(page, count) == InTurn(other, count)
  {
    if count > 0 {
      InTurnSame(page, other, count - 1);
    }
  }

  // ----- Filtering what was merged -----

  /** If two merges agree on their first `m` rows, any page that ends within the rows kept of those
    * agrees too. */
  lemma FilteredPage<T(!new)>(a: seq<T>, b: seq<T>, m: nat, p: T -> bool, page: nat, perPage: nat)
    requires Prefix(m, a) == Prefix(m, b)
    requires (page + 1) * perPage <= |Keep(Prefix(m, b), p)| || (|a| <= m && |b| <= m)
    ensures Page(Keep(a, p), page, perPage) == Page(Keep(b, p), page, perPage)
  {
    if |a| > m || |b| > m {
      var kept := Keep(Prefix(m, b), p);
      KeptFirst(a, m, p);
      KeptFirst(b, m, p);
      PagePrefix(Keep(a, p), page, perPage, |kept|);
      PagePrefix(Keep(b, p), page, perPage, |kept|);
    }
  }

  lemma KeptFirst<T(!new)>(rows: seq<T>, m: nat, p: T -> bool)
    ensures Prefix(|Keep(Prefix(m, rows), p)|, Keep(rows, p)) == Keep(Prefix(m, rows), p)
  {
    if |rows| > m {
      assert rows == rows[..m] + rows[m..];
      KeepConcat(rows[..m], rows[m..], p);
    }
  }

  /** A filtered page of the bounded merge, likewise. */
  lemma FilteredPageIsFull<T(!new)>(at: T -> int, m: nat, sources: seq<Source<T>>, p: T -> bool, page: nat,
                                    perPage: nat)
    requires forall i :: 0 <= i < |sources| ==> Tells(at, m, sources[i])
    requires (page + 1) * perPage <= |Keep(Prefix(m, Sorted(at, Whole(sources))), p)|
    ensures Page(Keep(Sorted(at, Collected(sources)), p), page, perPage)
            == Page(Keep(Sorted(at, Whole(sources)), p), page, perPage)
  {
    BoundedIsFull(at, m, sources);
    FilteredPage(Sorted(at, Collected(sources)), Sorted(at, Whole(sources)), m, p, page, perPage);
  }

  /** A filter leaves an ordered list ordered. */
  lemma {:induction false} KeepOrdered<T(!new)>(at: T -> int, rows: seq<T>, p: T -> bool)
    requires Ordered(at, rows)
    ensures Ordered(at, Keep(rows, p))
  {
    if rows != [] {
      var kept := Keep(rows[1..], p);
      KeepOrdered(at, rows[1..], p);
      KeepMembers(rows[1..], p);
      KeepFirst(rows, p);
      forall k | 0 <= k < |kept| ensures at(rows[0]) >= at(kept[k]) {
        assert kept[k] in rows[1..];
      }
    }
  }

  lemma {:induction false} InsertKeeps<T(!new)>(at: T -> int, row: T, rows: seq<T>, p: T -> bool)
    ensures |Keep(Insert(at, row, rows), p)| == |Keep(rows, p)| + if p(row) then 1 else 0
  {
    if rows != [] && at(row) < at(rows[0]) {
      InsertKeeps(at, row, rows[1..], p);
      KeepFirst(Insert(at, row, rows), p);
      assert Insert(at, row, rows)[1..] == Insert(at, row, rows[1..]);
      KeepFirst(rows, p);
    } else {
      KeepFirst([row] + rows, p);
      assert ([row] + rows)[1..] == rows;
    }
  }

  /** A filter keeps as many rows of a list before the list is sorted as after. */
  lemma {:induction false} SortedKeeps<T(!new)>(at: T -> int, rows: seq<T>, p: T -> bool)
    ensures |Keep(Sorted(at, rows), p)| == |Keep(rows, p)|
  {
    if rows != [] {
      SortedKeeps(at, rows[1..], p);
      InsertKeeps(at, rows[0], Sorted(at, rows[1..]), p);
      KeepFirst(rows, p);
    }
  }

  lemma {:induction false} CollectedKeeps<T(!new)>(sources: seq<Source<T>>, p: T -> bool)
    ensures |Keep(Collected(sources), p)| <= |Keep(Whole(sources), p)|
  {
    if sources != [] {
      var head := sources[0];
      var read, behind := Prefix(head.limit, head.rows), head.rows[|Prefix(head.limit, head.rows)|..];
      CollectedKeeps(sources[1..], p);
      KeepConcat(read, Collected(sources[1..]), p);
      KeepConcat(head.rows, Whole(sources[1..]), p);
      KeepConcat(read, behind, p);
      assert head.rows == read + behind;
    }
  }
}
