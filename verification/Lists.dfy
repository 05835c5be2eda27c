/** Filtering a list and removing an element from one. */
module Lists {

  /** The rows `p` accepts, in the order they come. */
  function Keep<T>(rows: seq<T>, p: T -> bool): seq<T> {
    if rows == [] then [] else (if p(rows[0]) then [rows[0]] else []) + Keep(rows[1..], p)
  }

  function OtherThan<T(==)>(row: T): T -> bool { (other: T) => other != row }

  /** LREM with count 0: every element equal to `row` goes. */
  function Lrem<T(==)>(rows: seq<T>, row: T): seq<T> { Keep(rows, OtherThan(row)) }

  lemma KeepFirst<T(!new)>(rows: seq<T>, p: T -> bool)
    requires rows != []
    ensures p(rows[0]) ==> Keep(rows, p) == [rows[0]] + Keep(rows[1..], p)
    ensures !p(rows[0]) ==> Keep(rows, p) == Keep(rows[1..], p)
  {
  }

  lemma {:induction false} KeepIn<T(!new)>(rows: seq<T>, p: T -> bool, row: T)
    ensures row in Keep(rows, p) <==> row in rows && p(row)
  {
    if rows != [] {
      KeepIn(rows[1..], p, row);
    }
  }

  lemma {:induction false} KeepMembers<T(!new)>(rows: seq<T>, p: T -> bool)
    ensures forall row :: row in Keep(rows, p) <==> row in rows && p(row)
    ensures |Keep(rows, p)| <= |rows|
  {
    if rows != [] {
      KeepMembers(rows[1..], p);
      assert rows == [rows[0]] + rows[1..];
    }
  }

  lemma KeepCons<T(!new)>(row: T, rest: seq<T>, p: T -> bool)
    ensures Keep([row] + rest, p) == (if p(row) then [row] else []) + Keep(rest, p)
  {
    assert ([row] + rest)[1..] == rest;
  }

  lemma {:induction false} KeepConcat<T(!new)>(a: seq<T>, b: seq<T>, p: T -> bool)
    ensures Keep(a + b, p) == Keep(a, p) + Keep(b, p)
  {
    if a == [] {
      assert a + b == b;
    } else {
      var first, rest := a[0], a[1..];
      KeepConcat(rest, b, p);
      assert a == [first] + rest && a + b == [first] + (rest + b);
      KeepCons(first, rest, p);
      KeepCons(first, rest + b, p);
    }
  }

  lemma {:induction false} KeepSame<T(!new)>(rows: seq<T>, p: T -> bool, q: T -> bool)
    requires forall row :: row in rows ==> p(row) == q(row)
    ensures Keep(rows, p) == Keep(rows, q)
  {
    if rows != [] {
      assert p(rows[0]) == q(rows[0]);
      KeepSame(rows[1..], p, q);
    }
  }

  lemma {:induction false} KeepTwice<T(!new)>(rows: seq<T>, p: T -> bool, q: T -> bool, both: T -> bool)
    requires forall row :: row in rows ==> both(row) == (p(row) && q(row))
    ensures Keep(Keep(rows, p), q) == Keep(rows, both)
  {
    if rows != [] {
      assert both(rows[0]) == (p(rows[0]) && q(rows[0]));
      KeepTwice(rows[1..], p, q, both);
      var kept := Keep(rows[1..], p);
      if p(rows[0]) {
        assert Keep(rows, p) == [rows[0]] + kept;
        assert ([rows[0]] + kept)[1..] == kept;
      } else {
        assert Keep(rows, p) == kept;
      }
    }
  }

  lemma {:induction false} KeepAll<T(!new)>(rows: seq<T>, p: T -> bool)
    requires forall row :: row in rows ==> p(row)
    ensures Keep(rows, p) == rows
  {
    if rows != [] {
      KeepAll(rows[1..], p);
    }
  }

  lemma {:induction false} KeepNone<T(!new)>(rows: seq<T>, p: T -> bool)
    requires forall row :: row in rows ==> !p(row)
    ensures Keep(rows, p) == []
  {
    if rows != [] {
      KeepNone(rows[1..], p);
    }
  }

  // ----- Lists without repeats -----

  ghost predicate Distinct<T>(rows: seq<T>) {
    forall i, j :: 0 <= i < j < |rows| ==> rows[i] != rows[j]
  }

  lemma DistinctRest<T>(rows: seq<T>)
    requires rows != [] && Distinct(rows)
    ensures Distinct(rows[1..]) && rows[0] !in rows[1..]
  {
    var rest := rows[1..];
    assert forall i, j :: 0 <= i < j < |rest| ==> rest[i] == rows[i + 1] && rest[j] == rows[j + 1];
  }

  lemma DistinctCons<T>(row: T, rest: seq<T>)
    requires Distinct(rest) && row !in rest
    ensures Distinct([row] + rest)
  {
    assert forall j :: 0 <= j < |rest| ==> rest[j] in rest;
  }

  lemma {:induction false} KeepDistinct<T(!new)>(rows: seq<T>, p: T -> bool)
    requires Distinct(rows)
    ensures Distinct(Keep(rows, p))
  {
    if rows != [] {
      DistinctRest(rows);
      KeepDistinct(rows[1..], p);
      KeepIn(rows[1..], p, rows[0]);
      KeepFirst(rows, p);
      if p(rows[0]) {
        DistinctCons(rows[0], Keep(rows[1..], p));
      }
    }
  }

  lemma LremMembers<T(!new)>(rows: seq<T>, row: T)
    ensures forall other :: other in Lrem(rows, row) <==> other in rows && other != row
    ensures |Lrem(rows, row)| <= |rows|
  {
    KeepMembers(rows, OtherThan(row));
  }

  lemma LremAbsent<T(!new)>(rows: seq<T>, row: T)
    requires row !in rows
    ensures Lrem(rows, row) == rows
  {
    KeepAll(rows, OtherThan(row));
  }

  lemma LremFirst<T(!new)>(rows: seq<T>, row: T)
    requires rows != []
    ensures Lrem(rows, row) == (if rows[0] == row then [] else [rows[0]]) + Lrem(rows[1..], row)
  {
    KeepFirst(rows, OtherThan(row));
  }

  /** Of a list without repeats at most one element goes. */
  lemma {:induction false} LremCounted<T(!new)>(rows: seq<T>, row: T)
    requires Distinct(rows)
    ensures |Lrem(rows, row)| == if row in rows then |rows| - 1 else |rows|
  {
    if rows != [] {
      DistinctRest(rows);
      LremFirst(rows, row);
      if rows[0] == row {
        LremAbsent(rows[1..], row);
      } else {
        LremCounted(rows[1..], row);
      }
    }
  }
}
