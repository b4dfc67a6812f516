/** Sums over table rows, and how one insert or update moves them. */
module Sums {

  // Which row of a table a write goes to: a fresh one at the end, or an existing one.
  datatype Slot = New | At(i: nat)

  function Sum<T>(rows: seq<T>, f: T -> int): int {
    if rows == [] then 0 else Sum(rows[..|rows| - 1], f) + f(rows[|rows| - 1])
  }

  predicate Fits<T>(rows: seq<T>, slot: Slot) {
    slot.At? ==> slot.i < |rows|
  }

  function Put<T>(rows: seq<T>, slot: Slot, row: T): seq<T>
    requires Fits(rows, slot)
  {
    match slot
    case New => rows + [row]
    case At(i) => rows[i := row]
  }

  // The index a write through `slot` lands on.
  function Index<T>(rows: seq<T>, slot: Slot): nat {
    match slot
    case New => |rows|
    case At(i) => i
  }

  // What the row in `slot` contributes before the write.
  function Was<T>(rows: seq<T>, slot: Slot, f: T -> int): int
    requires Fits(rows, slot)
  {
    match slot
    case New => 0
    case At(i) => f(rows[i])
  }

  lemma SumAppend<T>(rows: seq<T>, row: T, f: T -> int)
    ensures Sum(rows + [row], f) == Sum(rows, f) + f(row)
  {
    assert (rows + [row])[..|rows|] == rows;
  }

  lemma {:induction false} SumConcat<T>(a: seq<T>, b: seq<T>, f: T -> int)
    ensures Sum(a + b, f) == Sum(a, f) + Sum(b, f)
    decreases |b|
  {
    if b == [] {
      assert a + b == a;
    } else {
      var k := |b| - 1;
      SumConcat(a, b[..k], f);
      assert a + b == (a + b[..k]) + [b[k]];
      SumAppend(a + b[..k], b[k], f);
    }
  }

  lemma {:induction false} SumUpdate<T>(rows: seq<T>, i: nat, row: T, f: T -> int)
    requires i < |rows|
    ensures Sum(rows[i := row], f) == Sum(rows, f) - f(rows[i]) + f(row)
    decreases |rows|
  {
    var k := |rows| - 1;
    if i == k {
      assert rows[i := row][..k] == rows[..k];
    } else {
      SumUpdate(rows[..k], i, row, f);
      assert rows[i := row][..k] == rows[..k][i := row];
    }
  }

  lemma SumPut<T>(rows: seq<T>, slot: Slot, row: T, f: T -> int)
    requires Fits(rows, slot)
    ensures Sum(Put(rows, slot, row), f) == Sum(rows, f) - Was(rows, slot, f) + f(row)
  {
    match slot
    case New => SumAppend(rows, row, f);
    case At(i) => SumUpdate(rows, i, row, f);
  }

  lemma {:induction false} SumLe<T>(rows: seq<T>, f: T -> int, g: T -> int)
    requires forall i :: 0 <= i < |rows| ==> f(rows[i]) <= g(rows[i])
    ensures Sum(rows, f) <= Sum(rows, g)
    decreases |rows|
  {
    if rows != [] {
      SumLe(rows[..|rows| - 1], f, g);
    }
  }

  // Row by row no more, and as many rows.
  lemma {:induction false} SumRowsLe<T>(a: seq<T>, b: seq<T>, f: T -> int)
    requires |a| == |b| && forall i :: 0 <= i < |a| ==> f(a[i]) <= f(b[i])
    ensures Sum(a, f) <= Sum(b, f)
    decreases |a|
  {
    if a != [] {
      SumRowsLe(a[..|a| - 1], b[..|b| - 1], f);
    }
  }

  lemma {:induction false} SumEq<T>(rows: seq<T>, f: T -> int, g: T -> int)
    requires forall i :: 0 <= i < |rows| ==> f(rows[i]) == g(rows[i])
    ensures Sum(rows, f) == Sum(rows, g)
  {
    SumLe(rows, f, g);
    SumLe(rows, g, f);
  }

  lemma {:induction false} SumZero<T>(rows: seq<T>, f: T -> int)
    requires forall i :: 0 <= i < |rows| ==> f(rows[i]) == 0
    ensures Sum(rows, f) == 0
    decreases |rows|
  {
    if rows != [] {
      SumZero(rows[..|rows| - 1], f);
    }
  }

  lemma {:induction false} SumNonNeg<T>(rows: seq<T>, f: T -> int)
    requires forall i :: 0 <= i < |rows| ==> f(rows[i]) >= 0
    ensures Sum(rows, f) >= 0
    decreases |rows|
  {
    if rows != [] {
      SumNonNeg(rows[..|rows| - 1], f);
    }
  }

  // A sum of zeros and ones counts the ones.
  ghost function Ones<T>(rows: seq<T>, f: T -> int): set<nat> {
    set k: nat | k < |rows| && f(rows[k]) == 1
  }

  lemma {:induction false} SumCounts<T>(rows: seq<T>, f: T -> int)
    requires forall i :: 0 <= i < |rows| ==> f(rows[i]) == 0 || f(rows[i]) == 1
    ensures Sum(rows, f) == |Ones(rows, f)|
    decreases |rows|
  {
    if rows == [] {
      assert Ones(rows, f) == {};
    } else {
      var n := |rows| - 1;
      SumCounts(rows[..n], f);
      assert forall k | 0 <= k < n :: rows[..n][k] == rows[k];
      var last: set<nat> := if f(rows[n]) == 1 then {n} else {};
      assert Ones(rows, f) == Ones(rows[..n], f) + last;
    }
  }

  lemma {:induction false} SumAdds<T>(rows: seq<T>, f: T -> int, g: T -> int, h: T -> int)
    requires forall i :: 0 <= i < |rows| ==> h(rows[i]) == f(rows[i]) + g(rows[i])
    ensures Sum(rows, h) == Sum(rows, f) + Sum(rows, g)
    decreases |rows|
  {
    if rows != [] {
      SumAdds(rows[..|rows| - 1], f, g, h);
    }
  }

  // The rows that satisfy `keep`, in order.
  function Filter<T>(rows: seq<T>, keep: T -> bool): seq<T> {
    if rows == [] then []
    else
      Filter(rows[..|rows| - 1], keep)
      + (if keep(rows[|rows| - 1]) then [rows[|rows| - 1]] else [])
  }

  lemma FilterAppend<T>(rows: seq<T>, row: T, keep: T -> bool)
    ensures Filter(rows + [row], keep) == Filter(rows, keep) + (if keep(row) then [row] else [])
  {
    assert (rows + [row])[..|rows|] == rows;
  }

  lemma {:induction false} FilterMember<T>(rows: seq<T>, keep: T -> bool, i: nat)
    requires i < |rows| && keep(rows[i])
    ensures rows[i] in Filter(rows, keep)
    decreases |rows|
  {
    if i < |rows| - 1 {
      FilterMember(rows[..|rows| - 1], keep, i);
    }
  }

  lemma {:induction false} FilterKeeps<T>(rows: seq<T>, keep: T -> bool)
    ensures forall row | row in Filter(rows, keep) :: keep(row) && row in rows
    decreases |rows|
  {
    if rows != [] {
      FilterKeeps(rows[..|rows| - 1], keep);
    }
  }

  // Dropping rows that contribute nothing leaves the sum alone.
  lemma {:induction false} SumFilter<T>(rows: seq<T>, keep: T -> bool, f: T -> int)
    requires forall i :: 0 <= i < |rows| && !keep(rows[i]) ==> f(rows[i]) == 0
    ensures Sum(Filter(rows, keep), f) == Sum(rows, f)
    decreases |rows|
  {
    if rows != [] {
      var k := |rows| - 1;
      SumFilter(rows[..k], keep, f);
      if keep(rows[k]) {
        SumAppend(Filter(rows[..k], keep), rows[k], f);
      } else {
        assert Filter(rows, keep) == Filter(rows[..k], keep);
      }
    }
  }
}
