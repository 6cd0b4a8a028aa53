/** Sums of a real-valued weight over the rows of a table. */
module Sums {

  function Total<T>(rows: seq<T>, weight: T -> real): real {
    if rows == [] then 0.0
    else Total(rows[..|rows| - 1], weight) + weight(rows[|rows| - 1])
  }

  lemma TotalAppend<T>(rows: seq<T>, row: T, weight: T -> real)
    ensures Total(rows + [row], weight) == Total(rows, weight) + weight(row)
  {
    assert (rows + [row])[..|rows|] == rows;
  }

  lemma {:induction false} TotalUpdate<T>(rows: seq<T>, k: nat, row: T, weight: T -> real)
    requires k < |rows|
    ensures Total(rows[k := row], weight) == Total(rows, weight) - weight(rows[k]) + weight(row)
  {
    var last := |rows| - 1;
    if k == last {
      assert rows[k := row][..last] == rows[..last];
    } else {
      TotalUpdate(rows[..last], k, row, weight);
      assert rows[k := row][..last] == rows[..last][k := row];
    }
  }

  /** Rows that weigh no more, one by one, weigh no more together. */
  lemma {:induction false} TotalDominated<S, T>(rows: seq<S>, others: seq<T>, weight: S -> real, other: T -> real)
    requires |rows| == |others|
    requires forall k :: 0 <= k < |rows| ==> weight(rows[k]) <= other(others[k])
    ensures Total(rows, weight) <= Total(others, other)
  {
    if rows != [] {
      var last := |rows| - 1;
      TotalDominated(rows[..last], others[..last], weight, other);
    }
  }

  lemma TotalAgrees<S, T>(rows: seq<S>, others: seq<T>, weight: S -> real, other: T -> real)
    requires |rows| == |others|
    requires forall k :: 0 <= k < |rows| ==> weight(rows[k]) == other(others[k])
    ensures Total(rows, weight) == Total(others, other)
  {
    TotalDominated(rows, others, weight, other);
    TotalDominated(others, rows, other, weight);
  }

  lemma TotalMonotone<T>(rows: seq<T>, other: seq<T>, weight: T -> real)
    requires |rows| == |other|
    requires forall k :: 0 <= k < |rows| ==> weight(rows[k]) <= weight(other[k])
    ensures Total(rows, weight) <= Total(other, weight)
  {
    TotalDominated(rows, other, weight, weight);
  }

  lemma TotalSame<T>(rows: seq<T>, other: seq<T>, weight: T -> real)
    requires |rows| == |other|
    requires forall k :: 0 <= k < |rows| ==> weight(rows[k]) == weight(other[k])
    ensures Total(rows, weight) == Total(other, weight)
  {
    TotalAgrees(rows, other, weight, weight);
  }

  /** A weight that is a linear combination of two others. */
  lemma {:induction false} TotalLinear<T>(rows: seq<T>, c: real, first: T -> real, second: T -> real,
            combined: T -> real)
    requires forall k :: 0 <= k < |rows| ==> combined(rows[k]) == c * first(rows[k]) - second(rows[k])
    ensures Total(rows, combined) == c * Total(rows, first) - Total(rows, second)
  {
    if rows != [] {
      var last := |rows| - 1;
      TotalLinear(rows[..last], c, first, second, combined);
      Distribute(c, Total(rows[..last], first), first(rows[last]));
    }
  }

  lemma Distribute(c: real, a: real, b: real)
    ensures c * (a + b) == c * a + c * b
  {
  }

  /** Rows without weight at the end do not matter. */
  lemma {:induction false} TotalPrefix<T>(rows: seq<T>, k: nat, weight: T -> real)
    requires k <= |rows|
    requires forall i :: k <= i < |rows| ==> weight(rows[i]) == 0.0
    ensures Total(rows, weight) == Total(rows[..k], weight)
  {
    if k < |rows| {
      var last := |rows| - 1;
      TotalPrefix(rows[..last], k, weight);
      assert rows[..last][..k] == rows[..k];
    } else {
      assert rows[..k] == rows;
    }
  }

  lemma TotalNext<T>(rows: seq<T>, k: nat, weight: T -> real)
    requires k < |rows|
    ensures Total(rows[..k + 1], weight) == Total(rows[..k], weight) + weight(rows[k])
  {
    assert rows[..k + 1][..k] == rows[..k];
  }

  lemma {:induction false} TotalNonNegative<T>(rows: seq<T>, weight: T -> real)
    requires forall k :: 0 <= k < |rows| ==> weight(rows[k]) >= 0.0
    ensures Total(rows, weight) >= 0.0
  {
    if rows != [] {
      TotalNonNegative(rows[..|rows| - 1], weight);
    }
  }

  /** One row weighs no more than all of them together. */
  lemma {:induction false} TotalDominates<T>(rows: seq<T>, k: nat, weight: T -> real)
    requires k < |rows|
    requires forall i :: 0 <= i < |rows| ==> weight(rows[i]) >= 0.0
    ensures weight(rows[k]) <= Total(rows, weight)
  {
    var last := |rows| - 1;
    if k == last {
      TotalNonNegative(rows[..last], weight);
    } else {
      TotalDominates(rows[..last], k, weight);
    }
  }
}
