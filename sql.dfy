/** SQL column values and the aggregate functions the conversation store's
    queries use, with SQLite's NULL semantics. */
module Sql {

  /** A column value that may be SQL NULL. */
  datatype Nullable<+T> = Null | Value(value: T)

  /** The non-NULL values of a column, in row order. */
  function NonNull(xs: seq<Nullable<int>>): (r: seq<int>)
    ensures |r| <= |xs|
    ensures r == [] <==> forall i :: 0 <= i < |xs| ==> xs[i] == Null
  {
    if xs == [] then []
    else match xs[0]
      case Null => NonNull(xs[1..])
      case Value(v) => [v] + NonNull(xs[1..])
  }

  /** Plain arithmetic sum. */
  function Total(xs: seq<int>): int
  {
    if xs == [] then 0 else xs[0] + Total(xs[1..])
  }

  /** One step of the SUM aggregate: a NULL input is skipped; the first
      non-NULL input replaces the NULL accumulator. */
  function SumStep(acc: Nullable<int>, x: Nullable<int>): Nullable<int>
  {
    match x
    case Null => acc
    case Value(v) =>
      match acc
      case Null => Value(v)
      case Value(a) => Value(a + v)
  }

  /** The SUM aggregate continued from accumulator `acc` over rows `xs`. */
  function SumFrom(acc: Nullable<int>, xs: seq<Nullable<int>>): Nullable<int>
    decreases |xs|
  {
    if xs == [] then acc else SumFrom(SumStep(acc, xs[0]), xs[1..])
  }

  /** SQL `SUM(column)`: evaluated row by row starting from NULL. */
  function Sum(xs: seq<Nullable<int>>): Nullable<int>
  {
    SumFrom(Null, xs)
  }

  lemma {:induction false} SumFromValue(a: int, xs: seq<Nullable<int>>)
    ensures SumFrom(Value(a), xs) == Value(a + Total(NonNull(xs)))
    decreases |xs|
  {
    if xs != [] {
      match xs[0]
      case Null =>
        SumFromValue(a, xs[1..]);
      case Value(v) =>
        SumFromValue(a + v, xs[1..]);
    }
  }

  /** `SUM` over no rows, or over rows that are all NULL, is NULL; otherwise
      it is the sum of the non-NULL values. */
  lemma {:induction false} SumIsTotalOfNonNull(xs: seq<Nullable<int>>)
    ensures Sum(xs) == if NonNull(xs) == [] then Null else Value(Total(NonNull(xs)))
  {
    if xs != [] {
      match xs[0]
      case Null =>
        SumIsTotalOfNonNull(xs[1..]);
      case Value(v) =>
        SumFromValue(v, xs[1..]);
    }
  }

  /** SQL `MIN(column)` over a column without NULLs: NULL on no rows. */
  function Min(xs: seq<int>): (r: Nullable<int>)
    ensures r == Null <==> xs == []
    ensures r.Value? ==> r.value in xs && forall i :: 0 <= i < |xs| ==> r.value <= xs[i]
  {
    MinFrom(xs, 0)
  }

  /** `MIN` over the rows from position `lo` on. */
  function MinFrom(xs: seq<int>, lo: nat): (r: Nullable<int>)
    requires lo <= |xs|
    ensures r == Null <==> lo == |xs|
    ensures r.Value? ==> (exists i :: lo <= i < |xs| && xs[i] == r.value) && forall i :: lo <= i < |xs| ==> r.value <= xs[i]
    decreases |xs| - lo
  {
    if lo == |xs| then Null
    else match MinFrom(xs, lo + 1)
      case Null => Value(xs[lo])
      case Value(m) => Value(if xs[lo] <= m then xs[lo] else m)
  }

  /** SQL `MAX(column)` over a column without NULLs: NULL on no rows. */
  function Max(xs: seq<int>): (r: Nullable<int>)
    ensures r == Null <==> xs == []
    ensures r.Value? ==> r.value in xs && forall i :: 0 <= i < |xs| ==> xs[i] <= r.value
  {
    MaxFrom(xs, 0)
  }

  /** `MAX` over the rows from position `lo` on. */
  function MaxFrom(xs: seq<int>, lo: nat): (r: Nullable<int>)
    requires lo <= |xs|
    ensures r == Null <==> lo == |xs|
    ensures r.Value? ==> (exists i :: lo <= i < |xs| && xs[i] == r.value) && forall i :: lo <= i < |xs| ==> xs[i] <= r.value
    decreases |xs| - lo
  {
    if lo == |xs| then Null
    else match MaxFrom(xs, lo + 1)
      case Null => Value(xs[lo])
      case Value(m) => Value(if m <= xs[lo] then xs[lo] else m)
  }

  /** A value below every other value of the column is its `MIN`. */
  lemma MinIsLeast(xs: seq<int>, k: int)
    requires 0 <= k < |xs| && forall i :: 0 <= i < |xs| ==> xs[k] <= xs[i]
    ensures Min(xs) == Value(xs[k])
  {
    var m := Min(xs).value;
    var a :| 0 <= a < |xs| && xs[a] == m;
    assert xs[k] <= xs[a];
  }

  /** A value above every other value of the column is its `MAX`. */
  lemma MaxIsGreatest(xs: seq<int>, k: int)
    requires 0 <= k < |xs| && forall i :: 0 <= i < |xs| ==> xs[i] <= xs[k]
    ensures Max(xs) == Value(xs[k])
  {
    var m := Max(xs).value;
    var a :| 0 <= a < |xs| && xs[a] == m;
    assert xs[a] <= xs[k];
  }
}
