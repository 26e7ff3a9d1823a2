/** The chart history's two-pointer resampler and its point merge. */
module Resampler {
  import opened Options

  type Key = string

  /** A JSON value other than null, of which only equality matters. */
  datatype Value = Value(json: string)

  /** A history row: its time if it is an integer, and its values that are not null. */
  datatype Row = Row(t: Option<int>, values: map<Key, Value>)

  datatype Point = Point(t: int, values: map<Key, Option<Value>>)

  // ---------------------------------------------------------------- stable time order

  predicate Timed(rows: seq<Row>, i: int) {
    0 <= i < |rows| && rows[i].t.Some?
  }

  function Time(rows: seq<Row>, i: int): int {
    if Timed(rows, i) then rows[i].t.value else 0
  }

  predicate Has(rows: seq<Row>, i: int, key: Key) {
    Timed(rows, i) && key in rows[i].values
  }

  /** Row i comes before row j: earlier, or equally early and earlier in the input. */
  predicate Before(rows: seq<Row>, i: int, j: int) {
    Time(rows, i) < Time(rows, j) || (Time(rows, i) == Time(rows, j) && i < j)
  }

  /** The numbers of timed rows, in stable time order. */
  ghost predicate InOrder(rows: seq<Row>, order: seq<int>) {
    && (forall p :: 0 <= p < |order| ==> Timed(rows, order[p]))
    && (forall p, q :: 0 <= p < q < |order| ==> Before(rows, order[p], order[q]))
  }

  function Insert(rows: seq<Row>, order: seq<int>, i: int): seq<int>
    decreases |order|
  {
    if order == [] || !Before(rows, i, order[|order| - 1]) then order + [i]
    else Insert(rows, order[..|order| - 1], i) + [order[|order| - 1]]
  }

  lemma {:induction false} InsertHolds(rows: seq<Row>, order: seq<int>, i: int)
    ensures forall k :: k in Insert(rows, order, i) <==> k in order || k == i
    decreases |order|
  {
    if order != [] && Before(rows, i, order[|order| - 1]) {
      InsertHolds(rows, order[..|order| - 1], i);
      assert order == order[..|order| - 1] + [order[|order| - 1]];
    }
  }

  lemma {:induction false} InsertOrders(rows: seq<Row>, order: seq<int>, i: int)
    requires InOrder(rows, order) && Timed(rows, i) && i !in order
    ensures InOrder(rows, Insert(rows, order, i))
    decreases |order|
  {
    if order != [] && Before(rows, i, order[|order| - 1]) {
      var shorter, last := order[..|order| - 1], order[|order| - 1];
      InsertOrders(rows, shorter, i);
      InsertHolds(rows, shorter, i);
      var r := Insert(rows, shorter, i);
      forall p | 0 <= p < |r|
        ensures Before(rows, r[p], last)
      {
        assert r[p] in r;
        if r[p] != i {
          var q :| 0 <= q < |shorter| && shorter[q] == r[p];
          assert order[q] == r[p];
        }
      }
    }
  }

  /** The stable sort of the first n rows by time, as row numbers; rows without an integer time are dropped. */
  function Order(rows: seq<Row>, n: nat): seq<int>
    requires n <= |rows|
  {
    if n == 0 then []
    else if rows[n - 1].t.None? then Order(rows, n - 1)
    else Insert(rows, Order(rows, n - 1), n - 1)
  }

  lemma {:induction false} OrderHolds(rows: seq<Row>, n: nat)
    requires n <= |rows|
    ensures forall k :: k in Order(rows, n) <==> k < n && Timed(rows, k)
  {
    if n > 0 {
      OrderHolds(rows, n - 1);
      InsertHolds(rows, Order(rows, n - 1), n - 1);
    }
  }

  lemma NothingIsInOrder(rows: seq<Row>)
    ensures InOrder(rows, [])
  {
  }

  lemma {:induction false} OrderIsStable(rows: seq<Row>, n: nat)
    requires n <= |rows|
    ensures InOrder(rows, Order(rows, n))
  {
    hide InOrder, Insert;
    if n == 0 {
      NothingIsInOrder(rows);
    } else {
      OrderIsStable(rows, n - 1);
      if rows[n - 1].t.Some? {
        OrderHolds(rows, n - 1);
        InsertOrders(rows, Order(rows, n - 1), n - 1);
      }
    }
  }

  // ---------------------------------------------------------------- the point-by-point specification

  predicate Carries(rows: seq<Row>, key: Key, ts: int, i: int) {
    Has(rows, i, key) && Time(rows, i) <= ts
  }

  /** Row i is the last in stable time order to carry the key by the time ts. */
  ghost predicate Newest(rows: seq<Row>, key: Key, ts: int, i: int) {
    && Carries(rows, key, ts, i)
    && (forall j :: Carries(rows, key, ts, j) && j != i ==> Before(rows, j, i))
  }

  /** The newest value of a key at a time, found by looking at every row of the unsorted input. */
  ghost predicate IsNewest(rows: seq<Row>, key: Key, ts: int, value: Option<Value>) {
    match value
    case None => forall i :: !Carries(rows, key, ts, i)
    case Some(v) => exists i :: Newest(rows, key, ts, i) && rows[i].values[key] == v
  }

  /** Position p of the order holds the last of its first n rows to have the key. */
  ghost predicate LastAt(rows: seq<Row>, order: seq<int>, n: int, key: Key, p: int) {
    && 0 <= p < n <= |order| && Has(rows, order[p], key)
    && (forall q :: p < q < n ==> !Has(rows, order[q], key))
  }

  /** The latest value among the first n rows of the order. */
  ghost predicate IsLast(rows: seq<Row>, order: seq<int>, n: int, key: Key, value: Option<Value>) {
    match value
    case None => forall p :: 0 <= p < n <= |order| ==> !Has(rows, order[p], key)
    case Some(v) => exists p :: LastAt(rows, order, n, key, p) && rows[order[p]].values[key] == v
  }

  /** Every row of the order before n is due at ts, and none from n on is. */
  predicate DueUpTo(rows: seq<Row>, order: seq<int>, n: int, ts: int) {
    && 0 <= n <= |order|
    && (forall p :: 0 <= p < n ==> Time(rows, order[p]) <= ts)
    && (forall p :: n <= p < |order| ==> Time(rows, order[p]) > ts)
  }

  lemma DueRowsAreOrdered(rows: seq<Row>, order: seq<int>, n: int, key: Key, ts: int, i: int) returns (p: int)
    requires forall k :: k in order <==> Timed(rows, k)
    requires DueUpTo(rows, order, n, ts) && Carries(rows, key, ts, i)
    ensures 0 <= p < n && order[p] == i
  {
    assert i in order;
    p :| 0 <= p < |order| && order[p] == i;
  }

  lemma LastIsNewest(rows: seq<Row>, order: seq<int>, n: int, key: Key, ts: int, value: Option<Value>)
    requires InOrder(rows, order)
    requires forall k :: k in order <==> Timed(rows, k)
    requires DueUpTo(rows, order, n, ts) && IsLast(rows, order, n, key, value)
    ensures IsNewest(rows, key, ts, value)
  {
    if value.None? {
      forall i
        ensures !Carries(rows, key, ts, i)
      {
        if Carries(rows, key, ts, i) {
          var p := DueRowsAreOrdered(rows, order, n, key, ts, i);
          assert false;
        }
      }
    } else {
      var p :| LastAt(rows, order, n, key, p) && rows[order[p]].values[key] == value.value;
      forall j | Carries(rows, key, ts, j) && j != order[p]
        ensures Before(rows, j, order[p])
      {
        var q := DueRowsAreOrdered(rows, order, n, key, ts, j);
      }
      assert Newest(rows, key, ts, order[p]);
    }
  }

  /** The specification determines the value. */
  lemma NewestIsUnique(rows: seq<Row>, key: Key, ts: int, a: Option<Value>, b: Option<Value>)
    requires IsNewest(rows, key, ts, a) && IsNewest(rows, key, ts, b)
    ensures a == b
  {
    if a.Some? && b.Some? {
      var i :| Newest(rows, key, ts, i) && rows[i].values[key] == a.value;
      var j :| Newest(rows, key, ts, j) && rows[j].values[key] == b.value;
      assert i == j;
    }
  }

  // ---------------------------------------------------------------- the two-pointer loop

  ghost predicate PointIsNewest(rows: seq<Row>, keys: seq<Key>, point: Point) {
    && point.values.Keys == (set k | k in keys)
    && (forall key :: key in keys ==> IsNewest(rows, key, point.t, point.values[key]))
  }

  ghost predicate AllNewest(rows: seq<Row>, keys: seq<Key>, points: seq<Point>) {
    forall point :: point in points ==> PointIsNewest(rows, keys, point)
  }

  function GridSize(start: int, end: int, step: int): nat
    requires step > 0
  {
    if end < start then 0 else (end - start) / step + 1
  }

  /** One row's values overwrite the latest ones, key by key. */
  method Overlay(keys: seq<Key>, latest: map<Key, Option<Value>>, row: Row) returns (r: map<Key, Option<Value>>)
    requires latest.Keys == set k | k in keys
    ensures r.Keys == latest.Keys
    ensures forall key :: key in keys ==> r[key] == if key in row.values then Some(row.values[key]) else latest[key]
  {
    r := latest;
    for n := 0 to |keys|
      invariant r.Keys == latest.Keys
      invariant forall key :: key in keys ==>
        r[key] == if key in row.values && key in keys[..n] then Some(row.values[key]) else latest[key]
    {
      var key := keys[n];
      assert keys[..n + 1] == keys[..n] + [key];
      if key in row.values {
        r := r[key := Some(row.values[key])];
      }
    }
    assert keys[..|keys|] == keys;
  }

  lemma LastExtends(rows: seq<Row>, order: seq<int>, n: int, key: Key, before: Option<Value>)
    requires 0 <= n < |order| && Timed(rows, order[n])
    requires IsLast(rows, order, n, key, before)
    ensures
      var values := rows[order[n]].values;
      IsLast(rows, order, n + 1, key, if key in values then Some(values[key]) else before)
  {
    if Has(rows, order[n], key) {
      assert LastAt(rows, order, n + 1, key, n);
    } else if before.Some? {
      var p :| LastAt(rows, order, n, key, p) && rows[order[p]].values[key] == before.value;
      assert LastAt(rows, order, n + 1, key, p);
    }
  }

  /** The latest value of every key among the first n rows of the order. */
  ghost predicate AreLast(rows: seq<Row>, order: seq<int>, n: int, keys: seq<Key>, latest: map<Key, Option<Value>>) {
    latest.Keys == (set k | k in keys) && forall key :: key in keys ==> IsLast(rows, order, n, key, latest[key])
  }

  /** The first n rows of the order are due at ts. */
  ghost predicate Passed(rows: seq<Row>, order: seq<int>, n: int, ts: int) {
    0 <= n <= |order| && forall p :: 0 <= p < n ==> Time(rows, order[p]) <= ts
  }

  lemma PassedLater(rows: seq<Row>, order: seq<int>, n: int, ts: int, later: int)
    requires DueUpTo(rows, order, n, ts) && ts <= later
    ensures Passed(rows, order, n, later)
  {
  }

  lemma NothingIsLast(rows: seq<Row>, order: seq<int>, keys: seq<Key>, latest: map<Key, Option<Value>>, ts: int)
    requires latest == map k | k in keys :: None
    ensures AreLast(rows, order, 0, keys, latest) && Passed(rows, order, 0, ts)
  {
  }

  lemma RestIsLater(rows: seq<Row>, order: seq<int>, n: int, ts: int)
    requires InOrder(rows, order) && 0 <= n <= |order| && (n < |order| ==> Time(rows, order[n]) > ts)
    ensures forall p :: n <= p < |order| ==> Time(rows, order[p]) > ts
  {
    forall p | n < p < |order|
      ensures Time(rows, order[p]) > ts
    {
      assert Before(rows, order[n], order[p]);
    }
  }

  /** Consume every row that is due at ts. */
  method Advance(rows: seq<Row>, order: seq<int>, keys: seq<Key>, from: nat, before: map<Key, Option<Value>>, ts: int)
    returns (n: nat, latest: map<Key, Option<Value>>)
    requires InOrder(rows, order) && Passed(rows, order, from, ts) && AreLast(rows, order, from, keys, before)
    ensures DueUpTo(rows, order, n, ts) && AreLast(rows, order, n, keys, latest)
  {
    n, latest := from, before;
    while n < |order| && rows[order[n]].t.value <= ts
      invariant from <= n <= |order|
      invariant forall p :: 0 <= p < n ==> Time(rows, order[p]) <= ts
      invariant latest.Keys == before.Keys
      invariant forall key :: key in keys ==> IsLast(rows, order, n, key, latest[key])
    {
      ghost var earlier := latest;
      latest := Overlay(keys, latest, rows[order[n]]);
      forall key | key in keys
        ensures IsLast(rows, order, n + 1, key, latest[key])
      {
        LastExtends(rows, order, n, key, earlier[key]);
      }
      n := n + 1;
    }
    RestIsLater(rows, order, n, ts);
  }

  /** The k-th value of the range from start by step. */
  function GridTime(start: int, step: int, k: nat): int {
    if k == 0 then start else GridTime(start, step, k - 1) + step
  }

  lemma {:induction false} GridTimeIs(start: int, step: int, k: nat)
    ensures GridTime(start, step, k) == start + k * step
  {
    if k > 0 {
      GridTimeIs(start, step, k - 1);
      assert (k - 1) * step + step == k * step;
    }
  }

  /** The points so far stand at successive grid times not after end, and ts is the next one. */
  ghost predicate OnGrid(out: seq<Point>, start: int, end: int, step: int, ts: int) {
    && ts == GridTime(start, step, |out|)
    && (|out| > 0 ==> GridTime(start, step, |out| - 1) <= end)
    && (forall j :: 0 <= j < |out| ==> out[j].t == GridTime(start, step, j))
  }

  lemma StartsOnGrid(start: int, end: int, step: int)
    ensures OnGrid([], start, end, step, start)
  {
  }

  lemma NextOnGrid(out: seq<Point>, start: int, end: int, step: int, point: Point)
    requires OnGrid(out, start, end, step, point.t) && point.t <= end
    ensures OnGrid(out + [point], start, end, step, point.t + step)
  {
  }

  lemma ProductGrows(a: int, b: int, step: int)
    requires a <= b && step > 0
    ensures a * step <= b * step
  {
  }

  lemma DivideAtLeast(d: int, step: int, k: nat)
    requires step > 0 && d >= k * step
    ensures d / step >= k
  {
    if d / step < k {
      ProductGrows(d / step + 1, k, step);
    }
  }

  lemma DivideAtMost(d: int, step: int, k: nat)
    requires step > 0 && d >= 0 && k * step > d
    ensures d / step < k
  {
    if d / step >= k {
      ProductGrows(k, d / step, step);
    }
  }

  /** The range stops after floor((end - start) / step) + 1 values, or at once when end precedes start. */
  lemma GridEnds(start: int, end: int, step: int, k: nat)
    requires step > 0 && GridTime(start, step, k) > end
    requires k > 0 ==> GridTime(start, step, k - 1) <= end
    ensures k == GridSize(start, end, step)
  {
    GridTimeIs(start, step, k);
    if k > 0 {
      GridTimeIs(start, step, k - 1);
      DivideAtLeast(end - start, step, k - 1);
      if end >= start {
        DivideAtMost(end - start, step, k);
      } else {
        ProductGrows(0, k - 1, step);
        assert false;
      }
    }
  }

  lemma GridIsFilled(out: seq<Point>, start: int, end: int, step: int, ts: int)
    requires step > 0 && OnGrid(out, start, end, step, ts) && ts > end
    ensures |out| == GridSize(start, end, step)
    ensures forall k :: 0 <= k < |out| ==> out[k].t == GridTime(start, step, k)
  {
    GridEnds(start, end, step, |out|);
  }

  lemma NoneTimed(rows: seq<Row>, order: seq<int>)
    requires order == [] && forall k :: k in order <==> k < |rows| && Timed(rows, k)
    ensures !exists i :: Timed(rows, i)
  {
    forall i
      ensures !Timed(rows, i)
    {
      assert i !in order;
    }
  }

  lemma LatestAreNewest(
      rows: seq<Row>, order: seq<int>, n: int, keys: seq<Key>, ts: int, latest: map<Key, Option<Value>>)
    requires InOrder(rows, order) && (forall k :: k in order <==> k < |rows| && Timed(rows, k))
    requires DueUpTo(rows, order, n, ts) && AreLast(rows, order, n, keys, latest)
    ensures PointIsNewest(rows, keys, Point(ts, latest))
  {
    forall k
      ensures k in order <==> Timed(rows, k)
    {
    }
    forall key | key in keys
      ensures IsNewest(rows, key, ts, latest[key])
    {
      LastIsNewest(rows, order, n, key, ts, latest[key]);
    }
  }

  /** Each grid point holds, for each key, the newest value of the whole input at that time. */
  method ResampleCombinedRows(rows: seq<Row>, keys: seq<Key>, start: int, end: int, step: int)
    returns (out: seq<Point>)
    requires step > 0
    ensures |out| == if exists i :: Timed(rows, i) then GridSize(start, end, step) else 0
    ensures forall k :: 0 <= k < |out| ==> out[k].t == GridTime(start, step, k)
    ensures AllNewest(rows, keys, out)
  {
    var order := Order(rows, |rows|);
    OrderHolds(rows, |rows|);
    OrderIsStable(rows, |rows|);
    out := [];
    if order == [] {
      NoneTimed(rows, order);
      return;
    }
    hide InOrder, Order, Insert, Passed, AreLast, DueUpTo, PointIsNewest, GridTime, GridSize, OnGrid;
    assert order[0] in order && Timed(rows, order[0]);
    var n, ts := 0, start;
    var latest: map<Key, Option<Value>> := map k | k in keys :: None;
    NothingIsLast(rows, order, keys, latest, ts);
    StartsOnGrid(start, end, step);
    while ts <= end
      invariant OnGrid(out, start, end, step, ts)
      invariant Passed(rows, order, n, ts) && AreLast(rows, order, n, keys, latest)
      invariant AllNewest(rows, keys, out)
      decreases end - ts
    {
      n, latest := Advance(rows, order, keys, n, latest, ts);
      LatestAreNewest(rows, order, n, keys, ts, latest);
      PassedLater(rows, order, n, ts, ts + step);
      NextOnGrid(out, start, end, step, Point(ts, latest));
      out := out + [Point(ts, latest)];
      ts := ts + step;
    }
    GridIsFilled(out, start, end, step, ts);
  }
}
