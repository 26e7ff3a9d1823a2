/** The chart history's merge of several series into one, by time. */
module PointMerge {
  import opened Options

  /** A JSON value, of which only equality matters. */
  datatype Value = Value(json: string)

  /** An item of a series: its time if it is an integer, and the item itself. */
  datatype Item = Item(t: Option<int>, value: Value)

  /** The last item of the concatenated series with a given time wins. */
  ghost predicate IsWinner(items: seq<Item>, t: int, item: Item) {
    exists i :: 0 <= i < |items| && items[i] == item && item.t == Some(t)
      && forall j :: i < j < |items| ==> items[j].t != Some(t)
  }

  function Concatenated(series: seq<seq<Item>>): seq<Item> {
    if series == [] then [] else Concatenated(series[..|series| - 1]) + series[|series| - 1]
  }

  ghost predicate Merges(items: seq<Item>, merged: map<int, Item>) {
    && (forall t :: t in merged ==> IsWinner(items, t, merged[t]))
    && (forall i :: 0 <= i < |items| && items[i].t.Some? ==> items[i].t.value in merged)
  }

  lemma MergesOneMore(items: seq<Item>, merged: map<int, Item>, item: Item)
    requires Merges(items, merged)
    ensures Merges(items + [item], if item.t.Some? then merged[item.t.value := item] else merged)
  {
    var items' := items + [item];
    var merged' := if item.t.Some? then merged[item.t.value := item] else merged;
    forall t | t in merged'
      ensures IsWinner(items', t, merged'[t])
    {
      if item.t == Some(t) {
        assert items'[|items|] == item;
      } else {
        var i :| 0 <= i < |items| && items[i] == merged[t] && items[i].t == Some(t)
          && forall j :: i < j < |items| ==> items[j].t != Some(t);
        assert items'[i] == merged[t];
      }
    }
  }

  predicate Rising(times: seq<int>) {
    forall p, q :: 0 <= p < q < |times| ==> times[p] < times[q]
  }

  /** A rising list of times with one more time put in its place. */
  function Place(times: seq<int>, t: int): seq<int>
    decreases |times|
  {
    if times == [] || t > times[|times| - 1] then times + [t]
    else if t == times[|times| - 1] then times
    else Place(times[..|times| - 1], t) + [times[|times| - 1]]
  }

  lemma {:induction false} PlaceHolds(times: seq<int>, t: int)
    ensures forall u :: u in Place(times, t) <==> u in times || u == t
    decreases |times|
  {
    if times != [] && t < times[|times| - 1] {
      PlaceHolds(times[..|times| - 1], t);
      assert times == times[..|times| - 1] + [times[|times| - 1]];
    } else if times != [] && t == times[|times| - 1] {
      assert times[|times| - 1] in times;
    }
  }

  lemma {:induction false} PlaceRises(times: seq<int>, t: int)
    requires Rising(times)
    ensures Rising(Place(times, t))
    decreases |times|
  {
    if times != [] && t < times[|times| - 1] {
      var shorter, last := times[..|times| - 1], times[|times| - 1];
      PlaceRises(shorter, t);
      PlaceHolds(shorter, t);
      var r := Place(shorter, t);
      forall p | 0 <= p < |r|
        ensures r[p] < last
      {
        assert r[p] in r;
        if r[p] != t {
          var q :| 0 <= q < |shorter| && shorter[q] == r[p];
          assert times[q] == r[p];
        }
      }
    }
  }

  /** The list holds exactly the dictionary's times. */
  ghost predicate Lists(times: seq<int>, merged: map<int, Item>) {
    && (forall p :: 0 <= p < |times| ==> times[p] in merged)
    && (forall t :: t in merged ==> t in times)
  }

  lemma PlaceLists(times: seq<int>, merged: map<int, Item>, t: int, item: Item)
    requires Lists(times, merged)
    ensures Lists(Place(times, t), merged[t := item])
  {
    PlaceHolds(times, t);
    var r := Place(times, t);
    forall p | 0 <= p < |r|
      ensures r[p] in merged[t := item]
    {
      assert r[p] in r;
      if r[p] != t {
        var q :| 0 <= q < |times| && times[q] == r[p];
      }
    }
  }

  /** The points of a merged dictionary in rising order of time. */
  function Points(merged: map<int, Item>, times: seq<int>): seq<Item>
    requires forall p :: 0 <= p < |times| ==> times[p] in merged
  {
    seq(|times|, p requires 0 <= p < |times| => merged[times[p]])
  }

  ghost predicate TimeOccurs(out: seq<Item>, t: int) {
    exists p :: 0 <= p < |out| && out[p].t == Some(t)
  }

  /** The result holds every time that occurs, once, in rising order, each with the item that occurs last. */
  ghost predicate IsMerge(items: seq<Item>, out: seq<Item>) {
    && (forall p :: 0 <= p < |out| ==> out[p].t.Some? && IsWinner(items, out[p].t.value, out[p]))
    && (forall p, q :: 0 <= p < q < |out| ==> out[p].t.value < out[q].t.value)
    && (forall i :: 0 <= i < |items| && items[i].t.Some? ==> TimeOccurs(out, items[i].t.value))
  }

  lemma MergedIsWinner(items: seq<Item>, merged: map<int, Item>, t: int)
    requires Merges(items, merged) && t in merged
    ensures IsWinner(items, t, merged[t]) && merged[t].t == Some(t)
  {
  }

  lemma MergedIsListed(times: seq<int>, merged: map<int, Item>, t: int)
    requires Lists(times, merged) && t in merged
    ensures t in times
  {
  }

  lemma PointsMerge(items: seq<Item>, merged: map<int, Item>, times: seq<int>)
    requires Merges(items, merged) && Rising(times) && Lists(times, merged)
    ensures IsMerge(items, Points(merged, times))
  {
    var out := Points(merged, times);
    forall p | 0 <= p < |out|
      ensures out[p].t == Some(times[p]) && IsWinner(items, times[p], out[p])
    {
      MergedIsWinner(items, merged, times[p]);
    }
    forall i | 0 <= i < |items| && items[i].t.Some?
      ensures TimeOccurs(out, items[i].t.value)
    {
      MergedIsListed(times, merged, items[i].t.value);
      var p :| 0 <= p < |times| && times[p] == items[i].t.value;
      assert out[p].t == Some(times[p]);
    }
  }

  method MergePoints(series: seq<seq<Item>>) returns (out: seq<Item>)
    ensures IsMerge(Concatenated(series), out)
  {
    var merged: map<int, Item> := map[];
    var times: seq<int> := [];
    for n := 0 to |series|
      invariant Merges(Concatenated(series[..n]), merged)
      invariant Rising(times) && Lists(times, merged)
    {
      var items := series[n];
      ghost var before := Concatenated(series[..n]);
      assert before + items[..0] == before;
      for k := 0 to |items|
        invariant Merges(before + items[..k], merged)
        invariant Rising(times) && Lists(times, merged)
      {
        MergesOneMore(before + items[..k], merged, items[k]);
        assert before + items[..k + 1] == before + items[..k] + [items[k]];
        if items[k].t.Some? {
          PlaceLists(times, merged, items[k].t.value, items[k]);
          PlaceRises(times, items[k].t.value);
          merged := merged[items[k].t.value := items[k]];
          times := Place(times, items[k].t.value);
        }
      }
      assert items[..|items|] == items;
      assert series[..n + 1][..n] == series[..n];
    }
    assert series[..|series|] == series;
    PointsMerge(Concatenated(series), merged, times);
    out := Points(merged, times);
  }
}
