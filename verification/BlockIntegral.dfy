/** The time-weighted integral of one five-minute price block. */
module BlockIntegral {
  import opened Options

  /** A price event of the block; its time is in whole seconds, as the recorder writes it. */
  datatype Sample = Sample(
    ts: int, importKw: real, exportKw: real, importPrice: Option<real>, feedinPrice: Option<real>)

  datatype Side = Importing | Exporting

  const BLOCK_SECONDS: int := 300

  predicate Sorted(recs: seq<Sample>) {
    forall i, j :: 0 <= i < j < |recs| ==> recs[i].ts <= recs[j].ts
  }

  function Kw(rec: Sample, side: Side): real {
    if side == Importing then rec.importKw else rec.exportKw
  }

  function Price(rec: Sample, side: Side): Option<real> {
    if side == Importing then rec.importPrice else rec.feedinPrice
  }

  function Min(a: int, b: int): int {
    if a <= b then a else b
  }

  // ---------------------------------------------------------------- the loop's own segments

  /** Sample i's segment inside the block; the first one is pulled back to the block's start. */
  function Duration(recs: seq<Sample>, start: int, i: int): int
    requires 0 <= i < |recs|
  {
    var end := start + BLOCK_SECONDS;
    Min(if i + 1 < |recs| then recs[i + 1].ts else end, end) - (if i == 0 then start else recs[i].ts)
  }

  function Weight(recs: seq<Sample>, start: int, i: int): int
    requires 0 <= i < |recs|
  {
    if Duration(recs, start, i) <= 0 then 0 else Duration(recs, start, i)
  }

  function TotalWeight(recs: seq<Sample>, start: int, n: int): int
    requires 0 <= n <= |recs|
  {
    if n == 0 then 0 else TotalWeight(recs, start, n - 1) + Weight(recs, start, n - 1)
  }

  /** A power held for some seconds: the product, built up a second at a time. */
  function Held(kw: real, seconds: int): real {
    if seconds <= 0 then 0.0 else Held(kw, seconds - 1) + kw
  }

  function Weighted(recs: seq<Sample>, start: int, n: int, side: Side): real
    requires 0 <= n <= |recs|
  {
    if n == 0 then 0.0
    else Weighted(recs, start, n - 1, side) + Held(Kw(recs[n - 1], side), Weight(recs, start, n - 1))
  }

  lemma {:induction false} HeldIsProduct(kw: real, seconds: int)
    requires seconds >= 0
    ensures Held(kw, seconds) == kw * seconds as real
  {
    if seconds > 0 {
      HeldIsProduct(kw, seconds - 1);
      assert kw * (seconds - 1) as real + kw == kw * seconds as real;
    }
  }

  // ---------------------------------------------------------------- the integral, said second by second

  /** The sample in force at a second: the last one not after it, or the first one if none is. */
  function InForce(recs: seq<Sample>, t: int): (i: int)
    requires recs != []
    ensures 0 <= i < |recs|
    ensures i == 0 || recs[i].ts <= t
    ensures Sorted(recs) ==> forall j :: i < j < |recs| ==> recs[j].ts > t
  {
    if |recs| == 1 || recs[|recs| - 1].ts <= t then |recs| - 1 else InForce(recs[..|recs| - 1], t)
  }

  /** The power of every second from a up to b, summed. */
  function Integral(recs: seq<Sample>, a: int, b: int, side: Side): real
    requires recs != []
    decreases b - a
  {
    if b <= a then 0.0 else Integral(recs, a, b - 1, side) + Kw(recs[InForce(recs, b - 1)], side)
  }

  /** Where the loop's segments really begin: a second sample before the block drags them before it. */
  function Origin(recs: seq<Sample>, start: int): int {
    if |recs| > 1 && recs[1].ts < start then recs[1].ts else start
  }

  /** How far the first n samples reach. */
  function Reach(recs: seq<Sample>, start: int, n: int): int
    requires 0 < n <= |recs|
  {
    Min(if n < |recs| then recs[n].ts else start + BLOCK_SECONDS, start + BLOCK_SECONDS)
  }

  lemma {:induction false} ConstantStretch(recs: seq<Sample>, a: int, m: int, b: int, i: int, side: Side)
    requires recs != [] && Sorted(recs) && a <= m <= b && 0 <= i < |recs|
    requires forall t :: m <= t < b ==> InForce(recs, t) == i
    ensures Integral(recs, a, b, side) == Integral(recs, a, m, side) + Held(Kw(recs[i], side), b - m)
    decreases b - m
  {
    if m < b {
      ConstantStretch(recs, a, m, b - 1, i, side);
      assert InForce(recs, b - 1) == i;
    }
  }

  lemma InForceIs(recs: seq<Sample>, t: int, i: int)
    requires Sorted(recs) && 0 <= i < |recs|
    requires i == 0 || recs[i].ts <= t
    requires i + 1 < |recs| ==> recs[i + 1].ts > t
    ensures InForce(recs, t) == i
  {
  }

  lemma FirstSegment(recs: seq<Sample>, start: int, side: Side)
    requires Sorted(recs) && recs != []
    ensures
      var reach := Reach(recs, start, 1);
      Weighted(recs, start, 1, side) == if reach < start then 0.0 else Integral(recs, start, reach, side)
  {
    var reach := Reach(recs, start, 1);
    if start <= reach {
      forall t | start <= t < reach
        ensures InForce(recs, t) == 0
      {
        InForceIs(recs, t, 0);
      }
      ConstantStretch(recs, start, start, reach, 0, side);
    }
  }

  lemma LaterSegment(recs: seq<Sample>, start: int, n: int, side: Side)
    requires Sorted(recs) && 1 < n <= |recs|
    ensures
      var origin, before, reach := Origin(recs, start), Reach(recs, start, n - 1), Reach(recs, start, n);
      && Weight(recs, start, n - 1) == reach - before
      && (origin <= before ==>
            Integral(recs, origin, reach, side) ==
            Integral(recs, origin, before, side) + Held(Kw(recs[n - 1], side), Weight(recs, start, n - 1)))
  {
    var origin, before, reach := Origin(recs, start), Reach(recs, start, n - 1), Reach(recs, start, n);
    if origin <= before {
      forall t | before <= t < reach
        ensures InForce(recs, t) == n - 1
      {
        InForceIs(recs, t, n - 1);
      }
      ConstantStretch(recs, origin, before, reach, n - 1, side);
    }
  }

  /** The first n segments integrate the step function from the origin to where they reach. */
  lemma {:induction false} SegmentsIntegrate(recs: seq<Sample>, start: int, n: int, side: Side)
    requires Sorted(recs) && 0 < n <= |recs|
    ensures
      var origin, reach := Origin(recs, start), Reach(recs, start, n);
      if n == 1 && reach < start then TotalWeight(recs, start, n) == 0 && Weighted(recs, start, n, side) == 0.0
      else
        && origin <= reach
        && TotalWeight(recs, start, n) == reach - origin
        && Weighted(recs, start, n, side) == Integral(recs, origin, reach, side)
    decreases n
  {
    var origin, reach := Origin(recs, start), Reach(recs, start, n);
    assert TotalWeight(recs, start, n) == TotalWeight(recs, start, n - 1) + Weight(recs, start, n - 1);
    if n == 1 {
      FirstSegment(recs, start, side);
    } else {
      SegmentsIntegrate(recs, start, n - 1, side);
      LaterSegment(recs, start, n, side);
    }
  }

  // ---------------------------------------------------------------- prices

  /** The last price carried by a sample that has weight, said without reference to the loop. */
  ghost predicate IsLastPrice(recs: seq<Sample>, start: int, n: int, side: Side, price: Option<real>)
    requires 0 <= n <= |recs|
  {
    match price
    case None => forall i :: 0 <= i < n && Weight(recs, start, i) > 0 ==> Price(recs[i], side).None?
    case Some(p) =>
      exists i :: 0 <= i < n && Weight(recs, start, i) > 0 && Price(recs[i], side) == Some(p)
        && forall j :: i < j < n && Weight(recs, start, j) > 0 ==> Price(recs[j], side).None?
  }

  function Or0(price: Option<real>): real {
    if price.Some? then price.value else 0.0
  }

  // ---------------------------------------------------------------- the block method

  lemma LastPriceStep(recs: seq<Sample>, start: int, n: int, side: Side, before: Option<real>)
    requires 0 <= n < |recs| && IsLastPrice(recs, start, n, side, before)
    ensures
      var price := Price(recs[n], side);
      IsLastPrice(recs, start, n + 1, side, if Weight(recs, start, n) > 0 && price.Some? then price else before)
  {
  }

  method Hold(kw: real, seconds: int) returns (product: real)
    requires seconds >= 0
    ensures product == Held(kw, seconds)
  {
    product := kw * seconds as real;
    HeldIsProduct(kw, seconds);
  }

  /** The block's loop over its samples. */
  method Accumulate(recs: seq<Sample>, start: int, side: Side) returns (weighted: real, total: int, price: Option<real>)
    requires Sorted(recs)
    ensures weighted == Weighted(recs, start, |recs|, side)
    ensures total == TotalWeight(recs, start, |recs|)
    ensures IsLastPrice(recs, start, |recs|, side, price)
  {
    var end := start + BLOCK_SECONDS;
    weighted, total, price := 0.0, 0, None;
    for i := 0 to |recs|
      invariant total == TotalWeight(recs, start, i)
      invariant weighted == Weighted(recs, start, i, side)
      invariant IsLastPrice(recs, start, i, side, price)
    {
      var rec := recs[i];
      var next := if i + 1 < |recs| then recs[i + 1].ts else end;
      var duration := Min(next, end) - (if i == 0 then start else rec.ts);
      assert duration == Duration(recs, start, i);
      LastPriceStep(recs, start, i, side, price);
      if duration > 0 {
        var held := Hold(Kw(rec, side), duration);
        weighted := weighted + held;
        total := total + duration;
        if Price(rec, side).Some? {
          price := Price(rec, side);
        }
      }
    }
  }

  lemma AverageTimesHours(weighted: real, total: real)
    requires total > 0.0
    ensures weighted / total * (total / 3600.0) == weighted / 3600.0
  {
  }

  /** The mean power over the weighted time; without any weight the first sample stands for five minutes. */
  method MeanEnergy(weighted: real, total: int, first: real) returns (kwh: real)
    ensures total > 0 ==> kwh == weighted / 3600.0
    ensures total <= 0 ==> kwh == first * (5.0 / 60.0)
  {
    if total > 0 {
      var average, hours := weighted / total as real, total as real / 3600.0;
      AverageTimesHours(weighted, total as real);
      kwh := average * hours;
    } else {
      kwh := first * (5.0 / 60.0);
    }
  }

  /** One side of one block of the daily summary: its energy is the integral over the seconds the samples reach. */
  method SummarizeBlock(recs: seq<Sample>, start: int, side: Side) returns (kwh: real, price: Option<real>, money: real)
    requires recs != [] && Sorted(recs)
    ensures kwh == Integral(recs, Origin(recs, start), start + BLOCK_SECONDS, side) / 3600.0
    ensures IsLastPrice(recs, start, |recs|, side, price)
    ensures money == kwh * Or0(price)
  {
    hide Integral, IsLastPrice;
    var weighted, total;
    weighted, total, price := Accumulate(recs, start, side);
    SegmentsIntegrate(recs, start, |recs|, side);
    kwh := MeanEnergy(weighted, total, Kw(recs[0], side));
    money := kwh * Or0(price);
  }

  // ---------------------------------------------------------------- what it means for a block

  /** The weights telescope to the block's 300 s exactly when no second sample lies before the block. */
  lemma WeightsFillTheBlock(recs: seq<Sample>, start: int)
    requires recs != [] && Sorted(recs)
    ensures TotalWeight(recs, start, |recs|) >= BLOCK_SECONDS
    ensures TotalWeight(recs, start, |recs|) == BLOCK_SECONDS <==> |recs| == 1 || recs[1].ts >= start
  {
    SegmentsIntegrate(recs, start, |recs|, Importing);
  }

  lemma {:induction false} IntegralIsBounded(recs: seq<Sample>, a: int, b: int, side: Side, lo: real, hi: real)
    requires recs != [] && a <= b
    requires forall i :: 0 <= i < |recs| ==> lo <= Kw(recs[i], side) <= hi
    ensures Held(lo, b - a) <= Integral(recs, a, b, side) <= Held(hi, b - a)
    decreases b - a
  {
    if a < b {
      IntegralIsBounded(recs, a, b - 1, side, lo, hi);
    }
  }

  /** A block whose samples all lie in it has an energy between its least and greatest power for five minutes. */
  lemma EnergyIsBounded(recs: seq<Sample>, start: int, side: Side, lo: real, hi: real)
    requires recs != [] && Sorted(recs) && recs[0].ts >= start
    requires forall i :: 0 <= i < |recs| ==> lo <= Kw(recs[i], side) <= hi
    ensures
      var kwh := Integral(recs, Origin(recs, start), start + BLOCK_SECONDS, side) / 3600.0;
      lo * (5.0 / 60.0) <= kwh <= hi * (5.0 / 60.0)
  {
    IntegralIsBounded(recs, start, start + BLOCK_SECONDS, side, lo, hi);
    HeldIsProduct(lo, BLOCK_SECONDS);
    HeldIsProduct(hi, BLOCK_SECONDS);
  }
}
