/** The bar-index axis: each of n timestamps occupies an equal share of the width. */
module SessionIndexAxis {
  import opened Wrappers

  datatype AxisError = InvalidWidth(px: real) | EmptyTimestamps

  datatype Axis = Axis(timestamps: seq<int>, width: real, pxPerBar: real)

  ghost predicate Fills(bars: real, px: real, width: real) { px > 0.0 && bars * px == width }

  /** What the constructor returns; that timestamps do not decrease is left to its callers. */
  ghost predicate Valid(a: Axis) {
    a.timestamps != [] && a.width > 0.0 && Fills(|a.timestamps| as real, a.pxPerBar, a.width)
  }

  ghost predicate Ascending(ts: seq<int>) { forall i, j | 0 <= i <= j < |ts| :: ts[i] <= ts[j] }

  function New(timestamps: seq<int>, width: real): (r: Result<Axis, AxisError>)
    ensures r.Ok? <==> width > 0.0 && timestamps != []
    ensures r.Ok? ==> Valid(r.value) && r.value.timestamps == timestamps && r.value.width == width
  {
    if width <= 0.0 then Err(InvalidWidth(width))
    else if timestamps == [] then Err(EmptyTimestamps)
    else Ok(Axis(timestamps, width, width / |timestamps| as real))
  }

  /** The first index whose timestamp is past `ts`, when they ascend. */
  function PartitionPoint(timestamps: seq<int>, ts: int): (r: nat)
    ensures r <= |timestamps| && (r > 0 ==> timestamps[r - 1] <= ts)
    ensures forall k | r <= k < |timestamps| :: ts < timestamps[k]
  {
    if timestamps == [] then 0
    else if timestamps[|timestamps| - 1] <= ts then |timestamps|
    else PartitionPoint(timestamps[..|timestamps| - 1], ts)
  }

  function IndexForTs(a: Axis, ts: int): nat
    requires a.timestamps != []
  {
    var n := |a.timestamps|;
    if ts < a.timestamps[0] then 0
    else if ts >= a.timestamps[n - 1] then n - 1
    else var idx := PartitionPoint(a.timestamps, ts); if idx == 0 then 0 else idx - 1
  }

  /** How far `ts` is from bar i to the next one. */
  function BarFraction(a: Axis, i: nat, ts: int): real
    requires i < |a.timestamps|
  {
    if i + 1 < |a.timestamps|
    then (ts - a.timestamps[i]) as real / Max((a.timestamps[i + 1] - a.timestamps[i]) as real, 1.0)
    else 0.0
  }

  function Position(a: Axis, ts: int): real
    requires a.timestamps != []
  {
    var i := IndexForTs(a, ts);
    i as real + BarFraction(a, i, ts)
  }

  function Pixels(place: real, px: real): real { place * px }

  function ToX(a: Axis, ts: int): real
    requires a.timestamps != []
  {
    if ts <= a.timestamps[0] then 0.0
    else if ts > a.timestamps[|a.timestamps| - 1] then a.width
    else Clamp(Pixels(Position(a, ts), a.pxPerBar), 0.0, a.width)
  }

  function Floor(x: real): (i: int)
    ensures i as real <= x < i as real + 1.0
  {
    x.Floor
  }

  /** The timestamp at a fractional bar index. */
  function AtIndex(a: Axis, position: real): int
    requires 0.0 <= position <= (|a.timestamps| - 1) as real
  {
    var i := Floor(position);
    if i + 1 < |a.timestamps|
    then a.timestamps[i] + Round((position - i as real) * (a.timestamps[i + 1] - a.timestamps[i]) as real)
    else a.timestamps[i]
  }

  function FromX(a: Axis, x: real): Option<int>
    requires Valid(a)
  {
    if x < 0.0 || x > a.width then None
    else Some(AtIndex(a, Clamp(x / a.pxPerBar, 0.0, (|a.timestamps| - 1) as real)))
  }

  // ---------------------------------------------------------------- order

  lemma {:induction false} UnitFraction(d: int, span: int)
    requires 0 <= d < span
    ensures 0.0 <= d as real / Max(span as real, 1.0) < 1.0
    ensures Round(d as real / Max(span as real, 1.0) * span as real) == d
  {
    assert d as real / span as real * span as real == d as real;
  }

  /** Within the series: the bar before `ts`, and a fraction that is not whole. */
  lemma {:induction false} Inside(a: Axis, ts: int) returns (i: nat, f: real)
    requires Ascending(a.timestamps) && a.timestamps != []
    requires a.timestamps[0] < ts <= a.timestamps[|a.timestamps| - 1]
    ensures i == IndexForTs(a, ts) && i < |a.timestamps| && a.timestamps[i] <= ts
    ensures f == BarFraction(a, i, ts) && Position(a, ts) == i as real + f && 0.0 <= f < 1.0
    ensures i + 1 < |a.timestamps| ==>
              ts < a.timestamps[i + 1]
              && Round(f * (a.timestamps[i + 1] - a.timestamps[i]) as real) == ts - a.timestamps[i]
    ensures i + 1 == |a.timestamps| ==> f == 0.0 && ts == a.timestamps[i]
  {
    i := IndexForTs(a, ts);
    f := BarFraction(a, i, ts);
    if i + 1 < |a.timestamps| {
      UnitFraction(ts - a.timestamps[i], a.timestamps[i + 1] - a.timestamps[i]);
    }
  }

  lemma {:induction false} PositionAscends(a: Axis, t: int, u: int)
    requires Ascending(a.timestamps) && a.timestamps != []
    requires a.timestamps[0] < t <= u <= a.timestamps[|a.timestamps| - 1]
    ensures 0.0 <= Position(a, t) <= Position(a, u) <= (|a.timestamps| - 1) as real
  {
    var i, f := Inside(a, t);
    var j, g := Inside(a, u);
    if i == j {
      if i + 1 < |a.timestamps| {
        DivideBelow((t - a.timestamps[i]) as real, (u - a.timestamps[i]) as real,
                  Max((a.timestamps[i + 1] - a.timestamps[i]) as real, 1.0));
      }
    }
  }

  lemma {:induction false} Scaled(x: real, y: real, k: real)
    requires 0.0 <= x <= y && k >= 0.0
    ensures 0.0 <= x * k <= y * k
  {
  }

  /** A place along the bars as a pixel, and back. */
  lemma {:induction false} PlaceToPixel(place: real, bars: real, px: real, width: real) returns (x: real)
    requires Fills(bars, px, width) && 0.0 <= place <= bars
    ensures x == Pixels(place, px) && 0.0 <= x <= width && x / px == place
  {
    x := place * px;
    Scaled(place, bars, px);
    Unscale(place, px);
  }

  lemma {:induction false} Unscale(x: real, k: real)
    requires k > 0.0
    ensures x * k / k == x
  {
  }

  /** The place of `ts` along the series: 0 before it, n past it. */
  function Place(a: Axis, ts: int): real
    requires a.timestamps != []
  {
    if ts <= a.timestamps[0] then 0.0
    else if ts > a.timestamps[|a.timestamps| - 1] then |a.timestamps| as real
    else Position(a, ts)
  }

  lemma {:induction false} PlaceAscends(a: Axis, t: int, u: int)
    requires Ascending(a.timestamps) && a.timestamps != [] && t <= u
    ensures 0.0 <= Place(a, t) <= Place(a, u) <= |a.timestamps| as real
  {
    if a.timestamps[0] < u <= a.timestamps[|a.timestamps| - 1] { PositionAscends(a, u, u); }
    if a.timestamps[0] < t <= a.timestamps[|a.timestamps| - 1] {
      PositionAscends(a, t, t);
      if u <= a.timestamps[|a.timestamps| - 1] { PositionAscends(a, t, u); }
    }
  }

  /** Where `ToX` puts a timestamp, as a place on the scale. */
  lemma {:induction false} ToXScales(a: Axis, ts: int) returns (place: real, x: real)
    requires Valid(a) && Ascending(a.timestamps)
    ensures place == Place(a, ts) && 0.0 <= place <= |a.timestamps| as real
    ensures x == ToX(a, ts) && x == Pixels(place, a.pxPerBar)
  {
    place := PlaceOf(a, ts);
    x := PlaceToPixel(place, |a.timestamps| as real, a.pxPerBar, a.width);
    PixelOfPlace(a, ts, place, x);
  }

  lemma {:induction false} PlaceOf(a: Axis, ts: int) returns (place: real)
    requires a.timestamps != [] && Ascending(a.timestamps)
    ensures place == Place(a, ts) && 0.0 <= place <= |a.timestamps| as real
  {
    place := Place(a, ts);
    PlaceAscends(a, ts, ts);
  }

  lemma {:induction false} PixelOfPlace(a: Axis, ts: int, place: real, x: real)
    requires a.timestamps != [] && place == Place(a, ts) && x == Pixels(place, a.pxPerBar) && 0.0 <= x <= a.width
    requires Pixels(|a.timestamps| as real, a.pxPerBar) == a.width
    ensures x == ToX(a, ts)
  {
  }

  lemma {:induction false} ClampAscends(p: real, q: real, px: real, width: real)
    requires 0.0 <= p <= q && px > 0.0 && width > 0.0
    ensures Clamp(Pixels(p, px), 0.0, width) <= Clamp(Pixels(q, px), 0.0, width)
  {
    Scaled(p, q, px);
  }

  lemma {:induction false} InsideAscends(a: Axis, t: int, u: int)
    requires Ascending(a.timestamps) && a.timestamps != [] && a.pxPerBar > 0.0 && a.width > 0.0
    requires a.timestamps[0] < t <= u <= a.timestamps[|a.timestamps| - 1]
    ensures ToX(a, t) <= ToX(a, u)
  {
    PositionAscends(a, t, u);
    ClampAscends(Position(a, t), Position(a, u), a.pxPerBar, a.width);
  }

  /** The index axis never runs backwards. */
  lemma {:induction false} ToXIsMonotone(a: Axis, t: int, u: int)
    requires Valid(a) && Ascending(a.timestamps) && t <= u
    ensures 0.0 <= ToX(a, t) <= ToX(a, u) <= a.width
  {
    if a.timestamps[0] < t && u <= a.timestamps[|a.timestamps| - 1] { InsideAscends(a, t, u); }
  }

  // ---------------------------------------------------------------- round trip

  lemma {:induction false} AtIndexOf(a: Axis, i: nat, f: real)
    requires i < |a.timestamps| && 0.0 <= f < 1.0 && (i + 1 == |a.timestamps| ==> f == 0.0)
    ensures AtIndex(a, i as real + f) ==
            if i + 1 < |a.timestamps| then a.timestamps[i] + Round(f * (a.timestamps[i + 1] - a.timestamps[i]) as real)
            else a.timestamps[i]
  {
    assert Floor(i as real + f) == i;
    assert (i as real + f) - i as real == f;
  }

  lemma {:induction false} FromXOf(a: Axis, place: real)
    requires Valid(a) && 0.0 <= place <= |a.timestamps| as real
    ensures FromX(a, Pixels(place, a.pxPerBar)) == Some(AtIndex(a, Clamp(place, 0.0, (|a.timestamps| - 1) as real)))
  {
    var x := PlaceToPixel(place, |a.timestamps| as real, a.pxPerBar, a.width);
  }

  lemma {:induction false} AtPlace(a: Axis, ts: int)
    requires Ascending(a.timestamps) && a.timestamps != [] && 0.0 <= Place(a, ts)
    ensures var first, last := a.timestamps[0], a.timestamps[|a.timestamps| - 1];
            AtIndex(a, Clamp(Place(a, ts), 0.0, (|a.timestamps| - 1) as real))
            == if ts < first then first else if ts > last then last else ts
  {
    var n := |a.timestamps|;
    if ts <= a.timestamps[0] {
      AtIndexOf(a, 0, 0.0);
    } else if ts > a.timestamps[n - 1] {
      AtIndexOf(a, n - 1, 0.0);
    } else {
      var i, f := Inside(a, ts);
      PositionAscends(a, ts, ts);
      AtIndexOf(a, i, f);
    }
  }

  /** Every timestamp comes back as itself, clamped to the series. */
  lemma {:induction false} RoundTrip(a: Axis, ts: int)
    requires Valid(a) && Ascending(a.timestamps)
    ensures var first, last := a.timestamps[0], a.timestamps[|a.timestamps| - 1];
            FromX(a, ToX(a, ts)) == Some(if ts < first then first else if ts > last then last else ts)
  {
    var place, x := ToXScales(a, ts);
    FromXOf(a, place);
    AtPlace(a, ts);
  }
}
