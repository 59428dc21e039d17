/**
 The session-compressed time axis: open time is laid side by side over the viewport, closed time
 collapses to a gap of fixed pixel width. Timestamps are nanoseconds; pixels are exact reals.
 */
module CompressedAxis {
  import opened Wrappers

  const NANOS_PER_SEC := 1_000_000_000

  /** The machine epsilon of a single-precision float: the least pixel width a session is divided by. */
  const EPSILON: real := 1.0 / 8388608.0

  datatype Session = Session(open: int, close: int) {
    /** Whole seconds, truncated, never negative. */
    function Seconds(): nat { if close > open then (close - open) / NANOS_PER_SEC else 0 }

    /** The divisor of a position inside the session. */
    function Nanos(): int { if close > open then close - open else 1 }
  }

  datatype AxisError = InvalidWidth(px: real) | UnsortedSessions

  datatype Axis = Axis(sessions: seq<Session>, starts: seq<real>, ends: seq<real>, width: real, gap: real)

  datatype Direction = Nearest | Forward | Backward

  predicate Follows(s: Session, next: Session) { s.close <= next.open && s.open <= next.open }

  ghost predicate Consecutive(ss: seq<Session>) { forall i | 0 < i < |ss| :: Follows(ss[i - 1], ss[i]) }

  /** What a calendar produces: consecutive sessions that do not close before they open. */
  ghost predicate Calendar(ss: seq<Session>) {
    Consecutive(ss) && forall i | 0 <= i < |ss| :: ss[i].open <= ss[i].close
  }

  function TotalSecs(ss: seq<Session>): nat {
    if ss == [] then 0 else TotalSecs(ss[..|ss| - 1]) + ss[|ss| - 1].Seconds()
  }

  function PxPerSec(ss: seq<Session>, width: real, gap: real): real {
    if TotalSecs(ss) > 0 then Max(width - gap * (|ss| - 1) as real, 0.0) / TotalSecs(ss) as real else 0.0
  }

  /** The left edge of session i: the open time before it, plus i gaps. */
  function Offset(ss: seq<Session>, i: nat, px: real, gap: real): real
    requires i <= |ss|
  {
    TotalSecs(ss[..i]) as real * px + i as real * gap
  }

  function Span(s: Session, px: real): real { s.Seconds() as real * px }

  ghost predicate EdgesAt(ss: seq<Session>, i: nat, px: real, gap: real, start: real, end: real)
    requires i < |ss|
  {
    start == Offset(ss, i, px, gap) && end == start + Span(ss[i], px)
  }

  /** The layout that the constructor computes, edge by edge; the last right edge is snapped to the width. */
  ghost predicate LaidOut(a: Axis) {
    var n := |a.sessions|; var px := PxPerSec(a.sessions, a.width, a.gap);
    && a.width > 0.0 && a.gap >= 0.0 && Consecutive(a.sessions)
    && |a.starts| == n && |a.ends| == n
    && (forall i | 0 <= i < n - 1 :: EdgesAt(a.sessions, i, px, a.gap, a.starts[i], a.ends[i]))
    && (n > 0 ==> a.starts[n - 1] == Offset(a.sessions, n - 1, px, a.gap) && a.ends[n - 1] == a.width)
  }

  // ---------------------------------------------------------------- construction

  lemma {:induction false} OffsetStep(ss: seq<Session>, i: nat, px: real, gap: real)
    requires i < |ss|
    ensures Offset(ss, i + 1, px, gap) == Offset(ss, i, px, gap) + Span(ss[i], px) + gap
  {
    assert ss[..i + 1][..i] == ss[..i];
    var before, secs := TotalSecs(ss[..i]) as real, ss[i].Seconds() as real;
    assert TotalSecs(ss[..i + 1]) as real == before + secs;
    Distribute(before, secs, px);
    Distribute(i as real, 1.0, gap);
  }

  lemma {:induction false} OffsetZero(ss: seq<Session>, px: real, gap: real)
    ensures Offset(ss, 0, px, gap) == 0.0
  {
  }

  method SumSeconds(ss: seq<Session>) returns (durations: seq<nat>, total: nat)
    ensures |durations| == |ss| && forall i | 0 <= i < |ss| :: durations[i] == ss[i].Seconds()
    ensures total == TotalSecs(ss)
  {
    durations, total := [], 0;
    for i := 0 to |ss|
      invariant |durations| == i && forall k | 0 <= k < i :: durations[k] == ss[k].Seconds()
      invariant total == TotalSecs(ss[..i])
    {
      assert ss[..i + 1][..i] == ss[..i];
      durations, total := durations + [ss[i].Seconds()], total + ss[i].Seconds();
    }
    assert ss[..|ss|] == ss;
  }

  /** The edges by a running cursor; the last right edge is snapped to the width. */
  method Edges(ss: seq<Session>, durations: seq<nat>, px: real, gap: real, width: real)
    returns (starts: seq<real>, ends: seq<real>)
    requires |durations| == |ss| > 0 && forall i | 0 <= i < |ss| :: durations[i] == ss[i].Seconds()
    ensures |starts| == |ss| == |ends|
    ensures forall i | 0 <= i < |ss| - 1 :: EdgesAt(ss, i, px, gap, starts[i], ends[i])
    ensures starts[|ss| - 1] == Offset(ss, |ss| - 1, px, gap) && ends[|ss| - 1] == width
  {
    starts, ends := [], [];
    var cursor := 0.0;
    OffsetZero(ss, px, gap);
    for i := 0 to |ss|
      invariant |starts| == i == |ends|
      invariant forall k | 0 <= k < i :: EdgesAt(ss, k, px, gap, starts[k], ends[k])
      invariant i < |ss| ==> cursor == Offset(ss, i, px, gap)
    {
      var pixels := durations[i] as real * px;
      assert pixels == Span(ss[i], px);
      assert EdgesAt(ss, i, px, gap, cursor, cursor + pixels);
      starts, ends := starts + [cursor], ends + [cursor + pixels];
      cursor := cursor + pixels;
      if i + 1 < |ss| {
        OffsetStep(ss, i, px, gap);
        cursor := cursor + gap;
      }
    }
    assert EdgesAt(ss, |ss| - 1, px, gap, starts[|ss| - 1], ends[|ss| - 1]);
    ends := ends[|ss| - 1 := width];
  }

  method New(ss: seq<Session>, width: real, gap: real) returns (r: Result<Axis, AxisError>)
    ensures width <= 0.0 ==> r == Err(InvalidWidth(width))
    ensures width > 0.0 && gap < 0.0 ==> r == Err(InvalidWidth(gap))
    ensures width > 0.0 && gap >= 0.0 && !Consecutive(ss) ==> r == Err(UnsortedSessions)
    ensures width > 0.0 && gap >= 0.0 && Consecutive(ss) ==>
              r.Ok? && LaidOut(r.value) && (r.value.sessions, r.value.width, r.value.gap) == (ss, width, gap)
  {
    if width <= 0.0 { return Err(InvalidWidth(width)); }
    if gap < 0.0 { return Err(InvalidWidth(gap)); }
    var i := 1;
    while i < |ss|
      invariant i >= 1 && forall k | 0 < k < i && k < |ss| :: Follows(ss[k - 1], ss[k])
    {
      if ss[i - 1].close > ss[i].open || ss[i - 1].open > ss[i].open { return Err(UnsortedSessions); }
      i := i + 1;
    }
    if ss == [] { return Ok(Axis([], [], [], width, gap)); }
    var sessionPixels := Max(width - gap * (|ss| - 1) as real, 0.0);
    var durations, total := SumSeconds(ss);
    var px := if total > 0 then sessionPixels / total as real else 0.0;
    var starts, ends := Edges(ss, durations, px, gap, width);
    r := Ok(Axis(ss, starts, ends, width, gap));
  }

  // ---------------------------------------------------------------- which session

  /** Past the last session that opens at or before `ts`. */
  function Opened(ss: seq<Session>, ts: int): (r: nat)
    ensures r <= |ss| && (r > 0 ==> ss[r - 1].open <= ts) && forall k | r <= k < |ss| :: ts < ss[k].open
  {
    if ss == [] then 0 else if ss[|ss| - 1].open <= ts then |ss| else Opened(ss[..|ss| - 1], ts)
  }

  /** Past the last session whose left edge is at or before `x`. */
  function Begun(starts: seq<real>, x: real): (r: nat)
    ensures r <= |starts| && (r > 0 ==> starts[r - 1] <= x) && forall k | r <= k < |starts| :: x < starts[k]
  {
    if starts == [] then 0 else if starts[|starts| - 1] <= x then |starts| else Begun(starts[..|starts| - 1], x)
  }

  /** `ts` is both the open of session i and the close of the one before it. */
  predicate Touches(ss: seq<Session>, i: nat, ts: int) {
    0 < i < |ss| && ss[i].open == ts && ss[i - 1].close == ts
  }

  /** Ok: the session that owns `ts`. Err: the session after the closed time that `ts` is in. */
  function FindForTs(ss: seq<Session>, ts: int): Result<nat, nat> {
    var u := Opened(ss, ts);
    if u == 0 then Err(0)
    else if Touches(ss, u - 1, ts) then Ok(u - 2)
    else if ts <= ss[u - 1].close then Ok(u - 1) else Err(u)
  }

  function FindForX(a: Axis, x: real): Result<nat, nat>
    requires |a.starts| == |a.ends| == |a.sessions|
  {
    if a.starts == [] || x < a.starts[0] then Err(0)
    else
      var u := Begun(a.starts, x);
      var idx := if u == 0 then 0 else u - 1;
      if x <= a.ends[idx] then Ok(idx) else Err(idx + 1)
  }

  /** The binary search finds the session of the linear definition. */
  method FindSessionForTs(ss: seq<Session>, ts: int) returns (r: Result<nat, nat>)
    requires Consecutive(ss)
    ensures r == FindForTs(ss, ts)
  {
    OpensAscend(ss);
    if ss == [] || ts < ss[0].open {
      return Err(0);
    }
    var lo, hi := 0, |ss|;
    while lo < hi
      invariant lo <= hi <= |ss|
      invariant lo > 0 ==> ss[lo - 1].open <= ts
      invariant forall k | hi <= k < |ss| :: ts < ss[k].open
    {
      var mid := (lo + hi) / 2;
      if ss[mid].open <= ts { lo := mid + 1; } else { hi := mid; }
    }
    var idx := lo - 1;
    assert lo == Opened(ss, ts);
    if idx > 0 && ss[idx].open == ts && ss[idx - 1].close == ts { return Ok(idx - 1); }
    if ts <= ss[idx].close { return Ok(idx); }
    return if idx + 1 < |ss| then Err(idx + 1) else Err(|ss|);
  }

  lemma {:induction false} OpensAscend(ss: seq<Session>)
    requires Consecutive(ss)
    ensures forall i, j | 0 <= i <= j < |ss| :: ss[i].open <= ss[j].open
  {
    forall i, j | 0 <= i <= j < |ss| ensures ss[i].open <= ss[j].open { OpenAscends(ss, i, j); }
  }

  lemma {:induction false} OpenAscends(ss: seq<Session>, i: nat, j: nat)
    requires Consecutive(ss) && i <= j < |ss|
    ensures ss[i].open <= ss[j].open
    decreases j
  {
    if i < j { OpenAscends(ss, i, j - 1); assert Follows(ss[j - 1], ss[j]); }
  }

  // ---------------------------------------------------------------- projection

  /** How far through session i `ts` is, from 0 to 1. */
  function Fraction(s: Session, ts: int): real { Clamp((ts - s.open) as real / s.Nanos() as real, 0.0, 1.0) }

  function Project(a: Axis, i: nat, ts: int): real
    requires i < |a.sessions| && |a.starts| == |a.ends| == |a.sessions|
  {
    a.starts[i] + (a.ends[i] - a.starts[i]) * Fraction(a.sessions[i], ts)
  }

  function XFraction(a: Axis, i: nat, x: real): real
    requires i < |a.sessions| && |a.starts| == |a.ends| == |a.sessions|
  {
    Clamp((x - a.starts[i]) / Max(a.ends[i] - a.starts[i], EPSILON), 0.0, 1.0)
  }

  function Unproject(a: Axis, i: nat, x: real): int
    requires i < |a.sessions| && |a.starts| == |a.ends| == |a.sessions|
  {
    a.sessions[i].open + Round(XFraction(a, i, x) * a.sessions[i].Nanos() as real)
  }

  function ToX(a: Axis, ts: int): real
    requires |a.starts| == |a.ends| == |a.sessions|
  {
    if a.sessions == [] then 0.0
    else match FindForTs(a.sessions, ts)
         case Ok(i) => Project(a, i, ts)
         case Err(next) => if next == 0 then 0.0 else if next == |a.sessions| then a.width else a.ends[next - 1]
  }

  function FromX(a: Axis, x: real): Option<int>
    requires |a.starts| == |a.ends| == |a.sessions|
  {
    if x < 0.0 || x > a.width || a.sessions == [] then None
    else match FindForX(a, x)
         case Ok(i) => Some(Unproject(a, i, x))
         case Err(_) => None
  }

  /** Always a timestamp, and whether it had to be snapped to a session edge or to the viewport. */
  function FromXSnapped(a: Axis, x: real, dir: Direction): (int, bool)
    requires |a.starts| == |a.ends| == |a.sessions|
  {
    if a.sessions == [] then (0, true)
    else
      var clamped := Clamp(x, 0.0, a.width);
      match FindForX(a, clamped)
      case Ok(i) => (Unproject(a, i, clamped), x < 0.0 || x > a.width)
      case Err(next) =>
        if next == 0 then (a.sessions[0].open, true)
        else if next == |a.sessions| then (a.sessions[next - 1].close, true)
        else
          var back := match dir
                      case Forward => false
                      case Backward => true
                      case Nearest => Abs(clamped - a.ends[next - 1]) <= Abs(a.starts[next] - clamped);
          (if back then a.sessions[next - 1].close else a.sessions[next].open, true)
  }
}
