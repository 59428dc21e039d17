/** What the compressed axis keeps: order, round trips, and the meaning of its searches. */
module CompressedAxisLaws {
  import opened Wrappers
  import opened CompressedAxis

  // ---------------------------------------------------------------- the layout

  lemma {:induction false} PxNonNeg(ss: seq<Session>, width: real, gap: real)
    ensures PxPerSec(ss, width, gap) >= 0.0
  {
  }

  /** A part of a whole, of either sign, falls short of it. */
  lemma {:induction false} PartOf(k: real, f: real) returns (p: real)
    requires f < 1.0
    ensures p == k * f && (k > 0.0 ==> p < k) && (k < 0.0 ==> p > k)
  {
    p := k * f;
    if k > 0.0 { StrictProduct(k, 1.0 - f); }
    if k < 0.0 { StrictProduct(-k, 1.0 - f); }
  }

  lemma {:induction false} SpanNonNeg(s: Session, px: real)
    requires px >= 0.0
    ensures Span(s, px) >= 0.0
  {
    Product(s.Seconds() as real, px);
  }

  /** Every left edge is on the right side of zero, and sessions are laid out from left to right. */
  ghost predicate EdgesOrdered(a: Axis)
    requires |a.starts| == |a.ends| == |a.sessions|
  {
    && (forall i | 0 <= i < |a.sessions| :: 0.0 <= a.starts[i])
    && (forall i | 0 <= i < |a.sessions| - 1 :: a.starts[i] <= a.ends[i] && a.starts[i + 1] == a.ends[i] + a.gap)
    && (forall i, j | 0 <= i < j < |a.sessions| :: a.ends[i] <= a.starts[j])
  }

  lemma {:induction false} NextEdge(a: Axis, i: nat)
    requires LaidOut(a) && i + 1 < |a.sessions|
    ensures a.starts[i] <= a.ends[i] && a.starts[i + 1] == a.ends[i] + a.gap
  {
    var px := PxPerSec(a.sessions, a.width, a.gap);
    PxNonNeg(a.sessions, a.width, a.gap);
    SpanNonNeg(a.sessions[i], px);
    OffsetStep(a.sessions, i, px, a.gap);
    assert EdgesAt(a.sessions, i, px, a.gap, a.starts[i], a.ends[i]);
    assert i + 1 < |a.sessions| - 1 ==> EdgesAt(a.sessions, i + 1, px, a.gap, a.starts[i + 1], a.ends[i + 1]);
  }

  lemma {:induction false} EdgesAscend(a: Axis, i: nat, j: nat)
    requires LaidOut(a) && i < j < |a.sessions|
    ensures a.ends[i] <= a.starts[j]
    decreases j
  {
    NextEdge(a, j - 1);
    if i < j - 1 { EdgesAscend(a, i, j - 1); }
  }

  lemma {:induction false} FirstStart(a: Axis)
    requires LaidOut(a) && a.sessions != []
    ensures a.starts[0] == 0.0
  {
    var px := PxPerSec(a.sessions, a.width, a.gap);
    OffsetZero(a.sessions, px, a.gap);
    assert |a.sessions| > 1 ==> EdgesAt(a.sessions, 0, px, a.gap, a.starts[0], a.ends[0]);
  }

  lemma {:induction false} LayoutIsOrdered(a: Axis)
    requires LaidOut(a)
    ensures EdgesOrdered(a) && (a.sessions != [] ==> a.starts[0] == 0.0)
  {
    if a.sessions != [] { FirstStart(a); }
    forall i | 0 <= i < |a.sessions| - 1
      ensures a.starts[i] <= a.ends[i] && a.starts[i + 1] == a.ends[i] + a.gap
    {
      NextEdge(a, i);
    }
    forall i, j | 0 <= i < j < |a.sessions| ensures a.ends[i] <= a.starts[j] { EdgesAscend(a, i, j); }
    forall i | 0 <= i < |a.sessions| ensures 0.0 <= a.starts[i] { if i > 0 { EdgesAscend(a, 0, i); } }
  }

  /** The whole seconds that a session lasts. */
  predicate Lasts(s: Session, seconds: nat) {
    if s.close > s.open
    then seconds * 1_000_000_000 <= s.close - s.open < (seconds + 1) * 1_000_000_000
    else seconds == 0
  }

  lemma {:induction false} LastsIs(s: Session, seconds: nat)
    requires Lasts(s, seconds)
    ensures s.Seconds() == seconds
  {
  }

  function DrawnWidth(a: Axis, i: nat): real
    requires i < |a.starts| && i < |a.ends|
  {
    a.ends[i] - a.starts[i]
  }

  predicate IsTimes(x: real, m: real, px: real) { x == m * px }

  lemma {:induction false} DrawnWidthIs(a: Axis, i: nat, seconds: nat, px: real)
    requires LaidOut(a) && i < |a.sessions| - 1 && Lasts(a.sessions[i], seconds)
    requires px == PxPerSec(a.sessions, a.width, a.gap)
    ensures IsTimes(DrawnWidth(a, i), seconds as real, px)
  {
    LastsIs(a.sessions[i], seconds);
    assert EdgesAt(a.sessions, i, px, a.gap, a.starts[i], a.ends[i]);
  }

  /** x is to m as y is to n. */
  predicate InProportion(x: real, m: real, y: real, n: real) { x * n == y * m }

  /** Sessions other than the last are drawn as wide, in proportion, as the whole seconds they last. */
  lemma {:induction false} DrawnInProportion(a: Axis, i: nat, j: nat, m: nat, n: nat)
    requires LaidOut(a) && i < |a.sessions| - 1 && j < |a.sessions| - 1
    requires Lasts(a.sessions[i], m) && Lasts(a.sessions[j], n)
    ensures InProportion(DrawnWidth(a, i), m as real, DrawnWidth(a, j), n as real)
  {
    var px := PxPerSec(a.sessions, a.width, a.gap);
    DrawnWidthIs(a, i, m, px);
    DrawnWidthIs(a, j, n, px);
    CrossMultiply(m as real, n as real, px, DrawnWidth(a, i), DrawnWidth(a, j));
  }

  lemma {:induction false} CrossMultiply(m: real, n: real, px: real, x: real, y: real)
    requires IsTimes(x, m, px) && IsTimes(y, n, px)
    ensures InProportion(x, m, y, n)
  {
    assert x * n == m * n * px;
  }

  lemma {:induction false} PartBelowTotal(ss: seq<Session>)
    requires ss != []
    ensures TotalSecs(ss[..|ss| - 1]) <= TotalSecs(ss)
  {
  }

  lemma {:induction false} Undivide(x: real, n: real)
    requires n > 0.0
    ensures n * (x / n) == x
  {
  }

  lemma {:induction false} PxZero(ss: seq<Session>, width: real, gap: real, gaps: real)
    requires gaps == gap * (|ss| - 1) as real && gaps >= width
    ensures PxPerSec(ss, width, gap) == 0.0
  {
  }

  lemma {:induction false} PxTotal(ss: seq<Session>, width: real, gap: real, gaps: real)
    requires gaps == gap * (|ss| - 1) as real && gaps <= width
    ensures TotalSecs(ss) as real * PxPerSec(ss, width, gap) <= width - gaps
  {
    if TotalSecs(ss) > 0 { Undivide(width - gaps, TotalSecs(ss) as real); }
  }

  lemma {:induction false} StartFits(start: real, before: real, total: real, px: real, gaps: real, width: real)
    requires start == before * px + gaps && 0.0 <= before <= total && px >= 0.0
    requires if gaps <= width then total * px <= width - gaps else px == 0.0
    ensures start <= width <==> gaps <= width
  {
    if gaps <= width { ScaleBelow(before, total, px); }
  }

  lemma {:induction false} ScaleFits(ss: seq<Session>, width: real, gap: real, gaps: real)
    returns (px: real, before: real, total: real)
    requires ss != [] && gaps == gap * (|ss| - 1) as real
    ensures px == PxPerSec(ss, width, gap) && before == TotalSecs(ss[..|ss| - 1]) as real
    ensures 0.0 <= before <= total && px >= 0.0
    ensures if gaps <= width then total * px <= width - gaps else px == 0.0
  {
    PartBelowTotal(ss);
    PxNonNeg(ss, width, gap);
    px, before, total := PxPerSec(ss, width, gap), TotalSecs(ss[..|ss| - 1]) as real, TotalSecs(ss) as real;
    if gaps <= width { PxTotal(ss, width, gap, gaps); } else { PxZero(ss, width, gap, gaps); }
  }

  lemma {:induction false} LastOffset(a: Axis, px: real, before: real, gaps: real)
    requires LaidOut(a) && a.sessions != []
    requires px == PxPerSec(a.sessions, a.width, a.gap) && before == TotalSecs(a.sessions[..|a.sessions| - 1]) as real
    requires gaps == a.gap * (|a.sessions| - 1) as real
    ensures a.starts[|a.sessions| - 1] == before * px + gaps
  {
  }

  /** The last session starts within the viewport exactly when the gaps leave room for it. */
  lemma {:induction false} LastStartFits(a: Axis)
    requires LaidOut(a) && a.sessions != []
    ensures a.starts[|a.sessions| - 1] <= a.width <==> a.gap * (|a.sessions| - 1) as real <= a.width
  {
    var gaps := a.gap * (|a.sessions| - 1) as real;
    var px, before, total := ScaleFits(a.sessions, a.width, a.gap, gaps);
    LastOffset(a, px, before, gaps);
    StartFits(a.starts[|a.sessions| - 1], before, total, px, gaps, a.width);
  }

  // ---------------------------------------------------------------- positions inside a session

  lemma {:induction false} Lerp(lo: real, hi: real, f: real)
    requires lo <= hi && 0.0 <= f <= 1.0
    ensures lo <= lo + (hi - lo) * f <= hi
  {
    ScaleBelow(f, 1.0, hi - lo);
    Product(hi - lo, f);
  }

  lemma {:induction false} LerpAscends(lo: real, hi: real, f: real, g: real)
    requires lo <= hi && f <= g
    ensures lo + (hi - lo) * f <= lo + (hi - lo) * g
  {
    ScaleBelow(f, g, hi - lo);
  }

  lemma {:induction false} FractionAscends(s: Session, t: int, u: int)
    requires t <= u
    ensures 0.0 <= Fraction(s, t) <= Fraction(s, u) <= 1.0
  {
    DivideBelow((t - s.open) as real, (u - s.open) as real, s.Nanos() as real);
  }

  lemma {:induction false} DivideOne(x: real, n: real)
    requires n > 0.0
    ensures x >= n ==> x / n >= 1.0
    ensures 0.0 <= x < n ==> 0.0 <= x / n < 1.0
    ensures x == n ==> x / n == 1.0
  {
    if x >= n { DivideBelow(n, x, n); }
  }

  lemma {:induction false} FractionEnds(s: Session, ts: int)
    ensures ts - s.open >= s.Nanos() ==> Fraction(s, ts) == 1.0
    ensures ts == s.open ==> Fraction(s, ts) == 0.0
    ensures 0 <= ts - s.open < s.Nanos() ==>
              0.0 <= Fraction(s, ts) < 1.0 && Fraction(s, ts) == (ts - s.open) as real / s.Nanos() as real
  {
    DivideOne((ts - s.open) as real, s.Nanos() as real);
  }

  ghost predicate Upright(a: Axis, i: nat)
    requires i < |a.sessions| && |a.starts| == |a.ends| == |a.sessions|
  {
    a.starts[i] <= a.ends[i]
  }

  lemma {:induction false} ProjectAscends(a: Axis, i: nat, t: int, u: int)
    requires i < |a.sessions| && |a.starts| == |a.ends| == |a.sessions| && Upright(a, i) && t <= u
    ensures a.starts[i] <= Project(a, i, t) <= Project(a, i, u) <= a.ends[i]
  {
    FractionAscends(a.sessions[i], t, u);
    var f, g := Fraction(a.sessions[i], t), Fraction(a.sessions[i], u);
    Lerp(a.starts[i], a.ends[i], f);
    Lerp(a.starts[i], a.ends[i], g);
    LerpAscends(a.starts[i], a.ends[i], f, g);
    ProjectIs(a, i, t, f);
    ProjectIs(a, i, u, g);
  }

  lemma {:induction false} ProjectIs(a: Axis, i: nat, ts: int, f: real)
    requires i < |a.sessions| && |a.starts| == |a.ends| == |a.sessions| && f == Fraction(a.sessions[i], ts)
    ensures Project(a, i, ts) == a.starts[i] + (a.ends[i] - a.starts[i]) * f
  {
  }

  lemma {:induction false} ProjectEnds(a: Axis, i: nat, ts: int)
    requires i < |a.sessions| && |a.starts| == |a.ends| == |a.sessions|
    ensures ts - a.sessions[i].open >= a.sessions[i].Nanos() ==> Project(a, i, ts) == a.ends[i]
    ensures ts == a.sessions[i].open ==> Project(a, i, ts) == a.starts[i]
  {
    FractionEnds(a.sessions[i], ts);
    var gapless := a.ends[i] - a.starts[i];
    assert gapless * 1.0 == gapless && gapless * 0.0 == 0.0;
  }

  // ---------------------------------------------------------------- order

  /** The session that places `ts`: the last one opened, or the one before when `ts` is their common edge. */
  function Owner(ss: seq<Session>, ts: int): nat
    requires Opened(ss, ts) > 0
  {
    var u := Opened(ss, ts);
    if Touches(ss, u - 1, ts) then u - 2 else u - 1
  }

  lemma {:induction false} ToXByOwner(a: Axis, ts: int)
    requires LaidOut(a) && Calendar(a.sessions) && a.sessions != []
    ensures ToX(a, ts) == if Opened(a.sessions, ts) == 0 then 0.0 else Project(a, Owner(a.sessions, ts), ts)
  {
    var u := Opened(a.sessions, ts);
    if u > 0 && !Touches(a.sessions, u - 1, ts) {
      ProjectEnds(a, u - 1, ts);
    }
  }

  lemma {:induction false} OpenedAscends(ss: seq<Session>, t: int, u: int)
    requires Consecutive(ss) && t <= u
    ensures Opened(ss, t) <= Opened(ss, u)
  {
    OpensAscend(ss);
  }

  lemma {:induction false} SameOrLaterOwner(ss: seq<Session>, t: int, u: int)
    requires Consecutive(ss) && t <= u && Opened(ss, t) > 0
    ensures 0 < Opened(ss, u) && Owner(ss, t) <= Owner(ss, u)
  {
    OpenedAscends(ss, t, u);
  }

  lemma {:induction false} FittingSessions(a: Axis, i: nat)
    requires LaidOut(a) && i < |a.sessions| && a.gap * (|a.sessions| - 1) as real <= a.width
    ensures Upright(a, i) && a.starts[i] >= 0.0
  {
    LayoutIsOrdered(a);
    LastStartFits(a);
  }

  lemma {:induction false} OwnersAscend(a: Axis, i: nat, j: nat, t: int, u: int)
    requires LaidOut(a) && i <= j < |a.sessions| && a.gap * (|a.sessions| - 1) as real <= a.width && t <= u
    ensures 0.0 <= Project(a, i, t) <= Project(a, j, u)
  {
    FittingSessions(a, i);
    FittingSessions(a, j);
    ProjectAscends(a, i, t, u);
    if i < j {
      EdgesAscend(a, i, j);
      ProjectAscends(a, j, t, u);
    }
  }

  lemma {:induction false} ToXAscends(a: Axis, t: int, u: int)
    requires LaidOut(a) && Calendar(a.sessions) && a.sessions != [] && t <= u
    requires a.gap * (|a.sessions| - 1) as real <= a.width
    ensures ToX(a, t) <= ToX(a, u)
  {
    ToXByOwner(a, t);
    ToXByOwner(a, u);
    if Opened(a.sessions, t) > 0 {
      SameOrLaterOwner(a.sessions, t, u);
      OwnersAscend(a, Owner(a.sessions, t), Owner(a.sessions, u), t, u);
    } else if Opened(a.sessions, u) > 0 {
      OwnersAscend(a, Owner(a.sessions, u), Owner(a.sessions, u), u, u);
    }
  }

  lemma {:induction false} Retreats(start: real, width: real, f: real)
    requires start > width && 0.0 <= f < 1.0
    ensures start + (width - start) * f > width
  {
    var p := PartOf(width - start, f);
    assert start + p > width;
  }

  lemma {:induction false} ProjectRetreats(a: Axis, i: nat, ts: int)
    requires |a.starts| == |a.ends| == |a.sessions| && i < |a.sessions| && a.starts[i] > a.ends[i]
    requires 0 <= ts - a.sessions[i].open < a.sessions[i].Nanos()
    ensures Project(a, i, ts) > a.ends[i]
  {
    FractionEnds(a.sessions[i], ts);
    Retreats(a.starts[i], a.ends[i], Fraction(a.sessions[i], ts));
  }

  lemma {:induction false} LastOwner(a: Axis, ts: int)
    requires LaidOut(a) && Calendar(a.sessions) && a.sessions != [] && a.sessions[|a.sessions| - 1].open < ts
    ensures ToX(a, ts) == Project(a, |a.sessions| - 1, ts)
  {
    ToXByOwner(a, ts);
  }

  /** With the gaps wider than the viewport, the axis runs backwards across the end of its last session. */
  lemma {:induction false} ToXRetreats(a: Axis) returns (t: int, u: int)
    requires LaidOut(a) && Calendar(a.sessions) && a.sessions != []
    requires var last := a.sessions[|a.sessions| - 1]; last.close - last.open >= 2
    requires a.gap * (|a.sessions| - 1) as real > a.width
    ensures t <= u && ToX(a, t) > ToX(a, u)
  {
    var i := |a.sessions| - 1;
    t, u := a.sessions[i].open + 1, a.sessions[i].close;
    LastStartFits(a);
    LastOwner(a, t);
    LastOwner(a, u);
    ProjectRetreats(a, i, t);
    ProjectEnds(a, i, u);
  }

  // ---------------------------------------------------------------- gaps wider than the viewport

  /** The last session touches the one before it and is over within a nanosecond: only its close is drawn. */
  predicate LastHidden(ss: seq<Session>) {
    |ss| >= 2 && ss[|ss| - 2].close == ss[|ss| - 1].open && ss[|ss| - 1].close <= ss[|ss| - 1].open + 1
  }

  function Multiple(i: int, gap: real): real { i as real * gap }

  /** The gaps before the last drawn session fit in the viewport. */
  predicate DrawnFits(a: Axis) {
    || a.gap * (|a.sessions| - 1) as real <= a.width
    || (LastHidden(a.sessions) && Multiple(|a.sessions| - 2, a.gap) <= a.width)
  }

  lemma {:induction false} NoSessions(gap: real, width: real)
    requires gap >= 0.0 && width > 0.0
    ensures gap * (0 - 1) as real <= width && gap * (1 - 1) as real <= width
  {
    Product(gap, 1.0);
  }

  lemma {:induction false} ZeroScale(x: real)
    ensures x * 0.0 == 0.0
  {
  }

  lemma {:induction false} MultiplesAscend(i: nat, j: nat, gap: real)
    requires i <= j && gap >= 0.0
    ensures 0.0 <= Multiple(i, gap) <= Multiple(j, gap)
  {
    Product(i as real, gap);
    ScaleBelow(i as real, j as real, gap);
  }

  /** With no pixels left for open time, a session other than the last is a point. */
  lemma {:induction false} PointSession(a: Axis, i: nat, ts: int) returns (x: real)
    requires LaidOut(a) && i < |a.sessions| - 1 && a.gap * (|a.sessions| - 1) as real > a.width
    ensures x == Project(a, i, ts) == a.starts[i] == a.ends[i] && x == Multiple(i, a.gap)
  {
    x := a.starts[i];
    var px, gaps := PxPerSec(a.sessions, a.width, a.gap), a.gap * (|a.sessions| - 1) as real;
    PxZero(a.sessions, a.width, a.gap, gaps);
    assert EdgesAt(a.sessions, i, px, a.gap, a.starts[i], a.ends[i]);
    ZeroScale(TotalSecs(a.sessions[..i]) as real);
    ZeroScale(a.sessions[i].Seconds() as real);
    ZeroScale(Fraction(a.sessions[i], ts));
  }

  lemma {:induction false} OverLast(a: Axis, ts: int)
    requires LaidOut(a) && a.sessions != []
    requires var last := a.sessions[|a.sessions| - 1]; ts - last.open >= last.Nanos()
    ensures Project(a, |a.sessions| - 1, ts) == a.width
  {
    ProjectEnds(a, |a.sessions| - 1, ts);
  }

  /** A hidden last session places a timestamp only once it is over. */
  lemma {:induction false} HiddenIsOver(ss: seq<Session>, ts: int)
    requires Calendar(ss) && LastHidden(ss) && Opened(ss, ts) > 0 && Owner(ss, ts) == |ss| - 1
    ensures ts - ss[|ss| - 1].open >= ss[|ss| - 1].Nanos()
  {
  }

  lemma {:induction false} PointsAscend(a: Axis, i: nat, j: nat, t: int, u: int)
    requires LaidOut(a) && i <= j < |a.sessions| - 1
    requires a.gap * (|a.sessions| - 1) as real > a.width && Multiple(|a.sessions| - 2, a.gap) <= a.width
    ensures 0.0 <= Project(a, i, t) <= Project(a, j, u) <= a.width
  {
    var x := PointSession(a, i, t);
    var y := PointSession(a, j, u);
    MultiplesAscend(i, j, a.gap);
    MultiplesAscend(j, |a.sessions| - 2, a.gap);
  }

  lemma {:induction false} HiddenAscends(a: Axis, t: int, u: int)
    requires LaidOut(a) && Calendar(a.sessions) && LastHidden(a.sessions) && t <= u
    requires a.gap * (|a.sessions| - 1) as real > a.width && Multiple(|a.sessions| - 2, a.gap) <= a.width
    ensures ToX(a, t) <= ToX(a, u)
  {
    var ss := a.sessions;
    ToXByOwner(a, t);
    ToXByOwner(a, u);
    if Opened(ss, t) > 0 {
      SameOrLaterOwner(ss, t, u);
      PlacedAscend(a, t, u);
    } else if Opened(ss, u) > 0 {
      PlacedAscend(a, u, u);
    }
  }

  lemma {:induction false} PlacedAscend(a: Axis, t: int, u: int)
    requires LaidOut(a) && Calendar(a.sessions) && LastHidden(a.sessions) && t <= u
    requires a.gap * (|a.sessions| - 1) as real > a.width && Multiple(|a.sessions| - 2, a.gap) <= a.width
    requires Opened(a.sessions, t) > 0 && Opened(a.sessions, u) > 0 && Owner(a.sessions, t) <= Owner(a.sessions, u)
    ensures 0.0 <= Project(a, Owner(a.sessions, t), t) <= Project(a, Owner(a.sessions, u), u)
  {
    var i, j, last := Owner(a.sessions, t), Owner(a.sessions, u), |a.sessions| - 1;
    if j == last {
      HiddenIsOver(a.sessions, u);
      OverLast(a, u);
      if i == last {
        HiddenIsOver(a.sessions, t);
        OverLast(a, t);
      } else {
        PointsAscend(a, i, i, t, t);
      }
    } else {
      PointsAscend(a, i, j, t, u);
    }
  }

  /** The open of the last session, when it does not touch the one before it, and the moment after its close. */
  lemma {:induction false} OpenRetreats(a: Axis) returns (t: int, u: int)
    requires LaidOut(a) && Calendar(a.sessions) && |a.sessions| >= 2
    requires a.sessions[|a.sessions| - 2].close < a.sessions[|a.sessions| - 1].open
    requires a.gap * (|a.sessions| - 1) as real > a.width
    ensures t <= u && ToX(a, t) > ToX(a, u)
  {
    var i := |a.sessions| - 1;
    t, u := a.sessions[i].open, a.sessions[i].close + 1;
    LastStartFits(a);
    ToXByOwner(a, t);
    ProjectEnds(a, i, t);
    LastOwner(a, u);
    OverLast(a, u);
  }

  /** The common edge with a hidden last session, drawn where the session before it is. */
  lemma {:induction false} EdgeRetreats(a: Axis) returns (t: int, u: int)
    requires LaidOut(a) && Calendar(a.sessions) && LastHidden(a.sessions)
    requires a.gap * (|a.sessions| - 1) as real > a.width && Multiple(|a.sessions| - 2, a.gap) > a.width
    ensures t <= u && ToX(a, t) > ToX(a, u)
  {
    var i := |a.sessions| - 1;
    t, u := a.sessions[i].open, a.sessions[i].close + 1;
    ToXByOwner(a, t);
    var x := PointSession(a, i - 1, t);
    LastOwner(a, u);
    OverLast(a, u);
  }

  lemma {:induction false} AtLeastTwo(a: Axis)
    requires LaidOut(a) && !DrawnFits(a)
    ensures |a.sessions| >= 2 && a.gap * (|a.sessions| - 1) as real > a.width
    ensures LastHidden(a.sessions) ==> Multiple(|a.sessions| - 2, a.gap) > a.width
  {
    NoSessions(a.gap, a.width);
  }

  /** Where the drawn gaps do not fit, some moment is drawn to the right of a later one. */
  lemma {:induction false} SomewhereRetreats(a: Axis) returns (t: int, u: int)
    requires LaidOut(a) && Calendar(a.sessions) && !DrawnFits(a)
    ensures t <= u && ToX(a, t) > ToX(a, u)
  {
    AtLeastTwo(a);
    var last := a.sessions[|a.sessions| - 1];
    assert Follows(a.sessions[|a.sessions| - 2], last);
    if last.close - last.open >= 2 {
      t, u := ToXRetreats(a);
    } else if LastHidden(a.sessions) {
      t, u := EdgeRetreats(a);
    } else {
      t, u := OpenRetreats(a);
    }
  }

  lemma {:induction false} DrawnAscends(a: Axis, t: int, u: int)
    requires LaidOut(a) && Calendar(a.sessions) && DrawnFits(a) && t <= u
    ensures ToX(a, t) <= ToX(a, u)
  {
    if a.sessions != [] {
      if a.gap * (|a.sessions| - 1) as real <= a.width { ToXAscends(a, t, u); } else { HiddenAscends(a, t, u); }
    }
  }

  /**
   `ToX` is non-decreasing over all timestamps exactly when the gaps fit in the viewport, not counting
   the one before a last session of which only the close is drawn.
   */
  lemma {:induction false} ToXIsMonotoneIff(a: Axis)
    requires LaidOut(a) && Calendar(a.sessions)
    ensures (forall t, u | t <= u :: ToX(a, t) <= ToX(a, u)) <==> DrawnFits(a)
  {
    if DrawnFits(a) {
      forall t, u | t <= u ensures ToX(a, t) <= ToX(a, u) { DrawnAscends(a, t, u); }
    } else {
      var t, u := SomewhereRetreats(a);
    }
  }

  // ---------------------------------------------------------------- round trip

  /** Every session really lasts and is at least EPSILON pixels wide. */
  ghost predicate Wide(a: Axis)
    requires |a.starts| == |a.ends| == |a.sessions|
  {
    forall i | 0 <= i < |a.sessions| ::
      a.sessions[i].open < a.sessions[i].close && a.ends[i] - a.starts[i] >= EPSILON
  }

  /** The open moment that stands for `ts` once closed time has collapsed. */
  function Anchor(a: Axis, ts: int): int
    requires a.sessions != []
  {
    if Opened(a.sessions, ts) == 0 then a.sessions[0].open
    else
      var i := Owner(a.sessions, ts);
      if ts < a.sessions[i].close then ts
      else if a.gap == 0.0 && i + 1 < |a.sessions| then a.sessions[i + 1].open
      else a.sessions[i].close
  }

  /** A pixel inside session i that is not the left edge of a later one is found there. */
  lemma {:induction false} FindsSession(a: Axis, i: nat, x: real)
    requires LaidOut(a) && i < |a.sessions| && a.starts[i] <= x <= a.ends[i]
    requires i + 1 < |a.sessions| ==> x < a.starts[i + 1] && a.starts[i + 1] <= a.ends[i + 1]
    ensures FindForX(a, x) == Ok(i)
  {
    forall k | i < k < |a.sessions| ensures x < a.starts[k] { StartsAscend(a, i + 1, k); }
    StartsAscend(a, 0, i);
  }

  lemma {:induction false} StartsAscend(a: Axis, i: nat, j: nat)
    requires LaidOut(a) && i <= j < |a.sessions|
    ensures a.starts[i] <= a.starts[j]
  {
    if i < j {
      NextEdge(a, i);
      EdgesAscend(a, i, j);
    }
  }

  lemma {:induction false} Lerped(start: real, end: real, f: real)
    requires end - start >= EPSILON && 0.0 <= f <= 1.0
    ensures Clamp((start + (end - start) * f - start) / Max(end - start, EPSILON), 0.0, 1.0) == f
  {
    Rescale(start + (end - start) * f - start, end - start, f);
  }

  lemma {:induction false} Rescale(part: real, width: real, f: real)
    requires width > 0.0 && part == width * f
    ensures part / width == f
  {
  }

  lemma {:induction false} FractionBack(a: Axis, i: nat, ts: int)
    requires |a.starts| == |a.ends| == |a.sessions| && i < |a.sessions| && a.ends[i] - a.starts[i] >= EPSILON
    ensures XFraction(a, i, Project(a, i, ts)) == Fraction(a.sessions[i], ts)
  {
    Lerped(a.starts[i], a.ends[i], Fraction(a.sessions[i], ts));
  }

  lemma {:induction false} RoundExact(k: int)
    ensures Round(k as real) == k
  {
  }

  lemma {:induction false} RoundBack(f: real, d: int, n: int)
    requires n > 0 && (f == d as real / n as real || (f == 1.0 && d == n))
    ensures Round(f * n as real) == d
  {
    assert f * n as real == d as real;
    RoundExact(d);
  }

  lemma {:induction false} NanosBack(s: Session, ts: int)
    requires s.open <= ts && s.open < s.close
    ensures Round(Fraction(s, ts) * s.Nanos() as real) == if ts < s.close then ts - s.open else s.close - s.open
  {
    FractionEnds(s, ts);
    RoundBack(Fraction(s, ts), if ts < s.close then ts - s.open else s.Nanos(), s.Nanos());
  }

  /** Within the session, the pixel of `ts` maps back to it; past the close, to the close. */
  lemma {:induction false} UnprojectBack(a: Axis, i: nat, ts: int)
    requires |a.starts| == |a.ends| == |a.sessions| && i < |a.sessions| && a.ends[i] - a.starts[i] >= EPSILON
    requires a.sessions[i].open <= ts && a.sessions[i].open < a.sessions[i].close
    ensures Unproject(a, i, Project(a, i, ts)) == if ts < a.sessions[i].close then ts else a.sessions[i].close
  {
    FractionBack(a, i, ts);
    NanosBack(a.sessions[i], ts);
  }

  lemma {:induction false} WideSession(a: Axis, i: nat)
    requires LaidOut(a) && Wide(a) && i < |a.sessions|
    ensures a.starts[i] < a.ends[i] && 0.0 <= a.starts[i] && a.ends[i] <= a.width
  {
    LayoutIsOrdered(a);
    if i < |a.sessions| - 1 {
      EdgesAscend(a, i, |a.sessions| - 1);
    }
  }

  lemma {:induction false} LerpBelow(lo: real, hi: real, f: real)
    requires lo < hi && 0.0 <= f < 1.0
    ensures lo <= lo + (hi - lo) * f < hi
  {
    Lerp(lo, hi, f);
    var p := PartOf(hi - lo, f);
    assert lo + p < hi;
  }

  lemma {:induction false} BeforeClose(a: Axis, i: nat, ts: int)
    requires |a.starts| == |a.ends| == |a.sessions| && i < |a.sessions| && a.starts[i] < a.ends[i]
    requires a.sessions[i].open <= ts < a.sessions[i].close
    ensures a.starts[i] <= Project(a, i, ts) < a.ends[i]
  {
    FractionEnds(a.sessions[i], ts);
    LerpBelow(a.starts[i], a.ends[i], Fraction(a.sessions[i], ts));
  }

  /** Where session i starts, from the left. */
  lemma {:induction false} FromXAtStart(a: Axis, i: nat)
    requires LaidOut(a) && Wide(a) && i < |a.sessions|
    ensures FromX(a, a.starts[i]) == Some(a.sessions[i].open)
  {
    WideSession(a, i);
    if i + 1 < |a.sessions| { NextEdge(a, i); WideSession(a, i + 1); }
    FindsSession(a, i, a.starts[i]);
    ProjectEnds(a, i, a.sessions[i].open);
    UnprojectBack(a, i, a.sessions[i].open);
  }

  lemma {:induction false} FromXInSession(a: Axis, i: nat, ts: int)
    requires LaidOut(a) && Wide(a) && i < |a.sessions| && a.sessions[i].open <= ts
    requires ts >= a.sessions[i].close ==> a.gap > 0.0 || i + 1 == |a.sessions|
    ensures FromX(a, Project(a, i, ts)) == Some(if ts < a.sessions[i].close then ts else a.sessions[i].close)
  {
    WideSession(a, i);
    if i + 1 < |a.sessions| { NextEdge(a, i); WideSession(a, i + 1); }
    if ts < a.sessions[i].close { BeforeClose(a, i, ts); } else { ProjectEnds(a, i, ts); }
    FindsSession(a, i, Project(a, i, ts));
    UnprojectBack(a, i, ts);
  }

  lemma {:induction false} FromXPastClose(a: Axis, i: nat, ts: int)
    requires LaidOut(a) && Wide(a) && i + 1 < |a.sessions| && a.sessions[i].close <= ts && a.gap == 0.0
    ensures FromX(a, Project(a, i, ts)) == Some(a.sessions[i + 1].open)
  {
    ProjectEnds(a, i, ts);
    NextEdge(a, i);
    FromXAtStart(a, i + 1);
  }

  lemma {:induction false} OwnerHasOpened(ss: seq<Session>, ts: int)
    requires Calendar(ss) && Opened(ss, ts) > 0
    ensures Owner(ss, ts) < |ss| && ss[Owner(ss, ts)].open <= ts
  {
    OpensAscend(ss);
  }

  /** For every timestamp, the pixel it maps to maps back to the moment that stands for it. */
  lemma {:induction false} RoundTrip(a: Axis, ts: int)
    requires LaidOut(a) && Calendar(a.sessions) && Wide(a) && a.sessions != []
    ensures FromX(a, ToX(a, ts)) == Some(Anchor(a, ts))
  {
    ToXByOwner(a, ts);
    if Opened(a.sessions, ts) == 0 {
      FirstStart(a);
      FromXAtStart(a, 0);
    } else {
      var i := Owner(a.sessions, ts);
      OwnerHasOpened(a.sessions, ts);
      if ts >= a.sessions[i].close && a.gap == 0.0 && i + 1 < |a.sessions| {
        FromXPastClose(a, i, ts);
      } else {
        FromXInSession(a, i, ts);
      }
    }
  }

  lemma {:induction false} AnchorIff(a: Axis, ts: int, i: nat)
    requires Calendar(a.sessions) && FindForTs(a.sessions, ts) == Ok(i)
    ensures Anchor(a, ts) == ts <==>
            !(a.gap == 0.0 && i + 1 < |a.sessions| && ts == a.sessions[i].close < a.sessions[i + 1].open)
  {
    assert i == Owner(a.sessions, ts);
    if i + 1 < |a.sessions| { assert Follows(a.sessions[i], a.sessions[i + 1]); }
  }

  /**
   A timestamp inside a session survives the round trip, unless it is a close edge that shares its
   pixel with a session that opens later.
   */
  lemma {:induction false} RoundTripIff(a: Axis, ts: int, i: nat)
    requires LaidOut(a) && Calendar(a.sessions) && Wide(a) && FindForTs(a.sessions, ts) == Ok(i)
    ensures FromX(a, ToX(a, ts)) == Some(ts) <==>
            !(a.gap == 0.0 && i + 1 < |a.sessions| && ts == a.sessions[i].close < a.sessions[i + 1].open)
  {
    RoundTrip(a, ts);
    AnchorIff(a, ts, i);
  }

  // ---------------------------------------------------------------- snapping

  /** Snapping only fills in where `FromX` has no answer. */
  lemma {:induction false} SnapExtendsFromX(a: Axis, x: real, dir: Direction)
    requires |a.starts| == |a.ends| == |a.sessions|
    ensures var (ts, snapped) := FromXSnapped(a, x, dir);
            FromX(a, x) == if snapped then None else Some(ts)
  {
  }

  lemma {:induction false} XFractionAscends(a: Axis, i: nat, x: real, y: real)
    requires i < |a.sessions| && |a.starts| == |a.ends| == |a.sessions| && x <= y
    ensures 0.0 <= XFraction(a, i, x) <= XFraction(a, i, y) <= 1.0
  {
    DivideBelow(x - a.starts[i], y - a.starts[i], Max(a.ends[i] - a.starts[i], EPSILON));
  }

  lemma {:induction false} RoundAscends(x: real, y: real)
    requires x <= y
    ensures Round(x) <= Round(y)
  {
  }

  lemma {:induction false} ScaledRound(f: real, g: real, n: int)
    requires 0.0 <= f <= g <= 1.0 && n > 0
    ensures 0 <= Round(f * n as real) <= Round(g * n as real) <= n
  {
    ScaleBelow(0.0, f, n as real);
    ScaleBelow(f, g, n as real);
    ScaleBelow(g, 1.0, n as real);
    RoundAscends(f * n as real, g * n as real);
    RoundAscends(0.0, f * n as real);
    RoundAscends(g * n as real, n as real);
    RoundExact(n);
  }

  lemma {:induction false} UnprojectAscends(a: Axis, i: nat, x: real, y: real)
    requires i < |a.sessions| && |a.starts| == |a.ends| == |a.sessions| && x <= y
    ensures a.sessions[i].open <= Unproject(a, i, x) <= Unproject(a, i, y) <= a.sessions[i].open + a.sessions[i].Nanos()
  {
    XFractionAscends(a, i, x, y);
    var f, g, n := XFraction(a, i, x), XFraction(a, i, y), a.sessions[i].Nanos();
    ScaledRound(f, g, n);
    assert Unproject(a, i, x) == a.sessions[i].open + Round(f * n as real);
    assert Unproject(a, i, y) == a.sessions[i].open + Round(g * n as real);
  }

  lemma {:induction false} NoSpan(s: Session, px: real)
    requires s.open == s.close
    ensures Span(s, px) == 0.0
  {
  }

  /** A session other than the last keeps its pixels within its own times. */
  lemma {:induction false} UnprojectWithin(a: Axis, i: nat, x: real)
    requires LaidOut(a) && Calendar(a.sessions) && i + 1 < |a.sessions| && a.starts[i] <= x <= a.ends[i]
    ensures Unproject(a, i, x) <= a.sessions[i].close
  {
    UnprojectAscends(a, i, x, x);
    if a.sessions[i].open == a.sessions[i].close {
      NoSpan(a.sessions[i], PxPerSec(a.sessions, a.width, a.gap));
      assert EdgesAt(a.sessions, i, PxPerSec(a.sessions, a.width, a.gap), a.gap, a.starts[i], a.ends[i]);
      RoundExact(0);
      assert XFraction(a, i, x) == 0.0;
      assert 0.0 * a.sessions[i].Nanos() as real == 0.0;
    }
  }

  /** The timestamp chosen for a pixel in the viewport whose last session begun is i. */
  function Placed(a: Axis, i: nat, x: real, dir: Direction): int
    requires i < |a.sessions| && |a.starts| == |a.ends| == |a.sessions|
  {
    var s := a.sessions[i];
    if x <= a.ends[i] then Unproject(a, i, x)
    else if i + 1 == |a.sessions| then s.close
    else match dir
         case Forward => a.sessions[i + 1].open
         case Backward => s.close
         case Nearest =>
           if Abs(x - a.ends[i]) <= Abs(a.starts[i + 1] - x) then s.close else a.sessions[i + 1].open
  }

  lemma {:induction false} SnappedIsPlaced(a: Axis, x: real, dir: Direction) returns (i: nat)
    requires LaidOut(a) && a.sessions != []
    ensures var clamped := Clamp(x, 0.0, a.width);
            && i < |a.sessions| && i + 1 == Begun(a.starts, clamped) && a.starts[i] <= clamped <= a.width
            && FromXSnapped(a, x, dir).0 == Placed(a, i, clamped, dir)
  {
    i := HasBegun(a, Clamp(x, 0.0, a.width));
    ClampedIsPlaced(a, x, dir, i);
  }

  lemma {:induction false} HasBegun(a: Axis, x: real) returns (i: nat)
    requires LaidOut(a) && a.sessions != [] && 0.0 <= x <= a.width
    ensures i < |a.sessions| && i + 1 == Begun(a.starts, x) && a.starts[i] <= x && a.starts[0] == 0.0
  {
    FirstStart(a);
    i := Begun(a.starts, x) - 1;
  }

  lemma {:induction false} ClampedIsPlaced(a: Axis, x: real, dir: Direction, i: nat)
    requires |a.starts| == |a.ends| == |a.sessions| && i < |a.sessions| && a.starts[0] == 0.0
    requires a.width > 0.0 && i + 1 == Begun(a.starts, Clamp(x, 0.0, a.width))
    ensures FromXSnapped(a, x, dir).0 == Placed(a, i, Clamp(x, 0.0, a.width), dir)
  {
  }

  lemma {:induction false} BegunAscends(starts: seq<real>, x: real, y: real)
    requires x <= y
    ensures Begun(starts, x) <= Begun(starts, y)
  {
    var u := Begun(starts, x);
    if u > 0 { assert starts[u - 1] <= y; }
  }

  lemma {:induction false} PlacedBounds(a: Axis, i: nat, x: real, dir: Direction)
    requires LaidOut(a) && Calendar(a.sessions) && i < |a.sessions| && a.starts[i] <= x <= a.width
    ensures a.sessions[i].open <= Placed(a, i, x, dir)
    ensures i + 1 < |a.sessions| ==> Placed(a, i, x, dir) <= a.sessions[i + 1].open
  {
    if i + 1 < |a.sessions| { assert Follows(a.sessions[i], a.sessions[i + 1]); }
    if x <= a.ends[i] {
      UnprojectAscends(a, i, x, x);
      if i + 1 < |a.sessions| { UnprojectWithin(a, i, x); }
    }
  }

  lemma {:induction false} PlacedAscends(a: Axis, i: nat, x: real, y: real, dir: Direction)
    requires LaidOut(a) && Calendar(a.sessions) && i < |a.sessions| && a.starts[i] <= x <= y <= a.width
    requires i + 1 < |a.sessions| ==> y < a.starts[i + 1]
    ensures Placed(a, i, x, dir) <= Placed(a, i, y, dir)
  {
    if i + 1 < |a.sessions| { assert Follows(a.sessions[i], a.sessions[i + 1]); }
    if y <= a.ends[i] {
      UnprojectAscends(a, i, x, y);
    } else if x <= a.ends[i] {
      UnprojectWithin(a, i, x);
    }
  }

  /** Whatever the snap direction, moving right on screen never moves back in time. */
  lemma {:induction false} SnappedIsMonotone(a: Axis, x: real, y: real, dir: Direction)
    requires LaidOut(a) && Calendar(a.sessions) && x <= y
    ensures FromXSnapped(a, x, dir).0 <= FromXSnapped(a, y, dir).0
  {
    if a.sessions != [] {
      var i := SnappedIsPlaced(a, x, dir);
      var j := SnappedIsPlaced(a, y, dir);
      var p, q := Clamp(x, 0.0, a.width), Clamp(y, 0.0, a.width);
      if i == j {
        PlacedAscends(a, i, p, q, dir);
      } else {
        BegunAscends(a.starts, p, q);
        PlacedBounds(a, i, p, dir);
        PlacedBounds(a, j, q, dir);
        OpenAscends(a.sessions, i + 1, j);
      }
    }
  }

  /** Where the unsnapped inverse has answers, they are in the order of the pixels. */
  lemma {:induction false} FromXIsMonotone(a: Axis, x: real, y: real)
    requires LaidOut(a) && Calendar(a.sessions) && x <= y && FromX(a, x).Some? && FromX(a, y).Some?
    ensures FromX(a, x).value <= FromX(a, y).value
  {
    SnapExtendsFromX(a, x, Nearest);
    SnapExtendsFromX(a, y, Nearest);
    SnappedIsMonotone(a, x, y, Nearest);
  }

  // ---------------------------------------------------------------- what a snap direction means

  lemma {:induction false} ProjectWithin(a: Axis, i: nat, ts: int)
    requires LaidOut(a) && Wide(a) && i < |a.sessions|
    ensures a.starts[i] <= Project(a, i, ts) <= a.ends[i]
  {
    WideSession(a, i);
    ProjectAscends(a, i, ts, ts);
  }

  lemma {:induction false} SideOfGap(a: Axis, i: nat, next: nat, ts: int)
    requires LaidOut(a) && Wide(a) && i < |a.sessions| && 0 < next < |a.sessions|
    ensures Project(a, i, ts) <= a.ends[next - 1] || Project(a, i, ts) >= a.starts[next]
  {
    ProjectWithin(a, i, ts);
    if i < next - 1 {
      EdgesAscend(a, i, next - 1);
      WideSession(a, next - 1);
    } else if i >= next {
      StartsAscend(a, next, i);
    }
  }

  /** No timestamp is drawn inside the gap before session `next`. */
  lemma {:induction false} NothingInGap(a: Axis, next: nat, ts: int)
    requires LaidOut(a) && Calendar(a.sessions) && Wide(a) && 0 < next < |a.sessions|
    ensures ToX(a, ts) <= a.ends[next - 1] || ToX(a, ts) >= a.starts[next]
  {
    ToXByOwner(a, ts);
    if Opened(a.sessions, ts) > 0 {
      SideOfGap(a, Owner(a.sessions, ts), next, ts);
    } else {
      WideSession(a, next - 1);
    }
  }

  /** The pixel of an open that does not touch the session before it, and of a close. */
  lemma {:induction false} EdgePixels(a: Axis, next: nat)
    requires LaidOut(a) && Calendar(a.sessions) && Wide(a) && 0 < next < |a.sessions|
    requires a.sessions[next - 1].close < a.sessions[next].open
    ensures ToX(a, a.sessions[next].open) == a.starts[next] && ToX(a, a.sessions[next - 1].close) == a.ends[next - 1]
  {
    var ss := a.sessions;
    OpensAscend(ss);
    ClosesAscend(ss);
    ToXByOwner(a, ss[next].open);
    ToXByOwner(a, ss[next - 1].close);
    assert ss[next].open < ss[next].close && ss[next - 1].open < ss[next - 1].close;
    if next + 1 < |ss| { assert ss[next].close <= ss[next + 1].open; }
    assert Opened(ss, ss[next].open) == next + 1 && Opened(ss, ss[next - 1].close) == next;
    ProjectEnds(a, next, ss[next].open);
    ProjectEnds(a, next - 1, ss[next - 1].close);
  }

  function PixelOf(a: Axis): int -> real
    requires |a.starts| == |a.ends| == |a.sessions|
  {
    (ts: int) => ToX(a, ts)
  }

  /** `ts` is the best answer for pixel x in the direction, among all timestamps. */
  ghost predicate Best(pixel: int -> real, x: real, dir: Direction, ts: int) {
    match dir
    case Forward => pixel(ts) >= x && forall u :: pixel(u) >= x ==> pixel(ts) <= pixel(u)
    case Backward => pixel(ts) <= x && forall u :: pixel(u) <= x ==> pixel(u) <= pixel(ts)
    case Nearest => forall u :: Abs(pixel(ts) - x) <= Abs(pixel(u) - x)
  }

  /** When nothing is drawn strictly between lo and hi, the edge chosen by the snap rule is best. */
  lemma {:induction false} EdgeIsBest(pixel: int -> real, lo: real, x: real, hi: real, dir: Direction, close: int,
                                      open: int)
    requires lo < x < hi && pixel(close) == lo && pixel(open) == hi && forall u :: pixel(u) <= lo || pixel(u) >= hi
    ensures Best(pixel, x, dir,
                 if dir.Backward? || (dir.Nearest? && Abs(x - lo) <= Abs(hi - x)) then close else open)
  {
  }

  lemma {:induction false} GapPixels(a: Axis, next: nat)
    requires LaidOut(a) && Calendar(a.sessions) && Wide(a) && 0 < next < |a.sessions|
    ensures forall u :: PixelOf(a)(u) <= a.ends[next - 1] || PixelOf(a)(u) >= a.starts[next]
  {
    forall u ensures PixelOf(a)(u) <= a.ends[next - 1] || PixelOf(a)(u) >= a.starts[next] { NothingInGap(a, next, u); }
  }

  /** The edge that snapping picks in the gap before session `next`. */
  function EdgeFor(a: Axis, x: real, dir: Direction, next: nat): int
    requires |a.starts| == |a.ends| == |a.sessions| && 0 < next < |a.sessions|
  {
    if dir.Backward? || (dir.Nearest? && Abs(x - a.ends[next - 1]) <= Abs(a.starts[next] - x))
    then a.sessions[next - 1].close else a.sessions[next].open
  }

  lemma {:induction false} SnapInGap(a: Axis, x: real, dir: Direction, next: nat) returns (ts: int)
    requires |a.starts| == |a.ends| == |a.sessions| && 0.0 <= x <= a.width
    requires 0 < next < |a.sessions| && FindForX(a, x) == Err(next)
    ensures FromXSnapped(a, x, dir) == (ts, true) && ts == EdgeFor(a, x, dir, next)
  {
    ts := EdgeFor(a, x, dir, next);
  }

  lemma {:induction false} SnapApart(a: Axis, x: real, dir: Direction, next: nat, ts: int)
    requires LaidOut(a) && Calendar(a.sessions) && Wide(a) && 0 < next < |a.sessions|
    requires a.ends[next - 1] < x < a.starts[next] && a.sessions[next - 1].close < a.sessions[next].open
    requires ts == EdgeFor(a, x, dir, next)
    ensures Best(PixelOf(a), x, dir, ts)
  {
    EdgePixels(a, next);
    GapPixels(a, next);
    EdgeIsBest(PixelOf(a), a.ends[next - 1], x, a.starts[next], dir, a.sessions[next - 1].close, a.sessions[next].open);
  }

  lemma {:induction false} GapHolds(a: Axis, x: real, next: nat)
    requires LaidOut(a) && Wide(a) && 0 < next < |a.sessions| && FindForX(a, x) == Err(next)
    ensures 0.0 <= a.ends[next - 1] < x < a.starts[next] <= a.width
  {
    WideSession(a, next - 1);
    WideSession(a, next);
  }

  // ---------------------------------------------------------------- sessions that touch

  /** `edge` closes the session before `next` and opens `next`; `after` is the moment after it. */
  ghost predicate Shared(ss: seq<Session>, next: nat, edge: int, after: int) {
    0 < next < |ss| && ss[next - 1].close == edge == ss[next].open && after == edge + 1
  }

  /** The shared moment belongs to the earlier session, the one after it to the later. */
  lemma {:induction false} SharedOwner(ss: seq<Session>, next: nat, edge: int, after: int)
    requires Calendar(ss) && Shared(ss, next, edge, after)
    requires forall i | 0 <= i < |ss| :: ss[i].open < ss[i].close
    ensures Opened(ss, edge) > 0 && Owner(ss, edge) == next - 1
    ensures Opened(ss, after) > 0 && Owner(ss, after) == next
  {
    OpensAscend(ss);
    if next + 1 < |ss| { assert Follows(ss[next], ss[next + 1]); }
    assert Opened(ss, edge) == next + 1;
    if next + 2 < |ss| { assert Follows(ss[next + 1], ss[next + 2]); }
  }

  lemma {:induction false} SharedEdge(a: Axis, next: nat, edge: int, after: int)
    requires LaidOut(a) && Calendar(a.sessions) && Wide(a) && Shared(a.sessions, next, edge, after)
    ensures ToX(a, edge) == a.ends[next - 1] && a.starts[next] <= ToX(a, after)
  {
    SharedOwner(a.sessions, next, edge, after);
    ToXByOwner(a, edge);
    ToXByOwner(a, after);
    ProjectEnds(a, next - 1, edge);
    ProjectWithin(a, next, after);
  }

  /** Everything is drawn up to the shared moment, or from the one after it on. */
  lemma {:induction false} SharedPixels(a: Axis, next: nat, edge: int, after: int, u: int)
    requires LaidOut(a) && Calendar(a.sessions) && Wide(a) && Shared(a.sessions, next, edge, after)
    ensures ToX(a, u) <= ToX(a, edge) || ToX(a, u) >= ToX(a, after)
  {
    WideSession(a, |a.sessions| - 1);
    LastStartFits(a);
    if u <= edge { ToXAscends(a, u, edge); } else { ToXAscends(a, after, u); }
  }

  /** The shared moment, drawn at lo, is best unless the direction asks for a pixel at or after x. */
  lemma {:induction false} SharedIsBestIff(pixel: int -> real, lo: real, x: real, edge: int, after: int, dir: Direction)
    requires pixel(edge) == lo < x < pixel(after) && forall u :: pixel(u) <= lo || pixel(u) >= pixel(after)
    ensures Best(pixel, x, dir, edge) <==> dir.Backward? || (dir.Nearest? && x - lo <= pixel(after) - x)
  {
    if dir.Nearest? && Best(pixel, x, dir, edge) {
      assert Abs(pixel(edge) - x) <= Abs(pixel(after) - x);
    }
  }

  lemma {:induction false} SnapToShared(a: Axis, x: real, dir: Direction, next: nat, edge: int, after: int)
    requires LaidOut(a) && Calendar(a.sessions) && Wide(a) && Shared(a.sessions, next, edge, after)
    requires a.ends[next - 1] < x < a.starts[next]
    ensures Best(PixelOf(a), x, dir, edge) <==>
            dir.Backward? || (dir.Nearest? && x - a.ends[next - 1] <= ToX(a, after) - x)
  {
    SharedEdge(a, next, edge, after);
    forall u ensures PixelOf(a)(u) <= a.ends[next - 1] || PixelOf(a)(u) >= PixelOf(a)(after) {
      SharedPixels(a, next, edge, after, u);
    }
    SharedIsBestIff(PixelOf(a), a.ends[next - 1], x, edge, after, dir);
  }

  lemma {:induction false} TouchingEdge(a: Axis, x: real, dir: Direction, next: nat, ts: int)
    requires |a.starts| == |a.ends| == |a.sessions| && Calendar(a.sessions) && 0 < next < |a.sessions|
    requires a.sessions[next - 1].close >= a.sessions[next].open && ts == EdgeFor(a, x, dir, next)
    ensures a.sessions[next - 1].close == ts == a.sessions[next].open
  {
    assert Follows(a.sessions[next - 1], a.sessions[next]);
  }

  lemma {:induction false} EdgeForIsBestIff(a: Axis, x: real, dir: Direction, next: nat, ts: int, after: int)
    requires LaidOut(a) && Calendar(a.sessions) && Wide(a) && 0 < next < |a.sessions|
    requires a.ends[next - 1] < x < a.starts[next] && ts == EdgeFor(a, x, dir, next)
    requires after == a.sessions[next].open + 1
    ensures Best(PixelOf(a), x, dir, ts) <==>
            || a.sessions[next - 1].close < a.sessions[next].open
            || dir.Backward?
            || (dir.Nearest? && x - a.ends[next - 1] <= ToX(a, after) - x)
  {
    if a.sessions[next - 1].close < a.sessions[next].open {
      SnapApart(a, x, dir, next, ts);
    } else {
      TouchingEdge(a, x, dir, next, ts);
      SnapToShared(a, x, dir, next, ts, after);
    }
  }

  /**
   In a gap, snapping finds the first pixel that is drawn at or after x, the last one at or before
   it, or the nearest one, over all timestamps, exactly when the sessions around the gap do not touch,
   or the snap is backward, or it is to the nearest and the shared edge is nearer than the next moment.
   */
  lemma {:induction false} SnapIsBest(a: Axis, x: real, dir: Direction, next: nat)
    requires LaidOut(a) && Calendar(a.sessions) && Wide(a)
    requires 0 < next < |a.sessions| && FindForX(a, x) == Err(next)
    ensures FromXSnapped(a, x, dir).1
    ensures Best(PixelOf(a), x, dir, FromXSnapped(a, x, dir).0) <==>
            || a.sessions[next - 1].close < a.sessions[next].open
            || dir.Backward?
            || (dir.Nearest? && x - a.ends[next - 1] <= ToX(a, a.sessions[next].open + 1) - x)
  {
    GapHolds(a, x, next);
    var ts := SnapInGap(a, x, dir, next);
    EdgeForIsBestIff(a, x, dir, next, ts, a.sessions[next].open + 1);
  }

  // ---------------------------------------------------------------- the search against a linear scan

  predicate Contains(s: Session, ts: int) { s.open <= ts <= s.close }

  /** The first session from i on that contains `ts`, or the first that opens after it. */
  function Scan(ss: seq<Session>, ts: int, i: nat): Result<nat, nat>
    requires i <= |ss|
    decreases |ss| - i
  {
    if i == |ss| || ts < ss[i].open then Err(i) else if ts <= ss[i].close then Ok(i) else Scan(ss, ts, i + 1)
  }

  /** A session of no duration that touches both neighbours. */
  ghost predicate Pinched(ss: seq<Session>, i: nat) {
    0 < i < |ss| - 1 && ss[i - 1].close == ss[i].open == ss[i].close == ss[i + 1].open
  }

  /** Where the scan stops: everything before it has closed. */
  lemma {:induction false} ScanIs(ss: seq<Session>, ts: int, i: nat, r: Result<nat, nat>)
    requires i <= |ss|
    requires match r
             case Ok(k) => i <= k < |ss| && Contains(ss[k], ts)
                           && forall j | i <= j < k :: ss[j].open <= ts && ss[j].close < ts
             case Err(k) => i <= k <= |ss| && (k < |ss| ==> ts < ss[k].open)
                            && forall j | i <= j < k :: ss[j].open <= ts && ss[j].close < ts
    ensures Scan(ss, ts, i) == r
    decreases |ss| - i
  {
    if i < |ss| && ss[i].open <= ts && ss[i].close < ts { ScanIs(ss, ts, i + 1, r); }
  }

  lemma {:induction false} ClosesAscend(ss: seq<Session>)
    requires Calendar(ss)
    ensures forall i, j | 0 <= i < j < |ss| :: ss[i].close <= ss[j].open
  {
    OpensAscend(ss);
    forall i, j | 0 <= i < j < |ss| ensures ss[i].close <= ss[j].open { assert Follows(ss[i], ss[i + 1]); }
  }

  lemma {:induction false} FindIsScan(ss: seq<Session>, ts: int)
    requires Calendar(ss) && forall i :: !Pinched(ss, i)
    ensures FindForTs(ss, ts) == Scan(ss, ts, 0)
  {
    ClosesAscend(ss);
    OpensAscend(ss);
    var r := FindForTs(ss, ts);
    var u := Opened(ss, ts);
    if r.Ok? && r.value > 0 {
      var k := r.value;
      if ss[k - 1].close == ts {
        assert Pinched(ss, k);
      }
    }
    ScanIs(ss, ts, 0, r);
  }

  lemma {:induction false} PinchedMisfiles(ss: seq<Session>, i: nat)
    requires Calendar(ss) && Pinched(ss, i)
    ensures FindForTs(ss, ss[i].open) != Scan(ss, ss[i].open, 0)
  {
    ClosesAscend(ss);
    OpensAscend(ss);
    var ts := ss[i].open;
    ScanStopsBy(ss, ts, 0, i - 1);
  }

  lemma {:induction false} ScanStopsBy(ss: seq<Session>, ts: int, i: nat, k: nat)
    requires i <= k < |ss| && Contains(ss[k], ts) && forall j | i <= j < k :: ss[j].open <= ts
    ensures Scan(ss, ts, i).Ok? && Scan(ss, ts, i).value <= k
    decreases k - i
  {
    if !Contains(ss[i], ts) { ScanStopsBy(ss, ts, i + 1, k); }
  }

  /**
   The binary search gives every timestamp to the first session that contains it, exactly when no
   session of zero duration touches both its neighbours.
   */
  lemma {:induction false} FindIsScanIff(ss: seq<Session>)
    requires Calendar(ss)
    ensures (forall ts :: FindForTs(ss, ts) == Scan(ss, ts, 0)) <==> forall i :: !Pinched(ss, i)
  {
    if forall i :: !Pinched(ss, i) {
      forall ts ensures FindForTs(ss, ts) == Scan(ss, ts, 0) { FindIsScan(ss, ts); }
    } else {
      var i :| Pinched(ss, i);
      PinchedMisfiles(ss, i);
    }
  }
}
