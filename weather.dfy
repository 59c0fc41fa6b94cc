/** Time-driven weather and sun position for a five-hour (18000 s) recording cycle.
    The weather parameters follow an authored schedule of clear, rainy and foggy
    windows joined by 10-second linear cross-fades; the sun moves independently. */
module DynamicWeather {

  datatype Option<T> = None | Some(value: T)

  /** The five weather parameters the schedule drives. */
  datatype Params = Params(
    cloudiness: real,
    precipitation: real,
    precipitationDeposits: real,
    windIntensity: real,
    fogDensity: real)

  datatype Regime = Clear | Rainy | Foggy

  /** The fixed parameter tuple of each regime. */
  function RegimeParams(r: Regime): Params {
    match r
    case Clear => Params(5.0, 0.0, 0.0, 10.0, 2.0)
    case Rainy => Params(50.0, 90.0, 80.0, 100.0, 7.0)
    case Foggy => Params(50.0, 0.0, 0.0, 10.0, 70.0)
  }

  /** Floored remainder of t by 10, as the float `%` operator computes it
      (exactly, without rounding). */
  function Mod10(t: real): (m: real)
    ensures 0.0 <= m < 10.0
    ensures ((t - m) / 10.0).Floor as real == (t - m) / 10.0
  {
    t - 10.0 * (t / 10.0).Floor as real
  }

  /** Cross-fade from `a` to `b`: each field is a + (b - a) * m / 10. */
  function Blend(a: Params, b: Params, m: real): Params {
    Params(
      a.cloudiness + (b.cloudiness - a.cloudiness) * m / 10.0,
      a.precipitation + (b.precipitation - a.precipitation) * m / 10.0,
      a.precipitationDeposits + (b.precipitationDeposits - a.precipitationDeposits) * m / 10.0,
      a.windIntensity + (b.windIntensity - a.windIntensity) * m / 10.0,
      a.fogDensity + (b.fogDensity - a.fogDensity) * m / 10.0)
  }

  // ---------------------------------------------------------------------------
  // The schedule as the weather update writes it: a chain of range tests,
  // one per branch, tried in this order.

  predicate InClear(t: real) {
    (t >= 0.0 && t <= 600.0) || (t >= 3010.0 && t <= 3600.0) || (t >= 4210.0 && t <= 4800.0) ||
    (t >= 5410.0 && t <= 6000.0) || (t >= 7810.0 && t <= 8400.0) || (t >= 9010.0 && t <= 9600.0) ||
    (t >= 12010.0 && t <= 12600.0) || (t >= 13810.0 && t <= 14400.0) || (t >= 15010.0 && t <= 15600.0) ||
    (t >= 16210.0 && t <= 16800.0)
  }

  predicate InRainy(t: real) {
    (t >= 610.0 && t <= 1200.0) || (t >= 1810.0 && t <= 2400.0) || (t >= 4810.0 && t <= 5400.0) ||
    (t >= 6610.0 && t <= 7200.0) || (t >= 8410.0 && t <= 9000.0) || (t >= 10210.0 && t <= 10800.0) ||
    (t >= 11410.0 && t <= 12000.0) || (t >= 12610.0 && t <= 13200.0) || (t >= 14410.0 && t <= 15000.0) ||
    (t >= 17410.0 && t <= 18000.0)
  }

  predicate InFoggy(t: real) {
    (t >= 1210.0 && t <= 1800.0) || (t >= 2410.0 && t <= 3000.0) || (t >= 3610.0 && t <= 4200.0) ||
    (t >= 6010.0 && t <= 6600.0) || (t >= 7210.0 && t <= 7800.0) || (t >= 9610.0 && t <= 10200.0) ||
    (t >= 10810.0 && t <= 11400.0) || (t >= 13210.0 && t <= 13800.0) || (t >= 15610.0 && t <= 16200.0) ||
    (t >= 16810.0 && t <= 17400.0)
  }

  predicate InClearToRainy(t: real) {
    (t > 600.0 && t < 610.0) || (t > 4800.0 && t < 4810.0) || (t > 8400.0 && t < 8410.0) ||
    (t > 12600.0 && t < 12610.0) || (t > 14400.0 && t < 14410.0)
  }

  predicate InClearToFoggy(t: real) {
    (t > 3600.0 && t < 3610.0) || (t > 6000.0 && t < 6010.0) || (t > 9600.0 && t < 9610.0) ||
    (t > 15600.0 && t < 15610.0) || (t > 16800.0 && t < 16810.0)
  }

  predicate InRainyToClear(t: real) {
    (t > 5400.0 && t < 5410.0) || (t > 9000.0 && t < 9010.0) || (t > 12000.0 && t < 12010.0) ||
    (t > 15000.0 && t < 15010.0)
  }

  predicate InRainyToFoggy(t: real) {
    (t > 1200.0 && t < 1210.0) || (t > 2400.0 && t < 2410.0) || (t > 7200.0 && t < 7210.0) ||
    (t > 10800.0 && t < 10810.0) || (t > 13200.0 && t < 13210.0)
  }

  predicate InFoggyToClear(t: real) {
    (t > 3000.0 && t < 3010.0) || (t > 4200.0 && t < 4210.0) || (t > 7800.0 && t < 7810.0) ||
    (t > 13800.0 && t < 13810.0) || (t > 16200.0 && t < 16210.0)
  }

  predicate InFoggyToRainy(t: real) {
    (t > 1800.0 && t < 1810.0) || (t > 6600.0 && t < 6610.0) || (t > 10200.0 && t < 10210.0) ||
    (t > 11400.0 && t < 11410.0) || (t > 17400.0 && t < 17410.0)
  }

  /** The parameters the branch chain assigns at time t, or None when no branch fires. */
  function ChainWeather(t: real): Option<Params> {
    if InClear(t) then Some(RegimeParams(Clear))
    else if InRainy(t) then Some(RegimeParams(Rainy))
    else if InFoggy(t) then Some(RegimeParams(Foggy))
    else if InClearToRainy(t) then Some(Blend(RegimeParams(Clear), RegimeParams(Rainy), Mod10(t)))
    else if InClearToFoggy(t) then Some(Blend(RegimeParams(Clear), RegimeParams(Foggy), Mod10(t)))
    else if InRainyToClear(t) then Some(Blend(RegimeParams(Rainy), RegimeParams(Clear), Mod10(t)))
    else if InRainyToFoggy(t) then Some(Blend(RegimeParams(Rainy), RegimeParams(Foggy), Mod10(t)))
    else if InFoggyToClear(t) then Some(Blend(RegimeParams(Foggy), RegimeParams(Clear), Mod10(t)))
    else if InFoggyToRainy(t) then Some(Blend(RegimeParams(Foggy), RegimeParams(Rainy), Mod10(t)))
    else None
  }

  /** The five parameters after an update at time t, starting from `prev`:
      a branch that fires overwrites them, otherwise they stay. */
  function NextParams(prev: Params, t: real): Params {
    match ChainWeather(t)
    case Some(p) => p
    case None => prev
  }


  // ---------------------------------------------------------------------------
  // The same schedule as data: thirty authored steady windows, each closed, and
  // between each two neighbours an open 10-second fade from the regime on its
  // left to the regime on its right.

  datatype Window = Window(start: int, end: int, regime: Regime)

  // Kept as six short displays joined by `+`, which the verifier indexes far
  // more easily than one display of thirty elements.
  const Windows: seq<Window> :=
    [ Window(0, 600, Clear), Window(610, 1200, Rainy), Window(1210, 1800, Foggy),
      Window(1810, 2400, Rainy), Window(2410, 3000, Foggy) ]
  + [ Window(3010, 3600, Clear), Window(3610, 4200, Foggy), Window(4210, 4800, Clear),
      Window(4810, 5400, Rainy), Window(5410, 6000, Clear) ]
  + [ Window(6010, 6600, Foggy), Window(6610, 7200, Rainy), Window(7210, 7800, Foggy),
      Window(7810, 8400, Clear), Window(8410, 9000, Rainy) ]
  + [ Window(9010, 9600, Clear), Window(9610, 10200, Foggy), Window(10210, 10800, Rainy),
      Window(10810, 11400, Foggy), Window(11410, 12000, Rainy) ]
  + [ Window(12010, 12600, Clear), Window(12610, 13200, Rainy), Window(13210, 13800, Foggy),
      Window(13810, 14400, Clear), Window(14410, 15000, Rainy) ]
  + [ Window(15010, 15600, Clear), Window(15610, 16200, Foggy), Window(16210, 16800, Clear),
      Window(16810, 17400, Foggy), Window(17410, 18000, Rainy) ]

  /** Windows in time order, each ending on a multiple of 10 and followed by the
      next one exactly 10 s later. */
  ghost predicate WellSpaced(ws: seq<Window>) {
    && |ws| > 0
    && (forall i :: 0 <= i < |ws| ==> ws[i].start <= ws[i].end && ws[i].end % 10 == 0)
    && (forall i :: 0 <= i < |ws| - 1 ==> ws[i + 1].start == ws[i].end + 10)
  }

  lemma WindowsWellSpaced()
    ensures WellSpaced(Windows)
    ensures |Windows| == 30 && Windows[0].start == 0 && Windows[29].end == 18000
  {
    WindowsOrdered();
    WindowsAdjacent();
  }

  lemma WindowsOrdered()
    ensures forall i :: 0 <= i < |Windows| ==> Windows[i].start <= Windows[i].end && Windows[i].end % 10 == 0
  {
  }

  lemma WindowsAdjacent()
    ensures forall i :: 0 <= i < |Windows| - 1 ==> Windows[i + 1].start == Windows[i].end + 10
  {
  }

  /** A steady window or a fade, with its end points. */
  datatype Span =
    | Steady(lo: int, hi: int, regime: Regime)
    | Fade(lo: int, hi: int, from: Regime, to: Regime)

  /** Steady windows are closed intervals, fades are open ones. */
  predicate Contains(s: Span, t: real) {
    match s
    case Steady(lo, hi, _) => lo as real <= t <= hi as real
    case Fade(lo, hi, _, _) => lo as real < t < hi as real
  }

  /** The parameters a span prescribes at t; a fade blends by the time elapsed
      since it began. */
  function SpanValue(s: Span, t: real): Params {
    match s
    case Steady(_, _, r) => RegimeParams(r)
    case Fade(lo, _, a, b) => Blend(RegimeParams(a), RegimeParams(b), t - lo as real)
  }

  /** Span i of the interleaving: window i/2 when i is even, otherwise the fade
      that follows it. */
  function SpanAt(ws: seq<Window>, i: nat): Span
    requires i < 2 * |ws| - 1
  {
    var w := ws[i / 2];
    if i % 2 == 0 then Steady(w.start, w.end, w.regime)
    else Fade(w.end, ws[i / 2 + 1].start, w.regime, ws[i / 2 + 1].regime)
  }

  function Spans(ws: seq<Window>): seq<Span>
    requires |ws| > 0
  {
    seq(2 * |ws| - 1, i requires 0 <= i < 2 * |ws| - 1 => SpanAt(ws, i))
  }

  /** The 59 spans of the schedule. */
  const ScheduleSpans: seq<Span> := Spans(Windows)

  /** A well-formed span table alternates steady windows (at even positions) and
      fades, leaves no gap between neighbours, and each fade lasts 10 s from a
      multiple of 10 and joins the regimes of its two neighbours. */
  ghost predicate WellFormed(spans: seq<Span>) {
    && |spans| % 2 == 1
    && (forall i :: 0 <= i < |spans| ==> (spans[i].Steady? <==> i % 2 == 0))
    && (forall i :: 0 <= i < |spans| ==> spans[i].lo <= spans[i].hi)
    && (forall i :: 0 <= i < |spans| && spans[i].Fade? ==>
          spans[i].hi == spans[i].lo + 10 && spans[i].lo % 10 == 0)
    && (forall i :: 0 <= i < |spans| - 1 ==> spans[i].hi == spans[i + 1].lo)
    && (forall i :: 0 < i < |spans| - 1 && spans[i].Fade? ==>
          spans[i].from == spans[i - 1].regime && spans[i].to == spans[i + 1].regime)
  }

  lemma SpansWellFormed(ws: seq<Window>)
    requires WellSpaced(ws)
    ensures WellFormed(Spans(ws))
    ensures |Spans(ws)| == 2 * |ws| - 1
    ensures Spans(ws)[0].lo == ws[0].start && Spans(ws)[2 * |ws| - 2].hi == ws[|ws| - 1].end
  {
    SpansShape(ws);
    SpansAdjacent(ws);
    SpansFadesJoinNeighbours(ws);
  }

  lemma SpansShape(ws: seq<Window>)
    requires WellSpaced(ws)
    ensures forall i :: 0 <= i < |Spans(ws)| ==>
      && (Spans(ws)[i].Steady? <==> i % 2 == 0)
      && Spans(ws)[i].lo <= Spans(ws)[i].hi
      && (Spans(ws)[i].Fade? ==> Spans(ws)[i].hi == Spans(ws)[i].lo + 10 && Spans(ws)[i].lo % 10 == 0)
  {
    var spans := Spans(ws);
    forall i | 0 <= i < |spans|
      ensures spans[i].Steady? <==> i % 2 == 0
      ensures spans[i].lo <= spans[i].hi
      ensures spans[i].Fade? ==> spans[i].hi == spans[i].lo + 10 && spans[i].lo % 10 == 0
    {
      assert spans[i] == SpanAt(ws, i);
    }
  }

  lemma SpansAdjacent(ws: seq<Window>)
    requires WellSpaced(ws)
    ensures forall i :: 0 <= i < |Spans(ws)| - 1 ==> Spans(ws)[i].hi == Spans(ws)[i + 1].lo
  {
    var spans := Spans(ws);
    forall i | 0 <= i < |spans| - 1
      ensures spans[i].hi == spans[i + 1].lo
    {
      assert spans[i] == SpanAt(ws, i) && spans[i + 1] == SpanAt(ws, i + 1);
      if i % 2 == 0 {
        assert (i + 1) / 2 == i / 2;
      } else {
        assert (i + 1) / 2 == i / 2 + 1;
      }
    }
  }

  lemma SpansFadesJoinNeighbours(ws: seq<Window>)
    requires WellSpaced(ws)
    ensures forall i :: 0 < i < |Spans(ws)| - 1 && Spans(ws)[i].Fade? ==>
      && Spans(ws)[i - 1].Steady? && Spans(ws)[i + 1].Steady?
      && Spans(ws)[i].from == Spans(ws)[i - 1].regime && Spans(ws)[i].to == Spans(ws)[i + 1].regime
  {
    var spans := Spans(ws);
    forall i | 0 < i < |spans| - 1 && spans[i].Fade?
      ensures spans[i - 1].Steady? && spans[i + 1].Steady?
      ensures spans[i].from == spans[i - 1].regime && spans[i].to == spans[i + 1].regime
    {
      assert spans[i] == SpanAt(ws, i);
      assert i % 2 == 1;
      assert (i - 1) / 2 == i / 2 && (i + 1) / 2 == i / 2 + 1;
      assert spans[i - 1] == SpanAt(ws, i - 1) && spans[i + 1] == SpanAt(ws, i + 1);
    }
  }

  /** The schedule's span table is well formed, has 30 steady windows and 29
      fades, and runs from 0 to 18000. */
  lemma ScheduleWellFormed()
    ensures WellFormed(ScheduleSpans)
    ensures |ScheduleSpans| == 59 && ScheduleSpans[0].lo == 0 && ScheduleSpans[58].hi == 18000
  {
    WindowsWellSpaced();
    SpansWellFormed(Windows);
  }

  /** A point inside a span (its start for a steady window, its middle for a fade). */
  function PointIn(s: Span): (t: real)
    requires s.lo <= s.hi && (s.Fade? ==> s.hi == s.lo + 10)
    ensures Contains(s, t)
  {
    if s.Steady? then s.lo as real else s.lo as real + 5.0
  }

  /** Every instant of an earlier span comes strictly before every instant of a
      later one. */
  lemma {:induction false} SpansOrdered(spans: seq<Span>, i: int, j: int, t: real, u: real)
    requires WellFormed(spans) && 0 <= i < j < |spans|
    requires Contains(spans[i], t) && Contains(spans[j], u)
    ensures t < u
    decreases j - i
  {
    if j > i + 1 {
      var v := PointIn(spans[i + 1]);
      SpansOrdered(spans, i, i + 1, t, v);
      SpansOrdered(spans, i + 1, j, v, u);
    }
  }

  /** No instant lies in two spans. */
  lemma SpansDisjoint(spans: seq<Span>, i: int, j: int, t: real)
    requires WellFormed(spans) && 0 <= i < |spans| && 0 <= j < |spans|
    requires Contains(spans[i], t) && Contains(spans[j], t)
    ensures i == j
  {
    if i < j {
      SpansOrdered(spans, i, j, t, t);
    } else if j < i {
      SpansOrdered(spans, j, i, t, t);
    }
  }

  /** Every instant from the start of the first span up to the end of steady
      span n lies in one of the spans 0..n. */
  lemma {:induction false} SpansCover(spans: seq<Span>, n: int, t: real) returns (i: int)
    requires WellFormed(spans) && 0 <= n < |spans| && n % 2 == 0
    requires spans[0].lo as real <= t <= spans[n].hi as real
    ensures 0 <= i <= n && Contains(spans[i], t)
    decreases n
  {
    if n == 0 {
      i := 0;
    } else if t <= spans[n - 2].hi as real {
      i := SpansCover(spans, n - 2, t);
    } else if t < spans[n - 1].hi as real {
      i := n - 1;
    } else {
      i := n;
    }
  }

  /** Only the instants from the start of the first span to the end of the last
      lie in a span. */
  lemma SpansBounds(spans: seq<Span>, i: int, t: real)
    requires WellFormed(spans) && 0 <= i < |spans| && Contains(spans[i], t)
    ensures spans[0].lo as real <= t <= spans[|spans| - 1].hi as real
  {
    var last := |spans| - 1;
    if 0 < i {
      SpansOrdered(spans, 0, i, PointIn(spans[0]), t);
    }
    if i < last {
      SpansOrdered(spans, i, last, t, PointIn(spans[last]));
    }
  }

  /** Reference lookup: the value the first span containing t prescribes. */
  function Lookup(spans: seq<Span>, t: real): Option<Params> {
    if spans == [] then None
    else if Contains(spans[0], t) then Some(SpanValue(spans[0], t))
    else Lookup(spans[1..], t)
  }

  lemma {:induction false} LookupFirst(spans: seq<Span>, i: int, t: real)
    requires 0 <= i < |spans| && Contains(spans[i], t)
    requires forall j :: 0 <= j < i ==> !Contains(spans[j], t)
    ensures Lookup(spans, t) == Some(SpanValue(spans[i], t))
  {
    if i > 0 {
      assert !Contains(spans[0], t);
      forall j | 0 <= j < i - 1 ensures !Contains(spans[1..][j], t) {
        assert spans[1..][j] == spans[j + 1];
      }
      LookupFirst(spans[1..], i - 1, t);
    }
  }

  lemma {:induction false} LookupMiss(spans: seq<Span>, t: real)
    requires forall j :: 0 <= j < |spans| ==> !Contains(spans[j], t)
    ensures Lookup(spans, t) == None
  {
    if spans != [] {
      forall j | 0 <= j < |spans| - 1 ensures !Contains(spans[1..][j], t) {
        assert spans[1..][j] == spans[j + 1];
      }
      LookupMiss(spans[1..], t);
    }
  }

  /** The schedule as a table lookup. */
  function ScheduleAt(t: real): Option<Params> {
    Lookup(ScheduleSpans, t)
  }

  /** Any instant of [0, 18000] lies in exactly one of the 59 spans. */
  lemma ScheduleCovers(t: real) returns (i: int)
    requires 0.0 <= t <= 18000.0
    ensures 0 <= i < |ScheduleSpans| && Contains(ScheduleSpans[i], t)
    ensures forall j :: 0 <= j < |ScheduleSpans| && Contains(ScheduleSpans[j], t) ==> j == i
  {
    ScheduleWellFormed();
    i := SpansCover(ScheduleSpans, 58, t);
    forall j | 0 <= j < |ScheduleSpans| && Contains(ScheduleSpans[j], t) ensures j == i {
      SpansDisjoint(ScheduleSpans, i, j, t);
    }
  }

  /** Inside a span the table lookup yields that span's value. */
  lemma ScheduleInSpan(i: int, t: real)
    requires 0 <= i < |ScheduleSpans| && Contains(ScheduleSpans[i], t)
    ensures ScheduleAt(t) == Some(SpanValue(ScheduleSpans[i], t))
  {
    ScheduleWellFormed();
    forall j | 0 <= j < i ensures !Contains(ScheduleSpans[j], t) {
      if Contains(ScheduleSpans[j], t) {
        SpansDisjoint(ScheduleSpans, i, j, t);
      }
    }
    LookupFirst(ScheduleSpans, i, t);
  }

  /** The table prescribes a value exactly on [0, 18000]. */
  lemma ScheduleDefinedExactly(t: real)
    ensures ScheduleAt(t).Some? <==> 0.0 <= t <= 18000.0
  {
    ScheduleWellFormed();
    if 0.0 <= t <= 18000.0 {
      var i := ScheduleCovers(t);
      ScheduleInSpan(i, t);
    } else {
      forall j | 0 <= j < |ScheduleSpans| ensures !Contains(ScheduleSpans[j], t) {
        if Contains(ScheduleSpans[j], t) {
          SpansBounds(ScheduleSpans, j, t);
        }
      }
      LookupMiss(ScheduleSpans, t);
    }
  }

  // ---------------------------------------------------------------------------
  // The branch chain and the table agree everywhere.

  /** Within a fade starting on a multiple of 10, `t % 10` is the time elapsed
      since the fade began. */
  lemma Mod10InFade(lo: int, t: real)
    requires lo % 10 == 0 && lo as real < t < lo as real + 10.0
    ensures Mod10(t) == t - lo as real
  {
    var q := lo / 10;
    assert lo == 10 * q;
    assert lo as real == 10.0 * q as real;
    var x := t / 10.0;
    assert q as real < x < q as real + 1.0;
    var f := x.Floor;
    assert f as real <= x < f as real + 1.0;
    assert f == q;
  }

  // The table is taken in thirds, which keeps each of these proofs small.
  lemma ChainOnWindowFirstThird(j: int, t: real)
    requires 0 <= j < 10 && Windows[j].start as real <= t <= Windows[j].end as real
    ensures ChainWeather(t) == Some(RegimeParams(Windows[j].regime))
  {
  }

  lemma ChainOnWindowSecondThird(j: int, t: real)
    requires 10 <= j < 20 && Windows[j].start as real <= t <= Windows[j].end as real
    ensures ChainWeather(t) == Some(RegimeParams(Windows[j].regime))
  {
  }

  lemma ChainOnWindowLastThird(j: int, t: real)
    requires 20 <= j < 30 && Windows[j].start as real <= t <= Windows[j].end as real
    ensures ChainWeather(t) == Some(RegimeParams(Windows[j].regime))
  {
  }

  lemma ChainOnFadeFirstThird(j: int, t: real)
    requires 0 <= j < 10 && Windows[j].end as real < t < Windows[j + 1].start as real
    ensures ChainWeather(t) == Some(SpanValue(Fade(Windows[j].end, Windows[j + 1].start,
                                                   Windows[j].regime, Windows[j + 1].regime), t))
  {
    WindowsWellSpaced();
    Mod10InFade(Windows[j].end, t);
  }

  lemma ChainOnFadeSecondThird(j: int, t: real)
    requires 10 <= j < 20 && Windows[j].end as real < t < Windows[j + 1].start as real
    ensures ChainWeather(t) == Some(SpanValue(Fade(Windows[j].end, Windows[j + 1].start,
                                                   Windows[j].regime, Windows[j + 1].regime), t))
  {
    WindowsWellSpaced();
    Mod10InFade(Windows[j].end, t);
  }

  lemma ChainOnFadeLastThird(j: int, t: real)
    requires 20 <= j < 29 && Windows[j].end as real < t < Windows[j + 1].start as real
    ensures ChainWeather(t) == Some(SpanValue(Fade(Windows[j].end, Windows[j + 1].start,
                                                   Windows[j].regime, Windows[j + 1].regime), t))
  {
    WindowsWellSpaced();
    Mod10InFade(Windows[j].end, t);
  }

  lemma ChainInSpan(i: int, t: real)
    requires 0 <= i < |ScheduleSpans| && Contains(ScheduleSpans[i], t)
    ensures ChainWeather(t) == Some(SpanValue(ScheduleSpans[i], t))
  {
    WindowsWellSpaced();
    assert ScheduleSpans[i] == SpanAt(Windows, i);
    var j := i / 2;
    if i % 2 == 0 {
      if j < 10 {
        ChainOnWindowFirstThird(j, t);
      } else if j < 20 {
        ChainOnWindowSecondThird(j, t);
      } else {
        ChainOnWindowLastThird(j, t);
      }
    } else {
      if j < 10 {
        ChainOnFadeFirstThird(j, t);
      } else if j < 20 {
        ChainOnFadeSecondThird(j, t);
      } else {
        ChainOnFadeLastThird(j, t);
      }
    }
  }

  /** The branch chain computes exactly the table lookup, at every instant. */
  lemma ChainMatchesSchedule(t: real)
    ensures ChainWeather(t) == ScheduleAt(t)
  {
    ScheduleDefinedExactly(t);
    if 0.0 <= t <= 18000.0 {
      var i := ScheduleCovers(t);
      ScheduleInSpan(i, t);
      ChainInSpan(i, t);
    }
  }

  // ---------------------------------------------------------------------------
  // What the schedule promises.

  /** The branch chain assigns parameters exactly on [0, 18000]. */
  lemma ChainDefinedExactly(t: real)
    ensures ChainWeather(t).Some? <==> 0.0 <= t <= 18000.0
  {
    ChainMatchesSchedule(t);
    ScheduleDefinedExactly(t);
  }

  /** Inside a clear, rainy or foggy window the parameters are that regime's tuple. */
  lemma SteadyWindowValues(t: real)
    ensures InClear(t) ==> ChainWeather(t) == Some(Params(5.0, 0.0, 0.0, 10.0, 2.0))
    ensures InRainy(t) ==> ChainWeather(t) == Some(Params(50.0, 90.0, 80.0, 100.0, 7.0))
    ensures InFoggy(t) ==> ChainWeather(t) == Some(Params(50.0, 0.0, 0.0, 10.0, 70.0))
  {
  }

  /** Each field of p lies between the corresponding fields of a and b. */
  predicate Between(p: Params, a: Params, b: Params) {
    && InRange(p.cloudiness, a.cloudiness, b.cloudiness)
    && InRange(p.precipitation, a.precipitation, b.precipitation)
    && InRange(p.precipitationDeposits, a.precipitationDeposits, b.precipitationDeposits)
    && InRange(p.windIntensity, a.windIntensity, b.windIntensity)
    && InRange(p.fogDensity, a.fogDensity, b.fogDensity)
  }

  predicate InRange(x: real, a: real, b: real) {
    (a <= x <= b) || (b <= x <= a)
  }

  lemma BlendBetween(a: Regime, b: Regime, m: real)
    requires 0.0 <= m <= 10.0
    ensures Between(Blend(RegimeParams(a), RegimeParams(b), m), RegimeParams(a), RegimeParams(b))
  {
  }

  /** Inside a fade (X, X + 10) each parameter is from + (to - from) * (t - X) / 10,
      between the values of the two regimes it joins. */
  lemma FadeValues(i: int, t: real)
    requires 0 <= i < |ScheduleSpans| && ScheduleSpans[i].Fade? && Contains(ScheduleSpans[i], t)
    ensures ChainWeather(t) == Some(Blend(RegimeParams(ScheduleSpans[i].from),
                                          RegimeParams(ScheduleSpans[i].to),
                                          t - ScheduleSpans[i].lo as real))
    ensures Between(ChainWeather(t).value, RegimeParams(ScheduleSpans[i].from),
                    RegimeParams(ScheduleSpans[i].to))
  {
    ScheduleWellFormed();
    ChainInSpan(i, t);
    BlendBetween(ScheduleSpans[i].from, ScheduleSpans[i].to, t - ScheduleSpans[i].lo as real);
  }

  /** Halfway through the first clear-to-rainy fade. */
  lemma ChainAt605()
    ensures ChainWeather(605.0) == Some(Params(27.5, 45.0, 40.0, 55.0, 4.5))
  {
    Mod10InFade(600, 605.0);
  }

  /** Outside [0, 18000] no branch fires and the parameters keep their values. */
  lemma NextOutsideKeeps(p: Params, t: real)
    requires t < 0.0 || t > 18000.0
    ensures NextParams(p, t) == p
  {
    ChainDefinedExactly(t);
  }

  /** Inside [0, 18000] the parameters after an update depend on t alone, so a
      second update at the same t changes nothing. */
  lemma NextDependsOnTimeOnly(p: Params, q: Params, t: real)
    requires 0.0 <= t <= 18000.0
    ensures ScheduleAt(t).Some? && NextParams(p, t) == NextParams(q, t) == ScheduleAt(t).value
    ensures NextParams(NextParams(p, t), t) == NextParams(p, t)
  {
    ScheduleDefinedExactly(t);
    ChainMatchesSchedule(t);
  }

  // ---------------------------------------------------------------------------
  // The sun.

  /** Sun azimuth in degrees: one full turn over the 18000 s cycle. */
  function Azimuth(t: real): (r: real)
    ensures 0.0 <= t <= 18000.0 ==> 0.0 <= r <= 360.0
  {
    t * 360.0 / 18000.0
  }

  lemma AzimuthEnds()
    ensures Azimuth(0.0) == 0.0 && Azimuth(18000.0) == 360.0
  {
  }

  lemma AzimuthIncreasing(s: real, t: real)
    requires s < t
    ensures Azimuth(s) < Azimuth(t)
  {
  }

  /** Fractional part, the floored remainder by 1. */
  function Frac(x: real): (f: real)
    ensures 0.0 <= f < 1.0
  {
    x - x.Floor as real
  }

  /** The sun's angle in turns: 3/4 of a turn at t = 0, plus one turn per
      18000 s, reduced to [0, 1). This is the angle 3*pi/2 + 2*pi*t/18000 taken
      modulo 2*pi, divided by 2*pi. */
  function Phase(t: real): (r: real)
    ensures 0.0 <= r < 1.0
  {
    Frac(0.75 + t / 18000.0)
  }

  /** Sun altitude in degrees, 30 * sin(angle) + 15, where `sinTurns` is the sine
      of an angle given in turns. */
  function Altitude(sinTurns: real -> real, t: real): (r: real)
    ensures r < 1.0 <==> sinTurns(Phase(t)) < -7.0 / 15.0
  {
    30.0 * sinTurns(Phase(t)) + 15.0
  }

  lemma FracShift(x: real)
    ensures Frac(x + 1.0) == Frac(x)
  {
    var f := x.Floor;
    assert f as real <= x < f as real + 1.0;
    assert (f + 1) as real <= x + 1.0 < (f + 1) as real + 1.0;
    assert (x + 1.0).Floor == f + 1;
  }

  /** The altitude repeats every 18000 s, whatever the sine. */
  lemma AltitudePeriodic(sinTurns: real -> real, t: real)
    ensures Altitude(sinTurns, t + 18000.0) == Altitude(sinTurns, t)
  {
    assert 0.75 + (t + 18000.0) / 18000.0 == (0.75 + t / 18000.0) + 1.0;
    FracShift(0.75 + t / 18000.0);
  }

  /** The sun, whose position follows the time it is given. */
  class Sun {
    /** The sine function (foreign: the host's math library), on turns. */
    const sinTurns: real -> real
    var azimuth: real
    var altitude: real

    constructor (t: real, sinTurns: real -> real)
      ensures this.sinTurns == sinTurns
      ensures azimuth == Azimuth(t) && altitude == Altitude(sinTurns, t)
    {
      this.sinTurns := sinTurns;
      new;
      Tick(t);
    }

    method Tick(t: real)
      modifies this
      ensures azimuth == Azimuth(t) && altitude == Altitude(sinTurns, t)
    {
      azimuth := Azimuth(t);
      altitude := Altitude(sinTurns, t);
    }
  }

  // ---------------------------------------------------------------------------
  // The simulator's weather record and the object that drives it.

  /** The six parameters set once when the weather is created. */
  datatype FixedParams = FixedParams(
    fogDistance: real,
    fogFalloff: real,
    wetness: real,
    scatteringIntensity: real,
    mieScatteringScale: real,
    rayleighScatteringScale: real)

  const InitialFixed: FixedParams := FixedParams(0.75, 0.1, 0.0, 1.0, 0.03, 0.0331)

  /** The host's weather record, which is updated in place. */
  class WeatherParameters {
    var cloudiness: real
    var precipitation: real
    var precipitationDeposits: real
    var windIntensity: real
    var fogDensity: real
    var fogDistance: real
    var fogFalloff: real
    var wetness: real
    var scatteringIntensity: real
    var mieScatteringScale: real
    var rayleighScatteringScale: real
    var sunAzimuthAngle: real
    var sunAltitudeAngle: real

    function Snapshot(): Params
      reads this
    {
      Params(cloudiness, precipitation, precipitationDeposits, windIntensity, fogDensity)
    }

    function Fixed(): FixedParams
      reads this
    {
      FixedParams(fogDistance, fogFalloff, wetness, scatteringIntensity,
                  mieScatteringScale, rayleighScatteringScale)
    }

    /** Overwrites the five scheduled parameters and nothing else. */
    method SetParams(p: Params)
      modifies this
      ensures Snapshot() == p
      ensures Fixed() == old(Fixed())
      ensures sunAzimuthAngle == old(sunAzimuthAngle) && sunAltitudeAngle == old(sunAltitudeAngle)
    {
      cloudiness := p.cloudiness;
      precipitation := p.precipitation;
      precipitationDeposits := p.precipitationDeposits;
      windIntensity := p.windIntensity;
      fogDensity := p.fogDensity;
    }
  }

  /** The weather, which changes over time. */
  class Weather {
    const weather: WeatherParameters
    const sun: Sun

    constructor (weather: WeatherParameters, t: real, sinTurns: real -> real)
      modifies weather
      ensures this.weather == weather && fresh(sun) && sun.sinTurns == sinTurns
      ensures sun.azimuth == Azimuth(t) && sun.altitude == Altitude(sinTurns, t)
      ensures weather.sunAzimuthAngle == Azimuth(t) && weather.sunAltitudeAngle == Altitude(sinTurns, t)
      ensures weather.Snapshot() == NextParams(old(weather.Snapshot()), t)
      ensures weather.Fixed() == InitialFixed
    {
      this.weather := weather;
      sun := new Sun(t, sinTurns);
      new;
      UpdateWeatherParameters(t);
      weather.fogDistance := 0.75;
      weather.fogFalloff := 0.1;
      weather.wetness := 0.0;
      weather.scatteringIntensity := 1.0;
      weather.mieScatteringScale := 0.03;
      weather.rayleighScatteringScale := 0.0331;
    }

    /** Moves the sun to t and applies the schedule at t; the six fixed
        parameters are left alone. */
    method Tick(t: real)
      modifies weather, sun
      ensures sun.azimuth == Azimuth(t) && sun.altitude == Altitude(sun.sinTurns, t)
      ensures weather.sunAzimuthAngle == Azimuth(t) && weather.sunAltitudeAngle == Altitude(sun.sinTurns, t)
      ensures weather.Snapshot() == NextParams(old(weather.Snapshot()), t)
      ensures weather.Fixed() == old(weather.Fixed())
    {
      sun.Tick(t);
      UpdateWeatherParameters(t);
    }

    /** Copies the sun position into the record, then runs the branch chain:
        the first branch whose windows contain t overwrites the five
        parameters; when none does they keep their values. */
    method UpdateWeatherParameters(t: real)
      modifies weather
      ensures weather.sunAzimuthAngle == sun.azimuth && weather.sunAltitudeAngle == sun.altitude
      ensures weather.Snapshot() == NextParams(old(weather.Snapshot()), t)
      ensures weather.Fixed() == old(weather.Fixed())
    {
      weather.sunAzimuthAngle := sun.azimuth;
      weather.sunAltitudeAngle := sun.altitude;
      var clear, rainy, foggy := RegimeParams(Clear), RegimeParams(Rainy), RegimeParams(Foggy);
      if InClear(t) {
        weather.SetParams(clear);
      } else if InRainy(t) {
        weather.SetParams(rainy);
      } else if InFoggy(t) {
        weather.SetParams(foggy);
      } else if InClearToRainy(t) {
        weather.SetParams(Blend(clear, rainy, Mod10(t)));
      } else if InClearToFoggy(t) {
        weather.SetParams(Blend(clear, foggy, Mod10(t)));
      } else if InRainyToClear(t) {
        weather.SetParams(Blend(rainy, clear, Mod10(t)));
      } else if InRainyToFoggy(t) {
        weather.SetParams(Blend(rainy, foggy, Mod10(t)));
      } else if InFoggyToClear(t) {
        weather.SetParams(Blend(foggy, clear, Mod10(t)));
      } else if InFoggyToRainy(t) {
        weather.SetParams(Blend(foggy, rainy, Mod10(t)));
      }
    }
  }
}
