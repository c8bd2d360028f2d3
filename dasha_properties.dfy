/** Properties of the Vimshottari timeline promised by the calculator:
    the 120-year cycle, contiguity, the place of the birth instant, the
    layout of the Antardashas and the outcome of the lookup. */
module DashaProperties {
  import opened Chart
  import opened Vimshottari
  import opened Dasha

  // An arithmetic aid for the solver; it models nothing in the calculator.
  /** Positions of the cycle counted on from `s`, without the remainder. */
  lemma ModNine(s: int)
    requires 0 <= s < 9
    ensures s % 9 == s
    ensures (s + 1) % 9 == (if s + 1 < 9 then s + 1 else s + -8)
         && (s + 2) % 9 == (if s + 2 < 9 then s + 2 else s + -7)
         && (s + 3) % 9 == (if s + 3 < 9 then s + 3 else s + -6)
         && (s + 4) % 9 == (if s + 4 < 9 then s + 4 else s + -5)
         && (s + 5) % 9 == (if s + 5 < 9 then s + 5 else s + -4)
         && (s + 6) % 9 == (if s + 6 < 9 then s + 6 else s + -3)
         && (s + 7) % 9 == (if s + 7 < 9 then s + 7 else s + -2)
         && (s + 8) % 9 == (if s + 8 < 9 then s + 8 else s + -1)
  {
  }

  // An arithmetic aid for the solver; it models nothing in the calculator.
  /** Nine values read cyclically from any position add up to the same total. */
  lemma RotateNine(f: int -> int, s: int)
    requires 0 <= s < 9
    ensures f(s % 9) + f((s + 1) % 9) + f((s + 2) % 9) + f((s + 3) % 9) + f((s + 4) % 9)
          + f((s + 5) % 9) + f((s + 6) % 9) + f((s + 7) % 9) + f((s + 8) % 9)
         == f(0) + f(1) + f(2) + f(3) + f(4) + f(5) + f(6) + f(7) + f(8)
  {
    ModNine(s);
  }

  /** Read cyclically from any position, the nine lordship periods add up to 120 years. */
  lemma YearsRotation(s: int)
    requires 0 <= s < 9
    ensures YearsAt(s % 9) + YearsAt((s + 1) % 9) + YearsAt((s + 2) % 9) + YearsAt((s + 3) % 9)
          + YearsAt((s + 4) % 9) + YearsAt((s + 5) % 9) + YearsAt((s + 6) % 9) + YearsAt((s + 7) % 9)
          + YearsAt((s + 8) % 9) == 120
  {
    RotateNine(k => if 0 <= k < 9 then YearsAt(k) else 0, s);
  }

  /** Whatever lord starts the cycle, the nine Mahadashas span 120 years. */
  lemma CycleTotal(s: int)
    requires 0 <= s < 9
    ensures CycleMs(s, 9) == 120 * MsPerYear
  {
    CycleStep(s, 0); CycleStep(s, 1); CycleStep(s, 2); CycleStep(s, 3); CycleStep(s, 4);
    CycleStep(s, 5); CycleStep(s, 6); CycleStep(s, 7); CycleStep(s, 8);
    YearsRotation(s);
  }

  // ---------------------------------------------------------------------
  // The tables

  /** Every lordship period is positive and together they make 120 years. */
  lemma YearsTotal()
    ensures forall k :: 0 <= k < 9 ==> YearsAt(k) > 0
    ensures YearsAt(0) + YearsAt(1) + YearsAt(2) + YearsAt(3) + YearsAt(4)
          + YearsAt(5) + YearsAt(6) + YearsAt(7) + YearsAt(8) == 120
  {
  }

  /** The year table and the order table are paired by position. */
  lemma LordYears()
    ensures YearsAt(IndexOf(Sun)) == 6 && YearsAt(IndexOf(Moon)) == 10
    ensures YearsAt(IndexOf(Mars)) == 7 && YearsAt(IndexOf(Rahu)) == 18
    ensures YearsAt(IndexOf(Jupiter)) == 16 && YearsAt(IndexOf(Saturn)) == 19
    ensures YearsAt(IndexOf(Mercury)) == 17 && YearsAt(IndexOf(Ketu)) == 7
    ensures YearsAt(IndexOf(Venus)) == 20
  {
  }

  /** The order table has no repeated lord. */
  lemma PlanetAtInjective(i: int, j: int)
    requires 0 <= i < 9 && 0 <= j < 9
    ensures PlanetAt(i) == PlanetAt(j) <==> i == j
  {
    IndexOfPlanetAt(i);
    IndexOfPlanetAt(j);
  }

  // ---------------------------------------------------------------------
  // The Mahadashas

  /** The `j`-th Mahadasha of a cycle laid out from `start0`. */
  lemma MahaAt(start0: int, s: int, j: nat)
    requires 0 <= s < 9 && j < 9
    ensures var m := FillAntarDashas(MahaHeads(start0, s, 9))[j];
            && m.planet == PlanetAt((s + j) % 9)
            && m.startTime == start0 + CycleMs(s, j)
            && m.endTime == start0 + CycleMs(s, j + 1)
            && m.antarDashas == AntarDashas(m)
  {
    MahaHeadsAt(start0, s, 9, j);
    FillAntarDashasAt(MahaHeads(start0, s, 9), j);
    CycleStep(s, j);
  }

  /** Nine Mahadashas, the `j`-th ruled by the lord `j` places after the
      starting one, each lasting its lord's years, one right after the
      other from `start0` to 120 years later; each carries the Antardasha
      layout of its own span. */
  ghost predicate CycleLayout(periods: seq<DashaPeriod>, start0: int, s: int)
    requires 0 <= s < 9
  {
    && |periods| == 9
    && periods[0].startTime == start0
    && periods[8].endTime == start0 + 120 * MsPerYear
    && (forall j :: 0 <= j < 9 ==> periods[j].planet == PlanetAt((s + j) % 9))
    && (forall j :: 0 <= j < 9 ==>
          periods[j].endTime - periods[j].startTime == YearsAt(IndexOf(periods[j].planet)) * MsPerYear)
    && (forall j :: 0 <= j < 8 ==> periods[j].endTime == periods[j + 1].startTime)
    && (forall j :: 0 <= j < 9 ==> periods[j].antarDashas == AntarDashas(periods[j]))
  }

  lemma CycleIsLaidOut(start0: int, s: int)
    requires 0 <= s < 9
    ensures CycleLayout(FillAntarDashas(MahaHeads(start0, s, 9)), start0, s)
  {
    var periods := FillAntarDashas(MahaHeads(start0, s, 9));
    forall j | 0 <= j < 9
      ensures periods[j].planet == PlanetAt((s + j) % 9)
      ensures periods[j].startTime == start0 + CycleMs(s, j)
      ensures periods[j].endTime == start0 + CycleMs(s, j + 1)
      ensures periods[j].endTime - periods[j].startTime == YearsAt(IndexOf(periods[j].planet)) * MsPerYear
      ensures periods[j].antarDashas == AntarDashas(periods[j])
    {
      MahaAt(start0, s, j);
      CycleStep(s, j);
      IndexOfPlanetAt((s + j) % 9);
    }
    CycleTotal(s);
  }

  /** The calculator's timeline has that layout, starting from the back-dated
      start of the first Mahadasha at the lord of the Moon's quarter. */
  lemma TimelineLayout(birthTime: int, moonLongitude: real)
    requires 0.0 <= moonLongitude
    ensures CycleLayout(Timeline(birthTime, moonLongitude),
                        DashaStartTime(birthTime, moonLongitude), FindStartingPlanet(moonLongitude))
  {
    CycleIsLaidOut(DashaStartTime(birthTime, moonLongitude), FindStartingPlanet(moonLongitude));
  }

  /** Reading the cycle from position `s`, position `a` comes `j` places on. */
  lemma RotationOffset(s: int, a: int) returns (j: int)
    requires 0 <= s < 9 && 0 <= a < 9
    ensures 0 <= j < 9 && (s + j) % 9 == a
  {
    j := if a >= s then a - s else a + 9 - s;
  }

  /** Two places of the cycle read from the same position hold the same
      lord only if they are the same place. */
  lemma RotationInjective(s: int, i: int, j: int)
    requires 0 <= s < 9 && 0 <= i < 9 && 0 <= j < 9
    requires PlanetAt((s + i) % 9) == PlanetAt((s + j) % 9)
    ensures i == j
  {
    PlanetAtInjective((s + i) % 9, (s + j) % 9);
  }

  /** Every lord rules exactly one Mahadasha of a cycle. */
  lemma EachLordOnce(periods: seq<DashaPeriod>, start0: int, s: int, p: Planet)
    requires 0 <= s < 9 && CycleLayout(periods, start0, s)
    ensures exists j :: 0 <= j < 9 && periods[j].planet == p
    ensures forall i, j :: 0 <= i < 9 && 0 <= j < 9 && periods[i].planet == p && periods[j].planet == p ==> i == j
  {
    var j := RotationOffset(s, IndexOf(p));
    assert periods[j].planet == p;
    forall i, j | 0 <= i < 9 && 0 <= j < 9 && periods[i].planet == p && periods[j].planet == p
      ensures i == j
    {
      RotationInjective(s, i, j);
    }
  }

  /** The birth instant falls inside the first Mahadasha. */
  lemma BirthInFirstMahadasha(birthTime: int, moonLongitude: real)
    requires 0.0 <= moonLongitude
    ensures var periods := Timeline(birthTime, moonLongitude);
            |periods| == 9 && periods[0].startTime <= birthTime < periods[0].endTime
  {
    var start0 := DashaStartTime(birthTime, moonLongitude);
    var s := FindStartingPlanet(moonLongitude);
    FirstMahadashaSpan(start0, s);
  }

  lemma FirstMahadashaSpan(start0: int, s: int)
    requires 0 <= s < 9
    ensures var periods := FillAntarDashas(MahaHeads(start0, s, 9));
            |periods| == 9 && periods[0].startTime == start0 && periods[0].endTime == start0 + PeriodMsAt(s)
  {
    MahaAt(start0, s, 0);
    CycleFirst(s);
  }

  lemma CycleFirst(s: int)
    requires 0 <= s < 9
    ensures CycleMs(s, 0) == 0 && CycleMs(s, 1) == PeriodMsAt(s)
  {
    assert (s + 0) % 9 == s;
    CycleStep(s, 0);
  }

  // ---------------------------------------------------------------------
  // The Antardashas

  /** The nine Antardashas of `m`: the first ruled by `m`'s own lord and
      starting with `m`, the lords following the cycle order, each lasting
      the truncated share of `m`'s span that its lord's years give, one right
      after the other, none subdivided further. */
  ghost predicate AntarLayout(children: seq<DashaPeriod>, m: DashaPeriod)
  {
    var s := IndexOf(m.planet);
    && |children| == 9
    && children[0].planet == m.planet
    && children[0].startTime == m.startTime
    && (forall j :: 0 <= j < 9 ==> children[j].planet == PlanetAt((s + j) % 9))
    && (forall j :: 0 <= j < 9 ==>
          children[j].endTime - children[j].startTime
          == AntarMsAt(m.endTime - m.startTime, IndexOf(children[j].planet)))
    && (forall j :: 0 <= j < 8 ==> children[j].endTime == children[j + 1].startTime)
    && (forall j :: 0 <= j < 9 ==> children[j].antarDashas == [])
    && children[8].endTime == m.startTime + AntarOffset(m.endTime - m.startTime, s, 9)
  }

  lemma AntarAt(m: DashaPeriod, j: nat)
    requires j < 9
    ensures var s := IndexOf(m.planet);
            var a := AntarDashas(m)[j];
            var totalMs := m.endTime - m.startTime;
            && a.planet == PlanetAt((s + j) % 9)
            && a.startTime == m.startTime + AntarOffset(totalMs, s, j)
            && a.endTime == m.startTime + AntarOffset(totalMs, s, j + 1)
            && a.endTime - a.startTime == AntarMsAt(totalMs, IndexOf(a.planet))
            && a.antarDashas == []
  {
    var s := IndexOf(m.planet);
    AntarListAt(m.planet, m.startTime, m.endTime, 9, j);
    AntarOffsetStep(m.endTime - m.startTime, s, j);
    IndexOfPlanetAt((s + j) % 9);
  }

  lemma AntarIsLaidOut(m: DashaPeriod)
    ensures AntarLayout(AntarDashas(m), m)
  {
    var s := IndexOf(m.planet);
    var children := AntarDashas(m);
    forall j | 0 <= j < 9
      ensures children[j].planet == PlanetAt((s + j) % 9)
      ensures children[j].startTime == m.startTime + AntarOffset(m.endTime - m.startTime, s, j)
      ensures children[j].endTime == m.startTime + AntarOffset(m.endTime - m.startTime, s, j + 1)
      ensures children[j].endTime - children[j].startTime
              == AntarMsAt(m.endTime - m.startTime, IndexOf(children[j].planet))
      ensures children[j].antarDashas == []
    {
      AntarAt(m, j);
    }
    assert (s + 0) % 9 == s;
    assert AntarOffset(m.endTime - m.startTime, s, 0) == 0;
  }

  /** The Antardasha shares of a span of `totalMs`, added in table order. */
  ghost function AntarTotal(totalMs: int): int
  {
    AntarMsAt(totalMs, 0) + AntarMsAt(totalMs, 1) + AntarMsAt(totalMs, 2) + AntarMsAt(totalMs, 3)
    + AntarMsAt(totalMs, 4) + AntarMsAt(totalMs, 5) + AntarMsAt(totalMs, 6) + AntarMsAt(totalMs, 7)
    + AntarMsAt(totalMs, 8)
  }

  lemma AntarOffsetNine(totalMs: int, s: int)
    requires 0 <= s < 9
    ensures AntarOffset(totalMs, s, 9)
         == AntarMsAt(totalMs, s % 9) + AntarMsAt(totalMs, (s + 1) % 9) + AntarMsAt(totalMs, (s + 2) % 9)
          + AntarMsAt(totalMs, (s + 3) % 9) + AntarMsAt(totalMs, (s + 4) % 9) + AntarMsAt(totalMs, (s + 5) % 9)
          + AntarMsAt(totalMs, (s + 6) % 9) + AntarMsAt(totalMs, (s + 7) % 9) + AntarMsAt(totalMs, (s + 8) % 9)
  {
    assert (s + 0) % 9 == s % 9;
    AntarOffsetStep(totalMs, s, 0); AntarOffsetStep(totalMs, s, 1); AntarOffsetStep(totalMs, s, 2);
    AntarOffsetStep(totalMs, s, 3); AntarOffsetStep(totalMs, s, 4); AntarOffsetStep(totalMs, s, 5);
    AntarOffsetStep(totalMs, s, 6); AntarOffsetStep(totalMs, s, 7); AntarOffsetStep(totalMs, s, 8);
  }

  /** Read from any lord, the nine shares are the same nine shares. */
  lemma AntarOffsetIsTotal(totalMs: int, s: int)
    requires 0 <= s < 9
    ensures AntarOffset(totalMs, s, 9) == AntarTotal(totalMs)
  {
    AntarOffsetNine(totalMs, s);
    RotateNine(k => if 0 <= k < 9 then AntarMsAt(totalMs, k) else 0, s);
  }

  /** Each share is truncated toward zero, so for a forward span the nine
      shares fall short of the whole by less than nine milliseconds. */
  lemma AntarTotalBounds(totalMs: int)
    requires 0 <= totalMs
    ensures totalMs - 9 < AntarTotal(totalMs) <= totalMs
  {
    ShareBounds(totalMs, 0); ShareBounds(totalMs, 1); ShareBounds(totalMs, 2);
    ShareBounds(totalMs, 3); ShareBounds(totalMs, 4); ShareBounds(totalMs, 5);
    ShareBounds(totalMs, 6); ShareBounds(totalMs, 7); ShareBounds(totalMs, 8);
  }

  /** A lord's share is its exact proportion of the span, rounded down. */
  lemma ShareBounds(totalMs: int, k: int)
    requires 0 <= totalMs && 0 <= k < 9
    ensures var exact := totalMs as real * (YearsAt(k) as real / 120.0);
            0 <= AntarMsAt(totalMs, k) && AntarMsAt(totalMs, k) as real <= exact < AntarMsAt(totalMs, k) as real + 1.0
  {
    TruncBounds(totalMs as real * (YearsAt(k) as real / 120.0));
  }

  /** When the span is a whole number of 120ths, no share is truncated and
      the shares add up to the whole span. */
  lemma AntarTotalExact(totalMs: int, q: int)
    requires totalMs == 120 * q
    ensures AntarTotal(totalMs) == totalMs
  {
    ShareExact(totalMs, q, 0); ShareExact(totalMs, q, 1); ShareExact(totalMs, q, 2);
    ShareExact(totalMs, q, 3); ShareExact(totalMs, q, 4); ShareExact(totalMs, q, 5);
    ShareExact(totalMs, q, 6); ShareExact(totalMs, q, 7); ShareExact(totalMs, q, 8);
  }

  lemma ShareExact(totalMs: int, q: int, k: int)
    requires totalMs == q * 120 && 0 <= k < 9
    ensures AntarMsAt(totalMs, k) == q * YearsAt(k)
  {
    var y := YearsAt(k);
    assert totalMs as real * (y as real / 120.0) == (q * y) as real by {
      assert totalMs as real == q as real * 120.0;
      assert (q * y) as real == q as real * y as real;
    }
    TruncBounds((q * y) as real);
  }

  lemma AntarLastEnd(m: DashaPeriod)
    ensures var children := AntarDashas(m);
            |children| == 9 && children[8].endTime == m.startTime + AntarTotal(m.endTime - m.startTime)
  {
    AntarAt(m, 8);
    AntarOffsetIsTotal(m.endTime - m.startTime, IndexOf(m.planet));
  }

  /** The Antardashas of a forward Mahadasha end inside its last nine
      milliseconds, never after it. */
  lemma AntarSpan(m: DashaPeriod)
    requires m.startTime <= m.endTime
    ensures var children := AntarDashas(m);
            |children| == 9 && m.endTime - 9 < children[8].endTime <= m.endTime
  {
    AntarLastEnd(m);
    AntarTotalBounds(m.endTime - m.startTime);
  }

  /** For a span that is a whole number of 120ths the Antardashas end exactly
      where the Mahadasha ends. */
  lemma AntarSpanExact(m: DashaPeriod, q: int)
    requires m.endTime - m.startTime == 120 * q
    ensures var children := AntarDashas(m);
            |children| == 9 && children[8].endTime == m.endTime
  {
    var totalMs := m.endTime - m.startTime;
    AntarLastEnd(m);
    AntarTotalExact(totalMs, q);
  }

  // ---------------------------------------------------------------------
  // The lookup

  /** Forward periods laid end to end. */
  ghost predicate Chained(periods: seq<DashaPeriod>)
  {
    && (forall j :: 0 <= j < |periods| ==> periods[j].startTime <= periods[j].endTime)
    && (forall j :: 0 <= j < |periods| - 1 ==> periods[j].endTime == periods[j + 1].startTime)
  }

  /** In a chain, a later period starts no earlier than an earlier one ends. */
  lemma {:induction false} ChainOrdered(periods: seq<DashaPeriod>, i: int, j: int)
    requires Chained(periods) && 0 <= i < j < |periods|
    ensures periods[i].endTime <= periods[j].startTime
  {
    if i < j - 1 {
      ChainOrdered(periods, i, j - 1);
    }
  }

  /** Every period of a chain lies between the chain's first start and last end. */
  lemma ChainWithin(periods: seq<DashaPeriod>, j: int)
    requires Chained(periods) && 0 <= j < |periods|
    ensures periods[0].startTime <= periods[j].startTime
    ensures periods[j].endTime <= periods[|periods| - 1].endTime
  {
    if 0 < j {
      ChainOrdered(periods, 0, j);
    }
    if j < |periods| - 1 {
      ChainOrdered(periods, j, |periods| - 1);
    }
  }

  /** An instant inside the span of a chain is found in it. */
  lemma {:induction false} FoundInChain(periods: seq<DashaPeriod>, t: int)
    requires Chained(periods) && |periods| > 0
    requires periods[0].startTime <= t < periods[|periods| - 1].endTime
    ensures FirstContaining(periods, t) < |periods|
  {
    if !Contains(periods[0], t) {
      assert |periods| > 1;
      var rest := periods[1..];
      assert Chained(rest) by {
        forall j | 0 <= j < |rest| - 1
          ensures rest[j].endTime == rest[j + 1].startTime
        {
          assert rest[j] == periods[j + 1] && rest[j + 1] == periods[j + 2];
        }
      }
      FoundInChain(rest, t);
    }
  }

  /** An instant outside the span of a chain is found nowhere in it. */
  lemma NotFoundOutsideChain(periods: seq<DashaPeriod>, t: int)
    requires Chained(periods) && |periods| > 0
    requires t < periods[0].startTime || periods[|periods| - 1].endTime <= t
    ensures FirstContaining(periods, t) == |periods|
  {
    forall j | 0 <= j < |periods|
      ensures !Contains(periods[j], t)
    {
      ChainWithin(periods, j);
    }
    FirstContainingIs(periods, t, |periods|);
  }

  /** An instant where one period hands over to the next belongs to the next. */
  lemma LaterAtBoundary(periods: seq<DashaPeriod>, j: int)
    requires Chained(periods) && 0 <= j < |periods| - 1
    requires periods[j + 1].startTime < periods[j + 1].endTime
    ensures FirstContaining(periods, periods[j].endTime) == j + 1
  {
    var t := periods[j].endTime;
    forall k | 0 <= k < j + 1
      ensures !Contains(periods[k], t)
    {
      if k < j {
        ChainOrdered(periods, k, j);
      }
    }
    FirstContainingIs(periods, t, j + 1);
  }

  lemma CycleChained(periods: seq<DashaPeriod>, start0: int, s: int)
    requires 0 <= s < 9 && CycleLayout(periods, start0, s)
    ensures Chained(periods)
    ensures forall j :: 0 <= j < 9 ==> periods[j].startTime < periods[j].endTime
  {
    forall j | 0 <= j < 9
      ensures periods[j].startTime < periods[j].endTime
    {
      assert YearsAt(IndexOf(periods[j].planet)) > 0;
    }
  }

  lemma AntarChained(m: DashaPeriod)
    requires m.startTime <= m.endTime
    ensures Chained(AntarDashas(m))
  {
    var children := AntarDashas(m);
    forall j | 0 <= j < 9
      ensures children[j].startTime <= children[j].endTime
    {
      AntarAt(m, j);
      ShareBounds(m.endTime - m.startTime, IndexOf(children[j].planet));
    }
    forall j | 0 <= j < 8
      ensures children[j].endTime == children[j + 1].startTime
    {
      AntarAt(m, j);
      AntarAt(m, j + 1);
    }
  }

  /** A label names the first Mahadasha holding the instant and, inside it,
      the first Antardasha holding it. */
  lemma LabelNamesRunningPeriods(periods: seq<DashaPeriod>, t: int)
    ensures CurrentLabel(periods, t) == NoPeriod <==> forall i :: 0 <= i < |periods| ==> !Contains(periods[i], t)
    ensures CurrentLabel(periods, t).MahaOnly? ==>
              exists i :: 0 <= i < |periods| && Contains(periods[i], t)
                       && periods[i].planet == CurrentLabel(periods, t).maha
                       && forall j :: 0 <= j < |periods[i].antarDashas| ==> !Contains(periods[i].antarDashas[j], t)
    ensures CurrentLabel(periods, t).MahaAntar? ==>
              exists i, j :: 0 <= i < |periods| && 0 <= j < |periods[i].antarDashas|
                          && Contains(periods[i], t) && Contains(periods[i].antarDashas[j], t)
                          && periods[i].planet == CurrentLabel(periods, t).maha
                          && periods[i].antarDashas[j].planet == CurrentLabel(periods, t).antar
  {
    var i := FirstContaining(periods, t);
    if i < |periods| {
      var j := FirstContaining(periods[i].antarDashas, t);
      if j < |periods[i].antarDashas| {
        assert Contains(periods[i].antarDashas[j], t);
      }
    }
  }

  /** Looked up in the calculator's timeline, an instant before the first
      Mahadasha or from 120 years on gets no period, and any instant in
      between gets both a Mahadasha and an Antardasha: the label with the
      Mahadasha alone never occurs. */
  lemma TimelineLookup(birthTime: int, moonLongitude: real, t: int)
    requires 0.0 <= moonLongitude
    ensures var start0 := DashaStartTime(birthTime, moonLongitude);
            var found := CurrentLabel(Timeline(birthTime, moonLongitude), t);
            && (found == NoPeriod <==> !(start0 <= t < start0 + 120 * MsPerYear))
            && (start0 <= t < start0 + 120 * MsPerYear ==> found.MahaAntar?)
  {
    var start0 := DashaStartTime(birthTime, moonLongitude);
    var s := FindStartingPlanet(moonLongitude);
    TimelineLayout(birthTime, moonLongitude);
    CycleLookup(Timeline(birthTime, moonLongitude), start0, s, t);
  }

  lemma CycleLookup(periods: seq<DashaPeriod>, start0: int, s: int, t: int)
    requires 0 <= s < 9 && CycleLayout(periods, start0, s)
    ensures var found := CurrentLabel(periods, t);
            && (found == NoPeriod <==> !(start0 <= t < start0 + 120 * MsPerYear))
            && (start0 <= t < start0 + 120 * MsPerYear ==> found.MahaAntar?)
  {
    CycleChained(periods, start0, s);
    if start0 <= t < start0 + 120 * MsPerYear {
      FoundInChain(periods, t);
      var i := FirstContaining(periods, t);
      var q := MahadashaSpanExact(periods, start0, s, i);
      AntarCovers(periods[i], t, q);
    } else {
      NotFoundOutsideChain(periods, t);
    }
  }

  /** The Antardashas of a Mahadasha spanning a whole number of 120ths
      cover it without a gap. */
  lemma AntarCovers(m: DashaPeriod, t: int, q: int)
    requires m.endTime - m.startTime == 120 * q && Contains(m, t)
    ensures FirstContaining(AntarDashas(m), t) < 9
  {
    AntarSpanExact(m, q);
    AntarChained(m);
    AntarAt(m, 0);
    FoundInChain(AntarDashas(m), t);
  }

  /** A Mahadasha of the cycle spans a whole number of 120ths of a millisecond count. */
  lemma MahadashaSpanExact(periods: seq<DashaPeriod>, start0: int, s: int, i: int) returns (q: int)
    requires 0 <= s < 9 && CycleLayout(periods, start0, s) && 0 <= i < 9
    ensures periods[i].endTime - periods[i].startTime == 120 * q
  {
    q := YearsAt(IndexOf(periods[i].planet)) * 262980000;
  }

  /** At the instant one Mahadasha hands over to the next, the lookup
      reports the next Mahadasha, in its own Antardasha. */
  lemma TimelineBoundary(birthTime: int, moonLongitude: real, j: int)
    requires 0.0 <= moonLongitude && 0 <= j < 8
    ensures var periods := Timeline(birthTime, moonLongitude);
            |periods| == 9
            && CurrentLabel(periods, periods[j].endTime) == MahaAntar(periods[j + 1].planet, periods[j + 1].planet)
  {
    TimelineLayout(birthTime, moonLongitude);
    CycleBoundary(Timeline(birthTime, moonLongitude), DashaStartTime(birthTime, moonLongitude),
                  FindStartingPlanet(moonLongitude), j);
  }

  lemma CycleBoundary(periods: seq<DashaPeriod>, start0: int, s: int, j: int)
    requires 0 <= s < 9 && CycleLayout(periods, start0, s) && 0 <= j < 8
    ensures CurrentLabel(periods, periods[j].endTime) == MahaAntar(periods[j + 1].planet, periods[j + 1].planet)
  {
    CycleChained(periods, start0, s);
    LaterAtBoundary(periods, j);
    var m := periods[j + 1];
    assert m.endTime - m.startTime >= 120 by {
      assert YearsAt(IndexOf(m.planet)) > 0;
    }
    AntarFirstAtStart(m);
  }

  /** The first Antardasha of a Mahadasha of at least 120 ms is ruled by the
      Mahadasha's own lord and holds the Mahadasha's first instant. */
  lemma AntarFirstAtStart(m: DashaPeriod)
    requires m.endTime - m.startTime >= 120
    ensures FirstContaining(AntarDashas(m), m.startTime) == 0
    ensures AntarDashas(m)[0].planet == m.planet
  {
    AntarAt(m, 0);
    assert IndexOf(m.planet) % 9 == IndexOf(m.planet);
    SharePositive(m.endTime - m.startTime, IndexOf(m.planet));
    FirstContainingIs(AntarDashas(m), m.startTime, 0);
  }

  /** Over a span of at least 120 ms every lord's share is positive. */
  lemma SharePositive(totalMs: int, k: int)
    requires 120 <= totalMs && 0 <= k < 9
    ensures 0 < AntarMsAt(totalMs, k)
  {
    var r := YearsAt(k) as real / 120.0;
    ShareBounds(totalMs, k);
    MulLess(120.0, totalMs as real, r);
  }

  /** Outside the calculator's own timeline the Mahadasha-only label is
      reachable: a 100 ms Mahadasha of the Sun has Antardashas covering only
      its first 96 ms, so its 99th millisecond carries no Antardasha. */
  lemma TruncationGap()
    ensures CurrentLabel([WithAntarDashas(DashaPeriod(Sun, 0, 100, []))], 99) == MahaOnly(Sun)
  {
    var m := DashaPeriod(Sun, 0, 100, []);
    AntarLastEnd(m);
    AntarChained(m);
    GapTotal();
    NotFoundOutsideChain(AntarDashas(m), 99);
    assert FirstContaining([WithAntarDashas(m)], 99) == 0;
  }

  lemma GapTotal()
    ensures AntarTotal(100) == 96
  {
    ShareBounds(100, 0); ShareBounds(100, 1); ShareBounds(100, 2);
    ShareBounds(100, 3); ShareBounds(100, 4); ShareBounds(100, 5);
    ShareBounds(100, 6); ShareBounds(100, 7); ShareBounds(100, 8);
  }
}
