/** The Vimshottari Dasha calculator: nine consecutive Mahadashas, starting
    from the lord of the Moon's nakshatra quarter and back-dated by the part
    of the nakshatra already traversed, each split into nine Antardashas, and
    the lookup of the period running at an instant. */
module Dasha {
  import opened Chart
  import opened Vimshottari

  /** The first `k` Antardashas of a Mahadasha of `planet` over [startTime, endTime). */
  function AntarList(planet: Planet, startTime: int, endTime: int, k: nat): (r: seq<DashaPeriod>)
    ensures |r| == k
  {
    if k == 0 then [] else AntarList(planet, startTime, endTime, k - 1) + [Antardasha(planet, startTime, endTime, k - 1)]
  }

  lemma {:induction false} AntarListAt(planet: Planet, startTime: int, endTime: int, k: nat, j: nat)
    requires j < k
    ensures AntarList(planet, startTime, endTime, k)[j] == Antardasha(planet, startTime, endTime, j)
  {
    AntarListStep(planet, startTime, endTime, k - 1);
    if j < k - 1 {
      AntarListAt(planet, startTime, endTime, k - 1, j);
    }
  }

  /** The nine Antardashas of a Mahadasha. */
  function AntarDashas(mahadasha: DashaPeriod): seq<DashaPeriod>
  {
    AntarList(mahadasha.planet, mahadasha.startTime, mahadasha.endTime, 9)
  }

  /** The `i`-th Mahadasha of the cycle starting at `PlanetAt(s)` on `start0`,
      before its Antardashas are filled in. */
  function MahaHead(start0: int, s: int, i: nat): DashaPeriod
    requires 0 <= s < 9
  {
    var k := (s + i) % 9;
    var startTime := start0 + CycleMs(s, i);
    DashaPeriod(PlanetAt(k), startTime, startTime + PeriodMsAt(k), [])
  }

  /** The first `k` Mahadashas of that cycle, before their Antardashas are filled in. */
  function MahaHeads(start0: int, s: int, k: nat): (r: seq<DashaPeriod>)
    requires 0 <= s < 9
    ensures |r| == k
  {
    if k == 0 then [] else MahaHeads(start0, s, k - 1) + [MahaHead(start0, s, k - 1)]
  }

  lemma {:induction false} MahaHeadsAt(start0: int, s: int, k: nat, j: nat)
    requires 0 <= s < 9 && j < k
    ensures MahaHeads(start0, s, k)[j] == MahaHead(start0, s, j)
  {
    if j < k - 1 {
      MahaHeadsAt(start0, s, k - 1, j);
    }
  }

  /** A Mahadasha with its Antardashas filled in. */
  function WithAntarDashas(mahadasha: DashaPeriod): DashaPeriod
  {
    mahadasha.(antarDashas := AntarDashas(mahadasha))
  }

  /** Every Mahadasha of a list with its Antardashas filled in. */
  function FillAntarDashas(periods: seq<DashaPeriod>): (r: seq<DashaPeriod>)
    ensures |r| == |periods|
  {
    if periods == [] then []
    else FillAntarDashas(periods[..|periods| - 1]) + [WithAntarDashas(periods[|periods| - 1])]
  }

  lemma FillAntarDashasAppend(periods: seq<DashaPeriod>, m: DashaPeriod)
    ensures FillAntarDashas(periods + [m]) == FillAntarDashas(periods) + [WithAntarDashas(m)]
  {
    assert (periods + [m])[..|periods|] == periods;
  }

  lemma {:induction false} FillAntarDashasAt(periods: seq<DashaPeriod>, j: nat)
    requires j < |periods|
    ensures FillAntarDashas(periods)[j] == WithAntarDashas(periods[j])
  {
    if j < |periods| - 1 {
      FillAntarDashasAt(periods[..|periods| - 1], j);
    }
  }

  /** The full timeline of nine Mahadashas. */
  function Timeline(birthTime: int, moonLongitude: real): seq<DashaPeriod>
    requires 0.0 <= moonLongitude
  {
    FillAntarDashas(MahaHeads(DashaStartTime(birthTime, moonLongitude), FindStartingPlanet(moonLongitude), 9))
  }

  // ---------------------------------------------------------------------
  // The calculator

  /** Lays out the Antardashas of a Mahadasha one after the other. */
  method CalculateAntarDasha(mahadasha: DashaPeriod) returns (antarDashas: seq<DashaPeriod>)
    ensures antarDashas == AntarDashas(mahadasha)
  {
    var startIndex := IndexOf(mahadasha.planet);
    var startTime := mahadasha.startTime;
    var totalPeriodMs := mahadasha.endTime - mahadasha.startTime;
    antarDashas := [];
    var i := 0;
    while i < 9
      invariant 0 <= i <= 9
      invariant startTime == mahadasha.startTime + AntarOffset(totalPeriodMs, startIndex, i)
      invariant antarDashas == AntarList(mahadasha.planet, mahadasha.startTime, mahadasha.endTime, i)
    {
      var planetIndex := (startIndex + i) % 9;
      var proportion := YearsAt(planetIndex) as real / 120.0;
      var periodMs := ScaleMs(totalPeriodMs, proportion);
      var antardasha := DashaPeriod(PlanetAt(planetIndex), startTime, startTime + periodMs, []);
      AntarStep(mahadasha.planet, mahadasha.startTime, mahadasha.endTime, i, planetIndex, startTime, antarDashas, antardasha);
      antarDashas := antarDashas + [antardasha];
      startTime := antardasha.endTime;
      i := i + 1;
    }
  }

  /** One step of the Antardasha layout: the `i`-th Antardasha starts at
      `cur` and lasts the share of the lord at position `k`. */
  lemma AntarStep(planet: Planet, startTime: int, endTime: int, i: nat, k: int,
                  cur: int, xs: seq<DashaPeriod>, antardasha: DashaPeriod)
    requires k == (IndexOf(planet) + i) % 9
    requires cur == startTime + AntarOffset(endTime - startTime, IndexOf(planet), i)
    requires xs == AntarList(planet, startTime, endTime, i)
    requires antardasha
          == DashaPeriod(PlanetAt(k), cur, cur + ScaleMs(endTime - startTime, YearsAt(k) as real / 120.0), [])
    ensures antardasha.endTime == startTime + AntarOffset(endTime - startTime, IndexOf(planet), i + 1)
    ensures xs + [antardasha] == AntarList(planet, startTime, endTime, i + 1)
  {
    AntarListStep(planet, startTime, endTime, i);
    AntardashaIs(planet, startTime, endTime, i, k, cur, antardasha);
  }

  lemma AntardashaIs(planet: Planet, startTime: int, endTime: int, i: nat, k: int,
                     cur: int, antardasha: DashaPeriod)
    requires k == (IndexOf(planet) + i) % 9
    requires cur == startTime + AntarOffset(endTime - startTime, IndexOf(planet), i)
    requires antardasha
          == DashaPeriod(PlanetAt(k), cur, cur + ScaleMs(endTime - startTime, YearsAt(k) as real / 120.0), [])
    ensures antardasha.endTime == startTime + AntarOffset(endTime - startTime, IndexOf(planet), i + 1)
    ensures Antardasha(planet, startTime, endTime, i) == antardasha
  {
    AntarOffsetStep(endTime - startTime, IndexOf(planet), i);
  }

  lemma AntarListStep(planet: Planet, startTime: int, endTime: int, i: nat)
    ensures AntarList(planet, startTime, endTime, i + 1)
         == AntarList(planet, startTime, endTime, i) + [Antardasha(planet, startTime, endTime, i)]
  {
  }

  /** Lays out the nine Mahadashas from the back-dated start. */
  method CalculateVimshottariDasha(birthTime: int, moonLongitude: real) returns (dashaPeriods: seq<DashaPeriod>)
    requires 0.0 <= moonLongitude
    ensures dashaPeriods == Timeline(birthTime, moonLongitude)
  {
    var startingPlanetIndex := FindStartingPlanet(moonLongitude);
    var startTime := DashaStartTime(birthTime, moonLongitude);
    ghost var start0 := startTime;
    dashaPeriods := [];
    var i := 0;
    while i < 9
      invariant 0 <= i <= 9
      invariant startTime == start0 + CycleMs(startingPlanetIndex, i)
      invariant dashaPeriods == FillAntarDashas(MahaHeads(start0, startingPlanetIndex, i))
    {
      var planetIndex := (startingPlanetIndex + i) % 9;
      var periodMs := YearsAt(planetIndex) * 31557600000;
      var period := DashaPeriod(PlanetAt(planetIndex), startTime, startTime + periodMs, []);
      MahaStep(start0, startingPlanetIndex, i, planetIndex, startTime, period);
      FillAntarDashasAppend(MahaHeads(start0, startingPlanetIndex, i), period);
      var antar := CalculateAntarDasha(period);
      period := period.(antarDashas := antar);
      dashaPeriods := dashaPeriods + [period];
      startTime := period.endTime;
      i := i + 1;
    }
  }

  /** One step of the Mahadasha layout: the `i`-th Mahadasha starts at `cur`
      and lasts the years of the lord at position `k`. */
  lemma MahaStep(start0: int, s: int, i: nat, k: int, cur: int, head: DashaPeriod)
    requires 0 <= s < 9 && k == (s + i) % 9
    requires cur == start0 + CycleMs(s, i)
    requires head == DashaPeriod(PlanetAt(k), cur, cur + YearsAt(k) * 31557600000, [])
    ensures head.endTime == start0 + CycleMs(s, i + 1)
    ensures MahaHeads(start0, s, i + 1) == MahaHeads(start0, s, i) + [head]
  {
    CycleStep(s, i);
  }

  // ---------------------------------------------------------------------
  // The running period at an instant

  /** The outcome of a lookup: both levels, the Mahadasha alone, or none. */
  datatype DashaLabel = MahaAntar(maha: Planet, antar: Planet) | MahaOnly(maha: Planet) | NoPeriod

  /** The text shown for a lookup. */
  function Render(current: DashaLabel): string
  {
    match current
    case MahaAntar(m, a) => Name(m) + "-" + Name(a)
    case MahaOnly(m) => Name(m)
    case NoPeriod => "Unknown"
  }

  /** Half-open membership of an instant in a period. */
  predicate Contains(period: DashaPeriod, t: int)
  {
    period.startTime <= t < period.endTime
  }

  /** Index of the first period that contains `t`, or `|periods|` if none does. */
  function FirstContaining(periods: seq<DashaPeriod>, t: int): (k: nat)
    ensures k <= |periods|
    ensures k < |periods| ==> Contains(periods[k], t)
    ensures forall j :: 0 <= j < k ==> !Contains(periods[j], t)
  {
    if periods == [] then 0
    else if Contains(periods[0], t) then 0
    else 1 + FirstContaining(periods[1..], t)
  }

  /** The running Mahadasha and, inside it, the running Antardasha. */
  function CurrentLabel(periods: seq<DashaPeriod>, t: int): DashaLabel
  {
    var i := FirstContaining(periods, t);
    if i == |periods| then NoPeriod
    else
      var children := periods[i].antarDashas;
      var j := FirstContaining(children, t);
      if j == |children| then MahaOnly(periods[i].planet)
      else MahaAntar(periods[i].planet, children[j].planet)
  }

  /** The label of the period running at `currentTime` (the clock reading is a parameter). */
  method GetCurrentDasha(birthTime: int, moonLongitude: real, currentTime: int) returns (text: string)
    requires 0.0 <= moonLongitude
    ensures text == Render(CurrentLabel(Timeline(birthTime, moonLongitude), currentTime))
  {
    var allPeriods := CalculateVimshottariDasha(birthTime, moonLongitude);
    text := LabelAt(allPeriods, currentTime);
  }

  /** Scans the Mahadashas, then the Antardashas of the one found, for the
      first period holding `currentTime`. */
  method LabelAt(allPeriods: seq<DashaPeriod>, currentTime: int) returns (text: string)
    ensures text == Render(CurrentLabel(allPeriods, currentTime))
  {
    var i := 0;
    while i < |allPeriods|
      invariant 0 <= i <= |allPeriods|
      invariant forall k :: 0 <= k < i ==> !Contains(allPeriods[k], currentTime)
    {
      var period := allPeriods[i];
      if currentTime >= period.startTime && currentTime < period.endTime {
        FirstContainingIs(allPeriods, currentTime, i);
        var j := 0;
        while j < |period.antarDashas|
          invariant 0 <= j <= |period.antarDashas|
          invariant forall k :: 0 <= k < j ==> !Contains(period.antarDashas[k], currentTime)
        {
          var antardasha := period.antarDashas[j];
          if currentTime >= antardasha.startTime && currentTime < antardasha.endTime {
            FirstContainingIs(period.antarDashas, currentTime, j);
            return Name(period.planet) + "-" + Name(antardasha.planet);
          }
          j := j + 1;
        }
        FirstContainingIs(period.antarDashas, currentTime, j);
        return Name(period.planet);
      }
      i := i + 1;
    }
    FirstContainingIs(allPeriods, currentTime, i);
    return "Unknown";
  }

  /** The first containing index is the one a left-to-right scan stops at. */
  lemma {:induction false} FirstContainingIs(periods: seq<DashaPeriod>, t: int, i: nat)
    requires i <= |periods|
    requires forall k :: 0 <= k < i ==> !Contains(periods[k], t)
    requires i < |periods| ==> Contains(periods[i], t)
    ensures FirstContaining(periods, t) == i
  {
    if i > 0 {
      assert !Contains(periods[0], t);
      FirstContainingIs(periods[1..], t, i - 1);
    }
  }
}
