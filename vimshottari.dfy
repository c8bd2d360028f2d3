/** The tables and arithmetic of the Vimshottari Dasha system: lordship
    years, the cyclic order of lords, the starting lord found from the Moon's
    nakshatra quarter, the back-dated start, and the closed form of every
    Mahadasha and Antardasha boundary. */
module Vimshottari {
  import opened Chart

  /** The cyclic order in which lords follow each other: the lord at position `k`. */
  function PlanetAt(k: int): Planet
    requires 0 <= k < 9
  {
    match k
    case 0 => Sun
    case 1 => Moon
    case 2 => Mars
    case 3 => Rahu
    case 4 => Jupiter
    case 5 => Saturn
    case 6 => Mercury
    case 7 => Ketu
    case _ => Venus
  }

  /** Lordship years, paired by position with `PlanetAt`. */
  function YearsAt(k: int): int
    requires 0 <= k < 9
  {
    match k
    case 0 => 6
    case 1 => 10
    case 2 => 7
    case 3 => 18
    case 4 => 16
    case 5 => 19
    case 6 => 17
    case 7 => 7
    case _ => 20
  }

  /** One year of 365.25 days, in milliseconds. */
  const MsPerYear: int := 31557600000

  /** A nakshatra is 13 degrees 20 minutes. */
  const NakshatraLength: real := 40.0 / 3.0

  /** A period of the timeline; Antardashas carry no children of their own. */
  datatype DashaPeriod = DashaPeriod(planet: Planet, startTime: int, endTime: int, antarDashas: seq<DashaPeriod>)

  /** Position of a lord in `PlanetAt` (every planet occurs there). */
  function IndexOf(p: Planet): (i: int)
    ensures 0 <= i < 9 && PlanetAt(i) == p
  {
    match p
    case Sun => 0
    case Moon => 1
    case Mars => 2
    case Rahu => 3
    case Jupiter => 4
    case Saturn => 5
    case Mercury => 6
    case Ketu => 7
    case Venus => 8
  }

  /** Length in milliseconds of the Mahadasha of the lord at position `k`. */
  function PeriodMsAt(k: int): int
    requires 0 <= k < 9
  {
    YearsAt(k) * 31557600000
  }

  // ---------------------------------------------------------------------
  // Starting lord and back-dated start

  /** Index of the nakshatra holding the longitude. */
  function Nakshatra(moonLongitude: real): (n: int)
    requires 0.0 <= moonLongitude
    ensures 0 <= n
    ensures n as real * NakshatraLength <= moonLongitude < (n + 1) as real * NakshatraLength
    ensures moonLongitude < 360.0 ==> n < 27
  {
    TruncBounds(moonLongitude / NakshatraLength);
    Trunc(moonLongitude / NakshatraLength)
  }

  /** Degrees already traversed inside the nakshatra: `fmod(lon, 13.33..)`. */
  function NakshatraPosition(moonLongitude: real): (r: real)
    requires 0.0 <= moonLongitude
    ensures 0.0 <= r < NakshatraLength
  {
    TruncBounds(moonLongitude / NakshatraLength);
    moonLongitude - NakshatraLength * Trunc(moonLongitude / NakshatraLength) as real
  }

  /** Quarter of the nakshatra holding the longitude. */
  function Pada(moonLongitude: real): (q: int)
    requires 0.0 <= moonLongitude
    ensures 0 <= q < 4
  {
    var nakshatra := Nakshatra(moonLongitude);
    var remainingDegrees := moonLongitude - nakshatra as real * NakshatraLength;
    TruncBounds(remainingDegrees / (NakshatraLength / 4.0));
    Trunc(remainingDegrees / (NakshatraLength / 4.0))
  }

  /** Number of whole quarters (3 degrees 20 minutes each) before the longitude. */
  function QuartersBefore(moonLongitude: real): (k: int)
    requires 0.0 <= moonLongitude
  {
    Trunc(moonLongitude / (NakshatraLength / 4.0))
  }

  /** Index into `PlanetAt` of the first Mahadasha lord. Counting
      nakshatras and padas is the same as counting whole quarters. */
  function FindStartingPlanet(moonLongitude: real): (r: int)
    requires 0.0 <= moonLongitude
    ensures 0 <= r < 9
    ensures r == QuartersBefore(moonLongitude) % 9
  {
    var nakshatra := Nakshatra(moonLongitude);
    var pada := Pada(moonLongitude);
    QuartersDecompose(moonLongitude);
    (nakshatra * 4 + pada) % 9
  }

  lemma QuartersDecompose(moonLongitude: real)
    requires 0.0 <= moonLongitude
    ensures Nakshatra(moonLongitude) * 4 + Pada(moonLongitude) == QuartersBefore(moonLongitude)
  {
    var n := Nakshatra(moonLongitude);
    var remainingDegrees := moonLongitude - n as real * NakshatraLength;
    var y := remainingDegrees / (NakshatraLength / 4.0);
    TruncBounds(y);
    TruncBounds(moonLongitude / (NakshatraLength / 4.0));
    assert moonLongitude / (NakshatraLength / 4.0) == y + (4 * n) as real;
    assert 0.0 <= y < 4.0;
  }

  /** A millisecond count scaled by a proportion and stored back into a
      64-bit integer, which truncates toward zero. */
  function ScaleMs(totalMs: int, proportion: real): int
  {
    Trunc(totalMs as real * proportion)
  }

  /** Milliseconds of the first Mahadasha already elapsed at birth. */
  function ElapsedMs(moonLongitude: real): (e: int)
    requires 0.0 <= moonLongitude
    ensures 0 <= e < PeriodMsAt(FindStartingPlanet(moonLongitude))
  {
    var proportion := NakshatraPosition(moonLongitude) / NakshatraLength;
    var totalPeriodMs := PeriodMsAt(FindStartingPlanet(moonLongitude));
    ProportionBelowOne(NakshatraPosition(moonLongitude));
    ScaleBelow(totalPeriodMs, proportion);
    ScaleMs(totalPeriodMs, proportion)
  }

  lemma ProportionBelowOne(position: real)
    requires 0.0 <= position < NakshatraLength
    ensures 0.0 <= position / NakshatraLength < 1.0
  {
  }

  /** A positive count scaled by a proportion below one stays below the count. */
  lemma ScaleBelow(total: int, proportion: real)
    requires 0 < total && 0.0 <= proportion < 1.0
    ensures 0 <= ScaleMs(total, proportion) < total
  {
    MulLess(0.0, proportion, total as real);
    MulStrict(proportion, 1.0, total as real);
    TruncBounds(total as real * proportion);
  }

  /** Start of the first Mahadasha: the birth instant lies inside it. */
  function DashaStartTime(birthTime: int, moonLongitude: real): (start: int)
    requires 0.0 <= moonLongitude
    ensures start <= birthTime < start + PeriodMsAt(FindStartingPlanet(moonLongitude))
  {
    birthTime - ElapsedMs(moonLongitude)
  }

  // ---------------------------------------------------------------------
  // The timeline as functions of the inputs

  /** Milliseconds spanned by the first `k` lords of the cycle that starts
      at position `s`. */
  function CycleMs(s: int, k: nat): int
    requires 0 <= s < 9
  {
    if k == 0 then 0 else CycleMs(s, k - 1) + PeriodMsAt((s + k - 1) % 9)
  }

  /** An Antardasha of the lord at position `k` inside a parent lasting
      `totalMs`: the share `years / 120`, truncated to whole milliseconds. */
  function AntarMsAt(totalMs: int, k: int): int
    requires 0 <= k < 9
  {
    ScaleMs(totalMs, YearsAt(k) as real / 120.0)
  }

  /** Milliseconds of the first `k` Antardashas of a parent lasting `totalMs`
      whose lord sits at position `s`. */
  function AntarOffset(totalMs: int, s: int, k: nat): int
    requires 0 <= s < 9
  {
    if k == 0 then 0 else AntarOffset(totalMs, s, k - 1) + AntarMsAt(totalMs, (s + k - 1) % 9)
  }

  /** The `k`-th Antardasha of a Mahadasha of `planet` over [startTime, endTime). */
  function Antardasha(planet: Planet, startTime: int, endTime: int, k: nat): DashaPeriod
  {
    var s := IndexOf(planet);
    var totalMs := endTime - startTime;
    DashaPeriod(PlanetAt((s + k) % 9), startTime + AntarOffset(totalMs, s, k),
                startTime + AntarOffset(totalMs, s, k + 1), [])
  }

  lemma CycleStep(s: int, i: nat)
    requires 0 <= s < 9
    ensures CycleMs(s, i + 1) == CycleMs(s, i) + YearsAt((s + i) % 9) * 31557600000
  {
  }

  lemma AntarOffsetStep(totalMs: int, s: int, i: nat)
    requires 0 <= s < 9
    ensures AntarOffset(totalMs, s, i + 1)
         == AntarOffset(totalMs, s, i) + ScaleMs(totalMs, YearsAt((s + i) % 9) as real / 120.0)
  {
  }

  /** `PlanetAt` has no repeated entry, so looking a lord up finds its own slot. */
  lemma IndexOfPlanetAt(k: int)
    requires 0 <= k < 9
    ensures IndexOf(PlanetAt(k)) == k
  {
  }
}
