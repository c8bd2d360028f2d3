/** The six-component planetary strength calculator: positional strength
    from rulership, exaltation and the house a cusp scan finds; directional
    and temporal strength from the sign; a constant motional strength;
    aspectual strength from the other planets' separations; a natural
    strength table; and their total. */
module Strength {
  import opened Chart

  /** The record filled for each planet. */
  datatype PlanetaryStrength = PlanetaryStrength(
    positional: real,
    directional: real,
    temporal: real,
    motional: real,
    aspectual: real,
    natural: real,
    total: real)

  /** A record before any component is filled in. */
  const DefaultStrength: PlanetaryStrength := PlanetaryStrength(0.0, 0.0, 0.0, 0.0, 0.0, 0.0, 0.0)

  /** The bodies the calculator knows, in its own listing order. */
  const Planets: seq<Planet> := [Sun, Moon, Mars, Mercury, Jupiter, Venus, Saturn, Rahu, Ketu]

  lemma PlanetsListed(p: Planet)
    ensures p in Planets
    ensures |Planets| == 9 && Distinct(Planets)
  {
  }

  // ---------------------------------------------------------------------
  // The tables

  /** Exaltation longitudes declared for the seven classical planets. */
  function DeclaredExaltation(p: Planet): Option<real>
  {
    match p
    case Sun => Some(10.0)
    case Moon => Some(33.0)
    case Mars => Some(298.0)
    case Mercury => Some(165.0)
    case Jupiter => Some(95.0)
    case Venus => Some(357.0)
    case Saturn => Some(200.0)
    case _ => None
  }

  /** Signs ruled by each planet (0 = Aries, 11 = Pisces); the nodes rule none. */
  function RulerSigns(p: Planet): set<int>
  {
    match p
    case Sun => {4}
    case Moon => {3}
    case Mars => {0, 7}
    case Mercury => {2, 5}
    case Jupiter => {8, 11}
    case Venus => {1, 6}
    case Saturn => {9, 10}
    case Rahu => {}
    case Ketu => {}
  }

  /** Exaltation point of each body as (degree, sign). */
  function ExaltationPoint(p: Planet): (int, int)
  {
    match p
    case Sun => (10, 0)
    case Moon => (3, 1)
    case Mars => (28, 9)
    case Mercury => (15, 5)
    case Jupiter => (5, 3)
    case Venus => (27, 11)
    case Saturn => (20, 6)
    case Rahu => (20, 2)
    case Ketu => (20, 8)
  }

  /** The exaltation point as a longitude. */
  function ExaltationLongitude(p: Planet): real
  {
    (ExaltationPoint(p).1 * 30 + ExaltationPoint(p).0) as real
  }

  /** The declared exaltation longitudes are the (degree, sign) points of
      the calculator's own table, for every planet that has one. */
  lemma DeclaredExaltationAgrees(p: Planet)
    ensures DeclaredExaltation(p).Some? <==> p != Rahu && p != Ketu
    ensures DeclaredExaltation(p).Some? ==> DeclaredExaltation(p).value == ExaltationLongitude(p)
  {
  }

  /** Special aspects (separation, weight) cast by Mars, Jupiter and Saturn. */
  function SpecialAspects(p: Planet): seq<(real, real)>
  {
    match p
    case Mars => [(90.0, 0.5), (120.0, 0.75), (180.0, 1.0)]
    case Jupiter => [(60.0, 0.5), (120.0, 0.75), (180.0, 1.0)]
    case Saturn => [(60.0, 0.5), (90.0, 0.75), (180.0, 1.0)]
    case _ => []
  }

  lemma SpecialAspectWeights(p: Planet)
    ensures |SpecialAspects(p)| <= 3
    ensures forall i :: 0 <= i < |SpecialAspects(p)| ==> 0.5 <= SpecialAspects(p)[i].1 <= 1.0
    ensures SpecialAspects(p) != [] <==> p == Mars || p == Jupiter || p == Saturn
  {
  }

  // ---------------------------------------------------------------------
  // Positional strength

  /** Whether `position` lies in the cusp interval that starts at cusp `i`
      (no wrap-around at 0 degrees). */
  predicate InCuspInterval(position: real, houses: seq<real>, i: int)
    requires 12 <= |houses| && 0 <= i < |houses|
  {
    houses[i] <= position < houses[(i + 1) % 12]
  }

  /** Index of the first cusp interval from `i` on holding `position`, or
      `|houses|` if none does. */
  function CuspIndexFrom(position: real, houses: seq<real>, i: nat): (k: nat)
    requires |houses| == 0 || 12 <= |houses|
    requires i <= |houses|
    ensures i <= k <= |houses|
    ensures k < |houses| ==> InCuspInterval(position, houses, k)
    ensures forall j :: i <= j < k ==> !InCuspInterval(position, houses, j)
    decreases |houses| - i
  {
    if i == |houses| then i
    else if InCuspInterval(position, houses, i) then i
    else CuspIndexFrom(position, houses, i + 1)
  }

  /** The house the positional scan assigns: the first matching cusp
      interval, counted from 1, or house 1 when none matches. */
  function ScannedHouse(position: real, houses: seq<real>): int
    requires |houses| == 0 || 12 <= |houses|
  {
    var k := CuspIndexFrom(position, houses, 0);
    if k < |houses| then k + 1 else 1
  }

  /** Angular houses earn 3, succedent 2, the rest 1. */
  function HouseBonus(house: int): (r: real)
    ensures r == 1.0 || r == 2.0 || r == 3.0
  {
    if house in {1, 4, 7, 10} then 3.0
    else if house in {2, 5, 8, 11} then 2.0
    else 1.0
  }

  /** Five points when the planet rules the sign it is in. */
  function OwnSignBonus(p: Planet, position: real): real
  {
    if Sign(position) in RulerSigns(p) then 5.0 else 0.0
  }

  /** Up to five points, falling off linearly over 30 degrees of plain
      (unwrapped) distance from the exaltation point. */
  function ExaltationBonus(p: Planet, position: real): (r: real)
    ensures 0.0 <= r <= 5.0
    ensures r > 0.0 <==> Abs(position - ExaltationLongitude(p)) < 30.0
  {
    var distance := Abs(position - ExaltationLongitude(p));
    if distance < 30.0 then (30.0 - distance) / 6.0 else 0.0
  }

  function PositionalStrength(p: Planet, position: real, houses: seq<real>): real
    requires |houses| == 0 || 12 <= |houses|
  {
    OwnSignBonus(p, position) + ExaltationBonus(p, position) + HouseBonus(ScannedHouse(position, houses))
  }

  /** Adds up the three bonuses, scanning the cusps for the planet's house. */
  method CalculatePositionalStrength(planet: Planet, position: real, houses: seq<real>) returns (strength: real)
    requires |houses| == 0 || 12 <= |houses|
    ensures strength == PositionalStrength(planet, position, houses)
  {
    strength := 0.0;
    var sign := Trunc(position / 30.0);
    if sign in RulerSigns(planet) {
      strength := strength + 5.0;
    }
    assert strength == OwnSignBonus(planet, position);
    var exaltPoint := ExaltationPoint(planet);
    var distance := Abs(position - (exaltPoint.1 * 30 + exaltPoint.0) as real);
    if distance < 30.0 {
      strength := strength + (30.0 - distance) / 6.0;
    }
    assert strength == OwnSignBonus(planet, position) + ExaltationBonus(planet, position);
    var house := ScanHouse(position, houses);
    strength := strength + HouseBonus(house);
  }

  /** The cusp scan of the positional strength: stops at the first interval
      holding the position. */
  method ScanHouse(position: real, houses: seq<real>) returns (house: int)
    requires |houses| == 0 || 12 <= |houses|
    ensures house == ScannedHouse(position, houses)
  {
    house := 1;
    var i := 0;
    while i < |houses|
      invariant 0 <= i <= |houses|
      invariant CuspIndexFrom(position, houses, i) == CuspIndexFrom(position, houses, 0)
    {
      if position >= houses[i] && position < houses[(i + 1) % 12] {
        house := i + 1;
        break;
      }
      i := i + 1;
    }
  }

  /** Positional strength lies between 1 and 13. */
  lemma PositionalBounds(p: Planet, position: real, houses: seq<real>)
    requires |houses| == 0 || 12 <= |houses|
    ensures 1.0 <= PositionalStrength(p, position, houses) <= 13.0
  {
  }

  /** When no cusp interval holds the position, the house defaults to the
      first and earns the angular bonus. */
  lemma UnmatchedScanIsFirstHouse(position: real, houses: seq<real>)
    requires |houses| == 0 || 12 <= |houses|
    requires forall i :: 0 <= i < |houses| ==> !InCuspInterval(position, houses, i)
    ensures ScannedHouse(position, houses) == 1
    ensures HouseBonus(ScannedHouse(position, houses)) == 3.0
  {
  }

  // ---------------------------------------------------------------------
  // Directional, temporal, motional and natural strength

  /** Two points when the planet sits in the quarter of the zodiac that
      corresponds to its strong direction. */
  function DirectionalStrength(p: Planet, position: real): (r: real)
    ensures r == 0.0 || r == 2.0
    ensures p == Rahu || p == Ketu ==> r == 0.0
  {
    var sign := Sign(position);
    if 0 <= sign <= 2 then (if p == Jupiter || p == Mercury then 2.0 else 0.0)
    else if 3 <= sign <= 5 then (if p == Moon || p == Venus then 2.0 else 0.0)
    else if 6 <= sign <= 8 then (if p == Saturn || p == Sun then 2.0 else 0.0)
    else if 9 <= sign <= 11 then (if p == Mars then 2.0 else 0.0)
    else 0.0
  }

  /** Signs 0 to 5 count as the diurnal half. */
  predicate IsDiurnal(position: real)
  {
    0 <= Sign(position) <= 5
  }

  function TemporalStrength(p: Planet, position: real): real
  {
    if IsDiurnal(position) && (p == Sun || p == Jupiter || p == Saturn) then 2.0
    else if !IsDiurnal(position) && (p == Moon || p == Venus || p == Mars) then 2.0
    else if p == Mercury then 1.0
    else 0.0
  }

  /** Temporal strength is 0, 1 or 2; Mercury always gets 1, the nodes never anything. */
  lemma TemporalValues(p: Planet, position: real)
    ensures var r := TemporalStrength(p, position); r == 0.0 || r == 1.0 || r == 2.0
    ensures p == Mercury ==> TemporalStrength(p, position) == 1.0
    ensures p == Rahu || p == Ketu ==> TemporalStrength(p, position) == 0.0
    ensures (p == Sun || p == Jupiter || p == Saturn) ==> (TemporalStrength(p, position) == 2.0 <==> IsDiurnal(position))
    ensures (p == Moon || p == Venus || p == Mars) ==> (TemporalStrength(p, position) == 2.0 <==> !IsDiurnal(position))
  {
  }

  /** Motion is not tracked: every planet gets the same motional strength. */
  function MotionalStrength(p: Planet, position: real): real
  {
    1.0
  }

  function NaturalStrength(p: Planet): (r: real)
    ensures 1.0 <= r <= 5.0
    ensures r == 5.0 <==> p == Sun
  {
    match p
    case Sun => 5.0
    case Moon => 4.0
    case Jupiter => 4.0
    case Venus => 3.0
    case Mercury => 3.0
    case Mars => 2.0
    case Saturn => 2.0
    case Rahu => 1.0
    case Ketu => 1.0
  }

  // ---------------------------------------------------------------------
  // Aspectual strength

  /** Whether a separation is within one degree of an angle. */
  predicate Near(aspect: real, angle: real)
  {
    Abs(aspect - angle) < 1.0
  }

  /** Index of the first special aspect from `i` on that the separation
      matches, or the table's length if none does. */
  function FirstSpecialFrom(specials: seq<(real, real)>, aspect: real, i: nat): (k: nat)
    requires i <= |specials|
    ensures i <= k <= |specials|
    ensures k < |specials| ==> Near(aspect, specials[k].0)
    ensures forall j :: i <= j < k ==> !Near(aspect, specials[j].0)
    decreases |specials| - i
  {
    if i == |specials| then i
    else if Near(aspect, specials[i].0) then i
    else FirstSpecialFrom(specials, aspect, i + 1)
  }

  /** The weight of the first special aspect matched, or nothing. */
  function SpecialWeight(specials: seq<(real, real)>, aspect: real): real
  {
    var k := FirstSpecialFrom(specials, aspect, 0);
    if k < |specials| then specials[k].1 else 0.0
  }

  /** Trine, else sextile, else conjunction: at most one standard bonus. */
  function StandardBonus(aspect: real): (r: real)
    ensures 0.0 <= r <= 0.5
  {
    if Near(aspect, 120.0) then 0.5
    else if Near(aspect, 60.0) then 0.3
    else if Near(aspect, 0.0) then 0.2
    else 0.0
  }

  /** What planet `q` at `qPosition` adds to the aspectual strength of `p`
      at `position`; a planet adds nothing to itself. */
  function AspectFrom(p: Planet, position: real, q: Planet, qPosition: real): real
  {
    if q == p then 0.0
    else
      var aspect := Separation(position, qPosition);
      SpecialWeight(SpecialAspects(q), aspect) + StandardBonus(aspect)
  }

  /** The contributions of the planets among `keys` that have a position. */
  function AspectualOver(p: Planet, position: real, positions: map<Planet, real>, keys: seq<Planet>): real
  {
    if keys == [] then 0.0
    else
      var q := keys[|keys| - 1];
      AspectualOver(p, position, positions, keys[..|keys| - 1])
      + (if q in positions then AspectFrom(p, position, q, positions[q]) else 0.0)
  }

  /** Aspectual strength, the other planets taken in map order. */
  function AspectualStrength(p: Planet, position: real, positions: map<Planet, real>): real
  {
    AspectualOver(p, position, positions, KeyOrder)
  }

  /** Walks the other planets; for each, adds the first special aspect it
      casts (if any) and at most one standard bonus. */
  method CalculateAspectualStrength(planet: Planet, position: real, planetPositions: map<Planet, real>)
    returns (strength: real)
    ensures strength == AspectualStrength(planet, position, planetPositions)
  {
    strength := 0.0;
    var i := 0;
    while i < |KeyOrder|
      invariant 0 <= i <= |KeyOrder|
      invariant strength == AspectualOver(planet, position, planetPositions, KeyOrder[..i])
    {
      var q := KeyOrder[i];
      AspectualOverStep(planet, position, planetPositions, KeyOrder, i);
      if q in planetPositions && q != planet {
        var aspect := Separation(position, planetPositions[q]);
        var before := strength;
        var specials := SpecialAspects(q);
        var j := 0;
        while j < |specials|
          invariant 0 <= j <= |specials|
          invariant strength == before
          invariant FirstSpecialFrom(specials, aspect, j) == FirstSpecialFrom(specials, aspect, 0)
        {
          if Abs(aspect - specials[j].0) < 1.0 {
            strength := strength + specials[j].1;
            break;
          }
          j := j + 1;
        }
        assert strength == before + SpecialWeight(specials, aspect);
        ghost var withSpecial := strength;
        if Abs(aspect - 120.0) < 1.0 {
          strength := strength + 0.5;
        } else if Abs(aspect - 60.0) < 1.0 {
          strength := strength + 0.3;
        } else if Abs(aspect - 0.0) < 1.0 {
          strength := strength + 0.2;
        }
        assert strength == withSpecial + StandardBonus(aspect);
        assert strength == before + AspectFrom(planet, position, q, planetPositions[q]);
      }
      i := i + 1;
    }
    assert KeyOrder[..|KeyOrder|] == KeyOrder;
  }

  lemma AspectualOverStep(p: Planet, position: real, positions: map<Planet, real>, keys: seq<Planet>, i: nat)
    requires i < |keys|
    ensures AspectualOver(p, position, positions, keys[..i + 1])
         == AspectualOver(p, position, positions, keys[..i])
            + (if keys[i] in positions then AspectFrom(p, position, keys[i], positions[keys[i]]) else 0.0)
  {
    assert keys[..i + 1][..i] == keys[..i];
  }

  /** One planet adds at most one special weight (at most 1) and one
      standard bonus (at most 0.5). */
  lemma AspectFromBounds(p: Planet, position: real, q: Planet, qPosition: real)
    ensures 0.0 <= AspectFrom(p, position, q, qPosition) <= 1.5
  {
    SpecialAspectWeights(q);
  }

  /** How many of `keys` other than `p` have a position. */
  function OthersOver(p: Planet, positions: map<Planet, real>, keys: seq<Planet>): nat
  {
    if keys == [] then 0
    else
      var q := keys[|keys| - 1];
      OthersOver(p, positions, keys[..|keys| - 1]) + (if q in positions && q != p then 1 else 0)
  }

  lemma {:induction false} AspectualOverBounds(p: Planet, position: real, positions: map<Planet, real>, keys: seq<Planet>)
    ensures 0.0 <= AspectualOver(p, position, positions, keys)
    ensures AspectualOver(p, position, positions, keys) <= 1.5 * OthersOver(p, positions, keys) as real
  {
    if keys != [] {
      var q := keys[|keys| - 1];
      AspectualOverBounds(p, position, positions, keys[..|keys| - 1]);
      if q in positions {
        AspectFromBounds(p, position, q, positions[q]);
      }
    }
  }

  lemma {:induction false} OthersOverBound(p: Planet, positions: map<Planet, real>, keys: seq<Planet>)
    ensures OthersOver(p, positions, keys) <= |keys|
    ensures p in keys ==> OthersOver(p, positions, keys) <= |keys| - 1
  {
    if keys != [] {
      var init := keys[..|keys| - 1];
      OthersOverBound(p, positions, init);
      assert keys == init + [keys[|keys| - 1]];
    }
  }

  /** Aspectual strength is never negative and, with at most eight other
      planets each adding at most 1.5, never above 12. */
  lemma AspectualBounds(p: Planet, position: real, positions: map<Planet, real>)
    ensures 0.0 <= AspectualStrength(p, position, positions) <= 12.0
  {
    AspectualOverBounds(p, position, positions, KeyOrder);
    KeyOrderComplete(p);
    KeyOrderDistinct();
    OthersOverBound(p, positions, KeyOrder);
  }

  /** The planet's own position plays no part in its aspectual strength. */
  lemma {:induction false} AspectualIgnoresOwnPosition(p: Planet, position: real, positions: map<Planet, real>,
                                                       x: real, keys: seq<Planet>)
    ensures AspectualOver(p, position, positions[p := x], keys) == AspectualOver(p, position, positions, keys)
    ensures AspectualOver(p, position, positions - {p}, keys) == AspectualOver(p, position, positions, keys)
  {
    if keys != [] {
      AspectualIgnoresOwnPosition(p, position, positions, x, keys[..|keys| - 1]);
    }
  }

  // ---------------------------------------------------------------------
  // All six components

  /** The record computed for planet `p` at `position`. */
  function StrengthOf(p: Planet, position: real, houses: seq<real>, positions: map<Planet, real>): PlanetaryStrength
    requires |houses| == 0 || 12 <= |houses|
  {
    var positional := PositionalStrength(p, position, houses);
    var directional := DirectionalStrength(p, position);
    var temporal := TemporalStrength(p, position);
    var motional := MotionalStrength(p, position);
    var aspectual := AspectualStrength(p, position, positions);
    var natural := NaturalStrength(p);
    PlanetaryStrength(positional, directional, temporal, motional, aspectual, natural,
                      positional + directional + temporal + motional + aspectual + natural)
  }

  /** Each component within its range, the motional one fixed, and the total
      their exact sum, hence between 3 and 35. */
  lemma StrengthRanges(p: Planet, position: real, houses: seq<real>, positions: map<Planet, real>)
    requires |houses| == 0 || 12 <= |houses|
    ensures var s := StrengthOf(p, position, houses, positions);
            && 1.0 <= s.positional <= 13.0
            && (s.directional == 0.0 || s.directional == 2.0)
            && (s.temporal == 0.0 || s.temporal == 1.0 || s.temporal == 2.0)
            && s.motional == 1.0
            && 0.0 <= s.aspectual <= 12.0
            && 1.0 <= s.natural <= 5.0
            && s.total == s.positional + s.directional + s.temporal + s.motional + s.aspectual + s.natural
            && 3.0 <= s.total <= 35.0
  {
    PositionalBounds(p, position, houses);
    TemporalValues(p, position);
    AspectualBounds(p, position, positions);
  }

  /** One record per planet that has a position, and no other. */
  method CalculateStrengths(planetPositions: map<Planet, real>, housePositions: seq<real>)
    returns (strengths: map<Planet, PlanetaryStrength>)
    requires |housePositions| == 0 || 12 <= |housePositions|
    ensures strengths.Keys == planetPositions.Keys
    ensures forall p :: p in strengths ==>
              strengths[p] == StrengthOf(p, planetPositions[p], housePositions, planetPositions)
  {
    strengths := map[];
    var i := 0;
    while i < |KeyOrder|
      invariant 0 <= i <= |KeyOrder|
      invariant forall p :: p in strengths <==> p in planetPositions && p in KeyOrder[..i]
      invariant forall p :: p in strengths ==>
                  strengths[p] == StrengthOf(p, planetPositions[p], housePositions, planetPositions)
    {
      var planet := KeyOrder[i];
      assert KeyOrder[..i + 1] == KeyOrder[..i] + [planet];
      if planet in planetPositions {
        var position := planetPositions[planet];
        var strength := DefaultStrength;
        var positional := CalculatePositionalStrength(planet, position, housePositions);
        var aspectual := CalculateAspectualStrength(planet, position, planetPositions);
        strength := strength.(positional := positional);
        strength := strength.(directional := DirectionalStrength(planet, position));
        strength := strength.(temporal := TemporalStrength(planet, position));
        strength := strength.(motional := MotionalStrength(planet, position));
        strength := strength.(aspectual := aspectual);
        strength := strength.(natural := NaturalStrength(planet));
        strength := strength.(total := strength.positional + strength.directional + strength.temporal
                                       + strength.motional + strength.aspectual + strength.natural);
        assert strength == StrengthOf(planet, position, housePositions, planetPositions);
        strengths := strengths[planet := strength];
      }
      i := i + 1;
    }
    forall p | p in planetPositions
      ensures p in strengths
    {
      KeyOrderComplete(p);
      assert KeyOrder[..|KeyOrder|] == KeyOrder;
    }
  }
}
