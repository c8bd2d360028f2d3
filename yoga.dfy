/** The yoga detector: a fixed catalog of thirteen planetary combinations,
    each checked against the chart with geometric helpers (conjunction,
    house placement, kendra, own sign, exaltation) and, when present,
    emitted with a strength. */
module Yoga {
  import opened Chart

  /** A catalog entry, or a detected combination. */
  datatype Yoga = Yoga(name: string, description: string, isActive: bool, strength: real)

  /** A fresh entry: not active, no strength. */
  function MakeYoga(name: string, description: string): (y: Yoga)
    ensures y.name == name && y.description == description
    ensures !y.isActive && y.strength == 0.0
  {
    Yoga(name, description, false, 0.0)
  }

  /** The thirteen combinations of the catalog. */
  datatype YogaKind =
    | RajaYoga | DhanaYoga | GajaKesari | BudhAditya | ChandraMangal | NeechaBhanga
    | PanchaMahapurusha | ViparitaRaja | Hamsa | Malavya | Shasha | Ruchaka | Bhadra

  function KindName(k: YogaKind): string
  {
    match k
    case RajaYoga => "Raja Yoga"
    case DhanaYoga => "Dhana Yoga"
    case GajaKesari => "Gaja Kesari"
    case BudhAditya => "Budh-Aditya"
    case ChandraMangal => "Chandra-Mangal"
    case NeechaBhanga => "Neecha Bhanga"
    case PanchaMahapurusha => "Pancha Mahapurusha"
    case ViparitaRaja => "Viparita Raja"
    case Hamsa => "Hamsa"
    case Malavya => "Malavya"
    case Shasha => "Shasha"
    case Ruchaka => "Ruchaka"
    case Bhadra => "Bhadra"
  }

  function KindDescription(k: YogaKind): string
  {
    match k
    case RajaYoga => "Combination of lords of trine and quadrant houses"
    case DhanaYoga => "Combination indicating wealth and prosperity"
    case GajaKesari => "Jupiter and Moon combination in quadrant houses"
    case BudhAditya => "Mercury and Sun combination indicating intelligence"
    case ChandraMangal => "Moon and Mars combination indicating courage"
    case NeechaBhanga => "Cancellation of debilitation"
    case PanchaMahapurusha => "Planets in own/exaltation sign in angles"
    case ViparitaRaja => "Lords of 6th, 8th, 12th in mutual angles"
    case Hamsa => "Jupiter in own/exaltation sign in angle from Moon"
    case Malavya => "Venus in own/exaltation sign in angle from Ascendant"
    case Shasha => "Saturn in own/exaltation sign in angle from Ascendant"
    case Ruchaka => "Mars in own/exaltation sign in angle from Ascendant"
    case Bhadra => "Mercury in own/exaltation sign in angle from Ascendant"
  }

  /** The catalog order. */
  const CatalogKinds: seq<YogaKind> :=
    [RajaYoga, DhanaYoga, GajaKesari, BudhAditya, ChandraMangal, NeechaBhanga,
     PanchaMahapurusha, ViparitaRaja, Hamsa, Malavya, Shasha, Ruchaka, Bhadra]

  /** The catalog entry of a combination. */
  function CatalogEntry(k: YogaKind): Yoga
  {
    MakeYoga(KindName(k), KindDescription(k))
  }

  // ---------------------------------------------------------------------
  // The tables

  /** Houses (1-based signs) ruled by each classical planet; the nodes have no entry. */
  function Rulerships(p: Planet): seq<int>
  {
    match p
    case Sun => [5]
    case Moon => [4]
    case Mars => [1, 8]
    case Mercury => [3, 6]
    case Jupiter => [9, 12]
    case Venus => [2, 7]
    case Saturn => [10, 11]
    case _ => []
  }

  /** The planets with a rulership entry, in map order. */
  const RulershipKeys: seq<Planet> := [Jupiter, Mars, Mercury, Moon, Saturn, Sun, Venus]

  /** Exaltation and debilitation longitudes of the classical planets. */
  function ExaltDebil(p: Planet): Option<(real, real)>
  {
    match p
    case Sun => Some((10.0, 190.0))
    case Moon => Some((33.0, 213.0))
    case Mars => Some((298.0, 118.0))
    case Mercury => Some((165.0, 345.0))
    case Jupiter => Some((95.0, 275.0))
    case Venus => Some((357.0, 177.0))
    case Saturn => Some((200.0, 20.0))
    case _ => None
  }

  // ---------------------------------------------------------------------
  // Geometric helpers

  /** Two longitudes within `orb` degrees of each other the short way round. */
  predicate Conjunct(pos1: real, pos2: real, orb: real)
  {
    Separation(pos1, pos2) <= orb
  }

  /** Whether `planetPos` lies in the house from `houseStart` to `houseEnd`,
      all three brought into [0, 360) first; a house whose start is not below
      its end spans 0 degrees. */
  predicate InHouse(planetPos: real, houseStart: real, houseEnd: real)
  {
    var p := Fmod360(planetPos + 360.0);
    var s := Fmod360(houseStart + 360.0);
    var e := Fmod360(houseEnd + 360.0);
    if s < e then s <= p < e else s <= p || p < e
  }

  /** Whether house `i + 1`, from cusp `i` to the next, holds `longitude`. */
  predicate InHouseAt(longitude: real, houses: seq<real>, i: int)
    requires 12 <= |houses| && 0 <= i < 12
  {
    InHouse(longitude, houses[i], houses[(i + 1) % 12])
  }

  /** Index of the first of the twelve houses from `i` on that holds
      `longitude`, or 12 if none does. */
  function HouseIndexFrom(longitude: real, houses: seq<real>, i: nat): (k: nat)
    requires 12 <= |houses| && i <= 12
    ensures i <= k <= 12
    ensures k < 12 ==> InHouseAt(longitude, houses, k)
    ensures forall j :: i <= j < k ==> !InHouseAt(longitude, houses, j)
    decreases 12 - i
  {
    if i == 12 then 12
    else if InHouseAt(longitude, houses, i) then i
    else HouseIndexFrom(longitude, houses, i + 1)
  }

  /** The house (1 to 12) of a longitude: the first house holding it, or the
      first house when none does, which cyclically ordered cusps rule out. */
  function HousePlacement(longitude: real, houses: seq<real>): (h: int)
    requires 12 <= |houses|
    ensures 1 <= h <= 12
  {
    var k := HouseIndexFrom(longitude, houses, 0);
    if k < 12 then k + 1 else 1
  }

  /** Scans the twelve houses and returns the first that holds the longitude. */
  method GetHousePlacement(longitude: real, houses: seq<real>) returns (house: int)
    requires 12 <= |houses|
    ensures house == HousePlacement(longitude, houses)
  {
    var i := 0;
    while i < 12
      invariant 0 <= i <= 12
      invariant HouseIndexFrom(longitude, houses, i) == HouseIndexFrom(longitude, houses, 0)
    {
      var houseStart := houses[i];
      var houseEnd := houses[(i + 1) % 12];
      if InHouse(longitude, houseStart, houseEnd) {
        return i + 1;
      }
      i := i + 1;
    }
    return 1;
  }

  /** Two longitudes whose separation is within 10 degrees of `aspect`. */
  predicate AreInAspect(pos1: real, pos2: real, aspect: int)
  {
    Abs(Separation(pos1, pos2) - aspect as real) <= 10.0
  }

  /** The signs (0-based) ruled by a planet, from its 1-based houses. */
  function RuledSigns(houses: seq<int>): (signs: seq<int>)
    ensures |signs| == |houses|
    ensures forall i :: 0 <= i < |houses| ==> signs[i] == (houses[i] - 1) % 12
  {
    if houses == [] then [] else RuledSigns(houses[..|houses| - 1]) + [(houses[|houses| - 1] - 1) % 12]
  }

  /** Whether the planet is in a sign it rules. */
  predicate OwnSign(p: Planet, longitude: real)
  {
    Sign(longitude) in RuledSigns(Rulerships(p))
  }

  /** Converts the planet's houses to signs one by one, then looks up the sign. */
  method IsPlanetInOwnSign(planet: Planet, longitude: real) returns (own: bool)
    ensures own == OwnSign(planet, longitude)
  {
    var sign := Trunc(longitude / 30.0);
    if planet == Rahu || planet == Ketu {
      return false;
    }
    var ruledSigns := [];
    var houses := Rulerships(planet);
    var i := 0;
    while i < |houses|
      invariant 0 <= i <= |houses|
      invariant ruledSigns == RuledSigns(houses[..i])
    {
      assert houses[..i + 1][..i] == houses[..i];
      ruledSigns := ruledSigns + [(houses[i] - 1) % 12];
      i := i + 1;
    }
    assert houses[..|houses|] == houses;
    own := sign in ruledSigns;
  }

  /** Within 10 degrees, the short way round, of the exaltation point. */
  predicate Exalted(p: Planet, longitude: real)
  {
    ExaltDebil(p).Some? && Separation(longitude, ExaltDebil(p).value.0) <= 10.0
  }

  /** In house 1, 4, 7 or 10. */
  predicate InAngle(longitude: real, houses: seq<real>)
    requires 12 <= |houses|
  {
    HousePlacement(longitude, houses) in {1, 4, 7, 10}
  }

  /** Signs whose plain index difference is 0, 3, 6 or 9. */
  predicate InKendra(pos1: real, pos2: real)
  {
    var houseDiff := if Sign(pos1) >= Sign(pos2) then Sign(pos1) - Sign(pos2) else Sign(pos2) - Sign(pos1);
    houseDiff == 0 || houseDiff == 3 || houseDiff == 6 || houseDiff == 9
  }

  // ---------------------------------------------------------------------
  // The rules

  predicate CheckGajaKesari(positions: map<Planet, real>)
  {
    Jupiter in positions && Moon in positions && InKendra(positions[Jupiter], positions[Moon])
  }

  predicate CheckBudhAditya(positions: map<Planet, real>)
  {
    Mercury in positions && Sun in positions && Conjunct(positions[Mercury], positions[Sun], 10.0)
  }

  /** The planet has a position, in a sign it rules or near its exaltation,
      and that position is in an angular house. */
  predicate DignifiedInAngle(p: Planet, positions: map<Planet, real>, houses: seq<real>)
    requires 12 <= |houses|
  {
    p in positions && (OwnSign(p, positions[p]) || Exalted(p, positions[p])) && InAngle(positions[p], houses)
  }

  predicate CheckHamsa(positions: map<Planet, real>)
  {
    && Jupiter in positions && Moon in positions
    && (OwnSign(Jupiter, positions[Jupiter]) || Exalted(Jupiter, positions[Jupiter]))
    && InKendra(positions[Jupiter], positions[Moon])
  }

  predicate CheckMalavya(positions: map<Planet, real>, houses: seq<real>)
    requires 12 <= |houses|
  {
    DignifiedInAngle(Venus, positions, houses)
  }

  predicate CheckShasha(positions: map<Planet, real>, houses: seq<real>)
    requires 12 <= |houses|
  {
    DignifiedInAngle(Saturn, positions, houses)
  }

  predicate CheckRuchaka(positions: map<Planet, real>, houses: seq<real>)
    requires 12 <= |houses|
  {
    DignifiedInAngle(Mars, positions, houses)
  }

  predicate CheckBhadra(positions: map<Planet, real>, houses: seq<real>)
    requires 12 <= |houses|
  {
    DignifiedInAngle(Mercury, positions, houses)
  }

  /** The five planets of the Pancha Mahapurusha rule, in the order tried. */
  const PanchaPlanets: seq<Planet> := [Mars, Mercury, Jupiter, Venus, Saturn]

  predicate PanchaMahapurushaHolds(positions: map<Planet, real>, houses: seq<real>)
    requires 12 <= |houses|
  {
    exists i :: 0 <= i < |PanchaPlanets| && DignifiedInAngle(PanchaPlanets[i], positions, houses)
  }

  /** One planet's test inside the Pancha Mahapurusha rule: placed, in its own
      sign or within 10 degrees of its exaltation degree, and in house 1, 4, 7
      or 10. */
  method IsDignifiedInAngle(planet: Planet, positions: map<Planet, real>, houses: seq<real>) returns (dignified: bool)
    requires 12 <= |houses|
    ensures dignified == DignifiedInAngle(planet, positions, houses)
  {
    if planet !in positions {
      return false;
    }
    var pos := positions[planet];
    var own := IsPlanetInOwnSign(planet, pos);
    var house := GetHousePlacement(pos, houses);
    dignified := (own || Exalted(planet, pos)) && (house == 1 || house == 4 || house == 7 || house == 10);
  }

  /** Tries the five planets in turn and stops at the first dignified one in an angle. */
  method CheckPanchaMahapurusha(positions: map<Planet, real>, houses: seq<real>) returns (found: bool)
    requires 12 <= |houses|
    ensures found == PanchaMahapurushaHolds(positions, houses)
  {
    var i := 0;
    while i < |PanchaPlanets|
      invariant 0 <= i <= |PanchaPlanets|
      invariant forall k :: 0 <= k < i ==> !DignifiedInAngle(PanchaPlanets[k], positions, houses)
    {
      var dignified := IsDignifiedInAngle(PanchaPlanets[i], positions, houses);
      if dignified {
        return true;
      }
      i := i + 1;
    }
    return false;
  }

  /** The last planet, in map order, among `keys` whose houses include `house`. */
  function LastLordOf(house: int, keys: seq<Planet>): Option<Planet>
  {
    if keys == [] then None
    else
      var p := keys[|keys| - 1];
      if house in Rulerships(p) then Some(p) else LastLordOf(house, keys[..|keys| - 1])
  }

  predicate ViparitaRajaHolds(positions: map<Planet, real>)
  {
    var lord6 := LastLordOf(6, RulershipKeys);
    var lord8 := LastLordOf(8, RulershipKeys);
    var lord12 := LastLordOf(12, RulershipKeys);
    && lord6.Some? && lord8.Some? && lord12.Some?
    && lord6.value in positions && lord8.value in positions && lord12.value in positions
    && InKendra(positions[lord6.value], positions[lord8.value])
    && InKendra(positions[lord8.value], positions[lord12.value])
    && InKendra(positions[lord6.value], positions[lord12.value])
  }

  /** Finds the lords of the 6th, 8th and 12th houses, then checks that they
      are in mutual kendras. */
  method CheckViparitaRaja(positions: map<Planet, real>) returns (found: bool)
    ensures found == ViparitaRajaHolds(positions)
  {
    var lord6: Option<Planet> := None;
    var lord8: Option<Planet> := None;
    var lord12: Option<Planet> := None;
    var i := 0;
    while i < |RulershipKeys|
      invariant 0 <= i <= |RulershipKeys|
      invariant lord6 == LastLordOf(6, RulershipKeys[..i])
      invariant lord8 == LastLordOf(8, RulershipKeys[..i])
      invariant lord12 == LastLordOf(12, RulershipKeys[..i])
    {
      var planet := RulershipKeys[i];
      assert RulershipKeys[..i + 1][..i] == RulershipKeys[..i];
      var houses := Rulerships(planet);
      if 6 in houses {
        lord6 := Some(planet);
      }
      if 8 in houses {
        lord8 := Some(planet);
      }
      if 12 in houses {
        lord12 := Some(planet);
      }
      i := i + 1;
    }
    assert RulershipKeys[..|RulershipKeys|] == RulershipKeys;
    if lord6.None? || lord8.None? || lord12.None?
       || lord6.value !in positions || lord8.value !in positions || lord12.value !in positions {
      return false;
    }
    found := InKendra(positions[lord6.value], positions[lord8.value])
          && InKendra(positions[lord8.value], positions[lord12.value])
          && InKendra(positions[lord6.value], positions[lord12.value]);
  }

  /** `p` once for each of `houses` that lies in `wanted`. */
  function LordEntries(p: Planet, houses: seq<int>, wanted: set<int>): seq<Planet>
  {
    if houses == [] then []
    else LordEntries(p, houses[..|houses| - 1], wanted) + (if houses[|houses| - 1] in wanted then [p] else [])
  }

  /** The lords among `keys` of the houses in `wanted`, in map order, a lord
      repeated once per such house it rules. */
  function HouseLords(keys: seq<Planet>, wanted: set<int>): seq<Planet>
  {
    if keys == [] then []
    else
      var p := keys[|keys| - 1];
      HouseLords(keys[..|keys| - 1], wanted) + LordEntries(p, Rulerships(p), wanted)
  }

  /** Lords of the trine houses 1, 5 and 9. */
  function TrineLords(): seq<Planet>
  {
    HouseLords(RulershipKeys, {1, 5, 9})
  }

  /** Lords of the quadrant houses 1, 4, 7 and 10. */
  function QuadrantLords(): seq<Planet>
  {
    HouseLords(RulershipKeys, {1, 4, 7, 10})
  }

  /** Two different planets, both placed, in conjunction. */
  predicate RajaPair(positions: map<Planet, real>, trineLord: Planet, quadrantLord: Planet)
  {
    trineLord in positions && quadrantLord in positions && trineLord != quadrantLord
    && Conjunct(positions[trineLord], positions[quadrantLord], 10.0)
  }

  predicate RajaYogaHolds(positions: map<Planet, real>)
  {
    exists i, j :: 0 <= i < |TrineLords()| && 0 <= j < |QuadrantLords()|
                && RajaPair(positions, TrineLords()[i], QuadrantLords()[j])
  }

  /** Collects the trine and quadrant lords, then looks for a conjunct pair
      of two different planets. */
  method CheckRajaYoga(positions: map<Planet, real>) returns (found: bool)
    ensures found == RajaYogaHolds(positions)
  {
    var trineLords, quadrantLords := CollectLords();
    var a := 0;
    while a < |trineLords|
      invariant 0 <= a <= |trineLords|
      invariant forall i, j :: 0 <= i < a && 0 <= j < |quadrantLords| ==> !RajaPair(positions, trineLords[i], quadrantLords[j])
    {
      var trineLord := trineLords[a];
      if trineLord in positions {
        var b := 0;
        while b < |quadrantLords|
          invariant 0 <= b <= |quadrantLords|
          invariant forall j :: 0 <= j < b ==> !RajaPair(positions, trineLord, quadrantLords[j])
        {
          var quadrantLord := quadrantLords[b];
          if quadrantLord in positions && trineLord != quadrantLord {
            if Conjunct(positions[trineLord], positions[quadrantLord], 10.0) {
              return true;
            }
          }
          b := b + 1;
        }
      }
      a := a + 1;
    }
    return false;
  }

  /** Walks the rulership map, appending each planet once per trine and once
      per quadrant house it rules. */
  method CollectLords() returns (trineLords: seq<Planet>, quadrantLords: seq<Planet>)
    ensures trineLords == TrineLords() && quadrantLords == QuadrantLords()
  {
    trineLords := [];
    quadrantLords := [];
    var i := 0;
    while i < |RulershipKeys|
      invariant 0 <= i <= |RulershipKeys|
      invariant trineLords == HouseLords(RulershipKeys[..i], {1, 5, 9})
      invariant quadrantLords == HouseLords(RulershipKeys[..i], {1, 4, 7, 10})
    {
      var planet := RulershipKeys[i];
      var houses := Rulerships(planet);
      trineLords, quadrantLords := AppendLordEntries(planet, houses, trineLords, quadrantLords);
      HouseLordsStep(RulershipKeys, {1, 5, 9}, i);
      HouseLordsStep(RulershipKeys, {1, 4, 7, 10}, i);
      i := i + 1;
    }
    assert RulershipKeys[..|RulershipKeys|] == RulershipKeys;
  }

  /** The inner walk over the houses one planet rules. */
  method AppendLordEntries(planet: Planet, houses: seq<int>, trineIn: seq<Planet>, quadrantIn: seq<Planet>)
    returns (trineLords: seq<Planet>, quadrantLords: seq<Planet>)
    ensures trineLords == trineIn + LordEntries(planet, houses, {1, 5, 9})
    ensures quadrantLords == quadrantIn + LordEntries(planet, houses, {1, 4, 7, 10})
  {
    trineLords, quadrantLords := trineIn, quadrantIn;
    var j := 0;
    while j < |houses|
      invariant 0 <= j <= |houses|
      invariant trineLords == trineIn + LordEntries(planet, houses[..j], {1, 5, 9})
      invariant quadrantLords == quadrantIn + LordEntries(planet, houses[..j], {1, 4, 7, 10})
    {
      var house := houses[j];
      LordEntriesStep(planet, houses, {1, 5, 9}, j);
      LordEntriesStep(planet, houses, {1, 4, 7, 10}, j);
      if house == 1 || house == 5 || house == 9 {
        trineLords := trineLords + [planet];
      }
      if house == 1 || house == 4 || house == 7 || house == 10 {
        quadrantLords := quadrantLords + [planet];
      }
      j := j + 1;
    }
    assert houses[..|houses|] == houses;
  }

  lemma LordEntriesStep(p: Planet, houses: seq<int>, wanted: set<int>, j: nat)
    requires j < |houses|
    ensures LordEntries(p, houses[..j + 1], wanted)
         == LordEntries(p, houses[..j], wanted) + (if houses[j] in wanted then [p] else [])
  {
    assert houses[..j + 1][..j] == houses[..j];
  }

  lemma HouseLordsStep(keys: seq<Planet>, wanted: set<int>, i: nat)
    requires i < |keys|
    ensures HouseLords(keys[..i + 1], wanted)
         == HouseLords(keys[..i], wanted) + LordEntries(keys[i], Rulerships(keys[i]), wanted)
  {
    assert keys[..i + 1][..i] == keys[..i];
    assert Rulerships(keys[i])[..|Rulerships(keys[i])|] == Rulerships(keys[i]);
  }

  /** The benefics of the Dhana rule, in the order tried. */
  const Benefics: seq<Planet> := [Jupiter, Venus, Mercury, Moon]

  predicate DhanaYogaHolds(positions: map<Planet, real>, houses: seq<real>)
    requires 12 <= |houses|
  {
    exists i :: 0 <= i < |Benefics| && Benefics[i] in positions
             && HousePlacement(positions[Benefics[i]], houses) in {2, 5, 9, 11}
  }

  /** Tries the benefics in turn and stops at the first in house 2, 5, 9 or 11. */
  method CheckDhanaYoga(positions: map<Planet, real>, houses: seq<real>) returns (found: bool)
    requires 12 <= |houses|
    ensures found == DhanaYogaHolds(positions, houses)
  {
    var i := 0;
    while i < |Benefics|
      invariant 0 <= i <= |Benefics|
      invariant forall k :: 0 <= k < i && Benefics[k] in positions ==>
                  HousePlacement(positions[Benefics[k]], houses) !in {2, 5, 9, 11}
    {
      var benefic := Benefics[i];
      if benefic in positions {
        var house := GetHousePlacement(positions[benefic], houses);
        if house == 2 || house == 5 || house == 9 || house == 11 {
          return true;
        }
      }
      i := i + 1;
    }
    return false;
  }

  // ---------------------------------------------------------------------
  // The scorers

  /** Sum of the strengths of the planets among `keys` that have both a
      position and a strength. */
  function SharedTotal(keys: seq<Planet>, positions: map<Planet, real>, strengths: map<Planet, real>): real
  {
    if keys == [] then 0.0
    else
      var p := keys[|keys| - 1];
      SharedTotal(keys[..|keys| - 1], positions, strengths)
        + (if p in positions && p in strengths then strengths[p] else 0.0)
  }

  /** How many planets among `keys` have both a position and a strength. */
  function SharedCount(keys: seq<Planet>, positions: map<Planet, real>, strengths: map<Planet, real>): nat
  {
    if keys == [] then 0
    else
      var p := keys[|keys| - 1];
      SharedCount(keys[..|keys| - 1], positions, strengths) + (if p in positions && p in strengths then 1 else 0)
  }

  /** `base` scaled by one plus a hundredth of the mean of `count` strengths
      adding up to `total`; `base` alone when there are none. */
  function MeanScaled(base: real, total: real, count: nat): real
  {
    if count > 0 then base * (1.0 + total / (count as real * 100.0)) else base
  }

  /** The Raja and Dhana scorer: `base` scaled by the mean strength of the
      placed planets that have a strength. */
  function AverageScaled(base: real, positions: map<Planet, real>, strengths: map<Planet, real>): real
  {
    MeanScaled(base, SharedTotal(KeyOrder, positions, strengths), SharedCount(KeyOrder, positions, strengths))
  }

  /** Walks the positions in map order, adding up the strengths it finds. */
  method ScaledByAverage(base: real, positions: map<Planet, real>, strengths: map<Planet, real>)
    returns (strength: real)
    ensures strength == AverageScaled(base, positions, strengths)
  {
    var totalStrength := 0.0;
    var count := 0;
    var i := 0;
    while i < |KeyOrder|
      invariant 0 <= i <= |KeyOrder|
      invariant totalStrength == SharedTotal(KeyOrder[..i], positions, strengths)
      invariant count == SharedCount(KeyOrder[..i], positions, strengths)
    {
      var planet := KeyOrder[i];
      assert KeyOrder[..i + 1][..i] == KeyOrder[..i];
      if planet in positions && planet in strengths {
        totalStrength := totalStrength + strengths[planet];
        count := count + 1;
      }
      i := i + 1;
    }
    assert KeyOrder[..|KeyOrder|] == KeyOrder;
    if count > 0 {
      return base * (1.0 + totalStrength / (count as real * 100.0));
    }
    return base;
  }

  method CalculateRajaYogaStrength(positions: map<Planet, real>, strengths: map<Planet, real>)
    returns (strength: real)
    ensures strength == AverageScaled(75.0, positions, strengths)
  {
    strength := ScaledByAverage(75.0, positions, strengths);
  }

  method CalculateDhanaYogaStrength(positions: map<Planet, real>, strengths: map<Planet, real>)
    returns (strength: real)
    ensures strength == AverageScaled(65.0, positions, strengths)
  {
    strength := ScaledByAverage(65.0, positions, strengths);
  }

  /** The Gaja Kesari and Budh-Aditya scorer: 70 scaled by one plus a
      two-hundredth of the two planets' summed strength, or 70 when either
      has no strength. */
  function PairScaled(a: Planet, b: Planet, strengths: map<Planet, real>): real
  {
    if a in strengths && b in strengths then 70.0 * (1.0 + (strengths[a] + strengths[b]) / 200.0)
    else 70.0
  }

  // ---------------------------------------------------------------------
  // The detector

  /** The combination a catalog name denotes, if any. */
  function KindOfName(name: string): (k: Option<YogaKind>)
    ensures k.Some? ==> KindName(k.value) == name
  {
    if name == "Raja Yoga" then Some(RajaYoga)
    else if name == "Dhana Yoga" then Some(DhanaYoga)
    else if name == "Gaja Kesari" then Some(GajaKesari)
    else if name == "Budh-Aditya" then Some(BudhAditya)
    else if name == "Pancha Mahapurusha" then Some(PanchaMahapurusha)
    else if name == "Viparita Raja" then Some(ViparitaRaja)
    else if name == "Hamsa" then Some(Hamsa)
    else if name == "Malavya" then Some(Malavya)
    else if name == "Shasha" then Some(Shasha)
    else if name == "Ruchaka" then Some(Ruchaka)
    else if name == "Bhadra" then Some(Bhadra)
    else None
  }

  /** Whether a combination's rule holds on the chart; Chandra-Mangal and
      Neecha Bhanga have no rule and never hold. */
  predicate YogaActive(k: YogaKind, positions: map<Planet, real>, houses: seq<real>)
    requires 12 <= |houses|
  {
    match k
    case RajaYoga => RajaYogaHolds(positions)
    case DhanaYoga => DhanaYogaHolds(positions, houses)
    case GajaKesari => CheckGajaKesari(positions)
    case BudhAditya => CheckBudhAditya(positions)
    case ChandraMangal => false
    case NeechaBhanga => false
    case PanchaMahapurusha => PanchaMahapurushaHolds(positions, houses)
    case ViparitaRaja => ViparitaRajaHolds(positions)
    case Hamsa => CheckHamsa(positions)
    case Malavya => CheckMalavya(positions, houses)
    case Shasha => CheckShasha(positions, houses)
    case Ruchaka => CheckRuchaka(positions, houses)
    case Bhadra => CheckBhadra(positions, houses)
  }

  /** The strength a combination is reported with once it holds. */
  function YogaStrength(k: YogaKind, positions: map<Planet, real>, strengths: map<Planet, real>): real
  {
    match k
    case RajaYoga => AverageScaled(75.0, positions, strengths)
    case DhanaYoga => AverageScaled(65.0, positions, strengths)
    case GajaKesari => PairScaled(Jupiter, Moon, strengths)
    case BudhAditya => PairScaled(Mercury, Sun, strengths)
    case PanchaMahapurusha => 75.0
    case ViparitaRaja => 80.0
    case ChandraMangal => 0.0
    case NeechaBhanga => 0.0
    case _ => 70.0
  }

  /** Whether the entry with this name is reported, and with what strength. */
  function Outcome(name: string, positions: map<Planet, real>, houses: seq<real>, strengths: map<Planet, real>)
    : (real, bool)
    requires 12 <= |houses|
  {
    match KindOfName(name)
    case None => (0.0, false)
    case Some(k) => if YogaActive(k, positions, houses) then (YogaStrength(k, positions, strengths), true) else (0.0, false)
  }

  /** The entries of `definitions` whose rule holds, in order, each marked
      active with its strength. */
  function Detected(definitions: seq<Yoga>, positions: map<Planet, real>, houses: seq<real>, strengths: map<Planet, real>)
    : seq<Yoga>
    requires 12 <= |houses|
  {
    if definitions == [] then []
    else
      var yoga := definitions[|definitions| - 1];
      var outcome := Outcome(yoga.name, positions, houses, strengths);
      Detected(definitions[..|definitions| - 1], positions, houses, strengths)
        + (if outcome.1 then [yoga.(isActive := true, strength := outcome.0)] else [])
  }

  /** The catalog, in its fixed order. */
  const YogaDefinitions: seq<Yoga> := seq(|CatalogKinds|, i requires 0 <= i < |CatalogKinds| => CatalogEntry(CatalogKinds[i]))

  /** Tests one catalog entry: its name selects the rule and, when the rule
      holds, the scorer; a name without a rule is never active. */
  method EvaluateYoga(name: string, planetPositions: map<Planet, real>, housePositions: seq<real>,
                      planetaryStrengths: map<Planet, real>)
    returns (strength: real, isActive: bool)
    requires 12 <= |housePositions|
    ensures (strength, isActive) == Outcome(name, planetPositions, housePositions, planetaryStrengths)
  {
    isActive := false;
    strength := 0.0;
    match KindOfName(name)
    case None =>
    case Some(RajaYoga) =>
      isActive := CheckRajaYoga(planetPositions);
      if isActive {
        strength := CalculateRajaYogaStrength(planetPositions, planetaryStrengths);
      }
    case Some(DhanaYoga) =>
      isActive := CheckDhanaYoga(planetPositions, housePositions);
      if isActive {
        strength := CalculateDhanaYogaStrength(planetPositions, planetaryStrengths);
      }
    case Some(GajaKesari) =>
      isActive := CheckGajaKesari(planetPositions);
      if isActive {
        strength := PairScaled(Jupiter, Moon, planetaryStrengths);
      }
    case Some(BudhAditya) =>
      isActive := CheckBudhAditya(planetPositions);
      if isActive {
        strength := PairScaled(Mercury, Sun, planetaryStrengths);
      }
    case Some(PanchaMahapurusha) =>
      isActive := CheckPanchaMahapurusha(planetPositions, housePositions);
      if isActive {
        strength := 75.0;
      }
    case Some(ViparitaRaja) =>
      isActive := CheckViparitaRaja(planetPositions);
      if isActive {
        strength := 80.0;
      }
    case Some(Hamsa) =>
      isActive := CheckHamsa(planetPositions);
      if isActive {
        strength := 70.0;
      }
    case Some(Malavya) =>
      isActive := CheckMalavya(planetPositions, housePositions);
      if isActive {
        strength := 70.0;
      }
    case Some(Shasha) =>
      isActive := CheckShasha(planetPositions, housePositions);
      if isActive {
        strength := 70.0;
      }
    case Some(Ruchaka) =>
      isActive := CheckRuchaka(planetPositions, housePositions);
      if isActive {
        strength := 70.0;
      }
    case Some(Bhadra) =>
      isActive := CheckBhadra(planetPositions, housePositions);
      if isActive {
        strength := 70.0;
      }
    case Some(_) =>
  }

  /** Runs every catalog entry in order and collects the active ones. */
  method DetectActiveYogas(planetPositions: map<Planet, real>, housePositions: seq<real>,
                           planetaryStrengths: map<Planet, real>)
    returns (activeYogas: seq<Yoga>)
    requires 12 <= |housePositions|
    ensures activeYogas == Detected(YogaDefinitions, planetPositions, housePositions, planetaryStrengths)
  {
    activeYogas := DetectAmong(YogaDefinitions, planetPositions, housePositions, planetaryStrengths);
  }

  /** The detection loop over a given list of definitions, in order. */
  method DetectAmong(definitions: seq<Yoga>, planetPositions: map<Planet, real>, housePositions: seq<real>,
                     planetaryStrengths: map<Planet, real>)
    returns (activeYogas: seq<Yoga>)
    requires 12 <= |housePositions|
    ensures activeYogas == Detected(definitions, planetPositions, housePositions, planetaryStrengths)
  {
    activeYogas := [];
    var i := 0;
    while i < |definitions|
      invariant 0 <= i <= |definitions|
      invariant activeYogas == Detected(definitions[..i], planetPositions, housePositions, planetaryStrengths)
    {
      var yoga := definitions[i];
      assert definitions[..i + 1][..i] == definitions[..i];
      var strength, isActive := EvaluateYoga(yoga.name, planetPositions, housePositions, planetaryStrengths);
      if isActive {
        yoga := yoga.(isActive := true, strength := strength);
        activeYogas := activeYogas + [yoga];
      }
      i := i + 1;
    }
    assert definitions[..|definitions|] == definitions;
  }
}
