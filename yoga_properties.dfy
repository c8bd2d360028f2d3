/** Properties of the yoga detector: its tables agree with each other and
    with the strength calculator's, its geometric tests are symmetric, the
    lordship rules reduce to fixed planets, its scorers stay within the
    ranges their inputs allow, and it reports exactly the combinations whose
    rule holds. */
module YogaProperties {
  import opened Chart
  import Strength
  import opened Yoga

  // ---------------------------------------------------------------------
  // The tables

  /** The one planet ruling each house. */
  function LordOfHouse(h: int): Planet
  {
    match h
    case 5 => Sun
    case 4 => Moon
    case 1 => Mars case 8 => Mars
    case 3 => Mercury case 6 => Mercury
    case 9 => Jupiter case 12 => Jupiter
    case 2 => Venus case 7 => Venus
    case _ => Saturn
  }

  lemma LordOfHouseRules(p: Planet, h: int)
    ensures h in Rulerships(p) ==> LordOfHouse(h) == p
  {
    match p
    case Sun => case Moon => case Mars => case Mercury => case Jupiter =>
    case Venus => case Saturn => case Rahu => case Ketu =>
  }

  /** Each of the twelve houses has exactly one lord. */
  lemma EachHouseRuledOnce(h: int, p: Planet, q: Planet)
    requires 1 <= h <= 12
    ensures exists r :: r in RulershipKeys && h in Rulerships(r)
    ensures h in Rulerships(p) && h in Rulerships(q) ==> p == q
  {
    LordOfHouseRules(p, h);
    LordOfHouseRules(q, h);
    var r := LordOfHouse(h);
    assert r in RulershipKeys && h in Rulerships(r);
  }

  /** The houses a planet rules, taken one below as signs, are the signs the
      strength calculator credits it with ruling. */
  lemma RulershipsAgree(p: Planet)
    ensures (set i | 0 <= i < |Rulerships(p)| :: RuledSigns(Rulerships(p))[i]) == Strength.RulerSigns(p)
  {
    var houses := Rulerships(p);
    var signs := RuledSigns(houses);
    match p
    case Sun => assert signs == [4];
    case Moon => assert signs == [3];
    case Mars => assert signs == [0, 7];
    case Mercury => assert signs == [2, 5];
    case Jupiter => assert signs == [8, 11];
    case Venus => assert signs == [1, 6];
    case Saturn => assert signs == [9, 10];
    case Rahu =>
    case Ketu =>
  }

  /** So the two calculators agree on what "own sign" means. */
  lemma OwnSignAgrees(p: Planet, longitude: real)
    ensures OwnSign(p, longitude) <==> Sign(longitude) in Strength.RulerSigns(p)
  {
    RulershipsAgree(p);
    var signs := RuledSigns(Rulerships(p));
    if Sign(longitude) in signs {
      var i :| 0 <= i < |signs| && signs[i] == Sign(longitude);
    }
  }

  /** The detector's exaltation degrees are the strength calculator's, both
      its declared list and its (degree, sign) table, and each debilitation
      point lies opposite its exaltation point. */
  lemma ExaltationTablesAgree(p: Planet)
    ensures ExaltDebil(p).Some? <==> Strength.DeclaredExaltation(p).Some?
    ensures ExaltDebil(p).Some? ==>
              && ExaltDebil(p).value.0 == Strength.DeclaredExaltation(p).value
              && ExaltDebil(p).value.0 == Strength.ExaltationLongitude(p)
              && Separation(ExaltDebil(p).value.0, ExaltDebil(p).value.1) == 180.0
              && ExaltDebil(p).value.1 == Fmod360(ExaltDebil(p).value.0 + 180.0)
  {
    Strength.DeclaredExaltationAgrees(p);
  }

  // ---------------------------------------------------------------------
  // Geometry

  /** Conjunction and aspect do not depend on the order of the two bodies. */
  lemma ConjunctionAndAspectSymmetric(pos1: real, pos2: real, orb: real, aspect: int)
    ensures Conjunct(pos1, pos2, orb) <==> Conjunct(pos2, pos1, orb)
    ensures AreInAspect(pos1, pos2, aspect) <==> AreInAspect(pos2, pos1, aspect)
  {
    SeparationSymmetric(pos1, pos2);
  }

  /** For longitudes on the circle, two bodies are in kendra exactly when
      their signs are a multiple of three apart, in either order. */
  lemma InKendraOnCircle(pos1: real, pos2: real)
    requires 0.0 <= pos1 < 360.0 && 0.0 <= pos2 < 360.0
    ensures InKendra(pos1, pos2) <==> (Sign(pos1) - Sign(pos2)) % 3 == 0
    ensures InKendra(pos1, pos2) <==> InKendra(pos2, pos1)
  {
    var d := Sign(pos1) - Sign(pos2);
    assert -11 <= d <= 11;
  }

  /** The house of a longitude is the first house, in order, that holds it;
      the first house when none does. */
  lemma HousePlacementIsFirstHolder(longitude: real, houses: seq<real>)
    requires 12 <= |houses|
    ensures var h := HousePlacement(longitude, houses);
            (InHouseAt(longitude, houses, h - 1) && forall j :: 0 <= j < h - 1 ==> !InHouseAt(longitude, houses, j))
            || (h == 1 && forall j :: 0 <= j < 12 ==> !InHouseAt(longitude, houses, j))
  {
  }

  /** Twelve cusps in [0, 360) that increase round the circle, except from
      cusp `w` to the next, where the zodiac wraps: a cyclic partition of the
      ecliptic. */
  predicate CyclicCusps(houses: seq<real>, w: int)
    requires 12 <= |houses|
  {
    0 <= w < 12
    && (forall i :: 0 <= i < 12 ==> 0.0 <= houses[i] < 360.0)
    && (forall i :: 0 <= i < 12 && i != w ==> Rises(houses, i))
  }

  /** Cusp `i` lies below the cusp after it. */
  predicate Rises(houses: seq<real>, i: int)
    requires 12 <= |houses| && 0 <= i < 12
  {
    houses[i] < houses[(i + 1) % 12]
  }

  /** A longitude already on the circle is left unchanged by the house test's
      normalisation. */
  lemma NormalisedOnCircle(x: real)
    requires 0.0 <= x < 360.0
    ensures Fmod360(x + 360.0) == x
  {
    TruncBounds((x + 360.0) / 360.0);
    assert Trunc((x + 360.0) / 360.0) == 1;
  }

  /** On the circle, house membership is the plain interval test, wrapping
      past 0 degrees when the start is not below the end. */
  lemma InHouseOnCircle(p: real, s: real, e: real)
    requires 0.0 <= p < 360.0 && 0.0 <= s < 360.0 && 0.0 <= e < 360.0
    ensures InHouse(p, s, e) <==> if s < e then s <= p < e else s <= p || p < e
  {
    NormalisedOnCircle(p);
    NormalisedOnCircle(s);
    NormalisedOnCircle(e);
  }

  /** Going round from the cusp after the wrap, the cusps increase up to the
      wrap cusp. */
  lemma {:induction false} CuspsIncreaseBetween(houses: seq<real>, w: int, a: nat, b: nat)
    requires 12 <= |houses| && CyclicCusps(houses, w) && a <= b < 12
    ensures houses[(w + 1 + a) % 12] <= houses[(w + 1 + b) % 12]
    ensures a < b ==> houses[(w + 1 + a) % 12] < houses[(w + 1 + b) % 12]
  {
    if a < b {
      CuspsIncreaseBetween(houses, w, a, b - 1);
      var j := (w + b) % 12;
      assert j != w;
      assert Rises(houses, j);
      assert (j + 1) % 12 == (w + 1 + b) % 12;
    }
  }

  /** With cyclically ordered cusps some house holds every longitude on the
      circle: the house of the last cusp, counted from the wrap, not above it. */
  lemma HouseHolding(p: real, houses: seq<real>, w: int) returns (k: int)
    requires 12 <= |houses| && CyclicCusps(houses, w) && 0.0 <= p < 360.0
    ensures 0 <= k < 12 && InHouseAt(p, houses, k)
  {
    NextRotated(w, 11);
    WrapHouseOutside(p, houses, w);
    if p < houses[(w + 1) % 12] {
      return w;
    }
    var m := 0;
    while m < 11 && houses[(w + 1 + (m + 1)) % 12] <= p
      invariant 0 <= m <= 11
      invariant houses[(w + 1 + m) % 12] <= p
    {
      m := m + 1;
    }
    k := (w + 1 + m) % 12;
    if m < 11 {
      OtherHouseBetween(p, houses, w, m);
    }
  }

  /** With cyclically ordered cusps the fallback to the first house is never
      taken: the placement names a house that holds the longitude. */
  lemma CuspsCoverCircle(p: real, houses: seq<real>, w: int)
    requires 12 <= |houses| && CyclicCusps(houses, w) && 0.0 <= p < 360.0
    ensures HouseIndexFrom(p, houses, 0) < 12
    ensures InHouseAt(p, houses, HousePlacement(p, houses) - 1)
  {
    var k := HouseHolding(p, houses, w);
  }

  /** The house `a` places after the wrap, as a cusp index. */
  lemma RotationOf(w: int, j: int) returns (a: nat)
    requires 0 <= w < 12 && 0 <= j < 12
    ensures a < 12 && (w + 1 + a) % 12 == j
  {
    a := if j > w then j - w - 1 else j + 11 - w;
  }

  /** Counted on from the wrap, the house after position `m` is at `m + 1`,
      and only position 11 is the wrap house. */
  lemma NextRotated(w: int, m: nat)
    requires 0 <= w < 12 && m < 12
    ensures (w + 1 + m) % 12 == w <==> m == 11
    ensures m < 11 ==> ((w + 1 + m) % 12 + 1) % 12 == (w + 1 + (m + 1)) % 12
    ensures m == 11 ==> (w + 1) % 12 == (w + 1 + 0) % 12 && (w + 1 + m) % 12 == w
  {
  }

  /** With cyclically ordered cusps, two different houses never hold the same
      longitude. */
  lemma HousesDisjoint(p: real, houses: seq<real>, w: int, a: nat, b: nat)
    requires 12 <= |houses| && CyclicCusps(houses, w) && 0.0 <= p < 360.0 && a < b < 12
    ensures !(InHouseAt(p, houses, (w + 1 + a) % 12) && InHouseAt(p, houses, (w + 1 + b) % 12))
  {
    OtherHouseBetween(p, houses, w, a);
    CuspsIncreaseBetween(houses, w, a + 1, b);
    if b < 11 {
      OtherHouseBetween(p, houses, w, b);
    } else {
      NextRotated(w, 11);
      CuspsIncreaseBetween(houses, w, 0, a);
      WrapHouseOutside(p, houses, w);
    }
  }

  /** A house other than the wrap house holds the longitudes from its own
      cusp up to the next. */
  lemma OtherHouseBetween(p: real, houses: seq<real>, w: int, b: nat)
    requires 12 <= |houses| && CyclicCusps(houses, w) && 0.0 <= p < 360.0 && b < 11
    ensures InHouseAt(p, houses, (w + 1 + b) % 12) <==>
              houses[(w + 1 + b) % 12] <= p < houses[(w + 1 + (b + 1)) % 12]
  {
    var j := (w + 1 + b) % 12;
    NextRotated(w, b);
    assert Rises(houses, j);
    InHouseOnCircle(p, houses[j], houses[(j + 1) % 12]);
  }

  /** The wrap house holds only longitudes from its own cusp on, or below the
      cusp after the wrap. */
  lemma WrapHouseOutside(p: real, houses: seq<real>, w: int)
    requires 12 <= |houses| && CyclicCusps(houses, w) && 0.0 <= p < 360.0
    ensures InHouseAt(p, houses, w) <==> houses[w] <= p || p < houses[(w + 1) % 12]
  {
    NextRotated(w, 11);
    CuspsIncreaseBetween(houses, w, 0, 11);
    InHouseOnCircle(p, houses[w], houses[(w + 1) % 12]);
  }

  /** With cyclically ordered cusps the twelve houses partition the circle:
      the placed house is the one and only house holding the longitude. */
  lemma CuspsPartitionCircle(p: real, houses: seq<real>, w: int)
    requires 12 <= |houses| && CyclicCusps(houses, w) && 0.0 <= p < 360.0
    ensures forall j :: 0 <= j < 12 ==> (InHouseAt(p, houses, j) <==> j == HousePlacement(p, houses) - 1)
  {
    CuspsCoverCircle(p, houses, w);
    var k := HousePlacement(p, houses) - 1;
    forall j | 0 <= j < 12 && j != k
      ensures !InHouseAt(p, houses, j)
    {
      var a := RotationOf(w, j);
      var b := RotationOf(w, k);
      if a < b {
        HousesDisjoint(p, houses, w, a, b);
      } else {
        HousesDisjoint(p, houses, w, b, a);
      }
    }
  }

  /** Two equal consecutive cusps make a house that holds every longitude. */
  lemma EqualCuspsHoldEverything(p: real, s: real)
    ensures InHouse(p, s, s)
  {
  }

  // ---------------------------------------------------------------------
  // The lordship rules

  /** A planet appears among the entries exactly when it is the planet and
      rules one of the wanted houses. */
  lemma {:induction false} LordEntriesMembers(p: Planet, houses: seq<int>, wanted: set<int>, q: Planet)
    ensures q in LordEntries(p, houses, wanted) <==> q == p && exists h :: h in houses && h in wanted
  {
    if houses != [] {
      var last := houses[|houses| - 1];
      var init := houses[..|houses| - 1];
      LordEntriesMembers(p, init, wanted, q);
      assert houses == init + [last];
      if q == p && last !in wanted && exists h :: h in houses && h in wanted {
        var h :| h in houses && h in wanted;
        assert h in init;
      }
    }
  }

  /** A planet is among the lords of a set of houses exactly when it is one
      of the keys and rules one of those houses. */
  lemma {:induction false} HouseLordsMembers(keys: seq<Planet>, wanted: set<int>, q: Planet)
    ensures q in HouseLords(keys, wanted) <==> q in keys && exists h :: h in Rulerships(q) && h in wanted
  {
    if keys != [] {
      var last := keys[|keys| - 1];
      var init := keys[..|keys| - 1];
      HouseLordsMembers(init, wanted, q);
      LordEntriesMembers(last, Rulerships(last), wanted, q);
      assert keys == init + [last];
    }
  }

  /** A planet rules one of a set of houses exactly when one of its (at most
      two) rulership entries is in the set. */
  lemma RulesAmong(q: Planet, wanted: set<int>)
    ensures (exists h :: h in Rulerships(q) && h in wanted) <==>
            ((0 < |Rulerships(q)| && Rulerships(q)[0] in wanted)
             || (1 < |Rulerships(q)| && Rulerships(q)[1] in wanted))
  {
    assert |Rulerships(q)| <= 2;
  }

  /** The trine lords are Jupiter, Mars and the Sun. */
  lemma TrineLordsAre(q: Planet)
    ensures q in TrineLords() <==> q in [Jupiter, Mars, Sun]
  {
    HouseLordsMembers(RulershipKeys, {1, 5, 9}, q);
    RulesAmong(q, {1, 5, 9});
  }

  /** The quadrant lords are Mars, the Moon, Saturn and Venus. */
  lemma QuadrantLordsAre(q: Planet)
    ensures q in QuadrantLords() <==> q in [Mars, Moon, Saturn, Venus]
  {
    HouseLordsMembers(RulershipKeys, {1, 4, 7, 10}, q);
    RulesAmong(q, {1, 4, 7, 10});
  }

  /** Raja Yoga holds exactly when one of Jupiter, Mars and the Sun is
      conjunct, within 10 degrees, with a different one of Mars, the Moon,
      Saturn and Venus. */
  lemma RajaYogaByPlanets(positions: map<Planet, real>)
    ensures RajaYogaHolds(positions) <==>
              exists t, q :: t in [Jupiter, Mars, Sun] && q in [Mars, Moon, Saturn, Venus]
                          && RajaPair(positions, t, q)
  {
    if RajaYogaHolds(positions) {
      var i, j :| 0 <= i < |TrineLords()| && 0 <= j < |QuadrantLords()|
               && RajaPair(positions, TrineLords()[i], QuadrantLords()[j]);
      TrineLordsAre(TrineLords()[i]);
      QuadrantLordsAre(QuadrantLords()[j]);
    }
    if exists t, q :: t in [Jupiter, Mars, Sun] && q in [Mars, Moon, Saturn, Venus] && RajaPair(positions, t, q) {
      var t, q :| t in [Jupiter, Mars, Sun] && q in [Mars, Moon, Saturn, Venus] && RajaPair(positions, t, q);
      TrineLordsAre(t);
      QuadrantLordsAre(q);
      var i :| 0 <= i < |TrineLords()| && TrineLords()[i] == t;
      var j :| 0 <= j < |QuadrantLords()| && QuadrantLords()[j] == q;
    }
  }

  /** The lords of the 6th, 8th and 12th houses are Mercury, Mars and
      Jupiter, so Viparita Raja Yoga holds exactly when those three are placed
      and pairwise in kendra. */
  lemma ViparitaRajaByPlanets(positions: map<Planet, real>)
    ensures LastLordOf(6, RulershipKeys) == Some(Mercury)
    ensures LastLordOf(8, RulershipKeys) == Some(Mars)
    ensures LastLordOf(12, RulershipKeys) == Some(Jupiter)
    ensures ViparitaRajaHolds(positions) <==>
              && Mercury in positions && Mars in positions && Jupiter in positions
              && InKendra(positions[Mercury], positions[Mars])
              && InKendra(positions[Mars], positions[Jupiter])
              && InKendra(positions[Mercury], positions[Jupiter])
  {
    var keys := RulershipKeys;
    assert keys[..6] == keys[..|keys| - 1];
    assert keys[..5] == keys[..6][..5];
    assert keys[..4] == keys[..5][..4];
    assert keys[..3] == keys[..4][..3];
    assert keys[..2] == keys[..3][..2];
    assert keys[..1] == keys[..2][..1];
    assert LastLordOf(6, keys) == LastLordOf(6, keys[..6]) == LastLordOf(6, keys[..5])
        == LastLordOf(6, keys[..4]) == LastLordOf(6, keys[..3]) == Some(Mercury);
    assert LastLordOf(8, keys) == LastLordOf(8, keys[..6]) == LastLordOf(8, keys[..5])
        == LastLordOf(8, keys[..4]) == LastLordOf(8, keys[..3]) == LastLordOf(8, keys[..2]) == Some(Mars);
    assert LastLordOf(12, keys) == LastLordOf(12, keys[..6]) == LastLordOf(12, keys[..5])
        == LastLordOf(12, keys[..4]) == LastLordOf(12, keys[..3]) == LastLordOf(12, keys[..2])
        == LastLordOf(12, keys[..1]) == Some(Jupiter);
  }

  // ---------------------------------------------------------------------
  // The scorers

  /** With every counted strength in [lo, hi], the total lies between count
      times lo and count times hi. */
  lemma {:induction false} SharedTotalBounds(keys: seq<Planet>, positions: map<Planet, real>,
                                             strengths: map<Planet, real>, lo: real, hi: real)
    requires forall p :: p in positions && p in strengths ==> lo <= strengths[p] <= hi
    ensures SharedCount(keys, positions, strengths) as real * lo <= SharedTotal(keys, positions, strengths)
    ensures SharedTotal(keys, positions, strengths) <= SharedCount(keys, positions, strengths) as real * hi
  {
    if keys != [] {
      var init := keys[..|keys| - 1];
      var last := keys[|keys| - 1];
      SharedTotalBounds(init, positions, strengths, lo, hi);
      var c := SharedCount(init, positions, strengths);
      var t := SharedTotal(init, positions, strengths);
      if last in positions && last in strengths {
        assert SharedCount(keys, positions, strengths) == c + 1;
        assert SharedTotal(keys, positions, strengths) == t + strengths[last];
        assert (c + 1) as real * lo == c as real * lo + lo;
        assert (c + 1) as real * hi == c as real * hi + hi;
      } else {
        assert SharedCount(keys, positions, strengths) == c;
        assert SharedTotal(keys, positions, strengths) == t;
      }
    }
  }

  /** The count is the number of distinct keys that have both a position and
      a strength. */
  lemma {:induction false} SharedCountCounts(keys: seq<Planet>, positions: map<Planet, real>,
                                             strengths: map<Planet, real>)
    requires Distinct(keys)
    ensures SharedCount(keys, positions, strengths)
         == |set p | p in keys && p in positions && p in strengths|
  {
    if keys == [] {
      assert (set p | p in keys && p in positions && p in strengths) == {};
    } else {
      var last := keys[|keys| - 1];
      var init := keys[..|keys| - 1];
      assert keys == init + [last];
      SharedCountCounts(init, positions, strengths);
      var before := set p | p in init && p in positions && p in strengths;
      var after := set p | p in keys && p in positions && p in strengths;
      assert last !in init;
      if last in positions && last in strengths {
        assert after == before + {last};
      } else {
        assert after == before;
      }
    }
  }

  /** The planets counted over the map order are the planets with both a
      position and a strength. */
  lemma SharedCountIsCommonKeys(positions: map<Planet, real>, strengths: map<Planet, real>)
    ensures SharedCount(KeyOrder, positions, strengths) == |positions.Keys * strengths.Keys|
  {
    KeyOrderDistinct();
    SharedCountCounts(KeyOrder, positions, strengths);
    forall p | p in positions.Keys * strengths.Keys
      ensures p in KeyOrder
    {
      KeyOrderComplete(p);
    }
    assert (set p | p in KeyOrder && p in positions && p in strengths) == positions.Keys * strengths.Keys;
  }

  /** Scaling by one plus a hundredth of a mean keeps the bounds of the mean. */
  lemma MeanScaleBounds(base: real, total: real, count: nat, lo: real, hi: real)
    requires 0.0 <= base && 0 < count
    requires count as real * lo <= total <= count as real * hi
    ensures base * (1.0 + lo / 100.0) <= MeanScaled(base, total, count) <= base * (1.0 + hi / 100.0)
  {
    var c := count as real * 100.0;
    assert lo / 100.0 * c == count as real * lo;
    assert hi / 100.0 * c == count as real * hi;
    assert total / c * c == total;
    MulLess(lo / 100.0, total / c, c);
    MulLess(total / c, hi / 100.0, c);
    assert base * (1.0 + lo / 100.0) <= base * (1.0 + total / c) by {
      assert base * (1.0 + total / c) - base * (1.0 + lo / 100.0) == base * (total / c - lo / 100.0);
    }
    assert base * (1.0 + total / c) <= base * (1.0 + hi / 100.0) by {
      assert base * (1.0 + hi / 100.0) - base * (1.0 + total / c) == base * (hi / 100.0 - total / c);
    }
  }

  /** The Raja and Dhana scorer divides by the number of placed planets that
      have a strength, and with every such strength in [lo, hi] the result
      lies between `base` scaled by the two ends; with none, it is `base`. */
  lemma AverageScaledBounds(base: real, positions: map<Planet, real>, strengths: map<Planet, real>,
                            lo: real, hi: real)
    requires 0.0 <= base
    requires forall p :: p in positions && p in strengths ==> lo <= strengths[p] <= hi
    ensures positions.Keys * strengths.Keys == {} ==> AverageScaled(base, positions, strengths) == base
    ensures positions.Keys * strengths.Keys != {} ==>
              base * (1.0 + lo / 100.0) <= AverageScaled(base, positions, strengths) <= base * (1.0 + hi / 100.0)
  {
    var total := SharedTotal(KeyOrder, positions, strengths);
    var count := SharedCount(KeyOrder, positions, strengths);
    assert AverageScaled(base, positions, strengths) == MeanScaled(base, total, count);
    SharedCountIsCommonKeys(positions, strengths);
    assert count == |positions.Keys * strengths.Keys|;
    if count > 0 {
      SharedTotalBounds(KeyOrder, positions, strengths, lo, hi);
      MeanScaleBounds(base, total, count, lo, hi);
    }
  }

  /** The Gaja Kesari and Budh-Aditya scorer is symmetric in its two planets
      and, with both strengths in [lo, hi], lies between 70 scaled by the two
      ends; when either strength is missing it is 70. */
  lemma PairScaledBounds(a: Planet, b: Planet, strengths: map<Planet, real>, lo: real, hi: real)
    ensures PairScaled(a, b, strengths) == PairScaled(b, a, strengths)
    ensures !(a in strengths && b in strengths) ==> PairScaled(a, b, strengths) == 70.0
    ensures a in strengths && b in strengths && lo <= strengths[a] <= hi && lo <= strengths[b] <= hi ==>
              70.0 * (1.0 + lo / 100.0) <= PairScaled(a, b, strengths) <= 70.0 * (1.0 + hi / 100.0)
  {
  }

  /** With every strength on the strength calculator's scale of 3 to 35,
      every rule that can hold scores between 65 and 101.25, and every rule
      but Raja Yoga at most 94.5. */
  lemma YogaStrengthRange(k: YogaKind, positions: map<Planet, real>, strengths: map<Planet, real>)
    requires forall p :: p in strengths ==> 3.0 <= strengths[p] <= 35.0
    requires k != ChandraMangal && k != NeechaBhanga
    ensures 65.0 <= YogaStrength(k, positions, strengths) <= 101.25
    ensures k != RajaYoga ==> YogaStrength(k, positions, strengths) <= 94.5
  {
    match k
    case RajaYoga => AverageScaledBounds(75.0, positions, strengths, 3.0, 35.0);
    case DhanaYoga => AverageScaledBounds(65.0, positions, strengths, 3.0, 35.0);
    case GajaKesari => PairScaledBounds(Jupiter, Moon, strengths, 3.0, 35.0);
    case BudhAditya => PairScaledBounds(Mercury, Sun, strengths, 3.0, 35.0);
    case _ =>
  }

  /** 75 scaled by a mean strength stays within 100 exactly when that mean
      is at most a third of 100. */
  lemma MeanScaledWithinHundred(total: real, count: nat)
    requires 0 < count
    ensures MeanScaled(75.0, total, count) <= 100.0 <==> 3.0 * total <= 100.0 * count as real
  {
    var c := count as real * 100.0;
    assert total / c * c == total;
    assert 1.0 / 3.0 * c == c / 3.0;
    MulLess(total / c, 1.0 / 3.0, c);
    assert 75.0 * (1.0 + total / c) <= 100.0 <==> total / c <= 1.0 / 3.0;
  }

  /** The Raja score is within 100 exactly when no planet is counted or the
      mean strength of the counted planets is at most 100/3. */
  lemma RajaWithinHundredIff(positions: map<Planet, real>, strengths: map<Planet, real>)
    ensures YogaStrength(RajaYoga, positions, strengths) <= 100.0 <==>
              (SharedCount(KeyOrder, positions, strengths) == 0
               || 3.0 * SharedTotal(KeyOrder, positions, strengths)
                  <= 100.0 * SharedCount(KeyOrder, positions, strengths) as real)
  {
    var count := SharedCount(KeyOrder, positions, strengths);
    if count > 0 {
      MeanScaledWithinHundred(SharedTotal(KeyOrder, positions, strengths), count);
    }
  }

  /** The yoga strength is rated 0 to 100 by design, and the Raja scorer does
      not keep to it: with Jupiter and the Moon conjunct and both at the top
      strength of 35, the detector reports a Raja Yoga of strength 101.25. */
  lemma RajaStrengthAboveHundred(houses: seq<real>)
    requires 12 <= |houses|
    ensures var positions := map[Jupiter := 10.0, Moon := 12.0];
            var strengths := map[Jupiter := 35.0, Moon := 35.0];
            (forall p :: p in strengths ==> 3.0 <= strengths[p] <= 35.0)
            && exists y :: y in Detected(YogaDefinitions, positions, houses, strengths)
                          && y.name == KindName(RajaYoga) && y.strength == 101.25
  {
    var positions := map[Jupiter := 10.0, Moon := 12.0];
    var strengths := map[Jupiter := 35.0, Moon := 35.0];
    RajaByPair(positions, Jupiter, Moon);
    RajaAtTopStrength(positions, strengths, Jupiter);
    RajaReported(positions, houses, strengths);
  }

  /** A trine lord conjunct with a different quadrant lord makes a Raja Yoga. */
  lemma RajaByPair(positions: map<Planet, real>, t: Planet, q: Planet)
    requires t in [Jupiter, Mars, Sun] && q in [Mars, Moon, Saturn, Venus] && RajaPair(positions, t, q)
    ensures RajaYogaHolds(positions)
  {
    RajaYogaByPlanets(positions);
  }

  /** When every counted planet has the top strength of 35, the Raja score is 101.25. */
  lemma RajaAtTopStrength(positions: map<Planet, real>, strengths: map<Planet, real>, p: Planet)
    requires p in positions && p in strengths
    requires forall q :: q in positions && q in strengths ==> strengths[q] == 35.0
    ensures YogaStrength(RajaYoga, positions, strengths) == 101.25
  {
    assert p in positions.Keys * strengths.Keys;
    AverageScaledBounds(75.0, positions, strengths, 35.0, 35.0);
  }

  /** A chart on which the Raja rule holds reports it with its Raja score. */
  lemma RajaReported(positions: map<Planet, real>, houses: seq<real>, strengths: map<Planet, real>)
    requires 12 <= |houses| && RajaYogaHolds(positions)
    ensures exists y :: y in Detected(YogaDefinitions, positions, houses, strengths)
                        && y.name == KindName(RajaYoga)
                        && y.strength == YogaStrength(RajaYoga, positions, strengths)
  {
    DetectsExactlyTheHoldingRules(RajaYoga, positions, houses, strengths);
  }

  // ---------------------------------------------------------------------
  // The detector

  /** A catalog name selects its own rule, except for the two combinations
      that have none. */
  lemma KindOfNameRoundTrip(k: YogaKind)
    ensures KindOfName(KindName(k)) == if k == ChandraMangal || k == NeechaBhanga then None else Some(k)
  {
    match k
    case RajaYoga => case DhanaYoga => case GajaKesari => case BudhAditya =>
    case ChandraMangal => case NeechaBhanga => case PanchaMahapurusha =>
    case ViparitaRaja => case Hamsa => case Malavya => case Shasha => case Ruchaka => case Bhadra =>
  }

  /** Catalog names tell the combinations apart. */
  lemma KindNameInjective(k: YogaKind, k2: YogaKind)
    ensures KindName(k) == KindName(k2) ==> k == k2
  {
    KindOfNameRoundTrip(k);
    KindOfNameRoundTrip(k2);
    if KindName(k) == KindName(k2) && (k == ChandraMangal || k == NeechaBhanga) {
      assert KindName(ChandraMangal)[0] != KindName(NeechaBhanga)[0];
    }
  }

  /** The outcome of a catalog name is its combination's rule and scorer. */
  lemma OutcomeOfKind(k: YogaKind, positions: map<Planet, real>, houses: seq<real>, strengths: map<Planet, real>)
    requires 12 <= |houses|
    ensures Outcome(KindName(k), positions, houses, strengths)
         == if YogaActive(k, positions, houses) then (YogaStrength(k, positions, strengths), true) else (0.0, false)
  {
    KindOfNameRoundTrip(k);
  }

  /** Everything reported is an entry of the definitions whose rule holds,
      marked active, with its scorer's strength. */
  lemma {:induction false} DetectedSound(definitions: seq<Yoga>, positions: map<Planet, real>, houses: seq<real>,
                                         strengths: map<Planet, real>, y: Yoga)
    requires 12 <= |houses|
    requires y in Detected(definitions, positions, houses, strengths)
    ensures y.isActive
    ensures exists e :: e in definitions && Outcome(e.name, positions, houses, strengths).1
                     && y == e.(isActive := true, strength := Outcome(e.name, positions, houses, strengths).0)
  {
    var init := definitions[..|definitions| - 1];
    var last := definitions[|definitions| - 1];
    assert definitions == init + [last];
    if y in Detected(init, positions, houses, strengths) {
      DetectedSound(init, positions, houses, strengths, y);
      var e :| e in init && Outcome(e.name, positions, houses, strengths).1
             && y == e.(isActive := true, strength := Outcome(e.name, positions, houses, strengths).0);
      assert e in definitions;
    } else {
      assert last in definitions;
    }
  }

  /** Every entry of the definitions whose rule holds is reported. */
  lemma {:induction false} DetectedComplete(definitions: seq<Yoga>, positions: map<Planet, real>, houses: seq<real>,
                                            strengths: map<Planet, real>, e: Yoga)
    requires 12 <= |houses|
    requires e in definitions && Outcome(e.name, positions, houses, strengths).1
    ensures e.(isActive := true, strength := Outcome(e.name, positions, houses, strengths).0)
            in Detected(definitions, positions, houses, strengths)
  {
    var init := definitions[..|definitions| - 1];
    var last := definitions[|definitions| - 1];
    assert definitions == init + [last];
    if e != last {
      assert e in init;
      DetectedComplete(init, positions, houses, strengths, e);
    }
  }

  /** Entries with distinct names are reported at most once each, in the
      order of the definitions. */
  lemma {:induction false} DetectedNamesDistinct(definitions: seq<Yoga>, positions: map<Planet, real>,
                                                 houses: seq<real>, strengths: map<Planet, real>)
    requires 12 <= |houses|
    requires forall i, j :: 0 <= i < j < |definitions| ==> definitions[i].name != definitions[j].name
    ensures var r := Detected(definitions, positions, houses, strengths);
            |r| <= |definitions| && forall i, j :: 0 <= i < j < |r| ==> r[i].name != r[j].name
  {
    if definitions != [] {
      var init := definitions[..|definitions| - 1];
      var last := definitions[|definitions| - 1];
      DetectedNamesDistinct(init, positions, houses, strengths);
      var r0 := Detected(init, positions, houses, strengths);
      forall i | 0 <= i < |r0|
        ensures r0[i].name != last.name
      {
        DetectedSound(init, positions, houses, strengths, r0[i]);
        var e :| e in init && Outcome(e.name, positions, houses, strengths).1
               && r0[i] == e.(isActive := true, strength := Outcome(e.name, positions, houses, strengths).0);
        var m :| 0 <= m < |init| && init[m] == e;
        assert definitions[m] == e;
      }
    }
  }

  /** The catalog holds thirteen fresh entries, one per combination. */
  lemma CatalogEntries()
    ensures |YogaDefinitions| == 13
    ensures forall i :: 0 <= i < 13 ==> YogaDefinitions[i] == CatalogEntry(CatalogKinds[i])
    ensures forall e :: e in YogaDefinitions ==> !e.isActive && e.strength == 0.0
  {
  }

  /** Every combination has its place in the catalog. */
  function CatalogPosition(k: YogaKind): (i: nat)
    ensures i < |CatalogKinds| && CatalogKinds[i] == k
  {
    match k
    case RajaYoga => 0
    case DhanaYoga => 1
    case GajaKesari => 2
    case BudhAditya => 3
    case ChandraMangal => 4
    case NeechaBhanga => 5
    case PanchaMahapurusha => 6
    case ViparitaRaja => 7
    case Hamsa => 8
    case Malavya => 9
    case Shasha => 10
    case Ruchaka => 11
    case Bhadra => 12
  }

  lemma CatalogIndex(k: YogaKind) returns (i: nat)
    ensures i < |CatalogKinds| && CatalogKinds[i] == k
  {
    i := CatalogPosition(k);
  }

  /** Each position of the catalog order holds the combination placed there,
      so no combination appears twice. */
  lemma CatalogPositionAt(i: nat)
    requires i < |CatalogKinds|
    ensures CatalogPosition(CatalogKinds[i]) == i
  {
    if i == 0 {} else if i == 1 {} else if i == 2 {} else if i == 3 {} else if i == 4 {}
    else if i == 5 {} else if i == 6 {} else if i == 7 {} else if i == 8 {} else if i == 9 {}
    else if i == 10 {} else if i == 11 {} else {}
  }

  /** The catalog is made of catalog entries, among them every combination's. */
  lemma CatalogMembers(k: YogaKind)
    ensures |YogaDefinitions| == 13
    ensures CatalogEntry(k) in YogaDefinitions
    ensures forall e :: e in YogaDefinitions ==> exists k2 :: e == CatalogEntry(k2)
  {
    var i := CatalogIndex(k);
    assert YogaDefinitions[i] == CatalogEntry(k);
    forall e | e in YogaDefinitions
      ensures exists k2 :: e == CatalogEntry(k2)
    {
      var m :| 0 <= m < |YogaDefinitions| && YogaDefinitions[m] == e;
      assert e == CatalogEntry(CatalogKinds[m]);
    }
  }

  /** The catalog's names are pairwise distinct. */
  lemma CatalogNamesDistinct()
    ensures forall i, j :: 0 <= i < j < |YogaDefinitions| ==> YogaDefinitions[i].name != YogaDefinitions[j].name
  {
    CatalogEntries();
    forall i, j | 0 <= i < j < 13
      ensures YogaDefinitions[i].name != YogaDefinitions[j].name
    {
      var ki, kj := CatalogKinds[i], CatalogKinds[j];
      CatalogPositionAt(i);
      CatalogPositionAt(j);
      KindNameInjective(ki, kj);
      assert YogaDefinitions[i].name == KindName(ki) && YogaDefinitions[j].name == KindName(kj);
    }
  }

  /** Over any definitions made of catalog entries that include a
      combination's own, the detector reports that combination exactly when
      its rule holds, and then as its catalog entry made active with its
      scorer's strength. */
  lemma {:induction false} DetectsExactlyIn(definitions: seq<Yoga>, k: YogaKind, positions: map<Planet, real>,
                                            houses: seq<real>, strengths: map<Planet, real>)
    requires 12 <= |houses|
    requires forall e :: e in definitions ==> exists k2 :: e == CatalogEntry(k2)
    requires CatalogEntry(k) in definitions
    ensures (exists y :: y in Detected(definitions, positions, houses, strengths) && y.name == KindName(k))
            <==> YogaActive(k, positions, houses)
    ensures forall y :: y in Detected(definitions, positions, houses, strengths) && y.name == KindName(k) ==>
              y == Yoga(KindName(k), KindDescription(k), true, YogaStrength(k, positions, strengths))
  {
    var r := Detected(definitions, positions, houses, strengths);
    forall y | y in r && y.name == KindName(k)
      ensures YogaActive(k, positions, houses)
      ensures y == Yoga(KindName(k), KindDescription(k), true, YogaStrength(k, positions, strengths))
    {
      ReportedOfKind(definitions, k, positions, houses, strengths, y);
    }
    if YogaActive(k, positions, houses) {
      OutcomeOfKind(k, positions, houses, strengths);
      DetectedComplete(definitions, positions, houses, strengths, CatalogEntry(k));
    }
  }

  /** A reported entry named after a combination is that combination's
      catalog entry, made active with its scorer's strength. */
  lemma ReportedOfKind(definitions: seq<Yoga>, k: YogaKind, positions: map<Planet, real>,
                       houses: seq<real>, strengths: map<Planet, real>, y: Yoga)
    requires 12 <= |houses|
    requires forall e :: e in definitions ==> exists k2 :: e == CatalogEntry(k2)
    requires y in Detected(definitions, positions, houses, strengths) && y.name == KindName(k)
    ensures YogaActive(k, positions, houses)
    ensures y == Yoga(KindName(k), KindDescription(k), true, YogaStrength(k, positions, strengths))
  {
    OutcomeOfKind(k, positions, houses, strengths);
    DetectedSound(definitions, positions, houses, strengths, y);
    var e :| e in definitions && Outcome(e.name, positions, houses, strengths).1
           && y == e.(isActive := true, strength := Outcome(e.name, positions, houses, strengths).0);
    var k2 :| e == CatalogEntry(k2);
    KindNameInjective(k, k2);
    assert k2 == k;
  }

  /** The detector reports a combination exactly when its rule holds, under
      its catalog name and description, marked active, with its scorer's
      strength. */
  lemma DetectsExactlyTheHoldingRules(k: YogaKind, positions: map<Planet, real>, houses: seq<real>,
                                      strengths: map<Planet, real>)
    requires 12 <= |houses|
    ensures (exists y :: y in Detected(YogaDefinitions, positions, houses, strengths) && y.name == KindName(k))
            <==> YogaActive(k, positions, houses)
    ensures forall y :: y in Detected(YogaDefinitions, positions, houses, strengths) && y.name == KindName(k) ==>
              y == Yoga(KindName(k), KindDescription(k), true, YogaStrength(k, positions, strengths))
  {
    CatalogMembers(k);
    DetectsExactlyIn(YogaDefinitions, k, positions, houses, strengths);
  }

  /** Chandra-Mangal and Neecha Bhanga, which have no rule, are never reported. */
  lemma RulelessNeverReported(positions: map<Planet, real>, houses: seq<real>, strengths: map<Planet, real>)
    requires 12 <= |houses|
    ensures forall y :: y in Detected(YogaDefinitions, positions, houses, strengths) ==>
              y.name != "Chandra-Mangal" && y.name != "Neecha Bhanga"
  {
    DetectsExactlyTheHoldingRules(ChandraMangal, positions, houses, strengths);
    DetectsExactlyTheHoldingRules(NeechaBhanga, positions, houses, strengths);
    assert !YogaActive(ChandraMangal, positions, houses) && !YogaActive(NeechaBhanga, positions, houses);
    assert KindName(ChandraMangal) == "Chandra-Mangal" && KindName(NeechaBhanga) == "Neecha Bhanga";
  }

  /** No combination is reported twice, and at most thirteen are reported. */
  lemma DetectsEachAtMostOnce(positions: map<Planet, real>, houses: seq<real>, strengths: map<Planet, real>)
    requires 12 <= |houses|
    ensures var r := Detected(YogaDefinitions, positions, houses, strengths);
            |r| <= 13 && forall i, j :: 0 <= i < j < |r| ==> r[i].name != r[j].name
  {
    CatalogNamesDistinct();
    DetectedNamesDistinct(YogaDefinitions, positions, houses, strengths);
  }

  /** The report is a subsequence of the definitions: its entries come from
      strictly increasing positions, each entry of the definitions whose rule
      holds, made active with its strength. */
  lemma {:induction false} DetectedIsSubsequence(definitions: seq<Yoga>, positions: map<Planet, real>,
                                                 houses: seq<real>, strengths: map<Planet, real>)
    returns (index: seq<nat>)
    requires 12 <= |houses|
    ensures var r := Detected(definitions, positions, houses, strengths);
            && |index| == |r|
            && (forall i :: 0 <= i < |index| ==>
                  (&& index[i] < |definitions|
                   && Outcome(definitions[index[i]].name, positions, houses, strengths).1
                   && r[i] == definitions[index[i]].(isActive := true,
                                strength := Outcome(definitions[index[i]].name, positions, houses, strengths).0)))
            && (forall i, j :: 0 <= i < j < |index| ==> index[i] < index[j])
  {
    if definitions == [] {
      index := [];
    } else {
      var n := |definitions| - 1;
      var init := definitions[..n];
      index := DetectedIsSubsequence(init, positions, houses, strengths);
      assert forall i :: 0 <= i < |index| ==> definitions[index[i]] == init[index[i]];
      if Outcome(definitions[n].name, positions, houses, strengths).1 {
        index := index + [n];
      }
    }
  }

  /** The fixed-strength rules are reported at their fixed strengths:
      Pancha Mahapurusha at 75, Viparita Raja at 80, and the five
      single-planet rules at 70. */
  lemma FixedStrengths(k: YogaKind, positions: map<Planet, real>, houses: seq<real>, strengths: map<Planet, real>)
    requires 12 <= |houses|
    requires k in {PanchaMahapurusha, ViparitaRaja, Hamsa, Malavya, Shasha, Ruchaka, Bhadra}
    ensures forall y :: y in Detected(YogaDefinitions, positions, houses, strengths) && y.name == KindName(k) ==>
              y.strength == if k == PanchaMahapurusha then 75.0 else if k == ViparitaRaja then 80.0 else 70.0
  {
    DetectsExactlyTheHoldingRules(k, positions, houses, strengths);
  }

  /** A rule whose planets are not placed does not hold. */
  lemma AbsentPlanetsInactive(positions: map<Planet, real>, houses: seq<real>)
    requires 12 <= |houses|
    ensures Jupiter !in positions || Moon !in positions ==>
              !YogaActive(GajaKesari, positions, houses) && !YogaActive(Hamsa, positions, houses)
    ensures Mercury !in positions || Sun !in positions ==> !YogaActive(BudhAditya, positions, houses)
    ensures Mercury !in positions || Mars !in positions || Jupiter !in positions ==>
              !YogaActive(ViparitaRaja, positions, houses)
    ensures Venus !in positions ==> !YogaActive(Malavya, positions, houses)
    ensures Saturn !in positions ==> !YogaActive(Shasha, positions, houses)
    ensures Mars !in positions ==> !YogaActive(Ruchaka, positions, houses)
    ensures Mercury !in positions ==> !YogaActive(Bhadra, positions, houses)
  {
    ViparitaRajaByPlanets(positions);
  }

  /** With no planet placed, no rule holds. */
  lemma NothingHoldsOnEmptyChart(k: YogaKind, houses: seq<real>)
    requires 12 <= |houses|
    ensures !YogaActive(k, map[], houses)
  {
    match k
    case ViparitaRaja => ViparitaRajaByPlanets(map[]);
    case _ =>
  }

  /** With no planet placed, nothing is reported. */
  lemma EmptyChartReportsNothing(houses: seq<real>, strengths: map<Planet, real>)
    requires 12 <= |houses|
    ensures Detected(YogaDefinitions, map[], houses, strengths) == []
  {
    var r := Detected(YogaDefinitions, map[], houses, strengths);
    if r != [] {
      DetectedSound(YogaDefinitions, map[], houses, strengths, r[0]);
      var e :| e in YogaDefinitions && Outcome(e.name, map[], houses, strengths).1;
      CatalogMembers(RajaYoga);
      var k :| e == CatalogEntry(k);
      OutcomeOfKind(k, map[], houses, strengths);
      NothingHoldsOnEmptyChart(k, houses);
      assert false;
    }
  }
}
