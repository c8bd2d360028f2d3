# AstroProQt chart calculators in Dafny

AstroProQt draws Vedic birth charts. Behind the drawing are three
calculators. Each one takes a fixed snapshot of the chart and computes a
result from it. The snapshot is the longitudes of the nine bodies (Sun,
Moon, Mars, Mercury, Jupiter, Venus, Saturn, Rahu, Ketu), the twelve house
cusps, and the birth instant. This project models the three calculators and
proves what they promise.

- **Vimshottari Dasha** (`vimshottari.dfy`, `dasha.dfy`, `dasha_properties.dfy`).
  - The Moon's longitude is counted in nakshatras of 13°20′ and in padas,
    which are quarters of a nakshatra. That count, taken mod 9, picks the
    first lord.
  - The first period is back-dated by the share of the nakshatra already
    traversed.
  - Nine Mahadashas are laid end to end. Their lengths are 6, 10, 7, 18, 16,
    19, 17, 7 and 20 years, in the order Sun, Moon, Mars, Rahu, Jupiter,
    Saturn, Mercury, Ketu, Venus.
  - Each Mahadasha is split into nine Antardashas. Each Antardasha is a
    `years/120` share of its parent, truncated to whole milliseconds.
  - A lookup names the period running at a given instant. It returns
    `"Maha-Antar"`, or just `"Maha"`, or `"Unknown"`.
- **Six-component strength** (`strength.dfy`). Each planet gets six scores:
  - positional: its rulership, its distance from its exaltation point, and
    the house a cusp scan finds;
  - directional and temporal: from its sign;
  - motional: a constant;
  - aspectual: special and standard aspects from the other planets;
  - natural: a table.

  A default record has all seven fields at zero (`DefaultStrength`). The
  total is the sum of the six scores.
- **Yoga detector** (`yoga.dfy`, `yoga_properties.dfy`). It walks a fixed
  catalog of thirteen yogas and tests each entry by its name. For an entry
  that holds, it appends the entry, marked active and scored. The tests are
  built from shared helpers:
  - conjunction within an orb;
  - cyclic house membership and house placement;
  - kendra (signs a multiple of three apart);
  - own sign, and nearness (within 10°) to the exaltation degree;
  - the lords of trine, quadrant and dusthana houses.

The representation:

- Planet names are a datatype. Maps keyed by name are `map<Planet, real>`,
  and a map is iterated in its key order (alphabetical by name, `KeyOrder`).
- Longitudes are `real`. The nakshatra length is exactly 40/3.
- Instants are integer milliseconds. A year is 31 557 600 000 ms.
- A C++ cast of a `double` to an integer truncates toward zero (`Trunc`).
  `fmod` is written out the same way.
- The calculators' loops are methods. Each is proved equal to a function of
  its inputs, and the lemmas state what those functions promise.

## Model

| member | source | states |
|---|---|---|
| Chart.NameInjective | AstroProQt/Calculators/dashacalculator.h:34-37 | two bodies have the same display name exactly when they are the same body |
| Chart.KeyOrderComplete | AstroProQt/Calculators/strengthcalculator.cpp:56 | every body occurs in the key order in which the maps are iterated |
| Chart.KeyOrderDistinct | AstroProQt/Calculators/strengthcalculator.cpp:56 | the iteration order lists nine bodies, none twice |
| Chart.TruncBounds | AstroProQt/Calculators/dashacalculator.cpp:89 | the integer cast truncates toward zero: it is the floor for non-negative values and the ceiling for negative ones |
| Chart.Fmod360 | AstroProQt/Calculators/yogacalculator.cpp:182-184 | the normalisation lands in [0, 360) for non-negative input, leaves [0, 360) unchanged, and stays in (-360, 0] for negative input, as `fmod` does |
| Chart.Sign | AstroProQt/Calculators/strengthcalculator.cpp:85 | the sign index is the 30-degree band that holds the longitude, and it is 0..11 on the circle |
| Chart.SeparationSymmetric | AstroProQt/Calculators/strengthcalculator.cpp:227-231 | the aspect separation does not depend on the order of the two longitudes |
| Chart.SeparationIsShorterArc | AstroProQt/Calculators/strengthcalculator.cpp:227-231 | for longitudes on the circle, the separation is the shorter of the two arcs and lies in [0, 180] |
| Vimshottari.IndexOf | AstroProQt/Calculators/dashacalculator.cpp:58 | the position of a body in the lord order is 0..8 and names that body back |
| Vimshottari.IndexOfPlanetAt | AstroProQt/Calculators/dashacalculator.h:34-37 | looking up the name at position k gives back k, since the nine names are distinct |
| Vimshottari.Nakshatra | AstroProQt/Calculators/dashacalculator.cpp:86-89 | the nakshatra index n satisfies n·L ≤ longitude < (n+1)·L, and n < 27 below 360 degrees |
| Vimshottari.NakshatraPosition | AstroProQt/Calculators/dashacalculator.cpp:104-107 | the degrees traversed inside the nakshatra lie in [0, L) |
| Vimshottari.Pada | AstroProQt/Calculators/dashacalculator.cpp:92-93 | the pada is 0..3 |
| Vimshottari.QuartersDecompose | AstroProQt/Calculators/dashacalculator.cpp:89-96 | nakshatra × 4 + pada is exactly the number of whole 3°20′ quarters before the longitude |
| Vimshottari.FindStartingPlanet | AstroProQt/Calculators/dashacalculator.cpp:84-100 | the starting index is in [0, 9) and equals the number of whole quarters mod 9 |
| Vimshottari.ElapsedMs | AstroProQt/Calculators/dashacalculator.cpp:109-117 | the elapsed part of the first Mahadasha is at least 0 and strictly shorter than that Mahadasha |
| Vimshottari.DashaStartTime | AstroProQt/Calculators/dashacalculator.cpp:102-121 | the back-dated start is at or before the birth instant, and the birth instant falls before the first lord's period ends |
| Dasha.CalculateAntarDasha | AstroProQt/Calculators/dashacalculator.cpp:54-82 | the loop builds exactly the Antardasha list of the Mahadasha (its layout is stated by AntarIsLaidOut) |
| Dasha.CalculateVimshottariDasha | AstroProQt/Calculators/dashacalculator.cpp:6-33 | the loop builds exactly the timeline of the birth data (its layout is stated by TimelineLayout) |
| Dasha.FirstContaining | AstroProQt/Calculators/dashacalculator.cpp:39-49 | the search stops at the first period whose half-open interval holds the instant, and no earlier period holds it |
| Dasha.LabelAt | AstroProQt/Calculators/dashacalculator.cpp:39-51 | the nested search returns the rendered label of the running Mahadasha and Antardasha |
| Dasha.GetCurrentDasha | AstroProQt/Calculators/dashacalculator.cpp:35-52 | the label is the one for the query instant on the timeline of the birth data |
| Dasha.FirstContainingIs | AstroProQt/Calculators/dashacalculator.cpp:39-40 | an index whose period holds the instant, with no earlier period holding it, is the one the search finds |
| DashaProperties.YearsTotal | AstroProQt/Calculators/dashacalculator.h:31 | every year length is positive and the nine sum to 120 |
| DashaProperties.LordYears | AstroProQt/Calculators/dashacalculator.h:31-37 | the pairing by position: Sun 6, Moon 10, Mars 7, Rahu 18, Jupiter 16, Saturn 19, Mercury 17, Ketu 7, Venus 20 |
| DashaProperties.PlanetAtInjective | AstroProQt/Calculators/dashacalculator.h:34-37 | two positions of the lord order name the same body only if they are equal |
| DashaProperties.YearsRotation | AstroProQt/Calculators/dashacalculator.cpp:14-22 | the nine year lengths taken cyclically from any starting lord still sum to 120 |
| DashaProperties.CycleTotal | AstroProQt/Calculators/dashacalculator.cpp:14-30 | nine Mahadashas from any starting lord span exactly 120 years |
| DashaProperties.MahaAt | AstroProQt/Calculators/dashacalculator.cpp:14-29 | the j-th Mahadasha has lord (start + j) mod 9, starts where the first j end and ends after its own years, and carries its Antardashas |
| DashaProperties.CycleIsLaidOut | AstroProQt/Calculators/dashacalculator.cpp:6-33 | nine Mahadashas: the first starts at the computed start, each lasts its lord's years, each ends where the next starts, the last ends 120 years later |
| DashaProperties.TimelineLayout | AstroProQt/Calculators/dashacalculator.cpp:6-33 | the timeline of any birth data has that layout, from the back-dated start and the starting lord |
| DashaProperties.EachLordOnce | AstroProQt/Calculators/dashacalculator.cpp:14-18 | every body rules exactly one of the nine Mahadashas |
| DashaProperties.BirthInFirstMahadasha | AstroProQt/Calculators/dashacalculator.cpp:102-121 | the birth instant lies in the first Mahadasha |
| DashaProperties.FirstMahadashaSpan | AstroProQt/Calculators/dashacalculator.cpp:19-23 | the first Mahadasha starts at the cycle start and lasts the starting lord's years |
| DashaProperties.AntarAt | AstroProQt/Calculators/dashacalculator.cpp:64-79 | the j-th Antardasha has lord (parent index + j) mod 9, starts after the first j shares, lasts its truncated share, and has no children |
| DashaProperties.AntarIsLaidOut | AstroProQt/Calculators/dashacalculator.cpp:54-82 | nine Antardashas: the first has the parent's lord and start, they cycle through the lord order, each ends where the next starts, none has children |
| DashaProperties.ShareBounds | AstroProQt/Calculators/dashacalculator.cpp:72-73 | each share is the exact `T × years/120` truncated down to whole milliseconds |
| DashaProperties.AntarTotalBounds | AstroProQt/Calculators/dashacalculator.cpp:62-78 | the nine truncated shares of a forward span T sum to at most T and fall short by fewer than 9 ms |
| DashaProperties.AntarTotalExact | AstroProQt/Calculators/dashacalculator.cpp:72-73 | when T is a whole number of 120ths, the shares add up to exactly T |
| DashaProperties.AntarSpan | AstroProQt/Calculators/dashacalculator.cpp:54-82 | the last Antardasha ends within the parent's last 9 ms and never after the parent |
| DashaProperties.AntarSpanExact | AstroProQt/Calculators/dashacalculator.cpp:54-82 | for a span that is a whole number of 120ths, the last Antardasha ends exactly at the parent's end |
| DashaProperties.MahadashaSpanExact | AstroProQt/Calculators/dashacalculator.cpp:22 | every Mahadasha of the cycle spans a whole number of 120ths of a millisecond count |
| DashaProperties.CycleChained | AstroProQt/Calculators/dashacalculator.cpp:19-29 | the Mahadashas are contiguous and none is empty |
| DashaProperties.AntarChained | AstroProQt/Calculators/dashacalculator.cpp:69-78 | the Antardashas of a forward Mahadasha are contiguous |
| DashaProperties.FoundInChain | AstroProQt/Calculators/dashacalculator.cpp:39-40 | in contiguous periods, an instant between the first start and the last end is found |
| DashaProperties.NotFoundOutsideChain | AstroProQt/Calculators/dashacalculator.cpp:39-51 | an instant before the first start or at or after the last end is not found |
| DashaProperties.LaterAtBoundary | AstroProQt/Calculators/dashacalculator.cpp:40 | intervals are half-open, so at a shared boundary the later period is found |
| DashaProperties.LabelNamesRunningPeriods | AstroProQt/Calculators/dashacalculator.cpp:35-52 | "Unknown" exactly when no period holds the instant; otherwise the label names a period that holds it, and the Antardasha that holds it when there is one |
| DashaProperties.CycleLookup | AstroProQt/Calculators/dashacalculator.cpp:35-52 | on a laid-out cycle the answer is "Unknown" exactly outside the 120 years, and inside them it always names a Mahadasha and an Antardasha |
| DashaProperties.TimelineLookup | AstroProQt/Calculators/dashacalculator.cpp:35-52 | the same for the timeline of any birth data |
| DashaProperties.AntarCovers | AstroProQt/Calculators/dashacalculator.cpp:42-46 | inside a Mahadasha spanning a whole number of 120ths, some Antardasha holds the instant |
| DashaProperties.CycleBoundary | AstroProQt/Calculators/dashacalculator.cpp:39-46 | at the end instant of a Mahadasha the lookup names the next Mahadasha and its first Antardasha |
| DashaProperties.TimelineBoundary | AstroProQt/Calculators/dashacalculator.cpp:39-46 | the same on the timeline of any birth data |
| DashaProperties.AntarFirstAtStart | AstroProQt/Calculators/dashacalculator.cpp:58-69 | at a Mahadasha's start the first Antardasha is found, and its lord is the parent's |
| DashaProperties.SharePositive | AstroProQt/Calculators/dashacalculator.cpp:73 | every share of a span of at least 120 ms is positive |
| DashaProperties.GapTotal | AstroProQt/Calculators/dashacalculator.cpp:72-73 | the shares of a 100 ms span add up to 96 ms, so truncation leaves a gap |
| DashaProperties.TruncationGap | AstroProQt/Calculators/dashacalculator.cpp:47 | in that gap the lookup names the Mahadasha alone |
| Strength.PlanetsListed | AstroProQt/Calculators/strengthcalculator.h:46-49 | the planet list holds all nine bodies, none twice |
| Strength.DeclaredExaltationAgrees | AstroProQt/Calculators/strengthcalculator.h:52-60 | exactly the seven classical planets have a declared degree, and it equals sign × 30 + degree from the (degree, sign) table |
| Strength.SpecialAspectWeights | AstroProQt/Calculators/strengthcalculator.cpp:40-47 | only Mars, Jupiter and Saturn cast special aspects: at most three each, weights between 0.5 and 1 |
| Strength.CuspIndexFrom | AstroProQt/Calculators/strengthcalculator.cpp:103-108 | the scan stops at the first cusp interval holding the position, or after the last cusp |
| Strength.HouseBonus | AstroProQt/Calculators/strengthcalculator.cpp:111-121 | the house bonus is 3, 2 or 1 |
| Strength.ExaltationBonus | AstroProQt/Calculators/strengthcalculator.cpp:92-99 | the exaltation bonus is 0..5, and positive exactly when the plain, unwrapped distance to the exaltation point is under 30 |
| Strength.ScanHouse | AstroProQt/Calculators/strengthcalculator.cpp:101-108 | the loop with `break` returns the house of the first matching cusp interval, or 1 |
| Strength.CalculatePositionalStrength | AstroProQt/Calculators/strengthcalculator.cpp:81-124 | the method returns the positional strength: own-sign, exaltation and house bonuses added |
| Strength.PositionalBounds | AstroProQt/Calculators/strengthcalculator.cpp:81-124 | positional strength lies in [1, 13] |
| Strength.UnmatchedScanIsFirstHouse | AstroProQt/Calculators/strengthcalculator.cpp:101-121 | when no cusp interval holds the position, the house defaults to 1 and earns 3 |
| Strength.DirectionalStrength | AstroProQt/Calculators/strengthcalculator.cpp:126-148 | directional strength is 0 or 2, and always 0 for the nodes |
| Strength.TemporalValues | AstroProQt/Calculators/strengthcalculator.cpp:150-170 | temporal strength is 0, 1 or 2; Mercury always gets 1 and the nodes 0; the Sun, Jupiter and Saturn get 2 exactly in signs 0..5, the Moon, Venus and Mars exactly outside them |
| Strength.NaturalStrength | AstroProQt/Calculators/strengthcalculator.cpp:210-225 | natural strength lies in [1, 5] and is 5 only for the Sun |
| Strength.FirstSpecialFrom | AstroProQt/Calculators/strengthcalculator.cpp:193-198 | the special-aspect scan stops at the first entry within one degree of the separation |
| Strength.StandardBonus | AstroProQt/Calculators/strengthcalculator.cpp:202-204 | the standard trine, sextile or conjunction bonus is between 0 and 0.5 |
| Strength.CalculateAspectualStrength | AstroProQt/Calculators/strengthcalculator.cpp:178-208 | the nested loop with `break` returns the aspectual strength: over the other planets in map order, the first special weight plus one standard bonus each |
| Strength.AspectFromBounds | AstroProQt/Calculators/strengthcalculator.cpp:186-204 | one other planet contributes between 0 and 1.5 |
| Strength.AspectualOverBounds | AstroProQt/Calculators/strengthcalculator.cpp:185-205 | the sum is non-negative and at most 1.5 per contributing planet |
| Strength.OthersOverBound | AstroProQt/Calculators/strengthcalculator.cpp:185-186 | the planet itself never counts among the contributors |
| Strength.AspectualBounds | AstroProQt/Calculators/strengthcalculator.cpp:178-208 | aspectual strength lies in [0, 12] |
| Strength.AspectualIgnoresOwnPosition | AstroProQt/Calculators/strengthcalculator.cpp:186 | the planet's own entry in the position map, changed or removed, does not change its aspectual strength |
| Strength.StrengthRanges | AstroProQt/Calculators/strengthcalculator.cpp:60-73 | each component lies in its range, motional is 1, and the total is exactly their sum, between 3 and 35 |
| Strength.CalculateStrengths | AstroProQt/Calculators/strengthcalculator.cpp:49-79 | the result has one record for each planet of the input and no other, holding that planet's six components and total |
| Yoga.MakeYoga | AstroProQt/Calculators/yogacalculator.h:16-18 | a yoga built from a name and a description keeps both and starts inactive with strength 0 |
| Yoga.HouseIndexFrom | AstroProQt/Calculators/yogacalculator.cpp:195-202 | the scan stops at the first of the twelve houses, cyclic over 0°, that holds the longitude |
| Yoga.HousePlacement | AstroProQt/Calculators/yogacalculator.cpp:194-204 | the house is 1..12; that the fallback to house 1 is never taken for cyclically ordered cusps is stated by YogaProperties.CuspsCoverCircle and CuspsPartitionCircle |
| Yoga.GetHousePlacement | AstroProQt/Calculators/yogacalculator.cpp:194-204 | the loop with early return gives that house: the first holding house, or 1 |
| Yoga.RuledSigns | AstroProQt/Calculators/yogacalculator.cpp:218-221 | each 1-based house converts to the 0-based sign `(house − 1) mod 12`, in order |
| Yoga.IsPlanetInOwnSign | AstroProQt/Calculators/yogacalculator.cpp:214-224 | the planet is in its own sign exactly when its sign index is among its converted rulerships |
| Yoga.IsDignifiedInAngle | AstroProQt/Calculators/yogacalculator.cpp:330-335 | the planet is present, in its own sign or within 10° of its exaltation degree (a band that may cross a sign boundary), and in house 1, 4, 7 or 10 |
| Yoga.CheckPanchaMahapurusha | AstroProQt/Calculators/yogacalculator.cpp:323-339 | the loop with early return holds exactly when one of Mars, Mercury, Jupiter, Venus and Saturn is dignified in an angle |
| Yoga.CheckViparitaRaja | AstroProQt/Calculators/yogacalculator.cpp:341-362 | the method finds the last lords of houses 6, 8 and 12 in key order and holds exactly when all three are present and pairwise in kendra |
| Yoga.CollectLords | AstroProQt/Calculators/yogacalculator.cpp:256-268 | the nested loop lists the trine and quadrant lords in map order, once per matching house |
| Yoga.CheckRajaYoga | AstroProQt/Calculators/yogacalculator.cpp:250-285 | the nested search holds exactly when a present trine lord is conjunct within 10° with a different present quadrant lord |
| Yoga.CheckDhanaYoga | AstroProQt/Calculators/yogacalculator.cpp:287-305 | the loop holds exactly when a present benefic (Jupiter, Venus, Mercury, Moon) is placed in house 2, 5, 9 or 11 |
| Yoga.ScaledByAverage | AstroProQt/Calculators/yogacalculator.cpp:12-27 | the loop sums and counts the strengths of the position keys that have one, and scales the base by the mean |
| Yoga.CalculateRajaYogaStrength | AstroProQt/Calculators/yogacalculator.cpp:8-28 | the Raja Yoga strength is that scaling with base 75 |
| Yoga.CalculateDhanaYogaStrength | AstroProQt/Calculators/yogacalculator.cpp:30-50 | the Dhana Yoga strength is that scaling with base 65 |
| Yoga.KindOfName | AstroProQt/Calculators/yogacalculator.cpp:93-158 | a name that selects a rule is that rule's catalog name |
| Yoga.EvaluateYoga | AstroProQt/Calculators/yogacalculator.cpp:90-158 | one catalog entry is tested by its name: the rule's verdict, and the scorer's strength when the rule holds |
| Yoga.DetectAmong | AstroProQt/Calculators/yogacalculator.cpp:89-165 | the loop appends, in order, each entry whose rule holds, marked active and scored |
| Yoga.DetectActiveYogas | AstroProQt/Calculators/yogacalculator.cpp:80-171 | the detector returns that list for the thirteen-entry catalog |
| YogaProperties.EachHouseRuledOnce | AstroProQt/Calculators/yogacalculator.h:91-99 | every house 1..12 has a ruler, and only one |
| YogaProperties.RulershipsAgree | AstroProQt/Calculators/yogacalculator.h:91-99 | the 1-based rulerships minus one are exactly the strength calculator's 0-based sign sets, for every body |
| YogaProperties.OwnSignAgrees | AstroProQt/Calculators/yogacalculator.cpp:214-224 | the yoga own-sign test agrees with the strength calculator's rulership sets |
| YogaProperties.ExaltationTablesAgree | AstroProQt/Calculators/yogacalculator.h:102-110 | the same planets have entries in both exaltation tables, with the same degree; each debilitation is 180° away, `(exaltation + 180) mod 360` |
| YogaProperties.ConjunctionAndAspectSymmetric | AstroProQt/Calculators/yogacalculator.cpp:174-178 | conjunction and aspect do not depend on the order of the two longitudes |
| YogaProperties.InKendraOnCircle | AstroProQt/Calculators/yogacalculator.cpp:243-247 | on the circle, kendra holds exactly when the two sign indices differ by a multiple of 3, and it is symmetric |
| YogaProperties.HousePlacementIsFirstHolder | AstroProQt/Calculators/yogacalculator.cpp:194-204 | the placement is the first house that holds the longitude, or 1 when none does |
| YogaProperties.InHouseOnCircle | AstroProQt/Calculators/yogacalculator.cpp:180-192 | for a longitude and cusps already in [0, 360) the normalisation changes nothing, and membership is the plain interval test, wrapping past 0° when the start is not below the end |
| YogaProperties.EqualCuspsHoldEverything | AstroProQt/Calculators/yogacalculator.cpp:180-192 | a house whose two cusps are equal holds every longitude, through the wrapping branch |
| YogaProperties.CuspsIncreaseBetween | AstroProQt/Calculators/yogacalculator.cpp:194-204 | for twelve cusps in [0, 360) that increase round the circle except at one wrap, the cusps counted on from the wrap increase strictly |
| YogaProperties.OtherHouseBetween | AstroProQt/Calculators/yogacalculator.cpp:180-192 | for such cusps a house other than the wrap house holds exactly the longitudes from its own cusp up to the next |
| YogaProperties.WrapHouseOutside | AstroProQt/Calculators/yogacalculator.cpp:180-192 | for such cusps the wrap house holds exactly the longitudes from its own cusp on or below the cusp after it |
| YogaProperties.HouseHolding | AstroProQt/Calculators/yogacalculator.cpp:194-204 | for such cusps some house holds every longitude in [0, 360) |
| YogaProperties.CuspsCoverCircle | AstroProQt/Calculators/yogacalculator.cpp:194-204 | for such cusps the scan finds a house for every longitude in [0, 360), so the fallback to house 1 (line 203) is never taken, and the placed house holds the longitude |
| YogaProperties.HousesDisjoint | AstroProQt/Calculators/yogacalculator.cpp:194-204 | for such cusps no two different houses hold the same longitude |
| YogaProperties.CuspsPartitionCircle | AstroProQt/Calculators/yogacalculator.cpp:194-204 | for such cusps a house holds the longitude exactly when it is the placed house: the twelve houses partition the circle |
| YogaProperties.LordEntriesMembers | AstroProQt/Calculators/yogacalculator.cpp:260-266 | a planet's entries name it exactly when one of its houses is wanted |
| YogaProperties.HouseLordsMembers | AstroProQt/Calculators/yogacalculator.cpp:259-268 | a body is among the lords exactly when it is a key and rules one of the wanted houses |
| YogaProperties.TrineLordsAre | AstroProQt/Calculators/yogacalculator.cpp:259-263 | the trine lords are Jupiter, Mars and the Sun |
| YogaProperties.QuadrantLordsAre | AstroProQt/Calculators/yogacalculator.cpp:259-266 | the quadrant lords are Mars, the Moon, Saturn and Venus |
| YogaProperties.RajaYogaByPlanets | AstroProQt/Calculators/yogacalculator.cpp:250-285 | Raja Yoga holds exactly when a present trine lord is conjunct with a different present quadrant lord, named as planets |
| YogaProperties.ViparitaRajaByPlanets | AstroProQt/Calculators/yogacalculator.cpp:341-362 | the lords of 6, 8 and 12 are Mercury, Mars and Jupiter, and Viparita Raja holds exactly when all three are present and pairwise in kendra |
| YogaProperties.SharedTotalBounds | AstroProQt/Calculators/yogacalculator.cpp:17-22 | with strengths in [lo, hi], the summed strengths lie between count × lo and count × hi |
| YogaProperties.SharedCountCounts | AstroProQt/Calculators/yogacalculator.cpp:17-22 | over distinct keys, the count is the number of keys present in both maps |
| YogaProperties.SharedCountIsCommonKeys | AstroProQt/Calculators/yogacalculator.cpp:17-22 | the count is the number of bodies with both a position and a strength |
| YogaProperties.MeanScaleBounds | AstroProQt/Calculators/yogacalculator.cpp:24-25 | scaling by a mean between lo and hi gives between base × (1 + lo/100) and base × (1 + hi/100) |
| YogaProperties.AverageScaledBounds | AstroProQt/Calculators/yogacalculator.cpp:8-50 | with no common key the scorer returns the base itself; otherwise the mean strength bounds it as above |
| YogaProperties.PairScaledBounds | AstroProQt/Calculators/yogacalculator.cpp:52-78 | the pair scorer is symmetric, gives 70 when a strength is missing, and otherwise lies between 70 × (1 + lo/100) and 70 × (1 + hi/100) |
| YogaProperties.YogaStrengthRange | AstroProQt/Calculators/yogacalculator.cpp:8-158 | with strengths from the strength calculator (3..35), the strength of every yoga that has a rule lies in [65, 101.25], and every one but Raja Yoga stays at or below 94.5 |
| YogaProperties.MeanScaledWithinHundred | AstroProQt/Calculators/yogacalculator.cpp:24-26 | 75 scaled by the mean strength is at most 100 exactly when three times the total is at most 100 times the count |
| YogaProperties.RajaWithinHundredIff | AstroProQt/Calculators/yogacalculator.cpp:8-28 | the Raja score is at most 100 exactly when no planet is counted or the mean strength of the counted planets is at most 100/3 (both directions) |
| YogaProperties.RajaAtTopStrength | AstroProQt/Calculators/yogacalculator.cpp:8-28 | when every counted planet has strength 35, the Raja score is 101.25 |
| YogaProperties.RajaByPair | AstroProQt/Calculators/yogacalculator.cpp:250-285 | a trine lord conjunct with a different quadrant lord makes a Raja Yoga |
| YogaProperties.RajaReported | AstroProQt/Calculators/yogacalculator.cpp:80-171 | whenever the Raja rule holds, the detector reports Raja Yoga with its Raja score |
| YogaProperties.RajaStrengthAboveHundred | AstroProQt/Calculators/yogacalculator.h:14 | the 0-100 range the header gives a yoga strength is not kept: Jupiter conjunct with the Moon, both at strength 35 (inside the strength calculator's 3..35), is reported as Raja Yoga with strength 101.25 |
| YogaProperties.KindOfNameRoundTrip | AstroProQt/Calculators/yogacalculator.cpp:93-158 | a catalog name selects its own rule, except Chandra-Mangal and Neecha Bhanga, which select none |
| YogaProperties.KindNameInjective | AstroProQt/Calculators/yogacalculator.h:74-88 | two catalog yogas with the same name are the same yoga |
| YogaProperties.OutcomeOfKind | AstroProQt/Calculators/yogacalculator.cpp:90-158 | testing a catalog name gives (strength, true) when that yoga's rule holds and (0, false) otherwise |
| YogaProperties.DetectedSound | AstroProQt/Calculators/yogacalculator.cpp:160-164 | every reported yoga is active and is some definition whose rule holds, with its score |
| YogaProperties.DetectedComplete | AstroProQt/Calculators/yogacalculator.cpp:160-164 | every definition whose rule holds is reported, with its score |
| YogaProperties.DetectedNamesDistinct | AstroProQt/Calculators/yogacalculator.cpp:89-165 | over definitions with distinct names, the output is no longer than the definitions and repeats no name |
| YogaProperties.DetectedIsSubsequence | AstroProQt/Calculators/yogacalculator.cpp:89-165 | the output is a subsequence of the definitions in their order: each entry made active with its score |
| YogaProperties.CatalogEntries | AstroProQt/Calculators/yogacalculator.h:74-88 | the catalog has thirteen entries in the fixed order, each inactive with strength 0 |
| YogaProperties.CatalogPosition | AstroProQt/Calculators/yogacalculator.h:74-88 | every yoga has a place in the catalog order |
| YogaProperties.CatalogPositionAt | AstroProQt/Calculators/yogacalculator.h:74-88 | each place of the catalog order holds a different yoga |
| YogaProperties.CatalogMembers | AstroProQt/Calculators/yogacalculator.h:74-88 | every yoga's entry is in the catalog, and the catalog holds nothing else |
| YogaProperties.CatalogNamesDistinct | AstroProQt/Calculators/yogacalculator.h:74-88 | no two catalog entries share a name |
| YogaProperties.ReportedOfKind | AstroProQt/Calculators/yogacalculator.cpp:89-164 | a reported yoga named after a catalog yoga is that yoga's entry, active with its score, and its rule holds |
| YogaProperties.DetectsExactlyIn | AstroProQt/Calculators/yogacalculator.cpp:89-164 | over catalog entries, a yoga is reported exactly when its rule holds, and then as its own entry with its score |
| YogaProperties.DetectsExactlyTheHoldingRules | AstroProQt/Calculators/yogacalculator.cpp:80-171 | the same for the detector's own catalog |
| YogaProperties.RulelessNeverReported | AstroProQt/Calculators/yogacalculator.h:79-80 | Chandra-Mangal and Neecha Bhanga are never reported |
| YogaProperties.DetectsEachAtMostOnce | AstroProQt/Calculators/yogacalculator.cpp:80-171 | at most thirteen yogas are reported, none twice |
| YogaProperties.FixedStrengths | AstroProQt/Calculators/yogacalculator.cpp:117-158 | a reported Pancha Mahapurusha scores 75, Viparita Raja 80, and Hamsa, Malavya, Shasha, Ruchaka and Bhadra 70 |
| YogaProperties.AbsentPlanetsInactive | AstroProQt/Calculators/yogacalculator.cpp:307-425 | a rule whose planets are missing from the positions does not hold |
| YogaProperties.NothingHoldsOnEmptyChart | AstroProQt/Calculators/yogacalculator.cpp:250-425 | with no positions, no rule holds |
| YogaProperties.EmptyChartReportsNothing | AstroProQt/Calculators/yogacalculator.cpp:80-171 | with no positions, nothing is reported |

## Left out

- YogaProperties.YogaStrengthRange: its upper bound is 101.25, not the 100 that the header's comment on `Yoga::strength` (yogacalculator.h:14) gives. The Raja scorer (yogacalculator.cpp:8-28) goes above 100 whenever the mean strength of the counted planets exceeds 100/3 (RajaWithinHundredIff); RajaStrengthAboveHundred gives a chart the detector reports that way. The model keeps the scorer as written rather than clamping it, since the source does not say which repair is meant.
- Names outside the nine bodies cannot be represented, because planet names are a datatype. So the natural-strength default of 0 for an unknown name (strengthcalculator.cpp:224) is not modelled. Neither is an unknown key in a position map.
- IEEE double rounding is not modelled. Longitudes and proportions are exact reals. The nakshatra literal `13.3333333333` is taken as exactly 40/3, and 365.25 days as exactly 31 557 600 000 ms.
- qint64 overflow of instants and durations is not modelled; instants are unbounded integers.
- Vimshottari.FindStartingPlanet: requires a non-negative Moon longitude. Longitudes reach the calculator normalised to [0, 360), and the truncating casts are modelled for that range. The same requirement carries over to ElapsedMs, DashaStartTime, Timeline and the methods built on them.
- Dasha.GetCurrentDasha: the wall-clock read (dashacalculator.cpp:37) is the `currentTime` parameter.
- The local `dashaPeriods` vector at dashacalculator.cpp:7 hides the member year table only at line 22, where the code as written does not compile (a `DashaPeriod` is multiplied by a `double`). Line 114, in another function, reads the member table. The model uses the header's year table (dashacalculator.h:31) at both places, which is evidently intended.
- The lord order in the comment at dashacalculator.cpp:98 differs from `planetNames`. The model cycles through `planetNames`, as the code does.
- strengthcalculator.cpp uses fields and tables (`positional` … `total`, `rulershipTable`, `exaltationTable`, `aspectTable`, `calculateStrengths`) that strengthcalculator.h does not declare. The model follows the .cpp. The header's other declarations (`calculateAllStrengths`, `calculateShadbala`, `calculateDigBala`, `getExaltationStrength`, …) have no bodies and are not modelled.
- QMap `operator[]` on a missing key inserts a default entry. The lookups that do this (rulerships of a name without an entry, strengths after a `contains` test) are modelled as reads with the empty default, since no caller can see the insertion.
- Strength.CalculatePositionalStrength: requires either no cusps or at least twelve. The scan reads cusp `(i + 1) % 12`, which is outside a shorter non-empty list.
- Yoga.DetectActiveYogas: requires at least twelve cusps. The house placement reads twelve, and a shorter list would index out of bounds. The same applies to GetHousePlacement, CheckDhanaYoga, CheckPanchaMahapurusha and EvaluateYoga.
- The `try`/`catch` and `qDebug` logging in detectActiveYogas (yogacalculator.cpp:87, 166-168) are left out; nothing in the rules throws.
- Dispatch on a yoga's name is modelled as a lookup of the rule by its name, followed by a choice on the rule. The two are equivalent because catalog names are distinct (KindNameInjective, KindOfNameRoundTrip).
- The rule checks of Raja Yoga and Viparita Raja take the cusps in the source but never read them; the model's versions take only the positions.
- The rest of the application is not part of this model: the chart widget, the main window with its geocoding and JSON handling, the application start-up, the placeholder ephemeris and the icon generator. The calculators take longitudes as given inputs.
