/** Shared vocabulary of the three chart calculators: the nine bodies, the
    order in which a name-keyed map is walked, and the numeric conversions
    of the C++ source (truncating casts, fmod, reflex separation). */
module Chart {

  /** The nine bodies whose longitudes the calculators consume. */
  datatype Planet = Sun | Moon | Mars | Mercury | Jupiter | Venus | Saturn | Rahu | Ketu

  /** An entry of a keyed table that may be missing. */
  datatype Option<T> = None | Some(value: T)

  /** The display name used as the map key and in labels. */
  function Name(p: Planet): string
  {
    match p
    case Sun => "Sun"
    case Moon => "Moon"
    case Mars => "Mars"
    case Mercury => "Mercury"
    case Jupiter => "Jupiter"
    case Venus => "Venus"
    case Saturn => "Saturn"
    case Rahu => "Rahu"
    case Ketu => "Ketu"
  }

  lemma NameInjective(p: Planet, q: Planet)
    ensures Name(p) == Name(q) <==> p == q
  {
  }

  /** A map keyed by planet name is walked in ascending order of the names. */
  const KeyOrder: seq<Planet> := [Jupiter, Ketu, Mars, Mercury, Moon, Rahu, Saturn, Sun, Venus]

  ghost predicate Distinct<T>(s: seq<T>)
  {
    forall i, j :: 0 <= i < j < |s| ==> s[i] != s[j]
  }

  lemma KeyOrderComplete(p: Planet)
    ensures p in KeyOrder
  {
  }

  lemma KeyOrderDistinct()
    ensures Distinct(KeyOrder)
    ensures |KeyOrder| == 9
  {
  }

  /** `static_cast<int>(x)`: truncation toward zero. */
  function Trunc(x: real): int
  {
    if x >= 0.0 then x.Floor else -((-x).Floor)
  }

  lemma TruncBounds(x: real)
    ensures 0.0 <= x ==> 0 <= Trunc(x) && Trunc(x) as real <= x < Trunc(x) as real + 1.0
    ensures x < 0.0 ==> Trunc(x) as real - 1.0 < x <= Trunc(x) as real
  {
  }

  function Abs(x: real): (r: real)
    ensures 0.0 <= r && (r == x || r == -x)
  {
    if x < 0.0 then -x else x
  }

  /** The C library `fmod(a, 360.0)`: the remainder carries the sign of a. */
  function Fmod360(a: real): (r: real)
    ensures 0.0 <= a ==> 0.0 <= r < 360.0
    ensures 0.0 <= a < 360.0 ==> r == a
    ensures a < 0.0 ==> -360.0 < r <= 0.0
  {
    TruncBounds(a / 360.0);
    a - 360.0 * Trunc(a / 360.0) as real
  }

  /** Multiplying both sides by a positive factor keeps their order. */
  lemma MulLess(x: real, y: real, b: real)
    requires 0.0 < b
    ensures x <= y <==> x * b <= y * b
  {
    assert (y - x) * b == y * b - x * b;
  }

  lemma MulStrict(x: real, y: real, b: real)
    requires 0.0 < b
    ensures x < y <==> x * b < y * b
  {
    assert (y - x) * b == y * b - x * b;
  }

  /** Zodiac sign index of a longitude (0 = Aries). */
  function Sign(longitude: real): (s: int)
    ensures 0.0 <= longitude < 360.0 ==> 0 <= s < 12
    ensures 0.0 <= longitude ==> s as real * 30.0 <= longitude < s as real * 30.0 + 30.0
  {
    TruncBounds(longitude / 30.0);
    Trunc(longitude / 30.0)
  }

  /** Separation of two longitudes measured the short way round the circle. */
  function Separation(pos1: real, pos2: real): (d: real)
  {
    var diff := Abs(pos1 - pos2);
    if diff > 180.0 then 360.0 - diff else diff
  }

  lemma SeparationSymmetric(pos1: real, pos2: real)
    ensures Separation(pos1, pos2) == Separation(pos2, pos1)
  {
  }

  /** For longitudes on the circle the separation is the smaller of the two
      arcs between them, and so lies in [0, 180]. */
  lemma SeparationIsShorterArc(pos1: real, pos2: real)
    requires 0.0 <= pos1 < 360.0 && 0.0 <= pos2 < 360.0
    ensures 0.0 <= Separation(pos1, pos2) <= 180.0
    ensures var diff := Abs(pos1 - pos2);
            Separation(pos1, pos2) == if diff <= 360.0 - diff then diff else 360.0 - diff
  {
  }
}
