/** src/components/SensorCard.tsx: the compass label for the wind
    direction. JavaScript's `Math.round` rounds halves up (towards +∞) and
    its `%` takes the sign of the dividend; an index outside the array reads
    `undefined`, which is `None` here. */
module SensorCard {
  import opened Wrappers

  /** `Math.round(x)`. */
  function JsRound(x: real): (n: int)
    ensures n as real <= x + 0.5 < n as real + 1.0
  {
    (x + 0.5).Floor
  }

  /** `a % 8`: truncating, so the result has the sign of `a` (a zero result
      is `-0` for negative `a`, which indexes like 0). */
  function JsRem8(a: int): (r: int)
    ensures -8 < r < 8
    ensures a >= 0 ==> 0 <= r && r == a % 8
    ensures a < 0 ==> r <= 0 && (r == 0 <==> a % 8 == 0)
    ensures (a - r) % 8 == 0
  {
    if a >= 0 then a % 8 else -((-a) % 8)
  }

  const Directions: seq<string> := ["N", "NE", "E", "SE", "S", "SW", "W", "NW"]

  /** `getWindDirectionLabel(degrees)`. */
  function WindDirectionLabel(degrees: real): (r: Option<string>)
    ensures r.None? <==> JsRound(degrees / 45.0) < 0 && JsRound(degrees / 45.0) % 8 != 0
    ensures r.Some? ==> r.value in Directions
    ensures r.Some? ==> r.value == Directions[JsRound(degrees / 45.0) % 8]
  {
    var index := JsRem8(JsRound(degrees / 45.0));
    if 0 <= index then Some(Directions[index]) else None
  }

  /** For degrees ≥ 0 there is always a label: the nearest of the eight
      compass points, counted clockwise from north. */
  lemma NonNegativeAlwaysLabelled(degrees: real)
    requires degrees >= 0.0
    ensures WindDirectionLabel(degrees) == Some(Directions[JsRound(degrees / 45.0) % 8])
  {
  }

  /** Multiples of 45 from 0 to 315 are N, NE, E, SE, S, SW, W, NW. */
  lemma {:induction false} MultiplesOf45(k: nat)
    requires k < 8
    ensures WindDirectionLabel(45.0 * k as real) == Some(Directions[k])
  {
    assert (45.0 * k as real) / 45.0 == k as real;
    assert JsRound(k as real) == k;
  }

  /** A full turn more gives the same label, for degrees ≥ 0. */
  lemma {:induction false} FullTurn(degrees: real)
    requires degrees >= 0.0
    ensures WindDirectionLabel(degrees + 360.0) == WindDirectionLabel(degrees)
  {
    assert (degrees + 360.0) / 45.0 == degrees / 45.0 + 8.0;
    assert JsRound(degrees / 45.0 + 8.0) == JsRound(degrees / 45.0) + 8;
  }

  /** Halves round up: 22.5 is NE and 337.5 is N again. */
  lemma HalvesRoundUp()
    ensures WindDirectionLabel(22.5) == Some("NE")
    ensures WindDirectionLabel(337.5) == Some("N")
    ensures WindDirectionLabel(22.4) == Some("N")
  {
    assert 22.5 / 45.0 == 0.5;
    assert 337.5 / 45.0 == 7.5;
  }

  /** Negative degrees: down to -22.5 the label is still N; just below it
      there is none; but at exactly one turn back (-360) the rounded index is
      -8 and its remainder is -0, so the label is N again. */
  lemma NegativeDegrees()
    ensures WindDirectionLabel(-22.5) == Some("N")
    ensures WindDirectionLabel(-45.0) == None
    ensures WindDirectionLabel(-360.0) == Some("N")
  {
    assert -22.5 / 45.0 == -0.5;
    assert JsRound(-0.5) == 0;
    assert -45.0 / 45.0 == -1.0;
    assert JsRound(-1.0) == -1;
    assert -360.0 / 45.0 == -8.0;
    assert JsRound(-8.0) == -8;
  }
}
