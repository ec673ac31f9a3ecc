/** src/components/MapComponent.tsx: the static map. Markers are placed by
    scaling each coordinate into the bounding box of all drawn coordinates,
    with a 10% margin on every side. */
module MapComponent {
  import opened Wrappers
  import opened Types

  /** An optional marker location (`userLocation`, `industryLocation`). */
  datatype NamedPoint = NamedPoint(latitude: real, longitude: real, name: string)

  /** `normalize(val, min, max)`: 50 for a degenerate range, otherwise the
      affine map sending `min` to 10 and `max` to 90. */
  function Normalize(val: real, min: real, max: real): (r: real)
    ensures max == min ==> r == 50.0
    ensures max != min ==> (r - 10.0) * (max - min) == (val - min) * 80.0
  {
    if max == min then 50.0
    else ((val - min) / (max - min)) * 80.0 + 10.0
  }

  /** The ends of a proper range land on the margins. */
  lemma NormalizeEndpoints(min: real, max: real)
    requires min < max
    ensures Normalize(min, min, max) == 10.0
    ensures Normalize(max, min, max) == 90.0
  {
    assert (max - min) / (max - min) == 1.0;
  }

  /** A fraction of a positive whole lies between 0 and 1. */
  lemma FractionBounds(x: real, d: real)
    requires d > 0.0 && 0.0 <= x <= d
    ensures 0.0 <= x / d <= 1.0
  {
    assert x / d * d == x;
  }

  /** Dividing by a positive number keeps the order. */
  lemma DivideKeepsOrder(x: real, y: real, d: real)
    requires d > 0.0 && x < y
    ensures x / d < y / d
  {
    assert y / d - x / d == (y - x) / d;
  }

  /** A value inside the range lands inside [10, 90]. */
  lemma NormalizeInRange(val: real, min: real, max: real)
    requires min <= val <= max
    ensures 10.0 <= Normalize(val, min, max) <= 90.0
  {
    if min != max {
      FractionBounds(val - min, max - min);
    }
  }

  /** In a proper range, larger values land strictly further along. */
  lemma NormalizeStrictlyIncreasing(v1: real, v2: real, min: real, max: real)
    requires min < max && v1 < v2
    ensures Normalize(v1, min, max) < Normalize(v2, min, max)
  {
    DivideKeepsOrder(v1 - min, v2 - min, max - min);
  }

  /** The vertical position `100 - normalize(lat)`: also in [10, 90], with
      north up, i.e. a larger latitude is drawn higher (smaller `top`). */
  function Top(lat: real, min: real, max: real): (t: real)
    ensures min <= lat <= max ==> 10.0 <= t <= 90.0
  {
    var n := Normalize(lat, min, max);
    assert min <= lat <= max ==> 10.0 <= n <= 90.0 by {
      if min <= lat <= max { NormalizeInRange(lat, min, max); }
    }
    100.0 - n
  }

  lemma TopReversesLatitude(lat1: real, lat2: real, min: real, max: real)
    requires min <= lat1 <= max && min <= lat2 <= max
    ensures 10.0 <= Top(lat1, min, max) <= 90.0
    ensures min < max && lat1 < lat2 ==> Top(lat2, min, max) < Top(lat1, min, max)
  {
    NormalizeInRange(lat1, min, max);
    if min < max && lat1 < lat2 {
      NormalizeStrictlyIncreasing(lat1, lat2, min, max);
    }
  }

  /** JavaScript truthiness of an optional number: present and not 0 (the
      coordinates are never NaN here). */
  predicate Truthy(x: Option<real>)
  {
    x.Some? && x.value != 0.0
  }

  /** `[...].filter(Boolean)`: the present, non-zero coordinates in order. */
  function KeptCoordinates(xs: seq<Option<real>>): (r: seq<real>)
    ensures |r| <= |xs|
    ensures forall v :: v in r <==> Some(v) in xs && v != 0.0
  {
    if xs == [] then []
    else
      var rest := KeptCoordinates(xs[1..]);
      assert forall x :: x in xs <==> x == xs[0] || x in xs[1..];
      if Truthy(xs[0]) then [xs[0].value] + rest else rest
  }

  function SensorLatitudes(sensors: seq<SensorReading>): (r: seq<Option<real>>)
    ensures |r| == |sensors|
    ensures forall i :: 0 <= i < |sensors| ==> r[i] == Some(sensors[i].location.latitude)
  {
    seq(|sensors|, i requires 0 <= i < |sensors| => Some(sensors[i].location.latitude))
  }

  function SensorLongitudes(sensors: seq<SensorReading>): (r: seq<Option<real>>)
    ensures |r| == |sensors|
    ensures forall i :: 0 <= i < |sensors| ==> r[i] == Some(sensors[i].location.longitude)
  {
    seq(|sensors|, i requires 0 <= i < |sensors| => Some(sensors[i].location.longitude))
  }

  function LatitudeOf(p: Option<NamedPoint>): Option<real>
  {
    if p.Some? then Some(p.value.latitude) else None
  }

  function LongitudeOf(p: Option<NamedPoint>): Option<real>
  {
    if p.Some? then Some(p.value.longitude) else None
  }

  /** `allLats`: sensor, user and industry latitudes, zeros and absent ones
      dropped. */
  function AllLats(sensors: seq<SensorReading>, user: Option<NamedPoint>, industry: Option<NamedPoint>): seq<real>
  {
    KeptCoordinates(SensorLatitudes(sensors) + [LatitudeOf(user), LatitudeOf(industry)])
  }

  /** `allLons`, likewise. */
  function AllLons(sensors: seq<SensorReading>, user: Option<NamedPoint>, industry: Option<NamedPoint>): seq<real>
  {
    KeptCoordinates(SensorLongitudes(sensors) + [LongitudeOf(user), LongitudeOf(industry)])
  }

  /** `Math.min(...xs)`; `None` stands for the `Infinity` of an empty list. */
  function MinOf(xs: seq<real>): (m: Option<real>)
    ensures m.None? <==> xs == []
    ensures m.Some? ==> m.value in xs && forall x :: x in xs ==> m.value <= x
  {
    if xs == [] then None
    else match MinOf(xs[1..])
      case None => Some(xs[0])
      case Some(v) =>
        assert forall x :: x in xs ==> x == xs[0] || x in xs[1..];
        Some(if xs[0] <= v then xs[0] else v)
  }

  /** `Math.max(...xs)`; `None` stands for the `-Infinity` of an empty list. */
  function MaxOf(xs: seq<real>): (m: Option<real>)
    ensures m.None? <==> xs == []
    ensures m.Some? ==> m.value in xs && forall x :: x in xs ==> x <= m.value
  {
    if xs == [] then None
    else match MaxOf(xs[1..])
      case None => Some(xs[0])
      case Some(v) =>
        assert forall x :: x in xs ==> x == xs[0] || x in xs[1..];
        Some(if xs[0] >= v then xs[0] else v)
  }

  /** Where a sensor marker is drawn, as percentages `left` and `top`. */
  datatype Placement = Placement(left: real, top: real)

  /** The placement of a point once both bounding intervals exist. */
  function Place(lat: real, lon: real, lats: seq<real>, lons: seq<real>): Option<Placement>
  {
    match (MinOf(lats), MaxOf(lats), MinOf(lons), MaxOf(lons))
    case (Some(minLat), Some(maxLat), Some(minLon), Some(maxLon)) =>
      Some(Placement(Normalize(lon, minLon, maxLon), Top(lat, minLat, maxLat)))
    case _ => None
  }

  /** Every sensor with non-zero coordinates is drawn inside the map's
      [10, 90] square, whatever other markers there are. */
  lemma {:induction false} SensorMarkersInsideMargins(sensors: seq<SensorReading>, user: Option<NamedPoint>,
                                                      industry: Option<NamedPoint>, i: nat)
    requires i < |sensors|
    requires sensors[i].location.latitude != 0.0 && sensors[i].location.longitude != 0.0
    ensures var pl := Place(sensors[i].location.latitude, sensors[i].location.longitude,
                            AllLats(sensors, user, industry), AllLons(sensors, user, industry));
            pl.Some? && 10.0 <= pl.value.left <= 90.0 && 10.0 <= pl.value.top <= 90.0
  {
    var s := sensors[i];
    var latIn := SensorLatitudes(sensors) + [LatitudeOf(user), LatitudeOf(industry)];
    var lonIn := SensorLongitudes(sensors) + [LongitudeOf(user), LongitudeOf(industry)];
    assert latIn[i] == Some(s.location.latitude);
    assert lonIn[i] == Some(s.location.longitude);
    var lats, lons := AllLats(sensors, user, industry), AllLons(sensors, user, industry);
    assert s.location.latitude in lats && s.location.longitude in lons;
    var minLat, maxLat := MinOf(lats).value, MaxOf(lats).value;
    var minLon, maxLon := MinOf(lons).value, MaxOf(lons).value;
    NormalizeInRange(s.location.longitude, minLon, maxLon);
    TopReversesLatitude(s.location.latitude, s.location.latitude, minLat, maxLat);
  }

  /** A coordinate of exactly 0 (the equator, the prime meridian) is not
      part of the bounds. */
  lemma ZeroCoordinateDropped(xs: seq<Option<real>>)
    ensures 0.0 !in KeptCoordinates(xs)
  {
  }
}
