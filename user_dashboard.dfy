/** src/pages/user/Dashboard.tsx: the resident's dashboard. It decides
    whether the signed-in resident stands inside the predicted spread area,
    which alerts concern residents, which one is critical, and the overall
    air-quality status. The ray cast itself is `PointInPolygon`. */
module UserDashboard {
  import opened Wrappers
  import opened Types
  import SeqUtil
  import PointInPolygon
  import MockData
  import DashboardLayout

  /** `[user.location.longitude, user.location.latitude]`: a GeoJSON
      position, longitude first (RFC 7946, section 3.1.1). */
  function UserPoint(u: User): (p: Position)
    ensures p.longitude == u.location.longitude && p.latitude == u.location.latitude
  {
    Position(u.location.longitude, u.location.latitude)
  }

  /** `userInDanger`. A user record always has a location, so the guard only
      fails for a missing prediction or a missing user; then the answer is
      false. Otherwise the user's point is checked against the exterior ring
      `coordinates[0]` (RFC 7946, section 3.1.6); a polygon with no ring at
      all makes the page throw, which is the `Failure`. */
  function UserInDanger(prediction: Option<PredictionData>, user: Option<User>): (r: Result<bool, string>)
    ensures prediction.None? || user.None? ==> r == Success(false)
    ensures r.Failure? <==> prediction.Some? && user.Some? && prediction.value.affectedArea.geometry.coordinates == []
    ensures r == Success(true) ==>
      prediction.Some? && user.Some? && PointInPolygon.Inside(UserPoint(user.value), prediction.value.affectedArea.geometry.coordinates[0])
    ensures prediction.Some? && user.Some? && prediction.value.affectedArea.geometry.coordinates != [] ==>
      r == Success(PointInPolygon.Inside(UserPoint(user.value), prediction.value.affectedArea.geometry.coordinates[0]))
  {
    if prediction.None? || user.None? then Success(false)
    else
      var rings := prediction.value.affectedArea.geometry.coordinates;
      if rings == [] then Failure("TypeError: cannot read properties of undefined (reading 'length')")
      else Success(PointInPolygon.Inside(UserPoint(user.value), rings[0]))
  }

  /** The page's evaluation of the guard, running the ray-cast loop. */
  method ComputeUserInDanger(prediction: Option<PredictionData>, user: Option<User>) returns (r: Result<bool, string>)
    ensures r == UserInDanger(prediction, user)
  {
    if prediction.None? || user.None? {
      return Success(false);
    }
    var rings := prediction.value.affectedArea.geometry.coordinates;
    if rings == [] {
      return Failure("TypeError: cannot read properties of undefined (reading 'length')");
    }
    var inside := PointInPolygon.CheckPointInPolygon(UserPoint(user.value), rings[0]);
    return Success(inside);
  }

  /** Against the mock prediction: a resident at (77.21, 28.605) is in the
      spread area, one at the Green Zone sensor (77.225, 28.618) is not. */
  lemma MockPredictionExamples(u: User, now: int)
    ensures u.location.longitude == 77.21 && u.location.latitude == 28.605 ==>
      UserInDanger(Some(MockData.MockPrediction(now)), Some(u)) == Success(true)
    ensures u.location.longitude == 77.225 && u.location.latitude == 28.618 ==>
      UserInDanger(Some(MockData.MockPrediction(now)), Some(u)) == Success(false)
  {
    var ring := MockData.MockRing;
    var p := Position(77.21, 28.605);
    var es := PointInPolygon.Edges(ring);
    assert es[..6][..5] == es[..5] && es[..5][..4] == es[..4] && es[..4][..3] == es[..3];
    assert es[..3][..2] == es[..2] && es[..2][..1] == es[..1] && es[..1][..0] == [];
    assert es[0] == PointInPolygon.Edge(ring[0], ring[5]) && es[1] == PointInPolygon.Edge(ring[1], ring[0]);
    assert es[2] == PointInPolygon.Edge(ring[2], ring[1]) && es[3] == PointInPolygon.Edge(ring[3], ring[2]);
    assert es[4] == PointInPolygon.Edge(ring[4], ring[3]) && es[5] == PointInPolygon.Edge(ring[5], ring[4]);
    assert !PointInPolygon.Intersects(p, es[0]) && !PointInPolygon.Intersects(p, es[1]);
    assert PointInPolygon.Intersects(p, es[2]) && !PointInPolygon.Intersects(p, es[3]);
    assert !PointInPolygon.Intersects(p, es[4]);
    assert !PointInPolygon.Intersects(p, es[5]) by {
      // the closing edge meets latitude 28.605 at longitude 77.203125
      assert (77.2050 - 77.2020) * (28.605 - 28.6080) / (28.6000 - 28.6080) + 77.2020 == 77.203125;
    }
    assert PointInPolygon.Crossings(p, es[..1]) == 0;
    assert PointInPolygon.Crossings(p, es[..2]) == 0;
    assert PointInPolygon.Crossings(p, es[..3]) == 1;
    assert PointInPolygon.Crossings(p, es[..4]) == 1;
    assert PointInPolygon.Crossings(p, es[..5]) == 1;
    assert es[..6] == es;
    PointInPolygon.OutsideLatitudeRangeNeverInside(Position(77.225, 28.618), ring);
  }

  /** The alerts a resident sees on the dashboard: hazardous ones and
      prediction alerts. */
  predicate IsUserAlert(a: Alert)
  {
    a.severity == Hazardous || a.kind == PredictionAlert
  }

  /** `userAlerts`, in list order. */
  function UserAlerts(alerts: seq<Alert>): (r: seq<Alert>)
    ensures forall a :: a in r <==> a in alerts && (a.severity == Hazardous || a.kind == PredictionAlert)
    ensures SeqUtil.IsSubsequence(r, alerts)
    ensures forall a :: multiset(r)[a] ==
                        if a.severity == Hazardous || a.kind == PredictionAlert then multiset(alerts)[a] else 0
  {
    SeqUtil.FilterMultiplicity(IsUserAlert, alerts);
    SeqUtil.Filter(IsUserAlert, alerts)
  }

  /** The page's filter and the mock `getUserAlerts` endpoint keep the same
      alerts in the same order, for every alert list. */
  lemma {:induction false} SameAsUserAlertsEndpoint(alerts: seq<Alert>)
    ensures UserAlerts(alerts) == SeqUtil.Filter(MockData.ForResidents, alerts)
  {
    SeqUtil.FilterCongruent(IsUserAlert, MockData.ForResidents, alerts);
  }

  /** `criticalAlert`: the first unacknowledged hazardous alert of
      `userAlerts`. Every such alert is a user alert, so this is the same
      alert the layout's banner picks from the whole list. */
  function CriticalAlert(alerts: seq<Alert>): (r: Option<Alert>)
    ensures r == DashboardLayout.CriticalAlert(alerts)
  {
    SameCriticalAsLayout(alerts);
    SeqUtil.Find((a: Alert) => !a.acknowledged && a.severity == Hazardous, UserAlerts(alerts))
  }

  lemma {:induction false} SameCriticalAsLayout(alerts: seq<Alert>)
    ensures SeqUtil.Find((a: Alert) => !a.acknowledged && a.severity == Hazardous, UserAlerts(alerts))
         == DashboardLayout.CriticalAlert(alerts)
  {
    var p := (a: Alert) => !a.acknowledged && a.severity == Hazardous;
    SeqUtil.FindThroughFilter(p, IsUserAlert, alerts);
    SeqUtil.FindCongruent(p, DashboardLayout.IsCritical, alerts);
  }

  /** The "Active Alerts" tile: unacknowledged alerts among `userAlerts`;
      with the acknowledged ones they make up the whole list. */
  function ActiveAlertCount(alerts: seq<Alert>): (n: nat)
    ensures n + |SeqUtil.Filter((a: Alert) => a.acknowledged, UserAlerts(alerts))| == |UserAlerts(alerts)|
  {
    SeqUtil.FilterSplitCount((a: Alert) => !a.acknowledged, (a: Alert) => a.acknowledged, UserAlerts(alerts));
    |SeqUtil.Filter((a: Alert) => !a.acknowledged, UserAlerts(alerts))|
  }

  /** `sensorReadings.filter(s => s.severity === level).length`. */
  function CountSeverity(readings: seq<SensorReading>, level: SeverityLevel): (n: nat)
    ensures n <= |readings|
    ensures n > 0 <==> exists r :: r in readings && r.severity == level
  {
    var kept := SeqUtil.Filter((r: SensorReading) => r.severity == level, readings);
    assert |kept| > 0 ==> kept[0] in kept;
    |kept|
  }

  /** The worst stored severity among the readings, `Safe` for none: the
      reference the overall status is measured against. */
  function WorstSeverity(readings: seq<SensorReading>): (w: SeverityLevel)
    ensures forall r :: r in readings ==> Rank(r.severity) <= Rank(w)
    ensures w == Safe || exists r :: r in readings && r.severity == w
  {
    if readings == [] then Safe
    else
      var rest := WorstSeverity(readings[1..]);
      assert forall r :: r in readings[1..] ==> r in readings;
      Worse(readings[0].severity, rest)
  }

  /** `getOverallStatus()`'s result. */
  datatype OverallStatus = OverallStatus(status: SeverityLevel, caption: string, message: string)

  function StatusLabel(s: SeverityLevel): string
  {
    match s
    case Hazardous => "Hazardous"
    case Unhealthy => "Unhealthy"
    case Moderate => "Moderate"
    case Safe => "Good"
  }

  function StatusMessage(s: SeverityLevel): string
  {
    match s
    case Hazardous => "Stay indoors and avoid exposure"
    case Unhealthy => "Sensitive groups should limit outdoor activity"
    case Moderate => "Air quality is acceptable"
    case Safe => "Air quality is good for all activities"
  }

  function Status(s: SeverityLevel): OverallStatus
  {
    OverallStatus(s, StatusLabel(s), StatusMessage(s))
  }

  /** `getOverallStatus()`: worst wins. Being in the danger zone counts as
      hazardous; otherwise the status is the worst stored severity of any
      sensor, and 'Good' when every sensor is safe or there are none. */
  function GetOverallStatus(readings: seq<SensorReading>, userInDanger: bool): (o: OverallStatus)
    ensures o.status == (if userInDanger then Hazardous else WorstSeverity(readings))
    ensures o == Status(o.status)
  {
    var hazardous := CountSeverity(readings, Hazardous);
    var unhealthy := CountSeverity(readings, Unhealthy);
    if hazardous > 0 || userInDanger then Status(Hazardous)
    else if unhealthy > 0 then Status(Unhealthy)
    else if exists r :: r in readings && r.severity == Moderate then Status(Moderate)
    else Status(Safe)
  }

  /** The status never improves when a sensor is added or danger appears. */
  lemma OverallStatusMonotone(readings: seq<SensorReading>, extra: SensorReading, userInDanger: bool)
    ensures Rank(GetOverallStatus(readings, userInDanger).status) <= Rank(GetOverallStatus(readings + [extra], userInDanger).status)
    ensures Rank(GetOverallStatus(readings, false).status) <= Rank(GetOverallStatus(readings, true).status)
  {
    var w := WorstSeverity(readings);
    if w != Safe {
      var r :| r in readings && r.severity == w;
      assert r in readings + [extra];
    }
  }

  /** The danger banner's own flag: raised whenever `userInDanger` is true,
      lowered by its Dismiss button. */
  class DangerAlert {
    var showDangerAlert: bool

    constructor ()
      ensures !showDangerAlert
    {
      showDangerAlert := false;
    }

    /** The effect on `[userInDanger]`: raises the flag, never lowers it. */
    method OnUserInDanger(userInDanger: bool)
      modifies this
      ensures showDangerAlert == (old(showDangerAlert) || userInDanger)
    {
      if userInDanger {
        showDangerAlert := true;
      }
    }

    /** The banner's Dismiss button. */
    method Dismiss()
      modifies this
      ensures !showDangerAlert
    {
      showDangerAlert := false;
    }

    /** `userInDanger && showDangerAlert`: the banner never shows outside the
        danger zone. */
    predicate Visible(userInDanger: bool)
      reads this
      ensures Visible(userInDanger) ==> userInDanger
    {
      userInDanger && showDangerAlert
    }
  }
}
