/** src/pages/user/Alerts.tsx: the resident's alert page. Its
    `userInDanger` guard is `UserDashboard.UserInDanger` (the page repeats the
    dashboard's guard and ray cast verbatim); what it adds is a filter that
    also shows unhealthy alerts while the resident is in the danger zone,
    and the read/unread tallies. */
module UserAlertsPage {
  import opened Types
  import SeqUtil
  import UserDashboard

  /** The page's filter condition. */
  predicate Relevant(userInDanger: bool, a: Alert)
  {
    a.severity == Hazardous || a.kind == PredictionAlert || (userInDanger && a.severity == Unhealthy)
  }

  /** `userAlerts`: hazardous alerts, prediction alerts and, in the danger
      zone, unhealthy alerts, in list order. */
  function UserAlerts(alerts: seq<Alert>, userInDanger: bool): (r: seq<Alert>)
    ensures forall a :: a in r <==>
      a in alerts && (a.severity == Hazardous || a.kind == PredictionAlert || (userInDanger && a.severity == Unhealthy))
    ensures SeqUtil.IsSubsequence(r, alerts)
    ensures forall a :: multiset(r)[a] ==
                        if a.severity == Hazardous || a.kind == PredictionAlert || (userInDanger && a.severity == Unhealthy)
                        then multiset(alerts)[a] else 0
  {
    SeqUtil.FilterMultiplicity(a => Relevant(userInDanger, a), alerts);
    SeqUtil.Filter(a => Relevant(userInDanger, a), alerts)
  }

  /** Outside the danger zone the page lists exactly the dashboard's
      `userAlerts`. */
  lemma {:induction false} SafeListIsDashboardList(alerts: seq<Alert>)
    ensures UserAlerts(alerts, false) == UserDashboard.UserAlerts(alerts)
  {
    SeqUtil.FilterCongruent(a => Relevant(false, a), UserDashboard.IsUserAlert, alerts);
  }

  /** Being in danger only adds alerts: the safe list is a subsequence of the
      in-danger list. */
  lemma {:induction false} DangerOnlyAdds(alerts: seq<Alert>)
    ensures SeqUtil.IsSubsequence(UserAlerts(alerts, false), UserAlerts(alerts, true))
    ensures |UserAlerts(alerts, false)| <= |UserAlerts(alerts, true)|
  {
    SeqUtil.FilterWeakerIsSuper(a => Relevant(false, a), a => Relevant(true, a), alerts);
    SeqUtil.SubsequenceNoLonger(UserAlerts(alerts, false), UserAlerts(alerts, true));
  }

  /** Sensor alerts of moderate or safe severity never reach a resident. */
  lemma LowSensorAlertsHidden(alerts: seq<Alert>, userInDanger: bool, a: Alert)
    requires a.kind == SensorAlert && (a.severity == Moderate || a.severity == Safe)
    ensures a !in UserAlerts(alerts, userInDanger)
  {
  }

  /** `unacknowledgedCount`, the "Unread" tile. */
  function UnreadCount(alerts: seq<Alert>, userInDanger: bool): (n: nat)
    ensures n <= |UserAlerts(alerts, userInDanger)|
  {
    |SeqUtil.Filter((a: Alert) => !a.acknowledged, UserAlerts(alerts, userInDanger))|
  }

  /** The "Acknowledged" tile. */
  function AcknowledgedCount(alerts: seq<Alert>, userInDanger: bool): (n: nat)
    ensures n <= |UserAlerts(alerts, userInDanger)|
  {
    |SeqUtil.Filter((a: Alert) => a.acknowledged, UserAlerts(alerts, userInDanger))|
  }

  /** Unread and acknowledged add up to the "Total Alerts" tile. */
  lemma {:induction false} TalliesAddUp(alerts: seq<Alert>, userInDanger: bool)
    ensures UnreadCount(alerts, userInDanger) + AcknowledgedCount(alerts, userInDanger)
         == |UserAlerts(alerts, userInDanger)|
  {
    SeqUtil.FilterSplitCount((a: Alert) => !a.acknowledged, (a: Alert) => a.acknowledged, UserAlerts(alerts, userInDanger));
  }

  /** The safety card's heading. */
  function SafetyHeading(userInDanger: bool): (h: string)
    ensures userInDanger <==> h == "At Risk - Take Precautions"
    ensures !userInDanger <==> h == "You Are Safe"
  {
    if userInDanger then "At Risk - Take Precautions" else "You Are Safe"
  }
}
