/** src/layouts/DashboardLayout.tsx: the critical-alert banner above every
    dashboard page and the collapsible sidebar. */
module DashboardLayout {
  import opened Wrappers
  import opened Types
  import SeqUtil
  import SensorContext

  /** An alert worth the banner: hazardous and not yet acknowledged. */
  predicate IsCritical(a: Alert)
  {
    a.severity == Hazardous && !a.acknowledged
  }

  /** Where `alerts.find(...)` stops: the first critical alert's index. */
  function CriticalIndex(alerts: seq<Alert>): (r: Option<nat>)
    ensures r.Some? ==> r.value < |alerts| && IsCritical(alerts[r.value])
    ensures r.Some? ==> forall k :: 0 <= k < r.value ==> !IsCritical(alerts[k])
    ensures r.None? <==> forall a :: a in alerts ==> !IsCritical(a)
  {
    SeqUtil.FindIndex(IsCritical, alerts)
  }

  /** `criticalAlert`: the first hazardous, unacknowledged alert in list
      order, or none. */
  function CriticalAlert(alerts: seq<Alert>): (r: Option<Alert>)
    ensures r.Some? <==> CriticalIndex(alerts).Some?
    ensures r.Some? ==> r.value == alerts[CriticalIndex(alerts).value]
  {
    match CriticalIndex(alerts)
    case None => None
    case Some(i) => Some(alerts[i])
  }

  function CountCritical(alerts: seq<Alert>): (n: nat)
    ensures n <= |alerts|
    ensures n == 0 <==> CriticalIndex(alerts).None?
  {
    var r := SeqUtil.Filter(IsCritical, alerts);
    assert |r| > 0 ==> r[0] in r;
    |r|
  }

  /** Acknowledging the banner's alert moves the banner on: the next critical
      alert, if any, is a different alert (another id) further down the list
      and was already there, unchanged, before. */
  lemma AcknowledgeCriticalMovesOn(alerts: seq<Alert>)
    requires CriticalIndex(alerts).Some?
    ensures var i := CriticalIndex(alerts).value;
            var after := SensorContext.Acknowledge(alerts, alerts[i].id);
            var j := CriticalIndex(after);
            j.Some? ==> i < j.value && after[j.value].id != alerts[i].id && after[j.value] == alerts[j.value]
  {
  }

  /** ... and every acknowledgement of the banner's alert leaves strictly
      fewer critical alerts, so the banner runs out after finitely many. */
  lemma {:induction false} AcknowledgeCriticalShrinks(alerts: seq<Alert>, id: string)
    requires exists a :: a in alerts && IsCritical(a) && a.id == id
    ensures CountCritical(SensorContext.Acknowledge(alerts, id)) < CountCritical(alerts)
  {
    AcknowledgeNeverAddsCritical(alerts[1..], id);
    var after := SensorContext.Acknowledge(alerts, id);
    assert after[1..] == SensorContext.Acknowledge(alerts[1..], id);
    if IsCritical(alerts[0]) && alerts[0].id == id {
    } else {
      AcknowledgeCriticalShrinks(alerts[1..], id);
    }
  }

  lemma {:induction false} AcknowledgeNeverAddsCritical(alerts: seq<Alert>, id: string)
    ensures CountCritical(SensorContext.Acknowledge(alerts, id)) <= CountCritical(alerts)
  {
    if alerts != [] {
      var after := SensorContext.Acknowledge(alerts, id);
      assert after[1..] == SensorContext.Acknowledge(alerts[1..], id);
      AcknowledgeNeverAddsCritical(alerts[1..], id);
    }
  }

  /** The layout's own state. */
  class Layout {
    var sidebarCollapsed: bool
    var dismissedBanner: bool

    /** Expanded sidebar, banner not dismissed. */
    constructor ()
      ensures !sidebarCollapsed && !dismissedBanner
    {
      sidebarCollapsed, dismissedBanner := false, false;
    }

    /** The sidebar's `onToggle`. The banner state is untouched. */
    method ToggleSidebar()
      modifies this
      ensures sidebarCollapsed == !old(sidebarCollapsed)
      ensures dismissedBanner == old(dismissedBanner)
    {
      sidebarCollapsed := !sidebarCollapsed;
    }

    /** The banner's `onDismiss`: dismissal is one-way, and afterwards no
        alert list brings the banner back. */
    method DismissBanner()
      modifies this
      ensures dismissedBanner
      ensures sidebarCollapsed == old(sidebarCollapsed)
      ensures forall alerts :: !BannerShown(alerts)
    {
      dismissedBanner := true;
    }

    /** `criticalAlert && !dismissedBanner`: the banner is up exactly when
        it was not dismissed and some alert is hazardous and unacknowledged. */
    predicate BannerShown(alerts: seq<Alert>)
      reads this
      ensures BannerShown(alerts) <==>
        !dismissedBanner && exists a :: a in alerts && a.severity == Hazardous && !a.acknowledged
    {
      CriticalAlert(alerts).Some? && !dismissedBanner
    }

    /** The main area's left margin: exactly one of the two, by the sidebar
        state. */
    function MainMargin(): (m: string)
      reads this
      ensures m == "ml-16" || m == "ml-60"
      ensures m == "ml-16" <==> sidebarCollapsed
    {
      if sidebarCollapsed then "ml-16" else "ml-60"
    }
  }
}
