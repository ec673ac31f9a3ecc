/** src/pages/industry/Alerts.tsx: the industry's alert centre. A severity
    filter chooses what the list shows; tiles and buttons show counts; the
    list's heading names the filter and its size. */
module IndustryAlerts {
  import opened Wrappers
  import opened Types
  import SeqUtil
  import Text

  /** `'all' | SeverityLevel`. */
  datatype FilterType = All | Only(level: SeverityLevel)

  function OfSeverity(alerts: seq<Alert>, level: SeverityLevel): (r: seq<Alert>)
    ensures forall a :: a in r <==> a in alerts && a.severity == level
    ensures SeqUtil.IsSubsequence(r, alerts)
    ensures forall a :: multiset(r)[a] == if a.severity == level then multiset(alerts)[a] else 0
  {
    SeqUtil.FilterMultiplicity((a: Alert) => a.severity == level, alerts);
    SeqUtil.Filter((a: Alert) => a.severity == level, alerts)
  }

  /** `filteredAlerts`: the whole list for 'all', otherwise exactly the
      alerts of the chosen severity in their original order. */
  function FilteredAlerts(alerts: seq<Alert>, filter: FilterType): (r: seq<Alert>)
    ensures filter.All? ==> r == alerts
    ensures filter.Only? ==> forall a :: a in r <==> a in alerts && a.severity == filter.level
    ensures filter.Only? ==> forall a ::
      multiset(r)[a] == if a.severity == filter.level then multiset(alerts)[a] else 0
    ensures SeqUtil.IsSubsequence(r, alerts)
  {
    SeqUtil.SubsequenceOfSelf(alerts);
    if filter.All? then alerts else OfSeverity(alerts, filter.level)
  }

  /** Filtering the filtered list again by the same filter changes nothing. */
  lemma {:induction false} FilterIdempotent(alerts: seq<Alert>, filter: FilterType)
    ensures FilteredAlerts(FilteredAlerts(alerts, filter), filter) == FilteredAlerts(alerts, filter)
  {
    if filter.Only? {
      SeqUtil.FilterIdempotent((a: Alert) => a.severity == filter.level, alerts);
    }
  }

  /** The per-severity counts on the filter buttons and the "Critical" tile. */
  function SeverityCount(alerts: seq<Alert>, level: SeverityLevel): (n: nat)
    ensures n <= |alerts|
    ensures n == |FilteredAlerts(alerts, Only(level))|
  {
    |OfSeverity(alerts, level)|
  }

  /** The four per-severity counts add up to the "Total Alerts" tile: every
      alert has exactly one severity. */
  lemma {:induction false} SeverityCountsAddUp(alerts: seq<Alert>)
    ensures SeverityCount(alerts, Safe) + SeverityCount(alerts, Moderate)
          + SeverityCount(alerts, Unhealthy) + SeverityCount(alerts, Hazardous) == |alerts|
  {
    if alerts != [] {
      SeverityCountsAddUp(alerts[1..]);
      SeverityCountStep(alerts, Safe);
      SeverityCountStep(alerts, Moderate);
      SeverityCountStep(alerts, Unhealthy);
      SeverityCountStep(alerts, Hazardous);
    }
  }

  /** The head alert adds one to the count of its own severity only. */
  lemma SeverityCountStep(alerts: seq<Alert>, level: SeverityLevel)
    requires alerts != []
    ensures SeverityCount(alerts, level)
         == SeverityCount(alerts[1..], level) + (if alerts[0].severity == level then 1 else 0)
  {
  }

  /** `unacknowledgedCount`: the "Pending" tile and the unread badge. */
  function PendingCount(alerts: seq<Alert>): (n: nat)
    ensures n <= |alerts|
    ensures n == 0 <==> forall a :: a in alerts ==> a.acknowledged
  {
    var pending := SeqUtil.Filter((a: Alert) => !a.acknowledged, alerts);
    assert |pending| > 0 ==> pending[0] in pending;
    |pending|
  }

  /** The "Acknowledged" tile. */
  function AcknowledgedCount(alerts: seq<Alert>): (n: nat)
    ensures n <= |alerts|
  {
    |SeqUtil.Filter((a: Alert) => a.acknowledged, alerts)|
  }

  /** Pending and acknowledged add up to the total. */
  lemma {:induction false} PendingPlusAcknowledged(alerts: seq<Alert>)
    ensures PendingCount(alerts) + AcknowledgedCount(alerts) == |alerts|
  {
    SeqUtil.FilterSplitCount((a: Alert) => !a.acknowledged, (a: Alert) => a.acknowledged, alerts);
  }

  /** The badge `{unacknowledgedCount} unread`, present only while some alert
      is pending. */
  function UnreadBadge(alerts: seq<Alert>): (b: Option<string>)
    ensures b.Some? <==> exists a :: a in alerts && !a.acknowledged
    ensures b.Some? ==> b.value == Text.Decimal(PendingCount(alerts)) + " unread"
  {
    if PendingCount(alerts) > 0 then Some(Text.Decimal(PendingCount(alerts)) + " unread") else None
  }

  /** The labels of the filter buttons. */
  function OptionLabel(filter: FilterType): string
  {
    match filter
    case All => "All"
    case Only(Hazardous) => "Hazardous"
    case Only(Unhealthy) => "Unhealthy"
    case Only(Moderate) => "Moderate"
    case Only(Safe) => "Safe"
  }

  /** The list heading: 'All Alerts', or the severity name with its first
      letter capitalised and ' Alerts' after it. It always repeats the
      selected button's label ('hazardous' becomes 'Hazardous Alerts'):
      capitalising only the first letter of a severity name gives exactly the
      button label. */
  function Heading(filter: FilterType): (h: string)
    ensures h == OptionLabel(filter) + " Alerts"
  {
    match filter
    case All => "All Alerts"
    case Only(level) =>
      match level
      case Hazardous => CapitalisedAs("hazardous", "Hazardous"); Text.UpperFirst(SeverityName(level)) + " Alerts"
      case Unhealthy => CapitalisedAs("unhealthy", "Unhealthy"); Text.UpperFirst(SeverityName(level)) + " Alerts"
      case Moderate => CapitalisedAs("moderate", "Moderate"); Text.UpperFirst(SeverityName(level)) + " Alerts"
      case Safe => CapitalisedAs("safe", "Safe"); Text.UpperFirst(SeverityName(level)) + " Alerts"
  }

  /** `caption` is `name` with its first letter capitalised. */
  lemma CapitalisedAs(name: string, caption: string)
    requires name != [] && 'a' <= name[0] <= 'z'
    requires |caption| == |name| && (caption[0] as int) == (name[0] as int) - 32
    requires caption[1..] == name[1..]
    ensures Text.UpperFirst(name) == caption
  {
    var up := Text.UpperFirst(name);
    assert up[0] == caption[0];
    assert up == [up[0]] + up[1..];
    assert caption == [caption[0]] + caption[1..];
  }

  /** `{n} alert{n !== 1 ? 's' : ''}`. The label reads back as the count,
      and is plural exactly when the count is not 1 (so "0 alerts",
      "1 alert", "2 alerts"). */
  function CountLabel(n: nat): (l: string)
    ensures var k := |Text.Decimal(n)|;
            k < |l| && l[..k] == Text.Decimal(n) && Text.DigitsValue(l[..k]) == n
    ensures l[|l| - 1] == 's' <==> n != 1
    ensures n == 1 ==> l == "1 alert"
  {
    Text.DecimalRoundTrip(n);
    var l := Text.Decimal(n) + " alert" + (if n != 1 then "s" else "");
    assert l[..|Text.Decimal(n)|] == Text.Decimal(n);
    l
  }
}
