# AirGuard dashboard — a Dafny model

AirGuard is a React dashboard for industrial air-quality monitoring. It serves
static mock data. Industry users see sensor readings, alert lists and
history. Residents see whether their home lies inside a predicted gas-spread
polygon. This project models the decision and list-processing logic of the
dashboard and proves what that logic promises. It covers:

- severity classification of gas readings;
- the ray-casting danger-zone test over the GeoJSON prediction ring;
- alert acknowledgement, display order, relative times and the per-role filters;
- the critical-alert banner and the overall-status badge;
- login, logout, the route guard and the ordered checks of the login form;
- the map coordinate normalisation, the wind-direction label and the history window.

Each core source file has its own module. `Types` holds the records of
`src/types/index.ts`. `Wrappers`, `SeqUtil` (filter, find, subsequence) and
`Text` (decimal rendering, first-letter capitalisation) are shared helpers.

Modelling choices:

- JavaScript numbers are `real` for coordinates and readings, and `int`
  milliseconds for timestamps.
- `Date.now()` is a `now` parameter. The mock readings, alerts and prediction
  are stamped once, when `src/api/mockData.ts` is loaded (`SensorStore.loadTime`);
  the history is generated at each fetch, from the fetch time.
- The random draws of the simulation are parameters.
- A string or number used as a condition is truthy when it is non-empty or
  non-zero.
- `%` truncates toward zero (`SensorCard.JsRem8`).
- `Math.round(x)` is `floor(x + 0.5)` (`SensorCard.JsRound`).
- `slice` with a negative start is written out (`History.SliceFrom`).

`checkPointInPolygon` appears three times in the source, as textually identical
copies:

- `src/pages/user/Dashboard.tsx:168-179`;
- `src/pages/user/Alerts.tsx:142-153`;
- `src/pages/user/Map.tsx:115-126`.

It is modelled once, in `PointInPolygon`, and all three pages use that one
definition. The method `CheckPointInPolygon` keeps the loop of the source: `j`
trails `i`, and a flag is toggled per crossing edge. It is proved equal to
`Inside`, the parity of the crossing edges. Positions are `[longitude,
latitude]`, as section 3.1.1 of RFC 7946 prescribes. The ring is the exterior
ring `coordinates[0]` of section 3.1.6.

The alert list is sorted by `AlertList.SortForDisplay`. It copies the alerts into
an array and runs a stable insertion sort in place. It is proved equal to the
functional `DisplayOrder`, and about `DisplayOrder` it is proved that:

- it is a permutation of the input;
- it is in display order;
- it is stable;
- it is the only list with those properties.

So the sort engine's stable `Array.prototype.sort` gives the same list as the
model.

## Model

| member | source | states |
|---|---|---|
| Types.RoleName | src/types/index.ts:1 | a role is exactly 'industry' or 'user' |
| Types.RankIsBijective | src/types/index.ts:3 | severity is a closed set of four ordered levels: rank and level-of-rank are inverse |
| SensorGrid.ThresholdsFor | src/components/SensorGrid.tsx:12-20 | every threshold triple, the default [50, 100, 200] included, is non-negative and strictly increasing; an unknown gas gets the default |
| SensorGrid.GasSeverity | src/components/SensorGrid.tsx:11-26 | each band holds exactly when the value lies in its half-open interval of the gas's thresholds (four iff clauses) |
| SensorGrid.GasSeverityMonotone | src/components/SensorGrid.tsx:22-25 | for a fixed gas the band never decreases as the value grows |
| SensorGrid.Nh3Boundaries | src/components/SensorGrid.tsx:13 | nh3: 24.999 is safe, 25 is moderate, 49.999 is moderate, 50 is unhealthy, 100 is hazardous |
| SensorGrid.ThresholdBelongsToHigherBand | src/components/SensorGrid.tsx:22-25 | a value equal to a threshold falls in the higher band, for every gas |
| SensorGrid.UnknownGasUsesDefault | src/components/SensorGrid.tsx:20 | an unrecognised gas name is classified with the thresholds 50, 100, 200 |
| SensorGrid.EveryBandReachable | src/components/SensorGrid.tsx:13-17 | every band is reached by some value, for every gas |
| SensorGrid.PrimaryCards | src/components/SensorGrid.tsx:30-111 | no readings give no cards; otherwise five cards, one per pollutant of `readings[0]`, each classified by `GasSeverity` |
| SensorGrid.OnlyFirstReadingShown | src/components/SensorGrid.tsx:30 | readings after the first change nothing on display |
| MockData.GetSeverity | src/api/mockData.ts:3-8 | the four PM2.5 bands as iff clauses |
| MockData.GetSeverityMatchesGrid | src/api/mockData.ts:3-8 | `getSeverity(v)` equals the grid's pm25 classification for every v |
| MockData.MockSensorReadings | src/api/mockData.ts:10-131 | five readings, all stamped with the one time the module was loaded |
| MockData.MockSeveritiesArePm25Bands | src/api/mockData.ts:10-131 | each mock sensor's stored severity is `getSeverity` of its pm25; every humidity is in [0, 100] |
| MockData.MockAlerts | src/api/mockData.ts:133-177 | four alerts, all stamped before the module's load time |
| MockData.MockAlertsWellFormed | src/api/mockData.ts:133-177 | ids are distinct, timestamps strictly decrease, and exactly the prediction alert has no sensor id |
| MockData.MockPrediction | src/api/mockData.ts:179-203 | the affected area has one ring, the mock ring |
| MockData.MockRingClosedAndLocal | src/api/mockData.ts:191-198 | the ring has at least four positions, its first equals its last, and every position lies in a small box round Delhi, in [longitude, latitude] order |
| MockData.GenerateHistoricalData | src/api/mockData.ts:205-224 | the loop counting i from 24 down to 0 yields 25 entries, entry k stamped `now - (24 - k)` hours |
| MockData.HistoryIsHourly | src/api/mockData.ts:209-212 | consecutive entries are exactly 3,600,000 ms apart; the last is `now`, the first 24 hours earlier |
| MockData.ApiLogin | src/api/mockData.ts:228-234 | succeeds with the mock token iff username and password are both non-empty; otherwise fails with 'Invalid credentials' |
| MockData.GetUserAlerts | src/api/mockData.ts:256-259 | exactly the mock alerts of type prediction or severity hazardous, as a subsequence, each kept as often as it occurs |
| MockData.UserAlertsAreFirstTwo | src/api/mockData.ts:258 | on the mock data this is the first two alerts |
| MockData.GetIndustryAlerts | src/api/mockData.ts:261-264 | the industry endpoint returns every mock alert, unfiltered and in order |
| PointInPolygon.Prev | src/pages/user/Dashboard.tsx:170 | `j` is the previous vertex index, wrapping to the last one, and always a valid index |
| PointInPolygon.Edges | src/pages/user/Dashboard.tsx:170-172 | the loop visits one edge per vertex, edge i running from vertex i to vertex j |
| PointInPolygon.Crossings | src/pages/user/Dashboard.tsx:174-176 | the number of crossing edges is at most the number of edges |
| PointInPolygon.CheckPointInPolygon | src/pages/user/Dashboard.tsx:168-179 | the loop's flag is true iff an odd number of edges straddle the point's latitude and cross strictly east of it |
| PointInPolygon.IntersectsReversed | src/pages/user/Dashboard.tsx:174-175 | the crossing test of an edge does not depend on which end is i and which is j |
| PointInPolygon.CrossingLongitude | src/pages/user/Dashboard.tsx:175 | the interpolated longitude lies on the line through the edge's two ends |
| PointInPolygon.FewVerticesNeverInside | src/pages/user/Dashboard.tsx:170-176 | a ring of 0, 1 or 2 vertices never contains the point |
| PointInPolygon.OutsideLatitudeRangeNeverInside | src/pages/user/Dashboard.tsx:174 | a point north of or level with every vertex, or south of every vertex, is outside |
| PointInPolygon.CrossingBetweenEnds | src/pages/user/Dashboard.tsx:175 | the crossing longitude of a straddling edge is at most one of the edge's end longitudes; the denominator is non-zero there |
| PointInPolygon.EastOfAllVerticesNeverInside | src/pages/user/Dashboard.tsx:175 | a point on or east of every vertex is outside |
| PointInPolygon.ClosingVertexChangesNothing | src/pages/user/Map.tsx:117-123 | repeating the first vertex at the end, as a closed GeoJSON ring does, gives the same answer |
| PointInPolygon.RotationChangesNothing | src/pages/user/Map.tsx:117 | starting the ring at any other vertex gives the same answer |
| PointInPolygon.SquareExamples | src/pages/user/Dashboard.tsx:168-179 | a 10-by-10 square contains (5,5) and contains neither (15,15) nor (-1,-1) |
| UserDashboard.UserPoint | src/pages/user/Dashboard.tsx:18 | the point checked is [longitude, latitude] of the user's location |
| UserDashboard.UserInDanger | src/pages/user/Dashboard.tsx:16-20 | false without a prediction or a user; a failure when `coordinates[0]` does not exist; otherwise exactly whether the user's point is inside ring 0 |
| UserDashboard.ComputeUserInDanger | src/pages/user/Dashboard.tsx:16-20 | the page's computation, which runs the loop, gives `UserInDanger` |
| UserDashboard.MockPredictionExamples | src/api/mockData.ts:191-198 | against the mock ring, (77.21, 28.605) is in danger and (77.225, 28.618) is not |
| UserDashboard.UserAlerts | src/pages/user/Dashboard.tsx:33-35 | exactly the hazardous or prediction alerts, in their original order, each kept as often as it occurs |
| UserDashboard.SameAsUserAlertsEndpoint | src/pages/user/Dashboard.tsx:33-35 | this filter is the same as the residents' alert endpoint's filter |
| UserDashboard.CriticalAlert | src/pages/user/Dashboard.tsx:36 | the first hazardous unacknowledged alert among the user's alerts is the layout banner's critical alert |
| UserDashboard.SameCriticalAsLayout | src/pages/user/Dashboard.tsx:36 | searching the filtered list finds the same alert as searching the whole list |
| UserDashboard.ActiveAlertCount | src/pages/user/Dashboard.tsx:143 | the active count plus the acknowledged count is the number of user alerts |
| UserDashboard.CountSeverity | src/pages/user/Dashboard.tsx:40-41 | the count is positive iff some reading has that severity |
| UserDashboard.WorstSeverity | src/pages/user/Dashboard.tsx:40-46 | the result is at least every reading's severity, and it is safe or the severity of some reading |
| UserDashboard.GetOverallStatus | src/pages/user/Dashboard.tsx:39-47 | hazardous when in danger, otherwise the worst sensor severity; label and message belong to that level |
| UserDashboard.OverallStatusMonotone | src/pages/user/Dashboard.tsx:39-47 | adding a reading or being in danger never lowers the status |
| UserDashboard.DangerAlert.OnUserInDanger | src/pages/user/Dashboard.tsx:22-26 | the effect only ever switches the danger alert on |
| UserDashboard.DangerAlert.Dismiss | src/pages/user/Dashboard.tsx:75 | Dismiss hides the danger alert |
| UserDashboard.DangerAlert.Visible | src/pages/user/Dashboard.tsx:61 | the alert shows only while the user is in danger |
| UserDashboard.DangerAlert.constructor | src/pages/user/Dashboard.tsx:13 | the danger alert starts hidden |
| UserAlertsPage.UserAlerts | src/pages/user/Alerts.tsx:20-24 | exactly the hazardous, prediction or (in danger) unhealthy alerts, as a subsequence, each kept as often as it occurs |
| UserAlertsPage.SafeListIsDashboardList | src/pages/user/Alerts.tsx:20-24 | out of danger the list is the dashboard's user-alert list |
| UserAlertsPage.DangerOnlyAdds | src/pages/user/Alerts.tsx:20-24 | the list out of danger is a subsequence of the list in danger |
| UserAlertsPage.LowSensorAlertsHidden | src/pages/user/Alerts.tsx:20-24 | sensor alerts of severity moderate or safe never appear |
| UserAlertsPage.TalliesAddUp | src/pages/user/Alerts.tsx:26 | unread plus acknowledged equals the number of listed alerts |
| UserAlertsPage.AcknowledgedCount | src/pages/user/Alerts.tsx:90 | the acknowledged tally is at most the list length |
| UserAlertsPage.UnreadCount | src/pages/user/Alerts.tsx:26 | the unread tally is at most the list length |
| UserAlertsPage.SafetyHeading | src/pages/user/Alerts.tsx:67 | 'At Risk - Take Precautions' iff in danger, 'You Are Safe' iff not |
| UserMap.UserMarker | src/pages/user/Map.tsx:61-65 | a marker exists iff there is a user, at the user's coordinates and named by the address |
| UserMap.Props | src/pages/user/Map.tsx:59-68 | `showUserInDanger` is exactly `userInDanger`; false without a prediction or user; a danger flag comes with a user marker |
| UserMap.StatusNotice | src/pages/user/Map.tsx:31-48 | a notice exists iff there is a user; it is the warning iff the user is in danger |
| AlertList.Compare | src/components/AlertList.tsx:91-95 | negative iff the first alert goes first, positive iff the second does, zero iff both keys agree |
| AlertList.SortForDisplay | src/components/AlertList.tsx:91-95 | sorting the copied array gives `DisplayOrder` of the input; the input sequence is untouched |
| AlertList.InsertAt | src/components/AlertList.tsx:91 | one pass shifts `a[i]` left into place and leaves the rest of the array alone |
| AlertList.DisplayOrderPermutes | src/components/AlertList.tsx:91 | the displayed list is a permutation of the input |
| AlertList.DisplayOrderSorted | src/components/AlertList.tsx:92-94 | the displayed list is in display order and as long as the input |
| AlertList.DisplayGroupsAndRecency | src/components/AlertList.tsx:92-94 | every unacknowledged alert precedes every acknowledged one; within one state timestamps do not increase |
| AlertList.DisplayOrderStable | src/components/AlertList.tsx:91-95 | alerts equal on both keys keep their input order |
| AlertList.SortedStableUnique | src/components/AlertList.tsx:91-95 | two sorted lists that agree key by key are equal |
| AlertList.AnyStableSortIsDisplayOrder | src/components/AlertList.tsx:91-95 | any stable sort by this comparator yields `DisplayOrder` |
| AlertList.ThreeAlertExample | src/components/AlertList.tsx:91-95 | unacknowledged at 10, acknowledged at 20 and unacknowledged at 5 display as 10, 5, 20 |
| AlertList.ListView | src/components/AlertList.tsx:81-95 | 'All Clear' iff there are no alerts; otherwise the display order |
| AlertList.FormatTimestamp | src/components/AlertList.tsx:66-75 | the four buckets as iff clauses; minutes in [1, 59] and hours in [1, 23], each the floor of the difference |
| AlertList.FutureIsJustNow | src/components/AlertList.tsx:71 | a timestamp in the future reads 'Just now' |
| SensorContext.Acknowledge | src/context/SensorContext.tsx:66-70 | same length and order; matching alerts only gain `acknowledged`; others are unchanged |
| SensorContext.AcknowledgeIdempotent | src/context/SensorContext.tsx:67-69 | acknowledging twice equals acknowledging once |
| SensorContext.AcknowledgeMonotone | src/context/SensorContext.tsx:68 | an acknowledged alert stays acknowledged; a matched one becomes so |
| SensorContext.AcknowledgeUnknownId | src/context/SensorContext.tsx:68 | an id no alert has leaves the list unchanged |
| SensorContext.AcknowledgeCommutes | src/context/SensorContext.tsx:66-70 | acknowledging two ids in either order gives the same list |
| SensorContext.ClampHumidity | src/context/SensorContext.tsx:53 | the result is in [0, 100], equal to the sum when that is in range and to the nearer bound otherwise |
| SensorContext.TickReading | src/context/SensorContext.tsx:41-56 | an update keeps identity, location, severity and wind, restamps the reading and keeps humidity in [0, 100] |
| SensorContext.SensorStore.FinishFetch | src/context/SensorContext.tsx:27-33 | the fetch installs the mock readings, alerts and prediction as stamped at load time, a fresh history of 25 hourly points ending at the fetch time, and ends loading |
| SensorContext.SensorStore.AcknowledgeAlert | src/context/SensorContext.tsx:66-70 | the stored alerts become `Acknowledge` of the old ones |
| SensorContext.SensorStore.Tick | src/context/SensorContext.tsx:40-57 | every reading is updated pointwise and every humidity ends in [0, 100] |
| SensorContext.SensorStore.constructor | src/context/SensorContext.tsx:18-22 | the provider starts with empty lists, no prediction and loading on, and records when the mock data was loaded |
| SensorContext.SensorStore.BeginFetch | src/context/SensorContext.tsx:25 | a fetch first switches loading on |
| DashboardLayout.CriticalIndex | src/layouts/DashboardLayout.tsx:14-16 | the index of the first hazardous unacknowledged alert, or none iff there is no such alert |
| DashboardLayout.CriticalAlert | src/layouts/DashboardLayout.tsx:14-16 | the alert at that index |
| DashboardLayout.CountCritical | src/layouts/DashboardLayout.tsx:14-16 | zero iff there is no critical alert |
| DashboardLayout.AcknowledgeCriticalMovesOn | src/layouts/DashboardLayout.tsx:14-16 | after the critical alert is acknowledged, any new one is a different, later, unchanged alert |
| DashboardLayout.AcknowledgeCriticalShrinks | src/layouts/DashboardLayout.tsx:14-16 | acknowledging a critical alert's id lowers the number of critical alerts |
| DashboardLayout.AcknowledgeNeverAddsCritical | src/layouts/DashboardLayout.tsx:14-16 | acknowledging any id never raises that number |
| DashboardLayout.Layout.ToggleSidebar | src/layouts/DashboardLayout.tsx:31 | the toggle flips `sidebarCollapsed` and nothing else |
| DashboardLayout.Layout.DismissBanner | src/layouts/DashboardLayout.tsx:24 | once dismissed, the banner is shown for no alert list |
| DashboardLayout.Layout.BannerShown | src/layouts/DashboardLayout.tsx:20 | the banner is up iff it was not dismissed and some alert is hazardous and unacknowledged |
| DashboardLayout.Layout.MainMargin | src/layouts/DashboardLayout.tsx:37 | 'ml-16' iff collapsed, otherwise 'ml-60' |
| DashboardLayout.Layout.constructor | src/layouts/DashboardLayout.tsx:10-12 | the sidebar starts expanded and the banner not dismissed |
| IndustryAlerts.FilteredAlerts | src/pages/industry/Alerts.tsx:23-25 | 'all' returns the list unchanged; a severity keeps exactly its alerts, in order, each as often as it occurs |
| IndustryAlerts.FilterIdempotent | src/pages/industry/Alerts.tsx:25 | filtering twice by the same choice equals filtering once |
| IndustryAlerts.OfSeverity | src/pages/industry/Alerts.tsx:25 | exactly the alerts of that severity, as a subsequence, each kept as often as it occurs |
| IndustryAlerts.AcknowledgedCount | src/pages/industry/Alerts.tsx:104 | the acknowledged tile is at most the total |
| IndustryAlerts.SeverityCount | src/pages/industry/Alerts.tsx:75 | the button count equals the length of that severity's filtered list |
| IndustryAlerts.SeverityCountsAddUp | src/pages/industry/Alerts.tsx:75 | the four per-severity counts sum to the total |
| IndustryAlerts.PendingCount | src/pages/industry/Alerts.tsx:27 | zero iff every alert is acknowledged |
| IndustryAlerts.PendingPlusAcknowledged | src/pages/industry/Alerts.tsx:104 | pending plus acknowledged equals the total |
| IndustryAlerts.UnreadBadge | src/pages/industry/Alerts.tsx:47 | the badge exists iff some alert is pending, and reads the pending count followed by ' unread' |
| IndustryAlerts.Heading | src/pages/industry/Alerts.tsx:114 | the heading is the selected button's label followed by ' Alerts': only the first letter is capitalised |
| IndustryAlerts.CountLabel | src/pages/industry/Alerts.tsx:117 | the label starts with the count in decimal and ends in 's' iff the count is not 1 |
| History.Hours | src/pages/industry/History.tsx:24-29 | a range is 6, 12, 24 or 168 hours |
| History.HoursOrdered | src/pages/industry/History.tsx:24-29 | the ranges grow in order, and seven days are seven times a day |
| History.SliceFrom | src/pages/industry/History.tsx:31 | `slice(start)` returns a suffix: the last `-start` items for a negative start, everything from `start` otherwise |
| History.FilteredData | src/pages/industry/History.tsx:23-32 | the window is the suffix of length min(hours, data length); empty for empty data |
| History.LongerRangeExtends | src/pages/industry/History.tsx:31 | a longer range's window ends with the shorter range's window |
| History.GeneratedHistoryRanges | src/pages/industry/History.tsx:31 | on the 25 generated entries the windows are the last 6, 12 and 24 entries and all 25 |
| MapComponent.Normalize | src/components/MapComponent.tsx:58-61 | 50 when max equals min; otherwise the point on the 10–90 scale proportional to val |
| MapComponent.NormalizeEndpoints | src/components/MapComponent.tsx:60 | min maps to 10 and max to 90 |
| MapComponent.NormalizeInRange | src/components/MapComponent.tsx:60 | a value between min and max maps into [10, 90] |
| MapComponent.NormalizeStrictlyIncreasing | src/components/MapComponent.tsx:60 | with min < max the map is strictly increasing |
| MapComponent.Top | src/components/MapComponent.tsx:104 | a latitude inside the range is drawn between 10% and 90% from the top |
| MapComponent.TopReversesLatitude | src/components/MapComponent.tsx:104 | `100 - normalize` lies in [10, 90] and reverses latitude order |
| MapComponent.KeptCoordinates | src/components/MapComponent.tsx:41-51 | `filter(Boolean)` keeps exactly the present, non-zero coordinates |
| MapComponent.ZeroCoordinateDropped | src/components/MapComponent.tsx:41-51 | a coordinate of exactly 0 never enters the bounds |
| MapComponent.MinOf | src/components/MapComponent.tsx:53-55 | none iff the list is empty; otherwise a member no larger than any other |
| MapComponent.MaxOf | src/components/MapComponent.tsx:54-56 | none iff the list is empty; otherwise a member no smaller than any other |
| MapComponent.SensorLatitudes | src/components/MapComponent.tsx:42 | one latitude per sensor, in sensor order |
| MapComponent.SensorLongitudes | src/components/MapComponent.tsx:48 | one longitude per sensor, in sensor order |
| MapComponent.SensorMarkersInsideMargins | src/components/MapComponent.tsx:94-104 | a sensor with non-zero coordinates is placed within [10, 90] on both axes |
| SensorCard.JsRound | src/components/SensorCard.tsx:136 | `Math.round` gives the integer n with n ≤ x + 0.5 < n + 1 |
| SensorCard.JsRem8 | src/components/SensorCard.tsx:136 | `% 8` truncates: the remainder has the dividend's sign, is zero iff 8 divides, and differs from the dividend by a multiple of 8 |
| SensorCard.WindDirectionLabel | src/components/SensorCard.tsx:134-138 | no label iff the rounded index is negative and not a multiple of 8; otherwise the direction at the rounded index modulo 8 |
| SensorCard.NonNegativeAlwaysLabelled | src/components/SensorCard.tsx:135-137 | for degrees ≥ 0 the index is `round(d / 45) mod 8` and a label always exists |
| SensorCard.MultiplesOf45 | src/components/SensorCard.tsx:135-136 | 0, 45, …, 315 map to N, NE, E, SE, S, SW, W, NW |
| SensorCard.FullTurn | src/components/SensorCard.tsx:136 | for degrees ≥ 0, d and d + 360 get the same label |
| SensorCard.HalvesRoundUp | src/components/SensorCard.tsx:136 | 22.5 reads NE, 337.5 reads N, 22.4 reads N |
| SensorCard.NegativeDegrees | src/components/SensorCard.tsx:136 | -22.5 reads N, -45 has no label, -360 reads N again |
| AuthContext.MockUserId | src/context/AuthContext.tsx:25 | the id is the role name, '-', then the time in decimal |
| AuthContext.MockUserIdsDistinct | src/context/AuthContext.tsx:25 | different roles or times give different ids |
| AuthContext.AuthState.Login | src/context/AuthContext.tsx:16-34 | succeeds iff username and password are non-empty, then stores exactly that user; otherwise leaves the user unchanged |
| AuthContext.AuthState.Logout | src/context/AuthContext.tsx:36-38 | the user is cleared and nobody is authenticated |
| AuthContext.AuthState.constructor | src/context/AuthContext.tsx:14 | the session starts with no user |
| AuthContext.AuthState.IsAuthenticated | src/context/AuthContext.tsx:41 | authenticated iff a user is held |
| RoleProtectedRoute.DashboardPath | src/components/RoleProtectedRoute.tsx:23 | the redirect target is one of the two dashboards |
| RoleProtectedRoute.Guard | src/components/RoleProtectedRoute.tsx:17-27 | no user goes to /login; an allowed role renders the children; any other role goes to its own dashboard |
| RoleProtectedRoute.RouteRoles | src/App.tsx:43-67 | every guarded path allows exactly one role |
| RoleProtectedRoute.RedirectSettles | src/components/RoleProtectedRoute.tsx:21-25 | a signed-in user's redirect is never /login and its route's guard renders for that user |
| RoleProtectedRoute.RolesSeeOwnPages | src/App.tsx:43-67 | a guarded page renders iff it belongs to the user's role; each role's dashboard belongs to it |
| Login.Validate | src/pages/Login.tsx:28-41 | the checks run in order: role, then credentials, then location; no error iff all three are present |
| Login.ValidatedFormIsAccepted | src/pages/Login.tsx:33-46 | a form that passes validation has credentials the mock login accepts |
| Login.LoginForm.HandleSubmit | src/pages/Login.tsx:24-63 | a failed check sets its message and skips `login`; success navigates to the role's dashboard with no error; false gives 'Invalid credentials' and a throw 'Login failed. Please try again.'; loading ends false |
| Login.LoginForm.constructor | src/pages/Login.tsx:17-22 | the form starts with no role, empty fields, no location, no error and not loading |
| Text.DecimalRoundTrip | src/context/AuthContext.tsx:25 | a number's decimal rendering reads back as that number |
| Text.UpperFirst | src/pages/industry/Alerts.tsx:114 | `charAt(0).toUpperCase() + slice(1)` changes the first character only |

## Left out

- JSX rendering, CSS classes, icons and animations: a React page's markup is
  not logic. The loading skeletons are left out for the same reason.
- Timers: the 800 ms fetch delay, the 5 s update interval and the mock API
  delays. The model takes the state before and after them. `isLoading`
  while a fetch is pending is `SensorStore.BeginFetch`.
- Random values: pollutant and temperature random walks, the random values of
  the generated history, and geocoding. The draws are parameters
  (`SensorContext.TickDraw`, `MockData.Sample`). Only the humidity clamp and
  the timestamps carry properties.
- Date parsing and locale formatting (`toISOString`, `toLocaleDateString`,
  `toLocaleTimeString`): timestamps are integer milliseconds, and the date
  fallback of `formatTimestamp` returns the timestamp.
- IEEE double rounding in the ray cast, the normalisation and the wind label:
  coordinates and readings are exact reals.
- `src/components/LocationInput.tsx` and `api.geocodeAddress`: they are
  asynchronous calls with random coordinates.
- React context and provider plumbing, `toast`, and router wiring other than
  the route groups of `src/App.tsx`. `navigate` is a returned path.
- The statistics panel of the history page: floating-point reductions
  that give NaN and -Infinity on empty data.
- MapComponent.MinOf: `Math.min()` of an empty list is Infinity in the
  source; the model returns none there instead.
- MapComponent.MaxOf: the same for `Math.max()` and -Infinity.
- Login.LoginForm.HandleSubmit: the awaited result of `login` is a parameter
  (`Returned(b)` or `Threw`). `isLoading` being true while the call is
  pending is not observable in the model, which sees only the final state.
- Text.UpperFirst: `toUpperCase` is modelled on ASCII letters only; the
  severity names it is applied to are ASCII.
- SensorCard.WindDirectionLabel: the wind label below -22.5 degrees is not
  always missing. A rounded index that is a negative multiple of 8 gives
  `-0`, which reads 'N' (for example at -360). The model states the exact
  condition rather than a `degrees >= 0` precondition.
- AuthContext.AuthState.Login: `Date.now()` is the `now` parameter.
- Pages that only render (Index, Prediction, industry Dashboard, Navbar,
  Sidebar, AlertPopup, LineChart): they contain no logic beyond what the
  modelled guard and counts cover.
