# BinaryBrains drought dashboard, modelled in Dafny

BinaryBrains is a district drought-monitoring dashboard with two parts. A FastAPI
backend computes a Water Stress Index (WSI) for every village from groundwater
levels and rainfall, and enriches it with live weather. It ranks villages by
priority, greedily assigns water tankers to the worst ones, and answers chat and
advisory requests through a language model. A React frontend shows the villages
in grids, maps, metric strips and alert feeds. Its panels search, filter, sort
and paginate, and they track the state of their requests.

This project models the deterministic core of both halves:

- the severity rule: above 70 is critical, above 40 is a warning, otherwise safe. Each client and server copy of the rule is proved equal to one `Severity.Tier`;
- the client query pipeline: search, status filter, stable sort, pagination and page window;
- the client aggregates: tier counts, sums, averages, alerts and badges;
- the request lifecycles of the panels, as classes whose methods are the handlers;
- the backend services: WSI and priority arithmetic, the greedy tanker allocator, the weather cache, the table join, `<think>` stripping, chat prompt assembly and settings validation.

Each source file has its own module, named after the file. Five modules hold
shared pieces:

- `Common`: optional values, results, the JavaScript and Python value rules, and strings;
- `Seqs`: filter, sum, map and subsequence;
- `Sorting`: a stable sort by a numeric key;
- `ClientData` and `ServerData`: the record shapes.

Numbers are Dafny `real`s with no rounding. Absent JavaScript fields are
`Option` values. Calls to the network, the database, the clock and the language
model are parameters of the members that need them.

## Model

| member | source | states |
|---|---|---|
| Severity.TierOf | backend/app/core/constants.py:11-14 | a WSI is critical iff > 70, warning iff 40 < w <= 70, safe iff <= 40; the three tiers partition the reals |
| Severity.ClientTier | frontend/src/utils/colorUtils.js:12-16 | a client rule on a field that may be absent: an absent WSI is safe, a present one gets its tier |
| Severity.StrictTier | frontend/src/components/DashboardStats.jsx:6-8 | three independent comparisons on the raw field: an absent WSI is in no tier, a present one gets its tier |
| Severity.ClientAndStrictTier | frontend/src/components/DashboardStats.jsx:6-8 | the two client rules agree exactly when the WSI is present; an absent WSI is safe under one and in no tier under the other |
| Severity.Rank | backend/app/core/constants.py:11-12 | tiers are ranked critical 2, warning 1, safe 0 |
| Severity.TierMonotone | backend/app/core/constants.py:11-12 | a larger WSI is never in a milder tier |
| Severity.Boundaries | backend/app/core/constants.py:11-12 | 70 is a warning, 40 is safe, anything above 70 is critical |
| ColorUtils.GetWsiColorClass | frontend/src/utils/colorUtils.js:12-16 | "wsi-critical", "wsi-moderate" or "wsi-safe", each exactly when the tier is critical, warning or safe |
| ColorUtils.GetWsiColor | frontend/src/utils/colorUtils.js:23-27 | "#ef4444", "#f59e0b" or "#22c55e", each exactly on its tier |
| ColorUtils.GetWsiLabel | frontend/src/utils/colorUtils.js:34-38 | "Critical", "Moderate" or "Safe", each exactly on its tier |
| ColorUtils.HelpersAgree | frontend/src/utils/colorUtils.js:12-38 | the class, colour and label agree tier for tier, and each helper returns one of exactly three values |
| ColorUtils.HelperBoundaries | frontend/src/utils/colorUtils.js:13-37 | 70 gets the moderate outputs, 40 and an absent WSI get the safe ones |
| ClientData.DetailOr | frontend/src/components/TankerDispatch.jsx:25 | `detail || fallback`: the backend detail if it is non-empty, otherwise the fallback; never empty when the fallback is not |
| ClientData.WsiOrZero | frontend/src/components/VillageGridPanel.jsx:14 | `v.wsi || 0`: the WSI if present, else 0 |
| ClientData.PopulationOrZero | frontend/src/components/OverviewPanel.jsx:12 | `v.population || 0`: the population if present, else 0 |
| ClientData.LitersOrZero | frontend/src/components/OverviewPanel.jsx:19 | `a.allocated_liters || 0`: the litres if present, else 0 |
| ClientData.TestsAreTiers | frontend/src/components/VillageGridPanel.jsx:14-16 | the defaulted tests `(v.wsi || 0) > 70` and the like are exactly the client tiers; an absent WSI is safe |
| ClientData.TiersPartition | frontend/src/components/OverviewPanel.jsx:15-17 | the critical, warning and safe counts sum to the number of villages |
| VillageGridPanel.ComputeCounts | frontend/src/components/VillageGridPanel.jsx:11-19 | the counting loop yields each tier's filter length, the list length as total, and critical + warning + safe == total |
| VillageGridPanel.StatusTest | frontend/src/components/VillageGridPanel.jsx:31-33 | "critical", "warning" and "safe" select the counter's own tests; any other key keeps everything |
| VillageGridPanel.FilteredVillages | frontend/src/components/VillageGridPanel.jsx:22-35 | the search then the status filter never lengthen the list (FilteredIsKeeps and FilteredIsSubseq give the contents) |
| VillageGridPanel.FilteredIsKeeps | frontend/src/components/VillageGridPanel.jsx:22-35 | the search-then-status pipeline equals one filter that keeps a village iff the search matches (or is empty) and its status passes |
| VillageGridPanel.FilteredIsSubseq | frontend/src/components/VillageGridPanel.jsx:22-35 | the filtered list is an order-preserving subsequence of the input |
| VillageGridPanel.EmptySearchKeepsAll | frontend/src/components/VillageGridPanel.jsx:24 | an empty search with filter "all" returns the whole list |
| VillageGridPanel.StatusFilterMatchesCounter | frontend/src/components/VillageGridPanel.jsx:31-33 | with an empty search, each status filter returns exactly the villages its counter counts |
| VillageGridPanel.TotalPages | frontend/src/components/VillageGridPanel.jsx:38 | `max(1, ceil(n/10))`: at least 1, 1 for an empty list, otherwise the least page count that holds n rows |
| VillageGridPanel.PagedVillages | frontend/src/components/VillageGridPanel.jsx:39 | page p holds items (p-1)*10 up to p*10 (clipped to the list) and at most 10 rows |
| VillageGridPanel.PagesUpToPrefix | frontend/src/components/VillageGridPanel.jsx:39 | pages 1..k concatenated are the first min(10k, n) items |
| VillageGridPanel.PagesCoverList | frontend/src/components/VillageGridPanel.jsx:38-39 | pages 1..totalPages concatenated give back the filtered list |
| VillageGridPanel.PageWindow | frontend/src/components/VillageGridPanel.jsx:205-210 | the window has min(totalPages, 5) entries, each chosen by the four-way rule |
| VillageGridPanel.WindowBounded | frontend/src/components/VillageGridPanel.jsx:205-210 | for any current page, even one past the last page, the window's pages are consecutive and lie in [1, totalPages] |
| VillageGridPanel.WindowInRange | frontend/src/components/VillageGridPanel.jsx:205-210 | for a current page in range, the window's pages are consecutive, lie in [1, totalPages] and include the current page |
| VillageGridPanel.GetSeverity | frontend/src/components/VillageGridPanel.jsx:41-45 | CRITICAL, WARNING or SAFE, and the red, yellow or green scheme, exactly on its tier; the pulse is on only for critical |
| VillageGridPanel.FindAllocation | frontend/src/components/VillageGridPanel.jsx:144 | `find`: none iff no allocation has the village id, otherwise the first allocation with it |
| VillageGridPanel.RowOf | frontend/src/components/VillageGridPanel.jsx:144-147 | a row's severity is that of the defaulted WSI; its tankers are the found allocation's, or 0 when none is found |
| VillageGridPanel.RowsOf | frontend/src/components/VillageGridPanel.jsx:143-185 | one row per village of the page, in order |
| VillageGridPanel.TableBody | frontend/src/components/VillageGridPanel.jsx:133-143 | the spinner exactly while loading an empty list; "no match" exactly when, outside that case, the page is empty; otherwise the rows are RowsOf of the page's villages, one per village |
| VillageGridPanel.PanelState.constructor | frontend/src/components/VillageGridPanel.jsx:6-8 | the panel starts with an empty search, page 1 and filter "all" |
| VillageGridPanel.PanelState.SetSearchTerm | frontend/src/components/VillageGridPanel.jsx:96 | typing sets the term and resets the page to 1, with nothing else changed |
| VillageGridPanel.PanelState.SetStatusFilter | frontend/src/components/VillageGridPanel.jsx:108 | choosing a filter sets it and resets the page to 1, with nothing else changed |
| VillageGridPanel.PanelState.SetVillages | frontend/src/components/VillageGridPanel.jsx:5-8 | a new village list leaves page, term and filter as they were, unclamped |
| VillageGridPanel.PanelState.Previous | frontend/src/components/VillageGridPanel.jsx:194 | the page becomes max(1, p-1) and stays within [1, totalPages] when it was |
| VillageGridPanel.PanelState.Next | frontend/src/components/VillageGridPanel.jsx:195 | the page becomes min(totalPages, p+1), which is within [1, totalPages] |
| VillageGridPanel.PanelState.GoToPage | frontend/src/components/VillageGridPanel.jsx:205-214 | clicking a window button, from any current page including one past the last, moves to that page, which lies within [1, totalPages] |
| VillagesPanel.GetStatus | frontend/src/components/VillagesPanel.jsx:56-60 | "critical", "warning" or "safe" exactly on its tier; an undefined WSI is "safe" |
| VillagesPanel.FilteredVillages | frontend/src/components/VillagesPanel.jsx:62-67 | the combined search-and-status filter never lengthens the list (FilteredExactly gives the contents) |
| VillagesPanel.FilteredExactly | frontend/src/components/VillagesPanel.jsx:62-67 | the list keeps exactly the villages whose name or id contains the term, case-insensitively, and whose status passes; order is preserved |
| VillagesPanel.NamelessNeverShown | frontend/src/components/VillagesPanel.jsx:63-64 | a village with neither a name nor an id is never listed, not even for an empty term |
| VillagesPanel.EmptyTermMatchesAnyName | frontend/src/components/VillagesPanel.jsx:63 | an empty term matches every present name |
| VillagesPanel.Panel.constructor | frontend/src/components/VillagesPanel.jsx:24-29 | the drawer starts closed with no selection, insight or error, not loading, language "English" |
| VillagesPanel.Panel.Analyze | frontend/src/components/VillagesPanel.jsx:31-46 | analysing selects the village, opens the drawer, clears insight and error, sets loading and issues a request for (id, language) |
| VillagesPanel.Panel.Resolve | frontend/src/components/VillagesPanel.jsx:38-45 | any pending request that settles writes: success sets the insight, failure sets detail or message or the default; loading ends; no staleness guard |
| VillagesPanel.Panel.SetLanguage | frontend/src/components/VillagesPanel.jsx:49-53 | a language change re-analyses exactly when it differs, a village is selected and the drawer is open; otherwise nothing else changes |
| VillagesPanel.Panel.CloseDrawer | frontend/src/components/VillagesPanel.jsx:123 | closing clears only the drawer flag; selection, insight and in-flight requests are untouched |
| DashboardGrid.Sorted | frontend/src/components/DashboardGrid.jsx:24-28 | for a numeric field the result is a permutation of the input, ordered by the field; the name field is not modelled |
| DashboardGrid.SortedOrder | frontend/src/components/DashboardGrid.jsx:25-27 | ascending gives non-decreasing keys and descending non-increasing keys, absent values read as 0 |
| DashboardGrid.SortedStable | frontend/src/components/DashboardGrid.jsx:24-28 | villages with equal keys keep their relative order |
| DashboardGrid.SortedTwice | frontend/src/components/DashboardGrid.jsx:24-28 | sorting the sorted list again with the same field and direction changes nothing |
| DashboardGrid.Grid.constructor | frontend/src/components/DashboardGrid.jsx:12-13 | the grid starts sorted by priority score, descending |
| DashboardGrid.Grid.HandleSort | frontend/src/components/DashboardGrid.jsx:15-22 | the current field flips the direction; a new field is selected descending |
| OverviewPanel.Average | frontend/src/components/OverviewPanel.jsx:13 | the average is 0 for an empty list, otherwise sum / length |
| OverviewPanel.TotalLitres | frontend/src/components/OverviewPanel.jsx:19 | the sum of allocated litres, 0 when the data or its allocations are absent |
| OverviewPanel.TotalTankers | frontend/src/components/OverviewPanel.jsx:20 | `total_tankers_assigned`, or 0 when absent |
| OverviewPanel.ComputeOverview | frontend/src/components/OverviewPanel.jsx:12-25 | total population, both averages and tier counts as specified; counts sum to the length; villages in need == length - safe; badge "2" iff some village is critical, else "1" |
| OverviewPanel.Render | frontend/src/components/OverviewPanel.jsx:4-10 | a spinner while loading, a crash on an absent list, otherwise the aggregates |
| DashboardStats.StrictTestsAreTiers | frontend/src/components/DashboardStats.jsx:6-8 | the raw comparisons are the strict tiers; an absent WSI passes none |
| DashboardStats.ComputeStats | frontend/src/components/DashboardStats.jsx:5-8 | total is the list length; each count is the length of its strict filter |
| DashboardStats.StatsCountMissing | frontend/src/components/DashboardStats.jsx:5-8 | the counts sum to the total minus the villages with no WSI |
| DashboardStats.StatsDisjoint | frontend/src/components/DashboardStats.jsx:6-8 | the tiers are pairwise disjoint, so the counts never exceed the total |
| DashboardStats.StatsPartitionWhenPresent | frontend/src/components/DashboardStats.jsx:6-8 | when every WSI is present the counts sum to the total |
| DashboardStats.MissingWsiDiffers | frontend/src/components/DashboardStats.jsx:6-8 | a village without WSI is safe for the grid panel but in no tier here |
| CommandMetrics.ComputeMetrics | frontend/src/components/CommandMetrics.jsx:4-26 | the loop counts villages with WSI > 70 and sums their populations (absent = 0); 108 tankers and a -1.1 deficit; the timestamp passes through; an absent list gives 0 and 0 |
| CommandMetrics.BarWidth | frontend/src/components/CommandMetrics.jsx:43 | `min(10 * severe, 100)`: never above 100 |
| CommandMetrics.PopAtRiskNonNegative | frontend/src/components/CommandMetrics.jsx:12-15 | population at risk is not negative when populations are not |
| IncidentFeed.AlertFor | frontend/src/components/IncidentFeed.jsx:7-28 | an alert iff WSI > 70 (crit-id, REROUTE and CONTACT) or 40 < WSI <= 70 (warn-id, no actions) |
| IncidentFeed.VillageAlerts | frontend/src/components/IncidentFeed.jsx:7-28 | at most one alert per village, in input order (AlertCount gives the number) |
| IncidentFeed.Incidents | frontend/src/components/IncidentFeed.jsx:5-37 | an absent list gives no alerts; otherwise the village alerts in input order, then the status alert |
| IncidentFeed.AlertCount | frontend/src/components/IncidentFeed.jsx:7-28 | one alert per critical village and one per warning village |
| IncidentFeed.AlertActions | frontend/src/components/IncidentFeed.jsx:16-25 | critical alerts carry REROUTE (primary) and CONTACT; warning alerts carry none |
| IncidentFeed.AlertIdShape | frontend/src/components/IncidentFeed.jsx:11-20 | every village alert id starts with "crit-" or "warn-" |
| IncidentFeed.AlertIdsAvoid | frontend/src/components/IncidentFeed.jsx:11-20 | past its prefix, an alert id is a village's id, so an id no village has is never produced |
| IncidentFeed.VillageAlertIdsUnique | frontend/src/components/IncidentFeed.jsx:11-20 | village alert ids are unique when village ids are |
| IncidentFeed.AlertIdsUnique | frontend/src/components/IncidentFeed.jsx:11-30 | alert ids, the status alert included, are unique when village ids are |
| DispatchEngine.Filtered | frontend/src/components/DispatchEngine.jsx:6-14 | an empty search returns the list; otherwise the case-insensitive name-or-id filter |
| DispatchEngine.FilteredExactly | frontend/src/components/DispatchEngine.jsx:9-13 | the filter keeps exactly the matching allocations, in order |
| DispatchEngine.ComputeHeader | frontend/src/components/DispatchEngine.jsx:16-36 | total litres over all allocations; the dispatch count is the unfiltered length, never below any filtered length |
| DispatchEngine.PriorityBadge | frontend/src/components/DispatchEngine.jsx:89-93 | URGENT iff index < 3, HIGH iff 3 <= index < 6, NORMAL iff index >= 6 |
| DispatchEngine.DisplayedWsi | frontend/src/components/DispatchEngine.jsx:84 | the village WSI if truthy, else the row WSI if truthy, else 0 |
| DispatchEngine.DisplayedPopulation | frontend/src/components/DispatchEngine.jsx:85 | the village population if truthy, else the row population if truthy, else 0 |
| DispatchEngine.TableBody | frontend/src/components/DispatchEngine.jsx:73-94 | spinner iff loading with nothing filtered, "no dispatches" iff not loading with nothing filtered, otherwise one row per filtered allocation with its index badge |
| VillageGrid.GetBadgeStyle | frontend/src/components/VillageGrid.jsx:6-31 | CRITICAL, WARNING or SAFE, and the red, yellow or green scheme, exactly on its tier; ping only on CRITICAL |
| VillageGrid.Rows | frontend/src/components/VillageGrid.jsx:85-125 | a rendered table has one row per village (RowsSpec gives the rows and the failure case) |
| VillageGrid.RowsSpec | frontend/src/components/VillageGrid.jsx:85-125 | one row per village in order, unfiltered; a village without population makes rendering raise |
| VillageGrid.ShowsEmptyState | frontend/src/components/VillageGrid.jsx:127-133 | the empty-state row is shown iff the list is empty |
| TacticalMap.GetColor | frontend/src/components/TacticalMap.jsx:30-34 | red, amber or green exactly on its tier |
| TacticalMap.GetLabel | frontend/src/components/TacticalMap.jsx:36-40 | Critical, Warning or Safe exactly on its tier |
| TacticalMap.ColorMatchesLabel | frontend/src/components/TacticalMap.jsx:30-40 | colour and label agree tier for tier |
| TacticalMap.Radius | frontend/src/components/TacticalMap.jsx:82 | 12, 9 or 7 exactly on critical, warning or safe |
| TacticalMap.MarkerOf | frontend/src/components/TacticalMap.jsx:72-82 | the marker sits at the village's defaulted coordinates, and radius 12/9/7, colour red/amber/green and caption Critical/Warning/Safe each hold exactly on the tier of `(v.wsi || 0)` |
| TacticalMap.Markers | frontend/src/components/TacticalMap.jsx:71-82 | no more markers than villages; each has non-zero coordinates and the radius, colour and label of its defaulted WSI |
| TacticalMap.MarkersArePositioned | frontend/src/components/TacticalMap.jsx:71-75 | the markers are exactly the positioned villages, in order, each drawn by one rule |
| TacticalMap.UnpositionedNotDrawn | frontend/src/components/TacticalMap.jsx:72-74 | a village lacking a truthy latitude or longitude gets no marker |
| TacticalMap.BoundCoord | frontend/src/components/TacticalMap.jsx:23 | `a || b || fallback` on coordinates |
| TacticalMap.Bounds | frontend/src/components/TacticalMap.jsx:22-24 | bounds exist iff the list is non-empty, one pair per village with 21.15 and 79.08 as fallbacks |
| TacticalMap.LoadingOverlay | frontend/src/components/TacticalMap.jsx:47 | the overlay shows iff loading with an empty list; loading with no list raises |
| MapViewPanel.MockCoordinates | frontend/src/components/MapViewPanel.jsx:13-19 | fixed coordinates exist exactly for V001 to V005 |
| MapViewPanel.CoordsOf | frontend/src/components/MapViewPanel.jsx:77 | the fixed coordinates, or 50% / 50% for any other id |
| MapViewPanel.OnlySeedsPlaced | frontend/src/components/MapViewPanel.jsx:13-19 | a pin leaves the centre iff its id is one of the five seeds |
| MapViewPanel.PinStyle | frontend/src/components/MapViewPanel.jsx:21-25 | the red bouncing, amber or emerald style exactly on its tier |
| MapViewPanel.TailColor | frontend/src/components/MapViewPanel.jsx:88 | the tail colour exactly on its tier |
| MapViewPanel.TooltipColor | frontend/src/components/MapViewPanel.jsx:100 | the tooltip colour exactly on its tier |
| MapViewPanel.PinPartsAgree | frontend/src/components/MapViewPanel.jsx:21-100 | pin, tail and tooltip agree tier for tier; WSI 40 gets the safe pin |
| MapViewPanel.Panel | frontend/src/components/MapViewPanel.jsx:4-10 | spinner iff loading; a crash on an absent list; otherwise one pin per village with its position and style |
| InsightPanel.Panel.constructor | frontend/src/components/InsightPanel.jsx:11-49 | mounting with a village issues one request in "english"; without one, none |
| InsightPanel.Panel.Effect | frontend/src/components/InsightPanel.jsx:17-48 | each run cancels the previous run; with a village it sets loading, clears error and insight and requests (village, lang); without one it requests nothing |
| InsightPanel.Panel.SetVillage | frontend/src/components/InsightPanel.jsx:49 | a changed village re-runs the effect; an unchanged one does nothing |
| InsightPanel.Panel.SetLang | frontend/src/components/InsightPanel.jsx:49 | a changed language re-runs the effect; an unchanged one does nothing |
| InsightPanel.Panel.Unmount | frontend/src/components/InsightPanel.jsx:46-48 | unmounting cancels every run |
| InsightPanel.Panel.Resolve | frontend/src/components/InsightPanel.jsx:26-42 | a cancelled run writes nothing; a run that is not cancelled is the latest one, made for the current (village, lang), and writes the insight, or the detail or default error, and ends loading |
| TankerDispatch.Panel.constructor | frontend/src/components/TankerDispatch.jsx:11-34 | mounting starts one load: no allocation, loading, no error |
| TankerDispatch.Panel.Refresh | frontend/src/components/TankerDispatch.jsx:16-19 | the refresh starts a load iff none is running (the button is disabled while loading); a load sets loading, clears the error and keeps the allocation |
| TankerDispatch.Panel.Resolve | frontend/src/components/TankerDispatch.jsx:20-29 | success replaces the allocation; failure keeps it and sets detail or the default; loading ends |
| TankerDispatch.Panel.ShowsError | frontend/src/components/TankerDispatch.jsx:45 | the error box shows iff there is an error |
| AdminDashboard.Page.constructor | frontend/src/pages/AdminDashboard.jsx:17-20 | no villages, loading, no error, no selection |
| AdminDashboard.Page.Loaded | frontend/src/pages/AdminDashboard.jsx:22-38 | success sets the villages; failure sets detail or the default; loading ends; the selection is kept |
| AdminDashboard.Page.Analyze | frontend/src/pages/AdminDashboard.jsx:40-42 | analysing selects the village and changes nothing else |
| AdminDashboard.Page.CloseInsight | frontend/src/pages/AdminDashboard.jsx:44-46 | closing clears the selection and changes nothing else |
| AdminDashboard.Page.ShowsSections | frontend/src/pages/AdminDashboard.jsx:58 | grid and tanker sections show iff not loading and no error |
| AdminDashboard.Page.ShowsInsight | frontend/src/pages/AdminDashboard.jsx:68 | the insight panel shows iff the sections show and a village is selected |
| WeatherPanel.WeatherIcon | frontend/src/components/WeatherPanel.jsx:35-39 | thunderstorm iff rain > 5, rainy iff 0 < rain <= 5, sunny iff not rain > 0 |
| WeatherPanel.FirstId | frontend/src/components/WeatherPanel.jsx:5 | the first village's id, none for an empty list |
| WeatherPanel.Panel.FetchEffect | frontend/src/components/WeatherPanel.jsx:16-33 | a request is sent iff the selection is truthy; it sets loading and clears the error |
| WeatherPanel.Panel.constructor | frontend/src/components/WeatherPanel.jsx:4-8 | the panel selects the first id and fetches for it when it is truthy |
| WeatherPanel.Panel.SetVillages | frontend/src/components/WeatherPanel.jsx:10-14 | with no selection and a non-empty list the first id is selected; an existing selection is never overwritten |
| WeatherPanel.Panel.Select | frontend/src/components/WeatherPanel.jsx:16-33 | a changed, truthy selection fetches; an unchanged one does not |
| WeatherPanel.Panel.Resolve | frontend/src/components/WeatherPanel.jsx:22-29 | success sets `forecast || []`; failure keeps the forecast and sets the fixed message; loading ends; no staleness guard |
| WeatherPanel.Panel.Show | frontend/src/components/WeatherPanel.jsx:75-105 | spinner iff loading, else the error box iff an error, else "no data" iff the forecast is empty, else the days |
| ChatbotWidget.History | frontend/src/components/ChatbotWidget.jsx:50 | the last min(n, 5) messages followed by the new user message: at most 6, ending with it |
| ChatbotWidget.Widget.constructor | frontend/src/components/ChatbotWidget.jsx:22-27 | the conversation is exactly the greeting; input empty, not loading, closed |
| ChatbotWidget.Widget.SetInput | frontend/src/components/ChatbotWidget.jsx:170 | typing changes only the input |
| ChatbotWidget.Widget.SetOpen | frontend/src/components/ChatbotWidget.jsx:75 | opening or closing changes only the open flag |
| ChatbotWidget.Widget.Send | frontend/src/components/ChatbotWidget.jsx:39-54 | a no-op iff the trimmed input is empty or a request is in flight; otherwise it appends the trimmed user message, clears the input, sets loading and sends the history window |
| ChatbotWidget.Widget.Complete | frontend/src/components/ChatbotWidget.jsx:56-68 | exactly one assistant message is appended, the reply or the fixed error; loading ends |
| Helpers.Clamp | backend/app/utils/helpers.py:37 | within [lo, hi] when lo <= hi; unchanged when already within; lo when lo > hi |
| Helpers.ClampIdempotent | backend/app/utils/helpers.py:37 | clamping twice is clamping once |
| Helpers.ClampMonotone | backend/app/utils/helpers.py:37 | clamping is monotone in the value |
| WsiCalculator.GroundwaterStress | backend/app/services/wsi_calculator.py:38-43 | 0 when the minimum is not positive; otherwise it is non-positive iff the level meets the minimum, and at most 100 for a non-negative level |
| WsiCalculator.RainfallStress | backend/app/services/wsi_calculator.py:46 | never negative, 0 iff the deviation is non-negative, its magnitude otherwise |
| WsiCalculator.ComputeWsi | backend/app/services/wsi_calculator.py:12-51 | the WSI lies in [0, 100] |
| WsiCalculator.NoStressNoWsi | backend/app/services/wsi_calculator.py:38-51 | a village at or above its minimum with no rainfall deficit has WSI 0 |
| WsiCalculator.RainfallOnly | backend/app/services/wsi_calculator.py:38-51 | with a non-positive minimum only rainfall counts: WSI is clamp(0.4 * rainfall stress) |
| WsiCalculator.WsiMonotone | backend/app/services/wsi_calculator.py:38-51 | more groundwater or more rainfall never raises the WSI |
| WsiCalculator.PriorityScore | backend/app/services/wsi_calculator.py:54-71 | non-negative for non-negative inputs, and 0 when either factor is 0 |
| WsiCalculator.PriorityMonotone | backend/app/services/wsi_calculator.py:71 | a higher WSI never lowers the priority |
| WsiCalculator.RainfallDeviation | backend/app/services/wsi_calculator.py:90-94 | in [0, 100]; 0 when expected <= 0 or actual >= expected; 100 when actual = 0; the shortfall percentage in between |
| TankerAllocator.Deficit | backend/app/services/tanker_allocator.py:16-36 | 0 when the level meets the minimum; a division by zero iff the level is below a zero minimum; never negative; positive for a real shortfall; at most 40 litres a head |
| TankerAllocator.Greedy | backend/app/services/tanker_allocator.py:71-96 | the greedy pass gives no more entries than there are queued villages (GreedyServesAllItCan says which villages are served) |
| TankerAllocator.Queue | backend/app/services/tanker_allocator.py:65-66 | the queue is a permutation of the villages above the threshold, in non-increasing priority |
| TankerAllocator.GreedyUsesTankersInOrder | backend/app/services/tanker_allocator.py:71-94 | entry k uses tanker k, so no more entries than tankers; each serves a positive deficit and is allocated exactly min(deficit, capacity) litres |
| TankerAllocator.GreedyServesAllItCan | backend/app/services/tanker_allocator.py:71-96 | with p the queued villages whose deficit is computed and positive, in queue order, entry k is the entry for p[k] with tanker k and there are min(|p|, tankers) entries, so no such village is passed over while tankers remain and each is served at most once; the pass cannot fail when every deficit can be computed |
| TankerAllocator.GreedyBound | backend/app/services/tanker_allocator.py:89-96 | no entry has a priority above every queued village's |
| TankerAllocator.GreedyOrdered | backend/app/services/tanker_allocator.py:71-96 | a queue in non-increasing priority gives entries in non-increasing priority |
| TankerAllocator.GreedyServesQueue | backend/app/services/tanker_allocator.py:76-96 | every entry is the one written for some queued village |
| TankerAllocator.PlanProperties | backend/app/services/tanker_allocator.py:39-103 | only villages above the threshold are served; entries come in non-increasing priority; tankers are used in order, at most one per entry; entry k serves the k-th queued village with a positive deficit, with min(that count, tankers) entries; the plan fails only on a deficit that cannot be computed |
| TankerAllocator.TiesServedInInputOrder | backend/app/services/tanker_allocator.py:65-96 | among the villages offered tankers, those of equal priority come in input order, so with GreedyServesAllItCan the plan lists tied villages in input order |
| TankerAllocator.AllocateTankers | backend/app/services/tanker_allocator.py:65-103 | the pop-and-append loop computes the greedy plan over the sorted queue: entry k serves the k-th queued village with a positive deficit using tanker k, as many as tankers allow, and it fails only on a deficit that cannot be computed |
| RoutesTankers.Enrich | backend/app/api/routes_tankers.py:36-49 | each village keeps its fields and gains the WSI of `compute_wsi` and the priority of `compute_priority_score` |
| RoutesTankers.GetTankerAllocation | backend/app/api/routes_tankers.py:36-62 | the reply is the allocator's plan over one enriched village per row; both totals equal the number of allocations and never exceed the tankers; an allocator error is a 500 |
| RoutesVillages.StatusLabel | backend/app/api/routes_villages.py:35-41 | "Severe Stress", "Moderate Stress" or "Safe" exactly on its tier |
| RoutesVillages.AdjustedDeviation | backend/app/api/routes_villages.py:69-81 | with humidity and rain both positive, min(100, base + 5 * rain), which is <= 100 and >= base when base <= 100; otherwise the base unchanged |
| RoutesVillages.DefaultWeatherKeepsBase | backend/app/api/routes_villages.py:79-81 | the fallback weather leaves the stored deviation unchanged |
| RoutesVillages.RainNeverRaisesWsi | backend/app/api/routes_villages.py:69-87 | the live-weather adjustment never raises a village's WSI, whatever the stored deviation |
| RoutesVillages.Scored | backend/app/api/routes_villages.py:83-100 | a result carries the village, its weather and the adjusted deviation, and the WSI and priority computed from them |
| RoutesVillages.ScoredAll | backend/app/api/routes_villages.py:57-100 | one scored result per village, in fetch order |
| RoutesVillages.GetVillagesStatus | backend/app/api/routes_villages.py:57-103 | one result per village, a permutation of the scored list in non-increasing priority |
| RoutesVillages.StatusTiesKeepOrder | backend/app/api/routes_villages.py:102 | results of equal priority keep fetch order |
| RoutesVillages.VillageInsight | backend/app/api/routes_villages.py:115-148 | 404 "Village not found" for no village; 500 when the capacity is absent; 503 only for text starting "Error:"; a reply echoes the id, name and language |
| RoutesVillages.ArgsFor | backend/app/api/routes_villages.py:119-138 | the engine is asked about the village's name and population, its WSI (in [0, 100]) with that WSI's status label, its deviation, the groundwater drop capacity minus level, no tankers, and the requested language |
| RoutesVillages.InsightAsksAboutVillage | backend/app/api/routes_villages.py:130-148 | for a known village with a capacity, a 503 exactly when the engine's text starts with "Error:", carrying that text, and otherwise a reply whose insight is the engine's text |
| RoutesVillages.VillageForecast | backend/app/api/routes_villages.py:156-170 | a 500 when the forecast service is undefined; 404 for no village; otherwise a reply with the requested id, the name and the forecast |
| WeatherService.ParseWeather | backend/app/services/weather_service.py:124-136 | each missing field reads 0.0, each present one its value |
| WeatherService.MissingHumidityLooksFailed | backend/app/services/weather_service.py:139-145 | the default weather is all zeros, so its humidity of 0 marks a failed fetch |
| WeatherService.Cache.constructor | backend/app/services/weather_service.py:28 | the cache starts empty |
| WeatherService.Cache.GetCached | backend/app/services/weather_service.py:31-37 | data is returned iff an entry exists and now - timestamp < TTL |
| WeatherService.Cache.SetCache | backend/app/services/weather_service.py:40-45 | only the given key is overwritten, stamped with now; other keys are unchanged |
| WeatherService.Cache.FetchWeather | backend/app/services/weather_service.py:52-117 | a hit returns the cached data without a request; a request is made iff the key is truthy; only a 200 is parsed and cached; every failure returns the default uncached |
| Queries.Index | backend/app/database/queries.py:25 | the map's keys are exactly the village ids, each mapped to a row with that id |
| Queries.IndexKeepsLast | backend/app/database/queries.py:25 | with duplicate ids the last row wins |
| Queries.JoinRow | backend/app/database/queries.py:36-46 | the record renames the village id and name and copies the groundwater metrics |
| Queries.Join | backend/app/database/queries.py:31-46 | no more records than groundwater rows |
| Queries.JoinIsFilterThenMerge | backend/app/database/queries.py:31-46 | the join keeps exactly the groundwater rows with a known village, in order, each merged with its village |
| Queries.NothingKnownIsDropped | backend/app/database/queries.py:33-35 | every groundwater row with a known village appears in the result |
| Queries.JoinCarriesGroundwaterId | backend/app/database/queries.py:36-37 | each record carries the id of its own groundwater row |
| Queries.GetAllVillagesWithGroundwater | backend/app/database/queries.py:25-46 | the loop computes the join of the indexed villages with the groundwater rows |
| Queries.Normalise | backend/app/database/queries.py:66-73 | a tanker row becomes {id, capacity, status} |
| Queries.AvailableTankers | backend/app/database/queries.py:58-73 | at most one tanker per row, each available and the normalised form of a row |
| Queries.AvailableInTableOrder | backend/app/database/queries.py:58-73 | one tanker per available row, and the tankers are a subsequence of the renamed table, so table order is kept |
| Queries.AvailableTankersSnoc | backend/app/database/queries.py:58-73 | one more table row adds its tanker at the end exactly when the row is available |
| Queries.EveryAvailableTankerOffered | backend/app/database/queries.py:61-73 | every available row is offered |
| Queries.VillageById | backend/app/database/queries.py:93-115 | none iff no village row; the joined record when a groundwater row exists; zeros for the groundwater fields otherwise |
| TextParser.RemoveThink | backend/app/utils/text_parser.py:16 | never longer than the input; text with no `<think>` is unchanged |
| TextParser.RemoveThinkDeletesOnly | backend/app/utils/text_parser.py:16 | the result is a subsequence of the input: text outside removed blocks keeps its order |
| TextParser.Sanitize | backend/app/utils/text_parser.py:16-21 | no leading or trailing whitespace; tag-free input is merely stripped; never longer than the input |
| TextParser.NoCloseTagUnchanged | backend/app/utils/text_parser.py:16 | text with no closing tag anywhere is unchanged |
| TextParser.DanglingOpenTagKept | backend/app/utils/text_parser.py:16 | when no closing tag follows the first opening tag, the text is unchanged; since RemoveThink resumes after each removed block, a dangling opening tag after earlier blocks stays in place too |
| TextParser.RemovesBlock | backend/app/utils/text_parser.py:16 | the first complete block is cut and the rest is processed on (stated for text before and inside the block without "<") |
| RoutesChat.ContextLine | backend/app/api/routes_chat.py:55-63 | one line per village, starting "- Village: " |
| RoutesChat.Lines | backend/app/api/routes_chat.py:55-63 | the lines of the villages, in order |
| RoutesChat.Context | backend/app/api/routes_chat.py:52-64 | the fixed no-telemetry text iff there are no villages, otherwise the lines |
| RoutesChat.BuildContext | backend/app/api/routes_chat.py:52-64 | the `+=` loop builds the context string |
| RoutesChat.SystemPrompt | backend/app/api/routes_chat.py:28-41 | the template head, then the context in place of `{live_context}`, then the template tail, and nothing else |
| RoutesChat.Speaker | backend/app/api/routes_chat.py:74-76 | "Admin" iff the role is "user", otherwise "SUVIDHA AI" |
| RoutesChat.Transcript | backend/app/api/routes_chat.py:74-76 | one line per message in order, each ending in a newline, so the history text is empty only for an empty history (TranscriptAppend gives the step) |
| RoutesChat.BuildConversation | backend/app/api/routes_chat.py:71-79 | the loop gives the system head, then one line per message in order, then "SUVIDHA AI:" |
| RoutesChat.Answer | backend/app/api/routes_chat.py:82-91 | a 500 with the fixed detail iff the call fails or its text starts "Error:"; otherwise the stripped text |
| RoutesChat.ChatWithAssistant | backend/app/api/routes_chat.py:44-91 | the model is asked with the prompt built from the scored, sorted villages and the transcript; any failure is a 500 |
| Config.JoinComma | backend/app/config.py:28-30 | the names joined with ", ": empty for no names, the name itself for one, and the two separated by ", " for two |
| Config.Settings.constructor | backend/app/config.py:17-18 | the settings hold the two given values |
| Config.Settings.Missing | backend/app/config.py:22-26 | the URL name is listed iff the URL is empty, the key name iff the key is empty; a missing URL is named first, and with both missing the list is URL then key |
| Config.Settings.Validate | backend/app/config.py:20-30 | success iff both values are non-empty; otherwise the prefix and the missing names |
| Config.BothMissingMessage | backend/app/config.py:22-30 | for settings with both values empty, the error text is the prefix followed by "SUPABASE_URL, SUPABASE_KEY" |
| Sorting.SortBy | frontend/src/components/DashboardGrid.jsx:24-28 | the library sort: a permutation of the input, ordered by the key in the chosen direction |
| Sorting.SortByStable | backend/app/services/tanker_allocator.py:66 | the sort is stable: elements with equal keys keep their relative order |
| Sorting.SortByIdempotent | frontend/src/components/DashboardGrid.jsx:24-28 | sorting a sorted list again changes nothing |
| Common.TrimCutsSpaces | backend/app/utils/text_parser.py:17 | `strip()` and `trim()`: the result neither starts nor ends with a space and sits in the input with only spaces around it |
| Common.Lower | frontend/src/components/VillageGridPanel.jsx:25 | `toLowerCase()`, character by character, same length |
| Common.FindFirst | backend/app/utils/text_parser.py:16 | `Find` returns the first index where the pattern occurs, or none iff it occurs nowhere |

## Left out

- Markup, styling, icons, animations, the error boundary and Markdown rendering: these are presentation.
- The network, the database, the weather API, the clock and the language model. Their answers are parameters: database rows, a weather outcome, `now`, and functions standing for the model and the advisory engine. Per-village weather used by the status and chat routes is a sequence of results in cache order.
- Python `.single()` raising on zero rows: a lookup result is an `Option` input.
- The `ai_insight_engine` module is not part of this model; `generate_drought_insight` and `query_ollama` are function parameters.
- weather_service.py defines no `fetch_forecast`. The forecast route's import is modelled as a flag, and the forecast is an opaque value.
- Neither constants.py nor config.py defines `OPENWEATHER_BASE_URL`, `WEATHER_CACHE_TTL_SECONDS` or the API key, so TTL and key are parameters.
- Rounding and number formatting (`round(x, 2)`, `toFixed`, `toLocaleString`, Python float rendering in the chat context). Numbers are exact reals. The chat context takes a rendering function.
- Floating point: NaN, infinities and binary rounding are not modelled.
- JavaScript `null` as a distinct value: an absent field is `None`, read as undefined.
- Lower-casing covers ASCII letters only, not full Unicode case mapping.
- Database NULLs in numeric columns other than `gw_max_capacity` are not modelled.
- `safe_float` is not modelled, because it relies on Python's `float()` parsing.
- DashboardGrid.Sorted: sorting by name is left out, because the comparator subtracts strings and gives NaN, so the order is unspecified.
- VillagesPanel.Panel.Resolve: the source has no staleness guard, so the model keeps none and proves no ordering. The same holds for WeatherPanel.Panel.Resolve.
- TankerDispatch.Panel.Refresh: a second load while one runs is not modelled, because the button is disabled while loading.
- Polling: no component sets a timer. CSV export: the button has no handler.
- The library sort works on a fresh copy in the source. The model sorts sequences as values, so there is no in-place update or aliasing to model.
- The allocator pops from a copied list. That copy is a value here, so "the caller's list is not modified" holds by construction and is not stated.
- TextParser.RemovesBlock: stated only when the text before and inside the block has no "<", which is weaker than the general regular-expression rule. RemoveThink itself follows the leftmost, shortest match rule.
- RoutesChat.SystemPrompt: the prompt template is split at `{live_context}`; Python `str.format` escaping is not modelled.
- VillagesPanel.FilteredVillages takes a list, not an absent one: `villages.filter` on undefined raises and is not modelled.
- InsightPanel.Panel.SetVillage compares villages by value, while React's dependency check uses `Object.is`; the two differ only when two distinct but equal village records are selected one after the other, where React re-runs the effect and the model does not.
- The insight payload is opaque. InsightPanel reads `insight_text`, but the insight route returns `insight`; the model does not reconcile the two.
- TankerAllocator.Deficit: a zero minimum with a negative level divides by zero, and the model returns an error for it. The tanker route turns that error into a 500.
- Logging is not modelled.
