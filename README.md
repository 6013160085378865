# AI Threat Intelligence Dashboard: a Dafny model of its page logic

This project models the logic of the dashboard's pages in Dafny. It leaves out the rendering. The modelled parts are:

- the threat feed: search, type and severity filters, and a live feed that appends a threat every ten seconds;
- incident response: a searchable, status-filtered list, a details panel, status changes, and the MITRE ATT&CK tactic lookup;
- the settings page's API-key registry;
- the threat-hunting scanner: an indicator lookup with a simulated verdict;
- the overview dashboard: alert counts, recent alerts, and a refresh counter;
- the attack map's markers.

Each page keeps React component state that its handlers replace. Each page is therefore a `class`:

- every `useState` becomes a field;
- every handler becomes a method with a `modifies` clause.

The pure parts are functions and lemmas about them:

- the filters;
- `getAIScoreColor`, `getColor` and `getRadius`;
- the key and scan-result builders;
- the tactic lookup.

Modules:

- `Text`: the string operations the pages use. This covers `toLowerCase` on ASCII letters, `includes` (shown equivalent to "occurs at some index"), `trim` with the ECMAScript white-space set, and `String(n)` together with its inverse.
- `Seqs`: `Array.prototype.filter` and `slice(0, n)`, with their laws.
- `Types`: the records of `src/types/index.ts` that the pages use.
- `ThreatFeed`, `IncidentResponse`, `Settings`, `ThreatHunting`, `Dashboard`, `AttackMap`: one module per source file.

Inputs the program reads from the environment are parameters:

- every `Math.random()` draw is a `real` in [0, 1);
- every `new Date()` is an integer instant `now` in milliseconds.

Timers (`setInterval`, `setTimeout`) are explicit method calls.

- `FeedPage.Tick` and `DashboardPage.Tick` are one firing of the interval. The interval is registered only while the page is live.
- `HuntingPage.StartScan` and `HuntingPage.CompleteScan` are the two halves of `handleScan`.

The Scan button is disabled while a scan runs. The Enter key in the input still calls `handleScan`, so several scans can be pending at once (ThreatHunting.tsx:115). The model therefore keeps a queue of pending scans. All the timers have the same delay, so the queue completes in the order the scans started. The first completion clears `isScanning` even while later scans are still pending. The model states this as written.

`ScanResult`'s declared type lists only `'url' | 'hash'` (src/types/index.ts). The page stores `'ip'` as well (ThreatHunting.tsx:7, 21). The model follows the page, so `ScanType` has all three kinds.

Key ids are `String(apiKeys.length + 1)`. They are not unique after a delete: `Settings.DuplicateIdAfterDelete` exhibits two keys with the id "2". Ids in the live threat feed also repeat, because each tick appends the first fixture again. `ThreatFeed.TickAppendsFirstFixture` shows this.

## Model

| member | source | states |
|---|---|---|
| Text.LowerChar | src/pages/ThreatFeed.tsx:19 | an ASCII capital maps to its small letter (code + 32); every other character is unchanged |
| Text.ToLowerProperties | src/pages/ThreatFeed.tsx:19-21 | lower-casing keeps the length, leaves no capital A-Z and is idempotent |
| Text.ContainsIff | src/pages/ThreatFeed.tsx:19-21 | `includes` holds exactly when the pattern occurs at some index of the string |
| Text.ContainsEmpty | src/pages/IncidentResponse.tsx:13-14 | the empty search term is contained in every string |
| Text.TrimStartEmptyIff | src/pages/ThreatHunting.tsx:14 | trimming the front leaves nothing exactly when every character is white space; otherwise the result starts with a non-white-space character |
| Text.TrimEndEmptyIff | src/pages/ThreatHunting.tsx:14 | trimming the end leaves nothing exactly when every character is white space |
| Text.TrimEmptyIff | src/pages/ThreatHunting.tsx:14 | `trim()` gives the empty string exactly when the input is all white space |
| Text.DigitChar | src/pages/Settings.tsx:24 | a digit value below 10 is written as a decimal digit character |
| Text.DigitValue | src/pages/Settings.tsx:24 | a digit character's value is below 10 and is written back as the same character |
| Text.NatToString | src/pages/Settings.tsx:24 | `String(n)` is a non-empty run of digits with a leading '0' exactly for zero |
| Text.ParseNatToString | src/pages/Settings.tsx:24 | reading back the decimal text of `n` gives `n` |
| Text.NatToStringInjective | src/pages/Settings.tsx:24 | distinct numbers get distinct decimal texts, and equal texts mean equal numbers |
| Seqs.Filter | src/pages/ThreatFeed.tsx:18-30 | `filter` is no longer than its input; it keeps exactly the elements of the input satisfying the predicate |
| Seqs.Take | src/pages/ThreatFeed.tsx:40 | `slice(0, n)` has length min(n, length) and agrees with the input index by index |
| Seqs.FilterIsSubsequence | src/pages/ThreatFeed.tsx:18-30 | `filter` keeps the kept elements in their original order |
| Seqs.FilterAllKept | src/pages/ThreatFeed.tsx:17-31 | filtering with a predicate every element satisfies returns the input |
| Seqs.FilterExtensional | src/pages/ThreatFeed.tsx:17-31 | filters by predicates that agree on the input give the same result |
| Seqs.FilterFilter | src/pages/ThreatFeed.tsx:15-31 | filtering twice in a chain is filtering once by the conjunction |
| Seqs.FilterIdempotent | src/pages/Settings.tsx:35 | applying the same filter twice is applying it once |
| Seqs.FilterAppend | src/pages/ThreatFeed.tsx:40 | filtering a concatenation concatenates the filtered parts |
| Seqs.FilterMultiset | src/pages/ThreatFeed.tsx:18-30 | `filter` keeps every copy of each element satisfying the predicate and no copy of the others |
| ThreatFeed.EmptyTermMatchesAll | src/pages/ThreatFeed.tsx:17-23 | an empty search term matches every threat, as the skipped search branch does |
| ThreatFeed.VisibleExactly | src/pages/ThreatFeed.tsx:14-34 | the shown threats are an order-preserving subsequence, no longer than the list, holding exactly the threats that pass all three filters, each as many times as it occurs in the feed |
| ThreatFeed.VisibleMatchesFilters | src/pages/ThreatFeed.tsx:17-31 | every shown threat has the selected type and severity, and its lower-cased title, description or source contains the lower-cased term |
| ThreatFeed.NoFiltersShowAll | src/pages/ThreatFeed.tsx:14-34 | with an empty term and both selects on 'all', every threat is shown |
| ThreatFeed.VisibleAppend | src/pages/ThreatFeed.tsx:36-44 | appending threats appends exactly their visible part to the visible list |
| ThreatFeed.AIScoreColor | src/pages/ThreatFeed.tsx:66-71 | the colour is red exactly for scores of 90 and up, orange for 70-89, yellow for 50-69, blue below 50 |
| ThreatFeed.FeedPage.constructor | src/pages/ThreatFeed.tsx:7-12 | the feed starts on the fixtures, all shown, no search, both selects on 'all', live |
| ThreatFeed.FeedPage.ApplyFilters | src/pages/ThreatFeed.tsx:14-34 | running the three conditional filters in sequence stores exactly the threats passing all three |
| ThreatFeed.FeedPage.SetSearchTerm | src/pages/ThreatFeed.tsx:110 | the search term changes and the shown list is recomputed for it |
| ThreatFeed.FeedPage.SetTypeFilter | src/pages/ThreatFeed.tsx:116 | the type selection changes and the shown list is recomputed for it |
| ThreatFeed.FeedPage.SetSeverityFilter | src/pages/ThreatFeed.tsx:127 | the severity selection changes and the shown list is recomputed for it |
| ThreatFeed.FeedPage.ToggleLive | src/pages/ThreatFeed.tsx:83 | the Pause/Resume button flips the live flag and nothing else |
| ThreatFeed.FeedPage.Tick | src/pages/ThreatFeed.tsx:36-44 | while live, a tick appends the first fixture to the threats and its visible part to the shown list; while paused nothing changes |
| ThreatFeed.TickAppendsFirstFixture | src/pages/ThreatFeed.tsx:36-44 | after one live tick on a fresh page the first fixture is listed twice, so two listed threats share an id, and with no filter set both are shown |
| IncidentResponse.FilteredIncidentsExactly | src/pages/IncidentResponse.tsx:12-17 | the listed incidents are an order-preserving subsequence, holding exactly those whose lower-cased title or id contains the lower-cased term and whose status is selected, each as many times as it occurs in the list |
| IncidentResponse.EmptySearchListsAll | src/pages/IncidentResponse.tsx:12-17 | an empty search with status 'all' lists every incident |
| IncidentResponse.UpdateStatus | src/pages/IncidentResponse.tsx:49-52 | the list keeps its length; incidents with the id get the new status and update time and nothing else changes; other incidents are unchanged |
| IncidentResponse.UpdateStatusTwice | src/pages/IncidentResponse.tsx:49-52 | setting the same status twice equals setting it once at the later instant |
| IncidentResponse.FindTactic | src/pages/IncidentResponse.tsx:183 | `find` returns nothing exactly when no entry has the id, and otherwise the first entry with that id |
| IncidentResponse.ShownTactics | src/pages/IncidentResponse.tsx:182-190 | every tactic card shown comes from the reference table |
| IncidentResponse.ShownTacticsSkipUnknown | src/pages/IncidentResponse.tsx:182-190 | the cards shown carry, in order, exactly the incident's tactic ids that the table knows |
| IncidentResponse.UnknownTacticSkipped | src/utils/mockData.ts:175-188 | an unknown id followed by TA0001 shows only the Initial Access card |
| IncidentResponse.IncidentPage.constructor | src/pages/IncidentResponse.tsx:7-10 | the page starts with the given incidents, nothing selected, no search, status 'all' |
| IncidentResponse.IncidentPage.Select | src/pages/IncidentResponse.tsx:99-102 | clicking a row of the displayed list selects that incident, which is in the list |
| IncidentResponse.IncidentPage.CloseDetails | src/pages/IncidentResponse.tsx:142 | closing the panel clears the selection |
| IncidentResponse.IncidentPage.SetSearchTerm | src/pages/IncidentResponse.tsx:79 | the search term becomes the typed text |
| IncidentResponse.IncidentPage.SetStatusFilter | src/pages/IncidentResponse.tsx:85 | the status filter becomes the selected option |
| IncidentResponse.IncidentPage.UpdateIncidentStatus | src/pages/IncidentResponse.tsx:49-56 | the list is updated by id; the selected incident gets the same status and time when it has the id, otherwise stays; the selection remains an incident of the list |
| Settings.KeySuffix | src/pages/Settings.tsx:26 | `Math.floor(draw * 10000)` is below 10000 and is the floor of the scaled draw |
| Settings.NewKey | src/pages/Settings.tsx:22-29 | the new key has the entered name and the creation instant; its id is exactly `String(count + 1)`; its key is "new_****" followed by `String` of the scaled draw's floor, digits for a number below 10000 |
| Settings.WithoutKeyExactly | src/pages/Settings.tsx:34-36 | deleting keeps every copy of the other keys, in order, and removes every key with the id |
| Settings.WithoutAbsentKey | src/pages/Settings.tsx:34-36 | deleting an id no key has leaves the list unchanged |
| Settings.WithoutKeyTwice | src/pages/Settings.tsx:34-36 | deleting the same id twice is deleting it once |
| Settings.SettingsPage.constructor | src/pages/Settings.tsx:8-12 | the page starts with the two initial keys and an empty form |
| Settings.SettingsPage.EditForm | src/pages/Settings.tsx:159-168 | typing in the form replaces the form's fields |
| Settings.SettingsPage.AddApiKey | src/pages/Settings.tsx:21-32 | with an empty name nothing changes; otherwise exactly one new key is appended and the form is cleared |
| Settings.SettingsPage.DeleteApiKey | src/pages/Settings.tsx:34-36 | the key list becomes the list without the keys with that id |
| Settings.DuplicateIdAfterDelete | src/pages/Settings.tsx:21-36 | deleting key "1" and adding a key leaves two keys, both with id "2" |
| ThreatHunting.Confidence | src/pages/ThreatHunting.tsx:25 | `Math.floor(draw * 40) + 60` lies in 60..99 and is the floor of the scaled draw plus 60 |
| ThreatHunting.ScanOutcome | src/pages/ThreatHunting.tsx:19-27 | the result carries the scan's type and value and the completion instant; it is never 'suspicious'; it is malicious exactly when the draw exceeds 0.5; the threat type is Trojan exactly when its draw exceeds 0.5; the confidence is 60..99 |
| ThreatHunting.ScanButtonEnabledIff | src/pages/ThreatHunting.tsx:126 | the Scan button is enabled exactly when no scan runs and the input has a non-white-space character |
| ThreatHunting.HuntingPage.constructor | src/pages/ThreatHunting.tsx:7-11 | the page starts on IP lookups with an empty input, no results and no scan running |
| ThreatHunting.HuntingPage.SetSearchType | src/pages/ThreatHunting.tsx:71-93 | the type buttons set the lookup type |
| ThreatHunting.HuntingPage.SetSearchValue | src/pages/ThreatHunting.tsx:114 | the input sets the value |
| ThreatHunting.HuntingPage.StartScan | src/pages/ThreatHunting.tsx:13-17 | a scan starts exactly when the input has a non-white-space character; it raises the scanning flag and schedules a completion for the current type and the untrimmed value; otherwise nothing changes |
| ThreatHunting.HuntingPage.CompleteScan | src/pages/ThreatHunting.tsx:19-31 | the oldest pending scan's verdict is put in front of the history, that scan is no longer pending, and the scanning flag drops |
| ThreatHunting.ScanOnce | src/pages/ThreatHunting.tsx:13-31 | one scan from start to completion adds exactly one result, for the typed value and type, in front of the earlier results, and leaves no scan running |
| Dashboard.CountOf | src/pages/Dashboard.tsx:30-31 | a count of alerts with a severity never exceeds the number of alerts |
| Dashboard.SeverityCountIsCount | src/pages/Dashboard.tsx:30-31 | the filter-and-length count equals the one-by-one count |
| Dashboard.SeverityCountsPartition | src/pages/Dashboard.tsx:30-31 | the counts for the four severities add up to the number of alerts |
| Dashboard.CriticalAndHighBounded | src/pages/Dashboard.tsx:30-31 | critical plus high alerts never exceed the number of alerts |
| Dashboard.RecentAlerts | src/pages/Dashboard.tsx:182 | the recent list is the first min(5, n) alerts, in order |
| Dashboard.MockAlertFigures | src/utils/mockData.ts:120-148 | on the fixture alerts the page counts one critical and one high alert and lists all three as recent |
| Dashboard.DashboardPage.constructor | src/pages/Dashboard.tsx:16-17 | the counter starts at 0 and the page is live |
| Dashboard.DashboardPage.Tick | src/pages/Dashboard.tsx:19-26 | while live, one interval firing adds one to the counter; while paused the counter is unchanged |
| Dashboard.DashboardPage.ToggleLive | src/pages/Dashboard.tsx:44 | the Pause/Resume button flips the live flag |
| Dashboard.TickWhilePaused | src/pages/Dashboard.tsx:19-26 | pausing, ticking and resuming leaves the page live with the counter unchanged |
| AttackMap.ColorsDistinct | src/components/AttackMap.tsx:19-27 | the four severities get four distinct colours; any other name gets the low colour |
| AttackMap.Radius | src/components/AttackMap.tsx:29-31 | the radius is at most 30, at most twice the count, and is one of the two |
| AttackMap.RadiusBelowCap | src/components/AttackMap.tsx:30 | up to a count of 15 the radius is twice the count |
| AttackMap.RadiusMonotone | src/components/AttackMap.tsx:30 | a larger count never gives a smaller radius |
| AttackMap.Markers | src/components/AttackMap.tsx:45-64 | one marker per location, in order, with the location's id and position, the radius `getRadius(count)` (at most 30) and the severity's colour |

## Left out

- Rendering, styling and icons are left out: the JSX, the Tailwind classes, and the class-name and icon lookups `getTypeIcon`, `getSeverityColor`, `getStatusIcon`, `getStatusColor` and `getReputationColor`. They choose presentation only. `getAIScoreColor` and the map's `getColor` are modelled.
- The charts, the Leaflet map widget, the tile layer and the popups are left out. Markers are modelled as values.
- Timer scheduling and cleanup (`setInterval`, `setTimeout`, `clearInterval`) are not modelled. Each firing is an explicit method call. Wall-clock delays are not modelled.
- Dates are integer instants in milliseconds. Date formatting and `toLocaleString` are left out.
- `Text.ToLower` folds ASCII letters only. JavaScript's `toLowerCase` also folds other Unicode letters.
- `ThreatFeed.AIScoreColor` takes an integer score. JavaScript numbers are floating point, and fractional scores are not modelled.
- `Settings.KeySuffix` and `ThreatHunting.Confidence` scale the draw by an exact real product, not by a double product. In JavaScript, rounding the product can lift it onto the next integer, so the floor can be one higher than the model's. For example, draw 0.0036999999999999997 gives suffix 37 instead of 36, and draw 0.22499999999999998 gives confidence 69 instead of 68. The proved ranges (below 10000, and 60..99) still hold for every double draw below 1.
- `AttackMap.Radius` takes an integer count. `AttackLocation.count` is a JavaScript number, and fractional counts are not modelled.
- `IncidentResponse.IncidentPage.UpdateIncidentStatus` uses one instant `now` for both `new Date()` calls. In the program the two dates may differ by a few milliseconds. Its `Valid()` (the selected incident is an element of the list) therefore holds after a status change only in the model. In the program the selected copy may differ from its list entry in `updatedAt`.
- The filter selects are modelled as `Selection` values (all, or one enum value). In the program they are free strings that the `<select>` options constrain.
- The IP-reputation list of the threat-hunting page is left out, because it is displayed but never changed.
- The settings page's profile, notification and security tabs and the active-tab state are left out, because they hold no logic beyond displaying inputs.
- The description field of the key form is stored but never used, as in the program.
- The "New Incident", "Export" and "Refresh" buttons have no handlers in the program and are not modelled.
- The dashboard's `refreshKey` drives no data; the model only counts ticks.
- Reports (PDF export), Login, App, Layout and StatCard are not part of this model.
- The fixture data of src/utils/mockData.ts appears only where a lemma needs it: the alerts and the MITRE tactic table.
- The fixture alerts' timestamps are relative to `Date.now()` in the program. In `Dashboard.MockAlerts` they are 0, because no modelled property reads them.
