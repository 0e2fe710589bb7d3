# Smart waste bins: a verified model of the dashboards, the API and the schemas

The system monitors municipal waste bins fitted with ultrasonic sensors. Each
sensor posts its fill level and echo distance to an Express/MongoDB backend.
An administrator's mobile screen watches the bins, raises live alerts when a
bin crosses a threshold, plans a collection route, and manages citizens'
reports. A public screen shows the bins' fill state, advice, quick counts and
the most urgent bins, and lets citizens file reports.

This project models in Dafny the decision rules of that system and proves
their properties:

- the fill-level tiers, colours and advice of both screens (`FillLevel`);
- the administrator's screen (`AdminDashboard`):
  - the crossing-alert evaluator, which compares two bin snapshots;
  - the bounded, newest-first alert feed with its counter, dismiss,
    expiry and clear-all;
  - the collection-route prioritiser;
  - the dashboard counters, the search and the report filter;
  - mark-for-collection and resolve-report, which update one list element.
- the public screen (`PublicDashboard`):
  - the ordered multi-source fetch and payload normalisation;
  - the distance-to-fill conversion and the field mapping of `loadBins`;
  - the quick counts, the alert list, the "time since" text and the report check;
  - the in-place display sort.
- the backend routes (`Server`):
  - the sensor ingest: validation and the upsert keyed by the upper-cased id;
  - the bin reads;
  - the login and registration decision order;
  - notice and report creation, and report resolution;
  - the analytics aggregates.
- the Bin, Report and Notice schemas (`BinSchema`, `ReportSchema`,
  `NoticeSchema`):
  - their enums, trimming and upper-casing setters, length limits and defaults;
  - the `getActiveNotices` query.

The code's shape carries over. Where the code updates state, the model uses a
class:
- `AdminDashboard.AdminScreen`: the screen's bins, reports, alert feed and
  alert counter;
- `PublicDashboard.PublicScreen`: the public screen's bins and data source;
- `Server.Backend`: the store's users, bins, reports and notices, with the
  database connection as a flag.

The rules themselves are functions beside these classes. Each class method is
specified by those functions, and the properties are lemmas about the functions.
The `forEach` of `checkForCriticalAlerts` and the source loop of
`binsAPI.getAll` are methods with loops.

Shared helpers:
- `Text`: JavaScript's `trim`, ASCII `toUpperCase`/`toLowerCase`, `includes`,
  string truthiness and `length` in UTF-16 code units;
- `Seqs`: `filter` and a stable sort, the order `Array.prototype.sort` gives
  to equal keys. The database leaves the order of equal sort keys
  unspecified; the notice sorts use the same stable sort, and no contract
  of `Server.GetNotices` or `NoticeSchema.ActiveNotices` depends on it;
- `Wrappers`: `Option` and `Result`.

Where the documentation and the code disagree, the model follows the code:
- update-level rejects a level outside 0..100 with 400. It does not clamp.
- The create routes check only that title/content (or type/description) are
  truthy. A value that is blank once trimmed passes that check. The schema
  then refuses it on save, and the route answers 500.
- `GET /api/notices` filters on status only and sorts newest first. Notices
  past their expiry date are still listed; `getActiveNotices` is never called
  by the routes (`Server.GetNoticesKeepsExpired`).
- Registration also answers 503 when the database is down.

Behaviours of the code that the proofs make explicit:
- The public screen's `fill_level` expression reads as
  `(fill_level || fillLevel || level || distance) ? calculateFillFromDistance(distance) : 0`.
  The shown level therefore depends on the distance alone. A bin reporting
  level 95 without a distance shows as empty (`PublicDashboard.MappedFillIgnoresReportedLevel`).
- In this model, which reads the clock once per evaluation pass, the two
  level alerts of one bin in one pass get the same id, so dismissing either
  removes both (`AdminDashboard.SamePassSameId`). The program reads the
  clock once per alert, so its two ids agree only when both reads fall in
  the same millisecond.
- The live interval is set up when LIVE is switched on, and its callback
  keeps the bins of that render. Every tick compares the fetched bins with
  that snapshot, not with the previous tick's bins, so a bin that was below
  90 then and stays at 90 or more raises CRITICAL_FULL on every tick
  (`AdminDashboard.TickRefiresAgainstSnapshot`). The simulation fallback
  steps the snapshot, and "Take Action" on an alert marks a bin in the
  snapshot's list (`AdminScreen.MarkFromAlert`).
- A bin without a location (as the sensor upsert creates) makes
  `bin.location.address` throw. In an alert pass this ends the `forEach`;
  the tick then falls back to the simulation
  (`AdminDashboard.UnlocatedCrossingEndsPass`,
  `AdminDashboard.UnlocatedCrossingFallsBack`). In the map tab's search it
  fails the whole filter (`AdminDashboard.UnlocatedBinBreaksSearch`).
- The demo administrator cannot publish a notice while no administrator is
  stored. The notice gets no author, and the schema refuses it
  (`Server.DemoAdminNeedsStoredAdmin`).
- Mongoose casts a string compared with `binId` in a query through the
  path's `trim` and `uppercase` setters. So the upsert stores the trimmed,
  upper-cased id, and both bin reads find a bin under any spelling with
  that normal form (`Server.IdSpellingsRead`). The explicit
  `toUpperCase()` of update-level and `/realtime` changes nothing
  (`Server.UpperCasedFilterIsRedundant`).

## Model

| member | source | states |
|---|---|---|
| FillLevel.StatusTextTiers | screens/AdminDashboard.js:549-554 | Every level gets exactly one of CRITICAL, FULL, HALF FULL, AVAILABLE, with inclusive lower bounds 90/80/50: 89 is FULL, 90 CRITICAL, 49 AVAILABLE, 50 HALF FULL. The public `getBinStatusText` is the same function. |
| FillLevel.StatusTextMonotone | screens/AdminDashboard.js:549-554 | A fuller bin is never given a less urgent label. |
| FillLevel.TextAndColorAgree | screens/AdminDashboard.js:542-554 | Two levels get the same admin colour if and only if they get the same label. |
| FillLevel.PublicBandsAgainstTiers | screens/PublicDashboard.js:334-346 | The public red is exactly CRITICAL and the public green exactly AVAILABLE. Levels 70-79 are orange on the public screen yet HALF FULL in text. |
| FillLevel.PublicColorAndAdviceAgree | screens/PublicDashboard.js:334-359 | For any bin type, two levels get the same public colour if and only if they get the same advice. Both switch at 90/70/50. |
| FillLevel.ColorFollowsBand | screens/PublicDashboard.js:334-339 | Two levels share a public colour if and only if they lie in the same 90/70/50 band. |
| FillLevel.AdviceFollowsBand | screens/PublicDashboard.js:348-359 | Two levels get the same advice for a bin type if and only if they lie in the same band. |
| FillLevel.AdviceOpensWithMark | screens/PublicDashboard.js:348-359 | The advice is never empty, and it opens with its band's emoji. |
| FillLevel.AdviceNamesBinType | screens/PublicDashboard.js:348-359 | The advice always contains the bin type it was given. |
| AdminDashboard.SeverityFor | screens/AdminDashboard.js:168 | An alert's severity is 'critical' if and only if its type is EMERGENCY, otherwise 'high'. |
| AdminDashboard.MakeAlert | screens/AdminDashboard.js:160-169 | For a bin with a location, the alert carries the id (bin id, time), the bin's id, level and address, the type, the time and `SeverityFor` of the type. |
| AdminDashboard.Push | screens/AdminDashboard.js:171 | The new list holds at most 10 alerts, one more than before until the cap. It is the new alert followed by the previous ones, cut to that length. |
| AdminDashboard.PushAllNewestFirst | screens/AdminDashboard.js:171 | After pushing a run of alerts, the feed is the run reversed (newest first) followed by the earlier feed, cut to 10. |
| AdminDashboard.PushAllSnoc | screens/AdminDashboard.js:171 | Pushing one more alert after a run is one more push onto the run's result. |
| AdminDashboard.PushAllAppend | screens/AdminDashboard.js:171 | Pushing two runs one after the other is pushing their concatenation. |
| AdminDashboard.FindBin | screens/AdminDashboard.js:139 | The result is a bin of the old snapshot with the id, and nothing exactly when no bin has that id. |
| AdminDashboard.Triggers | screens/AdminDashboard.js:137-155 | CRITICAL_FULL fires iff an old bin with the id exists and old < 90 <= new. EMERGENCY fires iff old < 95 <= new, independently. SENSOR_WARNING fires iff the new bin's sensor reports 'warning'. They fire in that order. |
| AdminDashboard.AlertsFor | screens/AdminDashboard.js:141-154 | For a located bin, one alert per triggered type, in trigger order, each built by `MakeAlert`. |
| AdminDashboard.AlertsForSnoc | screens/AdminDashboard.js:141-154 | One more triggered type appends exactly its alert. |
| AdminDashboard.Callbacks | screens/AdminDashboard.js:138-155 | One callback per new bin, in order: its alerts, and whether it throws (a check fires for a bin without a location). |
| AdminDashboard.RunSnoc | screens/AdminDashboard.js:138-155 | The pass over one more new bin is one more callback step. |
| AdminDashboard.RunThrowsIff | screens/AdminDashboard.js:138-155 | A pass throws if and only if one of its callbacks throws. |
| AdminDashboard.RunThrewStays | screens/AdminDashboard.js:138-155 | Once a callback has thrown, the later callbacks do not run: the outcome stays as it was. |
| AdminDashboard.RunComplete | screens/AdminDashboard.js:138-155 | In a pass that does not throw, every callback's alerts are raised. |
| AdminDashboard.RunSound | screens/AdminDashboard.js:138-155 | Every alert of a pass comes from a callback that did not throw. |
| AdminDashboard.PassRunThrowsIff | screens/AdminDashboard.js:138-166 | A pass throws if and only if some new bin lacks a location and has a check that fires. |
| AdminDashboard.UnlocatedCrossingEndsPass | screens/AdminDashboard.js:138-166 | A bin without a location that crosses 90 ends the pass: it and every later bin raise nothing. |
| AdminDashboard.PassRunSound | screens/AdminDashboard.js:137-166 | Every alert of a pass is built from a located bin of the new snapshot whose condition fired, at the pass's time. |
| AdminDashboard.BinAlertsSound | screens/AdminDashboard.js:141-166 | Every alert one callback raises is built from its located bin, for a condition that fired. |
| AdminDashboard.PassRunComplete | screens/AdminDashboard.js:137-166 | In a pass that does not throw, each located new bin raises the alert of every condition that fired. |
| AdminDashboard.CrossingNinetyOnly | screens/AdminDashboard.js:141-149 | 85 then 92 raises CRITICAL_FULL only. |
| AdminDashboard.CrossingBothThresholds | screens/AdminDashboard.js:141-149 | 85 then 96 raises CRITICAL_FULL, then EMERGENCY. |
| AdminDashboard.AlreadyCriticalNoAlert | screens/AdminDashboard.js:141-149 | 92 then 93 raises no level alert. |
| AdminDashboard.WarningWithoutHistory | screens/AdminDashboard.js:151-154 | A sensor warning fires, alone, for a bin the old snapshot does not hold. |
| AdminDashboard.SamePassSameId | screens/AdminDashboard.js:160-209 | With one clock reading per pass, the CRITICAL_FULL and EMERGENCY alerts of one located bin share an id. Removing that id removes both. |
| AdminDashboard.WithoutAlert | screens/AdminDashboard.js:202-210 | Exactly the alerts with another id remain, and the list does not grow. |
| AdminDashboard.WithoutAlertKeepsOrder | screens/AdminDashboard.js:209 | Removal works piece by piece, so the remaining alerts keep their order. |
| AdminDashboard.WithoutAbsentAlert | screens/AdminDashboard.js:209 | Dismissing an id the feed does not hold changes nothing. |
| AdminDashboard.StopBins | screens/AdminDashboard.js:424-429 | The bins of a route's stops, one per stop, in stop order. |
| AdminDashboard.NumberStops | screens/AdminDashboard.js:424-429 | Stop i carries the i-th bin, number first+i, time 15 minutes per stop, and priority CRITICAL iff level >= 90, else HIGH. |
| AdminDashboard.StopsKeepBins | screens/AdminDashboard.js:424-429 | Numbering the stops keeps the bins and their order. |
| AdminDashboard.GenerateOptimalRoute | screens/AdminDashboard.js:416-433 | The route's bins are exactly the bins at 80 or more, with their multiplicities. They are ordered by non-increasing level (+20 for medical waste), with ties in screen order. Stops are numbered 1..n with 15-minute steps and CRITICAL iff level >= 90. The route is empty iff no bin is at 80. |
| AdminDashboard.RouteOrder | screens/AdminDashboard.js:417-422 | The route holds the filtered bins as a permutation, sorted by urgency and stable on equal urgency. |
| AdminDashboard.RouteNumbering | screens/AdminDashboard.js:424-429 | Stops are numbered from 1, 15 minutes apart, CRITICAL at 90 or more. |
| AdminDashboard.RouteEmptiness | screens/AdminDashboard.js:417 | The route is empty exactly when no bin needs collecting. |
| AdminDashboard.MedicalWasteFirst | screens/AdminDashboard.js:418-422 | A medical-waste bin at 80 comes before a general-waste bin at 95 on the route. |
| AdminDashboard.MoreUrgentFirst | screens/AdminDashboard.js:418-422 | In a list sorted by urgency, a strictly more urgent bin stands before a less urgent one. |
| AdminDashboard.DashboardStats | screens/AdminDashboard.js:576-582 | The tiles count all bins, the bins at >= 90, at >= 80 and below 50, and the pending reports. |
| AdminDashboard.StatsBounds | screens/AdminDashboard.js:576-582 | Critical <= full, full + available <= total, and pending <= the number of reports. |
| AdminDashboard.SearchBins | screens/AdminDashboard.js:727-731 | Fails iff some bin's id misses the query and its location is missing, or its address misses and its area is missing. Otherwise exactly the bins whose lower-cased id, address or area contains the lower-cased query. |
| AdminDashboard.EmptySearchShowsAll | screens/AdminDashboard.js:727-731 | An empty query shows every bin, in order, even bins without a location. |
| AdminDashboard.SearchIgnoresCase | screens/AdminDashboard.js:727-731 | Upper-casing the query does not change the result. |
| AdminDashboard.UnlocatedBinBreaksSearch | screens/AdminDashboard.js:727-731 | A bin without a location whose id misses the query makes the whole search fail. |
| AdminDashboard.FilterReports | screens/AdminDashboard.js:789-792 | 'all' keeps every report. Any other value keeps exactly the reports with that status. |
| AdminDashboard.MarkBins | screens/AdminDashboard.js:482-486 | Same length. A bin with the id is marked and scheduled now, and every other bin is unchanged. |
| AdminDashboard.MarkBinsIdempotent | screens/AdminDashboard.js:482-486 | Marking twice at the same moment is marking once. |
| AdminDashboard.ResolveReports | screens/AdminDashboard.js:504-508 | Same length. A report with the id becomes 'resolved' with its time, and every other report is unchanged. |
| AdminDashboard.ResolveWithoutIdResolvesAllWithoutId | screens/AdminDashboard.js:504-508 | Resolving with an absent id resolves every report that has no `id`, as the server's reports do. |
| AdminDashboard.ResolveNeverAddsPending | screens/AdminDashboard.js:504-508 | Resolving never increases the number of pending reports. |
| AdminDashboard.SimulateBin | screens/AdminDashboard.js:121-132 | The simulated level stays in 0..100 and moves by at most 1. The distance is 100 - level (100 at 0). The sensor state is the drawn one, and the id and address are kept. |
| AdminDashboard.SimulateBins | screens/AdminDashboard.js:120-133 | One simulated bin per given bin, in order, each stepped with its own draws. |
| AdminDashboard.TickRefiresAgainstSnapshot | screens/AdminDashboard.js:51-101 | A bin below 90 in the snapshot and fetched at 90 or more raises CRITICAL_FULL on every tick whose check does not throw, and the fetched bins are stored. |
| AdminDashboard.UnlocatedCrossingFallsBack | screens/AdminDashboard.js:86-117 | A fetched list whose unlocated bin crosses 90 is never stored. The simulation is stored iff its own check does not throw. |
| AdminDashboard.AdminScreen.constructor | screens/AdminDashboard.js:24-38 | The screen starts with no bins, no reports, an empty feed, a zero counter and an empty snapshot. |
| AdminDashboard.AdminScreen.TriggerCriticalAlert | screens/AdminDashboard.js:159-172 | For a located bin, the alert is pushed first onto the feed (kept at 10 or fewer) and the counter rises by exactly 1. Nothing else changes. |
| AdminDashboard.AdminScreen.CheckForCriticalAlerts | screens/AdminDashboard.js:137-156 | The loop stops at the first callback that throws. The feed becomes the old feed with the pass's alerts pushed in order, the counter rises by their number, and the result says whether the pass threw. |
| AdminDashboard.AdminScreen.CheckBin | screens/AdminDashboard.js:138-155 | It throws iff a check fires for a bin without a location. Otherwise it pushes and counts exactly the bin's triggered alerts. |
| AdminDashboard.AdminScreen.CheckSecondTrigger | screens/AdminDashboard.js:146-154 | Once the first check has passed, the rest of the callback throws iff a check fires for a bin without a location; otherwise the feed ends as the bin's triggered alerts pushed in order, and the counter grows by their number. |
| AdminDashboard.AdminScreen.CheckLastTrigger | screens/AdminDashboard.js:151-154 | Once the first two checks have passed, the sensor check throws iff it fires for a bin without a location; otherwise the feed ends as the bin's triggered alerts pushed in order. |
| AdminDashboard.AdminScreen.CheckTrigger | screens/AdminDashboard.js:142-166 | A check that fires pushes and counts its alert, or throws, changing nothing, when the bin has no location. A check that does not fire changes nothing. |
| AdminDashboard.AdminScreen.StartMonitoring | screens/AdminDashboard.js:50-58 | Switching LIVE on keeps the bins of that render as the interval's snapshot. Nothing else changes. |
| AdminDashboard.AdminScreen.LoadBinsWithAlerts | screens/AdminDashboard.js:86-117 | `loadBinsDataWithAlerts`, the bins half of a tick. A fetched list is checked against the snapshot and stored unless the check throws. Otherwise the snapshot's simulation is checked against the snapshot and stored unless that check throws. The feed and counter take every alert raised, and the snapshot is unchanged. |
| AdminDashboard.AdminScreen.MarkFromAlert | screens/AdminDashboard.js:186-191 | "Take Action" on a level alert sets the bins to `MarkBins` of the snapshot, not of the held bins. |
| AdminDashboard.AdminScreen.DismissAlert | screens/AdminDashboard.js:208-210 | The feed loses exactly the alerts with that id. The counter is unchanged. |
| AdminDashboard.AdminScreen.ExpireAlert | screens/AdminDashboard.js:202-204 | The 30-second expiry removes exactly the alerts with that id, like a dismissal. |
| AdminDashboard.AdminScreen.ClearAlerts | screens/AdminDashboard.js:914 | The feed is emptied and the counter reset to 0. Bins and reports are unchanged. |
| AdminDashboard.AdminScreen.MarkForCollection | screens/AdminDashboard.js:482-486 | The bins become `MarkBins` of the old bins. Nothing else changes. |
| AdminDashboard.AdminScreen.ResolveReport | screens/AdminDashboard.js:504-508 | The reports become `ResolveReports` of the old reports. Nothing else changes. |
| PublicDashboard.Normalize | screens/PublicDashboard.js:68 | An array passes unchanged. An object gives its `bins`, or else itself as the only bin. A null body fails. |
| PublicDashboard.FirstSuccess | screens/PublicDashboard.js:61-76 | An error if and only if no source succeeds. Otherwise the data of the first source that succeeds, tagged with its name. |
| PublicDashboard.GetAll | screens/PublicDashboard.js:27-77 | The loop over 'Admin API' then 'ESP32 Direct' returns the first success, or the error 'All data sources failed'. |
| PublicDashboard.AdminApiPreferred | screens/PublicDashboard.js:31-69 | When the admin API answers with a body, its data is used and the sensor is never consulted. |
| PublicDashboard.FillFromDistance | screens/PublicDashboard.js:265-275 | 0 for a missing, zero, negative or >= 100 distance. Otherwise exactly 100 - distance. Always in 0..99. |
| PublicDashboard.FillFromDistanceAntitone | screens/PublicDashboard.js:265-275 | Within the sensor's range, a closer echo never means a less full bin. |
| PublicDashboard.DistanceRoundTrip | screens/PublicDashboard.js:265-275 | A level below 100 turned into a distance, as the simulation does, converts back to the same level. |
| PublicDashboard.BrimFullReadsEmpty | screens/PublicDashboard.js:269 | A bin full to the brim (distance 0) reads as empty. |
| PublicDashboard.FirstStr | screens/PublicDashboard.js:227-236 | `a || b || ... || fallback` over strings: the first non-empty one, else the fallback. |
| PublicDashboard.FirstNum | screens/PublicDashboard.js:234-235 | The same over numbers, where 0 is falsy. |
| PublicDashboard.MappedFillIgnoresReportedLevel | screens/PublicDashboard.js:231 | The mapped fill level equals the distance's conversion, whatever level the source reports. |
| PublicDashboard.ReportedLevelWithoutDistance | screens/PublicDashboard.js:231 | A bin reporting level 95 with no distance shows 0. |
| PublicDashboard.ToPublicBin | screens/PublicDashboard.js:224-241 | Each shown field (id, location name, bin type, last update, sensor distance, battery, status, source) is the first truthy spelling, or its default. The id is never empty. The fill level comes from the distance. |
| PublicDashboard.LoadBins | screens/PublicDashboard.js:217-262 | Bins are shown iff the fetch succeeded with data, one mapped bin per fetched bin, tagged with the source. Otherwise the fallback is used, and the error is rethrown iff the fetch failed. |
| PublicDashboard.GetQuickStats | screens/PublicDashboard.js:462-469 | Total, bins >= 90, bins 70-89 and bins < 50. |
| PublicDashboard.QuickStatsDisjoint | screens/PublicDashboard.js:462-469 | The three counts never overlap: full + near-full + available <= total. |
| PublicDashboard.GetAlerts | screens/PublicDashboard.js:471-473 | Exactly the bins at >= 80, as a permutation of the filtered list. They are ordered by non-increasing fill level, with ties in screen order. |
| PublicDashboard.FormatLastUpdate | screens/PublicDashboard.js:475-483 | 'Never' iff there was no update. Otherwise whole seconds below 60, floor(diff/60) minutes below 3600, and floor(diff/3600) hours after that. |
| PublicDashboard.FormatBoundaries | screens/PublicDashboard.js:478-482 | 59.999 s shows 59 seconds, 60 s one minute, 3599.999 s 59 minutes, 3600 s one hour. |
| PublicDashboard.CanSubmitReport | screens/PublicDashboard.js:408-411 | A report can be sent iff its text is not all white space. |
| PublicDashboard.PublicScreen.constructor | screens/PublicDashboard.js:116-128 | The screen starts with no bins and the source 'unknown'. |
| PublicDashboard.PublicScreen.ApplyLoad | screens/PublicDashboard.js:243-259 | The screen holds the mapped bins and their source, or the fallback bins with source 'fallback'. |
| PublicDashboard.PublicScreen.SortBinsForDisplay | screens/PublicDashboard.js:515 | The state's bins are permuted into non-increasing fill order, with ties in their previous order. |
| BinSchema.ParseWasteType | backend/models/Bin.js:52-56 | Exactly the four listed type names are accepted, each as its own type. |
| BinSchema.NormalizeBinId | backend/models/Bin.js:4-10 | The stored id is the part of the given one between its leading and trailing white space, each character upper-cased; everything cut off is white space. It has no white space at either end and no lower-case letter. |
| BinSchema.NormalizeBinIdShape | backend/models/Bin.js:4-10 | The trim-then-upper-case result has that shape. |
| BinSchema.NormalizeBinIdIdempotent | backend/models/Bin.js:4-10 | Normalising a stored id again changes nothing. |
| BinSchema.NormalBinIdIsFixpoint | backend/models/Bin.js:4-10 | The setters leave an id unchanged exactly when it is trimmed and has no lower-case letter. |
| BinSchema.NewBin | backend/models/Bin.js:3-80 | A new bin has the normalised id and a trimmed address and area. It has level 0, no distance, capacity 240, General Waste, active, and is updated now. |
| BinSchema.NewBinIsValid | backend/models/Bin.js:3-61 | A new bin passes the validators iff its normalised id, trimmed address and trimmed area are non-empty and its coordinates are in range. |
| ReportSchema.ParseReportType | backend/models/Report.js:4-16 | Exactly the seven listed kinds are accepted. |
| ReportSchema.NewReport | backend/models/Report.js:3-69 | Saved iff the kind is listed and the trimmed description is non-empty and at most 500 UTF-16 code units long, as JavaScript measures `length`. Otherwise each failing path is named. A saved report has the trimmed description, the trimmed upper-cased bin id, pending, medium, and no resolver, resolution time or assignee. |
| ReportSchema.EmojiDescriptionTooLong | backend/models/Report.js:21 | A description of 300 emoji, 300 characters but 600 code units, is refused with the description path named. |
| ReportSchema.NewReportIsValid | backend/models/Report.js:17-32 | Every saved report satisfies the stored-report invariant. |
| ReportSchema.BlankDescriptionRefused | backend/models/Report.js:17-22 | A white-space-only description is always refused. |
| NoticeSchema.ParsePriority | backend/models/Notice.js:16-20 | Exactly the four listed priorities are accepted. |
| NoticeSchema.NewNotice | backend/models/Notice.js:3-44 | Saved iff the trimmed title is 1-100 UTF-16 code units long, the trimmed content 1-1000, the priority listed and the author present. Otherwise each failing path is named. A saved notice is general, active, for all, with no expiry. |
| NoticeSchema.EmojiTitleTooLong | backend/models/Notice.js:8 | A title of 60 emoji, 120 code units, is refused with the title path named, whatever else is sent. |
| NoticeSchema.NewNoticeIsValid | backend/models/Notice.js:3-30 | Every saved notice satisfies the stored-notice invariant. |
| NoticeSchema.NoAuthorRefused | backend/models/Notice.js:26-30 | Without an author a notice is never saved, and `createdBy` is the failing path. |
| NoticeSchema.PriorityRank | backend/models/Notice.js:62 | Priorities rank in 0..3. |
| NoticeSchema.PriorityRankIsNameOrder | backend/models/Notice.js:62 | The rank order is exactly the string order of the priority names (high < low < medium < urgent). |
| NoticeSchema.LexLessIrreflexive | backend/models/Notice.js:62 | The string order is strict. |
| NoticeSchema.ActiveNotices | backend/models/Notice.js:55-63 | Exactly the active notices with no expiry or an expiry later than now. They are sorted by priority name, then newest first. |
| NoticeSchema.ActiveNoticesOrdered | backend/models/Notice.js:62 | Of two returned notices, the earlier has the smaller priority name, or the same one and a later-or-equal creation time. |
| NoticeSchema.ActiveNoticesCounts | backend/models/Notice.js:55-63 | Each active notice appears as often as in the collection, and no other notice appears. |
| NoticeSchema.ExpiredNoticeExcluded | backend/models/Notice.js:58-61 | A notice whose expiry date has passed is not returned. |
| Server.FindUser | backend/server.js:254 | The first user with that email, and none exactly when no user has it. |
| Server.FirstAdmin | backend/server.js:594 | A stored administrator, and none exactly when there is no administrator. |
| Server.Login | backend/server.js:218-289 | Decision order: 400 iff email or password is missing; then the demo administrator (any letter case in the email); then any public login; then, with the database down, 503. Otherwise 401 for an unknown email or wrong password, 403 for an administrator login by a non-administrator, else the stored user. |
| Server.LoginSuccessIsAuthenticated | backend/server.js:218-281 | A successful login is the demo administrator's, a public one, or a stored user's whose password matched. An administrator login returns an administrator. |
| Server.PublicLoginNeedsNoStore | backend/server.js:237-250 | Every public login with an email and a password, the administrator's address included, succeeds even with the database down. |
| Server.RegisterDecision | backend/server.js:305-319 | 400 iff a field is missing. Otherwise 503 when the database is down, 409 when the lower-cased email exists, else the user is created. |
| Server.IndexOfBin | backend/server.js:435-436 | The position of the bin with the id, and none exactly when no bin has it. |
| Server.FindBin | backend/server.js:397 | A stored bin with exactly that id, and none exactly when no bin has it. |
| Server.ValidateReading | backend/server.js:418-424 | 'Valid level' iff the level is missing or outside 0..100. Otherwise 'Valid distance' iff the distance is missing or negative. Otherwise accepted. |
| Server.UpsertReading | backend/server.js:435-448 | An existing bin with the id gets the level, distance, time and sensor sample, and no other bin changes. Without one, a bin with that id, those fields and the defaults is appended. |
| Server.UpsertThenRead | backend/server.js:435-448 | After the upsert, reading the id returns the level and distance just written, and the sample holds them. |
| Server.UpsertKeepsIdsUnique | backend/server.js:435-448 | The upsert keeps bin ids unique. |
| Server.UpsertRepeat | backend/server.js:435-448 | Posting the same reading twice is the same as posting it once at the later time: only the timestamps move. |
| Server.GetBins | backend/server.js:358-384 | The sample list iff the database is down. Otherwise exactly the active bins, with their multiplicities. |
| Server.UpperCasedFilterIsRedundant | backend/server.js:436 | Upper-casing an id before the `binId` setters cast it gives the same filter as casting it directly. |
| Server.GetBin | backend/server.js:395-405 | 500 while the database is down, as the route has no connection check and the buffered query fails. Otherwise 404 iff no bin has the trimmed, upper-cased id, else 200 with a bin of exactly that id. |
| Server.GetRealtime | backend/server.js:501-526 | The demo answer (the id as given, level 45, distance 55, 'demo_mode', now) when the database is down. Otherwise 404 iff no bin has the trimmed, upper-cased id, else that bin's id, level, distance, location, area, status, last update and sensor sample. |
| Server.IdSpellingsRead | backend/server.js:397-515 | After a reading is posted under one spelling of an id, both reads under any spelling with the same trimmed, upper-cased form find the bin with that level. |
| Server.GetNotices | backend/server.js:568 | Exactly the active notices, each as often as stored, newest first. |
| Server.GetNoticesKeepsExpired | backend/server.js:568 | An active notice past its expiry is still listed, though `getActiveNotices` drops it. |
| Server.NoticeAuthor | backend/server.js:591-598 | For the demo administrator, the first stored administrator or none. Otherwise a valid id as given, else none. |
| Server.ReporterOf | backend/server.js:661-666 | The submitter is recorded iff it is present, not a demo id and a valid id. It is then recorded as given. |
| Server.ResolverOf | backend/server.js:701-709 | For the demo administrator, the first stored administrator or none. Otherwise a valid id as given, else none. |
| Server.Resolve | backend/server.js:711-719 | The report becomes resolved, by that resolver, at that time. Every other field is unchanged. |
| Server.ResolveTwiceOverwrites | backend/server.js:711-719 | A second resolution overwrites the first, whatever the prior status. |
| Server.ResolveKeepsValid | backend/server.js:711-719 | Resolving keeps a stored report valid. |
| Server.SumLevelsBounds | backend/server.js:764-766 | With levels in 0..100, the sum of n levels is in 0..100n. |
| Server.RoundedMean | backend/server.js:765 | The result is the nearest integer to sum/count (within one half). |
| Server.GetAnalytics | backend/server.js:737-780 | Sample figures iff the database is down. Otherwise: total = active bins, full = active at >= 80, empty = active below 50; the average is 0 without active bins, else the rounded mean; plus report counts by status. |
| Server.AverageInRange | backend/server.js:763-766 | With levels in 0..100 the average is in 0..100. |
| Server.MeanInRange | backend/server.js:765 | A rounded mean of values in 0..100 is in 0..100. |
| Server.FullAndEmptyWithinTotal | backend/server.js:755-757 | Full and empty bins never overlap, so full + empty <= total. |
| Server.PostNotice | backend/server.js:582-614 | 400 iff title or content is missing, then 503 with the database down. Otherwise the schema decides: 201 with the notice (priority defaulting to medium, author `NoticeAuthor`) or 500. Every 201 notice is valid. |
| Server.DemoAdminNeedsStoredAdmin | backend/server.js:592-607 | With no stored administrator, the demo administrator's notice is refused with 500. |
| Server.NoticePriorityDefaultsToMedium | backend/server.js:603 | A notice sent without a priority is published as medium. |
| Server.PostReport | backend/server.js:652-683 | 400 iff type or description is missing, then 503 with the database down. A 201 is under a fresh id and is valid. |
| Server.PostReportIsSchemaDocument | backend/server.js:661-683 | With both fields and the database up, the route stores exactly the schema's document for the request, or answers 500. |
| Server.DemoReporterDropped | backend/server.js:661-666 | A report sent with the demo public id is stored without a submitter. |
| Server.ResolveReply | backend/server.js:696-725 | 503 iff the database is down, 500 for an id the database cannot parse, 404 for an unknown id. Otherwise 200 with the resolved report. |
| Server.ReportsStayValid | backend/server.js:676-719 | Storing a valid report keeps every stored report valid. |
| Server.Backend.constructor | backend/server.js:59-72 | The store starts empty, with the connection state the start-up produced. |
| Server.Backend.UpdateLevel | backend/server.js:411-479 | 400 with the store unchanged for a bad reading, and an echo of the id, level, distance and timestamp with the store unchanged when the database is down. Otherwise the bins become `UpsertReading` under the trimmed, upper-cased id (the filter cast through the `binId` setters), and the answer is the stored bin. The store invariants are kept. |
| Server.Backend.Register | backend/server.js:300-340 | The answer is the decision's error, or 201 with a new public user with the lower-cased email, appended to the users. |
| Server.Backend.CreateNotice | backend/server.js:577-619 | The answer is `PostNotice`, and the notice is appended exactly when it is 201. |
| Server.Backend.CreateReport | backend/server.js:647-688 | The answer is `PostReport`, and the report is stored under its id exactly when it is 201. |
| Server.Backend.ResolveReport | backend/server.js:691-730 | The answer is `ResolveReply`, and the report is replaced exactly when it is 200. |
| Text.Trim | backend/models/Report.js:20 | The trimmed string is a slice of the input, with only white space cut at either end and none left at its ends. |
| Text.TrimEmptyIffBlank | screens/PublicDashboard.js:408 | Trimming gives the empty string iff the string is all white space. |
| Text.TrimIdempotent | backend/models/Notice.js:7 | Trimming twice is trimming once. |
| Text.ToUpper | backend/server.js:436 | Same length, and each character upper-cased. |
| Text.Utf16LengthAppend | backend/models/Report.js:21 | The code units of a concatenation are the sum of its parts'. |
| Text.Utf16LengthIsCharCount | backend/models/Report.js:21 | The UTF-16 length equals the character count iff no character lies beyond the Basic Multilingual Plane. |
| Text.Utf16LengthAllAstral | backend/models/Report.js:21 | The UTF-16 length is twice the character count iff every character lies beyond the Basic Multilingual Plane. |
| Text.Includes | screens/AdminDashboard.js:728-730 | True iff the substring occurs at some position. |
| Seqs.SortDesc | screens/AdminDashboard.js:418-422 | The sort gives a permutation, sorted by non-increasing key, in which elements with equal keys keep their order. |
| Seqs.Filter | screens/AdminDashboard.js:417 | Exactly the elements satisfying the predicate, and no more elements than the input. Order and multiplicity are stated by `FilterAppend` and `FilterMultiset`. |

## Left out

- Rendering, navigation, modals, `Alert.alert` dialogs and their message texts, maps links and styles are presentation only.
- Every network call becomes a parameter: the screens' `fetch` results are `Option<Payload>` values or fetched lists, and the database connection is a `connected` flag.
- The polling intervals and the 30-second alert timer are left out. The timer is the explicit operation `ExpireAlert`.
- Clocks are parameters. One evaluation pass of `checkForCriticalAlerts` reads the clock once, so all its alerts share one time; the program reads it once per alert.
- `calculateDistance` and the coordinate `parseFloat`s are floating point. Levels and distances are integers, so `Math.round(100 - distance)` is exact.
- `PublicDashboard.ToPublicBin`: the mapped `latitude` and `longitude` (`parseFloat` chains with fixed defaults) are not part of the mapped record.
- `Math.random` in the simulation becomes parameters of `AdminDashboard.SimulateBin` (the draws of `AdminScreen.LoadBinsWithAlerts`, one per snapshot bin). The screen's random fallback bins are a parameter of `PublicScreen.ApplyLoad`.
- `AdminScreen.LoadBinsWithAlerts`: the interval callback also calls `loadReports()` and bumps the `liveUpdates` counter on each tick. Neither is modelled: the reports come from a fetch, which is a parameter like every network call, and the counter only feeds a display.
- `AdminScreen.LoadBinsWithAlerts`: an exception in the catch path's own check ends the tick as an unhandled rejection; only its effect (no `setBins`) is modelled. The connection-status and last-update indicators are not modelled.
- Rendering a bin without a location in the bin lists, the route tab and the bin modal (`bin.location.address` at screens/AdminDashboard.js lines 691, 757, 886 and 1001) also throws; rendering is not modelled.
- Password hashing, `comparePassword` and `ObjectId.isValid` are function parameters. The User model is not part of this model; users are records with id, email, name and type.
- The start-up seeding (`initializeDefaultData`: a default administrator, five sample bins, two notices) is left out; the store starts empty and is filled through the routes.
- Mongoose `populate` and the `timestamps` option's `createdAt` are left out; the creation time is a parameter.
- Validators do not run on the `findOneAndUpdate` upsert, so an upserted bin has no location or area.
- `Server.UpsertedBin`: assumes the schema defaults (status active, capacity 240, General Waste, the collection schedule) are written on insert, as Mongoose 6 and later do by default (`setDefaultsOnInsert`). The Mongoose version is not pinned; with an earlier one the inserted bin has no status, and `GET /api/bins` would not list it.
- `Server.GetBin`, `Server.GetRealtime`, `Server.UpsertReading`: assume that Mongoose casts a string compared with `binId` in a query through the path's `trim` and `uppercase` setters, as Mongoose 5 and later do. With a version that does not, the plain read would look up the id exactly as given.
- The `!bin` branch after the upsert is unreachable with `new: true`, and is left out.
- `Server.GetBin`: while the database is down the query waits in Mongoose's buffer until its timeout before failing with 500; the wait is not modelled.
- `Server.GetNotices`, `NoticeSchema.ActiveNotices`: MongoDB does not specify the order of notices with equal sort keys. The model puts them in stored order; the contracts state only the sort keys, the members and their multiplicities, so they hold for any tie order.
- `Server.Backend.UpdateLevel`: the threshold log lines after the reply are left out.
- The constant sample payloads for a database that is down are a single value per route (`SampleBins`, `SampleAnalytics`, a demo realtime record).
- `Server.GetNotices` models the connected branch only. With the database down, `GET /api/notices` answers a one-notice system sample, which is left out.
- A JSON `null` or non-numeric level is not distinguished from an absent one; a sensor's fields are integers or absent.
- `GET /api/reports` (a status-filtered, newest-first listing), the health and configuration routes, and the CORS/logging middleware are left out.
- Report `images`, `resolutionNotes`, notice `attachments`, `targetAudience` values other than the default, and the bins' `collectionSchedule` text beyond its default are stored, not reasoned about.
- The login screen's form checks and its hard-coded credentials are not part of this model.
- The admin screen's notice form posts to the notice route with the demo administrator's id. That request is modelled on the server side only (`Server.PostNotice`).
- `Text.ToUpper`, `Text.ToLower`: only ASCII letters change case; JavaScript's full Unicode case mapping is not modelled.
- Database ids are strings chosen by the caller (`newId`). A report stored under an id that is already taken is refused with 500.
