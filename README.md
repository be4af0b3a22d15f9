# Guardian Ghana water-quality dashboard: a verified model of its decision rules

Guardian Ghana is a monitoring dashboard for the rivers of Ghana's gold-mining belt. It
watches five river stations: the Pra, Ankobra, Birim, Tano and Offin. This project models
the deterministic rules that decide what the dashboard shows and who may see it:

- the water-quality status of a reading, the water colour, the map marker colours and the
  mining-compliance rule;
- the pollution-risk engine: the hotspot proximity term, the weighted and capped risk
  score, the risk tier, the confidence label, the seasonal table, the factor list and
  the timed prediction cache;
- the simulated-satellite helpers: the mining impact, the enhanced simulation, the
  nearest river and the rainfall;
- the validation of predictions against historical pollution events;
- access control: the password and feature tables, the session timeout, and the login
  handler with its lock-out, privileges, expiry, logout and admin lock;
- the bounded logs and counters: the cloud access log and its analytics, the enhanced
  live system's river states, event list and refresh gating, the dashboard's
  auto-refresh, and alert counting;
- the mining portal's guard, compliance data, rate, incidents and scorecard;
- the enterprise tables: client portals, sections, reports, alerts, pricing and revenue.

Random draws, the clock, and the per-hotspot distances that use `sqrt` are parameters.
The Telegram transport is an oracle that returns a bool. There is one Dafny module per
source file, plus `Common` for shared helpers:

- `Common`: options, substrings, percentages, counting, squared distances, argmin,
  `timedelta.seconds`, and the slicing helpers.
- State the source changes in place is a class:
  - `PredictionEngine.PollutionPredictor` (the cache);
  - `CloudLogger.CloudLogger` (the access log);
  - `App.Session` (the session state);
  - `EnhancedLive.EnhancedLiveSystem` (the live-mode state).
- Each source loop is a method proved against a specification function.

## Model

| member | source | states |
|---|---|---|
| SampleData.WaterQualityStatus | data/sample_data.py:56-63 | Critical iff turbidity > 100 or pH < 5.5 or pH > 8.5; Warning iff not Critical and (turbidity > 50 or pH < 6.0 or pH > 8.0); Normal iff turbidity ≤ 50 and 6.0 ≤ pH ≤ 8.0; the three partition all inputs |
| SampleData.StatusBoundaries | data/sample_data.py:58-63 | turbidity exactly 100 is Critical only through pH; turbidity exactly 50 with pH in [6.0, 8.0] is Normal; pH exactly 5.5 or 8.5 is Warning, not Critical |
| SampleData.StatusMonotoneInTurbidity | data/sample_data.py:56-63 | with pH fixed, raising turbidity never lowers the status's severity |
| SampleData.SampleRow | data/sample_data.py:19-51 | whatever the draws, the generated row carries that river's name, coordinates, risk tag and drawn oxygen, has turbidity ≥ 1 and pH in [4.0, 9.0] |
| SampleData.GenerateSampleData | data/sample_data.py:10-51 | exactly one row per listed river, in list order; each row is that river's row for its draws, so all of them meet the clamps |
| SampleData.GenerateRow | data/sample_data.py:21-50 | the in-place updates of the base values give exactly the river's row |
| SampleData.CriticalCount | data/sample_data.py:56-63 | the count of Critical rows is at most the row count, and 0 iff no row is Critical |
| SatelliteData.ImpactIntensitiesBounded | utils/satellite_data.py:102-107 | every impact hotspot's intensity lies in [0, 0.9] |
| SatelliteData.ImpactUpTo | utils/satellite_data.py:102-116 | the impact over the first n hotspots is in [0, 0.9] and is at least every in-range term; it is 0 or equal to one in-range term |
| SatelliteData.MiningImpact | utils/satellite_data.py:97-116 | the mining impact is the maximum of intensity·(1 − d/0.3) over hotspots with d < 0.3, or 0 when none is in range, and lies in [0, 0.9] |
| SatelliteData.NoImpactOutOfRange | utils/satellite_data.py:102-116 | with every hotspot at distance ≥ 0.3 the impact is 0 |
| SatelliteData.CalculateMiningImpact | utils/satellite_data.py:97-116 | the loop updating `max_impact` returns the mining impact |
| SatelliteData.AnalyzeWaterColor | utils/satellite_data.py:119-128 | Heavy iff > 200, Moderate iff in (100, 200], Light iff in (50, 100], Clear iff ≤ 50 |
| SatelliteData.WaterColorMonotone | utils/satellite_data.py:119-128 | the sediment level of the colour never falls as turbidity rises |
| SatelliteData.RiverSqDists | utils/satellite_data.py:131-151 | one squared distance per listed river, in list order |
| SatelliteData.ClosestRiver | utils/satellite_data.py:131-151 | the name of a river at minimal distance; among tied rivers the first one listed |
| SatelliteData.FindClosestRiver | utils/satellite_data.py:131-151 | the loop with the strict `<` comparison returns the closest river |
| SatelliteData.TurbidityBaseline | utils/satellite_data.py:54-73 | the six named rivers have their own baseline ranges and every other river gets the default (20, 100); each range is non-empty and lies within [10, 400] |
| SatelliteData.Raise | utils/satellite_data.py:84-85 | base·(1 + impact) for an impact in [0, 0.9] lies between the base and 1.9 times it, and equals the base when the impact is 0 |
| SatelliteData.EnhancedSimulationData | utils/satellite_data.py:76-94 | the adjusted turbidity is at least the base and at most 1.9 times it; suspended solids are 2.3 × the adjusted turbidity; the colour is the colour of the adjusted turbidity |
| SatelliteData.SimulationWithoutHotspot | utils/satellite_data.py:84-90 | with no hotspot within 0.3 the adjusted turbidity equals the base |
| SatelliteData.SimulateGhanaRainfall | utils/satellite_data.py:174-189 | the rainfall never exceeds 300; the base is scaled by 1.5 in months 4, 5, 6, 7, 9 and 10 and kept otherwise |
| SatelliteData.RainfallCapNeverBinds | utils/satellite_data.py:179-189 | for every base the latitude's draw range allows, the 300 cap never changes the value, and the rainfall is at least 20 |
| PredictionEngine.HotspotIntensitiesBounded | utils/prediction_engine.py:30-60 | every engine hotspot's intensity lies in [0, 0.95] |
| PredictionEngine.ProximityTermFacts | utils/prediction_engine.py:150-155 | a hotspot's proximity term intensity·max(0, 1 − d/0.5) lies in [0, intensity] and is 0 once d ≥ 0.5 |
| PredictionEngine.ProximityTermAntitone | utils/prediction_engine.py:150-155 | a hotspot's proximity term never grows with distance |
| PredictionEngine.ProximityTerms | utils/prediction_engine.py:150-155 | one proximity term per hotspot, in list order |
| PredictionEngine.MiningProximityRisk | utils/prediction_engine.py:145-155 | the risk is the maximum of the hotspots' proximity terms and lies in [0, 0.95] |
| PredictionEngine.ProximityZeroWhenFar | utils/prediction_engine.py:150-155 | the risk is 0 when every hotspot is at distance ≥ 0.5 |
| PredictionEngine.ProximityAntitone | utils/prediction_engine.py:145-155 | moving away from every hotspot never raises the proximity risk |
| PredictionEngine.SeasonalRisk | utils/prediction_engine.py:157-172 | 0.8 iff the month is 11, 12, 1 or 2; 0.6 iff the month is 6–9; 0.7 otherwise |
| PredictionEngine.ComprehensiveRisk | utils/prediction_engine.py:126-143 | the capped weighted score never exceeds 100 and is non-negative for non-negative inputs |
| PredictionEngine.PointScoreBounded | utils/prediction_engine.py:126-143 | at any location, with non-negative turbidity and rainfall, the score lies in [0, 96] |
| PredictionEngine.ScoreMonotoneInTurbidity | utils/prediction_engine.py:130-143 | the score is non-decreasing in turbidity |
| PredictionEngine.ScoreMonotoneInRainfall | utils/prediction_engine.py:130-143 | the score is non-decreasing in rainfall |
| PredictionEngine.PointScoreAntitoneInDistance | utils/prediction_engine.py:126-155 | moving away from every hotspot never raises the score |
| PredictionEngine.RiskLabelWords | utils/prediction_engine.py:176-183 | each tier label contains CRITICAL, HIGH or MEDIUM exactly when it is that tier |
| PredictionEngine.RiskTier | utils/prediction_engine.py:174-186 | CRITICAL iff score ≥ 70; HIGH iff 50 ≤ score < 70; MEDIUM iff 30 ≤ score < 50; LOW iff score < 30 |
| PredictionEngine.RiskTierMonotone | utils/prediction_engine.py:176-183 | a higher score never gives a lower tier |
| PredictionEngine.MinDistance | utils/prediction_engine.py:190-192 | the minimum hotspot distance is at most every distance and equal to one of them |
| PredictionEngine.CalculateConfidence | utils/prediction_engine.py:188-199 | HIGH iff some hotspot is nearer than 0.1; MEDIUM iff none is nearer than 0.1 but one is nearer than 0.3; LOW iff all are at ≥ 0.3 |
| PredictionEngine.GetNearestHotspot | utils/prediction_engine.py:109-124 | the nearest hotspot is an argmin of the distance, the earliest among ties, reported in km as distance·111 |
| PredictionEngine.FindClosestRiverOptimized | utils/prediction_engine.py:268-285 | the name of the engine's river at minimal distance, the earliest among ties |
| PredictionEngine.EngineRiverSqDists | utils/prediction_engine.py:268-285 | one squared distance per engine river, in list order |
| PredictionEngine.RiskFactors | utils/prediction_engine.py:201-229 | the factor list has 1 to 4 entries; it is the single "normal conditions" factor iff no condition holds; a nearby hotspot (< 50 km) comes first |
| PredictionEngine.GetRiskFactors | utils/prediction_engine.py:201-229 | the appending loop builds exactly the factor list, with 1 to 4 entries |
| PredictionEngine.PredictionConsistent | utils/prediction_engine.py:62-107 | a fresh prediction's tier is the tier of its score; the score lies in [0, 96]; it carries 1 to 4 factors |
| PredictionEngine.CriticalReachable | utils/prediction_engine.py:125-183 | a point on a hotspot of intensity 0.95, with satellite turbidity 150 and rainfall 30, scores 96 and is CRITICAL |
| PredictionEngine.PollutionPredictor.constructor | utils/prediction_engine.py:14-28 | the cache starts empty |
| PredictionEngine.PollutionPredictor.PredictPollutionRisk | utils/prediction_engine.py:62-107 | an entry under the key stored less than 300 s ago is returned unchanged and the cache is unchanged; otherwise the fresh prediction is returned and stored with the current time, and other keys are unchanged |
| PredictionEngine.PollutionPredictor.ClearCache | utils/prediction_engine.py:291-293 | the cache is empty afterwards |
| PredictionEngine.CacheHitWithinTimeout | utils/prediction_engine.py:62-107 | two calls for the same point and river less than 300 s apart give the same prediction; a miss or a stale entry computes the prediction and stores it with the first call's time, and a fresh entry is returned by both calls with the cache unchanged |
| ValidationData.NearSymmetricReflexive | data/validation_data.py:74-80 | the distance test is symmetric and holds on identical points |
| ValidationData.Matches | data/validation_data.py:94-110 | the matched events number at most the seven historical events |
| ValidationData.FalsePositives | data/validation_data.py:113-123 | the false positives number at most the predictions |
| ValidationData.Ratio | data/validation_data.py:126-132 | a percentage in [0, 100], and 0 when the whole is 0 |
| ValidationData.TallyOf | data/validation_data.py:94-123 | true positives plus false negatives is the number of events, and matches equal true positives |
| ValidationData.ValidatePredictions | data/validation_data.py:83-140 | no predictions give 0% for every metric and no tested events; otherwise the report is the one computed from the counts |
| ValidationData.CountEventMatches | data/validation_data.py:94-110 | the nested loop with `break` counts the matched events; matches equal true positives; matches plus false negatives is the event count |
| ValidationData.CountFalsePositives | data/validation_data.py:113-123 | the loop counts exactly the predictions scoring > 50 with no event within 0.8 |
| ValidationData.RecallEqualsAccuracy | data/validation_data.py:126-132 | recall equals accuracy, because true positives plus false negatives is the event count |
| ValidationData.FalsePositivesBounded | data/validation_data.py:113-123 | the false positives are at most the predictions scoring > 50 |
| ValidationData.NoHighScoreNoCredit | data/validation_data.py:97-132 | with no prediction scoring > 50, there are no matches and no false positives, and the precision, accuracy and recall are all 0 |
| ValidationData.MatchNeedsStrictScore | data/validation_data.py:102 | a prediction scoring exactly 50 matches no event |
| ValidationData.PredictionOnEventMatches | data/validation_data.py:97-123 | a prediction scoring > 50 placed on an event matches it, is no false positive, and makes the matches positive |
| SecurityManager.ValidatePassword | utils/security_manager.py:41-54 | (level, True) iff the password is in the map; (None, False) otherwise |
| SecurityManager.PasswordTableConsistent | utils/security_manager.py:12-48 | every level in the password map has an access-level entry; the CEO code is not in the map |
| SecurityManager.GetFeatures | utils/security_manager.py:56-58 | a known level's feature list, and the empty list for an unknown level |
| SecurityManager.HasFeature | utils/security_manager.py:60-62 | true iff the level is known and lists the feature |
| SecurityManager.OnlyMiningCorporateHasPortal | utils/security_manager.py:12-38 | a level has the mining_portal feature iff it is mining_corporate |
| SecurityManager.SessionTimeout | utils/security_manager.py:69-70 | an unknown level gets 1800 s; every level's timeout lies in [1800, 14400] |
| SecurityManager.CheckSessionTimeout | utils/security_manager.py:64-73 | a missing access time is timed out; otherwise the session times out iff the `.seconds` part of the elapsed time exceeds the stored level's timeout, and a missing level counts as demo_limited |
| SecurityManager.TimeoutMissesWholeDays | utils/security_manager.py:72-73 | a session 1801 s old is timed out, but one 86410 s old is not |
| SecurityManager.CheckSessionTimeoutTotal | utils/security_manager.py:64-73 | the corrected check: timed out iff the whole elapsed time exceeds the timeout |
| SecurityManager.TimeoutTotalStaysExpired | utils/security_manager.py:64-73 | once the corrected check says timed out, it stays timed out later; on whole-second elapsed times under a day it agrees with the check as written |
| CloudLogger.Bump | cloud_logger.py:97-99 | incrementing a client type's count adds a new key only when the type was absent |
| CloudLogger.BumpFacts | cloud_logger.py:95-100 | incrementing a count raises the total by 1 and that type's count by 1, leaves the other counts unchanged, adds the type to the keys, and keeps the keys distinct |
| CloudLogger.BumpTotal | cloud_logger.py:95-100 | incrementing a count raises the total by exactly 1 |
| CloudLogger.BumpLookup | cloud_logger.py:95-100 | incrementing a count raises that type's count by 1 and leaves every other type's count unchanged |
| CloudLogger.BumpKeys | cloud_logger.py:95-100 | the keys after incrementing are the old keys plus the type |
| CloudLogger.BumpDistinct | cloud_logger.py:95-100 | incrementing keeps the keys distinct |
| CloudLogger.TypesOfSnoc | cloud_logger.py:95-100 | the set of client types of the logs grows by the last entry's type |
| CloudLogger.CountsOfFacts | cloud_logger.py:95-104 | the per-type counts sum to the number of entries; each type's count is the number of its entries, with a missing type counted as "unknown"; the keys are distinct and are exactly the types seen |
| CloudLogger.DemoAnalytics | cloud_logger.py:111-124 | the demo summary has 47 logins, counted 24 + 15 + 8 over 3 distinct types |
| CloudLogger.AnalyticsFacts | cloud_logger.py:87-109 | with logs present: total logins is the number of entries, the counts sum to it, each type's count is its number of entries, the unique type count is the number of keys, and first and last login are the first and last timestamps |
| CloudLogger.DistinctKeysCardinality | cloud_logger.py:103-104 | with distinct keys, the number of keys equals the length of the count list |
| CloudLogger.RecentLogs | cloud_logger.py:62-72 | for "access" and n ≥ 1, the last min(n, len) entries in order; a limit of 0 gives the whole list; any other log type gives [] |
| CloudLogger.CloudLogger.constructor | cloud_logger.py:12-13 | the access log starts empty |
| CloudLogger.CloudLogger.LogAccess | cloud_logger.py:32-60 | exactly one entry, with the given client type and action, is appended; the earlier entries are unchanged |
| CloudLogger.CloudLogger.GetRecentLogs | cloud_logger.py:62-72 | the recent-log slice of the current log |
| CloudLogger.CloudLogger.GetAnalyticsSummary | cloud_logger.py:87-109 | the demo summary when the log is empty, else the summary of the log, whose total is the number of entries and the sum of the counts |
| App.LoginGrant | app.py:113-164 | a code is accepted iff it is in the table; the portal is granted iff the code is the admin code or MINING2024; EPA tools iff it is the admin code, EPA2024 or WRC2024; CEO (with portal and EPA tools) iff it is the admin code |
| App.LoginCodesExtendPasswordMap | app.py:113-121 | the login table is the security manager's password map plus the CEO code, and every non-CEO access level granted is a known level |
| App.PortalGrantMatchesFeature | app.py:131-164 | for every non-CEO code, the portal flag agrees with the level's mining_portal feature |
| App.RefreshDue | app.py:492-500 | a refresh is due only in live mode, and, for elapsed times under a day, exactly when at least 30 s have passed |
| App.Session.constructor | app.py:22-67 | the session starts in its initial state: not authenticated, no privileges, live mode off |
| App.Session.Login | app.py:98-201 | an attempt is processed only while fewer than 3 have failed; an accepted code authenticates, sets the client type and access level of its table entry, stamps the access time, resets the failed attempts and turns on exactly its privileges; a rejected or locked-out attempt adds at most 1 failed attempt and leaves the client type, level, time and privileges unchanged; each accepted login is logged; the refresh fields are untouched |
| App.Session.Authenticate | app.py:123-164 | the accepted code's client type, level and access time are stored, the failed attempts reset, and its privilege flags are turned on but never off |
| App.Session.GrantPrivileges | app.py:131-164 | each privilege flag granted is turned on; no flag is turned off |
| App.Session.CheckSessionExpiry | app.py:286-302 | the session expires iff it is authenticated with an access time more than 7200 s ago; expiry clears authentication, and the frame lets no other field change |
| App.Session.Logout | app.py:307-327 | the logout is logged, then the log and all session state are cleared |
| App.Session.ClearSession | app.py:323-324 | every session key is back to its initial value |
| App.Session.ClearLogin | app.py:323-324 | the login fields are cleared |
| App.Session.ClearPrivileges | app.py:323-324 | the privilege fields are cleared |
| App.Session.ClearLive | app.py:323-324 | the live-mode fields are cleared |
| App.Session.ClearAlerts | app.py:323-324 | the alert fields are cleared |
| App.Session.CheckAutoRefresh | app.py:492-536 | a refresh fires iff one is due; it then adds one to the update count and to the refresh trigger, stores the new Critical count and readings, and raises the alert flag only on a strict increase; otherwise nothing changes, and the login, privilege and live-mode fields are outside the frame |
| App.Session.ToggleLiveMode | app.py:1004-1015 | live mode flips; turning it on records the time, resets the update count to 0 and loads fresh data; only those four fields may change |
| App.Session.ForceRefresh | app.py:1017-1023 | in live mode the data is replaced, the time recorded and the update count rises by one; otherwise nothing changes, and no field outside those three may change |
| App.Session.CeoAutoUnlock | app.py:1132-1134 | a CEO session unlocks the admin panel; no other field may change |
| App.Session.UnlockAdmin | app.py:1137-1149 | the admin panel unlocks iff it is locked and the code is the admin password; no other field may change |
| App.Session.ExitAdmin | app.py:1402-1404 | the admin panel is locked afterwards; no other field may change |
| App.AttemptsAfterRejections | app.py:103-107 | k rejected attempts from n raise the counter to min(n + k, 3) |
| App.RejectCodes | app.py:103-199 | k calls of the login handler with a rejected code leave the counter at `AttemptsAfterRejections(n, k)`, the session unauthenticated and the privileges, type, level and logs unchanged |
| App.LockOutScenario | app.py:103-107 | after three rejected codes, a login with the admin code is refused and grants neither the CEO flag nor the admin panel |
| App.PrivilegesSurviveExpiry | app.py:131-164 | as written, a demo login after an expired CEO session keeps the CEO's privilege flags |
| EnhancedLive.SeverityOf | utils/enhanced_live.py:127 | the severity is 'warning' iff the event type is rainfall runoff |
| EnhancedLive.AppendEvent | utils/enhanced_live.py:122-134 | the event list ends with the new event, is unchanged but for it while under 10, and otherwise holds at most 10 |
| EnhancedLive.AppendEventElements | utils/enhanced_live.py:130-134 | the list after appending is the tail of the old list followed by the new event, in arrival order |
| EnhancedLive.AppendEventBounded | utils/enhanced_live.py:130-134 | a full list of 10 drops its oldest entry; a shorter one grows by one |
| EnhancedLive.RowOccurrences | utils/enhanced_live.py:75-87 | a row records at most 2 events, all on its own river |
| EnhancedLive.RowOccurrencesContents | utils/enhanced_live.py:76-87 | a row records a spike iff it is high-risk with a spike roll above 0.9, and runoff iff it rains with a runoff roll above 0.5 |
| EnhancedLive.RoundOccurrences | utils/enhanced_live.py:66-87 | the first n rows record at most 2n events |
| EnhancedLive.QuietRoundRecordsNothing | utils/enhanced_live.py:64-87 | without rainfall and without a spiking high-risk row, a round records no event |
| EnhancedLive.RoundOccurrencesOnRows | utils/enhanced_live.py:66-87 | every recorded event is on the river of one of the round's rows |
| EnhancedLive.EventOf | utils/enhanced_live.py:123-128 | the entry carries the event's river, type and time, with severity 'warning' for runoff and 'alert' otherwise |
| EnhancedLive.EventsOfAt | utils/enhanced_live.py:123-131 | entry k of the list is the entry of event k |
| EnhancedLive.EventsOfAppend | utils/enhanced_live.py:123-131 | the entries of two runs of events are the entries of their concatenation |
| EnhancedLive.RecordOnFacts | utils/enhanced_live.py:113-120 | recording adds the river when missing and keeps every other river; the river counts exactly one more event, keeps its status and has this event as its last |
| EnhancedLive.EventsOn | utils/enhanced_live.py:116 | the number of events on a river is at most the events, and 0 iff none is on it |
| EnhancedLive.RecordAllAppend | utils/enhanced_live.py:111-120 | recording two runs of events one after the other is recording their concatenation |
| EnhancedLive.RecordRoundStep | utils/enhanced_live.py:66-87 | recording row i's events after the first i rows' events records the first i + 1 rows' events |
| EnhancedLive.RecordAllCounts | utils/enhanced_live.py:111-120 | after recording, a river has an entry iff it had one or has an event; its count rises by its number of events, its status is kept, and a river without events keeps its state |
| EnhancedLive.RecordAllCountsEach | utils/enhanced_live.py:111-120 | every river's count rises by its number of events |
| EnhancedLive.KeepLastAppend | utils/enhanced_live.py:130-134 | trimming to the last n before appending more and trimming again is trimming once at the end |
| EnhancedLive.NoEventsKeepList | utils/enhanced_live.py:130-134 | with no new events, a list of at most 10 is kept as it is |
| EnhancedLive.AppendEventStep | utils/enhanced_live.py:130-134 | appending one event to the trimmed list is trimming the list with that event appended |
| EnhancedLive.LiveEventsStep | utils/enhanced_live.py:66-134 | trimming after each row's events gives the last 10 of the list with the first i + 1 rows' events |
| EnhancedLive.RoundStatesAll | utils/enhanced_live.py:66-87 | recording row by row is recording all of the round's events in order |
| EnhancedLive.RoundEventsAll | utils/enhanced_live.py:66-134 | trimming after each row keeps the last 10 of the old list followed by all of the round's events |
| EnhancedLive.LiveRowsAt | utils/enhanced_live.py:66-95 | live row i is the live row of base row i and its draws |
| EnhancedLive.LiveRowsEach | utils/enhanced_live.py:66-95 | every live row is the live row of its base row and draws |
| EnhancedLive.MiningFactorRange | utils/enhanced_live.py:57-61 | the mining factor is drawn from [1.1, 1.4] between 6 and 18 h and from [0.8, 1.1] otherwise |
| EnhancedLive.LiveRow | utils/enhanced_live.py:66-95 | a live row keeps its river, location, risk and oxygen, and clamps turbidity to ≤ 500 and pH to [4.0, 9.0] |
| EnhancedLive.CriticalNameOfPrefix | utils/enhanced_live.py:199 | a river Critical in a prefix of the rows is Critical in the rows |
| EnhancedLive.CriticalNames | utils/enhanced_live.py:199 | one name per Critical row, each the name of a Critical row |
| EnhancedLive.Prefix | utils/enhanced_live.py:205 | a prefix of length min(n, len) |
| EnhancedLive.EnhancedLiveSystem.constructor | utils/enhanced_live.py:13-19 | the update cycle is 0, with no states, events, data or alert |
| EnhancedLive.EnhancedLiveSystem.InitRiverStates | utils/enhanced_live.py:38-46 | each of the 5 tracked rivers is set to status 'normal' with 0 events; other states are kept |
| EnhancedLive.EnhancedLiveSystem.StartLiveMode | utils/enhanced_live.py:21-31 | live mode is on, with the start time stamped, the update count 0, an empty event list and the five tracked rivers reset; other rivers' states, the data, the alert and the cycle are kept |
| EnhancedLive.EnhancedLiveSystem.StopLiveMode | utils/enhanced_live.py:33-36 | live mode is off, and every other field is kept |
| EnhancedLive.EnhancedLiveSystem.RecordEvent | utils/enhanced_live.py:111-134 | the river states become `RecordOn` of the occurrence: that river's event count rises by exactly one, creating the entry if missing, its status is kept and its last event is this one; other rivers are unchanged; the event, with its severity, is appended to the bounded list when the list exists |
| EnhancedLive.EnhancedLiveSystem.GenerateLiveData | utils/enhanced_live.py:48-109 | one clamped live row per base row, in order; the river states are the old ones with the round's spike and runoff events recorded in row order, so each river's count rises by the number of its events; the event list is the last 10 of the old list followed by the round's events; the update cycle rises by one and the update time is stamped |
| EnhancedLive.EnhancedLiveSystem.GenerateRows | utils/enhanced_live.py:66-95 | the loop over the base rows gives each row's live row and records the rows' events in order |
| EnhancedLive.EnhancedLiveSystem.RecordRowEvents | utils/enhanced_live.py:75-87 | a row records a spike, then runoff, each when its condition holds, and nothing else |
| EnhancedLive.EnhancedLiveSystem.GetLiveStatus | utils/enhanced_live.py:136-165 | inactive iff live mode is off; otherwise next refresh = max(0, 20 − elapsed), the critical count of the live data, and at most 10 events |
| EnhancedLive.EnhancedLiveSystem.CheckAndUpdate | utils/enhanced_live.py:167-186 | updates iff live mode is on and either no update time is set or at least 20 s have passed; an update stores the new live data, adds one to the live update count, records the round's events in the river states and the event list, stores the Critical count and sets the alert as `CheckCriticalChanges` does; otherwise nothing changes |
| EnhancedLive.EnhancedLiveSystem.CheckCriticalChanges | utils/enhanced_live.py:188-209 | the current count is always stored; the alert is set only on a strict increase, with the difference as its count and at most 3 rivers |
| EnhancedLive.AlertRiversAreCritical | utils/enhanced_live.py:196-205 | every river named in an alert is Critical, and with at most 3 Critical rivers all of them are named |
| AlertSystem.AlertFor | utils/alert_system.py:12-33 | a row triggers an alert iff it is Critical with turbidity > 100 (a turbidity alert) or pH < 5.5 (a pH alert) |
| AlertSystem.CurrentAlerts | utils/alert_system.py:12-33 | one alert per alerting row: as many alerts as rows that alert, at most the Critical rows |
| AlertSystem.CurrentAlertsComplete | utils/alert_system.py:12-33 | the alert of every alerting row is among the current alerts |
| AlertSystem.HighRiskPredictions | utils/alert_system.py:40-41 | exactly the predictions whose level contains CRITICAL or HIGH |
| AlertSystem.EngineLabelHighRisk | utils/alert_system.py:41 | an engine label is alerted on iff its tier is HIGH or CRITICAL |
| AlertSystem.EffectivePredictions | utils/alert_system.py:37-38 | the given predictions, or the session's when none are given |
| AlertSystem.DeliveredCount | utils/alert_system.py:45-51 | the delivered alerts are at most the alerts sent: all of them when all are delivered, none when none are |
| AlertSystem.CheckAndAlert | utils/alert_system.py:6-53 | the alerts sent are the current alerts plus the delivered high-risk prediction alerts |
| AlertSystem.SendCurrentAlerts | utils/alert_system.py:12-33 | the loop over the rows collects exactly the current alerts |
| AlertSystem.SendPredictionAlerts | utils/alert_system.py:45-51 | the loop counts exactly the delivered prediction alerts |
| AlertSystem.AlertsSentBounded | utils/alert_system.py:6-53 | the alerts sent never exceed the Critical rows plus the high-risk predictions |
| AlertSystem.HighPhOnlySendsNothing | utils/alert_system.py:14-33 | a row Critical only through a pH above 8.5 sends nothing |
| AlertSystem.CurrentAlertsAreCritical | utils/alert_system.py:12-33 | every current alert reports a Critical row of the round |
| AlertSystem.SendCurrentAlert | utils/alert_system.py:62-72 | the result is the transport's verdict on the current-issue message |
| AlertSystem.SendAlert | utils/alert_system.py:141-143 | the legacy sender gives the same result as `send_current_alert` on the same arguments |
| MapHelper.CreateProtectedZones | utils/map_helper.py:7-23 | exactly two protected zones, each with 4 vertices |
| MapHelper.ZonesEncloseStations | utils/map_helper.py:7-23 | each zone is a proper box that encloses its river's station (the Pra and the Ankobra) |
| MapHelper.PredictionMarkerColor | utils/map_helper.py:52-57 | red iff the label contains HIGH; orange iff it contains MEDIUM but not HIGH; green otherwise |
| MapHelper.PredictionMarkerOnEngineLabels | utils/map_helper.py:52-57 | on the engine's labels, HIGH is red, MEDIUM is orange, and CRITICAL and LOW are green, as written |
| MapHelper.MonitoringColor | utils/map_helper.py:97-102 | red iff turbidity > 100 or pH < 5.5; orange iff not red and turbidity > 50 or pH < 6.0; green otherwise |
| MapHelper.MonitoringColorVersusStatus | utils/map_helper.py:97-102 | a red marker is a Critical river and a Normal river is green, but a pH of 9.0 is Critical with a green marker |
| MapHelper.MonitoringColorMonotone | utils/map_helper.py:213-221 | raising turbidity keeps a red marker red, and lowering it keeps a green marker green |
| MapHelper.OverlayColor | utils/map_helper.py:162-173 | red iff CRITICAL or score ≥ 80; else orange iff HIGH or ≥ 60; else yellow iff MEDIUM or ≥ 40; else green |
| MapHelper.OverlayColorMatchesTier | utils/map_helper.py:162-173 | for engine labels, the overlay colour is the colour of the score's tier |
| MapHelper.MarkerRadius | utils/map_helper.py:187 | the radius is 8 + score/20, in [8, 13] for scores in [0, 100] |
| MapHelper.MarkerRadiusMonotone | utils/map_helper.py:187 | the radius grows with the score, by 1 per 20 points |
| MapHelper.MonitoringMarkers | utils/map_helper.py:95-120 | one marker per row, coloured by the monitoring rule |
| MapHelper.PredictionMarkers | utils/map_helper.py:50-76 | one marker per prediction, coloured by its label |
| MapHelper.CreateGhanaWaterMap | utils/map_helper.py:81-122 | the water map holds the protected zones, the monitoring markers and one marker per prediction given |
| MapHelper.RiskMarkerFor | utils/map_helper.py:153-195 | a valid point's marker sits at its coordinates; a missing score counts as 0, giving radius 8 |
| MapHelper.RiskMarkers | utils/map_helper.py:148-201 | exactly one marker per point with both coordinates present and within lat [4, 12] and lon [−4, 2] |
| MapHelper.OverlayFallback | utils/map_helper.py:136-241 | the overlay falls back to the plain map iff a column is missing or no point is valid; otherwise the markers are the valid points'; the monitoring markers are always shown |
| MapHelper.CreateRiskOverlayMap | utils/map_helper.py:125-241 | the loop with `continue` builds exactly the overlay |
| MiningPortal.PortalGuard | pages/6_Mining_Portal.py:8-15 | the portal opens iff authenticated and granted the portal; otherwise authentication is required or access is denied |
| MiningPortal.ComplianceStatus | pages/6_Mining_Portal.py:106-110 | Non-Compliant iff turbidity > 100 or pH < 6.0 or DO < 5.0; Warning iff not and turbidity > 70 or pH < 6.5 or DO < 6.0; Compliant otherwise; a partition |
| MiningPortal.ComplianceMonotone | pages/6_Mining_Portal.py:106-110 | more turbidity or less oxygen never improves compliance |
| MiningPortal.Round2Facts | pages/6_Mining_Portal.py:115-116 | rounding to 2 decimals moves a value by at most 0.005 and is monotone |
| MiningPortal.Round2KeepsBound | pages/6_Mining_Portal.py:115-116 | rounding keeps a lower bound that has 2 decimals |
| MiningPortal.Round2KeepsUpperBound | pages/6_Mining_Portal.py:115-116 | rounding keeps an upper bound that has 2 decimals |
| MiningPortal.WeekdayBefore | pages/6_Mining_Portal.py:86-101 | the weekday of a past date lies in 0..6 |
| MiningPortal.DayValuesOf | pages/6_Mining_Portal.py:91-103 | an event (roll > 0.95) lowers pH by its drop; a weekday keeps the drawn oxygen, and also the drawn turbidity when there is no event |
| MiningPortal.WeekendEffect | pages/6_Mining_Portal.py:101-103 | a weekend has 0.7 × the turbidity, 1.1 × the oxygen and the same pH |
| MiningPortal.RowBounds | pages/6_Mining_Portal.py:105-116 | a Compliant row meets turbidity ≤ 70, pH ≥ 6.5 and DO ≥ 6.0 after rounding; values comfortably inside the limits are never Non-Compliant |
| MiningPortal.GenerateMiningOperationsData | pages/6_Mining_Portal.py:83-124 | one row per day, each the day's row for its draws |
| MiningPortal.SelectMiningData | pages/6_Mining_Portal.py:128-134 | "Both Operations" gives both mines' rows; otherwise Tarkwa's if the name contains "Tarkwa", else Damang's |
| MiningPortal.SelectorChoices | pages/6_Mining_Portal.py:66-71 | each of the three choices offered selects its own data |
| MiningPortal.PercentWhere | pages/6_Mining_Portal.py:289-292 | undefined iff there are no rows; otherwise a percentage in [0, 100] |
| MiningPortal.ComplianceRate | pages/6_Mining_Portal.py:140-142 | undefined iff there are no rows; otherwise in [0, 100], 100 iff every row is Compliant and 0 iff none is |
| MiningPortal.Incidents | pages/6_Mining_Portal.py:158-159 | the incidents are at most the rows, and 0 iff no row is Non-Compliant |
| MiningPortal.ScorecardAtLeastRate | pages/6_Mining_Portal.py:288-293 | when Compliant rows meet the compliance bounds, the turbidity, oxygen and (with pH ≤ 8.5) pH scores are at least the compliance rate |
| MiningPortal.GeneratedRowsScore | pages/6_Mining_Portal.py:83-124 | generated Compliant rows meet the compliance bounds, within pH 8.5 when the drawn pH is |
| MiningPortal.ScorecardCaption | pages/6_Mining_Portal.py:299-301 | Standard Met iff ≥ 95; Needs Improvement iff in [80, 95); Below Standard otherwise, including an undefined value |
| EnterpriseFeatures.TitleFrom | utils/enterprise_features.py:37 | `str.title()`: the first letter of each run of letters is raised, the others lowered, and non-letters are kept |
| EnterpriseFeatures.TitleOfTierNames | utils/enterprise_features.py:37 | the three client types title-case to Government, Corporate and Research |
| EnterpriseFeatures.TitleOfLowerWord | utils/enterprise_features.py:37 | a lower-case word title-cases to its first letter raised |
| EnterpriseFeatures.DashboardSections | utils/enterprise_features.py:45-65 | government gets 5 sections, corporate 4, and any other type none |
| EnterpriseFeatures.StandardReports | utils/enterprise_features.py:67-83 | 3 base reports, plus the 2 government reports after them for government |
| EnterpriseFeatures.ClientAlerts | utils/enterprise_features.py:85-97 | 3 base alerts, plus 2 government alerts after them for government |
| EnterpriseFeatures.GenerateClientPortal | utils/enterprise_features.py:34-43 | a KeyError iff the client type has no tier; otherwise the tier's features exactly, its sections, reports and alerts, and a welcome naming the title-cased type; a government portal ends with the two government reports and the compliance-deadline and enforcement alerts |
| EnterpriseFeatures.ResearchPortalHasNoSections | utils/enterprise_features.py:13-65 | the research tier exists but gets no dashboard sections |
| EnterpriseFeatures.GeneratePricingTier | utils/enterprise_features.py:99-123 | a known tier's entry, and the professional tier for any unknown name |
| EnterpriseFeatures.PricingFallback | utils/enterprise_features.py:99-123 | every name other than basic and enterprise gives the professional tier, and the three tiers differ |
| EnterpriseFeatures.CalculatePotentialRevenue | utils/enterprise_features.py:130-164 | a KeyError (None) iff a given distribution lacks a tier; otherwise annual = 12 × monthly over the 500-client market |
| EnterpriseFeatures.DefaultRevenue | utils/enterprise_features.py:133-159 | the default split gives 78,125,000 per month, 937,500,000 per year and 300, 150 and 50 clients |
| EnterpriseFeatures.RevenueBounds | utils/enterprise_features.py:143-159 | shares that sum to 1 give a monthly revenue in [31.25 M, 312.5 M] and between 498 and 500 clients |
| Common.Percent | pages/6_Mining_Portal.py:140-142 | a share of a non-empty whole lies in [0, 100]; it is 100 iff all count and 0 iff none |
| Common.TimedeltaSeconds | utils/security_manager.py:72 | Python's `timedelta.seconds`: in [0, 86400), equal to the whole seconds elapsed when under a day |
| Common.KeepLast | cloud_logger.py:70 | min(n, len) elements, and the whole list when it has at most n |
| Common.KeepLastElements | cloud_logger.py:70 | the elements kept are the last ones of the list, in order |

## Left out

- Distances: the source takes `sqrt` of squared coordinate differences. Threshold tests
  are stated on squared distances, which is exact for non-negative distances. Argmins use
  squared distances too, which gives the same argmin. The terms that are linear in the
  distance take the per-hotspot distances as a non-negative parameter.
- Floating point: values are Dafny reals. `round(x, 2)` is modelled as rounding half up
  (`Round2`). Python rounds the binary float, with ties to even, so a tie may round the
  other way.
- String formatting: the `f"{x:.1f}%"` metrics, the currency strings, `round(d*111, 2)`
  and the popup and toast texts are not modelled. Metrics are the underlying numbers.
- Randomness and the clock: `random.*`, `np.random.*` and `datetime.now()` are
  parameters (draws, month, hour, minute, weekday and seconds).
- Dates: the dates of the mining operations rows are not modelled, only their weekday.
- Telegram: the HTTP call, `st.secrets` and the message texts are not modelled. Delivery
  is the oracle `delivered` or `transport`. The results of the current alerts, which the
  source ignores, are not used.
- Files and environment: the file logs (access, security and CEO logs), the
  `export_logs` JSON, the `_get_source` environment detection and `hash_password` are
  not modelled. The source tag is a parameter.
- `generate_risk_map_data` and its optimized variant are not modelled. They are grid
  loops that only feed the predictor.
- PredictionEngine.PollutionPredictor.PredictPollutionRisk: the cache key is the rounded
  latitude and longitude with the river name. The rounding of the key is not modelled; the key
  is built from the given values.
- The external satellite and weather lookups are not modelled. Their observations are a
  parameter of the prediction.
- Streamlit, folium and plotly are not modelled: widgets, layout, CSS, the audio beeps,
  `display_map` and the geofence drawing. Maps are modelled as lists of markers and
  zones.
- pandas is not modelled: frames are sequences of records, and upload parsing and
  `pd.to_numeric` coercion are left out. A NaN mean of an empty frame is `None`. A
  missing overlay score is `None` and counts as 0, as the source does.
- The mining portal's average turbidity, pH, delta strings and water-usage charts are
  not modelled. They are display-only.
- The static pitch content, the one-pager page and the feature lists of the pricing
  tiers are left out, beyond the fallback rule.
- Session keys that the dashboard shares between `app.py` and the live system are
  separate fields of `App.Session` and `EnhancedLive.EnhancedLiveSystem`. One example is
  `previous_critical_count`.
- PredictionEngine.GetNearestHotspot: the nearest hotspot's `distance_km` is rounded to 2
  decimals (`round(d * 111, 2)`) before the `< 50` km test that adds the hotspot factor.
  The model tests the unrounded distance, so a hotspot between 49.995 and 50 km is treated
  differently.
- Default arguments: `generate_client_portal(client_type='government')` and
  `get_recent_logs(log_type='access', limit=10)` have defaults in the source. The model's
  callers always pass every argument, so the defaults are not modelled.
- EnterpriseFeatures.TitleFrom: `str.title()` is modelled for ASCII letters only. Other
  characters count as non-letters.
- SecurityManager.CheckSessionTimeout: the access level comes from the session state,
  which is passed in as a parameter.

## Findings

| source | as written | input that shows it | evidently intended | confidence | as-written member | corrected member |
|---|---|---|---|---|---|---|
| utils/security_manager.py:72-73 | the elapsed time is `(now - access_time).seconds`, which drops whole days, so a session more than a day old is compared on its leftover seconds only | access at time 0 with the default level (1800 s), checked 86410 s later: the leftover is 10 s, so the session is not timed out | compare the whole elapsed time (`total_seconds()`) with the timeout, so an expired session stays expired | not executed | SecurityManager.TimeoutMissesWholeDays | SecurityManager.CheckSessionTimeoutTotal |
