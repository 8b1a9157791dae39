# Meerkat: verified model of the monitoring server

Meerkat collects reports from agents, keeps the latest ones in memory, stores one averaged row
per server and minute, accounts monthly traffic, sends alerts and draws a dashboard. This
project models that pipeline in Dafny and proves what it computes.

The objects the program updates in place are classes (`Hub` with its ring objects, `Store`,
`Notifier`, `SessionMgr`, `Agent`, `Api`); its loops are loops. Every method is proved against a
specification function, and the lemmas are about those functions and about whole runs of them.
Time is an argument everywhere. Floating-point numbers are exact reals; integers wrap at 64 bits
where the traffic arithmetic can overflow.

| file | content |
|---|---|
| `GoNumbers`, `GoSlices`, `Arithmetic`, `Seqs`, `Records` | Go's integers and slices, nonlinear facts, sequences, the records |
| `Aggregation`, `StreamBatch`, `Hub` | the minute aggregator, its agreement with the batch, the hub object |
| `MinuteTable`, `Storage` | history, pruning, the store and its tables |
| `Broadcast`, `BroadcastHistory`, `BroadcastDelivery` | the WebSocket hub as a step system over all interleavings, its state given by the actions alone, delivery |
| `RateLimit`, `AlertRules`, `Notifier` | repeat limits, what one round of each check decides, the notifier object |
| `Traffic`, `TrafficAlerts`, `MonthlyRace` | monthly accounting, 5% bands, overlapping base updates |
| `StableSort`, `Dashboard`, `Rankings` | the insertion sorts, the traffic series, the rankings |
| `Tokens`, `Sessions`, `HumanBytes`, `AgentRates` | token table, session table, unit scaling, counter differencing |
| `Api`, `ServerMachine` | the handlers, and the running server as one state machine of interleaved steps |
| `ServerRuns`, `AdminRuns`, `AlertRuns`, `TrafficRuns`, `Pipeline` | what holds over all its runs: attribution, stored minutes, settings, usage shown, alerts sent |
| `Scenarios`, `LateHandlers`, `LoudAlerts`, `SilentAlerts` | runs from an empty database: handlers that come late, an alert on memory, and three documented alerts that are not sent |

Run `dafny verify dfyconfig.toml` for everything.

## Main results

- The online, bucket-rolling aggregator stores exactly the group-by-minute averages
  (`StreamEqualsBatch`); without any assumption on the clock nothing is counted twice or
  dropped before the flush (`Conservation`), a row averages the last visit to its minute
  (`RowIsLastVisit`), and it is complete if and only if the clock entered the minute once
  (`RowCompleteIffVisitedOnce`).
- In every interleaving of the WebSocket goroutines the hub is safe, its loop is never stuck, each
  take delivers the next payload queued (`QueueFollows`), and delivery is an in-order subsequence
  with exact accounting of drops (`DeliveryIsOrdered`).
- `ServerMachine` interleaves report handlers (token, read of the base, write of the base, reading
  of the clock, hub), administration, rule edits, prunes and the notifier's queries and visits.
  Over all its runs: whose reports are taken (`ReportIsAttributed`), what every stored minute is
  (`StoredMinutesOfServer`) and when it is the batch average (`StoredIsBatchIff`,
  `StoredMinutesAreBatches`), what usage is shown (`ListingShowsMonthlyDeltas`), and which alerts
  are sent: the unique greedy selection their cooldown describes (`OfflineAlertsAreGreedy`,
  `LoadAlertsAreGreedy`), one reminder a day (`RemindsOncePerDay`) of exactly the expiring servers
  (`ReminderNamesExpiring`), each traffic band of five percent once (`TrafficAlertsOfMonth`).
- Monthly usage equals the counted traffic exactly when no counter restarted, and monthly bills
  telescope to the traffic of the whole run.
- The dashboard series does not depend on map order and conserves traffic.
- From the reports alone one can say which rows a query returns, when a load alert is sent and
  when an offline alert is wanted (`Pipeline`).

## Where the code differs from what is said about it

- Offline alerts are documented, but the check reads a listing in which the last-seen time is
  never filled (internal/server/store.go:181-205), so no run sends one (`CodeSendsNoOffline`);
  code and documentation agree if and only if none is wanted (`OfflineAsDocumentedIff`,
  `OfflineButSilent`). The rule itself is correct on a listing completed by the hub.
- A load rule for "all servers" (internal/model/types.go:156) is looked up as if the empty id
  were a server and stays silent (`AllServersRuleIff`, `LoadedButSilent`).
- The traffic level is kept across months, so a new month's first alert can be missing
  (`EveryBandAnnouncedIff`, `StaleLevelSilences`).
- The rankings are meant to be cut to five but are returned whole (`RankIsNotCut`, `RankIsShortIff`).
- The counters are totals since boot, so a restart inside a month hides traffic
  (`UsageEqualsGainsIff`).
- The store is described as safe for concurrent use, but reports of one server that overlap at the
  turn of the month can move its base (`BaseIsFirstIff`, `LaterBaseHidesTraffic`).
- A handler reads the clock (internal/server/api.go:156) before the hub takes its lock
  (internal/server/hub.go:93), so handlers of one server can overtake each other: under a perfect
  clock a minute is entered twice and its row loses reports (`OvertakingLosesReports`). The row is
  complete if and only if the minute was entered once (`StoredIsBatchIff`), as it is when the
  server's reports do not overlap (`ReportsInOrder`).
- A deletion does not wait for handlers, so one in flight can store a minute of a deleted server
  (`LateHandlerRestoresRow`); without one nothing comes back (`DeletedStaysGone`).
- A client whose removal is consumed before its registration stays in the hub for good
  (`LeavesTheHubIff`).
- An expiry reminder set to N days lists servers with less than N + 1 days left (`ExpiringIff`).

## Model

| member | source | states |
|---|---|---|
| Aggregation.BucketIff | internal/server/hub.go:104 | A time belongs to bucket b exactly when b is a multiple of 60 and b <= now < b + 60 (b - 60 < now <= b for times before 1970). |
| StreamBatch.RingIsOpenBucket | internal/server/hub.go:104-124 | Under any clock, a server has a ring exactly when it has reported, the ring is of its last report's minute, and it is never empty. |
| StreamBatch.Conservation | internal/server/hub.go:104-156 | Under any clock, at every server and minute, the flush calls so far plus the open ring account for each report exactly once, in count and in all eight sums; there are as many of them as the clock entered that minute. |
| StreamBatch.RowIsLastVisit | internal/server/hub.go:104-156 | Under any clock, the row of every minute averages the reports of the last visit to it that has ended; a minute never left keeps what was stored before. |
| StreamBatch.RowCompleteIffVisitedOnce | internal/server/hub.go:104-156 | Under any clock, the row of a minute that is no longer open averages the last visit to it; it covers every report of the minute if and only if the clock entered the minute once, and then it is the batch row. |
| StreamBatch.StreamEqualsBatch | internal/server/hub.go:92-156 | If a server's clock never runs backwards, then after any interleaved run, whatever other clocks do, its row exists exactly for closed minutes (or was stored before), equals the group-by-minute average there, and is untouched elsewhere. |
| GoNumbers.TruncIff | internal/server/hub.go:150-151 | The conversion of a float to an integer gives k exactly when k <= x < k + 1, or k - 1 < x <= k below zero. |
| StreamBatch.RowIsMeans | internal/server/hub.go:140-152 | A row is, field by field, the mean over the reports it averages of CPU, memory %, disk %, in, out and load; its connections and uptime are those means without their fraction, the integer k with k <= mean < k + 1 (towards zero below it). |
| StreamBatch.FlushTimesIncrease | internal/server/hub.go:105-112 | With such a clock the server's flush times strictly increase, so REPLACE never overwrites a row of this process. |
| StreamBatch.ClockStepBackLosesReports | internal/server/hub.go:105-112 | For any two minutes and any reports: going t, t', t, t' leaves the row of t without its first report. |
| StreamBatch.ClockStepBackRowIsWrong | internal/server/hub.go:105-112 | The row after such a step differs from the batch row whenever the two loads differ. |
| StreamBatch.RowBounds | internal/server/hub.go:114-152 | A row's CPU, memory, disk, in, out and load lie between the least and the greatest of the reports it averages (which reports those are under any clock: RowIsLastVisit, EveryStoredRow). |
| StreamBatch.SaneRow | internal/server/hub.go:114-163 | A row that averages reports with CPU in [0, 100] and used at most total has CPU, memory and disk in [0, 100] (for every stored row of a run: EveryRowIsSane). |
| StreamBatch.RecentIsTail | internal/server/hub.go:94-102 | After any run a server's recent buffer has min(k, 120) elements, element by element the last of its k reports in order; its latest report is the last of them, and its last-seen time is that report's. |
| RealtimeHub.ReportRing.Add | internal/server/hub.go:114-123 | The in-place additions put one report's sample into the ring and count it. |
| RealtimeHub.FlushPoint | internal/server/hub.go:140-156 | The divisions over the ring's fields store exactly the average row that the batch comparison uses. |
| RealtimeHub.Hub.AddToRing | internal/server/hub.go:104-123 | The ring object is reused or replaced after a flush; no other server's ring changes and no two servers share one. |
| RealtimeHub.Hub.Ingest | internal/server/hub.go:92-138 | One report moves the maps, the rings, the table and the broadcast channel as the aggregator's step says; a full channel drops the message. |
| RealtimeHub.Hub.AugmentFull | internal/server/hub.go:192-207 | Every listed server gets its last-seen time (0 if none), a copy of its latest report if there is one, and is online when last seen less than 60 s ago. |
| RealtimeHub.Hub.Remember | internal/server/hub.go:97-102 | The append, in place behind the window or into a larger array, and the cut to 120 change only the reporting server's buffer; no two servers share an array. |
| RealtimeHub.Hub.Recent | internal/server/hub.go:210-217 | A new array with the server's buffer, which RecentIsTail describes. |
| RealtimeHub.Hub.CopyIsKept | internal/server/hub.go:210-217 | The copy is unaffected by any number of later reports. |
| MinuteTable.HistorySince | internal/server/store.go:463-480 | The query's answer: exactly the server's rows at or after the bound, strictly ascending in time. |
| MinuteTable.GroupByServer | internal/server/store.go:491-499 | The row-scanning loop gives each server its own rows in result order, and no entry to servers without rows. |
| MinuteTable.GroupedIsHistory | internal/server/store.go:483-501 | Grouping the all-servers result yields each server's own history whatever order rows of equal time come in. |
| MinuteTable.CutoffInSeconds | internal/server/store.go:504-510 | The cutoff lies 86400 s a day kept back, 2592000 s when not positive. |
| MinuteTable.PruneInvisibleIff | internal/server/store.go:504-514 | A history query is unchanged by a prune if and only if the server has no row between the query's bound and the cutoff. |
| MinuteTable.PruneInsideRetention | internal/server/store.go:463-514 | A query made no earlier than the prune over a window of at most 86400 s a day kept (2592000 s when not positive) sees the same rows, asked for one server or for all. |
| MinuteTable.PruneCutsLongWindows | internal/server/store.go:463-514 | A longer window loses a row as soon as one lies in the gap. |
| Storage.RulesInOrder | internal/server/store.go:520 | Rules are listed in order of their ids. |
| Storage.Store.CreateServer | internal/server/store.go:210-235 | Inserts a row with the token and its digest, no expiry, no limit, "sum", notification after 60 s and no base; fails on an empty name or an existing id and then changes nothing. |
| Storage.Store.ResetToken | internal/server/store.go:334-346 | Replaces token and digest of an existing server and nothing else; fails on a missing one. |
| Storage.Store.DeleteServer | internal/server/store.go:320-331 | Removes exactly the server's row, its minutes and its load rules. |
| Storage.Store.ServerUUIDByToken | internal/server/store.go:383-394 | Empty token: none; else a plaintext match, else a digest match, else none. |
| Storage.Store.ListServers | internal/server/store.go:349-364 | Lists every row exactly once, with a last-seen time of 0. |
| Storage.Store.MonthlyTrafficRecord | internal/server/store.go:431-449 | Moves the base exactly when the stored month differs; returns the base in force; zeros for a missing server. |
| Storage.Store.QueryRecent | internal/server/store.go:483-489 | Every row at or after the bound once, ordered by time only. |
| Storage.Store.AllRecentHistory | internal/server/store.go:483-501 | Each server with rows gets its ascending history; no other key. |
| Storage.Store.PruneHistory | internal/server/store.go:504-514 | Keeps exactly the rows of the last 86400 s a day kept, 2592000 s when not positive, and returns how many it removed. |
| Tokens.RowHoldsCurrent | internal/server/store.go:210-346 | After any run of create, reset and delete, each row holds the digest of the token issued last, and its plaintext or (migrated rows) nothing. |
| Tokens.LookupFindsCurrentOwner | internal/server/store.go:383-394 | After any run with fresh tokens, a token is accepted for a server exactly when it was issued last to it and it still exists; migrated rows included. |
| Tokens.PlaintextAgreesWithDigest | internal/server/store.go:388-393 | The two lookup queries never disagree. |
| Sessions.SessionMgr.IsValid | internal/server/api.go:37-49 | Answers from the table and drops the entry exactly when it is expired. |
| Sessions.TableHoldsLive | internal/server/api.go:29-55 | Under any clock the table holds exactly the sessions not ended and not yet looked up too late. |
| Sessions.ValidIffRecentlyCreated | internal/server/api.go:18-55 | Valid exactly when created at most seven days of 86400 s ago and not destroyed since. |
| Sessions.LookupsUnobservable | internal/server/api.go:37-49 | Removing all lookups from the history changes no answer. |
| Broadcast.StepKeepsInv | internal/server/hub.go:69-88 | Every step of every goroutine keeps the protocol invariant. |
| Broadcast.RunsAreSafe | internal/server/hub.go:69-442 | In every interleaving: no send to a closed channel, no second close, at most 16 messages wait in each control channel, 128 in the broadcast channel and 64 for each client. |
| BroadcastHistory.LoopFollows | internal/server/hub.go:79-85 | In every interleaving the loop is in a fan-out from taking a payload to its end, with exactly the registered clients not offered it yet to go. |
| BroadcastHistory.ConnFollows | internal/server/hub.go:394-442 | How far a connection's reader has come and whether its writer runs are given by its own actions. |
| BroadcastHistory.QueueFollows | internal/server/hub.go:421-432 | A take moves the head of the queue to the connection: taken are the first payloads queued, as many as were taken, and the rest wait. |
| BroadcastHistory.ChannelsAreFifo | internal/server/hub.go:69-88 | The three channels are first in, first out, and lose nothing once it is in. |
| BroadcastHistory.WhoCanGo | internal/server/hub.go:126-137 | A publisher is never held up; a reader only by 16 waiting messages; a writer goes on exactly while something is queued, or once its channel is closed and drained. |
| BroadcastDelivery.LoopNeverBlocks | internal/server/hub.go:69-88 | In every reachable state the loop can serve any pending channel, offer to any remaining client, and finish a fan-out. |
| BroadcastDelivery.LoopActionsPersist | internal/server/hub.go:69-88 | No other goroutine can disable what the loop can do or change its own state. |
| BroadcastDelivery.DeliveryIsOrdered | internal/server/hub.go:79-85 | In every interleaving, what a client's writer has taken are the first payloads queued for it, as many as it took, and the rest wait in order; what was queued is an in-order subsequence of the payloads broadcast while it was registered, and what is missing is being offered or was dropped at 64 waiting, in exact numbers. |
| BroadcastDelivery.BroadcastsArePublished | internal/server/hub.go:126-137 | What the loop has broadcast and what waits in the channel is an in-order subsequence of what was published; what is missing was published while 128 payloads waited, in exact numbers. |
| BroadcastDelivery.DeliveredWasPublished | internal/server/hub.go:126-137 | What a connection's writer has taken, one payload at each of its takes, is an in-order subsequence of what was published. |
| BroadcastDelivery.LeavesTheHubIff | internal/server/hub.go:72-78 | Once both messages of a disconnected client are consumed, it has left the map with its channel closed if and only if its registration was consumed first. |
| BroadcastDelivery.LeakIsPermanent | internal/server/hub.go:72-78 | Otherwise it stays registered with an open channel in every continuation. |
| BroadcastDelivery.LeakHappens | internal/server/hub.go:394-410 | An interleaving in which that happens. |
| RateLimit.FiredIsGreedy | internal/server/notify.go:95-105 | The persistent mark selects greedily: a wanted check alerts exactly when it keeps its gap to the start and to all earlier alerts. |
| RateLimit.GreedyUnique | internal/server/notify.go:95-105 | There is one greedy selection. |
| RateLimit.FiredTimesSpaced | internal/server/notify.go:95-105 | Where every gap is at least g, the times of the alerts are g apart and from the first mark. |
| RateLimit.WindowBound | internal/server/notify.go:95-105 | Of times spaced by g, any window of w seconds holds at most 1 + w/g. |
| AlertRules.OfflineDueIsLimited | internal/server/notify.go:79-98 | The guards together: notification on, has reported, silent for max(60, grace) seconds, and the cooldown over. |
| AlertRules.MarkedWhenAlerted | internal/server/notify.go:99-105 | A round marks exactly the servers it alerts for and changes nothing else. |
| AlertRules.OfflineAsDocumentedIff | internal/server/notify.go:73-98 | The check on the table's listing does what the rule says on the listing completed by the hub if and only if no listed server has been silent long enough with its last alert 1800 s ago. |
| AlertRules.LoadWantedIff | internal/server/notify.go:131-144 | A rule wants an alert exactly when there are points and the share of those over its threshold, by memory for "ram" and else by CPU, is at least its ratio. |
| AlertRules.LoadWantedGrows | internal/server/notify.go:131-144 | The load decision is monotone in every sample and antitone in the threshold. |
| AlertRules.RuleMarkedWhenAlerted | internal/server/notify.go:150-157 | A round marks exactly the rules it alerts for. |
| AlertRules.ExpiringIff | internal/server/notify.go:188-196 | A server is listed exactly when it has an expiry and less than days + 1 full days remain, or days is 106751 or more, where durations end. |
| AlertRules.ReminderNames | internal/server/notify.go:188-210 | The list names exactly the servers that expire so, in listing order, each once. |
| AlertRules.TrafficRoundPerServer | internal/server/notify.go:228-246 | A round moves each checked server's recorded level by one step of the band rule and leaves the others. |
| AlertRules.TrafficAlertPerServer | internal/server/notify.go:238-256 | A round alerts for a checked server exactly when that step does. |
| NotificationEngine.Notifier.CheckOfflineOf | internal/server/notify.go:79-106 | The loop alerts for and marks exactly the due servers of its list, in order. |
| NotificationEngine.Notifier.CheckOffline | internal/server/notify.go:73-107 | As called on the table's listing: no offline alert is ever sent and nothing is marked. |
| NotificationEngine.Notifier.RatioReached | internal/server/notify.go:127-144 | The counting loop decides whether the share of points over the threshold, by memory for "ram" and else by CPU, is at least the ratio. |
| NotificationEngine.Notifier.CheckLoad | internal/server/notify.go:110-159 | Alerts and marks follow the rule decision over the ten minutes of stored history before the history was asked for. |
| NotificationEngine.Notifier.CheckExpiry | internal/server/notify.go:177-212 | Sends one reminder, unless disabled, empty or already sent that day; it names exactly the servers with less than days + 1 days left, in listing order, each once. |
| NotificationEngine.Notifier.CheckTraffic | internal/server/notify.go:219-259 | Alerts and recorded levels follow the band rule over the listing and the latest reports. |
| Traffic.UsedIsClampedWrap | internal/server/notify.go:262-277 | The chain of int64 operations shows what was sent ("up"), received ("down") or both since the base, wrapped to 64 bits and not below 0. |
| Traffic.UsedExactIff | internal/server/notify.go:262-277 | It is the exact clamped difference d if and only if d fits in int64 or lies in [-2^64 - 2^63, -2^64]. |
| Traffic.BaseIsMonthStart | internal/server/store.go:431-449 | After any run the base is the totals of the first report of the current month, unless the month was already running; no other column moves. |
| Traffic.BilledFromUnbilled | internal/server/store.go:435-448 | A month already running when the run begins counts from the base it has, as if that had been its first report. |
| Traffic.MonthStartSplitsMonths | internal/server/store.go:440-448 | With months that advance, that stretch is every report of the month. |
| Traffic.UsageIsWrappedGains | internal/server/notify.go:262-277 | For arbitrary counters and any size, usage is gains less drops since the first report of the month, wrapped to 64 bits and not below 0. |
| Traffic.UsageEqualsGainsIff | internal/server/notify.go:262-277 | For arbitrary counters, usage is gains less drops, clamped; it equals the traffic gained if and only if no counter dropped or nothing was gained. |
| Traffic.UsageIsSumOfDeltas | internal/server/notify.go:262-277 | With growing counters usage is the sum of the month's deltas and 0 at the month's first report. |
| Traffic.UsageNeverFalls | internal/server/notify.go:262-277 | Within a month it never falls. |
| Traffic.BillsConserveTraffic | internal/server/store.go:431-449 | With growing counters, monthly usages plus the gaps between months telescope to the traffic of the whole run, so they never exceed it; a month already running when the run begins counts from the base it has. |
| Traffic.RestartLosesTraffic | internal/server/notify.go:263-266 | A counter that restarts: 14 bytes gained, 4 shown. |
| TrafficAlerts.PctExactIff | internal/server/notify.go:237 | The percentage is exact, rounded down, if and only if used*100 stays below 2^63. |
| TrafficAlerts.LevelIsBand | internal/server/notify.go:242 | The level is pct / 5: a band is five percent wide. |
| TrafficAlerts.NextBandAlerts | internal/server/notify.go:241-249 | Of two checks in a row over the threshold the second alerts exactly when it finds another five percent. |
| TrafficAlerts.AlertsOncePerBand | internal/server/notify.go:237-249 | While usage rises, a check alerts exactly when it is the first to find its five percent (pct / 5), except the first one over the threshold when the left-over level is its own; the recorded level is then pct / 5. |
| TrafficAlerts.EveryBandAnnouncedIff | internal/server/notify.go:241-249 | Every five percent reached is announced if and only if the left-over level is not that of the first check over the threshold. |
| TrafficAlerts.BandsAnnounced | internal/server/notify.go:237-249 | Over a rising usage the alerts announce, in rising order and once each, all bands of five percent some check finds over the threshold, except the first when it was left over. |
| TrafficAlerts.StaleLevelSilencesNextMonth | internal/server/notify.go:214-249 | A month that ended at 82% silences the next month's 80% alert. |
| MonthlyRace.SerialCallsRefresh | internal/server/store.go:431-449 | If no call reads while another has yet to write, the row follows the reports as if each call were one step. |
| MonthlyRace.BaseIsFirstIff | internal/server/store.go:431-449 | Calls that found the old month together leave the totals written first as the base, in every order of their writes and whatever calls begin meanwhile, if and only if all of them carry the same totals. |
| MonthlyRace.LaterBaseHidesTraffic | internal/server/notify.go:262-277 | Otherwise the usage shown later is short by exactly what was counted between the first and the last of the written totals. |
| MonthlyRace.OverlapMovesBase | internal/server/store.go:431-449 | Two overlapping calls with 100 and 130 bytes: at 150 the month shows 20 instead of 50. |
| Dashboard.BucketTraffic | internal/server/api.go:823-838 | In any map order, buckets and per-server totals hold the sums over all servers' points. |
| Dashboard.TrafficSeries | internal/server/api.go:822-848 | The series is strictly ascending with one point per distinct time, each the sum over all servers. |
| Dashboard.SeriesUnique | internal/server/api.go:827-847 | There is only one such series, so map iteration order cannot show. |
| Dashboard.SeriesConservesTraffic | internal/server/api.go:826-841 | In each direction the series adds up to all stored points, and both together to the sum of the per-server totals. |
| StableSort.InsertionSort | internal/server/api.go:843-847 | The nested swap loops sort in place, keep all elements, and keep elements of equal key in order. |
| StableSort.SortedStableUnique | internal/server/api.go:911-916 | Sorted and stable determine the result. |
| Rankings.SortRank | internal/server/api.go:911-920 | Sorts the caller's items, stable and descending; the cut to five shortens a local slice header only, and the caller still sees every item. |
| Rankings.LoadRank | internal/server/api.go:875-910 | One entry per server with points, its mean and peak, greatest first. |
| Rankings.TrafficRank | internal/server/api.go:866-874 | One entry per server, its total and peak, greatest first. |
| Rankings.SumConcat | internal/server/api.go:883-892 | The sums behind a mean add up over points, from the values themselves. |
| Rankings.LoadItemIsMean | internal/server/api.go:883-901 | An entry's value times its number of points is the sum of the metric, and its peak the greatest of it (0 if none is above). |
| Rankings.TrafficItemIsTotal | internal/server/api.go:866-874 | An entry's value is what came in and went out altogether, and its peak the greatest in plus out of a minute. |
| Rankings.PrefixIsTopFive | internal/server/api.go:911-920 | No server outside the first five has a greater value than any in them. |
| Rankings.RankIsNotCut | internal/server/api.go:917-919 | The returned ranking has one entry per server, however many. |
| Rankings.RankIsShortIff | internal/server/api.go:917-919 | The ranking keeps to five entries if and only if no more servers have points. |
| Rankings.SixAreRanked | internal/server/api.go:917-919 | Six servers with one point each: six entries. |
| Rankings.RankValuesUnique | internal/server/api.go:866-916 | Map order can only permute entries of equal value. |
| Rankings.MeanWithinPeak | internal/server/api.go:883-901 | For percentages 0 <= value <= peak <= 100. |
| HumanBytes.HumanBytes | internal/server/notify.go:279-290 | From 1024 up: div = 1024^(exp+1), div <= b < 1024*div, exp indexes the unit table, nothing overflows. |
| HumanBytes.UnitUnique | internal/server/notify.go:284-289 | No other exponent satisfies that. |
| AgentRates.OneTotal | internal/agent/agent.go:196-204 | One interface counts unless the include list leaves it out, the exclude list names it or its name begins like a virtual one's; received bytes count as in, sent ones as out. |
| AgentRates.TotalsConcat | internal/agent/agent.go:195-204 | Totals add up over interfaces. |
| AgentRates.RateIff | internal/agent/agent.go:207-214 | The rate is r exactly when r*dt <= gain < (r + 1)*dt, and 0 for a fallen counter or a clock that did not advance. |
| AgentRates.Agent.CollectNet | internal/agent/agent.go:192-219 | Totals modulo 2^64 over the selected interfaces (OneTotal, TotalsConcat); no rate at first, else that of RateIff; the sample is remembered. |
| AgentRates.RatesIntegrateToGains | internal/agent/agent.go:207-218 | Integrating the rates gives back what a counter gained, short by less than one byte per second, whatever resets happen. |
| ApiHandlers.Api.HandleAgentReport | internal/server/api.go:88-161 | Undisturbed: a bad token changes nothing; an accepted report refreshes its server's base and then enters the hub, in one joint new state. |
| ApiHandlers.Api.FillTraffic | internal/server/api.go:186-206 | In place, every entry with a report and a row gets used and remaining traffic; an entry without one is as it was. |
| ApiHandlers.FilledSplitsLimit | internal/server/api.go:193-202 | A filled entry shows the usage, and splits its limit into used and remaining or shows -1 without a limit. |
| ServerMachine.UndisturbedReport | internal/server/api.go:93-159 | The five steps of a handler (token, read of the base, write of the base, clock, hub) run without a break have the effect of HandleAgentReport. |
| ServerMachine.UndisturbedOffline | internal/server/notify.go:79-106 | An offline listing visited without a break sends and marks what the loop of CheckOfflineOf does. |
| ServerMachine.UndisturbedLoad | internal/server/notify.go:123-158 | So for the load rules and CheckRules. |
| ServerMachine.UndisturbedTraffic | internal/server/notify.go:228-258 | So for the traffic check and CheckTraffic. |
| ServerRuns.LookUpIsAttributed | internal/server/store.go:383-394 | After any interleaving a lookup finds a server exactly when the token is the one issued last to it and it still exists. |
| ServerRuns.ReportIsAttributed | internal/server/api.go:93-159 | A report the hub takes as a server's was brought under the token current when it was looked up, and each lookup is taken at most once; the server may have been deleted or given another token in between. |
| ServerRuns.HubFollowsLog | internal/server/api.go:156-159 | In every interleaving the hub's state is that of the log of taken reports alone. |
| ServerRuns.StoredMinutesOfServer | internal/server/api.go:141-159 | Over all runs, under any clocks and however handlers overlap: every minute of every server is stored as its history has it, the average of the visit that a report ended last, or what was found at the start; gone once deleted or pruned. |
| ServerRuns.ExpectedIsLastVisit | internal/server/hub.go:104-112 | Without a deletion or a prune that is the last ended visit of the log of taken reports. |
| ServerRuns.StoredIsBatchIff | internal/server/hub.go:104-156 | Without a deletion or a prune, the stored row of a minute that is left covers all reports taken in it if and only if the minute was entered once, and then it is the batch average. |
| ServerRuns.ReportsInOrder | internal/server/api.go:156-159 | If a server's reports do not overlap and the clock readings made for them never go back, the hub takes them in clock order. |
| ServerRuns.StoredMinutesAreBatches | internal/server/api.go:141-159 | For such a server, never deleted or pruned, the stored row is the batch average of exactly the reports taken as its own once the minute is closed, and until then what was stored before. |
| ServerRuns.EveryStoredRow | internal/server/hub.go:140-156 | Over all runs, every stored row was found at the start, or averages, and lies between the extremes of, reports taken as its own server's in its own minute. |
| ServerRuns.DeletedStaysGone | internal/server/store.go:320-331 | Once a server has no row, no stored minute and no handler in flight, none of them comes back unless a server of that id is created, whatever its ring still holds. |
| ServerRuns.BaseFollowsCalls | internal/server/store.go:431-449 | In every interleaving the monthly base is what the server's calls of MonthlyTrafficRecord make of it, so the results of MonthlyRace apply to the whole server. |
| ServerRuns.ListingShowsMonthlyDeltas | internal/server/api.go:141-206 | After any run from any database, the listing shows for a server (created before or during the run) whose reports do not overlap what its counters gained less what they lost since the first recorded report of the month, or since the base of a month already running, modulo 2^64 and not below 0; in 64 bits that is the traffic gained if and only if nothing dropped or nothing was gained. |
| AdminRuns.SettingsFollow | internal/server/store.go:210-331 | After any run a server exists with exactly the settings it was configured with last, or those of its creation, whatever reports and visits come in between. |
| AdminRuns.RulesFollow | internal/server/store.go:320-569 | After any run a rule is in the table exactly as created or edited last, unless it or its server was deleted. |
| AlertRuns.OfflineAlertsAreGreedy | internal/server/notify.go:73-107 | Over any run, under any clock, the offline alerts appended for a server are the greedy selection, 1800 s apart, of its visits that want one. |
| AlertRuns.OfflineWindowBound | internal/server/notify.go:95-98 | They are 1800 s apart, and any window of w seconds holds at most 1 + w/1800 of them. |
| AlertRuns.CodeSendsNoOffline | internal/server/notify.go:73-92 | With the code's own listings no run sends any. |
| AlertRuns.LoadAlertsAreGreedy | internal/server/notify.go:110-159 | Over any run, edits of the rule included, the alerts appended for a rule are the greedy selection of its visits that want one, each spaced by the interval then in force. |
| AlertRuns.RemindsOncePerDay | internal/server/notify.go:177-212 | Over any run whose days advance, reminders go out for exactly the days on which some check lists a server with less than days + 1 days left, except a day reminded of before the run; each once, in order. |
| AlertRuns.ReminderNamesExpiring | internal/server/notify.go:188-210 | A reminder sent in any run names exactly the servers of the table that expire, each once. |
| TrafficRuns.TrafficFollowsVisits | internal/server/notify.go:228-256 | Over any run with one threshold, the recorded level and the alerts appended for a server follow the percentages its visits find. |
| TrafficRuns.TrafficAlertsOfMonth | internal/server/notify.go:219-259 | Within a month of growing counters each visit finds the month's traffic as a percentage rounded down, and the alerts appended announce the bands of five percent found in rising order, once each, but for the left-over one. |
| LateHandlers.OvertakingLosesReports | internal/server/api.go:156-159 | Two handlers of one server overtake each other between the clock reading and the hub: the readings never go back, a minute is entered twice, and its row averages the late report alone. |
| LateHandlers.LateHandlerRestoresRow | internal/server/api.go:156-159 | A handler in flight while its server is deleted stores a minute of the deleted server. |
| LoudAlerts.MemoryAlone | internal/server/notify.go:123-157 | A run from an empty database in which a "ram" rule alerts on memory alone, whatever the CPU. |
| SilentAlerts.AllServersRuleIff | internal/server/notify.go:123-130 | After any run that names its servers, a rule does what is documented if and only if it names a server, or its interval is not over, or no server wants the alert. |
| SilentAlerts.LoadedButSilent | internal/server/notify.go:110-130 | A run from an empty database, at any time and over any window that reaches back to its first minute: every stored minute is over the threshold, an alert for all servers is meant, and the check sends none. |
| SilentAlerts.OfflineButSilent | internal/server/notify.go:73-92 | The same run, long after the last report: the completed listing wants an offline alert and the check sends none. |
| SilentAlerts.StaleLevelSilences | internal/server/notify.go:214-249 | A run over two months: 82% is announced in the first, and the 81% visited first in the second is not. |
| Pipeline.HistoryIsExpected | internal/server/store.go:463-480 | After any run, prunes, deletions and an earlier database included, a history query returns exactly the expected rows (StoredMinutesOfServer) of the minutes asked for. |
| Pipeline.HistoryIsBatch | internal/server/store.go:463-480 | For a server whose reports do not overlap, with a clock that never goes back, it returns exactly the batch averages of the closed minutes asked for and what was found at the start. |
| Pipeline.LoadAlertFromReports | internal/server/notify.go:118-144 | After any run, a rule wants an alert exactly when some of its server's minutes in the window are expected to be stored and the share of them at or over the threshold, by memory for "ram" and else by CPU, reaches the ratio. |
| Pipeline.LoadAlertSent | internal/server/notify.go:110-158 | Visiting a rule in any run, the notifier sends its alert exactly when the interval is over and, at the moment the history was read, enough of the expected minutes were at or over the threshold. |
| Pipeline.ListingFromReports | internal/server/hub.go:192-207 | After any run a completed entry is online exactly when last seen less than 60 s ago, and carries the last report taken as its server's. |
| Pipeline.OfflineFromReports | internal/server/notify.go:79-94 | On a listing completed by the hub an offline alert is wanted exactly when the last report is at least a minute and a grace period old. |
| Pipeline.EveryRowIsSane | internal/server/hub.go:114-163 | After any run, under any clock, every stored row of a server whose agent reports sane loads has CPU, memory and disk in [0, 100]. |
| Pipeline.RankingsInRange | internal/server/api.go:875-910 | After any run and over any window its CPU and memory ranking entries satisfy 0 <= value <= peak <= 100. |

## Left out

- HTTP routing, JSON, cookies, login and password hashing, WebSocket frames and timeouts: transport around the core.
- Sending an alert: a call of `Send` is recorded as an event; channel selection, templates and the messages' text are not modelled.
- The round itself (`check`, internal/server/notify.go:61-70): the four checks follow each other in a fixed order when notifications are enabled; here any check may come when the last has ended.
- Steps finer than a statement: the three statements of a deletion, the two queries of a token lookup (internal/server/store.go:388-393), the expiry check with its one mark, and a hub update with its flush are one step each.
- A restart of the process: a run starts with some database and empty memory; two processes are two runs.
- SQL, the driver and its errors: each statement is its effect and always succeeds; a failing write of a minute would lose that minute.
- The random ids and tokens are arguments, taken to be fresh; the digest is taken to be injective.
- Floating-point rounding, NaN and infinities: sums are exact, so order independence is claimed for reals only.
- Sharing of slices between calls: sequences are values here, except the recent buffers and where a sort shares its elements with its caller.
- The order of a listing (sort order, then name): alerts are proved for whatever order is listed.
- The report stub that a listing carries for a server whose address is stored: addresses are left out, so a listing carries no report.
- Server fields without a part in these computations, static agent information and addresses; the updates of billing, notification and rule settings are steps of ServerMachine without a method of their own.
- The Komari shapes, themes, static files, agent download and install scripts: field copies and file plumbing.
- Interface reading, process and host information of the agent, its retry loop and interval: foreign calls and one assignment.
- Calendar days of 86400 seconds: a local daylight-saving change moves the pruning cutoff by an hour.
- StreamBatch.StreamEqualsBatch: assumes the server's own clock never runs backwards, because a clock that re-enters a minute overwrites its row; the exact condition is RowCompleteIffVisitedOnce.
- Storage.Store.MonthlyTrafficRecord: is one undisturbed call; what overlapping calls do is MonthlyRace and BaseFollowsCalls.
- ApiHandlers.Api.HandleAgentReport: is one undisturbed request; its interleavings are the runs of ServerMachine.
- ServerRuns.ListingShowsMonthlyDeltas: assumes the server's reports do not overlap, as when its agent waits for each answer, because overlapping ones can move the base (BaseIsFirstIff).
- ServerRuns.StoredMinutesAreBatches: assumes the server's reports do not overlap and its clock never goes back, because a minute entered twice keeps its last visit only; every other run is covered by StoredMinutesOfServer.
- AlertRuns.OfflineAlertsAreGreedy: takes the last-seen times of each listing as given, because the code's own listing never carries one.
- AlertRuns.LoadAlertsAreGreedy: assumes non-negative intervals or a clock that does not run backwards, because a negative interval together with a clock step can repeat an alert.
- TrafficRuns.TrafficAlertsOfMonth: assumes growing counters and an unchanged limit and threshold, because a usage that falls re-announces bands.
- Pipeline.HistoryIsBatch: as StoredMinutesAreBatches; HistoryIsExpected covers every run.
- Traffic.UsageIsSumOfDeltas: assumes growing counters and a month's traffic below 2^63; UsageEqualsGainsIff and UsageIsWrappedGains cover arbitrary counters.
- Traffic.BillsConserveTraffic: assumes growing counters below 2^63, because a counter that falls takes its loss out of the month shown (UsageEqualsGainsIff).
