# pNode analytics dashboard: a Dafny model of its pure core

The dashboard polls storage nodes ("pNodes") and shows summary numbers, four
distribution charts and a rolling bar chart. This project models the logic of
that dashboard that does not depend on HTTP, the DOM or the chart library, and
proves properties about it.

- **Rolling bar chart** (`mockdata.dfy`, module `MockData`). This is the main part.
  The mock data service keeps a `repo`: an anchor time `timenow`, the last
  generated pods, and a history of node-stats records. `generateMockNodeStats`
  appends one record. `generateMockPods` pins the anchor on first use.
  `getBarChart` projects the history into three parallel arrays:
  - clock labels at `timenow + i * POLL_INTERVAL`,
  - total bytes in GiB,
  - packets sent in MiB.

  When the history holds more than `MAX_BARS` records, it then trims the history
  to the last `MAX_BARS` records, moves the anchor forward by one slot, and drops
  only the first item of each output array. Otherwise nothing is trimmed, the
  anchor stays put and no item is dropped.
- **Dashboard component** (`dashboard.dfy`, module `Dashboard`). The component is
  a state value with these transitions:
  - `loadData`, with its loading and error flags;
  - the poll timer's re-entrancy guard `isLoadingData`;
  - the completion of a poll, which loads data and then builds the chart;
  - `refresh`.
- **Summary numbers, filters and charts** (`aggregates.dfy`, `distributions.dfy`):
  - total storage and the online count;
  - the storage, storage-percentage and uptime table filters;
  - the top-5-plus-Others storage chart;
  - the version histogram, the last-seen histogram and the uptime histogram;
  - `hasData`.
- **Root component** (`app.dfy`, module `App`): the same `loadData` flags without
  a mock mode, and its own copies of the two summary numbers.
- **Formatting helpers** (`utils.dfy`, `prpc.dfy`, `text.dfy`): the 24-hour clock
  label, the uptime text, the zero case of the byte-size text, pubkey shortening
  and the lookup inside `findPNode`.

Inputs the code obtains from the outside world are parameters of the model:
- `Date.now()` becomes `nowMs` (milliseconds) or `nowSec` (`Date.now() / 1000`).
- The browser's local time zone becomes a total function `LocalClock` from a
  timestamp to an hour in 0..23 and a minute in 0..59.
- The records that `Math.random` would generate become a `MockDraw`.
- The outcome of the RPC fetch becomes a `Fetch`: success with pods and stats,
  or failure with an optional `Error` message.

JavaScript numbers are modelled as exact values:
- `int` for milliseconds, bytes, seconds of uptime and packet counts;
- `real` for pod timestamps, storage percentages and the GiB/MiB chart values.

The code's operators are written out where their meaning differs from Dafny's:
- JavaScript's `%` keeps the sign of the dividend (`Utils.JsRem`).
- `slice` counts negative positions from the end (`PRpc.JsSlice`).
- `x || 0` and `x || 'Unknown'` treat missing values, `0` and `""` as falsy
  (`Model.IntOrZero`, `Model.TextOr`).

An unset `timenow` advanced by `POLL_INTERVAL` becomes `NaN` in JavaScript.
`NaN` is falsy, so every reader of `timenow` treats it exactly like an unset
anchor. The model therefore keeps it unset (`MockData.AdvanceSlots`).

The windowing works as follows:
- Eviction happens lazily in `getBarChart`; adding a record never evicts.
- The anchor is `Date.now()` at the first `generateMockPods`, whatever the time
  of the first record.
- The output arrays lose exactly one item on overflow, however many records are
  evicted.

So the chart agrees with the history it keeps exactly when that history holds
at most `MAX_BARS + 1` records at the moment it is projected
(`MockData.ChartAlignedIffAtMostOneOver`). Two loads add records without a
projection: `refresh()`, and ngOnInit's first load. The mock service is a root
singleton, so a component mounted again inherits the earlier history and
anchor. From a full history, a refresh or a remount followed by a poll draws
`MAX_BARS + 1` bars, and the anchor falls one slot behind for good
(`MockData.ChartAfterTwoOverflow`, `Dashboard.RefreshThenPollOverfillsChart`,
`Dashboard.RemountThenPollOverfillsChart`).

## Model

| member | source | states |
|---|---|---|
| `Utils.Get24Clock` | xandeum-pnode-analytics/src/app/services/utils.ts:4-8 | The label is the local hour in unpadded decimal, then `:`, then the local minute as exactly two digits (4 or 5 characters in all). |
| `Utils.Get24ClockSameIffSameLocalTime` | xandeum-pnode-analytics/src/app/services/utils.ts:4-8 | Two timestamps get the same label if and only if their local hour and minute are the same. |
| `Text.ParseNatToString` | xandeum-pnode-analytics/src/app/services/utils.ts:7 | Reading the decimal rendering of a number back gives the number, so the hour text determines the hour. |
| `Utils.SplitUptime` | xandeum-pnode-analytics/src/app/services/utils.ts:29-31 | For non-negative seconds: hours are in 0..23, minutes in 0..59, and `days*86400 + hours*3600 + minutes*60 <= s < that + 60`. |
| `Utils.FormatUptimeShapes` | xandeum-pnode-analytics/src/app/services/utils.ts:33-38 | From one day on the text is `"{d}d {h}h"`; from one hour up to a day it is `"{h}h {m}m"`; below an hour it is `"{m}m"`. |
| `Utils.FormatUptimeUnits` | xandeum-pnode-analytics/src/app/services/utils.ts:28-40 | For non-negative seconds, the text contains `d` iff at least a day elapsed, `h` iff at least an hour elapsed, and `m` iff less than a day elapsed. |
| `Utils.FormatUptimeUnderAMinute` | xandeum-pnode-analytics/src/app/services/utils.ts:37-38 | Any uptime from 0 up to 59 seconds reads `"0m"`. |
| `Utils.FormatBytes` | xandeum-pnode-analytics/src/app/services/utils.ts:14 | Zero bytes is exactly `"0 Bytes"`, and only zero takes that branch. |
| `PRpc.FormatUptime` | xandeum-pnode-analytics/src/app/services/p-rpc.service.ts:130-142 | The service's copy of formatUptime returns the same text as the one in utils.ts for every integer input. |
| `PRpc.FormatBytes` | xandeum-pnode-analytics/src/app/services/p-rpc.service.ts:116 | The service's formatBytes gives `"0 Bytes"` for zero and agrees with the utils.ts version. |
| `PRpc.ShortenPubkey` | xandeum-pnode-analytics/src/app/services/p-rpc.service.ts:154-159 | Keys with length at most `startChars + endChars` come back unchanged. Longer keys become the first `startChars` characters, `"..."`, and the last `endChars` characters, `startChars + endChars + 3` in all. With `endChars = 0`, `slice(-0)` appends the whole key. |
| `PRpc.ShortenPubkeyDefaults` | xandeum-pnode-analytics/src/app/services/p-rpc.service.ts:154 | With the default widths 6/4, keys of up to 10 characters stay as they are. Longer keys become 13 characters: their first six, `...`, their last four. |
| `PRpc.FindPod` | xandeum-pnode-analytics/src/app/services/p-rpc.service.ts:105 | Returns nothing iff no pod has the key. Otherwise it returns the first pod whose pubkey equals the key. |
| `Aggregates.ReduceStorage` | xandeum-pnode-analytics/src/app/dashboard/dashboard.component.ts:226 | The left-to-right `reduce` from an accumulator equals the accumulator plus the sum of the pods' storage, with a missing value read as 0. |
| `Aggregates.TotalStorage` | xandeum-pnode-analytics/src/app/dashboard/dashboard.component.ts:225-227 | getTotalStorage is the sum of `storage_used` with missing values as 0, and 0 for no pods. |
| `Aggregates.OnlinePods` | xandeum-pnode-analytics/src/app/dashboard/dashboard.component.ts:232 | Every kept pod is an input pod last seen strictly after `now - 300`, and every such input pod is kept (how often is `Aggregates.OnlinePodsCounts`). It keeps all pods iff every pod qualifies. |
| `Aggregates.OnlinePodsCounts` | xandeum-pnode-analytics/src/app/dashboard/dashboard.component.ts:232 | The filter keeps every online pod exactly as often as it occurs in the input and drops every other pod: as multisets, the result is the online part of the pods. |
| `Aggregates.OnlineCount` | xandeum-pnode-analytics/src/app/dashboard/dashboard.component.ts:229-233 | The online count is at most the number of pods. It is 0 iff no pod was seen strictly within 300 s, and it equals the number of pods iff every pod was. A missing timestamp counts as 0. |
| `Aggregates.FilterByStorage` | xandeum-pnode-analytics/src/app/dashboard/dashboard.component.ts:281-292 | `none` holds iff storage is 0. `<1gb` means strictly between 0 and 1 GiB. `>1gb` and `>5gb` are strict at 1 GiB and 5 GiB. Any other value accepts every pod. |
| `Aggregates.StorageFilterBuckets` | xandeum-pnode-analytics/src/app/dashboard/dashboard.component.ts:285-289 | `>5gb` implies `>1gb`, and `none`, `<1gb` and `>1gb` are pairwise disjoint. For non-negative storage, one of these three holds iff the storage is not exactly 1 GiB. |
| `Aggregates.FilterByStoragePercent` | xandeum-pnode-analytics/src/app/dashboard/dashboard.component.ts:294-304 | `>0.8` and `>0.5` are strict thresholds. `<0.25` excludes 0. `0` holds iff the percentage is 0. Any other value accepts every pod. |
| `Aggregates.StoragePercentFilterBuckets` | xandeum-pnode-analytics/src/app/dashboard/dashboard.component.ts:295-302 | `>0.8` implies `>0.5`, and `0`, `<0.25` and `>0.5` are pairwise disjoint. No bucket accepts a percentage in [0.25, 0.5], and for non-negative percentages one of the three holds iff the percentage is outside that range. |
| `Aggregates.FilterByUptime` | xandeum-pnode-analytics/src/app/dashboard/dashboard.component.ts:306-317 | `>1h` accepts only `3600 < u <= 86400`, bounded above. `>1d` and `>7d` have no upper bound. `<1h` excludes 0, and `none` holds iff uptime is 0. Any other value accepts every pod. |
| `Aggregates.UptimeFilterBuckets` | xandeum-pnode-analytics/src/app/dashboard/dashboard.component.ts:309-314 | `>1h` and `>1d` never both hold, and `>7d` implies `>1d`. For non-negative uptime, one of `none`, `<1h`, `>1h`, `>1d` holds iff the uptime is not exactly 3600 s. |
| `Distributions.SortByStorageDesc` | xandeum-pnode-analytics/src/app/dashboard/dashboard.component.ts:332 | The copy is sorted largest storage first: each pod holds at least as much as the next. It has the same length and the same total storage as the input. |
| `Distributions.SortPermutes` | xandeum-pnode-analytics/src/app/dashboard/dashboard.component.ts:332 | The sorted copy is a permutation of the pods: the same multiset, every pod as often as it occurs. |
| `Distributions.StorageDistribution` | xandeum-pnode-analytics/src/app/dashboard/dashboard.component.ts:327-353 | Properties of the storage chart: (1) empty input gives `[]`; (2) otherwise there are `min(n,5)` named slices plus one `Others` slice iff `n > 5`; (3) named slice i is the i-th pod of the storage-sorted permutation, with its shortened pubkey (or `Unknown`) as name and its storage as value; (4) the named slices are non-increasing, no pod left to `Others` holds more than any named slice, and `Others` holds the total storage of the pods after the five largest; (5) the first slice is the largest storage of any pod; (6) all slices sum to getTotalStorage. |
| `Distributions.PodSlices` | xandeum-pnode-analytics/src/app/dashboard/dashboard.component.ts:338-341 | The `map` gives one slice per pod, in order: the pod's shortened pubkey (`Unknown` when missing) and its storage, missing as 0; the values sum to the pods' total storage. |
| `Distributions.SlicesOfSorted` | xandeum-pnode-analytics/src/app/dashboard/dashboard.component.ts:334-350 | The first `min(n,5)` sorted pods become named slices, followed by `Others` with the rest's total exactly when more than five pods remain; all values sum to the sorted pods' total storage. |
| `Distributions.StorageDistributionHasData` | xandeum-pnode-analytics/src/app/dashboard/dashboard.component.ts:458-460 | hasData on the storage chart is true iff some pod reports positive storage. |
| `Distributions.HasDataWhenSumPositive` | xandeum-pnode-analytics/src/app/dashboard/dashboard.component.ts:458-460 | Chart items whose values sum to something positive always make hasData (`Distributions.HasData`, `some(item => item.value > 0)`) true. |
| `Distributions.LastSeenBucket` | xandeum-pnode-analytics/src/app/dashboard/dashboard.component.ts:393-406 | The minute and hour comparisons cut pod age at exactly 300 s, 3600 s and 86400 s into the four named buckets. |
| `Distributions.LastSeenDistribution` | xandeum-pnode-analytics/src/app/dashboard/dashboard.component.ts:380-413 | The counting loop builds exactly the reference chart: `[]` for no pods, otherwise the items `<5min`, `5min-1h`, `1-24h` and `>24h` in that order, each with the number of pods in that bucket. |
| `Distributions.LastSeenChartTotals` | xandeum-pnode-analytics/src/app/dashboard/dashboard.component.ts:380-413 | The last-seen chart counts every pod exactly once, since its counts sum to the number of pods. hasData holds iff there are pods, and the `<5min` count equals getOnlineCount. |
| `Distributions.OnlineIsLastSeenUnderFiveMinutes` | xandeum-pnode-analytics/src/app/dashboard/dashboard.component.ts:229-233 | The pods getOnlineCount counts are exactly the pods in the `<5min` last-seen bucket. |
| `Distributions.UptimeBucket` | xandeum-pnode-analytics/src/app/dashboard/dashboard.component.ts:432-448 | Uptime 0 maps to `No Uptime`. Otherwise the hour and day comparisons cut at 3600 s, 86400 s and 604800 s into the remaining four buckets. |
| `Distributions.UptimeHealthDistribution` | xandeum-pnode-analytics/src/app/dashboard/dashboard.component.ts:419-456 | The counting loop builds exactly the reference chart: `[]` for no pods, otherwise the items `No Uptime`, `<1h`, `1-24h`, `1-7d` and `>7d` in that order, each with the number of pods in that bucket. |
| `Distributions.UptimeChartTotals` | xandeum-pnode-analytics/src/app/dashboard/dashboard.component.ts:419-456 | The uptime chart counts every pod exactly once, since its counts sum to the number of pods. hasData holds iff there are pods. |
| `Distributions.AddVersionTallies` | xandeum-pnode-analytics/src/app/dashboard/dashboard.component.ts:365-368 | One `Map.set(version, (get \|\| 0) + 1)` step keeps the Map an exact tally of the pods seen: distinct keys, exact counts, every version present, counts summing to the pods seen. |
| `Distributions.VersionDistribution` | xandeum-pnode-analytics/src/app/dashboard/dashboard.component.ts:359-374 | The result is an exact tally of the pods: one item per distinct version, a missing version counted as `Unknown`. Each count is the positive number of pods running that version. Every pod's version has an item, and the counts sum to the number of pods. Empty input gives `[]`, and hasData holds iff there are pods. |
| `MockData.GenerateMockPods` | xandeum-pnode-analytics/src/app/services/mock-data.service.ts:82-83 | A truthy `timenow` is kept, and `timenow` is set to now only when it is unset or 0. `pods` is replaced by the new list, and `stats` is untouched. |
| `MockData.AnchorPinnedOnce` | xandeum-pnode-analytics/src/app/services/mock-data.service.ts:82 | Once the anchor is set to a non-zero time, any number of later generateMockPods calls leave it where it is. |
| `MockData.GenerateMockNodeStats` | xandeum-pnode-analytics/src/app/services/mock-data.service.ts:103-105 | Exactly one record is appended at the end. Every earlier record keeps its position, and the anchor and pods are unchanged. |
| `MockData.MergeIntoTemplate` | xandeum-pnode-analytics/src/app/services/mock-data.service.ts:147-163 | The result carries the new labels and series data. With its data removed it is exactly the shared template, so the template's shape is kept and the template itself is a constant. |
| `MockData.Trim` | xandeum-pnode-analytics/src/app/services/mock-data.service.ts:139-142 | With more than `MAX_BARS` records, the history becomes exactly its last `MAX_BARS` records in order, and the anchor moves forward by exactly one `POLL_INTERVAL`. Otherwise nothing changes. |
| `MockData.GetBarChart` | xandeum-pnode-analytics/src/app/services/mock-data.service.ts:130-165 | The labels and both series always have equal length: `\|stats\|`, or `\|stats\| - 1` after an eviction. Label i is the clock of `timenow + (i+shift)*POLL_INTERVAL`, bytes[i] is record (i+shift)'s total bytes in GiB, and packets[i] is its packets sent in MiB, where shift is 1 after an eviction and 0 otherwise. The options keep the template's shape. |
| `MockData.ProjectShifted` | xandeum-pnode-analytics/src/app/services/mock-data.service.ts:134-138 | The forEach projection, with its first `shift` items dropped, describes exactly the records from position `shift` on, in insertion order. |
| `MockData.ChartWithinCapacity` | xandeum-pnode-analytics/src/app/services/mock-data.service.ts:134-139 | With at most `MAX_BARS` records, neither stats nor timenow changes, and the chart is exactly the projection of the whole history. |
| `MockData.ChartAfterOneOverflow` | xandeum-pnode-analytics/src/app/services/mock-data.service.ts:134-145 | With exactly `MAX_BARS + 1` records and the anchor set, the returned series are exactly the projection of the retained records, and label i is the clock of `newTimenow + i*POLL_INTERVAL`. Every retained record keeps the slot time it had before. |
| `MockData.ChartAlignedIffAtMostOneOver` | xandeum-pnode-analytics/src/app/services/mock-data.service.ts:134-145 | With the anchor set, the returned chart shows exactly the kept history labelled from the new anchor if and only if at most `MAX_BARS + 1` records were projected. |
| `MockData.ChartAfterTwoOverflow` | xandeum-pnode-analytics/src/app/services/mock-data.service.ts:139-145 | With `MAX_BARS + 2` records, the chart shows `MAX_BARS + 1` bars while `MAX_BARS` records are kept. The first kept record is shown at old slot 2 but will be labelled one interval earlier from then on. |
| `MockData.RunKeepsWindow` | xandeum-pnode-analytics/src/app/services/mock-data.service.ts:139-142 | Over any run of polls that each add one record (starting within capacity), the history is always the last `MAX_BARS` records ever added, in order. The anchor has moved one slot per evicted record. |
| `MockData.RunHasNoDrift` | xandeum-pnode-analytics/src/app/services/mock-data.service.ts:135-142 | Over such a run, each retained record is the one at its overall position, and its slot time under the moved anchor is its overall position's time under the original anchor. |
| `Dashboard.ErrorText` | xandeum-pnode-analytics/src/app/dashboard/dashboard.component.ts:197-199 | A failed load's error text is `Failed to load pNode data: ` followed by the `Error`'s message, or by `Unknown error` when the thrown value is not an `Error`. |
| `Dashboard.BeginLoad` | xandeum-pnode-analytics/src/app/dashboard/dashboard.component.ts:167-168 | Before the first await, loading is on and the error is cleared. Nothing else changes. |
| `Dashboard.LoadData` | xandeum-pnode-analytics/src/app/dashboard/dashboard.component.ts:165-203 | loadData ends with `loading` false. On success, `error` is null and `totalCount == \|pods\|`. On failure, `error` is exactly `Dashboard.ErrorText` of the rejection's message, and pods, totalCount and nodeStats are unchanged. Mock mode appends exactly one stats record and pins the anchor, production mode leaves the repo alone, and the busy flag, chart and table are untouched. |
| `Dashboard.PollTick` | xandeum-pnode-analytics/src/app/dashboard/dashboard.component.ts:106-113 | A tick while `isLoadingData` is true changes nothing. Otherwise it only sets the flag, before the load starts. |
| `Dashboard.TicksWhileBusy` | xandeum-pnode-analytics/src/app/dashboard/dashboard.component.ts:108-111 | The guard extended to many ticks: any number of ticks during a load in flight leave the state as it was (a direct consequence of `PollTick`'s first ensures). |
| `Dashboard.PollComplete` | xandeum-pnode-analytics/src/app/dashboard/dashboard.component.ts:116-157 | The flag is cleared in `finally` and loading is off, whether the load succeeded or failed, so a poll started from idle ends idle. Data and error are those of loadData. Mock mode sets the chart options and the repo to exactly what getBarChart returns for the loaded repo, and production mode leaves chart and repo unchanged. |
| `Dashboard.PollCycleEndsIdle` | xandeum-pnode-analytics/src/app/dashboard/dashboard.component.ts:106-157 | The busy flag is only a guard: a tick from idle followed by the load ends in exactly the state that completing the load directly gives. |
| `Dashboard.MockPollIsPoll` | xandeum-pnode-analytics/src/app/services/mock-data.service.ts:82-83 | With the anchor set, a mock-mode poll of the dashboard moves the history and anchor exactly as `MockData.Poll` does with the drawn record, so `RunKeepsWindow` and `RunHasNoDrift` apply to dashboard polls once `generateMockPods` has pinned the anchor. |
| `Dashboard.Refresh` | xandeum-pnode-analytics/src/app/dashboard/dashboard.component.ts:205-209 | Pods, error, totalCount, nodeStats and repo are exactly those of loadData, and the table then shows the loaded pods. Refresh neither projects the chart nor touches the busy flag or the mock mode, and in mock mode it adds one stats record. |
| `Dashboard.FirstLoad` | xandeum-pnode-analytics/src/app/dashboard/dashboard.component.ts:87-100 | From the initial signals (`Dashboard.Initial`: loading on, no data, no chart) and whatever repo the root-singleton mock service holds, ngOnInit's load ends with loading off, no chart and the table showing the pods. In mock mode the drawn record is appended to the inherited history and a truthy inherited anchor is kept; on the service's first use the history is the one drawn record and the anchor is that load's `Date.now()`. A failed production load keeps the empty data and shows the error text. |
| `Dashboard.RemountThenPollOverfillsChart` | xandeum-pnode-analytics/src/app/dashboard/dashboard.component.ts:87-139 | A component mounted again in mock mode over a full inherited history: its first load and first poll draw `MAX_BARS + 1` bars, keep `MAX_BARS` records, and leave the anchor one slot behind the first kept record. |
| `Dashboard.MockPollKeepsChartAligned` | xandeum-pnode-analytics/src/app/dashboard/dashboard.component.ts:117-139 | In mock mode, starting within capacity, a poll keeps the history within `MAX_BARS` and draws exactly the retained history labelled from its anchor. |
| `Dashboard.RefreshThenPollOverfillsChart` | xandeum-pnode-analytics/src/app/dashboard/dashboard.component.ts:205-208 | With a full history, a refresh followed by a poll draws `MAX_BARS + 1` bars and keeps `MAX_BARS` records. The anchor ends one slot behind the first kept record. |
| `App.LoadData` | xandeum-pnode-analytics/src/app/app.ts:50-71 | loadData ends with `loading` false. On success, `error` is null and `totalCount == \|pods\|`. On failure, `error` is exactly `Dashboard.ErrorText` of the rejection's message, and the data signals are unchanged. |
| `App.FirstLoad` | xandeum-pnode-analytics/src/app/app.ts:36-48 | From the initial signals (`App.Initial`: loading on, no data), ngOnInit's load ends with loading off; success shows the fetched pods, failure keeps the empty data and shows the error text. |
| `App.LoadDataMatchesDashboard` | xandeum-pnode-analytics/src/app/app.ts:50-71 | The root component's loadData ends with the same signals as the dashboard's production-mode loadData from the same signals. |
| `App.GetTotalStorage` | xandeum-pnode-analytics/src/app/app.ts:90-92 | getTotalStorage is the sum of `storage_used` with missing values as 0, and an empty list gives 0. |
| `App.GetOnlineCount` | xandeum-pnode-analytics/src/app/app.ts:94-98 | The count is exactly the number of pods with `last_seen > now - 300` (strict, a missing timestamp read as 0), the same as the dashboard's online count; it is at most the number of pods and 0 iff no pod qualifies. |

## Left out

- HTTP: `getPods`, `getStats`, `getAllData`, the fetch inside `findPNode`, proxy-server.js and test-prpc.js are network I/O. A fetch's outcome is an input (`Dashboard.Fetch`).
- app.config.ts registers Angular and ECharts providers only.
- The chart template's styling (`grid`, `yAxis`, label rotation) depends on `window.innerWidth`. `MockData.ECHARTS_OPTIONS` keeps only the x-axis data and the two series' name, type and axis index.
- In production mode the dashboard calls `prpcService.getBarChart()`, which the RPC service does not define. The model leaves the chart unchanged there and still clears the busy flag.
- Random generation (`Math.random` in `generateMockPods`, `generateMockNodeStats`, `generateMockPubkey` and `generateMockAddress`): the generated pods and records are arbitrary inputs (`Dashboard.MockDraw`). The fixed count of 25 pods and the value ranges are not modelled.
- Floating point is not modelled: `formatBytes` beyond the zero case, `getAverageCpu`'s rounding, `NaN`, and double rounding in the GiB/MiB divisions and the minute/hour comparisons. All of these are computed exactly.
- Locale and clock rendering: `toLocaleString` (`updateDateTime`, `formatTimestamp`) is omitted. The `localeCompare` table sort comparators are omitted. The local time zone of `get24Clock` is the `LocalClock` parameter. An out-of-range timestamp (an "Invalid Date") is not modelled.
- Scheduling: rxjs timers, `setTimeout`, NgZone, ResizeObserver and echarts `init`/`setOption`. Each load is one atomic transition. `refresh()` does not check `isLoadingData`, so in the browser it can interleave with a poll's load. That interleaving is not modelled.
- The code has no relative `"now"`/`"-Ns"` labels and no per-metric scales; the labels are clock times and the two series use fixed GiB and MiB divisors.
- `Distributions.SortByStorageDesc`: the model's sort is stable, like `Array.prototype.sort`. Its contract and `Distributions.SortPermutes` state order and permutation, not stability.
- `Aggregates.OnlinePods`: the filter keeps the input order, but the contract and `Aggregates.OnlinePodsCounts` state membership and multiplicities, not order; only the count of the result is used by the code.
- `Distributions.VersionDistribution`: the items come in first-appearance order, as a JavaScript `Map` keeps keys, but the contract does not state that order.
- `Utils.FormatBytes`: only the zero case is specified. Every other input maps to `None`, which stands for the logarithm-and-`toFixed` branch.
- `PRpc.ShortenPubkey`: lengths and slices count characters (Unicode scalar values), while JavaScript's `length` and `slice` count UTF-16 code units; a key with characters outside the Basic Multilingual Plane is measured and cut differently. Pubkeys are base58 ASCII, where the two agree.
- `PRpc.FormatBytes`: only the zero case is specified, as for `Utils.FormatBytes`; every other input maps to `None`, the floating-point logarithm-and-`toFixed` branch.
- `PRpc.ShortenPubkey`: for negative `startChars` or `endChars`, the contract states only the case where the key fits. Callers always pass the defaults 6 and 4.
- `Utils.SplitUptime`: the ranges and the reconstruction identity are stated for non-negative seconds only. For negative inputs the model still follows JavaScript's `Math.floor` and `%`.
