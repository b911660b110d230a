/** The data behind the dashboard's four distribution charts and the `hasData` test
    (dashboard/dashboard.component.ts). */
module Distributions {

  import opened Wrappers
  import opened Model
  import opened Aggregates
  import PRpc

  /** hasData(chartData): some item has a positive value. */
  predicate HasData(items: seq<Entry>) {
    exists i :: 0 <= i < |items| && items[i].value > 0
  }

  /** Items whose values add up to something positive include a positive one. */
  lemma {:induction false} HasDataWhenSumPositive(items: seq<Entry>)
    requires EntrySum(items) > 0
    ensures HasData(items)
  {
    if items[0].value <= 0 {
      HasDataWhenSumPositive(items[1..]);
      var i :| 0 <= i < |items[1..]| && items[1..][i].value > 0;
      assert items[i + 1].value > 0;
    }
  }

  // ---------------------------------------------------------------------------
  // Chart 1: storage distribution

  /** Each pod holds at least as much storage as the one after it. */
  predicate SortedByStorageDesc(s: seq<Pod>) {
    forall i :: 0 < i < |s| ==> StorageOf(s[i - 1]) >= StorageOf(s[i])
  }

  /** In a sorted list every pod holds at least as much as any later one. */
  lemma SortedPairwise(s: seq<Pod>)
    requires SortedByStorageDesc(s)
    ensures forall i, j :: 0 <= i < j < |s| ==> StorageOf(s[i]) >= StorageOf(s[j])
  {
    forall i, j | 0 <= i < j < |s|
      ensures StorageOf(s[i]) >= StorageOf(s[j])
    {
      SortedBetween(s, i, j);
    }
  }

  lemma {:induction false} SortedBetween(s: seq<Pod>, i: nat, j: nat)
    requires SortedByStorageDesc(s) && i < j < |s|
    ensures StorageOf(s[i]) >= StorageOf(s[j])
    decreases j - i
  {
    if i + 1 < j {
      SortedBetween(s, i + 1, j);
    }
  }

  /** Inserts `x` before the first pod holding no more than it, so that `x` stays ahead of
      later pods with equal storage. */
  function InsertByStorage(x: Pod, s: seq<Pod>): (r: seq<Pod>)
    requires SortedByStorageDesc(s)
    ensures SortedByStorageDesc(r)
    ensures StorageSum(r) == StorageOf(x) + StorageSum(s)
    ensures |r| == |s| + 1 && (r[0] == x || (|s| > 0 && r[0] == s[0]))
  {
    if |s| == 0 then [x]
    else if StorageOf(x) >= StorageOf(s[0]) then
      ConsSorted(x, s);
      StorageSumCons(x, s);
      [x] + s
    else
      var tail := InsertByStorage(x, s[1..]);
      ConsSorted(s[0], tail);
      StorageSumCons(s[0], tail);
      StorageSumCons(s[0], s[1..]);
      assert s == [s[0]] + s[1..];
      [s[0]] + tail
  }

  lemma StorageSumCons(h: Pod, t: seq<Pod>)
    ensures StorageSum([h] + t) == StorageOf(h) + StorageSum(t)
  {
    assert ([h] + t)[1..] == t;
  }

  /** A pod holding at least as much as the head of a sorted list can go in front of it. */
  lemma ConsSorted(h: Pod, t: seq<Pod>)
    requires SortedByStorageDesc(t)
    requires |t| > 0 ==> StorageOf(h) >= StorageOf(t[0])
    ensures SortedByStorageDesc([h] + t)
  {
    forall i | 0 < i < |[h] + t|
      ensures StorageOf(([h] + t)[i - 1]) >= StorageOf(([h] + t)[i])
    {
      if i > 1 {
        assert ([h] + t)[i - 1] == t[i - 2] && ([h] + t)[i] == t[i - 1];
      }
    }
  }

  /** Insertion adds `x` and keeps every other pod. */
  lemma {:induction false} InsertPermutes(x: Pod, s: seq<Pod>)
    requires SortedByStorageDesc(s)
    ensures multiset(InsertByStorage(x, s)) == multiset(s) + multiset{x}
  {
    if |s| > 0 && StorageOf(x) < StorageOf(s[0]) {
      InsertPermutes(x, s[1..]);
      assert s == [s[0]] + s[1..];
    }
  }

  /** `[...pods].sort((a, b) => (b.storage_used || 0) - (a.storage_used || 0))`:
      a stable sort, largest storage first. */
  function SortByStorageDesc(pods: seq<Pod>): (r: seq<Pod>)
    ensures SortedByStorageDesc(r)
    ensures StorageSum(r) == StorageSum(pods)
    ensures |r| == |pods|
  {
    if |pods| == 0 then []
    else
      assert pods == [pods[0]] + pods[1..];
      InsertByStorage(pods[0], SortByStorageDesc(pods[1..]))
  }

  /** The sort returns a permutation of the pods: every pod, as often as it occurs. */
  lemma {:induction false} SortPermutes(pods: seq<Pod>)
    ensures multiset(SortByStorageDesc(pods)) == multiset(pods)
  {
    if |pods| > 0 {
      SortPermutes(pods[1..]);
      InsertPermutes(pods[0], SortByStorageDesc(pods[1..]));
      assert pods == [pods[0]] + pods[1..];
    }
  }

  /** The name a pie slice shows for a pod: its shortened pubkey, or "Unknown". */
  function SliceName(p: Pod): string {
    PRpc.ShortenPubkey(TextOr(p.pubkey, "Unknown"), PRpc.DEFAULT_START_CHARS, PRpc.DEFAULT_END_CHARS)
  }

  /** `top5.map(pod => ({ name: ..., value: pod.storage_used || 0 }))` */
  function PodSlices(pods: seq<Pod>): (r: seq<Entry>)
    ensures |r| == |pods|
    ensures forall i :: 0 <= i < |pods| ==> r[i] == Entry(SliceName(pods[i]), StorageOf(pods[i]))
    ensures EntrySum(r) == StorageSum(pods)
  {
    if |pods| == 0 then []
    else [Entry(SliceName(pods[0]), StorageOf(pods[0]))] + PodSlices(pods[1..])
  }

  /** The number of pods shown by name in the storage chart. */
  const TOP_SLICES: nat := 5

  function Min(a: int, b: int): int {
    if a < b then a else b
  }

  /** `sorted.slice(0, 5)` as named slices, then an "Others" slice for `sorted.slice(5)` when it is not empty. */
  function SlicesOfSorted(sorted: seq<Pod>): (r: seq<Entry>)
    ensures |r| == Min(|sorted|, TOP_SLICES) + (if |sorted| > TOP_SLICES then 1 else 0)
    ensures |sorted| > TOP_SLICES ==> r[TOP_SLICES] == Entry("Others", TotalStorage(sorted[TOP_SLICES..]))
    ensures forall i :: 0 <= i < |r| && i < TOP_SLICES ==> r[i] == Entry(SliceName(sorted[i]), StorageOf(sorted[i]))
    ensures EntrySum(r) == StorageSum(sorted)
  {
    var n := Min(|sorted|, TOP_SLICES);
    var top := sorted[..n];
    var others := sorted[n..];
    assert sorted == top + others;
    StorageSumAppend(top, others);
    var chart := PodSlices(top);
    if |others| > 0 then
      EntrySumAppend(chart, [Entry("Others", TotalStorage(others))]);
      chart + [Entry("Others", TotalStorage(others))]
    else chart
  }

  /** Every pod holds at most what the first pod of a sorted permutation holds, and every
      pod of the permutation reports a figure some pod reports. */
  lemma SortedPermutationFacts(pods: seq<Pod>, sorted: seq<Pod>)
    requires SortedByStorageDesc(sorted) && multiset(sorted) == multiset(pods) && |pods| > 0
    ensures forall k :: 0 <= k < |pods| ==> StorageOf(pods[k]) <= StorageOf(sorted[0])
    ensures forall i :: 0 <= i < |sorted| ==> StorageOf(sorted[i]) in StorageValues(pods)
  {
    SortedPairwise(sorted);
    forall k | 0 <= k < |pods|
      ensures StorageOf(pods[k]) <= StorageOf(sorted[0])
    {
      assert pods[k] in multiset(sorted);
      var j :| 0 <= j < |sorted| && sorted[j] == pods[k];
    }
    forall i | 0 <= i < |sorted|
      ensures StorageOf(sorted[i]) in StorageValues(pods)
    {
      assert sorted[i] in multiset(pods);
      var k :| 0 <= k < |pods| && pods[k] == sorted[i];
    }
  }

  /** getStorageDistribution(): the five largest pods by storage, largest first, each named by
      its shortened pubkey, then one "Others" slice holding the rest when there are more than
      five pods; no pod left to "Others" holds more than a named one, the slices add up to the
      total storage, and the first is the largest any pod holds. */
  function StorageDistribution(pods: seq<Pod>): (r: seq<Entry>)
    ensures |pods| == 0 ==> r == []
    ensures |r| == Min(|pods|, TOP_SLICES) + (if |pods| > TOP_SLICES then 1 else 0)
    ensures |pods| > TOP_SLICES ==> r[TOP_SLICES] == Entry("Others", TotalStorage(SortByStorageDesc(pods)[TOP_SLICES..]))
    ensures forall i :: 0 <= i < |r| && i < TOP_SLICES ==>
      r[i] == Entry(SliceName(SortByStorageDesc(pods)[i]), StorageOf(SortByStorageDesc(pods)[i]))
    ensures forall i, j :: 0 <= i < j < |r| && j < TOP_SLICES ==> r[i].value >= r[j].value
    ensures forall i, j :: 0 <= i < |r| && i < TOP_SLICES && TOP_SLICES <= j < |pods| ==>
      r[i].value >= StorageOf(SortByStorageDesc(pods)[j])
    ensures forall i :: 0 <= i < |r| && i < TOP_SLICES ==> r[i].value in StorageValues(pods)
    ensures |pods| > 0 ==> forall k :: 0 <= k < |pods| ==> StorageOf(pods[k]) <= r[0].value
    ensures EntrySum(r) == TotalStorage(pods)
  {
    if |pods| == 0 then []
    else
      var sorted := SortByStorageDesc(pods);
      SortPermutes(pods);
      SortedPermutationFacts(pods, sorted);
      SlicesOrder(sorted);
      SlicesOfSorted(sorted)
  }

  /** The slices of a sorted list are non-increasing, and no pod left to "Others" holds more
      than a named slice. */
  lemma SlicesOrder(sorted: seq<Pod>)
    requires SortedByStorageDesc(sorted)
    ensures var r := SlicesOfSorted(sorted);
      && (forall i, j :: 0 <= i < j < |r| && j < TOP_SLICES ==> r[i].value >= r[j].value)
      && (forall i, j :: 0 <= i < |r| && i < TOP_SLICES && TOP_SLICES <= j < |sorted| ==>
            r[i].value >= StorageOf(sorted[j]))
  {
    SortedPairwise(sorted);
  }

  /** The storage figures the pods report. */
  function StorageValues(pods: seq<Pod>): set<int> {
    set k | 0 <= k < |pods| :: StorageOf(pods[k])
  }

  /** The storage chart has something to draw exactly when some pod reports storage. */
  lemma StorageDistributionHasData(pods: seq<Pod>)
    ensures HasData(StorageDistribution(pods)) <==> exists k :: 0 <= k < |pods| && StorageOf(pods[k]) > 0
  {
    var r := StorageDistribution(pods);
    if k :| 0 <= k < |pods| && StorageOf(pods[k]) > 0 {
      assert r[0].value > 0;
    } else if |pods| > 0 {
      NoSliceWithoutStorage(pods);
    }
  }

  /** When no pod reports positive storage, no slice of the storage chart is positive. */
  lemma NoSliceWithoutStorage(pods: seq<Pod>)
    requires |pods| > 0
    requires forall k :: 0 <= k < |pods| ==> StorageOf(pods[k]) <= 0
    ensures forall i :: 0 <= i < |StorageDistribution(pods)| ==> StorageDistribution(pods)[i].value <= 0
  {
    var r := StorageDistribution(pods);
    var sorted := SortByStorageDesc(pods);
    SortPermutes(pods);
    SortedPermutationFacts(pods, sorted);
    if |pods| > TOP_SLICES {
      var others := sorted[TOP_SLICES..];
      forall j | 0 <= j < |others|
        ensures StorageOf(others[j]) <= 0
      {
        assert others[j] == sorted[j + TOP_SLICES];
        assert StorageOf(sorted[j + TOP_SLICES]) in StorageValues(pods);
      }
      StorageSumNonPositive(others);
    }
    forall i | 0 <= i < |r|
      ensures r[i].value <= 0
    {
      if i < TOP_SLICES {
        assert r[i].value in StorageValues(pods);
      }
    }
  }


  // ---------------------------------------------------------------------------
  // Charts 2-4: histograms

  /** The bucket names of the last-seen chart, in chart order. */
  const LAST_SEEN_BUCKETS: seq<string> := ["<5min", "5min-1h", "1-24h", ">24h"]

  /** The last-seen bucket of a pod: its age in minutes and hours against the cut points. */
  function LastSeenBucket(p: Pod, nowSec: real): (b: string)
    ensures b in LAST_SEEN_BUCKETS
    ensures nowSec - LastSeenOf(p) < 300.0 <==> b == "<5min"
    ensures 300.0 <= nowSec - LastSeenOf(p) < 3600.0 <==> b == "5min-1h"
    ensures 3600.0 <= nowSec - LastSeenOf(p) < 86400.0 <==> b == "1-24h"
    ensures 86400.0 <= nowSec - LastSeenOf(p) <==> b == ">24h"
  {
    var ageSeconds := nowSec - LastSeenOf(p);
    var ageMinutes := ageSeconds / 60.0;
    var ageHours := ageMinutes / 60.0;
    if ageMinutes < 5.0 then "<5min"
    else if ageMinutes < 60.0 then "5min-1h"
    else if ageHours < 24.0 then "1-24h"
    else ">24h"
  }

  /** The bucket names of the uptime chart, in chart order. */
  const UPTIME_BUCKETS: seq<string> := ["No Uptime", "<1h", "1-24h", "1-7d", ">7d"]

  /** The uptime bucket of a pod: zero (or missing) uptime apart, then hours and days against the cut points. */
  function UptimeBucket(p: Pod): (b: string)
    ensures b in UPTIME_BUCKETS
    ensures UptimeOf(p) == 0 <==> b == "No Uptime"
    ensures UptimeOf(p) != 0 && UptimeOf(p) < 3600 <==> b == "<1h"
    ensures 3600 <= UptimeOf(p) < 86400 <==> b == "1-24h"
    ensures 86400 <= UptimeOf(p) < 604800 <==> b == "1-7d"
    ensures 604800 <= UptimeOf(p) <==> b == ">7d"
  {
    var uptime := UptimeOf(p);
    if uptime == 0 then "No Uptime"
    else
      var hours := uptime as real / 3600.0;
      var days := hours / 24.0;
      if hours < 1.0 then "<1h"
      else if hours < 24.0 then "1-24h"
      else if days < 7.0 then "1-7d"
      else ">7d"
  }

  /** The three histograms, each a way of naming the bucket a pod falls in. */
  datatype Histogram = LastSeen(nowSec: real) | UptimeHealth | Versions

  function KeyOf(h: Histogram, p: Pod): string {
    match h
    case LastSeen(nowSec) => LastSeenBucket(p, nowSec)
    case UptimeHealth => UptimeBucket(p)
    case Versions => VersionOf(p)
  }

  /** Reference definition: how many pods fall in the bucket called `name`. */
  function CountKey(pods: seq<Pod>, h: Histogram, name: string): nat {
    if |pods| == 0 then 0
    else (if KeyOf(h, pods[0]) == name then 1 else 0) + CountKey(pods[1..], h, name)
  }

  lemma {:induction false} CountKeySnoc(pods: seq<Pod>, x: Pod, h: Histogram, name: string)
    ensures CountKey(pods + [x], h, name) == CountKey(pods, h, name) + (if KeyOf(h, x) == name then 1 else 0)
  {
    if |pods| == 0 {
      assert pods + [x] == [x];
    } else {
      assert (pods + [x])[1..] == pods[1..] + [x];
      CountKeySnoc(pods[1..], x, h, name);
    }
  }

  /** The pods online by getOnlineCount's test are exactly those in the "<5min" bucket. */
  lemma {:induction false} OnlineIsLastSeenUnderFiveMinutes(pods: seq<Pod>, nowSec: real)
    ensures |OnlinePods(pods, nowSec)| == CountKey(pods, LastSeen(nowSec), "<5min")
  {
    if |pods| > 0 {
      OnlineIsLastSeenUnderFiveMinutes(pods[1..], nowSec);
    }
  }

  /** Counting one more pod in the last-seen chart adds one to the bucket its age in minutes
      and hours selects, and nothing to the others. */
  lemma LastSeenTally(seen: seq<Pod>, x: Pod, nowSec: real)
    ensures var h := LastSeen(nowSec);
      var ageMinutes := (nowSec - LastSeenOf(x)) / 60.0;
      && CountKey(seen + [x], h, "<5min") == CountKey(seen, h, "<5min") + (if ageMinutes < 5.0 then 1 else 0)
      && CountKey(seen + [x], h, "5min-1h") == CountKey(seen, h, "5min-1h") + (if 5.0 <= ageMinutes < 60.0 then 1 else 0)
      && CountKey(seen + [x], h, "1-24h") == CountKey(seen, h, "1-24h") + (if 60.0 <= ageMinutes && ageMinutes / 60.0 < 24.0 then 1 else 0)
      && CountKey(seen + [x], h, ">24h") == CountKey(seen, h, ">24h") + (if 60.0 <= ageMinutes && 24.0 <= ageMinutes / 60.0 then 1 else 0)
  {
    var h := LastSeen(nowSec);
    CountKeySnoc(seen, x, h, "<5min");
    CountKeySnoc(seen, x, h, "5min-1h");
    CountKeySnoc(seen, x, h, "1-24h");
    CountKeySnoc(seen, x, h, ">24h");
  }

  /** The chart item for the bucket called `name`: how many pods fall in it. */
  function Tally(pods: seq<Pod>, h: Histogram, name: string): Entry {
    Entry(name, CountKey(pods, h, name))
  }

  /** Reference definition of the last-seen chart: no items for no pods, else one tally per
      bucket, in chart order. */
  function LastSeenChart(pods: seq<Pod>, nowSec: real): seq<Entry> {
    var h := LastSeen(nowSec);
    if |pods| == 0 then []
    else [Tally(pods, h, "<5min"), Tally(pods, h, "5min-1h"), Tally(pods, h, "1-24h"), Tally(pods, h, ">24h")]
  }

  /** getLastSeenDistribution(), with `Date.now() / 1000` passed in as `nowSec`: counting the
      pods one by one in four counters builds exactly the reference chart. */
  method LastSeenDistribution(pods: seq<Pod>, nowSec: real) returns (r: seq<Entry>)
    ensures r == LastSeenChart(pods, nowSec)
  {
    if |pods| == 0 {
      return [];
    }
    var h := LastSeen(nowSec);
    var underFive, underHour, underDay, older := 0, 0, 0, 0;
    var i := 0;
    ghost var seen: seq<Pod> := [];
    while i < |pods|
      invariant 0 <= i <= |pods| && seen == pods[..i]
      invariant underFive == CountKey(seen, h, "<5min")
      invariant underHour == CountKey(seen, h, "5min-1h")
      invariant underDay == CountKey(seen, h, "1-24h")
      invariant older == CountKey(seen, h, ">24h")
    {
      assert pods[..i + 1] == seen + [pods[i]];
      LastSeenTally(seen, pods[i], nowSec);
      var ageSeconds := nowSec - LastSeenOf(pods[i]);
      var ageMinutes := ageSeconds / 60.0;
      var ageHours := ageMinutes / 60.0;
      if ageMinutes < 5.0 {
        underFive := underFive + 1;
      } else if ageMinutes < 60.0 {
        underHour := underHour + 1;
      } else if ageHours < 24.0 {
        underDay := underDay + 1;
      } else {
        older := older + 1;
      }
      seen := seen + [pods[i]];
      i := i + 1;
    }
    assert pods[..i] == pods;
    r := [Entry("<5min", underFive), Entry("5min-1h", underHour), Entry("1-24h", underDay), Entry(">24h", older)];
  }

  /** Every pod falls in exactly one last-seen bucket. */
  lemma {:induction false} LastSeenBucketsCover(pods: seq<Pod>, nowSec: real)
    ensures var h := LastSeen(nowSec);
      CountKey(pods, h, "<5min") + CountKey(pods, h, "5min-1h") + CountKey(pods, h, "1-24h") + CountKey(pods, h, ">24h") == |pods|
  {
    if |pods| > 0 {
      LastSeenBucketsCover(pods[1..], nowSec);
      assert LastSeenBucket(pods[0], nowSec) in LAST_SEEN_BUCKETS;
    }
  }

  /** The last-seen chart counts every pod once, has data exactly when there are pods, and its
      first bucket is getOnlineCount(). */
  lemma LastSeenChartTotals(pods: seq<Pod>, nowSec: real)
    ensures EntrySum(LastSeenChart(pods, nowSec)) == |pods|
    ensures HasData(LastSeenChart(pods, nowSec)) <==> |pods| > 0
    ensures |pods| > 0 ==> LastSeenChart(pods, nowSec)[0].value == OnlineCount(pods, nowSec)
  {
    var c := LastSeenChart(pods, nowSec);
    if |pods| > 0 {
      LastSeenBucketsCover(pods, nowSec);
      EntrySumOfFour(c[0], c[1], c[2], c[3]);
      HasDataWhenSumPositive(c);
      OnlineIsLastSeenUnderFiveMinutes(pods, nowSec);
    }
  }

  /** Reference definition of the uptime chart: no items for no pods, else one tally per
      bucket, in chart order. */
  function UptimeChart(pods: seq<Pod>): seq<Entry> {
    var h := UptimeHealth;
    if |pods| == 0 then []
    else [Tally(pods, h, "No Uptime"), Tally(pods, h, "<1h"), Tally(pods, h, "1-24h"), Tally(pods, h, "1-7d"), Tally(pods, h, ">7d")]
  }

  /** getUptimeHealthDistribution(): counting the pods one by one in five counters builds
      exactly the reference chart. */
  method UptimeHealthDistribution(pods: seq<Pod>) returns (r: seq<Entry>)
    ensures r == UptimeChart(pods)
  {
    if |pods| == 0 {
      return [];
    }
    var h := UptimeHealth;
    var none, underHour, underDay, underWeek, longer := 0, 0, 0, 0, 0;
    var i := 0;
    ghost var seen: seq<Pod> := [];
    while i < |pods|
      invariant 0 <= i <= |pods| && seen == pods[..i]
      invariant none == CountKey(seen, h, "No Uptime")
      invariant underHour == CountKey(seen, h, "<1h")
      invariant underDay == CountKey(seen, h, "1-24h")
      invariant underWeek == CountKey(seen, h, "1-7d")
      invariant longer == CountKey(seen, h, ">7d")
    {
      assert pods[..i + 1] == seen + [pods[i]];
      CountKeySnoc(seen, pods[i], h, "No Uptime");
      CountKeySnoc(seen, pods[i], h, "<1h");
      CountKeySnoc(seen, pods[i], h, "1-24h");
      CountKeySnoc(seen, pods[i], h, "1-7d");
      CountKeySnoc(seen, pods[i], h, ">7d");
      var uptime := UptimeOf(pods[i]);
      if uptime == 0 {
        none := none + 1;
      } else {
        var hours := uptime as real / 3600.0;
        var days := hours / 24.0;
        if hours < 1.0 {
          underHour := underHour + 1;
        } else if hours < 24.0 {
          underDay := underDay + 1;
        } else if days < 7.0 {
          underWeek := underWeek + 1;
        } else {
          longer := longer + 1;
        }
      }
      seen := seen + [pods[i]];
      i := i + 1;
    }
    assert pods[..i] == pods;
    r := [Entry("No Uptime", none), Entry("<1h", underHour), Entry("1-24h", underDay), Entry("1-7d", underWeek), Entry(">7d", longer)];
  }

  /** Every pod falls in exactly one uptime bucket. */
  lemma {:induction false} UptimeBucketsCover(pods: seq<Pod>)
    ensures var h := UptimeHealth;
      CountKey(pods, h, "No Uptime") + CountKey(pods, h, "<1h") + CountKey(pods, h, "1-24h")
        + CountKey(pods, h, "1-7d") + CountKey(pods, h, ">7d") == |pods|
  {
    if |pods| > 0 {
      UptimeBucketsCover(pods[1..]);
      assert UptimeBucket(pods[0]) in UPTIME_BUCKETS;
    }
  }

  /** The uptime chart counts every pod once and has data exactly when there are pods. */
  lemma UptimeChartTotals(pods: seq<Pod>)
    ensures EntrySum(UptimeChart(pods)) == |pods|
    ensures HasData(UptimeChart(pods)) <==> |pods| > 0
  {
    var c := UptimeChart(pods);
    if |pods| > 0 {
      UptimeBucketsCover(pods);
      EntrySumOfFive(c[0], c[1], c[2], c[3], c[4]);
      HasDataWhenSumPositive(c);
    }
  }

  /** Some item is called `name`. */
  predicate HasName(items: seq<Entry>, name: string) {
    exists k :: 0 <= k < |items| && items[k].name == name
  }

  /** No two items share a name. */
  predicate DistinctNames(items: seq<Entry>) {
    forall a, b :: 0 <= a < b < |items| ==> items[a].name != items[b].name
  }

  /** Position of the item called `name`, if any. */
  function NameIndex(items: seq<Entry>, name: string): (r: Option<nat>)
    ensures r.Some? ==> r.value < |items| && items[r.value].name == name
    ensures r.None? ==> !HasName(items, name)
  {
    if |items| == 0 then None
    else if items[|items| - 1].name == name then Some(|items| - 1)
    else
      var r := NameIndex(items[..|items| - 1], name);
      assert forall k :: 0 <= k < |items| - 1 ==> items[..|items| - 1][k] == items[k];
      r
  }

  /** `counts` is the version Map after the pods `seen`: one item per distinct version, each
      holding its count, every version seen has an item, and the counts add up to |seen|. */
  predicate Tallies(counts: seq<Entry>, seen: seq<Pod>) {
    && DistinctNames(counts)
    && (forall k :: 0 <= k < |counts| ==>
          counts[k].value == CountKey(seen, Versions, counts[k].name) && counts[k].value > 0)
    && (forall j :: 0 <= j < |seen| ==> HasName(counts, VersionOf(seen[j])))
    && EntrySum(counts) == |seen|
  }

  /** `versionCounts.set(version, (versionCounts.get(version) || 0) + 1)`: an existing key keeps
      its place and goes up by one, a new key goes last with count 1. */
  function AddVersion(counts: seq<Entry>, version: string): seq<Entry> {
    var found := NameIndex(counts, version);
    if found.Some? then counts[found.value := Entry(version, counts[found.value].value + 1)]
    else counts + [Entry(version, 1)]
  }

  /** Counting one more pod keeps the Map a tally of the pods seen so far. */
  lemma AddVersionTallies(counts: seq<Entry>, seen: seq<Pod>, x: Pod)
    requires Tallies(counts, seen)
    ensures Tallies(AddVersion(counts, VersionOf(x)), seen + [x])
  {
    var found := NameIndex(counts, VersionOf(x));
    if found.Some? {
      AddKnownVersionTallies(counts, seen, x, found.value);
    } else {
      AddNewVersionTallies(counts, seen, x);
    }
  }

  /** A version already in the Map: its item goes up by one, every other item stays. */
  lemma AddKnownVersionTallies(counts: seq<Entry>, seen: seq<Pod>, x: Pod, k: nat)
    requires Tallies(counts, seen)
    requires k < |counts| && counts[k].name == VersionOf(x)
    ensures Tallies(counts[k := Entry(VersionOf(x), counts[k].value + 1)], seen + [x])
  {
    var version := VersionOf(x);
    var counts' := counts[k := Entry(version, counts[k].value + 1)];
    forall i | 0 <= i < |counts'|
      ensures counts'[i].value == CountKey(seen + [x], Versions, counts'[i].name) && counts'[i].value > 0
    {
      CountKeySnoc(seen, x, Versions, counts[i].name);
      if i != k {
        assert counts[i].name != version;
      }
    }
    forall j | 0 <= j < |seen + [x]|
      ensures HasName(counts', VersionOf((seen + [x])[j]))
    {
      if j < |seen| {
        var m :| 0 <= m < |counts| && counts[m].name == VersionOf(seen[j]);
        assert counts'[m].name == VersionOf((seen + [x])[j]);
      } else {
        assert counts'[k].name == VersionOf((seen + [x])[j]);
      }
    }
    EntrySumIncrement(counts, k);
  }

  /** A version not yet in the Map: it goes last with count 1, every other item stays. */
  lemma AddNewVersionTallies(counts: seq<Entry>, seen: seq<Pod>, x: Pod)
    requires Tallies(counts, seen)
    requires !HasName(counts, VersionOf(x))
    ensures Tallies(counts + [Entry(VersionOf(x), 1)], seen + [x])
  {
    var version := VersionOf(x);
    var counts' := counts + [Entry(version, 1)];
    forall j | 0 <= j < |seen|
      ensures VersionOf(seen[j]) != version
    {
      var m :| 0 <= m < |counts| && counts[m].name == VersionOf(seen[j]);
    }
    CountAbsent(seen, version);
    forall i | 0 <= i < |counts'|
      ensures counts'[i].value == CountKey(seen + [x], Versions, counts'[i].name) && counts'[i].value > 0
    {
      CountKeySnoc(seen, x, Versions, counts'[i].name);
      if i < |counts| {
        assert counts[i].name != version;
      }
    }
    forall j | 0 <= j < |seen + [x]|
      ensures HasName(counts', VersionOf((seen + [x])[j]))
    {
      if j < |seen| {
        var m :| 0 <= m < |counts| && counts[m].name == VersionOf(seen[j]);
        assert counts'[m].name == VersionOf((seen + [x])[j]);
      } else {
        assert counts'[|counts|].name == VersionOf((seen + [x])[j]);
      }
    }
    EntrySumAppend(counts, [Entry(version, 1)]);
  }

  /** getVersionDistribution(): one item per distinct version, a missing one named "Unknown",
      in order of first appearance as a JavaScript Map keeps them; each counts the pods
      running that version, every pod's version has an item, and the counts add up to
      the number of pods. */
  method VersionDistribution(pods: seq<Pod>) returns (r: seq<Entry>)
    ensures |pods| == 0 ==> r == []
    ensures Tallies(r, pods)
    ensures HasData(r) <==> |pods| > 0
  {
    if |pods| == 0 {
      return [];
    }
    var counts: seq<Entry> := [];
    var i := 0;
    ghost var seen: seq<Pod> := [];
    while i < |pods|
      invariant 0 <= i <= |pods| && seen == pods[..i]
      invariant Tallies(counts, seen)
    {
      AddVersionTallies(counts, seen, pods[i]);
      assert pods[..i + 1] == seen + [pods[i]];
      counts := AddVersion(counts, VersionOf(pods[i]));
      seen := seen + [pods[i]];
      i := i + 1;
    }
    assert pods[..i] == pods;
    r := counts;
    HasDataWhenSumPositive(r);
  }

  /** A version no pod runs is counted zero times. */
  lemma {:induction false} CountAbsent(pods: seq<Pod>, name: string)
    requires forall j :: 0 <= j < |pods| ==> VersionOf(pods[j]) != name
    ensures CountKey(pods, Versions, name) == 0
  {
    if |pods| > 0 {
      CountAbsent(pods[1..], name);
    }
  }
}
