/** The dashboard's summary numbers and table filters (dashboard/dashboard.component.ts;
    app.ts carries textual copies of the two totals). */
module Aggregates {

  import opened Model
  import opened Constants

  /** Reference definition: the storage the pods report, a missing figure counting as 0. */
  function StorageSum(pods: seq<Pod>): int {
    if |pods| == 0 then 0 else StorageOf(pods[0]) + StorageSum(pods[1..])
  }

  lemma {:induction false} StorageSumAppend(a: seq<Pod>, b: seq<Pod>)
    ensures StorageSum(a + b) == StorageSum(a) + StorageSum(b)
  {
    if |a| == 0 {
      assert a + b == b;
    } else {
      assert (a + b)[1..] == a[1..] + b;
      StorageSumAppend(a[1..], b);
    }
  }

  /** A list whose pods all report at most zero bytes totals at most zero. */
  lemma {:induction false} StorageSumNonPositive(pods: seq<Pod>)
    requires forall i :: 0 <= i < |pods| ==> StorageOf(pods[i]) <= 0
    ensures StorageSum(pods) <= 0
  {
    if |pods| > 0 {
      StorageSumNonPositive(pods[1..]);
    }
  }

  /** `pods.reduce((sum, pod) => sum + (pod.storage_used || 0), acc)`, folding left to right. */
  function ReduceStorage(pods: seq<Pod>, acc: int): (r: int)
    ensures r == acc + StorageSum(pods)
  {
    if |pods| == 0 then acc else ReduceStorage(pods[1..], acc + StorageOf(pods[0]))
  }

  /** getTotalStorage(): the sum of the pods' storage, 0 for no pods. */
  function TotalStorage(pods: seq<Pod>): (r: int)
    ensures r == StorageSum(pods)
    ensures |pods| == 0 ==> r == 0
  {
    ReduceStorage(pods, 0)
  }

  /** A pod counts as online when it was seen strictly less than five minutes before `nowSec`. */
  predicate IsOnline(p: Pod, nowSec: real) {
    LastSeenOf(p) > nowSec - 300.0
  }

  /** `pods.filter(pod => (pod.last_seen_timestamp || 0) > nowSec - 300)` */
  function OnlinePods(pods: seq<Pod>, nowSec: real): (r: seq<Pod>)
    ensures |r| <= |pods|
    ensures forall p :: p in r ==> p in pods && IsOnline(p, nowSec)
    ensures forall i :: 0 <= i < |pods| && IsOnline(pods[i], nowSec) ==> pods[i] in r
    ensures |r| == |pods| <==> forall i :: 0 <= i < |pods| ==> IsOnline(pods[i], nowSec)
  {
    if |pods| == 0 then []
    else
      var rest := OnlinePods(pods[1..], nowSec);
      assert forall i :: 1 <= i < |pods| ==> pods[i] == pods[1..][i - 1];
      if IsOnline(pods[0], nowSec) then [pods[0]] + rest else rest
  }

  /** The filter keeps each online pod as often as it occurs, and no other pod. */
  lemma {:induction false} OnlinePodsCounts(pods: seq<Pod>, nowSec: real)
    ensures forall p :: multiset(OnlinePods(pods, nowSec))[p] == if IsOnline(p, nowSec) then multiset(pods)[p] else 0
  {
    if |pods| > 0 {
      OnlinePodsCounts(pods[1..], nowSec);
      assert pods == [pods[0]] + pods[1..];
    }
  }

  /** getOnlineCount(), with `Date.now() / 1000` passed in as `nowSec`: never more than the
      number of pods, zero exactly when no pod is online, all of them exactly when every one is. */
  function OnlineCount(pods: seq<Pod>, nowSec: real): (r: nat)
    ensures r <= |pods|
    ensures r == 0 <==> forall i :: 0 <= i < |pods| ==> !IsOnline(pods[i], nowSec)
    ensures r == |pods| <==> forall i :: 0 <= i < |pods| ==> IsOnline(pods[i], nowSec)
  {
    var online := OnlinePods(pods, nowSec);
    assert |online| > 0 ==> online[0] in online;
    |online|
  }

  /** The values the storage filter offers. */
  const STORAGE_FILTERS: seq<string> := [">5gb", ">1gb", "<1gb", "none"]

  /** filterByStorage(value, item) */
  function FilterByStorage(value: string, item: Pod): (r: bool)
    ensures value == ">5gb" ==> (r <==> StorageOf(item) > 5 * ONE_GB)
    ensures value == ">1gb" ==> (r <==> StorageOf(item) > ONE_GB)
    ensures value == "<1gb" ==> (r <==> 0 < StorageOf(item) < ONE_GB)
    ensures value == "none" ==> (r <==> StorageOf(item) == 0)
    ensures value !in STORAGE_FILTERS ==> r
  {
    var storage := StorageOf(item);
    var oneGB := 1024 * 1024 * 1024;
    if value == ">5gb" then storage > 5 * oneGB
    else if value == ">1gb" then storage > oneGB
    else if value == "<1gb" then storage < oneGB && storage > 0
    else if value == "none" then storage == 0
    else true
  }

  /** The storage filters are nested or disjoint, and a pod holding exactly one GiB
      falls between them: no storage bucket accepts it. */
  lemma StorageFilterBuckets(item: Pod)
    ensures FilterByStorage(">5gb", item) ==> FilterByStorage(">1gb", item)
    ensures !(FilterByStorage("none", item) && FilterByStorage("<1gb", item))
    ensures !(FilterByStorage("<1gb", item) && FilterByStorage(">1gb", item))
    ensures !(FilterByStorage("none", item) && FilterByStorage(">1gb", item))
    ensures StorageOf(item) >= 0 ==>
      ((FilterByStorage("none", item) || FilterByStorage("<1gb", item) || FilterByStorage(">1gb", item))
       <==> StorageOf(item) != ONE_GB)
  {
  }

  /** The values the storage-percentage filter offers. */
  const STORAGE_PERCENT_FILTERS: seq<string> := [">0.8", ">0.5", "<0.25", "0"]

  /** filterByStoragePercent(value, item) */
  function FilterByStoragePercent(value: string, item: Pod): (r: bool)
    ensures value == ">0.8" ==> (r <==> StoragePercentOf(item) > 0.8)
    ensures value == ">0.5" ==> (r <==> StoragePercentOf(item) > 0.5)
    ensures value == "<0.25" ==> (r <==> 0.0 < StoragePercentOf(item) < 0.25)
    ensures value == "0" ==> (r <==> StoragePercentOf(item) == 0.0)
    ensures value !in STORAGE_PERCENT_FILTERS ==> r
  {
    var percent := StoragePercentOf(item);
    if value == ">0.8" then percent > 0.8
    else if value == ">0.5" then percent > 0.5
    else if value == "<0.25" then percent < 0.25 && percent > 0.0
    else if value == "0" then percent == 0.0
    else true
  }

  /** ">0.8" is nested in ">0.5"; "0", "<0.25" and ">0.5" never accept the same pod; and a
      pod using from a quarter up to half of its storage falls between them: no
      percentage bucket accepts it. */
  lemma StoragePercentFilterBuckets(item: Pod)
    ensures FilterByStoragePercent(">0.8", item) ==> FilterByStoragePercent(">0.5", item)
    ensures !(FilterByStoragePercent("0", item) && FilterByStoragePercent("<0.25", item))
    ensures !(FilterByStoragePercent("<0.25", item) && FilterByStoragePercent(">0.5", item))
    ensures !(FilterByStoragePercent("0", item) && FilterByStoragePercent(">0.5", item))
    ensures 0.25 <= StoragePercentOf(item) <= 0.5 ==>
      forall v :: v in STORAGE_PERCENT_FILTERS ==> !FilterByStoragePercent(v, item)
    ensures StoragePercentOf(item) >= 0.0 ==>
      ((FilterByStoragePercent("0", item) || FilterByStoragePercent("<0.25", item)
        || FilterByStoragePercent(">0.5", item))
       <==> !(0.25 <= StoragePercentOf(item) <= 0.5))
  {
  }

  /** The values the uptime filter offers. */
  const UPTIME_FILTERS: seq<string> := [">7d", ">1d", ">1h", "<1h", "none"]

  /** filterByUptime(value, item): note that "> 1 hour" is bounded above by one day. */
  function FilterByUptime(value: string, item: Pod): (r: bool)
    ensures value == ">7d" ==> (r <==> UptimeOf(item) > 604800)
    ensures value == ">1d" ==> (r <==> UptimeOf(item) > 86400)
    ensures value == ">1h" ==> (r <==> 3600 < UptimeOf(item) <= 86400)
    ensures value == "<1h" ==> (r <==> 0 < UptimeOf(item) < 3600)
    ensures value == "none" ==> (r <==> UptimeOf(item) == 0)
    ensures value !in UPTIME_FILTERS ==> r
  {
    var uptime := UptimeOf(item);
    if value == ">7d" then uptime > 7 * 24 * 3600
    else if value == ">1d" then uptime > 24 * 3600
    else if value == ">1h" then uptime > 3600 && uptime <= 24 * 3600
    else if value == "<1h" then uptime < 3600 && uptime > 0
    else if value == "none" then uptime == 0
    else true
  }

  /** "> 1 hour" and "> 1 day" never both accept a pod; "none", "< 1 hour", "> 1 hour" and
      "> 1 day" split the non-negative uptimes between them, except exactly one hour,
      which none of them accepts. */
  lemma UptimeFilterBuckets(item: Pod)
    ensures FilterByUptime(">7d", item) ==> FilterByUptime(">1d", item)
    ensures !(FilterByUptime(">1h", item) && FilterByUptime(">1d", item))
    ensures !(FilterByUptime("<1h", item) && FilterByUptime(">1h", item))
    ensures !(FilterByUptime("none", item) && FilterByUptime("<1h", item))
    ensures UptimeOf(item) >= 0 ==>
      ((FilterByUptime("none", item) || FilterByUptime("<1h", item) || FilterByUptime(">1h", item)
        || FilterByUptime(">1d", item)) <==> UptimeOf(item) != 3600)
  {
  }
}
