/** The records the dashboard works on (the `Pod` and `NodeStats` interfaces of
    services/p-rpc.service.ts and services/model.ts) and the JavaScript `||` defaults
    the code applies to their optional fields. */
module Model {

  import opened Wrappers

  /** One storage node as reported by gossip; every field may be missing.
      Timestamps are seconds, storage is bytes, uptime is whole seconds. */
  datatype Pod = Pod(
    address: Option<string>,
    pubkey: Option<string>,
    lastSeenTimestamp: Option<real>,
    version: Option<string>,
    isPublic: Option<bool>,
    rpcPort: Option<int>,
    storageCommitted: Option<int>,
    storageUsagePercent: Option<real>,
    storageUsed: Option<int>,
    uptime: Option<int>)

  /** Statistics of the connected node at one poll. */
  datatype NodeStats = NodeStats(
    activeStreams: int,
    cpuPercent: real,
    currentIndex: int,
    fileSize: int,
    lastUpdated: int,
    packetsReceived: int,
    packetsSent: int,
    ramTotal: int,
    ramUsed: int,
    totalBytes: int,
    totalPages: int,
    uptime: int)

  /** One `{ name, value }` item of a chart's data. */
  datatype Entry = Entry(name: string, value: int)

  /** `x || 0` on an optional number: a missing value (and 0 itself) reads as 0. */
  function IntOrZero(x: Option<int>): int {
    if x.Some? then x.value else 0
  }

  function RealOrZero(x: Option<real>): real {
    if x.Some? then x.value else 0.0
  }

  /** `x || fallback` on an optional string: missing and empty strings are falsy. */
  function TextOr(x: Option<string>, fallback: string): string {
    if x.Some? && x.value != "" then x.value else fallback
  }

  /** `pod.storage_used || 0` */
  function StorageOf(p: Pod): int {
    IntOrZero(p.storageUsed)
  }

  /** `pod.last_seen_timestamp || 0` */
  function LastSeenOf(p: Pod): real {
    RealOrZero(p.lastSeenTimestamp)
  }

  /** `pod.uptime || 0` */
  function UptimeOf(p: Pod): int {
    IntOrZero(p.uptime)
  }

  /** `pod.storage_usage_percent || 0` */
  function StoragePercentOf(p: Pod): real {
    RealOrZero(p.storageUsagePercent)
  }

  /** `pod.version || 'Unknown'` */
  function VersionOf(p: Pod): string {
    TextOr(p.version, "Unknown")
  }

  /** Sum of the values of chart items. */
  function EntrySum(items: seq<Entry>): int {
    if |items| == 0 then 0 else items[0].value + EntrySum(items[1..])
  }

  /** The total of a four-item chart. */
  lemma EntrySumOfFour(a: Entry, b: Entry, c: Entry, d: Entry)
    ensures EntrySum([a, b, c, d]) == a.value + b.value + c.value + d.value
  {
    assert EntrySum([d]) == d.value by { assert [d][1..] == []; }
    assert EntrySum([c, d]) == c.value + d.value by { assert [c, d][1..] == [d]; }
    assert EntrySum([b, c, d]) == b.value + c.value + d.value by { assert [b, c, d][1..] == [c, d]; }
    assert [a, b, c, d][1..] == [b, c, d];
  }

  /** The total of a five-item chart. */
  lemma EntrySumOfFive(a: Entry, b: Entry, c: Entry, d: Entry, e: Entry)
    ensures EntrySum([a, b, c, d, e]) == a.value + b.value + c.value + d.value + e.value
  {
    assert [a, b, c, d, e][1..] == [b, c, d, e];
    EntrySumOfFour(b, c, d, e);
  }

  lemma {:induction false} EntrySumAppend(a: seq<Entry>, b: seq<Entry>)
    ensures EntrySum(a + b) == EntrySum(a) + EntrySum(b)
  {
    if |a| > 0 {
      assert (a + b)[1..] == a[1..] + b;
      EntrySumAppend(a[1..], b);
    } else {
      assert a + b == b;
    }
  }

  /** Raising one item's value by one raises the sum by one. */
  lemma {:induction false} EntrySumIncrement(items: seq<Entry>, k: nat)
    requires k < |items|
    ensures EntrySum(items[k := Entry(items[k].name, items[k].value + 1)]) == EntrySum(items) + 1
  {
    if k > 0 {
      var items' := items[k := Entry(items[k].name, items[k].value + 1)];
      assert items'[1..] == items[1..][k - 1 := Entry(items[k].name, items[k].value + 1)];
      EntrySumIncrement(items[1..], k - 1);
    }
  }
}
