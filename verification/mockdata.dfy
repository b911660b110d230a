/** The rolling bar chart of services/mock-data.service.ts: the service's `repo`
    (anchor time, pods, stats history), the two generators' effect on it, and
    getBarChart's projection of the history with its lazy eviction. */
module MockData {

  import opened Wrappers
  import opened Constants
  import opened Model
  import opened Utils

  /** The service's `repo`: the anchor `timenow` (ms) of chart slot 0, the pods generated
      last, and the stats history, oldest first. */
  datatype Repo = Repo(timenow: Option<int>, pods: seq<Pod>, stats: seq<NodeStats>)

  const INITIAL_REPO: Repo := Repo(None, [], [])

  /** JavaScript truthiness of `repo.timenow`: unset and 0 are falsy. */
  predicate IsTruthy(t: Option<int>) {
    t.Some? && t.value != 0
  }

  /** `repo.timenow || 0` */
  function AnchorOf(repo: Repo): int {
    if repo.timenow.Some? then repo.timenow.value else 0
  }

  /** The effect of generateMockPods on `repo` (its pods are random and come in as
      `pods`; `Date.now()` comes in as `nowMs`): the pods are replaced, the anchor is pinned
      on first use and kept afterwards, and the history is left alone. Returns the pods. */
  function GenerateMockPods(repo: Repo, pods: seq<Pod>, nowMs: int): (r: (Repo, seq<Pod>))
    ensures r.1 == pods && r.0.pods == pods
    ensures r.0.stats == repo.stats
    ensures IsTruthy(repo.timenow) ==> r.0.timenow == repo.timenow
    ensures !IsTruthy(repo.timenow) ==> r.0.timenow == Some(nowMs)
  {
    var timenow := if IsTruthy(repo.timenow) then repo.timenow.value else nowMs;
    (repo.(timenow := Some(timenow), pods := pods), pods)
  }

  /** Once pinned to a non-zero time, later generations never move the anchor. */
  lemma {:induction false} AnchorPinnedOnce(repo: Repo, first: seq<Pod>, firstNow: int, later: seq<seq<Pod>>, laterNows: seq<int>)
    requires firstNow != 0 || IsTruthy(repo.timenow)
    requires |later| == |laterNows|
    ensures GenerateMany(GenerateMockPods(repo, first, firstNow).0, later, laterNows).timenow
         == GenerateMockPods(repo, first, firstNow).0.timenow
    decreases |later|
  {
    if |later| > 0 {
      var r1 := GenerateMockPods(repo, first, firstNow).0;
      assert IsTruthy(r1.timenow);
      var r2 := GenerateMockPods(r1, later[0], laterNows[0]).0;
      assert GenerateMockPods(r1, later[0], laterNows[0]).0 == r2;
      AnchorPinnedOnce(r1, later[0], laterNows[0], later[1..], laterNows[1..]);
    }
  }

  /** Several generateMockPods calls in a row. */
  function GenerateMany(repo: Repo, pods: seq<seq<Pod>>, nows: seq<int>): Repo
    requires |pods| == |nows|
    decreases |pods|
  {
    if |pods| == 0 then repo else GenerateMany(GenerateMockPods(repo, pods[0], nows[0]).0, pods[1..], nows[1..])
  }

  /** The effect of generateMockNodeStats on `repo` (the random record comes in as `st`):
      the record is appended after every earlier one, which keep their places; returns the record. */
  function GenerateMockNodeStats(repo: Repo, st: NodeStats): (r: (Repo, NodeStats))
    ensures r.1 == st
    ensures |r.0.stats| == |repo.stats| + 1
    ensures r.0.stats[..|repo.stats|] == repo.stats && r.0.stats[|repo.stats|] == st
    ensures r.0.timenow == repo.timenow && r.0.pods == repo.pods
  {
    var stats := repo.stats + [st];
    assert stats[..|repo.stats|] == repo.stats;
    (repo.(stats := stats), st)
  }

  // ---------------------------------------------------------------------------
  // Projection

  /** Start time (ms) of chart slot `i` for the anchor `anchor`. */
  function SlotTime(anchor: int, i: int): int {
    anchor + i * POLL_INTERVAL
  }

  /** `stat.total_bytes / ONE_GB` and `stat.packets_sent / ONE_MB`, exactly. */
  function InGiB(bytes: int): real {
    bytes as real / ONE_GB as real
  }

  function InMiB(count: int): real {
    count as real / ONE_MB as real
  }

  /** The three arrays getBarChart's `forEach` fills. */
  datatype Projection = Projection(labels: seq<string>, totalBytes: seq<real>, packetsSent: seq<real>)

  /** One label and one value per series for each record, in history order. */
  function Project(stats: seq<NodeStats>, anchor: int, local: LocalClock): Projection {
    Projection(
      seq(|stats|, i requires 0 <= i < |stats| => Get24Clock(SlotTime(anchor, i), local)),
      seq(|stats|, i requires 0 <= i < |stats| => InGiB(stats[i].totalBytes)),
      seq(|stats|, i requires 0 <= i < |stats| => InMiB(stats[i].packetsSent)))
  }

  /** The projection with its first `shift` items dropped describes the records from `shift` on. */
  lemma ProjectShifted(stats: seq<NodeStats>, anchor: int, local: LocalClock, shift: nat)
    requires shift <= |stats|
    ensures var p := Project(stats, anchor, local);
      && |p.labels[shift..]| == |stats| - shift
      && |p.totalBytes[shift..]| == |stats| - shift
      && |p.packetsSent[shift..]| == |stats| - shift
      && forall i :: 0 <= i < |stats| - shift ==>
           && p.labels[shift..][i] == Get24Clock(SlotTime(anchor, i + shift), local)
           && p.totalBytes[shift..][i] == InGiB(stats[i + shift].totalBytes)
           && p.packetsSent[shift..][i] == InMiB(stats[i + shift].packetsSent)
  {
    var p := Project(stats, anchor, local);
    forall i | 0 <= i < |stats| - shift
      ensures p.labels[shift..][i] == Get24Clock(SlotTime(anchor, i + shift), local)
      ensures p.totalBytes[shift..][i] == InGiB(stats[i + shift].totalBytes)
      ensures p.packetsSent[shift..][i] == InMiB(stats[i + shift].packetsSent)
    {
      assert p.labels[shift..][i] == p.labels[i + shift];
      assert p.totalBytes[shift..][i] == p.totalBytes[i + shift];
      assert p.packetsSent[shift..][i] == p.packetsSent[i + shift];
    }
  }

  /** A chart series: the style fields copied from the template, and the data. */
  datatype Series = Series(name: string, kind: string, yAxisIndex: nat, data: seq<real>)

  /** The parts of the options object that getBarChart fills: the x-axis labels and the two series. */
  datatype ChartOptions = ChartOptions(xAxisData: seq<string>, series: seq<Series>)

  /** The shared ECHARTS_OPTIONS template, as far as the chart data is concerned. */
  const ECHARTS_OPTIONS: ChartOptions :=
    ChartOptions([], [Series("Total Bytes", "bar", 0, []), Series("Packets Sent", "line", 1, [])])

  /** An options object with its data emptied out. */
  function WithoutData(o: ChartOptions): ChartOptions {
    ChartOptions([], seq(|o.series|, i requires 0 <= i < |o.series| => o.series[i].(data := [])))
  }

  /** `{ ...ECHARTS_OPTIONS, xAxis: { ..., data }, series: [{ ..., data }, { ..., data }] }`:
      a new object; the template itself is a constant and never changes. */
  function MergeIntoTemplate(labels: seq<string>, totalBytes: seq<real>, packetsSent: seq<real>): (o: ChartOptions)
    ensures WithoutData(o) == ECHARTS_OPTIONS
    ensures o.xAxisData == labels && |o.series| == 2
    ensures o.series[0].data == totalBytes && o.series[1].data == packetsSent
  {
    var o := ChartOptions(labels, [ECHARTS_OPTIONS.series[0].(data := totalBytes), ECHARTS_OPTIONS.series[1].(data := packetsSent)]);
    assert WithoutData(o).series == ECHARTS_OPTIONS.series;
    o
  }

  /** The eviction getBarChart performs after its `forEach` (the `slice(-MAX_BARS - 1)`, the
      `shift()` and the anchor step): with more than
      MAX_BARS records, the history becomes its last MAX_BARS records, in order, and the
      anchor moves forward by exactly one slot, whatever the number of records dropped. */
  function Trim(repo: Repo): (r: Repo)
    ensures r.pods == repo.pods
    ensures |repo.stats| <= MAX_BARS ==> r == repo
    ensures |repo.stats| > MAX_BARS ==>
      && |r.stats| == MAX_BARS
      && r.stats == repo.stats[|repo.stats| - MAX_BARS..]
      && r.timenow == AdvanceSlots(repo.timenow, 1)
  {
    if |repo.stats| > MAX_BARS then
      var window := repo.stats[|repo.stats| - (MAX_BARS + 1)..];
      repo.(stats := window[1..], timenow := AdvanceSlots(repo.timenow, 1))
    else repo
  }

  /** `timenow! + n * POLL_INTERVAL`. An unset anchor becomes NaN in JavaScript, which every
      reader of `timenow` treats exactly like unset, so it stays `None` here. */
  function AdvanceSlots(t: Option<int>, n: nat): Option<int> {
    if t.Some? then Some(t.value + n * POLL_INTERVAL) else None
  }

  /** getBarChart(): projects the whole history, then (with more than MAX_BARS records) evicts
      down to MAX_BARS and drops only the first item of each output array. Label i is the clock
      time of slot i + shift, and the series carry the same records' bytes in GiB and packets in
      MiB, where shift is 1 after an eviction and 0 otherwise. */
  function GetBarChart(repo: Repo, local: LocalClock): (r: (Repo, ChartOptions))
    ensures r.0 == Trim(repo)
    ensures WithoutData(r.1) == ECHARTS_OPTIONS
    ensures var shift := if |repo.stats| > MAX_BARS then 1 else 0;
      && |r.1.xAxisData| == |repo.stats| - shift
      && |r.1.series[0].data| == |r.1.xAxisData| && |r.1.series[1].data| == |r.1.xAxisData|
      && forall i :: 0 <= i < |r.1.xAxisData| ==>
           && r.1.xAxisData[i] == Get24Clock(SlotTime(AnchorOf(repo), i + shift), local)
           && r.1.series[0].data[i] == InGiB(repo.stats[i + shift].totalBytes)
           && r.1.series[1].data[i] == InMiB(repo.stats[i + shift].packetsSent)
  {
    var shift := if |repo.stats| > MAX_BARS then 1 else 0;
    (Trim(repo), ShiftedChart(repo.stats, AnchorOf(repo), local, shift))
  }

  /** The options built from the projection with its first `shift` items dropped
      (`slice(1)` after an eviction, the whole arrays otherwise). */
  function ShiftedChart(stats: seq<NodeStats>, anchor: int, local: LocalClock, shift: nat): (o: ChartOptions)
    requires shift <= |stats|
    ensures WithoutData(o) == ECHARTS_OPTIONS
    ensures var p := Project(stats, anchor, local);
      && o.xAxisData == p.labels[shift..]
      && o.series[0].data == p.totalBytes[shift..]
      && o.series[1].data == p.packetsSent[shift..]
    ensures |o.xAxisData| == |stats| - shift
    ensures |o.series[0].data| == |o.xAxisData| && |o.series[1].data| == |o.xAxisData|
    ensures forall i :: 0 <= i < |o.xAxisData| ==>
      && o.xAxisData[i] == Get24Clock(SlotTime(anchor, i + shift), local)
      && o.series[0].data[i] == InGiB(stats[i + shift].totalBytes)
      && o.series[1].data[i] == InMiB(stats[i + shift].packetsSent)
  {
    var p := Project(stats, anchor, local);
    ProjectShifted(stats, anchor, local, shift);
    MergeIntoTemplate(p.labels[shift..], p.totalBytes[shift..], p.packetsSent[shift..])
  }

  /** The chart shows exactly `repo`'s history, labelled from its own anchor. */
  predicate ShowsHistory(chart: ChartOptions, repo: Repo, local: LocalClock) {
    var p := Project(repo.stats, AnchorOf(repo), local);
    && |chart.series| == 2
    && chart.xAxisData == p.labels
    && chart.series[0].data == p.totalBytes
    && chart.series[1].data == p.packetsSent
  }

  /** Without overflow the chart is exactly the history, and nothing changes. */
  lemma ChartWithinCapacity(repo: Repo, local: LocalClock)
    requires |repo.stats| <= MAX_BARS
    ensures GetBarChart(repo, local).0 == repo
    ensures ShowsHistory(GetBarChart(repo, local).1, repo, local)
  {
  }

  /** With exactly one record over capacity and the anchor set, the chart is exactly the
      retained history labelled from the advanced anchor: the labels and data agree, and each
      retained record keeps the clock time it had before the eviction. */
  lemma ChartAfterOneOverflow(repo: Repo, local: LocalClock)
    requires |repo.stats| == MAX_BARS + 1 && repo.timenow.Some?
    ensures var (repo', chart) := GetBarChart(repo, local);
      && ShowsHistory(chart, repo', local)
      && AnchorOf(repo') == AnchorOf(repo) + POLL_INTERVAL
      && forall i :: 0 <= i < MAX_BARS ==>
           repo'.stats[i] == repo.stats[i + 1] && SlotTime(AnchorOf(repo'), i) == SlotTime(AnchorOf(repo), i + 1)
  {
    var (repo', chart) := GetBarChart(repo, local);
    var p := Project(repo'.stats, AnchorOf(repo'), local);
    forall i | 0 <= i < MAX_BARS
      ensures chart.xAxisData[i] == p.labels[i]
    {
      assert SlotTime(AnchorOf(repo'), i) == SlotTime(AnchorOf(repo), i + 1);
    }
  }

  /** The chart agrees with the history it keeps, label for label and value for value, exactly
      when the history held at most one record over capacity when it was projected. */
  lemma ChartAlignedIffAtMostOneOver(repo: Repo, local: LocalClock)
    requires repo.timenow.Some?
    ensures var (repo', chart) := GetBarChart(repo, local);
      ShowsHistory(chart, repo', local) <==> |repo.stats| <= MAX_BARS + 1
  {
    var (repo', chart) := GetBarChart(repo, local);
    if |repo.stats| <= MAX_BARS {
      ChartWithinCapacity(repo, local);
    } else if |repo.stats| == MAX_BARS + 1 {
      ChartAfterOneOverflow(repo, local);
    } else {
      assert |chart.xAxisData| == |repo.stats| - 1 > MAX_BARS == |Project(repo'.stats, AnchorOf(repo'), local).labels|;
    }
  }

  /** With two records over capacity (a record was added without a projection in between),
      the chart shows MAX_BARS + 1 bars although only MAX_BARS records are kept, and the anchor
      falls one slot behind: the record kept first was labelled at slot 2 of the old anchor,
      but the next projection labels it one poll interval earlier. */
  lemma ChartAfterTwoOverflow(repo: Repo, local: LocalClock)
    requires |repo.stats| == MAX_BARS + 2 && repo.timenow.Some?
    ensures var (repo', chart) := GetBarChart(repo, local);
      && |chart.xAxisData| == MAX_BARS + 1
      && |repo'.stats| == MAX_BARS
      && repo'.stats[0] == repo.stats[2]
      && chart.xAxisData[1] == Get24Clock(SlotTime(AnchorOf(repo), 2), local)
      && SlotTime(AnchorOf(repo'), 0) == SlotTime(AnchorOf(repo), 2) - POLL_INTERVAL
  {
  }

  // ---------------------------------------------------------------------------
  // The rolling window over many polls

  /** One mock poll as the dashboard drives it: a record is appended, then the chart is projected. */
  function Poll(repo: Repo, st: NodeStats): Repo {
    Trim(GenerateMockNodeStats(repo, st).0)
  }

  /** A run of polls, one record each. */
  function Run(repo: Repo, records: seq<NodeStats>): Repo
    decreases |records|
  {
    if |records| == 0 then repo else Run(Poll(repo, records[0]), records[1..])
  }

  /** The last `n` records of `s` (all of them when there are fewer). */
  function LastN(s: seq<NodeStats>, n: nat): (r: seq<NodeStats>)
    ensures |r| == if |s| <= n then |s| else n
  {
    if |s| <= n then s else s[|s| - n..]
  }

  lemma LastNOfLastN(a: seq<NodeStats>, b: seq<NodeStats>, n: nat)
    ensures LastN(LastN(a, n) + b, n) == LastN(a + b, n)
  {
    if |a| > n {
      var a' := a[|a| - n..];
      if |b| > 0 {
        var lhs := (a' + b)[|a' + b| - n..];
        var rhs := (a + b)[|a + b| - n..];
        forall i | 0 <= i < n
          ensures lhs[i] == rhs[i]
        {
          if i + |a' + b| - n < |a'| {
            assert lhs[i] == a'[i + |a' + b| - n] == a[i + |a' + b| - n + |a| - n];
          }
        }
      } else {
        assert a + b == a;
        assert a' + b == a';
      }
    }
  }

  /** How many records a run drops: everything beyond the last MAX_BARS. */
  function Evicted(held: nat, added: nat): nat {
    if held + added > MAX_BARS then held + added - MAX_BARS else 0
  }

  /** One poll on a history within capacity keeps its last MAX_BARS records and moves the
      anchor by the one slot it may have dropped. */
  lemma PollStep(repo: Repo, st: NodeStats)
    requires |repo.stats| <= MAX_BARS
    ensures var next := Poll(repo, st);
      && next.stats == LastN(repo.stats + [st], MAX_BARS)
      && next.timenow == AdvanceSlots(repo.timenow, Evicted(|repo.stats|, 1))
      && next.pods == repo.pods
  {
  }

  lemma AdvanceSlotsAdd(t: Option<int>, a: nat, b: nat)
    ensures AdvanceSlots(AdvanceSlots(t, a), b) == AdvanceSlots(t, a + b)
  {
  }

  /** Polls that add one record each keep the window: the history is always the last MAX_BARS
      records ever added, in order, and the anchor has moved forward one slot per record dropped. */
  lemma {:induction false} RunKeepsWindow(repo: Repo, records: seq<NodeStats>)
    requires |repo.stats| <= MAX_BARS
    ensures var r := Run(repo, records);
      && r.stats == LastN(repo.stats + records, MAX_BARS)
      && r.timenow == AdvanceSlots(repo.timenow, Evicted(|repo.stats|, |records|))
      && r.pods == repo.pods
    decreases |records|
  {
    if |records| == 0 {
      assert repo.stats + records == repo.stats;
    } else {
      var next := Poll(repo, records[0]);
      var last := Run(next, records[1..]);
      RunStep(repo, records);
      PollStep(repo, records[0]);
      assert |next.stats| <= MAX_BARS;
      RunKeepsWindow(next, records[1..]);
      WindowStep(repo.stats, repo.timenow, records, next.stats, next.timenow, last.stats, last.timenow);
    }
  }

  /** A non-empty run is its first poll followed by the rest. */
  lemma RunStep(repo: Repo, records: seq<NodeStats>)
    requires |records| > 0
    ensures Run(repo, records) == Run(Poll(repo, records[0]), records[1..])
  {
  }

  /** One poll followed by the rest of a run keeps the same window and anchor as the whole run
      taken at once. */
  lemma WindowStep(held: seq<NodeStats>, t: Option<int>, records: seq<NodeStats>,
                   mid: seq<NodeStats>, midT: Option<int>, after: seq<NodeStats>, afterT: Option<int>)
    requires |held| <= MAX_BARS && |records| >= 1
    requires mid == LastN(held + [records[0]], MAX_BARS) && midT == AdvanceSlots(t, Evicted(|held|, 1))
    requires after == LastN(mid + records[1..], MAX_BARS)
    requires afterT == AdvanceSlots(midT, Evicted(|mid|, |records| - 1))
    ensures after == LastN(held + records, MAX_BARS)
    ensures afterT == AdvanceSlots(t, Evicted(|held|, |records|))
  {
    assert Evicted(|held|, 1) + Evicted(|mid|, |records| - 1) == Evicted(|held|, |records|);
    AdvanceSlotsAdd(t, Evicted(|held|, 1), Evicted(|mid|, |records| - 1));
    LastNOfLastN(held + [records[0]], records[1..], MAX_BARS);
    assert held + [records[0]] + records[1..] == held + records;
  }

  /** No label drift while every poll adds one record: each retained record is the one added
      Evicted positions further along, and its slot under the moved anchor is the clock time
      of its position in the whole sequence of records under the original anchor. */
  lemma {:induction false} RunHasNoDrift(repo: Repo, records: seq<NodeStats>)
    requires |repo.stats| <= MAX_BARS && repo.timenow.Some?
    ensures |Run(repo, records).stats| <= MAX_BARS
    ensures |Run(repo, records).stats| + Evicted(|repo.stats|, |records|) == |repo.stats| + |records|
    ensures var r := Run(repo, records);
      var e := Evicted(|repo.stats|, |records|);
      forall i :: 0 <= i < |r.stats| ==>
           && r.stats[i] == (repo.stats + records)[i + e]
           && SlotTime(AnchorOf(r), i) == SlotTime(AnchorOf(repo), i + e)
  {
    RunKeepsWindow(repo, records);
    var r := Run(repo, records);
    WindowPositions(repo.stats + records, r.stats, Evicted(|repo.stats|, |records|), AnchorOf(repo), AnchorOf(r));
  }

  /** The last MAX_BARS of `all` start at position `e`, and an anchor moved by `e` slots labels
      them with their positions' times under the original anchor. */
  lemma WindowPositions(all: seq<NodeStats>, window: seq<NodeStats>, e: nat, anchor: int, anchor': int)
    requires window == LastN(all, MAX_BARS)
    requires e == if |all| > MAX_BARS then |all| - MAX_BARS else 0
    requires anchor' == anchor + e * POLL_INTERVAL
    ensures |window| <= MAX_BARS && |window| + e == |all|
    ensures forall i :: 0 <= i < |window| ==>
      window[i] == all[i + e] && SlotTime(anchor', i) == SlotTime(anchor, i + e)
  {
    forall i | 0 <= i < |window|
      ensures window[i] == all[i + e] && SlotTime(anchor', i) == SlotTime(anchor, i + e)
    {
      SlotShift(anchor, e, i);
    }
  }

  /** Moving the anchor forward by `e` slots moves slot `i` to old slot `i + e`. */
  lemma SlotShift(anchor: int, e: nat, i: int)
    ensures SlotTime(anchor + e * POLL_INTERVAL, i) == SlotTime(anchor, i + e)
  {
    assert (i + e) * POLL_INTERVAL == i * POLL_INTERVAL + e * POLL_INTERVAL;
  }
}
