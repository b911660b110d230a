/** The state of DashboardComponent (dashboard/dashboard.component.ts) and its
    transitions: loadData's loading/error flags, the poll guard `isLoadingData`,
    the completion of a poll, and refresh. The remote fetch, the random mock
    generators and the clocks are inputs. */
module Dashboard {

  import opened Wrappers
  import opened Constants
  import opened Model
  import opened Utils
  import opened MockData

  /** What `prpcService.getAllData()` settles to: the pods and node stats, or a rejection
      carrying an `Error`'s message (`None` for a thrown value that is not an `Error`). */
  datatype Fetch = Fetched(pods: seq<Pod>, nodeStats: NodeStats) | FetchFailed(message: Option<string>)

  /** What the mock generators draw at random in one load, and `Date.now()` at that moment. */
  datatype MockDraw = MockDraw(pods: seq<Pod>, stats: NodeStats, nowMs: int)

  /** The component's signals and fields, with the mock service's `repo` it drives. */
  datatype State = State(
    isMockMode: bool,
    loading: bool,
    error: Option<string>,
    barChartOptions: Option<ChartOptions>,
    isLoadingData: bool,
    pods: seq<Pod>,
    totalCount: int,
    nodeStats: Option<NodeStats>,
    tableData: seq<Pod>,
    repo: Repo)

  /** A freshly constructed component: spinner on, no data, no chart yet. The mock service is a
      root singleton, so its `repo` is whatever earlier components left behind (`INITIAL_REPO`
      only when the service is first used). */
  function Initial(isMockMode: bool, repo: Repo): State {
    State(isMockMode, true, None, None, false, [], 0, None, [], repo)
  }

  const ERROR_PREFIX: string := "Failed to load pNode data: "

  /** The error text loadData shows for a failed fetch. */
  function ErrorText(message: Option<string>): (t: string)
    ensures ERROR_PREFIX <= t
    ensures t[|ERROR_PREFIX|..] == if message.Some? then message.value else "Unknown error"
  {
    ERROR_PREFIX + (if message.Some? then message.value else "Unknown error")
  }

  /** The part of loadData before its first `await`: spinner on, error cleared. */
  function BeginLoad(s: State): (r: State)
    ensures r.loading && r.error.None?
    ensures r.(loading := s.loading, error := s.error) == s
  {
    s.(loading := true, error := None)
  }

  /** loadData(): mock mode generates pods and appends a stats record; production mode takes
      the fetch's outcome. It always ends with the spinner off. On success the error is clear and
      totalCount is the number of pods; on failure the error is set and the pods, totalCount and
      nodeStats keep their previous values. Nothing else changes. */
  function LoadData(s: State, fetch: Fetch, draw: MockDraw): (r: State)
    ensures !r.loading
    ensures r.isMockMode == s.isMockMode && r.isLoadingData == s.isLoadingData
    ensures r.barChartOptions == s.barChartOptions && r.tableData == s.tableData
    ensures s.isMockMode ==>
      && r.error.None? && r.pods == draw.pods && r.totalCount == |r.pods| && r.nodeStats == Some(draw.stats)
      && r.repo.pods == draw.pods
      && r.repo.stats == s.repo.stats + [draw.stats]
      && r.repo.timenow == (if IsTruthy(s.repo.timenow) then s.repo.timenow else Some(draw.nowMs))
    ensures !s.isMockMode ==> r.repo == s.repo
    ensures !s.isMockMode && fetch.Fetched? ==>
      r.error.None? && r.pods == fetch.pods && r.totalCount == |r.pods| && r.nodeStats == Some(fetch.nodeStats)
    ensures !s.isMockMode && fetch.FetchFailed? ==>
      && r.error == Some(ErrorText(fetch.message))
      && r.pods == s.pods && r.totalCount == s.totalCount && r.nodeStats == s.nodeStats
  {
    var started := BeginLoad(s);
    var settled :=
      if started.isMockMode then
        var (repo1, mockPods) := GenerateMockPods(started.repo, draw.pods, draw.nowMs);
        var (repo2, mockStats) := GenerateMockNodeStats(repo1, draw.stats);
        started.(repo := repo2, pods := mockPods, totalCount := |mockPods|, nodeStats := Some(mockStats))
      else if fetch.Fetched? then
        started.(pods := fetch.pods, totalCount := |fetch.pods|, nodeStats := Some(fetch.nodeStats))
      else
        started.(error := Some(ErrorText(fetch.message)));
    settled.(loading := false)
  }

  /** A tick of the poll timer: skipped, with no change at all, while a load is in flight;
      otherwise it only raises the busy flag before the load is scheduled. */
  function PollTick(s: State): (r: State)
    ensures s.isLoadingData ==> r == s
    ensures !s.isLoadingData ==> r.isLoadingData && r.(isLoadingData := false) == s
  {
    if s.isLoadingData then s else s.(isLoadingData := true)
  }

  /** The scheduled load of a poll: loadData, then (mock mode) the new chart from getBarChart,
      and in `finally` the busy flag is cleared. loadData never rejects, so the chart step always
      runs. Production mode calls a `getBarChart` that the RPC service does not define; the chart
      then stays as it was, and the flag is still cleared. */
  function PollComplete(s: State, fetch: Fetch, draw: MockDraw, local: LocalClock): (r: State)
    ensures !r.isLoadingData && !r.loading
    ensures var loaded := LoadData(s, fetch, draw);
      && r.error == loaded.error && r.pods == loaded.pods && r.totalCount == loaded.totalCount
      && r.nodeStats == loaded.nodeStats && r.tableData == s.tableData
    ensures r.isMockMode == s.isMockMode
    ensures s.isMockMode ==>
      var (repo', options) := GetBarChart(LoadData(s, fetch, draw).repo, local);
      r.repo == repo' && r.barChartOptions == Some(options)
    ensures !s.isMockMode ==> r.barChartOptions == s.barChartOptions && r.repo == s.repo
  {
    var loaded := LoadData(s, fetch, draw);
    var charted :=
      if loaded.isMockMode then
        var (repo', options) := GetBarChart(loaded.repo, local);
        loaded.(repo := repo', barChartOptions := Some(options))
      else loaded;
    charted.(isLoadingData := false)
  }

  /** refresh(): loadData, then the table shows the pods (ngOnInit's first load is the same
      transition). It never projects the chart, so in mock mode it adds a record that the next
      poll's projection has to absorb along with its own. */
  function Refresh(s: State, fetch: Fetch, draw: MockDraw): (r: State)
    ensures r.tableData == r.pods && !r.loading
    ensures r.isMockMode == s.isMockMode
    ensures r.isLoadingData == s.isLoadingData && r.barChartOptions == s.barChartOptions
    ensures var loaded := LoadData(s, fetch, draw);
      && r.pods == loaded.pods && r.error == loaded.error && r.totalCount == loaded.totalCount
      && r.nodeStats == loaded.nodeStats && r.repo == loaded.repo
    ensures s.isMockMode ==> |r.repo.stats| == |s.repo.stats| + 1
  {
    var loaded := LoadData(s, fetch, draw);
    loaded.(tableData := loaded.pods)
  }

  /** ngOnInit's first load from a fresh component, whatever history the mock service already
      holds: the spinner ends off, no chart has been drawn, and the table shows the loaded pods.
      In mock mode the drawn record is appended to the inherited history and an inherited
      anchor is kept; only on the service's first use is the history just the drawn record
      and the anchor this load's `Date.now()`. A failed production load leaves the initial
      empty data in place with the error shown. */
  lemma FirstLoad(isMockMode: bool, repo: Repo, fetch: Fetch, draw: MockDraw)
    ensures var r := Refresh(Initial(isMockMode, repo), fetch, draw);
      && !r.loading && !r.isLoadingData && r.barChartOptions.None? && r.tableData == r.pods
      && (isMockMode ==>
            && r.pods == draw.pods && r.repo.stats == repo.stats + [draw.stats]
            && r.repo.timenow == (if IsTruthy(repo.timenow) then repo.timenow else Some(draw.nowMs)))
      && (isMockMode && repo == INITIAL_REPO ==> r.repo.stats == [draw.stats] && r.repo.timenow == Some(draw.nowMs))
      && (!isMockMode && fetch.FetchFailed? ==>
            r.pods == [] && r.totalCount == 0 && r.nodeStats.None? && r.error == Some(ErrorText(fetch.message)))
  {
  }

  /** A component mounted again in mock mode inherits a full history: its first load and first
      poll add two records before a projection, so that poll draws MAX_BARS + 1 bars and leaves
      the anchor one slot behind, just as a refresh followed by a poll does. */
  lemma RemountThenPollOverfillsChart(repo: Repo, fetch: Fetch, draw1: MockDraw, draw2: MockDraw, local: LocalClock)
    requires |repo.stats| == MAX_BARS && IsTruthy(repo.timenow)
    ensures var r := PollComplete(PollTick(Refresh(Initial(true, repo), fetch, draw1)), fetch, draw2, local);
      && r.barChartOptions.Some?
      && |r.barChartOptions.value.xAxisData| == MAX_BARS + 1
      && |r.repo.stats| == MAX_BARS
      && r.repo.stats[0] == repo.stats[2]
      && SlotTime(AnchorOf(r.repo), 0) == SlotTime(AnchorOf(repo), 2) - POLL_INTERVAL
  {
    RefreshThenPollOverfillsChart(Initial(true, repo), fetch, draw1, draw2, local);
  }

  /** While a load is in flight, any number of ticks change nothing. */
  lemma {:induction false} TicksWhileBusy(s: State, ticks: nat)
    requires s.isLoadingData
    ensures Ticks(s, ticks) == s
  {
    if ticks > 0 {
      TicksWhileBusy(s, ticks - 1);
    }
  }

  function Ticks(s: State, n: nat): State {
    if n == 0 then s else PollTick(Ticks(s, n - 1))
  }

  /** The busy flag is only a guard: a poll cycle started from an idle component ends exactly
      where completing the load directly would, so the tick leaves no trace. */
  lemma PollCycleEndsIdle(s: State, fetch: Fetch, draw: MockDraw, local: LocalClock)
    requires !s.isLoadingData
    ensures PollComplete(PollTick(s), fetch, draw, local) == PollComplete(s, fetch, draw, local)
  {
  }

  /** With the anchor set, a mock-mode poll moves the history and the anchor exactly as
      `MockData.Poll` does with the drawn record, so the facts proved about runs of `Poll`
      describe the dashboard's polls. */
  lemma MockPollIsPoll(s: State, fetch: Fetch, draw: MockDraw, local: LocalClock)
    requires s.isMockMode && IsTruthy(s.repo.timenow)
    ensures var r := PollComplete(s, fetch, draw, local);
      r.repo.stats == Poll(s.repo, draw.stats).stats && r.repo.timenow == Poll(s.repo, draw.stats).timenow
  {
  }

  /** In mock mode with the history within capacity, a poll keeps the history
      within capacity, and its chart is exactly the retained history labelled from the (possibly
      advanced) anchor. */
  lemma MockPollKeepsChartAligned(s: State, fetch: Fetch, draw: MockDraw, local: LocalClock)
    requires s.isMockMode && |s.repo.stats| <= MAX_BARS
    ensures var r := PollComplete(s, fetch, draw, local);
      && |r.repo.stats| <= MAX_BARS
      && r.barChartOptions.Some?
      && ShowsHistory(r.barChartOptions.value, r.repo, local)
  {
    var loaded := LoadData(s, fetch, draw);
    if |loaded.repo.stats| == MAX_BARS + 1 {
      ChartAfterOneOverflow(loaded.repo, local);
    } else {
      ChartWithinCapacity(loaded.repo, local);
    }
  }

  /** In mock mode with a full history, a refresh followed by a poll leaves two records to evict:
      the chart then shows MAX_BARS + 1 bars while MAX_BARS records are kept, and the anchor is
      one slot behind the record it labels. */
  lemma RefreshThenPollOverfillsChart(s: State, fetch: Fetch, draw1: MockDraw, draw2: MockDraw, local: LocalClock)
    requires s.isMockMode && |s.repo.stats| == MAX_BARS && IsTruthy(s.repo.timenow)
    ensures var r := PollComplete(Refresh(s, fetch, draw1), fetch, draw2, local);
      && r.barChartOptions.Some?
      && |r.barChartOptions.value.xAxisData| == MAX_BARS + 1
      && |r.repo.stats| == MAX_BARS
      && r.repo.stats[0] == s.repo.stats[2]
      && SlotTime(AnchorOf(r.repo), 0) == SlotTime(AnchorOf(s.repo), 2) - POLL_INTERVAL
  {
    var refreshed := Refresh(s, fetch, draw1);
    var loaded := LoadData(refreshed, fetch, draw2);
    assert loaded.repo.stats == s.repo.stats + [draw1.stats] + [draw2.stats];
    ChartAfterTwoOverflow(loaded.repo, local);
  }
}
