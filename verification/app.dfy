/** The root component of app.ts: the same loadData flags as the dashboard without a
    mock mode or a poll, and its own copies of the two summary numbers. */
module App {

  import opened Wrappers
  import opened Model
  import Aggregates
  import Dashboard

  /** The component's signals. */
  datatype AppState = AppState(
    loading: bool,
    error: Option<string>,
    pods: seq<Pod>,
    totalCount: int,
    nodeStats: Option<NodeStats>)

  /** A freshly constructed component: spinner on, no error, no data. */
  function Initial(): AppState {
    AppState(true, None, [], 0, None)
  }

  /** loadData(): ends with the spinner off; on success the error is clear and totalCount is the
      number of pods, on failure the error is set and the data signals keep their values. */
  function LoadData(s: AppState, fetch: Dashboard.Fetch): (r: AppState)
    ensures !r.loading
    ensures fetch.Fetched? ==>
      r.error.None? && r.pods == fetch.pods && r.totalCount == |r.pods| && r.nodeStats == Some(fetch.nodeStats)
    ensures fetch.FetchFailed? ==>
      && r.error == Some(Dashboard.ErrorText(fetch.message))
      && r.pods == s.pods && r.totalCount == s.totalCount && r.nodeStats == s.nodeStats
  {
    var started := s.(loading := true, error := None);
    var settled :=
      match fetch
      case Fetched(pods, nodeStats) => started.(pods := pods, totalCount := |pods|, nodeStats := Some(nodeStats))
      case FetchFailed(message) => started.(error := Some(Dashboard.ErrorText(message)));
    settled.(loading := false)
  }

  /** ngOnInit's load from a fresh component: the spinner ends off; a failed fetch leaves the
      initial empty data in place with the error shown. */
  lemma FirstLoad(fetch: Dashboard.Fetch)
    ensures var r := LoadData(Initial(), fetch);
      && !r.loading
      && (fetch.Fetched? ==> r.error.None? && r.pods == fetch.pods && r.totalCount == |fetch.pods|)
      && (fetch.FetchFailed? ==>
            r.pods == [] && r.totalCount == 0 && r.nodeStats.None? && r.error == Some(Dashboard.ErrorText(fetch.message)))
  {
  }

  /** The signals app.ts shares with the dashboard. */
  function Shared(d: Dashboard.State): AppState {
    AppState(d.loading, d.error, d.pods, d.totalCount, d.nodeStats)
  }

  /** app.ts's loadData is the dashboard's in production mode: started from the same signals,
      they end with the same signals. */
  lemma LoadDataMatchesDashboard(d: Dashboard.State, fetch: Dashboard.Fetch, draw: Dashboard.MockDraw)
    requires !d.isMockMode
    ensures LoadData(Shared(d), fetch) == Shared(Dashboard.LoadData(d, fetch, draw))
  {
  }

  /** getTotalStorage(): the storage the pods report, missing figures as 0; 0 for no pods. */
  function GetTotalStorage(s: AppState): (r: int)
    ensures r == Aggregates.StorageSum(s.pods)
    ensures |s.pods| == 0 ==> r == 0
  {
    Aggregates.ReduceStorage(s.pods, 0)
  }

  /** getOnlineCount(), with `Date.now() / 1000` passed in as `nowSec`: the number of pods seen
      strictly within the last 300 seconds, the dashboard's online count. */
  function GetOnlineCount(s: AppState, nowSec: real): (r: nat)
    ensures r == |Aggregates.OnlinePods(s.pods, nowSec)| == Aggregates.OnlineCount(s.pods, nowSec)
    ensures r <= |s.pods|
    ensures r == 0 <==> forall i :: 0 <= i < |s.pods| ==> LastSeenOf(s.pods[i]) <= nowSec - 300.0
  {
    var online := Aggregates.OnlinePods(s.pods, nowSec);
    assert |online| > 0 ==> online[0] in online;
    |online|
  }
}
