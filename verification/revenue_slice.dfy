/**
 * The revenue slice of the store: its initial state, its plain reducers
 * (`setSelectedDate`, `setFilterType`, `clearError`) and the three
 * lifecycle cases of `fetchRevenue`. Clock readings are parameters.
 */
module RevenueSlice {
  import opened Common
  import opened RevenueFetch

  const DefaultFetchError: string := "Có lỗi xảy ra khi lấy dữ liệu doanh thu"

  /** `lastUpdated` and the selected date are opaque clock readings. */
  datatype RevenueState = RevenueState(
    data: RevenueData,
    loading: bool,
    error: Option<string>,
    selectedDateTimestamp: int,
    filterType: string,
    lastUpdated: Option<int>)

  function Initial(now: int): (s: RevenueState)
    ensures s.data.summary.id.None? && s.data.summary.revenue == 0 && s.data.details.None?
    ensures !s.loading && s.error.None? && s.lastUpdated.None?
    ensures s.selectedDateTimestamp == now && s.filterType == "year"
  {
    RevenueState(RevenueData(Summary(None, 0), None), false, None, now, "year", None)
  }

  /** Stores a timestamp (a `Date` payload is converted to one before it gets here). */
  function SetSelectedDate(s: RevenueState, timestamp: int): (r: RevenueState)
    ensures r.selectedDateTimestamp == timestamp
    ensures r == s.(selectedDateTimestamp := r.selectedDateTimestamp)
  {
    s.(selectedDateTimestamp := timestamp)
  }

  function SetFilterType(s: RevenueState, filterType: string): (r: RevenueState)
    ensures r.filterType == filterType
    ensures r == s.(filterType := r.filterType)
  {
    s.(filterType := filterType)
  }

  function ClearError(s: RevenueState): (r: RevenueState)
    ensures r.error.None?
    ensures r == s.(error := r.error)
  {
    s.(error := None)
  }

  function Pending(s: RevenueState): (r: RevenueState)
    ensures r.loading && r.error.None?
    ensures r == s.(loading := r.loading, error := r.error)
  {
    s.(loading := true, error := None)
  }

  /** The payload replaces `data` wholesale; nothing of the old data survives. */
  function Fulfilled(s: RevenueState, payload: RevenueData, now: int): (r: RevenueState)
    ensures r.data == payload && !r.loading && r.error.None? && r.lastUpdated == Some(now)
    ensures r.selectedDateTimestamp == s.selectedDateTimestamp && r.filterType == s.filterType
  {
    s.(loading := false, data := payload, error := None, lastUpdated := Some(now))
  }

  /** `action.payload || default`: an absent or empty payload reads as the default text. */
  function Rejected(s: RevenueState, payload: Option<string>): (r: RevenueState)
    ensures !r.loading && r.error.Some? && |r.error.value| > 0
    ensures TruthyText(payload) ==> r.error == payload
    ensures !TruthyText(payload) ==> r.error == Some(DefaultFetchError)
    ensures r == s.(loading := r.loading, error := r.error)
  {
    s.(loading := false, error := Some(OrElse(payload, Some(DefaultFetchError)).value))
  }

  datatype Action =
    | SetSelectedDateAction(timestamp: int)
    | SetFilterTypeAction(filterType: string)
    | ClearErrorAction
    | FetchPending
    | FetchFulfilled(payload: RevenueData, now: int)
    | FetchRejected(rejection: Option<string>)

  function Reduce(s: RevenueState, a: Action): RevenueState {
    match a
    case SetSelectedDateAction(t) => SetSelectedDate(s, t)
    case SetFilterTypeAction(f) => SetFilterType(s, f)
    case ClearErrorAction => ClearError(s)
    case FetchPending => Pending(s)
    case FetchFulfilled(p, now) => Fulfilled(s, p, now)
    case FetchRejected(p) => Rejected(s, p)
  }

  /** The action a finished fetch dispatches. */
  function Settle(outcome: Outcome, now: int): Action {
    match outcome
    case Fulfilled(data) => FetchFulfilled(data, now)
    case Rejected(message) => FetchRejected(Some(message))
  }

  /**
   * Pending then settling, from any state and for any outcome: afterwards
   * nothing is loading; on success the data is the result and there is no
   * error; on failure the previous data is still shown beside a non-empty
   * error. The selected date and filter type are never touched.
   */
  lemma SettleLifecycle(s: RevenueState, outcome: Outcome, now: int)
    ensures
      var r := Reduce(Reduce(s, FetchPending), Settle(outcome, now));
      && !r.loading
      && r.selectedDateTimestamp == s.selectedDateTimestamp
      && r.filterType == s.filterType
      && (outcome.Fulfilled? ==> r.data == outcome.data && r.error.None?)
      && (outcome.Rejected? ==> r.data == s.data && r.error.Some? && r.lastUpdated == s.lastUpdated)
  {
  }

  /** One whole fetch from any state, whatever the network does. */
  lemma FetchLifecycle(s: RevenueState, q: RevenueRequest.DateQuery, network: seq<Attempt>, now: int)
    requires |network| >= MaxRetries
    ensures
      var t := FetchRevenue(q, network);
      var r := Reduce(Reduce(s, FetchPending), Settle(t.outcome, now));
      && !r.loading
      && r.selectedDateTimestamp == s.selectedDateTimestamp
      && r.filterType == s.filterType
      && (t.outcome.Fulfilled? ==> r.data == t.outcome.data && r.error.None?)
      && (t.outcome.Rejected? ==> r.data == s.data && r.error.Some? && r.lastUpdated == s.lastUpdated)
  {
    SettleLifecycle(s, FetchRevenue(q, network).outcome, now);
  }

  /** Clearing the error twice is clearing it once. */
  lemma ClearErrorIdempotent(s: RevenueState)
    ensures ClearError(ClearError(s)) == ClearError(s)
  {
  }

  /** A rejection followed by `clearError` differs from the original state only in `loading` and `error`. */
  lemma RejectThenClear(s: RevenueState, payload: Option<string>)
    ensures ClearError(Rejected(s, payload)) == s.(loading := false, error := None)
  {
  }
}
