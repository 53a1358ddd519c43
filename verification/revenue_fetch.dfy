/**
 * The `fetchRevenue` workflow. The network is an abstract sequence of
 * attempt outcomes: for attempt `k`, the stored token, the summary call's
 * outcome and the detail call's outcome. The retry loop is a recursive
 * function that also reports the backoff delays it waited.
 */
module RevenueFetch {
  import opened Common
  import opened Text
  import opened RevenueDetails
  import opened RevenueRequest

  const MaxRetries: nat := 3
  /** Base backoff in milliseconds; the wait after failed attempt `k` is `k` times this. */
  const RetryDelay: nat := 1000

  /** The two phrases whose presence in an error message stops the retries. */
  const TokenWord: string := "token"
  const LoginPhrase: string := "đăng nhập"

  const MissingTokenMessage: string := "Không tìm thấy " + TokenWord + (". Vui lòng " + LoginPhrase + " lại!")
  const SessionExpiredMessage: string := "Phiên " + LoginPhrase + (" hết hạn. Vui lòng " + LoginPhrase + " lại!")
  const NoRevenueDataText: string := "Không thể " + "lấy dữ liệu " + "doanh thu"

  /** The summary payload's fields that the client reads. */
  datatype Summary = Summary(id: Option<int>, revenue: int)

  /** `{ ...summary, details }`: the payload stored on success. */
  datatype RevenueData = RevenueData(summary: Summary, details: Option<Details>)

  /** What the summary call can yield: a parsed ok body, a non-ok status, or an exception. */
  datatype SummaryResponse =
    | SummaryOk(payload: Summary)
    | SummaryStatus(status: int, body: string)
    | SummaryThrows(message: string)

  /** Everything the outside world decides during one attempt. */
  datatype Attempt = Attempt(token: Option<string>, summary: SummaryResponse, detail: DetailResponse)

  datatype AttemptResult = Succeeded(data: RevenueData) | Threw(message: string)

  datatype Outcome = Fulfilled(data: RevenueData) | Rejected(message: string)

  /** A finished fetch: its outcome, the delays waited, and how many attempts ran. */
  datatype Trace = Trace(outcome: Outcome, delays: seq<nat>, attempts: nat)

  /** The message thrown for a non-ok summary status other than 401. */
  function ServerErrorMessage(status: int, body: string): string {
    ServerErrorPrefix(status) + (if |body| > 0 then body else NoRevenueDataText)
  }

  /** Errors that must not be retried: their message mentions the token or logging in. */
  predicate IsAuthMessage(message: string) {
    Contains(message, TokenWord) || Contains(message, LoginPhrase)
  }

  /** One pass through the body of the retry loop. */
  function RunAttempt(q: DateQuery, a: Attempt): (r: AttemptResult)
    ensures !TruthyText(a.token) ==> r == Threw(MissingTokenMessage)
    ensures r.Succeeded? <==> TruthyText(a.token) && a.summary.SummaryOk?
    ensures TruthyText(a.token) && a.summary.SummaryStatus? && a.summary.status == 401 ==>
      r == Threw(SessionExpiredMessage)
    ensures TruthyText(a.token) && a.summary.SummaryStatus? && a.summary.status != 401 ==>
      r == Threw(ServerErrorMessage(a.summary.status, a.summary.body))
    ensures TruthyText(a.token) && a.summary.SummaryThrows? ==> r == Threw(a.summary.message)
    ensures r.Succeeded? ==> r.data.summary == a.summary.payload
  {
    if !TruthyText(a.token) then Threw(MissingTokenMessage)
    else
      match a.summary
      case SummaryThrows(message) => Threw(message)
      case SummaryStatus(status, body) =>
        if status == 401 then Threw(SessionExpiredMessage)
        else Threw(ServerErrorMessage(status, body))
      case SummaryOk(payload) =>
        var details :=
          match DetailGranularity(q)
          case None => None
          case Some(g) => Some(ResolveDetails(g, a.detail));
        Succeeded(RevenueData(payload, details))
  }

  /**
   * What a successful attempt stores: no breakdown for a day view; otherwise
   * four weeks (month given) or twelve months, normalised from the detail
   * response, or all zero when the detail call failed.
   */
  lemma SuccessfulAttemptDetails(q: DateQuery, a: Attempt)
    requires RunAttempt(q, a).Succeeded?
    ensures var data := RunAttempt(q, a).data;
      && (data.details.None? <==> Truthy(q.day))
      && (data.details.Some? ==>
        var d := data.details.value;
        && d.granularity == (if Truthy(q.month) then Weekly else Monthly)
        && |d.buckets| == (if Truthy(q.month) then 4 else 12)
        && (a.detail.DetailOk? ==> d.buckets == Normalize(a.detail.items, d.granularity))
        && (!a.detail.DetailOk? ==> d.buckets == ZeroFill(d.granularity)))
  {
  }

  /** Attempt `k` failed with an error that the loop retries. */
  predicate RetryableFailure(q: DateQuery, network: seq<Attempt>, k: int)
    requires 0 <= k < |network|
  {
    var r := RunAttempt(q, network[k]);
    r.Threw? && !IsAuthMessage(r.message)
  }

  /**
   * The retry loop from the attempt with index `retries` on: a success or an
   * auth-classified error ends it, the third failure ends it, and any other
   * failure waits `RetryDelay * (retries + 1)` and tries again.
   */
  function FetchFrom(q: DateQuery, network: seq<Attempt>, retries: nat): (t: Trace)
    requires retries < MaxRetries <= |network|
    ensures 1 <= t.attempts <= MaxRetries - retries
    ensures |t.delays| == t.attempts - 1
    ensures forall k :: 0 <= k < |t.delays| ==> t.delays[k] == RetryDelay * (retries + k + 1)
    ensures forall k :: retries <= k < retries + t.attempts - 1 ==> RetryableFailure(q, network, k)
    ensures
      var last := RunAttempt(q, network[retries + t.attempts - 1]);
      && (last.Succeeded? ==> t.outcome == Fulfilled(last.data))
      && (last.Threw? ==> t.outcome == Rejected(last.message))
      && (last.Threw? && retries + t.attempts < MaxRetries ==> IsAuthMessage(last.message))
    decreases MaxRetries - retries
  {
    match RunAttempt(q, network[retries])
    case Succeeded(data) => Trace(Fulfilled(data), [], 1)
    case Threw(message) =>
      if IsAuthMessage(message) || retries == MaxRetries - 1 then
        Trace(Rejected(message), [], 1)
      else
        var rest := FetchFrom(q, network, retries + 1);
        Trace(rest.outcome, [RetryDelay * (retries + 1)] + rest.delays, rest.attempts + 1)
  }

  /** `fetchRevenue(q)` against the outcomes the network gives its attempts. */
  function FetchRevenue(q: DateQuery, network: seq<Attempt>): (t: Trace)
    requires |network| >= MaxRetries
    ensures 1 <= t.attempts <= 3
    ensures t.delays == [1000, 2000][..t.attempts - 1]
    ensures forall k :: 0 <= k < t.attempts - 1 ==> RetryableFailure(q, network, k)
    ensures t.outcome.Fulfilled? <==> RunAttempt(q, network[t.attempts - 1]).Succeeded?
    ensures
      var last := RunAttempt(q, network[t.attempts - 1]);
      && (last.Succeeded? ==> t.outcome == Fulfilled(last.data))
      && (last.Threw? ==> t.outcome == Rejected(last.message))
      && (last.Threw? && t.attempts < MaxRetries ==> IsAuthMessage(last.message))
  {
    var t := FetchFrom(q, network, 0);
    assert t.delays == [1000, 2000][..t.attempts - 1];
    t
  }

  /** A success on the first attempt is the whole story: no waits, one call. */
  lemma FirstSuccessIsFinal(q: DateQuery, network: seq<Attempt>)
    requires |network| >= MaxRetries
    requires RunAttempt(q, network[0]).Succeeded?
    ensures FetchRevenue(q, network) == Trace(Fulfilled(RunAttempt(q, network[0]).data), [], 1)
  {
  }

  lemma MessagesAreAuthClassified()
    ensures IsAuthMessage(MissingTokenMessage)
    ensures IsAuthMessage(SessionExpiredMessage)
  {
    ContainsInfix("Không tìm thấy ", TokenWord, ". Vui lòng " + LoginPhrase + " lại!");
    ContainsInfix("Phiên ", LoginPhrase, " hết hạn. Vui lòng " + LoginPhrase + " lại!");
  }

  /**
   * A missing token or a 401 ends the fetch after that one attempt, rejected
   * with its message, without waiting.
   */
  lemma AuthFailureIsNotRetried(q: DateQuery, network: seq<Attempt>)
    requires |network| >= MaxRetries
    requires !TruthyText(network[0].token) ||
      (network[0].summary.SummaryStatus? && network[0].summary.status == 401)
    ensures FetchRevenue(q, network).attempts == 1
    ensures FetchRevenue(q, network).delays == []
    ensures FetchRevenue(q, network).outcome ==
      Rejected(if !TruthyText(network[0].token) then MissingTokenMessage else SessionExpiredMessage)
  {
    MessagesAreAuthClassified();
  }

  /**
   * Three retryable failures in a row: three attempts, waits of 1000 and
   * 2000 ms, and the third attempt's message.
   */
  lemma RetriesExhausted(q: DateQuery, network: seq<Attempt>)
    requires |network| >= MaxRetries
    requires forall k :: 0 <= k < 3 ==> RetryableFailure(q, network, k)
    ensures RunAttempt(q, network[2]).Threw?
    ensures FetchRevenue(q, network) ==
      Trace(Rejected(RunAttempt(q, network[2]).message), [1000, 2000], 3)
  {
    assert RetryableFailure(q, network, 0);
    assert RetryableFailure(q, network, 1);
    assert RetryableFailure(q, network, 2);
  }

  /** A character that `text` lacks rules out every needle containing it. */
  lemma AbsentCharacter(text: string, needle: string, c: char)
    requires c in needle && c !in text
    ensures !Contains(text, needle)
  {

  }

  function ServerErrorPrefix(status: int): string {
    "Lỗi " + IntText(status) + ": "
  }

  lemma ServerErrorPrefixLetters(status: int)
    ensures TokenWord[0] !in ServerErrorPrefix(status)
    ensures LoginPhrase[0] !in ServerErrorPrefix(status)
  {
    IntTextCharacters(status);
    assert 't' !in "Lỗi " && 'đ' !in "Lỗi ";
    assert 't' !in ": " && 'đ' !in ": ";
  }

  lemma DefaultTextIsNotAuth()
    ensures !IsAuthMessage(NoRevenueDataText)
  {
    assert 'k' !in "Không thể " && 'k' !in "lấy dữ liệu " && 'k' !in "doanh thu";
    assert 'đ' !in "Không thể " && 'đ' !in "lấy dữ liệu " && 'đ' !in "doanh thu";
    AbsentCharacter(NoRevenueDataText, TokenWord, 'k');
    AbsentCharacter(NoRevenueDataText, LoginPhrase, 'đ');
  }

  /**
   * A non-401 error status is retried exactly when the response body
   * mentions neither the token nor logging in (an empty body is replaced by a
   * text that mentions neither): classification goes by the message text, not
   * by the status.
   */
  lemma ServerErrorClassification(status: int, body: string)
    ensures IsAuthMessage(ServerErrorMessage(status, body)) <==>
      (|body| > 0 && IsAuthMessage(body))
  {
    var prefix := ServerErrorPrefix(status);
    var shown := if |body| > 0 then body else NoRevenueDataText;
    assert ServerErrorMessage(status, body) == prefix + shown;
    ServerErrorPrefixLetters(status);
    ContainsPastPrefix(prefix, shown, TokenWord);
    ContainsPastPrefix(prefix, shown, LoginPhrase);
    if |body| == 0 {
      DefaultTextIsNotAuth();
    }
  }

  /**
   * An attempt that gets a non-401 error status, with a body that mentions
   * neither the token nor logging in (an empty body included), is a
   * retryable failure.
   */
  lemma ServerErrorIsRetried(q: DateQuery, network: seq<Attempt>, k: nat)
    requires k < |network| && TruthyText(network[k].token)
    requires network[k].summary.SummaryStatus? && network[k].summary.status != 401
    requires !IsAuthMessage(network[k].summary.body)
    ensures RetryableFailure(q, network, k)
  {
    ServerErrorClassification(network[k].summary.status, network[k].summary.body);
  }

  /** A day view's result is the summary with no breakdown, whatever the detail call would do. */
  lemma DayViewHasNoDetails(q: DateQuery, network: seq<Attempt>)
    requires |network| >= MaxRetries && Truthy(q.day)
    ensures FetchRevenue(q, network).outcome.Fulfilled? ==>
      FetchRevenue(q, network).outcome.data.details.None?
  {
  }

  /**
   * A month view whose detail call fails still succeeds, keeping the summary
   * and four zero-revenue weeks.
   */
  lemma DetailFailureStillSucceeds(q: DateQuery, network: seq<Attempt>, payload: Summary)
    requires |network| >= MaxRetries && !Truthy(q.day) && Truthy(q.month)
    requires TruthyText(network[0].token) && network[0].summary == SummaryOk(payload)
    requires !network[0].detail.DetailOk?
    ensures FetchRevenue(q, network).outcome ==
      Fulfilled(RevenueData(payload, Some(Details(Weekly, ZeroFill(Weekly)))))
  {
  }

  /**
   * March 2024: summary revenue 90000, weeks 1 and 2 returned; the result
   * carries all four weeks with weeks 3 and 4 at 0.
   */
  lemma MonthViewExample(network: seq<Attempt>)
    requires |network| >= MaxRetries
    requires network[0] == Attempt(Some("t"), SummaryOk(Summary(None, 90000)),
      DetailOk([RawBucket(Some(1), None, 20000), RawBucket(Some(2), None, 25000)]))
    ensures FetchRevenue(DateQuery(None, Some(3), Some(2024)), network).outcome ==
      Fulfilled(RevenueData(Summary(None, 90000), Some(Details(Weekly,
        [Bucket(1, 20000), Bucket(2, 25000), Bucket(3, 0), Bucket(4, 0)]))))
  {
    SparseWeeksExample();
  }
}
