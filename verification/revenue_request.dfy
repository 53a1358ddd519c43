/**
 * The two request URLs of the revenue workflow: the summary URL, whose query
 * carries whichever of `day`, `month`, `year` are truthy, and the detail URL,
 * chosen by which date parts are present.
 */
module RevenueRequest {
  import opened Common
  import opened Text
  import opened Query
  import opened RevenueDetails

  const Host: string := "https://" + "phamdangtuc-001-site1" + ".ntempurl.com"
  const RevenueEndpoint: string := Host + "/api/Orders/revenue"

  lemma EndpointHasNoQuery()
    ensures '?' !in RevenueEndpoint
  {
    assert '?' !in "https://" && '?' !in "phamdangtuc-001-site1" && '?' !in ".ntempurl.com";
    assert '?' !in "/api/Orders/revenue";
  }

  /** The optional date parts a fetch is asked for. */
  datatype DateQuery = DateQuery(day: Option<int>, month: Option<int>, year: Option<int>)

  /** Position of a summary parameter in the query string. */
  function Rank(name: string): int {
    if name == "day" then 0 else if name == "month" then 1 else if name == "year" then 2 else 3
  }

  /** The date part a summary parameter name refers to. */
  function Field(q: DateQuery, name: string): Option<int> {
    if name == "day" then q.day else if name == "month" then q.month else q.year
  }

  /** The summary parameters: each truthy date part, in the order day, month, year. */
  function SummaryParams(q: DateQuery): (ps: seq<Param>)
    ensures |ps| == 0 <==> !Truthy(q.day) && !Truthy(q.month) && !Truthy(q.year)
    ensures NamesOk(ps)
  {
    (if Truthy(q.day) then [Param("day", q.day)] else [])
    + (if Truthy(q.month) then [Param("month", q.month)] else [])
    + (if Truthy(q.year) then [Param("year", q.year)] else [])
  }

  /** A date part is sent, under its own name and with its own value, exactly when it is truthy. */
  lemma SummaryParamsSent(q: DateQuery)
    ensures Param("day", q.day) in SummaryParams(q) <==> Truthy(q.day)
    ensures Param("month", q.month) in SummaryParams(q) <==> Truthy(q.month)
    ensures Param("year", q.year) in SummaryParams(q) <==> Truthy(q.year)
    ensures forall p :: p in SummaryParams(q) ==>
      Rank(p.name) < 3 && p.value == Field(q, p.name) && Truthy(p.value)
  {
  }

  /** The parameters that are sent come in the order day, month, year. */
  lemma SummaryParamsOrdered(q: DateQuery)
    ensures forall i, j :: 0 <= i < j < |SummaryParams(q)| ==>
      Rank(SummaryParams(q)[i].name) < Rank(SummaryParams(q)[j].name)
  {
  }

  /** The summary URL: the endpoint, then `?` and the parameters when there are any. */
  function SummaryUrl(q: DateQuery): string {
    var ps := SummaryParams(q);
    if |ps| > 0 then RevenueEndpoint + "?" + Render(ps) else RevenueEndpoint
  }

  /** The part of a URL after its first `?`, or "" when it has none. */
  function QueryOf(url: string): string {
    match IndexOf(url, '?')
    case None => ""
    case Some(i) => url[i + 1..]
  }

  /** The part of a URL before its first `?`. */
  function PathOf(url: string): string {
    match IndexOf(url, '?')
    case None => url
    case Some(i) => url[..i]
  }

  lemma RenderHasNoQuestionMark(ps: seq<Param>)
    requires forall i :: 0 <= i < |ps| ==> '?' !in ps[i].name
    ensures '?' !in Render(ps)
  {
    var fields := Fields(ps);
    forall i | 0 <= i < |fields| ensures '?' !in fields[i] {
      match ps[i].value {
        case None => assert '?' !in "undefined";
        case Some(n) => IntTextCharacters(n);
      }
      assert '?' !in "=";
    }
    JoinAvoids(fields, '?');
  }

  lemma UrlParts(path: string, query: string)
    requires '?' !in path && '?' !in query
    ensures PathOf(path + "?" + query) == path && QueryOf(path + "?" + query) == query
  {
    IndexOfAfter(path, '?', query);
    assert path + "?" + query == path + ['?'] + query;
    assert (path + "?" + query)[..|path|] == path;
    assert (path + "?" + query)[|path| + 1..] == query;
  }

  /**
   * The summary URL always targets the revenue endpoint; it has a query
   * exactly when some date part is truthy, and that query parses back to the
   * summary parameters.
   */
  lemma {:induction false} SummaryUrlCarriesParams(q: DateQuery)
    ensures PathOf(SummaryUrl(q)) == RevenueEndpoint
    ensures ('?' in SummaryUrl(q)) <==> (Truthy(q.day) || Truthy(q.month) || Truthy(q.year))
    ensures Parse(QueryOf(SummaryUrl(q))) == Some(SummaryParams(q))
  {
    var ps := SummaryParams(q);
    EndpointHasNoQuery();
    RenderHasNoQuestionMark(ps);
    RoundTrip(ps);
    if |ps| > 0 {
      UrlParts(RevenueEndpoint, Render(ps));
      assert SummaryUrl(q)[|RevenueEndpoint|] == '?';
    }
  }

  /** A summary request for a full date carries all three parts, in order. */
  lemma DayQueryExample()
    ensures SummaryParams(DateQuery(Some(15), Some(3), Some(2024))) ==
      [Param("day", Some(15)), Param("month", Some(3)), Param("year", Some(2024))]
  {
  }

  /** The detail endpoint a query uses; none for a day view. */
  function DetailGranularity(q: DateQuery): (g: Option<Granularity>)
    ensures g.None? <==> Truthy(q.day)
    ensures g == Some(Weekly) <==> !Truthy(q.day) && Truthy(q.month)
    ensures g == Some(Monthly) <==> !Truthy(q.day) && !Truthy(q.month)
  {
    if Truthy(q.day) then None
    else if Truthy(q.month) then Some(Weekly)
    else Some(Monthly)
  }

  /** The query of the detail request; `year` is sent even when it is absent. */
  function DetailParams(g: Granularity, q: DateQuery): seq<Param> {
    match g
    case Weekly => [Param("year", q.year), Param("month", q.month)]
    case Monthly => [Param("year", q.year)]
  }

  function DetailPath(g: Granularity): string {
    match g
    case Weekly => RevenueEndpoint + "/weekly"
    case Monthly => RevenueEndpoint + "/monthly"
  }

  /** The detail URL, when the view needs a breakdown. */
  function DetailUrl(q: DateQuery): Option<string> {
    match DetailGranularity(q)
    case None => None
    case Some(g) => Some(DetailPath(g) + "?" + Render(DetailParams(g, q)))
  }

  /**
   * No detail request for a day view; a month view asks the weekly endpoint
   * for `year` then `month`, a year view asks the monthly endpoint for `year`
   * (rendered `undefined` when the year is absent).
   */
  lemma {:induction false} DetailUrlShape(q: DateQuery)
    ensures DetailUrl(q).None? <==> Truthy(q.day)
    ensures DetailUrl(q).Some? && Truthy(q.month) ==>
      PathOf(DetailUrl(q).value) == RevenueEndpoint + "/weekly" &&
      Parse(QueryOf(DetailUrl(q).value)) == Some([Param("year", q.year), Param("month", q.month)])
    ensures DetailUrl(q).Some? && !Truthy(q.month) ==>
      PathOf(DetailUrl(q).value) == RevenueEndpoint + "/monthly" &&
      Parse(QueryOf(DetailUrl(q).value)) == Some([Param("year", q.year)])
  {
    match DetailGranularity(q)
    case None =>
    case Some(g) => DetailUrlParts(g, q);
  }

  lemma DetailPathHasNoQuery(g: Granularity)
    ensures '?' !in DetailPath(g)
  {
    EndpointHasNoQuery();
    match g {
      case Weekly => assert '?' !in "/weekly";
      case Monthly => assert '?' !in "/monthly";
    }
  }

  lemma DetailUrlParts(g: Granularity, q: DateQuery)
    ensures
      var url := DetailPath(g) + "?" + Render(DetailParams(g, q));
      PathOf(url) == DetailPath(g) && Parse(QueryOf(url)) == Some(DetailParams(g, q))
  {
    var ps := DetailParams(g, q);
    DetailPathHasNoQuery(g);
    RenderHasNoQuestionMark(ps);
    RoundTrip(ps);
    UrlParts(DetailPath(g), Render(ps));
  }
}
