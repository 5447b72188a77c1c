/** The request the calendar service sends to the Graph REST API
    (src/server/services/calendarService.ts, lines 22-43): the URL built from
    the configured endpoint, the two request headers, and the method. Each is
    paired with its reading back. */
module GraphQuery {
  import opened Wrappers
  import Text
  import QueryString

  /** The path appended to the configured `graph-rest-api-endpoint`. */
  const EventsPath := "/me/calendar/events"

  /** The query after the path, written as the source writes it: select four
      fields, leave out all-day events, newest start first. */
  const QueryText := "?$select=start,end,location,subject" + "&$filter=isAllDay eq false" + "&$orderby=start/dateTime desc"

  /** The `Accept` header value, asking for minimal OData metadata. */
  const AcceptMinimalMetadata := "application/json;odata.metadata=minimal"

  /** The URL the service queries. */
  function QueryEndpoint(endpoint: string): (url: string)
  {
    endpoint + EventsPath + QueryText
  }

  datatype Header = Header(name: string, value: string)

  /** The headers sent with the query, for the token the service was built with. */
  function RequestHeaders(accessToken: string): (headers: seq<Header>)
  {
    [Header("Authorization", "Bearer " + accessToken), Header("Accept", AcceptMinimalMetadata)]
  }

  datatype HttpRequest = HttpRequest(url: string, verb: string, headers: seq<Header>)

  /** The one request `getEvents` issues. */
  function GraphRequest(endpoint: string, accessToken: string): (request: HttpRequest)
  {
    HttpRequest(QueryEndpoint(endpoint), "GET", RequestHeaders(accessToken))
  }

  // ---------------------------------------------------------------------------
  // Reading the request back

  /** The value of the first header called `name`. */
  function HeaderValue(headers: seq<Header>, name: string): (r: Option<string>)
    ensures r.Some? <==> exists i :: 0 <= i < |headers| && headers[i].name == name
  {
    if headers == [] then None
    else if headers[0].name == name then Some(headers[0].value)
    else HeaderValue(headers[1..], name)
  }

  /** The credential carried by a `Bearer` authorization header. */
  function BearerToken(headers: seq<Header>): (token: Option<string>)
  {
    match HeaderValue(headers, "Authorization")
    case None => None
    case Some(v) => if |v| >= 7 && v[..7] == "Bearer " then Some(v[7..]) else None
  }

  /** The query parameters, as a reader of the URL finds them. */
  const SelectParam := ("$select", "start,end,location,subject")
  const FilterParam := ("$filter", "isAllDay eq false")
  const OrderByParam := ("$orderby", "start/dateTime desc")
  const GraphQueryParams: seq<(string, string)> := [SelectParam, FilterParam, OrderByParam]

  /** The fields `$select` names. The conversion of the reply also reads `id`,
      which the query does not select. */
  const SelectedFields: seq<string> := ["start", "end", "location", "subject"]

  // Parameters equal to the constants keep string functions from being unfolded on literals.

  lemma SelectText()
    ensures "?$select=start,end,location,subject" == "?" + "$select" + "=" + "start,end,location,subject"
  {
  }

  lemma FilterText()
    ensures "&$filter=isAllDay eq false" == "&" + "$filter" + "=" + "isAllDay eq false"
  {
  }

  lemma OrderByText()
    ensures "&$orderby=start/dateTime desc" == "&" + "$orderby" + "=" + "start/dateTime desc"
  {
  }

  lemma FieldsText()
    ensures "start,end,location,subject" == "start" + "," + ("end" + "," + "location" + "," + "subject")
  {
  }

  /** Three `key=value` pieces written after `?` and `&` are the rendering of
      the three parameters. */
  lemma AssembleQuery(t0: string, t1: string, t2: string, p0: (string, string), p1: (string, string), p2: (string, string))
    requires t0 == "?" + p0.0 + "=" + p0.1
    requires t1 == "&" + p1.0 + "=" + p1.1
    requires t2 == "&" + p2.0 + "=" + p2.1
    ensures t0 + t1 + t2 == "?" + QueryString.RenderQuery([p0, p1, p2])
  {
    var r0, r1, r2 := QueryString.RenderParam(p0), QueryString.RenderParam(p1), QueryString.RenderParam(p2);
    var rendered := seq(3, i requires 0 <= i < 3 => QueryString.RenderParam([p0, p1, p2][i]));
    assert rendered == [r0, r1, r2];
    Text.JoinThree(r0, r1, r2, '&');
    assert t0 == "?" + r0 && t1 == "&" + r1 && t2 == "&" + r2;
  }

  /** The query text is exactly the rendering of the three parameters. */
  lemma QueryTextRendersParams(p0: (string, string), p1: (string, string), p2: (string, string))
    requires p0 == SelectParam && p1 == FilterParam && p2 == OrderByParam
    ensures QueryText == "?" + QueryString.RenderQuery([p0, p1, p2])
  {
    SelectText();
    FilterText();
    OrderByText();
    AssembleQuery("?$select=start,end,location,subject", "&$filter=isAllDay eq false", "&$orderby=start/dateTime desc", p0, p1, p2);
  }

  lemma SelectListsFields(fields: seq<string>)
    requires fields == SelectedFields
    ensures Text.Split(SelectParam.1, ',') == fields
  {
    assert fields[1..] == ["end", "location", "subject"];
    Text.JoinThree(fields[1], fields[2], fields[3], ',');
    assert Text.Join(fields, ',') == fields[0] + "," + Text.Join(fields[1..], ',');
    FieldsText();
    Text.SplitJoin(fields, ',');
  }

  lemma SuffixAfter(a: string, b: string, c: char, q: string)
    ensures (a + b + ([c] + q))[..|a|] == a
    ensures (a + b + ([c] + q))[|a|..|a| + |b| + 1] == b + [c]
    ensures (a + b + ([c] + q))[|a| + |b| + 1..] == q
  {
    var url := a + b + ([c] + q);
    assert url == a + (b + [c]) + q;
  }

  /** Read back behind the configured endpoint and the events path, the query
      selects start, end, location and subject, keeps only events that are
      not all-day and orders them by start time, newest first; this holds for
      every endpoint. */
  lemma QueryEndpointReadsBack(endpoint: string)
    ensures var url := QueryEndpoint(endpoint);
      && url[..|endpoint|] == endpoint
      && url[|endpoint|..|endpoint| + |EventsPath| + 1] == EventsPath + "?"
      && QueryString.ParseQuery(url[|endpoint| + |EventsPath| + 1..]) == GraphQueryParams
      && Text.Split(GraphQueryParams[0].1, ',') == SelectedFields
  {
    var p0, p1, p2 := SelectParam, FilterParam, OrderByParam;
    QueryTextRendersParams(p0, p1, p2);
    var q := QueryString.RenderQuery([p0, p1, p2]);
    SuffixAfter(endpoint, EventsPath, '?', q);
    QueryString.QueryRoundTrip([p0, p1, p2]);
    SelectListsFields(SelectedFields);
  }

  /** The request carries the service's token, unchanged, as its bearer
      credential, asks for minimal metadata, and is a GET of the query URL;
      different tokens give different requests. */
  lemma GraphRequestReadsBack(endpoint: string, accessToken: string)
    ensures var r := GraphRequest(endpoint, accessToken);
      && r.url == QueryEndpoint(endpoint)
      && r.verb == "GET"
      && |r.headers| == 2
      && BearerToken(r.headers) == Some(accessToken)
      && HeaderValue(r.headers, "Accept") == Some(AcceptMinimalMetadata)
  {
  }
}
