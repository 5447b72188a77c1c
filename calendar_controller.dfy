/** src/server/controllers/calendarController.ts: the handler of
    `GET /calendar`. It checks that the user is signed in, fetches a Graph
    access token, and renders the user's events.

    The handler acts on the response object; `Response` records the
    redirects and renders it is asked for, in order. What the source obtains
    from collaborators not modelled here becomes input: the route path and
    whether the user is authenticated (`Request`), the two configuration
    settings (`Config`), `encodeURIComponent` (`encode`), the token lookup of
    the identity module (`getAccessToken`, from resource id to token, where
    `None` is `undefined`) and the reply to the Graph request. */
module Controller {
  import opened Wrappers
  import opened Events
  import Text
  import QueryString
  import GraphQuery
  import Calendar

  /** `req.route.path`, and whether `new User(req).isAuthenticated()`. */
  datatype Request = Request(routePath: string, authenticated: bool)

  /** The settings `graph-rest-api-resourceid` and `graph-rest-api-endpoint`. */
  datatype Config = Config(resourceId: string, endpoint: string)

  /** The view model handed to the template; only its events are modelled. */
  datatype CalendarViewModel = CalendarViewModel(events: seq<IEvent>)

  datatype Rendered = Rendered(view: string, model: CalendarViewModel)

  /** The HTTP response, as the directives written to it. */
  class Response {
    var redirects: seq<string>
    var renders: seq<Rendered>

    constructor ()
      ensures redirects == [] && renders == []
    {
      redirects, renders := [], [];
    }

    method Redirect(url: string)
      modifies this
      ensures redirects == old(redirects) + [url]
      ensures renders == old(renders)
    {
      redirects := redirects + [url];
    }

    method Render(view: string, model: CalendarViewModel)
      modifies this
      ensures renders == old(renders) + [Rendered(view, model)]
      ensures redirects == old(redirects)
    {
      renders := renders + [Rendered(view, model)];
    }
  }

  const CalendarListView := "calendar/list"

  // ---------------------------------------------------------------------------
  // The redirect decisions

  /** The token test `!accessToken || accessToken === 'EXPIRED'`: an absent
      or empty token, or the expiry sentinel. */
  predicate TokenUnusable(accessToken: Option<string>) {
    accessToken.None? || accessToken.value == "" || accessToken.value == "EXPIRED"
  }

  /** Where an unauthenticated user is sent. */
  function LoginRedirect(routePath: string, encode: string -> string): (url: string)
  {
    "/login?redir=" + encode(routePath)
  }

  /** Where a user without a usable token is sent. */
  function TokenRedirect(routePath: string, resourceId: string, encode: string -> string): (url: string)
  {
    "/login?" + "redir=" + encode(routePath) + "&resourceId=" + encode(resourceId)
  }

  /** The redirects the login check and then the token check issue. */
  function GateRedirects(req: Request, accessToken: Option<string>, resourceId: string, encode: string -> string): (redirects: seq<string>)
  {
    (if req.authenticated then [] else [LoginRedirect(req.routePath, encode)])
    + (if TokenUnusable(accessToken) then [TokenRedirect(req.routePath, resourceId, encode)] else [])
  }

  /** The render the handler issues for a settlement of the Graph request. */
  function RenderOnResolve(settlement: Calendar.Settlement): (renders: seq<Rendered>)
  {
    if settlement.Resolved? then [Rendered(CalendarListView, CalendarViewModel(settlement.events))] else []
  }

  /** The text `'Bearer ' + accessToken` gives the token: an absent token
      becomes the word "undefined". */
  function TokenText(accessToken: Option<string>): (text: string)
  {
    match accessToken
    case None => "undefined"
    case Some(t) => t
  }

  /** The login check redirects exactly the unauthenticated user and the
      token check exactly an absent, empty or expired token; neither stops
      the other, so both may be issued, login first. */
  lemma GateRedirectsOrder(req: Request, accessToken: Option<string>, resourceId: string, encode: string -> string)
    ensures var r := GateRedirects(req, accessToken, resourceId, encode);
      && |r| == (if req.authenticated then 0 else 1) + (if TokenUnusable(accessToken) then 1 else 0)
      && (!req.authenticated <==> |r| > 0 && r[0] == LoginRedirect(req.routePath, encode))
      && (TokenUnusable(accessToken) <==> |r| > 0 && r[|r| - 1] == TokenRedirect(req.routePath, resourceId, encode))
      && (!req.authenticated && TokenUnusable(accessToken) ==>
            r == [LoginRedirect(req.routePath, encode), TokenRedirect(req.routePath, resourceId, encode)])
  {
  }

  lemma LoginPrefix(routePath: string, encode: string -> string)
    ensures LoginRedirect(routePath, encode) == "/login?" + "redir" + "=" + encode(routePath)
  {
  }

  lemma TokenPrefix(routePath: string, resourceId: string, encode: string -> string)
    ensures TokenRedirect(routePath, resourceId, encode)
      == "/login?" + ("redir" + "=" + encode(routePath)) + "&" + ("resourceId" + "=" + encode(resourceId))
  {
  }

  /** Read back after `/login?`, the login redirect names the encoded route
      as `redir`, and the token redirect names it as `redir` followed by the
      encoded resource id as `resourceId`. This needs only that the encoder
      leaves no `&` in its output, as `encodeURIComponent` does. */
  lemma RedirectsReadBack(routePath: string, resourceId: string, encode: string -> string)
    requires '&' !in encode(routePath) && '&' !in encode(resourceId)
    ensures var login := LoginRedirect(routePath, encode);
      login[..7] == "/login?" && QueryString.ParseQuery(login[7..]) == [("redir", encode(routePath))]
    ensures var token := TokenRedirect(routePath, resourceId, encode);
      && token[..7] == "/login?"
      && QueryString.ParseQuery(token[7..]) == [("redir", encode(routePath)), ("resourceId", encode(resourceId))]
  {
    var redir, res := ("redir", encode(routePath)), ("resourceId", encode(resourceId));
    assert QueryString.WellFormedParam(redir);
    assert QueryString.WellFormedParam(res);

    LoginPrefix(routePath, encode);
    var login := LoginRedirect(routePath, encode);
    assert QueryString.RenderQuery([redir]) == QueryString.RenderParam(redir);
    assert login == "/login?" + QueryString.RenderQuery([redir]);
    QueryString.QueryRoundTrip([redir]);

    TokenPrefix(routePath, resourceId, encode);
    var token := TokenRedirect(routePath, resourceId, encode);
    var rendered := seq(2, i requires 0 <= i < 2 => QueryString.RenderParam([redir, res][i]));
    assert rendered == [QueryString.RenderParam(redir), QueryString.RenderParam(res)];
    assert rendered[1..] == [QueryString.RenderParam(res)];
    assert Text.Join(rendered, '&') == rendered[0] + "&" + rendered[1];
    assert token == "/login?" + QueryString.RenderQuery([redir, res]);
    QueryString.QueryRoundTrip([redir, res]);
  }

  // ---------------------------------------------------------------------------
  // The handlers

  /** `verifyUserLoggedIn`: redirect an unauthenticated user to the login
      page, which returns them to this route. */
  method VerifyUserLoggedIn(req: Request, res: Response, encode: string -> string)
    modifies res
    ensures res.redirects == old(res.redirects) + (if req.authenticated then [] else [LoginRedirect(req.routePath, encode)])
    ensures res.renders == old(res.renders)
  {
    if !req.authenticated {
      res.Redirect(LoginRedirect(req.routePath, encode));
    }
  }

  /** `getGraphAccessToken`: run the login check, look up the token for the
      configured resource, redirect if it is unusable, and return it
      unchanged in every case. */
  method GetGraphAccessToken(req: Request, res: Response, config: Config, encode: string -> string,
                             getAccessToken: string -> Option<string>)
    returns (accessToken: Option<string>)
    modifies res
    ensures accessToken == getAccessToken(config.resourceId)
    ensures res.redirects == old(res.redirects) + GateRedirects(req, accessToken, config.resourceId, encode)
    ensures res.renders == old(res.renders)
  {
    VerifyUserLoggedIn(req, res, encode);
    var graphRestApiResourceId := config.resourceId;
    accessToken := getAccessToken(graphRestApiResourceId);
    if TokenUnusable(accessToken) {
      res.Redirect(TokenRedirect(req.routePath, graphRestApiResourceId, encode));
    }
  }

  /** `handleGetCalendar`: once the checks return, build the service with
      the token they returned, issue the Graph request, and render the
      calendar list with the events only if the request resolves. The reply
      the request receives is an input. */
  method HandleGetCalendar(req: Request, res: Response, config: Config, encode: string -> string,
                           getAccessToken: string -> Option<string>, reply: Calendar.Reply)
    returns (issued: GraphQuery.HttpRequest)
    modifies res
    ensures issued == GraphQuery.GraphRequest(config.endpoint, TokenText(getAccessToken(config.resourceId)))
    ensures res.redirects == old(res.redirects) + GateRedirects(req, getAccessToken(config.resourceId), config.resourceId, encode)
    ensures res.renders == old(res.renders) + RenderOnResolve(Calendar.Settle(reply))
  {
    var accessToken := GetGraphAccessToken(req, res, config, encode, getAccessToken);
    var calendarService := new Calendar.CalendarService(TokenText(accessToken));
    var settlement;
    issued, settlement := calendarService.GetEvents(config.endpoint, reply);
    if settlement.Resolved? {
      var vm := CalendarViewModel(settlement.events);
      res.Render(CalendarListView, vm);
    }
  }

  /** A render happens exactly when the Graph request resolves, and its view
      model holds the resolved events: one per provider event, in order. */
  lemma RenderOnlyOnResolve(reply: Calendar.Reply)
    ensures var renders := RenderOnResolve(Calendar.Settle(reply));
      && (|renders| == 1 <==> Calendar.Settle(reply).Resolved?)
      && (renders == [] <==> !Calendar.Settle(reply).Resolved?)
      && (|renders| == 1 ==>
            && renders[0].view == CalendarListView
            && renders[0].model.events == Calendar.Settle(reply).events
            && |renders[0].model.events| == |reply.body.value|)
  {
    Calendar.SettleOutcomes(reply);
  }

  /** Once the checks return, the Graph request goes out: its bearer
      credential is the token the lookup returned, or "undefined" when it
      returned none. */
  lemma RequestCarriesReturnedToken(config: Config, accessToken: Option<string>)
    ensures var r := GraphQuery.GraphRequest(config.endpoint, TokenText(accessToken));
      && GraphQuery.BearerToken(r.headers) == Some(if accessToken.Some? then accessToken.value else "undefined")
      && r.url == GraphQuery.QueryEndpoint(config.endpoint)
  {
  }
}
