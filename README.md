# Calendar retrieval: a Dafny model

This project models the calendar feature of a small Express web application.
The feature serves `GET /calendar` with three steps:

1. It checks that the user is signed in.
2. It obtains an access token for the Microsoft Graph REST API.
3. It queries the Graph API for the user's calendar events, turns each
   provider event into an internal event and renders the list.

The model covers three source files:

- `src/server/models/IEvent.ts`: the event records, modelled as datatypes in
  `events.dfy` (module `Events`). Optional fields become `Option`.
- `src/server/services/calendarService.ts`: the service, in two parts.
  `graph_query.dfy` (module `GraphQuery`) has the query URL, the headers and
  the request. `calendar_service.dfy` (module `Calendar`) has the settling of
  the promise and the conversion loop. `CalendarService` is a class holding
  its token. The loop of the success branch is a method, proved equal to a
  recursive specification function `ConvertAll`.
- `src/server/controllers/calendarController.ts`: the handlers, in
  `calendar_controller.dfy` (module `Controller`). They act on a `Response`
  object that records the redirects and renders written to it, in order.

The helper modules are `Wrappers` (`Option`, `Result`) and `Decimal`. `Decimal`
models the decimal text JavaScript writes when a number is added to a string.
`Text` and `QueryString` read back the URLs the source builds by
concatenation. Each builder has a read-back lemma as its partner.

Collaborators that are not shown become inputs:

- the reply of the HTTP request (transport error, status code, status text,
  parsed body);
- the two configuration settings;
- `encodeURIComponent`, as a function parameter;
- the identity module's token lookup, as a function from resource id to an
  optional token (`None` stands for `undefined`);
- whether the user is authenticated.

Points where the model follows the code:

- **Redirects do not stop the request.** In the code, `getGraphAccessToken`
  returns the token after redirecting, and `handleGetCalendar` builds the
  service and sends the Graph request whenever the checks return. The model
  records zero, one or two redirects (login first) and still issues the
  request and renders on success. Under Express the two-redirect case ends
  earlier, with an exception (see "## Left out").
- **Missing `start`, `end` or `location`.** These fields are read without a
  guard, so a provider event lacking one throws a TypeError inside the
  request callback. The promise is then never settled, and since the
  exception escapes an event-emitter callback rather than a promise handler,
  by default it ends the Node process. The model gives this
  outcome its own constructor, `Unsettled(index, field)`. It names the first
  such event and the first field the object literal reads, in the order
  `end`, `location`, `start`. No empty value is substituted.
- **Missing `subject`.** An absent subject is copied through the `<IEvent>`
  cast as `undefined`. So the model's `IEvent.subject` is an
  `Option<string>`, although the interface declares a string.
- **Absent token.** An absent token reaches the header as
  `Bearer undefined` (`TokenText`).

## Model

| member | source | states |
|---|---|---|
| `GraphQuery.QueryEndpointReadsBack` | src/server/services/calendarService.ts:23-27 | For any configured endpoint, the query URL is that endpoint, then `/me/calendar/events?`, then parameters that read back as `$select=start,end,location,subject`, `$filter=isAllDay eq false`, `$orderby=start/dateTime desc`, in that order. `$select` names four fields, `start`, `end`, `location` and `subject`; the conversion also reads `id`, which the query does not select. |
| `GraphQuery.GraphRequestReadsBack` | src/server/services/calendarService.ts:31-43 | The request is a GET of the query URL with exactly two headers. `Authorization` carries the service's token unchanged as a Bearer credential. `Accept` is `application/json;odata.metadata=minimal`. |
| `Decimal.DecimalRoundTrip` | src/server/services/calendarService.ts:50 | The decimal text of a status code, as string concatenation writes it, reads back as the same number. |
| `Calendar.ApiErrorMessageReadsBack` | src/server/services/calendarService.ts:48-52 | The status error message `[code]text` gives back the status code and the status text. The text comes back exactly, so nothing is inserted after the bracket. |
| `Calendar.ConvertEvent` | src/server/services/calendarService.ts:62-68 | Converting one provider event succeeds exactly when `start`, `end` and `location` are present. Otherwise it fails on `end` if that is absent, else on `location`, else on `start`. |
| `Calendar.ConvertIgnoresEtagAndTimeZones` | src/server/services/calendarService.ts:62-68 | Two provider events that differ only in `odata.etag` and time zones convert to the same internal event, so neither is carried over. |
| `Calendar.ConvertAllConverts` | src/server/services/calendarService.ts:57-69 | The loop converts every event exactly when every event is complete. The result then has as many events as the `value` array, in the same order. Element i has `id`, `startTime` = `start.dateTime`, `endTime` = `end.dateTime`, `location` = `location.displayName` and `subject` from provider event i. |
| `Calendar.ConvertAllThrows` | src/server/services/calendarService.ts:61-68 | When the loop throws, it does so at the first incomplete event, on the first absent field in the order the literal reads them. Every earlier event is complete. |
| `Calendar.ConvertEvents` | src/server/services/calendarService.ts:57-69 | The imperative `for...of`/`push` loop returns exactly `ConvertAll` of the body's events. |
| `Calendar.SettleOutcomes` | src/server/services/calendarService.ts:44-73 | The promise is rejected exactly when there is a transport error or the status is not 200. A transport error is passed on as is. A status error's message reads back as the code and text. The promise resolves exactly on status 200 with every event complete, to the field-wise copy of the events in order. Otherwise it is never settled. The three outcomes exclude each other, and no partial list is ever produced. |
| `Calendar.CalendarService.constructor` | src/server/services/calendarService.ts:12 | The service keeps the token it is given. |
| `Calendar.CalendarService.GetEvents` | src/server/services/calendarService.ts:19-78 | Issues the Graph request built from the endpoint and the service's own token. Settles as `Settle` of the reply the callback receives. |
| `Controller.GateRedirectsOrder` | src/server/controllers/calendarController.ts:21-57 | The login redirect is issued exactly for an unauthenticated user. The token redirect is issued exactly for an absent, empty or `EXPIRED` token. Neither check stops the other: with both conditions, both redirects are issued, login first. |
| `Controller.RedirectsReadBack` | src/server/controllers/calendarController.ts:21-55 | Behind `/login?`, the login redirect reads back as `redir` = the encoded route path. The token redirect reads back as `redir` = the encoded route path, then `resourceId` = the encoded resource id. |
| `Controller.VerifyUserLoggedIn` | src/server/controllers/calendarController.ts:21-28 | Appends the login redirect for an unauthenticated user and nothing otherwise. Renders nothing. |
| `Controller.GetGraphAccessToken` | src/server/controllers/calendarController.ts:38-58 | Returns the token the lookup gave for the configured resource id, unchanged, also after a redirect. Appends the redirects of both checks, in order. |
| `Controller.HandleGetCalendar` | src/server/controllers/calendarController.ts:79-97 | Once the checks return, sends the Graph request with the returned token. Renders `calendar/list` with the resolved events once if the request resolves, and nothing otherwise. |
| `Controller.RenderOnlyOnResolve` | src/server/controllers/calendarController.ts:87-96 | A render happens exactly on resolution. Its view model's events are the resolved events, one per provider event. |
| `Controller.RequestCarriesReturnedToken` | src/server/controllers/calendarController.ts:83-86 | The request built after the checks carries the looked-up token as its Bearer credential, or `undefined` when there was none. |

## Left out

- The HTTP call made with the `request` library, and the Q deferred and promise. The reply is an input, and the promise is modelled by what it settles to. Asynchrony is not modelled.
- `JSON.parse`: the body is taken as already parsed into a list of provider events. Malformed JSON and a body without a `value` array are not modelled.
- `nconf` lookups: the endpoint and the resource id are plain string inputs. A missing setting, which JavaScript would print as `undefined`, is not modelled.
- `encodeURIComponent` is a function parameter. The only fact about it that is used is that its output holds no `&`. Percent-encoding itself is not modelled.
- `AzureAD.getAccessToken` and `User.isAuthenticated` are inputs, because their code is not part of this model. A `null` token, which would print as `Bearer null`, is not told apart from `undefined`.
- Express: routing (`CalendarController`'s constructor, `loadRoutes`) and the template engine are not modelled. `Response` only records the directives and accepts every one of them.
- Controller.GetGraphAccessToken: its contract describes a `Response` that accepts every directive. Under Express, `res.redirect` sets `Location` through `setHeader`, which throws once the headers are sent. So for an unauthenticated user with an absent, empty or `EXPIRED` token, the second redirect throws, and no token is returned.
- Controller.HandleGetCalendar: its contract describes a `Response` that accepts every directive. Under Express, the two-redirect case ends with the exception at the second redirect, so no service is built and no Graph request is sent. A render after a single redirect would likewise fail in Express; the model records it.
- `debug` logging.
- The unhandled rejection in `handleGetCalendar`, which has no `.catch`: the model only records that nothing is rendered.
- `src/server/controllers/index.ts` only creates the controllers. `CalendarViewModel` is modelled by its `events` field alone, because its base class `BaseViewModel` is not part of this model.
- The transport error is opaque: its description is carried unchanged and never examined.
