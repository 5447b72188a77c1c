/** src/server/services/calendarService.ts: the service that fetches the
    signed-in user's events from the Graph REST API and translates them into
    internal events.

    The HTTP round trip is not modelled. What the request callback receives
    (a transport error, or a status code, a status text and the parsed body)
    is an input, and the promise `getEvents` returns is modelled by what it
    settles to. */
module Calendar {
  import opened Wrappers
  import opened Events
  import Decimal
  import Text
  import GraphQuery

  /** The `error` argument of the request callback: the request could not be
      completed. Its content belongs to the HTTP library. */
  datatype TransportError = TransportError(description: string)

  /** What the request callback is called with. `body` stands for
      `JSON.parse(body)` and is only looked at when the status is 200. */
  datatype Reply = Reply(
    error: Option<TransportError>,
    statusCode: nat,
    statusMessage: string,
    body: GraphEventList)

  /** Why the promise was rejected: the transport error itself, or an `Error`
      built from the status line. */
  datatype RejectReason = Transport(error: TransportError) | ApiError(message: string)

  /** The absent field whose dereference threw. The object literal that
      builds an internal event reads `end`, then `location`, then `start`. */
  datatype MissingField = End | Location | Start

  /** What the returned promise does. `Unsettled` is the case where building
      an internal event throws a TypeError inside the request callback: the
      deferred is then neither resolved nor rejected, and the uncaught
      exception, by default, ends the Node process. */
  datatype Settlement =
    | Rejected(reason: RejectReason)
    | Resolved(events: seq<IEvent>)
    | Unsettled(index: nat, missing: MissingField)

  // ---------------------------------------------------------------------------
  // The status error message

  /** `'[' + statusCode + ']' + statusMessage`: no separator after the bracket. */
  function ApiErrorMessage(statusCode: nat, statusMessage: string): (message: string)
  {
    "[" + Decimal.NatToDecimal(statusCode) + "]" + statusMessage
  }

  /** Reads a status code in brackets and the text that follows it. */
  function ParseApiErrorMessage(message: string): (status: Option<(nat, string)>)
  {
    if |message| == 0 || message[0] != '[' then None
    else match Text.IndexOf(message[1..], ']')
      case None => None
      case Some(j) =>
        var digits := message[1..1 + j];
        if |digits| >= 1 && Decimal.AllDigits(digits)
        then Some((Decimal.ParseDecimal(digits), message[j + 2..]))
        else None
  }

  /** The message of a status error gives back both the status code and the
      status text, the latter exactly, with nothing added in between. */
  lemma ApiErrorMessageReadsBack(statusCode: nat, statusMessage: string)
    ensures ParseApiErrorMessage(ApiErrorMessage(statusCode, statusMessage)) == Some((statusCode, statusMessage))
  {
    var digits := Decimal.NatToDecimal(statusCode);
    var message := ApiErrorMessage(statusCode, statusMessage);
    assert message[1..] == digits + [']'] + statusMessage;
    assert ']' !in digits by {
      forall i | 0 <= i < |digits| ensures digits[i] != ']' {
        assert Decimal.IsDigit(digits[i]);
      }
    }
    Text.IndexOfAfter(digits, ']', statusMessage);
    assert message[1..1 + |digits|] == digits;
    assert message[|digits| + 2..] == statusMessage;
    Decimal.DecimalRoundTrip(statusCode);
  }

  // ---------------------------------------------------------------------------
  // Converting provider events

  /** A provider event carries every field the conversion dereferences. */
  predicate Complete(g: GraphRestEvent) {
    g.start.Some? && g.end.Some? && g.location.Some?
  }

  /** The internal event the object literal builds from a provider event, or
      the first absent field it dereferences. The change tag and the time
      zones are not carried over. */
  function ConvertEvent(g: GraphRestEvent): (r: Result<IEvent, MissingField>)
    ensures r.Success? <==> Complete(g)
    ensures r == Failure(End) <==> g.end.None?
    ensures r == Failure(Location) <==> g.end.Some? && g.location.None?
    ensures r == Failure(Start) <==> g.end.Some? && g.location.Some? && g.start.None?
  {
    if g.end.None? then Failure(End)
    else if g.location.None? then Failure(Location)
    else if g.start.None? then Failure(Start)
    else Success(IEvent(
      id := g.id,
      startTime := g.start.value.dateTime,
      endTime := g.end.value.dateTime,
      location := g.location.value.displayName,
      subject := g.subject))
  }

  /** Two provider events that differ only in their change tags and time
      zones convert to the same internal event. */
  lemma ConvertIgnoresEtagAndTimeZones(g: GraphRestEvent, h: GraphRestEvent)
    requires Complete(g) && Complete(h)
    requires g.id == h.id && g.subject == h.subject
    requires g.start.value.dateTime == h.start.value.dateTime
    requires g.end.value.dateTime == h.end.value.dateTime
    requires g.location == h.location
    ensures ConvertEvent(g) == ConvertEvent(h)
  {
  }

  /** The outcome of the conversion loop over the body's `value` array: every
      event converted, in order, or the position and field of the first
      dereference that throws. */
  datatype Conversion = Converted(events: seq<IEvent>) | Threw(index: nat, missing: MissingField)

  /** The conversion loop, stated one element at a time from the end: the
      events of a prefix, followed by the next one. */
  function ConvertAll(raw: seq<GraphRestEvent>): (c: Conversion)
  {
    if raw == [] then Converted([])
    else match ConvertAll(raw[..|raw| - 1])
      case Threw(k, f) => Threw(k, f)
      case Converted(events) =>
        match ConvertEvent(raw[|raw| - 1])
        case Failure(f) => Threw(|raw| - 1, f)
        case Success(e) => Converted(events + [e])
  }

  /** The loop yields a result for every event exactly when every event is
      complete; the result then has one internal event per provider event, in
      the same order, each with the provider's id, start and end date-time
      texts, location display name and subject. */
  lemma {:induction false} ConvertAllConverts(raw: seq<GraphRestEvent>)
    ensures ConvertAll(raw).Converted? <==> forall i :: 0 <= i < |raw| ==> Complete(raw[i])
    ensures ConvertAll(raw).Converted? ==>
      var events := ConvertAll(raw).events;
      && |events| == |raw|
      && forall i :: 0 <= i < |raw| ==>
        && events[i].id == raw[i].id
        && events[i].startTime == raw[i].start.value.dateTime
        && events[i].endTime == raw[i].end.value.dateTime
        && events[i].location == raw[i].location.value.displayName
        && events[i].subject == raw[i].subject
  {
    if raw != [] {
      var init := raw[..|raw| - 1];
      ConvertAllConverts(init);
      assert forall i :: 0 <= i < |init| ==> init[i] == raw[i];
      if !Complete(raw[|raw| - 1]) {
        assert !ConvertAll(raw).Converted?;
      }
    }
  }

  /** When the loop throws, it is at the first incomplete event, on the first
      of its fields in the order `end`, `location`, `start` that is absent. */
  lemma {:induction false} ConvertAllThrows(raw: seq<GraphRestEvent>)
    ensures ConvertAll(raw).Threw? ==>
      var k := ConvertAll(raw).index;
      && k < |raw|
      && ConvertEvent(raw[k]) == Failure(ConvertAll(raw).missing)
      && forall j :: 0 <= j < k ==> Complete(raw[j])
  {
    if raw != [] {
      var init := raw[..|raw| - 1];
      ConvertAllThrows(init);
      ConvertAllConverts(init);
      assert forall i :: 0 <= i < |init| ==> init[i] == raw[i];
    }
  }

  /** Once a prefix has thrown, the whole loop has thrown at the same place. */
  lemma {:induction false} ThrowStopsConversion(raw: seq<GraphRestEvent>, n: nat)
    requires n <= |raw|
    requires ConvertAll(raw[..n]).Threw?
    ensures ConvertAll(raw) == ConvertAll(raw[..n])
    decreases |raw| - n
  {
    if n < |raw| {
      var init := raw[..|raw| - 1];
      assert init[..n] == raw[..n];
      ThrowStopsConversion(init, n);
    } else {
      assert raw[..n] == raw;
    }
  }

  /** The `for...of` loop of the success branch: push one internal event per
      provider event; a missing `end`, `location` or `start` throws, which
      abandons the events pushed so far. */
  method ConvertEvents(raw: seq<GraphRestEvent>) returns (c: Conversion)
    ensures c == ConvertAll(raw)
  {
    var events: seq<IEvent> := [];
    var i := 0;
    while i < |raw|
      invariant 0 <= i <= |raw|
      invariant ConvertAll(raw[..i]) == Converted(events)
    {
      var g := raw[i];
      assert raw[..i + 1][..i] == raw[..i];
      match ConvertEvent(g)
      case Failure(f) =>
        ThrowStopsConversion(raw, i + 1);
        return Threw(i, f);
      case Success(e) =>
        events := events + [e];
      i := i + 1;
    }
    assert raw[..i] == raw;
    c := Converted(events);
  }

  // ---------------------------------------------------------------------------
  // Settling the promise

  /** What the promise settles to for a given reply: a transport error is
      passed on as is; otherwise a status other than 200 is rejected with the
      status error; otherwise the body's events are converted. */
  function Settle(reply: Reply): (settlement: Settlement)
  {
    if reply.error.Some? then Rejected(Transport(reply.error.value))
    else if reply.statusCode != 200 then Rejected(ApiError(ApiErrorMessage(reply.statusCode, reply.statusMessage)))
    else match ConvertAll(reply.body.value)
      case Threw(k, f) => Unsettled(k, f)
      case Converted(events) => Resolved(events)
  }

  /** The three branches exclude one another. The promise is rejected exactly
      when there is a transport error or the status is not 200, carrying that
      same error, or a message that gives back the status code and text; it
      is resolved exactly when the status is 200 and every event is complete,
      with one internal event per provider event, in order; otherwise it is
      never settled, and never with part of the events. */
  lemma SettleOutcomes(reply: Reply)
    ensures Settle(reply).Rejected? <==> reply.error.Some? || reply.statusCode != 200
    ensures Settle(reply).Resolved? <==>
      && reply.error.None? && reply.statusCode == 200
      && forall i :: 0 <= i < |reply.body.value| ==> Complete(reply.body.value[i])
    ensures Settle(reply).Unsettled? <==>
      && reply.error.None? && reply.statusCode == 200
      && exists i :: 0 <= i < |reply.body.value| && !Complete(reply.body.value[i])
    ensures reply.error.Some? ==> Settle(reply) == Rejected(Transport(reply.error.value))
    ensures reply.error.None? && reply.statusCode != 200 ==>
      && Settle(reply).reason.ApiError?
      && ParseApiErrorMessage(Settle(reply).reason.message) == Some((reply.statusCode, reply.statusMessage))
    ensures Settle(reply).Resolved? ==>
      var raw, events := reply.body.value, Settle(reply).events;
      && |events| == |raw|
      && forall i :: 0 <= i < |raw| ==>
        && events[i].id == raw[i].id
        && events[i].startTime == raw[i].start.value.dateTime
        && events[i].endTime == raw[i].end.value.dateTime
        && events[i].location == raw[i].location.value.displayName
        && events[i].subject == raw[i].subject
  {
    ConvertAllConverts(reply.body.value);
    if reply.error.None? && reply.statusCode != 200 {
      ApiErrorMessageReadsBack(reply.statusCode, reply.statusMessage);
    }
  }

  // ---------------------------------------------------------------------------
  // The service

  /** A calendar service holds the access token it was built with. */
  class CalendarService {
    const accessToken: string

    constructor (accessToken: string)
      ensures this.accessToken == accessToken
    {
      this.accessToken := accessToken;
    }

    /** `getEvents`: issue the query with this service's token, then settle
        on the reply the request callback receives. */
    method GetEvents(endpoint: string, reply: Reply) returns (request: GraphQuery.HttpRequest, settlement: Settlement)
      ensures request == GraphQuery.GraphRequest(endpoint, accessToken)
      ensures settlement == Settle(reply)
    {
      request := GraphQuery.GraphRequest(endpoint, accessToken);

      if reply.error.Some? {
        settlement := Rejected(Transport(reply.error.value));
      } else if reply.statusCode != 200 {
        settlement := Rejected(ApiError(ApiErrorMessage(reply.statusCode, reply.statusMessage)));
      } else {
        var c := ConvertEvents(reply.body.value);
        match c
        case Threw(k, f) => settlement := Unsettled(k, f);
        case Converted(events) => settlement := Resolved(events);
      }
    }
  }
}
