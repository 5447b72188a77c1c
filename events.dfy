/** The event records of src/server/models/IEvent.ts: the internal event the
    calendar view shows, and the wire records the Graph REST API returns. */
module Events {
  import opened Wrappers

  /** A start or end instant as the provider sends it: an ISO-8601 text and
      the name of the time zone it is expressed in. */
  datatype GraphRestEventDateTime = GraphRestEventDateTime(dateTime: string, timeZone: string)

  /** The location object of a provider event. */
  datatype GraphRestEventLocation = GraphRestEventLocation(displayName: string)

  /** A provider event as it arrives in the `value` array of the response body.
      `id` and the change tag `odata.etag` are always there; the other four
      fields may be absent. */
  datatype GraphRestEvent = GraphRestEvent(
    odataEtag: string,
    id: string,
    start: Option<GraphRestEventDateTime>,
    end: Option<GraphRestEventDateTime>,
    location: Option<GraphRestEventLocation>,
    subject: Option<string>)

  /** The internal event. The interface declares five string fields; the
      service fills `subject` by copying the provider's optional subject
      through a type cast, so an event whose provider record had no subject
      carries no subject here either: the model keeps that as `None`. */
  datatype IEvent = IEvent(
    id: string,
    startTime: string,
    endTime: string,
    location: string,
    subject: Option<string>)

  /** The body of a successful response, once parsed: the events sit in the
      container field `value`. */
  datatype GraphEventList = GraphEventList(value: seq<GraphRestEvent>)
}
