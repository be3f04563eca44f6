/**
 * The HTTPS entry point: a request that carries an `x-github-event` header
 * is handed to the webhook middleware, any other is answered with status
 * 400.  The middleware itself (signature check, event-name routing) is not
 * part of this model; what it hands the `sponsorship` handler is a parameter.
 */
module Router {
  import opened Wrappers
  import opened Events
  import opened Slack
  import opened Dispatch

  /** A header value as a request object can hold it, with JavaScript's `undefined` and `null`. */
  datatype HeaderValue = Undefined | Null | Single(value: string) | Multiple(values: seq<string>)

  /** Header names are lower case, as Node presents them. */
  datatype Request = Request(headers: map<string, HeaderValue>)

  datatype Response = Delegated | Status(code: int)

  const EventHeader: string := "x-github-event"

  /** `request.headers[name]`: a missing header reads as undefined. */
  function Header(r: Request, name: string): (v: HeaderValue)
    ensures v == Undefined <==> name !in r.headers || r.headers[name] == Undefined
    ensures v != Undefined ==> name in r.headers && v == r.headers[name]
  {
    if name in r.headers then r.headers[name] else Undefined
  }

  /** JavaScript's loose `v != null`, false exactly for null and undefined. */
  predicate LooselyNonNull(v: HeaderValue)
    ensures LooselyNonNull(v) <==> v.Single? || v.Multiple?
  {
    !(v.Undefined? || v.Null?)
  }

  function Route(r: Request): (resp: Response)
    ensures resp == Delegated <==> EventHeader in r.headers && r.headers[EventHeader] !in {Undefined, Null}
    ensures resp != Delegated ==> resp == Status(400)
  {
    if LooselyNonNull(Header(r, EventHeader)) then Delegated else Status(400)
  }

  /**
   * The messages one request leads to.  `handed` is the event the middleware
   * passes to the `sponsorship` handler, or None when it passes none.
   */
  function Deliveries(r: Request, handed: Option<Event>): (sent: seq<Message>)
    ensures |sent| <= 1
    ensures |sent| == 1 ==> Route(r) == Delegated && handed.Some? && (handed.value.Created? || handed.value.Cancelled?)
  {
    if Route(r) == Delegated && handed.Some? then
      SendsAgreesWithNotification(handed.value);
      Sends(handed.value)
    else []
  }

  /** Without the event header the request is refused and nothing reaches the handler. */
  lemma MissingHeaderIsRefused(r: Request, handed: Option<Event>)
    requires EventHeader !in r.headers || r.headers[EventHeader] == Null
    ensures Route(r) == Status(400)
    ensures Deliveries(r, handed) == []
  {
  }

  /** Any present header value, even an empty string, is delegated: the test is only against null. */
  lemma PresentHeaderIsDelegated(r: Request, value: string)
    requires EventHeader in r.headers && r.headers[EventHeader] == Single(value)
    ensures Route(r) == Delegated
  {
  }
}
