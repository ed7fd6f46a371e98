/** The serverless handler around the normaliser: fetch the feed, decode it,
    normalise it and wrap the result in an HTTP response envelope.

    The fetch is network I/O and the protocol-buffer decoder is an external
    library, so both enter as inputs: the fetch as the outcome it produced,
    the decoder as a function from bytes to a decoded feed or an error. */
module Handler {
  import opened Wrappers
  import opened GtfsRealtime
  import opened Normalizer

  /** What the upstream fetch produced. */
  datatype FetchOutcome =
    | NetworkFailure
      // the request itself failed (`fetch` rejected)
    | Responded(status: nat, body: Option<seq<bv8>>)
      // a response arrived; `body` is `None` when reading it failed

  /** The Fetch standard's `response.ok`: a status in 200-299. */
  predicate IsOkStatus(status: nat)
  {
    200 <= status <= 299
  }

  /** Why the handler could not produce a bus list; only logged, never sent. */
  datatype HandlerError =
    | Unreachable
    | UpstreamStatus(status: nat)
    | BodyUnreadable
    | Undecodable(reason: DecodeError)

  /** The response body: the bus list, or the fixed error object. */
  datatype Body = BusList(buses: seq<BusRecord>) | ErrorObject(error: string)

  datatype Response = Response(statusCode: nat, headers: map<string, string>, body: Body)

  const ErrorMessage: string := "Failed to fetch live bus data."

  const SuccessHeaders: map<string, string> :=
    map["Content-Type" := "application/json", "Access-Control-Allow-Origin" := "*"]

  /** The one response every failure produces: status 500, no headers. */
  const FailureResponse: Response := Response(500, map[], ErrorObject(ErrorMessage))

  /** The steps before normalising: a non-OK status is turned into an error,
      then the body is read and decoded. */
  function Acquire(fetch: FetchOutcome, decode: seq<bv8> -> Result<FeedMessage, DecodeError>)
    : (r: Result<FeedMessage, HandlerError>)
    ensures r.Success? <==>
      fetch.Responded? && IsOkStatus(fetch.status) && fetch.body.Some? &&
      decode(fetch.body.value).Success?
    ensures r.Success? ==> r.value == decode(fetch.body.value).value
    ensures fetch.Responded? && !IsOkStatus(fetch.status) ==> r == Failure(UpstreamStatus(fetch.status))
  {
    match fetch
    case NetworkFailure => Failure(Unreachable)
    case Responded(status, body) =>
      if !IsOkStatus(status) then Failure(UpstreamStatus(status))
      else match body
        case None => Failure(BodyUnreadable)
        case Some(bytes) =>
          match decode(bytes)
          case Failure(reason) => Failure(Undecodable(reason))
          case Success(feed) => Success(feed)
  }

  /** The two response literals, chosen by whether the steps succeeded. */
  function Respond(outcome: Result<seq<BusRecord>, HandlerError>): (r: Response)
    ensures outcome.Success? ==>
      r.statusCode == 200 && r.headers == SuccessHeaders && r.body == BusList(outcome.value)
    ensures outcome.Failure? ==> r == FailureResponse
  {
    match outcome
    case Success(buses) => Response(200, SuccessHeaders, BusList(buses))
    case Failure(_) => FailureResponse
  }

  /** The whole handler: all or nothing. Status 200 with the normalised list
      exactly when the fetch was OK and the bytes decoded; otherwise the
      fixed failure response, with no partial list. */
  function Handle(fetch: FetchOutcome, decode: seq<bv8> -> Result<FeedMessage, DecodeError>)
    : (r: Response)
    ensures r.statusCode == 200 <==>
      fetch.Responded? && IsOkStatus(fetch.status) && fetch.body.Some? &&
      decode(fetch.body.value).Success?
    ensures r.statusCode == 200 ==>
      r.headers == SuccessHeaders &&
      r.body == BusList(Normalize(decode(fetch.body.value).value))
    ensures r.statusCode != 200 ==> r == FailureResponse
  {
    match Acquire(fetch, decode)
    case Failure(e) => Respond(Failure(e))
    case Success(feed) => Respond(Success(Normalize(feed)))
  }

  /** The error kinds collapse into one user-visible response. */
  lemma ErrorsCollapse(e1: HandlerError, e2: HandlerError)
    ensures Respond(Failure(e1)) == Respond(Failure(e2))
    ensures Respond(Failure(e1)).body.ErrorObject? && Respond(Failure(e1)).statusCode == 500
  {
  }

  /** A non-OK upstream status (503, say) gives the failure response whatever
      the body holds and whatever the decoder would do with it. */
  lemma UpstreamStatusFails(status: nat, body: Option<seq<bv8>>,
                            decode: seq<bv8> -> Result<FeedMessage, DecodeError>)
    requires !IsOkStatus(status)
    ensures Handle(Responded(status, body), decode) == FailureResponse
  {
  }

  /** Bytes the decoder rejects give the failure response, never a partial
      bus list. */
  lemma DecodeFailureFails(status: nat, bytes: seq<bv8>,
                           decode: seq<bv8> -> Result<FeedMessage, DecodeError>)
    requires decode(bytes).Failure?
    ensures Handle(Responded(status, Some(bytes)), decode) == FailureResponse
    ensures !Handle(Responded(status, Some(bytes)), decode).body.BusList?
  {
  }

  /** On success the body holds one record per vehicle entity of the decoded
      feed, in feed order. */
  lemma SuccessCarriesEveryVehicle(status: nat, bytes: seq<bv8>,
                                   decode: seq<bv8> -> Result<FeedMessage, DecodeError>)
    requires IsOkStatus(status) && decode(bytes).Success?
    ensures var r := Handle(Responded(status, Some(bytes)), decode);
      r.statusCode == 200 && r.body.BusList? &&
      |r.body.buses| == VehicleCount(decode(bytes).value.entity)
  {
    NormalizeCount(decode(bytes).value.entity);
  }
}
