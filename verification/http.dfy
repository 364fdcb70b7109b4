/** The HTTP exchanges of the client, kept abstract: a request names its
    method, path, bearer token and body; the transport either delivers a
    response (status and body) or fails with an IOException. JSON encoding
    and decoding are functions that may fail. */
module Http {

  import opened Wrappers
  import opened Errors

  datatype HttpMethod = Get | Post

  datatype Request = Request(verb: HttpMethod, path: string, bearer: Option<string>, body: Option<string>)

  datatype Response = Response(status: int, body: string)

  /** What HttpClient.send gives back: a response, or an IOException. */
  datatype Outcome = Delivered(response: Response) | IoFault

  /** What the client does that can be observed from outside: the requests it
      sends with the answer each got, and the cache entries it invalidates. */
  datatype Event = Sent(request: Request, outcome: Outcome) | Invalidated(key: string)

  predicate IsUnauthorized(o: Outcome) { o.Delivered? && o.response.status == 401 }

  /** A request that carries an `Authorization: Bearer` header. */
  predicate IsAuthenticatedSend(e: Event) { e.Sent? && e.request.bearer.Some? }

  /** The authenticated sends of a trace, in order. */
  function AuthenticatedSends(t: seq<Event>): (r: seq<Event>)
    ensures |r| <= |t|
    ensures forall i :: 0 <= i < |r| ==> IsAuthenticatedSend(r[i]) && r[i] in t
  {
    if t == [] then []
    else (if IsAuthenticatedSend(t[0]) then [t[0]] else []) + AuthenticatedSends(t[1..])
  }

  lemma {:induction false} AuthenticatedSendsAppend(a: seq<Event>, b: seq<Event>)
    ensures AuthenticatedSends(a + b) == AuthenticatedSends(a) + AuthenticatedSends(b)
  {
    if a == [] {
      assert a + b == b;
    } else {
      assert (a + b)[0] == a[0] && (a + b)[1..] == a[1..] + b;
      AuthenticatedSendsAppend(a[1..], b);
    }
  }

  /** An invalidation between two stretches adds no authenticated send. */
  lemma SendsAroundInvalidation(a: seq<Event>, b: seq<Event>, key: string)
    ensures AuthenticatedSends(a + [Invalidated(key)] + b) == AuthenticatedSends(a) + AuthenticatedSends(b)
  {
    AuthenticatedSendsAppend(a, [Invalidated(key)]);
    assert AuthenticatedSends([Invalidated(key)]) == [];
    AuthenticatedSendsAppend(a + [Invalidated(key)], b);
  }

  /** Every event of the trace is a send without a bearer token. */
  predicate Unauthenticated(t: seq<Event>) {
    forall i :: 0 <= i < |t| ==> t[i].Sent? && t[i].request.bearer.None?
  }

  lemma {:induction false} UnauthenticatedHasNoAuthenticatedSends(t: seq<Event>)
    requires Unauthenticated(t)
    ensures AuthenticatedSends(t) == []
  {
    if t != [] {
      assert forall i :: 0 <= i < |t[1..]| ==> t[1..][i] == t[i + 1];
      UnauthenticatedHasNoAuthenticatedSends(t[1..]);
    }
  }

  /** The shared tail of every exchange: a transport failure is an IO_ERROR, a
      status of 300 or more is a status error carrying that status, and
      otherwise the body is decoded, a decoding failure being reported with
      `badBody`. */
  function ReadResponse<R>(o: Outcome, decode: string -> Option<R>, badBody: ErrorCode): (r: Result<R, CrptApiException>)
    requires badBody != StatusCodeError
    ensures r.Ok? <==> o.Delivered? && !IsErrorStatus(o.response.status) && decode(o.response.body).Some?
    ensures r.Ok? ==> decode(o.response.body) == Some(r.value)
    ensures o.IoFault? ==> r == Err(WithCause(IoError))
    ensures o.Delivered? && IsErrorStatus(o.response.status) ==> r == Err(WithStatus(o.response.status))
    ensures o.Delivered? && !IsErrorStatus(o.response.status) && decode(o.response.body).None? ==>
              r == Err(WithCause(badBody))
    ensures r.Err? ==> WellFormed(r.error)
  {
    match o
    case IoFault => Err(WithCause(IoError))
    case Delivered(resp) =>
      if IsErrorStatus(resp.status) then Err(WithStatus(resp.status))
      else match decode(resp.body)
        case None => Err(WithCause(badBody))
        case Some(v) => Ok(v)
  }
}
