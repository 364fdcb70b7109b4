/** CrptApi: the authenticated, rate-limited client of the "create document"
    method, with its token handshake and its one-shot retry on 401.

    The collaborators the client is given are kept abstract:
    - the transport is `server`, the answer to a request sent as event number
      `n` of the client's trace (so a scripted sequence of answers, or one that
      depends on the request, are both instances);
    - Jackson is `json`, encoders and decoders that may fail;
    - the signer is `sign`, which returns the signed string or the message of
      the exception it throws;
    - the token cache is the map `cache`, with get-or-compute (GetToken) and
      delete (Delete).
    The clock reading taken when the per-call rate limiter is built is `now`. */
module Crpt {

  import opened Wrappers
  import opened Errors
  import opened Http
  import opened Documents
  import opened TimeUnits
  import RateLimiter
  import TB = TokenBucket

  /** The single key under which the bearer token is cached. */
  const TokenKey: string := "token"

  const CertKeyPath: string := "/api/v3/auth/cert/key"
  const CertPath: string := "/api/v3/auth/cert"
  const CreateDocumentPath: string := "/api/v3/lk/documents/create"

  /** CertKeyPayload: the challenge of the handshake, and its signed form. */
  datatype CertKey = CertKey(uuid: string, data: string)

  /** The JSON mapping the client relies on; every direction may fail, and a
      decoder that succeeds yields a value, never Jackson's null. */
  datatype Json = Json(
    decodeCertKey: string -> Option<CertKey>,
    encodeCertKey: CertKey -> Option<string>,
    decodeToken: string -> Option<string>,
    encodePayload: MethodPayload -> Option<string>,
    decodeDocumentId: string -> Option<DocumentId>)

  /** CryptoSign.sign: the signed string, or the message of what it threw. */
  type Signer = string -> Result<string, string>

  /** Lifts the client's exception into the faults of a call. */
  function Lift<T>(r: Result<T, CrptApiException>): (l: Result<T, Fault>)
    ensures l.Ok? <==> r.Ok?
    ensures l.Ok? ==> l.value == r.value
    ensures l.Err? ==> l.error == Api(r.error)
  {
    match r
    case Ok(v) => Ok(v)
    case Err(e) => Err(Api(e))
  }

  function CertKeyRequest(): Request { Request(Get, CertKeyPath, None, None) }

  function TokenRequest(body: string): Request { Request(Post, CertPath, None, Some(body)) }

  /** makeApiPostRequest(url, payload) once the token is known. */
  function ApiPostRequest(url: string, token: string, payload: string): Request {
    Request(Post, url, Some(token), Some(payload))
  }

  /** The middle step of the handshake: the challenge's data is replaced by
      its signature and its uuid is kept; a signer fault propagates as it is. */
  function SignChallenge(challenge: CertKey, sign: Signer): (r: Result<CertKey, Fault>)
    ensures r.Ok? <==> sign(challenge.data).Ok?
    ensures r.Ok? ==> r.value.uuid == challenge.uuid && sign(challenge.data) == Ok(r.value.data)
    ensures r.Err? ==> r.error == Foreign(sign(challenge.data).error)
  {
    match sign(challenge.data)
    case Ok(signed) => Ok(challenge.(data := signed))
    case Err(message) => Err(Foreign(message))
  }

  /** Whether the authenticated sends of one call reached a final answer: the
      first answer was not a 401, or the one resend has been made. */
  predicate Settled(calls: seq<Event>)
    requires forall i :: 0 <= i < |calls| ==> calls[i].Sent?
  {
    |calls| == 2 || (|calls| == 1 && !IsUnauthorized(calls[0].outcome))
  }

  /** What one step of the client does, on values: its result, the events it
      appends to the trace, and the token cache it leaves behind. */
  datatype Effect<T> = Effect(result: Result<T, Fault>, events: seq<Event>, cache: map<string, string>)


  class CrptApi {
    /** appConfig.timeUnit.toMillis(1). */
    const periodMillis: int
    const sign: Signer
    const json: Json
    const server: (Request, nat) -> Outcome
    var cache: map<string, string>
    var trace: seq<Event>

    /** Events recorded from trace position `n` on: every send carries the
        transport's answer to that request at its own position. */
    ghost predicate Recorded(events: seq<Event>, n: nat) {
      forall i :: 0 <= i < |events| && events[i].Sent? ==> events[i].outcome == server(events[i].request, n + i)
    }

    /** The client works with time units of a millisecond or more, and its
        trace records what the transport answered. */
    ghost predicate Valid()
      reads this
    {
      1 <= periodMillis <= LongMax && Recorded(trace, 0)
    }

    lemma RecordedAppend(a: seq<Event>, b: seq<Event>, n: nat)
      requires Recorded(a, n) && Recorded(b, n + |a|)
      ensures Recorded(a + b, n)
    {
      forall i | 0 <= i < |a + b| && (a + b)[i].Sent?
        ensures (a + b)[i].outcome == server((a + b)[i].request, n + i)
      {
        if i >= |a| {
          assert (a + b)[i] == b[i - |a|];
        }
      }
    }

    // -------------------------------------------------------------------
    // The client's steps on values, from a cache and a trace position

    /** The handshake the cache's loader runs when the trace holds `n` events:
        fetch the challenge, sign its data, exchange the signed challenge for
        a token. Each step's failure ends it with that step's fault. */
    function Handshake(n: nat): (h: (Result<string, Fault>, seq<Event>))
      ensures 1 <= |h.1| <= 2
    {
      var first := Sent(CertKeyRequest(), server(CertKeyRequest(), n));
      var challenge := ReadResponse(first.outcome, json.decodeCertKey, IoError);
      if challenge.Err? then (Err(Api(challenge.error)), [first])
      else
        var signed := SignChallenge(challenge.value, sign);
        if signed.Err? then (Err(signed.error), [first])
        else match json.encodeCertKey(signed.value)
          case None => (Err(Api(WithCause(IoError))), [first])
          case Some(body) =>
            var request := TokenRequest(body);
            (Lift(ReadResponse(server(request, n + 1), json.decodeToken, IoError)),
             [first, Sent(request, server(request, n + 1))])
    }

    /** getToken() on cache `c` when the trace holds `n` events. */
    function TokenLookup(c: map<string, string>, n: nat): (e: Effect<string>)
      ensures TokenKey in c ==> e.events == []
    {
      if TokenKey in c then Effect(Ok(c[TokenKey]), [], c)
      else
        var (r, events) := Handshake(n);
        Effect(r, events, if r.Ok? then c[TokenKey := r.value] else c)
    }

    /** makeApiPostRequest(url, body) and its send: the token is looked up,
        then the POST carrying it is sent. */
    function AuthenticatedSend(c: map<string, string>, n: nat, url: string, body: string): (e: Effect<Event>)
      ensures e.result.Ok? ==> e.result.value.Sent?
    {
      var t := TokenLookup(c, n);
      if t.result.Err? then Effect(Err(t.result.error), t.events, t.cache)
      else
        var request := ApiPostRequest(url, t.result.value, body);
        var sent := Sent(request, server(request, n + |t.events|));
        Effect(Ok(sent), t.events + [sent], t.cache)
    }

    /** The send-and-retry core of callPostApi for an encoded body: on a 401
        the token is invalidated and the request, rebuilt with a token looked
        up afresh, is sent exactly once more. */
    function RefreshingSend(c: map<string, string>, n: nat, url: string, body: string): (e: Effect<Outcome>)
      ensures e.result.Ok? ==> AuthenticatedSend(c, n, url, body).result.Ok?
    {
      var first := AuthenticatedSend(c, n, url, body);
      if first.result.Err? then Effect(Err(first.result.error), first.events, first.cache)
      else if !IsUnauthorized(first.result.value.outcome) then
        Effect(Ok(first.result.value.outcome), first.events, first.cache)
      else
        var second := AuthenticatedSend(first.cache - {TokenKey}, n + |first.events| + 1, url, body);
        Effect(if second.result.Err? then Err(second.result.error) else Ok(second.result.value.outcome),
               first.events + [Invalidated(TokenKey)] + second.events, second.cache)
    }

    /** callPostApi(url, payload) once its permit is granted: a payload that
        cannot be encoded is a FORMAT_ERROR with nothing sent; otherwise the
        last answer is read, an undecodable body being a FORMAT_ERROR. */
    function PostCall<D, R>(c: map<string, string>, n: nat, url: string, payload: D,
                            encode: D -> Option<string>, decode: string -> Option<R>): (e: Effect<R>)
      ensures encode(payload).None? ==> e.events == [] && e.cache == c
    {
      match encode(payload)
      case None => Effect(Err(Api(WithCause(FormatError))), [], c)
      case Some(body) =>
        var s := RefreshingSend(c, n, url, body);
        Effect(if s.result.Err? then Err(s.result.error) else Lift(ReadResponse(s.result.value, decode, FormatError)),
               s.events, s.cache)
    }

    // -------------------------------------------------------------------
    // Properties of the handshake, the token lookup and the retry

    /** The handshake's exchanges carry no token, start with the challenge
        GET, and got the transport's answers at their positions. */
    lemma HandshakeExchanges(n: nat)
      ensures var h := Handshake(n);
              Unauthenticated(h.1) && Recorded(h.1, n) && h.1[0].request == CertKeyRequest()
    {
    }

    /** Each step's failure ends the handshake with that step's fault, a
        signer exception passing through unchanged; the token exchange posts
        the encoded signed challenge, and its answer, read, is the result. */
    lemma HandshakeSteps(n: nat)
      ensures var h := Handshake(n);
              && (h.0.Err? ==> WellFormedFault(h.0.error))
              && var challenge := ReadResponse(h.1[0].outcome, json.decodeCertKey, IoError);
              && (challenge.Err? ==> h.0 == Err(Api(challenge.error)) && |h.1| == 1)
              && (challenge.Ok? && sign(challenge.value.data).Err? ==>
                    h.0 == Err(Foreign(sign(challenge.value.data).error)) && |h.1| == 1)
              && (challenge.Ok? && sign(challenge.value.data).Ok? ==>
                    var signed := CertKey(challenge.value.uuid, sign(challenge.value.data).value);
                    && (json.encodeCertKey(signed).None? ==> h.0 == Err(Api(WithCause(IoError))) && |h.1| == 1)
                    && (json.encodeCertKey(signed).Some? ==>
                          && |h.1| == 2
                          && h.1[1].request == TokenRequest(json.encodeCertKey(signed).value)
                          && h.0 == Lift(ReadResponse(h.1[1].outcome, json.decodeToken, IoError))))
    {
    }

    /** A cached token is returned with no exchange and no change; on a miss
        the handshake runs, its token or fault is the result, and only its
        token is stored. */
    lemma TokenLookupResult(c: map<string, string>, n: nat)
      ensures var e := TokenLookup(c, n);
              && (TokenKey in c ==> e.result == Ok(c[TokenKey]) && e.cache == c)
              && (TokenKey !in c ==> e.result == Handshake(n).0 && e.events == Handshake(n).1)
              && (e.result.Ok? ==> e.cache == c[TokenKey := e.result.value])
              && (e.result.Err? ==> e.cache == c && WellFormedFault(e.result.error))
    {
      if TokenKey in c {
        assert c[TokenKey := c[TokenKey]] == c;
      } else {
        HandshakeSteps(n);
      }
    }

    /** Nothing the token lookup sends carries a bearer token, and every
        exchange got the transport's answer at its position. */
    lemma TokenLookupExchanges(c: map<string, string>, n: nat)
      ensures Unauthenticated(TokenLookup(c, n).events) && Recorded(TokenLookup(c, n).events, n)
    {
      if TokenKey !in c {
        HandshakeExchanges(n);
      }
    }

    /** The one authenticated send is the POST of the body to the URL with the
        token the cache now holds, answered by the transport at its position;
        it follows the handshake when the cache had no token. When no token
        can be obtained, the handshake's fault is the result. No cache entry
        but the token changes. */
    lemma AuthenticatedSendResult(c: map<string, string>, n: nat, url: string, body: string)
      ensures var e := AuthenticatedSend(c, n, url, body);
              && e.cache - {TokenKey} == c - {TokenKey}
              && (e.result.Err? ==>
                    && TokenKey !in c && e.cache == c
                    && Handshake(n).0 == Err(e.result.error) && e.events == Handshake(n).1
                    && WellFormedFault(e.result.error))
              && (e.result.Ok? ==>
                    && TokenKey in e.cache
                    && e.result.value == Sent(ApiPostRequest(url, e.cache[TokenKey], body),
                                              server(ApiPostRequest(url, e.cache[TokenKey], body), n + |e.events| - 1))
                    && (TokenKey in c ==> e.events == [e.result.value] && e.cache == c)
                    && (TokenKey !in c ==> Handshake(n).0 == Ok(e.cache[TokenKey]) && e.events == Handshake(n).1 + [e.result.value]))
    {
      TokenLookupResult(c, n);
    }

    /** Every exchange of an authenticated send got the transport's answer
        at its position. */
    lemma AuthenticatedSendRecorded(c: map<string, string>, n: nat, url: string, body: string)
      ensures Recorded(AuthenticatedSend(c, n, url, body).events, n)
    {
      var t := TokenLookup(c, n);
      TokenLookupExchanges(c, n);
      if t.result.Ok? {
        var request := ApiPostRequest(url, t.result.value, body);
        RecordedAppend(t.events, [Sent(request, server(request, n + |t.events|))], n);
      }
    }

    /** The POST is the only exchange of an authenticated send that carries a
        token. */
    lemma AuthenticatedSendOnlyPost(c: map<string, string>, n: nat, url: string, body: string)
      ensures var e := AuthenticatedSend(c, n, url, body);
              AuthenticatedSends(e.events) == (if e.result.Ok? then [e.result.value] else [])
    {
      var t := TokenLookup(c, n);
      TokenLookupExchanges(c, n);
      UnauthenticatedHasNoAuthenticatedSends(t.events);
      if t.result.Ok? {
        var request := ApiPostRequest(url, t.result.value, body);
        var sent := Sent(request, server(request, n + |t.events|));
        AuthenticatedSendsAppend(t.events, [sent]);
        assert AuthenticatedSends([sent]) == [sent];
      }
    }

    /** Three recorded stretches, the middle one an invalidation, make one. */
    lemma RecordedAround(a: seq<Event>, b: seq<Event>, key: string, n: nat)
      requires Recorded(a, n) && Recorded(b, n + |a| + 1)
      ensures Recorded(a + [Invalidated(key)] + b, n)
    {
      RecordedAppend(a, [Invalidated(key)], n);
      RecordedAppend(a + [Invalidated(key)], b, n);
    }

    /** After a 401, the retry's exchanges are the first send's, the
        invalidation, and the second send's, made on the emptied cache. */
    lemma RetryEvents(c: map<string, string>, n: nat, url: string, body: string)
      requires AuthenticatedSend(c, n, url, body).result.Ok?
      requires IsUnauthorized(AuthenticatedSend(c, n, url, body).result.value.outcome)
      ensures var first := AuthenticatedSend(c, n, url, body);
              var second := AuthenticatedSend(first.cache - {TokenKey}, n + |first.events| + 1, url, body);
              RefreshingSend(c, n, url, body).events == first.events + [Invalidated(TokenKey)] + second.events
    {
    }

    /** After a 401, the retry's answer and cache are the second send's. */
    lemma RetryOutcome(c: map<string, string>, n: nat, url: string, body: string)
      requires AuthenticatedSend(c, n, url, body).result.Ok?
      requires IsUnauthorized(AuthenticatedSend(c, n, url, body).result.value.outcome)
      ensures var first := AuthenticatedSend(c, n, url, body);
              var second := AuthenticatedSend(first.cache - {TokenKey}, n + |first.events| + 1, url, body);
              var e := RefreshingSend(c, n, url, body);
              && e.cache == second.cache
              && (second.result.Err? ==> e.result == Err(second.result.error))
              && (second.result.Ok? ==> e.result == Ok(second.result.value.outcome))
    {
    }

    /** After a 401, the authenticated sends of the retry are the first send
        and, when a token was obtained again, the second. */
    lemma RetrySends(c: map<string, string>, n: nat, url: string, body: string)
      requires AuthenticatedSend(c, n, url, body).result.Ok?
      requires IsUnauthorized(AuthenticatedSend(c, n, url, body).result.value.outcome)
      ensures var first := AuthenticatedSend(c, n, url, body);
              var second := AuthenticatedSend(first.cache - {TokenKey}, n + |first.events| + 1, url, body);
              AuthenticatedSends(RefreshingSend(c, n, url, body).events) ==
                [first.result.value] + (if second.result.Ok? then [second.result.value] else [])
    {
      var first := AuthenticatedSend(c, n, url, body);
      var m := n + |first.events| + 1;
      var second := AuthenticatedSend(first.cache - {TokenKey}, m, url, body);
      AuthenticatedSendOnlyPost(c, n, url, body);
      assert AuthenticatedSends(first.events) == [first.result.value];
      AuthenticatedSendOnlyPost(first.cache - {TokenKey}, m, url, body);
      RetryEvents(c, n, url, body);
      var events := RefreshingSend(c, n, url, body).events;
      assert events == first.events + [Invalidated(TokenKey)] + second.events;
      SendsAroundInvalidation(first.events, second.events, TokenKey);
      assert AuthenticatedSends(events) == AuthenticatedSends(first.events) + AuthenticatedSends(second.events);
    }

    lemma RetryRecorded(c: map<string, string>, n: nat, url: string, body: string)
      requires AuthenticatedSend(c, n, url, body).result.Ok?
      requires IsUnauthorized(AuthenticatedSend(c, n, url, body).result.value.outcome)
      ensures Recorded(RefreshingSend(c, n, url, body).events, n)
    {
      var first := AuthenticatedSend(c, n, url, body);
      var m := n + |first.events| + 1;
      AuthenticatedSendRecorded(c, n, url, body);
      AuthenticatedSendRecorded(first.cache - {TokenKey}, m, url, body);
      RetryEvents(c, n, url, body);
      RecordedAround(first.events, AuthenticatedSend(first.cache - {TokenKey}, m, url, body).events, TokenKey, n);
    }

    /** Every exchange of the retry got the transport's answer at its
        position. */
    lemma RefreshingSendRecorded(c: map<string, string>, n: nat, url: string, body: string)
      ensures Recorded(RefreshingSend(c, n, url, body).events, n)
    {
      var first := AuthenticatedSend(c, n, url, body);
      if first.result.Ok? && IsUnauthorized(first.result.value.outcome) {
        RetryRecorded(c, n, url, body);
      } else {
        AuthenticatedSendRecorded(c, n, url, body);
      }
    }

    /** The retry changes no cache entry but the token, and its faults are
        well formed. */
    lemma RefreshingSendCache(c: map<string, string>, n: nat, url: string, body: string)
      ensures var e := RefreshingSend(c, n, url, body);
              && e.cache - {TokenKey} == c - {TokenKey}
              && (e.result.Err? ==> WellFormedFault(e.result.error))
    {
      var first := AuthenticatedSend(c, n, url, body);
      AuthenticatedSendResult(c, n, url, body);
      if first.result.Ok? && IsUnauthorized(first.result.value.outcome) {
        var m := n + |first.events| + 1;
        AuthenticatedSendResult(first.cache - {TokenKey}, m, url, body);
        assert (first.cache - {TokenKey}) - {TokenKey} == c - {TokenKey};
      }
    }

    /** At most two authenticated sends, both of the same request up to the
        token; a second one only after a 401; the first uses the token that
        was cached; an answer exactly when the sends settled, and it is the
        last send's, made with the token the cache now holds. */
    lemma RefreshSends(c: map<string, string>, n: nat, url: string, body: string)
      ensures var e := RefreshingSend(c, n, url, body);
              var calls := AuthenticatedSends(e.events);
              && |calls| <= 2
              && (|calls| == 0 <==> AuthenticatedSend(c, n, url, body).result.Err?)
              && (forall i :: 0 <= i < |calls| ==> calls[i].request == ApiPostRequest(url, calls[i].request.bearer.value, body))
              && (|calls| == 2 ==> IsUnauthorized(calls[0].outcome))
              && (|calls| >= 1 && TokenKey in c ==> calls[0].request.bearer == Some(c[TokenKey]))
              && (e.result.Ok? <==> Settled(calls))
              && (e.result.Ok? ==>
                    && e.result.value == calls[|calls| - 1].outcome
                    && TokenKey in e.cache && calls[|calls| - 1].request.bearer == Some(e.cache[TokenKey]))
    {
      var first := AuthenticatedSend(c, n, url, body);
      if first.result.Ok? && IsUnauthorized(first.result.value.outcome) {
        RetryCallShapes(c, n, url, body);
        RetryAnswer(c, n, url, body);
      } else {
        AuthenticatedSendResult(c, n, url, body);
        AuthenticatedSendOnlyPost(c, n, url, body);
      }
    }

    /** After a 401, one or two authenticated sends of the same request up
        to the token, the first with the token that was cached, the second
        only because the first was a 401. */
    lemma RetryCallShapes(c: map<string, string>, n: nat, url: string, body: string)
      requires AuthenticatedSend(c, n, url, body).result.Ok?
      requires IsUnauthorized(AuthenticatedSend(c, n, url, body).result.value.outcome)
      ensures var calls := AuthenticatedSends(RefreshingSend(c, n, url, body).events);
              && 1 <= |calls| <= 2
              && (forall i :: 0 <= i < |calls| ==> calls[i].request == ApiPostRequest(url, calls[i].request.bearer.value, body))
              && IsUnauthorized(calls[0].outcome)
              && (TokenKey in c ==> calls[0].request.bearer == Some(c[TokenKey]))
    {
      var first := AuthenticatedSend(c, n, url, body);
      AuthenticatedSendResult(c, n, url, body);
      AuthenticatedSendResult(first.cache - {TokenKey}, n + |first.events| + 1, url, body);
      RetrySends(c, n, url, body);
    }

    /** After a 401, an answer exactly when the resend was made, and it is the
        resend's, made with the token the cache now holds. */
    lemma RetryAnswer(c: map<string, string>, n: nat, url: string, body: string)
      requires AuthenticatedSend(c, n, url, body).result.Ok?
      requires IsUnauthorized(AuthenticatedSend(c, n, url, body).result.value.outcome)
      ensures var e := RefreshingSend(c, n, url, body);
              var calls := AuthenticatedSends(e.events);
              && (e.result.Ok? <==> |calls| == 2)
              && (e.result.Ok? ==>
                    && e.result.value == calls[1].outcome
                    && TokenKey in e.cache && calls[1].request.bearer == Some(e.cache[TokenKey]))
    {
      var first := AuthenticatedSend(c, n, url, body);
      AuthenticatedSendResult(first.cache - {TokenKey}, n + |first.events| + 1, url, body);
      RetryOutcome(c, n, url, body);
      RetrySends(c, n, url, body);
    }

    /** After a 401 the token is invalidated first, then a new handshake runs
        on the emptied cache, and the resend carries the token it returned;
        if that handshake fails, its fault is the answer and no token stays
        cached. */
    lemma RefreshAfterUnauthorized(c: map<string, string>, n: nat, url: string, body: string)
      requires AuthenticatedSend(c, n, url, body).result.Ok?
      requires IsUnauthorized(AuthenticatedSend(c, n, url, body).result.value.outcome)
      ensures var first := AuthenticatedSend(c, n, url, body);
              var m := n + |first.events| + 1;
              var h := Handshake(m);
              var e := RefreshingSend(c, n, url, body);
              && (h.0.Err? ==>
                    && e.events == first.events + [Invalidated(TokenKey)] + h.1
                    && e.result == Err(h.0.error)
                    && e.cache == c - {TokenKey})
              && (h.0.Ok? ==>
                    var resend := ApiPostRequest(url, h.0.value, body);
                    && e.events == first.events + [Invalidated(TokenKey)] + h.1 + [Sent(resend, server(resend, m + |h.1|))]
                    && e.result == Ok(server(resend, m + |h.1|))
                    && e.cache == c[TokenKey := h.0.value])
    {
      var first := AuthenticatedSend(c, n, url, body);
      AuthenticatedSendResult(c, n, url, body);
      var emptied := first.cache - {TokenKey};
      AuthenticatedSendResult(emptied, n + |first.events| + 1, url, body);
      RetryEvents(c, n, url, body);
      RetryOutcome(c, n, url, body);
      assert emptied == c - {TokenKey};
      var h := Handshake(n + |first.events| + 1);
      if h.0.Ok? {
        assert emptied[TokenKey := h.0.value] == c[TokenKey := h.0.value];
      }
    }

    /** A retry that gets no answer fails with the fault of the handshake
        that could not produce a token: the first one when no send was made,
        the one right after the invalidation when the resend was not made. */
    lemma RefreshFault(c: map<string, string>, n: nat, url: string, body: string)
      ensures var e := RefreshingSend(c, n, url, body);
              var calls := AuthenticatedSends(e.events);
              && (|calls| == 0 ==>
                    e.result.Err? && TokenKey !in c && Handshake(n).0 == Err(e.result.error) && e.events == Handshake(n).1)
              && (|calls| == 1 && IsUnauthorized(calls[0].outcome) ==>
                    e.result.Err? &&
                    exists k :: 0 <= k < |e.events| && e.events[k] == Invalidated(TokenKey)
                                && Handshake(n + k + 1).0 == Err(e.result.error) && e.events[k + 1..] == Handshake(n + k + 1).1)
    {
      RefreshSends(c, n, url, body);
      var first := AuthenticatedSend(c, n, url, body);
      if first.result.Ok? && IsUnauthorized(first.result.value.outcome) {
        RetryFault(c, n, url, body);
      } else {
        AuthenticatedSendResult(c, n, url, body);
      }
    }

    lemma RetryFault(c: map<string, string>, n: nat, url: string, body: string)
      requires AuthenticatedSend(c, n, url, body).result.Ok?
      requires IsUnauthorized(AuthenticatedSend(c, n, url, body).result.value.outcome)
      ensures var e := RefreshingSend(c, n, url, body);
              e.result.Err? ==>
                exists k :: 0 <= k < |e.events| && e.events[k] == Invalidated(TokenKey)
                            && Handshake(n + k + 1).0 == Err(e.result.error) && e.events[k + 1..] == Handshake(n + k + 1).1
    {
      var first := AuthenticatedSend(c, n, url, body);
      var k := |first.events|;
      var e := RefreshingSend(c, n, url, body);
      RefreshAfterUnauthorized(c, n, url, body);
      if e.result.Err? {
        assert e.events[k] == Invalidated(TokenKey);
        assert e.events[k + 1..] == Handshake(n + k + 1).1;
      }
    }

    /** The answer of callPostApi: a payload that cannot be encoded is a
        FORMAT_ERROR with nothing sent; once the sends settle the result is
        the last answer read, so a status of 300 or more is a status error
        carrying it and an undecodable body a FORMAT_ERROR. */
    lemma PostCallAnswer<D, R>(c: map<string, string>, n: nat, url: string, payload: D,
                               encode: D -> Option<string>, decode: string -> Option<R>)
      ensures var e := PostCall(c, n, url, payload, encode, decode);
              var calls := AuthenticatedSends(e.events);
              && (encode(payload).None? ==> e == Effect(Err(Api(WithCause(FormatError))), [], c))
              && |calls| <= 2
              && (forall i :: 0 <= i < |calls| ==>
                    calls[i].request == ApiPostRequest(url, calls[i].request.bearer.value, encode(payload).value))
              && (e.result.Ok? ==> Settled(calls))
              && (Settled(calls) ==> e.result == Lift(ReadResponse(calls[|calls| - 1].outcome, decode, FormatError)))
    {
      if encode(payload).Some? {
        var body := encode(payload).value;
        var s := RefreshingSend(c, n, url, body);
        RefreshSends(c, n, url, body);
        PostCallSends(c, n, url, payload, encode, decode);
        assert AuthenticatedSends(PostCall(c, n, url, payload, encode, decode).events) == AuthenticatedSends(s.events);
      }
    }

    /** With an encoded payload, callPostApi makes the retry's exchanges and
        reads its answer. */
    lemma PostCallSends<D, R>(c: map<string, string>, n: nat, url: string, payload: D,
                              encode: D -> Option<string>, decode: string -> Option<R>)
      requires encode(payload).Some?
      ensures var e := PostCall(c, n, url, payload, encode, decode);
              var s := RefreshingSend(c, n, url, encode(payload).value);
              && e.events == s.events && e.cache == s.cache
              && (s.result.Err? ==> e.result == Err(s.result.error))
              && (s.result.Ok? ==> e.result == Lift(ReadResponse(s.result.value, decode, FormatError)))
    {
    }

    /** A call to callPostApi that never settles fails with the fault of the
        handshake that could not produce a token. */
    lemma PostCallFault<D, R>(c: map<string, string>, n: nat, url: string, payload: D,
                              encode: D -> Option<string>, decode: string -> Option<R>)
      requires encode(payload).Some?
      ensures var e := PostCall(c, n, url, payload, encode, decode);
              var calls := AuthenticatedSends(e.events);
              && (|calls| == 0 ==>
                    e.result.Err? && TokenKey !in c && Handshake(n).0 == Err(e.result.error) && e.events == Handshake(n).1)
              && (|calls| == 1 && IsUnauthorized(calls[0].outcome) ==>
                    e.result.Err? &&
                    exists k :: 0 <= k < |e.events| && e.events[k] == Invalidated(TokenKey)
                                && Handshake(n + k + 1).0 == Err(e.result.error) && e.events[k + 1..] == Handshake(n + k + 1).1)
    {
      RefreshFault(c, n, url, encode(payload).value);
    }

    /** createDocumentOfRussianProduct: every authenticated send posts the
        encoded payload to the create method; success is a settled answer
        below 300 whose body decodes to the returned id; a settled answer of
        300 or more is a status error carrying it. */
    lemma CreateDocumentSends(document: DocumentRussianProductIntroduction, signature: string,
                              c: map<string, string>, n: nat)
      ensures var e := PostCall(c, n, CreateDocumentPath, PreparePayload(document, signature),
                                json.encodePayload, json.decodeDocumentId);
              var calls := AuthenticatedSends(e.events);
              && |calls| <= 2
              && (forall i :: 0 <= i < |calls| ==>
                    && calls[i].request.path == CreateDocumentPath
                    && calls[i].request.body == json.encodePayload(PreparePayload(document, signature)))
              && (e.result.Ok? ==>
                    && Settled(calls)
                    && var last := calls[|calls| - 1].outcome;
                    && last.Delivered? && !IsErrorStatus(last.response.status)
                    && json.decodeDocumentId(last.response.body) == Some(e.result.value))
              && (Settled(calls) && calls[|calls| - 1].outcome.Delivered?
                  && IsErrorStatus(calls[|calls| - 1].outcome.response.status) ==>
                    e.result == Err(Api(WithStatus(calls[|calls| - 1].outcome.response.status))))
    {
      PostCallAnswer(c, n, CreateDocumentPath, PreparePayload(document, signature),
                     json.encodePayload, json.decodeDocumentId);
    }

    // -------------------------------------------------------------------
    // The client

    constructor (timeUnit: TimeUnit, cache: map<string, string>, sign: Signer, json: Json,
                 server: (Request, nat) -> Outcome)
      requires timeUnit.AtLeastMillis()
      ensures Valid() && periodMillis == ToMillis(1, timeUnit)
      ensures this.cache == cache && this.sign == sign && this.json == json && this.server == server
      ensures trace == []
    {
      this.periodMillis := ToMillis(1, timeUnit);
      this.cache := cache;
      this.sign := sign;
      this.json := json;
      this.server := server;
      this.trace := [];
    }

    /** httpClient.send: the transport answers and the exchange is recorded. */
    method Send(request: Request) returns (o: Outcome)
      requires Valid()
      modifies this`trace
      ensures Valid()
      ensures o == server(request, |old(trace)|)
      ensures trace == old(trace) + [Sent(request, o)]
    {
      o := server(request, |trace|);
      RecordedAppend(trace, [Sent(request, o)], 0);
      trace := trace + [Sent(request, o)];
    }

    /** fetchCertKey(), with the loader's catch applied: a status of 300 or
        more is a status error, and both a transport failure and an unreadable
        body (Jackson's exception is an IOException) become IO_ERROR. */
    method FetchCertKey() returns (r: Result<CertKey, CrptApiException>)
      requires Valid()
      modifies this`trace
      ensures Valid()
      ensures trace == old(trace) + [Sent(CertKeyRequest(), server(CertKeyRequest(), |old(trace)|))]
      ensures r == ReadResponse(server(CertKeyRequest(), |old(trace)|), json.decodeCertKey, IoError)
    {
      var o := Send(CertKeyRequest());
      r := ReadResponse(o, json.decodeCertKey, IoError);
    }

    /** fetchToken(cert), with the loader's catch applied as for FetchCertKey;
        a challenge that cannot be encoded fails before anything is sent. */
    method FetchToken(cert: CertKey) returns (r: Result<string, CrptApiException>)
      requires Valid()
      modifies this`trace
      ensures Valid()
      ensures json.encodeCertKey(cert).None? ==> r == Err(WithCause(IoError)) && trace == old(trace)
      ensures json.encodeCertKey(cert).Some? ==>
                var request := TokenRequest(json.encodeCertKey(cert).value);
                && trace == old(trace) + [Sent(request, server(request, |old(trace)|))]
                && r == ReadResponse(server(request, |old(trace)|), json.decodeToken, IoError)
    {
      var body := json.encodeCertKey(cert);
      if body.None? {
        return Err(WithCause(IoError));
      }
      var o := Send(TokenRequest(body.value));
      r := ReadResponse(o, json.decodeToken, IoError);
    }

    /** The loader getToken() hands to the cache. */
    method LoadToken() returns (r: Result<string, Fault>)
      requires Valid()
      modifies this`trace
      ensures Valid()
      ensures r == Handshake(|old(trace)|).0 && trace == old(trace) + Handshake(|old(trace)|).1
    {
      var challenge := FetchCertKey();
      if challenge.Err? {
        return Err(Api(challenge.error));
      }
      var signed := SignChallenge(challenge.value, sign);
      if signed.Err? {
        return Err(signed.error);
      }
      var token := FetchToken(signed.value);
      r := Lift(token);
    }

    /** getToken(): cache.get("token", loader). */
    method GetToken() returns (r: Result<string, Fault>)
      requires Valid()
      modifies this
      ensures Valid()
      ensures var e := TokenLookup(old(cache), |old(trace)|);
              r == e.result && trace == old(trace) + e.events && cache == e.cache
    {
      if TokenKey in cache {
        return Ok(cache[TokenKey]);
      }
      r := LoadToken();
      if r.Ok? {
        cache := cache[TokenKey := r.value];
      }
    }

    /** cache.delete(key). */
    method Delete(key: string)
      requires Valid()
      modifies this`cache, this`trace
      ensures Valid()
      ensures cache == old(cache) - {key}
      ensures trace == old(trace) + [Invalidated(key)]
    {
      RecordedAppend(trace, [Invalidated(key)], 0);
      cache := cache - {key};
      trace := trace + [Invalidated(key)];
    }

    /** makeApiPostRequest(url, body) followed by httpClient.send. */
    method SendAuthenticated(url: string, body: string) returns (sent: Result<Event, Fault>)
      requires Valid()
      modifies this
      ensures Valid()
      ensures var e := AuthenticatedSend(old(cache), |old(trace)|, url, body);
              sent == e.result && trace == old(trace) + e.events && cache == e.cache
    {
      var token := GetToken();
      if token.Err? {
        return Err(token.error);
      }
      var request := ApiPostRequest(url, token.value, body);
      var response := Send(request);
      sent := Ok(Sent(request, response));
    }

    /** The send-and-retry core of callPostApi for an encoded body. */
    method SendWithTokenRefresh(url: string, body: string) returns (last: Result<Outcome, Fault>)
      requires Valid()
      modifies this
      ensures Valid()
      ensures var e := RefreshingSend(old(cache), |old(trace)|, url, body);
              last == e.result && trace == old(trace) + e.events && cache == e.cache
    {
      var first := SendAuthenticated(url, body);
      if first.Err? {
        return Err(first.error);
      }
      var response := first.value.outcome;
      if !IsUnauthorized(response) {
        return Ok(response);
      }
      Delete(TokenKey);
      var second := SendAuthenticated(url, body);
      if second.Err? {
        return Err(second.error);
      }
      last := Ok(second.value.outcome);
    }

    /** callPostApi(url, payload): take a permit from a limiter built for this
        call, encode the payload, send with one token refresh on 401, and read
        the last answer. */
    method CallPostApi<D, R>(url: string, payload: D, encode: D -> Option<string>,
                             decode: string -> Option<R>, now: int) returns (r: Result<R, Fault>)
      requires Valid()
      modifies this
      ensures Valid()
      ensures var e := PostCall(old(cache), |old(trace)|, url, payload, encode, decode);
              r == e.result && trace == old(trace) + e.events && cache == e.cache
    {
      var limiter := new RateLimiter.BlockingTokenBucketRateLimiter(10, 10, periodMillis, Seconds, now);
      TB.FreshBucketAdmits(limiter.Limits(), now, 1, now);
      var admitted, _ := limiter.Acquire(1, [now]);
      assert admitted;

      var body := encode(payload);
      if body.None? {
        return Err(Api(WithCause(FormatError)));
      }
      var last := SendWithTokenRefresh(url, body.value);
      if last.Err? {
        return Err(last.error);
      }
      r := Lift(ReadResponse(last.value, decode, FormatError));
    }

    /** createDocumentOfRussianProduct(document, signature): the payload built
        by preparePayload, posted to the create method, its answer decoded as
        a DocumentId. */
    method CreateDocumentOfRussianProduct(document: DocumentRussianProductIntroduction, signature: string, now: int)
      returns (r: Result<DocumentId, Fault>)
      requires Valid()
      modifies this
      ensures Valid()
      ensures var e := PostCall(old(cache), |old(trace)|, CreateDocumentPath, PreparePayload(document, signature),
                                json.encodePayload, json.decodeDocumentId);
              r == e.result && trace == old(trace) + e.events && cache == e.cache
    {
      var payload := PreparePayload(document, signature);
      r := CallPostApi(CreateDocumentPath, payload, json.encodePayload, json.decodeDocumentId, now);
    }
  }
}
