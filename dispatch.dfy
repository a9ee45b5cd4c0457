/**
 * The client's behaviour as functions of its inputs (client.go): the
 * credential cache, the authenticated JSON dispatcher and the multipart
 * upload. The `Client` class in module Easylark performs these steps on its
 * fields; here each call is one function from the held credential, the
 * clock and the abstract answers of the network to a `Step`: the credential
 * held afterwards, what the call returns and the requests it sent.
 */
module Dispatch {
  import opened Wire
  import opened Errors

  const BaseURL := "https://open.feishu.cn/open-apis"
  const TenantAccessTokenURL := "https://open.feishu.cn/open-apis/auth/v3/tenant_access_token/internal"
  const JsonContentType := "application/json; charset=utf-8"
  const MultipartContentType := "multipart/form-data; boundary="

  /** The cached credential: the client's `tenantAccessToken` and
      `tokenExpireTime` (a clock reading in whole seconds). */
  datatype Credential = Credential(token: string, expiry: int)

  /** The token endpoint's decoded body `{code, msg, tenant_access_token, expire}`. */
  datatype TokenEnvelope = TokenEnvelope(code: int, msg: string, token: string, expire: int)

  /** One token exchange: what the endpoint answers, and the clock reading
      taken after the answer is decoded (the second `time.Now()`). */
  datatype TokenExchange = TokenExchange(reply: Reply<TokenEnvelope>, answeredAt: int)

  /** The result of one client call. */
  datatype Step<+T> = Step(held: Credential, outcome: Result<T, Error>, sent: seq<Request>)

  /** A call on the dispatcher: HTTP method, path below `BaseURL`, optional body. */
  datatype Call = Call(verb: string, path: string, body: Option<Json>)

  /** How the multipart writer fared; the boundary it picked is random, so
      it is an input. */
  datatype FormOutcome =
    | Written(boundary: string)
    | FormFileFailed(cause: string)
    | WriteFailed(cause: string)
    | CloseFailed(cause: string)

  /** The cache-hit test: a non-empty token strictly before its expiry. */
  predicate Usable(c: Credential, now: int)
  {
    c.token != "" && now < c.expiry
  }

  /** The token exchange request: the client identity as JSON, no Authorization. */
  function TokenRequest(appId: string, appSecret: string): (r: Request)
    ensures r.verb == "POST" && r.url == TenantAccessTokenURL
    ensures r.body.JsonBody? && r.body.json.Obj? && r.body.json.fields.Keys == {"app_id", "app_secret"}
    ensures r.body.json.fields["app_id"] == Str(appId) && r.body.json.fields["app_secret"] == Str(appSecret)
  {
    Request("POST", TenantAccessTokenURL, [Header("Content-Type", JsonContentType)],
            JsonBody(Obj(map["app_id" := Str(appId), "app_secret" := Str(appSecret)])))
  }
  /** The token request is JSON and carries no bearer token. */
  lemma TokenRequestHeaders(appId: string, appSecret: string)
    ensures HeaderValue(TokenRequest(appId, appSecret).headers, "Content-Type") == Some(JsonContentType)
    ensures HeaderValue(TokenRequest(appId, appSecret).headers, "Authorization") == None
  {
  }


  /** `GetTenantAccessToken`: the cached token on a hit, otherwise one
      exchange whose success alone replaces the credential. */
  function Acquire(appId: string, appSecret: string, held: Credential, now: int, ex: TokenExchange): (r: Step<string>)
    ensures r.outcome.Ok? ==> r.outcome.value == r.held.token
    ensures r.held != held ==> r.outcome.Ok?
    ensures r.sent == [] || r.sent == [TokenRequest(appId, appSecret)]
    ensures r.sent != [] <==> !Usable(held, now) && !ex.reply.Unbuildable?
  {
    if Usable(held, now) then Step(held, Ok(held.token), [])
    else
      var req := TokenRequest(appId, appSecret);
      match ex.reply
      case Unbuildable(c) => Step(held, Err(Failed(CreateRequest, c)), [])
      case SendFailed(c) => Step(held, Err(Failed(Send, c)), [req])
      case ReadFailed(c) => Step(held, Err(Failed(ReadBody, c)), [req])
      case Received(Malformed(c)) => Step(held, Err(Failed(Unmarshal, c)), [req])
      case Received(Decoded(env)) =>
        if env.code != 0 then Step(held, Err(TokenRejected(env.msg)), [req])
        else Step(Credential(env.token, ex.answeredAt + env.expire), Ok(env.token), [req])
  }

  /** The request `DoRequest` builds once it holds `token`. */
  function ApiRequest(call: Call, token: string): (r: Request)
    ensures r.verb == call.verb && r.url == BaseURL + call.path
    ensures |r.headers| == 2 && Header("Content-Type", JsonContentType) in r.headers
    ensures Header("Authorization", "Bearer " + token) in r.headers
    ensures r.body.JsonBody? <==> call.body.Some?
    ensures r.body.JsonBody? ==> r.body.json == call.body.value
    ensures !r.body.MultipartBody?
  {
    Request(call.verb, BaseURL + call.path,
            [Header("Content-Type", JsonContentType), Header("Authorization", "Bearer " + token)],
            if call.body.Some? then JsonBody(call.body.value) else NoBody)
  }

  /** `DoRequest`: acquire a token, send once, decode into the sink only
      when there is one. The envelope's code is not looked at. */
  function DoRequestStep<T>(appId: string, appSecret: string, held: Credential, now: int, ex: TokenExchange,
                       call: Call, sink: bool, reply: Reply<T>): (r: Step<Option<T>>)
    ensures var a := Acquire(appId, appSecret, held, now, ex);
            && r.held == a.held
            && (r.sent == a.sent
                || (a.outcome.Ok? && r.sent == a.sent + [ApiRequest(call, a.outcome.value)]))
            && (r.outcome.Ok? ==> a.outcome.Ok? && (r.outcome.value.Some? <==> sink))
  {
    var a := Acquire(appId, appSecret, held, now, ex);
    if a.outcome.Err? then Step(a.held, Err(a.outcome.error), a.sent)
    else
      var req := ApiRequest(call, a.outcome.value);
      match reply
      case Unbuildable(c) => Step(a.held, Err(Failed(CreateRequest, c)), a.sent)
      case SendFailed(c) => Step(a.held, Err(Failed(Send, c)), a.sent + [req])
      case ReadFailed(c) => Step(a.held, Err(Failed(ReadBody, c)), a.sent + [req])
      case Received(d) =>
        if !sink then Step(a.held, Ok(None), a.sent + [req])
        else match d
          case Malformed(c) => Step(a.held, Err(Failed(Unmarshal, c)), a.sent + [req])
          case Decoded(v) => Step(a.held, Ok(Some(v)), a.sent + [req])
  }

  /** The request `UploadFile` builds: one `file` part, multipart content type. */
  function UploadRequest(path: string, fileBytes: seq<bv8>, fileName: string, boundary: string, token: string): (r: Request)
    ensures r.verb == "POST" && r.url == BaseURL + path
    ensures |r.headers| == 2 && Header("Content-Type", MultipartContentType + boundary) in r.headers
    ensures Header("Authorization", "Bearer " + token) in r.headers
    ensures r.body == MultipartBody("file", fileName, fileBytes)
  {
    Request("POST", BaseURL + path,
            [Header("Content-Type", MultipartContentType + boundary), Header("Authorization", "Bearer " + token)],
            MultipartBody("file", fileName, fileBytes))
  }

  /** `UploadFile`: like `DoRequestStep`, but the body is a multipart form and
      the envelope's code is checked; `data.file_key` is the result. */
  function Upload(appId: string, appSecret: string, held: Credential, now: int, ex: TokenExchange,
                  path: string, fileBytes: seq<bv8>, fileName: string,
                  form: FormOutcome, reply: Reply<Envelope<string>>): (r: Step<string>)
    ensures var a := Acquire(appId, appSecret, held, now, ex);
            && r.held == a.held
            && (r.sent == a.sent
                || (a.outcome.Ok? && form.Written?
                    && r.sent == a.sent + [UploadRequest(path, fileBytes, fileName, form.boundary, a.outcome.value)]))
            && (r.outcome.Ok? ==> a.outcome.Ok? && form.Written?)
  {
    var a := Acquire(appId, appSecret, held, now, ex);
    if a.outcome.Err? then a
    else match form
      case FormFileFailed(c) => Step(a.held, Err(Failed(CreateFormFile, c)), a.sent)
      case WriteFailed(c) => Step(a.held, Err(Failed(WriteFileContent, c)), a.sent)
      case CloseFailed(c) => Step(a.held, Err(Failed(CloseWriter, c)), a.sent)
      case Written(boundary) =>
        var req := UploadRequest(path, fileBytes, fileName, boundary, a.outcome.value);
        match reply
        case Unbuildable(c) => Step(a.held, Err(Failed(CreateRequest, c)), a.sent)
        case SendFailed(c) => Step(a.held, Err(Failed(Send, c)), a.sent + [req])
        case ReadFailed(c) => Step(a.held, Err(Failed(ReadBody, c)), a.sent + [req])
        case Received(Malformed(c)) => Step(a.held, Err(Failed(Unmarshal, c)), a.sent + [req])
        case Received(Decoded(env)) =>
          if env.code != 0 then Step(a.held, Err(UploadRejected(env.msg)), a.sent + [req])
          else Step(a.held, Ok(env.data), a.sent + [req])
  }

  /** The check every service makes after `DoRequest` with a sink: a
      dispatch error passes through, a non-zero code becomes `*Error`, and
      otherwise the payload is the answer. */
  function Checked<D>(outcome: Result<Option<Envelope<D>>, Error>): (r: Result<D, Error>)
    requires outcome.Ok? ==> outcome.value.Some?
    ensures r.Ok? <==> outcome.Ok? && outcome.value.value.code == 0
    ensures outcome.Err? ==> r == Err(outcome.error)
    ensures outcome.Ok? && outcome.value.value.code != 0
            ==> r == Err(Api(outcome.value.value.code, outcome.value.value.msg))
    ensures r.Ok? ==> r.value == outcome.value.value.data
  {
    match outcome
    case Err(e) => Err(e)
    case Ok(Some(env)) => if env.code != 0 then Err(Api(env.code, env.msg)) else Ok(env.data)
  }

  /** The error a call returns, if any: the services whose Go signature
      returns only `error`. */
  function ErrorOf<T>(r: Result<T, Error>): (e: Option<Error>)
    ensures e.Some? <==> r.Err?
    ensures e.Some? ==> e.value == r.error
  {
    if r.Err? then Some(r.error) else None
  }

  /** What every service call does: dispatch with a sink for the envelope,
      then apply the code check. */
  function Serve<D>(appId: string, appSecret: string, held: Credential, now: int, ex: TokenExchange,
                    call: Call, reply: Reply<Envelope<D>>): (r: Step<D>)
    ensures r.held == Acquire(appId, appSecret, held, now, ex).held
    ensures r.outcome.Ok? ==> reply.Received? && reply.decoding.Decoded? && reply.decoding.value.code == 0
                              && r.outcome.value == reply.decoding.value.data
  {
    var d := DoRequestStep(appId, appSecret, held, now, ex, call, true, reply);
    SinkFilledOnSuccess(appId, appSecret, held, now, ex, call, reply);
    Step(d.held, Checked(d.outcome), d.sent)
  }

  // ---------------------------------------------------------------------
  // The credential cache

  /** A cache hit returns the held token, sends nothing and keeps the credential. */
  lemma CacheHit(appId: string, appSecret: string, held: Credential, now: int, ex: TokenExchange)
    requires Usable(held, now)
    ensures Acquire(appId, appSecret, held, now, ex) == Step(held, Ok(held.token), [])
  {
  }

  /** Anything but a hit sends exactly the one token request (unless the
      request could not even be built). */
  lemma MissExchangesOnce(appId: string, appSecret: string, held: Credential, now: int, ex: TokenExchange)
    requires !Usable(held, now)
    ensures ex.reply.Unbuildable? ==> Acquire(appId, appSecret, held, now, ex).sent == []
    ensures !ex.reply.Unbuildable? ==> Acquire(appId, appSecret, held, now, ex).sent == [TokenRequest(appId, appSecret)]
  {
  }

  /** An empty token always goes to the endpoint, whatever the stored expiry. */
  lemma EmptyTokenExchanges(appId: string, appSecret: string, expiry: int, now: int, ex: TokenExchange)
    requires !ex.reply.Unbuildable?
    ensures Acquire(appId, appSecret, Credential("", expiry), now, ex).sent == [TokenRequest(appId, appSecret)]
  {
  }

  /** A failed acquisition keeps both fields, and the error says where it
      failed; a rejection by the endpoint carries the envelope's `msg`. */
  lemma FailureKeepsCredential(appId: string, appSecret: string, held: Credential, now: int, ex: TokenExchange)
    requires Acquire(appId, appSecret, held, now, ex).outcome.Err?
    ensures Acquire(appId, appSecret, held, now, ex).held == held
    ensures var e := Acquire(appId, appSecret, held, now, ex).outcome.error;
            match ex.reply
            case Unbuildable(c) => e == Failed(CreateRequest, c)
            case SendFailed(c) => e == Failed(Send, c)
            case ReadFailed(c) => e == Failed(ReadBody, c)
            case Received(Malformed(c)) => e == Failed(Unmarshal, c)
            case Received(Decoded(env)) => env.code != 0 && e == TokenRejected(env.msg) && EndsWith(Text(e), env.msg)
  {
    var e := Acquire(appId, appSecret, held, now, ex).outcome.error;
    TextEndsWithMessage(e);
  }

  /** An exchange succeeds exactly when the endpoint answers code 0; the
      new token and `answeredAt + expire` then replace the credential. */
  lemma SuccessInstalls(appId: string, appSecret: string, held: Credential, now: int, ex: TokenExchange)
    requires !Usable(held, now)
    ensures Acquire(appId, appSecret, held, now, ex).outcome.Ok?
            <==> ex.reply.Received? && ex.reply.decoding.Decoded? && ex.reply.decoding.value.code == 0
    ensures ex.reply.Received? && ex.reply.decoding.Decoded? && ex.reply.decoding.value.code == 0 ==>
            var env := ex.reply.decoding.value;
            Acquire(appId, appSecret, held, now, ex)
              == Step(Credential(env.token, ex.answeredAt + env.expire), Ok(env.token), [TokenRequest(appId, appSecret)])
  {
  }

  /** A lifetime of zero or less is taken literally: the next call, at any
      later clock reading, exchanges again. */
  lemma NonPositiveLifetimeExpires(appId: string, appSecret: string, held: Credential, now: int,
                                   ex: TokenExchange, later: int, ex2: TokenExchange)
    requires !Usable(held, now)
    requires ex.reply.Received? && ex.reply.decoding.Decoded?
    requires ex.reply.decoding.value.expire <= 0
    requires later >= ex.answeredAt
    requires !ex2.reply.Unbuildable?
    ensures var s := Acquire(appId, appSecret, held, now, ex);
            s.outcome.Ok? ==> Acquire(appId, appSecret, s.held, later, ex2).sent == [TokenRequest(appId, appSecret)]
  {
  }

  /** A clock reading and the token endpoint's behaviour, for one of a series of calls. */
  datatype Attempt = Attempt(now: int, exchange: TokenExchange)

  /** A series of calls to `GetTenantAccessToken`: the final credential,
      each call's result and every request sent. */
  datatype Run = Run(held: Credential, outcomes: seq<Result<string, Error>>, sent: seq<Request>)

  function AcquireEach(appId: string, appSecret: string, held: Credential, attempts: seq<Attempt>): (r: Run)
    ensures |r.outcomes| == |attempts|
    decreases |attempts|
  {
    if attempts == [] then Run(held, [], [])
    else
      var s := Acquire(appId, appSecret, held, attempts[0].now, attempts[0].exchange);
      var rest := AcquireEach(appId, appSecret, s.held, attempts[1..]);
      Run(rest.held, [s.outcome] + rest.outcomes, s.sent + rest.sent)
  }

  /** Running two series of calls one after the other is running their
      concatenation: the second starts from the credential the first left,
      and the results and requests follow each other in order. */
  lemma {:induction false} AcquireEachConcat(appId: string, appSecret: string, held: Credential,
                                             first: seq<Attempt>, second: seq<Attempt>)
    decreases |first|
    ensures var r1 := AcquireEach(appId, appSecret, held, first);
            var r2 := AcquireEach(appId, appSecret, r1.held, second);
            AcquireEach(appId, appSecret, held, first + second)
              == Run(r2.held, r1.outcomes + r2.outcomes, r1.sent + r2.sent)
  {
    if first == [] {
      assert first + second == second;
    } else {
      var s := Acquire(appId, appSecret, held, first[0].now, first[0].exchange);
      assert (first + second)[0] == first[0];
      assert (first + second)[1..] == first[1..] + second;
      AcquireEachConcat(appId, appSecret, s.held, first[1..], second);
      var r1 := AcquireEach(appId, appSecret, s.held, first[1..]);
      var r2 := AcquireEach(appId, appSecret, r1.held, second);
      assert [s.outcome] + (r1.outcomes + r2.outcomes) == ([s.outcome] + r1.outcomes) + r2.outcomes;
      assert s.sent + (r1.sent + r2.sent) == (s.sent + r1.sent) + r2.sent;
    }
  }

  /** A held token is reused by every call made before its expiry: each
      returns it, none sends anything, and the credential stays. */
  lemma {:induction false} ReusedUntilExpiry(appId: string, appSecret: string, held: Credential, attempts: seq<Attempt>)
    requires held.token != ""
    requires forall i :: 0 <= i < |attempts| ==> attempts[i].now < held.expiry
    ensures AcquireEach(appId, appSecret, held, attempts).held == held
    ensures AcquireEach(appId, appSecret, held, attempts).sent == []
    ensures forall i :: 0 <= i < |attempts| ==> AcquireEach(appId, appSecret, held, attempts).outcomes[i] == Ok(held.token)
  {
    if attempts != [] {
      CacheHit(appId, appSecret, held, attempts[0].now, attempts[0].exchange);
      ReusedUntilExpiry(appId, appSecret, held, attempts[1..]);
      var rest := AcquireEach(appId, appSecret, held, attempts[1..]);
      assert forall i :: 1 <= i < |attempts| ==> AcquireEach(appId, appSecret, held, attempts).outcomes[i] == rest.outcomes[i - 1];
    }
  }

  /** The cache lifecycle: a token of lifetime L obtained at T serves every
      call before T + L without a network access, and the first call at or
      after T + L performs exactly one exchange. */
  lemma CacheLifecycle(appId: string, appSecret: string, held: Credential, now: int, ex: TokenExchange,
                       msg: string, token: string, lifetime: int, before: seq<Attempt>, after: Attempt)
    requires !Usable(held, now)
    requires ex.reply == Received(Decoded(TokenEnvelope(0, msg, token, lifetime)))
    requires token != ""
    requires forall i :: 0 <= i < |before| ==> before[i].now < ex.answeredAt + lifetime
    requires after.now >= ex.answeredAt + lifetime
    requires !after.exchange.reply.Unbuildable?
    ensures Acquire(appId, appSecret, held, now, ex)
            == Step(Credential(token, ex.answeredAt + lifetime), Ok(token), [TokenRequest(appId, appSecret)])
    ensures var r := AcquireEach(appId, appSecret, Credential(token, ex.answeredAt + lifetime), before);
            && r.sent == []
            && (forall i :: 0 <= i < |before| ==> r.outcomes[i] == Ok(token))
            && Acquire(appId, appSecret, r.held, after.now, after.exchange).sent == [TokenRequest(appId, appSecret)]
  {
    var installed := Credential(token, ex.answeredAt + lifetime);
    SuccessInstalls(appId, appSecret, held, now, ex);
    ReusedUntilExpiry(appId, appSecret, installed, before);
    MissExchangesOnce(appId, appSecret, installed, after.now, after.exchange);
  }

  // ---------------------------------------------------------------------
  // The dispatcher

  /** When no token can be had, `DoRequest` returns that error unchanged
      and builds no request of its own. */
  lemma TokenFailureStopsDispatch<T>(appId: string, appSecret: string, held: Credential, now: int, ex: TokenExchange,
                                     call: Call, sink: bool, reply: Reply<T>)
    requires Acquire(appId, appSecret, held, now, ex).outcome.Err?
    ensures var a := Acquire(appId, appSecret, held, now, ex);
            DoRequestStep(appId, appSecret, held, now, ex, call, sink, reply) == Step(a.held, Err(a.outcome.error), a.sent)
  {
  }

  /** The request `DoRequest` sends: `BaseURL + path` verbatim, both
      headers always, a body exactly when one was given. The token request
      before it carries no Authorization header. */
  lemma DispatchShape<T>(appId: string, appSecret: string, held: Credential, now: int, ex: TokenExchange,
                         call: Call, sink: bool, reply: Reply<T>)
    requires Acquire(appId, appSecret, held, now, ex).outcome.Ok?
    requires !reply.Unbuildable?
    ensures var a := Acquire(appId, appSecret, held, now, ex);
            var d := DoRequestStep(appId, appSecret, held, now, ex, call, sink, reply);
            && |d.sent| == |a.sent| + 1
            && d.sent[..|a.sent|] == a.sent
            && var req := d.sent[|a.sent|];
            && req.verb == call.verb
            && req.url == BaseURL + call.path
            && HeaderValue(req.headers, "Content-Type") == Some(JsonContentType)
            && HeaderValue(req.headers, "Authorization") == Some("Bearer " + a.outcome.value)
            && (req.body.JsonBody? <==> call.body.Some?)
            && (call.body.Some? ==> req.body.json == call.body.value)
            && (forall r :: r in a.sent ==> HeaderValue(r.headers, "Authorization") == None)
  {
  }

  /** The dispatcher changes the credential only through the acquisition. */
  lemma DispatchKeepsAcquiredCredential<T>(appId: string, appSecret: string, held: Credential, now: int, ex: TokenExchange,
                                           call: Call, sink: bool, reply: Reply<T>)
    ensures DoRequestStep(appId, appSecret, held, now, ex, call, sink, reply).held
            == Acquire(appId, appSecret, held, now, ex).held
  {
  }

  /** Once the body is in, `DoRequest` succeeds: without a sink it never
      decodes, with one it hands over whatever decoded, whatever its code. */
  lemma DispatchDecodesOnlyIntoSink<T>(appId: string, appSecret: string, held: Credential, now: int, ex: TokenExchange,
                                       call: Call, sink: bool, reply: Reply<T>)
    requires Acquire(appId, appSecret, held, now, ex).outcome.Ok?
    requires reply.Received?
    ensures var d := DoRequestStep(appId, appSecret, held, now, ex, call, sink, reply);
            && (!sink ==> d.outcome == Ok(None))
            && (sink && reply.decoding.Decoded? ==> d.outcome == Ok(Some(reply.decoding.value)))
            && (sink && reply.decoding.Malformed? ==> d.outcome == Err(Failed(Unmarshal, reply.decoding.cause)))
  {
  }

  /** With a sink, a successful dispatch always carries the decoded value. */
  lemma SinkFilledOnSuccess<T>(appId: string, appSecret: string, held: Credential, now: int, ex: TokenExchange,
                               call: Call, reply: Reply<T>)
    ensures var d := DoRequestStep(appId, appSecret, held, now, ex, call, true, reply);
            d.outcome.Ok? ==> d.outcome.value.Some? && reply == Received(Decoded(d.outcome.value.value))
  {
  }

  // ---------------------------------------------------------------------
  // The upload

  /** Once a token is held, each transport failure of `DoRequest` is an
      error naming its own stage, whether or not a result is wanted; the
      call succeeds exactly when a body came back and, with a sink, decoded. */
  lemma DispatchStageErrors<T>(appId: string, appSecret: string, held: Credential, now: int, ex: TokenExchange,
                               call: Call, sink: bool, reply: Reply<T>)
    requires Acquire(appId, appSecret, held, now, ex).outcome.Ok?
    ensures var d := DoRequestStep(appId, appSecret, held, now, ex, call, sink, reply);
            && (reply.Unbuildable? ==> d.outcome == Err(Failed(CreateRequest, reply.cause)))
            && (reply.SendFailed? ==> d.outcome == Err(Failed(Send, reply.cause)))
            && (reply.ReadFailed? ==> d.outcome == Err(Failed(ReadBody, reply.cause)))
            && (sink && reply.Received? && reply.decoding.Malformed?
                ==> d.outcome == Err(Failed(Unmarshal, reply.decoding.cause)))
            && (d.outcome.Ok? <==> reply.Received? && (sink ==> reply.decoding.Decoded?))
  {
  }

  /** Once a token is held, each failure of `UploadFile` before the code
      check is an error naming its own stage: the three form-writer stages,
      then building, sending, reading and decoding the request. */
  lemma UploadStageErrors(appId: string, appSecret: string, held: Credential, now: int, ex: TokenExchange,
                          path: string, fileBytes: seq<bv8>, fileName: string,
                          form: FormOutcome, reply: Reply<Envelope<string>>)
    requires Acquire(appId, appSecret, held, now, ex).outcome.Ok?
    ensures var u := Upload(appId, appSecret, held, now, ex, path, fileBytes, fileName, form, reply);
            && (form.FormFileFailed? ==> u.outcome == Err(Failed(CreateFormFile, form.cause)))
            && (form.WriteFailed? ==> u.outcome == Err(Failed(WriteFileContent, form.cause)))
            && (form.CloseFailed? ==> u.outcome == Err(Failed(CloseWriter, form.cause)))
            && (form.Written? && reply.Unbuildable? ==> u.outcome == Err(Failed(CreateRequest, reply.cause)))
            && (form.Written? && reply.SendFailed? ==> u.outcome == Err(Failed(Send, reply.cause)))
            && (form.Written? && reply.ReadFailed? ==> u.outcome == Err(Failed(ReadBody, reply.cause)))
            && (form.Written? && reply.Received? && reply.decoding.Malformed?
                ==> u.outcome == Err(Failed(Unmarshal, reply.decoding.cause)))
  {
  }

  /** `UploadFile` yields the file key exactly when every stage passes and
      the envelope's code is 0; a non-zero code fails with its `msg`. */
  lemma UploadKeyIffCodeZero(appId: string, appSecret: string, held: Credential, now: int, ex: TokenExchange,
                             path: string, fileBytes: seq<bv8>, fileName: string,
                             form: FormOutcome, reply: Reply<Envelope<string>>)
    ensures var a := Acquire(appId, appSecret, held, now, ex);
            var u := Upload(appId, appSecret, held, now, ex, path, fileBytes, fileName, form, reply);
            && u.held == a.held
            && (a.outcome.Err? ==> u == a)
            && (u.outcome.Ok? <==> (a.outcome.Ok? && form.Written? && reply.Received? && reply.decoding.Decoded?
                                    && reply.decoding.value.code == 0))
            && (u.outcome.Ok? ==> u.outcome.value == reply.decoding.value.data)
            && (a.outcome.Ok? && form.Written? && reply.Received? && reply.decoding.Decoded? && reply.decoding.value.code != 0
                ==> u.outcome == Err(UploadRejected(reply.decoding.value.msg)))
  {
  }

  /** The request `UploadFile` sends is a POST of one `file` part to
      `BaseURL + path`, with the multipart content type and the bearer token. */
  lemma UploadShape(appId: string, appSecret: string, held: Credential, now: int, ex: TokenExchange,
                    path: string, fileBytes: seq<bv8>, fileName: string,
                    form: FormOutcome, reply: Reply<Envelope<string>>)
    requires Acquire(appId, appSecret, held, now, ex).outcome.Ok?
    requires form.Written? && !reply.Unbuildable?
    ensures var a := Acquire(appId, appSecret, held, now, ex);
            var u := Upload(appId, appSecret, held, now, ex, path, fileBytes, fileName, form, reply);
            && u.sent == a.sent + [u.sent[|a.sent|]]
            && var req := u.sent[|a.sent|];
            && req.verb == "POST" && req.url == BaseURL + path
            && HeaderValue(req.headers, "Content-Type") == Some(MultipartContentType + form.boundary)
            && HeaderValue(req.headers, "Authorization") == Some("Bearer " + a.outcome.value)
            && req.body == MultipartBody("file", fileName, fileBytes)
  {
  }

  // ---------------------------------------------------------------------
  // The services' uniform rule

  /** Every service call answers its payload exactly when the token, the
      round trip and the decoding all succeed and the envelope's code is 0;
      a non-zero code becomes `*Error{Code, Msg}`; an earlier failure passes
      through unchanged; and the call sends what `DoRequest` sends. */
  lemma ServeChecksCode<D>(appId: string, appSecret: string, held: Credential, now: int, ex: TokenExchange,
                           call: Call, reply: Reply<Envelope<D>>)
    ensures var a := Acquire(appId, appSecret, held, now, ex);
            var d := DoRequestStep(appId, appSecret, held, now, ex, call, true, reply);
            var s := Serve(appId, appSecret, held, now, ex, call, reply);
            && s.held == a.held && s.sent == d.sent
            && (s.outcome.Ok? <==> a.outcome.Ok? && reply.Received? && reply.decoding.Decoded?
                                   && reply.decoding.value.code == 0)
            && (s.outcome.Ok? ==> s.outcome.value == reply.decoding.value.data)
            && (a.outcome.Ok? && reply.Received? && reply.decoding.Decoded? && reply.decoding.value.code != 0
                ==> s.outcome == Err(Api(reply.decoding.value.code, reply.decoding.value.msg)))
            && (d.outcome.Err? ==> s.outcome == Err(d.outcome.error))
  {
    DispatchKeepsAcquiredCredential(appId, appSecret, held, now, ex, call, true, reply);
    SinkFilledOnSuccess(appId, appSecret, held, now, ex, call, reply);
  }
}
