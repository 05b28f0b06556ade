/**
 * The JSON-RPC transport of pkg/transport/jsonrpc.go: how the `params`
 * member of a request is assembled, the request envelope and headers, how a
 * response is turned into a payload or an error, the retry decision, and the
 * session token the client keeps.
 *
 * The network is not modelled: every call takes the exchange as a function
 * from the request the client sends to what comes back (a connection failure,
 * or a status and the body as encoding/json decoded it).
 */
module Transport {
  import opened Wrappers
  import opened Wire
  import opened Types

  const AuthenticateUrl := "https://identitysso-cert.betfair.com/api/certlogin"
  const JsonRpcUrl := "https://api.betfair.com/exchange/betting/json-rpc/v1"
  const DefaultRootCA := "certs/rootca.pem"
  const MethodPrefix := "SportsAPING/v1.0/"
  const JsonRpcVersion := "2.0"
  const DefaultLocale := "en"
  const StatusOK := 200

  // ---------------------------------------------------------------------
  // The parameter bag

  /**
   * The dynamic type of Do's `additionalParams` argument. `Market(None)` is a
   * typed nil `*MarketFilterParams`, which is not a nil interface value;
   * `Unrecognised` is any other non-nil value, such as the
   * `**PlaceInstructionParams` that PlaceOrder passes.
   */
  datatype Extra =
    | NoExtra
    | Market(marketParams: Option<MarketFilterParams>)
    | Place(instructionParams: PlaceInstructionParams)
    | Unrecognised

  /** The list and book parameters: every optional field is copied only when it is set. */
  function CreateParams(filter: Option<MarketFilter>, marketParams: Option<MarketFilterParams>): (p: Params)
    ensures p.filter == filter && p.locale == DefaultLocale
    ensures p.customerRef == "" && p.customerStrategyRef == "" && p.instructions.None?
    ensures marketParams.None? ==> p == ZeroParams.(filter := filter, locale := DefaultLocale)
    ensures marketParams.Some? ==>
      var mp := marketParams.value;
      && (p.granularity.Some? <==> mp.granularity != "")
      && (p.granularity.Some? ==> p.granularity.value == mp.granularity)
      && p.maxResults == mp.maxResults
      && p.marketId == mp.marketId
      && p.marketIds == mp.marketIds
      && p.selectionId == mp.selectionId
      && p.priceProjection == mp.priceProjection
      && p.orderProjection == mp.orderProjection
      && p.matchProjection == mp.matchProjection
      && p.marketProjection == mp.marketProjection
      && p.dateRange == (if mp.dateRange.Some? then mp.dateRange.value else ZeroTimeRange)
  {
    var base := ZeroParams.(filter := filter, locale := DefaultLocale);
    if marketParams.None? then base
    else
      var mp := marketParams.value;
      base.(
        granularity := if mp.granularity != "" then Some(mp.granularity) else base.granularity,
        marketId := if mp.marketId != "" then mp.marketId else base.marketId,
        marketIds := if mp.marketIds.Some? then mp.marketIds else base.marketIds,
        selectionId := if mp.selectionId != 0 then mp.selectionId else base.selectionId,
        marketProjection := if mp.marketProjection.Some? then mp.marketProjection else base.marketProjection,
        maxResults := if mp.maxResults != 0 then mp.maxResults else base.maxResults,
        matchProjection := if mp.matchProjection != "" then mp.matchProjection else base.matchProjection,
        orderProjection := if mp.orderProjection != "" then mp.orderProjection else base.orderProjection,
        priceProjection := if mp.priceProjection.Some? then mp.priceProjection else base.priceProjection,
        dateRange := if mp.dateRange.Some? then mp.dateRange.value else base.dateRange)
  }

  /** The place-order parameters: never a filter, always the locale. */
  function CreatePlaceParams(ip: PlaceInstructionParams): (p: Params)
    ensures p.filter.None? && p.locale == DefaultLocale
    ensures p.customerRef == ip.customerRef && p.customerStrategyRef == ip.customerStrategyRef
    ensures p.marketId == ip.marketID && p.instructions == ip.instructions
    ensures p.granularity.None? && p.maxResults == 0 && p.marketIds.None? && p.selectionId == 0
    ensures p.priceProjection.None? && p.orderProjection == "" && p.matchProjection == ""
    ensures p.marketProjection.None? && p.dateRange == ZeroTimeRange
  {
    var base := ZeroParams.(locale := DefaultLocale);
    base.(
      customerRef := if ip.customerRef != "" then ip.customerRef else base.customerRef,
      customerStrategyRef := if ip.customerStrategyRef != "" then ip.customerStrategyRef else base.customerStrategyRef,
      marketId := if ip.marketID != "" then ip.marketID else base.marketId,
      instructions := if ip.instructions.Some? then ip.instructions else base.instructions)
  }

  /** The dispatch at the top of Do: what `params` holds before the envelope is built. */
  function BuildParams(filter: Option<MarketFilter>, extra: Extra): (p: Params)
    ensures extra.NoExtra? ==> p == ZeroParams.(filter := filter, locale := DefaultLocale)
    ensures extra.Market? ==> p == CreateParams(filter, extra.marketParams)
    ensures extra.Place? ==> p == CreatePlaceParams(extra.instructionParams)
    ensures extra.Unrecognised? ==> p == ZeroParams
  {
    match extra
    case NoExtra => ZeroParams.(filter := filter, locale := DefaultLocale)
    case Market(mp) => CreateParams(filter, mp)
    case Place(ip) => CreatePlaceParams(ip)
    case Unrecognised => ZeroParams
  }

  // ---------------------------------------------------------------------
  // Requests

  /** A request body: a JSON document, or the form text of the login call. */
  datatype Body = JsonBody(doc: map<string, Json>) | FormBody(text: string)

  /** Header names are in the canonical form net/http gives them when they are set. */
  datatype HttpRequest = HttpRequest(verb: string, url: string, headers: map<string, string>, body: Body)

  /** The request envelope of a call. */
  function Query(id: int, operation: string, params: Params): (q: JsonRPC)
    ensures q.jsonrpc == JsonRpcVersion && q.id == id && q.params == params
    ensures |q.methodName| == |MethodPrefix| + |operation|
    ensures q.methodName[..|MethodPrefix|] == MethodPrefix && q.methodName[|MethodPrefix|..] == operation
  {
    JsonRPC(JsonRpcVersion, MethodPrefix + operation, params, id)
  }

  /** The POST of a JSON-RPC call, carrying the application key and the session token. */
  function RpcRequest(appKey: string, token: string, q: JsonRPC): (r: HttpRequest)
    ensures r.verb == "POST" && r.url == JsonRpcUrl && r.body == JsonBody(EncodeJsonRPC(q))
    ensures r.headers.Keys == {"X-Application", "X-Authentication", "Content-Type", "Accept"}
    ensures r.headers["X-Application"] == appKey && r.headers["X-Authentication"] == token
    ensures r.headers["Content-Type"] == "application/json" && r.headers["Accept"] == "application/json"
  {
    HttpRequest("POST", JsonRpcUrl,
      map["X-Application" := appKey,
          "X-Authentication" := token,
          "Content-Type" := "application/json",
          "Accept" := "application/json"],
      JsonBody(EncodeJsonRPC(q)))
  }

  /** The certificate login: the credentials go unescaped into a form body. */
  function AuthRequest(config: Config): (r: HttpRequest)
    ensures r.verb == "POST" && r.url == AuthenticateUrl
    ensures r.headers.Keys == {"X-Application", "Content-Type"}
    ensures r.headers["X-Application"] == config.appKey
    ensures r.headers["Content-Type"] == "application/x-www-form-urlencoded"
    ensures r.body.FormBody?
    ensures r.body.text == "username=" + config.user + "&password=" + config.password
  {
    HttpRequest("POST", AuthenticateUrl,
      map["X-Application" := config.appKey,
          "Content-Type" := "application/x-www-form-urlencoded"],
      FormBody("username=" + config.user + "&password=" + config.password))
  }

  // ---------------------------------------------------------------------
  // Responses

  /**
   * What encoding/json made of a response body: the value it filled, and
   * whether it reported an error. A syntax error fills nothing; a type
   * mismatch skips that member and fills the rest. The value of a
   * `Malformed` body is left unconstrained.
   */
  datatype Decoded<T> = Parsed(value: T) | Malformed(value: T)

  /** One HTTP exchange, after the retrying client has given up or received a response. */
  datatype Exchange<B> =
    | ConnectionFailed(reason: string)
    | Received(statusCode: int, status: string, body: Decoded<B>)

  /** The errors Do returns. */
  datatype DoError =
    | TransportError(reason: string)
    | HttpStatus(code: int, status: string)
    | RemoteError(code: int, message: string)

  /** The bytes Do returns are the re-encoded `result`, a `[]interface{}`: `null` when nil, an array otherwise. */
  function ResultPayload(result: Slice<Json>): (j: Json)
    ensures j.JNull? <==> result.None?
    ensures result.Some? ==> j == JArr(result.value)
  {
    if result.Some? then JArr(result.value) else JNull
  }

  /** How Do classifies an exchange. A body that failed to decode is used as far as it was decoded. */
  function Unwrap(x: Exchange<JsonRPCResponse>): (r: Result<Json, DoError>)
    ensures x.ConnectionFailed? ==> r == Failure(TransportError(x.reason))
    ensures x.Received? && x.statusCode != StatusOK ==> r == Failure(HttpStatus(x.statusCode, x.status))
    ensures x.Received? && x.statusCode == StatusOK && x.body.value.error.Some? ==>
      r == Failure(RemoteError(x.body.value.error.value.code, x.body.value.error.value.message))
    ensures r.Success? <==> x.Received? && x.statusCode == StatusOK && x.body.value.error.None?
    ensures r.Success? ==> r.value.JNull? || r.value.JArr?
  {
    match x
    case ConnectionFailed(reason) => Failure(TransportError(reason))
    case Received(code, status, body) =>
      if code != StatusOK then Failure(HttpStatus(code, status))
      else if body.value.error.Some? then Failure(RemoteError(body.value.error.value.code, body.value.error.value.message))
      else Success(ResultPayload(body.value.result))
  }

  /** Do never looks at whether the body decoded cleanly. */
  lemma {:induction false} DecodeFailureIgnored(code: int, status: string, resp: JsonRPCResponse)
    ensures Unwrap(Received(code, status, Malformed(resp))) == Unwrap(Received(code, status, Parsed(resp)))
  {
  }

  /** The payload of a successful call is exactly the `result` member of the response as it travels. */
  lemma {:induction false} PayloadIsResultMember(x: Exchange<JsonRPCResponse>)
    requires Unwrap(x).Success?
    ensures Unwrap(x).value == EncodeResponse(x.body.value)["result"]
  {
  }

  /** The outcome of a login. */
  datatype AuthError =
    | AuthTransportError(reason: string)
    | AuthHttpStatus(code: int, status: string)
    | AuthDecodeError

  /** Unlike Do, Authenticate reports a body that failed to decode. */
  function AuthOutcome(x: Exchange<Authenticate>): (r: Result<Authenticate, AuthError>)
    ensures r.Success? <==> x.Received? && x.statusCode == StatusOK && x.body.Parsed?
    ensures r.Success? ==> r.value == x.body.value
    ensures x.ConnectionFailed? ==> r == Failure(AuthTransportError(x.reason))
    ensures x.Received? && x.statusCode != StatusOK ==> r == Failure(AuthHttpStatus(x.statusCode, x.status))
    ensures x.Received? && x.statusCode == StatusOK && x.body.Malformed? ==> r == Failure(AuthDecodeError)
  {
    match x
    case ConnectionFailed(reason) => Failure(AuthTransportError(reason))
    case Received(code, status, body) =>
      if code != StatusOK then Failure(AuthHttpStatus(code, status))
      else if body.Malformed? then Failure(AuthDecodeError)
      else Success(body.value)
  }

  // ---------------------------------------------------------------------
  // Retry decision

  /** The state of the client's context when a retry is considered. */
  datatype ContextState = Live | Canceled | DeadlineExceeded

  datatype RetryError = ContextError(state: ContextState) | ConnectionError(reason: string)

  datatype Decision = Decision(retry: bool, err: Option<RetryError>)

  /**
   * The CheckRetry closure installed on the retrying client. `status` is
   * the received response's status code, if any; `err` the connection error.
   */
  function CheckRetry(ctx: ContextState, status: Option<int>, err: Option<string>): (d: Decision)
    ensures d.retry <==> ctx == Live && err.Some?
    ensures d.err.None? <==> ctx == Live && err.None?
    ensures ctx != Live ==> d.err == Some(ContextError(ctx))
    ensures ctx == Live && err.Some? ==> d.err == Some(ConnectionError(err.value))
  {
    if ctx != Live then Decision(false, Some(ContextError(ctx)))
    else if err.Some? then Decision(true, Some(ConnectionError(err.value)))
    else Decision(false, None)
  }

  /** The response status never influences the decision. */
  lemma {:induction false} CheckRetryIgnoresStatus(ctx: ContextState, s1: Option<int>, s2: Option<int>, err: Option<string>)
    ensures CheckRetry(ctx, s1, err) == CheckRetry(ctx, s2, err)
  {
  }

  /** A response that arrived without a connection error is never retried and yields no error while the context lives. */
  lemma {:induction false} ReceivedNeverRetried(ctx: ContextState, code: int)
    ensures !CheckRetry(ctx, Some(code), None).retry
    ensures ctx == Live ==> CheckRetry(ctx, Some(code), None).err.None?
  {
  }

  // ---------------------------------------------------------------------
  // The client

  /** The root certificate bundle the client loads: the configured path, or the default one. */
  function CaBundlePath(config: Config): (path: string)
    ensures path != ""
    ensures config.rootCAPath != "" ==> path == config.rootCAPath
    ensures config.rootCAPath == "" ==> path == DefaultRootCA
  {
    if |config.rootCAPath| > 0 then config.rootCAPath else DefaultRootCA
  }

  datatype InitError = CaBundleUnreadable(path: string) | KeyPairUnusable(certPath: string, keyPath: string)

  class JsonRPCClient {
    /** The session the client sends with every call. */
    var authData: Authenticate
    const config: Config

    constructor(config: Config)
      ensures this.config == config && authData == NoSession
    {
      this.config := config;
      authData := NoSession;
    }

    /**
     * Builds a client. Whether the certificate bundle can be read and the
     * key pair loaded are inputs: file access and TLS are not modelled.
     */
    static method NewJsonRPCClient(config: Config, readable: string -> bool, keyPairLoads: (string, string) -> bool)
      returns (r: Result<JsonRPCClient, InitError>)
      ensures r.Failure? <==> !readable(CaBundlePath(config)) || !keyPairLoads(config.certPath, config.keyPath)
      ensures !readable(CaBundlePath(config)) ==> r == Failure(CaBundleUnreadable(CaBundlePath(config)))
      ensures readable(CaBundlePath(config)) && !keyPairLoads(config.certPath, config.keyPath) ==>
        r == Failure(KeyPairUnusable(config.certPath, config.keyPath))
      ensures r.Success? ==> fresh(r.value) && r.value.config == config && r.value.authData == NoSession
    {
      var path: string;
      if |config.rootCAPath| > 0 {
        path := config.rootCAPath;
      } else {
        path := DefaultRootCA;
      }
      if !readable(path) {
        return Failure(CaBundleUnreadable(path));
      }
      if !keyPairLoads(config.certPath, config.keyPath) {
        return Failure(KeyPairUnusable(config.certPath, config.keyPath));
      }
      var client := new JsonRPCClient(config);
      return Success(client);
    }

    /** Replaces the session token, keeping the login status. */
    method SetSessionKey(key: string)
      modifies this
      ensures authData == old(authData).(sessionToken := key)
    {
      authData := authData.(sessionToken := key);
    }

    /** Logs in; the stored session changes only when the login fully succeeds. */
    method Authenticate(network: HttpRequest -> Exchange<Authenticate>) returns (r: Result<Authenticate, AuthError>)
      modifies this
      ensures r == AuthOutcome(network(AuthRequest(config)))
      ensures r.Success? ==> authData == r.value
      ensures r.Failure? ==> authData == old(authData)
    {
      var req := AuthRequest(config);
      var resp := network(req);
      if resp.ConnectionFailed? {
        return Failure(AuthTransportError(resp.reason));
      }
      if resp.statusCode != StatusOK {
        return Failure(AuthHttpStatus(resp.statusCode, resp.status));
      }
      if resp.body.Malformed? {
        return Failure(AuthDecodeError);
      }
      var authenticate := resp.body.value;
      authData := authenticate;
      return Success(authenticate);
    }

    /** The request Do sends for a call, given the stored session. */
    function Request(id: int, operation: string, filter: Option<MarketFilter>, extra: Extra): (r: HttpRequest)
      reads this
      ensures "X-Authentication" in r.headers && r.headers["X-Authentication"] == authData.sessionToken
      ensures "X-Application" in r.headers && r.headers["X-Application"] == config.appKey
      ensures r.body == JsonBody(EncodeJsonRPC(Query(id, operation, BuildParams(filter, extra))))
    {
      RpcRequest(config.appKey, authData.sessionToken, Query(id, operation, BuildParams(filter, extra)))
    }

    /** What Do returns for a call over a given network. */
    function Outcome(id: int, operation: string, filter: Option<MarketFilter>, extra: Extra,
                     network: HttpRequest -> Exchange<JsonRPCResponse>): (r: Result<Json, DoError>)
      reads this
      ensures var x := network(Request(id, operation, filter, extra));
        && (r.Success? <==> x.Received? && x.statusCode == StatusOK && x.body.value.error.None?)
        && (r.Success? ==> r.value == ResultPayload(x.body.value.result))
        && (x.ConnectionFailed? ==> r == Failure(TransportError(x.reason)))
        && (x.Received? && x.statusCode != StatusOK ==> r == Failure(HttpStatus(x.statusCode, x.status)))
        && (x.Received? && x.statusCode == StatusOK && x.body.value.error.Some? ==>
              r == Failure(RemoteError(x.body.value.error.value.code, x.body.value.error.value.message)))
    {
      Unwrap(network(Request(id, operation, filter, extra)))
    }

    /** One JSON-RPC call. It reads the stored session and changes nothing. */
    method Do(id: int, operation: string, filter: Option<MarketFilter>, extra: Extra,
              network: HttpRequest -> Exchange<JsonRPCResponse>) returns (r: Result<Json, DoError>)
      ensures r == Outcome(id, operation, filter, extra, network)
      ensures r.Success? ==> r.value.JNull? || r.value.JArr?
    {
      var params := ZeroParams;
      if !extra.NoExtra? {
        if extra.Market? {
          params := CreateParams(filter, extra.marketParams);
        }
        if extra.Place? {
          params := CreatePlaceParams(extra.instructionParams);
        }
      } else {
        params := params.(filter := filter, locale := DefaultLocale);
      }
      var query := JsonRPC(JsonRpcVersion, MethodPrefix + operation, params, id);
      var req := RpcRequest(config.appKey, authData.sessionToken, query);
      var resp := network(req);
      if resp.ConnectionFailed? {
        return Failure(TransportError(resp.reason));
      }
      if resp.statusCode != StatusOK {
        return Failure(HttpStatus(resp.statusCode, resp.status));
      }
      var rpcresp := resp.body.value;
      if rpcresp.error.Some? {
        return Failure(RemoteError(rpcresp.error.value.code, rpcresp.error.value.message));
      }
      return Success(ResultPayload(rpcresp.result));
    }
  }

  // ---------------------------------------------------------------------
  // Properties of the parameters and of the envelope on the wire

  /** A call with no extra parameters, or with a nil market bag, sends exactly the filter and the locale. */
  lemma {:induction false} BareParamsOnWire(filter: Option<MarketFilter>)
    ensures BuildParams(filter, Market(None)) == BuildParams(filter, NoExtra)
    ensures var m := EncodeParams(BuildParams(filter, NoExtra));
      && m.Keys == (if filter.Some? then {"filter", "locale", "dateRange"} else {"locale", "dateRange"})
      && m["locale"] == JStr(DefaultLocale)
      && m["dateRange"] == JObj(map[])
  {
    var p := BuildParams(filter, NoExtra);
    var m := EncodeParams(p);
    forall key | key in m ensures key in {"filter", "locale", "dateRange"} {
      ParamsMemberAt(p, key);
    }
    ParamsMemberAt(p, "locale");
    ParamsMemberAt(p, "dateRange");
    ZeroTimeRangeHasNoMembers();
  }

  /** Only an unrecognised bag loses the locale. */
  lemma {:induction false} LocaleOnWire(filter: Option<MarketFilter>, extra: Extra)
    ensures "locale" in EncodeParams(BuildParams(filter, extra)) <==> !extra.Unrecognised?
  {
  }

  /** The filter reaches the wire only through the bare and market dispatches. */
  lemma {:induction false} FilterOnWire(filter: Option<MarketFilter>, extra: Extra)
    ensures "filter" in EncodeParams(BuildParams(filter, extra)) <==> filter.Some? && (extra.NoExtra? || extra.Market?)
  {
  }

  /** A market bag's set selection fields reach the wire, with the values given. */
  lemma {:induction false} MarketSelectionOnWire(filter: Option<MarketFilter>, mp: MarketFilterParams)
    ensures var m := EncodeParams(CreateParams(filter, Some(mp)));
      && ("granularity" in m <==> mp.granularity != "")
      && (mp.granularity != "" ==> m["granularity"] == JStr(mp.granularity))
      && ("maxResults" in m <==> mp.maxResults != 0)
      && ("marketId" in m <==> mp.marketId != "")
      && ("marketIds" in m <==> NonEmpty(mp.marketIds))
      && ("selectionId" in m <==> mp.selectionId != 0)
  {
    var p := CreateParams(filter, Some(mp));
    ParamsMemberAt(p, "granularity");
    ParamsMemberAt(p, "maxResults");
    ParamsMemberAt(p, "marketId");
    ParamsMemberAt(p, "marketIds");
    ParamsMemberAt(p, "selectionId");
  }

  /** A market bag's set projections reach the wire. */
  lemma {:induction false} MarketProjectionsOnWire(filter: Option<MarketFilter>, mp: MarketFilterParams)
    ensures var m := EncodeParams(CreateParams(filter, Some(mp)));
      && ("priceProjection" in m <==> mp.priceProjection.Some?)
      && ("orderProjection" in m <==> mp.orderProjection != "")
      && ("matchProjection" in m <==> mp.matchProjection != "")
      && ("marketProjection" in m <==> NonEmpty(mp.marketProjection))
  {
    var p := CreateParams(filter, Some(mp));
    ParamsMemberAt(p, "priceProjection");
    ParamsMemberAt(p, "orderProjection");
    ParamsMemberAt(p, "matchProjection");
    ParamsMemberAt(p, "marketProjection");
  }

  /** None of the place-order members reaches the wire in a list or book call. */
  lemma {:induction false} MarketParamsSendNoOrder(filter: Option<MarketFilter>, mp: Option<MarketFilterParams>)
    ensures var m := EncodeParams(CreateParams(filter, mp));
      "instructions" !in m && "customerRef" !in m && "customerStrategyRef" !in m
  {
    var p := CreateParams(filter, mp);
    ParamsMemberAt(p, "instructions");
    ParamsMemberAt(p, "customerRef");
    ParamsMemberAt(p, "customerStrategyRef");
  }

  /** A place bag never sends a filter, and sends each set field. */
  lemma {:induction false} PlaceParamsOnWire(ip: PlaceInstructionParams)
    ensures var m := EncodeParams(CreatePlaceParams(ip));
      && "filter" !in m && "locale" in m
      && ("customerRef" in m <==> ip.customerRef != "")
      && ("customerStrategyRef" in m <==> ip.customerStrategyRef != "")
      && ("marketId" in m <==> ip.marketID != "")
      && ("instructions" in m <==> NonEmpty(ip.instructions))
  {
    var p := CreatePlaceParams(ip);
    ParamsMemberAt(p, "customerRef");
    ParamsMemberAt(p, "customerStrategyRef");
    ParamsMemberAt(p, "marketId");
    ParamsMemberAt(p, "instructions");
  }

  /** Different operations are sent under different method names. */
  lemma {:induction false} MethodNamesDistinct(id: int, a: string, b: string, p: Params)
    requires a != b
    ensures Query(id, a, p).methodName != Query(id, b, p).methodName
  {
  }

  /**
   * The body Do sends for a call names the operation, carries the call's id
   * and protocol version, and a server decoding its `params` recovers the
   * built parameters up to empty-versus-nil slices.
   */
  lemma {:induction false} SentEnvelope(c: JsonRPCClient, id: int, operation: string, filter: Option<MarketFilter>, extra: Extra)
    ensures var r := c.Request(id, operation, filter, extra);
      && r.body.JsonBody?
      && r.body.doc.Keys == {"jsonrpc", "method", "params", "id"}
      && r.body.doc["jsonrpc"] == JStr(JsonRpcVersion)
      && r.body.doc["method"] == JStr(MethodPrefix + operation)
      && r.body.doc["id"] == JNum(id)
      && r.body.doc["params"].JObj?
      && DecodeParams(r.body.doc["params"].fields) == CanonicalParams(BuildParams(filter, extra))
  {
    ParamsRoundTrip(BuildParams(filter, extra));
  }

  // The two cases of Test_createParams in pkg/transport/jsonrpc_test.go.

  lemma FilterOnlyCase()
    ensures var f := ZeroFilter.(eventIds := Some(["1"]));
      CreateParams(Some(f), None) == ZeroParams.(filter := Some(f), locale := "en")
  {
  }

  lemma MarketParametersCase()
    ensures var mp := ZeroMarketFilterParams.(
        granularity := "DAY", maxResults := 1, marketIds := Some(["123", "456", "678"]),
        marketProjection := Some(["EVENT"]), priceProjection := Some(PriceProjection(Some(["EX_BEST_OFFERS"]))),
        orderProjection := "EXECUTABLE", matchProjection := "ROLLED_UP_BY_AVG_PRICE");
      CreateParams(None, Some(mp)) == ZeroParams.(
        granularity := Some("DAY"), maxResults := 1, marketIds := Some(["123", "456", "678"]),
        marketProjection := Some(["EVENT"]), priceProjection := Some(PriceProjection(Some(["EX_BEST_OFFERS"]))),
        orderProjection := "EXECUTABLE", matchProjection := "ROLLED_UP_BY_AVG_PRICE", locale := "en")
  {
  }
}
