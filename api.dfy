/** The credential store and request gateway of the client: the module-level configuration
    mirrored into two browser-storage keys, the authentication check, the request envelope,
    the shaping of transport outcomes into a value or an error message, and the table of
    remote operations. The network itself is an input: what the transport delivered. */
module ApiClient {

  import opened Wrappers
  import opened Strings
  import opened JsValues

  const TokenKey := "api_token"
  const UrlKey := "api_url"

  const NotAuthenticated := "Not authenticated. Please login first."
  const ConnectFailure := "Failed to connect to API"
  const RequestFailedPrefix := "API request failed: "

  /** The initial base URL: the configured environment value, or '' when unset or empty. */
  function InitialBaseUrl(env: Option<string>): (url: string)
    ensures env.Some? && env.value != "" ==> url == env.value
    ensures env.None? || env.value == "" ==> url == ""
  {
    if env.Some? then OrDefault(env.value, "") else ""
  }

  /** JavaScript truthiness of a `string | null` read from storage. */
  predicate Present(s: Option<string>) { s.Some? && s.value != "" }

  /** `{action, token, ...data}`. */
  function Envelope(action: string, token: string, data: seq<Field>): seq<Field>
  {
    Spread([Field("action", Str(action)), Field("token", Str(token))], data)
  }

  /** Every property of `data` reaches the envelope unchanged; `action` and `token` hold the
      given values unless `data` carries a property of the same name, which then wins. */
  lemma EnvelopeLookup(action: string, token: string, data: seq<Field>, k: string)
    requires Distinct(Keys(data))
    ensures Lookup(Envelope(action, token, data), k) ==
            if k in Keys(data) then Lookup(data, k)
            else if k == "action" then Some(Str(action))
            else if k == "token" then Some(Str(token))
            else None
  {
    SpreadLookup([Field("action", Str(action)), Field("token", Str(token))], data, k);
  }

  /** The envelope's first two properties are `action` and `token`, its keys are those two
      and the keys of `data`, and no key occurs twice. */
  lemma EnvelopeKeys(action: string, token: string, data: seq<Field>)
    ensures |Envelope(action, token, data)| >= 2
    ensures Keys(Envelope(action, token, data))[..2] == ["action", "token"]
    ensures forall k :: k in Keys(Envelope(action, token, data)) <==>
                        k == "action" || k == "token" || k in Keys(data)
    ensures Distinct(Keys(Envelope(action, token, data)))
  {
    var target := [Field("action", Str(action)), Field("token", Str(token))];
    SpreadKeepsOrder(target, data);
    SpreadKeepsDistinct(target, data);
    forall k ensures k in Keys(Envelope(action, token, data)) <==>
                     k == "action" || k == "token" || k in Keys(data) {
      SpreadKeySet(target, data, k);
    }
  }

  datatype Request = Request(url: string, body: seq<Field>)

  /** The authentication check and the envelope: a request exists only when both stored
      credentials are present and non-empty; otherwise the call throws before any I/O. */
  function Authorize(token: Option<string>, url: Option<string>, action: string, data: seq<Field>)
    : (r: Result<Request, string>)
    ensures r.Failure? <==> !Present(token) || !Present(url)
    ensures r.Failure? ==> r.error == NotAuthenticated
    ensures r.Success? ==> r.value.url == url.value && r.value.body == Envelope(action, token.value, data)
  {
    if !Present(token) || !Present(url) then Failure(NotAuthenticated)
    else Success(Request(url.value, Envelope(action, token.value, data)))
  }

  /** What reading the response body gave: a parsed JSON value, or the parse error's message. */
  datatype Body = Parsed(value: Value) | Unparseable(message: string)

  datatype Response = Response(status: nat, body: Body)

  /** What a readable-mode request delivered: a rejected fetch (carrying the error's message)
      or an HTTP response. */
  datatype Transport = NetworkFailure(message: string) | Delivered(response: Response)

  /** What an opaque-mode (`no-cors`) request delivered: the response cannot be read, so only
      whether the fetch rejected is known. */
  datatype Dispatch = Dispatched | DispatchFailed(message: string)

  /** `response.ok`: a status in the range 200-299. */
  predicate IsOk(status: nat) { 200 <= status <= 299 }

  function RequestFailedMessage(status: nat): string
  {
    RequestFailedPrefix + NatToString(status)
  }

  /** The message of a non-ok status names that status in decimal. */
  lemma RequestFailedMessageStatus(status: nat)
    ensures RequestFailedMessage(status)[..|RequestFailedPrefix|] == RequestFailedPrefix
    ensures var digits := RequestFailedMessage(status)[|RequestFailedPrefix|..];
            AllDigits(digits) && DigitsValue(digits) == status
  {
    assert RequestFailedMessage(status)[|RequestFailedPrefix|..] == NatToString(status);
    NatToStringRoundTrip(status);
  }

  /** The body of `callAPIWithResponse` after the request is sent: a non-ok status throws its
      own message, the parsed body is returned as is, and every caught error is rethrown with
      its message or, when that is empty, the generic connection message. */
  function ReadResponse(t: Transport): (r: Result<Value, string>)
    ensures r.Failure? ==> r.error != ""
    ensures r.Success? <==> t.Delivered? && IsOk(t.response.status) && t.response.body.Parsed?
    ensures r.Success? ==> r.value == t.response.body.value
    ensures t.Delivered? && !IsOk(t.response.status) ==> r == Failure(RequestFailedMessage(t.response.status))
    ensures t.NetworkFailure? ==> r == Failure(OrDefault(t.message, ConnectFailure))
    ensures t.Delivered? && IsOk(t.response.status) && t.response.body.Unparseable? ==>
              r == Failure(OrDefault(t.response.body.message, ConnectFailure))
  {
    match t
    case NetworkFailure(m) => Failure(OrDefault(m, ConnectFailure))
    case Delivered(Response(status, body)) =>
      if !IsOk(status) then Failure(OrDefault(RequestFailedMessage(status), ConnectFailure))
      else
        match body
        case Parsed(v) => Success(v)
        case Unparseable(m) => Failure(OrDefault(m, ConnectFailure))
  }

  /** What a call sends, if anything, and what it settles to: its value or its error message. */
  datatype Exchange = Exchange(sent: Option<Request>, outcome: Result<Value, string>)

  /** `callAPIWithResponse(action, data)` given the stored credentials and what the transport
      delivers. The authentication error is thrown outside the `try`, before any request, so
      it is not reshaped; otherwise the envelope is posted to the stored URL. */
  function CallWithResponse(token: Option<string>, url: Option<string>, action: string,
                            data: seq<Field>, t: Transport): (x: Exchange)
    ensures !Present(token) || !Present(url) ==> x == Exchange(None, Failure(NotAuthenticated))
    ensures Present(token) && Present(url) ==>
              x.sent == Some(Request(url.value, Envelope(action, token.value, data))) &&
              x.outcome == ReadResponse(t)
    ensures x.outcome.Failure? ==> x.outcome.error != ""
  {
    match Authorize(token, url, action, data)
    case Failure(e) => Exchange(None, Failure(e))
    case Success(request) => Exchange(Some(request), ReadResponse(t))
  }

  /** Without credentials no request is issued: the outcome does not depend on the transport. */
  lemma UnauthenticatedCallsNeverReachTransport(token: Option<string>, url: Option<string>,
                                                action: string, data: seq<Field>,
                                                t1: Transport, t2: Transport, d1: Dispatch, d2: Dispatch)
    requires !Present(token) || !Present(url)
    ensures CallWithResponse(token, url, action, data, t1) == CallWithResponse(token, url, action, data, t2)
    ensures Call(token, url, action, data, d1) == Call(token, url, action, data, d2)
  {
  }

  /** `{success: true}`, the value `callAPI` resolves to. */
  const OpaqueSuccess := Obj([Field("success", Bool(true))])

  /** `callAPI(action, data)` in opaque mode: the envelope is posted to the stored URL, and once
      it is dispatched the call reports success whatever the remote side did; a rejected fetch
      is rethrown unchanged. */
  function Call(token: Option<string>, url: Option<string>, action: string,
                data: seq<Field>, d: Dispatch): (x: Exchange)
    ensures !Present(token) || !Present(url) ==> x == Exchange(None, Failure(NotAuthenticated))
    ensures Present(token) && Present(url) ==>
              x.sent == Some(Request(url.value, Envelope(action, token.value, data)))
    ensures Present(token) && Present(url) && d.Dispatched? ==> x.outcome == Success(OpaqueSuccess)
    ensures Present(token) && Present(url) && d.DispatchFailed? ==> x.outcome == Failure(d.message)
  {
    match Authorize(token, url, action, data)
    case Failure(e) => Exchange(None, Failure(e))
    case Success(request) =>
      match d
      case Dispatched => Exchange(Some(request), Success(OpaqueSuccess))
      case DispatchFailed(m) => Exchange(Some(request), Failure(m))
  }

  /** The `api` table: one entry per remote operation. */
  datatype Operation =
    | GenerateKitchenList(date: string, mealType: string, skipOrders: Option<seq<string>>)
    | GetOrders
    | GetDashboardStats
    | GetKitchenOrderList
    | UpdatePaymentStatus(orderNumber: string, paymentStatus: string)
    | UpdateOrderStatus(orderNumber: string, status: string)
    | CreateOrder(orderData: Value)

  function ActionName(op: Operation): string
  {
    match op
    case GenerateKitchenList(_, _, _) => "generateKitchenList"
    case GetOrders => "getOrders"
    case GetDashboardStats => "getDashboardStats"
    case GetKitchenOrderList => "getKitchenOrderList"
    case UpdatePaymentStatus(_, _) => "updatePaymentStatus"
    case UpdateOrderStatus(_, _) => "updateOrderStatus"
    case CreateOrder(_) => "createOrder"
  }

  function StringArray(xs: seq<string>): (v: Value)
    ensures v.Arr? && |v.items| == |xs| && forall i :: 0 <= i < |xs| ==> v.items[i] == Str(xs[i])
  {
    Arr(seq(|xs|, i requires 0 <= i < |xs| => Str(xs[i])))
  }

  /** The payload object of each operation; an omitted skip list is sent as `[]`. No payload
      carries an `action` or `token` property, and no key occurs twice. */
  function Payload(op: Operation): (p: seq<Field>)
    ensures Distinct(Keys(p))
    ensures "action" !in Keys(p) && "token" !in Keys(p)
    ensures op.GenerateKitchenList? ==>
              Keys(p) == ["date", "mealType", "skipOrders"] &&
              Lookup(p, "date") == Some(Str(op.date)) &&
              Lookup(p, "mealType") == Some(Str(op.mealType)) &&
              Lookup(p, "skipOrders") == Some(StringArray(op.skipOrders.GetOr([])))
    ensures op.GetOrders? || op.GetDashboardStats? || op.GetKitchenOrderList? ==> p == []
    ensures op.UpdatePaymentStatus? ==>
              Keys(p) == ["orderNumber", "paymentStatus"] &&
              Lookup(p, "orderNumber") == Some(Str(op.orderNumber)) &&
              Lookup(p, "paymentStatus") == Some(Str(op.paymentStatus))
    ensures op.UpdateOrderStatus? ==>
              Keys(p) == ["orderNumber", "status"] &&
              Lookup(p, "orderNumber") == Some(Str(op.orderNumber)) &&
              Lookup(p, "status") == Some(Str(op.status))
    ensures op.CreateOrder? ==> Keys(p) == ["orderData"] && Lookup(p, "orderData") == Some(op.orderData)
  {
    match op
    case GenerateKitchenList(date, mealType, skipOrders) =>
      [Field("date", Str(date)), Field("mealType", Str(mealType)),
       Field("skipOrders", StringArray(skipOrders.GetOr([])))]
    case GetOrders => []
    case GetDashboardStats => []
    case GetKitchenOrderList => []
    case UpdatePaymentStatus(orderNumber, paymentStatus) =>
      [Field("orderNumber", Str(orderNumber)), Field("paymentStatus", Str(paymentStatus))]
    case UpdateOrderStatus(orderNumber, status) =>
      [Field("orderNumber", Str(orderNumber)), Field("status", Str(status))]
    case CreateOrder(orderData) => [Field("orderData", orderData)]
  }

  /** The envelope of every operation names that operation's action and carries the stored
      token, with the operation's own fields beside them. */
  lemma OperationEnvelope(op: Operation, token: string, k: string)
    ensures Lookup(Envelope(ActionName(op), token, Payload(op)), "action") == Some(Str(ActionName(op)))
    ensures Lookup(Envelope(ActionName(op), token, Payload(op)), "token") == Some(Str(token))
    ensures k in Keys(Payload(op)) ==>
              Lookup(Envelope(ActionName(op), token, Payload(op)), k) == Lookup(Payload(op), k)
  {
    EnvelopeLookup(ActionName(op), token, Payload(op), "action");
    EnvelopeLookup(ActionName(op), token, Payload(op), "token");
    EnvelopeLookup(ActionName(op), token, Payload(op), k);
  }

  /** Each action name belongs to exactly one operation. */
  lemma ActionNamesDistinct(a: Operation, b: Operation)
    requires ActionName(a) == ActionName(b)
    ensures a.GenerateKitchenList? == b.GenerateKitchenList? && a.GetOrders? == b.GetOrders?
    ensures a.GetDashboardStats? == b.GetDashboardStats? && a.GetKitchenOrderList? == b.GetKitchenOrderList?
    ensures a.UpdatePaymentStatus? == b.UpdatePaymentStatus? && a.UpdateOrderStatus? == b.UpdateOrderStatus?
    ensures a.CreateOrder? == b.CreateOrder?
  {
  }

  /** A call to the credential store, recorded in the order it was made. */
  datatype StoreCall = TokenSet(token: string) | UrlSet(url: string) | Cleared

  /** What a view did, in order: a call into the credential store, or a call of the callback
      its parent passed in (`onLoginSuccess`, `onLogout`). */
  datatype ViewEvent = Stored(call: StoreCall) | Signalled

  /** `API_CONFIG` together with the browser's `localStorage`. `hasWindow` says whether the code
      runs in a browser (`typeof window !== 'undefined'`); without one, storage is never
      touched. `calls` records the writes made through this store, for callers' contracts. */
  class CredentialStore {
    var token: string
    var baseUrl: string
    var storage: map<string, string>
    const hasWindow: bool
    ghost var calls: seq<StoreCall>

    constructor (env: Option<string>, hasWindow: bool, storage: map<string, string>)
      ensures this.token == "" && this.baseUrl == InitialBaseUrl(env)
      ensures this.hasWindow == hasWindow && this.storage == storage && calls == []
    {
      this.token := "";
      this.baseUrl := InitialBaseUrl(env);
      this.hasWindow := hasWindow;
      this.storage := storage;
      calls := [];
    }

    /** `getAPIToken()`: null outside a browser or when the key is absent. */
    function GetApiToken(): Option<string>
      reads this
    {
      if hasWindow && TokenKey in storage then Some(storage[TokenKey]) else None
    }

    /** `getAPIURL()`: null outside a browser or when the key is absent. */
    function GetApiUrl(): Option<string>
      reads this
    {
      if hasWindow && UrlKey in storage then Some(storage[UrlKey]) else None
    }

    method SetApiToken(t: string)
      modifies this
      ensures token == t && baseUrl == old(baseUrl)
      ensures storage == if hasWindow then old(storage)[TokenKey := t] else old(storage)
      ensures GetApiToken() == if hasWindow then Some(t) else None
      ensures GetApiUrl() == old(GetApiUrl())
      ensures calls == old(calls) + [TokenSet(t)]
    {
      token := t;
      if hasWindow {
        storage := storage[TokenKey := t];
      }
      calls := calls + [TokenSet(t)];
    }

    method SetApiUrl(u: string)
      modifies this
      ensures baseUrl == u && token == old(token)
      ensures storage == if hasWindow then old(storage)[UrlKey := u] else old(storage)
      ensures GetApiUrl() == if hasWindow then Some(u) else None
      ensures GetApiToken() == old(GetApiToken())
      ensures calls == old(calls) + [UrlSet(u)]
    {
      baseUrl := u;
      if hasWindow {
        storage := storage[UrlKey := u];
      }
      calls := calls + [UrlSet(u)];
    }

    /** `clearAPIToken()`: empties the token and removes both keys, but leaves the base URL;
      afterwards every gateway call fails as unauthenticated. */
    method ClearApiToken()
      modifies this
      ensures token == "" && baseUrl == old(baseUrl)
      ensures storage == if hasWindow then old(storage) - {TokenKey, UrlKey} else old(storage)
      ensures GetApiToken() == None && GetApiUrl() == None
      ensures forall op, t :: Invoke(op, t) == Exchange(None, Failure(NotAuthenticated))
      ensures calls == old(calls) + [Cleared]
    {
      token := "";
      if hasWindow {
        storage := storage - {TokenKey, UrlKey};
      }
      calls := calls + [Cleared];
    }

    /** `callAPIWithResponse(action, data)` with the credentials read back from storage, not
        from the in-memory configuration. */
    function CallApiWithResponse(action: string, data: seq<Field>, t: Transport): (x: Exchange)
      reads this
      ensures !Present(GetApiToken()) || !Present(GetApiUrl()) ==>
                x == Exchange(None, Failure(NotAuthenticated))
      ensures Present(GetApiToken()) && Present(GetApiUrl()) ==>
                x.sent == Some(Request(storage[UrlKey], Envelope(action, storage[TokenKey], data))) &&
                x.outcome == ReadResponse(t)
      ensures x.outcome.Failure? ==> x.outcome.error != ""
    {
      CallWithResponse(GetApiToken(), GetApiUrl(), action, data, t)
    }

    /** `callAPI(action, data)` with the credentials read back from storage. */
    function CallApi(action: string, data: seq<Field>, d: Dispatch): (x: Exchange)
      reads this
      ensures !Present(GetApiToken()) || !Present(GetApiUrl()) ==>
                x == Exchange(None, Failure(NotAuthenticated))
      ensures Present(GetApiToken()) && Present(GetApiUrl()) ==>
                x.sent == Some(Request(storage[UrlKey], Envelope(action, storage[TokenKey], data)))
      ensures Present(GetApiToken()) && Present(GetApiUrl()) && d.Dispatched? ==>
                x.outcome == Success(OpaqueSuccess)
      ensures Present(GetApiToken()) && Present(GetApiUrl()) && d.DispatchFailed? ==>
                x.outcome == Failure(d.message)
      ensures x.outcome.Success? ==> x.outcome.value == OpaqueSuccess
    {
      Call(GetApiToken(), GetApiUrl(), action, data, d)
    }

    /** An entry of the `api` table: `callAPIWithResponse` with the operation's action name
        and payload. */
    function Invoke(op: Operation, t: Transport): (x: Exchange)
      reads this
      ensures !Present(GetApiToken()) || !Present(GetApiUrl()) ==>
                x == Exchange(None, Failure(NotAuthenticated))
      ensures Present(GetApiToken()) && Present(GetApiUrl()) ==>
                x.sent == Some(Request(GetApiUrl().value,
                                       Envelope(ActionName(op), GetApiToken().value, Payload(op)))) &&
                x.outcome == ReadResponse(t)
    {
      CallApiWithResponse(ActionName(op), Payload(op), t)
    }
  }

  /** An `api` entry called on a store holding both credentials posts, to the stored URL, an
      envelope naming the entry's action, carrying the stored token and every payload field. */
  lemma InvokeSendsOperation(store: CredentialStore, op: Operation, t: Transport, k: string)
    requires Present(store.GetApiToken()) && Present(store.GetApiUrl())
    ensures store.Invoke(op, t).sent.Some?
    ensures var request := store.Invoke(op, t).sent.value;
            request.url == store.storage[UrlKey] &&
            Lookup(request.body, "action") == Some(Str(ActionName(op))) &&
            Lookup(request.body, "token") == Some(Str(store.storage[TokenKey])) &&
            (k in Keys(Payload(op)) ==> Lookup(request.body, k) == Lookup(Payload(op), k))
  {
    OperationEnvelope(op, store.storage[TokenKey], k);
  }
}
