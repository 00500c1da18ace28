/** The shared part of every exchange client: the HTTP request with bounded
    retries (`BaseClient._request`) and the reference list of exchange names.
    The HTTP client is a `Transport`: for a call and an attempt number it
    says what that attempt gives. Sleeping is recorded as the list of delays
    that would be slept, in seconds. */
module Base {
  import opened Py

  /** `BaseClient.MAX_RETRIES` */
  const MAX_RETRIES: nat := 3

  /** What an exchange client asks `_request` for. `json` is the request
      body; `timeout` is the optional keyword argument. */
  datatype Request = Request(
    verb: string,
    url: string,
    params: seq<(string, string)>,
    json: Option<Json>,
    timeout: Option<real>)

  /** What `_request` hands to the HTTP client on every attempt. */
  datatype HttpCall = HttpCall(
    verb: string,
    url: string,
    params: seq<(string, string)>,
    json: Option<Json>,
    timeout: real)

  /** One attempt: a response of any status, a transport failure
      (`httpx.RequestError`), or any other exception, which is not caught. */
  datatype Attempt =
    | Answer(status: int, body: Json)
    | RequestError(reason: string)
    | OtherError(message: string)

  /** What `_request` returns: `None`, or the response. */
  datatype Reply = NoResponse | Response(status: int, body: Json)

  /** What a successful resolution returns: `(symbol, price, url)`. */
  datatype Resolved = Resolved(symbol: string, price: Price, url: string)

  /** The HTTP client: the outcome of attempt number `k` of a call. */
  type Transport = (HttpCall, nat) -> Attempt

  /** `timeout or 10` */
  function EffectiveTimeout(t: Option<real>): (r: real)
    ensures t.None? ==> r == 10.0
    ensures t.Some? && t.value == 0.0 ==> r == 10.0
    ensures t.Some? && t.value != 0.0 ==> r == t.value
  {
    match t
    case None => 10.0
    case Some(x) => if x == 0.0 then 10.0 else x
  }

  function Wire(req: Request): HttpCall {
    HttpCall(req.verb, req.url, req.params, req.json, EffectiveTimeout(req.timeout))
  }

  /** `BaseClient.get_supported_exchanges()` */
  function SupportedExchanges(): (r: seq<string>)
    ensures r == ["gate", "hyperliquid", "binance", "okx", "bybit", "mexc", "bitget"]
    ensures |r| == 7
    ensures forall i, j :: 0 <= i < j < |r| ==> r[i] != r[j]
  {
    ["gate", "hyperliquid", "binance", "okx", "bybit", "mexc", "bitget"]
  }

  /** The first attempt at or after `i` that does not fail at the transport
      level, or `MAX_RETRIES` when none does. */
  function FirstSettled(t: Transport, call: HttpCall, i: nat): (k: nat)
    requires i <= MAX_RETRIES
    ensures i <= k <= MAX_RETRIES
    ensures forall j :: i <= j < k ==> t(call, j).RequestError?
    ensures k < MAX_RETRIES ==> !t(call, k).RequestError?
    decreases MAX_RETRIES - i
  {
    if i == MAX_RETRIES then i
    else if t(call, i).RequestError? then FirstSettled(t, call, i + 1)
    else i
  }

  /** What `_request` gives when it starts at attempt `i`. */
  function DeliverFrom(t: Transport, call: HttpCall, i: nat): Result<Reply>
    requires i <= MAX_RETRIES
    decreases MAX_RETRIES - i
  {
    if i == MAX_RETRIES then Ok(NoResponse)
    else match t(call, i)
      case Answer(status, body) => Ok(Response(status, body))
      case OtherError(m) => Raised(m)
      case RequestError(_) => DeliverFrom(t, call, i + 1)
  }

  /** What `_request(req)` gives. */
  function Deliver(t: Transport, req: Request): Result<Reply> {
    DeliverFrom(t, Wire(req), 0)
  }

  /** `_request` returns what the first attempt that reaches the server (or
      raises something other than a transport error) gives, and `None` when
      all `MAX_RETRIES` attempts fail at the transport level. */
  lemma {:induction false} DeliverFromSettled(t: Transport, call: HttpCall, i: nat)
    requires i <= MAX_RETRIES
    ensures var k := FirstSettled(t, call, i);
      DeliverFrom(t, call, i) ==
        if k == MAX_RETRIES then Ok(NoResponse)
        else match t(call, k)
          case Answer(status, body) => Ok(Response(status, body))
          case OtherError(m) => Raised(m)
          case RequestError(_) => Ok(NoResponse)
    decreases MAX_RETRIES - i
  {
    if i < MAX_RETRIES && t(call, i).RequestError? {
      DeliverFromSettled(t, call, i + 1);
    }
  }

  /** The reply is `None` exactly when every attempt failed at the transport. */
  lemma DeliverNoResponse(t: Transport, req: Request)
    ensures Deliver(t, req) == Ok(NoResponse) <==>
      forall k :: 0 <= k < MAX_RETRIES ==> t(Wire(req), k).RequestError?
  {
    DeliverFromSettled(t, Wire(req), 0);
    var k := FirstSettled(t, Wire(req), 0);
    if k < MAX_RETRIES {
      assert !t(Wire(req), k).RequestError?;
    }
  }

  /** `BaseClient._request`: at most `MAX_RETRIES` attempts, the first
      response returned whatever its status, a delay of `1 + i` seconds after
      failed attempt `i` unless it was the last. */
  method Send(t: Transport, req: Request) returns (r: Result<Reply>, calls: seq<HttpCall>, delays: seq<int>)
    ensures r == Deliver(t, req)
    ensures 1 <= |calls| <= MAX_RETRIES
    ensures forall k :: 0 <= k < |calls| ==> calls[k] == Wire(req)
    ensures |calls| == FirstSettled(t, Wire(req), 0) + 1 || |calls| == MAX_RETRIES == FirstSettled(t, Wire(req), 0)
    ensures |delays| == |calls| - 1
    ensures forall k :: 0 <= k < |delays| ==> delays[k] == k + 1
  {
    var call := Wire(req);
    calls, delays := [], [];
    var attempt: nat := 0;
    while attempt < MAX_RETRIES
      invariant attempt <= MAX_RETRIES
      invariant |calls| == attempt
      invariant forall k :: 0 <= k < |calls| ==> calls[k] == call
      invariant forall k :: 0 <= k < attempt ==> t(call, k).RequestError?
      invariant DeliverFrom(t, call, attempt) == DeliverFrom(t, call, 0)
      invariant FirstSettled(t, call, attempt) == FirstSettled(t, call, 0)
      invariant |delays| == if attempt < MAX_RETRIES then attempt else MAX_RETRIES - 1
      invariant forall k :: 0 <= k < |delays| ==> delays[k] == k + 1
    {
      var outcome := t(call, attempt);
      calls := calls + [call];
      match outcome {
        case Answer(status, body) =>
          r := Ok(Response(status, body));
          return;
        case OtherError(m) =>
          r := Raised(m);
          return;
        case RequestError(_) =>
          if attempt + 1 < MAX_RETRIES {
            delays := delays + [1 + attempt];
          }
      }
      attempt := attempt + 1;
    }
    r := Ok(NoResponse);
  }
}
