/** The Bitget client (`BitgetClient`): spot symbols `BASEUSDT` looked up by
    scanning the returned ticker list for the requested symbol, futures
    symbols `BASEUSDT_UMCBL` with the `umcbl` product type. */
module Bitget {
  import opened PyStr
  import opened Py
  import opened Base
  import opened Symbols
  import Probe

  const NAME := "bitget"
  const BASE_API := "https://api.bitget.com/api"

  /** `_gen_spot`: a single symbol ending in `USDT`. */
  function SpotCandidates(input: string): (r: seq<string>)
    ensures |r| == 1 && EndsWith(r[0], "USDT")
    ensures r[0] == Squash(input) <==> EndsWith(Squash(input), "USDT")
    ensures r[0] != Squash(input) ==> r[0] == Squash(input) + "USDT"
  {
    [WithQuote(Squash(input))]
  }

  /** `_gen_perp`: a single symbol ending in `USDT_UMCBL`. */
  function PerpCandidates(input: string): (r: seq<string>)
    ensures |r| == 1 && EndsWith(r[0], "USDT_UMCBL")
  {
    [DropQuote(Replace(Squash(input), "PERP", "")) + "USDT_UMCBL"]
  }

  /** Without `PERP` in the input, the perp symbol is the spot symbol with
      `_UMCBL` appended. */
  lemma PerpIsSpotUmcbl(input: string)
    requires !Contains(Squash(input), "PERP")
    ensures PerpCandidates(input)[0] == SpotCandidates(input)[0] + "_UMCBL"
  {
    var s := Squash(input);
    ReplaceAbsent(s, "PERP", "");
    UmcblOfQuoted(s);
  }

  /** Dropping a trailing `USDT` and appending `USDT_UMCBL` is the spot rule
      followed by `_UMCBL`. */
  lemma UmcblOfQuoted(s: string)
    ensures DropQuote(s) + "USDT_UMCBL" == WithQuote(s) + "_UMCBL"
  {
    DropThenQuote(s);
    var d := DropQuote(s);
    assert "USDT_UMCBL" == "USDT" + "_UMCBL";
    assert d + ("USDT" + "_UMCBL") == (d + "USDT") + "_UMCBL";
  }

  function SpotRequest(symbol: string): Request {
    Request("GET", BASE_API + "/spot/v1/market/tickers", [("symbol", symbol)], None, Some(10.0))
  }

  function FuturesRequest(symbol: string): Request {
    Request("GET", BASE_API + "/mix/v1/market/ticker", [("symbol", symbol), ("productType", "umcbl")], None, Some(10.0))
  }

  /** The first item whose `symbol` equals `symbol`; an item without `.get`
      met before a match raises. */
  function Matching(items: seq<Json>, symbol: string): (r: Result<Option<Json>>)
    ensures r.Ok? && r.value.Some? ==>
      r.value.value in items && r.value.value.JObj? && Lookup(r.value.value.fields, "symbol") == Some(JStr(symbol))
    ensures r == Ok(None) ==>
      forall i :: 0 <= i < |items| ==> items[i].JObj? && Lookup(items[i].fields, "symbol") != Some(JStr(symbol))
    ensures (forall i :: 0 <= i < |items| ==> items[i].JObj? && Lookup(items[i].fields, "symbol") != Some(JStr(symbol))) ==>
      r == Ok(None)
    ensures r.Ok? && r.value.Some? ==>
      exists i :: 0 <= i < |items| && items[i] == r.value.value && PassedBefore(items, symbol, i)
    ensures r.Raised? ==>
      exists i :: 0 <= i < |items| && !items[i].JObj? && PassedBefore(items, symbol, i)
    decreases |items|
  {
    if items == [] then Ok(None)
    else match Get(items[0], "symbol")
      case Raised(m) => Raised(m)
      case Ok(v) =>
        if v == JStr(symbol) then Ok(Some(items[0]))
        else
          PassedShift(items, symbol);
          Matching(items[1..], symbol)
  }

  /** An item the scan passes over shifts every position of the rest by one. */
  lemma PassedShift(items: seq<Json>, symbol: string)
    requires items != [] && items[0].JObj? && Lookup(items[0].fields, "symbol") != Some(JStr(symbol))
    ensures forall i :: 0 <= i < |items| && PassedBefore(items[1..], symbol, i) ==> PassedBefore(items, symbol, i + 1)
  {
    forall i | 0 <= i < |items| && PassedBefore(items[1..], symbol, i)
      ensures PassedBefore(items, symbol, i + 1)
    {
      forall j | 0 <= j < i + 1
        ensures items[j].JObj? && Lookup(items[j].fields, "symbol") != Some(JStr(symbol))
      {
        if j > 0 { assert items[j] == items[1..][j - 1]; }
      }
    }
  }

  /** Every item before position `i` is a dict whose `symbol` is not
      `symbol`: the scan passed over it. */
  predicate PassedBefore(items: seq<Json>, symbol: string, i: nat)
    requires i <= |items|
  {
    forall j :: 0 <= j < i ==> items[j].JObj? && Lookup(items[j].fields, "symbol") != Some(JStr(symbol))
  }

  /** The scan `for item in data: if item.get("symbol") == symbol: entry = item; break`. */
  method FindEntry(items: seq<Json>, symbol: string) returns (r: Result<Option<Json>>)
    ensures r == Matching(items, symbol)
  {
    r := Ok(None);
    var i := 0;
    while i < |items|
      invariant 0 <= i <= |items|
      invariant Matching(items[i..], symbol) == Matching(items, symbol)
    {
      assert items[i..][1..] == items[i + 1..];
      var v := Get(items[i], "symbol");
      if v.Raised? {
        r := Raised(v.message);
        return;
      }
      if v.value == JStr(symbol) {
        r := Ok(Some(items[i]));
        break;
      }
      i := i + 1;
    }
  }

  /** `(r.json() or {}).get("data") or []`, iterated. */
  function SpotItems(body: Json): Result<seq<Json>> {
    match Get(Or(body, JObj([])), "data")
    case Raised(m) => Raised(m)
    case Ok(d) => Iterate(Or(d, JArr([])))
  }

  /** A matched ticker's price: `close`, or `last` when that is falsy. */
  function SpotPick(e: Json): (r: Result<Option<Price>>)
    requires e.JObj?
    ensures Lookup(e.fields, "close").Some? && Truthy(Lookup(e.fields, "close").value) ==>
      r == FloatPrice(Lookup(e.fields, "close").value)
    ensures !(Lookup(e.fields, "close").Some? && Truthy(Lookup(e.fields, "close").value)) ==>
      r == (match Lookup(e.fields, "last")
            case None => Ok(None)
            case Some(p) => if p == JNull then Ok(None) else FloatPrice(p))
  {
    var close := Get(e, "close").value;
    var price := if Truthy(close) then close else Get(e, "last").value;
    if price == JNull then Ok(None) else FloatPrice(price)
  }

  /** Spot reading of a reply for `symbol`, in the candidate loop and the
      refresh alike. */
  function SpotPriceOf(symbol: string, reply: Reply): (r: Result<Option<Price>>)
    ensures reply.NoResponse? || reply.status != 200 ==> r == Ok(None)
    ensures (reply.Response? && reply.status == 200 && SpotItems(reply.body).Ok? &&
             Matching(SpotItems(reply.body).value, symbol) == Ok(None)) ==> r == Ok(None)
    ensures (reply.Response? && reply.status == 200 && SpotItems(reply.body).Ok? &&
             Matching(SpotItems(reply.body).value, symbol).Ok? && Matching(SpotItems(reply.body).value, symbol).value.Some?) ==>
      r == SpotPick(Matching(SpotItems(reply.body).value, symbol).value.value)
    ensures (reply.Response? && reply.status == 200 && SpotItems(reply.body).Ok? &&
             Matching(SpotItems(reply.body).value, symbol).Raised?) ==>
      r == Raised(Matching(SpotItems(reply.body).value, symbol).message)
    ensures reply.Response? && reply.status == 200 && SpotItems(reply.body).Raised? ==>
      r == Raised(SpotItems(reply.body).message)
  {
    match reply
    case NoResponse => Ok(None)
    case Response(status, body) =>
      if status != 200 then Ok(None)
      else match SpotItems(body)
        case Raised(m) => Raised(m)
        case Ok(items) =>
          match Matching(items, symbol)
          case Raised(m) => Raised(m)
          case Ok(None) => Ok(None)
          case Ok(Some(e)) => SpotPick(e)
  }

  function SpotReader(symbol: string): Reply -> Result<Option<Price>> {
    reply => SpotPriceOf(symbol, reply)
  }

  /** The spot reading as the client performs it, scanning with `FindEntry`. */
  method ReadSpot(symbol: string, reply: Reply) returns (r: Result<Option<Price>>)
    ensures r == SpotPriceOf(symbol, reply)
  {
    if reply.NoResponse? || reply.status != 200 {
      return Ok(None);
    }
    var items := SpotItems(reply.body);
    if items.Raised? {
      return Raised(items.message);
    }
    var entry := FindEntry(items.value, symbol);
    match entry {
      case Raised(m) => r := Raised(m);
      case Ok(None) => r := Ok(None);
      case Ok(Some(e)) => r := SpotPick(e);
    }
  }

  /** Futures reading: `data.last` of `(body or {}).get("data") or {}`. */
  function FuturesPriceOf(reply: Reply): (r: Result<Option<Price>>)
    ensures reply.NoResponse? || reply.status != 200 ==> r == Ok(None)
    ensures r.Ok? && r.value.Some? ==> reply.Response? && reply.status == 200 && r.value.value.source != JNull
    ensures (reply.Response? && reply.status == 200 && reply.body.JObj? &&
             Lookup(reply.body.fields, "data").Some? && Lookup(reply.body.fields, "data").value.JObj? &&
             Lookup(Lookup(reply.body.fields, "data").value.fields, "last").Some? &&
             Lookup(Lookup(reply.body.fields, "data").value.fields, "last").value != JNull) ==>
      r == FloatPrice(Lookup(Lookup(reply.body.fields, "data").value.fields, "last").value)
    ensures (reply.Response? && reply.status == 200 && reply.body.JObj? &&
             Lookup(reply.body.fields, "data").Some? && Lookup(reply.body.fields, "data").value.JObj? &&
             Lookup(Lookup(reply.body.fields, "data").value.fields, "last") in {None, Some(JNull)}) ==>
      r == Ok(None)
    ensures (reply.Response? && reply.status == 200 &&
             (!Truthy(reply.body) ||
              (reply.body.JObj? && (Lookup(reply.body.fields, "data").None? ||
                                    !Truthy(Lookup(reply.body.fields, "data").value))))) ==>
      r == Ok(None)
    ensures reply.Response? && reply.status == 200 && Truthy(reply.body) && !reply.body.JObj? ==> r.Raised?
    ensures (reply.Response? && reply.status == 200 && reply.body.JObj? &&
             Lookup(reply.body.fields, "data").Some? && Truthy(Lookup(reply.body.fields, "data").value) &&
             !Lookup(reply.body.fields, "data").value.JObj?) ==>
      r.Raised?
  {
    match reply
    case NoResponse => Ok(None)
    case Response(status, body) =>
      if status != 200 then Ok(None)
      else match Get(Or(body, JObj([])), "data")
        case Raised(m) => Raised(m)
        case Ok(d) =>
          match Get(Or(d, JObj([])), "last")
          case Raised(m) => Raised(m)
          case Ok(p) => if p == JNull then Ok(None) else FloatPrice(p)
  }

  function SpotLink(symbol: string): string {
    "https://www.bitget.com/spot/" + LinkBase(symbol) + "USDT_SPBL"
  }

  function FuturesLink(symbol: string): string {
    "https://www.bitget.com/futures/usdt/" + symbol
  }

  /** For a symbol `b + "USDT"` with a clean base, the spot link names `b`. */
  lemma SpotLinkOf(b: string)
    requires NoLower(b) && !Contains(b, "USDT")
    ensures SpotLink(b + "USDT") == "https://www.bitget.com/spot/" + b + "USDT_SPBL"
  {
    LinkBaseOf(b);
  }

  function SpotResolution(t: Transport, token: string): Result<Option<Resolved>> {
    var cands := SpotCandidates(token);
    Probe.FirstSuccess(t, cands, SpotRequest, SpotReader(cands[0]), SpotLink)
  }

  function FuturesResolution(t: Transport, token: string): Result<Option<Resolved>> {
    Probe.FirstSuccess(t, PerpCandidates(token), FuturesRequest, FuturesPriceOf, FuturesLink)
  }

  /** The spot price a resolution found is what the ticker scan reads for
      its symbol. */
  lemma SpotResolvedPrice(t: Transport, token: string, x: Resolved)
    requires SpotResolution(t, token) == Ok(Some(x))
    ensures Probe.Step(t, x.symbol, SpotRequest, SpotReader(x.symbol)) == Ok(Some(x.price))
  {
    var cands := SpotCandidates(token);
    Probe.FirstSuccessFound(t, cands, SpotRequest, SpotReader(cands[0]), SpotLink, x);
  }

  /** `get_spot_price`: the candidate loop with the ticker scan inside. */
  method GetSpotPrice(t: Transport, token: string) returns (out: Result<Option<Resolved>>, ghost sent: seq<Request>)
    ensures out == SpotResolution(t, token)
    ensures sent == [SpotRequest(SpotCandidates(token)[0])]
  {
    var cands := SpotCandidates(token);
    Probe.SingleCandidate(t, cands[0], SpotRequest, SpotReader(cands[0]), SpotLink);
    sent := [];
    var i := 0;
    while i < |cands|
      invariant 0 <= i <= |cands|
      invariant sent == if i == 0 then [] else [SpotRequest(cands[0])]
      invariant i == 1 ==> Probe.Step(t, cands[0], SpotRequest, SpotReader(cands[0])) == Ok(None)
    {
      var symbol := cands[i];
      var reply, _, _ := Send(t, SpotRequest(symbol));
      sent := sent + [SpotRequest(symbol)];
      if reply.Raised? {
        out := Raised(reply.message);
        return;
      }
      var price := ReadSpot(symbol, reply.value);
      match price {
        case Raised(m) =>
          out := Raised(m);
          return;
        case Ok(None) =>
        case Ok(Some(p)) =>
          out := Ok(Some(Resolved(symbol, p, SpotLink(symbol))));
          return;
      }
      i := i + 1;
    }
    out := Ok(None);
  }

  /** `get_futures_price`: one ticker request, for the candidate. */
  method GetFuturesPrice(t: Transport, token: string) returns (out: Result<Option<Resolved>>, ghost sent: seq<Request>)
    ensures out == FuturesResolution(t, token)
    ensures sent == [FuturesRequest(PerpCandidates(token)[0])]
  {
    var c := PerpCandidates(token)[0];
    assert PerpCandidates(token) == [c];
    out, sent := Probe.ResolveSingle(t, c, FuturesRequest, FuturesPriceOf, FuturesLink);
  }

  /** `get_price_for_spot_symbol`: one request for exactly `symbol`, read by
      scanning for `symbol`. */
  method GetPriceForSpotSymbol(t: Transport, symbol: string) returns (r: Result<Option<Price>>, ghost sent: seq<Request>)
    ensures r == Probe.Step(t, symbol, SpotRequest, SpotReader(symbol))
    ensures sent == [SpotRequest(symbol)]
  {
    var reply, _, _ := Send(t, SpotRequest(symbol));
    sent := [SpotRequest(symbol)];
    if reply.Raised? {
      return Raised(reply.message), sent;
    }
    r := ReadSpot(symbol, reply.value);
  }

  /** `get_price_for_futures_symbol` */
  method GetPriceForFuturesSymbol(t: Transport, symbol: string) returns (r: Result<Option<Price>>, ghost sent: seq<Request>)
    ensures r == Probe.Step(t, symbol, FuturesRequest, FuturesPriceOf)
    ensures sent == [FuturesRequest(symbol)]
  {
    r, sent := Probe.Fetch(t, symbol, FuturesRequest, FuturesPriceOf);
  }
}
