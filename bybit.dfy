/** The Bybit client (`BybitClient`): one tickers endpoint with a `category`
    of `spot` or `linear`, and the first entry of `result.list` as the
    ticker. */
module Bybit {
  import opened PyStr
  import opened Py
  import opened Base
  import opened Symbols
  import Probe

  const NAME := "bybit"
  const SPOT_API := "https://api.bybit.com/v5/market/tickers"
  const FUT_API := "https://api.bybit.com/v5/market/tickers"

  /** `_generate_spot`: one trailing `USDT` dropped and put back. */
  function SpotCandidates(input: string): (r: seq<string>)
    ensures |r| == 1 && EndsWith(r[0], "USDT")
  {
    [DropQuote(Squash(input)) + "USDT"]
  }

  /** `_generate_perp`: the same after deleting every `PERP`. */
  function PerpCandidates(input: string): (r: seq<string>)
    ensures |r| == 1 && EndsWith(r[0], "USDT")
  {
    [DropQuote(Replace(Squash(input), "PERP", "")) + "USDT"]
  }

  /** The spot candidate is the squashed input when it already ends in
      `USDT`, and the squashed input with `USDT` appended otherwise. */
  lemma SpotCandidateIsQuoted(input: string)
    ensures SpotCandidates(input) == [WithQuote(Squash(input))]
  {
    DropThenQuote(Squash(input));
  }

  /** Without `PERP` in the input, the perp candidate is the spot one. */
  lemma PerpWithoutPerp(input: string)
    requires !Contains(Squash(input), "PERP")
    ensures PerpCandidates(input) == SpotCandidates(input)
  {
    ReplaceAbsent(Squash(input), "PERP", "");
  }

  function SpotRequest(symbol: string): Request {
    Request("GET", SPOT_API, [("category", "spot"), ("symbol", symbol)], None, Some(10.0))
  }

  function FuturesRequest(symbol: string): Request {
    Request("GET", FUT_API, [("category", "linear"), ("symbol", symbol)], None, Some(10.0))
  }

  /** The first ticker of `result.list`, or `None` when the reply is skipped.
      Spot reads `(body or {}).get("result") or {}`; futures reads
      `(body or {}).get("result", {})`, which keeps a null `result` and then
      fails on its `.get`. */
  function Entry(reply: Reply, spot: bool): (r: Result<Option<Json>>)
    ensures reply.NoResponse? || reply.status != 200 ==> r == Ok(None)
    ensures r.Ok? && r.value.Some? ==> reply.Response? && reply.status == 200
    ensures (reply.Response? && reply.status == 200 && reply.body.JObj? &&
             Lookup(reply.body.fields, "result") == Some(JNull)) ==> (if spot then r == Ok(None) else r.Raised?)
    ensures (reply.Response? && reply.status == 200 && reply.body.JObj? &&
             Lookup(reply.body.fields, "result").Some? && Lookup(reply.body.fields, "result").value.JObj? &&
             var res := Lookup(reply.body.fields, "result").value;
             Lookup(res.fields, "list").Some? && Lookup(res.fields, "list").value.JArr? &&
             Lookup(res.fields, "list").value.items != []) ==>
      r == Ok(Some(Lookup(Lookup(reply.body.fields, "result").value.fields, "list").value.items[0]))
    ensures (reply.Response? && reply.status == 200 && reply.body.JObj? &&
             Lookup(reply.body.fields, "result").Some? && Lookup(reply.body.fields, "result").value.JObj? &&
             var res := Lookup(reply.body.fields, "result").value;
             Lookup(res.fields, "list").None? || !Truthy(Lookup(res.fields, "list").value)) ==>
      r == Ok(None)
    ensures (reply.Response? && reply.status == 200 &&
             (!Truthy(reply.body) || (reply.body.JObj? && Lookup(reply.body.fields, "result").None?))) ==>
      r == Ok(None)
    ensures reply.Response? && reply.status == 200 && Truthy(reply.body) && !reply.body.JObj? ==> r.Raised?
    ensures (reply.Response? && reply.status == 200 && reply.body.JObj? &&
             Lookup(reply.body.fields, "result").Some? && !Lookup(reply.body.fields, "result").value.JObj?) ==>
      (if spot && !Truthy(Lookup(reply.body.fields, "result").value) then r == Ok(None) else r.Raised?)
  {
    match reply
    case NoResponse => Ok(None)
    case Response(status, body) =>
      if status != 200 then Ok(None)
      else
        var result := if spot then (match Get(Or(body, JObj([])), "result")
                                    case Raised(m) => Raised(m)
                                    case Ok(x) => Ok(Or(x, JObj([]))))
                      else GetOr(Or(body, JObj([])), "result", JObj([]));
        match result
        case Raised(m) => Raised(m)
        case Ok(res) =>
          match Get(res, "list")
          case Raised(m) => Raised(m)
          case Ok(l) =>
            var lst := Or(l, JArr([]));
            if !Truthy(lst) then Ok(None)
            else match Index0(lst)
              case Raised(m) => Raised(m)
              case Ok(first) => Ok(Some(first))
  }

  /** Futures price of a ticker: `lastPrice` only. */
  function FuturesPick(e: Json): (r: Result<Option<Price>>)
    ensures e.JObj? && Lookup(e.fields, "lastPrice").Some? && Lookup(e.fields, "lastPrice").value != JNull ==>
      r == FloatPrice(Lookup(e.fields, "lastPrice").value)
    ensures e.JObj? && (Lookup(e.fields, "lastPrice").None? || Lookup(e.fields, "lastPrice").value == JNull) ==> r == Ok(None)
    ensures !e.JObj? ==> r.Raised?
  {
    match Get(e, "lastPrice")
    case Raised(m) => Raised(m)
    case Ok(p) => if p == JNull then Ok(None) else FloatPrice(p)
  }

  /** The readings used in both the candidate loop and the refresh. */
  function SpotPriceOf(reply: Reply): Result<Option<Price>> {
    match Entry(reply, true)
    case Raised(m) => Raised(m)
    case Ok(None) => Ok(None)
    case Ok(Some(e)) => Probe.LastPriceOr(e, "price")
  }

  function FuturesPriceOf(reply: Reply): Result<Option<Price>> {
    match Entry(reply, false)
    case Raised(m) => Raised(m)
    case Ok(None) => Ok(None)
    case Ok(Some(e)) => FuturesPick(e)
  }

  /** On a ticker with a truthy `lastPrice` both markets read the same
      price; on one whose `lastPrice` is falsy but present and non-null, spot
      falls back to `price` while futures converts `lastPrice`. */
  lemma PicksAgreeOnTruthyLastPrice(e: Json)
    requires e.JObj? && Lookup(e.fields, "lastPrice").Some?
    ensures Truthy(Lookup(e.fields, "lastPrice").value) ==> Probe.LastPriceOr(e, "price") == FuturesPick(e)
    ensures var lp := Lookup(e.fields, "lastPrice").value;
      !Truthy(lp) && lp != JNull && Lookup(e.fields, "price").None? ==>
        Probe.LastPriceOr(e, "price") == Ok(None) && FuturesPick(e) == FloatPrice(lp)
  {
  }

  function SpotLink(symbol: string): string {
    "https://www.bybit.com/spot/trade/" + LinkBase(symbol) + "/USDT"
  }

  function FuturesLink(symbol: string): string {
    "https://www.bybit.com/trade/usdt/" + LinkBase(symbol) + "USDT"
  }

  /** For a symbol `b + "USDT"` with a clean base, both links name `b`. */
  lemma LinksOf(b: string)
    requires NoLower(b) && !Contains(b, "USDT")
    ensures SpotLink(b + "USDT") == "https://www.bybit.com/spot/trade/" + b + "/USDT"
    ensures FuturesLink(b + "USDT") == "https://www.bybit.com/trade/usdt/" + b + "USDT"
  {
    LinkBaseOf(b);
  }

  function SpotResolution(t: Transport, token: string): Result<Option<Resolved>> {
    Probe.FirstSuccess(t, SpotCandidates(token), SpotRequest, SpotPriceOf, SpotLink)
  }

  function FuturesResolution(t: Transport, token: string): Result<Option<Resolved>> {
    Probe.FirstSuccess(t, PerpCandidates(token), FuturesRequest, FuturesPriceOf, FuturesLink)
  }

  /** `get_spot_price`: one tickers request, for the candidate. */
  method GetSpotPrice(t: Transport, token: string) returns (out: Result<Option<Resolved>>, ghost sent: seq<Request>)
    ensures out == SpotResolution(t, token)
    ensures sent == [SpotRequest(SpotCandidates(token)[0])]
  {
    var c := SpotCandidates(token)[0];
    assert SpotCandidates(token) == [c];
    out, sent := Probe.ResolveSingle(t, c, SpotRequest, SpotPriceOf, SpotLink);
  }

  /** `get_futures_price`: one tickers request, for the candidate. */
  method GetFuturesPrice(t: Transport, token: string) returns (out: Result<Option<Resolved>>, ghost sent: seq<Request>)
    ensures out == FuturesResolution(t, token)
    ensures sent == [FuturesRequest(PerpCandidates(token)[0])]
  {
    var c := PerpCandidates(token)[0];
    assert PerpCandidates(token) == [c];
    out, sent := Probe.ResolveSingle(t, c, FuturesRequest, FuturesPriceOf, FuturesLink);
  }

  /** `get_price_for_spot_symbol` */
  method GetPriceForSpotSymbol(t: Transport, symbol: string) returns (r: Result<Option<Price>>, ghost sent: seq<Request>)
    ensures r == Probe.Step(t, symbol, SpotRequest, SpotPriceOf)
    ensures sent == [SpotRequest(symbol)]
  {
    r, sent := Probe.Fetch(t, symbol, SpotRequest, SpotPriceOf);
  }

  /** `get_price_for_futures_symbol` */
  method GetPriceForFuturesSymbol(t: Transport, symbol: string) returns (r: Result<Option<Price>>, ghost sent: seq<Request>)
    ensures r == Probe.Step(t, symbol, FuturesRequest, FuturesPriceOf)
    ensures sent == [FuturesRequest(symbol)]
  {
    r, sent := Probe.Fetch(t, symbol, FuturesRequest, FuturesPriceOf);
  }
}
