/** The Binance client (`BinanceClient`): one generator for spot and
    futures, the `price` field of the ticker, links built from the base. */
module Binance {
  import opened PyStr
  import opened Py
  import opened Base
  import opened Symbols
  import Probe

  const NAME := "binance"
  const SPOT_API := "https://api.binance.com/api/v3/ticker/price"
  const FUT_API := "https://fapi.binance.com/fapi/v1/ticker/price"

  /** `_generate_candidate_symbols`: a single symbol ending in `USDT`; an
      input that already ends in `USDT` once squashed is kept as it is, and
      `PERP` is not removed. */
  function CandidateSymbols(input: string): (r: seq<string>)
    ensures |r| == 1 && EndsWith(r[0], "USDT")
    ensures r[0] == Squash(input) <==> EndsWith(Squash(input), "USDT")
    ensures r[0] != Squash(input) ==> r[0] == Squash(input) + "USDT"
  {
    [WithQuote(Squash(input))]
  }

  /** The candidate carries no lower-case letter, space, `-` or `/`. */
  lemma CandidateClean(input: string)
    ensures var c := CandidateSymbols(input)[0];
      NoLower(c) && ' ' !in c && '-' !in c && '/' !in c
  {
    SquashClean(input);
    QuoteClean(Squash(input));
  }

  function SpotRequest(symbol: string): Request {
    Request("GET", SPOT_API, [("symbol", symbol)], None, Some(10.0))
  }

  function FuturesRequest(symbol: string): Request {
    Request("GET", FUT_API, [("symbol", symbol)], None, Some(10.0))
  }

  /** The price read from a reply, on both markets and in both the candidate
      loop and the known-symbol call: nothing unless the status is 200, the
      body non-empty and its `price` non-empty. */
  function PriceOf(reply: Reply): (r: Result<Option<Price>>)
    ensures reply.NoResponse? || reply.status != 200 ==> r == Ok(None)
    ensures reply.Response? && !Truthy(reply.body) ==> r == Ok(None)
    ensures (reply.Response? && reply.body.JObj? &&
             (Lookup(reply.body.fields, "price").None? || !Truthy(Lookup(reply.body.fields, "price").value))) ==> r == Ok(None)
    ensures r.Ok? && r.value.Some? ==>
      reply.Response? && reply.status == 200 && reply.body.JObj? &&
      Lookup(reply.body.fields, "price").Some? && Truthy(Lookup(reply.body.fields, "price").value) &&
      r.value.value == Price(Lookup(reply.body.fields, "price").value)
    ensures (reply.Response? && reply.status == 200 && reply.body.JObj? &&
             Lookup(reply.body.fields, "price").Some? && Truthy(Lookup(reply.body.fields, "price").value)) ==>
      r == FloatPrice(Lookup(reply.body.fields, "price").value)
    ensures reply.Response? && reply.status == 200 && Truthy(reply.body) && !reply.body.JObj? ==> r.Raised?
  {
    match reply
    case NoResponse => Ok(None)
    case Response(status, data) =>
      if status != 200 then Ok(None)
      else if !Truthy(data) then
        assert data.JObj? ==> Lookup(data.fields, "price") == None;
        Ok(None)
      else match Get(data, "price")
        case Raised(m) => Raised(m)
        case Ok(v) => if Truthy(v) then FloatPrice(v) else Ok(None)
  }

  function SpotLink(symbol: string): string {
    "https://www.binance.com/en/trade/" + LinkBase(symbol) + "_USDT?type=spot"
  }

  function FuturesLink(symbol: string): string {
    "https://www.binance.com/en/futures/" + LinkBase(symbol) + "USDT"
  }

  /** For a symbol `b + "USDT"` with a clean base, both links name `b`. */
  lemma LinksOf(b: string)
    requires NoLower(b) && !Contains(b, "USDT")
    ensures SpotLink(b + "USDT") == "https://www.binance.com/en/trade/" + b + "_USDT?type=spot"
    ensures FuturesLink(b + "USDT") == "https://www.binance.com/en/futures/" + b + "USDT"
  {
    LinkBaseOf(b);
  }

  function SpotResolution(t: Transport, token: string): Result<Option<Resolved>> {
    Probe.FirstSuccess(t, CandidateSymbols(token), SpotRequest, PriceOf, SpotLink)
  }

  function FuturesResolution(t: Transport, token: string): Result<Option<Resolved>> {
    Probe.FirstSuccess(t, CandidateSymbols(token), FuturesRequest, PriceOf, FuturesLink)
  }

  function SpotPriceOf(t: Transport, symbol: string): Result<Option<Price>> {
    Probe.Step(t, symbol, SpotRequest, PriceOf)
  }

  function FuturesPriceOf(t: Transport, symbol: string): Result<Option<Price>> {
    Probe.Step(t, symbol, FuturesRequest, PriceOf)
  }

  /** `get_spot_price`: exactly one ticker request, for the candidate. */
  method GetSpotPrice(t: Transport, token: string) returns (out: Result<Option<Resolved>>, ghost sent: seq<Request>)
    ensures out == SpotResolution(t, token)
    ensures sent == [SpotRequest(CandidateSymbols(token)[0])]
  {
    var c := CandidateSymbols(token)[0];
    assert CandidateSymbols(token) == [c];
    out, sent := Probe.ResolveSingle(t, c, SpotRequest, PriceOf, SpotLink);
  }

  /** `get_futures_price`: exactly one ticker request, for the candidate. */
  method GetFuturesPrice(t: Transport, token: string) returns (out: Result<Option<Resolved>>, ghost sent: seq<Request>)
    ensures out == FuturesResolution(t, token)
    ensures sent == [FuturesRequest(CandidateSymbols(token)[0])]
  {
    var c := CandidateSymbols(token)[0];
    assert CandidateSymbols(token) == [c];
    out, sent := Probe.ResolveSingle(t, c, FuturesRequest, PriceOf, FuturesLink);
  }

  /** `get_price_for_spot_symbol`: one request for exactly `symbol`. */
  method GetPriceForSpotSymbol(t: Transport, symbol: string) returns (r: Result<Option<Price>>, ghost sent: seq<Request>)
    ensures r == SpotPriceOf(t, symbol)
    ensures sent == [SpotRequest(symbol)]
  {
    r, sent := Probe.Fetch(t, symbol, SpotRequest, PriceOf);
  }

  /** `get_price_for_futures_symbol`: one request for exactly `symbol`. */
  method GetPriceForFuturesSymbol(t: Transport, symbol: string) returns (r: Result<Option<Price>>, ghost sent: seq<Request>)
    ensures r == FuturesPriceOf(t, symbol)
    ensures sent == [FuturesRequest(symbol)]
  {
    r, sent := Probe.Fetch(t, symbol, FuturesRequest, PriceOf);
  }
}
