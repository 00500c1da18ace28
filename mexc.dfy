/** The MEXC client (`MexcClient`): spot symbols `BASEUSDT`, two futures
    candidates `BASEUSDT` then `BASE_USDT`, and a futures payload whose
    `data` may be a list or a single ticker. */
module Mexc {
  import opened PyStr
  import opened Py
  import opened Base
  import opened Symbols
  import Probe

  const NAME := "mexc"
  const SPOT_API := "https://api.mexc.com/api/v3/ticker/price"
  const FUT_API := "https://contract.mexc.com/api/v1/contract/ticker"

  /** `_gen_spot`: a single symbol ending in `USDT`; an input already ending
      in `USDT` once squashed is kept. */
  function SpotCandidates(input: string): (r: seq<string>)
    ensures |r| == 1 && EndsWith(r[0], "USDT")
    ensures r[0] == Squash(input) <==> EndsWith(Squash(input), "USDT")
    ensures r[0] != Squash(input) ==> r[0] == Squash(input) + "USDT"
  {
    [WithQuote(Squash(input))]
  }

  /** The base of the futures candidates: `PERP` deleted everywhere, one
      trailing `USDT` dropped. */
  function PerpBase(input: string): string {
    DropQuote(Replace(Squash(input), "PERP", ""))
  }

  /** `_gen_perp`: exactly two candidates over one base, `BASEUSDT` first. */
  function PerpCandidates(input: string): (r: seq<string>)
    ensures |r| == 2
    ensures r[0] == PerpBase(input) + "USDT" && r[1] == PerpBase(input) + "_USDT"
  {
    var base := PerpBase(input);
    [base + "USDT", base + "_USDT"]
  }

  function SpotRequest(symbol: string): Request {
    Request("GET", SPOT_API, [("symbol", symbol)], None, Some(10.0))
  }

  function FuturesRequest(symbol: string): Request {
    Request("GET", FUT_API, [("symbol", symbol)], None, Some(10.0))
  }

  /** Spot price, in the candidate loop and the refresh: `price` unless it
      is absent or null. */
  function SpotPriceOf(reply: Reply): (r: Result<Option<Price>>)
    ensures reply.NoResponse? || reply.status != 200 ==> r == Ok(None)
    ensures (reply.Response? && reply.status == 200 && reply.body.JObj? &&
             Lookup(reply.body.fields, "price").Some? && Lookup(reply.body.fields, "price").value != JNull) ==>
      r == FloatPrice(Lookup(reply.body.fields, "price").value)
    ensures (reply.Response? && reply.status == 200 &&
             (!Truthy(reply.body) ||
              (reply.body.JObj? && (Lookup(reply.body.fields, "price").None? || Lookup(reply.body.fields, "price").value == JNull)))) ==>
      r == Ok(None)
    ensures reply.Response? && reply.status == 200 && Truthy(reply.body) && !reply.body.JObj? ==> r.Raised?
    ensures r.Ok? && r.value.Some? ==> reply.Response? && reply.status == 200 && r.value.value.source != JNull
  {
    match reply
    case NoResponse => Ok(None)
    case Response(status, body) =>
      if status != 200 then Ok(None)
      else match Get(Or(body, JObj([])), "price")
        case Raised(m) => Raised(m)
        case Ok(p) => if p == JNull then Ok(None) else FloatPrice(p)
  }

  /** The ticker of a futures payload's `data`: the first element of a list
      (nothing when empty), a dict itself, nothing otherwise. */
  function EntryOf(data: Json): (entry: Json)
    ensures data.JArr? && data.items != [] ==> entry == data.items[0]
    ensures data.JObj? ==> entry == data
    ensures !(data.JArr? && data.items != []) && !data.JObj? ==> entry == JNull
  {
    match data
    case JArr(items) => if items != [] then items[0] else JNull
    case JObj(_) => data
    case _ => JNull
  }

  /** Futures price, in the candidate loop and the refresh: the price of a
      truthy entry of `data`, nothing otherwise. */
  function FuturesPriceOf(reply: Reply): (r: Result<Option<Price>>)
    ensures reply.NoResponse? || reply.status != 200 ==> r == Ok(None)
    ensures r.Ok? && r.value.Some? ==> reply.Response? && reply.status == 200 && r.value.value.source != JNull
    ensures (reply.Response? && reply.status == 200 && reply.body.JObj? &&
             Lookup(reply.body.fields, "data").Some? && Truthy(EntryOf(Lookup(reply.body.fields, "data").value))) ==>
      r == Probe.LastPriceOr(EntryOf(Lookup(reply.body.fields, "data").value), "last")
    ensures (reply.Response? && reply.status == 200 &&
             (!Truthy(reply.body) ||
              (reply.body.JObj? && (Lookup(reply.body.fields, "data").None? ||
                                    !Truthy(EntryOf(Lookup(reply.body.fields, "data").value)))))) ==>
      r == Ok(None)
    ensures reply.Response? && reply.status == 200 && Truthy(reply.body) && !reply.body.JObj? ==> r.Raised?
  {
    match reply
    case NoResponse => Ok(None)
    case Response(status, body) =>
      if status != 200 then Ok(None)
      else match Get(Or(body, JObj([])), "data")
        case Raised(m) => Raised(m)
        case Ok(data) =>
          var entry := EntryOf(data);
          if !Truthy(entry) then Ok(None) else Probe.LastPriceOr(entry, "last")
  }

  /** A list payload and the same ticker sent as a dict read alike. */
  lemma ListOrDictAlike(status: int, e: Json, rest: seq<Json>)
    ensures FuturesPriceOf(Response(status, JObj([("data", JArr([e] + rest))]))) ==
            FuturesPriceOf(Response(status, JObj([("data", e)]))) || !e.JObj?
  {
    assert Lookup([("data", JArr([e] + rest))], "data") == Some(JArr([e] + rest));
    assert Lookup([("data", e)], "data") == Some(e);
  }

  function SpotLink(symbol: string): string {
    "https://www.mexc.com/exchange/" + LinkBase(symbol) + "_USDT"
  }

  /** `get_futures_link`: `USDT` becomes `_USDT` in a symbol that ends in
      `USDT` and has no `_`; any other symbol is used upper-cased. */
  function FuturesLink(symbol: string): string {
    var sym := Upper(symbol);
    var shown := if EndsWith(sym, "USDT") && !Contains(sym, "_") then Replace(sym, "USDT", "_USDT") else sym;
    "https://futures.mexc.com/exchange/" + shown
  }

  /** For a clean base, the spot link names it, and both futures candidates
      link to the same `BASE_USDT` page. */
  lemma LinksOf(b: string)
    requires NoLower(b) && !Contains(b, "USDT") && '_' !in b
    ensures SpotLink(b + "USDT") == "https://www.mexc.com/exchange/" + b + "_USDT"
    ensures FuturesLink(b + "USDT") == "https://futures.mexc.com/exchange/" + b + "_USDT"
    ensures FuturesLink(b + "_USDT") == "https://futures.mexc.com/exchange/" + b + "_USDT"
  {
    LinkBaseOf(b);
    PlainFuturesLink(b);
    UnderscoreFuturesLink(b);
  }

  lemma PlainFuturesLink(b: string)
    requires NoLower(b) && !Contains(b, "USDT") && '_' !in b
    ensures FuturesLink(b + "USDT") == "https://futures.mexc.com/exchange/" + b + "_USDT"
  {
    var c := b + "USDT";
    PlainSymbolFacts(b);
    assert FuturesLink(c) == "https://futures.mexc.com/exchange/" + (b + "_USDT");
  }

  lemma PlainSymbolFacts(b: string)
    requires NoLower(b) && !Contains(b, "USDT") && '_' !in b
    ensures Upper(b + "USDT") == b + "USDT"
    ensures EndsWith(b + "USDT", "USDT") && !Contains(b + "USDT", "_")
    ensures Replace(b + "USDT", "USDT", "_USDT") == b + "_USDT"
  {
    PlainSymbolUpper(b);
    PlainSymbolNoUnderscore(b);
    ReplaceQuoteSuffix(b, "_USDT");
  }

  lemma PlainSymbolUpper(b: string)
    requires NoLower(b)
    ensures Upper(b + "USDT") == b + "USDT"
  {
    QuoteKeepsNoLower(b);
    UpperIdentity(b + "USDT");
  }

  lemma PlainSymbolNoUnderscore(b: string)
    requires '_' !in b
    ensures !Contains(b + "USDT", "_")
  {
    var c := b + "USDT";
    assert '_' !in c;
    ContainsChar(c, '_');
  }

  lemma UnderscoreFuturesLink(b: string)
    requires NoLower(b)
    ensures FuturesLink(b + "_USDT") == "https://futures.mexc.com/exchange/" + b + "_USDT"
  {
    var u := b + "_USDT";
    forall i | |b| <= i < |u| ensures !IsLower(u[i]) {
      assert u[i] == "_USDT"[i - |b|];
    }
    UpperIdentity(u);
    assert u[|b|] == '_';
    ContainsChar(u, '_');
  }

  function SpotResolution(t: Transport, token: string): Result<Option<Resolved>> {
    Probe.FirstSuccess(t, SpotCandidates(token), SpotRequest, SpotPriceOf, SpotLink)
  }

  function FuturesResolution(t: Transport, token: string): Result<Option<Resolved>> {
    Probe.FirstSuccess(t, PerpCandidates(token), FuturesRequest, FuturesPriceOf, FuturesLink)
  }

  /** `get_spot_price`: one request, for the candidate. */
  method GetSpotPrice(t: Transport, token: string) returns (out: Result<Option<Resolved>>, ghost sent: seq<Request>)
    ensures out == SpotResolution(t, token)
    ensures sent == [SpotRequest(SpotCandidates(token)[0])]
  {
    var c := SpotCandidates(token)[0];
    assert SpotCandidates(token) == [c];
    out, sent := Probe.ResolveSingle(t, c, SpotRequest, SpotPriceOf, SpotLink);
  }

  /** `get_futures_price`: `BASEUSDT` is requested first; `BASE_USDT` is
      requested only when the first was skipped, and then wins or loses on
      its own. */
  method GetFuturesPrice(t: Transport, token: string) returns (out: Result<Option<Resolved>>, ghost sent: seq<Request>)
    ensures out == FuturesResolution(t, token)
    ensures var c := PerpCandidates(token);
      sent == [FuturesRequest(c[0])] +
              (if Probe.Step(t, c[0], FuturesRequest, FuturesPriceOf) == Ok(None) then [FuturesRequest(c[1])] else [])
    ensures var c := PerpCandidates(token);
      Probe.Step(t, c[0], FuturesRequest, FuturesPriceOf) == Ok(None) ==>
        out == Probe.FirstSuccess(t, [c[1]], FuturesRequest, FuturesPriceOf, FuturesLink)
  {
    var cands := PerpCandidates(token);
    assert cands == [cands[0], cands[1]];
    out, sent := Probe.ResolvePair(t, cands[0], cands[1], FuturesRequest, FuturesPriceOf, FuturesLink);
  }

  /** `get_price_for_spot_symbol` */
  method GetPriceForSpotSymbol(t: Transport, symbol: string) returns (r: Result<Option<Price>>, ghost sent: seq<Request>)
    ensures r == Probe.Step(t, symbol, SpotRequest, SpotPriceOf)
    ensures sent == [SpotRequest(symbol)]
  {
    r, sent := Probe.Fetch(t, symbol, SpotRequest, SpotPriceOf);
  }

  /** `get_price_for_futures_symbol` */
  method GetPriceForFuturesSymbol(t: Transport, symbol: string) returns (r: Result<Option<Price>>, ghost sent: seq<Request>)
    ensures r == Probe.Step(t, symbol, FuturesRequest, FuturesPriceOf)
    ensures sent == [FuturesRequest(symbol)]
  {
    r, sent := Probe.Fetch(t, symbol, FuturesRequest, FuturesPriceOf);
  }
}
