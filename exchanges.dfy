/** The seven exchange clients as one closed family: the name each client
    registers under, and the four calls the monitor makes on any client
    (`get_spot_price`, `get_futures_price`, `get_price_for_spot_symbol`,
    `get_price_for_futures_symbol`), dispatched on the market type. */
module Exchanges {
  import opened Py
  import opened Base
  import Probe
  import Gate
  import Binance
  import Okx
  import Bybit
  import Mexc
  import Bitget
  import Hyperliquid

  /** One client per exchange class. */
  datatype Exchange =
    | GateClient
    | HyperliquidClient
    | BinanceClient
    | OkxClient
    | BybitClient
    | MexcClient
    | BitgetClient

  const PERP := "perp"
  const SPOT := "spot"

  /** `client.name` */
  function Name(e: Exchange): string {
    match e
    case GateClient => Gate.NAME
    case HyperliquidClient => Hyperliquid.NAME
    case BinanceClient => Binance.NAME
    case OkxClient => Okx.NAME
    case BybitClient => Bybit.NAME
    case MexcClient => Mexc.NAME
    case BitgetClient => Bitget.NAME
  }

  /** The client registered under a name, if any. */
  function FromName(n: string): (r: Option<Exchange>)
    ensures r.Some? ==> Name(r.value) == n
    ensures r.None? ==> forall e :: Name(e) != n
  {
    if n == Gate.NAME then Some(GateClient)
    else if n == Hyperliquid.NAME then Some(HyperliquidClient)
    else if n == Binance.NAME then Some(BinanceClient)
    else if n == Okx.NAME then Some(OkxClient)
    else if n == Bybit.NAME then Some(BybitClient)
    else if n == Mexc.NAME then Some(MexcClient)
    else if n == Bitget.NAME then Some(BitgetClient)
    else None
  }

  /** The client names are exactly the supported-exchange list, each
      client's name its own. */
  lemma NamesAreSupported()
    ensures forall e :: Name(e) in SupportedExchanges()
    ensures forall n :: n in SupportedExchanges() ==> FromName(n).Some?
    ensures forall e1, e2 :: Name(e1) == Name(e2) ==> e1 == e2
  {
    var names := SupportedExchanges();
    assert names == [Gate.NAME, Hyperliquid.NAME, Binance.NAME, Okx.NAME, Bybit.NAME, Mexc.NAME, Bitget.NAME];
    forall e1, e2 | Name(e1) == Name(e2) ensures e1 == e2 {
      assert FromName(Name(e1)) == Some(e1) && FromName(Name(e2)) == Some(e2);
    }
  }

  // ----- resolution -----

  /** `get_futures_price(token)` of a client. */
  ghost function FuturesResolution(t: Transport, e: Exchange, token: string): Result<Option<Resolved>> {
    match e
    case GateClient => Gate.FuturesResolution(t, token)
    case HyperliquidClient => Hyperliquid.FuturesResolution(t, token)
    case BinanceClient => Binance.FuturesResolution(t, token)
    case OkxClient => Okx.FuturesResolution(t, token)
    case BybitClient => Bybit.FuturesResolution(t, token)
    case MexcClient => Mexc.FuturesResolution(t, token)
    case BitgetClient => Bitget.FuturesResolution(t, token)
  }

  /** `get_spot_price(token)` of a client. */
  function SpotResolution(t: Transport, e: Exchange, token: string): Result<Option<Resolved>> {
    match e
    case GateClient => Gate.SpotResolution(t, token)
    case HyperliquidClient => Ok(None)
    case BinanceClient => Binance.SpotResolution(t, token)
    case OkxClient => Okx.SpotResolution(t, token)
    case BybitClient => Bybit.SpotResolution(t, token)
    case MexcClient => Mexc.SpotResolution(t, token)
    case BitgetClient => Bitget.SpotResolution(t, token)
  }

  /** What `query` awaits for one client: the futures resolution for `perp`,
      the spot resolution for `spot`, and nothing for any other market. */
  ghost function Resolution(t: Transport, e: Exchange, market: string, token: string): Option<Result<Option<Resolved>>> {
    if market == PERP then Some(FuturesResolution(t, e, token))
    else if market == SPOT then Some(SpotResolution(t, e, token))
    else None
  }

  method GetFuturesPrice(t: Transport, e: Exchange, token: string) returns (r: Result<Option<Resolved>>)
    ensures r == FuturesResolution(t, e, token)
  {
    ghost var sent: seq<Request>;
    match e {
      case GateClient => r, sent := Gate.GetFuturesPrice(t, token);
      case HyperliquidClient => r, sent := Hyperliquid.GetFuturesPrice(t, token);
      case BinanceClient => r, sent := Binance.GetFuturesPrice(t, token);
      case OkxClient => r, sent := Okx.GetFuturesPrice(t, token);
      case BybitClient => r, sent := Bybit.GetFuturesPrice(t, token);
      case MexcClient => r, sent := Mexc.GetFuturesPrice(t, token);
      case BitgetClient => r, sent := Bitget.GetFuturesPrice(t, token);
    }
  }

  method GetSpotPrice(t: Transport, e: Exchange, token: string) returns (r: Result<Option<Resolved>>)
    ensures r == SpotResolution(t, e, token)
  {
    ghost var sent: seq<Request>;
    match e {
      case GateClient => r, sent := Gate.GetSpotPrice(t, token);
      case HyperliquidClient => r, sent := Hyperliquid.GetSpotPrice(token);
      case BinanceClient => r, sent := Binance.GetSpotPrice(t, token);
      case OkxClient => r, sent := Okx.GetSpotPrice(t, token);
      case BybitClient => r, sent := Bybit.GetSpotPrice(t, token);
      case MexcClient => r, sent := Mexc.GetSpotPrice(t, token);
      case BitgetClient => r, sent := Bitget.GetSpotPrice(t, token);
    }
  }

  /** The call `query` makes on one client, if the market names one. */
  method Resolve(t: Transport, e: Exchange, market: string, token: string) returns (r: Option<Result<Option<Resolved>>>)
    ensures r == Resolution(t, e, market, token)
    ensures r.None? <==> market != PERP && market != SPOT
  {
    if market == PERP {
      var x := GetFuturesPrice(t, e, token);
      r := Some(x);
    } else if market == SPOT {
      var x := GetSpotPrice(t, e, token);
      r := Some(x);
    } else {
      r := None;
    }
  }

  // ----- known-symbol prices -----

  /** `get_price_for_futures_symbol` / `get_price_for_spot_symbol` for the
      market, and `None` for any other market. */
  function KnownPrice(t: Transport, e: Exchange, market: string, symbol: string): Result<Option<Price>> {
    if market == PERP then
      match e
      case GateClient => Gate.FuturesPriceOf(t, symbol)
      case HyperliquidClient => Hyperliquid.MidPrice(t, symbol)
      case BinanceClient => Binance.FuturesPriceOf(t, symbol)
      case OkxClient => Okx.PriceOf(t, symbol)
      case BybitClient => Probe.Step(t, symbol, Bybit.FuturesRequest, Bybit.FuturesPriceOf)
      case MexcClient => Probe.Step(t, symbol, Mexc.FuturesRequest, Mexc.FuturesPriceOf)
      case BitgetClient => Probe.Step(t, symbol, Bitget.FuturesRequest, Bitget.FuturesPriceOf)
    else if market == SPOT then
      match e
      case GateClient => Gate.SpotPriceOf(t, symbol)
      case HyperliquidClient => Ok(None)
      case BinanceClient => Binance.SpotPriceOf(t, symbol)
      case OkxClient => Okx.PriceOf(t, symbol)
      case BybitClient => Probe.Step(t, symbol, Bybit.SpotRequest, Bybit.SpotPriceOf)
      case MexcClient => Probe.Step(t, symbol, Mexc.SpotRequest, Mexc.SpotPriceOf)
      case BitgetClient => Probe.Step(t, symbol, Bitget.SpotRequest, Bitget.SpotReader(symbol))
    else Ok(None)
  }

  /** The requests a known-symbol price call makes: one ticker request for
      the symbol, one `allMids` request on Hyperliquid futures, none on
      Hyperliquid spot or an unknown market. */
  function PriceRequests(e: Exchange, market: string, symbol: string): (r: seq<Request>)
    ensures |r| <= 1
    ensures r == [] <==> (market != PERP && market != SPOT) || (market == SPOT && e == HyperliquidClient)
  {
    if market == PERP then
      match e
      case GateClient => [Gate.FxTickerRequest(symbol)]
      case HyperliquidClient => [Hyperliquid.MidsRequest()]
      case BinanceClient => [Binance.FuturesRequest(symbol)]
      case OkxClient => [Okx.TickerRequest(symbol)]
      case BybitClient => [Bybit.FuturesRequest(symbol)]
      case MexcClient => [Mexc.FuturesRequest(symbol)]
      case BitgetClient => [Bitget.FuturesRequest(symbol)]
    else if market == SPOT then
      match e
      case GateClient => [Gate.SpotTickerRequest(symbol)]
      case HyperliquidClient => []
      case BinanceClient => [Binance.SpotRequest(symbol)]
      case OkxClient => [Okx.TickerRequest(symbol)]
      case BybitClient => [Bybit.SpotRequest(symbol)]
      case MexcClient => [Mexc.SpotRequest(symbol)]
      case BitgetClient => [Bitget.SpotRequest(symbol)]
    else []
  }

  /** A known-symbol call on Gate never makes an existence check. */
  lemma KnownPriceSkipsCheck(market: string, symbol: string, s: string)
    ensures Gate.CheckFutureRequest(s) !in PriceRequests(GateClient, market, symbol)
    ensures Gate.CheckSpotRequest(s) !in PriceRequests(GateClient, market, symbol)
  {
  }

  /** The call `fetch_prices_for_known_symbols` makes on one client. */
  method FetchKnownPrice(t: Transport, e: Exchange, market: string, symbol: string)
    returns (r: Result<Option<Price>>, ghost sent: seq<Request>)
    ensures r == KnownPrice(t, e, market, symbol)
    ensures sent == PriceRequests(e, market, symbol)
  {
    if market == PERP {
      match e {
        case GateClient => r, sent := Gate.GetPriceForFuturesSymbol(t, symbol);
        case HyperliquidClient => r, sent := Hyperliquid.GetPriceForFuturesSymbol(t, symbol);
        case BinanceClient => r, sent := Binance.GetPriceForFuturesSymbol(t, symbol);
        case OkxClient => r, sent := Okx.GetPriceForSymbol(t, symbol);
        case BybitClient => r, sent := Bybit.GetPriceForFuturesSymbol(t, symbol);
        case MexcClient => r, sent := Mexc.GetPriceForFuturesSymbol(t, symbol);
        case BitgetClient => r, sent := Bitget.GetPriceForFuturesSymbol(t, symbol);
      }
    } else if market == SPOT {
      match e {
        case GateClient => r, sent := Gate.GetPriceForSpotSymbol(t, symbol);
        case HyperliquidClient => r, sent := Hyperliquid.GetPriceForSpotSymbol(symbol);
        case BinanceClient => r, sent := Binance.GetPriceForSpotSymbol(t, symbol);
        case OkxClient => r, sent := Okx.GetPriceForSymbol(t, symbol);
        case BybitClient => r, sent := Bybit.GetPriceForSpotSymbol(t, symbol);
        case MexcClient => r, sent := Mexc.GetPriceForSpotSymbol(t, symbol);
        case BitgetClient => r, sent := Bitget.GetPriceForSpotSymbol(t, symbol);
      }
    } else {
      r, sent := Ok(None), [];
    }
  }

  /** On every client but OKX, asking for the price of the symbol a
      resolution returned gives the price that resolution read (the
      transport answering the same request the same way). On OKX this holds
      when the price read is truthy. */
  lemma ResolvedPriceIsKnownPrice(t: Transport, e: Exchange, market: string, token: string, x: Resolved)
    requires Resolution(t, e, market, token) == Some(Ok(Some(x)))
    requires e == OkxClient ==> Truthy(x.price.source)
    ensures KnownPrice(t, e, market, x.symbol) == Ok(Some(x.price))
  {
    if market == PERP {
      PerpResolvedIsKnown(t, e, token, x);
    } else {
      SpotResolvedIsKnown(t, e, token, x);
    }
  }

  lemma PerpResolvedIsKnown(t: Transport, e: Exchange, token: string, x: Resolved)
    requires FuturesResolution(t, e, token) == Ok(Some(x))
    requires e == OkxClient ==> Truthy(x.price.source)
    ensures KnownPrice(t, e, PERP, x.symbol) == Ok(Some(x.price))
  {
    match e {
      case GateClient =>
        Gate.CheckedResolved(t, Gate.CandidateNames(token), Gate.CheckFutureRequest, Gate.FxTickerRequest, Gate.FuturesLink, x);
      case HyperliquidClient =>
        Hyperliquid.ResolvedCoinListed(t, token);
      case BinanceClient =>
        Probe.FirstSuccessPriced(t, Binance.CandidateSymbols(token), Binance.FuturesRequest, Binance.PriceOf, Binance.FuturesLink, x);
      case OkxClient =>
        Probe.FirstSuccessPriced(t, Okx.PerpCandidates(token), Okx.TickerRequest, Okx.ResolvePriceOf, Okx.FuturesLink, x);
        OkxReadsAgree(t, x.symbol, x.price);
      case BybitClient =>
        Probe.FirstSuccessPriced(t, Bybit.PerpCandidates(token), Bybit.FuturesRequest, Bybit.FuturesPriceOf, Bybit.FuturesLink, x);
      case MexcClient =>
        Probe.FirstSuccessPriced(t, Mexc.PerpCandidates(token), Mexc.FuturesRequest, Mexc.FuturesPriceOf, Mexc.FuturesLink, x);
      case BitgetClient =>
        Probe.FirstSuccessPriced(t, Bitget.PerpCandidates(token), Bitget.FuturesRequest, Bitget.FuturesPriceOf, Bitget.FuturesLink, x);
    }
  }

  lemma SpotResolvedIsKnown(t: Transport, e: Exchange, token: string, x: Resolved)
    requires SpotResolution(t, e, token) == Ok(Some(x))
    requires e == OkxClient ==> Truthy(x.price.source)
    ensures KnownPrice(t, e, SPOT, x.symbol) == Ok(Some(x.price))
  {
    match e {
      case GateClient =>
        Gate.CheckedResolved(t, Gate.CandidateNames(token), Gate.CheckSpotRequest, Gate.SpotTickerRequest, Gate.SpotLink, x);
      case HyperliquidClient =>
      case BinanceClient =>
        Probe.FirstSuccessPriced(t, Binance.CandidateSymbols(token), Binance.SpotRequest, Binance.PriceOf, Binance.SpotLink, x);
      case OkxClient =>
        Probe.FirstSuccessPriced(t, Okx.SpotCandidates(token), Okx.TickerRequest, Okx.ResolvePriceOf, Okx.SpotLink, x);
        OkxReadsAgree(t, x.symbol, x.price);
      case BybitClient =>
        Probe.FirstSuccessPriced(t, Bybit.SpotCandidates(token), Bybit.SpotRequest, Bybit.SpotPriceOf, Bybit.SpotLink, x);
      case MexcClient =>
        Probe.FirstSuccessPriced(t, Mexc.SpotCandidates(token), Mexc.SpotRequest, Mexc.SpotPriceOf, Mexc.SpotLink, x);
      case BitgetClient =>
        Bitget.SpotResolvedPrice(t, token, x);
    }
  }

  /** An OKX ticker read by the candidate loop as a truthy price is read the
      same by the refresh. */
  lemma OkxReadsAgree(t: Transport, instId: string, p: Price)
    requires Probe.Step(t, instId, Okx.TickerRequest, Okx.ResolvePriceOf) == Ok(Some(p))
    requires Truthy(p.source)
    ensures Okx.PriceOf(t, instId) == Ok(Some(p))
  {
    var reply := Deliver(t, Okx.TickerRequest(instId)).value;
    Okx.RefreshAgreesUnlessFalsy(reply);
  }
}
