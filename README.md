# trader-tools symbol resolution, modelled in Dafny

trader-tools is a small desktop price monitor. The user types a token (`eth`,
`$PEPE`, `ETH/USDT`) and picks spot or futures. Each enabled exchange adapter
then turns that token into the symbol its API expects and finds a price for
it. From then on the monitor refreshes those known symbols periodically. This
project models that path:

* **Retrying request** (`BaseClient._request`). It makes up to three attempts.
  It retries only on network errors, sleeping 1 and then 2 seconds between
  attempts. It sends `timeout or 10`. An HTTP status is never an error here.
  The transport is a parameter: a total function from (request, attempt index)
  to the outcome of that attempt. `Base.Send` is the loop and `Base.Deliver`
  is its specification.
* **Seven exchange adapters** (Gate, Binance, OKX, Bybit, MEXC, Bitget,
  Hyperliquid). Each has:
  * its candidate generator and link builders;
  * its reply readers, with Python truthiness, `.get`, `[0]` and `float()`
    on a JSON value;
  * the four operations `get_spot_price`, `get_futures_price`,
    `get_price_for_spot_symbol` and `get_price_for_futures_symbol`.

  An exception a reader would raise (`float()` on a bad value, `.get` on a
  list, `[0]` on an empty value) becomes `Raised(message)`. `float()` accepts
  the decimal texts Python accepts, including digit groups joined by single
  underscores (`1_000.5`; `Py.GroupedDigitsAccepted`,
  `Py.GroupedDigitsRejected`). Every adapter
  method also returns a ghost log of the requests it sent.
* **The generic candidate loop** (module `Probe`). Binance, OKX, Bybit, MEXC
  and Bitget all try their candidates in order. A candidate that gives no
  price is skipped. The first candidate with a price ends the loop.
* **Gate's check-then-price resolution.** Gate first checks that a contract or
  pair exists, then fetches its price.
* **Hyperliquid's universe match.** The token is matched against the set of
  listed coins, and the price comes from the all-mids map.
* **`Monitor.query` and `Monitor.fetch_prices_for_known_symbols`.** Each is
  modelled as a sequential fold over the clients or the known symbols.
* **Main window bookkeeping:**
  * `_extract_token_from_text`, with its two regular expressions written out
    over ASCII;
  * the ordered client list built from the enabled exchanges;
  * the symbol, URL and baseline maps kept after a search;
  * the rows of each refresh;
  * the table's sort key and the text of a price-less cell.
* **The hotkey field's `keyPressEvent`.** It turns a key press into text such
  as `ctrl+shift+f5`.

Some behaviour of the code is kept exactly as written, and proved:

* OKX's refresh drops a falsy `last` such as `0`, while its search accepts it
  (`Okx.ZeroLastDiffers`).
* Bybit's futures reader raises when `result` is `null`, while its spot reader
  does not (`Bybit.Entry`).
* Hyperliquid's quote loop has no `break`. So `BTCUSDUSDT` loses both `USDT`
  and `USD` (`Hyperliquid.NoBreakBetweenQuotes`).
* An empty Hyperliquid token is contained in every coin name. So it matches
  the one coin of a one-coin universe (`Hyperliquid.EmptyTokenMatchesSoleCoin`).
* A cell for an exchange whose exception text is empty shows `—`, not
  `ERROR` (`Window.CellOf`).

Only Gate's generator is proved idempotent. The Binance-family generators are
not: they delete `-` and `/`, which can bring a space to the edge of the text.

Modules: `PyStr` and `Py` hold the Python built-ins. `Base` and `Probe` come
next, then one module per adapter. `Exchanges` is the closed set of adapters
and dispatches to them. `Monitor`, `Window` and `Widgets` follow.

## Model

| member | source | states |
|---|---|---|
| Base.EffectiveTimeout | core/exchange/base.py:59 | the timeout sent is the caller's value, or 10 when the caller gave none or 0 |
| Base.SupportedExchanges | core/exchange/base.py:26-36 | the supported list is gate, hyperliquid, binance, okx, bybit, mexc, bitget, in that order; the seven names are all different |
| Base.FirstSettled | core/exchange/base.py:52-62 | the index of the first attempt that does not fail with a network error; every earlier attempt failed with one |
| Base.DeliverFromSettled | core/exchange/base.py:52-79 | the outcome of a request: the first settled attempt's response; or the exception it raised; or None when every attempt failed with a network error |
| Base.DeliverNoResponse | core/exchange/base.py:52-79 | `_request` returns None exactly when all three attempts fail with network errors |
| Base.Send | core/exchange/base.py:38-79 | the loop's result is Deliver's; it makes 1 to 3 attempts of the same request and stops at the first settled one; it sleeps 1, then 2 seconds between attempts |
| Probe.Decisive | core/exchange/binance.py:22-39 | the number of leading candidates that give no price, and the candidate after them gives a price or raises |
| Probe.FirstSuccessAt | core/exchange/binance.py:22-39 | the loop's outcome comes from the first candidate that does not give "no price": its symbol, price and link, or its exception; None when there is no such candidate |
| Probe.FirstSuccessFound | core/exchange/binance.py:22-39 | a found result is one of the candidates, every earlier candidate gave no price, and its price and link are that candidate's |
| Probe.FirstSuccessPriced | core/exchange/binance.py:22-39 | the price a resolution reports is what one request for its symbol reads |
| Probe.SingleCandidate | core/exchange/binance.py:22-39 | with one candidate the loop is exactly one fetch |
| Probe.Fetch | core/exchange/binance.py:41-53 | a known-symbol price read sends one request and reads that reply |
| Probe.Resolve | core/exchange/binance.py:22-39 | the loop result equals FirstSuccess; it sends requests for the leading candidates up to and including the decisive one |
| Probe.ResolveSingle | core/exchange/okx.py:20-38 | a loop over one candidate makes exactly one request and gives that candidate's outcome |
| Probe.PairCandidates | core/exchange/mexc.py:57-81 | with two candidates the first decides unless it is skipped; when skipped the second decides on its own |
| Probe.ResolvePair | core/exchange/mexc.py:57-81 | a loop over two candidates requests the second only when the first was skipped, and then the second alone decides |
| Symbols.SquashClean | core/exchange/binance.py:99-101 | the normalised input has no lower-case letter, no space, no `-` and no `/` |
| Symbols.WithQuote | core/exchange/binance.py:102-104 | the candidate ends in USDT; the input is kept when it already ends in USDT, and USDT is appended otherwise |
| Symbols.QuoteKeepsNoLower | core/exchange/binance.py:102-104 | appending the quote keeps the symbol free of lower case |
| Symbols.QuoteClean | core/exchange/binance.py:102-104 | appending the quote adds no lower-case letter, space, `-` or `/` |
| Symbols.DropQuote | core/exchange/bybit.py:106 | cutting a trailing USDT leaves the base, and other text is unchanged |
| Symbols.DropThenQuote | core/exchange/bybit.py:105-107 | cutting the quote and appending it again gives the same symbol as adding it when missing |
| Symbols.LinkBaseOf | core/exchange/binance.py:56 | removing USDT from `BASEUSDT` gives back BASE when BASE has no USDT |
| Gate.CandidateNames | core/exchange/gate.py:110-122 | one candidate, ending in `_USDT`; it is the normalised input exactly when that already ends in `_USDT`, and otherwise the input with `_USDT` appended |
| Gate.NormalizeClean | core/exchange/gate.py:113-119 | normalisation leaves no lower case, space, `-` or `/`, and no leading or trailing blank |
| Gate.NormalizeFixes | core/exchange/gate.py:113-119 | normalising an already clean name leaves it unchanged |
| Gate.CleanSuffix | core/exchange/gate.py:120-122 | appending `_USDT` to a clean name keeps it clean |
| Gate.CandidateIdempotent | core/exchange/gate.py:110-122 | feeding the candidate back in gives the same candidate list |
| Gate.IsValid | core/exchange/gate.py:124-134 | a check is true exactly when the request was answered with status 200; an exception from the transport propagates |
| Gate.LastOf | core/exchange/gate.py:157-162 | without a 200 reply, with an empty or falsy body, or when the first ticker has no `last`, there is no price; a 200 list whose first ticker is a dict holding `last` gives `float(data[0]["last"])`, which may raise; a truthy dict body raises `KeyError: 0` at `data[0]`, any other truthy body that is neither a list nor a string raises, and a first ticker that is a number, bool or null raises on `"last" in` |
| Gate.FirstValidFound | core/exchange/gate.py:31-42 | the symbol picked is a candidate whose check succeeded, and that check was sent |
| Gate.PriceOnlyAfterCheck | core/exchange/gate.py:31-58 | at most one price request is made, and only for a candidate whose check was sent and succeeded |
| Gate.CheckedResolved | core/exchange/gate.py:24-58 | a resolved symbol passed its check; its price is that symbol's ticker price and its URL is its link |
| Gate.CheckStep | core/exchange/gate.py:34-42 | the check loop: a failed check moves on, a successful one stops, an exception ends the loop |
| Gate.FindValid | core/exchange/gate.py:33-42 | the check loop finds the first valid candidate and sends exactly the checks up to it |
| Gate.CheckThenPrice | core/exchange/gate.py:31-58 | the resolution is the checked resolution; the requests are the checks followed by at most one price request |
| Gate.SingleCandidateLog | core/exchange/gate.py:31-58 | with one candidate: one check, then a price request only when the check succeeded |
| Gate.GetFuturesPrice | core/exchange/gate.py:24-58 | futures resolution; it sends the contract check, then the ticker only when the check succeeded |
| Gate.GetSpotPrice | core/exchange/gate.py:67-101 | spot resolution; it sends the pair check, then the ticker only when the check succeeded |
| Gate.GetPriceForFuturesSymbol | core/exchange/gate.py:146-162 | a known contract's price comes from one ticker request and no check |
| Gate.GetPriceForSpotSymbol | core/exchange/gate.py:164-180 | a known pair's price comes from one ticker request and no check |
| Binance.CandidateSymbols | core/exchange/binance.py:97-104 | one candidate ending in USDT; it is the normalised input when that ends in USDT, and otherwise the input with USDT appended |
| Binance.CandidateClean | core/exchange/binance.py:99-101 | the candidate has no lower case, space, `-` or `/` |
| Binance.PriceOf | core/exchange/binance.py:50-53 | there is no price without a 200 reply, with a falsy body, or with a missing or falsy `price`; a 200 dict with a truthy `price` gives `float(price)`, which may raise; a truthy body that is not a dict raises |
| Binance.LinksOf | core/exchange/binance.py:55-57 | for `BASEUSDT`: the spot link is `.../trade/BASE_USDT?type=spot` and the futures link (lines 93-95) is `.../futures/BASEUSDT` |
| Binance.GetSpotPrice | core/exchange/binance.py:21-39 | spot resolution over the single candidate, with one request |
| Binance.GetFuturesPrice | core/exchange/binance.py:59-77 | futures resolution over the single candidate, with one request |
| Binance.GetPriceForSpotSymbol | core/exchange/binance.py:41-53 | a known spot symbol's price comes from one request |
| Binance.GetPriceForFuturesSymbol | core/exchange/binance.py:79-91 | a known futures symbol's price comes from one request |
| Okx.NormalizeClean | core/exchange/okx.py:94 | the normalised input has no lower case, space, `/` or `_` |
| Okx.SpotCandidates | core/exchange/okx.py:92-99 | exactly one candidate, ending in `-USDT` |
| Okx.SpotCandidateCases | core/exchange/okx.py:92-99 | the candidate is the normalised input when it ends in `-USDT`; a bare trailing `USDT` becomes `-USDT`; otherwise `-USDT` is appended |
| Okx.PerpCandidates | core/exchange/okx.py:101-105 | one candidate, ending in `-USDT-SWAP` |
| Okx.PerpOfPair | core/exchange/okx.py:102-105 | a pair `B-USDT` becomes `B-USDT-SWAP` |
| Okx.PerpOfBase | core/exchange/okx.py:102-105 | a base with no `-USDT` and no PERP becomes `BASE-USDT-SWAP` |
| Okx.SpotLink | core/exchange/okx.py:53-54 | the spot link is the trade-spot URL followed by the instrument id, which is unchanged |
| Okx.LastField | core/exchange/okx.py:29-34 | nothing without a 200 reply or when `data` is missing or empty; for a 200 dict whose `data` list starts with a dict, the value is that dict's `last`, or null when it has none; a truthy body that is not a dict, a truthy `data` that is not a list, or a first `data` item that is not a dict raises |
| Okx.ResolvePriceOf | core/exchange/okx.py:29-37 | during search a null `last` means no price, and any other `last` is given to `float()`: its price, or the exception `float()` raises; a skipped or raising read of `last` passes through |
| Okx.RefreshPriceOf | core/exchange/okx.py:48-51 | a known-symbol read gives no price for a falsy `last`, and `float(last)` for a truthy one; a skipped or raising read of `last` passes through |
| Okx.RefreshAgreesUnlessFalsy | core/exchange/okx.py:29-51 | search and refresh read the same price, except for a falsy `last` that is not null: search parses it and refresh drops it |
| Okx.ZeroLastDiffers | core/exchange/okx.py:51 | a reply with `last` equal to 0 gives a price during search and none during refresh |
| Okx.GetSpotPrice | core/exchange/okx.py:20-38 | spot resolution over the single candidate, with one request |
| Okx.GetFuturesPrice | core/exchange/okx.py:56-74 | futures resolution over the single candidate, with one request |
| Okx.GetPriceForSymbol | core/exchange/okx.py:40-51 | a known instrument's price comes from one ticker request; spot and futures (lines 76-87) are the same read |
| Bybit.SpotCandidates | core/exchange/bybit.py:103-107 | one spot candidate, ending in USDT |
| Bybit.PerpCandidates | core/exchange/bybit.py:109-114 | one futures candidate, ending in USDT |
| Bybit.SpotCandidateIsQuoted | core/exchange/bybit.py:104-107 | cutting and re-adding USDT is the same as appending USDT when it is missing |
| Bybit.PerpWithoutPerp | core/exchange/bybit.py:110-114 | when the input has no PERP, the futures candidate equals the spot candidate |
| Bybit.Entry | core/exchange/bybit.py:32-36 | entries come only from 200 replies; for a 200 dict whose `result` is a dict with a non-empty `list`, the entry is `list[0]`; a missing, null or empty `list`, a missing `result` or a falsy body give no entry; a null `result` gives no entry for spot, while the futures reader raises on it; a truthy body that is not a dict raises, and so does a `result` that is not a dict, except a falsy one in the spot reader, which gives no entry |
| Probe.LastPriceOr | core/exchange/bybit.py:36-39 | a truthy `lastPrice` gives `float(lastPrice)`; otherwise a non-null fallback field gives its float, and a missing or null one gives no price; a ticker that is not a dict raises. Bybit spot uses the fallback `price`, MEXC futures the fallback `last` (mexc.py:77-80) |
| Bybit.FuturesPick | core/exchange/bybit.py:77-80 | a non-null `lastPrice` is used; otherwise there is no price; a ticker that is not a dict raises |
| Bybit.PicksAgreeOnTruthyLastPrice | core/exchange/bybit.py:36-80 | the spot and futures readers agree on a truthy `lastPrice`; a falsy non-null one with no `price` gives none on spot and a parsed price on futures |
| Bybit.LinksOf | core/exchange/bybit.py:59-61 | for `BASEUSDT`: the spot link ends in `/spot/trade/BASE/USDT` and the futures link (lines 99-101) ends in `/trade/usdt/BASEUSDT` |
| Bybit.GetSpotPrice | core/exchange/bybit.py:21-40 | spot resolution over the single candidate, with one request |
| Bybit.GetFuturesPrice | core/exchange/bybit.py:63-81 | futures resolution over the single candidate, with one request |
| Bybit.GetPriceForSpotSymbol | core/exchange/bybit.py:42-57 | a known spot symbol's price is one request read by the spot reader |
| Bybit.GetPriceForFuturesSymbol | core/exchange/bybit.py:83-97 | a known futures symbol's price is one request read by the futures reader |
| Mexc.SpotCandidates | core/exchange/mexc.py:111-116 | one candidate ending in USDT; it is the input when that ends in USDT, and otherwise the input with USDT appended |
| Mexc.PerpCandidates | core/exchange/mexc.py:118-127 | two candidates in order: `BASEUSDT`, then `BASE_USDT` |
| Mexc.SpotPriceOf | core/exchange/mexc.py:30-36 | a 200 reply's non-null `price` is parsed; there is no price without a 200 reply, nor for a 200 reply whose body is falsy or lacks a non-null `price` (the candidate is skipped); a truthy body that is not a dict raises |
| Mexc.EntryOf | core/exchange/mexc.py:70-74 | the futures entry is the first item of a non-empty list, the dict itself, or nothing |
| Mexc.FuturesPriceOf | core/exchange/mexc.py:66-80 | a futures price comes only from a 200 reply and is never null; a truthy entry of `data` is priced by `Probe.LastPriceOr` with the fallback `last`, and a missing `data`, a falsy entry or a falsy body give no price; a truthy body that is not a dict raises |
| Mexc.ListOrDictAlike | core/exchange/mexc.py:71-74 | `data` as a list whose first item is a dict reads the same as that dict alone |
| Mexc.LinksOf | core/exchange/mexc.py:53-55 | spot link `.../exchange/BASE_USDT`; both futures candidates link to `BASE_USDT` (lines 105-109) |
| Mexc.PlainFuturesLink | core/exchange/mexc.py:105-109 | `BASEUSDT` links to the futures page of `BASE_USDT` |
| Mexc.PlainSymbolFacts | core/exchange/mexc.py:107-108 | `BASEUSDT` passes the link guard, and the replace inserts exactly one `_` |
| Mexc.UnderscoreFuturesLink | core/exchange/mexc.py:105-109 | `BASE_USDT` is linked unchanged |
| Mexc.GetSpotPrice | core/exchange/mexc.py:21-37 | spot resolution over the single candidate, with one request |
| Mexc.GetFuturesPrice | core/exchange/mexc.py:57-81 | futures resolution; the second candidate is tried only when the first gave no price, and then it decides the result |
| Mexc.GetPriceForSpotSymbol | core/exchange/mexc.py:39-51 | a known spot symbol's price comes from one request |
| Mexc.GetPriceForFuturesSymbol | core/exchange/mexc.py:83-103 | a known futures symbol's price comes from one request |
| Bitget.SpotCandidates | core/exchange/bitget.py:105-110 | one candidate ending in USDT; it is the input when that ends in USDT, and otherwise the input with USDT appended |
| Bitget.PerpCandidates | core/exchange/bitget.py:112-117 | one candidate, ending in `USDT_UMCBL` |
| Bitget.PerpIsSpotUmcbl | core/exchange/bitget.py:106-117 | without PERP in the input, the futures candidate is the spot candidate followed by `_UMCBL` |
| Bitget.Matching | core/exchange/bitget.py:32-36 | the entry found is the first item whose `symbol` is the requested one, every earlier item being a dict that does not match; none is found exactly when every item is a dict that does not match; an exception comes from the first item that is not a dict, reached before any match |
| Bitget.FindEntry | core/exchange/bitget.py:32-36 | the search loop with its `break` computes Matching: the first matching item, or the exception of `.get` on a non-dict met first |
| Bitget.SpotPick | core/exchange/bitget.py:39-41 | a truthy `close` is used; otherwise `last`, if it is not null |
| Bitget.SpotPriceOf | core/exchange/bitget.py:53-64 | there is no price without a 200 reply or without a matching item; a matched item is priced by SpotPick; an exception from reading `data` or from the scan propagates |
| Bitget.ReadSpot | core/exchange/bitget.py:29-41 | the spot reply reader computes SpotPriceOf |
| Bitget.FuturesPriceOf | core/exchange/bitget.py:79-84 | a futures price comes only from a 200 reply and is never null; for a 200 dict whose `data` is a dict, a non-null `last` gives `float(last)` and a missing or null `last` gives no price; a missing or falsy `data` or a falsy body gives no price; a truthy body that is not a dict, or a truthy `data` that is not a dict, raises |
| Bitget.SpotLinkOf | core/exchange/bitget.py:66-68 | `BASEUSDT` links to `.../spot/BASEUSDT_SPBL` |
| Bitget.GetSpotPrice | core/exchange/bitget.py:20-43 | spot resolution over the single candidate, with one request |
| Bitget.SpotResolvedPrice | core/exchange/bitget.py:20-64 | the spot symbol a resolution found reads the same price from one ticker request |
| Bitget.GetFuturesPrice | core/exchange/bitget.py:70-86 | futures resolution over the single candidate, with one request |
| Bitget.GetPriceForSpotSymbol | core/exchange/bitget.py:45-64 | a known spot symbol's price comes from one request |
| Bitget.GetPriceForFuturesSymbol | core/exchange/bitget.py:88-100 | a known futures symbol's price comes from one request |
| Hyperliquid.AssetNames | core/exchange/hyperliquid.py:88-90 | the names are read exactly when every asset is a dict whose `name`, if present, is a string; then there is one name per asset, the upper-cased `name` or "" when it is missing, with no lower case |
| Hyperliquid.UniverseOf | core/exchange/hyperliquid.py:85-91 | there is no universe without a 200 reply; the universe holds no empty name and no lower case; a 200 body that is not a dict raises; a 200 dict whose `universe` cannot be iterated (null, a number, a bool) raises |
| Hyperliquid.NonEmpty | core/exchange/hyperliquid.py:91 | exactly the non-empty names |
| Hyperliquid.UniverseOfAssets | core/exchange/hyperliquid.py:85-91 | a 200 reply listing readable assets gives as universe exactly the non-empty upper-cased names of its assets |
| Hyperliquid.UniverseOfMissing | core/exchange/hyperliquid.py:89-91 | a 200 dict without `universe` gives the empty universe |
| Hyperliquid.UniverseOfUnreadable | core/exchange/hyperliquid.py:88-90 | a 200 reply whose `universe` lists an asset that is not a dict, or whose `name` is not a string, raises |
| Hyperliquid.UniverseOfListing | core/exchange/hyperliquid.py:88-91 | a listing of one named asset and one unnamed asset gives the set of the upper-cased name |
| Hyperliquid.MidsMap | core/exchange/hyperliquid.py:104 | the keys are the upper-cased reply keys; the last member maps to its own float |
| Hyperliquid.MidsLaterWins | core/exchange/hyperliquid.py:104 | when keys collide once upper-cased, the later member wins: every key maps to the float of the last member with that key |
| Hyperliquid.MidsMapOk | core/exchange/hyperliquid.py:104 | the map is built exactly when `float()` accepts every value |
| Hyperliquid.MidsKeysUpper | core/exchange/hyperliquid.py:104 | every mids key is upper case |
| Hyperliquid.MidsOf | core/exchange/hyperliquid.py:93-104 | there are no mids without a 200 reply; a 200 object reply gives its mids map; a falsy 200 body gives empty mids, and a truthy body that is not a dict raises |
| Hyperliquid.MidLookup | core/exchange/hyperliquid.py:56-60 | a price exists exactly when the upper-cased symbol is a key, and it is that key's value |
| Hyperliquid.LookupIgnoresCase | core/exchange/hyperliquid.py:59-60 | symbols that are equal when upper-cased read the same price |
| Hyperliquid.DropSuffix | core/exchange/hyperliquid.py:114-115 | a present suffix is cut exactly; otherwise the text is unchanged |
| Hyperliquid.StripQuotesSnoc | core/exchange/hyperliquid.py:113-115 | the quote loop is a chain of suffix cuts, one per quote, in order |
| Hyperliquid.Cleaned | core/exchange/hyperliquid.py:110-112 | after removing PERP and every non-alphanumeric, only upper-case letters and digits remain |
| Hyperliquid.NoBreakBetweenQuotes | core/exchange/hyperliquid.py:113-115 | with no break, `BTCUSDUSDT` loses both USDT and USD |
| Hyperliquid.Matches | core/exchange/hyperliquid.py:118 | the candidates are exactly the listed coins that contain the token |
| Hyperliquid.Coin | core/exchange/hyperliquid.py:116-121 | a listed token is its own coin; otherwise a coin is found exactly when one listed coin contains the token, and that coin is the answer |
| Hyperliquid.CoinOfMatches | core/exchange/hyperliquid.py:116-121 | without an exact hit, the coin is the only listed coin containing the token, and there is none when zero or several contain it |
| Hyperliquid.AmbiguousUnmatched | core/exchange/hyperliquid.py:118-121 | two listed coins containing an unlisted token give no coin |
| Hyperliquid.NothingContainsUnmatched | core/exchange/hyperliquid.py:118-121 | an unlisted token that no coin contains gives no coin |
| Hyperliquid.EmptyTokenMatchesSoleCoin | core/exchange/hyperliquid.py:116-121 | the empty token resolves to a coin exactly when the universe is that one coin |
| Hyperliquid.NormalizeToCoin | core/exchange/hyperliquid.py:106-121 | the normalisation method computes Coin of the cleaned and quote-stripped token |
| Hyperliquid.StripQuoteLoop | core/exchange/hyperliquid.py:113-115 | the quote loop equals the chain of suffix cuts over USDT, USDC, USD |
| Hyperliquid.MatchList | core/exchange/hyperliquid.py:118 | the candidate list holds exactly the matching coins, each once |
| Hyperliquid.FetchUniverse | core/exchange/hyperliquid.py:77-91 | the universe comes from the meta request's reply; transport exceptions propagate |
| Hyperliquid.GetPriceForFuturesSymbol | core/exchange/hyperliquid.py:51-60 | one all-mids request, looked up by the upper-cased symbol |
| Hyperliquid.GetFuturesPrice | core/exchange/hyperliquid.py:23-49 | futures resolution; without a universe it stops after the meta request; otherwise it sends meta and at most one mids request |
| Hyperliquid.ResolveIn | core/exchange/hyperliquid.py:30-49 | after the universe is known, the result is the resolution in that universe, with at most one request for the mid prices |
| Hyperliquid.ResolvedCoinListed | core/exchange/hyperliquid.py:23-49 | a resolved coin is in the fetched universe, its price is its mid, and its URL is its trade link |
| Hyperliquid.SpotLink | core/exchange/hyperliquid.py:74-75 | there is no spot page: the spot link is empty |
| Hyperliquid.GetSpotPrice | core/exchange/hyperliquid.py:65-69 | spot is unsupported: no result and no request |
| Hyperliquid.GetPriceForSpotSymbol | core/exchange/hyperliquid.py:71-72 | spot is unsupported: no price and no request |
| Exchanges.FromName | core/exchange/base.py:26-36 | a name maps to the adapter that carries it; no adapter carries an unknown name |
| Exchanges.NamesAreSupported | core/exchange/base.py:26-36 | every adapter's name is supported, every supported name has an adapter, and no two adapters share a name |
| Exchanges.GetFuturesPrice | core/monitor.py:36-37 | dispatches futures resolution to the adapter |
| Exchanges.GetSpotPrice | core/monitor.py:38-39 | dispatches spot resolution to the adapter |
| Exchanges.Resolve | core/monitor.py:34-41 | a market other than perp or spot starts no lookup |
| Exchanges.PriceRequests | core/monitor.py:72-77 | a known-symbol refresh sends at most one request, and none for an unknown market or Hyperliquid spot |
| Exchanges.KnownPriceSkipsCheck | core/exchange/gate.py:60-62 | refreshing a known Gate symbol sends no existence check |
| Exchanges.FetchKnownPrice | core/monitor.py:72-77 | the refresh read for one exchange and market, and exactly the requests it sends |
| Exchanges.ResolvedPriceIsKnownPrice | core/monitor.py:52-56 | reading a resolved symbol again, on the same replies, gives the price the search found; for OKX this holds when `last` is truthy |
| Exchanges.PerpResolvedIsKnown | core/monitor.py:52-56 | a futures symbol a resolution found gives back the same price through the known-symbol call |
| Exchanges.SpotResolvedIsKnown | core/monitor.py:52-56 | a spot symbol a resolution found gives back the same price through the known-symbol call |
| Exchanges.OkxReadsAgree | core/exchange/okx.py:29-51 | an OKX search price with a truthy `last` equals the refresh price |
| Monitor.Record | core/monitor.py:41-47 | recording one client's outcome leaves every other exchange's entries unchanged |
| Monitor.Steps | core/monitor.py:49 | one outcome per client, in client order, each that client's resolution |
| Monitor.Query | core/monitor.py:20-50 | the query's two maps are the merge of every client's outcome |
| Monitor.MergeKeys | core/monitor.py:44-47 | every key in the merged maps is the name of some step |
| Monitor.MergeNothing | core/monitor.py:36-41 | when no client starts a lookup, both maps are empty |
| Monitor.QueryUnknownMarket | core/monitor.py:34-41 | an unknown market type gives empty results and errors |
| Monitor.MergePerStep | core/monitor.py:41-47 | with distinct names, each client's outcome is recorded under its own name |
| Monitor.MergeDisjoint | core/monitor.py:41-47 | with distinct names, no exchange is both in the results and in the errors |
| Monitor.QueryPerClient | core/monitor.py:20-50 | with distinct names: only client names appear; each client's result, exception or absence is recorded; results and errors are disjoint |
| Monitor.ClientMap | core/monitor.py:64 | the name map has exactly the client names, maps each name to a client of that name, and the last client wins |
| Monitor.RefreshOver | core/monitor.py:66-90 | refresh keys are known names with a client; results and errors are disjoint |
| Monitor.RefreshStep | core/monitor.py:66-83 | one name's refresh adds its price, its exception text, or nothing |
| Monitor.FetchPricesForKnownSymbols | core/monitor.py:52-91 | the two maps are the refresh of every known symbol; each request is a price request for a known symbol of an existing client |
| Monitor.UnknownNameSkipped | core/monitor.py:68-70 | a known name with no client appears in neither map |
| Monitor.RefreshPerName | core/monitor.py:66-83 | each known name with a client gets its price, its exception text, or nothing, according to its own read |
| Window.AlnumRun | core/gui/window.py:204 | the length of the leading run of upper-case letters and digits |
| Window.AlnumRunOf | core/gui/window.py:204 | the run of `B + rest` is B when rest does not start with a letter or digit |
| Window.PairBase | core/gui/window.py:204-206 | a full match gives a non-empty alphanumeric prefix; after it come only a separator and an optional quote |
| Window.PairBaseOf | core/gui/window.py:204-206 | `B`, `B/USDT`, `B_USDC` and the like match; group 1 is B, or with no separator B plus the quote (the greedy group) |
| Window.DropFirstQuote | core/gui/window.py:207-210 | the quote-stripping loop cuts at most one suffix, and none when no quote ends the base |
| Window.WordMatch | core/gui/window.py:212-213 | a word match is 2 to 10 upper-case letters or digits |
| Window.WordFrom | core/gui/window.py:212-213 | a match is a 2-to-10-character alphanumeric word |
| Window.WordFromNone | core/gui/window.py:212-213 | the search finds nothing exactly when no position holds a bounded word |
| Window.WordFromLeftmost | core/gui/window.py:212-213 | the search returns the leftmost bounded word |
| Window.LeadingWord | core/gui/window.py:212-213 | a 2-to-10-character word followed by a non-word character is found first |
| Window.TokenOfSubject | core/gui/window.py:204-213 | the extracted token only has upper-case letters and digits |
| Window.TokenOf | core/gui/window.py:198-213 | blank text gives ""; any token has only upper-case letters and digits |
| Window.ExtractToken | core/gui/window.py:198-213 | the extraction method computes TokenOf |
| Window.PairChars | core/gui/window.py:204 | a pair text has only characters of the pair pattern |
| Window.DollarDropped | core/gui/window.py:201-202 | a leading `$` is removed and nothing else |
| Window.PairStripped | core/gui/window.py:198 | stripping leaves a pair text unchanged |
| Window.PairUpper | core/gui/window.py:203 | upper-casing leaves a pair text unchanged |
| Window.QuoteDropped | core/gui/window.py:207-210 | for group 1 of a pair text, the quote loop gives back the base |
| Window.QuoteLoop | core/gui/window.py:207-210 | the loop with its `break` removes the first quote in the list that ends the base, and only that one |
| Window.QuoteDropsItself | core/gui/window.py:207-210 | a quote written after any base is the one the loop removes, leaving the base |
| Window.SubjectOfPair | core/gui/window.py:198-203 | strip, `$` removal and upper-casing turn `$PAIR` into PAIR |
| Window.TokenOfClean | core/gui/window.py:198-203 | the token of `$PAIR` is the token of PAIR |
| Window.TokenOfSubjectPair | core/gui/window.py:204-211 | the token of `B`, `BUSDT`, `B-USD`, `B/USDC` is B when B ends in no quote |
| Window.TokenOfPair | core/gui/window.py:198-211 | `$B`, `B_USDT`, `$B/USD` and the like all extract to B |
| Window.MarketOf | core/gui/window.py:272 | "Futures" selects perp, and any other text selects spot |
| Window.Rank | core/gui/window.py:282-296 | each adapter's position in the fixed client order |
| Window.BuiltStep | core/gui/window.py:282-296 | each `if` adds its client exactly when it is enabled (Hyperliquid only for perp), keeping the order |
| Window.BuiltAll | core/gui/window.py:282-296 | after the seven tests the list holds exactly the wanted clients, in order |
| Window.SortedDistinct | core/gui/window.py:282-296 | a list in strictly increasing order has distinct names |
| Window.BuildClients | core/gui/window.py:282-296 | the clients are exactly the enabled adapters (Hyperliquid only for perp), in the fixed order, each once |
| Window.SymbolsOf | core/gui/window.py:310 | the known symbols map each found exchange to the symbol it resolved |
| Window.UrlsOf | core/gui/window.py:311 | the URL map holds each found exchange's link |
| Window.BaselinesOf | core/gui/window.py:312 | the baseline map holds each found exchange's first price |
| Window.UpdatedRows | core/gui/window.py:339-342 | the rows are the refreshed names that are known; each has its known symbol, its new price and its stored URL |
| Window.RefreshRowsKeepResolution | core/gui/window.py:310-342 | a refreshed row is the search's row with only the price replaced |
| Window.RowRank | core/gui/window.py:367-372 | the rank is the first index of the name in the exchange order, or 999 when it is absent |
| Window.FirstIndex | core/gui/window.py:369 | `list.index`: the first position holding the name |
| Window.StrLessIrreflexive | core/gui/window.py:372-373 | no name sorts before itself |
| Window.StrLessTotal | core/gui/window.py:372-373 | of two different names one sorts before the other |
| Window.StrLessTransitive | core/gui/window.py:372-373 | string order is transitive |
| Window.KeyBeforeTotal | core/gui/window.py:366-373 | the sort key orders any two different names, and never a name before itself |
| Window.KeyBeforeTransitive | core/gui/window.py:366-373 | the sort key order is transitive |
| Window.HasLeast | core/gui/window.py:373 | every non-empty set of names has a first name under the sort key |
| Window.TableOrder | core/gui/window.py:366-373 | the sorted rows hold each name once, ordered by the key |
| Window.Rows | core/gui/window.py:366-373 | the rows are the names with a result or an error, each once |
| Window.RowsListedFirst | core/gui/window.py:366-373 | exchanges in the order come first, by position; the others follow in string order |
| Window.CellOf | core/gui/window.py:376-389 | a row with a price shows a change; otherwise it shows "ERROR" exactly when there is a non-empty error text, and "—" otherwise |
| Window.ErrorRowsShowError | core/gui/window.py:376-389 | an exchange whose query raised shows "ERROR", or "—" when the exception text is empty |
| Window.MainWindow.constructor | core/gui/window.py:62-65 | the known-symbol, URL and baseline maps start empty; the exchange order is the supported list |
| Window.MainWindow.Search | core/gui/window.py:269-312 | no clients shows an error; a search with no result and no error shows "not found"; otherwise the three maps are projected from the results |
| Window.MainWindow.RefreshCycle | core/gui/window.py:336-343 | a refresh cycle's rows are the updated rows of the refreshed prices, and its errors are the refresh errors; both are keyed by known names and disjoint |
| Widgets.NatText | core/gui/widgets.py:59 | `str(n)` is a non-empty string of digits that starts with `0` only for n = 0 |
| Widgets.DecimalRoundTrip | core/gui/widgets.py:59 | reading `str(n)` back as a decimal gives n |
| Widgets.ModifierNamesFlags | core/gui/widgets.py:42-51 | each modifier name is present exactly when its flag is held, and each listed name is a modifier name without `+` |
| Widgets.ModifierNamesOrdered | core/gui/widgets.py:42-51 | the names come in the order ctrl, alt, shift, meta, none twice |
| Widgets.KeyName | core/gui/widgets.py:53-67 | letters give the lower-case letter and digits the digit; F1 to F24 give `f` followed by `str(n)` of the key's number, all digits without a leading zero, which reads back as that number; Space and Tab have names; other keys use their stripped, lower-cased text, or nothing when it is blank |
| Widgets.ComboSplits | core/gui/widgets.py:71-72 | splitting the combo on `+` gives back the modifiers and the key name, when the name has no `+` |
| Widgets.ModifierParts | core/gui/widgets.py:42-51 | the modifier tests build ModifierNames |
| Widgets.NameOf | core/gui/widgets.py:53-67 | the key tests compute KeyName |
| Widgets.HotkeyLineEdit.constructor | core/gui/widgets.py:19-24 | the field starts empty and unfocused |
| Widgets.HotkeyLineEdit.KeyPress | core/gui/widgets.py:26-72 | Return/Enter only drop focus; Escape clears the text; a lone modifier changes nothing; any other key sets the text to the combo, unless the key has no name |

## Left out

- Concurrency: `asyncio.gather` runs the clients concurrently. The model folds over them in list order. With distinct client names the order does not matter to the maps, which `Monitor.MergePerStep` shows.
- Floating point: a price is the JSON value that `float()` accepted. Price deltas and their formatting (`window.py` lines 385-389 for a priced row) are not modelled, and neither is `_format_price`.
- Logging, `request_name` and the texts of error dialogs: they do not affect results.
- Settings: `network/timeout` and `network/retries` are read but never passed on, so the constants 10 and 3 are modelled. Enabled exchanges and the market text are parameters.
- Qt: widgets, layout, table items, the status line, window dragging, the global hotkey registration, the clipboard and the settings dialog. Key codes and modifier flags are modelled as Qt's integer values.
- Link opening in a browser (`window.py` lines 314-326) and the `track_prices` switch: they are external effects.
- The refresh loop's sleep interval, task cancellation and `run_monitor_loop`'s outer exception handler. The model has one cycle (`Window.MainWindow.RefreshCycle`).
- Window.TableOrder: `list.sort` is a library call. The order is a ghost specification of its result, not a sorting algorithm.
- Dictionary iteration order: results are maps. Python insertion order only matters for `Monitor.ClientMap`, where a later client with the same name wins.
- Unicode: strings are ASCII. `upper`, `lower`, `strip` and the regular-expression classes are defined on ASCII only.
- Window.ExtractToken: the `text or ""` guard for a None input is not modelled; the input is always a string.
- HTTP response truthiness: `not r` is taken to test for None only.
- JSON objects: an object's keys are assumed distinct, as in the decoded `dict`. `JObj` does not enforce this, and `Lookup` reads the first member with a key, whereas Python's decoder keeps the last of duplicate keys.
- JSON decoding: a reply's body is already a parsed JSON value. `r.json()` failing on a 200 reply whose body is not JSON, which would raise, is not modelled.
- Window.RowsListedFirst: requires an order of fewer than 999 names, so that the fallback rank 999 cannot collide with a real position. The supported list has seven.
