/** The Hyperliquid client (`HyperliquidClient`): perpetuals only. A token is
    matched against the exchange's universe of coin names, and its price is
    read from the map of all mid prices. */
module Hyperliquid {
  import opened PyStr
  import opened Py
  import opened Base

  const NAME := "hyperliquid"
  const INFO_API := "https://api.hyperliquid.xyz/info"

  /** The quotes `_normalize_to_coin` strips, in the order it checks them. */
  const QUOTES: seq<string> := ["USDT", "USDC", "USD"]

  function MetaRequest(): Request {
    Request("POST", INFO_API, [], Some(JObj([("type", JStr("meta"))])), Some(10.0))
  }

  function MidsRequest(): Request {
    Request("POST", INFO_API, [], Some(JObj([("type", JStr("allMids"))])), Some(10.0))
  }

  // ----- the universe -----

  /** An asset whose name can be read: a dict whose `name`, when present,
      is a string. */
  predicate Named(a: Json) {
    a.JObj? && match Lookup(a.fields, "name") case None => true case Some(n) => n.JStr?
  }

  /** The upper-cased `name` of an asset, `""` when it has none. */
  function AssetName(a: Json): string
    requires Named(a)
  {
    match Lookup(a.fields, "name")
    case Some(JStr(n)) => Upper(n)
    case _ => ""
  }

  /** `asset.get("name", "").upper()` for every asset, in order; the first
      asset that is not a dict, or whose name is not a string, raises. */
  function AssetNames(assets: seq<Json>): (r: Result<seq<string>>)
    ensures r.Ok? <==> forall i :: 0 <= i < |assets| ==> Named(assets[i])
    ensures r.Ok? ==> |r.value| == |assets|
    ensures r.Ok? ==> forall i :: 0 <= i < |assets| ==> r.value[i] == AssetName(assets[i])
    ensures r.Ok? ==> forall i :: 0 <= i < |r.value| ==> NoLower(r.value[i])
    decreases |assets|
  {
    if assets == [] then Ok([])
    else match GetOr(assets[0], "name", JStr(""))
      case Raised(m) => Raised(m)
      case Ok(n) =>
        match StrUpper(n)
        case Raised(m) => Raised(m)
        case Ok(u) =>
          match AssetNames(assets[1..])
          case Raised(m) => Raised(m)
          case Ok(rest) => Ok([u] + rest)
  }

  /** `_fetch_universe`, given the reply: `None` when there is no response or
      the status is not 200, otherwise the set of non-empty upper-cased names. */
  function UniverseOf(reply: Reply): (r: Result<Option<set<string>>>)
    ensures reply.NoResponse? || reply.status != 200 ==> r == Ok(None)
    ensures r.Ok? && r.value.Some? ==> "" !in r.value.value
    ensures r.Ok? && r.value.Some? ==> forall u :: u in r.value.value ==> NoLower(u)
    ensures reply.Response? && reply.status == 200 && !reply.body.JObj? ==> r.Raised?
    ensures (reply.Response? && reply.status == 200 && reply.body.JObj? &&
             Lookup(reply.body.fields, "universe").Some? && Iterate(Lookup(reply.body.fields, "universe").value).Raised?) ==>
      r.Raised?
  {
    match reply
    case NoResponse => Ok(None)
    case Response(status, body) =>
      if status != 200 then Ok(None)
      else match GetOr(body, "universe", JArr([]))
        case Raised(m) => Raised(m)
        case Ok(us) =>
          match Iterate(us)
          case Raised(m) => Raised(m)
          case Ok(assets) =>
            match AssetNames(assets)
            case Raised(m) => Raised(m)
            case Ok(names) =>
              UniverseNames(assets);
              Ok(Some(NonEmpty(names)))
  }

  /** A 200 reply listing readable assets gives the set of their non-empty
      upper-cased names. */
  lemma UniverseOfAssets(reply: Reply, items: seq<Json>)
    requires reply.Response? && reply.status == 200 && reply.body.JObj?
    requires Lookup(reply.body.fields, "universe") == Some(JArr(items))
    requires forall i :: 0 <= i < |items| ==> Named(items[i])
    ensures var r := UniverseOf(reply);
      r.Ok? && r.value.Some? &&
      forall u :: u in r.value.value <==> u != "" && exists i :: 0 <= i < |items| && AssetName(items[i]) == u
  {
    assert GetOr(reply.body, "universe", JArr([])) == Ok(JArr(items));
    assert Iterate(JArr(items)) == Ok(items);
    assert AssetNames(items).Ok?;
    UniverseNames(items);
  }

  /** A 200 reply listing an asset that is not a dict, or whose `name` is
      not a string, raises. */
  lemma UniverseOfUnreadable(reply: Reply, items: seq<Json>)
    requires reply.Response? && reply.status == 200 && reply.body.JObj?
    requires Lookup(reply.body.fields, "universe") == Some(JArr(items))
    requires exists i :: 0 <= i < |items| && !Named(items[i])
    ensures UniverseOf(reply).Raised?
  {
    assert GetOr(reply.body, "universe", JArr([])) == Ok(JArr(items));
    assert Iterate(JArr(items)) == Ok(items);
    assert AssetNames(items).Raised?;
  }

  /** A 200 reply without `universe` gives the empty universe. */
  lemma UniverseOfMissing(reply: Reply)
    requires reply.Response? && reply.status == 200 && reply.body.JObj?
    requires Lookup(reply.body.fields, "universe").None?
    ensures UniverseOf(reply) == Ok(Some({}))
  {
    assert GetOr(reply.body, "universe", JArr([])) == Ok(JArr([]));
    assert Iterate(JArr([])) == Ok([]);
    assert AssetNames([]) == Ok([]);
    assert NonEmpty([]) == {};
  }

  /** `{u for u in universe if u}` */
  function NonEmpty(names: seq<string>): (r: set<string>)
    ensures forall u :: u in r <==> u != "" && u in names
  {
    set i | 0 <= i < |names| && names[i] != "" :: names[i]
  }

  /** The universe is the non-empty names of the assets. */
  lemma UniverseNames(assets: seq<Json>)
    requires AssetNames(assets).Ok?
    ensures forall u :: u in NonEmpty(AssetNames(assets).value) <==>
      u != "" && exists i :: 0 <= i < |assets| && AssetName(assets[i]) == u
  {
    var names := AssetNames(assets).value;
    forall u | u != "" && u in names ensures exists i :: 0 <= i < |assets| && AssetName(assets[i]) == u {
      var i :| 0 <= i < |names| && names[i] == u;
      assert AssetName(assets[i]) == u;
    }
    forall u, i | 0 <= i < |assets| && AssetName(assets[i]) == u ensures u in names {
      assert names[i] == u;
    }
  }

  /** A universe listing `name` (in any case) names exactly its upper-cased
      form; an asset without a name adds nothing. */
  lemma UniverseOfListing(name: string)
    requires name != []
    ensures UniverseOf(Response(200, JObj([("universe", JArr([JObj([("name", JStr(name))]), JObj([])]))]))) ==
            Ok(Some({Upper(name)}))
  {
    var assets := [JObj([("name", JStr(name))]), JObj([])];
    assert Lookup([("name", JStr(name))], "name") == Some(JStr(name));
    var nameless := [JObj([])];
    assert assets[1..] == nameless && nameless[1..] == [];
    assert GetOr(JObj([]), "name", JStr("")) == Ok(JStr(""));
    assert StrUpper(JStr("")) == Ok("");
    assert AssetNames(nameless[1..]) == Ok([]);
    assert AssetNames(nameless) == Ok([""] + []);
    assert [""] + [] == [""];
    assert GetOr(assets[0], "name", JStr("")) == Ok(JStr(name));
    assert StrUpper(JStr(name)) == Ok(Upper(name));
    assert AssetNames(assets) == Ok([Upper(name)] + [""]);
    var names := [Upper(name), ""];
    assert [Upper(name)] + [""] == names;
    var body := JObj([("universe", JArr(assets))]);
    assert GetOr(body, "universe", JArr([])) == Ok(JArr(assets));
    assert |Upper(name)| == |name|;
    var s := set i | 0 <= i < |names| && names[i] != "" :: names[i];
    assert names[0] in s;
    assert s == {Upper(name)};
    assert UniverseOf(Response(200, body)) == Ok(Some(s));
  }

  // ----- the mids -----

  /** `{k.upper(): float(v) for k, v in data.items()}`: members in document
      order, a later key overwriting an earlier one with the same upper-case
      form, the first value `float()` refuses raising. */
  function MidsMap(fields: seq<(string, Json)>): (r: Result<map<string, Price>>)
    ensures r.Ok? ==> r.value.Keys == UpperKeys(fields)
    ensures r.Ok? && fields != [] ==> r.value[Upper(fields[|fields| - 1].0)] == Price(fields[|fields| - 1].1)
    decreases |fields|
  {
    if fields == [] then Ok(map[])
    else
      var n := |fields| - 1;
      match MidsMap(fields[..n])
      case Raised(m) => Raised(m)
      case Ok(m) =>
        match ToFloat(fields[n].1)
        case Raised(e) => Raised(e)
        case Ok(p) =>
          UpperKeysSnoc(fields);
          Ok(m[Upper(fields[n].0) := p])
  }

  /** The upper-cased keys of the members. */
  ghost function UpperKeys(fields: seq<(string, Json)>): set<string> {
    set i | 0 <= i < |fields| :: Upper(fields[i].0)
  }

  lemma UpperKeysSnoc(fields: seq<(string, Json)>)
    requires fields != []
    ensures UpperKeys(fields) == UpperKeys(fields[..|fields| - 1]) + {Upper(fields[|fields| - 1].0)}
  {
    var n := |fields| - 1;
    assert forall i :: 0 <= i < n ==> fields[..n][i] == fields[i];
  }

  /** Every key of the mids map is upper-case. */
  lemma MidsKeysUpper(fields: seq<(string, Json)>)
    requires MidsMap(fields).Ok?
    ensures forall k :: k in MidsMap(fields).value ==> NoLower(k)
  {
    forall k | k in MidsMap(fields).value ensures NoLower(k) {
      var i :| 0 <= i < |fields| && Upper(fields[i].0) == k;
    }
  }

  /** Position `i` holds the last member whose key upper-cases to `k`. */
  predicate LastWith(fields: seq<(string, Json)>, k: string, i: int) {
    0 <= i < |fields| && Upper(fields[i].0) == k &&
    forall j :: i < j < |fields| ==> Upper(fields[j].0) != k
  }

  /** Of the members whose keys collide once upper-cased, the later one
      wins: each key maps to the float of the last member with that key. */
  lemma {:induction false} MidsLaterWins(fields: seq<(string, Json)>)
    requires MidsMap(fields).Ok?
    ensures forall k :: k in MidsMap(fields).value ==>
      exists i :: LastWith(fields, k, i) && MidsMap(fields).value[k] == Price(fields[i].1)
    decreases |fields|
  {
    if fields != [] {
      var n := |fields| - 1;
      var pre := fields[..n];
      MidsLaterWins(pre);
      var m := MidsMap(fields).value;
      forall k | k in m ensures exists i :: LastWith(fields, k, i) && m[k] == Price(fields[i].1) {
        if k == Upper(fields[n].0) {
          assert LastWith(fields, k, n);
        } else {
          var i :| LastWith(pre, k, i) && MidsMap(pre).value[k] == Price(pre[i].1);
          assert pre[i] == fields[i];
          LastWithSnoc(fields, k, i);
        }
      }
    }
  }

  /** The mids map is built exactly when `float()` accepts every value. */
  lemma {:induction false} MidsMapOk(fields: seq<(string, Json)>)
    ensures MidsMap(fields).Ok? <==> Floats(fields)
    decreases |fields|
  {
    if fields != [] {
      var n := |fields| - 1;
      var pre := fields[..n];
      MidsMapOk(pre);
      assert MidsMap(fields).Ok? <==> MidsMap(pre).Ok? && ToFloat(fields[n].1).Ok?;
      FloatsSnoc(fields);
    }
  }

  /** Every value of the members is accepted by `float()`. */
  predicate Floats(fields: seq<(string, Json)>) {
    forall i :: 0 <= i < |fields| ==> ToFloat(fields[i].1).Ok?
  }

  lemma FloatsSnoc(fields: seq<(string, Json)>)
    requires fields != []
    ensures Floats(fields) <==> Floats(fields[..|fields| - 1]) && ToFloat(fields[|fields| - 1].1).Ok?
  {
    var n := |fields| - 1;
    assert forall i :: 0 <= i < n ==> fields[..n][i] == fields[i];
  }

  lemma LastWithSnoc(fields: seq<(string, Json)>, k: string, i: int)
    requires fields != [] && LastWith(fields[..|fields| - 1], k, i) && k != Upper(fields[|fields| - 1].0)
    ensures LastWith(fields, k, i)
  {
    var n := |fields| - 1;
    assert forall j :: 0 <= j < n ==> fields[..n][j] == fields[j];
  }

  /** `_fetch_all_mids`, given the reply: `None` when there is no response or
      the status is not 200; `(body or {}).items()` raises on anything but
      a dict. */
  function MidsOf(reply: Reply): (r: Result<Option<map<string, Price>>>)
    ensures reply.NoResponse? || reply.status != 200 ==> r == Ok(None)
    ensures reply.Response? && reply.status == 200 && reply.body.JObj? ==>
      r == (match MidsMap(reply.body.fields) case Raised(m) => Raised(m) case Ok(mids) => Ok(Some(mids)))
    ensures reply.Response? && reply.status == 200 && !Truthy(reply.body) ==> r == Ok(Some(map[]))
    ensures reply.Response? && reply.status == 200 && Truthy(reply.body) && !reply.body.JObj? ==> r.Raised?
  {
    match reply
    case NoResponse => Ok(None)
    case Response(status, body) =>
      if status != 200 then Ok(None)
      else
        var data := Or(body, JObj([]));
        if !data.JObj? then Raised(AttributeError(data, "items"))
        else match MidsMap(data.fields)
          case Raised(m) => Raised(m)
          case Ok(mids) => Ok(Some(mids))
  }

  /** `mids.get(symbol.upper())` after the `if not mids` guard. */
  function MidLookup(mids: Option<map<string, Price>>, symbol: string): (r: Option<Price>)
    ensures r.Some? <==> mids.Some? && Upper(symbol) in mids.value
    ensures r.Some? ==> r.value == mids.value[Upper(symbol)]
  {
    match mids
    case None => None
    case Some(m) =>
      if m == map[] then None
      else if Upper(symbol) in m then Some(m[Upper(symbol)]) else None
  }

  /** Symbols that differ only in case read the same mid price. */
  lemma LookupIgnoresCase(mids: Option<map<string, Price>>, a: string, b: string)
    requires Upper(a) == Upper(b)
    ensures MidLookup(mids, a) == MidLookup(mids, b)
  {
  }

  /** `get_price_for_futures_symbol`: one `allMids` request. */
  function MidPrice(t: Transport, symbol: string): Result<Option<Price>> {
    match Deliver(t, MidsRequest())
    case Raised(m) => Raised(m)
    case Ok(reply) =>
      match MidsOf(reply)
      case Raised(m) => Raised(m)
      case Ok(mids) => Ok(MidLookup(mids, symbol))
  }

  // ----- matching a token against the universe -----

  /** `s[:-len(q)] if s.endswith(q) else s` */
  function DropSuffix(s: string, q: string): (r: string)
    requires q != []
    ensures EndsWith(s, q) ==> r + q == s
    ensures !EndsWith(s, q) ==> r == s
  {
    if EndsWith(s, q) then DropEnd(s, |q|) else s
  }

  /** The quote loop run over the first quotes of `qs`, without a `break`. */
  function StripQuotes(s: string, qs: seq<string>): string
    requires forall i :: 0 <= i < |qs| ==> qs[i] != []
    decreases |qs|
  {
    if qs == [] then s else StripQuotes(DropSuffix(s, qs[0]), qs[1..])
  }

  lemma {:induction false} StripQuotesSnoc(s: string, qs: seq<string>, q: string)
    requires forall i :: 0 <= i < |qs| ==> qs[i] != []
    requires q != []
    ensures forall i :: 0 <= i < |qs + [q]| ==> (qs + [q])[i] != []
    ensures StripQuotes(s, qs + [q]) == DropSuffix(StripQuotes(s, qs), q)
    decreases |qs|
  {
    if qs != [] {
      assert (qs + [q])[1..] == qs[1..] + [q];
      StripQuotesSnoc(DropSuffix(s, qs[0]), qs[1..], q);
    }
  }

  /** The token before the quote loop: trimmed, upper-cased, every `PERP`
      deleted, then everything outside `[A-Z0-9]` deleted. */
  function Cleaned(input: string): (r: string)
    ensures forall i :: 0 <= i < |r| ==> IsUpperAlnum(r[i])
  {
    KeepUpperAlnum(Replace(Upper(Strip(input)), "PERP", ""))
  }

  /** The normalised token `_normalize_to_coin` looks up. */
  function CoinToken(input: string): string {
    StripQuotes(Cleaned(input), QUOTES)
  }

  /** The quote checks do not stop at the first hit: `USDT`, then `USD`, are
      both stripped from `BTCUSDUSDT`. */
  lemma NoBreakBetweenQuotes()
    ensures StripQuotes("BTCUSDUSDT", QUOTES) == "BTC"
  {
    assert EndsWith("BTCUSDUSDT", "USDT");
    assert DropSuffix("BTCUSDUSDT", "USDT") == "BTCUSD";
    assert !EndsWith("BTCUSD", "USDC");
    assert EndsWith("BTCUSD", "USD");
    assert DropSuffix("BTCUSD", "USD") == "BTC";
    assert QUOTES[1..][1..][1..] == [];
  }

  /** The universe members that contain `s`. */
  function Matches(s: string, universe: set<string>): (r: set<string>)
    ensures forall u :: u in r <==> u in universe && Contains(u, s)
  {
    set u | u in universe && Contains(u, s)
  }

  /** `u` is the only universe member containing `s`. */
  predicate OnlyMatch(s: string, universe: set<string>, u: string) {
    u in universe && Contains(u, s) && forall x :: x in universe && Contains(x, s) ==> x == u
  }

  /** `_normalize_to_coin` on an already normalised token: the token itself
      when the universe has it, else the one member containing it, else
      nothing. */
  ghost function Coin(s: string, universe: set<string>): (r: Option<string>)
    ensures r.Some? ==> r.value in universe
    ensures s in universe ==> r == Some(s)
    ensures s !in universe && r.Some? ==> OnlyMatch(s, universe, r.value)
    ensures s !in universe && (exists u :: OnlyMatch(s, universe, u)) ==> r.Some?
  {
    if s in universe then Some(s)
    else if exists u :: OnlyMatch(s, universe, u) then
      var u :| OnlyMatch(s, universe, u); Some(u)
    else None
  }

  /** With no exact hit, two different members containing the token leave it
      unmatched. */
  lemma AmbiguousUnmatched(s: string, universe: set<string>, a: string, b: string)
    requires s !in universe
    requires a in universe && b in universe && a != b && Contains(a, s) && Contains(b, s)
    ensures Coin(s, universe) == None
  {
  }

  /** With no exact hit and no member containing the token, it is unmatched. */
  lemma NothingContainsUnmatched(s: string, universe: set<string>)
    requires s !in universe
    requires forall u :: u in universe ==> !Contains(u, s)
    ensures Coin(s, universe) == None
  {
  }

  lemma {:induction false} ContainsEmpty(u: string)
    ensures Contains(u, "")
  {
    assert StartsWith(u, "");
  }

  /** A token that normalises to nothing (`PERP`, `USDT`, `$`) matches the
      only coin of a one-coin universe, and nothing in a larger one. */
  lemma EmptyTokenMatchesSoleCoin(universe: set<string>, c: string)
    requires "" !in universe && c in universe
    ensures Coin("", universe) == Some(c) <==> universe == {c}
  {
    ContainsEmpty(c);
    if universe == {c} {
      assert OnlyMatch("", universe, c);
    } else {
      var d :| d in universe && d != c;
      ContainsEmpty(d);
      AmbiguousUnmatched("", universe, c, d);
    }
  }

  /** `_normalize_to_coin`: the quote loop, then the comprehension over the
      universe. */
  method NormalizeToCoin(input: string, universe: set<string>) returns (r: Option<string>)
    ensures r == Coin(CoinToken(input), universe)
  {
    var s := StripQuoteLoop(Cleaned(input));
    if s in universe {
      r := Some(s);
    } else {
      var candidates := MatchList(s, universe);
      CoinOfMatches(s, universe, candidates);
      r := if |candidates| == 1 then Some(candidates[0]) else None;
    }
  }

  /** Without an exact hit, the coin is the single member containing the
      token, and there is none when two or no members contain it. */
  lemma CoinOfMatches(s: string, universe: set<string>, cands: seq<string>)
    requires s !in universe
    requires forall u :: u in cands <==> u in Matches(s, universe)
    requires forall i, j :: 0 <= i < j < |cands| ==> cands[i] != cands[j]
    ensures Coin(s, universe) == if |cands| == 1 then Some(cands[0]) else None
  {
    if |cands| == 1 {
      assert cands[0] in cands;
      forall x | x in universe && Contains(x, s) ensures x == cands[0] {
        assert x in Matches(s, universe);
      }
      assert OnlyMatch(s, universe, cands[0]);
    } else if |cands| >= 2 {
      assert cands[0] in cands && cands[1] in cands;
      AmbiguousUnmatched(s, universe, cands[0], cands[1]);
    } else {
      forall u | u in universe ensures !Contains(u, s) {
        assert u !in cands;
      }
      NothingContainsUnmatched(s, universe);
    }
  }

  /** The loop `for quote in ("USDT", "USDC", "USD"): if s.endswith(quote): s = s[:-len(quote)]`. */
  method StripQuoteLoop(s0: string) returns (s: string)
    ensures s == StripQuotes(s0, QUOTES)
  {
    s := s0;
    for i := 0 to |QUOTES|
      invariant s == StripQuotes(s0, QUOTES[..i])
    {
      var quote := QUOTES[i];
      if EndsWith(s, quote) {
        s := s[..|s| - |quote|];
      }
      assert QUOTES[..i + 1] == QUOTES[..i] + [quote];
      StripQuotesSnoc(s0, QUOTES[..i], quote);
    }
    assert QUOTES[..|QUOTES|] == QUOTES;
  }

  /** `[u for u in universe if s in u]`, in the set's iteration order. */
  method MatchList(s: string, universe: set<string>) returns (cands: seq<string>)
    ensures forall u :: u in cands <==> u in Matches(s, universe)
    ensures forall i, j :: 0 <= i < j < |cands| ==> cands[i] != cands[j]
  {
    cands := [];
    var rest := universe;
    while rest != {}
      invariant rest <= universe
      invariant forall u :: u in cands <==> u in universe - rest && Contains(u, s)
      invariant forall i, j :: 0 <= i < j < |cands| ==> cands[i] != cands[j]
      decreases rest
    {
      var u :| u in rest;
      if Contains(u, s) {
        cands := cands + [u];
      }
      rest := rest - {u};
    }
  }

  // ----- the client -----

  /** `get_futures_price`, request by request. */
  ghost function FuturesResolution(t: Transport, token: string): Result<Option<Resolved>> {
    match FetchedUniverse(t)
    case Raised(m) => Raised(m)
    case Ok(None) => Ok(None)
    case Ok(Some(universe)) =>
      if universe == {} then Ok(None) else ResolutionIn(t, token, universe)
  }

  /** What `_fetch_universe` returns or raises. */
  function FetchedUniverse(t: Transport): Result<Option<set<string>>> {
    match Deliver(t, MetaRequest())
    case Raised(m) => Raised(m)
    case Ok(reply) => UniverseOf(reply)
  }

  /** The match against a non-empty universe, then the mid price. */
  ghost function ResolutionIn(t: Transport, token: string, universe: set<string>): Result<Option<Resolved>> {
    match Coin(CoinToken(token), universe)
    case None => Ok(None)
    case Some(coin) => PricedCoin(t, coin)
  }

  /** The result for a matched coin. */
  function PricedCoin(t: Transport, coin: string): Result<Option<Resolved>> {
    match MidPrice(t, coin)
    case Raised(m) => Raised(m)
    case Ok(None) => Ok(None)
    case Ok(Some(p)) => Ok(Some(Resolved(coin, p, FuturesLink(coin))))
  }

  /** Whether the universe request leaves nothing to match against. */
  predicate NoUniverse(t: Transport) {
    match FetchedUniverse(t)
    case Raised(_) => false
    case Ok(u) => u.None? || u.value == {}
  }

  function FuturesLink(symbol: string): string {
    "https://app.hyperliquid.xyz/trade/" + symbol
  }

  /** `get_spot_link`: there is no spot market. */
  function SpotLink(pair: string): (r: string)
    ensures r == ""
  {
    ""
  }

  /** `_fetch_universe` */
  method FetchUniverse(t: Transport) returns (r: Result<Option<set<string>>>)
    ensures r == FetchedUniverse(t)
  {
    var reply, _, _ := Send(t, MetaRequest());
    if reply.Raised? {
      return Raised(reply.message);
    }
    r := UniverseOf(reply.value);
  }

  /** `get_price_for_futures_symbol` */
  method GetPriceForFuturesSymbol(t: Transport, symbol: string) returns (r: Result<Option<Price>>, ghost sent: seq<Request>)
    ensures r == MidPrice(t, symbol)
    ensures sent == [MidsRequest()]
  {
    var reply, _, _ := Send(t, MidsRequest());
    sent := [MidsRequest()];
    if reply.Raised? {
      return Raised(reply.message), sent;
    }
    var mids := MidsOf(reply.value);
    if mids.Raised? {
      return Raised(mids.message), sent;
    }
    r := Ok(MidLookup(mids.value, symbol));
  }

  /** `get_futures_price`: the universe, then the match, then the mid price.
      Without a universe, nothing else is requested. */
  method GetFuturesPrice(t: Transport, token: string) returns (out: Result<Option<Resolved>>, ghost sent: seq<Request>)
    ensures out == FuturesResolution(t, token)
    ensures NoUniverse(t) ==> out == Ok(None) && sent == [MetaRequest()]
    ensures sent == [MetaRequest()] || sent == [MetaRequest(), MidsRequest()]
  {
    var universe := FetchUniverse(t);
    UniverseDecides(t, token, universe);
    sent := [MetaRequest()];
    match universe {
      case Raised(m) => out := Raised(m);
      case Ok(None) => out := Ok(None);
      case Ok(Some(u)) =>
        if u == {} {
          out := Ok(None);
        } else {
          ghost var more;
          out, more := ResolveIn(t, token, u);
          sent := sent + more;
        }
    }
  }

  /** How the fetched universe decides the futures resolution. */
  lemma UniverseDecides(t: Transport, token: string, u: Result<Option<set<string>>>)
    requires u == FetchedUniverse(t)
    ensures u.Raised? ==> FuturesResolution(t, token) == Raised(u.message) && !NoUniverse(t)
    ensures u.Ok? && (u.value.None? || u.value.value == {}) ==> FuturesResolution(t, token) == Ok(None) && NoUniverse(t)
    ensures u.Ok? && u.value.Some? && u.value.value != {} ==>
      FuturesResolution(t, token) == ResolutionIn(t, token, u.value.value) && !NoUniverse(t)
  {
  }

  /** The part of `get_futures_price` after the universe is known: the match,
      then at most one request for the mid prices. */
  method ResolveIn(t: Transport, token: string, universe: set<string>)
    returns (out: Result<Option<Resolved>>, ghost sent: seq<Request>)
    ensures out == ResolutionIn(t, token, universe)
    ensures sent == [] || sent == [MidsRequest()]
  {
    var coin := NormalizeToCoin(token, universe);
    if coin.None? {
      return Ok(None), [];
    }
    var price;
    price, sent := GetPriceForFuturesSymbol(t, coin.value);
    match price {
      case Raised(m) => out := Raised(m);
      case Ok(None) => out := Ok(None);
      case Ok(Some(p)) => out := Ok(Some(Resolved(coin.value, p, FuturesLink(coin.value))));
    }
  }

  /** A resolved coin is a member of the universe the exchange sent. */
  lemma ResolvedCoinListed(t: Transport, token: string)
    requires FuturesResolution(t, token).Ok? && FuturesResolution(t, token).value.Some?
    ensures Deliver(t, MetaRequest()).Ok?
    ensures var u := UniverseOf(Deliver(t, MetaRequest()).value);
      u.Ok? && u.value.Some? && FuturesResolution(t, token).value.value.symbol in u.value.value
    ensures var r := FuturesResolution(t, token).value.value;
      r.url == FuturesLink(r.symbol) && MidPrice(t, r.symbol) == Ok(Some(r.price))
  {
    var fetched := FetchedUniverse(t);
    UniverseDecides(t, token, fetched);
    assert Deliver(t, MetaRequest()).Ok? && UniverseOf(Deliver(t, MetaRequest()).value) == fetched;
    var universe := fetched.value.value;
    var coin := Coin(CoinToken(token), universe);
    assert coin.Some? && FuturesResolution(t, token) == PricedCoin(t, coin.value);
    var mid := MidPrice(t, coin.value);
    assert mid.Ok? && mid.value.Some?;
    assert FuturesResolution(t, token).value.value == Resolved(coin.value, mid.value.value, FuturesLink(coin.value));
  }

  /** `get_spot_price` and `get_price_for_spot_symbol`: nothing, without a
      request. */
  method GetSpotPrice(token: string) returns (out: Result<Option<Resolved>>, ghost sent: seq<Request>)
    ensures out == Ok(None) && sent == []
  {
    out, sent := Ok(None), [];
  }

  method GetPriceForSpotSymbol(symbol: string) returns (r: Result<Option<Price>>, ghost sent: seq<Request>)
    ensures r == Ok(None) && sent == []
  {
    r, sent := Ok(None), [];
  }
}
