/** The Gate.io client (`GateClient`): one candidate name per token, an
    existence check of the contract or pair before its price is requested,
    and the `last` field of the first ticker as the price. */
module Gate {
  import opened PyStr
  import opened Py
  import opened Base
  import Probe

  const NAME := "gate"
  const FX_API_BASE := "https://fx-api.gateio.ws/api/v4"
  const SPOT_API_BASE := "https://api.gateio.ws/api/v4"
  const SETTLE := "usdt"

  /** Trim, upper-case, drop spaces, turn `-` and `/` into `_`. */
  function Normalize(input: string): string {
    Replace(Replace(Replace(Upper(Strip(input)), " ", ""), "-", "_"), "/", "_")
  }

  /** `_generate_candidate_names`: a single name ending in `_USDT`, which is
      the normalised input itself when it already ends that way. */
  function CandidateNames(input: string): (r: seq<string>)
    ensures |r| == 1 && EndsWith(r[0], "_USDT")
    ensures r[0] == Normalize(input) <==> EndsWith(Normalize(input), "_USDT")
    ensures r[0] != Normalize(input) ==> r[0] == Normalize(input) + "_USDT"
  {
    var s := Normalize(input);
    if EndsWith(s, "_USDT") then [s] else [s + "_USDT"]
  }

  /** What a normalised name looks like: no surrounding whitespace, no
      lower-case letter, no space, `-` or `/`. */
  predicate Clean(s: string) {
    Trimmed(s) && NoLower(s) && ' ' !in s && '-' !in s && '/' !in s
  }

  lemma NormalizeClean(input: string)
    ensures Clean(Normalize(input))
  {
    NormalizeChars(input);
    NormalizeTrimmed(input);
  }

  lemma NormalizeChars(input: string)
    ensures var s := Normalize(input);
      NoLower(s) && ' ' !in s && '-' !in s && '/' !in s
  {
    var s1 := Upper(Strip(input));
    UpperKeeps(Strip(input), ' ');
    ReplaceCharNoLower(s1, ' ', "");
    ReplaceCharGone(s1, ' ', "");
    var s2 := Replace(s1, " ", "");
    DashesUnderscored(s2);
    SlashesUnderscored(Replace(s2, "-", "_"));
  }

  /** The `-` step keeps the earlier steps' work and removes every `-`. */
  lemma DashesUnderscored(s: string)
    requires NoLower(s) && ' ' !in s
    ensures var r := Replace(s, "-", "_"); NoLower(r) && ' ' !in r && '-' !in r
  {
    ReplaceCharNoLower(s, '-', "_");
    ReplaceCharKeeps(s, '-', "_", ' ');
    ReplaceCharGone(s, '-', "_");
  }

  /** The `/` step keeps the earlier steps' work and removes every `/`. */
  lemma SlashesUnderscored(s: string)
    requires NoLower(s) && ' ' !in s && '-' !in s
    ensures var r := Replace(s, "/", "_"); NoLower(r) && ' ' !in r && '-' !in r && '/' !in r
  {
    ReplaceCharNoLower(s, '/', "_");
    ReplaceCharKeeps(s, '/', "_", ' ');
    ReplaceCharKeeps(s, '/', "_", '-');
    ReplaceCharGone(s, '/', "_");
  }

  lemma NormalizeTrimmed(input: string)
    ensures Trimmed(Normalize(input))
  {
    var s1 := Upper(Strip(input));
    UpperKeeps(Strip(input), ' ');
    var s2 := Replace(s1, " ", "");
    ReplaceCharTrimmed(s1, ' ', "");
    var s3 := Replace(s2, "-", "_");
    ReplaceCharTrimmed(s2, '-', "_");
    ReplaceCharTrimmed(s3, '/', "_");
  }

  /** A clean name normalises to itself. */
  lemma NormalizeFixes(s: string)
    requires Clean(s)
    ensures Normalize(s) == s
  {
    StripTrimmed(s);
    UpperIdentity(s);
    ContainsChar(s, ' ');
    ReplaceAbsent(s, " ", "");
    ContainsChar(s, '-');
    ReplaceAbsent(s, "-", "_");
    ContainsChar(s, '/');
    ReplaceAbsent(s, "/", "_");
  }

  /** Appending `_USDT` keeps a name clean. */
  lemma CleanSuffix(s: string)
    requires Clean(s)
    ensures Clean(s + "_USDT")
  {
    var c := s + "_USDT";
    forall i | 0 <= i < |c|
      ensures !IsLower(c[i]) && c[i] != ' ' && c[i] != '-' && c[i] != '/'
    {
      if i < |s| {
        assert c[i] == s[i];
      } else {
        assert c[i] == "_USDT"[i - |s|];
      }
    }
    assert c[|c| - 1] == 'T';
    assert s != [] ==> c[0] == s[0];
  }

  /** Feeding the candidate back into the generator gives the same list. */
  lemma CandidateIdempotent(input: string)
    ensures CandidateNames(CandidateNames(input)[0]) == CandidateNames(input)
  {
    var s := Normalize(input);
    NormalizeClean(input);
    var c := CandidateNames(input)[0];
    if c != s {
      CleanSuffix(s);
    }
    NormalizeFixes(c);
  }

  function FuturesLink(symbol: string): string {
    "https://www.gate.com/futures/USDT/" + symbol
  }

  function SpotLink(pair: string): string {
    "https://www.gate.com/trade/" + pair
  }

  function CheckFutureRequest(contract: string): Request {
    Request("GET", FX_API_BASE + "/futures/" + SETTLE + "/contracts/" + contract, [], None, None)
  }

  function CheckSpotRequest(pair: string): Request {
    Request("GET", SPOT_API_BASE + "/spot/currency_pairs/" + pair, [], None, None)
  }

  function FxTickerRequest(contract: string): Request {
    Request("GET", FX_API_BASE + "/futures/" + SETTLE + "/tickers", [("contract", contract)], None, Some(10.0))
  }

  function SpotTickerRequest(pair: string): Request {
    Request("GET", SPOT_API_BASE + "/spot/tickers", [("currency_pair", pair)], None, Some(10.0))
  }

  /** What an existence check gives: whether a 200 response came back. */
  function Valid(t: Transport, check: Request): Result<bool> {
    match Deliver(t, check)
    case Raised(m) => Raised(m)
    case Ok(reply) => Ok(reply.Response? && reply.status == 200)
  }

  /** `_is_valid_future` / `_is_valid_spot_pair` */
  method IsValid(t: Transport, check: Request) returns (r: Result<bool>)
    ensures r.Ok? <==> Deliver(t, check).Ok?
    ensures r == Ok(true) <==> Deliver(t, check).Ok? && Deliver(t, check).value.Response? && Deliver(t, check).value.status == 200
    ensures r.Raised? ==> r.message == Deliver(t, check).message
    ensures r == Valid(t, check)
  {
    var reply, _, _ := Send(t, check);
    match reply {
      case Raised(m) => r := Raised(m);
      case Ok(x) => r := Ok(x.Response? && x.status == 200);
    }
  }

  /** `_fetch_fx_last` / `_fetch_spot_last` once the reply is in: nothing on
      no response or a non-200 status; otherwise `float(data[0]["last"])`
      when the body is non-empty and its first element has `last`. */
  function LastOf(reply: Reply): (r: Result<Option<Price>>)
    ensures reply.NoResponse? || reply.status != 200 ==> r == Ok(None)
    ensures (reply.Response? && reply.body.JArr? && reply.body.items != [] && reply.body.items[0].JObj? &&
             Lookup(reply.body.items[0].fields, "last").None?) ==> r == Ok(None)
    ensures r.Ok? && r.value.Some? ==>
      reply.Response? && reply.status == 200 && reply.body.JArr? && reply.body.items != [] &&
      reply.body.items[0].JObj? && Lookup(reply.body.items[0].fields, "last").Some? &&
      r.value.value == Price(Lookup(reply.body.items[0].fields, "last").value)
    ensures (reply.Response? && reply.status == 200 && reply.body.JArr? && reply.body.items != [] &&
             reply.body.items[0].JObj? && Lookup(reply.body.items[0].fields, "last").Some?) ==>
      r == FloatPrice(Lookup(reply.body.items[0].fields, "last").value)
    ensures reply.Response? && !Truthy(reply.body) ==> r == Ok(None)
    ensures reply.Response? && reply.status == 200 && Truthy(reply.body) && reply.body.JObj? ==> r == Raised("0")
    ensures reply.Response? && reply.status == 200 && Truthy(reply.body) && !reply.body.JArr? && !reply.body.JStr? ==>
      r.Raised?
    ensures (reply.Response? && reply.status == 200 && reply.body.JArr? && reply.body.items != [] &&
             !reply.body.items[0].JObj? && !reply.body.items[0].JArr? && !reply.body.items[0].JStr?) ==>
      r.Raised?
  {
    match reply
    case NoResponse => Ok(None)
    case Response(status, data) =>
      if status != 200 || !Truthy(data) then Ok(None)
      else match Index0(data)
        case Raised(m) => Raised(m)
        case Ok(first) =>
          match In("last", first)
          case Raised(m) => Raised(m)
          case Ok(has) =>
            if !has then Ok(None)
            else match Subscript(first, "last")
              case Raised(m) => Raised(m)
              case Ok(v) => FloatPrice(v)
  }

  /** The first candidate whose existence check answers 200. */
  function FirstValid(t: Transport, cands: seq<string>, check: string -> Request): Result<Option<string>>
    decreases |cands|
  {
    if cands == [] then Ok(None)
    else match Valid(t, check(cands[0]))
      case Raised(m) => Raised(m)
      case Ok(ok) => if ok then Ok(Some(cands[0])) else FirstValid(t, cands[1..], check)
  }

  /** The existence checks the candidate loop makes, in order. */
  function CheckLog(t: Transport, cands: seq<string>, check: string -> Request): seq<Request>
    decreases |cands|
  {
    if cands == [] then []
    else [check(cands[0])] + (if Valid(t, check(cands[0])) == Ok(false) then CheckLog(t, cands[1..], check) else [])
  }

  /** The price request made after the checks, if any. */
  function PriceLog(t: Transport, cands: seq<string>, check: string -> Request, ticker: string -> Request): seq<Request> {
    match FirstValid(t, cands, check)
    case Ok(Some(s)) => if s == [] then [] else [ticker(s)]
    case _ => []
  }

  /** The resolution: the first candidate that exists, priced. */
  function CheckedResolution(t: Transport, cands: seq<string>, check: string -> Request,
                             ticker: string -> Request, link: string -> string): Result<Option<Resolved>>
  {
    match FirstValid(t, cands, check)
    case Raised(m) => Raised(m)
    case Ok(None) => Ok(None)
    case Ok(Some(s)) =>
      if s == [] then Ok(None)
      else match Probe.Step(t, s, ticker, LastOf)
        case Raised(m) => Raised(m)
        case Ok(None) => Ok(None)
        case Ok(Some(p)) => Ok(Some(Resolved(s, p, link(s))))
  }

  /** A candidate picked by the loop is one whose check answered 200, after
      its check was made. */
  lemma {:induction false} FirstValidFound(t: Transport, cands: seq<string>, check: string -> Request, s: string)
    requires FirstValid(t, cands, check) == Ok(Some(s))
    ensures s in cands && Valid(t, check(s)) == Ok(true)
    ensures check(s) in CheckLog(t, cands, check)
    decreases |cands|
  {
    if Valid(t, check(cands[0])) != Ok(true) {
      FirstValidFound(t, cands[1..], check, s);
    }
  }

  /** The price is requested only for a candidate whose existence check
      answered 200, and only after that check. */
  lemma PriceOnlyAfterCheck(t: Transport, cands: seq<string>, check: string -> Request, ticker: string -> Request)
    ensures |PriceLog(t, cands, check, ticker)| <= 1
    ensures forall r :: r in PriceLog(t, cands, check, ticker) ==>
      exists s :: s in cands && r == ticker(s) && Valid(t, check(s)) == Ok(true) && check(s) in CheckLog(t, cands, check)
  {
    var f := FirstValid(t, cands, check);
    if f.Ok? && f.value.Some? {
      FirstValidFound(t, cands, check, f.value.value);
    }
  }

  /** A resolved instrument is a candidate that passed its check; its price
      is what the known-symbol price call gives and its URL is its link. */
  lemma CheckedResolved(t: Transport, cands: seq<string>, check: string -> Request,
                        ticker: string -> Request, link: string -> string, x: Resolved)
    requires CheckedResolution(t, cands, check, ticker, link) == Ok(Some(x))
    ensures x.symbol in cands && Valid(t, check(x.symbol)) == Ok(true)
    ensures Probe.Step(t, x.symbol, ticker, LastOf) == Ok(Some(x.price))
    ensures x.url == link(x.symbol)
  {
    FirstValidFound(t, cands, check, FirstValid(t, cands, check).value.value);
  }

  /** One round of the check loop, at position `i`. */
  lemma CheckStep(t: Transport, cands: seq<string>, i: nat, check: string -> Request)
    requires i < |cands|
    ensures var v := Valid(t, check(cands[i]));
      && FirstValid(t, cands[i..], check) == (if v == Ok(false) then FirstValid(t, cands[i + 1..], check)
                                              else if v.Raised? then Raised(v.message) else Ok(Some(cands[i])))
      && CheckLog(t, cands[i..], check) == [check(cands[i])] + (if v == Ok(false) then CheckLog(t, cands[i + 1..], check) else [])
  {
    assert cands[i..][1..] == cands[i + 1..];
  }

  /** The loop of `get_futures_price` / `get_spot_price`: check candidates
      in order and stop at the first that exists. */
  method FindValid(t: Transport, cands: seq<string>, check: string -> Request)
    returns (valid: Result<Option<string>>, ghost sent: seq<Request>)
    ensures valid == FirstValid(t, cands, check)
    ensures sent == CheckLog(t, cands, check)
  {
    valid := Ok(None);
    sent := [];
    var i := 0;
    while i < |cands|
      invariant 0 <= i <= |cands|
      invariant FirstValid(t, cands[i..], check) == FirstValid(t, cands, check)
      invariant CheckLog(t, cands, check) == sent + CheckLog(t, cands[i..], check)
    {
      var ok := IsValid(t, check(cands[i]));
      CheckStep(t, cands, i, check);
      sent := sent + [check(cands[i])];
      if ok == Ok(false) {
        i := i + 1;
      } else {
        valid := if ok.Raised? then Raised(ok.message) else Ok(Some(cands[i]));
        return;
      }
    }
    assert cands[i..] == [];
  }

  /** `get_futures_price` / `get_spot_price`: the first candidate that
      exists, then its price. `sent` lists the requests made. */
  method CheckThenPrice(t: Transport, cands: seq<string>, check: string -> Request,
                        ticker: string -> Request, link: string -> string)
    returns (out: Result<Option<Resolved>>, ghost sent: seq<Request>)
    ensures out == CheckedResolution(t, cands, check, ticker, link)
    ensures sent == CheckLog(t, cands, check) + PriceLog(t, cands, check, ticker)
  {
    var valid;
    valid, sent := FindValid(t, cands, check);
    if valid.Raised? {
      out := Raised(valid.message);
      return;
    }
    if valid.value.None? || valid.value.value == [] {
      out := Ok(None);
      return;
    }
    var symbol := valid.value.value;
    var price, priced := Probe.Fetch(t, symbol, ticker, LastOf);
    sent := sent + priced;
    match price {
      case Raised(m) => out := Raised(m);
      case Ok(None) => out := Ok(None);
      case Ok(Some(p)) => out := Ok(Some(Resolved(symbol, p, link(symbol))));
    }
  }

  function FuturesResolution(t: Transport, token: string): Result<Option<Resolved>> {
    CheckedResolution(t, CandidateNames(token), CheckFutureRequest, FxTickerRequest, FuturesLink)
  }

  function SpotResolution(t: Transport, token: string): Result<Option<Resolved>> {
    CheckedResolution(t, CandidateNames(token), CheckSpotRequest, SpotTickerRequest, SpotLink)
  }

  /** With a single candidate `c`, the requests are the check of `c`, then
      the ticker of `c` exactly when the check answered 200. */
  lemma SingleCandidateLog(t: Transport, c: string, check: string -> Request, ticker: string -> Request)
    requires c != []
    ensures CheckLog(t, [c], check) + PriceLog(t, [c], check, ticker) ==
      [check(c)] + (if Valid(t, check(c)) == Ok(true) then [ticker(c)] else [])
  {
    assert [c][1..] == [];
    match Valid(t, check(c)) {
      case Raised(m) =>
        assert FirstValid(t, [c], check) == Raised(m);
      case Ok(ok) =>
        if ok {
          assert FirstValid(t, [c], check) == Ok(Some(c));
        } else {
          assert FirstValid(t, [c], check) == Ok(None);
          assert CheckLog(t, [c], check) == [check(c)] + CheckLog(t, [], check);
        }
    }
  }

  method GetFuturesPrice(t: Transport, token: string) returns (out: Result<Option<Resolved>>, ghost sent: seq<Request>)
    ensures out == FuturesResolution(t, token)
    ensures var c := CandidateNames(token)[0];
      sent == [CheckFutureRequest(c)] + (if Valid(t, CheckFutureRequest(c)) == Ok(true) then [FxTickerRequest(c)] else [])
  {
    var cands := CandidateNames(token);
    out, sent := CheckThenPrice(t, cands, CheckFutureRequest, FxTickerRequest, FuturesLink);
    SingleCandidateLog(t, cands[0], CheckFutureRequest, FxTickerRequest);
  }

  method GetSpotPrice(t: Transport, token: string) returns (out: Result<Option<Resolved>>, ghost sent: seq<Request>)
    ensures out == SpotResolution(t, token)
    ensures var c := CandidateNames(token)[0];
      sent == [CheckSpotRequest(c)] + (if Valid(t, CheckSpotRequest(c)) == Ok(true) then [SpotTickerRequest(c)] else [])
  {
    var cands := CandidateNames(token);
    out, sent := CheckThenPrice(t, cands, CheckSpotRequest, SpotTickerRequest, SpotLink);
    SingleCandidateLog(t, cands[0], CheckSpotRequest, SpotTickerRequest);
  }

  function FuturesPriceOf(t: Transport, symbol: string): Result<Option<Price>> {
    Probe.Step(t, symbol, FxTickerRequest, LastOf)
  }

  function SpotPriceOf(t: Transport, symbol: string): Result<Option<Price>> {
    Probe.Step(t, symbol, SpotTickerRequest, LastOf)
  }

  /** `get_price_for_futures_symbol`: the ticker of exactly `symbol`, with no
      existence check. */
  method GetPriceForFuturesSymbol(t: Transport, symbol: string) returns (r: Result<Option<Price>>, ghost sent: seq<Request>)
    ensures r == FuturesPriceOf(t, symbol)
    ensures sent == [FxTickerRequest(symbol)]
  {
    r, sent := Probe.Fetch(t, symbol, FxTickerRequest, LastOf);
  }

  /** `get_price_for_spot_symbol`: the ticker of exactly `symbol`, with no
      existence check. */
  method GetPriceForSpotSymbol(t: Transport, symbol: string) returns (r: Result<Option<Price>>, ghost sent: seq<Request>)
    ensures r == SpotPriceOf(t, symbol)
    ensures sent == [SpotTickerRequest(symbol)]
  {
    r, sent := Probe.Fetch(t, symbol, SpotTickerRequest, LastOf);
  }
}
