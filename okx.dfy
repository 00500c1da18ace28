/** The OKX client (`OkxClient`): instrument ids `BASE-USDT` and
    `BASE-USDT-SWAP`, one ticker endpoint for both markets, and the `last`
    field of the first `data` entry as the price. */
module Okx {
  import opened PyStr
  import opened Py
  import opened Base
  import opened Symbols
  import Probe

  const NAME := "okx"
  const BASE_API := "https://www.okx.com/api/v5"

  /** Trim, upper-case, drop spaces, turn `/` and `_` into `-`. */
  function Normalize(input: string): string {
    Replace(Replace(Replace(Upper(Strip(input)), " ", ""), "/", "-"), "_", "-")
  }

  lemma NormalizeClean(input: string)
    ensures var s := Normalize(input);
      NoLower(s) && ' ' !in s && '/' !in s && '_' !in s
  {
    var s1 := Upper(Strip(input));
    UpperKeeps(Strip(input), ' ');
    ReplaceCharNoLower(s1, ' ', "");
    ReplaceCharGone(s1, ' ', "");
    var s2 := Replace(s1, " ", "");
    SlashesDashed(s2);
    UnderscoresDashed(Replace(s2, "/", "-"));
  }

  /** The `/` step keeps the earlier steps' work and removes every `/`. */
  lemma SlashesDashed(s: string)
    requires NoLower(s) && ' ' !in s
    ensures var r := Replace(s, "/", "-"); NoLower(r) && ' ' !in r && '/' !in r
  {
    ReplaceCharNoLower(s, '/', "-");
    ReplaceCharKeeps(s, '/', "-", ' ');
    ReplaceCharGone(s, '/', "-");
  }

  /** The `_` step keeps the earlier steps' work and removes every `_`. */
  lemma UnderscoresDashed(s: string)
    requires NoLower(s) && ' ' !in s && '/' !in s
    ensures var r := Replace(s, "_", "-"); NoLower(r) && ' ' !in r && '/' !in r && '_' !in r
  {
    ReplaceCharNoLower(s, '_', "-");
    ReplaceCharKeeps(s, '_', "-", ' ');
    ReplaceCharKeeps(s, '_', "-", '/');
    ReplaceCharGone(s, '_', "-");
  }

  /** `_generate_spot`: a single id ending in `-USDT`. An input already
      ending in `-USDT` is kept; otherwise one trailing `USDT` is dropped and
      `-USDT` appended. */
  function SpotCandidates(input: string): (r: seq<string>)
    ensures |r| == 1 && EndsWith(r[0], "-USDT")
  {
    [SpotId(Normalize(input))]
  }

  /** The spot id of a normalised token. */
  function SpotId(s: string): (r: string)
    ensures EndsWith(r, "-USDT")
  {
    if EndsWith(s, "-USDT") then s else DropQuote(s) + "-USDT"
  }

  /** The three shapes of the spot id: the normalised input when it ends in
      `-USDT`, a bare trailing `USDT` turned into `-USDT`, or `-USDT`
      appended. */
  lemma SpotCandidateCases(input: string)
    ensures var s := Normalize(input); var c := SpotCandidates(input)[0];
      && (EndsWith(s, "-USDT") ==> c == s)
      && (!EndsWith(s, "-USDT") && EndsWith(s, "USDT") ==> c == s[..|s| - 4] + "-USDT")
      && (!EndsWith(s, "USDT") ==> c == s + "-USDT")
  {
    SpotIdCases(Normalize(input));
  }

  lemma SpotIdCases(s: string)
    ensures EndsWith(s, "-USDT") ==> SpotId(s) == s
    ensures !EndsWith(s, "-USDT") && EndsWith(s, "USDT") ==> SpotId(s) == s[..|s| - 4] + "-USDT"
    ensures !EndsWith(s, "USDT") ==> SpotId(s) == s + "-USDT"
  {
    if !EndsWith(s, "-USDT") && EndsWith(s, "USDT") {
      assert DropQuote(s) == s[..|s| - 4];
    }
  }

  /** `_generate_perp`: every `PERP`, then every `-USDT`, deleted, and
      `-USDT-SWAP` appended. */
  function PerpCandidates(input: string): (r: seq<string>)
    ensures |r| == 1 && EndsWith(r[0], "-USDT-SWAP")
  {
    var s := Replace(Replace(Normalize(input), "PERP", ""), "-USDT", "");
    [s + "-USDT-SWAP"]
  }

  /** A pair written with its quote, `B-USDT`, whose base has neither `-USDT`
      nor `PERP` in it, becomes the swap `B-USDT-SWAP`. */
  lemma PerpOfPair(input: string, b: string)
    requires Normalize(input) == b + "-USDT"
    requires !Contains(b, "-USDT") && !Contains(b + "-USDT", "PERP")
    ensures PerpCandidates(input) == [b + "-USDT-SWAP"]
  {
    ReplaceAbsent(b + "-USDT", "PERP", "");
    DashQuoteDropped(b);
  }

  /** Deleting `-USDT` from `b-USDT` leaves `b` when `b` has none. */
  lemma DashQuoteDropped(b: string)
    requires !Contains(b, "-USDT")
    ensures Replace(b + "-USDT", "-USDT", "") == b
  {
    assert "-USDT"[1..] == "USDT";
    ReplaceSuffix(b, "-USDT", "");
    assert b + [] == b;
  }

  /** A bare base with neither `-USDT` nor `PERP` in it gets the suffix. */
  lemma PerpOfBase(input: string)
    requires !Contains(Normalize(input), "-USDT") && !Contains(Normalize(input), "PERP")
    ensures PerpCandidates(input) == [Normalize(input) + "-USDT-SWAP"]
  {
    ReplaceAbsent(Normalize(input), "PERP", "");
    ReplaceAbsent(Normalize(input), "-USDT", "");
  }

  function TickerRequest(instId: string): Request {
    Request("GET", BASE_API + "/market/ticker", [("instId", instId)], None, Some(10.0))
  }

  /** `instId.replace('-', '-')` */
  function SpotLink(instId: string): (r: string)
    ensures r == "https://www.okx.com/ru/trade-spot/" + instId
  {
    ReplaceOneChar(instId, '-', "-");
    MapCharSelf(instId, '-');
    "https://www.okx.com/ru/trade-spot/" + Replace(instId, "-", "-")
  }

  function FuturesLink(instId: string): string {
    "https://www.okx.com/ru/trade-swap/" + instId
  }

  /** The `last` field of the first `data` entry: `None` when the reply is
      skipped (no response, non-200, empty `data`), otherwise `data[0].get("last")`,
      which is `JNull` when absent. */
  function LastField(reply: Reply): (r: Result<Option<Json>>)
    ensures reply.NoResponse? || reply.status != 200 ==> r == Ok(None)
    ensures r.Ok? && r.value.Some? ==> reply.Response? && reply.status == 200
    ensures (reply.Response? && reply.status == 200 && reply.body.JObj? &&
             Lookup(reply.body.fields, "data").Some? && Lookup(reply.body.fields, "data").value.JArr? &&
             Lookup(reply.body.fields, "data").value.items != [] && Lookup(reply.body.fields, "data").value.items[0].JObj?) ==>
      r == Ok(Some(match Lookup(Lookup(reply.body.fields, "data").value.items[0].fields, "last")
                   case Some(v) => v
                   case None => JNull))
    ensures (reply.Response? && reply.status == 200 &&
             (!Truthy(reply.body) ||
              (reply.body.JObj? && (Lookup(reply.body.fields, "data").None? || !Truthy(Lookup(reply.body.fields, "data").value))))) ==>
      r == Ok(None)
    ensures reply.Response? && reply.status == 200 && Truthy(reply.body) && !reply.body.JObj? ==> r.Raised?
    ensures (reply.Response? && reply.status == 200 && reply.body.JObj? &&
             Lookup(reply.body.fields, "data").Some? && Truthy(Lookup(reply.body.fields, "data").value) &&
             !Lookup(reply.body.fields, "data").value.JArr?) ==>
      r.Raised?
    ensures (reply.Response? && reply.status == 200 && reply.body.JObj? &&
             Lookup(reply.body.fields, "data").Some? && Lookup(reply.body.fields, "data").value.JArr? &&
             Lookup(reply.body.fields, "data").value.items != [] && !Lookup(reply.body.fields, "data").value.items[0].JObj?) ==>
      r.Raised?
  {
    match reply
    case NoResponse => Ok(None)
    case Response(status, body) =>
      if status != 200 then Ok(None)
      else match Get(Or(body, JObj([])), "data")
        case Raised(m) => Raised(m)
        case Ok(d) =>
          var data := Or(d, JArr([]));
          if !Truthy(data) then Ok(None)
          else match Index0(data)
            case Raised(m) => Raised(m)
            case Ok(first) =>
              match Get(first, "last")
              case Raised(m) => Raised(m)
              case Ok(last) => Ok(Some(last))
  }

  /** The price in the candidate loop: a `last` that is not null. */
  function ResolvePriceOf(reply: Reply): (r: Result<Option<Price>>)
    ensures r.Ok? && r.value.Some? ==> LastField(reply) == Ok(Some(r.value.value.source)) && r.value.value.source != JNull
    ensures LastField(reply) == Ok(Some(JNull)) ==> r == Ok(None)
    ensures LastField(reply).Ok? && LastField(reply).value.Some? && LastField(reply).value.value != JNull ==>
      r == FloatPrice(LastField(reply).value.value)
    ensures LastField(reply) == Ok(None) ==> r == Ok(None)
    ensures LastField(reply).Raised? ==> r == Raised(LastField(reply).message)
  {
    match LastField(reply)
    case Raised(m) => Raised(m)
    case Ok(None) => Ok(None)
    case Ok(Some(last)) => if last == JNull then Ok(None) else FloatPrice(last)
  }

  /** The price in the known-symbol call: a `last` that is truthy. */
  function RefreshPriceOf(reply: Reply): (r: Result<Option<Price>>)
    ensures r.Ok? && r.value.Some? ==> LastField(reply) == Ok(Some(r.value.value.source)) && Truthy(r.value.value.source)
    ensures LastField(reply).Ok? && LastField(reply).value.Some? && !Truthy(LastField(reply).value.value) ==> r == Ok(None)
    ensures LastField(reply).Ok? && LastField(reply).value.Some? && Truthy(LastField(reply).value.value) ==>
      r == FloatPrice(LastField(reply).value.value)
    ensures LastField(reply) == Ok(None) ==> r == Ok(None)
    ensures LastField(reply).Raised? ==> r == Raised(LastField(reply).message)
  {
    match LastField(reply)
    case Raised(m) => Raised(m)
    case Ok(None) => Ok(None)
    case Ok(Some(last)) => if Truthy(last) then FloatPrice(last) else Ok(None)
  }

  /** The two readings agree except on a `last` that is falsy but not null
      (`0`, `0.0`, `false`, `""`, `[]`, `{}`): the refresh then gives no
      price, while the candidate loop converts it. */
  lemma RefreshAgreesUnlessFalsy(reply: Reply)
    ensures (LastField(reply).Ok? && LastField(reply).value.Some? &&
             var v := LastField(reply).value.value; v != JNull && !Truthy(v)) ==>
      RefreshPriceOf(reply) == Ok(None) && ResolvePriceOf(reply) == FloatPrice(LastField(reply).value.value)
    ensures !(LastField(reply).Ok? && LastField(reply).value.Some? &&
              var v := LastField(reply).value.value; v != JNull && !Truthy(v)) ==>
      RefreshPriceOf(reply) == ResolvePriceOf(reply)
  {
  }

  /** A ticker whose `last` is `0` is accepted by the candidate loop and
      given no price by the refresh. */
  lemma ZeroLastDiffers()
    ensures var reply := Response(200, JObj([("data", JArr([JObj([("last", JInt(0))])]))]));
      ResolvePriceOf(reply) == Ok(Some(Price(JInt(0)))) && RefreshPriceOf(reply) == Ok(None)
  {
    var reply := Response(200, JObj([("data", JArr([JObj([("last", JInt(0))])]))]));
    assert Lookup([("last", JInt(0))], "last") == Some(JInt(0));
    assert Lookup([("data", JArr([JObj([("last", JInt(0))])]))], "data") == Some(JArr([JObj([("last", JInt(0))])]));
    assert LastField(reply) == Ok(Some(JInt(0)));
  }

  function SpotResolution(t: Transport, token: string): Result<Option<Resolved>> {
    Probe.FirstSuccess(t, SpotCandidates(token), TickerRequest, ResolvePriceOf, SpotLink)
  }

  function FuturesResolution(t: Transport, token: string): Result<Option<Resolved>> {
    Probe.FirstSuccess(t, PerpCandidates(token), TickerRequest, ResolvePriceOf, FuturesLink)
  }

  function PriceOf(t: Transport, instId: string): Result<Option<Price>> {
    Probe.Step(t, instId, TickerRequest, RefreshPriceOf)
  }

  /** `get_spot_price`: one ticker request, for the candidate. */
  method GetSpotPrice(t: Transport, token: string) returns (out: Result<Option<Resolved>>, ghost sent: seq<Request>)
    ensures out == SpotResolution(t, token)
    ensures sent == [TickerRequest(SpotCandidates(token)[0])]
  {
    var c := SpotCandidates(token)[0];
    assert SpotCandidates(token) == [c];
    out, sent := Probe.ResolveSingle(t, c, TickerRequest, ResolvePriceOf, SpotLink);
  }

  /** `get_futures_price`: one ticker request, for the candidate. */
  method GetFuturesPrice(t: Transport, token: string) returns (out: Result<Option<Resolved>>, ghost sent: seq<Request>)
    ensures out == FuturesResolution(t, token)
    ensures sent == [TickerRequest(PerpCandidates(token)[0])]
  {
    var c := PerpCandidates(token)[0];
    assert PerpCandidates(token) == [c];
    out, sent := Probe.ResolveSingle(t, c, TickerRequest, ResolvePriceOf, FuturesLink);
  }

  /** `get_price_for_spot_symbol` and `get_price_for_futures_symbol`, which
      make the same request. */
  method GetPriceForSymbol(t: Transport, instId: string) returns (r: Result<Option<Price>>, ghost sent: seq<Request>)
    ensures r == PriceOf(t, instId)
    ensures sent == [TickerRequest(instId)]
  {
    r, sent := Probe.Fetch(t, instId, TickerRequest, RefreshPriceOf);
  }
}
