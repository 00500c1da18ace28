/** The candidate loop that the Binance, OKX, Bybit and MEXC clients share in
    their `get_spot_price` / `get_futures_price`: request each candidate's
    price in order, skip a candidate that gives no response, a non-200
    status or no usable price, and return the first that gives a price
    together with its link. Anything raised propagates and ends the loop. */
module Probe {
  import opened Py
  import opened Base

  /** What the price request of one candidate gives: a price, nothing (the
      candidate is skipped), or an exception. */
  function Step(t: Transport, symbol: string, request: string -> Request,
                extract: Reply -> Result<Option<Price>>): Result<Option<Price>>
  {
    match Deliver(t, request(symbol))
    case Raised(m) => Raised(m)
    case Ok(reply) => extract(reply)
  }

  /** A ticker's price as Bybit spot and MEXC futures read it:
      `e.get("lastPrice") or e.get(fallback)`, no price when that is null;
      a ticker that is not a dict has no `.get` and raises. */
  function LastPriceOr(e: Json, fallback: string): (r: Result<Option<Price>>)
    ensures e.JObj? && Lookup(e.fields, "lastPrice").Some? && Truthy(Lookup(e.fields, "lastPrice").value) ==>
      r == FloatPrice(Lookup(e.fields, "lastPrice").value)
    ensures e.JObj? && !(Lookup(e.fields, "lastPrice").Some? && Truthy(Lookup(e.fields, "lastPrice").value)) ==>
      r == (match Lookup(e.fields, fallback)
            case None => Ok(None)
            case Some(p) => if p == JNull then Ok(None) else FloatPrice(p))
    ensures !e.JObj? ==> r.Raised?
  {
    match Get(e, "lastPrice")
    case Raised(m) => Raised(m)
    case Ok(lp) =>
      var price := if Truthy(lp) then Ok(lp) else Get(e, fallback);
      match price
      case Raised(m) => Raised(m)
      case Ok(p) => if p == JNull then Ok(None) else FloatPrice(p)
  }

  /** The result of the loop over `cands`. */
  function FirstSuccess(t: Transport, cands: seq<string>, request: string -> Request,
                        extract: Reply -> Result<Option<Price>>, link: string -> string): Result<Option<Resolved>>
    decreases |cands|
  {
    if cands == [] then Ok(None)
    else match Step(t, cands[0], request, extract)
      case Raised(m) => Raised(m)
      case Ok(None) => FirstSuccess(t, cands[1..], request, extract, link)
      case Ok(Some(p)) => Ok(Some(Resolved(cands[0], p, link(cands[0]))))
  }

  /** The index of the first candidate that is not skipped, or `|cands|`. */
  function Decisive(t: Transport, cands: seq<string>, request: string -> Request,
                    extract: Reply -> Result<Option<Price>>): (w: nat)
    ensures w <= |cands|
    ensures forall j :: 0 <= j < w ==> Step(t, cands[j], request, extract) == Ok(None)
    ensures w < |cands| ==> Step(t, cands[w], request, extract) != Ok(None)
    decreases |cands|
  {
    if cands == [] then 0
    else if Step(t, cands[0], request, extract) == Ok(None) then 1 + Decisive(t, cands[1..], request, extract)
    else 0
  }

  /** The loop ends at the first candidate that is not skipped: its price
      and link when it gives one, its exception when it raises; `None` when
      every candidate is skipped. */
  lemma {:induction false} FirstSuccessAt(t: Transport, cands: seq<string>, request: string -> Request,
                                          extract: Reply -> Result<Option<Price>>, link: string -> string)
    ensures var w := Decisive(t, cands, request, extract);
      FirstSuccess(t, cands, request, extract, link) ==
        if w == |cands| then Ok(None)
        else match Step(t, cands[w], request, extract)
          case Raised(m) => Raised(m)
          case Ok(None) => Ok(None)
          case Ok(Some(p)) => Ok(Some(Resolved(cands[w], p, link(cands[w]))))
    decreases |cands|
  {
    if cands != [] && Step(t, cands[0], request, extract) == Ok(None) {
      FirstSuccessAt(t, cands[1..], request, extract, link);
    }
  }

  /** A resolved instrument is a candidate, its URL is that candidate's link,
      its price is what the candidate's request gave, and every earlier
      candidate was skipped. */
  lemma FirstSuccessFound(t: Transport, cands: seq<string>, request: string -> Request,
                          extract: Reply -> Result<Option<Price>>, link: string -> string, x: Resolved)
    requires FirstSuccess(t, cands, request, extract, link) == Ok(Some(x))
    ensures exists i :: 0 <= i < |cands| && x.symbol == cands[i] &&
                        (forall j :: 0 <= j < i ==> Step(t, cands[j], request, extract) == Ok(None))
    ensures x.url == link(x.symbol)
    ensures Step(t, x.symbol, request, extract) == Ok(Some(x.price))
  {
    FirstSuccessAt(t, cands, request, extract, link);
    var w := Decisive(t, cands, request, extract);
    assert w < |cands|;
    var st := Step(t, cands[w], request, extract);
    assert st.Ok? && st.value.Some?;
    assert x == Resolved(cands[w], st.value.value, link(cands[w]));
  }

  /** The price a resolution found is what one step on its symbol reads. */
  lemma FirstSuccessPriced(t: Transport, cands: seq<string>, request: string -> Request,
                           extract: Reply -> Result<Option<Price>>, link: string -> string, x: Resolved)
    requires FirstSuccess(t, cands, request, extract, link) == Ok(Some(x))
    ensures Step(t, x.symbol, request, extract) == Ok(Some(x.price))
  {
    FirstSuccessFound(t, cands, request, extract, link, x);
  }

  /** With a single candidate the loop is that candidate's request. */
  lemma SingleCandidate(t: Transport, c: string, request: string -> Request,
                        extract: Reply -> Result<Option<Price>>, link: string -> string)
    ensures FirstSuccess(t, [c], request, extract, link) ==
      match Step(t, c, request, extract)
      case Raised(m) => Raised(m)
      case Ok(None) => Ok(None)
      case Ok(Some(p)) => Ok(Some(Resolved(c, p, link(c))))
    ensures Decisive(t, [c], request, extract) <= 1
  {
    assert [c][1..] == [];
  }

  /** The candidate loop over a single candidate: exactly one request. */
  method ResolveSingle(t: Transport, c: string, request: string -> Request,
                       extract: Reply -> Result<Option<Price>>, link: string -> string)
    returns (out: Result<Option<Resolved>>, ghost sent: seq<Request>)
    ensures out == FirstSuccess(t, [c], request, extract, link)
    ensures sent == [request(c)]
  {
    SingleCandidate(t, c, request, extract, link);
    out, sent := Resolve(t, [c], request, extract, link);
    assert |sent| == 1 && sent[0] == request([c][0]);
  }

  /** The candidate loop over two candidates: the second is requested only
      when the first is skipped, and then decides on its own. */
  method ResolvePair(t: Transport, a: string, b: string, request: string -> Request,
                     extract: Reply -> Result<Option<Price>>, link: string -> string)
    returns (out: Result<Option<Resolved>>, ghost sent: seq<Request>)
    ensures out == FirstSuccess(t, [a, b], request, extract, link)
    ensures sent == [request(a)] + (if Step(t, a, request, extract) == Ok(None) then [request(b)] else [])
    ensures Step(t, a, request, extract) == Ok(None) ==> out == FirstSuccess(t, [b], request, extract, link)
  {
    PairCandidates(t, a, b, request, extract, link);
    out, sent := Resolve(t, [a, b], request, extract, link);
    if Step(t, a, request, extract) == Ok(None) {
      assert |sent| == 2 && sent[0] == request(a) && sent[1] == request(b);
    } else {
      assert |sent| == 1 && sent[0] == request(a);
    }
  }

  /** Two candidates: the first decides unless it is skipped. */
  lemma PairCandidates(t: Transport, a: string, b: string, request: string -> Request,
                       extract: Reply -> Result<Option<Price>>, link: string -> string)
    ensures Step(t, a, request, extract) == Ok(None) ==>
      FirstSuccess(t, [a, b], request, extract, link) == FirstSuccess(t, [b], request, extract, link)
    ensures Step(t, a, request, extract) != Ok(None) ==> Decisive(t, [a, b], request, extract) == 0
    ensures Step(t, a, request, extract) == Ok(None) ==> 1 <= Decisive(t, [a, b], request, extract)
  {
    assert [a, b][1..] == [b];
  }

  /** A known-symbol price call: one request for exactly `symbol`. */
  method Fetch(t: Transport, symbol: string, request: string -> Request, extract: Reply -> Result<Option<Price>>)
    returns (r: Result<Option<Price>>, ghost sent: seq<Request>)
    ensures r == Step(t, symbol, request, extract)
    ensures sent == [request(symbol)]
  {
    var reply, _, _ := Send(t, request(symbol));
    sent := [request(symbol)];
    match reply {
      case Raised(m) => r := Raised(m);
      case Ok(x) => r := extract(x);
    }
  }

  /** The candidate loop itself. `sent` lists the price requests it makes:
      one per candidate, in order, up to and including the decisive one. */
  method Resolve(t: Transport, cands: seq<string>, request: string -> Request,
                 extract: Reply -> Result<Option<Price>>, link: string -> string)
    returns (out: Result<Option<Resolved>>, ghost sent: seq<Request>)
    ensures out == FirstSuccess(t, cands, request, extract, link)
    ensures var w := Decisive(t, cands, request, extract);
      |sent| == (if w == |cands| then w else w + 1)
    ensures forall i :: 0 <= i < |sent| ==> sent[i] == request(cands[i])
  {
    FirstSuccessAt(t, cands, request, extract, link);
    sent := [];
    var i := 0;
    while i < |cands|
      invariant 0 <= i <= |cands|
      invariant forall j :: 0 <= j < i ==> Step(t, cands[j], request, extract) == Ok(None)
      invariant |sent| == i
      invariant forall j :: 0 <= j < i ==> sent[j] == request(cands[j])
    {
      var symbol := cands[i];
      var price, one := Fetch(t, symbol, request, extract);
      sent := sent + one;
      if price != Ok(None) {
        DecisiveAt(t, cands, request, extract, i);
        out := if price.Raised? then Raised(price.message) else Ok(Some(Resolved(symbol, price.value.value, link(symbol))));
        return;
      }
      i := i + 1;
    }
    DecisiveAt(t, cands, request, extract, i);
    out := Ok(None);
  }

  /** The first candidate that is not skipped is the decisive one. */
  lemma {:induction false} DecisiveAt(t: Transport, cands: seq<string>, request: string -> Request,
                                   extract: Reply -> Result<Option<Price>>, i: nat)
    requires i <= |cands|
    requires forall j :: 0 <= j < i ==> Step(t, cands[j], request, extract) == Ok(None)
    requires i < |cands| ==> Step(t, cands[i], request, extract) != Ok(None)
    ensures Decisive(t, cands, request, extract) == i
  {
    if i > 0 {
      assert cands != [] && Step(t, cands[0], request, extract) == Ok(None);
      var rest := cands[1..];
      forall j | 0 <= j < i - 1 ensures Step(t, rest[j], request, extract) == Ok(None) {
        assert rest[j] == cands[j + 1];
      }
      DecisiveAt(t, rest, request, extract, i - 1);
    }
  }
}
