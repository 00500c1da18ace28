/** The main window's bookkeeping (`MainWindow` in core/gui/window.py): the
    token pulled out of pasted text, the client list built from the enabled
    exchanges, the maps kept between refreshes, the refresh rows, the order
    of the table rows and the text of a cell that has no price. */
module Window {
  import opened PyStr
  import opened Py
  import opened Base
  import opened Exchanges
  import Monitor

  // ---------------------------------------------------------------------
  // `_extract_token_from_text`
  // ---------------------------------------------------------------------

  /** The quotes the pair pattern accepts, in the order the loop tries them. */
  const PAIR_QUOTES: seq<string> := ["USDT", "USDC", "USD"]

  predicate AllAlnum(s: string) {
    forall i :: 0 <= i < |s| ==> IsUpperAlnum(s[i])
  }

  /** The class `[_\-/]`. */
  predicate IsPairSep(c: char) { c == '_' || c == '-' || c == '/' }

  /** What `(USDT|USDC|USD)?` matches. */
  predicate QuoteOrEmpty(q: string) { q == "" || q in PAIR_QUOTES }

  /** Length of the run of `[A-Z0-9]` at the start of `s`. */
  function AlnumRun(s: string): (n: nat)
    ensures n <= |s|
    ensures forall i :: 0 <= i < n ==> IsUpperAlnum(s[i])
    ensures n < |s| ==> !IsUpperAlnum(s[n])
  {
    if s != [] && IsUpperAlnum(s[0]) then 1 + AlnumRun(s[1..]) else 0
  }

  lemma {:induction false} AlnumRunOf(b: string, t: string)
    requires AllAlnum(b)
    requires t == [] || !IsUpperAlnum(t[0])
    ensures AlnumRun(b + t) == |b|
    decreases |b|
  {
    if b == [] {
      assert b + t == t;
    } else {
      assert (b + t)[1..] == b[1..] + t;
      AlnumRunOf(b[1..], t);
    }
  }

  /** Group 1 of `re.match(r"^([A-Z0-9]+)[_\-/]?(USDT|USDC|USD)?$", s)`, or
      `None` when the pattern does not match. The group is greedy: a string of
      `[A-Z0-9]` only is taken whole, quote included. */
  function PairBase(s: string): (r: Option<string>)
    ensures r.Some? ==> r.value != [] && AllAlnum(r.value) && |r.value| <= |s| && s[..|r.value|] == r.value
    ensures r.Some? ==> |r.value| == |s| || (IsPairSep(s[|r.value|]) && QuoteOrEmpty(s[|r.value| + 1..]))
  {
    var n := AlnumRun(s);
    if n == 0 then None
    else if n == |s| then Some(s)
    else if IsPairSep(s[n]) && QuoteOrEmpty(s[n + 1..]) then Some(s[..n])
    else None
  }

  /** Every string the pattern describes is matched, with the group the
      greedy match gives it. */
  lemma PairBaseOf(b: string, sep: string, q: string)
    requires b != [] && AllAlnum(b)
    requires sep == "" || (|sep| == 1 && IsPairSep(sep[0]))
    requires QuoteOrEmpty(q)
    ensures PairBase(b + sep + q) == Some(if sep == "" then b + q else b)
  {
    var s := b + sep + q;
    if sep == "" {
      assert s == b + q;
      assert AllAlnum(q);
      assert AllAlnum(b + q);
      AlnumRunOf(b + q, []);
      assert (b + q) + [] == s;
    } else {
      assert s == b + (sep + q);
      AlnumRunOf(b, sep + q);
      assert s[..|b|] == b;
      assert s[|b| + 1..] == q;
    }
  }

  /** `for q in qs: if base.endswith(q): base = base[:-len(q)]; break` */
  function DropFirstQuote(b: string, qs: seq<string>): (r: string)
    requires forall j :: 0 <= j < |qs| ==> qs[j] != []
    ensures |r| <= |b| && r == b[..|r|]
    ensures (forall j :: 0 <= j < |qs| ==> !EndsWith(b, qs[j])) ==> r == b
  {
    if qs == [] then b
    else if EndsWith(b, qs[0]) then DropEnd(b, |qs[0]|)
    else DropFirstQuote(b, qs[1..])
  }

  /** `\b` before position `i`, where `s[i]` is a word character: the start
      of the string or a non-word character. And a run of 2 to 10 `[A-Z0-9]`
      that ends at the end of the string or before a non-word character. */
  predicate WordAt(s: string, i: nat) {
    i < |s| && (i == 0 || !IsWordChar(s[i - 1])) &&
    2 <= AlnumRun(s[i..]) <= 10 &&
    (i + AlnumRun(s[i..]) == |s| || !IsWordChar(s[i + AlnumRun(s[i..])]))
  }

  /** The word that `\b([A-Z0-9]{2,10})\b` captures at `i`. */
  function WordMatch(s: string, i: nat): (w: string)
    requires WordAt(s, i)
    ensures 2 <= |w| <= 10 && AllAlnum(w)
  {
    s[i..i + AlnumRun(s[i..])]
  }

  /** `re.search(r"\b([A-Z0-9]{2,10})\b", s[i:])` on a string without lower-case
      letters: the word at the leftmost position where one stands. */
  function WordFrom(s: string, i: nat): (r: Option<string>)
    requires i <= |s|
    ensures r.Some? ==> 2 <= |r.value| <= 10 && AllAlnum(r.value)
    decreases |s| - i
  {
    if i == |s| then None
    else if WordAt(s, i) then Some(WordMatch(s, i))
    else WordFrom(s, i + 1)
  }

  /** The search finds the word at the leftmost position where one stands. */
  lemma {:induction false} WordFromLeftmost(s: string, i: nat, j: nat)
    requires i <= j && WordAt(s, j)
    requires forall k :: i <= k < j ==> !WordAt(s, k)
    ensures WordFrom(s, i) == Some(WordMatch(s, j))
    decreases j - i
  {
    if i < j {
      assert !WordAt(s, i);
      WordFromSkips(s, i);
      WordFromLeftmost(s, i + 1, j);
    } else {
      WordFromHere(s, j);
    }
  }

  /** The search finds nothing exactly when no position from `i` on holds a
      word. */
  lemma {:induction false} WordFromNone(s: string, i: nat)
    requires i <= |s|
    ensures WordFrom(s, i).None? <==> forall k :: i <= k < |s| ==> !WordAt(s, k)
    decreases |s| - i
  {
    if i < |s| {
      if WordAt(s, i) {
        WordFromHere(s, i);
      } else {
        WordFromSkips(s, i);
        WordFromNone(s, i + 1);
      }
    }
  }

  /** A position with no word hands the search on to the next one. */
  lemma WordFromSkips(s: string, i: nat)
    requires i < |s| && !WordAt(s, i)
    ensures WordFrom(s, i) == WordFrom(s, i + 1)
  {
  }

  /** A position with a word ends the search. */
  lemma WordFromHere(s: string, i: nat)
    requires WordAt(s, i)
    ensures WordFrom(s, i) == Some(WordMatch(s, i))
  {
  }

  /** A standalone word at the front is the one found. */
  lemma LeadingWord(w: string, rest: string)
    requires 2 <= |w| <= 10 && AllAlnum(w)
    requires rest == [] || !IsWordChar(rest[0])
    ensures WordFrom(w + rest, 0) == Some(w)
  {
    var s := w + rest;
    assert s[0..] == s;
    AlnumRunOf(w, rest);
    assert WordAt(s, 0);
    assert s[0..|w|] == w;
  }

  /** The stripped text without one leading `$`, upper-cased. */
  function Subject(s0: string): string {
    Upper(if StartsWith(s0, "$") then s0[1..] else s0)
  }

  /** The pair pattern's group without its quote, else the first standalone
      word, else nothing. */
  function TokenOfSubject(s: string): (r: string)
    ensures AllAlnum(r)
  {
    match PairBase(s)
    case Some(b) => DropFirstQuote(b, PAIR_QUOTES)
    case None =>
      match WordFrom(s, 0)
      case Some(w) => w
      case None => []
  }

  /** What `_extract_token_from_text` returns. */
  function TokenOf(text: string): (r: string)
    ensures Strip(text) == [] ==> r == []
    ensures AllAlnum(r)
  {
    var s0 := Strip(text);
    if s0 == [] then [] else TokenOfSubject(Subject(s0))
  }

  /** `_extract_token_from_text`, with the quote loop and its `break`. */
  method ExtractToken(text: string) returns (r: string)
    ensures r == TokenOf(text)
  {
    var s := Strip(text);
    if s == [] {
      return [];
    }
    if StartsWith(s, "$") {
      s := s[1..];
    }
    s := Upper(s);
    var m := PairBase(s);
    if m.Some? {
      r := QuoteLoop(m.value);
    } else {
      var w := WordFrom(s, 0);
      r := if w.Some? then w.value else [];
    }
  }

  /** The quote loop of `_extract_token_from_text`, with its `break`. */
  method QuoteLoop(base0: string) returns (base: string)
    ensures base == DropFirstQuote(base0, PAIR_QUOTES)
  {
    base := base0;
    var i := 0;
    while i < |PAIR_QUOTES|
      invariant 0 <= i <= |PAIR_QUOTES|
      invariant base == base0
      invariant DropFirstQuote(base0, PAIR_QUOTES[i..]) == DropFirstQuote(base0, PAIR_QUOTES)
    {
      assert PAIR_QUOTES[i..][1..] == PAIR_QUOTES[i + 1..];
      var q := PAIR_QUOTES[i];
      if EndsWith(base, q) {
        base := base[..|base| - |q|];
        return;
      }
      i := i + 1;
    }
  }

  /** Every character is `[A-Z0-9]` or a separator. */
  predicate PairAlphabet(s: string) {
    forall i :: 0 <= i < |s| ==> IsUpperAlnum(s[i]) || IsPairSep(s[i])
  }

  /** A pair is written in that alphabet. */
  lemma PairChars(b: string, sep: string, q: string)
    requires AllAlnum(b)
    requires sep == "" || (|sep| == 1 && IsPairSep(sep[0]))
    requires QuoteOrEmpty(q)
    ensures PairAlphabet(b + sep + q)
  {
    var s := b + sep + q;
    assert AllAlnum(q);
    forall i | 0 <= i < |s| ensures IsUpperAlnum(s[i]) || IsPairSep(s[i]) {
      if i < |b| { assert s[i] == b[i]; }
      else if i < |b| + |sep| { assert s[i] == sep[i - |b|]; }
      else { assert s[i] == q[i - |b| - |sep|]; }
    }
  }

  /** Dropping the optional `$` in front of a pair leaves the pair. */
  lemma DollarDropped(dollar: string, s: string)
    requires dollar == "" || dollar == "$"
    requires s != [] && IsUpperAlnum(s[0])
    ensures (if StartsWith(dollar + s, "$") then (dollar + s)[1..] else dollar + s) == s
  {
    var x := dollar + s;
    if dollar == "$" {
      assert x[..1] == "$";
      assert x[1..] == s;
    } else {
      assert x == s;
      assert x[..1] != "$" by { assert x[..1][0] == s[0]; }
    }
  }

  lemma PairStripped(dollar: string, s: string)
    requires dollar == "" || dollar == "$"
    requires s != [] && IsUpperAlnum(s[0])
    requires PairAlphabet(s)
    ensures Strip(dollar + s) == dollar + s
  {
    var x := dollar + s;
    assert !IsSpace(x[0]);
    assert x[|x| - 1] == s[|s| - 1];
    StripTrimmed(x);
  }

  lemma PairUpper(s: string)
    requires PairAlphabet(s)
    ensures Upper(s) == s
  {
    assert NoLower(s);
    UpperIdentity(s);
  }

  /** The quote loop takes off the quote the pattern left in the group, and
      nothing from a base without a quote at its end. */
  lemma QuoteDropped(b: string, sep: string, q: string)
    requires forall j :: 0 <= j < |PAIR_QUOTES| ==> !EndsWith(b, PAIR_QUOTES[j])
    requires QuoteOrEmpty(q)
    ensures DropFirstQuote(if sep == "" then b + q else b, PAIR_QUOTES) == b
  {
    if sep == "" && q != "" {
      QuoteDropsItself(b, q);
    } else if sep == "" {
      assert b + q == b;
    }
  }

  /** A quote written after any base is the one the loop takes off. */
  lemma QuoteDropsItself(b: string, q: string)
    requires q in PAIR_QUOTES
    ensures DropFirstQuote(b + q, PAIR_QUOTES) == b
  {
    var s := b + q;
    assert s[..|b|] == b;
    if q == "USDT" {
      assert EndsWith(s, "USDT");
    } else if q == "USDC" {
      assert s[|s| - 1] == 'C';
      assert !EndsWith(s, "USDT") && EndsWith(s, "USDC");
    } else {
      assert s[|s| - 1] == 'D';
      assert !EndsWith(s, "USDT") && !EndsWith(s, "USDC") && EndsWith(s, "USD");
      assert PAIR_QUOTES[1..][1..] == ["USD"];
      assert DropFirstQuote(s, PAIR_QUOTES) == DropFirstQuote(s, ["USD"]);
      assert DropEnd(s, 3) == b;
    }
  }

  lemma SubjectOfPair(dollar: string, s: string)
    requires dollar == "" || dollar == "$"
    requires s != [] && IsUpperAlnum(s[0])
    requires PairAlphabet(s)
    ensures Subject(dollar + s) == s
  {
    DollarDropped(dollar, s);
    PairUpper(s);
  }

  /** On text made of `[A-Z0-9]` and separators, with an optional `$` in
      front, the token is taken from that text as it stands. */
  lemma TokenOfClean(dollar: string, s: string)
    requires dollar == "" || dollar == "$"
    requires s != [] && IsUpperAlnum(s[0])
    requires PairAlphabet(s)
    ensures TokenOf(dollar + s) == TokenOfSubject(s)
  {
    PairStripped(dollar, s);
    SubjectOfPair(dollar, s);
  }

  /** The token of a pair's text is its base. */
  lemma TokenOfSubjectPair(b: string, sep: string, q: string)
    requires b != [] && AllAlnum(b)
    requires forall j :: 0 <= j < |PAIR_QUOTES| ==> !EndsWith(b, PAIR_QUOTES[j])
    requires sep == "" || (|sep| == 1 && IsPairSep(sep[0]))
    requires QuoteOrEmpty(q)
    ensures TokenOfSubject(b + sep + q) == b
  {
    PairBaseOf(b, sep, q);
    QuoteDropped(b, sep, q);
  }

  /** A pair written as an optional `$`, a base without a quote at its end,
      an optional separator and an optional quote gives back the base. */
  lemma TokenOfPair(dollar: string, b: string, sep: string, q: string)
    requires dollar == "" || dollar == "$"
    requires b != [] && AllAlnum(b)
    requires forall j :: 0 <= j < |PAIR_QUOTES| ==> !EndsWith(b, PAIR_QUOTES[j])
    requires sep == "" || (|sep| == 1 && IsPairSep(sep[0]))
    requires QuoteOrEmpty(q)
    ensures TokenOf(dollar + (b + sep + q)) == b
  {
    var s := b + sep + q;
    PairChars(b, sep, q);
    assert s[0] == b[0];
    TokenOfClean(dollar, s);
    TokenOfSubjectPair(b, sep, q);
  }

  // ---------------------------------------------------------------------
  // The client list of `run_monitor_loop`
  // ---------------------------------------------------------------------

  /** `"perp" if self.market_type_combo.currentText() == "Futures" else "spot"` */
  function MarketOf(comboText: string): (r: string)
    ensures r == PERP <==> comboText == "Futures"
    ensures r == PERP || r == SPOT
  {
    if comboText == "Futures" then PERP else SPOT
  }

  /** The order the window tries the clients in. */
  const WINDOW_ORDER: seq<Exchange> :=
    [GateClient, BinanceClient, OkxClient, BybitClient, MexcClient, BitgetClient, HyperliquidClient]

  /** A client's place in that order. */
  function Rank(e: Exchange): (r: nat)
    ensures r < |WINDOW_ORDER| && WINDOW_ORDER[r] == e
  {
    match e
    case GateClient => 0
    case BinanceClient => 1
    case OkxClient => 2
    case BybitClient => 3
    case MexcClient => 4
    case BitgetClient => 5
    case HyperliquidClient => 6
  }

  /** A client is created when its name is enabled; Hyperliquid only on the
      perpetual market. */
  predicate Wanted(e: Exchange, enabled: seq<string>, market: string) {
    Name(e) in enabled && (e == HyperliquidClient ==> market == PERP)
  }

  /** Each client comes before the clients after it in the window's order. */
  predicate RankSorted(r: seq<Exchange>) {
    forall i, j :: 0 <= i < j < |r| ==> Rank(r[i]) < Rank(r[j])
  }

  /** The list after the tests for the first `k` clients of the order. */
  predicate Built(clients: seq<Exchange>, k: nat, enabled: seq<string>, market: string) {
    && (forall e :: e in clients <==> Rank(e) < k && Wanted(e, enabled, market))
    && RankSorted(clients)
  }

  /** One test and append. */
  lemma BuiltStep(clients: seq<Exchange>, e: Exchange, enabled: seq<string>, market: string)
    requires Built(clients, Rank(e), enabled, market)
    ensures Built(if Wanted(e, enabled, market) then clients + [e] else clients, Rank(e) + 1, enabled, market)
  {
    if Wanted(e, enabled, market) {
      BuiltAppend(clients, e, enabled, market);
    } else {
      BuiltSkip(clients, e, enabled, market);
    }
  }

  /** A wanted client is appended after every client of lower rank. */
  lemma BuiltAppend(clients: seq<Exchange>, e: Exchange, enabled: seq<string>, market: string)
    requires Built(clients, Rank(e), enabled, market) && Wanted(e, enabled, market)
    ensures Built(clients + [e], Rank(e) + 1, enabled, market)
  {
    var next := clients + [e];
    forall x ensures x in next <==> Rank(x) < Rank(e) + 1 && Wanted(x, enabled, market) {
      if Rank(x) == Rank(e) {
        assert WINDOW_ORDER[Rank(x)] == x && WINDOW_ORDER[Rank(e)] == e;
      }
    }
    forall i, j | 0 <= i < j < |next| ensures Rank(next[i]) < Rank(next[j]) {
      if j == |clients| {
        assert next[i] == clients[i] && clients[i] in clients;
      }
    }
  }

  /** A client that is not wanted leaves the list as it is. */
  lemma BuiltSkip(clients: seq<Exchange>, e: Exchange, enabled: seq<string>, market: string)
    requires Built(clients, Rank(e), enabled, market) && !Wanted(e, enabled, market)
    ensures Built(clients, Rank(e) + 1, enabled, market)
  {
    forall x ensures x in clients <==> Rank(x) < Rank(e) + 1 && Wanted(x, enabled, market) {
      if Rank(x) == Rank(e) {
        assert WINDOW_ORDER[Rank(x)] == x && WINDOW_ORDER[Rank(e)] == e;
      }
    }
  }

  /** After the last test every client has been considered. */
  lemma BuiltAll(clients: seq<Exchange>, enabled: seq<string>, market: string)
    requires Built(clients, |WINDOW_ORDER|, enabled, market)
    ensures forall e :: e in clients <==> Wanted(e, enabled, market)
    ensures RankSorted(clients)
  {
  }

  /** Clients in rank order have distinct names. */
  lemma SortedDistinct(clients: seq<Exchange>)
    requires RankSorted(clients)
    ensures Monitor.DistinctNames(clients)
  {
    NamesAreSupported();
    forall i, j | 0 <= i < j < |clients| ensures Name(clients[i]) != Name(clients[j]) {
      assert Rank(clients[i]) != Rank(clients[j]);
    }
  }

  /** The client-list construction: one test and append per exchange, which
      leaves exactly the wanted clients, in the window's order. */
  method BuildClients(enabled: seq<string>, market: string) returns (clients: seq<Exchange>)
    ensures forall e :: e in clients <==> Wanted(e, enabled, market)
    ensures RankSorted(clients)
    ensures Monitor.DistinctNames(clients)
  {
    clients := [];
    BuiltStep(clients, GateClient, enabled, market);
    if Name(GateClient) in enabled { clients := clients + [GateClient]; }
    BuiltStep(clients, BinanceClient, enabled, market);
    if Name(BinanceClient) in enabled { clients := clients + [BinanceClient]; }
    BuiltStep(clients, OkxClient, enabled, market);
    if Name(OkxClient) in enabled { clients := clients + [OkxClient]; }
    BuiltStep(clients, BybitClient, enabled, market);
    if Name(BybitClient) in enabled { clients := clients + [BybitClient]; }
    BuiltStep(clients, MexcClient, enabled, market);
    if Name(MexcClient) in enabled { clients := clients + [MexcClient]; }
    BuiltStep(clients, BitgetClient, enabled, market);
    if Name(BitgetClient) in enabled { clients := clients + [BitgetClient]; }
    BuiltStep(clients, HyperliquidClient, enabled, market);
    if Name(HyperliquidClient) in enabled && market == PERP { clients := clients + [HyperliquidClient]; }
    BuiltAll(clients, enabled, market);
    SortedDistinct(clients);
  }

  // ---------------------------------------------------------------------
  // The maps kept between refreshes
  // ---------------------------------------------------------------------

  /** `{name: payload[0] for name, payload in initial_data.items()}` */
  function SymbolsOf(data: map<string, Resolved>): (r: map<string, string>)
    ensures r.Keys == data.Keys
    ensures forall k :: k in r ==> r[k] == data[k].symbol
  {
    map k | k in data :: data[k].symbol
  }

  /** `{name: payload[2] for name, payload in initial_data.items()}` */
  function UrlsOf(data: map<string, Resolved>): (r: map<string, string>)
    ensures r.Keys == data.Keys
    ensures forall k :: k in r ==> r[k] == data[k].url
  {
    map k | k in data :: data[k].url
  }

  /** `{name: payload[1] for name, payload in initial_data.items()}` */
  function BaselinesOf(data: map<string, Resolved>): (r: map<string, Price>)
    ensures r.Keys == data.Keys
    ensures forall k :: k in r ==> r[k] == data[k].price
  {
    map k | k in data :: data[k].price
  }

  /** The rows of one refresh: a fresh price for a known name, with the
      stored symbol and link. */
  function UpdatedRows(known: map<string, string>, urls: map<string, string>, newPrices: map<string, Price>): (r: map<string, Resolved>)
    requires known.Keys <= urls.Keys
    ensures r.Keys == newPrices.Keys * known.Keys
    ensures forall k :: k in r ==> r[k] == Resolved(known[k], newPrices[k], urls[k])
  {
    map k | k in newPrices && k in known :: Resolved(known[k], newPrices[k], urls[k])
  }

  /** After the maps are taken from the first search, a refresh row is that
      search's result with only its price replaced. */
  lemma RefreshRowsKeepResolution(data: map<string, Resolved>, newPrices: map<string, Price>)
    ensures var rows := UpdatedRows(SymbolsOf(data), UrlsOf(data), newPrices);
      && rows.Keys == newPrices.Keys * data.Keys
      && forall k :: k in rows ==> rows[k] == data[k].(price := newPrices[k])
  {
  }

  // ---------------------------------------------------------------------
  // Row order and cell text of `update_table`
  // ---------------------------------------------------------------------

  /** `order.index(name)`, or 999 when `name` is not in `order`. */
  function RowRank(order: seq<string>, name: string): (r: nat)
    ensures name in order ==> r < |order| && order[r] == name && forall i :: 0 <= i < r ==> order[i] != name
    ensures name !in order ==> r == 999
  {
    if name in order then FirstIndex(order, name) else 999
  }

  function FirstIndex(order: seq<string>, name: string): (r: nat)
    requires name in order
    ensures r < |order| && order[r] == name && forall i :: 0 <= i < r ==> order[i] != name
  {
    if order[0] == name then 0 else 1 + FirstIndex(order[1..], name)
  }

  /** Python's `<` on two strings: code point by code point, a proper prefix
      first. */
  predicate StrLess(a: string, b: string)
    decreases |a|
  {
    if a == [] then b != []
    else if b == [] then false
    else if a[0] != b[0] then a[0] < b[0]
    else StrLess(a[1..], b[1..])
  }

  lemma {:induction false} StrLessIrreflexive(a: string)
    ensures !StrLess(a, a)
    decreases |a|
  {
    if a != [] {
      StrLessIrreflexive(a[1..]);
    }
  }

  lemma {:induction false} StrLessTotal(a: string, b: string)
    ensures a == b || StrLess(a, b) || StrLess(b, a)
    decreases |a|
  {
    if a != [] && b != [] && a[0] == b[0] {
      StrLessTotal(a[1..], b[1..]);
      if a[1..] == b[1..] {
        assert a == [a[0]] + a[1..] && b == [b[0]] + b[1..];
      }
    }
  }

  lemma {:induction false} StrLessTransitive(a: string, b: string, c: string)
    requires StrLess(a, b) && StrLess(b, c)
    ensures StrLess(a, c)
    decreases |a|
  {
    if a != [] && b != [] && c != [] && a[0] == b[0] && b[0] == c[0] {
      StrLessTransitive(a[1..], b[1..], c[1..]);
    }
  }

  /** `_key(a) < _key(b)`: the tuple `(index, name)` compared in order. */
  predicate KeyBefore(order: seq<string>, a: string, b: string) {
    RowRank(order, a) < RowRank(order, b) || (RowRank(order, a) == RowRank(order, b) && StrLess(a, b))
  }

  lemma KeyBeforeTotal(order: seq<string>, a: string, b: string)
    ensures a == b || KeyBefore(order, a, b) || KeyBefore(order, b, a)
    ensures !KeyBefore(order, a, a)
  {
    StrLessTotal(a, b);
    StrLessIrreflexive(a);
  }

  lemma KeyBeforeTransitive(order: seq<string>, a: string, b: string, c: string)
    requires KeyBefore(order, a, b) && KeyBefore(order, b, c)
    ensures KeyBefore(order, a, c)
  {
    if RowRank(order, a) == RowRank(order, b) == RowRank(order, c) {
      StrLessTransitive(a, b, c);
    }
  }

  /** `m` comes first among `names`. */
  predicate Least(order: seq<string>, names: set<string>, m: string) {
    m in names && forall x :: x in names && x != m ==> KeyBefore(order, m, x)
  }

  /** A non-empty set of names has a first one. */
  lemma {:induction false} HasLeast(order: seq<string>, names: set<string>)
    requires names != {}
    ensures exists m :: Least(order, names, m)
    decreases names
  {
    var x :| x in names;
    if names != {x} {
      var rest := names - {x};
      HasLeast(order, rest);
      var m :| Least(order, rest, m);
      KeyBeforeTotal(order, x, m);
      if KeyBefore(order, x, m) {
        forall y | y in names && y != x ensures KeyBefore(order, x, y) {
          if y != m { KeyBeforeTransitive(order, x, m, y); }
        }
        assert Least(order, names, x);
      } else {
        assert Least(order, names, m);
      }
    } else {
      assert Least(order, names, x);
    }
  }

  /** `sorted(names, key=_key)`: every name once, each before all later ones. */
  ghost function TableOrder(order: seq<string>, names: set<string>): (r: seq<string>)
    ensures |r| == |names|
    ensures forall n :: n in r <==> n in names
    ensures forall i, j :: 0 <= i < j < |r| ==> KeyBefore(order, r[i], r[j])
    decreases names
  {
    if names == {} then []
    else
      HasLeast(order, names);
      var m :| Least(order, names, m);
      var rest := TableOrder(order, names - {m});
      assert forall i :: 0 <= i < |rest| ==> rest[i] in names - {m};
      [m] + rest
  }

  /** The table rows: the names of the data and of the errors, each once,
      ordered by the supported-exchange list, then by name. */
  ghost function Rows(order: seq<string>, data: map<string, Resolved>, errors: map<string, string>): (r: seq<string>)
    ensures forall n :: n in r <==> n in data || n in errors
    ensures forall i, j :: 0 <= i < j < |r| ==> r[i] != r[j]
  {
    var r := TableOrder(order, data.Keys + errors.Keys);
    forall i, j | 0 <= i < j < |r| ensures r[i] != r[j] {
      KeyBeforeTotal(order, r[i], r[i]);
    }
    r
  }

  /** Names from the order list come before all others, which follow in
      name order. */
  lemma RowsListedFirst(order: seq<string>, data: map<string, Resolved>, errors: map<string, string>)
    requires |order| < 999
    ensures var r := Rows(order, data, errors);
      && (forall i, j :: 0 <= i < j < |r| && r[j] in order ==> r[i] in order && RowRank(order, r[i]) < RowRank(order, r[j]))
      && (forall i, j :: 0 <= i < j < |r| && r[i] !in order ==> r[j] !in order && StrLess(r[i], r[j]))
  {
    var r := Rows(order, data, errors);
    forall i, j | 0 <= i < j < |r|
      ensures r[j] in order ==> r[i] in order && RowRank(order, r[i]) < RowRank(order, r[j])
      ensures r[i] !in order ==> r[j] !in order && StrLess(r[i], r[j])
    {
      assert KeyBefore(order, r[i], r[j]);
      if r[j] in order {
        assert r[i] != r[j];
        assert RowRank(order, r[i]) != RowRank(order, r[j]) by {
          if r[i] in order {
            assert order[RowRank(order, r[i])] != order[RowRank(order, r[j])];
          }
        }
      }
    }
  }

  /** The percentage column. */
  datatype Cell =
    | Change  // `f"{sign}{delta:.3f}%"`, from the price and the baseline
    | Note(text: string)

  /** Line 389: the cell of a row named `name`. */
  function CellOf(data: map<string, Resolved>, errors: map<string, string>, name: string): (c: Cell)
    ensures c.Change? <==> name in data
    ensures c.Note? ==> (c.text == "ERROR" <==> name in errors && errors[name] != "")
    ensures c.Note? ==> (c.text == "\U{2014}" <==> !(name in errors && errors[name] != ""))
  {
    if name in data then Change
    else if name in errors && errors[name] != "" then Note("ERROR")
    else Note("\U{2014}")
  }

  /** For the first search's maps, a row with an error never shows a
      change, and shows `ERROR` exactly when the error text is not empty. */
  lemma ErrorRowsShowError(t: Transport, clients: seq<Exchange>, market: string, token: string, name: string)
    requires Monitor.DistinctNames(clients)
    requires name in Monitor.Merge(Monitor.Steps(t, clients, market, token)).errors
    ensures var f := Monitor.Merge(Monitor.Steps(t, clients, market, token));
      CellOf(f.results, f.errors, name) == (if f.errors[name] == "" then Note("\U{2014}") else Note("ERROR"))
  {
    Monitor.QueryPerClient(t, clients, market, token);
  }

  // ---------------------------------------------------------------------
  // The window's state
  // ---------------------------------------------------------------------

  /** How the search part of `run_monitor_loop` ends. */
  datatype SearchOutcome =
    | NoExchanges   // no client enabled: an error is shown
    | NotFound      // no client gave a price or an error: an error is shown
    | Tracking(data: map<string, Resolved>, errors: map<string, string>)

  class MainWindow {
    var knownSymbols: map<string, string>
    var urlsMap: map<string, string>
    var baselinePrices: map<string, Price>
    const exchangeOrder: seq<string>

    constructor()
      ensures knownSymbols == map[] && urlsMap == map[] && baselinePrices == map[]
      ensures exchangeOrder == SupportedExchanges()
    {
      knownSymbols, urlsMap, baselinePrices := map[], map[], map[];
      exchangeOrder := SupportedExchanges();
    }

    /** The three maps name the same exchanges. */
    predicate Aligned()
      reads this
    {
      urlsMap.Keys == knownSymbols.Keys && baselinePrices.Keys == knownSymbols.Keys
    }

    /** The search part of `run_monitor_loop`: build the clients, query them
        once and, when anything came back, keep the symbols, links and
        baseline prices of the exchanges that answered with a price. */
    method Search(t: Transport, enabled: seq<string>, comboText: string, token: string)
      returns (out: SearchOutcome, clients: seq<Exchange>)
      modifies this
      ensures forall e :: e in clients <==> Wanted(e, enabled, MarketOf(comboText))
      ensures RankSorted(clients)
      ensures clients == [] ==> out == NoExchanges && unchanged(this)
      ensures clients != [] ==>
        var f := Monitor.Merge(Monitor.Steps(t, clients, MarketOf(comboText), token));
        if f.results == map[] && f.errors == map[] then out == NotFound && unchanged(this)
        else
          && out == Tracking(f.results, f.errors)
          && knownSymbols == SymbolsOf(f.results)
          && urlsMap == UrlsOf(f.results)
          && baselinePrices == BaselinesOf(f.results)
      ensures old(Aligned()) ==> Aligned()
    {
      var market := MarketOf(comboText);
      clients := BuildClients(enabled, market);
      if clients == [] {
        return NoExchanges, clients;
      }
      var data, errors := Monitor.Query(t, clients, token, market);
      if data == map[] && errors == map[] {
        return NotFound, clients;
      }
      knownSymbols := SymbolsOf(data);
      urlsMap := UrlsOf(data);
      baselinePrices := BaselinesOf(data);
      out := Tracking(data, errors);
    }

    /** One pass of the refresh loop: fresh prices for the known symbols,
        turned into rows with the stored symbol and link. */
    method RefreshCycle(t: Transport, clients: seq<Exchange>, market: string)
      returns (rows: map<string, Resolved>, errors: map<string, string>)
      requires Aligned()
      ensures var p := Monitor.Refresh(t, clients, knownSymbols, market);
        rows == UpdatedRows(knownSymbols, urlsMap, p.results) && errors == p.errors
      ensures rows.Keys <= knownSymbols.Keys && errors.Keys <= knownSymbols.Keys
      ensures rows.Keys !! errors.Keys
    {
      var prices: map<string, Price>;
      ghost var sent: seq<Request>;
      prices, errors, sent := Monitor.FetchPricesForKnownSymbols(t, clients, knownSymbols, market);
      rows := UpdatedRows(knownSymbols, urlsMap, prices);
    }
  }
}
