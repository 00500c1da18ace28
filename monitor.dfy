/** The aggregator (`Monitor`): one resolution, or one known-symbol price
    call, per client, merged into a map of results and a map of error
    messages keyed by client name. The clients are visited one after the
    other, in list order. */
module Monitor {
  import opened Py
  import opened Base
  import opened Exchanges

  /** The two maps `query` returns: `{name: (symbol, price, url)}` and
      `{name: str(e)}`. */
  datatype Found = Found(results: map<string, Resolved>, errors: map<string, string>)

  /** The two maps `fetch_prices_for_known_symbols` returns. */
  datatype Prices = Prices(results: map<string, Price>, errors: map<string, string>)

  predicate DistinctNames(clients: seq<Exchange>) {
    forall i, j :: 0 <= i < j < |clients| ==> Name(clients[i]) != Name(clients[j])
  }

  // ----- query -----

  /** One client's step of `query`: a truthy result is stored under the
      client's name, an exception's text under the same name among the
      errors, and nothing otherwise. */
  function Record(acc: Found, name: string, outcome: Option<Result<Option<Resolved>>>): (r: Found)
    ensures forall k :: k != name ==> (k in r.results <==> k in acc.results) && (k in r.errors <==> k in acc.errors)
    ensures forall k :: k != name && k in r.results ==> r.results[k] == acc.results[k]
    ensures forall k :: k != name && k in r.errors ==> r.errors[k] == acc.errors[k]
  {
    match outcome
    case None => acc
    case Some(Raised(m)) => acc.(errors := acc.errors[name := m])
    case Some(Ok(None)) => acc
    case Some(Ok(Some(x))) => acc.(results := acc.results[name := x])
  }

  /** One visited client: its name and what its resolution gave. */
  type Step = (string, Option<Result<Option<Resolved>>>)

  /** The merged maps after the given steps, in order. */
  function Merge(steps: seq<Step>): Found
    decreases |steps|
  {
    if steps == [] then Found(map[], map[])
    else
      var n := |steps| - 1;
      Record(Merge(steps[..n]), steps[n].0, steps[n].1)
  }

  /** The steps of `query`: each client's name with its resolution. */
  ghost function Steps(t: Transport, clients: seq<Exchange>, market: string, token: string): (r: seq<Step>)
    ensures |r| == |clients|
    ensures forall i :: 0 <= i < |clients| ==> r[i] == (Name(clients[i]), Resolution(t, clients[i], market, token))
  {
    seq(|clients|, i requires 0 <= i < |clients| => (Name(clients[i]), Resolution(t, clients[i], market, token)))
  }

  /** `Monitor.query` */
  method Query(t: Transport, clients: seq<Exchange>, token: string, market: string)
    returns (results: map<string, Resolved>, errors: map<string, string>)
    ensures Found(results, errors) == Merge(Steps(t, clients, market, token))
  {
    ghost var steps := Steps(t, clients, market, token);
    results, errors := map[], map[];
    var i := 0;
    while i < |clients|
      invariant 0 <= i <= |clients|
      invariant Found(results, errors) == Merge(steps[..i])
    {
      MergeNext(steps, i);
      var client := clients[i];
      var outcome := Resolve(t, client, market, token);
      match outcome {
        case None =>
        case Some(Raised(m)) => errors := errors[Name(client) := m];
        case Some(Ok(None)) =>
        case Some(Ok(Some(x))) => results := results[Name(client) := x];
      }
      i := i + 1;
    }
    assert steps[..|clients|] == steps;
  }

  /** One more step merges into the maps of the steps before it. */
  lemma MergeNext(steps: seq<Step>, i: nat)
    requires i < |steps|
    ensures Merge(steps[..i + 1]) == Record(Merge(steps[..i]), steps[i].0, steps[i].1)
  {
    assert steps[..i + 1][..i] == steps[..i];
  }

  /** Every key of either map is the name of some step. */
  ghost predicate KeysNamed(f: Found, steps: seq<Step>) {
    forall k :: k in f.results || k in f.errors ==> NameOfSome(k, steps)
  }

  predicate NameOfSome(k: string, steps: seq<Step>) {
    exists i :: 0 <= i < |steps| && steps[i].0 == k
  }

  lemma {:induction false} MergeKeys(steps: seq<Step>)
    ensures KeysNamed(Merge(steps), steps)
    decreases |steps|
  {
    if steps != [] {
      var n := |steps| - 1;
      var pre := steps[..n];
      MergeKeys(pre);
      var f := Merge(steps);
      var g := Merge(pre);
      forall k | k in f.results || k in f.errors
        ensures NameOfSome(k, steps)
      {
        if k != steps[n].0 {
          assert k in g.results || k in g.errors;
          assert NameOfSome(k, pre);
          var i :| 0 <= i < n && pre[i].0 == k;
          assert pre[i] == steps[i];
        } else {
          assert steps[n].0 == k;
        }
      }
    }
  }

  /** Steps with no outcome (an unknown market) leave both maps empty. */
  lemma {:induction false} MergeNothing(steps: seq<Step>)
    requires forall i :: 0 <= i < |steps| ==> steps[i].1.None?
    ensures Merge(steps) == Found(map[], map[])
    decreases |steps|
  {
    if steps != [] {
      var n := |steps| - 1;
      assert forall i :: 0 <= i < n ==> steps[..n][i] == steps[i];
      MergeNothing(steps[..n]);
    }
  }

  /** A market that is neither `perp` nor `spot` leaves both maps empty. */
  lemma QueryUnknownMarket(t: Transport, clients: seq<Exchange>, market: string, token: string)
    requires market != PERP && market != SPOT
    ensures Merge(Steps(t, clients, market, token)) == Found(map[], map[])
  {
    MergeNothing(Steps(t, clients, market, token));
  }

  /** What one step leaves in the merged maps when no other step shares its
      name. */
  predicate Entered(f: Found, name: string, outcome: Option<Result<Option<Resolved>>>) {
    match outcome
    case Some(Raised(m)) => name in f.errors && f.errors[name] == m && name !in f.results
    case Some(Ok(Some(x))) => name in f.results && f.results[name] == x && name !in f.errors
    case _ => name !in f.results && name !in f.errors
  }

  predicate DistinctSteps(steps: seq<Step>) {
    forall i, j :: 0 <= i < j < |steps| ==> steps[i].0 != steps[j].0
  }

  /** With distinct names, each step's outcome is exactly what is stored
      under its name: its result, its error text, or nothing. */
  lemma {:induction false} MergePerStep(steps: seq<Step>)
    requires DistinctSteps(steps)
    ensures forall i :: 0 <= i < |steps| ==> Entered(Merge(steps), steps[i].0, steps[i].1)
    decreases |steps|
  {
    if steps != [] {
      var n := |steps| - 1;
      var pre := steps[..n];
      assert forall i :: 0 <= i < n ==> pre[i] == steps[i];
      MergePerStep(pre);
      MergeKeys(pre);
      var g := Merge(pre);
      var name := steps[n].0;
      assert !NameOfSome(name, pre) by {
        forall j | 0 <= j < |pre| ensures pre[j].0 != name {
          assert pre[j] == steps[j];
        }
      }
      assert name !in g.results && name !in g.errors;
    }
  }

  /** With distinct names, no name has both a result and an error. */
  lemma MergeDisjoint(steps: seq<Step>)
    requires DistinctSteps(steps)
    ensures Merge(steps).results.Keys !! Merge(steps).errors.Keys
  {
    var f := Merge(steps);
    MergeKeys(steps);
    MergePerStep(steps);
    forall k | k in f.results ensures k !in f.errors {
      assert NameOfSome(k, steps);
      var i :| 0 <= i < |steps| && steps[i].0 == k;
      assert Entered(f, k, steps[i].1);
    }
  }

  /** `query` with distinct client names: every key is a client's name, each
      client's outcome is what is stored under its name, and no name has
      both a result and an error. */
  lemma QueryPerClient(t: Transport, clients: seq<Exchange>, market: string, token: string)
    requires DistinctNames(clients)
    ensures var f := Merge(Steps(t, clients, market, token));
      && (forall k :: k in f.results || k in f.errors ==> exists i :: 0 <= i < |clients| && Name(clients[i]) == k)
      && (forall i :: 0 <= i < |clients| ==> Entered(f, Name(clients[i]), Resolution(t, clients[i], market, token)))
      && f.results.Keys !! f.errors.Keys
  {
    var steps := Steps(t, clients, market, token);
    var f := Merge(steps);
    MergeKeys(steps);
    forall k | k in f.results || k in f.errors
      ensures exists i :: 0 <= i < |clients| && Name(clients[i]) == k
    {
      assert NameOfSome(k, steps);
      var i :| 0 <= i < |steps| && steps[i].0 == k;
    }
    assert DistinctSteps(steps);
    MergePerStep(steps);
    MergeDisjoint(steps);
  }

  // ----- fetch_prices_for_known_symbols -----

  /** `{c.name: c for c in clients}`: a later client overwrites an earlier
      one of the same name. */
  function ClientMap(clients: seq<Exchange>): (r: map<string, Exchange>)
    ensures r.Keys == set i | 0 <= i < |clients| :: Name(clients[i])
    ensures forall k :: k in r ==> Name(r[k]) == k
    ensures clients != [] ==> r[Name(clients[|clients| - 1])] == clients[|clients| - 1]
    decreases |clients|
  {
    if clients == [] then map[]
    else
      var n := |clients| - 1;
      assert forall i :: 0 <= i < n ==> clients[..n][i] == clients[i];
      ClientMap(clients[..n])[Name(clients[n]) := clients[n]]
  }

  /** The price call for one known name: `None` when no client has that name. */
  function PriceFor(t: Transport, cm: map<string, Exchange>, market: string, name: string, symbol: string): Option<Result<Option<Price>>> {
    if name in cm then Some(KnownPrice(t, cm[name], market, symbol)) else None
  }

  /** `fetch_prices_for_known_symbols` over the names in `done`: a price is
      stored when the call gives one, the exception's text when it raises. */
  function RefreshOver(t: Transport, cm: map<string, Exchange>, known: map<string, string>, market: string, done: set<string>): (r: Prices)
    ensures r.results.Keys <= done * known.Keys && r.errors.Keys <= done * known.Keys
    ensures r.results.Keys !! r.errors.Keys
    ensures forall k :: k in r.results || k in r.errors ==> k in cm
  {
    Prices(
      map k | k in done && k in known && PriceFor(t, cm, market, k, known[k]).Some? &&
              PriceFor(t, cm, market, k, known[k]).value.Ok? && PriceFor(t, cm, market, k, known[k]).value.value.Some?
            :: PriceFor(t, cm, market, k, known[k]).value.value.value,
      map k | k in done && k in known && PriceFor(t, cm, market, k, known[k]).Some? &&
              PriceFor(t, cm, market, k, known[k]).value.Raised?
            :: PriceFor(t, cm, market, k, known[k]).value.message)
  }

  /** The whole refresh. */
  function Refresh(t: Transport, clients: seq<Exchange>, known: map<string, string>, market: string): Prices {
    RefreshOver(t, ClientMap(clients), known, market, known.Keys)
  }

  /** The refresh adds one name at a time. */
  lemma RefreshStep(t: Transport, cm: map<string, Exchange>, known: map<string, string>, market: string, done: set<string>, k: string)
    requires k in known && k !in done
    ensures var before := RefreshOver(t, cm, known, market, done);
      RefreshOver(t, cm, known, market, done + {k}) ==
        match PriceFor(t, cm, market, k, known[k])
        case None => before
        case Some(Raised(m)) => before.(errors := before.errors[k := m])
        case Some(Ok(None)) => before
        case Some(Ok(Some(p))) => before.(results := before.results[k := p])
  {
    var before := RefreshOver(t, cm, known, market, done);
    var after := RefreshOver(t, cm, known, market, done + {k});
    match PriceFor(t, cm, market, k, known[k])
    case None =>
      assert after.results == before.results;
      assert after.errors == before.errors;
    case Some(Raised(m)) =>
      assert after.results == before.results;
      assert after.errors == before.errors[k := m];
    case Some(Ok(None)) =>
      assert after.results == before.results;
      assert after.errors == before.errors;
    case Some(Ok(Some(p))) =>
      assert after.results == before.results[k := p];
      assert after.errors == before.errors;
  }

  /** `Monitor.fetch_prices_for_known_symbols`. `sent` lists the requests
      made: each is a known-symbol price request for a known name's stored
      symbol, on the client of that name. */
  method FetchPricesForKnownSymbols(t: Transport, clients: seq<Exchange>, known: map<string, string>, market: string)
    returns (results: map<string, Price>, errors: map<string, string>, ghost sent: seq<Request>)
    ensures Prices(results, errors) == Refresh(t, clients, known, market)
    ensures var cm := ClientMap(clients);
      forall r :: r in sent ==> exists k :: k in known && k in cm && r in PriceRequests(cm[k], market, known[k])
  {
    var cm := ClientMap(clients);
    results, errors, sent := map[], map[], [];
    var todo := known.Keys;
    while todo != {}
      invariant todo <= known.Keys
      invariant Prices(results, errors) == RefreshOver(t, cm, known, market, known.Keys - todo)
      invariant forall r :: r in sent ==> exists k :: k in known && k in cm && r in PriceRequests(cm[k], market, known[k])
      decreases todo
    {
      var name :| name in todo;
      RefreshStep(t, cm, known, market, known.Keys - todo, name);
      assert (known.Keys - todo) + {name} == known.Keys - (todo - {name});
      todo := todo - {name};
      if name in cm {
        var price, more := FetchKnownPrice(t, cm[name], market, known[name]);
        sent := sent + more;
        match price {
          case Raised(m) => errors := errors[name := m];
          case Ok(None) =>
          case Ok(Some(p)) => results := results[name := p];
        }
      }
    }
    assert known.Keys - todo == known.Keys;
  }

  /** A name with no client of that name is skipped: it appears in neither
      map. */
  lemma UnknownNameSkipped(t: Transport, clients: seq<Exchange>, known: map<string, string>, market: string, k: string)
    requires forall i :: 0 <= i < |clients| ==> Name(clients[i]) != k
    ensures k !in Refresh(t, clients, known, market).results && k !in Refresh(t, clients, known, market).errors
  {
    assert k !in ClientMap(clients);
  }

  /** For a known name with a client, the refresh stores exactly what that
      client's known-symbol call gives for the stored symbol. */
  lemma RefreshPerName(t: Transport, clients: seq<Exchange>, known: map<string, string>, market: string, k: string)
    requires k in known && k in ClientMap(clients)
    ensures var f := Refresh(t, clients, known, market);
      match KnownPrice(t, ClientMap(clients)[k], market, known[k])
      case Raised(m) => k in f.errors && f.errors[k] == m && k !in f.results
      case Ok(None) => k !in f.results && k !in f.errors
      case Ok(Some(p)) => k in f.results && f.results[k] == p && k !in f.errors
  {
  }
}
