/** The `/crypto` router: how each handler validates its input, which store or
    gateway operation it calls, and which status code and body it answers
    with. A handler that touches the watchlist returns the next store along
    with its reply. Request parsing, Express routing and JSON rendering are
    not modelled; inputs arrive already extracted from the request. */
module CryptoRoutes {
  import opened Wrappers
  import opened Js
  import opened Watchlist
  import opened CoinGecko

  /** The JSON bodies the handlers send. */
  datatype Body =
    | Quotes(quotes: seq<Quote>)
    | OneQuote(quote: Quote)
    | Coins(coins: seq<Coin>)
    | WithCoin(message: string, coin: Coin)
    | Error(error: string)

  datatype Reply = Reply(status: int, body: Body)

  /** A reply together with the store after the request. */
  datatype Handled = Handled(reply: Reply, store: Store)

  /** The limit actually used by `GET /crypto`: `parseInt(limit) || 10`.
      `parsed` is the result of `parseInt`, `None` standing for `NaN`. */
  function EffectiveLimit(parsed: Option<int>): (limit: int)
    ensures limit != 0
    ensures parsed.None? ==> limit == 10
    ensures parsed.Some? ==> limit == (if parsed.value == 0 then 10 else parsed.value)
  {
    match parsed
    case None => 10
    case Some(n) => if n == 0 then 10 else n
  }

  /** `GET /crypto`: the popular list with the effective limit, or 500 with
      the gateway's message. */
  function ListPopular(parsed: Option<int>, fetch: Outcome<seq<ProviderCoin>>, testEnv: bool)
    : (r: Reply)
    ensures r.status == 200 || r.status == 500
    ensures r.status == 200 <==> PopularCoins(EffectiveLimit(parsed), fetch, testEnv).Success?
    ensures r.status == 200 ==> r.body == Quotes(PopularCoins(EffectiveLimit(parsed), fetch, testEnv).value)
    ensures r.status == 500 ==> r.body == Error(FetchError)
  {
    match PopularCoins(EffectiveLimit(parsed), fetch, testEnv)
    case Success(qs) => Reply(200, Quotes(qs))
    case Failure(e) => Reply(500, Error(e))
  }

  /** Without the provider, `GET /crypto?limit=5` answers five quotes and
      `GET /crypto` the whole fallback table of ten. */
  lemma ListPopularFallbackLimit(fetch: Outcome<seq<ProviderCoin>>, testEnv: bool)
    requires fetch.RateLimited? || (fetch.Failed? && testEnv)
    ensures var r := ListPopular(Some(5), fetch, testEnv);
            r.status == 200 && |r.body.quotes| == 5
    ensures var r := ListPopular(None, fetch, testEnv);
            r.status == 200 && r.body.quotes == MockCoins
  {
  }

  /** `GET /crypto/watchlist`: the snapshot, always 200. */
  function ShowWatchlist(w: Store): (r: Reply)
    ensures r.status == 200 && r.body.Coins? && r.body.coins == w
  {
    Reply(200, Coins(List(w)))
  }

  /** `GET /crypto/:symbol`: 400 for a symbol shorter than two characters,
      404 when the lookup finds nothing, 200 with the quote otherwise. */
  function ShowCoin(symbol: string, search: string -> Outcome<seq<SearchHit>>,
                    detail: string -> Outcome<ProviderCoin>): (r: Reply)
    ensures r.status == 400 <==> |symbol| < 2
    ensures r.status == 400 ==> r.body == Error("Invalid symbol")
    ensures |symbol| >= 2 ==>
      var found := CoinBySymbol(symbol, search, detail);
      && (found.None? <==> r.status == 404)
      && (found.None? ==> r.body == Error("Coin with symbol '" + symbol + "' not found"))
      && (found.Some? ==> r == Reply(200, OneQuote(found.value)))
  {
    if |symbol| < 2 then Reply(400, Error("Invalid symbol"))
    else match CoinBySymbol(symbol, search, detail)
      case None => Reply(404, Error("Coin with symbol '" + symbol + "' not found"))
      case Some(q) => Reply(200, OneQuote(q))
  }

  /** A too-short symbol is refused before any lookup: the reply does not
      depend on the provider at all. */
  lemma ShortSymbolSkipsLookup(symbol: string,
                               search1: string -> Outcome<seq<SearchHit>>,
                               detail1: string -> Outcome<ProviderCoin>,
                               search2: string -> Outcome<seq<SearchHit>>,
                               detail2: string -> Outcome<ProviderCoin>)
    requires |symbol| < 2
    ensures ShowCoin(symbol, search1, detail1) == ShowCoin(symbol, search2, detail2)
  {
  }

  /** The lookup signals no error for a string symbol, so the 500 branch of
      `GET /crypto/:symbol` is never taken. */
  lemma ShowCoinNever500(symbol: string, search: string -> Outcome<seq<SearchHit>>,
                         detail: string -> Outcome<ProviderCoin>)
    ensures var r := ShowCoin(symbol, search, detail);
            r.status == 200 || r.status == 400 || r.status == 404
  {
  }

  /** `POST /crypto`: symbol checked first, then name; then the store's add,
      409 on a duplicate and 201 with the new record otherwise. */
  function AddCoin(w: Store, symbol: Option<string>, name: Option<string>, notes: Option<string>,
                   id: string, now: string): (r: Handled)
    ensures r.reply.status == 400 <==> !Truthy(symbol) || !Truthy(name)
    ensures !Truthy(symbol) ==> r.reply.body == Error("Symbol is required")
    ensures Truthy(symbol) && !Truthy(name) ==> r.reply.body == Error("Name is required")
    ensures r.reply.status == 400 ==> r.store == w
    ensures r.reply.status == 409 <==> Truthy(symbol) && Truthy(name) && !NoMatch(w, symbol.value)
    ensures r.reply.status == 409 ==>
      r.store == w && r.reply.body == Error("Coin '" + symbol.value + "' already exists in watchlist")
    ensures r.reply.status == 201 <==> Truthy(symbol) && Truthy(name) && NoMatch(w, symbol.value)
    ensures r.reply.status == 201 ==>
      && r.reply.body.WithCoin?
      && r.reply.body.message == "Coin added to watchlist"
      && r.store == w + [r.reply.body.coin]
      && r.reply.body.coin.symbol == Upper(symbol.value)
      && r.reply.body.coin.name == name.value
      && r.reply.body.coin.notes == OrElse(notes, "")
      && r.reply.body.coin.id == id
      && r.reply.body.coin.addedAt == now
      && r.reply.body.coin.updatedAt == None
  {
    if !Truthy(symbol) then Handled(Reply(400, Error("Symbol is required")), w)
    else if !Truthy(name) then Handled(Reply(400, Error("Name is required")), w)
    else
      var change := Add(w, symbol.value, name.value, notes, id, now);
      match change.coin
      case None =>
        Handled(Reply(409, Error("Coin '" + symbol.value + "' already exists in watchlist")), change.store)
      case Some(c) =>
        assert change.store == change.store[..|w|] + [c];
        Handled(Reply(201, WithCoin("Coin added to watchlist", c)), change.store)
  }

  /** The update object the `PUT` handler builds: `name` only when truthy,
      `notes` whenever it is defined, the empty string included. */
  function UpdatesFrom(name: Option<string>, notes: Option<string>): (u: Updates)
    ensures u.name.Some? <==> Truthy(name)
    ensures u.name.Some? ==> u.name == name
    ensures u.notes == notes
  {
    Updates(if Truthy(name) then name else None, notes)
  }

  /** `PUT /crypto/:symbol`: 400 when neither a truthy name nor any notes are
      given, then the store's update, 404 when absent and 200 otherwise. */
  function UpdateCoin(w: Store, symbol: string, name: Option<string>, notes: Option<string>,
                      now: string): (r: Handled)
    ensures r.reply.status == 400 <==> !Truthy(name) && notes.None?
    ensures r.reply.status == 400 ==>
      r.store == w && r.reply.body == Error("At least one field (name or notes) is required")
    ensures r.reply.status == 404 <==> (Truthy(name) || notes.Some?) && NoMatch(w, symbol)
    ensures r.reply.status == 404 ==>
      r.store == w && r.reply.body == Error("Coin '" + symbol + "' not found in watchlist")
    ensures r.reply.status == 200 ==>
      && FindIndex(w, symbol).Some?
      && |r.store| == |w|
      && var i := FindIndex(w, symbol).value;
      && r.reply.body == WithCoin("Coin updated in watchlist", r.store[i])
      && (forall j :: 0 <= j < |w| && j != i ==> r.store[j] == w[j])
      && r.store[i].id == w[i].id
      && r.store[i].addedAt == w[i].addedAt
      && r.store[i].symbol == w[i].symbol
      && r.store[i].name == (if Truthy(name) then name.value else w[i].name)
      && r.store[i].notes == (if notes.Some? then notes.value else w[i].notes)
      && r.store[i].updatedAt == Some(now)
    ensures r.reply.status in {200, 400, 404}
  {
    if !Truthy(name) && notes.None? then
      Handled(Reply(400, Error("At least one field (name or notes) is required")), w)
    else
      var change := Update(w, symbol, UpdatesFrom(name, notes), now);
      match change.coin
      case None => Handled(Reply(404, Error("Coin '" + symbol + "' not found in watchlist")), change.store)
      case Some(c) => Handled(Reply(200, WithCoin("Coin updated in watchlist", c)), change.store)
  }

  /** `DELETE /crypto/:symbol`: 404 when absent, otherwise 200 with the removed
      record. */
  function RemoveCoin(w: Store, symbol: string): (r: Handled)
    ensures r.reply.status == 404 <==> NoMatch(w, symbol)
    ensures r.reply.status == 404 ==>
      r.store == w && r.reply.body == Error("Coin '" + symbol + "' not found in watchlist")
    ensures r.reply.status == 200 ==>
      && r.reply.body.WithCoin?
      && r.reply.body.message == "Coin removed from watchlist"
      && FindIndex(w, symbol).Some?
      && var i := FindIndex(w, symbol).value;
      && r.reply.body.coin == w[i]
      && Matches(r.reply.body.coin, symbol)
      && r.store == w[..i] + w[i + 1..]
    ensures r.reply.status in {200, 404}
  {
    match Remove(w, symbol)
    case Change(None, s) => Handled(Reply(404, Error("Coin '" + symbol + "' not found in watchlist")), s)
    case Change(Some(c), s) => Handled(Reply(200, WithCoin("Coin removed from watchlist", c)), s)
  }

  // ---------------------------------------------------------------------------
  // Sessions: sequences of requests against one store

  /** The HTTP requests that read or change the watchlist, with the clock
      readings they would take. */
  datatype Request =
    | Post(bodySymbol: Option<string>, bodyName: Option<string>, bodyNotes: Option<string>, id: string, now: string)
    | Put(symbol: string, name: Option<string>, notes: Option<string>, putNow: string)
    | Delete(symbol: string)
    | GetWatchlist

  /** What can happen to the store between two points in time: an HTTP
      request, or a direct call of `clearWatchlist`, which no route exposes
      (the test suite calls it before each test). */
  datatype Step = Http(request: Request) | ClearHook

  function Serve(w: Store, req: Request): Handled {
    match req
    case Post(s, n, o, id, now) => AddCoin(w, s, n, o, id, now)
    case Put(s, n, o, now) => UpdateCoin(w, s, n, o, now)
    case Delete(s) => RemoveCoin(w, s)
    case GetWatchlist => Handled(ShowWatchlist(w), w)
  }

  /** The store after one step. */
  function Apply(w: Store, step: Step): Store {
    match step
    case Http(req) => Serve(w, req).store
    case ClearHook => Clear(w)
  }

  /** The store after the steps `steps`, in order. */
  function Run(w: Store, steps: seq<Step>): Store
    decreases |steps|
  {
    if |steps| == 0 then w else Run(Apply(w, steps[0]), steps[1..])
  }

  /** Serving one request keeps the store invariant. */
  lemma ServePreservesValid(w: Store, req: Request)
    requires Valid(w)
    ensures Valid(Serve(w, req).store)
  {
    match req
    case Post(s, n, o, id, now) =>
      if Truthy(s) && Truthy(n) {
        AddPreservesValid(w, s.value, n.value, o, id, now);
      }
    case Put(s, n, o, now) =>
      UpdatePreservesValid(w, s, UpdatesFrom(n, o), now);
    case Delete(s) =>
      RemovePreservesValid(w, s);
    case GetWatchlist =>
  }

  /** Any sequence of requests and clears keeps the store invariant. */
  lemma {:induction false} RunPreservesValid(w: Store, steps: seq<Step>)
    requires Valid(w)
    ensures Valid(Run(w, steps))
    decreases |steps|
  {
    if |steps| > 0 {
      match steps[0] {
        case Http(req) => ServePreservesValid(w, req);
        case ClearHook => ClearPreservesValid(w);
      }
      RunPreservesValid(Apply(w, steps[0]), steps[1..]);
    }
  }

  /** Every store reachable from the empty one has upper-case, pairwise
      distinct symbols. */
  lemma ReachableValid(steps: seq<Step>)
    ensures Valid(Run(Initial, steps))
  {
    InitialValid();
    RunPreservesValid(Initial, steps);
  }

  /** The test scenario: adding `btc` stores `BTC`, and posting `BTC` again
      is a conflict that leaves the store alone. */
  lemma PostTwiceConflicts(id1: string, t1: string, id2: string, t2: string)
    ensures var r1 := AddCoin(Initial, Some("btc"), Some("Bitcoin"), Some("fav"), id1, t1);
      && r1.reply.status == 201
      && r1.reply.body.coin == Coin(id1, "BTC", "Bitcoin", "fav", t1, None)
      && AddCoin(r1.store, Some("BTC"), Some("Bitcoin"), None, id2, t2).reply.status == 409
      && AddCoin(r1.store, Some("BTC"), Some("Bitcoin"), None, id2, t2).store == r1.store
  {
  }

  /** The test scenario: updating a symbol that was never added is 404 and
      changes nothing. */
  lemma PutMissingIsNotFound(w: Store, now: string)
    requires NoMatch(w, "NOTEXIST")
    ensures UpdateCoin(w, "NOTEXIST", None, Some("x"), now).reply.status == 404
    ensures UpdateCoin(w, "NOTEXIST", None, Some("x"), now).store == w
  {
  }
}
