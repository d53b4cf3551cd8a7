/** The market-data gateway: the two static tables, the mock-quote lookup, and
    the decision trees of `getPopularCoins` and `getCoinBySymbol`. Every HTTP
    call to the provider is replaced by its outcome, supplied as an input. */
module CoinGecko {
  import opened Wrappers
  import opened Js

  /** The quote shape handed to callers. Prices and changes are exact reals. */
  datatype Quote = Quote(symbol: string, name: string, price: real, change: real)

  /** A coin as the provider describes it (a `/coins/markets` entry or a
      `/coins/{id}` record); the 24h change may be missing. */
  datatype ProviderCoin = ProviderCoin(symbol: string, name: string, price: real, change24h: Option<real>)

  /** One entry of a `/search` reply. */
  datatype SearchHit = SearchHit(id: string, symbol: string)

  /** How one provider call ended: data, an HTTP 429 response, or any other
      thrown error (network failure, other status, malformed payload). */
  datatype Outcome<+T> = Ok(data: T) | RateLimited | Failed

  const FetchError: string := "Failed to fetch cryptocurrency data"

  /** The fallback quotes used when the provider is rate limited. */
  const MockCoins: seq<Quote> := [
    Quote("BTC", "Bitcoin", 45000.0, 2.5),
    Quote("ETH", "Ethereum", 2500.0, -1.2),
    Quote("USDT", "Tether", 1.0, 0.01),
    Quote("BNB", "BNB", 320.0, 1.8),
    Quote("XRP", "XRP", 0.62, -0.5),
    Quote("SOL", "Solana", 98.0, 3.2),
    Quote("ADA", "Cardano", 0.45, -2.1),
    Quote("DOGE", "Dogecoin", 0.08, 5.3),
    Quote("DOT", "Polkadot", 7.2, 0.8),
    Quote("MATIC", "Polygon", 0.85, 1.1)
  ]

  /** Well-known tickers and their provider identifiers. */
  const SymbolToId: map<string, string> := map[
    "BTC" := "bitcoin",
    "ETH" := "ethereum",
    "USDT" := "tether",
    "BNB" := "binancecoin",
    "XRP" := "ripple",
    "ADA" := "cardano",
    "DOGE" := "dogecoin",
    "SOL" := "solana",
    "DOT" := "polkadot",
    "MATIC" := "matic-network",
    "LTC" := "litecoin",
    "AVAX" := "avalanche-2",
    "LINK" := "chainlink",
    "UNI" := "uniswap",
    "ATOM" := "cosmos"
  ]

  /** The property names every plain JavaScript object inherits from
      `Object.prototype`; an indexing `symbolToId[key]` would find them too. */
  const ObjectPrototypeNames: set<string> := {
    "constructor", "hasOwnProperty", "isPrototypeOf", "propertyIsEnumerable",
    "toLocaleString", "toString", "valueOf", "__proto__", "__defineGetter__",
    "__defineSetter__", "__lookupGetter__", "__lookupSetter__"
  }

  // ---------------------------------------------------------------------------
  // The static tables

  /** The fallback table: upper-case symbols, pairwise distinct, each one a key
      of the identifier table, and no empty symbol or name. */
  lemma MockCoinsWellFormed()
    ensures |MockCoins| == 10
    ensures forall i :: 0 <= i < |MockCoins| ==> IsUpper(MockCoins[i].symbol)
    ensures forall i, j :: 0 <= i < j < |MockCoins| ==> MockCoins[i].symbol != MockCoins[j].symbol
    ensures forall i :: 0 <= i < |MockCoins| ==> MockCoins[i].symbol in SymbolToId
    ensures forall i :: 0 <= i < |MockCoins| ==> MockCoins[i].symbol != "" && MockCoins[i].name != ""
  {
  }

  /** Every identifier is a non-empty, hence truthy, string, so the test
      `!coinId` holds exactly when the symbol is not a key. */
  lemma SymbolToIdTruthy()
    ensures forall k :: k in SymbolToId ==> SymbolToId[k] != ""
  {
  }

  /** No upper-cased string is an inherited property name, so looking up
      `symbolToId[upperSymbol]` only ever sees the table's own keys. */
  lemma UpperMissesPrototype(s: string)
    ensures Upper(s) !in ObjectPrototypeNames
  {
    UpperIsUpper(s);
    forall n | n in ObjectPrototypeNames
      ensures !IsUpper(n)
    {
      assert |n| > 2 && (IsLower(n[0]) || IsLower(n[2]));
    }
  }

  // ---------------------------------------------------------------------------
  // Mapping provider data

  /** A non-negative amount rounded to whole cents, ties upwards: the digits
      `toFixed(2)` prints for it. */
  function RoundCents(m: real): (r: real)
    requires m >= 0.0
    ensures r >= 0.0
    ensures -0.005 < r - m <= 0.005
    ensures (r * 100.0).Floor as real == r * 100.0
  {
    var n := (m * 100.0 + 0.5).Floor;
    assert n as real <= m * 100.0 + 0.5 < n as real + 1.0;
    n as real / 100.0
  }

  /** `parseFloat(x?.toFixed(2)) || 0` over exact reals: `toFixed` rounds the
      magnitude to two decimals, ties away from zero, and keeps the sign; a
      missing value gives 0 (as does a value that rounds to zero). */
  function RoundChange(x: Option<real>): (r: real)
    ensures x.None? ==> r == 0.0
    ensures x.Some? ==> -0.005 <= r - x.value <= 0.005
    ensures x.Some? && x.value >= 0.0 ==> -0.005 < r - x.value
    ensures x.Some? && x.value <= 0.0 ==> r - x.value < 0.005
    ensures x.Some? ==> (r * 100.0).Floor as real == r * 100.0
    ensures x.Some? && x.value >= 0.0 ==> r >= 0.0
    ensures x.Some? && x.value <= 0.0 ==> r <= 0.0
  {
    match x
    case None => 0.0
    case Some(v) =>
      if v < 0.0 then
        var c := RoundCents(-v);
        var n := (c * 100.0).Floor;
        assert (-c) * 100.0 == (-n) as real;
        assert ((-n) as real).Floor == -n;
        -c
      else RoundCents(v)
  }

  /** The quote built from one provider record. */
  function ToQuote(p: ProviderCoin): (q: Quote)
    ensures q.symbol == Upper(p.symbol) && IsUpper(q.symbol)
    ensures q.name == p.name && q.price == p.price
    ensures q.change == RoundChange(p.change24h)
  {
    UpperIsUpper(p.symbol);
    Quote(Upper(p.symbol), p.name, p.price, RoundChange(p.change24h))
  }

  /** `response.data.map(...)`: one quote per entry, in order. */
  function ToQuotes(ps: seq<ProviderCoin>): (qs: seq<Quote>)
    ensures |qs| == |ps|
    ensures forall i :: 0 <= i < |ps| ==> qs[i] == ToQuote(ps[i])
  {
    if |ps| == 0 then [] else [ToQuote(ps[0])] + ToQuotes(ps[1..])
  }

  // ---------------------------------------------------------------------------
  // getMockCoin

  /** The first quote in `qs` whose symbol is exactly `symbol`. */
  function FindQuote(qs: seq<Quote>, symbol: string): (r: Option<Quote>)
    ensures r.Some? ==> r.value in qs && r.value.symbol == symbol
    ensures r.Some? ==>
      exists k :: 0 <= k < |qs| && qs[k] == r.value && (forall j :: 0 <= j < k ==> qs[j].symbol != symbol)
    ensures r.None? <==> forall i :: 0 <= i < |qs| ==> qs[i].symbol != symbol
  {
    if |qs| == 0 then None
    else if qs[0].symbol == symbol then Some(qs[0])
    else FindQuote(qs[1..], symbol)
  }

  /** `getMockCoin`: the fallback quote whose symbol equals the upper-cased
      input, or `null`. */
  function MockCoin(symbol: string): (r: Option<Quote>)
    ensures r.Some? ==> r.value in MockCoins && r.value.symbol == Upper(symbol)
    ensures r.None? <==> forall i :: 0 <= i < |MockCoins| ==> MockCoins[i].symbol != Upper(symbol)
  {
    FindQuote(MockCoins, Upper(symbol))
  }

  /** Every fallback quote is found by its own symbol, in any case. */
  lemma MockCoinFindsEntry(i: int, symbol: string)
    requires 0 <= i < |MockCoins|
    requires EqualsIgnoreCase(symbol, MockCoins[i].symbol)
    ensures MockCoin(symbol) == Some(MockCoins[i])
  {
    MockCoinsWellFormed();
    UpperOfUpper(MockCoins[i].symbol);
    var q := MockCoin(symbol).value;
    var k :| 0 <= k < |MockCoins| && MockCoins[k] == q;
    assert MockCoins[k].symbol == MockCoins[i].symbol;
    assert k == i;
  }

  /** The fallback quote for Bitcoin, looked up in lower case. */
  lemma MockCoinBitcoin()
    ensures MockCoin("btc") == Some(Quote("BTC", "Bitcoin", 45000.0, 2.5))
  {
    assert Upper("btc") == "BTC";
    MockCoinFindsEntry(0, "btc");
  }

  // ---------------------------------------------------------------------------
  // getPopularCoins

  /** `getPopularCoins(limit)`: the mapped provider list on success; the
      first `limit` fallback quotes (JavaScript `slice` semantics) when the
      call was rate limited or the process runs in the test environment;
      otherwise the generic fetch error. */
  function PopularCoins(limit: int, fetch: Outcome<seq<ProviderCoin>>, testEnv: bool)
    : (r: Result<seq<Quote>>)
    ensures fetch.Ok? ==> r.Success? && |r.value| == |fetch.data|
    ensures fetch.Ok? ==> forall i :: 0 <= i < |fetch.data| ==> r.value[i] == ToQuote(fetch.data[i])
    ensures (fetch.RateLimited? || (fetch.Failed? && testEnv)) ==>
      && r.Success?
      && |r.value| == SliceEnd(|MockCoins|, limit)
      && r.value == MockCoins[..|r.value|]
    ensures fetch.Failed? && !testEnv ==> r == Failure(FetchError)
  {
    match fetch
    case Ok(data) => Success(ToQuotes(data))
    case RateLimited => Success(SliceTo(MockCoins, limit))
    case Failed =>
      if testEnv then Success(SliceTo(MockCoins, limit)) else Failure(FetchError)
  }

  /** On the fallback path a non-negative limit bounds the list: it holds
      `min(limit, 10)` quotes. A negative limit counts back from the end of
      the table instead. */
  lemma PopularFallbackLength(limit: int, fetch: Outcome<seq<ProviderCoin>>, testEnv: bool)
    requires fetch.RateLimited? || (fetch.Failed? && testEnv)
    ensures var r := PopularCoins(limit, fetch, testEnv);
      && r.Success?
      && (0 <= limit ==> |r.value| <= limit && |r.value| == (if limit < 10 then limit else 10))
      && (limit < 0 ==> |r.value| == (if limit < -10 then 0 else 10 + limit))
  {
  }

  /** Every quote of a successful list has an upper-case symbol. */
  lemma PopularSymbolsUpper(limit: int, fetch: Outcome<seq<ProviderCoin>>, testEnv: bool)
    requires PopularCoins(limit, fetch, testEnv).Success?
    ensures var qs := PopularCoins(limit, fetch, testEnv).value;
            forall i :: 0 <= i < |qs| ==> IsUpper(qs[i].symbol)
  {
  }

  // ---------------------------------------------------------------------------
  // getCoinBySymbol

  /** `coins.find(c => c.symbol.toUpperCase() === upper)`, as a position:
      the first search hit whose upper-cased symbol is `upper`. */
  function FirstHit(hits: seq<SearchHit>, upper: string): (r: Option<nat>)
    ensures r.Some? ==> r.value < |hits| && Upper(hits[r.value].symbol) == upper
    ensures r.Some? ==> forall j :: 0 <= j < r.value ==> Upper(hits[j].symbol) != upper
    ensures r.None? <==> forall j :: 0 <= j < |hits| ==> Upper(hits[j].symbol) != upper
  {
    if |hits| == 0 then None
    else if Upper(hits[0].symbol) == upper then Some(0)
    else match FirstHit(hits[1..], upper)
      case None => None
      case Some(i) => Some(i + 1)
  }

  /** The detail fetch and its error handling, shared by both paths: the
      mapped quote, the fallback quote on a 429, `null` on any other error. */
  function FetchQuote(detail: Outcome<ProviderCoin>, symbol: string): (r: Option<Quote>)
    ensures detail.Ok? ==> r == Some(ToQuote(detail.data))
    ensures detail.RateLimited? ==> r == MockCoin(symbol)
    ensures detail.Failed? ==> r == None
  {
    match detail
    case Ok(p) => Some(ToQuote(p))
    case RateLimited => MockCoin(symbol)
    case Failed => None
  }

  /** `getCoinBySymbol(symbol)`. `search(q)` is the outcome of the `/search`
      call with query `q`; `detail(id)` the outcome of fetching `/coins/{id}`.
      A known ticker is fetched directly; an unknown one is searched for, the
      first exact (case-insensitive) hit fetched, and the fallback table used
      when there is none. */
  function CoinBySymbol(symbol: string, search: string -> Outcome<seq<SearchHit>>,
                        detail: string -> Outcome<ProviderCoin>): (r: Option<Quote>)
    ensures Upper(symbol) in SymbolToId ==>
      r == FetchQuote(detail(SymbolToId[Upper(symbol)]), symbol)
    ensures Upper(symbol) !in SymbolToId && search(symbol).RateLimited? ==> r == MockCoin(symbol)
    ensures Upper(symbol) !in SymbolToId && search(symbol).Failed? ==> r == None
    ensures Upper(symbol) !in SymbolToId && search(symbol).Ok? ==>
      var hit := FirstHit(search(symbol).data, Upper(symbol));
      && (hit.None? ==> r == MockCoin(symbol))
      && (hit.Some? ==> r == FetchQuote(detail(search(symbol).data[hit.value].id), symbol))
  {
    var upper := Upper(symbol);
    if upper !in SymbolToId then
      match search(symbol)
      case RateLimited => MockCoin(symbol)
      case Failed => None
      case Ok(hits) =>
        match FirstHit(hits, upper)
        case None => MockCoin(symbol)
        case Some(i) => FetchQuote(detail(hits[i].id), symbol)
    else
      FetchQuote(detail(SymbolToId[upper]), symbol)
  }

  /** A lookup never invents a quote: a result is either the fallback quote
      for the symbol or the mapping of some record the provider returned. */
  lemma CoinBySymbolProvenance(symbol: string, search: string -> Outcome<seq<SearchHit>>,
                               detail: string -> Outcome<ProviderCoin>)
    ensures var r := CoinBySymbol(symbol, search, detail);
      r.Some? ==>
        || r == MockCoin(symbol)
        || exists id :: detail(id).Ok? && r.value == ToQuote(detail(id).data)
  {
  }

  /** When the provider answers every call with 429, the lookup is exactly the
      fallback table's answer. */
  lemma CoinBySymbolRateLimited(symbol: string, search: string -> Outcome<seq<SearchHit>>,
                                detail: string -> Outcome<ProviderCoin>)
    requires forall q :: search(q).RateLimited?
    requires forall id :: detail(id).RateLimited?
    ensures CoinBySymbol(symbol, search, detail) == MockCoin(symbol)
  {
  }

  /** The Bitcoin fallback quote is what a rate-limited lookup of `BTC`
      returns. */
  lemma CoinBySymbolBitcoinRateLimited(search: string -> Outcome<seq<SearchHit>>,
                                       detail: string -> Outcome<ProviderCoin>)
    requires detail("bitcoin").RateLimited?
    ensures CoinBySymbol("BTC", search, detail) == Some(Quote("BTC", "Bitcoin", 45000.0, 2.5))
  {
    assert Upper("BTC") == "BTC";
    MockCoinFindsEntry(0, "BTC");
  }

  /** When every call fails for a reason other than rate limiting, nothing is
      found. */
  lemma CoinBySymbolFailed(symbol: string, search: string -> Outcome<seq<SearchHit>>,
                           detail: string -> Outcome<ProviderCoin>)
    requires forall q :: search(q).Failed?
    requires forall id :: detail(id).Failed?
    ensures CoinBySymbol(symbol, search, detail) == None
  {
  }

  /** A known ticker never consults the search endpoint. */
  lemma KnownSymbolIgnoresSearch(symbol: string, search1: string -> Outcome<seq<SearchHit>>,
                                 search2: string -> Outcome<seq<SearchHit>>,
                                 detail: string -> Outcome<ProviderCoin>)
    requires Upper(symbol) in SymbolToId
    ensures CoinBySymbol(symbol, search1, detail) == CoinBySymbol(symbol, search2, detail)
  {
  }

  /** Two case variants of a symbol get the same answer, provided the search
      endpoint answers their (differently spelled) queries alike. */
  lemma CoinBySymbolIgnoresCase(s1: string, s2: string, search: string -> Outcome<seq<SearchHit>>,
                                detail: string -> Outcome<ProviderCoin>)
    requires EqualsIgnoreCase(s1, s2)
    requires search(s1) == search(s2)
    ensures CoinBySymbol(s1, search, detail) == CoinBySymbol(s2, search, detail)
  {
  }

  // ---------------------------------------------------------------------------
  // Reference: the lookup as an ordered chain of resolution strategies

  /** What one resolution strategy concludes. */
  datatype Verdict = Resolved(quote: Quote) | TryNext | Stop

  /** Runs strategies in order: the first that resolves or stops decides; if
      every strategy defers, the coin is not found. */
  function Resolve(strategies: seq<Verdict>): (r: Option<Quote>)
    ensures r.Some? ==> exists k :: 0 <= k < |strategies| && strategies[k] == Resolved(r.value)
    ensures (forall k :: 0 <= k < |strategies| ==> strategies[k].TryNext?) ==> r.None?
    ensures forall k :: 0 <= k < |strategies| && !strategies[k].TryNext?
                        && (forall j :: 0 <= j < k ==> strategies[j].TryNext?) ==>
              r == (if strategies[k].Resolved? then Some(strategies[k].quote) else None)
  {
    if |strategies| == 0 then None
    else match strategies[0]
      case Resolved(q) => Some(q)
      case Stop => None
      case TryNext =>
        var r := Resolve(strategies[1..]);
        assert r.Some? ==> exists k :: 1 <= k < |strategies| && strategies[k] == Resolved(r.value);
        r
  }

  /** A provider call as a strategy: data resolves, a 429 defers to the next
      strategy, any other error stops the chain. */
  function Attempt(o: Outcome<ProviderCoin>): Verdict {
    match o
    case Ok(p) => Resolved(ToQuote(p))
    case RateLimited => TryNext
    case Failed => Stop
  }

  /** The provider strategy: a direct fetch for a known ticker, otherwise a
      search whose missing exact hit defers to the next strategy. */
  function ProviderStrategy(symbol: string, search: string -> Outcome<seq<SearchHit>>,
                            detail: string -> Outcome<ProviderCoin>): Verdict
  {
    var upper := Upper(symbol);
    if upper in SymbolToId then Attempt(detail(SymbolToId[upper]))
    else match search(symbol)
      case RateLimited => TryNext
      case Failed => Stop
      case Ok(hits) =>
        match FirstHit(hits, upper)
        case None => TryNext
        case Some(i) => Attempt(detail(hits[i].id))
  }

  /** The fallback-table strategy, last in the chain. */
  function FallbackStrategy(symbol: string): Verdict {
    match MockCoin(symbol)
    case Some(q) => Resolved(q)
    case None => Stop
  }

  /** `getCoinBySymbol` is the two-strategy chain: ask the provider, and fall
      back to the static table whenever the provider defers. */
  lemma CoinBySymbolIsResolutionChain(symbol: string, search: string -> Outcome<seq<SearchHit>>,
                                      detail: string -> Outcome<ProviderCoin>)
    ensures CoinBySymbol(symbol, search, detail)
         == Resolve([ProviderStrategy(symbol, search, detail), FallbackStrategy(symbol)])
  {
    var upper := Upper(symbol);
    var fallback := FallbackStrategy(symbol);
    ResolveFallback(symbol);
    ResolvePair(ProviderStrategy(symbol, search, detail), fallback);
    if upper in SymbolToId {
      AttemptThenFallback(detail(SymbolToId[upper]), symbol);
    } else if search(symbol).Ok? {
      match FirstHit(search(symbol).data, upper)
      case None =>
      case Some(i) => AttemptThenFallback(detail(search(symbol).data[i].id), symbol);
    }
  }

  /** A two-strategy chain: the first verdict decides unless it defers. */
  lemma ResolvePair(first: Verdict, second: Verdict)
    ensures first.Resolved? ==> Resolve([first, second]) == Some(first.quote)
    ensures first.Stop? ==> Resolve([first, second]) == None
    ensures first.TryNext? ==> Resolve([first, second]) == Resolve([second])
  {
    assert [first, second][1..] == [second];
  }

  /** The fallback strategy alone finds exactly the fallback quote. */
  lemma ResolveFallback(symbol: string)
    ensures Resolve([FallbackStrategy(symbol)]) == MockCoin(symbol)
  {
    assert [FallbackStrategy(symbol)][1..] == [];
  }

  /** A provider call followed by the fallback strategy is `FetchQuote`. */
  lemma AttemptThenFallback(o: Outcome<ProviderCoin>, symbol: string)
    ensures Resolve([Attempt(o), FallbackStrategy(symbol)]) == FetchQuote(o, symbol)
  {
    ResolveFallback(symbol);
    ResolvePair(Attempt(o), FallbackStrategy(symbol));
  }
}
