# Crypto watchlist API — a Dafny model of its core

The system is a small HTTP API. It proxies a public cryptocurrency price
service (CoinGecko) and keeps a user-curated watchlist of coins in memory.
This project models three parts of it in Dafny and proves properties of them:

- **The watchlist store** (`src/data/watchlist.js`). The store is an
  insertion-ordered sequence of `Coin` records keyed by a ticker symbol that
  is compared without regard to case. The module-level mutable array becomes
  an explicit `Store` value (`seq<Coin>`). Every operation is a pure
  function. `Add`, `Update` and `Remove` return the record (or none) and the
  next store. `List` returns the snapshot, `Find` returns the record (or
  none), and `Clear` returns the empty store. The key invariant `Valid` says that
  every stored symbol is upper-case and that no two are equal.
- **The market-data gateway** (`src/services/coingecko.js`). This covers the
  fallback quote table `MockCoins`, the ticker-to-identifier table
  `SymbolToId`, the `getMockCoin` lookup, and the decision trees of
  `getPopularCoins` and `getCoinBySymbol`. Each provider call is an input
  `Outcome`: `Ok(data)`, `RateLimited` (an HTTP 429 response) or `Failed`
  (any other thrown error). The search and coin-detail calls are functions
  from the query or coin id to an outcome, so the model shows which query and
  which id the code uses.
- **The `/crypto` router** (`src/routes/crypto.js`). This models which inputs
  give 400, 404, 409, 500 or success, in what order the checks run, and
  which store or gateway operation each handler calls. A trace of steps
  (`Apply`, `Run`) shows that every store reachable from the empty one keeps
  the invariant. A step is an HTTP request or a direct `clearWatchlist` call,
  which is a test hook and not a route.

Modules: `Wrappers` (Option, Result), `Js` (JavaScript's ASCII
`toUpperCase`, truthiness, `||`, `slice(0, end)`), `Watchlist`, `CoinGecko`
and `CryptoRoutes`.

Inputs that stand for the environment:
- `now` and `id` stand for `new Date().toISOString()` and `Date.now().toString()`.
- `testEnv` stands for `process.env.NODE_ENV === 'test'`.
- The `parsed` limit stands for the result of `parseInt`; `None` means `NaN`.

## Model

| member | source | states |
|---|---|---|
| `Js.Upper` | src/data/watchlist.js:16 | `toUpperCase` keeps the length and upper-cases each character on its own (ASCII letters only) |
| `Js.UpperIdempotent` | src/data/watchlist.js:10 | upper-casing a stored (already upper-case) symbol again changes nothing |
| `Js.EqualsIgnoreCase` | src/data/watchlist.js:26 | `a.toUpperCase() === b.toUpperCase()`: equal strings compare equal, and strings that compare equal have the same length |
| `Js.Truthy` | src/routes/crypto.js:60-66 | a body field is truthy unless it is `undefined` or `''`, which is what `!symbol`, `!name` and `if (name)` test |
| `Js.OrElse` | src/data/watchlist.js:18 | `notes || ''` is the notes when they are truthy and `''` otherwise |
| `Js.SliceTo` | src/services/coingecko.js:67 | `slice(0, end)` is a prefix whose length is `end` clamped to `[0, len]`; a negative end counts back from the length |
| `Watchlist.FindIndex` | src/data/watchlist.js:26 | the index is the first record whose symbol matches case-insensitively; none exactly when no record matches |
| `Watchlist.List` | src/data/watchlist.js:5-7 | `getWatchlist` returns a copy: the same length and the same record at every position |
| `Watchlist.Merge` | src/data/watchlist.js:30-35 | the merged record keeps `id`, `symbol` and `addedAt`, takes each supplied `name`/`notes` and keeps the old value of an absent one, and sets `updatedAt` |
| `Watchlist.Find` | src/data/watchlist.js:48-50 | returns a stored, case-insensitively matching record, the first one; absent exactly when nothing matches |
| `Watchlist.Add` | src/data/watchlist.js:9-23 | refused (no record, store unchanged) exactly when some stored symbol matches case-insensitively; otherwise appends one record at the end, earlier entries untouched, with the upper-cased symbol, the given name, the notes or `''` when falsy, and no `updatedAt` |
| `Watchlist.Update` | src/data/watchlist.js:25-37 | not found (store unchanged) exactly when nothing matches; otherwise the same length and position, `id`, `symbol` and `addedAt` kept, supplied `name`/`notes` written, `updatedAt` set, every other entry untouched |
| `Watchlist.Remove` | src/data/watchlist.js:39-46 | not found (store unchanged) exactly when nothing matches; otherwise returns the first matching record and deletes that index, keeping the order of the rest |
| `Watchlist.Clear` | src/data/watchlist.js:52-54 | after clearing, no symbol is found |
| `Watchlist.ValidUniqueIgnoringCase` | src/data/watchlist.js:10-13 | in a valid store no two records match each other case-insensitively |
| `Watchlist.ValidMatchUnique` | src/data/watchlist.js:26 | in a valid store at most one record matches any symbol |
| `Watchlist.InitialValid` | src/data/watchlist.js:3 | the empty starting store satisfies the invariant |
| `Watchlist.AddPreservesValid` | src/data/watchlist.js:9-23 | add keeps every symbol upper-case and pairwise distinct |
| `Watchlist.UpdatePreservesValid` | src/data/watchlist.js:30-35 | update keeps the invariant (the symbol is written back unchanged) |
| `Watchlist.RemovePreservesValid` | src/data/watchlist.js:39-46 | remove keeps the invariant |
| `Watchlist.ClearPreservesValid` | src/data/watchlist.js:52-54 | clear yields a valid store |
| `Watchlist.FindInValid` | src/data/watchlist.js:48-50 | in a valid store, find returns the one matching record |
| `Watchlist.AddThenFind` | src/data/watchlist.js:14-22 | after a successful add of S, find with any case variant of S returns the new record, whose symbol is uppercase(S) |
| `Watchlist.AddTwiceRejected` | src/data/watchlist.js:10-13 | after adding S, adding any case variant of S is refused and leaves the store as it is |
| `Watchlist.FindIndexAppend` | src/data/watchlist.js:21 | appending a record that does not match a symbol leaves that symbol's first match where it was |
| `Watchlist.AddKeepsOthers` | src/data/watchlist.js:21 | adding S does not change what find returns for any symbol that is not a case variant of S |
| `Watchlist.RemoveThenFind` | src/data/watchlist.js:39-46 | after removing S from a valid store, find with any case variant of S returns absent |
| `Watchlist.RemoveKeepsOthers` | src/data/watchlist.js:44 | removing S does not change what find returns for other symbols |
| `Watchlist.UpdateThenFind` | src/data/watchlist.js:25-37 | after an update, case variants of S find the updated record and other symbols find what they found before |
| `Watchlist.ClearThenList` | src/data/watchlist.js:52-54 | `getWatchlist` after `clearWatchlist` is the empty sequence |
| `Watchlist.ListKeepsInsertionOrder` | src/data/watchlist.js:5-7 | the snapshot after two successful adds is the old store followed by the two records, in insertion order |
| `CoinGecko.MockCoinsWellFormed` | src/services/coingecko.js:6-17 | the fallback table has ten entries whose symbols are upper-case, pairwise distinct and all keys of the identifier table, and whose symbols and names are non-empty |
| `CoinGecko.SymbolToIdTruthy` | src/services/coingecko.js:20-36 | every identifier is non-empty, so `!coinId` means exactly "not a key" |
| `CoinGecko.UpperMissesPrototype` | src/services/coingecko.js:80 | no upper-cased string is a property inherited from `Object.prototype`, so the object lookup sees only the table's own keys |
| `CoinGecko.RoundCents` | src/services/coingecko.js:60 | rounding a magnitude to cents gives a whole number of cents within half a cent of it; a tie goes up, since the result is more than half a cent below and at most half a cent above |
| `CoinGecko.RoundChange` | src/services/coingecko.js:60 | a missing change is 0; otherwise the result is whole cents, within 0.005 of the provider's value, with the same sign; a tie is rounded away from zero (the bound is strict on the side towards zero) |
| `CoinGecko.ToQuote` | src/services/coingecko.js:56-61 | a quote has the provider's symbol upper-cased, its name and price, and the rounded change |
| `CoinGecko.ToQuotes` | src/services/coingecko.js:56-61 | one quote per provider entry, in the same order |
| `CoinGecko.FindQuote` | src/services/coingecko.js:83 | like `find`, returns the first table entry whose symbol is exactly the key; none exactly when no entry has it |
| `CoinGecko.MockCoin` | src/services/coingecko.js:83 | `getMockCoin` returns a fallback entry whose symbol equals the upper-cased input, or null exactly when there is none |
| `CoinGecko.MockCoinFindsEntry` | src/services/coingecko.js:83 | every fallback entry is found by any case variant of its own symbol |
| `CoinGecko.MockCoinBitcoin` | src/services/coingecko.js:7 | `btc` gives `{BTC, Bitcoin, 45000, 2.5}` |
| `CoinGecko.PopularCoins` | src/services/coingecko.js:43-71 | success maps every provider entry in order; a 429, or any failure in the test environment, gives a prefix of the fallback table of `slice` length; any other failure gives the error "Failed to fetch cryptocurrency data" |
| `CoinGecko.PopularFallbackLength` | src/services/coingecko.js:65-68 | on the fallback path a limit ≥ 0 gives min(limit, 10) quotes, at most limit; a negative limit gives 10 + limit, floored at 0 |
| `CoinGecko.PopularSymbolsUpper` | src/services/coingecko.js:56-68 | every quote of a successful list has an upper-case symbol |
| `CoinGecko.FirstHit` | src/services/coingecko.js:92-94 | the search hit chosen is the first whose upper-cased symbol equals the upper-cased input; none exactly when no hit matches |
| `CoinGecko.FetchQuote` | src/services/coingecko.js:129-154 | a coin-detail fetch gives the mapped quote, `getMockCoin()` on a 429, and null on any other failure |
| `CoinGecko.CoinBySymbol` | src/services/coingecko.js:78-155 | a known symbol fetches its identifier directly; an unknown one searches with the original query, takes the first exact hit or else `getMockCoin()`; a 429 at either step gives `getMockCoin()`, any other failure null |
| `CoinGecko.CoinBySymbolProvenance` | src/services/coingecko.js:78-155 | a found quote is the fallback quote or the mapping of a record the provider returned |
| `CoinGecko.CoinBySymbolRateLimited` | src/services/coingecko.js:118-154 | when every provider call is rate limited, the result is exactly `getMockCoin()` |
| `CoinGecko.CoinBySymbolBitcoinRateLimited` | src/services/coingecko.js:146-154 | `BTC` with a rate-limited detail fetch returns `{BTC, Bitcoin, 45000, 2.5}` |
| `CoinGecko.CoinBySymbolFailed` | src/services/coingecko.js:118-154 | when every call fails for another reason, the result is null |
| `CoinGecko.KnownSymbolIgnoresSearch` | src/services/coingecko.js:85 | a known ticker never depends on the search endpoint |
| `CoinGecko.CoinBySymbolIgnoresCase` | src/services/coingecko.js:79-80 | case variants get the same answer when the search endpoint answers their queries alike |
| `CoinGecko.Resolve` | src/services/coingecko.js:78-155 | the first strategy that does not defer decides: its quote if it resolved, not found if it stopped; not found when every strategy defers; a result is always a quote some strategy resolved |
| `CoinGecko.CoinBySymbolIsResolutionChain` | src/services/coingecko.js:78-155 | the lookup equals the two-step chain: provider strategy, then the fallback table whenever the provider defers (429 or no exact hit) |
| `CryptoRoutes.EffectiveLimit` | src/routes/crypto.js:12 | the limit is the parsed integer, or 10 when the parse is NaN or 0 |
| `CryptoRoutes.ListPopular` | src/routes/crypto.js:10-18 | 200 with the gateway's list exactly when it succeeds, otherwise 500 with its message |
| `CryptoRoutes.ListPopularFallbackLimit` | src/routes/crypto.js:12-13 | without the provider, `limit=5` gives five quotes and no limit gives the whole table |
| `CryptoRoutes.ShowWatchlist` | src/routes/crypto.js:24-27 | 200 with the current store |
| `CryptoRoutes.ShowCoin` | src/routes/crypto.js:33-51 | 400 exactly when the symbol is shorter than 2; otherwise 404 exactly when the lookup is null, and 200 with the quote otherwise |
| `CryptoRoutes.ShortSymbolSkipsLookup` | src/routes/crypto.js:37-39 | a too-short symbol gets the same reply whatever the provider does, so no lookup takes place |
| `CryptoRoutes.ShowCoinNever500` | src/routes/crypto.js:48-50 | the 500 branch is unreachable, since the lookup never signals an error |
| `CryptoRoutes.AddCoin` | src/routes/crypto.js:57-78 | a falsy symbol gives 400 "Symbol is required" and is checked before the name; a falsy name gives 400; neither touches the store; then 409 exactly on a case-insensitive duplicate (store unchanged); otherwise 201 with the appended record, which has the upper-cased symbol, the name, the notes or `''`, the given id and time stamp, and no `updatedAt` |
| `CryptoRoutes.UpdatesFrom` | src/routes/crypto.js:92-94 | the update holds `name` only when it is truthy and `notes` whenever it is defined, `''` included |
| `CryptoRoutes.UpdateCoin` | src/routes/crypto.js:84-106 | 400 exactly when the name is falsy and notes are undefined (store untouched); 404 exactly when nothing matches (store untouched); otherwise 200 with the merged record at the matched position, which keeps `id`, `symbol` and `addedAt`, takes a truthy name and any defined notes, sets `updatedAt`, while every other entry is untouched |
| `CryptoRoutes.RemoveCoin` | src/routes/crypto.js:112-125 | 404 exactly when nothing matches (store untouched); otherwise 200 with the first matching record, and the new store is the old one with that index deleted |
| `CryptoRoutes.ServePreservesValid` | src/routes/crypto.js:57-125 | every watchlist HTTP request keeps the store invariant |
| `CryptoRoutes.RunPreservesValid` | src/data/watchlist.js:9-54 | any sequence of requests and `clearWatchlist` calls keeps the store invariant |
| `CryptoRoutes.ReachableValid` | src/data/watchlist.js:3 | every store reachable from the empty one has upper-case, pairwise distinct symbols |
| `CryptoRoutes.PostTwiceConflicts` | tests/crypto.test.js:133-153 | posting `btc` stores `BTC`; posting `BTC` again gives 409 and changes nothing |
| `CryptoRoutes.PutMissingIsNotFound` | tests/crypto.test.js:219-225 | updating an absent symbol gives 404 and leaves the store unchanged |

## Code and comment disagree

- At src/services/coingecko.js:82 a comment says mock data is checked first in the test environment or when rate limited. The code consults the mock table only after a 429 (or after a search with no exact hit) and never reads `NODE_ENV` in `getCoinBySymbol`. The model follows the code: `CoinGecko.CoinBySymbolFailed` shows that with every provider call failing the lookup is null, so `GET /crypto/BTC` answers 404 offline, although tests/crypto.test.js:59-67 expect 200.

## Left out

- HTTP and Express plumbing is not modelled. This covers route registration, CORS, JSON body parsing, response objects, the app-level 404 and error handlers, and `src/server.js`. Because of route order, `GET /crypto/watchlist` is never handled as `GET /crypto/:symbol`; the model keeps the two handlers separate.
- The axios calls, URLs and query parameters are not modelled. Each call is an `Outcome` input. A malformed provider payload makes the source throw inside its `try`, so the model counts it as `Failed`.
- Floating point is left out. Prices and changes are exact reals. `RoundChange` models `toFixed(2)` exactly on the real value, not on its binary double. `NaN` and values of 1e21 or more, where `toFixed` switches to exponent notation, are not modelled.
- `CoinGecko.PopularCoins`: on success the list is whatever the provider returned. The length bound `≤ limit` holds only on the fallback path, because the code passes `per_page` and does not truncate.
- Unicode is limited to ASCII. `toUpperCase` is modelled on ASCII letters only (for example `'ß'` becoming `"SS"` is not modelled). `symbol.length` counts characters, not UTF-16 code units.
- `parseInt` string semantics are not modelled. The handler receives its result as `Option<int>`.
- Body fields are optional strings. The model does not cover non-string JSON values such as `null`, numbers or objects. In the source, some of these make `toUpperCase` throw, and `notes: null` would be stored as null.
- `Watchlist.Update`: the update object has only `name` and `notes`, the only fields the `PUT` handler builds. An arbitrary object passed straight to `updateInWatchlist` could overwrite `id` or `addedAt`; that case is not modelled.
- Record ids are taken as given and their uniqueness is not claimed. Two adds in the same millisecond get the same `Date.now()` id.
- A provider call that never settles is not an `Outcome`. In the source such a call leaves the request hanging; the model has no such case, so every lookup ends with a quote, a fallback or not found.
- Concurrency of the shared module-level list is not modelled; requests are served one after another. Console logging is omitted.
