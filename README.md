# Portfolio pipeline of crypto_backend, in Dafny

This project models the core of a small crypto-portfolio REST backend written
in Go. It covers three parts:

- **The in-memory store** (`MemoryPortfolioRepository`). It keeps two maps,
  one of holdings and one of portfolio snapshots. Each record sits under the
  24-character hex form of its 12-byte object identifier.
  - Create assigns an identifier when the record has none.
  - Create of a snapshot also stamps the time when the snapshot has none.
  - Delete is scoped to the owning user and silently does nothing otherwise.
  - List returns a user's records in unspecified order.
- **The portfolio service**. It validates holdings and snapshots before
  storing them. It also values a user's holdings: it indexes the current
  market quotes by coin id, keeps the holdings whose coin is quoted, attaches
  price and value (amount times price) to each, and sums the values.
- **The market-data read-through cache**. A single slot is either filled or
  empty. A miss performs one upstream fetch. Only a 200 response that decodes
  fills the slot, and the payload is converted field by field. A transport
  failure, a non-200 status (reported with at most 512 bytes of the body) or
  a decode failure is returned and leaves the slot empty.

Files:

- `models.dfy` (module `Models`): object identifiers and their hex form,
  `Holding`, `Snapshot`, the error kinds, and `Option`/`Result`.
- `memory_repository.dfy` (module `MemoryRepository`): the store as a class
  with two `map` fields. `OwnedBy` is the multiset of a user's records, and
  `Deleted` is the map left after a delete.
- `market_service.dfy` (module `Market`): the quote types, the conversion,
  the cache transition `Serve`, and the class `MarketService`, whose method
  is proved equal to `Serve`.
- `portfolio_service.dfy` (module `Portfolio`): the valuation as
  specification functions (`PriceIndex`, `Tracked`, `Enriched`,
  `TotalValue`, `Worth`), the imperative `Join` proved equal to them, and
  the class `PortfolioService`.

The inputs of the outside world become parameters:

- the fresh object identifier (`newId`, non-zero);
- the current time (`now`);
- the outcome of the one upstream request (`FetchOutcome`).

## Model

| member | source | states |
|---|---|---|
| Models.Hex | internal/repository/memory.go:49 | the storage key of an identifier has 24 characters |
| Models.HexInjective | internal/repository/memory.go:49-50 | two identifiers with the same hex key are equal, so a key names one record |
| Models.IsZero | internal/repository/memory.go:45 | an identifier is unset exactly when all twelve bytes are 0; a generated identifier is never unset |
| MemoryRepository.MemoryPortfolioRepository.constructor | internal/repository/memory.go:20-25 | a new store has empty holdings and snapshots maps |
| MemoryRepository.MemoryPortfolioRepository.ListHoldings | internal/repository/memory.go:27-38 | the result, as a multiset, is exactly the stored holdings whose user is the given one; nothing is modified |
| MemoryRepository.MemoryPortfolioRepository.CreateHolding | internal/repository/memory.go:40-52 | the id is the generated one iff the input id is zero, otherwise it is kept; the result is the input apart from the id; the map gains or replaces exactly the entry under the id's hex key; snapshots are untouched; every entry with a different id stays in place; the keying invariant is kept |
| MemoryRepository.MemoryPortfolioRepository.DeleteHolding | internal/repository/memory.go:54-69 | the holdings become `Deleted(old holdings, id, user)`; snapshots are untouched; there is no error outcome |
| MemoryRepository.Deleted | internal/repository/memory.go:58-67 | key id is gone iff it was present and owned by the user; an absent or foreign key leaves it as it was; every other key is unchanged |
| MemoryRepository.DeleteIdempotent | internal/repository/memory.go:54-69 | a second identical delete changes nothing |
| MemoryRepository.CreateThenDelete | internal/repository/memory.go:49-67 | the owner deleting a just-stored holding by its hex key leaves the other entries as they were |
| MemoryRepository.OwnedByMember | internal/repository/memory.go:32-35 | a record is listed for u iff some key maps to it and its user is u |
| MemoryRepository.CreatedIsListed | internal/repository/memory.go:32-50 | a just-stored holding is listed for its owner |
| MemoryRepository.ForeignNotListed | internal/repository/memory.go:33 | a holding of another user is never listed |
| MemoryRepository.OwnedBy | internal/repository/memory.go:31-36 | the multiset of a map's values owned by a user, one per key; characterised by `OwnedByMember` and built up key by key by `OwnedByAdd` |
| MemoryRepository.CreateKeepsOtherIds | internal/repository/memory.go:49-50 | in a store where every holding sits under its own id's hex key, storing a holding leaves every entry with a different id in place |
| MemoryRepository.CreateKeepsOtherSnapshotIds | internal/repository/memory.go:98-99 | the same for snapshots |
| MemoryRepository.MemoryPortfolioRepository.ListSnapshots | internal/repository/memory.go:71-82 | the result, as a multiset, is exactly the stored snapshots of the given user; nothing is modified |
| MemoryRepository.MemoryPortfolioRepository.CreateSnapshot | internal/repository/memory.go:84-101 | the id is filled only when zero and the timestamp only when 0, supplied values are kept, user and total are copied; the entry under the hex key is set and every entry with a different id stays in place; holdings are untouched |
| Market.ErrorExcerpt | internal/services/market/service.go:80-83 | the excerpt is a prefix of the body of at most 512 bytes, and the whole body when that is short enough |
| Market.ToCoinMarket | internal/services/market/service.go:94-103 | the converted quote copies every field of the upstream quote |
| Market.Transformed | internal/services/market/service.go:92-104 | the result has the payload's length and element i copies every field of raw element i |
| Market.CopiesUnique | internal/services/market/service.go:94-103 | a field-by-field copy is determined by the quote it copies |
| Market.Transform | internal/services/market/service.go:92-104 | the loop builds exactly `Transformed(raw)` |
| Market.Serve | internal/services/market/service.go:52-108 | a filled slot is returned unchanged as the result; a success leaves exactly the result in the slot; a failure is possible only on an empty slot and leaves it empty |
| Market.HitIgnoresFetch | internal/services/market/service.go:53-55 | on a hit the result is the cached value whatever the fetch would yield |
| Market.TransportFailureFails | internal/services/market/service.go:73-76 | a miss whose request gets no response returns the transport error and leaves the slot empty |
| Market.DecodeFailureFails | internal/services/market/service.go:86-89 | a miss answered by a 200 response that does not decode returns the decode error and leaves the slot empty |
| Market.StatusFailure | internal/services/market/service.go:79-84 | a non-200 status yields that status and a body excerpt of at most 512 bytes; the slot stays empty |
| Market.SuccessfulMiss | internal/services/market/service.go:86-107 | a decodable 200 response returns the converted payload and stores exactly it |
| Market.FailureRetries | internal/services/market/service.go:73-89 | after any failure the next call behaves as a first call |
| Market.FilledSlotServesAll | internal/services/market/service.go:53-55 | while the slot is filled, every call returns the cached value and none goes upstream |
| Market.OneFetchPerWindow | internal/services/market/service.go:53-107 | when the first call succeeds, it is the only upstream call and every later call returns its result |
| Market.MarketService.constructor | internal/services/market/service.go:20-26 | a new service starts with an empty slot |
| Market.MarketService.GetTopMarketData | internal/services/market/service.go:52-108 | the result and the new slot are those of `Serve(old slot, fetch)` |
| Market.MarketService.Expire | internal/services/market/service.go:24 | expiry of the time-to-live empties the slot |
| Portfolio.PriceIndexLastWins | internal/services/portfolio/service.go:62-65 | the index holds exactly the quoted coin ids, each mapped to a quote with that id, and to the last such quote |
| Portfolio.DuplicateQuoteLastWins | internal/services/portfolio/service.go:62-65 | with a coin quoted twice, the later price is used |
| Portfolio.PriceIndex | internal/services/portfolio/service.go:62-65 | each id of the index maps to a quote with that id; fully characterised by `PriceIndexLastWins` and `PriceIndexFromMarket` |
| Portfolio.PriceIndexFromMarket | internal/services/portfolio/service.go:62-65 | every quote in the index is one of the market quotes |
| Portfolio.TrackedMember | internal/services/portfolio/service.go:69-73 | a holding is kept iff it is held and its coin is in the index |
| Portfolio.Tracked | internal/services/portfolio/service.go:69-73 | the kept holdings are at most as many as the holdings and each has its coin in the index; membership is characterised by `TrackedMember` |
| Portfolio.EnrichedValuesTracked | internal/services/portfolio/service.go:67-81 | the entries carry exactly the kept holdings in order, unchanged, each with its coin's current price and amount times that price |
| Portfolio.Enriched | internal/services/portfolio/service.go:67-81 | one entry per kept holding; the entries themselves are characterised by `EnrichedValuesTracked` |
| Portfolio.TotalValue | internal/services/portfolio/service.go:68-80 | the sum of the entries' values, non-negative when every value is; related to the holdings by `TotalIsWorthOfTracked` |
| Portfolio.TotalIsWorthOfTracked | internal/services/portfolio/service.go:74-81 | the total is the worth of exactly the kept holdings at the index prices |
| Portfolio.NothingTracked | internal/services/portfolio/service.go:67-82 | no holdings, or none with a quoted coin, give no entries and a total of 0 |
| Portfolio.TotalNonNegative | internal/services/portfolio/service.go:74-81 | with positive amounts and non-negative prices the total is non-negative, the range snapshot validation accepts |
| Portfolio.BitcoinExample | internal/services/portfolio/service.go:74-80 | 2 bitcoin at 50000 give one entry of value 100000 and total 100000 |
| Portfolio.Join | internal/services/portfolio/service.go:62-82 | the two loops return `Enriched(holdings, PriceIndex(market))` and its `TotalValue` |
| Portfolio.ValidHolding | internal/services/portfolio/service.go:86 | a holding is accepted exactly when its user and coin are non-empty and its amount is positive; used by `PortfolioService.CreateHolding` |
| Portfolio.ValidSnapshot | internal/services/portfolio/service.go:101 | a snapshot is accepted exactly when its user is non-empty and its total is not negative; used by `PortfolioService.CreateSnapshot` |
| Portfolio.PortfolioService.constructor | internal/services/portfolio/service.go:22-30 | the service starts with a fresh empty store and a fresh empty cache |
| Portfolio.PortfolioService.ListHoldings | internal/services/portfolio/service.go:43-45 | the store's listing for the user, as a multiset |
| Portfolio.PortfolioService.GetHoldingsWithValue | internal/services/portfolio/service.go:53-83 | a market failure is returned with no entries and total 0; otherwise the entries and total are the join of the user's listed holdings with the served quotes; the cache moves as `Serve` says; when the served quotes have non-negative prices the total is non-negative, because every stored holding passed validation |
| Portfolio.PortfolioService.CreateHolding | internal/services/portfolio/service.go:85-90 | an empty user, an empty coin or a non-positive amount is rejected with the store unchanged; otherwise the holding is stored unchanged apart from the id and returned |
| Portfolio.PortfolioService.DeleteHolding | internal/services/portfolio/service.go:92-94 | the store's delete, scoped to the user |
| Portfolio.PortfolioService.ListSnapshots | internal/services/portfolio/service.go:96-98 | the store's listing of the user's snapshots, as a multiset |
| Portfolio.PortfolioService.CreateSnapshot | internal/services/portfolio/service.go:100-108 | an empty user or a negative total is rejected with the store unchanged (a total of 0 is accepted); otherwise the timestamp is set only when 0 and the snapshot is stored |

## Left out

- The `PortfolioRepository` interface (internal/repository/portfolio.go:14-20) is not modelled as an abstraction. The service holds the in-memory store directly, because that is the only implementation modelled here.
- The MongoDB repository and the database connection (internal/repository/portfolio.go:22-103, internal/db/mongo.go) are foreign driver calls.
- Portfolio.PortfolioService.GetHoldingsWithValue: the branch for a failed holdings listing (internal/services/portfolio/service.go:55-57) is not modelled. The in-memory store's listing never fails. Its `requires Valid()` is the service invariant that the constructor establishes and every operation keeps; it is not a demand on callers.
- Building the outbound request, the API-key header, the HTTP client and JSON decoding (internal/services/market/service.go:57-77, 86-89) are replaced by the `FetchOutcome` parameter. A failure to build the request is folded into `TransportFailure`.
- Market.ErrorExcerpt: the excerpt is taken to be the first min(512, body length) bytes. A single `Read` that returns fewer bytes is not modelled.
- The cache library's time-to-live clock and janitor (internal/services/market/service.go:24) are not modelled. Expiry is the external event `Expire`.
- The reader/writer lock, request contexts and concurrency are not modelled. Each operation runs as one atomic step.
- Amounts, prices and totals are mathematical reals. IEEE rounding is not modelled, and neither are NaN and infinities; a NaN amount would pass the `Amount <= 0` guard.
- Identifier generation and the clock are parameters: `newId` is assumed non-zero, and one `now` serves both the service's and the store's clock reads. Freshness of generated identifiers is not assumed, so a colliding identifier replaces the existing entry, as a map write does.
- The listing order is not modelled, because Go's map iteration order is unspecified. Listings are stated as multisets.
- HTTP handlers, server start-up and configuration loading (internal/handlers, cmd/server/main.go, internal/config/config.go) are I/O plumbing.
