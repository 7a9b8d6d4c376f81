/** The portfolio service: payload validation in front of the repository, and
    the valuation join of a user's holdings against the current market quotes. */
module Portfolio {
  import opened Models
  import opened Market
  import opened MemoryRepository

  /** A holding with the price it was valued at and its value. */
  datatype HoldingWithValue = HoldingWithValue(holding: Holding, currentPrice: real, currentValue: real)

  /** The value of a holding at a price. */
  function ValueAt(h: Holding, price: real): real {
    h.amount * price
  }

  /** The service's only check on a holding before it is stored. */
  predicate ValidHolding(h: Holding) {
    h.userId != "" && h.coinId != "" && h.amount > 0.0
  }

  /** The service's only check on a snapshot before it is stored. */
  predicate ValidSnapshot(s: Snapshot) {
    s.userId != "" && s.totalValue >= 0.0
  }

  /** market[i] is the last quote in market with its coin id. */
  ghost predicate LastOfItsId(market: seq<CoinMarket>, i: int)
    requires 0 <= i < |market|
  {
    forall j | i < j < |market| :: market[j].id != market[i].id
  }

  /** Coin id to quote; when an id repeats, the later quote replaces the earlier. */
  function PriceIndex(market: seq<CoinMarket>): (index: map<string, CoinMarket>)
    ensures forall id | id in index :: index[id].id == id
  {
    if market == [] then map[]
    else
      var last := market[|market| - 1];
      PriceIndex(market[..|market| - 1])[last.id := last]
  }

  /** The index holds exactly the quoted ids, each mapped to the last quote
      carrying it. */
  lemma {:induction false} PriceIndexLastWins(market: seq<CoinMarket>)
    ensures var index := PriceIndex(market);
      && index.Keys == (set c | c in market :: c.id)
      && (forall id | id in index :: index[id].id == id)
      && (forall i | 0 <= i < |market| && LastOfItsId(market, i) ::
            market[i].id in index && index[market[i].id] == market[i])
  {
    if market != [] {
      var init, last := market[..|market| - 1], market[|market| - 1];
      PriceIndexLastWins(init);
      assert market == init + [last];
      assert (set c | c in market :: c.id) == (set c | c in init :: c.id) + {last.id};
      forall i | 0 <= i < |market| - 1 && LastOfItsId(market, i)
        ensures market[i].id != last.id && LastOfItsId(init, i)
      {
      }
    }
  }

  /** Every quote in the index is one of the quotes it was built from. */
  lemma {:induction false} PriceIndexFromMarket(market: seq<CoinMarket>)
    ensures forall id | id in PriceIndex(market) :: PriceIndex(market)[id] in market
  {
    if market != [] {
      var init := market[..|market| - 1];
      PriceIndexFromMarket(init);
      assert market == init + [market[|market| - 1]];
    }
  }

  /** The holdings whose coin is tracked, in their original order. */
  function Tracked(holdings: seq<Holding>, index: map<string, CoinMarket>): (r: seq<Holding>)
    ensures |r| <= |holdings|
    ensures forall i | 0 <= i < |r| :: r[i].coinId in index
  {
    if holdings == [] then []
    else
      var h := holdings[|holdings| - 1];
      Tracked(holdings[..|holdings| - 1], index) + (if h.coinId in index then [h] else [])
  }

  /** A holding appears among the tracked ones exactly when it is held and its coin is priced. */
  lemma {:induction false} TrackedMember(holdings: seq<Holding>, index: map<string, CoinMarket>, h: Holding)
    ensures h in Tracked(holdings, index) <==> h in holdings && h.coinId in index
  {
    if holdings != [] {
      var init := holdings[..|holdings| - 1];
      TrackedMember(init, index, h);
      assert holdings == init + [holdings[|holdings| - 1]];
    }
  }

  function HoldingsOf(enriched: seq<HoldingWithValue>): seq<Holding> {
    if enriched == [] then []
    else HoldingsOf(enriched[..|enriched| - 1]) + [enriched[|enriched| - 1].holding]
  }

  /** The enriched list, built as the service's loop builds it. */
  function Enriched(holdings: seq<Holding>, index: map<string, CoinMarket>): (r: seq<HoldingWithValue>)
    ensures |r| == |Tracked(holdings, index)|
  {
    if holdings == [] then []
    else
      var h := holdings[|holdings| - 1];
      var init := Enriched(holdings[..|holdings| - 1], index);
      if h.coinId in index then
        var price := index[h.coinId].currentPrice;
        init + [HoldingWithValue(h, price, ValueAt(h, price))]
      else init
  }

  /** Appending one holding appends at most its own entry. */
  lemma EnrichedAppend(holdings: seq<Holding>, h: Holding, index: map<string, CoinMarket>)
    ensures Enriched(holdings + [h], index) ==
      Enriched(holdings, index) +
      if h.coinId in index
      then [HoldingWithValue(h, index[h.coinId].currentPrice, ValueAt(h, index[h.coinId].currentPrice))]
      else []
  {
    var s := holdings + [h];
    assert s[..|s| - 1] == holdings && s[|s| - 1] == h;
  }

  /** The enriched list has one entry per tracked holding, in order, carrying the
      holding unchanged, its coin's current price and amount times that price. */
  lemma {:induction false} EnrichedValuesTracked(holdings: seq<Holding>, index: map<string, CoinMarket>)
    ensures var r := Enriched(holdings, index);
      && HoldingsOf(r) == Tracked(holdings, index)
      && forall i | 0 <= i < |r| ::
           && r[i].holding.coinId in index
           && r[i].currentPrice == index[r[i].holding.coinId].currentPrice
           && r[i].currentValue == r[i].holding.amount * r[i].currentPrice
  {
    if holdings != [] {
      var h := holdings[|holdings| - 1];
      var init := Enriched(holdings[..|holdings| - 1], index);
      EnrichedValuesTracked(holdings[..|holdings| - 1], index);
      if h.coinId in index {
        var price := index[h.coinId].currentPrice;
        var r := init + [HoldingWithValue(h, price, ValueAt(h, price))];
        assert r[..|r| - 1] == init;
      }
    }
  }

  /** The sum of the values of the entries. */
  function TotalValue(enriched: seq<HoldingWithValue>): (total: real)
    ensures (forall i | 0 <= i < |enriched| :: enriched[i].currentValue >= 0.0) ==> total >= 0.0
  {
    if enriched == [] then 0.0
    else TotalValue(enriched[..|enriched| - 1]) + enriched[|enriched| - 1].currentValue
  }

  /** The worth of holdings at the index's prices, computed from the holdings alone. */
  function Worth(holdings: seq<Holding>, index: map<string, CoinMarket>): real
    requires forall h | h in holdings :: h.coinId in index
  {
    if holdings == [] then 0.0
    else
      var h := holdings[|holdings| - 1];
      Worth(holdings[..|holdings| - 1], index) + ValueAt(h, index[h.coinId].currentPrice)
  }

  /** The total of the join is the worth of exactly the tracked holdings. */
  lemma {:induction false} TotalIsWorthOfTracked(holdings: seq<Holding>, index: map<string, CoinMarket>)
    ensures forall h | h in Tracked(holdings, index) :: h.coinId in index
    ensures TotalValue(Enriched(holdings, index)) == Worth(Tracked(holdings, index), index)
  {
    forall h | h in Tracked(holdings, index)
      ensures h.coinId in index
    {
      TrackedMember(holdings, index, h);
    }
    if holdings != [] {
      var init := holdings[..|holdings| - 1];
      var h := holdings[|holdings| - 1];
      TotalIsWorthOfTracked(init, index);
      if h.coinId in index {
        var price := index[h.coinId].currentPrice;
        var t := Tracked(init, index) + [h];
        assert t[..|t| - 1] == Tracked(init, index) && t[|t| - 1] == h;
        assert Worth(t, index) == Worth(Tracked(init, index), index) + ValueAt(h, price);
        var e := Enriched(init, index);
        var r := e + [HoldingWithValue(h, price, ValueAt(h, price))];
        assert r[..|r| - 1] == e;
        assert TotalValue(r) == TotalValue(e) + ValueAt(h, price);
        assert Tracked(holdings, index) == t && Enriched(holdings, index) == r;
      } else {
        assert Tracked(init, index) + [] == Tracked(init, index);
        assert Tracked(holdings, index) == Tracked(init, index);
        assert Enriched(holdings, index) == Enriched(init, index);
      }
    }
  }

  /** Holdings none of whose coins is priced yield no entries and a total of 0. */
  lemma {:induction false} NothingTracked(holdings: seq<Holding>, index: map<string, CoinMarket>)
    requires forall h | h in holdings :: h.coinId !in index
    ensures Enriched(holdings, index) == []
    ensures TotalValue(Enriched(holdings, index)) == 0.0
  {
    if holdings != [] {
      NothingTracked(holdings[..|holdings| - 1], index);
    }
  }

  /** With positive amounts and non-negative prices the total is a valid
      snapshot value. */
  lemma {:induction false} TotalNonNegative(holdings: seq<Holding>, index: map<string, CoinMarket>)
    requires forall h | h in holdings :: h.amount > 0.0
    requires forall id | id in index :: index[id].currentPrice >= 0.0
    ensures TotalValue(Enriched(holdings, index)) >= 0.0
  {
    if holdings != [] {
      TotalNonNegative(holdings[..|holdings| - 1], index);
    }
  }

  /** Two bitcoin at 50000 are worth 100000. */
  lemma BitcoinExample(u: string, id: ObjectId, sparkline: seq<real>)
    ensures var h := Holding(id, u, "bitcoin", 2.0);
      var index := PriceIndex([CoinMarket("bitcoin", "btc", "Bitcoin", 50000.0, 0.0, sparkline)]);
      Enriched([h], index) == [HoldingWithValue(h, 50000.0, 100000.0)] &&
      TotalValue(Enriched([h], index)) == 100000.0
  {
    var h := Holding(id, u, "bitcoin", 2.0);
    var coin := CoinMarket("bitcoin", "btc", "Bitcoin", 50000.0, 0.0, sparkline);
    assert [coin][..0] == [];
    assert [h][..0] == [];
    var e := [HoldingWithValue(h, 50000.0, 100000.0)];
    assert e[..0] == [];
  }

  /** When a coin is quoted twice, the later quote's price is used. */
  lemma DuplicateQuoteLastWins(h: Holding, first: CoinMarket, second: CoinMarket)
    requires first.id == second.id == h.coinId
    ensures Enriched([h], PriceIndex([first, second]))[0].currentPrice == second.currentPrice
  {
    var market := [first, second];
    assert LastOfItsId(market, 1);
    assert [h][..0] == [];
  }

  /** Indexes the quotes, then walks the holdings, skipping untracked coins
      and accumulating the total. */
  method Join(holdings: seq<Holding>, marketData: seq<CoinMarket>)
    returns (enriched: seq<HoldingWithValue>, total: real)
    ensures enriched == Enriched(holdings, PriceIndex(marketData))
    ensures total == TotalValue(enriched)
  {
    var priceIndex: map<string, CoinMarket> := map[];
    for i := 0 to |marketData|
      invariant priceIndex == PriceIndex(marketData[..i])
    {
      var coin := marketData[i];
      priceIndex := priceIndex[coin.id := coin];
      assert marketData[..i + 1][..i] == marketData[..i];
    }
    assert marketData[..|marketData|] == marketData;

    enriched, total := [], 0.0;
    for i := 0 to |holdings|
      invariant enriched == Enriched(holdings[..i], priceIndex)
      invariant total == TotalValue(enriched)
    {
      var holding := holdings[i];
      assert holdings[..i + 1] == holdings[..i] + [holding];
      EnrichedAppend(holdings[..i], holding, priceIndex);
      if holding.coinId !in priceIndex {
        continue;
      }
      var coin := priceIndex[holding.coinId];
      var value := holding.amount * coin.currentPrice;
      assert value == ValueAt(holding, coin.currentPrice);
      var prev := enriched;
      enriched := enriched + [HoldingWithValue(holding, coin.currentPrice, value)];
      assert enriched[..|enriched| - 1] == prev;
      total := total + value;
    }
    assert holdings[..|holdings|] == holdings;
  }

  /** Every stored holding passed validation. */
  ghost predicate HoldingsValid(m: map<string, Holding>) {
    forall k | k in m :: ValidHolding(m[k])
  }

  /** Every stored snapshot passed validation. */
  ghost predicate SnapshotsValid(m: map<string, Snapshot>) {
    forall k | k in m :: ValidSnapshot(m[k])
  }

  class PortfolioService {
    const repo: MemoryPortfolioRepository
    const market: MarketService

    /** The store is well keyed and holds only records that passed validation. */
    ghost predicate Valid()
      reads this, repo
    {
      repo.Valid() && HoldingsValid(repo.holdings) && SnapshotsValid(repo.snapshots)
    }

    /** The development wiring: an empty in-memory store and an empty cache. */
    constructor ()
      ensures Valid()
      ensures fresh(repo) && fresh(market)
      ensures repo.holdings == map[] && repo.snapshots == map[] && market.cache == None
    {
      repo := new MemoryPortfolioRepository();
      market := new MarketService();
    }

    method ListHoldings(userId: string) returns (result: seq<Holding>)
      ensures multiset(result) == OwnedBy(repo.holdings, HoldingUser, userId)
    {
      result := repo.ListHoldings(userId);
    }

    /** Lists the user's holdings, obtains the quotes (through the cache) and joins
        them; a market failure is returned with no entries and a total of 0. */
    method GetHoldingsWithValue(userId: string, fetch: FetchOutcome)
      returns (enriched: seq<HoldingWithValue>, total: real, err: Option<Error>, ghost listed: seq<Holding>)
      requires Valid()
      modifies market
      ensures multiset(listed) == OwnedBy(repo.holdings, HoldingUser, userId)
      ensures var s := Serve(old(market.cache), fetch);
        && market.cache == s.slot
        && (s.result.Err? ==> enriched == [] && total == 0.0 && err == Some(s.result.error))
        && (s.result.Ok? ==>
              && err == None
              && enriched == Enriched(listed, PriceIndex(s.result.value))
              && total == TotalValue(enriched))
      ensures var s := Serve(old(market.cache), fetch);
        s.result.Ok? && (forall c | c in s.result.value :: c.currentPrice >= 0.0) ==> total >= 0.0
    {
      var holdings := ListHoldings(userId);
      listed := holdings;
      var marketData := market.GetTopMarketData(fetch);
      if marketData.Err? {
        enriched, total, err := [], 0.0, Some(marketData.error);
        return;
      }
      enriched, total := Join(holdings, marketData.value);
      err := None;
      // Stored holdings passed validation, so each listed one has a positive amount.
      forall h | h in holdings
        ensures h.amount > 0.0
      {
        assert h in multiset(holdings);
        OwnedByMember(repo.holdings, HoldingUser, userId, h);
      }
      if forall c | c in marketData.value :: c.currentPrice >= 0.0 {
        PriceIndexFromMarket(marketData.value);
        TotalNonNegative(holdings, PriceIndex(marketData.value));
      }
    }

    /** Rejects a holding with an empty user, an empty coin or a non-positive
        amount without touching the store; otherwise stores it as given. */
    method CreateHolding(holding: Holding, newId: ObjectId) returns (r: Result<Holding>)
      requires Valid()
      requires !IsZero(newId)
      modifies repo
      ensures Valid()
      ensures repo.snapshots == old(repo.snapshots)
      ensures !ValidHolding(holding) ==> r.Err? && r.error.InvalidPayload? && repo.holdings == old(repo.holdings)
      ensures ValidHolding(holding) ==> r.Ok?
      ensures r.Ok? ==>
        && r.value == holding.(id := if IsZero(holding.id) then newId else holding.id)
        && repo.holdings == old(repo.holdings)[Hex(r.value.id) := r.value]
    {
      if holding.userId == "" || holding.coinId == "" || holding.amount <= 0.0 {
        return Err(InvalidPayload("invalid holding payload"));
      }
      var stored := repo.CreateHolding(holding, newId);
      return Ok(stored);
    }

    /** Deletes the holding under id when userId owns it; otherwise a no-op. */
    method DeleteHolding(id: string, userId: string)
      requires Valid()
      modifies repo
      ensures Valid()
      ensures repo.holdings == Deleted(old(repo.holdings), id, userId)
      ensures repo.snapshots == old(repo.snapshots)
    {
      repo.DeleteHolding(id, userId);
    }

    method ListSnapshots(userId: string) returns (result: seq<Snapshot>)
      ensures multiset(result) == OwnedBy(repo.snapshots, SnapshotUser, userId)
    {
      result := repo.ListSnapshots(userId);
    }

    /** Rejects a snapshot with an empty user or a negative total without touching
        the store; otherwise stamps it with now if it has no timestamp and stores it. */
    method CreateSnapshot(snapshot: Snapshot, newId: ObjectId, now: DateTime) returns (r: Result<Snapshot>)
      requires Valid()
      requires !IsZero(newId)
      modifies repo
      ensures Valid()
      ensures repo.holdings == old(repo.holdings)
      ensures !ValidSnapshot(snapshot) ==> r.Err? && r.error.InvalidPayload? && repo.snapshots == old(repo.snapshots)
      ensures ValidSnapshot(snapshot) ==> r.Ok?
      ensures r.Ok? ==>
        && r.value == snapshot.(id := if IsZero(snapshot.id) then newId else snapshot.id,
                                timestamp := if snapshot.timestamp == 0 then now else snapshot.timestamp)
        && repo.snapshots == old(repo.snapshots)[Hex(r.value.id) := r.value]
    {
      if snapshot.userId == "" || snapshot.totalValue < 0.0 {
        return Err(InvalidPayload("invalid snapshot payload"));
      }
      var stamped := snapshot;
      if stamped.timestamp == 0 {
        stamped := stamped.(timestamp := now);
      }
      var stored := repo.CreateSnapshot(stamped, newId, now);
      return Ok(stored);
    }
  }
}
