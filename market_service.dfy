/** The market-data read-through cache: one slot that is either filled with
    the last successfully fetched quotes or empty. A miss performs one upstream
    fetch; only a successful, decodable 200 response fills the slot. */
module Market {
  import opened Models

  /** A quote as the service hands it out (market.CoinMarket). */
  datatype CoinMarket = CoinMarket(
    id: string,
    symbol: string,
    name: string,
    currentPrice: real,
    priceChangePercentage24h: real,
    sparkline: seq<real>)

  /** A quote as the upstream price API encodes it (CoinGeckoMarketResponse). */
  datatype MarketResponse = MarketResponse(
    id: string,
    symbol: string,
    name: string,
    currentPrice: real,
    priceChangePercentage24h: real,
    sparkline: seq<real>)

  /** What decoding a 200 response body yields. */
  datatype Decoded = Malformed(reason: string) | Payload(items: seq<MarketResponse>)

  /** What the one outbound request yields: no response at all, or a status,
      the raw body and the result of decoding that body. */
  datatype FetchOutcome =
    | TransportFailure(reason: string)
    | Response(status: int, body: seq<byte>, decoded: Decoded)

  const StatusOK: int := 200

  /** Size of the buffer the error body is read into. */
  const ErrorBodyLimit: nat := 512

  /** The part of a failed response's body that the error carries. */
  function ErrorExcerpt(body: seq<byte>): (excerpt: seq<byte>)
    ensures |excerpt| <= ErrorBodyLimit
    ensures excerpt <= body
    ensures |body| <= ErrorBodyLimit ==> excerpt == body
  {
    if |body| <= ErrorBodyLimit then body else body[..ErrorBodyLimit]
  }

  /** m carries every field of the upstream quote c. */
  predicate Copies(m: CoinMarket, c: MarketResponse) {
    && m.id == c.id
    && m.symbol == c.symbol
    && m.name == c.name
    && m.currentPrice == c.currentPrice
    && m.priceChangePercentage24h == c.priceChangePercentage24h
    && m.sparkline == c.sparkline
  }

  function ToCoinMarket(c: MarketResponse): (m: CoinMarket)
    ensures Copies(m, c)
  {
    CoinMarket(c.id, c.symbol, c.name, c.currentPrice, c.priceChangePercentage24h, c.sparkline)
  }

  /** The upstream payload in the service's own shape, element for element. */
  function Transformed(raw: seq<MarketResponse>): (r: seq<CoinMarket>)
    ensures |r| == |raw|
    ensures forall i | 0 <= i < |raw| :: Copies(r[i], raw[i])
  {
    if raw == [] then []
    else Transformed(raw[..|raw| - 1]) + [ToCoinMarket(raw[|raw| - 1])]
  }

  /** A field-by-field copy determines the copied quote completely. */
  lemma CopiesUnique(m: CoinMarket, m': CoinMarket, c: MarketResponse)
    requires Copies(m, c) && Copies(m', c)
    ensures m == m'
  {
  }

  /** Builds the payload by appending one converted quote per upstream entry. */
  method Transform(raw: seq<MarketResponse>) returns (payload: seq<CoinMarket>)
    ensures payload == Transformed(raw)
  {
    payload := [];
    for i := 0 to |raw|
      invariant payload == Transformed(raw[..i])
    {
      var coin := raw[i];
      payload := payload + [CoinMarket(coin.id, coin.symbol, coin.name, coin.currentPrice,
                                       coin.priceChangePercentage24h, coin.sparkline)];
      assert raw[..i + 1][..i] == raw[..i];
    }
    assert raw[..|raw|] == raw;
  }

  /** What one call returns, and what the slot holds afterwards. */
  datatype Served = Served(result: Result<seq<CoinMarket>>, slot: Option<seq<CoinMarket>>)

  /** One call of GetTopMarketData as a state transition on the cache slot.
      The fetch outcome is consulted only when the slot is empty. */
  function Serve(slot: Option<seq<CoinMarket>>, fetch: FetchOutcome): (s: Served)
    ensures slot.Some? ==> s == Served(Ok(slot.value), slot)
    ensures s.slot.Some? ==> s.result == Ok(s.slot.value)
    ensures s.result.Ok? ==> s.slot == Some(s.result.value)
    ensures s.result.Err? ==> s.slot == slot == None
  {
    if slot.Some? then Served(Ok(slot.value), slot)
    else match fetch
      case TransportFailure(reason) => Served(Err(Transport(reason)), None)
      case Response(status, body, decoded) =>
        if status != StatusOK then Served(Err(UpstreamStatus(status, ErrorExcerpt(body))), None)
        else match decoded
          case Malformed(reason) => Served(Err(Decode(reason)), None)
          case Payload(items) =>
            var payload := Transformed(items);
            Served(Ok(payload), Some(payload))
  }

  /** A filled slot is returned as it is, whatever the upstream would have said. */
  lemma HitIgnoresFetch(cached: seq<CoinMarket>, fetch: FetchOutcome, other: FetchOutcome)
    ensures Serve(Some(cached), fetch) == Serve(Some(cached), other) == Served(Ok(cached), Some(cached))
  {
  }

  /** A miss whose request gets no response reports the transport error and
      leaves the slot empty. */
  lemma TransportFailureFails(reason: string)
    ensures Serve(None, TransportFailure(reason)) == Served(Err(Transport(reason)), None)
  {
  }

  /** A miss answered by a 200 response whose body does not decode reports the
      decode error and leaves the slot empty. */
  lemma DecodeFailureFails(body: seq<byte>, reason: string)
    ensures Serve(None, Response(StatusOK, body, Malformed(reason))) == Served(Err(Decode(reason)), None)
  {
  }

  /** A miss answered by a non-200 status reports that status and at most
      512 bytes from the start of the body, and leaves the slot empty. */
  lemma StatusFailure(status: int, body: seq<byte>, decoded: Decoded)
    requires status != StatusOK
    ensures var s := Serve(None, Response(status, body, decoded));
      s.slot == None && s.result.Err? && s.result.error.UpstreamStatus? &&
      s.result.error.status == status && |s.result.error.body| <= 512 && s.result.error.body <= body
  {
  }

  /** A miss answered by a decodable 200 response returns the converted payload,
      element for element, and leaves exactly that in the slot. */
  lemma SuccessfulMiss(body: seq<byte>, items: seq<MarketResponse>)
    ensures var s := Serve(None, Response(StatusOK, body, Payload(items)));
      s.result.Ok? && s.slot == Some(s.result.value) &&
      |s.result.value| == |items| &&
      forall i | 0 <= i < |items| :: Copies(s.result.value[i], items[i])
  {
  }

  /** After a failure the next call fetches again, exactly as a first call would. */
  lemma FailureRetries(fetch: FetchOutcome, next: FetchOutcome)
    requires Serve(None, fetch).result.Err?
    ensures Serve(Serve(None, fetch).slot, next) == Serve(None, next)
  {
  }

  /** The results of successive calls, with no expiry in between. */
  function Run(slot: Option<seq<CoinMarket>>, fetches: seq<FetchOutcome>): (results: seq<Result<seq<CoinMarket>>>)
    ensures |results| == |fetches|
    decreases |fetches|
  {
    if fetches == [] then []
    else
      var s := Serve(slot, fetches[0]);
      [s.result] + Run(s.slot, fetches[1..])
  }

  /** How many of those calls went upstream (found the slot empty). */
  function UpstreamCalls(slot: Option<seq<CoinMarket>>, fetches: seq<FetchOutcome>): nat
    decreases |fetches|
  {
    if fetches == [] then 0
    else (if slot.None? then 1 else 0) + UpstreamCalls(Serve(slot, fetches[0]).slot, fetches[1..])
  }

  /** While the slot stays filled, every call returns the cached quotes and none
      goes upstream. */
  lemma {:induction false} FilledSlotServesAll(cached: seq<CoinMarket>, fetches: seq<FetchOutcome>)
    ensures forall i | 0 <= i < |fetches| :: Run(Some(cached), fetches)[i] == Ok(cached)
    ensures UpstreamCalls(Some(cached), fetches) == 0
    decreases |fetches|
  {
    if fetches != [] {
      FilledSlotServesAll(cached, fetches[1..]);
    }
  }

  /** Within one time-to-live window, a first call that succeeds is the only
      upstream request: every later call returns what it returned. */
  lemma OneFetchPerWindow(fetches: seq<FetchOutcome>)
    requires fetches != [] && Serve(None, fetches[0]).result.Ok?
    ensures UpstreamCalls(None, fetches) == 1
    ensures forall i | 0 <= i < |fetches| :: Run(None, fetches)[i] == Run(None, fetches)[0]
  {
    var first := Serve(None, fetches[0]);
    FilledSlotServesAll(first.result.value, fetches[1..]);
  }

  class MarketService {
    var cache: Option<seq<CoinMarket>>

    constructor ()
      ensures cache == None
    {
      cache := None;
    }

    /** Returns the cached quotes, or performs the fetch whose outcome is given,
        converts and caches the payload on success, and reports failures
        without touching the slot. */
    method GetTopMarketData(fetch: FetchOutcome) returns (r: Result<seq<CoinMarket>>)
      modifies this
      ensures Served(r, cache) == Serve(old(cache), fetch)
    {
      if cache.Some? {
        return Ok(cache.value);
      }
      match fetch
      case TransportFailure(reason) =>
        return Err(Transport(reason));
      case Response(status, body, decoded) =>
        if status != StatusOK {
          return Err(UpstreamStatus(status, ErrorExcerpt(body)));
        }
        match decoded
        case Malformed(reason) =>
          return Err(Decode(reason));
        case Payload(items) =>
          var payload := Transform(items);
          cache := Some(payload);
          return Ok(payload);
    }

    /** The time-to-live running out: the slot is emptied. */
    method Expire()
      modifies this
      ensures cache == None
    {
      cache := None;
    }
  }
}
