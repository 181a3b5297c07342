/**
 * The pure parts of CryptoDataService: reading CoinGecko's simple/price and market_chart
 * replies, mapping client errors to the rate-limit text, the current-price and
 * sufficient-history decisions, and the API-key tier. The HTTP exchange is an input (`Reply`);
 * the configured key is a parameter.
 */
module CryptoDataService {
  import opened Wrappers
  import opened Text
  import opened Dtos

  /** A decoded JSON value, as far as the service looks into it. */
  datatype Json =
    | JList(items: seq<Json>)
    | JNum(value: real)
    | JMap(entries: map<string, Json>)
    | JOther

  /**
   * How the REST call ended: a body decoded as a map (None for a null body), a
   * RestClientException, or any other exception, each with its message.
   */
  datatype Reply =
    | Body(body: Option<map<string, Json>>)
    | ClientError(message: string)
    | OtherError(message: string)

  const RATE_LIMIT_MESSAGE: string :=
    "Rate limit exceeded. " + "Please upgrade your CoinGecko API plan or wait before making another request."
  const NO_PRICE_DATA_MESSAGE: string := "No price data received from API"
  const PRICES_ERROR_PREFIX: string := "Error fetching crypto prices: "
  const PRICES_UNEXPECTED_PREFIX: string := "Unexpected error fetching crypto prices: "

  function HistoryErrorPrefix(coinId: string): string {
    "Error fetching historical crypto prices for " + coinId + ": "
  }

  function HistoryUnexpectedPrefix(coinId: string): string {
    "Unexpected error fetching historical crypto prices for " + coinId + ": "
  }

  // ---------------------------------------------------------------------------
  // Rate-limit mapping
  // ---------------------------------------------------------------------------

  /** An exception message that signals CoinGecko's rate limit. */
  predicate IsRateLimited(message: string) {
    Contains(message, "429") || Contains(message, "rate limit")
  }

  /**
   * The message reported for a RestClientException: the rate-limit text when the exception
   * mentions the rate limit, and otherwise the service's prefix followed by the exception's
   * own message.
   */
  function ClientErrorMessage(prefix: string, message: string): (r: string)
    ensures IsRateLimited(message) ==> r == RATE_LIMIT_MESSAGE
    ensures !IsRateLimited(message) ==> StartsWith(r, prefix) && Contains(r, message)
    ensures !IsRateLimited(message) ==> r[..|prefix|] == prefix && r[|prefix|..] == message
  {
    if IsRateLimited(message) then RATE_LIMIT_MESSAGE
    else
      ContainsMiddle(prefix, message, "");
      assert prefix + message + "" == prefix + message;
      prefix + message
  }

  /**
   * With either service prefix, the reported message is the rate-limit text exactly when
   * the exception message mentions "429" or "rate limit"; otherwise it carries the message.
   */
  lemma RateLimitTextIffRateLimited(prefix: string, message: string)
    requires |prefix| > 0 && prefix[0] == 'E'
    ensures ClientErrorMessage(prefix, message) == RATE_LIMIT_MESSAGE <==> IsRateLimited(message)
    ensures !IsRateLimited(message) ==> Contains(ClientErrorMessage(prefix, message), message)
  {
    if !IsRateLimited(message) {
      assert RATE_LIMIT_MESSAGE[0] == 'R';
      assert (prefix + message)[0] == 'E';
    }
  }

  /** Both prefixes the service uses qualify for RateLimitTextIffRateLimited. */
  lemma ServicePrefixesStartWithE(coinId: string)
    ensures PRICES_ERROR_PREFIX[0] == 'E' && HistoryErrorPrefix(coinId)[0] == 'E'
  {
  }

  // ---------------------------------------------------------------------------
  // Historical prices (market_chart)
  // ---------------------------------------------------------------------------

  /** An entry [timestamp, price, ...]: a list of at least two items whose second is a number. */
  predicate IsPricePoint(item: Json) {
    item.JList? && |item.items| >= 2 && item.items[1].JNum?
  }

  function PriceOf(item: Json): real
    requires IsPricePoint(item)
  {
    item.items[1].value
  }

  /** The stream filter/map: the price of each well-formed entry, in order. */
  function ExtractPrices(items: seq<Json>): (r: seq<real>)
    ensures |r| <= |items|
    ensures forall x :: x in r ==> exists k :: 0 <= k < |items| && IsPricePoint(items[k]) && PriceOf(items[k]) == x
    ensures forall k :: 0 <= k < |items| && IsPricePoint(items[k]) ==> PriceOf(items[k]) in r
  {
    if items == [] then []
    else
      var rest := ExtractPrices(items[1..]);
      assert forall k :: 1 <= k < |items| ==> items[k] == items[1..][k - 1];
      if IsPricePoint(items[0]) then [PriceOf(items[0])] + rest else rest
  }

  /** Extraction works entry by entry: it distributes over concatenation. */
  lemma {:induction false} ExtractPricesAppend(a: seq<Json>, b: seq<Json>)
    ensures ExtractPrices(a + b) == ExtractPrices(a) + ExtractPrices(b)
    decreases |a|
  {
    if a == [] {
      assert a + b == b;
    } else {
      assert (a + b)[1..] == a[1..] + b;
      ExtractPricesAppend(a[1..], b);
    }
  }

  /** A list made only of well-formed entries loses nothing: one price per entry, in order. */
  lemma {:induction false} ExtractPricesAllValid(items: seq<Json>)
    requires forall k :: 0 <= k < |items| ==> IsPricePoint(items[k])
    ensures |ExtractPrices(items)| == |items|
    ensures forall k :: 0 <= k < |items| ==> ExtractPrices(items)[k] == PriceOf(items[k])
    decreases |items|
  {
    if items != [] {
      ExtractPricesAllValid(items[1..]);
    }
  }

  /** The "prices" list of a reply, when the body has one. */
  function PriceList(reply: Reply): Option<seq<Json>> {
    if reply.Body? && reply.body.Some? && "prices" in reply.body.value && reply.body.value["prices"].JList?
    then Some(reply.body.value["prices"].items)
    else None
  }

  /** fetchHistoricalPricesWithMetadata, with the HTTP reply as input. */
  function FetchHistoricalPricesWithMetadata(coinId: string, days: int, reply: Reply): (r: HistoricalPriceResponse)
    ensures r.coinId == coinId && r.requestedDays == days && r.actualDays == |r.prices|
    ensures r.success <==> PriceList(reply).Some?
    ensures r.success ==> r.prices == ExtractPrices(PriceList(reply).value) && r.errorMessage == None
    ensures !r.success ==> r.prices == [] && r.errorMessage.Some?
    ensures reply.Body? && !r.success ==> r.errorMessage == Some("No historical price data available for " + coinId)
    ensures reply.ClientError? ==> r.errorMessage == Some(ClientErrorMessage(HistoryErrorPrefix(coinId), reply.message))
    ensures reply.OtherError? ==> r.errorMessage == Some(HistoryUnexpectedPrefix(coinId) + reply.message)
  {
    match reply
    case Body(_) =>
      if PriceList(reply).Some? then
        var prices := ExtractPrices(PriceList(reply).value);
        HistoricalPriceResponse(true, coinId, prices, days, |prices|, None)
      else
        HistoricalPriceResponse(false, coinId, [], days, 0, Some("No historical price data available for " + coinId))
    case ClientError(message) =>
      HistoricalPriceResponse(false, coinId, [], days, 0, Some(ClientErrorMessage(HistoryErrorPrefix(coinId), message)))
    case OtherError(message) =>
      HistoricalPriceResponse(false, coinId, [], days, 0, Some(HistoryUnexpectedPrefix(coinId) + message))
  }

  /** fetchHistoricalPrices: only the price list; empty whenever the fetch failed. */
  function FetchHistoricalPrices(coinId: string, days: int, reply: Reply): (r: seq<real>)
    ensures PriceList(reply).None? ==> r == []
    ensures PriceList(reply).Some? ==> r == ExtractPrices(PriceList(reply).value)
  {
    FetchHistoricalPricesWithMetadata(coinId, days, reply).prices
  }

  /** hasSufficientData: the fetch succeeded and returned at least `requiredDays` prices. */
  function HasSufficientData(coinId: string, requiredDays: int, reply: Reply): (b: bool)
    ensures b <==> PriceList(reply).Some? && |ExtractPrices(PriceList(reply).value)| >= requiredDays
  {
    var response := FetchHistoricalPricesWithMetadata(coinId, requiredDays, reply);
    response.success && response.actualDays >= requiredDays
  }

  /** A price list of n well-formed entries is sufficient exactly for n days or fewer. */
  lemma SufficientIffEnoughPoints(coinId: string, requiredDays: int, reply: Reply)
    requires PriceList(reply).Some?
    requires forall k :: 0 <= k < |PriceList(reply).value| ==> IsPricePoint(PriceList(reply).value[k])
    ensures HasSufficientData(coinId, requiredDays, reply) <==> |PriceList(reply).value| >= requiredDays
  {
    ExtractPricesAllValid(PriceList(reply).value);
  }

  // ---------------------------------------------------------------------------
  // Current prices (simple/price)
  // ---------------------------------------------------------------------------

  /** A coin's entry {"usd": <number>, ...}. */
  predicate HasUsdQuote(v: Json) {
    v.JMap? && "usd" in v.entries && v.entries["usd"].JNum?
  }

  function UsdQuote(v: Json): real
    requires HasUsdQuote(v)
  {
    v.entries["usd"].value
  }

  /** The body fetchPrices reads, when it is present and not empty. */
  function PriceBody(reply: Reply): Option<map<string, Json>> {
    if reply.Body? && reply.body.Some? && |reply.body.value| > 0 then reply.body else None
  }

  /**
   * fetchPrices: walks the reply's entries and keeps, for each coin whose value has a
   * numeric "usd", that number. The coin ids only build the request URL, so they are left
   * out; storing each price (savePrice) is a side effect outside the model.
   */
  method FetchPrices(reply: Reply) returns (r: CryptoPriceResponse)
    ensures PriceBody(reply).Some? ==>
              var body := PriceBody(reply).value;
              && r.success && r.errorMessage == None
              && (forall id :: id in r.prices <==> id in body && HasUsdQuote(body[id]))
              && (forall id :: id in r.prices ==> r.prices[id] == UsdQuote(body[id]))
    ensures reply.Body? && PriceBody(reply).None? ==> r == CryptoPriceResponse(false, map[], Some(NO_PRICE_DATA_MESSAGE))
    ensures reply.ClientError? ==>
              r == CryptoPriceResponse(false, map[], Some(ClientErrorMessage(PRICES_ERROR_PREFIX, reply.message)))
    ensures reply.OtherError? ==>
              r == CryptoPriceResponse(false, map[], Some(PRICES_UNEXPECTED_PREFIX + reply.message))
  {
    match reply {
      case ClientError(message) =>
        return CryptoPriceResponse(false, map[], Some(ClientErrorMessage(PRICES_ERROR_PREFIX, message)));
      case OtherError(message) =>
        return CryptoPriceResponse(false, map[], Some(PRICES_UNEXPECTED_PREFIX + message));
      case Body(_) =>
    }
    if PriceBody(reply).None? {
      return CryptoPriceResponse(false, map[], Some(NO_PRICE_DATA_MESSAGE));
    }
    var body := PriceBody(reply).value;
    var prices: map<string, real> := map[];
    var remaining := body.Keys;
    while remaining != {}
      invariant remaining <= body.Keys
      invariant forall id :: id in prices <==> id in body && id !in remaining && HasUsdQuote(body[id])
      invariant forall id :: id in prices ==> prices[id] == UsdQuote(body[id])
      decreases remaining
    {
      var coinId :| coinId in remaining;
      var coinData := body[coinId];
      if HasUsdQuote(coinData) {
        prices := prices[coinId := UsdQuote(coinData)];
      }
      remaining := remaining - {coinId};
    }
    r := CryptoPriceResponse(true, prices, None);
  }

  /** getCurrentPrice: the coin's usd quote when the fetch succeeded and quoted it, else null. */
  method GetCurrentPrice(coinId: string, reply: Reply) returns (p: Option<real>)
    ensures p.Some? <==> PriceBody(reply).Some? && coinId in PriceBody(reply).value
                         && HasUsdQuote(PriceBody(reply).value[coinId])
    ensures p.Some? ==> p.value == UsdQuote(PriceBody(reply).value[coinId])
  {
    var response := FetchPrices(reply);
    if response.success && coinId in response.prices {
      p := Some(response.prices[coinId]);
    } else {
      p := None;
    }
  }

  // ---------------------------------------------------------------------------
  // API key tier
  // ---------------------------------------------------------------------------

  /**
   * isUsingApiKey: a key is configured and not empty, which is exactly when getApiKeyType
   * reports a paid tier rather than the free one.
   */
  predicate IsUsingApiKey(apiKey: Option<string>): (r: bool)
    ensures r <==> ApiKeyType(apiKey) != "None (Free tier)"
  {
    apiKey.Some? && apiKey.value != ""
  }

  /** getApiKeyType: no key, a demo key ("CG-" and longer than 20 characters), or a pro key. */
  function ApiKeyType(apiKey: Option<string>): (t: string)
    ensures t in {"None (Free tier)", "Demo", "Pro"}
    ensures t == "Demo" <==> apiKey.Some? && StartsWith(apiKey.value, "CG-") && |apiKey.value| > 20
  {
    if apiKey.None? || apiKey.value == "" then "None (Free tier)"
    else if StartsWith(apiKey.value, "CG-") && |apiKey.value| > 20 then "Demo"
    else "Pro"
  }

  /** Every key starting "CG-" and longer than 20 characters is a demo key; a short one is pro. */
  lemma DemoKeyShape(key: string)
    requires StartsWith(key, "CG-")
    ensures ApiKeyType(Some(key)) == (if |key| > 20 then "Demo" else "Pro")
  {
    assert key != "";
  }
}
