/**
 * Price lookup of the API server: `fetchPrice` with its deterministic mock
 * (no provider key configured) and its live branch, and the GET /api/price
 * handler around it.
 */
module PriceResolver {
  import opened Wrappers
  import Ascii

  /** Whether the server resolves prices live or with the mock, fixed at start-up. */
  datatype Mode = Mock | Live

  /** `process.env.FINNHUB_KEY || null`: an unset or empty key selects the mock. */
  function ModeOf(key: Option<string>): (m: Mode)
    ensures m == Live <==> key.Some? && key.value != ""
  {
    if key.None? || key.value == "" then Mock else Live
  }

  /**
   * `c.charCodeAt(0)` for an element `c` of `Array.from(s)`: a code point,
   * whose first UTF-16 code unit is the code point itself below 0x10000 and
   * the high surrogate above it.
   */
  function CharCode(c: char): (u: int)
    ensures 0 <= u < 0x10000
    ensures c as int < 0x10000 ==> u == c as int
    ensures c as int >= 0x10000 ==> 0xD800 <= u < 0xDC00
  {
    if c as int < 0x10000 then c as int else 0xD800 + (c as int - 0x10000) / 0x400
  }

  /** The sum of the code units, folded from the left as `reduce(..., 0)` does. */
  function CodeSum(s: string): (n: int)
    ensures 0 <= n <= 0xFFFF * |s|
    decreases |s|
  {
    if s == [] then 0 else CodeSum(s[..|s| - 1]) + CharCode(s[|s| - 1])
  }

  /** The code sum splits over concatenation, so it does not depend on the fold order. */
  lemma {:induction false} CodeSumAppend(s: string, t: string)
    ensures CodeSum(s + t) == CodeSum(s) + CodeSum(t)
    decreases |t|
  {
    if t == [] {
      assert s + t == s;
    } else {
      var t' := t[..|t| - 1];
      assert (s + t)[..|s + t| - 1] == s + t';
      CodeSumAppend(s, t');
    }
  }

  const MockFloor := 20
  const MockSpan := 200

  /** The mock's base price: the code sum of the upper-cased symbol, folded into [20, 220). */
  function MockBase(symbol: string): (base: int)
    ensures MockFloor <= base < MockFloor + MockSpan
  {
    CodeSum(Ascii.ToUpper(symbol)) % MockSpan + MockFloor
  }

  /** The base depends on the symbol only through its upper-cased form: "aapl" and "AAPL" agree. */
  lemma MockBaseCaseInsensitive(s: string, t: string)
    requires Ascii.ToUpper(s) == Ascii.ToUpper(t)
    ensures MockBase(s) == MockBase(t)
    ensures MockBase(s) == MockBase(Ascii.ToUpper(s))
  {
    Ascii.ToUpperIdempotent(s);
  }

  /** The outcome of the single request to the live quote provider. */
  datatype Quote = Quoted(current: Option<real>) | RequestFailed(detail: string)

  datatype PriceError = SymbolRequired | PriceNotAvailable | ProviderError(detail: string)

  datatype PriceResult = Price(value: real) | Failed(error: PriceError)

  /**
   * `fetchPrice(symbol)`. The mock adds a jitter drawn from [0, 5) to the
   * base; the live branch takes the provider's current price, failing when
   * the field is missing or when the request fails.
   */
  function FetchPrice(symbol: string, mode: Mode, jitter: real, quote: Quote): (r: PriceResult)
    requires 0.0 <= jitter < 5.0
    ensures symbol == "" <==> r == Failed(SymbolRequired)
    ensures symbol != "" && mode == Mock ==>
      && r == Price(MockBase(symbol) as real + jitter)
      && MockFloor as real <= r.value < (MockFloor + MockSpan) as real + 5.0
    ensures symbol != "" && mode == Live ==>
      match quote
      case Quoted(Some(c)) => r == Price(c)
      case Quoted(None) => r == Failed(PriceNotAvailable)
      case RequestFailed(d) => r == Failed(ProviderError(d))
  {
    if symbol == "" then Failed(SymbolRequired)
    else if mode == Mock then Price(MockBase(symbol) as real + jitter)
    else match quote
      case Quoted(Some(c)) => Price(c)
      case Quoted(None) => Failed(PriceNotAvailable)
      case RequestFailed(d) => Failed(ProviderError(d))
  }

  /**
   * Two mock lookups of one symbol share their base: each price less its
   * jitter is the same `MockBase(symbol)`, so the prices differ by less than
   * the jitter bound.
   */
  lemma MockDeterministicUpToJitter(symbol: string, j1: real, j2: real, q1: Quote, q2: Quote)
    requires symbol != ""
    requires 0.0 <= j1 < 5.0 && 0.0 <= j2 < 5.0
    ensures FetchPrice(symbol, Mock, j1, q1).Price? && FetchPrice(symbol, Mock, j2, q2).Price?
    ensures FetchPrice(symbol, Mock, j1, q1).value - j1 == MockBase(symbol) as real
    ensures FetchPrice(symbol, Mock, j2, q2).value - j2 == MockBase(symbol) as real
    ensures -5.0 < FetchPrice(symbol, Mock, j1, q1).value - FetchPrice(symbol, Mock, j2, q2).value < 5.0
  {
  }

  /** The GET /api/price answer: 200 with symbol, price and source; 400; or 502. */
  datatype PriceReply =
    | PriceOk(symbol: string, price: real, source: string)
    | PriceBadRequest(error: string)
    | PriceBadGateway(error: string, detail: string)

  function SourceName(mode: Mode): string {
    if mode == Live then "finnhub" else "mock"
  }

  /** `String(e)` for the errors `fetchPrice` throws. */
  function ErrorText(e: PriceError): string {
    match e
    case SymbolRequired => "Error: symbol required"
    case PriceNotAvailable => "Error: price not available"
    case ProviderError(d) => d
  }

  /**
   * GET /api/price?symbol=...: a missing or empty symbol is a 400 without
   * any lookup; otherwise the resolved price with the upper-cased symbol, or
   * a 502 when the lookup fails.
   */
  function PriceEndpoint(query: Option<string>, mode: Mode, jitter: real, quote: Quote): (r: PriceReply)
    requires 0.0 <= jitter < 5.0
    ensures query.None? || query.value == "" <==> r == PriceBadRequest("symbol required")
    ensures r.PriceOk? ==> r.symbol == Ascii.ToUpper(query.value) && r.source == SourceName(mode)
    ensures r.PriceBadGateway? ==> query.Some? && query.value != "" && mode == Live && r.error == "price_fetch_failed"
    ensures query.Some? && query.value != "" ==>
      (r.PriceOk? <==> FetchPrice(query.value, mode, jitter, quote).Price?)
    ensures r.PriceOk? ==> r.price == FetchPrice(query.value, mode, jitter, quote).value
    ensures r.PriceBadRequest? ==> query.None? || query.value == ""
    ensures query.Some? && query.value != "" && FetchPrice(query.value, mode, jitter, quote).Failed? ==>
      r == PriceBadGateway("price_fetch_failed", ErrorText(FetchPrice(query.value, mode, jitter, quote).error))
    ensures query.Some? && query.value != "" && mode == Mock ==>
      r.PriceOk? && r.price == MockBase(query.value) as real + jitter
  {
    var symbol := query.GetOr("");
    if symbol == "" then PriceBadRequest("symbol required")
    else match FetchPrice(symbol, mode, jitter, quote)
      case Price(p) => PriceOk(Ascii.ToUpper(symbol), p, SourceName(mode))
      case Failed(e) => PriceBadGateway("price_fetch_failed", ErrorText(e))
  }
}
