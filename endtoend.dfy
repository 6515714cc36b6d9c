/**
 * The client talking to the server: how the server's replies reach the
 * client's cache, and the scenarios that run across both.
 */
module EndToEnd {
  import opened Wrappers
  import Ascii
  import R = HoldingRegistry
  import P = PriceResolver
  import C = Client

  /** A stored holding as the client receives it in JSON: every field present, no price yet. */
  function FromServer(h: R.Holding): (c: C.Holding)
    ensures c.id == h.id && c.symbol == h.symbol && c.currentPrice.None?
    ensures c.quantity == Some(h.quantity) && c.avgPrice == Some(h.avgPrice)
  {
    C.Holding(h.id, h.symbol, Some(h.quantity), Some(h.avgPrice), None)
  }

  /** The list response for a store: an ok status with its holdings as a JSON array. */
  function ListResponse(hs: seq<R.Holding>): (o: C.Outcome<C.ListPayload>)
    ensures o.Ok? && o.payload.HoldingArray? && |o.payload.items| == |hs|
    ensures forall i :: 0 <= i < |hs| ==> o.payload.items[i] == FromServer(hs[i])
  {
    C.Ok(C.HoldingArray(seq(|hs|, i requires 0 <= i < |hs| => FromServer(hs[i]))))
  }

  /** The client's create body as the server parses it; a null average price is absent. */
  function ServerBody(b: C.Body): (sb: R.CreateBody)
    ensures sb.symbol == Some(b.symbol) && sb.quantity == Some(b.quantity) && sb.avgPrice == b.avgPrice
  {
    R.CreateBody(Some(b.symbol), Some(b.quantity), b.avgPrice)
  }

  /** The create reply as the client sees it: 200 with the record, or a non-ok status. */
  function PostResponse(reply: R.CreateReply): (o: C.Outcome<Option<C.Holding>>)
    ensures o.Ok? <==> reply.Created?
    ensures reply.Created? ==> o.payload == Some(FromServer(reply.holding))
  {
    match reply
    case Created(h) => C.Ok(Some(FromServer(h)))
    case BadRequest(_) => C.BadStatus
  }

  /** The price reply as the client sees it: the price on 200, a non-ok status on 400 and 502. */
  function PriceResponse(reply: P.PriceReply): (o: C.PriceOutcome)
    ensures C.PriceFrom(o).Some? <==> reply.PriceOk?
    ensures reply.PriceOk? ==> C.PriceFrom(o) == Some(reply.price)
  {
    match reply
    case PriceOk(_, p, _) => C.Ok(Some(p))
    case PriceBadRequest(_) => C.BadStatus
    case PriceBadGateway(_, _) => C.BadStatus
  }

  /**
   * Submitting the add form: a form with a symbol and a non-zero quantity is
   * stored under the server's next id with its symbol upper-cased, and the
   * client appends exactly that record; any other form is refused by the
   * server and changes neither side.
   */
  lemma AddFormRoundTrip(st: R.Store, cache: seq<C.Holding>, f: C.Form, now: int)
    ensures var b := C.BuildBody(f);
            var (st', reply) := R.CreateStep(st, ServerBody(b));
            var cache' := C.AfterAdd(cache, b, PostResponse(reply), now);
            if f.symbol != "" && f.quantity.GetOr(0.0) != 0.0 then
              && reply.Created?
              && st'.holdings == st.holdings + [reply.holding]
              && cache' == cache + [FromServer(reply.holding)]
              && cache'[|cache|].id == st.nextId
              && cache'[|cache|].symbol == Ascii.ToUpper(f.symbol)
              && cache'[|cache|].quantity == f.quantity
            else
              st' == st && cache' == cache
  {
    Ascii.ToUpperIdempotent(f.symbol);
  }

  /** Loading the list after any requests gives the client every stored holding, ids and order kept. */
  lemma LoadMirrorsStore(reqs: seq<R.Request>)
    ensures var st := R.Run(R.Initial, reqs);
            var cache := C.Loaded(ListResponse(R.ListStep(st)));
            && |cache| == |st.holdings|
            && forall i :: 0 <= i < |cache| ==> cache[i].id == i + 1 && cache[i] == FromServer(st.holdings[i])
  {
    R.RunWellFormed(R.Initial, reqs);
  }

  /** The mock's base prices of two well-known symbols. */
  lemma MockBaseExamples()
    ensures P.MockBase("AAPL") == 106 && P.MockBase("aapl") == 106
    ensures P.MockBase("MSFT") == 134
  {
    assert Ascii.ToUpper("AAPL") == "AAPL";
    assert Ascii.ToUpper("aapl") == "AAPL";
    assert "AAPL"[..3] == "AAP" && "AAP"[..2] == "AA" && "AA"[..1] == "A" && "A"[..0] == "";
    assert P.CodeSum("AAPL") == 286;
    assert Ascii.ToUpper("MSFT") == "MSFT";
    assert "MSFT"[..3] == "MSF" && "MSF"[..2] == "MS" && "MS"[..1] == "M" && "M"[..0] == "";
    assert P.CodeSum("MSFT") == 314;
  }

  /**
   * Create "aapl" x 2 at 150 on a fresh server, load it into the client and
   * refresh prices in mock mode: the holding is id 1 "AAPL", its price is
   * resolved, and its row value and the total are both twice that price.
   */
  lemma AaplScenario(jitter: real, quote: P.Quote)
    requires 0.0 <= jitter < 5.0
    ensures var (st, reply) := R.CreateStep(R.Initial, R.CreateBody(Some("aapl"), Some(2.0), Some(150.0)));
            var cache := C.Loaded(ListResponse(R.ListStep(st)));
            var priced := C.AnnotatePrices(cache, [PriceResponse(P.PriceEndpoint(Some(cache[0].symbol), P.Mock, jitter, quote))]);
            && reply == R.Created(R.Holding(1, "AAPL", 2.0, 150.0))
            && |priced| == 1
            && priced[0].currentPrice == Some(106.0 + jitter)
            && C.RowValue(priced[0]) == C.Value((106.0 + jitter) * 2.0)
            && C.TotalValue(priced) == (106.0 + jitter) * 2.0
  {
    MockBaseExamples();
    var (st, reply) := R.CreateStep(R.Initial, R.CreateBody(Some("aapl"), Some(2.0), Some(150.0)));
    assert reply.holding.symbol == "AAPL";
    var cache := C.Loaded(ListResponse(R.ListStep(st)));
    var priced := C.AnnotatePrices(cache, [PriceResponse(P.PriceEndpoint(Some(cache[0].symbol), P.Mock, jitter, quote))]);
    assert priced[..0] == [];
  }

  /** Two creates then a clear: the list is empty and the next create gets id 1 again. */
  lemma ClearScenario(b1: R.CreateBody, b2: R.CreateBody, b3: R.CreateBody)
    requires R.Accepts(b1) && R.Accepts(b2) && R.Accepts(b3)
    ensures var st := R.Run(R.Initial, [R.Create(b1), R.Create(b2), R.Clear]);
            && R.ListStep(st) == []
            && R.CreateStep(st, b3).1.holding.id == 1
  {
    var reqs := [R.Create(b1), R.Create(b2), R.Clear];
    assert R.Run(R.Initial, reqs) == R.Run(R.Step(R.Step(R.Initial, reqs[0]), reqs[1]), reqs[2..]);
  }
}
