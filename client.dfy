/**
 * The client's local cache of holdings and the transformations applied to
 * it: loading the list, appending a created holding, annotating prices, and
 * the row and total values shown under the table.
 */
module Client {
  import opened Wrappers
  import Ascii

  /**
   * A cached holding, as JSON from the server plus the price annotation.
   * A field that is null, missing or not a number is `None`.
   */
  datatype Holding = Holding(
    id: int,
    symbol: string,
    quantity: Option<real>,
    avgPrice: Option<real>,
    currentPrice: Option<real>)

  /** Two cached holdings are the same apart from their price annotation. */
  predicate SameExceptPrice(a: Holding, b: Holding) {
    a.(currentPrice := None) == b.(currentPrice := None)
  }

  // ----- fetchHoldings -----

  /** The parsed body of a list response: a JSON array of holdings, or anything else. */
  datatype ListPayload = HoldingArray(items: seq<Holding>) | NotAnArray

  /** A request's outcome: a response with an ok status, one without, or a thrown error. */
  datatype Outcome<T> = Ok(payload: T) | BadStatus | Error

  /** The cache `fetchHoldings` sets: the payload if it is an array, and empty on anything else. */
  function Loaded(o: Outcome<ListPayload>): (cache: seq<Holding>)
    ensures o.Ok? && o.payload.HoldingArray? ==> cache == o.payload.items
    ensures !(o.Ok? && o.payload.HoldingArray?) ==> cache == []
  {
    match o
    case Ok(HoldingArray(items)) => items
    case Ok(NotAnArray) => []
    case BadStatus => []
    case Error => []
  }

  // ----- addHolding -----

  /**
   * The add form: a symbol, and the two number inputs, where `None` stands
   * for an empty input.
   */
  datatype Form = Form(symbol: string, quantity: Option<real>, avgPrice: Option<real>)

  /** The form a successful add leaves: "" / "1" / "". */
  const ResetForm := Form("", Some(1.0), None)
  /** The form of a fresh page: "AAPL" / "1" / "". */
  const InitialForm := Form("AAPL", Some(1.0), None)

  /** The JSON body of the create request. */
  datatype Body = Body(symbol: string, quantity: real, avgPrice: Option<real>)

  /**
   * The request body: the symbol upper-cased, `Number(quantity || 0)` and an
   * empty average price sent as null.
   */
  function BuildBody(f: Form): (b: Body)
    ensures b.symbol == Ascii.ToUpper(f.symbol) && Ascii.IsUpper(b.symbol)
    ensures b.symbol == "" <==> f.symbol == ""
    ensures b.quantity == f.quantity.GetOr(0.0)
    ensures b.avgPrice.None? <==> f.avgPrice.None?
    ensures f.avgPrice.Some? ==> b.avgPrice == f.avgPrice
  {
    Body(Ascii.ToUpper(f.symbol), if f.quantity.None? || f.quantity.value == 0.0 then 0.0 else f.quantity.value, f.avgPrice)
  }

  /**
   * The record appended when an ok response carries no JSON: the body's
   * fields under the id `now` (the clock's reading) and no price.
   */
  function Fallback(b: Body, now: int): (h: Holding)
    ensures h.id == now && h.symbol == b.symbol && h.quantity == Some(b.quantity)
    ensures h.avgPrice == b.avgPrice && h.currentPrice.None?
  {
    Holding(now, b.symbol, Some(b.quantity), b.avgPrice, None)
  }

  /**
   * The cache after the create request: one more holding at the end on an
   * ok status (the server's record, or the fallback), unchanged otherwise.
   */
  function AfterAdd(cache: seq<Holding>, b: Body, o: Outcome<Option<Holding>>, now: int): (next: seq<Holding>)
    ensures o.Ok? ==> |next| == |cache| + 1 && next[..|cache|] == cache
    ensures o.Ok? && o.payload.Some? ==> next[|cache|] == o.payload.value
    ensures o.Ok? && o.payload.None? ==> next[|cache|] == Fallback(b, now)
    ensures !o.Ok? ==> next == cache
  {
    match o
    case Ok(json) => cache + [if json.Some? then json.value else Fallback(b, now)]
    case BadStatus => cache
    case Error => cache
  }

  // ----- fetchPrices -----

  /** The outcome of one price request: the response's `price` field, when the status is ok. */
  type PriceOutcome = Outcome<Option<real>>

  /** `j?.price ?? null`, or null on a bad status or a thrown error. */
  function PriceFrom(o: PriceOutcome): (p: Option<real>)
    ensures p.Some? <==> o.Ok? && o.payload.Some?
    ensures p.Some? ==> p.value == o.payload.value
  {
    if o.Ok? then o.payload else None
  }

  /**
   * `holdings.map(...)`: each holding with its price replaced by what its own
   * lookup returned, in the same order.
   */
  function AnnotatePrices(cache: seq<Holding>, outcomes: seq<PriceOutcome>): (next: seq<Holding>)
    requires |outcomes| == |cache|
    ensures |next| == |cache|
    ensures forall i :: 0 <= i < |cache| ==>
      SameExceptPrice(next[i], cache[i]) && next[i].currentPrice == PriceFrom(outcomes[i])
    decreases |cache|
  {
    if cache == [] then []
    else [cache[0].(currentPrice := PriceFrom(outcomes[0]))] + AnnotatePrices(cache[1..], outcomes[1..])
  }

  /** One lookup's failure touches only its own row: the other rows are as before. */
  lemma FailureIsolated(cache: seq<Holding>, outcomes: seq<PriceOutcome>, k: nat, o: PriceOutcome, i: nat)
    requires |outcomes| == |cache| && k < |cache| && i < |cache| && i != k
    ensures AnnotatePrices(cache, outcomes[k := o])[i] == AnnotatePrices(cache, outcomes)[i]
    ensures AnnotatePrices(cache, outcomes[k := BadStatus])[k].currentPrice.None?
    ensures AnnotatePrices(cache, outcomes[k := Error])[k].currentPrice.None?
  {
  }

  /**
   * A refresh forgets the previous annotations: caches that differ only in
   * their prices come out the same, and refreshing twice with the same
   * outcomes is refreshing once.
   */
  lemma RefreshOverwritesPrices(c1: seq<Holding>, c2: seq<Holding>, outcomes: seq<PriceOutcome>)
    requires |c1| == |c2| == |outcomes|
    requires forall i :: 0 <= i < |c1| ==> SameExceptPrice(c1[i], c2[i])
    ensures AnnotatePrices(c1, outcomes) == AnnotatePrices(c2, outcomes)
    ensures AnnotatePrices(AnnotatePrices(c1, outcomes), outcomes) == AnnotatePrices(c1, outcomes)
  {
    var a, b := AnnotatePrices(c1, outcomes), AnnotatePrices(c2, outcomes);
    assert forall i :: 0 <= i < |a| ==> a[i] == b[i];
    var aa := AnnotatePrices(a, outcomes);
    assert forall i :: 0 <= i < |a| ==> aa[i] == a[i];
  }

  // ----- totalValue and the value column -----

  /** One row's share of the total: `(Number(price) || 0) * (Number(qty) || 0)`. */
  function Contribution(h: Holding): real {
    h.currentPrice.GetOr(0.0) * h.quantity.GetOr(0.0)
  }

  /** `holdings.reduce((s, h) => s + price * qty, 0)`, folded from the left. */
  function TotalValue(cache: seq<Holding>): (t: real)
    ensures cache == [] ==> t == 0.0
    decreases |cache|
  {
    if cache == [] then 0.0 else TotalValue(cache[..|cache| - 1]) + Contribution(cache[|cache| - 1])
  }

  /** The total splits over concatenation. */
  lemma {:induction false} TotalValueAppend(xs: seq<Holding>, ys: seq<Holding>)
    ensures TotalValue(xs + ys) == TotalValue(xs) + TotalValue(ys)
    decreases |ys|
  {
    if ys == [] {
      assert xs + ys == xs;
    } else {
      var ys' := ys[..|ys| - 1];
      assert (xs + ys)[..|xs + ys| - 1] == xs + ys';
      TotalValueAppend(xs, ys');
    }
  }

  /** A row without a price adds nothing: the total is that of the other rows. */
  lemma UnresolvedRowAddsNothing(xs: seq<Holding>, h: Holding, ys: seq<Holding>)
    requires h.currentPrice.None?
    ensures TotalValue(xs + [h] + ys) == TotalValue(xs + ys)
  {
    TotalValueAppend(xs + [h], ys);
    TotalValueAppend(xs, [h]);
    TotalValueAppend(xs, ys);
    assert TotalValue([h]) == TotalValue([]) + Contribution(h);
  }

  /** With no price resolved, the total is 0. */
  lemma {:induction false} NoPricesZeroTotal(cache: seq<Holding>)
    requires forall i :: 0 <= i < |cache| ==> cache[i].currentPrice.None?
    ensures TotalValue(cache) == 0.0
    decreases |cache|
  {
    if cache != [] {
      NoPricesZeroTotal(cache[..|cache| - 1]);
    }
  }

  /** The value column: the row's value when it has a price, "-" otherwise. */
  datatype Cell = Value(amount: real) | Dash

  /** `currentPrice != null ? currentPrice * Number(quantity || 0) : "-"`. */
  function RowValue(h: Holding): (c: Cell)
    ensures c.Dash? <==> h.currentPrice.None?
    ensures c.Value? ==> c.amount == h.currentPrice.value * h.quantity.GetOr(0.0)
  {
    match h.currentPrice
    case Some(p) => Value(p * h.quantity.GetOr(0.0))
    case None => Dash
  }

  /** The sum of the value column, each "-" read as 0. */
  function ColumnSum(cache: seq<Holding>): real
    decreases |cache|
  {
    if cache == [] then 0.0
    else (match RowValue(cache[0]) case Value(v) => v case Dash => 0.0) + ColumnSum(cache[1..])
  }

  /** The total under the table is the sum of the value column with "-" rows counted as 0. */
  lemma {:induction false} TotalIsColumnSum(cache: seq<Holding>)
    ensures TotalValue(cache) == ColumnSum(cache)
    decreases |cache|
  {
    if cache != [] {
      TotalIsColumnSum(cache[1..]);
      TotalValueAppend([cache[0]], cache[1..]);
      assert [cache[0]] + cache[1..] == cache;
      assert TotalValue([cache[0]]) == TotalValue([]) + Contribution(cache[0]);
    }
  }

  // ----- the component -----

  /** The outcome of the clear request. */
  type ClearOutcome = Outcome<()>

  /** The clear button: the cache is emptied once the request returns, whatever its status. */
  function AfterClear(cache: seq<Holding>, o: ClearOutcome): (next: seq<Holding>)
    ensures o.Error? ==> next == cache
    ensures !o.Error? ==> next == []
  {
    if o.Error? then cache else []
  }

  /** The page component's state: the cached holdings and the add form. */
  class App {
    var holdings: seq<Holding>
    var form: Form

    constructor ()
      ensures holdings == [] && form == InitialForm
    {
      holdings := [];
      form := InitialForm;
    }

    /** `fetchHoldings`: replace the cache wholesale, or empty it on failure. */
    method FetchHoldings(o: Outcome<ListPayload>)
      modifies this
      ensures holdings == Loaded(o) && form == old(form)
    {
      holdings := Loaded(o);
    }

    /**
     * `addHolding`: post the form as a body; on an ok status append the
     * created record and reset the form, otherwise change nothing.
     */
    method AddHolding(o: Outcome<Option<Holding>>, now: int)
      modifies this
      ensures holdings == AfterAdd(old(holdings), BuildBody(old(form)), o, now)
      ensures form == if o.Ok? then ResetForm else old(form)
    {
      var body := BuildBody(form);
      if !o.Ok? {
        return;
      }
      var created := if o.payload.Some? then o.payload.value else Fallback(body, now);
      holdings := holdings + [created];
      form := ResetForm;
    }

    /** `fetchPrices`: one outcome per cached holding, applied all at once. */
    method FetchPrices(outcomes: seq<PriceOutcome>)
      requires |outcomes| == |holdings|
      modifies this
      ensures holdings == AnnotatePrices(old(holdings), outcomes) && form == old(form)
    {
      holdings := AnnotatePrices(holdings, outcomes);
    }

    /** The clear button's handler. */
    method ClearAll(o: ClearOutcome)
      modifies this
      ensures holdings == AfterClear(old(holdings), o) && form == old(form)
    {
      if !o.Error? {
        holdings := [];
      }
    }

    /** `totalValue()` of the current cache. */
    function Total(): (t: real)
      reads this
      ensures t == ColumnSum(holdings)
    {
      TotalIsColumnSum(holdings);
      TotalValue(holdings)
    }
  }
}
