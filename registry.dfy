/**
 * The in-memory holding registry of the API server: an ordered list of
 * holdings and the counter that hands out their ids, with the create, list
 * and clear handlers of the `/api/holdings` resource.
 */
module HoldingRegistry {
  import opened Wrappers
  import Ascii

  /** A stored holding, as the create handler builds it. */
  datatype Holding = Holding(id: int, symbol: string, quantity: real, avgPrice: real)

  /** The JSON body of a create request; a missing body has every field absent. */
  datatype CreateBody = CreateBody(symbol: Option<string>, quantity: Option<real>, avgPrice: Option<real>)

  /** The create handler's answer: 200 with the holding, or 400 with an error text. */
  datatype CreateReply = Created(holding: Holding) | BadRequest(error: string)

  const RequiredError := "symbol and quantity required"

  /** JavaScript truthiness of the two required fields: an empty symbol and a zero quantity are falsy. */
  predicate Accepts(b: CreateBody) {
    && b.symbol.Some? && b.symbol.value != ""
    && b.quantity.Some? && b.quantity.value != 0.0
  }

  /** `Number(avgPrice || 0)`: an absent (or zero) average price is stored as 0. */
  function StoredAvgPrice(a: Option<real>): (r: real)
    ensures r == a.GetOr(0.0)
    ensures r == 0.0 <==> a == None || a == Some(0.0)
  {
    if a.None? || a.value == 0.0 then 0.0 else a.value
  }

  /** The registry's state: the holdings in insertion order and the next id to assign. */
  datatype Store = Store(holdings: seq<Holding>, nextId: int)

  const Initial := Store([], 1)

  /**
   * What the handlers keep true of the store: the ids are 1, 2, 3, ... in
   * insertion order, the counter is one past the last id, and every stored
   * holding has a non-empty upper-case symbol and a non-zero quantity.
   */
  predicate WellFormed(st: Store) {
    && st.nextId == |st.holdings| + 1
    && (forall i :: 0 <= i < |st.holdings| ==> st.holdings[i].id == i + 1)
    && (forall i :: 0 <= i < |st.holdings| ==> ValidHolding(st.holdings[i]))
  }

  predicate ValidHolding(h: Holding) {
    h.symbol != [] && Ascii.IsUpper(h.symbol) && h.quantity != 0.0
  }

  /** The holding a create request with an accepted body stores under `id`. */
  function NewHolding(id: int, b: CreateBody): (h: Holding)
    requires Accepts(b)
    ensures h.id == id && ValidHolding(h)
    ensures h.symbol == Ascii.ToUpper(b.symbol.value)
    ensures h.quantity == b.quantity.value && h.avgPrice == b.avgPrice.GetOr(0.0)
  {
    Holding(id, Ascii.ToUpper(b.symbol.value), b.quantity.value, StoredAvgPrice(b.avgPrice))
  }

  /**
   * POST /api/holdings. A rejected body leaves the store as it was; an
   * accepted one is appended under the current counter, which moves on by one.
   */
  function CreateStep(st: Store, b: CreateBody): (res: (Store, CreateReply))
    ensures !Accepts(b) <==> res.1.BadRequest?
    ensures !Accepts(b) ==> res.0 == st && res.1 == BadRequest(RequiredError)
    ensures Accepts(b) ==>
      && res.1.holding == NewHolding(st.nextId, b)
      && res.0.holdings == st.holdings + [res.1.holding]
      && res.0.nextId == st.nextId + 1
    ensures WellFormed(st) ==> WellFormed(res.0)
  {
    if !Accepts(b) then
      (st, BadRequest(RequiredError))
    else
      var h := NewHolding(st.nextId, b);
      (Store(st.holdings + [h], st.nextId + 1), Created(h))
  }

  /** POST /api/holdings/clear: no holdings, and the counter back at 1. */
  function ClearStep(st: Store): (r: Store)
    ensures r == Initial && WellFormed(r)
  {
    Store([], 1)
  }

  /** GET /api/holdings: every holding, in insertion order. */
  function ListStep(st: Store): (r: seq<Holding>)
    ensures r == st.holdings
  {
    st.holdings
  }

  /** Requests to the registry, for reasoning about several in a row. */
  datatype Request = Create(body: CreateBody) | List | Clear

  function Step(st: Store, req: Request): Store {
    match req
    case Create(b) => CreateStep(st, b).0
    case List => st
    case Clear => ClearStep(st)
  }

  /** The store after a sequence of requests, handled in order. */
  function Run(st: Store, reqs: seq<Request>): Store
    decreases |reqs|
  {
    if reqs == [] then st else Run(Step(st, reqs[0]), reqs[1..])
  }

  /** How many creates in `reqs` carry an accepted body. */
  function AcceptedCount(reqs: seq<Request>): nat
    decreases |reqs|
  {
    if reqs == [] then 0
    else (if reqs[0].Create? && Accepts(reqs[0].body) then 1 else 0) + AcceptedCount(reqs[1..])
  }

  predicate NoClear(reqs: seq<Request>) {
    forall i :: 0 <= i < |reqs| ==> !reqs[i].Clear?
  }

  /** Every sequence of requests keeps the store well formed. */
  lemma {:induction false} RunWellFormed(st: Store, reqs: seq<Request>)
    requires WellFormed(st)
    ensures WellFormed(Run(st, reqs))
    decreases |reqs|
  {
    if reqs != [] {
      RunWellFormed(Step(st, reqs[0]), reqs[1..]);
    }
  }

  /**
   * Between clears the registry is append-only: what was stored stays stored,
   * in place, and the counter has moved on by exactly the number of accepted
   * creates, each new holding getting the next id in turn.
   */
  lemma {:induction false} AppendOnlyBetweenClears(st: Store, reqs: seq<Request>)
    requires NoClear(reqs)
    ensures st.holdings <= Run(st, reqs).holdings
    ensures |Run(st, reqs).holdings| == |st.holdings| + AcceptedCount(reqs)
    ensures Run(st, reqs).nextId == st.nextId + AcceptedCount(reqs)
    ensures forall i :: |st.holdings| <= i < |Run(st, reqs).holdings| ==>
      Run(st, reqs).holdings[i].id == st.nextId + (i - |st.holdings|)
    decreases |reqs|
  {
    if reqs != [] {
      var st' := Step(st, reqs[0]);
      AppendOnlyBetweenClears(st', reqs[1..]);
    }
  }

  /** In a well-formed store ids are strictly increasing in list order and all below the counter. */
  lemma IdsIncreasing(st: Store)
    requires WellFormed(st)
    ensures forall i, j :: 0 <= i < j < |st.holdings| ==> st.holdings[i].id < st.holdings[j].id
    ensures forall i :: 0 <= i < |st.holdings| ==> 1 <= st.holdings[i].id < st.nextId
  {
  }

  /** After a clear the next accepted create gets id 1 again; clearing twice is clearing once. */
  lemma ClearThenCreate(st: Store, b: CreateBody)
    requires Accepts(b)
    ensures CreateStep(ClearStep(st), b).1 == Created(NewHolding(1, b))
    ensures CreateStep(ClearStep(st), b).0.holdings == [NewHolding(1, b)]
    ensures ClearStep(ClearStep(st)) == ClearStep(st)
  {
  }

  /**
   * The registry as the server holds it: a module-level array and counter
   * that the handlers update in place.
   */
  class Registry {
    var holdings: seq<Holding>
    var nextId: int

    function State(): Store
      reads this
    {
      Store(holdings, nextId)
    }

    ghost predicate Valid()
      reads this
    {
      WellFormed(State())
    }

    /** `let holdings = []; let nextId = 1;` */
    constructor ()
      ensures Valid() && State() == Initial
    {
      holdings := [];
      nextId := 1;
    }

    /** The POST /api/holdings handler. */
    method Create(body: CreateBody) returns (reply: CreateReply)
      requires Valid()
      modifies this
      ensures Valid()
      ensures (State(), reply) == CreateStep(old(State()), body)
      ensures !Accepts(body) ==> holdings == old(holdings) && nextId == old(nextId)
      ensures Accepts(body) ==>
        && reply == Created(NewHolding(old(nextId), body))
        && holdings == old(holdings) + [reply.holding]
        && nextId == old(nextId) + 1
    {
      if !Accepts(body) {
        return BadRequest(RequiredError);
      }
      var h := NewHolding(nextId, body);
      nextId := nextId + 1;
      holdings := holdings + [h];
      reply := Created(h);
    }

    /** The GET /api/holdings handler: the stored holdings in insertion order. */
    method List() returns (r: seq<Holding>)
      requires Valid()
      ensures r == holdings
      ensures forall i :: 0 <= i < |r| ==> r[i].id == i + 1
    {
      r := holdings;
    }

    /** The POST /api/holdings/clear handler. */
    method Clear()
      requires Valid()
      modifies this
      ensures Valid() && State() == Initial
    {
      holdings := [];
      nextId := 1;
    }
  }
}
