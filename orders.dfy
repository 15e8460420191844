/**
 * The simulated-fill order endpoint `POST /api/orders` of Backend/server.js:
 * the order is recorded NEW, filled at once when the fill rule says so (one
 * trade at the last price, status FILLED, and a move of the base coin), and
 * answered with its id and status. No balance is checked and no USD moves.
 */
module Orders {
  import opened Results
  import opened Text
  import opened Prices
  import opened Ledger

  /**
   * Body of an order request. A missing or falsy `symbol`/`side`/`type` is
   * "", a missing or zero `qty` is 0, and `price` is `None` when absent or
   * null. The fields are used as sent: nothing is upper-cased.
   */
  datatype OrderRequest = OrderRequest(symbol: string, side: string, kind: string, qty: real, price: Option<real>)

  datatype OrderError = MissingFields

  /** The JSON answer: the new order's id and its status. */
  datatype Placed = Placed(id: nat, status: OrderStatus)

  predicate OrderFieldsMissing(req: OrderRequest)
  {
    req.symbol == "" || req.side == "" || req.kind == "" || req.qty == 0.0
  }

  /** `price || null`: a zero price is stored as NULL like an absent one. */
  function StoredPrice(price: Option<real>): (r: Option<real>)
    ensures r.Some? <==> price.Some? && price.value != 0.0
    ensures r.Some? ==> r == price
  {
    match price
    case Some(p) => if p != 0.0 then price else None
    case None => None
  }

  /**
   * `willFill`: a MARKET order always fills; a BUY with a price fills when
   * the last price is at or below it, a SELL with a price when the last
   * price is at or above it. The comparisons are case-sensitive.
   */
  predicate WillFill(kind: string, side: string, price: Option<real>, last: real)
  {
    || kind == "MARKET"
    || (side == "BUY" && price.Some? && last <= price.value)
    || (side == "SELL" && price.Some? && last >= price.value)
  }

  /** `symbol.split('-')[0]`, the coin whose wallet a fill moves. */
  function BaseOf(symbol: string): (base: string)
    ensures '-' !in base
  {
    Split(symbol, '-')[0]
  }

  /** `side === 'BUY' ? qty : -qty`: any side other than exactly BUY sells. */
  function FillDelta(side: string, qty: real): real
  {
    if side == "BUY" then qty else -qty
  }

  /** The row the handler inserts, with the status it is given. */
  function OrderRow(user: int, req: OrderRequest, status: OrderStatus): Order
  {
    Order(user, req.symbol, req.side, req.kind, req.qty, StoredPrice(req.price), status)
  }

  /**
   * The rows written by a fill before the wallet move: the order inserted NEW,
   * its trade at the last price, then the order's status set to FILLED.
   */
  function FilledRows(t: Tables, user: int, req: OrderRequest, last: real): Tables
  {
    var id := |t.orders| + 1;
    var t1 := t.(orders := t.orders + [OrderRow(user, req, NEW)]);
    var t2 := t1.(trades := t1.trades + [Trade(id, user, req.symbol, last, req.qty)]);
    t2.(orders := t2.orders[id - 1 := t2.orders[id - 1].(status := FILLED)])
  }

  /** Inserting NEW and then marking FILLED leaves the same rows as inserting FILLED. */
  lemma FilledRowsAppend(t: Tables, user: int, req: OrderRequest, last: real)
    ensures FilledRows(t, user, req, last)
            == t.(orders := t.orders + [OrderRow(user, req, FILLED)],
                  trades := t.trades + [Trade(|t.orders| + 1, user, req.symbol, last, req.qty)])
  {
    var os := t.orders + [OrderRow(user, req, NEW)];
    assert os[|t.orders| := os[|t.orders|].(status := FILLED)] == t.orders + [OrderRow(user, req, FILLED)];
  }

  /**
   * The tables after `POST /api/orders` and its answer. `prices` is the
   * per-pair price table at the moment of the request.
   */
  function PlaceOrderOutcome(t: Tables, user: int, req: OrderRequest, prices: map<string, real>)
    : (r: (Tables, Result<Placed, OrderError>))
    ensures r.1.Failure? <==> OrderFieldsMissing(req)
    ensures r.1.Failure? ==> r.0 == t
    ensures r.1.Success? ==> r.1.value.id == |t.orders| + 1 && |r.0.orders| == |t.orders| + 1
  {
    if OrderFieldsMissing(req) then (t, Failure(MissingFields))
    else
      var id := |t.orders| + 1;
      var last := SymbolPrice(prices, req.symbol);
      if WillFill(req.kind, req.side, req.price, last) then
        (Upsert(FilledRows(t, user, req, last), user, BaseOf(req.symbol), FillDelta(req.side, req.qty)), Success(Placed(id, FILLED)))
      else
        (t.(orders := t.orders + [OrderRow(user, req, NEW)]), Success(Placed(id, NEW)))
  }

  /** The trade of a fill refers to the order inserted just before it, so the schema holds after any order. */
  lemma PlaceOrderOutcomeWellFormed(t: Tables, user: int, req: OrderRequest, prices: map<string, real>)
    requires WellFormed(t)
    ensures WellFormed(PlaceOrderOutcome(t, user, req, prices).0)
  {
    var last := SymbolPrice(prices, req.symbol);
    if !OrderFieldsMissing(req) && WillFill(req.kind, req.side, req.price, last) {
      FilledRowsAppend(t, user, req, last);
      RecordWellFormed(t, OrderRow(user, req, FILLED), Trade(|t.orders| + 1, user, req.symbol, last, req.qty));
      UpsertWellFormed(FilledRows(t, user, req, last), user, BaseOf(req.symbol), FillDelta(req.side, req.qty));
    } else if !OrderFieldsMissing(req) {
      RecordWellFormedOrder(t, OrderRow(user, req, NEW));
    }
  }

  /**
   * An order with every field present is always accepted, and it is FILLED
   * exactly when the fill rule holds for the last price of its symbol;
   * otherwise it stays NEW.
   */
  lemma PlaceOrderStatus(t: Tables, user: int, req: OrderRequest, prices: map<string, real>)
    requires !OrderFieldsMissing(req)
    ensures var r := PlaceOrderOutcome(t, user, req, prices).1;
            && r.Success?
            && (r.value.status == FILLED <==> WillFill(req.kind, req.side, req.price, SymbolPrice(prices, req.symbol)))
            && (r.value.status == NEW <==> !WillFill(req.kind, req.side, req.price, SymbolPrice(prices, req.symbol)))
  {
  }

  /** The fill rule unfolded: MARKET always, BUY at or under the limit, SELL at or over it. */
  lemma FillRule(kind: string, side: string, price: real, last: real)
    ensures WillFill("MARKET", side, None, last)
    ensures kind != "MARKET" ==> (WillFill(kind, "BUY", Some(price), last) <==> last <= price)
    ensures kind != "MARKET" ==> (WillFill(kind, "SELL", Some(price), last) <==> last >= price)
    ensures kind != "MARKET" ==> !WillFill(kind, side, None, last)
    ensures kind != "MARKET" && side != "BUY" && side != "SELL" ==> !WillFill(kind, side, Some(price), last)
  {
  }

  /**
   * The records of an accepted order: one order row with the request's fields
   * and the stored price, FILLED with one trade at the last price when it
   * fills, NEW with no trade when it does not. Earlier rows are untouched.
   */
  lemma PlaceOrderRecords(t: Tables, user: int, req: OrderRequest, prices: map<string, real>)
    requires !OrderFieldsMissing(req)
    ensures var last := SymbolPrice(prices, req.symbol);
            var fill := WillFill(req.kind, req.side, req.price, last);
            var t' := PlaceOrderOutcome(t, user, req, prices).0;
            && t'.orders == t.orders + [Order(user, req.symbol, req.side, req.kind, req.qty, StoredPrice(req.price),
                                              if fill then FILLED else NEW)]
            && t'.trades == t.trades + (if fill then [Trade(|t.orders| + 1, user, req.symbol, last, req.qty)] else [])
            && t'.processed == t.processed && t'.payments == t.payments
  {
    FilledRowsAppend(t, user, req, SymbolPrice(prices, req.symbol));
  }

  /**
   * The only balance an order moves is the caller's wallet of its base coin
   * (upper-cased): by +qty for a BUY fill, by -qty for any other side's
   * fill, and not at all when the order stays NEW or is rejected.
   */
  lemma PlaceOrderBalances(t: Tables, user: int, req: OrderRequest, prices: map<string, real>, v: int, s: string)
    requires WellFormed(t)
    ensures var out := PlaceOrderOutcome(t, user, req, prices);
            var filled := out.1.Success? && out.1.value.status == FILLED;
            BalanceOf(out.0, v, s)
            == BalanceOf(t, v, s)
               + (if filled && v == user && s == Upper(BaseOf(req.symbol)) then FillDelta(req.side, req.qty) else 0.0)
  {
    var last := SymbolPrice(prices, req.symbol);
    if !OrderFieldsMissing(req) && WillFill(req.kind, req.side, req.price, last) {
      var t3 := FilledRows(t, user, req, last);
      FilledRowsAppend(t, user, req, last);
      RecordWellFormed(t, OrderRow(user, req, FILLED), Trade(|t.orders| + 1, user, req.symbol, last, req.qty));
      assert BalanceOf(t3, v, s) == BalanceOf(t, v, s);
      UpsertEffect(t3, user, BaseOf(req.symbol), FillDelta(req.side, req.qty), v, s);
    }
  }

  /**
   * A fill has no USD leg: the caller's USD balance is unchanged by any order
   * on a pair whose base is not USD, whatever was bought or sold.
   */
  lemma PlaceOrderNoUsdLeg(t: Tables, user: int, req: OrderRequest, prices: map<string, real>)
    requires WellFormed(t)
    requires Upper(BaseOf(req.symbol)) != "USD"
    ensures BalanceOf(PlaceOrderOutcome(t, user, req, prices).0, user, "USD") == BalanceOf(t, user, "USD")
  {
    PlaceOrderBalances(t, user, req, prices, user, "USD");
  }

  /**
   * No balance is checked: a MARKET sell of a coin the caller holds none of
   * still fills, and leaves that wallet at -qty.
   */
  lemma MarketSellOverdraws(t: Tables, user: int, req: OrderRequest, prices: map<string, real>)
    requires WellFormed(t)
    requires !OrderFieldsMissing(req) && req.kind == "MARKET" && req.side != "BUY"
    requires BalanceOf(t, user, Upper(BaseOf(req.symbol))) == 0.0
    ensures PlaceOrderOutcome(t, user, req, prices).1 == Success(Placed(|t.orders| + 1, FILLED))
    ensures BalanceOf(PlaceOrderOutcome(t, user, req, prices).0, user, Upper(BaseOf(req.symbol))) == -req.qty
  {
    PlaceOrderBalances(t, user, req, prices, user, Upper(BaseOf(req.symbol)));
  }

  /** `POST /api/orders`, statement by statement. */
  method PlaceOrder(db: Db, user: int, req: OrderRequest, prices: map<string, real>)
    returns (r: Result<Placed, OrderError>)
    requires db.Valid()
    modifies db
    ensures db.Valid()
    ensures (db.Snapshot(), r) == PlaceOrderOutcome(old(db.Snapshot()), user, req, prices)
  {
    if req.symbol == "" || req.side == "" || req.kind == "" || req.qty == 0.0 {
      return Failure(MissingFields);
    }
    ghost var t0 := db.Snapshot();
    var orderId := db.InsertOrder(Order(user, req.symbol, req.side, req.kind, req.qty, StoredPrice(req.price), NEW));
    var last := SymbolPrice(prices, req.symbol);
    var willFill := WillFill(req.kind, req.side, req.price, last);
    if willFill {
      db.InsertTrade(Trade(orderId, user, req.symbol, last, req.qty));
      db.SetOrderStatus(orderId, FILLED);
      assert db.Snapshot() == FilledRows(t0, user, req, last);
      var base := Split(req.symbol, '-')[0];
      db.UpsertWallet(user, base, if req.side == "BUY" then req.qty else -req.qty);
    }
    r := Success(Placed(orderId, if willFill then FILLED else NEW));
  }
}
