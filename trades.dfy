/**
 * The settlement handlers of Backend/routes/trades.js: `POST /trades/spot`
 * (buy or sell a coin against USD at the mid or a limit price, 10 bps fee)
 * and `POST /trades/exchange` (coin to coin through USD with a slippage
 * guard). Each handler is a method over the `Db` store that performs the
 * source's statements in order; it is proved equal to an `...Outcome`
 * function on the table snapshot, and the lemmas state what that outcome
 * means for balances and records.
 */
module Trades {
  import opened Results
  import opened Text
  import opened Prices
  import opened Ledger

  /** Errors answered with status 400, and the 500 of a thrown exception. */
  datatype TradeError =
    | MissingFields
    | OnlyUsdQuote
    | QtyNotPositive
    | SameAsset
    | AmountNotPositive
    | NoPrice
    | Insufficient(asset: string)
    | SlippageTooHigh
    | ServerError(message: string)

  // ===================================================================== spot

  /**
   * Body of a spot request. An absent or falsy `side`/`symbol` is "", an
   * absent or zero `qty` is 0, and `price || 0` is carried as `price`.
   * `kind` is the `type` field, whose default is "market".
   */
  datatype SpotRequest = SpotRequest(side: string, symbol: string, kind: string, qty: real, price: real)

  /** What is fixed before any balance is read: pair, side, kind, size, price, fee. */
  datatype SpotQuote = SpotQuote(base: string, side: string, kind: string, qty: real,
                                 price: real, notional: real, fee: real)

  /** An accepted spot order: its quote and the wallet adjustments it makes. */
  datatype SpotFill = SpotFill(quote: SpotQuote, legs: seq<Leg>)

  /** The JSON answer of an accepted spot order. */
  datatype SpotReceipt = SpotReceipt(orderId: nat, quote: SpotQuote, balances: map<string, real>)

  predicate SpotFieldsMissing(req: SpotRequest)
  {
    req.side == "" || req.symbol == "" || req.qty == 0.0
  }

  /** `String(symbol).toUpperCase().split('-')`. */
  function PairParts(symbol: string): (parts: seq<string>)
    ensures |parts| >= 1
  {
    Split(Upper(symbol), '-')
  }

  predicate QuoteIsUsd(symbol: string)
  {
    var parts := PairParts(symbol);
    |parts| >= 2 && parts[1] == "USD"
  }

  /** The limit price when the type is LIMIT and that price is positive, else the mid. */
  function ExecPrice(kind: string, price: real, mid: real): real
  {
    var px := if Upper(kind) == "LIMIT" then price else mid;
    if px > 0.0 then px else mid
  }

  /**
   * The checks of the spot handler that precede the balance read, in the
   * source's order, and the quote computed from an accepted request.
   */
  function QuoteSpot(req: SpotRequest): Result<SpotQuote, TradeError>
  {
    if SpotFieldsMissing(req) then Failure(MissingFields)
    else
      var base := PairParts(req.symbol)[0];
      if !QuoteIsUsd(req.symbol) then Failure(OnlyUsdQuote)
      else if !(req.qty > 0.0) then Failure(QtyNotPositive)
      else
        var mid := MidUsd(base);
        if !(mid > 0.0) then Failure(NoPrice)
        else
          var px := ExecPrice(req.kind, req.price, mid);
          var notional := req.qty * px;
          Success(SpotQuote(base, Upper(req.side), Upper(req.kind), req.qty, px, notional, Fee(notional)))
  }

  /**
   * A spot request is rejected before the balance read exactly on a missing
   * field, a quote asset other than USD, a non-positive quantity or a base
   * without a mid price; an accepted one is priced at its positive LIMIT
   * price, or else at the mid, and charged 10 bps of its notional.
   */
  lemma QuoteSpotChecks(req: SpotRequest)
    ensures QuoteSpot(req).Failure? <==>
              SpotFieldsMissing(req) || !QuoteIsUsd(req.symbol) || req.qty <= 0.0
              || MidUsd(PairParts(req.symbol)[0]) <= 0.0
    ensures QuoteSpot(req).Success? ==>
              var q := QuoteSpot(req).value;
              && q.base == PairParts(req.symbol)[0]
              && q.side == Upper(req.side) && q.kind == Upper(req.kind) && q.qty == req.qty
              && q.price > 0.0
              && q.price == (if Upper(req.kind) == "LIMIT" && req.price > 0.0 then req.price else MidUsd(q.base))
              && q.notional == q.qty * q.price
              && q.fee * 1000.0 == q.notional
  {
  }

  /** The sufficiency check against the balances read, and the legs of an accepted order. */
  function PlanSpot(req: SpotRequest, bals: map<string, real>): Result<SpotFill, TradeError>
  {
    match QuoteSpot(req)
    case Failure(e) => Failure(e)
    case Success(q) =>
      if q.side == "BUY" then
        var need := q.notional + q.fee;
        if Lookup(bals, "USD") + Tolerance < need then Failure(Insufficient("USD"))
        else Success(SpotFill(q, [Leg("USD", -need), Leg(q.base, q.qty)]))
      else if Lookup(bals, q.base) + Tolerance < q.qty then Failure(Insufficient(q.base))
      else Success(SpotFill(q, [Leg(q.base, -q.qty), Leg("USD", q.notional - q.fee)]))
  }

  /** The wallet adjustments, then one FILLED order and one trade of the same size and price. */
  function SettleSpot(t: Tables, user: int, fill: SpotFill): (r: Tables)
    ensures |r.orders| == |t.orders| + 1 && |r.trades| == |t.trades| + 1
  {
    var q := fill.quote;
    var t1 := ApplyLegs(t, user, fill.legs);
    var pair := q.base + "-USD";
    t1.(orders := t1.orders + [Order(user, pair, q.side, q.kind, q.qty, Some(q.price), FILLED)],
        trades := t1.trades + [Trade(|t1.orders| + 1, user, pair, q.price, q.qty)])
  }

  /** The tables after a spot request and its answer. */
  function SpotOutcome(t: Tables, user: int, req: SpotRequest): (r: (Tables, Result<SpotReceipt, TradeError>))
    ensures r.1.Failure? ==> r.0 == t
  {
    match PlanSpot(req, BalancesView(t, user))
    case Failure(e) => (t, Failure(e))
    case Success(fill) =>
      var t' := SettleSpot(t, user, fill);
      (t', Success(SpotReceipt(|t.orders| + 1, fill.quote, BalancesView(t', user))))
  }

  /** A settlement keeps the schema: the new trade refers to the order inserted just before it. */
  lemma SettleSpotWellFormed(t: Tables, user: int, fill: SpotFill)
    requires WellFormed(t)
    ensures WellFormed(SettleSpot(t, user, fill))
  {
    ApplyLegsWellFormed(t, user, fill.legs);
  }

  /** Whatever the answer, a spot request leaves well-formed tables well-formed. */
  lemma SpotOutcomeWellFormed(t: Tables, user: int, req: SpotRequest)
    requires WellFormed(t)
    ensures WellFormed(SpotOutcome(t, user, req).0)
  {
    if PlanSpot(req, BalancesView(t, user)).Success? {
      SettleSpotWellFormed(t, user, PlanSpot(req, BalancesView(t, user)).value);
    }
  }

  /** A request failing a pre-balance check is rejected whatever the balances are. */
  lemma SpotRejectsBeforeBalances(req: SpotRequest, bals: map<string, real>, t: Tables, user: int)
    requires QuoteSpot(req).Failure?
    ensures PlanSpot(req, bals) == Failure(QuoteSpot(req).error)
    ensures SpotOutcome(t, user, req) == (t, Failure(QuoteSpot(req).error))
  {
  }

  /** A BUY is accepted exactly when USD + 1e-12 covers notional + fee. */
  lemma SpotBuyAccepted(t: Tables, user: int, req: SpotRequest)
    requires QuoteSpot(req).Success? && QuoteSpot(req).value.side == "BUY"
    ensures var q := QuoteSpot(req).value;
            SpotOutcome(t, user, req).1.Success? <==> BalanceOf(t, user, "USD") + Tolerance >= q.notional + q.fee
  {
    LookupBalances(t, user, "USD");
  }

  /** The legs of an accepted spot plan: the debit first, then the credit. */
  lemma SpotFillLegs(req: SpotRequest, bals: map<string, real>)
    requires PlanSpot(req, bals).Success?
    ensures var q := QuoteSpot(req).value;
            PlanSpot(req, bals).value
            == if q.side == "BUY" then SpotFill(q, [Leg("USD", -(q.notional + q.fee)), Leg(q.base, q.qty)])
               else SpotFill(q, [Leg(q.base, -q.qty), Leg("USD", q.notional - q.fee)])
  {
  }

  /** An accepted spot order's tables are its plan's settlement. */
  lemma SpotOutcomeIsSettlement(t: Tables, user: int, req: SpotRequest)
    requires SpotOutcome(t, user, req).1.Success?
    ensures PlanSpot(req, BalancesView(t, user)).Success?
    ensures SpotOutcome(t, user, req).0 == SettleSpot(t, user, PlanSpot(req, BalancesView(t, user)).value)
  {
  }

  /** The two legs of a spot fill land on their upper-cased assets; one order and one trade follow. */
  lemma SettleTwoLegs(t: Tables, user: int, fill: SpotFill, v: int, s: string)
    requires WellFormed(t) && |fill.legs| == 2
    ensures var t' := SettleSpot(t, user, fill);
            var q := fill.quote;
            && BalanceOf(t', v, s) == BalanceOf(t, v, s)
                 + (if v == user && Upper(fill.legs[0].asset) == s then fill.legs[0].delta else 0.0)
                 + (if v == user && Upper(fill.legs[1].asset) == s then fill.legs[1].delta else 0.0)
            && t'.orders == t.orders + [Order(user, q.base + "-USD", q.side, q.kind, q.qty, Some(q.price), FILLED)]
            && t'.trades == t.trades + [Trade(|t.orders| + 1, user, q.base + "-USD", q.price, q.qty)]
  {
    assert fill.legs == [fill.legs[0], fill.legs[1]];
    ApplyLegsEffect(t, user, fill.legs, v, s);
    NetDeltaTwo(fill.legs[0], fill.legs[1], s);
  }

  /** The legs of a BUY fill on a base stored under its own name. */
  lemma SettleBuyEffect(t: Tables, user: int, q: SpotQuote, v: int, s: string)
    ensures WellFormed(t) && Upper(q.base) == q.base ==>
            var t' := SettleSpot(t, user, SpotFill(q, [Leg("USD", -(q.notional + q.fee)), Leg(q.base, q.qty)]));
            BalanceOf(t', v, s) == BalanceOf(t, v, s)
              + (if v == user && s == "USD" then -(q.notional + q.fee) else 0.0)
              + (if v == user && s == q.base then q.qty else 0.0)
  {
    if WellFormed(t) && Upper(q.base) == q.base {
      UpperUsd();
      SettleTwoLegs(t, user, SpotFill(q, [Leg("USD", -(q.notional + q.fee)), Leg(q.base, q.qty)]), v, s);
    }
  }

  /** The legs of a SELL fill on a base stored under its own name. */
  lemma SettleSellEffect(t: Tables, user: int, q: SpotQuote, v: int, s: string)
    ensures WellFormed(t) && Upper(q.base) == q.base ==>
            var t' := SettleSpot(t, user, SpotFill(q, [Leg(q.base, -q.qty), Leg("USD", q.notional - q.fee)]));
            BalanceOf(t', v, s) == BalanceOf(t, v, s)
              + (if v == user && s == q.base then -q.qty else 0.0)
              + (if v == user && s == "USD" then q.notional - q.fee else 0.0)
  {
    if WellFormed(t) && Upper(q.base) == q.base {
      UpperUsd();
      SettleTwoLegs(t, user, SpotFill(q, [Leg(q.base, -q.qty), Leg("USD", q.notional - q.fee)]), v, s);
    }
  }

  /**
   * An accepted spot order's tables are the settlement of the legs its side
   * calls for, and its base coin is already upper-case.
   */
  lemma SpotSettlement(t: Tables, user: int, req: SpotRequest)
    requires SpotOutcome(t, user, req).1.Success?
    ensures QuoteSpot(req).Success?
    ensures Upper(QuoteSpot(req).value.base) == QuoteSpot(req).value.base
    ensures var q := QuoteSpot(req).value;
            SpotOutcome(t, user, req).0
            == SettleSpot(t, user, if q.side == "BUY" then SpotFill(q, [Leg("USD", -(q.notional + q.fee)), Leg(q.base, q.qty)])
                                   else SpotFill(q, [Leg(q.base, -q.qty), Leg("USD", q.notional - q.fee)]))
  {
    SpotOutcomeIsSettlement(t, user, req);
    SpotFillLegs(req, BalancesView(t, user));
    SplitUpperIsUpper(req.symbol, '-', 0);
  }

  /** An accepted spot order appends one FILLED order and its trade, of the quote's size and price. */
  lemma SpotRecords(t: Tables, user: int, req: SpotRequest)
    requires SpotOutcome(t, user, req).1.Success?
    ensures QuoteSpot(req).Success?
    ensures var q := QuoteSpot(req).value;
            var t' := SpotOutcome(t, user, req).0;
            && t'.orders == t.orders + [Order(user, q.base + "-USD", q.side, q.kind, q.qty, Some(q.price), FILLED)]
            && t'.trades == t.trades + [Trade(|t.orders| + 1, user, q.base + "-USD", q.price, q.qty)]
  {
    SpotOutcomeIsSettlement(t, user, req);
  }

  /** The balances after an accepted BUY, as SpotBuySettles states them. */
  lemma SpotBuyBalances(t: Tables, user: int, req: SpotRequest, v: int, s: string)
    requires WellFormed(t)
    requires QuoteSpot(req).Success? && QuoteSpot(req).value.side == "BUY"
    requires SpotOutcome(t, user, req).1.Success?
    ensures var q := QuoteSpot(req).value;
            var t' := SpotOutcome(t, user, req).0;
            BalanceOf(t', v, s) == BalanceOf(t, v, s)
              + (if v == user && s == "USD" then -(q.notional + q.fee) else 0.0)
              + (if v == user && s == q.base then q.qty else 0.0)
  {
    SpotSettlement(t, user, req);
    SettleBuyEffect(t, user, QuoteSpot(req).value, v, s);
  }



  /**
   * An accepted BUY takes notional + fee from USD and adds the quantity to
   * the base coin; nothing else in any wallet moves, and the order and trade
   * tables each grow by one FILLED record of the same quantity and price.
   */
  lemma SpotBuySettles(t: Tables, user: int, req: SpotRequest, v: int, s: string)
    requires WellFormed(t)
    requires QuoteSpot(req).Success? && QuoteSpot(req).value.side == "BUY"
    requires SpotOutcome(t, user, req).1.Success?
    ensures var q := QuoteSpot(req).value;
            var t' := SpotOutcome(t, user, req).0;
            && BalanceOf(t', v, s) == BalanceOf(t, v, s)
                 + (if v == user && s == "USD" then -(q.notional + q.fee) else 0.0)
                 + (if v == user && s == q.base then q.qty else 0.0)
            && t'.orders == t.orders + [Order(user, q.base + "-USD", q.side, q.kind, q.qty, Some(q.price), FILLED)]
            && t'.trades == t.trades + [Trade(|t.orders| + 1, user, q.base + "-USD", q.price, q.qty)]
  {
    SpotBuyBalances(t, user, req, v, s);
    SpotRecords(t, user, req);
  }

  /** Any other side is a SELL, accepted exactly when base + 1e-12 covers the quantity. */
  lemma SpotSellAccepted(t: Tables, user: int, req: SpotRequest)
    requires QuoteSpot(req).Success? && QuoteSpot(req).value.side != "BUY"
    ensures var q := QuoteSpot(req).value;
            SpotOutcome(t, user, req).1.Success? <==> BalanceOf(t, user, q.base) + Tolerance >= q.qty
  {
    LookupBalances(t, user, QuoteSpot(req).value.base);
  }

  /** The balances after an accepted SELL, as SpotSellSettles states them. */
  lemma SpotSellBalances(t: Tables, user: int, req: SpotRequest, v: int, s: string)
    requires WellFormed(t)
    requires QuoteSpot(req).Success? && QuoteSpot(req).value.side != "BUY"
    requires SpotOutcome(t, user, req).1.Success?
    ensures var q := QuoteSpot(req).value;
            var t' := SpotOutcome(t, user, req).0;
            BalanceOf(t', v, s) == BalanceOf(t, v, s)
              + (if v == user && s == q.base then -q.qty else 0.0)
              + (if v == user && s == "USD" then q.notional - q.fee else 0.0)
  {
    SpotSettlement(t, user, req);
    SettleSellEffect(t, user, QuoteSpot(req).value, v, s);
  }



  /**
   * An accepted SELL takes the quantity from the base coin and adds
   * notional - fee to USD; nothing else moves, and one FILLED order and one
   * trade are recorded.
   */
  lemma SpotSellSettles(t: Tables, user: int, req: SpotRequest, v: int, s: string)
    requires WellFormed(t)
    requires QuoteSpot(req).Success? && QuoteSpot(req).value.side != "BUY"
    requires SpotOutcome(t, user, req).1.Success?
    ensures var q := QuoteSpot(req).value;
            var t' := SpotOutcome(t, user, req).0;
            && BalanceOf(t', v, s) == BalanceOf(t, v, s)
                 + (if v == user && s == q.base then -q.qty else 0.0)
                 + (if v == user && s == "USD" then q.notional - q.fee else 0.0)
            && t'.orders == t.orders + [Order(user, q.base + "-USD", q.side, q.kind, q.qty, Some(q.price), FILLED)]
            && t'.trades == t.trades + [Trade(|t.orders| + 1, user, q.base + "-USD", q.price, q.qty)]
  {
    SpotSellBalances(t, user, req, v, s);
    SpotRecords(t, user, req);
  }


  /**
   * The 1e-12 tolerance is the only overdraft a spot order allows: the
   * balance it debits ends at -1e-12 or above.
   */
  lemma SpotDebitWithinTolerance(t: Tables, user: int, req: SpotRequest)
    requires WellFormed(t)
    requires SpotOutcome(t, user, req).1.Success?
    ensures var q := QuoteSpot(req).value;
            var t' := SpotOutcome(t, user, req).0;
            BalanceOf(t', user, if q.side == "BUY" then "USD" else q.base) >= -Tolerance
  {
    var q := QuoteSpot(req).value;
    if q.side == "BUY" {
      SpotBuyBalances(t, user, req, user, "USD");
    } else {
      SpotSellBalances(t, user, req, user, q.base);
      assert q.notional - q.fee > 0.0;
    }
  }

  lemma NetDeltaTwo(a: Leg, b: Leg, s: string)
    ensures NetDelta([a, b], s)
            == (if Upper(a.asset) == s then a.delta else 0.0) + (if Upper(b.asset) == s then b.delta else 0.0)
  {
    assert [a, b][1..] == [b];
    assert [b][1..] == [];
    assert NetDelta([b], s) == (if Upper(b.asset) == s then b.delta else 0.0) + NetDelta([], s);
    assert NetDelta([a, b], s) == (if Upper(a.asset) == s then a.delta else 0.0) + NetDelta([b], s);
  }

  /** Two `upsertWallet` calls in order, one per leg. */
  method UpsertTwoLegs(db: Db, user: int, legs: seq<Leg>)
    requires db.Valid() && |legs| == 2
    modifies db
    ensures db.Valid()
    ensures db.Snapshot() == ApplyLegs(old(db.Snapshot()), user, legs)
  {
    ghost var t0 := db.Snapshot();
    db.UpsertWallet(user, legs[0].asset, legs[0].delta);
    ghost var t1 := db.Snapshot();
    db.UpsertWallet(user, legs[1].asset, legs[1].delta);
    ghost var t2 := db.Snapshot();
    assert t2 == ApplyLegs(t0, user, legs) by {
      assert legs[1..][1..] == [];
      assert ApplyLegs(t1, user, legs[1..]) == ApplyLegs(t2, user, []);
    }
  }

  /**
   * The writes of an accepted spot order: its two `upsertWallet` calls in
   * order, then the FILLED order row and its trade row.
   */
  method WriteSpotFill(db: Db, user: int, fill: SpotFill) returns (orderId: nat)
    requires db.Valid() && |fill.legs| == 2
    modifies db
    ensures db.Valid()
    ensures db.Snapshot() == SettleSpot(old(db.Snapshot()), user, fill)
    ensures orderId == |old(db.Snapshot()).orders| + 1
  {
    UpsertTwoLegs(db, user, fill.legs);
    var q := fill.quote;
    var pair := q.base + "-USD";
    orderId := db.InsertOrder(Order(user, pair, q.side, q.kind, q.qty, Some(q.price), FILLED));
    db.InsertTrade(Trade(orderId, user, pair, q.price, q.qty));
  }

  /** The statements of the spot handler before the balance read: its checks and the quote. */
  method SpotChecks(req: SpotRequest) returns (r: Result<SpotQuote, TradeError>)
    ensures r == QuoteSpot(req)
  {
    if req.side == "" || req.symbol == "" || req.qty == 0.0 {
      return Failure(MissingFields);
    }
    var parts := Split(Upper(req.symbol), '-');
    assert parts == PairParts(req.symbol);
    var base := parts[0];
    if |parts| < 2 || parts[1] != "USD" {
      return Failure(OnlyUsdQuote);
    }
    var q := req.qty;
    if !(q > 0.0) {
      return Failure(QtyNotPositive);
    }
    var mid := MidUsd(base);
    if !(mid > 0.0) {
      return Failure(NoPrice);
    }
    var execPx := if Upper(req.kind) == "LIMIT" then req.price else mid;
    if !(execPx > 0.0) {
      execPx := mid;
    }
    var notional := q * execPx;
    var f := Fee(notional);
    assert execPx == ExecPrice(req.kind, req.price, mid);
    assert !SpotFieldsMissing(req) && QuoteIsUsd(req.symbol) && base == PairParts(req.symbol)[0];
    ghost var expected := QuoteSpot(req).value;
    assert expected.base == base && expected.side == Upper(req.side) && expected.kind == Upper(req.kind);
    assert expected.qty == q && expected.price == execPx && expected.notional == notional && expected.fee == f;
    r := Success(SpotQuote(base, Upper(req.side), Upper(req.kind), q, execPx, notional, f));
  }

  /** `POST /trades/spot`, statement by statement. */
  method Spot(db: Db, user: int, req: SpotRequest) returns (r: Result<SpotReceipt, TradeError>)
    requires db.Valid()
    modifies db
    ensures db.Valid()
    ensures (db.Snapshot(), r) == SpotOutcome(old(db.Snapshot()), user, req)
  {
    var checked := SpotChecks(req);
    if checked.Failure? {
      return Failure(checked.error);
    }
    var quote := checked.value;
    var bals := db.GetBalances(user);
    var usd := Lookup(bals, "USD");
    var baseBal := Lookup(bals, quote.base);
    var fill: SpotFill;
    if quote.side == "BUY" {
      var need := quote.notional + quote.fee;
      if usd + Tolerance < need {
        return Failure(Insufficient("USD"));
      }
      fill := SpotFill(quote, [Leg("USD", -need), Leg(quote.base, quote.qty)]);
    } else {
      if baseBal + Tolerance < quote.qty {
        return Failure(Insufficient(quote.base));
      }
      fill := SpotFill(quote, [Leg(quote.base, -quote.qty), Leg("USD", quote.notional - quote.fee)]);
    }
    assert PlanSpot(req, bals) == Success(fill);
    var orderId := WriteSpotFill(db, user, fill);
    var balances := db.GetBalances(user);
    r := Success(SpotReceipt(orderId, quote, balances));
  }

  // ================================================================= exchange

  /**
   * Body of an exchange request. Absent or falsy `from`/`to` are "", an
   * absent or zero `amount` is 0. `maxSlippagePct` is `Some(x)` for a number
   * (the handler's default is 0.5) and `None` for a value `Number()` turns
   * into NaN.
   */
  datatype ExchangeRequest = ExchangeRequest(from: string, to: string, amount: real, maxSlippagePct: Option<real>)

  datatype ExchangeFill = ExchangeFill(from: string, to: string, amount: real, pFrom: real, pTo: real,
                                       grossUsd: real, fee: real, receive: real, minReceive: real)

  /** The JSON answer the handler means to send (`swapId` is random and left out). */
  datatype ExchangeReceipt = ExchangeReceipt(executedRate: real, feeUsd: real, received: real,
                                             minReceived: real, balances: map<string, real>)

  const DefaultMaxSlippagePct: real := 0.5

  /** The message of the ReferenceError the answer statement throws. */
  const MinReceivedUndefined: string := "minReceived is not defined"

  function ExchangeLegs(fill: ExchangeFill): seq<Leg>
  {
    [Leg(fill.from, -fill.amount), Leg(fill.to, fill.receive)]
  }

  /**
   * The quote of an exchange at the mids: gross USD value, one fee, the
   * amount of `to` it buys, and the slippage floor for `maxSlippagePct = m`.
   */
  function QuoteExchange(from: string, to: string, amount: real, m: real): (x: ExchangeFill)
    ensures x.from == from && x.to == to && x.amount == amount
    ensures x.pFrom == MidUsd(from) && x.pTo == MidUsd(to)
  {
    var pFrom := MidUsd(from);
    var pTo := MidUsd(to);
    var gross := amount * pFrom;
    var f := Fee(gross);
    var receive := if pTo == 0.0 then 0.0 else (gross - f) / pTo;
    ExchangeFill(from, to, amount, pFrom, pTo, gross, f, receive, receive * (1.0 - m / 100.0))
  }

  /** The checks of the exchange handler in source order, then the quote. */
  function PlanExchange(req: ExchangeRequest, bals: map<string, real>): Result<ExchangeFill, TradeError>
  {
    if req.from == "" || req.to == "" || req.amount == 0.0 then Failure(MissingFields)
    else if req.from == req.to then Failure(SameAsset)
    else if !(req.amount > 0.0) then Failure(AmountNotPositive)
    else if !(MidUsd(req.from) > 0.0 && MidUsd(req.to) > 0.0) then Failure(NoPrice)
    else if Lookup(bals, req.from) + Tolerance < req.amount then Failure(Insufficient(req.from))
    else
      match req.maxSlippagePct
      case None => Failure(SlippageTooHigh)
      case Some(m) =>
        var x := QuoteExchange(req.from, req.to, req.amount, m);
        if !(x.receive >= x.minReceive) then Failure(SlippageTooHigh)
        else Success(x)
  }

  /** Both wallet legs, then a single BUY order and trade of `to` (no SELL leg of `from`). */
  function SettleExchange(t: Tables, user: int, fill: ExchangeFill): (r: Tables)
    ensures |r.orders| == |t.orders| + 1 && |r.trades| == |t.trades| + 1
  {
    var t1 := ApplyLegs(t, user, ExchangeLegs(fill));
    var pair := fill.to + "-USD";
    t1.(orders := t1.orders + [Order(user, pair, "BUY", "MARKET", fill.receive, Some(fill.pTo), FILLED)],
        trades := t1.trades + [Trade(|t1.orders| + 1, user, pair, fill.pTo, fill.receive)])
  }

  /**
   * The exchange handler as written: an accepted exchange writes both wallet
   * legs, the order and the trade, and then its answer refers to the
   * undefined `minReceived`; the exception is caught and answered with 500.
   */
  function ExchangeOutcome(t: Tables, user: int, req: ExchangeRequest): (r: (Tables, Result<ExchangeReceipt, TradeError>))
    ensures r.1.Success? == false
  {
    match PlanExchange(req, BalancesView(t, user))
    case Failure(e) => (t, Failure(e))
    case Success(fill) => (SettleExchange(t, user, fill), Failure(ServerError(MinReceivedUndefined)))
  }

  /** The exchange handler as evidently intended: the same effects, answered with a receipt. */
  function ExchangeOutcomeIntended(t: Tables, user: int, req: ExchangeRequest): (r: (Tables, Result<ExchangeReceipt, TradeError>))
  {
    match PlanExchange(req, BalancesView(t, user))
    case Failure(e) => (t, Failure(e))
    case Success(fill) =>
      var t' := SettleExchange(t, user, fill);
      (t', Success(ExchangeReceipt(fill.pFrom / fill.pTo, fill.fee, fill.receive, fill.minReceive, BalancesView(t', user))))
  }

  /** An exchange settlement keeps the schema. */
  lemma SettleExchangeWellFormed(t: Tables, user: int, fill: ExchangeFill)
    requires WellFormed(t)
    ensures WellFormed(SettleExchange(t, user, fill))
  {
    ApplyLegsWellFormed(t, user, ExchangeLegs(fill));
  }

  /** Whatever the answer, an exchange request leaves well-formed tables well-formed. */
  lemma ExchangeOutcomeWellFormed(t: Tables, user: int, req: ExchangeRequest)
    requires WellFormed(t)
    ensures WellFormed(ExchangeOutcome(t, user, req).0)
  {
    if PlanExchange(req, BalancesView(t, user)).Success? {
      SettleExchangeWellFormed(t, user, PlanExchange(req, BalancesView(t, user)).value);
    }
  }

  /** The checks that need no balance, in source order. */
  predicate ExchangeInputsOk(req: ExchangeRequest)
  {
    && req.from != "" && req.to != "" && req.amount > 0.0
    && req.from != req.to
    && MidUsd(req.from) > 0.0 && MidUsd(req.to) > 0.0
  }

  /**
   * The slippage guard compares the quote with a fraction of itself, so for
   * a request that passes every other check it rejects exactly when
   * `maxSlippagePct` is negative or not a number.
   */
  lemma SlippageGuardOnlyRejectsNegative(req: ExchangeRequest, bals: map<string, real>)
    requires ExchangeInputsOk(req)
    requires Lookup(bals, req.from) + Tolerance >= req.amount
    ensures PlanExchange(req, bals) == Failure(SlippageTooHigh)
            <==> req.maxSlippagePct.None? || req.maxSlippagePct.value < 0.0
    ensures PlanExchange(req, bals).Failure? ==> PlanExchange(req, bals) == Failure(SlippageTooHigh)
  {
    var pFrom := MidUsd(req.from);
    var pTo := MidUsd(req.to);
    var gross := req.amount * pFrom;
    assert gross > 0.0;
    var f := Fee(gross);
    var receive := (gross - f) / pTo;
    assert receive > 0.0;
    if req.maxSlippagePct.Some? {
      var m := req.maxSlippagePct.value;
      var minReceive := receive * (1.0 - m / 100.0);
      assert receive - minReceive == receive * (m / 100.0);
      if m >= 0.0 {
        assert receive * (m / 100.0) >= 0.0;
      } else {
        assert receive * (m / 100.0) < 0.0;
      }
    }
  }

  /**
   * One fee, not two: what arrives in `to`, valued at its price, is the USD
   * value of what left `from` less 10 basis points. The requires are what
   * an accepted plan guarantees (PlanExchangeAccepted), and its fill is this
   * quote.
   */
  lemma ExchangeChargesOneFee(from: string, to: string, amount: real, m: real)
    requires amount > 0.0 && MidUsd(from) > 0.0 && MidUsd(to) > 0.0
    ensures var x := QuoteExchange(from, to, amount, m);
            && x.receive * x.pTo == x.amount * x.pFrom * 999.0 / 1000.0
            && x.fee * 1000.0 == x.amount * x.pFrom
            && x.receive > 0.0
  {
    var pFrom, pTo := MidUsd(from), MidUsd(to);
    var gross := amount * pFrom;
    var f := Fee(gross);
    assert gross > 0.0;
    var receive := (gross - f) / pTo;
    assert receive * pTo == gross - f;
    assert gross - f == amount * pFrom * 999.0 / 1000.0;
    assert receive > 0.0;
  }

  /**
   * An accepted exchange takes `amount` from the (upper-cased) `from` wallet,
   * adds the quoted amount to the `to` wallet, moves nothing else, and
   * records one BUY order and trade of `to` and nothing for `from`.
   */
  lemma ExchangeSettles(t: Tables, user: int, req: ExchangeRequest, v: int, s: string)
    requires WellFormed(t)
    requires PlanExchange(req, BalancesView(t, user)).Success?
    ensures var x := PlanExchange(req, BalancesView(t, user)).value;
            var t' := ExchangeOutcome(t, user, req).0;
            && BalanceOf(t', v, s) == BalanceOf(t, v, s)
                 + (if v == user && s == Upper(req.from) then -req.amount else 0.0)
                 + (if v == user && s == Upper(req.to) then x.receive else 0.0)
            && t'.orders == t.orders + [Order(user, req.to + "-USD", "BUY", "MARKET", x.receive, Some(x.pTo), FILLED)]
            && t'.trades == t.trades + [Trade(|t.orders| + 1, user, req.to + "-USD", x.pTo, x.receive)]
  {
    var x := PlanExchange(req, BalancesView(t, user)).value;
    assert ExchangeOutcome(t, user, req).0 == SettleExchange(t, user, x);
    assert x.from == req.from && x.to == req.to && x.amount == req.amount by {
      PlanExchangeAccepted(req, BalancesView(t, user));
    }
    SettleExchangeEffect(t, user, x, v, s);
  }

  /** An accepted plan passed every check and carries the quote at the request's slippage. */
  lemma PlanExchangeAccepted(req: ExchangeRequest, bals: map<string, real>)
    requires PlanExchange(req, bals).Success?
    ensures ExchangeInputsOk(req) && Lookup(bals, req.from) + Tolerance >= req.amount
    ensures req.maxSlippagePct.Some?
    ensures PlanExchange(req, bals).value == QuoteExchange(req.from, req.to, req.amount, req.maxSlippagePct.value)
  {
  }

  /** The exchange writes on their own: two legs, one BUY order of `to`, one trade. */
  lemma SettleExchangeEffect(t: Tables, user: int, x: ExchangeFill, v: int, s: string)
    requires WellFormed(t)
    ensures var t' := SettleExchange(t, user, x);
            && BalanceOf(t', v, s) == BalanceOf(t, v, s)
                 + (if v == user && s == Upper(x.from) then -x.amount else 0.0)
                 + (if v == user && s == Upper(x.to) then x.receive else 0.0)
            && t'.orders == t.orders + [Order(user, x.to + "-USD", "BUY", "MARKET", x.receive, Some(x.pTo), FILLED)]
            && t'.trades == t.trades + [Trade(|t.orders| + 1, user, x.to + "-USD", x.pTo, x.receive)]
  {
    ApplyLegsEffect(t, user, ExchangeLegs(x), v, s);
    NetDeltaTwo(Leg(x.from, -x.amount), Leg(x.to, x.receive), s);
  }

  /** Every rejected exchange leaves all tables as they were. */
  lemma ExchangeRejectionChangesNothing(t: Tables, user: int, req: ExchangeRequest)
    requires PlanExchange(req, BalancesView(t, user)).Failure?
    ensures ExchangeOutcome(t, user, req) == (t, Failure(PlanExchange(req, BalancesView(t, user)).error))
  {
  }

  /**
   * As written, every exchange that passes the guards is answered with a
   * server error although its order row (and wallet legs) are already
   * written; the caller cannot tell it from a failure that changed nothing.
   */
  lemma ExchangeFailsAfterWriting(t: Tables, user: int, req: ExchangeRequest)
    requires PlanExchange(req, BalancesView(t, user)).Success?
    ensures ExchangeOutcome(t, user, req).1 == Failure(ServerError(MinReceivedUndefined))
    ensures |ExchangeOutcome(t, user, req).0.orders| == |t.orders| + 1
    ensures ExchangeOutcome(t, user, req).0 != t
  {
    var t' := ExchangeOutcome(t, user, req).0;
    assert |t'.orders| == |t.orders| + 1;
  }

  /**
   * As intended, an exchange is answered with a receipt exactly when it
   * settles; the receipt's `minReceived` never exceeds what was received,
   * and the effects are those of the handler as written.
   */
  lemma ExchangeIntendedAnswers(t: Tables, user: int, req: ExchangeRequest)
    ensures var plan := PlanExchange(req, BalancesView(t, user));
            var out := ExchangeOutcomeIntended(t, user, req);
            && (out.1.Success? <==> plan.Success?)
            && out.0 == ExchangeOutcome(t, user, req).0
            && (out.1.Success? ==>
                  && out.1.value.received == plan.value.receive
                  && out.1.value.minReceived <= out.1.value.received
                  && out.1.value.executedRate == plan.value.pFrom / plan.value.pTo)
  {
  }

  /**
   * The writes of an accepted exchange: debit `from`, credit `to`, then one
   * BUY order of `to` and its trade.
   */
  method WriteExchangeFill(db: Db, user: int, fill: ExchangeFill)
    requires db.Valid()
    modifies db
    ensures db.Valid()
    ensures db.Snapshot() == SettleExchange(old(db.Snapshot()), user, fill)
  {
    UpsertTwoLegs(db, user, ExchangeLegs(fill));
    var pair := fill.to + "-USD";
    var orderId := db.InsertOrder(Order(user, pair, "BUY", "MARKET", fill.receive, Some(fill.pTo), FILLED));
    db.InsertTrade(Trade(orderId, user, pair, fill.pTo, fill.receive));
  }

  /** `POST /trades/exchange`, statement by statement. */
  method Exchange(db: Db, user: int, req: ExchangeRequest) returns (r: Result<ExchangeReceipt, TradeError>)
    requires db.Valid()
    modifies db
    ensures db.Valid()
    ensures (db.Snapshot(), r) == ExchangeOutcome(old(db.Snapshot()), user, req)
  {
    if req.from == "" || req.to == "" || req.amount == 0.0 {
      return Failure(MissingFields);
    }
    if req.from == req.to {
      return Failure(SameAsset);
    }
    var a := req.amount;
    if !(a > 0.0) {
      return Failure(AmountNotPositive);
    }
    var pFrom := MidUsd(req.from);
    var pTo := MidUsd(req.to);
    if !(pFrom > 0.0 && pTo > 0.0) {
      return Failure(NoPrice);
    }
    ghost var t0 := db.Snapshot();
    var bals := db.GetBalances(user);
    var fromBal := Lookup(bals, req.from);
    if fromBal + Tolerance < a {
      return Failure(Insufficient(req.from));
    }
    if req.maxSlippagePct.None? {
      // `Number(maxSlippagePct)` is NaN: every comparison with it is false.
      return Failure(SlippageTooHigh);
    }
    // grossUsd, the fee, receive and minReceive, in the handler's arithmetic.
    var fill := QuoteExchange(req.from, req.to, a, req.maxSlippagePct.value);
    if !(fill.receive >= fill.minReceive) {
      return Failure(SlippageTooHigh);
    }
    assert PlanExchange(req, bals) == Success(fill);
    WriteExchangeFill(db, user, fill);
    var balances := db.GetBalances(user);
    // The answer object names `minReceived`, which is not defined: the
    // handler throws here and its catch answers 500.
    r := Failure(ServerError(MinReceivedUndefined));
  }
}
