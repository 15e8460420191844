/**
 * `creditUserForPaymentIntent(pi)` of Backend/server.js: a succeeded card
 * payment buys coin at the current pair price. A `payments_processed` guard
 * row, inserted first, makes the crediting happen at most once per intent;
 * the metadata check comes after the guard, so an intent that fails it is
 * marked processed without being credited.
 */
module Payments {
  import opened Results
  import opened Text
  import opened Prices
  import opened Ledger

  /**
   * A metadata string read with `Number(...)`: `Absent` when missing or
   * empty (falsy), `Num(v)` when it parses to `v`, `NotANumber` otherwise.
   */
  datatype NumField = Absent | Num(value: real) | NotANumber

  /**
   * The intent's metadata. `userId` is `Number(meta.userId)` with 0 standing
   * for a missing, zero or non-numeric value (all falsy); `coin` is "" when
   * missing. An intent without metadata has all three missing.
   */
  datatype Metadata = Metadata(userId: int, coin: string, amountUsd: NumField)

  /** The fields of a Stripe payment intent that the crediting reads; `amountCents` is `pi.amount`. */
  datatype PaymentIntent = PaymentIntent(id: string, status: string, amountCents: int, metadata: Metadata)

  /** What a credited intent buys and records. */
  datatype Credit = Credit(user: int, symbol: string, base: string, price: real, qty: real, amountUsd: real)

  const DefaultSymbol: string := "BTC-USD"

  /**
   * `(meta.coin || 'BTC-USD').toUpperCase()`: never empty, and with no
   * lower-case letter left, so upper-casing it again changes nothing.
   */
  function CreditSymbol(meta: Metadata): (sym: string)
    ensures sym != ""
    ensures forall i :: 0 <= i < |sym| ==> !IsLowerAscii(sym[i])
    ensures Upper(sym) == sym
  {
    var coin := if meta.coin == "" then DefaultSymbol else meta.coin;
    UpperIdempotent(coin);
    Upper(coin)
  }

  /** `Number(meta.amountUsd || pi.amount / 100)`; `None` is NaN. */
  function CreditAmount(pi: PaymentIntent): (a: Option<real>)
    ensures pi.metadata.amountUsd.Absent? ==> a == Some(pi.amountCents as real / 100.0)
    ensures pi.metadata.amountUsd.Num? ==> a == Some(pi.metadata.amountUsd.value)
    ensures pi.metadata.amountUsd.NotANumber? ==> a.None?
  {
    match pi.metadata.amountUsd
    case Absent => Some(pi.amountCents as real / 100.0)
    case Num(v) => Some(v)
    case NotANumber => None
  }

  /** `getSymbolPrice(symbol) || 1`: the pair price, or 1 when it is unknown. */
  function FillPrice(prices: map<string, real>, symbol: string): (p: real)
    ensures p != 0.0
    ensures symbol !in prices || prices[symbol] == 0.0 ==> p == 1.0
    ensures symbol in prices && prices[symbol] != 0.0 ==> p == prices[symbol]
  {
    var last := SymbolPrice(prices, symbol);
    if last != 0.0 then last else 1.0
  }

  /**
   * The metadata check and the fill: nothing when the user id or the amount
   * is falsy, otherwise `round8(amountUsd / price)` of the base coin (the
   * text before the first `-`) bought at the fill price.
   */
  function PlanCredit(pi: PaymentIntent, prices: map<string, real>): (c: Option<Credit>)
    ensures c.None? <==> pi.metadata.userId == 0 || CreditAmount(pi).None? || CreditAmount(pi).value == 0.0
    ensures c.Some? ==>
              && c.value.user == pi.metadata.userId
              && c.value.symbol == CreditSymbol(pi.metadata)
              && c.value.base == Split(c.value.symbol, '-')[0]
              && c.value.amountUsd == CreditAmount(pi).value
              && c.value.price == FillPrice(prices, c.value.symbol)
              && c.value.qty == Round8(c.value.amountUsd / c.value.price)
  {
    var meta := pi.metadata;
    var symbol := CreditSymbol(meta);
    var amount := CreditAmount(pi);
    if meta.userId == 0 || amount.None? || amount.value == 0.0 then None
    else
      var price := FillPrice(prices, symbol);
      Some(Credit(meta.userId, symbol, Split(symbol, '-')[0], price, Round8(amount.value / price), amount.value))
  }

  /** The writes of a credit: the BUY MARKET FILLED order, its trade, the wallet, the payment row. */
  function ApplyCredit(t: Tables, piId: string, c: Credit): Tables
  {
    var orderId := |t.orders| + 1;
    var t1 := t.(orders := t.orders + [Order(c.user, c.symbol, "BUY", "MARKET", c.qty, Some(c.price), FILLED)],
                 trades := t.trades + [Trade(orderId, c.user, c.symbol, c.price, c.qty)]);
    var t2 := Upsert(t1, c.user, c.base, c.qty);
    t2.(payments := t2.payments[piId := PaymentUpserted(t2.payments, piId, Payment(c.user, c.symbol, c.amountUsd, "succeeded"))])
  }

  /**
   * The tables after `creditUserForPaymentIntent(pi)`; `pi` is `None` when
   * no intent was given and `prices` is the pair price table at that moment.
   */
  function CreditOutcome(t: Tables, pi: Option<PaymentIntent>, prices: map<string, real>): (r: Tables)
    ensures t.processed <= r.processed
  {
    if pi.None? || pi.value.status != "succeeded" then t
    else if pi.value.id in t.processed then t
    else
      var t1 := t.(processed := t.processed + {pi.value.id});
      match PlanCredit(pi.value, prices)
      case None => t1
      case Some(c) => ApplyCredit(t1, pi.value.id, c)
  }

  /** Crediting keeps the schema: its trade refers to the order it inserts. */
  lemma CreditOutcomeWellFormed(t: Tables, pi: Option<PaymentIntent>, prices: map<string, real>)
    requires WellFormed(t)
    ensures WellFormed(CreditOutcome(t, pi, prices))
  {
    if pi.Some? && pi.value.status == "succeeded" && pi.value.id !in t.processed && PlanCredit(pi.value, prices).Some? {
      ApplyCreditWellFormed(t.(processed := t.processed + {pi.value.id}), pi.value.id, PlanCredit(pi.value, prices).value);
    }
  }

  lemma ApplyCreditWellFormed(t: Tables, piId: string, c: Credit)
    requires WellFormed(t)
    ensures WellFormed(ApplyCredit(t, piId, c))
  {
    var t1 := t.(orders := t.orders + [Order(c.user, c.symbol, "BUY", "MARKET", c.qty, Some(c.price), FILLED)],
                 trades := t.trades + [Trade(|t.orders| + 1, c.user, c.symbol, c.price, c.qty)]);
    RecordWellFormed(t, Order(c.user, c.symbol, "BUY", "MARKET", c.qty, Some(c.price), FILLED),
                     Trade(|t.orders| + 1, c.user, c.symbol, c.price, c.qty));
    UpsertWellFormed(t1, c.user, c.base, c.qty);
  }

  /** A missing intent, or one whose status is not exactly "succeeded", changes nothing. */
  lemma CreditNeedsSucceeded(t: Tables, pi: Option<PaymentIntent>, prices: map<string, real>)
    requires pi.None? || pi.value.status != "succeeded"
    ensures CreditOutcome(t, pi, prices) == t
  {
  }

  /**
   * Once an intent's id is in the guard set, crediting it again changes no
   * table at all, whatever the prices are by then.
   */
  lemma CreditGuarded(t: Tables, pi: PaymentIntent, prices: map<string, real>)
    requires pi.id in t.processed
    ensures CreditOutcome(t, Some(pi), prices) == t
  {
  }

  /**
   * Crediting is idempotent: the second delivery of the same intent (the
   * webhook and the client fallback both call the crediting) finds the guard
   * row and leaves the tables of the first.
   */
  lemma CreditIdempotent(t: Tables, pi: Option<PaymentIntent>, p1: map<string, real>, p2: map<string, real>)
    ensures CreditOutcome(CreditOutcome(t, pi, p1), pi, p2) == CreditOutcome(t, pi, p1)
  {
    if pi.Some? && pi.value.status == "succeeded" {
      var t' := CreditOutcome(t, pi, p1);
      assert pi.value.id in t'.processed;
    }
  }

  /**
   * The guard is consumed even when the metadata check fails: such an intent
   * adds its id to the guard set and changes nothing else, so no later
   * delivery of it can credit it either.
   */
  lemma GuardConsumedWithoutCredit(t: Tables, pi: PaymentIntent, prices: map<string, real>, later: map<string, real>)
    requires pi.status == "succeeded" && pi.id !in t.processed
    requires pi.metadata.userId == 0 || CreditAmount(pi).None? || CreditAmount(pi).value == 0.0
    ensures CreditOutcome(t, Some(pi), prices) == t.(processed := t.processed + {pi.id})
    ensures CreditOutcome(CreditOutcome(t, Some(pi), prices), Some(pi), later) == t.(processed := t.processed + {pi.id})
  {
  }

  /**
   * A credited intent: exactly one BUY MARKET FILLED order and one trade at
   * the fill price for the rounded quantity, the base-coin wallet of the
   * metadata user up by that quantity and no other balance moved, the guard
   * row added, and the payment row written as succeeded.
   */
  lemma CreditEffect(t: Tables, pi: PaymentIntent, prices: map<string, real>, v: int, s: string)
    requires WellFormed(t)
    requires pi.status == "succeeded" && pi.id !in t.processed
    requires PlanCredit(pi, prices).Some?
    ensures var c := PlanCredit(pi, prices).value;
            var t' := CreditOutcome(t, Some(pi), prices);
            && t'.orders == t.orders + [Order(c.user, c.symbol, "BUY", "MARKET", c.qty, Some(c.price), FILLED)]
            && t'.trades == t.trades + [Trade(|t.orders| + 1, c.user, c.symbol, c.price, c.qty)]
            && BalanceOf(t', v, s) == BalanceOf(t, v, s) + (if v == c.user && s == Upper(c.base) then c.qty else 0.0)
            && t'.processed == t.processed + {pi.id}
            && pi.id in t'.payments && t'.payments[pi.id].status == "succeeded"
            && t'.payments[pi.id].amountUsd == c.amountUsd
  {
    var c := PlanCredit(pi, prices).value;
    var t1 := t.(processed := t.processed + {pi.id});
    var t2 := t1.(orders := t1.orders + [Order(c.user, c.symbol, "BUY", "MARKET", c.qty, Some(c.price), FILLED)],
                  trades := t1.trades + [Trade(|t1.orders| + 1, c.user, c.symbol, c.price, c.qty)]);
    assert WellFormed(t2);
    assert BalanceOf(t2, v, s) == BalanceOf(t, v, s);
    UpsertEffect(t2, c.user, c.base, c.qty, v, s);
  }

  /** A sequence of deliveries handled one after another, each with the prices of its moment. */
  function CreditAll(t: Tables, deliveries: seq<(PaymentIntent, map<string, real>)>): (r: Tables)
    ensures t.processed <= r.processed
    decreases |deliveries|
  {
    if deliveries == [] then t
    else CreditAll(CreditOutcome(t, Some(deliveries[0].0), deliveries[0].1), deliveries[1..])
  }

  /** The ids of the intents among `deliveries`. */
  function DeliveredIds(deliveries: seq<(PaymentIntent, map<string, real>)>): set<string>
  {
    set i | 0 <= i < |deliveries| :: deliveries[i].0.id
  }

  /** One delivery adds at most one order, and only together with a new guard row. */
  lemma CreditStepCount(t: Tables, pi: PaymentIntent, prices: map<string, real>)
    ensures var r := CreditOutcome(t, Some(pi), prices);
            && r.processed <= t.processed + {pi.id}
            && |r.orders| <= |t.orders| + |r.processed| - |t.processed|
  {
    var r := CreditOutcome(t, Some(pi), prices);
    if r.processed != t.processed {
      assert pi.id !in t.processed && r.processed == t.processed + {pi.id};
      assert |r.processed| == |t.processed| + 1;
    }
  }

  /**
   * At most once per intent: however often and in whatever order intents are
   * delivered, the number of orders the crediting appends is at most the
   * number of distinct intent ids delivered that were not already processed.
   */
  lemma {:induction false} CreditAtMostOncePerIntent(t: Tables, deliveries: seq<(PaymentIntent, map<string, real>)>)
    ensures var r := CreditAll(t, deliveries);
            && r.processed <= t.processed + DeliveredIds(deliveries)
            && |r.orders| <= |t.orders| + |r.processed| - |t.processed|
    ensures |CreditAll(t, deliveries).orders| <= |t.orders| + |DeliveredIds(deliveries) - t.processed|
    decreases |deliveries|
  {
    var r := CreditAll(t, deliveries);
    if deliveries != [] {
      var (pi, prices) := deliveries[0];
      var t1 := CreditOutcome(t, Some(pi), prices);
      CreditStepCount(t, pi, prices);
      CreditAtMostOncePerIntent(t1, deliveries[1..]);
      DeliveredIdsCons(deliveries);
    }
    assert r.processed - t.processed <= DeliveredIds(deliveries) - t.processed;
    SubsetCard(r.processed - t.processed, DeliveredIds(deliveries) - t.processed);
    assert |r.processed - t.processed| == |r.processed| - |t.processed| by {
      assert r.processed == t.processed + (r.processed - t.processed);
    }
  }

  lemma DeliveredIdsCons(deliveries: seq<(PaymentIntent, map<string, real>)>)
    requires deliveries != []
    ensures DeliveredIds(deliveries) == {deliveries[0].0.id} + DeliveredIds(deliveries[1..])
  {
    forall x | x in DeliveredIds(deliveries)
      ensures x in {deliveries[0].0.id} + DeliveredIds(deliveries[1..])
    {
      var i :| 0 <= i < |deliveries| && deliveries[i].0.id == x;
      if i > 0 {
        assert deliveries[1..][i - 1] == deliveries[i];
      }
    }
    forall x | x in DeliveredIds(deliveries[1..])
      ensures x in DeliveredIds(deliveries)
    {
      var i :| 0 <= i < |deliveries[1..]| && deliveries[1..][i].0.id == x;
      assert deliveries[i + 1] == deliveries[1..][i];
    }
  }

  lemma SubsetCard<T>(a: set<T>, b: set<T>)
    requires a <= b
    ensures |a| <= |b|
  {
    assert b == a + (b - a);
  }

  /** Every redelivery of an intent already handled is a no-op. */
  lemma {:induction false} RedeliveriesAreNoOps(t: Tables, pi: PaymentIntent, prices: map<string, real>,
                                                later: seq<map<string, real>>)
    ensures CreditAll(CreditOutcome(t, Some(pi), prices), seq(|later|, i requires 0 <= i < |later| => (pi, later[i])))
            == CreditOutcome(t, Some(pi), prices)
    decreases |later|
  {
    var t1 := CreditOutcome(t, Some(pi), prices);
    var ds := seq(|later|, i requires 0 <= i < |later| => (pi, later[i]));
    if later != [] {
      CreditIdempotent(t, Some(pi), prices, later[0]);
      assert ds[1..] == seq(|later[1..]|, i requires 0 <= i < |later[1..]| => (pi, later[1..][i]));
      RedeliveriesAreNoOps(t, pi, prices, later[1..]);
    }
  }

  /** `creditUserForPaymentIntent(pi)`, statement by statement; receipt mail is left out. */
  method CreditUserForPaymentIntent(db: Db, pi: Option<PaymentIntent>, prices: map<string, real>)
    requires db.Valid()
    modifies db
    ensures db.Valid()
    ensures db.Snapshot() == CreditOutcome(old(db.Snapshot()), pi, prices)
  {
    if pi.None? || pi.value.status != "succeeded" {
      return;
    }
    var p := pi.value;
    var affectedRows := db.InsertGuard(p.id);
    if affectedRows == 0 {
      return;
    }
    ghost var t1 := db.Snapshot();
    var meta := p.metadata;
    var userId := meta.userId;
    var symbol := Upper(if meta.coin == "" then DefaultSymbol else meta.coin);
    var amountUsd := CreditAmount(p);
    if userId == 0 || symbol == "" || amountUsd.None? || amountUsd.value == 0.0 {
      return;
    }
    var last := SymbolPrice(prices, symbol);
    var lastPrice := if last != 0.0 then last else 1.0;
    var base := Split(symbol, '-')[0];
    var qty := Round8(amountUsd.value / lastPrice);
    var c := Credit(userId, symbol, base, lastPrice, qty, amountUsd.value);
    assert PlanCredit(p, prices) == Some(c);
    WriteCredit(db, p.id, c);
  }

  /** The four writes of a credit, in source order: order, trade, wallet, payment row. */
  method WriteCredit(db: Db, piId: string, c: Credit)
    requires db.Valid()
    modifies db
    ensures db.Valid()
    ensures db.Snapshot() == ApplyCredit(old(db.Snapshot()), piId, c)
  {
    ghost var t0 := db.Snapshot();
    var orderId := db.InsertOrder(Order(c.user, c.symbol, "BUY", "MARKET", c.qty, Some(c.price), FILLED));
    db.InsertTrade(Trade(orderId, c.user, c.symbol, c.price, c.qty));
    ghost var t2 := db.Snapshot();
    assert t2 == t0.(orders := t0.orders + [Order(c.user, c.symbol, "BUY", "MARKET", c.qty, Some(c.price), FILLED)],
                     trades := t0.trades + [Trade(|t0.orders| + 1, c.user, c.symbol, c.price, c.qty)]);
    db.UpsertWallet(c.user, c.base, c.qty);
    db.UpsertPayment(piId, Payment(c.user, c.symbol, c.amountUsd, "succeeded"));
  }
}
