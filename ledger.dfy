/**
 * The storage side of the settlement engine: the `assets`, `wallets`,
 * `orders`, `trades`, `payments_processed` and `payments` tables, the
 * asset registry and the create-or-increment wallet adjustment
 * (`upsertWallet`, written identically in Backend/routes/trades.js and
 * Backend/server.js), and the balance read `getBalances`.
 *
 * `Tables` is the value of all tables at one moment; the functions on it are
 * the specification. The class `Db` holds the same tables as fields and has
 * one method per SQL statement, each an atomic step.
 */
module Ledger {
  import opened Results
  import opened Text

  /** Primary key of a wallet row: (user_id, asset_id). */
  datatype WalletKey = WalletKey(user: int, asset: nat)

  datatype OrderStatus = NEW | FILLED | REJECTED

  /** A row of `orders`; its id is its position plus one (auto-increment). */
  datatype Order = Order(user: int, symbol: string, side: string, kind: string,
                         qty: real, price: Option<real>, status: OrderStatus)

  /** A row of `trades`, tied to the order whose id is `orderId`. */
  datatype Trade = Trade(orderId: nat, user: int, symbol: string, price: real, qty: real)

  /** A row of `payments`, keyed by payment-intent id. */
  datatype Payment = Payment(user: int, coin: string, amountUsd: real, status: string)

  /** One signed wallet adjustment of a settlement: `upsertWallet(user, asset, delta)`. */
  datatype Leg = Leg(asset: string, delta: real)

  datatype Tables = Tables(
    assets: map<string, nat>,
    nextAssetId: nat,
    wallets: map<WalletKey, real>,
    orders: seq<Order>,
    trades: seq<Trade>,
    processed: set<string>,
    payments: map<string, Payment>)

  const Empty: Tables := Tables(map[], 1, map[], [], [], {}, map[])

  /**
   * What the schema guarantees: asset ids are positive, below the next
   * auto-increment value and unique per symbol; wallet rows refer to
   * allocated asset ids; every trade refers to an existing order.
   */
  ghost predicate WellFormed(t: Tables)
  {
    && t.nextAssetId >= 1
    && (forall s :: s in t.assets ==> 1 <= t.assets[s] < t.nextAssetId)
    && (forall s, s' :: s in t.assets && s' in t.assets && s != s' ==> t.assets[s] != t.assets[s'])
    && (forall k :: k in t.wallets ==> k.asset < t.nextAssetId)
    && (forall i :: 0 <= i < |t.trades| ==> 1 <= t.trades[i].orderId <= |t.orders|)
  }

  lemma EmptyWellFormed()
    ensures WellFormed(Empty)
  {
  }

  /** Appending an order, and a trade of an order that exists afterwards, keeps the schema. */
  lemma RecordWellFormed(t: Tables, o: Order, tr: Trade)
    requires WellFormed(t)
    requires 1 <= tr.orderId <= |t.orders| + 1
    ensures WellFormed(t.(orders := t.orders + [o], trades := t.trades + [tr]))
  {
  }

  /** Appending an order alone keeps the schema. */
  lemma RecordWellFormedOrder(t: Tables, o: Order)
    requires WellFormed(t)
    ensures WellFormed(t.(orders := t.orders + [o]))
  {
  }

  // ---------------------------------------------------------------- registry

  /**
   * `INSERT INTO assets(symbol) ... ON DUPLICATE KEY UPDATE id = LAST_INSERT_ID(id)`
   * followed by `insertId`: the id of `sym`, registering it first when new.
   */
  function GetOrCreateAsset(t: Tables, sym: string): (r: (Tables, nat))
    ensures sym in r.0.assets && r.0.assets[sym] == r.1
    ensures r.0.assets.Keys == t.assets.Keys + {sym}
    ensures forall s :: s in t.assets ==> r.0.assets[s] == t.assets[s]
    ensures sym in t.assets ==> r.0 == t
    ensures sym !in t.assets ==> r.1 == t.nextAssetId && r.0.nextAssetId == t.nextAssetId + 1
    ensures r.0.wallets == t.wallets && r.0.orders == t.orders && r.0.trades == t.trades
    ensures r.0.processed == t.processed && r.0.payments == t.payments
  {
    if sym in t.assets then (t, t.assets[sym])
    else (t.(assets := t.assets[sym := t.nextAssetId], nextAssetId := t.nextAssetId + 1), t.nextAssetId)
  }

  /** Asking twice for the same symbol gives the same id and changes nothing the second time. */
  lemma GetOrCreateAssetIdempotent(t: Tables, sym: string)
    ensures var (t1, id1) := GetOrCreateAsset(t, sym);
            GetOrCreateAsset(t1, sym) == (t1, id1)
  {
  }

  /** A newly registered symbol gets an id that no other symbol has. */
  lemma GetOrCreateAssetFresh(t: Tables, sym: string, other: string)
    requires WellFormed(t)
    requires other in t.assets && other != sym
    ensures GetOrCreateAsset(t, sym).1 != t.assets[other]
  {
  }

  /** Registering a symbol keeps ids positive, below the next id and distinct. */
  lemma GetOrCreateAssetWellFormed(t: Tables, sym: string)
    requires WellFormed(t)
    ensures WellFormed(GetOrCreateAsset(t, sym).0)
  {
  }

  // ------------------------------------------------------------------ wallets

  /**
   * `INSERT INTO wallets ... ON DUPLICATE KEY UPDATE balance = balance + VALUES(balance)`:
   * create the row with `d`, or add `d` to it.
   */
  function Adjust(w: map<WalletKey, real>, k: WalletKey, d: real): (r: map<WalletKey, real>)
    ensures r.Keys == w.Keys + {k}
    ensures r[k] == (if k in w then w[k] else 0.0) + d
    ensures forall k' :: k' in w && k' != k ==> r[k'] == w[k']
  {
    if k in w then w[k := w[k] + d] else w[k := d]
  }

  /** `upsertWallet(user, asset, delta)`: register the upper-cased symbol, then adjust. */
  function Upsert(t: Tables, user: int, asset: string, delta: real): (r: Tables)
    ensures r.orders == t.orders && r.trades == t.trades
    ensures r.processed == t.processed && r.payments == t.payments
    ensures Upper(asset) in r.assets
    ensures forall s :: s in t.assets ==> s in r.assets && r.assets[s] == t.assets[s]
  {
    var (t1, id) := GetOrCreateAsset(t, Upper(asset));
    t1.(wallets := Adjust(t1.wallets, WalletKey(user, id), delta))
  }

  /** The adjusted row refers to the id just registered, so the schema still holds. */
  lemma UpsertWellFormed(t: Tables, user: int, asset: string, delta: real)
    requires WellFormed(t)
    ensures WellFormed(Upsert(t, user, asset, delta))
  {
    GetOrCreateAssetWellFormed(t, Upper(asset));
  }

  /** True when `user` has a wallet row for the asset called `sym`. */
  predicate HasWallet(t: Tables, user: int, sym: string)
  {
    sym in t.assets && WalletKey(user, t.assets[sym]) in t.wallets
  }

  /** The balance of `user` in `sym`; a missing row reads as 0. */
  function BalanceOf(t: Tables, user: int, sym: string): real
  {
    if HasWallet(t, user, sym) then t.wallets[WalletKey(user, t.assets[sym])] else 0.0
  }

  /**
   * `upsertWallet` moves exactly one balance, that of (user, upper-cased
   * asset), by exactly `delta` (a missing row counts as 0, so a new row holds
   * `delta`), and creates exactly that row if it was missing.
   */
  lemma UpsertEffect(t: Tables, user: int, asset: string, delta: real, v: int, s: string)
    requires WellFormed(t)
    ensures BalanceOf(Upsert(t, user, asset, delta), v, s)
            == BalanceOf(t, v, s) + (if v == user && s == Upper(asset) then delta else 0.0)
    ensures HasWallet(Upsert(t, user, asset, delta), v, s)
            == (HasWallet(t, v, s) || (v == user && s == Upper(asset)))
  {
    var sym := Upper(asset);
    var (t1, id) := GetOrCreateAsset(t, sym);
    var r := Upsert(t, user, asset, delta);
    GetOrCreateAssetWellFormed(t, sym);
    assert r.assets == t1.assets;
    if s in t.assets && s != sym {
      assert t1.assets[s] != id;
    }
    if s == sym && sym !in t.assets {
      assert WalletKey(v, id) !in t.wallets;
    }
  }

  /** The legs of a settlement applied in order, one `upsertWallet` each. */
  function ApplyLegs(t: Tables, user: int, legs: seq<Leg>): (r: Tables)
    ensures r.orders == t.orders && r.trades == t.trades
    ensures r.processed == t.processed && r.payments == t.payments
    decreases |legs|
  {
    if legs == [] then t
    else ApplyLegs(Upsert(t, user, legs[0].asset, legs[0].delta), user, legs[1..])
  }

  lemma {:induction false} ApplyLegsWellFormed(t: Tables, user: int, legs: seq<Leg>)
    requires WellFormed(t)
    ensures WellFormed(ApplyLegs(t, user, legs))
    decreases |legs|
  {
    if legs != [] {
      UpsertWellFormed(t, user, legs[0].asset, legs[0].delta);
      ApplyLegsWellFormed(Upsert(t, user, legs[0].asset, legs[0].delta), user, legs[1..]);
    }
  }

  /** Sum of the deltas of `legs` that land on the asset called `sym`. */
  function NetDelta(legs: seq<Leg>, sym: string): real
    decreases |legs|
  {
    if legs == [] then 0.0
    else (if Upper(legs[0].asset) == sym then legs[0].delta else 0.0) + NetDelta(legs[1..], sym)
  }

  /**
   * After any sequence of adjustments each balance is its old value plus the
   * sum of the deltas aimed at it: nothing is lost, nothing else moves.
   */
  lemma {:induction false} ApplyLegsEffect(t: Tables, user: int, legs: seq<Leg>, v: int, s: string)
    requires WellFormed(t)
    ensures BalanceOf(ApplyLegs(t, user, legs), v, s)
            == BalanceOf(t, v, s) + (if v == user then NetDelta(legs, s) else 0.0)
    decreases |legs|
  {
    if legs != [] {
      var t1 := Upsert(t, user, legs[0].asset, legs[0].delta);
      UpsertEffect(t, user, legs[0].asset, legs[0].delta, v, s);
      UpsertWellFormed(t, user, legs[0].asset, legs[0].delta);
      ApplyLegsEffect(t1, user, legs[1..], v, s);
    }
  }

  lemma {:induction false} NetDeltaAppend(a: seq<Leg>, b: seq<Leg>, sym: string)
    ensures NetDelta(a + b, sym) == NetDelta(a, sym) + NetDelta(b, sym)
    decreases |a|
  {
    if a == [] {
      assert a + b == b;
    } else {
      assert (a + b)[1..] == a[1..] + b;
      NetDeltaAppend(a[1..], b, sym);
    }
  }

  /**
   * Two batches of adjustments reach the same balances whichever arrives
   * first: the ledger is additive, so the final balance is the sum of all
   * deltas regardless of order.
   */
  lemma ApplyLegsCommute(t: Tables, user: int, a: seq<Leg>, b: seq<Leg>, v: int, s: string)
    requires WellFormed(t)
    ensures BalanceOf(ApplyLegs(t, user, a + b), v, s) == BalanceOf(ApplyLegs(t, user, b + a), v, s)
  {
    ApplyLegsEffect(t, user, a + b, v, s);
    ApplyLegsEffect(t, user, b + a, v, s);
    NetDeltaAppend(a, b, s);
    NetDeltaAppend(b, a, s);
  }

  /** From empty tables, every balance is exactly the sum of the deltas ever applied to it. */
  lemma BalanceIsSumOfDeltas(user: int, legs: seq<Leg>, s: string)
    ensures BalanceOf(ApplyLegs(Empty, user, legs), user, s) == NetDelta(legs, s)
  {
    ApplyLegsEffect(Empty, user, legs, user, s);
  }

  // ----------------------------------------------------------------- balances

  /** The rows of the `wallets JOIN assets` query for one user, keyed by symbol. */
  function UserRows(t: Tables, user: int): map<string, real>
  {
    map s | s in t.assets && WalletKey(user, t.assets[s]) in t.wallets :: t.wallets[WalletKey(user, t.assets[s])]
  }

  /**
   * What `getBalances(user)` returns: one entry per wallet row of the user,
   * plus a `USD` entry that is 0 when the user has no USD row.
   */
  function BalancesView(t: Tables, user: int): map<string, real>
  {
    var rows := UserRows(t, user);
    if "USD" in rows then rows else rows["USD" := 0.0]
  }

  /**
   * The view always has a `USD` entry, has an entry for exactly the coins the
   * user holds a wallet in besides, and each entry is that wallet's balance.
   */
  lemma BalancesViewEntries(t: Tables, user: int)
    ensures "USD" in BalancesView(t, user)
    ensures forall s :: s in BalancesView(t, user) <==> s == "USD" || HasWallet(t, user, s)
    ensures forall s :: s in BalancesView(t, user) ==> BalancesView(t, user)[s] == BalanceOf(t, user, s)
  {
  }

  /** `bals[k] || 0`: an absent entry reads as 0. */
  function Lookup(bals: map<string, real>, k: string): real
  {
    if k in bals then bals[k] else 0.0
  }

  lemma LookupBalances(t: Tables, user: int, s: string)
    ensures Lookup(BalancesView(t, user), s) == BalanceOf(t, user, s)
  {
    BalancesViewEntries(t, user);
  }

  // ---------------------------------------------------------------- the store

  class Db {
    var assets: map<string, nat>
    var nextAssetId: nat
    var wallets: map<WalletKey, real>
    var orders: seq<Order>
    var trades: seq<Trade>
    var processed: set<string>
    var payments: map<string, Payment>

    function Snapshot(): Tables
      reads this
    {
      Tables(assets, nextAssetId, wallets, orders, trades, processed, payments)
    }

    ghost predicate Valid()
      reads this
    {
      WellFormed(Snapshot())
    }

    constructor ()
      ensures Snapshot() == Empty && Valid()
    {
      assets, nextAssetId, wallets := map[], 1, map[];
      orders, trades, processed, payments := [], [], {}, map[];
    }

    /** The asset statement: get or create the id of `sym` in one step. */
    method GetOrCreateAssetId(sym: string) returns (id: nat)
      modifies this
      ensures (Snapshot(), id) == GetOrCreateAsset(old(Snapshot()), sym)
    {
      if sym !in assets {
        assets := assets[sym := nextAssetId];
        nextAssetId := nextAssetId + 1;
      }
      id := assets[sym];
    }

    /** The wallet statement: create-or-increment one row in one step. */
    method AddToWallet(user: int, assetId: nat, delta: real)
      modifies this
      ensures Snapshot() == old(Snapshot()).(wallets := Adjust(old(wallets), WalletKey(user, assetId), delta))
    {
      var key := WalletKey(user, assetId);
      if key in wallets {
        wallets := wallets[key := wallets[key] + delta];
      } else {
        wallets := wallets[key := delta];
      }
    }

    /** `upsertWallet(userId, asset, delta)`. */
    method UpsertWallet(user: int, asset: string, delta: real)
      requires Valid()
      modifies this
      ensures Valid()
      ensures Snapshot() == Upsert(old(Snapshot()), user, asset, delta)
    {
      var sym := Upper(asset);
      GetOrCreateAssetWellFormed(Snapshot(), sym);
      var assetId := GetOrCreateAssetId(sym);
      AddToWallet(user, assetId, delta);
    }

    /**
     * `getBalances(userId)`: walk the user's joined wallet rows (in whatever
     * order the query yields them) into a map, then default `USD` to 0.
     */
    method GetBalances(user: int) returns (out: map<string, real>)
      ensures out == BalancesView(Snapshot(), user)
    {
      out := map[];
      var pending := assets.Keys;
      while pending != {}
        invariant pending <= assets.Keys
        invariant forall s :: s in out <==> s in assets && s !in pending && WalletKey(user, assets[s]) in wallets
        invariant forall s :: s in out ==> out[s] == wallets[WalletKey(user, assets[s])]
        decreases pending
      {
        var s :| s in pending;
        var key := WalletKey(user, assets[s]);
        if key in wallets {
          out := out[s := wallets[key]];
        }
        pending := pending - {s};
      }
      if "USD" !in out {
        out := out["USD" := 0.0];
      }
      var view := BalancesView(Snapshot(), user);
      BalancesViewEntries(Snapshot(), user);
      assert out.Keys == view.Keys;
    }

    /** `INSERT INTO orders ...`; the new id is the auto-increment value. */
    method InsertOrder(o: Order) returns (id: nat)
      requires Valid()
      modifies this
      ensures Valid()
      ensures Snapshot() == old(Snapshot()).(orders := old(orders) + [o])
      ensures id == |orders|
    {
      orders := orders + [o];
      id := |orders|;
    }

    /** `INSERT INTO trades ...`; the foreign key demands an existing order. */
    method InsertTrade(tr: Trade)
      requires Valid()
      requires 1 <= tr.orderId <= |orders|
      modifies this
      ensures Valid()
      ensures Snapshot() == old(Snapshot()).(trades := old(trades) + [tr])
    {
      trades := trades + [tr];
    }

    /** `UPDATE orders SET status=? WHERE id=?`; no row matches an unknown id. */
    method SetOrderStatus(id: nat, status: OrderStatus)
      requires Valid()
      modifies this
      ensures Valid()
      ensures 1 <= id <= |old(orders)| ==>
                Snapshot() == old(Snapshot()).(orders := old(orders)[id - 1 := old(orders)[id - 1].(status := status)])
      ensures !(1 <= id <= |old(orders)|) ==> Snapshot() == old(Snapshot())
    {
      if 1 <= id <= |orders| {
        orders := orders[id - 1 := orders[id - 1].(status := status)];
      }
    }

    /** `INSERT IGNORE INTO payments_processed`: 1 affected row when new, 0 when present. */
    method InsertGuard(piId: string) returns (affectedRows: nat)
      requires Valid()
      modifies this
      ensures Valid()
      ensures affectedRows == (if piId in old(processed) then 0 else 1)
      ensures Snapshot() == old(Snapshot()).(processed := old(processed) + {piId})
    {
      if piId in processed {
        affectedRows := 0;
      } else {
        processed := processed + {piId};
        affectedRows := 1;
      }
    }

    /** `INSERT INTO payments ... ON DUPLICATE KEY UPDATE status, amount_usd`. */
    method UpsertPayment(piId: string, p: Payment)
      requires Valid()
      modifies this
      ensures Valid()
      ensures Snapshot() == old(Snapshot()).(payments := old(payments)[piId := PaymentUpserted(old(payments), piId, p)])
    {
      payments := payments[piId := PaymentUpserted(payments, piId, p)];
    }
  }

  /** The row after the payments upsert: an existing row keeps its user and coin. */
  function PaymentUpserted(payments: map<string, Payment>, piId: string, p: Payment): Payment
  {
    if piId in payments then payments[piId].(status := p.status, amountUsd := p.amountUsd) else p
  }
}
