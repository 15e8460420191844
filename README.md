# CryptoTradingX wallet ledger and settlement engine, in Dafny

This project models the part of the CryptoTradingX backend that moves money.

- **Asset registry and wallet ledger.** The registry maps an upper-cased symbol to an id and reuses the existing id. The ledger keeps one balance per (user, asset). It changes a balance only through the additive "create-or-increment" `upsertWallet`, which appears twice, identically, in `Backend/routes/trades.js` and `Backend/server.js`.
- **Order and trade tables.** Both are append-only. An order's status is updated in place.
- **The four settlement handlers:**
  - spot buy or sell against USD, with a 10 bps fee and a 1e-12 sufficiency tolerance;
  - the coin-to-coin exchange, with its slippage guard;
  - the older simulated-fill order endpoint `POST /api/orders`;
  - the idempotent payment-intent crediting `creditUserForPaymentIntent`, guarded by the `payments_processed` set.
- **The email-verification state machine** behind register and verify: attempts, expiry, and deletion on success.
- **The HTML escaper and the layout wrapper** of the mail templates.

Structure:

- The database is the class `Ledger.Db`. Its fields are the tables, and each SQL statement is one method.
- Each handler is a method that performs the source's statements in order. Each method is proved to produce the same snapshot and answer as a pure `...Outcome` function on the `Ledger.Tables` value.
- The lemmas state what those outcomes mean: balance deltas, records appended, rejections that change nothing, at-most-once crediting, and bounded guessing.
- Balances and prices are `real`. `BalanceOf(t, user, sym)` reads 0 where there is no wallet row, as the handlers do with `Number(bals[x] || 0)`.

JavaScript's falsy values are encoded as follows:

- a missing or empty string field is `""`;
- a missing or zero number field is `0`;
- a value that `Number()` turns into NaN is `None` or `NotANumber`.

## Model

| member | source | states |
|---|---|---|
| Text.Upper | Backend/routes/trades.js:73 | `toUpperCase` keeps the length and upper-cases each character |
| Text.UpperIdempotent | Backend/server.js:420 | upper-casing twice is upper-casing once, and no lower-case letter survives |
| Text.Split | Backend/routes/trades.js:110 | `split('-')` yields at least one piece, and no piece contains the separator |
| Text.JoinSplit | Backend/routes/trades.js:110 | joining the pieces of `split` with the separator gives back the string |
| Text.SplitHead | Backend/server.js:500 | the first piece is the text before the first separator |
| Text.SplitUpperIsUpper | Backend/routes/trades.js:110 | every piece of an upper-cased symbol is already upper-case, so the base coin is stored under its own name |
| Prices.MidUsd | Backend/routes/trades.js:11-12 | the mid is non-negative, and positive exactly for an upper-cased symbol in the table {BTC, ETH, SOL, USDT, USD} |
| Prices.Fee | Backend/routes/trades.js:8-13 | the fee is 10 basis points: fee·1000 = amount, and 0 < fee < amount for a positive amount |
| Prices.SymbolPrice | Backend/server.js:537-538 | the price of an exact pair symbol, and 0 for a pair not in the table |
| Prices.Round8Error | Backend/server.js:501 | `+x.toFixed(8)` moves a value by at most 5e-9 and keeps its sign |
| Ledger.GetOrCreateAsset | Backend/server.js:423-428 | the symbol is registered with the id returned; an already registered symbol keeps its id and nothing changes; a new one takes the next id; no other table changes |
| Ledger.GetOrCreateAssetIdempotent | Backend/routes/trades.js:74-79 | registering the same symbol a second time returns the same id and changes nothing |
| Ledger.GetOrCreateAssetFresh | Backend/routes/trades.js:74-79 | the id of a symbol never collides with the id of a different registered symbol |
| Ledger.Adjust | Backend/routes/trades.js:80-85 | the wallet row becomes old+delta, or delta when absent; every other row is unchanged |
| Ledger.UpsertEffect | Backend/routes/trades.js:72-86 | `upsertWallet(u, a, d)` adds d to the (u, upper(a)) balance and leaves every other (user, asset) balance unchanged; only that wallet row can appear |
| Ledger.Upsert | Backend/server.js:419-437 | orders, trades and payment tables are untouched, the upper-cased asset is registered, and existing ids are kept |
| Ledger.GetOrCreateAssetWellFormed | Backend/routes/trades.js:74-79 | registering a symbol keeps ids positive, below the next id and distinct |
| Ledger.UpsertWellFormed | Backend/routes/trades.js:72-86 | `upsertWallet` keeps the schema: the row it adjusts refers to an allocated asset id |
| Ledger.RecordWellFormed | Backend/server.js:249-267 | appending an order, and a trade of an order that exists afterwards, keeps every trade pointing at an existing order |
| Ledger.RecordWellFormedOrder | Backend/server.js:249-254 | appending an order alone keeps the schema |
| Ledger.ApplyLegsWellFormed | Backend/routes/trades.js:134-139 | any sequence of upserts keeps the schema |
| Ledger.ApplyLegsEffect | Backend/routes/trades.js:134-139 | applying a list of upserts moves each of the user's balances by the sum of the deltas on that asset |
| Ledger.NetDeltaAppend | Backend/routes/trades.js:134-139 | the sum of deltas over two lists of legs is the sum of the two sums |
| Ledger.ApplyLegsCommute | Backend/routes/trades.js:134-139 | the order of upserts does not matter to any balance |
| Ledger.BalanceIsSumOfDeltas | Backend/routes/trades.js:80-85 | from an empty ledger, a balance is the sum of every delta applied to that (user, asset) |
| Ledger.BalancesViewEntries | Backend/routes/trades.js:60-69 | `getBalances` always has USD; its other keys are exactly the user's wallet rows; each value is that balance, and USD is 0 without a row |
| Ledger.LookupBalances | Backend/routes/trades.js:128-129 | `Number(bals[x] \|\| 0)` on the balances read is the stored balance, or 0 |
| Ledger.EmptyWellFormed | Backend/routes/trades.js:16-55 | the empty tables are well formed |
| Ledger.Db.constructor | Backend/routes/trades.js:16-55 | a fresh store is empty and valid |
| Ledger.Db.GetOrCreateAssetId | Backend/routes/trades.js:74-79 | the `INSERT ... ON DUPLICATE KEY UPDATE id = LAST_INSERT_ID(id)` statement, equal to `GetOrCreateAsset` |
| Ledger.Db.AddToWallet | Backend/routes/trades.js:80-85 | the create-or-increment wallet statement, equal to `Adjust` on the wallet table |
| Ledger.Db.UpsertWallet | Backend/server.js:419-437 | the two statements in order leave exactly the `Upsert` snapshot |
| Ledger.Db.GetBalances | Backend/routes/trades.js:60-69 | the `forEach` loop over the user's rows returns exactly `BalancesView` |
| Ledger.Db.InsertOrder | Backend/server.js:249-254 | appends the order row and returns its 1-based auto-increment id |
| Ledger.Db.InsertTrade | Backend/server.js:263-267 | appends the trade row for an existing order |
| Ledger.Db.SetOrderStatus | Backend/server.js:268 | updates the status of that order only; an unknown id changes nothing |
| Ledger.Db.InsertGuard | Backend/server.js:482-487 | `INSERT IGNORE` adds the intent id to the guard set and reports one affected row exactly when it was new |
| Ledger.Db.UpsertPayment | Backend/server.js:518-523 | inserts the payment row, or sets status and amount on an existing one |
| Trades.PairParts | Backend/routes/trades.js:110 | the upper-cased symbol split on `-` has at least a base |
| Trades.QuoteSpotChecks | Backend/routes/trades.js:108-124 | rejected exactly on a missing field, a non-USD quote, qty ≤ 0 or no mid; otherwise the price is the positive LIMIT price or the mid, notional = qty·price and fee = notional/1000 |
| Trades.SpotChecks | Backend/routes/trades.js:108-124 | the handler's statements before the balance read give exactly `QuoteSpot`'s verdict and quote |
| Trades.SettleSpot | Backend/routes/trades.js:134-151 | a settlement appends exactly one order and one trade |
| Trades.SettleSpotWellFormed | Backend/routes/trades.js:134-151 | a settlement keeps the schema: its trade refers to the order inserted just before it |
| Trades.SpotOutcome | Backend/routes/trades.js:104-168 | a rejected spot order changes nothing |
| Trades.SpotOutcomeWellFormed | Backend/routes/trades.js:104-168 | whatever the answer, a spot request leaves well-formed tables well-formed |
| Trades.SpotRejectsBeforeBalances | Backend/routes/trades.js:108-117 | a request failing a pre-balance check is rejected with that error whatever the balances, and the tables are unchanged |
| Trades.SpotBuyAccepted | Backend/routes/trades.js:131-133 | a BUY is accepted exactly when USD + 1e-12 ≥ notional + fee |
| Trades.SpotFillLegs | Backend/routes/trades.js:131-139 | an accepted BUY's legs are USD −(notional + fee) then base +qty; a SELL's are base −qty then USD +(notional − fee) |
| Trades.SpotSettlement | Backend/routes/trades.js:127-151 | an accepted spot order passed the quote checks, its base is already upper-case, and its tables are the settlement of its side's two legs |
| Trades.SpotRecords | Backend/routes/trades.js:141-151 | an accepted spot order appends one FILLED order and its trade, of the quote's size and price |
| Trades.SettleBuyEffect | Backend/routes/trades.js:131-135 | the two BUY legs move USD by −(notional + fee) and the base by +qty, and no other balance |
| Trades.SettleSellEffect | Backend/routes/trades.js:136-139 | the two SELL legs move the base by −qty and USD by notional − fee, and no other balance |
| Trades.SpotBuyBalances | Backend/routes/trades.js:131-135 | the balances after an accepted BUY |
| Trades.SpotSellBalances | Backend/routes/trades.js:136-139 | the balances after an accepted SELL |
| Trades.SpotBuySettles | Backend/routes/trades.js:131-151 | an accepted BUY debits USD by notional + fee and credits the base by qty, touches no other balance, and appends one FILLED order and one trade of that qty and price |
| Trades.SpotSellAccepted | Backend/routes/trades.js:136-137 | a SELL (any side other than BUY) is accepted exactly when base + 1e-12 ≥ qty |
| Trades.SpotSellSettles | Backend/routes/trades.js:136-151 | an accepted SELL debits the base by qty and credits USD by notional − fee, touches no other balance, and appends one FILLED order and one trade |
| Trades.SpotDebitWithinTolerance | Backend/routes/trades.js:131-137 | after an accepted order, the debited balance is at least −1e-12 |
| Trades.SpotOutcomeIsSettlement | Backend/routes/trades.js:127-151 | an accepted spot order is the settlement of the plan made from the balances read |
| Trades.SettleTwoLegs | Backend/routes/trades.js:134-151 | two upserts plus the order and trade rows: each balance moves by its legs, and the records are appended |
| Trades.UpsertTwoLegs | Backend/routes/trades.js:134-135 | two successive `upsertWallet` calls leave the `ApplyLegs` snapshot |
| Trades.WriteSpotFill | Backend/routes/trades.js:134-151 | the wallet, order and trade writes leave the `SettleSpot` snapshot and return the new order id |
| Trades.Spot | Backend/routes/trades.js:104-168 | the handler, statement by statement, leaves the snapshot and answer of `SpotOutcome` |
| Trades.QuoteExchange | Backend/routes/trades.js:185-196 | the quote carries the request's assets and amount and both mids |
| Trades.SlippageGuardOnlyRejectsNegative | Backend/routes/trades.js:196-199 | for a request passing the other checks, the guard rejects exactly when `maxSlippagePct` is negative or not a number, and it is the only possible rejection |
| Trades.ExchangeChargesOneFee | Backend/routes/trades.js:187-195 | for a positive amount at positive mids, which is what an accepted plan quotes: receive·pTo = amount·pFrom·999/1000, fee·1000 = amount·pFrom, and receive > 0 |
| Trades.PlanExchangeAccepted | Backend/routes/trades.js:179-199 | an accepted exchange passed every check in order, and its fill is the quote at the mids |
| Trades.ExchangeSettles | Backend/routes/trades.js:201-214 | an accepted exchange debits `from` by the amount and credits `to` by receive, touches no other balance, and records one BUY MARKET FILLED order and trade of `to` only |
| Trades.SettleExchangeEffect | Backend/routes/trades.js:201-214 | the same effect stated for any fill |
| Trades.ExchangeRejectionChangesNothing | Backend/routes/trades.js:179-199 | a rejected exchange changes no table and answers with the check's error |
| Trades.SettleExchange | Backend/routes/trades.js:201-214 | an exchange settlement appends exactly one order and one trade |
| Trades.SettleExchangeWellFormed | Backend/routes/trades.js:201-214 | an exchange settlement keeps the schema |
| Trades.ExchangeOutcome | Backend/routes/trades.js:175-228 | the handler as written never answers with success |
| Trades.ExchangeOutcomeWellFormed | Backend/routes/trades.js:175-228 | whatever the answer, an exchange leaves well-formed tables well-formed |
| Trades.ExchangeFailsAfterWriting | Backend/routes/trades.js:216-226 | an accepted exchange has already written its rows when the answer throws on `minReceived`, and it is answered with a 500 |
| Trades.ExchangeIntendedAnswers | Backend/routes/trades.js:216-224 | the intended handler makes the same writes and answers exactly when the plan succeeds, with received = receive, minReceived ≤ received and rate = pFrom/pTo |
| Trades.WriteExchangeFill | Backend/routes/trades.js:201-214 | the two upserts, the order and the trade leave the `SettleExchange` snapshot |
| Trades.Exchange | Backend/routes/trades.js:175-228 | the handler, statement by statement, leaves the snapshot and answer of `ExchangeOutcome` |
| Orders.StoredPrice | Backend/server.js:252 | `price \|\| null` stores a price exactly when it is present and non-zero |
| Orders.BaseOf | Backend/server.js:270 | the base coin contains no `-` |
| Orders.FilledRowsAppend | Backend/server.js:249-268 | inserting the order NEW, adding its trade and then marking it FILLED leaves the same rows as appending a FILLED order and its trade |
| Orders.PlaceOrderOutcome | Backend/server.js:245-274 | rejected exactly when a field is missing, changing nothing; otherwise the id is the next order id |
| Orders.PlaceOrderOutcomeWellFormed | Backend/server.js:245-274 | an order, filled or not, keeps the schema: the fill's trade refers to the order just inserted |
| Orders.PlaceOrderStatus | Backend/server.js:256-273 | an order with all fields is answered FILLED exactly when the fill rule holds at the last price, and NEW otherwise |
| Orders.FillRule | Backend/server.js:257-260 | MARKET always fills; a BUY fills iff last ≤ price; a SELL fills iff last ≥ price; otherwise a non-MARKET order never fills |
| Orders.PlaceOrderRecords | Backend/server.js:249-268 | one order row with the request's fields, FILLED with one trade at the last price when it fills, NEW with no trade otherwise |
| Orders.PlaceOrderBalances | Backend/server.js:270-271 | only the caller's base-coin balance moves, by +qty for BUY and −qty otherwise, and only on a fill |
| Orders.PlaceOrderNoUsdLeg | Backend/server.js:270-271 | a fill has no USD leg |
| Orders.MarketSellOverdraws | Backend/server.js:257-271 | no balance is checked: a MARKET sell from an empty wallet fills and leaves it at −qty |
| Orders.PlaceOrder | Backend/server.js:245-274 | the handler, statement by statement, leaves the snapshot and answer of `PlaceOrderOutcome` |
| Payments.CreditSymbol | Backend/server.js:495 | the credited symbol is never empty and holds no lower-case letter, so upper-casing it again changes nothing |
| Payments.CreditAmount | Backend/server.js:496 | the metadata amount, or `pi.amount/100` when absent; NaN when it does not parse |
| Payments.FillPrice | Backend/server.js:499 | the pair price, or 1 when the pair is unknown; never 0 |
| Payments.PlanCredit | Backend/server.js:493-501 | nothing is credited exactly when the user id or amount is falsy; otherwise the symbol defaults to BTC-USD upper-cased, the base is the text before `-`, and qty = round8(amount/price) |
| Payments.CreditOutcome | Backend/server.js:478-534 | the guard set only grows |
| Payments.ApplyCreditWellFormed | Backend/server.js:503-523 | the four writes of a credit keep the schema |
| Payments.CreditOutcomeWellFormed | Backend/server.js:478-523 | crediting, credited or not, leaves well-formed tables well-formed |
| Payments.CreditNeedsSucceeded | Backend/server.js:479 | a missing intent, or one not `succeeded`, changes nothing |
| Payments.CreditGuarded | Backend/server.js:482-490 | an intent already in the guard set changes nothing |
| Payments.CreditIdempotent | Backend/server.js:482-490 | crediting the same intent twice, at any prices, equals crediting it once |
| Payments.GuardConsumedWithoutCredit | Backend/server.js:482-497 | an intent failing the metadata check is marked processed with no other change, and can never be credited later |
| Payments.CreditEffect | Backend/server.js:499-523 | a first credit appends one BUY MARKET FILLED order and one trade of qty at the price, adds qty to the user's base balance only, marks the intent, and records the payment as succeeded with the amount |
| Payments.CreditStepCount | Backend/server.js:482-516 | one call adds at most its intent id to the guard set, and at most one order per new guard row |
| Payments.CreditAll | Backend/server.js:64-65 | any sequence of deliveries (the webhook here, and the fulfil route at line 315) only grows the guard set |
| Payments.CreditAtMostOncePerIntent | Backend/server.js:482-516 | over any sequence of deliveries, orders grow by at most the number of distinct new intent ids |
| Payments.RedeliveriesAreNoOps | Backend/server.js:487-490 | after an intent is handled, any number of redeliveries at any prices change nothing |
| Payments.WriteCredit | Backend/server.js:503-523 | the order, trade, wallet and payment writes, in order, leave the `ApplyCredit` snapshot |
| Payments.CreditUserForPaymentIntent | Backend/server.js:478-523 | the function, statement by statement, leaves the `CreditOutcome` snapshot |
| EmailVerification.Status | Backend/server.js:137-180 | every rejection is a 4xx status |
| EmailVerification.RegisterOutcome | Backend/server.js:134-155 | rejected exactly when a field is missing or the email exists (409), changing nothing; well-formedness is preserved |
| EmailVerification.RegisterCreatesRecord | Backend/server.js:142-155 | a registration takes the next user id, keeps every other user, and upserts the record with the code, now + 10 minutes and 0 attempts |
| EmailVerification.VerifyOutcome | Backend/server.js:164-188 | users are never changed, records are only updated or removed, and well-formedness is preserved |
| EmailVerification.VerifyCases | Backend/server.js:172-182 | with a record: ≥ 10 attempts is 429 and expired is 410, both unchanged; a wrong code is 401 with attempts + 1; the right code succeeds and deletes the record |
| EmailVerification.VerifyWithoutRecord | Backend/server.js:167-173 | a missing field, an unknown user or no record is rejected with no change |
| EmailVerification.WrongCodeCountsOnce | Backend/server.js:178-180 | a wrong code increments that user's attempts by exactly 1 and changes no other record |
| EmailVerification.RegisterThenVerify | Backend/server.js:134-183 | verifying the registered code within 10 minutes succeeds with the user's id and deletes the record |
| EmailVerification.RegisteredCodeExpires | Backend/server.js:149-175 | any guess more than 10 minutes after registration is answered 410 with no change |
| EmailVerification.AttemptsLeft | Backend/server.js:174 | a user never has more than 10 attempts left |
| EmailVerification.VerifyUsesAttempt | Backend/server.js:174-180 | a wrong code uses exactly one attempt, and no answer gives attempts back |
| EmailVerification.WrongGuessesBounded | Backend/server.js:174-180 | over any sequence of guesses, at most the attempts left (≤ 10) are answered "Invalid code" |
| EmailVerification.Accounts.constructor | Backend/server.js:134 | no users, the first id is 1, no records |
| EmailVerification.Accounts.Register | Backend/server.js:134-162 | the handler leaves the snapshot and answer of `RegisterOutcome` |
| EmailVerification.Accounts.Verify | Backend/server.js:164-188 | the handler leaves the snapshot and answer of `VerifyOutcome` |
| Html.ReplaceAllAppend | Backend/mail/templates/layout.js:30-32 | a global `replace` distributes over concatenation |
| Html.EscapeHtmlPerChar | Backend/mail/templates/layout.js:28-33 | the three chained replacements equal escaping each character on its own |
| Html.EscapeHtmlHasNoAngles | Backend/mail/templates/layout.js:28-33 | the output never contains `<` or `>` |
| Html.EscapeHtmlAmpersands | Backend/mail/templates/layout.js:30-32 | every `&` in the output begins `&amp;`, `&lt;` or `&gt;` |
| Html.EscapeHtmlLtOnce | Backend/mail/templates/layout.js:30-31 | `&` is replaced first, so `<` becomes `&lt;`, not `&amp;lt;` |
| Html.EscapeHtmlPlain | Backend/mail/templates/layout.js:28-33 | a string with no `&`, `<` or `>` is returned unchanged, quotes included |
| Html.UnescapeEscapeHtml | Backend/mail/templates/layout.js:28-33 | decoding the three references gives back the original string |
| Html.EscapeHtmlInjective | Backend/mail/templates/layout.js:28-33 | distinct strings escape to distinct strings |
| Html.EscapeHtmlArg | Backend/mail/templates/layout.js:28 | the default argument gives the empty string |
| Html.Layout | Backend/mail/templates/layout.js:3-26 | the page length is the frame's fixed parts plus the escaped title plus the body; the mail templates use the frame `MailFrame` |
| Html.LayoutHoles | Backend/mail/templates/layout.js:9-18 | the page is the frame's head, the escaped title (no `<`), the frame's middle, the body verbatim and the frame's tail |

## Left out

- **HTTP plumbing.** Express routing, CORS, JWT signing and checking (`signToken`, `auth`) and request parsing are left out. Handlers take the caller's user id and the body fields as plain values, and answers are values. The verify answer's token is left out.
- **Stripe.** The Stripe API, webhook signature checking and `Backend/payments.js` are left out. The model starts from an already retrieved intent record (`PaymentIntent`). The webhook and the fulfil route are the two callers, modelled as a sequence of deliveries in `Payments.CreditAll`.
- **bcrypt, the random code and the clock.**
  - The stored code hash is the code itself, and `bcrypt.compare` is equality.
  - The random six-digit code is a parameter. The stored password hash (`UserRow.passwordHash`) is the password itself: `bcrypt.hash` is the identity.
  - `Date.now()` is the `now` parameter, in milliseconds. The DATETIME column's rounding to whole seconds is not modelled.
- **Mail.** Mail sending is I/O and is left out: the verification email, the purchase receipt email and the transporter.
- **External clients.** Redis, the MySQL pool, the blockchain, CoinGecko and AI endpoints are network clients and are left out.
- **Price simulator.** The random-walk price simulator and the websocket broadcast are left out. Handlers take the current price table as a parameter; `Prices.InitialPrices` is its starting value.
- **The GET endpoints.** `/api/balances` and the other listing endpoints are left out beyond `Ledger.Db.GetBalances`, which is the query they share.
- **Concurrency and transactions.** Each SQL statement is one atomic step in a sequential state. Interleavings of simultaneous requests are not modelled. This includes two requests racing between the balance read and the debit.
- **Numbers.**
  - IEEE-754 doubles and the DECIMAL(38,18) columns are unbounded `real`.
  - `Prices.Round8` models `toFixed(8)` as exact rounding of the real value, halves away from zero. It does not model the double's binary representation.
- **ASCII-only upper-casing.** `Text.Upper` upper-cases ASCII letters only. JavaScript's full Unicode `toUpperCase` is not modelled.
- **SQL column constraints.** The `ENUM`, `NOT NULL` and `VARCHAR(32)` column constraints are not modelled. Of the foreign keys, three are modelled as invariants: wallet rows refer to allocated asset ids and trades to existing orders (`Ledger.WellFormed`, and the requires of `Ledger.Db.InsertTrade`), and every verification record belongs to a user (`fk_ev_user`, in `EmailVerification.AuthWellFormed`); the others (wallets and orders to users, payments to users) are not. The model stores what each statement passes, for example the NULL price of `POST /api/orders`. Timestamps, `updated_at` and the exchange's random `swapId` are not modelled.
- **Collation.** Keys compare as exact strings. MySQL's default collation is case-insensitive, so the source treats `users.email` (the lookups by `WHERE email=?`) and `payments_processed.pi_id` (the `INSERT IGNORE` guard) as equal up to letter case: registering `Bob@x.io` after `bob@x.io` is a 409 there but creates a second user here, and verifying with a differently cased email finds the user there but not here. Collation is not modelled.
- **Falsy strings.** Request numbers are already numbers: a number field that is missing, falsy or zero is 0. A body that sends the string `"0"` for `qty` or `amount` is truthy in the source, passes the missing-fields check and is answered "must be > 0" instead of "Missing fields" (both 400). The model answers `MissingFields` for it.
- **Asset id gaps.** `Ledger.GetOrCreateAsset` keeps the next asset id when the symbol exists. InnoDB spends an AUTO_INCREMENT value on an `INSERT ... ON DUPLICATE KEY UPDATE` that hits an existing row, so real ids have gaps. No answer shows asset ids, and the model's ids are still distinct.
- **Payments.CreditUserForPaymentIntent:** the payment upsert's `.catch(() => {})` is modelled as a statement that always succeeds.
- **Trades.QuoteExchange:** a `to` price of 0 gives a receive of 0 instead of a division by zero. The handler rejects that case before quoting.
- **Html.EscapeHtmlArg:** titles are strings or absent. A `null` or non-string title, which `String()` would turn into text, is not modelled.

The model follows the code where the system's specification describes other behaviour:

- a spot LIMIT order always fills at once, at the limit price when it is positive and at the mid otherwise;
- an exchange records only the BUY of `to`, although both wallet legs move;
- the payment guard row is inserted in a separate statement before the crediting, with no shared transaction.

The exchange handler reads the `from` balance under the symbol as sent. A lower-case `from` therefore finds no balance and is rejected as insufficient, while its mid price is found case-insensitively. The model does the same.

## Findings

| source | as written | input that shows it | evidently intended | confidence | as-written member | corrected member |
|---|---|---|---|---|---|---|
| Backend/routes/trades.js:222 | The answer object names `minReceived`, which is never declared; the computed value is `minReceive`. The ReferenceError is thrown after both wallet upserts and the order and trade inserts. The catch at lines 225-226 answers 500, so every accepted exchange reports failure although it settled. | from "ETH", to "BTC", amount 1, maxSlippagePct 0.5, with an ETH balance of at least 1 | answer with the receipt, with `minReceived` set to `minReceive` | high (not executed) | Trades.ExchangeFailsAfterWriting | Trades.ExchangeIntendedAnswers |
