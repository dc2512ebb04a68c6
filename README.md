# OTC partial-fill order book, modelled in Dafny

This project models the Move module `otc::otc`, a simple over-the-counter order book on Sui. A maker locks a base coin in an `Order` object at a price `price_n / price_d` of quote per base, with an expiry time. The maker also receives a `CancelCap` for that order. Takers then fill the order in part or in full:

- each fill takes `min(desired, remaining)` base;
- it charges the ceiling of `base * price_n / price_d` in quote;
- it splits a 20-basis-point protocol fee into the shared `FeeVault`;
- it pays the rest to the maker and returns the change to the taker.

The maker can cancel an Open or Partially filled order with its cap and get the remaining base back. A shared `OrderBook` hands out sequence numbers to orders as they are created.

The model has five modules:

- `U64Math` (`u64_math.dfy`) holds the u64 arithmetic of the module:
  - the fill size;
  - the ceiling price;
  - the fee;
  - the overflow conditions under which Move aborts.
- `Ledgers` (`ledgers.dfy`) models where transferred coins end up: a per-address total of the coins of one kind received.
- `OrderSpec` (`order_spec.dfy`) holds the order as a value, and the three entry functions as pure functions from the state before a call to its outcome. The outcome is either an abort with its reason or the new state plus the coins moved.
- `OrderProps` (`order_props.dfy`) holds the properties of those functions:
  - the invariant kept by every fill and by every sequence of fills;
  - conservation of the base;
  - the ceiling price;
  - terminal statuses;
  - cancel refunds;
  - the worked lifecycle scenarios.
- `Otc` (`otc.dfy`) holds the objects as classes: `OrderBook`, `FeeVault`, `CancelCap`, `Order`, and a `Ledger` of received coins. Each entry function is an imperative method over them, proved to do exactly what the matching `OrderSpec` function says. An aborting call changes nothing, and a successful one changes the objects to the state given by the function.

Move aborts a transaction on u64 overflow and on a coin split larger than the coin. Every abort reverts the whole transaction. The model therefore returns `Err(reason)` with no state change wherever the source would abort, and a u64 overflow is written out as an explicit test against `U64_MAX`. The abort codes of the source (0, 1, 10–13, 20–22) become the constructors of `OrderSpec.Error`.

Some points where the code decides, and the model follows it:

- The fee rate is hard-coded to 20 basis points in `fill_order`. The `fee_bps` that `init` stores in the book is never read.
- Statuses 3 (Canceled) and 4 (Expired) are never assigned. `cancel` destroys the order instead, and expiry only makes fills abort. Cancel does not look at the clock, so an expired order can still be canceled.
- `(need_quote_num + price_d - 1) / price_d` is evaluated left to right. It aborts when `can_base * price_n + price_d` exceeds u64, even when the ceiling itself would fit (`QuoteFor`).
- 20 basis points of a gross of 1000 is a fee of 2, not 20, and leaves 998 for the maker; a fee of 20 needs a gross of 10000 (`FeeExample`).
- On a valid order the branch of `cancel` that finds nothing remaining is unreachable. A Filled order cannot be canceled, and an Open or Partial order always holds some base (`CancelRefundsRemaining`, `CreatedThenFilled`).

## Model

| member | source | states |
|---|---|---|
| U64Math.FillSize | escrow/sources/otc.rs:275 | the fill size is at most what the taker asks for and at most what remains, and is one of the two |
| U64Math.CeilDiv | escrow/sources/otc.rs:279 | `(n + d - 1) / d` is the least q with `q * d >= n` |
| U64Math.CeilDivBounds | escrow/sources/otc.rs:279 | the two bounds that make `(n + d - 1) / d` the ceiling of `n / d` |
| U64Math.QuoteFor | escrow/sources/otc.rs:277-279 | the quote computation succeeds exactly when `price_d > 0` and `can_base * price_n + price_d` fits in u64; the result is then the ceiling of `can_base * price_n / price_d` |
| U64Math.FeeFor | escrow/sources/otc.rs:287-290 | the fee computation succeeds exactly when `gross * 20` fits in u64, and then gives `Fee(gross)` |
| U64Math.Fee | escrow/sources/otc.rs:288-290 | the fee is 20 basis points of gross rounded down, and never more than gross |
| U64Math.CeilingExample | escrow/sources/otc.rs:277-279 | 5 base at price 3/2 cost 8 quote, rounded up from 7.5 |
| U64Math.FeeExample | escrow/sources/otc.rs:287-290 | gross 1000 pays fee 2 and leaves 998; gross 10000 pays 20; gross 499 pays nothing, gross 500 pays 1 |
| Ledgers.Credit | escrow/sources/otc.rs:316-321 | a transfer raises the receiver's balance by the coin's value and leaves every other balance as it was; a coin of value zero changes nothing |
| OrderSpec.NewOrder | escrow/sources/otc.rs:193-212 | an order is created exactly when `price_d > 0`, the coin is non-empty and `next_seq + 1` fits in u64; price is tested first (code 0), then emptiness (code 1); the new order is Open, holds the whole coin, has nothing filled, carries the given prices, expiry, maker and sequence, and is valid |
| OrderSpec.Fill | escrow/sources/otc.rs:269-282 | the guards of a fill in the source's order: expired aborts with 10, a status other than Open or Partial with 11, a zero request with 12, and a payment below the ceiling price with 13; a successful fill passed all of them and was paid at least the price |
| OrderSpec.FillSettles | escrow/sources/otc.rs:275-313 | a successful fill moves exactly `min(desired, remaining)` base; it lowers the coin and the remaining count by that amount and raises the filled totals by it and by the price; the price is the ceiling value; the payment splits exactly into fee, maker share and change; the status becomes Filled when nothing remains and Partial otherwise; every other field is kept |
| OrderSpec.CancelCheck | escrow/sources/otc.rs:355-364 | cancel is accepted exactly when the cap names this order and this maker and the status is Open or Partial; a wrong order aborts with 20 before a wrong maker with 21; the refund never exceeds the coin |
| OrderProps.FillPriceIsCeiling | escrow/sources/otc.rs:277-279 | the price of every fill pays the maker at least the exact value of the base sold, and one quote unit less would not |
| OrderProps.FillPreservesInv | escrow/sources/otc.rs:303-313 | a fill of a valid order leaves it valid, keeps sold plus remaining equal to the base it was created with, and sells something; the split of the order's coin (otc.rs:303) never aborts |
| OrderProps.FillSucceeds | escrow/sources/otc.rs:269-308 | on a valid order, a fill that is not expired, is Open or Partial, asks for something, is paid in full and overflows no u64 succeeds |
| OrderProps.NotLiveIsTerminal | escrow/sources/otc.rs:271 | an order that is neither Open nor Partial can be neither filled nor canceled; with the right cap, cancel aborts with code 22 |
| OrderProps.CancelRefundsRemaining | escrow/sources/otc.rs:357-364 | accepting a cancel of a valid order returns exactly the remaining base, which is positive, and sold plus refunded is the base the order was created with |
| OrderProps.ApplyFillsKeepsInv | escrow/sources/otc.rs:303-313 | over any sequence of fill attempts a valid order stays valid; sold plus remaining stays the initial base; the filled quote is the sum of the prices charged; filled base never shrinks; a Filled order never changes again |
| OrderProps.ApplyFillsKeepsIdentity | escrow/sources/otc.rs:261-330 | fills never change an order's id or maker |
| OrderProps.CreatedThenFilled | escrow/sources/otc.rs:185-364 | every order created and then filled any number of times is valid and conserves its base; while Open or Partial it holds base, and cancel with its own cap returns all of it; once Filled, cancel aborts with 22 |
| OrderProps.FullLifecycleScenario | escrow/sources/otc.rs:185-330 | 100 base at 3/2: a fill of 40 costs 60 and leaves 60 (Partial); a request for 100 then takes the remaining 60 for 90; the order is Filled with totals 100 and 150 and cannot be canceled |
| OrderProps.ExpiryScenario | escrow/sources/otc.rs:270 | one millisecond past its expiry an order cannot be filled, whatever is paid or asked |
| OrderProps.CancelScenario | escrow/sources/otc.rs:355-361 | a fresh order of 50 canceled by its maker returns all 50 |
| Otc.OrderBook.constructor | escrow/sources/otc.rs:152-156 | a new book starts its sequencer at 0 and stores the fee rate |
| Otc.FeeVault.constructor | escrow/sources/otc.rs:157-160 | a new vault holds the quote coin it is given |
| Otc.CancelCap.constructor | escrow/sources/otc.rs:215-219 | a cap records the order id and the maker |
| Otc.Order.constructor | escrow/sources/otc.rs:201-213 | an order object holds exactly the given field values |
| Otc.Ledger.TransferBase | escrow/sources/otc.rs:316 | a base transfer credits the receiver and leaves the quote ledger alone |
| Otc.Ledger.TransferQuote | escrow/sources/otc.rs:300 | a quote transfer credits the receiver and leaves the base ledger alone |
| Otc.Init | escrow/sources/otc.rs:144-162 | init gives a fresh book whose sequencer is at 0 and which has issued nothing, and a fresh vault holding the given quote coin |
| Otc.CreateOrder | escrow/sources/otc.rs:185-231 | aborts exactly as `NewOrder` says, leaving the book unchanged; otherwise creates a fresh valid order whose state is `NewOrder`'s and a fresh cap naming it and its maker; it uses a sequence number never issued before and advances the sequencer by one; the new order's id is one the book has not given to an earlier order, and is recorded |
| Otc.CapCancelsOnlyItsOrder | escrow/sources/otc.rs:202-219 | of two orders created through one book, the cap of the first cannot cancel the second (code 20), and no coin moves |
| Otc.FillOrder | escrow/sources/otc.rs:261-330 | an abort as `Fill` says leaves the order, vault and ledgers unchanged; a success sets the order to `Fill`'s new state, adds the fee to the vault, credits the maker's share and the change in quote and the base to the taker; the order stays valid either way |
| Otc.SettleFill | escrow/sources/otc.rs:292-321 | the writes of a fill: fee into the vault, the price minus the fee to the maker, base split off to the taker, the counters and status updated, positive change back to the taker |
| Otc.Cancel | escrow/sources/otc.rs:349-390 | an abort as `CancelCheck` says changes nothing; a successful cancel sends the refund to the maker, empties the order's coin, leaves the quote ledger alone and consumes the order and the cap |

## Left out

- Events (`OrderCreated`, `OrderFilled`, `OrderCanceled`): they carry no state. Their fields are all visible in the modelled results.
- Sui object machinery: object ids, `object::new` and `object::delete`. Ids and the transaction sender are parameters. Destroying the order and the cap is a ghost `live` flag. Move's linear types guarantee that a consumed object is never used again, and the `live` preconditions state that guarantee.
- The `Clock`: its timestamp is the parameter `now`. Cancel's unused clock and context parameters are dropped.
- Generic coin types: a coin is its u64 value. Base and quote coins are kept apart by two ledgers of received value (`Ledger.base` and `Ledger.quote`), and `Balance` carries no u64 bound.
- `init`'s `base_coin_zero`: it only brings the type parameter in, and its value goes nowhere.
- Otc.CancelCap: its constructor is public, so any caller can build a cap naming any order and maker. Move lets only the otc module pack a `CancelCap`, and the model does not capture that rule; only caps returned by `CreateOrder` correspond to caps of the source.
- Otc.CreateOrder: the object id that `object::new` draws is a parameter. The precondition `id !in book.ids` states its freshness only against orders created through the same book, not against every object on chain.
- Otc.FillOrder: two overflow aborts come late in the source, the join of the fee into the vault (otc.rs:296) and the filled-quote sum (otc.rs:308). The method tests them together before its first write. Since an abort reverts all writes, the observable behaviour is the same.
- Sharing of the book and the vault between concurrent transactions: Sui orders the transactions, so the model looks at one call at a time.
- Dropping a zero-value coin (otc.rs:322 and otc.rs:363): a value-zero coin adds nothing to a ledger, so it is not tracked.
