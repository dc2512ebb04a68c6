/** Properties of the order operations of module OrderSpec: what one fill
    preserves, what a sequence of fills keeps, when an order is terminal, and
    worked scenarios. */
module OrderProps {
  import opened U64Math
  import opened Ledgers
  import opened OrderSpec

  /** The price of a fill is the ceiling of takerBase * priceN / priceD: it
      pays the maker at least the exact value, and one unit less would not. */
  lemma FillPriceIsCeiling(o: OrderState, payment: U64, desired: U64, vaultFees: U64, now: U64)
    requires Fill(o, payment, desired, vaultFees, now).Ok?
    ensures var s := Fill(o, payment, desired, vaultFees, now).value;
      && s.gross * o.priceD >= s.takerBase * o.priceN
      && (s.gross - 1) * o.priceD < s.takerBase * o.priceN
  {
    FillSettles(o, payment, desired, vaultFees, now);
  }

  /** A fill keeps the order invariant, keeps the base the order was created
      with, and strictly grows the filled total. On a valid order the split of
      the order's coin (otc.rs:303) never aborts. */
  lemma FillPreservesInv(o: OrderState, payment: U64, desired: U64, vaultFees: U64, now: U64)
    requires Inv(o)
    ensures var r := Fill(o, payment, desired, vaultFees, now);
      && (r.Ok? ==> Inv(r.value.order))
      && (r.Ok? ==> InitialBase(r.value.order) == InitialBase(o))
      && (r.Ok? ==> r.value.takerBase > 0 && r.value.order.filledBase > o.filledBase)
      && (r.Err? ==> r.error != InsufficientBalance)
  {
    var r := Fill(o, payment, desired, vaultFees, now);
    if r.Ok? {
      FillSettles(o, payment, desired, vaultFees, now);
      // the order was live, so something remained and the taker asked for something
      assert o.baseRemaining > 0 && desired > 0;
      assert r.value.takerBase > 0;
    }
  }

  /** The converse of the guards of Fill: on a valid order, a fill that passes
      the expiry, status and amount checks, is paid in full and overflows no
      u64 succeeds. */
  lemma FillSucceeds(o: OrderState, payment: U64, desired: U64, vaultFees: U64, now: U64)
    requires Inv(o)
    requires now <= o.expiry && o.status.Live() && desired > 0
    requires var price := QuoteFor(FillSize(desired, o.baseRemaining), o.priceN, o.priceD);
      && price.Some? && payment >= price.value
      && FeeFor(price.value).Some?
      && vaultFees + Fee(price.value) <= U64_MAX
      && o.filledQuote + price.value <= U64_MAX
    ensures Fill(o, payment, desired, vaultFees, now).Ok?
  {
    var canBase := FillSize(desired, o.baseRemaining);
    assert o.filledBase + canBase <= U64_MAX;
  }

  /** Status Filled (and any other status but Open and Partial) is terminal:
      every fill and every cancel of such an order aborts. */
  lemma NotLiveIsTerminal(o: OrderState, payment: U64, desired: U64, vaultFees: U64, now: U64,
                          capOrderId: Address, capMaker: Address)
    requires !o.status.Live()
    ensures Fill(o, payment, desired, vaultFees, now).Err?
    ensures CancelCheck(o, capOrderId, capMaker).Err?
    ensures capOrderId == o.id && capMaker == o.maker ==>
      CancelCheck(o, capOrderId, capMaker) == Err(NotCancelable)
  {
  }

  /** A cancel of a valid order returns the whole remaining base to the maker,
      and something always remains: the branch of cancel that finds nothing
      remaining (otc.rs:362-364) is unreachable. */
  lemma CancelRefundsRemaining(o: OrderState, capOrderId: Address, capMaker: Address)
    requires Inv(o)
    requires CancelCheck(o, capOrderId, capMaker).Ok?
    ensures o.baseRemaining > 0
    ensures CancelCheck(o, capOrderId, capMaker).value == o.baseRemaining
    ensures o.filledBase + CancelCheck(o, capOrderId, capMaker).value == InitialBase(o)
  {
  }

  /** One fill attempt by some taker: its payment, the amount asked for, the
      fee vault's value at that moment and the clock. */
  datatype FillAttempt = FillAttempt(payment: U64, desired: U64, vaultFees: U64, now: U64)

  /** The order after the attempts in turn; an attempt that aborts changes nothing. */
  function ApplyFills(o: OrderState, attempts: seq<FillAttempt>): OrderState
    decreases |attempts|
  {
    if attempts == [] then o
    else
      var a := attempts[0];
      match Fill(o, a.payment, a.desired, a.vaultFees, a.now)
      case Ok(s) => ApplyFills(s.order, attempts[1..])
      case Err(_) => ApplyFills(o, attempts[1..])
  }

  /** The quote the fills among the attempts charged, summed. */
  function GrossPaid(o: OrderState, attempts: seq<FillAttempt>): nat
    decreases |attempts|
  {
    if attempts == [] then 0
    else
      var a := attempts[0];
      match Fill(o, a.payment, a.desired, a.vaultFees, a.now)
      case Ok(s) => s.gross + GrossPaid(s.order, attempts[1..])
      case Err(_) => GrossPaid(o, attempts[1..])
  }

  /** Over any sequence of fill attempts, a valid order stays valid, the base
      sold plus the base left stays the base it was created with, the filled
      quote total is the sum of what the fills charged, nothing filled is ever
      given back, and an order that is Filled stays exactly as it is. */
  lemma {:induction false} ApplyFillsKeepsInv(o: OrderState, attempts: seq<FillAttempt>)
    requires Inv(o)
    ensures var o' := ApplyFills(o, attempts);
      && Inv(o')
      && InitialBase(o') == InitialBase(o)
      && o'.filledQuote == o.filledQuote + GrossPaid(o, attempts)
      && o'.filledBase >= o.filledBase
      && (o.status == Filled ==> o' == o)
    decreases |attempts|
  {
    if attempts != [] {
      var a := attempts[0];
      FillPreservesInv(o, a.payment, a.desired, a.vaultFees, a.now);
      match Fill(o, a.payment, a.desired, a.vaultFees, a.now)
      case Ok(s) =>
        ApplyFillsKeepsInv(s.order, attempts[1..]);
      case Err(_) =>
        ApplyFillsKeepsInv(o, attempts[1..]);
    }
  }

  /** Every order reachable by create_order followed by fills is valid; while
      it is Open or Partial it still holds base, and a cancel with its cap
      hands that whole remainder back to the maker. */
  lemma CreatedThenFilled(nextSeq: U64, baseCoin: U64, priceN: U64, priceD: U64, expiry: U64,
                          maker: Address, id: Address, attempts: seq<FillAttempt>)
    requires NewOrder(nextSeq, baseCoin, priceN, priceD, expiry, maker, id).Ok?
    ensures var o := ApplyFills(NewOrder(nextSeq, baseCoin, priceN, priceD, expiry, maker, id).value, attempts);
      && Inv(o)
      && o.filledBase + o.baseRemaining == baseCoin
      && (o.status.Live() ==> o.baseRemaining > 0)
      && (o.status.Live() ==> CancelCheck(o, id, maker) == Ok(o.baseRemaining))
      && (!o.status.Live() ==> CancelCheck(o, id, maker) == Err(NotCancelable))
  {
    var o0 := NewOrder(nextSeq, baseCoin, priceN, priceD, expiry, maker, id).value;
    ApplyFillsKeepsInv(o0, attempts);
    ApplyFillsKeepsIdentity(o0, attempts);
  }

  /** Fills never change who made an order or which order it is. */
  lemma {:induction false} ApplyFillsKeepsIdentity(o: OrderState, attempts: seq<FillAttempt>)
    ensures ApplyFills(o, attempts).id == o.id && ApplyFills(o, attempts).maker == o.maker
    decreases |attempts|
  {
    if attempts != [] {
      var a := attempts[0];
      match Fill(o, a.payment, a.desired, a.vaultFees, a.now)
      case Ok(s) => ApplyFillsKeepsIdentity(s.order, attempts[1..]);
      case Err(_) => ApplyFillsKeepsIdentity(o, attempts[1..]);
    }
  }

  /** A full lifecycle: 100 base at price 3/2; taker A asks for
      40 paying 60, taker B asks for 100 paying 90 and gets the remaining 60;
      the order is Filled and the maker can no longer cancel it. */
  lemma FullLifecycleScenario(maker: Address, id: Address)
    ensures NewOrder(0, 100, 3, 2, 1000, maker, id).Ok?
    ensures var o0 := NewOrder(0, 100, 3, 2, 1000, maker, id).value;
      var a := Fill(o0, 60, 40, 0, 500);
      && a.Ok? && a.value.gross == 60 && a.value.fee == 0 && a.value.refund == 0
      && a.value.order.baseRemaining == 60 && a.value.order.status == Partial
      && var b := Fill(a.value.order, 90, 100, 0, 600);
      && b.Ok? && b.value.takerBase == 60 && b.value.gross == 90 && b.value.refund == 0
      && b.value.order.baseRemaining == 0 && b.value.order.status == Filled
      && b.value.order.filledBase == 100 && b.value.order.filledQuote == 150
      && CancelCheck(b.value.order, id, maker) == Err(NotCancelable)
  {
    var o0 := NewOrder(0, 100, 3, 2, 1000, maker, id).value;
    assert CeilDiv(40 * 3, 2) == 60;
    var a := Fill(o0, 60, 40, 0, 500);
    assert CeilDiv(60 * 3, 2) == 90;
  }

  /** An order that expires at t0 cannot be filled at t0 + 1, whatever is paid. */
  lemma ExpiryScenario(o: OrderState, payment: U64, desired: U64, vaultFees: U64)
    requires o.expiry < U64_MAX
    ensures Fill(o, payment, desired, vaultFees, o.expiry + 1) == Err(OrderExpired)
  {
  }

  /** A fresh order of 50 canceled by its maker returns all 50. */
  lemma CancelScenario(maker: Address, id: Address)
    ensures NewOrder(7, 50, 1, 1, 0, maker, id).Ok?
    ensures CancelCheck(NewOrder(7, 50, 1, 1, 0, maker, id).value, id, maker) == Ok(50)
  {
  }
}
