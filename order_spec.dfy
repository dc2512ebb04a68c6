/** The order as a value and the three operations of the otc module as pure
    functions from the state before the call to the outcome: an abort with its
    reason, or the new state together with the coins the call moves. The
    imperative model in module Otc is proved against these functions. */
module OrderSpec {
  import opened U64Math
  import opened Ledgers

  /** The status codes of an order: 0 Open, 1 Partial, 2 Filled, 3 Canceled,
      4 Expired. Only 0, 1 and 2 are ever assigned. */
  datatype Status = Open | Partial | Filled | Canceled | Expired {
    /** The statuses fill_order and cancel accept (codes 0 and 1). */
    predicate Live() { this == Open || this == Partial }
  }

  /** Why a call aborts; the abort codes of the source are given per case. */
  datatype Error =
    | InvalidPrice        // 0: price_d is zero
    | EmptyOrder          // 1: the locked coin has value zero
    | OrderExpired        // 10: the clock is past the expiry
    | NotFillable         // 11: the status is neither Open nor Partial
    | ZeroAmount          // 12: the taker asks for nothing
    | InsufficientPayment // 13: the payment coin is worth less than the price
    | WrongOrder          // 20: the cap belongs to another order
    | WrongMaker          // 21: the cap names another maker
    | NotCancelable       // 22: the status is neither Open nor Partial
    | ArithmeticError     // a u64 overflow, underflow or division by zero
    | InsufficientBalance // a coin split of more than the coin holds

  datatype Result<T> = Ok(value: T) | Err(error: Error)

  /** The fields of an `Order` object; `baseCoin` is the value of the coin it
      custodies, `baseRemaining` the counter the source keeps beside it. */
  datatype OrderState = OrderState(
    id: Address,
    maker: Address,
    baseCoin: U64,
    baseRemaining: U64,
    priceN: U64,
    priceD: U64,
    sequence: U64,
    expiry: U64,
    filledBase: U64,
    filledQuote: U64,
    status: Status)

  /** What a successful fill produces: the new order, the price `gross` split
      out of the payment, the part `fee` of it that goes to the vault, the part
      `makerQuote` sent to the maker, the base `takerBase` sent to the taker and
      the change `refund` sent back to the taker. */
  datatype Settlement = Settlement(
    order: OrderState,
    gross: U64,
    fee: U64,
    makerQuote: U64,
    takerBase: U64,
    refund: U64)

  /** The invariant every order object keeps from creation on: the coin and
      the counter agree, the prices can be divided by, the order was not empty,
      and the status tells how much has been filled (Filled exactly when
      nothing remains, Open exactly when nothing has been taken). */
  predicate Inv(o: OrderState)
  {
    && o.priceD > 0
    && o.baseCoin == o.baseRemaining
    && 0 < o.filledBase + o.baseRemaining <= U64_MAX
    && (o.status == Open || o.status == Partial || o.status == Filled)
    && (o.status == Filled <==> o.baseRemaining == 0)
    && (o.status == Open <==> o.filledBase == 0)
    && (o.status == Open ==> o.filledQuote == 0)
  }

  /** The base an order was created with: what has been sold plus what is left. */
  function InitialBase(o: OrderState): nat
  {
    o.filledBase + o.baseRemaining
  }

  /** create_order: the order made from a locked coin of value `baseCoin`,
      with sequence number `nextSeq` drawn from the order book. */
  function NewOrder(nextSeq: U64, baseCoin: U64, priceN: U64, priceD: U64, expiry: U64,
                    maker: Address, id: Address): (r: Result<OrderState>)
    ensures r.Ok? <==> priceD > 0 && baseCoin > 0 && nextSeq < U64_MAX
    ensures priceD == 0 ==> r == Err(InvalidPrice)
    ensures priceD > 0 && baseCoin == 0 ==> r == Err(EmptyOrder)
    ensures r.Ok? ==> Inv(r.value) && InitialBase(r.value) == baseCoin
    ensures r.Ok? ==>
      && r.value.id == id && r.value.maker == maker && r.value.sequence == nextSeq
      && r.value.baseCoin == r.value.baseRemaining == baseCoin
      && r.value.priceN == priceN && r.value.priceD == priceD && r.value.expiry == expiry
      && r.value.filledBase == 0 && r.value.filledQuote == 0 && r.value.status == Open
  {
    if priceD == 0 then Err(InvalidPrice)
    else if baseCoin == 0 then Err(EmptyOrder)
    else if nextSeq + 1 > U64_MAX then Err(ArithmeticError)
    else Ok(OrderState(id, maker, baseCoin, baseCoin, priceN, priceD, nextSeq, expiry, 0, 0, Open))
  }

  /** fill_order: a taker with a payment coin worth `payment` asks for up to
      `desired` base at time `now`, while the fee vault holds `vaultFees`. Each
      abort of the source is tested where the source would raise it; a Move
      abort reverts the whole call, so an abort leaves every object as it was. */
  function Fill(o: OrderState, payment: U64, desired: U64, vaultFees: U64, now: U64): (r: Result<Settlement>)
    // the guards, in the order the source tests them
    ensures now > o.expiry ==> r == Err(OrderExpired)
    ensures now <= o.expiry && !o.status.Live() ==> r == Err(NotFillable)
    ensures now <= o.expiry && o.status.Live() && desired == 0 ==> r == Err(ZeroAmount)
    ensures var price := QuoteFor(FillSize(desired, o.baseRemaining), o.priceN, o.priceD);
      now <= o.expiry && o.status.Live() && desired > 0 && price.Some? && payment < price.value
      ==> r == Err(InsufficientPayment)
    ensures r.Ok? ==> now <= o.expiry && o.status.Live() && desired > 0 && payment >= r.value.gross
    ensures r == Err(InsufficientPayment) ==>
      var price := QuoteFor(FillSize(desired, o.baseRemaining), o.priceN, o.priceD);
      price.Some? && payment < price.value
  {
    if now > o.expiry then Err(OrderExpired)
    else if !o.status.Live() then Err(NotFillable)
    else if desired == 0 then Err(ZeroAmount)
    else
      var canBase := FillSize(desired, o.baseRemaining);
      match QuoteFor(canBase, o.priceN, o.priceD)
      case None => Err(ArithmeticError)
      case Some(need) =>
        if payment < need then Err(InsufficientPayment)
        else
          match FeeFor(need)
          case None => Err(ArithmeticError)
          case Some(fee) =>
            // the fee is joined into the vault only when it is positive
            if fee > 0 && vaultFees + fee > U64_MAX then Err(ArithmeticError)
            else if canBase > o.baseCoin then Err(InsufficientBalance)
            else if o.filledBase + canBase > U64_MAX || o.filledQuote + need > U64_MAX then Err(ArithmeticError)
            else
              var remaining := o.baseRemaining - canBase;
              var order := o.(
                baseCoin := o.baseCoin - canBase,
                baseRemaining := remaining,
                filledBase := o.filledBase + canBase,
                filledQuote := o.filledQuote + need,
                status := if remaining == 0 then Filled else Partial);
              Ok(Settlement(order, need, fee, need - fee, canBase, payment - need))
  }

  /** What a successful fill does: exactly min(desired, remaining) base changes
      hands, the price is the ceiling of its value, and the payment is split
      exactly into the fee, the maker's share and the change. */
  lemma FillSettles(o: OrderState, payment: U64, desired: U64, vaultFees: U64, now: U64)
    requires Fill(o, payment, desired, vaultFees, now).Ok?
    ensures var s := Fill(o, payment, desired, vaultFees, now).value;
      // no over-fill: exactly min(desired, remaining) changes hands
      && s.takerBase == FillSize(desired, o.baseRemaining)
      && s.order.baseRemaining + s.takerBase == o.baseRemaining
      && s.order.baseCoin + s.takerBase == o.baseCoin
      && s.order.filledBase == o.filledBase + s.takerBase
      && s.order.filledQuote == o.filledQuote + s.gross
      // the price is the ceiling of its value (see OrderProps.FillPriceIsCeiling)
      && QuoteFor(s.takerBase, o.priceN, o.priceD) == Some(s.gross)
      // the payment is split exactly into the fee, the maker's share and the change
      && s.fee == Fee(s.gross)
      && s.fee + s.makerQuote == s.gross
      && s.fee + s.makerQuote + s.refund == payment
      && vaultFees + s.fee <= U64_MAX
      // the new status, and every other field kept
      && s.order.status == (if s.order.baseRemaining == 0 then Filled else Partial)
      && s.order.id == o.id && s.order.maker == o.maker
      && s.order.priceN == o.priceN && s.order.priceD == o.priceD
      && s.order.sequence == o.sequence && s.order.expiry == o.expiry
  {
  }

  /** cancel, presented with a cap naming order `capOrderId` and maker
      `capMaker`: the value of the base coin sent back to the maker. Time plays
      no part, so an expired order can still be canceled. */
  function CancelCheck(o: OrderState, capOrderId: Address, capMaker: Address): (r: Result<nat>)
    ensures r.Ok? <==> capOrderId == o.id && capMaker == o.maker && o.status.Live()
    ensures capOrderId != o.id ==> r == Err(WrongOrder)
    ensures capOrderId == o.id && capMaker != o.maker ==> r == Err(WrongMaker)
    ensures r.Ok? ==> r.value <= o.baseCoin
  {
    if capOrderId != o.id then Err(WrongOrder)
    else if capMaker != o.maker then Err(WrongMaker)
    else if !o.status.Live() then Err(NotCancelable)
    // with nothing remaining the (empty) coin is dropped, not transferred
    else Ok(if o.baseRemaining > 0 then o.baseCoin else 0)
  }
}
