/** The objects of the otc module and its entry functions, in the imperative
    form the source has: create_order bumps the book's counter, fill_order
    splits coins and updates the order in place, cancel consumes the order and
    its cap. Each method is proved to do what the matching function of module
    OrderSpec says; the properties of those functions are in OrderProps. */
module Otc {
  import opened U64Math
  import opened Ledgers
  import opened OrderSpec

  /** The shared order book: a sequencer handing out `nextSeq`, and a fee rate
      that is stored but never read. `issued` records the numbers handed out,
      `ids` the object ids of the orders created through the book. */
  class OrderBook {
    var nextSeq: U64
    const feeBps: U64
    ghost var issued: set<U64>
    ghost var ids: set<Address>

    /** Every number handed out lies below the next one, so none is handed out twice. */
    ghost predicate Valid()
      reads this
    {
      forall s :: s in issued ==> s < nextSeq
    }

    constructor (feeBps: U64)
      ensures Valid() && nextSeq == 0 && issued == {} && ids == {} && this.feeBps == feeBps
    {
      nextSeq := 0;
      this.feeBps := feeBps;
      issued := {};
      ids := {};
    }
  }

  /** The protocol fee vault, holding a quote coin worth `fees`. */
  class FeeVault {
    var fees: U64

    constructor (fees: U64)
      ensures this.fees == fees
    {
      this.fees := fees;
    }
  }

  /** The capability to cancel one order. `live` is false once cancel has
      consumed it; Move's linear types keep a consumed cap from being used again. */
  class CancelCap {
    const orderId: Address
    const maker: Address
    ghost var live: bool

    constructor (orderId: Address, maker: Address)
      ensures this.orderId == orderId && this.maker == maker && live
    {
      this.orderId := orderId;
      this.maker := maker;
      live := true;
    }
  }

  /** An order object; the fields the source never writes after creation are
      constants. `live` is false once cancel has destroyed the object. */
  class Order {
    const id: Address
    const maker: Address
    var baseCoin: U64
    var baseRemaining: U64
    const priceN: U64
    const priceD: U64
    const sequence: U64
    const expiry: U64
    var filledBase: U64
    var filledQuote: U64
    var status: Status
    ghost var live: bool

    /** The fields as a value. */
    function State(): OrderState
      reads this
    {
      OrderState(id, maker, baseCoin, baseRemaining, priceN, priceD, sequence, expiry,
                 filledBase, filledQuote, status)
    }

    ghost predicate Valid()
      reads this
    {
      Inv(State())
    }

    constructor (s: OrderState)
      ensures State() == s && live
    {
      id, maker, baseCoin, baseRemaining := s.id, s.maker, s.baseCoin, s.baseRemaining;
      priceN, priceD, sequence, expiry := s.priceN, s.priceD, s.sequence, s.expiry;
      filledBase, filledQuote, status := s.filledBase, s.filledQuote, s.status;
      live := true;
    }
  }

  /** Where transferred coins go: per address, the base and the quote it received. */
  class Ledger {
    var base: map<Address, nat>
    var quote: map<Address, nat>

    constructor ()
      ensures base == map[] && quote == map[]
    {
      base, quote := map[], map[];
    }

    /** transfer::transfer of a base coin worth `amount` to `to`. */
    method TransferBase(to: Address, amount: nat)
      modifies this
      ensures base == Credit(old(base), to, amount) && quote == old(quote)
    {
      base := Credit(base, to, amount);
    }

    /** transfer::transfer of a quote coin worth `amount` to `to`. */
    method TransferQuote(to: Address, amount: nat)
      modifies this
      ensures quote == Credit(old(quote), to, amount) && base == old(base)
    {
      quote := Credit(quote, to, amount);
    }
  }

  /** init: a fresh order book whose sequencer starts at 0, and a fee vault
      that keeps the quote coin it is given. */
  method Init(feeBps: U64, quoteCoinZero: U64) returns (book: OrderBook, fv: FeeVault)
    ensures fresh(book) && fresh(fv)
    ensures book.Valid() && book.nextSeq == 0 && book.issued == {} && book.ids == {} && book.feeBps == feeBps
    ensures fv.fees == quoteCoinZero
  {
    book := new OrderBook(feeBps);
    fv := new FeeVault(quoteCoinZero);
  }

  /** create_order: lock a base coin worth `baseCoin` in a new order made by
      `sender` with object id `id`, and hand back the order and its cap. The id
      is the one `object::new` draws, which no earlier object has. */
  method CreateOrder(book: OrderBook, baseCoin: U64, priceN: U64, priceD: U64, expiry: U64,
                     sender: Address, id: Address) returns (res: Result<(Order, CancelCap)>)
    requires book.Valid()
    requires id !in book.ids
    modifies book
    ensures book.Valid()
    ensures match NewOrder(old(book.nextSeq), baseCoin, priceN, priceD, expiry, sender, id)
      case Err(e) =>
        && res == Err(e)
        && book.nextSeq == old(book.nextSeq) && book.issued == old(book.issued)
        && book.ids == old(book.ids)
      case Ok(o) =>
        && res.Ok?
        && fresh(res.value.0) && fresh(res.value.1)
        && res.value.0.State() == o && res.value.0.live && res.value.0.Valid()
        && res.value.1.live && res.value.1.orderId == o.id && res.value.1.maker == o.maker
        && o.sequence !in old(book.issued)
        && book.nextSeq == old(book.nextSeq) + 1
        && book.issued == old(book.issued) + {o.sequence}
        && o.id !in old(book.ids) && book.ids == old(book.ids) + {o.id}
  {
    if priceD == 0 { return Err(InvalidPrice); }
    var maker := sender;
    var baseAmount := baseCoin;
    if baseAmount == 0 { return Err(EmptyOrder); }
    var sequence := book.nextSeq;
    if sequence + 1 > U64_MAX { return Err(ArithmeticError); }
    book.nextSeq := sequence + 1;
    book.issued := book.issued + {sequence};
    book.ids := book.ids + {id};
    var order := new Order(OrderState(id, maker, baseCoin, baseAmount, priceN, priceD, sequence, expiry,
                                      0, 0, Open));
    var cap := new CancelCap(order.id, maker);
    res := Ok((order, cap));
  }

  /** Two orders created through one book get their own ids, so the cap of the
      first cannot cancel the second: cancel aborts with WrongOrder and no
      base moves. */
  method CapCancelsOnlyItsOrder(book: OrderBook, ledger: Ledger, maker: Address,
                                id1: Address, id2: Address) returns (res: Result<()>)
    requires book.Valid() && book.nextSeq + 2 <= U64_MAX
    requires id1 !in book.ids && id2 !in book.ids && id1 != id2
    modifies book, ledger
    ensures res == Err(WrongOrder)
    ensures ledger.base == old(ledger.base) && ledger.quote == old(ledger.quote)
  {
    var r1 := CreateOrder(book, 10, 1, 1, 0, maker, id1);
    var r2 := CreateOrder(book, 20, 1, 1, 0, maker, id2);
    var cap1 := r1.value.1;
    var order2 := r2.value.0;
    res := Cancel(order2, cap1, ledger);
  }

  /** fill_order: the taker `sender` pays with a quote coin worth `payQuote`
      for up to `desiredBase` of the order at time `now`. A Move abort reverts
      the call, so every abort is decided before any object changes; the two
      overflow aborts the source raises late (the fee join, otc.rs:296, and the
      filled-quote sum, otc.rs:308) are tested together before the first write,
      which changes nothing observable since both are the same arithmetic abort. */
  method FillOrder(order: Order, payQuote: U64, desiredBase: U64, fv: FeeVault, now: U64,
                   sender: Address, ledger: Ledger) returns (res: Result<()>)
    requires order.live && order.Valid()
    modifies order, fv, ledger
    ensures order.live && order.Valid()
    ensures match Fill(old(order.State()), payQuote, desiredBase, old(fv.fees), now)
      case Err(e) =>
        && res == Err(e)
        && order.State() == old(order.State()) && fv.fees == old(fv.fees)
        && ledger.base == old(ledger.base) && ledger.quote == old(ledger.quote)
      case Ok(s) =>
        && res == Ok(())
        && order.State() == s.order
        && fv.fees == old(fv.fees) + s.fee
        && ledger.quote == Credit(Credit(old(ledger.quote), order.maker, s.makerQuote), sender, s.refund)
        && ledger.base == Credit(old(ledger.base), sender, s.takerBase)
  {
    ghost var before := order.State();
    ghost var spec := Fill(before, payQuote, desiredBase, fv.fees, now);
    assert order.priceD > 0 && order.baseCoin == order.baseRemaining;
    if now > order.expiry {
      return Err(OrderExpired);
    }
    if !(order.status == Open || order.status == Partial) {
      return Err(NotFillable);
    }
    if desiredBase == 0 {
      return Err(ZeroAmount);
    }

    var canBase := FillSize(desiredBase, order.baseRemaining);
    var price := QuoteFor(canBase, order.priceN, order.priceD);
    if price.None? { return Err(ArithmeticError); }
    var needQuote := price.value;

    var availableQuote := payQuote;
    if availableQuote < needQuote { return Err(InsufficientPayment); }
    // split the price out of the payment: the payment coin keeps the change
    var payLeft := payQuote - needQuote;

    var gross := needQuote;
    var feeResult := FeeFor(gross);
    if feeResult.None? { return Err(ArithmeticError); }
    var fee := feeResult.value;
    if (fee > 0 && fv.fees + fee > U64_MAX) || order.filledQuote + needQuote > U64_MAX {
      return Err(ArithmeticError);
    }
    assert canBase <= order.baseCoin && order.filledBase + canBase <= U64_MAX;
    ghost var after := before.(
      baseCoin := order.baseCoin - canBase,
      baseRemaining := order.baseRemaining - canBase,
      filledBase := order.filledBase + canBase,
      filledQuote := order.filledQuote + needQuote,
      status := if order.baseRemaining - canBase == 0 then Filled else Partial);
    assert spec == Ok(Settlement(after, needQuote, fee, needQuote - fee, canBase, payLeft));
    SettleFill(order, fv, ledger, sender, canBase, needQuote, fee, payLeft);
    assert order.State() == after;
    res := Ok(());
  }

  /** The writes of fill_order once every check has passed: the fee is split
      off the price into the vault, the rest of the price goes to the maker,
      `canBase` is split off the order's coin and goes to the taker, the
      counters and the status are updated, and the change goes back. */
  method SettleFill(order: Order, fv: FeeVault, ledger: Ledger, sender: Address,
                    canBase: U64, needQuote: U64, fee: U64, payLeft: U64)
    requires canBase <= order.baseCoin && canBase <= order.baseRemaining
    requires order.filledBase + canBase <= U64_MAX && order.filledQuote + needQuote <= U64_MAX
    requires fee <= needQuote && (fee > 0 ==> fv.fees + fee <= U64_MAX)
    modifies order, fv, ledger
    ensures order.baseCoin == old(order.baseCoin) - canBase
    ensures order.baseRemaining == old(order.baseRemaining) - canBase
    ensures order.filledBase == old(order.filledBase) + canBase
    ensures order.filledQuote == old(order.filledQuote) + needQuote
    ensures order.status == if order.baseRemaining == 0 then Filled else Partial
    ensures order.live == old(order.live)
    ensures fv.fees == old(fv.fees) + fee
    ensures ledger.quote == Credit(Credit(old(ledger.quote), order.maker, needQuote - fee), sender, payLeft)
    ensures ledger.base == Credit(old(ledger.base), sender, canBase)
  {
    var quoteForMaker := needQuote;
    if fee > 0 {
      quoteForMaker := quoteForMaker - fee;
      fv.fees := fv.fees + fee;
    }
    ledger.TransferQuote(order.maker, quoteForMaker);

    order.baseCoin := order.baseCoin - canBase;
    order.baseRemaining := order.baseRemaining - canBase;
    order.filledBase := order.filledBase + canBase;
    order.filledQuote := order.filledQuote + needQuote;
    if order.baseRemaining == 0 {
      order.status := Filled;
    } else {
      order.status := Partial;
    }

    ledger.TransferBase(sender, canBase);
    if payLeft > 0 {
      ledger.TransferQuote(sender, payLeft);
    }
  }

  /** cancel: present the cap, get the remaining base back and retire both the
      order and the cap. The order's coin leaves it in either branch. */
  method Cancel(order: Order, cap: CancelCap, ledger: Ledger) returns (res: Result<()>)
    requires order.live && cap.live
    modifies order, cap, ledger
    ensures match CancelCheck(old(order.State()), cap.orderId, cap.maker)
      case Err(e) =>
        && res == Err(e)
        && order.live && cap.live && order.State() == old(order.State())
        && ledger.base == old(ledger.base) && ledger.quote == old(ledger.quote)
      case Ok(refund) =>
        && res == Ok(())
        && !order.live && !cap.live
        && order.State() == old(order.State()).(baseCoin := 0)
        && ledger.base == Credit(old(ledger.base), order.maker, refund)
        && ledger.quote == old(ledger.quote)
  {
    if cap.orderId != order.id { return Err(WrongOrder); }
    if cap.maker != order.maker { return Err(WrongMaker); }
    if !(order.status == Open || order.status == Partial) { return Err(NotCancelable); }

    if order.baseRemaining > 0 {
      ledger.TransferBase(order.maker, order.baseCoin);
    }
    order.baseCoin := 0;
    cap.live := false;
    order.live := false;
    res := Ok(());
  }
}
