/** Where transferred coins end up. `transfer::transfer` in the source hands a
    coin object to an address; this model keeps, per address, the total value
    of the coins of one kind it has been sent. */
module Ledgers {

  /** A Sui address; object ids and senders are addresses too. */
  datatype Address = Address(raw: nat)

  /** The value an address holds in ledger `m`. */
  function Balance(m: map<Address, nat>, a: Address): nat
  {
    if a in m then m[a] else 0
  }

  /** Transfer of a coin worth `amount` to `to`. A coin of value zero moves no
      value, so it leaves the ledger as it was. */
  function Credit(m: map<Address, nat>, to: Address, amount: nat): (r: map<Address, nat>)
    ensures Balance(r, to) == Balance(m, to) + amount
    ensures forall a :: a != to ==> Balance(r, a) == Balance(m, a)
    ensures amount == 0 ==> r == m
  {
    if amount == 0 then m else m[to := Balance(m, to) + amount]
  }
}
