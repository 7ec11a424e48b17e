/**
 The token contracts: every token keeps a balance per address, and a transfer
 traps on a negative amount or on insufficient funds.
 */
module Ledger {
  import opened Common

  /** Balances by (token, holder); an absent entry is zero. */
  type Balances = map<(Address, Address), int>

  function Bal(b: Balances, token: Address, holder: Address): int {
    if (token, holder) in b then b[(token, holder)] else 0
  }

  function SetBal(b: Balances, token: Address, holder: Address, amount: int): (r: Balances)
    ensures forall t, a :: Bal(r, t, a) == if t == token && a == holder then amount else Bal(b, t, a)
  {
    b[(token, holder) := amount]
  }

  function Add(b: Balances, token: Address, holder: Address, amount: int): (r: Balances)
    ensures forall t, a ::
              Bal(r, t, a) == Bal(b, t, a) + (if t == token && a == holder then amount else 0)
  {
    SetBal(b, token, holder, Bal(b, token, holder) + amount)
  }

  /** `after` is `before` with `amount` of `token` moved from one holder to another. */
  ghost predicate Moved(before: Balances, after: Balances, token: Address, from: Address, to: Address, amount: int) {
    forall t, a ::
      Bal(after, t, a) == Bal(before, t, a)
                          + (if t == token && a == to then amount else 0)
                          - (if t == token && a == from then amount else 0)
  }

  /** Moves `amount` of `token`; a transfer to oneself changes nothing. */
  function Transfer(b: Balances, token: Address, from: Address, to: Address, amount: int): (r: Option<Balances>)
    ensures r.Some? <==> 0 <= amount <= Bal(b, token, from)
    ensures r.Some? ==> Moved(b, r.value, token, from, to, amount)
  {
    if amount < 0 || Bal(b, token, from) < amount then None
    else Some(Add(Add(b, token, from, -amount), token, to, amount))
  }

  /** Activity of other parties: it never takes tokens out of the contract. */
  ghost predicate OthersMoved(before: Balances, after: Balances) {
    forall t :: Bal(after, t, This) >= Bal(before, t, This)
  }
}
