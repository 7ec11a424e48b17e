/**
 Vocabulary shared by the three contracts: optional values, addresses, the host
 environment a call runs in, and the integer arithmetic of the source.
 */
module Common {

  /** An optional value. As the result of an entry point, `None` is a trapped call:
      the host discards every write and transfer made during it. */
  datatype Option<+T> = None | Some(value: T) {
    predicate IsFailure() {
      None?
    }

    function PropagateFailure<U>(): Option<U>
      requires None?
    {
      None
    }

    function Extract(): T
      requires Some?
    {
      value
    }

    function GetOr(default: T): T {
      match this
      case Some(v) => v
      case None => default
    }
  }

  /** `This` is the address of the contract itself. */
  datatype Address = This | Party(id: nat)

  /** What the host supplies to one call: the ledger timestamp, the ledger sequence
      number and the addresses that signed. The contract never signs for itself. */
  datatype Env = Env(now: nat, sequence: nat, signers: set<Address>) {
    predicate Authorised(a: Address) {
      a in signers && a != This
    }
  }

  /** The party has signed the call. */
  predicate Signed(e: Env, a: Address) {
    a in e.signers && a != This
  }

  const BPS := 10_000
  const U32_MAX := 0xFFFF_FFFF

  function Min(a: int, b: int): int {
    if a <= b then a else b
  }

  /** Division that rounds toward zero. */
  function TruncDiv(a: int, b: int): int
    requires b > 0
  {
    if a >= 0 then a / b else -((-a) / b)
  }

  function SaturatingSub(a: nat, b: nat): nat {
    if a >= b then a - b else 0
  }
}
