/** Values shared by every component of the exchange. */
module Types {

  datatype Option<+T> = None | Some(value: T)

  /** Users and tokens alike are 20-byte addresses; only their identity matters. */
  datatype Address = Address(value: nat)

  type OrderId = nat

  datatype Side = Buy | Sell {
    function Opposite(): Side {
      if Buy? then Sell else Buy
    }
  }

  datatype OrderType = Limit | Market

  /** What the book holds: no addresses, no signatures. */
  datatype EngineOrder = EngineOrder(id: OrderId, side: Side, price: nat, quantity: nat)

  /** The order a client signs. `signature` stands for what ECDSA recovery yields over this
      order's digest: the signer's address, or None when recovery fails. */
  datatype SignedOrder = SignedOrder(
    side: Side, maker: Address, baseToken: Address, quoteToken: Address,
    price: nat, quantity: nat, nonce: nat, expiry: nat, signature: Option<Address>)
  {
    /** The order hash covers every field but the signature and is taken to be injective. */
    function Hash(): SignedOrder {
      this.(signature := None)
    }

    /** The key under which the contract remembers that this order was used. */
    function NonceKey(): (Address, nat) {
      (maker, nonce)
    }
  }

  datatype Trade = Trade(
    makerOrder: SignedOrder, takerOrder: SignedOrder, price: nat, quantity: nat, timestamp: nat)

  /** A fill as reported to a client. */
  datatype Fill = Fill(
    orderId: OrderId, price: nat, filledQty: nat, remainingQty: nat, isMaker: bool)

  datatype Deposit = Deposit(user: Address, token: Address, amount: nat, blockNumber: nat)

  function Min(a: nat, b: nat): nat {
    if a <= b then a else b
  }

  function Max(a: nat, b: nat): nat {
    if a > b then a else b
  }
}
