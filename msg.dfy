/** Values exchanged with the covered-option contract: the persisted record,
    the host context of a call, the command messages, the response and the
    error taxonomy. */
module Msg {

  datatype Option<+T> = None | Some(value: T)

  datatype Result<+T, +E> = Ok(value: T) | Err(error: E)

  /** An account address. The contract only compares addresses and renders
      them as text, so a string stands for it. */
  type Addr = string

  /** One denomination and its amount. The ledger's 128-bit amount is taken
      as an unbounded natural number. */
  datatype Coin = Coin(denom: string, amount: nat)

  /** The single persisted option record. */
  datatype State = State(
    creator: Addr,
    owner: Addr,
    collateral: seq<Coin>,
    counterOffer: seq<Coin>,
    expires: nat)

  /** The block context of a call: only its height is consulted. */
  datatype Env = Env(blockHeight: nat)

  /** Who calls and which funds travel with the call, in the order sent. */
  datatype MessageInfo = MessageInfo(sender: Addr, funds: seq<Coin>)

  datatype InstantiateMsg = InstantiateMsg(counterOffer: seq<Coin>, expires: nat)

  /** The three commands the `execute` entry point dispatches on. */
  datatype ExecuteMsg = Transfer(recipient: Addr) | Execute | Burn

  /** A declared "pay `amount` to `toAddress`" instruction; the host moves the funds. */
  datatype BankSend = BankSend(toAddress: Addr, amount: seq<Coin>)

  datatype Attribute = Attribute(key: string, value: string)

  /** What a successful command hands back to the host: settlement
      instructions in order, then log attributes in order. */
  datatype Response = Response(messages: seq<BankSend>, attributes: seq<Attribute>)

  /** The storage layer's failure when the record slot is empty. */
  datatype StdError = NotFound

  datatype ContractError =
    | Std(err: StdError)
    | Unauthorized
    | Expired
    | DiffCounterOffer(counterOffer: seq<Coin>)
    | CustomError(val: string)

  const NotYetExpired: string := "Option not yet expired"
  const FundsWithBurn: string := "dont send funds with burn"
}
