/** What `handleTransfer` sends once its gate has passed: a native value
    transfer or a call of the token contract's `transfer`. */
module Transfer {
  import opened Wrappers
  import opened Assets
  import opened Amounts

  /** A send request handed to the wallet: `sendTransaction({ from, to, value })`
      or `contract.methods.transfer(to, value).send({ from })`. */
  datatype SendCall =
    | NativeTransfer(sender: Address, recipient: Address, value: nat)
    | TokenTransfer(contract: Address, sender: Address, recipient: Address, value: nat)

  /** The send request issued for `token`, given the outcome of `toWei(amount)`
      and, for a token, the outcome of the `decimals()` read made at transfer
      time; None when one of them fails and nothing is sent. */
  function PlanTransfer(sender: Address, recipient: Address, token: Token,
                        wei: Option<nat>, decimals: Option<nat>): (r: Option<SendCall>)
    requires decimals.Some? ==> decimals.value <= EtherDecimals
    ensures r.Some? ==> r.value.sender == sender && r.value.recipient == recipient
    ensures IsNative(token) ==> (r.Some? <==> wei.Some?)
    ensures IsNative(token) && r.Some? ==> r.value.NativeTransfer? && r.value.value == wei.value
    ensures !IsNative(token) ==> (r.Some? <==> wei.Some? && decimals.Some?)
    ensures !IsNative(token) && r.Some? ==>
              && r.value.TokenTransfer?
              && r.value.contract == token.address
              && r.value.value * Pow10(EtherDecimals - decimals.value) <= wei.value
              && wei.value < (r.value.value + 1) * Pow10(EtherDecimals - decimals.value)
  {
    if IsNative(token) then
      match wei
      case Some(w) => Some(NativeTransfer(sender, recipient, w))
      case None => None
    else
      match decimals
      case None => None
      case Some(d) =>
        match wei
        case None => None
        case Some(w) => Some(TokenTransfer(token.address, sender, recipient, TokenAmount(w, d)))
  }

  /** The token amount does not depend on the balance or the decimals recorded
      in the token list: only the `decimals()` outcome read at transfer time counts. */
  lemma DecimalsReadAtTransferTime(sender: Address, recipient: Address, t1: Token, t2: Token,
                                   wei: Option<nat>, decimals: Option<nat>)
    requires decimals.Some? ==> decimals.value <= EtherDecimals
    requires t1.symbol == t2.symbol && t1.address == t2.address
    ensures PlanTransfer(sender, recipient, t1, wei, decimals) == PlanTransfer(sender, recipient, t2, wei, decimals)
  {
  }

  /** A registry token that reports the symbol "ETH" is sent as native value. */
  lemma EthSymbolSendsNative(sender: Address, recipient: Address, t: Token, wei: nat, decimals: Option<nat>)
    requires decimals.Some? ==> decimals.value <= EtherDecimals
    requires t.symbol == NativeSymbol && t.address != ""
    ensures PlanTransfer(sender, recipient, t, Some(wei), decimals) == Some(NativeTransfer(sender, recipient, wei))
  {
  }

  /** Worked example: "10" of a 6-decimal token "TOK" sends 10^7 base units. */
  lemma TenTokensWithSixDecimals(sender: Address, recipient: Address, contract: Address, b: Balance)
    ensures PlanTransfer(sender, recipient, Token("TOK", b, contract), Some(Pow10(19)), Some(6))
         == Some(TokenTransfer(contract, sender, recipient, 10000000))
  {
    TokenAmountSixDecimals();
  }
}
