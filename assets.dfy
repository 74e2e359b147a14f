/** The entities of the wallet: assets shown in the token list, their balances
    and the fixed registry of known token contracts. */
module Assets {

  type Address = string

  /** A balance as read from the chain. The source turns these into display
      numbers (`fromWei` for the native asset, `Number(balance) / 10 ** decimals`
      for tokens); the model keeps the integers that were read. */
  datatype Balance =
    | NativeBalance(wei: nat)
    | TokenBalance(raw: nat, decimals: nat)

  /** One entry of the token list: `{ symbol, balance, address }`. */
  datatype Token = Token(symbol: string, balance: Balance, address: Address)

  /** One entry of the registry `knownTokens`: `{ name, address }`. */
  datatype KnownToken = KnownToken(name: string, address: Address)

  /** The registry the application is built with (two test-network contracts). */
  const KnownTokens: seq<KnownToken> := [
    KnownToken("LINK", "0x779877A7B0D9E8603169DdbD7836e478b4624789"),
    KnownToken("WETH", "0xfFf9976782d46CC05630D1f6eBAb18b2324d6B14")
  ]

  /** The symbol the native asset is listed under. */
  const NativeSymbol: string := "ETH"

  /** The native entry of the token list; it has the empty address. */
  function EthEntry(wei: nat): Token {
    Token(NativeSymbol, NativeBalance(wei), "")
  }

  /** Both `loadBalance` and `handleTransfer` choose the native path by the
      symbol alone, not by the address. */
  predicate IsNative(t: Token) {
    t.symbol == NativeSymbol
  }

  predicate InRegistry(address: Address, registry: seq<KnownToken>) {
    exists i :: 0 <= i < |registry| && registry[i].address == address
  }

  /** A token-list entry is either the native entry or carries the address of a
      registry contract together with a token balance. */
  predicate Listed(t: Token, registry: seq<KnownToken>) {
    (t.symbol == NativeSymbol && t.address == "" && t.balance.NativeBalance?)
    || (InRegistry(t.address, registry) && t.balance.TokenBalance?)
  }

  /** No registry contract has the empty address, so the native entry can be
      told apart from every registry entry. */
  predicate AddressesNonEmpty(registry: seq<KnownToken>) {
    forall i :: 0 <= i < |registry| ==> registry[i].address != ""
  }

  lemma KnownTokensAddressesNonEmpty()
    ensures AddressesNonEmpty(KnownTokens)
    ensures |KnownTokens| == 2
  {
  }
}
