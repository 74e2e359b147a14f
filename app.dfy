/** The state of the `App` component and its handlers. Each asynchronous call
    a handler makes is replaced by its outcome, passed in as a parameter, and
    each handler runs as one sequential step. */
module App {
  import opened Wrappers
  import opened Assets
  import opened Aggregation
  import opened Amounts
  import opened Transfer

  type Hash = string

  /** The outcomes of the reads `loadBalance` may make: `getBalance` for the
      native asset, `balanceOf` then `decimals` for a token. */
  datatype BalanceReads = BalanceReads(native: Option<nat>, balanceOf: Option<nat>, decimals: Option<nat>)

  /** JavaScript truthiness of an optional string: present and not empty. */
  predicate Present(s: Option<string>) {
    s.Some? && s.value != ""
  }

  /** `accounts[0]`, which is `undefined` for an empty list. */
  function FirstAccount(accounts: seq<Address>): (r: Option<Address>)
    ensures r.Some? <==> |accounts| > 0
    ensures r.Some? ==> r.value == accounts[0]
  {
    if |accounts| > 0 then Some(accounts[0]) else None
  }

  /** `tokens.find((t) => t.address === address)`: the first entry with that address. */
  function FindToken(tokens: seq<Token>, address: Address): (r: Option<Token>)
    ensures r.None? <==> forall t :: t in tokens ==> t.address != address
    ensures r.Some? ==> exists i :: 0 <= i < |tokens| && tokens[i] == r.value && r.value.address == address
                                    && forall j :: 0 <= j < i ==> tokens[j].address != address
  {
    if |tokens| == 0 then None
    else if tokens[0].address == address then Some(tokens[0])
    else
      var r := FindToken(tokens[1..], address);
      assert forall t :: t in tokens ==> t == tokens[0] || t in tokens[1..];
      if r.Some? then
        var i :| 0 <= i < |tokens| - 1 && tokens[1..][i] == r.value && r.value.address == address
                 && forall j :: 0 <= j < i ==> tokens[1..][j].address != address;
        assert tokens[i + 1] == r.value;
        assert forall j :: 0 <= j < i + 1 ==> tokens[j].address != address by {
          forall j | 0 <= j < i + 1 ensures tokens[j].address != address {
            if j > 0 { assert tokens[j] == tokens[1..][j - 1]; }
          }
        }
        r
      else
        r
  }

  /** The balance `loadBalance` sets for `token`: the native balance or the raw
      token balance with its decimals; null when a read it needs fails. */
  function Refreshed(token: Token, outcome: BalanceReads): (r: Option<Balance>)
    ensures IsNative(token) ==> (r.Some? <==> outcome.native.Some?)
    ensures IsNative(token) && r.Some? ==> r.value == NativeBalance(outcome.native.value)
    ensures !IsNative(token) ==> (r.Some? <==> outcome.balanceOf.Some? && outcome.decimals.Some?)
    ensures !IsNative(token) && r.Some? ==> r.value == TokenBalance(outcome.balanceOf.value, outcome.decimals.value)
  {
    if IsNative(token) then
      match outcome.native
      case Some(w) => Some(NativeBalance(w))
      case None => None
    else if outcome.balanceOf.Some? && outcome.decimals.Some? then
      Some(TokenBalance(outcome.balanceOf.value, outcome.decimals.value))
    else
      None
  }

  class Session {
    /** `knownTokens`, the registry the component was built with. */
    const knownTokens: seq<KnownToken>
    /** Whether a web3 instance exists (a wallet provider was found). */
    const web3: bool
    var account: Option<Address>
    var balance: Option<Balance>
    var tokens: seq<Token>
    var selectedToken: Option<Token>
    var recipient: string
    var amount: string
    var transactionHash: Option<Hash>

    /** The token list only ever holds the native entry and registry entries,
        at most one per registry contract plus one, and the selected token was
        taken from such a list. */
    predicate Valid()
      reads this
    {
      && |tokens| <= |knownTokens| + 1
      && (forall t :: t in tokens ==> Listed(t, knownTokens))
      && (selectedToken.Some? ==> Listed(selectedToken.value, knownTokens))
    }

    /** The initial React state; `web3` is set when a provider is present. */
    constructor (registry: seq<KnownToken>, providerPresent: bool)
      ensures Valid()
      ensures knownTokens == registry && web3 == providerPresent
      ensures account.None? && balance.None? && tokens == [] && selectedToken.None?
      ensures recipient == "" && amount == "" && transactionHash.None?
    {
      knownTokens := registry;
      web3 := providerPresent;
      account := None;
      balance := None;
      tokens := [];
      selectedToken := None;
      recipient := "";
      amount := "";
      transactionHash := None;
    }

    /** The recipient input field. */
    method EnterRecipient(text: string)
      modifies this`recipient
      ensures recipient == text
    {
      recipient := text;
    }

    /** The amount input field. */
    method EnterAmount(text: string)
      modifies this`amount
      ensures amount == text
    {
      amount := text;
    }

    /** `loadBalance(account, token)`: a no-op without web3 or without a token;
        otherwise the balance read for the token, or null on a failed read. */
    method LoadBalance(token: Option<Token>, outcome: BalanceReads)
      modifies this`balance
      ensures !web3 || token.None? ==> balance == old(balance)
      ensures web3 && token.Some? ==> balance == Refreshed(token.value, outcome)
    {
      if web3 && token.Some? {
        var t := token.value;
        if IsNative(t) {
          if outcome.native.Some? {
            balance := Some(NativeBalance(outcome.native.value));
          } else {
            balance := None;
          }
        } else {
          if outcome.balanceOf.Some? && outcome.decimals.Some? {
            balance := Some(TokenBalance(outcome.balanceOf.value, outcome.decimals.value));
          } else {
            balance := None;
          }
        }
      }
    }

    /** `loadTokens(account)`: the token list is replaced, in one assignment,
        by the freshly built list; without web3 every read throws and the list
        becomes empty. */
    method LoadTokens(native: Option<nat>, outs: seq<TokenReads>)
      requires Valid() && |outs| == |knownTokens|
      modifies this`tokens
      ensures Valid()
      ensures tokens == if web3 then TokenList(native, knownTokens, outs) else []
    {
      var tokenBalances: seq<Token> := [];
      if web3 {
        tokenBalances := BuildTokenList(native, knownTokens, outs);
        TokenListBound(native, knownTokens, outs);
        TokenListListed(native, knownTokens, outs);
      }
      tokens := tokenBalances;
    }

    /** `handleAccountsChanged(accounts)`. With accounts: the first becomes the
        account, the tokens are reloaded and, if a token is selected, its
        balance is reloaded; the selected token itself is kept. Without
        accounts: account and balance become null and nothing else changes. */
    method HandleAccountsChanged(accounts: seq<Address>, native: Option<nat>, outs: seq<TokenReads>,
                                 refresh: BalanceReads)
      requires Valid() && |outs| == |knownTokens|
      modifies this`account, this`tokens, this`balance
      ensures Valid()
      ensures |accounts| > 0 ==>
                && account == Some(accounts[0])
                && tokens == (if web3 then TokenList(native, knownTokens, outs) else [])
                && balance == (if web3 && selectedToken.Some? then Refreshed(selectedToken.value, refresh)
                               else old(balance))
      ensures |accounts| == 0 ==> account.None? && balance.None? && tokens == old(tokens)
      ensures selectedToken == old(selectedToken) && transactionHash == old(transactionHash)
    {
      if |accounts| > 0 {
        account := Some(accounts[0]);
        LoadTokens(native, outs);
        if selectedToken.Some? {
          LoadBalance(selectedToken, refresh);
        }
      } else {
        account := None;
        balance := None;
      }
    }

    /** `connectWallet()`: without web3, or when the account request fails,
        nothing changes; otherwise as an account change to the returned list,
        except that an empty list leaves the account undefined and still
        reloads the tokens. */
    method ConnectWallet(request: Option<seq<Address>>, native: Option<nat>, outs: seq<TokenReads>,
                         refresh: BalanceReads)
      requires Valid() && |outs| == |knownTokens|
      modifies this`account, this`tokens, this`balance
      ensures Valid()
      ensures !web3 || request.None? ==>
                account == old(account) && tokens == old(tokens) && balance == old(balance)
      ensures web3 && request.Some? ==>
                && account == FirstAccount(request.value)
                && tokens == TokenList(native, knownTokens, outs)
                && balance == (if selectedToken.Some? then Refreshed(selectedToken.value, refresh)
                               else old(balance))
      ensures selectedToken == old(selectedToken) && transactionHash == old(transactionHash)
    {
      if web3 {
        match request
        case None =>
        case Some(accounts) =>
          account := FirstAccount(accounts);
          LoadTokens(native, outs);
          if selectedToken.Some? {
            LoadBalance(selectedToken, refresh);
          }
      }
    }

    /** `handleTokenChange(e)`: the first listed token with the chosen address
        (or none) becomes the selected token; its balance is reloaded only when
        an account is set. */
    method HandleTokenChange(address: Address, refresh: BalanceReads)
      requires Valid()
      modifies this`selectedToken, this`balance
      ensures Valid()
      ensures selectedToken == FindToken(tokens, address)
      ensures selectedToken.Some? ==> selectedToken.value in tokens
      ensures balance == (if Present(account) && web3 && selectedToken.Some?
                          then Refreshed(selectedToken.value, refresh) else old(balance))
    {
      var token := FindToken(tokens, address);
      selectedToken := token;
      if Present(account) {
        LoadBalance(token, refresh);
      }
    }

    /** The guard of `handleTransfer`: web3, account, recipient, amount and
        selected token all present. */
    predicate TransferReady()
      reads this
    {
      web3 && Present(account) && recipient != "" && amount != "" && selectedToken.Some?
    }

    /** `handleTransfer()`. Returns the send request made, if any. Nothing is
        sent unless the guard holds; the native path is taken for the symbol
        "ETH" and sends `toWei(amount)`; a token is sent the converted amount
        using the `decimals()` outcome read now. Only a send that succeeds
        changes the state, and only the transaction hash. */
    method HandleTransfer(toWei: string -> Option<nat>, decimalsRead: Option<nat>, sendResult: Option<Hash>)
      returns (sent: Option<SendCall>)
      requires Valid()
      requires decimalsRead.Some? ==> decimalsRead.value <= EtherDecimals
      modifies this`transactionHash
      ensures Valid()
      ensures !TransferReady() ==> sent.None? && transactionHash == old(transactionHash)
      ensures TransferReady() ==>
                sent == PlanTransfer(account.value, recipient, selectedToken.value, toWei(amount), decimalsRead)
      ensures sent.Some? && sent.value.TokenTransfer? ==> InRegistry(sent.value.contract, knownTokens)
      ensures transactionHash == if sent.Some? && sendResult.Some? then sendResult else old(transactionHash)
    {
      sent := None;
      if TransferReady() {
        var token := selectedToken.value;
        if IsNative(token) {
          var wei := toWei(amount);
          if wei.Some? {
            sent := Some(NativeTransfer(account.value, recipient, wei.value));
          }
        } else {
          if decimalsRead.Some? {
            var wei := toWei(amount);
            if wei.Some? {
              var value := TokenAmount(wei.value, decimalsRead.value);
              sent := Some(TokenTransfer(token.address, account.value, recipient, value));
            }
          }
        }
        if sent.Some? && sendResult.Some? {
          transactionHash := sendResult;
        }
      }
    }
  }
}
