/** `loadTokens`: the token list built from the native balance read and, for
    each registry contract in order, its `balanceOf`, `decimals` and `symbol`
    reads. Each read is an outcome supplied by the caller. */
module Aggregation {
  import opened Wrappers
  import opened Assets

  /** The outcomes of the three reads made for one registry contract. */
  datatype TokenReads = TokenReads(balanceOf: Option<nat>, decimals: Option<nat>, symbol: Option<string>)

  /** The one `try` block around the three reads completes only if all three do. */
  predicate Resolves(r: TokenReads) {
    r.balanceOf.Some? && r.decimals.Some? && r.symbol.Some?
  }

  /** The entry pushed for a registry contract: the symbol the contract reports
      (not the registry name) and the registry address. */
  function RegistryEntry(k: KnownToken, r: TokenReads): Token
    requires Resolves(r)
  {
    Token(r.symbol.value, TokenBalance(r.balanceOf.value, r.decimals.value), k.address)
  }

  /** What one registry contract contributes: its entry, or nothing. */
  function Admitted(k: KnownToken, r: TokenReads): seq<Token> {
    if Resolves(r) then [RegistryEntry(k, r)] else []
  }

  /** The registry entries, in registry order, of the contracts whose reads all succeed. */
  function Resolved(registry: seq<KnownToken>, outs: seq<TokenReads>): seq<Token>
    requires |outs| == |registry|
    decreases |registry|
  {
    if |registry| == 0 then []
    else Admitted(registry[0], outs[0]) + Resolved(registry[1..], outs[1..])
  }

  /** The native entry, present exactly when the native balance read succeeds. */
  function NativeEntries(native: Option<nat>): seq<Token> {
    match native
    case Some(wei) => [EthEntry(wei)]
    case None => []
  }

  /** The list `loadTokens` hands to `setTokens`. */
  function TokenList(native: Option<nat>, registry: seq<KnownToken>, outs: seq<TokenReads>): seq<Token>
    requires |outs| == |registry|
  {
    NativeEntries(native) + Resolved(registry, outs)
  }

  /** The loop of `loadTokens`: push the native entry if its read succeeded, then
      push each registry entry whose three reads all succeed. */
  method BuildTokenList(native: Option<nat>, registry: seq<KnownToken>, outs: seq<TokenReads>)
    returns (tokenBalances: seq<Token>)
    requires |outs| == |registry|
    ensures tokenBalances == TokenList(native, registry, outs)
  {
    tokenBalances := [];
    if native.Some? {
      tokenBalances := tokenBalances + [EthEntry(native.value)];
    }
    var i := 0;
    while i < |registry|
      invariant 0 <= i <= |registry|
      invariant tokenBalances == NativeEntries(native) + Resolved(registry[..i], outs[..i])
    {
      ResolvedAppend(registry[..i], outs[..i], [registry[i]], [outs[i]]);
      assert registry[..i + 1] == registry[..i] + [registry[i]];
      assert outs[..i + 1] == outs[..i] + [outs[i]];
      if Resolves(outs[i]) {
        tokenBalances := tokenBalances + [RegistryEntry(registry[i], outs[i])];
      }
      i := i + 1;
    }
    assert registry[..i] == registry && outs[..i] == outs;
  }

  /** Resolving a concatenated registry resolves each part on its own. */
  lemma {:induction false} ResolvedAppend(reg1: seq<KnownToken>, outs1: seq<TokenReads>,
                                          reg2: seq<KnownToken>, outs2: seq<TokenReads>)
    requires |outs1| == |reg1| && |outs2| == |reg2|
    ensures Resolved(reg1 + reg2, outs1 + outs2) == Resolved(reg1, outs1) + Resolved(reg2, outs2)
  {
    if |reg1| == 0 {
      assert reg1 + reg2 == reg2 && outs1 + outs2 == outs2;
    } else {
      var reg, outs := reg1 + reg2, outs1 + outs2;
      assert reg[0] == reg1[0] && outs[0] == outs1[0];
      assert reg[1..] == reg1[1..] + reg2 && outs[1..] == outs1[1..] + outs2;
      calc {
        Resolved(reg, outs);
        Admitted(reg1[0], outs1[0]) + Resolved(reg1[1..] + reg2, outs1[1..] + outs2);
        { ResolvedAppend(reg1[1..], outs1[1..], reg2, outs2); }
        Admitted(reg1[0], outs1[0]) + (Resolved(reg1[1..], outs1[1..]) + Resolved(reg2, outs2));
        Resolved(reg1, outs1) + Resolved(reg2, outs2);
      }
    }
  }

  /** Entry `i` sits between the entries of the contracts before it and those
      after it, and is present exactly when its own reads all succeed. */
  lemma ResolvedSplit(registry: seq<KnownToken>, outs: seq<TokenReads>, i: nat)
    requires |outs| == |registry| && i < |registry|
    ensures Resolved(registry, outs)
         == Resolved(registry[..i], outs[..i]) + Admitted(registry[i], outs[i])
            + Resolved(registry[i + 1..], outs[i + 1..])
  {
    assert registry == registry[..i] + ([registry[i]] + registry[i + 1..]);
    assert outs == outs[..i] + ([outs[i]] + outs[i + 1..]);
    ResolvedAppend(registry[..i], outs[..i], [registry[i]] + registry[i + 1..], [outs[i]] + outs[i + 1..]);
    assert ([registry[i]] + registry[i + 1..])[1..] == registry[i + 1..];
    assert ([outs[i]] + outs[i + 1..])[1..] == outs[i + 1..];
  }

  /** Changing the outcome of one contract's reads changes at most that
      contract's entry: the entries of every other contract stay as they were. */
  lemma OneOutcomeAffectsOneEntry(registry: seq<KnownToken>, outs: seq<TokenReads>, i: nat, r: TokenReads)
    requires |outs| == |registry| && i < |registry|
    ensures Resolved(registry, outs[i := r])
         == Resolved(registry[..i], outs[..i]) + Admitted(registry[i], r)
            + Resolved(registry[i + 1..], outs[i + 1..])
  {
    var changed := outs[i := r];
    ResolvedSplit(registry, changed, i);
    assert changed[..i] == outs[..i];
    assert changed[i + 1..] == outs[i + 1..];
  }

  /** A token appears among the registry entries iff it is the entry of some
      contract whose three reads all succeed. */
  lemma {:induction false} ResolvedMembership(registry: seq<KnownToken>, outs: seq<TokenReads>, t: Token)
    requires |outs| == |registry|
    ensures t in Resolved(registry, outs)
        <==> exists i :: 0 <= i < |registry| && Resolves(outs[i]) && t == RegistryEntry(registry[i], outs[i])
    decreases |registry|
  {
    if |registry| > 0 {
      ResolvedMembership(registry[1..], outs[1..], t);
      if t in Resolved(registry[1..], outs[1..]) {
        var j :| 0 <= j < |registry| - 1 && Resolves(outs[1..][j]) && t == RegistryEntry(registry[1..][j], outs[1..][j]);
        assert Resolves(outs[j + 1]) && t == RegistryEntry(registry[j + 1], outs[j + 1]);
      }
      if exists i :: 0 <= i < |registry| && Resolves(outs[i]) && t == RegistryEntry(registry[i], outs[i]) {
        var i :| 0 <= i < |registry| && Resolves(outs[i]) && t == RegistryEntry(registry[i], outs[i]);
        if i > 0 {
          assert Resolves(outs[1..][i - 1]) && t == RegistryEntry(registry[1..][i - 1], outs[1..][i - 1]);
        }
      }
    }
  }

  /** At most one entry per contract; one per contract exactly when every
      contract's reads succeed. */
  lemma {:induction false} ResolvedLength(registry: seq<KnownToken>, outs: seq<TokenReads>)
    requires |outs| == |registry|
    ensures |Resolved(registry, outs)| <= |registry|
    ensures |Resolved(registry, outs)| == |registry| <==> forall i :: 0 <= i < |registry| ==> Resolves(outs[i])
    decreases |registry|
  {
    if |registry| > 0 {
      ResolvedLength(registry[1..], outs[1..]);
      if forall i :: 0 <= i < |registry| ==> Resolves(outs[i]) {
        assert forall i :: 0 <= i < |registry| - 1 ==> Resolves(outs[1..][i]) by {
          forall i | 0 <= i < |registry| - 1 ensures Resolves(outs[1..][i]) {
            assert outs[1..][i] == outs[i + 1];
          }
        }
      } else {
        var i :| 0 <= i < |registry| && !Resolves(outs[i]);
        if i > 0 {
          assert !Resolves(outs[1..][i - 1]);
        }
      }
    }
  }

  /** If exactly one of N contracts fails, the registry part has N - 1 entries. */
  lemma SingleFailureDropsOne(registry: seq<KnownToken>, outs: seq<TokenReads>, i: nat)
    requires |outs| == |registry| && i < |registry|
    requires !Resolves(outs[i])
    requires forall j :: 0 <= j < |registry| && j != i ==> Resolves(outs[j])
    ensures |Resolved(registry, outs)| == |registry| - 1
  {
    ResolvedSplit(registry, outs, i);
    var pre, post := outs[..i], outs[i + 1..];
    assert forall j :: 0 <= j < |pre| ==> Resolves(pre[j]) by {
      forall j | 0 <= j < |pre| ensures Resolves(pre[j]) { assert pre[j] == outs[j]; }
    }
    assert forall j :: 0 <= j < |post| ==> Resolves(post[j]) by {
      forall j | 0 <= j < |post| ensures Resolves(post[j]) { assert post[j] == outs[i + 1 + j]; }
    }
    ResolvedLength(registry[..i], pre);
    ResolvedLength(registry[i + 1..], post);
  }

  /** The native entry comes first exactly when the native read succeeds; the
      registry entries follow whatever the native read did. */
  lemma NativeEntryFirst(native: Option<nat>, registry: seq<KnownToken>, outs: seq<TokenReads>)
    requires |outs| == |registry| && AddressesNonEmpty(registry)
    ensures var list := TokenList(native, registry, outs);
            (|list| > 0 && list[0].symbol == NativeSymbol && list[0].address == "") <==> native.Some?
    ensures native.Some? ==> TokenList(native, registry, outs) == [EthEntry(native.value)] + Resolved(registry, outs)
    ensures native.None? ==> TokenList(native, registry, outs) == Resolved(registry, outs)
  {
  }

  /** The list has at most one entry more than the registry. */
  lemma TokenListBound(native: Option<nat>, registry: seq<KnownToken>, outs: seq<TokenReads>)
    requires |outs| == |registry|
    ensures |TokenList(native, registry, outs)| <= 1 + |registry|
  {
    ResolvedLength(registry, outs);
  }

  /** Every entry is the native one or carries a registry address. */
  lemma TokenListListed(native: Option<nat>, registry: seq<KnownToken>, outs: seq<TokenReads>)
    requires |outs| == |registry|
    ensures forall t :: t in TokenList(native, registry, outs) ==> Listed(t, registry)
  {
    forall t | t in TokenList(native, registry, outs) ensures Listed(t, registry) {
      if t !in NativeEntries(native) {
        ResolvedMembership(registry, outs, t);
        var i :| 0 <= i < |registry| && Resolves(outs[i]) && t == RegistryEntry(registry[i], outs[i]);
        assert registry[i].address == t.address;
      }
    }
  }
}
