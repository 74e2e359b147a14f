/** The token amount conversion of `handleTransfer`: the amount text is first
    converted to wei (18 fractional digits) and then divided by
    10^(18 - decimals) with big-integer division. */
module Amounts {

  /** The number of fractional digits `toWei(amount, "ether")` scales by. */
  const EtherDecimals: nat := 18

  function Pow10(n: nat): (p: nat)
    ensures p >= 1
  {
    if n == 0 then 1 else 10 * Pow10(n - 1)
  }

  /** `bigInt(wei).divide(bigInt(10).pow(18 - decimals))`: the amount in the
      token's base units, rounded down. */
  function TokenAmount(wei: nat, decimals: nat): (v: nat)
    requires decimals <= EtherDecimals
    ensures v * Pow10(EtherDecimals - decimals) <= wei < (v + 1) * Pow10(EtherDecimals - decimals)
  {
    Quotient(wei, Pow10(EtherDecimals - decimals))
  }

  /** Euclidean division by a positive divisor: the quotient brackets the dividend. */
  function Quotient(w: nat, s: nat): (q: nat)
    requires s >= 1
    ensures q * s <= w < (q + 1) * s
  {
    var q := w / s;
    assert w == q * s + w % s;
    assert (q + 1) * s == q * s + s;
    q
  }

  /** The bounds of TokenAmount determine it: it is the floor of the quotient. */
  lemma TokenAmountUnique(wei: nat, decimals: nat, v: nat)
    requires decimals <= EtherDecimals
    requires v * Pow10(EtherDecimals - decimals) <= wei < (v + 1) * Pow10(EtherDecimals - decimals)
    ensures v == TokenAmount(wei, decimals)
  {
    var s, u := Pow10(EtherDecimals - decimals), TokenAmount(wei, decimals);
    MulStrictCancel(v, u + 1, s);
    MulStrictCancel(u, v + 1, s);
  }

  /** Multiplication by the same factor preserves a strict order backwards. */
  lemma {:induction false} MulStrictCancel(a: nat, b: nat, s: nat)
    requires a * s < b * s
    ensures a < b
  {
    if a > 0 {
      assert b * s > 0;
      assert b > 0;
      assert (a - 1) * s == a * s - s && (b - 1) * s == b * s - s;
      MulStrictCancel(a - 1, b - 1, s);
    }
  }

  lemma {:induction false} Pow10Add(a: nat, b: nat)
    ensures Pow10(a + b) == Pow10(a) * Pow10(b)
  {
    if a > 0 {
      Pow10Add(a - 1, b);
      assert Pow10(a + b) == 10 * Pow10(a - 1 + b);
    }
  }

  /** A token with 18 decimals receives the wei amount unchanged. */
  lemma TokenAmountFullPrecision(wei: nat)
    ensures TokenAmount(wei, EtherDecimals) == wei
  {
  }

  /** Nothing is lost exactly when the wei amount is a multiple of 10^(18 - decimals). */
  lemma TokenAmountExact(wei: nat, decimals: nat)
    requires decimals <= EtherDecimals
    ensures TokenAmount(wei, decimals) * Pow10(EtherDecimals - decimals) == wei
        <==> wei % Pow10(EtherDecimals - decimals) == 0
  {
    var s := Pow10(EtherDecimals - decimals);
    assert TokenAmount(wei, decimals) == wei / s;
    assert wei == (wei / s) * s + wei % s;
  }

  /** A larger wei amount never yields a smaller token amount. */
  lemma TokenAmountMonotone(w1: nat, w2: nat, decimals: nat)
    requires decimals <= EtherDecimals && w1 <= w2
    ensures TokenAmount(w1, decimals) <= TokenAmount(w2, decimals)
  {
    var s, v1, v2 := Pow10(EtherDecimals - decimals), TokenAmount(w1, decimals), TokenAmount(w2, decimals);
    MulStrictCancel(v1, v2 + 1, s);
  }

  /** "10" with 6 decimals: toWei gives 10^19 and 10^19 / 10^12 = 10^7 base units. */
  lemma TokenAmountSixDecimals()
    ensures TokenAmount(Pow10(19), 6) == 10000000
  {
    assert Pow10(12) == 1000000000000;
    assert Pow10(19) == 10000000000000000000;
  }

  /** "1.5" for a token with no decimals: 1.5 * 10^18 wei becomes 1 base unit;
      the half is dropped without an error. */
  lemma TokenAmountTruncates()
    ensures TokenAmount(1500000000000000000, 0) == 1
    ensures TokenAmount(1500000000000000000, 0) * Pow10(EtherDecimals) != 1500000000000000000
  {
    Pow10Add(9, 9);
    assert Pow10(9) == 1000000000;
  }
}
