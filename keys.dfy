/**
 * The keys of the pool cache: the chain identifier, the protocol tag and
 * the key of the local (in-process) tier, `pools<chainId>`.
 */
module PoolCacheKeys {

  /** A chain identifier: the members of ChainId are numbers. */
  type ChainId = nat

  /** The protocol tag a provider is configured with. */
  datatype Protocol = V2 | V3

  /** The decimal digit character of `d`. */
  function DigitChar(d: nat): char
    requires d < 10
  {
    ('0' as int + d) as char
  }

  /** The decimal rendering of a number, as a template literal prints it. */
  function Decimal(n: nat): (s: string)
    ensures |s| >= 1
    ensures forall i :: 0 <= i < |s| ==> '0' <= s[i] <= '9'
    ensures (n < 10) == (|s| == 1)
    decreases n
  {
    if n < 10 then [DigitChar(n)] else Decimal(n / 10) + [DigitChar(n % 10)]
  }

  /** Two numbers print alike exactly when they are equal. */
  lemma {:induction false} DecimalInjective(a: nat, b: nat)
    ensures Decimal(a) == Decimal(b) <==> a == b
    decreases a
  {
    if Decimal(a) == Decimal(b) {
      var s := Decimal(a);
      assert s[|s| - 1] == DigitChar(a % 10) == DigitChar(b % 10);
      assert a % 10 == b % 10;
      if a >= 10 {
        assert b >= 10;
        assert Decimal(a / 10) == s[..|s| - 1] == Decimal(b / 10);
        DecimalInjective(a / 10, b / 10);
      }
    }
  }

  /** The local-cache key of a chain: only the chain takes part in it. */
  function LocalPoolCacheKey(chainId: ChainId): (key: string)
    ensures |key| > 5 && key[..5] == "pools"
    ensures forall i :: 5 <= i < |key| ==> '0' <= key[i] <= '9'
  {
    "pools" + Decimal(chainId)
  }

  /** Distinct chains never share a local-cache slot, and one chain has one slot. */
  lemma LocalPoolCacheKeyInjective(a: ChainId, b: ChainId)
    ensures LocalPoolCacheKey(a) == LocalPoolCacheKey(b) <==> a == b
  {
    DecimalInjective(a, b);
    if LocalPoolCacheKey(a) == LocalPoolCacheKey(b) {
      assert Decimal(a) == LocalPoolCacheKey(a)[5..] == LocalPoolCacheKey(b)[5..] == Decimal(b);
    }
  }
}
