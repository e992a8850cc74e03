/** What the program relies on from the chain it runs on: address derivation, the curve, the
    canonical token accounts and rent. A `Chain` carries them as functions; `Sound` states the
    assumptions made about them. */
module Chains {
  import opened Base

  datatype Chain = Chain(
    /** The key is off the curve, so only a program can sign for it. */
    isPda: Key -> bool,
    /** `["ledger", owner]`, `["session", owner]` and `["receipt", member, consenter]`. */
    ledgerPda: Key -> Key,
    sessionPda: Key -> Key,
    receiptPda: (Key, Key) -> Key,
    /** The bump seed of a derived address. */
    bump: Key -> byte,
    /** `["vault"]` and `[]`. */
    vault: Key,
    vaultAuthority: Key,
    /** The address some seeds derive under a program, if they derive one. */
    derive: (Key, seq<seq<byte>>) -> Option<Key>,
    /** The vault's associated token account for a mint under a token program. */
    reserveAddress: (Key, Key) -> Key,
    /** The token program a mint belongs to. */
    mintProgram: Key -> Key,
    tokenProgram: Key,
    token2022: Key,
    ephemeralVault: Key,
    /** The rent-exempt minimum of an account of some size. */
    rent: nat -> nat)
  {
    function Floor(): nat {
      rent(0)
    }

    predicate IsTokenProgram(k: Key) {
      k == tokenProgram || k == token2022
    }
  }

  /** A token account belongs to one mint under one token program. */
  ghost predicate ReservesApart(c: Chain) {
    forall m, t, m', t' :: c.reserveAddress(m, t) == c.reserveAddress(m', t') ==> m == m' && t == t'
  }

  ghost predicate Sound(c: Chain) {
    && (forall a, b :: c.ledgerPda(a) == c.ledgerPda(b) ==> a == b)
    && (forall a, b :: c.sessionPda(a) == c.sessionPda(b) ==> a == b)
    && (forall m, k, m', k' :: c.receiptPda(m, k) == c.receiptPda(m', k') ==> m == m' && k == k')
    && ReservesApart(c)
    && (forall p, q, s, t :: c.derive(p, s).Some? && c.derive(p, s) == c.derive(q, t) ==> p == q)
    && (forall p, s :: c.derive(p, s).Some? ==> c.isPda(c.derive(p, s).value))
    && (forall a, b :: a <= b ==> c.rent(a) <= c.rent(b))
  }

  /** `k` is an address the program `p` can sign for. */
  ghost predicate BelongsTo(c: Chain, k: Key, p: Key) {
    exists seeds :: c.derive(p, seeds) == Some(k)
  }

  // ---- The assumptions can be met ----

  /** Two keys written as one from which both can be read back. */
  function Pair(a: Key, b: Key): Key {
    if a == [] then [0] + b else [1, a[0]] + Pair(a[1..], b)
  }

  lemma {:induction false} PairIsInjective(a: Key, b: Key, a': Key, b': Key)
    requires Pair(a, b) == Pair(a', b')
    ensures a == a' && b == b'
  {
    if a == [] || a' == [] {
      assert Pair(a, b)[0] == Pair(a', b')[0];
      assert b == Pair(a, b)[1..] && b' == Pair(a', b')[1..];
    } else {
      assert Pair(a, b)[0] == 1 && Pair(a, b)[1] == a[0] && Pair(a', b')[1] == a'[0];
      assert Pair(a, b)[2..] == Pair(a[1..], b) && Pair(a', b')[2..] == Pair(a'[1..], b');
      PairIsInjective(a[1..], b, a'[1..], b');
      assert a == [a[0]] + a[1..] && a' == [a'[0]] + a'[1..];
    }
  }

  /** There is a chain with all the assumed properties, on which every program has as many addresses as
      there are seeds: the assumptions contradict neither one another nor what keys are. */
  lemma SoundChainExists() returns (c: Chain)
    ensures Sound(c)
    ensures forall p, a, b :: c.derive(p, [a]).Some? && (c.derive(p, [a]) == c.derive(p, [b]) ==> a == b)
  {
    c := Chain(
      k => k != [] && k[0] == 0,
      k => [1] + k, k => [2] + k, (m, k) => Pair(m, k), k => 0,
      [3], [4],
      (p, seeds) => Some([0] + Pair(p, if seeds == [] then [] else seeds[0])),
      (m, t) => Pair(m, t), m => [5], [5], [6], [7],
      n => n);
    forall a: Key
      ensures ([1] + a)[1..] == a && ([2] + a)[1..] == a && ([0] + a)[1..] == a
    {
    }
    forall m: Key, k: Key, m': Key, k': Key | Pair(m, k) == Pair(m', k')
      ensures m == m' && k == k'
    {
      PairIsInjective(m, k, m', k');
    }
  }
}
