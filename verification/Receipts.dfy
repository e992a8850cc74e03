/** The terms of a receipt. */
module Receipts {
  import opened Base

  /** One value movement; `src` and `dst` index the receipt's owner list. */
  datatype Movement = Movement(mint: Key, amount: u64, src: byte, dst: byte)

  datatype Receipt = Receipt(
    consenter: Key, owners: seq<Key>, authority: Key, member: Key, callbackDisc: seq<byte>,
    slot: u64, movements: seq<Movement>, args: seq<byte>)

  predicate InRange(movements: seq<Movement>, n: nat) {
    forall i :: 0 <= i < |movements| ==> movements[i].src < n && movements[i].dst < n
  }

  predicate NoSelfMove(movements: seq<Movement>) {
    forall i :: 0 <= i < |movements| ==> movements[i].src != movements[i].dst
  }

  predicate Distinct(keys: seq<Key>) {
    forall i, j :: 0 <= i < j < |keys| ==> keys[i] != keys[j]
  }

  /** What `create_receipt` admits. */
  predicate Admitted(r: Receipt) {
    && 1 <= |r.owners| <= 255 && |r.movements| <= 255 && |r.args| <= 255
    && |r.callbackDisc| == 8
    && Distinct(r.owners) && InRange(r.movements, |r.owners|) && NoSelfMove(r.movements)
  }

  /** The custom error code for fault number `check` at ledger `index`. */
  function CheckCode(check: nat, index: nat): nat {
    7000 + check * 100 + index
  }

  predicate CodesDiffer(n: nat) {
    forall c, d, i, j :: 0 <= c < 5 && 0 <= d < 5 && 0 <= i < n && 0 <= j < n && CheckCode(c, i) == CheckCode(d, j) ==>
      c == d && i == j
  }

  /** The five checks' codes tell which check failed at which ledger only while there are at most a
      hundred ledgers, though a receipt may name 255. */
  lemma CodesDifferIff(n: nat)
    ensures CodesDiffer(n) <==> n <= 100
  {
    if n > 100 {
      assert CheckCode(0, 100) == CheckCode(1, 0);
    }
  }
}
