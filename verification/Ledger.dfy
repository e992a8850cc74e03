/** `Ledger` as the handlers hold it in memory: an object whose slots are updated in place. Each
    method is proved against the operation on sequences of the same name in SlotTable. */
module LedgerObject {
  import opened Base
  import opened SlotTable

  /** What an account stores: the fields of a ledger as a value. */
  datatype LedgerData = LedgerData(
    owner: Key, pdaAuth: bool, bump: byte, rentPayer: Key, authorized: Key, entries: seq<Entry>)

  const LEDGER_HEADER: nat := 116
  const ENTRY_SIZE: nat := 40

  function LedgerSpace(slots: nat): nat {
    LEDGER_HEADER + slots * ENTRY_SIZE
  }

  class Ledger {
    var owner: Key
    var pdaAuth: bool
    var bump: byte
    var rentPayer: Key
    var authorized: Key
    var entries: seq<Entry>

    function Data(): LedgerData
      reads this
    {
      LedgerData(owner, pdaAuth, bump, rentPayer, authorized, entries)
    }

    /** A ledger as it is first created: no program, and `slots` free slots. */
    constructor (owner: Key, pdaAuth: bool, bump: byte, rentPayer: Key, slots: nat)
      ensures Data() == LedgerData(owner, pdaAuth, bump, rentPayer, ZERO_KEY, FreshTable(slots))
    {
      this.owner, this.pdaAuth, this.bump, this.rentPayer := owner, pdaAuth, bump, rentPayer;
      authorized := ZERO_KEY;
      entries := FreshTable(slots);
    }

    /** The ledger an account holds. */
    constructor Load(d: LedgerData)
      ensures Data() == d
    {
      owner, pdaAuth, bump, rentPayer := d.owner, d.pdaAuth, d.bump, d.rentPayer;
      authorized, entries := d.authorized, d.entries;
    }

    method FreeSlots() returns (n: nat)
      ensures n == SlotTable.FreeSlots(entries)
    {
      n := 0;
      var i := |entries|;
      while i > 1
        invariant 0 <= i <= |entries|
        invariant |entries| > 0 ==> i >= 1
        invariant |entries| > 0 ==> n == CountFree(entries, i)
        invariant |entries| == 0 ==> n == 0
      {
        i := i - 1;
        if entries[i].mint == ZERO_KEY {
          n := n + 1;
        }
      }
    }

    method IndexOf(mint: Key) returns (r: Option<nat>)
      ensures r == SlotTable.IndexOf(entries, mint)
    {
      if mint == ZERO_KEY {
        return Some(0);
      }
      var i := 0;
      while i < |entries|
        invariant i <= |entries|
        invariant Position(entries, mint, 0) == Position(entries, mint, i)
      {
        if entries[i].mint == mint {
          return Some(i);
        }
        i := i + 1;
      }
      return None;
    }

    method IndexOrClaim(mint: Key) returns (r: Result<nat>)
      requires |entries| > 0
      modifies this`entries
      ensures match SlotTable.IndexOrClaim(old(entries), mint)
              case Success((i, es)) => r == Success(i) && entries == es
              case Failure(e) => r == Failure(e) && entries == old(entries)
    {
      var found := IndexOf(mint);
      if found.Some? {
        return Success(found.value);
      }
      var free := 1;
      while free < |entries| && entries[free].mint != ZERO_KEY
        invariant 1 <= free <= |entries|
        invariant FreeIndex(entries) == Position(entries, ZERO_KEY, free)
      {
        free := free + 1;
      }
      if free == |entries| {
        return Failure(LedgerFull);
      }
      entries := entries[free := entries[free].(mint := mint)];
      return Success(free);
    }

    method IndexForCredit(mint: Key, mayClaim: bool) returns (r: Result<nat>)
      requires |entries| > 0
      modifies this`entries
      ensures SlotTable.IndexOf(old(entries), mint).None? && !mayClaim ==>
                r == Failure(SlotClaimNeedsConsent) && entries == old(entries)
      ensures SlotTable.IndexOf(old(entries), mint).Some? || mayClaim ==>
                match SlotTable.IndexOrClaim(old(entries), mint)
                case Success((i, es)) => r == Success(i) && entries == es
                case Failure(e) => r == Failure(e) && entries == old(entries)
    {
      var found := IndexOf(mint);
      if found.Some? {
        return Success(found.value);
      }
      if !mayClaim {
        return Failure(SlotClaimNeedsConsent);
      }
      r := IndexOrClaim(mint);
    }

    method Debit(index: nat, amount: u64) returns (r: Result<()>)
      requires index < |entries|
      modifies this`entries
      ensures match DebitAt(old(entries), index, amount)
              case Success(es) => r == Success(()) && entries == es
              case Failure(e) => r == Failure(e) && entries == old(entries)
    {
      if entries[index].amount < amount {
        return Failure(Insufficient);
      }
      entries := entries[index := entries[index].(amount := entries[index].amount - amount)];
      if entries[index].amount == 0 && index != 0 {
        entries := entries[index := entries[index].(mint := ZERO_KEY)];
      }
      return Success(());
    }

    method Credit(index: nat, amount: u64) returns (r: Result<()>)
      requires index < |entries|
      modifies this`entries
      ensures match CreditAt(old(entries), index, amount)
              case Success(es) => r == Success(()) && entries == es
              case Failure(e) => r == Failure(e) && entries == old(entries)
    {
      if entries[index].amount + amount > MAX_U64 {
        return Failure(Overflow);
      }
      entries := entries[index := entries[index].(amount := entries[index].amount + amount)];
      return Success(());
    }

    /** Appends free slots one by one, as `ensure_headroom` does. */
    method Grow(extra: nat)
      modifies this`entries
      ensures entries == old(entries) + FreshTable(extra)
    {
      var i := 0;
      while i < extra
        invariant i <= extra
        invariant entries == old(entries) + FreshTable(i)
      {
        entries := entries + [FREE_SLOT];
        i := i + 1;
      }
    }
  }
}
