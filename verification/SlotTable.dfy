/** The ledger's array of `(mint, amount)` slots, as operations on a sequence, and the reading of a
    well-formed table as a map from mints to amounts. Slot 0 is SOL by position; a zero mint
    anywhere else marks a free slot. */
module SlotTable {
  import opened Base

  datatype Entry = Entry(mint: Key, amount: u64)

  const FREE_SLOT := Entry(ZERO_KEY, 0)

  ghost predicate WellFormed(es: seq<Entry>) {
    && |es| > 0
    && es[0].mint == ZERO_KEY
    && (forall i, j :: 0 < i < j < |es| && es[i].mint != ZERO_KEY ==> es[i].mint != es[j].mint)
    && (forall i :: 0 < i < |es| && es[i].mint == ZERO_KEY ==> es[i].amount == 0)
  }

  /** The first index at or after `from` whose mint is `m`. */
  function Position(es: seq<Entry>, m: Key, from: nat): (r: Option<nat>)
    requires from <= |es|
    ensures r.Some? ==> from <= r.value < |es| && es[r.value].mint == m
    ensures r.Some? ==> forall i :: from <= i < r.value ==> es[i].mint != m
    ensures r.None? ==> forall i :: from <= i < |es| ==> es[i].mint != m
    decreases |es| - from
  {
    if from == |es| then None
    else if es[from].mint == m then Some(from)
    else Position(es, m, from + 1)
  }

  function IndexOf(es: seq<Entry>, m: Key): Option<nat> {
    if m == ZERO_KEY then Some(0) else Position(es, m, 0)
  }

  /** The first free slot. */
  function FreeIndex(es: seq<Entry>): (r: Option<nat>)
    requires |es| > 0
    ensures r.Some? ==> 0 < r.value < |es| && es[r.value].mint == ZERO_KEY
    ensures r.None? ==> forall i :: 0 < i < |es| ==> es[i].mint != ZERO_KEY
  {
    Position(es, ZERO_KEY, 1)
  }

  function CountFree(es: seq<Entry>, from: nat): nat
    requires from <= |es|
    decreases |es| - from
  {
    if from == |es| then 0
    else (if es[from].mint == ZERO_KEY then 1 else 0) + CountFree(es, from + 1)
  }

  /** How many slots beyond slot 0 are free. */
  function FreeSlots(es: seq<Entry>): nat {
    if |es| == 0 then 0 else CountFree(es, 1)
  }

  function IndexOrClaim(es: seq<Entry>, m: Key): Result<(nat, seq<Entry>)>
    requires |es| > 0
  {
    match IndexOf(es, m)
    case Some(i) => Success((i, es))
    case None =>
      match FreeIndex(es)
      case None => Failure(LedgerFull)
      case Some(i) => Success((i, es[i := es[i].(mint := m)]))
  }

  function DebitAt(es: seq<Entry>, i: nat, amount: u64): Result<seq<Entry>>
    requires i < |es|
  {
    if es[i].amount < amount then Failure(Insufficient)
    else
      var left := es[i].amount - amount;
      Success(es[i := Entry(if left == 0 && i != 0 then ZERO_KEY else es[i].mint, left)])
  }

  function CreditAt(es: seq<Entry>, i: nat, amount: u64): Result<seq<Entry>>
    requires i < |es|
  {
    if es[i].amount + amount > MAX_U64 then Failure(Overflow)
    else Success(es[i := es[i].(amount := es[i].amount + amount)])
  }

  function FreshTable(slots: nat): seq<Entry> {
    seq(slots, i => FREE_SLOT)
  }

  // ---- The table read as a map ----

  predicate Claimed(es: seq<Entry>, i: int) {
    0 <= i < |es| && (i == 0 || es[i].mint != ZERO_KEY)
  }

  function ClaimsUpTo(es: seq<Entry>, n: nat): map<Key, u64>
    requires n <= |es|
  {
    if n == 0 then map[]
    else if Claimed(es, n - 1) then ClaimsUpTo(es, n - 1)[es[n - 1].mint := es[n - 1].amount]
    else ClaimsUpTo(es, n - 1)
  }

  /** What the table says is owed, mint by mint. A claimed slot may hold zero, so the keys matter. */
  function Claims(es: seq<Entry>): map<Key, u64> {
    ClaimsUpTo(es, |es|)
  }

  lemma {:induction false} ClaimedIsIn(es: seq<Entry>, n: nat, i: nat)
    requires WellFormed(es) && i < n <= |es| && Claimed(es, i)
    ensures es[i].mint in ClaimsUpTo(es, n) && ClaimsUpTo(es, n)[es[i].mint] == es[i].amount
    decreases n
  {
    if i < n - 1 {
      ClaimedIsIn(es, n - 1, i);
    }
  }

  lemma {:induction false} InIsClaimed(es: seq<Entry>, n: nat, m: Key)
    requires WellFormed(es) && n <= |es| && m in ClaimsUpTo(es, n)
    ensures exists i :: 0 <= i < n && Claimed(es, i) && es[i].mint == m
    decreases n
  {
    if !(Claimed(es, n - 1) && es[n - 1].mint == m) {
      InIsClaimed(es, n - 1, m);
    }
  }

  /** Lookup finds the one slot a mint has: no balance can be split over two slots or shadowed. */
  lemma LookupFindsTheOnlySlot(es: seq<Entry>, i: nat)
    requires WellFormed(es) && Claimed(es, i)
    ensures IndexOf(es, es[i].mint) == Some(i)
    ensures es[i].mint in Claims(es) && Claims(es)[es[i].mint] == es[i].amount
  {
    ClaimedIsIn(es, |es|, i);
    if i != 0 {
      var p := Position(es, es[i].mint, 0);
      assert p.Some? && p.value == i;
    }
  }

  lemma AbsentIffNotClaimed(es: seq<Entry>, m: Key)
    requires WellFormed(es)
    ensures m in Claims(es) <==> IndexOf(es, m).Some?
    ensures m in Claims(es) ==> Claimed(es, IndexOf(es, m).value) && es[IndexOf(es, m).value].mint == m
  {
    if m in Claims(es) {
      InIsClaimed(es, |es|, m);
      var i :| 0 <= i < |es| && Claimed(es, i) && es[i].mint == m;
      LookupFindsTheOnlySlot(es, i);
    } else if IndexOf(es, m).Some? {
      LookupFindsTheOnlySlot(es, IndexOf(es, m).value);
    }
  }

  /** A table's map, pinned down slot by slot: the form the refinement lemmas below use. */
  lemma ClaimsFrom(es: seq<Entry>, c: map<Key, u64>)
    requires WellFormed(es)
    requires forall i :: Claimed(es, i) ==> es[i].mint in c && c[es[i].mint] == es[i].amount
    requires forall m :: m in c ==> exists i :: Claimed(es, i) && es[i].mint == m
    ensures Claims(es) == c
  {
    forall m | m in c
      ensures m in Claims(es) && Claims(es)[m] == c[m]
    {
      var i :| Claimed(es, i) && es[i].mint == m;
      LookupFindsTheOnlySlot(es, i);
    }
    forall m | m in Claims(es)
      ensures m in c
    {
      AbsentIffNotClaimed(es, m);
      assert Claimed(es, IndexOf(es, m).value);
    }
    assert Claims(es).Keys == c.Keys;
  }

  // ---- Each table operation is the map update it should be ----

  function ClaimsAfterDebit(c: map<Key, u64>, m: Key, amount: u64): map<Key, u64>
    requires m in c && amount <= c[m]
  {
    if c[m] == amount && m != ZERO_KEY then c - {m} else c[m := c[m] - amount]
  }

  /** A claimed slot given another amount changes its mint's entry in the map and no other. */
  lemma SlotSet(es: seq<Entry>, i: nat, amount: u64)
    requires WellFormed(es) && Claimed(es, i)
    ensures var es' := es[i := Entry(es[i].mint, amount)];
            WellFormed(es') && Claims(es') == Claims(es)[es[i].mint := amount]
  {
    var es' := es[i := Entry(es[i].mint, amount)];
    var c := Claims(es)[es[i].mint := amount];
    forall j | Claimed(es', j)
      ensures es'[j].mint in c && c[es'[j].mint] == es'[j].amount
    {
      LookupFindsTheOnlySlot(es, j);
    }
    forall k | k in c
      ensures exists j :: Claimed(es', j) && es'[j].mint == k
    {
      LookupFindsTheOnlySlot(es, i);
      AbsentIffNotClaimed(es, k);
      assert Claimed(es', IndexOf(es, k).value);
    }
    ClaimsFrom(es', c);
  }

  /** A released slot takes its mint out of the map. */
  lemma SlotReleased(es: seq<Entry>, i: nat)
    requires WellFormed(es) && 0 < i < |es| && es[i].mint != ZERO_KEY
    ensures WellFormed(es[i := FREE_SLOT]) && Claims(es[i := FREE_SLOT]) == Claims(es) - {es[i].mint}
  {
    var es' := es[i := FREE_SLOT];
    var c := Claims(es) - {es[i].mint};
    forall j | Claimed(es', j)
      ensures es'[j].mint in c && c[es'[j].mint] == es'[j].amount
    {
      LookupFindsTheOnlySlot(es, j);
    }
    forall k | k in c
      ensures exists j :: Claimed(es', j) && es'[j].mint == k
    {
      AbsentIffNotClaimed(es, k);
      assert Claimed(es', IndexOf(es, k).value);
    }
    ClaimsFrom(es', c);
  }

  lemma ClaimedIndex(es: seq<Entry>, m: Key) returns (i: nat)
    requires WellFormed(es) && m in Claims(es)
    ensures IndexOf(es, m) == Some(i) && i < |es| && es[i].mint == m && es[i].amount == Claims(es)[m]
    ensures i == 0 <==> m == ZERO_KEY
  {
    AbsentIffNotClaimed(es, m);
    i := IndexOf(es, m).value;
    LookupFindsTheOnlySlot(es, i);
  }

  lemma DebitRefines(es: seq<Entry>, m: Key, amount: u64)
    requires WellFormed(es) && m in Claims(es)
    ensures IndexOf(es, m).Some? && IndexOf(es, m).value < |es|
    ensures var r := DebitAt(es, IndexOf(es, m).value, amount);
            if amount <= Claims(es)[m] then
              r.Success? && |r.value| == |es| && WellFormed(r.value)
              && Claims(r.value) == ClaimsAfterDebit(Claims(es), m, amount)
            else r == Failure(Insufficient)
  {
    var i := ClaimedIndex(es, m);
    DebitSlot(es, i, amount);
  }

  lemma DebitSlot(es: seq<Entry>, i: nat, amount: u64)
    requires WellFormed(es) && i < |es| && (i == 0 <==> es[i].mint == ZERO_KEY)
    requires es[i].mint in Claims(es) && Claims(es)[es[i].mint] == es[i].amount
    ensures var r := DebitAt(es, i, amount);
            if amount <= es[i].amount then
              r.Success? && |r.value| == |es| && WellFormed(r.value)
              && Claims(r.value) == ClaimsAfterDebit(Claims(es), es[i].mint, amount)
            else r == Failure(Insufficient)
  {
    if es[i].amount == amount && i != 0 {
      SlotReleased(es, i);
      assert DebitAt(es, i, amount) == Success(es[i := FREE_SLOT]);
    } else if amount <= es[i].amount {
      SlotSet(es, i, es[i].amount - amount);
      assert DebitAt(es, i, amount) == Success(es[i := Entry(es[i].mint, es[i].amount - amount)]);
    }
  }

  lemma CreditRefines(es: seq<Entry>, m: Key, amount: u64)
    requires WellFormed(es) && m in Claims(es)
    ensures IndexOf(es, m).Some? && IndexOf(es, m).value < |es|
    ensures var r := CreditAt(es, IndexOf(es, m).value, amount);
            if Claims(es)[m] + amount <= MAX_U64 then
              r.Success? && |r.value| == |es| && WellFormed(r.value)
              && Claims(r.value) == Claims(es)[m := Claims(es)[m] + amount]
            else r == Failure(Overflow)
  {
    var i := ClaimedIndex(es, m);
    if es[i].amount + amount <= MAX_U64 {
      SlotSet(es, i, es[i].amount + amount);
      assert CreditAt(es, i, amount) == Success(es[i := Entry(es[i].mint, es[i].amount + amount)]);
    }
  }

  /** Claiming fails exactly when the mint is new and every slot is taken. */
  lemma ClaimRefines(es: seq<Entry>, m: Key)
    requires WellFormed(es)
    ensures var r := IndexOrClaim(es, m);
            if m in Claims(es) then IndexOf(es, m).Some? && r == Success((IndexOf(es, m).value, es))
            else if |Claims(es)| < |es| then
              r.Success? && |r.value.1| == |es| && WellFormed(r.value.1)
              && IndexOf(r.value.1, m) == Some(r.value.0)
              && Claims(r.value.1) == Claims(es)[m := 0]
            else r == Failure(LedgerFull)
  {
    AbsentIffNotClaimed(es, m);
    if m !in Claims(es) {
      FreePlusClaimed(es);
      NoneFreeIffCountZero(es, 1);
      if FreeIndex(es).Some? {
        ClaimSlot(es, m, FreeIndex(es).value);
      }
    }
  }

  lemma ClaimSlot(es: seq<Entry>, m: Key, i: nat)
    requires WellFormed(es) && m !in Claims(es)
    requires 0 < i < |es| && es[i].mint == ZERO_KEY
    ensures var es' := es[i := es[i].(mint := m)];
            WellFormed(es') && Claims(es') == Claims(es)[m := 0] && IndexOf(es', m) == Some(i)
  {
    var es' := es[i := es[i].(mint := m)];
    AbsentIffNotClaimed(es, m);
    var c := Claims(es)[m := 0];
    forall j | Claimed(es', j)
      ensures es'[j].mint in c && c[es'[j].mint] == es'[j].amount
    {
      if j != i {
        LookupFindsTheOnlySlot(es, j);
      }
    }
    assert Claimed(es', i);
    forall k | k in c
      ensures exists j :: Claimed(es', j) && es'[j].mint == k
    {
      if k != m {
        AbsentIffNotClaimed(es, k);
        assert Claimed(es', IndexOf(es, k).value);
      }
    }
    ClaimsFrom(es', c);
    LookupFindsTheOnlySlot(es', i);
  }

  lemma {:induction false} NoneFreeIffCountZero(es: seq<Entry>, from: nat)
    requires from <= |es|
    ensures CountFree(es, from) == 0 <==> Position(es, ZERO_KEY, from).None?
    decreases |es| - from
  {
    if from < |es| {
      NoneFreeIffCountZero(es, from + 1);
    }
  }

  /** Free slots within `es[from..to]`. */
  ghost function FreeWithin(es: seq<Entry>, from: nat, until: nat): nat
    requires from <= until <= |es|
    decreases until
  {
    if from == until then 0
    else FreeWithin(es, from, until - 1) + (if es[until - 1].mint == ZERO_KEY then 1 else 0)
  }

  lemma {:induction false} CountFreeUpTo(es: seq<Entry>, from: nat, until: nat)
    requires from <= until <= |es|
    ensures CountFree(es, from) == FreeWithin(es, from, until) + CountFree(es, until)
    decreases until
  {
    if from != until {
      CountFreeUpTo(es, from, until - 1);
    }
  }

  lemma {:induction false} CountClaims(es: seq<Entry>, n: nat)
    requires WellFormed(es) && 1 <= n <= |es|
    ensures |ClaimsUpTo(es, n)| + FreeWithin(es, 1, n) == n
    decreases n
  {
    if n == 1 {
      assert ClaimsUpTo(es, 1) == map[es[0].mint := es[0].amount];
    } else {
      CountClaims(es, n - 1);
      var before, last := ClaimsUpTo(es, n - 1), es[n - 1];
      if last.mint != ZERO_KEY {
        if last.mint in before {
          InIsClaimed(es, n - 1, last.mint);
        }
        assert before[last.mint := last.amount].Keys == before.Keys + {last.mint};
      }
    }
  }

  /** Claimed slots and free slots always add up to the capacity. */
  lemma FreePlusClaimed(es: seq<Entry>)
    requires WellFormed(es)
    ensures |Claims(es)| + FreeSlots(es) == |es|
  {
    CountClaims(es, |es|);
    CountFreeUpTo(es, 1, |es|);
  }

  lemma FreshTableIsEmpty(slots: nat)
    requires slots > 0
    ensures WellFormed(FreshTable(slots)) && Claims(FreshTable(slots)) == map[ZERO_KEY := 0]
  {
    ClaimsFrom(FreshTable(slots), map[ZERO_KEY := 0]);
  }

  /** Growth keeps every slot where it was and changes no balance. */
  lemma GrowthRefines(es: seq<Entry>, extra: nat)
    requires WellFormed(es)
    ensures WellFormed(es + FreshTable(extra)) && Claims(es + FreshTable(extra)) == Claims(es)
  {
    var grown := es + FreshTable(extra);
    forall i | Claimed(grown, i)
      ensures grown[i].mint in Claims(es) && Claims(es)[grown[i].mint] == grown[i].amount
    {
      LookupFindsTheOnlySlot(es, i);
    }
    forall m | m in Claims(es)
      ensures exists i :: Claimed(grown, i) && grown[i].mint == m
    {
      AbsentIffNotClaimed(es, m);
      assert Claimed(grown, IndexOf(es, m).value);
    }
    ClaimsFrom(grown, Claims(es));
  }

  /** A grown table has exactly `extra` more free slots, and finds each old mint where it was. */
  lemma GrowthAddsFreeSlots(es: seq<Entry>, extra: nat, m: Key)
    requires WellFormed(es)
    ensures FreeSlots(es + FreshTable(extra)) == FreeSlots(es) + extra
    ensures m in Claims(es) ==> IndexOf(es + FreshTable(extra), m) == IndexOf(es, m)
  {
    var grown := es + FreshTable(extra);
    GrowthRefines(es, extra);
    FreePlusClaimed(es);
    FreePlusClaimed(grown);
    if m in Claims(es) {
      AbsentIffNotClaimed(es, m);
      LookupFindsTheOnlySlot(grown, IndexOf(es, m).value);
    }
  }
}
