/** The walk `close_ledger` makes over its trailing account list: each non-zero token entry, in slot
    order, takes the next group of accounts, two for a classic token and three for a Token-2022 one. */
module Sweeps {
  import opened Base
  import opened Books
  import opened Chains
  import opened Invariant
  import opened LedgerObject
  import opened Machine
  import opened SlotTable

  /** An account in the list: its key, the program that owns it and, if it is a token account, the
      mint and wallet it names. */
  datatype Listed = Listed(key: Key, program: Key, token: Option<(Key, Key)>)

  /** The program that owns a listed account; for the vault's own pools the chain settles it. */
  function ProgramOf(c: Chain, pools: map<Key, Pool>, a: Listed): Key {
    if a.key in pools then c.mintProgram(pools[a.key].mint) else a.program
  }

  /** The accounts a close is given besides the fixed ones. */
  datatype Accompanying = Accompanying(owner: Key, listed: seq<Listed>, present: set<Key>, delivered: bool)

  predicate Swept(e: Entry) {
    e.mint != ZERO_KEY && e.amount != 0
  }

  /** One entry paid out of its pool, with the cursor moved past its group. */
  function PayEntry(c: Chain, pools: map<Key, Pool>, e: Entry, w: Accompanying, at: nat): (r: Result<(map<Key,
      Pool>, nat)>)
    ensures r.Success? ==> at < r.value.1 <= |w.listed|
  {
    if at + 1 >= |w.listed| then Failure(MissingTokenAccounts)
    else
      var vaultToken, ownerToken := w.listed[at], w.listed[at + 1];
      var program := ProgramOf(c, pools, vaultToken);
      if !c.IsTokenProgram(program) || ownerToken.program != program then Failure(MintMismatch)
      else
        var reserve :- RequireReserve(c, pools, vaultToken.key, e.mint, program);
        if reserve < e.amount then Failure(InsufficientReserve)
        else if ownerToken.token != Some((e.mint, w.owner)) then Failure(MintMismatch)
        else if program !in w.present then Failure(IncorrectProgramId)
        else
          var paid := pools[vaultToken.key := Pool(e.mint, reserve - e.amount)];
          if program == c.token2022 then
            if at + 2 >= |w.listed| then Failure(MissingTokenAccounts)
            else if w.listed[at + 2].key != e.mint || w.listed[at + 2].program != program then Failure(MintMismatch)
            else if !w.delivered then Failure(CpiFailed)
            else Success((paid, at + 3))
          else if !w.delivered then Failure(CpiFailed)
          else Success((paid, at + 2))
  }

  /** The pools after every entry from slot `i` on is paid, the next group being at `at`. */
  function Sweep(c: Chain, pools: map<Key, Pool>, es: seq<Entry>, i: nat, w: Accompanying,
      at: nat): Result<map<Key, Pool>>
    requires i <= |es|
    decreases |es| - i
  {
    if i == |es| then Success(pools)
    else if !Swept(es[i]) then Sweep(c, pools, es, i + 1, w, at)
    else
      var next :- PayEntry(c, pools, es[i], w, at);
      Sweep(c, next.0, es, i + 1, w, next.1)
  }

  /** The first fault a sweep meets, if any. */
  function SweepFault(c: Chain, pools: map<Key, Pool>, es: seq<Entry>, w: Accompanying): Option<Error>
    requires 1 <= |es|
  {
    match Sweep(c, pools, es, 1, w, 0)
    case Failure(e) => Some(e)
    case Success(_) => None
  }

  // ---- The list a close needs ----

  /** The accounts an entry's group must name. */
  predicate GroupFor(c: Chain, e: Entry, w: Accompanying, rest: seq<Listed>) {
    var program := c.mintProgram(e.mint);
    && c.IsTokenProgram(program) && program in w.present
    && |rest| >= Stride(c, e)
    && rest[0].key == c.reserveAddress(e.mint, program)
    && rest[1].program == program && rest[1].token == Some((e.mint, w.owner))
    && (program == c.token2022 ==> rest[2].key == e.mint && rest[2].program == program)
  }

  function Stride(c: Chain, e: Entry): nat {
    if c.mintProgram(e.mint) == c.token2022 then 3 else 2
  }

  /** `rest` begins with the groups of the entries from slot `i` on, in slot order and back to back. */
  predicate Grouped(c: Chain, es: seq<Entry>, i: nat, w: Accompanying, rest: seq<Listed>)
    requires i <= |es|
    decreases |es| - i
  {
    if i == |es| then true
    else if !Swept(es[i]) then Grouped(c, es, i + 1, w, rest)
    else GroupFor(c, es[i], w, rest) && Grouped(c, es, i + 1, w, rest[Stride(c, es[i])..])
  }

  predicate NothingToSweep(es: seq<Entry>, i: nat) {
    forall j :: i <= j < |es| ==> !Swept(es[j])
  }

  /** Every pool holds what the entries from slot `i` on are owed. */
  ghost predicate EntriesCovered(c: Chain, pools: map<Key, Pool>, es: seq<Entry>, i: nat) {
    forall j :: i <= j < |es| && Swept(es[j]) ==> PoolCovers(c, pools, es[j].mint, es[j].amount)
  }

  lemma PayEntryMeans(c: Chain, pools: map<Key, Pool>, e: Entry, w: Accompanying, at: nat)
    requires ReservesApart(c) && PoolsOk(c, pools) && at <= |w.listed|
    ensures PayEntry(c, pools, e, w, at).Success? <==>
              GroupFor(c, e, w, w.listed[at..]) && PoolCovers(c, pools, e.mint, e.amount) && w.delivered
    ensures PayEntry(c, pools, e, w, at).Success? ==>
              var a := c.reserveAddress(e.mint, c.mintProgram(e.mint));
              && a in pools && pools[a].amount >= e.amount
              && PayEntry(c, pools, e, w, at).value
                  == (pools[a := Pool(e.mint, pools[a].amount - e.amount)], at + Stride(c, e))
    ensures PoolCovers(c, pools, e.mint, e.amount) ==> PayEntry(c, pools, e, w, at) != Failure(InsufficientReserve)
  {
    if at + 1 < |w.listed| {
      var a := c.reserveAddress(e.mint, c.mintProgram(e.mint));
      assert w.listed[at..][0] == w.listed[at] && w.listed[at..][1] == w.listed[at + 1];
      if at + 2 < |w.listed| {
        assert w.listed[at..][2] == w.listed[at + 2];
      }
    }
  }

  /** Paying one entry leaves the pools of all the others as they were. */
  lemma PaidCoversRest(c: Chain, pools: map<Key, Pool>, es: seq<Entry>, i: nat, a: Key, p: Pool)
    requires ReservesApart(c) && WellFormed(es) && 0 < i < |es| && Swept(es[i]) && PoolsOk(c, pools)
    requires a == c.reserveAddress(es[i].mint, c.mintProgram(es[i].mint)) && p.mint == es[i].mint
    ensures PoolsOk(c, pools[a := p])
    ensures EntriesCovered(c, pools, es, i + 1) <==> EntriesCovered(c, pools[a := p], es, i + 1)
  {
    forall j | i < j < |es| && Swept(es[j])
      ensures PoolCovers(c, pools, es[j].mint, es[j].amount) <==> PoolCovers(c, pools[a := p], es[j].mint, es[j].amount)
    {
      assert es[j].mint != es[i].mint;
    }
  }

  /** A sweep goes through exactly when the list names, in slot order and back to back, the group of
      every non-zero token entry, every pool holds its entry's amount and the transfers are carried
      out; and a pool that is short is the only thing it can report as a short reserve. */
  lemma {:induction false} SweepSucceedsIff(c: Chain, pools: map<Key, Pool>, es: seq<Entry>, i: nat,
      w: Accompanying, at: nat)
    requires ReservesApart(c) && WellFormed(es) && 0 < i <= |es| && PoolsOk(c, pools) && at <= |w.listed|
    ensures Sweep(c, pools, es, i, w, at).Success? <==>
              && Grouped(c, es, i, w, w.listed[at..])
              && EntriesCovered(c, pools, es, i)
              && (w.delivered || NothingToSweep(es, i))
    ensures EntriesCovered(c, pools, es, i) ==> Sweep(c, pools, es, i, w, at) != Failure(InsufficientReserve)
    decreases |es| - i
  {
    if i < |es| {
      if !Swept(es[i]) {
        SweepSucceedsIff(c, pools, es, i + 1, w, at);
      } else {
        PayEntryMeans(c, pools, es[i], w, at);
        if PayEntry(c, pools, es[i], w, at).Success? {
          var next := PayEntry(c, pools, es[i], w, at).value;
          var a := c.reserveAddress(es[i].mint, c.mintProgram(es[i].mint));
          PaidCoversRest(c, pools, es, i, a, next.0[a]);
          SweepSucceedsIff(c, next.0, es, i + 1, w, next.1);
          assert w.listed[at..][Stride(c, es[i])..] == w.listed[next.1..];
        }
      }
    }
  }

  // ---- What a sweep leaves in the pools ----

  /** What the entries from slot `i` on are owed in mint `m`. */
  function OwedFrom(es: seq<Entry>, i: nat, m: Key): nat
    requires i <= |es|
    decreases |es| - i
  {
    if i == |es| then 0
    else if es[i].mint == m && m != ZERO_KEY then es[i].amount
    else OwedFrom(es, i + 1, m)
  }

  lemma PaysFromPool(c: Chain, pools: map<Key, Pool>, es: seq<Entry>, i: nat, w: Accompanying, at: nat, a: Key)
    returns (next: (map<Key, Pool>, nat))
    requires ReservesApart(c) && WellFormed(es) && 0 < i < |es| && Swept(es[i]) && PoolsOk(c, pools) && at <= |w.listed|
    requires PayEntry(c, pools, es[i], w, at).Success?
    ensures PayEntry(c, pools, es[i], w, at) == Success(next) && PoolsOk(c, next.0) && next.1 <= |w.listed|
    ensures a in next.0 <==> a in pools
    ensures a in pools && pools[a].mint == es[i].mint ==>
              pools[a].amount >= es[i].amount && next.0[a] == pools[a].(amount := pools[a].amount - es[i].amount)
    ensures a in pools && pools[a].mint != es[i].mint ==> next.0[a] == pools[a]
  {
    PayEntryMeans(c, pools, es[i], w, at);
    next := PayEntry(c, pools, es[i], w, at).value;
    var b := c.reserveAddress(es[i].mint, c.mintProgram(es[i].mint));
    PaidCoversRest(c, pools, es, i, b, next.0[b]);
  }

  lemma {:induction false} SweepTakes(c: Chain, pools: map<Key, Pool>, es: seq<Entry>, i: nat, w: Accompanying,
      at: nat, a: Key)
    requires ReservesApart(c) && WellFormed(es) && 0 < i <= |es| && PoolsOk(c, pools) && at <= |w.listed|
    requires Sweep(c, pools, es, i, w, at).Success?
    ensures var after := Sweep(c, pools, es, i, w, at).value;
            && (a in after <==> a in pools)
            && (a in pools ==>
                  && OwedFrom(es, i, pools[a].mint) <= pools[a].amount
                  && after[a] == pools[a].(amount := pools[a].amount - OwedFrom(es, i, pools[a].mint)))
    decreases |es| - i
  {
    if i < |es| {
      if !Swept(es[i]) {
        SweepTakes(c, pools, es, i + 1, w, at, a);
        if es[i].mint != ZERO_KEY {
          OwedOnce(es, i + 1, es[i].mint);
        }
      } else {
        var next := PaysFromPool(c, pools, es, i, w, at, a);
        SweepTakes(c, next.0, es, i + 1, w, next.1, a);
        OwedOnce(es, i + 1, es[i].mint);
      }
    }
  }

  /** A mint met once is not met again. */
  lemma {:induction false} OwedOnce(es: seq<Entry>, i: nat, m: Key)
    requires i <= |es| && forall j :: i <= j < |es| ==> es[j].mint != m
    ensures OwedFrom(es, i, m) == 0
    decreases |es| - i
  {
    if i < |es| {
      OwedOnce(es, i + 1, m);
    }
  }

  lemma {:induction false} OwedIsBalance(d: LedgerData, i: nat, m: Key)
    requires TableOk(d) && 0 < i <= |d.entries|
    requires forall j :: 0 < j < i ==> d.entries[j].mint != m || m == ZERO_KEY
    ensures OwedFrom(d.entries, i, m) == Owed(BookOf(d), m)
    decreases |d.entries| - i
  {
    var es := d.entries;
    if m == ZERO_KEY {
      if i < |es| {
        OwedIsBalance(d, i + 1, m);
      }
    } else if i == |es| {
      AbsentIffNotClaimed(es, m);
    } else if es[i].mint == m {
      LookupFindsTheOnlySlot(es, i);
    } else {
      OwedIsBalance(d, i + 1, m);
    }
  }

  /** A sweep that goes through pays every token the ledger claims, each out of its own pool, and
      takes nothing else: the pools end as the machine's close leaves them. */
  lemma SweepDrains(c: Chain, pools: map<Key, Pool>, d: LedgerData, w: Accompanying)
    requires ReservesApart(c) && TableOk(d) && PoolsOk(c, pools)
    requires Sweep(c, pools, d.entries, 1, w, 0).Success?
    ensures Sweep(c, pools, d.entries, 1, w, 0).value == Drained(pools, BookOf(d))
    ensures PoolsCover(c, pools, BookOf(d))
  {
    var after := Sweep(c, pools, d.entries, 1, w, 0).value;
    forall a: Key
      ensures a in after <==> a in pools
      ensures a in pools ==> after[a] == Drained(pools, BookOf(d))[a]
    {
      SweepTakes(c, pools, d.entries, 1, w, 0, a);
      if a in pools {
        OwedIsBalance(d, 1, pools[a].mint);
      }
    }
    assert after.Keys == pools.Keys;
    SweepSucceedsIff(c, pools, d.entries, 1, w, 0);
    CoveredBothWays(c, pools, d);
  }

  // ---- Where a sweep's payments go ----

  /** An amount sent to a listed account. */
  datatype Payment = Payment(to: Listed, amount: u64)

  /** The payments a sweep makes from slot `i` on, in order. */
  function Payments(c: Chain, pools: map<Key, Pool>, es: seq<Entry>, i: nat, w: Accompanying, at: nat): seq<Payment>
    requires i <= |es| && Sweep(c, pools, es, i, w, at).Success?
    decreases |es| - i
  {
    if i == |es| then []
    else if !Swept(es[i]) then Payments(c, pools, es, i + 1, w, at)
    else
      var next := PayEntry(c, pools, es[i], w, at).value;
      [Payment(w.listed[at + 1], es[i].amount)] + Payments(c, next.0, es, i + 1, w, next.1)
  }

  /** What the payments bring to a wallet's accounts of one mint. */
  function PaidTo(ps: seq<Payment>, wallet: Key, m: Key): nat {
    if ps == [] then 0
    else (if ps[0].to.token == Some((m, wallet)) then ps[0].amount else 0) + PaidTo(ps[1..], wallet, m)
  }

  lemma {:induction false} PaymentsFrom(c: Chain, pools: map<Key, Pool>, es: seq<Entry>, i: nat, w: Accompanying,
      at: nat, m: Key)
    requires WellFormed(es) && 0 < i <= |es| && m != ZERO_KEY && Sweep(c, pools, es, i, w, at).Success?
    ensures var ps := Payments(c, pools, es, i, w, at);
            && PaidTo(ps, w.owner, m) == OwedFrom(es, i, m)
            && forall k :: 0 <= k < |ps| ==> ps[k].to.token.Some? && ps[k].to.token.value.1 == w.owner
    decreases |es| - i
  {
    if i < |es| {
      if !Swept(es[i]) {
        PaymentsFrom(c, pools, es, i + 1, w, at, m);
        if es[i].mint == m {
          OwedOnce(es, i + 1, m);
        }
      } else {
        var next := PayEntry(c, pools, es[i], w, at).value;
        PaymentsFrom(c, next.0, es, i + 1, w, next.1, m);
        if es[i].mint == m {
          OwedOnce(es, i + 1, m);
        }
      }
    }
  }

  /** A sweep that goes through sends every payment to an account of the ledger's owner, and brings
      them, mint by mint, exactly the tokens their ledger held. */
  lemma SweepPaysTheOwner(c: Chain, pools: map<Key, Pool>, d: LedgerData, w: Accompanying, m: Key)
    requires TableOk(d) && m != ZERO_KEY && Sweep(c, pools, d.entries, 1, w, 0).Success?
    ensures var ps := Payments(c, pools, d.entries, 1, w, 0);
            && PaidTo(ps, w.owner, m) == Balance(BookOf(d), m)
            && forall k :: 0 <= k < |ps| ==> ps[k].to.token.Some? && ps[k].to.token.value.1 == w.owner
  {
    PaymentsFrom(c, pools, d.entries, 1, w, 0, m);
    OwedIsBalance(d, 1, m);
  }

  lemma CoveredBothWays(c: Chain, pools: map<Key, Pool>, d: LedgerData)
    requires TableOk(d)
    ensures EntriesCovered(c, pools, d.entries, 1) <==> PoolsCover(c, pools, BookOf(d))
  {
    var es, b := d.entries, BookOf(d);
    if EntriesCovered(c, pools, es, 1) {
      forall m | m in b.claims && m != ZERO_KEY && b.claims[m] > 0
        ensures PoolCovers(c, pools, m, b.claims[m])
      {
        AbsentIffNotClaimed(es, m);
        LookupFindsTheOnlySlot(es, IndexOf(es, m).value);
        assert Swept(es[IndexOf(es, m).value]);
      }
    }
    if PoolsCover(c, pools, b) {
      forall j | 1 <= j < |es| && Swept(es[j])
        ensures PoolCovers(c, pools, es[j].mint, es[j].amount)
      {
        LookupFindsTheOnlySlot(es, j);
      }
    }
  }

  /** Paying out the SOL first does not change what the tokens' sweep sees. */
  lemma SlotZeroIsNotSwept(c: Chain, pools: map<Key, Pool>, d: LedgerData, es: seq<Entry>, w: Accompanying)
    requires TableOk(d) && |es| == |d.entries| && forall i :: 1 <= i < |es| ==> es[i] == d.entries[i]
    ensures Sweep(c, pools, es, 1, w, 0) == Sweep(c, pools, d.entries, 1, w, 0)
  {
    SameSweep(c, pools, d.entries, es, 1, w, 0);
  }

  lemma {:induction false} SameSweep(c: Chain, pools: map<Key, Pool>, es: seq<Entry>, es': seq<Entry>, i: nat,
      w: Accompanying, at: nat)
    requires |es| == |es'| && i <= |es| && forall j :: i <= j < |es| ==> es[j] == es'[j]
    ensures Sweep(c, pools, es, i, w, at) == Sweep(c, pools, es', i, w, at)
    decreases |es| - i
  {
    if i < |es| {
      if Swept(es[i]) {
        var next := PayEntry(c, pools, es[i], w, at);
        if next.Success? {
          SameSweep(c, next.value.0, es, es', i + 1, w, next.value.1);
        }
      } else {
        SameSweep(c, pools, es, es', i + 1, w, at);
      }
    }
  }
}
