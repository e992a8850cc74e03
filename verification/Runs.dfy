/** Runs of the vault: any instructions, sent by anyone, in any order. */
module Runs {
  import opened Base
  import opened Books
  import opened Chains
  import opened Invariant
  import opened Machine
  import opened Receipts
  import opened Sessions
  import opened Sums
  import opened Totals

  /** The state after `steps`, provided every one of them succeeds. A failed instruction changes
      nothing, so a run of attempted instructions is the run of those that succeeded. */
  ghost function Exec(c: Chain, s: State, steps: seq<Step>): Result<State>
    decreases |steps|
  {
    if steps == [] then Success(s)
    else
      var last := |steps| - 1;
      var before :- Exec(c, s, steps[..last]);
      Next(c, before, steps[last])
  }

  lemma {:induction false} ExecKeepsInv(c: Chain, s: State, steps: seq<Step>)
    requires Sound(c) && Inv(c, s) && Exec(c, s, steps).Success?
    ensures Inv(c, Exec(c, s, steps).value)
    decreases |steps|
  {
    if steps != [] {
      var last := |steps| - 1;
      ExecKeepsInv(c, s, steps[..last]);
      NextKeepsInv(c, Exec(c, s, steps[..last]).value, steps[last]);
    }
  }

  /** The invariant holds after every run from an unused vault. */
  lemma RunInv(c: Chain, s: State, steps: seq<Step>)
    requires Sound(c) && Genesis(c, s) && Exec(c, s, steps).Success?
    ensures Inv(c, Exec(c, s, steps).value)
  {
    GenesisInv(c, s);
    ExecKeepsInv(c, s, steps);
  }

  lemma RunInvAt(c: Chain, s: State, steps: seq<Step>, s': State)
    requires Sound(c) && Genesis(c, s) && Exec(c, s, steps) == Success(s')
    ensures Inv(c, s')
  {
    RunInv(c, s, steps);
  }

  lemma {:induction false} ExecConcat(c: Chain, s: State, a: seq<Step>, b: seq<Step>)
    requires Exec(c, s, a).Success?
    ensures Exec(c, s, a + b) == Exec(c, Exec(c, s, a).value, b)
    decreases |b|
  {
    if b == [] {
      assert a + b == a;
    } else {
      var last := |b| - 1;
      ExecConcat(c, s, a, b[..last]);
      assert (a + b)[..|a + b| - 1] == a + b[..last];
    }
  }

  lemma ExecOne(c: Chain, s: State, st: Step)
    ensures Exec(c, s, [st]) == Next(c, s, st)
  {
    assert [st][..0] == [];
    assert Exec(c, s, []) == Success(s);
  }

  // ---- Solvency ----

  /** From the first instruction on, for every mint, all live claims together are covered by the
      reserve, whatever has been delegated and however stale the copies on basenet. */
  lemma AlwaysSolvent(c: Chain, s: State, steps: seq<Step>, m: Key)
    requires Sound(c) && Genesis(c, s) && Exec(c, s, steps).Success?
    ensures var s' := Exec(c, s, steps).value;
            Total(s'.ledgers, m) <= Backing(c, s'.pools, s'.lamports, m)
  {
    RunInv(c, s, steps);
  }

  lemma TotalFitsU64(c: Chain, s: State, m: Key)
    requires Inv(c, s)
    ensures Total(s.ledgers, m) <= MAX_U64
  {
    assert Total(s.ledgers, m) <= Backing(c, s.pools, s.lamports, m);
  }

  // ---- What the basenet copies add up to ----

  function BaseBook(a: Acct<Book>): Book {
    match a.place
    case Home => a.live
    case Away(_, base) => base
    case Returning(_, base) => base
  }

  /** What basenet shows, ledger by ledger. */
  ghost function BaseColumn(ls: map<Key, Acct<Book>>, m: Key): map<Key, nat> {
    map a | a in ls :: Balance(BaseBook(ls[a]), m) as nat
  }

  ghost function AwayLive(ls: map<Key, Acct<Book>>, m: Key): map<Key, nat> {
    map a | a in ls :: if ls[a].place.Home? then 0 else Balance(ls[a].live, m) as nat
  }

  ghost function AwayBase(ls: map<Key, Acct<Book>>, m: Key): map<Key, nat> {
    map a | a in ls :: if ls[a].place.Home? then 0 else Balance(BaseBook(ls[a]), m) as nat
  }

  /** The copies on basenet over-claim by exactly what the ledgers away have not committed: stale
      figures less live ones. */
  lemma OverclaimIsUncommitted(ls: map<Key, Acct<Book>>, m: Key)
    ensures Sum(BaseColumn(ls, m)) + Sum(AwayLive(ls, m)) == Total(ls, m) + Sum(AwayBase(ls, m))
  {
    var both := map a | a in ls :: BaseColumn(ls, m)[a] + AwayLive(ls, m)[a];
    SumOfSums(BaseColumn(ls, m), AwayLive(ls, m), both);
    SumOfSums(Column(ls, m), AwayBase(ls, m), both);
  }

  ghost function HomeColumn(ls: map<Key, Acct<Book>>, m: Key): map<Key, nat> {
    map a | a in ls :: if ls[a].place.Home? then Balance(ls[a].live, m) as nat else 0
  }

  /** In every run what the ledgers at home claim is covered by itself, whatever the ones away do. */
  lemma HomeIsAlwaysCovered(c: Chain, s: State, steps: seq<Step>, m: Key)
    requires Sound(c) && Genesis(c, s) && Exec(c, s, steps).Success?
    ensures var s' := Exec(c, s, steps).value;
            Sum(HomeColumn(s'.ledgers, m)) <= Backing(c, s'.pools, s'.lamports, m)
  {
    AlwaysSolvent(c, s, steps, m);
    var ls := Exec(c, s, steps).value.ledgers;
    SumAtMost(HomeColumn(ls, m), Column(ls, m));
  }

  /** The ledger is away and holds less than basenet still shows. */
  ghost predicate LostAway(a: Acct<Book>, m: Key) {
    !a.place.Home? && Balance(a.live, m) < Balance(BaseBook(a), m)
  }

  /** In every run, if basenet claims more than there is, some ledger away has paid out of what its copy
      still shows. */
  lemma CoveredUnlessLostAway(c: Chain, s: State, steps: seq<Step>, m: Key)
    requires Sound(c) && Genesis(c, s) && Exec(c, s, steps).Success?
    requires var s' := Exec(c, s, steps).value;
             Sum(BaseColumn(s'.ledgers, m)) > Backing(c, s'.pools, s'.lamports, m)
    ensures var ls := Exec(c, s, steps).value.ledgers; exists a :: a in ls && LostAway(ls[a], m)
  {
    AlwaysSolvent(c, s, steps, m);
    var ls := Exec(c, s, steps).value.ledgers;
    if forall a :: a in ls ==> !LostAway(ls[a], m) {
      SumAtMost(BaseColumn(ls, m), Column(ls, m));
    }
  }

  // ---- Errors that cannot happen ----

  /** Errors the handlers check for that no reachable state lets them raise. */
  predicate Dead(e: Error) {
    || e.Overflow?
    || e.InsufficientReserve?
    || e.SlotClaimNeedsConsent?
    || e.MustFundOwnLedger?
    || (e.LedgerCheck? && (e.check == 2 || e.check == 4))
  }

  lemma MoveNeverOverflows(ls: map<Key, Acct<Book>>, src: Key, dst: Key, mint: Key, amount: u64)
    requires BooksOk(ls) && src in ls && dst in ls && Total(ls, mint) <= MAX_U64
    ensures Move(ls, src, dst, mint, amount) != Failure(Overflow)
  {
    if Debit(ls[src].live, mint, amount).Success? {
      var a := Debit(ls[src].live, mint, amount).value;
      DebitEffect(ls[src].live, mint, amount);
      var mid := ls[src := ls[src].(live := a)];
      TotalUpdate(ls, src, mid[src], mint);
      BalanceAtMostTotal(mid, dst, mint);
      if Claim(mid[dst].live, mint).Success? {
        ClaimEffect(mid[dst].live, mint);
      }
    }
  }

  /** Not at any movement of a receipt, however long. */
  lemma {:induction false} ReceiptNeverOverflows(ls: map<Key, Acct<Book>>, infos: seq<Key>, movements: seq<Movement>)
    requires BooksOk(ls) && InRange(movements, |infos|)
    requires forall i :: 0 <= i < |infos| ==> infos[i] in ls
    requires forall m: Key :: Total(ls, m) <= MAX_U64
    ensures MoveAll(ls, infos, movements).Success?
              || MoveAll(ls, infos, movements).error in {NoBalance, Insufficient, LedgerFull}
    decreases |movements|
  {
    if movements != [] {
      var v := movements[0];
      var src, dst := infos[v.src], infos[v.dst];
      MoveNeverOverflows(ls, src, dst, v.mint, v.amount);
      if Move(ls, src, dst, v.mint, v.amount).Success? {
        var mid := Move(ls, src, dst, v.mint, v.amount).value;
        MoveShape(ls, src, dst, v.mint, v.amount);
        forall m: Key
          ensures Total(mid, m) <= MAX_U64
        {
          MoveKeepsTotals(ls, src, dst, v.mint, v.amount, m);
        }
        ReceiptNeverOverflows(mid, infos, movements[1..]);
      }
    }
  }

  lemma SameAddressSameOwner(c: Chain, s: State, v: Venue, r: Receipt, infos: seq<Key>, j: nat, idx: nat)
    requires |infos| == |r.owners| && j < |infos| && idx < |infos| && infos[j] == infos[idx]
    requires CheckLedger(c, s, v, r, infos, j).None? && s.ledgers[infos[idx]].live.owner == r.owners[idx]
    ensures r.owners[j] == r.owners[idx]
  {
  }

  /** An error of the checks on a receipt's ledgers that can be raised. */
  predicate Alive(e: Option<Error>) {
    e.Some? ==> !Dead(e.value)
  }

  lemma NoSecondPlace(c: Chain, s: State, v: Venue, r: Receipt, infos: seq<Key>, idx: nat)
    requires Distinct(r.owners) && idx < |infos| == |r.owners|
    requires infos[idx] in s.ledgers && s.ledgers[infos[idx]].live.owner == r.owners[idx]
    requires forall i :: 0 <= i < idx ==> CheckLedger(c, s, v, r, infos, i).None?
    ensures infos[idx] !in infos[..idx]
  {
    if infos[idx] in infos[..idx] {
      var j :| 0 <= j < idx && infos[j] == infos[idx];
      SameAddressSameOwner(c, s, v, r, infos, j, idx);
    }
  }

  lemma LedgerCheckIsDead(c: Chain, s: State, v: Venue, r: Receipt, infos: seq<Key>, idx: nat)
    requires LedgersOk(c, s.ledgers) && Distinct(r.owners) && idx < |infos| == |r.owners|
    requires forall i :: 0 <= i < idx ==> CheckLedger(c, s, v, r, infos, i).None?
    ensures Alive(CheckLedger(c, s, v, r, infos, idx))
  {
    var addr := infos[idx];
    if addr in s.ledgers {
      assert LedgerOk(c, addr, s.ledgers[addr]);
      if s.ledgers[addr].live.owner == r.owners[idx] {
        NoSecondPlace(c, s, v, r, infos, idx);
      }
    }
  }

  lemma {:induction false} LedgerChecksAreDead(c: Chain, s: State, v: Venue, r: Receipt, infos: seq<Key>, idx: nat)
    requires LedgersOk(c, s.ledgers) && Distinct(r.owners) && idx <= |infos| == |r.owners|
    requires forall i :: 0 <= i < idx ==> CheckLedger(c, s, v, r, infos, i).None?
    ensures Alive(CheckLedgers(c, s, v, r, infos, idx))
    decreases |infos| - idx
  {
    if idx < |infos| {
      LedgerCheckIsDead(c, s, v, r, infos, idx);
      if CheckLedger(c, s, v, r, infos, idx).None? {
        LedgerChecksAreDead(c, s, v, r, infos, idx + 1);
      }
    }
  }

  lemma BeginErrors(c: Chain, s: State, st: Step)
    requires Sound(c) && Inv(c, s) && st.op.SettleBegin? && NextSettleBegin(c, s, st).Failure?
    ensures !Dead(NextSettleBegin(c, s, st).error)
  {
    var r := ReadReceipt(s, st.venue, st.op.receipt);
    if r.Success? && |st.op.remaining| >= |r.value.owners| {
      var infos := st.op.remaining[..|r.value.owners|];
      assert ReceiptOk(c, s.clocks, At(st.venue, st.op.receipt), ReceiptAccount(r.value, true));
      LedgerChecksAreDead(c, s, st.venue, r.value, infos, 0);
      if CheckLedgers(c, s, st.venue, r.value, infos, 0).None? {
        forall m: Key
          ensures Total(s.ledgers, m) <= MAX_U64
        {
          TotalFitsU64(c, s, m);
        }
        ReceiptNeverOverflows(s.ledgers, infos, r.value.movements);
      }
    }
    BeginErrorsFrom(c, s, st);
  }

  lemma ReadReceiptErrors(s: State, v: Venue, addr: Key)
    requires ReadReceipt(s, v, addr).Failure?
    ensures !Dead(ReadReceipt(s, v, addr).error)
  {
  }

  lemma ReceiptConsentErrors(c: Chain, s: State, v: Venue, r: Receipt, infos: seq<Key>, rest: seq<Key>)
    requires forall i :: 0 <= i < |infos| ==> infos[i] in s.ledgers
    requires ReceiptConsent(c, s, v, r, infos, rest).Failure?
    ensures !Dead(ReceiptConsent(c, s, v, r, infos, rest).error)
  {
  }

  lemma BeginErrorsFrom(c: Chain, s: State, st: Step)
    requires st.op.SettleBegin? && NextSettleBegin(c, s, st).Failure?
    requires var r := ReadReceipt(s, st.venue, st.op.receipt);
             r.Success? && |st.op.remaining| >= |r.value.owners| ==>
               var infos := st.op.remaining[..|r.value.owners|];
               var fault := CheckLedgers(c, s, st.venue, r.value, infos, 0);
               if fault.Some? then !Dead(fault.value)
               else
                 var moved := MoveAll(s.ledgers, infos, r.value.movements);
                 moved.Success? || moved.error in {NoBalance, Insufficient, LedgerFull}
    ensures !Dead(NextSettleBegin(c, s, st).error)
  {
    var r := ReadReceipt(s, st.venue, st.op.receipt);
    if r.Failure? {
      ReadReceiptErrors(s, st.venue, st.op.receipt);
    } else if |st.op.remaining| >= |r.value.owners| {
      var infos, rest := st.op.remaining[..|r.value.owners|], st.op.remaining[|r.value.owners|..];
      if CheckLedgers(c, s, st.venue, r.value, infos, 0).None?
         && ReceiptConsent(c, s, st.venue, r.value, infos, rest).Failure? {
        ReceiptConsentErrors(c, s, st.venue, r.value, infos, rest);
      }
    }
  }

  lemma SettleErrors(c: Chain, s: State, st: Step)
    requires Sound(c) && Inv(c, s) && st.op.Settle? && NextSettle(c, s, st).Failure?
    ensures !Dead(NextSettle(c, s, st).error)
  {
    var op := st.op;
    if op.src in s.ledgers && op.dst in s.ledgers {
      TotalFitsU64(c, s, op.mint);
      MoveNeverOverflows(s.ledgers, op.src, op.dst, op.mint, op.amount);
    }
    SettleErrorsFrom(c, s, st);
  }

  lemma SlotConsentErrors(c: Chain, s: State, st: Step, a: Book, b: Book)
    requires st.op.Settle? && SlotConsent(c, s, st, a, b).Failure?
    ensures !Dead(SlotConsent(c, s, st, a, b).error)
  {
  }

  lemma MoveErrors(ls: map<Key, Acct<Book>>, src: Key, dst: Key, mint: Key, amount: u64)
    requires src in ls && dst in ls && Move(ls, src, dst, mint, amount).Failure?
    ensures Move(ls, src, dst, mint, amount).error in {NoBalance, Insufficient, LedgerFull, Overflow}
  {
  }

  lemma SettleErrorsFrom(c: Chain, s: State, st: Step)
    requires st.op.Settle? && NextSettle(c, s, st).Failure?
    requires st.op.src in s.ledgers && st.op.dst in s.ledgers ==>
               Move(s.ledgers, st.op.src, st.op.dst, st.op.mint, st.op.amount) != Failure(Overflow)
    ensures !Dead(NextSettle(c, s, st).error)
  {
    var op := st.op;
    if op.src in s.ledgers && op.dst in s.ledgers {
      var a, b := s.ledgers[op.src].live, s.ledgers[op.dst].live;
      if SlotConsent(c, s, st, a, b).Failure? {
        SlotConsentErrors(c, s, st, a, b);
      }
      if Move(s.ledgers, op.src, op.dst, op.mint, op.amount).Failure? {
        MoveErrors(s.ledgers, op.src, op.dst, op.mint, op.amount);
      }
    }
  }

  /** Asking for at least one free slot makes a deposit total on slots: it finds the ledger full if and
      only if it asked for none, none is free, and the mint is new. */
  lemma DepositFindsRoomIff(b: Book, st: Step)
    requires BookOk(b) && st.op.Deposit? && st.op.owner == b.rentPayer
    ensures RoomFor(b, st) == Failure(LedgerFull) <==>
              st.op.band == Some(0) && Room(b) == 0 && st.op.mint !in b.claims
  {
  }

  lemma DepositErrors(c: Chain, s: State, st: Step)
    requires Sound(c) && Inv(c, s) && st.op.Deposit? && NextDeposit(c, s, st).Failure?
    ensures !Dead(NextDeposit(c, s, st).error)
  {
    var op := st.op;
    var b0 := DepositBook(c, s, st);
    var s1 := WithSession(c, s, op.owner, op.session, op.prefunded, op.funded);
    if op.ledger == c.ledgerPda(op.owner) && b0.Success? && s1.Success? && RoomFor(b0.value, st).Success?
        && TakeIn(c, s1.value, op).Success? {
      DepositFits(c, s, st);
    }
    DepositErrorsFrom(c, s, st);
  }

  lemma WithSessionErrors(c: Chain, s: State, owner: Key, session: Key, prefunded: nat, funded: bool)
    requires WithSession(c, s, owner, session, prefunded, funded).Failure?
    ensures !Dead(WithSession(c, s, owner, session, prefunded, funded).error)
  {
  }

  lemma RoomForErrors(b: Book, st: Step)
    requires st.op.Deposit? && RoomFor(b, st).Failure?
    ensures !Dead(RoomFor(b, st).error)
  {
  }

  lemma TakeInErrors(c: Chain, s: State, op: Op)
    requires op.Deposit? && TakeIn(c, s, op).Failure?
    ensures !Dead(TakeIn(c, s, op).error)
  {
  }

  lemma DepositErrorsFrom(c: Chain, s: State, st: Step)
    requires st.op.Deposit? && NextDeposit(c, s, st).Failure?
    requires var op := st.op;
             var b0 := DepositBook(c, s, st);
             var s1 := WithSession(c, s, op.owner, op.session, op.prefunded, op.funded);
             op.ledger == c.ledgerPda(op.owner) && b0.Success? && s1.Success? && RoomFor(b0.value, st).Success?
             && TakeIn(c, s1.value, op).Success? ==>
               Credit(RoomFor(b0.value, st).value, op.mint, op.amount).Success?
    ensures !Dead(NextDeposit(c, s, st).error)
  {
    var op := st.op;
    var b0 := DepositBook(c, s, st);
    var s1 := WithSession(c, s, op.owner, op.session, op.prefunded, op.funded);
    if s1.Failure? {
      WithSessionErrors(c, s, op.owner, op.session, op.prefunded, op.funded);
    } else if b0.Success? {
      if RoomFor(b0.value, st).Failure? {
        RoomForErrors(b0.value, st);
      } else if TakeIn(c, s1.value, op).Failure? {
        TakeInErrors(c, s1.value, op);
      }
    }
  }

  /** What a deposit adds to a ledger was first added to a u64 reserve that covers the ledger. */
  lemma DepositFits(c: Chain, s: State, st: Step)
    requires Inv(c, s) && st.op.Deposit? && TakeInto(c, s.pools, s.lamports, st.op).Success?
    requires DepositBook(c, s, st).Success? && RoomFor(DepositBook(c, s, st).value, st).Success?
    ensures Credit(RoomFor(DepositBook(c, s, st).value, st).value, st.op.mint, st.op.amount).Success?
  {
    DepositBookBacked(c, s, st);
    TakenFits(c, s.pools, s.lamports, st.op);
    RoomForFits(DepositBook(c, s, st).value, st);
  }

  lemma DepositBookBacked(c: Chain, s: State, st: Step)
    requires Inv(c, s) && st.op.Deposit? && DepositBook(c, s, st).Success?
    ensures BookOk(DepositBook(c, s, st).value)
    ensures Balance(DepositBook(c, s, st).value, st.op.mint) <= Backing(c, s.pools, s.lamports, st.op.mint)
  {
    if st.op.ledger in s.ledgers {
      assert LedgerOk(c, st.op.ledger, s.ledgers[st.op.ledger]);
      ClaimsAreBacked(c, s, st.op.ledger, st.op.mint);
    } else {
      FreshBookOk(st.op.owner, false, st.op.owner, ZERO_KEY, DEFAULT_SLOTS);
    }
  }

  lemma TakenFits(c: Chain, pools: map<Key, Pool>, lamports: u64, op: Op)
    requires PoolsOk(c, pools) && op.Deposit? && TakeInto(c, pools, lamports, op).Success?
    ensures Backing(c, pools, lamports, op.mint) + op.amount <= MAX_U64
  {
  }

  lemma RoomForFits(b: Book, st: Step)
    requires BookOk(b) && st.op.Deposit? && RoomFor(b, st).Success? && Balance(b, st.op.mint) + st.op.amount <= MAX_U64
    ensures Credit(RoomFor(b, st).value, st.op.mint, st.op.amount).Success?
  {
    RoomForEffect(b, st);
  }

  lemma ClaimsAreBacked(c: Chain, s: State, k: Key, m: Key)
    requires Inv(c, s) && k in s.ledgers
    ensures Balance(s.ledgers[k].live, m) <= Backing(c, s.pools, s.lamports, m)
  {
    BalanceAtMostTotal(s.ledgers, k, m);
    assert Total(s.ledgers, m) <= Backing(c, s.pools, s.lamports, m);
  }

  lemma WithdrawErrors(c: Chain, s: State, st: Step)
    requires Sound(c) && Inv(c, s) && st.op.Withdraw? && NextWithdraw(c, s, st).Failure?
    ensures !Dead(NextWithdraw(c, s, st).error)
  {
    if st.op.ledger in s.ledgers {
      ClaimsAreBacked(c, s, st.op.ledger, st.op.mint);
    }
    WithdrawErrorsFrom(c, s, st);
  }

  lemma WithdrawErrorsFrom(c: Chain, s: State, st: Step)
    requires PoolsOk(c, s.pools) && st.op.Withdraw? && NextWithdraw(c, s, st).Failure?
    requires st.op.ledger in s.ledgers ==>
               Balance(s.ledgers[st.op.ledger].live, st.op.mint) <= Backing(c, s.pools, s.lamports, st.op.mint)
    ensures !Dead(NextWithdraw(c, s, st).error)
  {
  }

  lemma ClaimsAreCovered(c: Chain, s: State, k: Key)
    requires Sound(c) && Inv(c, s) && k in s.ledgers
    ensures PoolsCover(c, s.pools, s.ledgers[k].live)
    ensures Balance(s.ledgers[k].live, ZERO_KEY) <= Spendable(c, s.lamports)
  {
    var b := s.ledgers[k].live;
    forall m | m in b.claims && m != ZERO_KEY && b.claims[m] > 0
      ensures PoolCovers(c, s.pools, m, b.claims[m])
    {
      ClaimsAreBacked(c, s, k, m);
    }
    ClaimsAreBacked(c, s, k, ZERO_KEY);
  }

  lemma CloseErrors(c: Chain, s: State, st: Step)
    requires Sound(c) && Inv(c, s) && st.op.Close? && NextClose(c, s, st).Failure?
    requires st.op.sweep.Some? ==> !Dead(st.op.sweep.value)
    ensures !Dead(NextClose(c, s, st).error)
  {
    if st.op.ledger in s.ledgers {
      ClaimsAreCovered(c, s, st.op.ledger);
    }
    CloseErrorsFrom(c, s, st);
  }

  lemma CloseErrorsFrom(c: Chain, s: State, st: Step)
    requires st.op.Close? && NextClose(c, s, st).Failure?
    requires st.op.sweep.Some? ==> !Dead(st.op.sweep.value)
    requires st.op.ledger in s.ledgers ==>
               && PoolsCover(c, s.pools, s.ledgers[st.op.ledger].live)
               && Balance(s.ledgers[st.op.ledger].live, ZERO_KEY) <= Spendable(c, s.lamports)
    ensures !Dead(NextClose(c, s, st).error)
  {
  }

  /** No instruction, in any reachable state, runs into a u64 overflow, an empty reserve, or the
      other checks that only guard against an inconsistent vault. */
  lemma DeadErrorsAreNeverRaised(c: Chain, s: State, st: Step)
    requires Sound(c) && Inv(c, s) && Next(c, s, st).Failure?
    requires st.op.Close? && st.op.sweep.Some? ==> !Dead(st.op.sweep.value)
    ensures !Dead(Next(c, s, st).error)
  {
    var op := st.op;
    if Blocked(s, st) {
      assert Next(c, s, st).error == Busy;
    } else if op.SettleBegin? {
      BeginErrors(c, s, st);
    } else if op.Settle? {
      SettleErrors(c, s, st);
    } else if op.Deposit? {
      DepositErrors(c, s, st);
    } else if op.Withdraw? {
      WithdrawErrors(c, s, st);
    } else if op.Close? {
      CloseErrors(c, s, st);
    } else if op.OpenWallet? || op.OpenPda? || op.GrowPda? {
      OpeningErrors(c, s, st);
    } else if op.CreateReceipt? || op.SettleEnd? || op.Reap? {
      ReceiptErrors(c, s, st);
    } else if op.Authorize? {
      AuthorizeErrors(c, s, st);
    } else if op.Revoke? {
      RevokeErrors(c, s, st);
    } else {
      OtherErrors(c, s, st);
    }
  }

  lemma OpeningErrors(c: Chain, s: State, st: Step)
    requires Sound(c) && Next(c, s, st).Failure?
    requires st.op.OpenWallet? || st.op.OpenPda? || st.op.GrowPda?
    ensures !Dead(Next(c, s, st).error)
  {
    if Blocked(s, st) {
    } else if st.op.OpenPda? {
      OpenPdaErrors(c, s, st);
    } else if st.op.GrowPda? {
      GrowPdaErrors(c, s, st);
    }
  }

  lemma OpenPdaErrors(c: Chain, s: State, st: Step)
    requires Sound(c) && st.op.OpenPda? && NextOpenPda(c, s, st).Failure?
    ensures !Dead(NextOpenPda(c, s, st).error)
  {
    if c.derive(st.op.member, st.op.seeds) == Some(st.op.owner) {
      assert c.isPda(st.op.owner);
    }
  }

  lemma GrowPdaErrors(c: Chain, s: State, st: Step)
    requires st.op.GrowPda? && NextGrowPda(c, s, st).Failure?
    ensures !Dead(NextGrowPda(c, s, st).error)
  {
  }

  lemma ReceiptErrors(c: Chain, s: State, st: Step)
    requires Next(c, s, st).Failure?
    requires st.op.CreateReceipt? || st.op.SettleEnd? || st.op.Reap?
    ensures !Dead(Next(c, s, st).error)
  {
  }

  lemma LoadSessionErrors(c: Chain, s: State, session: Key, owner: Key)
    requires LoadSession(c, s, session, owner).Failure?
    ensures !Dead(LoadSession(c, s, session, owner).error)
  {
  }

  lemma AuthorizedErrors(c: Chain, a: SessionAccount<Store>, program: Key, key: Key, expiresAt: i64, funded: bool)
    requires Authorized(c, a, program, key, expiresAt, funded).Failure?
    ensures Authorized(c, a, program, key, expiresAt, funded).error == CpiFailed
  {
  }

  lemma AuthorizeErrors(c: Chain, s: State, st: Step)
    requires st.op.Authorize? && NextAuthorize(c, s, st).Failure?
    ensures !Dead(NextAuthorize(c, s, st).error)
  {
    var op := st.op;
    var s1 := if op.session in s.sessions then Success(s)
              else WithSession(c, s, op.owner, op.session, op.prefunded, op.funded);
    if s1.Failure? {
      WithSessionErrors(c, s, op.owner, op.session, op.prefunded, op.funded);
    } else {
      var a := LoadSession(c, s1.value, op.session, op.owner);
      if a.Failure? {
        LoadSessionErrors(c, s1.value, op.session, op.owner);
      } else if Authorized(c, a.value, op.program, op.key, op.expiresAt, op.funded).Failure? {
        AuthorizedErrors(c, a.value, op.program, op.key, op.expiresAt, op.funded);
      }
    }
  }

  lemma RevokeErrors(c: Chain, s: State, st: Step)
    requires st.op.Revoke? && NextRevoke(c, s, st).Failure?
    ensures !Dead(NextRevoke(c, s, st).error)
  {
  }

  lemma OtherErrors(c: Chain, s: State, st: Step)
    requires Next(c, s, st).Failure?
    requires st.op.Delegate? || st.op.Undelegate? || st.op.FinishUndelegation? || st.op.Tick?
          || st.op.Donate? || st.op.CreateReserve? || st.op.InitializeVault?
    ensures !Dead(Next(c, s, st).error)
  {
  }
}
