/** What the vault owns: over any run the reserves are what the wallets and the donors brought, and they
    exceed the claims by exactly the donations. */
module Reserves {
  import opened Base
  import opened Books
  import opened CashOut
  import opened Chains
  import opened Flow
  import opened Frames
  import opened Invariant
  import opened Machine
  import opened Receipts
  import opened Runs
  import opened Sums
  import opened Totals

  /** What wallets paid in, by some transfers. */
  function PaidIn(js: seq<Transfer>, m: Key): nat {
    if js == [] then 0
    else PaidIn(js[..|js| - 1], m) + (if js[|js| - 1].payer.Wallet? then AmountIn(js[|js| - 1].bundle, m) else 0)
  }

  /** What was paid out to wallets. */
  function PaidOut(js: seq<Transfer>, m: Key): nat {
    if js == [] then 0
    else PaidOut(js[..|js| - 1], m) + (if js[|js| - 1].payee.Wallet? then AmountIn(js[|js| - 1].bundle, m) else 0)
  }

  /** What a step gives the reserve of `m` for nothing: a donation to its pool, or lamports above the
      floor. Raising the vault to its floor gives the claims nothing. */
  function Gift(c: Chain, s: State, st: Step, m: Key): nat {
    match st.op
    case Donate(Some(a), amount) => if a in s.pools && s.pools[a].mint == m then amount else 0
    case Donate(None, amount) =>
      if m == ZERO_KEY && c.Floor() <= s.lamports + amount then
        s.lamports + amount - (if s.lamports < c.Floor() then c.Floor() else s.lamports)
      else 0
    case _ => 0
  }

  lemma OneTransfer(t: Transfer, m: Key)
    ensures PaidIn([t], m) == if t.payer.Wallet? then AmountIn(t.bundle, m) else 0
    ensures PaidOut([t], m) == if t.payee.Wallet? then AmountIn(t.bundle, m) else 0
  {
    assert [t][..0] == [];
    assert PaidIn([], m) == 0 && PaidOut([], m) == 0;
  }

  lemma {:induction false} PaidConcat(a: seq<Transfer>, b: seq<Transfer>, m: Key)
    ensures PaidIn(a + b, m) == PaidIn(a, m) + PaidIn(b, m)
    ensures PaidOut(a + b, m) == PaidOut(a, m) + PaidOut(b, m)
    decreases |b|
  {
    if b == [] {
      assert a + b == a;
    } else {
      assert (a + b)[..|a + b| - 1] == a + b[..|b| - 1];
      PaidConcat(a, b[..|b| - 1], m);
    }
  }

  lemma {:induction false} MovementsStayInside(infos: seq<Key>, movements: seq<Movement>, m: Key)
    requires InRange(movements, |infos|)
    ensures PaidIn(MovementTransfers(infos, movements), m) == 0 == PaidOut(MovementTransfers(infos, movements), m)
  {
    if movements != [] {
      var v := movements[0];
      var t := Transfer(OfLedger(infos[v.src]), OfLedger(infos[v.dst]), map[v.mint := v.amount]);
      MovementsStayInside(infos, movements[1..], m);
      PaidConcat([t], MovementTransfers(infos, movements[1..]), m);
      OneTransfer(t, m);
    }
  }

  // ---- One step ----

  /** From `s` to `s'` the reserve of `m` gains what wallets paid, less what they were paid, and `gift`;
      the claims on it gain the same without the gift. */
  ghost predicate Balances(c: Chain, s: State, s': State, js: seq<Transfer>, gift: nat, m: Key) {
    && Backing(c, s'.pools, s'.lamports, m)
        == Backing(c, s.pools, s.lamports, m) + PaidIn(js, m) - PaidOut(js, m) + gift
    && Total(s'.ledgers, m) == Total(s.ledgers, m) + PaidIn(js, m) - PaidOut(js, m)
  }

  /** A transfer that changes reserve and claims alike: up if a wallet pays it, down if a wallet is paid. */
  lemma BalancesOfOne(c: Chain, s: State, s': State, payer: Party, payee: Party, bundle: map<Key, u64>, m: Key,
      change: int)
    requires change == (if payer.Wallet? then AmountIn(bundle, m) else 0)
               - (if payee.Wallet? then AmountIn(bundle, m) else 0)
    requires Backing(c, s'.pools, s'.lamports, m) == Backing(c, s.pools, s.lamports, m) + change
    requires Total(s'.ledgers, m) == Total(s.ledgers, m) + change
    ensures Balances(c, s, s', [Transfer(payer, payee, bundle)], 0, m)
  {
    OneTransfer(Transfer(payer, payee, bundle), m);
  }

  lemma DepositBalances(c: Chain, s: State, st: Step, s': State, m: Key)
    requires Sound(c) && PoolsOk(c, s.pools) && LedgersOk(c, s.ledgers)
    requires st.op.Deposit? && NextDeposit(c, s, st) == Success(s')
    ensures Balances(c, s, s',
              [Transfer(Wallet(st.op.owner), OfLedger(st.op.ledger), map[st.op.mint := st.op.amount])], 0, m)
  {
    DepositBacks(c, s, st, s', m);
    DepositClaims(c, s, st, s', m);
    PaidInBalances(c, s, s', st.op.owner, st.op.ledger, st.op.mint, st.op.amount, m);
  }

  lemma PaidInBalances(c: Chain, s: State, s': State, owner: Key, ledger: Key, mint: Key, amount: u64, m: Key)
    requires var n := if m == mint then amount else 0;
             && Backing(c, s'.pools, s'.lamports, m) == Backing(c, s.pools, s.lamports, m) + n
             && Total(s'.ledgers, m) == Total(s.ledgers, m) + n
    ensures Balances(c, s, s', [Transfer(Wallet(owner), OfLedger(ledger), map[mint := amount])], 0, m)
  {
    BalancesOfOne(c, s, s', Wallet(owner), OfLedger(ledger), map[mint := amount], m, if m == mint then amount else 0);
  }

  lemma PaidOutBalances(c: Chain, s: State, s': State, owner: Key, ledger: Key, mint: Key, amount: u64, m: Key)
    requires var n := if m == mint then amount else 0;
             && Backing(c, s'.pools, s'.lamports, m) == Backing(c, s.pools, s.lamports, m) - n
             && Total(s'.ledgers, m) == Total(s.ledgers, m) - n
    ensures Balances(c, s, s', [Transfer(OfLedger(ledger), Wallet(owner), map[mint := amount])], 0, m)
  {
    BalancesOfOne(c, s, s', OfLedger(ledger), Wallet(owner), map[mint := amount], m,
        -(if m == mint then amount else 0));
  }

  lemma DepositBacks(c: Chain, s: State, st: Step, s': State, m: Key)
    requires Sound(c) && PoolsOk(c, s.pools) && st.op.Deposit? && NextDeposit(c, s, st) == Success(s')
    ensures Backing(c, s'.pools, s'.lamports, m) ==
              Backing(c, s.pools, s.lamports, m) + (if m == st.op.mint then st.op.amount else 0)
  {
    var op := st.op;
    DepositResult(c, s, st);
    WithSessionFrame(c, s, op.owner, op.session, op.prefunded, op.funded);
    TakeInBacks(c, WithSession(c, s, op.owner, op.session, op.prefunded, op.funded).value, op);
  }

  lemma DepositClaims(c: Chain, s: State, st: Step, s': State, m: Key)
    requires Sound(c) && LedgersOk(c, s.ledgers) && st.op.Deposit? && NextDeposit(c, s, st) == Success(s')
    ensures Total(s'.ledgers, m) == Total(s.ledgers, m) + (if m == st.op.mint then st.op.amount else 0)
  {
    DepositHolds(c, s, st, st.op.ledger, m);
    DepositResult(c, s, st);
    OnlyOneChanges(s.ledgers, st.op.ledger, s'.ledgers, m);
  }

  lemma OnlyOneChanges(ls: map<Key, Acct<Book>>, k: Key, ls': map<Key, Acct<Book>>, m: Key)
    requires k in ls' && ls' == ls[k := ls'[k]]
    ensures Total(ls', m) == Total(ls, m) - HeldIn(ls, k, m) + HeldIn(ls', k, m)
  {
    TotalUpdate(ls, k, ls'[k], m);
  }

  lemma WithdrawBalances(c: Chain, s: State, st: Step, s': State, m: Key)
    requires Sound(c) && PoolsOk(c, s.pools) && BooksOk(s.ledgers)
    requires st.op.Withdraw? && NextWithdraw(c, s, st) == Success(s')
    ensures Balances(c, s, s',
              [Transfer(OfLedger(st.op.ledger), Wallet(st.op.owner), map[st.op.mint := st.op.amount])], 0, m)
  {
    WithdrawBacks(c, s, st, s', m);
    WithdrawClaims(c, s, st, s', m);
    PaidOutBalances(c, s, s', st.op.owner, st.op.ledger, st.op.mint, st.op.amount, m);
  }

  lemma WithdrawBacks(c: Chain, s: State, st: Step, s': State, m: Key)
    requires Sound(c) && PoolsOk(c, s.pools) && st.op.Withdraw? && NextWithdraw(c, s, st) == Success(s')
    ensures Backing(c, s'.pools, s'.lamports, m) ==
              Backing(c, s.pools, s.lamports, m) - (if m == st.op.mint then st.op.amount else 0)
  {
    PayOutBacks(c, s, st.op);
  }

  lemma WithdrawClaims(c: Chain, s: State, st: Step, s': State, m: Key)
    requires BooksOk(s.ledgers) && st.op.Withdraw? && NextWithdraw(c, s, st) == Success(s')
    ensures Total(s'.ledgers, m) == Total(s.ledgers, m) - (if m == st.op.mint then st.op.amount else 0)
  {
    WithdrawTakes(c, s, st, s');
    OnlyOneChanges(s.ledgers, st.op.ledger, s'.ledgers, m);
  }

  lemma CloseBalances(c: Chain, s: State, st: Step, s': State, m: Key)
    requires Sound(c) && Inv(c, s) && st.op.Close? && NextClose(c, s, st) == Success(s')
    ensures st.op.ledger in s.ledgers
    ensures Balances(c, s, s',
              [Transfer(OfLedger(st.op.ledger), Wallet(st.op.owner), s.ledgers[st.op.ledger].live.claims)], 0, m)
  {
    var b := s.ledgers[st.op.ledger].live;
    CloseLowers(c, s, st, s', b, m);
    BalancesOfOne(c, s, s', OfLedger(st.op.ledger), Wallet(st.op.owner), b.claims, m, 0 - (Balance(b, m) as int));
  }

  lemma SettleBalances(c: Chain, s: State, st: Step, s': State, m: Key)
    requires BooksOk(s.ledgers) && st.op.Settle? && NextSettle(c, s, st) == Success(s')
    ensures Balances(c, s, s', [Transfer(OfLedger(st.op.src), OfLedger(st.op.dst), map[st.op.mint := st.op.amount])],
              0, m)
  {
    SettleKeeps(c, s, st, s', m);
    BalancesOfOne(c, s, s', OfLedger(st.op.src), OfLedger(st.op.dst), map[st.op.mint := st.op.amount], m, 0);
  }

  lemma SettleKeeps(c: Chain, s: State, st: Step, s': State, m: Key)
    requires BooksOk(s.ledgers) && st.op.Settle? && NextSettle(c, s, st) == Success(s')
    ensures s'.pools == s.pools && s'.lamports == s.lamports && Total(s'.ledgers, m) == Total(s.ledgers, m)
  {
    SettleMoves(c, s, st);
    SettleFrame(c, s, st);
    MoveKeepsTotals(s.ledgers, st.op.src, st.op.dst, st.op.mint, st.op.amount, m);
  }

  lemma BeginBalances(c: Chain, s: State, st: Step, s': State, r: Receipt, m: Key)
    requires BooksOk(s.ledgers) && st.op.SettleBegin? && NextSettleBegin(c, s, st) == Success(s')
    requires ReadReceipt(s, st.venue, st.op.receipt) == Success(r)
    ensures |r.owners| <= |st.op.remaining|
    ensures Balances(c, s, s', MovementTransfers(st.op.remaining[..|r.owners|], r.movements), 0, m)
  {
    var infos := st.op.remaining[..|r.owners|];
    BeginMoves(c, s, st, r, infos);
    MoveAllEffect(s.ledgers, infos, r.movements);
    MovementsStayInside(infos, r.movements, m);
  }

  /** The instructions that open, grow or move one ledger. */
  predicate Reshapes(op: Op) {
    op.OpenWallet? || op.OpenPda? || op.GrowPda? || op.Delegate? || op.Undelegate? || op.FinishUndelegation?
  }

  /** They change no balance. */
  lemma SameBalances(c: Chain, s: State, st: Step, s': State, m: Key)
    requires Reshapes(st.op)
    requires Next(c, s, st) == Success(s')
    ensures Balances(c, s, s', [], 0, m)
  {
    if st.op.OpenWallet? || st.op.OpenPda? || st.op.GrowPda? {
      OpeningReshapes(c, s, st, s');
    } else {
      HouseReshapes(c, s, st, s');
    }
    TotalUpdate(s.ledgers, st.op.ledger, s'.ledgers[st.op.ledger], m);
  }

  /** Only the ledger a step names differs, and not in what it holds. */
  ghost predicate OnlyReshaped(s: State, s': State, k: Key) {
    && s'.pools == s.pools && s'.lamports == s.lamports
    && k in s'.ledgers && s'.ledgers == s.ledgers[k := s'.ledgers[k]]
    && forall m: Key :: Balance(s'.ledgers[k].live, m) == if k in s.ledgers then Balance(s.ledgers[k].live, m) else 0
  }

  lemma OpeningReshapes(c: Chain, s: State, st: Step, s': State)
    requires st.op.OpenWallet? || st.op.OpenPda? || st.op.GrowPda?
    requires Next(c, s, st) == Success(s')
    ensures OnlyReshaped(s, s', st.op.ledger)
  {
    StepFrame(c, s, st);
  }

  lemma HouseReshapes(c: Chain, s: State, st: Step, s': State)
    requires st.op.Delegate? || st.op.Undelegate? || st.op.FinishUndelegation?
    requires Next(c, s, st) == Success(s')
    ensures OnlyReshaped(s, s', st.op.ledger)
  {
    StepFrame(c, s, st);
  }

  lemma DonateBacks(c: Chain, s: State, st: Step, s': State, m: Key)
    requires Sound(c) && PoolsOk(c, s.pools) && st.op.Donate? && NextDonate(s, st) == Success(s')
    ensures Backing(c, s'.pools, s'.lamports, m) == Backing(c, s.pools, s.lamports, m) + Gift(c, s, st, m)
    ensures s'.ledgers == s.ledgers
  {
    var op := st.op;
    if op.target.Some? {
      PoolBacks(c, s.pools, s.lamports, op.target.value, s'.pools[op.target.value].amount, m);
    }
  }

  /** A pool backs its own mint and no other. */
  lemma PoolBacks(c: Chain, ps: map<Key, Pool>, lamports: u64, a: Key, amount: u64, m: Key)
    requires Sound(c) && PoolsOk(c, ps) && a in ps
    ensures Backing(c, ps[a := ps[a].(amount := amount)], lamports, m) ==
              if m == ps[a].mint then amount else Backing(c, ps, lamports, m)
    ensures m == ps[a].mint ==> Backing(c, ps, lamports, m) == ps[a].amount
  {
    var p := ps[a].mint;
    assert a == c.reserveAddress(p, c.mintProgram(p)) && p != ZERO_KEY;
  }

  lemma CreateReserveBacks(c: Chain, s: State, st: Step, s': State, m: Key)
    requires st.op.CreateReserve? && NextCreateReserve(c, s, st) == Success(s')
    ensures Backing(c, s'.pools, s'.lamports, m) == Backing(c, s.pools, s.lamports, m) && s'.ledgers == s.ledgers
  {
  }

  lemma DonateBalances(c: Chain, s: State, st: Step, s': State, m: Key)
    requires Sound(c) && PoolsOk(c, s.pools) && st.op.Donate? && NextDonate(s, st) == Success(s')
    ensures Balances(c, s, s', [], Gift(c, s, st, m), m)
  {
    DonateBacks(c, s, st, s', m);
  }

  /** The same reserves, or another pool yet empty. */
  lemma NothingComesIn(c: Chain, s: State, s': State, m: Key)
    requires s'.ledgers == s.ledgers && Backing(c, s'.pools, s'.lamports, m) == Backing(c, s.pools, s.lamports, m)
    ensures Balances(c, s, s', [], 0, m)
  {
  }

  lemma InitializeBalances(c: Chain, s: State, st: Step, s': State, m: Key)
    requires st.op.InitializeVault? && NextInitializeVault(c, s, st) == Success(s')
    ensures Balances(c, s, s', [], 0, m)
  {
    NothingComesIn(c, s, s', m);
  }

  lemma CreateReserveBalances(c: Chain, s: State, st: Step, s': State, m: Key)
    requires st.op.CreateReserve? && NextCreateReserve(c, s, st) == Success(s')
    ensures Balances(c, s, s', [], 0, m)
  {
    CreateReserveBacks(c, s, st, s', m);
    NothingComesIn(c, s, s', m);
  }

  lemma QuietBalances(c: Chain, s: State, st: Step, s': State, m: Key)
    requires Next(c, s, st) == Success(s')
    requires st.op.CreateReceipt? || st.op.SettleEnd? || st.op.Reap?
          || st.op.Authorize? || st.op.Revoke? || st.op.Tick?
    ensures Balances(c, s, s', [], 0, m)
  {
    StepFrame(c, s, st);
  }

  /** Each instruction changes each mint's reserve by exactly what its journal says wallets paid and were
      paid, and what it gives; and the claims on it by the same without the gift. */
  lemma StepBalances(c: Chain, s: State, st: Step, s': State, m: Key)
    requires Sound(c) && Inv(c, s) && Next(c, s, st) == Success(s')
    ensures Balances(c, s, s', Journal(c, s, st), Gift(c, s, st, m), m)
  {
    var op := st.op;
    if op.Deposit? {
      DepositBalances(c, s, st, s', m);
    } else if op.Withdraw? {
      WithdrawBalances(c, s, st, s', m);
    } else if op.Close? {
      CloseBalances(c, s, st, s', m);
    } else if op.Settle? {
      SettleBalances(c, s, st, s', m);
    } else if op.SettleBegin? {
      BeginBalances(c, s, st, s', ReadReceipt(s, st.venue, op.receipt).value, m);
    } else if Reshapes(op) {
      SameBalances(c, s, st, s', m);
    } else if op.Donate? {
      DonateBalances(c, s, st, s', m);
    } else if op.InitializeVault? {
      InitializeBalances(c, s, st, s', m);
    } else if op.CreateReserve? {
      CreateReserveBalances(c, s, st, s', m);
    } else {
      QuietBalances(c, s, st, s', m);
    }
  }

  // ---- Whole runs ----

  ghost function Gifts(c: Chain, s: State, steps: seq<Step>, m: Key): nat
    requires Exec(c, s, steps).Success?
    decreases |steps|
  {
    if steps == [] then 0
    else
      var last := |steps| - 1;
      Gifts(c, s, steps[..last], m) + Gift(c, Exec(c, s, steps[..last]).value, steps[last], m)
  }

  /** In every run, what backs a mint is what backed it at first, plus what wallets paid in, less what
      they were paid, plus the gifts; what is claimed of it is what wallets paid in less what they were
      paid. So the reserve exceeds the claims by what was there at first and the gifts: exactly, at every
      moment, and never by less than before. */
  lemma {:induction false} ReserveIsItsHistory(c: Chain, s: State, steps: seq<Step>, m: Key)
    requires Sound(c) && Genesis(c, s) && Exec(c, s, steps).Success?
    ensures var s' := Exec(c, s, steps).value; var js := History(c, s, steps);
            && Backing(c, s'.pools, s'.lamports, m)
                 == Backing(c, s.pools, s.lamports, m) + PaidIn(js, m) - PaidOut(js, m) + Gifts(c, s, steps, m)
            && Total(s'.ledgers, m) == PaidIn(js, m) - PaidOut(js, m)
    decreases |steps|
  {
    if steps == [] {
      assert Column(s.ledgers, m) == map[];
    } else {
      var last := |steps| - 1;
      ReserveIsItsHistory(c, s, steps[..last], m);
      RunInv(c, s, steps[..last]);
      var before := Exec(c, s, steps[..last]).value;
      StepBalances(c, before, steps[last], Exec(c, s, steps).value, m);
      PaidConcat(History(c, s, steps[..last]), Journal(c, before, steps[last]), m);
    }
  }

  /** In every run the reserve of a mint exceeds all claims on it by exactly what was there to begin with
      and what was given since. */
  lemma SurplusIsWhatWasGiven(c: Chain, s: State, steps: seq<Step>, m: Key)
    requires Sound(c) && Genesis(c, s) && Exec(c, s, steps).Success?
    ensures var s' := Exec(c, s, steps).value;
            Backing(c, s'.pools, s'.lamports, m) - Total(s'.ledgers, m)
              == Backing(c, s.pools, s.lamports, m) + Gifts(c, s, steps, m)
  {
    ReserveIsItsHistory(c, s, steps, m);
  }

  /** In every run what basenet shows of a mint is covered if and only if what the ledgers away have paid
      out, beyond what came in to them, is no more than was there to begin with and given since: with no
      gifts a single unit paid by a ledger away to one come home is enough to overclaim. */
  lemma BasenetCoveredIff(c: Chain, s: State, steps: seq<Step>, m: Key)
    requires Sound(c) && Genesis(c, s) && Exec(c, s, steps).Success?
    ensures var s' := Exec(c, s, steps).value;
            Sum(BaseColumn(s'.ledgers, m)) <= Backing(c, s'.pools, s'.lamports, m) <==>
              Sum(AwayBase(s'.ledgers, m)) - Sum(AwayLive(s'.ledgers, m))
                <= Backing(c, s.pools, s.lamports, m) + Gifts(c, s, steps, m)
  {
    OverclaimIsUncommitted(Exec(c, s, steps).value.ledgers, m);
    SurplusIsWhatWasGiven(c, s, steps, m);
  }

  /** Initializing raises an unfunded vault to its floor, leaves a funded one alone, is done when done,
      and is income to no one. */
  lemma InitializingIsNoIncome(c: Chain, s: State, st: Step, s': State, m: Key)
    requires st.op.InitializeVault? && Next(c, s, st) == Success(s')
    ensures s'.lamports == if s.lamports < c.Floor() then c.Floor() else s.lamports
    ensures s' == s.(lamports := s'.lamports)
              && Backing(c, s'.pools, s'.lamports, m) == Backing(c, s.pools, s.lamports, m)
    ensures Next(c, s', st) == Success(s')
  {
  }
}
