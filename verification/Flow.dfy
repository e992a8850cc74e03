/** Where value goes. Each instruction writes down the transfers it makes; over a whole run they
    account for every balance, and none of them joins two people. */
module Flow {
  import opened Base
  import opened Books
  import opened Chains
  import opened Frames
  import opened Invariant
  import opened Machine
  import opened Receipts
  import opened Runs
  import opened Totals

  datatype Party = Wallet(owner: Key) | OfLedger(addr: Key)

  /** A transfer of some amount of each of some mints. */
  datatype Transfer = Transfer(payer: Party, payee: Party, bundle: map<Key, u64>)

  function AmountIn(bundle: map<Key, u64>, m: Key): nat {
    if m in bundle then bundle[m] else 0
  }

  function MovementTransfers(infos: seq<Key>, movements: seq<Movement>): seq<Transfer>
    requires InRange(movements, |infos|)
  {
    if movements == [] then []
    else
      var v := movements[0];
      [Transfer(OfLedger(infos[v.src]), OfLedger(infos[v.dst]), map[v.mint := v.amount])]
      + MovementTransfers(infos, movements[1..])
  }

  /** The transfers a successful instruction makes. */
  ghost function Journal(c: Chain, s: State, st: Step): seq<Transfer>
    requires Next(c, s, st).Success?
  {
    var op := st.op;
    match op
    case Deposit(_, _, _, _, _, _, _, _, _, _, _, _, _, _) =>
      [Transfer(Wallet(op.owner), OfLedger(op.ledger), map[op.mint := op.amount])]
    case Withdraw(_, _, _, _, _, _, _, _, _, _) =>
      [Transfer(OfLedger(op.ledger), Wallet(op.owner), map[op.mint := op.amount])]
    case Settle(_, _, _, _, _, _, _) =>
      [Transfer(OfLedger(op.src), OfLedger(op.dst), map[op.mint := op.amount])]
    case SettleBegin(_, _, _, _, _, _, _) =>
      var r := ReadReceipt(s, st.venue, op.receipt).value;
      MovementTransfers(op.remaining[..|r.owners|], r.movements)
    case Close(_, _, _, _, _, _, _, _) =>
      [Transfer(OfLedger(op.ledger), Wallet(op.owner), s.ledgers[op.ledger].live.claims)]
    case _ => []
  }

  function Inflow(js: seq<Transfer>, p: Party, m: Key): nat {
    if js == [] then 0
    else Inflow(js[..|js| - 1], p, m) + (if js[|js| - 1].payee == p then AmountIn(js[|js| - 1].bundle, m) else 0)
  }

  function Outflow(js: seq<Transfer>, p: Party, m: Key): nat {
    if js == [] then 0
    else Outflow(js[..|js| - 1], p, m) + (if js[|js| - 1].payer == p then AmountIn(js[|js| - 1].bundle, m) else 0)
  }

  /** The flow matrix: all that went from one party to another. */
  function FlowBetween(js: seq<Transfer>, p: Party, q: Party, m: Key): nat {
    if js == [] then 0
    else
      FlowBetween(js[..|js| - 1], p, q, m)
      + (if js[|js| - 1].payer == p && js[|js| - 1].payee == q then AmountIn(js[|js| - 1].bundle, m) else 0)
  }

  lemma {:induction false} FlowsConcat(a: seq<Transfer>, b: seq<Transfer>, p: Party, m: Key)
    ensures Inflow(a + b, p, m) == Inflow(a, p, m) + Inflow(b, p, m)
    ensures Outflow(a + b, p, m) == Outflow(a, p, m) + Outflow(b, p, m)
    decreases |b|
  {
    if b == [] {
      assert a + b == a;
    } else {
      assert (a + b)[..|a + b| - 1] == a + b[..|b| - 1];
      FlowsConcat(a, b[..|b| - 1], p, m);
    }
  }

  lemma FlowsOfOne(t: Transfer, p: Party, m: Key)
    ensures Inflow([t], p, m) == if t.payee == p then AmountIn(t.bundle, m) else 0
    ensures Outflow([t], p, m) == if t.payer == p then AmountIn(t.bundle, m) else 0
  {
    assert [t][..0] == [];
    assert Inflow([], p, m) == 0 && Outflow([], p, m) == 0;
  }

  lemma {:induction false} NetIsFlow(infos: seq<Key>, movements: seq<Movement>, a: Key, m: Key)
    requires InRange(movements, |infos|)
    ensures var js := MovementTransfers(infos, movements);
            Net(infos, movements, a, m) == Inflow(js, OfLedger(a), m) - Outflow(js, OfLedger(a), m)
  {
    if movements != [] {
      var v := movements[0];
      var t := Transfer(OfLedger(infos[v.src]), OfLedger(infos[v.dst]), map[v.mint := v.amount]);
      NetIsFlow(infos, movements[1..], a, m);
      FlowsConcat([t], MovementTransfers(infos, movements[1..]), OfLedger(a), m);
      FlowsOfOne(t, OfLedger(a), m);
    }
  }

  /** What ledger `a` holds; nothing if there is no such ledger. */
  function Holding(s: State, a: Key, m: Key): nat {
    HeldIn(s.ledgers, a, m)
  }

  function HeldIn(ls: map<Key, Acct<Book>>, a: Key, m: Key): nat {
    if a in ls then Balance(ls[a].live, m) else 0
  }

  // ---- One step: the journal accounts for every change ----

  ghost predicate Accounts(s: State, s': State, js: seq<Transfer>, a: Key, m: Key) {
    Holding(s', a, m) == Holding(s, a, m) + Inflow(js, OfLedger(a), m) - Outflow(js, OfLedger(a), m)
  }

  lemma DepositAccounts(c: Chain, s: State, st: Step, a: Key, m: Key)
    requires Sound(c) && LedgersOk(c, s.ledgers) && st.op.Deposit? && Next(c, s, st).Success?
    ensures Accounts(s, Next(c, s, st).value, Journal(c, s, st), a, m)
  {
    DepositHolds(c, s, st, a, m);
    FlowsOfOne(Transfer(Wallet(st.op.owner), OfLedger(st.op.ledger), map[st.op.mint := st.op.amount]), OfLedger(a), m);
  }

  lemma DepositHolds(c: Chain, s: State, st: Step, a: Key, m: Key)
    requires Sound(c) && LedgersOk(c, s.ledgers) && st.op.Deposit? && NextDeposit(c, s, st).Success?
    ensures Holding(NextDeposit(c, s, st).value, a, m) ==
              Holding(s, a, m) + (if a == st.op.ledger && m == st.op.mint then st.op.amount else 0)
  {
    DepositResult(c, s, st);
    DepositBookEffect(c, s, st);
  }

  lemma WithdrawAccounts(c: Chain, s: State, st: Step, a: Key, m: Key)
    requires BooksOk(s.ledgers) && st.op.Withdraw? && Next(c, s, st).Success?
    ensures Accounts(s, Next(c, s, st).value, Journal(c, s, st), a, m)
  {
    DebitEffect(s.ledgers[st.op.ledger].live, st.op.mint, st.op.amount);
    FlowsOfOne(Journal(c, s, st)[0], OfLedger(a), m);
  }

  /** A withdrawal or a close is signed by the owner of the ledger it empties and changes no other. */
  lemma OwnLedgerOnly(c: Chain, s: State, st: Step)
    requires st.op.Withdraw? || st.op.Close?
    requires Next(c, s, st).Success?
    ensures st.op.ledger == c.ledgerPda(st.op.owner) && st.op.owner in st.signers
    ensures var ls' := Next(c, s, st).value.ledgers;
            forall a :: a in s.ledgers && a != st.op.ledger ==> a in ls' && ls'[a] == s.ledgers[a]
  {
  }

  lemma CloseAccounts(c: Chain, s: State, st: Step, a: Key, m: Key)
    requires st.op.Close? && Next(c, s, st).Success?
    ensures Accounts(s, Next(c, s, st).value, Journal(c, s, st), a, m)
  {
    FlowsOfOne(Journal(c, s, st)[0], OfLedger(a), m);
  }

  lemma MovementAccounts(ls: map<Key, Acct<Book>>, src: Key, dst: Key, mint: Key, amount: u64, ls': map<Key,
      Acct<Book>>, a: Key, m: Key)
    requires BooksOk(ls) && src in ls && dst in ls && Move(ls, src, dst, mint, amount) == Success(ls')
    ensures var js := [Transfer(OfLedger(src), OfLedger(dst), map[mint := amount])];
            HeldIn(ls', a, m) == HeldIn(ls, a, m) + Inflow(js, OfLedger(a), m) - Outflow(js, OfLedger(a), m)
  {
    FlowsOfOne(Transfer(OfLedger(src), OfLedger(dst), map[mint := amount]), OfLedger(a), m);
    MoveShape(ls, src, dst, mint, amount);
    if a in ls {
      MoveEffect(ls, src, dst, mint, amount, a, m);
    }
  }

  lemma SettleAccounts(c: Chain, s: State, st: Step, a: Key, m: Key)
    requires BooksOk(s.ledgers) && st.op.Settle? && Next(c, s, st).Success?
    ensures Accounts(s, Next(c, s, st).value, Journal(c, s, st), a, m)
  {
    SettleMoves(c, s, st);
    MovementAccounts(s.ledgers, st.op.src, st.op.dst, st.op.mint, st.op.amount, Next(c, s, st).value.ledgers, a, m);
  }

  lemma SettleMoves(c: Chain, s: State, st: Step)
    requires st.op.Settle? && NextSettle(c, s, st).Success?
    ensures var op := st.op;
            && op.src in s.ledgers && op.dst in s.ledgers && op.src != op.dst
            && Move(s.ledgers, op.src, op.dst, op.mint, op.amount) == Success(NextSettle(c, s, st).value.ledgers)
            && (s.ledgers[op.src].live.pdaAuth || s.ledgers[op.dst].live.pdaAuth)
            && s.ledgers[op.src].live.owner in st.signers
            && SlotConsent(c, s, st, s.ledgers[op.src].live, s.ledgers[op.dst].live).Success?
  {
  }

  /** What a settlement's begin has checked, and what it moves. */
  lemma BeginMoves(c: Chain, s: State, st: Step, r: Receipt, infos: seq<Key>)
    requires st.op.SettleBegin? && NextSettleBegin(c, s, st).Success?
    requires ReadReceipt(s, st.venue, st.op.receipt) == Success(r)
    requires |r.owners| <= |st.op.remaining| && infos == st.op.remaining[..|r.owners|]
    ensures CheckLedgers(c, s, st.venue, r, infos, 0).None? && CountHumans(s.ledgers, infos) <= 1
    ensures ReceiptConsent(c, s, st.venue, r, infos, st.op.remaining[|r.owners|..]).Success?
    ensures MoveAll(s.ledgers, infos, r.movements) == Success(NextSettleBegin(c, s, st).value.ledgers)
    ensures r.consenter in st.signers && r.slot == ClockOf(s, st.venue).slot && |infos| == |r.owners|
  {
  }

  lemma BeginAccounts(c: Chain, s: State, st: Step, a: Key, m: Key)
    requires BooksOk(s.ledgers) && st.op.SettleBegin? && Next(c, s, st).Success?
    ensures Accounts(s, Next(c, s, st).value, Journal(c, s, st), a, m)
  {
    var r := ReadReceipt(s, st.venue, st.op.receipt).value;
    var infos := st.op.remaining[..|r.owners|];
    MoveAllEffect(s.ledgers, infos, r.movements);
    NetIsFlow(infos, r.movements, a, m);
    if a !in s.ledgers {
      NetOfStranger(infos, r.movements, a, m);
    }
  }

  lemma {:induction false} NetOfStranger(infos: seq<Key>, movements: seq<Movement>, a: Key, m: Key)
    requires InRange(movements, |infos|) && a !in infos
    ensures Net(infos, movements, a, m) == 0
  {
    if movements != [] {
      NetOfStranger(infos, movements[1..], a, m);
    }
  }

  /** The instructions that make no transfer change no holding. */
  lemma OpeningAccounts(c: Chain, s: State, st: Step, a: Key, m: Key)
    requires st.op.OpenWallet? || st.op.OpenPda? || st.op.GrowPda?
    requires Next(c, s, st).Success?
    ensures Accounts(s, Next(c, s, st).value, Journal(c, s, st), a, m)
  {
  }

  lemma HouseAccounts(c: Chain, s: State, st: Step, a: Key, m: Key)
    requires st.op.Delegate? || st.op.Undelegate? || st.op.FinishUndelegation?
    requires Next(c, s, st).Success?
    ensures Accounts(s, Next(c, s, st).value, Journal(c, s, st), a, m)
  {
  }

  predicate WritesLedgers(op: Op) {
    || op.OpenWallet? || op.OpenPda? || op.GrowPda? || op.Deposit? || op.Withdraw? || op.Close? || op.Settle?
    || op.SettleBegin? || op.Delegate? || op.Undelegate? || op.FinishUndelegation?
  }

  lemma LedgersUntouched(c: Chain, s: State, st: Step)
    requires !WritesLedgers(st.op) && Next(c, s, st).Success?
    ensures Next(c, s, st).value.ledgers == s.ledgers && Journal(c, s, st) == []
  {
    StepFrame(c, s, st);
  }

  /** Each instruction changes each ledger's holding by exactly what its journal says. */
  lemma StepAccounts(c: Chain, s: State, st: Step, a: Key, m: Key)
    requires Sound(c) && Inv(c, s) && Next(c, s, st).Success?
    ensures Accounts(s, Next(c, s, st).value, Journal(c, s, st), a, m)
  {
    var op := st.op;
    if op.Deposit? {
      DepositAccounts(c, s, st, a, m);
    } else if op.Withdraw? {
      WithdrawAccounts(c, s, st, a, m);
    } else if op.Close? {
      CloseAccounts(c, s, st, a, m);
    } else if op.Settle? {
      SettleAccounts(c, s, st, a, m);
    } else if op.SettleBegin? {
      BeginAccounts(c, s, st, a, m);
    } else if op.OpenWallet? || op.OpenPda? || op.GrowPda? {
      OpeningAccounts(c, s, st, a, m);
    } else if op.Delegate? || op.Undelegate? || op.FinishUndelegation? {
      HouseAccounts(c, s, st, a, m);
    } else {
      LedgersUntouched(c, s, st);
    }
  }

  // ---- One step: every transfer has a program on one side, or stays with one owner ----

  ghost predicate ProgramLedger(c: Chain, a: Key) {
    exists p :: c.isPda(p) && a == c.ledgerPda(p)
  }

  ghost predicate Mediated(c: Chain, t: Transfer) {
    match (t.payer, t.payee)
    case (Wallet(o), OfLedger(a)) => a == c.ledgerPda(o)
    case (OfLedger(a), Wallet(o)) => a == c.ledgerPda(o)
    case (OfLedger(a), OfLedger(b)) => ProgramLedger(c, a) || ProgramLedger(c, b)
    case (Wallet(_), Wallet(_)) => false
  }

  lemma ProgramSide(c: Chain, s: State, a: Key)
    requires LedgersOk(c, s.ledgers) && a in s.ledgers && s.ledgers[a].live.pdaAuth
    ensures ProgramLedger(c, a)
  {
    assert LedgerOk(c, a, s.ledgers[a]);
  }

  lemma {:induction false} HumansAreCounted(ls: map<Key, Acct<Book>>, infos: seq<Key>, i: nat, j: nat)
    requires forall k :: 0 <= k < |infos| ==> infos[k] in ls
    requires i < j < |infos| && !ls[infos[i]].live.pdaAuth && !ls[infos[j]].live.pdaAuth
    ensures CountHumans(ls, infos) >= 2
  {
    if i == 0 {
      OneHumanIsCounted(ls, infos[1..], j - 1);
    } else {
      HumansAreCounted(ls, infos[1..], i - 1, j - 1);
    }
  }

  lemma {:induction false} OneHumanIsCounted(ls: map<Key, Acct<Book>>, infos: seq<Key>, i: nat)
    requires forall k :: 0 <= k < |infos| ==> infos[k] in ls
    requires i < |infos| && !ls[infos[i]].live.pdaAuth
    ensures CountHumans(ls, infos) >= 1
  {
    if i > 0 {
      OneHumanIsCounted(ls, infos[1..], i - 1);
    }
  }

  lemma {:induction false} MovementsAreMediated(c: Chain, s: State, infos: seq<Key>, movements: seq<Movement>)
    requires LedgersOk(c, s.ledgers) && InRange(movements, |infos|) && NoSelfMove(movements)
    requires forall k :: 0 <= k < |infos| ==> infos[k] in s.ledgers
    requires CountHumans(s.ledgers, infos) <= 1
    ensures forall t :: t in MovementTransfers(infos, movements) ==> Mediated(c, t)
    decreases |movements|
  {
    if movements != [] {
      var v := movements[0];
      var i, j := v.src as nat, v.dst as nat;
      if !s.ledgers[infos[i]].live.pdaAuth && !s.ledgers[infos[j]].live.pdaAuth {
        HumansAreCounted(s.ledgers, infos, if i < j then i else j, if i < j then j else i);
      }
      if s.ledgers[infos[i]].live.pdaAuth {
        ProgramSide(c, s, infos[i]);
      } else {
        ProgramSide(c, s, infos[j]);
      }
      MovementsAreMediated(c, s, infos, movements[1..]);
    }
  }

  lemma SettleIsMediated(c: Chain, s: State, st: Step)
    requires LedgersOk(c, s.ledgers) && st.op.Settle? && NextSettle(c, s, st).Success?
    ensures Mediated(c, Transfer(OfLedger(st.op.src), OfLedger(st.op.dst), map[st.op.mint := st.op.amount]))
  {
    SettleMoves(c, s, st);
    if s.ledgers[st.op.src].live.pdaAuth {
      ProgramSide(c, s, st.op.src);
    } else {
      ProgramSide(c, s, st.op.dst);
    }
  }

  lemma BeginIsMediated(c: Chain, s: State, st: Step, r: Receipt)
    requires Inv(c, s) && st.op.SettleBegin? && NextSettleBegin(c, s, st).Success?
    requires ReadReceipt(s, st.venue, st.op.receipt) == Success(r)
    ensures |r.owners| <= |st.op.remaining|
    ensures forall t :: t in MovementTransfers(st.op.remaining[..|r.owners|], r.movements) ==> Mediated(c, t)
  {
    var infos := st.op.remaining[..|r.owners|];
    BeginMoves(c, s, st, r, infos);
    assert ReceiptOk(c, s.clocks, At(st.venue, st.op.receipt), ReceiptAccount(r, true));
    MovementsAreMediated(c, s, infos, r.movements);
  }

  /** No instruction transfers anything between two people, or out to anyone but the ledger's owner. */
  lemma StepIsMediated(c: Chain, s: State, st: Step)
    requires Sound(c) && Inv(c, s) && Next(c, s, st).Success?
    ensures forall t :: t in Journal(c, s, st) ==> Mediated(c, t)
  {
    if st.op.Settle? {
      SettleIsMediated(c, s, st);
    } else if st.op.SettleBegin? {
      BeginIsMediated(c, s, st, ReadReceipt(s, st.venue, st.op.receipt).value);
    } else {
      PlainStepIsMediated(c, s, st);
    }
  }

  lemma PlainStepIsMediated(c: Chain, s: State, st: Step)
    requires Next(c, s, st).Success? && !st.op.Settle? && !st.op.SettleBegin?
    ensures forall t :: t in Journal(c, s, st) ==> Mediated(c, t)
  {
  }

  // ---- Whole runs ----

  ghost function History(c: Chain, s: State, steps: seq<Step>): seq<Transfer>
    requires Exec(c, s, steps).Success?
    decreases |steps|
  {
    if steps == [] then []
    else
      var last := |steps| - 1;
      History(c, s, steps[..last]) + Journal(c, Exec(c, s, steps[..last]).value, steps[last])
  }

  lemma {:induction false} HistoryIsMediated(c: Chain, s: State, steps: seq<Step>)
    requires Sound(c) && Inv(c, s) && Exec(c, s, steps).Success?
    ensures forall t :: t in History(c, s, steps) ==> Mediated(c, t)
    decreases |steps|
  {
    if steps != [] {
      var last := |steps| - 1;
      HistoryIsMediated(c, s, steps[..last]);
      ExecKeepsInv(c, s, steps[..last]);
      StepIsMediated(c, Exec(c, s, steps[..last]).value, steps[last]);
    }
  }

  /** In every run, every ledger holds what it received less what it gave. */
  lemma {:induction false} HoldingIsHistory(c: Chain, s: State, steps: seq<Step>, a: Key, m: Key)
    requires Sound(c) && Genesis(c, s) && Exec(c, s, steps).Success?
    ensures Holding(Exec(c, s, steps).value, a, m)
              == Inflow(History(c, s, steps), OfLedger(a), m) - Outflow(History(c, s, steps), OfLedger(a), m)
    decreases |steps|
  {
    if steps != [] {
      var last := |steps| - 1;
      HoldingIsHistory(c, s, steps[..last], a, m);
      RunInv(c, s, steps[..last]);
      var before := Exec(c, s, steps[..last]).value;
      StepAccounts(c, before, steps[last], a, m);
      FlowsConcat(History(c, s, steps[..last]), Journal(c, before, steps[last]), OfLedger(a), m);
    }
  }

  lemma {:induction false} NoFlowWithoutTransfer(js: seq<Transfer>, p: Party, q: Party, m: Key)
    requires forall t :: t in js ==> t.payer != p || t.payee != q
    ensures FlowBetween(js, p, q, m) == 0
    decreases |js|
  {
    if js != [] {
      NoFlowWithoutTransfer(js[..|js| - 1], p, q, m);
    }
  }

  lemma PeopleHaveNoProgramLedger(c: Chain, person: Key)
    requires Sound(c) && !c.isPda(person)
    ensures !ProgramLedger(c, c.ledgerPda(person))
  {
  }

  /** The vault is not a payment rail: over any run, nothing flows from one person to another, be it
      ledger to ledger or from a person's ledger to somebody else's wallet. */
  lemma NoFlowBetweenPeople(c: Chain, s: State, steps: seq<Step>, alice: Key, bob: Key, m: Key)
    requires Sound(c) && Genesis(c, s) && Exec(c, s, steps).Success?
    requires !c.isPda(alice) && !c.isPda(bob) && alice != bob
    ensures var js := History(c, s, steps);
            && FlowBetween(js, OfLedger(c.ledgerPda(alice)), OfLedger(c.ledgerPda(bob)), m) == 0
            && FlowBetween(js, OfLedger(c.ledgerPda(alice)), Wallet(bob), m) == 0
            && FlowBetween(js, Wallet(alice), OfLedger(c.ledgerPda(bob)), m) == 0
            && FlowBetween(js, Wallet(alice), Wallet(bob), m) == 0
  {
    GenesisInv(c, s);
    HistoryIsMediated(c, s, steps);
    var js := History(c, s, steps);
    var a, b := c.ledgerPda(alice), c.ledgerPda(bob);
    PeopleHaveNoProgramLedger(c, alice);
    PeopleHaveNoProgramLedger(c, bob);
    NoFlowWithoutTransfer(js, OfLedger(a), OfLedger(b), m);
    NoFlowWithoutTransfer(js, OfLedger(a), Wallet(bob), m);
    NoFlowWithoutTransfer(js, Wallet(alice), OfLedger(b), m);
    NoFlowWithoutTransfer(js, Wallet(alice), Wallet(bob), m);
  }

  // ---- Where a person's balance came from ----

  ghost function FromPrograms(c: Chain, js: seq<Transfer>, a: Key, m: Key): nat {
    if js == [] then 0
    else
      var t := js[|js| - 1];
      FromPrograms(c, js[..|js| - 1], a, m)
      + (if t.payee == OfLedger(a) && t.payer.OfLedger? && ProgramLedger(c, t.payer.addr) then AmountIn(t.bundle, m)
          else 0)
  }

  ghost function ToPrograms(c: Chain, js: seq<Transfer>, a: Key, m: Key): nat {
    if js == [] then 0
    else
      var t := js[|js| - 1];
      ToPrograms(c, js[..|js| - 1], a, m)
      + (if t.payer == OfLedger(a) && t.payee.OfLedger? && ProgramLedger(c, t.payee.addr) then AmountIn(t.bundle, m)
          else 0)
  }

  lemma {:induction false} PersonFlowsSplit(c: Chain, js: seq<Transfer>, person: Key, m: Key)
    requires Sound(c) && !c.isPda(person)
    requires forall t :: t in js ==> Mediated(c, t)
    ensures var a := c.ledgerPda(person);
            && Inflow(js, OfLedger(a), m) == FlowBetween(js, Wallet(person), OfLedger(a), m) + FromPrograms(c, js, a, m)
            && Outflow(js, OfLedger(a), m) == FlowBetween(js, OfLedger(a), Wallet(person), m) + ToPrograms(c, js, a, m)
    decreases |js|
  {
    if js != [] {
      PersonFlowsSplit(c, js[..|js| - 1], person, m);
      PeopleHaveNoProgramLedger(c, person);
      assert Mediated(c, js[|js| - 1]);
    }
  }

  /** A person's balance is their own deposits, less their own withdrawals and close payouts, plus
      what programs paid them, less what they paid programs; there is no other term. */
  lemma PersonBalance(c: Chain, s: State, steps: seq<Step>, person: Key, m: Key)
    requires Sound(c) && Genesis(c, s) && Exec(c, s, steps).Success? && !c.isPda(person)
    ensures var js := History(c, s, steps); var a := c.ledgerPda(person);
            Holding(Exec(c, s, steps).value, a, m) ==
              FlowBetween(js, Wallet(person), OfLedger(a), m) - FlowBetween(js, OfLedger(a), Wallet(person), m)
              + FromPrograms(c, js, a, m) - ToPrograms(c, js, a, m)
  {
    GenesisInv(c, s);
    HistoryIsMediated(c, s, steps);
    HoldingIsHistory(c, s, steps, c.ledgerPda(person), m);
    PersonFlowsSplit(c, History(c, s, steps), person, m);
  }
}
