/** Ledgers opened, filled and grown: exactly when, with how much room, and on whose account. */
module Openings {
  import opened Base
  import opened Books
  import opened Chains
  import opened Flow
  import opened Invariant
  import opened Machine
  import opened Places
  import opened Runs
  import opened Sessions
  import opened Totals

  // ---- Opening ----

  function Opened(s: State, k: Key, b: Book): State {
    s.(ledgers := s.ledgers[k := Acct(b, Home)])
  }

  /** The owner's store, made empty and rent-exempt if it is missing. */
  function WithStore(c: Chain, ss: map<Key, SessionAccount<Store>>, owner: Key, prefunded: nat):
      map<Key, SessionAccount<Store>> {
    var rent := c.rent(SESSION_HEADER);
    if c.sessionPda(owner) in ss then ss
    else ss[c.sessionPda(owner) :=
              SessionAccount(Store(owner, map[]), SESSION_HEADER, if prefunded < rent then rent else prefunded)]
  }

  ghost predicate WalletOpens(c: Chain, s: State, st: Step)
    requires st.op.OpenWallet?
  {
    var op := st.op;
    && st.venue.Basenet? && op.owner in st.signers && !c.isPda(op.owner) && op.funded
    && op.ledger == c.ledgerPda(op.owner) && op.ledger !in s.ledgers && op.session == c.sessionPda(op.owner)
    && 1 <= op.slots <= MAX_GROWTH
  }

  /** A wallet opens its own ledger if and only if it has none, signs and pays. */
  lemma OpenWalletIff(c: Chain, s: State, st: Step)
    requires st.op.OpenWallet? && !Blocked(s, st)
    ensures Next(c, s, st).Success? <==> WalletOpens(c, s, st)
    ensures Next(c, s, st).Success? ==>
              var op := st.op;
              Next(c, s, st).value
                == Opened(s, op.ledger, Book(op.owner, false, op.owner, ZERO_KEY, op.slots, map[ZERO_KEY := 0]))
                    .(sessions := WithStore(c, s.sessions, op.owner, op.prefunded))
  {
  }

  ghost predicate PdaOpens(c: Chain, s: State, st: Step)
    requires st.op.OpenPda?
  {
    var op := st.op;
    && st.venue.Basenet? && op.owner in st.signers && op.payer in st.signers && op.funded
    && c.derive(op.member, op.seeds) == Some(op.owner)
    && op.ledger == c.ledgerPda(op.owner) && op.ledger !in s.ledgers
    && 1 <= op.slots <= MAX_GROWTH
  }

  /** A program opens a ledger for an address of its own if and only if that has none, the program signs for
      it, and someone signs and pays. The ledger is bound to the program, and the payer is put down for its
      rent. */
  lemma OpenPdaIff(c: Chain, s: State, st: Step)
    requires Sound(c) && st.op.OpenPda? && !Blocked(s, st)
    ensures Next(c, s, st).Success? <==> PdaOpens(c, s, st)
    ensures Next(c, s, st).Success? ==>
              var op := st.op;
              Next(c, s, st).value
                == Opened(s, op.ledger, Book(op.owner, true, op.payer, op.member, op.slots, map[ZERO_KEY := 0]))
  {
  }

  // ---- Growing ----

  /** Short of the free slots asked for, a ledger gains exactly the slots asked for; otherwise none. */
  function Grown(b: Book, minFree: nat, slotIncrease: nat): Book {
    b.(capacity := b.capacity + if Room(b) < minFree then slotIncrease else 0)
  }

  predicate MayGrow(b: Book, minFree: nat, slotIncrease: nat) {
    Room(b) < minFree ==> 1 <= slotIncrease <= MAX_SLOT_INCREASE
  }

  lemma HeadroomIff(b: Book, v: Venue, payer: Key, minFree: nat, slotIncrease: nat, funded: bool)
    ensures EnsureHeadroom(b, v, payer, minFree, slotIncrease, funded).Success? <==>
              && payer == b.rentPayer && MayGrow(b, minFree, slotIncrease)
              && (Room(b) < minFree ==> v.Basenet? && funded)
    ensures EnsureHeadroom(b, v, payer, minFree, slotIncrease, funded).Success? ==>
              EnsureHeadroom(b, v, payer, minFree, slotIncrease, funded).value == Grown(b, minFree, slotIncrease)
  {
  }

  ghost predicate PdaGrows(c: Chain, s: State, st: Step)
    requires st.op.GrowPda?
  {
    var op := st.op;
    && op.owner in st.signers && op.payer in st.signers && c.isPda(op.owner)
    && op.ledger == c.ledgerPda(op.owner) && op.ledger in s.ledgers && Here(s.ledgers[op.ledger], st.venue)
    && var b := s.ledgers[op.ledger].live;
       && op.payer == b.rentPayer && MayGrow(b, op.minFree, op.slotIncrease)
       && (Room(b) < op.minFree ==> st.venue.Basenet? && op.funded)
  }

  /** A program's ledger grows if and only if the program signs and so does the one who pays its rent, by the
      slots asked for, on basenet, if it is short of them; otherwise it stays as it is. */
  lemma GrowPdaIff(c: Chain, s: State, st: Step)
    requires Sound(c) && Inv(c, s) && st.op.GrowPda? && !Blocked(s, st)
    ensures Next(c, s, st).Success? <==> PdaGrows(c, s, st)
    ensures Next(c, s, st).Success? ==>
              var k := st.op.ledger;
              k in s.ledgers && Next(c, s, st).value == s.(ledgers := s.ledgers[k :=
                  s.ledgers[k].(live := Grown(s.ledgers[k].live, st.op.minFree, st.op.slotIncrease))])
  {
    NextGrowPdaIff(c, s, st);
  }

  lemma NextGrowPdaIff(c: Chain, s: State, st: Step)
    requires LedgersOk(c, s.ledgers) && st.op.GrowPda? && forall a, b :: c.ledgerPda(a) == c.ledgerPda(b) ==> a == b
    ensures NextGrowPda(c, s, st).Success? <==> PdaGrows(c, s, st)
    ensures NextGrowPda(c, s, st).Success? ==>
              var k := st.op.ledger;
              k in s.ledgers && NextGrowPda(c, s, st).value == s.(ledgers := s.ledgers[k :=
                  s.ledgers[k].(live := Grown(s.ledgers[k].live, st.op.minFree, st.op.slotIncrease))])
  {
    var op := st.op;
    if op.ledger in s.ledgers {
      assert LedgerOk(c, op.ledger, s.ledgers[op.ledger]);
      HeadroomIff(s.ledgers[op.ledger].live, st.venue, op.payer, op.minFree, op.slotIncrease, op.funded);
    }
  }

  // ---- Depositing ----

  function AskedFree(op: Op): nat
    requires op.Deposit?
  {
    if op.band.Some? then op.band.value else DEFAULT_MIN_FREE
  }

  function AskedGrowth(op: Op): nat
    requires op.Deposit?
  {
    if op.growth.Some? then op.growth.value else DEFAULT_SLOTS
  }

  /** The depositor's ledger, or the one the deposit opens. */
  function Depositors(s: State, op: Op): Book
    requires op.Deposit?
  {
    if op.ledger in s.ledgers then s.ledgers[op.ledger].live
    else Book(op.owner, false, op.owner, ZERO_KEY, DEFAULT_SLOTS, map[ZERO_KEY := 0])
  }

  /** The ledger grown as asked, with the deposit in it. */
  function Deposited(b: Book, op: Op): Book
    requires op.Deposit? && Balance(b, op.mint) + op.amount <= MAX_U64
  {
    Grown(b, AskedFree(op), AskedGrowth(op)).(claims := b.claims[op.mint := Balance(b, op.mint) + op.amount])
  }

  /** The vault can take the amount: rent in place for SOL; for a token its one reserve, and the wallet's
      account of the same mint and program. */
  predicate Takes(c: Chain, s: State, op: Op)
    requires op.Deposit?
  {
    if op.mint == ZERO_KEY then c.Floor() <= s.lamports && s.lamports + op.amount <= MAX_U64
    else
      && op.vaultToken == c.reserveAddress(op.mint, op.tokenProgram) && op.vaultToken in s.pools
      && s.pools[op.vaultToken].amount + op.amount <= MAX_U64
      && op.ownerToken.mint == op.mint && op.ownerToken.program == op.tokenProgram
      && (op.tokenProgram == c.token2022 ==> op.mintGiven)
  }

  ghost predicate DepositStands(c: Chain, s: State, st: Step)
    requires st.op.Deposit?
  {
    var op := st.op;
    && st.venue.Basenet? && op.owner in st.signers && !c.isPda(op.owner) && op.funded
    && c.IsTokenProgram(op.tokenProgram)
    && op.ledger == c.ledgerPda(op.owner) && (op.ledger in s.ledgers ==> s.ledgers[op.ledger].place.Home?)
    && op.vault == c.vault && op.session == c.sessionPda(op.owner)
    && MayGrow(Depositors(s, op), AskedFree(op), AskedGrowth(op))
    && (op.mint in Depositors(s, op).claims || Room(Grown(Depositors(s, op), AskedFree(op), AskedGrowth(op))) > 0)
    && Takes(c, s, op)
  }

  /** A deposit goes through if and only if its owner signs and can pay, their ledger is at home or yet to be
      opened, there is room for the mint or room is made, and the vault can take it. Nothing is refused for
      overflow. The ledger ends with the amount added, and grown by exactly what was asked if it was short. */
  lemma DepositIff(c: Chain, s: State, st: Step)
    requires Sound(c) && Inv(c, s) && st.op.Deposit? && !Blocked(s, st)
    ensures Next(c, s, st).Success? <==> DepositStands(c, s, st)
    ensures Next(c, s, st).Success? ==>
              var op := st.op;
              && Balance(Depositors(s, op), op.mint) + op.amount <= MAX_U64
              && Next(c, s, st).value.ledgers == s.ledgers[op.ledger := Acct(Deposited(Depositors(s, op), op), Home)]
  {
    RentIsOwn(c, s, st.op);
    NextDepositIff(c, s, st);
    IsDeposit(c, s, st);
  }

  lemma IsDeposit(c: Chain, s: State, st: Step)
    requires st.op.Deposit? && !Blocked(s, st)
    ensures Next(c, s, st) == NextDeposit(c, s, st)
  {
  }

  /** A person's ledger is a sound one, and its rent is theirs. */
  ghost predicate OwnBook(c: Chain, s: State, op: Op)
    requires op.Deposit?
  {
    op.ledger == c.ledgerPda(op.owner) && !c.isPda(op.owner) ==>
      && BookOk(Depositors(s, op)) && Depositors(s, op).rentPayer == op.owner
      && Balance(Depositors(s, op), op.mint) <= Backing(c, s.pools, s.lamports, op.mint)
  }

  lemma RentIsOwn(c: Chain, s: State, op: Op)
    requires Sound(c) && Inv(c, s) && op.Deposit?
    ensures OwnBook(c, s, op)
  {
    if op.ledger == c.ledgerPda(op.owner) && !c.isPda(op.owner) {
      if op.ledger in s.ledgers {
        assert LedgerOk(c, op.ledger, s.ledgers[op.ledger]);
        ClaimsAreBacked(c, s, op.ledger, op.mint);
      } else {
        FreshBookOk(op.owner, false, op.owner, ZERO_KEY, DEFAULT_SLOTS);
      }
    }
  }

  /** The checks of a deposit, and then its steps. */
  lemma DepositUnfolds(c: Chain, s: State, st: Step)
    requires st.op.Deposit?
    ensures var op := st.op;
            NextDeposit(c, s, st).Success? <==>
              && st.venue.Basenet? && op.owner in st.signers && !c.isPda(op.owner)
              && c.IsTokenProgram(op.tokenProgram) && op.ledger == c.ledgerPda(op.owner) && op.vault == c.vault
              && DepositSteps(c, s, st).Success?
    ensures NextDeposit(c, s, st).Success? ==> NextDeposit(c, s, st) == DepositSteps(c, s, st)
  {
  }

  /** The ledger is there to be deposited to, and the store beside it. */
  predicate Stands(c: Chain, s: State, op: Op)
    requires op.Deposit?
  {
    && (op.ledger in s.ledgers ==> s.ledgers[op.ledger].place.Home?)
    && op.session == c.sessionPda(op.owner)
  }

  /** The room made, the value taken in and the credit given. */
  predicate Credited(c: Chain, s: State, b: Book, st: Step)
    requires st.op.Deposit?
  {
    && RoomFor(b, st).Success? && TakeInto(c, s.pools, s.lamports, st.op).Success?
    && Credit(RoomFor(b, st).value, st.op.mint, st.op.amount).Success?
  }

  lemma CreditedTo(c: Chain, s: State, b: Book, st: Step)
    requires st.op.Deposit?
    ensures DepositTo(c, s, b, st).Success? <==> Credited(c, s, b, st)
    ensures DepositTo(c, s, b, st).Success? ==>
              DepositTo(c, s, b, st).value.ledgers ==
                s.ledgers[st.op.ledger := Acct(Credit(RoomFor(b, st).value, st.op.mint, st.op.amount).value, Home)]
  {
  }

  lemma CreditedWith(c: Chain, s: State, b: Book, st: Step)
    requires st.op.Deposit?
    ensures DepositWith(c, s, b, st).Success? ==> st.op.session == c.sessionPda(st.op.owner)
    ensures st.op.session == c.sessionPda(st.op.owner) && st.op.funded ==>
              var s1 := s.(sessions := WithStore(c, s.sessions, st.op.owner, st.op.prefunded));
              DepositWith(c, s, b, st) == DepositTo(c, s1, b, st)
    ensures DepositWith(c, s, b, st).Success? ==> TakeInto(c, s.pools, s.lamports, st.op).Success?
  {
  }

  lemma PaidIn(c: Chain, pools: map<Key, Pool>, lamports: u64, op: Op)
    requires op.Deposit? && TakeInto(c, pools, lamports, op).Success?
    ensures op.funded
  {
  }

  lemma StepsUnfold(c: Chain, s: State, st: Step)
    requires st.op.Deposit? && st.venue.Basenet?
    ensures var op, b := st.op, Depositors(s, st.op);
            DepositSteps(c, s, st).Success? <==> Stands(c, s, op) && Credited(c, s, b, st)
    ensures var op, b := st.op, Depositors(s, st.op);
            DepositSteps(c, s, st).Success? ==>
              DepositSteps(c, s, st).value.ledgers ==
                s.ledgers[op.ledger := Acct(Credit(RoomFor(b, st).value, op.mint, op.amount).value, Home)]
  {
    var op, b := st.op, Depositors(s, st.op);
    CreditedWith(c, s, b, st);
    CreditedTo(c, s.(sessions := WithStore(c, s.sessions, op.owner, op.prefunded)), b, st);
    if TakeInto(c, s.pools, s.lamports, op).Success? {
      PaidIn(c, s.pools, s.lamports, op);
    }
    StepsFrom(c, s, b, st);
  }

  lemma StepsFrom(c: Chain, s: State, b: Book, st: Step)
    requires st.op.Deposit? && st.venue.Basenet? && b == Depositors(s, st.op)
    ensures DepositSteps(c, s, st).Success? ==>
              (st.op.ledger in s.ledgers ==> s.ledgers[st.op.ledger].place.Home?)
              && DepositSteps(c, s, st) == DepositWith(c, s, b, st)
    ensures (st.op.ledger in s.ledgers ==> s.ledgers[st.op.ledger].place.Home?) && st.op.funded ==>
              DepositSteps(c, s, st) == DepositWith(c, s, b, st)
  {
  }

  lemma TakesIff(c: Chain, s: State, op: Op)
    requires PoolsOk(c, s.pools) && ReservesApart(c) && op.Deposit?
    ensures TakeInto(c, s.pools, s.lamports, op).Success? && c.IsTokenProgram(op.tokenProgram) <==>
              op.funded && Takes(c, s, op) && c.IsTokenProgram(op.tokenProgram)
  {
  }

  lemma RoomIff(b: Book, st: Step)
    requires BookOk(b) && st.op.Deposit? && b.rentPayer == st.op.owner && st.venue.Basenet? && st.op.funded
    requires Balance(b, st.op.mint) + st.op.amount <= MAX_U64
    ensures var op := st.op; var g := Grown(b, AskedFree(op), AskedGrowth(op));
            RoomFor(b, st).Success? <==>
              MayGrow(b, AskedFree(op), AskedGrowth(op)) && (op.mint in b.claims || Room(g) > 0)
    ensures RoomFor(b, st).Success? ==>
              Credit(RoomFor(b, st).value, st.op.mint, st.op.amount) == Success(Deposited(b, st.op))
  {
    HeadroomIff(b, st.venue, st.op.owner, AskedFree(st.op), AskedGrowth(st.op), st.op.funded);
    var g := Grown(b, AskedFree(st.op), AskedGrowth(st.op));
    if st.op.mint !in b.claims {
      assert b.claims[st.op.mint := 0][st.op.mint := st.op.amount] == b.claims[st.op.mint := st.op.amount];
    }
  }

  lemma NextDepositIff(c: Chain, s: State, st: Step)
    requires PoolsOk(c, s.pools) && ReservesApart(c) && st.op.Deposit? && OwnBook(c, s, st.op)
    ensures NextDeposit(c, s, st).Success? <==> DepositStands(c, s, st)
    ensures NextDeposit(c, s, st).Success? ==>
              var op := st.op;
              && Balance(Depositors(s, op), op.mint) + op.amount <= MAX_U64
              && NextDeposit(c, s, st).value.ledgers
                  == s.ledgers[op.ledger := Acct(Deposited(Depositors(s, op), op), Home)]
  {
    var op := st.op;
    DepositUnfolds(c, s, st);
    TakesIff(c, s, op);
    if st.venue.Basenet? {
      StepsUnfold(c, s, st);
      if TakeInto(c, s.pools, s.lamports, op).Success? && op.ledger == c.ledgerPda(op.owner) && !c.isPda(op.owner)
         && c.IsTokenProgram(op.tokenProgram) {
        TakenFits(c, s.pools, s.lamports, op);
        RoomIff(Depositors(s, op), st);
      }
    }
  }

  // ---- Who pays the rent ----

  /** Step `j` opened ledger `a` for a program, on the account of `payer`, who signed. */
  ghost predicate OpenedOnAccountOf(steps: seq<Step>, j: nat, a: Key, payer: Key) {
    && j < |steps| && steps[j].op.OpenPda? && steps[j].op.ledger == a
    && steps[j].op.payer == payer && payer in steps[j].signers
  }

  /** A ledger that is there after the step was there before it, with as many slots. */
  predicate KeepsRoom(s: State, s': State, a: Key) {
    a in s'.ledgers ==> a in s.ledgers && s'.ledgers[a].live.capacity == s.ledgers[a].live.capacity
  }

  lemma SettleKeepsRoom(c: Chain, s: State, st: Step, s': State, a: Key)
    requires BooksOk(s.ledgers) && st.op.Settle? && NextSettle(c, s, st) == Success(s')
    ensures KeepsRoom(s, s', a)
  {
    SettleMoves(c, s, st);
    MoveShape(s.ledgers, st.op.src, st.op.dst, st.op.mint, st.op.amount);
  }

  lemma BeginKeepsRoom(c: Chain, s: State, st: Step, s': State, a: Key)
    requires BooksOk(s.ledgers) && st.op.SettleBegin? && NextSettleBegin(c, s, st) == Success(s')
    ensures KeepsRoom(s, s', a)
  {
    var r := ReadReceipt(s, st.venue, st.op.receipt).value;
    var infos := st.op.remaining[..|r.owners|];
    BeginMoves(c, s, st, r, infos);
    MoveAllEffect(s.ledgers, infos, r.movements);
  }

  lemma PayoutKeepsRoom(c: Chain, s: State, st: Step, s': State, a: Key)
    requires (st.op.Withdraw? || st.op.Close?) && Next(c, s, st) == Success(s')
    ensures KeepsRoom(s, s', a)
  {
  }

  lemma TravelKeepsRoom(c: Chain, s: State, st: Step, s': State, a: Key)
    requires st.op.Delegate? || st.op.Undelegate? || st.op.FinishUndelegation?
    requires Next(c, s, st) == Success(s')
    ensures KeepsRoom(s, s', a)
  {
  }

  predicate OpensOrGrows(op: Op) {
    op.OpenWallet? || op.OpenPda? || op.GrowPda? || op.Deposit?
  }

  lemma OthersKeepRoom(c: Chain, s: State, st: Step, s': State, a: Key)
    requires BooksOk(s.ledgers) && !OpensOrGrows(st.op) && Next(c, s, st) == Success(s')
    ensures KeepsRoom(s, s', a)
  {
    var op := st.op;
    if op.Settle? {
      SettleKeepsRoom(c, s, st, s', a);
    } else if op.SettleBegin? {
      BeginKeepsRoom(c, s, st, s', a);
    } else if op.Withdraw? || op.Close? {
      PayoutKeepsRoom(c, s, st, s', a);
    } else if op.Delegate? || op.Undelegate? || op.FinishUndelegation? {
      TravelKeepsRoom(c, s, st, s', a);
    } else {
      LedgersUntouched(c, s, st);
    }
  }

  /** A program's ledger that a step finds missing and leaves behind was opened by it. */
  lemma MadeByOpening(c: Chain, s: State, st: Step, s': State, a: Key)
    requires Sound(c) && Inv(c, s) && Next(c, s, st) == Success(s')
    requires a !in s.ledgers && a in s'.ledgers && s'.ledgers[a].live.pdaAuth
    ensures st.op.OpenPda? && st.op.ledger == a && s'.ledgers[a].live.rentPayer == st.op.payer
    ensures st.op.payer in st.signers
  {
    if st.op.OpenWallet? {
      OpenWalletIff(c, s, st);
    } else if st.op.OpenPda? {
      OpenPdaIff(c, s, st);
    } else if st.op.GrowPda? {
      GrowPdaIff(c, s, st);
    } else if st.op.Deposit? {
      DepositIff(c, s, st);
    } else {
      OthersKeepRoom(c, s, st, s', a);
    }
  }

  /** In every run the one put down for the rent of a program's ledger is whoever signed for it, as payer, when
      the ledger was opened; nothing later puts down anyone else. */
  lemma {:induction false} RentPayersSigned(c: Chain, s: State, steps: seq<Step>, a: Key) returns (j: nat)
    requires Sound(c) && Genesis(c, s) && Exec(c, s, steps).Success?
    requires a in Exec(c, s, steps).value.ledgers && Exec(c, s, steps).value.ledgers[a].live.pdaAuth
    ensures OpenedOnAccountOf(steps, j, a, Exec(c, s, steps).value.ledgers[a].live.rentPayer)
    decreases |steps|
  {
    var last := |steps| - 1;
    var before := Exec(c, s, steps[..last]).value;
    RunInv(c, s, steps[..last]);
    if a in before.ledgers {
      StepMoves(c, before, steps[last], a);
      j := RentPayersSigned(c, s, steps[..last], a);
    } else {
      MadeByOpening(c, before, steps[last], Exec(c, s, steps).value, a);
      j := last;
    }
  }

  /** A deposit to this ledger, or a growth of it. */
  predicate Grows(st: Step, a: Key) {
    (st.op.Deposit? || st.op.GrowPda?) && st.op.ledger == a
  }

  /** Slots were added, on basenet, with the signature of the one who pays the ledger's rent. */
  ghost predicate GrownByPayer(s: State, st: Step, a: Key)
    requires a in s.ledgers
  {
    st.venue.Basenet? && Grows(st, a) && s.ledgers[a].live.rentPayer in st.signers
  }

  lemma DepositGrowsOwn(c: Chain, s: State, st: Step, s': State, a: Key)
    requires Sound(c) && Inv(c, s) && st.op.Deposit? && Next(c, s, st) == Success(s') && a in s.ledgers
    ensures a in s'.ledgers && (s'.ledgers[a].live.capacity > s.ledgers[a].live.capacity ==> GrownByPayer(s, st, a))
  {
    DepositIff(c, s, st);
    RentIsOwn(c, s, st.op);
  }

  lemma PdaGrowsOnPayer(c: Chain, s: State, st: Step, s': State, a: Key)
    requires Sound(c) && Inv(c, s) && st.op.GrowPda? && Next(c, s, st) == Success(s') && a in s.ledgers
    ensures a in s'.ledgers && (s'.ledgers[a].live.capacity > s.ledgers[a].live.capacity ==> GrownByPayer(s, st, a))
  {
    GrowPdaIff(c, s, st);
  }

  lemma OpeningGrowsNone(c: Chain, s: State, st: Step, s': State, a: Key)
    requires Sound(c) && (st.op.OpenWallet? || st.op.OpenPda?) && Next(c, s, st) == Success(s') && a in s.ledgers
    ensures a in s'.ledgers && s'.ledgers[a] == s.ledgers[a]
  {
    if st.op.OpenWallet? {
      OpenWalletIff(c, s, st);
    } else {
      OpenPdaIff(c, s, st);
    }
  }

  /** Slots are added to a ledger on basenet only, and only when the one who pays its rent signs: its owner if
      it is a person's, and for a program's whoever signed as payer when it was opened. */
  lemma OnlyTheRentPayerGrows(c: Chain, s: State, st: Step, s': State, a: Key)
    requires Sound(c) && Inv(c, s) && Next(c, s, st) == Success(s') && a in s.ledgers && a in s'.ledgers
    requires s'.ledgers[a].live.capacity > s.ledgers[a].live.capacity
    ensures GrownByPayer(s, st, a)
  {
    if st.op.Deposit? {
      DepositGrowsOwn(c, s, st, s', a);
    } else if st.op.GrowPda? {
      PdaGrowsOnPayer(c, s, st, s', a);
    } else if st.op.OpenWallet? || st.op.OpenPda? {
      OpeningGrowsNone(c, s, st, s', a);
    } else {
      OthersKeepRoom(c, s, st, s', a);
    }
  }
}
