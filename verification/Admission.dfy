/** When the remaining instructions go through, and the one statement over all of them: in a reachable state
    each does what it is for exactly when its sender may ask for it. */
module Admission {
  import opened Base
  import opened Books
  import opened Chains
  import opened Consent
  import opened Invariant
  import opened Machine
  import opened Openings
  import opened Runs
  import opened Sessions
  import opened Settlements

  // ---- Taking value out ----

  /** The reserve of the token and an account of the owner's for it. */
  predicate PaysTo(c: Chain, s: State, op: Op)
    requires op.Withdraw?
  {
    op.mint != ZERO_KEY ==>
      && op.vaultToken == c.reserveAddress(op.mint, op.tokenProgram) && op.vaultToken in s.pools
      && op.ownerToken == TokenAccount(op.mint, op.owner, op.tokenProgram)
      && (op.tokenProgram == c.token2022 ==> op.mintGiven)
  }

  ghost predicate WithdrawalStands(c: Chain, s: State, st: Step)
    requires st.op.Withdraw?
  {
    var op := st.op;
    && st.venue.Basenet? && op.owner in st.signers && !c.isPda(op.owner) && c.IsTokenProgram(op.tokenProgram)
    && op.ledger == c.ledgerPda(op.owner) && op.ledger in s.ledgers && s.ledgers[op.ledger].place.Home?
    && op.vault == c.vault && PaysTo(c, s, op) && op.delivered
    && op.mint in s.ledgers[op.ledger].live.claims && op.amount <= s.ledgers[op.ledger].live.claims[op.mint]
  }

  /** A withdrawal goes through if and only if a person signs for what their ledger, at home, holds, and names
      the reserve and an account of theirs: no reserve is ever too low. */
  lemma WithdrawIff(c: Chain, s: State, st: Step)
    requires Sound(c) && Inv(c, s) && st.op.Withdraw? && !Blocked(s, st)
    ensures Next(c, s, st).Success? <==> WithdrawalStands(c, s, st)
  {
    if st.op.ledger in s.ledgers {
      ClaimsAreBacked(c, s, st.op.ledger, st.op.mint);
    }
    NextWithdrawIff(c, s, st);
    IsWithdraw(c, s, st);
  }

  lemma IsWithdraw(c: Chain, s: State, st: Step)
    requires st.op.Withdraw? && !Blocked(s, st)
    ensures Next(c, s, st) == NextWithdraw(c, s, st)
  {
  }

  lemma NextWithdrawIff(c: Chain, s: State, st: Step)
    requires LedgersOk(c, s.ledgers) && PoolsOk(c, s.pools) && ReservesApart(c) && Apart(c) && st.op.Withdraw?
    requires st.op.ledger in s.ledgers ==>
               Balance(s.ledgers[st.op.ledger].live, st.op.mint) <= Backing(c, s.pools, s.lamports, st.op.mint)
    ensures NextWithdraw(c, s, st).Success? <==> WithdrawalStands(c, s, st)
  {
    if st.op.ledger in s.ledgers {
      assert LedgerOk(c, st.op.ledger, s.ledgers[st.op.ledger]);
      if st.op.amount <= Backing(c, s.pools, s.lamports, st.op.mint) {
        PaysOutIff(c, s, st.op);
      }
    }
  }

  lemma PaysOutIff(c: Chain, s: State, op: Op)
    requires PoolsOk(c, s.pools) && ReservesApart(c) && op.Withdraw?
    requires op.amount <= Backing(c, s.pools, s.lamports, op.mint)
    ensures PayOut(c, s, op).Success? <==> PaysTo(c, s, op) && op.delivered
  {
  }

  ghost predicate ClosureStands(c: Chain, s: State, st: Step)
    requires st.op.Close?
  {
    var op := st.op;
    && st.venue.Basenet? && op.owner in st.signers && op.rentPayer in st.signers && c.IsTokenProgram(op.tokenProgram)
    && op.ledger == c.ledgerPda(op.owner) && op.ledger in s.ledgers && s.ledgers[op.ledger].place.Home?
    && op.rentPayer == s.ledgers[op.ledger].live.rentPayer && op.vault == c.vault
    && (c.isPda(op.owner) || op.session == c.sessionPda(op.owner))
    && (Balance(s.ledgers[op.ledger].live, ZERO_KEY) > 0 ==> op.delivered)
    && op.sweep.None?
  }

  /** A close goes through if and only if the owner and the rent payer sign for a ledger at home, a person's
      with the owner's store, and the account list pays out every token (`CashOut.CloseSucceedsIff` tells which
      lists do). */
  lemma CloseIff(c: Chain, s: State, st: Step)
    requires Sound(c) && Inv(c, s) && st.op.Close? && !Blocked(s, st)
    ensures Next(c, s, st).Success? <==> ClosureStands(c, s, st)
  {
    if st.op.ledger in s.ledgers {
      ClaimsAreCovered(c, s, st.op.ledger);
    }
    NextCloseIff(c, s, st);
    IsClose(c, s, st);
  }

  lemma IsClose(c: Chain, s: State, st: Step)
    requires st.op.Close? && !Blocked(s, st)
    ensures Next(c, s, st) == NextClose(c, s, st)
  {
  }

  lemma NextCloseIff(c: Chain, s: State, st: Step)
    requires LedgersOk(c, s.ledgers) && Apart(c) && st.op.Close?
    requires st.op.ledger in s.ledgers ==>
               && PoolsCover(c, s.pools, s.ledgers[st.op.ledger].live)
               && Balance(s.ledgers[st.op.ledger].live, ZERO_KEY) <= Spendable(c, s.lamports)
    ensures NextClose(c, s, st).Success? <==> ClosureStands(c, s, st)
  {
    if st.op.ledger in s.ledgers {
      assert LedgerOk(c, st.op.ledger, s.ledgers[st.op.ledger]);
    }
  }

  // ---- Granting and revoking ----

  /** What a grant adds to the store's rent is there already: it adds no program, or the account was sent as
      many lamports before. */
  predicate RentIsThere(c: Chain, s: State, op: Op)
    requires op.Authorize?
  {
    if op.session in s.sessions then
      var a := s.sessions[op.session];
      op.program in a.store.programs || c.rent(Space(|a.store.programs| + 1)) <= a.lamports
    else c.rent(Space(1)) <= op.prefunded
  }

  ghost predicate GrantStands(c: Chain, s: State, st: Step)
    requires st.op.Authorize?
  {
    var op := st.op;
    && st.venue.Basenet? && op.owner in st.signers && !c.isPda(op.owner)
    && op.key != ZERO_KEY && !c.isPda(op.key)
    && op.session == c.sessionPda(op.owner)
    && (op.expiresAt == 0 || ClockOf(s, st.venue).unix < op.expiresAt)
    && (RentIsThere(c, s, op) || op.funded)
  }

  /** Owner and size are as the store's program count says. */
  ghost predicate OwnStore(c: Chain, s: State, session: Key, owner: Key) {
    session == c.sessionPda(owner) && session in s.sessions ==> s.sessions[session].store.owner == owner
  }

  lemma StoreIsOwn(c: Chain, s: State, session: Key, owner: Key)
    requires Sound(c) && SessionsOk(c, s.sessions)
    ensures OwnStore(c, s, session, owner)
  {
    if session in s.sessions {
      assert SessionOk(c, session, s.sessions[session]);
    }
  }

  lemma AuthorizedIff(c: Chain, a: SessionAccount<Store>, program: Key, key: Key, expiresAt: i64, funded: bool)
    ensures Authorized(c, a, program, key, expiresAt, funded).Success? <==>
              program in a.store.programs || c.rent(Space(|a.store.programs| + 1)) <= a.lamports || funded
  {
    if program !in a.store.programs {
      var g := GrantKey(ProgramGrants(a.store, program), key, expiresAt);
      assert a.store.programs[program := g].Keys == a.store.programs.Keys + {program};
      assert |a.store.programs[program := g]| == |a.store.programs| + 1;
    }
  }

  lemma NextAuthorizeIff(c: Chain, s: State, st: Step)
    requires st.op.Authorize? && OwnStore(c, s, st.op.session, st.op.owner)
    requires c.rent(Space(0)) <= c.rent(Space(1))
    ensures NextAuthorize(c, s, st).Success? <==> GrantStands(c, s, st)
  {
    AuthorizeStepsIff(c, s, st);
  }

  lemma AuthorizeStepsIff(c: Chain, s: State, st: Step)
    requires st.op.Authorize? && OwnStore(c, s, st.op.session, st.op.owner)
    requires c.rent(Space(0)) <= c.rent(Space(1))
    ensures AuthorizeSteps(c, s, st).Success? <==>
              && st.op.session == c.sessionPda(st.op.owner)
              && (st.op.expiresAt == 0 || ClockOf(s, st.venue).unix < st.op.expiresAt)
              && (RentIsThere(c, s, st.op) || st.op.funded)
  {
    var op := st.op;
    if op.session in s.sessions {
      AuthorizedIff(c, s.sessions[op.session], op.program, op.key, op.expiresAt, op.funded);
    } else {
      AuthorizedIff(c, FreshSession(c, op.owner, op.prefunded), op.program, op.key, op.expiresAt, op.funded);
    }
  }

  lemma IsAuthorize(c: Chain, s: State, st: Step)
    requires (st.op.Authorize? || st.op.Revoke?) && !Blocked(s, st)
    ensures st.op.Authorize? ==> Next(c, s, st) == NextAuthorize(c, s, st)
    ensures st.op.Revoke? ==> Next(c, s, st) == NextRevoke(c, s, st)
  {
  }

  /** A grant goes through if and only if a wallet signs it, on basenet, for a key that is one, for good or until
      a time still to come, and the rent it adds is there or can be paid. From then on the key is honoured for
      that program, on whichever clock, until that time. */
  lemma AuthorizeIff(c: Chain, s: State, st: Step)
    requires Sound(c) && Inv(c, s) && st.op.Authorize? && !Blocked(s, st)
    ensures Next(c, s, st).Success? <==> GrantStands(c, s, st)
    ensures Next(c, s, st).Success? ==>
              forall now: i64 :: st.op.expiresAt == 0 || now < st.op.expiresAt ==>
                GrantsAllow(GrantsAt(Next(c, s, st).value, c.sessionPda(st.op.owner), st.op.program), st.op.key, now)
  {
    StoreIsOwn(c, s, st.op.session, st.op.owner);
    NextAuthorizeIff(c, s, st);
    IsAuthorize(c, s, st);
    if NextAuthorize(c, s, st).Success? {
      GrantIsHonoured(c, s, st);
    }
  }

  lemma GrantIsHonoured(c: Chain, s: State, st: Step)
    requires st.op.Authorize? && NextAuthorize(c, s, st).Success? && st.op.key != ZERO_KEY
    ensures forall now: i64 :: st.op.expiresAt == 0 || now < st.op.expiresAt ==>
              GrantsAllow(GrantsAt(NextAuthorize(c, s, st).value, c.sessionPda(st.op.owner), st.op.program),
                          st.op.key, now)
  {
    AuthorizeGrants(c, s, st, c.sessionPda(st.op.owner), st.op.program);
    var g := GrantsAt(s, c.sessionPda(st.op.owner), st.op.program);
    forall now: i64 | st.op.expiresAt == 0 || now < st.op.expiresAt
      ensures GrantsAllow(GrantKey(g, st.op.key, st.op.expiresAt), st.op.key, now)
    {
      GrantThenRevoke(g, st.op.key, st.op.expiresAt, now);
    }
  }

  ghost predicate RevocationStands(c: Chain, s: State, st: Step)
    requires st.op.Revoke?
  {
    st.venue.Basenet? && st.op.owner in st.signers && st.op.session == c.sessionPda(st.op.owner)
    && st.op.session in s.sessions
  }

  /** A revocation goes through if and only if the owner of the store signs it, on basenet. From then on the key
      it names, or every key if it names none, is refused for that program whatever the time. */
  lemma RevokeIff(c: Chain, s: State, st: Step)
    requires Sound(c) && Inv(c, s) && st.op.Revoke? && !Blocked(s, st)
    ensures Next(c, s, st).Success? <==> RevocationStands(c, s, st)
    ensures Next(c, s, st).Success? ==>
              forall key, now: i64 :: key != ZERO_KEY && (st.op.key == ZERO_KEY || st.op.key == key) ==>
                !GrantsAllow(GrantsAt(Next(c, s, st).value, st.op.session, st.op.program), key, now)
  {
    StoreIsOwn(c, s, st.op.session, st.op.owner);
    IsAuthorize(c, s, st);
    NextRevokeIff(c, s, st);
    if NextRevoke(c, s, st).Success? {
      RevokedIsRefused(c, s, st);
    }
  }

  lemma NextRevokeIff(c: Chain, s: State, st: Step)
    requires st.op.Revoke? && OwnStore(c, s, st.op.session, st.op.owner)
    ensures NextRevoke(c, s, st).Success? <==> RevocationStands(c, s, st)
  {
  }

  lemma RevokedIsRefused(c: Chain, s: State, st: Step)
    requires st.op.Revoke? && NextRevoke(c, s, st).Success?
    ensures forall key, now: i64 :: key != ZERO_KEY && (st.op.key == ZERO_KEY || st.op.key == key) ==>
              !GrantsAllow(GrantsAt(NextRevoke(c, s, st).value, st.op.session, st.op.program), key, now)
  {
    RevokeForgets(c, s, st, st.op.session, st.op.program);
    var g := GrantsAt(s, st.op.session, st.op.program);
    forall key, now: i64 | key != ZERO_KEY && (st.op.key == ZERO_KEY || st.op.key == key)
      ensures !GrantsAllow(GrantsAt(NextRevoke(c, s, st).value, st.op.session, st.op.program), key, now)
    {
      GrantThenRevoke(g, key, 0, now);
    }
  }

  // ---- Sending away and bringing home ----

  ghost predicate DelegationStands(c: Chain, s: State, st: Step)
    requires st.op.Delegate?
  {
    var op := st.op;
    st.venue.Basenet? && op.payer in st.signers && op.owner in st.signers && op.ledger == c.ledgerPda(op.owner)
    && op.ledger in s.ledgers && s.ledgers[op.ledger].place.Home?
  }

  /** A ledger goes to the rollup its owner names, and leaves its copy behind, if and only if they sign and it is
      at home. */
  lemma DelegateIff(c: Chain, s: State, st: Step)
    requires st.op.Delegate? && !Blocked(s, st)
    ensures Next(c, s, st).Success? <==> DelegationStands(c, s, st)
    ensures Next(c, s, st).Success? ==>
              var k := st.op.ledger;
              k in s.ledgers && Next(c, s, st).value == s.(ledgers := s.ledgers[k :=
                  Acct(s.ledgers[k].live, Away(st.op.validator, s.ledgers[k].live))])
  {
  }

  ghost predicate ReturnStands(s: State, st: Step)
    requires st.op.Undelegate?
  {
    st.op.payer in st.signers && st.op.ledger in s.ledgers && s.ledgers[st.op.ledger].place.Away?
    && st.venue == Rollup(s.ledgers[st.op.ledger].place.validator)
  }

  /** Anyone sends a ledger home from the rollup it lives on, and from nowhere else. */
  lemma UndelegateIff(c: Chain, s: State, st: Step)
    requires LedgersOk(c, s.ledgers) && st.op.Undelegate? && !Blocked(s, st)
    ensures Next(c, s, st).Success? <==> ReturnStands(s, st)
    ensures Next(c, s, st).Success? ==>
              var k := st.op.ledger;
              k in s.ledgers && s.ledgers[k].place.Away? && Next(c, s, st).value == s.(ledgers := s.ledgers[k :=
                  Acct(s.ledgers[k].live, Returning(s.ledgers[k].place.validator, s.ledgers[k].place.base))])
  {
    if st.op.ledger in s.ledgers {
      assert LedgerOk(c, st.op.ledger, s.ledgers[st.op.ledger]);
    }
  }

  ghost predicate ArrivalStands(s: State, st: Step)
    requires st.op.FinishUndelegation?
  {
    st.venue.Basenet? && st.op.ledger in s.ledgers && s.ledgers[st.op.ledger].place.Returning?
  }

  ghost predicate FundingStands(c: Chain, s: State, st: Step)
    requires st.op.InitializeVault?
  {
    && st.op.payer in st.signers && st.op.vault == c.vault
    && (s.lamports < c.Floor() ==> st.op.funded && st.venue.Basenet? && c.Floor() <= MAX_U64)
  }

  lemma FinishIff(c: Chain, s: State, st: Step)
    requires st.op.FinishUndelegation? && !Blocked(s, st)
    ensures Next(c, s, st).Success? <==> ArrivalStands(s, st)
  {
  }

  lemma InitializeIff(c: Chain, s: State, st: Step)
    requires st.op.InitializeVault? && !Blocked(s, st)
    ensures Next(c, s, st).Success? <==> FundingStands(c, s, st)
  {
  }

  // ---- All of them ----

  predicate IsInstruction(op: Op) {
    !op.Tick? && !op.Donate? && !op.CreateReserve?
  }

  /** What each instruction takes, in terms of the state alone. */
  ghost predicate Admissible(c: Chain, s: State, st: Step)
    requires IsInstruction(st.op)
  {
    match st.op
    case InitializeVault(_, _, _) => FundingStands(c, s, st)
    case OpenWallet(_, _, _, _, _, _) => WalletOpens(c, s, st)
    case OpenPda(_, _, _, _, _, _, _) => PdaOpens(c, s, st)
    case GrowPda(_, _, _, _, _, _) => PdaGrows(c, s, st)
    case Deposit(_, _, _, _, _, _, _, _, _, _, _, _, _, _) => DepositStands(c, s, st)
    case Withdraw(_, _, _, _, _, _, _, _, _, _) => WithdrawalStands(c, s, st)
    case Settle(_, _, _, _, _, _, _) =>
      PaymentStands(c, s, st) && ReceiverAgrees(c, s, st, KeyOfReceiver(c, s, st))
    case CreateReceipt(_, _, _, _, _, _, _, _, _, _, _) => WellDrawn(c, s, st) && NoneOfThisSlot(s, st)
    case SettleBegin(_, _, _, _, _, _, _) =>
      ReadyToSettle(c, s, st) && Agreed(c, s, st.venue, TermsAt(s, st), st.op.remaining)
    case SettleEnd => s.settling != [] && Ends(c, s, s.settling[|s.settling| - 1])
    case Reap(_, _, _) => ReapStands(c, s, st)
    case Authorize(_, _, _, _, _, _, _) => GrantStands(c, s, st)
    case Revoke(_, _, _, _) => RevocationStands(c, s, st)
    case Delegate(_, _, _, _) => DelegationStands(c, s, st)
    case Undelegate(_, _) => ReturnStands(s, st)
    case FinishUndelegation(_) => ArrivalStands(s, st)
    case Close(_, _, _, _, _, _, _, _) => ClosureStands(c, s, st)
  }

  lemma OpeningsIff(c: Chain, s: State, st: Step)
    requires Sound(c) && Inv(c, s) && OpensOrGrows(st.op) && !Blocked(s, st)
    ensures Next(c, s, st).Success? <==> Admissible(c, s, st)
  {
    match st.op {
      case OpenWallet(_, _, _, _, _, _) => OpenWalletIff(c, s, st);
      case OpenPda(_, _, _, _, _, _, _) => OpenPdaIff(c, s, st);
      case GrowPda(_, _, _, _, _, _) => GrowPdaIff(c, s, st);
      case Deposit(_, _, _, _, _, _, _, _, _, _, _, _, _, _) => DepositIff(c, s, st);
    }
  }

  predicate Travels(op: Op) {
    op.Delegate? || op.Undelegate? || op.FinishUndelegation?
  }

  lemma TravelIff(c: Chain, s: State, st: Step)
    requires LedgersOk(c, s.ledgers) && Travels(st.op) && !Blocked(s, st)
    ensures Next(c, s, st).Success? <==> Admissible(c, s, st)
  {
    if st.op.Delegate? {
      DelegateIff(c, s, st);
    } else if st.op.Undelegate? {
      UndelegateIff(c, s, st);
    } else {
      FinishIff(c, s, st);
    }
  }

  lemma WithdrawalIff(c: Chain, s: State, st: Step)
    requires Sound(c) && Inv(c, s) && st.op.Withdraw? && !Blocked(s, st)
    ensures Next(c, s, st).Success? <==> Admissible(c, s, st)
  {
    WithdrawIff(c, s, st);
  }

  lemma ClosureIff(c: Chain, s: State, st: Step)
    requires Sound(c) && Inv(c, s) && st.op.Close? && !Blocked(s, st)
    ensures Next(c, s, st).Success? <==> Admissible(c, s, st)
  {
    CloseIff(c, s, st);
    ClosureIsAdmissible(c, s, st);
  }

  lemma ClosureIsAdmissible(c: Chain, s: State, st: Step)
    requires st.op.Close?
    ensures Admissible(c, s, st) <==> ClosureStands(c, s, st)
  {
  }

  lemma OtherwiseIff(c: Chain, s: State, st: Step)
    requires Sound(c) && Inv(c, s) && IsInstruction(st.op) && !Blocked(s, st)
    requires !OpensOrGrows(st.op) && !Travels(st.op) && !st.op.Withdraw? && !st.op.Close?
    ensures Next(c, s, st).Success? <==> Admissible(c, s, st)
  {
    match st.op {
      case InitializeVault(_, _, _) => InitializeIff(c, s, st);
      case Settle(_, _, _, _, _, _, _) => SettleIff(c, s, st);
      case CreateReceipt(_, _, _, _, _, _, _, _, _, _, _) => CreateIff(c, s, st);
      case SettleBegin(_, _, _, _, _, _, _) => BeginIff(c, s, st);
      case SettleEnd => EndIff(c, s, st);
      case Reap(_, _, _) => ReapIff(c, s, st);
      case Authorize(_, _, _, _, _, _, _) => AuthorizeIff(c, s, st);
      case Revoke(_, _, _, _) => RevokeIff(c, s, st);
    }
  }

  /** No settlement is under way, or the instruction runs where the innermost one's callback does. */
  predicate InTurn(s: State, v: Venue) {
    s.settling == [] || v == s.settling[|s.settling| - 1].at.venue
  }

  /** In every reachable state every instruction, from any sender with any accounts, goes through if and only if
      no other transaction is in the way and it is admissible: inside a callback as outside. */
  lemma NextIff(c: Chain, s: State, st: Step)
    requires Sound(c) && Inv(c, s) && IsInstruction(st.op)
    ensures Next(c, s, st).Success? <==> InTurn(s, st.venue) && Admissible(c, s, st)
  {
    if !Blocked(s, st) {
      if OpensOrGrows(st.op) {
        OpeningsIff(c, s, st);
      } else if Travels(st.op) {
        TravelIff(c, s, st);
      } else if st.op.Withdraw? {
        WithdrawalIff(c, s, st);
      } else if st.op.Close? {
        ClosureIff(c, s, st);
      } else {
        OtherwiseIff(c, s, st);
      }
    }
  }
}
