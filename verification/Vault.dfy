/** The program's instructions as they run: each handler loads the accounts it is given, changes them
    step by step and stores them back. Every handler is proved to compute exactly the step of the
    machine it stands for, with the same error when it fails. What a failed handler has already
    written is undone by the runtime, which `Transact` plays. */
module VaultObject {
  import opened Accounts
  import opened Assembly
  import opened Base
  import opened Books
  import opened Calls
  import opened Chains
  import opened Invariant
  import opened LedgerObject
  import opened Machine
  import opened Receipts
  import opened ReceiptLoop
  import opened Runs
  import opened SessionObject
  import opened Sessions
  import opened SessionTable
  import opened SlotTable
  import opened Sweeps
  import opened Totals

  class Vault {
    const c: Chain
    var ledgers: map<Key, Acct<LedgerAccount>>
    var sessions: map<Key, SessionAccount<SessionData>>
    var pools: map<Key, Pool>
    var lamports: u64
    var receipts: map<At, ReceiptAccount>
    var settling: seq<Settlement>
    var clocks: map<Venue, Clock>

    ghost predicate Valid()
      reads this
    {
      LedgersWf(ledgers) && SessionsWf(sessions) && PoolsOk(c, pools)
    }

    /** The state of the machine the accounts stand for. */
    ghost function Abs(): State
      reads this
      requires Valid()
    {
      State(AbsLedgers(ledgers), AbsSessions(sessions), pools, lamports, receipts, settling, clocks)
    }

    /** The handler did what the machine's step does: the same error, or the same state after. */
    ghost predicate Does(r: Result<()>, step: Result<State>)
      reads this
    {
      match step
      case Failure(e) => r == Failure(e)
      case Success(s) => r == Success(()) && Valid() && Abs() == s
    }

    constructor (c: Chain)
      ensures this.c == c && Valid() && Genesis(c, Abs())
    {
      this.c := c;
      ledgers, sessions, pools, lamports := map[], map[], map[], 0;
      receipts, settling, clocks := map[], [], map[];
    }

    function ClockAt(v: Venue): Clock
      reads this
    {
      if v in clocks then clocks[v] else Clock(0, 0)
    }

    // ---- Loading and storing ----

    /** `Ledger::load_checked`. */
    method LoadLedger(v: Venue, addr: Key) returns (r: Result<Ledger>)
      requires Valid()
      ensures match LoadChecked(c, Abs(), v, addr)
              case Failure(e) => r == Failure(e)
              case Success(b) =>
                && r.Success? && fresh(r.value) && r.value.Data() == ledgers[addr].live.data
                && TableOk(r.value.Data()) && BookOf(r.value.Data()) == b
    {
      if addr !in ledgers {
        return Failure(if addr in sessions || At(v, addr) in receipts then InvalidAccountData else BadLedgerOwner);
      }
      if !Here(ledgers[addr], v) {
        return Failure(NotHere(v, BadLedgerOwner));
      }
      var l := new Ledger.Load(ledgers[addr].live.data);
      if c.ledgerPda(l.owner) != addr {
        return Failure(BadLedgerOwner);
      }
      return Success(l);
    }

    /** `Ledger::store`: the account must be large enough for what is written. */
    method StoreLedger(addr: Key, l: Ledger) returns (r: Result<()>)
      requires Valid() && addr in ledgers && TableOk(l.Data())
      requires |l.entries| == |ledgers[addr].live.data.entries|
      modifies this`ledgers
      ensures r == Success(()) && Valid()
      ensures ledgers == old(ledgers)[addr
                := old(ledgers)[addr].(live := LedgerAccount(l.Data(), old(ledgers)[addr].live.size))]
      ensures AbsLedgers(ledgers)
                == old(AbsLedgers(ledgers))[addr := old(AbsLedgers(ledgers))[addr].(live := BookOf(l.Data()))]
    {
      if ledgers[addr].live.size < LedgerSpace(|l.entries|) {
        return Failure(AccountDataTooSmall);
      }
      var a := ledgers[addr].(live := LedgerAccount(l.Data(), ledgers[addr].live.size));
      AbsLedgersUpdate(ledgers, addr, a);
      ledgers := ledgers[addr := a];
      return Success(());
    }

    // ---- Session stores ----

    /** `keys_of` and `may_consent`. */
    method MayConsent(v: Venue, session: Key, owner: Key, consenter: Key, program: Key) returns (r: Result<bool>)
      requires Valid()
      ensures r == Machine.MayConsent(c, Abs(), v, session, owner, consenter, program)
    {
      if consenter == owner {
        return Success(true);
      }
      if session != c.sessionPda(owner) {
        return Failure(InvalidSeeds);
      }
      if session !in sessions {
        return Success(false);
      }
      assert StoreWf(sessions[session]);
      var s := new Session.Load(sessions[session].store);
      var ok := s.Allows(consenter, program, ClockAt(v).unix);
      AllowsIsRefined(sessions[session].store, consenter, program, ClockAt(v).unix);
      return Success(ok);
    }

    /** `create_session_account`, for a store that is not there yet. */
    method EnsureSession(owner: Key, session: Key, prefunded: nat, funded: bool, ghost s: State) returns (r: Result<()>)
      requires Valid() && s.sessions == AbsSessions(sessions)
      modifies this`sessions
      ensures match WithSession(c, s, owner, session, prefunded, funded)
              case Failure(e) => r == Failure(e)
              case Success(s') => r == Success(()) && Valid() && s' == s.(sessions := AbsSessions(sessions))
    {
      if session != c.sessionPda(owner) {
        return Failure(InvalidSeeds);
      }
      if session in sessions {
        return Success(());
      }
      var have := prefunded;
      var rent := c.rent(Space(0));
      if have < rent {
        if !funded {
          return Failure(CpiFailed);
        }
        have := have + (rent - have);
      }
      var store := new Session(owner, c.bump(session));
      var a := SessionAccount(store.Data(), Space(0), have);
      AbsSessionsUpdate(sessions, session, a);
      sessions := sessions[session := a];
      return Success(());
    }

    method LoadSession(session: Key, owner: Key) returns (r: Result<Session>)
      requires Valid()
      ensures match Machine.LoadSession(c, Abs(), session, owner)
              case Failure(e) => r == Failure(e)
              case Success(a) =>
                && r.Success? && fresh(r.value) && r.value.Valid() && session in sessions
                && r.value.Data() == sessions[session].store && a == AbsStore(sessions[session])
    {
      if session != c.sessionPda(owner) {
        return Failure(InvalidSeeds);
      }
      if session !in sessions {
        return Failure(IllegalOwner);
      }
      assert StoreWf(sessions[session]);
      var s := new Session.Load(sessions[session].store);
      if s.owner != owner {
        return Failure(BadLedgerOwner);
      }
      return Success(s);
    }

    /** `Session::write_to` into the resized account. */
    method StoreSession(session: Key, s: Session, size: nat, lamports: nat) returns (r: Result<()>)
      requires Valid() && EntriesOk(s.entries)
      modifies this`sessions
      ensures size < Space(|s.entries|) ==> r == Failure(AccountDataTooSmall)
      ensures size == Space(|s.entries|) ==>
                && r == Success(()) && Valid()
                && AbsSessions(sessions)
                    == old(AbsSessions(sessions))[session := AbsStore(SessionAccount(s.Data(), size, lamports))]
    {
      if size < Space(|s.entries|) {
        return Failure(AccountDataTooSmall);
      }
      var a := SessionAccount(s.Data(), size, lamports);
      if size == Space(|s.entries|) {
        AbsSessionsUpdate(sessions, session, a);
      }
      sessions := sessions[session := a];
      return Success(());
    }

    method Authorize(st: Step) returns (r: Result<()>)
      requires Valid() && st.op.Authorize?
      modifies this`sessions
      ensures Does(r, NextAuthorize(c, old(Abs()), st))
    {
      var op := st.op;
      if !st.venue.Basenet? {
        return Failure(NotWritable);
      }
      if op.owner !in st.signers {
        return Failure(MissingRequiredSignature);
      }
      if op.key == ZERO_KEY || c.isPda(op.key) {
        return Failure(BadAuthorizedKey);
      }
      if c.isPda(op.owner) {
        return Failure(OwnerNotWallet);
      }
      r := AuthorizeStored(st);
    }

    method AuthorizeStored(st: Step) returns (r: Result<()>)
      requires Valid() && st.op.Authorize? && st.op.key != ZERO_KEY && !c.isPda(st.op.owner)
      modifies this`sessions
      ensures Does(r, AuthorizeSteps(c, old(Abs()), st))
    {
      var op := st.op;
      if op.session !in sessions {
        r := EnsureSession(op.owner, op.session, op.prefunded, op.funded, Abs());
        if r.Failure? {
          return;
        }
      }
      var loaded := LoadSession(op.session, op.owner);
      if loaded.Failure? {
        return Failure(loaded.error);
      }
      if op.expiresAt != 0 && op.expiresAt <= ClockAt(st.venue).unix {
        return Failure(BadExpiry);
      }
      r := GrantAndStore(op.session, loaded.value, op.program, op.key, op.expiresAt, op.funded);
    }

    /** The second half of `authorize`: grant, pay for the growth, write back. */
    method GrantAndStore(session: Key, s: Session, program: Key, key: Key, expiresAt: i64,
        funded: bool) returns (r: Result<()>)
      requires Valid() && session in sessions && s.Valid() && s.Data() == sessions[session].store && key != ZERO_KEY
      modifies this`sessions, s`entries
      ensures match Authorized(c, old(AbsStore(sessions[session])), program, key, expiresAt, funded)
              case Failure(e) => r == Failure(e)
              case Success(a) =>
                r == Success(()) && Valid() && AbsSessions(sessions) == old(AbsSessions(sessions))[session := a]
    {
      assert StoreWf(sessions[session]);
      GrantInRefines(s.entries, program, key, expiresAt);
      InIffFound(s.entries, program);
      var size, have := sessions[session].size, sessions[session].lamports;
      var added := s.Grant(program, key, expiresAt);
      ProgramsCount(s.entries, |s.entries|);
      if added {
        size := Space(|s.entries|);
        var needed := c.rent(size);
        if needed > have {
          if !funded {
            return Failure(CpiFailed);
          }
          have := have + (needed - have);
        }
      }
      r := StoreSession(session, s, size, have);
    }

    method Revoke(st: Step) returns (r: Result<()>)
      requires Valid() && st.op.Revoke?
      modifies this`sessions
      ensures Does(r, NextRevoke(c, old(Abs()), st))
    {
      var op := st.op;
      if !st.venue.Basenet? {
        return Failure(NotWritable);
      }
      if op.owner !in st.signers {
        return Failure(MissingRequiredSignature);
      }
      r := LoadAndRevoke(st);
    }

    method LoadAndRevoke(st: Step) returns (r: Result<()>)
      requires Valid() && st.op.Revoke?
      modifies this`sessions
      ensures Does(r, RevokeStored(c, old(Abs()), st))
    {
      RevokeStoredIs(c, Abs(), st);
      var loaded := LoadSession(st.op.session, st.op.owner);
      if loaded.Failure? {
        return Failure(loaded.error);
      }
      r := RevokeAndStore(st.op.session, loaded.value, st.op.program, st.op.key);
    }

    /** The second half of `revoke`: forget the key, or drop the program and refund, and write back. */
    method RevokeAndStore(session: Key, s: Session, program: Key, key: Key) returns (r: Result<()>)
      requires Valid() && session in sessions && s.Valid() && s.Data() == sessions[session].store
      modifies this`sessions, s`entries
      ensures r == Success(()) && Valid()
      ensures Abs() == old(Abs()).(sessions
                := old(Abs()).sessions[session := Revoked(c, old(AbsStore(sessions[session])), program, key)])
    {
      var was := sessions[session];
      assert StoreWf(was);
      var size, have := was.size, was.lamports;
      if key == ZERO_KEY {
        var dropped := s.DropEntry(program);
        if dropped {
          size := Space(|s.entries|);
          var keep := c.rent(size);
          var refund := if have < keep then 0 else have - keep;
          have := have - refund;
        }
      } else {
        s.Revoke(program, key);
      }
      RevokedIs(c, was, program, key, SessionAccount(s.Data(), size, have));
      r := StoreSession(session, s, size, have);
    }

    // ---- Opening and growing ledgers ----

    method InitializeVault(st: Step) returns (r: Result<()>)
      requires Valid() && st.op.InitializeVault?
      modifies this`lamports
      ensures Does(r, NextInitializeVault(c, old(Abs()), st))
    {
      var op := st.op;
      if op.payer !in st.signers {
        return Failure(MissingRequiredSignature);
      }
      if op.vault != c.vault {
        return Failure(InvalidSeeds);
      }
      var floor := c.Floor();
      if lamports >= floor {
        return Success(());
      }
      if !op.funded || !st.venue.Basenet? || floor > MAX_U64 {
        return Failure(CpiFailed);
      }
      lamports := lamports + (floor - lamports);
      return Success(());
    }

    function NewData(addr: Key, payer: Key, owner: Key, slots: nat): LedgerData {
      LedgerData(owner, c.isPda(owner), c.bump(addr), payer, ZERO_KEY, FreshTable(slots))
    }

    /** `create_ledger_account_sized`: rent may come from another key only for a program's ledger. */
    method NewLedger(addr: Key, payer: Key, owner: Key, slots: nat, funded: bool, v: Venue) returns (r: Result<Ledger>)
      ensures if !c.isPda(owner) && payer != owner then r == Failure(MustFundOwnLedger)
              else if !funded || !v.Basenet? then r == Failure(CpiFailed)
              else r.Success? && fresh(r.value) && r.value.Data() == NewData(addr, payer, owner, slots)
    {
      var rentPayer := owner;
      if c.isPda(owner) {
        rentPayer := payer;
      } else if payer != owner {
        return Failure(MustFundOwnLedger);
      }
      if !funded || !v.Basenet? {
        return Failure(CpiFailed);
      }
      var l := new Ledger(owner, c.isPda(owner), c.bump(addr), rentPayer, slots);
      return Success(l);
    }

    /** The first store of a new ledger, into an account of its size. */
    method CreateLedger(addr: Key, l: Ledger, slots: nat)
      requires Valid() && slots > 0 && l.entries == FreshTable(slots)
      modifies this`ledgers
      ensures Valid() && ledgers == old(ledgers)[addr := Acct(LedgerAccount(l.Data(), LedgerSpace(slots)), Home)]
      ensures AbsLedgers(ledgers) ==
                old(AbsLedgers(ledgers))[addr
                    := Acct(NewBook(l.owner, l.pdaAuth, l.rentPayer, l.authorized, slots), Home)]
    {
      FreshIsRefined(l.owner, l.pdaAuth, l.bump, l.rentPayer, l.authorized, slots);
      var a := Acct(LedgerAccount(l.Data(), LedgerSpace(slots)), Home);
      AbsLedgersUpdate(ledgers, addr, a);
      ledgers := ledgers[addr := a];
    }

    method OpenWallet(st: Step) returns (r: Result<()>)
      requires Valid() && st.op.OpenWallet?
      modifies this`ledgers, this`sessions
      ensures Does(r, NextOpenWallet(c, old(Abs()), st))
    {
      var op := st.op;
      if op.owner !in st.signers {
        return Failure(MissingRequiredSignature);
      }
      if c.isPda(op.owner) {
        return Failure(OwnerNotWallet);
      }
      if op.ledger != c.ledgerPda(op.owner) {
        return Failure(InvalidSeeds);
      }
      if op.ledger in ledgers {
        return Failure(LedgerExists);
      }
      if op.slots == 0 || op.slots > MAX_GROWTH {
        return Failure(BadSlotCount);
      }
      var l :- NewLedger(op.ledger, op.owner, op.owner, op.slots, op.funded, st.venue);
      CreateLedger(op.ledger, l, op.slots);
      r := EnsureSession(op.owner, op.session, op.prefunded, op.funded, Abs());
    }

    method OpenPda(st: Step) returns (r: Result<()>)
      requires Valid() && st.op.OpenPda?
      modifies this`ledgers
      ensures Does(r, NextOpenPda(c, old(Abs()), st))
    {
      var op := st.op;
      if op.owner !in st.signers || op.payer !in st.signers {
        return Failure(MissingRequiredSignature);
      }
      if c.derive(op.member, op.seeds) != Some(op.owner) {
        return Failure(MemberProgramMismatch);
      }
      if op.ledger != c.ledgerPda(op.owner) {
        return Failure(InvalidSeeds);
      }
      if op.ledger in ledgers {
        return Failure(LedgerExists);
      }
      if op.slots == 0 || op.slots > MAX_GROWTH {
        return Failure(BadSlotCount);
      }
      var l :- NewLedger(op.ledger, op.payer, op.owner, op.slots, op.funded, st.venue);
      l.authorized := op.member;
      CreateLedger(op.ledger, l, op.slots);
      return Success(());
    }

    /** `ensure_headroom` on a loaded ledger and its account, which grows with it. */
    method EnsureHeadroom(addr: Key, l: Ledger, v: Venue, payer: Key, minFree: nat, slotIncrease: nat,
        funded: bool) returns (r: Result<()>)
      requires Valid() && addr in ledgers && TableOk(l.Data())
      requires |l.entries| == |ledgers[addr].live.data.entries|
      modifies this`ledgers, l`entries
      ensures match Machine.EnsureHeadroom(old(BookOf(l.Data())), v, payer, minFree, slotIncrease, funded)
              case Failure(e) => r == Failure(e)
              case Success(b) =>
                && r == Success(()) && TableOk(l.Data()) && BookOf(l.Data()) == b
                && |l.entries| >= |old(l.entries)|
                && ledgers == old(ledgers)[addr
                    := old(ledgers)[addr].(live := old(ledgers)[addr].live.(size := LedgerSpace(|l.entries|)))]
    {
      assert PlacedOk(ledgers[addr]);
      GrowthIsRefined(l.Data(), slotIncrease);
      if payer != l.rentPayer {
        return Failure(NotRentPayer);
      }
      var free := l.FreeSlots();
      if free >= minFree {
        return Success(());
      }
      if !(slotIncrease > 0 && slotIncrease <= MAX_SLOT_INCREASE) {
        return Failure(BadSlotCount);
      }
      if !v.Basenet? {
        return Failure(NotWritable);
      }
      if !funded {
        return Failure(CpiFailed);
      }
      l.Grow(slotIncrease);
      ledgers := ledgers[addr := ledgers[addr].(live := ledgers[addr].live.(size := LedgerSpace(|l.entries|)))];
      return Success(());
    }

    /** Writing a ledger back into an account that was resized for it. */
    method StoreGrown(addr: Key, l: Ledger, ghost before: map<Key, Acct<LedgerAccount>>,
        ghost was: Acct<LedgerAccount>) returns (r: Result<()>)
      requires PoolsOk(c, pools) && SessionsWf(sessions) && LedgersWf(before) && PlacedOk(was) && TableOk(l.Data())
      requires ledgers == before[addr := was.(live := was.live.(size := LedgerSpace(|l.entries|)))]
      modifies this`ledgers
      ensures r == Success(()) && Valid()
      ensures AbsLedgers(ledgers) == AbsLedgers(before)[addr := AbsAcct(was).(live := BookOf(l.Data()))]
    {
      if ledgers[addr].live.size < LedgerSpace(|l.entries|) {
        return Failure(AccountDataTooSmall);
      }
      var a := ledgers[addr].(live := LedgerAccount(l.Data(), ledgers[addr].live.size));
      AbsLedgersUpdate(before, addr, a);
      ledgers := ledgers[addr := a];
      assert ledgers == before[addr := a];
      return Success(());
    }

    method GrowPda(st: Step) returns (r: Result<()>)
      requires Valid() && st.op.GrowPda?
      modifies this`ledgers
      ensures Does(r, NextGrowPda(c, old(Abs()), st))
    {
      var op := st.op;
      if op.owner !in st.signers || op.payer !in st.signers {
        return Failure(MissingRequiredSignature);
      }
      if !c.isPda(op.owner) {
        return Failure(OwnerNotPda);
      }
      if op.ledger != c.ledgerPda(op.owner) {
        return Failure(InvalidSeeds);
      }
      var loaded := LoadLedger(st.venue, op.ledger);
      if loaded.Failure? {
        return Failure(loaded.error);
      }
      var l := loaded.value;
      if l.owner != op.owner {
        return Failure(BadLedgerOwner);
      }
      r := GrowAndStore(st, l);
    }

    method GrowAndStore(st: Step, l: Ledger) returns (r: Result<()>)
      requires Valid() && st.op.GrowPda? && st.op.ledger in ledgers && l.Data() == ledgers[st.op.ledger].live.data
      modifies this`ledgers, l`entries
      ensures Does(r, GrowLedger(c, old(Abs()), st))
    {
      var op := st.op;
      ghost var before := ledgers;
      assert PlacedOk(ledgers[op.ledger]);
      GrowLedgerIs(c, Abs(), st);
      r := EnsureHeadroom(op.ledger, l, st.venue, op.payer, op.minFree, op.slotIncrease, op.funded);
      if r.Success? {
        r := StoreGrown(op.ledger, l, before, before[op.ledger]);
      }
    }

    // ---- Deposit and withdraw ----

    /** The transfer into the vault or the mint's pool. */
    method TransferIn(op: Op) returns (r: Result<()>)
      requires PoolsOk(c, pools) && op.Deposit?
      modifies this`pools, this`lamports
      ensures match TakeInto(c, old(pools), old(lamports), op)
              case Failure(e) => r == Failure(e)
              case Success(taken) => r == Success(()) && PoolsOk(c, pools) && taken == (pools, lamports)
    {
      if op.mint == ZERO_KEY {
        if lamports < c.Floor() {
          return Failure(VaultNotInitialized);
        }
        if !op.funded || lamports + op.amount > MAX_U64 {
          return Failure(CpiFailed);
        }
        lamports := lamports + op.amount;
        return Success(());
      }
      r := TakeTokens(op);
    }

    /** The token transfer into the mint's pool. */
    method TakeTokens(op: Op) returns (r: Result<()>)
      requires PoolsOk(c, pools) && op.Deposit? && op.mint != ZERO_KEY
      modifies this`pools
      ensures match TakeInto(c, old(pools), lamports, op)
              case Failure(e) => r == Failure(e)
              case Success(taken) => r == Success(()) && PoolsOk(c, pools) && taken == (pools, lamports)
    {
      var reserve :- RequireReserve(c, pools, op.vaultToken, op.mint, op.tokenProgram);
      if !c.IsTokenProgram(op.ownerToken.program) {
        return Failure(MintMismatch);
      }
      if op.ownerToken.mint != op.mint || op.ownerToken.program != op.tokenProgram {
        return Failure(MintMismatch);
      }
      if !op.mintGiven && op.tokenProgram == c.token2022 {
        return Failure(MintMismatch);
      }
      if !op.funded || reserve + op.amount > MAX_U64 {
        return Failure(CpiFailed);
      }
      PoolSet(c, pools, op.vaultToken, reserve + op.amount);
      pools := pools[op.vaultToken := Pool(op.mint, reserve + op.amount)];
      return Success(());
    }

    /** A deposit's ledger: the one there is, or a new one of the default size. */
    method OpenForDeposit(st: Step, ghost s: State) returns (r: Result<Ledger>)
      requires Valid() && st.op.Deposit? && st.venue.Basenet? && !c.isPda(st.op.owner) && s == Abs()
      modifies this`ledgers
      ensures match DepositBook(c, s, st)
              case Failure(e) => r == Failure(e)
              case Success(b) =>
                && r.Success? && fresh(r.value) && TableOk(r.value.Data()) && BookOf(r.value.Data()) == b
                && Valid() && st.op.ledger in ledgers && ledgers[st.op.ledger].place.Home?
                && |r.value.entries| == |ledgers[st.op.ledger].live.data.entries|
                && AbsLedgers(ledgers) == s.ledgers[st.op.ledger := AbsAcct(ledgers[st.op.ledger])]
    {
      var op := st.op;
      if op.ledger in ledgers {
        if !Here(ledgers[op.ledger], st.venue) {
          return Failure(BadLedgerOwner);
        }
        assert PlacedOk(ledgers[op.ledger]);
        var l := new Ledger.Load(ledgers[op.ledger].live.data);
        return Success(l);
      }
      var l :- NewLedger(op.ledger, op.owner, op.owner, DEFAULT_SLOTS, op.funded, st.venue);
      CreateLedger(op.ledger, l, DEFAULT_SLOTS);
      FreshIsRefined(op.owner, false, l.bump, op.owner, ZERO_KEY, DEFAULT_SLOTS);
      return Success(l);
    }

    /** Headroom, then the slot: what a deposit does to its ledger before any value moves. */
    method MakeRoom(l: Ledger, st: Step) returns (r: Result<nat>)
      requires Valid() && st.op.Deposit? && st.op.ledger in ledgers && TableOk(l.Data())
      requires |l.entries| == |ledgers[st.op.ledger].live.data.entries|
      modifies this`ledgers, l`entries
      ensures match RoomFor(old(BookOf(l.Data())), st)
              case Failure(e) => r == Failure(e)
              case Success(b) =>
                && r.Success? && TableOk(l.Data()) && BookOf(l.Data()) == b
                && SlotTable.IndexOf(l.entries, st.op.mint) == Some(r.value)
                && var k := st.op.ledger; var was := old(ledgers)[k];
                ledgers == old(ledgers)[k := was.(live := was.live.(size := LedgerSpace(|l.entries|)))]
    {
      var op := st.op;
      var minFree := if op.band.Some? then op.band.value else DEFAULT_MIN_FREE;
      var slotIncrease := if op.growth.Some? then op.growth.value else DEFAULT_SLOTS;
      RoomForIs(BookOf(l.Data()), st, minFree, slotIncrease);
      var grown := EnsureHeadroom(op.ledger, l, st.venue, op.owner, minFree, slotIncrease, op.funded);
      if grown.Failure? {
        return Failure(grown.error);
      }
      r := ClaimFor(l, op.mint);
    }

    /** The claim, on the ledger as its users mean it. */
    method ClaimFor(l: Ledger, mint: Key) returns (r: Result<nat>)
      requires TableOk(l.Data())
      modifies l`entries
      ensures match Claim(old(BookOf(l.Data())), mint)
              case Failure(e) => r == Failure(e)
              case Success(b) =>
                && r.Success? && TableOk(l.Data()) && BookOf(l.Data()) == b && |l.entries| == |old(l.entries)|
                && SlotTable.IndexOf(l.entries, mint) == Some(r.value)
    {
      ClaimIsRefined(l.Data(), mint);
      r := l.IndexOrClaim(mint);
    }

    method Deposit(st: Step) returns (r: Result<()>)
      requires Valid() && st.op.Deposit?
      modifies this`ledgers, this`sessions, this`pools, this`lamports
      ensures Does(r, NextDeposit(c, old(Abs()), st))
    {
      var op := st.op;
      if !st.venue.Basenet? {
        return Failure(NotWritable);
      }
      if op.owner !in st.signers {
        return Failure(MissingRequiredSignature);
      }
      if c.isPda(op.owner) {
        return Failure(OffCurveOwnerNotAllowed);
      }
      if !c.IsTokenProgram(op.tokenProgram) {
        return Failure(IncorrectProgramId);
      }
      if op.ledger != c.ledgerPda(op.owner) || op.vault != c.vault {
        return Failure(InvalidSeeds);
      }
      r := DepositInto(st, Abs());
    }

    /** The rest of a deposit once its accounts are checked. */
    method DepositInto(st: Step, ghost s: State) returns (r: Result<()>)
      requires Valid() && st.op.Deposit? && st.venue.Basenet? && !c.isPda(st.op.owner) && s == Abs()
      modifies this`ledgers, this`sessions, this`pools, this`lamports
      ensures Does(r, DepositSteps(c, s, st))
    {
      var l :- OpenForDeposit(st, s);
      r := DepositOpened(st, l, s);
    }

    /** The session store, then the rest: `s` is the state but for the deposit's own ledger. */
    method DepositOpened(st: Step, l: Ledger, ghost s: State) returns (r: Result<()>)
      requires Valid() && st.op.Deposit? && st.op.ledger in ledgers && ledgers[st.op.ledger].place.Home?
      requires TableOk(l.Data()) && |l.entries| == |ledgers[st.op.ledger].live.data.entries|
      requires s == Abs().(ledgers := s.ledgers)
      requires AbsLedgers(ledgers) == s.ledgers[st.op.ledger := AbsAcct(ledgers[st.op.ledger])]
      modifies this`ledgers, this`sessions, this`pools, this`lamports, l`entries
      ensures Does(r, DepositWith(c, s, old(BookOf(l.Data())), st))
    {
      var op := st.op;
      DepositWithIs(c, s, BookOf(l.Data()), st);
      var _ :- EnsureSession(op.owner, op.session, op.prefunded, op.funded, s);
      r := DepositStored(st, l, s.(sessions := AbsSessions(sessions)));
    }

    /** Room first, then the payment: `s` is the state but for the deposit's own ledger. */
    method DepositStored(st: Step, l: Ledger, ghost s: State) returns (r: Result<()>)
      requires Valid() && st.op.Deposit? && st.op.ledger in ledgers && ledgers[st.op.ledger].place.Home?
      requires TableOk(l.Data()) && |l.entries| == |ledgers[st.op.ledger].live.data.entries|
      requires s == Abs().(ledgers := s.ledgers)
      requires AbsLedgers(ledgers) == s.ledgers[st.op.ledger := AbsAcct(ledgers[st.op.ledger])]
      modifies this`ledgers, this`pools, this`lamports, l`entries
      ensures Does(r, DepositTo(c, s, old(BookOf(l.Data())), st))
    {
      ghost var was := ledgers;
      var index :- MakeRoom(l, st);
      r := PayAndCredit(st, l, index, s, was);
    }

    /** The transfer, the credit it pays for and the write-back. */
    method PayAndCredit(st: Step, l: Ledger, index: nat, ghost s: State, ghost before: map<Key,
        Acct<LedgerAccount>>) returns (r: Result<()>)
      requires PoolsOk(c, pools) && SessionsWf(sessions) && LedgersWf(before) && st.op.Deposit?
      requires st.op.ledger in before && before[st.op.ledger].place.Home? && TableOk(l.Data())
      requires AbsLedgers(before) == s.ledgers[st.op.ledger := AbsAcct(before[st.op.ledger])]
      requires var was := before[st.op.ledger];
               ledgers == before[st.op.ledger := was.(live := was.live.(size := LedgerSpace(|l.entries|)))]
      requires s == State(s.ledgers, AbsSessions(sessions), pools, lamports, receipts, settling, clocks)
      requires SlotTable.IndexOf(l.entries, st.op.mint) == Some(index)
      modifies this`ledgers, this`pools, this`lamports, l`entries
      ensures Does(r, DepositPaid(c, s, old(BookOf(l.Data())), st))
    {
      var op := st.op;
      ghost var b := BookOf(l.Data());
      r := TransferIn(op);
      if r.Failure? {
        return;
      }
      r := CreditAndStore(op.ledger, l, index, op.mint, op.amount, before, before[op.ledger]);
      if r.Success? {
        PaidIs(c, s, st, b, pools, lamports, AbsAcct(before[op.ledger]), AbsLedgers(ledgers));
      }
    }

    /** The credit and the write-back, into an account resized for it. */
    method CreditAndStore(addr: Key, l: Ledger, index: nat, mint: Key, amount: u64,
        ghost before: map<Key, Acct<LedgerAccount>>, ghost was: Acct<LedgerAccount>) returns (r: Result<()>)
      requires PoolsOk(c, pools) && SessionsWf(sessions) && LedgersWf(before) && PlacedOk(was) && TableOk(l.Data())
      requires ledgers == before[addr := was.(live := was.live.(size := LedgerSpace(|l.entries|)))]
      requires SlotTable.IndexOf(l.entries, mint) == Some(index)
      modifies this`ledgers, l`entries
      ensures match Books.Credit(old(BookOf(l.Data())), mint, amount)
              case Failure(e) => r == Failure(e)
              case Success(b) =>
                r == Success(()) && Valid()
                    && AbsLedgers(ledgers) == AbsLedgers(before)[addr := AbsAcct(was).(live := b)]
    {
      AddIsRefined(l.Data(), mint, amount);
      var _ :- l.Credit(index, amount);
      r := StoreGrown(addr, l, before, was);
    }

    /** The transfer out of the vault, or out of the mint's pool. */
    method TransferOut(op: Op) returns (r: Result<()>)
      requires PoolsOk(c, pools) && op.Withdraw?
      modifies this`pools, this`lamports
      ensures match PayFrom(c, old(pools), old(lamports), op)
              case Failure(e) => r == Failure(e)
              case Success(paid) => r == Success(()) && PoolsOk(c, pools) && paid == (pools, lamports)
    {
      if op.mint == ZERO_KEY {
        if Spendable(c, lamports) < op.amount {
          return Failure(InsufficientReserve);
        }
        if !op.delivered {
          return Failure(CpiFailed);
        }
        lamports := lamports - op.amount;
        return Success(());
      }
      r := PayTokens(op);
    }

    /** The token transfer out of the mint's pool. */
    method PayTokens(op: Op) returns (r: Result<()>)
      requires PoolsOk(c, pools) && op.Withdraw? && op.mint != ZERO_KEY
      modifies this`pools
      ensures match PayFrom(c, old(pools), lamports, op)
              case Failure(e) => r == Failure(e)
              case Success(paid) => r == Success(()) && PoolsOk(c, pools) && paid == (pools, lamports)
    {
      var reserve :- RequireReserve(c, pools, op.vaultToken, op.mint, op.tokenProgram);
      if reserve < op.amount {
        return Failure(InsufficientReserve);
      }
      if op.ownerToken != TokenAccount(op.mint, op.owner, op.tokenProgram) {
        return Failure(MintMismatch);
      }
      if !op.mintGiven && op.tokenProgram == c.token2022 {
        return Failure(MintMismatch);
      }
      if !op.delivered {
        return Failure(CpiFailed);
      }
      PoolSet(c, pools, op.vaultToken, reserve - op.amount);
      pools := pools[op.vaultToken := Pool(op.mint, reserve - op.amount)];
      return Success(());
    }

    method Withdraw(st: Step) returns (r: Result<()>)
      requires Valid() && st.op.Withdraw?
      modifies this`ledgers, this`pools, this`lamports
      ensures Does(r, NextWithdraw(c, old(Abs()), st))
    {
      var op := st.op;
      if !st.venue.Basenet? {
        return Failure(NotWritable);
      }
      if op.owner !in st.signers {
        return Failure(MissingRequiredSignature);
      }
      if c.isPda(op.owner) {
        return Failure(OffCurveOwnerNotAllowed);
      }
      if !c.IsTokenProgram(op.tokenProgram) {
        return Failure(IncorrectProgramId);
      }
      if op.ledger != c.ledgerPda(op.owner) || op.vault != c.vault {
        return Failure(InvalidSeeds);
      }
      var l :- LoadLedger(st.venue, op.ledger);
      if l.owner != op.owner {
        return Failure(BadLedgerOwner);
      }
      r := DebitAndPay(st, l);
    }

    method DebitAndPay(st: Step, l: Ledger) returns (r: Result<()>)
      requires Valid() && st.op.Withdraw? && st.op.ledger in ledgers && l.Data() == ledgers[st.op.ledger].live.data
      modifies this`ledgers, this`pools, this`lamports, l`entries
      ensures Does(r, WithdrawSteps(c, old(Abs()), st))
    {
      var op := st.op;
      assert PlacedOk(ledgers[op.ledger]);
      r := DebitMint(l, op.mint, op.amount);
      if r.Success? {
        r := PayAndStore(st, l, Abs());
      }
    }

    method PayAndStore(st: Step, l: Ledger, ghost s: State) returns (r: Result<()>)
      requires Valid() && st.op.Withdraw? && st.op.ledger in ledgers && TableOk(l.Data()) && s == Abs()
      requires |l.entries| == |ledgers[st.op.ledger].live.data.entries|
      modifies this`ledgers, this`pools, this`lamports
      ensures Does(r, WithdrawPaid(c, s, s.ledgers[st.op.ledger].(live := BookOf(l.Data())), st))
    {
      r := TransferOut(st.op);
      ghost var a := s.ledgers[st.op.ledger].(live := BookOf(l.Data()));
      if r.Success? {
        WithdrawPaidIs(c, s, a, st, pools, lamports);
        r := StoreLedger(st.op.ledger, l);
        assert Abs() == s.(ledgers := s.ledgers[st.op.ledger := a], pools := pools, lamports := lamports);
      }
    }

    // ---- Settle ----

    /** Whether the receiving ledger may open a slot; a person's needs consent for a new one. */
    method MayClaim(st: Step, a: Ledger, b: Ledger) returns (r: Result<bool>)
      requires Valid() && st.op.Settle? && TableOk(a.Data()) && TableOk(b.Data())
      ensures match SlotConsent(c, Abs(), st, BookOf(a.Data()), BookOf(b.Data()))
              case Failure(e) => r == Failure(e)
              case Success(_) => r == Success(true)
    {
      var op := st.op;
      AbsentIffNotClaimed(b.entries, op.mint);
      var found := b.IndexOf(op.mint);
      if b.pdaAuth || found.Some? {
        return Success(true);
      }
      if op.dstConsenter !in st.signers {
        return Failure(MissingUserSignature);
      }
      var allowed := op.dstConsenter == b.owner;
      if !allowed {
        match op.keyStore {
          case Some(session) =>
            allowed :- MayConsent(st.venue, session, b.owner, op.dstConsenter, a.authorized);
          case None =>
        }
      }
      if !allowed {
        return Failure(NotAuthorizedToConsent);
      }
      return Success(true);
    }

    method Settle(st: Step) returns (r: Result<()>)
      requires Valid() && st.op.Settle?
      modifies this`ledgers
      ensures Does(r, NextSettle(c, old(Abs()), st))
    {
      var op := st.op;
      var a :- LoadLedger(st.venue, op.src);
      var b :- LoadLedger(st.venue, op.dst);
      if op.src == op.dst {
        return Failure(DuplicateLedger);
      }
      if op.srcAuthority != a.owner {
        return Failure(BadAuthority);
      }
      if !(a.pdaAuth || b.pdaAuth) {
        return Failure(NotProgramMediated);
      }
      if op.srcAuthority !in st.signers {
        return Failure(if a.pdaAuth then MissingProgramSignature else MissingUserSignature);
      }
      var mayClaim :- MayClaim(st, a, b);
      r := MoveAndStore(op.src, op.dst, a, b, op.mint, op.amount, mayClaim);
    }

    /** The debit, the credit and both write-backs of two different ledgers. */
    method MoveAndStore(src: Key, dst: Key, a: Ledger, b: Ledger, mint: Key, amount: u64,
        mayClaim: bool) returns (r: Result<()>)
      requires Valid() && src in ledgers && dst in ledgers && src != dst && a != b && mayClaim
      requires a.Data() == ledgers[src].live.data && b.Data() == ledgers[dst].live.data
      modifies this`ledgers, a`entries, b`entries
      ensures match Move(old(AbsLedgers(ledgers)), src, dst, mint, amount)
              case Failure(e) => r == Failure(e)
              case Success(ls) => r == Success(()) && Valid() && AbsLedgers(ledgers) == ls
    {
      ghost var ls := AbsLedgers(ledgers);
      assert PlacedOk(ledgers[src]) && PlacedOk(ledgers[dst]);
      r := DebitMint(a, mint, amount);
      if r.Failure? {
        return;
      }
      ghost var x := BookOf(a.Data());
      r := CreditMint(b, mint, amount, mayClaim);
      if r.Failure? {
        return;
      }
      StoreTwo(src, dst, a, b);
      MoveIs(ls, src, dst, mint, amount, x, BookOf(b.Data()));
    }

    method StoreTwo(src: Key, dst: Key, a: Ledger, b: Ledger)
      requires Valid() && src in ledgers && dst in ledgers && src != dst && TableOk(a.Data()) && TableOk(b.Data())
      requires |a.entries| == |ledgers[src].live.data.entries| && |b.entries| == |ledgers[dst].live.data.entries|
      modifies this`ledgers
      ensures Valid()
      ensures var ls := old(AbsLedgers(ledgers));
              AbsLedgers(ledgers) == ls[src := ls[src].(live := BookOf(a.Data()))][dst
                  := ls[dst].(live := BookOf(b.Data()))]
    {
      var _ := StoreLedger(src, a);
      var _ := StoreLedger(dst, b);
    }

    // ---- Receipts ----

    /** `create_receipt`'s own checks on the terms it is given. */
    method CheckTerms(owners: seq<Key>, movements: seq<Movement>) returns (r: Result<()>)
      ensures r == if !Distinct(owners) then Failure(DuplicateLedger)
                   else if !InRange(movements, |owners|) || !NoSelfMove(movements) then Failure(NoAuthorization)
                   else Success(())
    {
      for i := 0 to |owners|
        invariant Distinct(owners[..i])
      {
        if owners[i] in owners[..i] {
          ghost var j :| 0 <= j < i && owners[j] == owners[i];
          assert !Distinct(owners);
          return Failure(DuplicateLedger);
        }
        assert owners[..i + 1] == owners[..i] + [owners[i]];
      }
      assert owners[..|owners|] == owners;
      for n := 0 to |movements|
        invariant InRange(movements[..n], |owners|) && NoSelfMove(movements[..n])
      {
        var m := movements[n];
        if m.src >= |owners| || m.dst >= |owners| {
          return Failure(NoAuthorization);
        }
        if m.src == m.dst {
          return Failure(NoAuthorization);
        }
      }
      assert movements[..|movements|] == movements;
      return Success(());
    }

    method CreateReceipt(st: Step) returns (r: Result<()>)
      requires Valid() && st.op.CreateReceipt?
      modifies this`receipts
      ensures Does(r, NextCreateReceipt(c, old(Abs()), st))
    {
      var op := st.op;
      if op.authority !in st.signers {
        return Failure(MissingProgramSignature);
      }
      if op.consenter !in st.signers {
        return Failure(NotAuthorizedToConsent);
      }
      if |op.movements| > 255 || |op.args| > 255 {
        return Failure(NoAuthorization);
      }
      if op.owners == [] || |op.owners| > 255 {
        return Failure(NoAuthorization);
      }
      if op.ephemeralVault != c.ephemeralVault {
        return Failure(InvalidArgument);
      }
      if c.derive(op.member, op.seeds) != Some(op.authority) {
        return Failure(MemberProgramMismatch);
      }
      var _ :- CheckTerms(op.owners, op.movements);
      r := WriteReceipt(st);
    }

    /** The second half of `create_receipt`: the account, the authority's ledger, the write. */
    method WriteReceipt(st: Step) returns (r: Result<()>)
      requires Valid() && st.op.CreateReceipt?
      modifies this`receipts
      ensures Does(r, Machine.WriteReceipt(c, old(Abs()), st))
    {
      var op := st.op;
      var now := ClockAt(st.venue).slot;
      if op.receipt != c.receiptPda(op.member, op.consenter) {
        return Failure(BadAuthority);
      }
      var at := At(st.venue, op.receipt);
      if at in receipts && receipts[at].terms.slot == now {
        return Failure(ReceiptLive);
      }
      var l :- LoadLedger(st.venue, op.authorityLedger);
      if l.owner != op.authority {
        return Failure(BadAuthority);
      }
      if !st.venue.Rollup? || |op.callbackDisc| != 8 {
        return Failure(CpiFailed);
      }
      var terms := Receipt(op.consenter, op.owners, op.authority, op.member, op.callbackDisc, now, op.movements,
          op.args);
      receipts := receipts[at := ReceiptAccount(terms, true)];
      return Success(());
    }

    method ReadReceipt(v: Venue, addr: Key) returns (r: Result<Receipt>)
      requires Valid()
      ensures r == Machine.ReadReceipt(Abs(), v, addr)
    {
      var at := At(v, addr);
      if at in receipts {
        if !receipts[at].live {
          return Failure(NotAReceipt);
        }
        var terms := receipts[at].terms;
        for n := 0 to |terms.movements|
          invariant InRange(terms.movements[..n], |terms.owners|)
        {
          if terms.movements[n].src >= |terms.owners| || terms.movements[n].dst >= |terms.owners| {
            return Failure(NoAuthorization);
          }
        }
        assert terms.movements[..|terms.movements|] == terms.movements;
        return Success(terms);
      }
      if addr in ledgers && Here(ledgers[addr], v) {
        return Failure(NotAReceipt);
      }
      if addr in sessions {
        ProgramsCount(sessions[addr].store.entries, |sessions[addr].store.entries|);
        return Failure(if sessions[addr].store.entries == [] then NoAuthorization else NotAReceipt);
      }
      return Failure(IllegalOwner);
    }

    /** One ledger named by a receipt, read and checked. */
    method ReadNamed(v: Venue, terms: Receipt, infos: seq<Key>, idx: nat) returns (r: Result<LedgerData>)
      requires Valid() && idx < |infos| == |terms.owners|
      ensures match CheckLedger(c, Abs(), v, terms, infos, idx)
              case Some(e) => r == Failure(e)
              case None =>
                && r.Success? && TableOk(r.value) && infos[idx] !in infos[..idx]
                && infos[idx] in AbsLedgers(ledgers) && BookOf(r.value) == AbsLedgers(ledgers)[infos[idx]].live
    {
      var addr := infos[idx];
      if addr !in ledgers {
        return Failure(if addr in sessions || At(v, addr) in receipts then InvalidAccountData else LedgerCheck(0, idx));
      }
      if !Here(ledgers[addr], v) {
        return Failure(NotHere(v, LedgerCheck(0, idx)));
      }
      assert PlacedOk(ledgers[addr]);
      var l := ledgers[addr].live.data;
      if l.owner != terms.owners[idx] {
        return Failure(LedgerCheck(1, idx));
      }
      if c.ledgerPda(terms.owners[idx]) != addr {
        return Failure(LedgerCheck(2, idx));
      }
      if l.pdaAuth && l.authorized != terms.member {
        return Failure(LedgerCheck(3, idx));
      }
      if addr in infos[..idx] {
        return Failure(LedgerCheck(4, idx));
      }
      return Success(l);
    }

    /** Every ledger a receipt names, in order; the first fault ends it. */
    method ReadAllNamed(v: Venue, terms: Receipt, infos: seq<Key>) returns (r: Result<seq<LedgerData>>)
      requires Valid() && |infos| == |terms.owners|
      ensures match CheckLedgers(c, Abs(), v, terms, infos, 0)
              case Some(e) => r == Failure(e)
              case None => r.Success? && Match(r.value, infos, AbsLedgers(ledgers)) && Distinct(infos)
    {
      var ds: seq<LedgerData> := [];
      ghost var s := Abs();
      for idx := 0 to |infos|
        invariant |ds| == idx && Match(ds, infos[..idx], s.ledgers) && Distinct(infos[..idx])
        invariant CheckLedgers(c, s, v, terms, infos, 0) == CheckLedgers(c, s, v, terms, infos, idx)
      {
        var d :- ReadNamed(v, terms, infos, idx);
        ExtendMatch(ds, infos, d, idx, s.ledgers);
        ds := ds + [d];
      }
      assert infos[..|infos|] == infos;
      return Success(ds);
    }

    /** The one person's consent, asked for on the ledgers as loaded. */
    method AskConsent(v: Venue, terms: Receipt, infos: seq<Key>, ls: seq<Ledger>,
        rest: seq<Key>) returns (r: Result<()>)
      requires Valid() && Holds(ls, infos, AbsLedgers(ledgers))
      ensures r == ReceiptConsent(c, Abs(), v, terms, infos, rest)
    {
      var h := FindPerson(ls, infos, AbsLedgers(ledgers));
      if h.None? {
        return Success(());
      }
      if rest == [] {
        return Failure(NoAuthorization);
      }
      var needs := NeedsConsent(terms.movements, h.value, ls[h.value], terms);
      if needs {
        var ok :- MayConsent(v, rest[0], ls[h.value].owner, terms.consenter, terms.member);
        if !ok {
          return Failure(NotAuthorizedToConsent);
        }
      }
      return Success(());
    }

    method StoreNamed(infos: seq<Key>, ls: seq<Ledger>, i: nat, ghost start: map<Key, Acct<Book>>,
        ghost end: map<Key, Acct<Book>>)
      requires Valid() && Holds(ls, infos, end) && Distinct(infos) && OnlyClaims(start, end) && i < |infos|
      requires Blended(start, end, AbsLedgers(ledgers), infos, i)
      modifies this`ledgers
      ensures Valid() && Blended(start, end, AbsLedgers(ledgers), infos, i + 1)
    {
      ghost var now := AbsLedgers(ledgers);
      NotYetBlended(start, end, now, infos, i);
      assert PlacedOk(ledgers[infos[i]]);
      SameCapacity(ledgers[infos[i]].live, ls[i].Data());
      var _ := StoreLedger(infos[i], ls[i]);
      BlendStep(start, end, now, AbsLedgers(ledgers), infos, i);
    }

    /** Writing every moved ledger back. */
    method StoreAll(infos: seq<Key>, ls: seq<Ledger>, ghost start: map<Key, Acct<Book>>, ghost end: map<Key,
        Acct<Book>>) returns (r: Result<()>)
      requires Valid() && start == AbsLedgers(ledgers) && Holds(ls, infos, end) && Distinct(infos)
      requires BooksOk(start) && OnlyClaims(start, end) && forall k :: k in start && k !in infos ==> end[k] == start[k]
      modifies this`ledgers
      ensures r == Success(()) && Valid() && AbsLedgers(ledgers) == end
    {
      for i := 0 to |infos|
        invariant Valid() && Blended(start, end, AbsLedgers(ledgers), infos, i)
      {
        StoreNamed(infos, ls, i, start, end);
      }
      BlendedAll(start, end, AbsLedgers(ledgers), infos);
      return Success(());
    }

    method SettleBegin(st: Step) returns (r: Result<()>)
      requires Valid() && st.op.SettleBegin?
      modifies this`ledgers, this`receipts, this`settling
      ensures Does(r, NextSettleBegin(c, old(Abs()), st))
    {
      var op := st.op;
      var terms :- ReadReceipt(st.venue, op.receipt);
      if terms.slot != ClockAt(st.venue).slot {
        return Failure(ReceiptExpired);
      }
      if op.authority != terms.authority {
        return Failure(BadAuthority);
      }
      if op.callbackProgram != terms.member {
        return Failure(CallbackProgramMismatch);
      }
      if op.consenter != terms.consenter {
        return Failure(BadAuthority);
      }
      if op.consenter !in st.signers {
        return Failure(NotAuthorizedToConsent);
      }
      if |op.remaining| < |terms.owners| {
        return Failure(NoAuthorization);
      }
      r := SettleLedgers(st, terms);
    }

    /** Load and check, ask for consent once, run the movements, store, and kill the receipt. */
    method SettleLedgers(st: Step, terms: Receipt) returns (r: Result<()>)
      requires Valid() && st.op.SettleBegin? && |terms.owners| <= |st.op.remaining|
      requires InRange(terms.movements, |terms.owners|)
      modifies this`ledgers, this`receipts, this`settling
      ensures Does(r, BeginLedgers(c, old(Abs()), st, terms))
    {
      var op := st.op;
      ghost var s := Abs();
      var infos, rest := op.remaining[..|terms.owners|], op.remaining[|terms.owners|..];
      var ds :- ReadAllNamed(st.venue, terms, infos);
      var ls := LoadAll(ds, infos, s.ledgers);
      var people := CountPeople(ls, infos, s.ledgers);
      if people > 1 {
        return Failure(NotProgramMediated);
      }
      var _ :- AskConsent(st.venue, terms, infos, ls, rest);
      r := MoveStoreAndKill(st, terms, infos, ls);
    }

    /** The movements, the write-backs, and the receipt's discriminator zeroed before the callback. */
    method MoveStoreAndKill(st: Step, terms: Receipt, infos: seq<Key>, ls: seq<Ledger>) returns (r: Result<()>)
      requires Valid() && st.op.SettleBegin? && InRange(terms.movements, |infos|)
      requires Holds(ls, infos, AbsLedgers(ledgers)) && ReceiptLoop.Apart(ls, infos)
      modifies this`ledgers, this`receipts, this`settling, ls
      ensures Does(r, BeginMoved(c, old(Abs()), st, terms, infos))
    {
      ghost var start := AbsLedgers(ledgers);
      ghost var end;
      r, end := RunMovements(ls, infos, terms.movements, start);
      if r.Failure? {
        return;
      }
      BooksAreOk(ledgers);
      MoveAllEffect(start, infos, terms.movements);
      r := StoreAll(infos, ls, start, end);
      var at := At(st.venue, st.op.receipt);
      receipts := receipts[at := ReceiptAccount(terms, false)];
      if st.op.vaultAuthority != c.vaultAuthority {
        return Failure(InvalidSeeds);
      }
      settling := settling + [Settlement(at, st.op.ephemeralVault)];
    }

    /** The rest of `settle_receipt`, once the callback has returned. */
    method SettleEnd() returns (r: Result<()>)
      requires Valid()
      modifies this`receipts, this`settling
      ensures Does(r, NextSettleEnd(c, old(Abs())))
    {
      if settling == [] {
        return Failure(InvalidArgument);
      }
      var last := settling[|settling| - 1];
      if last.ephemeralVault != c.ephemeralVault {
        return Failure(InvalidArgument);
      }
      if last.at !in receipts {
        return Failure(NotAReceipt);
      }
      var terms := receipts[last.at].terms;
      if terms.authority !in terms.owners {
        return Failure(BadAuthority);
      }
      receipts := receipts - {last.at};
      settling := settling[..|settling| - 1];
      return Success(());
    }

    method Reap(st: Step) returns (r: Result<()>)
      requires Valid() && st.op.Reap?
      modifies this`receipts
      ensures Does(r, NextReap(c, old(Abs()), st))
    {
      var op := st.op;
      var at := At(st.venue, op.receipt);
      if op.ephemeralVault != c.ephemeralVault {
        return Failure(InvalidArgument);
      }
      if at !in receipts || !receipts[at].live {
        return Success(());
      }
      if receipts[at].terms.slot >= ClockAt(st.venue).slot {
        return Success(());
      }
      var l :- LoadLedger(st.venue, op.authorityLedger);
      if l.owner != receipts[at].terms.authority {
        return Failure(BadAuthority);
      }
      receipts := receipts - {at};
      return Success(());
    }

    // ---- Close ----

    /** One entry of the sweep, the cursor moving over its group of accounts. */
    method SweepEntry(e: SlotTable.Entry, w: Accompanying, at: nat) returns (r: Result<nat>)
      modifies this`pools
      ensures match PayEntry(c, old(pools), e, w, at)
              case Failure(e) => r == Failure(e)
              case Success(next) => r == Success(next.1) && pools == next.0
    {
      var cursor := at;
      if cursor >= |w.listed| || cursor + 1 >= |w.listed| {
        return Failure(MissingTokenAccounts);
      }
      var vaultToken, ownerToken := w.listed[cursor], w.listed[cursor + 1];
      cursor := cursor + 2;
      var program := ProgramOf(c, pools, vaultToken);
      if !c.IsTokenProgram(program) || ownerToken.program != program {
        return Failure(MintMismatch);
      }
      var reserve :- RequireReserve(c, pools, vaultToken.key, e.mint, program);
      if reserve < e.amount {
        return Failure(InsufficientReserve);
      }
      if ownerToken.token != Some((e.mint, w.owner)) {
        return Failure(MintMismatch);
      }
      if program !in w.present {
        return Failure(IncorrectProgramId);
      }
      if program == c.token2022 {
        if cursor >= |w.listed| {
          return Failure(MissingTokenAccounts);
        }
        var mint := w.listed[cursor];
        cursor := cursor + 1;
        if mint.key != e.mint || mint.program != program {
          return Failure(MintMismatch);
        }
      }
      if !w.delivered {
        return Failure(CpiFailed);
      }
      pools := pools[vaultToken.key := Pool(e.mint, reserve - e.amount)];
      return Success(cursor);
    }

    /** Every non-zero token entry, in slot order, each zeroed once paid; then nothing may be left. */
    method SweepTokens(l: Ledger, w: Accompanying) returns (r: Result<()>)
      requires TableOk(l.Data()) && l.entries[0].amount == 0
      modifies this`pools, l`entries
      ensures match Sweep(c, old(pools), old(l.entries), 1, w, 0)
              case Failure(e) => r == Failure(e)
              case Success(after) => r == Success(()) && pools == after
    {
      ghost var es := l.entries;
      var at := 0;
      for i := 1 to |l.entries|
        invariant |l.entries| == |es|
        invariant forall j :: 0 <= j < i ==> l.entries[j].amount == 0
        invariant forall j :: i <= j < |es| ==> l.entries[j] == es[j]
        invariant Sweep(c, pools, es, i, w, at) == Sweep(c, old(pools), es, 1, w, 0)
      {
        var e := l.entries[i];
        if e.mint != ZERO_KEY && e.amount != 0 {
          at :- SweepEntry(e, w, at);
          l.entries := l.entries[i := e.(amount := 0)];
        }
      }
      for i := 0 to |l.entries| {
        if l.entries[i].amount != 0 {
          return Failure(MissingTokenAccounts);
        }
      }
      return Success(());
    }

    method Close(st: Step, w: Accompanying) returns (r: Result<()>)
      requires ReservesApart(c) && Valid() && st.op.Close? && w.owner == st.op.owner && w.delivered == st.op.delivered
      requires st.op.sweep ==
                 if st.op.ledger in ledgers then SweepFault(c, pools, ledgers[st.op.ledger].live.data.entries, w)
                     else None
      modifies this`ledgers, this`sessions, this`pools, this`lamports
      ensures Does(r, NextClose(c, old(Abs()), st))
    {
      var op := st.op;
      if !st.venue.Basenet? {
        return Failure(NotWritable);
      }
      if op.owner !in st.signers || op.rentPayer !in st.signers {
        return Failure(MissingRequiredSignature);
      }
      if !c.IsTokenProgram(op.tokenProgram) {
        return Failure(IncorrectProgramId);
      }
      if op.ledger != c.ledgerPda(op.owner) || op.vault != c.vault {
        return Failure(InvalidSeeds);
      }
      var l :- LoadLedger(st.venue, op.ledger);
      if l.owner != op.owner {
        return Failure(BadLedgerOwner);
      }
      if l.rentPayer != op.rentPayer {
        return Failure(NotRentPayer);
      }
      r := SweepAndClose(st, w, l);
    }

    /** The SOL of slot 0, paid from the vault's own lamports above its floor. */
    method SweepSol(l: Ledger, delivered: bool, ghost b: Book) returns (r: Result<()>)
      requires TableOk(l.Data()) && b == BookOf(l.Data())
      modifies this`lamports, l`entries
      ensures var sol := Balance(b, ZERO_KEY);
              if Spendable(c, old(lamports)) < sol then r == Failure(InsufficientReserve)
              else if sol > 0 && !delivered then r == Failure(CpiFailed)
              else
                && r == Success(()) && lamports == old(lamports) - sol && TableOk(l.Data())
                && l.entries == old(l.entries)[0 := old(l.entries)[0].(amount := 0)]
    {
      LookupFindsTheOnlySlot(l.entries, 0);
      var sol := l.entries[0].amount;
      if sol > 0 {
        if Spendable(c, lamports) < sol {
          return Failure(InsufficientReserve);
        }
        if !delivered {
          return Failure(CpiFailed);
        }
        lamports := lamports - sol;
        l.entries := l.entries[0 := l.entries[0].(amount := 0)];
      }
      return Success(());
    }

    /** The session store of a wallet goes with its ledger, everything in it having been paid. */
    method RemoveAccounts(st: Step, l: Ledger, ghost s: State, ghost b: Book) returns (r: Result<()>)
      requires Valid() && st.op.Close? && l.pdaAuth == b.pdaAuth && Spendable(c, s.lamports) >= Balance(b, ZERO_KEY)
      requires s == Abs().(pools := s.pools, lamports := s.lamports)
      requires pools == Drained(s.pools, b) && lamports == s.lamports - Balance(b, ZERO_KEY)
      modifies this`ledgers, this`sessions
      ensures Does(r, CloseSwept(c, s, st, b))
    {
      var op := st.op;
      if !l.pdaAuth {
        if op.session != c.sessionPda(op.owner) {
          return Failure(InvalidSeeds);
        }
        AbsSessionsRemove(sessions, op.session);
        sessions := sessions - {op.session};
      }
      AbsLedgersRemove(ledgers, op.ledger);
      ledgers := ledgers - {op.ledger};
      return Success(());
    }

    /** With everything paid out, the accounts go. */
    method RemoveSwept(st: Step, l: Ledger, ghost s: State, ghost b: Book) returns (r: Result<()>)
      requires Valid() && st.op.Close? && l.pdaAuth == b.pdaAuth && Spendable(c, s.lamports) >= Balance(b, ZERO_KEY)
      requires st.op.ledger in s.ledgers && s.ledgers[st.op.ledger].live == b
      requires st.op.sweep.None? && PoolsCover(c, s.pools, b)
      requires s == Abs().(pools := s.pools, lamports := s.lamports)
      requires pools == Drained(s.pools, b) && lamports == s.lamports - Balance(b, ZERO_KEY)
      modifies this`ledgers, this`sessions
      ensures Does(r, CloseTokens(c, s, st))
    {
      CloseTokensIs(c, s, st, b);
      r := RemoveAccounts(st, l, s, b);
    }

    /** SOL first, then the tokens, then the accounts themselves. */
    method SweepAndClose(st: Step, w: Accompanying, l: Ledger) returns (r: Result<()>)
      requires ReservesApart(c) && Valid() && st.op.Close? && w.owner == st.op.owner && w.delivered == st.op.delivered
      requires st.op.ledger in ledgers && l.Data() == ledgers[st.op.ledger].live.data && TableOk(l.Data())
      requires st.op.sweep == SweepFault(c, pools, l.entries, w)
      modifies this`ledgers, this`sessions, this`pools, this`lamports, l`entries
      ensures Does(r, CloseSteps(c, old(Abs()), st))
    {
      ghost var s := Abs();
      ghost var d := l.Data();
      ghost var b := BookOf(d);
      assert b == s.ledgers[st.op.ledger].live;
      CloseStepsIs(c, s, st, b);
      r := SweepSol(l, st.op.delivered, b);
      if r.Success? {
        SlotZeroIsNotSwept(c, pools, d, l.entries, w);
        r := CloseTail(st, w, l, s, d);
      }
    }

    /** The tokens and the accounts, the SOL of `d` having been paid. */
    method CloseTail(st: Step, w: Accompanying, l: Ledger, ghost s: State, ghost d: LedgerData) returns (r: Result<()>)
      requires ReservesApart(c) && Valid() && TableOk(d) && st.op.Close? && st.op.ledger in s.ledgers
      requires s.ledgers[st.op.ledger].live == BookOf(d)
      requires TableOk(l.Data()) && l.entries[0].amount == 0 && l.pdaAuth == d.pdaAuth
      requires Spendable(c, s.lamports) >= Balance(BookOf(d), ZERO_KEY)
      requires lamports == s.lamports - Balance(BookOf(d), ZERO_KEY)
      requires s == Abs().(lamports := s.lamports) && (Balance(BookOf(d), ZERO_KEY) > 0 ==> st.op.delivered)
      requires Sweep(c, pools, l.entries, 1, w, 0) == Sweep(c, pools, d.entries, 1, w, 0)
      requires st.op.sweep == SweepFault(c, pools, d.entries, w)
      modifies this`ledgers, this`sessions, this`pools, l`entries
      ensures Does(r, CloseTokens(c, s, st))
    {
      ghost var b := BookOf(d);
      r := SweepAll(l, w, d, b);
      if r.Success? {
        r := RemoveSwept(st, l, s, b);
      } else {
        CloseTokensIs(c, s, st, b);
      }
    }

    /** The tokens' sweep, as what it leaves in the pools. */
    method SweepAll(l: Ledger, w: Accompanying, ghost d: LedgerData, ghost b: Book) returns (r: Result<()>)
      requires ReservesApart(c) && PoolsOk(c, pools) && TableOk(d) && b == BookOf(d)
      requires TableOk(l.Data()) && l.entries[0].amount == 0
      requires Sweep(c, pools, l.entries, 1, w, 0) == Sweep(c, pools, d.entries, 1, w, 0)
      modifies this`pools, l`entries
      ensures match SweepFault(c, old(pools), d.entries, w)
              case Some(e) => r == Failure(e)
              case None =>
                && r == Success(()) && pools == Drained(old(pools), b)
                && PoolsOk(c, pools) && PoolsCover(c, old(pools), b)
      ensures l.pdaAuth == old(l.pdaAuth)
    {
      ghost var before := pools;
      r := SweepTokens(l, w);
      if r.Success? {
        SweepDrains(c, before, d, w);
        DrainedOk(c, before, BookOf(d));
      }
    }

    // ---- Delegation ----

    /** Where a ledger account lives is all that changes. */
    method MoveHouse(addr: Key, place: Place<LedgerAccount>)
      requires Valid() && addr in ledgers && PlacedOk(ledgers[addr].(place := place))
      modifies this`ledgers
      ensures Valid()
      ensures AbsLedgers(ledgers) == old(AbsLedgers(ledgers))[addr := AbsAcct(old(ledgers[addr]).(place := place))]
    {
      AbsLedgersUpdate(ledgers, addr, ledgers[addr].(place := place));
      ledgers := ledgers[addr := ledgers[addr].(place := place)];
    }

    method Delegate(st: Step) returns (r: Result<()>)
      requires Valid() && st.op.Delegate?
      modifies this`ledgers
      ensures Does(r, NextDelegate(c, old(Abs()), st))
    {
      var op := st.op;
      if op.payer !in st.signers || op.owner !in st.signers {
        return Failure(MissingRequiredSignature);
      }
      if !st.venue.Basenet? || op.ledger != c.ledgerPda(op.owner) || op.ledger !in ledgers
          || !ledgers[op.ledger].place.Home? {
        return Failure(CpiFailed);
      }
      assert PlacedOk(ledgers[op.ledger]);
      MoveHouse(op.ledger, Away(op.validator, ledgers[op.ledger].live));
      return Success(());
    }

    method Undelegate(st: Step) returns (r: Result<()>)
      requires Valid() && st.op.Undelegate?
      modifies this`ledgers
      ensures Does(r, NextUndelegate(c, old(Abs()), st))
    {
      var op := st.op;
      if op.payer !in st.signers {
        return Failure(MissingRequiredSignature);
      }
      var _ :- LoadLedger(st.venue, op.ledger);
      var place := ledgers[op.ledger].place;
      if !place.Away? {
        return Failure(CpiFailed);
      }
      assert PlacedOk(ledgers[op.ledger]);
      MoveHouse(op.ledger, Returning(place.validator, place.base));
      return Success(());
    }

    method FinishUndelegation(st: Step) returns (r: Result<()>)
      requires Valid() && st.op.FinishUndelegation?
      modifies this`ledgers
      ensures Does(r, NextFinishUndelegation(old(Abs()), st))
    {
      var addr := st.op.ledger;
      if !st.venue.Basenet? || addr !in ledgers || !ledgers[addr].place.Returning? {
        return Failure(CpiFailed);
      }
      assert PlacedOk(ledgers[addr]);
      MoveHouse(addr, Home);
      return Success(());
    }

    // ---- The world around the program ----

    method Tick(st: Step) returns (r: Result<()>)
      requires Valid() && st.op.Tick?
      modifies this`clocks
      ensures Does(r, NextTick(old(Abs()), st))
    {
      if st.op.clock.slot < ClockAt(st.venue).slot {
        return Failure(InvalidArgument);
      }
      clocks := clocks[st.venue := st.op.clock];
      return Success(());
    }

    method Donate(st: Step) returns (r: Result<()>)
      requires Valid() && st.op.Donate?
      modifies this`lamports, this`pools
      ensures Does(r, NextDonate(old(Abs()), st))
    {
      DonateIs(Abs(), st);
      match st.op.target {
        case Some(a) => r := GiveTo(a, st.op.amount);
        case None => r := GiveLamports(st.op.amount);
      }
    }

    method GiveLamports(amount: u64) returns (r: Result<()>)
      modifies this`lamports
      ensures if old(lamports) + amount > MAX_U64 then r == Failure(CpiFailed) && lamports == old(lamports)
              else r == Success(()) && lamports == old(lamports) + amount
    {
      if lamports + amount > MAX_U64 {
        return Failure(CpiFailed);
      }
      lamports := lamports + amount;
      return Success(());
    }

    method GiveTo(a: Key, amount: u64) returns (r: Result<()>)
      requires PoolsOk(c, pools)
      modifies this`pools
      ensures if a !in old(pools) || old(pools)[a].amount + amount > MAX_U64 then r == Failure(CpiFailed)
                && pools == old(pools)
              else
                && r == Success(()) && PoolsOk(c, pools)
                && pools == old(pools)[a := old(pools)[a].(amount := old(pools)[a].amount + amount)]
    {
      if a !in pools || pools[a].amount + amount > MAX_U64 {
        return Failure(CpiFailed);
      }
      PoolSet(c, pools, a, pools[a].amount + amount);
      pools := pools[a := Pool(pools[a].mint, pools[a].amount + amount)];
      return Success(());
    }

    method CreateReserve(st: Step) returns (r: Result<()>)
      requires Valid() && st.op.CreateReserve?
      modifies this`pools
      ensures Does(r, NextCreateReserve(c, old(Abs()), st))
    {
      var mint := st.op.mint;
      var a := c.reserveAddress(mint, c.mintProgram(mint));
      if mint == ZERO_KEY {
        return Failure(CpiFailed);
      }
      if a !in pools {
        pools := pools[a := Pool(mint, 0)];
      }
      return Success(());
    }

    // ---- Transactions ----

    /** Instruction dispatch; a settlement is split at its callback, and a close that can succeed carries
        its own list. */
    method Execute(st: Step) returns (r: Result<()>)
      requires Valid() && (st.op.Close? ==> st.venue.Rollup?)
      modifies this
      ensures Does(r, Next(c, old(Abs()), st))
    {
      if settling != [] && (st.venue != settling[|settling| - 1].at.venue || st.op.Tick?) {
        return Failure(Busy);
      }
      match st.op {
        case InitializeVault(_, _, _) => r := InitializeVault(st);
        case OpenWallet(_, _, _, _, _, _) => r := OpenWallet(st);
        case OpenPda(_, _, _, _, _, _, _) => r := OpenPda(st);
        case GrowPda(_, _, _, _, _, _) => r := GrowPda(st);
        case Deposit(_, _, _, _, _, _, _, _, _, _, _, _, _, _) => r := Deposit(st);
        case Withdraw(_, _, _, _, _, _, _, _, _, _) => r := Withdraw(st);
        case Settle(_, _, _, _, _, _, _) => r := Settle(st);
        case CreateReceipt(_, _, _, _, _, _, _, _, _, _, _) => r := CreateReceipt(st);
        case SettleBegin(_, _, _, _, _, _, _) => r := SettleBegin(st);
        case SettleEnd => r := SettleEnd();
        case Reap(_, _, _) => r := Reap(st);
        case Authorize(_, _, _, _, _, _, _) => r := Authorize(st);
        case Revoke(_, _, _, _) => r := Revoke(st);
        case Delegate(_, _, _, _) => r := Delegate(st);
        case Undelegate(_, _) => r := Undelegate(st);
        case FinishUndelegation(_) => r := FinishUndelegation(st);
        case Close(_, _, _, _, _, _, _, _) => r := Failure(NotWritable);
        case Tick(_) => r := Tick(st);
        case Donate(_, _) => r := Donate(st);
        case CreateReserve(_) => r := CreateReserve(st);
      }
    }

    /** A call with all it nests: for a settlement, the handler's first half, the instructions of its
        callback, the handler's second half. */
    method Run(call: Call) returns (r: Result<()>)
      requires Valid() && Runnable(call)
      modifies this
      ensures Does(r, Exec(c, old(Abs()), Flatten(call)))
      decreases call, 0
    {
      match call {
        case Plain(st) =>
          ExecOne(c, Abs(), st);
          r := Execute(st);
        case Settling(begin, callback) =>
          ExecSettlement(c, Abs(), begin, callback);
          r := Execute(begin);
          if r.Failure? {
            return;
          }
          r := RunAll(callback);
          if r.Failure? {
            return;
          }
          r := Execute(End(begin));
      }
    }

    method RunAll(calls: seq<Call>) returns (r: Result<()>)
      requires Valid() && forall i :: 0 <= i < |calls| ==> Runnable(calls[i])
      modifies this
      ensures Does(r, Exec(c, old(Abs()), FlattenAll(calls)))
      decreases calls, 0
    {
      if calls == [] {
        return Success(());
      }
      ExecAppend(c, Abs(), Flatten(calls[0]), FlattenAll(calls[1..]));
      r := Run(calls[0]);
      if r.Success? {
        r := RunAll(calls[1..]);
      }
    }

    /** A transaction: all of it happens, or none of it; either way the invariant stands. */
    method Transact(call: Call) returns (r: Result<()>)
      requires Valid() && Runnable(call)
      modifies this
      ensures Valid()
      ensures match Exec(c, old(Abs()), Flatten(call))
              case Failure(e) => r == Failure(e) && Abs() == old(Abs())
              case Success(s) => r == Success(()) && Abs() == s
      ensures Sound(c) && old(Inv(c, Abs())) ==> Inv(c, Abs())
    {
      ghost var s := Abs();
      var accounts := (ledgers, sessions, pools, lamports, receipts, settling, clocks);
      r := Run(call);
      if r.Failure? {
        ledgers, sessions, pools, lamports := accounts.0, accounts.1, accounts.2, accounts.3;
        receipts, settling, clocks := accounts.4, accounts.5, accounts.6;
      } else if Sound(c) && Inv(c, s) {
        ExecKeepsInv(c, s, Flatten(call));
      }
    }

    /** The transaction of a close: like any other, all of it or none, and the invariant stands. */
    method TransactClose(st: Step, w: Accompanying) returns (r: Result<()>)
      requires ReservesApart(c) && Valid() && st.op.Close? && w.owner == st.op.owner && w.delivered == st.op.delivered
      requires st.op.sweep ==
                 if st.op.ledger in ledgers then SweepFault(c, pools, ledgers[st.op.ledger].live.data.entries, w)
                     else None
      modifies this
      ensures Valid()
      ensures match Next(c, old(Abs()), st)
              case Failure(e) => r == Failure(e) && Abs() == old(Abs())
              case Success(s) => r == Success(()) && Abs() == s
      ensures Sound(c) && old(Inv(c, Abs())) ==> Inv(c, Abs())
    {
      ghost var s := Abs();
      CloseIsNext(c, s, st);
      if settling != [] && st.venue != settling[|settling| - 1].at.venue {
        return Failure(Busy);
      }
      var accounts := (ledgers, sessions, pools, lamports);
      r := Close(st, w);
      if r.Failure? {
        ledgers, sessions, pools, lamports := accounts.0, accounts.1, accounts.2, accounts.3;
      } else if Sound(c) && Inv(c, s) {
        CloseKeepsInv(c, s, st);
      }
    }
  }
}
