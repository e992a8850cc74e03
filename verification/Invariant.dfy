/** What holds in every state the vault can reach, and the proof that each instruction keeps it. */
module Invariant {
  import opened Base
  import opened Books
  import opened Chains
  import opened Machine
  import opened Receipts
  import opened Sessions
  import opened SlotTable
  import opened Totals

  // ---- The invariant, part by part ----

  /** A ledger sits at its owner's derived address; a program's names the one program that can sign
      for its owner; a person's names none and pays its own rent. */
  ghost predicate LedgerOk(c: Chain, addr: Key, a: Acct<Book>) {
    && BookOk(a.live)
    && addr == c.ledgerPda(a.live.owner)
    && a.live.pdaAuth == c.isPda(a.live.owner)
    && (a.live.pdaAuth ==> BelongsTo(c, a.live.owner, a.live.authorized))
    && (!a.live.pdaAuth ==> a.live.authorized == ZERO_KEY && a.live.rentPayer == a.live.owner)
  }

  ghost predicate LedgersOk(c: Chain, ls: map<Key, Acct<Book>>) {
    forall a :: a in ls ==> LedgerOk(c, a, ls[a])
  }

  ghost predicate SessionOk(c: Chain, addr: Key, a: SessionAccount<Store>) {
    && addr == c.sessionPda(a.store.owner)
    && !c.isPda(a.store.owner)
    && a.size == Space(|a.store.programs|)
    && a.lamports >= c.rent(a.size)
    && (forall p :: p in a.store.programs ==> GrantsOk(a.store.programs[p]))
  }

  ghost predicate SessionsOk(c: Chain, ss: map<Key, SessionAccount<Store>>) {
    forall a :: a in ss ==> SessionOk(c, a, ss[a])
  }

  ghost predicate PoolsOk(c: Chain, ps: map<Key, Pool>) {
    forall a :: a in ps ==> ps[a].mint != ZERO_KEY && a == c.reserveAddress(ps[a].mint, c.mintProgram(ps[a].mint))
  }

  ghost predicate ReceiptOk(c: Chain, clocks: map<Venue, Clock>, at: At, r: ReceiptAccount) {
    && Admitted(r.terms)
    && at.addr == c.receiptPda(r.terms.member, r.terms.consenter)
    && BelongsTo(c, r.terms.authority, r.terms.member)
    && r.terms.slot <= (if at.venue in clocks then clocks[at.venue].slot else 0)
  }

  ghost predicate ReceiptsOk(c: Chain, rs: map<At, ReceiptAccount>, clocks: map<Venue, Clock>) {
    forall at :: at in rs ==> ReceiptOk(c, clocks, at, rs[at])
  }

  /** The receipts whose callback is running are exactly the killed ones; all belong to the current
      slot of the one venue where the transaction runs. */
  ghost predicate SettlingOk(rs: map<At, ReceiptAccount>, settling: seq<Settlement>, clocks: map<Venue, Clock>) {
    && (forall i :: 0 <= i < |settling| ==>
          && settling[i].at in rs && !rs[settling[i].at].live
          && settling[i].at.venue == settling[0].at.venue
          && rs[settling[i].at].terms.slot
              == (if settling[i].at.venue in clocks then clocks[settling[i].at.venue].slot else 0))
    && (forall i, j :: 0 <= i < j < |settling| ==> settling[i].at != settling[j].at)
    && (forall at :: at in rs && !rs[at].live ==> exists i :: 0 <= i < |settling| && settling[i].at == at)
  }

  /** What backs the claims on a mint: the vault's lamports above its floor, or the mint's pool. */
  ghost function Backing(c: Chain, ps: map<Key, Pool>, lamports: u64, m: Key): nat {
    if m == ZERO_KEY then
      if lamports < c.Floor() then 0 else lamports - c.Floor()
    else
      var a := c.reserveAddress(m, c.mintProgram(m));
      if a in ps then ps[a].amount else 0
  }

  /** The live claims on every mint, wherever the ledgers are, never exceed what backs them. */
  ghost predicate Solvent(c: Chain, ls: map<Key, Acct<Book>>, ps: map<Key, Pool>, lamports: u64) {
    forall m: Key :: Total(ls, m) <= Backing(c, ps, lamports, m)
  }

  ghost predicate Inv(c: Chain, s: State) {
    && LedgersOk(c, s.ledgers)
    && SessionsOk(c, s.sessions)
    && PoolsOk(c, s.pools)
    && ReceiptsOk(c, s.receipts, s.clocks)
    && SettlingOk(s.receipts, s.settling, s.clocks)
    && Solvent(c, s.ledgers, s.pools, s.lamports)
  }

  /** A vault nobody has used yet. */
  ghost predicate Genesis(c: Chain, s: State) {
    && s.ledgers == map[] && s.sessions == map[] && s.receipts == map[] && s.settling == []
    && PoolsOk(c, s.pools)
  }

  lemma GenesisInv(c: Chain, s: State)
    requires Genesis(c, s)
    ensures Inv(c, s)
  {
    forall m: Key
      ensures Total(s.ledgers, m) == 0
    {
      assert Column(s.ledgers, m) == map[];
    }
  }

  // ---- One ledger replaced ----

  lemma ReplaceKeepsSolvency(c: Chain, s: State, k: Key, a: Acct<Book>, ps: map<Key, Pool>, lamports: u64)
    requires Solvent(c, s.ledgers, s.pools, s.lamports)
    requires forall m: Key ::
               Balance(a.live, m) - (if k in s.ledgers then Balance(s.ledgers[k].live, m) else 0)
               <= Backing(c, ps, lamports, m) - Backing(c, s.pools, s.lamports, m)
    ensures Solvent(c, s.ledgers[k := a], ps, lamports)
  {
    forall m: Key
      ensures Total(s.ledgers[k := a], m) <= Backing(c, ps, lamports, m)
    {
      TotalUpdate(s.ledgers, k, a, m);
    }
  }

  /** One ledger and the reserves change together; everything else stands. */
  lemma ReplaceLedger(c: Chain, s: State, k: Key, a: Acct<Book>, ps: map<Key, Pool>, lamports: u64)
    requires Inv(c, s) && LedgerOk(c, k, a) && PoolsOk(c, ps)
    requires forall m: Key ::
               Balance(a.live, m) - (if k in s.ledgers then Balance(s.ledgers[k].live, m) else 0)
               <= Backing(c, ps, lamports, m) - Backing(c, s.pools, s.lamports, m)
    ensures Inv(c, s.(ledgers := s.ledgers[k := a], pools := ps, lamports := lamports))
  {
    ReplaceKeepsSolvency(c, s, k, a, ps, lamports);
    InvFrom(c, s, s.ledgers[k := a], ps, lamports);
  }

  lemma ReplaceSession(c: Chain, s: State, k: Key, a: SessionAccount<Store>)
    requires Inv(c, s) && SessionOk(c, k, a)
    ensures Inv(c, s.(sessions := s.sessions[k := a]))
  {
    assert SessionsOk(c, s.sessions[k := a]);
  }

  /** More in reserve never hurts. */
  lemma MoreBacking(c: Chain, s: State, ps: map<Key, Pool>, lamports: u64)
    requires Inv(c, s) && PoolsOk(c, ps)
    requires forall m: Key :: Backing(c, s.pools, s.lamports, m) <= Backing(c, ps, lamports, m)
    ensures Inv(c, s.(pools := ps, lamports := lamports))
  {
    assert Solvent(c, s.ledgers, ps, lamports);
  }

  /** Backing of every mint but one is untouched when only that mint's reserve changes. */
  lemma BackingOfOthers(c: Chain, ps: map<Key, Pool>, lamports: u64, mint: Key, p: Pool, m: Key)
    requires Sound(c) && mint != ZERO_KEY
    ensures var a := c.reserveAddress(mint, c.mintProgram(mint));
            Backing(c, ps[a := p], lamports, m) ==
              if m == mint then p.amount else Backing(c, ps, lamports, m)
  {
  }

  // ---- Deposit and withdraw ----

  lemma FreshBookOk(owner: Key, pda: bool, rentPayer: Key, authorized: Key, slots: nat)
    requires slots > 0
    ensures BookOk(NewBook(owner, pda, rentPayer, authorized, slots))
    ensures forall m: Key :: Balance(NewBook(owner, pda, rentPayer, authorized, slots), m) == 0
  {
  }

  lemma HeadroomEffect(b: Book, v: Venue, payer: Key, minFree: nat, slotIncrease: nat, funded: bool)
    requires BookOk(b) && EnsureHeadroom(b, v, payer, minFree, slotIncrease, funded).Success?
    ensures var b' := EnsureHeadroom(b, v, payer, minFree, slotIncrease, funded).value;
            BookOk(b') && b' == b.(capacity := b'.capacity) && b.capacity <= b'.capacity
            && (minFree > 0 ==> Room(b') > 0)
  {
  }

  lemma WithSessionKeepsInv(c: Chain, s: State, owner: Key, session: Key, prefunded: nat, funded: bool)
    requires Inv(c, s) && !c.isPda(owner)
    requires WithSession(c, s, owner, session, prefunded, funded).Success?
    ensures var s' := WithSession(c, s, owner, session, prefunded, funded).value;
            Inv(c, s') && s' == s.(sessions := s'.sessions)
            && session in s'.sessions && session == c.sessionPda(owner)
  {
    if session !in s.sessions {
      ReplaceSession(c, s, session, FreshSession(c, owner, prefunded));
    }
  }

  /** What comes in backs exactly the credit it pays for. */
  lemma TakeInBacks(c: Chain, s: State, op: Op)
    requires Sound(c) && PoolsOk(c, s.pools) && op.Deposit? && TakeIn(c, s, op).Success?
    ensures var s' := TakeIn(c, s, op).value;
            s' == s.(pools := s'.pools, lamports := s'.lamports) && PoolsOk(c, s'.pools)
    ensures var s' := TakeIn(c, s, op).value;
            forall m: Key :: Backing(c, s'.pools, s'.lamports, m) ==
              Backing(c, s.pools, s.lamports, m) + (if m == op.mint then op.amount else 0)
  {
    if op.mint != ZERO_KEY {
      var s' := TakeIn(c, s, op).value;
      var p := s'.pools[op.vaultToken];
      forall m: Key
        ensures Backing(c, s'.pools, s'.lamports, m) ==
                  Backing(c, s.pools, s.lamports, m) + (if m == op.mint then op.amount else 0)
      {
        BackingOfOthers(c, s.pools, s.lamports, op.mint, p, m);
      }
    }
  }

  /** The book a deposit ends with: the old one, or a fresh one, with `amount` more of `mint`. */
  lemma DepositBookEffect(c: Chain, s: State, st: Step)
    requires LedgersOk(c, s.ledgers) && st.op.Deposit? && DepositBook(c, s, st).Success?
    requires !c.isPda(st.op.owner) && st.op.ledger == c.ledgerPda(st.op.owner)
    requires forall a, b :: c.ledgerPda(a) == c.ledgerPda(b) ==> a == b
    requires RoomFor(DepositBook(c, s, st).value, st).Success?
    requires Credit(RoomFor(DepositBook(c, s, st).value, st).value, st.op.mint, st.op.amount).Success?
    ensures var op := st.op;
            var b := Credit(RoomFor(DepositBook(c, s, st).value, st).value, op.mint, op.amount).value;
            LedgerOk(c, op.ledger, Acct(b, Home)) && b.owner == op.owner
            && forall m: Key :: Balance(b, m) ==
                 (if op.ledger in s.ledgers then Balance(s.ledgers[op.ledger].live, m) else 0)
                 + (if m == op.mint then op.amount else 0)
  {
    var op := st.op;
    var b0 := DepositBook(c, s, st).value;
    if op.ledger !in s.ledgers {
      FreshBookOk(op.owner, false, op.owner, ZERO_KEY, DEFAULT_SLOTS);
    }
    RoomForEffect(b0, st);
    CreditEffect(RoomFor(b0, st).value, op.mint, op.amount);
  }

  lemma RoomForEffect(b: Book, st: Step)
    requires BookOk(b) && st.op.Deposit? && RoomFor(b, st).Success?
    ensures var b' := RoomFor(b, st).value;
            BookOk(b') && b' == b.(capacity := b'.capacity, claims := b'.claims)
            && (forall m: Key :: Balance(b', m) == Balance(b, m))
  {
    var op := st.op;
    var minFree := if op.band.Some? then op.band.value else DEFAULT_MIN_FREE;
    var slotIncrease := if op.growth.Some? then op.growth.value else DEFAULT_SLOTS;
    HeadroomEffect(b, st.venue, op.owner, minFree, slotIncrease, op.funded);
    ClaimEffect(EnsureHeadroom(b, st.venue, op.owner, minFree, slotIncrease, op.funded).value, op.mint);
  }

  lemma DepositKeepsInv(c: Chain, s: State, st: Step)
    requires Sound(c) && Inv(c, s) && st.op.Deposit? && NextDeposit(c, s, st).Success?
    ensures Inv(c, NextDeposit(c, s, st).value)
  {
    var op := st.op;
    DepositResult(c, s, st);
    DepositEnds(c, s, st, WithSession(c, s, op.owner, op.session, op.prefunded, op.funded).value);
  }

  lemma DepositEnds(c: Chain, s: State, st: Step, s1: State)
    requires Sound(c) && Inv(c, s) && st.op.Deposit?
    requires !c.isPda(st.op.owner) && st.op.ledger == c.ledgerPda(st.op.owner)
    requires WithSession(c, s, st.op.owner, st.op.session, st.op.prefunded, st.op.funded) == Success(s1)
    requires DepositBook(c, s, st).Success? && RoomFor(DepositBook(c, s, st).value, st).Success?
    requires TakeIn(c, s1, st.op).Success?
    requires Credit(RoomFor(DepositBook(c, s, st).value, st).value, st.op.mint, st.op.amount).Success?
    ensures var b := Credit(RoomFor(DepositBook(c, s, st).value, st).value, st.op.mint, st.op.amount).value;
            var s2 := TakeIn(c, s1, st.op).value;
            Inv(c, s1.(ledgers := s.ledgers[st.op.ledger := Acct(b, Home)], pools := s2.pools, lamports := s2.lamports))
  {
    var op := st.op;
    WithSessionKeepsInv(c, s, op.owner, op.session, op.prefunded, op.funded);
    DepositBookEffect(c, s, st);
    var b := Credit(RoomFor(DepositBook(c, s, st).value, st).value, op.mint, op.amount).value;
    CreditedAndBacked(c, s1, op, TakeIn(c, s1, op).value, Acct(b, Home));
  }

  /** A credit and the transfer that pays for it, together. */
  lemma CreditedAndBacked(c: Chain, s: State, op: Op, s': State, a: Acct<Book>)
    requires Sound(c) && Inv(c, s) && op.Deposit? && TakeIn(c, s, op) == Success(s') && LedgerOk(c, op.ledger, a)
    requires forall m: Key :: Balance(a.live, m) ==
               (if op.ledger in s.ledgers then Balance(s.ledgers[op.ledger].live, m) else 0)
               + (if m == op.mint then op.amount else 0)
    ensures Inv(c, s.(ledgers := s.ledgers[op.ledger := a], pools := s'.pools, lamports := s'.lamports))
  {
    TakeInBacks(c, s, op);
    ReplaceLedger(c, s, op.ledger, a, s'.pools, s'.lamports);
  }

  lemma DepositResult(c: Chain, s: State, st: Step)
    requires st.op.Deposit? && NextDeposit(c, s, st).Success?
    ensures var op := st.op;
            var s1 := WithSession(c, s, op.owner, op.session, op.prefunded, op.funded);
            && s1.Success? && DepositBook(c, s, st).Success? && RoomFor(DepositBook(c, s, st).value, st).Success?
            && TakeIn(c, s1.value, op).Success?
            && Credit(RoomFor(DepositBook(c, s, st).value, st).value, op.mint, op.amount).Success?
            && var s2 := TakeIn(c, s1.value, op).value;
            var b := Credit(RoomFor(DepositBook(c, s, st).value, st).value, op.mint, op.amount).value;
            NextDeposit(c, s, st).value ==
              s1.value.(ledgers := s.ledgers[op.ledger := Acct(b, Home)], pools := s2.pools, lamports := s2.lamports)
  {
  }

  lemma PayOutBacks(c: Chain, s: State, op: Op)
    requires Sound(c) && PoolsOk(c, s.pools) && op.Withdraw? && PayOut(c, s, op).Success?
    ensures var s' := PayOut(c, s, op).value;
            s' == s.(pools := s'.pools, lamports := s'.lamports) && PoolsOk(c, s'.pools)
    ensures var s' := PayOut(c, s, op).value;
            forall m: Key :: Backing(c, s'.pools, s'.lamports, m) ==
              Backing(c, s.pools, s.lamports, m) - (if m == op.mint then op.amount else 0)
  {
    if op.mint != ZERO_KEY {
      var s' := PayOut(c, s, op).value;
      var p := s'.pools[op.vaultToken];
      forall m: Key
        ensures Backing(c, s'.pools, s'.lamports, m) ==
                  Backing(c, s.pools, s.lamports, m) - (if m == op.mint then op.amount else 0)
      {
        BackingOfOthers(c, s.pools, s.lamports, op.mint, p, m);
      }
    }
  }

  lemma WithdrawKeepsInv(c: Chain, s: State, st: Step)
    requires Sound(c) && Inv(c, s) && st.op.Withdraw? && NextWithdraw(c, s, st).Success?
    ensures Inv(c, NextWithdraw(c, s, st).value)
  {
    var op := st.op;
    var l := s.ledgers[op.ledger];
    DebitEffect(l.live, op.mint, op.amount);
    PayOutBacks(c, s, op);
    var s' := PayOut(c, s, op).value;
    ReplaceLedger(c, s, op.ledger, l.(live := Debit(l.live, op.mint, op.amount).value), s'.pools, s'.lamports);
  }

  // ---- Close ----

  /** Paying a book out of the reserves takes from each mint's backing exactly what it was owed. */
  lemma DrainedBacks(c: Chain, s: State, b: Book, lamports: u64, m: Key)
    requires Sound(c) && PoolsOk(c, s.pools) && PoolsCover(c, s.pools, b) && BookOk(b)
    requires Spendable(c, s.lamports) >= Balance(b, ZERO_KEY) && lamports == s.lamports - Balance(b, ZERO_KEY)
    ensures Backing(c, Drained(s.pools, b), lamports, m) == Backing(c, s.pools, s.lamports, m) - Balance(b, m)
  {
    if m != ZERO_KEY {
      var a := c.reserveAddress(m, c.mintProgram(m));
      if a in s.pools {
        assert s.pools[a].mint == m;
      }
    }
  }

  lemma CloseKeepsSolvency(c: Chain, s: State, k: Key, b: Book, ls: map<Key, Acct<Book>>, ps: map<Key, Pool>,
      lamports: u64)
    requires Sound(c) && PoolsOk(c, s.pools) && Solvent(c, s.ledgers, s.pools, s.lamports)
    requires k in s.ledgers && b == s.ledgers[k].live && BookOk(b) && PoolsCover(c, s.pools, b)
    requires Spendable(c, s.lamports) >= Balance(b, ZERO_KEY)
    requires ls == s.ledgers - {k} && ps == Drained(s.pools, b) && lamports == s.lamports - Balance(b, ZERO_KEY)
    ensures Solvent(c, ls, ps, lamports)
  {
    forall m: Key
      ensures Total(ls, m) <= Backing(c, ps, lamports, m)
    {
      TotalRemove(s.ledgers, k, m);
      DrainedBacks(c, s, b, lamports, m);
    }
  }

  lemma CloseLedger(c: Chain, s: State, k: Key, b: Book, ls: map<Key, Acct<Book>>, ps: map<Key, Pool>, lamports: u64)
    requires Sound(c) && Inv(c, s)
    requires k in s.ledgers && b == s.ledgers[k].live && PoolsCover(c, s.pools, b)
    requires Spendable(c, s.lamports) >= Balance(b, ZERO_KEY)
    requires ls == s.ledgers - {k} && ps == Drained(s.pools, b) && lamports == s.lamports - Balance(b, ZERO_KEY)
    ensures Inv(c, s.(ledgers := ls, pools := ps, lamports := lamports))
  {
    assert LedgerOk(c, k, s.ledgers[k]);
    CloseKeepsSolvency(c, s, k, b, ls, ps, lamports);
    InvFrom(c, s, ls, ps, lamports);
  }

  lemma CloseKeepsInv(c: Chain, s: State, st: Step)
    requires Sound(c) && Inv(c, s) && st.op.Close? && NextClose(c, s, st).Success?
    ensures Inv(c, NextClose(c, s, st).value)
  {
    var s' := NextClose(c, s, st).value;
    var k := st.op.ledger;
    CloseLedger(c, s, k, s.ledgers[k].live, s'.ledgers, s'.pools, s'.lamports);
    var s1 := s.(ledgers := s'.ledgers, pools := s'.pools, lamports := s'.lamports);
    DropSession(c, s1, st.op.session);
    assert s' == (if s.ledgers[k].live.pdaAuth then s1 else s1.(sessions := s1.sessions - {st.op.session}));
  }

  /** The parts of the invariant that speak of ledgers and reserves, put back with the rest. */
  lemma InvFrom(c: Chain, s: State, ls: map<Key, Acct<Book>>, ps: map<Key, Pool>, lamports: u64)
    requires Inv(c, s) && LedgersOk(c, ls) && PoolsOk(c, ps) && Solvent(c, ls, ps, lamports)
    ensures Inv(c, s.(ledgers := ls, pools := ps, lamports := lamports))
  {
  }

  lemma DropSession(c: Chain, s: State, k: Key)
    requires Inv(c, s)
    ensures Inv(c, s.(sessions := s.sessions - {k}))
  {
  }

  // ---- Opening, growing and moving ledgers ----

  lemma OpenWalletKeepsInv(c: Chain, s: State, st: Step)
    requires Sound(c) && Inv(c, s) && st.op.OpenWallet? && NextOpenWallet(c, s, st).Success?
    ensures Inv(c, NextOpenWallet(c, s, st).value)
  {
    var op := st.op;
    FreshBookOk(op.owner, false, op.owner, ZERO_KEY, op.slots);
    var a := Acct(NewBook(op.owner, false, op.owner, ZERO_KEY, op.slots), Home);
    ReplaceLedger(c, s, op.ledger, a, s.pools, s.lamports);
    WithSessionKeepsInv(c, s.(ledgers := s.ledgers[op.ledger := a]), op.owner, op.session, op.prefunded, op.funded);
  }

  lemma OpenPdaKeepsInv(c: Chain, s: State, st: Step)
    requires Sound(c) && Inv(c, s) && st.op.OpenPda? && NextOpenPda(c, s, st).Success?
    ensures Inv(c, NextOpenPda(c, s, st).value)
  {
    var op := st.op;
    assert BelongsTo(c, op.owner, op.member);
    FreshBookOk(op.owner, true, op.payer, op.member, op.slots);
    ReplaceLedger(c, s, op.ledger, Acct(NewBook(op.owner, true, op.payer, op.member, op.slots), Home), s.pools,
        s.lamports);
  }

  lemma GrowPdaKeepsInv(c: Chain, s: State, st: Step)
    requires Sound(c) && Inv(c, s) && st.op.GrowPda? && NextGrowPda(c, s, st).Success?
    ensures Inv(c, NextGrowPda(c, s, st).value)
  {
    var op := st.op;
    var l := s.ledgers[op.ledger];
    HeadroomEffect(l.live, st.venue, op.payer, op.minFree, op.slotIncrease, op.funded);
    var l' := EnsureHeadroom(l.live, st.venue, op.payer, op.minFree, op.slotIncrease, op.funded).value;
    ReplaceLedger(c, s, op.ledger, l.(live := l'), s.pools, s.lamports);
  }

  /** Delegating, undelegating and coming home change where a ledger is and nothing else. */
  lemma MovingHouseKeepsInv(c: Chain, s: State, k: Key, place: Place<Book>)
    requires Inv(c, s) && k in s.ledgers
    ensures Inv(c, s.(ledgers := s.ledgers[k := Acct(s.ledgers[k].live, place)]))
  {
    ReplaceLedger(c, s, k, Acct(s.ledgers[k].live, place), s.pools, s.lamports);
  }

  lemma DelegateKeepsInv(c: Chain, s: State, st: Step)
    requires Inv(c, s) && st.op.Delegate? && NextDelegate(c, s, st).Success?
    ensures Inv(c, NextDelegate(c, s, st).value)
  {
    MovingHouseKeepsInv(c, s, st.op.ledger, Away(st.op.validator, s.ledgers[st.op.ledger].live));
  }

  lemma UndelegateKeepsInv(c: Chain, s: State, st: Step)
    requires Inv(c, s) && st.op.Undelegate? && NextUndelegate(c, s, st).Success?
    ensures Inv(c, NextUndelegate(c, s, st).value)
  {
    var place := s.ledgers[st.op.ledger].place;
    MovingHouseKeepsInv(c, s, st.op.ledger, Returning(place.validator, place.base));
  }

  lemma FinishUndelegationKeepsInv(c: Chain, s: State, st: Step)
    requires Inv(c, s) && st.op.FinishUndelegation? && NextFinishUndelegation(s, st).Success?
    ensures Inv(c, NextFinishUndelegation(s, st).value)
  {
    MovingHouseKeepsInv(c, s, st.op.ledger, Home);
  }

  // ---- Settle and receipts ----

  lemma OnlyClaimsKeepsOk(c: Chain, ls: map<Key, Acct<Book>>, ls': map<Key, Acct<Book>>)
    requires LedgersOk(c, ls) && OnlyClaims(ls, ls') && BooksOk(ls')
    ensures LedgersOk(c, ls')
  {
  }

  lemma MoveKeepsSolvency(c: Chain, s: State, src: Key, dst: Key, mint: Key, amount: u64, ls: map<Key, Acct<Book>>)
    requires BooksOk(s.ledgers) && src in s.ledgers && dst in s.ledgers
    requires Solvent(c, s.ledgers, s.pools, s.lamports) && Move(s.ledgers, src, dst, mint, amount) == Success(ls)
    ensures Solvent(c, ls, s.pools, s.lamports)
  {
    forall m: Key
      ensures Total(ls, m) <= Backing(c, s.pools, s.lamports, m)
    {
      MoveKeepsTotals(s.ledgers, src, dst, mint, amount, m);
    }
  }

  lemma SettleKeepsInv(c: Chain, s: State, st: Step)
    requires Sound(c) && Inv(c, s) && st.op.Settle? && NextSettle(c, s, st).Success?
    ensures Inv(c, NextSettle(c, s, st).value)
  {
    var op := st.op;
    MoveShape(s.ledgers, op.src, op.dst, op.mint, op.amount);
    var ls := Move(s.ledgers, op.src, op.dst, op.mint, op.amount).value;
    OnlyClaimsKeepsOk(c, s.ledgers, ls);
    MoveKeepsSolvency(c, s, op.src, op.dst, op.mint, op.amount, ls);
    InvFrom(c, s, ls, s.pools, s.lamports);
    assert NextSettle(c, s, st).value == s.(ledgers := ls, pools := s.pools, lamports := s.lamports);
  }

  lemma BeginLedgersOk(c: Chain, s: State, st: Step)
    requires Sound(c) && Inv(c, s) && st.op.SettleBegin? && NextSettleBegin(c, s, st).Success?
    ensures var s' := NextSettleBegin(c, s, st).value;
            LedgersOk(c, s'.ledgers) && Solvent(c, s'.ledgers, s.pools, s.lamports)
  {
    var r := ReadReceipt(s, st.venue, st.op.receipt).value;
    var infos := st.op.remaining[..|r.owners|];
    MoveAllEffect(s.ledgers, infos, r.movements);
    var ls := MoveAll(s.ledgers, infos, r.movements).value;
    OnlyClaimsKeepsOk(c, s.ledgers, ls);
  }

  /** A live receipt of this slot may join the settlements under way. */
  lemma KillKeepsOk(c: Chain, rs: map<At, ReceiptAccount>, settling: seq<Settlement>, clocks: map<Venue,
      Clock>, next: Settlement)
    requires ReceiptsOk(c, rs, clocks) && SettlingOk(rs, settling, clocks)
    requires next.at in rs && rs[next.at].live
    requires rs[next.at].terms.slot == (if next.at.venue in clocks then clocks[next.at.venue].slot else 0)
    requires settling != [] ==> next.at.venue == settling[0].at.venue
    ensures var rs' := rs[next.at := ReceiptAccount(rs[next.at].terms, false)];
            ReceiptsOk(c, rs', clocks) && SettlingOk(rs', settling + [next], clocks)
  {
    var rs' := rs[next.at := ReceiptAccount(rs[next.at].terms, false)];
    var settling' := settling + [next];
    forall k | k in rs' && !rs'[k].live
      ensures exists i :: 0 <= i < |settling'| && settling'[i].at == k
    {
      if k == next.at {
        assert settling'[|settling|].at == k;
      } else {
        var i :| 0 <= i < |settling| && settling[i].at == k;
        assert settling'[i].at == k;
      }
    }
  }

  lemma BeginReceipts(c: Chain, s: State, st: Step)
    requires Inv(c, s) && st.op.SettleBegin? && !Blocked(s, st) && NextSettleBegin(c, s, st).Success?
    ensures var s' := NextSettleBegin(c, s, st).value;
            ReceiptsOk(c, s'.receipts, s.clocks) && SettlingOk(s'.receipts, s'.settling, s.clocks)
  {
    BeginReads(c, s, st);
    KillKeepsOk(c, s.receipts, s.settling, s.clocks, Settlement(At(st.venue, st.op.receipt), st.op.ephemeralVault));
  }

  /** What a settlement's begin reads, and what it leaves. */
  lemma BeginReads(c: Chain, s: State, st: Step)
    requires st.op.SettleBegin? && NextSettleBegin(c, s, st).Success?
    ensures var s' := NextSettleBegin(c, s, st).value; var at := At(st.venue, st.op.receipt);
            at in s.receipts && s.receipts[at].live
            && s.receipts[at].terms.slot == ClockOf(s, st.venue).slot
            && s' == s.(ledgers := s'.ledgers,
                        receipts := s.receipts[at := ReceiptAccount(s.receipts[at].terms, false)],
                        settling := s.settling + [Settlement(at, st.op.ephemeralVault)])
  {
  }

  lemma BeginKeepsInv(c: Chain, s: State, st: Step)
    requires Sound(c) && Inv(c, s) && st.op.SettleBegin? && !Blocked(s, st) && NextSettleBegin(c, s, st).Success?
    ensures Inv(c, NextSettleBegin(c, s, st).value)
  {
    BeginReads(c, s, st);
    BeginLedgersOk(c, s, st);
    BeginReceipts(c, s, st);
  }

  /** The settlement on top ends and its receipt goes. */
  lemma PopKeepsOk(c: Chain, rs: map<At, ReceiptAccount>, settling: seq<Settlement>, clocks: map<Venue, Clock>)
    requires ReceiptsOk(c, rs, clocks) && SettlingOk(rs, settling, clocks) && settling != []
    ensures var last := |settling| - 1; var rest := rs - {settling[last].at};
            ReceiptsOk(c, rest, clocks) && SettlingOk(rest, settling[..last], clocks)
  {
    var n := |settling| - 1;
    var rest := rs - {settling[n].at};
    forall k | k in rest && !rest[k].live
      ensures exists i :: 0 <= i < n && settling[..n][i].at == k
    {
      var i :| 0 <= i < |settling| && settling[i].at == k;
      assert settling[..n][i].at == k;
    }
  }

  lemma EndKeepsInv(c: Chain, s: State)
    requires Inv(c, s) && NextSettleEnd(c, s).Success?
    ensures Inv(c, NextSettleEnd(c, s).value)
  {
    PopKeepsOk(c, s.receipts, s.settling, s.clocks);
  }

  /** A receipt whose slot has passed is debris: writing over it disturbs no settlement. */
  lemma WriteReceiptKeepsOk(c: Chain, rs: map<At, ReceiptAccount>, settling: seq<Settlement>,
      clocks: map<Venue, Clock>, at: At, r: ReceiptAccount)
    requires ReceiptsOk(c, rs, clocks) && SettlingOk(rs, settling, clocks)
    requires ReceiptOk(c, clocks, at, r) && r.live
    requires at in rs ==> rs[at].terms.slot != (if at.venue in clocks then clocks[at.venue].slot else 0)
    ensures ReceiptsOk(c, rs[at := r], clocks) && SettlingOk(rs[at := r], settling, clocks)
  {
  }

  lemma CreateReceiptKeepsInv(c: Chain, s: State, st: Step)
    requires Sound(c) && Inv(c, s) && st.op.CreateReceipt? && NextCreateReceipt(c, s, st).Success?
    ensures Inv(c, NextCreateReceipt(c, s, st).value)
  {
    var op := st.op;
    var s' := NextCreateReceipt(c, s, st).value;
    var at := At(st.venue, op.receipt);
    assert BelongsTo(c, op.authority, op.member);
    assert ReceiptOk(c, s.clocks, at, s'.receipts[at]);
    WriteReceiptKeepsOk(c, s.receipts, s.settling, s.clocks, at, s'.receipts[at]);
  }

  /** A live receipt can be removed: no settlement is using it. */
  lemma RemoveReceiptKeepsOk(c: Chain, rs: map<At, ReceiptAccount>, settling: seq<Settlement>,
      clocks: map<Venue, Clock>, at: At)
    requires ReceiptsOk(c, rs, clocks) && SettlingOk(rs, settling, clocks)
    requires at in rs && rs[at].live
    ensures ReceiptsOk(c, rs - {at}, clocks) && SettlingOk(rs - {at}, settling, clocks)
  {
  }

  lemma ReapKeepsInv(c: Chain, s: State, st: Step)
    requires Inv(c, s) && st.op.Reap? && NextReap(c, s, st).Success?
    ensures Inv(c, NextReap(c, s, st).value)
  {
    var at := At(st.venue, st.op.receipt);
    if at in s.receipts && s.receipts[at].live {
      RemoveReceiptKeepsOk(c, s.receipts, s.settling, s.clocks, at);
    }
    assert NextReap(c, s, st).value == s || NextReap(c, s, st).value == s.(receipts := s.receipts - {at});
  }

  // ---- Session stores ----

  lemma AuthorizedKeepsOk(c: Chain, addr: Key, a: SessionAccount<Store>, program: Key, key: Key,
      expiresAt: i64, funded: bool)
    requires SessionOk(c, addr, a) && key != ZERO_KEY && Authorized(c, a, program, key, expiresAt, funded).Success?
    ensures SessionOk(c, addr, Authorized(c, a, program, key, expiresAt, funded).value)
  {
    GrantKeepsOk(ProgramGrants(a.store, program), key, expiresAt);
    if program in a.store.programs {
      SameSize(Authorized(c, a, program, key, expiresAt, funded).value.store.programs, a.store.programs);
    }
  }

  lemma RevokedKeepsOk(c: Chain, addr: Key, a: SessionAccount<Store>, program: Key, key: Key)
    requires Sound(c) && SessionOk(c, addr, a)
    ensures SessionOk(c, addr, Revoked(c, a, program, key))
  {
    if program in a.store.programs {
      if key == ZERO_KEY {
        var programs := a.store.programs - {program};
        assert a.store.programs == programs[program := a.store.programs[program]];
        assert c.rent(Space(|programs|)) <= c.rent(Space(|a.store.programs|));
      } else {
        RevokeKeepsOk(a.store.programs[program], key);
        SameSize(Revoked(c, a, program, key).store.programs, a.store.programs);
      }
    }
  }

  /** A grant is made in the store there is, or in one made for it. */
  lemma AuthorizeResult(c: Chain, s: State, st: Step, s1: State)
    requires st.op.Authorize? && NextAuthorize(c, s, st).Success?
    requires st.op.session in s.sessions ==> s1 == s
    requires st.op.session !in s.sessions ==>
               WithSession(c, s, st.op.owner, st.op.session, st.op.prefunded, st.op.funded) == Success(s1)
    ensures var op := st.op;
            && op.session in s1.sessions
            && var a := Authorized(c, s1.sessions[op.session], op.program, op.key, op.expiresAt, op.funded);
            a.Success? && NextAuthorize(c, s, st).value == s1.(sessions := s1.sessions[op.session := a.value])
  {
  }

  lemma AuthorizeChecks(c: Chain, s: State, st: Step)
    requires st.op.Authorize? && NextAuthorize(c, s, st).Success?
    ensures st.op.key != ZERO_KEY && !c.isPda(st.op.owner)
    ensures st.op.session !in s.sessions ==>
              WithSession(c, s, st.op.owner, st.op.session, st.op.prefunded, st.op.funded).Success?
  {
  }

  lemma AuthorizeKeepsInv(c: Chain, s: State, st: Step)
    requires Sound(c) && Inv(c, s) && st.op.Authorize? && NextAuthorize(c, s, st).Success?
    ensures Inv(c, NextAuthorize(c, s, st).value)
  {
    var op := st.op;
    AuthorizeChecks(c, s, st);
    var s1 := s;
    if op.session !in s.sessions {
      WithSessionKeepsInv(c, s, op.owner, op.session, op.prefunded, op.funded);
      s1 := WithSession(c, s, op.owner, op.session, op.prefunded, op.funded).value;
    }
    AuthorizeResult(c, s, st, s1);
    GrantAsLoaded(c, s1, op.session, op.program, op.key, op.expiresAt, op.funded);
  }

  lemma GrantAsLoaded(c: Chain, s: State, session: Key, program: Key, key: Key, expiresAt: i64, funded: bool)
    requires Inv(c, s) && session in s.sessions && key != ZERO_KEY
    requires Authorized(c, s.sessions[session], program, key, expiresAt, funded).Success?
    ensures Inv(c, s.(sessions
              := s.sessions[session := Authorized(c, s.sessions[session], program, key, expiresAt, funded).value]))
  {
    AuthorizedKeepsOk(c, session, s.sessions[session], program, key, expiresAt, funded);
    ReplaceSession(c, s, session, Authorized(c, s.sessions[session], program, key, expiresAt, funded).value);
  }

  lemma RevokeKeepsInv(c: Chain, s: State, st: Step)
    requires Sound(c) && Inv(c, s) && st.op.Revoke? && NextRevoke(c, s, st).Success?
    ensures Inv(c, NextRevoke(c, s, st).value)
  {
    RevokedKeepsOk(c, st.op.session, s.sessions[st.op.session], st.op.program, st.op.key);
    ReplaceSession(c, s, st.op.session, Revoked(c, s.sessions[st.op.session], st.op.program, st.op.key));
  }

  lemma SameSize<T>(f: map<Key, T>, g: map<Key, T>)
    requires f.Keys == g.Keys
    ensures |f| == |g|
  {
    assert |f.Keys| == |g.Keys|;
  }

  // ---- The world ----

  lemma InitializeKeepsInv(c: Chain, s: State, st: Step)
    requires Inv(c, s) && st.op.InitializeVault? && NextInitializeVault(c, s, st).Success?
    ensures Inv(c, NextInitializeVault(c, s, st).value)
  {
    MoreBacking(c, s, s.pools, NextInitializeVault(c, s, st).value.lamports);
  }

  lemma TickKeepsInv(c: Chain, s: State, st: Step)
    requires Inv(c, s) && st.op.Tick? && !Blocked(s, st) && NextTick(s, st).Success?
    ensures Inv(c, NextTick(s, st).value)
  {
  }

  lemma LargerPoolBacks(c: Chain, ps: map<Key, Pool>, lamports: u64, a: Key, p: Pool)
    requires PoolsOk(c, ps)
    requires a in ps ==> p.mint == ps[a].mint && p.amount >= ps[a].amount
    requires a !in ps ==> p.mint != ZERO_KEY && a == c.reserveAddress(p.mint, c.mintProgram(p.mint))
    ensures PoolsOk(c, ps[a := p])
    ensures forall m: Key :: Backing(c, ps, lamports, m) <= Backing(c, ps[a := p], lamports, m)
  {
  }

  lemma DonateKeepsInv(c: Chain, s: State, st: Step)
    requires Inv(c, s) && st.op.Donate? && NextDonate(s, st).Success?
    ensures Inv(c, NextDonate(s, st).value)
  {
    var s' := NextDonate(s, st).value;
    if st.op.target.Some? {
      var a := st.op.target.value;
      LargerPoolBacks(c, s.pools, s.lamports, a, s'.pools[a]);
      assert s'.pools == s.pools[a := s'.pools[a]];
    }
    MoreBacking(c, s, s'.pools, s'.lamports);
    assert s' == s.(pools := s'.pools, lamports := s'.lamports);
  }

  lemma CreateReserveKeepsInv(c: Chain, s: State, st: Step)
    requires Inv(c, s) && st.op.CreateReserve? && NextCreateReserve(c, s, st).Success?
    ensures Inv(c, NextCreateReserve(c, s, st).value)
  {
    var mint := st.op.mint;
    var a := c.reserveAddress(mint, c.mintProgram(mint));
    if a !in s.pools {
      LargerPoolBacks(c, s.pools, s.lamports, a, Pool(mint, 0));
      MoreBacking(c, s, s.pools[a := Pool(mint, 0)], s.lamports);
    }
  }

  lemma LedgerStepKeepsInv(c: Chain, s: State, st: Step)
    requires Sound(c) && Inv(c, s) && Next(c, s, st).Success?
    requires st.op.OpenWallet? || st.op.OpenPda? || st.op.GrowPda? || st.op.Deposit? || st.op.Withdraw? || st.op.Close?
    ensures Inv(c, Next(c, s, st).value)
  {
    match st.op
    case OpenWallet(_, _, _, _, _, _) => OpenWalletKeepsInv(c, s, st);
    case OpenPda(_, _, _, _, _, _, _) => OpenPdaKeepsInv(c, s, st);
    case GrowPda(_, _, _, _, _, _) => GrowPdaKeepsInv(c, s, st);
    case Deposit(_, _, _, _, _, _, _, _, _, _, _, _, _, _) => DepositKeepsInv(c, s, st);
    case Withdraw(_, _, _, _, _, _, _, _, _, _) => WithdrawKeepsInv(c, s, st);
    case Close(_, _, _, _, _, _, _, _) => CloseKeepsInv(c, s, st);
  }

  lemma SettleStepKeepsInv(c: Chain, s: State, st: Step)
    requires Sound(c) && Inv(c, s) && Next(c, s, st).Success?
    requires st.op.Settle? || st.op.CreateReceipt? || st.op.SettleBegin? || st.op.SettleEnd? || st.op.Reap?
    ensures Inv(c, Next(c, s, st).value)
  {
    match st.op
    case Settle(_, _, _, _, _, _, _) => SettleKeepsInv(c, s, st);
    case CreateReceipt(_, _, _, _, _, _, _, _, _, _, _) => CreateReceiptKeepsInv(c, s, st);
    case SettleBegin(_, _, _, _, _, _, _) => BeginKeepsInv(c, s, st);
    case SettleEnd => EndKeepsInv(c, s);
    case Reap(_, _, _) => ReapKeepsInv(c, s, st);
  }

  lemma HouseStepKeepsInv(c: Chain, s: State, st: Step)
    requires Sound(c) && Inv(c, s) && Next(c, s, st).Success?
    requires st.op.Delegate? || st.op.Undelegate? || st.op.FinishUndelegation?
    ensures Inv(c, Next(c, s, st).value)
  {
    match st.op
    case Delegate(_, _, _, _) => DelegateKeepsInv(c, s, st);
    case Undelegate(_, _) => UndelegateKeepsInv(c, s, st);
    case FinishUndelegation(_) => FinishUndelegationKeepsInv(c, s, st);
  }

  /** Every instruction, whoever sends it and whatever accounts it is given, keeps the invariant. */
  lemma NextKeepsInv(c: Chain, s: State, st: Step)
    requires Sound(c) && Inv(c, s) && Next(c, s, st).Success?
    ensures Inv(c, Next(c, s, st).value)
  {
    var op := st.op;
    if op.OpenWallet? || op.OpenPda? || op.GrowPda? || op.Deposit? || op.Withdraw? || op.Close? {
      LedgerStepKeepsInv(c, s, st);
    } else if op.Settle? || op.CreateReceipt? || op.SettleBegin? || op.SettleEnd? || op.Reap? {
      SettleStepKeepsInv(c, s, st);
    } else if op.Authorize? {
      AuthorizeKeepsInv(c, s, st);
    } else if op.Revoke? {
      RevokeKeepsInv(c, s, st);
    } else if op.Delegate? || op.Undelegate? || op.FinishUndelegation? {
      HouseStepKeepsInv(c, s, st);
    } else if op.InitializeVault? {
      InitializeKeepsInv(c, s, st);
    } else if op.Tick? {
      TickKeepsInv(c, s, st);
    } else if op.Donate? {
      DonateKeepsInv(c, s, st);
    } else {
      CreateReserveKeepsInv(c, s, st);
    }
  }
}
