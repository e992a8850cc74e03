/** The whole vault as a state machine. A state holds every ledger with its live book and, while it
    is away on a rollup, the stale copy basenet still shows; the session stores; the reserves; the
    receipts; and the settlements whose callback is running. `Next` is one instruction. A receipt's
    settlement is two steps, `SettleBegin` and `SettleEnd`, and everything between them is what its
    callback did. */
module Machine {
  import opened Base
  import opened Books
  import opened Chains
  import opened Receipts
  import opened Sessions
  import opened SlotTable

  datatype Venue = Basenet | Rollup(validator: Key)

  /** Where the live ledger is. `base` is the copy basenet shows meanwhile. */
  datatype Place<+T> = Home | Away(validator: Key, base: T) | Returning(validator: Key, base: T)

  datatype Acct<+T> = Acct(live: T, place: Place<T>)

  datatype SessionAccount<+T> = SessionAccount(store: T, size: nat, lamports: nat)

  /** One of the vault's token accounts. */
  datatype Pool = Pool(mint: Key, amount: u64)

  datatype At = At(venue: Venue, addr: Key)

  /** `live` until settlement zeroes the discriminator. */
  datatype ReceiptAccount = ReceiptAccount(terms: Receipt, live: bool)

  datatype Settlement = Settlement(at: At, ephemeralVault: Key)

  datatype Clock = Clock(slot: u64, unix: i64)

  datatype State = State(
    ledgers: map<Key, Acct<Book>>,
    sessions: map<Key, SessionAccount<Store>>,
    pools: map<Key, Pool>,
    lamports: u64,
    receipts: map<At, ReceiptAccount>,
    settling: seq<Settlement>,
    clocks: map<Venue, Clock>)

  /** The fields a handler reads off a wallet's token account. */
  datatype TokenAccount = TokenAccount(mint: Key, owner: Key, program: Key)

  /** `funded` and `delivered` say whether the System or token program could carry out the transfers
      the instruction asks of a wallet; `mintGiven` whether the mint account was appended. */
  datatype Op =
    | InitializeVault(payer: Key, vault: Key, funded: bool)
    | OpenWallet(owner: Key, ledger: Key, session: Key, slots: nat, prefunded: nat, funded: bool)
    | OpenPda(owner: Key, payer: Key, ledger: Key, slots: nat, member: Key, seeds: seq<seq<byte>>, funded: bool)
    | GrowPda(owner: Key, payer: Key, ledger: Key, minFree: nat, slotIncrease: nat, funded: bool)
    | Deposit(owner: Key, ledger: Key, vault: Key, vaultToken: Key, ownerToken: TokenAccount,
        tokenProgram: Key, session: Key, mintGiven: bool, mint: Key, amount: u64,
        band: Option<nat>, growth: Option<nat>, prefunded: nat, funded: bool)
    | Withdraw(owner: Key, ledger: Key, vault: Key, vaultToken: Key, ownerToken: TokenAccount,
        tokenProgram: Key, mintGiven: bool, mint: Key, amount: u64, delivered: bool)
    | Settle(src: Key, dst: Key, srcAuthority: Key, dstConsenter: Key, keyStore: Option<Key>,
        mint: Key, amount: u64)
    | CreateReceipt(authority: Key, authorityLedger: Key, consenter: Key, receipt: Key,
        ephemeralVault: Key, movements: seq<Movement>, member: Key, seeds: seq<seq<byte>>,
        owners: seq<Key>, callbackDisc: seq<byte>, args: seq<byte>)
    | SettleBegin(receipt: Key, authority: Key, consenter: Key, callbackProgram: Key,
        vaultAuthority: Key, ephemeralVault: Key, remaining: seq<Key>)
    | SettleEnd
    | Reap(receipt: Key, authorityLedger: Key, ephemeralVault: Key)
    | Authorize(session: Key, owner: Key, program: Key, key: Key, expiresAt: i64, prefunded: nat, funded: bool)
    | Revoke(session: Key, owner: Key, program: Key, key: Key)
    | Delegate(payer: Key, owner: Key, ledger: Key, validator: Key)
    | Undelegate(payer: Key, ledger: Key)
    | FinishUndelegation(ledger: Key)
    | Close(owner: Key, rentPayer: Key, ledger: Key, vault: Key, tokenProgram: Key, session: Key,
        sweep: Option<Error>, delivered: bool)
      // The world around the program.
    | Tick(clock: Clock)
    | Donate(target: Option<Key>, amount: u64)
    | CreateReserve(mint: Key)

  /** One instruction: where it runs, who signed, and what it asks. */
  datatype Step = Step(venue: Venue, signers: set<Key>, op: Op)

  const DEFAULT_SLOTS: nat := 32
  const DEFAULT_MIN_FREE: nat := 16
  const MAX_SLOT_INCREASE: nat := 256
  const MAX_GROWTH: nat := 256

  function ClockOf(s: State, v: Venue): Clock {
    if v in s.clocks then s.clocks[v] else Clock(0, 0)
  }

  // ---- Loading and checking accounts ----

  /** A ledger is usable where its live copy is: on basenet at home, on a rollup while delegated to it. */
  predicate Here<T>(a: Acct<T>, v: Venue) {
    match v
    case Basenet => a.place.Home?
    case Rollup(val) => a.place.Away? && a.place.validator == val
  }

  function NotHere(v: Venue, whenHome: Error): Error {
    if v.Basenet? then whenHome else NotWritable
  }

  /** What reading a ledger fails with on an account that is not one. */
  function NotALedger(s: State, v: Venue, addr: Key): Error {
    if addr in s.sessions || At(v, addr) in s.receipts then InvalidAccountData else BadLedgerOwner
  }

  function LoadChecked(c: Chain, s: State, v: Venue, addr: Key): (r: Result<Book>)
    ensures r.Success? ==> addr in s.ledgers && r.value == s.ledgers[addr].live && Here(s.ledgers[addr], v)
  {
    if addr !in s.ledgers then Failure(NotALedger(s, v, addr))
    else if !Here(s.ledgers[addr], v) then Failure(NotHere(v, BadLedgerOwner))
    else if c.ledgerPda(s.ledgers[addr].live.owner) != addr then Failure(BadLedgerOwner)
    else Success(s.ledgers[addr].live)
  }

  /** The reserve of `mint`: the vault's canonical token account and no other. */
  function RequireReserve(c: Chain, pools: map<Key, Pool>, info: Key, mint: Key, program: Key): (r: Result<u64>)
    ensures r.Success? ==> info in pools && pools[info] == Pool(mint, r.value)
    ensures r.Success? ==> info == c.reserveAddress(mint, program)
  {
    if info != c.reserveAddress(mint, program) then Failure(NotCanonicalReserve)
    else if info !in pools || pools[info].mint != mint then Failure(MintMismatch)
    else Success(pools[info].amount)
  }

  function Spendable(c: Chain, lamports: u64): u64 {
    if lamports < c.Floor() then 0 else lamports - c.Floor()
  }

  /** `consenter` is the owner, or a key the owner's store honours for `program` now. */
  function MayConsent(c: Chain, s: State, v: Venue, session: Key, owner: Key, consenter: Key,
      program: Key): Result<bool> {
    if consenter == owner then Success(true)
    else if session != c.sessionPda(owner) then Failure(InvalidSeeds)
    else if session !in s.sessions then Success(false)
    else Success(Allows(s.sessions[session].store, consenter, program, ClockOf(s, v).unix))
  }

  function EnsureHeadroom(b: Book, v: Venue, payer: Key, minFree: nat, slotIncrease: nat, funded: bool): Result<Book> {
    if payer != b.rentPayer then Failure(NotRentPayer)
    else if Room(b) >= minFree then Success(b)
    else if slotIncrease == 0 || slotIncrease > MAX_SLOT_INCREASE then Failure(BadSlotCount)
    else if !v.Basenet? then Failure(NotWritable)
    else if !funded then Failure(CpiFailed)
    else Success(b.(capacity := b.capacity + slotIncrease))
  }

  function NewBook(owner: Key, pda: bool, rentPayer: Key, authorized: Key, slots: nat): Book {
    Book(owner, pda, rentPayer, authorized, slots, map[ZERO_KEY := 0])
  }

  // ---- Moving value ----

  /** One movement between two ledgers: debit, then credit, claiming a slot if need be. */
  function Move(ls: map<Key, Acct<Book>>, src: Key, dst: Key, mint: Key, amount: u64): Result<map<Key, Acct<Book>>>
    requires src in ls && dst in ls
  {
    var a :- Debit(ls[src].live, mint, amount);
    var mid := ls[src := ls[src].(live := a)];
    var b :- Credit(mid[dst].live, mint, amount);
    Success(mid[dst := mid[dst].(live := b)])
  }

  /** A receipt's movements in order; `infos` are the ledgers its indices name. */
  function MoveAll(ls: map<Key, Acct<Book>>, infos: seq<Key>, movements: seq<Movement>): (r: Result<map<Key,
      Acct<Book>>>)
    requires forall i :: 0 <= i < |infos| ==> infos[i] in ls
    requires InRange(movements, |infos|)
    ensures r.Success? ==> r.value.Keys == ls.Keys
    decreases |movements|
  {
    if movements == [] then Success(ls)
    else
      var m := movements[0];
      var mid :- Move(ls, infos[m.src], infos[m.dst], m.mint, m.amount);
      MoveAll(mid, infos, movements[1..])
  }

  // ---- Wallet-facing instructions ----

  function NextInitializeVault(c: Chain, s: State, st: Step): Result<State>
    requires st.op.InitializeVault?
  {
    var op := st.op;
    if op.payer !in st.signers then Failure(MissingRequiredSignature)
    else if op.vault != c.vault then Failure(InvalidSeeds)
    else if s.lamports >= c.Floor() then Success(s)
    else if !op.funded || !st.venue.Basenet? || c.Floor() > MAX_U64 then Failure(CpiFailed)
    else Success(s.(lamports := c.Floor()))
  }

  /** The store that stands beside a wallet's ledger, created empty if it is missing. */
  function WithSession(c: Chain, s: State, owner: Key, session: Key, prefunded: nat, funded: bool): Result<State> {
    if session != c.sessionPda(owner) then Failure(InvalidSeeds)
    else if session in s.sessions then Success(s)
    else if prefunded < c.rent(Space(0)) && !funded then Failure(CpiFailed)
    else Success(s.(sessions := s.sessions[session := FreshSession(c, owner, prefunded)]))
  }

  function FreshSession(c: Chain, owner: Key, prefunded: nat): SessionAccount<Store> {
    SessionAccount(Store(owner, map[]), Space(0), if prefunded < c.rent(Space(0)) then c.rent(Space(0)) else prefunded)
  }

  function NextOpenWallet(c: Chain, s: State, st: Step): Result<State>
    requires st.op.OpenWallet?
  {
    var op := st.op;
    if op.owner !in st.signers then Failure(MissingRequiredSignature)
    else if c.isPda(op.owner) then Failure(OwnerNotWallet)
    else if op.ledger != c.ledgerPda(op.owner) then Failure(InvalidSeeds)
    else if op.ledger in s.ledgers then Failure(LedgerExists)
    else if op.slots == 0 || op.slots > MAX_GROWTH then Failure(BadSlotCount)
    else if !op.funded || !st.venue.Basenet? then Failure(CpiFailed)
    else
      var book := NewBook(op.owner, false, op.owner, ZERO_KEY, op.slots);
      WithSession(c, s.(ledgers := s.ledgers[op.ledger := Acct(book, Home)]), op.owner, op.session, op.prefunded,
          op.funded)
  }

  function NextOpenPda(c: Chain, s: State, st: Step): Result<State>
    requires st.op.OpenPda?
  {
    var op := st.op;
    if op.owner !in st.signers || op.payer !in st.signers then Failure(MissingRequiredSignature)
    else if c.derive(op.member, op.seeds) != Some(op.owner) then Failure(MemberProgramMismatch)
    else if op.ledger != c.ledgerPda(op.owner) then Failure(InvalidSeeds)
    else if op.ledger in s.ledgers then Failure(LedgerExists)
    else if op.slots == 0 || op.slots > MAX_GROWTH then Failure(BadSlotCount)
    else if !c.isPda(op.owner) && op.payer != op.owner then Failure(MustFundOwnLedger)
    else if !op.funded || !st.venue.Basenet? then Failure(CpiFailed)
    else
      var rentPayer := if c.isPda(op.owner) then op.payer else op.owner;
      var book := NewBook(op.owner, c.isPda(op.owner), rentPayer, op.member, op.slots);
      Success(s.(ledgers := s.ledgers[op.ledger := Acct(book, Home)]))
  }

  function NextGrowPda(c: Chain, s: State, st: Step): Result<State>
    requires st.op.GrowPda?
  {
    var op := st.op;
    if op.owner !in st.signers || op.payer !in st.signers then Failure(MissingRequiredSignature)
    else if !c.isPda(op.owner) then Failure(OwnerNotPda)
    else if op.ledger != c.ledgerPda(op.owner) then Failure(InvalidSeeds)
    else
      var l :- LoadChecked(c, s, st.venue, op.ledger);
      if l.owner != op.owner then Failure(BadLedgerOwner)
      else GrowLedger(c, s, st)
  }

  function GrowLedger(c: Chain, s: State, st: Step): Result<State>
    requires st.op.GrowPda? && st.op.ledger in s.ledgers
  {
    var op := st.op;
    var l := s.ledgers[op.ledger];
    var l' :- EnsureHeadroom(l.live, st.venue, op.payer, op.minFree, op.slotIncrease, op.funded);
    Success(s.(ledgers := s.ledgers[op.ledger := l.(live := l')]))
  }

  /** Value in: to the vault's lamports, or to the one pool of the mint. */
  function TakeInto(c: Chain, pools: map<Key, Pool>, lamports: u64, op: Op): Result<(map<Key, Pool>, u64)>
    requires op.Deposit?
  {
    if op.mint == ZERO_KEY then
      if lamports < c.Floor() then Failure(VaultNotInitialized)
      else if !op.funded || lamports + op.amount > MAX_U64 then Failure(CpiFailed)
      else Success((pools, lamports + op.amount))
    else
      var reserve :- RequireReserve(c, pools, op.vaultToken, op.mint, op.tokenProgram);
      if !c.IsTokenProgram(op.ownerToken.program) || op.ownerToken.mint != op.mint
          || op.ownerToken.program != op.tokenProgram then Failure(MintMismatch)
      else if !op.mintGiven && op.tokenProgram == c.token2022 then Failure(MintMismatch)
      else if !op.funded || reserve + op.amount > MAX_U64 then Failure(CpiFailed)
      else Success((pools[op.vaultToken := Pool(op.mint, reserve + op.amount)], lamports))
  }

  function TakeIn(c: Chain, s: State, op: Op): Result<State>
    requires op.Deposit?
  {
    var taken :- TakeInto(c, s.pools, s.lamports, op);
    Success(s.(pools := taken.0, lamports := taken.1))
  }

  function DepositBook(c: Chain, s: State, st: Step): Result<Book>
    requires st.op.Deposit?
  {
    var op := st.op;
    if op.ledger in s.ledgers then
      if Here(s.ledgers[op.ledger], st.venue) then Success(s.ledgers[op.ledger].live)
      else Failure(BadLedgerOwner)
    else if !op.funded then Failure(CpiFailed)
    else Success(NewBook(op.owner, false, op.owner, ZERO_KEY, DEFAULT_SLOTS))
  }

  /** Headroom first, then the mint's slot: growth must come before the claim that needs it. */
  function RoomFor(b: Book, st: Step): Result<Book>
    requires st.op.Deposit?
  {
    var op := st.op;
    var minFree := if op.band.Some? then op.band.value else DEFAULT_MIN_FREE;
    var slotIncrease := if op.growth.Some? then op.growth.value else DEFAULT_SLOTS;
    var b1 :- EnsureHeadroom(b, st.venue, op.owner, minFree, slotIncrease, op.funded);
    Claim(b1, op.mint)
  }

  function NextDeposit(c: Chain, s: State, st: Step): Result<State>
    requires st.op.Deposit?
  {
    var op := st.op;
    if !st.venue.Basenet? then Failure(NotWritable)
    else if op.owner !in st.signers then Failure(MissingRequiredSignature)
    else if c.isPda(op.owner) then Failure(OffCurveOwnerNotAllowed)
    else if !c.IsTokenProgram(op.tokenProgram) then Failure(IncorrectProgramId)
    else if op.ledger != c.ledgerPda(op.owner) then Failure(InvalidSeeds)
    else if op.vault != c.vault then Failure(InvalidSeeds)
    else DepositSteps(c, s, st)
  }

  /** A deposit once its accounts are checked: the ledger, the store, room, the transfer, the credit. */
  function DepositSteps(c: Chain, s: State, st: Step): Result<State>
    requires st.op.Deposit?
  {
    var b :- DepositBook(c, s, st);
    DepositWith(c, s, b, st)
  }

  function DepositWith(c: Chain, s: State, b: Book, st: Step): Result<State>
    requires st.op.Deposit?
  {
    var op := st.op;
    var s' :- WithSession(c, s, op.owner, op.session, op.prefunded, op.funded);
    DepositTo(c, s', b, st)
  }

  function DepositTo(c: Chain, s: State, b: Book, st: Step): Result<State>
    requires st.op.Deposit?
  {
    var op := st.op;
    var b' :- RoomFor(b, st);
    DepositPaid(c, s, b', st)
  }

  function DepositPaid(c: Chain, s: State, b: Book, st: Step): Result<State>
    requires st.op.Deposit?
  {
    var op := st.op;
    var s' :- TakeIn(c, s, op);
    var b' :- Credit(b, op.mint, op.amount);
    Success(s'.(ledgers := s.ledgers[op.ledger := Acct(b', Home)]))
  }

  /** Value out of the vault to a wallet. */
  function PayFrom(c: Chain, pools: map<Key, Pool>, lamports: u64, op: Op): Result<(map<Key, Pool>, u64)>
    requires op.Withdraw?
  {
    if op.mint == ZERO_KEY then
      if Spendable(c, lamports) < op.amount then Failure(InsufficientReserve)
      else if !op.delivered then Failure(CpiFailed)
      else Success((pools, lamports - op.amount))
    else
      var reserve :- RequireReserve(c, pools, op.vaultToken, op.mint, op.tokenProgram);
      if reserve < op.amount then Failure(InsufficientReserve)
      else if op.ownerToken != TokenAccount(op.mint, op.owner, op.tokenProgram) then Failure(MintMismatch)
      else if !op.mintGiven && op.tokenProgram == c.token2022 then Failure(MintMismatch)
      else if !op.delivered then Failure(CpiFailed)
      else Success((pools[op.vaultToken := Pool(op.mint, reserve - op.amount)], lamports))
  }

  function PayOut(c: Chain, s: State, op: Op): Result<State>
    requires op.Withdraw?
  {
    var paid :- PayFrom(c, s.pools, s.lamports, op);
    Success(s.(pools := paid.0, lamports := paid.1))
  }

  function NextWithdraw(c: Chain, s: State, st: Step): Result<State>
    requires st.op.Withdraw?
  {
    var op := st.op;
    if !st.venue.Basenet? then Failure(NotWritable)
    else if op.owner !in st.signers then Failure(MissingRequiredSignature)
    else if c.isPda(op.owner) then Failure(OffCurveOwnerNotAllowed)
    else if !c.IsTokenProgram(op.tokenProgram) then Failure(IncorrectProgramId)
    else if op.ledger != c.ledgerPda(op.owner) then Failure(InvalidSeeds)
    else if op.vault != c.vault then Failure(InvalidSeeds)
    else
      var l :- LoadChecked(c, s, st.venue, op.ledger);
      if l.owner != op.owner then Failure(BadLedgerOwner)
      else WithdrawSteps(c, s, st)
  }

  /** A withdrawal once its accounts are checked: the debit, then the transfer it allows. */
  function WithdrawSteps(c: Chain, s: State, st: Step): Result<State>
    requires st.op.Withdraw? && st.op.ledger in s.ledgers
  {
    var op := st.op;
    var l := s.ledgers[op.ledger];
    var l' :- Debit(l.live, op.mint, op.amount);
    WithdrawPaid(c, s, l.(live := l'), st)
  }

  function WithdrawPaid(c: Chain, s: State, l: Acct<Book>, st: Step): Result<State>
    requires st.op.Withdraw?
  {
    var s' :- PayOut(c, s, st.op);
    Success(s'.(ledgers := s.ledgers[st.op.ledger := l]))
  }

  /** What every pool keeps once a book's token balances are paid out of them. */
  function Drained(pools: map<Key, Pool>, b: Book): map<Key, Pool> {
    map a | a in pools ::
      pools[a].(amount := if pools[a].amount < Owed(b, pools[a].mint) then 0
                          else pools[a].amount - Owed(b, pools[a].mint))
  }

  /** What a book is owed in tokens; SOL is paid from the vault's lamports instead. */
  function Owed(b: Book, m: Key): u64 {
    if m == ZERO_KEY then 0 else Balance(b, m)
  }

  /** The pool of every token in the book holds what the book is owed. */
  ghost predicate PoolsCover(c: Chain, pools: map<Key, Pool>, b: Book) {
    forall m :: m in b.claims && m != ZERO_KEY && b.claims[m] > 0 ==> PoolCovers(c, pools, m, b.claims[m])
  }

  predicate PoolCovers(c: Chain, pools: map<Key, Pool>, m: Key, amount: u64) {
    var a := c.reserveAddress(m, c.mintProgram(m));
    a in pools && pools[a].mint == m && pools[a].amount >= amount
  }

  /** `sweep` is the first fault in the account list that should pay out the token entries, if any:
      the list is in entry order, which the book does not record. */
  ghost function NextClose(c: Chain, s: State, st: Step): Result<State>
    requires st.op.Close?
  {
    var op := st.op;
    if !st.venue.Basenet? then Failure(NotWritable)
    else if op.owner !in st.signers || op.rentPayer !in st.signers then Failure(MissingRequiredSignature)
    else if !c.IsTokenProgram(op.tokenProgram) then Failure(IncorrectProgramId)
    else if op.ledger != c.ledgerPda(op.owner) || op.vault != c.vault then Failure(InvalidSeeds)
    else
      var l :- LoadChecked(c, s, st.venue, op.ledger);
      if l.owner != op.owner then Failure(BadLedgerOwner)
      else if l.rentPayer != op.rentPayer then Failure(NotRentPayer)
      else CloseSteps(c, s, st)
  }

  /** A close once its accounts are checked: SOL, tokens, the session store, the ledger. */
  ghost function CloseSteps(c: Chain, s: State, st: Step): Result<State>
    requires st.op.Close? && st.op.ledger in s.ledgers
  {
    var op := st.op;
    var l := s.ledgers[op.ledger].live;
    if Spendable(c, s.lamports) < Balance(l, ZERO_KEY) then Failure(InsufficientReserve)
    else if Balance(l, ZERO_KEY) > 0 && !op.delivered then Failure(CpiFailed)
    else CloseTokens(c, s, st)
  }

  ghost function CloseTokens(c: Chain, s: State, st: Step): Result<State>
    requires st.op.Close? && st.op.ledger in s.ledgers
    requires Spendable(c, s.lamports) >= Balance(s.ledgers[st.op.ledger].live, ZERO_KEY)
  {
    var op := st.op;
    var l := s.ledgers[op.ledger].live;
    if op.sweep.Some? then Failure(op.sweep.value)
    else if !PoolsCover(c, s.pools, l) then Failure(InsufficientReserve)
    else CloseSwept(c, s, st, l)
  }

  /** The accounts go once everything the ledger held is paid out. */
  function CloseSwept(c: Chain, s: State, st: Step, l: Book): Result<State>
    requires st.op.Close? && Spendable(c, s.lamports) >= Balance(l, ZERO_KEY)
  {
    var op := st.op;
    if !l.pdaAuth && op.session != c.sessionPda(op.owner) then Failure(InvalidSeeds)
    else
      Success(s.(
        ledgers := s.ledgers - {op.ledger},
        sessions := if l.pdaAuth then s.sessions else s.sessions - {op.session},
        pools := Drained(s.pools, l),
        lamports := s.lamports - Balance(l, ZERO_KEY)))
  }

  // ---- Settle ----

  /** A credit that would open a new mint on a person's ledger needs that person's consent. */
  function SlotConsent(c: Chain, s: State, st: Step, a: Book, b: Book): Result<()>
    requires st.op.Settle?
  {
    var op := st.op;
    if b.pdaAuth || op.mint in b.claims then Success(())
    else if op.dstConsenter !in st.signers then Failure(MissingUserSignature)
    else if op.dstConsenter == b.owner then Success(())
    else
      match op.keyStore
      case None => Failure(NotAuthorizedToConsent)
      case Some(session) =>
        var ok :- MayConsent(c, s, st.venue, session, b.owner, op.dstConsenter, a.authorized);
        if ok then Success(()) else Failure(NotAuthorizedToConsent)
  }

  function NextSettle(c: Chain, s: State, st: Step): Result<State>
    requires st.op.Settle?
  {
    var op := st.op;
    var a :- LoadChecked(c, s, st.venue, op.src);
    var b :- LoadChecked(c, s, st.venue, op.dst);
    if op.src == op.dst then Failure(DuplicateLedger)
    else if op.srcAuthority != a.owner then Failure(BadAuthority)
    else if !a.pdaAuth && !b.pdaAuth then Failure(NotProgramMediated)
    else if op.srcAuthority !in st.signers then
      Failure(if a.pdaAuth then MissingProgramSignature else MissingUserSignature)
    else
      var _ :- SlotConsent(c, s, st, a, b);
      var ls :- Move(s.ledgers, op.src, op.dst, op.mint, op.amount);
      Success(s.(ledgers := ls))
  }

  // ---- Receipts ----

  function NextCreateReceipt(c: Chain, s: State, st: Step): Result<State>
    requires st.op.CreateReceipt?
  {
    var op := st.op;
    if op.authority !in st.signers then Failure(MissingProgramSignature)
    else if op.consenter !in st.signers then Failure(NotAuthorizedToConsent)
    else if |op.movements| > 255 || |op.args| > 255 then Failure(NoAuthorization)
    else if op.owners == [] || |op.owners| > 255 then Failure(NoAuthorization)
    else if op.ephemeralVault != c.ephemeralVault then Failure(InvalidArgument)
    else if c.derive(op.member, op.seeds) != Some(op.authority) then Failure(MemberProgramMismatch)
    else if !Distinct(op.owners) then Failure(DuplicateLedger)
    else if !InRange(op.movements, |op.owners|) || !NoSelfMove(op.movements) then Failure(NoAuthorization)
    else WriteReceipt(c, s, st)
  }

  /** A receipt whose terms are in order: not over a live one of this slot, and only into a rollup. */
  function WriteReceipt(c: Chain, s: State, st: Step): Result<State>
    requires st.op.CreateReceipt?
  {
    var op := st.op;
    var at := At(st.venue, op.receipt);
    var now := ClockOf(s, st.venue).slot;
    if op.receipt != c.receiptPda(op.member, op.consenter) then Failure(BadAuthority)
    else if at in s.receipts && s.receipts[at].terms.slot == now then Failure(ReceiptLive)
    else
      var l :- LoadChecked(c, s, st.venue, op.authorityLedger);
      if l.owner != op.authority then Failure(BadAuthority)
      else if !st.venue.Rollup? || |op.callbackDisc| != 8 then Failure(CpiFailed)
      else
        var terms := Receipt(op.consenter, op.owners, op.authority, op.member, op.callbackDisc, now, op.movements,
            op.args);
        Success(s.(receipts := s.receipts[at := ReceiptAccount(terms, true)]))
  }

  /** Reading a receipt: only an account that `create_receipt` wrote and no settlement has used. */
  function ReadReceipt(s: State, v: Venue, addr: Key): (r: Result<Receipt>)
    ensures r.Success? ==> At(v, addr) in s.receipts && s.receipts[At(v, addr)] == ReceiptAccount(r.value, true)
    ensures r.Success? ==> InRange(r.value.movements, |r.value.owners|)
  {
    var at := At(v, addr);
    if at in s.receipts then
      if !s.receipts[at].live then Failure(NotAReceipt)
      else if !InRange(s.receipts[at].terms.movements, |s.receipts[at].terms.owners|) then Failure(NoAuthorization)
      else Success(s.receipts[at].terms)
    else if addr in s.ledgers && Here(s.ledgers[addr], v) then Failure(NotAReceipt)
    else if addr in s.sessions then
      Failure(if s.sessions[addr].store.programs == map[] then NoAuthorization else NotAReceipt)
    else Failure(IllegalOwner)
  }

  /** The checks on one ledger a receipt names. */
  function CheckLedger(c: Chain, s: State, v: Venue, r: Receipt, infos: seq<Key>, idx: nat): (e: Option<Error>)
    requires idx < |infos| == |r.owners|
    ensures e.None? ==> infos[idx] in s.ledgers && Here(s.ledgers[infos[idx]], v)
  {
    var addr := infos[idx];
    if addr !in s.ledgers then
      Some(if NotALedger(s, v, addr) == BadLedgerOwner then LedgerCheck(0, idx) else InvalidAccountData)
    else if !Here(s.ledgers[addr], v) then Some(NotHere(v, LedgerCheck(0, idx)))
    else
      var l := s.ledgers[addr].live;
      if l.owner != r.owners[idx] then Some(LedgerCheck(1, idx))
      else if c.ledgerPda(r.owners[idx]) != addr then Some(LedgerCheck(2, idx))
      else if l.pdaAuth && l.authorized != r.member then Some(LedgerCheck(3, idx))
      else if addr in infos[..idx] then Some(LedgerCheck(4, idx))
      else None
  }

  /** The first fault among the ledgers from `idx` on. */
  function CheckLedgers(c: Chain, s: State, v: Venue, r: Receipt, infos: seq<Key>, idx: nat): (e: Option<Error>)
    requires idx <= |infos| == |r.owners|
    ensures e.None? ==> forall i :: idx <= i < |infos| ==> CheckLedger(c, s, v, r, infos, i).None?
    ensures e.None? ==> forall i :: idx <= i < |infos| ==> infos[i] in s.ledgers
    decreases |infos| - idx
  {
    if idx == |infos| then None
    else
      var e := CheckLedger(c, s, v, r, infos, idx);
      if e.Some? then e else CheckLedgers(c, s, v, r, infos, idx + 1)
  }

  function CountHumans(ls: map<Key, Acct<Book>>, infos: seq<Key>): nat
    requires forall i :: 0 <= i < |infos| ==> infos[i] in ls
  {
    if infos == [] then 0
    else (if ls[infos[0]].live.pdaAuth then 0 else 1) + CountHumans(ls, infos[1..])
  }

  /** The first person's ledger from `from` on. */
  function HumanIndex(ls: map<Key, Acct<Book>>, infos: seq<Key>, from: nat): (r: Option<nat>)
    requires from <= |infos|
    requires forall i :: 0 <= i < |infos| ==> infos[i] in ls
    ensures r.Some? ==> from <= r.value < |infos| && !ls[infos[r.value]].live.pdaAuth
    ensures r.Some? ==> forall i :: from <= i < r.value ==> ls[infos[i]].live.pdaAuth
    ensures r.None? ==> forall i :: from <= i < |infos| ==> ls[infos[i]].live.pdaAuth
    decreases |infos| - from
  {
    if from == |infos| then None
    else if !ls[infos[from]].live.pdaAuth then Some(from)
    else HumanIndex(ls, infos, from + 1)
  }

  predicate Debits(r: Receipt, idx: nat) {
    exists i :: 0 <= i < |r.movements| && r.movements[i].src == idx
  }

  predicate OpensSlot(r: Receipt, idx: nat, b: Book) {
    exists i :: 0 <= i < |r.movements| && r.movements[i].dst == idx && r.movements[i].mint !in b.claims
  }

  /** The one person in a receipt consents to being debited or given a new mint. Decided once, on
      the ledgers as they stand before any movement. */
  function ReceiptConsent(c: Chain, s: State, v: Venue, r: Receipt, infos: seq<Key>, rest: seq<Key>): Result<()>
    requires forall i :: 0 <= i < |infos| ==> infos[i] in s.ledgers
  {
    match HumanIndex(s.ledgers, infos, 0)
    case None => Success(())
    case Some(h) =>
      if rest == [] then Failure(NoAuthorization)
      else
        var b := s.ledgers[infos[h]].live;
        if !Debits(r, h) && !OpensSlot(r, h, b) then Success(())
        else
          var ok :- MayConsent(c, s, v, rest[0], b.owner, r.consenter, r.member);
          if ok then Success(()) else Failure(NotAuthorizedToConsent)
  }

  function NextSettleBegin(c: Chain, s: State, st: Step): Result<State>
    requires st.op.SettleBegin?
  {
    var op := st.op;
    var r :- ReadReceipt(s, st.venue, op.receipt);
    if r.slot != ClockOf(s, st.venue).slot then Failure(ReceiptExpired)
    else if op.authority != r.authority then Failure(BadAuthority)
    else if op.callbackProgram != r.member then Failure(CallbackProgramMismatch)
    else if op.consenter != r.consenter then Failure(BadAuthority)
    else if op.consenter !in st.signers then Failure(NotAuthorizedToConsent)
    else if |op.remaining| < |r.owners| then Failure(NoAuthorization)
    else BeginLedgers(c, s, st, r)
  }

  /** The ledgers of a receipt whose header is in order: checked, consented to, moved between, and the
      receipt killed before the callback. */
  function BeginLedgers(c: Chain, s: State, st: Step, r: Receipt): Result<State>
    requires st.op.SettleBegin? && |r.owners| <= |st.op.remaining| && InRange(r.movements, |r.owners|)
  {
    var op := st.op;
    var infos, rest := op.remaining[..|r.owners|], op.remaining[|r.owners|..];
    var fault := CheckLedgers(c, s, st.venue, r, infos, 0);
    if fault.Some? then Failure(fault.value)
    else if CountHumans(s.ledgers, infos) > 1 then Failure(NotProgramMediated)
    else
      var _ :- ReceiptConsent(c, s, st.venue, r, infos, rest);
      BeginMoved(c, s, st, r, infos)
  }

  function BeginMoved(c: Chain, s: State, st: Step, r: Receipt, infos: seq<Key>): Result<State>
    requires st.op.SettleBegin? && InRange(r.movements, |infos|)
    requires forall i :: 0 <= i < |infos| ==> infos[i] in s.ledgers
  {
    var ls :- MoveAll(s.ledgers, infos, r.movements);
    if st.op.vaultAuthority != c.vaultAuthority then Failure(InvalidSeeds)
    else
      var at := At(st.venue, st.op.receipt);
      Success(s.(
        ledgers := ls,
        receipts := s.receipts[at := ReceiptAccount(r, false)],
        settling := s.settling + [Settlement(at, st.op.ephemeralVault)]))
  }

  /** What the handler does once its callback has returned. */
  function NextSettleEnd(c: Chain, s: State): Result<State>
  {
    if s.settling == [] then Failure(InvalidArgument)
    else
      var last := s.settling[|s.settling| - 1];
      if last.ephemeralVault != c.ephemeralVault then Failure(InvalidArgument)
      else if last.at !in s.receipts then Failure(NotAReceipt)
      else if s.receipts[last.at].terms.authority !in s.receipts[last.at].terms.owners then Failure(BadAuthority)
      else Success(s.(receipts := s.receipts - {last.at}, settling := s.settling[..|s.settling| - 1]))
  }

  function NextReap(c: Chain, s: State, st: Step): Result<State>
    requires st.op.Reap?
  {
    var op := st.op;
    var at := At(st.venue, op.receipt);
    if op.ephemeralVault != c.ephemeralVault then Failure(InvalidArgument)
    else if at !in s.receipts || !s.receipts[at].live then Success(s)
    else if s.receipts[at].terms.slot >= ClockOf(s, st.venue).slot then Success(s)
    else
      var l :- LoadChecked(c, s, st.venue, op.authorityLedger);
      if l.owner != s.receipts[at].terms.authority then Failure(BadAuthority)
      else Success(s.(receipts := s.receipts - {at}))
  }

  // ---- Session stores ----

  function LoadSession(c: Chain, s: State, session: Key, owner: Key): (r: Result<SessionAccount<Store>>)
    ensures r.Success? ==> session == c.sessionPda(owner) && session in s.sessions && r.value == s.sessions[session]
  {
    if session != c.sessionPda(owner) then Failure(InvalidSeeds)
    else if session !in s.sessions then Failure(IllegalOwner)
    else if s.sessions[session].store.owner != owner then Failure(BadLedgerOwner)
    else Success(s.sessions[session])
  }

  function NextAuthorize(c: Chain, s: State, st: Step): Result<State>
    requires st.op.Authorize?
  {
    var op := st.op;
    if !st.venue.Basenet? then Failure(NotWritable)
    else if op.owner !in st.signers then Failure(MissingRequiredSignature)
    else if op.key == ZERO_KEY || c.isPda(op.key) then Failure(BadAuthorizedKey)
    else if c.isPda(op.owner) then Failure(OwnerNotWallet)
    else AuthorizeSteps(c, s, st)
  }

  /** A grant once its signer and key are checked: the store, made if it is missing, then the expiry, then
      the grant. */
  function AuthorizeSteps(c: Chain, s: State, st: Step): Result<State>
    requires st.op.Authorize?
  {
    var op := st.op;
    var s1 :- if op.session in s.sessions then Success(s)
              else WithSession(c, s, op.owner, op.session, op.prefunded, op.funded);
    var a :- LoadSession(c, s1, op.session, op.owner);
    if op.expiresAt != 0 && op.expiresAt <= ClockOf(s, st.venue).unix then Failure(BadExpiry)
    else
      var a' :- Authorized(c, a, op.program, op.key, op.expiresAt, op.funded);
      Success(s1.(sessions := s1.sessions[op.session := a']))
  }

  /** The store with `key` granted for `program`; a program new to it makes the account grow, topped
      up to its new rent. */
  function Authorized(c: Chain, a: SessionAccount<Store>, program: Key, key: Key, expiresAt: i64,
      funded: bool): Result<SessionAccount<Store>> {
    var programs := a.store.programs[program := GrantKey(ProgramGrants(a.store, program), key, expiresAt)];
    var store := a.store.(programs := programs);
    if program in a.store.programs then Success(a.(store := store))
    else
      var size := Space(|programs|);
      if a.lamports >= c.rent(size) then Success(SessionAccount(store, size, a.lamports))
      else if !funded then Failure(CpiFailed)
      else Success(SessionAccount(store, size, c.rent(size)))
  }

  /** The store with `key` forgotten for `program`, or, for the zero key, with the whole program
      dropped and all lamports beyond the smaller rent refunded. */
  function Revoked(c: Chain, a: SessionAccount<Store>, program: Key, key: Key): SessionAccount<Store> {
    if program !in a.store.programs then a
    else if key == ZERO_KEY then
      var programs := a.store.programs - {program};
      var size := Space(|programs|);
      SessionAccount(a.store.(programs := programs), size, if a.lamports < c.rent(size) then a.lamports
          else c.rent(size))
    else
      a.(store := a.store.(programs := a.store.programs[program := RevokeKey(a.store.programs[program], key)]))
  }

  function NextRevoke(c: Chain, s: State, st: Step): Result<State>
    requires st.op.Revoke?
  {
    var op := st.op;
    if !st.venue.Basenet? then Failure(NotWritable)
    else if op.owner !in st.signers then Failure(MissingRequiredSignature)
    else RevokeStored(c, s, st)
  }

  function RevokeStored(c: Chain, s: State, st: Step): Result<State>
    requires st.op.Revoke?
  {
    var op := st.op;
    var a :- LoadSession(c, s, op.session, op.owner);
    Success(s.(sessions := s.sessions[op.session := Revoked(c, a, op.program, op.key)]))
  }

  // ---- Delegation ----

  function NextDelegate(c: Chain, s: State, st: Step): Result<State>
    requires st.op.Delegate?
  {
    var op := st.op;
    if op.payer !in st.signers || op.owner !in st.signers then Failure(MissingRequiredSignature)
    else if !st.venue.Basenet? || op.ledger != c.ledgerPda(op.owner) || op.ledger !in s.ledgers then Failure(CpiFailed)
    else
      var a := s.ledgers[op.ledger];
      if !a.place.Home? then Failure(CpiFailed)
      else Success(s.(ledgers := s.ledgers[op.ledger := Acct(a.live, Away(op.validator, a.live))]))
  }

  function NextUndelegate(c: Chain, s: State, st: Step): Result<State>
    requires st.op.Undelegate?
  {
    var op := st.op;
    if op.payer !in st.signers then Failure(MissingRequiredSignature)
    else
      var l :- LoadChecked(c, s, st.venue, op.ledger);
      var a := s.ledgers[op.ledger];
      if !a.place.Away? then Failure(CpiFailed)
      else Success(s.(ledgers := s.ledgers[op.ledger := Acct(l, Returning(a.place.validator, a.place.base))]))
  }

  function NextFinishUndelegation(s: State, st: Step): Result<State>
    requires st.op.FinishUndelegation?
  {
    var op := st.op;
    if !st.venue.Basenet? || op.ledger !in s.ledgers || !s.ledgers[op.ledger].place.Returning? then Failure(CpiFailed)
    else Success(s.(ledgers := s.ledgers[op.ledger := Acct(s.ledgers[op.ledger].live, Home)]))
  }

  // ---- The world around the program ----

  function NextTick(s: State, st: Step): Result<State>
    requires st.op.Tick?
  {
    if st.op.clock.slot < ClockOf(s, st.venue).slot then Failure(InvalidArgument)
    else Success(s.(clocks := s.clocks[st.venue := st.op.clock]))
  }

  function NextDonate(s: State, st: Step): Result<State>
    requires st.op.Donate?
  {
    var op := st.op;
    match op.target
    case None =>
      if s.lamports + op.amount > MAX_U64 then Failure(CpiFailed)
      else Success(s.(lamports := s.lamports + op.amount))
    case Some(a) =>
      if a !in s.pools || s.pools[a].amount + op.amount > MAX_U64 then Failure(CpiFailed)
      else Success(s.(pools := s.pools[a := s.pools[a].(amount := s.pools[a].amount + op.amount)]))
  }

  function NextCreateReserve(c: Chain, s: State, st: Step): Result<State>
    requires st.op.CreateReserve?
  {
    var mint := st.op.mint;
    var a := c.reserveAddress(mint, c.mintProgram(mint));
    if mint == ZERO_KEY then Failure(CpiFailed)
    else if a in s.pools then Success(s)
    else Success(s.(pools := s.pools[a := Pool(mint, 0)]))
  }

  /** While a settlement's callback runs, only its own transaction does, and the clock stands still. */
  predicate Blocked(s: State, st: Step) {
    s.settling != [] && (st.venue != s.settling[|s.settling| - 1].at.venue || st.op.Tick?)
  }

  ghost function Next(c: Chain, s: State, st: Step): Result<State> {
    if Blocked(s, st) then Failure(Busy)
    else
      match st.op
      case InitializeVault(_, _, _) => NextInitializeVault(c, s, st)
      case OpenWallet(_, _, _, _, _, _) => NextOpenWallet(c, s, st)
      case OpenPda(_, _, _, _, _, _, _) => NextOpenPda(c, s, st)
      case GrowPda(_, _, _, _, _, _) => NextGrowPda(c, s, st)
      case Deposit(_, _, _, _, _, _, _, _, _, _, _, _, _, _) => NextDeposit(c, s, st)
      case Withdraw(_, _, _, _, _, _, _, _, _, _) => NextWithdraw(c, s, st)
      case Settle(_, _, _, _, _, _, _) => NextSettle(c, s, st)
      case CreateReceipt(_, _, _, _, _, _, _, _, _, _, _) => NextCreateReceipt(c, s, st)
      case SettleBegin(_, _, _, _, _, _, _) => NextSettleBegin(c, s, st)
      case SettleEnd => NextSettleEnd(c, s)
      case Reap(_, _, _) => NextReap(c, s, st)
      case Authorize(_, _, _, _, _, _, _) => NextAuthorize(c, s, st)
      case Revoke(_, _, _, _) => NextRevoke(c, s, st)
      case Delegate(_, _, _, _) => NextDelegate(c, s, st)
      case Undelegate(_, _) => NextUndelegate(c, s, st)
      case FinishUndelegation(_) => NextFinishUndelegation(s, st)
      case Close(_, _, _, _, _, _, _, _) => NextClose(c, s, st)
      case Tick(_) => NextTick(s, st)
      case Donate(_, _) => NextDonate(s, st)
      case CreateReserve(_) => NextCreateReserve(c, s, st)
  }
}
