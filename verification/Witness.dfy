/** Two things the vault can be brought to that its users might not expect, each shown by a run from an
    unused vault: a receipt whose slots depend on the order of its movements, and ledgers whose copies
    on basenet claim more than there is. */
module Witnesses {
  import opened Base
  import opened Books
  import opened CashOut
  import opened Chains
  import opened Invariant
  import opened Machine
  import opened Receipts
  import opened Runs
  import opened Sessions
  import opened SlotTable
  import opened Sums
  import opened Totals

  // ---- Instructions that go through ----

  function With(s: State, k: Key, a: Acct<Book>): State {
    s.(ledgers := s.ledgers[k := a])
  }

  /** A program's address opens a ledger and pays for it. */
  function Opening(c: Chain, p: Key, slots: nat, member: Key, seeds: seq<seq<byte>>): Step {
    Step(Basenet, {p}, OpenPda(p, p, c.ledgerPda(p), slots, member, seeds, true))
  }

  lemma OpeningGoes(c: Chain, s: State, p: Key, slots: nat, member: Key, seeds: seq<seq<byte>>)
    requires s.settling == [] && c.derive(member, seeds) == Some(p) && c.isPda(p) && c.ledgerPda(p) !in s.ledgers
    requires 0 < slots <= MAX_GROWTH
    ensures Next(c, s, Opening(c, p, slots, member, seeds))
              == Success(With(s, c.ledgerPda(p), Acct(NewBook(p, true, p, member, slots), Home)))
  {
  }

  /** A person deposits for the first time. */
  function Depositing(c: Chain, alice: Key, mint: Key, n: u64): Step {
    var program := c.mintProgram(mint);
    Step(Basenet, {alice}, Deposit(
      alice, c.ledgerPda(alice), c.vault, c.reserveAddress(mint, program), TokenAccount(mint, alice, program),
      program, c.sessionPda(alice), true, mint, n, None, None, 0, true))
  }

  function FirstBook(alice: Key, mint: Key, n: u64): Book {
    NewBook(alice, false, alice, ZERO_KEY, DEFAULT_SLOTS).(claims := map[ZERO_KEY := 0][mint := n])
  }

  lemma FirstCredit(c: Chain, alice: Key, mint: Key, n: u64)
    ensures var st := Depositing(c, alice, mint, n); var b := NewBook(alice, false, alice, ZERO_KEY, DEFAULT_SLOTS);
            RoomFor(b, st).Success? && Credit(RoomFor(b, st).value, mint, n) == Success(FirstBook(alice, mint, n))
  {
    if mint != ZERO_KEY {
      assert map[ZERO_KEY := 0][mint := 0][mint := n] == map[ZERO_KEY := 0][mint := n];
    }
  }

  lemma DepositingGoes(c: Chain, s: State, alice: Key, mint: Key, n: u64, pools: map<Key, Pool>, lamports: u64)
    requires s.settling == [] && !c.isPda(alice) && c.IsTokenProgram(c.mintProgram(mint))
    requires c.ledgerPda(alice) !in s.ledgers && c.sessionPda(alice) !in s.sessions
    requires TakeInto(c, s.pools, s.lamports, Depositing(c, alice, mint, n).op) == Success((pools, lamports))
    ensures Next(c, s, Depositing(c, alice, mint, n)) == Success(s.(
              ledgers := s.ledgers[c.ledgerPda(alice) := Acct(FirstBook(alice, mint, n), Home)],
              sessions := s.sessions[c.sessionPda(alice) := FreshSession(c, alice, 0)],
              pools := pools, lamports := lamports))
  {
    FirstCredit(c, alice, mint, n);
  }

  /** The owner of a ledger sends it to a rollup. */
  function Delegating(c: Chain, owner: Key, rollup: Key): Step {
    Step(Basenet, {owner}, Delegate(owner, owner, c.ledgerPda(owner), rollup))
  }

  lemma DelegatingGoes(c: Chain, s: State, owner: Key, rollup: Key, b: Book)
    requires s.settling == [] && c.ledgerPda(owner) in s.ledgers && s.ledgers[c.ledgerPda(owner)] == Acct(b, Home)
    ensures Next(c, s, Delegating(c, owner, rollup)) == Success(With(s, c.ledgerPda(owner), Acct(b, Away(rollup, b))))
  {
  }

  /** The owner of one ledger pays another, a program's. */
  function Paying(c: Chain, v: Venue, payer: Key, payee: Key, mint: Key, n: u64): Step {
    Step(v, {payer}, Settle(c.ledgerPda(payer), c.ledgerPda(payee), payer, payer, None, mint, n))
  }

  lemma PayingGoes(c: Chain, s: State, v: Venue, payer: Key, payee: Key, mint: Key, n: u64, a: Book, b: Book)
    requires s.settling == [] && c.ledgerPda(payer) != c.ledgerPda(payee)
    requires c.ledgerPda(payer) in s.ledgers && c.ledgerPda(payee) in s.ledgers
    requires var x, y := s.ledgers[c.ledgerPda(payer)], s.ledgers[c.ledgerPda(payee)];
             && Here(x, v) && Here(y, v) && x.live.owner == payer && y.live.owner == payee && y.live.pdaAuth
             && Debit(x.live, mint, n) == Success(a) && Credit(y.live, mint, n) == Success(b)
    ensures var x, y := s.ledgers[c.ledgerPda(payer)], s.ledgers[c.ledgerPda(payee)];
            Next(c, s, Paying(c, v, payer, payee, mint, n))
              == Success(With(With(s, c.ledgerPda(payer), x.(live := a)), c.ledgerPda(payee), y.(live := b)))
  {
  }

  lemma ThenOne(c: Chain, s: State, steps: seq<Step>, mid: State, st: Step, s': State)
    requires Exec(c, s, steps) == Success(mid) && Next(c, mid, st) == Success(s')
    ensures Exec(c, s, steps + [st]) == Success(s')
  {
    ExecOne(c, mid, st);
    ExecConcat(c, s, steps, [st]);
  }

  // ---- Order and slots ----

  /** A vault not used yet, with one token's empty pool. */
  function Unused(c: Chain, mint: Key): State {
    State(map[], map[], map[c.reserveAddress(mint, c.mintProgram(mint)) := Pool(mint, 0)], 0, map[], [], map[])
  }

  /** Two ledgers of one program; alice deposits five tokens and pays them to the first, which pays none of
      them to the second; and both are delegated to one rollup. */
  function Stocking(c: Chain, alice: Key, p: Key, q: Key, member: Key, sp: seq<seq<byte>>, sq: seq<seq<byte>>,
      rollup: Key, mint: Key): seq<Step> {
    Funding(c, alice, p, q, member, sp, sq, mint) + Supplying(c, alice, p, q, mint) + Leaving(c, p, q, rollup)
  }

  function Funding(c: Chain, alice: Key, p: Key, q: Key, member: Key, sp: seq<seq<byte>>, sq: seq<seq<byte>>,
      mint: Key): seq<Step> {
    [Opening(c, p, 2, member, sp), Opening(c, q, 2, member, sq), Depositing(c, alice, mint, 5)]
  }

  function Supplying(c: Chain, alice: Key, p: Key, q: Key, mint: Key): seq<Step> {
    [Paying(c, Basenet, alice, p, mint, 5), Paying(c, Basenet, p, q, mint, 0)]
  }

  function Leaving(c: Chain, p: Key, q: Key, rollup: Key): seq<Step> {
    [Delegating(c, p, rollup), Delegating(c, q, rollup)]
  }

  /** Program ledger `k` is on the rollup, with two slots, the second open for `mint` and holding `n`. */
  ghost predicate Stocked(s: State, k: Key, rollup: Key, mint: Key, n: u64) {
    && k in s.ledgers && Here(s.ledgers[k], Rollup(rollup))
    && s.ledgers[k].live.capacity == 2 && s.ledgers[k].live.claims == map[ZERO_KEY := 0, mint := n]
  }

  function StockedBook(p: Key, member: Key, mint: Key, n: u64): Book {
    NewBook(p, true, p, member, 2).(claims := map[ZERO_KEY := 0][mint := n])
  }

  lemma StockedMoves(alice: Key, p: Key, q: Key, member: Key, mint: Key)
    requires mint != ZERO_KEY
    ensures Debit(FirstBook(alice, mint, 5), mint, 5) == Success(NewBook(alice, false, alice, ZERO_KEY, DEFAULT_SLOTS))
    ensures Credit(NewBook(p, true, p, member, 2), mint, 5) == Success(StockedBook(p, member, mint, 5))
    ensures Debit(StockedBook(p, member, mint, 5), mint, 0) == Success(StockedBook(p, member, mint, 5))
    ensures Credit(NewBook(q, true, q, member, 2), mint, 0) == Success(StockedBook(q, member, mint, 0))
  {
    var none := map[ZERO_KEY := 0];
    assert none[mint := 5] - {mint} == none;
    assert none[mint := 0][mint := 5] == none[mint := 5];
    assert none[mint := 5][mint := 5] == none[mint := 5];
    assert none[mint := 0][mint := 0] == none[mint := 0];
  }

  /** The first three steps: the ledgers are there, and the tokens are alice's. */
  lemma Funded(c: Chain, alice: Key, p: Key, q: Key, member: Key, sp: seq<seq<byte>>, sq: seq<seq<byte>>,
      mint: Key) returns (s: State)
    requires c.derive(member, sp) == Some(p) && c.derive(member, sq) == Some(q) && c.isPda(p) && c.isPda(q)
    requires c.ledgerPda(p) != c.ledgerPda(q) && c.ledgerPda(alice) !in {c.ledgerPda(p), c.ledgerPda(q)}
    requires !c.isPda(alice) && mint != ZERO_KEY && c.IsTokenProgram(c.mintProgram(mint))
    ensures Exec(c, Unused(c, mint), Funding(c, alice, p, q, member, sp, sq, mint)) == Success(s)
    ensures s.settling == []
    ensures s.ledgers == map[
              c.ledgerPda(p) := Acct(NewBook(p, true, p, member, 2), Home),
              c.ledgerPda(q) := Acct(NewBook(q, true, q, member, 2), Home),
              c.ledgerPda(alice) := Acct(FirstBook(alice, mint, 5), Home)]
  {
    var s0 := Unused(c, mint);
    var s1 := With(s0, c.ledgerPda(p), Acct(NewBook(p, true, p, member, 2), Home));
    OpeningGoes(c, s0, p, 2, member, sp);
    var s2 := With(s1, c.ledgerPda(q), Acct(NewBook(q, true, q, member, 2), Home));
    OpeningGoes(c, s1, q, 2, member, sq);
    var openings := [Opening(c, p, 2, member, sp), Opening(c, q, 2, member, sq)];
    TwoSteps(c, s0, openings, s1, s2);
    s := Supplied(c, s2, alice, mint);
    ThenOne(c, s0, openings, s2, Depositing(c, alice, mint, 5), s);
    assert openings + [Depositing(c, alice, mint, 5)] == [openings[0], openings[1], Depositing(c, alice, mint, 5)];
  }

  /** Two payments: all of alice's tokens to the first ledger, none of them to the second. */
  lemma Supplies(c: Chain, s: State, alice: Key, p: Key, q: Key, member: Key, mint: Key) returns (s': State)
    requires s.settling == [] && mint != ZERO_KEY
    requires c.ledgerPda(p) != c.ledgerPda(q) && c.ledgerPda(alice) !in {c.ledgerPda(p), c.ledgerPda(q)}
    requires s.ledgers == map[
               c.ledgerPda(p) := Acct(NewBook(p, true, p, member, 2), Home),
               c.ledgerPda(q) := Acct(NewBook(q, true, q, member, 2), Home),
               c.ledgerPda(alice) := Acct(FirstBook(alice, mint, 5), Home)]
    ensures Exec(c, s, Supplying(c, alice, p, q, mint)) == Success(s')
    ensures s'.settling == [] && c.ledgerPda(p) in s'.ledgers && c.ledgerPda(q) in s'.ledgers
    ensures s'.ledgers[c.ledgerPda(p)] == Acct(StockedBook(p, member, mint, 5), Home)
    ensures s'.ledgers[c.ledgerPda(q)] == Acct(StockedBook(q, member, mint, 0), Home)
  {
    var la, lp, lq := c.ledgerPda(alice), c.ledgerPda(p), c.ledgerPda(q);
    StockedMoves(alice, p, q, member, mint);
    var empty, x, y := NewBook(alice, false, alice, ZERO_KEY, DEFAULT_SLOTS), StockedBook(p, member, mint, 5),
        StockedBook(q, member, mint, 0);
    var mid := With(With(s, la, Acct(empty, Home)), lp, Acct(x, Home));
    PayingGoes(c, s, Basenet, alice, p, mint, 5, empty, x);
    s' := With(With(mid, lp, Acct(x, Home)), lq, Acct(y, Home));
    PayingGoes(c, mid, Basenet, p, q, mint, 0, x, y);
    TwoSteps(c, s, Supplying(c, alice, p, q, mint), mid, s');
  }

  /** Of the ledgers and the reserves, only two ledgers that were there have changed. */
  ghost predicate Rebooked(s: State, s': State, k: Key, a: Acct<Book>, l: Key, b: Acct<Book>) {
    && k in s'.ledgers && s'.ledgers[k] == a && l in s'.ledgers && s'.ledgers[l] == b
    && s'.ledgers.Keys == s.ledgers.Keys && s'.settling == s.settling
    && s'.lamports == s.lamports && s'.pools == s.pools
  }

  /** Two ledgers at home go to the rollup. */
  lemma Leave(c: Chain, s: State, p: Key, q: Key, rollup: Key, x: Book, y: Book) returns (s': State)
    requires s.settling == [] && c.ledgerPda(p) != c.ledgerPda(q)
    requires c.ledgerPda(p) in s.ledgers && s.ledgers[c.ledgerPda(p)] == Acct(x, Home)
    requires c.ledgerPda(q) in s.ledgers && s.ledgers[c.ledgerPda(q)] == Acct(y, Home)
    ensures Exec(c, s, Leaving(c, p, q, rollup)) == Success(s')
    ensures Rebooked(s, s', c.ledgerPda(p), Acct(x, Away(rollup, x)), c.ledgerPda(q), Acct(y, Away(rollup, y)))
  {
    var mid := With(s, c.ledgerPda(p), Acct(x, Away(rollup, x)));
    DelegatingGoes(c, s, p, rollup, x);
    s' := With(mid, c.ledgerPda(q), Acct(y, Away(rollup, y)));
    DelegatingGoes(c, mid, q, rollup, y);
    TwoSteps(c, s, Leaving(c, p, q, rollup), mid, s');
  }

  lemma InThree(c: Chain, s: State, first: seq<Step>, x: State, second: seq<Step>, y: State, third: seq<Step>, z: State)
    requires Exec(c, s, first) == Success(x) && Exec(c, x, second) == Success(y) && Exec(c, y, third) == Success(z)
    ensures Exec(c, s, first + second + third) == Success(z)
  {
    ExecConcat(c, s, first, second);
    ExecConcat(c, s, first + second, third);
  }

  lemma StockingRuns(c: Chain, alice: Key, p: Key, q: Key, member: Key, sp: seq<seq<byte>>, sq: seq<seq<byte>>,
      rollup: Key, mint: Key) returns (s: State)
    requires Sound(c) && p != q && c.derive(member, sp) == Some(p) && c.derive(member, sq) == Some(q)
    requires !c.isPda(alice) && mint != ZERO_KEY && c.IsTokenProgram(c.mintProgram(mint))
    ensures Exec(c, Unused(c, mint), Stocking(c, alice, p, q, member, sp, sq, rollup, mint)) == Success(s)
    ensures Stocked(s, c.ledgerPda(p), rollup, mint, 5) && Stocked(s, c.ledgerPda(q), rollup, mint, 0)
  {
    ThreeLedgers(c, alice, p, q, member, sp, sq);
    var x := Funded(c, alice, p, q, member, sp, sq, mint);
    var y := Supplies(c, x, alice, p, q, member, mint);
    s := Leave(c, y, p, q, rollup, StockedBook(p, member, mint, 5), StockedBook(q, member, mint, 0));
    InThree(c, Unused(c, mint), Funding(c, alice, p, q, member, sp, sq, mint), x, Supplying(c, alice, p, q, mint), y,
            Leaving(c, p, q, rollup), s);
    StockedFrom(s, c.ledgerPda(p), rollup, p, member, mint, 5);
    StockedFrom(s, c.ledgerPda(q), rollup, q, member, mint, 0);
  }

  lemma ThreeLedgers(c: Chain, alice: Key, p: Key, q: Key, member: Key, sp: seq<seq<byte>>, sq: seq<seq<byte>>)
    requires Sound(c) && p != q && !c.isPda(alice)
    requires c.derive(member, sp) == Some(p) && c.derive(member, sq) == Some(q)
    ensures c.isPda(p) && c.isPda(q)
    ensures c.ledgerPda(p) != c.ledgerPda(q) && c.ledgerPda(alice) !in {c.ledgerPda(p), c.ledgerPda(q)}
  {
    assert c.isPda(p) && c.isPda(q);
  }

  lemma StockedFrom(s: State, k: Key, rollup: Key, p: Key, member: Key, mint: Key, n: u64)
    requires var b := StockedBook(p, member, mint, n); k in s.ledgers && s.ledgers[k] == Acct(b, Away(rollup, b))
    ensures Stocked(s, k, rollup, mint, n)
  {
  }

  /** Alice's five tokens come in. */
  lemma Supplied(c: Chain, s: State, alice: Key, mint: Key) returns (s': State)
    requires s.settling == [] && !c.isPda(alice) && c.IsTokenProgram(c.mintProgram(mint)) && mint != ZERO_KEY
    requires c.ledgerPda(alice) !in s.ledgers && s.sessions == map[] && s.pools == Unused(c, mint).pools
    ensures Next(c, s, Depositing(c, alice, mint, 5)) == Success(s') && s'.settling == []
    ensures s'.ledgers == s.ledgers[c.ledgerPda(alice) := Acct(FirstBook(alice, mint, 5), Home)]
  {
    var op := Depositing(c, alice, mint, 5).op;
    var pools := s.pools[op.vaultToken := Pool(mint, 5)];
    assert TakeInto(c, s.pools, s.lamports, op) == Success((pools, s.lamports));
    DepositingGoes(c, s, alice, mint, 5, pools, s.lamports);
    s' := Next(c, s, Depositing(c, alice, mint, 5)).value;
  }

  /** Both lists of movements go through, and only the second leaves ledger `b` its slot of `mint`. */
  ghost predicate Disagree(ls: map<Key, Acct<Book>>, a: Key, b: Key, mint: Key, x: seq<Movement>, y: seq<Movement>)
    requires a in ls && b in ls && InRange(x, 2) && InRange(y, 2)
  {
    && MoveAll(ls, [a, b], x).Success? && MoveAll(ls, [a, b], y).Success?
    && mint !in MoveAll(ls, [a, b], x).value[b].live.claims
    && mint in MoveAll(ls, [a, b], y).value[b].live.claims
  }

  /** A receipt between the two ledgers. */
  function BetweenTwo(member: Key, p: Key, q: Key, movements: seq<Movement>): Receipt {
    Receipt(p, [p, q], p, member, [0, 0, 0, 0, 0, 0, 0, 0], 0, movements, [])
  }

  /** The order of zero amounts can decide which slots a receipt leaves open. After a run from an unused
      vault, two receipts any program may write, the same movements in either order, both go through,
      and only one of them leaves the second ledger its empty slot. */
  lemma ZeroAmountsCanDisagree(c: Chain, alice: Key, p: Key, q: Key, member: Key, sp: seq<seq<byte>>,
      sq: seq<seq<byte>>, rollup: Key, mint: Key) returns (s: State)
    requires Sound(c) && p != q && c.derive(member, sp) == Some(p) && c.derive(member, sq) == Some(q)
    requires !c.isPda(alice) && mint != ZERO_KEY && c.IsTokenProgram(c.mintProgram(mint))
    ensures Genesis(c, Unused(c, mint))
    ensures Exec(c, Unused(c, mint), Stocking(c, alice, p, q, member, sp, sq, rollup, mint)) == Success(s)
    ensures Stocked(s, c.ledgerPda(p), rollup, mint, 5) && Stocked(s, c.ledgerPda(q), rollup, mint, 0)
    ensures var there, back := Movement(mint, 0, 0, 1), Movement(mint, 0, 1, 0);
            && Admitted(BetweenTwo(member, p, q, [there, back])) && Admitted(BetweenTwo(member, p, q, [back, there]))
            && multiset([there, back]) == multiset([back, there])
            && Disagree(s.ledgers, c.ledgerPda(p), c.ledgerPda(q), mint, [there, back], [back, there])
  {
    s := StockingRuns(c, alice, p, q, member, sp, sq, rollup, mint);
    BothAdmitted(member, p, q, mint);
    EitherOrder(s.ledgers, c.ledgerPda(p), c.ledgerPda(q), mint);
  }

  lemma BothAdmitted(member: Key, p: Key, q: Key, mint: Key)
    requires p != q
    ensures var there, back := Movement(mint, 0, 0, 1), Movement(mint, 0, 1, 0);
            && Admitted(BetweenTwo(member, p, q, [there, back])) && Admitted(BetweenTwo(member, p, q, [back, there]))
            && multiset([there, back]) == multiset([back, there])
  {
  }

  lemma EitherOrder(ls: map<Key, Acct<Book>>, a: Key, b: Key, mint: Key)
    requires a != b && mint != ZERO_KEY && a in ls && b in ls && ls[b].live.capacity == 2
    requires ls[a].live.claims == map[ZERO_KEY := 0, mint := 5] && ls[b].live.claims == map[ZERO_KEY := 0, mint := 0]
    ensures var there, back := Movement(mint, 0, 0, 1), Movement(mint, 0, 1, 0);
            Disagree(ls, a, b, mint, [there, back], [back, there])
  {
    var there, back := Movement(mint, 0, 0, 1), Movement(mint, 0, 1, 0);
    var shut := ls[b := ls[b].(live := ls[b].live.(claims := map[ZERO_KEY := 0]))];
    ZeroMoves(ls, a, b, mint, shut);
    MoveAllTwo(ls, [a, b], there, back);
    MoveAllTwo(ls, [a, b], back, there);
  }

  lemma ZeroMoves(ls: map<Key, Acct<Book>>, a: Key, b: Key, mint: Key, shut: map<Key, Acct<Book>>)
    requires a != b && mint != ZERO_KEY && a in ls && b in ls
    requires ls[a].live.claims == map[ZERO_KEY := 0, mint := 5] && ls[b].live.claims == map[ZERO_KEY := 0, mint := 0]
    requires ls[b].live.capacity == 2
    requires shut == ls[b := ls[b].(live := ls[b].live.(claims := map[ZERO_KEY := 0]))]
    ensures Move(ls, a, b, mint, 0) == Success(ls)
    ensures Move(ls, b, a, mint, 0) == Success(shut)
    ensures Move(shut, a, b, mint, 0) == Success(ls)
  {
    ZeroDebit(ls[a].live, ls[b].live, mint);
    ZeroCredit(ls[a].live, mint);
    ZeroCredit(ls[b].live, mint);
    assert ls[a := ls[a]] == ls && ls[b := ls[b]] == ls && shut[a := shut[a]] == shut;
    assert Claim(shut[b].live, mint).Success? by {
      assert |shut[b].live.claims| == 1;
    }
    assert shut[b].live.claims[mint := 0] == ls[b].live.claims;
    assert shut[b := ls[b]] == ls;
  }

  lemma ZeroDebit(full: Book, empty: Book, mint: Key)
    requires mint != ZERO_KEY && full.claims == map[ZERO_KEY := 0, mint := 5]
    requires empty.claims == map[ZERO_KEY := 0, mint := 0]
    ensures Debit(full, mint, 0) == Success(full)
    ensures Debit(empty, mint, 0) == Success(empty.(claims := map[ZERO_KEY := 0]))
  {
    assert full.claims[mint := 5] == full.claims;
    assert empty.claims - {mint} == map[ZERO_KEY := 0];
  }

  lemma ZeroCredit(b: Book, mint: Key)
    requires mint in b.claims
    ensures Credit(b, mint, 0) == Success(b)
  {
    assert b.claims[mint := b.claims[mint]] == b.claims;
  }

  lemma MoveAllTwo(ls: map<Key, Acct<Book>>, infos: seq<Key>, x: Movement, y: Movement)
    requires forall i :: 0 <= i < |infos| ==> infos[i] in ls
    requires x.src < |infos| && x.dst < |infos| && y.src < |infos| && y.dst < |infos|
    requires Move(ls, infos[x.src], infos[x.dst], x.mint, x.amount).Success?
    ensures InRange([x, y], |infos|)
    ensures var mid := Move(ls, infos[x.src], infos[x.dst], x.mint, x.amount).value;
            infos[y.src] in mid && infos[y.dst] in mid
            && MoveAll(ls, infos, [x, y]) == Move(mid, infos[y.src], infos[y.dst], y.mint, y.amount)
  {
    var mid := Move(ls, infos[x.src], infos[x.dst], x.mint, x.amount).value;
    assert [x, y][1..] == [y] && [y][1..] == [];
    assert MoveAll(mid, infos, [y]) == Move(mid, infos[y.src], infos[y.dst], y.mint, y.amount);
  }

  // ---- Stale copies ----

  /** Alice deposits SOL; she and a program delegate their ledgers to one rollup; there she pays the
      program everything; and the program's ledger alone comes home. */
  function Overclaiming(c: Chain, alice: Key, p: Key, member: Key, seeds: seq<seq<byte>>, rollup: Key,
      n: u64): seq<Step> {
    Providing(c, alice, p, member, seeds, n) + Leaving(c, alice, p, rollup)
    + ([Paying(c, Rollup(rollup), alice, p, ZERO_KEY, n)]
       + Homecoming(c.ledgerPda(p), Away(rollup, NewBook(p, true, p, member, 1)), alice))
  }

  function Providing(c: Chain, alice: Key, p: Key, member: Key, seeds: seq<seq<byte>>, n: u64): seq<Step> {
    [Opening(c, p, 1, member, seeds), Depositing(c, alice, ZERO_KEY, n)]
  }

  /** Where that run starts: a vault raised to its floor and not used yet. */
  ghost predicate Ready(c: Chain, s: State, alice: Key, p: Key, member: Key, seeds: seq<seq<byte>>, n: u64) {
    && Sound(c) && Genesis(c, s) && s.lamports == c.Floor() && c.Floor() + n <= MAX_U64
    && !c.isPda(alice) && c.derive(member, seeds) == Some(p) && c.IsTokenProgram(c.mintProgram(ZERO_KEY))
  }

  function SolBook(b: Book, n: u64): Book {
    b.(claims := map[ZERO_KEY := n])
  }

  lemma SolMoves(b: Book, b': Book, n: u64)
    ensures Debit(SolBook(b, n), ZERO_KEY, n) == Success(SolBook(b, 0))
    ensures Credit(SolBook(b', 0), ZERO_KEY, n) == Success(SolBook(b', n))
  {
    assert map[ZERO_KEY := n][ZERO_KEY := 0] == map[ZERO_KEY := 0];
    assert map[ZERO_KEY := 0][ZERO_KEY := n] == map[ZERO_KEY := n];
  }

  lemma FirstSol(c: Chain, s: State, alice: Key, n: u64) returns (s': State)
    requires s.settling == [] && !c.isPda(alice) && c.IsTokenProgram(c.mintProgram(ZERO_KEY))
    requires c.ledgerPda(alice) !in s.ledgers && s.sessions == map[]
    requires s.lamports == c.Floor() && c.Floor() + n <= MAX_U64
    ensures Next(c, s, Depositing(c, alice, ZERO_KEY, n)) == Success(s') && s'.settling == []
    ensures s'.lamports == c.Floor() + n && s'.pools == s.pools
    ensures s'.ledgers == s.ledgers[c.ledgerPda(alice) :=
              Acct(SolBook(NewBook(alice, false, alice, ZERO_KEY, DEFAULT_SLOTS), n), Home)]
  {
    DepositingGoes(c, s, alice, ZERO_KEY, n, s.pools, s.lamports + n);
    assert map[ZERO_KEY := 0][ZERO_KEY := n] == map[ZERO_KEY := n];
    s' := Next(c, s, Depositing(c, alice, ZERO_KEY, n)).value;
  }

  /** Both ledgers are there, alice's with her deposit. */
  lemma Provided(c: Chain, s: State, alice: Key, p: Key, member: Key, seeds: seq<seq<byte>>, n: u64)
    returns (s': State)
    requires Ready(c, s, alice, p, member, seeds, n)
    ensures Exec(c, s, Providing(c, alice, p, member, seeds, n)) == Success(s')
    ensures s'.settling == [] && s'.lamports == c.Floor() + n && s'.pools == s.pools
    ensures s'.ledgers == map[
              c.ledgerPda(alice) := Acct(SolBook(NewBook(alice, false, alice, ZERO_KEY, DEFAULT_SLOTS), n), Home),
              c.ledgerPda(p) := Acct(NewBook(p, true, p, member, 1), Home)]
  {
    assert c.isPda(p) && c.ledgerPda(alice) != c.ledgerPda(p);
    var mid := With(s, c.ledgerPda(p), Acct(NewBook(p, true, p, member, 1), Home));
    OpeningGoes(c, s, p, 1, member, seeds);
    s' := FirstSol(c, mid, alice, n);
    TwoSteps(c, s, Providing(c, alice, p, member, seeds, n), mid, s');
  }

  /** With both ledgers away everything is paid over, and the program's ledger comes home. */
  lemma PaidOver(c: Chain, s: State, alice: Key, p: Key, rollup: Key, a: Book, b: Book, n: u64)
    returns (s': State)
    requires s.settling == [] && c.ledgerPda(alice) != c.ledgerPda(p)
    requires a.owner == alice && b.owner == p && b.pdaAuth && LedgerOk(c, c.ledgerPda(p), Acct(SolBook(b, n), Home))
    requires c.ledgerPda(alice) in s.ledgers && c.ledgerPda(p) in s.ledgers
    requires s.ledgers[c.ledgerPda(alice)] == Acct(SolBook(a, n), Away(rollup, SolBook(a, n)))
    requires s.ledgers[c.ledgerPda(p)] == Acct(SolBook(b, 0), Away(rollup, SolBook(b, 0)))
    ensures Exec(c, s, [Paying(c, Rollup(rollup), alice, p, ZERO_KEY, n)]
                       + Homecoming(c.ledgerPda(p), s.ledgers[c.ledgerPda(p)].place, alice)) == Success(s')
    ensures Rebooked(s, s', c.ledgerPda(alice), Acct(SolBook(a, 0), Away(rollup, SolBook(a, n))),
                     c.ledgerPda(p), Acct(SolBook(b, n), Home))
  {
    var la, lp := c.ledgerPda(alice), c.ledgerPda(p);
    var mid := PaysAll(c, s, alice, p, rollup, a, b, n);
    LedgerComesHome(c, mid, lp, alice);
    s' := Homed(mid, lp);
    ExecConcat(c, s, [Paying(c, Rollup(rollup), alice, p, ZERO_KEY, n)], Homecoming(lp, s.ledgers[lp].place, alice));
  }

  lemma PaysAll(c: Chain, s: State, alice: Key, p: Key, rollup: Key, a: Book, b: Book, n: u64) returns (s': State)
    requires s.settling == [] && c.ledgerPda(alice) != c.ledgerPda(p)
    requires a.owner == alice && b.owner == p && b.pdaAuth && LedgerOk(c, c.ledgerPda(p), Acct(SolBook(b, n), Home))
    requires c.ledgerPda(alice) in s.ledgers && c.ledgerPda(p) in s.ledgers
    requires s.ledgers[c.ledgerPda(alice)] == Acct(SolBook(a, n), Away(rollup, SolBook(a, n)))
    requires s.ledgers[c.ledgerPda(p)] == Acct(SolBook(b, 0), Away(rollup, SolBook(b, 0)))
    ensures Exec(c, s, [Paying(c, Rollup(rollup), alice, p, ZERO_KEY, n)]) == Success(s')
    ensures Rebooked(s, s', c.ledgerPda(alice), Acct(SolBook(a, 0), Away(rollup, SolBook(a, n))),
                     c.ledgerPda(p), Acct(SolBook(b, n), Away(rollup, SolBook(b, 0))))
  {
    var la, lp := c.ledgerPda(alice), c.ledgerPda(p);
    SolMoves(a, b, n);
    PayingGoes(c, s, Rollup(rollup), alice, p, ZERO_KEY, n, SolBook(a, 0), SolBook(b, n));
    s' := With(With(s, la, s.ledgers[la].(live := SolBook(a, 0))), lp, s.ledgers[lp].(live := SolBook(b, n)));
    ExecOne(c, s, Paying(c, Rollup(rollup), alice, p, ZERO_KEY, n));
  }

  lemma CopiesClaim(ls: map<Key, Acct<Book>>, la: Key, x: Acct<Book>, lp: Key, y: Acct<Book>)
    requires la != lp && ls.Keys == {la, lp} && ls[la] == x && ls[lp] == y
    ensures Sum(BaseColumn(ls, ZERO_KEY)) == Balance(BaseBook(x), ZERO_KEY) + Balance(BaseBook(y), ZERO_KEY)
    ensures Total(ls, ZERO_KEY) == Balance(x.live, ZERO_KEY) + Balance(y.live, ZERO_KEY)
  {
    SumOfTwo(BaseColumn(ls, ZERO_KEY), la, lp);
    SumOfTwo(Column(ls, ZERO_KEY), la, lp);
  }

  /** Basenet can claim more than there is, by any amount: a run after which the copies it shows claim
      twice what backs them, though what is really held is covered. */
  lemma BasenetCanOverclaim(c: Chain, s: State, alice: Key, p: Key, member: Key, seeds: seq<seq<byte>>,
      rollup: Key, n: u64) returns (s': State)
    requires Ready(c, s, alice, p, member, seeds, n)
    ensures Exec(c, s, Overclaiming(c, alice, p, member, seeds, rollup, n)) == Success(s')
    ensures Sum(BaseColumn(s'.ledgers, ZERO_KEY)) == 2 * n
    ensures Total(s'.ledgers, ZERO_KEY) == n == Backing(c, s'.pools, s'.lamports, ZERO_KEY)
  {
    s' := OverclaimingRuns(c, s, alice, p, member, seeds, rollup, n);
    var la, lp := c.ledgerPda(alice), c.ledgerPda(p);
    CopiesClaim(s'.ledgers, la, s'.ledgers[la], lp, s'.ledgers[lp]);
  }

  lemma OverclaimingRuns(c: Chain, s: State, alice: Key, p: Key, member: Key, seeds: seq<seq<byte>>,
      rollup: Key, n: u64) returns (s': State)
    requires Ready(c, s, alice, p, member, seeds, n)
    ensures Exec(c, s, Overclaiming(c, alice, p, member, seeds, rollup, n)) == Success(s')
    ensures var la, lp := c.ledgerPda(alice), c.ledgerPda(p);
            var a, b := NewBook(alice, false, alice, ZERO_KEY, DEFAULT_SLOTS), NewBook(p, true, p, member, 1);
            && la != lp && s'.ledgers.Keys == {la, lp}
            && s'.ledgers[la] == Acct(SolBook(a, 0), Away(rollup, SolBook(a, n)))
            && s'.ledgers[lp] == Acct(SolBook(b, n), Home)
    ensures s'.lamports == c.Floor() + n && s'.pools == s.pools
  {
    var la, lp := c.ledgerPda(alice), c.ledgerPda(p);
    var a, b := NewBook(alice, false, alice, ZERO_KEY, DEFAULT_SLOTS), NewBook(p, true, p, member, 1);
    ProgramsLedgerOk(c, alice, p, member, seeds, n);
    assert b == SolBook(b, 0);
    var x := Provided(c, s, alice, p, member, seeds, n);
    var y := Leave(c, x, alice, p, rollup, SolBook(a, n), b);
    s' := PaidOver(c, y, alice, p, rollup, a, b, n);
    InThree(
      c, s, Providing(c, alice, p, member, seeds, n), x, Leaving(c, alice, p, rollup), y,
      [Paying(c, Rollup(rollup), alice, p, ZERO_KEY, n)] + Homecoming(lp, Away(rollup, b), alice), s');
  }

  lemma ProgramsLedgerOk(c: Chain, alice: Key, p: Key, member: Key, seeds: seq<seq<byte>>, n: u64)
    requires Sound(c) && !c.isPda(alice) && c.derive(member, seeds) == Some(p)
    ensures c.isPda(p) && c.ledgerPda(alice) != c.ledgerPda(p)
    ensures LedgerOk(c, c.ledgerPda(p), Acct(SolBook(NewBook(p, true, p, member, 1), n), Home))
  {
    assert c.isPda(p) && BelongsTo(c, p, member);
    assert |map[ZERO_KEY := n]| == 1;
  }
}
