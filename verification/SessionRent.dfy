/** A wallet and its session store: what the store costs and what comes back, over any sequence of grants
    and revocations, and over whole runs of the vault. */
module SessionRent {
  import opened Base
  import opened Chains
  import opened Frames
  import opened Invariant
  import opened Machine
  import opened Runs
  import opened Sessions

  datatype Purse = Purse(wallet: nat, store: SessionAccount<Store>)

  datatype Ask = Grant(program: Key, key: Key, expiresAt: i64) | Forget(program: Key, key: Key)

  /** What `authorize` transfers into the store: the rent of its new size, less what it has. */
  function TopUp(c: Chain, a: SessionAccount<Store>, program: Key): nat {
    if program in a.store.programs then 0
    else
      var needed := c.rent(Space(|a.store.programs| + 1));
      if needed > a.lamports then needed - a.lamports else 0
  }

  /** What `revoke` hands back when it drops a program: all beyond the rent of the smaller size. */
  function Refund(c: Chain, a: SessionAccount<Store>, program: Key, key: Key): nat {
    if key != ZERO_KEY || program !in a.store.programs then 0
    else
      var keep := c.rent(Space(|a.store.programs - {program}|));
      if a.lamports > keep then a.lamports - keep else 0
  }

  function Apply(c: Chain, p: Purse, ask: Ask): Result<Purse> {
    match ask
    case Grant(program, key, expiresAt) =>
      var cost := TopUp(c, p.store, program);
      var a :- Authorized(c, p.store, program, key, expiresAt, cost <= p.wallet);
      Success(Purse(if cost <= p.wallet then p.wallet - cost else 0, a))
    case Forget(program, key) =>
      Success(Purse(p.wallet + Refund(c, p.store, program, key), Revoked(c, p.store, program, key)))
  }

  function ApplyAll(c: Chain, p: Purse, asks: seq<Ask>): Result<Purse>
    decreases |asks|
  {
    if asks == [] then Success(p)
    else
      var before :- ApplyAll(c, p, asks[..|asks| - 1]);
      Apply(c, before, asks[|asks| - 1])
  }

  predicate Keyed(asks: seq<Ask>) {
    forall i :: 0 <= i < |asks| && asks[i].Grant? ==> asks[i].key != ZERO_KEY
  }

  lemma GrowsByOne(ps: map<Key, Grants>, program: Key, g: Grants)
    requires program !in ps
    ensures |ps[program := g]| == |ps| + 1
  {
    assert ps[program := g].Keys == ps.Keys + {program};
  }

  lemma ApplyConserves(c: Chain, addr: Key, p: Purse, ask: Ask)
    requires Sound(c) && SessionOk(c, addr, p.store) && (ask.Grant? ==> ask.key != ZERO_KEY)
    requires Apply(c, p, ask).Success?
    ensures var p' := Apply(c, p, ask).value;
            SessionOk(c, addr, p'.store) && p'.wallet + p'.store.lamports == p.wallet + p.store.lamports
  {
    match ask
    case Grant(program, key, expiresAt) =>
      var funded := TopUp(c, p.store, program) <= p.wallet;
      AuthorizedKeepsOk(c, addr, p.store, program, key, expiresAt, funded);
      AuthorizedFlows(c, p.store, program, key, expiresAt, funded);
    case Forget(program, key) =>
      RevokedKeepsOk(c, addr, p.store, program, key);
      RevokedFlows(c, p.store, program, key);
  }

  /** Over every run the account is exactly the size of its entries, stays rent-exempt for that size,
      and no lamport is made or lost between the wallet and the store. */
  lemma {:induction false} StoreStaysPaidFor(c: Chain, addr: Key, p: Purse, asks: seq<Ask>)
    requires Sound(c) && SessionOk(c, addr, p.store) && Keyed(asks) && ApplyAll(c, p, asks).Success?
    ensures var p' := ApplyAll(c, p, asks).value;
            && p'.store.size == Space(|p'.store.store.programs|)
            && p'.store.lamports >= c.rent(p'.store.size)
            && p'.wallet + p'.store.lamports == p.wallet + p.store.lamports
            && SessionOk(c, addr, p'.store)
    decreases |asks|
  {
    if asks != [] {
      var earlier := asks[..|asks| - 1];
      StoreStaysPaidFor(c, addr, p, earlier);
      ApplyConserves(c, addr, ApplyAll(c, p, earlier).value, asks[|asks| - 1]);
    }
  }

  /** A revocation can always be afforded; a grant fails only for want of the rent it adds. */
  lemma FailsOnlyForRent(c: Chain, p: Purse, ask: Ask)
    ensures Apply(c, p, ask).Failure? <==> ask.Grant? && TopUp(c, p.store, ask.program) > p.wallet
  {
    if ask.Grant? && ask.program !in p.store.store.programs {
      GrowsByOne(p.store.store.programs, ask.program, GrantKey(NO_GRANTS, ask.key, ask.expiresAt));
    }
  }

  // ---- Over runs of the vault ----

  /** The lamports a step moves between a store and the world: what its owner's wallet pays in, what the
      account was found with when it was created, and what goes back to the wallet. */
  datatype RentFlow = RentFlow(paid: nat, found: nat, returned: nat)

  const NO_FLOW := RentFlow(0, 0, 0)

  function LamportsAt(s: State, session: Key): nat {
    if session in s.sessions then s.sessions[session].lamports else 0
  }

  /** Creating a store: whatever the account holds already, topped up to the rent of an empty one. */
  function CreationFlow(c: Chain, prefunded: nat): RentFlow {
    var rent := c.rent(Space(0));
    RentFlow(if prefunded < rent then rent - prefunded else 0, prefunded, 0)
  }

  /** A grant to a program new to the store: creation, if there is no store, and the added rent. */
  function GrantFlow(c: Chain, s: State, op: Op): RentFlow
    requires op.Authorize?
  {
    var k := c.sessionPda(op.owner);
    if k in s.sessions then RentFlow(TopUp(c, s.sessions[k], op.program), 0, 0)
    else
      var made := CreationFlow(c, op.prefunded);
      made.(paid := made.paid + TopUp(c, FreshSession(c, op.owner, op.prefunded), op.program))
  }

  /** What a step does to the lamports of `owner`'s store. */
  function FlowOf(c: Chain, s: State, st: Step, owner: Key): RentFlow {
    var k := c.sessionPda(owner);
    match st.op
    case OpenWallet(o, _, _, _, prefunded, _) =>
      if o == owner && k !in s.sessions then CreationFlow(c, prefunded) else NO_FLOW
    case Deposit(o, _, _, _, _, _, _, _, _, _, _, _, prefunded, _) =>
      if o == owner && k !in s.sessions then CreationFlow(c, prefunded) else NO_FLOW
    case Authorize(_, o, _, _, _, _, _) =>
      if o == owner then GrantFlow(c, s, st.op) else NO_FLOW
    case Revoke(_, o, program, key) =>
      if o == owner && k in s.sessions then RentFlow(0, 0, Refund(c, s.sessions[k], program, key)) else NO_FLOW
    case Close(o, _, _, _, _, _, _, _) =>
      if o == owner then RentFlow(0, 0, LamportsAt(s, k)) else NO_FLOW
    case _ => NO_FLOW
  }

  ghost predicate FlowsInto(c: Chain, s: State, s': State, st: Step, owner: Key) {
    var f := FlowOf(c, s, st, owner);
    LamportsAt(s', c.sessionPda(owner)) == LamportsAt(s, c.sessionPda(owner)) + f.paid + f.found - f.returned
  }

  /** What an owner's step leaves in the account of their store, and nothing in anyone else's. */
  ghost predicate Leaves(s: State, s': State, session: Key, lamports: int) {
    forall k :: LamportsAt(s', k) == if k == session then lamports else LamportsAt(s, k)
  }

  lemma OwnFlow(c: Chain, s: State, s': State, st: Step, o: Key, owner: Key, lamports: int, f: RentFlow)
    requires forall a, b :: c.sessionPda(a) == c.sessionPda(b) ==> a == b
    requires Leaves(s, s', c.sessionPda(o), lamports)
    requires lamports == LamportsAt(s, c.sessionPda(o)) + f.paid + f.found - f.returned
    requires FlowOf(c, s, st, owner) == if o == owner then f else NO_FLOW
    ensures FlowsInto(c, s, s', st, owner)
  {
  }

  lemma CreationLeaves(c: Chain, s: State, o: Key, session: Key, prefunded: nat, funded: bool)
    requires WithSession(c, s, o, session, prefunded, funded).Success?
    ensures session == c.sessionPda(o)
    ensures var f := if session in s.sessions then NO_FLOW else CreationFlow(c, prefunded);
            Leaves(s, WithSession(c, s, o, session, prefunded, funded).value, session,
                LamportsAt(s, session) + f.paid + f.found)
  {
  }

  lemma OpenWalletFlows(c: Chain, s: State, st: Step, s': State, owner: Key)
    requires Sound(c) && st.op.OpenWallet? && NextOpenWallet(c, s, st) == Success(s')
    ensures FlowsInto(c, s, s', st, owner)
  {
    var op := st.op;
    var book := NewBook(op.owner, false, op.owner, ZERO_KEY, op.slots);
    CreationLeaves(c, s.(ledgers := s.ledgers[op.ledger := Acct(book, Home)]), op.owner, op.session, op.prefunded,
        op.funded);
    var f := if op.session in s.sessions then NO_FLOW else CreationFlow(c, op.prefunded);
    OwnFlow(c, s, s', st, op.owner, owner, LamportsAt(s, op.session) + f.paid + f.found, f);
  }

  lemma DepositSessions(c: Chain, s: State, st: Step, s': State)
    requires st.op.Deposit? && NextDeposit(c, s, st) == Success(s')
    ensures var op := st.op; var made := WithSession(c, s, op.owner, op.session, op.prefunded, op.funded);
            made.Success? && s'.sessions == made.value.sessions
  {
    DepositResult(c, s, st);
  }

  lemma DepositFlowOf(c: Chain, s: State, st: Step, owner: Key, f: RentFlow)
    requires st.op.Deposit?
    requires f == if c.sessionPda(st.op.owner) in s.sessions then NO_FLOW else CreationFlow(c, st.op.prefunded)
    ensures FlowOf(c, s, st, owner) == if st.op.owner == owner then f else NO_FLOW
  {
  }

  lemma DepositFlows(c: Chain, s: State, st: Step, s': State, owner: Key)
    requires Sound(c) && st.op.Deposit? && NextDeposit(c, s, st) == Success(s')
    ensures FlowsInto(c, s, s', st, owner)
  {
    var op := st.op;
    DepositSessions(c, s, st, s');
    CreationLeaves(c, s, op.owner, op.session, op.prefunded, op.funded);
    var f := if op.session in s.sessions then NO_FLOW else CreationFlow(c, op.prefunded);
    var l := LamportsAt(s, op.session) + f.paid + f.found;
    SameSessionsLeave(s, WithSession(c, s, op.owner, op.session, op.prefunded, op.funded).value, s', op.session, l);
    DepositFlowOf(c, s, st, owner, f);
    OwnFlow(c, s, s', st, op.owner, owner, l, f);
  }

  lemma SameSessionsLeave(s: State, mid: State, s': State, session: Key, lamports: int)
    requires Leaves(s, mid, session, lamports) && s'.sessions == mid.sessions
    ensures Leaves(s, s', session, lamports)
  {
    assert forall k :: LamportsAt(s', k) == LamportsAt(mid, k);
  }

  /** A grant leaves the store with what it had and its top-up. */
  lemma AuthorizedFlows(c: Chain, a: SessionAccount<Store>, program: Key, key: Key, expiresAt: i64, funded: bool)
    requires Authorized(c, a, program, key, expiresAt, funded).Success?
    ensures Authorized(c, a, program, key, expiresAt, funded).value.lamports == a.lamports + TopUp(c, a, program)
  {
    if program !in a.store.programs {
      GrowsByOne(a.store.programs, program, GrantKey(ProgramGrants(a.store, program), key, expiresAt));
    }
  }

  /** The account a grant is made in: the one there is, or a fresh one. */
  function Granted(c: Chain, s: State, op: Op): SessionAccount<Store>
    requires op.Authorize?
  {
    if op.session in s.sessions then s.sessions[op.session] else FreshSession(c, op.owner, op.prefunded)
  }

  lemma AuthorizeSets(c: Chain, s: State, st: Step, s': State)
    requires st.op.Authorize? && NextAuthorize(c, s, st) == Success(s')
    ensures var op := st.op; var a := Authorized(c, Granted(c, s, op), op.program, op.key, op.expiresAt, op.funded);
            op.session == c.sessionPda(op.owner) && a.Success? && s'.sessions == s.sessions[op.session := a.value]
  {
    if st.op.session !in s.sessions {
      FirstGrantSets(c, s, st, s');
    }
  }

  lemma FirstGrantSets(c: Chain, s: State, st: Step, s': State)
    requires st.op.Authorize? && st.op.session !in s.sessions && NextAuthorize(c, s, st) == Success(s')
    ensures var op := st.op; var a := Authorized(c, Granted(c, s, op), op.program, op.key, op.expiresAt, op.funded);
            op.session == c.sessionPda(op.owner) && a.Success? && s'.sessions == s.sessions[op.session := a.value]
  {
    var op := st.op;
    var empty := FreshSession(c, op.owner, op.prefunded);
    var made := s.(sessions := s.sessions[op.session := empty]);
    assert WithSession(c, s, op.owner, op.session, op.prefunded, op.funded) == Success(made);
    assert LoadSession(c, made, op.session, op.owner) == Success(empty);
    SetTwice(s.sessions, op.session, empty, Authorized(c, empty, op.program, op.key, op.expiresAt, op.funded).value);
  }

  lemma SetTwice<T>(f: map<Key, T>, k: Key, x: T, y: T)
    ensures f[k := x][k := y] == f[k := y]
  {
  }

  lemma AuthorizeLeaves(c: Chain, s: State, st: Step, s': State)
    requires st.op.Authorize? && NextAuthorize(c, s, st) == Success(s')
    ensures var k := c.sessionPda(st.op.owner); var f := GrantFlow(c, s, st.op);
            Leaves(s, s', k, LamportsAt(s, k) + f.paid + f.found - f.returned)
  {
    var op := st.op;
    AuthorizeSets(c, s, st, s');
    AuthorizedFlows(c, Granted(c, s, op), op.program, op.key, op.expiresAt, op.funded);
  }

  lemma AuthorizeFlowOf(c: Chain, s: State, st: Step, owner: Key, f: RentFlow)
    requires st.op.Authorize? && f == GrantFlow(c, s, st.op)
    ensures FlowOf(c, s, st, owner) == if st.op.owner == owner then f else NO_FLOW
  {
  }

  lemma AuthorizeFlows(c: Chain, s: State, st: Step, s': State, owner: Key)
    requires Sound(c) && st.op.Authorize? && NextAuthorize(c, s, st) == Success(s')
    ensures FlowsInto(c, s, s', st, owner)
  {
    AuthorizeLeaves(c, s, st, s');
    var k, f := c.sessionPda(st.op.owner), GrantFlow(c, s, st.op);
    AuthorizeFlowOf(c, s, st, owner, f);
    OwnFlow(c, s, s', st, st.op.owner, owner, LamportsAt(s, k) + f.paid + f.found - f.returned, f);
  }

  lemma RevokedFlows(c: Chain, a: SessionAccount<Store>, program: Key, key: Key)
    ensures Revoked(c, a, program, key).lamports == a.lamports - Refund(c, a, program, key)
  {
  }

  lemma RevokeLeaves(c: Chain, s: State, st: Step, s': State)
    requires st.op.Revoke? && NextRevoke(c, s, st) == Success(s')
    ensures var k := c.sessionPda(st.op.owner);
            && k in s.sessions
            && Leaves(s, s', k, LamportsAt(s, k) - Refund(c, s.sessions[k], st.op.program, st.op.key))
  {
    RevokedFlows(c, s.sessions[st.op.session], st.op.program, st.op.key);
  }

  lemma RevokeFlowOf(c: Chain, s: State, st: Step, owner: Key, back: nat)
    requires st.op.Revoke? && c.sessionPda(st.op.owner) in s.sessions
    requires back == Refund(c, s.sessions[c.sessionPda(st.op.owner)], st.op.program, st.op.key)
    ensures FlowOf(c, s, st, owner) == if st.op.owner == owner then RentFlow(0, 0, back) else NO_FLOW
  {
  }

  lemma RevokeFlows(c: Chain, s: State, st: Step, s': State, owner: Key)
    requires Sound(c) && st.op.Revoke? && NextRevoke(c, s, st) == Success(s')
    ensures FlowsInto(c, s, s', st, owner)
  {
    RevokeLeaves(c, s, st, s');
    var k := c.sessionPda(st.op.owner);
    var back := Refund(c, s.sessions[k], st.op.program, st.op.key);
    RevokeFlowOf(c, s, st, owner, back);
    OwnFlow(c, s, s', st, st.op.owner, owner, LamportsAt(s, k) - back, RentFlow(0, 0, back));
  }

  lemma CloseLeaves(c: Chain, s: State, st: Step, s': State)
    requires LedgersOk(c, s.ledgers) && SessionsOk(c, s.sessions)
    requires forall a, b :: c.sessionPda(a) == c.sessionPda(b) ==> a == b
    requires st.op.Close? && NextClose(c, s, st) == Success(s')
    ensures Leaves(s, s', c.sessionPda(st.op.owner), 0)
  {
    assert LedgerOk(c, st.op.ledger, s.ledgers[st.op.ledger]);
    var k := c.sessionPda(st.op.owner);
    if k in s.sessions {
      assert SessionOk(c, k, s.sessions[k]);
    }
  }

  lemma CloseFlowOf(c: Chain, s: State, st: Step, owner: Key, back: nat)
    requires st.op.Close? && back == LamportsAt(s, c.sessionPda(st.op.owner))
    ensures FlowOf(c, s, st, owner) == if st.op.owner == owner then RentFlow(0, 0, back) else NO_FLOW
  {
  }

  lemma CloseFlows(c: Chain, s: State, st: Step, s': State, owner: Key)
    requires Sound(c) && LedgersOk(c, s.ledgers) && SessionsOk(c, s.sessions)
    requires st.op.Close? && NextClose(c, s, st) == Success(s')
    ensures FlowsInto(c, s, s', st, owner)
  {
    CloseLeaves(c, s, st, s');
    var k := c.sessionPda(st.op.owner);
    var back := LamportsAt(s, k);
    CloseFlowOf(c, s, st, owner, back);
    OwnFlow(c, s, s', st, st.op.owner, owner, 0, RentFlow(0, 0, back));
  }

  lemma OthersFlow(c: Chain, s: State, st: Step, s': State, owner: Key)
    requires !st.op.OpenWallet? && !st.op.Deposit? && !st.op.Authorize? && !st.op.Revoke? && !st.op.Close?
    requires Next(c, s, st) == Success(s')
    ensures FlowsInto(c, s, s', st, owner)
  {
    StepFrame(c, s, st);
  }

  lemma StepFlows(c: Chain, s: State, st: Step, s': State, owner: Key)
    requires Sound(c) && Inv(c, s) && Next(c, s, st) == Success(s')
    ensures FlowsInto(c, s, s', st, owner)
  {
    if st.op.OpenWallet? {
      OpenWalletFlows(c, s, st, s', owner);
    } else if st.op.Deposit? {
      DepositFlows(c, s, st, s', owner);
    } else if st.op.Authorize? {
      AuthorizeFlows(c, s, st, s', owner);
    } else if st.op.Revoke? {
      RevokeFlows(c, s, st, s', owner);
    } else if st.op.Close? {
      CloseFlows(c, s, st, s', owner);
    } else {
      OthersFlow(c, s, st, s', owner);
    }
  }

  /** No step takes rent from a wallet that did not sign it, or hands any back unasked. */
  lemma FlowsAreSigned(c: Chain, s: State, st: Step, owner: Key)
    requires Next(c, s, st).Success? && FlowOf(c, s, st, owner) != NO_FLOW
    ensures owner in st.signers
  {
  }

  function Plus(f: RentFlow, g: RentFlow): RentFlow {
    RentFlow(f.paid + g.paid, f.found + g.found, f.returned + g.returned)
  }

  ghost function FlowOver(c: Chain, s: State, steps: seq<Step>, owner: Key): RentFlow
    requires Exec(c, s, steps).Success?
    decreases |steps|
  {
    if steps == [] then NO_FLOW
    else
      var last := |steps| - 1;
      Plus(FlowOver(c, s, steps[..last], owner), FlowOf(c, Exec(c, s, steps[..last]).value, steps[last], owner))
  }

  /** In every run of the vault, from before a store is made until after it is closed, its lamports are
      what its owner paid for it and what its account was found with, less what came back; nothing is
      made or lost. While it stands it is exactly the size of its entries and has the rent of that. */
  lemma {:induction false} RunsPayForStores(c: Chain, s: State, steps: seq<Step>, owner: Key)
    requires Sound(c) && Genesis(c, s) && Exec(c, s, steps).Success?
    ensures var s' := Exec(c, s, steps).value; var k := c.sessionPda(owner); var f := FlowOver(c, s, steps, owner);
            && LamportsAt(s', k) == f.paid + f.found - f.returned
            && (k in s'.sessions ==>
                  && s'.sessions[k].size == Space(|s'.sessions[k].store.programs|)
                  && s'.sessions[k].lamports >= c.rent(s'.sessions[k].size))
    decreases |steps|
  {
    RunInv(c, s, steps);
    var k := c.sessionPda(owner);
    if k in Exec(c, s, steps).value.sessions {
      assert SessionOk(c, k, Exec(c, s, steps).value.sessions[k]);
    }
    if steps != [] {
      var last := |steps| - 1;
      RunsPayForStores(c, s, steps[..last], owner);
      RunInv(c, s, steps[..last]);
      StepFlows(c, Exec(c, s, steps[..last]).value, steps[last], Exec(c, s, steps).value, owner);
    }
  }
}
