/** Money out: every ledger at home can be emptied, all of them one after another, and every ledger away
    brought home first. */
module CashOut {
  import opened Base
  import opened Books
  import opened Chains
  import opened Flow
  import opened Invariant
  import opened LedgerObject
  import opened Machine
  import opened Runs
  import opened SlotTable
  import opened Sweeps
  import opened Totals

  /** A withdrawal sent with the right accounts, whose outward transfer the chain carries out. */
  ghost predicate WellShaped(c: Chain, st: Step) {
    && st.op.Withdraw?
    && var op := st.op;
       && st.venue.Basenet? && op.owner in st.signers && !c.isPda(op.owner)
       && op.ledger == c.ledgerPda(op.owner) && op.vault == c.vault && c.IsTokenProgram(op.tokenProgram)
       && (op.mint != ZERO_KEY ==>
             && op.tokenProgram == c.mintProgram(op.mint)
             && op.vaultToken == c.reserveAddress(op.mint, op.tokenProgram)
             && op.ownerToken == TokenAccount(op.mint, op.owner, op.tokenProgram)
             && (op.tokenProgram == c.token2022 ==> op.mintGiven))
       && op.delivered
  }

  /** The withdrawal asks for what its ledger, at home, holds. */
  ghost predicate AsksWhatItHolds(s: State, st: Step)
    requires st.op.Withdraw?
  {
    && st.op.ledger in s.ledgers && s.ledgers[st.op.ledger].place.Home?
    && st.op.mint in s.ledgers[st.op.ledger].live.claims
    && 0 < st.op.amount <= s.ledgers[st.op.ledger].live.claims[st.op.mint]
  }

  /** Any amount a person's ledger holds at home can be withdrawn at any time. */
  lemma WithdrawSucceeds(c: Chain, s: State, st: Step)
    requires Sound(c) && Inv(c, s) && s.settling == []
    requires WellShaped(c, st) && AsksWhatItHolds(s, st)
    ensures Next(c, s, st).Success?
  {
    ClaimsAreBacked(c, s, st.op.ledger, st.op.mint);
    WithdrawGoes(c, s, st);
    AsWithdraw(c, s, st);
  }

  lemma WithdrawGoes(c: Chain, s: State, st: Step)
    requires Sound(c) && LedgersOk(c, s.ledgers) && PoolsOk(c, s.pools) && WellShaped(c, st) && AsksWhatItHolds(s, st)
    requires st.op.amount <= Backing(c, s.pools, s.lamports, st.op.mint)
    ensures NextWithdraw(c, s, st).Success?
  {
    OwnLedger(c, s, st.op.ledger, st.op.owner);
    PaysOut(c, s, st.op);
  }

  lemma AsWithdraw(c: Chain, s: State, st: Step)
    requires st.op.Withdraw? && s.settling == []
    ensures Next(c, s, st) == NextWithdraw(c, s, st)
  {
  }

  lemma OwnLedger(c: Chain, s: State, k: Key, owner: Key)
    requires Sound(c) && LedgersOk(c, s.ledgers) && k in s.ledgers && k == c.ledgerPda(owner)
    ensures s.ledgers[k].live.owner == owner
  {
    assert LedgerOk(c, k, s.ledgers[k]);
  }

  lemma PaysOut(c: Chain, s: State, op: Op)
    requires PoolsOk(c, s.pools) && op.Withdraw? && WellShaped(c, Step(Basenet, {op.owner}, op))
    requires Sound(c) && 0 < op.amount <= Backing(c, s.pools, s.lamports, op.mint)
    ensures PayOut(c, s, op).Success?
  {
  }

  // ---- Queues of withdrawals ----

  /** A withdrawal of a positive amount, with the right accounts, from a ledger at home. */
  ghost predicate Queued(c: Chain, s: State, st: Step) {
    WellShaped(c, st) && 0 < st.op.amount && st.op.ledger in s.ledgers && s.ledgers[st.op.ledger].place.Home?
  }

  /** What a queue asks of one ledger in one mint, all its withdrawals together. */
  function Asked(outs: seq<Step>, k: Key, m: Key): nat
    requires forall i :: 0 <= i < |outs| ==> outs[i].op.Withdraw?
    decreases |outs|
  {
    if outs == [] then 0
    else
      var last := outs[|outs| - 1].op;
      Asked(outs[..|outs| - 1], k, m) + (if last.ledger == k && last.mint == m then last.amount else 0)
  }

  /** A withdrawal takes its amount from its ledger, and nothing else from any. */
  lemma WithdrawTakes(c: Chain, s: State, st: Step, s': State)
    requires BooksOk(s.ledgers) && st.op.Withdraw? && NextWithdraw(c, s, st) == Success(s')
    ensures s'.settling == s.settling && s'.ledgers.Keys == s.ledgers.Keys
    ensures forall k :: k in s.ledgers ==> s'.ledgers[k].place == s.ledgers[k].place
    ensures st.op.amount <= HeldIn(s.ledgers, st.op.ledger, st.op.mint)
    ensures forall k, m :: HeldIn(s'.ledgers, k, m) == HeldIn(s.ledgers, k, m)
              - (if st.op.ledger == k && st.op.mint == m then st.op.amount else 0)
  {
    DebitEffect(s.ledgers[st.op.ledger].live, st.op.mint, st.op.amount);
  }

  lemma QueuedSucceedsIff(c: Chain, s: State, st: Step)
    requires Sound(c) && Inv(c, s) && s.settling == [] && st.op.Withdraw? && Queued(c, s, st)
    ensures NextWithdraw(c, s, st).Success? <==> st.op.amount <= HeldIn(s.ledgers, st.op.ledger, st.op.mint)
  {
    if NextWithdraw(c, s, st).Success? {
      WithdrawTakes(c, s, st, NextWithdraw(c, s, st).value);
    } else if AsksWhatItHolds(s, st) {
      ClaimsAreBacked(c, s, st.op.ledger, st.op.mint);
      WithdrawGoes(c, s, st);
    }
  }

  /** What a queue that went through leaves behind. */
  ghost predicate Served(c: Chain, s: State, outs: seq<Step>, s': State)
    requires forall i :: 0 <= i < |outs| ==> outs[i].op.Withdraw?
  {
    && Inv(c, s') && s'.settling == [] && s'.ledgers.Keys == s.ledgers.Keys
    && (forall k :: k in s.ledgers ==> s'.ledgers[k].place == s.ledgers[k].place)
    && forall k, m :: HeldIn(s'.ledgers, k, m) == HeldIn(s.ledgers, k, m) - Asked(outs, k, m)
  }

  lemma ServedNext(c: Chain, s: State, outs: seq<Step>, mid: State, s': State)
    requires Sound(c) && outs != [] && forall i :: 0 <= i < |outs| ==> outs[i].op.Withdraw?
    requires Served(c, s, outs[..|outs| - 1], mid) && NextWithdraw(c, mid, outs[|outs| - 1]) == Success(s')
    ensures Served(c, s, outs, s')
  {
    var st := outs[|outs| - 1];
    WithdrawKeepsInv(c, mid, st);
    WithdrawTakes(c, mid, st, s');
  }

  ghost predicate Affordable(s: State, outs: seq<Step>)
    requires forall i :: 0 <= i < |outs| ==> outs[i].op.Withdraw?
  {
    forall k, m :: Asked(outs, k, m) <= HeldIn(s.ledgers, k, m)
  }

  lemma AffordableNext(c: Chain, s: State, outs: seq<Step>, mid: State)
    requires outs != [] && (forall i :: 0 <= i < |outs| ==> outs[i].op.Withdraw?)
    requires Served(c, s, outs[..|outs| - 1], mid)
    ensures var last := outs[|outs| - 1].op;
            Affordable(s, outs) <==>
              Affordable(s, outs[..|outs| - 1]) && last.amount <= HeldIn(mid.ledgers, last.ledger, last.mint)
  {
    var earlier, last := outs[..|outs| - 1], outs[|outs| - 1].op;
    if Affordable(s, outs) {
      forall k, m
        ensures Asked(earlier, k, m) <= HeldIn(s.ledgers, k, m)
      {
        assert Asked(outs, k, m) <= HeldIn(s.ledgers, k, m);
      }
      assert Asked(outs, last.ledger, last.mint) <= HeldIn(s.ledgers, last.ledger, last.mint);
    }
  }

  /** One more withdrawal in the queue. */
  lemma QueueNext(c: Chain, s: State, outs: seq<Step>, mid: State)
    requires Sound(c) && outs != [] && forall i :: 0 <= i < |outs| ==> outs[i].op.Withdraw?
    requires Served(c, s, outs[..|outs| - 1], mid) && Affordable(s, outs[..|outs| - 1])
    requires Queued(c, mid, outs[|outs| - 1])
    ensures NextWithdraw(c, mid, outs[|outs| - 1]).Success? <==> Affordable(s, outs)
    ensures NextWithdraw(c, mid, outs[|outs| - 1]).Success? ==>
              Served(c, s, outs, NextWithdraw(c, mid, outs[|outs| - 1]).value)
  {
    var st := outs[|outs| - 1];
    QueuedSucceedsIff(c, mid, st);
    AffordableNext(c, s, outs, mid);
    if NextWithdraw(c, mid, st).Success? {
      ServedNext(c, s, outs, mid, NextWithdraw(c, mid, st).value);
    }
  }

  lemma StillQueued(c: Chain, s: State, outs: seq<Step>, mid: State, st: Step)
    requires forall i :: 0 <= i < |outs| ==> outs[i].op.Withdraw?
    requires Served(c, s, outs, mid) && Queued(c, s, st)
    ensures Queued(c, mid, st)
  {
  }

  /** However many withdrawals are queued, of whichever ledgers and mints, whole or in parts, and in
      whatever order, all of them go through if and only if none of the ledgers is asked for more of a
      mint, all in all, than it holds: no one's cash-out depends on anyone else's, or on being early. */
  lemma {:induction false} EveryoneCanCashOut(c: Chain, s: State, outs: seq<Step>)
    requires Sound(c) && Inv(c, s) && s.settling == []
    requires forall i :: 0 <= i < |outs| ==> outs[i].op.Withdraw? && Queued(c, s, outs[i])
    ensures Exec(c, s, outs).Success? <==> Affordable(s, outs)
    ensures Exec(c, s, outs).Success? ==> Served(c, s, outs, Exec(c, s, outs).value)
    decreases |outs|
  {
    if outs != [] {
      var earlier, st := outs[..|outs| - 1], outs[|outs| - 1];
      EveryoneCanCashOut(c, s, earlier);
      if Exec(c, s, earlier).Success? {
        var mid := Exec(c, s, earlier).value;
        StillQueued(c, s, earlier, mid, st);
        QueueNext(c, s, outs, mid);
        AsWithdraw(c, mid, st);
      } else {
        Unaffordable(s, outs);
      }
    }
  }

  lemma Unaffordable(s: State, outs: seq<Step>)
    requires outs != [] && (forall i :: 0 <= i < |outs| ==> outs[i].op.Withdraw?)
    requires !Affordable(s, outs[..|outs| - 1])
    ensures !Affordable(s, outs)
  {
    var k, m :| Asked(outs[..|outs| - 1], k, m) > HeldIn(s.ledgers, k, m);
    assert Asked(outs, k, m) > HeldIn(s.ledgers, k, m);
  }

  // ---- Ledgers away ----

  /** What brings a ledger home: an undelegation where it lives, unless one is under way, and the end of
      it on basenet. */
  function Homecoming(a: Key, place: Place<Book>, anyone: Key): seq<Step> {
    var finish := Step(Basenet, {anyone}, FinishUndelegation(a));
    match place
    case Home => []
    case Away(rollup, _) => [Step(Rollup(rollup), {anyone}, Undelegate(anyone, a)), finish]
    case Returning(_, _) => [finish]
  }

  function Homed(s: State, a: Key): State
    requires a in s.ledgers
  {
    s.(ledgers := s.ledgers[a := s.ledgers[a].(place := Home)])
  }

  lemma Undelegated(c: Chain, s: State, a: Key, anyone: Key)
    requires a in s.ledgers && LedgerOk(c, a, s.ledgers[a]) && s.settling == [] && s.ledgers[a].place.Away?
    ensures var l := s.ledgers[a];
            Next(c, s, Step(Rollup(l.place.validator), {anyone}, Undelegate(anyone, a)))
              == Success(s.(ledgers := s.ledgers[a := Acct(l.live, Returning(l.place.validator, l.place.base))]))
  {
  }

  lemma Finished(c: Chain, s: State, a: Key, anyone: Key)
    requires a in s.ledgers && s.settling == [] && s.ledgers[a].place.Returning?
    ensures Next(c, s, Step(Basenet, {anyone}, FinishUndelegation(a))) == Success(Homed(s, a))
  {
  }

  /** Whoever sends it, with no one's consent, a ledger that is away comes home with all it holds, and
      nothing else changes. */
  lemma AnyoneBringsItHome(c: Chain, s: State, a: Key, anyone: Key)
    requires Inv(c, s) && s.settling == [] && a in s.ledgers
    ensures Exec(c, s, Homecoming(a, s.ledgers[a].place, anyone)) == Success(Homed(s, a))
  {
    LedgerComesHome(c, s, a, anyone);
  }

  lemma LedgerComesHome(c: Chain, s: State, a: Key, anyone: Key)
    requires a in s.ledgers && LedgerOk(c, a, s.ledgers[a]) && s.settling == []
    ensures Exec(c, s, Homecoming(a, s.ledgers[a].place, anyone)) == Success(Homed(s, a))
  {
    var l := s.ledgers[a];
    match l.place
    case Home =>
      assert s.ledgers[a := l] == s.ledgers;
    case Away(rollup, base) =>
      ComesHomeInTwo(c, s, a, anyone);
    case Returning(_, _) =>
      Finished(c, s, a, anyone);
      ExecOne(c, s, Homecoming(a, l.place, anyone)[0]);
  }

  lemma ComesHomeInTwo(c: Chain, s: State, a: Key, anyone: Key)
    requires a in s.ledgers && LedgerOk(c, a, s.ledgers[a]) && s.settling == [] && s.ledgers[a].place.Away?
    ensures Exec(c, s, Homecoming(a, s.ledgers[a].place, anyone)) == Success(Homed(s, a))
  {
    var l := s.ledgers[a];
    Undelegated(c, s, a, anyone);
    var mid := s.(ledgers := s.ledgers[a := Acct(l.live, Returning(l.place.validator, l.place.base))]);
    Finished(c, mid, a, anyone);
    TwoSteps(c, s, Homecoming(a, l.place, anyone), mid, Homed(mid, a));
    assert mid.ledgers[a := Acct(l.live, Home)] == s.ledgers[a := Acct(l.live, Home)];
  }

  lemma TwoSteps(c: Chain, s: State, steps: seq<Step>, mid: State, s': State)
    requires |steps| == 2 && Next(c, s, steps[0]) == Success(mid) && Next(c, mid, steps[1]) == Success(s')
    ensures Exec(c, s, steps) == Success(s')
  {
    ExecOne(c, s, steps[0]);
    ExecOne(c, mid, steps[1]);
    ExecConcat(c, s, [steps[0]], [steps[1]]);
    assert steps == [steps[0]] + [steps[1]];
  }

  /** From every reachable state with no settlement open, wherever a person's ledger is, anyone can
      bring it home and its owner then withdraw whatever part of it they like. */
  lemma EveryLedgerCanBeCashedOut(c: Chain, s: State, st: Step, anyone: Key)
    requires Sound(c) && Inv(c, s) && s.settling == [] && WellShaped(c, st) && st.op.ledger in s.ledgers
    requires 0 < st.op.amount <= HeldIn(s.ledgers, st.op.ledger, st.op.mint)
    ensures Exec(c, s, Homecoming(st.op.ledger, s.ledgers[st.op.ledger].place, anyone) + [st]).Success?
  {
    var home := Homecoming(st.op.ledger, s.ledgers[st.op.ledger].place, anyone);
    AnyoneBringsItHome(c, s, st.op.ledger, anyone);
    ExecKeepsInv(c, s, home);
    WithdrawSucceeds(c, Homed(s, st.op.ledger), st);
    ExecOne(c, Homed(s, st.op.ledger), st);
    ExecConcat(c, s, home, [st]);
  }

  /** A close sent by the owner and the rent payer with the accounts it asks for. */
  ghost predicate ReadyToClose(c: Chain, s: State, st: Step) {
    && st.op.Close? && st.venue.Basenet? && s.settling == []
    && var op := st.op;
       && op.owner in st.signers && op.rentPayer in st.signers && c.IsTokenProgram(op.tokenProgram)
       && op.ledger == c.ledgerPda(op.owner) && op.vault == c.vault
       && op.ledger in s.ledgers && s.ledgers[op.ledger].place.Home?
       && op.rentPayer == s.ledgers[op.ledger].live.rentPayer
       && op.session == c.sessionPda(op.owner) && op.delivered
  }

  lemma ClosesWhenCovered(c: Chain, s: State, st: Step)
    requires ReadyToClose(c, s, st) && s.ledgers[st.op.ledger].live.owner == st.op.owner
    requires PoolsCover(c, s.pools, s.ledgers[st.op.ledger].live)
    requires Balance(s.ledgers[st.op.ledger].live, ZERO_KEY) <= Spendable(c, s.lamports)
    ensures Next(c, s, st).Success? <==> st.op.sweep.None?
  {
  }

  /** In a reachable state a ledger at home can be closed whatever it holds, and what decides is the
      account list alone: the close goes through exactly when the list names, in slot order and back
      to back, the reserve and the destination of every token the ledger holds. */
  lemma CloseSucceedsIff(c: Chain, s: State, st: Step, d: LedgerData, w: Accompanying)
    requires Sound(c) && Inv(c, s) && ReadyToClose(c, s, st)
    requires TableOk(d) && s.ledgers[st.op.ledger].live == BookOf(d)
    requires st.op.sweep == SweepFault(c, s.pools, d.entries, w) && w.owner == st.op.owner && w.delivered
    ensures Next(c, s, st).Success? <==> Grouped(c, d.entries, 1, w, w.listed)
  {
    OwnLedger(c, s, st.op.ledger, st.op.owner);
    ClaimsAreCovered(c, s, st.op.ledger);
    ClosesWhenCovered(c, s, st);
    SweepGoesThroughIff(c, s.pools, d, w);
  }

  lemma SweepGoesThroughIff(c: Chain, pools: map<Key, Pool>, d: LedgerData, w: Accompanying)
    requires Sound(c) && PoolsOk(c, pools) && TableOk(d) && PoolsCover(c, pools, BookOf(d))
    ensures w.delivered ==> (SweepFault(c, pools, d.entries, w).None? <==> Grouped(c, d.entries, 1, w, w.listed))
    ensures SweepFault(c, pools, d.entries, w) != Some(InsufficientReserve)
  {
    CoveredBothWays(c, pools, d);
    SweepSucceedsIff(c, pools, d.entries, 1, w, 0);
    assert w.listed[0..] == w.listed;
  }

  lemma {:induction false} SweepErrors(c: Chain, pools: map<Key, Pool>, es: seq<Entry>, i: nat,
      w: Accompanying, at: nat)
    requires i <= |es| && Sweep(c, pools, es, i, w, at).Failure?
    ensures Sweep(c, pools, es, i, w, at).error in
              {MissingTokenAccounts, MintMismatch, NotCanonicalReserve, InsufficientReserve, IncorrectProgramId,
                  CpiFailed}
    decreases |es| - i
  {
    if Swept(es[i]) {
      var next := PayEntry(c, pools, es[i], w, at);
      if next.Success? {
        SweepErrors(c, next.value.0, es, i + 1, w, next.value.1);
      }
    } else {
      SweepErrors(c, pools, es, i + 1, w, at);
    }
  }

  /** The same wherever the ledger is: brought home by anyone, a person's ledger or a program's is closed
      by its owner exactly when the account list is the right one. */
  lemma EveryLedgerCanBeClosedIff(c: Chain, s: State, st: Step, d: LedgerData, w: Accompanying, anyone: Key)
    requires Sound(c) && Inv(c, s) && st.op.Close? && s.settling == [] && st.op.ledger in s.ledgers
    requires ReadyToClose(c, Homed(s, st.op.ledger), st)
    requires TableOk(d) && s.ledgers[st.op.ledger].live == BookOf(d)
    requires st.op.sweep == SweepFault(c, s.pools, d.entries, w) && w.owner == st.op.owner && w.delivered
    ensures Exec(c, s, Homecoming(st.op.ledger, s.ledgers[st.op.ledger].place, anyone) + [st]).Success? <==>
              Grouped(c, d.entries, 1, w, w.listed)
  {
    var home := Homecoming(st.op.ledger, s.ledgers[st.op.ledger].place, anyone);
    AnyoneBringsItHome(c, s, st.op.ledger, anyone);
    ExecKeepsInv(c, s, home);
    CloseSucceedsIff(c, Homed(s, st.op.ledger), st, d, w);
    ExecOne(c, Homed(s, st.op.ledger), st);
    ExecConcat(c, s, home, [st]);
  }

  /** In a reachable state no close finds a reserve short, SOL or token. */
  lemma CloseIsNeverShort(c: Chain, s: State, st: Step, d: LedgerData, w: Accompanying)
    requires Sound(c) && Inv(c, s) && st.op.Close? && st.op.ledger in s.ledgers
    requires TableOk(d) && s.ledgers[st.op.ledger].live == BookOf(d)
    requires st.op.sweep == SweepFault(c, s.pools, d.entries, w) && Next(c, s, st).Failure?
    ensures !Dead(Next(c, s, st).error)
  {
    ClaimsAreCovered(c, s, st.op.ledger);
    SweepFaultIsNotDead(c, s.pools, d, w);
    DeadErrorsAreNeverRaised(c, s, st);
  }

  lemma SweepFaultIsNotDead(c: Chain, pools: map<Key, Pool>, d: LedgerData, w: Accompanying)
    requires Sound(c) && PoolsOk(c, pools) && TableOk(d) && PoolsCover(c, pools, BookOf(d))
    ensures SweepFault(c, pools, d.entries, w).Some? ==> !Dead(SweepFault(c, pools, d.entries, w).value)
  {
    SweepGoesThroughIff(c, pools, d, w);
    if SweepFault(c, pools, d.entries, w).Some? {
      SweepErrors(c, pools, d.entries, 1, w, 0);
    }
  }

  /** What a close brings its owner in one mint: SOL out of the vault's lamports, tokens by the sweep's
      payments to accounts of theirs. */
  ghost function Gain(c: Chain, s: State, s': State, d: LedgerData, w: Accompanying, m: Key): int
    requires TableOk(d) && Sweep(c, s.pools, d.entries, 1, w, 0).Success?
  {
    if m == ZERO_KEY then s.lamports - s'.lamports
    else PaidTo(Payments(c, s.pools, d.entries, 1, w, 0), w.owner, m)
  }

  /** Closing brings the owner exactly the closed ledger's balance of every mint; the mint's reserve and
      the total of its claims fall by as much, and no other ledger changes. */
  lemma CloseSweepsExactly(c: Chain, s: State, st: Step, s': State, d: LedgerData, w: Accompanying, m: Key)
    requires Sound(c) && Inv(c, s) && st.op.Close? && Next(c, s, st) == Success(s')
    requires TableOk(d) && st.op.ledger in s.ledgers && s.ledgers[st.op.ledger].live == BookOf(d)
    requires st.op.sweep == SweepFault(c, s.pools, d.entries, w) && w.owner == st.op.owner
    ensures Sweep(c, s.pools, d.entries, 1, w, 0).Success?
    ensures Gain(c, s, s', d, w, m) == Balance(BookOf(d), m)
    ensures Backing(c, s'.pools, s'.lamports, m) == Backing(c, s.pools, s.lamports, m) - Balance(BookOf(d), m)
    ensures Total(s'.ledgers, m) == Total(s.ledgers, m) - Balance(BookOf(d), m)
    ensures s'.ledgers == s.ledgers - {st.op.ledger}
  {
    AsClose(c, s, st, s');
    CloseLowers(c, s, st, s', BookOf(d), m);
    if m != ZERO_KEY {
      SweepPaysTheOwner(c, s.pools, d, w, m);
    }
  }

  lemma AsClose(c: Chain, s: State, st: Step, s': State)
    requires st.op.Close? && Next(c, s, st) == Success(s')
    ensures NextClose(c, s, st) == Success(s')
  {
  }

  lemma CloseLowers(c: Chain, s: State, st: Step, s': State, b: Book, m: Key)
    requires Sound(c) && Inv(c, s) && st.op.Close? && st.op.ledger in s.ledgers && s.ledgers[st.op.ledger].live == b
    requires NextClose(c, s, st) == Success(s')
    ensures s'.ledgers == s.ledgers - {st.op.ledger} && st.op.sweep.None?
    ensures s.lamports - s'.lamports == Balance(b, ZERO_KEY)
    ensures Backing(c, s'.pools, s'.lamports, m) == Backing(c, s.pools, s.lamports, m) - Balance(b, m)
    ensures Total(s'.ledgers, m) == Total(s.ledgers, m) - Balance(b, m)
  {
    CloseResult(c, s, st);
    assert LedgerOk(c, st.op.ledger, s.ledgers[st.op.ledger]);
    TotalRemove(s.ledgers, st.op.ledger, m);
    DrainedBacks(c, s, b, s'.lamports, m);
  }

  lemma CloseResult(c: Chain, s: State, st: Step)
    requires st.op.Close? && NextClose(c, s, st).Success?
    ensures var s' := NextClose(c, s, st).value; var k := st.op.ledger;
            && k in s.ledgers && st.op.sweep.None? && PoolsCover(c, s.pools, s.ledgers[k].live)
            && Spendable(c, s.lamports) >= Balance(s.ledgers[k].live, ZERO_KEY)
            && s'.ledgers == s.ledgers - {k} && s'.pools == Drained(s.pools, s.ledgers[k].live)
            && s'.lamports == s.lamports - Balance(s.ledgers[k].live, ZERO_KEY)
  {
  }
}
