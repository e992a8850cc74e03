/** Where ledgers live: a ledger changes only where it is, and the copy basenet shows meanwhile is the
    one it left behind. */
module Places {
  import opened Base
  import opened Books
  import opened Chains
  import opened Flow
  import opened Frames
  import opened Invariant
  import opened Machine
  import opened Receipts
  import opened Runs
  import opened Totals

  /** The only ways a ledger account may change in one step sent to `v`: who it belongs to and what
      binds it never do, and its slots never shrink. */
  ghost predicate Moves(a: Acct<Book>, a': Acct<Book>, v: Venue) {
    && a'.live == a.live.(claims := a'.live.claims, capacity := a'.live.capacity)
    && a'.live.capacity >= a.live.capacity
    && (a'.live != a.live ==> Here(a, v) && a'.place == a.place)
    && match (a.place, a'.place)
       case (Home, Home) => true
       case (Home, Away(_, base)) => v.Basenet? && base == a.live
       case (Away(w, base), Away(w', base')) => w == w' && base == base'
       case (Away(w, base), Returning(w', base')) => v == Rollup(w) && w == w' && base == base'
       case (Returning(w, base), Returning(w', base')) => w == w' && base == base'
       case (Returning(_, _), Home) => v.Basenet?
       case _ => false
  }

  /** The owner of ledger `a` sends it away. */
  ghost predicate SendsAway(c: Chain, st: Step, a: Key) {
    st.op.Delegate? && st.op.ledger == a && st.op.owner in st.signers && a == c.ledgerPda(st.op.owner)
  }

  /** A ledger appears at home and disappears only from home; between, it moves as it may, and leaves
      home only when its owner sends it. */
  ghost predicate LedgerMoves(c: Chain, s: State, s': State, st: Step, a: Key) {
    && (a in s'.ledgers && a !in s.ledgers ==> s'.ledgers[a].place.Home?)
    && (a in s.ledgers && a !in s'.ledgers ==> s.ledgers[a].place.Home? && st.venue.Basenet?)
    && (a in s.ledgers && a in s'.ledgers ==>
          && Moves(s.ledgers[a], s'.ledgers[a], st.venue)
          && (s.ledgers[a].place.Home? && !s'.ledgers[a].place.Home? ==> SendsAway(c, st, a)))
  }

  lemma OpeningMoves(c: Chain, s: State, st: Step, a: Key)
    requires st.op.OpenWallet? || st.op.OpenPda? || st.op.GrowPda?
    requires Next(c, s, st).Success?
    ensures LedgerMoves(c, s, Next(c, s, st).value, st, a)
  {
  }

  lemma DepositMoves(c: Chain, s: State, st: Step, a: Key)
    requires BooksOk(s.ledgers) && st.op.Deposit? && NextDeposit(c, s, st).Success?
    ensures LedgerMoves(c, s, NextDeposit(c, s, st).value, st, a)
  {
    DepositSets(c, s, st, NextDeposit(c, s, st).value);
    if st.op.ledger in s.ledgers {
      DepositGrows(c, s, st);
    }
  }

  lemma DepositSets(c: Chain, s: State, st: Step, s': State)
    requires st.op.Deposit? && NextDeposit(c, s, st) == Success(s')
    ensures var k := st.op.ledger;
            st.venue.Basenet? && k in s'.ledgers && s'.ledgers[k].place.Home?
                && s'.ledgers == s.ledgers[k := s'.ledgers[k]]
  {
    DepositResult(c, s, st);
  }

  lemma DepositGrows(c: Chain, s: State, st: Step)
    requires BooksOk(s.ledgers) && st.op.Deposit? && NextDeposit(c, s, st).Success? && st.op.ledger in s.ledgers
    ensures var k := st.op.ledger; var a' := NextDeposit(c, s, st).value.ledgers[k];
            && Here(s.ledgers[k], st.venue) && st.venue.Basenet? && a'.place.Home?
            && a'.live == s.ledgers[k].live.(claims := a'.live.claims, capacity := a'.live.capacity)
            && a'.live.capacity >= s.ledgers[k].live.capacity
  {
    DepositResult(c, s, st);
    RoomForEffect(s.ledgers[st.op.ledger].live, st);
  }

  lemma WithdrawMoves(c: Chain, s: State, st: Step, a: Key)
    requires st.op.Withdraw? || st.op.Close?
    requires Next(c, s, st).Success?
    ensures LedgerMoves(c, s, Next(c, s, st).value, st, a)
  {
  }

  lemma SettleMovesHere(c: Chain, s: State, st: Step, a: Key)
    requires BooksOk(s.ledgers) && st.op.Settle? && NextSettle(c, s, st).Success?
    ensures LedgerMoves(c, s, NextSettle(c, s, st).value, st, a)
  {
    SettleMoves(c, s, st);
    MoveShape(s.ledgers, st.op.src, st.op.dst, st.op.mint, st.op.amount);
    assert Here(s.ledgers[st.op.src], st.venue) && Here(s.ledgers[st.op.dst], st.venue);
  }

  lemma BeginMovesHere(c: Chain, s: State, st: Step, a: Key)
    requires BooksOk(s.ledgers) && st.op.SettleBegin? && NextSettleBegin(c, s, st).Success?
    ensures LedgerMoves(c, s, NextSettleBegin(c, s, st).value, st, a)
  {
    var r := ReadReceipt(s, st.venue, st.op.receipt).value;
    var infos := st.op.remaining[..|r.owners|];
    BeginMoves(c, s, st, r, infos);
    NamedMoves(c, s, st.venue, r, infos, NextSettleBegin(c, s, st).value.ledgers, a);
  }

  lemma NamedMoves(c: Chain, s: State, v: Venue, r: Receipt, infos: seq<Key>, ls: map<Key, Acct<Book>>, a: Key)
    requires BooksOk(s.ledgers) && |infos| == |r.owners| && InRange(r.movements, |infos|)
    requires CheckLedgers(c, s, v, r, infos, 0).None? && MoveAll(s.ledgers, infos, r.movements) == Success(ls)
    ensures ls.Keys == s.ledgers.Keys
    ensures a in ls ==> Moves(s.ledgers[a], ls[a], v) && ls[a].place == s.ledgers[a].place
  {
    MoveAllEffect(s.ledgers, infos, r.movements);
    if a in infos {
      var i :| 0 <= i < |infos| && infos[i] == a;
      assert CheckLedger(c, s, v, r, infos, i).None?;
    }
  }

  lemma HouseMoves(c: Chain, s: State, st: Step, a: Key)
    requires st.op.Delegate? || st.op.Undelegate? || st.op.FinishUndelegation?
    requires Next(c, s, st).Success?
    ensures LedgerMoves(c, s, Next(c, s, st).value, st, a)
  {
  }

  /** No instruction changes a ledger anywhere but where it lives, so a rollup can write only the
      ledgers delegated to it and basenet none of them; delegating leaves a copy of the live ledger
      behind, and nothing touches that copy until the ledger is home. */
  lemma StepMoves(c: Chain, s: State, st: Step, a: Key)
    requires Inv(c, s) && Next(c, s, st).Success?
    ensures LedgerMoves(c, s, Next(c, s, st).value, st, a)
  {
    var op := st.op;
    if op.OpenWallet? || op.OpenPda? || op.GrowPda? {
      OpeningMoves(c, s, st, a);
    } else if op.Deposit? {
      DepositMoves(c, s, st, a);
    } else if op.Withdraw? || op.Close? {
      WithdrawMoves(c, s, st, a);
    } else if op.Settle? {
      SettleMovesHere(c, s, st, a);
    } else if op.SettleBegin? {
      BeginMovesHere(c, s, st, a);
    } else if op.Delegate? || op.Undelegate? || op.FinishUndelegation? {
      HouseMoves(c, s, st, a);
    } else {
      LedgersUntouched(c, s, st);
    }
  }

  /** Step `j` of the run, signed by the owner, sent the ledger away with `base` as its balances. */
  ghost predicate SentAway(c: Chain, s: State, steps: seq<Step>, a: Key, base: Book, j: nat) {
    && j < |steps| && SendsAway(c, steps[j], a)
    && Exec(c, s, steps[..j]).Success?
    && a in Exec(c, s, steps[..j]).value.ledgers && Exec(c, s, steps[..j]).value.ledgers[a] == Acct(base, Home)
  }

  lemma ExtendSentAway(c: Chain, s: State, steps: seq<Step>, a: Key, base: Book, j: nat)
    requires steps != [] && SentAway(c, s, steps[..|steps| - 1], a, base, j)
    ensures SentAway(c, s, steps, a, base, j)
  {
    assert steps[..|steps| - 1][..j] == steps[..j];
  }

  /** In every run, what basenet shows of a ledger that is away is what the ledger held when its owner
      delegated it. */
  lemma {:induction false} StaleCopyIsTheDelegated(c: Chain, s: State, steps: seq<Step>, a: Key) returns (j: nat)
    requires Sound(c) && Genesis(c, s) && Exec(c, s, steps).Success?
    requires a in Exec(c, s, steps).value.ledgers && !Exec(c, s, steps).value.ledgers[a].place.Home?
    ensures SentAway(c, s, steps, a, BaseBook(Exec(c, s, steps).value.ledgers[a]), j)
    decreases |steps|
  {
    var last := |steps| - 1;
    var earlier := steps[..last];
    RunInv(c, s, earlier);
    var before := Exec(c, s, earlier).value;
    StepMoves(c, before, steps[last], a);
    if before.ledgers[a].place.Home? {
      j := last;
    } else {
      j := StaleCopyIsTheDelegated(c, s, earlier, a);
      ExtendSentAway(c, s, steps, a, BaseBook(before.ledgers[a]), j);
    }
  }
}
