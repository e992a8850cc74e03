/** The pieces of each handler put together: what its loads, updates and stores amount to is the step
    of the machine. */
module Assembly {
  import opened Accounts
  import opened Base
  import opened Books
  import opened Chains
  import opened Invariant
  import opened LedgerObject
  import opened Machine
  import opened Receipts
  import opened ReceiptLoop
  import opened Sessions
  import opened SessionTable
  import opened SlotTable
  import opened Totals

  lemma BooksAreOk(ls: map<Key, Acct<LedgerAccount>>)
    requires LedgersWf(ls)
    ensures BooksOk(AbsLedgers(ls))
  {
    forall k | k in ls
      ensures BookOk(AbsLedgers(ls)[k].live)
    {
      assert PlacedOk(ls[k]);
    }
  }

  lemma PoolSet(c: Chain, ps: map<Key, Pool>, a: Key, amount: u64)
    requires PoolsOk(c, ps) && a in ps
    ensures PoolsOk(c, ps[a := Pool(ps[a].mint, amount)])
  {
  }

  lemma RevokeStoredIs(c: Chain, s: State, st: Step)
    requires st.op.Revoke?
    ensures RevokeStored(c, s, st) ==
              match Machine.LoadSession(c, s, st.op.session, st.op.owner)
              case Failure(e) => Failure(e)
              case Success(a) =>
                Success(s.(sessions := s.sessions[st.op.session := Revoked(c, a, st.op.program, st.op.key)]))
  {
  }

  /** Headroom and then the claim are the room a deposit asks for. */
  lemma RoomForIs(b: Book, st: Step, minFree: nat, slotIncrease: nat)
    requires st.op.Deposit?
    requires minFree == if st.op.band.Some? then st.op.band.value else DEFAULT_MIN_FREE
    requires slotIncrease == if st.op.growth.Some? then st.op.growth.value else DEFAULT_SLOTS
    ensures RoomFor(b, st) ==
              match Machine.EnsureHeadroom(b, st.venue, st.op.owner, minFree, slotIncrease, st.op.funded)
              case Failure(e) => Failure(e)
              case Success(b') => Claim(b', st.op.mint)
  {
  }

  lemma DepositWithIs(c: Chain, s: State, b: Book, st: Step)
    requires st.op.Deposit?
    ensures DepositWith(c, s, b, st) ==
              match WithSession(c, s, st.op.owner, st.op.session, st.op.prefunded, st.op.funded)
              case Failure(e) => Failure(e)
              case Success(s') => DepositTo(c, s', b, st)
  {
  }

  lemma DonateIs(s: State, st: Step)
    requires st.op.Donate?
    ensures NextDonate(s, st) ==
              match st.op.target
              case None =>
                if s.lamports + st.op.amount > MAX_U64 then Failure(CpiFailed)
                else Success(s.(lamports := s.lamports + st.op.amount))
              case Some(a) =>
                if a !in s.pools || s.pools[a].amount + st.op.amount > MAX_U64 then Failure(CpiFailed)
                else Success(s.(pools := s.pools[a := s.pools[a].(amount := s.pools[a].amount + st.op.amount)]))
  {
  }

  lemma GrowLedgerIs(c: Chain, s: State, st: Step)
    requires st.op.GrowPda? && st.op.ledger in s.ledgers
    ensures GrowLedger(c, s, st) ==
              match Machine.EnsureHeadroom(s.ledgers[st.op.ledger].live, st.venue, st.op.payer, st.op.minFree,
                                           st.op.slotIncrease, st.op.funded)
              case Failure(e) => Failure(e)
              case Success(b) => Success(s.(ledgers := s.ledgers[st.op.ledger := s.ledgers[st.op.ledger].(live := b)]))
  {
  }

  lemma CloseStepsIs(c: Chain, s: State, st: Step, l: Book)
    requires st.op.Close? && st.op.ledger in s.ledgers && l == s.ledgers[st.op.ledger].live
    ensures CloseSteps(c, s, st) ==
              if Spendable(c, s.lamports) < Balance(l, ZERO_KEY) then Failure(InsufficientReserve)
              else if Balance(l, ZERO_KEY) > 0 && !st.op.delivered then Failure(CpiFailed)
              else CloseTokens(c, s, st)
  {
  }

  lemma CloseTokensIs(c: Chain, s: State, st: Step, l: Book)
    requires st.op.Close? && st.op.ledger in s.ledgers && l == s.ledgers[st.op.ledger].live
    requires Spendable(c, s.lamports) >= Balance(l, ZERO_KEY)
    ensures st.op.sweep.Some? ==> CloseTokens(c, s, st) == Failure(st.op.sweep.value)
    ensures st.op.sweep.None? && PoolsCover(c, s.pools, l) ==> CloseTokens(c, s, st) == CloseSwept(c, s, st, l)
  {
  }

  lemma CloseIsNext(c: Chain, s: State, st: Step)
    requires st.op.Close?
    ensures Next(c, s, st) == if Blocked(s, st) then Failure(Busy) else NextClose(c, s, st)
  {
  }

  lemma DrainedOk(c: Chain, ps: map<Key, Pool>, b: Book)
    requires PoolsOk(c, ps)
    ensures PoolsOk(c, Drained(ps, b))
  {
  }

  lemma MoveIs(ls: map<Key, Acct<Book>>, src: Key, dst: Key, mint: Key, amount: u64, a: Book, b: Book)
    requires src in ls && dst in ls && src != dst
    requires Books.Debit(ls[src].live, mint, amount) == Success(a)
    requires Books.Credit(ls[dst].live, mint, amount) == Success(b)
    ensures Move(ls, src, dst, mint, amount) == Success(ls[src := ls[src].(live := a)][dst := ls[dst].(live := b)])
  {
  }

  lemma ExtendMatch(ds: seq<LedgerData>, infos: seq<Key>, d: LedgerData, idx: nat, cur: map<Key, Acct<Book>>)
    requires idx < |infos| && |ds| == idx && Match(ds, infos[..idx], cur) && Distinct(infos[..idx])
    requires infos[idx] in cur && infos[idx] !in infos[..idx] && TableOk(d) && BookOf(d) == cur[infos[idx]].live
    ensures Match(ds + [d], infos[..idx + 1], cur) && Distinct(infos[..idx + 1])
  {
    assert infos[..idx + 1] == infos[..idx] + [infos[idx]];
  }

  /** The first `i` of the named ledgers are as in `end`, the rest as in `start`. */
  ghost predicate Blended(start: map<Key, Acct<Book>>, end: map<Key, Acct<Book>>, now: map<Key, Acct<Book>>,
      infos: seq<Key>, i: nat)
    requires start.Keys == end.Keys && i <= |infos|
  {
    now.Keys == start.Keys && forall k :: k in start ==> now[k] == if k in infos[..i] then end[k] else start[k]
  }

  lemma NotYetBlended(start: map<Key, Acct<Book>>, end: map<Key, Acct<Book>>, now: map<Key, Acct<Book>>,
      infos: seq<Key>, i: nat)
    requires OnlyClaims(start, end) && i < |infos| && Distinct(infos) && infos[i] in start
    requires Blended(start, end, now, infos, i)
    ensures now[infos[i]] == start[infos[i]] && end[infos[i]].live.capacity == now[infos[i]].live.capacity
  {
  }

  lemma SameCapacity(a: LedgerAccount, d: LedgerData)
    requires TableOk(a.data) && TableOk(d) && BookOf(a.data).capacity == BookOf(d).capacity
    ensures |a.data.entries| == |d.entries|
  {
  }

  lemma BlendStep(start: map<Key, Acct<Book>>, end: map<Key, Acct<Book>>, now: map<Key, Acct<Book>>,
      next: map<Key, Acct<Book>>, infos: seq<Key>, i: nat)
    requires OnlyClaims(start, end) && i < |infos| && Distinct(infos) && infos[i] in start
    requires Blended(start, end, now, infos, i)
    requires next == now[infos[i] := now[infos[i]].(live := end[infos[i]].live)]
    ensures Blended(start, end, next, infos, i + 1)
  {
    assert infos[..i + 1] == infos[..i] + [infos[i]];
    NotYetBlended(start, end, now, infos, i);
  }

  lemma PaidIs(c: Chain, s: State, st: Step, b: Book, ps: map<Key, Pool>, lamports: u64, was: Acct<Book>,
      ls: map<Key, Acct<Book>>)
    requires st.op.Deposit? && was.place.Home?
    requires TakeInto(c, s.pools, s.lamports, st.op) == Success((ps, lamports))
    requires Books.Credit(b, st.op.mint, st.op.amount).Success?
    requires ls == s.ledgers[st.op.ledger := was][st.op.ledger
               := was.(live := Books.Credit(b, st.op.mint, st.op.amount).value)]
    ensures DepositPaid(c, s, b, st) == Success(s.(ledgers := ls, pools := ps, lamports := lamports))
  {
    assert ls == s.ledgers[st.op.ledger := Acct(Books.Credit(b, st.op.mint, st.op.amount).value, Home)];
  }

  /** Forgetting a key, or dropping a program with its refund, as the owner sees the store. */
  lemma RevokedIs(c: Chain, a: SessionAccount<SessionData>, program: Key, key: Key, a': SessionAccount<SessionData>)
    requires StoreWf(a)
    requires a'.store == a.store.(entries := if key == ZERO_KEY then DropIn(a.store.entries, program)
               else RevokeIn(a.store.entries, program, key))
    requires if key == ZERO_KEY && |a'.store.entries| != |a.store.entries| then
               a'.size == Space(|a'.store.entries|)
               && a'.lamports == (if a.lamports < c.rent(a'.size) then a.lamports else c.rent(a'.size))
             else a'.size == a.size && a'.lamports == a.lamports
    ensures StoreWf(a') && AbsStore(a') == Revoked(c, AbsStore(a), program, key)
  {
    var es := a.store.entries;
    InIffFound(es, program);
    if key == ZERO_KEY {
      DropInRefines(es, program);
      ProgramsCount(a'.store.entries, |a'.store.entries|);
      if program !in Programs(es) {
        assert Programs(es) - {program} == Programs(es);
        ProgramsCount(es, |es|);
        DropNothing(es, program);
      }
    } else {
      RevokeInRefines(es, program, key);
    }
  }

  lemma WithdrawPaidIs(c: Chain, s: State, l: Acct<Book>, st: Step, ps: map<Key, Pool>, lamports: u64)
    requires st.op.Withdraw? && PayFrom(c, s.pools, s.lamports, st.op) == Success((ps, lamports))
    ensures WithdrawPaid(c, s, l, st)
              == Success(s.(ledgers := s.ledgers[st.op.ledger := l], pools := ps, lamports := lamports))
  {
  }

  lemma BlendedAll(start: map<Key, Acct<Book>>, end: map<Key, Acct<Book>>, now: map<Key, Acct<Book>>, infos: seq<Key>)
    requires start.Keys == end.Keys && Blended(start, end, now, infos, |infos|)
    requires forall k :: k in start && k !in infos ==> end[k] == start[k]
    ensures now == end
  {
    assert infos[..|infos|] == infos;
  }
}
