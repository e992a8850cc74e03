/** Whose word moves a person's ledger: in every run, only their own signature or a key they granted
    for the very program that asks, and have not taken back. */
module Consent {
  import opened Base
  import opened Books
  import opened Chains
  import opened Flow
  import opened Frames
  import opened GrantRuns
  import opened Invariant
  import opened Machine
  import opened Receipts
  import opened Runs
  import opened Sessions
  import opened Totals

  // ---- What one step does to one program's keys ----

  function GrantsAt(s: State, session: Key, program: Key): Grants {
    if session in s.sessions then ProgramGrants(s.sessions[session].store, program) else NO_GRANTS
  }

  lemma AuthorizeGrants(c: Chain, s: State, st: Step, k: Key, p: Key)
    requires st.op.Authorize? && NextAuthorize(c, s, st).Success?
    ensures st.op.session == c.sessionPda(st.op.owner) && st.op.owner in st.signers
    ensures GrantsAt(NextAuthorize(c, s, st).value, k, p) ==
              if k == st.op.session && p == st.op.program then GrantKey(GrantsAt(s, k, p), st.op.key, st.op.expiresAt)
              else GrantsAt(s, k, p)
  {
    var op := st.op;
    var s1 := if op.session in s.sessions then s
        else WithSession(c, s, op.owner, op.session, op.prefunded, op.funded).value;
    if op.session !in s.sessions {
      WithSessionKeepsKeys(c, s, op.owner, op.session, op.prefunded, op.funded, k, p);
    }
    GrantedInStore(c, s1, op.session, op.program, op.key, op.expiresAt, op.funded, k, p);
  }

  lemma GrantedInStore(c: Chain, s: State, session: Key, program: Key, key: Key, expiresAt: i64, funded: bool,
      k: Key, p: Key)
    requires session in s.sessions && Authorized(c, s.sessions[session], program, key, expiresAt, funded).Success?
    ensures var a := Authorized(c, s.sessions[session], program, key, expiresAt, funded).value;
            GrantsAt(s.(sessions := s.sessions[session := a]), k, p) ==
              if k == session && p == program then GrantKey(GrantsAt(s, k, p), key, expiresAt) else GrantsAt(s, k, p)
  {
  }

  lemma RevokeForgets(c: Chain, s: State, st: Step, k: Key, p: Key)
    requires st.op.Revoke? && NextRevoke(c, s, st).Success?
    ensures st.op.session == c.sessionPda(st.op.owner)
    ensures var g := GrantsAt(s, k, p); var g' := GrantsAt(NextRevoke(c, s, st).value, k, p);
            if k == st.op.session && p == st.op.program then
              if st.op.key == ZERO_KEY then g' == NO_GRANTS
              else g' == RevokeKey(g, st.op.key) || g' == g == NO_GRANTS
            else g' == g
  {
  }

  lemma AuthorizeRegrants(c: Chain, s: State, st: Step, owner: Key, program: Key)
    requires Sound(c) && st.op.Authorize? && NextAuthorize(c, s, st).Success?
    ensures GrantsAt(NextAuthorize(c, s, st).value, c.sessionPda(owner), program)
              == AfterStep(GrantsAt(s, c.sessionPda(owner), program), st, owner, program)
  {
    AuthorizeGrants(c, s, st, c.sessionPda(owner), program);
  }

  lemma RevokeRegrants(c: Chain, s: State, st: Step, owner: Key, program: Key)
    requires Sound(c) && st.op.Revoke? && NextRevoke(c, s, st).Success?
    ensures GrantsAt(NextRevoke(c, s, st).value, c.sessionPda(owner), program)
              == AfterStep(GrantsAt(s, c.sessionPda(owner), program), st, owner, program)
  {
    RevokeForgets(c, s, st, c.sessionPda(owner), program);
  }

  /** A closed wallet's store goes with its ledger; a program's owner never had one. */
  lemma CloseRegrants(c: Chain, s: State, st: Step, owner: Key, program: Key)
    requires Sound(c) && LedgersOk(c, s.ledgers) && SessionsOk(c, s.sessions)
    requires st.op.Close? && NextClose(c, s, st).Success?
    ensures GrantsAt(NextClose(c, s, st).value, c.sessionPda(owner), program)
              == AfterStep(GrantsAt(s, c.sessionPda(owner), program), st, owner, program)
  {
    CloseSessions(c, s, st);
    NoStoreForPrograms(c, s, owner);
    GrantsAfterClose(c, s, st, NextClose(c, s, st).value, owner, program);
  }

  lemma GrantsAfterClose(c: Chain, s: State, st: Step, s': State, owner: Key, program: Key)
    requires st.op.Close? && (c.isPda(owner) ==> c.sessionPda(owner) !in s.sessions)
    requires forall a, b :: c.sessionPda(a) == c.sessionPda(b) ==> a == b
    requires s'.sessions == if c.isPda(st.op.owner) then s.sessions else s.sessions - {c.sessionPda(st.op.owner)}
    ensures GrantsAt(s', c.sessionPda(owner), program)
              == AfterStep(GrantsAt(s, c.sessionPda(owner), program), st, owner, program)
  {
  }

  lemma CloseSessions(c: Chain, s: State, st: Step)
    requires LedgersOk(c, s.ledgers) && st.op.Close? && NextClose(c, s, st).Success?
    ensures NextClose(c, s, st).value.sessions ==
              if c.isPda(st.op.owner) then s.sessions else s.sessions - {c.sessionPda(st.op.owner)}
  {
    assert LedgerOk(c, st.op.ledger, s.ledgers[st.op.ledger]);
  }

  lemma NoStoreForPrograms(c: Chain, s: State, owner: Key)
    requires SessionsOk(c, s.sessions) && forall a, b :: c.sessionPda(a) == c.sessionPda(b) ==> a == b
    ensures c.isPda(owner) ==> c.sessionPda(owner) !in s.sessions
  {
    var k := c.sessionPda(owner);
    if k in s.sessions {
      assert SessionOk(c, k, s.sessions[k]);
    }
  }

  lemma WithSessionKeepsKeys(c: Chain, s: State, owner: Key, session: Key, prefunded: nat, funded: bool, k: Key,
      program: Key)
    requires WithSession(c, s, owner, session, prefunded, funded).Success?
    ensures GrantsAt(WithSession(c, s, owner, session, prefunded, funded).value, k, program) == GrantsAt(s, k, program)
  {
  }

  /** No other instruction adds or removes a key. */
  lemma OthersKeepKeys(c: Chain, s: State, st: Step, session: Key, program: Key)
    requires !st.op.Authorize? && !st.op.Revoke? && !st.op.Close?
    requires Next(c, s, st).Success?
    ensures GrantsAt(Next(c, s, st).value, session, program) == GrantsAt(s, session, program)
  {
    var op := st.op;
    if op.OpenWallet? {
      var book := NewBook(op.owner, false, op.owner, ZERO_KEY, op.slots);
      WithSessionKeepsKeys(c, s.(ledgers := s.ledgers[op.ledger := Acct(book, Home)]), op.owner, op.session,
          op.prefunded, op.funded, session, program);
    } else if op.Deposit? {
      DepositResult(c, s, st);
      WithSessionKeepsKeys(c, s, op.owner, op.session, op.prefunded, op.funded, session, program);
    } else {
      StepFrame(c, s, st);
    }
  }

  /** Each instruction does to the keys a store holds for a program what its step says, and no
      instruction sent by anyone but the store's owner does anything to them. */
  lemma StepRegrants(c: Chain, s: State, st: Step, owner: Key, program: Key)
    requires Sound(c) && Inv(c, s) && Next(c, s, st).Success?
    ensures GrantsAt(Next(c, s, st).value, c.sessionPda(owner), program)
              == AfterStep(GrantsAt(s, c.sessionPda(owner), program), st, owner, program)
  {
    if st.op.Authorize? {
      AuthorizeRegrants(c, s, st, owner, program);
    } else if st.op.Revoke? {
      RevokeRegrants(c, s, st, owner, program);
    } else if st.op.Close? {
      CloseRegrants(c, s, st, owner, program);
    } else {
      OthersKeepKeys(c, s, st, c.sessionPda(owner), program);
    }
  }

  // ---- Grants over a run ----

  /** After every run the store holds for each program exactly what the owner's own grants, revocations,
      drops and closes amount to, in their order: nothing else adds a key, removes one or moves one
      up the queue. */
  lemma {:induction false} StoreIsItsHistory(c: Chain, s: State, steps: seq<Step>, owner: Key, program: Key)
    requires Sound(c) && Genesis(c, s) && Exec(c, s, steps).Success?
    ensures GrantsAt(Exec(c, s, steps).value, c.sessionPda(owner), program) == GrantsAfter(steps, owner, program)
    decreases |steps|
  {
    if steps != [] {
      var last := |steps| - 1;
      RunInv(c, s, steps[..last]);
      StoreIsItsHistory(c, s, steps[..last], owner, program);
      StepRegrants(c, Exec(c, s, steps[..last]).value, steps[last], owner, program);
    }
  }

  /** A grant is signed by the store's owner and never for the zero key, which means no key. */
  predicate SignedGrant(st: Step) {
    st.op.Authorize? ==> st.op.owner in st.signers && st.op.key != ZERO_KEY
  }

  lemma GrantIsSigned(c: Chain, s: State, st: Step)
    requires Next(c, s, st).Success?
    ensures SignedGrant(st)
  {
  }

  predicate GrantsSigned(steps: seq<Step>)
    decreases |steps|
  {
    steps == [] || (SignedGrant(steps[|steps| - 1]) && GrantsSigned(steps[..|steps| - 1]))
  }

  lemma {:induction false} RunsAreSigned(c: Chain, s: State, steps: seq<Step>)
    requires Exec(c, s, steps).Success?
    ensures GrantsSigned(steps)
    decreases |steps|
  {
    if steps != [] {
      RunsAreSigned(c, s, steps[..|steps| - 1]);
      GrantIsSigned(c, Exec(c, s, steps[..|steps| - 1]).value, steps[|steps| - 1]);
    }
  }

  lemma {:induction false} SignedAt(steps: seq<Step>, j: nat)
    requires GrantsSigned(steps) && j < |steps|
    ensures SignedGrant(steps[j])
    decreases |steps|
  {
    if j < |steps| - 1 {
      SignedAt(steps[..|steps| - 1], j);
    }
  }

  /** Step `j`, signed by the owner, granted the key for the program, and the grant stands. */
  ghost predicate GrantedBy(steps: seq<Step>, j: nat, owner: Key, program: Key, key: Key, now: i64) {
    StandsSince(steps, j, owner, program, key, now) && owner in steps[j].signers
  }

  /** In every run a store honours a key for a program at a time if and only if the owner granted it by
      a step they signed and the grant stands: not revoked, dropped or closed away since; still in
      the ring, never pushed out by newer keys; or still in the temporary slot and not yet expired. */
  lemma HonouredKeysWereGranted(c: Chain, s: State, steps: seq<Step>, owner: Key, program: Key, key: Key, now: i64)
    requires Sound(c) && Genesis(c, s) && Exec(c, s, steps).Success?
    ensures (key != ZERO_KEY
                && GrantsAllow(GrantsAt(Exec(c, s, steps).value, c.sessionPda(owner), program), key, now)) <==>
              exists j: nat :: GrantedBy(steps, j, owner, program, key, now)
  {
    StoreIsItsHistory(c, s, steps, owner, program);
    RunsAreSigned(c, s, steps);
    StandingIsSigned(steps, owner, program, key, now);
    if key != ZERO_KEY {
      HonouredIff(steps, owner, program, key, now);
    }
  }

  lemma StandingIsSigned(steps: seq<Step>, owner: Key, program: Key, key: Key, now: i64)
    requires GrantsSigned(steps)
    ensures (exists j: nat :: StandsSince(steps, j, owner, program, key, now)) <==>
              exists j: nat :: GrantedBy(steps, j, owner, program, key, now)
    ensures (exists j: nat :: StandsSince(steps, j, owner, program, key, now)) ==> key != ZERO_KEY
  {
    if exists j: nat :: StandsSince(steps, j, owner, program, key, now) {
      var j: nat :| StandsSince(steps, j, owner, program, key, now);
      SignedAt(steps, j);
      assert GrantedBy(steps, j, owner, program, key, now);
    }
    if exists j: nat :: GrantedBy(steps, j, owner, program, key, now) {
      var j: nat :| GrantedBy(steps, j, owner, program, key, now);
      assert StandsSince(steps, j, owner, program, key, now);
    }
  }

  // ---- What needs consent, and what the handlers check ----

  /** Step from `s` to `s'` takes from the ledger, or opens a new mint on it. */
  ghost predicate Touches(s: State, s': State, a: Key, m: Key) {
    || Holding(s', a, m) < Holding(s, a, m)
    || (a in s.ledgers && a in s'.ledgers && m in s'.ledgers[a].live.claims && m !in s.ledgers[a].live.claims)
  }

  /** The step carries the person's consent: their signature, or that of a key their store honours
      for the program on the other side. */
  ghost predicate Consented(c: Chain, s: State, st: Step, person: Key) {
    || person in st.signers
    || (exists key, program :: key in st.signers && HonouredFor(c, s, st, person, key, program))
  }

  ghost predicate HonouredFor(c: Chain, s: State, st: Step, person: Key, key: Key, program: Key) {
    AsksFor(s, st, program) && Honours(c, s, st.venue, person, key, program)
  }

  /** The person's store honours the key for the program now. */
  predicate Honours(c: Chain, s: State, v: Venue, person: Key, key: Key, program: Key) {
    key != ZERO_KEY && GrantsAllow(GrantsAt(s, c.sessionPda(person), program), key, ClockOf(s, v).unix)
  }

  /** The program on whose behalf a settlement runs: a receipt's member, or the one the paying ledger
      is bound to. */
  ghost predicate AsksFor(s: State, st: Step, program: Key) {
    || (st.op.SettleBegin? && At(st.venue, st.op.receipt) in s.receipts
        && program == s.receipts[At(st.venue, st.op.receipt)].terms.member)
    || (st.op.Settle? && st.op.src in s.ledgers && program == s.ledgers[st.op.src].live.authorized)
  }

  /** The handlers' question to a store, answered: yes to the owner, and yes to a key if and only if the
      store passed is the owner's and honours the key. */
  lemma MayConsentIff(c: Chain, s: State, v: Venue, session: Key, owner: Key, consenter: Key, program: Key)
    ensures MayConsent(c, s, v, session, owner, consenter, program) == Success(true) <==>
              || consenter == owner
              || (session == c.sessionPda(owner) && Honours(c, s, v, owner, consenter, program))
  {
  }

  lemma SettleIsConsented(c: Chain, s: State, st: Step, s': State, person: Key, m: Key)
    requires OwnLedgers(c, s.ledgers) && LedgersOk(c, s.ledgers) && !c.isPda(person)
    requires st.op.Settle? && NextSettle(c, s, st) == Success(s')
    requires Touches(s, s', c.ledgerPda(person), m)
    ensures Consented(c, s, st, person)
  {
    var op := st.op;
    SettleMoves(c, s, st);
    MoveTouches(s.ledgers, op.src, op.dst, op.mint, op.amount, s'.ledgers, c.ledgerPda(person), m);
    if c.ledgerPda(person) != op.src {
      SlotConsentMeans(c, s, st, person);
    }
  }

  /** A movement that takes from a ledger or opens a mint on it comes out of it, or brings it a mint it had
      no slot for. */
  lemma MoveTouches(ls: map<Key, Acct<Book>>, src: Key, dst: Key, mint: Key, amount: u64,
      ls': map<Key, Acct<Book>>, a: Key, m: Key)
    requires BooksOk(ls) && src in ls && dst in ls && a in ls && Move(ls, src, dst, mint, amount) == Success(ls')
    requires HeldIn(ls', a, m) < HeldIn(ls, a, m) || (m in ls'[a].live.claims && m !in ls[a].live.claims)
    ensures a == src || (a == dst && mint !in ls[dst].live.claims)
  {
    MoveShape(ls, src, dst, mint, amount);
    MoveEffect(ls, src, dst, mint, amount, a, m);
    if a != src {
      MoveClaims(ls, src, dst, mint, amount, m);
    }
  }

  lemma SlotConsentMeans(c: Chain, s: State, st: Step, person: Key)
    requires st.op.Settle? && st.op.src in s.ledgers && st.op.dst in s.ledgers
    requires var a, b := s.ledgers[st.op.src].live, s.ledgers[st.op.dst].live;
             SlotConsent(c, s, st, a, b).Success? && !b.pdaAuth && b.owner == person && st.op.mint !in b.claims
    ensures Consented(c, s, st, person)
  {
    var program := s.ledgers[st.op.src].live.authorized;
    if st.op.dstConsenter != person {
      MayConsentIff(c, s, st.venue, st.op.keyStore.value, person, st.op.dstConsenter, program);
      assert HonouredFor(c, s, st, person, st.op.dstConsenter, program);
    }
  }

  /** Of the mints a movement's receiver did not have, only the moved one can be new. */
  lemma MoveClaims(ls: map<Key, Acct<Book>>, src: Key, dst: Key, mint: Key, amount: u64, m: Key)
    requires BooksOk(ls) && src in ls && dst in ls && Move(ls, src, dst, mint, amount).Success?
    ensures var ls' := Move(ls, src, dst, mint, amount).value;
            forall a :: a in ls && m in ls'[a].live.claims && m !in ls[a].live.claims ==> a == dst && m == mint
  {
    DebitEffect(ls[src].live, mint, amount);
    var mid := ls[src := ls[src].(live := Debit(ls[src].live, mint, amount).value)];
    CreditEffect(mid[dst].live, mint, amount);
  }

  lemma {:induction false} NewMintsComeIn(ls: map<Key, Acct<Book>>, infos: seq<Key>, movements: seq<Movement>,
      a: Key, m: Key)
    requires BooksOk(ls) && InRange(movements, |infos|) && (forall i :: 0 <= i < |infos| ==> infos[i] in ls)
    requires MoveAll(ls, infos, movements).Success? && a in ls
    requires m in MoveAll(ls, infos, movements).value[a].live.claims && m !in ls[a].live.claims
    ensures exists i :: 0 <= i < |movements| && infos[movements[i].dst] == a && movements[i].mint == m
    decreases |movements|
  {
    if movements != [] {
      var v := movements[0];
      MoveShape(ls, infos[v.src], infos[v.dst], v.mint, v.amount);
      MoveClaims(ls, infos[v.src], infos[v.dst], v.mint, v.amount, m);
      var mid := Move(ls, infos[v.src], infos[v.dst], v.mint, v.amount).value;
      if m !in mid[a].live.claims {
        NewMintsComeIn(mid, infos, movements[1..], a, m);
        var i :| 0 <= i < |movements[1..]| && infos[movements[1..][i].dst] == a && movements[1..][i].mint == m;
        assert movements[i + 1] == movements[1..][i];
      }
    }
  }

  lemma {:induction false} LossesGoOut(infos: seq<Key>, movements: seq<Movement>, a: Key, m: Key)
    requires InRange(movements, |infos|) && Net(infos, movements, a, m) < 0
    ensures exists i :: 0 <= i < |movements| && infos[movements[i].src] == a
  {
    if infos[movements[0].src] != a {
      LossesGoOut(infos, movements[1..], a, m);
      var i :| 0 <= i < |movements[1..]| && infos[movements[1..][i].src] == a;
      assert movements[i + 1] == movements[1..][i];
    }
  }

  lemma BeginIsConsented(c: Chain, s: State, st: Step, s': State, person: Key, m: Key)
    requires OwnLedgers(c, s.ledgers) && LedgersOk(c, s.ledgers) && !c.isPda(person)
    requires st.op.SettleBegin? && NextSettleBegin(c, s, st) == Success(s')
    requires Touches(s, s', c.ledgerPda(person), m)
    ensures Consented(c, s, st, person)
  {
    var r := ReadReceipt(s, st.venue, st.op.receipt).value;
    var infos, rest := st.op.remaining[..|r.owners|], st.op.remaining[|r.owners|..];
    BeginMoves(c, s, st, r, infos);
    var h := ReceiptTouches(c, s, st.venue, r, infos, c.ledgerPda(person), m, s'.ledgers);
    assert s.ledgers[infos[h]].live.owner == person;
    ReceiptConsentMeans(c, s, st, r, infos, rest, h, person);
  }

  /** Whoever's derived address a ledger sits at owns it, and it is a person's if they are one. */
  ghost predicate OwnLedgers(c: Chain, ls: map<Key, Acct<Book>>) {
    forall owner :: c.ledgerPda(owner) in ls ==>
      var l := ls[c.ledgerPda(owner)].live; l.owner == owner && l.pdaAuth == c.isPda(owner)
  }

  lemma LedgersAreOwn(c: Chain, ls: map<Key, Acct<Book>>)
    requires Sound(c) && LedgersOk(c, ls)
    ensures OwnLedgers(c, ls)
  {
    forall owner | c.ledgerPda(owner) in ls
      ensures var l := ls[c.ledgerPda(owner)].live; l.owner == owner && l.pdaAuth == c.isPda(owner)
    {
      assert LedgerOk(c, c.ledgerPda(owner), ls[c.ledgerPda(owner)]);
    }
  }

  /** The one person a receipt takes from, or opens a mint for, is the one it asks. */
  lemma ReceiptTouches(c: Chain, s: State, v: Venue, r: Receipt, infos: seq<Key>, a: Key, m: Key,
      ls: map<Key, Acct<Book>>) returns (h: nat)
    requires BooksOk(s.ledgers) && InRange(r.movements, |infos|) && |infos| == |r.owners| && a in s.ledgers
    requires CheckLedgers(c, s, v, r, infos, 0).None? && MoveAll(s.ledgers, infos, r.movements) == Success(ls)
    requires CountHumans(s.ledgers, infos) <= 1 && !s.ledgers[a].live.pdaAuth
    requires HeldIn(ls, a, m) < HeldIn(s.ledgers, a, m) || (m in ls[a].live.claims && m !in s.ledgers[a].live.claims)
    ensures h < |infos| && infos[h] == a && (Debits(r, h) || OpensSlot(r, h, s.ledgers[a].live))
    ensures HumanIndex(s.ledgers, infos, 0) == Some(h)
  {
    MoveAllEffect(s.ledgers, infos, r.movements);
    TouchedIndex(c, s, v, r, infos, a, m);
    h :| 0 <= h < |infos| && infos[h] == a && (Debits(r, h) || OpensSlot(r, h, s.ledgers[a].live));
    OnlyHuman(s.ledgers, infos, h);
  }

  lemma ReceiptConsentMeans(c: Chain, s: State, st: Step, r: Receipt, infos: seq<Key>, rest: seq<Key>, h: nat,
      person: Key)
    requires st.op.SettleBegin? && ReadReceipt(s, st.venue, st.op.receipt) == Success(r) && r.consenter in st.signers
    requires forall i :: 0 <= i < |infos| ==> infos[i] in s.ledgers
    requires ReceiptConsent(c, s, st.venue, r, infos, rest).Success? && HumanIndex(s.ledgers, infos, 0) == Some(h)
    requires s.ledgers[infos[h]].live.owner == person
    requires Debits(r, h) || OpensSlot(r, h, s.ledgers[infos[h]].live)
    ensures Consented(c, s, st, person)
  {
    MayConsentIff(c, s, st.venue, rest[0], person, r.consenter, r.member);
    if r.consenter != person {
      assert HonouredFor(c, s, st, person, r.consenter, r.member);
    }
  }

  /** A ledger a receipt takes from, or opens a mint on, is named by a movement's index. */
  lemma TouchedIndex(c: Chain, s: State, v: Venue, r: Receipt, infos: seq<Key>, a: Key, m: Key)
    requires BooksOk(s.ledgers) && InRange(r.movements, |infos|) && |infos| == |r.owners| && a in s.ledgers
    requires CheckLedgers(c, s, v, r, infos, 0).None? && MoveAll(s.ledgers, infos, r.movements).Success?
    requires var ls := MoveAll(s.ledgers, infos, r.movements).value;
             Net(infos, r.movements, a, m) < 0 || (m in ls[a].live.claims && m !in s.ledgers[a].live.claims)
    ensures exists h :: 0 <= h < |infos| && infos[h] == a && (Debits(r, h) || OpensSlot(r, h, s.ledgers[a].live))
  {
    if Net(infos, r.movements, a, m) < 0 {
      LossesGoOut(infos, r.movements, a, m);
      var i :| 0 <= i < |r.movements| && infos[r.movements[i].src] == a;
      assert Debits(r, r.movements[i].src);
    } else {
      NewMintsComeIn(s.ledgers, infos, r.movements, a, m);
      var i :| 0 <= i < |r.movements| && infos[r.movements[i].dst] == a && r.movements[i].mint == m;
      assert OpensSlot(r, r.movements[i].dst, s.ledgers[a].live);
    }
  }

  /** With at most one person among the ledgers, any person's index is the one consent is asked for. */
  lemma OnlyHuman(ls: map<Key, Acct<Book>>, infos: seq<Key>, h: nat)
    requires forall i :: 0 <= i < |infos| ==> infos[i] in ls
    requires h < |infos| && !ls[infos[h]].live.pdaAuth && CountHumans(ls, infos) <= 1
    ensures HumanIndex(ls, infos, 0) == Some(h)
  {
    var first := HumanIndex(ls, infos, 0);
    if first.Some? && first.value < h {
      HumansAreCounted(ls, infos, first.value, h);
    }
  }

  lemma OwnInstructionsAreSigned(c: Chain, s: State, st: Step, person: Key, m: Key)
    requires Sound(c) && Next(c, s, st).Success?
    requires st.op.Withdraw? || st.op.Close?
    requires Touches(s, Next(c, s, st).value, c.ledgerPda(person), m)
    ensures person in st.signers
  {
    OwnLedgerOnly(c, s, st);
    assert st.op.ledger == c.ledgerPda(person);
  }

  lemma DepositIsSigned(c: Chain, s: State, st: Step, person: Key, m: Key)
    requires Sound(c) && st.op.Deposit? && NextDeposit(c, s, st).Success?
    requires Touches(s, NextDeposit(c, s, st).value, c.ledgerPda(person), m)
    ensures person in st.signers
  {
    DepositResult(c, s, st);
    assert st.op.ledger == c.ledgerPda(st.op.owner) && st.op.owner in st.signers;
  }

  lemma OpeningTouchesNone(c: Chain, s: State, st: Step, a: Key, m: Key)
    requires st.op.OpenWallet? || st.op.OpenPda? || st.op.GrowPda?
    requires Next(c, s, st).Success?
    ensures !Touches(s, Next(c, s, st).value, a, m)
  {
  }

  lemma HouseTouchesNone(c: Chain, s: State, st: Step, a: Key, m: Key)
    requires st.op.Delegate? || st.op.Undelegate? || st.op.FinishUndelegation?
    requires Next(c, s, st).Success?
    ensures !Touches(s, Next(c, s, st).value, a, m)
  {
  }

  predicate TakesFromNone(op: Op) {
    || !WritesLedgers(op)
    || op.OpenWallet? || op.OpenPda? || op.GrowPda? || op.Delegate? || op.Undelegate? || op.FinishUndelegation?
  }

  lemma OthersTouchNone(c: Chain, s: State, st: Step, a: Key, m: Key)
    requires TakesFromNone(st.op) && Next(c, s, st).Success?
    ensures !Touches(s, Next(c, s, st).value, a, m)
  {
    var op := st.op;
    if op.OpenWallet? || op.OpenPda? || op.GrowPda? {
      OpeningTouchesNone(c, s, st, a, m);
    } else if op.Delegate? || op.Undelegate? || op.FinishUndelegation? {
      HouseTouchesNone(c, s, st, a, m);
    } else {
      LedgersUntouched(c, s, st);
    }
  }

  lemma OtherStepIsSigned(c: Chain, s: State, st: Step, s': State, person: Key, m: Key)
    requires Sound(c) && !st.op.Settle? && !st.op.SettleBegin? && Next(c, s, st) == Success(s')
    requires Touches(s, s', c.ledgerPda(person), m)
    ensures person in st.signers
  {
    var op := st.op;
    if op.Deposit? {
      DepositIsSigned(c, s, st, person, m);
    } else if op.Withdraw? || op.Close? {
      OwnInstructionsAreSigned(c, s, st, person, m);
    } else {
      OthersTouchNone(c, s, st, c.ledgerPda(person), m);
    }
  }

  lemma SettleStepIsConsented(c: Chain, s: State, st: Step, s': State, person: Key, m: Key)
    requires Sound(c) && LedgersOk(c, s.ledgers) && !c.isPda(person) && st.op.Settle? && Next(c, s, st) == Success(s')
    requires Touches(s, s', c.ledgerPda(person), m)
    ensures Consented(c, s, st, person)
  {
    LedgersAreOwn(c, s.ledgers);
    AsSettle(c, s, st);
    SettleIsConsented(c, s, st, s', person, m);
  }

  lemma BeginStepIsConsented(c: Chain, s: State, st: Step, s': State, person: Key, m: Key)
    requires Sound(c) && LedgersOk(c, s.ledgers) && !c.isPda(person) && st.op.SettleBegin?
               && Next(c, s, st) == Success(s')
    requires Touches(s, s', c.ledgerPda(person), m)
    ensures Consented(c, s, st, person)
  {
    LedgersAreOwn(c, s.ledgers);
    AsBegin(c, s, st, s');
    BeginIsConsented(c, s, st, s', person, m);
  }

  lemma AsBegin(c: Chain, s: State, st: Step, s': State)
    requires st.op.SettleBegin? && Next(c, s, st) == Success(s')
    ensures NextSettleBegin(c, s, st) == Success(s')
  {
  }

  lemma StepIsConsented(c: Chain, s: State, st: Step, s': State, person: Key, m: Key)
    requires Sound(c) && LedgersOk(c, s.ledgers) && !c.isPda(person) && Next(c, s, st) == Success(s')
    requires Touches(s, s', c.ledgerPda(person), m)
    ensures Consented(c, s, st, person)
  {
    if st.op.Settle? {
      SettleStepIsConsented(c, s, st, s', person, m);
    } else if st.op.SettleBegin? {
      BeginStepIsConsented(c, s, st, s', person, m);
    } else {
      OtherStepIsSigned(c, s, st, s', person, m);
    }
  }

  /** Consent over whole runs. If the last step of a run takes from a person's ledger or opens a mint
      on it, then the person signed that step, or a key signed it that the person had granted, by a
      step they signed, for exactly the program the settlement is for, and that grant stood: not
      revoked, dropped or closed away, and still in the ring or in the temporary slot before its
      expiry. */
  lemma PersonsLedgerNeedsConsent(c: Chain, s: State, steps: seq<Step>, person: Key, m: Key)
    requires Sound(c) && Genesis(c, s) && steps != [] && Exec(c, s, steps).Success? && !c.isPda(person)
    requires var before := Exec(c, s, steps[..|steps| - 1]).value;
             Touches(before, Exec(c, s, steps).value, c.ledgerPda(person), m)
    ensures var earlier, st := steps[..|steps| - 1], steps[|steps| - 1];
            var before := Exec(c, s, earlier).value;
            || person in st.signers
            || (exists key, program, j: nat ::
                  && key in st.signers && AsksFor(before, st, program)
                  && GrantedBy(earlier, j, person, program, key, ClockOf(before, st.venue).unix))
  {
    var earlier, st := steps[..|steps| - 1], steps[|steps| - 1];
    RunInv(c, s, earlier);
    var before := Exec(c, s, earlier).value;
    StepIsConsented(c, before, st, Exec(c, s, steps).value, person, m);
    if person !in st.signers {
      var key, program :| key in st.signers && HonouredFor(c, before, st, person, key, program);
      HonouredKeysWereGranted(c, s, earlier, person, program, key, ClockOf(before, st.venue).unix);
      var j: nat :| GrantedBy(earlier, j, person, program, key, ClockOf(before, st.venue).unix);
    }
  }

  // ---- Slots on a program's ledger ----

  /** The step opens a slot for the mint on the ledger. */
  ghost predicate Opens(s: State, s': State, a: Key, m: Key) {
    a in s.ledgers && a in s'.ledgers && m !in s.ledgers[a].live.claims && m in s'.ledgers[a].live.claims
  }

  /** A payer signs for a payment the receiver has no slot for but has room for. */
  ghost predicate PaysIntoNewSlot(s: State, v: Venue, op: Op, signers: set<Key>)
    requires op.Settle? && op.dst in s.ledgers
  {
    && op.src in s.ledgers && Here(s.ledgers[op.src], v) && Here(s.ledgers[op.dst], v) && op.src != op.dst
    && op.srcAuthority == s.ledgers[op.src].live.owner && op.srcAuthority in signers
    && op.mint in s.ledgers[op.src].live.claims && op.amount <= s.ledgers[op.src].live.claims[op.mint]
    && op.mint !in s.ledgers[op.dst].live.claims && Room(s.ledgers[op.dst].live) > 0
  }

  /** A settlement opens a slot on a program's ledger if and only if the payer signs for what they hold,
      the ledger has no slot for the mint and it has room: the program is not asked, and any holder of
      the mint, a person or a program, can do it, with no more than a zero amount. */
  lemma ProgramSlotOpensIff(c: Chain, s: State, st: Step)
    requires LedgersOk(c, s.ledgers) && !Blocked(s, st)
    requires st.op.Settle? && st.op.dst in s.ledgers && s.ledgers[st.op.dst].live.pdaAuth
    ensures Next(c, s, st).Success? && Opens(s, Next(c, s, st).value, st.op.dst, st.op.mint) <==>
              PaysIntoNewSlot(s, st.venue, st.op, st.signers)
  {
    SettleToProgramIff(c, s, st);
    if st.op.src in s.ledgers && st.op.src != st.op.dst {
      MoveOpensIff(s.ledgers, st.op.src, st.op.dst, st.op.mint, st.op.amount);
    }
    AsSettle(c, s, st);
  }

  lemma AsSettle(c: Chain, s: State, st: Step)
    requires st.op.Settle? && (!Blocked(s, st) || Next(c, s, st).Success?)
    ensures Next(c, s, st) == NextSettle(c, s, st)
  {
  }

  /** A settlement to a program's ledger goes through if and only if the payer signs and the movement does. */
  lemma SettleToProgramIff(c: Chain, s: State, st: Step)
    requires LedgersOk(c, s.ledgers) && st.op.Settle? && st.op.dst in s.ledgers && s.ledgers[st.op.dst].live.pdaAuth
    ensures var op := st.op;
            NextSettle(c, s, st).Success? <==>
              && op.src in s.ledgers && Here(s.ledgers[op.src], st.venue) && Here(s.ledgers[op.dst], st.venue)
              && op.src != op.dst && op.srcAuthority == s.ledgers[op.src].live.owner && op.srcAuthority in st.signers
              && Move(s.ledgers, op.src, op.dst, op.mint, op.amount).Success?
    ensures NextSettle(c, s, st).Success? ==>
              st.op.src in s.ledgers
              && Move(s.ledgers, st.op.src, st.op.dst, st.op.mint, st.op.amount)
                  == Success(NextSettle(c, s, st).value.ledgers)
  {
    if st.op.src in s.ledgers {
      assert LedgerOk(c, st.op.src, s.ledgers[st.op.src]) && LedgerOk(c, st.op.dst, s.ledgers[st.op.dst]);
    }
  }

  lemma MoveOpensIff(ls: map<Key, Acct<Book>>, src: Key, dst: Key, mint: Key, amount: u64)
    requires src in ls && dst in ls && src != dst
    ensures Move(ls, src, dst, mint, amount).Success? && mint !in ls[dst].live.claims <==>
              && mint in ls[src].live.claims && amount <= ls[src].live.claims[mint]
              && mint !in ls[dst].live.claims && Room(ls[dst].live) > 0
    ensures Move(ls, src, dst, mint, amount).Success? ==>
              mint in Move(ls, src, dst, mint, amount).value[dst].live.claims
  {
  }
}
