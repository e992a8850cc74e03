/** When value moves between ledgers: exactly which payments, receipts and settlements go through. The
    conditions speak of ledgers, terms and grants, not of the order in which the handlers check them. */
module Settlements {
  import opened Base
  import opened Books
  import opened Calls
  import opened Chains
  import opened Consent
  import opened Execution
  import opened Flow
  import opened Invariant
  import opened Lifecycle
  import opened Machine
  import opened Receipts
  import opened Runs
  import opened Totals

  // ---- One movement, and many ----

  /** The payer has a slot for the mint with enough in it, and the receiver has one or room for one. */
  predicate CanMove(a: Book, b: Book, mint: Key, amount: u64) {
    mint in a.claims && amount <= a.claims[mint] && (mint in b.claims || Room(b) > 0)
  }

  /** Between two ledgers nothing else stands in a movement's way: what there is of a mint fits in 64 bits. */
  lemma MoveIff(ls: map<Key, Acct<Book>>, src: Key, dst: Key, mint: Key, amount: u64)
    requires BooksOk(ls) && src in ls && dst in ls && src != dst && Total(ls, mint) <= MAX_U64
    ensures Move(ls, src, dst, mint, amount).Success? <==> CanMove(ls[src].live, ls[dst].live, mint, amount)
  {
    MoveNeverOverflows(ls, src, dst, mint, amount);
  }

  /** Every movement of a receipt finds its payer with enough, and its receiver with a slot or room, once the
      movements before it are made. */
  ghost predicate MovementsGo(ls: map<Key, Acct<Book>>, infos: seq<Key>, movements: seq<Movement>)
    requires InRange(movements, |infos|) && forall i :: 0 <= i < |infos| ==> infos[i] in ls
  {
    forall i :: 0 <= i < |movements| ==> MovementGoes(ls, infos, movements, i)
  }

  ghost predicate MovementGoes(ls: map<Key, Acct<Book>>, infos: seq<Key>, movements: seq<Movement>, i: nat)
    requires i < |movements| && InRange(movements, |infos|) && forall k :: 0 <= k < |infos| ==> infos[k] in ls
  {
    && MoveAll(ls, infos, movements[..i]).Success?
    && var now := MoveAll(ls, infos, movements[..i]).value; var m := movements[i];
       CanMove(now[infos[m.src]].live, now[infos[m.dst]].live, m.mint, m.amount)
  }

  ghost predicate Fits(ls: map<Key, Acct<Book>>) {
    forall m: Key :: Total(ls, m) <= MAX_U64
  }

  lemma {:induction false} MovementsGoIff(ls: map<Key, Acct<Book>>, infos: seq<Key>, movements: seq<Movement>)
    requires BooksOk(ls) && Fits(ls) && Distinct(infos) && InRange(movements, |infos|) && NoSelfMove(movements)
    requires forall i :: 0 <= i < |infos| ==> infos[i] in ls
    ensures MoveAll(ls, infos, movements).Success? <==> MovementsGo(ls, infos, movements)
    decreases |movements|
  {
    if movements != [] {
      MovementsGoIff(ls, infos, movements[..|movements| - 1]);
      LastGoesIff(ls, infos, movements);
      AllButLastGo(ls, infos, movements);
    }
  }

  lemma AllButLastGo(ls: map<Key, Acct<Book>>, infos: seq<Key>, movements: seq<Movement>)
    requires InRange(movements, |infos|) && movements != [] && forall i :: 0 <= i < |infos| ==> infos[i] in ls
    ensures MovementsGo(ls, infos, movements) <==>
              MovementsGo(ls, infos, movements[..|movements| - 1])
              && MovementGoes(ls, infos, movements, |movements| - 1)
  {
    var k := |movements| - 1;
    forall i | 0 <= i < k
      ensures MovementGoes(ls, infos, movements[..k], i) == MovementGoes(ls, infos, movements, i)
    {
      assert movements[..k][..i] == movements[..i];
    }
  }

  lemma LastGoesIff(ls: map<Key, Acct<Book>>, infos: seq<Key>, movements: seq<Movement>)
    requires BooksOk(ls) && Fits(ls) && Distinct(infos) && InRange(movements, |infos|) && NoSelfMove(movements)
    requires movements != [] && forall i :: 0 <= i < |infos| ==> infos[i] in ls
    ensures MoveAll(ls, infos, movements).Success? <==> MovementGoes(ls, infos, movements, |movements| - 1)
  {
    var k := |movements| - 1;
    var m := movements[k];
    LastIsMade(ls, infos, movements);
    if MoveAll(ls, infos, movements[..k]).Success? {
      MoveAllEffect(ls, infos, movements[..k]);
      MoveIff(MoveAll(ls, infos, movements[..k]).value, infos[m.src], infos[m.dst], m.mint, m.amount);
    }
  }

  lemma LastIsMade(ls: map<Key, Acct<Book>>, infos: seq<Key>, movements: seq<Movement>)
    requires InRange(movements, |infos|) && movements != [] && forall i :: 0 <= i < |infos| ==> infos[i] in ls
    ensures var k := |movements| - 1; var m := movements[k];
            MoveAll(ls, infos, movements).Success? <==>
              && MoveAll(ls, infos, movements[..k]).Success?
              && Move(MoveAll(ls, infos, movements[..k]).value, infos[m.src], infos[m.dst], m.mint, m.amount).Success?
  {
    var k := |movements| - 1;
    assert movements == movements[..k] + [movements[k]];
    MoveAllSplits(ls, infos, movements[..k], [movements[k]]);
    if MoveAll(ls, infos, movements[..k]).Success? {
      MoveAllOne(MoveAll(ls, infos, movements[..k]).value, infos, movements[k]);
    }
  }

  // ---- Settle ----

  /** Both ledgers are here and differ, one of them is a program's, and the payer's owner signs for what the
      payer holds and the receiver can take. */
  ghost predicate PaymentStands(c: Chain, s: State, st: Step)
    requires st.op.Settle?
  {
    var op := st.op;
    && op.src in s.ledgers && op.dst in s.ledgers && op.src != op.dst
    && Here(s.ledgers[op.src], st.venue) && Here(s.ledgers[op.dst], st.venue)
    && var a, b := s.ledgers[op.src].live, s.ledgers[op.dst].live;
       && (c.isPda(a.owner) || c.isPda(b.owner))
       && op.srcAuthority == a.owner && a.owner in st.signers
       && CanMove(a, b, op.mint, op.amount)
  }

  /** The receiver is a program's ledger, or has a slot for the mint; or else its owner signs as the
      consenter, or a key of theirs does (`honoured` tells whether it is one), their store passed along. */
  predicate ReceiverAgrees(c: Chain, s: State, st: Step, honoured: bool)
    requires st.op.Settle? && st.op.dst in s.ledgers
  {
    var op, b := st.op, s.ledgers[st.op.dst].live;
    || c.isPda(b.owner) || op.mint in b.claims
    || (op.dstConsenter in st.signers
        && (op.dstConsenter == b.owner || (op.keyStore == Some(c.sessionPda(b.owner)) && honoured)))
  }

  /** The consenter is a key the receiver's store honours for the payer's program. */
  predicate KeyOfReceiver(c: Chain, s: State, st: Step)
    requires st.op.Settle? && st.op.src in s.ledgers && st.op.dst in s.ledgers
  {
    Honours(c, s, st.venue, s.ledgers[st.op.dst].live.owner, st.op.dstConsenter, s.ledgers[st.op.src].live.authorized)
  }

  lemma SlotConsentIff(c: Chain, s: State, st: Step)
    requires st.op.Settle? && st.op.src in s.ledgers && st.op.dst in s.ledgers
    requires s.ledgers[st.op.dst].live.pdaAuth == c.isPda(s.ledgers[st.op.dst].live.owner)
    ensures SlotConsent(c, s, st, s.ledgers[st.op.src].live, s.ledgers[st.op.dst].live).Success? <==>
              ReceiverAgrees(c, s, st, KeyOfReceiver(c, s, st))
  {
    var op, a, b := st.op, s.ledgers[st.op.src].live, s.ledgers[st.op.dst].live;
    if op.keyStore.Some? {
      MayConsentIff(c, s, st.venue, op.keyStore.value, b.owner, op.dstConsenter, a.authorized);
    }
  }

  /** A payment goes through if and only if it stands and its receiver agrees: a person is paid into a slot
      they have without being asked. */
  lemma SettleIff(c: Chain, s: State, st: Step)
    requires Inv(c, s) && st.op.Settle? && !Blocked(s, st)
    ensures Next(c, s, st).Success? <==>
              PaymentStands(c, s, st) && ReceiverAgrees(c, s, st, KeyOfReceiver(c, s, st))
  {
    TotalFitsU64(c, s, st.op.mint);
    NextSettleIff(c, s, st);
    AsSettle(c, s, st);
  }

  lemma NextSettleIff(c: Chain, s: State, st: Step)
    requires LedgersOk(c, s.ledgers) && st.op.Settle? && Total(s.ledgers, st.op.mint) <= MAX_U64
    ensures NextSettle(c, s, st).Success? <==>
              PaymentStands(c, s, st) && ReceiverAgrees(c, s, st, KeyOfReceiver(c, s, st))
  {
    var op := st.op;
    if op.src in s.ledgers && op.dst in s.ledgers {
      assert LedgerOk(c, op.src, s.ledgers[op.src]) && LedgerOk(c, op.dst, s.ledgers[op.dst]);
      SettleAsks(c, s, st, s.ledgers[op.src], s.ledgers[op.dst]);
      if op.src != op.dst {
        MoveIff(s.ledgers, op.src, op.dst, op.mint, op.amount);
      }
    }
  }

  /** A settlement between two ledgers, its question to the receiver answered. */
  lemma SettleAsks(c: Chain, s: State, st: Step, a: Acct<Book>, b: Acct<Book>)
    requires st.op.Settle? && st.op.src in s.ledgers && st.op.dst in s.ledgers
    requires a == s.ledgers[st.op.src] && b == s.ledgers[st.op.dst]
    requires LedgerOk(c, st.op.src, a) && LedgerOk(c, st.op.dst, b)
    ensures NextSettle(c, s, st).Success? <==>
              && Here(a, st.venue) && Here(b, st.venue) && st.op.src != st.op.dst
              && st.op.srcAuthority == a.live.owner && a.live.owner in st.signers
              && (c.isPda(a.live.owner) || c.isPda(b.live.owner))
              && ReceiverAgrees(c, s, st, KeyOfReceiver(c, s, st))
              && Move(s.ledgers, st.op.src, st.op.dst, st.op.mint, st.op.amount).Success?
  {
    SlotConsentIff(c, s, st);
  }

  /** In every run, so far as keys consent, a payment goes through if and only if some earlier step granted
      the key, for the payer's program, and the grant stands. */
  lemma GrantedKeysOpenSlots(c: Chain, s: State, earlier: seq<Step>, st: Step)
    requires Sound(c) && Genesis(c, s) && Exec(c, s, earlier).Success?
    requires st.op.Settle? && !Blocked(Exec(c, s, earlier).value, st)
    ensures var now := Exec(c, s, earlier).value;
            Next(c, now, st).Success? <==>
              && PaymentStands(c, now, st)
              && var person, program := now.ledgers[st.op.dst].live.owner, now.ledgers[st.op.src].live.authorized;
                 ReceiverAgrees(c, now, st, exists j: nat ::
                     GrantedBy(earlier, j, person, program, st.op.dstConsenter, ClockOf(now, st.venue).unix))
  {
    var now := Exec(c, s, earlier).value;
    RunInv(c, s, earlier);
    SettleIff(c, now, st);
    if PaymentStands(c, now, st) {
      HonouredKeysWereGranted(c, s, earlier, now.ledgers[st.op.dst].live.owner,
          now.ledgers[st.op.src].live.authorized, st.op.dstConsenter, ClockOf(now, st.venue).unix);
    }
  }

  // ---- Settling a receipt ----

  /** A live receipt of this slot, sent with what its terms name and its consenter's signature. */
  ghost predicate Presented(c: Chain, s: State, st: Step)
    requires st.op.SettleBegin?
  {
    var op, at := st.op, At(st.venue, st.op.receipt);
    && LiveAt(s, at)
    && var r := s.receipts[at].terms;
       && r.slot == ClockOf(s, st.venue).slot
       && op.authority == r.authority && op.callbackProgram == r.member
       && op.consenter == r.consenter && r.consenter in st.signers
       && op.vaultAuthority == c.vaultAuthority
       && |r.owners| <= |op.remaining|
  }

  /** The account at `i` is the ledger of the receipt's owner `i`; it is here and, if it is a program's,
      bound to the receipt's program. */
  predicate Summoned(c: Chain, s: State, v: Venue, r: Receipt, accounts: seq<Key>, i: nat)
    requires i < |r.owners| <= |accounts|
  {
    var a := c.ledgerPda(r.owners[i]);
    && accounts[i] == a && a in s.ledgers && Here(s.ledgers[a], v)
    && (c.isPda(r.owners[i]) ==> s.ledgers[a].live.authorized == r.member)
  }

  predicate AllSummoned(c: Chain, s: State, v: Venue, r: Receipt, accounts: seq<Key>)
    requires |r.owners| <= |accounts|
  {
    forall i :: 0 <= i < |r.owners| ==> Summoned(c, s, v, r, accounts, i)
  }

  /** Of any two of its owners one is a program. */
  predicate OnePersonAtMost(c: Chain, owners: seq<Key>) {
    forall i, j :: 0 <= i < j < |owners| ==> c.isPda(owners[i]) || c.isPda(owners[j])
  }

  /** No movement takes from owner `h`, or brings them a mint they have no slot for. */
  predicate LeavesInPeace(c: Chain, s: State, r: Receipt, h: nat)
    requires h < |r.owners| && c.ledgerPda(r.owners[h]) in s.ledgers
  {
    forall i :: 0 <= i < |r.movements| ==>
      && r.movements[i].src as int != h
      && (r.movements[i].dst as int == h ==> r.movements[i].mint in s.ledgers[c.ledgerPda(r.owners[h])].live.claims)
  }

  /** An account follows the ledgers and, unless the receipt leaves person `h` in peace, they are its
      consenter or a key of theirs is (`honoured` tells whether it is one), their store being that account. */
  predicate PersonAgrees(c: Chain, s: State, r: Receipt, rest: seq<Key>, h: nat, honoured: bool)
    requires h < |r.owners| && c.ledgerPda(r.owners[h]) in s.ledgers
  {
    && rest != []
    && (LeavesInPeace(c, s, r, h) || r.consenter == r.owners[h]
        || (rest[0] == c.sessionPda(r.owners[h]) && honoured))
  }

  /** The consenter is the receipt's person, or a key their store honours for the receipt's program. */
  predicate Agreed(c: Chain, s: State, v: Venue, r: Receipt, accounts: seq<Key>)
    requires |r.owners| <= |accounts| && AllSummoned(c, s, v, r, accounts)
  {
    forall h :: 0 <= h < |r.owners| && !c.isPda(r.owners[h]) ==> AgreedBy(c, s, v, r, accounts, h)
  }

  predicate AgreedBy(c: Chain, s: State, v: Venue, r: Receipt, accounts: seq<Key>, h: nat)
    requires h < |r.owners| <= |accounts| && AllSummoned(c, s, v, r, accounts)
  {
    assert Summoned(c, s, v, r, accounts, h);
    PersonAgrees(c, s, r, accounts[|r.owners|..], h, Honours(c, s, v, r.owners[h], r.consenter, r.member))
  }

  ghost predicate Apart(c: Chain) {
    forall a, b :: c.ledgerPda(a) == c.ledgerPda(b) ==> a == b
  }

  lemma CheckLedgerIff(c: Chain, s: State, v: Venue, r: Receipt, infos: seq<Key>, i: nat)
    requires LedgersOk(c, s.ledgers) && Apart(c) && i < |infos| == |r.owners|
    ensures CheckLedger(c, s, v, r, infos, i).None? <==> Summoned(c, s, v, r, infos, i) && infos[i] !in infos[..i]
  {
    if infos[i] in s.ledgers {
      assert LedgerOk(c, infos[i], s.ledgers[infos[i]]);
    }
  }

  lemma {:induction false} CheckLedgersFrom(c: Chain, s: State, v: Venue, r: Receipt, infos: seq<Key>, idx: nat)
    requires idx <= |infos| == |r.owners|
    requires forall i :: idx <= i < |infos| ==> CheckLedger(c, s, v, r, infos, i).None?
    ensures CheckLedgers(c, s, v, r, infos, idx).None?
    decreases |infos| - idx
  {
    if idx < |infos| {
      CheckLedgersFrom(c, s, v, r, infos, idx + 1);
    }
  }

  /** The checks on a receipt's ledgers find no fault exactly when each of them was summoned: that none is
      named twice follows. */
  lemma CheckLedgersIff(c: Chain, s: State, v: Venue, r: Receipt, infos: seq<Key>)
    requires LedgersOk(c, s.ledgers) && Apart(c) && Distinct(r.owners) && |infos| == |r.owners|
    ensures CheckLedgers(c, s, v, r, infos, 0).None? <==> AllSummoned(c, s, v, r, infos)
  {
    if CheckLedgers(c, s, v, r, infos, 0).None? {
      forall i | 0 <= i < |r.owners|
        ensures Summoned(c, s, v, r, infos, i)
      {
        CheckLedgerIff(c, s, v, r, infos, i);
      }
    }
    if AllSummoned(c, s, v, r, infos) {
      SummonedApart(c, s, v, r, infos);
      forall i | 0 <= i < |infos|
        ensures CheckLedger(c, s, v, r, infos, i).None?
      {
        CheckLedgerIff(c, s, v, r, infos, i);
      }
      CheckLedgersFrom(c, s, v, r, infos, 0);
    }
  }

  lemma SummonedApart(c: Chain, s: State, v: Venue, r: Receipt, infos: seq<Key>)
    requires Apart(c) && Distinct(r.owners) && |infos| == |r.owners| && AllSummoned(c, s, v, r, infos)
    ensures Distinct(infos)
  {
    forall i, j | 0 <= i < j < |infos|
      ensures infos[i] != infos[j]
    {
      assert Summoned(c, s, v, r, infos, i) && Summoned(c, s, v, r, infos, j);
    }
  }

  lemma {:induction false} CountsOneAtMost(ls: map<Key, Acct<Book>>, infos: seq<Key>)
    requires forall i :: 0 <= i < |infos| ==> infos[i] in ls
    requires forall i, j :: 0 <= i < j < |infos| ==> ls[infos[i]].live.pdaAuth || ls[infos[j]].live.pdaAuth
    ensures CountHumans(ls, infos) <= 1
    ensures (forall i :: 0 <= i < |infos| ==> ls[infos[i]].live.pdaAuth) ==> CountHumans(ls, infos) == 0
  {
    if infos != [] {
      forall i | 0 <= i < |infos[1..]|
        ensures infos[1..][i] == infos[i + 1]
      {
      }
      CountsOneAtMost(ls, infos[1..]);
    }
  }

  /** Summoned ledgers are people's and programs' as their owners are. */
  lemma SummonedKind(c: Chain, s: State, v: Venue, r: Receipt, infos: seq<Key>, i: nat)
    requires LedgersOk(c, s.ledgers) && Apart(c) && i < |infos| == |r.owners| && AllSummoned(c, s, v, r, infos)
    ensures infos[i] in s.ledgers && infos[i] == c.ledgerPda(r.owners[i])
    ensures s.ledgers[infos[i]].live.owner == r.owners[i] && s.ledgers[infos[i]].live.pdaAuth == c.isPda(r.owners[i])
  {
    assert Summoned(c, s, v, r, infos, i);
    assert LedgerOk(c, infos[i], s.ledgers[infos[i]]);
  }

  lemma AllSummonedKinds(c: Chain, s: State, v: Venue, r: Receipt, infos: seq<Key>)
    requires LedgersOk(c, s.ledgers) && Apart(c) && |infos| == |r.owners| && AllSummoned(c, s, v, r, infos)
    ensures forall i :: 0 <= i < |infos| ==> infos[i] in s.ledgers
    ensures forall i :: 0 <= i < |infos| ==> s.ledgers[infos[i]].live.pdaAuth == c.isPda(r.owners[i])
  {
    forall i | 0 <= i < |infos|
      ensures infos[i] in s.ledgers && s.ledgers[infos[i]].live.pdaAuth == c.isPda(r.owners[i])
    {
      SummonedKind(c, s, v, r, infos, i);
    }
  }

  lemma CountIff(c: Chain, s: State, v: Venue, r: Receipt, infos: seq<Key>)
    requires LedgersOk(c, s.ledgers) && Apart(c) && |infos| == |r.owners| && AllSummoned(c, s, v, r, infos)
    requires forall i :: 0 <= i < |infos| ==> infos[i] in s.ledgers
    ensures CountHumans(s.ledgers, infos) <= 1 <==> OnePersonAtMost(c, r.owners)
  {
    AllSummonedKinds(c, s, v, r, infos);
    if OnePersonAtMost(c, r.owners) {
      CountsOneAtMost(s.ledgers, infos);
    } else {
      var i, j :| 0 <= i < j < |r.owners| && !c.isPda(r.owners[i]) && !c.isPda(r.owners[j]);
      HumansAreCounted(s.ledgers, infos, i, j);
    }
  }

  lemma PeaceIff(c: Chain, s: State, r: Receipt, h: nat)
    requires h < |r.owners| && c.ledgerPda(r.owners[h]) in s.ledgers
    ensures LeavesInPeace(c, s, r, h) <==>
              !Debits(r, h) && !OpensSlot(r, h, s.ledgers[c.ledgerPda(r.owners[h])].live)
  {
  }

  lemma ReceiptConsentIff(c: Chain, s: State, v: Venue, r: Receipt, accounts: seq<Key>, infos: seq<Key>)
    requires LedgersOk(c, s.ledgers) && Apart(c) && |r.owners| <= |accounts| && infos == accounts[..|r.owners|]
    requires AllSummoned(c, s, v, r, accounts) && OnePersonAtMost(c, r.owners)
    requires forall i :: 0 <= i < |infos| ==> infos[i] in s.ledgers
    ensures ReceiptConsent(c, s, v, r, infos, accounts[|r.owners|..]).Success? <==> Agreed(c, s, v, r, accounts)
  {
    assert AllSummoned(c, s, v, r, infos) by {
      forall i | 0 <= i < |r.owners|
        ensures Summoned(c, s, v, r, infos, i)
      {
        assert Summoned(c, s, v, r, accounts, i);
      }
    }
    AllSummonedKinds(c, s, v, r, infos);
    var h := HumanIndex(s.ledgers, infos, 0);
    if h.Some? {
      SummonedKind(c, s, v, r, infos, h.value);
      AskedIff(c, s, v, r, accounts, infos, h.value);
      assert Agreed(c, s, v, r, accounts) <==> AgreedBy(c, s, v, r, accounts, h.value);
    }
  }

  lemma AskedIff(c: Chain, s: State, v: Venue, r: Receipt, accounts: seq<Key>, infos: seq<Key>, h: nat)
    requires |r.owners| <= |accounts| && infos == accounts[..|r.owners|] && AllSummoned(c, s, v, r, accounts)
    requires (forall i :: 0 <= i < |infos| ==> infos[i] in s.ledgers) && HumanIndex(s.ledgers, infos, 0) == Some(h)
    requires infos[h] == c.ledgerPda(r.owners[h]) && s.ledgers[infos[h]].live.owner == r.owners[h]
    ensures ReceiptConsent(c, s, v, r, infos, accounts[|r.owners|..]).Success? <==> AgreedBy(c, s, v, r, accounts, h)
  {
    PeaceIff(c, s, r, h);
    if accounts[|r.owners|..] != [] {
      MayConsentIff(c, s, v, accounts[|r.owners|..][0], r.owners[h], r.consenter, r.member);
    }
  }

  /** Every movement of the terms can be made, in their order, between the ledgers at the front of the list. */
  ghost predicate TermsGo(s: State, r: Receipt, accounts: seq<Key>)
    requires |r.owners| <= |accounts|
  {
    && InRange(r.movements, |r.owners|) && (forall i :: 0 <= i < |r.owners| ==> accounts[i] in s.ledgers)
    && MovementsGo(s.ledgers, accounts[..|r.owners|], r.movements)
  }

  function TermsAt(s: State, st: Step): Receipt
    requires st.op.SettleBegin? && At(st.venue, st.op.receipt) in s.receipts
  {
    s.receipts[At(st.venue, st.op.receipt)].terms
  }

  /** All that a receipt's settlement takes but its person's word. */
  ghost predicate ReadyToSettle(c: Chain, s: State, st: Step)
    requires st.op.SettleBegin?
  {
    && Presented(c, s, st)
    && var r := TermsAt(s, st);
       && AllSummoned(c, s, st.venue, r, st.op.remaining)
       && OnePersonAtMost(c, r.owners)
       && TermsGo(s, r, st.op.remaining)
  }

  /** A receipt's settlement begins if and only if it is ready and the one person in it agrees. A receipt with
      a person in it is no worse off than one without: only two people are one too many. */
  lemma BeginIff(c: Chain, s: State, st: Step)
    requires Sound(c) && Inv(c, s) && st.op.SettleBegin? && !Blocked(s, st)
    ensures Next(c, s, st).Success? <==>
              ReadyToSettle(c, s, st) && Agreed(c, s, st.venue, TermsAt(s, st), st.op.remaining)
  {
    AllFits(c, s);
    NextBeginIff(c, s, st);
    IsBegin(c, s, st);
  }

  lemma AllFits(c: Chain, s: State)
    requires Inv(c, s)
    ensures Fits(s.ledgers)
  {
    forall m: Key
      ensures Total(s.ledgers, m) <= MAX_U64
    {
      TotalFitsU64(c, s, m);
    }
  }

  lemma IsBegin(c: Chain, s: State, st: Step)
    requires st.op.SettleBegin? && !Blocked(s, st)
    ensures Next(c, s, st) == NextSettleBegin(c, s, st)
  {
  }

  lemma NextBeginIff(c: Chain, s: State, st: Step)
    requires LedgersOk(c, s.ledgers) && ReceiptsOk(c, s.receipts, s.clocks) && Fits(s.ledgers) && Apart(c)
    requires st.op.SettleBegin?
    ensures NextSettleBegin(c, s, st).Success? <==>
              ReadyToSettle(c, s, st) && Agreed(c, s, st.venue, TermsAt(s, st), st.op.remaining)
  {
    var at := At(st.venue, st.op.receipt);
    if LiveAt(s, at) {
      assert ReceiptOk(c, s.clocks, at, s.receipts[at]);
      HeaderIff(c, s, st, s.receipts[at].terms);
      if |s.receipts[at].terms.owners| <= |st.op.remaining| {
        LedgersIff(c, s, st, s.receipts[at].terms);
      }
    }
  }

  /** The header's checks, and then the ledgers'. */
  lemma HeaderIff(c: Chain, s: State, st: Step, r: Receipt)
    requires st.op.SettleBegin? && LiveAt(s, At(st.venue, st.op.receipt)) && TermsAt(s, st) == r
    requires InRange(r.movements, |r.owners|)
    ensures NextSettleBegin(c, s, st).Success? <==>
              && r.slot == ClockOf(s, st.venue).slot && st.op.authority == r.authority
              && st.op.callbackProgram == r.member && st.op.consenter == r.consenter && r.consenter in st.signers
              && |r.owners| <= |st.op.remaining| && BeginLedgers(c, s, st, r).Success?
  {
  }

  lemma LedgersIff(c: Chain, s: State, st: Step, r: Receipt)
    requires LedgersOk(c, s.ledgers) && Fits(s.ledgers) && Apart(c)
    requires st.op.SettleBegin? && Admitted(r) && |r.owners| <= |st.op.remaining|
    ensures BeginLedgers(c, s, st, r).Success? <==>
              && AllSummoned(c, s, st.venue, r, st.op.remaining) && OnePersonAtMost(c, r.owners)
              && Agreed(c, s, st.venue, r, st.op.remaining) && TermsGo(s, r, st.op.remaining)
              && st.op.vaultAuthority == c.vaultAuthority
  {
    var infos := st.op.remaining[..|r.owners|];
    CheckLedgersIff(c, s, st.venue, r, infos);
    SummonedAtFront(c, s, st.venue, r, st.op.remaining);
    if AllSummoned(c, s, st.venue, r, infos) {
      AllSummonedKinds(c, s, st.venue, r, infos);
      CountIff(c, s, st.venue, r, infos);
      if OnePersonAtMost(c, r.owners) {
        ReceiptConsentIff(c, s, st.venue, r, st.op.remaining, infos);
        TermsGoIff(c, s, st.venue, r, st.op.remaining, infos);
      }
    }
  }

  lemma SummonedAtFront(c: Chain, s: State, v: Venue, r: Receipt, accounts: seq<Key>)
    requires |r.owners| <= |accounts|
    ensures AllSummoned(c, s, v, r, accounts) <==> AllSummoned(c, s, v, r, accounts[..|r.owners|])
  {
    forall i | 0 <= i < |r.owners|
      ensures Summoned(c, s, v, r, accounts, i) <==> Summoned(c, s, v, r, accounts[..|r.owners|], i)
    {
    }
  }

  lemma TermsGoIff(c: Chain, s: State, v: Venue, r: Receipt, accounts: seq<Key>, infos: seq<Key>)
    requires LedgersOk(c, s.ledgers) && Fits(s.ledgers) && Apart(c) && Admitted(r)
    requires |r.owners| <= |accounts| && infos == accounts[..|r.owners|] && AllSummoned(c, s, v, r, infos)
    requires forall i :: 0 <= i < |infos| ==> infos[i] in s.ledgers
    ensures MoveAll(s.ledgers, infos, r.movements).Success? <==> TermsGo(s, r, accounts)
  {
    SummonedApart(c, s, v, r, infos);
    BooksOfLedgers(c, s.ledgers);
    MovementsGoIff(s.ledgers, infos, r.movements);
    forall i | 0 <= i < |r.owners|
      ensures accounts[i] in s.ledgers
    {
      assert accounts[i] == infos[i];
    }
  }

  lemma BooksOfLedgers(c: Chain, ls: map<Key, Acct<Book>>)
    requires LedgersOk(c, ls)
    ensures BooksOk(ls)
  {
    forall a | a in ls
      ensures BookOk(ls[a].live)
    {
      assert LedgerOk(c, a, ls[a]);
    }
  }

  /** The consenter is the receipt's person, or a key some earlier step of the run granted for the receipt's
      program, by a grant that stands. */
  ghost predicate AgreedOver(c: Chain, s: State, v: Venue, earlier: seq<Step>, r: Receipt, accounts: seq<Key>)
    requires |r.owners| <= |accounts| && AllSummoned(c, s, v, r, accounts)
  {
    forall h :: 0 <= h < |r.owners| && !c.isPda(r.owners[h]) ==> AgreedOverBy(c, s, v, earlier, r, accounts, h)
  }

  ghost predicate AgreedOverBy(c: Chain, s: State, v: Venue, earlier: seq<Step>, r: Receipt, accounts: seq<Key>,
      h: nat)
    requires h < |r.owners| <= |accounts| && AllSummoned(c, s, v, r, accounts)
  {
    assert Summoned(c, s, v, r, accounts, h);
    PersonAgrees(c, s, r, accounts[|r.owners|..], h,
        exists j: nat :: GrantedBy(earlier, j, r.owners[h], r.member, r.consenter, ClockOf(s, v).unix))
  }

  /** In every run a receipt that is ready settles if and only if its person is its consenter, or is left in
      peace, or granted its consenter by some earlier step, for its program, and the grant stands. */
  lemma GrantedKeysSettle(c: Chain, s: State, earlier: seq<Step>, st: Step)
    requires Sound(c) && Genesis(c, s) && Exec(c, s, earlier).Success?
    requires st.op.SettleBegin? && !Blocked(Exec(c, s, earlier).value, st)
    ensures var now := Exec(c, s, earlier).value;
            Next(c, now, st).Success? <==>
              ReadyToSettle(c, now, st)
              && AgreedOver(c, now, st.venue, earlier, TermsAt(now, st), st.op.remaining)
  {
    var now := Exec(c, s, earlier).value;
    RunInv(c, s, earlier);
    BeginIff(c, now, st);
    if ReadyToSettle(c, now, st) {
      AgreedInRun(c, s, earlier, now, st.venue, TermsAt(now, st), st.op.remaining);
    }
  }

  lemma AgreedInRun(c: Chain, s: State, earlier: seq<Step>, now: State, v: Venue, r: Receipt, accounts: seq<Key>)
    requires Sound(c) && Genesis(c, s) && Exec(c, s, earlier) == Success(now)
    requires |r.owners| <= |accounts| && AllSummoned(c, now, v, r, accounts)
    ensures Agreed(c, now, v, r, accounts) <==> AgreedOver(c, now, v, earlier, r, accounts)
  {
    forall h | 0 <= h < |r.owners|
      ensures AgreedBy(c, now, v, r, accounts, h) <==> AgreedOverBy(c, now, v, earlier, r, accounts, h)
    {
      HonouredKeysWereGranted(c, s, earlier, r.owners[h], r.member, r.consenter, ClockOf(now, v).unix);
    }
  }

  // ---- Whole settlements ----

  /** A settlement's handler ends if and only if it was sent with the rollup's own account for refunds and the
      receipt's authority is one of its owners. */
  lemma EndIff(c: Chain, s: State, st: Step)
    requires Inv(c, s) && st.op.SettleEnd? && !Blocked(s, st)
    ensures Next(c, s, st).Success? <==> s.settling != [] && Ends(c, s, s.settling[|s.settling| - 1])
  {
  }

  predicate Ends(c: Chain, s: State, last: Settlement) {
    last.at in s.receipts && last.ephemeralVault == c.ephemeralVault
    && s.receipts[last.at].terms.authority in s.receipts[last.at].terms.owners
  }

  /** A whole settlement goes through if and only if it begins, its callback goes through, whatever that calls,
      and two things hold that can be told before it starts: no callback can undo what its end relies on,
      nor make up for what it lacks. */
  lemma SettlementIff(c: Chain, s: State, begin: Step, callback: seq<Call>)
    requires Sound(c) && Inv(c, s) && Proper(Settling(begin, callback))
    ensures Exec(c, s, Flatten(Settling(begin, callback))).Success? <==>
              && Next(c, s, begin).Success?
              && Exec(c, Next(c, s, begin).value, FlattenAll(callback)).Success?
              && begin.op.ephemeralVault == c.ephemeralVault
              && At(begin.venue, begin.op.receipt) in s.receipts
              && TermsAt(s, begin).authority in TermsAt(s, begin).owners
  {
    ExecSettlement(c, s, begin, callback);
    if Next(c, s, begin).Success? {
      var mid := Next(c, s, begin).value;
      if Exec(c, mid, FlattenAll(callback)).Success? {
        CallbackIsBalanced(c, mid, callback);
        EndsAsBegun(c, s, begin, mid, FlattenAll(callback), Exec(c, mid, FlattenAll(callback)).value);
      }
    }
  }

  lemma EndsAsBegun(c: Chain, s: State, begin: Step, mid: State, steps: seq<Step>, done: State)
    requires Sound(c) && Inv(c, s) && begin.op.SettleBegin? && Next(c, s, begin) == Success(mid)
    requires Exec(c, mid, steps) == Success(done) && Balanced(c, mid, steps)
    ensures At(begin.venue, begin.op.receipt) in s.receipts
    ensures Next(c, done, End(begin)).Success? <==>
              begin.op.ephemeralVault == c.ephemeralVault && TermsAt(s, begin).authority in TermsAt(s, begin).owners
  {
    CallbackStarts(c, s, begin, mid);
    CallbackKeepsSettlings(c, mid, steps, |mid.settling|, |s.settling|);
    ExecKeepsInv(c, mid, steps);
    EndIff(c, done, End(begin));
  }

  // ---- Creating and reaping ----

  /** A receipt in order: signed by its consenter and by its authority, an address of its program with a ledger
      here; admissible; at its own address; on a rollup. */
  ghost predicate WellDrawn(c: Chain, s: State, st: Step)
    requires st.op.CreateReceipt?
  {
    var op := st.op;
    && op.authority in st.signers && op.consenter in st.signers
    && c.derive(op.member, op.seeds) == Some(op.authority)
    && Admitted(TermsOf(st, ClockOf(s, st.venue).slot))
    && op.receipt == c.receiptPda(op.member, op.consenter) && op.ephemeralVault == c.ephemeralVault
    && op.authorityLedger == c.ledgerPda(op.authority)
    && op.authorityLedger in s.ledgers && Here(s.ledgers[op.authorityLedger], st.venue)
    && st.venue.Rollup?
  }

  /** No receipt of the current slot stands at the address. */
  predicate NoneOfThisSlot(s: State, st: Step)
    requires st.op.CreateReceipt?
  {
    var at := At(st.venue, st.op.receipt);
    at in s.receipts ==> s.receipts[at].terms.slot != ClockOf(s, st.venue).slot
  }

  /** A receipt is created if and only if it is well drawn and its address holds none of this very slot, used or
      not: whatever an earlier slot left there is written over. */
  lemma CreateIff(c: Chain, s: State, st: Step)
    requires Sound(c) && Inv(c, s) && st.op.CreateReceipt? && !Blocked(s, st)
    ensures Next(c, s, st).Success? <==> WellDrawn(c, s, st) && NoneOfThisSlot(s, st)
  {
    NextCreateIff(c, s, st);
    IsCreate(c, s, st);
  }

  lemma IsCreate(c: Chain, s: State, st: Step)
    requires st.op.CreateReceipt? && !Blocked(s, st)
    ensures Next(c, s, st) == NextCreateReceipt(c, s, st)
  {
  }

  lemma NextCreateIff(c: Chain, s: State, st: Step)
    requires LedgersOk(c, s.ledgers) && Apart(c) && st.op.CreateReceipt?
    ensures NextCreateReceipt(c, s, st).Success? <==> WellDrawn(c, s, st) && NoneOfThisSlot(s, st)
  {
    if st.op.authorityLedger in s.ledgers {
      assert LedgerOk(c, st.op.authorityLedger, s.ledgers[st.op.authorityLedger]);
    }
  }

  /** Step `j` of the run created a receipt at `at` with these terms, and no later step created another. */
  ghost predicate LastCreate(c: Chain, s: State, steps: seq<Step>, at: At, terms: Receipt, j: nat) {
    && j < |steps| && Creates(steps[j], at)
    && Exec(c, s, steps[..j]).Success?
    && terms == TermsOf(steps[j], ClockOf(Exec(c, s, steps[..j]).value, at.venue).slot)
    && forall n :: j < n < |steps| ==> !Creates(steps[n], at)
  }

  /** What stands at a receipt address, live or being settled, is what the latest create there wrote. */
  lemma {:induction false} ReceiptsAreTheLatest(c: Chain, s: State, steps: seq<Step>, at: At) returns (j: nat)
    requires Sound(c) && Genesis(c, s) && Exec(c, s, steps).Success? && at in Exec(c, s, steps).value.receipts
    ensures LastCreate(c, s, steps, at, Exec(c, s, steps).value.receipts[at].terms, j)
    decreases |steps|
  {
    var last := |steps| - 1;
    var earlier := steps[..last];
    var before, now := Exec(c, s, earlier).value, Exec(c, s, steps).value;
    StepWritesTerms(c, before, steps[last], now, at);
    if Creates(steps[last], at) {
      j := last;
      LatestNow(c, s, steps, at, before);
    } else {
      j := ReceiptsAreTheLatest(c, s, earlier, at);
      StillTheLatest(c, s, steps, at, now.receipts[at].terms, j);
    }
  }

  lemma LatestNow(c: Chain, s: State, steps: seq<Step>, at: At, before: State)
    requires steps != [] && Creates(steps[|steps| - 1], at) && Exec(c, s, steps[..|steps| - 1]) == Success(before)
    ensures LastCreate(c, s, steps, at, TermsOf(steps[|steps| - 1], ClockOf(before, at.venue).slot), |steps| - 1)
  {
  }

  lemma StillTheLatest(c: Chain, s: State, steps: seq<Step>, at: At, terms: Receipt, j: nat)
    requires steps != [] && !Creates(steps[|steps| - 1], at) && LastCreate(c, s, steps[..|steps| - 1], at, terms, j)
    ensures LastCreate(c, s, steps, at, terms, j)
  {
    assert steps[..|steps| - 1][..j] == steps[..j];
    assert forall n :: j < n < |steps| - 1 ==> steps[..|steps| - 1][n] == steps[n];
  }

  /** Only a create puts terms at an address. */
  lemma StepWritesTerms(c: Chain, s: State, st: Step, s': State, at: At)
    requires Next(c, s, st) == Success(s') && at in s'.receipts
    ensures if Creates(st, at) then s'.receipts[at].terms == TermsOf(st, ClockOf(s, at.venue).slot)
            else at in s.receipts && s'.receipts[at].terms == s.receipts[at].terms
  {
    if st.op.CreateReceipt? {
      CreateWrites(c, s, st);
    } else if st.op.SettleBegin? {
      BeginReads(c, s, st);
    } else if st.op.Reap? {
      ReapRemoves(c, s, st);
    } else if !st.op.SettleEnd? {
      NonReceiptOpsKeepReceipts(c, s, st);
    }
  }

  /** In every run an address whose latest receipt is of an earlier slot, abandoned or settled, can be written
      again. */
  lemma EarlierSlotsAreDebris(c: Chain, s: State, earlier: seq<Step>, st: Step)
    requires Sound(c) && Genesis(c, s) && Exec(c, s, earlier).Success?
    requires var now := Exec(c, s, earlier).value;
             st.op.CreateReceipt? && !Blocked(now, st) && WellDrawn(c, now, st)
    requires forall terms, j: nat :: LastCreate(c, s, earlier, At(st.venue, st.op.receipt), terms, j) ==>
               terms.slot < ClockOf(Exec(c, s, earlier).value, st.venue).slot
    ensures Next(c, Exec(c, s, earlier).value, st).Success?
  {
    var now, at := Exec(c, s, earlier).value, At(st.venue, st.op.receipt);
    RunInv(c, s, earlier);
    if at in now.receipts {
      var j := ReceiptsAreTheLatest(c, s, earlier, at);
    }
    CreateIff(c, now, st);
  }

  /** A live receipt of an earlier slot. */
  predicate Abandoned(s: State, at: At) {
    LiveAt(s, at) && s.receipts[at].terms.slot < ClockOf(s, at.venue).slot
  }

  /** A reap goes through if and only if it is sent with the rollup's own account for refunds and, where it
      finds an abandoned receipt, with the ledger of its authority, here. It removes that receipt, and
      otherwise does nothing. */
  lemma ReapIff(c: Chain, s: State, st: Step)
    requires Sound(c) && Inv(c, s) && st.op.Reap? && !Blocked(s, st)
    ensures Next(c, s, st).Success? <==> ReapStands(c, s, st)
    ensures Next(c, s, st).Success? ==> Next(c, s, st).value == Reaped(s, At(st.venue, st.op.receipt))
  {
    NextReapIff(c, s, st);
  }

  ghost predicate ReapStands(c: Chain, s: State, st: Step)
    requires st.op.Reap?
  {
    var at, ledger := At(st.venue, st.op.receipt), st.op.authorityLedger;
    && st.op.ephemeralVault == c.ephemeralVault
    && (Abandoned(s, at) ==>
          && ledger == c.ledgerPda(s.receipts[at].terms.authority)
          && ledger in s.ledgers && Here(s.ledgers[ledger], st.venue))
  }

  function Reaped(s: State, at: At): State {
    if Abandoned(s, at) then s.(receipts := s.receipts - {at}) else s
  }

  lemma NextReapIff(c: Chain, s: State, st: Step)
    requires LedgersOk(c, s.ledgers) && Apart(c) && st.op.Reap?
    ensures NextReap(c, s, st).Success? <==> ReapStands(c, s, st)
    ensures NextReap(c, s, st).Success? ==> NextReap(c, s, st).value == Reaped(s, At(st.venue, st.op.receipt))
  {
    if st.op.authorityLedger in s.ledgers {
      assert LedgerOk(c, st.op.authorityLedger, s.ledgers[st.op.authorityLedger]);
    }
  }
}
