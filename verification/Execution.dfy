/** What a receipt's loop of movements amounts to: the order hardly matters, and asking for consent
    once, before the loop, is enough. */
module Execution {
  import opened Base
  import opened Books
  import opened Machine
  import opened Receipts
  import opened SlotTable
  import opened Totals

  // ---- Order ----

  lemma {:induction false} NetWithout(infos: seq<Key>, movements: seq<Movement>, i: nat, a: Key, m: Key)
    requires InRange(movements, |infos|) && i < |movements|
    ensures var v := movements[i];
            Net(infos, movements, a, m) ==
              Shift(infos[v.src], infos[v.dst], v.mint, v.amount, a, m)
                  + Net(infos, movements[..i] + movements[i + 1..], a, m)
  {
    if i == 0 {
      assert movements[..0] + movements[1..] == movements[1..];
    } else {
      NetWithout(infos, movements[1..], i - 1, a, m);
      var rest := movements[..i] + movements[i + 1..];
      assert rest[0] == movements[0];
      assert rest[1..] == movements[1..][..i - 1] + movements[1..][i..];
    }
  }

  lemma RemoveOne(x: seq<Movement>, y: seq<Movement>, i: nat)
    requires x != [] && i < |y| && y[i] == x[0] && multiset(x) == multiset(y)
    ensures multiset(x[1..]) == multiset(y[..i] + y[i + 1..])
  {
    assert x == [x[0]] + x[1..];
    assert y == y[..i] + [y[i]] + y[i + 1..];
    assert multiset(x[1..]) == multiset(x) - multiset{x[0]};
    assert multiset(y[..i] + y[i + 1..]) == multiset(y) - multiset{y[i]};
  }

  lemma {:induction false} NetIgnoresOrder(infos: seq<Key>, x: seq<Movement>, y: seq<Movement>, a: Key, m: Key)
    requires InRange(x, |infos|) && InRange(y, |infos|) && multiset(x) == multiset(y)
    ensures Net(infos, x, a, m) == Net(infos, y, a, m)
    decreases |x|
  {
    if x == [] {
      assert |y| == |multiset(y)| == 0;
    } else {
      assert x[0] in multiset(y);
      var i :| 0 <= i < |y| && y[i] == x[0];
      NetWithout(infos, y, i, a, m);
      var y' := y[..i] + y[i + 1..];
      RemoveOne(x, y, i);
      NetIgnoresOrder(infos, x[1..], y', a, m);
    }
  }

  /** Two orders of the same movements that both go through leave every balance the same. */
  lemma OrderKeepsBalances(ls: map<Key, Acct<Book>>, infos: seq<Key>, x: seq<Movement>, y: seq<Movement>,
      a: Key, m: Key)
    requires BooksOk(ls) && (forall i :: 0 <= i < |infos| ==> infos[i] in ls)
    requires InRange(x, |infos|) && InRange(y, |infos|) && multiset(x) == multiset(y)
    requires MoveAll(ls, infos, x).Success? && MoveAll(ls, infos, y).Success? && a in ls
    ensures Balance(MoveAll(ls, infos, x).value[a].live, m) == Balance(MoveAll(ls, infos, y).value[a].live, m)
  {
    MoveAllEffect(ls, infos, x);
    MoveAllEffect(ls, infos, y);
    NetIgnoresOrder(infos, x, y, a, m);
  }

  // ---- Order and slots ----

  /** Movement `v` takes from or gives to `a`'s slot of `m`. */
  predicate Concerns(infos: seq<Key>, v: Movement, a: Key, m: Key)
    requires v.src < |infos| && v.dst < |infos|
  {
    v.mint == m && (infos[v.src] == a || infos[v.dst] == a)
  }

  ghost predicate ConcernedBy(infos: seq<Key>, movements: seq<Movement>, a: Key, m: Key)
    requires InRange(movements, |infos|)
  {
    exists i :: 0 <= i < |movements| && Concerns(infos, movements[i], a, m)
  }

  /** The last movement to touch `a`'s slot of `m` comes in. */
  predicate EndsInward(infos: seq<Key>, movements: seq<Movement>, a: Key, m: Key)
    requires InRange(movements, |infos|)
    decreases |movements|
  {
    movements != [] &&
    var last := movements[|movements| - 1];
    if Concerns(infos, last, a, m) then infos[last.dst] == a
    else EndsInward(infos, movements[..|movements| - 1], a, m)
  }

  /** One movement decides the slots it touches: after it comes in the slot is open; after it goes out
      the slot is open only if something is left. */
  lemma MoveSlots(ls: map<Key, Acct<Book>>, infos: seq<Key>, v: Movement, a: Key, m: Key)
    requires BooksOk(ls) && (forall i :: 0 <= i < |infos| ==> infos[i] in ls) && a in ls && m != ZERO_KEY
    requires v.src < |infos| && v.dst < |infos|
    requires Move(ls, infos[v.src], infos[v.dst], v.mint, v.amount).Success?
    ensures var ls' := Move(ls, infos[v.src], infos[v.dst], v.mint, v.amount).value;
            if Concerns(infos, v, a, m) then
              m in ls'[a].live.claims <==> infos[v.dst] == a || Balance(ls'[a].live, m) > 0
            else
              && Balance(ls'[a].live, m) == Balance(ls[a].live, m)
              && (m in ls'[a].live.claims <==> m in ls[a].live.claims)
    ensures Concerns(infos, v, a, m) && infos[v.dst] == a && v.amount > 0 ==>
              Balance(Move(ls, infos[v.src], infos[v.dst], v.mint, v.amount).value[a].live, m) > 0
  {
    var src, dst := infos[v.src], infos[v.dst];
    DebitSlots(ls[src].live, v.mint, v.amount, m);
    DebitEffect(ls[src].live, v.mint, v.amount);
    var mid := ls[src := ls[src].(live := Debit(ls[src].live, v.mint, v.amount).value)];
    CreditEffect(mid[dst].live, v.mint, v.amount);
  }

  lemma DebitSlots(b: Book, mint: Key, amount: u64, m: Key)
    requires Debit(b, mint, amount).Success? && m != ZERO_KEY
    ensures var b' := Debit(b, mint, amount).value;
            m in b'.claims <==> if m == mint then Balance(b', m) > 0 else m in b.claims
  {
  }

  /** All but the last of a receipt's movements, and then the last. */
  lemma LastMovement(ls: map<Key, Acct<Book>>, infos: seq<Key>, movements: seq<Movement>)
    returns (mid: map<Key, Acct<Book>>)
    requires BooksOk(ls) && (forall i :: 0 <= i < |infos| ==> infos[i] in ls)
    requires InRange(movements, |infos|) && movements != [] && MoveAll(ls, infos, movements).Success?
    ensures var earlier, v := movements[..|movements| - 1], movements[|movements| - 1];
            && MoveAll(ls, infos, earlier) == Success(mid) && BooksOk(mid) && mid.Keys == ls.Keys
            && (forall i :: 0 <= i < |infos| ==> infos[i] in mid)
            && Move(mid, infos[v.src], infos[v.dst], v.mint, v.amount) == MoveAll(ls, infos, movements)
  {
    var k := |movements| - 1;
    PrefixSucceeds(ls, infos, movements, k);
    mid := MoveAll(ls, infos, movements[..k]).value;
    RunKeepsBooks(ls, infos, movements[..k]);
    assert movements[k..] == [movements[k]];
    MoveAllOne(mid, infos, movements[k]);
  }

  lemma MoveAllOne(ls: map<Key, Acct<Book>>, infos: seq<Key>, v: Movement)
    requires (forall i :: 0 <= i < |infos| ==> infos[i] in ls) && v.src < |infos| && v.dst < |infos|
    ensures InRange([v], |infos|) && MoveAll(ls, infos, [v]) == Move(ls, infos[v.src], infos[v.dst], v.mint, v.amount)
  {
    assert [v][1..] == [];
  }

  lemma ConcernedSplits(infos: seq<Key>, movements: seq<Movement>, a: Key, m: Key)
    requires InRange(movements, |infos|) && movements != []
    ensures var k := |movements| - 1;
            ConcernedBy(infos, movements, a, m) <==>
                Concerns(infos, movements[k], a, m) || ConcernedBy(infos, movements[..k], a, m)
  {
    var earlier := movements[..|movements| - 1];
    if ConcernedBy(infos, earlier, a, m) {
      var i :| 0 <= i < |earlier| && Concerns(infos, earlier[i], a, m);
      assert Concerns(infos, movements[i], a, m);
    }
    if ConcernedBy(infos, movements, a, m) {
      var i :| 0 <= i < |movements| && Concerns(infos, movements[i], a, m);
      if i < |earlier| {
        assert Concerns(infos, earlier[i], a, m);
      }
    }
  }

  /** Ledger `a` in `after` has a slot of `m` if it holds some; if it is empty and the movements touched it,
      if the last of them came in; and if they did not touch it, if it had one before. */
  ghost predicate SlotsLeft(ls: map<Key, Acct<Book>>, infos: seq<Key>, movements: seq<Movement>,
      after: map<Key, Acct<Book>>, a: Key, m: Key)
    requires InRange(movements, |infos|) && a in ls && a in after
  {
    m in after[a].live.claims <==>
      || Balance(after[a].live, m) > 0
      || (if ConcernedBy(infos, movements, a, m) then EndsInward(infos, movements, a, m) else m in ls[a].live.claims)
  }

  lemma OneMoreMovement(ls: map<Key, Acct<Book>>, infos: seq<Key>, movements: seq<Movement>,
      mid: map<Key, Acct<Book>>, after: map<Key, Acct<Book>>, a: Key, m: Key)
    requires InRange(movements, |infos|) && movements != [] && (forall i :: 0 <= i < |infos| ==> infos[i] in mid)
    requires BooksOk(mid) && a in ls && a in mid && a in after && m != ZERO_KEY
    requires SlotsLeft(ls, infos, movements[..|movements| - 1], mid, a, m)
    requires var v := movements[|movements| - 1];
             Move(mid, infos[v.src], infos[v.dst], v.mint, v.amount) == Success(after)
    ensures SlotsLeft(ls, infos, movements, after, a, m)
  {
    ConcernedSplits(infos, movements, a, m);
    MoveSlots(mid, infos, movements[|movements| - 1], a, m);
  }

  /** The slots a receipt leaves open: those that hold something; of the empty ones it touched, those
      it touched last on the way in; and those it did not touch, as they were. */
  lemma {:induction false} FinalSlots(ls: map<Key, Acct<Book>>, infos: seq<Key>, movements: seq<Movement>,
      a: Key, m: Key)
    requires BooksOk(ls) && (forall i :: 0 <= i < |infos| ==> infos[i] in ls) && a in ls && m != ZERO_KEY
    requires InRange(movements, |infos|) && MoveAll(ls, infos, movements).Success?
    ensures SlotsLeft(ls, infos, movements, MoveAll(ls, infos, movements).value, a, m)
    decreases |movements|
  {
    if movements != [] {
      var mid := LastMovement(ls, infos, movements);
      FinalSlots(ls, infos, movements[..|movements| - 1], a, m);
      OneMoreMovement(ls, infos, movements, mid, MoveAll(ls, infos, movements).value, a, m);
    }
  }

  lemma ConcernedInAnyOrder(infos: seq<Key>, x: seq<Movement>, y: seq<Movement>, a: Key, m: Key)
    requires InRange(x, |infos|) && InRange(y, |infos|) && multiset(x) == multiset(y)
    requires ConcernedBy(infos, x, a, m)
    ensures ConcernedBy(infos, y, a, m)
  {
    var i :| 0 <= i < |x| && Concerns(infos, x[i], a, m);
    assert x[i] in multiset(y);
    var j :| 0 <= j < |y| && y[j] == x[i];
  }

  /** `x` and `y` agree on how they leave `a`'s slot of `m`: if they touch it and empty it, the last to
      touch it goes the same way in both. */
  ghost predicate SameEnding(ls: map<Key, Acct<Book>>, infos: seq<Key>, x: seq<Movement>, y: seq<Movement>,
      a: Key, m: Key)
    requires InRange(x, |infos|) && InRange(y, |infos|) && a in ls
  {
    ConcernedBy(infos, x, a, m) && Balance(ls[a].live, m) + Net(infos, x, a, m) == 0 ==>
      (EndsInward(infos, x, a, m) <==> EndsInward(infos, y, a, m))
  }

  lemma SameSlotIff(ls: map<Key, Acct<Book>>, infos: seq<Key>, x: seq<Movement>, y: seq<Movement>, a: Key, m: Key)
    requires BooksOk(ls) && (forall i :: 0 <= i < |infos| ==> infos[i] in ls) && a in ls && m != ZERO_KEY
    requires InRange(x, |infos|) && InRange(y, |infos|) && multiset(x) == multiset(y)
    requires MoveAll(ls, infos, x).Success? && MoveAll(ls, infos, y).Success?
    ensures SameEnding(ls, infos, x, y, a, m) <==>
              (m in MoveAll(ls, infos, x).value[a].live.claims <==> m in MoveAll(ls, infos, y).value[a].live.claims)
  {
    FinalSlots(ls, infos, x, a, m);
    FinalSlots(ls, infos, y, a, m);
    OrderKeepsBalances(ls, infos, x, y, a, m);
    BalanceAfter(ls, infos, x, a, m);
    ConcernedAlike(infos, x, y, a, m);
  }

  lemma BalanceAfter(ls: map<Key, Acct<Book>>, infos: seq<Key>, x: seq<Movement>, a: Key, m: Key)
    requires BooksOk(ls) && (forall i :: 0 <= i < |infos| ==> infos[i] in ls) && a in ls
    requires InRange(x, |infos|) && MoveAll(ls, infos, x).Success?
    ensures Balance(MoveAll(ls, infos, x).value[a].live, m) == Balance(ls[a].live, m) + Net(infos, x, a, m)
  {
    MoveAllEffect(ls, infos, x);
  }

  lemma ConcernedAlike(infos: seq<Key>, x: seq<Movement>, y: seq<Movement>, a: Key, m: Key)
    requires InRange(x, |infos|) && InRange(y, |infos|) && multiset(x) == multiset(y)
    ensures ConcernedBy(infos, x, a, m) <==> ConcernedBy(infos, y, a, m)
  {
    if ConcernedBy(infos, x, a, m) {
      ConcernedInAnyOrder(infos, x, y, a, m);
    }
    if ConcernedBy(infos, y, a, m) {
      ConcernedInAnyOrder(infos, y, x, a, m);
    }
  }

  /** Two orders of the same movements that both go through leave the ledgers equal, slots included, if
      and only if every token slot they touch and empty is touched last in the same direction by both.
      The condition is read off the ledgers as they stand and the two lists. */
  lemma OrderIsIrrelevantIff(ls: map<Key, Acct<Book>>, infos: seq<Key>, x: seq<Movement>, y: seq<Movement>)
    requires BooksOk(ls) && (forall i :: 0 <= i < |infos| ==> infos[i] in ls)
    requires InRange(x, |infos|) && InRange(y, |infos|) && multiset(x) == multiset(y)
    requires MoveAll(ls, infos, x).Success? && MoveAll(ls, infos, y).Success?
    ensures MoveAll(ls, infos, x) == MoveAll(ls, infos, y) <==>
              forall a, m :: a in ls && m != ZERO_KEY ==> SameEnding(ls, infos, x, y, a, m)
  {
    forall a, m | a in ls && m != ZERO_KEY
      ensures SameEnding(ls, infos, x, y, a, m) <==>
                (m in MoveAll(ls, infos, x).value[a].live.claims <==> m in MoveAll(ls, infos, y).value[a].live.claims)
    {
      SameSlotIff(ls, infos, x, y, a, m);
    }
    if forall a, m :: a in ls && m != ZERO_KEY ==> SameEnding(ls, infos, x, y, a, m) {
      SameLedgers(ls, infos, x, y);
    }
  }

  lemma SameLedgers(ls: map<Key, Acct<Book>>, infos: seq<Key>, x: seq<Movement>, y: seq<Movement>)
    requires BooksOk(ls) && (forall i :: 0 <= i < |infos| ==> infos[i] in ls)
    requires InRange(x, |infos|) && InRange(y, |infos|) && multiset(x) == multiset(y)
    requires MoveAll(ls, infos, x).Success? && MoveAll(ls, infos, y).Success?
    requires forall a, m :: a in ls && m != ZERO_KEY ==>
               (m in MoveAll(ls, infos, x).value[a].live.claims <==> m in MoveAll(ls, infos, y).value[a].live.claims)
    ensures MoveAll(ls, infos, x).value == MoveAll(ls, infos, y).value
  {
    var lx, ly := MoveAll(ls, infos, x).value, MoveAll(ls, infos, y).value;
    MoveAllEffect(ls, infos, x);
    MoveAllEffect(ls, infos, y);
    forall a, m | a in ls
      ensures Balance(lx[a].live, m) == Balance(ly[a].live, m)
    {
      OrderKeepsBalances(ls, infos, x, y, a, m);
    }
    forall a | a in ls
      ensures lx[a] == ly[a]
    {
      SameBook(lx[a].live, ly[a].live);
    }
  }

  /** A book is settled by its balances and its slots. */
  lemma SameBook(b: Book, b': Book)
    requires BookOk(b) && BookOk(b') && b' == b.(claims := b'.claims)
    requires forall m :: Balance(b, m) == Balance(b', m)
    requires forall m :: m != ZERO_KEY ==> (m in b.claims <==> m in b'.claims)
    ensures b == b'
  {
    assert b.claims.Keys == b'.claims.Keys;
    forall m | m in b.claims
      ensures b.claims[m] == b'.claims[m]
    {
      assert Balance(b, m) == Balance(b', m);
    }
    assert b.claims == b'.claims;
  }

  ghost predicate Positive(movements: seq<Movement>) {
    forall i :: 0 <= i < |movements| ==> movements[i].amount > 0
  }

  /** A slot whose last movement brings something in is not empty. */
  lemma {:induction false} PositiveEndsHolding(ls: map<Key, Acct<Book>>, infos: seq<Key>, movements: seq<Movement>,
      a: Key, m: Key)
    requires BooksOk(ls) && (forall i :: 0 <= i < |infos| ==> infos[i] in ls) && a in ls && m != ZERO_KEY
    requires InRange(movements, |infos|) && Positive(movements) && MoveAll(ls, infos, movements).Success?
    requires EndsInward(infos, movements, a, m)
    ensures Balance(MoveAll(ls, infos, movements).value[a].live, m) > 0
    decreases |movements|
  {
    var k := |movements| - 1;
    var mid := LastMovement(ls, infos, movements);
    var v := movements[k];
    MoveSlots(mid, infos, v, a, m);
    if !Concerns(infos, v, a, m) {
      PositiveEndsHolding(ls, infos, movements[..k], a, m);
    }
  }

  /** If every amount is positive the order does not matter at all. */
  lemma PositiveOrderIsIrrelevant(ls: map<Key, Acct<Book>>, infos: seq<Key>, x: seq<Movement>, y: seq<Movement>)
    requires BooksOk(ls) && (forall i :: 0 <= i < |infos| ==> infos[i] in ls)
    requires InRange(x, |infos|) && InRange(y, |infos|) && multiset(x) == multiset(y) && Positive(x)
    requires MoveAll(ls, infos, x).Success? && MoveAll(ls, infos, y).Success?
    ensures MoveAll(ls, infos, x) == MoveAll(ls, infos, y)
  {
    PositiveToo(x, y);
    forall a, m | a in ls && m != ZERO_KEY
      ensures SameEnding(ls, infos, x, y, a, m)
    {
      OrderKeepsBalances(ls, infos, x, y, a, m);
      MoveAllEffect(ls, infos, x);
      if EndsInward(infos, x, a, m) {
        PositiveEndsHolding(ls, infos, x, a, m);
      }
      if EndsInward(infos, y, a, m) {
        PositiveEndsHolding(ls, infos, y, a, m);
      }
    }
    OrderIsIrrelevantIff(ls, infos, x, y);
  }

  lemma PositiveToo(x: seq<Movement>, y: seq<Movement>)
    requires multiset(x) == multiset(y) && Positive(x)
    ensures Positive(y)
  {
    forall i | 0 <= i < |y|
      ensures y[i].amount > 0
    {
      assert y[i] in multiset(x);
    }
  }

  // ---- Consent before the loop ----

  /** No movement takes from ledger `a`, and none brings it a mint it has no slot for. */
  ghost predicate QuietFor(ls: map<Key, Acct<Book>>, infos: seq<Key>, movements: seq<Movement>, a: Key)
    requires InRange(movements, |infos|) && a in ls
  {
    forall i :: 0 <= i < |movements| ==>
      && infos[movements[i].src] != a
      && (infos[movements[i].dst] == a ==> movements[i].mint in ls[a].live.claims)
  }

  /** `later` has the same slots as `earlier` and at least as much in each. */
  ghost predicate OnlyGrew(earlier: Book, later: Book) {
    && later.claims.Keys == earlier.claims.Keys
    && forall m :: m in earlier.claims ==> earlier.claims[m] <= later.claims[m]
  }

  lemma QuietMove(ls: map<Key, Acct<Book>>, src: Key, dst: Key, mint: Key, amount: u64, a: Key)
    requires BooksOk(ls) && src in ls && dst in ls && a in ls && Move(ls, src, dst, mint, amount).Success?
    requires a != src && (a == dst ==> mint in ls[a].live.claims)
    ensures OnlyGrew(ls[a].live, Move(ls, src, dst, mint, amount).value[a].live)
  {
    MoveShape(ls, src, dst, mint, amount);
    var mid := ls[src := ls[src].(live := Debit(ls[src].live, mint, amount).value)];
    if a == dst {
      assert mid[dst] == ls[dst];
      CreditPresent(ls[dst].live, mint, amount);
    }
  }

  lemma {:induction false} QuietRun(ls: map<Key, Acct<Book>>, infos: seq<Key>, movements: seq<Movement>, a: Key)
    requires BooksOk(ls) && (forall i :: 0 <= i < |infos| ==> infos[i] in ls) && a in ls
    requires InRange(movements, |infos|) && MoveAll(ls, infos, movements).Success? && QuietFor(ls, infos, movements, a)
    ensures OnlyGrew(ls[a].live, MoveAll(ls, infos, movements).value[a].live)
    decreases |movements|
  {
    if movements != [] {
      var v := movements[0];
      var mid := Move(ls, infos[v.src], infos[v.dst], v.mint, v.amount).value;
      MoveShape(ls, infos[v.src], infos[v.dst], v.mint, v.amount);
      QuietMove(ls, infos[v.src], infos[v.dst], v.mint, v.amount, a);
      QuietRun(mid, infos, movements[1..], a);
    }
  }

  lemma {:induction false} MoveAllSplits(ls: map<Key, Acct<Book>>, infos: seq<Key>, x: seq<Movement>, y: seq<Movement>)
    requires forall i :: 0 <= i < |infos| ==> infos[i] in ls
    requires InRange(x + y, |infos|) && InRange(x, |infos|) && InRange(y, |infos|)
    ensures MoveAll(ls, infos, x + y).Success? ==> MoveAll(ls, infos, x).Success?
    ensures MoveAll(ls, infos, x).Success? ==>
              MoveAll(ls, infos, x + y) == MoveAll(MoveAll(ls, infos, x).value, infos, y)
    decreases |x|
  {
    if x == [] {
      assert x + y == y;
    } else {
      assert (x + y)[0] == x[0] && (x + y)[1..] == x[1..] + y;
      var v := x[0];
      var mid := Move(ls, infos[v.src], infos[v.dst], v.mint, v.amount);
      if mid.Success? {
        MoveAllSplits(mid.value, infos, x[1..], y);
      }
    }
  }

  /** The test made once, on the ledgers as they stand, decides for every iteration of the loop: a
      person it finds neither debited nor given a new mint keeps exactly their mints, and no amount
      of theirs ever falls, from any point of the loop to any later one. */
  lemma ConsentBeforeTheLoopSuffices(ls: map<Key, Acct<Book>>, infos: seq<Key>, r: Receipt, h: nat, j: nat, k: nat)
    requires BooksOk(ls) && (forall i :: 0 <= i < |infos| ==> infos[i] in ls) && Distinct(infos) && h < |infos|
    requires InRange(r.movements, |infos|) && MoveAll(ls, infos, r.movements).Success?
    requires !Debits(r, h) && !OpensSlot(r, h, ls[infos[h]].live)
    requires j <= k <= |r.movements|
    ensures MoveAll(ls, infos, r.movements[..j]).Success? && MoveAll(ls, infos, r.movements[..k]).Success?
    ensures OnlyGrew(MoveAll(ls, infos, r.movements[..j]).value[infos[h]].live,
              MoveAll(ls, infos, r.movements[..k]).value[infos[h]].live)
  {
    var ms, a := r.movements, infos[h];
    assert QuietFor(ls, infos, ms, a);
    QuietThroughout(ls, infos, ms, a, j, k);
  }

  lemma QuietThroughout(ls: map<Key, Acct<Book>>, infos: seq<Key>, ms: seq<Movement>, a: Key, j: nat, k: nat)
    requires BooksOk(ls) && (forall i :: 0 <= i < |infos| ==> infos[i] in ls) && a in ls
    requires InRange(ms, |infos|) && MoveAll(ls, infos, ms).Success? && QuietFor(ls, infos, ms, a) && j <= k <= |ms|
    ensures MoveAll(ls, infos, ms[..j]).Success? && MoveAll(ls, infos, ms[..k]).Success?
    ensures OnlyGrew(MoveAll(ls, infos, ms[..j]).value[a].live, MoveAll(ls, infos, ms[..k]).value[a].live)
  {
    PrefixSucceeds(ls, infos, ms, k);
    assert ms[..k][..j] == ms[..j];
    TailGrows(ls, infos, ms[..k], a, j);
  }

  lemma TailGrows(ls: map<Key, Acct<Book>>, infos: seq<Key>, x: seq<Movement>, a: Key, j: nat)
    requires BooksOk(ls) && (forall i :: 0 <= i < |infos| ==> infos[i] in ls) && a in ls
    requires InRange(x, |infos|) && MoveAll(ls, infos, x).Success? && QuietFor(ls, infos, x, a) && j <= |x|
    ensures MoveAll(ls, infos, x[..j]).Success?
    ensures OnlyGrew(MoveAll(ls, infos, x[..j]).value[a].live, MoveAll(ls, infos, x).value[a].live)
  {
    PrefixSucceeds(ls, infos, x, j);
    var mid := MoveAll(ls, infos, x[..j]).value;
    QuietFrom(ls, infos, x, a, j, mid);
    QuietRun(mid, infos, x[j..], a);
  }

  lemma QuietFrom(ls: map<Key, Acct<Book>>, infos: seq<Key>, ms: seq<Movement>, a: Key, j: nat, mid: map<Key,
      Acct<Book>>)
    requires BooksOk(ls) && (forall i :: 0 <= i < |infos| ==> infos[i] in ls) && a in ls
    requires InRange(ms, |infos|) && QuietFor(ls, infos, ms, a) && j <= |ms|
    requires MoveAll(ls, infos, ms[..j]) == Success(mid)
    ensures BooksOk(mid) && QuietFor(mid, infos, ms[j..], a)
  {
    QuietRun(ls, infos, ms[..j], a);
    RunKeepsBooks(ls, infos, ms[..j]);
  }

  lemma RunKeepsBooks(ls: map<Key, Acct<Book>>, infos: seq<Key>, x: seq<Movement>)
    requires BooksOk(ls) && InRange(x, |infos|) && (forall i :: 0 <= i < |infos| ==> infos[i] in ls)
    requires MoveAll(ls, infos, x).Success?
    ensures BooksOk(MoveAll(ls, infos, x).value)
  {
    MoveAllEffect(ls, infos, x);
  }

  lemma PrefixSucceeds(ls: map<Key, Acct<Book>>, infos: seq<Key>, ms: seq<Movement>, k: nat)
    requires (forall i :: 0 <= i < |infos| ==> infos[i] in ls) && InRange(ms, |infos|) && k <= |ms|
    requires MoveAll(ls, infos, ms).Success?
    ensures MoveAll(ls, infos, ms[..k]).Success?
    ensures MoveAll(MoveAll(ls, infos, ms[..k]).value, infos, ms[k..]) == MoveAll(ls, infos, ms)
  {
    assert ms[..k] + ms[k..] == ms;
    MoveAllSplits(ls, infos, ms[..k], ms[k..]);
  }
}
