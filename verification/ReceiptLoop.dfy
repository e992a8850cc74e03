/** The middle of `settle_receipt`: the loaded ledgers, searched and then moved between in place. */
module ReceiptLoop {
  import opened Base
  import opened Books
  import opened LedgerObject
  import opened Machine
  import opened Receipts
  import opened SlotTable

  /** The loaded objects hold the ledgers `infos` names, as `cur` has them. */
  ghost predicate Holds(ls: seq<Ledger>, infos: seq<Key>, cur: map<Key, Acct<Book>>)
    reads ls
  {
    && |ls| == |infos|
    && forall i :: 0 <= i < |ls| ==>
         infos[i] in cur && TableOk(ls[i].Data()) && BookOf(ls[i].Data()) == cur[infos[i]].live
  }

  /** No two of the objects, and no two of the addresses, are the same. */
  ghost predicate Apart(ls: seq<Ledger>, infos: seq<Key>) {
    && (forall i, j :: 0 <= i < j < |ls| ==> ls[i] != ls[j])
    && Distinct(infos)
  }

  /** The same of the ledgers as read. */
  ghost predicate Match(ds: seq<LedgerData>, infos: seq<Key>, cur: map<Key, Acct<Book>>) {
    && |ds| == |infos|
    && forall i :: 0 <= i < |ds| ==> infos[i] in cur && TableOk(ds[i]) && BookOf(ds[i]) == cur[infos[i]].live
  }

  /** The ledgers read, as objects to move value between. */
  method LoadAll(ds: seq<LedgerData>, ghost infos: seq<Key>, ghost cur: map<Key, Acct<Book>>) returns (ls: seq<Ledger>)
    requires Match(ds, infos, cur) && Distinct(infos)
    ensures fresh(ls) && Holds(ls, infos, cur) && Apart(ls, infos)
  {
    ls := [];
    for n := 0 to |ds|
      invariant |ls| == n && fresh(ls)
      invariant forall i :: 0 <= i < n ==> ls[i].Data() == ds[i]
      invariant forall i, j :: 0 <= i < j < n ==> ls[i] != ls[j]
    {
      var l := new Ledger.Load(ds[n]);
      ls := ls + [l];
    }
  }

  /** Looks the mint up and debits it. */
  method DebitMint(l: Ledger, mint: Key, amount: u64) returns (r: Result<()>)
    requires TableOk(l.Data())
    modifies l`entries
    ensures match Books.Debit(old(BookOf(l.Data())), mint, amount)
            case Failure(e) => r == Failure(e)
            case Success(b) =>
              && r == Success(()) && TableOk(l.Data()) && BookOf(l.Data()) == b
              && |l.entries| == |old(l.entries)|
    ensures TableOk(l.Data())
  {
    DebitIsRefined(l.Data(), mint, amount);
    var i := l.IndexOf(mint);
    if i.None? {
      return Failure(NoBalance);
    }
    r := l.Debit(i.value, amount);
  }

  /** Looks the mint up, claiming a slot for it if allowed, and credits it. */
  method CreditMint(l: Ledger, mint: Key, amount: u64, mayClaim: bool) returns (r: Result<()>)
    requires TableOk(l.Data()) && mayClaim
    modifies l`entries
    ensures match Books.Credit(old(BookOf(l.Data())), mint, amount)
            case Failure(e) => r == Failure(e)
            case Success(b) =>
              && r == Success(()) && TableOk(l.Data()) && BookOf(l.Data()) == b
              && |l.entries| == |old(l.entries)|
    ensures TableOk(l.Data())
  {
    CreditIsRefined(l.Data(), mint, amount);
    ClaimIsRefined(l.Data(), mint);
    var j :- l.IndexForCredit(mint, mayClaim);
    r := l.Credit(j, amount);
  }

  /** Debit, then claim and credit; `src` and `dst` may be one object. */
  method MoveBetween(src: Ledger, dst: Ledger, mint: Key, amount: u64) returns (r: Result<()>)
    requires TableOk(src.Data()) && TableOk(dst.Data())
    modifies src`entries, dst`entries
    ensures TableOk(src.Data()) && TableOk(dst.Data())
    ensures var a := Books.Debit(old(BookOf(src.Data())), mint, amount);
            match a
            case Failure(e) => r == Failure(e)
            case Success(a) =>
              var b := Books.Credit(if src == dst then a else old(BookOf(dst.Data())), mint, amount);
              match b
              case Failure(e) => r == Failure(e)
              case Success(b) =>
                r == Success(()) && BookOf(dst.Data()) == b && (src != dst ==> BookOf(src.Data()) == a)
  {
    r := DebitMint(src, mint, amount);
    if r.Success? {
      r := CreditMint(dst, mint, amount, true);
    }
  }

  /** One movement of the loop is `Move` on the ledgers it stands for. */
  method MoveOnce(ls: seq<Ledger>, ghost infos: seq<Key>, m: Movement, ghost cur: map<Key, Acct<Book>>)
    returns (r: Result<()>, ghost next: map<Key, Acct<Book>>)
    requires Holds(ls, infos, cur) && Apart(ls, infos) && m.src < |ls| && m.dst < |ls|
    modifies ls
    ensures match Move(cur, infos[m.src], infos[m.dst], m.mint, m.amount)
            case Failure(e) => r == Failure(e)
            case Success(after) => r == Success(()) && next == after && Holds(ls, infos, next)
  {
    next := cur;
    ghost var src, dst := infos[m.src], infos[m.dst];
    assert m.src != m.dst <==> src != dst;
    assert m.src != m.dst <==> ls[m.src] != ls[m.dst];
    r := MoveBetween(ls[m.src], ls[m.dst], m.mint, m.amount);
    if r.Success? {
      next := Move(cur, src, dst, m.mint, m.amount).value;
      MovedBooks(cur, src, dst, m.mint, m.amount);
      forall i | 0 <= i < |ls|
        ensures infos[i] in next && TableOk(ls[i].Data()) && BookOf(ls[i].Data()) == next[infos[i]].live
      {
        if i != m.src && i != m.dst {
          assert ls[i].Data() == old(ls[i].Data());
        }
      }
    }
  }

  lemma MovedBooks(cur: map<Key, Acct<Book>>, src: Key, dst: Key, mint: Key, amount: u64)
    requires src in cur && dst in cur && Move(cur, src, dst, mint, amount).Success?
    ensures var next := Move(cur, src, dst, mint, amount).value; var a
              := Books.Debit(cur[src].live, mint, amount).value;
            && next.Keys == cur.Keys
            && (forall k :: k in cur && k != src && k != dst ==> next[k] == cur[k])
            && (src != dst ==> next[src].live == a)
            && Books.Credit(if src == dst then a else cur[dst].live, mint, amount) == Success(next[dst].live)
  {
  }

  lemma MoveAllHead(cur: map<Key, Acct<Book>>, infos: seq<Key>, movements: seq<Movement>, n: nat)
    requires (forall i :: 0 <= i < |infos| ==> infos[i] in cur) && InRange(movements, |infos|) && n < |movements|
    ensures var m := movements[n];
            MoveAll(cur, infos, movements[n..]) ==
              match Move(cur, infos[m.src], infos[m.dst], m.mint, m.amount)
              case Failure(e) => Failure(e)
              case Success(mid) => MoveAll(mid, infos, movements[n + 1..])
  {
    assert movements[n..][1..] == movements[n + 1..];
  }

  /** The loop itself: whatever it meets, it ends as the movements one after another would. */
  method RunMovements(ls: seq<Ledger>, ghost infos: seq<Key>, movements: seq<Movement>, ghost start: map<Key,
      Acct<Book>>)
    returns (r: Result<()>, ghost end: map<Key, Acct<Book>>)
    requires Holds(ls, infos, start) && Apart(ls, infos) && InRange(movements, |infos|)
    modifies ls
    ensures match MoveAll(start, infos, movements)
            case Failure(e) => r == Failure(e)
            case Success(after) => r == Success(()) && end == after && Holds(ls, infos, end)
  {
    end := start;
    assert movements[0..] == movements;
    for n := 0 to |movements|
      invariant Holds(ls, infos, end)
      invariant MoveAll(end, infos, movements[n..]) == MoveAll(start, infos, movements)
    {
      MoveAllHead(end, infos, movements, n);
      r, end := MoveOnce(ls, infos, movements[n], end);
      if r.Failure? {
        return;
      }
    }
    return Success(()), end;
  }

  method CountPeople(ls: seq<Ledger>, ghost infos: seq<Key>, ghost cur: map<Key, Acct<Book>>) returns (n: nat)
    requires Holds(ls, infos, cur)
    ensures n == CountHumans(cur, infos)
  {
    n := 0;
    var i: nat := |ls|;
    assert infos[|ls|..] == [];
    while i > 0
      invariant i <= |ls|
      invariant forall j :: 0 <= j < |infos| - i ==> infos[i..][j] in cur
      invariant n == CountHumans(cur, infos[i..])
    {
      i := i - 1;
      assert infos[i..][1..] == infos[i + 1..];
      if !ls[i].pdaAuth {
        n := n + 1;
      }
    }
    assert infos[0..] == infos;
  }

  method FindPerson(ls: seq<Ledger>, ghost infos: seq<Key>, ghost cur: map<Key, Acct<Book>>) returns (r: Option<nat>)
    requires Holds(ls, infos, cur)
    ensures r == HumanIndex(cur, infos, 0)
  {
    var i := 0;
    while i < |ls| && ls[i].pdaAuth
      invariant i <= |ls|
      invariant HumanIndex(cur, infos, 0) == HumanIndex(cur, infos, i)
    {
      i := i + 1;
    }
    return if i < |ls| then Some(i) else None;
  }

  /** Whether the receipt debits ledger `h` or brings it a mint it has no slot for. */
  method NeedsConsent(movements: seq<Movement>, h: nat, l: Ledger, ghost r: Receipt) returns (needs: bool)
    requires TableOk(l.Data()) && r.movements == movements
    ensures needs <==> Debits(r, h) || OpensSlot(r, h, BookOf(l.Data()))
  {
    for n := 0 to |movements|
      invariant forall i :: 0 <= i < n ==> movements[i].src != h
    {
      if movements[n].src == h {
        return true;
      }
    }
    ghost var claims := Claims(l.entries);
    for n := 0 to |movements|
      invariant forall i :: 0 <= i < n ==> !(movements[i].dst == h && movements[i].mint !in claims)
    {
      if movements[n].dst == h {
        AbsentIffNotClaimed(l.entries, movements[n].mint);
        var found := l.IndexOf(movements[n].mint);
        if found.None? {
          return true;
        }
      }
    }
    return false;
  }
}
