/** What all the ledgers together claim, and how one movement and a whole receipt change it. */
module Totals {
  import opened Base
  import opened Books
  import opened Machine
  import opened Receipts
  import opened Sums

  /** The claims on one mint over a set of ledgers, read off their live copies. */
  ghost function Column(ls: map<Key, Acct<Book>>, m: Key): map<Key, nat> {
    map a | a in ls :: Balance(ls[a].live, m) as nat
  }

  ghost function Total(ls: map<Key, Acct<Book>>, m: Key): nat {
    Sum(Column(ls, m))
  }

  lemma ColumnUpdate(ls: map<Key, Acct<Book>>, k: Key, a: Acct<Book>, m: Key)
    ensures Column(ls[k := a], m) == Column(ls, m)[k := Balance(a.live, m) as nat]
  {
  }

  lemma TotalUpdate(ls: map<Key, Acct<Book>>, k: Key, a: Acct<Book>, m: Key)
    ensures Total(ls[k := a], m) == Total(ls, m) - (if k in ls then Balance(ls[k].live, m) else 0) + Balance(a.live, m)
  {
    ColumnUpdate(ls, k, a, m);
    SumUpdate(Column(ls, m), k, Balance(a.live, m));
  }

  lemma TotalRemove(ls: map<Key, Acct<Book>>, k: Key, m: Key)
    requires k in ls
    ensures Total(ls, m) == Balance(ls[k].live, m) + Total(ls - {k}, m)
  {
    assert Column(ls - {k}, m) == Column(ls, m) - {k};
    SumRemove(Column(ls, m), k);
  }

  lemma BalanceAtMostTotal(ls: map<Key, Acct<Book>>, k: Key, m: Key)
    requires k in ls
    ensures Balance(ls[k].live, m) <= Total(ls, m)
  {
    TotalRemove(ls, k, m);
  }

  ghost predicate BooksOk(ls: map<Key, Acct<Book>>) {
    forall a :: a in ls ==> BookOk(ls[a].live)
  }

  /** Nothing but claims differs: owners, capacities, programs and places are as they were. */
  ghost predicate OnlyClaims(ls: map<Key, Acct<Book>>, ls': map<Key, Acct<Book>>) {
    && ls'.Keys == ls.Keys
    && forall a :: a in ls ==> ls'[a] == ls[a].(live := ls[a].live.(claims := ls'[a].live.claims))
  }

  /** What one movement does to the balance of ledger `a` in mint `m`. */
  function Shift(src: Key, dst: Key, mint: Key, amount: u64, a: Key, m: Key): int {
    if m != mint then 0
    else (if a == dst then amount else 0) - (if a == src then amount else 0)
  }

  lemma OneBookChanges(ls: map<Key, Acct<Book>>, k: Key, b: Book, ls': map<Key, Acct<Book>>)
    requires BooksOk(ls) && k in ls && BookOk(b) && b == ls[k].live.(claims := b.claims)
    requires ls' == ls[k := ls[k].(live := b)]
    ensures BooksOk(ls') && OnlyClaims(ls, ls')
  {
  }

  lemma MoveShape(ls: map<Key, Acct<Book>>, src: Key, dst: Key, mint: Key, amount: u64)
    requires BooksOk(ls) && src in ls && dst in ls && Move(ls, src, dst, mint, amount).Success?
    ensures var ls' := Move(ls, src, dst, mint, amount).value;
            BooksOk(ls') && OnlyClaims(ls, ls')
            && (forall a :: a in ls && a != src && a != dst ==> ls'[a] == ls[a])
  {
    var a := Debit(ls[src].live, mint, amount).value;
    DebitEffect(ls[src].live, mint, amount);
    var mid := ls[src := ls[src].(live := a)];
    OneBookChanges(ls, src, a, mid);
    CreditEffect(mid[dst].live, mint, amount);
    OneBookChanges(mid, dst, Credit(mid[dst].live, mint, amount).value, Move(ls, src, dst, mint, amount).value);
  }

  /** A movement takes `amount` from one ledger, gives it to another, and does nothing else. */
  lemma MoveEffect(ls: map<Key, Acct<Book>>, src: Key, dst: Key, mint: Key, amount: u64, a: Key, m: Key)
    requires BooksOk(ls) && src in ls && dst in ls && Move(ls, src, dst, mint, amount).Success?
    requires a in ls
    ensures var ls' := Move(ls, src, dst, mint, amount).value;
            a in ls' && Balance(ls'[a].live, m) == Balance(ls[a].live, m) + Shift(src, dst, mint, amount, a, m)
  {
    DebitEffect(ls[src].live, mint, amount);
    var mid := ls[src := ls[src].(live := Debit(ls[src].live, mint, amount).value)];
    assert Balance(mid[a].live, m) == Balance(ls[a].live, m) - (if a == src && m == mint then amount else 0);
    CreditEffect(mid[dst].live, mint, amount);
  }

  lemma MoveKeepsTotals(ls: map<Key, Acct<Book>>, src: Key, dst: Key, mint: Key, amount: u64, m: Key)
    requires BooksOk(ls) && src in ls && dst in ls && Move(ls, src, dst, mint, amount).Success?
    ensures Total(Move(ls, src, dst, mint, amount).value, m) == Total(ls, m)
  {
    var a := Debit(ls[src].live, mint, amount).value;
    DebitEffect(ls[src].live, mint, amount);
    var mid := ls[src := ls[src].(live := a)];
    TotalUpdate(ls, src, ls[src].(live := a), m);
    var b := Credit(mid[dst].live, mint, amount).value;
    CreditEffect(mid[dst].live, mint, amount);
    TotalUpdate(mid, dst, mid[dst].(live := b), m);
  }

  /** The net change a receipt's movements make to ledger `a`: its inflow less its outflow. */
  function Net(infos: seq<Key>, movements: seq<Movement>, a: Key, m: Key): int
    requires InRange(movements, |infos|)
  {
    if movements == [] then 0
    else
      var v := movements[0];
      Shift(infos[v.src], infos[v.dst], v.mint, v.amount, a, m) + Net(infos, movements[1..], a, m)
  }

  /** A receipt changes every balance by exactly its net flow and keeps every total. */
  lemma {:induction false} MoveAllEffect(ls: map<Key, Acct<Book>>, infos: seq<Key>, movements: seq<Movement>)
    requires BooksOk(ls) && InRange(movements, |infos|)
    requires forall i :: 0 <= i < |infos| ==> infos[i] in ls
    requires MoveAll(ls, infos, movements).Success?
    ensures var ls' := MoveAll(ls, infos, movements).value;
            BooksOk(ls') && OnlyClaims(ls, ls')
    ensures var ls' := MoveAll(ls, infos, movements).value;
            forall a, m :: a in ls ==> Balance(ls'[a].live, m) == Balance(ls[a].live, m) + Net(infos, movements, a, m)
    ensures forall m :: Total(MoveAll(ls, infos, movements).value, m) == Total(ls, m)
    ensures var ls' := MoveAll(ls, infos, movements).value;
            forall a :: a in ls && a !in infos ==> ls'[a] == ls[a]
    decreases |movements|
  {
    if movements != [] {
      var v := movements[0];
      var mid := Move(ls, infos[v.src], infos[v.dst], v.mint, v.amount).value;
      MoveShape(ls, infos[v.src], infos[v.dst], v.mint, v.amount);
      forall a, m | a in ls
        ensures Balance(mid[a].live, m)
                  == Balance(ls[a].live, m) + Shift(infos[v.src], infos[v.dst], v.mint, v.amount, a, m)
      {
        MoveEffect(ls, infos[v.src], infos[v.dst], v.mint, v.amount, a, m);
      }
      forall m
        ensures Total(mid, m) == Total(ls, m)
      {
        MoveKeepsTotals(ls, infos[v.src], infos[v.dst], v.mint, v.amount, m);
      }
      MoveAllEffect(mid, infos, movements[1..]);
    }
  }
}
