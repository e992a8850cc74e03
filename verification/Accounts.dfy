/** The accounts the handlers read and write, and the state of the machine they stand for. */
module Accounts {
  import opened Base
  import opened Books
  import opened LedgerObject
  import opened Machine
  import opened Sessions
  import opened SessionTable
  import opened SlotTable

  /** A ledger account: what it stores and how many bytes it has for it. */
  datatype LedgerAccount = LedgerAccount(data: LedgerData, size: nat)

  ghost predicate AccountOk(a: LedgerAccount) {
    TableOk(a.data) && a.size == LedgerSpace(|a.data.entries|)
  }

  ghost predicate PlacedOk(a: Acct<LedgerAccount>) {
    && AccountOk(a.live)
    && match a.place
       case Home => true
       case Away(_, base) => AccountOk(base)
       case Returning(_, base) => AccountOk(base)
  }

  ghost function AbsAcct(a: Acct<LedgerAccount>): Acct<Book>
    requires PlacedOk(a)
  {
    Acct(BookOf(a.live.data),
         match a.place
         case Home => Home
         case Away(v, base) => Away(v, BookOf(base.data))
         case Returning(v, base) => Returning(v, BookOf(base.data)))
  }

  ghost predicate LedgersWf(ls: map<Key, Acct<LedgerAccount>>) {
    forall k :: k in ls ==> PlacedOk(ls[k])
  }

  ghost function AbsLedgers(ls: map<Key, Acct<LedgerAccount>>): map<Key, Acct<Book>>
    requires LedgersWf(ls)
  {
    map k | k in ls :: AbsAcct(ls[k])
  }

  ghost predicate StoreWf(a: SessionAccount<SessionData>) {
    EntriesOk(a.store.entries) && a.size == Space(|a.store.entries|)
  }

  ghost function AbsStore(a: SessionAccount<SessionData>): SessionAccount<Store> {
    SessionAccount(StoreOf(a.store), a.size, a.lamports)
  }

  ghost predicate SessionsWf(ss: map<Key, SessionAccount<SessionData>>) {
    forall k :: k in ss ==> StoreWf(ss[k])
  }

  ghost function AbsSessions(ss: map<Key, SessionAccount<SessionData>>): map<Key, SessionAccount<Store>> {
    map k | k in ss :: AbsStore(ss[k])
  }

  lemma AbsLedgersUpdate(ls: map<Key, Acct<LedgerAccount>>, k: Key, a: Acct<LedgerAccount>)
    requires LedgersWf(ls) && PlacedOk(a)
    ensures LedgersWf(ls[k := a]) && AbsLedgers(ls[k := a]) == AbsLedgers(ls)[k := AbsAcct(a)]
  {
  }

  lemma AbsLedgersRemove(ls: map<Key, Acct<LedgerAccount>>, k: Key)
    requires LedgersWf(ls)
    ensures LedgersWf(ls - {k}) && AbsLedgers(ls - {k}) == AbsLedgers(ls) - {k}
  {
  }

  lemma AbsSessionsUpdate(ss: map<Key, SessionAccount<SessionData>>, k: Key, a: SessionAccount<SessionData>)
    requires SessionsWf(ss) && StoreWf(a)
    ensures SessionsWf(ss[k := a]) && AbsSessions(ss[k := a]) == AbsSessions(ss)[k := AbsStore(a)]
  {
  }

  lemma AbsSessionsRemove(ss: map<Key, SessionAccount<SessionData>>, k: Key)
    requires SessionsWf(ss)
    ensures SessionsWf(ss - {k}) && AbsSessions(ss - {k}) == AbsSessions(ss) - {k}
  {
  }
}
