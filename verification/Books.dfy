/** The ledger as its users mean it: who owns it and a map from mints to amounts, bounded by a
    capacity. The slot table refines this reading, error for error. */
module Books {
  import opened Base
  import opened SlotTable
  import opened LedgerObject

  datatype Book = Book(
    owner: Key, pdaAuth: bool, rentPayer: Key, authorized: Key,
    capacity: nat, claims: map<Key, u64>)

  ghost predicate BookOk(b: Book) {
    && ZERO_KEY in b.claims
    && |b.claims| <= b.capacity
  }

  function Balance(b: Book, m: Key): u64 {
    if m in b.claims then b.claims[m] else 0
  }

  function Debit(b: Book, m: Key, amount: u64): Result<Book> {
    if m !in b.claims then Failure(NoBalance)
    else if b.claims[m] < amount then Failure(Insufficient)
    else Success(b.(claims := ClaimsAfterDebit(b.claims, m, amount)))
  }

  function Claim(b: Book, m: Key): Result<Book> {
    if m in b.claims then Success(b)
    else if |b.claims| < b.capacity then Success(b.(claims := b.claims[m := 0]))
    else Failure(LedgerFull)
  }

  function Credit(b: Book, m: Key, amount: u64): Result<Book> {
    var c :- Claim(b, m);
    if c.claims[m] + amount > MAX_U64 then Failure(Overflow)
    else Success(c.(claims := c.claims[m := c.claims[m] + amount]))
  }

  /** How many more mints a ledger has room for. */
  function Room(b: Book): int {
    b.capacity - |b.claims|
  }

  lemma DebitEffect(b: Book, m: Key, amount: u64)
    requires BookOk(b) && Debit(b, m, amount).Success?
    ensures var b' := Debit(b, m, amount).value;
            BookOk(b') && b' == b.(claims := b'.claims)
            && Balance(b', m) == Balance(b, m) - amount
            && (forall k :: k != m ==> Balance(b', k) == Balance(b, k) && (k in b'.claims <==> k in b.claims))
  {
    var b' := Debit(b, m, amount).value;
    assert b'.claims.Keys <= b.claims.Keys;
    SubsetSize(b'.claims.Keys, b.claims.Keys);
  }

  lemma SubsetSize<T>(a: set<T>, b: set<T>)
    requires a <= b
    ensures |a| <= |b|
  {
    assert b == a + (b - a);
  }

  lemma ClaimEffect(b: Book, m: Key)
    requires BookOk(b) && Claim(b, m).Success?
    ensures var b' := Claim(b, m).value;
            BookOk(b') && b' == b.(claims := b'.claims) && m in b'.claims
            && (forall k :: Balance(b', k) == Balance(b, k))
            && (forall k :: k != m ==> (k in b'.claims <==> k in b.claims))
  {
  }

  lemma CreditEffect(b: Book, m: Key, amount: u64)
    requires BookOk(b) && Credit(b, m, amount).Success?
    ensures var b' := Credit(b, m, amount).value;
            BookOk(b') && b' == b.(claims := b'.claims) && m in b'.claims
            && Balance(b', m) == Balance(b, m) + amount
            && (forall k :: k != m ==> Balance(b', k) == Balance(b, k) && (k in b'.claims <==> k in b.claims))
  {
    ClaimEffect(b, m);
    assert Credit(b, m, amount).value.claims.Keys == Claim(b, m).value.claims.Keys;
  }

  // ---- The slot table refines the book ----

  ghost predicate TableOk(d: LedgerData) {
    WellFormed(d.entries)
  }

  ghost function BookOf(d: LedgerData): (b: Book)
    requires TableOk(d)
    ensures BookOk(b)
  {
    AbsentIffNotClaimed(d.entries, ZERO_KEY);
    FreePlusClaimed(d.entries);
    Book(d.owner, d.pdaAuth, d.rentPayer, d.authorized, |d.entries|, Claims(d.entries))
  }

  /** Lookup, debit and release on the table are `Debit` on the book, with the same errors. */
  lemma DebitIsRefined(d: LedgerData, m: Key, amount: u64)
    requires TableOk(d)
    ensures match IndexOf(d.entries, m)
            case None => Debit(BookOf(d), m, amount) == Failure(NoBalance)
            case Some(i) =>
              i < |d.entries| &&
              match DebitAt(d.entries, i, amount)
              case Failure(e) => Debit(BookOf(d), m, amount) == Failure(e)
              case Success(es) =>
                TableOk(d.(entries := es)) && Debit(BookOf(d), m, amount) == Success(BookOf(d.(entries := es)))
  {
    AbsentIffNotClaimed(d.entries, m);
    if m in Claims(d.entries) {
      DebitRefines(d.entries, m, amount);
    }
  }

  lemma ClaimIsRefined(d: LedgerData, m: Key)
    requires TableOk(d)
    ensures match IndexOrClaim(d.entries, m)
            case Failure(e) => Claim(BookOf(d), m) == Failure(e)
            case Success((i, es)) =>
              i < |es| && TableOk(d.(entries := es)) && IndexOf(es, m) == Some(i)
              && Claim(BookOf(d), m) == Success(BookOf(d.(entries := es)))
  {
    AbsentIffNotClaimed(d.entries, m);
    ClaimRefines(d.entries, m);
  }

  lemma ClaimThenCredit(b: Book, m: Key, amount: u64)
    requires Claim(b, m).Success?
    ensures Credit(b, m, amount) == Credit(Claim(b, m).value, m, amount)
  {
  }

  /** Claiming a slot if need be and then crediting it is `Credit` on the book. */
  lemma CreditIsRefined(d: LedgerData, m: Key, amount: u64)
    requires TableOk(d)
    ensures match IndexOrClaim(d.entries, m)
            case Failure(e) => Credit(BookOf(d), m, amount) == Failure(e)
            case Success((i, es)) =>
              i < |es| &&
              match CreditAt(es, i, amount)
              case Failure(e) => Credit(BookOf(d), m, amount) == Failure(e)
              case Success(es') =>
                TableOk(d.(entries := es')) && Credit(BookOf(d), m, amount) == Success(BookOf(d.(entries := es')))
  {
    ClaimIsRefined(d, m);
    if IndexOrClaim(d.entries, m).Success? {
      var es := IndexOrClaim(d.entries, m).value.1;
      AddIsRefined(d.(entries := es), m, amount);
      ClaimThenCredit(BookOf(d), m, amount);
    }
  }

  /** Crediting a mint that has its slot. */
  lemma AddIsRefined(d: LedgerData, m: Key, amount: u64)
    requires TableOk(d) && IndexOf(d.entries, m).Some?
    ensures m in BookOf(d).claims && Claim(BookOf(d), m) == Success(BookOf(d))
    ensures var i := IndexOf(d.entries, m).value;
            i < |d.entries| &&
            match CreditAt(d.entries, i, amount)
            case Failure(e) => Credit(BookOf(d), m, amount) == Failure(e)
            case Success(es) =>
              TableOk(d.(entries := es)) && Credit(BookOf(d), m, amount) == Success(BookOf(d.(entries := es)))
  {
    AbsentIffNotClaimed(d.entries, m);
    CreditRefines(d.entries, m, amount);
    CreditPresent(BookOf(d), m, amount);
    var r := CreditAt(d.entries, IndexOf(d.entries, m).value, amount);
    if r.Success? {
      RestatedClaims(d, r.value);
    }
  }

  /** Same ledger, other slots: only the claims of its book differ. */
  lemma RestatedClaims(d: LedgerData, es: seq<Entry>)
    requires TableOk(d) && WellFormed(es) && |es| == |d.entries|
    ensures TableOk(d.(entries := es)) && BookOf(d.(entries := es)) == BookOf(d).(claims := Claims(es))
  {
  }

  lemma CreditPresent(b: Book, m: Key, amount: u64)
    requires m in b.claims
    ensures Claim(b, m) == Success(b)
    ensures Credit(b, m, amount) ==
              if b.claims[m] + amount > MAX_U64 then Failure(Overflow)
              else Success(b.(claims := b.claims[m := b.claims[m] + amount]))
  {
  }

  lemma GrowthIsRefined(d: LedgerData, extra: nat)
    requires TableOk(d)
    ensures TableOk(d.(entries := d.entries + FreshTable(extra)))
    ensures BookOf(d.(entries := d.entries + FreshTable(extra)))
              == BookOf(d).(capacity := BookOf(d).capacity + extra)
    ensures FreeSlots(d.entries) == Room(BookOf(d))
  {
    GrowthRefines(d.entries, extra);
    FreePlusClaimed(d.entries);
  }

  lemma FreshIsRefined(owner: Key, pdaAuth: bool, bump: byte, rentPayer: Key, authorized: Key, slots: nat)
    requires slots > 0
    ensures var d := LedgerData(owner, pdaAuth, bump, rentPayer, authorized, FreshTable(slots));
            TableOk(d) && BookOf(d) == Book(owner, pdaAuth, rentPayer, authorized, slots, map[ZERO_KEY := 0])
  {
    FreshTableIsEmpty(slots);
  }
}
