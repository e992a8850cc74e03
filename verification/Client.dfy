/** The client's own decoders, written independently of the program's and checking no discriminator,
    and the proof that on every account the program accepts they tell the same story. */
module ClientDecoders {
  import opened Base
  import opened Bytes
  import opened LedgerObject
  import L = LedgerCodec
  import S = SessionCodec
  import opened Sessions
  import opened SessionTable
  import opened SlotTable

  /** The largest index of the client's arrays, and of its `Int`. */
  const MAX_INT: nat := 0x7FFF_FFFF

  /** A `Int` read from four bytes is signed. */
  function Int32(b: seq<byte>): int
    requires |b| == 4
  {
    var n := FromLe(b);
    if n >= 0x8000_0000 then n - 0x1_0000_0000 else n
  }

  function NonZero(k: Key): Option<Key> {
    if k == ZERO_KEY then None else Some(k)
  }

  // ---- Ledgers ----

  datatype LedgerState = LedgerState(owner: Key, pdaAuth: bool, capacity: int, balances: map<Key, i64>,
      authorized: Option<Key>)
  {
    function Sol(): i64 {
      if ZERO_KEY in balances then balances[ZERO_KEY] else 0
    }
  }

  /** The balances after the first `n` slots: free slots and zero amounts are skipped. */
  function Shown(data: seq<byte>, n: nat): map<Key, i64>
    requires LedgerSpace(n) <= |data|
  {
    if n == 0 then map[]
    else
      var e := L.EntryAt(data, n - 1);
      if (n - 1 != 0 && e.mint == ZERO_KEY) || Signed(e.amount) == 0 then Shown(data, n - 1)
      else Shown(data, n - 1)[e.mint := Signed(e.amount)]
  }

  /** There is another record to read: the count is not reached and its bytes are there. */
  predicate More(count: int, size: nat, header: nat, entry: nat, i: nat) {
    i < count && header + i * entry + entry <= size
  }

  /** Reading on while there is more ends after `n` records. */
  ghost predicate StopsAt(count: int, size: nat, header: nat, entry: nat, n: nat) {
    && header + n * entry <= size
    && forall i: nat :: i <= n ==> (More(count, size, header, entry, i) <==> i < n)
  }

  /** How many records the decoder reads: as many as the count says, or as are there. */
  function Reads(count: int, size: int, header: nat, entry: nat): nat
    requires entry > 0
  {
    if count <= 0 || size < header then 0
    else if (size - header) / entry < count then (size - header) / entry
    else count
  }

  function DecodedLedger(data: seq<byte>): Option<LedgerState> {
    if |data| < LEDGER_HEADER then None
    else
      var capacity := Int32(Field(data, 112, 4));
      Some(LedgerState(
        KeyAt(data, 8), data[40] != 0, capacity, Shown(data, Reads(capacity, |data|, LEDGER_HEADER, ENTRY_SIZE)),
        NonZero(KeyAt(data, 80))))
  }

  method DecodeLedger(data: array<byte>) returns (r: Option<LedgerState>)
    ensures r == DecodedLedger(data[..])
  {
    if data.Length < LEDGER_HEADER {
      return None;
    }
    var at := 8;
    var owner := data[at..at + 32];
    at := at + 32;
    var pdaAuth := data[at] != 0;
    at := at + 1;
    at := at + 1 + 6 + 32;
    var authorized := data[at..at + 32];
    at := at + 32;
    assert data[at..at + 4] == Field(data[..], 112, 4);
    var capacity := Int32(data[at..at + 4]);
    ghost var n := Reads(capacity, data.Length, LEDGER_HEADER, ENTRY_SIZE);
    ReadsStop(capacity, data.Length, LEDGER_HEADER, ENTRY_SIZE);
    var balances := DecodeSlots(data, capacity, n);
    return Some(LedgerState(owner, pdaAuth, capacity, balances, NonZero(authorized)));
  }

  /** The mint and the amount of the slot at index `i`. */
  method ReadSlot(data: array<byte>, i: nat) returns (mint: Key, amount: i64)
    requires LedgerSpace(i + 1) <= data.Length
    ensures L.EntryAt(data[..], i).mint == mint && Signed(L.EntryAt(data[..], i).amount) == amount
  {
    var off := LEDGER_HEADER + i * ENTRY_SIZE;
    mint := data[off..off + 32];
    assert mint == KeyAt(data[..], off);
    assert data[off + 32..off + 40] == Field(data[..], off + 32, 8);
    amount := Signed(U64(data[off + 32..off + 40]));
  }

  /** The loop over the slots, until the count or the bytes run out. */
  method DecodeSlots(data: array<byte>, capacity: int, ghost n: nat) returns (balances: map<Key, i64>)
    requires StopsAt(capacity, data.Length, LEDGER_HEADER, ENTRY_SIZE, n)
    ensures balances == Shown(data[..], n)
  {
    ghost var bytes := data[..];
    balances := map[];
    var i: nat := 0;
    while More(capacity, data.Length, LEDGER_HEADER, ENTRY_SIZE, i)
      invariant i <= n && balances == Shown(bytes, i)
      decreases n - i
    {
      var mint, amount := ReadSlot(data, i);
      var isFreeSlot := i != 0 && mint == ZERO_KEY;
      if !(isFreeSlot || amount == 0) {
        balances := balances[mint := amount];
      }
      i := i + 1;
    }
  }

  lemma DivisionKeepsOrder(a: nat, n: nat, w: nat)
    requires w > 0 && n * w <= a
    ensures a / w >= n
  {
    var q := a / w;
    assert a == q * w + a % w;
    assert a < (q + 1) * w;
    assert n * w < (q + 1) * w;
  }

  lemma ReadsAll(count: nat, size: nat, header: nat, entry: nat)
    requires entry > 0 && header + count * entry <= size
    ensures Reads(count, size, header, entry) == count
  {
    DivisionKeepsOrder(size - header, count, entry);
  }

  lemma TimesKeepsOrder(m: nat, n: nat, w: nat)
    requires m <= n
    ensures m * w <= n * w
  {
  }

  /** What is read fits. */
  lemma ReadsFit(count: int, size: nat, header: nat, entry: nat)
    requires entry > 0 && header <= size
    ensures header + Reads(count, size, header, entry) * entry <= size
  {
    var n, q := Reads(count, size, header, entry), (size - header) / entry;
    TimesKeepsOrder(n, q, entry);
    assert q * entry + (size - header) % entry == size - header;
  }

  /** Until the count or the bytes run out there is one more record to read, and then there is none. */
  lemma ReadsOn(count: int, size: nat, header: nat, entry: nat, i: nat)
    requires entry > 0 && header <= size && i <= Reads(count, size, header, entry)
    ensures i < Reads(count, size, header, entry) <==> More(count, size, header, entry, i)
  {
    var n := Reads(count, size, header, entry);
    if i < n {
      ReadsFit(count, size, header, entry);
      TimesKeepsOrder(i + 1, n, entry);
      assert (i + 1) * entry == i * entry + entry;
    } else if header + i * entry + entry <= size {
      assert (i + 1) * entry == i * entry + entry;
      DivisionKeepsOrder(size - header, i + 1, entry);
    }
  }

  lemma ReadsStop(count: int, size: nat, header: nat, entry: nat)
    requires entry > 0 && header <= size
    ensures StopsAt(count, size, header, entry, Reads(count, size, header, entry))
  {
    ReadsFit(count, size, header, entry);
    forall i: nat | i <= Reads(count, size, header, entry)
      ensures More(count, size, header, entry, i) <==> i < Reads(count, size, header, entry)
    {
      ReadsOn(count, size, header, entry, i);
    }
  }

  /** What the client should show: every positive claim, as a signed amount. */
  function PositiveClaims(claims: map<Key, u64>): map<Key, i64> {
    map m | m in claims && claims[m] > 0 :: Signed(claims[m])
  }

  lemma PositiveOfAdded(claims: map<Key, u64>, m: Key, amount: u64)
    requires m !in claims
    ensures PositiveClaims(claims[m := amount]) ==
              if amount > 0 then PositiveClaims(claims)[m := Signed(amount)] else PositiveClaims(claims)
  {
  }

  lemma {:induction false} ShownIsClaimed(data: seq<byte>, es: seq<Entry>, n: nat)
    requires WellFormed(es) && n <= |es| && LedgerSpace(|es|) <= |data| && es == L.EntriesOf(data, |es|)
    ensures Shown(data, n) == PositiveClaims(ClaimsUpTo(es, n))
  {
    if n > 0 {
      ShownIsClaimed(data, es, n - 1);
      var e := es[n - 1];
      assert L.EntryAt(data, n - 1) == e;
      if Claimed(es, n - 1) {
        if e.mint in ClaimsUpTo(es, n - 1) {
          InIsClaimed(es, n - 1, e.mint);
        }
        PositiveOfAdded(ClaimsUpTo(es, n - 1), e.mint, e.amount);
      }
    }
  }

  /** On every account the program reads as a well-formed ledger, the client shows the ledger's owner,
      kind, capacity and program, and exactly its positive balances. */
  lemma LedgersAgree(data: seq<byte>, d: LedgerData)
    requires L.ReadLedger(data) == Success(d) && WellFormed(d.entries) && |data| + ENTRY_SIZE <= MAX_INT
    ensures DecodedLedger(data)
              == Some(LedgerState(d.owner, d.pdaAuth, |d.entries|, PositiveClaims(Claims(d.entries)),
                  NonZero(d.authorized)))
  {
    ReadsAll(|d.entries|, |data|, LEDGER_HEADER, ENTRY_SIZE);
    ShownIsClaimed(data, d.entries, |d.entries|);
  }

  /** An amount is shown as it is if and only if it is below two to the 63rd; above, as a negative. */
  lemma ShownTrulyIff(d: LedgerData, m: Key)
    requires WellFormed(d.entries) && m in Claims(d.entries) && Claims(d.entries)[m] > 0
    ensures var shown := PositiveClaims(Claims(d.entries));
            && m in shown && (shown[m] == Claims(d.entries)[m] <==> Claims(d.entries)[m] < 0x8000_0000_0000_0000)
            && (shown[m] > 0 <==> shown[m] == Claims(d.entries)[m])
  {
  }

  // ---- Session stores ----

  datatype SessionEntry = SessionEntry(program: Key, temporary: Option<Key>, expiresAt: i64, ring: seq<Key>)
  {
    predicate Allows(key: Key, now: i64) {
      (temporary == Some(key) && now < expiresAt) || key in ring
    }
  }

  datatype SessionState = SessionState(owner: Key, entries: seq<SessionEntry>)
  {
    predicate Allows(key: Key, program: Key, now: i64) {
      var i := FirstFor(entries, program, 0);
      i.Some? && entries[i.value].Allows(key, now)
    }
  }

  function FirstFor(es: seq<SessionEntry>, program: Key, from: nat): (r: Option<nat>)
    requires from <= |es|
    ensures r.Some? ==> from <= r.value < |es|
    decreases |es| - from
  {
    if from == |es| then None
    else if es[from].program == program then Some(from)
    else FirstFor(es, program, from + 1)
  }

  /** An entry as the client keeps it: empty slots dropped. */
  function Kotlin(e: ProgramEntry): SessionEntry {
    SessionEntry(e.program, NonZero(e.temporary), e.expiresAt, Queue(e.ring))
  }

  function DecodedEntries(data: seq<byte>, n: nat): (r: seq<SessionEntry>)
    requires Space(n) <= |data|
    ensures |r| == n && forall i :: 0 <= i < n ==> r[i] == Kotlin(S.EntryAt(data, i))
  {
    seq(n, i requires 0 <= i < n => Kotlin(S.EntryAt(data, i)))
  }

  function DecodedSession(data: seq<byte>): Option<SessionState> {
    if |data| < SESSION_HEADER then None
    else
      var count := Int32(Field(data, 44, 4));
      Some(SessionState(KeyAt(data, 8), DecodedEntries(data, Reads(count, |data|, SESSION_HEADER, PROGRAM_ENTRY))))
  }

  /** The five ring keys, without the zero ones. */
  method DecodeRing(data: array<byte>, at: nat) returns (ring: seq<Key>)
    requires at + 160 <= data.Length
    ensures ring == Queue(S.RingOf(data[..], at))
  {
    ghost var all := S.RingOf(data[..], at);
    ring := [];
    for k := 0 to RING
      invariant ring == Queue(all[..k])
    {
      var o := at + k * 32;
      assert data[o..o + 32] == all[k];
      assert all[..k + 1][..k] == all[..k];
      if data[o..o + 32] != ZERO_KEY {
        ring := ring + [data[o..o + 32]];
      }
    }
    assert all[..RING] == all;
  }

  method DecodeSession(data: array<byte>) returns (r: Option<SessionState>)
    ensures r == DecodedSession(data[..])
  {
    if data.Length < SESSION_HEADER {
      return None;
    }
    var at := 8;
    var owner := data[at..at + 32];
    at := at + 32 + 4;
    assert data[at..at + 4] == Field(data[..], 44, 4);
    var count := Int32(data[at..at + 4]);
    ghost var n := Reads(count, data.Length, SESSION_HEADER, PROGRAM_ENTRY);
    ReadsStop(count, data.Length, SESSION_HEADER, PROGRAM_ENTRY);
    var entries: seq<SessionEntry> := [];
    var i: nat := 0;
    while More(count, data.Length, SESSION_HEADER, PROGRAM_ENTRY, i)
      invariant i <= n && |entries| == i
      invariant forall j :: 0 <= j < i ==> entries[j] == Kotlin(S.EntryAt(data[..], j))
      decreases n - i
    {
      var e := DecodeEntry(data, SESSION_HEADER + i * PROGRAM_ENTRY, i);
      entries := entries + [e];
      i := i + 1;
    }
    assert entries == DecodedEntries(data[..], n);
    return Some(SessionState(owner, entries));
  }

  method DecodeEntry(data: array<byte>, off: nat, ghost i: nat) returns (e: SessionEntry)
    requires off == SESSION_HEADER + i * PROGRAM_ENTRY && Space(i + 1) <= data.Length
    ensures e == Kotlin(S.EntryAt(data[..], i))
  {
    var program, temporary := data[off..off + 32], data[off + 32..off + 64];
    assert program == KeyAt(data[..], off) && temporary == KeyAt(data[..], off + 32);
    assert data[off + 64..off + 72] == Field(data[..], off + 64, 8);
    var ring := DecodeRing(data, off + 72);
    e := SessionEntry(program, NonZero(temporary), Signed(U64(data[off + 64..off + 72])), ring);
  }

  lemma {:induction false} KeptMembers(ring: seq<Key>, key: Key)
    ensures key in Queue(ring) <==> key in ring && key != ZERO_KEY
    decreases |ring|
  {
    if ring != [] {
      KeptMembers(ring[..|ring| - 1], key);
      assert ring == ring[..|ring| - 1] + [ring[|ring| - 1]];
    }
  }

  lemma {:induction false} SameFirst(es: seq<ProgramEntry>, ks: seq<SessionEntry>, program: Key, from: nat)
    requires |es| == |ks| && from <= |es| && forall i :: 0 <= i < |es| ==> ks[i] == Kotlin(es[i])
    ensures FirstFor(ks, program, from) == FirstEntry(es, program, from)
    decreases |es| - from
  {
    if from < |es| {
      SameFirst(es, ks, program, from + 1);
    }
  }

  /** On every account the program reads as a session store, the client and the program agree on every
      key, program and time, the zero key included, and whatever the rings hold. */
  lemma SessionsAgree(data: seq<byte>, d: SessionData, key: Key, program: Key, now: i64)
    requires S.ReadSession(data) == Success(d) && |data| + PROGRAM_ENTRY <= MAX_INT
    ensures DecodedSession(data).Some? && DecodedSession(data).value.owner == d.owner
    ensures DecodedSession(data).value.Allows(key, program, now) == StoreAllows(d, key, program, now)
  {
    ReadsAll(|d.entries|, |data|, SESSION_HEADER, PROGRAM_ENTRY);
    var ks := DecodedSession(data).value.entries;
    SameFirst(d.entries, ks, program, 0);
    var i := FirstEntry(d.entries, program, 0);
    if i.Some? {
      KeptMembers(d.entries[i.value].ring, key);
    }
  }
}
