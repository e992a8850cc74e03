/** `Ledger`'s bytes: a 116-byte header, then 40 bytes a slot. */
module LedgerCodec {
  import opened Base
  import opened Bytes
  import opened LedgerObject
  import opened SlotTable

  const LEDGER_DISCRIMINATOR: seq<byte> := [43, 41, 21, 213, 180, 176, 95, 32]

  /** The ledger's keys are 32 bytes long, as every key read from an account is. */
  ghost predicate Sized(d: LedgerData) {
    && |d.owner| == KEY_SIZE && |d.rentPayer| == KEY_SIZE && |d.authorized| == KEY_SIZE
    && SizedEntries(d.entries)
  }

  ghost predicate SizedEntries(es: seq<Entry>) {
    forall i :: 0 <= i < |es| ==> |es[i].mint| == KEY_SIZE
  }

  function EntryBytes(e: Entry): (r: seq<byte>)
    requires |e.mint| == KEY_SIZE
    ensures |r| == ENTRY_SIZE
  {
    e.mint + ToLe(e.amount, 8)
  }

  function EntriesBytes(es: seq<Entry>): seq<seq<byte>>
    requires SizedEntries(es)
  {
    seq(|es|, i requires 0 <= i < |es| => EntryBytes(es[i]))
  }

  function HeaderBytes(d: LedgerData): (r: seq<byte>)
    requires Sized(d)
    ensures |r| == LEDGER_HEADER
  {
    (LEDGER_DISCRIMINATOR + d.owner) + ([if d.pdaAuth then 1 else 0] + [d.bump] + Zeros(6))
    + (d.rentPayer + d.authorized + ToLe(|d.entries|, 4))
  }

  /** What `write_to` writes; the slot count is cast to 32 bits. */
  function LedgerBytes(d: LedgerData): (r: seq<byte>)
    requires Sized(d)
    ensures |r| == LedgerSpace(|d.entries|)
  {
    FlatLength(EntriesBytes(d.entries), ENTRY_SIZE);
    HeaderBytes(d) + Flat(EntriesBytes(d.entries))
  }

  function EntryAt(data: seq<byte>, i: nat): Entry
    requires LedgerSpace(i + 1) <= |data|
  {
    var o := LEDGER_HEADER + i * ENTRY_SIZE;
    Entry(KeyAt(data, o), U64(Field(data, o + 32, 8)))
  }

  function EntriesOf(data: seq<byte>, n: nat): (r: seq<Entry>)
    requires LedgerSpace(n) <= |data|
    ensures |r| == n && forall i :: 0 <= i < n ==> r[i] == EntryAt(data, i)
    ensures SizedEntries(r)
  {
    seq(n, i requires 0 <= i < n => EntryAt(data, i))
  }

  /** `Ledger::read_from`. */
  function ReadLedger(data: seq<byte>): (r: Result<LedgerData>)
    ensures r.Success? ==> Sized(r.value)
  {
    if |data| < LEDGER_HEADER || Field(data, 0, 8) != LEDGER_DISCRIMINATOR then Failure(InvalidAccountData)
    else
      var count := FromLe(Field(data, 112, 4));
      if |data| < LedgerSpace(count) then Failure(InvalidAccountData)
      else
        Success(LedgerData(
          KeyAt(data, 8), data[40] != 0, data[41], KeyAt(data, 48), KeyAt(data, 80), EntriesOf(data, count)))
  }

  // ---- The loops ----

  /** `write_to`, field by field into the account's own bytes. */
  method WriteTo(d: LedgerData, data: array<byte>) returns (r: Result<()>)
    requires Sized(d)
    modifies data
    ensures if data.Length < LedgerSpace(|d.entries|) then r == Failure(AccountDataTooSmall)
              && data[..] == old(data[..])
            else r == Success(()) && data[..] == LedgerBytes(d) + old(data[..])[LedgerSpace(|d.entries|)..]
  {
    if data.Length < LedgerSpace(|d.entries|) {
      return Failure(AccountDataTooSmall);
    }
    var n := |d.entries|;
    ghost var parts := EntriesBytes(d.entries);
    WriteHeader(d, data);
    ghost var written := HeaderBytes(d);
    for i := 0 to n
      invariant written == HeaderBytes(d) + Flat(parts[..i]) && |written| == LedgerSpace(i)
      invariant data[..LedgerSpace(i)] == written
      invariant forall j :: LedgerSpace(n) <= j < data.Length ==> data[j] == old(data[j])
    {
      PutEntry(data, written, LEDGER_HEADER + i * ENTRY_SIZE, d.entries[i]);
      assert parts[..i + 1] == parts[..i] + [EntryBytes(d.entries[i])];
      FlatAppend(parts[..i], EntryBytes(d.entries[i]));
      written := written + EntryBytes(d.entries[i]);
    }
    assert parts[..n] == parts;
    assert data[..] == data[..LedgerSpace(n)] + old(data[..])[LedgerSpace(n)..];
    return Success(());
  }

  method PutEntry(data: array<byte>, ghost written: seq<byte>, at: nat, e: Entry)
    requires at == |written| && at + ENTRY_SIZE <= data.Length && data[..at] == written && |e.mint| == KEY_SIZE
    modifies data
    ensures data[..at + ENTRY_SIZE] == written + EntryBytes(e)
    ensures forall j :: at + ENTRY_SIZE <= j < data.Length ==> data[j] == old(data[j])
  {
    Put(data, written, at, e.mint);
    Put(data, written + e.mint, at + 32, ToLe(e.amount, 8));
  }

  method WriteHeader(d: LedgerData, data: array<byte>)
    requires Sized(d) && data.Length >= LEDGER_HEADER
    modifies data
    ensures data[..LEDGER_HEADER] == HeaderBytes(d)
    ensures forall j :: LEDGER_HEADER <= j < data.Length ==> data[j] == old(data[j])
  {
    WriteFlags(d, data);
    ghost var w := (LEDGER_DISCRIMINATOR + d.owner) + ([if d.pdaAuth then 1 else 0] + [d.bump] + Zeros(6));
    Put(data, w, 48, d.rentPayer);
    Put(data, w + d.rentPayer, 80, d.authorized);
    Put(data, w + d.rentPayer + d.authorized, 112, ToLe(|d.entries|, 4));
  }

  method WriteFlags(d: LedgerData, data: array<byte>)
    requires Sized(d) && data.Length >= LEDGER_HEADER
    modifies data
    ensures data[..48] == (LEDGER_DISCRIMINATOR + d.owner) + ([if d.pdaAuth then 1 else 0] + [d.bump] + Zeros(6))
    ensures forall j :: 48 <= j < data.Length ==> data[j] == old(data[j])
  {
    ghost var w := [];
    Put(data, w, 0, LEDGER_DISCRIMINATOR);
    Put(data, LEDGER_DISCRIMINATOR, 8, d.owner);
    w := LEDGER_DISCRIMINATOR + d.owner;
    Put(data, w, 40, [if d.pdaAuth then 1 else 0]);
    w := w + [if d.pdaAuth then 1 else 0];
    Put(data, w, 41, [d.bump]);
    Put(data, w + [d.bump], 42, Zeros(6));
  }

  /** `read_from`, slot by slot. */
  method ReadFrom(data: array<byte>) returns (r: Result<LedgerData>)
    ensures r == ReadLedger(data[..])
  {
    if data.Length < LEDGER_HEADER || data[0..8] != LEDGER_DISCRIMINATOR {
      return Failure(InvalidAccountData);
    }
    var owner, rentPayer, authorized := data[8..40], data[48..80], data[80..112];
    var pdaAuth, bump := data[40] != 0, data[41];
    var count := FromLe(data[112..116]);
    assert data[112..116] == Field(data[..], 112, 4);
    if data.Length < LEDGER_HEADER + count * ENTRY_SIZE {
      return Failure(InvalidAccountData);
    }
    var entries: seq<Entry> := [];
    for i := 0 to count
      invariant |entries| == i
      invariant forall j :: 0 <= j < i ==> entries[j] == EntryAt(data[..], j)
    {
      var o := LEDGER_HEADER + i * ENTRY_SIZE;
      assert data[o..o + 32] == KeyAt(data[..], o) && data[o + 32..o + 40] == Field(data[..], o + 32, 8);
      entries := entries + [Entry(data[o..o + 32], U64(data[o + 32..o + 40]))];
    }
    assert entries == EntriesOf(data[..], count);
    return Success(LedgerData(owner, pdaAuth, bump, rentPayer, authorized, entries));
  }

  // ---- Round trips ----

  lemma HeaderFields(d: LedgerData)
    requires Sized(d)
    ensures var h := HeaderBytes(d);
            && Field(h, 0, 8) == LEDGER_DISCRIMINATOR
            && KeyAt(h, 8) == d.owner && h[40] == (if d.pdaAuth then 1 else 0) && h[41] == d.bump
            && KeyAt(h, 48) == d.rentPayer && KeyAt(h, 80) == d.authorized
            && Field(h, 112, 4) == ToLe(|d.entries|, 4)
  {
    var h, count := HeaderBytes(d), ToLe(|d.entries|, 4);
    FieldOf(h, h[..112], count, []);
    assert h == h[..112] + count;
  }

  lemma EntryFields(e: Entry, b: seq<byte>)
    requires |e.mint| == KEY_SIZE && b == EntryBytes(e)
    ensures KeyAt(b, 0) == e.mint && U64(Field(b, 32, 8)) == e.amount
  {
    U64RoundTrips(e.amount, ToLe(e.amount, 8));
    assert Field(b, 32, 8) == ToLe(e.amount, 8);
  }

  lemma EntryReadBack(d: LedgerData, tail: seq<byte>, i: nat)
    requires Sized(d) && i < |d.entries|
    ensures LedgerSpace(i + 1) <= |LedgerBytes(d) + tail| && EntryAt(LedgerBytes(d) + tail, i) == d.entries[i]
  {
    var data, parts := LedgerBytes(d) + tail, EntriesBytes(d.entries);
    var o := LEDGER_HEADER + i * ENTRY_SIZE;
    FlatSlice(parts, ENTRY_SIZE, i);
    FlatLength(parts, ENTRY_SIZE);
    assert Field(data, o, ENTRY_SIZE) == parts[i];
    EntryFields(d.entries[i], parts[i]);
    assert KeyAt(data, o) == KeyAt(parts[i], 0);
    assert Field(data, o + 32, 8) == Field(parts[i], 32, 8);
  }

  /** Reading inverts writing, in any account large enough, whatever follows the ledger in it. */
  lemma ReadInvertsWrite(d: LedgerData, tail: seq<byte>)
    requires Sized(d) && |d.entries| < 0x1_0000_0000
    ensures ReadLedger(LedgerBytes(d) + tail) == Success(d)
  {
    var data, h := LedgerBytes(d) + tail, HeaderBytes(d);
    HeaderFields(d);
    assert data[..LEDGER_HEADER] == h;
    assert Field(data, 0, 8) == Field(h, 0, 8) && KeyAt(data, 8) == KeyAt(h, 8) && data[40] == h[40]
        && data[41] == h[41];
    assert KeyAt(data, 48) == KeyAt(h, 48) && KeyAt(data, 80) == KeyAt(h, 80)
        && Field(data, 112, 4) == Field(h, 112, 4);
    U32RoundTrips(|d.entries|, ToLe(|d.entries|, 4));
    forall i | 0 <= i < |d.entries|
      ensures EntriesOf(data, |d.entries|)[i] == d.entries[i]
    {
      EntryReadBack(d, tail, i);
    }
    assert EntriesOf(data, |d.entries|) == d.entries;
  }

  /** The bytes with the flag as 0 or 1 and the padding zeroed: all that writing back what was read
      changes. */
  function Normalised(data: seq<byte>): (r: seq<byte>)
    requires |data| >= LEDGER_HEADER
    ensures |r| == |data|
  {
    data[..40] + [if data[40] != 0 then 1 else 0] + [data[41]] + Zeros(6) + data[48..]
  }

  lemma EntryWrittenBack(data: seq<byte>, i: nat)
    requires LedgerSpace(i + 1) <= |data|
    ensures EntryBytes(EntryAt(data, i)) == Field(data, LEDGER_HEADER + i * ENTRY_SIZE, ENTRY_SIZE)
  {
    var o := LEDGER_HEADER + i * ENTRY_SIZE;
    U64RoundTrips(0, Field(data, o + 32, 8));
    assert Field(data, o, ENTRY_SIZE) == KeyAt(data, o) + Field(data, o + 32, 8);
  }

  lemma EntriesWrittenBack(data: seq<byte>, n: nat)
    requires LedgerSpace(n) <= |data|
    ensures Flat(EntriesBytes(EntriesOf(data, n))) == data[LEDGER_HEADER..LedgerSpace(n)]
  {
    var parts := EntriesBytes(EntriesOf(data, n));
    forall i | 0 <= i < n
      ensures parts[i] == data[LEDGER_HEADER + i * ENTRY_SIZE..LEDGER_HEADER + i * ENTRY_SIZE + ENTRY_SIZE]
    {
      EntryWrittenBack(data, i);
    }
    FlatOfSlices(data, LEDGER_HEADER, ENTRY_SIZE, parts);
  }

  lemma HeaderWrittenBack(data: seq<byte>, d: LedgerData)
    requires ReadLedger(data) == Success(d)
    ensures HeaderBytes(d) == Normalised(data)[..LEDGER_HEADER]
  {
    U32RoundTrips(|d.entries|, Field(data, 112, 4));
    Adjoining(data, 0, 8, 40);
    Adjoining(data, 48, 80, 112);
    Adjoining(data, 48, 112, 116);
    var middle := [if data[40] != 0 then 1 else 0] + [data[41]] + Zeros(6);
    assert HeaderBytes(d) == data[..40] + middle + data[48..116];
    assert Normalised(data) == data[..40] + middle + data[48..];
  }

  /** Writing back what was read reproduces the account, but for the flag byte and the padding. */
  lemma WriteInvertsRead(data: seq<byte>, d: LedgerData)
    requires ReadLedger(data) == Success(d)
    ensures |data| >= LedgerSpace(|d.entries|)
    ensures LedgerBytes(d) + data[LedgerSpace(|d.entries|)..] == Normalised(data)
  {
    var n := |d.entries|;
    HeaderWrittenBack(data, d);
    EntriesWrittenBack(data, n);
    assert data[LEDGER_HEADER..] == data[LEDGER_HEADER..LedgerSpace(n)] + data[LedgerSpace(n)..];
  }

  /** The offset member programs read: slot 0's amount, the ledger's SOL, at byte 148. */
  lemma SolIsAt148(d: LedgerData, tail: seq<byte>)
    requires Sized(d) && d.entries != []
    ensures |LedgerBytes(d) + tail| >= 156 && U64(Field(LedgerBytes(d) + tail, 148, 8)) == d.entries[0].amount
  {
    EntryReadBack(d, tail, 0);
  }
}
