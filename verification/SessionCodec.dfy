/** `Session`'s bytes: a 48-byte header, then 232 bytes a program. */
module SessionCodec {
  import opened Base
  import opened Bytes
  import opened Sessions
  import opened SessionTable

  const SESSION_DISCRIMINATOR: seq<byte> := [243, 81, 72, 115, 214, 188, 72, 144]

  /** A ring of five keys of 32 bytes. */
  ghost predicate SizedRing(ring: seq<Key>) {
    |ring| == RING && forall k :: 0 <= k < RING ==> |ring[k]| == KEY_SIZE
  }

  ghost predicate SizedEntry(e: ProgramEntry) {
    |e.program| == KEY_SIZE && |e.temporary| == KEY_SIZE && SizedRing(e.ring)
  }

  ghost predicate SizedEntries(es: seq<ProgramEntry>) {
    forall i :: 0 <= i < |es| ==> SizedEntry(es[i])
  }

  /** The store's keys are 32 bytes long, and its rings five keys. */
  ghost predicate Sized(d: SessionData) {
    |d.owner| == KEY_SIZE && SizedEntries(d.entries)
  }

  function RingBytes(ring: seq<Key>): (r: seq<byte>)
    requires SizedRing(ring)
    ensures |r| == 160
  {
    var none: seq<byte> := [];
    none + ring[0] + ring[1] + ring[2] + ring[3] + ring[4]
  }

  function EntryBytes(e: ProgramEntry): (r: seq<byte>)
    requires SizedEntry(e)
    ensures |r| == PROGRAM_ENTRY
  {
    e.program + e.temporary + ToLe(Unsigned(e.expiresAt), 8) + RingBytes(e.ring)
  }

  function EntriesBytes(es: seq<ProgramEntry>): seq<seq<byte>>
    requires SizedEntries(es)
  {
    seq(|es|, i requires 0 <= i < |es| => EntryBytes(es[i]))
  }

  function HeaderBytes(d: SessionData): (r: seq<byte>)
    requires |d.owner| == KEY_SIZE
    ensures |r| == SESSION_HEADER
  {
    SESSION_DISCRIMINATOR + d.owner + [d.bump] + Zeros(3) + ToLe(|d.entries|, 4)
  }

  /** What `write_to` writes; the entry count is cast to 32 bits. */
  function SessionBytes(d: SessionData): (r: seq<byte>)
    requires Sized(d)
    ensures |r| == Space(|d.entries|)
  {
    FlatLength(EntriesBytes(d.entries), PROGRAM_ENTRY);
    HeaderBytes(d) + Flat(EntriesBytes(d.entries))
  }

  function RingOf(data: seq<byte>, at: nat): (r: seq<Key>)
    requires at + 160 <= |data|
    ensures SizedRing(r)
  {
    [KeyAt(data, at), KeyAt(data, at + 32), KeyAt(data, at + 64), KeyAt(data, at + 96), KeyAt(data, at + 128)]
  }

  function EntryAt(data: seq<byte>, i: nat): (r: ProgramEntry)
    requires Space(i + 1) <= |data|
    ensures SizedEntry(r)
  {
    var at := SESSION_HEADER + i * PROGRAM_ENTRY;
    ProgramEntry(KeyAt(data, at), KeyAt(data, at + 32), Signed(U64(Field(data, at + 64, 8))), RingOf(data, at + 72))
  }

  function EntriesOf(data: seq<byte>, n: nat): (r: seq<ProgramEntry>)
    requires Space(n) <= |data|
    ensures |r| == n && forall i :: 0 <= i < n ==> r[i] == EntryAt(data, i)
    ensures SizedEntries(r)
  {
    seq(n, i requires 0 <= i < n => EntryAt(data, i))
  }

  /** `Session::read_from`. */
  function ReadSession(data: seq<byte>): (r: Result<SessionData>)
    ensures r.Success? ==> Sized(r.value)
  {
    if |data| < SESSION_HEADER || Field(data, 0, 8) != SESSION_DISCRIMINATOR then Failure(InvalidAccountData)
    else
      var count := FromLe(Field(data, 44, 4));
      if |data| < Space(count) then Failure(InvalidAccountData)
      else Success(SessionData(KeyAt(data, 8), data[40], EntriesOf(data, count)))
  }

  // ---- The loops ----

  method PutEntry(data: array<byte>, ghost written: seq<byte>, at: nat, e: ProgramEntry)
    requires at == |written| && at + PROGRAM_ENTRY <= data.Length && data[..at] == written && SizedEntry(e)
    modifies data
    ensures data[..at + PROGRAM_ENTRY] == written + EntryBytes(e)
    ensures forall j :: at + PROGRAM_ENTRY <= j < data.Length ==> data[j] == old(data[j])
  {
    ghost var w := written;
    Put(data, w, at, e.program);
    w := w + e.program;
    Put(data, w, at + 32, e.temporary);
    w := w + e.temporary;
    Put(data, w, at + 64, ToLe(Unsigned(e.expiresAt), 8));
    w := w + ToLe(Unsigned(e.expiresAt), 8);
    ghost var fields := w;
    ghost var done: seq<byte> := [];
    for k := 0 to RING
      invariant |done| == k * 32 && done == RingBytes(e.ring)[..k * 32] && w == fields + done
      invariant data[..at + 72 + k * 32] == w
      invariant forall j :: at + PROGRAM_ENTRY <= j < data.Length ==> data[j] == old(data[j])
    {
      Put(data, w, at + 72 + k * 32, e.ring[k]);
      RingSlot(e.ring, k);
      w := w + e.ring[k];
      done := done + e.ring[k];
    }
  }

  lemma RingSlot(ring: seq<Key>, k: nat)
    requires SizedRing(ring) && k < RING
    ensures RingBytes(ring)[k * 32..k * 32 + 32] == ring[k]
  {
    var b := RingBytes(ring);
    if k == 0 {
      FieldOf(b, [], ring[0], b[32..]);
    } else if k == 1 {
      FieldOf(b, b[..32], ring[1], b[64..]);
    } else if k == 2 {
      FieldOf(b, b[..64], ring[2], b[96..]);
    } else if k == 3 {
      FieldOf(b, b[..96], ring[3], b[128..]);
    } else {
      FieldOf(b, b[..128], ring[4], []);
    }
  }

  method WriteHeader(d: SessionData, data: array<byte>)
    requires |d.owner| == KEY_SIZE && data.Length >= SESSION_HEADER
    modifies data
    ensures data[..SESSION_HEADER] == HeaderBytes(d)
    ensures forall j :: SESSION_HEADER <= j < data.Length ==> data[j] == old(data[j])
  {
    ghost var w := [];
    Put(data, w, 0, SESSION_DISCRIMINATOR);
    w := w + SESSION_DISCRIMINATOR;
    Put(data, w, 8, d.owner);
    w := w + d.owner;
    Put(data, w, 40, [d.bump]);
    w := w + [d.bump];
    Put(data, w, 41, Zeros(3));
    w := w + Zeros(3);
    Put(data, w, 44, ToLe(|d.entries|, 4));
  }

  method WriteTo(d: SessionData, data: array<byte>) returns (r: Result<()>)
    requires Sized(d)
    modifies data
    ensures if data.Length < Space(|d.entries|) then r == Failure(AccountDataTooSmall) && data[..] == old(data[..])
            else r == Success(()) && data[..] == SessionBytes(d) + old(data[..])[Space(|d.entries|)..]
  {
    if data.Length < Space(|d.entries|) {
      return Failure(AccountDataTooSmall);
    }
    var n := |d.entries|;
    ghost var parts := EntriesBytes(d.entries);
    WriteHeader(d, data);
    ghost var written := HeaderBytes(d);
    for i := 0 to n
      invariant written == HeaderBytes(d) + Flat(parts[..i]) && |written| == Space(i)
      invariant data[..Space(i)] == written
      invariant forall j :: Space(n) <= j < data.Length ==> data[j] == old(data[j])
    {
      PutEntry(data, written, SESSION_HEADER + i * PROGRAM_ENTRY, d.entries[i]);
      assert parts[..i + 1] == parts[..i] + [EntryBytes(d.entries[i])];
      FlatAppend(parts[..i], EntryBytes(d.entries[i]));
      written := written + EntryBytes(d.entries[i]);
    }
    assert parts[..n] == parts;
    assert data[..] == data[..Space(n)] + old(data[..])[Space(n)..];
    return Success(());
  }

  method ReadRing(data: array<byte>, at: nat) returns (ring: seq<Key>)
    requires at + 160 <= data.Length
    ensures ring == RingOf(data[..], at)
  {
    ring := [];
    for k := 0 to RING
      invariant |ring| == k && forall j :: 0 <= j < k ==> ring[j] == KeyAt(data[..], at + j * 32)
    {
      var o := at + k * 32;
      assert data[o..o + 32] == KeyAt(data[..], o);
      ring := ring + [data[o..o + 32]];
    }
    assert ring == [ring[0], ring[1], ring[2], ring[3], ring[4]];
  }

  method ReadFrom(data: array<byte>) returns (r: Result<SessionData>)
    ensures r == ReadSession(data[..])
  {
    if data.Length < SESSION_HEADER || data[0..8] != SESSION_DISCRIMINATOR {
      return Failure(InvalidAccountData);
    }
    var count := FromLe(data[44..48]);
    assert data[44..48] == Field(data[..], 44, 4);
    if data.Length < Space(count) {
      return Failure(InvalidAccountData);
    }
    var entries: seq<ProgramEntry> := [];
    for i := 0 to count
      invariant |entries| == i
      invariant forall j :: 0 <= j < i ==> entries[j] == EntryAt(data[..], j)
    {
      var at := SESSION_HEADER + i * PROGRAM_ENTRY;
      var ring := ReadRing(data, at + 72);
      assert data[at..at + 32] == KeyAt(data[..], at) && data[at + 32..at + 64] == KeyAt(data[..], at + 32);
      assert data[at + 64..at + 72] == Field(data[..], at + 64, 8);
      entries := entries + [ProgramEntry(data[at..at + 32], data[at + 32..at + 64],
          Signed(U64(data[at + 64..at + 72])), ring)];
    }
    assert entries == EntriesOf(data[..], count);
    return Success(SessionData(data[8..40], data[40], entries));
  }

  // ---- Round trips ----

  lemma SignedRoundTrips(n: i64, u: u64)
    ensures Signed(Unsigned(n)) == n && Unsigned(Signed(u)) == u
  {
  }

  lemma EntryFields(e: ProgramEntry, b: seq<byte>)
    requires SizedEntry(e) && b == EntryBytes(e)
    ensures ProgramEntry(KeyAt(b, 0), KeyAt(b, 32), Signed(U64(Field(b, 64, 8))), RingOf(b, 72)) == e
  {
    var expiry, ring := ToLe(Unsigned(e.expiresAt), 8), RingBytes(e.ring);
    U64RoundTrips(Unsigned(e.expiresAt), expiry);
    FieldOf(b, [], e.program, b[32..]);
    FieldOf(b, e.program, e.temporary, b[64..]);
    FieldOf(b, e.program + e.temporary, expiry, ring);
    FieldOf(b, e.program + e.temporary + expiry, ring, []);
    forall k | 0 <= k < RING
      ensures KeyAt(b, 72 + k * 32) == e.ring[k]
    {
      RingSlot(e.ring, k);
      assert KeyAt(b, 72 + k * 32) == ring[k * 32..k * 32 + 32];
    }
    RingIsItsKeys(b, e.ring);
  }

  lemma RingIsItsKeys(b: seq<byte>, ring: seq<Key>)
    requires |b| == PROGRAM_ENTRY && |ring| == RING && forall k :: 0 <= k < RING ==> KeyAt(b, 72 + k * 32) == ring[k]
    ensures RingOf(b, 72) == ring
  {
    assert KeyAt(b, 72 + 0 * 32) == ring[0] && KeyAt(b, 72 + 1 * 32) == ring[1] && KeyAt(b, 72 + 2 * 32) == ring[2];
    assert KeyAt(b, 72 + 3 * 32) == ring[3] && KeyAt(b, 72 + 4 * 32) == ring[4];
  }

  lemma EntryOfWhole(data: seq<byte>, at: nat, b: seq<byte>)
    requires at + PROGRAM_ENTRY <= |data| && b == Field(data, at, PROGRAM_ENTRY)
    ensures KeyAt(data, at) == KeyAt(b, 0) && KeyAt(data, at + 32) == KeyAt(b, 32)
    ensures Field(data, at + 64, 8) == Field(b, 64, 8) && RingOf(data, at + 72) == RingOf(b, 72)
  {
    FieldOfField(data, at, PROGRAM_ENTRY, b, 0, 32);
    FieldOfField(data, at, PROGRAM_ENTRY, b, 32, 32);
    FieldOfField(data, at, PROGRAM_ENTRY, b, 64, 8);
    FieldOfField(data, at, PROGRAM_ENTRY, b, 72, 32);
    FieldOfField(data, at, PROGRAM_ENTRY, b, 104, 32);
    FieldOfField(data, at, PROGRAM_ENTRY, b, 136, 32);
    FieldOfField(data, at, PROGRAM_ENTRY, b, 168, 32);
    FieldOfField(data, at, PROGRAM_ENTRY, b, 200, 32);
  }

  lemma EntryReadBack(d: SessionData, tail: seq<byte>, i: nat)
    requires Sized(d) && i < |d.entries|
    ensures Space(i + 1) <= |SessionBytes(d) + tail| && EntryAt(SessionBytes(d) + tail, i) == d.entries[i]
  {
    var data, parts := SessionBytes(d) + tail, EntriesBytes(d.entries);
    var at := SESSION_HEADER + i * PROGRAM_ENTRY;
    FlatSlice(parts, PROGRAM_ENTRY, i);
    FlatLength(parts, PROGRAM_ENTRY);
    assert Field(data, at, PROGRAM_ENTRY) == parts[i];
    EntryFields(d.entries[i], parts[i]);
    EntryOfWhole(data, at, parts[i]);
  }

  lemma HeaderFields(d: SessionData)
    requires |d.owner| == KEY_SIZE
    ensures var h := HeaderBytes(d);
            && Field(h, 0, 8) == SESSION_DISCRIMINATOR && KeyAt(h, 8) == d.owner && h[40] == d.bump
            && Field(h, 44, 4) == ToLe(|d.entries|, 4)
  {
    var h := HeaderBytes(d);
    FieldOf(h, h[..44], ToLe(|d.entries|, 4), []);
    assert h == h[..44] + ToLe(|d.entries|, 4);
  }

  /** Reading inverts writing, whatever follows the store in its account. */
  lemma ReadInvertsWrite(d: SessionData, tail: seq<byte>)
    requires Sized(d) && |d.entries| < 0x1_0000_0000
    ensures ReadSession(SessionBytes(d) + tail) == Success(d)
  {
    var data, h := SessionBytes(d) + tail, HeaderBytes(d);
    HeaderFields(d);
    assert data[..SESSION_HEADER] == h;
    assert Field(data, 0, 8) == Field(h, 0, 8) && KeyAt(data, 8) == KeyAt(h, 8) && data[40] == h[40];
    assert Field(data, 44, 4) == Field(h, 44, 4);
    U32RoundTrips(|d.entries|, ToLe(|d.entries|, 4));
    forall i | 0 <= i < |d.entries|
      ensures EntriesOf(data, |d.entries|)[i] == d.entries[i]
    {
      EntryReadBack(d, tail, i);
    }
    assert EntriesOf(data, |d.entries|) == d.entries;
  }

  /** The bytes with the padding zeroed. */
  function Normalised(data: seq<byte>): (r: seq<byte>)
    requires |data| >= SESSION_HEADER
    ensures |r| == |data|
  {
    data[..41] + Zeros(3) + data[44..]
  }

  lemma EntryWrittenBack(data: seq<byte>, i: nat)
    requires Space(i + 1) <= |data|
    ensures EntryBytes(EntryAt(data, i)) == Field(data, SESSION_HEADER + i * PROGRAM_ENTRY, PROGRAM_ENTRY)
  {
    var at := SESSION_HEADER + i * PROGRAM_ENTRY;
    U64RoundTrips(0, Field(data, at + 64, 8));
    SignedRoundTrips(0, U64(Field(data, at + 64, 8)));
    RingWrittenBack(data, at + 72);
    assert Field(data, at, PROGRAM_ENTRY)
        == KeyAt(data, at) + KeyAt(data, at + 32) + Field(data, at + 64, 8) + Field(data, at + 72, 160);
  }

  lemma RingWrittenBack(data: seq<byte>, at: nat)
    requires at + 160 <= |data|
    ensures RingBytes(RingOf(data, at)) == Field(data, at, 160)
  {
  }

  lemma EntriesWrittenBack(data: seq<byte>, n: nat)
    requires Space(n) <= |data|
    ensures Flat(EntriesBytes(EntriesOf(data, n))) == data[SESSION_HEADER..Space(n)]
  {
    var parts := EntriesBytes(EntriesOf(data, n));
    forall i | 0 <= i < n
      ensures parts[i] == data[SESSION_HEADER + i * PROGRAM_ENTRY..SESSION_HEADER + i * PROGRAM_ENTRY + PROGRAM_ENTRY]
    {
      EntryWrittenBack(data, i);
    }
    FlatOfSlices(data, SESSION_HEADER, PROGRAM_ENTRY, parts);
  }

  /** Writing back what was read reproduces the account, but for the padding. */
  lemma WriteInvertsRead(data: seq<byte>, d: SessionData)
    requires ReadSession(data) == Success(d)
    ensures |data| >= Space(|d.entries|)
    ensures SessionBytes(d) + data[Space(|d.entries|)..] == Normalised(data)
  {
    var n := |d.entries|;
    HeaderWrittenBack(data, d);
    EntriesWrittenBack(data, n);
    assert data[SESSION_HEADER..] == data[SESSION_HEADER..Space(n)] + data[Space(n)..];
  }

  lemma HeaderWrittenBack(data: seq<byte>, d: SessionData)
    requires ReadSession(data) == Success(d)
    ensures HeaderBytes(d) == Normalised(data)[..SESSION_HEADER]
  {
    U32RoundTrips(|d.entries|, Field(data, 44, 4));
    Adjoining(data, 0, 8, 40);
    Adjoining(data, 0, 40, 41);
    assert HeaderBytes(d) == data[..41] + Zeros(3) + data[44..48];
  }
}
