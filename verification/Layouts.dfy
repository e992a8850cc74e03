/** The three layouts side by side, byte by byte: what stands where, and that no account of one kind can be
    taken for another. */
module Layouts {
  import opened Base
  import opened Bytes
  import opened LedgerObject
  import L = LedgerCodec
  import R = ReceiptCodec
  import opened Receipts
  import S = SessionCodec
  import opened Sessions
  import opened SessionTable
  import opened SlotTable

  /** A ledger passed as a receipt is refused, whatever it holds and whatever follows it: it settles
      nothing. One slot is enough to make it long enough to be told apart by its discriminator. */
  lemma LedgerIsNoReceipt(d: LedgerData, tail: seq<byte>)
    requires L.Sized(d)
    ensures R.ReadReceipt(L.LedgerBytes(d) + tail).Failure?
    ensures d.entries != [] ==> R.ReadReceipt(L.LedgerBytes(d) + tail) == Failure(NotAReceipt)
  {
    L.HeaderFields(d);
    var data := L.LedgerBytes(d) + tail;
    FieldOfField(data, 0, LEDGER_HEADER, L.HeaderBytes(d), 0, 8);
    assert L.LEDGER_DISCRIMINATOR[0] != R.RECEIPT_DISCRIMINATOR[0];
  }

  /** Nor is a session store, whatever follows it: it is too short, or it begins otherwise. */
  lemma SessionIsNoReceipt(d: SessionData, tail: seq<byte>)
    requires S.Sized(d)
    ensures var data := S.SessionBytes(d) + tail;
            R.ReadReceipt(data) == Failure(if |data| < R.RECEIPT_HEADER then NoAuthorization else NotAReceipt)
    ensures d.entries != [] ==> R.ReadReceipt(S.SessionBytes(d) + tail) == Failure(NotAReceipt)
  {
    S.HeaderFields(d);
    var data := S.SessionBytes(d) + tail;
    FieldOfField(data, 0, SESSION_HEADER, S.HeaderBytes(d), 0, 8);
    assert S.SESSION_DISCRIMINATOR[0] != R.RECEIPT_DISCRIMINATOR[0];
  }

  /** And neither a receipt, live or killed, nor a session store is read as a ledger, whatever follows
      it. */
  lemma OnlyLedgersAreLedgers(r: Receipt, d: SessionData, tail: seq<byte>)
    requires Admitted(r) && R.Sized(r) && S.Sized(d)
    ensures L.ReadLedger(R.ReceiptBytes(r) + tail) == Failure(InvalidAccountData)
    ensures L.ReadLedger(R.Killed(R.ReceiptBytes(r) + tail)) == Failure(InvalidAccountData)
    ensures L.ReadLedger(S.SessionBytes(d) + tail) == Failure(InvalidAccountData)
  {
    var receipt, session := R.ReceiptBytes(r) + tail, S.SessionBytes(d) + tail;
    R.HeaderFields(r);
    S.HeaderFields(d);
    FieldOfField(receipt, 0, R.RECEIPT_HEADER, R.HeaderBytes(r), 0, 8);
    FieldOfField(session, 0, SESSION_HEADER, S.HeaderBytes(d), 0, 8);
    assert L.LEDGER_DISCRIMINATOR[0] != R.RECEIPT_DISCRIMINATOR[0];
    assert L.LEDGER_DISCRIMINATOR[0] != S.SESSION_DISCRIMINATOR[0];
    assert Field(R.Killed(receipt), 0, 8)[0] == 0;
  }

  // ---- What stands where ----

  /** Four bytes, and eight, least significant first. */
  function Le32(data: seq<byte>, at: nat): nat
    requires at + 4 <= |data|
  {
    var a, b, c, d := data[at] as nat, data[at + 1] as nat, data[at + 2] as nat, data[at + 3] as nat;
    a + 0x100 * b + 0x1_0000 * c + 0x100_0000 * d
  }

  function Le64(data: seq<byte>, at: nat): nat
    requires at + 8 <= |data|
  {
    Le32(data, at) + 0x1_0000_0000 * Le32(data, at + 4)
  }

  lemma FourBytes(b: seq<byte>)
    requires |b| >= 4
    ensures FromLe(b) == Le32(b, 0) + 0x1_0000_0000 * FromLe(b[4..])
  {
    assert b[1..][1..] == b[2..] && b[2..][1..] == b[3..] && b[3..][1..] == b[4..];
    assert FromLe(b) == b[0] + 0x100 * FromLe(b[1..]);
    assert FromLe(b[1..]) == b[1] + 0x100 * FromLe(b[2..]);
    assert FromLe(b[2..]) == b[2] + 0x100 * FromLe(b[3..]);
    assert FromLe(b[3..]) == b[3] + 0x100 * FromLe(b[4..]);
  }

  lemma LittleEndian(data: seq<byte>, at: nat)
    ensures at + 4 <= |data| ==> FromLe(Field(data, at, 4)) == Le32(data, at)
    ensures at + 8 <= |data| ==> U64(Field(data, at, 8)) == Le64(data, at)
  {
    if at + 4 <= |data| {
      FourBytes(Field(data, at, 4));
    }
    if at + 8 <= |data| {
      var b := Field(data, at, 8);
      FourBytes(b);
      FourBytes(b[4..]);
    }
  }

  ghost predicate LedgerStands(data: seq<byte>, d: LedgerData) {
    && |data| >= 116 + 40 * |d.entries|
    && data[..8] == [43, 41, 21, 213, 180, 176, 95, 32]
    && data[8..40] == d.owner && data[40] == (if d.pdaAuth then 1 else 0) && data[41] == d.bump
    && data[42..48] == [0, 0, 0, 0, 0, 0] && data[48..80] == d.rentPayer && data[80..112] == d.authorized
    && Le32(data, 112) == |d.entries|
    && forall i :: 0 <= i < |d.entries| ==> SlotStands(data, 116 + 40 * i, d.entries[i])
  }

  ghost predicate SlotStands(data: seq<byte>, at: nat, e: Entry) {
    at + 40 <= |data| && data[at..at + 32] == e.mint && Le64(data, at + 32) == e.amount
  }

  /** Where everything stands in a ledger's account: a member program that indexes into the bytes by these
      offsets reads the ledger. */
  lemma LedgerLayout(d: LedgerData, tail: seq<byte>)
    requires L.Sized(d) && |d.entries| < 0x1_0000_0000
    ensures LedgerStands(L.LedgerBytes(d) + tail, d)
  {
    var data := L.LedgerBytes(d) + tail;
    L.ReadInvertsWrite(d, tail);
    LittleEndian(data, 112);
    assert data[..116] == L.HeaderBytes(d);
    assert data[40..48] == L.HeaderBytes(d)[40..48];
    forall i | 0 <= i < |d.entries|
      ensures SlotStands(data, 116 + 40 * i, d.entries[i])
    {
      assert L.EntriesOf(data, |d.entries|)[i] == L.EntryAt(data, i);
      LittleEndian(data, 116 + 40 * i + 32);
    }
  }

  ghost predicate SessionStands(data: seq<byte>, d: SessionData) {
    && |data| >= 48 + 232 * |d.entries|
    && data[..8] == [243, 81, 72, 115, 214, 188, 72, 144]
    && data[8..40] == d.owner && data[40] == d.bump && data[41..44] == [0, 0, 0] && Le32(data, 44) == |d.entries|
    && forall i :: 0 <= i < |d.entries| ==> KeysStand(data, 48 + 232 * i, d.entries[i])
  }

  ghost predicate KeysStand(data: seq<byte>, at: nat, e: ProgramEntry) {
    && at + 232 <= |data| && |e.ring| == 5
    && data[at..at + 32] == e.program && data[at + 32..at + 64] == e.temporary
    && Signed(Le64(data, at + 64)) == e.expiresAt
    && forall k :: 0 <= k < 5 ==> data[at + 72 + 32 * k..at + 104 + 32 * k] == e.ring[k]
  }

  lemma KeysWhere(data: seq<byte>, i: nat)
    requires Space(i + 1) <= |data|
    ensures KeysStand(data, 48 + 232 * i, S.EntryAt(data, i))
  {
    LittleEndian(data, 48 + 232 * i + 64);
  }

  /** And in a session store's. */
  lemma SessionLayout(d: SessionData, tail: seq<byte>)
    requires S.Sized(d) && |d.entries| < 0x1_0000_0000
    ensures SessionStands(S.SessionBytes(d) + tail, d)
  {
    var data := S.SessionBytes(d) + tail;
    S.ReadInvertsWrite(d, tail);
    LittleEndian(data, 44);
    assert data[..48] == S.HeaderBytes(d);
    assert data[41..44] == S.HeaderBytes(d)[41..44];
    forall i | 0 <= i < |d.entries|
      ensures KeysStand(data, 48 + 232 * i, d.entries[i])
    {
      KeysWhere(data, i);
      assert S.EntriesOf(data, |d.entries|)[i] == S.EntryAt(data, i);
    }
  }

  ghost predicate ReceiptStands(data: seq<byte>, r: Receipt)
    requires r.owners != []
  {
    var mv := 155 + 32 * (|r.owners| - 1);
    var ao := mv + 42 * |r.movements|;
    && |data| == ao + |r.args|
    && data[..8] == [39, 154, 73, 106, 80, 102, 145, 153]
    && data[8..40] == r.consenter && data[40..72] == r.owners[0] && data[72..104] == r.authority
    && data[104..136] == r.member && data[136..144] == r.callbackDisc && Le64(data, 144) == r.slot
    && data[152] == |r.owners| && data[153] == |r.movements| && data[154] == |r.args|
    && (forall i :: 1 <= i < |r.owners| ==> data[155 + 32 * (i - 1)..155 + 32 * i] == r.owners[i])
    && (forall i :: 0 <= i < |r.movements| ==> MovementStands(data, mv + 42 * i, r.movements[i]))
    && data[ao..] == r.args
  }

  ghost predicate MovementStands(data: seq<byte>, at: nat, m: Movement) {
    && at + 42 <= |data| && data[at..at + 32] == m.mint && Le64(data, at + 32) == m.amount
    && data[at + 40] == m.src && data[at + 41] == m.dst
  }

  lemma MovementWhere(data: seq<byte>, mv: nat, i: nat)
    requires mv + 42 * (i + 1) <= |data|
    ensures MovementStands(data, mv + 42 * i, R.MovementAt(data, mv, i))
  {
    LittleEndian(data, mv + 42 * i + 32);
  }

  lemma OwnersWhere(data: seq<byte>, owners: seq<Key>)
    requires owners != [] && 155 + 32 * (|owners| - 1) <= |data| && R.OwnersOf(data, |owners| - 1) == owners
    ensures data[40..72] == owners[0]
    ensures forall i :: 1 <= i < |owners| ==> data[155 + 32 * (i - 1)..155 + 32 * i] == owners[i]
  {
    forall i | 1 <= i < |owners|
      ensures data[155 + 32 * (i - 1)..155 + 32 * i] == owners[i]
    {
      assert owners[i - 1 + 1] == R.OwnerAt(data, i - 1);
    }
  }

  lemma MovementsWhere(data: seq<byte>, mv: nat, ms: seq<Movement>)
    requires mv + 42 * |ms| <= |data| && R.MovementsOf(data, mv, |ms|) == ms
    ensures forall i :: 0 <= i < |ms| ==> MovementStands(data, mv + 42 * i, ms[i])
  {
    forall i | 0 <= i < |ms|
      ensures MovementStands(data, mv + 42 * i, ms[i])
    {
      MovementWhere(data, mv, i);
    }
  }

  /** And in a receipt's. */
  lemma ReceiptLayout(r: Receipt)
    requires Admitted(r) && R.Sized(r)
    ensures ReceiptStands(R.ReceiptBytes(r), r)
  {
    var data := R.ReceiptBytes(r);
    R.ReadInvertsWrite(r);
    LittleEndian(data, 144);
    OwnersWhere(data, r.owners);
    MovementsWhere(data, 155 + 32 * (|r.owners| - 1), r.movements);
  }
}
