/** A receipt's bytes: a fixed header, then three packed arrays, the owners after the first, the
    movements and the callback's arguments. */
module ReceiptCodec {
  import opened Base
  import opened Bytes
  import opened Receipts

  const RECEIPT_DISCRIMINATOR: seq<byte> := [39, 154, 73, 106, 80, 102, 145, 153]

  const RECEIPT_HEADER: nat := 155
  const OWNER_SIZE: nat := 32
  const MOVEMENT_SIZE: nat := 42

  /** What the layout can hold: keys of 32 bytes, a callback discriminator of 8, an owner. */
  ghost predicate Sized(r: Receipt) {
    && r.owners != [] && |r.callbackDisc| == 8
    && |r.consenter| == KEY_SIZE && |r.authority| == KEY_SIZE && |r.member| == KEY_SIZE
    && (forall i :: 0 <= i < |r.owners| ==> |r.owners[i]| == KEY_SIZE)
    && SizedMovements(r.movements)
  }

  ghost predicate SizedMovements(ms: seq<Movement>) {
    forall i :: 0 <= i < |ms| ==> |ms[i].mint| == KEY_SIZE
  }

  function LenFor(owners: nat, movements: nat, args: nat): nat
    requires owners >= 1
  {
    RECEIPT_HEADER + (owners - 1) * OWNER_SIZE + movements * MOVEMENT_SIZE + args
  }

  function LengthOf(r: Receipt): nat
    requires r.owners != []
  {
    LenFor(|r.owners|, |r.movements|, |r.args|)
  }

  function MovementBytes(m: Movement): (r: seq<byte>)
    requires |m.mint| == KEY_SIZE
    ensures |r| == MOVEMENT_SIZE
  {
    m.mint + ToLe(m.amount, 8) + [m.src] + [m.dst]
  }

  function MovementParts(ms: seq<Movement>): seq<seq<byte>>
    requires SizedMovements(ms)
  {
    seq(|ms|, i requires 0 <= i < |ms| => MovementBytes(ms[i]))
  }

  /** The lengths are cast to single bytes. */
  function HeaderBytes(r: Receipt): (b: seq<byte>)
    requires Sized(r)
    ensures |b| == RECEIPT_HEADER
  {
    RECEIPT_DISCRIMINATOR + r.consenter + r.owners[0] + r.authority + r.member + r.callbackDisc + ToLe(r.slot, 8)
    + [|r.owners| % 256] + [|r.movements| % 256] + [|r.args| % 256]
  }

  function OwnersBytes(r: Receipt): (b: seq<byte>)
    requires Sized(r)
    ensures |b| == (|r.owners| - 1) * OWNER_SIZE
  {
    FlatLength(r.owners[1..], OWNER_SIZE);
    Flat(r.owners[1..])
  }

  function MovementsBytes(r: Receipt): (b: seq<byte>)
    requires SizedMovements(r.movements)
    ensures |b| == |r.movements| * MOVEMENT_SIZE
  {
    FlatLength(MovementParts(r.movements), MOVEMENT_SIZE);
    Flat(MovementParts(r.movements))
  }

  function ReceiptBytes(r: Receipt): (b: seq<byte>)
    requires Sized(r)
    ensures |b| == LengthOf(r)
  {
    HeaderBytes(r) + OwnersBytes(r) + MovementsBytes(r) + r.args
  }

  function OwnerAt(data: seq<byte>, i: nat): Key
    requires RECEIPT_HEADER + (i + 1) * OWNER_SIZE <= |data|
  {
    KeyAt(data, RECEIPT_HEADER + i * OWNER_SIZE)
  }

  function MovementAt(data: seq<byte>, mv: nat, i: nat): Movement
    requires mv + (i + 1) * MOVEMENT_SIZE <= |data|
  {
    var o := mv + i * MOVEMENT_SIZE;
    Movement(KeyAt(data, o), U64(Field(data, o + 32, 8)), data[o + 40], data[o + 41])
  }

  function OwnersOf(data: seq<byte>, n: nat): (r: seq<Key>)
    requires RECEIPT_HEADER + n * OWNER_SIZE <= |data|
    ensures |r| == n + 1 && r[0] == KeyAt(data, 40) && forall i :: 0 <= i < n ==> r[i + 1] == OwnerAt(data, i)
    ensures forall i :: 0 <= i < |r| ==> |r[i]| == KEY_SIZE
  {
    [KeyAt(data, 40)] + seq(n, i requires 0 <= i < n => OwnerAt(data, i))
  }

  function MovementsOf(data: seq<byte>, mv: nat, n: nat): (r: seq<Movement>)
    requires mv + n * MOVEMENT_SIZE <= |data|
    ensures |r| == n && forall i :: 0 <= i < n ==> r[i] == MovementAt(data, mv, i)
    ensures SizedMovements(r)
  {
    seq(n, i requires 0 <= i < n => MovementAt(data, mv, i))
  }

  /** `read`. */
  function ReadReceipt(data: seq<byte>): (r: Result<Receipt>)
    ensures r.Success? ==> Sized(r.value)
  {
    if |data| < RECEIPT_HEADER then Failure(NoAuthorization)
    else if Field(data, 0, 8) != RECEIPT_DISCRIMINATOR then Failure(NotAReceipt)
    else
      var n, count, argsLen := data[152] as nat, data[153] as nat, data[154] as nat;
      if n < 1 then Failure(NoAuthorization)
      else
        var mv := RECEIPT_HEADER + (n - 1) * OWNER_SIZE;
        var ao := mv + count * MOVEMENT_SIZE;
        if |data| < ao + argsLen then Failure(NoAuthorization)
        else if !InRange(MovementsOf(data, mv, count), n) then Failure(NoAuthorization)
        else
          Success(Receipt(
            KeyAt(data, 8), OwnersOf(data, n - 1), KeyAt(data, 72), KeyAt(data, 104), Field(data, 136, 8),
            U64(Field(data, 144, 8)), MovementsOf(data, mv, count), Field(data, ao, argsLen)))
  }

  function SlotOf(data: seq<byte>): u64
    requires |data| >= RECEIPT_HEADER
  {
    U64(Field(data, 144, 8))
  }

  function AuthorityOf(data: seq<byte>): Key
    requires |data| >= RECEIPT_HEADER
  {
    KeyAt(data, 72)
  }

  /** What settlement does to the account before the callback. */
  function Killed(data: seq<byte>): (r: seq<byte>)
    requires |data| >= 8
    ensures |r| == |data|
  {
    Zeros(8) + data[8..]
  }

  // ---- The loops ----

  method Write(r: Receipt, data: array<byte>)
    requires Sized(r) && data.Length == LengthOf(r)
    modifies data
    ensures data[..] == ReceiptBytes(r)
  {
    WriteHeader(r, data);
    WriteOwners(r, data);
    WriteMovements(r, data);
    var ao := RECEIPT_HEADER + (|r.owners| - 1) * OWNER_SIZE + |r.movements| * MOVEMENT_SIZE;
    Put(data, HeaderBytes(r) + OwnersBytes(r) + MovementsBytes(r), ao, r.args);
    assert data[..] == data[..ao + |r.args|];
  }

  method WriteHeader(r: Receipt, data: array<byte>)
    requires Sized(r) && data.Length >= RECEIPT_HEADER
    modifies data
    ensures data[..RECEIPT_HEADER] == HeaderBytes(r)
  {
    ghost var w := [];
    Put(data, w, 0, RECEIPT_DISCRIMINATOR);
    w := w + RECEIPT_DISCRIMINATOR;
    Put(data, w, 8, r.consenter);
    w := w + r.consenter;
    Put(data, w, 40, r.owners[0]);
    w := w + r.owners[0];
    Put(data, w, 72, r.authority);
    w := w + r.authority;
    Put(data, w, 104, r.member);
    w := w + r.member;
    Put(data, w, 136, r.callbackDisc);
    w := w + r.callbackDisc;
    Put(data, w, 144, ToLe(r.slot, 8));
    w := w + ToLe(r.slot, 8);
    Put(data, w, 152, [|r.owners| % 256]);
    w := w + [|r.owners| % 256];
    Put(data, w, 153, [|r.movements| % 256]);
    w := w + [|r.movements| % 256];
    Put(data, w, 154, [|r.args| % 256]);
  }

  method WriteOwners(r: Receipt, data: array<byte>)
    requires Sized(r) && data.Length == LengthOf(r)
    requires data[..RECEIPT_HEADER] == HeaderBytes(r)
    modifies data
    ensures var mv := RECEIPT_HEADER + (|r.owners| - 1) * OWNER_SIZE;
            data[..mv] == HeaderBytes(r) + OwnersBytes(r)
  {
    ghost var parts := r.owners[1..];
    ghost var written := HeaderBytes(r);
    for i := 0 to |r.owners| - 1
      invariant written == HeaderBytes(r) + Flat(parts[..i]) && |written| == RECEIPT_HEADER + i * OWNER_SIZE
      invariant data[..RECEIPT_HEADER + i * OWNER_SIZE] == written
    {
      Put(data, written, RECEIPT_HEADER + i * OWNER_SIZE, r.owners[i + 1]);
      assert parts[..i + 1] == parts[..i] + [r.owners[i + 1]];
      FlatAppend(parts[..i], r.owners[i + 1]);
      written := written + r.owners[i + 1];
    }
    assert parts[..|r.owners| - 1] == parts;
  }

  method PutMovement(data: array<byte>, ghost written: seq<byte>, at: nat, m: Movement)
    requires at == |written| && at + MOVEMENT_SIZE <= data.Length && data[..at] == written && |m.mint| == KEY_SIZE
    modifies data
    ensures data[..at + MOVEMENT_SIZE] == written + MovementBytes(m)
  {
    Put(data, written, at, m.mint);
    Put(data, written + m.mint, at + 32, ToLe(m.amount, 8));
    Put(data, written + m.mint + ToLe(m.amount, 8), at + 40, [m.src]);
    Put(data, written + m.mint + ToLe(m.amount, 8) + [m.src], at + 41, [m.dst]);
  }

  method WriteMovements(r: Receipt, data: array<byte>)
    requires Sized(r) && data.Length == LengthOf(r)
    requires data[..RECEIPT_HEADER + (|r.owners| - 1) * OWNER_SIZE] == HeaderBytes(r) + OwnersBytes(r)
    modifies data
    ensures var ao := RECEIPT_HEADER + (|r.owners| - 1) * OWNER_SIZE + |r.movements| * MOVEMENT_SIZE;
            data[..ao] == HeaderBytes(r) + OwnersBytes(r) + MovementsBytes(r)
  {
    var mv := RECEIPT_HEADER + (|r.owners| - 1) * OWNER_SIZE;
    ghost var parts := MovementParts(r.movements);
    ghost var before := HeaderBytes(r) + OwnersBytes(r);
    ghost var written := before;
    for i := 0 to |r.movements|
      invariant written == before + Flat(parts[..i]) && |written| == mv + i * MOVEMENT_SIZE
      invariant data[..mv + i * MOVEMENT_SIZE] == written
    {
      PutMovement(data, written, mv + i * MOVEMENT_SIZE, r.movements[i]);
      assert parts[..i + 1] == parts[..i] + [MovementBytes(r.movements[i])];
      FlatAppend(parts[..i], MovementBytes(r.movements[i]));
      written := written + MovementBytes(r.movements[i]);
    }
    assert parts[..|r.movements|] == parts;
  }

  method ReadOwners(data: array<byte>, n: nat) returns (owners: seq<Key>)
    requires RECEIPT_HEADER + n * OWNER_SIZE <= data.Length
    ensures owners == OwnersOf(data[..], n)
  {
    ghost var bytes := data[..];
    owners := [data[40..72]];
    for i := 0 to n
      invariant |owners| == i + 1 && owners[0] == KeyAt(bytes, 40)
      invariant forall j :: 0 <= j < i ==> owners[j + 1] == OwnerAt(bytes, j)
    {
      var at := RECEIPT_HEADER + i * OWNER_SIZE;
      assert data[at..at + 32] == KeyAt(bytes, at);
      owners := owners + [data[at..at + 32]];
    }
  }

  /** The movements, each with its indices checked as it is read. */
  method ReadMovements(data: array<byte>, mv: nat, count: nat, n: nat) returns (r: Result<seq<Movement>>)
    requires mv + count * MOVEMENT_SIZE <= data.Length
    ensures var ms := MovementsOf(data[..], mv, count);
            r == if InRange(ms, n) then Success(ms) else Failure(NoAuthorization)
  {
    ghost var bytes := data[..];
    var movements: seq<Movement> := [];
    for i := 0 to count
      invariant |movements| == i && InRange(movements, n)
      invariant forall j :: 0 <= j < i ==> movements[j] == MovementAt(bytes, mv, j)
    {
      var o := mv + i * MOVEMENT_SIZE;
      assert data[o..o + 32] == KeyAt(bytes, o) && data[o + 32..o + 40] == Field(bytes, o + 32, 8);
      var m := Movement(data[o..o + 32], U64(data[o + 32..o + 40]), data[o + 40], data[o + 41]);
      assert m == MovementAt(bytes, mv, i) == MovementsOf(bytes, mv, count)[i];
      if m.src >= n || m.dst >= n {
        return Failure(NoAuthorization);
      }
      movements := movements + [m];
    }
    assert movements == MovementsOf(bytes, mv, count);
    return Success(movements);
  }

  method Read(data: array<byte>) returns (r: Result<Receipt>)
    ensures r == ReadReceipt(data[..])
  {
    if data.Length < RECEIPT_HEADER {
      return Failure(NoAuthorization);
    }
    if data[0..8] != RECEIPT_DISCRIMINATOR {
      return Failure(NotAReceipt);
    }
    var n, count, argsLen := data[152] as nat, data[153] as nat, data[154] as nat;
    if n < 1 {
      return Failure(NoAuthorization);
    }
    var mv := RECEIPT_HEADER + (n - 1) * OWNER_SIZE;
    if data.Length < mv + count * MOVEMENT_SIZE + argsLen {
      return Failure(NoAuthorization);
    }
    var owners := ReadOwners(data, n - 1);
    var movements :- ReadMovements(data, mv, count, n);
    var ao := mv + count * MOVEMENT_SIZE;
    return Success(Receipt(
      data[8..40], owners, data[72..104], data[104..136], data[136..144], U64(data[144..152]), movements,
          data[ao..ao + argsLen]));
  }

  // ---- Round trips ----

  lemma HeaderFields(r: Receipt)
    requires Sized(r)
    ensures var h := HeaderBytes(r);
            && Field(h, 0, 8) == RECEIPT_DISCRIMINATOR
            && KeyAt(h, 8) == r.consenter && KeyAt(h, 40) == r.owners[0] && KeyAt(h, 72) == r.authority
            && KeyAt(h, 104) == r.member && Field(h, 136, 8) == r.callbackDisc && U64(Field(h, 144, 8)) == r.slot
            && h[152] == |r.owners| % 256 && h[153] == |r.movements| % 256 && h[154] == |r.args| % 256
  {
    U64RoundTrips(r.slot, ToLe(r.slot, 8));
    var h := HeaderBytes(r);
    FieldOf(h, h[..104], r.member, h[136..]);
    FieldOf(h, h[..136], r.callbackDisc, h[144..]);
    FieldOf(h, h[..144], ToLe(r.slot, 8), h[152..]);
  }

  lemma MovementFields(m: Movement, b: seq<byte>)
    requires |m.mint| == KEY_SIZE && b == MovementBytes(m)
    ensures Movement(KeyAt(b, 0), U64(Field(b, 32, 8)), b[40], b[41]) == m
  {
    U64RoundTrips(m.amount, ToLe(m.amount, 8));
    assert Field(b, 32, 8) == ToLe(m.amount, 8);
  }

  lemma OwnersReadBack(r: Receipt, data: seq<byte>)
    requires Sized(r) && data == ReceiptBytes(r)
    ensures OwnersOf(data, |r.owners| - 1) == r.owners
  {
    var parts := r.owners[1..];
    HeaderFields(r);
    assert KeyAt(data, 40) == KeyAt(HeaderBytes(r), 40);
    forall i | 0 <= i < |r.owners| - 1
      ensures OwnerAt(data, i) == r.owners[i + 1]
    {
      FlatSlice(parts, OWNER_SIZE, i);
      assert KeyAt(data, RECEIPT_HEADER + i * OWNER_SIZE) == Flat(parts)[i * OWNER_SIZE..i * OWNER_SIZE + OWNER_SIZE];
    }
  }

  lemma MovementsReadBack(r: Receipt, data: seq<byte>, mv: nat)
    requires Sized(r) && data == ReceiptBytes(r)
    requires mv == RECEIPT_HEADER + (|r.owners| - 1) * OWNER_SIZE
    ensures MovementsOf(data, mv, |r.movements|) == r.movements
  {
    var parts := MovementParts(r.movements);
    forall i | 0 <= i < |r.movements|
      ensures MovementAt(data, mv, i) == r.movements[i]
    {
      var o := mv + i * MOVEMENT_SIZE;
      FlatSlice(parts, MOVEMENT_SIZE, i);
      assert Field(data, o, MOVEMENT_SIZE) == parts[i];
      MovementFields(r.movements[i], parts[i]);
      FieldOfField(data, o, MOVEMENT_SIZE, parts[i], 0, 32);
      FieldOfField(data, o, MOVEMENT_SIZE, parts[i], 32, 8);
    }
  }

  /** Reading inverts writing for every receipt `create_receipt` can admit. */
  lemma ReadInvertsWrite(r: Receipt)
    requires Admitted(r) && Sized(r)
    ensures ReadReceipt(ReceiptBytes(r)) == Success(r)
  {
    var data := ReceiptBytes(r);
    var mv := RECEIPT_HEADER + (|r.owners| - 1) * OWNER_SIZE;
    HeaderReadBack(data, r);
    OwnersReadBack(r, data);
    MovementsReadBack(r, data, mv);
    ArgsReadBack(r, data, mv + |r.movements| * MOVEMENT_SIZE);
    ReadFromFields(data, r, mv);
  }

  lemma HeaderReadBack(data: seq<byte>, r: Receipt)
    requires Admitted(r) && Sized(r) && |data| >= RECEIPT_HEADER && data[..RECEIPT_HEADER] == HeaderBytes(r)
    ensures Field(data, 0, 8) == RECEIPT_DISCRIMINATOR && KeyAt(data, 8) == r.consenter
    ensures KeyAt(data, 72) == r.authority
    ensures KeyAt(data, 104) == r.member && Field(data, 136, 8) == r.callbackDisc && U64(Field(data, 144, 8)) == r.slot
    ensures data[152] == |r.owners| && data[153] == |r.movements| && data[154] == |r.args|
  {
    HeaderFields(r);
    HeaderOfWhole(data, HeaderBytes(r));
  }

  lemma ReadFromFields(data: seq<byte>, r: Receipt, mv: nat)
    requires Admitted(r) && Sized(r) && |data| == LengthOf(r) && mv == RECEIPT_HEADER + (|r.owners| - 1) * OWNER_SIZE
    requires Field(data, 0, 8) == RECEIPT_DISCRIMINATOR && KeyAt(data, 8) == r.consenter
    requires KeyAt(data, 72) == r.authority
    requires KeyAt(data, 104) == r.member && Field(data, 136, 8) == r.callbackDisc && U64(Field(data, 144, 8)) == r.slot
    requires data[152] == |r.owners| && data[153] == |r.movements| && data[154] == |r.args|
    requires OwnersOf(data, |r.owners| - 1) == r.owners && MovementsOf(data, mv, |r.movements|) == r.movements
    requires Field(data, mv + |r.movements| * MOVEMENT_SIZE, |r.args|) == r.args
    ensures ReadReceipt(data) == Success(r)
  {
  }

  lemma ArgsReadBack(r: Receipt, data: seq<byte>, ao: nat)
    requires Sized(r) && data == ReceiptBytes(r)
    requires ao == RECEIPT_HEADER + (|r.owners| - 1) * OWNER_SIZE + |r.movements| * MOVEMENT_SIZE
    ensures Field(data, ao, |r.args|) == r.args
  {
    FieldOf(data, HeaderBytes(r) + OwnersBytes(r) + MovementsBytes(r), r.args, []);
  }

  /** The header's fields are the same read from the header or from the whole account. */
  lemma HeaderOfWhole(data: seq<byte>, h: seq<byte>)
    requires |data| >= RECEIPT_HEADER && h == data[..RECEIPT_HEADER]
    ensures Field(data, 0, 8) == Field(h, 0, 8) && KeyAt(data, 8) == KeyAt(h, 8) && KeyAt(data, 40) == KeyAt(h, 40)
    ensures KeyAt(data, 72) == KeyAt(h, 72) && KeyAt(data, 104) == KeyAt(h, 104)
    ensures Field(data, 136, 8) == Field(h, 136, 8) && Field(data, 144, 8) == Field(h, 144, 8)
    ensures data[152] == h[152] && data[153] == h[153] && data[154] == h[154]
  {
  }

  lemma OwnersWrittenBack(data: seq<byte>, n: nat)
    requires RECEIPT_HEADER + n * OWNER_SIZE <= |data|
    ensures Flat(OwnersOf(data, n)[1..]) == data[RECEIPT_HEADER..RECEIPT_HEADER + n * OWNER_SIZE]
  {
    FlatOfSlices(data, RECEIPT_HEADER, OWNER_SIZE, OwnersOf(data, n)[1..]);
  }

  lemma MovementInParts(data: seq<byte>, o: nat)
    requires o + MOVEMENT_SIZE <= |data|
    ensures data[o..o + MOVEMENT_SIZE] == KeyAt(data, o) + Field(data, o + 32, 8) + [data[o + 40]] + [data[o + 41]]
  {
    var b := data[o..o + MOVEMENT_SIZE];
    assert b == b[..32] + b[32..40] + [b[40]] + [b[41]];
    FieldOfField(data, o, MOVEMENT_SIZE, b, 0, 32);
    FieldOfField(data, o, MOVEMENT_SIZE, b, 32, 8);
  }

  lemma MovementsWrittenBack(data: seq<byte>, mv: nat, n: nat)
    requires mv + n * MOVEMENT_SIZE <= |data|
    ensures Flat(MovementParts(MovementsOf(data, mv, n))) == data[mv..mv + n * MOVEMENT_SIZE]
  {
    var parts := MovementParts(MovementsOf(data, mv, n));
    forall i | 0 <= i < n
      ensures parts[i] == data[mv + i * MOVEMENT_SIZE..mv + i * MOVEMENT_SIZE + MOVEMENT_SIZE]
    {
      var o := mv + i * MOVEMENT_SIZE;
      U64RoundTrips(0, Field(data, o + 32, 8));
      MovementInParts(data, o);
    }
    FlatOfSlices(data, mv, MOVEMENT_SIZE, parts);
  }

  lemma HeaderWrittenBack(data: seq<byte>, r: Receipt)
    requires ReadReceipt(data) == Success(r)
    ensures HeaderBytes(r) == data[..RECEIPT_HEADER]
  {
    U64RoundTrips(0, Field(data, 144, 8));
    HeaderInParts(data);
    ReadGivesHeader(data, r);
  }

  lemma ReadGivesHeader(data: seq<byte>, r: Receipt)
    requires ReadReceipt(data) == Success(r)
    ensures |data| >= RECEIPT_HEADER && Field(data, 0, 8) == RECEIPT_DISCRIMINATOR
    ensures r.consenter == KeyAt(data, 8) && r.owners != [] && r.owners[0] == KeyAt(data, 40)
    ensures r.authority == KeyAt(data, 72) && r.member == KeyAt(data, 104)
    ensures r.callbackDisc == Field(data, 136, 8) && r.slot == U64(Field(data, 144, 8))
    ensures |r.owners| == data[152] && |r.movements| == data[153] && |r.args| == data[154]
  {
  }

  lemma HeaderInParts(data: seq<byte>)
    requires |data| >= RECEIPT_HEADER
    ensures data[..RECEIPT_HEADER]
         == data[0..8] + data[8..40] + data[40..72] + data[72..104] + data[104..136] + data[136..144] + data[144..152]
            + [data[152]] + [data[153]] + [data[154]]
  {
  }

  lemma ReadGives(data: seq<byte>, r: Receipt)
    requires ReadReceipt(data) == Success(r)
    ensures Sized(r) && |data| >= LengthOf(r)
    ensures var n := |r.owners| - 1; var mv := RECEIPT_HEADER + n * OWNER_SIZE; var ao
              := mv + |r.movements| * MOVEMENT_SIZE;
            && r.owners == OwnersOf(data, n) && r.movements == MovementsOf(data, mv, |r.movements|)
            && r.args == data[ao..ao + |r.args|]
  {
  }

  /** Writing inverts reading: an account of exactly its receipt's length is reproduced byte for byte. */
  lemma WriteInvertsRead(data: seq<byte>, r: Receipt)
    requires ReadReceipt(data) == Success(r)
    ensures Sized(r) && |data| >= LengthOf(r)
    ensures ReceiptBytes(r) == data[..LengthOf(r)]
  {
    ReadGives(data, r);
    HeaderWrittenBack(data, r);
    BodyWrittenBack(data, r);
  }

  lemma BodyWrittenBack(data: seq<byte>, r: Receipt)
    requires Sized(r) && |data| >= LengthOf(r) && HeaderBytes(r) == data[..RECEIPT_HEADER]
    requires var n := |r.owners| - 1; var mv := RECEIPT_HEADER + n * OWNER_SIZE; var ao
               := mv + |r.movements| * MOVEMENT_SIZE;
             && r.owners == OwnersOf(data, n) && r.movements == MovementsOf(data, mv, |r.movements|)
             && r.args == data[ao..ao + |r.args|]
    ensures ReceiptBytes(r) == data[..LengthOf(r)]
  {
    var mv := RECEIPT_HEADER + (|r.owners| - 1) * OWNER_SIZE;
    var ao := mv + |r.movements| * MOVEMENT_SIZE;
    OwnersPart(data, r, mv);
    MovementsPart(data, r, mv, ao);
    PartsTogether(data, r, mv, ao);
  }

  lemma OwnersPart(data: seq<byte>, r: Receipt, mv: nat)
    requires Sized(r) && mv == RECEIPT_HEADER + (|r.owners| - 1) * OWNER_SIZE <= |data|
    requires r.owners == OwnersOf(data, |r.owners| - 1)
    ensures OwnersBytes(r) == data[RECEIPT_HEADER..mv]
  {
    OwnersWrittenBack(data, |r.owners| - 1);
  }

  lemma MovementsPart(data: seq<byte>, r: Receipt, mv: nat, ao: nat)
    requires Sized(r) && ao == mv + |r.movements| * MOVEMENT_SIZE <= |data|
    requires r.movements == MovementsOf(data, mv, |r.movements|)
    ensures MovementsBytes(r) == data[mv..ao]
  {
    MovementsWrittenBack(data, mv, |r.movements|);
  }

  lemma PartsTogether(data: seq<byte>, r: Receipt, mv: nat, ao: nat)
    requires Sized(r) && RECEIPT_HEADER <= mv <= ao && ao + |r.args| == LengthOf(r) <= |data|
    requires HeaderBytes(r) == data[..RECEIPT_HEADER] && OwnersBytes(r) == data[RECEIPT_HEADER..mv]
    requires MovementsBytes(r) == data[mv..ao] && r.args == data[ao..ao + |r.args|]
    ensures ReceiptBytes(r) == data[..LengthOf(r)]
  {
    InFourParts(data, RECEIPT_HEADER, mv, ao, ao + |r.args|);
  }

  lemma InFourParts(data: seq<byte>, i: nat, j: nat, k: nat, l: nat)
    requires i <= j <= k <= l <= |data|
    ensures data[..i] + data[i..j] + data[j..k] + data[k..l] == data[..l]
  {
  }

  // ---- What is not a receipt ----

  /** A killed receipt is no longer read as one, yet keeps the slot and the authority it was created
      with: it can be neither settled nor taken for an older receipt's debris. */
  lemma KilledIsInert(r: Receipt)
    requires Admitted(r) && Sized(r)
    ensures ReadReceipt(Killed(ReceiptBytes(r))) == Failure(NotAReceipt)
    ensures SlotOf(Killed(ReceiptBytes(r))) == r.slot && AuthorityOf(Killed(ReceiptBytes(r))) == r.authority
  {
    var data := ReceiptBytes(r);
    HeaderFields(r);
    HeaderOfWhole(data, HeaderBytes(r));
    assert Field(Killed(data), 0, 8)[0] == 0;
    assert Field(Killed(data), 144, 8) == Field(data, 144, 8) && KeyAt(Killed(data), 72) == KeyAt(data, 72);
  }

  /** Nothing that begins otherwise is a receipt. */
  lemma OnlyReceiptsAreRead(data: seq<byte>)
    requires ReadReceipt(data).Success?
    ensures |data| >= 8 && data[..8] == RECEIPT_DISCRIMINATOR
  {
    assert Field(data, 0, 8) == data[..8];
  }
}
