/** Little-endian integers, fixed-width records laid end to end, and a buffer filled from the front. */
module Bytes {
  import opened Base

  function Pow256(n: nat): nat {
    if n == 0 then 1 else 256 * Pow256(n - 1)
  }

  /** `n` as `width` bytes, least significant first; what does not fit is cut off. */
  function ToLe(n: nat, width: nat): (r: seq<byte>)
    ensures |r| == width
  {
    if width == 0 then [] else [n % 256] + ToLe(n / 256, width - 1)
  }

  function FromLe(b: seq<byte>): nat {
    if b == [] then 0 else b[0] + 256 * FromLe(b[1..])
  }

  lemma {:induction false} FromLeBound(b: seq<byte>)
    ensures FromLe(b) < Pow256(|b|)
  {
    if b != [] {
      FromLeBound(b[1..]);
    }
  }

  lemma {:induction false} FromToLe(n: nat, width: nat)
    requires n < Pow256(width)
    ensures FromLe(ToLe(n, width)) == n
  {
    if width > 0 {
      FromToLe(n / 256, width - 1);
      assert ToLe(n, width)[1..] == ToLe(n / 256, width - 1);
    }
  }

  lemma {:induction false} ToFromLe(b: seq<byte>)
    ensures ToLe(FromLe(b), |b|) == b
  {
    if b != [] {
      ToFromLe(b[1..]);
      assert FromLe(b) % 256 == b[0] && FromLe(b) / 256 == FromLe(b[1..]);
      assert b == [b[0]] + b[1..];
    }
  }

  lemma Widths()
    ensures Pow256(4) == 0x1_0000_0000 && Pow256(8) == MAX_U64 + 1
  {
    assert Pow256(2) == 0x1_0000;
    assert Pow256(3) == 256 * Pow256(2);
    assert Pow256(4) == 256 * Pow256(3);
    assert Pow256(5) == 256 * Pow256(4);
    assert Pow256(6) == 256 * Pow256(5);
    assert Pow256(7) == 256 * Pow256(6);
    assert Pow256(8) == 256 * Pow256(7);
  }

  /** A `u64` field. */
  function U64(b: seq<byte>): u64
    requires |b| == 8
  {
    FromLeBound(b);
    Widths();
    FromLe(b)
  }

  /** The `i64` with the same bits. */
  function Signed(n: u64): i64 {
    if n >= 0x8000_0000_0000_0000 then n - 0x1_0000_0000_0000_0000 else n
  }

  function Unsigned(n: i64): u64 {
    if n < 0 then n + 0x1_0000_0000_0000_0000 else n
  }

  lemma U64RoundTrips(n: u64, b: seq<byte>)
    requires |b| == 8
    ensures U64(ToLe(n, 8)) == n && ToLe(U64(b), 8) == b
  {
    Widths();
    FromToLe(n, 8);
    ToFromLe(b);
  }

  lemma U32RoundTrips(n: nat, b: seq<byte>)
    requires |b| == 4
    ensures n < 0x1_0000_0000 ==> FromLe(ToLe(n, 4)) == n
    ensures FromLe(b) < 0x1_0000_0000 && ToLe(FromLe(b), 4) == b
  {
    Widths();
    FromLeBound(b);
    ToFromLe(b);
    if n < 0x1_0000_0000 {
      FromToLe(n, 4);
    }
  }

  // ---- Records end to end ----

  function Flat(parts: seq<seq<byte>>): seq<byte> {
    if parts == [] then [] else Flat(parts[..|parts| - 1]) + parts[|parts| - 1]
  }

  ghost predicate Wide(parts: seq<seq<byte>>, w: nat) {
    forall i :: 0 <= i < |parts| ==> |parts[i]| == w
  }

  lemma {:induction false} FlatLength(parts: seq<seq<byte>>, w: nat)
    requires Wide(parts, w)
    ensures |Flat(parts)| == |parts| * w
    decreases |parts|
  {
    if parts != [] {
      FlatLength(parts[..|parts| - 1], w);
      assert (|parts| - 1) * w + w == |parts| * w;
    }
  }

  /** Record `i` stands where its index says. */
  lemma {:induction false} FlatSlice(parts: seq<seq<byte>>, w: nat, i: nat)
    requires Wide(parts, w) && i < |parts|
    ensures 0 <= i * w <= i * w + w <= |Flat(parts)| && Flat(parts)[i * w..i * w + w] == parts[i]
    decreases |parts|
  {
    var rest := parts[..|parts| - 1];
    FlatLength(rest, w);
    FlatLength(parts, w);
    if i < |parts| - 1 {
      FlatSlice(rest, w, i);
      assert Flat(parts)[i * w..i * w + w] == Flat(rest)[i * w..i * w + w];
    }
  }

  /** Records cut out of a buffer one after another flatten back to the stretch they came from. */
  lemma {:induction false} FlatOfSlices(data: seq<byte>, at: nat, w: nat, parts: seq<seq<byte>>)
    requires Wide(parts, w) && at + |parts| * w <= |data|
    requires forall i :: 0 <= i < |parts|
               ==> 0 <= i * w && at + i * w + w <= |data| && parts[i] == data[at + i * w..at + i * w + w]
    ensures Flat(parts) == data[at..at + |parts| * w]
    decreases |parts|
  {
    if parts != [] {
      var n := |parts| - 1;
      assert n * w + w == |parts| * w;
      FlatOfSlices(data, at, w, parts[..n]);
      assert data[at..at + n * w] + data[at + n * w..at + n * w + w] == data[at..at + |parts| * w];
    }
  }

  lemma FlatAppend(parts: seq<seq<byte>>, last: seq<byte>)
    ensures Flat(parts + [last]) == Flat(parts) + last
  {
    assert (parts + [last])[..|parts|] == parts;
  }

  // ---- Fields of a buffer ----

  function Field(data: seq<byte>, at: nat, n: nat): (r: seq<byte>)
    requires at + n <= |data|
    ensures |r| == n
  {
    data[at..at + n]
  }

  function KeyAt(data: seq<byte>, at: nat): (k: Key)
    requires at + KEY_SIZE <= |data|
    ensures |k| == KEY_SIZE
  {
    data[at..at + 32]
  }

  lemma FieldOf(data: seq<byte>, before: seq<byte>, field: seq<byte>, after: seq<byte>)
    requires data == before + field + after
    ensures Field(data, |before|, |field|) == field
  {
  }

  /** A field of a record is the same read from the record or from the buffer it lies in. */
  lemma FieldOfField(data: seq<byte>, at: nat, w: nat, b: seq<byte>, o: nat, n: nat)
    requires at + w <= |data| && b == Field(data, at, w) && o + n <= w
    ensures Field(data, at + o, n) == Field(b, o, n)
  {
    forall k | 0 <= k < n
      ensures Field(data, at + o, n)[k] == Field(b, o, n)[k]
    {
      assert data[at..at + w][o + k] == data[at + o + k];
    }
  }

  lemma Adjoining(data: seq<byte>, a: nat, b: nat, c: nat)
    requires a <= b <= c <= |data|
    ensures data[a..b] + data[b..c] == data[a..c]
  {
  }

  // ---- A buffer filled from the front ----

  /** Writes `bytes` where the written part ends. */
  method Put(data: array<byte>, ghost written: seq<byte>, at: nat, bytes: seq<byte>)
    requires at == |written| && at + |bytes| <= data.Length && data[..at] == written
    modifies data
    ensures data[..at + |bytes|] == written + bytes
    ensures forall j :: at + |bytes| <= j < data.Length ==> data[j] == old(data[j])
  {
    for i := 0 to |bytes|
      invariant data[..at + i] == written + bytes[..i]
      invariant forall j :: at + |bytes| <= j < data.Length ==> data[j] == old(data[j])
    {
      data[at + i] := bytes[i];
      assert data[..at + i + 1] == data[..at + i] + [bytes[i]];
      assert bytes[..i + 1] == bytes[..i] + [bytes[i]];
    }
    assert bytes[..|bytes|] == bytes;
  }
}
