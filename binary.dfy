/**
 * The little-endian binary reader and writer the save-file codec is built on.
 *
 * A reader is the whole input `data` plus a cursor `pos`. Seeking may move the
 * cursor past the end of the input (a file or an in-memory cursor allows that);
 * only a read that needs bytes past the end fails, with `UnexpectedEof`.
 * Every parse returns the value read together with the cursor after it.
 */
module Binary {
  import opened Wrappers

  type byte = b: int | 0 <= b < 0x100
  type u16 = x: int | 0 <= x < 0x1_0000
  type u32 = x: int | 0 <= x < 0x1_0000_0000
  type u64 = x: int | 0 <= x < 0x1_0000_0000_0000_0000
  type i64 = x: int | -0x8000_0000_0000_0000 <= x < 0x8000_0000_0000_0000

  /** The fields whose decoding carries a range assertion. */
  datatype Field =
    | LevelField
    | SymbolField
    | ScarfField
    | CollectedSymbolsField
    | SteamIdField
    | CompanionSymbolField

  /** Why a decode stopped: the input ended, or a field failed its assertion. */
  datatype DecodeError =
    | UnexpectedEof
    | AssertFailed(field: Field, value: int)

  /** A decoded value and the cursor position just after it. */
  datatype Read<+T> = Read(value: T, next: nat)

  type Parsed<T> = Result<Read<T>, DecodeError>

  function Max(a: int, b: int): int {
    if a < b then b else a
  }

  function Pow256(n: nat): (p: nat)
    ensures p > 0
  {
    if n == 0 then 1 else 256 * Pow256(n - 1)
  }

  /** The unsigned number whose little-endian encoding is `bs`. */
  function LeValue(bs: seq<byte>): (v: nat)
    ensures v < Pow256(|bs|)
  {
    if bs == [] then 0 else bs[0] + 256 * LeValue(bs[1..])
  }

  /** The `width`-byte little-endian encoding of `x` (the low `width` bytes). */
  function LeBytes(x: nat, width: nat): (bs: seq<byte>)
    ensures |bs| == width
  {
    if width == 0 then [] else [x % 256] + LeBytes(x / 256, width - 1)
  }

  /** Decoding an encoding gives back every number that fits in the width. */
  lemma {:induction false} LeRoundTrip(x: nat, width: nat)
    requires x < Pow256(width)
    ensures LeValue(LeBytes(x, width)) == x
  {
    if width > 0 {
      LeRoundTrip(x / 256, width - 1);
      assert LeBytes(x, width)[1..] == LeBytes(x / 256, width - 1);
    }
  }

  /** Encoding a decoded value gives back the very same bytes. */
  lemma {:induction false} LeBytesOfValue(bs: seq<byte>)
    ensures LeBytes(LeValue(bs), |bs|) == bs
  {
    if bs != [] {
      LeBytesOfValue(bs[1..]);
      var v := LeValue(bs);
      assert v % 256 == bs[0] && v / 256 == LeValue(bs[1..]);
    }
  }

  /** Two's complement view of a 64-bit pattern. */
  function ToI64(v: u64): i64 {
    if v < 0x8000_0000_0000_0000 then v else v - 0x1_0000_0000_0000_0000
  }

  /** The 64-bit pattern of a two's complement value. */
  function FromI64(x: i64): u64 {
    if x >= 0 then x else x + 0x1_0000_0000_0000_0000
  }

  /** Bit `i` of `x`, that is `(x >> i) & 1 == 1`. */
  function Bit(x: nat, i: nat): bool {
    if i == 0 then x % 2 == 1 else Bit(x / 2, i - 1)
  }

  /** A number below 2^n is determined by its n low bits. */
  lemma {:induction false} BitsDetermineValue(a: nat, b: nat, n: nat)
    requires a < Pow2(n) && b < Pow2(n)
    requires forall i | 0 <= i < n :: Bit(a, i) == Bit(b, i)
    ensures a == b
  {
    if n > 0 {
      assert Bit(a, 0) == Bit(b, 0);
      forall i | 0 <= i < n - 1 ensures Bit(a / 2, i) == Bit(b / 2, i) {
        assert Bit(a, i + 1) == Bit(b, i + 1);
      }
      BitsDetermineValue(a / 2, b / 2, n - 1);
    }
  }

  function Pow2(n: nat): (p: nat)
    ensures p > 0
  {
    if n == 0 then 1 else 2 * Pow2(n - 1)
  }

  function Zeros(n: nat): (z: seq<byte>)
    ensures |z| == n && forall k | 0 <= k < n :: z[k] == 0
  {
    seq(n, _ => 0)
  }

  predicate NulFree(s: seq<byte>) {
    forall k | 0 <= k < |s| :: s[k] != 0
  }

  /** `count` raw bytes (a `Vec<u8>` read with a fixed count). */
  function ParseBytes(data: seq<byte>, pos: nat, count: nat): Parsed<seq<byte>> {
    if pos + count <= |data| then Ok(Read(data[pos..pos + count], pos + count)) else Err(UnexpectedEof)
  }

  /** A little-endian unsigned integer of `width` bytes. */
  function ParseUInt(data: seq<byte>, pos: nat, width: nat): Parsed<nat> {
    if pos + width <= |data| then Ok(Read(LeValue(data[pos..pos + width]), pos + width)) else Err(UnexpectedEof)
  }

  function ParseU8(data: seq<byte>, pos: nat): Parsed<byte> {
    if pos < |data| then Ok(Read(data[pos], pos + 1)) else Err(UnexpectedEof)
  }

  function ParseU16(data: seq<byte>, pos: nat): Parsed<u16> {
    var r :- ParseUInt(data, pos, 2);
    Ok(Read(r.value, r.next))
  }

  /** A `u32`, with its four bytes combined directly (the most frequent field width). */
  function ParseU32(data: seq<byte>, pos: nat): Parsed<u32> {
    if pos + 4 <= |data| then
      var v: int := data[pos] as int + 0x100 * data[pos + 1] as int
                    + 0x1_0000 * data[pos + 2] as int + 0x100_0000 * data[pos + 3] as int;
      Ok(Read(v, pos + 4))
    else Err(UnexpectedEof)
  }

  /** The direct `u32` decode is the 4-byte little-endian decode. */
  lemma ParseU32IsLe(data: seq<byte>, pos: nat)
    ensures ParseU32(data, pos) == ParseUInt(data, pos, 4)
  {
    if pos + 4 <= |data| {
      var bs := data[pos..pos + 4];
      assert bs[1..][1..][1..][1..] == [];
      assert LeValue(bs) == bs[0] + 0x100 * LeValue(bs[1..]);
      assert LeValue(bs[1..]) == bs[1] + 0x100 * LeValue(bs[1..][1..]);
      assert LeValue(bs[1..][1..]) == bs[2] + 0x100 * LeValue(bs[1..][1..][1..]);
    }
  }

  /** Reading a `u32` back from its encoding. */
  lemma ParseU32Of(data: seq<byte>, pos: nat, x: u32)
    requires pos + 4 <= |data| && data[pos..pos + 4] == LeBytes(x, 4)
    ensures ParseU32(data, pos) == Ok(Read(x, pos + 4))
  {
    ParseU32IsLe(data, pos);
    ParseUIntOf(data, pos, x, 4);
  }

  function ParseU64(data: seq<byte>, pos: nat): Parsed<u64> {
    var r :- ParseUInt(data, pos, 8);
    Ok(Read(r.value, r.next))
  }

  /** Everything from the cursor to the end of the input (`until_eof`). */
  function ParseRest(data: seq<byte>, pos: nat): seq<byte> {
    if pos <= |data| then data[pos..] else []
  }

  /** The first NUL byte at or after `pos`: where a NUL-terminated string read stops. */
  function FindNul(data: seq<byte>, pos: nat): (r: Option<nat>)
    ensures r.Some? ==> pos <= r.value < |data|
    decreases |data| - pos
  {
    if pos >= |data| then None
    else if data[pos] == 0 then Some(pos)
    else FindNul(data, pos + 1)
  }

  /** `FindNul` finds a NUL with none before it, and finds nothing only when there is no NUL. */
  lemma {:induction false} FindNulFirst(data: seq<byte>, pos: nat)
    ensures FindNul(data, pos).Some? ==>
              data[FindNul(data, pos).value] == 0
              && forall k | pos <= k < FindNul(data, pos).value :: data[k] != 0
    ensures FindNul(data, pos).None? ==> forall k | pos <= k < |data| :: data[k] != 0
    decreases |data| - pos
  {
    if pos < |data| && data[pos] != 0 {
      FindNulFirst(data, pos + 1);
    }
  }

  /** A NUL at `q` with none between `pos` and `q` is the one `FindNul` finds. */
  lemma {:induction false} FindNulAt(data: seq<byte>, pos: nat, q: nat)
    requires pos <= q < |data| && data[q] == 0
    requires forall k | pos <= k < q :: data[k] != 0
    ensures FindNul(data, pos) == Some(q)
    decreases q - pos
  {
    if pos < q {
      FindNulAt(data, pos + 1, q);
    }
  }

  /**
   * A NUL-terminated name in a field padded to `width` bytes. The name is every
   * byte before the first NUL, which may lie beyond the field; the cursor ends
   * after the NUL or at the end of the field, whichever is further. No NUL before
   * the end of the input is an error.
   */
  function ParsePaddedName(data: seq<byte>, pos: nat, width: nat): (r: Parsed<seq<byte>>)
    ensures r.Ok? <==> FindNul(data, pos).Some?
    ensures r.Ok? ==> pos + |r.value.value| < |data|
    ensures r.Ok? ==> r.value.next == Max(pos + |r.value.value| + 1, pos + width)
  {
    match FindNul(data, pos)
    case None => Err(UnexpectedEof)
    case Some(q) => Ok(Read(data[pos..q], Max(q + 1, pos + width)))
  }

  /** A name read from a padded field never contains a NUL. */
  lemma PaddedNameNulFree(data: seq<byte>, pos: nat, width: nat)
    ensures ParsePaddedName(data, pos, width).Ok? ==> NulFree(ParsePaddedName(data, pos, width).value.value)
  {
    FindNulFirst(data, pos);
  }

  /** A name written NUL-terminated and zero-filled up to `width` bytes. */
  function PaddedName(name: seq<byte>, width: nat): (bs: seq<byte>)
    ensures |bs| == Max(|name| + 1, width)
  {
    name + [0] + Zeros(if |name| + 1 < width then width - |name| - 1 else 0)
  }

  /** A short NUL-free name is read back from its padded field, and the cursor lands at the field's end. */
  lemma PaddedNameRoundTrip(name: seq<byte>, width: nat, data: seq<byte>, pos: nat)
    requires NulFree(name) && |name| < width
    requires pos + width <= |data| && data[pos..pos + width] == PaddedName(name, width)
    ensures ParsePaddedName(data, pos, width) == Ok(Read(name, pos + width))
  {
    var q := pos + |name|;
    assert data[q] == PaddedName(name, width)[|name|] == 0;
    forall k | pos <= k < q ensures data[k] != 0 {
      assert data[k] == PaddedName(name, width)[k - pos] == name[k - pos];
    }
    FindNulAt(data, pos, q);
    calc {
      data[pos..q];
      data[pos..pos + width][..|name|];
      PaddedName(name, width)[..|name|];
      name;
    }
  }

  /** Reading a little-endian integer back from its encoding. */
  lemma ParseUIntOf(data: seq<byte>, pos: nat, x: nat, width: nat)
    requires x < Pow256(width)
    requires pos + width <= |data| && data[pos..pos + width] == LeBytes(x, width)
    ensures ParseUInt(data, pos, width) == Ok(Read(x, pos + width))
  {
    LeRoundTrip(x, width);
  }

  /** Prefixing a parsed list with entries already read. */
  function Prepend<T>(prefix: seq<T>, r: Parsed<seq<T>>): (p: Parsed<seq<T>>)
    ensures p.Ok? <==> r.Ok?
    ensures p.Ok? ==> p.value.next == r.value.next
  {
    match r
    case Ok(rd) => Ok(Read(prefix + rd.value, rd.next))
    case Err(e) => Err(e)
  }

  /** Nothing prefixed changes nothing; prefixing twice is prefixing the concatenation. */
  lemma PrependLaws<T>(a: seq<T>, b: seq<T>, r: Parsed<seq<T>>)
    ensures Prepend([], r) == r
    ensures Prepend(a, Prepend(b, r)) == Prepend(a + b, r)
  {
    if r.Ok? {
      assert [] + r.value.value == r.value.value;
      assert a + (b + r.value.value) == (a + b) + r.value.value;
    }
  }

  /** The two halves of a slice that holds a concatenation. */
  lemma SliceSplit(data: seq<byte>, pos: nat, a: seq<byte>, b: seq<byte>)
    requires pos + |a| + |b| <= |data| && data[pos..pos + |a| + |b|] == a + b
    ensures data[pos..pos + |a|] == a
    ensures data[pos + |a|..pos + |a| + |b|] == b
  {
    assert data[pos..pos + |a|] == data[pos..pos + |a| + |b|][..|a|];
    assert data[pos + |a|..pos + |a| + |b|] == data[pos..pos + |a| + |b|][|a|..];
  }
}
