/**
 * The murals: one `u16` of flags. Each level owns a run of consecutive bits,
 * as many as it has murals, and the runs follow each other in level order.
 */
module MuralFlags {
  import opened Wrappers
  import opened Binary

  const LEVEL_COUNT: nat := 7
  /** How many murals each level has. */
  const MURAL_COUNT: seq<nat> := [1, 1, 2, 2, 1, 1, 2]
  /** Bits the levels use between them. */
  const USED_BITS: nat := 10

  datatype Murals = Murals(statusFlags: u16)

  /** The sum of `s`, adding its elements from the first to the last. */
  function Sum(s: seq<nat>): nat {
    if s == [] then 0 else Sum(s[..|s| - 1]) + s[|s| - 1]
  }

  /** The first bit of a level's run: the murals of all earlier levels. */
  function FirstBit(level: nat): (b: nat)
    requires level < LEVEL_COUNT
    ensures b == [0, 1, 2, 4, 6, 7, 8][level]
  {
    PrefixSumsUpTo(level);
    Sum(MURAL_COUNT[..level])
  }

  /** The prefix sums of the mural counts: where each level's run starts, and 10 after the last. */
  lemma {:induction false} PrefixSumsUpTo(k: nat)
    requires k <= LEVEL_COUNT
    ensures Sum(MURAL_COUNT[..k]) == [0, 1, 2, 4, 6, 7, 8, 10][k]
  {
    if k > 0 {
      PrefixSumsUpTo(k - 1);
      assert MURAL_COUNT[..k][..k - 1] == MURAL_COUNT[..k - 1];
    }
  }

  /** A (level, index) pair naming one of the ten murals. */
  predicate ValidMural(level: nat, index: nat) {
    level < LEVEL_COUNT && index < MURAL_COUNT[level]
  }

  /**
   * `has_found`: `None` for a level above 6 or an index past the level's murals;
   * otherwise whether the mask `1 << (FirstBit(level) + index)` is set in the flags.
   */
  function HasFound(m: Murals, level: nat, index: nat): (r: Option<bool>)
    ensures r.Some? <==> ValidMural(level, index)
  {
    if level > 6 then None
    else if index >= MURAL_COUNT[level] then None
    else
      var pos := FirstBit(level);
      Some(Bit(m.statusFlags, pos + index))
  }

  /** The bit a valid mural is read from. */
  function MuralBit(level: nat, index: nat): (b: nat)
    requires ValidMural(level, index)
    ensures b < USED_BITS
  {
    FirstBit(level) + index
  }

  /** A valid mural's answer is the bit at its position. */
  lemma HasFoundReadsBit(m: Murals, level: nat, index: nat)
    requires ValidMural(level, index)
    ensures HasFound(m, level, index) == Some(Bit(m.statusFlags, MuralBit(level, index)))
  {
  }

  /** Different murals are read from different bits. */
  lemma MuralBitsDistinct(l1: nat, i1: nat, l2: nat, i2: nat)
    requires ValidMural(l1, i1) && ValidMural(l2, i2)
    requires (l1, i1) != (l2, i2)
    ensures MuralBit(l1, i1) != MuralBit(l2, i2)
  {
  }

  /** Every bit from 0 to 9 belongs to some mural. */
  lemma MuralBitsCover(b: nat)
    requires b < USED_BITS
    ensures exists l: nat, i: nat :: ValidMural(l, i) && MuralBit(l, i) == b
  {
    var pair: (nat, nat) :=
      if b == 0 then (0, 0) else if b == 1 then (1, 0)
      else if b < 4 then (2, b - 2) else if b < 6 then (3, b - 4)
      else if b == 6 then (4, 0) else if b == 7 then (5, 0)
      else (6, b - 8);
    var l, i := pair.0, pair.1;
    assert ValidMural(l, i) && MuralBit(l, i) == b;
  }

  /** Bits 10 to 15 are never read: flags that agree on bits 0..9 answer alike. */
  lemma HighBitsIgnored(a: Murals, b: Murals, level: nat, index: nat)
    requires forall k | 0 <= k < USED_BITS :: Bit(a.statusFlags, k) == Bit(b.statusFlags, k)
    ensures HasFound(a, level, index) == HasFound(b, level, index)
  {
    if ValidMural(level, index) {
      var k := MuralBit(level, index);
      assert Bit(a.statusFlags, k) == Bit(b.statusFlags, k);
    }
  }

  /** Decoding: a little-endian `u16`. */
  function ParseMurals(data: seq<byte>, pos: nat): Parsed<Murals> {
    var flags :- ParseU16(data, pos);
    Ok(Read(Murals(flags.value), flags.next))
  }

  function MuralsBytes(m: Murals): (bs: seq<byte>)
    ensures |bs| == 2
  {
    LeBytes(m.statusFlags, 2)
  }

  /** Murals read back from their encoding. */
  lemma MuralsRoundTrip(m: Murals, data: seq<byte>, pos: nat)
    requires pos + 2 <= |data| && data[pos..pos + 2] == MuralsBytes(m)
    ensures ParseMurals(data, pos) == Ok(Read(m, pos + 2))
  {
    ParseUIntOf(data, pos, m.statusFlags, 2);
  }

  /**
   * `Murals::all`: for each of the seven levels in order, whether each of its
   * murals was found. Every lookup it makes is defined, so its `unwrap` never fails.
   */
  function All(m: Murals): (r: seq<seq<bool>>)
    ensures |r| == LEVEL_COUNT
    ensures forall l | 0 <= l < |r| :: |r[l]| == MURAL_COUNT[l]
    ensures forall l, i | 0 <= l < |r| && 0 <= i < |r[l]| :: HasFound(m, l, i) == Some(r[l][i])
  {
    seq(LEVEL_COUNT, l requires 0 <= l < LEVEL_COUNT =>
      seq(MURAL_COUNT[l], i requires 0 <= i < MURAL_COUNT[l] => HasFound(m, l, i).value))
  }
}
