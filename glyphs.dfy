/**
 * The glyph section: six level blocks, each a status byte whose low bits say
 * which of the level's glyphs were collected, followed by 343 reserved bytes.
 */
module GlyphFlags {
  import opened Wrappers
  import opened Binary

  const LEVEL_COUNT: nat := 6
  const RESERVED_SIZE: nat := 343
  /** One level block: the status byte and the reserved run. */
  const LEVEL_SIZE: nat := 1 + RESERVED_SIZE
  const SECTION_SIZE: nat := LEVEL_COUNT * LEVEL_SIZE
  /** How many glyphs each level has. */
  const GLYPH_COUNT: seq<nat> := [3, 3, 4, 3, 4, 4]

  datatype LevelGlyphs = LevelGlyphs(statusFlags: byte, unused: seq<byte>)

  datatype Glyphs = Glyphs(levels: seq<LevelGlyphs>)

  /** Every level block has its full reserved run, and there are six of them. */
  predicate WellFormed(g: Glyphs) {
    |g.levels| == LEVEL_COUNT
    && forall l | 0 <= l < |g.levels| :: |g.levels[l].unused| == RESERVED_SIZE
  }

  function ParseLevelGlyphs(data: seq<byte>, pos: nat): Parsed<LevelGlyphs> {
    var flags :- ParseU8(data, pos);
    var unused :- ParseBytes(data, flags.next, RESERVED_SIZE);
    Ok(Read(LevelGlyphs(flags.value, unused.value), unused.next))
  }

  /** `count` level blocks read one after another. */
  function ParseGlyphLevels(data: seq<byte>, pos: nat, count: nat): (r: Parsed<seq<LevelGlyphs>>)
    ensures r.Ok? <==> count == 0 || pos + count * LEVEL_SIZE <= |data|
    ensures r.Ok? ==> |r.value.value| == count && r.value.next == pos + count * LEVEL_SIZE
    ensures r.Ok? ==> forall l | 0 <= l < count :: |r.value.value[l].unused| == RESERVED_SIZE
    decreases count
  {
    if count == 0 then Ok(Read([], pos))
    else
      var first :- ParseLevelGlyphs(data, pos);
      var rest :- ParseGlyphLevels(data, first.next, count - 1);
      Ok(Read([first.value] + rest.value, rest.next))
  }

  /** Decoding the section: exactly six blocks, 2064 bytes, failing only when the input is shorter. */
  function ParseGlyphs(data: seq<byte>, pos: nat): (r: Parsed<Glyphs>)
    ensures r.Ok? <==> pos + SECTION_SIZE <= |data|
    ensures r.Ok? ==> WellFormed(r.value.value) && r.value.next == pos + SECTION_SIZE
  {
    var levels :- ParseGlyphLevels(data, pos, LEVEL_COUNT);
    Ok(Read(Glyphs(levels.value), levels.next))
  }

  function LevelGlyphsBytes(g: LevelGlyphs): seq<byte> {
    [g.statusFlags] + g.unused
  }

  function GlyphLevelsBytes(levels: seq<LevelGlyphs>): seq<byte> {
    if levels == [] then [] else LevelGlyphsBytes(levels[0]) + GlyphLevelsBytes(levels[1..])
  }

  /** Blocks with their full reserved run are written in 344 bytes each. */
  lemma {:induction false} GlyphLevelsBytesLength(levels: seq<LevelGlyphs>)
    requires forall l | 0 <= l < |levels| :: |levels[l].unused| == RESERVED_SIZE
    ensures |GlyphLevelsBytes(levels)| == |levels| * LEVEL_SIZE
  {
    if levels != [] {
      GlyphLevelsBytesLength(levels[1..]);
    }
  }

  /** The section written back: each block's status byte and reserved run, in order. */
  function GlyphsBytes(g: Glyphs): seq<byte> {
    GlyphLevelsBytes(g.levels)
  }

  /** A well-formed section is written in exactly 2064 bytes. */
  lemma GlyphsBytesLength(g: Glyphs)
    requires WellFormed(g)
    ensures |GlyphsBytes(g)| == SECTION_SIZE
  {
    GlyphLevelsBytesLength(g.levels);
  }

  lemma {:induction false} GlyphLevelsRoundTrip(levels: seq<LevelGlyphs>, data: seq<byte>, pos: nat)
    requires forall l | 0 <= l < |levels| :: |levels[l].unused| == RESERVED_SIZE
    requires pos + |GlyphLevelsBytes(levels)| <= |data|
    requires data[pos..pos + |GlyphLevelsBytes(levels)|] == GlyphLevelsBytes(levels)
    ensures ParseGlyphLevels(data, pos, |levels|) == Ok(Read(levels, pos + |GlyphLevelsBytes(levels)|))
  {
    if levels != [] {
      var end := pos + |GlyphLevelsBytes(levels)|;
      GlyphLevelsSplit(levels, data, pos);
      GlyphLevelsRoundTrip(levels[1..], data, pos + LEVEL_SIZE);
      assert |levels[1..]| == |levels| - 1;
      GlyphLevelsCons(data, pos, |levels|, levels[0], levels[1..], end);
      assert [levels[0]] + levels[1..] == levels;
    }
  }

  /** The first written block reads back, and the others follow it. */
  lemma GlyphLevelsSplit(levels: seq<LevelGlyphs>, data: seq<byte>, pos: nat)
    requires levels != [] && |levels[0].unused| == RESERVED_SIZE
    requires pos + |GlyphLevelsBytes(levels)| <= |data|
    requires data[pos..pos + |GlyphLevelsBytes(levels)|] == GlyphLevelsBytes(levels)
    ensures ParseLevelGlyphs(data, pos) == Ok(Read(levels[0], pos + LEVEL_SIZE))
    ensures |GlyphLevelsBytes(levels)| == LEVEL_SIZE + |GlyphLevelsBytes(levels[1..])|
    ensures data[pos + LEVEL_SIZE..pos + |GlyphLevelsBytes(levels)|] == GlyphLevelsBytes(levels[1..])
  {
    SliceSplit(data, pos, LevelGlyphsBytes(levels[0]), GlyphLevelsBytes(levels[1..]));
    LevelGlyphsAt(levels[0], data, pos);
  }

  /** One written block reads back as itself. */
  lemma LevelGlyphsAt(g: LevelGlyphs, data: seq<byte>, pos: nat)
    requires |g.unused| == RESERVED_SIZE
    requires pos + LEVEL_SIZE <= |data| && data[pos..pos + LEVEL_SIZE] == LevelGlyphsBytes(g)
    ensures ParseLevelGlyphs(data, pos) == Ok(Read(g, pos + LEVEL_SIZE))
  {
    SliceSplit(data, pos, [g.statusFlags], g.unused);
    assert data[pos] == data[pos..pos + 1][0];
  }

  lemma GlyphLevelsCons(data: seq<byte>, pos: nat, count: nat, g: LevelGlyphs, rest: seq<LevelGlyphs>, end: nat)
    requires count > 0
    requires ParseLevelGlyphs(data, pos) == Ok(Read(g, pos + LEVEL_SIZE))
    requires ParseGlyphLevels(data, pos + LEVEL_SIZE, count - 1) == Ok(Read(rest, end))
    ensures ParseGlyphLevels(data, pos, count) == Ok(Read([g] + rest, end))
  {
  }

  /** A well-formed section reads back from its own encoding. */
  lemma GlyphsRoundTrip(g: Glyphs, data: seq<byte>, pos: nat)
    requires WellFormed(g)
    requires pos + SECTION_SIZE <= |data| && data[pos..pos + SECTION_SIZE] == GlyphsBytes(g)
    ensures ParseGlyphs(data, pos) == Ok(Read(g, pos + SECTION_SIZE))
  {
    GlyphLevelsBytesLength(g.levels);
    GlyphLevelsRoundTrip(g.levels, data, pos);
  }

  /** Decoding then encoding gives back the very bytes of the section. */
  lemma {:induction false} GlyphLevelsBytesOfParse(data: seq<byte>, pos: nat, count: nat)
    requires pos + count * LEVEL_SIZE <= |data|
    ensures GlyphLevelsBytes(ParseGlyphLevels(data, pos, count).value.value) == data[pos..pos + count * LEVEL_SIZE]
    decreases count
  {
    if count > 0 {
      var levels := ParseGlyphLevels(data, pos, count).value.value;
      GlyphLevelsBytesOfParse(data, pos + LEVEL_SIZE, count - 1);
      assert levels[1..] == ParseGlyphLevels(data, pos + LEVEL_SIZE, count - 1).value.value;
      assert LevelGlyphsBytes(levels[0]) == data[pos..pos + LEVEL_SIZE];
    }
  }

  /** The result of `LevelGlyphs::has_collected` as the source computes it. */
  datatype Lookup = Missing | Found(collected: bool) | ShiftOverflow

  /**
   * `LevelGlyphs::has_collected` as written: the guard refuses indices above 8,
   * so index 8 reaches `status_flags >> 8`, a shift of a `u8` by its full width,
   * which Rust reports as an overflow.
   */
  function HasCollectedAsWritten(g: LevelGlyphs, index: nat): (r: Lookup)
    ensures r == Missing <==> index > 8
    ensures r.Found? ==> index < 8 && r.collected == Bit(g.statusFlags, index)
  {
    if index > 8 then Missing
    else if index >= 8 then ShiftOverflow
    else Found(Bit(g.statusFlags, index))
  }

  /** Index 8 passes the guard and overflows the shift, whatever the status byte. */
  lemma IndexEightOverflows(g: LevelGlyphs)
    ensures HasCollectedAsWritten(g, 8) == ShiftOverflow
  {
  }

  /** `LevelGlyphs::has_collected` as intended: defined for exactly the eight bits of the byte. */
  function LevelHasCollected(g: LevelGlyphs, index: nat): (r: Option<bool>)
    ensures r.Some? <==> index < 8
  {
    if index >= 8 then None else Some(Bit(g.statusFlags, index))
  }

  /** Apart from index 8, the corrected lookup answers as the written one does. */
  lemma CorrectedAgreesElsewhere(g: LevelGlyphs, index: nat)
    requires index != 8
    ensures LevelHasCollected(g, index).None? <==> HasCollectedAsWritten(g, index) == Missing
    ensures LevelHasCollected(g, index).Some? ==>
              HasCollectedAsWritten(g, index) == Found(LevelHasCollected(g, index).value)
  {
  }

  /** The eight answers of the corrected lookup determine the status byte completely. */
  lemma LookupsDetermineFlags(a: LevelGlyphs, b: LevelGlyphs)
    requires forall i | 0 <= i < 8 :: LevelHasCollected(a, i) == LevelHasCollected(b, i)
    ensures a.statusFlags == b.statusFlags
  {
    forall i | 0 <= i < 8 ensures Bit(a.statusFlags, i) == Bit(b.statusFlags, i) {
      assert LevelHasCollected(a, i) == LevelHasCollected(b, i);
    }
    assert Pow2(8) == 256;
    BitsDetermineValue(a.statusFlags, b.statusFlags, 8);
  }

  /** `Glyphs::has_collected`: `None` past the decoded levels, else the corrected per-level lookup. */
  function HasCollected(g: Glyphs, level: nat, index: nat): (r: Option<bool>)
    ensures level >= |g.levels| ==> r == None
    ensures level < |g.levels| && index < 8 ==> r == Some(Bit(g.levels[level].statusFlags, index))
    ensures index >= 8 ==> r == None
  {
    if level >= |g.levels| then None else LevelHasCollected(g.levels[level], index)
  }

  /**
   * `Glyphs::all`: for each decoded level in order, whether each of its glyphs was
   * collected. Every lookup it makes is defined, so its `unwrap` never fails.
   */
  function All(g: Glyphs): (r: seq<seq<bool>>)
    requires |g.levels| <= LEVEL_COUNT
    ensures |r| == |g.levels|
    ensures forall l | 0 <= l < |r| :: |r[l]| == GLYPH_COUNT[l]
    ensures forall l, i | 0 <= l < |r| && 0 <= i < |r[l]| :: HasCollected(g, l, i) == Some(r[l][i])
  {
    seq(|g.levels|, l requires 0 <= l < |g.levels| =>
      seq(GLYPH_COUNT[l], i requires 0 <= i < GLYPH_COUNT[l] => HasCollected(g, l, i).value))
  }
}
