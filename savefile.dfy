/**
 * The save file: fields read in declaration order from one little-endian cursor,
 * then the companion list, then every remaining byte kept verbatim. Runs of bytes
 * whose meaning is unknown are carried as they were read and written back unchanged.
 */
module Save {
  import opened Wrappers
  import opened Binary
  import opened Errors
  import LevelField
  import SymbolField
  import ScarfField
  import MuralFlags
  import GlyphFlags
  import Timestamp
  import Companion

  /** `collected_symbols` may not exceed this. */
  const MAX_COLLECTED_SYMBOLS: nat := 21
  /** The fixed-width fields before the glyph section. */
  const HEAD_SIZE: nat := 84
  const GLYPHS_OFFSET: nat := HEAD_SIZE
  const COMPANION_SYMBOLS_OFFSET: nat := GLYPHS_OFFSET + GlyphFlags.SECTION_SIZE + 2404
  /** Where the companion list starts when every companion-symbol name fits its field. */
  const COMPANIONS_OFFSET: nat := COMPANION_SYMBOLS_OFFSET + Companion.SECTION_SIZE + 4 + 1024 + 4 + 24

  /** Every field of the save file, in file order (`_unknown5` does not exist). */
  datatype SaveData = SaveData(
    unknown0: seq<byte>,
    robe: u32,
    symbol: SymbolField.SymbolId,
    scarfLength: ScarfField.ScarfLength,
    unknown1: seq<byte>,
    currentLevel: LevelField.LevelId,
    totalCollectedSymbols: u32,
    collectedSymbols: u32,
    murals: MuralFlags.Murals,
    unknown2: seq<byte>,
    /** Unix milliseconds. */
    lastPlayed: int,
    unknown3: seq<byte>,
    journeyCount: u64,
    glyphs: GlyphFlags.Glyphs,
    unknown4: seq<byte>,
    companionSymbols: seq<Companion.CompanionWithSymbol>,
    companionsMet: u32,
    unknown6: seq<byte>,
    totalCompanionsMet: u32,
    unknown7: seq<byte>,
    companions: seq<Companion.CompanionWithId>,
    unknown8: seq<byte>)

  /** The fixed-width fields before the glyph section, as the decode reads them. */
  datatype Head = Head(
    unknown0: seq<byte>, robe: u32, symbol: SymbolField.SymbolId, scarfLength: ScarfField.ScarfLength,
    unknown1: seq<byte>, currentLevel: LevelField.LevelId, totalCollectedSymbols: u32, collectedSymbols: u32,
    murals: MuralFlags.Murals, unknown2: seq<byte>, lastPlayed: int, unknown3: seq<byte>, journeyCount: u64)

  /** The three fixed-size sections after the head. */
  datatype Sections = Sections(
    glyphs: GlyphFlags.Glyphs, unknown4: seq<byte>, companionSymbols: seq<Companion.CompanionWithSymbol>)

  /** The fields from `companions_met` to the end of the input. */
  datatype Tail = Tail(
    companionsMet: u32, unknown6: seq<byte>, totalCompanionsMet: u32, unknown7: seq<byte>,
    companions: seq<Companion.CompanionWithId>, unknown8: seq<byte>)

  function Assemble(h: Head, m: Sections, t: Tail): SaveData {
    SaveData(
      h.unknown0, h.robe, h.symbol, h.scarfLength, h.unknown1, h.currentLevel, h.totalCollectedSymbols,
      h.collectedSymbols, h.murals, h.unknown2, h.lastPlayed, h.unknown3, h.journeyCount,
      m.glyphs, m.unknown4, m.companionSymbols,
      t.companionsMet, t.unknown6, t.totalCompanionsMet, t.unknown7, t.companions, t.unknown8)
  }

  function HeadOf(s: SaveData): Head {
    Head(s.unknown0, s.robe, s.symbol, s.scarfLength, s.unknown1, s.currentLevel, s.totalCollectedSymbols,
         s.collectedSymbols, s.murals, s.unknown2, s.lastPlayed, s.unknown3, s.journeyCount)
  }

  function SectionsOf(s: SaveData): Sections {
    Sections(s.glyphs, s.unknown4, s.companionSymbols)
  }

  function TailOf(s: SaveData): Tail {
    Tail(s.companionsMet, s.unknown6, s.totalCompanionsMet, s.unknown7, s.companions, s.unknown8)
  }

  // ---------------------------------------------------------------------------
  // Decoding

  /**
   * The derived reader up to the glyph section: each field from the cursor left
   * by the one before, stopping at the first failure. `collected_symbols` above
   * 21 fails its assertion.
   */
  function DecodeHead(data: seq<byte>): Parsed<Head> {
    var unknown0 :- ParseBytes(data, 0, 8);
    var robe :- ParseU32(data, unknown0.next);
    var symbol :- SymbolField.ParseSymbol(data, robe.next);
    var scarf :- ScarfField.ParseScarf(data, symbol.next);
    var unknown1 :- ParseBytes(data, scarf.next, 4);
    var level :- LevelField.ParseLevel(data, unknown1.next);
    var totalCollected :- ParseU32(data, level.next);
    var collected :- ParseU32(data, totalCollected.next);
    if collected.value > MAX_COLLECTED_SYMBOLS then Err(AssertFailed(CollectedSymbolsField, collected.value))
    else
      var murals :- MuralFlags.ParseMurals(data, collected.next);
      var unknown2 :- ParseBytes(data, murals.next, 22);
      var lastPlayed :- Timestamp.ParseLastPlayed(data, unknown2.next);
      var unknown3 :- ParseBytes(data, lastPlayed.next, 4);
      var journeyCount :- ParseU64(data, unknown3.next);
      Ok(Read(Head(
        unknown0.value, robe.value, symbol.value, scarf.value, unknown1.value, level.value,
        totalCollected.value, collected.value, murals.value, unknown2.value, lastPlayed.value,
        unknown3.value, journeyCount.value), journeyCount.next))
  }

  /** The glyph section, the run after it and the companion-symbol section. */
  function DecodeSections(data: seq<byte>, pos: nat): Parsed<Sections> {
    var glyphs :- GlyphFlags.ParseGlyphs(data, pos);
    var unknown4 :- ParseBytes(data, glyphs.next, 2404);
    var companionSymbols :- Companion.ParseCompanionSymbols(data, unknown4.next);
    Ok(Read(Sections(glyphs.value, unknown4.value, companionSymbols.value), companionSymbols.next))
  }

  /** The counters and runs around the companion list; the last run takes the rest of the input. */
  function DecodeTail(data: seq<byte>, pos: nat): Result<Tail, DecodeError> {
    var companionsMet :- ParseU32(data, pos);
    var unknown6 :- ParseBytes(data, companionsMet.next, 1024);
    var totalCompanionsMet :- ParseU32(data, unknown6.next);
    var unknown7 :- ParseBytes(data, totalCompanionsMet.next, 24);
    var companions :- Companion.ParseCompanions(data, unknown7.next);
    Ok(Tail(companionsMet.value, unknown6.value, totalCompanionsMet.value, unknown7.value,
            companions.value, ParseRest(data, companions.next)))
  }

  /** The derived reader of the whole file: the three stages from one cursor. */
  function DecodeSavefile(data: seq<byte>): Result<SaveData, DecodeError> {
    var head :- DecodeHead(data);
    var sections :- DecodeSections(data, head.next);
    var tail :- DecodeTail(data, sections.next);
    Ok(Assemble(head.value, sections.value, tail))
  }

  /** `Savefile::from_reader`: the decode, with any failure reported as `DeserializationFailed`. */
  function ParseSavefile(data: seq<byte>): Result<SaveData, Error> {
    match DecodeSavefile(data)
    case Ok(s) => Ok(s)
    case Err(e) => Err(DeserializationFailed(e))
  }

  /** `Savefile::from_reader` as the source runs it: one cursor advanced field by field. */
  method ReadSavefile(data: seq<byte>) returns (r: Result<SaveData, Error>)
    ensures r == ParseSavefile(data)
  {
    var cursor: nat := 0;
    var unknown0 := ParseBytes(data, cursor, 8);
    if unknown0.Err? { return Err(DeserializationFailed(unknown0.error)); }
    cursor := unknown0.value.next;
    var robe := ParseU32(data, cursor);
    if robe.Err? { return Err(DeserializationFailed(robe.error)); }
    cursor := robe.value.next;
    var symbol := SymbolField.ParseSymbol(data, cursor);
    if symbol.Err? { return Err(DeserializationFailed(symbol.error)); }
    cursor := symbol.value.next;
    var scarf := ScarfField.ParseScarf(data, cursor);
    if scarf.Err? { return Err(DeserializationFailed(scarf.error)); }
    cursor := scarf.value.next;
    var unknown1 := ParseBytes(data, cursor, 4);
    if unknown1.Err? { return Err(DeserializationFailed(unknown1.error)); }
    cursor := unknown1.value.next;
    var level := LevelField.ParseLevel(data, cursor);
    if level.Err? { return Err(DeserializationFailed(level.error)); }
    cursor := level.value.next;
    var totalCollected := ParseU32(data, cursor);
    if totalCollected.Err? { return Err(DeserializationFailed(totalCollected.error)); }
    cursor := totalCollected.value.next;
    var collected := ParseU32(data, cursor);
    if collected.Err? { return Err(DeserializationFailed(collected.error)); }
    if collected.value.value > MAX_COLLECTED_SYMBOLS {
      return Err(DeserializationFailed(AssertFailed(CollectedSymbolsField, collected.value.value)));
    }
    cursor := collected.value.next;
    var murals := MuralFlags.ParseMurals(data, cursor);
    if murals.Err? { return Err(DeserializationFailed(murals.error)); }
    cursor := murals.value.next;
    var unknown2 := ParseBytes(data, cursor, 22);
    if unknown2.Err? { return Err(DeserializationFailed(unknown2.error)); }
    cursor := unknown2.value.next;
    var lastPlayed := Timestamp.ParseLastPlayed(data, cursor);
    if lastPlayed.Err? { return Err(DeserializationFailed(lastPlayed.error)); }
    cursor := lastPlayed.value.next;
    var unknown3 := ParseBytes(data, cursor, 4);
    if unknown3.Err? { return Err(DeserializationFailed(unknown3.error)); }
    cursor := unknown3.value.next;
    var journeyCount := ParseU64(data, cursor);
    if journeyCount.Err? { return Err(DeserializationFailed(journeyCount.error)); }
    cursor := journeyCount.value.next;
    var glyphs := GlyphFlags.ParseGlyphs(data, cursor);
    if glyphs.Err? { return Err(DeserializationFailed(glyphs.error)); }
    cursor := glyphs.value.next;
    var unknown4 := ParseBytes(data, cursor, 2404);
    if unknown4.Err? { return Err(DeserializationFailed(unknown4.error)); }
    cursor := unknown4.value.next;
    var companionSymbols := Companion.ReadCompanionSymbols(data, cursor);
    if companionSymbols.Err? { return Err(DeserializationFailed(companionSymbols.error)); }
    cursor := companionSymbols.value.next;
    var companionsMet := ParseU32(data, cursor);
    if companionsMet.Err? { return Err(DeserializationFailed(companionsMet.error)); }
    cursor := companionsMet.value.next;
    var unknown6 := ParseBytes(data, cursor, 1024);
    if unknown6.Err? { return Err(DeserializationFailed(unknown6.error)); }
    cursor := unknown6.value.next;
    var totalCompanionsMet := ParseU32(data, cursor);
    if totalCompanionsMet.Err? { return Err(DeserializationFailed(totalCompanionsMet.error)); }
    cursor := totalCompanionsMet.value.next;
    var unknown7 := ParseBytes(data, cursor, 24);
    if unknown7.Err? { return Err(DeserializationFailed(unknown7.error)); }
    cursor := unknown7.value.next;
    var companions := Companion.ReadCompanions(data, cursor);
    if companions.Err? { return Err(DeserializationFailed(companions.error)); }
    cursor := companions.value.next;
    var unknown8 := ParseRest(data, cursor);
    r := Ok(SaveData(
      unknown0.value.value, robe.value.value, symbol.value.value, scarf.value.value, unknown1.value.value,
      level.value.value, totalCollected.value.value, collected.value.value, murals.value.value,
      unknown2.value.value, lastPlayed.value.value, unknown3.value.value, journeyCount.value.value,
      glyphs.value.value, unknown4.value.value, companionSymbols.value.value, companionsMet.value.value,
      unknown6.value.value, totalCompanionsMet.value.value, unknown7.value.value, companions.value.value,
      unknown8));
  }

  // ---------------------------------------------------------------------------
  // Encoding

  /**
   * The derived writer: the same fields in the same order, each unknown run written
   * back as it is. The timestamp must fit its 64-bit field and at most 16 companion
   * symbols fit their section; the source panics otherwise.
   */
  function SavefileBytes(s: SaveData): seq<byte>
    requires Timestamp.TicksFit(s.lastPlayed) && |s.companionSymbols| <= Companion.MAX_SYMBOL_ENTRIES
  {
    HeadBytes(s) + SectionsBytes(s) + TailBytes(s)
  }

  /** The fields before the glyph section. */
  function HeadBytes(s: SaveData): seq<byte>
    requires Timestamp.TicksFit(s.lastPlayed)
  {
    s.unknown0 + LeBytes(s.robe, 4) + LeBytes(s.symbol, 4) + LeBytes(s.scarfLength, 4) + s.unknown1
    + LeBytes(s.currentLevel, 8) + LeBytes(s.totalCollectedSymbols, 4) + LeBytes(s.collectedSymbols, 4)
    + MuralFlags.MuralsBytes(s.murals) + s.unknown2 + Timestamp.LastPlayedBytes(s.lastPlayed) + s.unknown3
    + LeBytes(s.journeyCount, 8)
  }

  function SectionsBytes(s: SaveData): seq<byte>
    requires |s.companionSymbols| <= Companion.MAX_SYMBOL_ENTRIES
  {
    GlyphFlags.GlyphsBytes(s.glyphs) + s.unknown4 + Companion.CompanionSymbolsBytes(s.companionSymbols)
  }

  function TailBytes(s: SaveData): seq<byte> {
    LeBytes(s.companionsMet, 4) + s.unknown6 + LeBytes(s.totalCompanionsMet, 4) + s.unknown7
    + Companion.CompanionsBytes(s.companions) + s.unknown8
  }

  /** The head fields, appended one by one to the writer's output. */
  method WriteHead(s: SaveData) returns (out: seq<byte>)
    requires Timestamp.TicksFit(s.lastPlayed)
    ensures out == HeadBytes(s)
  {
    out := s.unknown0;
    out := out + LeBytes(s.robe, 4);
    out := out + LeBytes(s.symbol, 4);
    out := out + LeBytes(s.scarfLength, 4);
    out := out + s.unknown1;
    out := out + LeBytes(s.currentLevel, 8);
    out := out + LeBytes(s.totalCollectedSymbols, 4);
    out := out + LeBytes(s.collectedSymbols, 4);
    out := out + MuralFlags.MuralsBytes(s.murals);
    out := out + s.unknown2;
    out := out + Timestamp.LastPlayedBytes(s.lastPlayed);
    out := out + s.unknown3;
    out := out + LeBytes(s.journeyCount, 8);
  }

  /** The tail fields, with the companion list written by its own loop. */
  method WriteTail(s: SaveData) returns (out: seq<byte>)
    ensures out == TailBytes(s)
  {
    out := LeBytes(s.companionsMet, 4);
    out := out + s.unknown6;
    out := out + LeBytes(s.totalCompanionsMet, 4);
    out := out + s.unknown7;
    var companions := Companion.WriteCompanions(s.companions);
    out := out + companions;
    out := out + s.unknown8;
  }

  /** `Savefile::write` as the source runs it: one writer, field by field. */
  method WriteSavefile(s: SaveData) returns (out: seq<byte>)
    requires Timestamp.TicksFit(s.lastPlayed) && |s.companionSymbols| <= Companion.MAX_SYMBOL_ENTRIES
    ensures out == SavefileBytes(s)
  {
    var head := WriteHead(s);
    var sections := GlyphFlags.GlyphsBytes(s.glyphs);
    sections := sections + s.unknown4;
    var companionSymbols := Companion.WriteCompanionSymbols(s.companionSymbols);
    sections := sections + companionSymbols;
    var tail := WriteTail(s);
    out := head + sections + tail;
  }
  // ---------------------------------------------------------------------------
  // Round trip

  /** The head fields hold what the decode accepts, and each unknown run has its width. */
  predicate HeadValid(s: SaveData) {
    |s.unknown0| == 8 && s.symbol < SymbolField.MAX_SYMBOL_ID && |s.unknown1| == 4
    && s.collectedSymbols <= MAX_COLLECTED_SYMBOLS && |s.unknown2| == 22
    && Timestamp.TicksFit(s.lastPlayed) && |s.unknown3| == 4
  }

  /**
   * The sections can be written and read back: six full glyph blocks, the 2404-byte
   * run, and fewer than 16 companion symbols, so that the zero padding ends the list.
   */
  predicate SectionsValid(s: SaveData) {
    GlyphFlags.WellFormed(s.glyphs) && |s.unknown4| == 2404
    && |s.companionSymbols| < Companion.MAX_SYMBOL_ENTRIES
    && forall k | 0 <= k < |s.companionSymbols| :: Companion.SymbolRecordValid(s.companionSymbols[k])
  }

  /**
   * The tail can be written and read back: the runs have their widths, every companion
   * record is valid, and the trailing bytes are long enough for the probe after the
   * last companion and do not present the marker there.
   */
  predicate TailValid(s: SaveData) {
    |s.unknown6| == 1024 && |s.unknown7| == 24
    && (forall k | 0 <= k < |s.companions| :: Companion.IdRecordValid(s.companions[k]))
    && |s.unknown8| >= Companion.ID_ENTRY_SIZE
    && s.unknown8[Companion.ID_RECORD_SIZE..Companion.ID_ENTRY_SIZE] != Companion.MARKER
  }

  predicate WellFormed(s: SaveData) {
    HeadValid(s) && SectionsValid(s) && TailValid(s)
  }

  /** Each head field sits at its fixed offset in the written head. */
  lemma HeadSlices(s: SaveData, data: seq<byte>)
    requires HeadValid(s)
    requires HEAD_SIZE <= |data| && data[..HEAD_SIZE] == HeadBytes(s)
    ensures data[0..8] == s.unknown0 && data[8..12] == LeBytes(s.robe, 4)
    ensures data[12..16] == LeBytes(s.symbol, 4) && data[16..20] == LeBytes(s.scarfLength, 4)
    ensures data[20..24] == s.unknown1 && data[24..32] == LeBytes(s.currentLevel, 8)
    ensures data[32..36] == LeBytes(s.totalCollectedSymbols, 4) && data[36..40] == LeBytes(s.collectedSymbols, 4)
    ensures data[40..42] == MuralFlags.MuralsBytes(s.murals) && data[42..64] == s.unknown2
    ensures data[64..72] == Timestamp.LastPlayedBytes(s.lastPlayed) && data[72..76] == s.unknown3
    ensures data[76..84] == LeBytes(s.journeyCount, 8)
  {
    var j := LeBytes(s.journeyCount, 8);
    var h12 := HeadBytes(s)[..76];
    var h11 := h12[..72];
    var h10 := h11[..64];
    var h9 := h10[..42];
    var h8 := h9[..40];
    var h7 := h8[..36];
    var h6 := h7[..32];
    var h5 := h6[..24];
    var h4 := h5[..20];
    var h3 := h4[..16];
    var h2 := h3[..12];
    assert data[..HEAD_SIZE] == data[0..HEAD_SIZE];
    assert HeadBytes(s) == h12 + j;
    SliceSplit(data, 0, h12, j);
    assert h12 == h11 + s.unknown3;
    SliceSplit(data, 0, h11, s.unknown3);
    assert h11 == h10 + Timestamp.LastPlayedBytes(s.lastPlayed);
    SliceSplit(data, 0, h10, Timestamp.LastPlayedBytes(s.lastPlayed));
    assert h10 == h9 + s.unknown2;
    SliceSplit(data, 0, h9, s.unknown2);
    assert h9 == h8 + MuralFlags.MuralsBytes(s.murals);
    SliceSplit(data, 0, h8, MuralFlags.MuralsBytes(s.murals));
    assert h8 == h7 + LeBytes(s.collectedSymbols, 4);
    SliceSplit(data, 0, h7, LeBytes(s.collectedSymbols, 4));
    assert h7 == h6 + LeBytes(s.totalCollectedSymbols, 4);
    SliceSplit(data, 0, h6, LeBytes(s.totalCollectedSymbols, 4));
    assert h6 == h5 + LeBytes(s.currentLevel, 8);
    SliceSplit(data, 0, h5, LeBytes(s.currentLevel, 8));
    assert h5 == h4 + s.unknown1;
    SliceSplit(data, 0, h4, s.unknown1);
    assert h4 == h3 + LeBytes(s.scarfLength, 4);
    SliceSplit(data, 0, h3, LeBytes(s.scarfLength, 4));
    assert h3 == h2 + LeBytes(s.symbol, 4);
    SliceSplit(data, 0, h2, LeBytes(s.symbol, 4));
    assert h2 == s.unknown0 + LeBytes(s.robe, 4);
    SliceSplit(data, 0, s.unknown0, LeBytes(s.robe, 4));
  }

  /** A written head reads back as itself and ends where the glyph section starts. */
  lemma HeadRoundTrip(s: SaveData, data: seq<byte>)
    requires HeadValid(s)
    requires HEAD_SIZE <= |data| && data[..HEAD_SIZE] == HeadBytes(s)
    ensures DecodeHead(data) == Ok(Read(HeadOf(s), HEAD_SIZE))
  {
    HeadSlices(s, data);
    ParseU32Of(data, 8, s.robe);
    SymbolField.ParseSymbolOf(data, 12, s.symbol);
    ScarfField.ParseScarfOf(data, 16, s.scarfLength);
    LevelField.ParseLevelOf(data, 24, s.currentLevel);
    ParseU32Of(data, 32, s.totalCollectedSymbols);
    ParseU32Of(data, 36, s.collectedSymbols);
    MuralFlags.MuralsRoundTrip(s.murals, data, 40);
    Timestamp.LastPlayedRoundTrip(s.lastPlayed, data, 64);
    ParseUIntOf(data, 76, s.journeyCount, 8);
  }

  /** The written sections span 2064 + 2404 + 960 bytes. */
  const SECTIONS_SIZE: nat := GlyphFlags.SECTION_SIZE + 2404 + Companion.SECTION_SIZE

  /** Written sections read back as themselves, and the companion-symbol section ends at its 960 bytes. */
  lemma SectionsRoundTrip(s: SaveData, data: seq<byte>, pos: nat)
    requires SectionsValid(s)
    requires pos + SECTIONS_SIZE <= |data| && data[pos..pos + SECTIONS_SIZE] == SectionsBytes(s)
    ensures DecodeSections(data, pos) == Ok(Read(SectionsOf(s), pos + SECTIONS_SIZE))
  {
    var g := GlyphFlags.GlyphsBytes(s.glyphs);
    var c := Companion.CompanionSymbolsBytes(s.companionSymbols);
    Companion.CompanionSymbolsBytesLength(s.companionSymbols);
    GlyphFlags.GlyphsBytesLength(s.glyphs);
    SliceSplit(data, pos, g + s.unknown4, c);
    SliceSplit(data, pos, g, s.unknown4);
    GlyphFlags.GlyphsRoundTrip(s.glyphs, data, pos);
    Companion.CompanionSymbolsRoundTrip(s.companionSymbols, data, pos + GlyphFlags.SECTION_SIZE + 2404);
  }

  /** Where a written tail puts each of its fields. */
  lemma TailSlices(s: SaveData, data: seq<byte>, pos: nat)
    requires TailValid(s)
    requires pos <= |data| && data[pos..] == TailBytes(s)
    ensures var listEnd := pos + 1056 + Companion.ID_ENTRY_SIZE * |s.companions|;
            && listEnd + |s.unknown8| == |data|
            && data[pos..pos + 4] == LeBytes(s.companionsMet, 4)
            && data[pos + 4..pos + 1028] == s.unknown6
            && data[pos + 1028..pos + 1032] == LeBytes(s.totalCompanionsMet, 4)
            && data[pos + 1032..pos + 1056] == s.unknown7
            && data[pos + 1056..listEnd] == Companion.CompanionsBytes(s.companions)
            && data[listEnd..] == s.unknown8
  {
    var cs := Companion.CompanionsBytes(s.companions);
    Companion.CompanionsBytesLength(s.companions);
    var t1 := LeBytes(s.companionsMet, 4) + s.unknown6;
    var t2 := t1 + LeBytes(s.totalCompanionsMet, 4);
    var t3 := t2 + s.unknown7;
    var t4 := t3 + cs;
    var listEnd := pos + 1056 + |cs|;
    assert |t4| == 1056 + |cs| && |data| == listEnd + |s.unknown8|;
    assert data[pos..pos + |t4| + |s.unknown8|] == t4 + s.unknown8;
    SliceSplit(data, pos, t4, s.unknown8);
    assert data[listEnd..] == data[listEnd..listEnd + |s.unknown8|];
    SliceSplit(data, pos, t3, cs);
    SliceSplit(data, pos, t2, s.unknown7);
    SliceSplit(data, pos, t1, LeBytes(s.totalCompanionsMet, 4));
    SliceSplit(data, pos, LeBytes(s.companionsMet, 4), s.unknown6);
  }

  /**
   * A written tail reads back as itself: the companion list stops at the probe
   * in the trailing bytes, which are then kept to the end of the input.
   */
  lemma TailRoundTrip(s: SaveData, data: seq<byte>, pos: nat)
    requires TailValid(s)
    requires pos <= |data| && data[pos..] == TailBytes(s)
    ensures DecodeTail(data, pos) == Ok(TailOf(s))
  {
    TailSlices(s, data, pos);
    var listStart := pos + 1056;
    var listEnd := listStart + Companion.ID_ENTRY_SIZE * |s.companions|;
    ParseU32Of(data, pos, s.companionsMet);
    ParseU32Of(data, pos + 1028, s.totalCompanionsMet);
    assert data[listEnd + Companion.ID_RECORD_SIZE..listEnd + Companion.ID_ENTRY_SIZE]
        == data[listEnd..][Companion.ID_RECORD_SIZE..Companion.ID_ENTRY_SIZE];
    Companion.CompanionsRoundTrip(s.companions, data, listStart);
    DecodeTailOf(data, pos, TailOf(s), listEnd);
  }

  /** The tail decode, given what each of its steps reads. */
  lemma DecodeTailOf(data: seq<byte>, pos: nat, t: Tail, listEnd: nat)
    requires ParseU32(data, pos) == Ok(Read(t.companionsMet, pos + 4))
    requires pos + 1028 <= |data| && data[pos + 4..pos + 1028] == t.unknown6
    requires ParseU32(data, pos + 1028) == Ok(Read(t.totalCompanionsMet, pos + 1032))
    requires pos + 1056 <= |data| && data[pos + 1032..pos + 1056] == t.unknown7
    requires Companion.ParseCompanions(data, pos + 1056) == Ok(Read(t.companions, listEnd))
    requires ParseRest(data, listEnd) == t.unknown8
    ensures DecodeTail(data, pos) == Ok(t)
  {
  }

  /** Where the written file puts its head, its sections and its tail. */
  lemma SavefileSlices(s: SaveData)
    requires WellFormed(s)
    ensures var data := SavefileBytes(s);
            && HEAD_SIZE + SECTIONS_SIZE <= |data|
            && data[..HEAD_SIZE] == HeadBytes(s)
            && data[HEAD_SIZE..HEAD_SIZE + SECTIONS_SIZE] == SectionsBytes(s)
            && data[HEAD_SIZE + SECTIONS_SIZE..] == TailBytes(s)
  {
    var data := SavefileBytes(s);
    var h := HeadBytes(s);
    var m := SectionsBytes(s);
    var t := TailBytes(s);
    assert |h| == HEAD_SIZE;
    GlyphFlags.GlyphsBytesLength(s.glyphs);
    Companion.SymbolEntriesBytesLength(s.companionSymbols);
    assert |m| == SECTIONS_SIZE;
    assert data[0..|h| + |m| + |t|] == data;
    SliceSplit(data, 0, h + m, t);
    SliceSplit(data, 0, h, m);
    assert data[..HEAD_SIZE] == data[0..HEAD_SIZE];
    assert data[HEAD_SIZE + SECTIONS_SIZE..] == data[|h| + |m|..|h| + |m| + |t|];
  }

  /** The whole decode, given what each of its three stages reads. */
  lemma DecodeSavefileOf(data: seq<byte>, h: Head, m: Sections, t: Tail)
    requires DecodeHead(data) == Ok(Read(h, HEAD_SIZE))
    requires DecodeSections(data, HEAD_SIZE) == Ok(Read(m, HEAD_SIZE + SECTIONS_SIZE))
    requires DecodeTail(data, HEAD_SIZE + SECTIONS_SIZE) == Ok(t)
    ensures DecodeSavefile(data) == Ok(Assemble(h, m, t))
  {
  }

  /**
   * Writing a well-formed save and reading it back gives the same save: every
   * field, every unknown run and both companion lists survive unchanged.
   */
  lemma SavefileRoundTrip(s: SaveData)
    requires WellFormed(s)
    ensures ParseSavefile(SavefileBytes(s)) == Ok(s)
  {
    var data := SavefileBytes(s);
    SavefileSlices(s);
    HeadRoundTrip(s, data);
    SectionsRoundTrip(s, data, HEAD_SIZE);
    TailRoundTrip(s, data, HEAD_SIZE + SECTIONS_SIZE);
    DecodeSavefileOf(data, HeadOf(s), SectionsOf(s), TailOf(s));
    assert Assemble(HeadOf(s), SectionsOf(s), TailOf(s)) == s;
  }

  // ---------------------------------------------------------------------------
  // Layout of a decoded file

  /**
   * A decoded head: each field is what its own decoder reads at its fixed offset,
   * with the widths 8, 4, 4, 4, 4, 8, 4, 4, 2, 22, 8, 4, 8, and the head ends at
   * byte 84 with `collected_symbols` at most 21.
   */
  lemma HeadLayout(data: seq<byte>)
    requires DecodeHead(data).Ok?
    ensures var r := DecodeHead(data).value;
            var h := r.value;
            && r.next == HEAD_SIZE
            && ParseBytes(data, 0, 8) == Ok(Read(h.unknown0, 8))
            && ParseU32(data, 8) == Ok(Read(h.robe, 12))
            && SymbolField.ParseSymbol(data, 12) == Ok(Read(h.symbol, 16))
            && ScarfField.ParseScarf(data, 16) == Ok(Read(h.scarfLength, 20))
            && ParseBytes(data, 20, 4) == Ok(Read(h.unknown1, 24))
            && LevelField.ParseLevel(data, 24) == Ok(Read(h.currentLevel, 32))
            && ParseU32(data, 32) == Ok(Read(h.totalCollectedSymbols, 36))
            && ParseU32(data, 36) == Ok(Read(h.collectedSymbols, 40))
            && h.collectedSymbols <= MAX_COLLECTED_SYMBOLS
            && MuralFlags.ParseMurals(data, 40) == Ok(Read(h.murals, 42))
            && ParseBytes(data, 42, 22) == Ok(Read(h.unknown2, 64))
            && Timestamp.ParseLastPlayed(data, 64) == Ok(Read(h.lastPlayed, 72))
            && ParseBytes(data, 72, 4) == Ok(Read(h.unknown3, 76))
            && ParseU64(data, 76) == Ok(Read(h.journeyCount, HEAD_SIZE))
  {
    var unknown0 := ParseBytes(data, 0, 8);
    if unknown0.Err? { assert false; }
    var robe := ParseU32(data, 8);
    if robe.Err? { assert false; }
    var symbol := SymbolField.ParseSymbol(data, 12);
    if symbol.Err? { assert false; }
    var scarf := ScarfField.ParseScarf(data, 16);
    if scarf.Err? { assert false; }
    var unknown1 := ParseBytes(data, 20, 4);
    if unknown1.Err? { assert false; }
    var level := LevelField.ParseLevel(data, 24);
    if level.Err? { assert false; }
    var totalCollected := ParseU32(data, 32);
    if totalCollected.Err? { assert false; }
    var collected := ParseU32(data, 36);
    if collected.Err? || collected.value.value > MAX_COLLECTED_SYMBOLS { assert false; }
    var murals := MuralFlags.ParseMurals(data, 40);
    if murals.Err? { assert false; }
    var unknown2 := ParseBytes(data, 42, 22);
    if unknown2.Err? { assert false; }
    var lastPlayed := Timestamp.ParseLastPlayed(data, 64);
    if lastPlayed.Err? { assert false; }
    var unknown3 := ParseBytes(data, 72, 4);
    if unknown3.Err? { assert false; }
  }

  /**
   * Decoded sections: 2064 bytes of glyphs, the 2404-byte run, then the companion
   * symbols, whose section takes at least its 960 bytes.
   */
  lemma SectionsLayout(data: seq<byte>, pos: nat)
    requires DecodeSections(data, pos).Ok?
    ensures var r := DecodeSections(data, pos).value;
            var m := r.value;
            && GlyphFlags.ParseGlyphs(data, pos) == Ok(Read(m.glyphs, pos + GlyphFlags.SECTION_SIZE))
            && ParseBytes(data, pos + GlyphFlags.SECTION_SIZE, 2404)
               == Ok(Read(m.unknown4, pos + GlyphFlags.SECTION_SIZE + 2404))
            && Companion.ParseCompanionSymbols(data, pos + GlyphFlags.SECTION_SIZE + 2404)
               == Ok(Read(m.companionSymbols, r.next))
            && pos + SECTIONS_SIZE <= r.next
  {
    var glyphs := GlyphFlags.ParseGlyphs(data, pos);
    if glyphs.Err? { assert false; }
    var unknown4 := ParseBytes(data, pos + GlyphFlags.SECTION_SIZE, 2404);
    if unknown4.Err? { assert false; }
  }

  /**
   * A decoded tail: the two counters and their runs, then the companion list, which
   * ended at a probe that found 32 bytes without the marker; the last run is every
   * byte from there to the end of the input.
   */
  lemma TailLayout(data: seq<byte>, pos: nat)
    requires DecodeTail(data, pos).Ok?
    ensures var t := DecodeTail(data, pos).value;
            var companions := Companion.ParseCompanions(data, pos + 1056);
            && ParseU32(data, pos) == Ok(Read(t.companionsMet, pos + 4))
            && ParseBytes(data, pos + 4, 1024) == Ok(Read(t.unknown6, pos + 1028))
            && ParseU32(data, pos + 1028) == Ok(Read(t.totalCompanionsMet, pos + 1032))
            && ParseBytes(data, pos + 1032, 24) == Ok(Read(t.unknown7, pos + 1056))
            && companions.Ok? && companions.value.value == t.companions
            && pos + 1056 <= companions.value.next
            && companions.value.next + Companion.ID_ENTRY_SIZE <= |data|
            && !Companion.MarkerAt(data, companions.value.next)
            && t.unknown8 == data[companions.value.next..]
  {
    var companionsMet := ParseU32(data, pos);
    if companionsMet.Err? { assert false; }
    var unknown6 := ParseBytes(data, pos + 4, 1024);
    if unknown6.Err? { assert false; }
    var totalCompanionsMet := ParseU32(data, pos + 1028);
    if totalCompanionsMet.Err? { assert false; }
    var unknown7 := ParseBytes(data, pos + 1032, 24);
    if unknown7.Err? { assert false; }
    var companions := Companion.ParseCompanions(data, pos + 1056);
    if companions.Err? { assert false; }
    Companion.CompanionsEndAtProbe(data, pos + 1056);
  }

  /** A decoded file is its three stages, read back to back from byte 0. */
  lemma SavefileLayout(data: seq<byte>)
    requires DecodeSavefile(data).Ok?
    ensures var s := DecodeSavefile(data).value;
            var sections := DecodeSections(data, HEAD_SIZE);
            && DecodeHead(data) == Ok(Read(HeadOf(s), HEAD_SIZE))
            && sections.Ok? && sections.value.value == SectionsOf(s)
            && DecodeTail(data, sections.value.next) == Ok(TailOf(s))
  {
    var head := DecodeHead(data);
    if head.Err? { assert false; }
    HeadLayout(data);
    var sections := DecodeSections(data, HEAD_SIZE);
    if sections.Err? { assert false; }
    var tail := DecodeTail(data, sections.value.next);
    if tail.Err? { assert false; }
    assert DecodeSavefile(data) == Ok(Assemble(head.value.value, sections.value.value, tail.value));
  }

  /**
   * The companion-symbol section starts at byte 4552, and when every companion-symbol
   * name is shorter than its field the companion list starts at byte 6568.
   */
  lemma CompanionOffsets(data: seq<byte>)
    requires DecodeSavefile(data).Ok?
    ensures var s := DecodeSavefile(data).value;
            && Companion.ParseCompanionSymbols(data, COMPANION_SYMBOLS_OFFSET).Ok?
            && Companion.ParseCompanionSymbols(data, COMPANION_SYMBOLS_OFFSET).value.value == s.companionSymbols
    ensures var s := DecodeSavefile(data).value;
            (forall k | 0 <= k < |s.companionSymbols| :: |s.companionSymbols[k].name| < Companion.SYMBOL_NAME_SIZE) ==>
              && Companion.ParseCompanions(data, COMPANIONS_OFFSET).Ok?
              && Companion.ParseCompanions(data, COMPANIONS_OFFSET).value.value == s.companions
  {
    var s := DecodeSavefile(data).value;
    SavefileLayout(data);
    var sections := DecodeSections(data, HEAD_SIZE).value;
    SectionsLayout(data, HEAD_SIZE);
    TailLayout(data, sections.next);
    if forall k | 0 <= k < |s.companionSymbols| :: |s.companionSymbols[k].name| < Companion.SYMBOL_NAME_SIZE {
      Companion.CompanionSymbolsExtent(data, COMPANION_SYMBOLS_OFFSET);
      assert sections.next == COMPANION_SYMBOLS_OFFSET + Companion.SECTION_SIZE;
    }
  }

  /**
   * No input shorter than the companion-list offset plus one 32-byte probe decodes:
   * every decoded file is at least 6600 bytes long.
   */
  lemma MinimumSize(data: seq<byte>)
    requires DecodeSavefile(data).Ok?
    ensures COMPANIONS_OFFSET + Companion.ID_ENTRY_SIZE <= |data|
  {
    SavefileLayout(data);
    var sections := DecodeSections(data, HEAD_SIZE).value;
    SectionsLayout(data, HEAD_SIZE);
    TailLayout(data, sections.next);
    var companions := Companion.ParseCompanions(data, sections.next + 1056).value;
    assert COMPANIONS_OFFSET <= sections.next + 1056;
    assert companions.next + Companion.ID_ENTRY_SIZE <= |data|;
  }

  // ---------------------------------------------------------------------------
  // Failure

  /**
   * When the fields before it decode, a `collected_symbols` above 21 fails the
   * whole decode with that value, and no save is returned.
   */
  lemma CollectedSymbolsRejected(data: seq<byte>, collected: u32)
    requires 40 <= |data|
    requires SymbolField.ParseSymbol(data, 12).Ok? && ScarfField.ParseScarf(data, 16).Ok?
    requires LevelField.ParseLevel(data, 24).Ok?
    requires ParseU32(data, 36) == Ok(Read(collected, 40)) && collected > MAX_COLLECTED_SYMBOLS
    ensures ParseSavefile(data) == Err(DeserializationFailed(AssertFailed(CollectedSymbolsField, collected)))
  {
    assert DecodeHead(data) == Err(AssertFailed(CollectedSymbolsField, collected));
  }

  /**
   * A save whose symbol is 20 is written, but its own decode refuses it at the
   * symbol's assertion. The setters and the wrapping steps all hold symbol 20, so the
   * library can write a file it does not read back.
   */
  lemma SymbolRejected(s: SaveData)
    requires Timestamp.TicksFit(s.lastPlayed) && |s.companionSymbols| <= Companion.MAX_SYMBOL_ENTRIES
    requires |s.unknown0| == 8 && s.symbol == SymbolField.MAX_SYMBOL_ID
    ensures ParseSavefile(SavefileBytes(s)) == Err(DeserializationFailed(AssertFailed(Field.SymbolField, s.symbol)))
  {
    var data := SavefileBytes(s);
    var front := s.unknown0 + LeBytes(s.robe, 4) + LeBytes(s.symbol, 4);
    assert data[..16] == front;
    SliceSplit(data, 0, s.unknown0 + LeBytes(s.robe, 4), LeBytes(s.symbol, 4));
    SliceSplit(data, 0, s.unknown0, LeBytes(s.robe, 4));
    ParseU32Of(data, 8, s.robe);
    SymbolField.ParseSymbolOf(data, 12, s.symbol);
    assert DecodeHead(data) == Err(AssertFailed(Field.SymbolField, s.symbol));
  }

  /** A save that decodes never holds more than 21 collected symbols. */
  lemma DecodedCollectedSymbols(data: seq<byte>)
    requires ParseSavefile(data).Ok?
    ensures ParseSavefile(data).value.collectedSymbols <= MAX_COLLECTED_SYMBOLS
  {
    SavefileLayout(data);
    HeadLayout(data);
  }

  /** A decoded head holds only what the head decode accepts, so it can be written again. */
  lemma DecodedHeadValid(data: seq<byte>)
    requires DecodeSavefile(data).Ok?
    ensures HeadValid(DecodeSavefile(data).value)
  {
    SavefileLayout(data);
    HeadLayout(data);
    var raw := ParseU64(data, 64).value.value;
    Timestamp.TicksTruncation(ToI64(raw));
  }

  /** Decoded sections are well-formed once there are fewer than 16 entries and their names fit. */
  lemma DecodedSectionsValid(data: seq<byte>)
    requires DecodeSavefile(data).Ok?
    requires var cs := DecodeSavefile(data).value.companionSymbols;
             |cs| < Companion.MAX_SYMBOL_ENTRIES
             && forall k | 0 <= k < |cs| :: |cs[k].name| < Companion.SYMBOL_NAME_SIZE
    ensures SectionsValid(DecodeSavefile(data).value)
  {
    SavefileLayout(data);
    SectionsLayout(data, HEAD_SIZE);
    Companion.ParsedSymbolEntriesValid(data, HEAD_SIZE + GlyphFlags.SECTION_SIZE + 2404);
  }

  /** The companions of a decoded tail, with names that fit, are valid records. */
  lemma TailDecodedRecords(data: seq<byte>, pos: nat)
    requires DecodeTail(data, pos).Ok?
    requires var cs := DecodeTail(data, pos).value.companions;
             forall k | 0 <= k < |cs| :: |cs[k].name| < Companion.ID_NAME_SIZE
    ensures var cs := DecodeTail(data, pos).value.companions;
            forall k | 0 <= k < |cs| :: Companion.IdRecordValid(cs[k])
  {
    TailLayout(data, pos);
    Companion.ParsedCompanionsValid(data, pos + 1056);
  }

  /** The trailing run of a decoded tail begins with a full 32-byte probe without the marker. */
  lemma TailDecodedProbe(data: seq<byte>, pos: nat)
    requires DecodeTail(data, pos).Ok?
    ensures var t := DecodeTail(data, pos).value;
            |t.unknown8| >= Companion.ID_ENTRY_SIZE
            && t.unknown8[Companion.ID_RECORD_SIZE..Companion.ID_ENTRY_SIZE] != Companion.MARKER
  {
    var t := DecodeTail(data, pos).value;
    TailLayout(data, pos);
    var end := Companion.ParseCompanions(data, pos + 1056).value.next;
    assert t.unknown8[Companion.ID_RECORD_SIZE..Companion.ID_ENTRY_SIZE]
        == data[end + Companion.ID_RECORD_SIZE..end + Companion.ID_ENTRY_SIZE];
  }

  /**
   * A decoded tail, with companion names that fit, has the shape a written tail needs:
   * the list ended at a full probe without the marker, and the trailing run starts there.
   */
  lemma TailDecodedShape(data: seq<byte>, pos: nat)
    requires DecodeTail(data, pos).Ok?
    requires var cs := DecodeTail(data, pos).value.companions;
             forall k | 0 <= k < |cs| :: |cs[k].name| < Companion.ID_NAME_SIZE
    ensures var t := DecodeTail(data, pos).value;
            && |t.unknown6| == 1024 && |t.unknown7| == 24
            && (forall k | 0 <= k < |t.companions| :: Companion.IdRecordValid(t.companions[k]))
            && |t.unknown8| >= Companion.ID_ENTRY_SIZE
            && t.unknown8[Companion.ID_RECORD_SIZE..Companion.ID_ENTRY_SIZE] != Companion.MARKER
  {
    TailLayout(data, pos);
    TailDecodedRecords(data, pos);
    TailDecodedProbe(data, pos);
  }

  /** A decoded tail is well-formed once the companion names fit. */
  lemma DecodedTailValid(data: seq<byte>)
    requires DecodeSavefile(data).Ok?
    requires var cs := DecodeSavefile(data).value.companions;
             forall k | 0 <= k < |cs| :: |cs[k].name| < Companion.ID_NAME_SIZE
    ensures TailValid(DecodeSavefile(data).value)
  {
    SavefileLayout(data);
    TailDecodedShape(data, DecodeSections(data, HEAD_SIZE).value.next);
  }

  /**
   * Writing a decoded save back and decoding it again gives the same save, when its
   * names fit their fields and it holds fewer than 16 companion symbols.
   */
  lemma DecodedRoundTrip(data: seq<byte>)
    requires ParseSavefile(data).Ok?
    requires var s := ParseSavefile(data).value;
             && |s.companionSymbols| < Companion.MAX_SYMBOL_ENTRIES
             && (forall k | 0 <= k < |s.companionSymbols| :: |s.companionSymbols[k].name| < Companion.SYMBOL_NAME_SIZE)
             && (forall k | 0 <= k < |s.companions| :: |s.companions[k].name| < Companion.ID_NAME_SIZE)
    ensures WellFormed(ParseSavefile(data).value)
    ensures ParseSavefile(SavefileBytes(ParseSavefile(data).value)) == ParseSavefile(data)
  {
    DecodedHeadValid(data);
    DecodedSectionsValid(data);
    DecodedTailValid(data);
    SavefileRoundTrip(ParseSavefile(data).value);
  }

  // ---------------------------------------------------------------------------
  // Current and past companions

  /** The entries of `cs`, numbered from `index`, whose number is below `met`. */
  function CurrentFrom(cs: seq<Companion.CompanionWithId>, index: nat, met: nat): (r: seq<Companion.CompanionWithId>)
    ensures |r| <= |cs|
  {
    if cs == [] then []
    else (if index < met then [cs[0]] else []) + CurrentFrom(cs[1..], index + 1, met)
  }

  /** The entries of `cs`, numbered from `index`, whose number is at least `met`. */
  function PastFrom(cs: seq<Companion.CompanionWithId>, index: nat, met: nat): (r: seq<Companion.CompanionWithId>)
    ensures |r| <= |cs|
  {
    if cs == [] then []
    else (if index >= met then [cs[0]] else []) + PastFrom(cs[1..], index + 1, met)
  }

  /** `current_companions`: the companions whose position is below `companions_met`. */
  function CurrentCompanions(s: SaveData): seq<Companion.CompanionWithId> {
    CurrentFrom(s.companions, 0, s.companionsMet)
  }

  /** `past_companions`: the companions whose position is `companions_met` or more. */
  function PastCompanions(s: SaveData): seq<Companion.CompanionWithId> {
    PastFrom(s.companions, 0, s.companionsMet)
  }

  /** How many of the entries numbered from `index` come before `met`. */
  function SplitPoint(count: nat, index: nat, met: nat): (k: nat)
    ensures k <= count
  {
    if met <= index then 0 else if met - index < count then met - index else count
  }

  /** The entries numbered below `met` are a prefix. */
  lemma {:induction false} CurrentFromPrefix(cs: seq<Companion.CompanionWithId>, index: nat, met: nat)
    ensures CurrentFrom(cs, index, met) == cs[..SplitPoint(|cs|, index, met)]
    decreases |cs|
  {
    if cs != [] {
      CurrentFromPrefix(cs[1..], index + 1, met);
      var k := SplitPoint(|cs|, index, met);
      if index < met {
        assert k == SplitPoint(|cs| - 1, index + 1, met) + 1;
        assert [cs[0]] + cs[1..][..k - 1] == cs[..k];
      } else {
        assert SplitPoint(|cs| - 1, index + 1, met) == 0;
      }
    }
  }

  /** The entries numbered from `met` on are the matching suffix. */
  lemma {:induction false} PastFromSuffix(cs: seq<Companion.CompanionWithId>, index: nat, met: nat)
    ensures PastFrom(cs, index, met) == cs[SplitPoint(|cs|, index, met)..]
    decreases |cs|
  {
    if cs != [] {
      PastFromSuffix(cs[1..], index + 1, met);
      var k := SplitPoint(|cs|, index, met);
      if index < met {
        assert k == SplitPoint(|cs| - 1, index + 1, met) + 1;
        assert cs[1..][k - 1..] == cs[k..];
      } else {
        assert k == 0 && SplitPoint(|cs| - 1, index + 1, met) == 0;
        assert [cs[0]] + cs[1..] == cs;
      }
    }
  }

  lemma FromSplit(cs: seq<Companion.CompanionWithId>, index: nat, met: nat)
    ensures CurrentFrom(cs, index, met) == cs[..SplitPoint(|cs|, index, met)]
    ensures PastFrom(cs, index, met) == cs[SplitPoint(|cs|, index, met)..]
  {
    CurrentFromPrefix(cs, index, met);
    PastFromSuffix(cs, index, met);
  }

  /**
   * The current companions are the first `min(companions_met, len)` entries in
   * order, the past ones are the rest in order, and together they are the whole list.
   */
  lemma CompanionSplit(s: SaveData)
    ensures var k := if s.companionsMet < |s.companions| then s.companionsMet else |s.companions|;
            && CurrentCompanions(s) == s.companions[..k]
            && PastCompanions(s) == s.companions[k..]
            && CurrentCompanions(s) + PastCompanions(s) == s.companions
  {
    FromSplit(s.companions, 0, s.companionsMet);
    var k := SplitPoint(|s.companions|, 0, s.companionsMet);
    assert s.companions[..k] + s.companions[k..] == s.companions;
  }

  /** Eight companions of which six were met: six current and two past. */
  lemma SixOfEightMet(s: SaveData)
    requires |s.companions| == 8 && s.companionsMet == 6
    ensures |CurrentCompanions(s)| == 6 && |PastCompanions(s)| == 2
  {
    CompanionSplit(s);
  }
}
