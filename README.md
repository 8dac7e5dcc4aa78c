# Save-file codec, modelled in Dafny

This project models the `crates/save` library: the reader and writer of a game's
fixed-layout, little-endian binary save file. The file holds a head of scalar fields
(robe, symbol, scarf length, current level, symbol counters, mural flags, last-played
time, journey count) and two fixed-size sections: 2064 bytes of glyph flags, and
960 bytes of companion symbols. After the sections come the companion counters and
the list of companions met. Unknown runs between the fields are copied verbatim.
The list has no length prefix. It ends when a 4-byte marker is missing. Everything
after it is kept as an opaque tail.

Modules, one per source file:

- `Binary` (`binary.dfy`): the byte reader shared by all decoders. It reads little-endian
  unsigned integers, fixed runs, NUL-padded names and the rest of the input from a
  cursor, and can write each of them back. The cursor may be past the end of the input;
  a read past the end fails with `UnexpectedEof`, as a seek followed by a short read does.
- `Errors`, `Wrappers`: the decode errors (an assertion failure names its field and
  carries the offending value) and the `Result`/`Option`/`Outcome` types.
- `Save` (`savefile.dfy`, from `lib.rs`): the whole-file decoder and encoder. They are
  given as functions. The methods `ReadSavefile` and `WriteSavefile` advance one cursor,
  or one output buffer, field by field, as the derived reader and writer do. Also here:
  the split of the companion list into current and past companions.
- `Timestamp` (`timestamp.dfy`, from `lib.rs`): FILETIME ticks to and from Unix
  milliseconds, with `i64` truncating division.
- `Companion` (`companion.dfy`): the two list codecs and their record layouts. The list
  readers and writers are methods with loops, proved equal to recursive decode and
  encode functions.
- `RobeField`, `LevelField`, `SymbolField`, `ScarfField`: the validated scalar fields.
  Each is a class whose methods update its one field in place and return an error
  when they refuse.
- `GlyphFlags`, `MuralFlags`: the bit-packed collectibles.

`set_color` adds or subtracts `MAX_RED_TIER_ID`, which is 3 (`robe.rs:43-45`). So red
values 1..=3 turn into white 4..=6 with the same tier, white 4 turns into red 1, and
white 7 turns into 4, which is still white.

## Model

| member | source | states |
|---|---|---|
| `Save.ReadSavefile` | crates/save/src/lib.rs:143-148 | The field-by-field reader returns exactly the decode of the whole file: the saved data, or `DeserializationFailed` carrying the first field's error, with no partial result |
| `Save.WriteSavefile` | crates/save/src/lib.rs:150-157 | The field-by-field writer emits the file's encoding: head, sections and tail in declaration order, each opaque run verbatim |
| `Save.WriteHead` | crates/save/src/lib.rs:73-104 | The head fields appended one by one give the head's encoding |
| `Save.WriteTail` | crates/save/src/lib.rs:113-126 | The counters, runs, companion list and trailing run appended one by one give the tail's encoding |
| `Save.SavefileRoundTrip` | crates/save/src/lib.rs:66-127 | Every well-formed save data written to bytes decodes back to itself |
| `Save.DecodedRoundTrip` | crates/save/src/lib.rs:143-157 | A save read from any bytes, with fewer than 16 companion symbols and every name shorter than its field, is well-formed, and writing it and reading it again gives the same save |
| `Save.DecodedHeadValid` | crates/save/src/lib.rs:73-104 | A decoded head has runs of their widths, a symbol below 20, at most 21 collected symbols and a timestamp whose ticks fit `i64`, so it can be written again |
| `Save.DecodedSectionsValid` | crates/save/src/lib.rs:106-111 | Decoded sections with fewer than 16 entries whose names fit have six full glyph blocks, the 2404-byte run and valid entries |
| `Save.TailDecodedRecords` | crates/save/src/lib.rs:123-123 | The companions of a decoded tail, once their names fit, are all records the writer can reproduce |
| `Save.TailDecodedProbe` | crates/save/src/lib.rs:123-126 | The trailing run of a decoded tail starts with 32 bytes whose last 4 are not the marker |
| `Save.TailDecodedShape` | crates/save/src/lib.rs:113-126 | A decoded tail whose companion names fit has runs of their widths and valid records, and its trailing run begins with a full 32-byte probe without the marker |
| `Save.DecodedTailValid` | crates/save/src/lib.rs:113-126 | The tail of a decoded save whose companion names fit can be written again and read back |
| `Save.HeadSlices` | crates/save/src/lib.rs:73-104 | In a written head the thirteen fields sit at offsets 0, 8, 12, 16, 20, 24, 32, 36, 40, 42, 64, 72 and 76, with widths 8, 4, 4, 4, 4, 8, 4, 4, 2, 22, 8, 4 and 8 |
| `Save.HeadRoundTrip` | crates/save/src/lib.rs:73-104 | A valid head written to the first 84 bytes decodes to the same fields, and the cursor ends at 84 |
| `Save.SectionsRoundTrip` | crates/save/src/lib.rs:106-111 | Valid glyphs, the 2404-byte run and fewer than 16 companion symbols decode back from their 5428 written bytes |
| `Save.TailSlices` | crates/save/src/lib.rs:113-126 | In a written tail: the counters and runs at +0, +4, +1028 and +1032; the companion list from +1056, 32 bytes per companion; then the trailing run up to the end |
| `Save.TailRoundTrip` | crates/save/src/lib.rs:113-126 | A valid written tail decodes back to the same counters, runs, companion list and trailing bytes |
| `Save.HeadLayout` | crates/save/src/lib.rs:73-104 | When the head decodes, each of its fields is the decode at its fixed offset, the cursor ends at 84, and `collected_symbols` is at most 21 |
| `Save.SectionsLayout` | crates/save/src/lib.rs:106-111 | When the sections decode, the glyphs come from their start, the run from 2064 bytes on, and the companion symbols from 4468 bytes on; the cursor ends at least 5428 bytes on |
| `Save.TailLayout` | crates/save/src/lib.rs:113-126 | When the tail decodes, its counters and runs are at fixed offsets and the list starts 1056 bytes in. The list ends at a probe that found 32 bytes and no marker, and the trailing run is every byte from there |
| `Save.SavefileLayout` | crates/save/src/lib.rs:66-127 | A decoded file is its head decoded at 0, its sections decoded at 84, and its tail decoded where the sections ended |
| `Save.CompanionOffsets` | crates/save/src/lib.rs:73-123 | In any decodable file the companion-symbol section starts at byte 4552; when every symbol name fits its field, the companion list starts at byte 6568 |
| `Save.MinimumSize` | crates/save/src/lib.rs:73-126 | A decodable file is at least 6600 bytes long: the fixed part and the first list probe |
| `Save.CollectedSymbolsRejected` | crates/save/src/lib.rs:87-90 | A `collected_symbols` above 21 after valid earlier fields fails the whole decode with `DeserializationFailed` of that assertion and its value |
| `Save.SymbolRejected` | crates/save/src/symbol.rs:16-46 | A save holding symbol 20, which `set_by_id` and both wrapping steps produce, is written, but its encoding fails to decode with `DeserializationFailed` of the symbol assertion |
| `Save.DecodedCollectedSymbols` | crates/save/src/lib.rs:89-90 | Every decoded save has `collected_symbols` at most 21 |
| `Save.CurrentFromPrefix` | crates/save/src/lib.rs:159-170 | The entries numbered below `companions_met` form a prefix of the list |
| `Save.PastFromSuffix` | crates/save/src/lib.rs:172-183 | The entries numbered from `companions_met` on form the matching suffix |
| `Save.FromSplit` | crates/save/src/lib.rs:159-183 | Filtering by index below or at-or-above `companions_met` keeps a prefix and the matching suffix |
| `Save.CompanionSplit` | crates/save/src/lib.rs:159-183 | Current companions are the first `min(companions_met, len)` entries in order, past companions are the rest in order, and together they are the whole list |
| `Save.SixOfEightMet` | crates/save/src/test.rs:77-90 | With 8 companions and 6 met, 6 are current and 2 are past |
| `Timestamp.TicksToUnixMs` | crates/save/src/lib.rs:186-195 | The decoded instant is the tick count divided by 10000, truncated toward zero, less the 1601-to-1970 offset. It stays inside the calendar's range, so the date conversion never fails |
| `Timestamp.TicksRoundTrip` | crates/save/src/lib.rs:186-205 | Decoding the ticks an instant encodes to gives back that instant |
| `Timestamp.TicksTruncation` | crates/save/src/lib.rs:186-205 | Re-encoding a decoded tick count gives it back exactly when it is a multiple of 10000; otherwise the sub-millisecond part is lost toward zero |
| `Timestamp.LastPlayedBytes` | crates/save/src/lib.rs:197-205 | The timestamp is written as 8 bytes |
| `Timestamp.LastPlayedRoundTrip` | crates/save/src/lib.rs:97-99 | The 8 written bytes read back as the same instant, and the cursor advances by 8 |
| `Companion.ParseCompanionWithId` | crates/save/src/companion.rs:139-147 | A decoded record is the padded name followed by the `u32` read right after it, and that id is nonzero; a zero id fails with the steam-id assertion, and a failing name read passes its error through. The record spans at least 28 bytes, exactly 28 when its name is shorter than the 24-byte field |
| `Companion.CompanionWithIdBytes` | crates/save/src/companion.rs:139-147 | A record whose name fits is written in 28 bytes |
| `Companion.CompanionWithIdRoundTrip` | crates/save/src/companion.rs:139-147 | A record with a NUL-free name under 24 bytes and a nonzero id reads back from its 28 written bytes |
| `Companion.CompanionWithIdValid` | crates/save/src/companion.rs:141-146 | A decoded record has a nonzero id and a NUL-free name |
| `Companion.ParseCompanionWithSymbol` | crates/save/src/companion.rs:162-173 | A decoded record is the padded name, the 4 bytes after it and the `u32` after those, with symbol 0..=21; a symbol above 21 fails with the companion-symbol assertion and that value, and a failing name read passes its error through. The record spans at least 60 bytes, exactly 60 when its name is shorter than the 52-byte field |
| `Companion.CompanionWithSymbolBytes` | crates/save/src/companion.rs:162-173 | A record whose name fits and whose reserved run has 4 bytes is written in 60 bytes |
| `Companion.CompanionWithSymbolRoundTrip` | crates/save/src/companion.rs:162-173 | A record with a NUL-free name under 52 bytes, a 4-byte run and symbol at most 21 reads back from its 60 written bytes |
| `Companion.ParseCompanions` | crates/save/src/companion.rs:32-46 | Each decoded companion moves the cursor on by at least 32 bytes |
| `Companion.ParsedCompanionsValid` | crates/save/src/companion.rs:32-46 | Every companion in a decoded list has a nonzero id and a NUL-free name |
| `Companion.CompanionsEndAtProbe` | crates/save/src/companion.rs:32-40 | A decoded list ends where a probe found 32 bytes and no marker at +28 |
| `Companion.CompanionsEnd` | crates/save/src/companion.rs:34-40 | A probe with 32 bytes available and no marker ends the list with the cursor where it was before the probe |
| `Companion.CompanionsCons` | crates/save/src/companion.rs:38-45 | A probe that finds the marker reads one record, skips the marker, and continues the list after it |
| `Companion.CompanionsErr` | crates/save/src/companion.rs:42-42 | A record that fails after a marker fails the whole list with its error |
| `Companion.CompanionsEof` | crates/save/src/companion.rs:34-37 | A probe with fewer than 32 bytes left fails the list with `UnexpectedEof` |
| `Companion.ReadCompanions` | crates/save/src/companion.rs:22-49 | The probing loop returns exactly the list decode, including `UnexpectedEof` when fewer than 32 bytes remain at a probe |
| `Companion.WriteCompanions` | crates/save/src/companion.rs:52-67 | The loop writes each record followed by the marker, with nothing after the last |
| `Companion.CompanionsBytesLength` | crates/save/src/companion.rs:61-64 | A list whose names fit is written in 32 bytes per companion |
| `Companion.CompanionsBytesAppend` | crates/save/src/companion.rs:61-64 | Appending a companion appends its record and a marker to the encoding |
| `Companion.CompanionsRoundTrip` | crates/save/src/companion.rs:32-64 | Valid companions read back from their encoding when the bytes after it hold a full probe without the marker; the cursor ends right after the last marker |
| `Companion.ParseSymbolEntries` | crates/save/src/companion.rs:98-109 | Each decoded entry moves the cursor on by at least 60 bytes |
| `Companion.ParsedSymbolEntriesValid` | crates/save/src/companion.rs:100-108 | Decoded entries have nonempty NUL-free names, 4-byte reserved runs and symbols 0..=21, and the list ends at a sentinel that itself decoded in full with an empty name |
| `Companion.SymbolEntriesExtent` | crates/save/src/companion.rs:100-109 | When the names fit their field the entries end exactly 60 bytes per entry after the start |
| `Companion.ParseCompanionSymbols` | crates/save/src/companion.rs:98-114 | The section decodes exactly when its entries do, to the same entries, and the cursor ends at least 960 bytes past the start |
| `Companion.CompanionSymbolsExtent` | crates/save/src/companion.rs:98-113 | When the names fit their field the cursor ends exactly 960 bytes past the section start |
| `Companion.SymbolEntriesBytesLength` | crates/save/src/companion.rs:127-129 | Entries whose names fit are written in 60 bytes each |
| `Companion.CompanionSymbolsBytesLength` | crates/save/src/companion.rs:118-136 | A section of at most 16 entries whose names fit is always written in exactly 960 bytes |
| `Companion.SymbolEntriesBytesAppend` | crates/save/src/companion.rs:127-129 | Appending an entry appends its 60-byte record to the encoding |
| `Companion.SentinelOfZeros` | crates/save/src/companion.rs:101-105 | 60 zero bytes decode as an empty-named record and end the list where it stands |
| `Companion.SymbolEntriesRoundTrip` | crates/save/src/companion.rs:98-109 | Valid entries followed by 60 zero bytes read back, and the cursor ends at the sentinel |
| `Companion.CompanionSymbolsRoundTrip` | crates/save/src/companion.rs:98-133 | A section of at most 15 valid entries reads back from its 960 written bytes, the padding acting as the sentinel |
| `Companion.FullSectionReadsPast` | crates/save/src/companion.rs:98-133 | A section of 16 entries has no room for a sentinel: it reads back only if the 60 bytes after the section decode as a record whose name starts with NUL |
| `Companion.SymbolEntriesErr` | crates/save/src/companion.rs:101-101 | A record that fails to decode fails the list, the sentinel included |
| `Companion.SymbolEntriesSentinel` | crates/save/src/companion.rs:103-105 | An empty-named record ends the list and the cursor steps back over it |
| `Companion.CompanionSymbolsOfEntries` | crates/save/src/companion.rs:111-112 | After the entries the section decode skips `960 - 60 * n` bytes; an entry error passes through |
| `Companion.ReadCompanionSymbols` | crates/save/src/companion.rs:87-116 | The reading loop returns exactly the section decode |
| `Companion.WriteCompanionSymbols` | crates/save/src/companion.rs:118-136 | The loop writes each entry, then `960 - 60 * n` zero bytes |
| `RobeField.TierOf` | crates/save/src/robe.rs:59-64 | A red robe has tier 1..=4; a white robe has tier at least 2 |
| `RobeField.TierDeterminesValue` | crates/save/src/robe.rs:33-64 | Colour and tier together determine the stored value |
| `RobeField.ColorChanged` | crates/save/src/robe.rs:41-48 | Setting the current colour changes nothing. Red to white keeps the tier but raises tier 1 to 2. White to red is red exactly for values up to 6, and then keeps the tier; above 6 it subtracts 3 and stays white |
| `RobeField.ColorRoundTrip` | crates/save/src/robe.rs:131-165 | Red to white to red restores the value, except value 0, which comes back as 1. White values up to 6 survive red and back |
| `RobeField.Swapped` | crates/save/src/robe.rs:50-57 | Swapping flips the colour for values 0..=6; above 6 it stays white and loses 3 |
| `RobeField.TierChanged` | crates/save/src/robe.rs:66-80 | Setting a tier succeeds exactly for 1..=4, except 1 on a white robe. On success the tier is the one asked for and the colour is unchanged. `TierOutOfRange` is returned exactly for tiers outside 1..=4, and `WhiteTierMinimum` exactly for tier 1 on a white robe |
| `RobeField.TierIncreased` | crates/save/src/robe.rs:82-84 | Raising the tier keeps the colour; below tier 4 it adds one, otherwise it changes nothing |
| `RobeField.TierDecreased` | crates/save/src/robe.rs:86-88 | Lowering the tier keeps the colour; it subtracts one when the lower tier is allowed, otherwise it changes nothing |
| `RobeField.OperationsStayInRange` | crates/save/src/robe.rs:41-88 | From a value 0..=6 every robe operation yields a value 0..=6 |
| `RobeField.ColorNameRoundTrip` | crates/save/src/robe.rs:104-123 | A colour's displayed name parses back to it; exactly `Red`, `red`, `White` and `white` parse |
| `RobeField.Robe.SetColor` | crates/save/src/robe.rs:41-48 | The robe's value becomes the colour change of its old value |
| `RobeField.Robe.SwapColors` | crates/save/src/robe.rs:50-57 | The robe's value becomes the swap of its old value |
| `RobeField.Robe.SetTier` | crates/save/src/robe.rs:66-80 | Success exactly when the tier is allowed for the colour, with the new value; otherwise the error and the old value, `WhiteTierMinimum` exactly for tier 1 on a white robe |
| `RobeField.Robe.IncreaseTier` | crates/save/src/robe.rs:82-84 | The value becomes the raised tier's value, or stays when the raise is refused |
| `RobeField.Robe.DecreaseTier` | crates/save/src/robe.rs:86-88 | The value becomes the lowered tier's value, or stays when the lowering is refused |
| `LevelField.ParseLevelOf` | crates/save/src/level.rs:26-30 | A stored id up to 11 reads back; a larger one fails with its value |
| `LevelField.Position` | crates/save/src/level.rs:43-47 | The lookup gives the first index holding the name, and nothing exactly when the name is absent |
| `LevelField.NamesDistinct` | crates/save/src/level.rs:10-23 | The twelve level names are pairwise distinct |
| `LevelField.NameLookupRoundTrip` | crates/save/src/level.rs:43-75 | Looking up the name a level displays gives back its id |
| `LevelField.WrappingInverse` | crates/save/src/level.rs:54-68 | Stepping forward then back, or back then forward, returns to the same id |
| `LevelField.WrappingCycle` | crates/save/src/level.rs:54-61 | n steps forward from an id reach `(id + n) mod 12` |
| `LevelField.Level.SetById` | crates/save/src/level.rs:33-41 | Ids above 11 fail with `LevelIdOutOfRange` and leave the level; others are set |
| `LevelField.Level.SetByName` | crates/save/src/level.rs:43-52 | Succeeds exactly for the twelve names, setting the id so the level displays that name; otherwise `LevelNameNotFound` and the level is unchanged |
| `LevelField.Level.WrappingNext` | crates/save/src/level.rs:54-61 | A new level one step forward, 11 wrapping to 0 |
| `LevelField.Level.WrappingPrevious` | crates/save/src/level.rs:63-68 | A new level one step back, 0 wrapping to 11 |
| `SymbolField.ParseSymbolOf` | crates/save/src/symbol.rs:15-19 | A stored id below 20 reads back; 20 and above fail with the value, though the setters accept 20 |
| `SymbolField.WrappingInverse` | crates/save/src/symbol.rs:32-46 | Stepping forward and back are inverse on 0..=20 |
| `SymbolField.SymbolPartIds` | crates/save/src/symbol.rs:66-93 | The parts table is defined exactly for ids 0..=20, and every part index it gives passes the drawing range check |
| `SymbolField.SymbolPartSlice` | crates/save/src/symbol.rs:131-136 | Part `idx` is the 20 characters from `22 * idx`, and distinct parts do not overlap |
| `SymbolField.Symbol.SetById` | crates/save/src/symbol.rs:22-30 | Ids above 20 fail with `SymbolIdOutOfRange` and leave the symbol; others are set |
| `SymbolField.Symbol.WrappingNext` | crates/save/src/symbol.rs:32-39 | A new symbol one step forward, 20 wrapping to 0 |
| `SymbolField.Symbol.WrappingPrevious` | crates/save/src/symbol.rs:41-46 | A new symbol one step back, 0 wrapping to 20 |
| `SymbolField.Symbol.Parts` | crates/save/src/symbol.rs:55-64 | Any symbol the class can hold has parts, all within the drawing range check, so displaying it never fails |
| `ScarfField.ParseScarfOf` | crates/save/src/scarf.rs:11-15 | A stored length up to 30 reads back; a longer one fails with its value |
| `ScarfField.Scarf.SetLength` | crates/save/src/scarf.rs:18-26 | Lengths above 30 fail with `ScarfTooLong` and leave the length; others are set |
| `ScarfField.Scarf.IncreaseLength` | crates/save/src/scarf.rs:28-37 | Fails with `ScarfMaxLength` exactly at 30, leaving the length; otherwise adds one |
| `ScarfField.Scarf.DecreaseLength` | crates/save/src/scarf.rs:39-45 | Fails with `ScarfMinLength` exactly at 0, leaving the length; otherwise subtracts one |
| `ScarfField.IncreaseThenDecrease` | crates/save/src/scarf.rs:28-45 | An increase then a decrease restores a length below 30; from 30 it ends at 29 |
| `GlyphFlags.ParseGlyphLevels` | crates/save/src/glyphs.rs:35-41 | n level blocks decode exactly when `n * 344` bytes are available, to n blocks with full reserved runs, ending `n * 344` bytes on |
| `GlyphFlags.ParseGlyphs` | crates/save/src/glyphs.rs:4-5 | The section decodes exactly when 2064 bytes are available, to six full blocks, ending 2064 bytes on |
| `GlyphFlags.GlyphLevelsBytesLength` | crates/save/src/glyphs.rs:35-41 | Blocks with full reserved runs are written in 344 bytes each |
| `GlyphFlags.GlyphsBytesLength` | crates/save/src/glyphs.rs:4-5 | A well-formed section is written in 2064 bytes |
| `GlyphFlags.GlyphLevelsRoundTrip` | crates/save/src/glyphs.rs:35-41 | Written blocks read back as the same blocks |
| `GlyphFlags.GlyphsRoundTrip` | crates/save/src/glyphs.rs:4-5 | A well-formed section reads back from its 2064 written bytes |
| `GlyphFlags.GlyphLevelsBytesOfParse` | crates/save/src/glyphs.rs:35-41 | Decoding blocks and writing them again reproduces the input bytes |
| `GlyphFlags.HasCollectedAsWritten` | crates/save/src/glyphs.rs:44-50 | The lookup as written: nothing exactly for indices above 8, bit `i` for indices below 8 |
| `GlyphFlags.IndexEightOverflows` | crates/save/src/glyphs.rs:44-50 | Index 8 passes the guard and shifts the 8-bit flags by 8, an overflow |
| `GlyphFlags.LevelHasCollected` | crates/save/src/glyphs.rs:44-50 | The corrected lookup answers exactly for indices below 8 |
| `GlyphFlags.CorrectedAgreesElsewhere` | crates/save/src/glyphs.rs:44-50 | Except at index 8, the corrected lookup answers what the source does |
| `GlyphFlags.LookupsDetermineFlags` | crates/save/src/glyphs.rs:44-50 | The eight answers of the corrected lookup determine the status byte |
| `GlyphFlags.HasCollected` | crates/save/src/glyphs.rs:25-31 | Through the corrected per-level lookup (see Findings): nothing for a level past the decoded blocks or an index of 8 or more, otherwise bit `index` of that level's flags |
| `GlyphFlags.All` | crates/save/src/glyphs.rs:8-19 | One list per level in order, of `COUNT[level]` answers, each the lookup's answer, so the unwrap never fails |
| `MuralFlags.FirstBit` | crates/save/src/murals.rs:21-21 | The first bit of each level's murals is 0, 1, 2, 4, 6, 7, 8 |
| `MuralFlags.PrefixSumsUpTo` | crates/save/src/murals.rs:10-21 | The prefix sums of the mural counts are 0, 1, 2, 4, 6, 7, 8, 10 |
| `MuralFlags.HasFound` | crates/save/src/murals.rs:12-19 | An answer exactly for level 0..=6 and an index below that level's count |
| `MuralFlags.MuralBit` | crates/save/src/murals.rs:21-22 | Every valid mural reads a bit below 10 |
| `MuralFlags.HasFoundReadsBit` | crates/save/src/murals.rs:21-23 | A valid lookup answers whether its mural's bit is set |
| `MuralFlags.MuralBitsDistinct` | crates/save/src/murals.rs:10-23 | Different murals read different bits |
| `MuralFlags.MuralBitsCover` | crates/save/src/murals.rs:10-23 | Every bit 0..=9 belongs to some mural |
| `MuralFlags.HighBitsIgnored` | crates/save/src/murals.rs:12-23 | Flags that agree on bits 0..=9 give the same answers; bits 10..15 are never read |
| `MuralFlags.MuralsBytes` | crates/save/src/murals.rs:4-7 | The flags are written in 2 bytes |
| `MuralFlags.MuralsRoundTrip` | crates/save/src/murals.rs:4-7 | The written flags read back, and the cursor advances by 2 |
| `MuralFlags.All` | crates/save/src/murals.rs:26-35 | Seven lists in level order, of `COUNT[level]` answers, each the lookup's answer, so the unwrap never fails |
| `Binary.LeRoundTrip` | crates/save/src/lib.rs:68-68 | A value below `256^n` written little-endian in n bytes reads back |
| `Binary.PaddedNameRoundTrip` | crates/save/src/companion.rs:141-142 | A NUL-free name shorter than its field, written NUL-padded, reads back as the bytes before the first NUL and the field's full width is consumed |

## Left out

- `Savefile::from_path` and the `path` field (`lib.rs:70-71`, `lib.rs:130-141`), with
  `FileReadingFailed`: file I/O. The model decodes a byte sequence.
- `SerializationFailed`: the writer's only failures are I/O errors, and the model writes
  to a sequence.
- The chrono date type: `last_played` is integer Unix milliseconds.
- binrw's reader and writer internals: the model reads a byte sequence through a cursor.
  Seek and I/O errors other than a short read are not modelled.
- The UTF-8 conversion of names: a name is the bytes before the first NUL in its field.
  A name that fills its whole field, with no NUL, is decoded past the field by the model's
  `ParsePaddedName`, and no round trip is claimed for it.
- `Companions::iter`/`count`, `CompanionSymbols::iter`/`count`, `Glyphs::count`, and
  the `AsRef`/`Display` impls that only print a field: accessors with nothing to prove.
  `Level`'s display is modelled as `Name`.
- `steam_id_v3` and `steam_url`: string formatting and a URL-encoding crate.
- The ASCII-art composition in `Symbol`'s display and `get_symbol_with_parts`: it
  depends on the text file `symbol_parts.txt`, which is not part of this model. Only the
  id-to-parts table, its range check and the part offsets are modelled.
- `GlyphFlags.GlyphsBytes`: `Glyphs` derives only a reader in the source. The model's
  writer mirrors the reader so that the whole-file round trip can be stated.
- `Timestamp.LastPlayedBytes`: requires the tick count to fit in `i64`. The source's
  multiplication would overflow there, panicking in a debug build and wrapping in a
  release build.
- `Save.WriteSavefile`: requires the tick count to fit in `i64`, and at most 16 companion
  symbols. With more, the source's padding is negative, and `padding as usize` asks
  for an impossible allocation.
- `Companion.WriteCompanionSymbols`: requires at most 16 entries, for the same reason.
- `Save.SavefileRoundTrip`: holds for well-formed data only. Fewer than 16 companion
  symbols are required, or the section holds no sentinel (see
  `Companion.FullSectionReadsPast`). The trailing bytes must hold a full probe without
  the marker, or the list would read on into them.
- `Save.DecodedRoundTrip`: does not cover a decoded save with exactly 16 companion
  symbols, or with a name that fills its whole field. The source writes the first back
  correctly, because the bytes after its section already decoded as the sentinel, but
  the model's round trip would have to carry those bytes along. For the second, the
  name was read on past its field (see the UTF-8 line above), and no round trip is
  claimed for it.
- `GlyphFlags.HasCollected`: uses the corrected per-level lookup `LevelHasCollected`
  (see Findings), so index 8 answers `None`. The source's `has_collected` reaches the
  `u8 >> 8` there, which panics in a debug build and, masked to a shift by 0, answers
  bit 0 in a release build. The as-written lookup is `HasCollectedAsWritten`.
- `Save.SavefileRoundTrip`: also requires the symbol to be below 20. The setters and the
  wrapping steps admit 20, but the reader's assertion (`symbol.rs:16-17`) refuses it, so
  a save holding symbol 20 is written but not read back (`Save.SymbolRejected`). Whether
  the reader or the setters are off by one is not evident from the code, so no corrected
  version is claimed.
- The payload of an assertion failure: binrw reports the stream position and the text
  of the failed condition. The model's `AssertFailed` names the field and carries the
  offending value instead, and drops the position. `LevelField.ParseLevelOf`,
  `ScarfField.ParseScarfOf`, `SymbolField.ParseSymbolOf` and
  `Save.CollectedSymbolsRejected` state their errors in this form.
- The decoder's three stages (`DecodeHead`, `DecodeSections`, `DecodeTail`) group the
  fields for the proofs only. They decode the same fields in the same order from the
  same cursor as the derived reader does.

## Findings

| source | as written | input that shows it | evidently intended | confidence | as-written member | corrected member |
|---|---|---|---|---|---|---|
| crates/save/src/glyphs.rs:44-50 | The guard `index > 8` lets index 8 through, and `status_flags >> 8` shifts a `u8` by its full width | `has_collected(8)` on any level block | Indices 0..=7 answer with their bit; 8 and above answer `None` | not executed | `GlyphFlags.HasCollectedAsWritten`, `GlyphFlags.IndexEightOverflows` | `GlyphFlags.LevelHasCollected`, `GlyphFlags.LookupsDetermineFlags` |
