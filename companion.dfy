/**
 * The two companion lists of the save file. Neither carries a length.
 *
 * `Companions` is a run of 32-byte entries (a 24-byte padded name, a `u32`
 * Steam id and a 4-byte marker); the list goes on while the marker is found
 * 28 bytes past the cursor.
 *
 * `CompanionSymbols` is a 960-byte section of 60-byte entries (a 52-byte padded
 * name, four reserved bytes and a `u32` symbol); the list ends at the first
 * entry whose name is empty, and the rest of the section is padding.
 */
module Companion {
  import opened Wrappers
  import opened Binary

  const ID_NAME_SIZE: nat := 24
  /** A `CompanionWithId` entry with its name inside the field. */
  const ID_RECORD_SIZE: nat := 28
  const MARKER: seq<byte> := [0x01, 0x00, 0x10, 0x01]
  /** One `Companions` entry: the record and the marker after it. */
  const ID_ENTRY_SIZE: nat := ID_RECORD_SIZE + 4

  const SYMBOL_NAME_SIZE: nat := 52
  const ENTRY_SIZE: nat := 60
  const SECTION_SIZE: nat := 960
  /** Entries that fit the section. */
  const MAX_SYMBOL_ENTRIES: nat := SECTION_SIZE / ENTRY_SIZE
  /** The highest symbol a companion may wear. */
  const MAX_COMPANION_SYMBOL: nat := 21

  /** A companion met on the journey: the name (bytes before the NUL) and a Steam id. */
  datatype CompanionWithId = CompanionWithId(name: seq<byte>, steamId: u32)

  /** A companion and the symbol it wore. */
  datatype CompanionWithSymbol = CompanionWithSymbol(name: seq<byte>, unknown: seq<byte>, symbol: u32)

  // ---------------------------------------------------------------------------
  // Records

  /** A `CompanionWithId`: a padded 24-byte name, then a `u32` that must not be 0. */
  function ParseCompanionWithId(data: seq<byte>, pos: nat): (r: Parsed<CompanionWithId>)
    ensures r.Ok? ==> pos + ID_RECORD_SIZE <= r.value.next <= |data|
    ensures r.Ok? ==> r.value.value.steamId != 0
    ensures var name := ParsePaddedName(data, pos, ID_NAME_SIZE);
            name.Err? ==> r == Err(name.error)
    ensures var name := ParsePaddedName(data, pos, ID_NAME_SIZE);
            r.Ok? ==> name.Ok? && r.value.value.name == name.value.value
                      && ParseU32(data, name.value.next) == Ok(Read(r.value.value.steamId, r.value.next))
    ensures var name := ParsePaddedName(data, pos, ID_NAME_SIZE);
            name.Ok? && ParseU32(data, name.value.next).Ok? && ParseU32(data, name.value.next).value.value == 0
            ==> r == Err(AssertFailed(SteamIdField, 0))
    ensures r.Ok? && |r.value.value.name| < ID_NAME_SIZE ==> r.value.next == pos + ID_RECORD_SIZE
  {
    var name := ParsePaddedName(data, pos, ID_NAME_SIZE);
    if name.Err? then Err(name.error)
    else
      var id := ParseU32(data, name.value.next);
      if id.Err? then Err(id.error)
      else if id.value.value == 0 then Err(AssertFailed(SteamIdField, 0))
      else Ok(Read(CompanionWithId(name.value.value, id.value.value), id.value.next))
  }

  function CompanionWithIdBytes(c: CompanionWithId): (bs: seq<byte>)
    ensures |c.name| < ID_NAME_SIZE ==> |bs| == ID_RECORD_SIZE
  {
    PaddedName(c.name, ID_NAME_SIZE) + LeBytes(c.steamId, 4)
  }

  /** The records the decoder can give back: a short NUL-free name and a nonzero id. */
  predicate IdRecordValid(c: CompanionWithId) {
    NulFree(c.name) && |c.name| < ID_NAME_SIZE && c.steamId != 0
  }

  lemma CompanionWithIdRoundTrip(c: CompanionWithId, data: seq<byte>, pos: nat)
    requires IdRecordValid(c)
    requires pos + ID_RECORD_SIZE <= |data| && data[pos..pos + ID_RECORD_SIZE] == CompanionWithIdBytes(c)
    ensures ParseCompanionWithId(data, pos) == Ok(Read(c, pos + ID_RECORD_SIZE))
  {
    SliceSplit(data, pos, PaddedName(c.name, ID_NAME_SIZE), LeBytes(c.steamId, 4));
    PaddedNameRoundTrip(c.name, ID_NAME_SIZE, data, pos);
    ParseU32Of(data, pos + ID_NAME_SIZE, c.steamId);
  }

  /**
   * A `CompanionWithSymbol`: a padded 52-byte name, four reserved bytes, then a
   * `u32` symbol that must lie in 0..=21.
   */
  function ParseCompanionWithSymbol(data: seq<byte>, pos: nat): (r: Parsed<CompanionWithSymbol>)
    ensures r.Ok? ==> pos + ENTRY_SIZE <= r.value.next <= |data|
    ensures r.Ok? ==> r.value.value.symbol <= MAX_COMPANION_SYMBOL && |r.value.value.unknown| == 4
    ensures var name := ParsePaddedName(data, pos, SYMBOL_NAME_SIZE);
            name.Err? ==> r == Err(name.error)
    ensures var name := ParsePaddedName(data, pos, SYMBOL_NAME_SIZE);
            r.Ok? ==> name.Ok? && r.value.value.name == name.value.value
                      && ParseBytes(data, name.value.next, 4) == Ok(Read(r.value.value.unknown, name.value.next + 4))
                      && ParseU32(data, name.value.next + 4) == Ok(Read(r.value.value.symbol, r.value.next))
    ensures var name := ParsePaddedName(data, pos, SYMBOL_NAME_SIZE);
            name.Ok? ==>
              var symbol := ParseU32(data, name.value.next + 4);
              symbol.Ok? && symbol.value.value > MAX_COMPANION_SYMBOL
              ==> r == Err(AssertFailed(CompanionSymbolField, symbol.value.value))
    ensures r.Ok? && |r.value.value.name| < SYMBOL_NAME_SIZE ==> r.value.next == pos + ENTRY_SIZE
  {
    var name := ParsePaddedName(data, pos, SYMBOL_NAME_SIZE);
    if name.Err? then Err(name.error)
    else
      var unknown := ParseBytes(data, name.value.next, 4);
      if unknown.Err? then Err(unknown.error)
      else
        var symbol := ParseU32(data, unknown.value.next);
        if symbol.Err? then Err(symbol.error)
        else if symbol.value.value > MAX_COMPANION_SYMBOL then
          Err(AssertFailed(CompanionSymbolField, symbol.value.value))
        else Ok(Read(CompanionWithSymbol(name.value.value, unknown.value.value, symbol.value.value), symbol.value.next))
  }

  function CompanionWithSymbolBytes(c: CompanionWithSymbol): (bs: seq<byte>)
    ensures |c.name| < SYMBOL_NAME_SIZE && |c.unknown| == 4 ==> |bs| == ENTRY_SIZE
  {
    PaddedName(c.name, SYMBOL_NAME_SIZE) + c.unknown + LeBytes(c.symbol, 4)
  }

  /** The entries the decoder can give back as list members: a short, nonempty NUL-free name. */
  predicate SymbolRecordValid(c: CompanionWithSymbol) {
    NulFree(c.name) && 0 < |c.name| < SYMBOL_NAME_SIZE && |c.unknown| == 4
    && c.symbol <= MAX_COMPANION_SYMBOL
  }

  lemma CompanionWithSymbolRoundTrip(c: CompanionWithSymbol, data: seq<byte>, pos: nat)
    requires NulFree(c.name) && |c.name| < SYMBOL_NAME_SIZE && |c.unknown| == 4
    requires c.symbol <= MAX_COMPANION_SYMBOL
    requires pos + ENTRY_SIZE <= |data| && data[pos..pos + ENTRY_SIZE] == CompanionWithSymbolBytes(c)
    ensures ParseCompanionWithSymbol(data, pos) == Ok(Read(c, pos + ENTRY_SIZE))
  {
    var n := SYMBOL_NAME_SIZE;
    var name := PaddedName(c.name, n);
    SliceSplit(data, pos, name + c.unknown, LeBytes(c.symbol, 4));
    SliceSplit(data, pos, name, c.unknown);
    PaddedNameRoundTrip(c.name, n, data, pos);
    ParseU32Of(data, pos + n + 4, c.symbol);
  }

  // ---------------------------------------------------------------------------
  // Companions: the marker-probed list

  /** The 4 bytes the probe looks at hold the marker. */
  predicate MarkerAt(data: seq<byte>, pos: nat)
    requires pos + ID_ENTRY_SIZE <= |data|
  {
    data[pos + ID_RECORD_SIZE..pos + ID_ENTRY_SIZE] == MARKER
  }

  /**
   * Decoding the list. Each step probes the 4 bytes 28 past the cursor: too few
   * bytes is an error, no marker ends the list with the cursor where it was, and a
   * marker means a record is read and the marker after it skipped.
   * The cursor never moves back.
   */
  function ParseCompanions(data: seq<byte>, pos: nat): (r: Parsed<seq<CompanionWithId>>)
    ensures r.Ok? ==> pos + ID_ENTRY_SIZE * |r.value.value| <= r.value.next
    decreases |data| + 4 - pos
  {
    if pos + ID_ENTRY_SIZE > |data| then Err(UnexpectedEof)
    else if !MarkerAt(data, pos) then Ok(Read([], pos))
    else
      var c := ParseCompanionWithId(data, pos);
      if c.Err? then Err(c.error)
      else Prepend([c.value.value], ParseCompanions(data, c.value.next + 4))
  }

  /** Every decoded entry has a NUL-free name and a nonzero id. */
  lemma {:induction false} ParsedCompanionsValid(data: seq<byte>, pos: nat)
    requires ParseCompanions(data, pos).Ok?
    ensures var cs := ParseCompanions(data, pos).value.value;
            forall k | 0 <= k < |cs| :: cs[k].steamId != 0 && NulFree(cs[k].name)
    decreases |data| + 4 - pos
  {
    if MarkerAt(data, pos) {
      var c := ParseCompanionWithId(data, pos).value;
      CompanionsCons(data, pos, c);
      CompanionWithIdValid(data, pos);
      var rest := ParseCompanions(data, c.next + 4).value.value;
      ParsedCompanionsValid(data, c.next + 4);
      assert ParseCompanions(data, pos).value.value == [c.value] + rest;
      DecodedEntriesCons(c.value, rest);
    }
  }

  /** A decoded entry in front of decoded entries: all of them have a nonzero id and a NUL-free name. */
  lemma DecodedEntriesCons(c: CompanionWithId, rest: seq<CompanionWithId>)
    requires c.steamId != 0 && NulFree(c.name)
    requires forall k | 0 <= k < |rest| :: rest[k].steamId != 0 && NulFree(rest[k].name)
    ensures var cs := [c] + rest;
            forall k | 0 <= k < |cs| :: cs[k].steamId != 0 && NulFree(cs[k].name)
  {
    var cs := [c] + rest;
    forall k | 0 <= k < |cs| ensures cs[k].steamId != 0 && NulFree(cs[k].name) {
      if k > 0 {
        assert cs[k] == rest[k - 1];
      }
    }
  }

  /** A record that decodes has a nonzero id and a NUL-free name. */
  lemma CompanionWithIdValid(data: seq<byte>, pos: nat)
    requires ParseCompanionWithId(data, pos).Ok?
    ensures var c := ParseCompanionWithId(data, pos).value.value;
            c.steamId != 0 && NulFree(c.name)
  {
    PaddedNameNulFree(data, pos, ID_NAME_SIZE);
  }

  /** A list that decodes ends at a probe that found enough bytes and no marker. */
  lemma {:induction false} CompanionsEndAtProbe(data: seq<byte>, pos: nat)
    requires ParseCompanions(data, pos).Ok?
    ensures var r := ParseCompanions(data, pos).value;
            r.next + ID_ENTRY_SIZE <= |data| && !MarkerAt(data, r.next)
    decreases |data| + 4 - pos
  {
    if MarkerAt(data, pos) {
      var c := ParseCompanionWithId(data, pos).value;
      assert ParseCompanions(data, pos).value.next == ParseCompanions(data, c.next + 4).value.next;
      CompanionsEndAtProbe(data, c.next + 4);
    }
  }

  /** Each entry written as its record followed by the marker; nothing after the last. */
  function CompanionsBytes(cs: seq<CompanionWithId>): seq<byte>
  {
    if cs == [] then [] else CompanionWithIdBytes(cs[0]) + MARKER + CompanionsBytes(cs[1..])
  }

  /** Entries whose names fit the field are written in 32 bytes each. */
  lemma {:induction false} CompanionsBytesLength(cs: seq<CompanionWithId>)
    requires forall k | 0 <= k < |cs| :: |cs[k].name| < ID_NAME_SIZE
    ensures |CompanionsBytes(cs)| == ID_ENTRY_SIZE * |cs|
  {
    if cs != [] {
      assert |cs[0].name| < ID_NAME_SIZE;
      CompanionsBytesLength(cs[1..]);
    }
  }

  lemma {:induction false} CompanionsBytesAppend(cs: seq<CompanionWithId>, c: CompanionWithId)
    ensures CompanionsBytes(cs + [c]) == CompanionsBytes(cs) + CompanionWithIdBytes(c) + MARKER
  {
    if cs == [] {
      assert [c][1..] == [];
    } else {
      assert (cs + [c])[1..] == cs[1..] + [c];
      CompanionsBytesAppend(cs[1..], c);
    }
  }

  /**
   * The list reads back from its own encoding when every name is short and
   * NUL-free, every id is nonzero, and the bytes after the list do not present
   * the marker 28 bytes in.
   */
  lemma {:induction false} CompanionsRoundTrip(cs: seq<CompanionWithId>, data: seq<byte>, pos: nat)
    requires forall k | 0 <= k < |cs| :: IdRecordValid(cs[k])
    requires pos + |CompanionsBytes(cs)| + ID_ENTRY_SIZE <= |data|
    requires data[pos..pos + |CompanionsBytes(cs)|] == CompanionsBytes(cs)
    requires !MarkerAt(data, pos + |CompanionsBytes(cs)|)
    ensures ParseCompanions(data, pos) == Ok(Read(cs, pos + |CompanionsBytes(cs)|))
  {
    if cs == [] {
      CompanionsEnd(data, pos);
    } else {
      var rest := cs[1..];
      var end := pos + |CompanionsBytes(cs)|;
      CompanionsSplit(cs, data, pos);
      assert pos + ID_ENTRY_SIZE + |CompanionsBytes(rest)| == end;
      CompanionsRoundTrip(rest, data, pos + ID_ENTRY_SIZE);
      CompanionsStep(cs, data, pos, end);
    }
  }

  /** One step of the list round trip: the first entry, then the list decoded after it. */
  lemma CompanionsStep(cs: seq<CompanionWithId>, data: seq<byte>, pos: nat, end: nat)
    requires cs != [] && pos + ID_ENTRY_SIZE <= |data| && MarkerAt(data, pos)
    requires ParseCompanionWithId(data, pos) == Ok(Read(cs[0], pos + ID_RECORD_SIZE))
    requires ParseCompanions(data, pos + ID_ENTRY_SIZE) == Ok(Read(cs[1..], end))
    ensures ParseCompanions(data, pos) == Ok(Read(cs, end))
  {
    CompanionsConsOk(data, pos, cs[0], cs[1..], end);
    assert [cs[0]] + cs[1..] == cs;
  }

  /** The first written entry: its marker and its record, and the other entries after it. */
  lemma CompanionsSplit(cs: seq<CompanionWithId>, data: seq<byte>, pos: nat)
    requires cs != [] && IdRecordValid(cs[0])
    requires pos + |CompanionsBytes(cs)| <= |data|
    requires data[pos..pos + |CompanionsBytes(cs)|] == CompanionsBytes(cs)
    ensures |CompanionsBytes(cs)| == ID_ENTRY_SIZE + |CompanionsBytes(cs[1..])|
    ensures MarkerAt(data, pos) && ParseCompanionWithId(data, pos) == Ok(Read(cs[0], pos + ID_RECORD_SIZE))
    ensures data[pos + ID_ENTRY_SIZE..pos + |CompanionsBytes(cs)|] == CompanionsBytes(cs[1..])
  {
    var entry := CompanionWithIdBytes(cs[0]) + MARKER;
    SliceSplit(data, pos, entry, CompanionsBytes(cs[1..]));
    CompanionEntryAt(cs[0], data, pos);
  }

  /** An encoded entry: the probe finds its marker and its record decodes. */
  lemma CompanionEntryAt(c: CompanionWithId, data: seq<byte>, pos: nat)
    requires IdRecordValid(c)
    requires pos + ID_ENTRY_SIZE <= |data| && data[pos..pos + ID_ENTRY_SIZE] == CompanionWithIdBytes(c) + MARKER
    ensures MarkerAt(data, pos) && ParseCompanionWithId(data, pos) == Ok(Read(c, pos + ID_RECORD_SIZE))
  {
    SliceSplit(data, pos, CompanionWithIdBytes(c), MARKER);
    CompanionWithIdRoundTrip(c, data, pos);
  }

  /** A probe that finds fewer than 32 bytes left fails the list with `UnexpectedEof`. */
  lemma CompanionsEof(data: seq<byte>, pos: nat)
    requires pos + ID_ENTRY_SIZE > |data|
    ensures ParseCompanions(data, pos) == Err(UnexpectedEof)
  {
  }

  /** A probe that finds enough bytes but no marker ends the list where it stands. */
  lemma CompanionsEnd(data: seq<byte>, pos: nat)
    requires pos + ID_ENTRY_SIZE <= |data| && !MarkerAt(data, pos)
    ensures ParseCompanions(data, pos) == Ok(Read([], pos))
  {
  }

  /** A probe that finds the marker and a record that decodes: the list goes on after the marker. */
  lemma CompanionsCons(data: seq<byte>, pos: nat, c: Read<CompanionWithId>)
    requires pos + ID_ENTRY_SIZE <= |data| && MarkerAt(data, pos)
    requires ParseCompanionWithId(data, pos) == Ok(c)
    ensures ParseCompanions(data, pos) == Prepend([c.value], ParseCompanions(data, c.next + 4))
  {
  }

  /** A probe that finds the marker before a 28-byte record, then the rest of the list. */
  lemma CompanionsConsOk(data: seq<byte>, pos: nat, c: CompanionWithId, rest: seq<CompanionWithId>, end: nat)
    requires pos + ID_ENTRY_SIZE <= |data| && MarkerAt(data, pos)
    requires ParseCompanionWithId(data, pos) == Ok(Read(c, pos + ID_RECORD_SIZE))
    requires ParseCompanions(data, pos + ID_ENTRY_SIZE) == Ok(Read(rest, end))
    ensures ParseCompanions(data, pos) == Ok(Read([c] + rest, end))
  {
  }

  /** A probe that finds the marker before a record that fails to decode fails the list. */
  lemma CompanionsErr(data: seq<byte>, pos: nat)
    requires pos + ID_ENTRY_SIZE <= |data| && MarkerAt(data, pos)
    requires ParseCompanionWithId(data, pos).Err?
    ensures ParseCompanions(data, pos) == Err(ParseCompanionWithId(data, pos).error)
  {
  }

  /** `Companions::read_options`: the probing loop over a cursor. */
  method ReadCompanions(data: seq<byte>, start: nat) returns (r: Parsed<seq<CompanionWithId>>)
    ensures r == ParseCompanions(data, start)
  {
    var companions: seq<CompanionWithId> := [];
    var cursor := start;
    PrependLaws(companions, companions, ParseCompanions(data, cursor));
    while true
      invariant ParseCompanions(data, start) == Prepend(companions, ParseCompanions(data, cursor))
      decreases |data| + 4 - cursor
    {
      // Seek 28 ahead, read the 4-byte marker, seek 32 back: the cursor is unchanged.
      if cursor + ID_ENTRY_SIZE > |data| {
        CompanionsEof(data, cursor);
        return Err(UnexpectedEof);
      }
      var marker := data[cursor + ID_RECORD_SIZE..cursor + ID_ENTRY_SIZE];
      if marker != MARKER {
        CompanionsEnd(data, cursor);
        assert companions + [] == companions;
        return Ok(Read(companions, cursor));
      }
      var companion := ParseCompanionWithId(data, cursor);
      if companion.Err? {
        CompanionsErr(data, cursor);
        return Err(companion.error);
      }
      var c := companion.value;
      ghost var rest := ParseCompanions(data, c.next + 4);
      CompanionsCons(data, cursor, c);
      PrependLaws(companions, [c.value], rest);
      assert ParseCompanions(data, start) == Prepend(companions + [c.value], rest);
      cursor := c.next + 4;
      companions := companions + [c.value];
    }
  }

  /** `Companions::write_options`: each record and its marker, in order. */
  method WriteCompanions(cs: seq<CompanionWithId>) returns (out: seq<byte>)
    ensures out == CompanionsBytes(cs)
  {
    out := [];
    for i := 0 to |cs|
      invariant out == CompanionsBytes(cs[..i])
    {
      CompanionsBytesAppend(cs[..i], cs[i]);
      assert cs[..i + 1] == cs[..i] + [cs[i]];
      out := out + CompanionWithIdBytes(cs[i]) + MARKER;
    }
    assert cs[..|cs|] == cs;
  }

  // ---------------------------------------------------------------------------
  // CompanionSymbols: the sentinel-terminated section

  /**
   * The entries before the sentinel, and the cursor at the start of the sentinel
   * (each record is read in full, then the reader seeks back over an empty one).
   * The entries take at least 60 bytes each.
   */
  function ParseSymbolEntries(data: seq<byte>, pos: nat): (r: Parsed<seq<CompanionWithSymbol>>)
    ensures r.Ok? ==> pos + ENTRY_SIZE * |r.value.value| <= r.value.next
    decreases |data| - pos
  {
    var c := ParseCompanionWithSymbol(data, pos);
    if c.Err? then Err(c.error)
    else if c.value.value.name == [] then Ok(Read([], c.value.next - ENTRY_SIZE))
    else Prepend([c.value.value], ParseSymbolEntries(data, c.value.next))
  }

  /**
   * On success every entry has a nonempty NUL-free name and a symbol in 0..=21,
   * and a complete record with an empty name sits at the cursor.
   */
  lemma {:induction false} ParsedSymbolEntriesValid(data: seq<byte>, pos: nat)
    requires ParseSymbolEntries(data, pos).Ok?
    ensures var es := ParseSymbolEntries(data, pos).value.value;
            forall k | 0 <= k < |es| ::
              es[k].name != [] && NulFree(es[k].name) && |es[k].unknown| == 4
              && es[k].symbol <= MAX_COMPANION_SYMBOL
    ensures var r := ParseSymbolEntries(data, pos).value;
            ParseCompanionWithSymbol(data, r.next).Ok? && ParseCompanionWithSymbol(data, r.next).value.value.name == []
    decreases |data| - pos
  {
    var c := ParseCompanionWithSymbol(data, pos).value;
    var r := ParseSymbolEntries(data, pos).value;
    if c.value.name == [] {
      assert r.next == pos;
    } else {
      var rest := ParseSymbolEntries(data, c.next).value;
      assert r.value == [c.value] + rest.value && r.next == rest.next;
      PaddedNameNulFree(data, pos, SYMBOL_NAME_SIZE);
      ParsedSymbolEntriesValid(data, c.next);
    }
  }

  /** Entries whose names fit the field take exactly 60 bytes each. */
  lemma {:induction false} SymbolEntriesExtent(data: seq<byte>, pos: nat)
    requires ParseSymbolEntries(data, pos).Ok?
    requires var es := ParseSymbolEntries(data, pos).value.value;
             forall k | 0 <= k < |es| :: |es[k].name| < SYMBOL_NAME_SIZE
    ensures var r := ParseSymbolEntries(data, pos).value;
            r.next == pos + ENTRY_SIZE * |r.value|
    decreases |data| - pos
  {
    var c := ParseCompanionWithSymbol(data, pos).value;
    var r := ParseSymbolEntries(data, pos).value;
    if c.value.name == [] {
      assert r.next == pos;
    } else {
      var rest := ParseSymbolEntries(data, c.next).value;
      assert r.value == [c.value] + rest.value && r.next == rest.next;
      assert r.value[0] == c.value;
      assert c.next == pos + ENTRY_SIZE;
      forall k | 0 <= k < |rest.value| ensures |rest.value[k].name| < SYMBOL_NAME_SIZE {
        assert rest.value[k] == r.value[k + 1];
      }
      SymbolEntriesExtent(data, c.next);
    }
  }

  /**
   * `CompanionSymbols::read_options`: the entries, then a seek over the rest of the
   * section, so the cursor never ends before the section's end.
   */
  function ParseCompanionSymbols(data: seq<byte>, pos: nat): (r: Parsed<seq<CompanionWithSymbol>>)
    ensures r.Ok? <==> ParseSymbolEntries(data, pos).Ok?
    ensures r.Ok? ==> r.value.value == ParseSymbolEntries(data, pos).value.value
    ensures r.Ok? ==> pos + SECTION_SIZE <= r.value.next
  {
    var entries :- ParseSymbolEntries(data, pos);
    var padding := SECTION_SIZE - ENTRY_SIZE * |entries.value|;
    Ok(Read(entries.value, entries.next + padding))
  }

  /** When the names fit their field, the cursor ends exactly 960 bytes past the start. */
  lemma CompanionSymbolsExtent(data: seq<byte>, pos: nat)
    requires ParseCompanionSymbols(data, pos).Ok?
    requires var es := ParseCompanionSymbols(data, pos).value.value;
             forall k | 0 <= k < |es| :: |es[k].name| < SYMBOL_NAME_SIZE
    ensures ParseCompanionSymbols(data, pos).value.next == pos + SECTION_SIZE
  {
    SymbolEntriesExtent(data, pos);
  }

  function SymbolEntriesBytes(cs: seq<CompanionWithSymbol>): seq<byte>
  {
    if cs == [] then [] else CompanionWithSymbolBytes(cs[0]) + SymbolEntriesBytes(cs[1..])
  }

  /**
   * `CompanionSymbols::write_options`: the entries, then zeros up to 960 bytes. More
   * than 16 entries would make the padding negative, which the source cannot
   * allocate, so at most 16 are accepted.
   */
  function CompanionSymbolsBytes(cs: seq<CompanionWithSymbol>): seq<byte>
    requires |cs| <= MAX_SYMBOL_ENTRIES
  {
    SymbolEntriesBytes(cs) + Zeros(SECTION_SIZE - ENTRY_SIZE * |cs|)
  }

  /** Entries whose names fit the field are written in 60 bytes each. */
  lemma {:induction false} SymbolEntriesBytesLength(cs: seq<CompanionWithSymbol>)
    requires forall k | 0 <= k < |cs| :: |cs[k].name| < SYMBOL_NAME_SIZE && |cs[k].unknown| == 4
    ensures |SymbolEntriesBytes(cs)| == ENTRY_SIZE * |cs|
  {
    if cs != [] {
      assert |cs[0].name| < SYMBOL_NAME_SIZE && |cs[0].unknown| == 4;
      SymbolEntriesBytesLength(cs[1..]);
    }
  }

  /** A section whose names fit their fields is always written in exactly 960 bytes. */
  lemma CompanionSymbolsBytesLength(cs: seq<CompanionWithSymbol>)
    requires |cs| <= MAX_SYMBOL_ENTRIES
    requires forall k | 0 <= k < |cs| :: |cs[k].name| < SYMBOL_NAME_SIZE && |cs[k].unknown| == 4
    ensures |CompanionSymbolsBytes(cs)| == SECTION_SIZE
  {
    SymbolEntriesBytesLength(cs);
  }

  lemma {:induction false} SymbolEntriesBytesAppend(cs: seq<CompanionWithSymbol>, c: CompanionWithSymbol)
    ensures SymbolEntriesBytes(cs + [c]) == SymbolEntriesBytes(cs) + CompanionWithSymbolBytes(c)
  {
    if cs == [] {
      assert [c][1..] == [];
    } else {
      assert (cs + [c])[1..] == cs[1..] + [c];
      SymbolEntriesBytesAppend(cs[1..], c);
    }
  }

  /** Sixty zero bytes read as an empty-named record: the end of the list. */
  lemma SentinelOfZeros(data: seq<byte>, pos: nat)
    requires pos + ENTRY_SIZE <= |data| && data[pos..pos + ENTRY_SIZE] == Zeros(ENTRY_SIZE)
    ensures ParseSymbolEntries(data, pos) == Ok(Read([], pos))
  {
    var sentinel := CompanionWithSymbol([], Zeros(4), 0);
    assert Zeros(ENTRY_SIZE) == CompanionWithSymbolBytes(sentinel);
    CompanionWithSymbolRoundTrip(sentinel, data, pos);
  }

  /** The entries read back up to a sentinel record of zeros. */
  lemma {:induction false} SymbolEntriesRoundTrip(cs: seq<CompanionWithSymbol>, data: seq<byte>, pos: nat, end: nat)
    requires forall k | 0 <= k < |cs| :: SymbolRecordValid(cs[k])
    requires end == pos + |SymbolEntriesBytes(cs)| && end + ENTRY_SIZE <= |data|
    requires data[pos..end] == SymbolEntriesBytes(cs)
    requires data[end..end + ENTRY_SIZE] == Zeros(ENTRY_SIZE)
    ensures ParseSymbolEntries(data, pos) == Ok(Read(cs, end))
  {
    if cs == [] {
      assert SymbolEntriesBytes(cs) == [];
      SentinelOfZeros(data, pos);
    } else {
      SymbolEntriesSplit(cs, data, pos);
      SymbolEntriesRoundTrip(cs[1..], data, pos + ENTRY_SIZE, end);
      SymbolEntriesStep(cs, data, pos, end);
    }
  }

  /** One step of the entries round trip: the first entry, then the entries decoded after it. */
  lemma SymbolEntriesStep(cs: seq<CompanionWithSymbol>, data: seq<byte>, pos: nat, end: nat)
    requires cs != [] && cs[0].name != []
    requires ParseCompanionWithSymbol(data, pos) == Ok(Read(cs[0], pos + ENTRY_SIZE))
    requires ParseSymbolEntries(data, pos + ENTRY_SIZE) == Ok(Read(cs[1..], end))
    ensures ParseSymbolEntries(data, pos) == Ok(Read(cs, end))
  {
    SymbolEntriesCons(data, pos, cs[0], cs[1..], end);
    assert [cs[0]] + cs[1..] == cs;
  }

  /** The first written entry reads back, and the other entries follow it. */
  lemma SymbolEntriesSplit(cs: seq<CompanionWithSymbol>, data: seq<byte>, pos: nat)
    requires cs != [] && SymbolRecordValid(cs[0])
    requires pos + |SymbolEntriesBytes(cs)| <= |data|
    requires data[pos..pos + |SymbolEntriesBytes(cs)|] == SymbolEntriesBytes(cs)
    ensures |SymbolEntriesBytes(cs)| == ENTRY_SIZE + |SymbolEntriesBytes(cs[1..])|
    ensures ParseCompanionWithSymbol(data, pos) == Ok(Read(cs[0], pos + ENTRY_SIZE)) && cs[0].name != []
    ensures data[pos + ENTRY_SIZE..pos + |SymbolEntriesBytes(cs)|] == SymbolEntriesBytes(cs[1..])
  {
    SliceSplit(data, pos, CompanionWithSymbolBytes(cs[0]), SymbolEntriesBytes(cs[1..]));
    CompanionWithSymbolRoundTrip(cs[0], data, pos);
  }

  /**
   * A section of at most 15 entries reads back from its encoding: the zero
   * padding begins with an empty-named record, which ends the list.
   */
  lemma CompanionSymbolsRoundTrip(cs: seq<CompanionWithSymbol>, data: seq<byte>, pos: nat)
    requires |cs| < MAX_SYMBOL_ENTRIES
    requires forall k | 0 <= k < |cs| :: SymbolRecordValid(cs[k])
    requires pos + SECTION_SIZE <= |data| && data[pos..pos + SECTION_SIZE] == CompanionSymbolsBytes(cs)
    ensures ParseCompanionSymbols(data, pos) == Ok(Read(cs, pos + SECTION_SIZE))
  {
    var end := pos + |SymbolEntriesBytes(cs)|;
    CompanionSymbolsSlices(cs, data, pos);
    SymbolEntriesRoundTrip(cs, data, pos, end);
  }

  /** The entries of a section of at most 15, then the sentinel's 60 zero bytes. */
  lemma CompanionSymbolsSlices(cs: seq<CompanionWithSymbol>, data: seq<byte>, pos: nat)
    requires |cs| < MAX_SYMBOL_ENTRIES
    requires forall k | 0 <= k < |cs| :: |cs[k].name| < SYMBOL_NAME_SIZE && |cs[k].unknown| == 4
    requires pos + SECTION_SIZE <= |data| && data[pos..pos + SECTION_SIZE] == CompanionSymbolsBytes(cs)
    ensures var end := pos + |SymbolEntriesBytes(cs)|;
            end + ENTRY_SIZE <= |data| && end + (SECTION_SIZE - ENTRY_SIZE * |cs|) == pos + SECTION_SIZE
            && data[pos..end] == SymbolEntriesBytes(cs)
            && data[end..end + ENTRY_SIZE] == Zeros(ENTRY_SIZE)
  {
    var entries := SymbolEntriesBytes(cs);
    var padding := Zeros(SECTION_SIZE - ENTRY_SIZE * |cs|);
    SymbolEntriesBytesLength(cs);
    assert |entries| + ENTRY_SIZE <= SECTION_SIZE;
    SliceSplit(data, pos, entries, padding);
    var end := pos + |entries|;
    var more := Zeros(|padding| - ENTRY_SIZE);
    assert padding == Zeros(ENTRY_SIZE) + more;
    SliceSplit(data, end, Zeros(ENTRY_SIZE), more);
  }

  /**
   * With 16 entries the section is full and holds no sentinel, so the decoder
   * reads the 60 bytes after the section as one more record: the list reads back
   * only when those bytes happen to start with a NUL.
   */
  lemma FullSectionReadsPast(cs: seq<CompanionWithSymbol>, data: seq<byte>, pos: nat)
    requires |cs| == MAX_SYMBOL_ENTRIES
    requires forall k | 0 <= k < |cs| :: SymbolRecordValid(cs[k])
    requires pos + SECTION_SIZE <= |data| && data[pos..pos + SECTION_SIZE] == CompanionSymbolsBytes(cs)
    ensures ParseCompanionSymbols(data, pos) == Ok(Read(cs, pos + SECTION_SIZE)) ==>
              ParseCompanionWithSymbol(data, pos + SECTION_SIZE).Ok?
              && pos + SECTION_SIZE < |data| && data[pos + SECTION_SIZE] == 0
  {
    var r := ParseCompanionSymbols(data, pos);
    if r == Ok(Read(cs, pos + SECTION_SIZE)) {
      var e := ParseSymbolEntries(data, pos);
      assert e.value.next == pos + SECTION_SIZE;
      ParsedSymbolEntriesValid(data, pos);
      FindNulFirst(data, pos + SECTION_SIZE);
    }
  }

  /** An entry with a nonempty name, then the rest of the list. */
  lemma SymbolEntriesCons(data: seq<byte>, pos: nat, c: CompanionWithSymbol, rest: seq<CompanionWithSymbol>, end: nat)
    requires ParseCompanionWithSymbol(data, pos) == Ok(Read(c, pos + ENTRY_SIZE)) && c.name != []
    requires ParseSymbolEntries(data, pos + ENTRY_SIZE) == Ok(Read(rest, end))
    ensures ParseSymbolEntries(data, pos) == Ok(Read([c] + rest, end))
  {
  }

  /** A record that fails to decode fails the list. */
  lemma SymbolEntriesErr(data: seq<byte>, pos: nat)
    requires ParseCompanionWithSymbol(data, pos).Err?
    ensures ParseSymbolEntries(data, pos) == Err(ParseCompanionWithSymbol(data, pos).error)
  {
  }

  /** A record with an empty name ends the list at its own start. */
  lemma SymbolEntriesSentinel(data: seq<byte>, pos: nat, c: Read<CompanionWithSymbol>)
    requires ParseCompanionWithSymbol(data, pos) == Ok(c) && c.value.name == []
    ensures ParseSymbolEntries(data, pos) == Ok(Read([], c.next - ENTRY_SIZE))
  {
  }

  /** A record with a name is an entry, and the list goes on after it. */
  lemma SymbolEntriesNext(data: seq<byte>, pos: nat, c: Read<CompanionWithSymbol>)
    requires ParseCompanionWithSymbol(data, pos) == Ok(c) && c.value.name != []
    ensures ParseSymbolEntries(data, pos) == Prepend([c.value], ParseSymbolEntries(data, c.next))
  {
  }

  /** The section decode in terms of the entry decode: errors pass through, success skips the padding. */
  lemma CompanionSymbolsOfEntries(data: seq<byte>, pos: nat)
    ensures ParseSymbolEntries(data, pos).Err? ==>
              ParseCompanionSymbols(data, pos) == Err(ParseSymbolEntries(data, pos).error)
    ensures ParseSymbolEntries(data, pos).Ok? ==>
              var e := ParseSymbolEntries(data, pos).value;
              ParseCompanionSymbols(data, pos) == Ok(Read(e.value, e.next + (SECTION_SIZE - ENTRY_SIZE * |e.value|)))
  {
  }

  /** `CompanionSymbols::read_options`: reads records until an empty name, then skips the padding. */
  method ReadCompanionSymbols(data: seq<byte>, start: nat) returns (r: Parsed<seq<CompanionWithSymbol>>)
    ensures r == ParseCompanionSymbols(data, start)
  {
    var companions: seq<CompanionWithSymbol> := [];
    var cursor := start;
    PrependLaws(companions, companions, ParseSymbolEntries(data, cursor));
    while true
      invariant ParseSymbolEntries(data, start) == Prepend(companions, ParseSymbolEntries(data, cursor))
      decreases |data| - cursor
    {
      var companion := ParseCompanionWithSymbol(data, cursor);
      if companion.Err? {
        SymbolEntriesErr(data, cursor);
        CompanionSymbolsOfEntries(data, start);
        return Err(companion.error);
      }
      var c := companion.value;
      if c.value.name == [] {
        SymbolEntriesSentinel(data, cursor, c);
        cursor := c.next - ENTRY_SIZE;
        assert companions + [] == companions;
        assert ParseSymbolEntries(data, start) == Ok(Read(companions, cursor));
        break;
      }
      ghost var rest := ParseSymbolEntries(data, c.next);
      SymbolEntriesNext(data, cursor, c);
      PrependLaws(companions, [c.value], rest);
      assert ParseSymbolEntries(data, start) == Prepend(companions + [c.value], rest);
      cursor := c.next;
      companions := companions + [c.value];
    }
    CompanionSymbolsOfEntries(data, start);
    var padding := SECTION_SIZE - ENTRY_SIZE * |companions|;
    return Ok(Read(companions, cursor + padding));
  }

  /** `CompanionSymbols::write_options`: each entry in order, then the zero padding. */
  method WriteCompanionSymbols(cs: seq<CompanionWithSymbol>) returns (out: seq<byte>)
    requires |cs| <= MAX_SYMBOL_ENTRIES
    ensures out == CompanionSymbolsBytes(cs)
  {
    out := [];
    for i := 0 to |cs|
      invariant out == SymbolEntriesBytes(cs[..i])
    {
      SymbolEntriesBytesAppend(cs[..i], cs[i]);
      assert cs[..i + 1] == cs[..i] + [cs[i]];
      out := out + CompanionWithSymbolBytes(cs[i]);
    }
    assert cs[..|cs|] == cs;
    var padding := SECTION_SIZE - ENTRY_SIZE * |cs|;
    out := out + Zeros(padding);
  }
}
