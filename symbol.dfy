/**
 * The player's symbol: an id 0..=20, each drawn from four quadrant parts taken
 * from a fixed table of seventeen parts.
 */
module SymbolField {
  import opened Wrappers
  import opened Binary
  import opened Errors

  const MAX_SYMBOL_ID: nat := 20

  /** The symbol ids the setters admit. */
  type SymbolId = x: int | 0 <= x <= 20

  const SYMBOL_PART_WIDTH: nat := 6
  const SYMBOL_PART_HEIGHT: nat := 3
  /** Characters in one part: three rows of six plus two line breaks. */
  const SYMBOL_PART_SIZE: nat := SYMBOL_PART_WIDTH * SYMBOL_PART_HEIGHT + 2
  /** The highest part index the composer accepts. */
  const MAX_PART_INDEX: nat := 16

  /** Decoding a symbol: a little-endian `u32` that must be below 20. */
  function ParseSymbol(data: seq<byte>, pos: nat): Parsed<SymbolId> {
    var raw :- ParseU32(data, pos);
    if raw.value < MAX_SYMBOL_ID then Ok(Read(raw.value, raw.next))
    else Err(AssertFailed(SymbolField, raw.value))
  }

  /**
   * A stored id reads back exactly when it is below 20. Id 20, which the setters
   * and the wrapping steps produce, is written but rejected when read again.
   */
  lemma ParseSymbolOf(data: seq<byte>, pos: nat, raw: u32)
    requires pos + 4 <= |data| && data[pos..pos + 4] == LeBytes(raw, 4)
    ensures raw < MAX_SYMBOL_ID ==> ParseSymbol(data, pos) == Ok(Read(raw, pos + 4))
    ensures raw >= MAX_SYMBOL_ID ==> ParseSymbol(data, pos) == Err(AssertFailed(SymbolField, raw))
  {
    ParseU32Of(data, pos, raw);
  }

  /** `wrapping_next`: 20 is followed by 0. */
  function NextId(id: SymbolId): SymbolId {
    var next := id + 1;
    if next > MAX_SYMBOL_ID then 0 else next
  }

  /** `wrapping_previous`: 0 is preceded by 20. */
  function PreviousId(id: SymbolId): SymbolId {
    if id == 0 then MAX_SYMBOL_ID else id - 1
  }

  /** Stepping forward and back are inverse to each other on 0..=20. */
  lemma WrappingInverse(id: SymbolId)
    ensures PreviousId(NextId(id)) == id && NextId(PreviousId(id)) == id
  {
  }

  /** The four quadrant parts of a symbol. */
  datatype SymbolParts = SymbolParts(topLeft: nat, topRight: nat, bottomLeft: nat, bottomRight: nat)

  /** The composer's range check (it refuses any part index above 16). */
  predicate PartsInRange(p: SymbolParts) {
    p.topLeft <= MAX_PART_INDEX && p.topRight <= MAX_PART_INDEX
    && p.bottomLeft <= MAX_PART_INDEX && p.bottomRight <= MAX_PART_INDEX
  }

  /**
   * `symbol_part_ids`: defined for exactly the ids 0..=20, and every part it
   * names passes the composer's range check, so drawing a valid symbol never fails.
   */
  function SymbolPartIds(id: nat): (r: Option<SymbolParts>)
    ensures r.Some? <==> id <= MAX_SYMBOL_ID
    ensures r.Some? ==> PartsInRange(r.value)
  {
    match id
    case 0 => Some(SymbolParts(0, 1, 3, 2))
    case 1 => Some(SymbolParts(4, 4, 7, 7))
    case 2 => Some(SymbolParts(9, 9, 13, 2))
    case 3 => Some(SymbolParts(15, 16, 9, 9))
    case 4 => Some(SymbolParts(4, 9, 4, 9))
    case 5 => Some(SymbolParts(15, 12, 3, 9))
    case 6 => Some(SymbolParts(5, 5, 9, 12))
    case 7 => Some(SymbolParts(12, 9, 15, 15))
    case 8 => Some(SymbolParts(7, 9, 12, 8))
    case 9 => Some(SymbolParts(12, 12, 9, 9))
    case 10 => Some(SymbolParts(14, 7, 14, 7))
    case 11 => Some(SymbolParts(8, 8, 13, 13))
    case 12 => Some(SymbolParts(2, 3, 2, 3))
    case 13 => Some(SymbolParts(10, 7, 7, 12))
    case 14 => Some(SymbolParts(7, 7, 10, 12))
    case 15 => Some(SymbolParts(15, 15, 15, 15))
    case 16 => Some(SymbolParts(4, 4, 4, 4))
    case 17 => Some(SymbolParts(11, 10, 11, 10))
    case 18 => Some(SymbolParts(12, 8, 12, 8))
    case 19 => Some(SymbolParts(6, 6, 11, 10))
    case 20 => Some(SymbolParts(12, 9, 11, 10))
    case _ => None
  }

  /**
   * Characters `start` up to `end` of `s`, clamped to its length; empty when
   * `end <= start` (the semantics of the `substring` helper the source calls).
   */
  function Substring(s: string, start: nat, end: nat): string {
    if end <= start then ""
    else
      var from := if start < |s| then start else |s|;
      var to := if end < |s| then end else |s|;
      s[from..to]
  }

  /** `get_symbol_part`: part `idx` of the parts text. */
  function GetSymbolPart(parts: string, idx: nat): string {
    var start := (SYMBOL_PART_SIZE + 2) * idx;
    Substring(parts, start, start + SYMBOL_PART_SIZE)
  }

  /**
   * Part `idx` is the 20 characters starting at 22 * idx (parts are laid out
   * with two separator characters between them), and different parts never overlap.
   */
  lemma SymbolPartSlice(parts: string, idx: nat, other: nat)
    requires 22 * idx + 20 <= |parts|
    ensures GetSymbolPart(parts, idx) == parts[22 * idx .. 22 * idx + 20]
    ensures |GetSymbolPart(parts, idx)| == SYMBOL_PART_SIZE
    ensures idx < other ==> 22 * idx + SYMBOL_PART_SIZE < 22 * other
  {
  }

  class Symbol {
    var id: SymbolId

    constructor (id: SymbolId)
      ensures this.id == id
    {
      this.id := id;
    }

    method SetById(id: u32) returns (r: Outcome<Error>)
      modifies this
      ensures id > MAX_SYMBOL_ID ==> r == Fail(SymbolIdOutOfRange) && this.id == old(this.id)
      ensures id <= MAX_SYMBOL_ID ==> r == Pass && this.id == id
    {
      if id > MAX_SYMBOL_ID {
        return Fail(SymbolIdOutOfRange);
      }
      this.id := id;
      return Pass;
    }

    method WrappingNext() returns (next: Symbol)
      ensures fresh(next) && next.id == NextId(id)
    {
      var n := id + 1;
      if n > MAX_SYMBOL_ID {
        next := new Symbol(0);
      } else {
        next := new Symbol(n);
      }
    }

    method WrappingPrevious() returns (previous: Symbol)
      ensures fresh(previous) && previous.id == PreviousId(id)
    {
      if id == 0 {
        previous := new Symbol(MAX_SYMBOL_ID);
      } else {
        previous := new Symbol(id - 1);
      }
    }

    /** The parts `Display` draws this symbol from; always defined and in range. */
    function Parts(): (p: SymbolParts)
      reads this
      ensures PartsInRange(p)
    {
      SymbolPartIds(id).value
    }
  }
}
