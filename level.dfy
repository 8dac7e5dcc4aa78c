/** The current level: an id 0..=11 naming one of twelve chapters. */
module LevelField {
  import opened Wrappers
  import opened Binary
  import opened Errors

  const MAX_LEVEL_ID: nat := 11

  /** The level ids the decoder and the setters admit. */
  type LevelId = x: int | 0 <= x <= 11

  const NAMES: seq<string> := [
    "Chapter Select",
    "Broken Bridge",
    "Pink Desert",
    "Sunken City",
    "Underground",
    "Tower",
    "Snow",
    "Paradise",
    "Credits",
    "Level Bryan",
    "Level Matt",
    "Level Chris"
  ]

  /** Decoding a level: a little-endian `u64`, rejected above 11. */
  function ParseLevel(data: seq<byte>, pos: nat): Parsed<LevelId> {
    var raw :- ParseU64(data, pos);
    if raw.value > MAX_LEVEL_ID then Err(AssertFailed(LevelField, raw.value))
    else Ok(Read(raw.value, raw.next))
  }

  /** A stored id reads back as itself; a larger number is rejected with the value found. */
  lemma ParseLevelOf(data: seq<byte>, pos: nat, raw: u64)
    requires pos + 8 <= |data| && data[pos..pos + 8] == LeBytes(raw, 8)
    ensures raw <= MAX_LEVEL_ID ==> ParseLevel(data, pos) == Ok(Read(raw, pos + 8))
    ensures raw > MAX_LEVEL_ID ==> ParseLevel(data, pos) == Err(AssertFailed(LevelField, raw))
  {
    ParseUIntOf(data, pos, raw, 8);
  }

  /** The first index of `name` in `names`, as `Iterator::position` finds it. */
  function Position(names: seq<string>, name: string): (r: Option<nat>)
    ensures r.Some? ==> r.value < |names| && names[r.value] == name
    ensures r.Some? ==> forall k | 0 <= k < r.value :: names[k] != name
    ensures r.None? <==> name !in names
  {
    if names == [] then None
    else if names[0] == name then Some(0)
    else match Position(names[1..], name)
      case None => None
      case Some(i) => Some(i + 1)
  }

  /** The twelve chapter names are pairwise different. */
  lemma NamesDistinct()
    ensures forall i, j | 0 <= i < j < |NAMES| :: NAMES[i] != NAMES[j]
  {
    forall i, j | 0 <= i < j < |NAMES| ensures NAMES[i] != NAMES[j] {
      if |NAMES[i]| == |NAMES[j]| {
        // Equal lengths occur only among the eleven-character names.
        assert NAMES[i][0] != NAMES[j][0] || NAMES[i][6] != NAMES[j][6];
      }
    }
  }

  /** Looking up a level's displayed name gives back that level's id. */
  lemma NameLookupRoundTrip(id: LevelId)
    ensures Position(NAMES, NAMES[id]) == Some(id)
  {
    NamesDistinct();
  }

  /** `wrapping_next`: the id after `id`, with 11 followed by 0. */
  function NextId(id: LevelId): LevelId {
    var next := id + 1;
    if next > MAX_LEVEL_ID then 0 else next
  }

  /** `wrapping_previous`: the id before `id`, with 0 preceded by 11. */
  function PreviousId(id: LevelId): LevelId {
    if id == 0 then MAX_LEVEL_ID else id - 1
  }

  /** Stepping forward and back are inverse to each other. */
  lemma WrappingInverse(id: LevelId)
    ensures PreviousId(NextId(id)) == id && NextId(PreviousId(id)) == id
  {
  }

  /** Applying `NextId` n times. */
  function NextIdIterated(id: LevelId, n: nat): LevelId {
    if n == 0 then id else NextId(NextIdIterated(id, n - 1))
  }

  /** Stepping forward visits the twelve levels in order and after twelve steps is back at the start. */
  lemma {:induction false} WrappingCycle(id: LevelId, n: nat)
    ensures NextIdIterated(id, n) == (id + n) % 12
  {
    if n > 0 {
      WrappingCycle(id, n - 1);
      CountStep(id + n - 1);
    }
  }

  /** Counting modulo 12: one more wraps 11 to 0. */
  lemma CountStep(x: nat)
    ensures (x + 1) % 12 == if x % 12 == 11 then 0 else x % 12 + 1
  {
  }

  class Level {
    var id: LevelId

    constructor (id: LevelId)
      ensures this.id == id
    {
      this.id := id;
    }

    method SetById(id: u64) returns (r: Outcome<Error>)
      modifies this
      ensures id > MAX_LEVEL_ID ==> r == Fail(LevelIdOutOfRange) && this.id == old(this.id)
      ensures id <= MAX_LEVEL_ID ==> r == Pass && this.id == id
    {
      if id > MAX_LEVEL_ID {
        return Fail(LevelIdOutOfRange);
      }
      this.id := id;
      return Pass;
    }

    method SetByName(name: string) returns (r: Outcome<Error>)
      modifies this
      ensures r.Pass? <==> name in NAMES
      ensures r.Pass? ==> Position(NAMES, name) == Some(id) && Name() == name
      ensures r.Fail? ==> r == Fail(LevelNameNotFound) && id == old(id)
    {
      match Position(NAMES, name)
      case None =>
        return Fail(LevelNameNotFound);
      case Some(i) =>
        id := i;
        return Pass;
    }

    method WrappingNext() returns (next: Level)
      ensures fresh(next) && next.id == NextId(id)
    {
      var n := id + 1;
      if n > MAX_LEVEL_ID {
        next := new Level(0);
      } else {
        next := new Level(n);
      }
    }

    method WrappingPrevious() returns (previous: Level)
      ensures fresh(previous) && previous.id == PreviousId(id)
    {
      if id == 0 {
        previous := new Level(MAX_LEVEL_ID);
      } else {
        previous := new Level(id - 1);
      }
    }

    /** `Display`: the chapter name. */
    function Name(): string
      reads this
    {
      NAMES[id]
    }
  }
}
