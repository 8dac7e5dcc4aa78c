/** The scarf: a length 0..=30, grown and shrunk one step at a time. */
module ScarfField {
  import opened Wrappers
  import opened Binary
  import opened Errors

  const MAX_LENGTH: nat := 30

  /** The lengths the decoder and the setters admit. */
  type ScarfLength = x: int | 0 <= x <= 30

  /** Decoding a scarf: a little-endian `u32` that must not exceed 30. */
  function ParseScarf(data: seq<byte>, pos: nat): Parsed<ScarfLength> {
    var raw :- ParseU32(data, pos);
    if raw.value <= MAX_LENGTH then Ok(Read(raw.value, raw.next))
    else Err(AssertFailed(ScarfField, raw.value))
  }

  /** A stored length reads back as itself; a longer one is rejected with the value found. */
  lemma ParseScarfOf(data: seq<byte>, pos: nat, raw: u32)
    requires pos + 4 <= |data| && data[pos..pos + 4] == LeBytes(raw, 4)
    ensures raw <= MAX_LENGTH ==> ParseScarf(data, pos) == Ok(Read(raw, pos + 4))
    ensures raw > MAX_LENGTH ==> ParseScarf(data, pos) == Err(AssertFailed(ScarfField, raw))
  {
    ParseU32Of(data, pos, raw);
  }

  class Scarf {
    var length: ScarfLength

    constructor (length: ScarfLength)
      ensures this.length == length
    {
      this.length := length;
    }

    method SetLength(length: u32) returns (r: Outcome<Error>)
      modifies this
      ensures length > MAX_LENGTH ==> r == Fail(ScarfTooLong) && this.length == old(this.length)
      ensures length <= MAX_LENGTH ==> r == Pass && this.length == length
    {
      if length > MAX_LENGTH {
        return Fail(ScarfTooLong);
      }
      this.length := length;
      return Pass;
    }

    method IncreaseLength() returns (r: Outcome<Error>)
      modifies this
      ensures r.Fail? <==> old(length) == MAX_LENGTH
      ensures r.Fail? ==> r.error == ScarfMaxLength && length == old(length)
      ensures r.Pass? ==> length == old(length) + 1
    {
      var next := length + 1;
      if next > MAX_LENGTH {
        return Fail(ScarfMaxLength);
      }
      length := next;
      return Pass;
    }

    method DecreaseLength() returns (r: Outcome<Error>)
      modifies this
      ensures r.Fail? <==> old(length) == 0
      ensures r.Fail? ==> r.error == ScarfMinLength && length == old(length)
      ensures r.Pass? ==> length == old(length) - 1
    {
      if length == 0 {
        return Fail(ScarfMinLength);
      }
      length := length - 1;
      return Pass;
    }
  }

  /** A successful lengthening undone by a shortening leaves the scarf as it was. */
  method IncreaseThenDecrease(scarf: Scarf)
    modifies scarf
    ensures old(scarf.length) < MAX_LENGTH ==> scarf.length == old(scarf.length)
    ensures old(scarf.length) == MAX_LENGTH ==> scarf.length == MAX_LENGTH - 1
  {
    var up := scarf.IncreaseLength();
    var down := scarf.DecreaseLength();
    assert down.Pass?;
  }
}
