/**
 * The last-played timestamp: a signed 64-bit count of 100-nanosecond ticks since
 * 1601-01-01 (the Windows FILETIME convention), presented as Unix milliseconds.
 */
module Timestamp {
  import opened Wrappers
  import opened Binary

  const TICKS_PER_MILLISECOND: int := 10_000
  /** Milliseconds from 1601-01-01 to 1970-01-01. */
  const EPOCH_OFFSET_MS: int := 11_644_473_600_000
  /**
   * A bound, in milliseconds either side of 1970, well inside the span of dates
   * the calendar library can represent (about 262,000 years either way).
   */
  const CALENDAR_SPAN_MS: int := 8_000_000_000_000_000

  /** Division on `i64` as the source performs it: the quotient truncated toward zero. */
  function TruncDiv(a: int, b: int): int
    requires b > 0
  {
    if a >= 0 then a / b else -((-a) / b)
  }

  /**
   * Decoding: whole milliseconds since 1601, shifted to the Unix epoch. Every tick
   * count lands well inside the calendar's range, so the conversion to a date
   * that follows it in the source never fails.
   */
  function TicksToUnixMs(ticks: i64): (ms: int)
    ensures -CALENDAR_SPAN_MS < ms < CALENDAR_SPAN_MS
    ensures EPOCH_OFFSET_MS + ms == TruncDiv(ticks, TICKS_PER_MILLISECOND)
  {
    TruncDiv(ticks, TICKS_PER_MILLISECOND) - EPOCH_OFFSET_MS
  }

  /** Encoding: the instant as ticks since 1601. */
  function UnixMsToTicks(ms: int): int {
    (ms + EPOCH_OFFSET_MS) * TICKS_PER_MILLISECOND
  }

  /** The instant's tick count fits the 64-bit field (the source's multiplication does not overflow). */
  predicate TicksFit(ms: int) {
    -0x8000_0000_0000_0000 <= UnixMsToTicks(ms) < 0x8000_0000_0000_0000
  }

  /** Every encodable instant decodes back to itself. */
  lemma TicksRoundTrip(ms: int)
    requires TicksFit(ms)
    ensures TicksToUnixMs(UnixMsToTicks(ms)) == ms
  {
    var x := ms + EPOCH_OFFSET_MS;
    if x >= 0 {
      assert (x * TICKS_PER_MILLISECOND) / TICKS_PER_MILLISECOND == x;
    } else {
      assert ((-x) * TICKS_PER_MILLISECOND) / TICKS_PER_MILLISECOND == -x;
    }
  }

  /**
   * Re-encoding a decoded tick count keeps it exactly when it is a whole number of
   * milliseconds; otherwise the sub-millisecond remainder is dropped toward zero.
   */
  lemma TicksTruncation(ticks: i64)
    ensures TicksFit(TicksToUnixMs(ticks))
    ensures UnixMsToTicks(TicksToUnixMs(ticks)) == ticks <==> ticks % TICKS_PER_MILLISECOND == 0
    ensures ticks >= 0 ==> 0 <= ticks - UnixMsToTicks(TicksToUnixMs(ticks)) < TICKS_PER_MILLISECOND
    ensures ticks < 0 ==> 0 <= UnixMsToTicks(TicksToUnixMs(ticks)) - ticks < TICKS_PER_MILLISECOND
  {
    var q := TruncDiv(ticks, TICKS_PER_MILLISECOND);
    assert UnixMsToTicks(TicksToUnixMs(ticks)) == q * TICKS_PER_MILLISECOND;
    if ticks < 0 {
      var n: int := 0 - ticks as int;
      assert q * TICKS_PER_MILLISECOND == -((n / TICKS_PER_MILLISECOND) * TICKS_PER_MILLISECOND);
      assert n == (n / TICKS_PER_MILLISECOND) * TICKS_PER_MILLISECOND + n % TICKS_PER_MILLISECOND;
      assert ticks % TICKS_PER_MILLISECOND == 0 <==> n % TICKS_PER_MILLISECOND == 0;
    }
  }

  /** `parse_last_played`: an `i64` read little-endian, converted to Unix milliseconds. */
  function ParseLastPlayed(data: seq<byte>, pos: nat): Parsed<int> {
    var raw :- ParseU64(data, pos);
    Ok(Read(TicksToUnixMs(ToI64(raw.value)), raw.next))
  }

  /** `write_last_played`: the instant's tick count as an `i64` written little-endian. */
  function LastPlayedBytes(ms: int): (bs: seq<byte>)
    requires TicksFit(ms)
    ensures |bs| == 8
  {
    LeBytes(FromI64(UnixMsToTicks(ms)), 8)
  }

  /** The timestamp field reads back the instant that was written. */
  lemma LastPlayedRoundTrip(ms: int, data: seq<byte>, pos: nat)
    requires TicksFit(ms)
    requires pos + 8 <= |data| && data[pos..pos + 8] == LastPlayedBytes(ms)
    ensures ParseLastPlayed(data, pos) == Ok(Read(ms, pos + 8))
  {
    var ticks := UnixMsToTicks(ms);
    ParseUIntOf(data, pos, FromI64(ticks), 8);
    assert ToI64(FromI64(ticks)) == ticks;
    TicksRoundTrip(ms);
  }
}
