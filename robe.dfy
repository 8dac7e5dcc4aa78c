/**
 * The robe: one integer that encodes a colour and a tier together.
 * Values 0..=3 are Red tiers 1..=4; values above 3 are White with tier value - 2.
 * White has no tier 1, so Red 0 (tier 1) turns into White tier 2.
 */
module RobeField {
  import opened Wrappers
  import opened Binary

  const MIN_TIER: u32 := 1
  const MAX_TIER: u32 := 4
  const MAX_RED_TIER_ID: u32 := 3

  datatype RobeError = TierOutOfRange | WhiteTierMinimum | InvalidColor

  datatype RobeColor = Red | White

  /** `color()`. */
  function ColorOf(value: u32): RobeColor {
    if value > MAX_RED_TIER_ID then White else Red
  }

  /** `tier()`. */
  function TierOf(value: u32): (tier: u32)
    ensures ColorOf(value) == Red ==> MIN_TIER <= tier <= MAX_TIER
    ensures ColorOf(value) == White ==> tier >= 2 && tier < 0xFFFF_FFFF
  {
    match ColorOf(value)
    case Red => value + 1
    case White => value - MAX_RED_TIER_ID + 1
  }

  /** Colour and tier together determine the stored value. */
  lemma TierDeterminesValue(a: u32, b: u32)
    requires ColorOf(a) == ColorOf(b) && TierOf(a) == TierOf(b)
    ensures a == b
  {
  }

  /** The value `set_color(color)` leaves behind. */
  function ColorChanged(value: u32, color: RobeColor): (r: u32)
    ensures ColorOf(value) == color ==> r == value
    ensures ColorOf(value) == Red && color == White ==>
              ColorOf(r) == White && TierOf(r) == Max(TierOf(value), 2)
    ensures ColorOf(value) == White && color == Red ==>
              (ColorOf(r) == Red <==> value <= 6) && (value <= 6 ==> TierOf(r) == TierOf(value))
    ensures ColorOf(value) == White && color == Red && value > 6 ==> r == value - MAX_RED_TIER_ID
  {
    match (ColorOf(value), color, value)
    case (Red, White, 0) => MAX_RED_TIER_ID + 1
    case (Red, White, v) => v + MAX_RED_TIER_ID
    case (White, Red, v) => v - MAX_RED_TIER_ID
    case _ => value
  }

  /**
   * Changing colour and back restores every value except Red 0, which comes back
   * as Red 1: it went to White tier 2 and keeps that tier.
   */
  lemma ColorRoundTrip(value: u32)
    ensures value <= MAX_RED_TIER_ID ==>
              ColorChanged(ColorChanged(value, White), Red) == Max(value, 1)
    ensures MAX_RED_TIER_ID < value <= 6 ==>
              ColorChanged(ColorChanged(value, Red), White) == value
  {
  }

  /** The value `swap_colors()` leaves behind. */
  function Swapped(value: u32): (r: u32)
    ensures value <= 6 ==> ColorOf(r) != ColorOf(value)
    ensures value > 6 ==> ColorOf(r) == White && r == value - MAX_RED_TIER_ID
  {
    ColorChanged(value, if ColorOf(value) == Red then White else Red)
  }

  /** The tiers `set_tier` accepts for a robe of the given colour. */
  predicate TierAllowed(color: RobeColor, tier: int) {
    MIN_TIER <= tier <= MAX_TIER && !(color == White && tier == MIN_TIER)
  }

  /** The outcome of `set_tier(tier)`: the new value, or the error that left the value alone. */
  function TierChanged(value: u32, tier: u32): (r: Result<u32, RobeError>)
    ensures r.Ok? <==> TierAllowed(ColorOf(value), tier)
    ensures r.Ok? ==> ColorOf(r.value) == ColorOf(value) && TierOf(r.value) == tier
    ensures r == Err(TierOutOfRange) <==> tier < MIN_TIER || tier > MAX_TIER
    ensures r == Err(WhiteTierMinimum) <==> ColorOf(value) == White && tier == MIN_TIER
  {
    if tier < MIN_TIER || tier > MAX_TIER then Err(TierOutOfRange)
    else match ColorOf(value)
      case Red => Ok(tier - 1)
      case White =>
        if tier == MIN_TIER then Err(WhiteTierMinimum) else Ok(MAX_RED_TIER_ID + tier - 1)
  }

  /** The value `increase_tier()` leaves behind: one tier up, or unchanged at the top. */
  function TierIncreased(value: u32): (r: u32)
    ensures ColorOf(r) == ColorOf(value)
    ensures TierOf(value) < MAX_TIER ==> TierOf(r) == TierOf(value) + 1
    ensures TierOf(value) >= MAX_TIER ==> r == value
  {
    match TierChanged(value, TierOf(value) + 1)
    case Ok(v) => v
    case Err(_) => value
  }

  /** The value `decrease_tier()` leaves behind: one tier down, or unchanged when that tier is refused. */
  function TierDecreased(value: u32): (r: u32)
    ensures ColorOf(r) == ColorOf(value)
    ensures TierAllowed(ColorOf(value), TierOf(value) - 1) ==> TierOf(r) == TierOf(value) - 1
    ensures !TierAllowed(ColorOf(value), TierOf(value) - 1) ==> r == value
  {
    match TierChanged(value, TierOf(value) - 1)
    case Ok(v) => v
    case Err(_) => value
  }

  /**
   * Values 0..=6 are the ones the setters produce: every operation keeps a value
   * in that range (7 and above only come from a decoded file).
   */
  lemma OperationsStayInRange(value: u32, color: RobeColor, tier: u32)
    requires value <= 6
    ensures ColorChanged(value, color) <= 6
    ensures Swapped(value) <= 6
    ensures TierChanged(value, tier).Ok? ==> TierChanged(value, tier).value <= 6
    ensures TierIncreased(value) <= 6 && TierDecreased(value) <= 6
  {
  }

  /** `Color::from_str`. */
  function ParseColor(s: string): Result<RobeColor, RobeError> {
    if s == "Red" || s == "red" then Ok(Red)
    else if s == "White" || s == "white" then Ok(White)
    else Err(InvalidColor)
  }

  /** `Display` for a colour. */
  function ColorName(c: RobeColor): string {
    match c
    case Red => "Red"
    case White => "White"
  }

  /** A colour's displayed name parses back to it, in either capitalisation, and nothing else parses. */
  lemma ColorNameRoundTrip(c: RobeColor, s: string)
    ensures ParseColor(ColorName(c)) == Ok(c)
    ensures ParseColor(s).Ok? <==> s in {"Red", "red", "White", "white"}
  {
  }

  class Robe {
    var value: u32

    constructor (value: u32)
      ensures this.value == value
    {
      this.value := value;
    }

    function Color(): RobeColor
      reads this
    {
      ColorOf(value)
    }

    function Tier(): u32
      reads this
    {
      TierOf(value)
    }

    method SetColor(color: RobeColor)
      modifies this
      ensures value == ColorChanged(old(value), color)
    {
      var current := Color();
      if current == Red && color == White {
        value := if value == 0 then MAX_RED_TIER_ID + 1 else value + MAX_RED_TIER_ID;
      } else if current == White && color == Red {
        value := value - MAX_RED_TIER_ID;
      }
    }

    method SwapColors()
      modifies this
      ensures value == Swapped(old(value))
    {
      var newColor := match Color() case Red => White case White => Red;
      SetColor(newColor);
    }

    method SetTier(tier: u32) returns (r: Outcome<RobeError>)
      modifies this
      ensures r.Pass? <==> TierChanged(old(value), tier).Ok?
      ensures r.Pass? ==> value == TierChanged(old(value), tier).value
      ensures r.Fail? ==> r.error == TierChanged(old(value), tier).error && value == old(value)
      ensures r == Fail(WhiteTierMinimum) <==> ColorOf(old(value)) == White && tier == MIN_TIER
    {
      if tier < MIN_TIER || tier > MAX_TIER {
        return Fail(TierOutOfRange);
      }
      if Color() == Red {
        value := tier - 1;
      } else if tier == MIN_TIER {
        return Fail(WhiteTierMinimum);
      } else {
        value := MAX_RED_TIER_ID + tier - 1;
      }
      return Pass;
    }

    method IncreaseTier()
      modifies this
      ensures value == TierIncreased(old(value))
    {
      var _ := SetTier(Tier() + 1);
    }

    method DecreaseTier()
      modifies this
      ensures value == TierDecreased(old(value))
    {
      var _ := SetTier(Tier() - 1);
    }
  }
}
