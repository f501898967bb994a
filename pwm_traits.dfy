/**
 * `pwm_traits`: the compile-time description of one PWM output. Its template
 * arguments become the fields of `Traits`, its `static_assert`s the predicate
 * `Valid`, and its constants the functions below.
 */
module PwmTraits {
  import opened Gfx
  import Ledc

  /** The template arguments `Pin`, `Channel`, `FrequencyHz`, `BitDepth` and `MaxPercent`; the two `uint8_t` ones as `bv8`. */
  datatype Traits = Traits(pin: bv8, channel: bv8, frequencyHz: nat, bitDepth: nat, maxPercent: nat)

  /**
   * The `static_assert`s: a bit depth from 1 to 16, a nonzero frequency, and a
   * percentage from 1 to 100. The frequency also has to fit its `uint32_t`
   * parameter.
   */
  predicate Valid(t: Traits) {
    && 0 < t.bitDepth <= 16
    && 0 < t.frequencyHz < 0x1_0000_0000
    && 0 < t.maxPercent <= 100
  }

  /** `pwm_traits<Pin, Channel>` with the default `FrequencyHz`, `BitDepth` and `MaxPercent`. */
  function WithDefaults(pin: bv8, channel: bv8): (t: Traits)
    ensures Valid(t)
    ensures t.pin == pin && t.channel == channel
    ensures t.frequencyHz == 5000 && t.bitDepth == 8 && t.maxPercent == 100
  {
    Traits(pin, channel, 5000, 8, 100)
  }

  /** `channel`: the template's channel masked with `& 15`, i.e. its low four bits. */
  function Channel(t: Traits): (c: nat)
    ensures c < Ledc.ChannelCount
    ensures c == t.channel as int % 16
  {
    assert t.channel & 15 == t.channel % 16;
    (t.channel & 15) as int
  }

  /** `channel_traits<_, BitDepth>::max`, taken as 2^depth - 1: the largest duty of the channel. */
  function ChannelMax(t: Traits): (m: nat)
    ensures 0 < t.bitDepth ==> 1 <= m
  {
    Pow2(t.bitDepth) - 1
  }

  /**
   * The number of values of `channel_traits<_, depth>::int_type`, the smallest
   * unsigned integer type of whole bytes that holds `depth` bits: `uint8_t` up
   * to 8 bits, `uint16_t` above (assumption: gfx is not part of this model).
   */
  function IntTypeLimit(depth: nat): nat {
    if depth <= 8 then 0x100 else 0x1_0000
  }

  /**
   * `duty * max_scale` truncated, with `max_scale` taken as the exact rational
   * `percent / 100` rather than the `float` the source computes.
   */
  function Scale(duty: nat, percent: nat): (r: nat)
    ensures r * 100 <= duty * percent < r * 100 + 100
    ensures percent <= 100 ==> r <= duty
    ensures percent == 100 ==> r == duty
  {
    duty * percent / 100
  }

  /**
   * The conversion of a value to the unsigned integer type of a channel of
   * `depth` bits: modulo the type's range. For an integer argument this is
   * what C++ does; for the floating-point product of a read that does not fit,
   * C++ leaves it undefined and the model takes the same reading.
   */
  function ToIntType(v: int, depth: nat): (r: nat)
    ensures r < IntTypeLimit(depth)
    ensures 0 <= v < IntTypeLimit(depth) ==> r == v
    ensures (v - r) % IntTypeLimit(depth) == 0
  {
    if depth <= 8 then v % 0x100 else v % 0x1_0000
  }

  /** Every duty a valid channel can hold fits the channel's own integer type. */
  lemma MaxFitsIntType(t: Traits)
    requires Valid(t)
    ensures ChannelMax(t) < IntTypeLimit(t.bitDepth)
  {
    if t.bitDepth <= 8 {
      Pow2Monotone(t.bitDepth, 8);
      assert Pow2(8) == 0x100;
    } else {
      Pow2Monotone(t.bitDepth, 16);
      assert Pow2(16) == 0x1_0000;
    }
  }

  /** The driver calls of `initialize()`: set the channel up, then attach the pin to it. */
  function InitCalls(t: Traits): (calls: seq<Ledc.Call>)
    ensures |calls| == 2
    ensures calls[0].Setup? && calls[1].AttachPin?
    ensures calls[0].channel == calls[1].channel < Ledc.ChannelCount
  {
    [Ledc.Setup(Channel(t), t.frequencyHz, t.bitDepth), Ledc.AttachPin(t.pin as int, Channel(t))]
  }

  /** `initialize()`: configures the masked channel and attaches the pin; no duty changes. */
  method Initialize(t: Traits, hw: Ledc.Peripheral)
    modifies hw
    ensures hw.State() == old(hw.State()).Logged(InitCalls(t))
  {
    hw.Setup(Channel(t), t.frequencyHz, t.bitDepth);
    hw.AttachPin(t.pin as int, Channel(t));
  }
}
