/**
 * `rgb_pwm_group`: three PWM outputs joined into one RGB unit. The group has
 * no state of its own; its operations read and write the driver's duty
 * registers. Each write has a specification function on `Ledc.Hw` that the
 * write method is proved against; each read has one that gives its value.
 */
module RgbPwmGroup {
  import opened Gfx
  import opened PwmTraits
  import Ledc

  /** The group's `RTraits`, `GTraits` and `BTraits`. */
  datatype Group = Group(r: Traits, g: Traits, b: Traits)

  /**
   * The group's `static_assert`s, together with those of its three traits:
   * the three masked channels are pairwise distinct, and so are the three pins.
   */
  predicate WellFormed(grp: Group)
    ensures WellFormed(grp) ==> |Channels(grp)| == 3
  {
    && Valid(grp.r) && Valid(grp.g) && Valid(grp.b)
    && Channel(grp.r) != Channel(grp.g)
    && Channel(grp.r) != Channel(grp.b)
    && Channel(grp.g) != Channel(grp.b)
    && grp.r.pin != grp.g.pin
    && grp.r.pin != grp.b.pin
    && grp.g.pin != grp.b.pin
  }

  /** `pixel_type`: each channel as deep as its traits' PWM resolution. */
  function NativeFormat(grp: Group): Format {
    Format(grp.r.bitDepth, grp.g.bitDepth, grp.b.bitDepth)
  }

  /** The driver channels the group drives. */
  function Channels(grp: Group): set<nat> {
    {Channel(grp.r), Channel(grp.g), Channel(grp.b)}
  }

  /** The driver calls of `initialize()`: those of R, then of G, then of B. */
  function GroupInitCalls(grp: Group): (calls: seq<Ledc.Call>)
    ensures |calls| == 6
    ensures calls[..2] == InitCalls(grp.r)
    ensures calls[2..4] == InitCalls(grp.g)
    ensures calls[4..] == InitCalls(grp.b)
  {
    InitCalls(grp.r) + InitCalls(grp.g) + InitCalls(grp.b)
  }

  /** `initialize()`: initializes R, G and B in that order; no duty changes. */
  method Initialize(grp: Group, hw: Ledc.Peripheral)
    modifies hw
    ensures hw.State() == old(hw.State()).Logged(GroupInitCalls(grp))
  {
    PwmTraits.Initialize(grp.r, hw);
    PwmTraits.Initialize(grp.g, hw);
    PwmTraits.Initialize(grp.b, hw);
  }

  // ---------------------------------------------------------------------------
  // Writes

  /**
   * The duty `write_R`, `write_G` or `write_B` stores for `value`: the argument
   * converted to the channel's unsigned integer type, then clamped to `[0, max]`.
   */
  function Stored(t: Traits, value: int): (d: nat)
    ensures d <= ChannelMax(t)
    ensures Valid(t) && 0 <= value <= ChannelMax(t) ==> d == value
  {
    var converted := ToIntType(value, t.bitDepth);
    assert Valid(t) && 0 <= value <= ChannelMax(t) ==> converted == value by {
      if Valid(t) {
        MaxFitsIntType(t);
      }
    }
    Clamp(converted, 0, ChannelMax(t))
  }

  /** The driver after `write_R`, `write_G` or `write_B` of `value` to the channel of `t`. */
  function ChannelWritten(hw: Ledc.Hw, t: Traits, value: int): (h: Ledc.Hw)
    requires hw.Valid()
    ensures h.Valid()
  {
    hw.Written(Channel(t), Stored(t, value))
  }

  /** The driver after `write_pixel(px)`: the R, G and B writes in that order. */
  function PixelWritten(hw: Ledc.Hw, grp: Group, px: Pixel): (h: Ledc.Hw)
    requires hw.Valid()
    ensures h.Valid()
  {
    ChannelWritten(ChannelWritten(ChannelWritten(hw, grp.r, px.r), grp.g, px.g), grp.b, px.b)
  }

  /** The channel of `t` holds the duty that writing `value` to it stores. */
  predicate ChannelHolds(hw: Ledc.Hw, t: Traits, value: int)
    requires hw.Valid()
  {
    hw.duty[Channel(t)] == Stored(t, value)
  }

  /** The group's three channels hold the duties that writing `px` stores. */
  predicate Holds(hw: Ledc.Hw, grp: Group, px: Pixel)
    requires hw.Valid()
  {
    ChannelHolds(hw, grp.r, px.r) && ChannelHolds(hw, grp.g, px.g) && ChannelHolds(hw, grp.b, px.b)
  }

  /** `write_R`, `write_G` and `write_B`: the value, in the channel's integer type, clamped to `[0, max]` and written. */
  method WriteChannel(t: Traits, hw: Ledc.Peripheral, value: int)
    requires hw.State().Valid()
    modifies hw
    ensures hw.State() == ChannelWritten(old(hw.State()), t, value)
  {
    hw.Write(Channel(t), Clamp(ToIntType(value, t.bitDepth), 0, ChannelMax(t)));
  }

  /** `write_pixel(color)`: writes the R, then the G, then the B component. */
  method WritePixel(grp: Group, hw: Ledc.Peripheral, color: Pixel)
    requires hw.State().Valid()
    modifies hw
    ensures hw.State() == PixelWritten(old(hw.State()), grp, color)
  {
    WriteChannel(grp.r, hw, color.r);
    WriteChannel(grp.g, hw, color.g);
    WriteChannel(grp.b, hw, color.b);
  }

  /**
   * A write stores a duty within `[0, max]`, the value itself when it is in
   * range of valid traits; it changes no other channel and issues exactly one
   * driver write.
   */
  lemma ChannelWriteClamps(hw: Ledc.Hw, t: Traits, value: int)
    requires hw.Valid()
    ensures ChannelWritten(hw, t, value).duty[Channel(t)] <= ChannelMax(t)
    ensures Valid(t) && 0 <= value <= ChannelMax(t) ==> ChannelWritten(hw, t, value).duty[Channel(t)] == value
    ensures forall c :: 0 <= c < Ledc.ChannelCount && c != Channel(t) ==>
      ChannelWritten(hw, t, value).duty[c] == hw.duty[c]
    ensures ChannelWritten(hw, t, value).trace ==
      hw.trace + [Ledc.DutyWrite(Channel(t), Stored(t, value))]
  {
  }

  /**
   * The argument wraps into the channel's integer type before the clamp: values
   * a whole range apart write the same, a value that converts to the maximum or
   * above writes the maximum, and -1 in particular writes the maximum, not 0.
   */
  lemma SaturatedWritesAgree(hw: Ledc.Hw, t: Traits, value: int)
    requires hw.Valid()
    ensures ChannelWritten(hw, t, value + IntTypeLimit(t.bitDepth)) == ChannelWritten(hw, t, value)
    ensures Valid(t) && ChannelMax(t) <= ToIntType(value, t.bitDepth) ==>
      ChannelWritten(hw, t, value) == ChannelWritten(hw, t, ChannelMax(t))
    ensures Valid(t) ==> ChannelWritten(hw, t, -1) == ChannelWritten(hw, t, ChannelMax(t))
  {
    var limit := IntTypeLimit(t.bitDepth);
    assert ToIntType(value + limit, t.bitDepth) == ToIntType(value, t.bitDepth);
    if Valid(t) {
      MaxFitsIntType(t);
      assert ToIntType(-1, t.bitDepth) == limit - 1;
    }
  }

  /**
   * In a well-formed group, `write_pixel` leaves each of the three channels
   * holding its clamped component, changes no other channel, and issues the
   * R, G and B writes in that order.
   */
  lemma PixelWriteEffect(hw: Ledc.Hw, grp: Group, px: Pixel)
    requires hw.Valid() && WellFormed(grp)
    ensures Holds(PixelWritten(hw, grp, px), grp, px)
    ensures forall c :: 0 <= c < Ledc.ChannelCount && c !in Channels(grp) ==>
      PixelWritten(hw, grp, px).duty[c] == hw.duty[c]
    ensures PixelWritten(hw, grp, px).trace == hw.trace + [
      Ledc.DutyWrite(Channel(grp.r), Stored(grp.r, px.r)),
      Ledc.DutyWrite(Channel(grp.g), Stored(grp.g, px.g)),
      Ledc.DutyWrite(Channel(grp.b), Stored(grp.b, px.b))]
  {
    var h1 := ChannelWritten(hw, grp.r, px.r);
    var h2 := ChannelWritten(h1, grp.g, px.g);
    assert h2.duty[Channel(grp.r)] == h1.duty[Channel(grp.r)];
  }

  /** Writing one group leaves a group with none of its channels as it was. */
  lemma OtherGroupKept(hw: Ledc.Hw, grp: Group, px: Pixel, other: Group, opx: Pixel)
    requires hw.Valid() && WellFormed(other)
    requires Channels(grp) !! Channels(other)
    requires Holds(hw, grp, px)
    ensures Holds(PixelWritten(hw, other, opx), grp, px)
  {
    PixelWriteEffect(hw, other, opx);
    assert Channel(grp.r) in Channels(grp) && Channel(grp.g) in Channels(grp) && Channel(grp.b) in Channels(grp);
  }

  // ---------------------------------------------------------------------------
  // Reads

  /**
   * What `read_R`, `read_G` or `read_B` returns for the channel of `t`: the raw
   * duty scaled by `MaxPercent / 100`, truncated, in the channel's own integer type.
   */
  function ChannelValue(hw: Ledc.Hw, t: Traits): (v: nat)
    requires hw.Valid()
    ensures v < IntTypeLimit(t.bitDepth)
  {
    ToIntType(Scale(hw.duty[Channel(t)], t.maxPercent), t.bitDepth)
  }

  /**
   * `read_B` as the source writes it: the scaled blue duty converted to R's
   * integer type, then returned as B's.
   */
  function BlueValueAsWritten(hw: Ledc.Hw, grp: Group): (v: nat)
    requires hw.Valid()
    ensures v < IntTypeLimit(grp.r.bitDepth) && v < IntTypeLimit(grp.b.bitDepth)
  {
    var inR := ToIntType(Scale(hw.duty[Channel(grp.b)], grp.b.maxPercent), grp.r.bitDepth);
    ToIntType(inR, grp.b.bitDepth)
  }

  /** The pixel `read_pixel` stores: the three channel reads. */
  function PixelValue(hw: Ledc.Hw, grp: Group): Pixel
    requires hw.Valid()
  {
    Pixel(ChannelValue(hw, grp.r), ChannelValue(hw, grp.g), ChannelValue(hw, grp.b))
  }

  /** What a read of the channel of `t` returns once `value` has been written to it. */
  function Shown(t: Traits, value: int): nat {
    Scale(Stored(t, value), t.maxPercent)
  }

  /** What `read_pixel` returns once `px` has been written to the group. */
  function ShownPixel(grp: Group, px: Pixel): Pixel {
    Pixel(Shown(grp.r, px.r), Shown(grp.g, px.g), Shown(grp.b, px.b))
  }

  /** `read_R`, `read_G` and `read_B` (the last with B's own integer type). */
  method ReadChannel(t: Traits, hw: Ledc.Peripheral) returns (value: nat)
    requires hw.State().Valid()
    ensures value == ChannelValue(hw.State(), t)
  {
    var duty := hw.Read(Channel(t));
    value := ToIntType(Scale(duty, t.maxPercent), t.bitDepth);
  }

  /** `read_pixel(out_color)`: nothing for a null output, otherwise the three reads stored into it. */
  method ReadPixel(grp: Group, hw: Ledc.Peripheral, out: Option<Pixel>) returns (res: Option<Pixel>)
    requires hw.State().Valid()
    ensures out.None? ==> res == None
    ensures out.Some? ==> res == Some(PixelValue(hw.State(), grp))
  {
    if out.None? {
      return out;
    }
    var r := ReadChannel(grp.r, hw);
    var g := ReadChannel(grp.g, hw);
    var b := ReadChannel(grp.b, hw);
    res := Some(Pixel(r, g, b));
  }

  /**
   * A read of a channel whose duty is within its range never wraps: it is the
   * scaled duty, at most the duty, and the duty itself at 100 percent.
   */
  lemma ReadNeverExceedsDuty(hw: Ledc.Hw, t: Traits)
    requires hw.Valid() && Valid(t)
    requires hw.duty[Channel(t)] <= ChannelMax(t)
    ensures ChannelValue(hw, t) == Scale(hw.duty[Channel(t)], t.maxPercent)
    ensures ChannelValue(hw, t) <= hw.duty[Channel(t)]
    ensures t.maxPercent == 100 ==> ChannelValue(hw, t) == hw.duty[Channel(t)]
  {
    MaxFitsIntType(t);
  }

  /** Reading a group that holds `px` returns the written components, clamped then scaled. */
  lemma ReadOfHeldPixel(hw: Ledc.Hw, grp: Group, px: Pixel)
    requires hw.Valid() && WellFormed(grp) && Holds(hw, grp, px)
    ensures PixelValue(hw, grp) == ShownPixel(grp, px)
  {
    ReadNeverExceedsDuty(hw, grp.r);
    ReadNeverExceedsDuty(hw, grp.g);
    ReadNeverExceedsDuty(hw, grp.b);
  }

  /** Writing `px` and reading it back returns the written components, clamped then scaled. */
  lemma ReadAfterWrite(hw: Ledc.Hw, grp: Group, px: Pixel)
    requires hw.Valid() && WellFormed(grp)
    ensures PixelValue(PixelWritten(hw, grp, px), grp) == ShownPixel(grp, px)
  {
    PixelWriteEffect(hw, grp, px);
    ReadOfHeldPixel(PixelWritten(hw, grp, px), grp, px);
  }

  /** At 100 percent on every channel, a pixel whose components are in range reads back unchanged. */
  lemma ShownAtFullScale(grp: Group, px: Pixel)
    requires Valid(grp.r) && Valid(grp.g) && Valid(grp.b)
    requires grp.r.maxPercent == 100 && grp.g.maxPercent == 100 && grp.b.maxPercent == 100
    requires 0 <= px.r <= ChannelMax(grp.r) && 0 <= px.g <= ChannelMax(grp.g) && 0 <= px.b <= ChannelMax(grp.b)
    ensures ShownPixel(grp, px) == px
  {
  }

  /**
   * As written, `read_B` truncates the blue value to R's integer type: with an
   * R channel of at most 8 bits, a blue read of 256 or more comes back wrapped,
   * below 256, while the read in B's own type returns it whole.
   */
  lemma BlueReadAsWrittenWraps(hw: Ledc.Hw, grp: Group)
    requires hw.Valid() && WellFormed(grp)
    requires grp.r.bitDepth <= 8
    requires hw.duty[Channel(grp.b)] <= ChannelMax(grp.b)
    requires 0x100 <= Scale(hw.duty[Channel(grp.b)], grp.b.maxPercent)
    ensures BlueValueAsWritten(hw, grp) < 0x100 <= ChannelValue(hw, grp.b)
    ensures ChannelValue(hw, grp.b) == Scale(hw.duty[Channel(grp.b)], grp.b.maxPercent)
  {
    ReadNeverExceedsDuty(hw, grp.b);
  }

  /**
   * The two reads of blue agree, whatever the duty, when R's integer type is
   * at least as wide as B's: when B has at most 8 bits, or R has more than 8.
   * So every read-back property of the corrected read holds of the source for
   * such groups.
   */
  lemma BlueReadsAgree(hw: Ledc.Hw, grp: Group)
    requires hw.Valid()
    requires grp.b.bitDepth <= 8 || 8 < grp.r.bitDepth
    ensures BlueValueAsWritten(hw, grp) == ChannelValue(hw, grp.b)
  {
    if grp.b.bitDepth <= 8 && 8 < grp.r.bitDepth {
      LowByteOfLowHalf(Scale(hw.duty[Channel(grp.b)], grp.b.maxPercent));
    }
  }

  /** Truncating to 16 bits and then to 8 is truncating to 8. */
  lemma LowByteOfLowHalf(v: int)
    ensures (v % 0x1_0000) % 0x100 == v % 0x100
  {
    var q := v / 0x1_0000;
    var low := v % 0x1_0000;
    assert v == 0x1_0000 * q + low;
    var a := low / 0x100;
    assert low == 0x100 * a + low % 0x100;
    assert v == 0x100 * (0x100 * q + a) + low % 0x100;
  }

  /**
   * An input that shows it: R and G at 8 bits, B at 10 bits, all at 100
   * percent, and a blue duty of 1023. The read as written returns 255; B's
   * own type returns 1023.
   */
  lemma BlueReadCounterexample()
    ensures var grp := Group(Traits(32, 0, 5000, 8, 100), Traits(25, 1, 5000, 8, 100), Traits(26, 2, 5000, 10, 100));
            var hw := Ledc.Hw(seq(Ledc.ChannelCount, c => if c == 2 then 1023 else 0), []);
            && WellFormed(grp) && hw.duty[Channel(grp.b)] == ChannelMax(grp.b)
            && BlueValueAsWritten(hw, grp) == 255 && ChannelValue(hw, grp.b) == 1023
  {
    var grp := Group(Traits(32, 0, 5000, 8, 100), Traits(25, 1, 5000, 8, 100), Traits(26, 2, 5000, 10, 100));
    assert Channel(grp.b) == 2;
    assert ChannelMax(grp.b) == 1023 by {
      assert Pow2(10) == 1024;
    }
  }
}
