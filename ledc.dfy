/**
 * The Arduino LEDC PWM driver (`ledcSetup`, `ledcAttachPin`, `ledcRead`,
 * `ledcWrite`) as the draw target sees it: sixteen duty registers, and the
 * sequence of calls it has received. The driver's own behaviour (timers,
 * pin multiplexing, frequency limits) is not part of this model.
 */
module Ledc {

  /** The number of LEDC channels; a masked channel index is below it. */
  const ChannelCount: nat := 16

  /** One call into the driver that configures or drives a channel. */
  datatype Call =
    | Setup(channel: nat, frequencyHz: nat, bitDepth: nat)
    | AttachPin(pin: nat, channel: nat)
    | DutyWrite(channel: nat, duty: nat)

  /** The observable state of the driver: each channel's duty and the calls made so far, oldest first. */
  datatype Hw = Hw(duty: seq<nat>, trace: seq<Call>) {

    predicate Valid() {
      |duty| == ChannelCount
    }

    /** The state after the calls `calls`, none of which writes a duty. */
    function Logged(calls: seq<Call>): (h: Hw)
      ensures h.duty == duty && h.trace == trace + calls
    {
      Hw(duty, trace + calls)
    }

    /** The state after `ledcWrite(channel, value)`. */
    function Written(channel: nat, value: nat): (h: Hw)
      requires Valid() && channel < ChannelCount
      ensures h.Valid()
      ensures h.duty[channel] == value
      ensures forall c :: 0 <= c < ChannelCount && c != channel ==> h.duty[c] == duty[c]
      ensures h.trace == trace + [DutyWrite(channel, value)]
    {
      Hw(duty[channel := value], trace + [DutyWrite(channel, value)])
    }
  }

  /** The driver, whose registers the draw target updates in place through the four calls below. */
  class Peripheral {
    var duty: seq<nat>
    var trace: seq<Call>

    function State(): Hw
      reads this
    {
      Hw(duty, trace)
    }

    /** A driver whose registers hold `initial` and which has received no call. */
    constructor (initial: seq<nat>)
      requires |initial| == ChannelCount
      ensures State() == Hw(initial, [])
    {
      duty := initial;
      trace := [];
    }

    /** `ledcSetup(channel, frequency, bitDepth)`. */
    method Setup(channel: nat, frequencyHz: nat, bitDepth: nat)
      modifies this
      ensures State() == old(State()).Logged([Call.Setup(channel, frequencyHz, bitDepth)])
    {
      trace := trace + [Call.Setup(channel, frequencyHz, bitDepth)];
    }

    /** `ledcAttachPin(pin, channel)`. */
    method AttachPin(pin: nat, channel: nat)
      modifies this
      ensures State() == old(State()).Logged([Call.AttachPin(pin, channel)])
    {
      trace := trace + [Call.AttachPin(pin, channel)];
    }

    /** `ledcWrite(channel, value)`. */
    method Write(channel: nat, value: nat)
      requires State().Valid() && channel < ChannelCount
      modifies this
      ensures State() == old(State()).Written(channel, value)
    {
      duty := duty[channel := value];
      trace := trace + [DutyWrite(channel, value)];
    }

    /** `ledcRead(channel)`: the duty last stored in the channel. */
    method Read(channel: nat) returns (value: nat)
      requires State().Valid() && channel < ChannelCount
      ensures value == duty[channel]
    {
      value := duty[channel];
    }
  }
}
