/**
 * `rgb_pwm<Groups...>`: the groups presented as a draw target one row high
 * and one column per group. Its only state is whether it has initialized
 * the hardware; everything else it changes is the driver's.
 *
 * Each operation of the class `RgbPwm` is proved against a function of the
 * configuration and the state before it (`Initialized`, `PointWritten`,
 * `Filled`, `Cleared`, `PointReadResult`); the lemmas after the class state
 * what those functions promise.
 */
module RgbPwmTarget {
  import opened Gfx
  import opened PwmTraits
  import opened RgbPwmGroup
  import opened RgbPwmHelpers
  import Ledc

  /** The number of cases `set_pixel` and `get_pixel` dispatch on: `group % 5`. */
  const Slots: nat := 5

  /** `height`. */
  const Height: nat := 1

  /** The template's pack of groups, and the `gfx::convert` the target calls. */
  datatype Config = Config(groups: seq<Group>, convert: Convert)

  /** Every group of the pack passes its compile-time checks. */
  predicate ValidConfig(cfg: Config) {
    forall i :: 0 <= i < |cfg.groups| ==> WellFormed(cfg.groups[i])
  }

  /**
   * No two groups of the pack share a driver channel. The source does not
   * check this; the lemmas that need groups to be independent require it.
   */
  predicate ChannelsDisjoint(cfg: Config) {
    forall i, j :: 0 <= i < j < |cfg.groups| ==> Channels(cfg.groups[i]) !! Channels(cfg.groups[j])
  }

  /** `m_initialized`, together with the driver's state. */
  datatype TargetState = TargetState(initialized: bool, hw: Ledc.Hw)

  /** `width`: the number of groups, as a `uint16_t`. */
  function Width(cfg: Config): (w: nat)
    ensures w < 0x1_0000
    ensures |cfg.groups| < 0x1_0000 ==> w == |cfg.groups|
  {
    ToUInt16(|cfg.groups|)
  }

  /** `dimensions()`: one column per group, one row; it depends on nothing but the pack. */
  function Dimensions(cfg: Config): (s: Size)
    ensures |cfg.groups| < 0x1_0000 ==> s == Size(|cfg.groups|, 1)
  {
    Size(Width(cfg), Height)
  }

  /** `bounds()`: the rectangle of `dimensions()`. */
  function Bounds(cfg: Config): (r: Rect)
    ensures r.x1 == 0 && r.y1 == 0 && r.y2 == 0 && 0 <= r.x2
    ensures 0 < |cfg.groups| < 0x1_0000 ==> r.x2 == |cfg.groups| - 1
    ensures |cfg.groups| == 0 ==> r.x2 == 0xFFFF
  {
    SizeBounds(Dimensions(cfg))
  }

  /**
   * The case `group % 5` selects. C++ `%` on `int` gives the remainder the sign
   * of the dividend, so below zero no case of the `switch` matches.
   */
  function Slot(x: int): (s: int)
    ensures -(Slots as int) < s < Slots
    ensures 0 <= x ==> 0 <= s
    ensures x <= 0 ==> s <= 0
    ensures (x - s) % (Slots as int) == 0
  {
    if x >= 0 then x % 5 else -((-x) % 5)
  }

  /**
   * The driver after `set_pixel(x, color)`: the color converted to the native
   * format of the group its case fetches, and written to that group; nothing
   * when no case matches or the case fetches the fallback group.
   */
  function SetPixelState(cfg: Config, hw: Ledc.Hw, x: int, color: Pixel): (h: Ledc.Hw)
    requires hw.Valid()
    ensures h.Valid()
  {
    var s := Slot(x);
    if s < 0 then hw
    else match FetchGroup(cfg.groups, s)
      case Fallback => hw
      case Fetched(grp) => PixelWritten(hw, grp, cfg.convert(color, Rgb24, NativeFormat(grp)))
  }

  /**
   * The output after `get_pixel(x, out_color)`: nothing for a null output or
   * when no case matches; otherwise the fetched group's pixel (the fallback's
   * default pixel, which it never reads into) converted to the external format.
   */
  function GetPixelOut(cfg: Config, hw: Ledc.Hw, x: int, out: Option<Pixel>): Option<Pixel>
    requires hw.Valid()
  {
    if out.None? then None
    else
      var s := Slot(x);
      if s < 0 then out
      else match FetchGroup(cfg.groups, s)
        case Fallback => Some(cfg.convert(Black, FallbackFormat, Rgb24))
        case Fetched(grp) => Some(cfg.convert(PixelValue(hw, grp), NativeFormat(grp), Rgb24))
  }

  /** The state after `initialize()`: the first call initializes every group and sets the flag; later calls change nothing. */
  function Initialized(cfg: Config, s: TargetState): (t: TargetState)
    ensures t.initialized && t.hw.duty == s.hw.duty
  {
    if s.initialized then s else TargetState(true, s.hw.Logged(AllInitCalls(cfg.groups)))
  }

  /** The state after `point(location, color)`. */
  function PointWritten(cfg: Config, s: TargetState, loc: Point, color: Pixel): (t: TargetState)
    requires s.hw.Valid()
    ensures t.initialized && t.hw.Valid()
  {
    var ready := Initialized(cfg, s);
    if loc.y < 0 || loc.y >= Height then ready
    else TargetState(true, SetPixelState(cfg, ready.hw, loc.x, color))
  }

  /** The span of columns `fill` writes: the rectangle cropped to the bounds, then normalized. */
  function FillSpan(cfg: Config, rect: Rect): (span: Rect)
    ensures 0 <= span.x1 <= span.x2 < 0x1_0000
  {
    Normalize(Crop(rect, Bounds(cfg)))
  }

  /** The driver after `set_pixel(i, color)` for every `i` from `lo` to `hi`, in increasing order. */
  function ColumnsWritten(cfg: Config, hw: Ledc.Hw, lo: int, hi: int, color: Pixel): (h: Ledc.Hw)
    requires hw.Valid()
    ensures h.Valid()
    decreases hi - lo
  {
    if hi < lo then hw else SetPixelState(cfg, ColumnsWritten(cfg, hw, lo, hi - 1, color), hi, color)
  }

  /** The state after `fill(rect, color)`. */
  function Filled(cfg: Config, s: TargetState, rect: Rect, color: Pixel): (t: TargetState)
    requires s.hw.Valid()
    ensures t.initialized && t.hw.Valid()
  {
    var ready := Initialized(cfg, s);
    var span := FillSpan(cfg, rect);
    TargetState(true, ColumnsWritten(cfg, ready.hw, span.x1, span.x2, color))
  }

  /** The state after `clear(rect)`: a fill with a default-constructed pixel. */
  function Cleared(cfg: Config, s: TargetState, rect: Rect): (t: TargetState)
    requires s.hw.Valid()
    ensures t.initialized && t.hw.Valid()
  {
    Filled(cfg, s, rect, Black)
  }

  /** The result and the output after `point(location, out_color)`; the state does not change. */
  function PointReadResult(cfg: Config, s: TargetState, loc: Point, out: Option<Pixel>): (GfxResult, Option<Pixel>)
    requires s.hw.Valid()
  {
    if !s.initialized then (InvalidState, out)
    else if loc.y < 0 || loc.y >= Height then (Success, out)
    else (Success, GetPixelOut(cfg, s.hw, loc.x, out))
  }

  /** The draw target, over the driver `hw`. */
  class RgbPwm {
    const cfg: Config
    const hw: Ledc.Peripheral
    var initialized: bool

    ghost predicate Valid()
      reads this, hw
    {
      ValidConfig(cfg) && hw.State().Valid()
    }

    ghost function State(): TargetState
      reads this, hw
    {
      TargetState(initialized, hw.State())
    }

    /** `rgb_pwm()`: not yet initialized; the driver is left as it is. */
    constructor (cfg: Config, hw: Ledc.Peripheral)
      requires ValidConfig(cfg) && hw.State().Valid()
      ensures Valid() && !initialized
      ensures this.hw == hw && this.cfg.groups == cfg.groups
      ensures forall p, src, dst :: this.cfg.convert(p, src, dst) == cfg.convert(p, src, dst)
    {
      this.cfg := cfg;
      this.hw := hw;
      initialized := false;
    }

    /** `initialized()`. */
    function IsInitialized(): bool
      reads this
    {
      initialized
    }

    /** `initialize()`: always succeeds. */
    method Initialize() returns (r: GfxResult)
      requires Valid()
      modifies this, hw
      ensures Valid() && r == Success
      ensures State() == Initialized(cfg, old(State()))
    {
      if !initialized {
        InitializeAll(cfg.groups, hw);
        initialized := true;
      }
      r := Success;
    }

    /** `set_pixel(group, color)`. */
    method SetPixel(x: int, color: Pixel)
      requires Valid()
      modifies hw
      ensures hw.State() == SetPixelState(cfg, old(hw.State()), x, color)
    {
      var s := Slot(x);
      if 0 <= s {
        match FetchGroup(cfg.groups, s)
        case Fallback =>
          // the fallback group's write_pixel does nothing
        case Fetched(grp) =>
          WritePixel(grp, hw, cfg.convert(color, Rgb24, NativeFormat(grp)));
      }
    }

    /** `get_pixel(group, out_color)`. */
    method GetPixel(x: int, out: Option<Pixel>) returns (res: Option<Pixel>)
      requires Valid()
      ensures res == GetPixelOut(cfg, hw.State(), x, out)
    {
      if out.None? {
        return out;
      }
      res := out;
      var s := Slot(x);
      if 0 <= s {
        match FetchGroup(cfg.groups, s)
        case Fallback =>
          // the fallback group's read_pixel leaves its default pixel as it is
          res := Some(cfg.convert(Black, FallbackFormat, Rgb24));
        case Fetched(grp) =>
          var px := ReadPixel(grp, hw, Some(Black));
          res := Some(cfg.convert(px.value, NativeFormat(grp), Rgb24));
      }
    }

    /** `point(location, color)`: initializes, then writes the column when the row is 0. */
    method PointWrite(loc: Point, color: Pixel) returns (r: GfxResult)
      requires Valid()
      modifies this, hw
      ensures Valid() && r == Success
      ensures State() == PointWritten(cfg, old(State()), loc, color)
    {
      r := Initialize();
      if loc.y < 0 || loc.y >= Height {
        return Success;
      }
      SetPixel(loc.x, color);
      r := Success;
    }

    /** The loop of `fill`: `set_pixel(i, color)` for every `i` from `lo` to `hi`, in increasing order. */
    method WriteColumns(lo: int, hi: int, color: Pixel)
      requires Valid() && lo <= hi + 1
      modifies hw
      ensures Valid()
      ensures hw.State() == ColumnsWritten(cfg, old(hw.State()), lo, hi, color)
    {
      ghost var start := hw.State();
      for i := lo to hi + 1
        invariant Valid()
        invariant hw.State() == ColumnsWritten(cfg, start, lo, i - 1, color)
      {
        SetPixel(i, color);
      }
    }

    /** `fill(bounds, color)`: initializes, then writes every column of the cropped, normalized span. */
    method Fill(rect: Rect, color: Pixel) returns (r: GfxResult)
      requires Valid()
      modifies this, hw
      ensures Valid() && r == Success
      ensures State() == Filled(cfg, old(State()), rect, color)
    {
      r := Initialize();
      var span := FillSpan(cfg, rect);
      WriteColumns(span.x1, span.x2, color);
      r := Success;
    }

    /** `clear(bounds)`: `fill` with a default-constructed pixel. */
    method Clear(rect: Rect) returns (r: GfxResult)
      requires Valid()
      modifies this, hw
      ensures Valid() && r == Success
      ensures State() == Cleared(cfg, old(State()), rect)
    {
      r := Fill(rect, Black);
    }

    /** `point(location, out_color)`: fails before initialization; changes nothing but the output. */
    method PointRead(loc: Point, out: Option<Pixel>) returns (r: GfxResult, res: Option<Pixel>)
      requires Valid()
      ensures (r, res) == PointReadResult(cfg, State(), loc, out)
    {
      if !initialized {
        return InvalidState, out;
      }
      if loc.y < 0 || loc.y >= Height {
        return Success, out;
      }
      res := GetPixel(loc.x, out);
      r := Success;
    }
  }

  // ---------------------------------------------------------------------------
  // Properties of the specification functions

  /** `initialize()` is idempotent; the first call logs every group's initialization once, later calls nothing. */
  lemma InitializeIdempotent(cfg: Config, s: TargetState)
    ensures Initialized(cfg, Initialized(cfg, s)) == Initialized(cfg, s)
    ensures s.initialized ==> Initialized(cfg, s) == s
    ensures !s.initialized ==> Initialized(cfg, s).hw == s.hw.Logged(AllInitCalls(cfg.groups))
  {
  }

  /** A write off the single row only initializes the target: no duty changes and no driver write is issued. */
  lemma OffRowWriteOnlyInitializes(cfg: Config, s: TargetState, loc: Point, color: Pixel)
    requires s.hw.Valid()
    requires loc.y != 0
    ensures PointWritten(cfg, s, loc, color) == Initialized(cfg, s)
    ensures PointWritten(cfg, s, loc, color).hw.duty == s.hw.duty
  {
  }

  /**
   * A write on the row changes only the channels of the group that column
   * `x % 5` fetches, which then hold the converted color; a column whose case
   * does not match, or fetches the fallback, changes nothing.
   */
  lemma PointWriteTouchesOnlyItsGroup(cfg: Config, s: TargetState, x: int, color: Pixel)
    requires ValidConfig(cfg) && s.hw.Valid()
    ensures Slot(x) < 0 || |cfg.groups| <= Slot(x) ==>
      PointWritten(cfg, s, Point(x, 0), color) == Initialized(cfg, s)
    ensures 0 <= Slot(x) < |cfg.groups| ==>
      var grp := cfg.groups[Slot(x)];
      var h := PointWritten(cfg, s, Point(x, 0), color).hw;
      && Holds(h, grp, cfg.convert(color, Rgb24, NativeFormat(grp)))
      && forall c :: 0 <= c < Ledc.ChannelCount && c !in Channels(grp) ==> h.duty[c] == s.hw.duty[c]
  {
    if 0 <= Slot(x) < |cfg.groups| {
      var grp := cfg.groups[Slot(x)];
      PixelWriteEffect(Initialized(cfg, s).hw, grp, cfg.convert(color, Rgb24, NativeFormat(grp)));
    }
  }

  /** Negative columns that are not a multiple of 5 match no case; the others route as their remainder. */
  lemma NegativeColumns(x: int)
    requires x < 0
    ensures Slot(x) < 0 <==> x % (Slots as int) != 0
    ensures x % (Slots as int) == 0 ==> Slot(x) == 0
  {
  }

  /** Columns wrap: column `x + 5` reaches the same group as column `x`. */
  lemma ColumnsWrap(x: int)
    requires 0 <= x
    ensures Slot(x + Slots) == Slot(x)
  {
  }

  /** A read before initialization fails with `invalid_state` and leaves the output alone. */
  lemma ReadBeforeInitializeFails(cfg: Config, s: TargetState, loc: Point, out: Option<Pixel>)
    requires s.hw.Valid() && !s.initialized
    ensures PointReadResult(cfg, s, loc, out) == (InvalidState, out)
  {
  }

  /** A read off the row succeeds and leaves the output alone, as does a read into a null output. */
  lemma ReadOffRowOrNullLeavesOutput(cfg: Config, s: TargetState, loc: Point, out: Option<Pixel>)
    requires s.hw.Valid() && s.initialized
    requires loc.y != 0 || out.None?
    ensures PointReadResult(cfg, s, loc, out) == (Success, out)
  {
  }

  /**
   * Writing a column and reading it back returns the color converted to the
   * group's format, clamped and scaled per channel, and converted back.
   */
  lemma PointReadAfterWrite(cfg: Config, s: TargetState, x: int, color: Pixel, out: Pixel)
    requires ValidConfig(cfg) && s.hw.Valid()
    requires 0 <= Slot(x) < |cfg.groups|
    ensures var grp := cfg.groups[Slot(x)];
            var native := cfg.convert(color, Rgb24, NativeFormat(grp));
            PointReadResult(cfg, PointWritten(cfg, s, Point(x, 0), color), Point(x, 0), Some(out))
            == (Success, Some(cfg.convert(ShownPixel(grp, native), NativeFormat(grp), Rgb24)))
  {
    var grp := cfg.groups[Slot(x)];
    var native := cfg.convert(color, Rgb24, NativeFormat(grp));
    RgbPwmGroup.ReadAfterWrite(Initialized(cfg, s).hw, grp, native);
  }

  /** Group `k` holds `color` converted to its format, as a write to it stores it. */
  predicate ColumnHolds(cfg: Config, hw: Ledc.Hw, k: nat, color: Pixel)
    requires hw.Valid() && k < |cfg.groups|
  {
    Holds(hw, cfg.groups[k], cfg.convert(color, Rgb24, NativeFormat(cfg.groups[k])))
  }

  /**
   * With at most five groups and no channel shared between them, writing the
   * columns `lo..hi` leaves the group of each of those columns holding the color.
   */
  lemma {:induction false} ColumnsWrittenHold(cfg: Config, hw: Ledc.Hw, lo: int, hi: int, color: Pixel, k: nat)
    requires ValidConfig(cfg) && ChannelsDisjoint(cfg) && hw.Valid()
    requires |cfg.groups| <= Slots && lo <= k <= hi < |cfg.groups|
    ensures ColumnHolds(cfg, ColumnsWritten(cfg, hw, lo, hi, color), k, color)
    decreases hi - lo
  {
    LastColumnWritten(cfg, hw, lo, hi, color);
    if k < hi {
      ColumnsWrittenHold(cfg, hw, lo, hi - 1, color, k);
      ColumnWriteKeepsEarlier(cfg, ColumnsWritten(cfg, hw, lo, hi - 1, color), k, hi, color);
    }
  }

  /** The last of a run of column writes writes the group of that column, which then holds the color. */
  lemma LastColumnWritten(cfg: Config, hw: Ledc.Hw, lo: int, hi: nat, color: Pixel)
    requires ValidConfig(cfg) && hw.Valid()
    requires |cfg.groups| <= Slots && lo <= hi < |cfg.groups|
    ensures var grp := cfg.groups[hi];
            ColumnsWritten(cfg, hw, lo, hi, color)
            == PixelWritten(ColumnsWritten(cfg, hw, lo, hi - 1, color), grp, cfg.convert(color, Rgb24, NativeFormat(grp)))
    ensures ColumnHolds(cfg, ColumnsWritten(cfg, hw, lo, hi, color), hi, color)
  {
    var grp := cfg.groups[hi];
    assert Slot(hi) == hi;
    PixelWriteEffect(ColumnsWritten(cfg, hw, lo, hi - 1, color), grp, cfg.convert(color, Rgb24, NativeFormat(grp)));
  }

  /** Writing the group of column `hi` keeps an earlier column's group holding the color. */
  lemma ColumnWriteKeepsEarlier(cfg: Config, before: Ledc.Hw, k: nat, hi: nat, color: Pixel)
    requires ValidConfig(cfg) && ChannelsDisjoint(cfg) && before.Valid()
    requires k < hi < |cfg.groups|
    requires ColumnHolds(cfg, before, k, color)
    ensures var grp := cfg.groups[hi];
            ColumnHolds(cfg, PixelWritten(before, grp, cfg.convert(color, Rgb24, NativeFormat(grp))), k, color)
  {
    var grp := cfg.groups[hi];
    var other := cfg.groups[k];
    var px := cfg.convert(color, Rgb24, NativeFormat(other));
    assert Channels(other) !! Channels(grp);
    assert Holds(before, other, px);
    OtherGroupKept(before, other, px, grp, cfg.convert(color, Rgb24, NativeFormat(grp)));
  }

  /** A channel that no group drives keeps its duty through any run of column writes. */
  lemma {:induction false} UnusedChannelKept(cfg: Config, hw: Ledc.Hw, lo: int, hi: int, color: Pixel, c: nat)
    requires ValidConfig(cfg) && hw.Valid() && c < Ledc.ChannelCount
    requires forall k :: 0 <= k < |cfg.groups| ==> c !in Channels(cfg.groups[k])
    ensures ColumnsWritten(cfg, hw, lo, hi, color).duty[c] == hw.duty[c]
    decreases hi - lo
  {
    if lo <= hi {
      var before := ColumnsWritten(cfg, hw, lo, hi - 1, color);
      UnusedChannelKept(cfg, hw, lo, hi - 1, color, c);
      var s := Slot(hi);
      if 0 <= s < |cfg.groups| {
        var grp := cfg.groups[s];
        PixelWriteEffect(before, grp, cfg.convert(color, Rgb24, NativeFormat(grp)));
      }
    }
  }

  /**
   * A fill over a rectangle that spans every column (at most five groups,
   * none sharing a channel) leaves every group holding the color.
   */
  lemma FillCoversEveryColumn(cfg: Config, s: TargetState, rect: Rect, color: Pixel)
    requires ValidConfig(cfg) && ChannelsDisjoint(cfg) && s.hw.Valid()
    requires 0 < |cfg.groups| <= Slots
    requires (rect.x1 <= 0 && |cfg.groups| - 1 <= rect.x2) || (rect.x2 <= 0 && |cfg.groups| - 1 <= rect.x1)
    ensures forall k :: 0 <= k < |cfg.groups| ==> ColumnHolds(cfg, Filled(cfg, s, rect, color).hw, k, color)
  {
    FullSpan(cfg, rect);
    forall k | 0 <= k < |cfg.groups|
      ensures ColumnHolds(cfg, Filled(cfg, s, rect, color).hw, k, color)
    {
      ColumnsWrittenHold(cfg, Initialized(cfg, s).hw, 0, |cfg.groups| - 1, color, k);
    }
  }

  /** A rectangle reaching from column 0 to the last column, in either order, fills every column. */
  lemma FullSpan(cfg: Config, rect: Rect)
    requires 0 < |cfg.groups| <= Slots
    requires (rect.x1 <= 0 && |cfg.groups| - 1 <= rect.x2) || (rect.x2 <= 0 && |cfg.groups| - 1 <= rect.x1)
    ensures FillSpan(cfg, rect).x1 == 0 && FillSpan(cfg, rect).x2 == |cfg.groups| - 1
  {
  }

  /** A fill changes no channel that no group drives. */
  lemma FillKeepsUnusedChannels(cfg: Config, s: TargetState, rect: Rect, color: Pixel, c: nat)
    requires ValidConfig(cfg) && s.hw.Valid() && c < Ledc.ChannelCount
    requires forall k :: 0 <= k < |cfg.groups| ==> c !in Channels(cfg.groups[k])
    ensures Filled(cfg, s, rect, color).hw.duty[c] == s.hw.duty[c]
  {
    var span := FillSpan(cfg, rect);
    UnusedChannelKept(cfg, Initialized(cfg, s).hw, span.x1, span.x2, color, c);
  }

  /** A fill never looks at the rows of its rectangle: a rectangle off the single row still writes its columns. */
  lemma FillIgnoresRows(cfg: Config, s: TargetState, rect: Rect, color: Pixel, y1: int, y2: int)
    requires s.hw.Valid()
    ensures Filled(cfg, s, Rect(rect.x1, y1, rect.x2, y2), color) == Filled(cfg, s, rect, color)
  {
  }

  /**
   * After a fill over every column, reading any column returns the color
   * converted to that group's format, clamped and scaled, and converted back.
   */
  lemma FillThenRead(cfg: Config, s: TargetState, rect: Rect, color: Pixel, k: nat, out: Pixel)
    requires ValidConfig(cfg) && ChannelsDisjoint(cfg) && s.hw.Valid()
    requires 0 < |cfg.groups| <= Slots && k < |cfg.groups|
    requires (rect.x1 <= 0 && |cfg.groups| - 1 <= rect.x2) || (rect.x2 <= 0 && |cfg.groups| - 1 <= rect.x1)
    ensures var grp := cfg.groups[k];
            var native := cfg.convert(color, Rgb24, NativeFormat(grp));
            PointReadResult(cfg, Filled(cfg, s, rect, color), Point(k, 0), Some(out))
            == (Success, Some(cfg.convert(ShownPixel(grp, native), NativeFormat(grp), Rgb24)))
  {
    var grp := cfg.groups[k];
    var native := cfg.convert(color, Rgb24, NativeFormat(grp));
    assert Slot(k) == k;
    assert FetchGroup(cfg.groups, k) == Fetched(grp);
    var t := Filled(cfg, s, rect, color);
    FillCoversEveryColumn(cfg, s, rect, color);
    assert ColumnHolds(cfg, t.hw, k, color);
    ReadOfHeldPixel(t.hw, grp, native);
    assert GetPixelOut(cfg, t.hw, k, Some(out)) == Some(cfg.convert(PixelValue(t.hw, grp), NativeFormat(grp), Rgb24));
  }
}
