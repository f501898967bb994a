# htcw_rgb_pwm in Dafny

A model of `include/rgb_pwm.hpp`. The header drives RGB LEDs through the ESP32 LEDC PWM driver. It presents them to the gfx library as a draw target one pixel high, with one pixel per LED. There are three layers, each modelled in its own module:

- `PwmTraits` models `pwm_traits`, one PWM output. Its template arguments are a `Traits` record. Its `static_assert`s are the predicate `Valid`. The channel is masked with `& 15`. The brightness cap `MaxPercent` scales the reads.
- `RgbPwmGroup` models `rgb_pwm_group`, three outputs joined as R, G and B. The group checks at compile time that the three masked channels are distinct and that the three pins are distinct (`WellFormed`). A write clamps each component to `[0, 2^depth - 1]` and stores it in the driver. A read scales the raw duty by `MaxPercent / 100` and truncates it.
- `RgbPwmHelpers` models the recursion over the pack of groups. `AllInitCalls` and `InitializeAll` are the initializer. `FetchGroup` is the lookup by position. Past the end of the pack it returns a fallback group that does nothing.
- `RgbPwmTarget` holds the draw target `rgb_pwm`, as the class `RgbPwm`. Its only state is `initialized` (`m_initialized`). Writes initialize the target lazily. Reads fail with `InvalidState` until the target is initialized. Column `x` goes to the group that `x % 5` fetches.

Two modules hold what the core consumes:

- `Ledc` is the driver. The class `Peripheral` has sixteen duty registers and a `trace` of the calls it has received, oldest first. That trace is how the model states the order of initialization and of writes.
- `Gfx` is the part of the gfx library the core uses: pixels and their formats, points, rectangles, `clamp`, `crop` and `normalize`. `gfx::convert` is left uninterpreted. The target receives it as part of its `Config`.

Each state-changing method is proved against a specification function of the state before it. The class methods are proved against `Initialized`, `PointWritten`, `Filled`, `Cleared` and `PointReadResult`. The group writes are proved against `ChannelWritten` and `PixelWritten`. The lemmas then state what those functions promise.

Where the code and its description differ, the model follows the code, with one exception. The read path (`ReadChannel`, `ReadPixel` and what is built on them) reads blue in B's own integer type, where the code converts it through R's type. The code as written is modelled beside it and compared with it under "## Findings". Otherwise:

- A read of a column whose case fetches the fallback group still stores into the output. `get_pixel_helper` converts the fallback's default-constructed pixel into `*out_color` (lines 152-158). The output is therefore not left unmodified.
- Columns wrap modulo 5, not modulo the group count. With three groups, columns 3 and 4 reach the fallback, and column 5 reaches group 0. Groups past the fifth are never reached.
- A negative column that is not a multiple of 5 matches no case, because C++ `%` keeps the sign of the dividend. A negative multiple of 5 reaches group 0.
- `fill` never looks at the rows of its rectangle (`FillIgnoresRows`).
- The source never checks that two groups use different channels. The lemmas that need groups to be independent require it as `ChannelsDisjoint`.

## Model

| member | source | states |
|---|---|---|
| `PwmTraits.Valid` | include/rgb_pwm.hpp:8-12 | the five `static_assert`s: a bit depth from 1 to 16, a nonzero frequency, and a percentage from 1 to 100 |
| `PwmTraits.WithDefaults` | include/rgb_pwm.hpp:7-12 | the default template arguments (5000 Hz, 8 bits, 100 percent) pass every `static_assert` |
| `PwmTraits.Channel` | include/rgb_pwm.hpp:14 | the masked channel is below 16 and is the template channel modulo 16 |
| `PwmTraits.ChannelMax` | include/rgb_pwm.hpp:37-39 | `channel_traits::max` of a channel of at least one bit is at least 1 |
| `PwmTraits.Scale` | include/rgb_pwm.hpp:50-58 | the scaled duty is `duty * percent / 100` truncated; it is at most the duty for percent <= 100, and equals the duty at 100 percent |
| `PwmTraits.ToIntType` | include/rgb_pwm.hpp:41-43 | a value converted to a channel's integer type fits that type, and is unchanged when it already fits |
| `PwmTraits.MaxFitsIntType` | include/rgb_pwm.hpp:37-43 | for valid traits, the channel maximum `2^depth - 1` fits the channel's own integer type |
| `PwmTraits.InitCalls` | include/rgb_pwm.hpp:19-22 | initialization sets a channel up, then attaches the pin to that same channel, which is below 16 |
| `PwmTraits.Initialize` | include/rgb_pwm.hpp:19-22 | `initialize()` issues `ledcSetup` on the masked channel with the frequency and bit depth, then `ledcAttachPin`; no duty changes |
| `Ledc.Peripheral.Setup` | include/rgb_pwm.hpp:20 | `ledcSetup` is logged and changes no duty |
| `Ledc.Peripheral.AttachPin` | include/rgb_pwm.hpp:21 | `ledcAttachPin` is logged and changes no duty |
| `Ledc.Peripheral.Write` | include/rgb_pwm.hpp:59-67 | `ledcWrite` stores the duty in that channel only, and is logged |
| `Ledc.Peripheral.Read` | include/rgb_pwm.hpp:50-58 | `ledcRead` returns the channel's stored duty |
| `Gfx.Clamp` | include/rgb_pwm.hpp:60 | the result lies in `[lo, hi]`; it is the value when the value is in range, otherwise the nearer bound |
| `Gfx.SizeBounds` | include/rgb_pwm.hpp:193 | the bounds start at the origin and end at `(width-1, height-1)` in `uint16_t` |
| `Gfx.Crop` | include/rgb_pwm.hpp:210 | every coordinate is moved into the bounds, and a coordinate already inside is kept |
| `Gfx.Normalize` | include/rgb_pwm.hpp:210 | the corners are ordered, and each axis keeps its two coordinates |
| `RgbPwmGroup.WellFormed` | include/rgb_pwm.hpp:28-33 | the group's `static_assert`s: valid traits, three pairwise distinct masked channels and three pairwise distinct pins; so the group drives exactly three channels |
| `RgbPwmGroup.GroupInitCalls` | include/rgb_pwm.hpp:45-49 | a group's initialization is R's calls, then G's, then B's |
| `RgbPwmGroup.Initialize` | include/rgb_pwm.hpp:45-49 | `initialize()` logs exactly those calls and changes no duty |
| `RgbPwmGroup.Stored` | include/rgb_pwm.hpp:59-67 | the duty a write stores never exceeds the channel maximum, and is the argument itself when that is in range of valid traits |
| `RgbPwmGroup.WriteChannel` | include/rgb_pwm.hpp:59-67 | `write_R/G/B` leaves the driver as `ChannelWritten` describes: the argument converted to the channel's integer type, clamped, and written to the masked channel |
| `RgbPwmGroup.WritePixel` | include/rgb_pwm.hpp:68-72 | `write_pixel` is the R, G and B writes in that order |
| `RgbPwmGroup.ChannelWriteClamps` | include/rgb_pwm.hpp:59-67 | a write stores at most the channel maximum, stores the value itself when it is in range, changes no other channel, and issues exactly one driver write |
| `RgbPwmGroup.SaturatedWritesAgree` | include/rgb_pwm.hpp:59-67 | arguments a whole integer-type range apart write the same duty; an argument that converts to the maximum or above writes the maximum; -1 converts to the type's largest value and so writes the maximum, not 0 |
| `RgbPwmGroup.PixelWriteEffect` | include/rgb_pwm.hpp:68-72 | in a well-formed group, `write_pixel` leaves all three channels holding their clamped components, changes no other channel, and issues the R, G and B writes in order |
| `RgbPwmGroup.ChannelValue` | include/rgb_pwm.hpp:50-55 | a channel read fits the channel's own integer type |
| `RgbPwmGroup.ReadChannel` | include/rgb_pwm.hpp:50-58 | `read_R/G/B` returns the channel's duty, scaled, truncated, in its own integer type (for `read_B`, the corrected read) |
| `RgbPwmGroup.ReadPixel` | include/rgb_pwm.hpp:73-78 | `read_pixel` does nothing for a null output, and otherwise stores the three channel reads (blue by the corrected read) |
| `RgbPwmGroup.ReadNeverExceedsDuty` | include/rgb_pwm.hpp:50-58 | a read of an in-range duty never wraps; it is at most the duty, and equals it at 100 percent |
| `RgbPwmGroup.ReadOfHeldPixel` | include/rgb_pwm.hpp:73-78 | reading a group that holds a written pixel returns each component clamped, then scaled |
| `RgbPwmGroup.ReadAfterWrite` | include/rgb_pwm.hpp:59-78 | `read_pixel` after `write_pixel` returns each written component clamped, then scaled |
| `RgbPwmGroup.ShownAtFullScale` | include/rgb_pwm.hpp:17 | at 100 percent, an in-range pixel reads back exactly as written |
| `RgbPwmGroup.BlueValueAsWritten` | include/rgb_pwm.hpp:56-58 | `read_B` as written: the scaled blue duty converted to R's integer type, then returned as B's, so it fits both types |
| `RgbPwmGroup.BlueReadsAgree` | include/rgb_pwm.hpp:50-58 | when B has at most 8 bits or R has more than 8, `read_B` as written returns what the corrected read returns, for every duty |
| `RgbPwmGroup.BlueReadAsWrittenWraps` | include/rgb_pwm.hpp:56-58 | when R has at most 8 bits, `read_B` as written returns a wrapped value below 256 for every blue read of 256 or more; the read in B's own type returns it whole |
| `RgbPwmGroup.BlueReadCounterexample` | include/rgb_pwm.hpp:56-58 | with R at 8 bits and B at 10 bits, a blue duty of 1023 reads 255 as written and 1023 in B's own type |
| `RgbPwmGroup.OtherGroupKept` | include/rgb_pwm.hpp:68-72 | writing one group does not disturb a group that shares none of its channels |
| `RgbPwmHelpers.FetchGroup` | include/rgb_pwm.hpp:92-108 | position `i` fetches the `i`-th group of the pack; a position past the end fetches the fallback |
| `RgbPwmHelpers.AllInitCalls` | include/rgb_pwm.hpp:81-91 | the initializer issues six calls per group |
| `RgbPwmHelpers.AllInitCallsInPackOrder` | include/rgb_pwm.hpp:81-91 | the calls for group `i` come as block `i`: every group is initialized once, in pack order |
| `RgbPwmHelpers.InitializeAll` | include/rgb_pwm.hpp:81-91 | the recursive initializer logs exactly those calls and changes no duty |
| `RgbPwmTarget.ValidConfig` | include/rgb_pwm.hpp:26-33 | every group of the pack passes its compile-time checks |
| `RgbPwmTarget.Width` | include/rgb_pwm.hpp:114 | `width` is the group count as a `uint16_t` |
| `RgbPwmTarget.Dimensions` | include/rgb_pwm.hpp:192 | `dimensions()` is (group count, 1) whenever the count fits `uint16_t` |
| `RgbPwmTarget.Bounds` | include/rgb_pwm.hpp:193 | `bounds()` is row 0 from column 0 to column count - 1; with no groups the last column wraps to 65535 |
| `RgbPwmTarget.Slot` | include/rgb_pwm.hpp:129 | `group % 5` with C++ semantics: below 5 in magnitude, with the sign of the column, and congruent to it |
| `RgbPwmTarget.Initialized` | include/rgb_pwm.hpp:183-189 | after `initialize()` the flag is set and no duty has changed |
| `RgbPwmTarget.RgbPwm.constructor` | include/rgb_pwm.hpp:180-182 | a new target is not initialized, and keeps the configuration and driver it was given |
| `RgbPwmTarget.RgbPwm.Initialize` | include/rgb_pwm.hpp:183-189 | `initialize()` always returns success; the first call initializes every group and sets the flag, and later calls change nothing |
| `RgbPwmTarget.RgbPwm.SetPixel` | include/rgb_pwm.hpp:118-151 | `set_pixel` converts the color to the native format of the group that `x % 5` fetches and writes it; with no matching case, or the fallback, nothing changes |
| `RgbPwmTarget.RgbPwm.GetPixel` | include/rgb_pwm.hpp:152-178 | `get_pixel` leaves a null output and a non-matching case alone; otherwise it stores the fetched group's pixel (the fallback's default pixel) converted to the external format |
| `RgbPwmTarget.RgbPwm.PointWrite` | include/rgb_pwm.hpp:194-204 | the write `point` always succeeds and leaves the target initialized; it writes the column only when the row is 0 |
| `RgbPwmTarget.RgbPwm.Fill` | include/rgb_pwm.hpp:205-215 | `fill` initializes the target, then calls `set_pixel` for exactly the columns of the cropped, normalized span, in increasing order |
| `RgbPwmTarget.RgbPwm.WriteColumns` | include/rgb_pwm.hpp:211-213 | the loop of `fill` leaves the driver as `ColumnsWritten` describes: `set_pixel` on every column from `lo` to `hi`, in increasing order |
| `RgbPwmTarget.RgbPwm.Clear` | include/rgb_pwm.hpp:216-219 | `clear` is `fill` with a default-constructed pixel |
| `RgbPwmTarget.RgbPwm.PointRead` | include/rgb_pwm.hpp:220-229 | the read `point` changes neither the flag nor the driver; it returns `InvalidState` before initialization and success after |
| `RgbPwmTarget.InitializeIdempotent` | include/rgb_pwm.hpp:183-189 | initializing twice is the same as initializing once; once initialized, the target is unchanged; the first call logs every group's initialization |
| `RgbPwmTarget.OffRowWriteOnlyInitializes` | include/rgb_pwm.hpp:199-201 | a write with `y` outside `[0, 1)` only initializes: no duty changes and no driver write is issued |
| `RgbPwmTarget.PointWriteTouchesOnlyItsGroup` | include/rgb_pwm.hpp:118-151 | a write on the row changes only the channels of the group that `x % 5` fetches, which then hold the converted color; with no matching case, or the fallback, the write only initializes |
| `RgbPwmTarget.NegativeColumns` | include/rgb_pwm.hpp:129-150 | a negative column matches no case unless it is a multiple of 5, in which case it reaches group 0 |
| `RgbPwmTarget.ColumnsWrap` | include/rgb_pwm.hpp:129 | column `x + 5` reaches the same group as column `x` |
| `RgbPwmTarget.ReadBeforeInitializeFails` | include/rgb_pwm.hpp:221-223 | a read before initialization returns `InvalidState` and leaves the output unchanged |
| `RgbPwmTarget.ReadOffRowOrNullLeavesOutput` | include/rgb_pwm.hpp:220-229 | once initialized, a read off the row or into a null output succeeds and leaves the output unchanged |
| `RgbPwmTarget.PointReadAfterWrite` | include/rgb_pwm.hpp:194-229 | reading a column just written returns the color converted to the group's format, clamped and scaled per channel, and converted back |
| `RgbPwmTarget.ColumnsWrittenHold` | include/rgb_pwm.hpp:211-213 | with at most five groups that share no channel, writing columns `lo..hi` leaves each of those groups holding the color |
| `RgbPwmTarget.UnusedChannelKept` | include/rgb_pwm.hpp:211-213 | a channel that no group drives keeps its duty through any run of column writes |
| `RgbPwmTarget.FillCoversEveryColumn` | include/rgb_pwm.hpp:205-215 | a fill over a rectangle that spans every column leaves every group holding the color |
| `RgbPwmTarget.FillKeepsUnusedChannels` | include/rgb_pwm.hpp:205-215 | a fill changes no channel that no group drives |
| `RgbPwmTarget.FillIgnoresRows` | include/rgb_pwm.hpp:210-213 | the state after a fill does not depend on the rows of the rectangle |
| `RgbPwmTarget.FillThenRead` | include/rgb_pwm.hpp:205-229 | after a fill over every column, every column reads back the color converted, clamped, scaled and converted back |

`initialized()` (line 191) is `RgbPwm.IsInitialized`, which returns the flag. The group's `pixel_type` is `RgbPwmGroup.NativeFormat`.

## Left out

- The LEDC driver itself (timers, pin multiplexing, hardware limits on frequency and resolution) is not modelled. The driver is its duty registers and its call log. The frequency is passed through and never checked at run time.
- `gfx::convert` is a parameter with no stated properties. So the model proves no bit-depth round trip through it: that a full-scale 8-bit value comes back as 255, or that the rescaling loss is bounded by `2^(8-depth)`. Nor does it prove the three-column red, green and blue scenario. Each read-after-write lemma stops at `convert(ShownPixel(...))`.
- `RgbPwmGroup.ReadChannel` and `RgbPwmGroup.ReadPixel` read blue in B's own integer type, not through R's as line 57 does. The same holds for everything built on them: `RgbPwmGroup.ReadOfHeldPixel`, `RgbPwmGroup.ReadAfterWrite`, `RgbPwmTarget.RgbPwm.GetPixel`, `RgbPwmTarget.RgbPwm.PointRead`, `RgbPwmTarget.PointReadAfterWrite` and `RgbPwmTarget.FillThenRead`. `RgbPwmGroup.BlueReadsAgree` shows that the two reads agree whenever B has at most 8 bits or R has more than 8, so for those groups these results also hold of the code as written. For other groups, the code's read is `BlueValueAsWritten` (see "## Findings").
- `PwmTraits.Scale`: `max_scale` is a `float` (line 17). The model scales by the exact rational `MaxPercent / 100` and truncates. It does not reproduce float rounding, which can differ by one for some duties and percentages.
- `PwmTraits.ToIntType`: converting an out-of-range float to an unsigned type is undefined in C++. The model takes the value modulo the type's range.
- `PwmTraits.IntTypeLimit` and `PwmTraits.ChannelMax` take `channel_traits::int_type` to be `uint8_t` up to 8 bits and `uint16_t` above, and take `channel_traits::max` to be `2^depth - 1`. gfx is not part of this model.
- The gfx pixel's per-channel setter is not modelled. A native pixel holds its three channel values as integers, with no masking to the channel's width.
- Default-constructed pixels (the clear color, and the fallback group's pixel) are taken to be zero in every channel.
- The model takes `rect16::crop` to clamp each coordinate into the bounds, `normalize` to order the corners, and `size16::bounds()` to be computed in `uint16_t`. Under this reading, a fill rectangle entirely right of the target writes the last column.
- Coordinates are unbounded integers. The model does not assume that `point16` is unsigned, so negative columns are covered.
- Template mechanics are not modelled: pack recursion, `static_assert` build failures, `gfx_caps`, and the type aliases. The `static_assert`s are the preconditions `Valid`, `WellFormed` and `ValidConfig`. The pack is a `seq<Group>`.
- `point` and `fill` check `initialize()`'s result before going on. That check is left out because `initialize()` always succeeds.
- The demo sketch `examples/demo/src/main.cpp` is a sample consumer loop with serial output and delays. It is not part of this model.
- The target is single-threaded and non-reentrant, so no concurrency is modelled.

## Findings

| source | as written | input that shows it | evidently intended | confidence | as-written member | corrected member |
|---|---|---|---|---|---|---|
| include/rgb_pwm.hpp:56-58 | `read_B` converts the scaled blue duty to `R_int_type` | R and G at 8 bits, B at 10 bits, all at 100 percent, blue duty 1023: the read returns 255 (modulo 256; undefined in C++) | convert to `B_int_type`, returning 1023 | not executed | `RgbPwmGroup.BlueValueAsWritten`, `RgbPwmGroup.BlueReadAsWrittenWraps`, `RgbPwmGroup.BlueReadCounterexample` | `RgbPwmGroup.ChannelValue` applied to B, with `RgbPwmGroup.ReadNeverExceedsDuty` and `RgbPwmGroup.ReadOfHeldPixel` |
