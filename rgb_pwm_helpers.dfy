/**
 * `rgb_pwm_helpers`: the recursion over the pack of groups that initializes
 * them all, and the lookup of a group by position that falls back to a group
 * doing nothing when the position is past the end of the pack.
 */
module RgbPwmHelpers {
  import opened Gfx
  import opened RgbPwmGroup
  import Ledc

  /** What `rgb_pwm_fetch_group<Index, ...>::group` names: a group of the pack, or the fallback. */
  datatype Fetched = Fetched(grp: Group) | Fallback

  /** `rgb_pwm_fetch_group`: the group at `index`, or the fallback past the end of the pack. */
  function FetchGroup(groups: seq<Group>, index: nat): (f: Fetched)
    ensures index < |groups| ==> f == Fetched(groups[index])
    ensures |groups| <= index ==> f == Fallback
  {
    if |groups| == 0 then Fallback
    else if index == 0 then Fetched(groups[0])
    else FetchGroup(groups[1..], index - 1)
  }

  /** The pixel type of the fallback group, `rgb_pixel<16>`. */
  const FallbackFormat: Format := Rgb16

  /**
   * The driver calls of `rgb_pwm_groups_initializer<...>::initialize()`: the
   * first group's, then those of the rest of the pack.
   */
  function AllInitCalls(groups: seq<Group>): (calls: seq<Ledc.Call>)
    ensures |calls| == 6 * |groups|
  {
    if groups == [] then [] else GroupInitCalls(groups[0]) + AllInitCalls(groups[1..])
  }

  /** The initializer runs every group's initialization exactly once, in pack order. */
  lemma {:induction false} AllInitCallsInPackOrder(groups: seq<Group>, i: nat)
    requires i < |groups|
    ensures AllInitCalls(groups)[6 * i .. 6 * i + 6] == GroupInitCalls(groups[i])
  {
    var rest := AllInitCalls(groups[1..]);
    if i > 0 {
      AllInitCallsInPackOrder(groups[1..], i - 1);
      assert AllInitCalls(groups)[6 * i .. 6 * i + 6] == rest[6 * (i - 1) .. 6 * (i - 1) + 6];
    }
  }

  /** `rgb_pwm_groups_initializer<...>::initialize()`: the first group, then the rest of the pack. */
  method InitializeAll(groups: seq<Group>, hw: Ledc.Peripheral)
    modifies hw
    ensures hw.State() == old(hw.State()).Logged(AllInitCalls(groups))
    decreases |groups|
  {
    if groups != [] {
      RgbPwmGroup.Initialize(groups[0], hw);
      InitializeAll(groups[1..], hw);
    }
  }
}
