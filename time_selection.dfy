/** Choosing, for a precipitation field, the enhancement grid whose time is
    nearest to the precipitation field's time. */
module TimeSelection {
  import opened Fields

  /** Distance between two timestamps. */
  function Dist(t: real, u: real): real {
    if t < u then u - t else t - u
  }

  /** The index of the timestamp nearest to `t`; of two equally near
      timestamps the one listed first wins, so for ascending times a target
      exactly halfway between two of them goes to the earlier one. */
  function NearestIndex(t: real, times: seq<real>): (k: nat)
    requires 0 < |times|
    ensures k < |times|
    ensures forall j :: 0 <= j < |times| ==> Dist(t, times[k]) <= Dist(t, times[j])
    ensures forall j :: 0 <= j < k ==> Dist(t, times[k]) < Dist(t, times[j])
    decreases |times|
  {
    if |times| == 1 then 0
    else
      var n := |times| - 1;
      var k := NearestIndex(t, times[..n]);
      if Dist(t, times[n]) < Dist(t, times[k]) then n else k
  }

  /** The enhancement grid at index `k`, as a single-time field: it keeps
      the enhancement's own time, unit and metadata, and its time is a
      scalar coordinate. */
  function SliceAt(oe: Series, k: nat): (s: Field)
    requires oe.Valid() && k < |oe.times|
    ensures s.time == oe.times[k] && !s.timeIsDim
    ensures s.unit == oe.unit && s.meta == oe.meta && s.cells == oe.slices[k]
  {
    Field(oe.times[k], false, oe.unit, oe.meta, oe.slices[k])
  }

  /** The enhancement grid nearest in time to the precipitation field
      `precip`. */
  function SelectEnhancementSlice(precip: Field, oe: Series): (s: Field)
    requires oe.Valid()
    ensures s.unit == oe.unit && s.meta == oe.meta && !s.timeIsDim
    ensures |s.cells| == oe.GridSize()
    ensures exists k :: 0 <= k < |oe.times| && s.time == oe.times[k] && s.cells == oe.slices[k] &&
                        forall j :: 0 <= j < k ==> Dist(precip.time, s.time) < Dist(precip.time, oe.times[j])
    ensures forall j :: 0 <= j < |oe.times| ==> Dist(precip.time, s.time) <= Dist(precip.time, oe.times[j])
  {
    SliceAt(oe, NearestIndex(precip.time, oe.times))
  }

  /** For ascending timestamps and a target lying between two neighbours,
      the nearer neighbour is chosen, and the earlier one at the exact
      midpoint. */
  lemma {:induction false} NearestBetween(t: real, times: seq<real>, i: nat)
    requires Ascending(times)
    requires i + 1 < |times| && times[i] <= t <= times[i + 1]
    ensures NearestIndex(t, times) == if t - times[i] <= times[i + 1] - t then i else i + 1
  {
    assert forall j :: 0 <= j < i ==> Dist(t, times[i]) < Dist(t, times[j]);
    assert forall j :: i + 1 < j < |times| ==> Dist(t, times[i + 1]) < Dist(t, times[j]);
  }

  /** A target before the first timestamp takes the first grid, one after
      the last timestamp takes the last grid. */
  lemma {:induction false} NearestOutside(t: real, times: seq<real>)
    requires Ascending(times)
    requires 0 < |times|
    ensures t <= times[0] ==> NearestIndex(t, times) == 0
    ensures times[|times| - 1] <= t ==> NearestIndex(t, times) == |times| - 1
  {
    var n := |times| - 1;
    if t <= times[0] {
      assert forall j :: 0 < j < |times| ==> Dist(t, times[0]) < Dist(t, times[j]);
    }
    if times[n] <= t {
      assert forall j :: 0 <= j < n ==> Dist(t, times[n]) < Dist(t, times[j]);
    }
  }

  /** An enhancement field with a single time serves every target. */
  lemma SingleTimeServesAll(precip: Field, oe: Series)
    requires oe.Valid() && |oe.times| == 1
    ensures SelectEnhancementSlice(precip, oe) == SliceAt(oe, 0)
  {
  }

  /** The timestamps of the enhancement fixture: two hourly times. */
  const FixtureTimes: seq<real> := [412227.0, 412228.0]

  /** Targets on the hour and at quarter past take the 412227.0 grid, half
      past rounds down to it, and quarter to and the next hour take the
      412228.0 grid. */
  lemma FixtureSelection()
    ensures NearestIndex(412227.0, FixtureTimes) == 0
    ensures NearestIndex(412227.25, FixtureTimes) == 0
    ensures NearestIndex(412227.5, FixtureTimes) == 0
    ensures NearestIndex(412227.75, FixtureTimes) == 1
    ensures NearestIndex(412228.0, FixtureTimes) == 1
  {
    NearestBetween(412227.0, FixtureTimes, 0);
    NearestBetween(412227.25, FixtureTimes, 0);
    NearestBetween(412227.5, FixtureTimes, 0);
    NearestBetween(412227.75, FixtureTimes, 0);
    NearestBetween(412228.0, FixtureTimes, 0);
  }
}
