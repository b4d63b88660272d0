/** The fixture grids of the plugin's tests and the outcomes the tests
    assert for them. Every grid is 3 x 3, flattened row by row; fixture
    values are written in mm/hr and converted to m/s, as the fixtures do.
    The minimum rate stays a parameter: the expected grids use it where the
    tests write the plugin's constant. */
module Scenarios {
  import opened Fields
  import opened Config
  import opened TimeSelection
  import opened Combination
  import opened MinimumRate
  import opened Process

  /** Numeric cells from plain values. */
  function Vals(xs: seq<real>): (cs: seq<Cell>)
    ensures |cs| == |xs| && forall i :: 0 <= i < |xs| ==> cs[i] == Val(xs[i])
  {
    seq(|xs|, i requires 0 <= i < |xs| => Val(xs[i]))
  }

  /** Masks every cell at or below 1 mm/hr, as the masking loop of the
      masked-input tests does (the cells must be in mm/hr). */
  function MaskAtMostOne(cs: seq<Cell>): (r: seq<Cell>)
    ensures |r| == |cs|
  {
    seq(|cs|, i requires 0 <= i < |cs| => if cs[i].Val? && cs[i].v <= 1.0 then Masked(cs[i].v) else cs[i])
  }

  /** A field built in mm/hr and then converted to m/s. */
  function InMetresPerSecond(time: real, meta: Metadata, cells: seq<Cell>): (f: Field)
    ensures f.time == time && f.meta == meta && f.unit == MetresPerSecond && |f.cells| == |cells|
  {
    ConvertUnits(Field(time, true, MillimetresPerHour, meta, cells), MetresPerSecond)
  }

  const PrecipMeta: Metadata := Metadata("lwe_precipitation_rate")
  const EnhancementMeta: Metadata := Metadata("orographic_enhancement")

  const Precip0Mmh: seq<real> := [0.0, 1.0, 2.0,  1.0, 2.0, 3.0,  0.0, 2.0, 2.0]
  const Precip1Mmh: seq<real> := [4.0, 4.0, 1.0,  4.0, 4.0, 1.0,  4.0, 4.0, 1.0]
  const Enhancement0Mmh: seq<real> := [0.0, 0.0, 0.0,  0.0, 0.0, 4.0,  1.0, 1.0, 2.0]
  const Enhancement1Mmh: seq<real> := [5.0, 5.0, 5.0,  2.0, 1.0, 0.0,  2.0, 1.0, 0.0]

  function Precip0(): Field { InMetresPerSecond(412227.0, PrecipMeta, Vals(Precip0Mmh)) }
  function Precip1(): Field { InMetresPerSecond(412228.0, PrecipMeta, Vals(Precip1Mmh)) }

  /** The enhancement fixture: two hourly grids concatenated along time. */
  function Enhancement(): (oe: Series)
    ensures oe.Valid() && oe.GridSize() == 9
  {
    Series([412227.0, 412228.0], MetresPerSecond, EnhancementMeta,
           [InMetresPerSecond(412227.0, EnhancementMeta, Vals(Enhancement0Mmh)).cells,
            InMetresPerSecond(412228.0, EnhancementMeta, Vals(Enhancement1Mmh)).cells])
  }

  /** The enhancement fixture cut down to its first time. */
  function FirstEnhancementOnly(): (oe: Series)
    ensures oe.Valid() && oe.GridSize() == 9
  {
    Series([412227.0], MetresPerSecond, EnhancementMeta,
           [InMetresPerSecond(412227.0, EnhancementMeta, Vals(Enhancement0Mmh)).cells])
  }

  /** A precipitation field at 412227.5, halfway between the two
      enhancement times, is paired with the earlier grid; at 412227.75 with
      the later one. Either way the slice keeps the enhancement's own time
      and metadata. */
  lemma SelectFixtureSlices()
    ensures SelectEnhancementSlice(Precip0().(time := 412227.5), Enhancement()) == SliceAt(Enhancement(), 0)
    ensures SelectEnhancementSlice(Precip0().(time := 412227.75), Enhancement()) == SliceAt(Enhancement(), 1)
    ensures SliceAt(Enhancement(), 0).time == 412227.0 && SliceAt(Enhancement(), 0).meta == EnhancementMeta
  {
    FixtureSelection();
  }

  /** Adding the first enhancement grid to the first precipitation field
      gives [[0,1,2],[1,2,7],[0,3,4]] mm/hr: the enhancement of 1 at
      row 2, column 0 is dropped because the precipitation there is 0. */
  lemma CombineAddFixture(minRate: MinRate)
    ensures CellsInMmh(ApplyEnhancement(Add, minRate, Precip0(), SliceAt(Enhancement(), 0))) ==
            Vals([0.0, 1.0, 2.0,  1.0, 2.0, 7.0,  0.0, 3.0, 4.0])
  {
    var precip, slice := Precip0(), SliceAt(Enhancement(), 0);
    var r := ApplyEnhancement(Add, minRate, precip, slice);
    ApplyEnhancementMeaning(Add, minRate, precip, slice);
    var a, expected := CellsInMmh(r), Vals([0.0, 1.0, 2.0,  1.0, 2.0, 7.0,  0.0, 3.0, 4.0]);
    forall i | 0 <= i < 9
      ensures a[i] == expected[i]
    {
      assert CombinedAt(Add, minRate, precip, slice, r, i);
    }
  }

  /** Subtracting gives [[0,1,2],[1,2,-1],[0,1,0]] mm/hr: no floor is
      applied by the combination itself. */
  lemma CombineSubtractFixture(minRate: MinRate)
    ensures CellsInMmh(ApplyEnhancement(Subtract, minRate, Precip0(), SliceAt(Enhancement(), 0))) ==
            Vals([0.0, 1.0, 2.0,  1.0, 2.0, -1.0,  0.0, 1.0, 0.0])
  {
    var precip, slice := Precip0(), SliceAt(Enhancement(), 0);
    var r := ApplyEnhancement(Subtract, minRate, precip, slice);
    ApplyEnhancementMeaning(Subtract, minRate, precip, slice);
    var a, expected := CellsInMmh(r), Vals([0.0, 1.0, 2.0,  1.0, 2.0, -1.0,  0.0, 1.0, 0.0]);
    forall i | 0 <= i < 9
      ensures a[i] == expected[i]
    {
      assert CombinedAt(Subtract, minRate, precip, slice, r, i);
    }
  }

  /** Flooring the subtracted fixture raises -1 and 0 to the minimum rate
      where there is precipitation, and leaves the 0 where there is none:
      [[0,1,2],[1,2,MIN],[0,1,MIN]]. */
  lemma FloorSubtractFixture(minRate: MinRate)
    ensures var precip := Precip0();
            var combined := ApplyEnhancement(Subtract, minRate, precip, SliceAt(Enhancement(), 0));
            CellsInMmh(MinimumRateFloor(minRate, precip, combined)) ==
            Vals([0.0, 1.0, 2.0,  1.0, 2.0, minRate as real,  0.0, 1.0, minRate as real])
  {
    var precip, slice := Precip0(), SliceAt(Enhancement(), 0);
    var combined := ApplyEnhancement(Subtract, minRate, precip, slice);
    var r := MinimumRateFloor(minRate, precip, combined);
    ApplyEnhancementMeaning(Subtract, minRate, precip, slice);
    MinimumRateFloorMeaning(minRate, precip, combined);
    var a, expected := CellsInMmh(r), Vals([0.0, 1.0, 2.0,  1.0, 2.0, minRate as real,  0.0, 1.0, minRate as real]);
    forall i | 0 <= i < 9
      ensures a[i] == expected[i]
    {
      assert CombinedAt(Subtract, minRate, precip, slice, combined, i);
      assert FlooredAt(minRate, precip, combined, r, i);
    }
  }

  /** The same floor with the precipitation and the combined field each in
      any unit (mm/hr and mm/hr, km/hr and ft/s, ...): the result is in the
      combined field's unit and reads [[0,1,2],[1,2,MIN],[0,1,MIN]] mm/hr. */
  lemma FloorSubtractAnyUnits(minRate: MinRate, pu: Unit, cu: Unit)
    ensures var precip := Precip0();
            var combined := ApplyEnhancement(Subtract, minRate, precip, SliceAt(Enhancement(), 0));
            var r := MinimumRateFloor(minRate, ConvertUnits(precip, pu), ConvertUnits(combined, cu));
            r.unit == cu && r.meta == PrecipMeta &&
            CellsInMmh(r) == Vals([0.0, 1.0, 2.0,  1.0, 2.0, minRate as real,  0.0, 1.0, minRate as real])
  {
    var precip := Precip0();
    var combined := ApplyEnhancement(Subtract, minRate, precip, SliceAt(Enhancement(), 0));
    var converted := ConvertUnits(combined, cu);
    FloorPrecipUnitIrrelevant(minRate, precip, converted, pu);
    FloorUnitIrrelevant(minRate, precip, combined, cu);
    FloorSubtractFixture(minRate);
  }

  /** Where every combined value is at least 1 mm/hr, nothing is floored:
      [[1,1,1],[1,2,3],[3,3,4]] comes back as it was. */
  lemma FloorNoNegativeRates(minRate: MinRate)
    ensures var combined := InMetresPerSecond(412227.0, PrecipMeta, Vals([1.0, 1.0, 1.0,  1.0, 2.0, 3.0,  3.0, 3.0, 4.0]));
            MinimumRateFloor(minRate, Precip0(), combined) == combined
  {
    var combined := InMetresPerSecond(412227.0, PrecipMeta, Vals([1.0, 1.0, 1.0,  1.0, 2.0, 3.0,  3.0, 3.0, 4.0]));
    var r := MinimumRateFloor(minRate, Precip0(), combined);
    FloorKeepsOthers(minRate, Precip0(), combined);
    ReadBackMmh(combined, 412227.0, PrecipMeta, Vals([1.0, 1.0, 1.0,  1.0, 2.0, 3.0,  3.0, 3.0, 4.0]));
    forall i | 0 <= i < 9
      ensures r.cells[i] == combined.cells[i]
    {
      assert CellsInMmh(combined)[i] == ConvertCell(combined.cells[i], MetresPerSecond, MillimetresPerHour);
    }
    assert r.cells == combined.cells;
  }

  /** A combined row of NaN stays NaN under the floor while the other rows
      are floored as usual: [[0,1,2],[NaN,NaN,NaN],[0,1,MIN]]. */
  lemma FloorKeepsNaN(minRate: MinRate)
    ensures var combined := InMetresPerSecond(412227.0, PrecipMeta,
                              [Val(0.0), Val(1.0), Val(2.0),  NaN, NaN, NaN,  Val(0.0), Val(1.0), Val(0.0)]);
            CellsInMmh(MinimumRateFloor(minRate, Precip0(), combined)) ==
            [Val(0.0), Val(1.0), Val(2.0),  NaN, NaN, NaN,  Val(0.0), Val(1.0), Val(minRate)]
  {
    var precip := Precip0();
    var combined := InMetresPerSecond(412227.0, PrecipMeta,
                      [Val(0.0), Val(1.0), Val(2.0),  NaN, NaN, NaN,  Val(0.0), Val(1.0), Val(0.0)]);
    var r := MinimumRateFloor(minRate, precip, combined);
    MinimumRateFloorMeaning(minRate, precip, combined);
    var a := CellsInMmh(r);
    var expected := [Val(0.0), Val(1.0), Val(2.0),  NaN, NaN, NaN,  Val(0.0), Val(1.0), Val(minRate)];
    forall i | 0 <= i < 9
      ensures a[i] == expected[i]
    {
      assert FlooredAt(minRate, precip, combined, r, i);
    }
  }

  /** Where the input precipitation is zero the floor does nothing, even
      though the combined value there is 0 too. */
  lemma FloorNoInputPrecip(minRate: MinRate)
    ensures var precip := InMetresPerSecond(412227.0, PrecipMeta, Vals([0.0, 0.0, 0.0,  0.0, 0.0, 5.0,  0.0, 2.0, 3.0]));
            var combined := InMetresPerSecond(412227.0, PrecipMeta, Vals([0.0, 0.0, 0.0,  0.0, 0.0, 1.0,  0.0, 1.0, 1.0]));
            CellsInMmh(MinimumRateFloor(minRate, precip, combined)) ==
            Vals([0.0, 0.0, 0.0,  0.0, 0.0, 1.0,  0.0, 1.0, 1.0])
  {
    var precip := InMetresPerSecond(412227.0, PrecipMeta, Vals([0.0, 0.0, 0.0,  0.0, 0.0, 5.0,  0.0, 2.0, 3.0]));
    var combined := InMetresPerSecond(412227.0, PrecipMeta, Vals([0.0, 0.0, 0.0,  0.0, 0.0, 1.0,  0.0, 1.0, 1.0]));
    var r := MinimumRateFloor(minRate, precip, combined);
    MinimumRateFloorMeaning(minRate, precip, combined);
    var a, expected := CellsInMmh(r), Vals([0.0, 0.0, 0.0,  0.0, 0.0, 1.0,  0.0, 1.0, 1.0]);
    forall i | 0 <= i < 9
      ensures a[i] == expected[i]
    {
      assert FlooredAt(minRate, precip, combined, r, i);
    }
  }

  function Precip0Masked(): Field { InMetresPerSecond(412227.0, PrecipMeta, MaskAtMostOne(Vals(Precip0Mmh))) }
  function Precip1Masked(): Field { InMetresPerSecond(412228.0, PrecipMeta, MaskAtMostOne(Vals(Precip1Mmh))) }

  /** Each fixture precipitation field is paired with the enhancement grid
      of its own time. */
  lemma FixturePairing(precip: Field)
    requires precip.time == 412227.0 || precip.time == 412228.0
    ensures SelectEnhancementSlice(precip, Enhancement()) ==
            SliceAt(Enhancement(), if precip.time == 412227.0 then 0 else 1)
  {
    FixtureSelection();
  }

  /** A fixture field, read back in mm/hr, gives the grid it was built
      from; so does any field with the same m/s data. */
  lemma {:induction false} ReadBackMmh(g: Field, time: real, meta: Metadata, cs: seq<Cell>)
    requires g.unit == MetresPerSecond && g.cells == InMetresPerSecond(time, meta, cs).cells
    ensures CellsInMmh(g) == cs
  {
    var f := Field(time, true, MillimetresPerHour, meta, cs);
    ConvertUnitsRoundTrip(f, MetresPerSecond);
    assert CellsInMmh(g) == ConvertUnits(ConvertUnits(f, MetresPerSecond), MillimetresPerHour).cells;
  }

  /** The fixture grids read back in mm/hr. */
  lemma FixturesInMmh()
    ensures CellsInMmh(Precip0()) == Vals(Precip0Mmh) && CellsInMmh(Precip1()) == Vals(Precip1Mmh)
    ensures CellsInMmh(Precip0Masked()) == MaskAtMostOne(Vals(Precip0Mmh))
    ensures CellsInMmh(Precip1Masked()) == MaskAtMostOne(Vals(Precip1Mmh))
    ensures CellsInMmh(SliceAt(Enhancement(), 0)) == Vals(Enhancement0Mmh)
    ensures CellsInMmh(SliceAt(Enhancement(), 1)) == Vals(Enhancement1Mmh)
    ensures CellsInMmh(SliceAt(FirstEnhancementOnly(), 0)) == Vals(Enhancement0Mmh)
  {
    ReadBackMmh(Precip0(), 412227.0, PrecipMeta, Vals(Precip0Mmh));
    ReadBackMmh(Precip1(), 412228.0, PrecipMeta, Vals(Precip1Mmh));
    ReadBackMmh(Precip0Masked(), 412227.0, PrecipMeta, MaskAtMostOne(Vals(Precip0Mmh)));
    ReadBackMmh(Precip1Masked(), 412228.0, PrecipMeta, MaskAtMostOne(Vals(Precip1Mmh)));
    ReadBackMmh(SliceAt(Enhancement(), 0), 412227.0, EnhancementMeta, Vals(Enhancement0Mmh));
    ReadBackMmh(SliceAt(Enhancement(), 1), 412228.0, EnhancementMeta, Vals(Enhancement1Mmh));
    ReadBackMmh(SliceAt(FirstEnhancementOnly(), 0), 412227.0, EnhancementMeta, Vals(Enhancement0Mmh));
  }

  /** Adding the fixture enhancement: [[0,1,2],[1,2,7],[0,3,4]] at the
      first time and [[9,9,6],[6,5,1],[6,5,1]] at the second. */
  lemma AdjustAddFixture(minRate: MinRate)
    ensures CellsInMmh(Adjust(Plugin(Add, minRate), Precip0(), Enhancement())) ==
            Vals([0.0, 1.0, 2.0,  1.0, 2.0, 7.0,  0.0, 3.0, 4.0])
    ensures CellsInMmh(Adjust(Plugin(Add, minRate), Precip1(), Enhancement())) ==
            Vals([9.0, 9.0, 6.0,  6.0, 5.0, 1.0,  6.0, 5.0, 1.0])
  {
    var plugin := Plugin(Add, minRate);
    FixturePairing(Precip0());
    FixturePairing(Precip1());
    FixturesInMmh();
    AdjustInMmh(plugin, Precip0(), Enhancement());
    AdjustInMmh(plugin, Precip1(), Enhancement());
  }

  /** Subtracting the fixture enhancement: [[0,1,2],[1,2,MIN],[0,1,MIN]] at
      the first time and [[MIN,MIN,MIN],[2,3,1],[2,3,1]] at the second. */
  lemma AdjustSubtractFixture(minRate: MinRate)
    ensures CellsInMmh(Adjust(Plugin(Subtract, minRate), Precip0(), Enhancement())) ==
            Vals([0.0, 1.0, 2.0,  1.0, 2.0, minRate as real,  0.0, 1.0, minRate as real])
    ensures CellsInMmh(Adjust(Plugin(Subtract, minRate), Precip1(), Enhancement())) ==
            Vals([minRate as real, minRate as real, minRate as real,  2.0, 3.0, 1.0,  2.0, 3.0, 1.0])
  {
    var plugin := Plugin(Subtract, minRate);
    FixturePairing(Precip0());
    FixturePairing(Precip1());
    FixturesInMmh();
    AdjustInMmh(plugin, Precip0(), Enhancement());
    AdjustInMmh(plugin, Precip1(), Enhancement());
  }

  /** With only the first enhancement grid, both precipitation fields are
      adjusted by it: the second field gives [[4,4,1],[4,4,MIN],[3,3,MIN]]. */
  lemma AdjustStaticFixture(minRate: MinRate)
    ensures CellsInMmh(Adjust(Plugin(Subtract, minRate), Precip0(), FirstEnhancementOnly())) ==
            Vals([0.0, 1.0, 2.0,  1.0, 2.0, minRate as real,  0.0, 1.0, minRate as real])
    ensures CellsInMmh(Adjust(Plugin(Subtract, minRate), Precip1(), FirstEnhancementOnly())) ==
            Vals([4.0, 4.0, 1.0,  4.0, 4.0, minRate as real,  3.0, 3.0, minRate as real])
  {
    var plugin := Plugin(Subtract, minRate);
    SingleTimeServesAll(Precip0(), FirstEnhancementOnly());
    SingleTimeServesAll(Precip1(), FirstEnhancementOnly());
    FixturesInMmh();
    AdjustInMmh(plugin, Precip0(), FirstEnhancementOnly());
    AdjustInMmh(plugin, Precip1(), FirstEnhancementOnly());
  }

  /** With the cells at or below 1 mm/hr masked, adding keeps the masked
      cells' own values: the second field gives [[9,9,1],[6,5,1],[6,5,1]]
      with its last column masked. */
  lemma AdjustAddMaskedFixture(minRate: MinRate)
    ensures CellsInMmh(Adjust(Plugin(Add, minRate), Precip0Masked(), Enhancement())) ==
            [Masked(0.0), Masked(1.0), Val(2.0),  Masked(1.0), Val(2.0), Val(7.0),  Masked(0.0), Val(3.0), Val(4.0)]
    ensures CellsInMmh(Adjust(Plugin(Add, minRate), Precip1Masked(), Enhancement())) ==
            [Val(9.0), Val(9.0), Masked(1.0),  Val(6.0), Val(5.0), Masked(1.0),  Val(6.0), Val(5.0), Masked(1.0)]
  {
    var plugin := Plugin(Add, minRate);
    FixturePairing(Precip0Masked());
    FixturePairing(Precip1Masked());
    FixturesInMmh();
    AdjustInMmh(plugin, Precip0Masked(), Enhancement());
    AdjustInMmh(plugin, Precip1Masked(), Enhancement());
  }

  /** With the cells at or below 1 mm/hr masked, subtracting neither
      enhances nor floors the masked cells: the second field keeps 1 at
      row 0, column 2, where the unmasked input gives MIN. */
  lemma AdjustSubtractMaskedFixture(minRate: MinRate)
    ensures CellsInMmh(Adjust(Plugin(Subtract, minRate), Precip0Masked(), Enhancement())) ==
            [Masked(0.0), Masked(1.0), Val(2.0),  Masked(1.0), Val(2.0), Val(minRate),  Masked(0.0), Val(1.0), Val(minRate)]
    ensures CellsInMmh(Adjust(Plugin(Subtract, minRate), Precip1Masked(), Enhancement())) ==
            [Val(minRate), Val(minRate), Masked(1.0),  Val(2.0), Val(3.0), Masked(1.0),  Val(2.0), Val(3.0), Masked(1.0)]
  {
    var plugin := Plugin(Subtract, minRate);
    FixturePairing(Precip0Masked());
    FixturePairing(Precip1Masked());
    FixturesInMmh();
    AdjustInMmh(plugin, Precip0Masked(), Enhancement());
    AdjustInMmh(plugin, Precip1Masked(), Enhancement());
  }

  /** Processing both precipitation fields with "add" returns a list of two
      fields, each with its input's metadata, holding the expected grids. */
  method ProcessBasicAdd(minRate: MinRate) returns (out: seq<Field>)
    ensures |out| == 2 && out[0].meta == PrecipMeta && out[1].meta == PrecipMeta
    ensures CellsInMmh(out[0]) == Vals([0.0, 1.0, 2.0,  1.0, 2.0, 7.0,  0.0, 3.0, 4.0])
    ensures CellsInMmh(out[1]) == Vals([9.0, 9.0, 6.0,  6.0, 5.0, 1.0,  6.0, 5.0, 1.0])
  {
    out := Process.Process(Plugin(Add, minRate), Many([Precip0(), Precip1()]), Enhancement());
    AdjustAddFixture(minRate);
  }

  /** Processing both precipitation fields with "subtract". */
  method ProcessBasicSubtract(minRate: MinRate) returns (out: seq<Field>)
    ensures |out| == 2 && out[0].meta == PrecipMeta && out[1].meta == PrecipMeta
    ensures CellsInMmh(out[0]) == Vals([0.0, 1.0, 2.0,  1.0, 2.0, minRate as real,  0.0, 1.0, minRate as real])
    ensures CellsInMmh(out[1]) == Vals([minRate as real, minRate as real, minRate as real,  2.0, 3.0, 1.0,  2.0, 3.0, 1.0])
  {
    out := Process.Process(Plugin(Subtract, minRate), Many([Precip0(), Precip1()]), Enhancement());
    AdjustSubtractFixture(minRate);
  }

  /** Processing masked precipitation fields with "add": the underlying
      values of the output are those the test compares. */
  method ProcessAddWithMask(minRate: MinRate) returns (out: seq<Field>)
    ensures |out| == 2 && out[0].meta == PrecipMeta && out[1].meta == PrecipMeta
    ensures CellsInMmh(out[0]) ==
            [Masked(0.0), Masked(1.0), Val(2.0),  Masked(1.0), Val(2.0), Val(7.0),  Masked(0.0), Val(3.0), Val(4.0)]
    ensures CellsInMmh(out[1]) ==
            [Val(9.0), Val(9.0), Masked(1.0),  Val(6.0), Val(5.0), Masked(1.0),  Val(6.0), Val(5.0), Masked(1.0)]
  {
    out := Process.Process(Plugin(Add, minRate), Many([Precip0Masked(), Precip1Masked()]), Enhancement());
    AdjustAddMaskedFixture(minRate);
  }

  /** Processing masked precipitation fields with "subtract". */
  method ProcessSubtractWithMask(minRate: MinRate) returns (out: seq<Field>)
    ensures |out| == 2 && out[0].meta == PrecipMeta && out[1].meta == PrecipMeta
    ensures CellsInMmh(out[0]) ==
            [Masked(0.0), Masked(1.0), Val(2.0),  Masked(1.0), Val(2.0), Val(minRate),  Masked(0.0), Val(1.0), Val(minRate)]
    ensures CellsInMmh(out[1]) ==
            [Val(minRate), Val(minRate), Masked(1.0),  Val(2.0), Val(3.0), Masked(1.0),  Val(2.0), Val(3.0), Masked(1.0)]
  {
    out := Process.Process(Plugin(Subtract, minRate), Many([Precip0Masked(), Precip1Masked()]), Enhancement());
    AdjustSubtractMaskedFixture(minRate);
  }

  /** A single precipitation field gives a one-element list. */
  method ProcessOneInputCube(minRate: MinRate) returns (out: seq<Field>)
    ensures |out| == 1 && out[0].meta == PrecipMeta
    ensures CellsInMmh(out[0]) == Vals([0.0, 1.0, 2.0,  1.0, 2.0, 7.0,  0.0, 3.0, 4.0])
  {
    out := Process.Process(Plugin(Add, minRate), Single(Precip0()), Enhancement());
    AdjustAddFixture(minRate);
  }

  /** An enhancement field with one time serves both precipitation fields. */
  method ProcessOnlyOneEnhancementTime(minRate: MinRate) returns (out: seq<Field>)
    ensures |out| == 2 && out[0].meta == PrecipMeta && out[1].meta == PrecipMeta
    ensures CellsInMmh(out[0]) == Vals([0.0, 1.0, 2.0,  1.0, 2.0, minRate as real,  0.0, 1.0, minRate as real])
    ensures CellsInMmh(out[1]) == Vals([4.0, 4.0, 1.0,  4.0, 4.0, minRate as real,  3.0, 3.0, minRate as real])
  {
    out := Process.Process(Plugin(Subtract, minRate), Many([Precip0(), Precip1()]), FirstEnhancementOnly());
    AdjustStaticFixture(minRate);
  }
}
