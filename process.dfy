/** The plugin's entry point: each precipitation field is paired with the
    enhancement grid nearest to it in time, combined with it, and floored
    at the minimum rate; the adjusted fields are returned in input order. */
module Process {
  import opened Fields
  import opened Config
  import opened TimeSelection
  import opened Combination
  import opened MinimumRate

  /** The precipitation argument: a single field or a list of fields. */
  datatype PrecipInput = Single(field: Field) | Many(fields: seq<Field>)

  /** The precipitation argument as a list; a single field becomes a
      one-element list. */
  function AsList(input: PrecipInput): (ps: seq<Field>)
    ensures input.Single? ==> ps == [input.field]
    ensures input.Many? ==> ps == input.fields
  {
    match input
    case Single(f) => [f]
    case Many(fs) => fs
  }

  /** One precipitation field adjusted by the enhancement: select the
      nearest grid, combine, floor. The result has the precipitation
      field's time, unit and metadata. */
  function Adjust(plugin: Plugin, precip: Field, oe: Series): (r: Field)
    requires oe.Valid() && |precip.cells| == oe.GridSize()
    ensures r.time == precip.time && r.unit == precip.unit && r.meta == precip.meta
    ensures |r.cells| == |precip.cells|
  {
    var slice := SelectEnhancementSlice(precip, oe);
    var combined := ApplyEnhancement(plugin.operation, plugin.minPrecipRateMmh, precip, slice);
    MinimumRateFloor(plugin.minPrecipRateMmh, precip, combined)
  }

  /** Adjusts every precipitation field in turn and collects the results:
      one output per input, in the same order, each with its input's
      metadata, time and unit. */
  method Process(plugin: Plugin, input: PrecipInput, oe: Series) returns (out: seq<Field>)
    requires oe.Valid()
    requires forall j :: 0 <= j < |AsList(input)| ==> |AsList(input)[j].cells| == oe.GridSize()
    ensures |out| == |AsList(input)|
    ensures forall j :: 0 <= j < |out| ==> out[j] == Adjust(plugin, AsList(input)[j], oe)
    ensures forall j :: 0 <= j < |out| ==>
              out[j].meta == AsList(input)[j].meta && out[j].time == AsList(input)[j].time &&
              out[j].unit == AsList(input)[j].unit
  {
    var precips := AsList(input);
    out := [];
    var i := 0;
    while i < |precips|
      invariant 0 <= i <= |precips|
      invariant |out| == i
      invariant forall j :: 0 <= j < i ==> out[j] == Adjust(plugin, precips[j], oe)
    {
      var precip := precips[i];
      var slice := SelectEnhancementSlice(precip, oe);
      var combined := ApplyEnhancement(plugin.operation, plugin.minPrecipRateMmh, precip, slice);
      var floored := ApplyMinimumPrecipRate(plugin.minPrecipRateMmh, precip, combined);
      out := out + [floored];
      i := i + 1;
    }
  }

  function Max(a: real, b: real): real {
    if a < b then b else a
  }

  /** What cell `i` of an adjusted field `r` must be, in mm/hr, given the
      enhancement grid `slice` that was paired with the precipitation. */
  ghost predicate AdjustedAt(op: Operation, minRate: MinRate, precip: Field, slice: Field, r: Field, i: nat)
    requires i < |precip.cells| && i < |slice.cells| && i < |r.cells|
  {
    var c := r.cells[i];
    match precip.cells[i]
    case Masked(x) => c == Masked(x)
    case NaN => c == NaN
    case Val(x) =>
      if Mmh(x, precip.unit) < minRate then c == Val(x)
      else
        match slice.cells[i]
        case Val(y) => c.Val? && Mmh(c.v, r.unit) == Max(minRate, Apply(op, Mmh(x, precip.unit), Mmh(y, slice.unit)))
        case NaN => c == NaN
        case Masked(_) => c == Masked(x)
  }

  /** An adjusted cell is the sum or difference in mm/hr, raised to the
      minimum rate, where the input precipitation is not below the minimum
      rate; elsewhere the input passes through; masked input cells keep
      their own value and stay masked, and NaN stays NaN. */
  lemma {:induction false} AdjustMeaning(plugin: Plugin, precip: Field, oe: Series)
    requires oe.Valid() && |precip.cells| == oe.GridSize()
    ensures var slice := SelectEnhancementSlice(precip, oe);
            forall i :: 0 <= i < |precip.cells| ==>
              AdjustedAt(plugin.operation, plugin.minPrecipRateMmh, precip, slice, Adjust(plugin, precip, oe), i)
  {
    var op, minRate := plugin.operation, plugin.minPrecipRateMmh;
    var slice := SelectEnhancementSlice(precip, oe);
    var combined := ApplyEnhancement(op, minRate, precip, slice);
    var r := Adjust(plugin, precip, oe);
    ApplyEnhancementMeaning(op, minRate, precip, slice);
    MinimumRateFloorMeaning(minRate, precip, combined);
    forall i | 0 <= i < |precip.cells|
      ensures AdjustedAt(op, minRate, precip, slice, r, i)
    {
      assert CombinedAt(op, minRate, precip, slice, combined, i);
      assert FlooredAt(minRate, precip, combined, r, i);
    }
  }

  /** Masked precipitation cells come out masked with their own underlying
      value, neither enhanced nor floored. */
  lemma {:induction false} MaskedCellsKept(plugin: Plugin, precip: Field, oe: Series)
    requires oe.Valid() && |precip.cells| == oe.GridSize()
    ensures var r := Adjust(plugin, precip, oe);
            forall i :: 0 <= i < |precip.cells| && precip.cells[i].Masked? ==> r.cells[i] == precip.cells[i]
  {
    var slice := SelectEnhancementSlice(precip, oe);
    AdjustMeaning(plugin, precip, oe);
    forall i | 0 <= i < |precip.cells| && precip.cells[i].Masked?
      ensures Adjust(plugin, precip, oe).cells[i] == precip.cells[i]
    {
      assert AdjustedAt(plugin.operation, plugin.minPrecipRateMmh, precip, slice, Adjust(plugin, precip, oe), i);
    }
  }

  /** An enhancement field with one time adjusts every precipitation field
      with that one grid. */
  lemma StaticEnhancement(plugin: Plugin, precip: Field, oe: Series)
    requires oe.Valid() && |oe.times| == 1 && |precip.cells| == oe.GridSize()
    ensures Adjust(plugin, precip, oe) ==
            MinimumRateFloor(plugin.minPrecipRateMmh, precip,
                             ApplyEnhancement(plugin.operation, plugin.minPrecipRateMmh, precip, SliceAt(oe, 0)))
  {
    SingleTimeServesAll(precip, oe);
  }

  /** The adjustment of one cell computed entirely in mm/hr from the
      precipitation cell `p` and enhancement cell `e`, both in mm/hr: the
      reference that the pipeline, in whatever units, must agree with. */
  function AdjustCellMmh(op: Operation, minRate: MinRate, p: Cell, e: Cell): Cell {
    match p
    case Masked(x) => Masked(x)
    case NaN => NaN
    case Val(x) =>
      if x < minRate then Val(x)
      else
        match e
        case Val(y) => Val(Max(minRate, Apply(op, x, y)))
        case NaN => NaN
        case Masked(_) => Masked(x)
  }

  /** The reference adjustment of whole grids given in mm/hr. */
  function AdjustMmh(op: Operation, minRate: MinRate, ps: seq<Cell>, es: seq<Cell>): (r: seq<Cell>)
    requires |ps| == |es|
    ensures |r| == |ps|
  {
    seq(|ps|, i requires 0 <= i < |ps| => AdjustCellMmh(op, minRate, ps[i], es[i]))
  }

  /** Whatever units the precipitation and the enhancement are given in,
      the adjusted field read in mm/hr is the reference adjustment of the
      two grids read in mm/hr. */
  lemma {:induction false} AdjustInMmh(plugin: Plugin, precip: Field, oe: Series)
    requires oe.Valid() && |precip.cells| == oe.GridSize()
    ensures var slice := SelectEnhancementSlice(precip, oe);
            CellsInMmh(Adjust(plugin, precip, oe)) ==
            AdjustMmh(plugin.operation, plugin.minPrecipRateMmh, CellsInMmh(precip), CellsInMmh(slice))
  {
    var op, minRate := plugin.operation, plugin.minPrecipRateMmh;
    var slice := SelectEnhancementSlice(precip, oe);
    var r := Adjust(plugin, precip, oe);
    AdjustMeaning(plugin, precip, oe);
    var a := CellsInMmh(r);
    var b := AdjustMmh(op, minRate, CellsInMmh(precip), CellsInMmh(slice));
    forall i | 0 <= i < |precip.cells|
      ensures a[i] == b[i]
    {
      assert AdjustedAt(op, minRate, precip, slice, r, i);
      match precip.cells[i]
      case Val(x) =>
        if a[i].Val? {
          SameMmh(a[i].v, b[i].v, MillimetresPerHour);
        } else if a[i].Masked? {
          SameMmh(a[i].underlying, b[i].underlying, MillimetresPerHour);
        }
      case NaN =>
      case Masked(x) =>
        SameMmh(a[i].underlying, b[i].underlying, MillimetresPerHour);
    }
  }
}
