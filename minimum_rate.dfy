/** The minimum-rate floor applied to a combined field: a combined value
    below the minimum rate is raised to it, but only where the input
    precipitation is not itself below the minimum rate. NaN and masked
    cells are never touched. */
module MinimumRate {
  import opened Fields
  import opened Config
  import opened Combination

  /** One cell of the floored field: `c` is the combined cell in unit `cu`,
      `p` the input precipitation cell in unit `pu`. */
  function FloorCell(minRate: MinRate, pu: Unit, p: Cell, cu: Unit, c: Cell): Cell {
    if c.Val? && p.Val? && !(p.v < Threshold(minRate, pu)) && c.v < Threshold(minRate, cu)
    then Val(Threshold(minRate, cu))
    else c
  }

  /** The cells of a combined grid `cells` (in unit `u`) after flooring. */
  function FlooredCells(minRate: MinRate, precip: Field, cells: seq<Cell>, u: Unit): (r: seq<Cell>)
    requires |precip.cells| == |cells|
    ensures |r| == |cells|
  {
    seq(|cells|, i requires 0 <= i < |cells| => FloorCell(minRate, precip.unit, precip.cells[i], u, cells[i]))
  }

  /** The floored field: the combined field's time, unit and metadata with
      its cells floored. */
  function MinimumRateFloor(minRate: MinRate, precip: Field, combined: Field): (r: Field)
    requires |precip.cells| == |combined.cells|
    ensures r.time == combined.time && r.timeIsDim == combined.timeIsDim
    ensures r.unit == combined.unit && r.meta == combined.meta
    ensures |r.cells| == |combined.cells|
  {
    combined.(cells := FlooredCells(minRate, precip, combined.cells, combined.unit))
  }

  /** Writes the minimum rate into those cells of `data` (a grid in unit
      `u`) that lie below it where the input precipitation does not. */
  method FloorInPlace(minRate: MinRate, precip: Field, data: array<Cell>, u: Unit)
    requires data.Length == |precip.cells|
    modifies data
    ensures data[..] == FlooredCells(minRate, precip, old(data[..]), u)
  {
    var threshold := Threshold(minRate, u);
    var precipThreshold := Threshold(minRate, precip.unit);
    for i := 0 to data.Length
      invariant forall j :: 0 <= j < i ==> data[j] == FloorCell(minRate, precip.unit, precip.cells[j], u, old(data[j]))
      invariant forall j :: i <= j < data.Length ==> data[j] == old(data[j])
    {
      var c, p := data[i], precip.cells[i];
      if c.Val? && p.Val? && p.v >= precipThreshold && c.v < threshold {
        data[i] := Val(threshold);
      }
    }
  }

  /** Applies the minimum rate to a copy of the combined field's data and
      returns the floored field; the arguments are left as they were. */
  method ApplyMinimumPrecipRate(minRate: MinRate, precip: Field, combined: Field) returns (r: Field)
    requires |precip.cells| == |combined.cells|
    ensures r == MinimumRateFloor(minRate, precip, combined)
  {
    var data := new Cell[|combined.cells|](i requires 0 <= i < |combined.cells| => combined.cells[i]);
    assert data[..] == combined.cells;
    FloorInPlace(minRate, precip, data, combined.unit);
    r := combined.(cells := data[..]);
  }

  /** What cell `i` of a floored field `r` must be, stated in mm/hr. */
  ghost predicate FlooredAt(minRate: MinRate, precip: Field, combined: Field, r: Field, i: nat)
    requires i < |precip.cells| && i < |combined.cells| && i < |r.cells|
  {
    var c, p := combined.cells[i], precip.cells[i];
    if c.Val? && p.Val? && Mmh(p.v, precip.unit) >= minRate && Mmh(c.v, combined.unit) < minRate
    then r.cells[i].Val? && Mmh(r.cells[i].v, r.unit) == minRate
    else r.cells[i] == c
  }

  /** The floor raises to the minimum rate exactly the numeric cells that
      lie below it in mm/hr where the input precipitation does not; every
      other cell, NaN and masked cells included, is left as it was. */
  lemma {:induction false} MinimumRateFloorMeaning(minRate: MinRate, precip: Field, combined: Field)
    requires |precip.cells| == |combined.cells|
    ensures forall i :: 0 <= i < |precip.cells| ==>
              FlooredAt(minRate, precip, combined, MinimumRateFloor(minRate, precip, combined), i)
  {
    var r := MinimumRateFloor(minRate, precip, combined);
    forall i | 0 <= i < |precip.cells|
      ensures FlooredAt(minRate, precip, combined, r, i)
    {
      var c, p := combined.cells[i], precip.cells[i];
      if c.Val? && p.Val? {
        BelowInUnit(p.v, precip.unit, minRate);
        BelowInUnit(c.v, combined.unit, minRate);
      }
    }
  }

  /** After flooring, every numeric cell where the input precipitation is
      not below the minimum rate is at or above the minimum rate. */
  lemma {:induction false} FloorLowerBound(minRate: MinRate, precip: Field, combined: Field)
    requires |precip.cells| == |combined.cells|
    ensures var r := MinimumRateFloor(minRate, precip, combined);
            forall i :: (0 <= i < |r.cells| && r.cells[i].Val? && precip.cells[i].Val? &&
                         Mmh(precip.cells[i].v, precip.unit) >= minRate) ==>
                          Mmh(r.cells[i].v, r.unit) >= minRate
  {
    MinimumRateFloorMeaning(minRate, precip, combined);
  }

  /** Cells that are not numeric values below the minimum rate in mm/hr,
      and cells where the input precipitation is not a number at or above
      it, come through the floor unchanged. */
  lemma {:induction false} FloorKeepsOthers(minRate: MinRate, precip: Field, combined: Field)
    requires |precip.cells| == |combined.cells|
    ensures var r := MinimumRateFloor(minRate, precip, combined);
            forall i :: 0 <= i < |r.cells| ==>
              (combined.cells[i].Val? && Mmh(combined.cells[i].v, combined.unit) >= minRate ==> r.cells[i] == combined.cells[i]) &&
              (!precip.cells[i].Val? || Mmh(precip.cells[i].v, precip.unit) < minRate ==> r.cells[i] == combined.cells[i])
  {
    MinimumRateFloorMeaning(minRate, precip, combined);
  }

  /** Flooring twice is flooring once. */
  lemma {:induction false} FloorIdempotent(minRate: MinRate, precip: Field, combined: Field)
    requires |precip.cells| == |combined.cells|
    ensures MinimumRateFloor(minRate, precip, MinimumRateFloor(minRate, precip, combined)) ==
            MinimumRateFloor(minRate, precip, combined)
  {
    var once := MinimumRateFloor(minRate, precip, combined);
    var twice := MinimumRateFloor(minRate, precip, once);
    forall i | 0 <= i < |combined.cells|
      ensures twice.cells[i] == once.cells[i]
    {
      assert once.cells[i] == FloorCell(minRate, precip.unit, precip.cells[i], once.unit, combined.cells[i]);
    }
    assert twice.cells == once.cells;
  }

  /** The floor gives the same result in mm/hr whatever unit the combined
      field is in (m/s, mm/hr, ft/s, ...). */
  lemma {:induction false} FloorUnitIrrelevant(minRate: MinRate, precip: Field, combined: Field, u: Unit)
    requires |precip.cells| == |combined.cells|
    ensures CellsInMmh(MinimumRateFloor(minRate, precip, ConvertUnits(combined, u))) ==
            CellsInMmh(MinimumRateFloor(minRate, precip, combined))
  {
    var converted := ConvertUnits(combined, u);
    var r1 := MinimumRateFloor(minRate, precip, converted);
    var r2 := MinimumRateFloor(minRate, precip, combined);
    MinimumRateFloorMeaning(minRate, precip, converted);
    MinimumRateFloorMeaning(minRate, precip, combined);
    var a, b := CellsInMmh(r1), CellsInMmh(r2);
    forall i | 0 <= i < |combined.cells|
      ensures a[i] == b[i]
    {
      assert FlooredAt(minRate, precip, converted, r1, i);
      assert FlooredAt(minRate, precip, combined, r2, i);
      match r2.cells[i]
      case Val(_) =>
        SameMmh(a[i].v, b[i].v, MillimetresPerHour);
      case NaN =>
      case Masked(_) =>
        SameMmh(a[i].underlying, b[i].underlying, MillimetresPerHour);
    }
  }

  /** The unit the input precipitation is in (km/hr, m/s, ...) does not
      affect the floor. */
  lemma {:induction false} FloorPrecipUnitIrrelevant(minRate: MinRate, precip: Field, combined: Field, u: Unit)
    requires |precip.cells| == |combined.cells|
    ensures MinimumRateFloor(minRate, ConvertUnits(precip, u), combined) == MinimumRateFloor(minRate, precip, combined)
  {
    var p2 := ConvertUnits(precip, u);
    var r1 := MinimumRateFloor(minRate, p2, combined);
    var r2 := MinimumRateFloor(minRate, precip, combined);
    MinimumRateFloorMeaning(minRate, p2, combined);
    MinimumRateFloorMeaning(minRate, precip, combined);
    forall i | 0 <= i < |combined.cells|
      ensures r1.cells[i] == r2.cells[i]
    {
      assert FlooredAt(minRate, p2, combined, r1, i);
      assert FlooredAt(minRate, precip, combined, r2, i);
      if r1.cells[i].Val? && r2.cells[i].Val? {
        SameMmh(r1.cells[i].v, r2.cells[i].v, combined.unit);
      }
    }
    assert r1.cells == r2.cells;
  }
}
