/** Combining a precipitation field with the selected enhancement grid:
    elementwise addition or subtraction in the precipitation field's unit,
    with the enhancement counted as zero wherever the input precipitation
    lies below the minimum rate. */
module Combination {
  import opened Fields
  import opened Config

  /** The minimum rate, given in mm/hr, expressed in unit `u`. */
  function Threshold(minRate: MinRate, u: Unit): (t: real)
    ensures 0.0 < t && Mmh(t, u) == minRate
  {
    FromMmh(minRate, u)
  }

  /** The arithmetic of the operation. */
  function Apply(op: Operation, x: real, y: real): real {
    match op
    case Add => x + y
    case Subtract => x - y
  }

  /** One precipitation cell `p` combined with the enhancement cell `e`,
      both already in unit `u`. A masked precipitation cell stays masked
      with its own value; NaN stays NaN; below the minimum rate the
      enhancement has been set to zero, so the precipitation passes
      through. */
  function CombineCell(op: Operation, minRate: MinRate, u: Unit, p: Cell, e: Cell): Cell {
    match p
    case Masked(x) => Masked(x)
    case NaN => NaN
    case Val(x) =>
      if x < Threshold(minRate, u) then Val(x)
      else
        match e
        case Val(y) => Val(Apply(op, x, y))
        case NaN => NaN
        case Masked(_) => Masked(x)
  }

  /** Gives the enhancement field a length-1 time dimension when the
      precipitation field has one and the enhancement only a scalar time.
      The data are unchanged: it is a change of shape only. */
  function PromoteTime(oe: Field, precip: Field): (r: Field)
    ensures r.time == oe.time && r.unit == oe.unit && r.meta == oe.meta && r.cells == oe.cells
    ensures r.timeIsDim == (oe.timeIsDim || precip.timeIsDim)
  {
    if precip.timeIsDim && !oe.timeIsDim then oe.(timeIsDim := true) else oe
  }

  /** The combined field. Its time, unit and metadata are the precipitation
      field's; the enhancement is converted into the precipitation unit on
      a copy, so the caller's enhancement field is a value that the
      combination cannot alter. */
  function ApplyEnhancement(op: Operation, minRate: MinRate, precip: Field, oe: Field): (r: Field)
    requires |precip.cells| == |oe.cells|
    ensures r.time == precip.time && r.timeIsDim == precip.timeIsDim
    ensures r.unit == precip.unit && r.meta == precip.meta
    ensures |r.cells| == |precip.cells|
  {
    var e := ConvertUnits(PromoteTime(oe, precip), precip.unit);
    precip.(cells := seq(|precip.cells|, i requires 0 <= i < |precip.cells| =>
                           CombineCell(op, minRate, precip.unit, precip.cells[i], e.cells[i])))
  }

  /** What cell `i` of a combined field `r` must be, stated in mm/hr and
      independently of how the combination converts units. */
  ghost predicate CombinedAt(op: Operation, minRate: MinRate, precip: Field, oe: Field, r: Field, i: nat)
    requires i < |precip.cells| && i < |oe.cells| && i < |r.cells|
  {
    var c := r.cells[i];
    match precip.cells[i]
    case Masked(x) => c == Masked(x)
    case NaN => c == NaN
    case Val(x) =>
      if Mmh(x, precip.unit) < minRate then c == Val(x)
      else
        match oe.cells[i]
        case Val(y) => c.Val? && Mmh(c.v, r.unit) == Apply(op, Mmh(x, precip.unit), Mmh(y, oe.unit))
        case NaN => c == NaN
        case Masked(_) => c == Masked(x)
  }

  /** The combination adds or subtracts, in mm/hr, wherever the input
      precipitation is not below the minimum rate; below it the input
      passes through unchanged; masked input cells stay masked with their
      own value and NaN stays NaN. */
  lemma {:induction false} ApplyEnhancementMeaning(op: Operation, minRate: MinRate, precip: Field, oe: Field)
    requires |precip.cells| == |oe.cells|
    ensures forall i :: 0 <= i < |precip.cells| ==>
              CombinedAt(op, minRate, precip, oe, ApplyEnhancement(op, minRate, precip, oe), i)
  {
    var r := ApplyEnhancement(op, minRate, precip, oe);
    var u := precip.unit;
    var e := ConvertUnits(PromoteTime(oe, precip), u);
    forall i | 0 <= i < |precip.cells|
      ensures CombinedAt(op, minRate, precip, oe, r, i)
    {
      assert r.cells[i] == CombineCell(op, minRate, u, precip.cells[i], e.cells[i]);
      match precip.cells[i]
      case Masked(x) =>
      case NaN =>
      case Val(x) =>
        BelowInUnit(x, u, minRate);
        if Mmh(x, u) >= minRate {
          match oe.cells[i]
          case Val(y) =>
            var y' := e.cells[i].v;
            assert Mmh(y', u) == Mmh(y, oe.unit);
            var f := u.mmhPerUnit;
            assert Mmh(Apply(op, x, y'), u) == Apply(op, x * f, y' * f);
          case NaN =>
          case Masked(_) =>
        }
    }
  }

  /** Converting two cells one after the other is the same as converting
      once. */
  lemma ConvertCellTwice(c: Cell, a: Unit, b: Unit, d: Unit)
    ensures ConvertCell(ConvertCell(c, a, b), b, d) == ConvertCell(c, a, d)
  {
    match c
    case Val(x) =>
      SameMmh(ConvertCell(ConvertCell(c, a, b), b, d).v, ConvertCell(c, a, d).v, d);
    case NaN =>
    case Masked(x) =>
      SameMmh(ConvertCell(ConvertCell(c, a, b), b, d).underlying, ConvertCell(c, a, d).underlying, d);
  }

  /** The unit the enhancement is given in (m/s, m/hr, ...) does not affect
      the combined field. */
  lemma {:induction false} EnhancementUnitIrrelevant(op: Operation, minRate: MinRate, precip: Field, oe: Field, u: Unit)
    requires |precip.cells| == |oe.cells|
    ensures ApplyEnhancement(op, minRate, precip, ConvertUnits(oe, u)) == ApplyEnhancement(op, minRate, precip, oe)
  {
    var r1 := ApplyEnhancement(op, minRate, precip, ConvertUnits(oe, u));
    var r2 := ApplyEnhancement(op, minRate, precip, oe);
    forall i | 0 <= i < |precip.cells|
      ensures r1.cells[i] == r2.cells[i]
    {
      ConvertCellTwice(oe.cells[i], oe.unit, u, precip.unit);
    }
    assert r1.cells == r2.cells;
  }

  /** Combining with the precipitation field in another unit (km/hr, m/s,
      ...) gives the same combined values in mm/hr. */
  lemma {:induction false} PrecipUnitIrrelevant(op: Operation, minRate: MinRate, precip: Field, oe: Field, u: Unit)
    requires |precip.cells| == |oe.cells|
    ensures CellsInMmh(ApplyEnhancement(op, minRate, ConvertUnits(precip, u), oe)) ==
            CellsInMmh(ApplyEnhancement(op, minRate, precip, oe))
  {
    var p2 := ConvertUnits(precip, u);
    var r1 := ApplyEnhancement(op, minRate, p2, oe);
    var r2 := ApplyEnhancement(op, minRate, precip, oe);
    ApplyEnhancementMeaning(op, minRate, p2, oe);
    ApplyEnhancementMeaning(op, minRate, precip, oe);
    var a, b := CellsInMmh(r1), CellsInMmh(r2);
    forall i | 0 <= i < |precip.cells|
      ensures a[i] == b[i]
    {
      assert CombinedAt(op, minRate, p2, oe, r1, i);
      assert CombinedAt(op, minRate, precip, oe, r2, i);
      match r2.cells[i]
      case Val(_) =>
        SameMmh(a[i].v, b[i].v, MillimetresPerHour);
      case NaN =>
      case Masked(_) =>
        SameMmh(a[i].underlying, b[i].underlying, MillimetresPerHour);
    }
  }

  /** A scalar-time enhancement grid and the same grid with a length-1
      time dimension give the same combined field. */
  lemma TimeDimensionIrrelevant(op: Operation, minRate: MinRate, precip: Field, oe: Field)
    requires |precip.cells| == |oe.cells|
    ensures ApplyEnhancement(op, minRate, precip, oe.(timeIsDim := true)) == ApplyEnhancement(op, minRate, precip, oe)
  {
  }
}
