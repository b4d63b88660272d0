/** Gridded fields as the orographic-enhancement plugin sees them: a validity
    time, a physical rate unit, descriptive metadata and a grid of cells.
    The grid is flattened in row-major order; the length-1 realization and
    time dimensions of the cubes carry no data and are not represented. */
module Fields {

  /** One grid cell: a number, a not-a-number marker, or a masked cell that
      still holds an underlying value (masked-array semantics: the value is
      kept but flagged invalid). */
  datatype Cell = Val(v: real) | NaN | Masked(underlying: real)

  /** A strictly positive scale factor. */
  type Factor = r: real | r > 0.0 witness 1.0

  /** A precipitation-rate unit, given by how many mm/hr one of it is.
      Converting between two such units is exact scaling. */
  datatype Unit = Unit(mmhPerUnit: Factor)

  const MillimetresPerHour: Unit := Unit(1.0)
  const MetresPerSecond: Unit := Unit(3600000.0)
  const MetresPerHour: Unit := Unit(1000.0)
  const KilometresPerHour: Unit := Unit(1000000.0)
  /** 0.3048 m per foot, 3600 s per hour, 1000 mm per metre. */
  const FeetPerSecond: Unit := Unit(1097280.0)

  /** The value `x`, given in unit `u`, expressed in mm/hr. */
  function Mmh(x: real, u: Unit): real {
    x * u.mmhPerUnit
  }

  /** Unit conversion of one value. */
  function ConvertValue(x: real, from: Unit, to: Unit): (y: real)
    ensures Mmh(y, to) == Mmh(x, from)
  {
    Mmh(x, from) / to.mmhPerUnit
  }

  /** A quantity given in mm/hr (such as the minimum rate) expressed in `u`. */
  function FromMmh(x: real, u: Unit): (y: real)
    ensures Mmh(y, u) == x
  {
    x / u.mmhPerUnit
  }

  /** Comparing two values after converting them into a common unit is the
      same as comparing them in mm/hr. */
  lemma CompareInUnit(x: real, ux: Unit, y: real, uy: Unit, to: Unit)
    ensures ConvertValue(x, ux, to) < ConvertValue(y, uy, to) <==> Mmh(x, ux) < Mmh(y, uy)
  {
    var a, b := ConvertValue(x, ux, to), ConvertValue(y, uy, to);
    var f := to.mmhPerUnit;
    assert Mmh(a, to) == a * f && Mmh(b, to) == b * f;
    if a < b {
      assert a * f < b * f;
    } else {
      assert b * f <= a * f;
    }
  }

  /** A value in `u` lies below a mm/hr threshold exactly when its mm/hr
      equivalent does. */
  lemma BelowInUnit(x: real, u: Unit, t: real)
    ensures x < FromMmh(t, u) <==> Mmh(x, u) < t
  {
    var f := u.mmhPerUnit;
    var y := FromMmh(t, u);
    assert y * f == t;
    if x < y {
      assert x * f < y * f;
    } else {
      assert y * f <= x * f;
    }
  }

  /** Two values that agree in mm/hr agree in every unit. */
  lemma SameMmh(x: real, y: real, u: Unit)
    requires Mmh(x, u) == Mmh(y, u)
    ensures x == y
  {
    var f := u.mmhPerUnit;
    assert x == x * f / f && y == y * f / f;
  }

  /** Unit conversion of one cell; NaN stays NaN and a masked cell keeps its
      mask while its underlying value is scaled. */
  function ConvertCell(c: Cell, from: Unit, to: Unit): (r: Cell)
    ensures r.Val? <==> c.Val?
    ensures r.NaN? <==> c.NaN?
    ensures r.Masked? <==> c.Masked?
    ensures c.Val? ==> Mmh(r.v, to) == Mmh(c.v, from)
    ensures c.Masked? ==> Mmh(r.underlying, to) == Mmh(c.underlying, from)
  {
    match c
    case Val(x) => Val(ConvertValue(x, from, to))
    case NaN => NaN
    case Masked(x) => Masked(ConvertValue(x, from, to))
  }

  /** Descriptive metadata (name, attributes): opaque to the plugin, only
      ever copied from one field to another. */
  datatype Metadata = Metadata(name: string)

  /** A precipitation or enhancement field at one validity time (hours since
      the epoch). `timeIsDim` says whether the time is a length-1 dimension
      of the data or only a scalar coordinate. */
  datatype Field = Field(time: real, timeIsDim: bool, unit: Unit, meta: Metadata, cells: seq<Cell>)

  /** Unit conversion of a whole field: a new field in unit `to`, equal to
      `f` in every other respect and equal to it cell by cell in mm/hr. */
  function ConvertUnits(f: Field, to: Unit): (g: Field)
    ensures g.unit == to
    ensures g.time == f.time && g.timeIsDim == f.timeIsDim && g.meta == f.meta
    ensures |g.cells| == |f.cells|
    ensures forall i :: 0 <= i < |f.cells| ==> g.cells[i] == ConvertCell(f.cells[i], f.unit, to)
  {
    f.(unit := to, cells := seq(|f.cells|, i requires 0 <= i < |f.cells| => ConvertCell(f.cells[i], f.unit, to)))
  }

  /** The cells of `f` in mm/hr: what the tests compare after
      `convert_units("mm/hr")`. */
  function CellsInMmh(f: Field): seq<Cell> {
    ConvertUnits(f, MillimetresPerHour).cells
  }

  /** Converting there and back gives the original field. */
  lemma {:induction false} ConvertUnitsRoundTrip(f: Field, to: Unit)
    ensures ConvertUnits(ConvertUnits(f, to), f.unit) == f
  {
    var g := ConvertUnits(f, to);
    var h := ConvertUnits(g, f.unit);
    forall i | 0 <= i < |f.cells|
      ensures h.cells[i] == f.cells[i]
    {
      var c := f.cells[i];
      match c
      case Val(x) =>
        SameMmh(h.cells[i].v, x, f.unit);
      case NaN =>
      case Masked(x) =>
        SameMmh(h.cells[i].underlying, x, f.unit);
    }
    assert h.cells == f.cells;
  }

  /** Converting a field into any unit leaves its mm/hr values unchanged. */
  lemma {:induction false} ConvertUnitsKeepsMmh(f: Field, to: Unit)
    ensures CellsInMmh(ConvertUnits(f, to)) == CellsInMmh(f)
  {
    var g := ConvertUnits(f, to);
    var a, b := CellsInMmh(g), CellsInMmh(f);
    forall i | 0 <= i < |f.cells|
      ensures a[i] == b[i]
    {
      match f.cells[i]
      case Val(x) =>
        SameMmh(a[i].v, b[i].v, MillimetresPerHour);
      case NaN =>
      case Masked(x) =>
        SameMmh(a[i].underlying, b[i].underlying, MillimetresPerHour);
    }
  }

  /** Timestamps strictly increasing, as they are after concatenating
      time-ordered fields. */
  predicate Ascending(times: seq<real>) {
    forall a, b :: 0 <= a < b < |times| ==> times[a] < times[b]
  }

  /** An enhancement field with a time dimension: one grid per timestamp,
      all in the same unit and with the same metadata. */
  datatype Series = Series(times: seq<real>, unit: Unit, meta: Metadata, slices: seq<seq<Cell>>) {

    /** At least one timestamp, one grid per timestamp, all grids the same
        size. */
    predicate Valid() {
      && |times| == |slices|
      && 0 < |times|
      && forall k :: 0 <= k < |slices| ==> |slices[k]| == |slices[0]|
    }

    /** Number of cells in each grid. */
    function GridSize(): nat
      requires Valid()
    {
      |slices[0]|
    }
  }
}
