/**
 * The body of `main()`: read the date, clean the data block column by
 * column, keep the allowed unit types, pivot, and put the date in front of
 * every pivoted row. Reading and writing the workbook are outside the model:
 * the J3 read outcome and the data block are parameters, the report is the
 * result.
 */
module Transformacion {
  import opened Wrappers
  import opened Strings
  import opened Order
  import opened Cells
  import opened Rows
  import opened PivotTable
  import opened PivotTotals
  import opened Fecha

  const ProviderColumn := "Nombre proveedor"
  const ZoneColumn := "Zona"
  const UnitColumn := "Tipo Unidad"
  const KilosColumn := "Kilos netos"

  /** The block `pd.read_excel(..., usecols="A:D", header=3)` returns: headers and rows. */
  datatype Block = Block(headers: seq<string>, rows: seq<seq<Cell>>)

  predicate Rectangular(b: Block) {
    forall i :: 0 <= i < |b.rows| ==> |b.rows[i]| == |b.headers|
  }

  /** Why the run stops: the source file is missing, or a column is absent (a `KeyError`). */
  datatype RunError = SourceNotFound | MissingColumn(name: string)

  /** One row of the output sheet: `fecha`, the group, then one cell per unit type. */
  datatype ReportRow = ReportRow(fecha: Fecha, provider: string, zone: string, kilos: seq<real>)

  datatype Report = Report(units: seq<string>, rows: seq<ReportRow>)

  /** `df.columns.str.strip()`. */
  function TrimHeaders(headers: seq<string>): (r: seq<string>)
    ensures |r| == |headers|
    ensures forall i :: 0 <= i < |r| ==> r[i] == Trim(headers[i])
  {
    seq(|headers|, i requires 0 <= i < |headers| => Trim(headers[i]))
  }

  /** The position of the first column called `name`, or `|headers|` when there is none. */
  function FindColumn(headers: seq<string>, name: string): (i: nat)
    ensures i <= |headers|
    ensures i < |headers| ==> headers[i] == name
    ensures forall k :: 0 <= k < i ==> headers[k] != name
    ensures i < |headers| <==> name in headers
  {
    if headers == [] || headers[0] == name then 0 else 1 + FindColumn(headers[1..], name)
  }

  /** The first of the four columns `main()` reads, in the order it reads them, that is absent. */
  function FirstMissing(headers: seq<string>): (r: Option<string>)
    ensures r.None? <==> ProviderColumn in headers && ZoneColumn in headers && UnitColumn in headers && KilosColumn in headers
    ensures r.Some? ==> r.value !in headers
    ensures r.Some? ==> r.value in [ProviderColumn, ZoneColumn, UnitColumn, KilosColumn]
    ensures r == Some(ZoneColumn) ==> ProviderColumn in headers
    ensures r == Some(UnitColumn) ==> ProviderColumn in headers && ZoneColumn in headers
    ensures r == Some(KilosColumn) ==> ProviderColumn in headers && ZoneColumn in headers && UnitColumn in headers
  {
    if ProviderColumn !in headers then Some(ProviderColumn)
    else if ZoneColumn !in headers then Some(ZoneColumn)
    else if UnitColumn !in headers then Some(UnitColumn)
    else if KilosColumn !in headers then Some(KilosColumn)
    else None
  }

  function Column(b: Block, j: nat): (col: seq<Cell>)
    requires Rectangular(b) && j < |b.headers|
    ensures |col| == |b.rows|
    ensures forall i :: 0 <= i < |col| ==> col[i] == b.rows[i][j]
  {
    seq(|b.rows|, i requires 0 <= i < |b.rows| => b.rows[i][j])
  }

  /** The column named `name` (after the header trim); absent columns are empty. */
  function Named(b: Block, name: string): (col: seq<Cell>)
    requires Rectangular(b)
    ensures name in TrimHeaders(b.headers) ==> |col| == |b.rows|
  {
    var j := FindColumn(TrimHeaders(b.headers), name);
    if j < |b.headers| then Column(b, j) else []
  }

  /** The cleaned rows of a block that has all four columns, before the filter. */
  function Cleaned(b: Block): (rows: seq<Row>)
    requires Rectangular(b) && FirstMissing(TrimHeaders(b.headers)).None?
    ensures |rows| == |b.rows|
  {
    CleanRows(Named(b, ProviderColumn), Named(b, ZoneColumn), Named(b, UnitColumn), Named(b, KilosColumn))
  }

  /** `df_pivot.insert(0, "fecha", fecha)`. */
  function Stamp(fecha: Fecha, table: seq<PivotRow>): (r: seq<ReportRow>)
    ensures |r| == |table|
    ensures forall i :: 0 <= i < |r| ==> r[i].fecha == fecha
    ensures Unstamp(r) == table
  {
    var r := seq(|table|, i requires 0 <= i < |table| =>
      ReportRow(fecha, table[i].provider, table[i].zone, table[i].kilos));
    assert Unstamp(r) == table;
    r
  }

  /** The pivot part of report rows, without the `fecha` column. */
  function Unstamp(rows: seq<ReportRow>): seq<PivotRow> {
    seq(|rows|, i requires 0 <= i < |rows| => PivotRow(rows[i].provider, rows[i].zone, rows[i].kilos))
  }

  /** The sheet's column headers: `fecha`, the two index columns, then the unit types. */
  function Columns(report: Report): (cols: seq<string>)
    ensures |cols| == 3 + |report.units|
    ensures cols[0] == "fecha" && cols[1] == ProviderColumn && cols[2] == ZoneColumn
    ensures cols[3..] == report.units
  {
    ["fecha", ProviderColumn, ZoneColumn] + report.units
  }

  /** `report` is the pivot of `rows` with `fecha` put in front of every row. */
  ghost predicate IsReport(report: Report, fecha: Fecha, rows: seq<Row>) {
    && IsPivot(rows, report.units, Unstamp(report.rows))
    && forall i :: 0 <= i < |report.rows| ==> report.rows[i].fecha == fecha
  }

  /**
   * The clean-up of the columns: forward-fill and strip provider and zone,
   * stringify and strip the unit type, coerce the kilos.
   */
  method CleanColumns(p: seq<Cell>, z: seq<Cell>, u: seq<Cell>, k: seq<Cell>) returns (rows: seq<Row>)
    requires |z| == |p| && |u| == |p| && |k| == |p|
    ensures rows == CleanRows(p, z, u, k)
  {
    var provider := ForwardFill(p);
    var zone := ForwardFill(z);
    rows := seq(|p|, i requires 0 <= i < |p| => CleanRow(provider[i], zone[i], u[i], k[i]));
  }

  /** The clean-up applied to the four named columns of the block. */
  method Clean(block: Block) returns (rows: seq<Row>)
    requires Rectangular(block) && FirstMissing(TrimHeaders(block.headers)).None?
    ensures rows == Cleaned(block)
  {
    rows := CleanColumns(Named(block, ProviderColumn), Named(block, ZoneColumn), Named(block, UnitColumn), Named(block, KilosColumn));
  }

  /** The transformation of `main()`, from the J3 read outcome and the data block to the report. */
  method Transform(read: DateRead, block: Block) returns (r: Result<Report, RunError>)
    requires Rectangular(block)
    ensures read.FileNotFound? ==> r == Failure(SourceNotFound)
    ensures !read.FileNotFound? && FirstMissing(TrimHeaders(block.headers)).Some? ==>
      r == Failure(MissingColumn(FirstMissing(TrimHeaders(block.headers)).value))
    ensures !read.FileNotFound? && FirstMissing(TrimHeaders(block.headers)).None? ==>
      r.Success? && IsReport(r.value, NormalizeFecha(read).value, KeepAllowed(Cleaned(block)))
  {
    var fecha := NormalizeFecha(read);
    if fecha.None? {
      return Failure(SourceNotFound);
    }
    var headers := TrimHeaders(block.headers);
    var missing := FirstMissing(headers);
    if missing.Some? {
      return Failure(MissingColumn(missing.value));
    }
    var rows := Clean(block);
    rows := KeepAllowed(rows);
    var units, table := Pivot(rows);
    return Success(Report(units, Stamp(fecha.value, table)));
  }

  /** What a report promises: allowed columns only, and every grouped kilo counted once. */
  lemma ReportFacts(report: Report, fecha: Fecha, rows: seq<Row>)
    requires IsReport(report, fecha, KeepAllowed(rows))
    ensures forall u :: u in report.units ==> Allowed(u)
    ensures TableTotal(Unstamp(report.rows)) == KeyedTotal(KeepAllowed(rows))
  {
    UnitsAllowed(KeepAllowed(rows));
    Conservation(KeepAllowed(rows), report.units, Unstamp(report.rows));
  }
}
