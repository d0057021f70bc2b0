# Procesar_excel: the transformation of `transformacion_datos.py`, modelled in Dafny

`transformacion_datos.py` reads one workbook. It takes a report date from cell
J3 of the sheet "RESULTADOS FB" and a data block (columns A:D, headers on row 4)
from the sheet "RECLAM. FB". Then `main()` reworks the block step by step:

- it trims the column headers;
- it forward-fills "Nombre proveedor" and "Zona", then strips them;
- it turns "Tipo Unidad" into text and strips it;
- it coerces "Kilos netos" to a number, with 0 for anything unreadable;
- it keeps the rows whose unit type is "Reclamo" or "Venta";
- it pivots the kept rows: one row per (provider, zone), one column per unit
  type, each cell the sum of the kilos, 0 where there are none;
- it puts the date in front of every pivoted row as the column `fecha`.

The Dafny project models that transformation. Workbook I/O is outside it: the
outcome of reading J3 and the data block are parameters of
`Transformacion.Transform`, and the report is its result.

Modules, leaf first:

- `Wrappers` (wrappers.dfy): `Option` (NaN is `None`) and `Result`.
- `Strings` (strings.dfy): Python's `str.strip()` and Python's `<` on strings.
- `Order` (order.dfy): strict orders, strictly sorted sequences, and sorted
  insertion. pandas sorts the pivot's index and its columns.
- `Numerals` (numerals.dfy): the decimal text `pd.to_numeric` reads, and the
  text `astype(str)` gives a number.
- `Cells` (cells.dfy): data-block cells and the column operations on them.
  Forward-fill is a loop with a carried value, proved against `Above`, the
  nearest non-blank cell at or above a row.
- `Rows` (rows.dfy): the cleaned row and the allow-list filter.
- `PivotTable` (pivot.dfy): `pivot_table` as a loop that accumulates sums in a
  map keyed by ((provider, zone), unit type). Its result is specified by
  `IsPivot`.
- `PivotTotals` (totals.dfy): conservation of kilos through the pivot.
- `Fecha` (fecha.dfy): the report date.
- `Transformacion` (transform.dfy): `main()`'s transformation end to end.

The code reads one file and makes no product tag. It keeps a J3 value that
is not a datetime as it is, text included; it never parses a date from text.
It returns groups sorted by (provider, zone), and it creates columns only for
the unit types that occur in grouped rows, not one for every allowed type.
A row whose provider or zone is still blank after forward-fill is dropped by
the pivot (pandas drops NaN index groups); no other row is dropped for that
reason.

## Model

| member | source | states |
|---|---|---|
| `Strings.LeadingSpace` | transformacion_datos.py:46-49 | the count of leading characters that `strip()` removes: all of them are whitespace and the next one is not |
| `Strings.TrailingSpace` | transformacion_datos.py:46-49 | the count of trailing characters that `strip()` removes: all of them are whitespace and the one before is not |
| `Strings.Trim` | transformacion_datos.py:46-49 | `str.strip()`: the result is a contiguous slice of the input, only whitespace is cut from either end, and neither end of the result is whitespace |
| `Strings.TrimOfTrimmed` | transformacion_datos.py:46-49 | a string with no whitespace at either end is left unchanged |
| `Strings.TrimIdempotent` | transformacion_datos.py:46-49 | stripping a stripped string changes nothing |
| `Strings.StrLessTransitive` | transformacion_datos.py:56-62 | Python's string order, used to sort the pivot, is transitive |
| `Strings.StrLessConnected` | transformacion_datos.py:56-62 | any two different strings are ordered one way or the other |
| `PivotTable.KeyLessIsStrictOrder` | transformacion_datos.py:56-62 | the (provider, zone) order is a strict total order |
| `Order.InsertSorted` | transformacion_datos.py:56-62 | inserting a new group or unit type keeps the sequence strictly sorted and adds exactly that element |
| `Order.SortedUnique` | transformacion_datos.py:56-62 | two strictly sorted sequences with the same elements are equal |
| `Numerals.NatTextRoundTrip` | transformacion_datos.py:49-50 | the digits written for a whole number read back as that number |
| `Numerals.WholeNumberRoundTrip` | transformacion_datos.py:49-50 | the `astype(str)` text of a whole number parses back to that number |
| `Cells.ShowCell` | transformacion_datos.py:49 | `astype(str)`: text is unchanged, NaN becomes "nan", a number's text starts with a digit or '-' and ends with a digit |
| `Cells.StripCell` | transformacion_datos.py:47-48 | `.str.strip()` gives the stripped text for a text cell and NaN for any other cell |
| `Strings.TrimAscii` | transformacion_datos.py:50 | the text the number parser reads: a slice of the input with only ASCII whitespace cut from either end, and neither end ASCII whitespace |
| `Cells.Coerce` | transformacion_datos.py:50 | a number is kept, a text that parses as a decimal once ASCII whitespace is cut from its ends gives its value, a blank or unparsable cell gives 0 |
| `Cells.CoerceNonBreakingSpace` | transformacion_datos.py:50 | a number written after a non-breaking space is not read, so the cell becomes 0 |
| `Cells.CoerceWholeNumberText` | transformacion_datos.py:50 | a whole number written as text is coerced back to that number |
| `Cells.ForwardFill` | transformacion_datos.py:47-48 | the loop keeps the column's length and yields, at each row, the nearest non-blank cell at or above it |
| `Cells.AboveIsNearest` | transformacion_datos.py:47-48 | a blank cell takes the value of the nearest non-blank cell above it |
| `Cells.AboveLeadingBlank` | transformacion_datos.py:47-48 | blanks before the first non-blank cell stay blank |
| `Cells.AboveFromColumn` | transformacion_datos.py:47-48 | a non-blank cell is unchanged, and every filled value is a cell of the column at or above that row |
| `Cells.ForwardFillExample` | transformacion_datos.py:47-48 | `[A, blank, blank, B, blank]` fills to `[A, A, A, B, B]` |
| `Rows.KeyOf` | transformacion_datos.py:56-57 | a row has a group exactly when both provider and zone are present, and the group is that pair |
| `Rows.OnlyTextUnitsAllowed` | transformacion_datos.py:49-53 | a unit-type cell passes the filter exactly when it is text whose stripped form is "Reclamo" or "Venta"; "nan" and number texts never pass |
| `Rows.CleanRow` | transformacion_datos.py:47-50 | provider and zone are stripped, kilos are coerced, and the unit type is allowed exactly when the stripped text is |
| `Rows.CleanRows` | transformacion_datos.py:46-50 | the clean-up keeps every row, and row i uses the forward-filled provider and zone of row i |
| `Rows.KeepAllowed` | transformacion_datos.py:53 | every kept row has the unit type "Reclamo" or "Venta" |
| `Rows.KeepIsSubsequence` | transformacion_datos.py:53 | the kept rows are an order-preserving subsequence of the input |
| `Rows.KeepCounts` | transformacion_datos.py:53 | each allowed row is kept as often as it occurs, and no other row is kept |
| `Rows.KeepIdempotent` | transformacion_datos.py:53 | filtering twice gives the same rows as filtering once |
| `Rows.KeepAllRows` | transformacion_datos.py:53 | rows that are all allowed come through the filter unchanged |
| `PivotTable.Pivot` | transformacion_datos.py:56-62 | the columns are exactly the unit types of the grouped rows, sorted; there is exactly one row per (provider, zone) pair with both present, sorted; every row has a cell for every column, equal to the sum of its kilos |
| `PivotTable.PivotUnique` | transformacion_datos.py:56-62 | the pivot of a row sequence is unique, so repeating it gives the same table |
| `PivotTable.AbsentCellIsZero` | transformacion_datos.py:56-61 | a (group, unit type) cell with no rows is 0 (`fill_value=0`) |
| `PivotTable.UnitsAllowed` | transformacion_datos.py:53-58 | after the filter, every pivot column is "Reclamo" or "Venta" |
| `PivotTable.PivotExample` | transformacion_datos.py:56-62 | Acme/North with sales of 100 and 5 and a claim of 10 pivots to one row: Reclamo 10, Venta 105 |
| `PivotTotals.GridIsWhere` | transformacion_datos.py:56-61 | summing the cells of distinct groups and columns counts each row's kilos once, if its group and type are among them |
| `PivotTotals.Conservation` | transformacion_datos.py:56-62 | the sum of all pivot cells equals the kilos of the rows whose provider and zone are both present |
| `Fecha.NormalizeFecha` | transformacion_datos.py:28-40 | a missing file ends the run; another read error gives NaN; a datetime is cut to its date; any other value is kept as it is |
| `Fecha.NormalizeFechaIdempotent` | transformacion_datos.py:31-33 | the date never keeps a time of day, and normalizing it again changes nothing |
| `Transformacion.TrimHeaders` | transformacion_datos.py:46 | each header is replaced by its stripped form |
| `Transformacion.FindColumn` | transformacion_datos.py:47-50 | the first column with the given name, or the end when no column has that name |
| `Transformacion.FirstMissing` | transformacion_datos.py:47-50 | the first absent column of the four, in the order they are read, or none when all four are present |
| `Transformacion.Stamp` | transformacion_datos.py:66 | every row gets the same `fecha` in front, and the rest of each row is unchanged |
| `Transformacion.Columns` | transformacion_datos.py:62-66 | the output headers are `fecha`, "Nombre proveedor", "Zona", then the unit types |
| `Transformacion.CleanColumns` | transformacion_datos.py:47-50 | forward-filling, stripping, stringifying and coercing the four columns gives the cleaned rows |
| `Transformacion.Clean` | transformacion_datos.py:46-50 | the clean-up of the block's four named columns gives its cleaned rows |
| `Transformacion.Transform` | transformacion_datos.py:28-66 | a missing file gives SourceNotFound; otherwise an absent column gives MissingColumn for the first one read; otherwise the result is the pivot of the filtered, cleaned rows with the normalized date in every row |
| `Transformacion.ReportFacts` | transformacion_datos.py:53-62 | a report has only allowed unit-type columns, and its cells add up to the kilos of the filtered rows that have a provider and a zone |

## Left out

- Workbook and file I/O: `load_workbook`, `pd.read_excel`, `to_excel`, `mkdir` and the path constants (transformacion_datos.py:9-19, 25, 29-30, 43, 69-74). The J3 read outcome and the data block are parameters. An error raised by `pd.read_excel` itself, such as a missing sheet, is not modelled.
- Process exit codes and console output (`exit(1)`, `print`). A missing source file is the `SourceNotFound` error instead of an exit.
- `extraer_rango.py`: it reads a fixed range and writes it back, with no decisions to model.
- Floating point: kilos and their sums are exact reals, and no integer-versus-float column type is modelled.
- `df_pivot.columns.name = None` and `rename_axis(columns=None)` (transformacion_datos.py:64-65): they only clear axis labels and change no data.
- Data-block cells holding dates, times or booleans: a cell is NaN, text or a number.
- Non-string column headers, and duplicate headers after trimming: the model takes the first matching column, where pandas would select several.
- A provider or zone column with no string at all: there `.str` raises an error in pandas. The model gives NaN for every cell of such a column.
- Cells.Coerce: exponent forms ("1e3"), "inf" and "infinity" count as unparsable and give 0, where `pd.to_numeric` reads them as numbers.
- Cells.ShowCell: a number is written with at most 17 fractional digits and never in exponent form. A whole number from an all-integer column would print without ".0" in pandas. Neither difference affects the filter: `Rows.OnlyTextUnitsAllowed` shows that no number text passes.
- An empty block after filtering gives an empty report; the exact frame pandas builds in that case is not modelled.
