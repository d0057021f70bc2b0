/**
 * Cells of the data block and the column-wise clean-up applied to them:
 * forward-fill, `.str.strip()`, `astype(str)` and `pd.to_numeric(...,
 * errors='coerce').fillna(0)`.
 */
module Cells {
  import opened Wrappers
  import opened Strings
  import opened Numerals

  /** One cell of the block as pandas reads it: NaN, a string or a number. */
  datatype Cell = Blank | Text(s: string) | Number(x: real)

  /** `astype(str)`: NaN becomes the text "nan", numbers their decimal text. */
  function ShowCell(c: Cell): (r: string)
    ensures c.Text? ==> r == c.s
    ensures c.Blank? ==> r == "nan"
    ensures c.Number? ==> |r| > 0 && (r[0] == '-' || IsDigit(r[0])) && IsDigit(r[|r| - 1])
  {
    match c
    case Blank => "nan"
    case Text(s) => s
    case Number(x) => NumberText(x)
  }

  /** `.str.strip()` on an object column: strings are stripped, anything else is NaN. */
  function StripCell(c: Cell): (r: Option<string>)
    ensures r.Some? <==> c.Text?
    ensures r.Some? ==> r.value == Trim(c.s)
  {
    if c.Text? then Some(Trim(c.s)) else None
  }

  /**
   * `pd.to_numeric(errors='coerce').fillna(0)` on one cell: a number is kept,
   * a text that reads as a decimal once ASCII whitespace is cut from its ends
   * becomes its value, anything else is 0.
   */
  function Coerce(c: Cell): (r: real)
    ensures c.Number? ==> r == c.x
    ensures c.Blank? ==> r == 0.0
    ensures c.Text? && ParseDecimal(TrimAscii(c.s)).Some? ==> r == ParseDecimal(TrimAscii(c.s)).value
    ensures c.Text? && ParseDecimal(TrimAscii(c.s)).None? ==> r == 0.0
  {
    match c
    case Blank => 0.0
    case Number(x) => x
    case Text(s) =>
      match ParseDecimal(TrimAscii(s))
      case Some(v) => v
      case None => 0.0
  }

  /** A whole number stored as text is coerced back to that number. */
  lemma CoerceWholeNumberText(n: int)
    ensures Coerce(Text(NumberText(n as real))) == n as real
  {
    var t := NumberText(n as real);
    TrimAsciiOfTrimmed(t);
    WholeNumberRoundTrip(n);
  }

  /** A number behind a non-breaking space is not read: the cell becomes 0. */
  lemma CoerceNonBreakingSpace(n: nat)
    ensures Coerce(Text("\U{A0}" + NatText(n))) == 0.0
  {
    var t := "\U{A0}" + NatText(n);
    TrimAsciiOfTrimmed(t);
  }

  /** Forward-fill's value at row `i`: the nearest non-blank cell at or above it. */
  function Above(col: seq<Cell>, i: nat): Cell
    requires i < |col|
  {
    if col[i] != Blank then col[i] else if i == 0 then Blank else Above(col, i - 1)
  }

  /** `Series.ffill()`: a top-down scan that carries the last non-blank cell. */
  method ForwardFill(col: seq<Cell>) returns (r: seq<Cell>)
    ensures |r| == |col|
    ensures forall i :: 0 <= i < |col| ==> r[i] == Above(col, i)
  {
    var last := Blank;
    r := [];
    for i := 0 to |col|
      invariant |r| == i
      invariant forall k :: 0 <= k < i ==> r[k] == Above(col, k)
      invariant last == if i == 0 then Blank else Above(col, i - 1)
    {
      if col[i] != Blank {
        last := col[i];
      }
      r := r + [last];
    }
  }

  /** A blank cell takes the value of the nearest non-blank cell above it. */
  lemma {:induction false} AboveIsNearest(col: seq<Cell>, i: nat, j: nat)
    requires j < i < |col|
    requires col[j] != Blank
    requires forall k :: j < k <= i ==> col[k] == Blank
    ensures Above(col, i) == col[j]
  {
    if i - 1 > j {
      AboveIsNearest(col, i - 1, j);
    }
  }

  /** Blanks before the first non-blank cell stay blank. */
  lemma {:induction false} AboveLeadingBlank(col: seq<Cell>, i: nat)
    requires i < |col|
    requires forall k :: 0 <= k <= i ==> col[k] == Blank
    ensures Above(col, i) == Blank
  {
    if i > 0 {
      AboveLeadingBlank(col, i - 1);
    }
  }

  /** A non-blank cell keeps its value, and every filled value comes from the column. */
  lemma {:induction false} AboveFromColumn(col: seq<Cell>, i: nat)
    requires i < |col|
    ensures col[i] != Blank ==> Above(col, i) == col[i]
    ensures Above(col, i) == Blank || exists j :: 0 <= j <= i && col[j] == Above(col, i)
  {
    if col[i] == Blank && i > 0 {
      AboveFromColumn(col, i - 1);
    }
  }

  /** The column `[A, blank, blank, B, blank]` fills to `[A, A, A, B, B]`. */
  lemma ForwardFillExample(a: Cell, b: Cell)
    requires a != Blank && b != Blank
    ensures seq(5, i requires 0 <= i < 5 => Above([a, Blank, Blank, b, Blank], i)) == [a, a, a, b, b]
  {
    var col := [a, Blank, Blank, b, Blank];
    AboveIsNearest(col, 2, 0);
    AboveIsNearest(col, 4, 3);
  }
}
