/**
 * Normalized rows of the data block and the unit-type allow-list filter
 * (`df[df['Tipo Unidad'].isin(['Reclamo', 'Venta'])]`).
 */
module Rows {
  import opened Wrappers
  import opened Strings
  import opened Numerals
  import opened Cells

  /** One cleaned row: provider and zone are `None` where pandas holds NaN. */
  datatype Row = Row(provider: Option<string>, zone: Option<string>, unit: string, kilos: real)

  /** A pivot group: (Nombre proveedor, Zona). */
  type Key = (string, string)

  /** The row's pivot group, or `None` when either index value is NaN. */
  function KeyOf(r: Row): (k: Option<Key>)
    ensures k.Some? <==> r.provider.Some? && r.zone.Some?
    ensures k.Some? ==> k.value == (r.provider.value, r.zone.value)
  {
    if r.provider.Some? && r.zone.Some? then Some((r.provider.value, r.zone.value)) else None
  }

  /** The unit types the filter keeps; the comparison is exact and case-sensitive. */
  predicate Allowed(unit: string) {
    unit == "Reclamo" || unit == "Venta"
  }

  /** The unit-type column after `astype(str).str.strip()`. */
  function UnitText(c: Cell): string {
    Trim(ShowCell(c))
  }

  /** Only a text cell whose stripped text is in the allow-list passes the filter. */
  lemma OnlyTextUnitsAllowed(c: Cell)
    ensures Allowed(UnitText(c)) <==> c.Text? && Allowed(Trim(c.s))
  {
    if !c.Text? {
      var t := ShowCell(c);
      assert t[0] != 'R' && t[0] != 'V';
      assert !IsSpace(t[0]) && !IsSpace(t[|t| - 1]);
      TrimOfTrimmed(t);
      NotAllowedByFirst(t);
    }
  }

  lemma NotAllowedByFirst(s: string)
    requires |s| > 0 && s[0] != 'R' && s[0] != 'V'
    ensures !Allowed(s)
  {
    assert "Reclamo"[0] == 'R' && "Venta"[0] == 'V';
  }

  /** One data-block row after the clean-up; provider and zone are already forward-filled. */
  function CleanRow(provider: Cell, zone: Cell, unit: Cell, kilos: Cell): (r: Row)
    ensures r.provider == StripCell(provider) && r.zone == StripCell(zone)
    ensures Allowed(r.unit) <==> unit.Text? && Allowed(Trim(unit.s))
    ensures r.kilos == Coerce(kilos)
  {
    OnlyTextUnitsAllowed(unit);
    Row(StripCell(provider), StripCell(zone), UnitText(unit), Coerce(kilos))
  }

  /** The rows of a block whose four columns are given, provider and zone forward-filled. */
  function CleanRows(provider: seq<Cell>, zone: seq<Cell>, unit: seq<Cell>, kilos: seq<Cell>): (r: seq<Row>)
    requires |zone| == |provider| && |unit| == |provider| && |kilos| == |provider|
    ensures |r| == |provider|
    ensures forall i :: 0 <= i < |r| ==> r[i] == CleanRow(Above(provider, i), Above(zone, i), unit[i], kilos[i])
  {
    seq(|provider|, i requires 0 <= i < |provider| =>
      CleanRow(Above(provider, i), Above(zone, i), unit[i], kilos[i]))
  }

  /** The filter of the source: the rows whose unit type is allowed, in their order. */
  function KeepAllowed(rows: seq<Row>): (r: seq<Row>)
    ensures |r| <= |rows|
    ensures forall i :: 0 <= i < |r| ==> Allowed(r[i].unit)
  {
    if rows == [] then []
    else (if Allowed(rows[0].unit) then [rows[0]] else []) + KeepAllowed(rows[1..])
  }

  /** `xs` is `ys` with some elements removed and the rest in their order. */
  predicate IsSubsequence<T(==)>(xs: seq<T>, ys: seq<T>) {
    if xs == [] then true
    else if ys == [] then false
    else (xs[0] == ys[0] && IsSubsequence(xs[1..], ys[1..])) || IsSubsequence(xs, ys[1..])
  }

  lemma {:induction false} KeepIsSubsequence(rows: seq<Row>)
    ensures IsSubsequence(KeepAllowed(rows), rows)
  {
    if rows != [] {
      KeepIsSubsequence(rows[1..]);
      var k := KeepAllowed(rows);
      if Allowed(rows[0].unit) {
        assert k[0] == rows[0] && k[1..] == KeepAllowed(rows[1..]);
      } else {
        assert k == KeepAllowed(rows[1..]);
        if k != [] {
          assert IsSubsequence(k, rows[1..]);
        }
      }
    }
  }

  /** The filter keeps every allowed row, as often as it occurs, and nothing else. */
  lemma {:induction false} KeepCounts(rows: seq<Row>, x: Row)
    ensures multiset(KeepAllowed(rows))[x] == if Allowed(x.unit) then multiset(rows)[x] else 0
  {
    if rows != [] {
      KeepCounts(rows[1..], x);
      assert rows == [rows[0]] + rows[1..];
    }
  }

  /** Filtering filtered rows changes nothing. */
  lemma {:induction false} KeepIdempotent(rows: seq<Row>)
    ensures KeepAllowed(KeepAllowed(rows)) == KeepAllowed(rows)
  {
    if rows != [] {
      KeepIdempotent(rows[1..]);
      KeepAllRows(KeepAllowed(rows));
    }
  }

  /** Rows that all pass the filter come through it unchanged. */
  lemma {:induction false} KeepAllRows(rows: seq<Row>)
    requires forall i :: 0 <= i < |rows| ==> Allowed(rows[i].unit)
    ensures KeepAllowed(rows) == rows
  {
    if rows != [] {
      KeepAllRows(rows[1..]);
      assert rows == [rows[0]] + rows[1..];
    }
  }
}
