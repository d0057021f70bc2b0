/**
 * `df.pivot_table(index=['Nombre proveedor', 'Zona'], columns='Tipo Unidad',
 * values='Kilos netos', aggfunc='sum', fill_value=0).reset_index()`:
 * one row per (provider, zone) group, one column per unit type, each cell the
 * sum of the group's kilos of that type, 0 where the group has none. Rows
 * whose provider or zone is NaN belong to no group. Groups and columns come
 * out sorted, as pandas sorts them.
 */
module PivotTable {
  import opened Wrappers
  import opened Strings
  import opened Order
  import opened Rows

  /** One output row before the date is inserted: `kilos[j]` is the column `units[j]`. */
  datatype PivotRow = PivotRow(provider: string, zone: string, kilos: seq<real>)

  function RowKey(p: PivotRow): Key {
    (p.provider, p.zone)
  }

  function TableKeys(table: seq<PivotRow>): (ks: seq<Key>)
    ensures |ks| == |table|
    ensures forall i :: 0 <= i < |table| ==> ks[i] == RowKey(table[i])
  {
    seq(|table|, i requires 0 <= i < |table| => RowKey(table[i]))
  }

  /** The order of a sorted two-level index: by provider, then by zone. */
  predicate KeyLess(a: Key, b: Key) {
    StrLess(a.0, b.0) || (a.0 == b.0 && StrLess(a.1, b.1))
  }

  lemma StrLessIsStrictOrder()
    ensures StrictOrder(StrLess)
  {
    forall a ensures !StrLess(a, a) {
      StrLessIrreflexive(a);
    }
    forall a, b, c | StrLess(a, b) && StrLess(b, c) ensures StrLess(a, c) {
      StrLessTransitive(a, b, c);
    }
    forall a, b | a != b ensures StrLess(a, b) || StrLess(b, a) {
      StrLessConnected(a, b);
    }
  }

  lemma KeyLessIsStrictOrder()
    ensures StrictOrder(KeyLess)
  {
    StrLessIsStrictOrder();
    forall a: Key, b: Key, c: Key | KeyLess(a, b) && KeyLess(b, c) ensures KeyLess(a, c) {
      if StrLess(a.0, b.0) && StrLess(b.0, c.0) {
        StrLessTransitive(a.0, b.0, c.0);
      } else if StrLess(a.1, b.1) && StrLess(b.1, c.1) {
        StrLessTransitive(a.1, b.1, c.1);
      }
    }
    forall a: Key, b: Key | a != b ensures KeyLess(a, b) || KeyLess(b, a) {
      if a.0 != b.0 {
        StrLessConnected(a.0, b.0);
      } else {
        StrLessConnected(a.1, b.1);
      }
    }
  }

  /** Whether a row adds its kilos to the cell of group `k` and column `u`. */
  predicate InCell(r: Row, k: Key, u: string) {
    KeyOf(r) == Some(k) && r.unit == u
  }

  /** The `aggfunc='sum'` value of a cell. */
  function SumKilos(rows: seq<Row>, k: Key, u: string): real {
    if rows == [] then 0.0
    else
      var last := rows[|rows| - 1];
      SumKilos(rows[..|rows| - 1], k, u) + (if InCell(last, k, u) then last.kilos else 0.0)
  }

  /** The groups: (provider, zone) pairs of the rows where neither is NaN. */
  function Keys(rows: seq<Row>): set<Key> {
    if rows == [] then {}
    else
      var last := rows[|rows| - 1];
      Keys(rows[..|rows| - 1]) + (if KeyOf(last).Some? then {KeyOf(last).value} else {})
  }

  /** The columns: unit types that occur in rows that belong to a group. */
  function Units(rows: seq<Row>): set<string> {
    if rows == [] then {}
    else
      var last := rows[|rows| - 1];
      Units(rows[..|rows| - 1]) + (if KeyOf(last).Some? then {last.unit} else {})
  }

  /** Every row has a cell for every column, and each cell holds its sum. */
  ghost predicate Aligned(rows: seq<Row>, units: seq<string>, table: seq<PivotRow>) {
    forall i :: 0 <= i < |table| ==>
      && |table[i].kilos| == |units|
      && forall j :: 0 <= j < |units| ==> table[i].kilos[j] == SumKilos(rows, RowKey(table[i]), units[j])
  }

  /** What `pivot_table(...).reset_index()` returns for `rows`. */
  ghost predicate IsPivot(rows: seq<Row>, units: seq<string>, table: seq<PivotRow>) {
    && Sorted(units, StrLess)
    && (forall u :: u in units <==> u in Units(rows))
    && Sorted(TableKeys(table), KeyLess)
    && (forall k :: k in TableKeys(table) <==> k in Keys(rows))
    && Aligned(rows, units, table)
  }

  function Get(acc: map<(Key, string), real>, k: Key, u: string): real {
    if (k, u) in acc then acc[(k, u)] else 0.0
  }

  lemma SumKilosSnoc(rows: seq<Row>, r: Row, k: Key, u: string)
    ensures SumKilos(rows + [r], k, u) == SumKilos(rows, k, u) + (if InCell(r, k, u) then r.kilos else 0.0)
  {
    assert (rows + [r])[..|rows|] == rows;
  }

  /** Groups the rows, sums kilos per (group, unit type) and fills missing cells with 0. */
  method Pivot(rows: seq<Row>) returns (units: seq<string>, table: seq<PivotRow>)
    ensures IsPivot(rows, units, table)
  {
    StrLessIsStrictOrder();
    KeyLessIsStrictOrder();
    var ks: seq<Key> := [];
    var us: seq<string> := [];
    var acc: map<(Key, string), real> := map[];
    for i := 0 to |rows|
      invariant Sorted(ks, KeyLess)
      invariant forall k :: k in ks <==> k in Keys(rows[..i])
      invariant Sorted(us, StrLess)
      invariant forall u :: u in us <==> u in Units(rows[..i])
      invariant forall k, u :: Get(acc, k, u) == SumKilos(rows[..i], k, u)
    {
      var row := rows[i];
      assert rows[..i + 1][..i] == rows[..i];
      assert rows[..i + 1][i] == row;
      match KeyOf(row)
      case None =>
      case Some(k) =>
        if k !in ks {
          ks := InsertSorted(ks, k, KeyLess);
        }
        if row.unit !in us {
          us := InsertSorted(us, row.unit, StrLess);
        }
        acc := acc[(k, row.unit) := Get(acc, k, row.unit) + row.kilos];
    }
    assert rows[..|rows|] == rows;
    units := us;
    table := seq(|ks|, i requires 0 <= i < |ks| =>
      PivotRow(ks[i].0, ks[i].1, seq(|us|, j requires 0 <= j < |us| => Get(acc, ks[i], us[j]))));
    assert TableKeys(table) == ks;
  }

  /** The pivot of a row sequence is unique: repeating it gives the same table. */
  lemma PivotUnique(rows: seq<Row>, units1: seq<string>, table1: seq<PivotRow>, units2: seq<string>, table2: seq<PivotRow>)
    requires IsPivot(rows, units1, table1) && IsPivot(rows, units2, table2)
    ensures units1 == units2 && table1 == table2
  {
    StrLessIsStrictOrder();
    KeyLessIsStrictOrder();
    SortedUnique(units1, units2, StrLess);
    SortedUnique(TableKeys(table1), TableKeys(table2), KeyLess);
    assert |table1| == |table2|;
    forall i | 0 <= i < |table1| ensures table1[i] == table2[i] {
      assert RowKey(table1[i]) == RowKey(table2[i]);
      assert table1[i].kilos == table2[i].kilos;
    }
  }

  /** A cell no row contributes to is 0. */
  lemma {:induction false} AbsentCellIsZero(rows: seq<Row>, k: Key, u: string)
    requires forall i :: 0 <= i < |rows| ==> !InCell(rows[i], k, u)
    ensures SumKilos(rows, k, u) == 0.0
  {
    if rows != [] {
      AbsentCellIsZero(rows[..|rows| - 1], k, u);
    }
  }

  /** When every row passed the filter, every column is an allowed unit type. */
  lemma {:induction false} UnitsAllowed(rows: seq<Row>)
    requires forall i :: 0 <= i < |rows| ==> Allowed(rows[i].unit)
    ensures forall u :: u in Units(rows) ==> Allowed(u)
  {
    if rows != [] {
      UnitsAllowed(rows[..|rows| - 1]);
    }
  }

  /**
   * Two sales and a claim of one provider in one zone: the sales add up in
   * the "Venta" column, the claim fills "Reclamo".
   */
  lemma PivotExample()
    ensures IsPivot(
      [Row(Some("Acme"), Some("North"), "Venta", 100.0),
       Row(Some("Acme"), Some("North"), "Reclamo", 10.0),
       Row(Some("Acme"), Some("North"), "Venta", 5.0)],
      ["Reclamo", "Venta"],
      [PivotRow("Acme", "North", [10.0, 105.0])])
  {
    var a := Row(Some("Acme"), Some("North"), "Venta", 100.0);
    var b := Row(Some("Acme"), Some("North"), "Reclamo", 10.0);
    var c := Row(Some("Acme"), Some("North"), "Venta", 5.0);
    var k := ("Acme", "North");
    assert "Venta" != "Reclamo" by { assert "Venta"[0] != "Reclamo"[0]; }
    assert [a, b, c][..2] == [a, b] && [a, b][..1] == [a] && [a][..0] == [];
    assert Keys([a]) == {k};
    assert Keys([a, b]) == {k};
    assert Keys([a, b, c]) == {k};
    assert Units([a]) == {"Venta"};
    assert Units([a, b]) == {"Reclamo", "Venta"};
    assert Units([a, b, c]) == {"Reclamo", "Venta"};
    assert InCell(a, k, "Venta") && !InCell(a, k, "Reclamo");
    assert InCell(b, k, "Reclamo") && !InCell(b, k, "Venta");
    assert InCell(c, k, "Venta") && !InCell(c, k, "Reclamo");
    assert [a] == [] + [a] && [a, b] == [a] + [b] && [a, b, c] == [a, b] + [c];
    SumKilosSnoc([], a, k, "Reclamo");
    SumKilosSnoc([], a, k, "Venta");
    SumKilosSnoc([a], b, k, "Reclamo");
    SumKilosSnoc([a], b, k, "Venta");
    SumKilosSnoc([a, b], c, k, "Reclamo");
    SumKilosSnoc([a, b], c, k, "Venta");
    assert StrLess("Reclamo", "Venta");
    assert TableKeys([PivotRow("Acme", "North", [10.0, 105.0])]) == [k];
  }
}
