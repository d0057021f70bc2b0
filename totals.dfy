/**
 * Conservation of the pivot: the cells of the table add up to the kilos of
 * the rows that belong to a group, so `aggfunc='sum'` neither loses nor
 * double-counts a row, and rows whose provider or zone is NaN add nothing.
 */
module PivotTotals {
  import opened Wrappers
  import opened Strings
  import opened Order
  import opened Rows
  import opened PivotTable

  function Total(xs: seq<real>): real {
    if xs == [] then 0.0 else Total(xs[..|xs| - 1]) + xs[|xs| - 1]
  }

  /** The sum of every cell of the table. */
  function TableTotal(table: seq<PivotRow>): real {
    if table == [] then 0.0 else TableTotal(table[..|table| - 1]) + Total(table[|table| - 1].kilos)
  }

  /** The kilos of the rows whose provider and zone are both present. */
  function KeyedTotal(rows: seq<Row>): real {
    if rows == [] then 0.0
    else
      var last := rows[|rows| - 1];
      KeyedTotal(rows[..|rows| - 1]) + (if KeyOf(last).Some? then last.kilos else 0.0)
  }

  predicate Distinct<T(==)>(s: seq<T>) {
    forall i, j :: 0 <= i < j < |s| ==> s[i] != s[j]
  }

  /** The cells of group `k` over the columns `us`. */
  function LineSum(rows: seq<Row>, k: Key, us: seq<string>): real {
    if us == [] then 0.0 else LineSum(rows, k, us[..|us| - 1]) + SumKilos(rows, k, us[|us| - 1])
  }

  /** The cells of the groups `ks` over the columns `us`. */
  function GridSum(rows: seq<Row>, ks: seq<Key>, us: seq<string>): real {
    if ks == [] then 0.0 else GridSum(rows, ks[..|ks| - 1], us) + LineSum(rows, ks[|ks| - 1], us)
  }

  /** What one row adds to the cells of the groups `ks` over the columns `us`. */
  function Hit(r: Row, ks: seq<Key>, us: seq<string>): real {
    if KeyOf(r).Some? && KeyOf(r).value in ks && r.unit in us then r.kilos else 0.0
  }

  function SumWhere(rows: seq<Row>, ks: seq<Key>, us: seq<string>): real {
    if rows == [] then 0.0
    else SumWhere(rows[..|rows| - 1], ks, us) + Hit(rows[|rows| - 1], ks, us)
  }

  lemma {:induction false} LineStep(rows: seq<Row>, r: Row, k: Key, us: seq<string>)
    requires Distinct(us)
    ensures LineSum(rows + [r], k, us) == LineSum(rows, k, us) + (if KeyOf(r) == Some(k) && r.unit in us then r.kilos else 0.0)
  {
    if us != [] {
      var init, u := us[..|us| - 1], us[|us| - 1];
      LineStep(rows, r, k, init);
      SumKilosSnoc(rows, r, k, u);
      assert us == init + [u];
      assert u !in init;
    }
  }

  lemma {:induction false} GridStep(rows: seq<Row>, r: Row, ks: seq<Key>, us: seq<string>)
    requires Distinct(ks) && Distinct(us)
    ensures GridSum(rows + [r], ks, us) == GridSum(rows, ks, us) + Hit(r, ks, us)
  {
    if ks != [] {
      var init, k := ks[..|ks| - 1], ks[|ks| - 1];
      GridStep(rows, r, init, us);
      LineStep(rows, r, k, us);
      assert ks == init + [k];
      assert k !in init;
    }
  }

  lemma {:induction false} GridIsWhere(rows: seq<Row>, ks: seq<Key>, us: seq<string>)
    requires Distinct(ks) && Distinct(us)
    ensures GridSum(rows, ks, us) == SumWhere(rows, ks, us)
  {
    if rows == [] {
      GridOfNoRows(ks, us);
    } else {
      var init, r := rows[..|rows| - 1], rows[|rows| - 1];
      GridIsWhere(init, ks, us);
      GridStep(init, r, ks, us);
      assert init + [r] == rows;
    }
  }

  lemma {:induction false} GridOfNoRows(ks: seq<Key>, us: seq<string>)
    ensures GridSum([], ks, us) == 0.0
  {
    if ks != [] {
      GridOfNoRows(ks[..|ks| - 1], us);
      LineOfNoRows(ks[|ks| - 1], us);
    }
  }

  lemma {:induction false} LineOfNoRows(k: Key, us: seq<string>)
    ensures LineSum([], k, us) == 0.0
  {
    if us != [] {
      LineOfNoRows(k, us[..|us| - 1]);
    }
  }

  /** Once the groups and columns cover every row, the selected kilos are all the grouped kilos. */
  lemma {:induction false} WhereIsKeyedTotal(rows: seq<Row>, ks: seq<Key>, us: seq<string>)
    requires forall k :: k in Keys(rows) ==> k in ks
    requires forall u :: u in Units(rows) ==> u in us
    ensures SumWhere(rows, ks, us) == KeyedTotal(rows)
  {
    if rows != [] {
      WhereIsKeyedTotal(rows[..|rows| - 1], ks, us);
    }
  }

  lemma {:induction false} LineIsTotal(rows: seq<Row>, k: Key, us: seq<string>, kilos: seq<real>)
    requires |kilos| == |us|
    requires forall j :: 0 <= j < |us| ==> kilos[j] == SumKilos(rows, k, us[j])
    ensures Total(kilos) == LineSum(rows, k, us)
  {
    if us != [] {
      LineIsTotal(rows, k, us[..|us| - 1], kilos[..|kilos| - 1]);
    }
  }

  lemma {:induction false} TableIsGrid(rows: seq<Row>, units: seq<string>, table: seq<PivotRow>)
    requires Aligned(rows, units, table)
    ensures TableTotal(table) == GridSum(rows, TableKeys(table), units)
  {
    if table != [] {
      var init, last := table[..|table| - 1], table[|table| - 1];
      TableIsGrid(rows, units, init);
      assert TableKeys(table)[..|table| - 1] == TableKeys(init);
      LineIsTotal(rows, RowKey(last), units, last.kilos);
    }
  }

  /** Conservation: the pivot's cells add up to the kilos of the grouped rows. */
  lemma Conservation(rows: seq<Row>, units: seq<string>, table: seq<PivotRow>)
    requires IsPivot(rows, units, table)
    ensures TableTotal(table) == KeyedTotal(rows)
  {
    StrLessIsStrictOrder();
    KeyLessIsStrictOrder();
    SortedDistinct(units, StrLess);
    SortedDistinct(TableKeys(table), KeyLess);
    TableIsGrid(rows, units, table);
    GridIsWhere(rows, TableKeys(table), units);
    WhereIsKeyedTotal(rows, TableKeys(table), units);
  }
}
