/** The pricing table's column schema: one dynamic column per distinct cost
    name of the quote, the accessor that reads a cost out of a product, the
    column's footer total, and the order in which all columns are assembled. */
module PricingTable {
  import opened Wrappers
  import opened QuoteModel

  // ---------------------------------------------------------------------
  // Cost names across the quote
  // ---------------------------------------------------------------------

  /** `x` is the name of some cost of some product. */
  ghost predicate OccursIn(products: seq<Product>, x: string) {
    exists i, j :: 0 <= i < |products| && 0 <= j < |products[i].costs| && products[i].costs[j].name == x
  }

  /** A name occurs in the products when the first product has it or one of
      the others does. */
  lemma OccursInSplit(products: seq<Product>)
    requires |products| > 0
    ensures forall x :: OccursIn(products, x) <==>
              x in CostNames(products[0].costs) || OccursIn(products[1..], x)
  {
    var head, tail := CostNames(products[0].costs), products[1..];
    forall x ensures OccursIn(products, x) <==> x in head || OccursIn(tail, x) {
      if x in head {
        var j :| 0 <= j < |head| && head[j] == x;
        assert products[0].costs[j].name == x;
      } else if OccursIn(tail, x) {
        var i, j :| 0 <= i < |tail| && 0 <= j < |tail[i].costs| && tail[i].costs[j].name == x;
        assert products[i + 1].costs[j].name == x;
      }
      if OccursIn(products, x) {
        var i, j :| 0 <= i < |products| && 0 <= j < |products[i].costs| && products[i].costs[j].name == x;
        if i == 0 {
          assert head[j] == x;
        } else {
          assert tail[i - 1].costs[j].name == x;
        }
      }
    }
  }

  /** Every cost name of every product, product by product (the `flatMap`):
      a name is listed exactly when some product has a cost of that name. */
  function FlatCostNames(products: seq<Product>): (r: seq<string>)
    ensures forall x :: x in r <==> OccursIn(products, x)
  {
    if products == [] then []
    else
      OccursInSplit(products);
      CostNames(products[0].costs) + FlatCostNames(products[1..])
  }

  /** JavaScript's `Array.prototype.indexOf`: the first index holding `x`, or -1. */
  function IndexOf<T(==)>(s: seq<T>, x: T): (r: int)
    ensures -1 <= r < |s|
    ensures r == -1 <==> x !in s
    ensures 0 <= r ==> s[r] == x && x !in s[..r]
  {
    if s == [] then -1
    else if s[0] == x then 0
    else
      var k := IndexOf(s[1..], x);
      if k == -1 then -1
      else
        assert s[..k + 1] == [s[0]] + s[1..][..k];
        k + 1
  }

  /** `s[..n].filter((value, index, self) => self.indexOf(value) === index)`,
      where `self` is the whole of `s`. */
  function FirstSeen<T(==)>(s: seq<T>, n: nat): (r: seq<T>)
    requires n <= |s|
    ensures |r| <= n
  {
    if n == 0 then []
    else FirstSeen(s, n - 1) + (if IndexOf(s, s[n - 1]) == n - 1 then [s[n - 1]] else [])
  }

  /** The first-occurrence de-duplication of the whole sequence: every value
      of `s` once, in the order of first occurrence. */
  function Dedup<T(==,!new)>(s: seq<T>): (r: seq<T>)
    ensures forall x :: x in r <==> x in s
    ensures Distinct(r)
    ensures forall i, j :: 0 <= i < j < |r| ==> IndexOf(s, r[i]) < IndexOf(s, r[j])
  {
    FirstSeenProperties(s, |s|);
    assert s[..|s|] == s;
    FirstSeen(s, |s|)
  }

  /** The filter keeps exactly the values of the scanned prefix, each once,
      in the order of their first occurrence. */
  lemma {:induction false} FirstSeenProperties<T>(s: seq<T>, n: nat)
    requires n <= |s|
    ensures forall x :: x in FirstSeen(s, n) <==> x in s[..n]
    ensures Distinct(FirstSeen(s, n))
    ensures forall i :: 0 <= i < |FirstSeen(s, n)| ==> IndexOf(s, FirstSeen(s, n)[i]) < n
    ensures forall i, j :: 0 <= i < j < |FirstSeen(s, n)| ==>
              IndexOf(s, FirstSeen(s, n)[i]) < IndexOf(s, FirstSeen(s, n)[j])
  {
    if n > 0 {
      FirstSeenProperties(s, n - 1);
      var prev, last := FirstSeen(s, n - 1), s[n - 1];
      assert s[..n] == s[..n - 1] + [last];
      var k := IndexOf(s, last);
      if k == n - 1 {
        assert s[..k] == s[..n - 1];
        assert last !in prev;
        assert FirstSeen(s, n) == prev + [last];
      } else {
        assert s[..n - 1][k] == last;
        assert FirstSeen(s, n) == prev;
      }
    }
  }

  /** Scanning more of `s` only appends to the result. */
  lemma {:induction false} FirstSeenGrows<T>(s: seq<T>, m: nat, n: nat)
    requires m <= n <= |s|
    ensures |FirstSeen(s, m)| <= |FirstSeen(s, n)|
    ensures FirstSeen(s, n)[..|FirstSeen(s, m)|] == FirstSeen(s, m)
  {
    if m < n {
      FirstSeenGrows(s, m, n - 1);
    }
  }

  /** An index holding `x` with no `x` before it is what `indexOf` returns. */
  lemma {:induction false} IndexOfIsFirstIndex<T>(s: seq<T>, x: T, r: nat)
    requires r < |s| && s[r] == x && x !in s[..r]
    ensures IndexOf(s, x) == r
  {
    if r > 0 {
      assert s[..r][0] == s[0];
      assert s[1..][..r - 1] == s[..r][1..];
      IndexOfIsFirstIndex(s[1..], x, r - 1);
    }
  }

  /** `indexOf` of a value that occurs in a prefix is the same in the prefix
      and in the whole sequence. */
  lemma IndexOfInPrefix<T>(s: seq<T>, n: nat, x: T)
    requires n <= |s| && x in s[..n]
    ensures IndexOf(s[..n], x) == IndexOf(s, x)
  {
    var r := IndexOf(s[..n], x);
    assert s[..r] == s[..n][..r];
    IndexOfIsFirstIndex(s, x, r);
  }

  /** Filtering the first `n` values of `s` against the whole of `s` is the
      same as de-duplicating `s[..n]` on its own. */
  lemma {:induction false} FirstSeenOfPrefix<T>(s: seq<T>, k: nat, n: nat)
    requires k <= n <= |s|
    ensures FirstSeen(s, k) == FirstSeen(s[..n], k)
  {
    if k > 0 {
      FirstSeenOfPrefix(s, k - 1, n);
      assert s[..n][k - 1] == s[k - 1];
      IndexOfInPrefix(s, n, s[k - 1]);
    }
  }

  /** A sequence without duplicates is its own de-duplication. */
  lemma {:induction false} FirstSeenOfDistinct<T>(s: seq<T>, k: nat)
    requires k <= |s| && Distinct(s)
    ensures FirstSeen(s, k) == s[..k]
  {
    if k > 0 {
      FirstSeenOfDistinct(s, k - 1);
      assert s[..k] == s[..k - 1] + [s[k - 1]];
    }
  }

  /** De-duplicating `a + b` starts with the de-duplication of `a`; when `a`
      has no duplicates, it starts with `a` itself. */
  lemma DedupPrefix<T(!new)>(a: seq<T>, b: seq<T>)
    ensures |Dedup(a)| <= |Dedup(a + b)| && Dedup(a + b)[..|Dedup(a)|] == Dedup(a)
    ensures Distinct(a) ==> |a| <= |Dedup(a + b)| && Dedup(a + b)[..|a|] == a
  {
    var s := a + b;
    FirstSeenGrows(s, |a|, |s|);
    FirstSeenOfPrefix(s, |a|, |a|);
    assert s[..|a|] == a;
    if Distinct(a) {
      FirstSeenOfDistinct(a, |a|);
      assert a[..|a|] == a;
    }
  }

  /** The distinct cost names of the quote, in first-seen order
      (`flatMap` followed by the `indexOf` filter). */
  function DynamicCostNames(products: seq<Product>): (names: seq<string>)
    ensures forall x :: x in names <==> OccursIn(products, x)
    ensures Distinct(names)
    ensures forall i, j :: 0 <= i < j < |names| ==>
              IndexOf(FlatCostNames(products), names[i]) < IndexOf(FlatCostNames(products), names[j])
  {
    Dedup(FlatCostNames(products))
  }

  /** The names of the first product's costs lead the derived name list
      whenever they are themselves unique. */
  lemma FirstProductNamesLead(products: seq<Product>)
    requires |products| > 0 && Distinct(CostNames(products[0].costs))
    ensures var first := CostNames(products[0].costs);
            |first| <= |DynamicCostNames(products)| && DynamicCostNames(products)[..|first|] == first
  {
    var first := CostNames(products[0].costs);
    assert FlatCostNames(products) == first + FlatCostNames(products[1..]);
    DedupPrefix(first, FlatCostNames(products[1..]));
  }

  /** Products with costs [A, B], [B, C] and [A, D] give the names [A, B, C, D]. */
  lemma FirstSeenOrderExample()
    ensures DynamicCostNames([Product("p1", [Cost("A", 1.0), Cost("B", 2.0)], 0.0),
                              Product("p2", [Cost("B", 3.0), Cost("C", 4.0)], 0.0),
                              Product("p3", [Cost("A", 5.0), Cost("D", 6.0)], 0.0)]) == ["A", "B", "C", "D"]
  {
    var ps := [Product("p1", [Cost("A", 1.0), Cost("B", 2.0)], 0.0),
               Product("p2", [Cost("B", 3.0), Cost("C", 4.0)], 0.0),
               Product("p3", [Cost("A", 5.0), Cost("D", 6.0)], 0.0)];
    assert FlatCostNames(ps[2..]) == ["A", "D"];
    assert FlatCostNames(ps[1..]) == ["B", "C", "A", "D"];
    assert FlatCostNames(ps) == ["A", "B", "B", "C", "A", "D"];
    DedupExample(FlatCostNames(ps));
  }

  lemma DedupExample(flat: seq<string>)
    requires flat == ["A", "B", "B", "C", "A", "D"]
    ensures FirstSeen(flat, 6) == ["A", "B", "C", "D"]
  {
    DedupExampleFirstHalf(flat);
    assert IndexOf(flat, flat[3]) == 3;
    assert IndexOf(flat, flat[4]) == 0;
    assert IndexOf(flat, flat[5]) == 5;
    ExampleStep(flat, 3, ["A", "B"], true);
    ExampleStep(flat, 4, ["A", "B", "C"], false);
    ExampleStep(flat, 5, ["A", "B", "C"], true);
  }

  lemma DedupExampleFirstHalf(flat: seq<string>)
    requires flat == ["A", "B", "B", "C", "A", "D"]
    ensures FirstSeen(flat, 3) == ["A", "B"]
  {
    assert IndexOf(flat, flat[0]) == 0;
    assert IndexOf(flat, flat[1]) == 1;
    assert IndexOf(flat, flat[2]) == 1;
    ExampleStep(flat, 0, [], true);
    ExampleStep(flat, 1, ["A"], true);
    ExampleStep(flat, 2, ["A", "B"], false);
  }

  /** One step of the filter: the value at `n` is kept exactly when it is
      its own first occurrence. */
  lemma ExampleStep<T>(s: seq<T>, n: nat, prev: seq<T>, kept: bool)
    requires n < |s| && FirstSeen(s, n) == prev
    requires kept <==> IndexOf(s, s[n]) == n
    ensures FirstSeen(s, n + 1) == if kept then prev + [s[n]] else prev
  {
  }

  // ---------------------------------------------------------------------
  // Dynamic columns
  // ---------------------------------------------------------------------

  const DynamicCostPrefix: string := "dynamic-cost-"

  /** The column id of a cost name, `dynamic-cost-${name}`: the prefix
      followed by the name, which can be read back after the prefix. */
  function DynamicCostId(name: string): (id: string)
    ensures |DynamicCostPrefix| <= |id| && id[|DynamicCostPrefix|..] == name
  {
    DynamicCostPrefix + name
  }

  /** Different cost names never share a column id. */
  lemma DynamicCostIdInjective(x: string, y: string)
    ensures DynamicCostId(x) == DynamicCostId(y) <==> x == y
  {
  }

  /** The column built for one cost name: its accessor reads that cost out
      of each row and its footer totals that cost over the rows. */
  function DynamicColumn(name: string): (c: ColumnDef)
    ensures c.id == DynamicCostId(name) && c.header == name
    ensures CostNameOf(c) == Some(name) && c.aggregation == Sum
  {
    ColumnDef(DynamicCostId(name), name, Sum, Some(ColumnMeta(Some(name), None, None)))
  }

  /** One summed column per derived cost name, id `dynamic-cost-<name>`,
      header and `meta.costName` the name itself. */
  function DynamicColumns(products: seq<Product>): (cols: seq<ColumnDef>)
    ensures |cols| == |DynamicCostNames(products)|
    ensures forall i :: 0 <= i < |cols| ==>
              var name := DynamicCostNames(products)[i];
              cols[i].id == DynamicCostId(name) && cols[i].header == name &&
              cols[i].aggregation == Sum && cols[i].meta == Some(ColumnMeta(Some(name), None, None))
  {
    var names := DynamicCostNames(products);
    seq(|names|, i requires 0 <= i < |names| => DynamicColumn(names[i]))
  }

  /** The dynamic columns have pairwise different ids, and there is a column
      with id `dynamic-cost-<x>` exactly when some product has a cost `x`. */
  lemma DynamicColumnIds(products: seq<Product>, x: string)
    ensures forall i, j :: 0 <= i < j < |DynamicColumns(products)| ==>
              DynamicColumns(products)[i].id != DynamicColumns(products)[j].id
    ensures (exists i :: 0 <= i < |DynamicColumns(products)| && DynamicColumns(products)[i].id == DynamicCostId(x))
            <==> OccursIn(products, x)
  {
    var cols, names := DynamicColumns(products), DynamicCostNames(products);
    forall i, j | 0 <= i < j < |cols| ensures cols[i].id != cols[j].id {
      DynamicCostIdInjective(names[i], names[j]);
    }
    if OccursIn(products, x) {
      var i :| 0 <= i < |names| && names[i] == x;
      assert cols[i].id == DynamicCostId(x);
    }
    if i :| 0 <= i < |cols| && cols[i].id == DynamicCostId(x) {
      DynamicCostIdInjective(names[i], x);
      assert names[i] in names;
    }
  }

  // ---------------------------------------------------------------------
  // Accessor and footer total
  // ---------------------------------------------------------------------

  /** `row.costs.find((cost) => cost.name === name)?.value`: the value of the
      first cost with that name, or undefined. */
  function FindCostValue(costs: seq<Cost>, name: string): (r: Option<real>)
    ensures r.None? <==> name !in CostNames(costs)
    ensures r.Some? ==> var j := IndexOf(CostNames(costs), name);
                        0 <= j < |costs| && costs[j] == Cost(name, r.value)
  {
    if costs == [] then None
    else if costs[0].name == name then Some(costs[0].value)
    else
      assert CostNames(costs) == [costs[0].name] + CostNames(costs[1..]);
      FindCostValue(costs[1..], name)
  }

  /** The value a dynamic column's accessor reads from one row: undefined
      when the row has no cost of that name, otherwise the value of one. */
  function DynamicCell(name: string, row: Product): (r: Option<real>)
    ensures r.None? <==> forall j :: 0 <= j < |row.costs| ==> row.costs[j].name != name
    ensures r.Some? ==> Cost(name, r.value) in row.costs
  {
    FindCostValue(row.costs, name)
  }

  /** No row holds a negative amount of the cost. */
  ghost predicate NoNegativeCells(name: string, rows: seq<Product>) {
    rows == [] || (NoNegativeCells(name, rows[..|rows| - 1]) && DynamicCell(name, rows[|rows| - 1]).GetOr(0.0) >= 0.0)
  }

  /** The `'sum'` aggregation over the rows, folded left to right from 0; a
      row whose accessor gives undefined adds 0. This is the dynamic column's
      footer total; when no row holds a negative amount of the cost, the
      total is not negative either. */
  function ColumnTotal(name: string, rows: seq<Product>): (total: real)
    ensures NoNegativeCells(name, rows) ==> total >= 0.0
  {
    if rows == [] then 0.0
    else ColumnTotal(name, rows[..|rows| - 1]) + DynamicCell(name, rows[|rows| - 1]).GetOr(0.0)
  }

  /** The cost name a column reads through `meta.costName`, if it has one. */
  function CostNameOf(column: ColumnDef): Option<string> {
    if column.meta.Some? then column.meta.value.costName else None
  }

  /** What a column's accessor reads from a row, for a column that reads a
      cost by name; undefined for any other column (whose accessor is not
      part of this model). */
  function ColumnCell(column: ColumnDef, row: Product): Option<real> {
    if CostNameOf(column).Some? then DynamicCell(CostNameOf(column).value, row) else None
  }

  /** `aggregate?.(id, [], rows)` for a column that reads a cost by name:
      undefined without an aggregation, otherwise the sum of what the
      column's accessor reads, where undefined counts as 0. */
  function ColumnTotalOf(column: ColumnDef, rows: seq<Product>): (total: Option<real>)
    ensures total.Some? <==> column.aggregation == Sum && CostNameOf(column).Some?
  {
    if column.aggregation == Sum && CostNameOf(column).Some? then Some(ColumnTotal(CostNameOf(column).value, rows))
    else None
  }

  /** Totals add up over concatenated row sets. */
  lemma {:induction false} ColumnTotalAppend(name: string, a: seq<Product>, b: seq<Product>)
    ensures ColumnTotal(name, a + b) == ColumnTotal(name, a) + ColumnTotal(name, b)
  {
    if b == [] {
      assert a + b == a;
    } else {
      var init, last := b[..|b| - 1], b[|b| - 1];
      ColumnTotalAppend(name, a, init);
      assert (a + b)[..|a + b| - 1] == a + init;
      assert (a + b)[|a + b| - 1] == last;
      assert ColumnTotal(name, a + b) == ColumnTotal(name, a + init) + DynamicCell(name, last).GetOr(0.0);
      assert ColumnTotal(name, b) == ColumnTotal(name, init) + DynamicCell(name, last).GetOr(0.0);
    }
  }

  /** Rows that lack the cost contribute nothing: over rows none of which
      has it, the total is 0 (in particular over no rows at all). */
  lemma {:induction false} ColumnTotalOfAbsent(name: string, rows: seq<Product>)
    requires forall i :: 0 <= i < |rows| ==> DynamicCell(name, rows[i]).None?
    ensures ColumnTotal(name, rows) == 0.0
  {
    if rows != [] {
      ColumnTotalOfAbsent(name, rows[..|rows| - 1]);
    }
  }

  /** A cost that only one row has totals to that row's value. */
  lemma OnlyRowWithCost(name: string, before: seq<Product>, row: Product, after: seq<Product>)
    requires forall i :: 0 <= i < |before| ==> DynamicCell(name, before[i]).None?
    requires forall i :: 0 <= i < |after| ==> DynamicCell(name, after[i]).None?
    ensures ColumnTotal(name, before + [row] + after) == DynamicCell(name, row).GetOr(0.0)
  {
    ColumnTotalAppend(name, before + [row], after);
    ColumnTotalAppend(name, before, [row]);
    ColumnTotalOfAbsent(name, before);
    ColumnTotalOfAbsent(name, after);
    assert [row][..0] == [];
  }

  // ---------------------------------------------------------------------
  // All columns
  // ---------------------------------------------------------------------

  /** The column definitions that do not depend on the quote. */
  datatype StaticColumns = StaticColumns(
    consistent: seq<ColumnDef>,
    addCost: ColumnDef,
    calculated: seq<ColumnDef>,
    estimatedHours: ColumnDef,
    contribution: seq<ColumnDef>)

  /** The full column list: consistent, dynamic (for a quote, the columns
      `DynamicColumns` derives), add-cost, calculated costs, estimated
      hours, then the contribution columns. */
  function AllColumns(st: StaticColumns, dynamic: seq<ColumnDef>): (cols: seq<ColumnDef>)
    ensures var c, d, k := |st.consistent|, |dynamic|, |st.calculated|;
            && |cols| == c + d + 1 + k + 1 + |st.contribution|
            && cols[..c] == st.consistent
            && cols[c..c + d] == dynamic
            && cols[c + d] == st.addCost
            && cols[c + d + 1..c + d + 1 + k] == st.calculated
            && cols[c + d + 1 + k] == st.estimatedHours
            && cols[c + d + k + 2..] == st.contribution
  {
    var cols := st.consistent + dynamic + [st.addCost] + st.calculated
                + [st.estimatedHours] + st.contribution;
    var c, d, k := |st.consistent|, |dynamic|, |st.calculated|;
    assert cols[c..c + d] == dynamic;
    assert cols[c + d + 1..c + d + 1 + k] == st.calculated;
    cols
  }

  /** The ids of a column list, in order. */
  function ColumnIds(cols: seq<ColumnDef>): (ids: seq<string>)
    ensures |ids| == |cols| && forall i :: 0 <= i < |cols| ==> ids[i] == cols[i].id
  {
    seq(|cols|, i requires 0 <= i < |cols| => cols[i].id)
  }

  /** `table.getColumn(id)`: a column with that id, if any. */
  function GetColumn(cols: seq<ColumnDef>, id: string): (r: Option<ColumnDef>)
    ensures r.None? <==> forall i :: 0 <= i < |cols| ==> cols[i].id != id
    ensures r.Some? ==> r.value.id == id && r.value in cols
  {
    if cols == [] then None
    else if cols[0].id == id then Some(cols[0])
    else
      var r := GetColumn(cols[1..], id);
      assert forall i :: 1 <= i < |cols| ==> cols[i] == cols[1..][i - 1];
      r
  }

  /** Where column ids are unique, looking a column's id up finds that column. */
  lemma {:induction false} GetColumnOfUnique(cols: seq<ColumnDef>, p: nat)
    requires p < |cols| && Distinct(ColumnIds(cols))
    ensures GetColumn(cols, cols[p].id) == Some(cols[p])
  {
    if p > 0 {
      assert ColumnIds(cols)[0] != ColumnIds(cols)[p];
      var tail := cols[1..];
      forall i, j | 0 <= i < j < |tail| ensures ColumnIds(tail)[i] != ColumnIds(tail)[j] {
        assert ColumnIds(cols)[i + 1] != ColumnIds(cols)[j + 1];
      }
      GetColumnOfUnique(tail, p - 1);
    }
  }
}
