/** The totals table beside the pricing table: the three pricing scenarios
    (target contribution-margin %, manual price, price per item), the rows of
    cost totals it repeats, and the contribution figures of each scenario. */
module TotalsTable {
  import opened Wrappers
  import opened QuoteModel
  import opened PricingTable

  // ---------------------------------------------------------------------
  // Target selling price
  // ---------------------------------------------------------------------

  /** The price on the target CM%: `totalVariableCosts / (1 - contributionPercent / 100)`.
      At 100% the source divides by zero; the model has no price there. The
      price is the one of which `contributionPercent`% is left after the costs. */
  function CMTotalSellingPrice(totalVariableCosts: real, contributionPercent: real): (price: Option<real>)
    ensures price.None? <==> contributionPercent == 100.0
    ensures price.Some? ==> price.value * (1.0 - contributionPercent / 100.0) == totalVariableCosts
    ensures price.Some? ==> price.value - totalVariableCosts == price.value * (contributionPercent / 100.0)
  {
    if contributionPercent == 100.0 then None
    else Some(totalVariableCosts / (1.0 - contributionPercent / 100.0))
  }

  /** Below 100%, the target price is zero exactly when the costs are. */
  lemma TargetPriceZero(totalVariableCosts: real, contributionPercent: real)
    requires contributionPercent != 100.0
    ensures CMTotalSellingPrice(totalVariableCosts, contributionPercent).Some?
    ensures CMTotalSellingPrice(totalVariableCosts, contributionPercent).value == 0.0
            <==> totalVariableCosts == 0.0
  {
  }

  // ---------------------------------------------------------------------
  // Contribution figures
  // ---------------------------------------------------------------------

  /** The figures of one pricing scenario. `margin` and `perHour` are absent
      where the source divides by zero. */
  datatype Figures = Figures(price: real, contribution: real, margin: Option<real>, perHour: Option<real>)

  /** The contribution, margin and contribution per hour at one selling price,
      against the costs and hours shared by every scenario. */
  function ScenarioFigures(price: real, totalVariableCosts: real, estimatedTotalHours: real): (f: Figures)
    ensures f.price == price
    ensures f.contribution + totalVariableCosts == price
    ensures f.margin.Some? <==> price != 0.0
    ensures f.margin.Some? ==> f.margin.value * price == f.contribution
    ensures f.margin.Some? ==> f.margin.value == 1.0 - totalVariableCosts / price
    ensures f.perHour.Some? <==> estimatedTotalHours != 0.0
    ensures f.perHour.Some? ==> f.perHour.value * estimatedTotalHours == f.contribution
  {
    var contribution := price - totalVariableCosts;
    Figures(price, contribution,
            if price == 0.0 then None
            else
              assert contribution / price == price / price - totalVariableCosts / price;
              assert price / price == 1.0;
              Some(contribution / price),
            if estimatedTotalHours == 0.0 then None else Some(contribution / estimatedTotalHours))
  }

  /** The three contribution rows of the totals table, by scenario. The target
      column does not show a computed margin but the percentage typed in,
      `targetMarginShown`; `target` is absent when there is no target price. */
  datatype ContributionRows = ContributionRows(
    target: Option<Figures>,
    manual: Figures,
    perItem: Figures,
    targetMarginShown: real)

  /** `ContributionRows`: each scenario's contribution is its price minus the
      same total variable costs, divided by its price for the margin and by
      the same estimated hours for the contribution per hour. */
  function ContributionRowsOf(
    profitMarginTotalPrice: Option<real>, totalVariableCosts: real, estimatedTotalHours: real,
    manualPrice: real, pricePerItem: real, contributionPercent: real): (rows: ContributionRows)
    ensures rows.target.Some? <==> profitMarginTotalPrice.Some?
    ensures rows.target.Some? ==> rows.target.value.price == profitMarginTotalPrice.value
    ensures rows.manual.price == manualPrice && rows.perItem.price == pricePerItem
    ensures rows.targetMarginShown == contributionPercent
    ensures forall f :: f in [rows.manual, rows.perItem] + (if rows.target.Some? then [rows.target.value] else []) ==>
              f == ScenarioFigures(f.price, totalVariableCosts, estimatedTotalHours)
  {
    ContributionRows(
      match profitMarginTotalPrice
      case Some(p) => Some(ScenarioFigures(p, totalVariableCosts, estimatedTotalHours))
      case None => None,
      ScenarioFigures(manualPrice, totalVariableCosts, estimatedTotalHours),
      ScenarioFigures(pricePerItem, totalVariableCosts, estimatedTotalHours),
      contributionPercent)
  }

  /** The whole contribution section for one set of inputs: the target
      scenario is priced so that `contributionPercent`% of its price is left
      after the costs (and is missing at 100%), the other two at the prices
      typed in, and every scenario subtracts the same costs. */
  function Scenarios(totalVariableCosts: real, estimatedTotalHours: real,
                     contributionPercent: real, manualPrice: real, pricePerItem: real): (rows: ContributionRows)
    ensures rows.target.None? <==> contributionPercent == 100.0
    ensures rows.target.Some? ==>
              && rows.target.value.price * (1.0 - contributionPercent / 100.0) == totalVariableCosts
              && rows.target.value.contribution == rows.target.value.price * (contributionPercent / 100.0)
    ensures rows.manual.price == manualPrice && rows.manual.contribution == manualPrice - totalVariableCosts
    ensures rows.perItem.price == pricePerItem && rows.perItem.contribution == pricePerItem - totalVariableCosts
    ensures rows.targetMarginShown == contributionPercent
  {
    ContributionRowsOf(CMTotalSellingPrice(totalVariableCosts, contributionPercent),
                       totalVariableCosts, estimatedTotalHours, manualPrice, pricePerItem,
                       contributionPercent)
  }

  /** At the target price, contribution over price is the percentage typed
      in, divided by 100: which is why the target column can show the input
      itself in place of a computed margin. */
  lemma TargetMarginIsInput(totalVariableCosts: real, estimatedTotalHours: real,
                            contributionPercent: real, manualPrice: real, pricePerItem: real)
    requires contributionPercent != 100.0 && totalVariableCosts != 0.0
    ensures var rows := Scenarios(totalVariableCosts, estimatedTotalHours, contributionPercent,
                                  manualPrice, pricePerItem);
            rows.target.Some? && rows.target.value.margin == Some(rows.targetMarginShown / 100.0)
  {
    TargetPriceZero(totalVariableCosts, contributionPercent);
    var p := CMTotalSellingPrice(totalVariableCosts, contributionPercent).value;
    var m := ScenarioFigures(p, totalVariableCosts, estimatedTotalHours).margin.value;
    assert m * p == p * (contributionPercent / 100.0);
  }

  /** A manual price or price per item equal to the target price yields
      exactly the target scenario's contribution, margin and per-hour
      figures, and the margin is the target percentage over 100. */
  lemma ScenarioSymmetry(totalVariableCosts: real, estimatedTotalHours: real,
                         contributionPercent: real, manualPrice: real, pricePerItem: real)
    requires CMTotalSellingPrice(totalVariableCosts, contributionPercent) == Some(manualPrice)
    ensures var rows := Scenarios(totalVariableCosts, estimatedTotalHours, contributionPercent,
                                  manualPrice, pricePerItem);
            && rows.target == Some(rows.manual)
            && (manualPrice != 0.0 ==> rows.manual.margin == Some(contributionPercent / 100.0))
            && (pricePerItem == manualPrice ==> rows.perItem == rows.manual)
  {
    if manualPrice != 0.0 {
      TargetMarginIsInput(totalVariableCosts, estimatedTotalHours, contributionPercent,
                          manualPrice, pricePerItem);
    }
  }

  /** Two scenarios differ in contribution by exactly the difference of their
      prices: the costs they subtract are the same. */
  lemma SharedCostBase(totalVariableCosts: real, estimatedTotalHours: real,
                       contributionPercent: real, manualPrice: real, pricePerItem: real)
    ensures var rows := Scenarios(totalVariableCosts, estimatedTotalHours, contributionPercent,
                                  manualPrice, pricePerItem);
            && rows.manual.contribution - rows.perItem.contribution == manualPrice - pricePerItem
            && (rows.target.Some? ==>
                  rows.target.value.contribution - rows.manual.contribution
                  == rows.target.value.price - manualPrice)
  {
  }

  /** Costs of 100 at a 20% target: price 125, contribution 25, margin 0.2;
      a manual price of 125 gives the same figures. */
  lemma TargetTwentyPercentExample(estimatedTotalHours: real)
    ensures var rows := Scenarios(100.0, estimatedTotalHours, 20.0, 125.0, 0.0);
            && rows.target == Some(rows.manual)
            && rows.manual.contribution == 25.0
            && rows.manual.margin == Some(0.2)
  {
    assert CMTotalSellingPrice(100.0, 20.0) == Some(125.0);
    ScenarioSymmetry(100.0, estimatedTotalHours, 20.0, 125.0, 0.0);
  }

  /** With 100% as the target there is no target price, hence no target figures. */
  lemma FullMarginHasNoTarget(totalVariableCosts: real, estimatedTotalHours: real,
                              manualPrice: real, pricePerItem: real)
    ensures Scenarios(totalVariableCosts, estimatedTotalHours, 100.0, manualPrice, pricePerItem).target.None?
  {
  }

  /** With no estimated hours, no scenario has a contribution per hour. */
  lemma NoHoursNoPerHour(totalVariableCosts: real, contributionPercent: real,
                         manualPrice: real, pricePerItem: real)
    ensures var rows := Scenarios(totalVariableCosts, 0.0, contributionPercent, manualPrice, pricePerItem);
            && rows.manual.perHour.None? && rows.perItem.perHour.None?
            && (rows.target.Some? ==> rows.target.value.perHour.None?)
  {
  }

  /** Two products, P1 with shipping 10 and packaging 5 and P2 with shipping 8:
      the shipping column totals 18 and the packaging column 5. With variable
      costs 23, 5 hours and a 25% target, the price is 92/3, the contribution
      23/3 and the contribution per hour 23/15. */
  lemma TwoProductExample()
    ensures var ps := [Product("P1", [Cost("shipping", 10.0), Cost("packaging", 5.0)], 2.0),
                       Product("P2", [Cost("shipping", 8.0)], 3.0)];
            && DynamicCostNames(ps) == ["shipping", "packaging"]
            && ColumnTotal("shipping", ps) == 18.0
            && ColumnTotal("packaging", ps) == 5.0
    ensures var rows := Scenarios(23.0, 5.0, 25.0, 0.0, 0.0);
            && rows.target.Some?
            && rows.target.value.price == 92.0 / 3.0
            && rows.target.value.contribution == 23.0 / 3.0
            && rows.target.value.perHour == Some(23.0 / 15.0)
  {
    var ps := [Product("P1", [Cost("shipping", 10.0), Cost("packaging", 5.0)], 2.0),
               Product("P2", [Cost("shipping", 8.0)], 3.0)];
    assert FlatCostNames(ps[1..]) == ["shipping"];
    var flat := FlatCostNames(ps);
    assert flat == ["shipping", "packaging", "shipping"];
    TwoProductNames(flat);
    assert DynamicCostNames(ps) == FirstSeen(flat, |flat|);
    assert ps[..1] == [ps[0]];
    assert ColumnTotal("packaging", ps[..1]) == 5.0;
    assert ColumnTotal("shipping", ps[..1]) == 10.0;
    assert CMTotalSellingPrice(23.0, 25.0) == Some(92.0 / 3.0);
  }

  lemma TwoProductNames(flat: seq<string>)
    requires flat == ["shipping", "packaging", "shipping"]
    ensures FirstSeen(flat, 3) == ["shipping", "packaging"]
  {
    assert IndexOf(flat, flat[0]) == 0;
    assert IndexOf(flat, flat[1]) == 1;
    assert IndexOf(flat, flat[2]) == 0;
    ExampleStep(flat, 0, [], true);
    ExampleStep(flat, 1, ["shipping"], true);
    ExampleStep(flat, 2, ["shipping", "packaging"], false);
  }

  // ---------------------------------------------------------------------
  // Cost total rows
  // ---------------------------------------------------------------------

  /** The ids of the repeated cost-total rows: `dynamic-cost-<name>` for each
      cost of the FIRST product only (the source reads `quote.products[0]`). */
  function DynamicCostIds(products: seq<Product>): (ids: seq<string>)
    requires |products| > 0
    ensures |ids| == |products[0].costs|
    ensures forall i :: 0 <= i < |ids| ==> ids[i] == DynamicCostId(products[0].costs[i].name)
  {
    var costs := products[0].costs;
    seq(|costs|, i requires 0 <= i < |costs| => DynamicCostId(costs[i].name))
  }

  /** Every cost-total row id is the id of a dynamic column, so the lookup
      `table.getColumn(id)` behind each row finds a column. */
  lemma TotalsRowIdsAreColumns(st: StaticColumns, products: seq<Product>)
    requires |products| > 0
    ensures forall id :: id in DynamicCostIds(products) ==>
              (exists i :: 0 <= i < |DynamicColumns(products)| && DynamicColumns(products)[i].id == id)
              && GetColumn(AllColumns(st, DynamicColumns(products)), id).Some?
  {
    var ids := DynamicCostIds(products);
    forall id | id in ids
      ensures (exists i :: 0 <= i < |DynamicColumns(products)| && DynamicColumns(products)[i].id == id)
              && GetColumn(AllColumns(st, DynamicColumns(products)), id).Some?
    {
      var k :| 0 <= k < |ids| && ids[k] == id;
      RowIdIsColumn(st, products, k);
    }
  }

  /** The `k`-th cost-total row id names a dynamic column, which sits in the
      full column list. */
  lemma RowIdIsColumn(st: StaticColumns, products: seq<Product>, k: nat)
    requires |products| > 0 && k < |products[0].costs|
    ensures exists i :: 0 <= i < |DynamicColumns(products)| && DynamicColumns(products)[i].id == DynamicCostIds(products)[k]
    ensures GetColumn(AllColumns(st, DynamicColumns(products)), DynamicCostIds(products)[k]).Some?
  {
    var cols, id := DynamicColumns(products), DynamicCostIds(products)[k];
    var name := products[0].costs[k].name;
    assert OccursIn(products, name);
    DynamicColumnIds(products, name);
    var i :| 0 <= i < |cols| && cols[i].id == id;
    DynamicColumnInAll(st, DynamicColumns(products), i);
  }

  /** The `k`-th cost-total row shows `aggregate(id)`, the footer total of
      the column the lookup finds: with the column ids unique, as the table
      requires, that is the total of the `k`-th cost of the first product
      over all the rows. */
  lemma {:induction false} TotalsRowShowsColumnTotal(st: StaticColumns, products: seq<Product>, k: nat)
    requires |products| > 0 && k < |products[0].costs|
    requires Distinct(ColumnIds(AllColumns(st, DynamicColumns(products))))
    ensures var column := GetColumn(AllColumns(st, DynamicColumns(products)), DynamicCostIds(products)[k]);
            column.Some? &&
            ColumnTotalOf(column.value, products) == Some(ColumnTotal(products[0].costs[k].name, products))
  {
    var names, name := DynamicCostNames(products), products[0].costs[k].name;
    assert OccursIn(products, name);
    var i :| 0 <= i < |names| && names[i] == name;
    DynamicColumnFound(st, DynamicColumns(products), i);
  }

  /** With unique column ids, looking up dynamic column `i` by its id finds it. */
  lemma DynamicColumnFound(st: StaticColumns, dynamic: seq<ColumnDef>, i: nat)
    requires i < |dynamic| && Distinct(ColumnIds(AllColumns(st, dynamic)))
    ensures GetColumn(AllColumns(st, dynamic), dynamic[i].id) == Some(dynamic[i])
  {
    DynamicColumnInAll(st, dynamic, i);
    GetColumnOfUnique(AllColumns(st, dynamic), |st.consistent| + i);
  }

  /** Dynamic column `i` is column `|consistent| + i` of the full list. */
  lemma DynamicColumnInAll(st: StaticColumns, dynamic: seq<ColumnDef>, i: nat)
    requires i < |dynamic|
    ensures var all, c := AllColumns(st, dynamic), |st.consistent|;
            c + i < |all| && all[c + i] == dynamic[i]
  {
    var all, c := AllColumns(st, dynamic), |st.consistent|;
    assert all[c..c + |dynamic|][i] == dynamic[i];
  }

  /** When the first product's cost names are unique, the cost-total row ids
      are exactly the ids of the leading dynamic columns, in the same order. */
  lemma TotalsRowIdsLead(products: seq<Product>)
    requires |products| > 0 && Distinct(CostNames(products[0].costs))
    ensures |DynamicCostIds(products)| <= |DynamicColumns(products)|
    ensures forall i :: 0 <= i < |DynamicCostIds(products)| ==>
              DynamicCostIds(products)[i] == DynamicColumns(products)[i].id
  {
    var ids, cols := DynamicCostIds(products), DynamicColumns(products);
    FirstProductNamesLead(products);
    var first := CostNames(products[0].costs);
    forall i | 0 <= i < |ids| ensures ids[i] == cols[i].id {
      assert DynamicCostNames(products)[..|first|][i] == first[i];
    }
  }

  /** A cost that only a later product has gets a dynamic column but no
      cost-total row: products with costs [a] and [b] show no row for b. */
  lemma LaterOnlyCostHasNoTotalsRow()
    ensures var ps := [Product("P1", [Cost("a", 1.0)], 0.0), Product("P2", [Cost("b", 2.0)], 0.0)];
            && OccursIn(ps, "b")
            && DynamicCostId("b") !in DynamicCostIds(ps)
  {
    var ps := [Product("P1", [Cost("a", 1.0)], 0.0), Product("P2", [Cost("b", 2.0)], 0.0)];
    assert ps[1].costs[0].name == "b";
    assert DynamicCostIds(ps) == [DynamicCostId("a")];
    DynamicCostIdInjective("a", "b");
  }

  /** The cost-total row ids taken from every product, as the dynamic columns
      are: one row per dynamic column, in column order, and none (rather than
      a failure) for a quote without products. */
  function CostTotalRowIds(products: seq<Product>): (ids: seq<string>)
    ensures |ids| == |DynamicColumns(products)|
    ensures forall i :: 0 <= i < |ids| ==> ids[i] == DynamicColumns(products)[i].id
  {
    var cols := DynamicColumns(products);
    seq(|cols|, i requires 0 <= i < |cols| => cols[i].id)
  }

  /** Every cost of every product has its cost-total row, and every row is
      some product's cost; where the first product's names are unique, the
      first-product rows are the leading ones. */
  lemma CostTotalRowsCoverEveryCost(products: seq<Product>, x: string)
    ensures DynamicCostId(x) in CostTotalRowIds(products) <==> OccursIn(products, x)
    ensures |products| > 0 && Distinct(CostNames(products[0].costs)) ==>
              |DynamicCostIds(products)| <= |CostTotalRowIds(products)| &&
              CostTotalRowIds(products)[..|DynamicCostIds(products)|] == DynamicCostIds(products)
  {
    var ids, cols := CostTotalRowIds(products), DynamicColumns(products);
    DynamicColumnIds(products, x);
    if DynamicCostId(x) in ids {
      var i :| 0 <= i < |ids| && ids[i] == DynamicCostId(x);
      assert cols[i].id == DynamicCostId(x);
    }
    if OccursIn(products, x) {
      var i :| 0 <= i < |cols| && cols[i].id == DynamicCostId(x);
      assert ids[i] == DynamicCostId(x);
    }
    if |products| > 0 && Distinct(CostNames(products[0].costs)) {
      TotalsRowIdsLead(products);
    }
  }

  // ---------------------------------------------------------------------
  // The three inputs held by the totals table
  // ---------------------------------------------------------------------

  /** The three numbers the user types into the totals table
      (`useState(0)` each, replaced by the inputs' `onChange`). */
  class ScenarioInputs {
    var contributionPercent: real
    var manualPrice: real
    var pricePerItem: real

    /** All three inputs start at 0. */
    constructor ()
      ensures contributionPercent == 0.0 && manualPrice == 0.0 && pricePerItem == 0.0
    {
      contributionPercent, manualPrice, pricePerItem := 0.0, 0.0, 0.0;
    }

    /** The contribution section for the current inputs. */
    function Evaluate(totalVariableCosts: real, estimatedTotalHours: real): (rows: ContributionRows)
      reads this
      ensures rows.manual.price == manualPrice && rows.perItem.price == pricePerItem
      ensures rows.targetMarginShown == contributionPercent
      ensures rows.target.None? <==> contributionPercent == 100.0
    {
      Scenarios(totalVariableCosts, estimatedTotalHours, contributionPercent, manualPrice, pricePerItem)
    }

    /** The margin input: changes the target percentage and so only the
        target scenario. */
    method SetContributionPercent(value: real)
      modifies this
      ensures contributionPercent == value
      ensures manualPrice == old(manualPrice) && pricePerItem == old(pricePerItem)
      ensures forall tvc, hours :: Evaluate(tvc, hours).manual == old(Evaluate(tvc, hours)).manual
                                   && Evaluate(tvc, hours).perItem == old(Evaluate(tvc, hours)).perItem
    {
      contributionPercent := value;
    }

    /** The manual price input: changes only the manual scenario. */
    method SetManualPrice(value: real)
      modifies this
      ensures manualPrice == value
      ensures contributionPercent == old(contributionPercent) && pricePerItem == old(pricePerItem)
      ensures forall tvc, hours :: Evaluate(tvc, hours).target == old(Evaluate(tvc, hours)).target
                                   && Evaluate(tvc, hours).perItem == old(Evaluate(tvc, hours)).perItem
    {
      manualPrice := value;
    }

    /** The price-per-item input: changes only the per-item scenario. */
    method SetPricePerItem(value: real)
      modifies this
      ensures pricePerItem == value
      ensures contributionPercent == old(contributionPercent) && manualPrice == old(manualPrice)
      ensures forall tvc, hours :: Evaluate(tvc, hours).target == old(Evaluate(tvc, hours)).target
                                   && Evaluate(tvc, hours).manual == old(Evaluate(tvc, hours)).manual
    {
      pricePerItem := value;
    }
  }
}
