# Pricing and contribution-margin engine of the Pricing tab

This project models, in Dafny, the calculation core of the Pricing tab of the
print-profit admin dashboard. A quote is a list of products; each product has
its own list of named costs and an estimate of hours. The pricing table turns
the union of cost names into one summed column per name. The totals table
evaluates three pricing scenarios against the same total variable costs:
the price on a target contribution-margin percentage, a manually entered
price, and a price per item. For each it gives the contribution, the margin
and the contribution per hour. The footer cells show column totals and a
guarded contribution ratio.

Files:

- `Wrappers.dfy`: `Option`, standing for `undefined`/`null` and for a
  quotient JavaScript would compute as `Infinity` or `NaN`.
- `QuoteModel.dfy`: `Cost`, `Product` (a quote is its list of products)
  and the column definition
  (`ColumnDef`, `ColumnMeta`, `Aggregation`).
- `PricingTable.dfy`: the cost-name derivation (`flatMap`, then the
  `indexOf` filter), the dynamic columns, their accessor and their footer
  total, and the full column list.
- `TotalsTable.dfy`: the target selling price, the contribution figures of
  the three scenarios, the ids of the cost-total rows, and a class holding
  the three inputs that the component keeps in `useState`.
- `Footers.dfy`: `NumberFooter`, `CurrencyFooter` and `ContributionFooter`.

Money and hours are `real`. Every division that the source leaves unguarded
gives an `Option` here: `None` marks the inputs where the browser would show
`Infinity` or `NaN`. The source's own guards are modelled as written.
`ContributionFooter` returns 0 for a zero divisor. `NumberFooter` and
`CurrencyFooter` render nothing for a zero or missing total.

`DynamicCostIds` requires a non-empty product list. The source reads
`quote.products[0].costs` at `TotalsTable.jsx:41` and fails there on an
empty quote.

The target column of the margin row does not show a computed margin. It shows
the percentage typed in. The model keeps that input in `targetMarginShown`. It
also computes the target margin, and `TargetMarginIsInput` proves that the
computed margin equals the input divided by 100.

## Model

| member | source | states |
|---|---|---|
| `PricingTable.DynamicCostNames` | src/components/CostAndPricing/PricingTab/PricingTable.jsx:49-51 | the derived names are exactly the cost names of some product, each once, ordered by first occurrence in the flattened name list |
| `QuoteModel.CostNames` | src/components/CostAndPricing/PricingTab/PricingTable.jsx:50 | one name per cost of the product, in the product's order |
| `PricingTable.FlatCostNames` | src/components/CostAndPricing/PricingTab/PricingTable.jsx:49-50 | a name is in the flattened list iff some product has a cost of that name |
| `PricingTable.IndexOf` | src/components/CostAndPricing/PricingTab/PricingTable.jsx:51 | `indexOf` gives -1 iff the value is absent, otherwise the first index holding it |
| `PricingTable.FirstSeen` | src/components/CostAndPricing/PricingTab/PricingTable.jsx:51 | the filter over the first n values keeps at most n of them; what it keeps is stated by `FirstSeenProperties` |
| `PricingTable.Dedup` | src/components/CostAndPricing/PricingTab/PricingTable.jsx:51 | the filter over the whole list keeps every value of the list and no other, each once, ordered by first index |
| `PricingTable.FirstSeenProperties` | src/components/CostAndPricing/PricingTab/PricingTable.jsx:51 | the `indexOf(value) === index` filter keeps every value of the scanned part, once each, in order of first occurrence |
| `PricingTable.FirstSeenGrows` | src/components/CostAndPricing/PricingTab/PricingTable.jsx:51 | filtering a longer part only appends to the result |
| `PricingTable.IndexOfInPrefix` | src/components/CostAndPricing/PricingTab/PricingTable.jsx:51 | a value's first index is the same in a prefix that holds it and in the whole list |
| `PricingTable.FirstSeenOfPrefix` | src/components/CostAndPricing/PricingTab/PricingTable.jsx:51 | filtering the first n values against the whole list equals de-duplicating those n values alone |
| `PricingTable.FirstSeenOfDistinct` | src/components/CostAndPricing/PricingTab/PricingTable.jsx:51 | a list without duplicates passes the filter unchanged |
| `PricingTable.DedupPrefix` | src/components/CostAndPricing/PricingTab/PricingTable.jsx:51 | de-duplicating `a + b` starts with the de-duplication of `a`, and with `a` itself when `a` has no duplicates |
| `PricingTable.FirstProductNamesLead` | src/components/CostAndPricing/PricingTab/PricingTable.jsx:49-51 | unique cost names of the first product are the leading derived names, in their order |
| `PricingTable.FirstSeenOrderExample` | src/components/CostAndPricing/PricingTab/PricingTable.jsx:49-51 | costs [A,B], [B,C], [A,D] give the names [A,B,C,D] |
| `PricingTable.DynamicCostId` | src/components/CostAndPricing/PricingTab/PricingTable.jsx:54 | the name can be read back after the `dynamic-cost-` prefix |
| `PricingTable.DynamicCostIdInjective` | src/components/CostAndPricing/PricingTab/PricingTable.jsx:54 | two `dynamic-cost-<name>` ids are equal iff the names are |
| `PricingTable.DynamicColumn` | src/components/CostAndPricing/PricingTab/PricingTable.jsx:52-70 | the column of a name has id `dynamic-cost-<name>`, header the name, `'sum'` aggregation and `meta.costName` the name |
| `PricingTable.DynamicColumns` | src/components/CostAndPricing/PricingTab/PricingTable.jsx:52-71 | one summed column per derived name, with id `dynamic-cost-<name>`, header the name and `meta.costName` the name |
| `PricingTable.DynamicColumnIds` | src/components/CostAndPricing/PricingTab/PricingTable.jsx:54 | the dynamic column ids are pairwise different, and `dynamic-cost-x` is among them iff some product has a cost `x` |
| `PricingTable.FindCostValue` | src/components/CostAndPricing/PricingTab/PricingTable.jsx:55 | the accessor is undefined iff the row has no cost of that name, otherwise it gives the value of the first such cost |
| `PricingTable.DynamicCell` | src/components/CostAndPricing/PricingTab/PricingTable.jsx:55 | the accessor is undefined iff the row has no cost of that name, otherwise the value of a cost of that name in the row |
| `PricingTable.ColumnTotal` | src/components/CostAndPricing/PricingTab/PricingTable.jsx:58-62 | the `'sum'` total is not negative when no row holds a negative amount; how it adds up is stated by `ColumnTotalAppend`, `ColumnTotalOfAbsent` and `OnlyRowWithCost` |
| `PricingTable.ColumnTotalOf` | src/components/CostAndPricing/PricingTab/PricingTable.jsx:58-62 | a column's footer total exists iff it has the `'sum'` aggregation and reads a cost by `meta.costName`; `TotalsRowShowsColumnTotal` ties it to `ColumnTotal` |
| `PricingTable.ColumnTotalAppend` | src/components/CostAndPricing/PricingTab/PricingTable.jsx:58-62 | the column total over two row sets put together is the sum of their totals |
| `PricingTable.ColumnTotalOfAbsent` | src/components/CostAndPricing/PricingTab/PricingTable.jsx:55-62 | rows lacking the cost contribute 0, so the total over such rows, and over no rows, is 0 |
| `PricingTable.OnlyRowWithCost` | src/components/CostAndPricing/PricingTab/PricingTable.jsx:55-62 | a cost present in only one row totals to that row's value |
| `PricingTable.AllColumns` | src/components/CostAndPricing/PricingTab/PricingTable.jsx:77-84 | the column list is consistent, the given dynamic columns, add-cost, calculated, estimated hours, contribution, in that order, and its length is the sum of the parts |
| `PricingTable.GetColumn` | src/components/CostAndPricing/PricingTab/TotalsTable.jsx:208 | the column lookup finds nothing iff no column has the id, otherwise a column with that id |
| `PricingTable.GetColumnOfUnique` | src/components/CostAndPricing/PricingTab/TotalsTable.jsx:30 | with unique column ids, looking up a column's id finds that very column |
| `TotalsTable.CMTotalSellingPrice` | src/components/CostAndPricing/PricingTab/TotalsTable.jsx:36-39 | no price iff the target is 100%; otherwise a price whose share `(1 - cp/100)` is the variable costs and whose contribution is `cp`% of it |
| `TotalsTable.TargetPriceZero` | src/components/CostAndPricing/PricingTab/TotalsTable.jsx:37 | below 100%, the target price is 0 iff the variable costs are 0 |
| `TotalsTable.ScenarioFigures` | src/components/CostAndPricing/PricingTab/TotalsTable.jsx:114-174 | contribution is price minus variable costs; the margin exists iff the price is non-zero and is `1 - costs/price`; the per-hour figure exists iff hours are non-zero and times the hours gives the contribution |
| `TotalsTable.ContributionRowsOf` | src/components/CostAndPricing/PricingTab/TotalsTable.jsx:107-175 | each scenario's figures come from its own price and the same variable costs and hours; the target column shows the input percentage |
| `TotalsTable.Scenarios` | src/components/CostAndPricing/PricingTab/TotalsTable.jsx:79-83 | no target figures iff the percentage is 100; the target price leaves that percentage of itself after the costs; the manual and per-item scenarios keep the prices typed in and subtract the same costs; the target column shows the percentage |
| `TotalsTable.TargetMarginIsInput` | src/components/CostAndPricing/PricingTab/TotalsTable.jsx:114-143 | below 100% and with non-zero costs, the target contribution over the target price is the input percentage over 100 |
| `TotalsTable.ScenarioSymmetry` | src/components/CostAndPricing/PricingTab/TotalsTable.jsx:114-174 | a manual price equal to the target price gives the target's figures exactly, with margin `cp/100`; an equal price per item gives them too |
| `TotalsTable.SharedCostBase` | src/components/CostAndPricing/PricingTab/TotalsTable.jsx:114-116 | scenario contributions differ exactly by the difference of their prices |
| `TotalsTable.TargetTwentyPercentExample` | src/components/CostAndPricing/PricingTab/TotalsTable.jsx:36-39 | costs 100 at 20%: contribution 25, margin 0.2, and a manual 125 matches the target |
| `TotalsTable.FullMarginHasNoTarget` | src/components/CostAndPricing/PricingTab/TotalsTable.jsx:37 | at 100% there are no target figures |
| `TotalsTable.NoHoursNoPerHour` | src/components/CostAndPricing/PricingTab/TotalsTable.jsx:157-174 | with 0 hours no scenario has a contribution per hour |
| `TotalsTable.TwoProductExample` | src/components/CostAndPricing/PricingTab/PricingTable.jsx:49-62 | shipping 10 and 8 and packaging 5 give names [shipping, packaging] and totals 18 and 5; costs 23, 5 hours, 25% give price 92/3, contribution 23/3, 23/15 per hour |
| `TotalsTable.DynamicCostIds` | src/components/CostAndPricing/PricingTab/TotalsTable.jsx:41-43 | one row id `dynamic-cost-<name>` per cost of the first product, in its order |
| `TotalsTable.TotalsRowIdsAreColumns` | src/components/CostAndPricing/PricingTab/TotalsTable.jsx:72-73 | every cost-total row id is a dynamic column's id, so the column lookup for it succeeds |
| `TotalsTable.TotalsRowShowsColumnTotal` | src/components/CostAndPricing/PricingTab/TotalsTable.jsx:24-33 | with unique column ids, the k-th cost-total row finds a column whose footer total is the `'sum'` of the first product's k-th cost over all the rows |
| `TotalsTable.TotalsRowIdsLead` | src/components/CostAndPricing/PricingTab/TotalsTable.jsx:41-43 | with unique first-product names, the row ids are the ids of the leading dynamic columns |
| `TotalsTable.LaterOnlyCostHasNoTotalsRow` | src/components/CostAndPricing/PricingTab/TotalsTable.jsx:41-43 | products with costs [a] and [b]: b has a dynamic column but no cost-total row |
| `TotalsTable.CostTotalRowIds` | src/components/CostAndPricing/PricingTab/TotalsTable.jsx:41-43 | one row id per dynamic column, in column order, and none for an empty quote |
| `TotalsTable.CostTotalRowsCoverEveryCost` | src/components/CostAndPricing/PricingTab/TotalsTable.jsx:41-43 | a cost has a row iff some product has it; the first-product rows lead when their names are unique |
| `TotalsTable.ScenarioInputs.constructor` | src/components/CostAndPricing/PricingTab/TotalsTable.jsx:20-22 | all three inputs start at 0 |
| `TotalsTable.ScenarioInputs.Evaluate` | src/components/CostAndPricing/PricingTab/TotalsTable.jsx:79-94 | the contribution section for the current inputs; no target figures iff the percentage is 100 |
| `TotalsTable.ScenarioInputs.SetContributionPercent` | src/components/CostAndPricing/PricingTab/TotalsTable.jsx:86-91 | sets the percentage only; the manual and per-item figures are unchanged |
| `TotalsTable.ScenarioInputs.SetManualPrice` | src/components/CostAndPricing/PricingTab/TotalsTable.jsx:60-63 | sets the manual price only; the target and per-item figures are unchanged |
| `TotalsTable.ScenarioInputs.SetPricePerItem` | src/components/CostAndPricing/PricingTab/TotalsTable.jsx:66-69 | sets the price per item only; the target and manual figures are unchanged |
| `Footers.NumberFooter` | src/components/CostAndPricing/PricingTab/cells/footers.jsx:7-13 | renders nothing iff the total is absent or 0, otherwise the total |
| `Footers.CurrencyFooter` | src/components/CostAndPricing/PricingTab/cells/footers.jsx:18-24 | renders nothing iff the total is absent or 0, otherwise the total as currency |
| `Footers.FooterFormat` | src/components/CostAndPricing/PricingTab/cells/footers.jsx:31 | the format is the column's `footerContribFormat`, or `'number'` when there is none |
| `Footers.Divisor` | src/components/CostAndPricing/PricingTab/cells/footers.jsx:30-34 | a missing or empty divisor id, or one with no aggregate, gives 0; otherwise the divisor column's aggregate |
| `Footers.ContributionFooter` | src/components/CostAndPricing/PricingTab/cells/footers.jsx:29-38 | always rendered in the column's format; 0 when the divisor is 0, otherwise the value that times the divisor gives the contribution (0 when absent) |
| `Footers.MissingDivisorShowsZero` | src/components/CostAndPricing/PricingTab/cells/footers.jsx:30-35 | no divisor id, or no aggregate for it, shows 0 |
| `Footers.MissingContributionShowsZero` | src/components/CostAndPricing/PricingTab/cells/footers.jsx:33-35 | no contribution aggregate shows 0 |
| `Footers.FooterAgreesWithPerHour` | src/components/CostAndPricing/PricingTab/cells/footers.jsx:29-38 | a contribution footer dividing by the hours equals the totals table's per-hour figure, and shows 0 where that figure does not exist |

## Findings

| source | as written | input that shows it | evidently intended | confidence | as-written member | corrected member |
|---|---|---|---|---|---|---|
| src/components/CostAndPricing/PricingTab/TotalsTable.jsx:41-43 | the cost-total rows are taken from the first product's costs only | products with costs [a] and [b]: `dynamic-cost-b` is a column but has no row | one row per dynamic column, i.e. per cost name of any product, as `PricingTable.jsx:49-51` now derives them; the comment at `PricingTable.jsx:34-35` still describes the first-product scheme | medium; not executed | `TotalsTable.LaterOnlyCostHasNoTotalsRow` | `TotalsTable.CostTotalRowsCoverEveryCost` |

## Left out

- `TotalsTable.DynamicCostIds`: requires a non-empty product list, so the `TypeError` that `quote.products[0].costs` (`TotalsTable.jsx:41`) raises on a quote without products is not modelled.
- `TotalsTable.TotalsRowShowsColumnTotal`: requires the column ids to be unique, which tanstack-table assumes of its column definitions; the source does not check it.
- Rendering (MUI tables, `Input`, `flexRender`, `safeFlexRender`, `TotalsTableRow`, `getFooter` layout) and React caching (`useMemo`, `useCallback`): presentation. `getFooter`'s lookup by id is kept as `GetColumn`.
- tanstack-table internals (`useReactTable`, `getCoreRowModel`, `getAggregationFn`, `getFooterGroups`): library code. The `'sum'` aggregation is modelled as `ColumnTotal`, a left fold from 0 in which a non-number adds 0.
- `./columns` (`consistentColumns`, `addDynamicCostColumn`, `calculatedCosts`, `estimatedHoursColumn`, `contributionColumns`) and `./cells` are not part of this model. The static columns are parameters of `AllColumns`. The totals `totalVariableCosts` and `estimated_hours` enter the scenario functions as numbers.
- `aggregate` from `../utils` is not part of this model. `ContributionFooter` reads aggregates from a map from column id to total, where a missing id means undefined.
- `toLocaleString`, `toFixed` and `NumberFormatter`: locale-dependent text. A footer's output is the value and the format variant handed to the formatter.
- `Number(e.target.value)` parsing of the inputs: the setters take the parsed number.
- IEEE floating point, `Infinity` and `NaN`: arithmetic is over reals. The unguarded divisions give `None`. A `NaN` total is not modelled as falsy in `NumberFooter`/`CurrencyFooter`.
- The dynamic column's `cell` component (`DynamicCostCell`) and the editing of a quote through `setQuote`: unseen code and UI.
- The archived-users table and dialog, the request validator declaration and the type-only prop declarations: outside the pricing engine.
