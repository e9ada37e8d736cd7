/** The quote being priced: products, each with its own named cost line items. */
module QuoteModel {
  import opened Wrappers

  /** One named cost of one product; the value may be negative (a credit). */
  datatype Cost = Cost(name: string, value: real)

  /** One priced line item of a quote. */
  datatype Product = Product(name: string, costs: seq<Cost>, estimatedHours: real)

  /** The names of a product's costs, in the order the product lists them
      (`product.costs.map((cost) => cost.name)`). */
  function CostNames(costs: seq<Cost>): (r: seq<string>)
    ensures |r| == |costs|
    ensures forall j :: 0 <= j < |costs| ==> r[j] == costs[j].name
  {
    if costs == [] then [] else [costs[0].name] + CostNames(costs[1..])
  }

  /** No value occurs twice. */
  ghost predicate Distinct<T>(s: seq<T>) {
    forall i, j :: 0 <= i < j < |s| ==> s[i] != s[j]
  }

  /** How a column's footer total is formed: tanstack's `'sum'`, or none at
      all (the footer's `aggregate?.` then gives undefined). */
  datatype Aggregation = Sum | NoAggregation

  /** The `meta` object of a column definition. */
  datatype ColumnMeta = ColumnMeta(
    costName: Option<string>,
    footerContribDivisor: Option<string>,
    footerContribFormat: Option<string>)

  /** A column of the pricing table. A dynamic cost column reads its value
      through the cost name recorded in `meta.costName`. */
  datatype ColumnDef = ColumnDef(
    id: string,
    header: string,
    aggregation: Aggregation,
    meta: Option<ColumnMeta>)
}
