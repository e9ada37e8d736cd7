/** The footer cells of the pricing table: a plain number, a currency amount,
    and the contribution ratio `contribution / divisor` guarded against a zero
    divisor. */
module Footers {
  import opened Wrappers
  import opened QuoteModel
  import opened TotalsTable

  /** What a footer renders: nothing (`null`), or a value handed to the number
      formatter together with its variant (`None`: the formatter's default). */
  datatype FooterView = Blank | Formatted(value: real, variant: Option<string>)

  /** `NumberFooter`: the column's aggregated total, or nothing when the
      column has no aggregation (`aggregate?.`) or the total is 0. */
  function NumberFooter(total: Option<real>): (v: FooterView)
    ensures v.Blank? <==> total.None? || total.value == 0.0
    ensures v.Formatted? ==> v == Formatted(total.value, None)
  {
    if total.Some? && total.value != 0.0 then Formatted(total.value, None) else Blank
  }

  /** `CurrencyFooter`: as `NumberFooter`, formatted as currency. */
  function CurrencyFooter(total: Option<real>): (v: FooterView)
    ensures v.Blank? <==> total.None? || total.value == 0.0
    ensures v.Formatted? ==> v == Formatted(total.value, Some("currency"))
  {
    if total.Some? && total.value != 0.0 then Formatted(total.value, Some("currency")) else Blank
  }

  /** The aggregated footer value of each column id known to the table; an id
      that is not there aggregates to undefined. */
  type Aggregates = map<string, real>

  function Aggregate(aggregates: Aggregates, id: string): Option<real> {
    if id in aggregates then Some(aggregates[id]) else None
  }

  /** The column whose total is the contribution in dollars. */
  const ContributionDollarsId: string := "contributionDollars"

  /** `meta?.footerContribDivisor`. */
  function DivisorId(column: ColumnDef): Option<string> {
    if column.meta.Some? then column.meta.value.footerContribDivisor else None
  }

  /** `meta?.footerContribFormat ?? 'number'`. */
  function FooterFormat(column: ColumnDef): (format: string)
    ensures column.meta.None? || column.meta.value.footerContribFormat.None? ==> format == "number"
    ensures column.meta.Some? && column.meta.value.footerContribFormat.Some? ==>
              format == column.meta.value.footerContribFormat.value
  {
    (if column.meta.Some? then column.meta.value.footerContribFormat else None).GetOr("number")
  }

  /** `(divisorId ? aggregate(table, divisorId) : null) ?? 0`: an absent or
      empty divisor id, or one without an aggregate, gives 0. */
  function Divisor(column: ColumnDef, aggregates: Aggregates): (d: real)
    ensures DivisorId(column).None? || DivisorId(column).value == "" ==> d == 0.0
    ensures DivisorId(column).Some? && DivisorId(column).value !in aggregates ==> d == 0.0
    ensures DivisorId(column).Some? && DivisorId(column).value != "" && DivisorId(column).value in aggregates ==>
              d == aggregates[DivisorId(column).value]
  {
    var id := DivisorId(column);
    (if id.Some? && id.value != "" then Aggregate(aggregates, id.value) else None).GetOr(0.0)
  }

  /** `ContributionFooter`: the contribution total (0 when absent) over the
      divisor column's total, and 0 when that divisor is 0; always rendered,
      in the column's format. */
  function ContributionFooter(column: ColumnDef, aggregates: Aggregates): (v: FooterView)
    ensures v.Formatted? && v.variant == Some(FooterFormat(column))
    ensures Divisor(column, aggregates) == 0.0 ==> v.value == 0.0
    ensures Divisor(column, aggregates) != 0.0 ==>
              v.value * Divisor(column, aggregates) == Aggregate(aggregates, ContributionDollarsId).GetOr(0.0)
  {
    var contribution := Aggregate(aggregates, ContributionDollarsId).GetOr(0.0);
    var divisor := Divisor(column, aggregates);
    Formatted(if divisor == 0.0 then 0.0 else contribution / divisor, Some(FooterFormat(column)))
  }

  /** A column without a divisor id, or whose divisor has no aggregate,
      shows 0 whatever the contribution. */
  lemma MissingDivisorShowsZero(column: ColumnDef, aggregates: Aggregates)
    requires DivisorId(column).None? || DivisorId(column).value !in aggregates
    ensures ContributionFooter(column, aggregates).value == 0.0
  {
  }

  /** With no contribution aggregate, the footer shows 0 whatever the divisor. */
  lemma MissingContributionShowsZero(column: ColumnDef, aggregates: Aggregates)
    requires ContributionDollarsId !in aggregates
    ensures ContributionFooter(column, aggregates).value == 0.0
  {
  }

  /** The contribution footer whose divisor column holds the estimated hours
      agrees with the totals table's contribution per hour for the same
      contribution, and shows 0 where the totals table has no figure. */
  lemma FooterAgreesWithPerHour(column: ColumnDef, aggregates: Aggregates,
                                price: real, totalVariableCosts: real, estimatedTotalHours: real)
    requires DivisorId(column).Some? && DivisorId(column).value != ""
    requires DivisorId(column).value != ContributionDollarsId
    requires aggregates == map[DivisorId(column).value := estimatedTotalHours,
                               ContributionDollarsId := price - totalVariableCosts]
    ensures var f := ScenarioFigures(price, totalVariableCosts, estimatedTotalHours);
            ContributionFooter(column, aggregates).value == f.perHour.GetOr(0.0)
  {
    var f := ScenarioFigures(price, totalVariableCosts, estimatedTotalHours);
    var v := ContributionFooter(column, aggregates).value;
    if estimatedTotalHours != 0.0 {
      assert v * estimatedTotalHours == f.perHour.value * estimatedTotalHours;
    }
  }
}
