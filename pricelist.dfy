/** The full price list (`displayFullPricelist`, script.js:194-260): one row per duration
    and product, read straight from the pricing table. The HTML it is written into and the
    dollar formatting are not modelled; the rows carry the amounts in cents. */
module Pricelist {

  import opened Wrappers
  import opened Catalog
  import opened Engine

  /** A row of the list: the one-user price and the additional-user price for the whole
      duration, and the add-ons the product offers (shown as "None" when empty). */
  datatype Row = Row(product: Product, months: int, oneUserPrice: int, additionalUserCost: int,
                     addOns: seq<AddOn>)

  /** The row for one product and duration (script.js:227-247). It repeats the table
      lookups of the price computation on its own; its contract says that it agrees with
      the price the engine charges for one and for two users with no add-ons. */
  function RowFor(p: Product, months: int): (r: Row)
    requires IsDuration(months)
    ensures r.product == p && r.months == months && r.addOns == Pricing(p).addOns
    ensures r.oneUserPrice == Total(Selection(Some(p), Some(months), 1, {}))
    ensures r.additionalUserCost == Total(Selection(Some(p), Some(months), 2, {}))
                                  - Total(Selection(Some(p), Some(months), 1, {}))
  {
    var t := Pricing(p);
    if p == C then
      Row(p, months,
          Pricing(A).basePrices[months] + Pricing(B).basePrices[months],
          Pricing(A).additionalUserCostPerDuration[months] + Pricing(B).additionalUserCostPerDuration[months],
          t.addOns)
    else
      Row(p, months, t.basePrices[months], t.additionalUserCostPerDuration[months], t.addOns)
  }

  /** All rows, durations in the outer loop and products in the inner one, as the nested
      `forEach` loops produce them (script.js:225-259). */
  method FullPricelist() returns (rows: seq<Row>)
    ensures |rows| == |Durations| * |Products|
    ensures forall i :: 0 <= i < |rows| ==> rows[i] == RowFor(Products[i % 3], Durations[i / 3])
  {
    rows := [];
    for d := 0 to |Durations|
      invariant |rows| == 3 * d
      invariant forall i :: 0 <= i < |rows| ==> rows[i] == RowFor(Products[i % 3], Durations[i / 3])
    {
      for k := 0 to |Products|
        invariant |rows| == 3 * d + k
        invariant forall i :: 0 <= i < |rows| ==> rows[i] == RowFor(Products[i % 3], Durations[i / 3])
      {
        rows := rows + [RowFor(Products[k], Durations[d])];
      }
    }
  }
}
