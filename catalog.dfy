/** The static pricing catalog of the widget (script.js:23-74).
    All money is held in integer cents: $9 is 900, $2.50 is 250. */
module Catalog {

  import opened Wrappers

  /** The products a customer can choose. C is composite: it is priced as A and B together. */
  datatype Product = A | B | C

  /** An add-on offered as a checkbox; the id goes into the selection, the name is shown. */
  datatype AddOn = AddOn(id: string, name: string)

  /** One entry of the pricing table. Both maps are keyed by the duration in months:
      basePrices is the total for one user over the whole duration, and
      additionalUserCostPerDuration is the flat price of each further user over the
      whole duration. */
  datatype Tier = Tier(basePrices: map<int, int>, additionalUserCostPerDuration: map<int, int>,
                       addOns: seq<AddOn>)

  /** Every add-on costs 50 cents per user per month. */
  const AddOnCostPerUserPerMonth: int := 50

  /** The supported subscription lengths, in months, in the order the price list shows them. */
  const Durations: seq<int> := [1, 3, 6, 12]

  predicate IsDuration(months: int) {
    months in Durations
  }

  /** The products in the order the price list shows them. */
  const Products: seq<Product> := [A, B, C]

  /** The pricing table. B's add-on list is the two entries written at script.js:65-66
      (lines 63-64 repeat the opening `addOns: [`, which does not parse). C has no price
      tables of its own and no add-ons. */
  function Pricing(p: Product): (t: Tier)
    ensures p == C ==> t.basePrices == map[] && t.additionalUserCostPerDuration == map[] && t.addOns == []
    ensures p != C ==> forall m :: m in t.basePrices <==> IsDuration(m)
    ensures p != C ==> forall m :: m in t.additionalUserCostPerDuration <==> IsDuration(m)
    ensures p != C ==> |t.addOns| > 0
  {
    match p
    case A =>
      Tier(map[1 := 900, 3 := 2400, 6 := 4500, 12 := 8400],
           map[1 := 300, 3 := 800, 6 := 1500, 12 := 3000],
           [AddOn("a_addon1", "Adult"), AddOn("common_addon1", "24/7"), AddOn("common_addon2", "Low BW")])
    case B =>
      Tier(map[1 := 800, 3 := 2100, 6 := 3900, 12 := 7200],
           map[1 := 250, 3 := 1000, 6 := 1500, 12 := 3000],
           [AddOn("common_addon1", "24/7"), AddOn("common_addon2", "Adult")])
    case C =>
      Tier(map[], map[], [])
  }

  /** The ids of the add-ons a product offers; none while no product is chosen. */
  function OfferedIds(p: Option<Product>): (ids: set<string>)
    ensures p.None? ==> ids == {}
    ensures p.Some? ==> forall i :: 0 <= i < |Pricing(p.value).addOns| ==> Pricing(p.value).addOns[i].id in ids
    ensures p.Some? ==> |ids| <= |Pricing(p.value).addOns|
  {
    if p.None? then {} else IdsOf(Pricing(p.value).addOns)
  }

  /** The offered ids are exactly the ids of the product's add-ons: no others. */
  lemma OfferedIdsAreExact(p: Product)
    ensures forall id :: id in OfferedIds(Some(p)) <==>
      exists i :: 0 <= i < |Pricing(p).addOns| && Pricing(p).addOns[i].id == id
  {
  }

  /** The ids occurring in a list of add-ons. */
  function IdsOf(addOns: seq<AddOn>): (ids: set<string>)
    ensures forall i :: 0 <= i < |addOns| ==> addOns[i].id in ids
    ensures forall id :: id in ids ==> exists i :: 0 <= i < |addOns| && addOns[i].id == id
    ensures |ids| <= |addOns|
  {
    if addOns == [] then {}
    else
      var rest := IdsOf(addOns[1..]);
      assert forall i :: 1 <= i < |addOns| ==> addOns[i] == addOns[1..][i - 1];
      rest + {addOns[0].id}
  }

  /** The price of one user for the whole duration (script.js:158-171): looked up for
      A and B, the sum of A's and B's for C. */
  function BasePrice(p: Product, months: int): (cents: int)
    requires IsDuration(months)
    ensures cents > 0
  {
    if p == C then Pricing(A).basePrices[months] + Pricing(B).basePrices[months]
    else Pricing(p).basePrices[months]
  }

  /** The flat price of each user beyond the first for the whole duration
      (script.js:164-170): looked up for A and B, the sum of A's and B's for C. */
  function AdditionalUserPrice(p: Product, months: int): (cents: int)
    requires IsDuration(months)
    ensures cents > 0
  {
    if p == C then Pricing(A).additionalUserCostPerDuration[months] + Pricing(B).additionalUserCostPerDuration[months]
    else Pricing(p).additionalUserCostPerDuration[months]
  }

  /** C's prices are the sums of A's and B's at the same duration. */
  lemma CompositePricesAreSums(months: int)
    requires IsDuration(months)
    ensures BasePrice(C, months) == BasePrice(A, months) + BasePrice(B, months)
    ensures AdditionalUserPrice(C, months) == AdditionalUserPrice(A, months) + AdditionalUserPrice(B, months)
  {
  }
}
