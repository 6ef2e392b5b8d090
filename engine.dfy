/** The price computation of the widget, `calculatePrice` (script.js:148-191), as a pure
    function of an explicit selection. Amounts are integer cents. */
module Engine {

  import opened Wrappers
  import opened Catalog

  /** What the customer has chosen: the four state variables of script.js:18-21. */
  datatype Selection = Selection(product: Option<Product>, months: Option<int>, users: int,
                                 addOns: set<string>)

  /** A chosen duration is one the catalog prices (an unsupported one would look up
      `undefined` in the tables). */
  predicate Priceable(s: Selection) {
    s.months.Some? ==> IsDuration(s.months.value)
  }

  /** The selection is far enough along to be priced (script.js:149). */
  predicate Complete(s: Selection) {
    s.product.Some? && s.months.Some? && s.users >= 1
  }

  /** The cost of the users beyond the first (script.js:174-178). */
  function AdditionalUsersCost(p: Product, months: int, users: int): (cents: int)
    requires IsDuration(months)
    ensures users <= 1 ==> cents == 0
    ensures users > 1 ==> cents >= AdditionalUserPrice(p, months)
  {
    if users > 1 then (users - 1) * AdditionalUserPrice(p, months) else 0
  }

  /** The cost of the chosen add-ons (script.js:181-185): each one is charged for every
      user and every month, and never on C. */
  function AddOnsCost(p: Product, months: int, users: int, count: nat): (cents: int)
    requires IsDuration(months) && users >= 1
    ensures cents >= 0
    ensures cents == 0 <==> count == 0 || p == C
  {
    if count > 0 && p != C then count * AddOnCostPerUserPerMonth * users * months else 0
  }

  /** The total, in cents, that `calculatePrice` returns and shows. */
  function Total(s: Selection): (cents: int)
    requires Priceable(s)
    ensures cents >= 0
    ensures cents == 0 <==> !Complete(s)
    ensures Complete(s) ==> cents >= BasePrice(s.product.value, s.months.value)
  {
    if !Complete(s) then 0
    else
      var p, m, n := s.product.value, s.months.value, s.users;
      BasePrice(p, m) + AdditionalUsersCost(p, m, n) + AddOnsCost(p, m, n, |s.addOns|)
  }

  /** The surcharge each user pays for `count` add-ons over the whole duration. */
  function AddOnsPerUser(p: Product, months: int, count: nat): int {
    if p == C then 0 else count * AddOnCostPerUserPerMonth * months
  }

  /** Reference definition, user by user: the first user pays the base price, every further
      user the flat additional-user price, and every user pays the add-on surcharge. */
  function RunningTotal(p: Product, months: int, count: nat, users: nat): int
    requires IsDuration(months)
  {
    if users == 0 then 0
    else RunningTotal(p, months, count, users - 1) + UserCharge(p, months, count, users)
  }

  /** What the i-th user (counting from 1) adds to the total. */
  function UserCharge(p: Product, months: int, count: nat, i: nat): int
    requires IsDuration(months)
  {
    (if i == 1 then BasePrice(p, months) else AdditionalUserPrice(p, months)) + AddOnsPerUser(p, months, count)
  }

  /** A lone user with no add-ons pays exactly the catalog's one-user price; for C that is
      A's plus B's. */
  lemma SingleUserPaysBasePrice(p: Product, months: int)
    requires IsDuration(months)
    ensures Total(Selection(Some(p), Some(months), 1, {})) == BasePrice(p, months)
  {
  }

  /** One more user adds the flat additional-user price for the whole duration, plus that
      user's add-on surcharge; the increment does not depend on how many users there are. */
  lemma OneMoreUser(p: Product, months: int, users: int, addOns: set<string>)
    requires IsDuration(months) && users >= 1
    ensures Total(Selection(Some(p), Some(months), users + 1, addOns))
         == Total(Selection(Some(p), Some(months), users, addOns))
            + AdditionalUserPrice(p, months) + AddOnsPerUser(p, months, |addOns|)
  {
  }

  /** With no add-ons, each extra user costs the same flat amount. */
  lemma ExtraUserIsFlat(p: Product, months: int, users: int)
    requires IsDuration(months) && users > 1
    ensures Total(Selection(Some(p), Some(months), users, {}))
          - Total(Selection(Some(p), Some(months), users - 1, {}))
         == AdditionalUserPrice(p, months)
  {
    OneMoreUser(p, months, users - 1, {});
  }

  /** The engine agrees with the user-by-user reference definition. */
  lemma {:induction false} TotalIsRunningTotal(p: Product, months: int, users: nat, addOns: set<string>)
    requires IsDuration(months) && users >= 1
    ensures Total(Selection(Some(p), Some(months), users, addOns)) == RunningTotal(p, months, |addOns|, users)
  {
    if users == 1 {
      assert RunningTotal(p, months, |addOns|, 0) == 0;
      assert AddOnsCost(p, months, 1, |addOns|) == AddOnsPerUser(p, months, |addOns|);
    } else {
      TotalIsRunningTotal(p, months, users - 1, addOns);
      OneMoreUser(p, months, users - 1, addOns);
    }
  }

  /** Choosing k add-ons on A or B adds exactly k x 50 cents x users x months. */
  lemma AddOnsAreLinear(p: Product, months: int, users: int, addOns: set<string>)
    requires IsDuration(months) && users >= 1 && p != C
    ensures Total(Selection(Some(p), Some(months), users, addOns))
         == Total(Selection(Some(p), Some(months), users, {}))
            + |addOns| * AddOnCostPerUserPerMonth * users * months
  {
  }

  /** C is priced as A plus B for the same duration and user count, with add-ons ignored. */
  lemma CompositeIsSumOfParts(months: int, users: int, addOns: set<string>)
    requires IsDuration(months)
    ensures Total(Selection(Some(C), Some(months), users, addOns))
         == Total(Selection(Some(A), Some(months), users, {})) + Total(Selection(Some(B), Some(months), users, {}))
  {
  }

  /** More users never cost less. */
  lemma {:induction false} MoreUsersNeverCheaper(s: Selection, more: int)
    requires Priceable(s) && s.users <= more
    ensures Total(s) <= Total(s.(users := more))
    decreases more - s.users
  {
    if s.users < more {
      MoreUsersNeverCheaper(s, more - 1);
      var fewer := s.(users := more - 1);
      if Complete(fewer) {
        OneMoreUser(s.product.value, s.months.value, more - 1, s.addOns);
        assert fewer.(users := more) == s.(users := more);
      }
    }
  }

  /** Choosing more add-ons never costs less. */
  lemma MoreAddOnsNeverCheaper(s: Selection, more: set<string>)
    requires Priceable(s) && s.addOns <= more
    ensures Total(s) <= Total(s.(addOns := more))
  {
    SubsetIsSmaller(s.addOns, more);
    if Complete(s) && s.product.value != C {
      var p, m, n := s.product.value, s.months.value, s.users;
      AddOnsAreLinear(p, m, n, s.addOns);
      AddOnsAreLinear(p, m, n, more);
      AddOnsCostGrows(|s.addOns|, |more|, n, m);
    }
  }

  lemma SubsetIsSmaller(small: set<string>, big: set<string>)
    requires small <= big
    ensures |small| <= |big|
  {
    assert big == small + (big - small);
  }

  lemma AddOnsCostGrows(k0: nat, k1: nat, users: int, months: int)
    requires k0 <= k1 && users >= 1 && months >= 1
    ensures k0 * AddOnCostPerUserPerMonth * users * months <= k1 * AddOnCostPerUserPerMonth * users * months
  {
    var u := AddOnCostPerUserPerMonth * users * months;
    assert k0 * u <= k1 * u;
  }

  /** Worked examples. */
  lemma Examples()
    ensures Total(Selection(Some(A), Some(1), 1, {})) == 900
    ensures Total(Selection(Some(A), Some(1), 3, {})) == 1500
    ensures Total(Selection(Some(A), Some(1), 1, {"a_addon1"})) == 950
    ensures Total(Selection(Some(C), Some(1), 1, {})) == 1700
    ensures Total(Selection(None, Some(1), 1, {})) == 0
  {
  }
}
