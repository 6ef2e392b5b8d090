/** The widget's selection state and the event handlers that change it (script.js:17-21,
    89-145, 301-381). The page elements the handlers write are kept as fields too: the
    number box and the slider (by the number they hold) and the price on display (in
    cents, shown as dollars with two decimals). */
module Widget {

  import opened Wrappers
  import opened Catalog
  import opened Engine

  const MinUsers: int := 1
  const MaxUsers: int := 5

  /** The user count the number box settles on (script.js:323-330): a value that is not a
      number or is below the range becomes 1, one above it becomes 5, and any other is
      kept. */
  function ClampNumberInput(parsed: Option<int>): (n: int)
    ensures MinUsers <= n <= MaxUsers
    ensures n == (if parsed.Some? then parsed.value else 0) <==> parsed.Some? && MinUsers <= parsed.value <= MaxUsers
    ensures (parsed.None? || parsed.value < MinUsers) ==> n == MinUsers
    ensures parsed.Some? && parsed.value > MaxUsers ==> n == MaxUsers
  {
    if parsed.None? || parsed.value < MinUsers then MinUsers
    else if parsed.value > MaxUsers then MaxUsers
    else parsed.value
  }

  /** Entering the settled value again changes nothing. */
  lemma ClampIsIdempotent(parsed: Option<int>)
    ensures ClampNumberInput(Some(ClampNumberInput(parsed))) == ClampNumberInput(parsed)
  {
  }

  class PricingWidget {
    var selectedProduct: Option<Product>
    var selectedDurationMonths: Option<int>
    var numUsers: int
    var selectedAddOns: set<string>

    /** The number in the number box, the slider's position and the price on display. */
    var numberBox: int
    var slider: int
    var displayedPrice: int

    /** The selection the price is computed from. */
    function Current(): Selection
      reads this
    {
      Selection(selectedProduct, selectedDurationMonths, numUsers, selectedAddOns)
    }

    /** The state every handler keeps: a supported duration if any, the count in [1,5],
        number box and slider showing that count, only add-ons the chosen product offers,
        and the display showing the current total. */
    ghost predicate Valid()
      reads this
    {
      && Priceable(Current())
      && MinUsers <= numUsers <= MaxUsers
      && numberBox == numUsers && slider == numUsers
      && selectedAddOns <= OfferedIds(selectedProduct)
      && displayedPrice == Total(Current())
    }

    /** The page as loaded (script.js:17-21, 371-373): nothing chosen, the count read from
        the number box, which starts at the same value as the slider, and $0.00 shown. */
    constructor (initialUsers: int)
      requires MinUsers <= initialUsers <= MaxUsers
      ensures Valid()
      ensures selectedProduct == None && selectedDurationMonths == None
      ensures numUsers == initialUsers && selectedAddOns == {}
      ensures displayedPrice == 0
    {
      selectedProduct := None;
      selectedDurationMonths := None;
      numUsers := initialUsers;
      selectedAddOns := {};
      numberBox := initialUsers;
      slider := initialUsers;
      displayedPrice := 0;
    }

    /** `calculatePrice` as the page runs it: compute the total and show it. */
    method CalculatePrice() returns (total: int)
      requires Priceable(Current())
      modifies this`displayedPrice
      ensures total == Total(Current()) && displayedPrice == total
    {
      total := Total(Current());
      displayedPrice := total;
    }

    /** `renderAddOns` (script.js:90-107): drop every selected add-on, show the new price
        and return the add-ons offered as checkboxes for the chosen product. */
    method RenderAddOns() returns (offered: seq<AddOn>)
      requires Priceable(Current())
      modifies this`selectedAddOns, this`displayedPrice
      ensures selectedAddOns == {}
      ensures displayedPrice == Total(Current())
      ensures offered == if selectedProduct.None? then [] else Pricing(selectedProduct.value).addOns
    {
      selectedAddOns := {};
      var _ := CalculatePrice();
      offered := if selectedProduct.None? then [] else Pricing(selectedProduct.value).addOns;
    }

    /** A click on a product button (script.js:302-310): the product changes and the
        add-ons are cleared; duration and user count stay. */
    method ChooseProduct(p: Product)
      requires Valid()
      modifies this
      ensures Valid()
      ensures selectedProduct == Some(p) && selectedAddOns == {}
      ensures selectedDurationMonths == old(selectedDurationMonths) && numUsers == old(numUsers)
    {
      selectedProduct := Some(p);
      var _ := RenderAddOns();
      var _ := CalculatePrice();
    }

    /** A click on a duration button (script.js:312-320): the duration changes and, since
        the add-ons are rendered again, they are cleared too. */
    method ChooseDuration(months: int)
      requires Valid() && IsDuration(months)
      modifies this
      ensures Valid()
      ensures selectedDurationMonths == Some(months) && selectedAddOns == {}
      ensures selectedProduct == old(selectedProduct) && numUsers == old(numUsers)
    {
      selectedDurationMonths := Some(months);
      var _ := RenderAddOns();
      var _ := CalculatePrice();
    }

    /** A change of one add-on checkbox (script.js:134-143). Checkboxes exist only for
        the add-ons of the chosen product. Only that id is added or removed. */
    method ToggleAddOn(id: string, checked: bool)
      requires Valid() && id in OfferedIds(selectedProduct)
      modifies this`selectedAddOns, this`displayedPrice
      ensures Valid()
      ensures selectedAddOns == if checked then old(selectedAddOns) + {id} else old(selectedAddOns) - {id}
    {
      if checked {
        selectedAddOns := selectedAddOns + {id};
      } else {
        selectedAddOns := selectedAddOns - {id};
      }
      var _ := CalculatePrice();
    }

    /** Typing in the number box (script.js:322-334); `parsed` is what `parseInt` makes of
        the text, None for NaN. The count is clamped and the slider follows it. */
    method NumberInput(parsed: Option<int>)
      requires Valid()
      modifies this`numUsers, this`numberBox, this`slider, this`displayedPrice
      ensures Valid()
      ensures numUsers == ClampNumberInput(parsed)
    {
      numUsers := if parsed.None? then 0 else parsed.value;
      if parsed.None? || numUsers < MinUsers {
        numUsers := MinUsers;
      } else if numUsers > MaxUsers {
        numUsers := MaxUsers;
      }
      // when the value is kept the box already holds it; otherwise it is overwritten
      numberBox := numUsers;
      slider := numUsers;
      var _ := CalculatePrice();
    }

    /** Dragging the slider (script.js:336-341); the slider's own bounds keep its value
        in [1,5]. The number box follows it. */
    method SliderInput(value: int)
      requires Valid() && MinUsers <= value <= MaxUsers
      modifies this`numUsers, this`numberBox, this`slider, this`displayedPrice
      ensures Valid()
      ensures numUsers == value
    {
      slider := value;
      numUsers := value;
      numberBox := numUsers;
      var _ := CalculatePrice();
    }

    /** The minus button (script.js:343-351): one user fewer, unless there is only one. */
    method Decrement()
      requires Valid()
      modifies this`numUsers, this`numberBox, this`slider, this`displayedPrice
      ensures Valid()
      ensures numUsers == if old(numUsers) > MinUsers then old(numUsers) - 1 else old(numUsers)
      ensures old(numUsers) == MinUsers ==> unchanged(this)
    {
      if numUsers > MinUsers {
        numUsers := numUsers - 1;
        numberBox := numUsers;
        slider := numUsers;
        var _ := CalculatePrice();
      }
    }

    /** The plus button (script.js:353-361): one user more, unless there are five. */
    method Increment()
      requires Valid()
      modifies this`numUsers, this`numberBox, this`slider, this`displayedPrice
      ensures Valid()
      ensures numUsers == if old(numUsers) < MaxUsers then old(numUsers) + 1 else old(numUsers)
      ensures old(numUsers) == MaxUsers ==> unchanged(this)
    {
      if numUsers < MaxUsers {
        numUsers := numUsers + 1;
        numberBox := numUsers;
        slider := numUsers;
        var _ := CalculatePrice();
      }
    }

    /** The default clicks at start-up (script.js:376-381): the first product button (A)
        and the first duration button (1 month) are clicked when nothing is chosen yet. */
    method SelectDefaults()
      requires Valid()
      modifies this
      ensures Valid()
      ensures selectedProduct == if old(selectedProduct).None? then Some(A) else old(selectedProduct)
      ensures selectedDurationMonths == if old(selectedDurationMonths).None? then Some(1) else old(selectedDurationMonths)
      ensures numUsers == old(numUsers)
      ensures old(selectedProduct).None? || old(selectedDurationMonths).None? ==> selectedAddOns == {}
      ensures old(selectedProduct).Some? && old(selectedDurationMonths).Some? ==> selectedAddOns == old(selectedAddOns)
    {
      if selectedProduct.None? {
        ChooseProduct(A);
      }
      if selectedDurationMonths.None? {
        ChooseDuration(1);
      }
    }
  }

  /** A session with the widget: the defaults, then the plus button twice. */
  method SessionWithDefaults()
  {
    var w := new PricingWidget(1);
    w.SelectDefaults();
    assert w.displayedPrice == 900;
    w.Increment();
    w.Increment();
    assert w.displayedPrice == 1500;
  }

  /** A session with the widget: out-of-range and non-numeric entries in the number box. */
  method SessionWithClamping()
  {
    var w := new PricingWidget(3);
    w.NumberInput(Some(99));
    assert w.numUsers == 5 && w.slider == 5;
    w.Increment();
    assert w.numUsers == 5;
    w.NumberInput(None);
    assert w.numUsers == 1 && w.numberBox == 1;
  }

  /** A session with the widget: an add-on on A, then a switch to C. */
  method SessionWithAddOn()
  {
    var w := new PricingWidget(1);
    w.ChooseProduct(A);
    w.ChooseDuration(1);
    assert Pricing(A).addOns[0].id == "a_addon1";
    w.ToggleAddOn("a_addon1", true);
    assert w.displayedPrice == 950;
    w.ChooseProduct(C);
    assert w.selectedAddOns == {} && w.displayedPrice == 1700;
  }

  /** A session with the widget: the default clicks change nothing once both choices are made. */
  method SessionDefaultsKeepChoices()
  {
    var w := new PricingWidget(2);
    w.ChooseProduct(B);
    w.ChooseDuration(3);
    assert Pricing(B).addOns[0].id == "common_addon1";
    w.ToggleAddOn("common_addon1", true);
    w.SelectDefaults();
    assert w.selectedProduct == Some(B) && w.selectedDurationMonths == Some(3);
    assert w.selectedAddOns == {"common_addon1"};
  }
}
