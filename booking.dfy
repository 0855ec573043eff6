/** The reservation view: a booking-info step (date, time slot, party size,
    contact) followed by an optional pre-order step (menu tabs, an item modal
    with modifiers, the cart) and the submission of the whole reservation. */
module Booking {
  import opened Types
  import opened Constants
  import opened Cart

  datatype Step = Info | Ordering

  /** The weekday `Date.getDay()` returns for the restaurant's closing day. */
  const MONDAY: int := 1

  const MIN_PAX: int := 1
  const MAX_PAX: int := 10
  const INITIAL_PAX: int := 2

  /** The spice level the view starts with, before any item is opened. */
  const INITIAL_SPICE: string := "正常"

  const CLOSED_ON_MONDAY: string := "抱歉，餐廳每週一公休，請選擇其他日期。"
  const INCOMPLETE_INFO: string := "請填寫完整訂位資訊"
  const FAILED_PREFIX: string := "訂位失敗: "
  const NETWORK_ERROR: string := "網路錯誤，請稍後再試"

  /** The logged-in member, whose name and phone prefill the form. */
  datatype User = User(name: string, phone: string)

  /** The menu endpoint's reply. */
  datatype MenuResponse = MenuResponse(success: bool, data: Option<seq<MenuItem>>)

  /** How the reservation call ended: the backend accepted it, the backend
      refused it with a message, or the call itself threw. */
  datatype SubmitOutcome =
    | Success(reservationId: string, tableId: string)
    | Failure(error: string)
    | Exception

  /** The payload sent to the backend; `items` is the cart it serialises. */
  datatype ReservationRequest = ReservationRequest(
    name: string, phone: string, date: string, time: string, pax: int,
    items: seq<CartItem>, totalAmount: nat)

  /** How `handleAddToCart` ended. */
  datatype AddOutcome = NoItemOpen | DrinkRequired | Added

  // ---------------------------------------------------------------------
  // Party size
  // ---------------------------------------------------------------------

  function Max(a: int, b: int): int { if a < b then b else a }
  function Min(a: int, b: int): int { if a < b then a else b }

  /** The "-" button: one less, but never below one guest. */
  function PaxDown(pax: int): (r: int)
    ensures MIN_PAX <= r
    ensures pax <= MAX_PAX ==> r <= MAX_PAX
    ensures r == pax - 1 || (pax <= MIN_PAX && r == MIN_PAX)
  {
    Max(MIN_PAX, pax - 1)
  }

  /** The "+" button: one more, but never above ten guests. */
  function PaxUp(pax: int): (r: int)
    ensures r <= MAX_PAX
    ensures MIN_PAX <= pax ==> MIN_PAX <= r
    ensures r == pax + 1 || (MAX_PAX <= pax && r == MAX_PAX)
  {
    Min(MAX_PAX, pax + 1)
  }

  /** `n` presses of "-". */
  function PaxDownTimes(pax: int, n: nat): int {
    if n == 0 then pax else PaxDown(PaxDownTimes(pax, n - 1))
  }

  /** `n` presses of "+". */
  function PaxUpTimes(pax: int, n: nat): int {
    if n == 0 then pax else PaxUp(PaxUpTimes(pax, n - 1))
  }

  /** Pressing "-" n times from a valid size lands on the size minus n,
      clamped at one. */
  lemma {:induction false} PaxDownTimesClamps(pax: int, n: nat)
    requires MIN_PAX <= pax
    ensures PaxDownTimes(pax, n) == Max(MIN_PAX, pax - n)
  {
    if n > 0 {
      PaxDownTimesClamps(pax, n - 1);
    }
  }

  /** Pressing "+" n times from a valid size lands on the size plus n,
      clamped at ten. */
  lemma {:induction false} PaxUpTimesClamps(pax: int, n: nat)
    requires pax <= MAX_PAX
    ensures PaxUpTimes(pax, n) == Min(MAX_PAX, pax + n)
  {
    if n > 0 {
      PaxUpTimesClamps(pax, n - 1);
    }
  }

  /** From 2, five presses of "-" give 1; from 9, five presses of "+" give 10. */
  lemma PaxExamples()
    ensures PaxDownTimes(INITIAL_PAX, 5) == 1
    ensures PaxUpTimes(9, 5) == 10
  {
    PaxDownTimesClamps(INITIAL_PAX, 5);
    PaxUpTimesClamps(9, 5);
  }

  // ---------------------------------------------------------------------
  // The view's state
  // ---------------------------------------------------------------------

  /** `handleNextStep`'s gate: none of the four text fields is empty. */
  predicate BookingComplete(date: string, time: string, name: string, phone: string) {
    date != "" && time != "" && name != "" && phone != ""
  }

  /** Every state variable of the view, and the cart it edits. */
  datatype ViewState = ViewState(
    step: Step,
    date: string,
    time: string,
    pax: int,
    name: string,
    phone: string,
    isSubmitting: bool,
    error: string,
    menuItems: seq<MenuItem>,
    activeCategory: string,
    selectedItem: Option<MenuItem>,
    selectedNoodle: NoodleOption,
    selectedCombo: ComboOption,
    selectedDrink: string,
    spiceLevel: string,
    cart: seq<CartItem>)

  /** The error text on screen. Only the booking-info step renders `error`
      (under the date field while no date is set, and above the "next"
      button); the ordering step's markup has no place for it. */
  function ShownError(st: ViewState): string {
    if st.step == Info then st.error else ""
  }

  /** What the handlers keep true: the party size stays in 1..10; the
      ordering step is only reached with the booking info complete; the
      time, tab, noodle and combo come from their tables; while the modal is
      open the spice level is one of the four and an item that allows no
      combo has none; and every cart line is well formed. */
  predicate Inv(st: ViewState) {
    && MIN_PAX <= st.pax <= MAX_PAX
    && (st.step == Ordering ==> BookingComplete(st.date, st.time, st.name, st.phone))
    && (st.time == "" || st.time in TIME_SLOTS)
    && st.activeCategory in FOOD_CATEGORIES
    && st.selectedNoodle in NOODLE_OPTIONS
    && st.selectedCombo in COMBO_OPTIONS
    && (st.selectedItem.Some? ==>
          && st.spiceLevel in SPICE_LEVELS
          && (!st.selectedItem.value.allowCombo ==> st.selectedCombo.id == NO_COMBO))
    && WellFormedCart(st.cart)
  }

  class ReservationView {
    var step: Step
    var date: string
    var time: string
    var pax: int
    var name: string
    var phone: string
    var isSubmitting: bool
    var error: string
    var menuItems: seq<MenuItem>
    var activeCategory: string
    var selectedItem: Option<MenuItem>
    var selectedNoodle: NoodleOption
    var selectedCombo: ComboOption
    var selectedDrink: string
    var spiceLevel: string
    /** The cart is the app's; this view is the only one that changes it. */
    var cart: seq<CartItem>

    function State(): ViewState
      reads this
    {
      ViewState(step, date, time, pax, name, phone, isSubmitting, error,
                menuItems, activeCategory, selectedItem, selectedNoodle,
                selectedCombo, selectedDrink, spiceLevel, cart)
    }

    predicate Valid()
      reads this
    {
      Inv(State())
    }

    /** Mounting the view: the info step, no date or time, two guests, the
        member's name and phone (or empty), the first tab, the default
        modifiers, no menu yet and the app's cart. */
    constructor (user: Option<User>, appCart: seq<CartItem>)
      requires WellFormedCart(appCart)
      ensures Valid()
      ensures State() == ViewState(
        Info, "", "", INITIAL_PAX,
        if user.Some? then user.value.name else "",
        if user.Some? then user.value.phone else "",
        false, "", [], FOOD_CATEGORIES[0], None,
        NOODLE_OPTIONS[0], COMBO_OPTIONS[0], "", INITIAL_SPICE, appCart)
    {
      step := Info;
      date := "";
      time := "";
      pax := INITIAL_PAX;
      name := if user.Some? then user.value.name else "";
      phone := if user.Some? then user.value.phone else "";
      isSubmitting := false;
      error := "";
      menuItems := [];
      activeCategory := FOOD_CATEGORIES[0];
      selectedItem := None;
      selectedNoodle := NOODLE_OPTIONS[0];
      selectedCombo := COMBO_OPTIONS[0];
      selectedDrink := "";
      spiceLevel := INITIAL_SPICE;
      cart := appCart;
    }

    /** `loadMenu`: the menu on success, otherwise an empty one. */
    method LoadMenu(res: MenuResponse)
      requires Valid()
      modifies this
      ensures Valid()
      ensures State() == old(State()).(
        menuItems := if res.success && res.data.Some? then res.data.value else [])
    {
      if res.success && res.data.Some? {
        menuItems := res.data.value;
      } else {
        menuItems := [];
      }
    }

    // ----- booking-info step -----

    /** `handleDateChange`. `weekday` is what `getDay()` gives for the
        picked date, or `None` when the text is not a date. A Monday is
        refused: the date is cleared and the closing-day message shown. Any
        other input is stored and the error cleared. */
    method HandleDateChange(value: string, weekday: Option<int>)
      requires Valid() && step == Info
      requires weekday.Some? ==> 0 <= weekday.value <= 6
      modifies this
      ensures Valid()
      ensures weekday == Some(MONDAY) ==>
                State() == old(State()).(error := CLOSED_ON_MONDAY, date := "")
      ensures weekday != Some(MONDAY) ==>
                State() == old(State()).(error := "", date := value)
    {
      if weekday == Some(MONDAY) {
        error := CLOSED_ON_MONDAY;
        date := "";
      } else {
        error := "";
        date := value;
      }
    }

    /** A time-slot button. */
    method SelectTime(slot: string)
      requires Valid() && step == Info && slot in TIME_SLOTS
      modifies this
      ensures Valid()
      ensures State() == old(State()).(time := slot)
    {
      time := slot;
    }

    method SetName(value: string)
      requires Valid() && step == Info
      modifies this
      ensures Valid()
      ensures State() == old(State()).(name := value)
    {
      name := value;
    }

    method SetPhone(value: string)
      requires Valid() && step == Info
      modifies this
      ensures Valid()
      ensures State() == old(State()).(phone := value)
    {
      phone := value;
    }

    /** The "-" party-size button. */
    method DecrementPax()
      requires Valid() && step == Info
      modifies this
      ensures Valid()
      ensures State() == old(State()).(pax := PaxDown(old(pax)))
    {
      pax := PaxDown(pax);
    }

    /** The "+" party-size button. */
    method IncrementPax()
      requires Valid() && step == Info
      modifies this
      ensures Valid()
      ensures State() == old(State()).(pax := PaxUp(old(pax)))
    {
      pax := PaxUp(pax);
    }

    /** `handleNextStep`: on to ordering when date, time, name and phone are
        all filled in; otherwise stay with the "incomplete" message. */
    method HandleNextStep()
      requires Valid() && step == Info
      modifies this
      ensures Valid()
      ensures BookingComplete(old(date), old(time), old(name), old(phone)) ==>
                State() == old(State()).(step := Ordering)
      ensures !BookingComplete(old(date), old(time), old(name), old(phone)) ==>
                State() == old(State()).(error := INCOMPLETE_INFO)
    {
      if !BookingComplete(date, time, name, phone) {
        error := INCOMPLETE_INFO;
        return;
      }
      step := Ordering;
    }

    // ----- ordering step -----

    /** The "back to info" link. */
    method BackToInfo()
      requires Valid() && step == Ordering
      modifies this
      ensures Valid()
      ensures State() == old(State()).(step := Info)
    {
      step := Info;
    }

    /** A category tab. */
    method SelectCategory(category: string)
      requires Valid() && step == Ordering && category in FOOD_CATEGORIES
      modifies this
      ensures Valid()
      ensures State() == old(State()).(activeCategory := category)
    {
      activeCategory := category;
    }

    /** `openItemModal`: open the item with every modifier back at its
        default, whatever was chosen for the previous item. */
    method OpenItemModal(item: MenuItem)
      requires Valid() && step == Ordering
      requires item in menuItems
      modifies this
      ensures Valid()
      ensures State() == old(State()).(
        selectedItem := Some(item), selectedNoodle := NOODLE_OPTIONS[0],
        selectedCombo := COMBO_OPTIONS[0], selectedDrink := "",
        spiceLevel := SPICE_LEVELS[0])
    {
      ComboTable();
      selectedItem := Some(item);
      selectedNoodle := NOODLE_OPTIONS[0];
      selectedCombo := COMBO_OPTIONS[0];
      selectedDrink := "";
      spiceLevel := SPICE_LEVELS[0];
    }

    /** The modal's close button. */
    method CloseItemModal()
      requires Valid() && selectedItem.Some?
      modifies this
      ensures Valid()
      ensures State() == old(State()).(selectedItem := None)
    {
      selectedItem := None;
    }

    /** A noodle button, shown only for items with a noodle choice. */
    method SelectNoodle(option: NoodleOption)
      requires Valid() && selectedItem.Some? && selectedItem.value.hasNoodleSelection
      requires option in NOODLE_OPTIONS
      modifies this
      ensures Valid()
      ensures State() == old(State()).(selectedNoodle := option)
    {
      selectedNoodle := option;
    }

    /** A spice-level button. */
    method SelectSpice(level: string)
      requires Valid() && selectedItem.Some? && level in SPICE_LEVELS
      modifies this
      ensures Valid()
      ensures State() == old(State()).(spiceLevel := level)
    {
      spiceLevel := level;
    }

    /** A combo card, shown only for items that allow a combo. Going back to
        "none" keeps the drink picked before; it is ignored when adding. */
    method SelectCombo(option: ComboOption)
      requires Valid() && selectedItem.Some? && selectedItem.value.allowCombo
      requires option in COMBO_OPTIONS
      modifies this
      ensures Valid()
      ensures State() == old(State()).(selectedCombo := option)
    {
      selectedCombo := option;
    }

    /** A drink button, shown only once a combo other than "none" is chosen. */
    method SelectDrink(drink: MenuItem)
      requires Valid() && selectedItem.Some? && selectedCombo.id != NO_COMBO
      requires drink in Drinks(menuItems)
      modifies this
      ensures Valid()
      ensures State() == old(State()).(selectedDrink := drink.name)
    {
      selectedDrink := drink.name;
    }

    /** `handleAddToCart`, with `uniqueId` the id the new line gets. With no
        item open nothing happens; with a combo but no drink nothing happens
        and the modal stays open. Otherwise exactly one composed line is
        appended, the earlier lines stay as they were, the modal closes and
        the total grows by the amount the add button showed. */
    method HandleAddToCart(uniqueId: string) returns (outcome: AddOutcome)
      requires Valid()
      modifies this
      ensures Valid()
      ensures old(selectedItem).None? ==> outcome == NoItemOpen
      ensures old(selectedItem).Some? && old(selectedCombo).id != NO_COMBO && old(selectedDrink) == "" ==>
                outcome == DrinkRequired
      ensures outcome != Added ==> State() == old(State())
      ensures outcome == Added <==>
                old(selectedItem).Some? && (old(selectedCombo).id == NO_COMBO || old(selectedDrink) != "")
      ensures outcome == Added ==>
                State() == old(State()).(
                  cart := old(cart) + [ComposeLine(old(selectedItem).value, old(selectedNoodle),
                                                   old(selectedCombo), old(selectedDrink),
                                                   old(spiceLevel), uniqueId)],
                  selectedItem := None)
      ensures outcome == Added ==>
                Total(cart) == Total(old(cart)) +
                               AddLabel(old(selectedItem).value, old(selectedNoodle), old(selectedCombo))
    {
      if selectedItem.None? {
        return NoItemOpen;
      }
      if selectedCombo.id != NO_COMBO && selectedDrink == "" {
        return DrinkRequired;
      }
      var line := ComposeLine(selectedItem.value, selectedNoodle, selectedCombo,
                              selectedDrink, spiceLevel, uniqueId);
      ComposedLineWellFormed(selectedItem.value, selectedNoodle, selectedCombo,
                             selectedDrink, spiceLevel, uniqueId);
      WellFormedAppend(cart, line);
      TotalAppend(cart, line);
      cart := cart + [line];
      selectedItem := None;
      outcome := Added;
    }

    /** `removeCartItem`: drop every line carrying `uniqueId`. */
    method RemoveCartItem(uniqueId: string)
      requires Valid()
      modifies this
      ensures Valid()
      ensures State() == old(State()).(cart := WithoutLine(old(cart), uniqueId))
    {
      WithoutLineWellFormed(cart, uniqueId);
      cart := WithoutLine(cart, uniqueId);
    }

    // ----- submission -----

    /** The synchronous start of `handleSubmit`: mark the view as
        submitting and build the payload from the form and the current cart,
        with its total. The button is disabled while a call is in flight. */
    method BeginSubmit() returns (request: ReservationRequest)
      requires Valid() && step == Ordering && !isSubmitting
      modifies this
      ensures Valid()
      ensures State() == old(State()).(isSubmitting := true)
      ensures request == ReservationRequest(name, phone, date, time, pax, cart, Total(cart))
      ensures BookingComplete(request.date, request.time, request.name, request.phone)
      ensures MIN_PAX <= request.pax <= MAX_PAX && request.time in TIME_SLOTS
    {
      isSubmitting := true;
      request := ReservationRequest(name, phone, date, time, pax, cart, Total(cart));
    }

    /** The end of `handleSubmit`, once the backend call has settled.
        Success clears the cart and leaves for the profile view; a refusal
        or an exception keeps the cart and the form and sets the error,
        which only the booking-info step displays. Either way the view stops
        submitting. */
    method FinishSubmit(outcome: SubmitOutcome) returns (toProfile: bool)
      requires Valid() && isSubmitting
      modifies this
      ensures Valid()
      ensures toProfile <==> outcome.Success?
      ensures outcome.Success? ==>
                State() == old(State()).(cart := [], isSubmitting := false)
      ensures outcome.Failure? ==>
                State() == old(State()).(error := FAILED_PREFIX + outcome.error, isSubmitting := false)
      ensures outcome.Exception? ==>
                State() == old(State()).(error := NETWORK_ERROR, isSubmitting := false)
    {
      toProfile := false;
      match outcome {
        case Success(_, _) =>
          cart := [];
          toProfile := true;
        case Failure(message) =>
          error := FAILED_PREFIX + message;
        case Exception =>
          error := NETWORK_ERROR;
      }
      isSubmitting := false;
    }

    /** `handleSubmit` with no other handler running while the call is in
        flight: the payload carries the cart and its total; afterwards the
        cart is empty exactly when the backend accepted, a refusal or an
        exception sets its message, and nothing else but `isSubmitting`
        (back to false) changes. */
    method HandleSubmit(outcome: SubmitOutcome) returns (request: ReservationRequest, toProfile: bool)
      requires Valid() && step == Ordering && !isSubmitting
      modifies this
      ensures Valid() && !isSubmitting
      ensures request == ReservationRequest(old(name), old(phone), old(date), old(time), old(pax),
                                            old(cart), Total(old(cart)))
      ensures cart == if outcome.Success? then [] else old(cart)
      ensures toProfile <==> outcome.Success?
      ensures outcome.Success? ==> Total(cart) == 0
      ensures outcome.Success? ==>
                State() == old(State()).(cart := [], isSubmitting := false)
      ensures outcome.Failure? ==>
                State() == old(State()).(error := FAILED_PREFIX + outcome.error, isSubmitting := false)
      ensures outcome.Exception? ==>
                State() == old(State()).(error := NETWORK_ERROR, isSubmitting := false)
    {
      request := BeginSubmit();
      toProfile := FinishSubmit(outcome);
    }
  }

  // ---------------------------------------------------------------------
  // Whole flows, driven only through the handlers' contracts
  // ---------------------------------------------------------------------

  /** A member books a non-Monday date and the first time slot and moves
      on: the view is on the ordering step with an empty cart. */
  method BookedView(user: User, date: string, weekday: int) returns (view: ReservationView)
    requires user.name != "" && user.phone != "" && date != ""
    requires 0 <= weekday <= 6 && weekday != MONDAY
    ensures fresh(view) && view.Valid()
    ensures view.step == Ordering && !view.isSubmitting && view.cart == []
    ensures view.date == date && view.time == TIME_SLOTS[0] && view.pax == INITIAL_PAX
    ensures view.name == user.name && view.phone == user.phone
  {
    view := new ReservationView(Some(user), []);
    view.HandleDateChange(date, Some(weekday));
    view.SelectTime(TIME_SLOTS[0]);
    view.HandleNextStep();
  }

  /** Then the member opens a 150 pasta, picks a +10 noodle and combo B with
      a drink, adds it and submits: the payload carries that one line and a
      total of 290. */
  method PastaComboFlow(user: User, pasta: MenuItem, tea: MenuItem, date: string,
                        weekday: int, lineId: string) returns (request: ReservationRequest)
    requires user.name != "" && user.phone != "" && date != ""
    requires 0 <= weekday <= 6 && weekday != MONDAY
    requires pasta.price == 150 && pasta.hasNoodleSelection && pasta.allowCombo
    requires tea.isDrink && tea.name != ""
    ensures |request.items| == 1 && request.items[0].item == pasta
    ensures request.totalAmount == 290
    ensures request.pax == INITIAL_PAX && request.date == date
  {
    var view := BookedView(user, date, weekday);
    view.LoadMenu(MenuResponse(true, Some([pasta, tea])));
    view.OpenItemModal(pasta);
    view.SelectNoodle(NOODLE_OPTIONS[2]);
    ComboTable();
    view.SelectCombo(COMBO_OPTIONS[2]);
    assert tea in Drinks(view.menuItems);
    view.SelectDrink(tea);
    assert view.selectedItem == Some(pasta) && view.selectedDrink == tea.name;
    assert view.selectedNoodle == NOODLE_OPTIONS[2] && view.selectedCombo == COMBO_OPTIONS[2];
    var outcome := view.HandleAddToCart(lineId);
    assert |view.cart| == 1;
    PastaComboExample(pasta, tea.name, view.spiceLevel, lineId);
    assert Total(view.cart) == 290;
    request := view.BeginSubmit();
  }

  /** Picking a Monday clears the date, so the next step is refused and the
      view stays on the booking-info step. */
  method MondayBlocksNextStep(user: User, date: string) returns (step: Step, error: string)
    ensures step == Info && error == INCOMPLETE_INFO
  {
    var view := new ReservationView(Some(user), []);
    view.HandleDateChange(date, Some(MONDAY));
    view.SelectTime(TIME_SLOTS[0]);
    view.HandleNextStep();
    step, error := view.step, view.error;
  }

  /** Pre-ordering is optional: with an empty cart the submission goes out
      with no items and a zero total, and success leaves the cart empty. */
  method EmptyCartSubmission(user: User, date: string, weekday: int, outcome: SubmitOutcome)
    returns (request: ReservationRequest, toProfile: bool)
    requires user.name != "" && user.phone != "" && date != ""
    requires 0 <= weekday <= 6 && weekday != MONDAY
    ensures request.items == [] && request.totalAmount == 0 && request.pax == INITIAL_PAX
    ensures toProfile <==> outcome.Success?
  {
    var view := BookedView(user, date, weekday);
    request, toProfile := view.HandleSubmit(outcome);
  }

  /** A refused submission sets its message while the view stays on the
      ordering step, where no error is displayed; the message only appears
      once the member goes back to the booking-info step. */
  method RefusedSubmissionHidden(user: User, date: string, weekday: int, message: string)
    returns (error: string, shownBefore: string, shownAfterBack: string)
    requires user.name != "" && user.phone != "" && date != ""
    requires 0 <= weekday <= 6 && weekday != MONDAY
    ensures error == FAILED_PREFIX + message
    ensures shownBefore == ""
    ensures shownAfterBack == FAILED_PREFIX + message
  {
    var view := BookedView(user, date, weekday);
    var request, toProfile := view.HandleSubmit(Failure(message));
    error, shownBefore := view.error, ShownError(view.State());
    view.BackToInfo();
    shownAfterBack := ShownError(view.State());
  }
}
