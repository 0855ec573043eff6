/** The pre-order cart of the reservation view: how a cart line is composed
    from a menu item and the modal's modifiers, how lines are removed, what
    the cart totals, and the two menu lists the ordering step shows. */
module Cart {
  import opened Types
  import opened Constants
  import opened Seqs

  // ---------------------------------------------------------------------
  // Pricing
  // ---------------------------------------------------------------------

  /** A price delta that is missing (or 0) adds nothing to a line. */
  function Delta(p: Option<nat>): nat {
    p.GetOr(0)
  }

  /** The unit price shown next to a cart line: base price plus noodle and
      combo deltas. */
  function UnitPrice(c: CartItem): nat {
    c.item.price + Delta(c.noodlePrice) + Delta(c.comboPrice)
  }

  /** What one line adds to the running sum of `calculateTotal`. */
  function LineAmount(c: CartItem): nat {
    UnitPrice(c) * c.quantity
  }

  /** `calculateTotal`: the cart folded from the left, starting at 0. No
      line is worth more than the total, and the total is 0 exactly when
      every line is. */
  function Total(cart: seq<CartItem>): (t: nat)
    ensures forall c :: c in cart ==> LineAmount(c) <= t
    ensures t == 0 <==> forall c :: c in cart ==> LineAmount(c) == 0
  {
    if cart == [] then 0
    else Total(cart[..|cart| - 1]) + LineAmount(cart[|cart| - 1])
  }

  /** The amount on the modal's "add to order" button: at least the item's
      price, with options from the tables at most 40 (the dearest
      noodle) plus 130 (combo B) above it, and exactly the price for an
      item without noodle choice and no combo. */
  function AddLabel(item: MenuItem, noodle: NoodleOption, combo: ComboOption): (r: nat)
    ensures item.price <= r
    ensures noodle in NOODLE_OPTIONS && combo in COMBO_OPTIONS ==> r <= item.price + 40 + 130
    ensures !item.hasNoodleSelection && combo in COMBO_OPTIONS && combo.id == NO_COMBO ==> r == item.price
  {
    item.price + (if item.hasNoodleSelection then noodle.price else 0) + combo.price
  }

  lemma TotalEmpty()
    ensures Total([]) == 0
  {
  }

  /** Appending a line raises the total by exactly that line's amount. */
  lemma TotalAppend(cart: seq<CartItem>, c: CartItem)
    ensures Total(cart + [c]) == Total(cart) + LineAmount(c)
  {
    assert (cart + [c])[..|cart|] == cart;
  }

  /** The total of two carts laid end to end is the sum of their totals. */
  lemma {:induction false} TotalConcat(a: seq<CartItem>, b: seq<CartItem>)
    ensures Total(a + b) == Total(a) + Total(b)
    decreases |b|
  {
    if b == [] {
      assert a + b == a;
    } else {
      var b', last := b[..|b| - 1], b[|b| - 1];
      assert a + b == (a + b') + [last];
      TotalAppend(a + b', last);
      TotalConcat(a, b');
    }
  }

  /** Splitting a cart by any predicate splits its total: the lines kept
      and the lines dropped together make up the whole. */
  lemma {:induction false} TotalPartition(cart: seq<CartItem>, p: CartItem -> bool)
    ensures Total(cart) == Total(Filter(cart, p)) + Total(Filter(cart, Not(p)))
  {
    if cart != [] {
      var rest, last := cart[..|cart| - 1], cart[|cart| - 1];
      var kept, dropped := Filter(rest, p), Filter(rest, Not(p));
      TotalPartition(rest, p);
      assert Not(p)(last) == !p(last);
      if p(last) {
        assert Filter(cart, p) == kept + [last];
        assert Filter(cart, Not(p)) == dropped;
        TotalAppend(kept, last);
      } else {
        assert Filter(cart, p) == kept;
        assert Filter(cart, Not(p)) == dropped + [last];
        TotalAppend(dropped, last);
      }
    }
  }

  // ---------------------------------------------------------------------
  // Composing a line
  // ---------------------------------------------------------------------

  /** The line `handleAddToCart` appends once validation passes: the menu
      item's fields, a fresh id, quantity 1, the noodle only for items that
      take one, the combo and drink only when a combo other than "none" is
      chosen, and the spice level as the note. */
  function ComposeLine(item: MenuItem, noodle: NoodleOption, combo: ComboOption,
                       drink: string, spice: string, uniqueId: string): (c: CartItem)
    ensures c.item == item && c.uniqueId == uniqueId && c.quantity == 1
    ensures LineAmount(c) == AddLabel(item, noodle, combo)
    ensures c.selectedNoodle.Some? <==> item.hasNoodleSelection
    ensures !item.hasNoodleSelection ==> Delta(c.noodlePrice) == 0
    ensures c.selectedCombo.None? <==> combo.id == NO_COMBO
    ensures c.selectedDrink.None? <==> combo.id == NO_COMBO
    ensures combo.id != NO_COMBO ==> c.selectedDrink == Some(drink)
    ensures c.note == Some(spice)
    ensures item.hasNoodleSelection ==>
              c.selectedNoodle == Some(noodle.name) && c.noodlePrice == Some(noodle.price)
    ensures combo.id != NO_COMBO ==> c.selectedCombo == Some(combo.name)
    ensures c.comboPrice == Some(combo.price)
  {
    CartItem(
      item,
      uniqueId,
      1,
      if item.hasNoodleSelection then Some(noodle.name) else None,
      Some(if item.hasNoodleSelection then noodle.price else 0),
      if combo.id != NO_COMBO then Some(combo.name) else None,
      Some(combo.price),
      if combo.id != NO_COMBO then Some(drink) else None,
      Some(spice))
  }

  /** What every line in the cart satisfies: a positive quantity; a spice
      level from the modal's four as the note; a combo other than "none"
      carries a non-empty drink, and no combo means no drink; an item that
      allows no combo and an item without noodle choice pay nothing for
      either. */
  predicate WellFormedLine(c: CartItem) {
    && c.quantity >= 1
    && c.note.Some? && c.note.value in SPICE_LEVELS
    && (c.selectedCombo.Some? ==> c.selectedDrink.Some? && c.selectedDrink.value != "")
    && (c.selectedCombo.None? ==> c.selectedDrink.None?)
    && (!c.item.allowCombo ==> c.selectedCombo.None? && Delta(c.comboPrice) == 0)
    && (!c.item.hasNoodleSelection ==> c.selectedNoodle.None? && Delta(c.noodlePrice) == 0)
  }

  predicate WellFormedCart(cart: seq<CartItem>) {
    forall c :: c in cart ==> WellFormedLine(c)
  }

  /** Appending a well-formed line keeps the cart well formed. */
  lemma WellFormedAppend(cart: seq<CartItem>, c: CartItem)
    requires WellFormedCart(cart) && WellFormedLine(c)
    ensures WellFormedCart(cart + [c])
  {
    assert forall d :: d in cart + [c] ==> d in cart || d == c;
  }

  /** A line composed after the drink check passed, with a combo from the
      table that the item allows, is well formed; with no combo it adds
      nothing for the combo, whatever drink was picked before. */
  lemma ComposedLineWellFormed(item: MenuItem, noodle: NoodleOption, combo: ComboOption,
                               drink: string, spice: string, uniqueId: string)
    requires combo in COMBO_OPTIONS
    requires spice in SPICE_LEVELS
    requires combo.id != NO_COMBO ==> drink != ""
    requires !item.allowCombo ==> combo.id == NO_COMBO
    ensures WellFormedLine(ComposeLine(item, noodle, combo, drink, spice, uniqueId))
    ensures combo.id == NO_COMBO ==> Delta(ComposeLine(item, noodle, combo, drink, spice, uniqueId).comboPrice) == 0
  {
    NoComboIsFree(combo);
  }

  /** Base 150 with a +10 noodle and combo B (+130) makes a 290 line, and a
      cart holding only that line totals 290. */
  lemma PastaComboExample(item: MenuItem, drink: string, spice: string, uniqueId: string)
    requires item.price == 150 && item.hasNoodleSelection
    ensures var c := ComposeLine(item, NOODLE_OPTIONS[2], COMBO_OPTIONS[2], drink, spice, uniqueId);
            LineAmount(c) == 290 && Total([c]) == 290
  {
    var c := ComposeLine(item, NOODLE_OPTIONS[2], COMBO_OPTIONS[2], drink, spice, uniqueId);
    TotalAppend([], c);
    assert [] + [c] == [c];
  }

  // ---------------------------------------------------------------------
  // Removing lines
  // ---------------------------------------------------------------------

  /** The filter predicate of `removeCartItem`. */
  function KeepLine(uniqueId: string): CartItem -> bool {
    (c: CartItem) => c.uniqueId != uniqueId
  }

  /** The cart after `removeCartItem(uniqueId)`: every line with that id
      gone, the others kept. */
  function WithoutLine(cart: seq<CartItem>, uniqueId: string): (r: seq<CartItem>)
    ensures |r| <= |cart|
    ensures forall c :: c in r <==> c in cart && c.uniqueId != uniqueId
  {
    Filter(cart, KeepLine(uniqueId))
  }

  /** Removal keeps the survivors in their order: removing from two pieces
      and joining is removing from the joined cart. */
  lemma WithoutLineConcat(a: seq<CartItem>, b: seq<CartItem>, uniqueId: string)
    ensures WithoutLine(a + b, uniqueId) == WithoutLine(a, uniqueId) + WithoutLine(b, uniqueId)
  {
    FilterConcat(a, b, KeepLine(uniqueId));
  }

  /** Removing an id no line carries leaves the cart as it was. */
  lemma WithoutAbsentLine(cart: seq<CartItem>, uniqueId: string)
    requires forall c :: c in cart ==> c.uniqueId != uniqueId
    ensures WithoutLine(cart, uniqueId) == cart
  {
    FilterKeepsAll(cart, KeepLine(uniqueId));
  }

  /** Adding a line under a fresh id and then removing that id gives back
      the cart from before the add. */
  lemma AddThenRemove(cart: seq<CartItem>, c: CartItem)
    requires forall d :: d in cart ==> d.uniqueId != c.uniqueId
    ensures WithoutLine(cart + [c], c.uniqueId) == cart
  {
    WithoutLineConcat(cart, [c], c.uniqueId);
    WithoutAbsentLine(cart, c.uniqueId);
    assert WithoutLine([c], c.uniqueId) == [];
  }

  /** Removing lines takes exactly the removed lines' amounts off the total,
      so it never raises it. */
  lemma WithoutLineTotal(cart: seq<CartItem>, uniqueId: string)
    ensures Total(cart) == Total(WithoutLine(cart, uniqueId)) + Total(Filter(cart, Not(KeepLine(uniqueId))))
    ensures Total(WithoutLine(cart, uniqueId)) <= Total(cart)
  {
    TotalPartition(cart, KeepLine(uniqueId));
  }

  /** Removal preserves well-formedness of the cart. */
  lemma WithoutLineWellFormed(cart: seq<CartItem>, uniqueId: string)
    requires WellFormedCart(cart)
    ensures WellFormedCart(WithoutLine(cart, uniqueId))
  {
  }

  // ---------------------------------------------------------------------
  // Menu lists of the ordering step
  // ---------------------------------------------------------------------

  function IsDrink(i: MenuItem): bool {
    i.isDrink
  }

  /** `drinks`: the menu items offered as combo drinks. The order is the
      menu's, because a filter keeps order (`Seqs.FilterConcat`). */
  function Drinks(menu: seq<MenuItem>): (r: seq<MenuItem>)
    ensures |r| <= |menu|
    ensures forall i :: i in r <==> i in menu && i.isDrink
  {
    Filter(menu, IsDrink)
  }

  /** `String.prototype.includes`: `sub` occurs somewhere in `s`. */
  predicate Includes(s: string, sub: string) {
    exists k | 0 <= k <= |s| - |sub| :: IsPrefix(sub, s[k..])
  }

  predicate IsPrefix(p: string, s: string) {
    |p| <= |s| && s[..|p|] == p
  }

  /** The filter predicate of `displayedItems`: a non-empty category that
      contains the active tab's name. */
  function InCategory(active: string): MenuItem -> bool {
    (i: MenuItem) => i.category != "" && Includes(i.category, active)
  }

  /** `displayedItems`: with an active tab, the items whose category
      contains its name, in menu order (`Seqs.FilterConcat`); with none, the
      whole menu. */
  function Displayed(menu: seq<MenuItem>, active: string): (r: seq<MenuItem>)
    ensures forall i :: i in r ==> i in menu
    ensures active == "" ==> r == menu
    ensures active != "" ==> forall i :: i in r <==> i in menu && Includes(i.category, active)
  {
    if active == "" then menu else Filter(menu, InCategory(active))
  }
}
