/** The records of the restaurant app and the two fixed option tables that
    price a cart line: the noodle choices and the combo upgrades. */
module Types {

  /** An optional field: `None` stands for a property that is `undefined`. */
  datatype Option<+T> = None | Some(value: T) {
    function GetOr(default: T): T {
      match this
      case Some(v) => v
      case None => default
    }
  }

  /** A catalogue entry. Flags that are absent in the data are `false`. */
  datatype MenuItem = MenuItem(
    id: string,
    name: string,
    price: nat,
    category: string,
    image: Option<string>,
    description: Option<string>,
    tags: Option<seq<string>>,
    hasNoodleSelection: bool,
    allowCombo: bool,
    isDrink: bool)

  /** A cart line: a snapshot of the menu item plus the line's own fields. */
  datatype CartItem = CartItem(
    item: MenuItem,
    uniqueId: string,
    quantity: nat,
    selectedNoodle: Option<string>,
    noodlePrice: Option<nat>,
    selectedCombo: Option<string>,
    comboPrice: Option<nat>,
    selectedDrink: Option<string>,
    note: Option<string>)

  datatype Status = Pending | Confirmed | Cancelled | Completed

  datatype Reservation = Reservation(
    id: Option<string>,
    name: string,
    phone: string,
    date: string,
    time: string,
    pax: int,
    items: Option<string>,
    status: Status,
    tableId: Option<string>,
    totalAmount: Option<int>,
    createdAt: Option<string>)

  datatype NoodleOption = NoodleOption(name: string, price: nat)

  datatype ComboOption = ComboOption(id: string, name: string, price: nat)

  const NOODLE_OPTIONS: seq<NoodleOption> := [
    NoodleOption("筆尖麵", 0),
    NoodleOption("燉飯", 0),
    NoodleOption("天使細麵", 10),
    NoodleOption("通心麵", 10),
    NoodleOption("細扁麵", 10),
    NoodleOption("墨魚麵", 40)
  ]

  const NO_COMBO: string := "none"

  const COMBO_OPTIONS: seq<ComboOption> := [
    ComboOption(NO_COMBO, "單點", 0),
    ComboOption("A", "超值套餐 (+濃湯+麵包+飲品)", 80),
    ComboOption("B", "酥皮套餐 (+酥皮濃湯+飲品)", 130)
  ]

  /** The names of the noodle options that cost nothing extra, in table order. */
  function FreeNoodles(options: seq<NoodleOption>): (r: seq<string>)
    ensures |r| <= |options|
    ensures forall n :: n in r <==> exists o :: o in options && o.price == 0 && o.name == n
  {
    if options == [] then []
    else
      var rest := FreeNoodles(options[1..]);
      assert forall p :: p in options <==> p == options[0] || p in options[1..];
      if options[0].price == 0 then [options[0].name] + rest else rest
  }

  /** The surcharges of the paid noodle options, in table order. */
  function Surcharges(options: seq<NoodleOption>): (r: seq<nat>)
    ensures |r| <= |options|
    ensures forall k :: k in r ==> k > 0
  {
    if options == [] then []
    else
      var rest := Surcharges(options[1..]);
      if options[0].price > 0 then [options[0].price] + rest else rest
  }

  /** The default noodle, the one every item modal starts with, is free, and
      the table has six entries: two free, four with a surcharge. */
  lemma NoodleTable()
    ensures |NOODLE_OPTIONS| == 6
    ensures NOODLE_OPTIONS[0].price == 0
    ensures FreeNoodles(NOODLE_OPTIONS) == ["筆尖麵", "燉飯"]
    ensures Surcharges(NOODLE_OPTIONS) == [10, 10, 10, 40]
  {
    var t := NOODLE_OPTIONS;
    assert t[1..][1..][1..][1..][1..][1..] == [];
  }

  /** The first combo is "none" and adds nothing; ids are distinct; the
      prices are 0, 80 and 130. */
  lemma ComboTable()
    ensures |COMBO_OPTIONS| == 3
    ensures COMBO_OPTIONS[0].id == NO_COMBO && COMBO_OPTIONS[0].price == 0
    ensures forall i, j :: 0 <= i < j < |COMBO_OPTIONS| ==> COMBO_OPTIONS[i].id != COMBO_OPTIONS[j].id
    ensures [COMBO_OPTIONS[0].price, COMBO_OPTIONS[1].price, COMBO_OPTIONS[2].price] == [0, 80, 130]
  {
  }

  /** Any combo of the table whose id is "none" is the free one. */
  lemma {:induction false} NoComboIsFree(c: ComboOption)
    requires c in COMBO_OPTIONS
    ensures c.id == NO_COMBO <==> c == COMBO_OPTIONS[0]
    ensures c.id == NO_COMBO ==> c.price == 0
  {
    ComboTable();
  }
}
