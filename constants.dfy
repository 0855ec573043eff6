/** Fixed data the reservation flow offers: the bookable time slots and the
    menu categories shown as tabs. */
module Constants {

  const TIME_SLOTS: seq<string> := [
    "11:00", "11:30", "12:00", "12:30", "13:00", "13:30",
    "17:30", "18:00", "18:30", "19:00", "19:30", "20:00"
  ]

  const FOOD_CATEGORIES: seq<string> := [
    "義大利麵", "義式燉飯", "焗烤", "PIZZA", "炸物/點心", "飲品"
  ]

  /** The four spice levels the item modal offers, mildest first. */
  const SPICE_LEVELS: seq<string> := ["不辣", "小辣", "中辣", "大辣"]
}
