# Restaurant reservation and pre-order composer, modelled in Dafny

The app is a mobile front end for a restaurant. Its reservation view has two
steps. The booking-info step collects a date, a time slot, a party size, a
name and a phone number. Mondays are refused because the restaurant is
closed, and the party size is clamped to 1..10. The optional pre-order step
shows the menu by category tab. An item modal lets the guest pick a noodle,
a spice level, a combo upgrade and, with a combo, a drink. Confirming the
modal appends a line to the cart. Lines can be removed, the cart total is
shown, and the whole reservation is submitted to a backend. The admin
dashboard lists the reservations. It changes a reservation's status
optimistically (locally first, then on the backend) and counts today's and
the pending reservations.

The project has six modules:

- `Types` (`types.dfy`): the records (`MenuItem`, `CartItem`, `Reservation`,
  `Status`) and the noodle and combo option tables.
- `Constants` (`constants.dfy`): the time slots, the menu category tabs and
  the four spice levels.
- `Seqs` (`seqs.dfy`): `Filter`, the sequence counterpart of
  `Array.prototype.filter`, with its order and counting lemmas.
- `Cart` (`cart.dfy`): the pure part of the reservation view. It covers line
  pricing, `calculateTotal`, line composition, removal by id, and the drink
  and category lists.
- `Booking` (`booking.dfy`): the class `ReservationView`, with one method per
  event handler. `State()` gives all its state variables as one `ViewState`
  value. Every handler's postcondition states the complete new state as an
  update of the old one, and every handler preserves `Inv`.
- `Admin` (`admin.dfy`): the class `AdminDashboard` and the pure status
  update and counters.

Values the program takes from outside are parameters:

- the weekday that `Date.getDay()` reports for the chosen date (`None` for a
  string that is not a date);
- the id of a new cart line (the program uses `Date.now()`);
- the backend's replies (the menu, the reservation outcome
  `Success`/`Failure(msg)`/`Exception`, the reservations list). The API
  helper catches transport errors itself and returns them as a refusal, so
  a network failure arrives as `Failure`. `Exception` is only a `null`
  reply, on which reading `res.success` throws; any other reply without
  `success` is a `Failure` (message `undefined`).

Some buttons are only on screen in certain states. For example, the fields
are edited only on the info step, and submit is disabled while a submission
is in flight. The handlers behind those buttons carry those conditions as
preconditions. That is why `Inv` can promise that the ordering step is only
reached with date, time, name and phone filled in, so every payload sent
has them.

Submission is asynchronous, so other handlers can run while the call is out.
It is split into `BeginSubmit` and `FinishSubmit`. `BeginSubmit` sets
`isSubmitting` and builds the payload from the cart as it is then.
`FinishSubmit` applies the outcome and clears `isSubmitting`. `HandleSubmit`
runs the two back to back.

`handleStatusChange` compares `r.id === id` where both ids may be absent, so
the model keeps ids as `Option<string>`. A change requested for a reservation
without an id therefore also applies to every other reservation without an
id. `SetStatus` states this exactly.

Five details of the code that the model keeps:

- The noodle table has two free options (筆尖麵 and 燉飯) and four paid ones
  (10, 10, 10, 40).
- The spice level starts as `正常`, which is not one of the four levels. It
  is reset to `不辣` whenever an item is opened.
- Choosing the "none" combo does not clear a drink picked earlier. The drink
  is only ignored when the line is composed.
- Only the booking-info step renders `error`. A refused submission sets it
  while the view is on the ordering step, so the message stays out of sight
  until the member goes back (`RefusedSubmissionHidden`).
- The dashboard reads `success` of both replies without a `null` check. A
  `null` reservations or statistics reply throws inside `loadData` before
  `setLoading(false)`, so the dashboard stays on its loading screen
  (`AdminDashboard.LoadData`).

## Model

| member | source | states |
|---|---|---|
| `Types.NoodleTable` | types.ts:74-81 | six noodle options; the default (first) one is free; the free ones are 筆尖麵 and 燉飯, the surcharges are 10, 10, 10, 40 in table order |
| `Types.ComboTable` | types.ts:83-87 | three combos; the first has id "none" and price 0; the ids are pairwise distinct; the prices are 0, 80, 130 |
| `Types.NoComboIsFree` | types.ts:83-84 | a combo of the table has id "none" exactly when it is the first entry, and then it costs 0 |
| `Cart.Total` | views/ReservationView.tsx:110-117 | no line is worth more than the total; the total is 0 exactly when every line's amount is 0 |
| `Cart.AddLabel` | views/ReservationView.tsx:420 | the button amount is at least the item's price, at most 40 + 130 above it with table options, and exactly the price for an item without noodle choice and no combo |
| `Cart.TotalEmpty` | views/ReservationView.tsx:110-117 | an empty cart totals 0 |
| `Cart.TotalAppend` | views/ReservationView.tsx:110-117 | appending a line raises the total by (price + noodle delta + combo delta) × quantity of that line, missing deltas counting 0 |
| `Cart.TotalConcat` | views/ReservationView.tsx:110-117 | the total of two carts joined is the sum of their totals |
| `Cart.TotalPartition` | views/ReservationView.tsx:110-117 | for any predicate, the total of the lines it keeps plus the total of the lines it drops is the cart's total |
| `Cart.ComposeLine` | views/ReservationView.tsx:90-100 | the new line keeps the menu item, gets the given id and quantity 1; its amount equals the add-button label; the noodle is recorded only for items with a noodle choice and costs 0 otherwise; combo and drink are absent exactly when the combo is "none"; the spice level is the note; the chosen noodle's name and price are recorded for items with a noodle choice, the chosen combo's name for a combo other than "none", and the combo's price always |
| `Cart.ComposedLineWellFormed` | views/ReservationView.tsx:85-100 | a line composed after the drink check, with a table combo the item allows and a spice level from the four, is well formed (a combo carries a non-empty drink, no combo means no drink and no combo charge) |
| `Cart.PastaComboExample` | views/ReservationView.tsx:90-117 | base 150 with the +10 noodle and combo B makes a 290 line, and a cart of that line alone totals 290 |
| `Cart.WithoutLine` | views/ReservationView.tsx:106-108 | after removal a line is in the cart exactly when it was before and its id differs from the removed one; the cart does not grow |
| `Cart.WithoutLineConcat` | views/ReservationView.tsx:106-108 | removal keeps the surviving lines in their original order (it distributes over concatenation) |
| `Cart.WithoutAbsentLine` | views/ReservationView.tsx:106-108 | removing an id no line carries leaves the cart unchanged |
| `Cart.AddThenRemove` | views/ReservationView.tsx:102-108 | appending a line under a fresh id and then removing that id restores the earlier cart |
| `Cart.WithoutLineTotal` | views/ReservationView.tsx:106-117 | removal lowers the total by exactly the removed lines' amounts, so it never raises it |
| `Cart.WithoutLineWellFormed` | views/ReservationView.tsx:106-108 | removal keeps every remaining line well formed |
| `Cart.Drinks` | views/ReservationView.tsx:146 | the drink list holds exactly the menu items flagged as drinks |
| `Cart.Displayed` | views/ReservationView.tsx:147-149 | with an active tab, the shown items are exactly the menu items whose category contains the tab's name; with none, the whole menu |
| `Booking.PaxDown` | views/ReservationView.tsx:193 | one step down, never below 1, and never above 10 when starting at most 10 |
| `Booking.PaxUp` | views/ReservationView.tsx:195 | one step up, never above 10, and never below 1 when starting at least 1 |
| `Booking.PaxDownTimesClamps` | views/ReservationView.tsx:193 | n presses of "-" from a valid size give max(1, size − n) |
| `Booking.PaxUpTimesClamps` | views/ReservationView.tsx:195 | n presses of "+" from a size at most 10 give min(10, size + n) |
| `Booking.PaxExamples` | views/ReservationView.tsx:21-195 | from the initial 2, five presses of "-" give 1; from 9, five presses of "+" give 10 |
| `Booking.ReservationView.constructor` | views/ReservationView.tsx:15-36 | the view starts on the info step with no date or time, 2 guests, the member's name and phone or empty ones, the first tab, the default modifiers and the app's cart |
| `Booking.ReservationView.LoadMenu` | views/ReservationView.tsx:38-51 | the menu is the reply's data on success, empty otherwise; nothing else changes |
| `Booking.ReservationView.HandleDateChange` | views/ReservationView.tsx:53-63 | a Monday leaves the date empty and sets the closing-day message; any other weekday stores the date and clears the error; nothing else changes |
| `Booking.ReservationView.SelectTime` | views/ReservationView.tsx:173-176 | the time becomes the chosen slot; nothing else changes |
| `Booking.ReservationView.SetName` | views/ReservationView.tsx:206 | the name becomes the typed text; nothing else changes |
| `Booking.ReservationView.SetPhone` | views/ReservationView.tsx:216 | the phone becomes the typed text; nothing else changes |
| `Booking.ReservationView.DecrementPax` | views/ReservationView.tsx:193 | the party size becomes `PaxDown` of the old one and stays in 1..10 |
| `Booking.ReservationView.IncrementPax` | views/ReservationView.tsx:195 | the party size becomes `PaxUp` of the old one and stays in 1..10 |
| `Booking.ReservationView.HandleNextStep` | views/ReservationView.tsx:65-71 | the step moves to ordering exactly when date, time, name and phone are all non-empty; otherwise the step stays and the "incomplete" message is set (`BookingComplete` is that line-66 gate) |
| `Booking.ReservationView.BackToInfo` | views/ReservationView.tsx:240 | back to the info step; nothing else changes |
| `Booking.ReservationView.SelectCategory` | views/ReservationView.tsx:246-249 | the active tab becomes the chosen category; nothing else changes |
| `Booking.ReservationView.OpenItemModal` | views/ReservationView.tsx:73-80 | the modal opens on the item with the first noodle, the "none" combo, no drink and 不辣, whatever was chosen before |
| `Booking.ReservationView.CloseItemModal` | views/ReservationView.tsx:333 | the modal closes; modifiers and cart are untouched |
| `Booking.ReservationView.SelectNoodle` | views/ReservationView.tsx:338-345 | the noodle becomes the chosen option; nothing else changes |
| `Booking.ReservationView.SelectSpice` | views/ReservationView.tsx:360-363 | the spice level becomes the chosen one; nothing else changes |
| `Booking.ReservationView.SelectCombo` | views/ReservationView.tsx:373-380 | the combo becomes the chosen option; the drink is kept |
| `Booking.ReservationView.SelectDrink` | views/ReservationView.tsx:397-404 | the drink becomes the chosen drink's name; nothing else changes |
| `Booking.ReservationView.HandleAddToCart` | views/ReservationView.tsx:82-104 | with no item open, or with a combo other than "none" and no drink, nothing changes and the modal stays open; otherwise exactly one composed line is appended after the unchanged earlier lines, the modal closes, and the total grows by the add-button amount |
| `Booking.ReservationView.RemoveCartItem` | views/ReservationView.tsx:106-108 | the cart becomes `WithoutLine` of the old cart; nothing else changes |
| `Booking.ReservationView.BeginSubmit` | views/ReservationView.tsx:119-129 | `isSubmitting` becomes true; the payload carries the form fields, the cart and its total; the info is complete, the party size is in 1..10 and the time is a listed slot |
| `Booking.ReservationView.FinishSubmit` | views/ReservationView.tsx:131-144 | success empties the cart and leaves for the profile view; a refusal sets "訂位失敗: " + message, an exception the network message, and both keep the cart and the form; `isSubmitting` ends false in every case |
| `Booking.ReservationView.HandleSubmit` | views/ReservationView.tsx:119-144 | the payload carries the form, the cart and the cart's total; success empties the cart and leaves for the profile view, a refusal sets "訂位失敗: " + message, an exception the network message; nothing else changes and `isSubmitting` ends false |
| `Booking.BookedView` | views/ReservationView.tsx:53-71 | a member who picks a non-Monday date and a time slot and presses "next" reaches the ordering step with the form filled in and the cart empty |
| `Booking.PastaComboFlow` | views/ReservationView.tsx:53-128 | then driving the handlers through a booking with a 150 pasta, the +10 noodle and combo B with a drink sends one line and a total of 290 |
| `Booking.MondayBlocksNextStep` | views/ReservationView.tsx:53-71 | after picking a Monday the next step is refused: the view stays on the info step with the "incomplete" message |
| `Booking.RefusedSubmissionHidden` | views/ReservationView.tsx:138-240 | after a refused submission the error holds "訂位失敗: " + message but nothing is shown on the ordering step; going back to the info step shows it |
| `Booking.EmptyCartSubmission` | views/ReservationView.tsx:119-144 | a booking without pre-order can be submitted; its payload has no items and total 0 |
| `Admin.SetStatus` | views/AdminDashboard.tsx:38 | position by position, a reservation whose id equals the given one takes the new status and any other keeps its own; no other field changes; length and order are kept |
| `Admin.SetStatusTwice` | views/AdminDashboard.tsx:38 | a second change of the same id overrides the first |
| `Admin.PendingCount` | views/AdminDashboard.tsx:71 | the counter is the number of positions holding a pending reservation |
| `Admin.TodayCount` | views/AdminDashboard.tsx:70 | the counter is the number of positions holding a reservation dated `today` |
| `Admin.SetStatusKeepsTodayCount` | views/AdminDashboard.tsx:38-70 | a status change leaves the "today" counter unchanged |
| `Admin.SetStatusPendingCount` | views/AdminDashboard.tsx:38-71 | moving the matching reservations to a non-pending status lowers the pending counter by exactly the number of them that were pending |
| `Admin.AdminDashboard.constructor` | views/AdminDashboard.tsx:7-10 | the dashboard starts with no reservations, loading |
| `Admin.AdminDashboard.LoadData` | views/AdminDashboard.tsx:12-34 | on success the list is the reply's data (empty when missing); on failure or a `null` reply the list is kept; loading ends exactly when neither the reservations nor the statistics reply is `null` |
| `Admin.AdminDashboard.HandleStatusChange` | views/AdminDashboard.tsx:36-40 | the list becomes `SetStatus` of the old list whatever the backend replies; the request carries the id and status |
| `Admin.FailedLoadShowsNothing` | views/AdminDashboard.tsx:7-25 | when the reservations fetch fails or returns `null` the dashboard's list is empty |

## Left out

- `services/api.ts`: the HTTP calls, URL building and JSON parsing. Every
  backend reply is a parameter.
- `App.tsx`: the splash timer, `localStorage`, the mock login and view
  routing. The app-level `clearCart` is the cart reset in `FinishSubmit`,
  and `setView(AppView.PROFILE)` is the `toProfile` result.
- `views/HomeView.tsx`, `views/ProfileView.tsx`, `views/MenuView.tsx`,
  `components/BottomNav.tsx`, `components/LoadingScreen.tsx`: rendering and
  navigation only.
- All JSX markup and styling. On the dashboard this includes the statistics
  tab, its `stats` state and charts, and `activeTab`. The statistics reply
  is only told apart as an object or `null`, which is all the reservations
  tab depends on.
- `alert` pop-ups. The drink-required alert is the `DrinkRequired` outcome
  of `HandleAddToCart`. The success alert is not modelled.
- `JSON.stringify(cart)`: the payload's `items` holds the cart value it
  would serialise.
- The JavaScript `Date` semantics of `new Date(str).getDay()`, including
  its time-zone effects. The weekday is an input.
- The `min` date attribute of the date input. It is only a browser hint.
- Id generation with `Date.now()`. The id is an input, and nothing makes it
  unique.
- The `Promise.all` concurrency of the dashboard load.
- Handlers that interleave with an in-flight submission are only captured
  through the `BeginSubmit`/`FinishSubmit` split. React's render-time
  snapshot of state is not modelled.
- JavaScript numbers: prices and deltas are natural numbers. Fractional,
  negative and `NaN` prices are not modelled, and neither is the
  truthiness test that skips a zero delta (adding 0 changes nothing).
- `handleStatusChange` casts its status string with `as any`. The model
  takes one of the four statuses, which is what the three buttons pass.
- `Booking.ReservationView.OpenItemModal`: its precondition only asks that
  the item is on the menu. The view opens only items shown under the active
  tab, which `Cart.Displayed` describes. No property proved here depends on
  that stronger condition, so it is not required.
