# RevTicket seat inventory and booking pages, in Dafny

RevTicket is a movie-ticket booking site: a Spring backend keeps the seats of every showtime
and an Angular front end lets users pick seats, book and cancel, and lets administrators
manage movies, theatres, shows and screen layouts. This project models the part of it that
carries real rules and proves properties of that model.

- **Seat inventory** (`seat_inventory.dfy`, module `SeatInventory`): the backend's seat,
  showtime and booking repositories held by one `Inventory` object. It covers:
  - seat creation for a showtime: an 8 × 12 grid priced by row;
  - holding and releasing seats;
  - creating a booking, which checks every seat, then marks them booked and lowers the
    showtime's count of available seats;
  - cancelling a booking, with its 90 % refund.

  The loops are methods proved against step functions. The model proves that in any run of
  holds, releases and bookings, no seat is booked twice.
- **Seat map in the browser**:
  - `seat_client.dfy`: the layout and the availability view derived from the server's seat
    list.
  - `seat_selector.dfy`: the selection, its running total, merging polled availability, and
    the hold countdown and its `m:ss` text.
  - `seat_layout.dfy`: the simple ten-per-row seat grid.
- **Screen layout editor** (`screen_editor.dfy`): the editor that the screens page's unit
  tests describe. The component itself is an empty placeholder. The editor covers grid
  generation with labels `A1`…, quick assignment of a category over a range of rows, adding,
  editing and deleting categories, and validation before saving.
- **Admin and user pages, one module per component**:
  - bookings report: filters, pagination, totals, most-booked movies;
  - my bookings: tabs, cancellation window, tiered refund, cancel flow;
  - the alert queue;
  - the HTTP error interceptor;
  - the admin and user route guards;
  - the hero carousel;
  - theatre management;
  - show management;
  - the dashboard's chart and activity arithmetic;
  - the movie form;
  - the home page;
  - movie management;
  - the admin bookings list;
  - the profile page's favourite genres and password check.
- **Shared helpers**:
  - `collections.dfy`: `Option`, the order-preserving filter, sums.
  - `text.dfy`: case mapping, substring search, decimal rendering, row letters.
  - `ordering.dfy`: the string order of `sort()` and sorted, duplicate-free lists.
  - `movies.dfy`: the movie record and the genre catalogue.

State the source changes in place is modelled as a `class` whose methods say what the new
state is. Queries and derived values are modelled as functions, with lemmas relating them.
Clocks, random draws, session ids and server replies are parameters. An HTTP request the
source sends is returned as a value.

Where the system's design description and its code disagree, the model follows the code:
- Holds are never checked or expired.
- A seat that is already held can be held again.
- Creating a booking ignores holds and session ids.

The only guard against booking a seat twice is the `isBooked` check, and the model proves
that this check suffices in a sequential run. The dashboard's revenue change reports
"upward" for a negative previous value when revenue did not rise, because the sign of the
percentage follows the division by the previous value.

## Model

| member | source | states |
|---|---|---|
| SeatInventory.RowPricingOfGridRow | Backend/src/main/java/com/revticket/service/SeatService.java:43-53 | rows A-B are regular seats at 150, rows C-E premium at 200, rows F-H VIP at 300 |
| SeatInventory.RowSeats | Backend/src/main/java/com/revticket/service/SeatService.java:35-56 | the inner loop creates twelve seats per row |
| SeatInventory.GridUpTo | Backend/src/main/java/com/revticket/service/SeatService.java:34-57 | the first `r` rows of the nested loops create `12 * r` seats |
| SeatInventory.Grid | Backend/src/main/java/com/revticket/service/SeatService.java:31-57 | one initialisation creates 96 seats (8 rows of 12) |
| SeatInventory.GridUpToAt | Backend/src/main/java/com/revticket/service/SeatService.java:34-39 | position `12 * r + n - 1` of the creation order is row `r`'s seat number `n` |
| SeatInventory.SaveAllContents | Backend/src/main/java/com/revticket/service/SeatService.java:55 | saving under fresh ids keeps every existing seat and adds exactly one entry per new seat |
| SeatInventory.SaveAllSize | Backend/src/main/java/com/revticket/service/SeatService.java:55 | the repository grows by exactly the number of seats saved |
| SeatInventory.SaveAllAppend | Backend/src/main/java/com/revticket/service/SeatService.java:55 | saving one more seat extends the repository by that seat under the next id |
| SeatInventory.SaveGridSeat | Backend/src/main/java/com/revticket/service/SeatService.java:35-56 | one step of the inner loop extends both the created list and the repository by the same seat |
| SeatInventory.GridShape | Backend/src/main/java/com/revticket/service/SeatService.java:32-57 | each call adds 96 seats under new ids and keeps all existing ones, so a second call adds 96 more; every new seat is unbooked and unheld |
| SeatInventory.GridCoversRowsAndNumbers | Backend/src/main/java/com/revticket/service/SeatService.java:32-53 | every row A-H and number 1-12 is created once, priced 150/200/300 by its row |
| SeatInventory.FirstRejected | Backend/src/main/java/com/revticket/service/SeatService.java:61-67 | the index of the first unknown or booked seat: all seats before it are accepted |
| SeatInventory.FirstRejectedSameBooking | Backend/src/main/java/com/revticket/service/SeatService.java:62-67 | the hold loop's rejection depends only on which seats exist and are booked |
| SeatInventory.HoldAllEffect | Backend/src/main/java/com/revticket/service/SeatService.java:60-74 | seats before the first rejected one are held by the session until the expiry, even if already held; nothing is rolled back; the failure names the rejected seat |
| SeatInventory.HoldAllSuccess | Backend/src/main/java/com/revticket/service/SeatService.java:69-71 | after a successful hold every listed seat is held by the caller's session with the new expiry |
| SeatInventory.HoldAllKeepsBookings | Backend/src/main/java/com/revticket/service/SeatService.java:60-74 | holding never adds, removes, books or unbooks a seat |
| SeatInventory.ReleaseAllEffect | Backend/src/main/java/com/revticket/service/SeatService.java:76-86 | every listed seat that exists and is not booked loses its hold, expiry and session, whoever held it; other seats are untouched |
| SeatInventory.ReleaseAllIdempotent | Backend/src/main/java/com/revticket/service/SeatService.java:76-86 | releasing twice equals releasing once |
| SeatInventory.CheckSeatsMeaning | Backend/src/main/java/com/revticket/service/BookingService.java:43-51 | the availability check passes iff every requested seat exists and is unbooked; otherwise it reports the first bad seat |
| SeatInventory.MarkBookedEffect | Backend/src/main/java/com/revticket/service/BookingService.java:68-75 | marking (and the cancel loop's unmarking) sets `isBooked` on exactly the listed existing seats and nothing else |
| SeatInventory.UnmarkAfterMark | Backend/src/main/java/com/revticket/service/BookingService.java:101-107 | cancelling a booking's seats restores the seat store the booking's check saw |
| SeatInventory.RunAppend | Backend/src/main/java/com/revticket/service/BookingService.java:35-82 | running two batches of seat operations equals running them one after the other |
| SeatInventory.StepKeepsBooked | Backend/src/main/java/com/revticket/service/SeatService.java:60-86 | no hold, release or booking unbooks or removes a booked seat |
| SeatInventory.RunKeepsBooked | Backend/src/main/java/com/revticket/service/BookingService.java:68-75 | a booked seat stays booked through any sequence of holds, releases and bookings |
| SeatInventory.NoDoubleBooking | Backend/src/main/java/com/revticket/service/BookingService.java:44-51 | between cancellations a seat is in at most one successful booking |
| SeatInventory.HoldsDoNotAffectBookingCheck | Backend/src/main/java/com/revticket/service/BookingService.java:44-51 | holds and releases never change whether a booking passes its check; session ids are not consulted |
| SeatInventory.CheckSeatsSameBooking | Backend/src/main/java/com/revticket/service/BookingService.java:44-51 | the availability check depends only on which seats exist and are booked |
| SeatInventory.Refund | Backend/src/main/java/com/revticket/service/BookingService.java:125-129 | the refund is exactly 90% of the total, and within 0 and the total for a non-negative total |
| SeatInventory.TicketNumber | Backend/src/main/java/com/revticket/service/BookingService.java:63 | a ticket number is 11 characters starting with `TKT` |
| SeatInventory.TicketNumberShape | Backend/src/main/java/com/revticket/service/BookingService.java:63 | after `TKT` come eight upper-case hex digits taken from the UUID |
| SeatInventory.Inventory.constructor | Backend/src/main/java/com/revticket/service/BookingService.java:26-33 | the repositories start with the given users and showtimes and no seats or bookings |
| SeatInventory.Inventory.InitializeSeatsForShowtime | Backend/src/main/java/com/revticket/service/SeatService.java:27-58 | fails with "Showtime not found" and changes nothing for an unknown showtime; otherwise saves the 96-seat grid under fresh ids |
| SeatInventory.Inventory.HoldSeats | Backend/src/main/java/com/revticket/service/SeatService.java:60-74 | the new seat store and outcome are those of the hold loop with expiry `now` plus ten minutes, and the inventory stays valid (no seat is added or removed), so a booking can follow; the showtime id is unused |
| SeatInventory.Inventory.ReleaseSeats | Backend/src/main/java/com/revticket/service/SeatService.java:76-86 | the new seat store is the release loop's result, and the inventory stays valid |
| SeatInventory.Inventory.CreateBooking | Backend/src/main/java/com/revticket/service/BookingService.java:35-82 | user, showtime and seats are checked before any write and a failure changes nothing; on success a PENDING booking is stored, the seats are booked and `availableSeats` drops by the request's length, duplicates included |
| SeatInventory.Inventory.CancelBooking | Backend/src/main/java/com/revticket/service/BookingService.java:92-119 | fails for an unknown booking; otherwise sets CANCELLED, the reason, a 90% refund and its date, unbooks the seats and adds their count back, whatever the prior status |
| SeatInventory.HoldAll | Backend/src/main/java/com/revticket/service/SeatService.java:60-74 | the hold loop as a function of the store; it adds and removes no seat (its effect seat by seat is `HoldAllEffect`) |
| SeatInventory.ReleaseAll | Backend/src/main/java/com/revticket/service/SeatService.java:76-86 | the release loop as a function of the store; it adds and removes no seat (its effect is `ReleaseAllEffect`) |
| SeatInventory.CheckSeats | Backend/src/main/java/com/revticket/service/BookingService.java:43-51 | a rejection names one of the requested seats, as missing or already booked (both directions of the check are `CheckSeatsMeaning`) |
| SeatInventory.MarkBooked | Backend/src/main/java/com/revticket/service/BookingService.java:68-75 | the booking loop keeps the set of seats (which seats it books is `MarkBookedEffect`) |
| SeatInventory.UnmarkBooked | Backend/src/main/java/com/revticket/service/BookingService.java:101-107 | the cancel loop keeps the set of seats (`MarkBookedEffect` and `UnmarkAfterMark` give its effect) |
| SeatInventory.Step | Backend/src/main/java/com/revticket/service/SeatService.java:60-86 | one hold, release or all-or-nothing booking of a batch keeps the set of seats |
| SeatInventory.Run | Backend/src/main/java/com/revticket/service/BookingService.java:35-82 | a sequence of seat operations keeps the set of seats (`RunKeepsBooked` and `NoDoubleBooking` build on it) |
| SeatInventory.MarkBookedKeys | Backend/src/main/java/com/revticket/service/BookingService.java:68-75 | booking seats adds no seat and removes none |
| SeatClient.RowLabels | Frontend/src/app/core/services/seat.service.ts:23 | one row label per seat, in seat order |
| SeatClient.MaxNumber | Frontend/src/app/core/services/seat.service.ts:24 | the largest seat number: no seat exceeds it and some seat has it |
| SeatClient.GetSeatLayout | Frontend/src/app/core/services/seat.service.ts:14-59 | an empty list asks the server to initialise and gives the empty layout; otherwise the seats are kept, `rows` is the distinct row labels sorted, `seatsPerRow` the largest seat number, `totalSeats` the count and `availableSeats` the unbooked count |
| SeatClient.AvailablePlusBooked | Frontend/src/app/core/services/seat.service.ts:30-31 | held seats count as available: available plus booked equals the total |
| SeatClient.RowsIndependentOfOrder | Frontend/src/app/core/services/seat.service.ts:23 | the rows depend only on which seats are listed, not on their order |
| SeatClient.GetRealTimeAvailability | Frontend/src/app/core/services/seat.service.ts:77-87 | one entry per seat in order: available iff unbooked, and `heldBy` is `'session'` and an expiry is set exactly when the seat is held |
| SeatClient.CountAvailable | Frontend/src/app/core/services/seat.service.ts:79-85 | the availability view has as many available entries as there are unbooked seats |
| SeatClient.AvailabilityAgreesWithLayout | Frontend/src/app/core/services/seat.service.ts:31-81 | the availability view and the layout agree on the number of available seats |
| SeatClient.HoldSeatsRequest | Frontend/src/app/core/services/seat.service.ts:61-68 | the hold request carries the showtime and seats unchanged and a session id `session_` followed by digits |
| SeatClient.ExtendSeatHold | Frontend/src/app/core/services/seat.service.ts:89-92 | extending a hold sends the same request as `holdSeats` |
| SeatClient.SessionIdRecordsTime | Frontend/src/app/core/services/seat.service.ts:62 | the session id's digits are the clock reading it was made at |
| SeatClient.ExtensionChangesSession | Frontend/src/app/core/services/seat.service.ts:62-92 | an extension made at another millisecond re-holds the seats under a different session id |
| SeatSelector.FindSeat | Frontend/src/app/user/components/seat-selector/seat-selector.component.ts:270-303 | `find` by id gives the first seat with that id, or nothing when no seat has it |
| SeatSelector.ToggleFlips | Frontend/src/app/user/components/seat-selector/seat-selector.component.ts:285-291 | toggling flips the toggled id's membership in the selection and no other id's |
| SeatSelector.ToggleKeepsDistinct | Frontend/src/app/user/components/seat-selector/seat-selector.component.ts:285-291 | a selection without duplicates stays without duplicates |
| SeatSelector.FilterKeepsDistinct | Frontend/src/app/user/components/seat-selector/seat-selector.component.ts:288 | filtering a duplicate-free selection keeps it duplicate-free |
| SeatSelector.ToggleTwice | Frontend/src/app/user/components/seat-selector/seat-selector.component.ts:285-291 | selecting then deselecting a seat gives back the selection exactly |
| SeatSelector.FilterIdentity | Frontend/src/app/user/components/seat-selector/seat-selector.component.ts:288 | filtering out an id that is not present keeps the selection as it is |
| SeatSelector.DistinctOccursOnce | Frontend/src/app/user/components/seat-selector/seat-selector.component.ts:288 | in a duplicate-free selection a selected id occurs exactly once |
| SeatSelector.TotalAfterToggle | Frontend/src/app/user/components/seat-selector/seat-selector.component.ts:294-306 | the emitted total rises or falls by exactly the toggled seat's price |
| SeatSelector.TotalNonNegative | Frontend/src/app/user/components/seat-selector/seat-selector.component.ts:301-306 | with non-negative prices the total is never negative |
| SeatSelector.FindEntry | Frontend/src/app/user/components/seat-selector/seat-selector.component.ts:269-270 | the first availability entry for an id, or nothing when there is none |
| SeatSelector.ApplyOneKeepsIds | Frontend/src/app/user/components/seat-selector/seat-selector.component.ts:270-274 | merging one entry keeps the seat list's length and ids |
| SeatSelector.FindSeatSameIds | Frontend/src/app/user/components/seat-selector/seat-selector.component.ts:270 | the seat `find` picks depends only on the ids |
| SeatSelector.ApplyAvailabilityEffect | Frontend/src/app/user/components/seat-selector/seat-selector.component.ts:266-276 | with one entry per id, the first seat with each reported id gets `isBooked = !isAvailable` and `isHeld` unless the hold is this session's; every other seat is unchanged |
| SeatSelector.OwnHoldsShowAsHeld | Frontend/src/app/user/components/seat-selector/seat-selector.component.ts:273 | the server reports every holder as `'session'`, so for any other session id the seat's own hold still shows as held and the merge changes nothing |
| SeatSelector.RemainingSeconds | Frontend/src/app/user/components/seat-selector/seat-selector.component.ts:317 | the whole seconds left before the expiry, and 0 exactly when less than one second is left |
| SeatSelector.PadStart2 | Frontend/src/app/user/components/seat-selector/seat-selector.component.ts:339 | padding gives at least two characters |
| SeatSelector.TwoDigitString | Frontend/src/app/user/components/seat-selector/seat-selector.component.ts:339 | numbers below 10 have one digit and those from 10 to 99 have two |
| SeatSelector.PaddedSeconds | Frontend/src/app/user/components/seat-selector/seat-selector.component.ts:338-339 | the seconds part is two digits whose value is the remainder |
| SeatSelector.FormatTimeRoundTrip | Frontend/src/app/user/components/seat-selector/seat-selector.component.ts:336-340 | `m:ss` with two digits after the colon, where m * 60 + ss gives back the seconds and ss < 60 |
| SeatSelector.SeatSelectorComponent.constructor | Frontend/src/app/user/components/seat-selector/seat-selector.component.ts:225-232 | no layout, no selection, no expiry and 0 seconds remaining |
| SeatSelector.SeatSelectorComponent.LoadSeatLayout | Frontend/src/app/user/components/seat-selector/seat-selector.component.ts:252-256 | the received layout is stored |
| SeatSelector.SeatSelectorComponent.UpdateSeatAvailability | Frontend/src/app/user/components/seat-selector/seat-selector.component.ts:266-276 | nothing without a layout; otherwise the entries are merged into the layout's seats in order |
| SeatSelector.SeatSelectorComponent.GetSeatsForRow | Frontend/src/app/user/components/seat-selector/seat-selector.component.ts:278-280 | the layout's seats in that row, in layout order; none without a layout |
| SeatSelector.SeatSelectorComponent.ToggleSeat | Frontend/src/app/user/components/seat-selector/seat-selector.component.ts:282-295 | a booked seat changes and emits nothing; otherwise the selection is toggled and the new selection and total are emitted (held seats are not refused) |
| SeatSelector.SeatSelectorComponent.Tick | Frontend/src/app/user/components/seat-selector/seat-selector.component.ts:315-325 | without an expiry nothing happens; otherwise the remaining seconds are recomputed and at 0 the selection and expiry are cleared and an empty selection with total 0 is emitted |
| SeatSelector.SeatSelectorComponent.ExtendHold | Frontend/src/app/user/components/seat-selector/seat-selector.component.ts:328-334 | with a selection, the extension request is sent and an accepted reply sets the expiry to ten minutes after the reply |
| SeatSelector.ApplyAvailability | Frontend/src/app/user/components/seat-selector/seat-selector.component.ts:266-276 | the `forEach` merge keeps the number of seats (which seats change is `ApplyAvailabilityEffect`) |
| SeatSelector.FormatTime | Frontend/src/app/user/components/seat-selector/seat-selector.component.ts:336-340 | definition only: floored minutes, a colon and the padded remainder; `FormatTimeRoundTrip` states that the text reads back to the seconds |
| SeatLayoutPanel.RowLabel | Frontend/src/app/shared/components/seat-layout/seat-layout.component.ts:38-40 | row `index` is labelled by the single character with code 65 + index |
| SeatLayoutPanel.SeatLabel | Frontend/src/app/shared/components/seat-layout/seat-layout.component.ts:29 | a seat's id is its row's letter followed by its column number's digits |
| SeatLayoutPanel.SeatCountPrefix | Frontend/src/app/shared/components/seat-layout/seat-layout.component.ts:25-35 | the first `k` rows hold `min(10k, total)` seats |
| SeatLayoutPanel.PanelRowsShape | Frontend/src/app/shared/components/seat-layout/seat-layout.component.ts:21-36 | `ceil(total / 10)` rows of 1 to 10 seats, `total` seats in all; a non-positive total gives no rows |
| SeatLayoutPanel.PanelSeatsStart | Frontend/src/app/shared/components/seat-layout/seat-layout.component.ts:28-32 | every new seat is unselected, booked by its draw, and has id row letter plus column |
| SeatLayoutPanel.NatToStringInjective | Frontend/src/app/shared/components/seat-layout/seat-layout.component.ts:29 | different column numbers have different texts |
| SeatLayoutPanel.PanelIdsDistinct | Frontend/src/app/shared/components/seat-layout/seat-layout.component.ts:25-35 | no two seats of a generated grid share an id |
| SeatLayoutPanel.SelectedInRowMeaning | Frontend/src/app/shared/components/seat-layout/seat-layout.component.ts:53-57 | a row contributes an id exactly when one of its seats with that id is selected |
| SeatLayoutPanel.SelectedIdsMeaning | Frontend/src/app/shared/components/seat-layout/seat-layout.component.ts:50-60 | an id is emitted exactly when some seat with that id is selected |
| SeatLayoutPanel.FlipToggles | Frontend/src/app/shared/components/seat-layout/seat-layout.component.ts:42-48 | with distinct ids, a toggle adds or removes that seat's id in the emitted selection and leaves every other id as it was |
| SeatLayoutPanel.SeatLayoutComponent.constructor | Frontend/src/app/shared/components/seat-layout/seat-layout.component.ts:12-19 | the grid is built in the constructor, before any input is bound, so it always has the default 50 seats |
| SeatLayoutPanel.SeatLayoutComponent.GenerateSeats | Frontend/src/app/shared/components/seat-layout/seat-layout.component.ts:21-36 | the rows for `totalSeats` are appended to the rows already there |
| SeatLayoutPanel.SeatLayoutComponent.EmitSelectedSeats | Frontend/src/app/shared/components/seat-layout/seat-layout.component.ts:50-60 | the selected seats' ids, row by row and left to right |
| SeatLayoutPanel.SeatLayoutComponent.ToggleSeat | Frontend/src/app/shared/components/seat-layout/seat-layout.component.ts:42-48 | a position outside the grid throws and changes nothing; a booked seat is left alone; otherwise only that seat's flag flips and the selection is emitted |
| ScreenEditor.GetRowLabel | Frontend/src/app/admin/pages/screens/screens.component.spec.ts:436-440 | row `index` is the single letter with code 65 + index: A for 0, B for 1, Z for 25; it is the shared grid's `SeatLayoutPanel.RowLabel` |
| ScreenEditor.FreshSeat | Frontend/src/app/admin/pages/screens/screens.component.spec.ts:141-149 | a generated seat is labelled by its row letter and 1-based column, has no category and is available |
| ScreenEditor.EditorGridSize | Frontend/src/app/admin/pages/screens/screens.component.spec.ts:141-146 | a generated map has rows × seatsPerRow seats |
| ScreenEditor.EditorGridAt | Frontend/src/app/admin/pages/screens/screens.component.spec.ts:141-149 | seat `r * seatsPerRow + c` of a generated map is row `r`, column `c` |
| ScreenEditor.GridExample | Frontend/src/app/admin/pages/screens/screens.component.spec.ts:141-149 | 5 rows of 10 give 50 seats, index 0 is "A1" and index 10 is "B1" |
| ScreenEditor.RowSeatsMeaning | Frontend/src/app/admin/pages/screens/screens.component.spec.ts:442-450 | a seat is listed for a row exactly when it is in the map and in that row |
| ScreenEditor.RowSeatsAppend | Frontend/src/app/admin/pages/screens/screens.component.spec.ts:442-450 | a row's seats in a joined map are its seats in each part, in order |
| ScreenEditor.RowSeatsOfRow | Frontend/src/app/admin/pages/screens/screens.component.spec.ts:442-450 | a block of seats all in one row contributes all of them to that row and none to others |
| ScreenEditor.RowSeatsOfGrid | Frontend/src/app/admin/pages/screens/screens.component.spec.ts:442-450 | in a generated map, a row's seats are that row's fresh seats in column order |
| ScreenEditor.RowSeatsExample | Frontend/src/app/admin/pages/screens/screens.component.spec.ts:442-450 | with 3 rows of 5, row 1 has 5 seats and the first is "B1" |
| ScreenEditor.QuickAssigned | Frontend/src/app/admin/pages/screens/screens.component.spec.ts:222-260 | a quick assignment keeps the number of seats |
| ScreenEditor.QuickAssignedAppend | Frontend/src/app/admin/pages/screens/screens.component.spec.ts:222-231 | a quick assignment works seat by seat |
| ScreenEditor.CategoryCountAppend | Frontend/src/app/admin/pages/screens/screens.component.spec.ts:228 | the count of seats with a category adds over joined maps |
| ScreenEditor.CategoryCountUniform | Frontend/src/app/admin/pages/screens/screens.component.spec.ts:228 | a block where every seat (or no seat) has the category counts all (or none) of its seats |
| ScreenEditor.RowsInRangeOverlap | Frontend/src/app/admin/pages/screens/screens.component.spec.ts:222-231 | the rows in range are the overlap of `from..to` with the map's rows |
| ScreenEditor.QuickAssignRowCount | Frontend/src/app/admin/pages/screens/screens.component.spec.ts:222-231 | a fresh row gets the category on all its seats exactly when it is in range |
| ScreenEditor.QuickAssignedCountAppend | Frontend/src/app/admin/pages/screens/screens.component.spec.ts:228 | the assigned count after a quick assignment adds over joined maps |
| ScreenEditor.QuickAssignCount | Frontend/src/app/admin/pages/screens/screens.component.spec.ts:222-231 | on a fresh map, a quick assignment gives the category to seatsPerRow seats per row in range and to no other seat |
| ScreenEditor.QuickAssignExample | Frontend/src/app/admin/pages/screens/screens.component.spec.ts:222-231 | rows 0 to 2 of 5 rows of 10 give 30 seats |
| ScreenEditor.QuickAssignEffect | Frontend/src/app/admin/pages/screens/screens.component.spec.ts:249-260 | booked seats and seats outside the range are untouched; every other seat in range gets the category |
| ScreenEditor.AssignedTo | Frontend/src/app/admin/pages/screens/screens.component.spec.ts:273-290 | assigning a category sets it on the seats with that id and nowhere else |
| ScreenEditor.ToggledStatusTwice | Frontend/src/app/admin/pages/screens/screens.component.spec.ts:292-298 | toggling a seat's status twice restores it |
| ScreenEditor.WithStatusToggled | Frontend/src/app/admin/pages/screens/screens.component.spec.ts:292-298 | toggling switches available and disabled on the seats with that id only |
| ScreenEditor.WithCategoryEdited | Frontend/src/app/admin/pages/screens/screens.component.spec.ts:177-182 | an update edits the category with that id and no other |
| ScreenEditor.Unassigned | Frontend/src/app/admin/pages/screens/screens.component.spec.ts:200-209 | deleting a category clears it from exactly the seats that used it |
| ScreenEditor.DeleteKeepsResolved | Frontend/src/app/admin/pages/screens/screens.component.spec.ts:184-209 | after a deletion every seat's category is still a listed one, and no seat refers to the deleted one |
| ScreenEditor.AllRulesChecked | Frontend/src/app/admin/pages/screens/screens.component.spec.ts:318-354 | every validation rule is checked |
| ScreenEditor.ValidationReports | Frontend/src/app/admin/pages/screens/screens.component.spec.ts:318-354 | each rule's message is recorded exactly when the rule is broken |
| ScreenEditor.ValidationMeaning | Frontend/src/app/admin/pages/screens/screens.component.spec.ts:313-354 | validation passes exactly when there is a theatre and a name, 1-26 rows, 1-50 seats per row, at least one category and every price above 0 |
| ScreenEditor.SeatPrice | Frontend/src/app/admin/pages/screens/screens.component.spec.ts:452-464 | a seat without a category costs 0; a seat whose category id some listed category carries costs the price of the first such category; a seat whose id no listed category carries costs 0 |
| ScreenEditor.TotalSeats | Frontend/src/app/admin/pages/screens/screens.component.spec.ts:424-432 | the seat total counts the seats that are not disabled, and equals the map size when none is |
| ScreenEditor.FreshGridTotal | Frontend/src/app/admin/pages/screens/screens.component.spec.ts:141-146 | a generated map has no disabled seat, so its total is rows × seatsPerRow |
| ScreenEditor.FreshGridAvailable | Frontend/src/app/admin/pages/screens/screens.component.spec.ts:141-149 | every seat of a generated map is available and has no category |
| ScreenEditor.ScreenEditorComponent.constructor | Frontend/src/app/admin/pages/screens/screens.component.spec.ts:47-50 | the editor starts with nothing selected, no seats or categories and no unsaved changes |
| ScreenEditor.ScreenEditorComponent.OnTheatreChange | Frontend/src/app/admin/pages/screens/screens.component.spec.ts:100-108 | changing the theatre clears the screen choice and the seat map |
| ScreenEditor.ScreenEditorComponent.CreateNewScreen | Frontend/src/app/admin/pages/screens/screens.component.spec.ts:120-127 | a new screen is named after the next screen number and marks unsaved changes |
| ScreenEditor.ScreenEditorComponent.GenerateSeatMap | Frontend/src/app/admin/pages/screens/screens.component.spec.ts:141-149 | the map is replaced by a fresh rows × seatsPerRow grid |
| ScreenEditor.ScreenEditorComponent.ApplyQuickAssign | Frontend/src/app/admin/pages/screens/screens.component.spec.ts:222-260 | no category or a reversed range raises its own error and changes nothing; otherwise every unbooked seat in range gets the category |
| ScreenEditor.ScreenEditorComponent.AssignCategory | Frontend/src/app/admin/pages/screens/screens.component.spec.ts:273-290 | a booked seat is left alone; otherwise the seat gets the category and changes are marked unsaved |
| ScreenEditor.ScreenEditorComponent.ToggleSeatDisabled | Frontend/src/app/admin/pages/screens/screens.component.spec.ts:292-298 | the seat's status is toggled and changes are marked unsaved |
| ScreenEditor.ScreenEditorComponent.AddCategory | Frontend/src/app/admin/pages/screens/screens.component.spec.ts:169-175 | a category named "New Category" is appended |
| ScreenEditor.ScreenEditorComponent.UpdateCategory | Frontend/src/app/admin/pages/screens/screens.component.spec.ts:177-182 | one field of the category with that id changes |
| ScreenEditor.ScreenEditorComponent.DeleteCategory | Frontend/src/app/admin/pages/screens/screens.component.spec.ts:184-209 | the last category cannot be deleted; once confirmed, the category goes and its seats lose it |
| ScreenEditor.ScreenEditorComponent.Validate | Frontend/src/app/admin/pages/screens/screens.component.spec.ts:301-355 | the broken rules' messages are recorded, and the result says whether the screen is publishable |
| ScreenEditor.ScreenEditorComponent.SaveScreen | Frontend/src/app/admin/pages/screens/screens.component.spec.ts:357-414 | an invalid screen raises "Please fix validation errors" and nothing is sent; a new screen is POSTed and an existing one PUT; a successful reply clears the unsaved flag |
| ScreenEditor.SeatPriceExamples | Frontend/src/app/admin/pages/screens/screens.component.spec.ts:452-464 | a seat of category `c1` priced 250 costs 250, and a seat without a category costs 0 |
| ScreenEditor.ValidationErrors | Frontend/src/app/admin/pages/screens/screens.component.spec.ts:318-354 | definition only: the broken rules in rule order; `ValidationReports` states that each one is reported exactly when broken |
| ScreenEditor.ToggledStatus | Frontend/src/app/admin/pages/screens/screens.component.spec.ts:292-298 | definition only: available and disabled swap, booked stays; `ToggledStatusTwice` states that it is its own inverse |
| ScreenEditor.ScreenEditorComponent.LoadScreenConfig | Frontend/src/app/admin/pages/screens/screens.component.spec.ts:129-139 | the fetched configuration's name, row count and seats per row become the editor's |
| ScreenEditor.ScreenEditorComponent.OnLayoutChange | Frontend/src/app/admin/pages/screens/screens.component.spec.ts:151-158 | confirmation is asked exactly when the map already has seats; the map is regenerated unless the user declines |
| BookingsReport.FilteredBookings | Frontend/src/app/admin/pages/bookings-report/bookings-report.component.ts:39-69 | the bookings meeting the date, search, movie, theatre and status criteria, in their order |
| BookingsReport.NoFilterKeepsAll | Frontend/src/app/admin/pages/bookings-report/bookings-report.component.ts:48-68 | with no criterion set every booking is listed |
| BookingsReport.ToDayIncluded | Frontend/src/app/admin/pages/bookings-report/bookings-report.component.ts:50-56 | with both dates set, any moment of the "to" day is in range and the first moment of the next day is not |
| BookingsReport.SearchIgnoresCase | Frontend/src/app/admin/pages/bookings-report/bookings-report.component.ts:46-61 | an upper-cased search term keeps the same bookings |
| BookingsReport.LowerOfUpper | Frontend/src/app/admin/pages/bookings-report/bookings-report.component.ts:46-61 | lower-casing an upper-cased text gives its lower case |
| BookingsReport.TotalPages | Frontend/src/app/admin/pages/bookings-report/bookings-report.component.ts:71 | the page count is the ceiling of the item count over the page size |
| BookingsReport.PageShape | Frontend/src/app/admin/pages/bookings-report/bookings-report.component.ts:73-77 | page `p` is the run of at most 10 items starting at offset `(p - 1) * 10` |
| BookingsReport.PagesUpToPrefix | Frontend/src/app/admin/pages/bookings-report/bookings-report.component.ts:73-77 | the first `k` pages joined are the list's first `k * 10` items |
| BookingsReport.PageOffsets | Frontend/src/app/admin/pages/bookings-report/bookings-report.component.ts:74-75 | each page starts where the previous one ends |
| BookingsReport.AllPagesCoverList | Frontend/src/app/admin/pages/bookings-report/bookings-report.component.ts:71-77 | paging through every page shows the whole filtered list, in order, exactly once |
| BookingsReport.EndIndexCountsShown | Frontend/src/app/admin/pages/bookings-report/bookings-report.component.ts:194-196 | the end index is the page's offset plus the number of items on the page |
| BookingsReport.PreviousPageOf | Frontend/src/app/admin/pages/bookings-report/bookings-report.component.ts:165-169 | going back never leaves page 1 and moves only from a page above 1 |
| BookingsReport.NextPageOf | Frontend/src/app/admin/pages/bookings-report/bookings-report.component.ts:171-175 | going forward never passes the last page and moves only from a page before it |
| BookingsReport.NextThenPrevious | Frontend/src/app/admin/pages/bookings-report/bookings-report.component.ts:165-175 | going forward and then back returns to the same page |
| BookingsReport.RevenueAppend | Frontend/src/app/admin/pages/bookings-report/bookings-report.component.ts:81-84 | one more booking adds its amount (or 0) to the revenue when it is confirmed, and nothing otherwise |
| BookingsReport.ConfirmedAndCancelledFit | Frontend/src/app/admin/pages/bookings-report/bookings-report.component.ts:82-96 | no booking is both confirmed and cancelled, so the two counts fit in the total |
| BookingsReport.AvgTicketsPerBooking | Frontend/src/app/admin/pages/bookings-report/bookings-report.component.ts:98-103 | 0 for no bookings; otherwise the average times the booking count is the total number of seats |
| BookingsReport.DailyBookingsData | Frontend/src/app/admin/pages/bookings-report/bookings-report.component.ts:206-226 | seven counts, oldest first, each the number of bookings made on that day |
| BookingsReport.KeysOf | Frontend/src/app/admin/pages/bookings-report/bookings-report.component.ts:229-237 | the tally's keys, entry by entry |
| BookingsReport.KeyIndex | Frontend/src/app/admin/pages/bookings-report/bookings-report.component.ts:234 | looking up a key finds its entry, or nothing exactly when it is not in the tally |
| BookingsReport.KeyCountZero | Frontend/src/app/admin/pages/bookings-report/bookings-report.component.ts:232-237 | a key no booking has counts 0 |
| BookingsReport.KeyCountSnoc | Frontend/src/app/admin/pages/bookings-report/bookings-report.component.ts:232-237 | one more booking adds 1 to its own key's count only |
| BookingsReport.CountedKnown | Frontend/src/app/admin/pages/bookings-report/bookings-report.component.ts:234-236 | a booking of a movie already tallied bumps that entry's count |
| BookingsReport.CountedNew | Frontend/src/app/admin/pages/bookings-report/bookings-report.component.ts:234-236 | a booking of a new movie adds an entry with its title and a count of 1 |
| BookingsReport.TallyCorrect | Frontend/src/app/admin/pages/bookings-report/bookings-report.component.ts:229-237 | the tally has one entry per movie key, carrying the number of bookings with that key |
| BookingsReport.CountedCorrect | Frontend/src/app/admin/pages/bookings-report/bookings-report.component.ts:232-237 | one step of the loop keeps the tally faithful |
| BookingsReport.TallyMovies | Frontend/src/app/admin/pages/bookings-report/bookings-report.component.ts:229-237 | the loop builds exactly the faithful tally |
| BookingsReport.InsertByBookings | Frontend/src/app/admin/pages/bookings-report/bookings-report.component.ts:239-240 | inserting keeps every entry and adds the new one |
| BookingsReport.InsertKeepsSorted | Frontend/src/app/admin/pages/bookings-report/bookings-report.component.ts:239-240 | inserting into a list sorted by count keeps it sorted |
| BookingsReport.SortByBookings | Frontend/src/app/admin/pages/bookings-report/bookings-report.component.ts:239-240 | the sort orders by count, largest first, and is a permutation of the tally |
| BookingsReport.PrefixOfSorted | Frontend/src/app/admin/pages/bookings-report/bookings-report.component.ts:241 | a prefix of a list sorted by count holds its largest counts |
| BookingsReport.TopStatsShape | Frontend/src/app/admin/pages/bookings-report/bookings-report.component.ts:239-241 | at most three entries, sorted by count, all from the tally |
| BookingsReport.PrefixOfSortedShape | Frontend/src/app/admin/pages/bookings-report/bookings-report.component.ts:241 | a prefix of a sorted list is sorted and drawn from it |
| BookingsReport.TopStatsAreTop | Frontend/src/app/admin/pages/bookings-report/bookings-report.component.ts:239-241 | any movie left out has no more bookings than any movie shown |
| BookingsReport.MaxBookings | Frontend/src/app/admin/pages/bookings-report/bookings-report.component.ts:243 | the largest count, or 1: no count exceeds it |
| BookingsReport.PercentageBounds | Frontend/src/app/admin/pages/bookings-report/bookings-report.component.ts:247 | a count's share of a count at least as large lies between 0 and 100 |
| BookingsReport.MaxOfSorted | Frontend/src/app/admin/pages/bookings-report/bookings-report.component.ts:243 | for a list sorted by count the largest is the first count, or 1 |
| BookingsReport.PopularMovies | Frontend/src/app/admin/pages/bookings-report/bookings-report.component.ts:228-249 | at most three lines, each a top movie with its share of the leader's count between 0 and 100, and 100 for the leader |
| BookingsReport.GetPopularMovies | Frontend/src/app/admin/pages/bookings-report/bookings-report.component.ts:228-249 | the tally loop followed by sort, slice and percentages gives the popular-movie lines |
| BookingsReport.BookingsReportComponent.constructor | Frontend/src/app/admin/pages/bookings-report/bookings-report.component.ts:20-35 | no bookings, no criteria and page 1 |
| BookingsReport.BookingsReportComponent.LoadData | Frontend/src/app/admin/pages/bookings-report/bookings-report.component.ts:133-151 | a reply replaces the bookings; a failure keeps them and raises "Failed to load bookings data" |
| BookingsReport.BookingsReportComponent.SetFilter | Frontend/src/app/admin/pages/bookings-report/bookings-report.component.ts:20-25 | the bound criteria are stored |
| BookingsReport.BookingsReportComponent.OnFilterChange | Frontend/src/app/admin/pages/bookings-report/bookings-report.component.ts:161-163 | a criteria change returns to page 1 |
| BookingsReport.BookingsReportComponent.PreviousPage | Frontend/src/app/admin/pages/bookings-report/bookings-report.component.ts:165-169 | the page goes back one unless it is the first |
| BookingsReport.BookingsReportComponent.NextPage | Frontend/src/app/admin/pages/bookings-report/bookings-report.component.ts:171-175 | the page goes forward one unless it is the last |
| MyBookings.Visible | Frontend/src/app/user/pages/my-bookings/my-bookings.component.ts:65-93 | the listed bookings are those in the tab (upcoming: future and Confirmed; past: strictly earlier; cancelled: Cancelled; any other tab: all) that match the search in title or theatre, ignoring case, in order |
| MyBookings.AllTabListsEverything | Frontend/src/app/user/pages/my-bookings/my-bookings.component.ts:66-82 | the "all" tab with no search lists every booking |
| MyBookings.ShowStartingNowInNeitherTab | Frontend/src/app/user/pages/my-bookings/my-bookings.component.ts:73-76 | a show starting exactly now is neither upcoming nor past |
| MyBookings.CanCancelWindow | Frontend/src/app/user/pages/my-bookings/my-bookings.component.ts:120-126 | cancelling is allowed exactly when more than two hours remain before the show |
| MyBookings.RefundTiers | Frontend/src/app/user/pages/my-bookings/my-bookings.component.ts:147-155 | 90% more than 24 hours ahead, 50% more than 4 hours ahead, nothing otherwise |
| MyBookings.RefundMonotone | Frontend/src/app/user/pages/my-bookings/my-bookings.component.ts:147-155 | cancelling later never refunds more, and the refund never exceeds the amount paid |
| MyBookings.CancellableWithoutRefund | Frontend/src/app/user/pages/my-bookings/my-bookings.component.ts:120-155 | a cancel three hours ahead is allowed yet refunds nothing |
| MyBookings.EmptyStateMessage | Frontend/src/app/user/pages/my-bookings/my-bookings.component.ts:162-169 | one message per tab, and for any other tab the message depends on whether a search term is set |
| MyBookings.Cancelled | Frontend/src/app/user/pages/my-bookings/my-bookings.component.ts:136-140 | a cancelled booking has status Cancelled, the refund for that moment, the refund date and the reason, and nothing else changes |
| MyBookings.CancelledMovesTab | Frontend/src/app/user/pages/my-bookings/my-bookings.component.ts:73-137 | a cancelled booking shows under "cancelled" and never under "upcoming" |
| MyBookings.MyBookingsComponent.constructor | Frontend/src/app/user/pages/my-bookings/my-bookings.component.ts:18-45 | the two sample bookings, all listed, on the "all" tab with no search |
| MyBookings.MyBookingsComponent.FilterBookings | Frontend/src/app/user/pages/my-bookings/my-bookings.component.ts:65-93 | the list shown is the tab's bookings matching the search |
| MyBookings.MyBookingsComponent.SetFilter | Frontend/src/app/user/pages/my-bookings/my-bookings.component.ts:56-59 | the tab changes and the list is recomputed |
| MyBookings.MyBookingsComponent.OnSearch | Frontend/src/app/user/pages/my-bookings/my-bookings.component.ts:61-63 | the search changes and the list is recomputed |
| MyBookings.MyBookingsComponent.CancelBooking | Frontend/src/app/user/pages/my-bookings/my-bookings.component.ts:128-145 | no reason, an empty reason or no confirmation changes nothing; otherwise the booking is cancelled with its refund, the list is recomputed and a success alert names the booking and refund; `canCancel` is not checked |
| MyBookings.InTab | Frontend/src/app/user/pages/my-bookings/my-bookings.component.ts:70-82 | definition only: upcoming is a future Confirmed show, past a strictly earlier show, cancelled the Cancelled status, and any other tab keeps all; `Visible` and `ShowStartingNowInNeitherTab` build on it |
| MyBookings.CanCancel | Frontend/src/app/user/pages/my-bookings/my-bookings.component.ts:120-126 | definition only: the hours left, as a fraction, exceed 2; `CanCancelWindow` states it in whole milliseconds |
| MyBookings.Refund | Frontend/src/app/user/pages/my-bookings/my-bookings.component.ts:147-155 | definition only: the tiered refund; `RefundTiers` and `RefundMonotone` state the tiers and their order |
| Alerts.Removed | Frontend/src/app/core/services/alert.service.ts:50-53 | removing keeps, in order, exactly the alerts whose id differs |
| Alerts.RemoveUnknownId | Frontend/src/app/core/services/alert.service.ts:50-53 | removing an id no alert carries changes nothing |
| Alerts.RemoveAfterAdd | Frontend/src/app/core/services/alert.service.ts:34-53 | adding an alert and removing it by its id gives back the earlier list when no earlier alert shares the id |
| Alerts.SameMillisecondRemovedTogether | Frontend/src/app/core/services/alert.service.ts:36-52 | two alerts added in the same millisecond share an id, so removing one removes both |
| Alerts.AlertService.constructor | Frontend/src/app/core/services/alert.service.ts:15 | the queue starts empty |
| Alerts.AlertService.AddAlert | Frontend/src/app/core/services/alert.service.ts:34-48 | one alert is appended with the clock reading as its id, and its removal is scheduled exactly when it closes automatically |
| Alerts.AlertService.Success | Frontend/src/app/core/services/alert.service.ts:18-20 | a success alert, closing automatically unless the caller says otherwise |
| Alerts.AlertService.Error | Frontend/src/app/core/services/alert.service.ts:22-24 | an error alert, staying until dismissed unless the caller says otherwise |
| Alerts.AlertService.Warning | Frontend/src/app/core/services/alert.service.ts:26-28 | a warning alert, closing automatically unless the caller says otherwise |
| Alerts.AlertService.Info | Frontend/src/app/core/services/alert.service.ts:30-32 | an info alert, closing automatically unless the caller says otherwise |
| Alerts.AlertService.RemoveAlert | Frontend/src/app/core/services/alert.service.ts:50-53 | the alerts with that id are removed |
| Alerts.AlertService.Clear | Frontend/src/app/core/services/alert.service.ts:55-57 | the queue becomes empty |
| ErrorInterceptor.ErrorMessage | Frontend/src/app/core/interceptors/error.interceptor.ts:11-38 | every failure gets a non-empty message; a client-side failure shows "Error: " and its own message; for a status other than 401, 403 and 500 the server's own message wins when it has one (the fixed and fallback texts are `FixedMessagesIgnoreBody` and `FallbackMessages`) |
| ErrorInterceptor.FixedMessagesIgnoreBody | Frontend/src/app/core/interceptors/error.interceptor.ts:22-34 | 401 gives "Unauthorized. Please login again.", 403 "Access forbidden" and 500 "Server error. Please try again later.", whatever the server sent |
| ErrorInterceptor.ServerMessageWins | Frontend/src/app/core/interceptors/error.interceptor.ts:19-36 | for every other status the server's message wins when it has one |
| ErrorInterceptor.FallbackMessages | Frontend/src/app/core/interceptors/error.interceptor.ts:19-36 | without a server message: "Bad request" for 400, "Resource not found" for 404, and otherwise the status and its text |
| ErrorInterceptor.Intercept | Frontend/src/app/core/interceptors/error.interceptor.ts:9-47 | one error alert that stays until dismissed, and the same failure rethrown |
| ErrorInterceptor.HandleFailure | Frontend/src/app/core/interceptors/error.interceptor.ts:40-45 | exactly the interceptor's one alert is appended to the queue and the error is passed on |
| AdminGuard.CanActivate | Frontend/src/app/core/guards/admin.guard.ts:12-26 | navigation proceeds exactly for an authenticated administrator, and a redirect is given exactly when it does not |
| AdminGuard.UnauthenticatedGoesToLogin | Frontend/src/app/core/guards/admin.guard.ts:13-17 | an unauthenticated caller goes to the login page whatever the role flag says |
| AdminGuard.NonAdminGoesHome | Frontend/src/app/core/guards/admin.guard.ts:19-23 | an authenticated non-administrator goes to the user home page |
| UserGuard.CanActivate | Frontend/src/app/core/guards/user.guard.ts:11-20 | navigation proceeds for everyone except an authenticated administrator, and a redirect is given exactly when it does not |
| UserGuard.AdminGoesToDashboard | Frontend/src/app/core/guards/user.guard.ts:12-16 | an authenticated administrator is sent to the admin dashboard |
| UserGuard.GuardsSplitAuthenticatedUsers | Frontend/src/app/core/guards/user.guard.ts:11-20 | an authenticated caller passes exactly one of the two guards; an unauthenticated one passes only the user guard |
| ErrorInterceptor.ClientMessageQuoted | Frontend/src/app/core/interceptors/error.interceptor.ts:13-15 | a client-side failure shows "Error: " followed by its own message |
| HeroSlider.StepsStayInRange | Frontend/src/app/user/components/hero-slider/hero-slider.component.ts:269-275 | with a non-empty list, moving forward or back keeps a valid index valid |
| HeroSlider.Wraps | Frontend/src/app/user/components/hero-slider/hero-slider.component.ts:269-275 | forward from the last slide wraps to the first, and back from the first wraps to the last |
| HeroSlider.PrevUndoesNext | Frontend/src/app/user/components/hero-slider/hero-slider.component.ts:269-275 | back undoes forward and forward undoes back on a valid index |
| HeroSlider.WrapStep | Frontend/src/app/user/components/hero-slider/hero-slider.component.ts:270 | one step forward with the truncating remainder is the next index, or 0 after the last |
| HeroSlider.NextTimesAt | Frontend/src/app/user/components/hero-slider/hero-slider.component.ts:257-271 | `k` automatic advances from slide `i` land `k` slides on, wrapping to 0 at the end |
| HeroSlider.NextTimesSplit | Frontend/src/app/user/components/hero-slider/hero-slider.component.ts:257-260 | `j + k` advances are `j` advances followed by `k` |
| HeroSlider.FullCycle | Frontend/src/app/user/components/hero-slider/hero-slider.component.ts:257-271 | as many advances as there are slides bring the carousel back to where it started |
| HeroSlider.NaNIsSticky | Frontend/src/app/user/components/hero-slider/hero-slider.component.ts:270-274 | with an empty list the index becomes NaN, and NaN stays NaN through any later step |
| HeroSlider.CurrentMovie | Frontend/src/app/user/components/hero-slider/hero-slider.component.ts:248-250 | the current movie exists exactly when the index is valid, and is the movie at that index |
| HeroSlider.HeroSliderComponent.constructor | Frontend/src/app/user/components/hero-slider/hero-slider.component.ts:233-235 | no movies and index 0 |
| HeroSlider.HeroSliderComponent.SetMovies | Frontend/src/app/user/components/hero-slider/hero-slider.component.ts:233 | binding a new list keeps the index as it was |
| HeroSlider.HeroSliderComponent.NextSlide | Frontend/src/app/user/components/hero-slider/hero-slider.component.ts:269-271 | the index moves forward with wrap-around |
| HeroSlider.HeroSliderComponent.PrevSlide | Frontend/src/app/user/components/hero-slider/hero-slider.component.ts:273-275 | the index moves back, from 0 to the last slide |
| HeroSlider.HeroSliderComponent.GoToSlide | Frontend/src/app/user/components/hero-slider/hero-slider.component.ts:277-281 | the index becomes the chosen one, with no bounds check |
| HeroSlider.Next | Frontend/src/app/user/components/hero-slider/hero-slider.component.ts:269-271 | the next index is NaN exactly when the index is NaN or the list is empty, and a valid index stays valid |
| HeroSlider.Prev | Frontend/src/app/user/components/hero-slider/hero-slider.component.ts:273-275 | the previous index is NaN exactly when the index is NaN, and a valid index stays valid |
| HeroSlider.BackgroundImage | Frontend/src/app/user/components/hero-slider/hero-slider.component.ts:252-255 | definition only: the current movie's poster URL inside `url(` and `)`, and `url()` when there is no current movie |
| ManageTheatres.FindIndex | Frontend/src/app/admin/pages/manage-theatres/manage-theatres.component.ts:56 | the result is the first position holding the id, and none exactly when no theatre carries it |
| ManageTheatres.InvalidSubmitKeepsList | Frontend/src/app/admin/pages/manage-theatres/manage-theatres.component.ts:51-52 | submitting an invalid form leaves the list unchanged, when adding and when editing |
| ManageTheatres.AddAppendsActiveTheatre | Frontend/src/app/admin/pages/manage-theatres/manage-theatres.component.ts:58-64 | a valid add appends one active theatre, with the clock reading as id and the form's values, after the unchanged list |
| ManageTheatres.EditRewritesFirstMatch | Frontend/src/app/admin/pages/manage-theatres/manage-theatres.component.ts:55-57 | a valid edit keeps the length and the ids and rewrites only the first entry with the edited id; that entry takes the form's values and keeps its status and image |
| ManageTheatres.DistinctEditRewritesEdited | Frontend/src/app/admin/pages/manage-theatres/manage-theatres.component.ts:55-57 | with distinct ids, the edited theatre itself is the one replaced by the merge |
| ManageTheatres.SubmitKeepsIdsDistinct | Frontend/src/app/admin/pages/manage-theatres/manage-theatres.component.ts:51-69 | distinct ids stay distinct through an edit, and through an add whose clock reading is not yet an id |
| ManageTheatres.ToggleFlipsOnlyOne | Frontend/src/app/admin/pages/manage-theatres/manage-theatres.component.ts:72-74 | toggling flips only that theatre's active flag, and toggling twice restores the list |
| ManageTheatres.ManageTheatresComponent.constructor | Frontend/src/app/admin/pages/manage-theatres/manage-theatres.component.ts:18-37 | the form starts with empty text and one screen, hidden, in add mode, listing the three sample theatres |
| ManageTheatres.ManageTheatresComponent.AddTheatre | Frontend/src/app/admin/pages/manage-theatres/manage-theatres.component.ts:39-43 | the form is shown reset, in add mode, and the list is kept |
| ManageTheatres.ManageTheatresComponent.EditTheatre | Frontend/src/app/admin/pages/manage-theatres/manage-theatres.component.ts:45-49 | the form is shown holding the chosen theatre's values, in edit mode for it |
| ManageTheatres.ManageTheatresComponent.SetForm | Frontend/src/app/admin/pages/manage-theatres/manage-theatres.component.ts:19-24 | the user's input replaces the form and nothing else |
| ManageTheatres.ManageTheatresComponent.OnSubmit | Frontend/src/app/admin/pages/manage-theatres/manage-theatres.component.ts:51-70 | the list becomes the submitted list; a valid form is then hidden and reset, and an invalid one is kept as it was |
| ManageTheatres.ManageTheatresComponent.ToggleStatus | Frontend/src/app/admin/pages/manage-theatres/manage-theatres.component.ts:72-74 | the list becomes the toggled list and the form state is kept |
| ManageTheatres.ManageTheatresComponent.CancelForm | Frontend/src/app/admin/pages/manage-theatres/manage-theatres.component.ts:76-79 | the form is hidden and reset; the list is kept |
| ManageTheatres.Submitted | Frontend/src/app/admin/pages/manage-theatres/manage-theatres.component.ts:51-70 | definition only: the list after a submit; `InvalidSubmitKeepsList`, `AddAppendsActiveTheatre`, `EditRewritesFirstMatch` and `SubmitKeepsIdsDistinct` state its cases |
| ManageTheatres.Merged | Frontend/src/app/admin/pages/manage-theatres/manage-theatres.component.ts:55-57 | definition only: the edited theatre with the form's four fields; `EditRewritesFirstMatch` states that id and status stay |
| ManageTheatres.NewTheatre | Frontend/src/app/admin/pages/manage-theatres/manage-theatres.component.ts:58-64 | definition only: an active theatre with the clock reading as id; `AddAppendsActiveTheatre` states it |
| ManageTheatres.Toggled | Frontend/src/app/admin/pages/manage-theatres/manage-theatres.component.ts:72-74 | definition only: one active flag flipped; `ToggleFlipsOnlyOne` states that only it changes and that two toggles restore |
| ManageShows.FilteredShows | Frontend/src/app/admin/pages/manage-shows/manage-shows.component.ts:162-180 | the kept shows are an in-order subsequence of the loaded shows, and a show is kept exactly when it meets the search, movie, theatre and date criteria |
| ManageShows.NoFiltersKeepsAll | Frontend/src/app/admin/pages/manage-shows/manage-shows.component.ts:164-176 | with no criterion set, every show is listed |
| ManageShows.DateFilterKeepsSameDay | Frontend/src/app/admin/pages/manage-shows/manage-shows.component.ts:172-176 | a chosen date keeps exactly the shows starting on that calendar day, whatever time of day either timestamp carries |
| ManageShows.EmptyStateMessage | Frontend/src/app/admin/pages/manage-shows/manage-shows.component.ts:310-319 | the "no match" text is shown exactly when some filter is set, and the "no shows yet" text exactly when none is |
| ManageShows.BuildShowtime | Frontend/src/app/admin/pages/manage-shows/manage-shows.component.ts:208-217 | a valid form becomes a record with all seats available, a positive price and seat count, and the form can be read back from it |
| ManageShows.DefaultFormInvalid | Frontend/src/app/admin/pages/manage-shows/manage-shows.component.ts:193-259 | the reset form never passes validation |
| ManageShows.ManageShowsComponent.constructor | Frontend/src/app/admin/pages/manage-shows/manage-shows.component.ts:20-43 | no shows, no criteria, the form hidden, not editing, the default form, not submitting |
| ManageShows.ManageShowsComponent.SetShows | Frontend/src/app/admin/pages/manage-shows/manage-shows.component.ts:119-147 | the loaded shows replace the list, and the visible list is their filtered list |
| ManageShows.ManageShowsComponent.FilterShows | Frontend/src/app/admin/pages/manage-shows/manage-shows.component.ts:162-180 | the visible list becomes the filtered list of the loaded shows; nothing else changes |
| ManageShows.ManageShowsComponent.OnFilterChange | Frontend/src/app/admin/pages/manage-shows/manage-shows.component.ts:154-160 | the new criteria are kept and the visible list is filtered by them |
| ManageShows.ManageShowsComponent.ResetForm | Frontend/src/app/admin/pages/manage-shows/manage-shows.component.ts:193-203 | the form takes its default values; nothing else changes |
| ManageShows.ManageShowsComponent.AddNewShow | Frontend/src/app/admin/pages/manage-shows/manage-shows.component.ts:186-191 | the form is shown with default values, in add mode without an edited id |
| ManageShows.ManageShowsComponent.CancelAdd | Frontend/src/app/admin/pages/manage-shows/manage-shows.component.ts:261-266 | the form is hidden and reset, and edit mode and the edited id are cleared |
| ManageShows.ManageShowsComponent.ValidateForm | Frontend/src/app/admin/pages/manage-shows/manage-shows.component.ts:251-259 | the answer is the validity of the form; an invalid form adds exactly one error alert, a valid one none |
| ManageShows.ManageShowsComponent.SaveShow | Frontend/src/app/admin/pages/manage-shows/manage-shows.component.ts:205-249 | a request is sent exactly when the form is valid; it carries the form's record and is an update of the edited id exactly in edit mode with a non-empty id, and submitting is set |
| ManageShows.ReplyMessage | Frontend/src/app/admin/pages/manage-shows/manage-shows.component.ts:219-246 | a successful update shows "Show updated successfully!", a successful creation "Show added successfully!", and a failed one "Failed to update show" or "Failed to create show" |
| ManageShows.ManageShowsComponent.SaveReply | Frontend/src/app/admin/pages/manage-shows/manage-shows.component.ts:219-246 | a successful reply adds a success alert that closes itself and leaves add and edit mode with a reset form; a failed one adds an error alert and keeps the form; either way submitting ends and the list is untouched |
| Dashboard.MaxRevenue | Frontend/src/app/admin/pages/dashboard/dashboard.component.ts:113-116 | the chart's scale is at least 100, at least every revenue, and is either 100 or one of the revenues |
| Dashboard.BarHeightBounds | Frontend/src/app/admin/pages/dashboard/dashboard.component.ts:118-121 | a non-negative revenue of the data gets a bar height between 0% and 100%, and the largest revenue gets 100% |
| Dashboard.ElapsedUnits | Frontend/src/app/admin/pages/dashboard/dashboard.component.ts:131-142 | the unit shown is the largest one (day, hour, minute) that has fully elapsed, counted in whole units, and under a minute or in the future the text is "Just now" |
| Dashboard.TimeAgoExamples | Frontend/src/app/admin/pages/dashboard/dashboard.component.ts:138-141 | the texts for one day, two hours, just under two minutes and just under one minute, with the plural "s" only above one |
| Dashboard.RevenueChange | Frontend/src/app/admin/pages/dashboard/dashboard.component.ts:144-160 | the change is never negative, and fewer than two points give 0, upward |
| Dashboard.RevenueChangeMeaning | Frontend/src/app/admin/pages/dashboard/dashboard.component.ts:149-160 | a zero previous value gives 0, upward; otherwise the value is the size of the change in percent of the previous value, and for a positive previous value it is upward exactly when revenue did not fall |
| Dashboard.BarHeight | Frontend/src/app/admin/pages/dashboard/dashboard.component.ts:118-121 | definition only: the revenue as a percentage of the chart scale; `BarHeightBounds` states its range |
| Dashboard.ElapsedOf | Frontend/src/app/admin/pages/dashboard/dashboard.component.ts:131-137 | definition only: the nested floors and the unit choice; `ElapsedUnits` states the largest fully elapsed unit |
| Dashboard.TimeAgo | Frontend/src/app/admin/pages/dashboard/dashboard.component.ts:131-142 | definition only: the rendered elapsed time; `TimeAgoExamples` gives the pluralised texts |
| AddMovie.TrimMeaning | Frontend/src/app/admin/pages/add-movie/add-movie.component.ts:90 | trimming leaves no white space at either end, leaves an already trimmed text unchanged, and is the text between two runs of white space cut from its ends |
| AddMovie.SplitOnComma | Frontend/src/app/admin/pages/add-movie/add-movie.component.ts:90 | splitting always yields at least one piece |
| AddMovie.ParsedGenresAreGood | Frontend/src/app/admin/pages/add-movie/add-movie.component.ts:89-91 | every genre a submit sends is non-empty, trimmed and free of commas |
| AddMovie.GenreRoundTrip | Frontend/src/app/admin/pages/add-movie/add-movie.component.ts:66-91 | the genre text the edit form shows for a list of such genres parses back to exactly that list |
| AddMovie.ParseIdempotent | Frontend/src/app/admin/pages/add-movie/add-movie.component.ts:66-91 | a parsed genre list survives another edit and submit unchanged |
| AddMovie.FormRules | Frontend/src/app/admin/pages/add-movie/add-movie.component.ts:32-42 | the form is valid exactly when the title has at least 2 characters, the description at least 10, the duration is at least 1, the rating lies in 0..10, and genre, language and release date are filled |
| AddMovie.FieldError | Frontend/src/app/admin/pages/add-movie/add-movie.component.ts:154-169 | a control shows a text exactly when one of its validators fails, and then the text of the first failure in the order required, minlength, min, max |
| AddMovie.ValidIffNoErrorText | Frontend/src/app/admin/pages/add-movie/add-movie.component.ts:154-169 | the form is valid exactly when no control shows an error text |
| AddMovie.RequiredText | Frontend/src/app/admin/pages/add-movie/add-movie.component.ts:156-158 | an empty title reports "Title is required", and the default language reports nothing |
| AddMovie.RangeTexts | Frontend/src/app/admin/pages/add-movie/add-movie.component.ts:159-167 | a one-letter title is "too short", and a rating of 11 reports the maximum 10 |
| AddMovie.PageTitle | Frontend/src/app/admin/pages/add-movie/add-movie.component.ts:146-148 | the edit title is shown exactly in edit mode |
| AddMovie.SubmitButtonText | Frontend/src/app/admin/pages/add-movie/add-movie.component.ts:150-152 | the update label is shown exactly in edit mode |
| AddMovie.MovieDataOf | Frontend/src/app/admin/pages/add-movie/add-movie.component.ts:93-104 | the record of a valid form is active, has a duration of at least 1, a rating within 0..10 and the parsed genres |
| AddMovie.EditKeepsGenres | Frontend/src/app/admin/pages/add-movie/add-movie.component.ts:61-91 | editing a stored movie with good genres and saving it sends its genres unchanged |
| AddMovie.AddMovieComponent.constructor | Frontend/src/app/admin/pages/add-movie/add-movie.component.ts:18-42 | the initial control values, add mode, nothing touched, not submitting |
| AddMovie.AddMovieComponent.OnEditParam | Frontend/src/app/admin/pages/add-movie/add-movie.component.ts:46-51 | an edit parameter switches to edit mode for that id |
| AddMovie.AddMovieComponent.LoadMovieForEdit | Frontend/src/app/admin/pages/add-movie/add-movie.component.ts:59-72 | the form shows the stored movie: its genres joined by ", ", English for an empty language, and its poster and trailer |
| AddMovie.AddMovieComponent.SetForm | Frontend/src/app/admin/pages/add-movie/add-movie.component.ts:32-42 | the user's input replaces the form and nothing else |
| AddMovie.AddMovieComponent.OnSubmit | Frontend/src/app/admin/pages/add-movie/add-movie.component.ts:83-140 | a request is sent exactly when the form is valid, carrying its record, as an update of the edited id exactly in edit mode with an id; an invalid form marks every control touched and adds one error alert |
| AddMovie.TextControlErrors | Frontend/src/app/admin/pages/add-movie/add-movie.component.ts:154-161 | an empty title or description shows "Title is required" or "Description is required", and a short one "Title is too short" or "Description is too short" |
| AddMovie.NumberControlErrors | Frontend/src/app/admin/pages/add-movie/add-movie.component.ts:154-167 | an empty duration or rating names itself as required; a duration below 1 shows "Value must be greater than 1", a rating below 0 "Value must be greater than 0" and above 10 "Value must be less than 10" |
| AddMovie.RequiredControlErrors | Frontend/src/app/admin/pages/add-movie/add-movie.component.ts:154-169 | an empty genre, language or release date names itself as required, and the poster and trailer URLs never show a text |
| AddMovie.CapitalisedName | Frontend/src/app/admin/pages/add-movie/add-movie.component.ts:157 | a lower-case first letter is upper-cased and the rest of the name kept |
| AddMovie.UnchangedEditResends | Frontend/src/app/admin/pages/add-movie/add-movie.component.ts:61-104 | saving an unchanged edit of a stored movie sends back its title, description, duration, rating, genres, poster and trailer as stored, its language or English when it had none, and the release date text the form was given |
| AddMovie.ParseGenres | Frontend/src/app/admin/pages/add-movie/add-movie.component.ts:89-91 | definition only: split on commas, trim, drop empty pieces; `ParsedGenresAreGood`, `GenreRoundTrip` and `ParseIdempotent` state its properties |
| AddMovie.Trim | Frontend/src/app/admin/pages/add-movie/add-movie.component.ts:90 | definition only: `TrimEnd` after `TrimStart`; `TrimMeaning` states what is cut |
| AddMovie.ErrorsOf | Frontend/src/app/admin/pages/add-movie/add-movie.component.ts:32-42 | definition only: the validators of each control; `FormRules` states them in words |
| AddMovie.EditForm | Frontend/src/app/admin/pages/add-movie/add-movie.component.ts:61-71 | definition only: the patched form; `EditKeepsGenres` and `UnchangedEditResends` state what it preserves |
| Home.ActiveMovies | Frontend/src/app/user/pages/home/home.component.ts:33 | the kept movies are an in-order subsequence of the reply, and a movie is kept exactly when it is active |
| Home.FilteredMovies | Frontend/src/app/user/pages/home/home.component.ts:62-69 | the shown movies are an in-order subsequence, and a movie is shown exactly when its title or a genre contains the search term, ignoring case, and it carries the selected genre or "All" is selected |
| Home.NoCriteriaKeepsAll | Frontend/src/app/user/pages/home/home.component.ts:20-69 | an empty search with "All" shows every movie |
| Home.UnknownGenreListsNothing | Frontend/src/app/user/pages/home/home.component.ts:66 | selecting a genre no movie carries shows nothing |
| Home.GenreButtons | Frontend/src/app/user/pages/home/home.component.ts:45-51 | the buttons are "All" followed by every genre of the movies, once each, in ascending order |
| Home.HomeComponent.constructor | Frontend/src/app/user/pages/home/home.component.ts:17-22 | no movies, an empty search, "All" selected and the single "All" button |
| Home.HomeComponent.LoadMovies | Frontend/src/app/user/pages/home/home.component.ts:30-37 | the list becomes the reply's active movies, all of them are shown, and the genre buttons are rebuilt from them |
| Home.HomeComponent.ExtractGenresInto | Frontend/src/app/user/pages/home/home.component.ts:45-51 | the genre buttons become those of the current movies |
| Home.HomeComponent.OnSearch | Frontend/src/app/user/pages/home/home.component.ts:53-69 | the shown movies are the filtered list for the new search term |
| Home.HomeComponent.OnGenreFilter | Frontend/src/app/user/pages/home/home.component.ts:57-60 | the chosen genre is selected and the shown movies are the filtered list for it |
| ManageMovies.RatingTextExamples | Frontend/src/app/admin/pages/manage-movies/manage-movies.component.ts:83 | the texts of 8.5, 8 and 10 are "8.5", "8" and "10", and 8.25 is outside the modelled ratings |
| ManageMovies.TenthsTextInjective | Frontend/src/app/admin/pages/manage-movies/manage-movies.component.ts:83 | different numbers of tenths never share a text |
| ManageMovies.WholeTextHasNoPoint | Frontend/src/app/admin/pages/manage-movies/manage-movies.component.ts:83 | a whole rating's text differs from any fractional rating's text |
| ManageMovies.RatingTextInjective | Frontend/src/app/admin/pages/manage-movies/manage-movies.component.ts:82-83 | two ratings with the same text are the same rating |
| ManageMovies.FilteredMovies | Frontend/src/app/admin/pages/manage-movies/manage-movies.component.ts:72-87 | the listed movies are an in-order subsequence, and a movie is listed exactly when it meets the search, genre and rating criteria |
| ManageMovies.NoCriteriaKeepsAll | Frontend/src/app/admin/pages/manage-movies/manage-movies.component.ts:21-87 | with no criterion set, every movie is listed |
| ManageMovies.RatingFilterSelects | Frontend/src/app/admin/pages/manage-movies/manage-movies.component.ts:82-83 | choosing the text of a non-zero rating lists exactly the movies with that rating that the other criteria keep |
| ManageMovies.ZeroRatingNeverMatches | Frontend/src/app/admin/pages/manage-movies/manage-movies.component.ts:82-83 | once a rating is chosen, a movie rated 0 is never listed |
| ManageMovies.ManageMoviesComponent.constructor | Frontend/src/app/admin/pages/manage-movies/manage-movies.component.ts:19-23 | no movies and no criteria |
| ManageMovies.ManageMoviesComponent.AvailableGenres | Frontend/src/app/admin/pages/manage-movies/manage-movies.component.ts:27-34 | every genre of the movies, once each, in ascending order |
| ManageMovies.ManageMoviesComponent.LoadMovies | Frontend/src/app/admin/pages/manage-movies/manage-movies.component.ts:48-55 | the reply replaces the list and the listed movies are its filtered list |
| ManageMovies.ManageMoviesComponent.FilterMovies | Frontend/src/app/admin/pages/manage-movies/manage-movies.component.ts:72-87 | the listed movies become the filtered list of the loaded movies |
| ManageMovies.ManageMoviesComponent.OnFilterChange | Frontend/src/app/admin/pages/manage-movies/manage-movies.component.ts:64-70 | the new criteria are kept and the listed movies are filtered by them |
| ManageMovies.RatingText | Frontend/src/app/admin/pages/manage-movies/manage-movies.component.ts:83 | definition only: the JavaScript text of a rating with at most one decimal place; `RatingTextExamples` and `RatingTextInjective` state its values and that it is injective |
| ManageMovies.MatchesRating | Frontend/src/app/admin/pages/manage-movies/manage-movies.component.ts:82-83 | definition only: no rating chosen, or a non-zero rating whose text is the chosen one; `RatingFilterSelects` and `ZeroRatingNeverMatches` state its meaning |
| Movies.AllGenres | Frontend/src/app/user/pages/home/home.component.ts:47-49 | a genre occurs in the collected list exactly when some movie carries it |
| Movies.GenreCatalogue | Frontend/src/app/user/pages/home/home.component.ts:50 | the catalogue is strictly ascending, and holds a genre exactly when some movie carries it |
| Movies.ExtractGenres | Frontend/src/app/admin/pages/manage-movies/manage-movies.component.ts:29-33 | the nested loops that gather every genre and sort them produce exactly the catalogue |
| Movies.PrefixGenres | Frontend/src/app/user/pages/home/home.component.ts:47-49 | the genres of one more movie are the genres before it plus its own |
| AdminBookings.FilteredBookings | Frontend/src/app/admin/pages/bookings/bookings.component.ts:43-60 | the listed bookings are an in-order subsequence, and a booking is listed exactly when its status matches (or "ALL" is chosen) and the term is empty or found in its title, name or id, ignoring case |
| AdminBookings.NoCriteriaKeepsAll | Frontend/src/app/admin/pages/bookings/bookings.component.ts:21-60 | "ALL" with an empty search lists every booking |
| AdminBookings.MissingFieldsNeverMatch | Frontend/src/app/admin/pages/bookings/bookings.component.ts:52-56 | a booking without title, name and id is never found by a non-empty search |
| AdminBookings.StatusNarrowsAll | Frontend/src/app/admin/pages/bookings/bookings.component.ts:46-48 | choosing a status narrows the "ALL" list to the bookings with that status, in order |
| AdminBookings.StepwiseFilters | Frontend/src/app/admin/pages/bookings/bookings.component.ts:43-60 | the status step followed by the search step, each skipped when off, lists exactly the bookings meeting both criteria |
| AdminBookings.AdminBookingsComponent.constructor | Frontend/src/app/admin/pages/bookings/bookings.component.ts:18-22 | no bookings, loading, an empty search and "ALL" |
| AdminBookings.AdminBookingsComponent.ApplyFilters | Frontend/src/app/admin/pages/bookings/bookings.component.ts:43-60 | the listed bookings become those meeting the current criteria; nothing else changes |
| AdminBookings.AdminBookingsComponent.BookingsLoaded | Frontend/src/app/admin/pages/bookings/bookings.component.ts:31-35 | the reply replaces the bookings, the list is refiltered and loading ends |
| AdminBookings.AdminBookingsComponent.LoadFailed | Frontend/src/app/admin/pages/bookings/bookings.component.ts:36-39 | one error alert is added, loading ends and the bookings are kept |
| AdminBookings.AdminBookingsComponent.SearchBookings | Frontend/src/app/admin/pages/bookings/bookings.component.ts:62-65 | the new term is kept and the list is filtered by it |
| AdminBookings.AdminBookingsComponent.FilterByStatus | Frontend/src/app/admin/pages/bookings/bookings.component.ts:67-70 | the new status is kept and the list is filtered by it |
| Profile.IndexOf | Frontend/src/app/user/pages/profile/profile.component.ts:106 | the first position holding the value, or -1 exactly when it is absent |
| Profile.ToggleAbsentAppends | Frontend/src/app/user/pages/profile/profile.component.ts:109-110 | toggling an absent genre appends it at the end |
| Profile.TogglePresentRemovesFirst | Frontend/src/app/user/pages/profile/profile.component.ts:106-108 | toggling a present genre removes exactly its first occurrence, keeping the rest in order |
| Profile.ToggleKeepsOthers | Frontend/src/app/user/pages/profile/profile.component.ts:105-112 | toggling changes no other genre's membership |
| Profile.ToggleFlips | Frontend/src/app/user/pages/profile/profile.component.ts:105-112 | on a list without duplicates a toggle flips the genre's membership and keeps the list free of duplicates |
| Profile.ToggleTwice | Frontend/src/app/user/pages/profile/profile.component.ts:105-112 | toggling the same genre twice restores its membership, and the list itself when the genre was absent |
| Profile.InitialFavouritesAreOffered | Frontend/src/app/user/pages/profile/profile.component.ts:28-32 | the initial favourites are distinct and all among the offered genres |
| Profile.PasswordCheck | Frontend/src/app/user/pages/profile/profile.component.ts:118-128 | an invalid form is ignored; a valid form is a mismatch exactly when the two new passwords differ, and otherwise the change starts with a confirmed password of at least 6 characters |
| Profile.ProfileComponent.constructor | Frontend/src/app/user/pages/profile/profile.component.ts:26-62 | the initial favourites, an empty password form, not loading |
| Profile.ProfileComponent.IsGenreSelected | Frontend/src/app/user/pages/profile/profile.component.ts:101-103 | a genre is selected exactly when the toggle would find it |
| Profile.ProfileComponent.ToggleGenre | Frontend/src/app/user/pages/profile/profile.component.ts:105-112 | the list becomes the toggled list in place; a list without duplicates keeps none and has the genre's selection flipped |
| Profile.ProfileComponent.SetPasswordForm | Frontend/src/app/user/pages/profile/profile.component.ts:58-62 | the user's input replaces the password form and nothing else |
| Profile.ProfileComponent.ChangePassword | Frontend/src/app/user/pages/profile/profile.component.ts:118-128 | the outcome is the form's check; a mismatch adds one error alert and leaves loading as it was, and a started change sets loading |
| Profile.ProfileComponent.PasswordChangeCompleted | Frontend/src/app/user/pages/profile/profile.component.ts:130-134 | one success alert, the form reset so that it is invalid again, and loading cleared |
| Profile.Toggled | Frontend/src/app/user/pages/profile/profile.component.ts:105-112 | toggling shortens the list by one when the genre is present and lengthens it by one otherwise |
| Profile.PasswordFormValid | Frontend/src/app/user/pages/profile/profile.component.ts:58-62 | definition only: every control filled and the new password at least 6 characters; `PasswordCheck` builds on it |
| Collections.Filter | Frontend/src/app/user/pages/home/home.component.ts:33 | `Array.prototype.filter`: the kept elements are an in-order subsequence, all satisfy the predicate, and an element is kept exactly when it occurs and satisfies it |
| Collections.Slice | Frontend/src/app/admin/pages/bookings-report/bookings-report.component.ts:76 | `slice(start, end)` with non-negative bounds is the part between them, each clamped to the length |
| Collections.CeilDiv | Frontend/src/app/admin/pages/bookings-report/bookings-report.component.ts:71 | `Math.ceil(a / b)`: the least count of `b`-sized pages that covers `a` items |
| Text.Lower | Frontend/src/app/admin/pages/bookings-report/bookings-report.component.ts:46-61 | `toLowerCase` keeps the length and lowers each character |
| Text.IncludesMeaning | Frontend/src/app/admin/pages/bookings-report/bookings-report.component.ts:59-61 | `includes` holds exactly when the needle occurs at some position |
| Text.RowLetter | Frontend/src/app/shared/components/seat-layout/seat-layout.component.ts:38-40 | `String.fromCharCode(65 + i)` is the character with code 65 + i |
| Text.JsRem | Frontend/src/app/user/components/hero-slider/hero-slider.component.ts:270 | the remainder agrees with the mathematical one for non-negative operands and is smaller in size than the divisor |
| Ordering.SortedDistinct | Frontend/src/app/user/pages/home/home.component.ts:50 | `Array.from(new Set(xs)).sort()` is strictly ascending and holds exactly the values of `xs` |
| Ordering.SortedEnumerationUnique | Frontend/src/app/user/pages/home/home.component.ts:50 | two strictly ascending lists with the same members are equal |
| AddMovie.TrimStart | Frontend/src/app/admin/pages/add-movie/add-movie.component.ts:90 | removing leading white space leaves a suffix that starts with no white space, and every character cut is white space |
| AddMovie.TrimEnd | Frontend/src/app/admin/pages/add-movie/add-movie.component.ts:90 | removing trailing white space leaves a prefix that ends with no white space, and every character cut is white space |
| AddMovie.JoinedPieces | Frontend/src/app/admin/pages/add-movie/add-movie.component.ts:66-90 | splitting the joined text of good genres at commas and trimming each piece gives the genres back |
| Collections.Map | Frontend/src/app/admin/pages/add-movie/add-movie.component.ts:90 | `s.map(f)` keeps the length and applies `f` at every position |

## Left out

- HTTP, persistence and the Spring controllers, repositories and DTOs. The repositories are
  maps inside `SeatInventory.Inventory`; a front-end request is a returned value, and a
  server reply is a method parameter.
- Authentication, JWT and browser storage. The guards take the authentication and admin
  flags as inputs, and the seat selector takes the session id as an input.
- Timers, polling and scheduling: the 5-second availability poll, the 1-second hold tick
  driver, alert auto-close, the carousel interval and the dashboard refresh. A single tick
  is a method, and "now" is a parameter everywhere.
- Randomness and clock-derived identities: the random booked flags of the seat grid, the
  UUID ticket and QR codes, and `Date.now` ids. They are inputs. Alerts created in the same
  millisecond share an id, as in the source.
- Concurrency: every operation is atomic and sequential; a transaction only means all or
  nothing on an exception.
- Locale and date formatting (`toLocaleString`, `toDateString`, `Intl.NumberFormat`).
  Dates are integer millisecond timestamps and days are UTC days.
- Floating point: money, refunds, percentages and averages are exact reals.
- DOM work: image fallbacks (`onImageError`), carousels, printing and sharing.
  `window.confirm` answers are boolean inputs.
- Text.LowerChar: JavaScript's `toLowerCase` is modelled on the ASCII letters only, so
  searches that ignore case are weaker than the source for other alphabets.
- Text.RowLetter: `String.fromCharCode(65 + i)` is modelled only for codes below 0xD800,
  because Dafny characters exclude surrogates.
- Ordering.LexLess: `sort()` compares UTF-16 code units; the model compares characters, which
  agrees on the Basic Multilingual Plane.
- SeatClient: the seat list fetch is not modelled; the seats are an input. The initialisation
  request sent when that list is empty is a returned flag, and its server side is
  `SeatInventory.Inventory.InitializeSeatsForShowtime`.
- SeatClient.GetRealTimeAvailability: every held seat is reported as held by the constant
  "session", as in the source.
- SeatSelector: `getSeatTooltip`, the release on `ngOnDestroy` and the poll subscription are
  not modelled.
- SeatLayoutPanel.SeatLayoutComponent.GenerateSeats: always 50 seats, as the component's
  default, appended to the rows already present.
- ScreenEditor: the values the unit tests do not fix are inputs. These are a new category's
  id, price and colour, and the text of success alerts.
- ScreenEditor: `loadDefaultCategories` is not modelled; its tests fix only that some named
  category appears, not which.
- ScreenEditor.ScreenEditorComponent.LoadScreenConfig: only the name and layout size that its
  test fixes are taken from the configuration; its categories and seat map are not.
- ScreenEditor.ScreenEditorComponent.OnLayoutChange: its test fixes only that confirmation is
  asked for a map with seats; the regeneration after the answer follows the method's name.
- BookingsReport: `formatCurrency`, the weekday labels, `setDefaultDates`, export, refresh and
  the view action are not modelled.
- MyBookings.MyBookingsComponent.CancelBooking: like the source, it does not re-check
  `canCancel`. The prompt for a reason is an input.
- HeroSlider: with an empty movie list the index becomes NaN and stays NaN (modelled as a
  case of the index type); the auto-advance timer is not modelled.
- ManageTheatres.ManageTheatresComponent.EditTheatre: the edited theatre is referred to by
  its position. The source keeps a reference to the object, whose later in-place toggles
  the position view does not distinguish. Loading the sample theatres is folded into the
  constructor.
- ManageShows: `editShow` (its ISO date formatting), `deleteShow`, `viewBookings`, `loadData`
  and the assembly of `loadShows` from several server replies are not modelled. The
  assembled list is the input of `SetShows`, which is also the reload after a saved show.
- Dashboard: the percentage text of a bar height, the data loading and the constant
  placeholder changes `getBookingsChange` and `getUsersChange` are not modelled.
- AddMovie.MovieDataOf: `parseInt` of the duration is its floor, which agrees for the
  durations the validators accept. The release date is kept as text. Server replies and
  navigation are not modelled.
- Home and ManageMovies: the `loading` flags and the error branch of `loadMovies` are not
  modelled. Home prepends "All" even when a movie carries a genre named "All", as the
  source does.
- ManageMovies.RatingText: a rating's text is modelled only for ratings with at most one
  decimal place, so ManageMovies.MatchesRating never matches other ratings. Deleting a
  movie and toggling its status are server calls followed by a reload, and are not modelled.
- AdminBookings: `cancelBooking` (a confirmation and a server call followed by a reload) is
  not modelled.
- Profile: `updateProfile`, `loadUserData`, `setActiveTab`, `changeAvatar`,
  `updatePreferences` and the profile form's validators are not modelled. The one-second
  delay of the simulated password change is a separate completion step. A reset control
  holds `null`, which the validators treat like the empty text.
