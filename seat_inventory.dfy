/** The server-side seat inventory: seat records per showtime, holds, bookings and their
    cancellation, with the showtime's count of available seats. The seat, showtime, user and
    booking repositories are maps held by one object; repository-generated ids are natural
    numbers taken from counters, and the clock is the parameter `now` (milliseconds). */
module SeatInventory {
  import opened Collections
  import opened Text

  type SeatId = nat
  type BookingId = nat
  type ShowtimeId = string
  type UserId = string

  datatype SeatType = Regular | Premium | Vip

  datatype Seat = Seat(
    showtimeId: ShowtimeId,
    row: string,
    number: int,
    price: real,
    seatType: SeatType,
    isBooked: bool,
    isHeld: bool,
    holdExpiry: Option<int>,
    sessionId: Option<string>)

  datatype Showtime = Showtime(availableSeats: int)

  datatype BookingStatus = Pending | Confirmed | Cancelled

  datatype Booking = Booking(
    userId: UserId,
    showtimeId: ShowtimeId,
    seats: seq<SeatId>,
    totalAmount: real,
    customerName: string,
    customerEmail: string,
    customerPhone: string,
    status: BookingStatus,
    ticketNumber: string,
    qrCode: string,
    cancellationReason: Option<string>,
    refundAmount: Option<real>,
    refundDate: Option<int>)

  datatype BookingRequest = BookingRequest(
    showtimeId: ShowtimeId,
    seats: seq<SeatId>,
    totalAmount: real,
    customerName: string,
    customerEmail: string,
    customerPhone: string)

  /** The messages of the `RuntimeException`s the services throw. */
  datatype Failure =
    | UserNotFound
    | ShowtimeNotFound
    | SeatNotFound(seat: SeatId)
    | SeatAlreadyBooked(seat: SeatId)
    | BookingNotFound

  datatype Outcome = Done | Failed(failure: Failure)

  datatype Result<T> = Ok(value: T) | Err(failure: Failure)

  type Store = map<SeatId, Seat>

  // ---------------------------------------------------------------------------------
  // The seat grid created for a showtime
  // ---------------------------------------------------------------------------------

  const GridRows: seq<string> := ["A", "B", "C", "D", "E", "F", "G", "H"]
  const SeatsPerRow: nat := 12
  const GridSize: nat := 96

  /** A hold lasts ten minutes. */
  const HoldMillis: int := 10 * 60 * 1000

  /** Price and type by row: A-B regular at 150, C-E premium at 200, any other row VIP at 300. */
  function RowPricing(row: string): (real, SeatType)
  {
    if row == "A" || row == "B" then (150.0, Regular)
    else if row == "C" || row == "D" || row == "E" then (200.0, Premium)
    else (300.0, Vip)
  }

  /** The pricing of the grid's rows by their index: rows 0-1 (A-B), 2-4 (C-E), 5-7 (F-H). */
  lemma RowPricingOfGridRow(r: nat)
    requires r < |GridRows|
    ensures RowPricing(GridRows[r]) ==
              if r < 2 then (150.0, Regular) else if r < 5 then (200.0, Premium) else (300.0, Vip)
  {
    if r == 0 { assert GridRows[0] == "A"; }
    else if r == 1 { assert GridRows[1] == "B"; }
    else if r == 2 { assert GridRows[2] == "C"; }
    else if r == 3 { assert GridRows[3] == "D"; }
    else if r == 4 { assert GridRows[4] == "E"; }
    else if r == 5 { assert GridRows[5] == "F"; }
    else if r == 6 { assert GridRows[6] == "G"; }
    else { assert GridRows[7] == "H"; }
  }

  /** The seat the loops create for row `GridRows[r]` and number `n`. */
  function GridSeat(showtimeId: ShowtimeId, r: nat, n: int): Seat
    requires r < |GridRows|
  {
    var row := GridRows[r];
    Seat(showtimeId, row, n, RowPricing(row).0, RowPricing(row).1, false, false, None, None)
  }

  /** The twelve seats of row `GridRows[r]`, numbers 1 to 12. */
  function RowSeats(showtimeId: ShowtimeId, r: nat): (s: seq<Seat>)
    requires r < |GridRows|
    ensures |s| == SeatsPerRow
  {
    seq(SeatsPerRow, j requires 0 <= j < SeatsPerRow => GridSeat(showtimeId, r, j + 1))
  }

  /** The seats of the first `r` rows, in the order the nested loops create them. */
  function GridUpTo(showtimeId: ShowtimeId, r: nat): (g: seq<Seat>)
    requires r <= |GridRows|
    ensures |g| == 12 * r
  {
    if r == 0 then [] else GridUpTo(showtimeId, r - 1) + RowSeats(showtimeId, r - 1)
  }

  /** The 96 seats of a showtime's grid. */
  function Grid(showtimeId: ShowtimeId): (g: seq<Seat>)
    ensures |g| == GridSize
  {
    GridUpTo(showtimeId, |GridRows|)
  }

  /** The seat at position `12 * r + n - 1` of the grid is row `r`'s seat number `n`. */
  lemma {:induction false} GridUpToAt(showtimeId: ShowtimeId, rows: nat, r: nat, n: int)
    requires rows <= |GridRows| && r < rows && 1 <= n <= SeatsPerRow
    ensures GridUpTo(showtimeId, rows)[12 * r + n - 1] == GridSeat(showtimeId, r, n)
  {
    if r < rows - 1 {
      GridUpToAt(showtimeId, rows - 1, r, n);
    }
  }

  /** The repository after saving `cells`, in order, under the fresh ids `base`, `base + 1`, .... */
  function SaveAll<V>(store: map<nat, V>, base: nat, cells: seq<V>): map<nat, V>
    decreases |cells|
  {
    if cells == [] then store
    else SaveAll(store, base, cells[..|cells| - 1])[base + |cells| - 1 := cells[|cells| - 1]]
  }

  /** Saving under ids above every existing one keeps the existing entries and adds one entry
      per cell. */
  lemma {:induction false} SaveAllContents<V>(store: map<nat, V>, base: nat, cells: seq<V>)
    requires forall id :: id in store ==> id < base
    ensures forall id :: id in SaveAll(store, base, cells) <==> id in store || base <= id < base + |cells|
    ensures forall id :: id in store ==> SaveAll(store, base, cells)[id] == store[id]
    ensures forall id :: base <= id < base + |cells| ==> SaveAll(store, base, cells)[id] == cells[id - base]
    decreases |cells|
  {
    if cells != [] {
      SaveAllContents(store, base, cells[..|cells| - 1]);
    }
  }

  lemma {:induction false} SaveAllSize<V>(store: map<nat, V>, base: nat, cells: seq<V>)
    requires forall id :: id in store ==> id < base
    ensures |SaveAll(store, base, cells)| == |store| + |cells|
    decreases |cells|
  {
    if cells != [] {
      var init := cells[..|cells| - 1];
      SaveAllSize(store, base, init);
      SaveAllContents(store, base, init);
      assert base + |init| !in SaveAll(store, base, init);
    }
  }

  lemma SaveAllAppend<V>(store: map<nat, V>, base: nat, cells: seq<V>, x: V)
    ensures SaveAll(store, base, cells + [x]) == SaveAll(store, base, cells)[base + |cells| := x]
  {
    assert (cells + [x])[..|cells|] == cells;
  }

  /** One step of the inner loop: saving row `r`'s seat number `i` under the next id extends
      both the list of created seats and the repository by that seat. */
  lemma SaveGridSeat(showtimeId: ShowtimeId, r: nat, i: int, before: Store, base: nat, created: seq<Seat>)
    requires r < |GridRows| && 1 <= i <= SeatsPerRow
    requires created == GridUpTo(showtimeId, r) + RowSeats(showtimeId, r)[..i - 1]
    ensures var seat := GridSeat(showtimeId, r, i);
            && created + [seat] == GridUpTo(showtimeId, r) + RowSeats(showtimeId, r)[..i]
            && SaveAll(before, base, created)[base + |created| := seat] == SaveAll(before, base, created + [seat])
  {
    var seat := GridSeat(showtimeId, r, i);
    assert RowSeats(showtimeId, r)[..i] == RowSeats(showtimeId, r)[..i - 1] + [seat];
    SaveAllAppend(before, base, created, seat);
  }

  /** Each initialisation adds 96 seats under the ids `base` to `base + 95` and keeps every
      existing seat; none of the new seats is booked or held. */
  lemma GridShape(store: Store, showtimeId: ShowtimeId, base: nat)
    requires forall id :: id in store ==> id < base
    ensures var r := SaveAll(store, base, Grid(showtimeId));
            && |r| == |store| + 96
            && (forall id :: id in r <==> id in store || base <= id < base + 96)
            && (forall id :: id in store ==> r[id] == store[id])
            && (forall id :: base <= id < base + 96 ==>
                  r[id].showtimeId == showtimeId && !r[id].isBooked && !r[id].isHeld &&
                  r[id].holdExpiry == None && r[id].sessionId == None)
  {
    var g := Grid(showtimeId);
    SaveAllContents(store, base, g);
    SaveAllSize(store, base, g);
    forall k | 0 <= k < |g|
      ensures g[k].showtimeId == showtimeId && !g[k].isBooked && !g[k].isHeld &&
              g[k].holdExpiry == None && g[k].sessionId == None
    {
      var r, n := k / 12, k % 12 + 1;
      GridUpToAt(showtimeId, |GridRows|, r, n);
    }
  }

  /** Row `GridRows[r]`'s seat number `n` is stored under `base + 12 * r + n - 1`, priced by
      its row: A-B regular at 150, C-E premium at 200, F-H VIP at 300. */
  lemma GridCoversRowsAndNumbers(store: Store, showtimeId: ShowtimeId, base: nat, r: nat, n: int)
    requires forall id :: id in store ==> id < base
    requires r < |GridRows| && 1 <= n <= 12
    ensures var id := base + 12 * r + n - 1;
            id in SaveAll(store, base, Grid(showtimeId)) &&
            var s := SaveAll(store, base, Grid(showtimeId))[id];
            s.row == GridRows[r] && s.number == n &&
            (r < 2 ==> s.price == 150.0 && s.seatType == Regular) &&
            (2 <= r < 5 ==> s.price == 200.0 && s.seatType == Premium) &&
            (5 <= r ==> s.price == 300.0 && s.seatType == Vip)
  {
    SaveAllContents(store, base, Grid(showtimeId));
    GridUpToAt(showtimeId, |GridRows|, r, n);
    RowPricingOfGridRow(r);
  }

  // ---------------------------------------------------------------------------------
  // Holds
  // ---------------------------------------------------------------------------------

  datatype StoreOutcome = StoreOutcome(store: Store, outcome: Outcome)

  function HoldOne(s: Seat, sessionId: string, expiry: int): Seat
  {
    s.(isHeld := true, holdExpiry := Some(expiry), sessionId := Some(sessionId))
  }

  /** A seat the hold loop accepts: it exists and is not booked. Holds are not consulted. */
  predicate Holdable(store: Store, id: SeatId)
  {
    id in store && !store[id].isBooked
  }

  /** The hold loop over `ids`, in order: it stops at the first unknown or booked seat and
      keeps the holds it has already written. */
  function HoldAll(store: Store, ids: seq<SeatId>, sessionId: string, expiry: int): (r: StoreOutcome)
    ensures r.store.Keys == store.Keys
    decreases |ids|
  {
    if ids == [] then StoreOutcome(store, Done)
    else if ids[0] !in store then StoreOutcome(store, Failed(SeatNotFound(ids[0])))
    else if store[ids[0]].isBooked then StoreOutcome(store, Failed(SeatAlreadyBooked(ids[0])))
    else HoldAll(store[ids[0] := HoldOne(store[ids[0]], sessionId, expiry)], ids[1..], sessionId, expiry)
  }

  /** Index of the first seat the hold loop rejects, or `|ids|` when it accepts them all. */
  function FirstRejected(store: Store, ids: seq<SeatId>): (j: nat)
    ensures j <= |ids|
    ensures forall i :: 0 <= i < j ==> Holdable(store, ids[i])
    ensures j < |ids| ==> !Holdable(store, ids[j])
  {
    if ids == [] then 0
    else if !Holdable(store, ids[0]) then 0
    else 1 + FirstRejected(store, ids[1..])
  }

  /** The failure reported for a rejected seat. */
  function RejectionOf(store: Store, id: SeatId): Failure
  {
    if id !in store then SeatNotFound(id) else SeatAlreadyBooked(id)
  }

  lemma FirstRejectedSameBooking(store: Store, store': Store, ids: seq<SeatId>)
    requires store'.Keys == store.Keys
    requires forall id :: id in store ==> store'[id].isBooked == store[id].isBooked
    ensures FirstRejected(store', ids) == FirstRejected(store, ids)
  {
    if ids != [] {
      assert Holdable(store', ids[0]) == Holdable(store, ids[0]);
      FirstRejectedSameBooking(store, store', ids[1..]);
    }
  }

  /** What `holdSeats` does: the seats before the first rejected one are held by `sessionId`
      until `expiry`, whoever held them before; nothing else changes, nothing is rolled back,
      and the outcome names the rejected seat. */
  lemma {:induction false} HoldAllEffect(store: Store, ids: seq<SeatId>, sessionId: string, expiry: int)
    ensures var r := HoldAll(store, ids, sessionId, expiry);
            var j := FirstRejected(store, ids);
            && r.store.Keys == store.Keys
            && (forall id :: id in store ==>
                  r.store[id] == if id in ids[..j] then HoldOne(store[id], sessionId, expiry) else store[id])
            && r.outcome == if j == |ids| then Done else Failed(RejectionOf(store, ids[j]))
    decreases |ids|
  {
    if ids != [] && Holdable(store, ids[0]) {
      var id0 := ids[0];
      var store' := store[id0 := HoldOne(store[id0], sessionId, expiry)];
      HoldAllEffect(store', ids[1..], sessionId, expiry);
      FirstRejectedSameBooking(store, store', ids[1..]);
      var j := FirstRejected(store, ids);
      assert ids[1..][..j - 1] == ids[1..j];
      assert forall x :: x in ids[..j] <==> x == id0 || x in ids[1..j];
      var r := HoldAll(store', ids[1..], sessionId, expiry).store;
      forall id | id in store
        ensures r[id] == if id in ids[..j] then HoldOne(store[id], sessionId, expiry) else store[id]
      {
        var held := HoldOne(store[id], sessionId, expiry);
        assert r[id] == if id in ids[1..j] then HoldOne(store'[id], sessionId, expiry) else store'[id];
        if id == id0 {
          assert id in ids[..j];
          assert store'[id] == held && HoldOne(held, sessionId, expiry) == held;
        } else {
          assert store'[id] == store[id];
        }
      }
    } else {
      assert ids[..0] == [];
    }
  }

  /** A successful hold leaves every listed seat held by the caller's session. */
  lemma HoldAllSuccess(store: Store, ids: seq<SeatId>, sessionId: string, expiry: int)
    requires HoldAll(store, ids, sessionId, expiry).outcome == Done
    ensures forall i :: 0 <= i < |ids| ==>
              var r := HoldAll(store, ids, sessionId, expiry).store;
              Holdable(store, ids[i]) && ids[i] in r && r[ids[i]].isHeld &&
              r[ids[i]].sessionId == Some(sessionId) && r[ids[i]].holdExpiry == Some(expiry)
  {
    HoldAllEffect(store, ids, sessionId, expiry);
    assert ids[..|ids|] == ids;
  }

  /** A hold never books or unbooks a seat and never adds or removes one. */
  lemma HoldAllKeepsBookings(store: Store, ids: seq<SeatId>, sessionId: string, expiry: int)
    ensures var r := HoldAll(store, ids, sessionId, expiry).store;
            r.Keys == store.Keys && forall id :: id in store ==> r[id].isBooked == store[id].isBooked
  {
    HoldAllEffect(store, ids, sessionId, expiry);
  }

  function ReleaseOne(s: Seat): Seat
  {
    s.(isHeld := false, holdExpiry := None, sessionId := None)
  }

  /** The release loop: every listed seat that exists and is not booked loses its hold,
      whichever session held it; unknown and booked seats are skipped. */
  function ReleaseAll(store: Store, ids: seq<SeatId>): (r: Store)
    ensures r.Keys == store.Keys
    decreases |ids|
  {
    if ids == [] then store
    else if Holdable(store, ids[0]) then ReleaseAll(store[ids[0] := ReleaseOne(store[ids[0]])], ids[1..])
    else ReleaseAll(store, ids[1..])
  }

  lemma {:induction false} ReleaseAllEffect(store: Store, ids: seq<SeatId>)
    ensures var r := ReleaseAll(store, ids);
            && r.Keys == store.Keys
            && forall id :: id in store ==>
                 r[id] == if id in ids && !store[id].isBooked then ReleaseOne(store[id]) else store[id]
    decreases |ids|
  {
    if ids != [] {
      var store' := if Holdable(store, ids[0]) then store[ids[0] := ReleaseOne(store[ids[0]])] else store;
      ReleaseAllEffect(store', ids[1..]);
      assert forall id :: id in ids <==> id == ids[0] || id in ids[1..];
    }
  }

  /** Releasing twice is the same as releasing once. */
  lemma ReleaseAllIdempotent(store: Store, ids: seq<SeatId>)
    ensures ReleaseAll(ReleaseAll(store, ids), ids) == ReleaseAll(store, ids)
  {
    var once := ReleaseAll(store, ids);
    ReleaseAllEffect(store, ids);
    ReleaseAllEffect(once, ids);
  }

  // ---------------------------------------------------------------------------------
  // Bookings
  // ---------------------------------------------------------------------------------

  /** The availability check of `createBooking`: the first listed seat that is unknown or
      already booked, in list order. Holds and session ids are not consulted. */
  function CheckSeats(store: Store, ids: seq<SeatId>): (r: Outcome)
    ensures r.Failed? ==> (r.failure.SeatNotFound? || r.failure.SeatAlreadyBooked?) && r.failure.seat in ids
    decreases |ids|
  {
    if ids == [] then Done
    else if !Holdable(store, ids[0]) then Failed(RejectionOf(store, ids[0]))
    else CheckSeats(store, ids[1..])
  }

  lemma {:induction false} CheckSeatsMeaning(store: Store, ids: seq<SeatId>)
    ensures CheckSeats(store, ids) == Done <==> forall i :: 0 <= i < |ids| ==> Holdable(store, ids[i])
    ensures CheckSeats(store, ids) != Done ==>
              var j := FirstRejected(store, ids);
              j < |ids| && CheckSeats(store, ids) == Failed(RejectionOf(store, ids[j]))
    decreases |ids|
  {
    if ids != [] {
      CheckSeatsMeaning(store, ids[1..]);
      assert forall i :: 1 <= i < |ids| ==> ids[1..][i - 1] == ids[i];
    }
  }

  /** The marking loop of `createBooking`: every listed seat that exists becomes booked. */
  function MarkBooked(store: Store, ids: seq<SeatId>): (r: Store)
    ensures r.Keys == store.Keys
    decreases |ids|
  {
    if ids == [] then store
    else if ids[0] in store then MarkBooked(store[ids[0] := store[ids[0]].(isBooked := true)], ids[1..])
    else MarkBooked(store, ids[1..])
  }

  /** The seat loop of `cancelBooking`: every listed seat that exists becomes unbooked. */
  function UnmarkBooked(store: Store, ids: seq<SeatId>): (r: Store)
    ensures r.Keys == store.Keys
    decreases |ids|
  {
    if ids == [] then store
    else if ids[0] in store then UnmarkBooked(store[ids[0] := store[ids[0]].(isBooked := false)], ids[1..])
    else UnmarkBooked(store, ids[1..])
  }

  /** Booking seats adds no seat and removes none. */
  lemma {:induction false} MarkBookedKeys(store: Store, ids: seq<SeatId>)
    ensures MarkBooked(store, ids).Keys == store.Keys
  {
    MarkBookedEffect(store, ids, true);
  }

  lemma {:induction false} MarkBookedEffect(store: Store, ids: seq<SeatId>, booked: bool)
    ensures var r := if booked then MarkBooked(store, ids) else UnmarkBooked(store, ids);
            && r.Keys == store.Keys
            && forall id :: id in store ==>
                 r[id] == if id in ids then store[id].(isBooked := booked) else store[id]
    decreases |ids|
  {
    if ids != [] {
      var store' := if ids[0] in store then store[ids[0] := store[ids[0]].(isBooked := booked)] else store;
      MarkBookedEffect(store', ids[1..], booked);
      assert forall id :: id in ids <==> id == ids[0] || id in ids[1..];
    }
  }

  /** Cancelling restores the seats a successful booking marked: booking then unbooking the
      same seats gives back the store the availability check saw. */
  lemma UnmarkAfterMark(store: Store, ids: seq<SeatId>)
    requires CheckSeats(store, ids) == Done
    ensures UnmarkBooked(MarkBooked(store, ids), ids) == store
  {
    CheckSeatsMeaning(store, ids);
    MarkBookedEffect(store, ids, true);
    MarkBookedEffect(MarkBooked(store, ids), ids, false);
    var r := UnmarkBooked(MarkBooked(store, ids), ids);
    forall id | id in store ensures r[id] == store[id] {
      if id in ids {
        var i :| 0 <= i < |ids| && ids[i] == id;
        assert Holdable(store, ids[i]);
      }
    }
  }

  // ---------------------------------------------------------------------------------
  // Sequences of seat operations without cancellation
  // ---------------------------------------------------------------------------------

  /** The seat-level effect of `holdSeats`, `releaseSeats` and `createBooking`. */
  datatype SeatOp =
    | HoldOp(ids: seq<SeatId>, sessionId: string, expiry: int)
    | ReleaseOp(ids: seq<SeatId>)
    | BookOp(ids: seq<SeatId>)

  function Step(store: Store, op: SeatOp): (r: Store)
    ensures r.Keys == store.Keys
  {
    match op
    case HoldOp(ids, sessionId, expiry) => HoldAll(store, ids, sessionId, expiry).store
    case ReleaseOp(ids) => ReleaseAll(store, ids)
    case BookOp(ids) => if CheckSeats(store, ids) == Done then MarkBooked(store, ids) else store
  }

  function Run(store: Store, ops: seq<SeatOp>): (r: Store)
    ensures r.Keys == store.Keys
    decreases |ops|
  {
    if ops == [] then store else Run(Step(store, ops[0]), ops[1..])
  }

  lemma {:induction false} RunAppend(store: Store, ops: seq<SeatOp>, more: seq<SeatOp>)
    ensures Run(store, ops + more) == Run(Run(store, ops), more)
    decreases |ops|
  {
    if ops != [] {
      assert (ops + more)[1..] == ops[1..] + more;
      RunAppend(Step(store, ops[0]), ops[1..], more);
    } else {
      assert ops + more == more;
    }
  }

  /** No operation other than a cancellation unbooks a seat or removes it. */
  lemma StepKeepsBooked(store: Store, op: SeatOp, id: SeatId)
    requires id in store && store[id].isBooked
    ensures id in Step(store, op) && Step(store, op)[id].isBooked
  {
    match op
    case HoldOp(ids, sessionId, expiry) => HoldAllKeepsBookings(store, ids, sessionId, expiry);
    case ReleaseOp(ids) => ReleaseAllEffect(store, ids);
    case BookOp(ids) => MarkBookedEffect(store, ids, true);
  }

  lemma {:induction false} RunKeepsBooked(store: Store, ops: seq<SeatOp>, id: SeatId)
    requires id in store && store[id].isBooked
    ensures id in Run(store, ops) && Run(store, ops)[id].isBooked
    decreases |ops|
  {
    if ops != [] {
      StepKeepsBooked(store, ops[0], id);
      RunKeepsBooked(Step(store, ops[0]), ops[1..], id);
    }
  }

  /** The `i`-th operation is a booking whose availability check passed. */
  predicate BookingSucceeds(store: Store, ops: seq<SeatOp>, i: nat)
  {
    i < |ops| && ops[i].BookOp? && CheckSeats(Run(store, ops[..i]), ops[i].ids) == Done
  }

  /** Between cancellations a seat is in at most one successful booking: once a booking that
      lists it succeeds, every later booking that lists it fails its availability check. */
  lemma NoDoubleBooking(store: Store, ops: seq<SeatOp>, i: nat, j: nat, seat: SeatId)
    requires i < j < |ops|
    requires BookingSucceeds(store, ops, i) && seat in ops[i].ids
    requires ops[j].BookOp? && seat in ops[j].ids
    ensures !BookingSucceeds(store, ops, j)
  {
    var before := Run(store, ops[..i]);
    var ids := ops[i].ids;
    CheckSeatsMeaning(before, ids);
    MarkBookedEffect(before, ids, true);
    var k :| 0 <= k < |ids| && ids[k] == seat;
    assert Holdable(before, ids[k]);
    var after := Step(before, ops[i]);
    assert seat in after && after[seat].isBooked;
    assert ops[..j] == ops[..i] + [ops[i]] + ops[i + 1..j];
    RunAppend(store, ops[..i], [ops[i]]);
    RunAppend(store, ops[..i] + [ops[i]], ops[i + 1..j]);
    assert Run(before, [ops[i]]) == after;
    RunKeepsBooked(after, ops[i + 1..j], seat);
    var atJ := Run(store, ops[..j]);
    assert atJ == Run(after, ops[i + 1..j]);
    CheckSeatsMeaning(atJ, ops[j].ids);
    var m :| 0 <= m < |ops[j].ids| && ops[j].ids[m] == seat;
    assert !Holdable(atJ, ops[j].ids[m]);
  }

  /** Holds are never consulted by the availability check: a hold or a release in between does
      not change whether a booking passes. */
  lemma HoldsDoNotAffectBookingCheck(store: Store, op: SeatOp, ids: seq<SeatId>)
    requires op.HoldOp? || op.ReleaseOp?
    ensures CheckSeats(Step(store, op), ids) == CheckSeats(store, ids)
  {
    var after := Step(store, op);
    if op.HoldOp? {
      HoldAllKeepsBookings(store, op.ids, op.sessionId, op.expiry);
    } else {
      ReleaseAllEffect(store, op.ids);
    }
    CheckSeatsSameBooking(store, after, ids);
  }

  lemma CheckSeatsSameBooking(store: Store, store': Store, ids: seq<SeatId>)
    requires store'.Keys == store.Keys
    requires forall id :: id in store ==> store'[id].isBooked == store[id].isBooked
    ensures CheckSeats(store', ids) == CheckSeats(store, ids)
  {
    if ids != [] {
      assert Holdable(store', ids[0]) == Holdable(store, ids[0]);
      CheckSeatsSameBooking(store, store', ids[1..]);
    }
  }

  /** The refund on cancellation: 90% of the booking's total. */
  function Refund(totalAmount: real): (r: real)
    ensures totalAmount >= 0.0 ==> 0.0 <= r <= totalAmount
    ensures r * 10.0 == totalAmount * 9.0
  {
    totalAmount * 0.9
  }

  function IsHexDigit(c: char): bool
  {
    '0' <= c <= '9' || 'a' <= c <= 'f' || 'A' <= c <= 'F'
  }

  /** `"TKT" + uuid.substring(0, 8).toUpperCase()`. */
  function TicketNumber(uuid: string): (t: string)
    requires |uuid| >= 8
    ensures |t| == 11 && t[..3] == "TKT"
  {
    "TKT" + Upper(uuid[..8])
  }

  /** Ticket numbers drawn from a UUID's leading hex digits are "TKT" and eight upper-case
      hex digits. */
  lemma TicketNumberShape(uuid: string)
    requires |uuid| >= 8 && forall i :: 0 <= i < 8 ==> IsHexDigit(uuid[i])
    ensures forall i :: 3 <= i < 11 ==>
              var c := TicketNumber(uuid)[i]; '0' <= c <= '9' || 'A' <= c <= 'F'
  {
    forall i | 3 <= i < 11 ensures var c := TicketNumber(uuid)[i]; '0' <= c <= '9' || 'A' <= c <= 'F' {
      assert TicketNumber(uuid)[i] == UpperChar(uuid[i - 3]);
    }
  }

  /** The first failure `createBooking` reports, checked in the source's order: the user,
      the showtime, then each requested seat. */
  function BookingFailure(users: set<UserId>, showtimes: map<ShowtimeId, Showtime>, store: Store,
                          userId: UserId, request: BookingRequest): Option<Failure>
  {
    if userId !in users then Some(UserNotFound)
    else if request.showtimeId !in showtimes then Some(ShowtimeNotFound)
    else match CheckSeats(store, request.seats)
      case Failed(f) => Some(f)
      case Done => None
  }

  function NewBooking(userId: UserId, request: BookingRequest, ticketUuid: string, qrUuid: string): Booking
    requires |ticketUuid| >= 8
  {
    Booking(userId, request.showtimeId, request.seats, request.totalAmount, request.customerName,
            request.customerEmail, request.customerPhone, Pending, TicketNumber(ticketUuid),
            "QR_" + qrUuid, None, None, None)
  }

  /** The state of the seat, showtime, user and booking repositories. Ids handed out by the
      repositories come from `nextSeatId` and `nextBookingId`. */
  class Inventory {
    var seats: Store
    var showtimes: map<ShowtimeId, Showtime>
    var users: set<UserId>
    var bookings: map<BookingId, Booking>
    var nextSeatId: nat
    var nextBookingId: nat

    ghost predicate Valid()
      reads this
    {
      && (forall id :: id in seats ==> id < nextSeatId)
      && (forall b :: b in bookings ==> b < nextBookingId && bookings[b].showtimeId in showtimes)
    }

    constructor (users: set<UserId>, showtimes: map<ShowtimeId, Showtime>)
      ensures Valid()
      ensures this.users == users && this.showtimes == showtimes
      ensures seats == map[] && bookings == map[]
    {
      this.users := users;
      this.showtimes := showtimes;
      seats := map[];
      bookings := map[];
      nextSeatId := 0;
      nextBookingId := 0;
    }

    /** `initializeSeatsForShowtime`: fails for an unknown showtime; otherwise adds the 96
        seats of the 8 x 12 grid under fresh ids, without looking at the seats that exist. */
    method InitializeSeatsForShowtime(showtimeId: ShowtimeId) returns (outcome: Outcome)
      requires Valid()
      modifies this`seats, this`nextSeatId
      ensures Valid()
      ensures showtimeId !in showtimes ==> outcome == Failed(ShowtimeNotFound) && unchanged(this)
      ensures showtimeId in showtimes ==>
                && outcome == Done
                && seats == SaveAll(old(seats), old(nextSeatId), Grid(showtimeId))
                && nextSeatId == old(nextSeatId) + 96
    {
      if showtimeId !in showtimes {
        return Failed(ShowtimeNotFound);
      }
      var base := nextSeatId;
      var before := seats;
      var created: seq<Seat> := [];
      var store := before;
      var r := 0;
      while r < |GridRows|
        invariant 0 <= r <= |GridRows|
        invariant created == GridUpTo(showtimeId, r)
        invariant store == SaveAll(before, base, created)
      {
        var i := 1;
        while i <= SeatsPerRow
          invariant 1 <= i <= SeatsPerRow + 1
          invariant created == GridUpTo(showtimeId, r) + RowSeats(showtimeId, r)[..i - 1]
          invariant store == SaveAll(before, base, created)
        {
          var row := GridRows[r];
          var (price, seatType) := RowPricing(row);
          var seat := Seat(showtimeId, row, i, price, seatType, false, false, None, None);
          SaveGridSeat(showtimeId, r, i, before, base, created);
          store := store[base + |created| := seat];
          created := created + [seat];
          i := i + 1;
        }
        assert RowSeats(showtimeId, r)[..SeatsPerRow] == RowSeats(showtimeId, r);
        r := r + 1;
      }
      SaveAllContents(before, base, created);
      seats := store;
      nextSeatId := base + |created|;
      outcome := Done;
    }

    /** `holdSeats`: holds the listed seats in order for `sessionId` until ten minutes after
        `now`, stopping at the first unknown or booked seat (see `HoldAllEffect`). The
        showtime argument is not used. */
    method HoldSeats(showtimeId: ShowtimeId, seatIds: seq<SeatId>, sessionId: string, now: int)
      returns (outcome: Outcome)
      requires Valid()
      modifies this`seats
      ensures Valid()
      ensures var r := HoldAll(old(seats), seatIds, sessionId, now + HoldMillis);
              seats == r.store && outcome == r.outcome
    {
      var expiry := now + HoldMillis;
      var store := seats;
      var i := 0;
      while i < |seatIds|
        invariant 0 <= i <= |seatIds|
        invariant HoldAll(store, seatIds[i..], sessionId, expiry) == HoldAll(seats, seatIds, sessionId, expiry)
        invariant store.Keys == seats.Keys
      {
        var id := seatIds[i];
        assert seatIds[i..][1..] == seatIds[i + 1..];
        if id !in store {
          seats := store;
          return Failed(SeatNotFound(id));
        }
        if store[id].isBooked {
          seats := store;
          return Failed(SeatAlreadyBooked(id));
        }
        store := store[id := HoldOne(store[id], sessionId, expiry)];
        i := i + 1;
      }
      seats := store;
      outcome := Done;
    }

    /** `releaseSeats`: clears the hold of every listed seat that exists and is not booked. */
    method ReleaseSeats(showtimeId: ShowtimeId, seatIds: seq<SeatId>)
      requires Valid()
      modifies this`seats
      ensures Valid()
      ensures seats == ReleaseAll(old(seats), seatIds)
    {
      var store := seats;
      var i := 0;
      while i < |seatIds|
        invariant 0 <= i <= |seatIds|
        invariant ReleaseAll(store, seatIds[i..]) == ReleaseAll(seats, seatIds)
        invariant store.Keys == seats.Keys
      {
        var id := seatIds[i];
        assert seatIds[i..][1..] == seatIds[i + 1..];
        if id in store && !store[id].isBooked {
          store := store[id := ReleaseOne(store[id])];
        }
        i := i + 1;
      }
      seats := store;
    }

    /** `createBooking`: checks the user, the showtime and every seat before writing
        anything; on success stores a PENDING booking under a fresh id, books every requested
        seat and lowers the showtime's available count by the length of the request. */
    method CreateBooking(userId: UserId, request: BookingRequest, ticketUuid: string, qrUuid: string)
      returns (result: Result<BookingId>)
      requires Valid() && |ticketUuid| >= 8
      modifies this`seats, this`showtimes, this`bookings, this`nextBookingId
      ensures Valid()
      ensures var failure := BookingFailure(old(users), old(showtimes), old(seats), userId, request);
              && (failure.Some? ==> result == Err(failure.value) && unchanged(this))
              && (failure.None? ==>
                    && result == Ok(old(nextBookingId))
                    && bookings == old(bookings)[old(nextBookingId) := NewBooking(userId, request, ticketUuid, qrUuid)]
                    && seats == MarkBooked(old(seats), request.seats)
                    && showtimes == old(showtimes)[request.showtimeId :=
                         Showtime(old(showtimes)[request.showtimeId].availableSeats - |request.seats|)]
                    && nextBookingId == old(nextBookingId) + 1)
    {
      if userId !in users {
        return Err(UserNotFound);
      }
      if request.showtimeId !in showtimes {
        return Err(ShowtimeNotFound);
      }
      var i := 0;
      while i < |request.seats|
        invariant 0 <= i <= |request.seats|
        invariant CheckSeats(seats, request.seats[i..]) == CheckSeats(seats, request.seats)
      {
        var id := request.seats[i];
        assert request.seats[i..][1..] == request.seats[i + 1..];
        if id !in seats {
          assert CheckSeats(seats, request.seats[i..]) == Failed(SeatNotFound(id));
          return Err(SeatNotFound(id));
        }
        if seats[id].isBooked {
          assert CheckSeats(seats, request.seats[i..]) == Failed(SeatAlreadyBooked(id));
          return Err(SeatAlreadyBooked(id));
        }
        i := i + 1;
      }
      assert request.seats[i..] == [];
      assert BookingFailure(users, showtimes, seats, userId, request) == None;
      var bookingId := nextBookingId;
      bookings := bookings[bookingId := NewBooking(userId, request, ticketUuid, qrUuid)];
      nextBookingId := nextBookingId + 1;
      var store := seats;
      var j := 0;
      while j < |request.seats|
        invariant 0 <= j <= |request.seats|
        invariant MarkBooked(store, request.seats[j..]) == MarkBooked(seats, request.seats)
      {
        var id := request.seats[j];
        assert request.seats[j..][1..] == request.seats[j + 1..];
        if id in store {
          store := store[id := store[id].(isBooked := true)];
        }
        j := j + 1;
      }
      MarkBookedKeys(seats, request.seats);
      seats := store;
      var showtime := showtimes[request.showtimeId];
      showtimes := showtimes[request.showtimeId := Showtime(showtime.availableSeats - |request.seats|)];
      result := Ok(bookingId);
    }

    /** `cancelBooking`: fails for an unknown booking; otherwise marks it CANCELLED with the
        reason, unbooks each of its seats, adds its seat count back to the showtime and records
        a 90% refund dated `now`. The previous status is not checked. */
    method CancelBooking(id: BookingId, reason: Option<string>, now: int) returns (result: Result<BookingId>)
      requires Valid()
      modifies this`seats, this`showtimes, this`bookings
      ensures Valid()
      ensures id !in old(bookings) ==> result == Err(BookingNotFound) && unchanged(this)
      ensures id in old(bookings) ==>
                var b := old(bookings)[id];
                && result == Ok(id)
                && bookings == old(bookings)[id := b.(status := Cancelled, cancellationReason := reason,
                                                      refundAmount := Some(Refund(b.totalAmount)),
                                                      refundDate := Some(now))]
                && seats == UnmarkBooked(old(seats), b.seats)
                && showtimes == old(showtimes)[b.showtimeId :=
                     Showtime(old(showtimes)[b.showtimeId].availableSeats + |b.seats|)]
    {
      if id !in bookings {
        return Err(BookingNotFound);
      }
      var booking := bookings[id];
      booking := booking.(status := Cancelled, cancellationReason := reason);
      var store := seats;
      var j := 0;
      while j < |booking.seats|
        invariant 0 <= j <= |booking.seats|
        invariant UnmarkBooked(store, booking.seats[j..]) == UnmarkBooked(seats, booking.seats)
      {
        var seatId := booking.seats[j];
        assert booking.seats[j..][1..] == booking.seats[j + 1..];
        if seatId in store {
          store := store[seatId := store[seatId].(isBooked := false)];
        }
        j := j + 1;
      }
      MarkBookedEffect(seats, booking.seats, false);
      seats := store;
      var showtime := showtimes[booking.showtimeId];
      showtimes := showtimes[booking.showtimeId := Showtime(showtime.availableSeats + |booking.seats|)];
      booking := booking.(refundAmount := Some(Refund(booking.totalAmount)), refundDate := Some(now));
      bookings := bookings[id := booking];
      result := Ok(id);
    }
  }
}
