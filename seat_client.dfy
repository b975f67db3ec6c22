/** The browser-side seat service: turning the server's seat list for a showtime into a
    layout, the polled availability view, and the hold requests it sends. HTTP itself is not
    modelled; a request is returned as a value. */
module SeatClient {
  import opened Collections
  import opened Ordering
  import opened Text

  datatype SeatType = Regular | Premium | Vip

  /** A seat as the client sees it. */
  datatype ClientSeat = ClientSeat(
    id: string,
    row: string,
    number: int,
    isBooked: bool,
    isHeld: bool,
    price: real,
    seatType: SeatType)

  datatype SeatLayout = SeatLayout(
    showtimeId: string,
    theater: string,
    screen: string,
    totalSeats: nat,
    availableSeats: nat,
    seats: seq<ClientSeat>,
    rows: seq<string>,
    seatsPerRow: int)

  /** The layout, and whether deriving it sent the request that initialises the showtime's
      seats on the server. */
  datatype LayoutResult = LayoutResult(layout: SeatLayout, requestsInitialize: bool)

  function EmptyLayout(showtimeId: string): SeatLayout
  {
    SeatLayout(showtimeId, "Theater", "Screen 1", 0, 0, [], [], 0)
  }

  /** `seats.map(s => s.row)`. */
  function RowLabels(seats: seq<ClientSeat>): (r: seq<string>)
    ensures |r| == |seats| && forall i :: 0 <= i < |seats| ==> r[i] == seats[i].row
  {
    seq(|seats|, i requires 0 <= i < |seats| => seats[i].row)
  }

  /** `Math.max(...seats.map(s => s.number))` on a non-empty list. */
  function MaxNumber(seats: seq<ClientSeat>): (m: int)
    requires seats != []
    ensures forall i :: 0 <= i < |seats| ==> seats[i].number <= m
    ensures exists i :: 0 <= i < |seats| && seats[i].number == m
    decreases |seats|
  {
    if |seats| == 1 then seats[0].number
    else
      var rest := MaxNumber(seats[1..]);
      assert forall i :: 1 <= i < |seats| ==> seats[i] == seats[1..][i - 1];
      if seats[0].number >= rest then seats[0].number else rest
  }

  function IsUnbooked(s: ClientSeat): bool
  {
    !s.isBooked
  }

  function IsBooked(s: ClientSeat): bool
  {
    s.isBooked
  }

  /** `getSeatLayout`: an empty list gives the empty layout and requests initialisation;
      otherwise the seats are kept as they are and the rows, seat count per row and totals are
      derived from them. */
  function GetSeatLayout(showtimeId: string, seats: seq<ClientSeat>): (r: LayoutResult)
    ensures r.requestsInitialize <==> seats == []
    ensures seats == [] ==> r.layout == EmptyLayout(showtimeId)
    ensures seats != [] ==>
              && r.layout.showtimeId == showtimeId
              && r.layout.seats == seats
              && r.layout.totalSeats == |seats|
              && r.layout.availableSeats == CountWhere(seats, IsUnbooked)
              && StrictlySorted(r.layout.rows)
              && (forall row :: row in r.layout.rows <==> exists i :: 0 <= i < |seats| && seats[i].row == row)
              && (forall i :: 0 <= i < |seats| ==> seats[i].number <= r.layout.seatsPerRow)
              && (exists i :: 0 <= i < |seats| && seats[i].number == r.layout.seatsPerRow)
  {
    if seats == [] then LayoutResult(EmptyLayout(showtimeId), true)
    else
      var rows := SortedDistinct(RowLabels(seats));
      assert forall row :: row in RowLabels(seats) <==> exists i :: 0 <= i < |seats| && seats[i].row == row by {
        forall row | row in RowLabels(seats) ensures exists i :: 0 <= i < |seats| && seats[i].row == row {
          var i :| 0 <= i < |seats| && RowLabels(seats)[i] == row;
        }
      }
      LayoutResult(SeatLayout(showtimeId, "Theater", "Screen 1", |seats|, CountWhere(seats, IsUnbooked),
                              seats, rows, MaxNumber(seats)), false)
  }

  /** Held seats count as available: the available and booked counts add up to the total. */
  lemma AvailablePlusBooked(showtimeId: string, seats: seq<ClientSeat>)
    ensures var layout := GetSeatLayout(showtimeId, seats).layout;
            layout.availableSeats + CountWhere(seats, IsBooked) == layout.totalSeats
  {
    FilterComplement(seats, IsUnbooked, IsBooked);
  }

  /** The layout's rows do not depend on the order of the seats. */
  lemma RowsIndependentOfOrder(showtimeId: string, seats: seq<ClientSeat>, other: seq<ClientSeat>)
    requires seats != [] && other != []
    requires forall s :: s in seats <==> s in other
    ensures GetSeatLayout(showtimeId, seats).layout.rows == GetSeatLayout(showtimeId, other).layout.rows
  {
    var a, b := RowLabels(seats), RowLabels(other);
    forall row ensures row in a <==> row in b {
      if row in a {
        var i :| 0 <= i < |seats| && a[i] == row;
        assert seats[i] in other;
        var j :| 0 <= j < |other| && other[j] == seats[i];
        assert b[j] == row;
      }
      if row in b {
        var j :| 0 <= j < |other| && b[j] == row;
        assert other[j] in seats;
        var i :| 0 <= i < |seats| && seats[i] == other[j];
        assert a[i] == row;
      }
    }
    SortedDistinctBySet(a, b);
  }

  // ---------------------------------------------------------------------------------
  // Availability polling
  // ---------------------------------------------------------------------------------

  datatype SeatAvailability = SeatAvailability(
    seatId: string,
    isAvailable: bool,
    isHeld: bool,
    heldBy: Option<string>,
    holdExpiry: Option<int>)

  /** A hold shown by the availability view lasts ten minutes from the time of the poll. */
  const HoldMillis: int := 10 * 60 * 1000

  function AvailabilityOf(seat: ClientSeat, now: int): SeatAvailability
  {
    SeatAvailability(seat.id, !seat.isBooked, seat.isHeld,
                     if seat.isHeld then Some("session") else None,
                     if seat.isHeld then Some(now + HoldMillis) else None)
  }

  /** `getRealTimeAvailability`: one entry per seat, in order. */
  function GetRealTimeAvailability(seats: seq<ClientSeat>, now: int): (r: seq<SeatAvailability>)
    ensures |r| == |seats|
    ensures forall i :: 0 <= i < |seats| ==>
              && r[i].seatId == seats[i].id
              && r[i].isAvailable == !seats[i].isBooked
              && r[i].isHeld == seats[i].isHeld
              && (r[i].heldBy.Some? <==> seats[i].isHeld)
              && (r[i].heldBy.Some? ==> r[i].heldBy.value == "session")
              && (r[i].holdExpiry.Some? <==> seats[i].isHeld)
  {
    seq(|seats|, i requires 0 <= i < |seats| => AvailabilityOf(seats[i], now))
  }

  function IsAvailable(a: SeatAvailability): bool
  {
    a.isAvailable
  }

  lemma {:induction false} CountAvailable(seats: seq<ClientSeat>, now: int)
    ensures CountWhere(GetRealTimeAvailability(seats, now), IsAvailable) == CountWhere(seats, IsUnbooked)
    decreases |seats|
  {
    if seats != [] {
      var view := GetRealTimeAvailability(seats, now);
      CountAvailable(seats[1..], now);
      assert view[1..] == GetRealTimeAvailability(seats[1..], now);
    }
  }

  /** The availability view and the layout agree: as many entries are available as the layout
      counts as available seats. */
  lemma AvailabilityAgreesWithLayout(showtimeId: string, seats: seq<ClientSeat>, now: int)
    requires seats != []
    ensures CountWhere(GetRealTimeAvailability(seats, now), IsAvailable) ==
            GetSeatLayout(showtimeId, seats).layout.availableSeats
  {
    CountAvailable(seats, now);
  }

  // ---------------------------------------------------------------------------------
  // Hold requests
  // ---------------------------------------------------------------------------------

  datatype HoldRequest = HoldRequest(showtimeId: string, seatIds: seq<string>, sessionId: string)

  const SessionPrefix: string := "session_"

  /** `holdSeats`: the request body, with the session id built from the clock reading `now`. */
  function HoldSeatsRequest(showtimeId: string, seatIds: seq<string>, now: nat): (r: HoldRequest)
    ensures r.showtimeId == showtimeId && r.seatIds == seatIds
    ensures |r.sessionId| > |SessionPrefix| && r.sessionId[..|SessionPrefix|] == SessionPrefix
    ensures AllDigits(r.sessionId[|SessionPrefix|..])
  {
    var r := HoldRequest(showtimeId, seatIds, SessionPrefix + NatToString(now));
    assert r.sessionId[|SessionPrefix|..] == NatToString(now);
    r
  }

  /** `extendSeatHold`: the same request as `holdSeats`, under a session id generated anew. */
  function ExtendSeatHold(showtimeId: string, seatIds: seq<string>, now: nat): (r: HoldRequest)
    ensures r.showtimeId == showtimeId && r.seatIds == seatIds
    ensures r == HoldSeatsRequest(showtimeId, seatIds, now)
  {
    HoldSeatsRequest(showtimeId, seatIds, now)
  }

  /** The session id records the clock reading it was made from. */
  lemma SessionIdRecordsTime(showtimeId: string, seatIds: seq<string>, now: nat)
    ensures var id := HoldSeatsRequest(showtimeId, seatIds, now).sessionId;
            DigitsValue(id[|SessionPrefix|..]) == now
  {
    var id := HoldSeatsRequest(showtimeId, seatIds, now).sessionId;
    assert id[|SessionPrefix|..] == NatToString(now);
    DigitsValueOfNatToString(now);
  }

  /** Requests made at different milliseconds carry different session ids, so an extension
      re-holds the seats under a session other than the one that first held them. */
  lemma ExtensionChangesSession(showtimeId: string, seatIds: seq<string>, first: nat, later: nat)
    requires first != later
    ensures ExtendSeatHold(showtimeId, seatIds, later).sessionId != HoldSeatsRequest(showtimeId, seatIds, first).sessionId
  {
    SessionIdRecordsTime(showtimeId, seatIds, first);
    SessionIdRecordsTime(showtimeId, seatIds, later);
  }
}
