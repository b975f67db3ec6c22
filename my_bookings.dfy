/** The user's "my bookings" page: the status tabs and search over the user's bookings, the
    cancellation window, the tiered refund and the cancel flow. Times are millisecond
    timestamps and `now` is a parameter. */
module MyBookings {
  import opened Collections
  import opened Text

  const HourMillis := 3600000

  datatype UserBooking = UserBooking(
    id: string, movieTitle: string, theaterName: string, showtime: int,
    seats: seq<string>, totalAmount: real, status: string,
    refundAmount: Option<real>, refundDate: Option<int>, cancellationReason: Option<string>)

  /** The two bookings the page starts with; their show times are read as UTC. */
  const InitialBookings := [
    UserBooking("BK001", "Avengers: Endgame", "PVR Cinemas", 1735155000000, ["A1", "A2"], 475.0,
                "Confirmed", None, None, None),
    UserBooking("BK002", "Spider-Man: No Way Home", "INOX Multiplex", 1735574400000, ["B5", "B6"], 400.0,
                "Confirmed", None, None, None)]

  /** The status tab's criterion; a tab name other than the three below keeps everything. */
  predicate InTab(b: UserBooking, tab: string, now: int)
  {
    if tab == "upcoming" then b.showtime > now && b.status == "Confirmed"
    else if tab == "past" then b.showtime < now
    else if tab == "cancelled" then b.status == "Cancelled"
    else true
  }

  /** The search criterion: a non-empty term must occur in the title or the theatre name. */
  predicate MatchesTerm(b: UserBooking, term: string)
  {
    term == [] || ContainsIgnoringCase(b.movieTitle, term) || ContainsIgnoringCase(b.theaterName, term)
  }

  function TabFilter(tab: string, now: int): UserBooking -> bool
  {
    b => InTab(b, tab, now)
  }

  function TermFilter(term: string): UserBooking -> bool
  {
    b => MatchesTerm(b, term)
  }

  function ShownBy(tab: string, term: string, now: int): UserBooking -> bool
  {
    b => InTab(b, tab, now) && MatchesTerm(b, term)
  }

  /** What the page lists: the bookings in the tab that match the search, in order. */
  function Visible(bs: seq<UserBooking>, tab: string, term: string, now: int): (r: seq<UserBooking>)
    ensures SubsequenceOf(r, bs)
    ensures forall b :: b in r <==> b in bs && InTab(b, tab, now) && MatchesTerm(b, term)
  {
    Filter(bs, ShownBy(tab, term, now))
  }

  /** The "all" tab with no search lists every booking. */
  lemma AllTabListsEverything(bs: seq<UserBooking>, now: int)
    ensures Visible(bs, "all", "", now) == bs
  {
    FilterAll(bs, ShownBy("all", "", now));
  }

  /** A booking whose show starts exactly now is neither upcoming nor past. */
  lemma ShowStartingNowInNeitherTab(b: UserBooking)
    ensures !InTab(b, "upcoming", b.showtime) && !InTab(b, "past", b.showtime)
  {
  }

  /** `canCancel`: more than two hours remain before the show. */
  predicate CanCancel(showtime: int, now: int)
  {
    (showtime - now) as real / HourMillis as real > 2.0
  }

  /** The cancellation window in whole milliseconds. */
  lemma CanCancelWindow(showtime: int, now: int)
    ensures CanCancel(showtime, now) <==> showtime - now > 2 * HourMillis
  {
  }

  /** `calculateRefund`: 90% more than a day ahead, 50% more than four hours ahead, else none. */
  function Refund(totalAmount: real, showtime: int, now: int): (r: real)
  {
    var hours := (showtime - now) as real / HourMillis as real;
    if hours > 24.0 then totalAmount * 0.9
    else if hours > 4.0 then totalAmount * 0.5
    else 0.0
  }

  /** The refund tiers stated in milliseconds before the show. */
  lemma RefundTiers(totalAmount: real, showtime: int, now: int)
    ensures showtime - now > 24 * HourMillis ==> Refund(totalAmount, showtime, now) == totalAmount * 0.9
    ensures 4 * HourMillis < showtime - now <= 24 * HourMillis ==> Refund(totalAmount, showtime, now) == totalAmount * 0.5
    ensures showtime - now <= 4 * HourMillis ==> Refund(totalAmount, showtime, now) == 0.0
  {
  }

  /** Cancelling later never refunds more, and the refund never exceeds what was paid. */
  lemma RefundMonotone(totalAmount: real, showtime: int, earlier: int, later: int)
    requires totalAmount >= 0.0 && earlier <= later
    ensures 0.0 <= Refund(totalAmount, showtime, later) <= Refund(totalAmount, showtime, earlier) <= totalAmount
  {
    var he := (showtime - earlier) as real / HourMillis as real;
    var hl := (showtime - later) as real / HourMillis as real;
    assert hl <= he;
  }

  /** A cancel that is allowed but comes less than four hours ahead refunds nothing. */
  lemma CancellableWithoutRefund(totalAmount: real, showtime: int, now: int)
    requires showtime - now == 3 * HourMillis
    ensures CanCancel(showtime, now) && Refund(totalAmount, showtime, now) == 0.0
  {
  }

  /** `getEmptyStateMessage`. */
  function EmptyStateMessage(tab: string, term: string): (m: string)
    ensures tab == "upcoming" ==> m == "No upcoming bookings found"
    ensures tab == "past" ==> m == "No past bookings found"
    ensures tab == "cancelled" ==> m == "No cancelled bookings found"
    ensures tab !in ["upcoming", "past", "cancelled"] ==>
              m == if term == [] then "No bookings found. Book your first movie!" else "No bookings match your search"
  {
    if tab == "upcoming" then "No upcoming bookings found"
    else if tab == "past" then "No past bookings found"
    else if tab == "cancelled" then "No cancelled bookings found"
    else if term != [] then "No bookings match your search"
    else "No bookings found. Book your first movie!"
  }

  /** The booking after a confirmed cancellation at `now` for `reason`. */
  function Cancelled(b: UserBooking, reason: string, now: int): (c: UserBooking)
    ensures c.status == "Cancelled" && c.cancellationReason == Some(reason) && c.refundDate == Some(now)
    ensures c.refundAmount == Some(Refund(b.totalAmount, b.showtime, now))
    ensures c.(status := b.status, refundAmount := b.refundAmount, refundDate := b.refundDate,
               cancellationReason := b.cancellationReason) == b
  {
    b.(status := "Cancelled", refundAmount := Some(Refund(b.totalAmount, b.showtime, now)),
       refundDate := Some(now), cancellationReason := Some(reason))
  }

  /** A cancelled booking shows under the "cancelled" tab and never under "upcoming". */
  lemma CancelledMovesTab(b: UserBooking, reason: string, now: int, later: int)
    ensures InTab(Cancelled(b, reason, now), "cancelled", later)
    ensures !InTab(Cancelled(b, reason, now), "upcoming", later)
  {
  }

  /** The success alert of a cancellation. */
  datatype CancelAlert = CancelAlert(bookingId: string, refundAmount: real)

  class MyBookingsComponent {
    var bookings: seq<UserBooking>
    var filteredBookings: seq<UserBooking>
    var activeFilter: string
    var searchTerm: string

    constructor ()
      ensures bookings == InitialBookings && filteredBookings == InitialBookings
      ensures activeFilter == "all" && searchTerm == ""
    {
      bookings := InitialBookings;
      filteredBookings := InitialBookings;
      activeFilter := "all";
      searchTerm := "";
    }

    /** `filterBookings`: the tab's filter, then the search filter. */
    method FilterBookings(now: int)
      modifies this
      ensures filteredBookings == Visible(bookings, activeFilter, searchTerm, now)
      ensures bookings == old(bookings) && activeFilter == old(activeFilter) && searchTerm == old(searchTerm)
    {
      var filtered := bookings;
      if activeFilter != "all" {
        if activeFilter == "upcoming" || activeFilter == "past" || activeFilter == "cancelled" {
          filtered := Filter(filtered, TabFilter(activeFilter, now));
        } else {
          FilterAll(filtered, TabFilter(activeFilter, now));
        }
      } else {
        FilterAll(filtered, TabFilter(activeFilter, now));
      }
      assert filtered == Filter(bookings, TabFilter(activeFilter, now));
      if searchTerm != [] {
        filtered := Filter(filtered, TermFilter(searchTerm));
      } else {
        FilterAll(filtered, TermFilter(searchTerm));
      }
      FilterFilter(bookings, TabFilter(activeFilter, now), TermFilter(searchTerm), ShownBy(activeFilter, searchTerm, now));
      filteredBookings := filtered;
    }

    method SetFilter(tab: string, now: int)
      modifies this
      ensures activeFilter == tab && bookings == old(bookings) && searchTerm == old(searchTerm)
      ensures filteredBookings == Visible(bookings, tab, searchTerm, now)
    {
      activeFilter := tab;
      FilterBookings(now);
    }

    /** The search box's binding followed by `onSearch`. */
    method OnSearch(term: string, now: int)
      modifies this
      ensures searchTerm == term && bookings == old(bookings) && activeFilter == old(activeFilter)
      ensures filteredBookings == Visible(bookings, activeFilter, term, now)
    {
      searchTerm := term;
      FilterBookings(now);
    }

    /** `cancelBooking` on the booking at `index`: `reason` is the prompt's answer (`None`
        when dismissed) and `confirmed` the confirmation dialog's. */
    method CancelBooking(index: nat, reason: Option<string>, confirmed: bool, now: int)
      returns (alert: Option<CancelAlert>)
      requires index < |bookings|
      modifies this
      ensures reason.None? || reason.value == [] || !confirmed ==>
                bookings == old(bookings) && filteredBookings == old(filteredBookings) && alert.None?
      ensures reason.Some? && reason.value != [] && confirmed ==>
                && bookings == old(bookings)[index := Cancelled(old(bookings)[index], reason.value, now)]
                && filteredBookings == Visible(bookings, activeFilter, searchTerm, now)
                && alert == Some(CancelAlert(old(bookings)[index].id, Refund(old(bookings)[index].totalAmount, old(bookings)[index].showtime, now)))
      ensures activeFilter == old(activeFilter) && searchTerm == old(searchTerm)
    {
      alert := None;
      if reason.None? || reason.value == [] {
        return;
      }
      if confirmed {
        var b := bookings[index];
        var refund := Refund(b.totalAmount, b.showtime, now);
        bookings := bookings[index := Cancelled(b, reason.value, now)];
        alert := Some(CancelAlert(b.id, refund));
        FilterBookings(now);
      }
    }
  }
}
