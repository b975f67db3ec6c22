/** The admin list of every booking: a status filter and a search over the movie title, the
    customer's name and the booking id, applied one after the other. The bookings arrive as
    untyped records, so each searched field may be missing. */
module AdminBookings {
  import opened Collections
  import opened Text
  import opened Alerts

  const AllStatuses := "ALL"

  /** The fields of a booking record that the list reads; a missing field is `None`. */
  datatype BookingRecord = BookingRecord(
    bookingId: Option<string>, movieTitle: Option<string>, userName: Option<string>, status: string)

  /** `b.field?.toLowerCase().includes(term)`: a missing field never matches. */
  predicate FieldMatches(field: Option<string>, term: string)
  {
    field.Some? && ContainsIgnoringCase(field.value, term)
  }

  predicate MatchesTerm(b: BookingRecord, term: string)
  {
    FieldMatches(b.movieTitle, term) || FieldMatches(b.userName, term) || FieldMatches(b.bookingId, term)
  }

  /** The status criterion: `ALL`, or the exact status. */
  predicate StatusKept(b: BookingRecord, status: string)
  {
    status == AllStatuses || b.status == status
  }

  /** The search criterion: an empty term is off. */
  predicate SearchKept(b: BookingRecord, term: string)
  {
    term == [] || MatchesTerm(b, term)
  }

  function HasStatus(status: string): BookingRecord -> bool
  {
    (b: BookingRecord) => b.status == status
  }

  function HasTerm(term: string): BookingRecord -> bool
  {
    (b: BookingRecord) => MatchesTerm(b, term)
  }

  function Kept(status: string, term: string): BookingRecord -> bool
  {
    (b: BookingRecord) => StatusKept(b, status) && SearchKept(b, term)
  }

  /** The list `applyFilters` shows: the bookings meeting both criteria, in their order. */
  function FilteredBookings(bs: seq<BookingRecord>, status: string, term: string): (r: seq<BookingRecord>)
    ensures SubsequenceOf(r, bs)
    ensures forall b :: b in r <==> b in bs && StatusKept(b, status) && SearchKept(b, term)
  {
    Filter(bs, Kept(status, term))
  }

  /** `ALL` with an empty search lists every booking. */
  lemma NoCriteriaKeepsAll(bs: seq<BookingRecord>)
    ensures FilteredBookings(bs, AllStatuses, "") == bs
  {
    FilterAll(bs, Kept(AllStatuses, ""));
  }

  /** A booking whose title, name and id are all missing is never found by a search. */
  lemma MissingFieldsNeverMatch(bs: seq<BookingRecord>, status: string, term: string, b: BookingRecord)
    requires term != [] && b.movieTitle.None? && b.userName.None? && b.bookingId.None?
    ensures b !in FilteredBookings(bs, status, term)
  {
  }

  /** Choosing a status narrows the `ALL` list to the bookings with that status, in order. */
  lemma StatusNarrowsAll(bs: seq<BookingRecord>, status: string, term: string)
    ensures FilteredBookings(bs, status, term) == Filter(FilteredBookings(bs, AllStatuses, term), (b: BookingRecord) => StatusKept(b, status))
  {
    FilterFilter(bs, Kept(AllStatuses, term), (b: BookingRecord) => StatusKept(b, status), Kept(status, term));
  }

  class AdminBookingsComponent {
    var bookings: seq<BookingRecord>
    var filteredBookings: seq<BookingRecord>
    var loading: bool
    var searchTerm: string
    var filterStatus: string

    constructor ()
      ensures bookings == [] && filteredBookings == [] && loading
      ensures searchTerm == "" && filterStatus == AllStatuses
    {
      bookings := [];
      filteredBookings := [];
      loading := true;
      searchTerm := "";
      filterStatus := AllStatuses;
    }

    /** `applyFilters`: the status filter when a status is chosen, then the search when a
        term is entered. */
    method ApplyFilters()
      modifies this
      ensures filteredBookings == FilteredBookings(bookings, filterStatus, searchTerm)
      ensures bookings == old(bookings) && searchTerm == old(searchTerm) && filterStatus == old(filterStatus)
      ensures loading == old(loading)
    {
      var filtered := bookings;
      if filterStatus != AllStatuses {
        filtered := Filter(filtered, HasStatus(filterStatus));
      }
      if searchTerm != [] {
        filtered := Filter(filtered, HasTerm(searchTerm));
      }
      filteredBookings := filtered;
      StepwiseFilters(bookings, filterStatus, searchTerm);
    }

    /** A successful `loadBookings` reply. */
    method BookingsLoaded(reply: seq<BookingRecord>)
      modifies this
      ensures bookings == reply && !loading
      ensures filteredBookings == FilteredBookings(reply, filterStatus, searchTerm)
      ensures searchTerm == old(searchTerm) && filterStatus == old(filterStatus)
    {
      bookings := reply;
      ApplyFilters();
      loading := false;
    }

    /** A failed `loadBookings`: an error alert, and the list is kept. */
    method LoadFailed(alerts: AlertService, now: nat)
      modifies this, alerts
      ensures alerts.alerts == old(alerts.alerts) + [Alert(NatToString(now), AlertType.Error, "Failed to load bookings", false)]
      ensures !loading && bookings == old(bookings) && filteredBookings == old(filteredBookings)
      ensures searchTerm == old(searchTerm) && filterStatus == old(filterStatus)
    {
      var _ := alerts.Error("Failed to load bookings", now);
      loading := false;
    }

    method SearchBookings(term: string)
      modifies this
      ensures searchTerm == term && filterStatus == old(filterStatus) && bookings == old(bookings)
      ensures filteredBookings == FilteredBookings(bookings, old(filterStatus), term)
    {
      searchTerm := term;
      ApplyFilters();
    }

    method FilterByStatus(status: string)
      modifies this
      ensures filterStatus == status && searchTerm == old(searchTerm) && bookings == old(bookings)
      ensures filteredBookings == FilteredBookings(bookings, status, old(searchTerm))
    {
      filterStatus := status;
      ApplyFilters();
    }
  }

  /** What `applyFilters` computes, step by step, equals the list of bookings meeting both
      criteria: a skipped step keeps every booking, and two filters in a row keep what both
      accept. */
  lemma StepwiseFilters(bs: seq<BookingRecord>, status: string, term: string)
    ensures var afterStatus := if status != AllStatuses then Filter(bs, HasStatus(status)) else bs;
            (if term != [] then Filter(afterStatus, HasTerm(term)) else afterStatus) ==
            FilteredBookings(bs, status, term)
  {
    var p := Kept(status, term);
    if status != AllStatuses && term != [] {
      FilterFilter(bs, HasStatus(status), HasTerm(term), p);
    } else if status != AllStatuses {
      FilterFilter(bs, HasStatus(status), (b: BookingRecord) => true, p);
      FilterAll(Filter(bs, HasStatus(status)), (b: BookingRecord) => true);
    } else if term != [] {
      FilterFilter(bs, (b: BookingRecord) => true, HasTerm(term), p);
      FilterAll(bs, (b: BookingRecord) => true);
    } else {
      FilterAll(bs, p);
    }
  }
}
