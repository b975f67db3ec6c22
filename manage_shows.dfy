/** The admin show list: four filters over the loaded shows, and a form that is validated and
    turned into the showtime record sent to the server. Times are millisecond timestamps and
    calendar days are counted on a UTC clock. */
module ManageShows {
  import opened Collections
  import opened Text
  import Alerts

  const DayMillis := 86400000

  /** A loaded show, with the movie and theatre names it is displayed by. */
  datatype Show = Show(
    id: string, movieTitle: string, theaterName: string, screen: string, showtime: int,
    ticketPrice: real, totalSeats: int, availableSeats: int, status: string)

  /** The four filter controls; `selectedDate` is the parsed date input, `None` when empty. */
  datatype Criteria = Criteria(searchTerm: string, selectedMovie: string, selectedTheater: string, selectedDate: Option<int>)

  const NoCriteria := Criteria("", "", "", None)

  function DayOf(ms: int): int { ms / DayMillis }

  predicate MatchesSearch(s: Show, term: string)
  {
    term == [] || ContainsIgnoringCase(s.movieTitle, term) || ContainsIgnoringCase(s.theaterName, term)
  }

  /** The `filterShows` predicate: search, then exact movie and theatre names, then the same
      calendar day. */
  predicate Matches(s: Show, c: Criteria)
  {
    MatchesSearch(s, c.searchTerm) &&
    (c.selectedMovie == [] || s.movieTitle == c.selectedMovie) &&
    (c.selectedTheater == [] || s.theaterName == c.selectedTheater) &&
    (c.selectedDate.None? || DayOf(s.showtime) == DayOf(c.selectedDate.value))
  }

  function MatchesAll(c: Criteria): Show -> bool
  {
    (s: Show) => Matches(s, c)
  }

  /** The shows `filterShows` keeps: those matching every criterion, in their loaded order. */
  function FilteredShows(shows: seq<Show>, c: Criteria): (r: seq<Show>)
    ensures SubsequenceOf(r, shows)
    ensures forall s :: s in r <==> s in shows && Matches(s, c)
  {
    Filter(shows, MatchesAll(c))
  }

  /** `hasFilters`: some criterion is set. */
  predicate HasFilters(c: Criteria)
  {
    c.searchTerm != [] || c.selectedMovie != [] || c.selectedTheater != [] || c.selectedDate.Some?
  }

  /** Without any criterion every show is listed. */
  lemma NoFiltersKeepsAll(shows: seq<Show>, c: Criteria)
    requires !HasFilters(c)
    ensures FilteredShows(shows, c) == shows
  {
    FilterAll(shows, MatchesAll(c));
  }

  /** The date filter keeps exactly the shows starting on the selected day, whatever the time
      of day either timestamp carries. */
  lemma DateFilterKeepsSameDay(s: Show, day: int, at: int)
    requires 0 <= at < DayMillis
    ensures Matches(s, Criteria("", "", "", Some(day * DayMillis + at))) <==>
            day * DayMillis <= s.showtime < day * DayMillis + DayMillis
  {
    DayOfWithin(day, at);
    if day * DayMillis <= s.showtime < day * DayMillis + DayMillis {
      DayOfWithin(day, s.showtime - day * DayMillis);
    } else if s.showtime < day * DayMillis {
      DayOfBelow(s.showtime, day);
    } else {
      DayOfAbove(s.showtime, day);
    }
  }

  lemma DayOfWithin(day: int, at: int)
    requires 0 <= at < DayMillis
    ensures DayOf(day * DayMillis + at) == day
  {
  }

  lemma DayOfBelow(t: int, day: int)
    requires t < day * DayMillis
    ensures DayOf(t) < day
  {
  }

  lemma DayOfAbove(t: int, day: int)
    requires t >= day * DayMillis + DayMillis
    ensures DayOf(t) > day
  {
  }

  const FilteredEmptyMessage := "No shows match your current filters. Try adjusting your search criteria."
  const NoShowsMessage := "No shows scheduled yet. Start by adding your first show."

  /** `getEmptyStateMessage`: the filtered-out text exactly when some criterion is set. */
  function EmptyStateMessage(c: Criteria): (m: string)
    ensures m == FilteredEmptyMessage <==> HasFilters(c)
    ensures m == NoShowsMessage <==> !HasFilters(c)
  {
    if HasFilters(c) then FilteredEmptyMessage else NoShowsMessage
  }

  /** The `newShow` form. */
  datatype ShowForm = ShowForm(
    movieId: string, theaterId: string, screen: string, showDateTime: string,
    ticketPrice: real, totalSeats: int, status: string)

  /** The form `resetForm` installs. */
  const DefaultForm := ShowForm("", "", "", "", 0.0, 0, "ACTIVE")

  /** `validateForm`'s condition. */
  predicate FormValid(f: ShowForm)
  {
    f.movieId != [] && f.theaterId != [] && f.screen != [] && f.showDateTime != [] &&
    f.ticketPrice > 0.0 && f.totalSeats > 0
  }

  const FillAllFieldsMessage := "Please fill all required fields"

  /** The record `saveShow` sends; the date text is passed on as entered. */
  datatype ShowtimeData = ShowtimeData(
    movieId: string, theaterId: string, screen: string, showDateTime: string,
    ticketPrice: real, totalSeats: int, availableSeats: int, status: string)

  /** The `showtimeData` a valid form is turned into. */
  function BuildShowtime(f: ShowForm): (d: ShowtimeData)
    requires FormValid(f)
    ensures d.availableSeats == d.totalSeats == f.totalSeats > 0
    ensures d.ticketPrice == f.ticketPrice > 0.0
    ensures FormOfShowtime(d) == f
  {
    ShowtimeData(f.movieId, f.theaterId, f.screen, f.showDateTime, f.ticketPrice, f.totalSeats, f.totalSeats, f.status)
  }

  /** Reading a showtime record back into the form. */
  function FormOfShowtime(d: ShowtimeData): ShowForm
  {
    ShowForm(d.movieId, d.theaterId, d.screen, d.showDateTime, d.ticketPrice, d.totalSeats, d.status)
  }

  /** The default form is not valid: it is empty and has no price or seats. */
  lemma DefaultFormInvalid()
    ensures !FormValid(DefaultForm)
  {
  }

  /** `saveShow`'s request: an update of the edited show, or a creation. */
  datatype SaveRequest = Update(id: string, data: ShowtimeData) | Create(data: ShowtimeData)

  /** The alert text for the server's reply to a save request. */
  function ReplyMessage(request: SaveRequest, replyOk: bool): (m: string)
    ensures request.Update? && replyOk ==> m == "Show updated successfully!"
    ensures request.Create? && replyOk ==> m == "Show added successfully!"
    ensures request.Update? && !replyOk ==> m == "Failed to update show"
    ensures request.Create? && !replyOk ==> m == "Failed to create show"
  {
    match request
    case Update(_, _) => if replyOk then "Show updated successfully!" else "Failed to update show"
    case Create(_) => if replyOk then "Show added successfully!" else "Failed to create show"
  }

  class ManageShowsComponent {
    var shows: seq<Show>
    var filteredShows: seq<Show>
    var criteria: Criteria
    var showAddForm: bool
    var isEditMode: bool
    var editingShowId: Option<string>
    var newShow: ShowForm
    var submitting: bool

    constructor ()
      ensures shows == [] && filteredShows == [] && criteria == NoCriteria
      ensures !showAddForm && !isEditMode && editingShowId.None? && newShow == DefaultForm && !submitting
    {
      shows := [];
      filteredShows := [];
      criteria := NoCriteria;
      showAddForm := false;
      isEditMode := false;
      editingShowId := None;
      newShow := DefaultForm;
      submitting := false;
    }

    /** The shows as `loadShows` assembles them, followed by `filterShows`. */
    method SetShows(loaded: seq<Show>)
      modifies this
      ensures shows == loaded && filteredShows == FilteredShows(loaded, criteria)
      ensures criteria == old(criteria) && newShow == old(newShow) && showAddForm == old(showAddForm)
      ensures isEditMode == old(isEditMode) && editingShowId == old(editingShowId) && submitting == old(submitting)
    {
      shows := loaded;
      FilterShows();
    }

    method FilterShows()
      modifies this
      ensures filteredShows == FilteredShows(shows, criteria)
      ensures shows == old(shows) && criteria == old(criteria) && newShow == old(newShow)
      ensures showAddForm == old(showAddForm) && isEditMode == old(isEditMode)
      ensures editingShowId == old(editingShowId) && submitting == old(submitting)
    {
      filteredShows := Filter(shows, MatchesAll(criteria));
    }

    /** `onSearch` and `onFilterChange`: the bound controls have changed; the list is
        recomputed. */
    method OnFilterChange(c: Criteria)
      modifies this
      ensures criteria == c && filteredShows == FilteredShows(shows, c)
      ensures shows == old(shows) && newShow == old(newShow) && showAddForm == old(showAddForm)
      ensures isEditMode == old(isEditMode) && editingShowId == old(editingShowId) && submitting == old(submitting)
    {
      criteria := c;
      FilterShows();
    }

    method ResetForm()
      modifies this
      ensures newShow == DefaultForm
      ensures shows == old(shows) && filteredShows == old(filteredShows) && criteria == old(criteria)
      ensures showAddForm == old(showAddForm) && isEditMode == old(isEditMode)
      ensures editingShowId == old(editingShowId) && submitting == old(submitting)
    {
      newShow := DefaultForm;
    }

    /** `addNewShow`: an empty form in add mode. */
    method AddNewShow()
      modifies this
      ensures showAddForm && !isEditMode && editingShowId.None? && newShow == DefaultForm
      ensures shows == old(shows) && filteredShows == old(filteredShows) && criteria == old(criteria)
      ensures submitting == old(submitting)
    {
      isEditMode := false;
      editingShowId := None;
      showAddForm := true;
      ResetForm();
    }

    /** `cancelAdd`: the form is hidden and reset, and edit mode is left. */
    method CancelAdd()
      modifies this
      ensures !showAddForm && !isEditMode && editingShowId.None? && newShow == DefaultForm
      ensures shows == old(shows) && filteredShows == old(filteredShows) && criteria == old(criteria)
      ensures submitting == old(submitting)
    {
      showAddForm := false;
      isEditMode := false;
      editingShowId := None;
      ResetForm();
    }

    /** `validateForm`: an invalid form raises one error alert. */
    method ValidateForm(alerts: Alerts.AlertService, now: nat) returns (ok: bool)
      modifies alerts
      ensures ok == FormValid(newShow)
      ensures ok ==> alerts.alerts == old(alerts.alerts)
      ensures !ok ==> alerts.alerts == old(alerts.alerts) + [Alerts.NewAlert(Alerts.Error, FillAllFieldsMessage, false, now)]
    {
      if !FormValid(newShow) {
        var _ := alerts.Error(FillAllFieldsMessage, now);
        return false;
      }
      return true;
    }

    /** `saveShow` up to the request it sends: nothing for an invalid form; otherwise the
        form's showtime record, as an update when editing a show with an id and as a creation
        otherwise. */
    method SaveShow(alerts: Alerts.AlertService, now: nat) returns (request: Option<SaveRequest>)
      modifies this, alerts
      ensures request.Some? <==> FormValid(old(newShow))
      ensures request.Some? ==>
                submitting &&
                request.value.data == BuildShowtime(old(newShow)) &&
                (request.value.Update? <==> old(isEditMode) && old(editingShowId).Some? && old(editingShowId).value != []) &&
                (request.value.Update? ==> request.value.id == old(editingShowId).value)
      ensures request.None? ==> submitting == old(submitting)
      ensures newShow == old(newShow) && shows == old(shows) && filteredShows == old(filteredShows)
      ensures criteria == old(criteria) && showAddForm == old(showAddForm)
      ensures isEditMode == old(isEditMode) && editingShowId == old(editingShowId)
    {
      var ok := ValidateForm(alerts, now);
      if !ok {
        return None;
      }
      submitting := true;
      var data := BuildShowtime(newShow);
      if isEditMode && editingShowId.Some? && editingShowId.value != [] {
        request := Some(Update(editingShowId.value, data));
      } else {
        request := Some(Create(data));
      }
    }

    /** The reply to `saveShow`'s request: a success alert, then `cancelAdd`; or an error
        alert with the form kept open. Either way the form is no longer submitting. The
        reload that follows a success is `SetShows`. */
    method SaveReply(request: SaveRequest, replyOk: bool, alerts: Alerts.AlertService, now: nat)
      modifies this, alerts
      ensures !submitting
      ensures replyOk ==> alerts.alerts == old(alerts.alerts) + [Alerts.NewAlert(Alerts.Success, ReplyMessage(request, true), true, now)]
      ensures !replyOk ==> alerts.alerts == old(alerts.alerts) + [Alerts.NewAlert(Alerts.Error, ReplyMessage(request, false), false, now)]
      ensures replyOk ==> !showAddForm && !isEditMode && editingShowId.None? && newShow == DefaultForm
      ensures !replyOk ==> showAddForm == old(showAddForm) && isEditMode == old(isEditMode) &&
                           editingShowId == old(editingShowId) && newShow == old(newShow)
      ensures shows == old(shows) && filteredShows == old(filteredShows) && criteria == old(criteria)
    {
      if replyOk {
        var _ := alerts.Success(ReplyMessage(request, true), now);
        submitting := false;
        CancelAdd();
      } else {
        var _ := alerts.Error(ReplyMessage(request, false), now);
        submitting := false;
      }
    }
  }
}
