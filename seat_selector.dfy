/** The seat-selection component on the booking page: the user's selection and its running
    total, availability updates merged into the loaded layout, and the hold countdown. Emitted
    events are returned as values; the session id read from session storage and the clock are
    parameters. */
module SeatSelector {
  import opened Collections
  import opened Text
  import opened SeatClient

  /** What the component emits on `seatsSelected` and `totalAmountChanged`. */
  datatype Emission = Emission(selectedSeats: seq<string>, totalAmount: real)

  predicate Distinct<T(==)>(s: seq<T>)
  {
    forall i, j :: 0 <= i < j < |s| ==> s[i] != s[j]
  }

  /** `seats.find(s => s.id === id)`, as the index of the first seat with that id. */
  function FindSeat(seats: seq<ClientSeat>, id: string): (r: Option<nat>)
    ensures r.None? <==> forall i :: 0 <= i < |seats| ==> seats[i].id != id
    ensures r.Some? ==> r.value < |seats| && seats[r.value].id == id &&
                        forall i :: 0 <= i < r.value ==> seats[i].id != id
    decreases |seats|
  {
    if seats == [] then None
    else if seats[0].id == id then Some(0)
    else match FindSeat(seats[1..], id)
      case None => None
      case Some(k) => Some(k + 1)
  }

  // ---------------------------------------------------------------------------------
  // Selection and total
  // ---------------------------------------------------------------------------------

  /** `seat?.price || 0` for the first layout seat with that id. */
  function PriceOf(layout: Option<SeatLayout>, id: string): real
  {
    if layout.None? then 0.0
    else match FindSeat(layout.value.seats, id)
      case None => 0.0
      case Some(i) => layout.value.seats[i].price
  }

  function PriceIn(layout: Option<SeatLayout>): string -> real
  {
    id => PriceOf(layout, id)
  }

  /** `calculateTotal`: the prices of the selected ids summed in selection order. */
  function TotalOf(layout: Option<SeatLayout>, selected: seq<string>): real
  {
    SumOf(selected, PriceIn(layout))
  }

  /** The selection after toggling `id`: every occurrence removed if present, else appended. */
  function Toggled(selected: seq<string>, id: string): seq<string>
  {
    if id in selected then Filter(selected, Except(id)) else selected + [id]
  }

  /** Toggling flips the membership of the toggled id and of no other. */
  lemma ToggleFlips(selected: seq<string>, id: string)
    ensures id in Toggled(selected, id) <==> id !in selected
    ensures forall other :: other != id ==> (other in Toggled(selected, id) <==> other in selected)
  {
  }

  /** A selection without duplicates stays without duplicates. */
  lemma ToggleKeepsDistinct(selected: seq<string>, id: string)
    requires Distinct(selected)
    ensures Distinct(Toggled(selected, id))
  {
    if id in selected {
      FilterKeepsDistinct(selected, Except(id));
    }
  }

  lemma {:induction false} FilterKeepsDistinct(s: seq<string>, p: string -> bool)
    requires Distinct(s)
    ensures Distinct(Filter(s, p))
    decreases |s|
  {
    if s != [] {
      assert Distinct(s[1..]) by {
        forall i, j | 0 <= i < j < |s[1..]| ensures s[1..][i] != s[1..][j] {
          assert s[1..][i] == s[i + 1] && s[1..][j] == s[j + 1];
        }
      }
      FilterKeepsDistinct(s[1..], p);
      assert s[0] !in s[1..] by {
        forall k | 0 <= k < |s[1..]| ensures s[1..][k] != s[0] {
          assert s[1..][k] == s[k + 1];
        }
      }
    }
  }

  /** Selecting and then deselecting a seat restores the selection exactly. */
  lemma ToggleTwice(selected: seq<string>, id: string)
    requires id !in selected
    ensures Toggled(Toggled(selected, id), id) == selected
  {
    FilterAppend(selected, [id], Except(id));
    assert Filter([id], Except(id)) == [];
    FilterLength(selected, Except(id));
    FilterIdentity(selected, Except(id));
  }

  lemma {:induction false} FilterIdentity(s: seq<string>, p: string -> bool)
    requires forall i :: 0 <= i < |s| ==> p(s[i])
    ensures Filter(s, p) == s
    decreases |s|
  {
    if s != [] {
      FilterIdentity(s[1..], p);
      assert [s[0]] + s[1..] == s;
    }
  }

  lemma {:induction false} DistinctOccursOnce(s: seq<string>, x: string)
    requires Distinct(s) && x in s
    ensures multiset(s)[x] == 1
    decreases |s|
  {
    assert s == [s[0]] + s[1..];
    assert multiset(s) == multiset{s[0]} + multiset(s[1..]);
    assert Distinct(s[1..]) by {
      forall i, j | 0 <= i < j < |s[1..]| ensures s[1..][i] != s[1..][j] {
        assert s[1..][i] == s[i + 1] && s[1..][j] == s[j + 1];
      }
    }
    if s[0] == x {
      assert x !in s[1..] by {
        forall k | 0 <= k < |s[1..]| ensures s[1..][k] != x {
          assert s[1..][k] == s[k + 1];
        }
      }
    } else {
      DistinctOccursOnce(s[1..], x);
    }
  }

  /** The emitted total moves by exactly the toggled seat's price. */
  lemma TotalAfterToggle(layout: Option<SeatLayout>, selected: seq<string>, id: string)
    requires Distinct(selected)
    ensures TotalOf(layout, Toggled(selected, id)) ==
            if id in selected then TotalOf(layout, selected) - PriceOf(layout, id)
            else TotalOf(layout, selected) + PriceOf(layout, id)
  {
    if id in selected {
      DistinctOccursOnce(selected, id);
      SumOfExceptSingle(selected, id, PriceIn(layout));
    } else {
      SumOfAppend(selected, [id], PriceIn(layout));
      assert SumOf([id], PriceIn(layout)) == PriceOf(layout, id) by {
        assert [id][..0] == [];
      }
    }
  }

  /** With non-negative prices the total is never negative. */
  lemma TotalNonNegative(layout: Option<SeatLayout>, selected: seq<string>)
    requires layout.Some? ==> forall i :: 0 <= i < |layout.value.seats| ==> layout.value.seats[i].price >= 0.0
    ensures TotalOf(layout, selected) >= 0.0
  {
    SumOfNonNegative(selected, PriceIn(layout));
  }

  // ---------------------------------------------------------------------------------
  // Availability updates
  // ---------------------------------------------------------------------------------

  /** One availability entry applied to a seat: booked unless available, and held unless the
      hold is not held or is reported as this session's. */
  function Merge(seat: ClientSeat, a: SeatAvailability, sessionId: string): ClientSeat
  {
    seat.(isBooked := !a.isAvailable, isHeld := a.isHeld && a.heldBy != Some(sessionId))
  }

  function ApplyOne(seats: seq<ClientSeat>, a: SeatAvailability, sessionId: string): seq<ClientSeat>
  {
    match FindSeat(seats, a.seatId)
    case None => seats
    case Some(i) => seats[i := Merge(seats[i], a, sessionId)]
  }

  /** The `forEach` over the availability entries, in order. */
  function ApplyAvailability(seats: seq<ClientSeat>, availability: seq<SeatAvailability>, sessionId: string)
    : (r: seq<ClientSeat>)
    ensures |r| == |seats|
    decreases |availability|
  {
    if availability == [] then seats
    else ApplyAvailability(ApplyOne(seats, availability[0], sessionId), availability[1..], sessionId)
  }

  /** Index of the first availability entry for `id`. */
  function FindEntry(availability: seq<SeatAvailability>, id: string): (r: Option<nat>)
    ensures r.None? <==> forall k :: 0 <= k < |availability| ==> availability[k].seatId != id
    ensures r.Some? ==> r.value < |availability| && availability[r.value].seatId == id
    decreases |availability|
  {
    if availability == [] then None
    else if availability[0].seatId == id then Some(0)
    else match FindEntry(availability[1..], id)
      case None => None
      case Some(k) => Some(k + 1)
  }

  /** What an availability update does to the seat at index `i`: only the first seat with a
      given id is updated, from the entry for that id; every other seat is left as it was. */
  function UpdatedSeat(seats: seq<ClientSeat>, availability: seq<SeatAvailability>, sessionId: string, i: nat)
    : ClientSeat
    requires i < |seats|
  {
    match FindEntry(availability, seats[i].id)
    case None => seats[i]
    case Some(k) => if FindSeat(seats, seats[i].id) == Some(i) then Merge(seats[i], availability[k], sessionId) else seats[i]
  }

  lemma ApplyOneKeepsIds(seats: seq<ClientSeat>, a: SeatAvailability, sessionId: string)
    ensures var r := ApplyOne(seats, a, sessionId);
            |r| == |seats| && forall i :: 0 <= i < |seats| ==> r[i].id == seats[i].id
  {
  }

  lemma FindSeatSameIds(seats: seq<ClientSeat>, seats': seq<ClientSeat>, id: string)
    requires |seats'| == |seats| && forall i :: 0 <= i < |seats| ==> seats'[i].id == seats[i].id
    ensures FindSeat(seats', id) == FindSeat(seats, id)
  {
    var a, b := FindSeat(seats', id), FindSeat(seats, id);
    if a.Some? && b.Some? {
      assert !(a.value < b.value) && !(b.value < a.value);
    }
  }

  /** With one availability entry per seat id, the merged layout is `UpdatedSeat` at every
      index: same length and ids, matched seats merged, everything else unchanged. */
  lemma {:induction false} ApplyAvailabilityEffect(seats: seq<ClientSeat>, availability: seq<SeatAvailability>,
                                                  sessionId: string)
    requires forall k, l :: 0 <= k < l < |availability| ==> availability[k].seatId != availability[l].seatId
    ensures var r := ApplyAvailability(seats, availability, sessionId);
            |r| == |seats| && forall i :: 0 <= i < |seats| ==> r[i] == UpdatedSeat(seats, availability, sessionId, i)
    decreases |availability|
  {
    if availability != [] {
      var a := availability[0];
      var rest := availability[1..];
      var step := ApplyOne(seats, a, sessionId);
      ApplyOneKeepsIds(seats, a, sessionId);
      ApplyAvailabilityEffect(step, rest, sessionId);
      forall i | 0 <= i < |seats|
        ensures UpdatedSeat(step, rest, sessionId, i) == UpdatedSeat(seats, availability, sessionId, i)
      {
        UpdatedSeatStep(seats, availability, sessionId, i);
      }
    }
  }

  /** Applying the first entry, then updating from the remaining ones, updates each seat as
      updating from all the entries does. */
  lemma UpdatedSeatStep(seats: seq<ClientSeat>, availability: seq<SeatAvailability>, sessionId: string, i: nat)
    requires availability != [] && i < |seats|
    requires forall k, l :: 0 <= k < l < |availability| ==> availability[k].seatId != availability[l].seatId
    ensures |ApplyOne(seats, availability[0], sessionId)| == |seats|
    ensures UpdatedSeat(ApplyOne(seats, availability[0], sessionId), availability[1..], sessionId, i) ==
            UpdatedSeat(seats, availability, sessionId, i)
  {
    var a := availability[0];
    var rest := availability[1..];
    var step := ApplyOne(seats, a, sessionId);
    ApplyOneKeepsIds(seats, a, sessionId);
    FindSeatSameIds(seats, step, seats[i].id);
    if seats[i].id == a.seatId {
      assert FindEntry(rest, seats[i].id).None? by {
        forall k | 0 <= k < |rest| ensures rest[k].seatId != seats[i].id {
          assert rest[k] == availability[k + 1];
        }
      }
    } else {
      match FindEntry(rest, seats[i].id)
      case None =>
      case Some(k) => assert FindEntry(availability, seats[i].id) == Some(k + 1);
    }
  }

  /** The server reports every hold as held by the constant "session", so for any other session
      id a seat this session holds still shows as held. */
  lemma OwnHoldsShowAsHeld(seat: ClientSeat, now: int, sessionId: string)
    requires sessionId != "session"
    ensures Merge(seat, AvailabilityOf(seat, now), sessionId).isHeld == seat.isHeld
    ensures Merge(seat, AvailabilityOf(seat, now), sessionId) == seat
  {
  }

  // ---------------------------------------------------------------------------------
  // Countdown and time formatting
  // ---------------------------------------------------------------------------------

  /** `Math.max(0, Math.floor((expiry - now) / 1000))`. */
  function RemainingSeconds(expiry: int, now: int): (s: nat)
    ensures s == 0 <==> expiry - now < 1000
    ensures s > 0 ==> s * 1000 <= expiry - now < (s + 1) * 1000
  {
    var q := (expiry - now) / 1000;
    if q < 0 then 0 else q
  }

  /** `padStart(2, '0')`. */
  function PadStart2(s: string): (r: string)
    ensures |r| == if |s| >= 2 then |s| else 2
  {
    if |s| >= 2 then s else if |s| == 1 then "0" + s else "00"
  }

  /** `formatTime`: whole minutes (floored), a colon, and the remainder (with TypeScript's sign
      rule) padded to two characters. */
  function FormatTime(seconds: int): string
  {
    IntToString(seconds / 60) + ":" + PadStart2(IntToString(JsRem(seconds, 60)))
  }

  lemma TwoDigitString(n: nat)
    requires n < 100
    ensures n < 10 ==> NatToString(n) == [DigitChar(n)]
    ensures 10 <= n ==> |NatToString(n)| == 2
  {
  }

  /** The seconds part: two digits whose value is the remainder. */
  lemma PaddedSeconds(ss: nat)
    requires ss < 60
    ensures var pad := PadStart2(NatToString(ss));
            |pad| == 2 && AllDigits(pad) && DigitsValue(pad) == ss
  {
    TwoDigitString(ss);
    var pad := PadStart2(NatToString(ss));
    if ss < 10 {
      assert pad == ['0', DigitChar(ss)];
      assert pad[..1] == ['0'];
      assert DigitsValue(['0']) == 0 by {
        assert ['0'][..0] == [];
      }
    } else {
      DigitsValueOfNatToString(ss);
    }
  }

  /** `t` reads "m:ss": digits, a colon and two digits, with m * 60 + ss == seconds and ss < 60. */
  predicate ReadsAsMinutesSeconds(t: string, seconds: nat)
  {
    var k := |t| - 3;
    && 1 <= k && t[k] == ':'
    && AllDigits(t[..k]) && AllDigits(t[k + 1..])
    && DigitsValue(t[k + 1..]) < 60
    && DigitsValue(t[..k]) * 60 + DigitsValue(t[k + 1..]) == seconds
  }

  /** For a non-negative count, the text is "m:ss" with exactly two digits after the colon, and
      reading it back gives the count. */
  lemma FormatTimeRoundTrip(seconds: nat)
    ensures ReadsAsMinutesSeconds(FormatTime(seconds), seconds)
  {
    var m, ss := seconds / 60, seconds % 60;
    assert m * 60 + ss == seconds;
    assert JsRem(seconds, 60) == ss;
    var mins := NatToString(m);
    var pad := PadStart2(NatToString(ss));
    assert FormatTime(seconds) == mins + ":" + pad;
    PaddedSeconds(ss);
    DigitsValueOfNatToString(m);
    JoinedMinutesSeconds(mins, pad, m, ss, seconds);
  }

  lemma JoinedMinutesSeconds(mins: string, pad: string, m: nat, ss: nat, seconds: nat)
    requires 1 <= |mins| && AllDigits(mins) && DigitsValue(mins) == m
    requires |pad| == 2 && AllDigits(pad) && DigitsValue(pad) == ss < 60
    requires m * 60 + ss == seconds
    ensures ReadsAsMinutesSeconds(mins + ":" + pad, seconds)
  {
    var t := mins + ":" + pad;
    assert t[..|mins|] == mins;
    assert t[|mins| + 1..] == pad;
  }

  /** The component's state. */
  class SeatSelectorComponent {
    var showtimeId: string
    var seatLayout: Option<SeatLayout>
    var selectedSeats: seq<string>
    var holdExpiry: Option<int>
    var timeRemaining: int

    constructor (showtimeId: string)
      ensures this.showtimeId == showtimeId
      ensures seatLayout.None? && selectedSeats == [] && holdExpiry.None? && timeRemaining == 0
    {
      this.showtimeId := showtimeId;
      seatLayout := None;
      selectedSeats := [];
      holdExpiry := None;
      timeRemaining := 0;
    }

    /** The subscription in `loadSeatLayout` stores the layout it receives. */
    method LoadSeatLayout(layout: SeatLayout)
      modifies this`seatLayout
      ensures seatLayout == Some(layout)
    {
      seatLayout := Some(layout);
    }

    /** `updateSeatAvailability`: nothing without a layout; otherwise each entry is merged into
        the first seat with its id. */
    method UpdateSeatAvailability(availability: seq<SeatAvailability>, sessionId: string)
      modifies this`seatLayout
      ensures old(seatLayout).None? ==> seatLayout.None?
      ensures old(seatLayout).Some? ==>
                seatLayout == Some(old(seatLayout).value.(seats := ApplyAvailability(old(seatLayout).value.seats, availability, sessionId)))
    {
      if seatLayout.None? {
        return;
      }
      var layout := seatLayout.value;
      var seats := layout.seats;
      var i := 0;
      while i < |availability|
        invariant 0 <= i <= |availability|
        invariant ApplyAvailability(seats, availability[i..], sessionId) == ApplyAvailability(layout.seats, availability, sessionId)
      {
        var avail := availability[i];
        assert availability[i..][1..] == availability[i + 1..];
        var found := FindSeat(seats, avail.seatId);
        if found.Some? {
          var k := found.value;
          seats := seats[k := seats[k].(isBooked := !avail.isAvailable,
                                        isHeld := avail.isHeld && avail.heldBy != Some(sessionId))];
        }
        i := i + 1;
      }
      seatLayout := Some(layout.(seats := seats));
    }

    /** `getSeatsForRow`: the layout's seats in that row, in layout order; none without a layout. */
    function GetSeatsForRow(row: string): (r: seq<ClientSeat>)
      reads this
      ensures seatLayout.None? ==> r == []
      ensures seatLayout.Some? ==>
                && SubsequenceOf(r, seatLayout.value.seats)
                && forall s :: s in r <==> s in seatLayout.value.seats && s.row == row
    {
      if seatLayout.None? then [] else Filter(seatLayout.value.seats, (s: ClientSeat) => s.row == row)
    }

    function IsSelected(seatId: string): bool
      reads this
    {
      seatId in selectedSeats
    }

    function CalculateTotal(): real
      reads this
    {
      TotalOf(seatLayout, selectedSeats)
    }

    /** `toggleSeat`: a booked seat changes nothing and emits nothing; otherwise the selection
        is toggled and the new selection and total are emitted. Held seats are not refused. */
    method ToggleSeat(seat: ClientSeat) returns (emitted: Option<Emission>)
      modifies this`selectedSeats
      ensures seat.isBooked ==> emitted.None? && selectedSeats == old(selectedSeats)
      ensures !seat.isBooked ==>
                && selectedSeats == Toggled(old(selectedSeats), seat.id)
                && emitted == Some(Emission(selectedSeats, TotalOf(seatLayout, selectedSeats)))
    {
      if seat.isBooked {
        return None;
      }
      if IsSelected(seat.id) {
        selectedSeats := Filter(selectedSeats, Except(seat.id));
      } else {
        selectedSeats := selectedSeats + [seat.id];
      }
      emitted := Some(Emission(selectedSeats, CalculateTotal()));
    }

    /** One tick of the hold timer at time `now`. With an expiry, the remaining seconds are
        recomputed; when they reach 0 the selection and the expiry are cleared and an empty
        selection with total 0 is emitted. */
    method Tick(now: int) returns (emitted: Option<Emission>)
      modifies this`timeRemaining, this`selectedSeats, this`holdExpiry
      ensures old(holdExpiry).None? ==>
                emitted.None? && timeRemaining == old(timeRemaining) &&
                selectedSeats == old(selectedSeats) && holdExpiry.None?
      ensures old(holdExpiry).Some? ==>
                && timeRemaining == RemainingSeconds(old(holdExpiry).value, now)
                && (timeRemaining == 0 ==> selectedSeats == [] && holdExpiry.None? && emitted == Some(Emission([], 0.0)))
                && (timeRemaining > 0 ==> selectedSeats == old(selectedSeats) && holdExpiry == old(holdExpiry) && emitted.None?)
    {
      emitted := None;
      if holdExpiry.Some? {
        var q := (holdExpiry.value - now) / 1000;
        timeRemaining := if q < 0 then 0 else q;
        if timeRemaining == 0 {
          selectedSeats := [];
          holdExpiry := None;
          emitted := Some(Emission([], 0.0));
        }
      }
    }

    /** `extendHold`: with a selection, sends the extension request; when the server accepts it,
        the expiry becomes ten minutes after the reply time. */
    method ExtendHold(now: nat, accepted: bool, replyTime: int) returns (request: Option<HoldRequest>)
      modifies this`holdExpiry
      ensures selectedSeats == [] ==> request.None? && holdExpiry == old(holdExpiry)
      ensures selectedSeats != [] ==>
                && request == Some(ExtendSeatHold(showtimeId, selectedSeats, now))
                && holdExpiry == if accepted then Some(replyTime + HoldMillis) else old(holdExpiry)
    {
      request := None;
      if |selectedSeats| > 0 {
        request := Some(ExtendSeatHold(showtimeId, selectedSeats, now));
        if accepted {
          holdExpiry := Some(replyTime + 10 * 60 * 1000);
        }
      }
    }
  }
}
