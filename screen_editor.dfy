/** The screen-layout editor of the admin pages. The shipped component is an empty placeholder
    (Frontend/src/app/admin/pages/screens/screens.component.ts); this module models the
    editor its unit tests describe: a grid of labelled seats, seat categories with prices,
    quick assignment of a category to a range of rows, and validation before saving.
    Values the tests do not pin (a new category's id, price and colour; the text of success
    alerts) are parameters or left abstract. */
module ScreenEditor {
  import opened Collections
  import opened Text
  import SeatLayoutPanel

  datatype SeatStatus = Available | Booked | Disabled

  datatype EditorSeat = EditorSeat(seatId: string, seatLabel: string, row: nat, col: nat,
                                   categoryId: Option<string>, status: SeatStatus)

  datatype Category = Category(id: string, name: string, price: real, color: string)

  /** One of the edits `updateCategory` applies to a field. */
  datatype CategoryEdit = SetName(name: string) | SetPrice(price: real) | SetColor(color: string)

  /** The alerts the editor raises. */
  datatype EditorAlert = Success | Error(message: string)

  datatype SaveMethod = Post | Put

  /** The body of a save request and where it goes. */
  datatype SaveRequest = SaveRequest(verb: SaveMethod, screenId: string, name: string, theatreId: string,
                                     rows: int, seatsPerRow: int, categories: seq<Category>,
                                     seatMap: seq<EditorSeat>)

  const MaxRows: nat := SeatLayoutPanel.MaxRows
  const NewScreenId := "new"
  const NewCategoryName := "New Category"
  const SelectCategoryMessage := "Please select a category"
  const RowRangeMessage := "From row must be less than or equal to To row"
  const LastCategoryMessage := "At least one category is required"
  const FixErrorsMessage := "Please fix validation errors"
  const TheatreMessage := "Please select a theatre"
  const NameMessage := "Screen name is required"
  const RowsMessage := "Rows must be between 1 and 26"
  const SeatsMessage := "Seats per row must be between 1 and 50"
  const PriceMessage := "All category prices must be greater than 0"

  /** `getRowLabel`: 'A' for 0 up to 'Z' for 25, the same label the shared seat grid uses. */
  function GetRowLabel(index: nat): (r: string)
    requires index < MaxRows
    ensures |r| == 1 && r[0] as int == 65 + index
  {
    SeatLayoutPanel.RowLabel(index)
  }

  /** The seat in row `r`, column `c` (both from 0) of a freshly generated map, labelled by
      row letter and 1-based column. */
  function FreshSeat(r: nat, c: nat): (s: EditorSeat)
    requires r < MaxRows
    ensures |s.seatLabel| >= 2 && s.seatLabel == s.seatId && s.seatLabel[0] as int == 65 + r && s.seatLabel[1..] == NatToString(c + 1)
    ensures s.row == r && s.col == c && s.categoryId.None? && s.status == Available
  {
    var seatLabel := GetRowLabel(r) + NatToString(c + 1);
    EditorSeat(seatLabel, seatLabel, r, c, None, Available)
  }

  function EditorRow(r: nat, seatsPerRow: int): seq<EditorSeat>
    requires r < MaxRows
  {
    seq(if seatsPerRow < 0 then 0 else seatsPerRow, c requires 0 <= c => FreshSeat(r, c))
  }

  /** `generateSeatMap`: rows × seatsPerRow seats, row after row. */
  function EditorGrid(rows: int, seatsPerRow: int): seq<EditorSeat>
    requires rows <= MaxRows
    decreases rows
  {
    if rows <= 0 then [] else EditorGrid(rows - 1, seatsPerRow) + EditorRow(rows - 1, seatsPerRow)
  }

  function Clamp(n: int): nat
  {
    if n < 0 then 0 else n
  }

  lemma MulNext(k: nat, a: nat)
    ensures (k + 1) * a == k * a + a
  {
  }

  /** rows × seatsPerRow seats: 5 rows of 10 give 50, 8 rows of 12 give 96. */
  lemma {:induction false} EditorGridSize(rows: int, seatsPerRow: int)
    requires rows <= MaxRows
    ensures |EditorGrid(rows, seatsPerRow)| == Clamp(rows) * Clamp(seatsPerRow)
    decreases rows
  {
    if rows > 0 {
      var k, a := rows - 1, Clamp(seatsPerRow);
      EditorGridSize(k, seatsPerRow);
      assert |EditorGrid(rows, seatsPerRow)| == k * a + a;
      MulNext(k, a);
    }
  }

  /** Seat `r * seatsPerRow + c` of the map is row `r`, column `c`: with 5 rows of 10,
      index 0 is "A1" and index 10 is "B1". */
  lemma {:induction false} EditorGridAt(rows: nat, seatsPerRow: nat, r: nat, c: nat)
    requires rows <= MaxRows && r < rows && c < seatsPerRow
    ensures r * seatsPerRow + c < |EditorGrid(rows, seatsPerRow)|
    ensures EditorGrid(rows, seatsPerRow)[r * seatsPerRow + c] == FreshSeat(r, c)
  {
    var init, last := EditorGrid(rows - 1, seatsPerRow), EditorRow(rows - 1, seatsPerRow);
    assert EditorGrid(rows, seatsPerRow) == init + last;
    if r < rows - 1 {
      EditorGridAt(rows - 1, seatsPerRow, r, c);
    } else {
      EditorGridSize(rows - 1, seatsPerRow);
      assert |init| == r * seatsPerRow;
    }
  }

  /** With 5 rows of 10: 50 seats, index 0 is "A1" and index 10 is "B1". */
  lemma GridExample()
    ensures |EditorGrid(5, 10)| == 50
    ensures EditorGrid(5, 10)[0].seatLabel == "A1" && EditorGrid(5, 10)[10].seatLabel == "B1"
  {
    EditorGridSize(5, 10);
    EditorGridAt(5, 10, 0, 0);
    EditorGridAt(5, 10, 1, 0);
    var a, b := FreshSeat(0, 0).seatLabel, FreshSeat(1, 0).seatLabel;
    assert NatToString(1) == "1";
    assert a == [a[0]] + a[1..];
    assert b == [b[0]] + b[1..];
  }

  /** `getRowSeats`: the seats of row `r`, in map order. */
  function RowSeats(seatMap: seq<EditorSeat>, r: int): seq<EditorSeat>
  {
    if seatMap == [] then []
    else (if seatMap[0].row == r then [seatMap[0]] else []) + RowSeats(seatMap[1..], r)
  }

  /** A seat is listed for row `r` exactly when it is in the map and in that row. */
  lemma {:induction false} RowSeatsMeaning(seatMap: seq<EditorSeat>, r: int, x: EditorSeat)
    ensures x in RowSeats(seatMap, r) <==> x in seatMap && x.row == r
  {
    if seatMap != [] {
      RowSeatsMeaning(seatMap[1..], r, x);
      assert seatMap == [seatMap[0]] + seatMap[1..];
    }
  }

  lemma {:induction false} RowSeatsAppend(a: seq<EditorSeat>, b: seq<EditorSeat>, r: int)
    ensures RowSeats(a + b, r) == RowSeats(a, r) + RowSeats(b, r)
  {
    if a == [] {
      assert a + b == b;
    } else {
      var c := a + b;
      assert c[0] == a[0] && c[1..] == a[1..] + b;
      var head := if a[0].row == r then [a[0]] else [];
      assert RowSeats(c, r) == head + RowSeats(a[1..] + b, r);
      RowSeatsAppend(a[1..], b, r);
    }
  }

  lemma {:induction false} RowSeatsOfRow(s: seq<EditorSeat>, k: int, r: int)
    requires forall i :: 0 <= i < |s| ==> s[i].row == k
    ensures RowSeats(s, r) == if k == r then s else []
  {
    if s != [] {
      RowSeatsOfRow(s[1..], k, r);
      assert [s[0]] + s[1..] == s;
    }
  }

  /** In a generated map, row `r` is exactly that row's fresh seats, in column order. */
  lemma {:induction false} RowSeatsOfGrid(rows: int, seatsPerRow: int, r: nat)
    requires rows <= MaxRows && r < MaxRows
    ensures RowSeats(EditorGrid(rows, seatsPerRow), r) == if r < rows then EditorRow(r, seatsPerRow) else []
    decreases rows
  {
    if rows > 0 {
      var init, last := EditorGrid(rows - 1, seatsPerRow), EditorRow(rows - 1, seatsPerRow);
      RowSeatsOfGrid(rows - 1, seatsPerRow, r);
      RowSeatsOfRow(last, rows - 1, r);
      RowSeatsAppend(init, last, r);
      assert EditorGrid(rows, seatsPerRow) == init + last;
      if r < rows - 1 {
        assert RowSeats(init, r) + [] == RowSeats(init, r);
      } else if r == rows - 1 {
        assert [] + last == last;
      } else {
        assert RowSeats(init, r) + RowSeats(last, r) == [];
      }
    }
  }

  /** With 3 rows of 5, row 1 has 5 seats and its first is "B1". */
  lemma RowSeatsExample()
    ensures var rs := RowSeats(EditorGrid(3, 5), 1);
            |rs| == 5 && rs[0].seatLabel == "B1"
  {
    RowSeatsOfGrid(3, 5, 1);
    var seatLabel := RowSeats(EditorGrid(3, 5), 1)[0].seatLabel;
    assert seatLabel[1..] == NatToString(1) == "1";
    assert seatLabel == [seatLabel[0]] + seatLabel[1..];
  }

  /** The seat after a quick assignment of `categoryId` over rows `from..to`. */
  function Assigned(seat: EditorSeat, categoryId: string, from: int, to: int): EditorSeat
  {
    if from <= seat.row <= to && seat.status != Booked then seat.(categoryId := Some(categoryId)) else seat
  }

  function QuickAssigned(seatMap: seq<EditorSeat>, categoryId: string, from: int, to: int): (r: seq<EditorSeat>)
    ensures |r| == |seatMap|
  {
    seq(|seatMap|, i requires 0 <= i < |seatMap| => Assigned(seatMap[i], categoryId, from, to))
  }

  lemma QuickAssignedAppend(a: seq<EditorSeat>, b: seq<EditorSeat>, categoryId: string, from: int, to: int)
    ensures QuickAssigned(a + b, categoryId, from, to) == QuickAssigned(a, categoryId, from, to) + QuickAssigned(b, categoryId, from, to)
  {
  }

  /** Number of seats that carry `categoryId`. */
  function CategoryCount(seatMap: seq<EditorSeat>, categoryId: string): nat
  {
    if seatMap == [] then 0
    else (if seatMap[0].categoryId == Some(categoryId) then 1 else 0) + CategoryCount(seatMap[1..], categoryId)
  }

  lemma {:induction false} CategoryCountAppend(a: seq<EditorSeat>, b: seq<EditorSeat>, categoryId: string)
    ensures CategoryCount(a + b, categoryId) == CategoryCount(a, categoryId) + CategoryCount(b, categoryId)
  {
    if a == [] {
      assert a + b == b;
    } else {
      assert (a + b)[1..] == a[1..] + b;
      CategoryCountAppend(a[1..], b, categoryId);
    }
  }

  lemma {:induction false} CategoryCountUniform(s: seq<EditorSeat>, categoryId: string, all: bool)
    requires forall i :: 0 <= i < |s| ==> (s[i].categoryId == Some(categoryId)) == all
    ensures CategoryCount(s, categoryId) == if all then |s| else 0
  {
    if s != [] {
      CategoryCountUniform(s[1..], categoryId, all);
    }
  }

  /** Rows below `rows` that lie in `from..to`. */
  function RowsInRange(rows: int, from: int, to: int): nat
    decreases rows
  {
    if rows <= 0 then 0 else RowsInRange(rows - 1, from, to) + (if from <= rows - 1 <= to then 1 else 0)
  }

  /** The count in closed form: the overlap of `from..to` with `0..rows-1`. */
  lemma {:induction false} RowsInRangeOverlap(rows: int, from: int, to: int)
    ensures RowsInRange(rows, from, to) ==
            if rows <= 0 then 0 else
              var hi := if to < rows - 1 then to else rows - 1;
              var lo := if from < 0 then 0 else from;
              if hi < lo then 0 else hi - lo + 1
    decreases rows
  {
    if rows > 0 {
      RowsInRangeOverlap(rows - 1, from, to);
    }
  }

  lemma QuickAssignRowCount(k: nat, seatsPerRow: nat, categoryId: string, from: int, to: int)
    requires k < MaxRows
    ensures CategoryCount(QuickAssigned(EditorRow(k, seatsPerRow), categoryId, from, to), categoryId)
            == if from <= k <= to then seatsPerRow else 0
  {
    CategoryCountUniform(QuickAssigned(EditorRow(k, seatsPerRow), categoryId, from, to), categoryId, from <= k <= to);
  }

  lemma QuickAssignedCountAppend(a: seq<EditorSeat>, b: seq<EditorSeat>, categoryId: string, from: int, to: int)
    ensures CategoryCount(QuickAssigned(a + b, categoryId, from, to), categoryId)
            == CategoryCount(QuickAssigned(a, categoryId, from, to), categoryId)
               + CategoryCount(QuickAssigned(b, categoryId, from, to), categoryId)
  {
    QuickAssignedAppend(a, b, categoryId, from, to);
    CategoryCountAppend(QuickAssigned(a, categoryId, from, to), QuickAssigned(b, categoryId, from, to), categoryId);
  }

  lemma MulStep(a: nat, k: nat, step: bool)
    ensures a * (k + if step then 1 else 0) == a * k + if step then a else 0
  {
  }

  /** One more generated row adds its seats to the count exactly when it is in range. */
  lemma QuickAssignGridStep(rows: int, seatsPerRow: nat, categoryId: string, from: int, to: int)
    requires 0 < rows <= MaxRows
    ensures CategoryCount(QuickAssigned(EditorGrid(rows, seatsPerRow), categoryId, from, to), categoryId)
            == CategoryCount(QuickAssigned(EditorGrid(rows - 1, seatsPerRow), categoryId, from, to), categoryId)
               + if from <= rows - 1 <= to then seatsPerRow else 0
  {
    var init, last := EditorGrid(rows - 1, seatsPerRow), EditorRow(rows - 1, seatsPerRow);
    assert EditorGrid(rows, seatsPerRow) == init + last;
    QuickAssignedCountAppend(init, last, categoryId, from, to);
    QuickAssignRowCount(rows - 1, seatsPerRow, categoryId, from, to);
  }

  /** On a freshly generated map, a quick assignment gives the category to every seat of the
      rows in range and to no other seat. */
  lemma {:induction false} QuickAssignCount(rows: int, seatsPerRow: nat, categoryId: string, from: int, to: int)
    requires rows <= MaxRows
    ensures CategoryCount(QuickAssigned(EditorGrid(rows, seatsPerRow), categoryId, from, to), categoryId)
            == seatsPerRow * RowsInRange(rows, from, to)
    decreases rows
  {
    if rows <= 0 {
      assert EditorGrid(rows, seatsPerRow) == [];
    } else {
      var step := from <= rows - 1 <= to;
      var k := RowsInRange(rows - 1, from, to);
      assert RowsInRange(rows, from, to) == k + if step then 1 else 0;
      QuickAssignCount(rows - 1, seatsPerRow, categoryId, from, to);
      QuickAssignGridStep(rows, seatsPerRow, categoryId, from, to);
      MulStep(seatsPerRow, k, step);
    }
  }

  /** Rows 0..2 of 5 rows of 10 give 30 seats. */
  lemma QuickAssignExample(categoryId: string)
    ensures CategoryCount(QuickAssigned(EditorGrid(5, 10), categoryId, 0, 2), categoryId) == 30
  {
    QuickAssignCount(5, 10, categoryId, 0, 2);
    RowsInRangeOverlap(5, 0, 2);
  }

  /** Booked seats keep their category; every other seat in range gets it; seats outside the
      range are untouched. */
  lemma QuickAssignEffect(seatMap: seq<EditorSeat>, categoryId: string, from: int, to: int, i: nat)
    requires i < |seatMap|
    ensures var s, s' := seatMap[i], QuickAssigned(seatMap, categoryId, from, to)[i];
            && s'.seatId == s.seatId && s'.status == s.status && s'.row == s.row
            && (s.status == Booked || !(from <= s.row <= to) ==> s' == s)
            && (s.status != Booked && from <= s.row <= to ==> s'.categoryId == Some(categoryId))
  {
  }

  /** The map after `assignCategory` on an unbooked seat. */
  function AssignedTo(seatMap: seq<EditorSeat>, seatId: string, categoryId: string): (r: seq<EditorSeat>)
    ensures |r| == |seatMap|
    ensures forall i :: 0 <= i < |r| ==>
              r[i] == if seatMap[i].seatId == seatId then seatMap[i].(categoryId := Some(categoryId)) else seatMap[i]
  {
    seq(|seatMap|, i requires 0 <= i < |seatMap| =>
      if seatMap[i].seatId == seatId then seatMap[i].(categoryId := Some(categoryId)) else seatMap[i])
  }

  /** `Available` and `Disabled` swap; a booked seat stays booked. */
  function ToggledStatus(status: SeatStatus): SeatStatus
  {
    match status
    case Available => Disabled
    case Disabled => Available
    case Booked => Booked
  }

  lemma ToggledStatusTwice(status: SeatStatus)
    ensures ToggledStatus(ToggledStatus(status)) == status
  {
  }

  function WithStatusToggled(seatMap: seq<EditorSeat>, seatId: string): (r: seq<EditorSeat>)
    ensures |r| == |seatMap|
    ensures forall i :: 0 <= i < |r| ==>
              r[i] == if seatMap[i].seatId == seatId then seatMap[i].(status := ToggledStatus(seatMap[i].status)) else seatMap[i]
  {
    seq(|seatMap|, i requires 0 <= i < |seatMap| =>
      if seatMap[i].seatId == seatId then seatMap[i].(status := ToggledStatus(seatMap[i].status)) else seatMap[i])
  }

  function Edited(c: Category, edit: CategoryEdit): Category
  {
    match edit
    case SetName(n) => c.(name := n)
    case SetPrice(p) => c.(price := p)
    case SetColor(k) => c.(color := k)
  }

  function WithCategoryEdited(categories: seq<Category>, id: string, edit: CategoryEdit): (r: seq<Category>)
    ensures |r| == |categories|
    ensures forall i :: 0 <= i < |r| ==> r[i] == if categories[i].id == id then Edited(categories[i], edit) else categories[i]
  {
    seq(|categories|, i requires 0 <= i < |categories| =>
      if categories[i].id == id then Edited(categories[i], edit) else categories[i])
  }

  function IdIsNot(id: string): Category -> bool
  {
    (c: Category) => c.id != id
  }

  /** The map after deleting a category: seats that used it have no category. */
  function Unassigned(seatMap: seq<EditorSeat>, id: string): (r: seq<EditorSeat>)
    ensures |r| == |seatMap|
    ensures forall i :: 0 <= i < |r| ==>
              r[i] == if seatMap[i].categoryId == Some(id) then seatMap[i].(categoryId := None) else seatMap[i]
  {
    seq(|seatMap|, i requires 0 <= i < |seatMap| =>
      if seatMap[i].categoryId == Some(id) then seatMap[i].(categoryId := None) else seatMap[i])
  }

  /** Every seat's category, when it has one, is a listed category. */
  ghost predicate CategoriesResolved(seatMap: seq<EditorSeat>, categories: seq<Category>)
  {
    forall i :: 0 <= i < |seatMap| && seatMap[i].categoryId.Some? ==>
      exists c :: c in categories && c.id == seatMap[i].categoryId.value
  }

  /** Deleting a category keeps every seat's category resolvable, and no seat refers to it. */
  lemma DeleteKeepsResolved(seatMap: seq<EditorSeat>, categories: seq<Category>, id: string)
    requires CategoriesResolved(seatMap, categories)
    ensures CategoriesResolved(Unassigned(seatMap, id), Filter(categories, IdIsNot(id)))
    ensures forall i :: 0 <= i < |seatMap| ==> Unassigned(seatMap, id)[i].categoryId != Some(id)
  {
    var seats', cats' := Unassigned(seatMap, id), Filter(categories, IdIsNot(id));
    forall i | 0 <= i < |seats'| && seats'[i].categoryId.Some?
      ensures exists c :: c in cats' && c.id == seats'[i].categoryId.value
    {
      var c :| c in categories && c.id == seatMap[i].categoryId.value;
      assert c in cats';
    }
  }

  /** The rules `validate` checks, in order. */
  datatype ValidationError = NoTheatre | NoName | RowsOutOfRange | SeatsOutOfRange | NoCategory | PriceNotPositive

  /** The message shown for each rule. */
  function Message(e: ValidationError): string
  {
    match e
    case NoTheatre => TheatreMessage
    case NoName => NameMessage
    case RowsOutOfRange => RowsMessage
    case SeatsOutOfRange => SeatsMessage
    case NoCategory => LastCategoryMessage
    case PriceNotPositive => PriceMessage
  }

  /** What `validate` looks at. */
  datatype ScreenDraft = ScreenDraft(theatreId: string, name: string, rows: int, seatsPerRow: int,
                                     categories: seq<Category>)

  /** The rules in the order `validate` checks them. */
  const Rules: seq<ValidationError> :=
    [NoTheatre, NoName, RowsOutOfRange, SeatsOutOfRange, NoCategory, PriceNotPositive]

  predicate Broken(e: ValidationError, d: ScreenDraft)
  {
    match e
    case NoTheatre => d.theatreId == ""
    case NoName => d.name == ""
    case RowsOutOfRange => d.rows < 1 || d.rows > 26
    case SeatsOutOfRange => d.seatsPerRow < 1 || d.seatsPerRow > 50
    case NoCategory => |d.categories| == 0
    case PriceNotPositive => exists i :: 0 <= i < |d.categories| && d.categories[i].price <= 0.0
  }

  function BrokenIn(d: ScreenDraft): ValidationError -> bool
  {
    (e: ValidationError) => Broken(e, d)
  }

  /** The broken rules, in order. */
  function ValidationErrors(d: ScreenDraft): seq<ValidationError>
  {
    Filter(Rules, BrokenIn(d))
  }

  ghost predicate Publishable(d: ScreenDraft)
  {
    && d.theatreId != "" && d.name != ""
    && 1 <= d.rows <= 26 && 1 <= d.seatsPerRow <= 50
    && |d.categories| > 0
    && forall i :: 0 <= i < |d.categories| ==> d.categories[i].price > 0.0
  }

  lemma AllRulesChecked(e: ValidationError)
    ensures e in Rules
  {
    match e
    case NoTheatre => assert Rules[0] == e;
    case NoName => assert Rules[1] == e;
    case RowsOutOfRange => assert Rules[2] == e;
    case SeatsOutOfRange => assert Rules[3] == e;
    case NoCategory => assert Rules[4] == e;
    case PriceNotPositive => assert Rules[5] == e;
  }

  /** Each rule is reported exactly when it is broken. */
  lemma ValidationReports(d: ScreenDraft, e: ValidationError)
    ensures e in ValidationErrors(d) <==> Broken(e, d)
  {
    AllRulesChecked(e);
  }

  /** The screen validates exactly when it is publishable. */
  lemma ValidationMeaning(d: ScreenDraft)
    ensures ValidationErrors(d) == [] <==> Publishable(d)
  {
    var errs := ValidationErrors(d);
    if errs != [] {
      ValidationReports(d, errs[0]);
    }
    if !Publishable(d) {
      var e :=
        if d.theatreId == "" then NoTheatre
        else if d.name == "" then NoName
        else if d.rows < 1 || d.rows > 26 then RowsOutOfRange
        else if d.seatsPerRow < 1 || d.seatsPerRow > 50 then SeatsOutOfRange
        else if |d.categories| == 0 then NoCategory
        else PriceNotPositive;
      ValidationReports(d, e);
    }
  }

  /** `getSeatPrice`: the price of the first listed category carrying the seat's category
      id, and 0 when the seat has no category or no listed category carries it. */
  function SeatPrice(seat: EditorSeat, categories: seq<Category>): (p: real)
    ensures seat.categoryId.None? ==> p == 0.0
    ensures seat.categoryId.Some? && p != 0.0 ==> exists c :: c in categories && c.id == seat.categoryId.value && c.price == p
    ensures forall k :: 0 <= k < |categories| && seat.categoryId == Some(categories[k].id) &&
                        (forall j :: 0 <= j < k ==> categories[j].id != categories[k].id) ==>
              p == categories[k].price
    ensures seat.categoryId.Some? && (forall j :: 0 <= j < |categories| ==> categories[j].id != seat.categoryId.value) ==>
              p == 0.0
    decreases |categories|
  {
    if seat.categoryId.None? || categories == [] then 0.0
    else if categories[0].id == seat.categoryId.value then categories[0].price
    else SeatPrice(seat, categories[1..])
  }

  /** The two cases the editor's tests pin: a seat of category `c1` priced 250, and a seat
      without a category. */
  lemma SeatPriceExamples()
    ensures SeatPrice(EditorSeat("A1", "A1", 0, 0, Some("c1"), Available), [Category("c1", "Premium", 250.0, "#8B5CF6")]) == 250.0
    ensures SeatPrice(EditorSeat("A1", "A1", 0, 0, None, Available), [Category("c1", "Premium", 250.0, "#8B5CF6")]) == 0.0
  {
  }

  function IsEnabled(s: EditorSeat): bool
  {
    s.status != Disabled
  }

  /** `totalSeats`: the seats that are not disabled. */
  function TotalSeats(seatMap: seq<EditorSeat>): (n: nat)
    ensures n <= |seatMap|
    ensures n == |seatMap| <==> forall i :: 0 <= i < |seatMap| ==> seatMap[i].status != Disabled
  {
    FilterLength(seatMap, IsEnabled);
    CountWhere(seatMap, IsEnabled)
  }

  /** A generated map has no disabled seat, so 8 rows of 12 count 96 seats. */
  lemma FreshGridTotal(rows: int, seatsPerRow: int)
    requires 0 <= rows <= MaxRows && seatsPerRow >= 0
    ensures TotalSeats(EditorGrid(rows, seatsPerRow)) == rows * seatsPerRow
  {
    var g := EditorGrid(rows, seatsPerRow);
    EditorGridSize(rows, seatsPerRow);
    forall i | 0 <= i < |g| ensures g[i].status != Disabled {
      FreshGridAvailable(rows, seatsPerRow, i);
    }
  }

  lemma {:induction false} FreshGridAvailable(rows: int, seatsPerRow: int, i: nat)
    requires rows <= MaxRows && i < |EditorGrid(rows, seatsPerRow)|
    ensures EditorGrid(rows, seatsPerRow)[i].status == Available
    ensures EditorGrid(rows, seatsPerRow)[i].categoryId.None?
    decreases rows
  {
    var init := EditorGrid(rows - 1, seatsPerRow);
    if i < |init| {
      FreshGridAvailable(rows - 1, seatsPerRow, i);
    }
  }

  /** The configuration the server returns for one screen. */
  datatype ScreenConfig = ScreenConfig(id: string, name: string, theatreId: string, rows: int, seatsPerRow: int,
                                       totalSeats: int, categories: seq<Category>, seatMap: seq<EditorSeat>)

  /** The editor's state. */
  class ScreenEditorComponent {
    var selectedTheatreId: string
    var selectedScreenId: string
    var screenName: string
    var rows: int
    var seatsPerRow: int
    var seatMap: seq<EditorSeat>
    var categories: seq<Category>
    var hasUnsavedChanges: bool
    var validationErrors: seq<ValidationError>
    var quickAssignCategory: string
    var quickAssignFromRow: int
    var quickAssignToRow: int

    constructor ()
      ensures selectedTheatreId == "" && selectedScreenId == "" && screenName == ""
      ensures seatMap == [] && categories == [] && !hasUnsavedChanges && validationErrors == []
      ensures quickAssignCategory == ""
    {
      selectedTheatreId := "";
      selectedScreenId := "";
      screenName := "";
      rows := 0;
      seatsPerRow := 0;
      seatMap := [];
      categories := [];
      hasUnsavedChanges := false;
      validationErrors := [];
      quickAssignCategory := "";
      quickAssignFromRow := 0;
      quickAssignToRow := 0;
    }

    /** `onTheatreChange`: the screen choice and the seat map are reset. */
    method OnTheatreChange()
      modifies this`selectedScreenId, this`seatMap
      ensures selectedScreenId == "" && seatMap == []
    {
      selectedScreenId := "";
      seatMap := [];
    }

    /** `createNewScreen`: the name proposes the next screen number. */
    method CreateNewScreen(existingScreens: nat)
      modifies this`screenName, this`hasUnsavedChanges
      ensures screenName == "Screen " + NatToString(existingScreens + 1)
      ensures hasUnsavedChanges
    {
      screenName := "Screen " + NatToString(existingScreens + 1);
      hasUnsavedChanges := true;
    }

    /** `generateSeatMap`: replaces the map by a fresh rows × seatsPerRow grid. */
    method GenerateSeatMap()
      requires rows <= MaxRows
      modifies this`seatMap
      ensures seatMap == EditorGrid(rows, seatsPerRow)
    {
      var map' := [];
      var r := 0;
      while r < rows
        invariant 0 <= r <= (if rows < 0 then 0 else rows)
        invariant map' == EditorGrid(r, seatsPerRow)
      {
        var c := 0;
        var row := [];
        while c < seatsPerRow
          invariant 0 <= c <= (if seatsPerRow < 0 then 0 else seatsPerRow)
          invariant row == EditorRow(r, seatsPerRow)[..c]
        {
          var seatLabel := GetRowLabel(r) + NatToString(c + 1);
          row := row + [EditorSeat(seatLabel, seatLabel, r, c, None, Available)];
          c := c + 1;
        }
        assert row == EditorRow(r, seatsPerRow);
        map' := map' + row;
        r := r + 1;
      }
      seatMap := map';
    }

    /** `loadScreenConfig`: the fetched configuration's name and layout size replace the
        editor's. */
    method LoadScreenConfig(config: ScreenConfig)
      modifies this`screenName, this`rows, this`seatsPerRow
      ensures screenName == config.name && rows == config.rows && seatsPerRow == config.seatsPerRow
    {
      screenName := config.name;
      rows := config.rows;
      seatsPerRow := config.seatsPerRow;
    }

    /** `onLayoutChange`: a map that already has seats is only regenerated once the user
        confirms; `asked` says whether the confirmation was requested. */
    method OnLayoutChange(confirmed: bool) returns (asked: bool)
      requires rows <= MaxRows
      modifies this`seatMap
      ensures asked <==> old(seatMap) != []
      ensures !asked || confirmed ==> seatMap == EditorGrid(rows, seatsPerRow)
      ensures asked && !confirmed ==> seatMap == old(seatMap)
    {
      asked := seatMap != [];
      if !asked || confirmed {
        GenerateSeatMap();
      }
    }

    /** `applyQuickAssign`: an empty category or a reversed range is refused with its own
        message and changes nothing; otherwise the category goes to every unbooked seat of
        the rows in range. */
    method ApplyQuickAssign() returns (alert: EditorAlert)
      modifies this`seatMap, this`hasUnsavedChanges
      ensures quickAssignCategory == "" ==>
                alert == Error(SelectCategoryMessage) && seatMap == old(seatMap) && hasUnsavedChanges == old(hasUnsavedChanges)
      ensures quickAssignCategory != "" && quickAssignFromRow > quickAssignToRow ==>
                alert == Error(RowRangeMessage) && seatMap == old(seatMap) && hasUnsavedChanges == old(hasUnsavedChanges)
      ensures quickAssignCategory != "" && quickAssignFromRow <= quickAssignToRow ==>
                && alert == Success && hasUnsavedChanges
                && seatMap == QuickAssigned(old(seatMap), quickAssignCategory, quickAssignFromRow, quickAssignToRow)
    {
      if quickAssignCategory == "" {
        return Error(SelectCategoryMessage);
      }
      if quickAssignFromRow > quickAssignToRow {
        return Error(RowRangeMessage);
      }
      seatMap := QuickAssigned(seatMap, quickAssignCategory, quickAssignFromRow, quickAssignToRow);
      hasUnsavedChanges := true;
      alert := Success;
    }

    /** `assignCategory`: a booked seat is left alone. */
    method AssignCategory(seat: EditorSeat, categoryId: string)
      modifies this`seatMap, this`hasUnsavedChanges
      ensures seat.status == Booked ==> seatMap == old(seatMap) && hasUnsavedChanges == old(hasUnsavedChanges)
      ensures seat.status != Booked ==> seatMap == AssignedTo(old(seatMap), seat.seatId, categoryId) && hasUnsavedChanges
    {
      if seat.status == Booked {
        return;
      }
      seatMap := AssignedTo(seatMap, seat.seatId, categoryId);
      hasUnsavedChanges := true;
    }

    /** `toggleSeatDisabled`: an available seat becomes disabled and back. */
    method ToggleSeatDisabled(seat: EditorSeat)
      modifies this`seatMap, this`hasUnsavedChanges
      ensures seatMap == WithStatusToggled(old(seatMap), seat.seatId) && hasUnsavedChanges
    {
      seatMap := WithStatusToggled(seatMap, seat.seatId);
      hasUnsavedChanges := true;
    }

    /** `addCategory`: appends a category named "New Category". */
    method AddCategory(id: string, price: real, color: string)
      modifies this`categories, this`hasUnsavedChanges
      ensures categories == old(categories) + [Category(id, NewCategoryName, price, color)]
      ensures hasUnsavedChanges
    {
      categories := categories + [Category(id, NewCategoryName, price, color)];
      hasUnsavedChanges := true;
    }

    /** `updateCategory`: changes one field of the category with that id. */
    method UpdateCategory(id: string, edit: CategoryEdit)
      modifies this`categories, this`hasUnsavedChanges
      ensures categories == WithCategoryEdited(old(categories), id, edit) && hasUnsavedChanges
    {
      categories := WithCategoryEdited(categories, id, edit);
      hasUnsavedChanges := true;
    }

    /** `deleteCategory`: the last category cannot be deleted; otherwise, once confirmed, the
        category goes and its seats lose their category. */
    method DeleteCategory(id: string, confirmed: bool) returns (alert: Option<EditorAlert>)
      modifies this`categories, this`seatMap, this`hasUnsavedChanges
      ensures |old(categories)| <= 1 ==>
                alert == Some(Error(LastCategoryMessage)) && categories == old(categories) && seatMap == old(seatMap)
      ensures |old(categories)| > 1 && !confirmed ==>
                alert.None? && categories == old(categories) && seatMap == old(seatMap)
      ensures |old(categories)| > 1 && confirmed ==>
                && alert.None? && hasUnsavedChanges
                && categories == Filter(old(categories), IdIsNot(id))
                && seatMap == Unassigned(old(seatMap), id)
    {
      if |categories| <= 1 {
        return Some(Error(LastCategoryMessage));
      }
      alert := None;
      if !confirmed {
        return;
      }
      categories := Filter(categories, IdIsNot(id));
      seatMap := Unassigned(seatMap, id);
      hasUnsavedChanges := true;
    }

    function Draft(): ScreenDraft
      reads this
    {
      ScreenDraft(selectedTheatreId, screenName, rows, seatsPerRow, categories)
    }

    /** `validate`: records the messages and reports whether there are none. */
    method Validate() returns (ok: bool)
      modifies this`validationErrors
      ensures validationErrors == ValidationErrors(Draft())
      ensures ok <==> Publishable(Draft())
    {
      validationErrors := ValidationErrors(Draft());
      ValidationMeaning(Draft());
      ok := validationErrors == [];
    }

    /** `saveScreen`: nothing is sent for an invalid screen; otherwise a new screen is POSTed
        and an existing one PUT, and a successful reply clears the unsaved flag. */
    method SaveScreen(replyOk: bool) returns (request: Option<SaveRequest>, alert: EditorAlert)
      modifies this`validationErrors, this`hasUnsavedChanges
      ensures validationErrors == ValidationErrors(Draft())
      ensures !Publishable(Draft()) ==>
                request.None? && alert == Error(FixErrorsMessage) && hasUnsavedChanges == old(hasUnsavedChanges)
      ensures Publishable(Draft()) ==>
                && request.Some?
                && request.value == SaveRequest(if selectedScreenId == NewScreenId then Post else Put, selectedScreenId,
                                                screenName, selectedTheatreId, rows, seatsPerRow, categories, seatMap)
                && (replyOk ==> alert == Success && !hasUnsavedChanges)
                && (!replyOk ==> alert.Error? && hasUnsavedChanges == old(hasUnsavedChanges))
    {
      var ok := Validate();
      if !ok {
        return None, Error(FixErrorsMessage);
      }
      var verb := if selectedScreenId == NewScreenId then Post else Put;
      request := Some(SaveRequest(verb, selectedScreenId, screenName, selectedTheatreId, rows, seatsPerRow,
                                  categories, seatMap));
      if replyOk {
        hasUnsavedChanges := false;
        alert := Success;
      } else {
        alert := Error("Failed to save screen");
      }
    }
  }
}
