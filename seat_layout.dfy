/** The simple seat grid shared by several pages: rows of ten seats labelled "A1", "A2", …,
    a booked flag per seat drawn at random (here: supplied by the caller), and a selection
    toggled seat by seat and emitted in row-major order. */
module SeatLayoutPanel {
  import opened Collections
  import opened Text

  datatype PanelSeat = PanelSeat(id: string, selected: bool, booked: bool)

  const SeatsPerRow: nat := 10
  const DefaultTotalSeats: int := 50
  /** Row labels are single characters from 'A' (code 65) up to the last code below the
      surrogate range; later rows have no character label. */
  const MaxRows: nat := 0xD800 - 65

  /** `getRowLabel`. */
  function RowLabel(index: nat): (r: string)
    requires index < MaxRows
    ensures |r| == 1 && r[0] as int == 65 + index
  {
    [RowLetter(index)]
  }

  /** The row's letter followed by the column number. */
  function SeatLabel(i: nat, column: nat): (r: string)
    requires i < MaxRows
    ensures |r| >= 2 && r[0] as int == 65 + i && r[1..] == NatToString(column)
  {
    RowLabel(i) + NatToString(column)
  }

  /** `Math.ceil(totalSeats / 10)`, read as the number of loop iterations it allows. */
  function RowCount(total: int): nat
  {
    if total <= 0 then 0 else CeilDiv(total, SeatsPerRow)
  }

  /** Seats in row `i`: ten, except that the last row stops at `total`. */
  function RowLength(total: int, i: nat): nat
  {
    var rest := total - SeatsPerRow * i;
    if rest <= 0 then 0 else if rest < SeatsPerRow then rest else SeatsPerRow
  }

  /** Row `i` as `generateSeats` builds it, the booked flag being the seat's draw. */
  function PanelRow(total: int, i: nat, draw: nat -> bool): seq<PanelSeat>
    requires i < MaxRows
  {
    seq(RowLength(total, i), j requires 0 <= j < RowLength(total, i) =>
      PanelSeat(SeatLabel(i, j + 1), false, draw(SeatsPerRow * i + j)))
  }

  /** Every row `generateSeats` builds for `total` seats. */
  function PanelRows(total: int, draw: nat -> bool): seq<seq<PanelSeat>>
    requires RowCount(total) <= MaxRows
  {
    seq(RowCount(total), i requires 0 <= i < RowCount(total) => PanelRow(total, i, draw))
  }

  /** Number of seats over all rows. */
  function SeatCount(rows: seq<seq<PanelSeat>>): nat
  {
    if rows == [] then 0 else SeatCount(rows[..|rows| - 1]) + |rows[|rows| - 1]|
  }

  lemma {:induction false} SeatCountPrefix(total: int, draw: nat -> bool, k: nat)
    requires total >= 0 && RowCount(total) <= MaxRows && k <= RowCount(total)
    ensures SeatCount(PanelRows(total, draw)[..k]) == if SeatsPerRow * k < total then SeatsPerRow * k else total
  {
    var rows := PanelRows(total, draw);
    if k > 0 {
      assert rows[..k][..k - 1] == rows[..k - 1];
      SeatCountPrefix(total, draw, k - 1);
    }
  }

  /** `ceil(total / 10)` rows of between 1 and 10 seats, `total` seats in all; a non-positive
      total gives no rows. */
  lemma PanelRowsShape(total: int, draw: nat -> bool)
    requires RowCount(total) <= MaxRows
    ensures var rows := PanelRows(total, draw);
            && (total > 0 ==> |rows| == CeilDiv(total, SeatsPerRow))
            && (total <= 0 ==> rows == [])
            && (forall i :: 0 <= i < |rows| ==> 1 <= |rows[i]| <= SeatsPerRow)
            && SeatCount(rows) == if total < 0 then 0 else total
  {
    var rows := PanelRows(total, draw);
    if total > 0 {
      SeatCountPrefix(total, draw, |rows|);
      assert rows[..|rows|] == rows;
    }
  }

  /** Every seat of a generated grid starts unselected, with id "row letter + column". */
  lemma PanelSeatsStart(total: int, draw: nat -> bool, i: nat, j: nat)
    requires RowCount(total) <= MaxRows
    requires i < |PanelRows(total, draw)| && j < |PanelRows(total, draw)[i]|
    ensures var seat := PanelRows(total, draw)[i][j];
            && !seat.selected && seat.booked == draw(SeatsPerRow * i + j)
            && seat.id == SeatLabel(i, j + 1)
  {
  }

  /** No two seats of the grid share an id. */
  ghost predicate DistinctIds(rows: seq<seq<PanelSeat>>)
  {
    forall i, j, k, l ::
      (0 <= i < |rows| && 0 <= j < |rows[i]| && 0 <= k < |rows| && 0 <= l < |rows[k]| && (i != k || j != l))
      ==> rows[i][j].id != rows[k][l].id
  }

  lemma NatToStringInjective(a: nat, b: nat)
    requires NatToString(a) == NatToString(b)
    ensures a == b
  {
    DigitsValueOfNatToString(a);
    DigitsValueOfNatToString(b);
  }

  /** Labels tell seats apart: the letter tells the row, the digits the column. */
  lemma PanelIdsDistinct(total: int, draw: nat -> bool)
    requires RowCount(total) <= MaxRows
    ensures DistinctIds(PanelRows(total, draw))
  {
    var rows: seq<seq<PanelSeat>> := PanelRows(total, draw);
    forall i: int, j: int, k: int, l: int | 0 <= i < |rows| && 0 <= j < |rows[i]| && 0 <= k < |rows| && 0 <= l < |rows[k]| &&
                        (i != k || j != l)
      ensures rows[i][j].id != rows[k][l].id
    {
      var a, b := rows[i][j].id, rows[k][l].id;
      PanelSeatsStart(total, draw, i, j);
      PanelSeatsStart(total, draw, k, l);
      if a == b {
        assert a[0] == b[0];
        assert a[1..] == b[1..];
        NatToStringInjective(j + 1, l + 1);
      }
    }
  }

  /** The ids of the selected seats of one row, left to right. */
  function SelectedInRow(row: seq<PanelSeat>): seq<string>
  {
    if row == [] then []
    else SelectedInRow(row[..|row| - 1]) + (if row[|row| - 1].selected then [row[|row| - 1].id] else [])
  }

  /** The ids of all selected seats, row after row. */
  function SelectedIds(rows: seq<seq<PanelSeat>>): seq<string>
  {
    if rows == [] then [] else SelectedIds(rows[..|rows| - 1]) + SelectedInRow(rows[|rows| - 1])
  }

  lemma {:induction false} SelectedInRowMeaning(row: seq<PanelSeat>, x: string)
    ensures x in SelectedInRow(row) <==> exists j :: 0 <= j < |row| && row[j].selected && row[j].id == x
  {
    if row != [] {
      var init := row[..|row| - 1];
      SelectedInRowMeaning(init, x);
      if exists j :: 0 <= j < |row| && row[j].selected && row[j].id == x {
        var j :| 0 <= j < |row| && row[j].selected && row[j].id == x;
        if j < |init| {
          assert init[j] == row[j];
        }
      }
    }
  }

  /** An id is emitted exactly when some seat with that id is selected. */
  lemma {:induction false} SelectedIdsMeaning(rows: seq<seq<PanelSeat>>, x: string)
    ensures x in SelectedIds(rows) <==>
            exists i, j :: 0 <= i < |rows| && 0 <= j < |rows[i]| && rows[i][j].selected && rows[i][j].id == x
  {
    if rows != [] {
      var init, last := rows[..|rows| - 1], rows[|rows| - 1];
      SelectedIdsMeaning(init, x);
      SelectedInRowMeaning(last, x);
      if exists i, j :: 0 <= i < |rows| && 0 <= j < |rows[i]| && rows[i][j].selected && rows[i][j].id == x {
        var i, j :| 0 <= i < |rows| && 0 <= j < |rows[i]| && rows[i][j].selected && rows[i][j].id == x;
        if i < |init| {
          assert init[i][j] == rows[i][j];
        }
      }
      if x in SelectedInRow(last) {
        var j :| 0 <= j < |last| && last[j].selected && last[j].id == x;
        assert rows[|rows| - 1][j] == last[j];
      }
    }
  }

  /** The grid after flipping the `selected` flag of seat `s` of row `r`. */
  function Flip(rows: seq<seq<PanelSeat>>, r: nat, s: nat): seq<seq<PanelSeat>>
    requires r < |rows| && s < |rows[r]|
  {
    rows[r := rows[r][s := rows[r][s].(selected := !rows[r][s].selected)]]
  }

  /** With distinct ids, toggling a seat adds its id to the emitted selection or removes it,
      and leaves every other id as it was; the ids themselves stay distinct. */
  lemma FlipToggles(rows: seq<seq<PanelSeat>>, r: nat, s: nat)
    requires r < |rows| && s < |rows[r]|
    requires DistinctIds(rows)
    ensures DistinctIds(Flip(rows, r, s))
    ensures var x := rows[r][s].id;
            && (x in SelectedIds(Flip(rows, r, s)) <==> x !in SelectedIds(rows))
            && forall y :: y != x ==> (y in SelectedIds(Flip(rows, r, s)) <==> y in SelectedIds(rows))
  {
    var rows': seq<seq<PanelSeat>> := Flip(rows, r, s);
    var x := rows[r][s].id;
    assert forall i: int, j: int :: 0 <= i < |rows| && 0 <= j < |rows[i]| ==>
      rows'[i][j].id == rows[i][j].id && ((i != r || j != s) ==> rows'[i][j] == rows[i][j]);
    SelectedIdsMeaning(rows, x);
    SelectedIdsMeaning(rows', x);
    forall y | y != x
      ensures y in SelectedIds(rows') <==> y in SelectedIds(rows)
    {
      SelectedIdsMeaning(rows, y);
      SelectedIdsMeaning(rows', y);
    }
  }

  /** The component: its `totalSeats` input and the grid it has built. */
  class SeatLayoutComponent {
    var totalSeats: int
    var seatRows: seq<seq<PanelSeat>>

    /** The constructor builds the grid before any input is bound, so it always has the
        default 50 seats. */
    constructor (draw: nat -> bool)
      ensures totalSeats == DefaultTotalSeats
      ensures seatRows == PanelRows(DefaultTotalSeats, draw)
    {
      totalSeats := DefaultTotalSeats;
      seatRows := [];
      new;
      GenerateSeats(draw);
    }

    /** `generateSeats`: appends the rows for `totalSeats` to whatever rows already exist. */
    method GenerateSeats(draw: nat -> bool)
      requires RowCount(totalSeats) <= MaxRows
      modifies this`seatRows
      ensures seatRows == old(seatRows) + PanelRows(totalSeats, draw)
    {
      var total := totalSeats;
      var rows := -((-total) / SeatsPerRow);
      assert (if rows < 0 then 0 else rows) == RowCount(total);
      var acc := seatRows;
      var i := 0;
      while i < rows
        invariant 0 <= i <= RowCount(total)
        invariant acc == old(seatRows) + PanelRows(total, draw)[..i]
      {
        var row := [];
        var j := 0;
        while j < SeatsPerRow && i * SeatsPerRow + j < total
          invariant 0 <= j <= RowLength(total, i)
          invariant row == PanelRow(total, i, draw)[..j]
        {
          row := row + [PanelSeat(RowLabel(i) + NatToString(j + 1), false, draw(SeatsPerRow * i + j))];
          j := j + 1;
        }
        assert row == PanelRow(total, i, draw);
        assert PanelRows(total, draw)[..i + 1] == PanelRows(total, draw)[..i] + [row];
        acc := acc + [row];
        i := i + 1;
      }
      assert PanelRows(total, draw)[..i] == PanelRows(total, draw);
      seatRows := acc;
    }

    /** `emitSelectedSeats`: the selected ids, collected row by row. */
    method EmitSelectedSeats() returns (selected: seq<string>)
      ensures selected == SelectedIds(seatRows)
    {
      var rows := seatRows;
      selected := [];
      var i := 0;
      while i < |rows|
        invariant 0 <= i <= |rows|
        invariant selected == SelectedIds(rows[..i])
      {
        var row := rows[i];
        var j := 0;
        while j < |row|
          invariant 0 <= j <= |row|
          invariant selected == SelectedIds(rows[..i]) + SelectedInRow(row[..j])
        {
          assert row[..j + 1][..j] == row[..j];
          if row[j].selected {
            selected := selected + [row[j].id];
          }
          j := j + 1;
        }
        assert row[..j] == row;
        assert rows[..i + 1][..i] == rows[..i];
        i := i + 1;
      }
      assert rows[..i] == rows;
    }

    /** `toggleSeat`: a position outside the grid throws (no change, nothing emitted); a booked
        seat is left alone; otherwise only that seat's flag flips and the selection is emitted. */
    method ToggleSeat(rowIndex: int, seatIndex: int) returns (emitted: Option<seq<string>>)
      modifies this`seatRows
      ensures !(0 <= rowIndex < |old(seatRows)| && 0 <= seatIndex < |old(seatRows)[rowIndex]|) ==>
                seatRows == old(seatRows) && emitted.None?
      ensures 0 <= rowIndex < |old(seatRows)| && 0 <= seatIndex < |old(seatRows)[rowIndex]| ==>
                if old(seatRows)[rowIndex][seatIndex].booked then seatRows == old(seatRows) && emitted.None?
                else seatRows == Flip(old(seatRows), rowIndex, seatIndex) && emitted == Some(SelectedIds(seatRows))
    {
      if !(0 <= rowIndex < |seatRows| && 0 <= seatIndex < |seatRows[rowIndex]|) {
        return None;
      }
      var seat := seatRows[rowIndex][seatIndex];
      if seat.booked {
        return None;
      }
      seatRows := seatRows[rowIndex := seatRows[rowIndex][seatIndex := seat.(selected := !seat.selected)]];
      var selected := EmitSelectedSeats();
      emitted := Some(selected);
    }
  }
}
