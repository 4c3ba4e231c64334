/** The plain seat grid: rows × cols squares named "A1", "A2", …, green
    when free, red when booked, yellow when chosen. */
module LegacySeatMap {
  import opened Wrappers
  import opened Text
  import opened Collections
  import opened Records
  import opened Booking

  const SeatSize := 24
  const Gap := 6

  const ReservedBrush := "#EF9A9A"
  const FreeBrush := "#A5D6A7"
  const ChosenBrush := "#FFF59D"

  /** Rows whose letter `chr(ord("A") + r)` is a character here. */
  const MaxRows := 0xD800 - 65

  /** A square of the grid: its code and the corner of its 24 × 24 rect. */
  datatype Cell = Cell(code: string, x: int, y: int)

  /** `f"{chr(ord('A') + r)}{c + 1}"`. */
  function Code(r: nat, c: nat): string
    requires r < MaxRows
  {
    [(65 + r) as char] + NatToString(c + 1)
  }

  /** The square in row r and column c. */
  function CellAt(r: nat, c: nat): Cell
    requires r < MaxRows
  {
    Cell(Code(r, c), c * (SeatSize + Gap), r * (SeatSize + Gap))
  }

  function RowCells(r: nat, cols: nat): seq<Cell>
    requires r < MaxRows
  {
    seq(cols, c requires 0 <= c < cols => CellAt(r, c))
  }

  /** The squares of the nested loop, row by row. */
  function Grid(rows: nat, cols: nat): seq<Cell>
    requires rows <= MaxRows
  {
    if rows == 0 then [] else Grid(rows - 1, cols) + RowCells(rows - 1, cols)
  }

  /** `range(n)` of a count that may be negative. */
  function Clamp(n: int): nat {
    if n < 0 then 0 else n
  }

  lemma {:induction false} GridLength(rows: nat, cols: nat)
    requires rows <= MaxRows
    ensures |Grid(rows, cols)| == rows * cols
  {
    if rows > 0 {
      GridLength(rows - 1, cols);
      assert (rows - 1) * cols + cols == rows * cols;
    }
  }

  /** The grid has rows · cols squares, in row-major order: the square of
      row r and column c is at r · cols + c. */
  lemma {:induction false} GridAt(rows: nat, cols: nat, r: nat, c: nat)
    requires rows <= MaxRows && r < rows && c < cols
    ensures |Grid(rows, cols)| == rows * cols
    ensures r * cols + c < rows * cols && Grid(rows, cols)[r * cols + c] == CellAt(r, c)
  {
    GridLength(rows, cols);
    GridLength(rows - 1, cols);
    assert (rows - 1) * cols + cols == rows * cols;
    if r == rows - 1 {
      assert Grid(rows, cols)[r * cols + c] == RowCells(r, cols)[c];
    } else {
      GridAt(rows - 1, cols, r, c);
      assert r * cols + cols <= (rows - 1) * cols by {
        assert (rows - 1) * cols - r * cols == (rows - 1 - r) * cols;
      }
    }
  }

  /** No two squares share a code. */
  lemma CodeInjective(r: nat, c: nat, r': nat, c': nat)
    requires r < MaxRows && r' < MaxRows
    requires Code(r, c) == Code(r', c')
    ensures r == r' && c == c'
  {
    assert Code(r, c)[0] == (65 + r) as char;
    assert Code(r', c')[0] == (65 + r') as char;
    assert Code(r, c)[1..] == NatToString(c + 1);
    assert Code(r', c')[1..] == NatToString(c' + 1);
    NatToStringInjective(c + 1, c' + 1);
  }

  /** Row 32 is lettered 'a': once upper-cased, its codes are those of row
      0, so a booking of "A1" marks both squares as booked. */
  lemma UpperCodesAlias()
    ensures Code(32, 0) != Code(0, 0) && Upper(Code(32, 0)) == Upper(Code(0, 0))
  {
    assert Code(32, 0) == ['a', '1'] && Code(0, 0) == ['A', '1'];
    assert Upper(['a', '1'])[0] == 'A';
    assert Upper(['a', '1'])[1] == '1';
    assert Upper(['A', '1'])[0] == 'A';
    assert Upper(['A', '1'])[1] == '1';
  }

  /** The brush of a square. */
  function BrushFor(reserved: bool, selected: bool): string {
    if reserved then ReservedBrush else if selected then ChosenBrush else FreeBrush
  }

  /** `selected` after a click: a booked square ignores it. */
  function Toggled(reserved: bool, selected: bool): bool {
    if reserved then selected else !selected
  }

  class SeatItem {
    const cell: Cell
    const isReserved: bool
    /** `ItemIsSelectable` is set exactly on free squares. */
    const selectable: bool
    var selected: bool
    var brush: string

    /** The brush shows the state, and a booked square is never chosen. */
    predicate Valid()
      reads this
    {
      && brush == BrushFor(isReserved, selected)
      && (isReserved ==> !selected)
      && selectable == !isReserved
    }

    constructor(cell: Cell, isReserved: bool)
      ensures this.cell == cell && this.isReserved == isReserved && !selected
      ensures Valid()
    {
      this.cell := cell;
      this.isReserved := isReserved;
      selected := false;
      selectable := !isReserved;
      brush := if isReserved then ReservedBrush else FreeBrush;
    }

    /** `mousePressEvent`: a free square flips between chosen and not,
        repainted to match; a booked one is left alone. */
    method MousePress()
      requires Valid()
      modifies this
      ensures Valid()
      ensures selected == Toggled(isReserved, old(selected))
      ensures isReserved ==> selected == old(selected) && brush == old(brush)
    {
      if isReserved {
        return;
      }
      selected := !selected;
      if selected {
        brush := ChosenBrush;
      } else {
        brush := FreeBrush;
      }
    }
  }

  /** Two clicks on a square leave it as it was. */
  method ClickTwice(item: SeatItem)
    requires item.Valid()
    modifies item
    ensures item.Valid()
    ensures item.selected == old(item.selected) && item.brush == old(item.brush)
  {
    item.MousePress();
    item.MousePress();
  }

  function Cells(items: seq<SeatItem>): seq<Cell> {
    seq(|items|, i requires 0 <= i < |items| => items[i].cell)
  }

  /** `[item.code for item in items if item.selected and not item.is_reserved]`. */
  function Selected(items: seq<SeatItem>): seq<string>
    reads items
  {
    if items == [] then []
    else
      var it := items[|items| - 1];
      Selected(items[..|items| - 1]) + (if it.selected && !it.isReserved then [it.cell.code] else [])
  }

  /** The positions of the chosen free squares, in increasing order. */
  function SelectedIndices(items: seq<SeatItem>): seq<int>
    reads items
  {
    if items == [] then []
    else
      var it := items[|items| - 1];
      SelectedIndices(items[..|items| - 1]) + (if it.selected && !it.isReserved then [|items| - 1] else [])
  }

  /** The chosen codes come in the squares' order: code a is that of the
      a-th chosen free square, at strictly increasing positions, and every
      chosen free square is listed. In a valid view the squares are the
      grid row by row (GridAt), so the codes are in row-major order. */
  lemma {:induction false} SelectedInGridOrder(items: seq<SeatItem>)
    ensures var idx := SelectedIndices(items);
      && |idx| == |Selected(items)|
      && (forall a :: 0 <= a < |idx| ==>
            0 <= idx[a] < |items| && items[idx[a]].selected && !items[idx[a]].isReserved
            && Selected(items)[a] == items[idx[a]].cell.code)
      && (forall a, b :: 0 <= a < b < |idx| ==> idx[a] < idx[b])
      && (forall i :: 0 <= i < |items| && items[i].selected && !items[i].isReserved ==> i in idx)
  {
    if items != [] {
      var n := |items| - 1;
      var init := items[..n];
      SelectedInGridOrder(init);
      assert forall i :: 0 <= i < n ==> init[i] == items[i];
    }
  }

  /** The chosen codes are those of the chosen squares that are free; each
      comes from one square. SelectedInGridOrder gives their order. */
  lemma {:induction false} SelectedSpec(items: seq<SeatItem>)
    ensures forall x :: x in Selected(items) <==>
      exists i :: 0 <= i < |items| && items[i].selected && !items[i].isReserved && items[i].cell.code == x
    ensures |Selected(items)| <= |items|
  {
    if items != [] {
      var init := items[..|items| - 1];
      SelectedSpec(init);
      assert forall i :: 0 <= i < |init| ==> init[i] == items[i];
    }
  }

  class SeatMapView {
    const rows: int
    const cols: int
    /** `_reserved_seats`: the codes given, stripped and upper-cased. */
    const reserved: set<string>
    var items: seq<SeatItem>

    /** The squares are the rows × cols grid, each booked exactly when its
        upper-cased code is reserved. */
    predicate Valid()
      reads this, items
    {
      && rows <= MaxRows
      && Cells(items) == Grid(Clamp(rows), Clamp(cols))
      && forall i :: 0 <= i < |items| ==>
           items[i].Valid() && items[i].isReserved == (Upper(items[i].cell.code) in reserved)
    }

    /** The grid as built: nothing chosen yet. */
    constructor(rows: int, cols: int, reservedSeats: Option<set<string>>)
      requires rows <= MaxRows
      ensures this.rows == rows && this.cols == cols
      ensures reserved == set s | s in reservedSeats.GetOr({}) :: TrimUpper(s)
      ensures Valid()
      ensures forall i :: 0 <= i < |items| ==> !items[i].selected
    {
      this.rows := rows;
      this.cols := cols;
      var codes := set s | s in reservedSeats.GetOr({}) :: TrimUpper(s);
      this.reserved := codes;
      var n, m := Clamp(rows), Clamp(cols);
      var built: seq<SeatItem> := [];
      for r := 0 to n
        invariant Cells(built) == Grid(r, m)
        invariant forall i :: 0 <= i < |built| ==>
          built[i].Valid() && !built[i].selected && built[i].isReserved == (Upper(built[i].cell.code) in codes)
      {
        for c := 0 to m
          invariant Cells(built) == Grid(r, m) + RowCells(r, m)[..c]
          invariant forall i :: 0 <= i < |built| ==>
            built[i].Valid() && !built[i].selected && built[i].isReserved == (Upper(built[i].cell.code) in codes)
        {
          var cell := CellAt(r, c);
          var item := new SeatItem(cell, Upper(cell.code) in codes);
          assert Cells(built + [item]) == Cells(built) + [cell];
          assert RowCells(r, m)[..c + 1] == RowCells(r, m)[..c] + [cell];
          built := built + [item];
        }
        assert RowCells(r, m)[..m] == RowCells(r, m);
      }
      items := built;
    }

    /** `get_selected_seats`. */
    method GetSelectedSeats() returns (codes: seq<string>)
      ensures codes == Selected(items)
    {
      codes := [];
      for i := 0 to |items|
        invariant codes == Selected(items[..i])
      {
        assert items[..i + 1][..i] == items[..i];
        if items[i].selected && !items[i].isReserved {
          codes := codes + [items[i].cell.code];
        }
      }
      assert items[..|items|] == items;
    }
  }

  /** No booked code is ever among the chosen ones. */
  lemma SelectedAreFree(view: SeatMapView)
    requires view.Valid()
    ensures forall x :: x in Selected(view.items) ==> Upper(x) !in view.reserved
  {
    SelectedSpec(view.items);
  }

  /** Position p of a rows × cols grid is row p / cols, column p % cols. */
  lemma GridPosition(p: int, rows: nat, cols: nat)
    requires 0 <= p < rows * cols
    ensures cols > 0 && p / cols < rows && p % cols < cols && p == (p / cols) * cols + p % cols
  {
    assert cols > 0;
  }

  /** Square p of a grid of squares carries the code of its row and column. */
  lemma CodeAtPosition(items: seq<SeatItem>, rows: nat, cols: nat, p: int)
    requires rows <= MaxRows && Cells(items) == Grid(rows, cols)
    requires 0 <= p < |items|
    ensures cols > 0 && p / cols < rows && items[p].cell.code == Code(p / cols, p % cols)
  {
    GridLength(rows, cols);
    assert p < |Cells(items)|;
    GridPosition(p, rows, cols);
    GridAt(rows, cols, p / cols, p % cols);
    assert Cells(items)[p] == items[p].cell;
  }

  /** In a valid view the a-th chosen code is that of the square in row
      p / cols and column p % cols, where p is its position; positions
      increase (SelectedInGridOrder), so the codes come row by row, left to
      right. */
  lemma SelectedRowMajor(view: SeatMapView)
    requires view.Valid()
    ensures var idx := SelectedIndices(view.items);
      var rows, cols := Clamp(view.rows), Clamp(view.cols);
      && |idx| == |Selected(view.items)|
      && forall a :: 0 <= a < |idx| ==>
           0 <= idx[a] && cols > 0 && idx[a] / cols < rows
           && Selected(view.items)[a] == Code(idx[a] / cols, idx[a] % cols)
  {
    var items := view.items;
    var idx := SelectedIndices(items);
    SelectedInGridOrder(items);
    forall a | 0 <= a < |idx|
      ensures 0 <= idx[a] && Clamp(view.cols) > 0 && idx[a] / Clamp(view.cols) < Clamp(view.rows)
      ensures Selected(items)[a] == Code(idx[a] / Clamp(view.cols), idx[a] % Clamp(view.cols))
    {
      CodeAtPosition(items, Clamp(view.rows), Clamp(view.cols), idx[a]);
    }
  }

  // ---------------------------------------------------------------------
  // The seat selection dialog.

  /** Why the dialog cannot be built: the hall's layout is a list or null,
      which has no `get`. */
  datatype GridError = LayoutNotADict

  /** The grid size: 8 × 10 for an unknown hall or a layout without them,
      otherwise the layout's `rows` and `cols`. */
  function GridSize(hall: Option<Hall>): (r: Result<(int, int), GridError>)
    ensures r.Failure? <==> hall.Some? && (hall.value.layout.LayoutNull? || hall.value.layout.LayoutList?)
  {
    if hall.None? then Success((8, 10))
    else
      match hall.value.layout
      case LayoutAbsent => Success((8, 10))
      case LayoutDict(_, rows, cols) => Success((rows.GetOr(8), cols.GetOr(10)))
      case _ => Failure(LayoutNotADict)
  }

  /** Each of rows and cols is the layout's own when it has one and the
      default otherwise. */
  lemma GridSizeDefaults(hall: Option<Hall>)
    requires GridSize(hall).Success?
    ensures var (rows, cols) := GridSize(hall).value;
      && (hall.Some? && hall.value.layout.LayoutDict? && hall.value.layout.rows.Some? ==> rows == hall.value.layout.rows.value)
      && (hall.Some? && hall.value.layout.LayoutDict? && hall.value.layout.cols.Some? ==> cols == hall.value.layout.cols.value)
      && (hall.None? || hall.value.layout.LayoutAbsent? || hall.value.layout.rows.None? ==> rows == 8)
      && (hall.None? || hall.value.layout.LayoutAbsent? || hall.value.layout.cols.None? ==> cols == 10)
  {
  }

  /** The codes the dialog marks as booked: every seat of every listed
      booking, stripped and upper-cased. */
  function ReservedSet(bookings: seq<BookingView>): set<string> {
    if bookings == [] then {}
    else ReservedSet(bookings[..|bookings| - 1]) + Image(TrimUpper, bookings[|bookings| - 1].seats)
  }

  /** Listing an event's bookings and collecting their seats gives the set
      the booking store checks new requests against. */
  lemma {:induction false} ReservedSetListed(rows: seq<StoredBooking>, eventId: int)
    ensures ReservedSet(Listed(rows, eventId)) == ReservedOf(rows, eventId)
  {
    if rows != [] {
      var init, b := rows[..|rows| - 1], rows[|rows| - 1];
      assert rows == init + [b];
      ReservedSetListed(init, eventId);
      ListedSnoc(init, b, eventId);
      ReservedOfSnoc(init, b, eventId);
      if b.eventId == eventId {
        var l := Listed(init, eventId) + [ViewOf(b)];
        assert Listed(rows, eventId) == l;
        assert l[..|l| - 1] == Listed(init, eventId);
        assert l[|l| - 1].seats == SeatsOf(b);
        assert ReservedSet(l) == ReservedSet(Listed(init, eventId)) + Image(TrimUpper, SeatsOf(b));
        assert ReservedOf(rows, eventId) == ReservedOf(init, eventId) + Image(TrimUpper, SeatsOf(b));
      } else {
        assert Listed(rows, eventId) == Listed(init, eventId);
        assert ReservedOf(rows, eventId) == ReservedOf(init, eventId);
      }
    }
  }

  /** Every code of the set is in normal form. */
  lemma {:induction false} ReservedSetNormal(bookings: seq<BookingView>)
    ensures forall x :: x in ReservedSet(bookings) ==> TrimUpper(x) == x
  {
    if bookings != [] {
      ReservedSetNormal(bookings[..|bookings| - 1]);
      var seats := bookings[|bookings| - 1].seats;
      ImageMembers(TrimUpper, seats);
      forall x | x in Image(TrimUpper, seats) ensures TrimUpper(x) == x {
        var i :| 0 <= i < |seats| && x == TrimUpper(seats[i]);
        TrimUpperIdempotent(seats[i]);
      }
    }
  }

  /** The dialog's loop over the bookings and their seats. */
  method CollectReservedCodes(bookings: seq<BookingView>) returns (codes: set<string>)
    ensures codes == ReservedSet(bookings)
  {
    codes := {};
    for i := 0 to |bookings|
      invariant codes == ReservedSet(bookings[..i])
    {
      assert bookings[..i + 1][..i] == bookings[..i];
      codes := AddCodes(codes, bookings[i].seats);
    }
    assert bookings[..|bookings|] == bookings;
  }

  lemma AddCodesStep(codes: set<string>, seats: seq<string>, k: nat)
    requires k < |seats|
    ensures codes + Image(TrimUpper, seats[..k + 1]) == codes + Image(TrimUpper, seats[..k]) + {TrimUpper(seats[k])}
  {
    assert seats[..k + 1] == seats[..k] + [seats[k]];
    ImageSnoc(TrimUpper, seats[..k], seats[k]);
  }

  /** The inner loop: one booking's seats, stripped and upper-cased. */
  method AddCodes(codes: set<string>, seats: seq<string>) returns (r: set<string>)
    ensures r == codes + Image(TrimUpper, seats)
  {
    r := codes;
    for k := 0 to |seats|
      invariant r == codes + Image(TrimUpper, seats[..k])
    {
      var code := TrimUpper(seats[k]);
      AddCodesStep(codes, seats, k);
      r := r + {code};
    }
    assert seats[..|seats|] == seats;
  }

  /** Normalising a set of codes already in normal form leaves it as it
      is. */
  lemma NormalSetFixed(codes: set<string>)
    requires forall x :: x in codes ==> TrimUpper(x) == x
    ensures (set s | s in codes :: TrimUpper(s)) == codes
  {
    var n := set s | s in codes :: TrimUpper(s);
    forall x | x in codes ensures x in n {
      assert TrimUpper(x) == x;
    }
  }

  class SeatSelectionDialog {
    var seatMap: SeatMapView

    /** The dialog for an event: its hall (none when the event or the hall
        is unknown) and the bookings listed for it. */
    constructor(hall: Option<Hall>, bookings: seq<BookingView>)
      requires GridSize(hall).Success? && GridSize(hall).value.0 <= MaxRows
      ensures seatMap.rows == GridSize(hall).value.0 && seatMap.cols == GridSize(hall).value.1
      ensures seatMap.reserved == ReservedSet(bookings)
      ensures seatMap.Valid()
    {
      var (rows, cols) := GridSize(hall).value;
      var codes := CollectReservedCodes(bookings);
      ReservedSetNormal(bookings);
      NormalSetFixed(codes);
      seatMap := new SeatMapView(rows, cols, Some(codes));
    }

    /** `get_selected_seats`: what the grid has chosen. */
    method GetSelectedSeats() returns (codes: seq<string>)
      ensures codes == Selected(seatMap.items)
    {
      codes := seatMap.GetSelectedSeats();
    }
  }
}
