/** Placement generators for hall layouts: seat blocks, table sets, decor,
    centring on the logical canvas, group rotation and ready-made templates.
    Trigonometry is supplied by the caller as a `Trig` function. */
module LayoutGenerator {
  import opened Wrappers
  import opened Text
  import opened Numeric
  import opened Records

  const LogicalWidth: real := 1600.0
  const LogicalHeight: real := 900.0

  /** Seats are 30 x 30 with a 5-unit gap, so rows and columns repeat every 35. */
  const SeatSize: real := 30.0
  const SeatPitch: int := 35

  /** Cosine and sine of an angle given in degrees. */
  type Trig = real -> (real, real)

  // ---------------------------------------------------------------------
  // Rotation of a point about a centre.

  function RotatePoint(trig: Trig, cx: real, cy: real, x: real, y: real, angle: real): (real, real) {
    var (c, s) := trig(angle);
    var tx := x - cx;
    var ty := y - cy;
    (tx * c - ty * s + cx, tx * s + ty * c + cy)
  }

  /** The centre of rotation does not move. */
  lemma RotateCentre(trig: Trig, cx: real, cy: real, angle: real)
    ensures RotatePoint(trig, cx, cy, cx, cy, angle) == (cx, cy)
  {
  }

  /** With a true cosine/sine pair, the distance to the centre is kept. */
  lemma RotateKeepsDistance(trig: Trig, cx: real, cy: real, x: real, y: real, angle: real)
    requires trig(angle).0 * trig(angle).0 + trig(angle).1 * trig(angle).1 == 1.0
    ensures var p := RotatePoint(trig, cx, cy, x, y, angle);
      (p.0 - cx) * (p.0 - cx) + (p.1 - cy) * (p.1 - cy) == (x - cx) * (x - cx) + (y - cy) * (y - cy)
  {
    var (c, s) := trig(angle);
    var tx := x - cx;
    var ty := y - cy;
    calc {
      (tx * c - ty * s) * (tx * c - ty * s) + (tx * s + ty * c) * (tx * s + ty * c);
      tx * tx * (c * c + s * s) + ty * ty * (c * c + s * s);
      tx * tx + ty * ty;
    }
  }

  // ---------------------------------------------------------------------
  // Decor.

  /** A decor piece of size w x h centred on (x, y), identified by its label. */
  function GenerateDecor(x: real, y: real, kind: string, w: real, h: real, caption: string, rotation: real): (r: seq<ItemDict>)
    ensures |r| == 1 && r[0].id == "D-" + caption && r[0].kind == kind
    ensures r[0].x + w / 2.0 == x && r[0].y + h / 2.0 == y
    ensures r[0].w == Some(w) && r[0].h == Some(h) && r[0].caption == Some(caption) && r[0].rotation == Some(rotation)
    ensures r[0].parentId == None && r[0].zoneId == None
  {
    [ItemDict("D-" + caption, kind, x - w / 2.0, y - h / 2.0, Some(w), Some(h), Some(rotation), None, Some(caption), None)]
  }

  // ---------------------------------------------------------------------
  // Table sets. A table set is the table followed by its seats
  // "<table>-1" .. "<table>-n", each 30 x 30 and parented to the table.

  predicate SeatOf(item: ItemDict, tableId: string, j: nat) {
    item.kind == "seat" && item.id == tableId + "-" + NatToString(j)
    && item.parentId == Some(tableId) && item.w == Some(SeatSize) && item.h == Some(SeatSize)
  }

  predicate TableSetAt(items: seq<ItemDict>, k: nat, tableId: string, kind: string, n: nat) {
    k + n < |items|
    && items[k].id == tableId && items[k].kind == kind && items[k].parentId == None
    && forall j :: k < j <= k + n ==> SeatOf(items[j], tableId, j - k)
  }

  function Max(a: int, b: int): int {
    if a >= b then a else b
  }

  /** The radius of a round table for n seats. */
  function RoundRadius(n: nat): int {
    Max(25, 5 + n * 4)
  }

  function RoundTable(cx: real, cy: real, tableId: string, n: nat): ItemDict {
    var r := RoundRadius(n) as real;
    ItemDict(tableId, "table_round", cx - r, cy - r, Some(2.0 * r), Some(2.0 * r), Some(0.0), None, None, None)
  }

  /** Seat i (from 0) of a round table: at angle 360 i / n, facing outwards. */
  function RoundSeat(trig: Trig, cx: real, cy: real, tableId: string, n: nat, i: nat): ItemDict
    requires i < n
  {
    var angle := 360.0 * i as real / n as real;
    var (c, s) := trig(angle);
    var dist := RoundRadius(n) as real + 20.0;
    ItemDict(tableId + "-" + NatToString(i + 1), "seat", cx + c * dist - 15.0, cy + s * dist - 15.0,
             Some(SeatSize), Some(SeatSize), Some(angle + 90.0), Some(tableId), None, None)
  }

  /** The round table set: table first, then its n seats on a circle. */
  function RoundTableSet(trig: Trig, cx: real, cy: real, tableId: string, n: nat): (r: seq<ItemDict>)
    ensures |r| == n + 1
  {
    [RoundTable(cx, cy, tableId, n)] + seq(n, i requires 0 <= i < n => RoundSeat(trig, cx, cy, tableId, n, i))
  }

  lemma RoundTableSetAt(trig: Trig, cx: real, cy: real, tableId: string, n: nat, j: nat)
    requires 1 <= j <= n
    ensures RoundTableSet(trig, cx, cy, tableId, n)[j] == RoundSeat(trig, cx, cy, tableId, n, j - 1)
  {
  }

  /** A round table set holds the table, of side 2 max(25, 5 + 4n) and centred
      on (cx, cy), followed by its n seats, whose centres lie on the circle of
      radius RoundRadius(n) + 20 about (cx, cy). */
  lemma RoundTableSetShape(trig: Trig, cx: real, cy: real, tableId: string, n: nat)
    ensures var r := RoundTableSet(trig, cx, cy, tableId, n);
      && TableSetAt(r, 0, tableId, "table_round", n)
      && r[0].w == r[0].h == Some(2.0 * RoundRadius(n) as real) && RoundRadius(n) >= 25
      && r[0].x + r[0].w.value / 2.0 == cx && r[0].y + r[0].h.value / 2.0 == cy
  {
    var r := RoundTableSet(trig, cx, cy, tableId, n);
    forall j | 0 < j <= n
      ensures SeatOf(r[j], tableId, j)
    {
      RoundTableSetAt(trig, cx, cy, tableId, n, j);
    }
  }

  lemma RoundSeatOnCircle(trig: Trig, cx: real, cy: real, tableId: string, n: nat, j: nat)
    requires 1 <= j <= n
    ensures var r := RoundTableSet(trig, cx, cy, tableId, n);
      var (c, s) := trig(360.0 * (j - 1) as real / n as real);
      var dist := RoundRadius(n) as real + 20.0;
      r[j].x + SeatSize / 2.0 == cx + c * dist && r[j].y + SeatSize / 2.0 == cy + s * dist
      && r[j].rotation == Some(360.0 * (j - 1) as real / n as real + 90.0)
  {
    RoundTableSetAt(trig, cx, cy, tableId, n, j);
  }

  method GenerateRoundTableSet(trig: Trig, cx: real, cy: real, tableId: string, n: nat) returns (items: seq<ItemDict>)
    ensures items == RoundTableSet(trig, cx, cy, tableId, n)
  {
    items := [RoundTable(cx, cy, tableId, n)];
    var i := 0;
    while i < n
      invariant 0 <= i <= n
      invariant items == [RoundTable(cx, cy, tableId, n)] + seq(i, k requires 0 <= k < i => RoundSeat(trig, cx, cy, tableId, n, k))
    {
      items := items + [RoundSeat(trig, cx, cy, tableId, n, i)];
      i := i + 1;
    }
  }

  /** Seats per long side of a rectangular table: ceil(n / 2). */
  function SideSeats(n: nat): nat {
    (n + 1) / 2
  }

  function RectWidth(n: nat, square: bool): int {
    if square then Max(50, SideSeats(n) * SeatPitch + 10) else Max(70, SideSeats(n) * SeatPitch + 20)
  }

  function RectHeight(n: nat, square: bool): int {
    if square then RectWidth(n, square) else 60
  }

  function RectTable(cx: real, cy: real, tableId: string, n: nat, square: bool): ItemDict {
    var tw := RectWidth(n, square) as real;
    var th := RectHeight(n, square) as real;
    ItemDict(tableId, "table_rect", cx - tw / 2.0, cy - th / 2.0, Some(tw), Some(th), Some(0.0), None, None, None)
  }

  /** A seat of a rectangular table in column i (from 0), numbered num, either
      on the front side (above the table) or the back side (below it). */
  function RectSeat(cx: real, cy: real, tableId: string, n: nat, square: bool, i: nat, num: nat, front: bool): ItemDict {
    var tw := RectWidth(n, square) as real;
    var th := RectHeight(n, square) as real;
    var tx := cx - tw / 2.0;
    var ty := cy - th / 2.0;
    var spacing := tw / (SideSeats(n) + 1) as real;
    ItemDict(tableId + "-" + NatToString(num), "seat", tx + spacing * (i + 1) as real - SeatSize / 2.0,
             if front then ty - 32.0 else ty + th + 2.0,
             Some(SeatSize), Some(SeatSize), Some(if front then 0.0 else 180.0), Some(tableId), None, None)
  }

  function FrontSeats(cx: real, cy: real, tableId: string, n: nat, square: bool, count: nat): seq<ItemDict> {
    seq(count, i requires 0 <= i < count => RectSeat(cx, cy, tableId, n, square, i, i + 1, true))
  }

  function BackSeats(cx: real, cy: real, tableId: string, n: nat, square: bool, count: nat): seq<ItemDict> {
    seq(count, i requires 0 <= i < count => RectSeat(cx, cy, tableId, n, square, i, SideSeats(n) + i + 1, false))
  }

  /** The rectangular table set: the table, ceil(n/2) seats above it, then
      the remaining seats below it. */
  function RectTableSet(cx: real, cy: real, tableId: string, n: nat, square: bool): (r: seq<ItemDict>)
    ensures |r| == n + 1
  {
    var side := SideSeats(n);
    [RectTable(cx, cy, tableId, n, square)] + FrontSeats(cx, cy, tableId, n, square, side)
      + BackSeats(cx, cy, tableId, n, square, n - side)
  }

  /** Seat j sits in column j - 1 of the front side, or column j - ceil(n/2) - 1
      of the back side. */
  lemma RectTableSetAt(cx: real, cy: real, tableId: string, n: nat, square: bool, j: nat)
    requires 1 <= j <= n
    ensures var side := SideSeats(n);
      RectTableSet(cx, cy, tableId, n, square)[j]
      == if j <= side then RectSeat(cx, cy, tableId, n, square, j - 1, j, true)
         else RectSeat(cx, cy, tableId, n, square, j - side - 1, j, false)
  {
    var side := SideSeats(n);
    var f := FrontSeats(cx, cy, tableId, n, square, side);
    var b := BackSeats(cx, cy, tableId, n, square, n - side);
    var r := [RectTable(cx, cy, tableId, n, square)] + f + b;
    if j <= side {
      assert r[j] == f[j - 1];
    } else {
      assert r[j] == b[j - side - 1];
    }
  }

  /** A rectangular table set holds the table centred on (cx, cy) (square when
      asked), then seats 1..ceil(n/2) 32 units above its top edge facing it
      (rotation 0), then the other seats 2 units below its bottom edge
      (rotation 180). */
  lemma RectTableSetShape(cx: real, cy: real, tableId: string, n: nat, square: bool)
    ensures var r := RectTableSet(cx, cy, tableId, n, square);
      && TableSetAt(r, 0, tableId, "table_rect", n)
      && r[0].x + r[0].w.value / 2.0 == cx && r[0].y + r[0].h.value / 2.0 == cy
      && (square ==> r[0].w == r[0].h)
      && (forall j :: 1 <= j <= SideSeats(n) ==> r[j].y + 32.0 == r[0].y && r[j].rotation == Some(0.0))
      && (forall j :: SideSeats(n) < j <= n ==> r[j].y == r[0].y + r[0].h.value + 2.0 && r[j].rotation == Some(180.0))
  {
    var r := RectTableSet(cx, cy, tableId, n, square);
    forall j | 1 <= j <= n
      ensures SeatOf(r[j], tableId, j)
      ensures j <= SideSeats(n) ==> r[j].y + 32.0 == r[0].y && r[j].rotation == Some(0.0)
      ensures SideSeats(n) < j ==> r[j].y == r[0].y + r[0].h.value + 2.0 && r[j].rotation == Some(180.0)
    {
      RectTableSetAt(cx, cy, tableId, n, square, j);
    }
  }

  /** At most one seat more on the front side than on the back side. */
  lemma RectSidesBalanced(n: nat)
    ensures SideSeats(n) <= n && 0 <= SideSeats(n) - (n - SideSeats(n)) <= 1
  {
  }

  /** Every seat's horizontal centre lies strictly within the table's span. */
  lemma RectSeatsWithinTable(cx: real, cy: real, tableId: string, n: nat, square: bool, j: nat)
    requires 1 <= j <= n
    ensures var r := RectTableSet(cx, cy, tableId, n, square);
      r[0].x < r[j].x + SeatSize / 2.0 < r[0].x + r[0].w.value
  {
    var side := SideSeats(n);
    var r := RectTableSet(cx, cy, tableId, n, square);
    RectTableSetAt(cx, cy, tableId, n, square, j);
    assert r[0] == RectTable(cx, cy, tableId, n, square);
    if j <= side {
      RectSeatCentre(cx, cy, tableId, n, square, j - 1, j, true);
    } else {
      RectSeatCentre(cx, cy, tableId, n, square, j - side - 1, j, false);
    }
  }

  lemma RectSeatCentre(cx: real, cy: real, tableId: string, n: nat, square: bool, i: nat, num: nat, front: bool)
    requires i < SideSeats(n)
    ensures var t := RectTable(cx, cy, tableId, n, square);
      t.x < RectSeat(cx, cy, tableId, n, square, i, num, front).x + SeatSize / 2.0 < t.x + t.w.value
  {
    var tw := RectWidth(n, square) as real;
    assert tw >= 50.0;
    SpacedWithin(tw, SideSeats(n), i);
  }

  /** Column col of side columns spaced tw / (side + 1) apart lies inside (0, tw). */
  lemma SpacedWithin(tw: real, side: nat, col: nat)
    requires tw > 0.0 && col < side
    ensures 0.0 < tw / (side + 1) as real * (col + 1) as real < tw
  {
    var spacing := tw / (side + 1) as real;
    assert spacing > 0.0;
    assert spacing * (col + 1) as real <= spacing * side as real;
    assert spacing * (side + 1) as real == tw;
  }

  method GenerateRectTableSet(cx: real, cy: real, tableId: string, n: nat, square: bool) returns (items: seq<ItemDict>)
    ensures items == RectTableSet(cx, cy, tableId, n, square)
  {
    var side := SideSeats(n);
    var table := RectTable(cx, cy, tableId, n, square);
    items := [table];
    var i := 0;
    while i < side
      invariant 0 <= i <= side
      invariant items == [table] + FrontSeats(cx, cy, tableId, n, square, i)
    {
      if i + 1 <= n {
        items := items + [RectSeat(cx, cy, tableId, n, square, i, i + 1, true)];
      }
      i := i + 1;
    }
    ghost var front := items;
    i := 0;
    while i < side
      invariant 0 <= i <= side
      invariant items == front + BackSeats(cx, cy, tableId, n, square, if side + i <= n then i else n - side)
    {
      var seatNum := side + i + 1;
      if seatNum <= n {
        items := items + [RectSeat(cx, cy, tableId, n, square, i, seatNum, false)];
      }
      i := i + 1;
    }
  }

  /** The ids of a table set are pairwise distinct. */
  lemma TableSetIdsDistinct(items: seq<ItemDict>, k: nat, tableId: string, kind: string, n: nat, a: nat, b: nat)
    requires TableSetAt(items, k, tableId, kind, n)
    requires k <= a < b <= k + n
    ensures items[a].id != items[b].id
  {
    var sb := items[b].id;
    assert SeatOf(items[b], tableId, b - k);
    if a == k {
      assert |sb| > |tableId|;
    } else {
      assert SeatOf(items[a], tableId, a - k);
      var pre := tableId + "-";
      if items[a].id == sb {
        assert items[a].id[|pre|..] == NatToString(a - k);
        assert sb[|pre|..] == NatToString(b - k);
        NatToStringInjective(a - k, b - k);
      }
    }
  }

  // ---------------------------------------------------------------------
  // Seat blocks. Row r is named by the character r places after the start
  // row character; that character must exist.

  predicate RowCharsOk(startRow: char, rows: nat) {
    startRow as int + rows <= 0xD800 || (0xE000 <= startRow as int && startRow as int + rows <= 0x11_0000)
  }

  function RowChar(startRow: char, r: nat): char
    requires RowCharsOk(startRow, r + 1)
  {
    (startRow as int + r) as char
  }

  /** The label of a block seat: its row character followed by its column
      number. */
  function SeatLabel(startRow: char, r: nat, col: int): string
    requires RowCharsOk(startRow, r + 1)
  {
    [RowChar(startRow, r)] + IntToString(col)
  }

  /** Seat (r, c) of a block: id row character + column number, top-left
      corner 35 units per row and column from the block's corner. */
  function BlockSeat(sx: real, sy: real, startRow: char, startCol: int, r: nat, c: nat): ItemDict
    requires RowCharsOk(startRow, r + 1)
  {
    ItemDict(SeatLabel(startRow, r, startCol + c), "seat",
             sx + (SeatPitch * c) as real, sy + (SeatPitch * r) as real,
             Some(SeatSize), Some(SeatSize), Some(0.0), None, None, None)
  }

  function BlockRow(sx: real, sy: real, startRow: char, startCol: int, r: nat, cols: nat): (s: seq<ItemDict>)
    requires RowCharsOk(startRow, r + 1)
    ensures |s| == cols
  {
    seq(cols, c requires 0 <= c < cols => BlockSeat(sx, sy, startRow, startCol, r, c))
  }

  /** A block of rows x cols seats in row-major order. */
  function SeatBlock(sx: real, sy: real, rows: nat, cols: nat, startRow: char, startCol: int): (s: seq<ItemDict>)
    requires RowCharsOk(startRow, rows)
    decreases rows
  {
    if rows == 0 then []
    else SeatBlock(sx, sy, rows - 1, cols, startRow, startCol) + BlockRow(sx, sy, startRow, startCol, rows - 1, cols)
  }

  /** The row-major index r * cols + c of seat (r, c), written as repeated
      addition so that no product of two unknowns reaches the solver;
      RowMajorIsProduct gives the closed form. */
  function RowMajor(r: nat, cols: nat, c: nat): nat {
    if r == 0 then c else RowMajor(r - 1, cols, c) + cols
  }

  lemma {:induction false} RowMajorIsProduct(r: nat, cols: nat, c: nat)
    ensures RowMajor(r, cols, c) == r * cols + c
  {
    if r > 0 {
      RowMajorIsProduct(r - 1, cols, c);
      assert (r - 1) * cols + cols == r * cols;
    }
  }

  lemma {:induction false} RowMajorOffset(r: nat, cols: nat, c: nat)
    ensures RowMajor(r, cols, c) == RowMajor(r, cols, 0) + c
  {
    if r > 0 {
      RowMajorOffset(r - 1, cols, c);
    }
  }

  /** Seat (r, c) of a rows x cols block lies inside the block. */
  lemma {:induction false} RowMajorBound(r: nat, c: nat, rows: nat, cols: nat)
    requires r < rows && c < cols
    ensures RowMajor(r, cols, c) < RowMajor(rows, cols, 0)
  {
    RowMajorOffset(r, cols, c);
    if r < rows - 1 {
      RowMajorBound(r, c, rows - 1, cols);
    }
  }

  /** A block holds rows x cols seats. */
  lemma {:induction false} SeatBlockLength(sx: real, sy: real, rows: nat, cols: nat, startRow: char, startCol: int)
    requires RowCharsOk(startRow, rows)
    ensures |SeatBlock(sx, sy, rows, cols, startRow, startCol)| == RowMajor(rows, cols, 0)
    decreases rows
  {
    if rows > 0 {
      SeatBlockLength(sx, sy, rows - 1, cols, startRow, startCol);
    }
  }

  /** Seat (r, c) of a block is at index r * cols + c. */
  lemma {:induction false} SeatBlockAt(sx: real, sy: real, rows: nat, cols: nat, startRow: char, startCol: int, r: nat, c: nat)
    requires RowCharsOk(startRow, rows) && r < rows && c < cols
    ensures RowMajor(r, cols, c) < RowMajor(rows, cols, 0) == |SeatBlock(sx, sy, rows, cols, startRow, startCol)|
    ensures SeatBlock(sx, sy, rows, cols, startRow, startCol)[RowMajor(r, cols, c)] == BlockSeat(sx, sy, startRow, startCol, r, c)
    decreases rows
  {
    RowMajorBound(r, c, rows, cols);
    var prev := SeatBlock(sx, sy, rows - 1, cols, startRow, startCol);
    SeatBlockLength(sx, sy, rows - 1, cols, startRow, startCol);
    SeatBlockLength(sx, sy, rows, cols, startRow, startCol);
    if r < rows - 1 {
      SeatBlockAt(sx, sy, rows - 1, cols, startRow, startCol, r, c);
    } else {
      RowMajorOffset(r, cols, c);
      assert |prev| == RowMajor(r, cols, 0);
    }
  }

  /** Different seats of a block have different ids. */
  lemma BlockSeatIdsDistinct(sx: real, sy: real, rows: nat, startRow: char, startCol: int, r1: nat, c1: nat, r2: nat, c2: nat)
    requires RowCharsOk(startRow, rows) && r1 < rows && r2 < rows
    requires r1 != r2 || c1 != c2
    ensures BlockSeat(sx, sy, startRow, startCol, r1, c1).id != BlockSeat(sx, sy, startRow, startCol, r2, c2).id
  {
    var a := BlockSeat(sx, sy, startRow, startCol, r1, c1).id;
    var b := BlockSeat(sx, sy, startRow, startCol, r2, c2).id;
    if a == b {
      assert a[0] == b[0];
      assert a[1..] == IntToString(startCol + c1);
      assert b[1..] == IntToString(startCol + c2);
      IntToStringInjective(startCol + c1, startCol + c2);
    }
  }

  lemma BlockRowSnoc(sx: real, sy: real, startRow: char, startCol: int, r: nat, c: nat)
    requires RowCharsOk(startRow, r + 1)
    ensures BlockRow(sx, sy, startRow, startCol, r, c + 1)
         == BlockRow(sx, sy, startRow, startCol, r, c) + [BlockSeat(sx, sy, startRow, startCol, r, c)]
  {
  }

  method GenerateSeatBlock(sx: real, sy: real, rows: nat, cols: nat, startRow: char, startCol: int) returns (items: seq<ItemDict>)
    requires RowCharsOk(startRow, rows)
    ensures items == SeatBlock(sx, sy, rows, cols, startRow, startCol)
  {
    items := [];
    var r := 0;
    while r < rows
      invariant 0 <= r <= rows
      invariant items == SeatBlock(sx, sy, r, cols, startRow, startCol)
    {
      ghost var done := items;
      var c := 0;
      while c < cols
        invariant 0 <= c <= cols
        invariant items == done + BlockRow(sx, sy, startRow, startCol, r, c)
      {
        BlockRowSnoc(sx, sy, startRow, startCol, r, c);
        items := items + [BlockSeat(sx, sy, startRow, startCol, r, c)];
        c := c + 1;
      }
      assert items == SeatBlock(sx, sy, r + 1, cols, startRow, startCol);
      r := r + 1;
    }
  }

  // ---------------------------------------------------------------------
  // Bounding box and centring.

  function MinX(s: seq<ItemDict>): real
    requires |s| > 0
  {
    if |s| == 1 then s[0].x
    else
      var m := MinX(s[1..]);
      if s[0].x <= m then s[0].x else m
  }

  function MinY(s: seq<ItemDict>): real
    requires |s| > 0
  {
    if |s| == 1 then s[0].y
    else
      var m := MinY(s[1..]);
      if s[0].y <= m then s[0].y else m
  }

  /** The right and bottom edges; `center_layout` requires every element
      to have `w` and `h` (see CenterLayout). */
  function Right(item: ItemDict): real {
    item.x + item.w.GetOr(0.0)
  }

  function Bottom(item: ItemDict): real {
    item.y + item.h.GetOr(0.0)
  }

  function MaxRight(s: seq<ItemDict>): real
    requires |s| > 0
  {
    if |s| == 1 then Right(s[0])
    else
      var m := MaxRight(s[1..]);
      if Right(s[0]) >= m then Right(s[0]) else m
  }

  function MaxBottom(s: seq<ItemDict>): real
    requires |s| > 0
  {
    if |s| == 1 then Bottom(s[0])
    else
      var m := MaxBottom(s[1..]);
      if Bottom(s[0]) >= m then Bottom(s[0]) else m
  }

  /** MinX is the least left edge: no element lies further left, and some
      element lies exactly there. */
  lemma {:induction false} MinXIsLeast(s: seq<ItemDict>)
    requires |s| > 0
    ensures forall i :: 0 <= i < |s| ==> MinX(s) <= s[i].x
    ensures exists i :: 0 <= i < |s| && s[i].x == MinX(s)
  {
    if |s| > 1 {
      var t := s[1..];
      MinXIsLeast(t);
      assert forall i :: 1 <= i < |s| ==> t[i - 1] == s[i];
      var j :| 0 <= j < |t| && t[j].x == MinX(t);
      if s[0].x > MinX(t) {
        assert s[j + 1].x == MinX(s);
      }
    } else {
      assert s[0].x == MinX(s);
    }
  }

  lemma {:induction false} MinYIsLeast(s: seq<ItemDict>)
    requires |s| > 0
    ensures forall i :: 0 <= i < |s| ==> MinY(s) <= s[i].y
    ensures exists i :: 0 <= i < |s| && s[i].y == MinY(s)
  {
    if |s| > 1 {
      var t := s[1..];
      MinYIsLeast(t);
      assert forall i :: 1 <= i < |s| ==> t[i - 1] == s[i];
      var j :| 0 <= j < |t| && t[j].y == MinY(t);
      if s[0].y > MinY(t) {
        assert s[j + 1].y == MinY(s);
      }
    } else {
      assert s[0].y == MinY(s);
    }
  }

  lemma {:induction false} MaxRightIsGreatest(s: seq<ItemDict>)
    requires |s| > 0
    ensures forall i :: 0 <= i < |s| ==> Right(s[i]) <= MaxRight(s)
    ensures exists i :: 0 <= i < |s| && Right(s[i]) == MaxRight(s)
  {
    if |s| > 1 {
      var t := s[1..];
      MaxRightIsGreatest(t);
      assert forall i :: 1 <= i < |s| ==> t[i - 1] == s[i];
      var j :| 0 <= j < |t| && Right(t[j]) == MaxRight(t);
      if Right(s[0]) < MaxRight(t) {
        assert Right(s[j + 1]) == MaxRight(s);
      }
    } else {
      assert Right(s[0]) == MaxRight(s);
    }
  }

  lemma {:induction false} MaxBottomIsGreatest(s: seq<ItemDict>)
    requires |s| > 0
    ensures forall i :: 0 <= i < |s| ==> Bottom(s[i]) <= MaxBottom(s)
    ensures exists i :: 0 <= i < |s| && Bottom(s[i]) == MaxBottom(s)
  {
    if |s| > 1 {
      var t := s[1..];
      MaxBottomIsGreatest(t);
      assert forall i :: 1 <= i < |s| ==> t[i - 1] == s[i];
      var j :| 0 <= j < |t| && Bottom(t[j]) == MaxBottom(t);
      if Bottom(s[0]) < MaxBottom(t) {
        assert Bottom(s[j + 1]) == MaxBottom(s);
      }
    } else {
      assert Bottom(s[0]) == MaxBottom(s);
    }
  }

  function Moved(item: ItemDict, dx: real, dy: real): ItemDict {
    item.(x := item.x + dx, y := item.y + dy)
  }

  /** Every element moved by the same offset. */
  function Shift(s: seq<ItemDict>, dx: real, dy: real): (r: seq<ItemDict>)
    ensures |r| == |s|
  {
    seq(|s|, i requires 0 <= i < |s| => Moved(s[i], dx, dy))
  }

  /** Shifting moves the bounding box by the offset and keeps its size. */
  lemma ShiftBox(s: seq<ItemDict>, dx: real, dy: real)
    requires |s| > 0
    ensures var r := Shift(s, dx, dy);
      && MinX(r) == MinX(s) + dx && MinY(r) == MinY(s) + dy
      && MaxRight(r) == MaxRight(s) + dx && MaxBottom(r) == MaxBottom(s) + dy
  {
    ShiftMinX(s, dx, dy);
    ShiftMinY(s, dx, dy);
    ShiftMaxRight(s, dx, dy);
    ShiftMaxBottom(s, dx, dy);
  }

  lemma ShiftMinX(s: seq<ItemDict>, dx: real, dy: real)
    requires |s| > 0
    ensures MinX(Shift(s, dx, dy)) == MinX(s) + dx
  {
    var r := Shift(s, dx, dy);
    MinXIsLeast(s);
    MinXIsLeast(r);
    var i :| 0 <= i < |s| && s[i].x == MinX(s);
    var j :| 0 <= j < |r| && r[j].x == MinX(r);
    assert MinX(r) <= r[i].x == s[i].x + dx;
    assert MinX(s) <= s[j].x == r[j].x - dx;
  }

  lemma ShiftMinY(s: seq<ItemDict>, dx: real, dy: real)
    requires |s| > 0
    ensures MinY(Shift(s, dx, dy)) == MinY(s) + dy
  {
    var r := Shift(s, dx, dy);
    MinYIsLeast(s);
    MinYIsLeast(r);
    var i :| 0 <= i < |s| && s[i].y == MinY(s);
    var j :| 0 <= j < |r| && r[j].y == MinY(r);
    assert MinY(r) <= r[i].y == s[i].y + dy;
    assert MinY(s) <= s[j].y == r[j].y - dy;
  }

  lemma ShiftMaxRight(s: seq<ItemDict>, dx: real, dy: real)
    requires |s| > 0
    ensures MaxRight(Shift(s, dx, dy)) == MaxRight(s) + dx
  {
    var r := Shift(s, dx, dy);
    MaxRightIsGreatest(s);
    MaxRightIsGreatest(r);
    var i :| 0 <= i < |s| && Right(s[i]) == MaxRight(s);
    var j :| 0 <= j < |r| && Right(r[j]) == MaxRight(r);
    assert MaxRight(r) >= Right(r[i]) == Right(s[i]) + dx;
    assert MaxRight(s) >= Right(s[j]) == Right(r[j]) - dx;
  }

  lemma ShiftMaxBottom(s: seq<ItemDict>, dx: real, dy: real)
    requires |s| > 0
    ensures MaxBottom(Shift(s, dx, dy)) == MaxBottom(s) + dy
  {
    var r := Shift(s, dx, dy);
    MaxBottomIsGreatest(s);
    MaxBottomIsGreatest(r);
    var i :| 0 <= i < |s| && Bottom(s[i]) == MaxBottom(s);
    var j :| 0 <= j < |r| && Bottom(r[j]) == MaxBottom(r);
    assert MaxBottom(r) >= Bottom(r[i]) == Bottom(s[i]) + dy;
    assert MaxBottom(s) >= Bottom(s[j]) == Bottom(r[j]) - dy;
  }

  /** The offsets `center_layout` applies. */
  function CentreOffsetX(s: seq<ItemDict>, sceneW: real): real
    requires |s| > 0
  {
    (sceneW - (MaxRight(s) - MinX(s))) / 2.0 - MinX(s)
  }

  function CentreOffsetY(s: seq<ItemDict>, sceneH: real): real
    requires |s| > 0
  {
    (sceneH - (MaxBottom(s) - MinY(s))) / 2.0 - MinY(s)
  }

  function Centered(s: seq<ItemDict>, sceneW: real, sceneH: real): (r: seq<ItemDict>)
    ensures |r| == |s|
  {
    if |s| == 0 then s else Shift(s, CentreOffsetX(s, sceneW), CentreOffsetY(s, sceneH))
  }

  /** After centring, the margins left and right of the bounding box are
      equal, and so are those above and below it; the box keeps its size. */
  lemma CenteredBox(s: seq<ItemDict>, sceneW: real, sceneH: real)
    requires |s| > 0
    ensures var r := Centered(s, sceneW, sceneH);
      && MinX(r) == (sceneW - (MaxRight(s) - MinX(s))) / 2.0
      && MinY(r) == (sceneH - (MaxBottom(s) - MinY(s))) / 2.0
      && MaxRight(r) - MinX(r) == MaxRight(s) - MinX(s)
      && MaxBottom(r) - MinY(r) == MaxBottom(s) - MinY(s)
      && MinX(r) == sceneW - MaxRight(r) && MinY(r) == sceneH - MaxBottom(r)
  {
    ShiftBox(s, CentreOffsetX(s, sceneW), CentreOffsetY(s, sceneH));
  }

  /** Centring changes nothing but positions, all by one common offset (the
      first element's). */
  lemma CenteredKeepsRest(s: seq<ItemDict>, sceneW: real, sceneH: real)
    ensures var r := Centered(s, sceneW, sceneH);
      forall i :: 0 <= i < |s| ==> r[i] == Moved(s[i], r[0].x - s[0].x, r[0].y - s[0].y)
  {
  }

  /** `center_layout`: moves every element, in place, so that the group's
      bounding box is centred on a sceneW x sceneH canvas. */
  method CenterLayout(items: array<ItemDict>, sceneW: real, sceneH: real)
    requires HasSize(items[..])
    modifies items
    ensures items[..] == Centered(old(items[..]), sceneW, sceneH)
  {
    if items.Length == 0 {
      return;
    }
    ghost var s := items[..];
    var offX := CentreOffsetX(items[..], sceneW);
    var offY := CentreOffsetY(items[..], sceneH);
    var i := 0;
    while i < items.Length
      invariant 0 <= i <= items.Length
      invariant items[..i] == Shift(s, offX, offY)[..i]
      invariant items[i..] == s[i..]
    {
      items[i] := Moved(items[i], offX, offY);
      i := i + 1;
    }
    assert items[..] == items[..i];
  }

  // ---------------------------------------------------------------------
  // Group rotation.

  /** One element turned by angle degrees about (cx, cy): its centre moves
      along the circle and its own rotation advances by angle modulo 360. */
  function RotatedItem(trig: Trig, item: ItemDict, cx: real, cy: real, angle: real): (r: ItemDict)
    requires item.w.Some? && item.h.Some?
  {
    var w := item.w.value;
    var h := item.h.value;
    var (nx, ny) := RotatePoint(trig, cx, cy, item.x + w / 2.0, item.y + h / 2.0, angle);
    item.(x := nx - w / 2.0, y := ny - h / 2.0, rotation := Some(FloorMod(item.rotation.GetOr(0.0) + angle, 360.0)))
  }

  function RotatedGroup(trig: Trig, s: seq<ItemDict>, cx: real, cy: real, angle: real): (r: seq<ItemDict>)
    requires HasSize(s)
    ensures |r| == |s|
  {
    if angle == 0.0 then s
    else seq(|s|, i requires 0 <= i < |s| => RotatedItem(trig, s[i], cx, cy, angle))
  }

  /** Rotation by 0 leaves the group alone; otherwise each element keeps
      everything but its position and rotation, and its new rotation is the
      old one (0 when absent) plus angle, reduced into [0, 360). */
  lemma RotatedGroupFields(trig: Trig, s: seq<ItemDict>, cx: real, cy: real, angle: real, i: nat)
    requires HasSize(s) && i < |s| && angle != 0.0
    ensures var e := RotatedGroup(trig, s, cx, cy, angle)[i];
      && e.(x := s[i].x, y := s[i].y, rotation := s[i].rotation) == s[i]
      && e.rotation.Some? && 0.0 <= e.rotation.value < 360.0
      && IsWhole((s[i].rotation.GetOr(0.0) + angle - e.rotation.value) / 360.0)
  {
  }

  /** An element centred on the rotation centre stays where it is. */
  lemma RotateAboutOwnCentre(trig: Trig, item: ItemDict, angle: real)
    requires item.w.Some? && item.h.Some?
    ensures var cx := item.x + item.w.value / 2.0;
      var cy := item.y + item.h.value / 2.0;
      var r := RotatedItem(trig, item, cx, cy, angle);
      r.x == item.x && r.y == item.y
  {
  }

  /** `apply_rotation_to_group`: turns every element, in place, about (cx, cy). */
  method ApplyRotationToGroup(trig: Trig, items: array<ItemDict>, cx: real, cy: real, angle: real)
    requires HasSize(items[..])
    modifies items
    ensures items[..] == RotatedGroup(trig, old(items[..]), cx, cy, angle)
  {
    if angle == 0.0 {
      return;
    }
    ghost var s := items[..];
    var i := 0;
    while i < items.Length
      invariant 0 <= i <= items.Length
      invariant items[..i] == RotatedGroup(trig, s, cx, cy, angle)[..i]
      invariant items[i..] == s[i..]
    {
      items[i] := RotatedItem(trig, items[i], cx, cy, angle);
      i := i + 1;
    }
    assert items[..] == items[..i];
  }

  // ---------------------------------------------------------------------
  // Templates.

  lemma HasSizeConcat(a: seq<ItemDict>, b: seq<ItemDict>)
    ensures HasSize(a + b) <==> HasSize(a) && HasSize(b)
  {
    if HasSize(a) && HasSize(b) {
      forall i | 0 <= i < |a + b|
        ensures (a + b)[i].w.Some? && (a + b)[i].h.Some?
      {
        if i < |a| {
          assert (a + b)[i] == a[i];
        } else {
          assert (a + b)[i] == b[i - |a|];
        }
      }
    }
    if HasSize(a + b) {
      assert forall i :: 0 <= i < |a| ==> (a + b)[i] == a[i];
      assert forall i :: 0 <= i < |b| ==> (a + b)[|a| + i] == b[i];
    }
  }

  /** The parts laid end to end, as repeated `items.extend` calls build them. */
  function Flatten(parts: seq<seq<ItemDict>>): seq<ItemDict> {
    if parts == [] then [] else Flatten(parts[..|parts| - 1]) + parts[|parts| - 1]
  }

  lemma {:induction false} FlattenHasSize(parts: seq<seq<ItemDict>>)
    requires forall i :: 0 <= i < |parts| ==> HasSize(parts[i])
    ensures HasSize(Flatten(parts))
  {
    if parts != [] {
      FlattenHasSize(parts[..|parts| - 1]);
      HasSizeConcat(Flatten(parts[..|parts| - 1]), parts[|parts| - 1]);
    }
  }

  lemma FlattenSnoc(parts: seq<seq<ItemDict>>, i: nat)
    requires i < |parts|
    ensures Flatten(parts[..i + 1]) == Flatten(parts[..i]) + parts[i]
  {
    assert parts[..i + 1][..i] == parts[..i];
  }

  /** Parts of m elements each give |parts| m elements. */
  lemma {:induction false} FlattenLength(parts: seq<seq<ItemDict>>, m: nat)
    requires forall i :: 0 <= i < |parts| ==> |parts[i]| == m
    ensures |Flatten(parts)| == RowMajor(|parts|, m, 0)
  {
    if parts != [] {
      FlattenLength(parts[..|parts| - 1], m);
    }
  }

  /** Element i of part j sits at index j m + i once parts of m elements
      are laid end to end. */
  lemma {:induction false} FlattenAt(parts: seq<seq<ItemDict>>, m: nat, j: nat, i: nat)
    requires forall k :: 0 <= k < |parts| ==> |parts[k]| == m
    requires j < |parts| && i < m
    ensures RowMajor(j, m, 0) + i < |Flatten(parts)| && Flatten(parts)[RowMajor(j, m, 0) + i] == parts[j][i]
  {
    var init := parts[..|parts| - 1];
    assert Flatten(parts) == Flatten(init) + parts[|parts| - 1];
    FlattenLength(init, m);
    if j < |init| {
      FlattenAt(init, m, j, i);
    }
  }

  /** Table sets "<prefix>1", "<prefix>2", ... of n seats each, laid end to
      end: set j starts at index j (n + 1). */
  lemma {:induction false} FlattenTableSets(parts: seq<seq<ItemDict>>, prefix: string, kind: string, n: nat, j: nat)
    requires forall i :: 0 <= i < |parts| ==> |parts[i]| == n + 1
    requires forall i :: 0 <= i < |parts| ==> TableSetAt(parts[i], 0, prefix + NatToString(i + 1), kind, n)
    requires j < |parts|
    ensures TableSetAt(Flatten(parts), RowMajor(j, n + 1, 0), prefix + NatToString(j + 1), kind, n)
  {
    var init := parts[..|parts| - 1];
    var last := parts[|parts| - 1];
    var k := RowMajor(j, n + 1, 0);
    assert Flatten(parts) == Flatten(init) + last;
    if j < |parts| - 1 {
      FlattenTableSets(init, prefix, kind, n, j);
      TableSetAtAppend(Flatten(init), last, k, prefix + NatToString(j + 1), kind, n);
    } else {
      FlattenLength(init, n + 1);
      TableSetAtPrepend(Flatten(init), last, 0, prefix + NatToString(j + 1), kind, n);
    }
  }

  /** A table set keeps its place when elements are added after it. */
  lemma TableSetAtAppend(s: seq<ItemDict>, t: seq<ItemDict>, k: nat, tableId: string, kind: string, n: nat)
    requires TableSetAt(s, k, tableId, kind, n)
    ensures TableSetAt(s + t, k, tableId, kind, n)
  {
    assert forall i :: 0 <= i < |s| ==> (s + t)[i] == s[i];
  }

  /** A table set moves up by |s| when s is put in front of it. */
  lemma TableSetAtPrepend(s: seq<ItemDict>, t: seq<ItemDict>, k: nat, tableId: string, kind: string, n: nat)
    requires TableSetAt(t, k, tableId, kind, n)
    ensures TableSetAt(s + t, |s| + k, tableId, kind, n)
  {
    var r := s + t;
    assert forall i :: 0 <= i < |t| ==> r[|s| + i] == t[i];
    forall j | |s| + k < j <= |s| + k + n
      ensures SeatOf(r[j], tableId, j - (|s| + k))
    {
      assert r[j] == t[j - |s|];
    }
  }

  /** Centring keeps table sets: they only move. */
  lemma TableSetAtCentered(s: seq<ItemDict>, k: nat, tableId: string, kind: string, n: nat)
    requires TableSetAt(s, k, tableId, kind, n)
    ensures TableSetAt(Centered(s, LogicalWidth, LogicalHeight), k, tableId, kind, n)
  {
    CenteredKeepsRest(s, LogicalWidth, LogicalHeight);
  }

  /** The bounding box has equal margins on both sides of the canvas. */
  predicate CentredOnCanvas(s: seq<ItemDict>) {
    |s| > 0
    && MinX(s) == LogicalWidth - MaxRight(s) && MinY(s) == LogicalHeight - MaxBottom(s)
  }

  /** `center_layout` on the logical canvas: the result is centred and each
      element only moved. */
  lemma CenteredOnCanvas(s: seq<ItemDict>)
    requires |s| > 0
    ensures CentredOnCanvas(Centered(s, LogicalWidth, LogicalHeight))
  {
    CenteredBox(s, LogicalWidth, LogicalHeight);
  }

  lemma CenteredId(s: seq<ItemDict>, i: nat)
    requires i < |s|
    ensures var r := Centered(s, LogicalWidth, LogicalHeight);
      r[i].id == s[i].id && r[i].kind == s[i].kind && r[i].rotation == s[i].rotation
  {
    CenteredKeepsRest(s, LogicalWidth, LogicalHeight);
  }

  // Cinema: a screen, two blocks of seats with an aisle, an entrance.

  function CinemaWidth(colsPerSide: nat): real {
    ((colsPerSide * SeatPitch - 5) * 2 + 60) as real
  }

  function CinemaScreen(colsPerSide: nat): seq<ItemDict> {
    var totalWidth := CinemaWidth(colsPerSide);
    GenerateDecor(totalWidth / 2.0, 0.0, "decor_screen", totalWidth * 0.8, 20.0, "ECRAN", 0.0)
  }

  function CinemaEntrance(rows: nat, colsPerSide: nat): seq<ItemDict> {
    GenerateDecor(CinemaWidth(colsPerSide) / 2.0, (100 + rows * 40 + 50) as real, "decor_generic", 120.0, 40.0, "INTRARE", 0.0)
  }

  /** The right block starts one block width plus a 60-unit aisle to the right. */
  function CinemaRightX(colsPerSide: nat): real {
    (colsPerSide * SeatPitch - 5 + 60) as real
  }

  function CinemaItems(rows: nat, colsPerSide: nat): seq<ItemDict>
    requires RowCharsOk('A', rows)
  {
    CinemaScreen(colsPerSide)
    + SeatBlock(0.0, 100.0, rows, colsPerSide, 'A', 1)
    + SeatBlock(CinemaRightX(colsPerSide), 100.0, rows, colsPerSide, 'A', colsPerSide + 1)
    + CinemaEntrance(rows, colsPerSide)
  }

  /** `create_cinema_template`. */
  function CinemaTemplate(rows: nat, colsPerSide: nat): seq<ItemDict>
    requires RowCharsOk('A', rows)
  {
    Centered(CinemaItems(rows, colsPerSide), LogicalWidth, LogicalHeight)
  }

  // ---------------------------------------------------------------------
  // What a template holds, stated through its ids and its seat count.

  /** The ids of the elements, in order. */
  function Ids(s: seq<ItemDict>): (r: seq<string>)
    ensures |r| == |s|
  {
    if |s| == 0 then [] else [s[0].id] + Ids(s[1..])
  }

  lemma {:induction false} IdsAt(s: seq<ItemDict>, i: nat)
    requires i < |s|
    ensures Ids(s)[i] == s[i].id
  {
    if i > 0 {
      IdsAt(s[1..], i - 1);
    }
  }

  /** Ids are fixed element by element. */
  lemma IdsPointwise(s: seq<ItemDict>, ids: seq<string>)
    requires |s| == |ids| && forall i :: 0 <= i < |s| ==> s[i].id == ids[i]
    ensures Ids(s) == ids
  {
    forall i | 0 <= i < |s|
      ensures Ids(s)[i] == ids[i]
    {
      IdsAt(s, i);
    }
  }

  lemma {:induction false} IdsConcat(a: seq<ItemDict>, b: seq<ItemDict>)
    ensures Ids(a + b) == Ids(a) + Ids(b)
  {
    if |a| == 0 {
      assert a + b == b;
    } else {
      assert (a + b)[1..] == a[1..] + b;
      IdsConcat(a[1..], b);
    }
  }

  lemma DecorIds(x: real, y: real, kind: string, w: real, h: real, caption: string, rotation: real)
    ensures Ids(GenerateDecor(x, y, kind, w, h, caption, rotation)) == ["D-" + caption]
  {
    IdsPointwise(GenerateDecor(x, y, kind, w, h, caption, rotation), ["D-" + caption]);
  }

  /** Centring keeps every id in its place. */
  lemma IdsCentered(s: seq<ItemDict>)
    ensures Ids(Centered(s, LogicalWidth, LogicalHeight)) == Ids(s)
  {
    var r := Centered(s, LogicalWidth, LogicalHeight);
    forall i | 0 <= i < |s|
      ensures r[i].id == Ids(s)[i]
    {
      CenteredId(s, i);
      IdsAt(s, i);
    }
    IdsPointwise(r, Ids(s));
  }

  /** Centring keeps every element's kind, so the seat count. */
  lemma SeatCountCentered(s: seq<ItemDict>)
    ensures SeatCount(Centered(s, LogicalWidth, LogicalHeight)) == SeatCount(s)
  {
    var r := Centered(s, LogicalWidth, LogicalHeight);
    forall i | 0 <= i < |s|
      ensures r[i].kind == s[i].kind
    {
      CenteredId(s, i);
    }
    SeatCountSameKinds(r, s);
  }

  /** The labels of a block's seats, row by row: an independent statement
      of the ids `generate_seat_block` gives. */
  function BlockLabels(startRow: char, rows: nat, cols: nat, startCol: int): seq<string>
    requires RowCharsOk(startRow, rows)
  {
    if rows == 0 then [] else BlockLabels(startRow, rows - 1, cols, startCol) + RowLabels(startRow, rows - 1, cols, startCol)
  }

  /** The labels of row r: the row letter, then the column numbers from startCol. */
  function RowLabels(startRow: char, r: nat, cols: nat, startCol: int): seq<string>
    requires RowCharsOk(startRow, r + 1)
  {
    seq(cols, c requires 0 <= c < cols => SeatLabel(startRow, r, startCol + c))
  }

  lemma BlockRowIds(sx: real, sy: real, startRow: char, startCol: int, r: nat, cols: nat)
    requires RowCharsOk(startRow, r + 1)
    ensures Ids(BlockRow(sx, sy, startRow, startCol, r, cols)) == RowLabels(startRow, r, cols, startCol)
  {
    IdsPointwise(BlockRow(sx, sy, startRow, startCol, r, cols), RowLabels(startRow, r, cols, startCol));
  }

  lemma {:induction false} SeatBlockIds(sx: real, sy: real, rows: nat, cols: nat, startRow: char, startCol: int)
    requires RowCharsOk(startRow, rows)
    ensures Ids(SeatBlock(sx, sy, rows, cols, startRow, startCol)) == BlockLabels(startRow, rows, cols, startCol)
  {
    if rows > 0 {
      var prev := SeatBlock(sx, sy, rows - 1, cols, startRow, startCol);
      var row := BlockRow(sx, sy, startRow, startCol, rows - 1, cols);
      calc {
        Ids(SeatBlock(sx, sy, rows, cols, startRow, startCol));
        Ids(prev + row);
        { IdsConcat(prev, row); }
        Ids(prev) + Ids(row);
        { SeatBlockIds(sx, sy, rows - 1, cols, startRow, startCol);
          BlockRowIds(sx, sy, startRow, startCol, rows - 1, cols); }
        BlockLabels(startRow, rows - 1, cols, startCol) + RowLabels(startRow, rows - 1, cols, startCol);
      }
    }
  }

  /** Label (r, c) is at index r cols + c of rows x cols labels. */
  lemma BlockLabelsAt(startRow: char, rows: nat, cols: nat, startCol: int, r: nat, c: nat)
    requires RowCharsOk(startRow, rows) && r < rows && c < cols
    ensures var ls := BlockLabels(startRow, rows, cols, startCol);
      && |ls| == RowMajor(rows, cols, 0) && RowMajor(r, cols, c) < |ls|
      && ls[RowMajor(r, cols, c)] == SeatLabel(startRow, r, startCol + c)
  {
    SeatBlockIds(0.0, 0.0, rows, cols, startRow, startCol);
    SeatBlockAt(0.0, 0.0, rows, cols, startRow, startCol, r, c);
    IdsAt(SeatBlock(0.0, 0.0, rows, cols, startRow, startCol), RowMajor(r, cols, c));
  }

  /** Every element of a block is a seat. */
  lemma {:induction false} SeatBlockSeatCount(sx: real, sy: real, rows: nat, cols: nat, startRow: char, startCol: int)
    requires RowCharsOk(startRow, rows)
    ensures SeatCount(SeatBlock(sx, sy, rows, cols, startRow, startCol)) == RowMajor(rows, cols, 0)
  {
    if rows > 0 {
      SeatBlockSeatCount(sx, sy, rows - 1, cols, startRow, startCol);
      var row := BlockRow(sx, sy, startRow, startCol, rows - 1, cols);
      SeatCountConcat(SeatBlock(sx, sy, rows - 1, cols, startRow, startCol), row);
      SeatCountAllSeats(row);
    }
  }

  /** Four parts laid end to end: their ids and seat counts add up. */
  lemma Parts4(a: seq<ItemDict>, b: seq<ItemDict>, c: seq<ItemDict>, d: seq<ItemDict>)
    ensures Ids(a + b + c + d) == Ids(a) + Ids(b) + Ids(c) + Ids(d)
    ensures SeatCount(a + b + c + d) == SeatCount(a) + SeatCount(b) + SeatCount(c) + SeatCount(d)
  {
    IdsConcat(a, b);
    IdsConcat(a + b, c);
    IdsConcat(a + b + c, d);
    SeatCountConcat(a, b);
    SeatCountConcat(a + b, c);
    SeatCountConcat(a + b + c, d);
  }

  /** Four parts laid end to end and centred: lengths and seat counts add up. */
  lemma CentredPartsSeats(a: seq<ItemDict>, b: seq<ItemDict>, c: seq<ItemDict>, d: seq<ItemDict>)
    ensures var t := Centered(a + b + c + d, LogicalWidth, LogicalHeight);
      && |t| == |a| + |b| + |c| + |d|
      && SeatCount(t) == SeatCount(a) + SeatCount(b) + SeatCount(c) + SeatCount(d)
  {
    SeatCountCentered(a + b + c + d);
    Parts4(a, b, c, d);
  }

  /** The cinema lays out the screen, the left block, the right block and
      the entrance; both blocks name their rows A, B, ...; the left block
      numbers its columns from 1, the right block from cols + 1. */
  lemma CinemaDecor(rows: nat, colsPerSide: nat)
    ensures Ids(CinemaScreen(colsPerSide)) == ["D-ECRAN"]
    ensures Ids(CinemaEntrance(rows, colsPerSide)) == ["D-INTRARE"]
    ensures SeatCount(CinemaScreen(colsPerSide)) == 0 && SeatCount(CinemaEntrance(rows, colsPerSide)) == 0
  {
    IdsPointwise(CinemaScreen(colsPerSide), ["D-ECRAN"]);
    IdsPointwise(CinemaEntrance(rows, colsPerSide), ["D-INTRARE"]);
    SeatCountNoSeats(CinemaScreen(colsPerSide));
    SeatCountNoSeats(CinemaEntrance(rows, colsPerSide));
  }

  lemma CinemaItemsIds(rows: nat, colsPerSide: nat)
    requires RowCharsOk('A', rows)
    ensures Ids(CinemaItems(rows, colsPerSide))
      == ["D-ECRAN"] + BlockLabels('A', rows, colsPerSide, 1) + BlockLabels('A', rows, colsPerSide, colsPerSide + 1) + ["D-INTRARE"]
  {
    CinemaDecor(rows, colsPerSide);
    SeatBlockIds(0.0, 100.0, rows, colsPerSide, 'A', 1);
    SeatBlockIds(CinemaRightX(colsPerSide), 100.0, rows, colsPerSide, 'A', colsPerSide + 1);
    Parts4(CinemaScreen(colsPerSide), SeatBlock(0.0, 100.0, rows, colsPerSide, 'A', 1),
           SeatBlock(CinemaRightX(colsPerSide), 100.0, rows, colsPerSide, 'A', colsPerSide + 1),
           CinemaEntrance(rows, colsPerSide));
  }

  /** Centring the cinema keeps the ids of CinemaItemsIds. */
  lemma CinemaIds(rows: nat, colsPerSide: nat)
    requires RowCharsOk('A', rows)
    ensures Ids(CinemaTemplate(rows, colsPerSide))
      == ["D-ECRAN"] + BlockLabels('A', rows, colsPerSide, 1) + BlockLabels('A', rows, colsPerSide, colsPerSide + 1) + ["D-INTRARE"]
  {
    CinemaItemsIds(rows, colsPerSide);
    IdsCentered(CinemaItems(rows, colsPerSide));
  }

  /** The cinema is centred on the canvas. */
  lemma CinemaCentred(rows: nat, colsPerSide: nat)
    requires RowCharsOk('A', rows)
    ensures CentredOnCanvas(CinemaTemplate(rows, colsPerSide))
  {
    CenteredOnCanvas(CinemaItems(rows, colsPerSide));
  }

  /** Two decor pieces and 2 rows cols seats. */
  lemma CinemaSeats(rows: nat, colsPerSide: nat)
    requires RowCharsOk('A', rows)
    ensures var t := CinemaTemplate(rows, colsPerSide);
      |t| == 2 + 2 * (rows * colsPerSide) && SeatCount(t) == 2 * (rows * colsPerSide)
  {
    SeatBlockSeatCount(0.0, 100.0, rows, colsPerSide, 'A', 1);
    SeatBlockSeatCount(CinemaRightX(colsPerSide), 100.0, rows, colsPerSide, 'A', colsPerSide + 1);
    SeatBlockLength(0.0, 100.0, rows, colsPerSide, 'A', 1);
    SeatBlockLength(CinemaRightX(colsPerSide), 100.0, rows, colsPerSide, 'A', colsPerSide + 1);
    CinemaDecor(rows, colsPerSide);
    CentredPartsSeats(CinemaScreen(colsPerSide), SeatBlock(0.0, 100.0, rows, colsPerSide, 'A', 1),
                      SeatBlock(CinemaRightX(colsPerSide), 100.0, rows, colsPerSide, 'A', colsPerSide + 1),
                      CinemaEntrance(rows, colsPerSide));
    RowMajorIsProduct(rows, colsPerSide, 0);
  }

  // Conference: stage and presidium, two blocks of rows x colsSide seats,
  // two angled projection screens, an entrance. The template uses 10 rows
  // of 8 seats a side.

  const ConferenceRows: nat := 10
  const ConferenceCols: nat := 8

  function ConferenceHead(): seq<ItemDict> {
    GenerateDecor(500.0, 0.0, "decor_stage", 600.0, 100.0, "SCENA", 0.0)
    + GenerateDecor(500.0, 20.0, "decor_generic", 400.0, 40.0, "PREZIDIU", 0.0)
  }

  /** The two screens, angled 20 degrees either way, and the entrance below
      the rows. */
  function ConferenceTail(rows: nat): seq<ItemDict> {
    GenerateDecor(50.0, 50.0, "decor_screen", 150.0, 10.0, "ECRAN S", 20.0)
    + GenerateDecor(950.0, 50.0, "decor_screen", 150.0, 10.0, "ECRAN D", -20.0)
    + GenerateDecor(500.0, (180 + rows * 40 + 50) as real, "decor_generic", 120.0, 40.0, "INTRARE", 0.0)
  }

  function ConferenceItems(rows: nat, colsSide: nat): seq<ItemDict>
    requires RowCharsOk('A', rows)
  {
    ConferenceHead()
    + SeatBlock(100.0, 180.0, rows, colsSide, 'A', 1)
    + SeatBlock((100 + colsSide * SeatPitch + 60) as real, 180.0, rows, colsSide, 'A', colsSide + 1)
    + ConferenceTail(rows)
  }

  /** `create_conference_template`. */
  function ConferenceTemplate(): seq<ItemDict> {
    Centered(ConferenceItems(ConferenceRows, ConferenceCols), LogicalWidth, LogicalHeight)
  }

  lemma ConferenceDecor(rows: nat)
    ensures Ids(ConferenceHead()) == ["D-SCENA", "D-PREZIDIU"]
    ensures Ids(ConferenceTail(rows)) == ["D-ECRAN S", "D-ECRAN D", "D-INTRARE"]
    ensures SeatCount(ConferenceHead()) == 0 && SeatCount(ConferenceTail(rows)) == 0
  {
    IdsPointwise(ConferenceHead(), ["D-SCENA", "D-PREZIDIU"]);
    IdsPointwise(ConferenceTail(rows), ["D-ECRAN S", "D-ECRAN D", "D-INTRARE"]);
    SeatCountNoSeats(ConferenceHead());
    SeatCountNoSeats(ConferenceTail(rows));
  }

  /** Stage and presidium, the left block (columns 1..colsSide), the right
      block (from colsSide + 1), then the two screens and the entrance. */
  lemma ConferenceItemsIds(rows: nat, colsSide: nat)
    requires RowCharsOk('A', rows)
    ensures Ids(ConferenceItems(rows, colsSide))
      == ["D-SCENA", "D-PREZIDIU"] + BlockLabels('A', rows, colsSide, 1)
         + BlockLabels('A', rows, colsSide, colsSide + 1) + ["D-ECRAN S", "D-ECRAN D", "D-INTRARE"]
  {
    var rightX := (100 + colsSide * SeatPitch + 60) as real;
    Parts4(ConferenceHead(), SeatBlock(100.0, 180.0, rows, colsSide, 'A', 1),
           SeatBlock(rightX, 180.0, rows, colsSide, 'A', colsSide + 1), ConferenceTail(rows));
    ConferenceDecor(rows);
    SeatBlockIds(100.0, 180.0, rows, colsSide, 'A', 1);
    SeatBlockIds(rightX, 180.0, rows, colsSide, 'A', colsSide + 1);
  }

  /** Five decor pieces and 2 rows colsSide seats. */
  lemma ConferenceItemsSeats(rows: nat, colsSide: nat)
    requires RowCharsOk('A', rows)
    ensures var s := ConferenceItems(rows, colsSide);
      |s| == 5 + 2 * RowMajor(rows, colsSide, 0) && SeatCount(s) == 2 * RowMajor(rows, colsSide, 0)
  {
    var rightX := (100 + colsSide * SeatPitch + 60) as real;
    Parts4(ConferenceHead(), SeatBlock(100.0, 180.0, rows, colsSide, 'A', 1),
           SeatBlock(rightX, 180.0, rows, colsSide, 'A', colsSide + 1), ConferenceTail(rows));
    ConferenceDecor(rows);
    SeatBlockSeatCount(100.0, 180.0, rows, colsSide, 'A', 1);
    SeatBlockSeatCount(rightX, 180.0, rows, colsSide, 'A', colsSide + 1);
    SeatBlockLength(100.0, 180.0, rows, colsSide, 'A', 1);
    SeatBlockLength(rightX, 180.0, rows, colsSide, 'A', colsSide + 1);
  }

  /** The conference hall's rows are A..J; its left block numbers its
      columns 1..8, its right block 9..16. */
  lemma ConferenceIds()
    ensures Ids(ConferenceTemplate())
      == ["D-SCENA", "D-PREZIDIU"] + BlockLabels('A', 10, 8, 1) + BlockLabels('A', 10, 8, 9)
         + ["D-ECRAN S", "D-ECRAN D", "D-INTRARE"]
  {
    ConferenceItemsIds(ConferenceRows, ConferenceCols);
    IdsCentered(ConferenceItems(ConferenceRows, ConferenceCols));
  }

  /** 165 elements of which 160 seats. */
  lemma ConferenceSeats()
    ensures |ConferenceTemplate()| == 165 && SeatCount(ConferenceTemplate()) == 160
  {
    ConferenceItemsSeats(ConferenceRows, ConferenceCols);
    RowMajorIsProduct(ConferenceRows, ConferenceCols, 0);
    SeatCountCentered(ConferenceItems(ConferenceRows, ConferenceCols));
  }

  lemma ConferenceCentred()
    ensures CentredOnCanvas(ConferenceTemplate())
  {
    CenteredOnCanvas(ConferenceItems(ConferenceRows, ConferenceCols));
  }

  // Table-set element sizes, needed by `center_layout`.

  lemma RoundTableSetHasSize(trig: Trig, cx: real, cy: real, tableId: string, n: nat)
    ensures HasSize(RoundTableSet(trig, cx, cy, tableId, n))
  {
    var r := RoundTableSet(trig, cx, cy, tableId, n);
    forall j | 1 <= j <= n
      ensures r[j].w.Some? && r[j].h.Some?
    {
      RoundTableSetAt(trig, cx, cy, tableId, n, j);
    }
  }

  lemma RectTableSetHasSize(cx: real, cy: real, tableId: string, n: nat, square: bool)
    ensures HasSize(RectTableSet(cx, cy, tableId, n, square))
  {
    var r := RectTableSet(cx, cy, tableId, n, square);
    forall j | 1 <= j <= n
      ensures r[j].w.Some? && r[j].h.Some?
    {
      RectTableSetAt(cx, cy, tableId, n, square, j);
    }
  }

  /** Copies a sequence into a fresh array, for the in-place operations. */
  method ToArray(s: seq<ItemDict>) returns (a: array<ItemDict>)
    ensures fresh(a) && a[..] == s
  {
    a := new ItemDict[|s|](i requires 0 <= i < |s| => s[i]);
  }

  // Wedding: stage, DJ and dance floor, the couple's rectangular table, 12
  // large or 6 small round guest tables, then bar, buffet and entrance.

  function WeddingPositions(large: bool): seq<(real, real)> {
    if large then
      [(200.0, 100.0), (450.0, 100.0), (1350.0, 100.0), (1600.0, 100.0),
       (200.0, 350.0), (450.0, 350.0), (1350.0, 350.0), (1600.0, 350.0),
       (200.0, 600.0), (450.0, 600.0), (1350.0, 600.0), (1600.0, 600.0)]
    else
      [(300.0, 200.0), (1300.0, 200.0),
       (300.0, 450.0), (1300.0, 450.0),
       (300.0, 700.0), (1300.0, 700.0)]
  }

  function WeddingGuestSeats(size: string): nat {
    if size == "large" then 10 else 8
  }

  /** Guest table i is "M<i+1>" at the i-th position. */
  function WeddingTables(trig: Trig, size: string): seq<seq<ItemDict>> {
    var p := WeddingPositions(size == "large");
    seq(|p|, i requires 0 <= i < |p| =>
      RoundTableSet(trig, p[i].0, p[i].1, "M" + NatToString(i + 1), WeddingGuestSeats(size)))
  }

  function WeddingHead(): seq<ItemDict> {
    GenerateDecor(800.0, 0.0, "decor_stage", 400.0, 100.0, "SCENA LIVE", 0.0)
    + GenerateDecor(1100.0, 50.0, "decor_generic", 100.0, 60.0, "DJ", 0.0)
    + GenerateDecor(800.0, 250.0, "decor_generic", 400.0, 300.0, "DANCE FLOOR", 0.0)
    + RectTableSet(800.0, 600.0, "M_MIRI", 4, false)
  }

  function WeddingTail(): seq<ItemDict> {
    GenerateDecor(100.0, 800.0, "decor_bar", 200.0, 60.0, "BAR", 0.0)
    + GenerateDecor(1500.0, 800.0, "decor_generic", 250.0, 60.0, "BUFET SUEDEZ", 0.0)
    + GenerateDecor(800.0, 850.0, "decor_generic", 150.0, 50.0, "INTRARE", 0.0)
  }

  function WeddingItems(trig: Trig, size: string): seq<ItemDict> {
    WeddingHead() + Flatten(WeddingTables(trig, size)) + WeddingTail()
  }

  /** `create_wedding_template`. */
  function WeddingTemplate(trig: Trig, size: string): seq<ItemDict> {
    Centered(WeddingItems(trig, size), LogicalWidth, LogicalHeight)
  }

  lemma WeddingHeadShape()
    ensures |WeddingHead()| == 8 && HasSize(WeddingHead())
    ensures TableSetAt(WeddingHead(), 3, "M_MIRI", "table_rect", 4)
  {
    var d := GenerateDecor(800.0, 0.0, "decor_stage", 400.0, 100.0, "SCENA LIVE", 0.0)
      + GenerateDecor(1100.0, 50.0, "decor_generic", 100.0, 60.0, "DJ", 0.0)
      + GenerateDecor(800.0, 250.0, "decor_generic", 400.0, 300.0, "DANCE FLOOR", 0.0);
    var t := RectTableSet(800.0, 600.0, "M_MIRI", 4, false);
    RectTableSetShape(800.0, 600.0, "M_MIRI", 4, false);
    RectTableSetHasSize(800.0, 600.0, "M_MIRI", 4, false);
    TableSetAtPrepend(d, t, 0, "M_MIRI", "table_rect", 4);
    HasSizeConcat(d, t);
  }

  lemma WeddingTablesShape(trig: Trig, size: string)
    ensures var parts := WeddingTables(trig, size);
      && (forall i :: 0 <= i < |parts| ==> |parts[i]| == WeddingGuestSeats(size) + 1)
      && (forall i :: 0 <= i < |parts| ==> HasSize(parts[i]))
      && (forall i :: 0 <= i < |parts| ==>
            TableSetAt(parts[i], 0, "M" + NatToString(i + 1), "table_round", WeddingGuestSeats(size)))
  {
    var parts := WeddingTables(trig, size);
    var p := WeddingPositions(size == "large");
    forall i | 0 <= i < |parts|
      ensures HasSize(parts[i])
      ensures TableSetAt(parts[i], 0, "M" + NatToString(i + 1), "table_round", WeddingGuestSeats(size))
    {
      RoundTableSetHasSize(trig, p[i].0, p[i].1, "M" + NatToString(i + 1), WeddingGuestSeats(size));
      RoundTableSetShape(trig, p[i].0, p[i].1, "M" + NatToString(i + 1), WeddingGuestSeats(size));
    }
  }

  lemma WeddingItemsHasSize(trig: Trig, size: string)
    ensures HasSize(WeddingItems(trig, size))
  {
    WeddingHeadShape();
    WeddingTablesShape(trig, size);
    FlattenHasSize(WeddingTables(trig, size));
    HasSizeConcat(WeddingHead(), Flatten(WeddingTables(trig, size)));
    HasSizeConcat(WeddingHead() + Flatten(WeddingTables(trig, size)), WeddingTail());
  }

  lemma WeddingItemsLength(trig: Trig, size: string)
    ensures |WeddingItems(trig, size)| == 8 + RowMajor(|WeddingTables(trig, size)|, WeddingGuestSeats(size) + 1, 0) + 3
    ensures TableSetAt(WeddingItems(trig, size), 3, "M_MIRI", "table_rect", 4)
  {
    var parts := WeddingTables(trig, size);
    WeddingHeadShape();
    WeddingTablesShape(trig, size);
    FlattenLength(parts, WeddingGuestSeats(size) + 1);
    TableSetAtAppend(WeddingHead(), Flatten(parts), 3, "M_MIRI", "table_rect", 4);
    TableSetAtAppend(WeddingHead() + Flatten(parts), WeddingTail(), 3, "M_MIRI", "table_rect", 4);
  }

  lemma WeddingItemsGuestTable(trig: Trig, size: string, j: nat)
    requires j < |WeddingTables(trig, size)|
    ensures TableSetAt(WeddingItems(trig, size), 8 + RowMajor(j, WeddingGuestSeats(size) + 1, 0),
                       "M" + NatToString(j + 1), "table_round", WeddingGuestSeats(size))
  {
    var parts := WeddingTables(trig, size);
    var n := WeddingGuestSeats(size);
    WeddingHeadShape();
    WeddingTablesShape(trig, size);
    FlattenTableSets(parts, "M", "table_round", n, j);
    TableSetAtPrepend(WeddingHead(), Flatten(parts), RowMajor(j, n + 1, 0), "M" + NatToString(j + 1), "table_round", n);
    TableSetAtAppend(WeddingHead() + Flatten(parts), WeddingTail(), 8 + RowMajor(j, n + 1, 0), "M" + NatToString(j + 1), "table_round", n);
  }

  lemma WeddingTableCount(trig: Trig, size: string)
    ensures |WeddingTables(trig, size)| == if size == "large" then 12 else 6
  {
  }

  lemma WeddingTemplateLength(trig: Trig, size: string)
    ensures |WeddingTemplate(trig, size)| == 8 + RowMajor(|WeddingTables(trig, size)|, WeddingGuestSeats(size) + 1, 0) + 3
  {
    WeddingItemsLength(trig, size);
  }

  lemma WeddingCoupleTable(trig: Trig, size: string)
    ensures TableSetAt(WeddingTemplate(trig, size), 3, "M_MIRI", "table_rect", 4)
  {
    WeddingItemsLength(trig, size);
    TableSetAtCentered(WeddingItems(trig, size), 3, "M_MIRI", "table_rect", 4);
  }

  lemma WeddingGuestTable(trig: Trig, size: string, j: nat)
    requires j < |WeddingTables(trig, size)|
    ensures TableSetAt(WeddingTemplate(trig, size), 8 + RowMajor(j, WeddingGuestSeats(size) + 1, 0),
                       "M" + NatToString(j + 1), "table_round", WeddingGuestSeats(size))
  {
    WeddingItemsGuestTable(trig, size, j);
    TableSetAtCentered(WeddingItems(trig, size), 8 + RowMajor(j, WeddingGuestSeats(size) + 1, 0),
                       "M" + NatToString(j + 1), "table_round", WeddingGuestSeats(size));
  }

  lemma WeddingCentred(trig: Trig, size: string)
    ensures CentredOnCanvas(WeddingTemplate(trig, size))
  {
    WeddingItemsLength(trig, size);
    CenteredOnCanvas(WeddingItems(trig, size));
  }

  /** "large" has 12 guest tables of 10 seats (143 elements), any other
      size 6 guest tables of 8 seats (65 elements). */
  lemma WeddingSize(trig: Trig, size: string)
    ensures size == "large" ==> |WeddingTemplate(trig, size)| == 143
    ensures size != "large" ==> |WeddingTemplate(trig, size)| == 65
  {
    WeddingTableCount(trig, size);
    WeddingTemplateLength(trig, size);
    RowMajorIsProduct(|WeddingTables(trig, size)|, WeddingGuestSeats(size) + 1, 0);
  }

  /** Guest tables M1, M2, ... follow the couple's table, in position order. */
  lemma WeddingGuestTables(trig: Trig, size: string, j: nat)
    ensures size == "large" && j < 12 ==>
      TableSetAt(WeddingTemplate(trig, size), 8 + j * 11, "M" + NatToString(j + 1), "table_round", 10)
    ensures size != "large" && j < 6 ==>
      TableSetAt(WeddingTemplate(trig, size), 8 + j * 9, "M" + NatToString(j + 1), "table_round", 8)
  {
    WeddingTableCount(trig, size);
    if j < |WeddingTables(trig, size)| {
      WeddingGuestTable(trig, size, j);
      RowMajorIsProduct(j, WeddingGuestSeats(size) + 1, 0);
    }
  }

  /** The guest-table loop of `create_wedding_template`. */
  method GenerateWeddingTables(trig: Trig, size: string) returns (items: seq<ItemDict>)
    ensures items == Flatten(WeddingTables(trig, size))
  {
    var positions := WeddingPositions(size == "large");
    var guestSeats := if size == "large" then 10 else 8;
    ghost var parts := WeddingTables(trig, size);
    items := [];
    var i := 0;
    while i < |positions|
      invariant 0 <= i <= |positions| == |parts|
      invariant items == Flatten(parts[..i])
    {
      var guests := GenerateRoundTableSet(trig, positions[i].0, positions[i].1, "M" + NatToString(i + 1), guestSeats);
      assert guests == parts[i];
      FlattenSnoc(parts, i);
      items := items + guests;
      i := i + 1;
    }
    assert parts[..i] == parts;
  }

  /** The element list `create_wedding_template` builds before centring. */
  method BuildWeddingItems(trig: Trig, size: string) returns (items: seq<ItemDict>)
    ensures items == WeddingItems(trig, size)
  {
    var stage := GenerateDecor(800.0, 0.0, "decor_stage", 400.0, 100.0, "SCENA LIVE", 0.0);
    var dj := GenerateDecor(1100.0, 50.0, "decor_generic", 100.0, 60.0, "DJ", 0.0);
    var floor := GenerateDecor(800.0, 250.0, "decor_generic", 400.0, 300.0, "DANCE FLOOR", 0.0);
    var couple := GenerateRectTableSet(800.0, 600.0, "M_MIRI", 4, false);
    var guests := GenerateWeddingTables(trig, size);
    var bar := GenerateDecor(100.0, 800.0, "decor_bar", 200.0, 60.0, "BAR", 0.0);
    var buffet := GenerateDecor(1500.0, 800.0, "decor_generic", 250.0, 60.0, "BUFET SUEDEZ", 0.0);
    var entrance := GenerateDecor(800.0, 850.0, "decor_generic", 150.0, 50.0, "INTRARE", 0.0);
    items := stage + dj + floor + couple + guests + (bar + buffet + entrance);
  }

  method CreateWeddingTemplate(trig: Trig, size: string) returns (items: seq<ItemDict>)
    ensures items == WeddingTemplate(trig, size)
  {
    items := BuildWeddingItems(trig, size);
    WeddingItemsHasSize(trig, size);
    var a := ToArray(items);
    CenterLayout(a, LogicalWidth, LogicalHeight);
    items := a[..];
  }

  // Club: dance ring, bar and DJ booth, VIP booths on both walls, small
  // round tables in a row, an entrance.

  /** The four square booths "<prefix>1".."<prefix>4" along x. */
  function VipBooths(x: real, prefix: string): seq<seq<ItemDict>> {
    seq(4, i requires 0 <= i < 4 => RectTableSet(x, (200 + i * 150) as real, prefix + NatToString(i + 1), 4, true))
  }

  /** The six round tables "T1".."T6" of two seats each. */
  function ClubTables(trig: Trig): seq<seq<ItemDict>> {
    seq(6, i requires 0 <= i < 6 => RoundTableSet(trig, (400 + i * 160) as real, 750.0, "T" + NatToString(i + 1), 2))
  }

  function ClubHead(): seq<ItemDict> {
    GenerateDecor(800.0, 450.0, "decor_generic", 300.0, 300.0, "DANCE", 0.0)
    + GenerateDecor(800.0, 50.0, "decor_bar", 400.0, 80.0, "MAIN BAR", 0.0)
    + GenerateDecor(800.0, 250.0, "decor_generic", 100.0, 50.0, "DJ", 0.0)
  }

  function ClubEntrance(): seq<ItemDict> {
    GenerateDecor(800.0, 900.0, "decor_generic", 120.0, 40.0, "INTRARE", 0.0)
  }

  function ClubItems(trig: Trig): seq<ItemDict> {
    ClubHead() + Flatten(VipBooths(150.0, "VIP-L")) + Flatten(VipBooths(1450.0, "VIP-R"))
    + Flatten(ClubTables(trig)) + ClubEntrance()
  }

  /** `create_club_layout`. */
  function ClubTemplate(trig: Trig): seq<ItemDict> {
    Centered(ClubItems(trig), LogicalWidth, LogicalHeight)
  }

  lemma VipBoothsShape(x: real, prefix: string)
    ensures var parts := VipBooths(x, prefix);
      && (forall i :: 0 <= i < |parts| ==> |parts[i]| == 5)
      && (forall i :: 0 <= i < |parts| ==> HasSize(parts[i]))
      && (forall i :: 0 <= i < |parts| ==> TableSetAt(parts[i], 0, prefix + NatToString(i + 1), "table_rect", 4))
      && |Flatten(parts)| == 20
  {
    var parts := VipBooths(x, prefix);
    forall i | 0 <= i < |parts|
      ensures HasSize(parts[i])
      ensures TableSetAt(parts[i], 0, prefix + NatToString(i + 1), "table_rect", 4)
    {
      RectTableSetHasSize(x, (200 + i * 150) as real, prefix + NatToString(i + 1), 4, true);
      RectTableSetShape(x, (200 + i * 150) as real, prefix + NatToString(i + 1), 4, true);
    }
    FlattenLength(parts, 5);
  }

  lemma ClubTablesShape(trig: Trig)
    ensures var parts := ClubTables(trig);
      && (forall i :: 0 <= i < |parts| ==> |parts[i]| == 3)
      && (forall i :: 0 <= i < |parts| ==> HasSize(parts[i]))
      && (forall i :: 0 <= i < |parts| ==> TableSetAt(parts[i], 0, "T" + NatToString(i + 1), "table_round", 2))
      && |Flatten(parts)| == 18
  {
    var parts := ClubTables(trig);
    forall i | 0 <= i < |parts|
      ensures HasSize(parts[i])
      ensures TableSetAt(parts[i], 0, "T" + NatToString(i + 1), "table_round", 2)
    {
      RoundTableSetHasSize(trig, (400 + i * 160) as real, 750.0, "T" + NatToString(i + 1), 2);
      RoundTableSetShape(trig, (400 + i * 160) as real, 750.0, "T" + NatToString(i + 1), 2);
    }
    FlattenLength(parts, 3);
  }

  lemma ClubItemsHasSize(trig: Trig)
    ensures HasSize(ClubItems(trig))
  {
    var left := Flatten(VipBooths(150.0, "VIP-L"));
    var right := Flatten(VipBooths(1450.0, "VIP-R"));
    var tables := Flatten(ClubTables(trig));
    VipBoothsShape(150.0, "VIP-L");
    VipBoothsShape(1450.0, "VIP-R");
    ClubTablesShape(trig);
    FlattenHasSize(VipBooths(150.0, "VIP-L"));
    FlattenHasSize(VipBooths(1450.0, "VIP-R"));
    FlattenHasSize(ClubTables(trig));
    HasSizeConcat(ClubHead(), left);
    HasSizeConcat(ClubHead() + left, right);
    HasSizeConcat(ClubHead() + left + right, tables);
    HasSizeConcat(ClubHead() + left + right + tables, ClubEntrance());
  }

  lemma ClubItemsLeftBooth(trig: Trig, j: nat)
    requires j < 4
    ensures TableSetAt(ClubItems(trig), 3 + 5 * j, "VIP-L" + NatToString(j + 1), "table_rect", 4)
  {
    var id := "VIP-L" + NatToString(j + 1);
    var left := Flatten(VipBooths(150.0, "VIP-L"));
    var right := Flatten(VipBooths(1450.0, "VIP-R"));
    var tables := Flatten(ClubTables(trig));
    VipBoothsShape(150.0, "VIP-L");
    FlattenTableSets(VipBooths(150.0, "VIP-L"), "VIP-L", "table_rect", 4, j);
    RowMajorIsProduct(j, 5, 0);
    TableSetAtPrepend(ClubHead(), left, 5 * j, id, "table_rect", 4);
    TableSetAtAppend(ClubHead() + left, right, 3 + 5 * j, id, "table_rect", 4);
    TableSetAtAppend(ClubHead() + left + right, tables, 3 + 5 * j, id, "table_rect", 4);
    TableSetAtAppend(ClubHead() + left + right + tables, ClubEntrance(), 3 + 5 * j, id, "table_rect", 4);
  }

  lemma ClubItemsRightBooth(trig: Trig, j: nat)
    requires j < 4
    ensures TableSetAt(ClubItems(trig), 23 + 5 * j, "VIP-R" + NatToString(j + 1), "table_rect", 4)
  {
    var id := "VIP-R" + NatToString(j + 1);
    var left := Flatten(VipBooths(150.0, "VIP-L"));
    var right := Flatten(VipBooths(1450.0, "VIP-R"));
    var tables := Flatten(ClubTables(trig));
    VipBoothsShape(150.0, "VIP-L");
    VipBoothsShape(1450.0, "VIP-R");
    FlattenTableSets(VipBooths(1450.0, "VIP-R"), "VIP-R", "table_rect", 4, j);
    RowMajorIsProduct(j, 5, 0);
    TableSetAtPrepend(ClubHead() + left, right, 5 * j, id, "table_rect", 4);
    TableSetAtAppend(ClubHead() + left + right, tables, 23 + 5 * j, id, "table_rect", 4);
    TableSetAtAppend(ClubHead() + left + right + tables, ClubEntrance(), 23 + 5 * j, id, "table_rect", 4);
  }

  lemma ClubItemsTable(trig: Trig, j: nat)
    requires j < 6
    ensures TableSetAt(ClubItems(trig), 43 + 3 * j, "T" + NatToString(j + 1), "table_round", 2)
  {
    var id := "T" + NatToString(j + 1);
    var head := ClubHead() + Flatten(VipBooths(150.0, "VIP-L")) + Flatten(VipBooths(1450.0, "VIP-R"));
    VipBoothsShape(150.0, "VIP-L");
    VipBoothsShape(1450.0, "VIP-R");
    ClubTablesShape(trig);
    FlattenTableSets(ClubTables(trig), "T", "table_round", 2, j);
    RowMajorIsProduct(j, 3, 0);
    TableSetAtPrepend(head, Flatten(ClubTables(trig)), 3 * j, id, "table_round", 2);
    TableSetAtAppend(head + Flatten(ClubTables(trig)), ClubEntrance(), 43 + 3 * j, id, "table_round", 2);
  }

  lemma ClubItemsEnds(trig: Trig)
    ensures |ClubItems(trig)| == 62 && ClubItems(trig)[61].id == "D-INTRARE"
  {
    VipBoothsShape(150.0, "VIP-L");
    VipBoothsShape(1450.0, "VIP-R");
    ClubTablesShape(trig);
  }

  /** 62 elements, ending with the entrance; the whole is centred on the
      canvas. */
  lemma ClubSize(trig: Trig)
    ensures var t := ClubTemplate(trig);
      |t| == 62 && t[61].id == "D-INTRARE" && CentredOnCanvas(t)
  {
    ClubItemsEnds(trig);
    CenteredId(ClubItems(trig), 61);
    CenteredOnCanvas(ClubItems(trig));
  }

  /** Square four-seat booths VIP-L1..4 at positions 3, 8, 13, 18 and
      VIP-R1..4 at 23, 28, 33, 38, each table 80 x 80 (max(50, 2 * 35 + 10)). */
  lemma ClubBooths(trig: Trig, j: nat)
    requires j < 4
    ensures TableSetAt(ClubTemplate(trig), 3 + 5 * j, "VIP-L" + NatToString(j + 1), "table_rect", 4)
    ensures TableSetAt(ClubTemplate(trig), 23 + 5 * j, "VIP-R" + NatToString(j + 1), "table_rect", 4)
    ensures ClubTemplate(trig)[3 + 5 * j].w == ClubTemplate(trig)[3 + 5 * j].h == Some(80.0)
    ensures ClubTemplate(trig)[23 + 5 * j].w == ClubTemplate(trig)[23 + 5 * j].h == Some(80.0)
  {
    ClubItemsLeftBooth(trig, j);
    ClubItemsRightBooth(trig, j);
    TableSetAtCentered(ClubItems(trig), 3 + 5 * j, "VIP-L" + NatToString(j + 1), "table_rect", 4);
    TableSetAtCentered(ClubItems(trig), 23 + 5 * j, "VIP-R" + NatToString(j + 1), "table_rect", 4);
    ClubBoothSquare(trig, j);
    CenteredKeepsRest(ClubItems(trig), LogicalWidth, LogicalHeight);
  }

  /** Before centring, the booth tables are the square tables themselves. */
  lemma ClubBoothSquare(trig: Trig, j: nat)
    requires j < 4
    ensures 23 + 5 * j < |ClubItems(trig)|
    ensures ClubItems(trig)[3 + 5 * j].w == ClubItems(trig)[3 + 5 * j].h == Some(80.0)
    ensures ClubItems(trig)[23 + 5 * j].w == ClubItems(trig)[23 + 5 * j].h == Some(80.0)
  {
    var left := VipBooths(150.0, "VIP-L");
    var right := VipBooths(1450.0, "VIP-R");
    var tables := Flatten(ClubTables(trig));
    VipBoothsShape(150.0, "VIP-L");
    VipBoothsShape(1450.0, "VIP-R");
    FlattenAt(left, 5, j, 0);
    FlattenAt(right, 5, j, 0);
    RowMajorIsProduct(j, 5, 0);
    var items := ClubItems(trig);
    assert |ClubHead()| == 3;
    assert items == ClubHead() + Flatten(left) + Flatten(right) + tables + ClubEntrance();
    assert items[3 + 5 * j] == Flatten(left)[5 * j];
    assert items[23 + 5 * j] == Flatten(right)[5 * j];
  }

  /** Two-seat round tables T1..T6 at positions 43, 46, ..., 58. */
  lemma ClubRoundTables(trig: Trig, j: nat)
    requires j < 6
    ensures TableSetAt(ClubTemplate(trig), 43 + 3 * j, "T" + NatToString(j + 1), "table_round", 2)
  {
    ClubItemsTable(trig, j);
    TableSetAtCentered(ClubItems(trig), 43 + 3 * j, "T" + NatToString(j + 1), "table_round", 2);
  }

  /** One of the two booth loops of `create_club_layout`. */
  method GenerateVipBooths(x: real, prefix: string) returns (items: seq<ItemDict>)
    ensures items == Flatten(VipBooths(x, prefix))
  {
    ghost var booths := VipBooths(x, prefix);
    items := [];
    var i := 0;
    while i < 4
      invariant 0 <= i <= 4
      invariant items == Flatten(booths[..i])
    {
      var booth := GenerateRectTableSet(x, (200 + i * 150) as real, prefix + NatToString(i + 1), 4, true);
      assert booth == booths[i];
      FlattenSnoc(booths, i);
      items := items + booth;
      i := i + 1;
    }
    assert booths[..i] == booths;
  }

  /** The round-table loop of `create_club_layout`. */
  method GenerateClubTables(trig: Trig) returns (items: seq<ItemDict>)
    ensures items == Flatten(ClubTables(trig))
  {
    ghost var tables := ClubTables(trig);
    items := [];
    var i := 0;
    while i < 6
      invariant 0 <= i <= 6
      invariant items == Flatten(tables[..i])
    {
      var x := 400 + i * 160;
      var table := GenerateRoundTableSet(trig, x as real, 750.0, "T" + NatToString(i + 1), 2);
      assert table == tables[i];
      FlattenSnoc(tables, i);
      items := items + table;
      i := i + 1;
    }
    assert tables[..i] == tables;
  }

  method CreateClubLayout(trig: Trig) returns (items: seq<ItemDict>)
    ensures items == ClubTemplate(trig)
  {
    var ring := GenerateDecor(800.0, 450.0, "decor_generic", 300.0, 300.0, "DANCE", 0.0);
    var bar := GenerateDecor(800.0, 50.0, "decor_bar", 400.0, 80.0, "MAIN BAR", 0.0);
    var dj := GenerateDecor(800.0, 250.0, "decor_generic", 100.0, 50.0, "DJ", 0.0);
    var left := GenerateVipBooths(150.0, "VIP-L");
    var right := GenerateVipBooths(1450.0, "VIP-R");
    var tables := GenerateClubTables(trig);
    var entrance := GenerateDecor(800.0, 900.0, "decor_generic", 120.0, 40.0, "INTRARE", 0.0);
    items := ring + bar + dj + left + right + tables + entrance;
    ClubItemsHasSize(trig);
    var a := ToArray(items);
    CenterLayout(a, LogicalWidth, LogicalHeight);
    items := a[..];
  }
}
