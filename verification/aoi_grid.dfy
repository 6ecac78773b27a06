/** The geometry behind the area-of-interest grid: which cell a position falls in, and which
    players see each other.  `Visible` is the brute-force definition that the cell index of
    `AoiWorld` has to agree with. */
module AoiGrid {

  import opened Wrappers

  type PlayerId = nat

  datatype Position = Position(x: real, y: real)

  datatype AoiSettings = AoiSettings(minX: real, maxX: real, minY: real, maxY: real, columns: nat, rows: nat) {
    predicate Valid() {
      minX < maxX && minY < maxY && columns != 0 && rows != 0
    }
  }

  /** Settings the `AoiWorld` constructor accepts. */
  type AoiConfig = c: AoiSettings | c.Valid() witness AoiSettings(0.0, 1000.0, 0.0, 2000.0, 10, 20)

  function CellWidth(c: AoiConfig): (w: real)
    ensures w > 0.0
  {
    SpanPerCell(c.maxX - c.minX, c.columns);
    (c.maxX - c.minX) / c.columns as real
  }

  function CellHeight(c: AoiConfig): (h: real)
    ensures h > 0.0
  {
    SpanPerCell(c.maxY - c.minY, c.rows);
    (c.maxY - c.minY) / c.rows as real
  }

  /** The half-open rectangle the grid covers. */
  predicate InMap(c: AoiConfig, p: Position) {
    c.minX <= p.x < c.maxX && c.minY <= p.y < c.maxY
  }

  /** An offset measured in cells. */
  function Cells(offset: real, width: real): (u: real)
    requires width > 0.0
    ensures u * width == offset
  {
    offset / width
  }

  function ColumnOf(c: AoiConfig, p: Position): int {
    Cells(p.x - c.minX, CellWidth(c)).Floor
  }

  function RowOf(c: AoiConfig, p: Position): int {
    Cells(p.y - c.minY, CellHeight(c)).Floor
  }

  predicate Near(c: AoiConfig, a: Position, b: Position) {
    -1 <= ColumnOf(c, a) - ColumnOf(c, b) <= 1 && -1 <= RowOf(c, a) - RowOf(c, b) <= 1
  }

  /** Everyone else whose cell touches the cell of `p`. */
  function Visible(c: AoiConfig, world: map<PlayerId, Position>, p: PlayerId): set<PlayerId> {
    if p in world then set q | q in world && q != p && Near(c, world[p], world[q]) else {}
  }

  /** Cell number of a position.  The second test repeats the guard of the code;
      `GridIndexExact` shows that in exact arithmetic it never rejects a position that the first
      test let through. */
  function GridIndexFor(c: AoiConfig, p: Position): (r: Option<nat>)
    ensures r.Some? ==> InMap(c, p) && r.value < c.columns * c.rows
    ensures r.Some? ==> r.value / c.columns == RowOf(c, p) && r.value % c.columns == ColumnOf(c, p)
  {
    if p.x < c.minX || p.x >= c.maxX || p.y < c.minY || p.y >= c.maxY then None
    else
      OffsetNotNegative(p.x - c.minX, CellWidth(c));
      OffsetNotNegative(p.y - c.minY, CellHeight(c));
      var column: nat, row: nat := ColumnOf(c, p), RowOf(c, p);
      if column >= c.columns || row >= c.rows then None
      else
        RowColumnSplit(row, column, c.columns, c.rows);
        Some(row * c.columns + column)
  }

  /** A position has a cell exactly when it lies on the map. */
  lemma GridIndexExact(c: AoiConfig, p: Position)
    ensures GridIndexFor(c, p).Some? <==> InMap(c, p)
  {
    if InMap(c, p) {
      SpanPerCell(c.maxX - c.minX, c.columns);
      SpanPerCell(c.maxY - c.minY, c.rows);
      OffsetBelow(p.x - c.minX, CellWidth(c), c.columns);
      OffsetBelow(p.y - c.minY, CellHeight(c), c.rows);
    }
  }

  // ---------------------------------------------------------------- arithmetic

  lemma SpanPerCell(span: real, cells: nat)
    requires span > 0.0 && cells > 0
    ensures span / cells as real > 0.0
    ensures (span / cells as real) * cells as real == span
  {}

  lemma ScaleOrder(u: real, v: real, w: real)
    requires w > 0.0
    ensures u < v <==> u * w < v * w
  {
    assert (v - u) * w == v * w - u * w;
  }

  lemma OffsetNotNegative(offset: real, width: real)
    requires width > 0.0 && 0.0 <= offset
    ensures 0 <= Cells(offset, width).Floor
  {
    ScaleOrder(Cells(offset, width), 0.0, width);
  }

  lemma OffsetBelow(offset: real, width: real, cells: nat)
    requires width > 0.0 && offset < width * cells as real
    ensures Cells(offset, width).Floor < cells
  {
    ScaleOrder(Cells(offset, width), cells as real, width);
  }

  /** The cells tile the map. */
  lemma CellsTileTheMap(c: AoiConfig)
    ensures CellWidth(c) * c.columns as real == c.maxX - c.minX
    ensures CellHeight(c) * c.rows as real == c.maxY - c.minY
  {
    SpanPerCell(c.maxX - c.minX, c.columns);
    SpanPerCell(c.maxY - c.minY, c.rows);
  }

  /** Measured in cells from the corner of the map, a position lies between its column and the next, and
      between its row and the next. */
  lemma PositionInItsCell(c: AoiConfig, p: Position, u: real, v: real)
    requires u * CellWidth(c) == p.x - c.minX && v * CellHeight(c) == p.y - c.minY
    ensures ColumnOf(c, p) as real <= u < (ColumnOf(c, p) + 1) as real
    ensures RowOf(c, p) as real <= v < (RowOf(c, p) + 1) as real
  {
    CellsUnique(p.x - c.minX, CellWidth(c), u);
    CellsUnique(p.y - c.minY, CellHeight(c), v);
  }

  lemma CellsUnique(offset: real, width: real, u: real)
    requires width > 0.0 && u * width == offset
    ensures Cells(offset, width) == u
  {
    ScaleOrder(u, Cells(offset, width), width);
    ScaleOrder(Cells(offset, width), u, width);
  }

  lemma RowColumnSplit(row: nat, column: nat, columns: nat, rows: nat)
    requires column < columns && row < rows
    ensures row * columns + column < columns * rows
    ensures (row * columns + column) / columns == row
    ensures (row * columns + column) % columns == column
  {
    var i := row * columns + column;
    assert (row + 1) * columns <= rows * columns;
    QuotientUnique(i, columns, row, column, i / columns, i % columns);
  }

  lemma QuotientUnique(i: nat, d: nat, q: int, r: int, q': int, r': int)
    requires i == q * d + r && i == q' * d + r' && 0 <= r < d && 0 <= r' < d
    ensures q == q' && r == r'
  {
    assert (q - q') * d == r' - r;
    if q - q' >= 1 {
      MulAtLeast(q - q', d);
    } else if q' - q >= 1 {
      MulAtLeast(q' - q, d);
    }
  }

  lemma MulAtLeast(k: int, d: nat)
    requires k >= 1
    ensures k * d >= d
  {
    assert (k - 1) * d >= 0;
  }

  lemma FloorsOfCloseValues(u: real, v: real)
    requires -1.0 <= u - v <= 1.0
    ensures -1 <= u.Floor - v.Floor <= 1
  {
    assert u.Floor as real <= u < u.Floor as real + 1.0;
    assert v.Floor as real <= v < v.Floor as real + 1.0;
    assert (u.Floor - v.Floor) as real == u.Floor as real - v.Floor as real;
  }

  lemma ValuesOfCloseFloors(u: real, v: real)
    requires -1 <= u.Floor - v.Floor <= 1
    ensures -2.0 < u - v < 2.0
  {
    assert u.Floor as real <= u < u.Floor as real + 1.0;
    assert v.Floor as real <= v < v.Floor as real + 1.0;
    assert (u.Floor - v.Floor) as real == u.Floor as real - v.Floor as real;
  }

  lemma Difference(u: real, v: real, a: real, b: real, width: real)
    requires u * width == a && v * width == b
    ensures (u - v) * width == a - b
  {}

  lemma ScaleDown(d: real, e: real, width: real)
    requires width > 0.0 && d * width == e && -width <= e <= width
    ensures -1.0 <= d <= 1.0
  {
    ScaleOrder(1.0, d, width);
    ScaleOrder(d, -1.0, width);
  }

  lemma ScaleUp(d: real, e: real, width: real)
    requires width > 0.0 && d * width == e && -2.0 < d < 2.0
    ensures -2.0 * width < e < 2.0 * width
  {
    ScaleOrder(d, 2.0, width);
    ScaleOrder(-2.0, d, width);
  }

  /** Offsets at most one cell apart land in cells at most one apart; cells at most one apart
      come from offsets less than two cells apart. */
  lemma CellDistance(a: real, b: real, width: real)
    requires width > 0.0
    ensures -width <= a - b <= width ==> -1 <= Cells(a, width).Floor - Cells(b, width).Floor <= 1
    ensures -1 <= Cells(a, width).Floor - Cells(b, width).Floor <= 1 ==> -2.0 * width < a - b < 2.0 * width
  {
    var u, v := Cells(a, width), Cells(b, width);
    Difference(u, v, a, b, width);
    if -width <= a - b <= width {
      ScaleDown(u - v, a - b, width);
      FloorsOfCloseValues(u, v);
    }
    if -1 <= u.Floor - v.Floor <= 1 {
      ValuesOfCloseFloors(u, v);
      ScaleUp(u - v, a - b, width);
    }
  }

  // ---------------------------------------------------------------- what players can rely on

  predicate WithinOneCell(c: AoiConfig, a: Position, b: Position) {
    -CellWidth(c) <= a.x - b.x <= CellWidth(c) && -CellHeight(c) <= a.y - b.y <= CellHeight(c)
  }

  /** Two players within one cell width and one cell height see each other; two who see each
      other are less than two cell widths and two cell heights apart. */
  lemma GeometricGuarantee(c: AoiConfig, world: map<PlayerId, Position>, p: PlayerId, q: PlayerId)
    requires p in world && q in world && p != q
    ensures WithinOneCell(c, world[p], world[q]) ==> q in Visible(c, world, p)
    ensures q in Visible(c, world, p) ==>
      && -2.0 * CellWidth(c) < world[p].x - world[q].x < 2.0 * CellWidth(c)
      && -2.0 * CellHeight(c) < world[p].y - world[q].y < 2.0 * CellHeight(c)
  {
    CellDistance(world[p].x - c.minX, world[q].x - c.minX, CellWidth(c));
    CellDistance(world[p].y - c.minY, world[q].y - c.minY, CellHeight(c));
  }

  lemma VisibleSymmetric(c: AoiConfig, world: map<PlayerId, Position>, p: PlayerId, q: PlayerId)
    ensures q in Visible(c, world, p) && p in world ==> q in world && p in Visible(c, world, q)
  {}

  /** A newcomer is gained by exactly the players it sees, and nobody's view changes otherwise. */
  lemma ArrivalViews(c: AoiConfig, world: map<PlayerId, Position>, p: PlayerId, at: Position, q: PlayerId)
    requires p !in world && q in world
    ensures var after := world[p := at];
      Visible(c, after, q) == Visible(c, world, q) + (if q in Visible(c, after, p) then {p} else {})
  {}

  /** A player who leaves is lost by exactly the players it saw. */
  lemma DepartureViews(c: AoiConfig, world: map<PlayerId, Position>, p: PlayerId, q: PlayerId)
    requires p in world && q in world && q != p
    ensures Visible(c, world - {p}, q) == Visible(c, world, q) - {p}
    ensures p in Visible(c, world, q) <==> q in Visible(c, world, p)
  {}

  /** Moving changes another player's view only by gaining the mover (when that player is newly
      visible to the mover) or losing it (when no longer visible). */
  lemma MoveViews(c: AoiConfig, world: map<PlayerId, Position>, p: PlayerId, to: Position, q: PlayerId)
    requires p in world && q in world && q != p
    ensures var after := world[p := to];
      var before, now := Visible(c, world, p), Visible(c, after, p);
      && (q in now - before ==> p !in Visible(c, world, q) && Visible(c, after, q) == Visible(c, world, q) + {p})
      && (q in before - now ==> p in Visible(c, world, q) && Visible(c, after, q) == Visible(c, world, q) - {p})
      && (q in before * now ==> p in Visible(c, world, q) && Visible(c, after, q) == Visible(c, world, q))
      && (q !in before + now ==> p !in Visible(c, world, q) && Visible(c, after, q) == Visible(c, world, q))
  {
    var after := world[p := to];
    var view, view' := Visible(c, world, q), Visible(c, after, q);
    assert forall r | r != p :: r in view' <==> r in view;
  }

  /** The middle of the map, where new players start, is on the map. */
  lemma CentreInMap(c: AoiConfig)
    ensures InMap(c, Position((c.minX + c.maxX) / 2.0, (c.minY + c.maxY) / 2.0))
  {}

  // ---------------------------------------------------------------- ascending iteration

  ghost function UpperBoundIn(s: set<PlayerId>): (m: PlayerId)
    requires s != {}
    ensures m in s && forall x | x in s :: x <= m
  {
    var x :| x in s;
    if s - {x} == {} then
      assert s == {x};
      x
    else
      var m := UpperBoundIn(s - {x});
      assert s == (s - {x}) + {x};
      if m < x then x else m
  }

  predicate Sorted(ids: seq<PlayerId>) {
    forall i, j | 0 <= i < j < |ids| :: ids[i] < ids[j]
  }

  /** The greatest element of a set that has one. */
  function Greatest(s: set<PlayerId>): (m: PlayerId)
    requires s != {}
    ensures m in s && forall x | x in s :: x <= m
  {
    var bound := UpperBoundIn(s);
    var m :| m in s && forall x | x in s :: x <= m;
    m
  }

  /** The order in which a std::set is iterated. */
  function Ascending(s: set<PlayerId>): (ids: seq<PlayerId>)
    ensures Sorted(ids)
    ensures forall p :: p in ids <==> p in s
    decreases s
  {
    if s == {} then []
    else Ascending(s - {Greatest(s)}) + [Greatest(s)]
  }
}
