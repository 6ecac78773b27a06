/** The grid index: per-cell player sets beside a table of player states, updated in place. */
module AoiWorldIndex {
  import opened Wrappers
  import opened AoiGrid

  datatype PlayerState = PlayerState(position: Position, gridIndex: nat)

  datatype ViewDelta = ViewDelta(entered: set<PlayerId>, left: set<PlayerId>, stayed: set<PlayerId>)

  /** Cells at most one row and one column away from cell `center`. */
  predicate Adjacent(c: AoiConfig, center: nat, i: nat) {
    && -1 <= i / c.columns - center / c.columns <= 1
    && -1 <= i % c.columns - center % c.columns <= 1
  }

  /** The adjacent cells that come before `(row, column)` in row-major order. */
  predicate Before(c: AoiConfig, center: nat, row: int, column: int, i: nat) {
    && i < c.columns * c.rows && Adjacent(c, center, i)
    && (i / c.columns < row || (i / c.columns == row && i % c.columns < column))
  }

  lemma CellCoordinates(c: AoiConfig, i: nat)
    requires i < c.columns * c.rows
    ensures i == i / c.columns * c.columns + i % c.columns
    ensures 0 <= i / c.columns < c.rows && 0 <= i % c.columns < c.columns
  {
    if i / c.columns >= c.rows {
      MulOrder(c.rows, i / c.columns, c.columns);
    }
  }

  lemma CellIsNat(row: nat, column: nat, columns: nat)
    ensures row * columns + column >= 0
  {}

  lemma MulOrder(a: int, b: int, n: nat)
    requires a <= b
    ensures a * n <= b * n
  {}

  /** Row-major order is the order of the cell numbers. */
  lemma RowMajor(c: AoiConfig, i: nat, row: nat, column: nat)
    requires i < c.columns * c.rows && row < c.rows && column < c.columns
    ensures row * c.columns + column < c.columns * c.rows
    ensures i < row * c.columns + column <==>
      i / c.columns < row || (i / c.columns == row && i % c.columns < column)
    ensures i == row * c.columns + column <==> i / c.columns == row && i % c.columns == column
  {
    CellCoordinates(c, i);
    RowColumnSplit(row, column, c.columns, c.rows);
    if i / c.columns < row {
      MulOrder(i / c.columns + 1, row, c.columns);
    } else if i / c.columns > row {
      MulOrder(row + 1, i / c.columns, c.columns);
    }
  }

  lemma NextColumn(c: AoiConfig, center: nat, row: nat, column: int, i: nat)
    requires center < c.columns * c.rows && row < c.rows
    requires -1 <= row - center / c.columns <= 1 && -1 <= column - center % c.columns <= 1
    ensures 0 <= column < c.columns ==>
      && row * c.columns + column < c.columns * c.rows
      && (Before(c, center, row, column + 1, i) <==> Before(c, center, row, column, i) || i == row * c.columns + column)
      && (Before(c, center, row, column, i) ==> i < row * c.columns + column)
    ensures !(0 <= column < c.columns) ==>
      (Before(c, center, row, column + 1, i) <==> Before(c, center, row, column, i))
  {
    if i < c.columns * c.rows {
      CellCoordinates(c, i);
      if 0 <= column < c.columns {
        RowMajor(c, i, row, column);
      }
    }
    if 0 <= column < c.columns {
      RowColumnSplit(row, column, c.columns, c.rows);
    }
  }

  lemma NextRow(c: AoiConfig, center: nat, row: int, i: nat)
    requires center < c.columns * c.rows
    ensures Before(c, center, row + 1, center % c.columns - 1, i) <==>
      Before(c, center, row, center % c.columns + 2, i)
    ensures !(0 <= row < c.rows) ==>
      (Before(c, center, row + 1, center % c.columns - 1, i) <==> Before(c, center, row, center % c.columns - 1, i))
  {
    if i < c.columns * c.rows {
      CellCoordinates(c, i);
    }
  }

  /** `indices` are the cells before `(row, column)`, in ascending order. */
  ghost predicate Lists(c: AoiConfig, center: nat, row: int, column: int, indices: seq<nat>) {
    && (forall j, k | 0 <= j < k < |indices| :: indices[j] < indices[k])
    && (forall i: nat :: i in indices <==> Before(c, center, row, column, i))
  }

  lemma ListsNextColumn(c: AoiConfig, center: nat, row: nat, column: int, indices: seq<nat>)
    requires center < c.columns * c.rows && row < c.rows
    requires -1 <= row - center / c.columns <= 1 && -1 <= column - center % c.columns <= 1
    requires Lists(c, center, row, column, indices)
    ensures 0 <= column < c.columns ==> Lists(c, center, row, column + 1, indices + [row * c.columns + column])
    ensures !(0 <= column < c.columns) ==> Lists(c, center, row, column + 1, indices)
  {
    if 0 <= column < c.columns {
      var next := row * c.columns + column;
      forall i: nat
        ensures i in indices + [next] <==> Before(c, center, row, column + 1, i)
        ensures i in indices ==> i < next
      {
        NextColumn(c, center, row, column, i);
      }
      assert forall j | 0 <= j < |indices| :: indices[j] in indices;
    } else {
      forall i: nat
        ensures i in indices <==> Before(c, center, row, column + 1, i)
      {
        NextColumn(c, center, row, column, i);
      }
    }
  }

  lemma ListsNextRow(c: AoiConfig, center: nat, row: int, indices: seq<nat>)
    requires center < c.columns * c.rows
    requires if 0 <= row < c.rows then Lists(c, center, row, center % c.columns + 2, indices)
             else Lists(c, center, row, center % c.columns - 1, indices)
    ensures Lists(c, center, row + 1, center % c.columns - 1, indices)
  {
    forall i: nat
      ensures i in indices <==> Before(c, center, row + 1, center % c.columns - 1, i)
    {
      NextRow(c, center, row, i);
    }
  }

  lemma ListsAll(c: AoiConfig, center: nat, indices: seq<nat>)
    requires center < c.columns * c.rows
    requires Lists(c, center, center / c.columns + 2, center % c.columns - 1, indices)
    ensures forall i: nat :: i in indices <==> i < c.columns * c.rows && Adjacent(c, center, i)
  {}

  class AoiWorld {
    const config: AoiConfig
    const grids: array<set<PlayerId>>
    var players: map<PlayerId, PlayerState>

    /** Every player is filed under the cell of its stored position, and nowhere else. */
    ghost predicate Valid()
      reads this, grids
    {
      && grids.Length == config.columns * config.rows
      && (forall p | p in players :: GridIndexFor(config, players[p].position) == Some(players[p].gridIndex))
      && (forall i, p | 0 <= i < grids.Length :: p in grids[i] <==> p in players && players[p].gridIndex == i)
    }

    /** What the index stands for. */
    ghost function Positions(): (world: map<PlayerId, Position>)
      reads this
    {
      map p | p in players :: players[p].position
    }

    constructor (config: AoiConfig)
      ensures Valid() && Positions() == map[] && this.config == config && fresh(grids)
    {
      this.config := config;
      grids := new set<PlayerId>[config.columns * config.rows](_ => {});
      players := map[];
    }

    /** The C++ constructor throws on invalid settings; here that is a null result. */
    static method Create(settings: AoiSettings) returns (world: AoiWorld?)
      ensures world == null <==> !settings.Valid()
      ensures world != null ==> world.Valid() && world.config == settings && world.Positions() == map[]
    {
      if !(settings.minX < settings.maxX) || !(settings.minY < settings.maxY) ||
         settings.columns == 0 || settings.rows == 0 {
        return null;
      }
      world := new AoiWorld(settings);
    }

    method AddPlayer(p: PlayerId, position: Position) returns (added: bool)
      requires Valid()
      modifies this, grids
      ensures Valid()
      ensures added <==> p !in old(Positions()) && InMap(config, position)
      ensures Positions() == if added then old(Positions())[p := position] else old(Positions())
    {
      GridIndexExact(config, position);
      if p in players {
        return false;
      }
      var gridIndex := GridIndexFor(config, position);
      if gridIndex.None? {
        return false;
      }
      players := players[p := PlayerState(position, gridIndex.value)];
      grids[gridIndex.value] := grids[gridIndex.value] + {p};
      return true;
    }

    method RemovePlayer(p: PlayerId) returns (removed: bool)
      requires Valid()
      modifies this, grids
      ensures Valid()
      ensures removed <==> p in old(Positions())
      ensures Positions() == old(Positions()) - {p}
    {
      if p !in players {
        return false;
      }
      var gridIndex := players[p].gridIndex;
      grids[gridIndex] := grids[gridIndex] - {p};
      players := players - {p};
      return true;
    }

    /** The delta is the exact difference between the views before and after; a rejected move
        leaves the index alone. */
    method MovePlayer(p: PlayerId, position: Position) returns (delta: Option<ViewDelta>)
      requires Valid()
      modifies this, grids
      ensures Valid()
      ensures delta.Some? <==> p in old(Positions()) && InMap(config, position)
      ensures delta.None? ==> Positions() == old(Positions())
      ensures delta.Some? ==>
        && Positions() == old(Positions())[p := position]
        && var before, now := Visible(config, old(Positions()), p), Visible(config, Positions(), p);
           delta.value == ViewDelta(now - before, before - now, before * now)
    {
      GridIndexExact(config, position);
      var gridIndex := GridIndexFor(config, position);
      if p !in players || gridIndex.None? {
        return None;
      }
      var before := VisiblePlayers(p);
      var oldGridIndex := players[p].gridIndex;
      if oldGridIndex != gridIndex.value {
        grids[oldGridIndex] := grids[oldGridIndex] - {p};
        grids[gridIndex.value] := grids[gridIndex.value] + {p};
      }
      players := players[p := PlayerState(position, gridIndex.value)];
      var now := VisiblePlayers(p);
      return Some(ViewDelta(now.value - before.value, before.value - now.value, before.value * now.value));
    }

    /** The nine-cell query finds exactly the brute-force view. */
    method VisiblePlayers(p: PlayerId) returns (result: Option<set<PlayerId>>)
      requires Valid()
      ensures result == if p in Positions() then Some(Visible(config, Positions(), p)) else None
    {
      if p !in players {
        return None;
      }
      var around := VisiblePlayersAt(players[p].position);
      var visible := around - {p};
      assert visible == Visible(config, Positions(), p);
      return Some(visible);
    }

    method VisiblePlayersAt(position: Position) returns (visible: set<PlayerId>)
      requires Valid()
      ensures visible == if InMap(config, position)
        then set q | q in Positions() && Near(config, position, Positions()[q]) else {}
    {
      GridIndexExact(config, position);
      visible := {};
      var gridIndex := GridIndexFor(config, position);
      if gridIndex.None? {
        return;
      }
      var neighbors := NeighborGridIndices(gridIndex.value);
      assert forall j | 0 <= j < |neighbors| :: neighbors[j] in neighbors;
      for k := 0 to |neighbors|
        invariant forall q :: q in visible <==> exists j | 0 <= j < k :: q in grids[neighbors[j]]
      {
        visible := visible + grids[neighbors[k]];
      }
      assert forall q | q in players :: players[q].gridIndex in neighbors <==> Near(config, position, players[q].position);
      assert forall q | q in players && players[q].gridIndex in neighbors :: q in grids[players[q].gridIndex];
    }

    /** The cells around a cell: all adjacent cells of the grid, each once, in ascending order. */
    method NeighborGridIndices(center: nat) returns (indices: seq<nat>)
      requires center < config.columns * config.rows
      ensures forall i: nat :: i in indices <==> i < config.columns * config.rows && Adjacent(config, center, i)
      ensures forall j, k | 0 <= j < k < |indices| :: indices[j] < indices[k]
    {
      var row0, column0 := center / config.columns, center % config.columns;
      indices := [];
      for rowOffset := -1 to 2
        invariant Lists(config, center, row0 + rowOffset, column0 - 1, indices)
      {
        var row := row0 + rowOffset;
        if row < 0 || row >= config.rows {
          ListsNextRow(config, center, row, indices);
          continue;
        }
        for columnOffset := -1 to 2
          invariant Lists(config, center, row, column0 + columnOffset, indices)
        {
          var column := column0 + columnOffset;
          ListsNextColumn(config, center, row, column, indices);
          if column < 0 || column >= config.columns {
            continue;
          }
          CellIsNat(row, column, config.columns);
          indices := indices + [row * config.columns + column];
        }
        ListsNextRow(config, center, row, indices);
      }
      ListsAll(config, center, indices);
    }
  }
}
