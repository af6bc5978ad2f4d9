/**
 * The per-player boards of a match and the grid bookkeeping of the game
 * manager: two players, each owning a 10 x 10 table of tiles, a 10 x 10 table
 * of "revealed" flags and the list of ships placed so far; the active player's
 * board is the one every operation works on.
 */
module Game {
  import opened Wrappers

  /** Side length of the square board. */
  const Size: int := 10

  /** What occupies a cell. */
  datatype Kind = Empty | Battleship | Carrier | Cruiser | Submarine | Destroyer

  /** Identity of one instantiated ship: its scene object and its ship behaviour alike. */
  type ShipId = nat

  /** The contents of one board cell: what occupies it and which ship, if any. */
  datatype Tile = Tile(kind: Kind, ship: Option<ShipId>) {
    /** A tile is occupied exactly when its kind is not Empty (an assumption:
        the tile type's own definition is not part of this model). */
    predicate IsOccupied() { kind != Empty }
  }

  const EmptyTile: Tile := Tile(Empty, None)

  /** A board coordinate (x, z). */
  type Cell = (int, int)

  predicate InBounds(c: Cell) { 0 <= c.0 < Size && 0 <= c.1 < Size }

  predicate AllInBounds(fp: seq<Cell>) { forall k :: 0 <= k < |fp| ==> InBounds(fp[k]) }

  /** A Size x Size table, indexed first by x (row) and then by z (column). */
  predicate IsGrid<T>(g: seq<seq<T>>) { |g| == Size && forall x :: 0 <= x < Size ==> |g[x]| == Size }

  /** The first n cells of row x of an array. */
  function RowCells<T>(a: array2<T>, x: int, n: int): (r: seq<T>)
    requires 0 <= x < a.Length0 && 0 <= n <= a.Length1
    reads a
    ensures |r| == n && forall z :: 0 <= z < n ==> r[z] == a[x, z]
  {
    if n == 0 then [] else RowCells(a, x, n - 1) + [a[x, n - 1]]
  }

  /** The first n rows of an array. */
  function Rows<T>(a: array2<T>, n: int): (g: seq<seq<T>>)
    requires 0 <= n <= a.Length0
    reads a
    ensures |g| == n && forall x :: 0 <= x < n ==> g[x] == RowCells(a, x, a.Length1)
  {
    if n == 0 then [] else Rows(a, n - 1) + [RowCells(a, n - 1, a.Length1)]
  }

  /** The contents of a Size x Size array as a table of rows. */
  function Cells<T>(a: array2<T>): (g: seq<seq<T>>)
    requires a.Length0 == Size && a.Length1 == Size
    reads a
    ensures IsGrid(g)
    ensures forall x, z :: 0 <= x < Size && 0 <= z < Size ==> g[x][z] == a[x, z]
  {
    Rows(a, Size)
  }

  function EmptyGrid(): (g: seq<seq<Tile>>)
    ensures IsGrid(g)
  {
    seq(Size, _ => seq(Size, _ => EmptyTile))
  }

  function Unrevealed(): (g: seq<seq<bool>>)
    ensures IsGrid(g)
  {
    seq(Size, _ => seq(Size, _ => false))
  }

  /** The table g with the cells of the footprint fp overwritten by t, one
      after the other. */
  function Stamp(g: seq<seq<Tile>>, fp: seq<Cell>, t: Tile): (r: seq<seq<Tile>>)
    requires IsGrid(g) && AllInBounds(fp)
    ensures IsGrid(r)
    ensures forall x, z {:trigger r[x][z]} :: 0 <= x < Size && 0 <= z < Size ==> r[x][z] == if (x, z) in fp then t else g[x][z]
    decreases |fp|
  {
    if fp == [] then g
    else
      var c := fp[|fp| - 1];
      var h := Stamp(g, fp[..|fp| - 1], t);
      assert forall d :: d in fp <==> d in fp[..|fp| - 1] || d == c by {
        assert fp == fp[..|fp| - 1] + [c];
      }
      h[c.0 := h[c.0][c.1 := t]]
  }

  /** The abstract value of one player's board. */
  datatype BoardView = BoardView(grid: seq<seq<Tile>>, revealed: seq<seq<bool>>, ships: seq<ShipId>)

  predicate WellShaped(b: BoardView) { IsGrid(b.grid) && IsGrid(b.revealed) }

  /** Every ship that a tile refers to is in the board's list of placed ships. */
  predicate Recorded(b: BoardView)
    requires WellShaped(b)
  {
    forall x, z :: 0 <= x < Size && 0 <= z < Size && b.grid[x][z].ship.Some? ==> b.grid[x][z].ship.value in b.ships
  }

  /** A freshly constructed board: every tile empty, nothing revealed, no ships. */
  function NewBoard(): (b: BoardView)
    ensures WellShaped(b) && Recorded(b)
    ensures forall x, z :: 0 <= x < Size && 0 <= z < Size ==> b.grid[x][z] == EmptyTile && !b.revealed[x][z]
    ensures b.ships == []
  {
    BoardView(EmptyGrid(), Unrevealed(), [])
  }

  /** The board after one ship of the given kind has been written over the
      footprint fp (whatever was there before) and recorded in the list. */
  function Placed(b: BoardView, fp: seq<Cell>, kind: Kind, ship: ShipId): (r: BoardView)
    requires WellShaped(b) && AllInBounds(fp)
    ensures WellShaped(r)
    ensures forall k :: 0 <= k < |fp| ==> r.grid[fp[k].0][fp[k].1] == Tile(kind, Some(ship))
    ensures forall x, z {:trigger r.grid[x][z]} :: 0 <= x < Size && 0 <= z < Size && (x, z) !in fp ==> r.grid[x][z] == b.grid[x][z]
    ensures r.revealed == b.revealed && r.ships == b.ships + [ship]
    ensures Recorded(b) ==> Recorded(r)
  {
    b.(grid := Stamp(b.grid, fp, Tile(kind, Some(ship))), ships := b.ships + [ship])
  }

  /** The board after all its ships are deleted: every tile empty and the
      list cleared, while the revealed flags are kept. */
  function Cleared(b: BoardView): (r: BoardView)
    requires WellShaped(b)
    ensures WellShaped(r) && Recorded(r)
    ensures forall x, z :: 0 <= x < Size && 0 <= z < Size ==> !r.grid[x][z].IsOccupied()
    ensures r.revealed == b.revealed && r.ships == []
  {
    b.(grid := EmptyGrid(), ships := [])
  }

  /** Deleting all ships twice leaves the same board as deleting them once. */
  lemma ClearedIdempotent(b: BoardView)
    requires WellShaped(b)
    ensures Cleared(Cleared(b)) == Cleared(b)
  {
  }

  /** Deleting all ships undoes a placement entirely. */
  lemma ClearedForgetsPlacement(b: BoardView, fp: seq<Cell>, kind: Kind, ship: ShipId)
    requires WellShaped(b) && AllInBounds(fp)
    ensures Cleared(Placed(b, fp, kind, ship)) == Cleared(b)
  {
  }

  // ---------------------------------------------------------------------------
  // The debug dump of a grid
  // ---------------------------------------------------------------------------

  /** The letter the dump shows for a cell: one per ship kind, '0' otherwise. */
  function CellLetter(k: Kind): (c: char)
    ensures c == '0' <==> k == Empty
  {
    match k
    case Battleship => 'B'
    case Carrier => 'C'
    case Cruiser => 'R'
    case Submarine => 'S'
    case Destroyer => 'D'
    case Empty => '0'
  }

  /** The text appended for cell j of a row: its letter, a bar after the tenth
      cell of the row, then a line break. */
  function CellText(t: Tile, j: int): string
  {
    [CellLetter(t.kind)] + (if j % 10 == 9 then "|" else "") + "\n"
  }

  /** The text of the first n cells of a row, in the order the dump appends it. */
  function RowPrefix(row: seq<Tile>, n: nat): string
    requires n <= |row|
  {
    if n == 0 then "" else RowPrefix(row, n - 1) + CellText(row[n - 1], n - 1)
  }

  /** The text of one row: an opening bar, then the text of all its cells. */
  function RowText(row: seq<Tile>): string
    requires |row| == Size
  {
    "|" + RowPrefix(row, Size)
  }

  /** The text of the first m rows. */
  function GridPrefix(g: seq<seq<Tile>>, m: nat): string
    requires IsGrid(g) && m <= Size
  {
    if m == 0 then "" else GridPrefix(g, m - 1) + RowText(g[m - 1])
  }

  /** The string the debug dump builds for a grid. */
  function Render(g: seq<seq<Tile>>): string
    requires IsGrid(g)
  {
    GridPrefix(g, Size)
  }

  /** Reference layout of one 22-character row, character by character: a bar,
      then each cell's letter followed by a line break, with a second bar
      slipped in before the last line break. */
  function RowChar(row: seq<Tile>, q: int): char
    requires |row| == Size && 0 <= q < 2 * Size + 2
  {
    if q == 0 || q == 2 * Size then '|'
    else if q % 2 == 1 && q < 2 * Size then CellLetter(row[q / 2].kind)
    else '\n'
  }

  /** Reference layout of the whole dump: row p / 22, position p % 22. */
  function RenderChar(g: seq<seq<Tile>>, p: int): char
    requires IsGrid(g) && 0 <= p < Size * (2 * Size + 2)
  {
    RowChar(g[p / (2 * Size + 2)], p % (2 * Size + 2))
  }

  lemma {:induction false} RowPrefixLayout(row: seq<Tile>, n: nat)
    requires |row| == Size && n <= Size
    ensures |RowPrefix(row, n)| == 2 * n + (if n == Size then 1 else 0)
    ensures forall q :: 0 <= q < |RowPrefix(row, n)| ==> RowPrefix(row, n)[q] == RowChar(row, q + 1)
  {
    if n > 0 {
      RowPrefixLayout(row, n - 1);
      var p := RowPrefix(row, n - 1);
      var c := CellText(row[n - 1], n - 1);
      assert RowPrefix(row, n) == p + c;
      forall q | 0 <= q < |p + c|
        ensures (p + c)[q] == RowChar(row, q + 1)
      {
        if q >= |p| {
          assert q + 1 == 2 * n - 1 || q + 1 == 2 * n || (n == Size && q + 1 == 2 * n + 1);
        }
      }
    }
  }

  /** Each row of the dump is exactly its reference layout. */
  lemma RowTextLayout(row: seq<Tile>)
    requires |row| == Size
    ensures |RowText(row)| == 2 * Size + 2
    ensures forall q :: 0 <= q < 2 * Size + 2 ==> RowText(row)[q] == RowChar(row, q)
  {
    RowPrefixLayout(row, Size);
  }

  /** Position q of row m of the dump is character m * 22 + q of it. */
  lemma RowPosition(m: int, q: int)
    requires 0 <= m && 0 <= q < 2 * Size + 2
    ensures (m * (2 * Size + 2) + q) / (2 * Size + 2) == m
    ensures (m * (2 * Size + 2) + q) % (2 * Size + 2) == q
  {
  }

  lemma {:induction false} GridPrefixLayout(g: seq<seq<Tile>>, m: nat)
    requires IsGrid(g) && m <= Size
    ensures |GridPrefix(g, m)| == m * (2 * Size + 2)
    ensures forall p :: 0 <= p < |GridPrefix(g, m)| ==> GridPrefix(g, m)[p] == RenderChar(g, p)
  {
    if m > 0 {
      GridPrefixLayout(g, m - 1);
      RowTextLayout(g[m - 1]);
      var a := GridPrefix(g, m - 1);
      var r := RowText(g[m - 1]);
      assert GridPrefix(g, m) == a + r;
      forall p | 0 <= p < |a + r|
        ensures (a + r)[p] == RenderChar(g, p)
      {
        if p >= |a| {
          RowPosition(m - 1, p - |a|);
        }
      }
    }
  }

  /** The dump has 10 rows of 22 characters, each laid out as RowChar says. */
  lemma RenderLayout(g: seq<seq<Tile>>)
    requires IsGrid(g)
    ensures |Render(g)| == Size * (2 * Size + 2) == 220
    ensures forall p :: 0 <= p < |Render(g)| ==> Render(g)[p] == RenderChar(g, p)
  {
    GridPrefixLayout(g, Size);
  }

  /** Row i, column j of the dump shows the letter of cell (i, j): the letter
      stands at offset 1 + 2 * j of the row, and is followed by a line break
      (by a bar and a line break after the last column). */
  lemma RenderCell(g: seq<seq<Tile>>, i: int, j: int)
    requires IsGrid(g) && 0 <= i < Size && 0 <= j < Size
    ensures |Render(g)| == 220
    ensures Render(g)[22 * i] == '|'
    ensures Render(g)[22 * i + 1 + 2 * j] == CellLetter(g[i][j].kind)
    ensures j < Size - 1 ==> Render(g)[22 * i + 2 + 2 * j] == '\n'
    ensures Render(g)[22 * i + 20] == '|' && Render(g)[22 * i + 21] == '\n'
  {
    RenderLayout(g);
    var base := 22 * i;
    assert RenderChar(g, base) == RowChar(g[i], 0) by {
      assert base / 22 == i && base % 22 == 0;
    }
    assert RenderChar(g, base + 1 + 2 * j) == RowChar(g[i], 1 + 2 * j) by {
      assert (base + 1 + 2 * j) / 22 == i && (base + 1 + 2 * j) % 22 == 1 + 2 * j;
    }
    assert (1 + 2 * j) / 2 == j;
    if j < Size - 1 {
      assert RenderChar(g, base + 2 + 2 * j) == RowChar(g[i], 2 + 2 * j) by {
        assert (base + 2 + 2 * j) / 22 == i && (base + 2 + 2 * j) % 22 == 2 + 2 * j;
      }
    }
    assert RenderChar(g, base + 20) == RowChar(g[i], 20) by {
      assert (base + 20) / 22 == i && (base + 20) % 22 == 20;
    }
    assert RenderChar(g, base + 21) == RowChar(g[i], 21) by {
      assert (base + 21) / 22 == i && (base + 21) % 22 == 21;
    }
  }

  // ---------------------------------------------------------------------------
  // Players and the game manager
  // ---------------------------------------------------------------------------

  /** One player's board state. The ghost fields hold the tables' contents
      as values; Valid() ties them to the arrays cell by cell. */
  class Player {
    const myGrid: array2<Tile>
    const revealedGrid: array2<bool>
    var placedShipList: seq<ShipId>
    ghost var grid: seq<seq<Tile>>
    ghost var revealed: seq<seq<bool>>

    ghost predicate Valid()
      reads this, myGrid, revealedGrid
    {
      myGrid.Length0 == Size && myGrid.Length1 == Size &&
      revealedGrid.Length0 == Size && revealedGrid.Length1 == Size &&
      IsGrid(grid) && IsGrid(revealed) &&
      (forall x, z :: 0 <= x < Size && 0 <= z < Size ==> myGrid[x, z] == grid[x][z]) &&
      (forall x, z :: 0 <= x < Size && 0 <= z < Size ==> revealedGrid[x, z] == revealed[x][z])
    }

    ghost function View(): BoardView
      reads this
    {
      BoardView(grid, revealed, placedShipList)
    }

    /** The grid read out of the array is the ghost table. */
    lemma CellsAreGrid()
      requires Valid()
      ensures Cells(myGrid) == grid
    {
      forall x | 0 <= x < Size
        ensures Cells(myGrid)[x] == grid[x]
      {
      }
    }

    /** Fills every cell with an empty tile and clears every revealed flag. */
    constructor ()
      ensures Valid() && fresh(myGrid) && fresh(revealedGrid)
      ensures View() == NewBoard()
    {
      var tiles := new Tile[Size, Size];
      var flags := new bool[Size, Size];
      for x := 0 to Size
        invariant forall i, j :: 0 <= i < x && 0 <= j < Size ==> tiles[i, j] == EmptyTile && !flags[i, j]
      {
        for y := 0 to Size
          invariant forall i, j :: 0 <= i < x && 0 <= j < Size ==> tiles[i, j] == EmptyTile && !flags[i, j]
          invariant forall j :: 0 <= j < y ==> tiles[x, j] == EmptyTile && !flags[x, j]
        {
          tiles[x, y] := EmptyTile;
          flags[x, y] := false;
        }
      }
      myGrid := tiles;
      revealedGrid := flags;
      placedShipList := [];
      grid := EmptyGrid();
      revealed := Unrevealed();
    }
  }

  /** The two players' boards and which of them is active. */
  class GameManager {
    const players: seq<Player>
    var activePlayer: int

    /** The objects the manager's invariant depends on. */
    ghost function Repr(): set<object>
    {
      if |players| == 2 then
        {this, players[0], players[1], players[0].myGrid, players[1].myGrid,
         players[0].revealedGrid, players[1].revealedGrid}
      else {this}
    }

    ghost predicate Valid()
      reads Repr()
    {
      |players| == 2 && 0 <= activePlayer < 2 &&
      players[0] != players[1] &&
      players[0].myGrid != players[1].myGrid &&
      players[0].revealedGrid != players[1].revealedGrid &&
      players[0].Valid() && players[1].Valid()
    }

    function Active(): Player
      requires 0 <= activePlayer < |players|
      reads this`activePlayer
    {
      players[activePlayer]
    }

    function Other(): Player
      requires |players| == 2 && 0 <= activePlayer < 2
      reads this`activePlayer
    {
      players[1 - activePlayer]
    }

    /** The active player's grid read out of its array. */
    function ActiveGrid(): (g: seq<seq<Tile>>)
      requires Valid()
      reads Repr()
      ensures g == Active().View().grid
    {
      var p := players[activePlayer];
      p.CellsAreGrid();
      Cells(p.myGrid)
    }

    /** Two freshly constructed players; the first one is active. */
    constructor ()
      ensures Valid() && activePlayer == 0
      ensures fresh(players[0]) && fresh(players[1])
      ensures Active().View() == NewBoard() && Other().View() == NewBoard()
    {
      var first := new Player();
      var second := new Player();
      players := [first, second];
      activePlayer := 0;
    }

    /** Records a placed ship in the active player's list. */
    method AddShipToList(placedShip: ShipId)
      requires Valid()
      modifies Active()
      ensures Valid()
      ensures Active().View() == old(Active().View()).(ships := old(Active().View().ships) + [placedShip])
    {
      players[activePlayer].placedShipList := players[activePlayer].placedShipList + [placedShip];
    }

    /** Writes a ship over the cells of its footprint on the active player's
        grid, without looking at what was there, and records the ship. */
    method UpdateGrid(footprint: seq<Cell>, kind: Kind, ship: ShipId)
      requires Valid() && AllInBounds(footprint)
      modifies Active(), Active().myGrid
      ensures Valid()
      ensures Active().View() == Placed(old(Active().View()), footprint, kind, ship)
      ensures Other().View() == old(Other().View())
    {
      var player := players[activePlayer];
      var tiles := player.myGrid;
      for k := 0 to |footprint|
        modifies tiles
        invariant forall x, z :: 0 <= x < Size && 0 <= z < Size ==>
          tiles[x, z] == if (x, z) in footprint[..k] then Tile(kind, Some(ship)) else old(tiles[x, z])
      {
        assert footprint[..k + 1] == footprint[..k] + [footprint[k]];
        tiles[footprint[k].0, footprint[k].1] := Tile(kind, Some(ship));
      }
      assert footprint[..|footprint|] == footprint;
      player.grid := Stamp(player.grid, footprint, Tile(kind, Some(ship)));
      AddShipToList(ship);
      var _ := DebugGrid();
    }

    /** Whether cell (x, z) of the active player's grid is occupied. */
    method CheckIfOccupied(x: int, z: int) returns (occupied: bool)
      requires Valid() && InBounds((x, z))
      ensures occupied <==> Active().View().grid[x][z].kind != Empty
    {
      occupied := players[activePlayer].myGrid[x, z].IsOccupied();
    }

    /** The debug dump of the active player's grid. */
    method DebugGrid() returns (s: string)
      requires Valid()
      ensures s == Render(Active().View().grid)
    {
      var tiles := players[activePlayer].myGrid;
      ghost var g := players[activePlayer].grid;
      s := "";
      var sep := 0;
      for i := 0 to 10
        invariant s == GridPrefix(g, i)
      {
        s := s + "|";
        for j := 0 to 10
          invariant s == GridPrefix(g, i) + "|" + RowPrefix(g[i], j)
        {
          var t := CellLetter(tiles[i, j].kind);
          s := s + [t];
          sep := j % 10;
          if sep == 9 {
            s := s + "|";
          }
          s := s + "\n";
        }
      }
    }

    /** Empties every cell of the active player's grid. */
    method InitGrid()
      requires Valid()
      modifies Active(), Active().myGrid
      ensures Valid()
      ensures Active().View() == old(Active().View()).(grid := EmptyGrid())
      ensures Other().View() == old(Other().View())
    {
      var player := players[activePlayer];
      var tiles := player.myGrid;
      for x := 0 to Size
        modifies tiles
        invariant forall i, j :: 0 <= i < x && 0 <= j < Size ==> tiles[i, j] == EmptyTile
      {
        for y := 0 to Size
          invariant forall i, j :: 0 <= i < x && 0 <= j < Size ==> tiles[i, j] == EmptyTile
          invariant forall j :: 0 <= j < y ==> tiles[x, j] == EmptyTile
        {
          tiles[x, y] := EmptyTile;
        }
      }
      player.grid := EmptyGrid();
    }

    /** Clears the active player's list of ships and empties its grid; the
        revealed flags and the other player are left alone. */
    method DeleteAllShips()
      requires Valid()
      modifies Active(), Active().myGrid
      ensures Valid()
      ensures Active().View() == Cleared(old(Active().View()))
      ensures Other().View() == old(Other().View())
    {
      players[activePlayer].placedShipList := [];
      InitGrid();
    }
  }
}
