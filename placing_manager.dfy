/**
 * The ship-placement bookkeeping of the placing manager: the list of ship
 * kinds to place with their quotas and counts, the placement state machine
 * (selected kind, "placing" and "can place" flags, ghost previews, the ready
 * flag) and the randomised automatic placement, whose random draws are
 * supplied by the caller.
 *
 * An entry of the ship list has a configured part, fixed once the scene is
 * set up (ShipConfig), and a changing part: its placed count and the state
 * of its ghost preview. The manager keeps the configured parts in one
 * sequence and each changing field in a sequence of its own, all indexed by
 * the entry's position in the list.
 */
module Placing {
  import opened Wrappers
  import opened Game

  /** The configured part of one entry of the ship list: the kind its prefab
      places, the cells its ghost covers at rotation 0 (offsets from the
      ghost's base cell) and how many ships of it to place. */
  datatype ShipConfig = ShipConfig(kind: Kind, shape: seq<Cell>, amountToPlace: int)

  /** Every kind has exactly its quota placed. */
  predicate AllPlaced(ships: seq<ShipConfig>, placed: seq<int>)
  {
    |placed| == |ships| && forall k :: 0 <= k < |ships| ==> placed[k] == ships[k].amountToPlace
  }

  /** No kind has a negative count or more placed than its quota. */
  predicate WithinQuotas(ships: seq<ShipConfig>, placed: seq<int>)
  {
    |placed| == |ships| && forall k :: 0 <= k < |ships| ==> 0 <= placed[k] <= ships[k].amountToPlace
  }

  /** At most one ghost preview is shown. */
  predicate AtMostOneGhost(shown: seq<bool>)
  {
    forall k, m :: 0 <= k < m < |shown| ==> !(shown[k] && shown[m])
  }

  /** The ghost flags of n entries when only entry index shows its ghost
      (none when index is -1). */
  function ShowGhost(n: nat, index: int): (r: seq<bool>)
    ensures |r| == n && AtMostOneGhost(r)
    ensures forall k :: 0 <= k < n ==> (r[k] <==> k == index)
  {
    if n == 0 then [] else ShowGhost(n - 1, index) + [n - 1 == index]
  }

  function TotalPlaced(placed: seq<int>): int
  {
    if placed == [] then 0 else placed[0] + TotalPlaced(placed[1..])
  }

  function TotalRequired(ships: seq<ShipConfig>): int
  {
    if ships == [] then 0 else ships[0].amountToPlace + TotalRequired(ships[1..])
  }

  /** Changing the count of one kind changes the total by the same amount. */
  lemma {:induction false} TotalPlacedDelta(a: seq<int>, b: seq<int>, i: int)
    requires |a| == |b|
    requires forall k :: 0 <= k < |a| && k != i ==> a[k] == b[k]
    ensures TotalPlaced(b) - TotalPlaced(a) == if 0 <= i < |a| then b[i] - a[i] else 0
  {
    if |a| > 0 {
      TotalPlacedDelta(a[1..], b[1..], i - 1);
    }
  }

  /** With every count reset, nothing is placed in total. */
  lemma {:induction false} TotalPlacedZero(placed: seq<int>)
    requires forall k :: 0 <= k < |placed| ==> placed[k] == 0
    ensures TotalPlaced(placed) == 0
  {
    if placed != [] {
      TotalPlacedZero(placed[1..]);
    }
  }

  /** While no kind is over its quota, every kind is complete exactly when the
      number of ships placed reaches the number required. */
  lemma {:induction false} AllPlacedIffTotalsMeet(ships: seq<ShipConfig>, placed: seq<int>)
    requires WithinQuotas(ships, placed)
    ensures TotalPlaced(placed) <= TotalRequired(ships)
    ensures AllPlaced(ships, placed) <==> TotalPlaced(placed) == TotalRequired(ships)
  {
    if ships != [] {
      AllPlacedIffTotalsMeet(ships[1..], placed[1..]);
      assert AllPlaced(ships, placed) <==>
             placed[0] == ships[0].amountToPlace && AllPlaced(ships[1..], placed[1..]) by {
        assert forall k :: 1 <= k < |ships| ==> ships[1..][k - 1] == ships[k] && placed[1..][k - 1] == placed[k];
      }
    }
  }

  // ---------------------------------------------------------------------------
  // Footprints, rotation and the part-over-a-tile test
  // ---------------------------------------------------------------------------

  /** The offset d turned by t quarter turns about the vertical axis; one
      quarter turn takes (x, z) to (z, -x). */
  function Turn(d: Cell, t: int): (r: Cell)
    requires 0 <= t < 4
  {
    if t == 0 then d
    else if t == 1 then (d.1, -d.0)
    else if t == 2 then (-d.0, -d.1)
    else (-d.1, d.0)
  }

  /** Turning by t and then by u quarter turns is turning by (t + u) mod 4. */
  lemma TurnsCompose(d: Cell, t: int, u: int)
    requires 0 <= t < 4 && 0 <= u < 4
    ensures Turn(Turn(d, t), u) == Turn(d, (t + u) % 4)
  {
  }

  /** The cells covered by a ship of the given shape whose base is at (x, z),
      turned by t quarter turns. */
  function Footprint(shape: seq<Cell>, x: int, z: int, t: int): (fp: seq<Cell>)
    requires 0 <= t < 4
    ensures |fp| == |shape|
    ensures forall k {:trigger fp[k]} :: 0 <= k < |shape| ==> fp[k] == (x + Turn(shape[k], t).0, z + Turn(shape[k], t).1)
  {
    if shape == [] then []
    else
      var d := Turn(shape[|shape| - 1], t);
      Footprint(shape[..|shape| - 1], x, z, t) + [(x + d.0, z + d.1)]
  }

  /** The test a part of a ship makes to see whether it lies over a free
      tile; it may look at the current grid. */
  type Oracle = (seq<seq<Tile>>, Cell) -> bool

  /** The test only passes for cells of the board. */
  ghost predicate OracleSound(overTile: Oracle)
  {
    forall g, c :: overTile(g, c) ==> InBounds(c)
  }

  /** Every part of the footprint passes the test. */
  predicate Fits(grid: seq<seq<Tile>>, fp: seq<Cell>, overTile: Oracle)
  {
    forall k :: 0 <= k < |fp| ==> overTile(grid, fp[k])
  }

  /** Tests the parts of a footprint in order and stops at the first that
      fails. */
  method CheckForOtherShips(grid: seq<seq<Tile>>, footprint: seq<Cell>, overTile: Oracle) returns (ok: bool)
    ensures ok <==> Fits(grid, footprint, overTile)
    ensures ok && OracleSound(overTile) ==> AllInBounds(footprint)
  {
    for k := 0 to |footprint|
      invariant forall m :: 0 <= m < k ==> overTile(grid, footprint[m])
    {
      if !overTile(grid, footprint[k]) {
        return false;
      }
    }
    return true;
  }

  /** A test that passes for an in-bounds cell whose tile is empty. */
  function FreeTile(g: seq<seq<Tile>>, c: Cell): bool
  {
    InBounds(c) && IsGrid(g) && !g[c.0][c.1].IsOccupied()
  }

  // ---------------------------------------------------------------------------
  // Placements and automatic placement, one base position at a time
  // ---------------------------------------------------------------------------

  /** The random draws of one base-position attempt: the base cell, the
      rotation index drawn on each of the four tries, and the identity of the
      ship instantiated if that try is placed. */
  datatype Attempt = Attempt(x: int, z: int, turns: seq<int>, ids: seq<ShipId>)

  predicate WellFormedAttempt(a: Attempt)
  {
    0 <= a.x < Size && 0 <= a.z < Size && |a.turns| == 4 && |a.ids| == 4 &&
    forall r :: 0 <= r < 4 ==> 0 <= a.turns[r] < 4
  }

  /** The active board together with the placed count of every kind. */
  datatype Setup = Setup(board: BoardView, placed: seq<int>)

  /** One listed ship per counted placement, and every ship on the grid listed. */
  predicate ConsistentSetup(s: Setup)
  {
    WellShaped(s.board) && |s.board.ships| == TotalPlaced(s.placed) && Recorded(s.board)
  }

  /** One ship of the given kind, entry i of the list, written over fp and
      counted. */
  function AutoPlaced(s: Setup, kind: Kind, i: int, fp: seq<Cell>, id: ShipId): (r: Setup)
    requires WellShaped(s.board) && 0 <= i < |s.placed| && AllInBounds(fp)
    ensures WellShaped(r.board)
  {
    Setup(Placed(s.board, fp, kind, id), s.placed[i := s.placed[i] + 1])
  }

  /** A placement keeps the board and the counts consistent. */
  lemma PlacementKeepsConsistent(s: Setup, kind: Kind, i: int, fp: seq<Cell>, id: ShipId)
    requires WellShaped(s.board) && 0 <= i < |s.placed| && AllInBounds(fp)
    requires ConsistentSetup(s)
    ensures ConsistentSetup(AutoPlaced(s, kind, i, fp, id))
  {
    TotalPlacedDelta(s.placed, AutoPlaced(s, kind, i, fp, id).placed, i);
  }

  /** A placement of a kind that still has room keeps every kind within its
      quota; only that kind's count moves, by one, and so does the total. */
  lemma PlacementKeepsQuotas(ships: seq<ShipConfig>, s: Setup, i: int, fp: seq<Cell>, id: ShipId)
    requires WellShaped(s.board) && 0 <= i < |s.placed| && AllInBounds(fp)
    requires WithinQuotas(ships, s.placed) && s.placed[i] < ships[i].amountToPlace
    ensures var r := AutoPlaced(s, ships[i].kind, i, fp, id).placed;
      WithinQuotas(ships, r) && TotalPlaced(r) == TotalPlaced(s.placed) + 1 &&
      forall k :: 0 <= k < |r| ==> r[k] == s.placed[k] + (if k == i then 1 else 0)
  {
    TotalPlacedDelta(s.placed, AutoPlaced(s, ships[i].kind, i, fp, id).placed, i);
  }

  /** The first n tries of one attempt for entry i, configured as cfg: each
      try turns the ship by its drawn rotation and, when every part passes
      the test against the grid as it is at that moment, places a ship. The
      tries go on after a success. The flag says whether any try placed a
      ship. */
  function TryTurns(s: Setup, cfg: ShipConfig, i: int, a: Attempt, n: int, overTile: Oracle): (r: (Setup, bool))
    requires WellShaped(s.board) && 0 <= i < |s.placed| && WellFormedAttempt(a) && 0 <= n <= 4
    requires OracleSound(overTile)
    ensures WellShaped(r.0.board) && |r.0.placed| == |s.placed|
    decreases n, 1
  {
    if n == 0 then (s, false) else LastTry(s, cfg, i, a, n, overTile)
  }

  /** Try number n of an attempt, made after the n - 1 tries before it. */
  function LastTry(s: Setup, cfg: ShipConfig, i: int, a: Attempt, n: int, overTile: Oracle): (r: (Setup, bool))
    requires WellShaped(s.board) && 0 <= i < |s.placed| && WellFormedAttempt(a) && 0 < n <= 4
    requires OracleSound(overTile)
    ensures WellShaped(r.0.board) && |r.0.placed| == |s.placed|
    decreases n, 0
  {
    var (t, found) := TryTurns(s, cfg, i, a, n - 1, overTile);
    var fp := Footprint(cfg.shape, a.x, a.z, a.turns[n - 1]);
    if Fits(t.board.grid, fp, overTile) then (AutoPlaced(t, cfg.kind, i, fp, a.ids[n - 1]), true)
    else (t, found)
  }

  /** What one attempt does: only entry i's count moves, by at most one per
      try; the attempt succeeds exactly when it placed a ship, and a failed
      attempt changes nothing; the revealed flags stay; board and counts stay
      consistent. */
  lemma {:induction false} TryTurnsEffect(s: Setup, cfg: ShipConfig, i: int, a: Attempt, n: int, overTile: Oracle)
    requires WellShaped(s.board) && 0 <= i < |s.placed| && WellFormedAttempt(a) && 0 <= n <= 4
    requires OracleSound(overTile)
    ensures var r := TryTurns(s, cfg, i, a, n, overTile);
      (forall k :: 0 <= k < |s.placed| && k != i ==> r.0.placed[k] == s.placed[k]) &&
      s.placed[i] <= r.0.placed[i] <= s.placed[i] + n &&
      (r.1 <==> r.0.placed[i] > s.placed[i]) &&
      (!r.1 ==> r.0 == s) &&
      r.0.board.revealed == s.board.revealed &&
      (ConsistentSetup(s) ==> ConsistentSetup(r.0))
  {
    if n > 0 {
      TryTurnsEffect(s, cfg, i, a, n - 1, overTile);
      var t := TryTurns(s, cfg, i, a, n - 1, overTile);
      var fp := Footprint(cfg.shape, a.x, a.z, a.turns[n - 1]);
      if Fits(t.0.board.grid, fp, overTile) {
        assert AllInBounds(fp);
        if ConsistentSetup(s) {
          PlacementKeepsConsistent(t.0, cfg.kind, i, fp, a.ids[n - 1]);
        }
      }
    }
  }

  /** A one-part ship covers the single cell its part is turned to. */
  lemma OnePartFootprint(shape: seq<Cell>, x: int, z: int, t: int)
    requires |shape| == 1 && 0 <= t < 4
    ensures Footprint(shape, x, z, t) == [(x + Turn(shape[0], t).0, z + Turn(shape[0], t).1)]
  {
  }

  /** A try of a ship whose footprint is the single free cell c places it
      there: the count goes up by one and every other tile stays. */
  lemma SingleCellTry(s: Setup, cfg: ShipConfig, a: Attempt, n: int, c: Cell)
    requires WellShaped(s.board) && |s.placed| == 1 && WellFormedAttempt(a) && 0 < n <= 4
    requires OracleSound(FreeTile)
    requires Footprint(cfg.shape, a.x, a.z, a.turns[n - 1]) == [c] && InBounds(c)
    requires !TryTurns(s, cfg, 0, a, n - 1, FreeTile).0.board.grid[c.0][c.1].IsOccupied()
    ensures var t := TryTurns(s, cfg, 0, a, n - 1, FreeTile).0;
      var r := TryTurns(s, cfg, 0, a, n, FreeTile);
      r.1 && r.0.placed[0] == t.placed[0] + 1 &&
      forall d: Cell :: InBounds(d) && d != c ==> r.0.board.grid[d.0][d.1] == t.board.grid[d.0][d.1]
  {
    var t := TryTurns(s, cfg, 0, a, n - 1, FreeTile).0;
    assert Fits(t.board.grid, [c], FreeTile);
  }

  /** Cells that are inside the board, pairwise different and empty on grid g. */
  predicate FreeCells(g: seq<seq<Tile>>, cells: seq<Cell>)
    requires IsGrid(g)
  {
    (forall k :: 0 <= k < |cells| ==> InBounds(cells[k]) && !g[cells[k].0][cells[k].1].IsOccupied()) &&
    (forall k, m :: 0 <= k < m < |cells| ==> cells[k] != cells[m])
  }

  /** When the first n tries of an attempt turn a one-part ship onto n
      different free cells, each of them places a ship, and the cells the
      later tries would use stay free. */
  lemma {:induction false} SingleCellTries(s: Setup, cfg: ShipConfig, a: Attempt, n: int, cells: seq<Cell>)
    requires WellShaped(s.board) && |s.placed| == 1 && WellFormedAttempt(a) && 0 <= n <= |cells| <= 4
    requires OracleSound(FreeTile) && FreeCells(s.board.grid, cells)
    requires forall k :: 0 <= k < |cells| ==> Footprint(cfg.shape, a.x, a.z, a.turns[k]) == [cells[k]]
    ensures var r := TryTurns(s, cfg, 0, a, n, FreeTile);
      (r.1 <==> n > 0) && r.0.placed[0] == s.placed[0] + n &&
      forall k :: n <= k < |cells| ==> !r.0.board.grid[cells[k].0][cells[k].1].IsOccupied()
  {
    if n > 0 {
      SingleCellTries(s, cfg, a, n - 1, cells);
      var t := TryTurns(s, cfg, 0, a, n - 1, FreeTile).0;
      SingleCellTry(s, cfg, a, n, cells[n - 1]);
      var r := TryTurns(s, cfg, 0, a, n, FreeTile).0;
      forall k | n <= k < |cells|
        ensures !r.board.grid[cells[k].0][cells[k].1].IsOccupied()
      {
        assert cells[k] != cells[n - 1];
        assert r.board.grid[cells[k].0][cells[k].1] == t.board.grid[cells[k].0][cells[k].1];
      }
    }
  }

  /** One base position can place several ships of one kind, even with a test
      that rejects occupied tiles: a one-part ship whose part is one cell away
      from its base lands on four different cells for the four rotations, so
      when those cells are free and the four draws are the four rotations,
      the attempt counts four ships, whatever the kind's quota. */
  lemma OneBasePositionCanPlaceFour(s: Setup, cfg: ShipConfig, a: Attempt)
    requires WellShaped(s.board) && |s.placed| == 1 && cfg.shape == [(1, 0)]
    requires WellFormedAttempt(a) && a.turns == [0, 1, 2, 3]
    requires 0 < a.x < Size - 1 && 0 < a.z < Size - 1
    requires !s.board.grid[a.x + 1][a.z].IsOccupied() && !s.board.grid[a.x][a.z - 1].IsOccupied()
    requires !s.board.grid[a.x - 1][a.z].IsOccupied() && !s.board.grid[a.x][a.z + 1].IsOccupied()
    ensures OracleSound(FreeTile)
    ensures var r := TryTurns(s, cfg, 0, a, 4, FreeTile);
            r.1 && r.0.placed[0] == s.placed[0] + 4
  {
    var x, z := a.x, a.z;
    var cells := [(x + 1, z), (x, z - 1), (x - 1, z), (x, z + 1)];
    assert FreeCells(s.board.grid, cells);
    forall k | 0 <= k < 4
      ensures Footprint(cfg.shape, x, z, a.turns[k]) == [cells[k]]
    {
      OnePartFootprint(cfg.shape, x, z, a.turns[k]);
    }
    SingleCellTries(s, cfg, a, 4, cells);
  }

  // ---------------------------------------------------------------------------
  // The automatic placement as functions of the draws
  // ---------------------------------------------------------------------------

  /** Every supplied draw is well formed. */
  predicate WellFormedAttempts(attempts: seq<Attempt>)
  {
    forall n :: 0 <= n < |attempts| ==> WellFormedAttempt(attempts[n])
  }

  /** The searches for n ships of entry i, configured as cfg: attempts are
      made with the draws from number from on, one base position per draw,
      until n ships are placed or the draws run out. The result is the new
      setup, whether all n were placed and the number of the next unused
      draw. With n = 1 this is the search for one ship. */
  function PlaceCopies(s: Setup, cfg: ShipConfig, i: int, attempts: seq<Attempt>, from: int, n: int, overTile: Oracle): (r: (Setup, bool, int))
    requires WellShaped(s.board) && 0 <= i < |s.placed| && 0 <= from <= |attempts|
    requires WellFormedAttempts(attempts) && OracleSound(overTile)
    ensures WellShaped(r.0.board) && |r.0.placed| == |s.placed| && from <= r.2 <= |attempts|
    decreases |attempts| - from, 2
  {
    if n <= 0 then (s, true, from) else SearchFrom(s, cfg, i, attempts, from, n, overTile)
  }

  /** The searches while ships are still missing: they fail when the draws
      have run out. */
  function SearchFrom(s: Setup, cfg: ShipConfig, i: int, attempts: seq<Attempt>, from: int, n: int, overTile: Oracle): (r: (Setup, bool, int))
    requires WellShaped(s.board) && 0 <= i < |s.placed| && 0 <= from <= |attempts|
    requires WellFormedAttempts(attempts) && OracleSound(overTile)
    ensures WellShaped(r.0.board) && |r.0.placed| == |s.placed| && from <= r.2 <= |attempts|
    decreases |attempts| - from, 1
  {
    if from == |attempts| then (s, false, from) else NextCopy(s, cfg, i, attempts, from, n, overTile)
  }

  /** The attempt with draw number from, then the searches for the ships
      still missing with the draws after it. */
  function NextCopy(s: Setup, cfg: ShipConfig, i: int, attempts: seq<Attempt>, from: int, n: int, overTile: Oracle): (r: (Setup, bool, int))
    requires WellShaped(s.board) && 0 <= i < |s.placed| && 0 <= from < |attempts|
    requires WellFormedAttempts(attempts) && OracleSound(overTile)
    ensures WellShaped(r.0.board) && |r.0.placed| == |s.placed| && from <= r.2 <= |attempts|
    decreases |attempts| - from, 0
  {
    var t := TryTurns(s, cfg, i, attempts[from], 4, overTile);
    PlaceCopies(t.0, cfg, i, attempts, from + 1, if t.1 then n - 1 else n, overTile)
  }

  /** The searches for n ships fail only when the draws run out; entry i's
      count never goes down, and goes up by at least n when they succeed. */
  lemma {:induction false} PlaceCopiesCounts(s: Setup, cfg: ShipConfig, i: int, attempts: seq<Attempt>, from: int, n: int, overTile: Oracle)
    requires WellShaped(s.board) && 0 <= i < |s.placed| && 0 <= from <= |attempts|
    requires WellFormedAttempts(attempts) && OracleSound(overTile)
    ensures var r := PlaceCopies(s, cfg, i, attempts, from, n, overTile);
      (r.1 || r.2 == |attempts|) &&
      r.0.placed[i] >= s.placed[i] &&
      (r.1 ==> r.0.placed[i] >= s.placed[i] + n)
    decreases |attempts| - from
  {
    if n > 0 && from < |attempts| {
      assert PlaceCopies(s, cfg, i, attempts, from, n, overTile) == NextCopy(s, cfg, i, attempts, from, n, overTile);
      TryTurnsEffect(s, cfg, i, attempts[from], 4, overTile);
      var t := TryTurns(s, cfg, i, attempts[from], 4, overTile);
      PlaceCopiesCounts(t.0, cfg, i, attempts, from + 1, if t.1 then n - 1 else n, overTile);
    }
  }

  /** The searches move no count but entry i's. */
  lemma {:induction false} PlaceCopiesKeepsOthers(s: Setup, cfg: ShipConfig, i: int, attempts: seq<Attempt>, from: int, n: int, overTile: Oracle)
    requires WellShaped(s.board) && 0 <= i < |s.placed| && 0 <= from <= |attempts|
    requires WellFormedAttempts(attempts) && OracleSound(overTile)
    ensures var r := PlaceCopies(s, cfg, i, attempts, from, n, overTile);
      forall k :: 0 <= k < |s.placed| && k != i ==> r.0.placed[k] == s.placed[k]
    decreases |attempts| - from
  {
    if n > 0 && from < |attempts| {
      assert PlaceCopies(s, cfg, i, attempts, from, n, overTile) == NextCopy(s, cfg, i, attempts, from, n, overTile);
      TryTurnsEffect(s, cfg, i, attempts[from], 4, overTile);
      var t := TryTurns(s, cfg, i, attempts[from], 4, overTile);
      PlaceCopiesKeepsOthers(t.0, cfg, i, attempts, from + 1, if t.1 then n - 1 else n, overTile);
    }
  }

  /** The searches keep the revealed flags. */
  lemma {:induction false} PlaceCopiesKeepsRevealed(s: Setup, cfg: ShipConfig, i: int, attempts: seq<Attempt>, from: int, n: int, overTile: Oracle)
    requires WellShaped(s.board) && 0 <= i < |s.placed| && 0 <= from <= |attempts|
    requires WellFormedAttempts(attempts) && OracleSound(overTile)
    ensures PlaceCopies(s, cfg, i, attempts, from, n, overTile).0.board.revealed == s.board.revealed
    decreases |attempts| - from
  {
    if n > 0 && from < |attempts| {
      assert PlaceCopies(s, cfg, i, attempts, from, n, overTile) == NextCopy(s, cfg, i, attempts, from, n, overTile);
      TryTurnsEffect(s, cfg, i, attempts[from], 4, overTile);
      var t := TryTurns(s, cfg, i, attempts[from], 4, overTile);
      PlaceCopiesKeepsRevealed(t.0, cfg, i, attempts, from + 1, if t.1 then n - 1 else n, overTile);
    }
  }

  /** The searches keep the board and the counts consistent. */
  lemma {:induction false} PlaceCopiesKeepsConsistent(s: Setup, cfg: ShipConfig, i: int, attempts: seq<Attempt>, from: int, n: int, overTile: Oracle)
    requires WellShaped(s.board) && 0 <= i < |s.placed| && 0 <= from <= |attempts|
    requires WellFormedAttempts(attempts) && OracleSound(overTile) && ConsistentSetup(s)
    ensures ConsistentSetup(PlaceCopies(s, cfg, i, attempts, from, n, overTile).0)
    decreases |attempts| - from
  {
    if n > 0 && from < |attempts| {
      assert PlaceCopies(s, cfg, i, attempts, from, n, overTile) == NextCopy(s, cfg, i, attempts, from, n, overTile);
      TryTurnsEffect(s, cfg, i, attempts[from], 4, overTile);
      var t := TryTurns(s, cfg, i, attempts[from], 4, overTile);
      PlaceCopiesKeepsConsistent(t.0, cfg, i, attempts, from + 1, if t.1 then n - 1 else n, overTile);
    }
  }

  /** A search for one ship that fails has changed nothing: no attempt
      placed a ship. */
  lemma {:induction false} FailedSearchChangesNothing(s: Setup, cfg: ShipConfig, i: int, attempts: seq<Attempt>, from: int, overTile: Oracle)
    requires WellShaped(s.board) && 0 <= i < |s.placed| && 0 <= from <= |attempts|
    requires WellFormedAttempts(attempts) && OracleSound(overTile)
    ensures var r := PlaceCopies(s, cfg, i, attempts, from, 1, overTile);
      !r.1 ==> r.0 == s && r.2 == |attempts|
    decreases |attempts| - from
  {
    if from < |attempts| {
      assert PlaceCopies(s, cfg, i, attempts, from, 1, overTile) == NextCopy(s, cfg, i, attempts, from, 1, overTile);
      TryTurnsEffect(s, cfg, i, attempts[from], 4, overTile);
      var t := TryTurns(s, cfg, i, attempts[from], 4, overTile);
      if t.1 {
        assert NextCopy(s, cfg, i, attempts, from, 1, overTile) == (t.0, true, from + 1);
      } else {
        assert NextCopy(s, cfg, i, attempts, from, 1, overTile) == PlaceCopies(t.0, cfg, i, attempts, from + 1, 1, overTile);
        FailedSearchChangesNothing(t.0, cfg, i, attempts, from + 1, overTile);
      }
    }
  }

  /** Searching for m ships is searching for one and then, if it was found,
      for the other m - 1 with the draws that are left. */
  lemma {:induction false} PlaceCopiesSplit(s: Setup, cfg: ShipConfig, i: int, attempts: seq<Attempt>, from: int, m: int, overTile: Oracle)
    requires WellShaped(s.board) && 0 <= i < |s.placed| && 0 <= from <= |attempts|
    requires WellFormedAttempts(attempts) && OracleSound(overTile) && m >= 1
    ensures var t := PlaceCopies(s, cfg, i, attempts, from, 1, overTile);
      PlaceCopies(s, cfg, i, attempts, from, m, overTile) ==
      if t.1 then PlaceCopies(t.0, cfg, i, attempts, t.2, m - 1, overTile) else t
    decreases |attempts| - from
  {
    if from < |attempts| {
      var t := TryTurns(s, cfg, i, attempts[from], 4, overTile);
      assert PlaceCopies(s, cfg, i, attempts, from, m, overTile) == NextCopy(s, cfg, i, attempts, from, m, overTile);
      assert PlaceCopies(s, cfg, i, attempts, from, 1, overTile) == NextCopy(s, cfg, i, attempts, from, 1, overTile);
      if t.1 {
        assert NextCopy(s, cfg, i, attempts, from, 1, overTile) == (t.0, true, from + 1);
        assert NextCopy(s, cfg, i, attempts, from, m, overTile) == PlaceCopies(t.0, cfg, i, attempts, from + 1, m - 1, overTile);
      } else {
        assert NextCopy(s, cfg, i, attempts, from, 1, overTile) == PlaceCopies(t.0, cfg, i, attempts, from + 1, 1, overTile);
        assert NextCopy(s, cfg, i, attempts, from, m, overTile) == PlaceCopies(t.0, cfg, i, attempts, from + 1, m, overTile);
        PlaceCopiesSplit(t.0, cfg, i, attempts, from + 1, m, overTile);
      }
    }
  }

  /** The search for one ship makes the attempt with draw number from; if
      that attempt placed a ship (leaving setup t) the search is over,
      otherwise it goes on from setup t with the next draw. */
  lemma SearchStep(s: Setup, cfg: ShipConfig, i: int, attempts: seq<Attempt>, from: int, overTile: Oracle, t: Setup, found: bool)
    requires WellShaped(s.board) && 0 <= i < |s.placed| && 0 <= from < |attempts|
    requires WellFormedAttempts(attempts) && OracleSound(overTile)
    requires (t, found) == TryTurns(s, cfg, i, attempts[from], 4, overTile)
    ensures var r := PlaceCopies(s, cfg, i, attempts, from, 1, overTile);
      found ==> r.0 == t && r.1 && r.2 == from + 1
    ensures !found ==> PlaceCopies(s, cfg, i, attempts, from, 1, overTile) == PlaceCopies(t, cfg, i, attempts, from + 1, 1, overTile)
  {
    assert PlaceCopies(s, cfg, i, attempts, from, 1, overTile) == NextCopy(s, cfg, i, attempts, from, 1, overTile);
  }

  /** When the search for one ship finds it, leaving setup t and draw number
      next, searching for m ships is searching for the other m - 1 from
      there; when it does not, the search for m ships fails the same way. */
  lemma PlaceCopiesStep(s: Setup, cfg: ShipConfig, i: int, attempts: seq<Attempt>, from: int, m: int, overTile: Oracle,
                        t: Setup, found: bool, next: int, goal: (Setup, bool, int), rest: int)
    requires WellShaped(s.board) && 0 <= i < |s.placed| && 0 <= from <= |attempts|
    requires WellFormedAttempts(attempts) && OracleSound(overTile) && m >= 1 && rest == m - 1
    requires var r := PlaceCopies(s, cfg, i, attempts, from, 1, overTile); t == r.0 && found == r.1 && next == r.2
    requires goal == PlaceCopies(s, cfg, i, attempts, from, m, overTile)
    ensures found ==> PlaceCopies(t, cfg, i, attempts, next, rest, overTile) == goal
    ensures !found ==> t == goal.0 && !goal.1 && next == goal.2
  {
    PlaceCopiesSplit(s, cfg, i, attempts, from, m, overTile);
  }

  /** The automatic placement from entry i of the list on: the searches for
      each entry's quota in list order, each continuing with the draws the
      one before left, stopping at the first entry whose searches run out of
      draws. */
  function PlaceAll(s: Setup, ships: seq<ShipConfig>, i: int, attempts: seq<Attempt>, from: int, overTile: Oracle): (r: (Setup, bool, int))
    requires WellShaped(s.board) && |s.placed| == |ships| && 0 <= i <= |ships| && 0 <= from <= |attempts|
    requires WellFormedAttempts(attempts) && OracleSound(overTile)
    ensures WellShaped(r.0.board) && |r.0.placed| == |s.placed| && from <= r.2 <= |attempts|
    decreases |ships| - i
  {
    if i == |ships| then (s, true, from)
    else
      var t := PlaceCopies(s, ships[i], i, attempts, from, ships[i].amountToPlace, overTile);
      if !t.1 then t
      else PlaceAll(t.0, ships, i + 1, attempts, t.2, overTile)
  }

  /** A successful automatic placement from entry i on leaves the counts of
      the entries before i as they were. */
  lemma {:induction false} PlaceAllKeepsEarlier(s: Setup, ships: seq<ShipConfig>, i: int, attempts: seq<Attempt>, from: int, overTile: Oracle)
    requires WellShaped(s.board) && |s.placed| == |ships| && 0 <= i <= |ships| && 0 <= from <= |attempts|
    requires WellFormedAttempts(attempts) && OracleSound(overTile)
    ensures var r := PlaceAll(s, ships, i, attempts, from, overTile);
      r.1 ==> forall k :: 0 <= k < i ==> r.0.placed[k] == s.placed[k]
    decreases |ships| - i
  {
    if i < |ships| {
      PlaceCopiesKeepsOthers(s, ships[i], i, attempts, from, ships[i].amountToPlace, overTile);
      var t := PlaceCopies(s, ships[i], i, attempts, from, ships[i].amountToPlace, overTile);
      if t.1 {
        PlaceAllKeepsEarlier(t.0, ships, i + 1, attempts, t.2, overTile);
      }
    }
  }

  /** When the automatic placement from entry i on succeeds, every entry from
      i on has gained at least its quota. */
  lemma {:induction false} PlaceAllMeetsQuotas(s: Setup, ships: seq<ShipConfig>, i: int, attempts: seq<Attempt>, from: int, overTile: Oracle)
    requires WellShaped(s.board) && |s.placed| == |ships| && 0 <= i <= |ships| && 0 <= from <= |attempts|
    requires WellFormedAttempts(attempts) && OracleSound(overTile)
    ensures var r := PlaceAll(s, ships, i, attempts, from, overTile);
      r.1 ==> forall k :: i <= k < |ships| ==> r.0.placed[k] >= s.placed[k] + ships[k].amountToPlace
    decreases |ships| - i
  {
    if i < |ships| {
      PlaceCopiesCounts(s, ships[i], i, attempts, from, ships[i].amountToPlace, overTile);
      PlaceCopiesKeepsOthers(s, ships[i], i, attempts, from, ships[i].amountToPlace, overTile);
      var t := PlaceCopies(s, ships[i], i, attempts, from, ships[i].amountToPlace, overTile);
      if t.1 {
        PlaceAllKeepsEarlier(t.0, ships, i + 1, attempts, t.2, overTile);
        PlaceAllMeetsQuotas(t.0, ships, i + 1, attempts, t.2, overTile);
      }
    }
  }

  /** The automatic placement fails only when the draws run out. */
  lemma {:induction false} PlaceAllFailsOnlyWhenDrawsRunOut(s: Setup, ships: seq<ShipConfig>, i: int, attempts: seq<Attempt>, from: int, overTile: Oracle)
    requires WellShaped(s.board) && |s.placed| == |ships| && 0 <= i <= |ships| && 0 <= from <= |attempts|
    requires WellFormedAttempts(attempts) && OracleSound(overTile)
    ensures var r := PlaceAll(s, ships, i, attempts, from, overTile);
      r.1 || r.2 == |attempts|
    decreases |ships| - i
  {
    if i < |ships| {
      PlaceCopiesCounts(s, ships[i], i, attempts, from, ships[i].amountToPlace, overTile);
      var t := PlaceCopies(s, ships[i], i, attempts, from, ships[i].amountToPlace, overTile);
      if t.1 {
        PlaceAllFailsOnlyWhenDrawsRunOut(t.0, ships, i + 1, attempts, t.2, overTile);
      }
    }
  }

  /** The automatic placement keeps the revealed flags. */
  lemma {:induction false} PlaceAllKeepsRevealed(s: Setup, ships: seq<ShipConfig>, i: int, attempts: seq<Attempt>, from: int, overTile: Oracle)
    requires WellShaped(s.board) && |s.placed| == |ships| && 0 <= i <= |ships| && 0 <= from <= |attempts|
    requires WellFormedAttempts(attempts) && OracleSound(overTile)
    ensures PlaceAll(s, ships, i, attempts, from, overTile).0.board.revealed == s.board.revealed
    decreases |ships| - i
  {
    if i < |ships| {
      PlaceCopiesKeepsRevealed(s, ships[i], i, attempts, from, ships[i].amountToPlace, overTile);
      var t := PlaceCopies(s, ships[i], i, attempts, from, ships[i].amountToPlace, overTile);
      if t.1 {
        PlaceAllKeepsRevealed(t.0, ships, i + 1, attempts, t.2, overTile);
      }
    }
  }

  /** The automatic placement keeps the board and the counts consistent. */
  lemma {:induction false} PlaceAllKeepsConsistent(s: Setup, ships: seq<ShipConfig>, i: int, attempts: seq<Attempt>, from: int, overTile: Oracle)
    requires WellShaped(s.board) && |s.placed| == |ships| && 0 <= i <= |ships| && 0 <= from <= |attempts|
    requires WellFormedAttempts(attempts) && OracleSound(overTile) && ConsistentSetup(s)
    ensures ConsistentSetup(PlaceAll(s, ships, i, attempts, from, overTile).0)
    decreases |ships| - i
  {
    if i < |ships| {
      PlaceCopiesKeepsConsistent(s, ships[i], i, attempts, from, ships[i].amountToPlace, overTile);
      var t := PlaceCopies(s, ships[i], i, attempts, from, ships[i].amountToPlace, overTile);
      if t.1 {
        PlaceAllKeepsConsistent(t.0, ships, i + 1, attempts, t.2, overTile);
      }
    }
  }

  // ---------------------------------------------------------------------------
  // The placing manager
  // ---------------------------------------------------------------------------

  class PlacingManager {
    const game: GameManager
    /** The configured part of every entry of the ship list. */
    const ships: seq<ShipConfig>
    /** Per entry: the number of ships placed. */
    var placedAmount: seq<int>
    /** Per entry: whether its ghost preview is shown. */
    var ghostActive: seq<bool>
    /** Per entry: its ghost's rotation, in quarter turns. */
    var ghostTurns: seq<int>
    /** Per entry: the cell its ghost stands on. */
    var ghostBase: seq<Cell>
    var currentShip: int
    var isPlacing: bool
    var canPlace: bool
    /** Whether the ready button can be pressed. */
    var ready: bool

    /** Every entry has its state, and while placing the selected kind is one
        of the list. */
    ghost predicate ListValid()
      reads this`placedAmount, this`ghostActive, this`ghostTurns, this`ghostBase, this`isPlacing, this`currentShip
    {
      |placedAmount| == |ships| && |ghostActive| == |ships| && |ghostTurns| == |ships| && |ghostBase| == |ships| &&
      (forall k :: 0 <= k < |ships| ==> 0 <= ghostTurns[k] < 4) &&
      (isPlacing ==> 0 <= currentShip < |ships|)
    }

    ghost predicate Valid()
      reads this`placedAmount, this`ghostActive, this`ghostTurns, this`ghostBase, this`isPlacing, this`currentShip, game.Repr()
    {
      game.Valid() && this !in game.Repr() && ListValid()
    }

    /** The cells entry k's ghost covers where it stands, as it is turned. */
    function GhostFootprint(k: int): seq<Cell>
      requires 0 <= k < |ghostBase| && 0 <= k < |ghostTurns| && 0 <= ghostTurns[k] < 4 && |ships| == |ghostBase|
      reads this`ghostTurns, this`ghostBase
    {
      Footprint(ships[k].shape, ghostBase[k].0, ghostBase[k].1, ghostTurns[k])
    }

    ghost function View(): Setup
      requires 0 <= game.activePlayer < |game.players|
      reads this`placedAmount, game`activePlayer, game.Active()
    {
      Setup(game.Active().View(), placedAmount)
    }

    /** The active board lists one ship per counted placement, and every ship
        on its grid is listed. */
    ghost predicate Consistent()
      requires 0 <= game.activePlayer < |game.players|
      reads this`placedAmount, game`activePlayer, game.Active()
    {
      ConsistentSetup(View())
    }

    /** The manual-placement invariant: no kind is over its quota, and the
        kind being placed still has room for one more. */
    ghost predicate WithinQuota()
      reads this`placedAmount, this`isPlacing, this`currentShip
    {
      WithinQuotas(ships, placedAmount) &&
      (isPlacing ==> 0 <= currentShip < |ships| && placedAmount[currentShip] < ships[currentShip].amountToPlace)
    }

    /** The manager as the scene sets it up: the configured ship list with
        nothing placed, every ghost unturned, standing where given and shown
        or not as given, nothing selected. */
    constructor (game: GameManager, ships: seq<ShipConfig>, shown: seq<bool>, bases: seq<Cell>)
      requires game.Valid() && |shown| == |ships| && |bases| == |ships|
      ensures Valid()
      ensures this.game == game && this.ships == ships && ghostActive == shown && ghostBase == bases
      ensures forall k :: 0 <= k < |ships| ==> placedAmount[k] == 0 && ghostTurns[k] == 0
      ensures WithinQuota() <==> forall k :: 0 <= k < |ships| ==> 0 <= ships[k].amountToPlace
      ensures currentShip == 0 && !isPlacing && !canPlace && !ready
    {
      this.game := game;
      this.ships := ships;
      placedAmount := seq(|ships|, _ => 0);
      ghostActive := shown;
      ghostTurns := seq(|ships|, _ => 0);
      ghostBase := bases;
      currentShip := 0;
      isPlacing := false;
      canPlace := false;
      ready := false;
    }

    /** Hides every ghost preview and, for index != -1, shows that kind's;
        nothing changes when that ghost is already shown. */
    method ActivateShipGhost(index: int)
      requires ListValid() && (index == -1 || 0 <= index < |ships|)
      modifies this`ghostActive
      ensures ListValid()
      ensures ghostActive == if index != -1 && old(ghostActive[index]) then old(ghostActive)
                             else ShowGhost(|ships|, index)
    {
      if index != -1 {
        if ghostActive[index] {
          return;
        }
      }
      for i := 0 to |ghostActive|
        invariant |ghostActive| == |ships|
        invariant forall k :: 0 <= k < i ==> !ghostActive[k]
      {
        ghostActive := ghostActive[i := false];
      }
      if index == -1 {
        return;
      }
      ghostActive := ghostActive[index := true];
    }

    /** The scene start: every ghost preview hidden. */
    method Start()
      requires ListValid()
      modifies this`ghostActive
      ensures ListValid()
      ensures forall k :: 0 <= k < |ghostActive| ==> !ghostActive[k]
    {
      ActivateShipGhost(-1);
    }

    /** Whether kind index has its quota placed: always so once every kind
        is complete, and, while no kind is over its quota, exactly when the
        kind has no room for another ship. */
    function CheckIfAllShipsPlaced(index: int): (r: bool)
      requires 0 <= index < |ships| && |placedAmount| == |ships|
      reads this`placedAmount
      ensures AllPlaced(ships, placedAmount) ==> r
      ensures WithinQuotas(ships, placedAmount) ==> (r <==> placedAmount[index] >= ships[index].amountToPlace)
    {
      placedAmount[index] == ships[index].amountToPlace
    }

    /** Selects kind index for placing and shows its ghost, unless that kind
        has its quota placed, in which case nothing changes. */
    method ShipButton(index: int)
      requires ListValid() && 0 <= index < |ships|
      modifies this`currentShip, this`isPlacing, this`ghostActive
      ensures ListValid()
      ensures old(CheckIfAllShipsPlaced(index)) ==>
        currentShip == old(currentShip) && isPlacing == old(isPlacing) && ghostActive == old(ghostActive)
      ensures !old(CheckIfAllShipsPlaced(index)) ==> currentShip == index && isPlacing && ghostActive[index]
      ensures !old(CheckIfAllShipsPlaced(index)) && old(AtMostOneGhost(ghostActive)) ==>
        forall k :: 0 <= k < |ships| ==> (ghostActive[k] <==> k == index)
      ensures old(AtMostOneGhost(ghostActive)) ==> AtMostOneGhost(ghostActive)
      ensures old(WithinQuota()) ==> WithinQuota()
    {
      if CheckIfAllShipsPlaced(index) {
        return;
      }
      currentShip := index;
      ActivateShipGhost(currentShip);
      isPlacing := true;
    }

    /** Whether every kind has its quota placed; if so the ready button is
        enabled (it is never disabled here). */
    method CheckEveryShipPlaced() returns (all: bool)
      requires ListValid()
      modifies this`ready
      ensures ListValid()
      ensures all <==> AllPlaced(ships, placedAmount)
      ensures ready == (old(ready) || all)
    {
      for k := 0 to |ships|
        invariant forall m :: 0 <= m < k ==> placedAmount[m] == ships[m].amountToPlace
      {
        if placedAmount[k] != ships[k].amountToPlace {
          return false;
        }
      }
      ready := true;
      return true;
    }

    /** Places one ship of the selected kind over the cells its ghost covers,
        counts it, ends placing, hides the ghosts and re-checks readiness. */
    method PlaceShip(newShip: ShipId)
      requires Valid() && 0 <= currentShip < |ships| && AllInBounds(GhostFootprint(currentShip))
      modifies this`placedAmount, this`isPlacing, this`ghostActive, this`ready, game.Active(), game.Active().myGrid
      ensures Valid() && !isPlacing
      ensures View() == AutoPlaced(old(View()), ships[currentShip].kind, currentShip, old(GhostFootprint(currentShip)), newShip)
      ensures ghostActive == ShowGhost(|ships|, -1)
      ensures ready == (old(ready) || AllPlaced(ships, placedAmount))
      ensures old(isPlacing) && old(WithinQuota()) ==>
        WithinQuota() && TotalPlaced(placedAmount) == old(TotalPlaced(placedAmount)) + 1
      ensures old(Consistent()) ==> Consistent()
      ensures game.Other().View() == old(game.Other().View())
    {
      ghost var before := View();
      var footprint := GhostFootprint(currentShip);
      game.UpdateGrid(footprint, ships[currentShip].kind, newShip);
      placedAmount := placedAmount[currentShip := placedAmount[currentShip] + 1];
      if old(isPlacing) && old(WithinQuota()) {
        PlacementKeepsQuotas(ships, before, currentShip, footprint, newShip);
      }
      if ConsistentSetup(before) {
        PlacementKeepsConsistent(before, ships[currentShip].kind, currentShip, footprint, newShip);
      }
      isPlacing := false;
      ActivateShipGhost(-1);
      var _ := CheckEveryShipPlaced();
    }

    /** Turns the selected kind's ghost by a quarter turn. */
    method RotateGhost()
      requires ListValid() && 0 <= currentShip < |ships|
      modifies this`ghostTurns
      ensures ListValid()
      ensures ghostTurns == old(ghostTurns)[currentShip := (old(ghostTurns[currentShip]) + 1) % 4]
    {
      ghostTurns := ghostTurns[currentShip := (ghostTurns[currentShip] + 1) % 4];
    }

    /** While placing, records whether the cells the selected kind's ghost
        covers pass the test, and then moves that ghost to (x, z); otherwise
        hides the ghosts. */
    method PlaceGhost(x: int, z: int, overTile: Oracle)
      requires Valid()
      modifies this`canPlace, this`ghostActive, this`ghostBase
      ensures Valid()
      ensures isPlacing ==>
        canPlace == Fits(game.Active().View().grid, old(GhostFootprint(currentShip)), overTile) &&
        ghostBase == old(ghostBase)[currentShip := (x, z)] && ghostActive == old(ghostActive)
      ensures !isPlacing ==> canPlace == old(canPlace) && ghostBase == old(ghostBase) && ghostActive == ShowGhost(|ships|, -1)
    {
      if isPlacing {
        canPlace := CheckForOtherShips(game.ActiveGrid(), GhostFootprint(currentShip), overTile);
        ghostBase := ghostBase[currentShip := (x, z)];
      } else {
        ActivateShipGhost(-1);
      }
    }

    /** Deletes every ship of the active board, resets every count and
        disables the ready button. */
    method ClearAllShips()
      requires Valid()
      modifies this`placedAmount, this`ready, game.Active(), game.Active().myGrid
      ensures Valid() && Consistent() && !ready
      ensures game.Active().View() == Cleared(old(game.Active().View()))
      ensures forall k :: 0 <= k < |ships| ==> placedAmount[k] == 0
      ensures game.Other().View() == old(game.Other().View())
      ensures old(WithinQuota()) ==> WithinQuota()
    {
      game.DeleteAllShips();
      for k := 0 to |placedAmount|
        modifies this`placedAmount
        invariant |placedAmount| == |ships|
        invariant forall m :: 0 <= m < k ==> placedAmount[m] == 0
        invariant forall m :: k <= m < |ships| ==> placedAmount[m] == old(placedAmount[m])
      {
        placedAmount := placedAmount[k := 0];
      }
      ready := false;
      TotalPlacedZero(placedAmount);
    }

    /** Places one ship of the current kind over an automatically found
        footprint and counts it. */
    method PlaceAutoShip(footprint: seq<Cell>, newShip: ShipId)
      requires Valid() && 0 <= currentShip < |ships| && AllInBounds(footprint)
      modifies this`placedAmount, game.Active(), game.Active().myGrid
      ensures Valid()
      ensures View() == AutoPlaced(old(View()), ships[currentShip].kind, currentShip, footprint, newShip)
      ensures game.Other().View() == old(game.Other().View())
    {
      game.UpdateGrid(footprint, ships[currentShip].kind, newShip);
      placedAmount := placedAmount[currentShip := placedAmount[currentShip] + 1];
    }

    /** One try of the search for kind i: turn the ship by the try's drawn
        rotation at the attempt's base position and, when every part passes
        the test, place a ship there. */
    method TryRotation(i: int, a: Attempt, r: int, overTile: Oracle) returns (fits: bool)
      requires Valid() && 0 <= i < |ships| && currentShip == i && WellFormedAttempt(a) && 0 <= r < 4
      requires OracleSound(overTile)
      modifies this`placedAmount, game.Active(), game.Active().myGrid
      ensures Valid()
      ensures var fp := Footprint(ships[i].shape, a.x, a.z, a.turns[r]);
        fits == Fits(old(View()).board.grid, fp, overTile) &&
        View() == if fits then AutoPlaced(old(View()), ships[i].kind, i, fp, a.ids[r]) else old(View())
      ensures game.Other().View() == old(game.Other().View())
    {
      var footprint := Footprint(ships[i].shape, a.x, a.z, a.turns[r]);
      fits := CheckForOtherShips(game.ActiveGrid(), footprint, overTile);
      if fits {
        PlaceAutoShip(footprint, a.ids[r]);
      }
    }

    /** One pass of the search for kind i at the attempt's base position: four
        tries, each with its own drawn rotation, each placing a ship when the
        footprint passes the test. */
    method TryBasePosition(i: int, a: Attempt, overTile: Oracle) returns (posFound: bool)
      requires Valid() && 0 <= i < |ships| && WellFormedAttempt(a) && OracleSound(overTile)
      modifies this`currentShip, this`placedAmount, game.Active(), game.Active().myGrid
      ensures Valid() && currentShip == i
      ensures (View(), posFound) == TryTurns(old(View()), ships[i], i, a, 4, overTile)
      ensures game.Other().View() == old(game.Other().View())
    {
      currentShip := i;
      posFound := false;
      for r := 0 to 4
        invariant Valid() && currentShip == i
        invariant (View(), posFound) == TryTurns(old(View()), ships[i], i, a, r, overTile)
        invariant game.Other().View() == old(game.Other().View())
      {
        var fits := TryRotation(i, a, r, overTile);
        if fits {
          posFound := true;
        }
      }
    }

    /** The innermost loop of the automatic placement: draws base positions
        for kind i, starting at draw number from, until an attempt places a
        ship; this is the search for one ship. Reports failure only when the
        supplied draws run out. */
    method SearchPosition(i: int, attempts: seq<Attempt>, from: int, overTile: Oracle) returns (posFound: bool, next: int)
      requires Valid() && 0 <= i < |ships| && 0 <= from <= |attempts|
      requires WellFormedAttempts(attempts) && OracleSound(overTile)
      modifies this`currentShip, this`placedAmount, game.Active(), game.Active().myGrid
      ensures Valid()
      ensures var r := PlaceCopies(old(View()), ships[i], i, attempts, from, 1, overTile);
        View() == r.0 && posFound == r.1 && next == r.2
      ensures !posFound ==> View() == old(View()) && next == |attempts|
      ensures forall k :: 0 <= k < |ships| && k != i ==> placedAmount[k] == old(placedAmount[k])
      ensures placedAmount[i] >= old(placedAmount[i]) + (if posFound then 1 else 0)
      ensures old(Consistent()) ==> Consistent()
      ensures game.Active().View().revealed == old(game.Active().View().revealed)
      ensures game.Other().View() == old(game.Other().View())
    {
      ghost var start := View();
      ghost var result := PlaceCopies(start, ships[i], i, attempts, from, 1, overTile);
      posFound := false;
      next := from;
      while !posFound && next < |attempts|
        invariant Valid() && from <= next <= |attempts|
        invariant !posFound ==> PlaceCopies(View(), ships[i], i, attempts, next, 1, overTile) == result
        invariant posFound ==> View() == result.0 && result.1 && next == result.2
        invariant game.Other().View() == old(game.Other().View())
        decreases |attempts| - next
      {
        ghost var before := View();
        posFound := TryBasePosition(i, attempts[next], overTile);
        SearchStep(before, ships[i], i, attempts, next, overTile, View(), posFound);
        next := next + 1;
      }
      FailedSearchChangesNothing(start, ships[i], i, attempts, from, overTile);
      PlaceCopiesCounts(start, ships[i], i, attempts, from, 1, overTile);
      PlaceCopiesKeepsOthers(start, ships[i], i, attempts, from, 1, overTile);
      PlaceCopiesKeepsRevealed(start, ships[i], i, attempts, from, 1, overTile);
      if ConsistentSetup(start) {
        PlaceCopiesKeepsConsistent(start, ships[i], i, attempts, from, 1, overTile);
      }
    }

    /** The middle loop of the automatic placement: one search per ship of
        kind i's quota, each continuing with the draws the one before left. */
    method PlaceKind(i: int, attempts: seq<Attempt>, from: int, overTile: Oracle) returns (completed: bool, next: int)
      requires Valid() && 0 <= i < |ships| && 0 <= from <= |attempts|
      requires WellFormedAttempts(attempts) && OracleSound(overTile)
      modifies this`currentShip, this`placedAmount, game.Active(), game.Active().myGrid
      ensures Valid()
      ensures var r := PlaceCopies(old(View()), ships[i], i, attempts, from, ships[i].amountToPlace, overTile);
        View() == r.0 && completed == r.1 && next == r.2
      ensures completed || next == |attempts|
      ensures forall k :: 0 <= k < |ships| && k != i ==> placedAmount[k] == old(placedAmount[k])
      ensures completed ==> placedAmount[i] >= old(placedAmount[i]) + ships[i].amountToPlace
      ensures old(Consistent()) ==> Consistent()
      ensures game.Active().View().revealed == old(game.Active().View().revealed)
      ensures game.Other().View() == old(game.Other().View())
    {
      ghost var start := View();
      ghost var result := PlaceCopies(start, ships[i], i, attempts, from, ships[i].amountToPlace, overTile);
      next := from;
      completed := true;
      var j := 0;
      ghost var left := ships[i].amountToPlace;
      ghost var cur := start;
      while completed && j < ships[i].amountToPlace
        invariant Valid() && View() == cur && from <= next <= |attempts| && left == ships[i].amountToPlace - j
        invariant WellShaped(cur.board) && |cur.placed| == |ships|
        invariant completed ==> PlaceCopies(cur, ships[i], i, attempts, next, left, overTile) == result
        invariant !completed ==> cur == result.0 && !result.1 && next == result.2
        invariant game.Other().View() == old(game.Other().View())
      {
        ghost var at := next;
        completed, next := SearchPosition(i, attempts, next, overTile);
        ghost var after := View();
        PlaceCopiesStep(cur, ships[i], i, attempts, at, left, overTile, after, completed, next, result, left - 1);
        cur := after;
        j := j + 1;
        left := left - 1;
      }
      PlaceCopiesCounts(start, ships[i], i, attempts, from, ships[i].amountToPlace, overTile);
      PlaceCopiesKeepsOthers(start, ships[i], i, attempts, from, ships[i].amountToPlace, overTile);
      PlaceCopiesKeepsRevealed(start, ships[i], i, attempts, from, ships[i].amountToPlace, overTile);
      if ConsistentSetup(start) {
        PlaceCopiesKeepsConsistent(start, ships[i], i, attempts, from, ships[i].amountToPlace, overTile);
      }
    }

    /** Clears the board, then for every kind and every ship of its quota
        draws base positions until one attempt places a ship, and finally
        enables the ready button. Returns false when the supplied draws run
        out first. */
    method AutoPlace(attempts: seq<Attempt>, overTile: Oracle) returns (completed: bool)
      requires Valid() && WellFormedAttempts(attempts) && OracleSound(overTile)
      modifies this`currentShip, this`placedAmount, this`ready, game.Active(), game.Active().myGrid
      ensures Valid() && Consistent()
      ensures var r := PlaceAll(Setup(Cleared(old(game.Active().View())), seq(|ships|, _ => 0)), ships, 0, attempts, 0, overTile);
        View() == r.0 && completed == r.1
      ensures ready == completed
      ensures completed ==> forall k :: 0 <= k < |ships| ==> placedAmount[k] >= ships[k].amountToPlace
      ensures game.Active().View().revealed == old(game.Active().View().revealed)
      ensures game.Other().View() == old(game.Other().View())
    {
      ClearAllShips();
      assert placedAmount == seq(|ships|, _ => 0);
      ghost var start := View();
      ghost var result := PlaceAll(start, ships, 0, attempts, 0, overTile);
      PlaceAllMeetsQuotas(start, ships, 0, attempts, 0, overTile);
      PlaceAllKeepsRevealed(start, ships, 0, attempts, 0, overTile);
      PlaceAllKeepsConsistent(start, ships, 0, attempts, 0, overTile);
      var next := 0;
      for i := 0 to |ships|
        invariant Valid() && 0 <= next <= |attempts|
        invariant PlaceAll(View(), ships, i, attempts, next, overTile) == result
        invariant !ready
        invariant game.Other().View() == old(game.Other().View())
      {
        var placed;
        placed, next := PlaceKind(i, attempts, next, overTile);
        if !placed {
          return false;
        }
      }
      ready := true;
      var _ := CheckEveryShipPlaced();
      completed := true;
    }

    /** Hands the placing over to a player: the ready button is disabled and
        the board cleared; a computer player's ships are then placed
        automatically. */
    method SetPlayer(isAI: bool, attempts: seq<Attempt>, overTile: Oracle) returns (completed: bool)
      requires Valid() && WellFormedAttempts(attempts) && OracleSound(overTile)
      modifies this`currentShip, this`placedAmount, this`ready, game.Active(), game.Active().myGrid
      ensures Valid() && Consistent()
      ensures !isAI ==> !ready && completed && game.Active().View() == Cleared(old(game.Active().View())) &&
                        forall k :: 0 <= k < |ships| ==> placedAmount[k] == 0
      ensures isAI ==>
        var r := PlaceAll(Setup(Cleared(old(game.Active().View())), seq(|ships|, _ => 0)), ships, 0, attempts, 0, overTile);
        View() == r.0 && completed == r.1 && ready == completed
      ensures isAI && completed ==> forall k :: 0 <= k < |ships| ==> placedAmount[k] >= ships[k].amountToPlace
      ensures game.Active().View().revealed == old(game.Active().View().revealed)
      ensures game.Other().View() == old(game.Other().View())
    {
      ready := false;
      ClearAllShips();
      completed := true;
      if isAI {
        ClearedIdempotent(old(game.Active().View()));
        completed := AutoPlace(attempts, overTile);
      }
    }
  }
}
