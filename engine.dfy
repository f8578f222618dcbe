/**
 The board engine of one tic-tac-toe game: the marks, the four rules that
 reject a move, the bounded scan that decides a win from the cell just
 played, and the two storage variants (a dense 3x3 grid and a sparse
 unbounded board) that share one contract.
 */
module Engine {
  import opened Wrappers

  datatype Player = NoPlayer | PlayerX | PlayerO

  datatype State = Unknown | Draw | PlayerXVictory | PlayerOVictory

  /** Why a move was refused. */
  datatype TurnError = EmptyMove | GameFinished | RepeatedTurn | CellOccupied

  /** The abstract board: a coordinate absent from the map holds no mark. */
  type Board = map<(int, int), Player>

  function At(b: Board, x: int, y: int): Player
  {
    if (x, y) in b then b[(x, y)] else NoPlayer
  }

  /** Every stored value is a real mark. */
  ghost predicate Marked(b: Board)
  {
    forall p :: p in b ==> b[p] != NoPlayer
  }

  predicate InRange3(x: int, y: int)
  {
    0 <= x < 3 && 0 <= y < 3
  }

  /**
   The four rejection rules, checked in order: an empty mark, a finished
   game, the same player twice, an occupied cell. `occupant` is what the
   board holds at the target cell.
   */
  function ValidateTurn(state: State, lastTurn: Player, occupant: Player, cell: Player): (r: Option<TurnError>)
    ensures r == None <==> cell != NoPlayer && state == Unknown && cell != lastTurn && occupant == NoPlayer
    ensures r == Some(EmptyMove) <==> cell == NoPlayer
    ensures r == Some(GameFinished) <==> cell != NoPlayer && state != Unknown
    ensures r == Some(RepeatedTurn) <==> cell != NoPlayer && state == Unknown && cell == lastTurn
    ensures r == Some(CellOccupied) <==>
              cell != NoPlayer && state == Unknown && cell != lastTurn && occupant != NoPlayer
  {
    if cell == NoPlayer then Some(EmptyMove)
    else if state != Unknown then Some(GameFinished)
    else if cell == lastTurn then Some(RepeatedTurn)
    else if occupant != NoPlayer then Some(CellOccupied)
    else None
  }

  /** The player a victory belongs to; no player for a draw or a game in progress. */
  function Winner(s: State): Player
  {
    match s
    case PlayerXVictory => PlayerX
    case PlayerOVictory => PlayerO
    case _ => NoPlayer
  }

  /** The victory of `player`, or no result for the empty mark. */
  function WinnerState(player: Player): (r: State)
    ensures r == Unknown <==> player == NoPlayer
    ensures r != Draw
    ensures Winner(r) == player
  {
    match player
    case PlayerX => PlayerXVictory
    case PlayerO => PlayerOVictory
    case NoPlayer => Unknown
  }

  /** The three scan directions: horizontal, vertical and the (1,1) diagonal. */
  const Directions: seq<(int, int)> := [(1, 0), (0, 1), (1, 1)]

  /** The cell i steps from (x, y) in sense `m` (-1 or 1) along `dir`. */
  function Probe(b: Board, x: int, y: int, dir: (int, int), m: int, i: int): Player
  {
    At(b, x + i * dir.0 * m, y + i * dir.1 * m)
  }

  /**
   Walking from (x, y) in sense `m` along `dir`, probing steps i, i+1, ...
   while the step is below `width` and the probed cell holds `p`; the
   value is the last step that matched (so i - 1 when none does).
   */
  function Reach(b: Board, x: int, y: int, dir: (int, int), m: int, p: Player, width: int, i: int): nat
    requires i >= 1
    decreases width - i
  {
    if i < width && Probe(b, x, y, dir, m, i) == p
    then Reach(b, x, y, dir, m, p, width, i + 1)
    else i - 1
  }

  /** The run through (x, y) along `dir` as the scan counts it. */
  function RunLength(b: Board, x: int, y: int, dir: (int, int), width: int): int
  {
    var p := At(b, x, y);
    1 + Reach(b, x, y, dir, -1, p, width, 1) + Reach(b, x, y, dir, 1, p, width, 1)
  }

  /** Some direction from index d on has a run the scan counts as long enough. */
  ghost predicate WinsFrom(b: Board, x: int, y: int, width: int, d: nat)
    decreases |Directions| - d
  {
    d < |Directions| && (RunLength(b, x, y, Directions[d], width) >= width || WinsFrom(b, x, y, width, d + 1))
  }

  /** What the scan anchored at (x, y) decides. */
  ghost function Outcome(b: Board, x: int, y: int, width: int): State
  {
    if At(b, x, y) != NoPlayer && WinsFrom(b, x, y, width, 0)
    then WinnerState(At(b, x, y))
    else Unknown
  }

  /** Every cell from step lo to step hi along `dir` from (x, y) holds `p`. */
  ghost predicate Line(b: Board, x: int, y: int, dir: (int, int), lo: int, hi: int, p: Player)
  {
    forall k :: lo <= k <= hi ==> At(b, x + k * dir.0, y + k * dir.1) == p
  }

  /**
   The declarative win: some scan direction holds an unbroken run of the
   mark at (x, y), through (x, y), at least `width` cells long.
   */
  ghost predicate HasWinningLine(b: Board, x: int, y: int, width: int)
  {
    exists dir, lo, hi :: dir in Directions && lo <= 0 <= hi && hi - lo + 1 >= width &&
                          Line(b, x, y, dir, lo, hi, At(b, x, y))
  }

  /**
   The bounded scan over a field read through `get`: for each direction,
   count the mark at (x, y) and the matching cells at most width - 1
   steps each way. `board` is the abstract board `get` reads.
   */
  method ScanState(get: (int, int) -> Player, ghost board: Board, x: int, y: int, width: int) returns (s: State)
    requires forall i, j :: get(i, j) == At(board, i, j)
    ensures s == Outcome(board, x, y, width)
  {
    s := Unknown;
    var winner := get(x, y);
    if winner != NoPlayer {
      for d := 0 to |Directions|
        invariant forall e :: 0 <= e < d ==> RunLength(board, x, y, Directions[e], width) < width
      {
        var dir := Directions[d];
        var sum := 1;
        var senses := [-1, 1];
        for k := 0 to |senses|
          invariant sum == 1 + (if k >= 1 then Reach(board, x, y, dir, -1, winner, width, 1) else 0)
                             + (if k >= 2 then Reach(board, x, y, dir, 1, winner, width, 1) else 0)
        {
          var m := senses[k];
          ghost var before := sum;
          var i := 1;
          while i < width && get(x + i * dir.0 * m, y + i * dir.1 * m) == winner
            invariant 1 <= i
            invariant Reach(board, x, y, dir, m, winner, width, 1) == Reach(board, x, y, dir, m, winner, width, i)
            invariant sum == before + i - 1
            decreases width - i
          {
            sum := sum + 1;
            i := i + 1;
          }
        }
        if sum >= width {
          s := WinnerState(winner);
          return;
        }
      }
    }
  }

  /**
   Reach from step i is the last step of a run bounded by the width:
   never before i - 1 and, once a step matched, below the width.
   */
  lemma {:induction false} ReachBounds(b: Board, x: int, y: int, dir: (int, int), m: int, p: Player, width: int, i: int)
    requires i >= 1
    ensures Reach(b, x, y, dir, m, p, width, i) >= i - 1
    ensures Reach(b, x, y, dir, m, p, width, i) >= i ==> Reach(b, x, y, dir, m, p, width, i) <= width - 1
    decreases width - i
  {
    if i < width && Probe(b, x, y, dir, m, i) == p {
      ReachBounds(b, x, y, dir, m, p, width, i + 1);
    }
  }

  /** Every step from i up to the reach holds `p`. */
  lemma {:induction false} ReachMatches(b: Board, x: int, y: int, dir: (int, int), m: int, p: Player, width: int, i: int, j: int)
    requires 1 <= i <= j <= Reach(b, x, y, dir, m, p, width, i)
    ensures Probe(b, x, y, dir, m, j) == p
    decreases j - i
  {
    if i < j {
      ReachMatches(b, x, y, dir, m, p, width, i + 1, j);
    }
  }

  /** The step after the reach does not hold `p`, unless the walk stopped at the width bound. */
  lemma {:induction false} ReachStops(b: Board, x: int, y: int, dir: (int, int), m: int, p: Player, width: int, i: int)
    requires i >= 1
    requires Reach(b, x, y, dir, m, p, width, i) < width - 1
    ensures Probe(b, x, y, dir, m, Reach(b, x, y, dir, m, p, width, i) + 1) != p
    decreases width - i
  {
    if i < width && Probe(b, x, y, dir, m, i) == p {
      assert Reach(b, x, y, dir, m, p, width, i) == Reach(b, x, y, dir, m, p, width, i + 1);
      ReachStops(b, x, y, dir, m, p, width, i + 1);
    } else {
      assert Reach(b, x, y, dir, m, p, width, i) + 1 == i;
    }
  }

  /** Step j in sense m is step j * m of the line. */
  lemma ProbeOffset(j: int, d: int, m: int)
    requires m == -1 || m == 1
    ensures j * d * m == (j * m) * d
  {
  }

  /** A run the scan counts as long enough is an unbroken line of that length. */
  lemma RunGivesLine(b: Board, x: int, y: int, dir: (int, int), width: int)
    requires RunLength(b, x, y, dir, width) >= width
    ensures var p := At(b, x, y);
      Line(b, x, y, dir, -(Reach(b, x, y, dir, -1, p, width, 1) as int), Reach(b, x, y, dir, 1, p, width, 1), p)
  {
    var p := At(b, x, y);
    var lo := -(Reach(b, x, y, dir, -1, p, width, 1) as int);
    var hi := Reach(b, x, y, dir, 1, p, width, 1);
    forall k | lo <= k <= hi
      ensures At(b, x + k * dir.0, y + k * dir.1) == p
    {
      if k < 0 {
        MatchedStep(b, x, y, dir, -1, p, width, -k);
      } else if k > 0 {
        MatchedStep(b, x, y, dir, 1, p, width, k);
      }
    }
  }

  /** Step j of the walk in sense m, when within the reach, holds `p`; it is step j * m of the line. */
  lemma MatchedStep(b: Board, x: int, y: int, dir: (int, int), m: int, p: Player, width: int, j: int)
    requires m == -1 || m == 1
    requires 1 <= j <= Reach(b, x, y, dir, m, p, width, 1)
    ensures At(b, x + (j * m) * dir.0, y + (j * m) * dir.1) == p
  {
    ReachMatches(b, x, y, dir, m, p, width, 1, j);
    ProbeOffset(j, dir.0, m);
    ProbeOffset(j, dir.1, m);
  }

  /** An unbroken line of at least `width` cells through (x, y) is found by the bounded scan. */
  lemma LineGivesRun(b: Board, x: int, y: int, dir: (int, int), lo: int, hi: int, width: int)
    requires lo <= 0 <= hi && hi - lo + 1 >= width
    requires Line(b, x, y, dir, lo, hi, At(b, x, y))
    ensures RunLength(b, x, y, dir, width) >= width
  {
    var p := At(b, x, y);
    var back := Reach(b, x, y, dir, -1, p, width, 1);
    var ahead := Reach(b, x, y, dir, 1, p, width, 1);
    ReachBounds(b, x, y, dir, -1, p, width, 1);
    ReachBounds(b, x, y, dir, 1, p, width, 1);
    if back < width - 1 && back < -lo {
      ReachStops(b, x, y, dir, -1, p, width, 1);
      ProbeOffset(back + 1, dir.0, -1);
      ProbeOffset(back + 1, dir.1, -1);
      StopsInsideLine(b, x, y, dir, lo, hi, p, -(back + 1));
      assert false;
    }
    if ahead < width - 1 && ahead < hi {
      ReachStops(b, x, y, dir, 1, p, width, 1);
      ProbeOffset(ahead + 1, dir.0, 1);
      ProbeOffset(ahead + 1, dir.1, 1);
      StopsInsideLine(b, x, y, dir, lo, hi, p, ahead + 1);
      assert false;
    }
  }

  lemma StopsInsideLine(b: Board, x: int, y: int, dir: (int, int), lo: int, hi: int, p: Player, k: int)
    requires Line(b, x, y, dir, lo, hi, p) && lo <= k <= hi
    ensures At(b, x + k * dir.0, y + k * dir.1) == p
  {
  }

  /** The scan's verdict is exactly the declarative win of the mark at (x, y). */
  lemma OutcomeIsWinningLine(b: Board, x: int, y: int, width: int)
    ensures Outcome(b, x, y, width) != Unknown <==> At(b, x, y) != NoPlayer && HasWinningLine(b, x, y, width)
    ensures Outcome(b, x, y, width) != Unknown ==> Outcome(b, x, y, width) == WinnerState(At(b, x, y))
  {
    var p := At(b, x, y);
    if d :| 0 <= d < |Directions| && RunLength(b, x, y, Directions[d], width) >= width {
      var dir := Directions[d];
      RunGivesLine(b, x, y, dir, width);
      assert Line(b, x, y, dir, -(Reach(b, x, y, dir, -1, p, width, 1) as int), Reach(b, x, y, dir, 1, p, width, 1), p);
    }
    if HasWinningLine(b, x, y, width) {
      var dir, lo, hi :| dir in Directions && lo <= 0 <= hi && hi - lo + 1 >= width &&
                         Line(b, x, y, dir, lo, hi, p);
      LineGivesRun(b, x, y, dir, lo, hi, width);
      var d :| 0 <= d < |Directions| && Directions[d] == dir;
      assert RunLength(b, x, y, Directions[d], width) >= width;
    }
  }

  // ---------------------------------------------------------------------
  // One game: the shared contract of both storage variants

  /** The two storage variants behind one contract. */
  datatype Kind = Dense3x3 | Infinite

  /** The run length that wins: 3 on the dense board, 5 on the unbounded one. */
  function WinLength(k: Kind): int
  {
    if k == Dense3x3 then 3 else 5
  }

  /** What a caller of either variant can observe: Get, LastTurn and GetState. */
  datatype Game = Game(board: Board, lastTurn: Player, state: State)

  const EmptyGame := Game(map[], NoPlayer, Unknown)

  datatype Turn = Turn(x: int, y: int, cell: Player)

  /**
   The game after an accepted move: the cell is written, the mover is
   recorded, the scan decides the state and, on the dense board only, a
   game still in progress with nine marks becomes a draw.
   */
  ghost function Accepted(k: Kind, g: Game, t: Turn): Game
  {
    var board := g.board[(t.x, t.y) := t.cell];
    var won := Outcome(board, t.x, t.y, WinLength(k));
    Game(board, t.cell, if k == Dense3x3 && won == Unknown && |board| == 9 then Draw else won)
  }

  /** One call to Set: the game afterwards and the error, if any. A refused move changes nothing. */
  ghost function Play(k: Kind, g: Game, t: Turn): (Game, Option<TurnError>)
  {
    var err := ValidateTurn(g.state, g.lastTurn, At(g.board, t.x, t.y), t.cell);
    if err.Some? then (g, err) else (Accepted(k, g, t), None)
  }

  /** The nine cells of the dense board. */
  const Cells3: set<(int, int)> := {(0, 0), (0, 1), (0, 2), (1, 0), (1, 1), (1, 2), (2, 0), (2, 1), (2, 2)}

  /**
   What holds of every game either variant can reach: only real marks are
   stored, someone has moved exactly when the board is not empty, a draw
   is a full dense board, and a victory belongs to the last mover.
   */
  ghost predicate GameInvariant(k: Kind, g: Game)
  {
    && Marked(g.board)
    && (g.lastTurn == NoPlayer <==> g.board == map[])
    && (g.state == Draw ==> k == Dense3x3 && |g.board| == 9)
    && (g.state != Unknown && g.state != Draw ==> Winner(g.state) == g.lastTurn)
  }

  /** Every stored coordinate lies on the 3x3 grid. */
  ghost predicate OnGrid(b: Board)
  {
    forall p :: p in b ==> InRange3(p.0, p.1)
  }

  lemma Cells3Size()
    ensures |Cells3| == 9
    ensures forall x, y :: (x, y) in Cells3 <==> InRange3(x, y)
  {
  }

  lemma SubsetSize<T>(a: set<T>, b: set<T>)
    requires a <= b
    ensures |a| <= |b|
  {
    assert b == a + (b - a);
  }

  /** The empty game satisfies the invariant of both variants. */
  lemma EmptyGameIsValid(k: Kind)
    ensures GameInvariant(k, EmptyGame)
  {
  }

  /** An accepted move keeps the invariant. */
  lemma AcceptedKeepsInvariant(k: Kind, g: Game, t: Turn)
    requires GameInvariant(k, g)
    requires ValidateTurn(g.state, g.lastTurn, At(g.board, t.x, t.y), t.cell).None?
    ensures GameInvariant(k, Accepted(k, g, t))
  {
  }

  /** Every call to Set keeps the invariant. */
  lemma PlayKeepsInvariant(k: Kind, g: Game, t: Turn)
    requires GameInvariant(k, g)
    ensures GameInvariant(k, Play(k, g, t).0)
  {
  }

  /** On the dense board a move on the grid, or a refused move, keeps every mark on the grid. */
  lemma PlayKeepsOnGrid(g: Game, t: Turn)
    requires OnGrid(g.board)
    requires InRange3(t.x, t.y) || Play(Dense3x3, g, t).1.Some?
    ensures OnGrid(Play(Dense3x3, g, t).0.board)
  {
  }

  /** A draw on the dense board leaves no cell of the grid empty. */
  lemma DrawMeansFull(g: Game)
    requires GameInvariant(Dense3x3, g) && OnGrid(g.board) && g.state == Draw
    ensures forall x, y :: InRange3(x, y) ==> At(g.board, x, y) != NoPlayer
  {
    Cells3Size();
    forall x, y | InRange3(x, y) ensures At(g.board, x, y) != NoPlayer {
      if (x, y) !in g.board {
        var rest := Cells3 - {(x, y)};
        assert |rest| == 8;
        assert g.board.Keys <= rest;
        SubsetSize(g.board.Keys, rest);
        assert false;
      }
    }
  }

  /** The unbounded board is never drawn. */
  lemma InfiniteNeverDraws(g: Game, t: Turn)
    requires GameInvariant(Infinite, g)
    ensures Play(Infinite, g, t).0.state != Draw
  {
  }

  // ---------------------------------------------------------------------
  // Dense 3x3 board

  /** The cell at row i, column j of a grid copy; none outside it. */
  function GridCell(g: seq<seq<Player>>, i: int, j: int): Player
  {
    if 0 <= i < |g| && 0 <= j < |g[i]| then g[i][j] else NoPlayer
  }

  class Field3x3 {
    var cells: array2<Player>
    var lastTurn: Player
    var state: State
    var nonNoPlayerCells: nat
    /** The abstract board the grid stores. */
    ghost var board: Board

    ghost predicate Valid()
      reads this, cells
    {
      && cells.Length0 == 3 && cells.Length1 == 3
      && (forall i, j :: InRange3(i, j) ==> cells[i, j] == At(board, i, j))
      && OnGrid(board)
      && nonNoPlayerCells == |board|
      && GameInvariant(Dense3x3, View())
    }

    ghost function View(): Game
      reads this
    {
      Game(board, lastTurn, state)
    }

    constructor ()
      ensures Valid() && fresh(cells)
      ensures View() == EmptyGame
    {
      cells := new Player[3, 3]((_, _) => NoPlayer);
      lastTurn := NoPlayer;
      state := Unknown;
      nonNoPlayerCells := 0;
      board := map[];
    }

    /** The mark at (x, y); a coordinate off the grid holds none. */
    function Get(x: int, y: int): (r: Player)
      reads this, cells
      requires Valid()
      ensures r == At(board, x, y)
      ensures !InRange3(x, y) ==> r == NoPlayer
    {
      if x < 0 || x >= 3 || y < 0 || y >= 3 then NoPlayer else cells[x, y]
    }

    /** The mark of the last accepted move, none before the first. */
    function LastTurn(): (r: Player)
      reads this
      ensures r == View().lastTurn
    {
      lastTurn
    }

    /** The state the last accepted move left the game in. */
    function GetState(): (r: State)
      reads this
      ensures r == View().state
    {
      state
    }

    /** A copy of the grid, row by row, for the scan to read. */
    function Snapshot(): (g: seq<seq<Player>>)
      reads this, cells
      requires cells.Length0 == 3 && cells.Length1 == 3
      ensures forall i, j :: GridCell(g, i, j) == if InRange3(i, j) then cells[i, j] else NoPlayer
    {
      [[cells[0, 0], cells[0, 1], cells[0, 2]],
       [cells[1, 0], cells[1, 1], cells[1, 2]],
       [cells[2, 0], cells[2, 1], cells[2, 2]]]
    }

    /** The scan of the grid with winning length 3, anchored at (x, y). */
    method Scan(ghost marks: Board, x: int, y: int) returns (won: State)
      requires cells.Length0 == 3 && cells.Length1 == 3 && OnGrid(marks)
      requires forall i, j :: InRange3(i, j) ==> cells[i, j] == At(marks, i, j)
      ensures won == Outcome(marks, x, y, 3)
    {
      var grid := Snapshot();
      won := ScanState((i, j) => GridCell(grid, i, j), marks, x, y, 3);
    }

    /**
     Place `cell` at (x, y). An accepted move must land on the grid: the
     array write would fail otherwise.
     */
    method Set(x: int, y: int, cell: Player) returns (s: State, err: Option<TurnError>)
      requires Valid()
      requires InRange3(x, y) || ValidateTurn(state, lastTurn, Get(x, y), cell).Some?
      modifies this, cells
      ensures Valid() && cells == old(cells)
      ensures (View(), err) == Play(Dense3x3, old(View()), Turn(x, y, cell))
      ensures s == state
    {
      err := ValidateTurn(state, lastTurn, Get(x, y), cell);
      if err.Some? {
        s := state;
        return;
      }
      s := Accept(x, y, cell);
    }

    /** Write `cell` into the grid at (x, y); the grid then stores `board` with that mark added. */
    method Store(x: int, y: int, cell: Player)
      requires cells.Length0 == 3 && cells.Length1 == 3 && InRange3(x, y)
      requires forall i, j :: InRange3(i, j) ==> cells[i, j] == At(board, i, j)
      modifies cells
      ensures forall i, j :: InRange3(i, j) ==> cells[i, j] == At(board[(x, y) := cell], i, j)
    {
      cells[x, y] := cell;
      forall i, j | InRange3(i, j) ensures cells[i, j] == At(board[(x, y) := cell], i, j) {
        if (i, j) != (x, y) {
          assert cells[i, j] == old(cells[i, j]);
        }
      }
    }

    /** The accepted half of Set: store the mark, count it, score the move. */
    method Accept(x: int, y: int, cell: Player) returns (s: State)
      requires Valid() && InRange3(x, y)
      requires ValidateTurn(state, lastTurn, Get(x, y), cell).None?
      modifies this, cells
      ensures Valid() && cells == old(cells)
      ensures View() == Accepted(Dense3x3, old(View()), Turn(x, y, cell))
      ensures s == state
    {
      ghost var before := View();
      ghost var marks := board[(x, y) := cell];
      assert (x, y) !in before.board;
      var count := nonNoPlayerCells + 1;
      Store(x, y, cell);
      var won := Scan(marks, x, y);
      var next := won;
      if next == Unknown && count == 9 {
        next := Draw;
      }
      AcceptedKeepsInvariant(Dense3x3, before, Turn(x, y, cell));
      Record(marks, cell, count, next);
      s := state;
    }

    /** Record the scalar state of the game after a move. */
    method Record(ghost marks: Board, cell: Player, count: nat, next: State)
      modifies this
      ensures cells == old(cells)
      ensures board == marks && lastTurn == cell && nonNoPlayerCells == count && state == next
    {
      board, lastTurn, nonNoPlayerCells, state := marks, cell, count, next;
    }
  }

  // ---------------------------------------------------------------------
  // Unbounded board

  /** The mark stored at (x, y) in the two-level storage (x, then y). */
  function Lookup(cells: map<int, map<int, Player>>, x: int, y: int): Player
  {
    if x in cells && y in cells[x] then cells[x][y] else NoPlayer
  }

  /** Allocating an empty column for x changes no lookup. */
  lemma LookupAllocate(cells: map<int, map<int, Player>>, x: int)
    requires x !in cells
    ensures forall i, j :: Lookup(cells[x := map[]], i, j) == Lookup(cells, i, j)
  {
  }

  /** Writing y into the existing column x changes the lookup at (x, y) alone. */
  lemma LookupWrite(cells: map<int, map<int, Player>>, x: int, y: int, c: Player)
    requires x in cells
    ensures forall i, j :: Lookup(cells[x := cells[x][y := c]], i, j) == if (i, j) == (x, y) then c else Lookup(cells, i, j)
  {
  }

  class InfiniteField {
    var cells: map<int, map<int, Player>>
    var lastTurn: Player
    var state: State
    /** The abstract board the two-level storage holds. */
    ghost var board: Board

    ghost predicate Valid()
      reads this
    {
      && (forall i, j :: Lookup(cells, i, j) == At(board, i, j))
      && GameInvariant(Infinite, View())
    }

    ghost function View(): Game
      reads this
    {
      Game(board, lastTurn, state)
    }

    constructor ()
      ensures Valid()
      ensures View() == EmptyGame
    {
      cells := map[];
      lastTurn := NoPlayer;
      state := Unknown;
      board := map[];
    }

    /** The mark at (x, y), for any integers; a coordinate never written holds none. */
    function Get(x: int, y: int): (r: Player)
      reads this
      requires Valid()
      ensures r == At(board, x, y)
    {
      Lookup(cells, x, y)
    }

    /** The mark of the last accepted move, none before the first. */
    function LastTurn(): (r: Player)
      reads this
      ensures r == View().lastTurn
    {
      lastTurn
    }

    /** The state the last accepted move left the game in. */
    function GetState(): (r: State)
      reads this
      ensures r == View().state
    {
      state
    }

    /** Place `cell` at (x, y), creating the column for x on its first write. */
    method Set(x: int, y: int, cell: Player) returns (s: State, err: Option<TurnError>)
      requires Valid()
      modifies this
      ensures Valid()
      ensures (View(), err) == Play(Infinite, old(View()), Turn(x, y, cell))
      ensures s == state
    {
      ghost var before := View();
      err := ValidateTurn(state, lastTurn, Get(x, y), cell);
      if err.Some? {
        s := state;
        return;
      }
      var grid := cells;
      if x !in grid {
        LookupAllocate(grid, x);
        grid := grid[x := map[]];
      }
      LookupWrite(grid, x, y, cell);
      grid := grid[x := grid[x][y := cell]];
      ghost var marks := board[(x, y) := cell];
      forall i, j ensures Lookup(grid, i, j) == At(marks, i, j) {
        assert Lookup(cells, i, j) == At(board, i, j);
      }
      var won := ScanState((i, j) => Lookup(grid, i, j), marks, x, y, 5);
      AcceptedKeepsInvariant(Infinite, before, Turn(x, y, cell));
      assert Accepted(Infinite, before, Turn(x, y, cell)) == Game(marks, cell, won);
      Record(grid, marks, cell, won);
      s := state;
    }

    /** Record the storage and the scalar state of the game after a move. */
    method Record(grid: map<int, map<int, Player>>, ghost marks: Board, cell: Player, next: State)
      modifies this
      ensures cells == grid && board == marks && lastTurn == cell && state == next
    {
      cells, board, lastTurn, state := grid, marks, cell, next;
    }
  }
}
