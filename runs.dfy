/**
 Whole games: a sequence of Set calls folded over the shared contract of
 the two storage variants, what stays true along it, and a few concrete
 positions.
 */
module Runs {
  import opened Wrappers
  import opened Engine

  /** The game after the turns, one Set call each, in order. */
  ghost function Run(k: Kind, g: Game, ts: seq<Turn>): Game
    decreases |ts|
  {
    if ts == [] then g else Run(k, Play(k, g, ts[0]).0, ts[1..])
  }

  /** The marks of the turns that were accepted, in order. */
  ghost function Trace(k: Kind, g: Game, ts: seq<Turn>): seq<Player>
    decreases |ts|
  {
    if ts == [] then []
    else
      var (next, err) := Play(k, g, ts[0]);
      (if err.None? then [ts[0].cell] else []) + Trace(k, next, ts[1..])
  }

  /** Real marks only, each different from the one before it, the first different from `first`. */
  ghost predicate Alternates(first: Player, marks: seq<Player>)
  {
    && (forall i :: 0 <= i < |marks| ==> marks[i] != NoPlayer)
    && (|marks| > 0 ==> marks[0] != first)
    && (forall i :: 0 < i < |marks| ==> marks[i] != marks[i - 1])
  }

  /** Every game reached from a valid one is valid. */
  lemma {:induction false} RunKeepsInvariant(k: Kind, g: Game, ts: seq<Turn>)
    requires GameInvariant(k, g)
    ensures GameInvariant(k, Run(k, g, ts))
    decreases |ts|
  {
    if ts != [] {
      PlayKeepsInvariant(k, g, ts[0]);
      RunKeepsInvariant(k, Play(k, g, ts[0]).0, ts[1..]);
    }
  }

  /** A finished game stays as it is: every later move is refused. */
  lemma {:induction false} FinishedIsFinal(k: Kind, g: Game, ts: seq<Turn>)
    requires g.state != Unknown
    ensures Run(k, g, ts) == g
    ensures Trace(k, g, ts) == []
    decreases |ts|
  {
    if ts != [] {
      assert Play(k, g, ts[0]).1.Some?;
      FinishedIsFinal(k, g, ts[1..]);
    }
  }

  /** A mark on the board is never overwritten, whatever the later moves. */
  lemma {:induction false} MarksStay(k: Kind, g: Game, ts: seq<Turn>)
    requires Marked(g.board)
    ensures forall p :: p in g.board ==> p in Run(k, g, ts).board && Run(k, g, ts).board[p] == g.board[p]
    decreases |ts|
  {
    if ts != [] {
      var next := Play(k, g, ts[0]).0;
      assert forall p :: p in g.board ==> p in next.board && next.board[p] == g.board[p];
      if Play(k, g, ts[0]).1.None? {
        AcceptedKeepsInvariantMarks(k, g, ts[0]);
      }
      MarksStay(k, next, ts[1..]);
    }
  }

  /** A cell that no turn targets reads the same after the run: each Set writes its own cell alone. */
  lemma {:induction false} UntouchedCellsStay(k: Kind, g: Game, ts: seq<Turn>, x: int, y: int)
    requires forall i :: 0 <= i < |ts| ==> (ts[i].x, ts[i].y) != (x, y)
    ensures At(Run(k, g, ts).board, x, y) == At(g.board, x, y)
    decreases |ts|
  {
    if ts != [] {
      var next := Play(k, g, ts[0]).0;
      assert At(next.board, x, y) == At(g.board, x, y);
      UntouchedCellsStay(k, next, ts[1..], x, y);
    }
  }

  /** An accepted move keeps the stored values real marks. */
  lemma AcceptedKeepsInvariantMarks(k: Kind, g: Game, t: Turn)
    requires Marked(g.board)
    requires ValidateTurn(g.state, g.lastTurn, At(g.board, t.x, t.y), t.cell).None?
    ensures Marked(Accepted(k, g, t).board)
  {
  }

  /** A real mark different from `first`, followed by an alternating run from it, alternates from `first`. */
  lemma AlternatesCons(first: Player, c: Player, rest: seq<Player>)
    requires c != NoPlayer && c != first && Alternates(c, rest)
    ensures Alternates(first, [c] + rest)
  {
  }

  /** One Set call: an accepted mark is real, differs from the last mover and becomes the last mover. */
  lemma PlayLastTurn(k: Kind, g: Game, t: Turn)
    ensures var (next, err) := Play(k, g, t);
      if err.None? then t.cell != NoPlayer && t.cell != g.lastTurn && next.lastTurn == t.cell
      else next == g
  {
  }

  /**
   Turns alternate: the accepted marks are real, each differs from the one
   before it, the first differs from the last mover before the run, and the
   last is the last mover after it.
   */
  lemma {:induction false} TurnsAlternate(k: Kind, g: Game, ts: seq<Turn>)
    ensures Alternates(g.lastTurn, Trace(k, g, ts))
    ensures Run(k, g, ts).lastTurn == if Trace(k, g, ts) == [] then g.lastTurn else Trace(k, g, ts)[|Trace(k, g, ts)| - 1]
    decreases |ts|
  {
    if ts != [] {
      var (next, err) := Play(k, g, ts[0]);
      var rest := Trace(k, next, ts[1..]);
      TurnsAlternate(k, next, ts[1..]);
      PlayLastTurn(k, g, ts[0]);
      if err.None? {
        assert Trace(k, g, ts) == [ts[0].cell] + rest;
        AlternatesCons(g.lastTurn, ts[0].cell, rest);
      } else {
        assert Trace(k, g, ts) == rest;
      }
    }
  }

  /** Every accepted move adds exactly one mark to the board. */
  lemma {:induction false} BoardCountsAcceptedMoves(k: Kind, g: Game, ts: seq<Turn>)
    requires Marked(g.board)
    ensures |Run(k, g, ts).board| == |g.board| + |Trace(k, g, ts)|
    decreases |ts|
  {
    if ts != [] {
      var t := ts[0];
      var (next, err) := Play(k, g, t);
      if err.None? {
        assert (t.x, t.y) !in g.board;
        AcceptedKeepsInvariantMarks(k, g, t);
      }
      BoardCountsAcceptedMoves(k, next, ts[1..]);
    }
  }

  /** From the empty game, the dense board's counter of marks is the number of accepted moves. */
  lemma DenseCounterCountsMoves(ts: seq<Turn>)
    ensures |Run(Dense3x3, EmptyGame, ts).board| == |Trace(Dense3x3, EmptyGame, ts)|
  {
    BoardCountsAcceptedMoves(Dense3x3, EmptyGame, ts);
  }

  /**
   On the dense board a move off the grid passes the four rules whenever
   a move on an empty cell would: the grid reads as empty there, so such
   a move reaches the array write.
   */
  lemma OffGridPassesValidation(g: Game, x: int, y: int, cell: Player)
    requires OnGrid(g.board) && !InRange3(x, y)
    requires cell != NoPlayer && g.state == Unknown && cell != g.lastTurn
    ensures Play(Dense3x3, g, Turn(x, y, cell)).1 == None
  {
  }

  /** A victory names its own winner back: getWinnerState inverts Winner on victories. */
  lemma WinnerStateRoundTrip(s: State)
    requires s != Draw
    ensures WinnerState(Winner(s)) == s
  {
  }

  // ---------------------------------------------------------------------
  // Concrete positions

  /** When every direction from index d on is too short, none of them wins. */
  lemma ShortRunsNoWin(b: Board, x: int, y: int, width: int, d: nat)
    requires forall e :: d <= e < |Directions| ==> RunLength(b, x, y, Directions[e], width) < width
    ensures !WinsFrom(b, x, y, width, d)
    decreases |Directions| - d
  {
  }

  /** A move after which every direction through it is too short does not decide the game. */
  lemma ShortRunsUnknown(b: Board, x: int, y: int, width: int)
    requires forall d :: 0 <= d < |Directions| ==> RunLength(b, x, y, Directions[d], width) < width
    ensures Outcome(b, x, y, width) == Unknown
  {
  }

  /** A quiet move on the dense board: accepted, no run long enough, fewer than nine marks. */
  lemma QuietDenseMove(g: Game, t: Turn)
    requires ValidateTurn(g.state, g.lastTurn, At(g.board, t.x, t.y), t.cell).None?
    requires |g.board[(t.x, t.y) := t.cell]| < 9
    requires forall d :: 0 <= d < |Directions| ==> RunLength(g.board[(t.x, t.y) := t.cell], t.x, t.y, Directions[d], 3) < 3
    ensures Play(Dense3x3, g, t) == (Game(g.board[(t.x, t.y) := t.cell], t.cell, Unknown), None)
  {
  }

  /** The opening of the column game: X (0,0), O (1,0), X (0,1), O (1,1). */
  const ColumnTurns := [Turn(0, 0, PlayerX), Turn(1, 0, PlayerO), Turn(0, 1, PlayerX), Turn(1, 1, PlayerO), Turn(0, 2, PlayerX)]

  lemma ColumnMove1()
    ensures Play(Dense3x3, EmptyGame, ColumnTurns[0]).0 == Game(map[(0, 0) := PlayerX], PlayerX, Unknown)
  {
    var b := map[(0, 0) := PlayerX];
    forall d | 0 <= d < |Directions| ensures RunLength(b, 0, 0, Directions[d], 3) < 3 {
      var dir := Directions[d];
      assert Probe(b, 0, 0, dir, -1, 1) == NoPlayer && Probe(b, 0, 0, dir, 1, 1) == NoPlayer;
    }
    QuietDenseMove(EmptyGame, ColumnTurns[0]);
  }

  lemma ColumnMove2()
    ensures var g := Game(map[(0, 0) := PlayerX], PlayerX, Unknown);
      Play(Dense3x3, g, ColumnTurns[1]).0 == Game(map[(0, 0) := PlayerX, (1, 0) := PlayerO], PlayerO, Unknown)
  {
    var g := Game(map[(0, 0) := PlayerX], PlayerX, Unknown);
    var b := map[(0, 0) := PlayerX, (1, 0) := PlayerO];
    assert g.board[(1, 0) := PlayerO] == b;
    forall d | 0 <= d < |Directions| ensures RunLength(b, 1, 0, Directions[d], 3) < 3 {
      var dir := Directions[d];
      assert Probe(b, 1, 0, dir, -1, 1) != PlayerO && Probe(b, 1, 0, dir, 1, 1) == NoPlayer;
    }
    QuietDenseMove(g, ColumnTurns[1]);
  }

  lemma ColumnMove3()
    ensures var g := Game(map[(0, 0) := PlayerX, (1, 0) := PlayerO], PlayerO, Unknown);
      Play(Dense3x3, g, ColumnTurns[2]).0 == Game(map[(0, 0) := PlayerX, (1, 0) := PlayerO, (0, 1) := PlayerX], PlayerX, Unknown)
  {
    var g := Game(map[(0, 0) := PlayerX, (1, 0) := PlayerO], PlayerO, Unknown);
    var b := map[(0, 0) := PlayerX, (1, 0) := PlayerO, (0, 1) := PlayerX];
    assert g.board[(0, 1) := PlayerX] == b;
    forall d | 0 <= d < |Directions| ensures RunLength(b, 0, 1, Directions[d], 3) < 3 {
      var dir := Directions[d];
      if d == 1 {
        assert Probe(b, 0, 1, dir, -1, 1) == PlayerX && Probe(b, 0, 1, dir, -1, 2) == NoPlayer;
        assert Probe(b, 0, 1, dir, 1, 1) == NoPlayer;
      } else {
        assert Probe(b, 0, 1, dir, -1, 1) == NoPlayer && Probe(b, 0, 1, dir, 1, 1) == NoPlayer;
      }
    }
    QuietDenseMove(g, ColumnTurns[2]);
  }

  lemma ColumnMove4()
    ensures var g := Game(map[(0, 0) := PlayerX, (1, 0) := PlayerO, (0, 1) := PlayerX], PlayerX, Unknown);
      Play(Dense3x3, g, ColumnTurns[3]).0 ==
        Game(map[(0, 0) := PlayerX, (1, 0) := PlayerO, (0, 1) := PlayerX, (1, 1) := PlayerO], PlayerO, Unknown)
  {
    var g := Game(map[(0, 0) := PlayerX, (1, 0) := PlayerO, (0, 1) := PlayerX], PlayerX, Unknown);
    var b := map[(0, 0) := PlayerX, (1, 0) := PlayerO, (0, 1) := PlayerX, (1, 1) := PlayerO];
    assert g.board[(1, 1) := PlayerO] == b;
    forall d | 0 <= d < |Directions| ensures RunLength(b, 1, 1, Directions[d], 3) < 3 {
      var dir := Directions[d];
      if d == 1 {
        assert Probe(b, 1, 1, dir, -1, 1) == PlayerO && Probe(b, 1, 1, dir, -1, 2) == NoPlayer;
        assert Probe(b, 1, 1, dir, 1, 1) == NoPlayer;
      } else {
        assert Probe(b, 1, 1, dir, -1, 1) != PlayerO && Probe(b, 1, 1, dir, 1, 1) == NoPlayer;
      }
    }
    QuietDenseMove(g, ColumnTurns[3]);
  }

  lemma ColumnMove5()
    ensures var g := Game(map[(0, 0) := PlayerX, (1, 0) := PlayerO, (0, 1) := PlayerX, (1, 1) := PlayerO], PlayerO, Unknown);
      Play(Dense3x3, g, ColumnTurns[4]).0.state == PlayerXVictory
  {
    var g := Game(map[(0, 0) := PlayerX, (1, 0) := PlayerO, (0, 1) := PlayerX, (1, 1) := PlayerO], PlayerO, Unknown);
    var b := g.board[(0, 2) := PlayerX];
    assert Line(b, 0, 2, (0, 1), -2, 0, PlayerX);
    LineGivesRun(b, 0, 2, (0, 1), -2, 0, 3);
  }

  /** X fills the column x = 0 of the dense board in five moves and wins. */
  lemma DenseColumnWin()
    ensures Run(Dense3x3, EmptyGame, ColumnTurns).state == PlayerXVictory
  {
    ColumnMove1();
    ColumnMove2();
    ColumnMove3();
    ColumnMove4();
    ColumnMove5();
    var ts := ColumnTurns;
    assert ts[1..][1..][1..][1..][1..] == [];
  }

  /** The (1,-1) anti-diagonal is not among the scan directions: a full anti-diagonal is no win. */
  lemma AntiDiagonalNotDetected()
    ensures var b := map[(0, 2) := PlayerX, (1, 1) := PlayerX, (2, 0) := PlayerX, (0, 0) := PlayerO, (1, 0) := PlayerO];
      Outcome(b, 1, 1, 3) == Unknown
  {
    var b := map[(0, 2) := PlayerX, (1, 1) := PlayerX, (2, 0) := PlayerX, (0, 0) := PlayerO, (1, 0) := PlayerO];
    forall d | 0 <= d < |Directions| ensures RunLength(b, 1, 1, Directions[d], 3) < 3 {
      var dir := Directions[d];
      assert Probe(b, 1, 1, dir, -1, 1) != PlayerX && Probe(b, 1, 1, dir, 1, 1) != PlayerX;
    }
    ShortRunsNoWin(b, 1, 1, 3, 0);
  }

  /** Five X marks on the (1,1) diagonal through negative coordinates win the unbounded board. */
  lemma NegativeDiagonalWin()
    ensures var b := map[(-4, -4) := PlayerX, (-3, -3) := PlayerX, (-2, -2) := PlayerX, (-1, -1) := PlayerX, (0, 0) := PlayerX];
      Outcome(b, -2, -2, 5) == PlayerXVictory
  {
    var b := map[(-4, -4) := PlayerX, (-3, -3) := PlayerX, (-2, -2) := PlayerX, (-1, -1) := PlayerX, (0, 0) := PlayerX];
    assert Line(b, -2, -2, (1, 1), -2, 2, PlayerX);
    LineGivesRun(b, -2, -2, (1, 1), -2, 2, 5);
  }

  /**
   Five X marks along y = 0 from x = -2 to x = 2, placed in alternation
   with four O marks along y = 1, win the unbounded board when the last
   X lands at (2, 0).
   */
  lemma SparseRowWin()
    ensures var b := map[(-2, 0) := PlayerX, (-2, 1) := PlayerO, (-1, 0) := PlayerX, (-1, 1) := PlayerO,
                         (0, 0) := PlayerX, (0, 1) := PlayerO, (1, 0) := PlayerX, (1, 1) := PlayerO, (2, 0) := PlayerX];
      Outcome(b, 2, 0, 5) == PlayerXVictory
  {
    var b := map[(-2, 0) := PlayerX, (-2, 1) := PlayerO, (-1, 0) := PlayerX, (-1, 1) := PlayerO,
                 (0, 0) := PlayerX, (0, 1) := PlayerO, (1, 0) := PlayerX, (1, 1) := PlayerO, (2, 0) := PlayerX];
    assert Line(b, 2, 0, (1, 0), -4, 0, PlayerX);
    LineGivesRun(b, 2, 0, (1, 0), -4, 0, 5);
  }
}
