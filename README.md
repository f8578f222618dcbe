# Tic-tac-toe engine and game registry, in Dafny

This project models the core of a small Go tic-tac-toe server.

**The board engine** (`engine/engine.go`, module `Engine` in `engine.dfy`):
- Marks are `Player` (`NoPlayer`, `PlayerX`, `PlayerO`) and game states are `State` (`Unknown`, `Draw`, `PlayerXVictory`, `PlayerOVictory`).
- `ValidateTurn` applies the four rules that refuse a move, in the code's order: an empty mark, a finished game, the same player twice, an occupied cell.
- `WinnerState` maps a mark to its victory.
- `ScanState` is the bounded scan of `getState`. It is a method with the code's three nested loops, proved equal to the specification function `Outcome`. `OutcomeIsWinningLine` then proves that `Outcome` is a victory exactly when an unbroken line of the mover's mark, at least `width` long, runs through the cell just played in one of the scanned directions.

Both storage variants are classes whose `Set` methods update their fields in place:
- `Field3x3` keeps a 3x3 `array2` plus the counter of marks.
- `InfiniteField` keeps the lazily allocated two-level map `map<int, map<int, Player>>`.

Each class keeps a ghost abstract board, a map from coordinates to marks. `Valid()` couples the storage to that board. Both `Set` methods are specified by one function over the abstract game, `Play(kind, game, turn)`; this is how the model expresses the shared `Fielder` interface. `GameInvariant` is the invariant both variants keep:
- only real marks are stored;
- someone has moved exactly when the board is non-empty;
- a draw is a full dense board;
- a victory belongs to the last mover.

**Whole games** (module `Runs` in `runs.dfy`) fold `Play` over a sequence of turns and prove the following:
- turns alternate;
- a mark is never overwritten;
- a cell no turn targets keeps its mark;
- a finished game refuses every later move;
- the board grows by one mark per accepted move.

Concrete positions:
- a dense column win reached by five `Set` calls;
- a five-in-a-row win through negative coordinates;
- a full anti-diagonal that the scan does not report.

**The game registry** (`api/api.go`, module `Api` in `api.dfy`) is a class holding a growing `seq<GameInfo>`. Each game pairs two different player names with its own `InfiniteField`, and its id is its index. The untyped maps the Go code returns become small datatypes:
- `Listing` for an entry of the game list;
- `Report` for the answer to a move;
- `Option<string>` for a rendered cell.

Errors are the enumeration `ApiError`.

The scan checks three directions, as the code does: horizontal, vertical and the (1,1) diagonal (`engine/engine.go:63`). The (1,-1) anti-diagonal is never checked, although standard tic-tac-toe counts it as a winning line. The model follows the code. `Runs.AntiDiagonalNotDetected` exhibits a 3x3 board whose anti-diagonal is full and on which the scan still reports no winner.

## Model

| member | source | states |
|---|---|---|
| Engine.ValidateTurn | engine/engine.go:34-48 | a move is refused with exactly one of the four reasons, each exactly when the earlier rules pass and its own fails; it is accepted exactly when all four pass |
| Engine.WinnerState | engine/engine.go:50-59 | X and O map to their victories and the empty mark to no result; never a draw; the winner of the result is the mark given |
| Engine.ScanState | engine/engine.go:61-76 | the three-direction scan, with each direction walking at most width - 1 cells each way and the count starting at 1, returns exactly `Outcome` of the board it reads |
| Engine.ReachBounds | engine/engine.go:66 | the walk in one sense stops no earlier than where it started and never reaches the width bound |
| Engine.ReachMatches | engine/engine.go:66 | every cell the walk passed holds the mover's mark |
| Engine.ReachStops | engine/engine.go:66 | the walk stops at a cell without the mover's mark unless it hit the width bound |
| Engine.RunGivesLine | engine/engine.go:64-72 | a direction the scan counts as long enough holds an unbroken line through the played cell |
| Engine.LineGivesRun | engine/engine.go:64-72 | an unbroken line of at least `width` cells through the played cell makes the scan's count reach `width` |
| Engine.OutcomeIsWinningLine | engine/engine.go:61-76 | the scan reports a victory exactly when the played cell holds a mark and a line of that mark at least `width` long runs through it in a scanned direction; the victory is that mark's |
| Engine.EmptyGameIsValid | engine/engine.go:88-92 | a new board (empty, no last mover, state unknown) satisfies the invariant |
| Engine.AcceptedKeepsInvariant | engine/engine.go:117-123 | an accepted move keeps the invariant: the new mark is real, the last mover is set, a victory is the mover's, a draw needs nine marks |
| Engine.PlayKeepsInvariant | engine/engine.go:110-127 | every Set call, accepted or refused, keeps the invariant |
| Engine.PlayKeepsOnGrid | engine/engine.go:94-100 | on the dense board, a move on the grid, or a refused move, keeps every mark on the grid |
| Engine.DrawMeansFull | engine/engine.go:119-123 | a dense board in a draw has all nine cells marked |
| Engine.InfiniteNeverDraws | engine/engine.go:166 | the unbounded board never reaches a draw |
| Engine.Field3x3.constructor | engine/engine.go:88-92 | a new dense field is empty, has no last mover and an unknown state |
| Engine.Field3x3.Get | engine/engine.go:94-100 | returns the abstract board's mark, and no mark off the 3x3 grid |
| Engine.Field3x3.LastTurn | engine/engine.go:102-104 | returns the mark of the last accepted move recorded in the game view |
| Engine.Field3x3.GetState | engine/engine.go:106-108 | returns the state recorded in the game view |
| Engine.Field3x3.Scan | engine/engine.go:120 | the scan of the grid with win length 3 is `Outcome` of the board the grid holds |
| Engine.Field3x3.Store | engine/engine.go:117 | the array write stores the new mark at (x, y) and keeps every other cell |
| Engine.Field3x3.Accept | engine/engine.go:117-123 | an accepted move writes the cell, records the mover, counts the mark, and sets the state to the scan's verdict, or to a draw when the scan finds no win and nine marks are down |
| Engine.Field3x3.Set | engine/engine.go:110-127 | the new game and the error are `Play` on the dense board: a refused move changes nothing and returns the old state; the counter still equals the number of marks |
| Engine.LookupAllocate | engine/engine.go:161-163 | creating the empty column for x changes no cell |
| Engine.LookupWrite | engine/engine.go:164 | writing into column x changes the cell (x, y) alone |
| Engine.InfiniteField.constructor | engine/engine.go:138-142 | a new unbounded field is empty, has no last mover and an unknown state |
| Engine.InfiniteField.LastTurn | engine/engine.go:172-174 | returns the mark of the last accepted move recorded in the game view |
| Engine.InfiniteField.GetState | engine/engine.go:176-178 | returns the state recorded in the game view |
| Engine.InfiniteField.Get | engine/engine.go:144-149 | returns the abstract board's mark at any coordinate (unbounded integers, see Left out), and no mark where none was written |
| Engine.InfiniteField.Set | engine/engine.go:151-170 | the new game and the error are `Play` on the unbounded board with win length 5 and no draw rule; the two-level storage still holds the abstract board |
| Runs.RunKeepsInvariant | engine/engine.go:110-127 | every game reached by Set calls from a valid game is valid |
| Runs.FinishedIsFinal | engine/engine.go:38-40 | once the state is not unknown, every later Set is refused and the game stays as it is |
| Runs.MarksStay | engine/engine.go:44-46 | a mark on the board is still there, unchanged, after any later Set calls |
| Runs.UntouchedCellsStay | engine/engine.go:117-118 | a cell that no turn targets reads the same after the Set calls |
| Runs.PlayLastTurn | engine/engine.go:41-43 | an accepted mark is real, differs from the previous mover and becomes the last mover; a refused move changes nothing |
| Runs.AlternatesCons | engine/engine.go:41-43 | putting a real mark that differs from the previous mover in front of an alternating sequence keeps it alternating |
| Runs.TurnsAlternate | engine/engine.go:41-43 | the accepted marks are real, consecutive ones differ, the first differs from the last mover before, and the last is the last mover after |
| Runs.BoardCountsAcceptedMoves | engine/engine.go:117-119 | each accepted move adds exactly one mark to the board |
| Runs.DenseCounterCountsMoves | engine/engine.go:119 | from a new game, the number of marks, and so the dense counter, is the number of accepted moves |
| Runs.OffGridPassesValidation | engine/engine.go:94-96 | an off-grid move on the dense board passes the four rules whenever the game is running and the mark is not the last mover's, so only the precondition of Set keeps it from the array write |
| Runs.WinnerStateRoundTrip | engine/engine.go:50-59 | mapping a victory, or no result, to its winner and back gives the same state |
| Runs.ShortRunsNoWin | engine/engine.go:63-75 | when every scanned direction is shorter than the width, the scan finds no win |
| Runs.QuietDenseMove | engine/engine.go:117-123 | an accepted dense move with no long run and fewer than nine marks leaves the game in progress |
| Runs.DenseColumnWin | engine/engine.go:110-127 | X at (0,0), O at (1,0), X at (0,1), O at (1,1), X at (0,2) gives X the victory |
| Runs.AntiDiagonalNotDetected | engine/engine.go:63 | a full (1,-1) anti-diagonal through the played cell gives no victory |
| Runs.NegativeDiagonalWin | engine/engine.go:166 | five marks on the (1,1) diagonal through negative coordinates win with width 5 |
| Runs.SparseRowWin | engine/engine.go:151-170 | five X marks along y = 0 from x = -2 to 2, with four O marks beside them, win the unbounded board when the last X lands at (2, 0) |
| Api.Render | api/api.go:77-84 | a cell renders as "x", "o", or nil exactly for X, O and the empty mark |
| Api.WinnerEntryOf | api/api.go:36-43 | the listing has no winner entry while the game runs, nil for a draw, and the winner's rendered mark for a victory |
| Api.MarkOf | api/api.go:114-122 | the first player's name plays X, checked first; the second's plays O; any other name plays nothing |
| Api.ParseState | api/api.go:96-111 | "victory" exactly for victories, "draw" for a draw, "in progress" otherwise; a winner is named exactly for a victory, and with different names it is the player whose mark won |
| Api.ParseStateInjective | api/api.go:96-111 | with two different names, the report determines the state |
| Api.ParseStateSameNames | api/api.go:49-51 | with one name for both players an X victory and an O victory would report the same, which is why equal names are refused |
| Api.Lift | api/api.go:116-120 | the board's refusal passes through as the registry's error, and no refusal means no error |
| Api.Api.constructor | api/api.go:21-25 | a new registry has no games |
| Api.Api.NewGame | api/api.go:48-61 | equal names are refused with -1 and the list unchanged; otherwise exactly one game is appended, with id equal to the old length, the two names and a fresh empty board, and earlier games are kept |
| Api.Api.ListGames | api/api.go:27-46 | one entry per game in order, with id equal to the index, the names in X, O order and the winner entry of the game's state |
| Api.Api.GetGameFieldPart | api/api.go:63-89 | an id out of range is an error; otherwise a width x height grid whose entry [i][j] renders the board's cell (x + i, y + j) |
| Api.Api.UpdateGame | api/api.go:91-124 | a bad id or an unknown name is an error and changes nothing; otherwise the game's board plays the name's mark, the error is the board's, the report is the state the board returned, and every other game is untouched |
| Api.AcceptedVictoryNamesMover | api/api.go:113-120 | the registry never sends an empty mark, and an accepted winning move reports the name that played it as the winner |

## Left out

- Concurrency: the mutexes in both files are left out. Each `Set`, `NewGame` and `UpdateGame` is treated as atomic, and so are the unlocked reads of the game list.
- Error messages: the text of each error is replaced by the enumerations `TurnError` and `ApiError`.
- The `Fielder` interface: it is not a type here. Both classes state their `Set` through the shared `Play` function and the shared `Game` view, and `ScanState` reads the board through a function parameter standing for `Get`.
- Engine.Field3x3.Set: requires the move to be on the grid or to be refused. An accepted off-grid move indexes the array out of range and panics in the Go code.
- Engine.Field3x3.Accept: writes the scalar fields together after the scan instead of one by one. Under the mutex the order cannot be observed.
- Engine.Field3x3.Scan: reads a copy of the grid rather than calling `Get` on the field. The copy is taken after the write, so it holds the same cells.
- The dense counter: Go's `uint` is an unbounded `nat` here, since it cannot exceed nine.
- Engine.InfiniteField.Set: the nil outer map of a new Go field is the empty map. The branch that allocates it has no separate counterpart.
- Api.Api.NewGame: appends the complete record at once. The Go code appends a zero record and then fills it in, which only matters without the lock.
- Engine.ScanState: coordinates are unbounded integers. Go's `x + i * dir[0] * m` and `y + i * dir[1] * m` (engine/engine.go:66) are `int` sums that wrap at 2^63. A line that crosses that boundary counts as a win in Go but not in the model.
- Engine.InfiniteField.Set: coordinates are unbounded integers. The 64-bit wrap-around of the scan near ±2^63 is not modelled (see `Engine.ScanState`).
- Api.Api.GetGameFieldPart: coordinates are unbounded integers. Go's `x + i` and `y + j` (api/api.go:77) wrap at 2^63, so a window that straddles the boundary reads other cells in Go.
- Api.Api.GetGameFieldPart: requires a non-negative width and, when the width is positive, a non-negative height for a valid id. Go's `make` panics otherwise.
- Api.Api.GetGameFieldPart: the check for a missing board is not modelled. Every registered game holds its board from the moment it is added.
- HTTP layer: the facade (`api/server.go`) and the program entry point are not part of this model. This covers request parsing, JSON encoding, responses and static files.
