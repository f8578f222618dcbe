/**
 The game registry behind the HTTP facade: a list of games that only
 grows, each pairing two named players with an unbounded board, and the
 four calls the facade makes on it (create, list, read a window of a
 board, play a move). The untyped maps the facade marshals to JSON are
 small datatypes here.
 */
module Api {
  import opened Wrappers
  import opened Engine

  /** Why a registry call failed; a refused move carries the engine's reason. */
  datatype ApiError = BadId | BadPlayer | SamePlayers | Rejected(reason: TurnError)

  /** One registered game: its id, the two player names and its board. */
  datatype GameInfo = GameInfo(gameId: int, playerX: string, playerO: string, field: InfiniteField)

  /** The "winner" entry of a listing: absent while in progress, nil for a draw, or the winning mark. */
  datatype WinnerEntry = NoWinnerKey | NilWinner | WinnerMark(mark: string)

  /** One entry of the game list: id, the two names in X, O order, and the winner entry. */
  datatype Listing = Listing(id: int, users: seq<string>, winner: WinnerEntry)

  /** The answer to a move: the "state" entry and, for a victory, the "winner" entry. */
  datatype Report = Report(state: string, winner: Option<string>)

  /** A cell as the board window shows it: "x", "o", or nil for an empty cell. */
  function Render(p: Player): (r: Option<string>)
    ensures r == None <==> p == NoPlayer
    ensures r == Some("x") <==> p == PlayerX
    ensures r == Some("o") <==> p == PlayerO
  {
    match p
    case PlayerX => Some("x")
    case PlayerO => Some("o")
    case NoPlayer => None
  }

  /** The winner entry of a listing for a game in state `s`. */
  function WinnerEntryOf(s: State): (w: WinnerEntry)
    ensures w == NoWinnerKey <==> s == Unknown
    ensures w == NilWinner <==> s == Draw
    ensures w.WinnerMark? ==> Some(w.mark) == Render(Winner(s))
  {
    match s
    case PlayerXVictory => WinnerMark("x")
    case PlayerOVictory => WinnerMark("o")
    case Draw => NilWinner
    case Unknown => NoWinnerKey
  }

  /** The mark a player name plays in `game`: X is matched first, an unknown name plays none. */
  function MarkOf(game: GameInfo, name: string): (p: Player)
    ensures p == PlayerX <==> name == game.playerX
    ensures p == PlayerO <==> name != game.playerX && name == game.playerO
  {
    if name == game.playerX then PlayerX
    else if name == game.playerO then PlayerO
    else NoPlayer
  }

  /** The report for state `s` of `game`: a victory names the player whose mark won. */
  function ParseState(s: State, game: GameInfo): (r: Report)
    ensures r.state == "victory" <==> s == PlayerXVictory || s == PlayerOVictory
    ensures r.state == "draw" <==> s == Draw
    ensures r.state == "in progress" <==> s == Unknown
    ensures r.winner.Some? <==> r.state == "victory"
    ensures r.winner.Some? ==> r.winner.value == game.playerX || r.winner.value == game.playerO
    ensures game.playerX != game.playerO && r.winner.Some? ==> MarkOf(game, r.winner.value) == Winner(s)
  {
    match s
    case PlayerXVictory => Report("victory", Some(game.playerX))
    case PlayerOVictory => Report("victory", Some(game.playerO))
    case Draw => Report("draw", None)
    case Unknown => Report("in progress", None)
  }

  /** With two different names the report determines the state. */
  lemma ParseStateInjective(s: State, t: State, game: GameInfo)
    requires game.playerX != game.playerO
    requires ParseState(s, game) == ParseState(t, game)
    ensures s == t
  {
  }

  /** With one name for both players, an X victory and an O victory read the same. */
  lemma ParseStateSameNames(game: GameInfo)
    requires game.playerX == game.playerO
    ensures ParseState(PlayerXVictory, game) == ParseState(PlayerOVictory, game)
  {
  }

  /** The engine's refusal as a registry error. */
  function Lift(e: Option<TurnError>): (r: Option<ApiError>)
    ensures r.None? <==> e.None?
    ensures e.Some? ==> r == Some(Rejected(e.value))
  {
    if e.Some? then Some(Rejected(e.value)) else None
  }

  class Api {
    var games: seq<GameInfo>
    /** The boards of the registered games. */
    ghost var Repr: set<InfiniteField>

    /**
     Each game sits at the index equal to its id, has two different
     player names and a board of its own that keeps the engine invariant.
     */
    ghost predicate Valid()
      reads this, Repr
    {
      && (forall i :: 0 <= i < |games| ==> games[i].field in Repr)
      && (forall i :: 0 <= i < |games| ==> games[i].gameId == i && games[i].playerX != games[i].playerO)
      && (forall i :: 0 <= i < |games| ==> games[i].field.Valid())
      && (forall i, j :: 0 <= i < j < |games| ==> games[i].field != games[j].field)
    }

    constructor ()
      ensures Valid() && games == [] && Repr == {}
    {
      games := [];
      Repr := {};
    }

    /**
     Register a game between two different players on a fresh empty
     board; the id is the position in the list.
     */
    method NewGame(playerX: string, playerO: string) returns (id: int, err: Option<ApiError>)
      requires Valid()
      modifies this
      ensures Valid()
      ensures err.Some? <==> playerX == playerO
      ensures err.Some? ==> err == Some(SamePlayers) && id == -1 && games == old(games) && Repr == old(Repr)
      ensures err.None? ==> && id == |old(games)| && |games| == id + 1 && games[..id] == old(games)
                            && games[id].gameId == id && games[id].playerX == playerX && games[id].playerO == playerO
                            && fresh(games[id].field) && games[id].field.View() == EmptyGame
                            && Repr == old(Repr) + {games[id].field}
    {
      if playerX == playerO {
        return -1, Some(SamePlayers);
      }
      var field := new InfiniteField();
      id := |games|;
      games := games + [GameInfo(id, playerX, playerO, field)];
      Repr := Repr + {field};
      err := None;
    }

    /** One entry per game, in list order. */
    method ListGames() returns (r: seq<Listing>)
      requires Valid()
      ensures |r| == |games|
      ensures forall i :: 0 <= i < |r| ==>
                r[i] == Listing(i, [games[i].playerX, games[i].playerO], WinnerEntryOf(games[i].field.GetState()))
    {
      r := [];
      for i := 0 to |games|
        invariant |r| == i
        invariant forall k :: 0 <= k < i ==>
                    r[k] == Listing(k, [games[k].playerX, games[k].playerO], WinnerEntryOf(games[k].field.GetState()))
      {
        var users := [games[i].playerX, games[i].playerO];
        var winner := NoWinnerKey;
        match games[i].field.GetState() {
          case PlayerXVictory => winner := WinnerMark("x");
          case PlayerOVictory => winner := WinnerMark("o");
          case Draw => winner := NilWinner;
          case Unknown =>
        }
        r := r + [Listing(i, users, winner)];
      }
    }

    /**
     The width x height window of board `id` whose corner is (x, y):
     entry [i][j] renders the cell (x + i, y + j).
     */
    method GetGameFieldPart(id: int, x: int, y: int, width: int, height: int)
      returns (r: seq<seq<Option<string>>>, err: Option<ApiError>)
      requires Valid()
      requires 0 <= id < |games| ==> width >= 0 && (width > 0 ==> height >= 0)
      ensures err.Some? <==> !(0 <= id < |games|)
      ensures err.Some? ==> err == Some(BadId) && r == []
      ensures err.None? ==> && |r| == width
                            && (forall i :: 0 <= i < width ==> |r[i]| == height)
                            && (forall i, j :: 0 <= i < width && 0 <= j < height ==>
                                  r[i][j] == Render(games[id].field.Get(x + i, y + j)))
    {
      if id < 0 || id >= |games| {
        return [], Some(BadId);
      }
      var game := games[id].field;
      r := [];
      for i := 0 to width
        invariant |r| == i
        invariant forall k :: 0 <= k < i ==> |r[k]| == height
        invariant forall k, j :: 0 <= k < i && 0 <= j < height ==> r[k][j] == Render(game.Get(x + k, y + j))
      {
        var row := [];
        for j := 0 to height
          invariant |row| == j
          invariant forall l :: 0 <= l < j ==> row[l] == Render(game.Get(x + i, y + l))
        {
          var cell: Option<string> := None;
          match game.Get(x + i, y + j) {
            case PlayerX => cell := Some("x");
            case PlayerO => cell := Some("o");
            case NoPlayer =>
          }
          row := row + [cell];
        }
        r := r + [row];
      }
      err := None;
    }

    /**
     Play a move in game `id` for the player called `player`: the name
     selects the mark, the board decides, and the answer reports the state
     the board returned, also when the board refused the move.
     */
    method UpdateGame(id: int, x: int, y: int, player: string) returns (r: Option<Report>, err: Option<ApiError>)
      requires Valid()
      modifies if 0 <= id < |games| then {games[id].field} else {}
      ensures Valid()
      ensures !(0 <= id < |games|) ==> r == None && err == Some(BadId)
      ensures 0 <= id < |games| && MarkOf(games[id], player) == NoPlayer ==>
                r == None && err == Some(BadPlayer) && games[id].field.View() == old(games[id].field.View())
      ensures 0 <= id < |games| && MarkOf(games[id], player) != NoPlayer ==>
                var game := games[id];
                var (after, e) := Play(Infinite, old(game.field.View()), Turn(x, y, MarkOf(game, player)));
                && game.field.View() == after && err == Lift(e)
                && r == Some(ParseState(game.field.GetState(), game))
      ensures forall i :: 0 <= i < |games| && i != id ==> games[i].field.View() == old(games[i].field.View())
    {
      if id < 0 || id >= |games| {
        return None, Some(BadId);
      }
      var game := games[id];
      var mark := MarkOf(game, player);
      if mark == NoPlayer {
        return None, Some(BadPlayer);
      }
      var state, e := game.field.Set(x, y, mark);
      r := Some(ParseState(state, game));
      err := Lift(e);
    }
  }

  /**
   A move the board accepts that wins names its own player as the winner,
   and no move the registry passes on is refused for being empty.
   */
  lemma AcceptedVictoryNamesMover(game: GameInfo, g: Game, x: int, y: int, player: string)
    requires GameInvariant(Infinite, g)
    requires MarkOf(game, player) != NoPlayer
    ensures var (after, e) := Play(Infinite, g, Turn(x, y, MarkOf(game, player)));
      && e != Some(EmptyMove)
      && (e.None? && ParseState(after.state, game).state == "victory" ==> ParseState(after.state, game).winner == Some(player))
  {
  }
}
