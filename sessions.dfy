// The session registry and match queue of src/lib/gameManager.ts: a
// GameManager owns the sessions by id and, per game type, a first-in
// first-out list of players waiting for an opponent.

module Sessions {
  import opened Types
  import GoBoard
  import GoGame
  import Game2048

  /** What a session's `state` holds: the start states initGameState builds,
      the engine states a server stores with updateGameState, or nothing
      (initGameState of a game type outside the three). */
  datatype GameState =
    | ChessState(fen: string, pgn: string, chessTurn: Color, chessHistory: seq<string>,
                 checkmate: bool, check: bool, stalemate: bool, draw: bool,
                 chessWinner: Option<string>)
    | GoSetup(board: GoBoard.Board, currentTurn: Color, captures: GoGame.Captures,
              moveHistory: seq<GoMove>, ended: bool, winner: Option<GoGame.Outcome>)
    | GoPlaying(go: GoGame.GoState)
    | Setup2048(grid: Game2048.Grid, score: nat, gameOver: bool)
    | Playing2048(game: Game2048.State)
    | NoState

  datatype Session = Session(
    id: string,
    gameType: GameType,
    mode: GameMode,
    players: seq<Player>,
    state: GameState,
    createdAt: int)

  /** What the environment supplies to a new session: the fresh id (uuidv4),
      the clock, the two random spawns of a 2048 start, and the start
      position and move record chess.js reports for a new chess game. */
  datatype Supply = Supply(id: string, createdAt: int, first: Game2048.Spawn,
                         second: Game2048.Spawn, fen: string, pgn: string)

  /** initChessState: White to move, nothing played, nothing decided. */
  function InitChessState(supply: Supply): (st: GameState)
    ensures st.ChessState? && st.fen == supply.fen && st.pgn == supply.pgn
    ensures st.chessTurn == White && st.chessHistory == [] && st.chessWinner == None
    ensures !st.checkmate && !st.check && !st.stalemate && !st.draw
  {
    ChessState(supply.fen, supply.pgn, White, [], false, false, false, false, None)
  }

  /** initGoState: an empty 19x19 board, Black to move, nothing captured. */
  function InitGoState(): (st: GameState)
    ensures st.GoSetup? && GoBoard.WellFormed(st.board)
    ensures forall q :: GoBoard.InBounds(q) ==> GoBoard.At(st.board, q) == GoBoard.Empty
    ensures st.currentTurn == Black && st.captures == GoGame.Captures(0, 0)
    ensures st.moveHistory == [] && !st.ended && st.winner == None
  {
    GoSetup(GoGame.EmptyBoard(), Black, GoGame.Captures(0, 0), [], false, None)
  }

  /** The state initGameState returns for a game type. */
  function InitialState(gameType: GameType, supply: Supply): GameState {
    match gameType
    case Chess => InitChessState(supply)
    case Go => InitGoState()
    case Twenty48 => Setup2048(Game2048.StartGrid(supply.first, supply.second), 0, false)
    case Unknown(_) => NoState
  }

  /** The players waiting for a game type; an absent entry is an empty list. */
  function Queue(waiting: map<GameType, seq<Player>>, gameType: GameType): seq<Player> {
    if gameType in waiting then waiting[gameType] else []
  }

  class GameManager {
    var sessions: map<string, Session>
    var waitingPlayers: map<GameType, seq<Player>>

    /** Every session is stored under its own id and has one or two
        players. */
    ghost predicate Valid()
      reads this
    {
      forall id :: id in sessions ==>
        sessions[id].id == id && 1 <= |sessions[id].players| <= 2
    }

    constructor()
      ensures Valid()
      ensures sessions == map[] && waitingPlayers == map[]
    {
      sessions := map[];
      waitingPlayers := map[];
    }

    /** init2048State: two tiles spawned on an empty board, score 0, not
        over. */
    method Init2048State(first: Game2048.Spawn, second: Game2048.Spawn) returns (st: GameState)
      ensures st == Setup2048(Game2048.StartGrid(first, second), 0, false)
    {
      var board := Game2048.EmptyGrid();
      board := Game2048.AddRandomTile(board, first);
      board := Game2048.AddRandomTile(board, second);
      st := Setup2048(board, 0, false);
    }

    /** initGameState: the start state of the game type; nothing for a type
        outside the three. */
    method InitGameState(gameType: GameType, supply: Supply) returns (st: GameState)
      ensures st == InitialState(gameType, supply)
    {
      match gameType
      case Chess => st := InitChessState(supply);
      case Go => st := InitGoState();
      case Twenty48 => st := Init2048State(supply.first, supply.second);
      case Unknown(_) => st := NoState;
    }

    /** createSession: a new session with the creator as its only player,
        stored under its fresh id (an existing entry under that id is
        replaced, as Map.set does). */
    method CreateSession(gameType: GameType, mode: GameMode, player: Player, supply: Supply)
      returns (session: Session)
      requires Valid()
      modifies this
      ensures Valid()
      ensures session == Session(supply.id, gameType, mode, [player],
                                 InitialState(gameType, supply), supply.createdAt)
      ensures sessions == old(sessions)[supply.id := session]
      ensures waitingPlayers == old(waitingPlayers)
    {
      var state := InitGameState(gameType, supply);
      session := Session(supply.id, gameType, mode, [player], state, supply.createdAt);
      sessions := sessions[session.id := session];
    }

    /** joinSession: an unknown session or a full one (two players) is
        refused and nothing changes; otherwise the player is appended. */
    method JoinSession(sessionId: string, player: Player) returns (joined: Option<Session>)
      requires Valid()
      modifies this
      ensures Valid()
      ensures waitingPlayers == old(waitingPlayers)
      ensures sessionId !in old(sessions) || |old(sessions)[sessionId].players| >= 2 ==>
        joined == None && sessions == old(sessions)
      ensures sessionId in old(sessions) && |old(sessions)[sessionId].players| < 2 ==>
        var s := old(sessions)[sessionId];
        var s' := s.(players := s.players + [player]);
        joined == Some(s') && sessions == old(sessions)[sessionId := s']
    {
      if sessionId !in sessions || |sessions[sessionId].players| >= 2 {
        return None;
      }
      var session := sessions[sessionId];
      session := session.(players := session.players + [player]);
      sessions := sessions[sessionId := session];
      joined := Some(session);
    }

    /** addToWaitingList: the player joins the tail of the game type's
        queue, which is created empty first when absent. */
    method AddToWaitingList(gameType: GameType, player: Player)
      requires Valid()
      modifies this
      ensures Valid()
      ensures waitingPlayers == old(waitingPlayers)[gameType := Queue(old(waitingPlayers), gameType) + [player]]
      ensures sessions == old(sessions)
    {
      if gameType !in waitingPlayers {
        waitingPlayers := waitingPlayers[gameType := []];
      }
      waitingPlayers := waitingPlayers[gameType := waitingPlayers[gameType] + [player]];
    }

    /** findMatch: with nobody waiting the player is queued and no session is
        made; otherwise the longest-waiting player is taken off the queue and
        a new player-versus-player session pairs them, the waiting player
        first. */
    method FindMatch(gameType: GameType, player: Player, supply: Supply) returns (matched: Option<Session>)
      requires Valid()
      modifies this
      ensures Valid()
      ensures Queue(old(waitingPlayers), gameType) == [] ==>
        matched == None && sessions == old(sessions)
        && waitingPlayers == old(waitingPlayers)[gameType := [player]]
      ensures Queue(old(waitingPlayers), gameType) != [] ==>
        var waiting := Queue(old(waitingPlayers), gameType);
        var s := Session(supply.id, gameType, Pvp, [waiting[0], player],
                         InitialState(gameType, supply), supply.createdAt);
        matched == Some(s) && sessions == old(sessions)[supply.id := s]
        && waitingPlayers == old(waitingPlayers)[gameType := waiting[1..]]
    {
      var waiting := Queue(waitingPlayers, gameType);
      if gameType !in waitingPlayers || |waiting| == 0 {
        assert waiting + [player] == [player];
        AddToWaitingList(gameType, player);
        return None;
      }
      var opponent := waiting[0];
      waitingPlayers := waitingPlayers[gameType := waiting[1..]];
      var session := CreateSession(gameType, Pvp, opponent, supply);
      session := session.(players := session.players + [player]);
      assert session.players == [waiting[0], player];
      sessions := sessions[session.id := session];
      matched := Some(session);
    }

    /** getSession: the session stored under the id, if any. */
    function GetSession(sessionId: string): (found: Option<Session>)
      reads this
      ensures found.Some? <==> sessionId in sessions
      ensures found.Some? ==> found.value == sessions[sessionId]
    {
      if sessionId in sessions then Some(sessions[sessionId]) else None
    }

    /** updateGameState: replace the state of the named session, and only
        its state; an unknown id changes nothing. */
    method UpdateGameState(sessionId: string, state: GameState)
      requires Valid()
      modifies this
      ensures Valid()
      ensures waitingPlayers == old(waitingPlayers)
      ensures sessionId !in old(sessions) ==> sessions == old(sessions)
      ensures sessionId in old(sessions) ==>
        sessions == old(sessions)[sessionId := old(sessions)[sessionId].(state := state)]
    {
      if sessionId in sessions {
        var session := sessions[sessionId];
        sessions := sessions[sessionId := session.(state := state)];
      }
    }

    /** endSession: forget the session; the others stay as they are. */
    method EndSession(sessionId: string)
      requires Valid()
      modifies this
      ensures Valid()
      ensures sessions == old(sessions) - {sessionId}
      ensures waitingPlayers == old(waitingPlayers)
      ensures GetSession(sessionId) == None
    {
      sessions := sessions - {sessionId};
    }
  }
}
