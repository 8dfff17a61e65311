# Chezombor game service: the rule engines and the session registry in Dafny

This project models the game logic of the Chezombor game service. It has four parts:

- **The Go engine** (`GoGame` in `go.ts`). It covers move legality: bounds, occupancy, the ko point and suicide. Stones join groups through a stack-based flood fill, and a placement captures adjacent opponent groups that have no liberty, whole. The engine keeps the turn, the pass count, the move history and a single-point ko. It checks for an automatic end after ten moves. Scoring is area scoring with a komi of 6.5 for White.
- **The 2048 engine** (`Game2048` in `2048.ts`). It covers the single-pass slide-and-merge, the four move directions, the random tile, the `won` flag, the game-over scan and the end report.
- **The session registry and match queue** (the `GameManager` class in `gameManager.ts`). It covers sessions keyed by id and a first-in first-out queue of waiting players per game type.
- **The older rule helpers in `server.js`**: the dispatching `processMove` and a simplified Go capture rule. It also covers a 2048 move that slides rows in place and never scores, the end-of-game check, and the mapping from a result to win, loss or draw.

Modules and files:

| file | module | models |
|---|---|---|
| `types.dfy` | `Types` | the shared types of `types/index.ts`: game type, mode, player, colour, Go move |
| `go_board.dfy` | `GoBoard` | the 19x19 board, connectivity, `getGroup`, `hasLiberties`, `getEmptyRegion`, `determineRegionOwner`, stone counting |
| `go_capture.dfy` | `GoCapture` | the capture loop of `processMove`: dead adjacent groups and their removal |
| `go_game.dfy` | `GoGame` | `isValidMove`, `processMove`, `processPass`, `calculateTerritory`, `calculateWinner`, `checkAutoWin`, `checkGameEnd`, `hasLegalMoves` |
| `game_2048.dfy` | `Game2048` | `slideAndMerge`, the move loops of `processMove`, `addRandomTile`, `hasWon`, `isGameOver`, `checkGameEnd`, `createInitialState` |
| `sessions.dfy` | `Sessions` | the `GameManager` class and the states `initGameState` builds |
| `legacy_server.dfy` | `LegacyServer` | the `server.js` helpers at lines 222-472 |

How the model is built:

- **Boards.** A Go board is a `seq<seq<Cell>>`, where a `Cell` is `Empty` or `Stone(colour)`. A connected group is the ghost set `Component(b, x, p)`, defined through paths of orthogonal neighbours. The flood fills are `while` loops over a stack and a visited set, proved to return exactly that component.
- **Komi.** Komi is kept in doubled integers: Black wins when `2*black > 2*white + 13`, and White wins otherwise. So a scored game is never a draw.
- **2048 lines.** A 2048 line is specified by `Slide`, which drops the zeros, merges neighbours once from the front and pads with zeros. A whole move is `Shift`. The loops of both `processMove` versions are methods proved equal to it.
- **Randomness.** The random choices of `addRandomTile` are a `Spawn` argument. It carries the index into the list of empty cells and whether the tile is a 4.
- **Sessions.** The fresh session id, the clock, the two spawns of a 2048 start and the start position chess.js reports are a `Supply` argument of the session methods.
- **Shared spawn.** `GameManager.addRandomTile` (`gameManager.ts:117-127`), `Game2048.addRandomTile` (`2048.ts:139-154`) and `addRandomTile` in `server.js` (lines 387-398) are the same loop: each collects the empty cells in row-major order and fills one of them. All three are modelled by the one method `Game2048.AddRandomTile`, which `Game2048.ProcessMove`, `GameManager.Init2048State` and `LegacyServer.Process2048Move` call.
- **chess.js.** The chess engine is a function parameter of the legacy `processMove`.
- **Errors.** Where the legacy JavaScript would throw (a Go row off the board, a state of the wrong game), the model returns `None`.

Where the rules the service means to enforce and its code differ, the model follows the code:

- Area scoring means to call an exact score tie a draw. The code has such a branch (`go.ts:351-357`), but with a komi of 6.5 and whole-number counts it cannot be reached (`GoGame.WinnerNeverDraw`).
- The winning colour is meant to name a player: White is player 0 at chess, Black is player 0 at Go, as the client boards assign colours (`src/components/ChessBoard.tsx:117`, `src/components/GoBoard.tsx:27`). `handleGameEnd` instead compares the winner with the player ids (see Findings). The model keeps the code's comparison in `RecordAsWritten` and uses the colour mapping in `EndRecord`.
- A simple-ko point is meant to forbid the recapture on the immediately following move only. `processPass` (`go.ts:137-174`) copies the whole state, `koPoint` included, so a ko point survives a pass and still forbids that point on the next placement. `GoGame.PassEffects` states this as the code does it.
- The Go start state `initGameState` builds has no `passCount`, `lastMove` or `koPoint`, and the 2048 start state has no `won` or `moved`. The session states `GoSetup` and `Setup2048` keep exactly the fields built there.

## Model

| member | source | states |
|---|---|---|
| Types.Opponent | game-platform/src/lib/games/go.ts:68-69 | the opponent of a colour is the other colour |
| GoBoard.GetGroup | game-platform/src/lib/games/go.ts:300-321 | the group lists exactly the 4-connected points holding the start's colour, reachable from the start, each once; an off-board or differently coloured start gives an empty group |
| GoBoard.HasLiberties | game-platform/src/lib/games/go.ts:323-338 | true exactly when some member of the group has an in-bounds empty orthogonal neighbour |
| GoBoard.GetEmptyRegion | game-platform/src/lib/games/go.ts:397-421 | the region lists exactly the start's empty region, each point once, and the shared visited set grows by that region and nothing else |
| GoBoard.ClosedMissesRegion | game-platform/src/lib/games/go.ts:377-381 | a visited set made of whole empty regions shares no point with the region of an unvisited empty point, so the fill restarts cleanly |
| GoBoard.DetermineRegionOwner | game-platform/src/lib/games/go.ts:423-451 | the owner is the single colour the region borders, and nobody when it borders both colours or neither |
| GoBoard.AdjacentBorders | game-platform/src/lib/games/go.ts:430-442 | the colours collected next to the region's points are exactly the colours it borders |
| GoBoard.OneColour | game-platform/src/lib/games/go.ts:445-450 | the collected set has one element exactly when it holds one of the two colours and not the other |
| GoBoard.CountCells | game-platform/src/lib/games/go.ts:240-246 | the row-by-row count of empty points equals the number of empty points |
| GoCapture.RemoveDeadNeighbours | game-platform/src/lib/games/go.ts:78-94 | the capture loop removes exactly the dead opponent groups next to the placed stone, in full, lists each removed stone once, and counts them |
| GoCapture.CapturedMembers | game-platform/src/lib/games/go.ts:80-94 | a point is captured exactly when it lies in a dead opponent group at one of the four neighbours |
| GoCapture.CapturedAreOpponentStones | game-platform/src/lib/games/go.ts:84-90 | only opponent stones are removed, so the placed stone stays |
| GoCapture.ClearKeepsLiberties | game-platform/src/lib/games/go.ts:80-94 | removing some dead groups does not change whether another opponent group has a liberty, so checking each group on the partly cleared board agrees with checking it on the board before captures |
| GoGame.CreateInitialState | game-platform/src/lib/games/go.ts:19-31 | an empty board, Black to move, no captures, no history, no passes, not ended, no winner, last move or ko point |
| GoGame.IsValidMove | game-platform/src/lib/games/go.ts:258-294 | true exactly when the point is on the board, empty, not the ko point, and the placement either leaves an adjacent opponent group without liberties or leaves its own group a liberty |
| GoGame.InitialAllLegal | game-platform/src/lib/games/go.ts:258-294 | on the start board every point of the board is a legal move |
| GoGame.ProcessMove | game-platform/src/lib/games/go.ts:47-134 | a pass is processPass; a missing row or column and an invalid point return the state unchanged; a legal point gives the placement state |
| GoGame.PlaceStone | game-platform/src/lib/games/go.ts:65-133 | on a copy of the board: place the stone, remove dead opponent groups, reject a suicide without capture, set the ko point and apply the automatic end |
| GoGame.LegalIsNotSuicide | game-platform/src/lib/games/go.ts:96-101 | a move isValidMove accepts is never rejected by the suicide test |
| GoGame.SuicideTest | game-platform/src/lib/games/go.ts:96-101 | the test on the computed lists (no liberty for the placed group and nothing captured) is the suicide condition |
| GoGame.PlayBoard | game-platform/src/lib/games/go.ts:71-94 | after a legal placement the board is the old board with the stone added and exactly the dead adjacent opponent groups removed, all of which were opponent stones |
| GoGame.PlayBookkeeping | game-platform/src/lib/games/go.ts:104-121 | the turn flips, passCount is 0, lastMove is the point, one record is appended, the mover's captures grow by the number removed and the other colour's stay |
| GoGame.PlayKo | game-platform/src/lib/games/go.ts:103-108 | a ko point is set exactly when one stone was captured and the placed stone's group is that stone alone; it is then the captured point, and playing there next is illegal |
| GoGame.PlacementState | game-platform/src/lib/games/go.ts:103-121 | the state built from the computed board, capture list and group is the specified placement, with the ko point when one stone was captured by a lone stone |
| GoGame.PlayEnd | game-platform/src/lib/games/go.ts:123-131 | a placement ends the game exactly when the automatic check fires, and then with a win for one colour |
| GoGame.PlacedGroupLive | game-platform/src/lib/games/go.ts:96-101 | after a legal placement and its captures the placed stone's group has a liberty, its own or one a capture freed |
| GoGame.OpponentGroupLive | game-platform/src/lib/games/go.ts:80-94 | every opponent stone left after the captures is in a group with a liberty: a group that lost its last liberty to the stone was removed |
| GoGame.OwnGroupLive | game-platform/src/lib/games/go.ts:71-101 | every stone of the mover's colour is in a group with a liberty: it keeps an old liberty or joins the placed stone's group |
| GoGame.PlayKeepsGroupsLive | game-platform/src/lib/games/go.ts:71-121 | a legal placement on a board where every group has a liberty leaves a board where every group has a liberty |
| GoGame.InitialGroupsLive | game-platform/src/lib/games/go.ts:19-31 | the start board has every group alive, so with PlayKeepsGroupsLive and a pass keeping the board, no group is ever left without a liberty |
| GoGame.FirstMoveKeepsGroupsLive | game-platform/src/lib/games/go.ts:47-121 | the first stone of a game, at any point, leaves every group with a liberty (the invariant's premises are met at the start) |
| GoGame.ProcessPass | game-platform/src/lib/games/go.ts:137-174 | the result is the pass state, with the winner calculated on the board before the pass |
| GoGame.PassEffects | game-platform/src/lib/games/go.ts:137-174 | a pass flips the turn, counts the pass and appends a (-1, -1) record; board, captures, last move and ko point stay; the second pass ends the game with a win for one colour, and an earlier pass changes neither ended nor winner |
| GoGame.CountStones | game-platform/src/lib/games/go.ts:365-374 | the counts are the numbers of black and of white stones on the board |
| GoGame.TerritoryCount | game-platform/src/lib/games/go.ts:381-388 | adding a new region adds its size to its owner's count and nothing to the other colour's |
| GoGame.TerritoryFound | game-platform/src/lib/games/go.ts:379-390 | finding a region at an unvisited empty point keeps the scan invariant: whole regions visited, every empty point so far visited, counts equal to stones plus owned points visited |
| GoGame.TerritoryEnd | game-platform/src/lib/games/go.ts:394 | at the end of the scan the counts are each colour's stones plus every empty point it owns |
| GoGame.CalculateTerritory | game-platform/src/lib/games/go.ts:360-395 | each colour's count is its stones plus the empty regions that border only that colour |
| GoGame.ScoreWinner | game-platform/src/lib/games/go.ts:344-357 | with komi 6.5, Black wins exactly when black reaches white + 7, White exactly when black is at most white + 6 |
| GoGame.WinnerNeverDraw | game-platform/src/lib/games/go.ts:351-357 | a scored game is never a draw |
| GoGame.CalculateWinner | game-platform/src/lib/games/go.ts:340-358 | the winner compares area score plus captures, with komi for White |
| GoGame.CheckAutoWin | game-platform/src/lib/games/go.ts:214-256 | nothing before ten moves; then a colour without stones loses to one with stones, and a full board is scored |
| GoGame.AutoWinIsWin | game-platform/src/lib/games/go.ts:228-253 | an automatic end always names one colour, never a draw |
| GoGame.CheckGameEnd | game-platform/src/lib/games/go.ts:453-458 | a result exactly when the game ended with a winner, and then that winner |
| GoGame.RowHasLegal | game-platform/src/lib/games/go.ts:36-40 | true exactly when some point of the row is a legal move |
| GoGame.HasLegalMoves | game-platform/src/lib/games/go.ts:32-44 | true exactly when some point is a legal move for the player to move |
| Game2048.SlideAndMerge | game-platform/src/lib/games/2048.ts:103-137 | the result is the slid line and the score its merged tiles; moved holds exactly when some cell differs from the input |
| Game2048.SlideKeepsSum | game-platform/src/lib/games/2048.ts:114-131 | a slide keeps the line's total value, and gains at most that value |
| Game2048.SlidePacked | game-platform/src/lib/games/2048.ts:106-131 | the slid line has no tile after an empty cell |
| Game2048.FourTwos | game-platform/src/lib/games/2048.ts:114-126 | the example of a single-pass merge: [2,2,2,2] gives [4,4,0,0] and 8 points, not one 8 |
| Game2048.MergeAtMostOnce | game-platform/src/lib/games/2048.ts:114-126 | for every line, each output tile is made of at most two input tiles, so a tile merges at most once per scan (FourTwos is the [2,2,2,2] instance) |
| Game2048.FullSlideIsIdentity | game-platform/src/lib/games/2048.ts:106-131 | a full line with no equal neighbours does not change |
| Game2048.MovedLineHasZero | game-platform/src/lib/games/2048.ts:106-131 | a line that changes ends in an empty cell |
| Game2048.SlideTiles | game-platform/src/lib/games/2048.ts:114-126 | a line of powers of two slides to powers of two |
| Game2048.ShiftBoard | game-platform/src/lib/games/2048.ts:37-80 | the four direction loops give the shifted board, the points of all its lines, and moved exactly when the board changed; any other direction moves nothing |
| Game2048.ShiftRows | game-platform/src/lib/games/2048.ts:43-57 | left slides each row; right reverses, slides and reverses each row |
| Game2048.ShiftColumns | game-platform/src/lib/games/2048.ts:58-79 | up slides each column; down reverses, slides and reverses each column |
| Game2048.ChangedRows | game-platform/src/lib/games/2048.ts:48-57 | a horizontal move changes the board exactly when one of its rows reports moved |
| Game2048.ChangedColumns | game-platform/src/lib/games/2048.ts:66-78 | a vertical move changes the board exactly when one of its columns reports moved |
| Game2048.ShiftKeepsSum | game-platform/src/lib/games/2048.ts:43-80 | a move keeps the board's total value and gains at most that value |
| Game2048.ShiftKeepsTiles | game-platform/src/lib/games/2048.ts:43-80 | a move only ever makes powers of two |
| Game2048.ChangedLeavesRoom | game-platform/src/lib/games/2048.ts:83-88 | a move that changes the board leaves an empty cell for the new tile |
| Game2048.AddRandomTile | game-platform/src/lib/games/2048.ts:139-154 | the row-major list of empty cells is collected and the chosen one gets a 2 or a 4; a full board is left alone |
| Game2048.SpawnOne | game-platform/src/lib/games/2048.ts:150-153 | on a board with room exactly one empty cell becomes occupied, with a 2 or a 4, and no other cell changes |
| Game2048.SpawnSum | game-platform/src/lib/games/2048.ts:150-153 | a spawn adds the new tile's value to the board |
| Game2048.HasWon | game-platform/src/lib/games/2048.ts:156-165 | true exactly when some cell holds 2048 |
| Game2048.IsGameOver | game-platform/src/lib/games/2048.ts:167-196 | true exactly when no cell is empty and no two horizontal or vertical neighbours are equal |
| Game2048.StuckMeansNoMove | game-platform/src/lib/games/2048.ts:167-196 | on a board isGameOver reports, no move changes the board |
| Game2048.ProcessMove | game-platform/src/lib/games/2048.ts:30-101 | a finished game and a move that changes nothing return the state; otherwise the shifted board gets one tile, the score grows by the merged tiles, won is sticky and gameOver is recomputed |
| Game2048.PlaySpawnsOne | game-platform/src/lib/games/2048.ts:83-100 | an effective move adds exactly one 2 or 4 in a cell the move left empty, keeps the board's value plus that tile, and the score grows by at most the board's value |
| Game2048.PlayProgress | game-platform/src/lib/games/2048.ts:30-101 | the score never decreases, won is never cleared, a finished game does not change, and a game the move ends is one no move changes |
| Game2048.PlayKeepsTiles | game-platform/src/lib/games/2048.ts:30-101 | every tile stays a power of two |
| Game2048.CheckGameEnd | game-platform/src/lib/games/2048.ts:198-203 | a report exactly when the game is over, with its score and won |
| Game2048.CreateInitialState | game-platform/src/lib/games/2048.ts:12-24 | two tiles spawned on an empty board, score 0, not over, not won, not moved |
| Game2048.InitialTwoTiles | game-platform/src/lib/games/2048.ts:12-24 | a new game has exactly two tiles, each a 2 or a 4 |
| Sessions.InitChessState | game-platform/src/lib/gameManager.ts:79-93 | White to move, the engine's start position, no history, nothing decided |
| Sessions.InitGoState | game-platform/src/lib/gameManager.ts:95-104 | an all-empty 19x19 board, Black to move, no captures, no history, not ended |
| Sessions.GameManager.Init2048State | game-platform/src/lib/gameManager.ts:106-128 | two tiles spawned by addRandomTile on an empty board (the same spawn as the engine's start), score 0, not over |
| Sessions.GameManager.InitGameState | game-platform/src/lib/gameManager.ts:68-77 | the start state of the game type, and no state for any other type |
| Sessions.GameManager.constructor | game-platform/src/lib/gameManager.ts:6-7 | no sessions and no waiting players |
| Sessions.GameManager.CreateSession | game-platform/src/lib/gameManager.ts:9-21 | a new session with the creator as its only player, stored under its fresh id; the other sessions and the queues stay |
| Sessions.GameManager.JoinSession | game-platform/src/lib/gameManager.ts:23-31 | an unknown or full session is refused and nothing changes; otherwise the player is appended and only that session changes |
| Sessions.GameManager.AddToWaitingList | game-platform/src/lib/gameManager.ts:33-38 | the player joins the tail of the game type's queue; the sessions and other queues stay |
| Sessions.GameManager.FindMatch | game-platform/src/lib/gameManager.ts:40-51 | with nobody waiting the player is queued and no session is made; otherwise the head of the queue is taken off and paired with the player, head first, in a new pvp session |
| Sessions.GameManager.GetSession | game-platform/src/lib/gameManager.ts:53-55 | the session stored under the id, if there is one |
| Sessions.GameManager.UpdateGameState | game-platform/src/lib/gameManager.ts:57-62 | only the named session's state is replaced; an unknown id changes nothing |
| Sessions.GameManager.EndSession | game-platform/src/lib/gameManager.ts:64-66 | the session is removed, getSession then finds nothing, and the others stay |
| LegacyServer.ProcessMove | game-platform/server.js:222-234 | dispatches on the game type and returns the state itself for any other type |
| LegacyServer.Moved | game-platform/server.js:222-234 | an unknown game type returns the state; chess returns the engine's state; a 2048 move never changes the score |
| LegacyServer.ProcessGoMove | game-platform/server.js:271-282 | only an empty point changes the state: stone placed, turn flipped, move recorded, captures checked; an occupied point changes nothing |
| LegacyServer.GoPlayEffects | game-platform/server.js:271-301 | the stone stays; each adjacent opposing stone without an empty neighbour comes off, one stone and not its group; every other point keeps its stone; the mover gains one capture per stone; the game never ends |
| LegacyServer.LegacyGoNeverEnds | game-platform/server.js:271-282 | no legacy Go move sets ended, so checkGameEnd never reports a result for such a game |
| LegacyServer.CheckCaptures | game-platform/server.js:284-301 | the board loses exactly the taken stones and the mover's count grows by their number |
| LegacyServer.TakenAreLonelyNeighbours | game-platform/server.js:289-300 | the stones taken are exactly the adjacent opposing stones that have no empty neighbour |
| LegacyServer.DeadNeighbourTaken | game-platform/server.js:289-300 | an adjacent stone whose group the engine would capture is taken by the legacy rule too (the rest of its group is not) |
| LegacyServer.TakenAtMostFour | game-platform/server.js:289-300 | a move takes at most four stones |
| LegacyServer.LibertiesAgree | game-platform/server.js:303-311 | hasLiberties asks of one stone what the engine's liberty test asks of a group member |
| LegacyServer.RemoveGroupLeavesGroup | game-platform/server.js:313-316 | removeGroup clears only the named point and leaves the rest of its group on the board |
| LegacyServer.SlideRow | game-platform/server.js:363-385 | the row is overwritten in place with its slide, and moved holds exactly when the row changed |
| LegacyServer.MergeScan | game-platform/server.js:365-373 | the splice loop merges equal neighbours once each, front first, and reports a merge exactly when the list got shorter |
| LegacyServer.MergeMeansChange | game-platform/server.js:367-382 | a row that merged a pair always comes out changed, so the merge flag never disagrees with the cell comparison |
| LegacyServer.WriteBack | game-platform/server.js:379-382 | the row takes the new values and the flag says whether any cell changed |
| LegacyServer.ReverseRow | game-platform/server.js:331-333 | the row is turned around in place |
| LegacyServer.TiltRows | game-platform/server.js:325-334 | left and right give the engine's shifted board, moved exactly when it changed |
| LegacyServer.TiltColumns | game-platform/server.js:335-352 | up and down give the engine's shifted board, moved exactly when it changed |
| LegacyServer.TiltBoard | game-platform/server.js:318-353 | any direction gives the engine's shifted board; another direction moves nothing |
| LegacyServer.CanMove | game-platform/server.js:400-409 | true exactly when the board is not stuck: some cell is empty or equals its right or lower neighbour |
| LegacyServer.Process2048Move | game-platform/server.js:318-361 | no move returns the state; otherwise one tile is spawned and gameOver becomes whether no move is left |
| LegacyServer.TiltedEffects | game-platform/server.js:355-358 | the score never changes; an effective move adds one 2 or 4 in a cell it left empty; a game it ends has no move left |
| LegacyServer.TiltedMatchesEngine | game-platform/server.js:318-361 | on a running game the board and gameOver equal the engine's, and only the engine adds the merged tiles to the score |
| LegacyServer.CheckGameEnd | game-platform/server.js:411-428 | chess ends with the engine's winner on checkmate and with 'draw' on stalemate or a draw; Go reports its winner exactly when `ended` is set; 2048 reports its score exactly when `gameOver` is set; any other type never ends, and only 2048 reports a score |
| LegacyServer.StandingsMirror | game-platform/server.js:460-472 | player 1 wins exactly on a_wins and loses exactly on b_wins, and player 2's entry is the mirror image |
| LegacyServer.AsWrittenAlwaysDraws | game-platform/server.js:445-452 | as written, a winner name never equals a player id, so every finished chess game (and any ended Go state, which the legacy helpers never produce) is recorded as a draw for both |
| LegacyServer.CheckmateRecordedAsDraw | game-platform/server.js:445-452 | White's checkmate is a draw as written and a win for the first player as meant |
| LegacyServer.EndRecordNamesWinner | game-platform/server.js:439-472 | with the winner read as a colour, the player of that colour wins and the other loses; a draw or no winner is a draw for both |
| LegacyServer.CheckmateSettles | game-platform/server.js:411-472 | a chess checkmate settles as a win for the player of the winning colour and a loss for the other |

## Left out

- Sockets, HTTP, JSON framing and broadcasts are not modelled. They are I/O.
- Console logging is not modelled.
- Database calls are not modelled. A rating or high-score update is a `Record` value.
- ELO arithmetic is not modelled. It is floating point; only the result-to-standing mapping is kept.
- chess.js is not part of this model. Its rules are invisible, so the legacy `processMove` takes the chess engine as a function parameter, and FEN/PGN strings are opaque.
- Randomness is an argument. `Math.random` in `addRandomTile` is the `Spawn` argument (index into the empty cells, 2 or 4). The 0.9 probability of a 2 is not modelled.
- `uuidv4` and the clock are values of the `Supply` argument.
- Boards are values. The TypeScript engines copy boards and the model matches that. The legacy helpers update a shallow copy that shares its board, history and captures with the input state. The model returns the new state as a value, so the aliased update of the input is not captured.
- The sessions map holds session values. In the source, a session object returned by `createSession` or `joinSession` is shared with the map, so later changes to one show in the other. The model does not capture that sharing.
- `hasLivingStones` and `hasAnyLegalMoves` (`go.ts`) are not modelled. They are unused private helpers that nothing calls.
- Other states through the legacy `processMove` give `None`. A state of the wrong game for its game type, or a Go move with a row off the board, makes the JavaScript throw. That path is modelled as `None`, not as an exception.
- In legacy `handleGameEnd`, a 2048 result without a score and a two-player game with fewer than two players record nothing. The source would read a missing field or player.
- Game2048.StuckMeansNoMove: only one direction is proved, that a stuck board does not change under any move. The converse does not hold: an empty board does not change under any move, yet isGameOver does not report it.
- LegacyServer.Moved: its own contract states the dispatch for unknown types, chess and the 2048 score only. What a Go or 2048 move does is stated by `GoPlayEffects`, `TiltedEffects` and `TiltedMatchesEngine` about the functions it dispatches to.

## Findings

| source | as written | input that shows it | evidently intended | confidence | as-written member | corrected member |
|---|---|---|---|---|---|---|
| game-platform/server.js:446-452 | `handleGameEnd` compares `result.winner` ('white', 'black', 'draw' or null, as `checkGameEnd` reports it) with the player ids, which the server hands out as `player_<time>_<random>`; neither comparison can succeed, so every finished chess game is recorded as a draw for both players; the Go comparison would fail the same way, but it is only reached by a Go state with `ended` set, which these helpers never produce (`LegacyServer.LegacyGoNeverEnds`) | a chess checkmate with winner 'white' between players `player_1_a` and `player_2_b` | the winning colour names the player: White is the first player at chess, Black the first at Go, so White's checkmate is a win for the first player and a loss for the second | not executed | LegacyServer.AsWrittenAlwaysDraws | LegacyServer.EndRecordNamesWinner |
