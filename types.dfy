// Shared vocabulary of the game platform: game kinds, modes, players, the Go
// colours and move records, and a small Option type.

module Types {

  datatype Option<+T> = None | Some(value: T)

  /** The kind of game a session plays. The servers take this value unchecked
      from a client payload, so a name outside the three known games can reach
      the registry; `Unknown` carries it. */
  datatype GameType = Chess | Go | Twenty48 | Unknown(name: string)

  datatype GameMode = Pvp | Pvai | Local

  datatype PlayerType = Human | Ai

  datatype Player = Player(id: string, name: string, kind: PlayerType)

  /** A Go colour; the `currentTurn` of a Go state is one of these. */
  datatype Color = Black | White

  function Opponent(c: Color): (r: Color)
    ensures r != c
  {
    if c == Black then White else Black
  }

  /** One entry of a Go move history: a placement at (row, col) or, with
      `pass` set, a pass recorded at (-1, -1). */
  datatype GoMove = GoMove(row: int, col: int, color: Color, pass: bool)

  /** A Go move as a client sends it: row and column may be missing. */
  datatype GoInput = GoInput(row: Option<int>, col: Option<int>, pass: bool)
}
