/** The game state object the application keeps (frontend/src/App.jsx) and the
    board reads (frontend/src/components/GameBoard.jsx), and the objects whose
    properties are spread over it. */
module State {
  import opened Values

  datatype Point = Point(x: int, y: int)

  /** The `gameState` record: snake head first, `food` possibly `null`. */
  datatype GameState = GameState(
    snake: seq<Point>,
    food: Option<Point>,
    score: int,
    gameOver: bool,
    gameStarted: bool,
    gridWidth: int,
    gridHeight: int,
    connected: bool)

  /** An object with any of the `gameState` properties: `None` is an absent
      property; a present `food` is `Some(None)` when it is `null`. */
  datatype Patch = Patch(
    snake: Option<seq<Point>>,
    food: Option<Option<Point>>,
    score: Option<int>,
    gameOver: Option<bool>,
    gameStarted: Option<bool>,
    gridWidth: Option<int>,
    gridHeight: Option<int>,
    connected: Option<bool>)

  /** The object `{}`. */
  const NoFields: Patch := Patch(None, None, None, None, None, None, None, None)

  /** The state itself, seen as an object with every property present. */
  function Fields(s: GameState): Patch {
    Patch(Some(s.snake), Some(s.food), Some(s.score), Some(s.gameOver), Some(s.gameStarted),
          Some(s.gridWidth), Some(s.gridHeight), Some(s.connected))
  }

  /** The state the application starts with. */
  const InitialGame: GameState := GameState([], None, 0, false, false, 20, 20, false)
}
