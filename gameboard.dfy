/** The board view (frontend/src/components/GameBoard.jsx): defaults for the
    state it is given, the key filter, the cell enumeration and shading, and
    the status texts. */
module Board {
  import opened Values
  import opened State

  /** The fields the board destructures from `gameState`. */
  datatype BoardFields = BoardFields(
    snake: seq<Point>,
    food: Option<Point>,
    score: int,
    gameOver: bool,
    gridWidth: int,
    gridHeight: int,
    gameStarted: bool)

  /** Destructuring with defaults: each absent property takes the value the
      application's initial state gives it. */
  function WithDefaults(gameState: Patch): (f: BoardFields)
    ensures f.snake == gameState.snake.GetOr(InitialGame.snake)
    ensures f.food == gameState.food.GetOr(InitialGame.food)
    ensures f.score == gameState.score.GetOr(InitialGame.score)
    ensures f.gameOver == gameState.gameOver.GetOr(InitialGame.gameOver)
    ensures f.gridWidth == gameState.gridWidth.GetOr(InitialGame.gridWidth)
    ensures f.gridHeight == gameState.gridHeight.GetOr(InitialGame.gridHeight)
    ensures f.gameStarted == gameState.gameStarted.GetOr(InitialGame.gameStarted)
  {
    BoardFields(
      gameState.snake.GetOr([]),
      gameState.food.GetOr(None),
      gameState.score.GetOr(0),
      gameState.gameOver.GetOr(false),
      gameState.gridWidth.GetOr(20),
      gameState.gridHeight.GetOr(20),
      gameState.gameStarted.GetOr(false))
  }

  /** The keys whose `keydown` is passed on to `onKeyPress`. */
  const ForwardedKeys: seq<string> := ["ArrowUp", "ArrowDown", "ArrowLeft", "ArrowRight", " "]

  /** What `handleKeyDown` does with one key: whether it calls
      `preventDefault`, and the key it passes to `onKeyPress`, if any. */
  datatype KeyHandling = KeyHandling(preventDefault: bool, forwarded: Option<string>)

  function HandleKeyDown(key: string): (h: KeyHandling)
    ensures h.forwarded.Some? ==> h.forwarded.value == key
    ensures h.preventDefault <==> h.forwarded.Some?
    ensures h.forwarded.Some? <==>
      key == "ArrowUp" || key == "ArrowDown" || key == "ArrowLeft" || key == "ArrowRight" || key == " "
  {
    if key in ForwardedKeys then KeyHandling(true, Some(key)) else KeyHandling(false, None)
  }

  /** The colour class a cell gets. */
  datatype Shade = Head | Body | Food | Empty

  /** One element pushed by `renderBoard`, keyed by its coordinates. */
  datatype CellView = CellView(x: int, y: int, shade: Shade)

  /** The shade of cell (x, y): the head wins over the body, the body over
      the food, the food over an empty cell. */
  function CellShade(snake: seq<Point>, food: Option<Point>, x: int, y: int): (c: Shade)
    ensures c == Head <==> |snake| > 0 && snake[0] == Point(x, y)
    ensures c == Body <==> Point(x, y) in snake && snake[0] != Point(x, y)
    ensures c == Food <==> Point(x, y) !in snake && food == Some(Point(x, y))
    ensures c == Empty <==> Point(x, y) !in snake && food != Some(Point(x, y))
  {
    var isSnake := exists i :: 0 <= i < |snake| && snake[i].x == x && snake[i].y == y;
    var isFood := food.Some? && food.value.x == x && food.value.y == y;
    var isHead := |snake| > 0 && snake[0].x == x && snake[0].y == y;
    if isHead then Head else if isSnake then Body else if isFood then Food else Empty
  }

  /** The cells of row `y`, left to right. */
  function Row(snake: seq<Point>, food: Option<Point>, width: nat, y: int): seq<CellView> {
    seq(width, x requires 0 <= x < width => CellView(x, y, CellShade(snake, food, x, y)))
  }

  /** The first `rows` rows, top to bottom. */
  function Grid(snake: seq<Point>, food: Option<Point>, width: nat, rows: nat): seq<CellView> {
    if rows == 0 then [] else Grid(snake, food, width, rows - 1) + Row(snake, food, width, rows - 1)
  }

  /** A loop bound `i < n` runs `n` times when `n` is positive and not at all otherwise. */
  function Iterations(n: int): nat {
    if n < 0 then 0 else n
  }

  /** `renderBoard()`: rows y = 0 .. gridHeight - 1, and in each row the
      cells x = 0 .. gridWidth - 1. */
  method RenderBoard(f: BoardFields) returns (board: seq<CellView>)
    ensures board == Grid(f.snake, f.food, Iterations(f.gridWidth), Iterations(f.gridHeight))
  {
    var width := Iterations(f.gridWidth);
    board := [];
    var y := 0;
    while y < f.gridHeight
      invariant 0 <= y <= Iterations(f.gridHeight)
      invariant board == Grid(f.snake, f.food, width, y)
    {
      var x := 0;
      while x < f.gridWidth
        invariant 0 <= x <= width
        invariant board == Grid(f.snake, f.food, width, y) + Row(f.snake, f.food, width, y)[..x]
      {
        assert Row(f.snake, f.food, width, y)[..x + 1]
            == Row(f.snake, f.food, width, y)[..x] + [CellView(x, y, CellShade(f.snake, f.food, x, y))];
        board := board + [CellView(x, y, CellShade(f.snake, f.food, x, y))];
        x := x + 1;
      }
      assert Row(f.snake, f.food, width, y)[..x] == Row(f.snake, f.food, width, y);
      y := y + 1;
    }
  }

  lemma MulStep(a: nat, w: nat)
    ensures a * w + w == (a + 1) * w
  {}

  /** The first `rows` rows hold `width * rows` cells. */
  lemma {:induction false} GridSize(snake: seq<Point>, food: Option<Point>, width: nat, rows: nat)
    ensures |Grid(snake, food, width, rows)| == width * rows
  {
    if rows > 0 {
      GridSize(snake, food, width, rows - 1);
      MulStep(rows - 1, width);
    }
  }

  /** Row-major order: cell (x, y) sits at index `y * width + x` with the
      shade `CellShade` gives it. */
  lemma {:induction false} GridAt(snake: seq<Point>, food: Option<Point>, width: nat, rows: nat, x: int, y: int)
    requires 0 <= x < width && 0 <= y < rows
    ensures y * width + x < |Grid(snake, food, width, rows)|
    ensures Grid(snake, food, width, rows)[y * width + x] == CellView(x, y, CellShade(snake, food, x, y))
  {
    var h := rows - 1;
    GridSize(snake, food, width, h);
    if y < h {
      GridAt(snake, food, width, h, x, y);
    } else {
      assert y * width == |Grid(snake, food, width, h)|;
    }
  }

  /** The cell at index i lies inside the grid, has the shade of its
      coordinates, and its index is `y * width + x`. */
  lemma {:induction false} GridIndex(snake: seq<Point>, food: Option<Point>, width: nat, rows: nat, i: int)
    requires 0 <= i < |Grid(snake, food, width, rows)|
    ensures var c := Grid(snake, food, width, rows)[i];
      0 <= c.x < width && 0 <= c.y < rows && i == c.y * width + c.x
      && c.shade == CellShade(snake, food, c.x, c.y)
  {
    var h := rows - 1;
    GridSize(snake, food, width, h);
    if i < |Grid(snake, food, width, h)| {
      GridIndex(snake, food, width, h, i);
    }
  }

  /** Every cell of the board lies inside the grid and has the shade of its
      coordinates, and no (x, y) is drawn twice. */
  lemma {:induction false} GridCellsDistinct(snake: seq<Point>, food: Option<Point>, width: nat, height: nat)
    ensures forall i :: 0 <= i < |Grid(snake, food, width, height)| ==>
      0 <= Grid(snake, food, width, height)[i].x < width
      && 0 <= Grid(snake, food, width, height)[i].y < height
      && Grid(snake, food, width, height)[i].shade
         == CellShade(snake, food, Grid(snake, food, width, height)[i].x, Grid(snake, food, width, height)[i].y)
    ensures forall i, j :: 0 <= i < j < |Grid(snake, food, width, height)| ==>
      Grid(snake, food, width, height)[i].x != Grid(snake, food, width, height)[j].x
      || Grid(snake, food, width, height)[i].y != Grid(snake, food, width, height)[j].y
  {
    var board := Grid(snake, food, width, height);
    forall i | 0 <= i < |board|
      ensures 0 <= board[i].x < width && 0 <= board[i].y < height
      ensures board[i].shade == CellShade(snake, food, board[i].x, board[i].y)
    {
      GridIndex(snake, food, width, height, i);
    }
    forall i, j | 0 <= i < j < |board|
      ensures board[i].x != board[j].x || board[i].y != board[j].y
    {
      GridIndex(snake, food, width, height, i);
      GridIndex(snake, food, width, height, j);
    }
  }

  /** The head is drawn exactly once when it lies on the board, and never
      otherwise; an empty snake has no head cell. */
  lemma {:induction false} HeadDrawnOnce(snake: seq<Point>, food: Option<Point>, width: nat, height: nat)
    ensures forall i :: 0 <= i < |Grid(snake, food, width, height)| && Grid(snake, food, width, height)[i].shade == Head ==>
      |snake| > 0 && Point(Grid(snake, food, width, height)[i].x, Grid(snake, food, width, height)[i].y) == snake[0]
    ensures forall i, j :: 0 <= i < j < |Grid(snake, food, width, height)| ==>
      Grid(snake, food, width, height)[i].shade != Head || Grid(snake, food, width, height)[j].shade != Head
    ensures |snake| > 0 && 0 <= snake[0].x < width && 0 <= snake[0].y < height ==>
      snake[0].y * width + snake[0].x < |Grid(snake, food, width, height)|
      && Grid(snake, food, width, height)[snake[0].y * width + snake[0].x].shade == Head
  {
    var board := Grid(snake, food, width, height);
    forall i | 0 <= i < |board| && board[i].shade == Head
      ensures |snake| > 0 && Point(board[i].x, board[i].y) == snake[0]
    {
      GridIndex(snake, food, width, height, i);
    }
    forall i, j | 0 <= i < j < |board|
      ensures board[i].shade != Head || board[j].shade != Head
    {
      GridIndex(snake, food, width, height, i);
      GridIndex(snake, food, width, height, j);
    }
    if |snake| > 0 && 0 <= snake[0].x < width && 0 <= snake[0].y < height {
      GridAt(snake, food, width, height, snake[0].x, snake[0].y);
    }
  }

  /** The three status blocks under the board. */
  datatype Panel = WaitingPanel | GameOverPanel | ControlsHint

  /** The blocks shown for the two flags: exactly one, chosen by
      (gameStarted, gameOver). */
  function Panels(gameStarted: bool, gameOver: bool): (shown: set<Panel>)
    ensures |shown| == 1
    ensures WaitingPanel in shown <==> !gameStarted && !gameOver
    ensures GameOverPanel in shown <==> gameOver
    ensures ControlsHint in shown <==> gameStarted && !gameOver
  {
    (if !gameStarted && !gameOver then {WaitingPanel} else {})
    + (if gameOver then {GameOverPanel} else {})
    + (if gameStarted && !gameOver then {ControlsHint} else {})
  }

  /** The "Game State:" text. */
  function StatusLabel(gameStarted: bool, gameOver: bool): (text: string)
    ensures text == "Waiting" || text == "Game Over" || text == "Active"
    ensures text == "Waiting" <==> !gameStarted
    ensures text == "Game Over" <==> gameStarted && gameOver
    ensures text == "Active" <==> gameStarted && !gameOver
  {
    if gameStarted then (if gameOver then "Game Over" else "Active") else "Waiting"
  }

  /** The status text each block corresponds to. */
  function PanelLabel(p: Panel): string {
    match p
    case WaitingPanel => "Waiting"
    case GameOverPanel => "Game Over"
    case ControlsHint => "Active"
  }

  /** The status text names the block that is shown, except when the game is
      over without having started: then the block says the game is over and
      the text says "Waiting". */
  lemma LabelMatchesPanel(gameStarted: bool, gameOver: bool)
    ensures (forall p :: p in Panels(gameStarted, gameOver) ==> PanelLabel(p) == StatusLabel(gameStarted, gameOver))
      <==> gameStarted || !gameOver
  {
    if !gameStarted && gameOver {
      assert GameOverPanel in Panels(gameStarted, gameOver);
    }
  }
}
