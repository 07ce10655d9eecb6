/** The application component (frontend/src/App.jsx): the current view, the
    game state record and the functional updaters that merge server payloads
    into it, and the handlers that turn board and form actions into commands
    on the connection service. */
module App {
  import opened Values
  import opened State
  import Board
  import opened Connection

  datatype View = Welcome | Game

  /** `currentView` and `gameState`. */
  datatype AppState = AppState(view: View, game: GameState)

  const InitialApp: AppState := AppState(Welcome, InitialGame)

  /** The form's `{ gridWidth, gridHeight }`. */
  datatype Config = Config(gridWidth: int, gridHeight: int)

  /** The config object as it is handed to `startGame`. */
  function ConfigValue(config: Config): Value {
    Obj(map["gridWidth" := Num(config.gridWidth), "gridHeight" := Num(config.gridHeight)])
  }

  /** `{ ...under, ...over }` on two partial objects: a property of `over`
      wins, every other property of `under` stays. */
  function Overlay(under: Patch, over: Patch): Patch {
    Patch(
      if over.snake.Some? then over.snake else under.snake,
      if over.food.Some? then over.food else under.food,
      if over.score.Some? then over.score else under.score,
      if over.gameOver.Some? then over.gameOver else under.gameOver,
      if over.gameStarted.Some? then over.gameStarted else under.gameStarted,
      if over.gridWidth.Some? then over.gridWidth else under.gridWidth,
      if over.gridHeight.Some? then over.gridHeight else under.gridHeight,
      if over.connected.Some? then over.connected else under.connected)
  }

  /** The `connected` listener's updater `{ ...prev, connected }`: only the
      `connected` field changes. */
  function WithConnected(prev: GameState, connected: bool): (next: GameState)
    ensures next.connected == connected
    ensures next.(connected := prev.connected) == prev
  {
    prev.(connected := connected)
  }

  /** The `GAME_STATE` listener's updater `{ ...prev, ...newGameState }`:
      a shallow merge in which every property the payload carries
      overwrites the field, and every other field is kept. */
  function MergeState(prev: GameState, payload: Patch): (next: GameState)
    ensures Fields(next) == Overlay(Fields(prev), payload)
  {
    GameState(
      payload.snake.GetOr(prev.snake),
      payload.food.GetOr(prev.food),
      payload.score.GetOr(prev.score),
      payload.gameOver.GetOr(prev.gameOver),
      payload.gameStarted.GetOr(prev.gameStarted),
      payload.gridWidth.GetOr(prev.gridWidth),
      payload.gridHeight.GetOr(prev.gridHeight),
      payload.connected.GetOr(prev.connected))
  }

  /** The `GAME_STARTED` listener's updater `{ ...prev, gameStarted: true, ...data }`:
      the payload is spread last, so its own `gameStarted` wins over the
      forced `true`. */
  function MarkStarted(prev: GameState, data: Patch): (next: GameState)
    ensures next.gameStarted == data.gameStarted.GetOr(true)
    ensures next == MergeState(prev, data).(gameStarted := data.gameStarted.GetOr(true))
  {
    MergeState(prev.(gameStarted := true), data)
  }

  /** The `GAME_OVER` listener's updater `{ ...prev, gameOver: true, ...data }`. */
  function MarkOver(prev: GameState, data: Patch): (next: GameState)
    ensures next.gameOver == data.gameOver.GetOr(true)
    ensures next == MergeState(prev, data).(gameOver := data.gameOver.GetOr(true))
  {
    MergeState(prev.(gameOver := true), data)
  }

  /** The state changes of `handleStartGame(config)`: the view becomes the
      game, the grid size is copied from the config, nothing else changes. */
  function StartGameState(s: AppState, config: Config): (t: AppState)
    ensures t.view == Game
    ensures t.game == MergeState(s.game, NoFields.(gridWidth := Some(config.gridWidth), gridHeight := Some(config.gridHeight)))
  {
    AppState(Game, s.game.(gridWidth := config.gridWidth, gridHeight := config.gridHeight))
  }

  /** `handleBackToMenu()`: back to the form, with the game fields reset to
      the initial state while the connection flag and the grid size are kept. */
  function BackToMenu(s: AppState): (t: AppState)
    ensures t.view == InitialApp.view
    ensures t.game == InitialGame.(connected := s.game.connected,
                                   gridWidth := s.game.gridWidth, gridHeight := s.game.gridHeight)
  {
    AppState(Welcome, s.game.(snake := [], food := None, score := 0, gameOver := false, gameStarted := false))
  }

  /** Shallow merge laws: merging `{}` changes nothing, merging a complete
      state replaces everything, merging the same payload twice is merging
      it once, and two merges in a row are one merge of the overlaid payloads. */
  lemma MergeLaws(s: GameState, t: GameState, p: Patch, q: Patch)
    ensures MergeState(s, NoFields) == s
    ensures MergeState(s, Fields(t)) == t
    ensures MergeState(MergeState(s, p), p) == MergeState(s, p)
    ensures MergeState(MergeState(s, p), q) == MergeState(s, Overlay(p, q))
  {
  }

  /** Going back to the menu after starting a game keeps the size the form
      chose and the connection flag, and shows the waiting block again. */
  lemma BackToMenuAfterStart(s: AppState, config: Config)
    ensures var t := BackToMenu(StartGameState(s, config));
      && t.view == Welcome
      && t.game.gridWidth == config.gridWidth && t.game.gridHeight == config.gridHeight
      && t.game.connected == s.game.connected
      && Board.Panels(t.game.gameStarted, t.game.gameOver) == {Board.WaitingPanel}
  {
    var t := BackToMenu(StartGameState(s, config));
    assert Board.WaitingPanel in Board.Panels(t.game.gameStarted, t.game.gameOver);
  }

  /** The board is handed the whole state, so none of its defaults applies;
      the initial state itself is what the defaults describe. */
  lemma BoardSeesAppState(s: GameState)
    ensures var f := Board.WithDefaults(Fields(s));
      f == Board.BoardFields(s.snake, s.food, s.score, s.gameOver, s.gridWidth, s.gridHeight, s.gameStarted)
    ensures var f := Board.WithDefaults(NoFields);
      f == Board.WithDefaults(Fields(InitialGame))
  {
  }

  /** The application starts on the form, disconnected, and the board it
      would show is 20 by 20 cells, all of them empty, under the waiting block
      and the text "Waiting". */
  lemma InitialBoardIsEmpty()
    ensures InitialApp.view == Welcome && !InitialApp.game.connected
    ensures var f := Board.WithDefaults(Fields(InitialApp.game));
      var board := Board.Grid(f.snake, f.food, Board.Iterations(f.gridWidth), Board.Iterations(f.gridHeight));
      && |board| == 400
      && (forall i :: 0 <= i < |board| ==> board[i].shade == Board.Empty)
      && Board.Panels(f.gameStarted, f.gameOver) == {Board.WaitingPanel}
      && Board.StatusLabel(f.gameStarted, f.gameOver) == "Waiting"
  {
    var f := Board.WithDefaults(Fields(InitialApp.game));
    assert f.snake == [] && f.food == None && f.gridWidth == 20 && f.gridHeight == 20;
    Board.GridSize([], None, 20, 20);
    Board.GridCellsDistinct([], None, 20, 20);
    assert Board.WaitingPanel in Board.Panels(f.gameStarted, f.gameOver);
  }

  /** `handleStartGame(config)`: the state changes of `StartGameState`, and
      one `START_GAME` frame carrying the config if the socket is open. */
  method HandleStartGame(service: WebSocketService, s: AppState, config: Config) returns (t: AppState)
    requires service.Valid()
    modifies service`transport
    ensures t == StartGameState(s, config)
    ensures service.IsOpen() ==>
      service.transport == old(service.transport) + [Transmit(service.ws.value, Frame("START_GAME", ConfigValue(config)))]
    ensures !service.IsOpen() ==> service.transport == old(service.transport)
  {
    t := StartGameState(s, config);
    service.StartGame(ConfigValue(config));
  }

  /** `handleKeyPress(key)`: the key goes out unchanged as `PLAYER_INPUT`. */
  method HandleKeyPress(service: WebSocketService, key: string)
    requires service.Valid()
    modifies service`transport
    ensures service.IsOpen() ==>
      service.transport == old(service.transport) + [Transmit(service.ws.value, Frame("PLAYER_INPUT", Obj(map["key" := Str(key)])))]
    ensures !service.IsOpen() ==> service.transport == old(service.transport)
  {
    service.SendInput(key);
  }

  /** A `keydown` on the game view: the board's filter passes the key to
      `handleKeyPress`. Exactly one `PLAYER_INPUT` frame goes out, carrying
      the key as it was pressed, when the key is an arrow or the space bar
      and the socket is open; otherwise nothing is sent. */
  method KeyDown(service: WebSocketService, key: string) returns (prevented: bool)
    requires service.Valid()
    modifies service`transport
    ensures prevented <==> key in Board.ForwardedKeys
    ensures service.IsOpen() && key in Board.ForwardedKeys ==>
      service.transport == old(service.transport) + [Transmit(service.ws.value, Frame("PLAYER_INPUT", Obj(map["key" := Str(key)])))]
    ensures !(service.IsOpen() && key in Board.ForwardedKeys) ==> service.transport == old(service.transport)
  {
    var handling := Board.HandleKeyDown(key);
    prevented := handling.preventDefault;
    if handling.forwarded.Some? {
      HandleKeyPress(service, handling.forwarded.value);
    }
  }
}
