/**
 * `GameOver` (`src/game/game_over.rs`): the command run when a move ends the game. It shows the
 * end-of-game icons that fit the status and opens the game-over menu.
 */
module GameOverCommand {
  import opened Chess
  import opened GameBoardState

  /** The icon commands `GameOver` can apply. */
  datatype IconCommand = ShowCheckmateIcons | ShowStalemateIcons

  /** `MenuState` (`src/game/menu/state.rs`). */
  datatype MenuState = FenInput | Menu | Game | DoGameOver

  /** What `GameOver::apply` does: the icons shown (if any), whether it warns, and the next menu state. */
  datatype GameOverEffect = GameOverEffect(icons: Option<IconCommand>, warnsOngoing: bool, nextMenu: MenuState)

  /**
   * `GameOver::apply` for a status: checkmate shows the checkmate icons, the three draws share the
   * stalemate icons, and an ongoing game only logs a warning; the menu always moves to
   * `DoGameOver`.
   */
  function Apply(status: GameStatus): (r: GameOverEffect)
    ensures r.nextMenu == DoGameOver
    ensures r.icons == Some(ShowCheckmateIcons) <==> status == GameOverCheckmate
    ensures r.icons == Some(ShowStalemateIcons) <==>
      status == GameOverStalemate || status == GameOver50Moves || status == GameOverRepetition
    ensures r.warnsOngoing <==> status == GameStatus.Ongoing
  {
    match status
    case GameOverCheckmate => GameOverEffect(Some(ShowCheckmateIcons), false, DoGameOver)
    case GameOverStalemate => GameOverEffect(Some(ShowStalemateIcons), false, DoGameOver)
    case GameOver50Moves => GameOverEffect(Some(ShowStalemateIcons), false, DoGameOver)
    case GameOverRepetition => GameOverEffect(Some(ShowStalemateIcons), false, DoGameOver)
    case Ongoing => GameOverEffect(None, true, DoGameOver)
  }

  /** Icons are shown exactly for the statuses `is_game_over` accepts, and never with a warning. */
  lemma IconsIffGameOver(status: GameStatus)
    ensures Apply(status).icons.Some? <==> IsGameOverStatus(status)
    ensures Apply(status).icons.Some? <==> !Apply(status).warnsOngoing
  {
  }
}
