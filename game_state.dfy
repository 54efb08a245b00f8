/** Outcomes of a game (src/game/game_state.rs). */
module GameStates {
  import opened Colors

  /** Reasons for a draw. */
  datatype DrawReason = ThreefoldRepetition | FiftyMoveRule | Stalemate | InsufficientMaterial | MutualAgreement | TimeOut

  /** Reasons for a win. */
  datatype WinReason = Checkmate | TimeOut | Resigned

  datatype GameState = Playing | Win(winner: Color, reason: WinReason) | Draw(drawReason: DrawReason)
}
