/**
 * Classification of the position (src/game/board/mod.rs, `is_check` to
 * `get_game_state`).  Checkmate and stalemate run the move generator, which
 * goes through make/undo cycles and so may leave the board changed (see
 * `BoardSpec.Restored`); the queries are therefore `Run`s on the board, in the
 * order the source evaluates them, with `&&` and `||` short-circuiting.
 */
module Status {
  import opened Colors
  import opened BoardSpec
  import opened Attacks
  import opened GameStates
  import opened MoveGen
  import opened MoveGenProperties

  /** `is_check`: the king of the side to move is attacked; `find_king` panics when it has none. */
  function IsCheck(s: BoardState): (r: Run<bool>)
    ensures r.state == s
    ensures r.panicked <==> !HasKing(s.squares, s.whoseTurn)
    ensures !r.panicked ==>
              (r.value <==> AreAttacking(s.squares, PrevTurn(s.moves), FindKing(s.squares, s.whoseTurn), Not(s.whoseTurn)))
  {
    if !HasKing(s.squares, s.whoseTurn) then Run(false, s, true)
    else Run(KingAttacked(s, s.whoseTurn), s, false)
  }

  /** `is_checkmate`: in check, and then `do_get_moves` finds nothing. */
  function IsCheckmate(s: BoardState): (r: Run<bool>)
    ensures !r.panicked ==> !IsCheck(s).panicked
    ensures !r.panicked && r.value ==> IsCheck(s).value && DoGetMoves(s).value == []
    ensures !r.panicked && !r.value ==> !IsCheck(s).value || DoGetMoves(s).value != []
    ensures Keeps(s, r.state)
  {
    var check := IsCheck(s);
    if check.panicked then check
    else if !check.value then check
    else
      var m := DoGetMoves(s);
      Run(m.value == [], m.state, m.panicked)
  }

  /** `is_stalemate`: not in check, and then `do_get_moves` finds nothing. */
  function IsStalemate(s: BoardState): (r: Run<bool>)
    ensures !r.panicked ==> !IsCheck(s).panicked
    ensures !r.panicked && r.value ==> !IsCheck(s).value && DoGetMoves(s).value == []
    ensures !r.panicked && !r.value ==> IsCheck(s).value || DoGetMoves(s).value != []
    ensures Keeps(s, r.state)
  {
    var check := IsCheck(s);
    if check.panicked then check
    else if check.value then Run(false, s, false)
    else
      var m := DoGetMoves(s);
      Run(m.value == [], m.state, m.panicked)
  }

  /** `is_threefold_repetition`: a stub that always answers false. */
  function IsThreefoldRepetition(s: BoardState): (r: bool)
    ensures !r
  {
    false
  }

  /** `is_insufficient_material`: a stub that always answers false. */
  function IsInsufficientMaterial(s: BoardState): (r: bool)
    ensures !r
  {
    false
  }

  /**
   * `is_draw`: not checkmate, and then stalemate, threefold repetition, the
   * fifty-move rule or insufficient material, each asked on the board the
   * previous query left.  With the two stubs false it comes down to "not
   * checkmate, and then stalemate or a clock top of at least 100".
   */
  function IsDraw(s: BoardState): (r: Run<bool>)
    ensures Keeps(s, r.state)
    ensures !r.panicked ==>
              var mate := IsCheckmate(s);
              var stale := IsStalemate(mate.state);
              var clock := stale.state.halfMoveClock;
              (r.value <==> !mate.value && (stale.value || (|clock| >= 1 && clock[|clock| - 1] >= 100)))
  {
    var mate := IsCheckmate(s);
    if mate.panicked || mate.value then Run(false, mate.state, mate.panicked)
    else
      var stale := IsStalemate(mate.state);
      KeepsTransitive(s, mate.state, stale.state);
      if stale.panicked || stale.value then stale
      else if IsThreefoldRepetition(stale.state) then Run(true, stale.state, false)
      else
        var fifty := MoveGen.FiftyMoveRule(stale.state);
        if fifty.panicked || fifty.value then fifty
        else Run(IsInsufficientMaterial(stale.state), stale.state, false)
  }

  /** `is_game_over`: a draw, or else checkmate on the board `is_draw` left. */
  function IsGameOver(s: BoardState): (r: Run<bool>)
    ensures Keeps(s, r.state)
  {
    var draw := IsDraw(s);
    if draw.panicked || draw.value then draw
    else
      var mate := IsCheckmate(draw.state);
      KeepsTransitive(s, draw.state, mate.state);
      mate
  }

  /**
   * `get_game_state`: checkmate (a win for the side that just moved), then
   * stalemate, the fifty-move rule, threefold repetition, insufficient
   * material, and otherwise the game goes on.  The stubbed draws are never
   * reported, and a win is reported exactly when `is_checkmate` holds.
   */
  function GetGameState(s: BoardState): (r: Run<GameState>)
    ensures Keeps(s, r.state)
    ensures !r.panicked ==> r.value != Draw(ThreefoldRepetition) && r.value != Draw(InsufficientMaterial)
    ensures !r.panicked ==> (r.value.Win? <==> IsCheckmate(s).value)
    ensures r.value.Win? ==> r.value == Win(Not(s.whoseTurn), Checkmate)
    ensures var mate := IsCheckmate(s);
            var stale := IsStalemate(mate.state);
            var clock := stale.state.halfMoveClock;
            (r.panicked <==> mate.panicked || (!mate.value && (stale.panicked || (!stale.value && |clock| == 0)))) &&
            (!r.panicked && !mate.value ==> (r.value == Draw(Stalemate) <==> stale.value)) &&
            (!r.panicked && !mate.value && !stale.value ==>
               (r.value == Draw(DrawReason.FiftyMoveRule) <==> |clock| >= 1 && clock[|clock| - 1] >= 100) &&
               (r.value == Playing <==> |clock| >= 1 && clock[|clock| - 1] < 100))
  {
    var mate := IsCheckmate(s);
    if mate.panicked then Run(Playing, mate.state, true)
    else if mate.value then Run(Win(Not(mate.state.whoseTurn), Checkmate), mate.state, false)
    else
      var stale := IsStalemate(mate.state);
      KeepsTransitive(s, mate.state, stale.state);
      if stale.panicked then Run(Playing, stale.state, true)
      else if stale.value then Run(Draw(Stalemate), stale.state, false)
      else
        var fifty := MoveGen.FiftyMoveRule(stale.state);
        if fifty.panicked then Run(Playing, stale.state, true)
        else if fifty.value then Run(Draw(DrawReason.FiftyMoveRule), stale.state, false)
        else if IsThreefoldRepetition(stale.state) then Run(Draw(ThreefoldRepetition), stale.state, false)
        else if IsInsufficientMaterial(stale.state) then Run(Draw(InsufficientMaterial), stale.state, false)
        else Run(Playing, stale.state, false)
  }

  // ---------------------------------------------------------------------------
  // Properties

  /**
   * `get_game_state` and `is_draw` agree: the state is a draw exactly when
   * `is_draw` holds, and the game goes on only when it is neither a draw nor
   * checkmate.
   */
  lemma GameStateMatchesDraw(s: BoardState)
    requires !GetGameState(s).panicked
    ensures !IsDraw(s).panicked
    ensures GetGameState(s).value.Draw? <==> IsDraw(s).value
    ensures GetGameState(s).value == Playing <==> !IsDraw(s).value && !IsCheckmate(s).value
  {
  }

  /**
   * On a board whose en-passant target is the one the history gives (with a
   * sound clock and no pawn of the side to move on the row before its
   * promotion row), checkmate and stalemate leave the board as it was.
   */
  lemma QueriesKeepBoard(s: BoardState)
    requires ClockOk(s) && NoPawnBeforeLastRow(s) && s.enPassantTarget == EpOf(s.moves)
    ensures !IsCheckmate(s).panicked ==> IsCheckmate(s).state == s
    ensures !IsStalemate(s).panicked ==> IsStalemate(s).state == s
  {
    DoGetMovesFromSound(s, Start(s), 0);
  }

  /**
   * `is_game_over` holds exactly when `get_game_state` reports something other
   * than `Playing`, on a board that the queries leave as it was.
   */
  lemma GameOverMatchesState(s: BoardState)
    requires ClockOk(s) && NoPawnBeforeLastRow(s) && s.enPassantTarget == EpOf(s.moves)
    requires !GetGameState(s).panicked
    ensures !IsGameOver(s).panicked
    ensures IsGameOver(s).value <==> GetGameState(s).value != Playing
  {
    QueriesKeepBoard(s);
    GameStateMatchesDraw(s);
    var mate := IsCheckmate(s);
    if !mate.value {
      QueriesKeepBoard(mate.state);
    }
  }

  /** Checkmate and stalemate are never both reported for the same board. */
  lemma MateAndStalemateExclusive(s: BoardState)
    requires !IsCheckmate(s).panicked && !IsStalemate(s).panicked
    ensures !(IsCheckmate(s).value && IsStalemate(s).value)
  {
    if IsCheckmate(s).value {
      assert IsCheck(s).value;
    }
  }
}
