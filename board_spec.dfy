/**
 * The board's state as a value, and `make_turn` / `undo_turn`
 * (src/game/board/turns.rs) as functions on it.  Class `Board` in module
 * Boards holds the same state in fields and an array, and its methods are
 * proved to compute these functions.
 */
module BoardSpec {
  import opened Wrappers
  import opened Colors
  import opened Positions
  import opened Pieces
  import opened Turns

  /** The 64 squares, indexed by `Pos`. */
  type Squares = s: seq<Option<Piece>> | |s| == 64 witness seq(64, _ => None)

  /**
   * The fields of `Board`.  `halfMoveClock` is a stack of counters: a move
   * that captures or moves a pawn starts a new frame.
   */
  datatype BoardState = BoardState(
    squares: Squares,
    captures: seq<Piece>,
    whoseTurn: Color,
    moves: seq<Turn>,
    halfMoveClock: seq<int>,
    numMoves: int,
    enPassantTarget: Option<Pos>)

  /** `Board::default`: empty board and stacks, White to move, clock [0], move number 1. */
  function DefaultState(): BoardState
  {
    BoardState(seq(64, _ => None), [], White, [], [0], 1, None)
  }

  /** The back-rank order `from_start` places on both home rows. */
  const PieceOrder: seq<PieceType> := [Rook, Knight, Bishop, Queen, King, Bishop, Knight, Rook]

  /** What `from_start` puts on square i: back ranks on 0..8 and 56..64, pawns on 8..16 and 48..56. */
  function StartSquare(i: Pos): Option<Piece>
  {
    if i < 8 then Some(NewPiece(PieceOrder[i], White))
    else if i < 16 then Some(NewPiece(Pawn, White))
    else if 48 <= i < 56 then Some(NewPiece(Pawn, Black))
    else if 56 <= i then Some(NewPiece(PieceOrder[i - 56], Black))
    else None
  }

  /** `from_start`: the default board with the starting position. */
  function StartState(): BoardState
  {
    DefaultState().(squares := seq(64, (i: int) requires 0 <= i < 64 => StartSquare(i)))
  }

  /**
   * The starting position has no move made, exactly one king of each colour, on
   * squares 4 (e1) and 60 (e8), and its rows 2..5 are empty.
   */
  lemma StartPosition()
    ensures forall i: Pos :: StartState().squares[i].Some? ==> StartState().squares[i].value.moveCount == 0
    ensures forall i: Pos :: IsKingOf(StartState().squares[i], White) <==> i == 4
    ensures forall i: Pos :: IsKingOf(StartState().squares[i], Black) <==> i == 60
    ensures forall i: Pos :: StartState().squares[i].None? <==> 16 <= i < 48
    ensures forall i: Pos :: StartState().squares[i].Some? ==> (StartState().squares[i].value.color == White <==> i < 16)
  {}

  /** `get_prev_turn`: the last turn of the history, if any. */
  function PrevTurn(moves: seq<Turn>): (r: Option<Turn>)
    ensures r.None? <==> moves == []
    ensures r.Some? ==> r.value == moves[|moves| - 1]
  {
    if |moves| == 0 then None else Some(moves[|moves| - 1])
  }

  predicate IsColor(o: Option<Piece>, c: Color)
  {
    o.Some? && o.value.color == c
  }

  predicate IsKingOf(o: Option<Piece>, c: Color)
  {
    o.Some? && o.value.kind == King && o.value.color == c
  }

  /** The board has a king of this colour; `find_king` panics otherwise. */
  predicate HasKing(sq: Squares, c: Color)
  {
    exists k: Pos :: IsKingOf(sq[k], c)
  }

  // ---------------------------------------------------------------------------
  // make_turn

  /**
   * The square passed over by a two-row pawn move, as both `make_turn` and
   * `undo_turn` compute it.
   */
  function DoublePushTarget(t: Turn): (r: Option<Pos>)
    ensures r.Some? <==> t.kind == Pawn && Abs(Row(t.to) - Row(t.from)) == 2
    ensures r.Some? ==> Col(r.value) == Col(t.from) && 2 * Row(r.value) == Row(t.from) + Row(t.to)
  {
    if t.kind == Pawn && Abs(Row(t.to) - Row(t.from)) == 2 then
      Some(New((Row(t.to) + Row(t.from)) / 2, Col(t.from)))
    else
      None
  }

  /** A capture or a pawn move starts a new half-move-clock frame. */
  predicate Resets(t: Turn)
  {
    t.capture.Some? || t.kind == Pawn
  }

  function LiftCapture(sq: Squares, t: Turn): Squares
  {
    if t.capture.Some? then sq[t.capture.value := None] else sq
  }

  /** Moves the second piece of the turn, if any, from its origin to its destination. */
  function PlaceSecondary(sq: Squares, t: Turn): Squares
  {
    match t.additionalMove
    case None => sq
    case Some((a, b)) => sq[a := None][b := sq[a]]
  }

  /** The moved piece after the move: promoted if asked, one more move made. */
  function MovedPiece(p: Piece, t: Turn): (q: Piece)
    ensures q.color == p.color && q.moveCount == p.moveCount + 1
    ensures q.kind == if t.promoteTo.Some? then t.promoteTo.value else p.kind
  {
    p.(kind := if t.promoteTo.Some? then t.promoteTo.value else p.kind, moveCount := p.moveCount + 1)
  }

  /**
   * The conditions under which `make_turn` does not panic: a piece on the capture
   * square, then a piece on `from`, then a piece on the secondary origin and an
   * empty secondary destination, then an empty `to`, and a clock frame to add to.
   */
  predicate MakeTurnPre(s: BoardState, t: Turn)
  {
    var sq1 := LiftCapture(s.squares, t);
    var sq2 := sq1[t.from := None];
    && (t.capture.Some? ==> s.squares[t.capture.value].Some?)
    && sq1[t.from].Some?
    && (t.additionalMove.Some? ==>
          sq2[t.additionalMove.value.0].Some? && sq2[t.additionalMove.value.0 := None][t.additionalMove.value.1].None?)
    && PlaceSecondary(sq2, t)[t.to].None?
    && (Resets(t) || |s.halfMoveClock| >= 1)
  }

  /** A turn that can be made starts from an occupied square and has a clock frame to undo into. */
  lemma MakeTurnPreFrom(s: BoardState, t: Turn)
    requires MakeTurnPre(s, t)
    ensures s.squares[t.from].Some? && (Resets(t) || |s.halfMoveClock| >= 1)
  {
    if t.capture.Some? {
      assert LiftCapture(s.squares, t)[t.from] == s.squares[t.from];
    }
  }

  /** The half-move-clock stack after a move: a new frame on a reset, then the top incremented. */
  function ClockAfterMake(clock: seq<int>, t: Turn): (c: seq<int>)
    requires Resets(t) || |clock| >= 1
    ensures |c| == |clock| + (if Resets(t) then 1 else 0)
  {
    var c := if Resets(t) then clock + [-1] else clock;
    c[|c| - 1 := c[|c| - 1] + 1]
  }

  /** `make_turn`, step by step as the source does it. */
  function MakeTurn(s: BoardState, t: Turn): BoardState
    requires MakeTurnPre(s, t)
  {
    var sq1 := LiftCapture(s.squares, t);
    var piece := sq1[t.from].value;
    var sq3 := PlaceSecondary(sq1[t.from := None], t);
    var side := Not(s.whoseTurn);
    BoardState(
      sq3[t.to := Some(MovedPiece(piece, t))],
      if t.capture.Some? then s.captures + [s.squares[t.capture.value].value] else s.captures,
      side,
      s.moves + [t],
      ClockAfterMake(s.halfMoveClock, t),
      if side == White then s.numMoves + 1 else s.numMoves,
      if t.capture.None? then DoublePushTarget(t) else None)
  }

  // ---------------------------------------------------------------------------
  // undo_turn

  /** The en-passant target `undo_turn` recomputes from the turn on top of the history. */
  function EpOf(moves: seq<Turn>): Option<Pos>
  {
    if |moves| == 0 then None else DoublePushTarget(moves[|moves| - 1])
  }

  /**
   * The conditions under which `undo_turn` does not panic: a piece on the last
   * turn's `to`, a piece on its secondary destination once `to` is lifted, and a
   * clock frame.
   */
  predicate UndoTurnPre(s: BoardState)
  {
    |s.moves| > 0 ==>
      var t := s.moves[|s.moves| - 1];
      && s.squares[t.to].Some?
      && (t.additionalMove.Some? ==> s.squares[t.to := None][t.additionalMove.value.1].Some?)
      && |s.halfMoveClock| >= 1
  }

  function ClockAfterUndo(clock: seq<int>): seq<int>
    requires |clock| >= 1
  {
    if clock[|clock| - 1] == 0 then clock[..|clock| - 1] else clock[|clock| - 1 := clock[|clock| - 1] - 1]
  }

  /**
   * The squares after `undo_turn` puts back the turn `t`: lift the piece from
   * `to`, move the secondary piece back, restore the top capture (or clear the
   * square when there is none) and put the piece back on `from`, counted down
   * and with `promote_from` as its kind when set.
   */
  function PutBackSquares(sq: Squares, captures: seq<Piece>, t: Turn): Squares
    requires sq[t.to].Some?
    requires t.additionalMove.Some? ==> sq[t.to := None][t.additionalMove.value.1].Some?
  {
    var piece := sq[t.to].value;
    var sq1 := sq[t.to := None];
    var sq2 := match t.additionalMove
               case None => sq1
               case Some((a, b)) => sq1[b := None][a := sq1[b]];
    var sq3 := if t.capture.None? then sq2
               else sq2[t.capture.value := if |captures| == 0 then None else Some(captures[|captures| - 1])];
    var back := piece.(kind := if t.promoteFrom.Some? then t.promoteFrom.value else piece.kind,
                       moveCount := piece.moveCount - 1);
    sq3[t.from := Some(back)]
  }

  /** The capture stack after `undo_turn`: popped when the turn captured and the stack is not empty. */
  function PutBackCaptures(captures: seq<Piece>, t: Turn): seq<Piece>
  {
    if t.capture.None? || |captures| == 0 then captures else captures[..|captures| - 1]
  }

  /** `undo_turn`, step by step as the source does it; None and no change on an empty history. */
  function UndoTurn(s: BoardState): (Option<Turn>, BoardState)
    requires UndoTurnPre(s)
  {
    if |s.moves| == 0 then (None, s)
    else
      var t := s.moves[|s.moves| - 1];
      var rest := s.moves[..|s.moves| - 1];
      var side := Not(s.whoseTurn);
      (Some(t), BoardState(
         PutBackSquares(s.squares, s.captures, t),
         PutBackCaptures(s.captures, t),
         side,
         rest,
         ClockAfterUndo(s.halfMoveClock),
         if side == Black then s.numMoves - 1 else s.numMoves,
         EpOf(rest)))
  }

  // ---------------------------------------------------------------------------
  // The round trip

  /** The clock stack has a frame and its top is not negative. */
  predicate ClockOk(s: BoardState)
  {
    |s.halfMoveClock| >= 1 && s.halfMoveClock[|s.halfMoveClock| - 1] >= 0
  }

  /** The kind `undo_turn` gives back to a piece that made this turn. */
  function UndoneKind(p: Piece, t: Turn): PieceType
  {
    if t.promoteFrom.Some? then t.promoteFrom.value
    else if t.promoteTo.Some? then t.promoteTo.value
    else p.kind
  }

  /**
   * What `undo_turn` after `make_turn` leaves: the state before, except that
   * the moved piece has the kind `UndoneKind`, the en-passant target is the
   * one derived from the history, and the clock has been through one
   * increment-or-push and one pop-or-decrement.
   */
  function Restored(s: BoardState, t: Turn): BoardState
    requires s.squares[t.from].Some? && (Resets(t) || |s.halfMoveClock| >= 1)
  {
    var p := s.squares[t.from].value;
    s.(squares := s.squares[t.from := Some(p.(kind := UndoneKind(p, t)))],
       enPassantTarget := EpOf(s.moves),
       halfMoveClock := ClockAfterUndo(ClockAfterMake(s.halfMoveClock, t)))
  }

  /** With a non-negative top, the clock comes back unchanged. */
  lemma ClockRoundTrip(clock: seq<int>, t: Turn)
    requires |clock| >= 1 && clock[|clock| - 1] >= 0
    ensures ClockAfterUndo(ClockAfterMake(clock, t)) == clock
  {
    var c := ClockAfterMake(clock, t);
    if Resets(t) {
      assert c == clock + [0];
      assert c[..|c| - 1] == clock;
    } else {
      assert c[|c| - 1] >= 1;
      assert c[|c| - 1 := c[|c| - 1] - 1] == clock;
    }
  }

  /**
   * With a top of -1 (possible from FEN), a move that neither captures nor
   * moves a pawn brings the top to 0, and the undo then pops the whole frame.
   */
  lemma ClockLosesNegativeFrame(clock: seq<int>, t: Turn)
    requires |clock| >= 1 && clock[|clock| - 1] == -1 && !Resets(t)
    ensures ClockAfterUndo(ClockAfterMake(clock, t)) == clock[..|clock| - 1]
  {}

  /**
   * Undoing a move returns exactly the turn made and puts every square back,
   * whatever squares the capture, the main and the secondary move share.
   */
  lemma SquaresRoundTrip(s: BoardState, t: Turn)
    requires MakeTurnPre(s, t)
    ensures UndoTurnPre(MakeTurn(s, t))
    ensures UndoTurn(MakeTurn(s, t)).1.squares == Restored(s, t).squares
  {
    var m := MakeTurn(s, t);
    var sq0 := s.squares;
    var sq1 := LiftCapture(sq0, t);
    var piece := sq1[t.from].value;
    var sq2 := sq1[t.from := None];
    var sq3 := PlaceSecondary(sq2, t);
    assert m.squares == sq3[t.to := Some(MovedPiece(piece, t))];
    assert t.capture.Some? ==> t.capture.value != t.from;
    assert piece == sq0[t.from].value;
    if t.additionalMove.Some? {
      var (a, b) := t.additionalMove.value;
      assert b != t.to;
      assert m.squares[t.to := None][b] == sq2[a];
    }
    var u := UndoTurn(m).1;
    var r := Restored(s, t);
    forall i: Pos
      ensures u.squares[i] == r.squares[i]
    {
      if i == t.from {
      } else if t.capture.Some? && i == t.capture.value {
      } else if t.additionalMove.Some? && i == t.additionalMove.value.0 {
      } else if t.additionalMove.Some? && i == t.additionalMove.value.1 {
      } else if i == t.to {
      }
    }
  }

  /**
   * The round trip behind `is_move_legal`: after `make_turn(t)`, `undo_turn`
   * does not panic, returns `t`, and restores the state up to the moved piece's
   * kind, the recomputed en-passant target and the clock's top frame.
   */
  lemma {:induction false} MakeUndo(s: BoardState, t: Turn)
    requires MakeTurnPre(s, t)
    ensures UndoTurnPre(MakeTurn(s, t))
    ensures UndoTurn(MakeTurn(s, t)) == (Some(t), Restored(s, t))
  {
    var m := MakeTurn(s, t);
    SquaresRoundTrip(s, t);
    NotNot(s.whoseTurn);
    assert m.moves[..|m.moves| - 1] == s.moves;
    assert t.capture.Some? ==> m.captures[..|m.captures| - 1] == s.captures;
  }

  /** The turn restores the moved piece's kind: it records its promotion consistently. */
  predicate PromotionUndoes(s: BoardState, t: Turn)
    requires s.squares[t.from].Some?
  {
    UndoneKind(s.squares[t.from].value, t) == s.squares[t.from].value.kind
  }

  /**
   * The headline law: `make_turn(t)` then `undo_turn()` returns `Some(t)` and
   * restores every field, when the turn undoes its own promotion, the clock top
   * is not negative and the en-passant target is the one the history gives.
   */
  lemma {:induction false} MakeUndoIdentity(s: BoardState, t: Turn)
    requires MakeTurnPre(s, t) && ClockOk(s)
    requires PromotionUndoes(s, t)
    requires s.enPassantTarget == EpOf(s.moves)
    ensures UndoTurnPre(MakeTurn(s, t))
    ensures UndoTurn(MakeTurn(s, t)) == (Some(t), s)
  {
    MakeUndo(s, t);
    ClockRoundTrip(s.halfMoveClock, t);
    assert s.squares[t.from := s.squares[t.from]] == s.squares;
  }

  /**
   * A turn whose `promoteFrom` names another kind than the moving piece's is
   * not undone: the piece comes back as that kind.  This is what happens to a
   * pawn's capture-promotion, which records the captured piece's kind.
   */
  lemma UndoAdoptsPromoteFrom(s: BoardState, t: Turn)
    requires MakeTurnPre(s, t)
    requires t.promoteFrom.Some?
    ensures UndoTurnPre(MakeTurn(s, t))
    ensures UndoTurn(MakeTurn(s, t)).1.squares[t.from] == Some(s.squares[t.from].value.(kind := t.promoteFrom.value))
  {
    MakeUndo(s, t);
  }

  /** An en-passant target with no history behind it (as loaded from FEN) is lost by make then undo. */
  lemma UndoForgetsUnbackedTarget(s: BoardState, t: Turn)
    requires MakeTurnPre(s, t)
    requires s.moves == []
    ensures UndoTurnPre(MakeTurn(s, t))
    ensures UndoTurn(MakeTurn(s, t)).1.enPassantTarget == None
  {
    MakeUndo(s, t);
  }

  // ---------------------------------------------------------------------------
  // What make_turn and undo_turn do, one field at a time

  /**
   * After `make_turn`: `to` holds the moved piece, promoted if asked and with one
   * more move; `from` is empty unless a piece was put back on it; an en-passant
   * capture square is empty; the captured piece is on top of `captures`.
   */
  lemma MakeTurnSquares(s: BoardState, t: Turn)
    requires MakeTurnPre(s, t)
    ensures var m := MakeTurn(s, t);
      && m.squares[t.to] == Some(MovedPiece(s.squares[t.from].value, t))
      && (t.from != t.to && (t.additionalMove.None? || t.additionalMove.value.1 != t.from) ==> m.squares[t.from].None?)
      && (t.capture.Some? && t.capture.value != t.to && (t.additionalMove.None? || t.additionalMove.value.1 != t.capture.value) ==>
            m.squares[t.capture.value].None?)
      && (t.capture.Some? ==> m.captures == s.captures + [s.squares[t.capture.value].value])
      && (t.capture.None? ==> m.captures == s.captures)
  {}

  /**
   * The clock after `make_turn`: a capture or a pawn move pushes exactly one
   * frame, which ends at 0; any other move keeps the stack length and adds one
   * to its top.
   */
  lemma MakeTurnClock(s: BoardState, t: Turn)
    requires MakeTurnPre(s, t)
    ensures var c := MakeTurn(s, t).halfMoveClock;
      && (Resets(t) ==> c == s.halfMoveClock + [0])
      && (!Resets(t) ==> |c| == |s.halfMoveClock| && c[..|c| - 1] == s.halfMoveClock[..|c| - 1]
                         && c[|c| - 1] == s.halfMoveClock[|c| - 1] + 1)
  {
    var c := MakeTurn(s, t).halfMoveClock;
    if Resets(t) {
      assert c == s.halfMoveClock + [0];
    }
  }

  /**
   * After `make_turn` the en-passant target is the passed-over square
   * ((from.row + to.row) / 2, from.col) exactly when the move is a
   * non-capturing two-row pawn move, and None otherwise.
   */
  lemma MakeTurnEnPassant(s: BoardState, t: Turn)
    requires MakeTurnPre(s, t)
    ensures var e := MakeTurn(s, t).enPassantTarget;
      && (e.Some? <==> t.kind == Pawn && t.capture.None? && Abs(Row(t.to) - Row(t.from)) == 2)
      && (e.Some? ==> e.value == New((Row(t.from) + Row(t.to)) / 2, Col(t.from)))
  {}

  /**
   * `make_turn` appends the turn, hands the move to the other side, and
   * increments the move number exactly when White is to move next.
   */
  lemma MakeTurnHistory(s: BoardState, t: Turn)
    requires MakeTurnPre(s, t)
    ensures var m := MakeTurn(s, t);
      && m.moves == s.moves + [t]
      && m.whoseTurn == Not(s.whoseTurn)
      && (m.numMoves == s.numMoves + 1 <==> s.whoseTurn == Black)
      && (m.numMoves == s.numMoves <==> s.whoseTurn == White)
  {}

  /** `undo_turn` on an empty history returns None and changes nothing. */
  lemma UndoEmptyHistory(s: BoardState)
    requires s.moves == []
    ensures UndoTurnPre(s) && UndoTurn(s) == (None, s)
  {}

  /**
   * `undo_turn` on a non-empty history: returns the last turn, puts the piece
   * back on `from` with one move less and its `promoteFrom` kind, pops a clock
   * frame whose top is 0 or else decrements it, recomputes the en-passant target
   * from the new last turn, and decrements the move number when Black is to move
   * again.
   */
  lemma UndoTurnEffects(s: BoardState)
    requires UndoTurnPre(s) && |s.moves| > 0
    ensures var t := s.moves[|s.moves| - 1];
      var (r, u) := UndoTurn(s);
      var p := s.squares[t.to].value;
      && r == Some(t)
      && u.moves == s.moves[..|s.moves| - 1]
      && u.squares[t.from] == Some(p.(kind := if t.promoteFrom.Some? then t.promoteFrom.value else p.kind,
                                      moveCount := p.moveCount - 1))
      && (s.halfMoveClock[|s.halfMoveClock| - 1] == 0 ==> u.halfMoveClock == s.halfMoveClock[..|s.halfMoveClock| - 1])
      && (s.halfMoveClock[|s.halfMoveClock| - 1] != 0 ==>
            |u.halfMoveClock| == |s.halfMoveClock| && u.halfMoveClock[|s.halfMoveClock| - 1] == s.halfMoveClock[|s.halfMoveClock| - 1] - 1)
      && u.enPassantTarget == EpOf(u.moves)
      && u.whoseTurn == Not(s.whoseTurn)
      && (u.numMoves == s.numMoves - 1 <==> u.whoseTurn == Black)
  {}
}
