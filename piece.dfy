/**
 * Pieces and the two move tables of src/game/piece.rs.  The movement predicate
 * `could_move_to` reads the previous turn, so it lives in module Movement,
 * after the turn type it needs.
 */
module Pieces {
  import opened Colors

  /** All kinds of pieces. */
  datatype PieceType = King | Queen | Rook | Bishop | Knight | Pawn

  /** A piece on the board; `moveCount` counts the moves it has made. */
  datatype Piece = Piece(kind: PieceType, color: Color, moveCount: int)

  /** `Piece::new`: a piece that has never moved. */
  function NewPiece(kind: PieceType, color: Color): (p: Piece)
    ensures p.kind == kind && p.color == color
    ensures p.moveCount == 0
  {
    Piece(kind, color, 0)
  }

  /** The kinds a pawn may promote to, in the order candidates are generated. */
  const PromotableTypes: seq<PieceType> := [Queen, Rook, Bishop, Knight]

  /**
   * The table named `KNIGHT_MOVES`.  As written it holds the four orthogonal
   * unit steps, each listed twice, and no knight jump.
   */
  const KnightMoves: seq<(int, int)> := [(1, 0), (0, 1), (-1, 0), (0, -1), (1, 0), (0, 1), (-1, 0), (0, -1)]

  function Abs(x: int): (r: int)
    ensures r >= 0 && (r == x || r == -x)
  {
    if x < 0 then -x else x
  }

  /** Four distinct promotion kinds, none of them King or Pawn. */
  lemma PromotableTypesSpec()
    ensures |PromotableTypes| == 4
    ensures King !in PromotableTypes && Pawn !in PromotableTypes
    ensures forall i, j :: 0 <= i < j < |PromotableTypes| ==> PromotableTypes[i] != PromotableTypes[j]
  {}

  /**
   * Every entry of `KNIGHT_MOVES` is a unit step along a row or a column
   * (so none is a knight jump), and the second half repeats the first.
   */
  lemma KnightMovesAreUnitSteps()
    ensures |KnightMoves| == 8
    ensures forall i :: 0 <= i < |KnightMoves| ==> Abs(KnightMoves[i].0) + Abs(KnightMoves[i].1) == 1
    ensures forall i :: 0 <= i < 4 ==> KnightMoves[i] == KnightMoves[i + 4]
  {}
}
