/**
 * `Piece::could_move_to` and its per-kind helpers (src/game/piece.rs): could a
 * piece move between two squares on an empty board.  Only the pawn rule looks
 * at the board, and only at two things, which are parameters here: whether the
 * destination is occupied, and the previous turn of the game.
 */
module Movement {
  import opened Wrappers
  import opened Colors
  import opened Positions
  import opened Pieces
  import opened Turns

  function CouldMoveTo(piece: Piece, from: Pos, to: Pos, toOccupied: bool, prev: Option<Turn>): bool
  {
    if from == to then false
    else
      match piece.kind
      case King => CouldKingMoveTo(from, to)
      case Queen => CouldQueenMoveTo(from, to)
      case Rook => CouldRookMoveTo(from, to)
      case Bishop => CouldBishopMoveTo(from, to)
      case Knight => CouldKnightMoveTo(from, to)
      case Pawn => CouldPawnMoveTo(piece.color, from, to, toOccupied, prev)
  }

  predicate CouldKingMoveTo(from: Pos, to: Pos)
  {
    Abs(Row(from) - Row(to)) <= 1 && Abs(Col(from) - Col(to)) <= 1
  }

  /** As written: the second disjunct compares the origin's column with the destination's row. */
  predicate CouldRookMoveTo(from: Pos, to: Pos)
  {
    Row(from) == Row(to) || Col(from) == Row(to)
  }

  predicate CouldBishopMoveTo(from: Pos, to: Pos)
  {
    Row(from) - Col(from) == Row(to) - Col(to) || Row(from) + Col(from) == Row(to) + Col(to)
  }

  predicate CouldQueenMoveTo(from: Pos, to: Pos)
  {
    CouldRookMoveTo(from, to) || CouldBishopMoveTo(from, to)
  }

  predicate CouldKnightMoveTo(from: Pos, to: Pos)
  {
    var rowDiff := Abs(Row(from) - Row(to));
    var colDiff := Abs(Col(from) - Col(to));
    (rowDiff == 2 && colDiff == 1) || (rowDiff == 1 && colDiff == 2)
  }

  /** The en-passant pattern of the previous turn that lets a pawn move diagonally onto an empty square. */
  predicate EnPassantPattern(color: Color, to: Pos, prev: Option<Turn>)
  {
    && prev.Some?
    && prev.value.kind == Pawn
    && Row(to) == Row(prev.value.to)
    && Row(to) + Direction(color) * 2 == Row(prev.value.from)
    && Abs(Col(to) - Col(prev.value.to)) == 1
  }

  /** The pawn rule, its tests in the source's order. */
  function CouldPawnMoveTo(color: Color, from: Pos, to: Pos, toOccupied: bool, prev: Option<Turn>): bool
  {
    var colDiff := Abs(Col(from) - Col(to));
    var rowDiff := Row(from) - Row(to);
    if colDiff >= 2 then false
    else if rowDiff * Direction(color) <= 0 then false
    else if Row(from) != Home(color) + Direction(color) && Abs(rowDiff) != 1 then false
    else if Abs(rowDiff) > 2 then false
    else if toOccupied && colDiff == 0 then false
    else if !toOccupied && colDiff == 1 then EnPassantPattern(color, to, prev)
    else true
  }

  /** No piece can move onto its own square. */
  lemma NeverOntoItself(piece: Piece, p: Pos, toOccupied: bool, prev: Option<Turn>)
    ensures !CouldMoveTo(piece, p, p, toOccupied, prev)
  {}

  /** A king reaches exactly the squares at Chebyshev distance one. */
  lemma KingRule(piece: Piece, from: Pos, to: Pos, toOccupied: bool, prev: Option<Turn>)
    requires piece.kind == King
    ensures CouldMoveTo(piece, from, to, toOccupied, prev)
        <==> from != to && Abs(Row(from) - Row(to)) <= 1 && Abs(Col(from) - Col(to)) <= 1
  {}

  /** A knight reaches exactly the squares a knight's jump away. */
  lemma KnightRule(piece: Piece, from: Pos, to: Pos, toOccupied: bool, prev: Option<Turn>)
    requires piece.kind == Knight
    ensures CouldMoveTo(piece, from, to, toOccupied, prev)
        <==> (Abs(Row(from) - Row(to)), Abs(Col(from) - Col(to))) in {(2, 1), (1, 2)}
  {}

  /** A bishop reaches exactly the other squares of its two diagonals. */
  lemma BishopRule(piece: Piece, from: Pos, to: Pos, toOccupied: bool, prev: Option<Turn>)
    requires piece.kind == Bishop
    ensures CouldMoveTo(piece, from, to, toOccupied, prev)
        <==> from != to && (Row(from) - Col(from) == Row(to) - Col(to) || Row(from) + Col(from) == Row(to) + Col(to))
  {}

  /** The rook rule as written: same row, or origin column equal to destination row. */
  lemma RookRule(piece: Piece, from: Pos, to: Pos, toOccupied: bool, prev: Option<Turn>)
    requires piece.kind == Rook
    ensures CouldMoveTo(piece, from, to, toOccupied, prev)
        <==> from != to && (Row(from) == Row(to) || Col(from) == Row(to))
  {}

  /** A queen moves where a rook or a bishop would. */
  lemma QueenRule(from: Pos, to: Pos, color: Color, n: int, toOccupied: bool, prev: Option<Turn>)
    ensures CouldMoveTo(Piece(Queen, color, n), from, to, toOccupied, prev)
        <==> CouldMoveTo(Piece(Rook, color, n), from, to, toOccupied, prev)
             || CouldMoveTo(Piece(Bishop, color, n), from, to, toOccupied, prev)
  {}

  /**
   * Because of the row/column mix-up a rook does not reach a square straight
   * along its column (a1 to a6 here), yet reaches squares off both its lines
   * (d1 to g4).
   */
  lemma RookColumnQuirk(color: Color, prev: Option<Turn>)
    ensures !CouldMoveTo(Piece(Rook, color, 0), New(0, 0), New(5, 0), true, prev)
    ensures CouldMoveTo(Piece(Rook, color, 0), New(0, 3), New(3, 6), true, prev)
  {}

  /** Each of the rejecting tests of the pawn rule. */
  lemma PawnRejections(color: Color, from: Pos, to: Pos, toOccupied: bool, prev: Option<Turn>)
    ensures Abs(Col(from) - Col(to)) >= 2 ==> !CouldPawnMoveTo(color, from, to, toOccupied, prev)
    ensures (Row(from) - Row(to)) * Direction(color) <= 0 ==> !CouldPawnMoveTo(color, from, to, toOccupied, prev)
    ensures Row(from) != Home(color) + Direction(color) && Abs(Row(from) - Row(to)) != 1
            ==> !CouldPawnMoveTo(color, from, to, toOccupied, prev)
    ensures Abs(Row(from) - Row(to)) > 2 ==> !CouldPawnMoveTo(color, from, to, toOccupied, prev)
    ensures toOccupied && Col(from) == Col(to) ==> !CouldPawnMoveTo(color, from, to, toOccupied, prev)
  {}

  /**
   * A diagonal step onto an empty square is allowed only by the en-passant
   * pattern of the previous turn, and then it is.
   */
  lemma PawnDiagonalOntoEmpty(color: Color, from: Pos, to: Pos, prev: Option<Turn>)
    requires Abs(Col(from) - Col(to)) == 1
    requires (Row(from) - Row(to)) * Direction(color) > 0 && Abs(Row(from) - Row(to)) == 1
    ensures CouldPawnMoveTo(color, from, to, false, prev) <==> EnPassantPattern(color, to, prev)
  {}

  /**
   * With White's direction +1 and Black's -1, the direction test accepts only
   * moves towards the pawn's own home row: a pawn never "could move" one row
   * towards the opponent, while a capture one row backwards is accepted.
   */
  lemma PawnDirectionAsWritten(color: Color, from: Pos, to: Pos, toOccupied: bool, prev: Option<Turn>)
    requires (Row(to) - Row(from)) * Direction(color) >= 0
    ensures !CouldPawnMoveTo(color, from, to, toOccupied, prev)
  {}

  lemma PawnCapturesBackwards(color: Color, from: Pos, to: Pos, prev: Option<Turn>)
    requires Row(to) == Row(from) - Direction(color) && Abs(Col(from) - Col(to)) == 1
    ensures CouldPawnMoveTo(color, from, to, true, prev)
  {}
}
