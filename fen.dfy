/**
 * `Board::from_fen` (src/game/board/fen.rs) as the source runs it: a default
 * board whose squares and fields are overwritten loop by loop, returning at
 * the first error.  Each loop is proved to compute the matching function of
 * `FenSpec`, and the method as a whole to compute `FenSpec.FromFen`.
 */
module Fen {
  import opened Wrappers
  import opened Colors
  import opened Positions
  import opened Pieces
  import opened BoardSpec
  import opened Text
  import opened FenSpec
  import opened Boards

  /** The placement loop over `positions`, writing pieces into `board.squares`. */
  method PlacePieces(board: Board, positions: string) returns (r: Result<int, FenError>)
    requires board.Valid()
    modifies board.squares
    ensures board.Valid()
    ensures var spec := Place(positions, 0, Cursor(7, 0, old(board.squares[..])));
            (r.Err? <==> spec.Err?) &&
            (r.Err? ==> r.error == spec.error) &&
            (r.Ok? ==> r.value == spec.value.row && board.squares[..] == spec.value.squares)
  {
    var row, col := 7, 0;
    ghost var start := Cursor(7, 0, board.squares[..]);
    for i := 0 to |positions|
      invariant 0 <= row < 8 && 0 <= col <= 8
      invariant Place(positions, 0, start) == Place(positions, i, Cursor(row, col, board.squares[..]))
    {
      var c := positions[i];
      ghost var cur := Cursor(row, col, board.squares[..]);
      if IsDigit(c) {
        col := col + DigitValue(c);
        if col > 8 {
          return Err(IncorrectCols(row, col));
        }
      } else if c == '/' {
        if col != 8 {
          return Err(IncorrectCols(row, col));
        }
        row := row + 1;
        col := 0;
        if row == 8 {
          return Err(IncorrectRows(row));
        }
      } else {
        if col >= 8 {
          return Err(IncorrectCols(row, col));
        }
        var color := if IsUpper(c) then White else Black;
        var kind := KindOf(ToLower(c));
        if kind.None? {
          return Err(InvalidPiece(c));
        }
        board.squares[New(row, col)] := Some(NewPiece(kind.value, color));
      }
      assert PlaceChar(cur, c) == Ok(Cursor(row, col, board.squares[..]));
    }
    r := Ok(row);
  }

  /** The first castling loop: every rook on its corner is marked as moved. */
  method LockCastlingRooks(board: Board)
    requires board.Valid()
    modifies board.squares
    ensures board.Valid() && board.squares[..] == LockRooks(old(board.squares[..]), 0)
  {
    ghost var start := board.squares[..];
    for k := 0 to |Corners|
      invariant LockRooks(start, 0) == LockRooks(board.squares[..], k)
    {
      var (pos, color) := Corners[k];
      match board.squares[pos]
      case Some(piece) =>
        if piece.kind == Rook && piece.color == color {
          board.squares[pos] := Some(piece.(moveCount := 1));
        }
      case None =>
    }
  }

  /** The second castling loop over the letters of `rights`. */
  method AllowCastlingRooks(board: Board, rights: string) returns (r: Option<FenError>)
    requires board.Valid()
    modifies board.squares
    ensures board.Valid()
    ensures var spec := AllowCastling(rights, 0, old(board.squares[..]));
            (r.Some? <==> spec.Err?) &&
            (r.Some? ==> r.value == spec.error) &&
            (r.None? ==> board.squares[..] == spec.value)
  {
    ghost var start := board.squares[..];
    for i := 0 to |rights|
      invariant AllowCastling(rights, 0, start) == AllowCastling(rights, i, board.squares[..])
    {
      match CornerOf(rights[i])
      case None =>
        return Some(IllegalCastling(rights));
      case Some(k) =>
        var (pos, color) := Corners[k];
        match board.squares[pos]
        case Some(piece) =>
          if piece.kind == Rook && piece.color == color {
            board.squares[pos] := Some(piece.(moveCount := 0));
          }
        case None =>
    }
    r := None;
  }

  /** `from_fen`: the parse the source performs, on a fresh board. */
  method FromFen(fen: string, colorOf: ColorParser, targetOf: TargetParser) returns (r: Result<Board, FenError>)
    ensures var spec := FenSpec.FromFen(fen, colorOf, targetOf);
            (r.Err? <==> spec.Err?) &&
            (r.Err? ==> r.error == spec.error) &&
            (r.Ok? ==> fresh(r.value) && fresh(r.value.squares) && r.value.Valid() && r.value.State() == spec.value)
  {
    if !IsAscii(fen) {
      return Err(NotAscii);
    }
    var board := new Board.Default();
    var sections := SplitWhitespace(fen);
    if |sections| != 6 {
      return Err(IncorrectSections(|sections|));
    }
    var positions, toMove, castling, target := sections[0], sections[1], sections[2], sections[3];
    var clock := ParseInt(sections[4], I8Min, I8Max);
    if clock.None? {
      return Err(InvalidNumber(sections[4]));
    }
    board.halfMoveClock := [clock.value];
    var numMoves := ParseInt(sections[5], I32Min, I32Max);
    if numMoves.None? {
      return Err(InvalidNumber(sections[5]));
    }
    board.numMoves := numMoves.value;
    var placed := PlacePieces(board, positions);
    if placed.Err? {
      return Err(placed.error);
    }
    if placed.value != 7 {
      return Err(IncorrectRows(placed.value));
    }
    ghost var sq := board.squares[..];
    LockCastlingRooks(board);
    if castling != "-" {
      var err := AllowCastlingRooks(board, castling);
      if err.Some? {
        return Err(err.value);
      }
    }
    assert board.squares[..] == Castling(castling, sq).value;
    var color := colorOf(toMove);
    if color.Err? {
      return Err(color.error);
    }
    board.whoseTurn := color.value;
    var ep := targetOf(target);
    if ep.Err? {
      return Err(ep.error);
    }
    board.enPassantTarget := ep.value;
    r := Ok(board);
  }
}
