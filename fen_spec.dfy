/**
 * `Board::from_fen` (src/game/board/fen.rs, repeated in src/game/board/mod.rs)
 * as a function from the text to a board or an error, step by step in the
 * order the source checks things.  `Color::from_fen` and `Position::from_fen`
 * are not part of this model; they are parameters.
 */
module FenSpec {
  import opened Wrappers
  import opened Colors
  import opened Positions
  import opened Pieces
  import opened BoardSpec
  import opened Text

  /** `FenError`; the `ParseIntError` of `InvalidNumber` is replaced by the text that failed to parse. */
  datatype FenError =
    | NotAscii
    | IncorrectSections(sections: nat)
    | IncorrectRows(row: int)
    | IncorrectCols(row: int, col: int)
    | InvalidPiece(c: char)
    | InvalidColor(text: string)
    | InvalidPosition(text: string)
    | InvalidCastling(text: string)
    | IllegalCastling(text: string)
    | InvalidNumber(text: string)

  /** The two helpers the parser calls on the side-to-move and en-passant sections. */
  type ColorParser = string -> Result<Color, FenError>
  type TargetParser = string -> Result<Option<Pos>, FenError>

  const I8Min := -128
  const I8Max := 127
  const I32Min := -0x8000_0000
  const I32Max := 0x7fff_ffff

  predicate IsUpper(c: char)
  {
    'A' <= c <= 'Z'
  }

  /** `char::to_ascii_lowercase`. */
  function ToLower(c: char): (l: char)
    ensures IsUpper(c) ==> l as int == c as int + 32
    ensures !IsUpper(c) ==> l == c
  {
    if IsUpper(c) then (c as int + 32) as char else c
  }

  /** The piece letters `from_fen` accepts, lower-cased; `p` is not among them. */
  function KindOf(c: char): (r: Option<PieceType>)
    ensures r.Some? <==> c in "kqbnr"
    ensures r.Some? ==> r.value != Pawn
  {
    match c
    case 'k' => Some(King)
    case 'q' => Some(Queen)
    case 'b' => Some(Bishop)
    case 'n' => Some(Knight)
    case 'r' => Some(Rook)
    case _ => None
  }

  // ---------------------------------------------------------------------------
  // Piece placement

  /** The loop variables of the placement loop: `row`, `col` and the squares so far. */
  datatype Cursor = Cursor(row: int, col: int, squares: Squares)

  predicate InRange(cur: Cursor)
  {
    0 <= cur.row < 8 && 0 <= cur.col <= 8
  }

  /**
   * One character of the placement section.  A digit advances the column; a
   * `/` needs a full row and moves to the next row up, failing at row 8; any
   * other character is a piece put at (row, col), without advancing `col`.
   */
  function PlaceChar(cur: Cursor, c: char): (r: Result<Cursor, FenError>)
    requires InRange(cur)
    ensures r.Ok? ==> InRange(r.value)
    ensures r.Ok? ==> r.value.row == if c == '/' then cur.row + 1 else cur.row
    ensures r.Ok? ==> c != 'p' && c != 'P'
    ensures r.Err? ==> r.error.IncorrectCols? || r.error.IncorrectRows? || r.error.InvalidPiece?
    ensures IsDigit(c) ==> (r.Ok? <==> cur.col + DigitValue(c) <= 8)
    ensures IsDigit(c) && r.Ok? ==> r.value.col == cur.col + DigitValue(c) && r.value.squares == cur.squares
    ensures c == '/' ==> (r.Ok? <==> cur.col == 8 && cur.row + 1 < 8)
    ensures c == '/' && r.Ok? ==> r.value.col == 0 && r.value.squares == cur.squares
    ensures !IsDigit(c) && c != '/' ==> (r.Ok? <==> cur.col < 8 && KindOf(ToLower(c)).Some?)
    ensures !IsDigit(c) && c != '/' && KindOf(ToLower(c)).None? && cur.col < 8 ==> r == Err(InvalidPiece(c))
    ensures !IsDigit(c) && c != '/' && r.Ok? ==>
              r.value.col == cur.col &&
              r.value.squares == cur.squares[New(cur.row, cur.col) :=
                Some(NewPiece(KindOf(ToLower(c)).value, if IsUpper(c) then White else Black))]
  {
    if IsDigit(c) then
      var col := cur.col + DigitValue(c);
      if col > 8 then Err(IncorrectCols(cur.row, col)) else Ok(cur.(col := col))
    else if c == '/' then
      if cur.col != 8 then Err(IncorrectCols(cur.row, cur.col))
      else if cur.row + 1 == 8 then Err(IncorrectRows(cur.row + 1))
      else Ok(Cursor(cur.row + 1, 0, cur.squares))
    else if cur.col >= 8 then Err(IncorrectCols(cur.row, cur.col))
    else match KindOf(ToLower(c))
      case None => Err(InvalidPiece(c))
      case Some(kind) =>
        var color := if IsUpper(c) then White else Black;
        Ok(cur.(squares := cur.squares[New(cur.row, cur.col) := Some(NewPiece(kind, color))]))
  }

  /** The placement loop from character i on. */
  function Place(cs: string, i: nat, cur: Cursor): (r: Result<Cursor, FenError>)
    requires i <= |cs| && InRange(cur)
    ensures r.Ok? ==> InRange(r.value)
    ensures r.Err? ==> r.error.IncorrectCols? || r.error.IncorrectRows? || r.error.InvalidPiece?
    decreases |cs| - i
  {
    if i == |cs| then Ok(cur)
    else match PlaceChar(cur, cs[i])
      case Err(e) => Err(e)
      case Ok(next) => Place(cs, i + 1, next)
  }

  /** The squares of `Board::default`, all empty. */
  const EmptySquares: Squares := DefaultState().squares

  // ---------------------------------------------------------------------------
  // Castling rights

  /** The four rook squares and the colour whose rook may castle from each. */
  const Corners: seq<(Pos, Color)> := [(0, White), (7, White), (56, Black), (63, Black)]

  /** The castling letter of each corner: Q, K, q, k. */
  const CornerLetters: string := "QKqk"

  /** Sets the move count of a rook of colour `color` at `p`; any other square is left alone. */
  function SetRookCount(sq: Squares, p: Pos, color: Color, n: int): (r: Squares)
    ensures forall j: Pos | j != p :: r[j] == sq[j]
  {
    match sq[p]
    case Some(piece) =>
      if piece.kind == Rook && piece.color == color then sq[p := Some(piece.(moveCount := n))] else sq
    case None => sq
  }

  /** The first castling loop from corner i on: every rook on its corner is marked as moved. */
  function LockRooks(sq: Squares, i: nat): Squares
    requires i <= |Corners|
    decreases |Corners| - i
  {
    if i == |Corners| then sq
    else LockRooks(SetRookCount(sq, Corners[i].0, Corners[i].1, 1), i + 1)
  }

  /** `Q`, `K`, `q` and `k` name a corner; any other letter does not. */
  function CornerOf(c: char): (r: Option<nat>)
    ensures r.Some? ==> r.value < |Corners|
  {
    match c
    case 'Q' => Some(0)
    case 'K' => Some(1)
    case 'q' => Some(2)
    case 'k' => Some(3)
    case _ => None
  }

  /**
   * The second castling loop from character i of `rights` on: each letter
   * marks its corner's rook as unmoved; another character is an error.
   */
  function AllowCastling(rights: string, i: nat, sq: Squares): (r: Result<Squares, FenError>)
    requires i <= |rights|
    ensures r.Err? ==> r.error == IllegalCastling(rights)
    decreases |rights| - i
  {
    if i == |rights| then Ok(sq)
    else match CornerOf(rights[i])
      case None => Err(IllegalCastling(rights))
      case Some(k) => AllowCastling(rights, i + 1, SetRookCount(sq, Corners[k].0, Corners[k].1, 0))
  }

  /** The castling section applied to the placed squares: all rooks locked, then "-" or the letters. */
  function Castling(rights: string, sq: Squares): (r: Result<Squares, FenError>)
  {
    var locked := LockRooks(sq, 0);
    if rights == "-" then Ok(locked) else AllowCastling(rights, 0, locked)
  }

  // ---------------------------------------------------------------------------
  // The whole parse

  /**
   * `from_fen`: ASCII only; six sections; the half-move clock as an `i8` and
   * the move number as an `i32`; the placement, which must end on row 7; the
   * castling rights; then the side to move and the en-passant target.
   */
  function FromFen(fen: string, colorOf: ColorParser, targetOf: TargetParser): (r: Result<BoardState, FenError>)
    ensures !IsAscii(fen) ==> r == Err(NotAscii)
    ensures IsAscii(fen) && |SplitWhitespace(fen)| != 6 ==> r == Err(IncorrectSections(|SplitWhitespace(fen)|))
    ensures r.Ok? ==> r.value.captures == [] && r.value.moves == [] && |r.value.halfMoveClock| == 1
    ensures var sections := SplitWhitespace(fen);
            IsAscii(fen) && |sections| == 6 && ParseInt(sections[4], I8Min, I8Max).None? ==>
              r == Err(InvalidNumber(sections[4]))
    ensures var sections := SplitWhitespace(fen);
            IsAscii(fen) && |sections| == 6 && ParseInt(sections[4], I8Min, I8Max).Some? &&
            ParseInt(sections[5], I32Min, I32Max).None? ==>
              r == Err(InvalidNumber(sections[5]))
    ensures var sections := SplitWhitespace(fen);
            r.Ok? ==>
              |sections| == 6 &&
              ParseInt(sections[4], I8Min, I8Max) == Some(r.value.halfMoveClock[0]) &&
              ParseInt(sections[5], I32Min, I32Max) == Some(r.value.numMoves)
  {
    if !IsAscii(fen) then Err(NotAscii)
    else
      var sections := SplitWhitespace(fen);
      if |sections| != 6 then Err(IncorrectSections(|sections|))
      else match ParseInt(sections[4], I8Min, I8Max)
        case None => Err(InvalidNumber(sections[4]))
        case Some(clock) =>
          match ParseInt(sections[5], I32Min, I32Max)
          case None => Err(InvalidNumber(sections[5]))
          case Some(numMoves) =>
            match Place(sections[0], 0, Cursor(7, 0, EmptySquares))
            case Err(e) => Err(e)
            case Ok(placed) =>
              if placed.row != 7 then Err(IncorrectRows(placed.row))
              else match Castling(sections[2], placed.squares)
                case Err(e) => Err(e)
                case Ok(sq) =>
                  match colorOf(sections[1])
                  case Err(e) => Err(e)
                  case Ok(color) =>
                    match targetOf(sections[3])
                    case Err(e) => Err(e)
                    case Ok(target) => Ok(BoardState(sq, [], color, [], [clock], numMoves, target))
  }

  // ---------------------------------------------------------------------------
  // Properties

  /**
   * From row 7 (where the loop starts), the placement succeeds only without a
   * `/` and without a pawn letter, stays on row 7, and changes only squares of
   * row 7, each to an unmoved piece other than a pawn.
   */
  lemma {:induction false} PlaceOnLastRow(cs: string, i: nat, cur: Cursor)
    requires i <= |cs| && InRange(cur) && cur.row == 7
    ensures var r := Place(cs, i, cur);
            r.Ok? ==>
              r.value.row == 7 &&
              (forall k | i <= k < |cs| :: cs[k] != '/' && cs[k] != 'p' && cs[k] != 'P') &&
              forall j: Pos | r.value.squares[j] != cur.squares[j] ::
                Row(j) == 7 && r.value.squares[j].Some? &&
                r.value.squares[j].value.kind != Pawn && r.value.squares[j].value.moveCount == 0
    decreases |cs| - i
  {
    if i < |cs| && Place(cs, i, cur).Ok? {
      var next := PlaceChar(cur, cs[i]).value;
      PlaceOnLastRow(cs, i + 1, next);
    }
  }

  /** A rook of the corner's colour stands on corner k. */
  predicate IsCastlingRook(sq: Squares, k: nat)
    requires k < |Corners|
  {
    var (p, color) := Corners[k];
    sq[p].Some? && sq[p].value.kind == Rook && sq[p].value.color == color
  }


  /** `sq'` is `sq` with the move count of each castling rook on corners from..3 set to `counts`. */
  predicate RooksSet(sq: Squares, sq': Squares, from: nat, counts: seq<int>)
    requires |counts| == |Corners|
  {
    (forall j: Pos | !(exists k | from <= k < |Corners| :: Corners[k].0 == j) :: sq'[j] == sq[j]) &&
    forall k | from <= k < |Corners| ::
      sq'[Corners[k].0] == if IsCastlingRook(sq, k) then Some(sq[Corners[k].0].value.(moveCount := counts[k])) else sq[Corners[k].0]
  }

  /** The first castling loop marks exactly the castling rooks as moved once. */
  lemma {:induction false} LockRooksSpec(sq: Squares, i: nat)
    requires i <= |Corners|
    ensures RooksSet(sq, LockRooks(sq, i), i, [1, 1, 1, 1])
    decreases |Corners| - i
  {
    if i < |Corners| {
      var sq1 := SetRookCount(sq, Corners[i].0, Corners[i].1, 1);
      LockRooksSpec(sq1, i + 1);
      forall k | i + 1 <= k < |Corners|
        ensures IsCastlingRook(sq1, k) == IsCastlingRook(sq, k) && sq1[Corners[k].0] == sq[Corners[k].0]
      {
        assert Corners[k].0 != Corners[i].0;
      }
    }
  }

  /** The castling rights letters all name corners. */
  predicate ValidRights(rights: string)
  {
    forall i | 0 <= i < |rights| :: rights[i] in CornerLetters
  }

  lemma ValidRightsCons(rights: string)
    requires rights != []
    ensures ValidRights(rights) <==> rights[0] in CornerLetters && ValidRights(rights[1..])
  {
    if rights[0] in CornerLetters && ValidRights(rights[1..]) {
      forall j | 0 <= j < |rights| ensures rights[j] in CornerLetters {
        if j > 0 {
          assert rights[j] == rights[1..][j - 1];
        }
      }
    }
  }

  /** The move count a corner's rook ends with after the letters `rights`: 0 if its letter appears. */
  function AllowedCount(rights: string, sq: Squares, k: nat): int
    requires k < |Corners|
  {
    if CornerLetters[k] in rights then 0
    else if IsCastlingRook(sq, k) then sq[Corners[k].0].value.moveCount else 0
  }

  function AllowedCounts(rights: string, sq: Squares): (counts: seq<int>)
    ensures |counts| == |Corners|
    ensures forall k | 0 <= k < |Corners| :: counts[k] == AllowedCount(rights, sq, k)
  {
    [AllowedCount(rights, sq, 0), AllowedCount(rights, sq, 1), AllowedCount(rights, sq, 2), AllowedCount(rights, sq, 3)]
  }

  /** One letter of the castling rights: the corner it names is counted as allowed from here on. */
  lemma AllowStep(rights: string, i: nat, c: nat, sq: Squares, sq1: Squares, res: Squares)
    requires i < |rights| && CornerOf(rights[i]) == Some(c)
    requires sq1 == SetRookCount(sq, Corners[c].0, Corners[c].1, 0)
    requires RooksSet(sq1, res, 0, AllowedCounts(rights[i + 1..], sq1))
    ensures RooksSet(sq, res, 0, AllowedCounts(rights[i..], sq))
  {
    var counts1 := AllowedCounts(rights[i + 1..], sq1);
    var counts := AllowedCounts(rights[i..], sq);
    forall k | 0 <= k < |Corners|
      ensures res[Corners[k].0] ==
                if IsCastlingRook(sq, k) then Some(sq[Corners[k].0].value.(moveCount := counts[k])) else sq[Corners[k].0]
    {
      LetterCons(rights, i, c, k);
      assert IsCastlingRook(sq1, k) == IsCastlingRook(sq, k);
    }
  }

  /** A corner's letter occurs from character i on when it is character i or occurs after it. */
  lemma LetterCons(rights: string, i: nat, c: nat, k: nat)
    requires i < |rights| && CornerOf(rights[i]) == Some(c) && k < |Corners|
    ensures CornerLetters[k] in rights[i..] <==> CornerLetters[k] in rights[i + 1..] || k == c
  {
    assert rights[i..] == [rights[i]] + rights[i + 1..];
  }

  /**
   * The second castling loop fails exactly on a character other than Q, K, q
   * and k; otherwise the castling rook of each corner whose letter appears is
   * unmoved, and nothing else changes.
   */
  lemma {:induction false} AllowCastlingSpec(rights: string, i: nat, sq: Squares)
    requires i <= |rights|
    ensures AllowCastling(rights, i, sq).Ok? <==> ValidRights(rights[i..])
    ensures AllowCastling(rights, i, sq).Ok? ==>
              RooksSet(sq, AllowCastling(rights, i, sq).value, 0, AllowedCounts(rights[i..], sq))
    decreases |rights| - i
  {
    if i < |rights| {
      ValidRightsCons(rights[i..]);
      assert rights[i..][1..] == rights[i + 1..];
      match CornerOf(rights[i])
      case None =>
      case Some(c) =>
        var sq1 := SetRookCount(sq, Corners[c].0, Corners[c].1, 0);
        AllowCastlingSpec(rights, i + 1, sq1);
        if AllowCastling(rights, i + 1, sq1).Ok? {
          AllowStep(rights, i, c, sq, sq1, AllowCastling(rights, i + 1, sq1).value);
        }
    } else {
      assert rights[i..] == [];
    }
  }

  /** The move count each corner's rook ends with: 0 if the rights name it, 1 otherwise. */
  function CastlingCounts(rights: string): (counts: seq<int>)
    ensures |counts| == |Corners|
    ensures forall k | 0 <= k < |Corners| :: counts[k] == if rights != "-" && CornerLetters[k] in rights then 0 else 1
  {
    seq(|Corners|, k requires 0 <= k < |Corners| => if rights != "-" && CornerLetters[k] in rights then 0 else 1)
  }

  /**
   * The castling section fails exactly when it is not "-" and holds a
   * character other than Q, K, q and k; otherwise each rook on its corner
   * ends unmoved if its letter is given and moved once if not.
   */
  lemma CastlingSpec(rights: string, sq: Squares)
    ensures Castling(rights, sq).Ok? <==> rights == "-" || ValidRights(rights)
    ensures Castling(rights, sq).Ok? ==> RooksSet(sq, Castling(rights, sq).value, 0, CastlingCounts(rights))
  {
    var locked := LockRooks(sq, 0);
    LockRooksSpec(sq, 0);
    forall k | 0 <= k < |Corners|
      ensures IsCastlingRook(locked, k) == IsCastlingRook(sq, k)
    {
    }
    if rights != "-" {
      AllowCastlingSpec(rights, 0, locked);
      assert rights[0..] == rights;
    }
  }

  /** Only pieces other than pawns, all on row 7. */
  predicate OnlyLastRowPieces(sq: Squares)
  {
    forall j: Pos | sq[j].Some? :: Row(j) == 7 && sq[j].value.kind != Pawn
  }

  /** The castling section changes move counts only, so it keeps where pieces stand and what they are. */
  lemma CastlingKeepsPieces(rights: string, sq: Squares)
    requires Castling(rights, sq).Ok?
    ensures OnlyLastRowPieces(sq) ==> OnlyLastRowPieces(Castling(rights, sq).value)
  {
    CastlingSpec(rights, sq);
    var sq' := Castling(rights, sq).value;
    forall j: Pos | sq'[j].Some?
      ensures sq[j].Some? && sq'[j].value.kind == sq[j].value.kind
    {
      if exists k | 0 <= k < |Corners| :: Corners[k].0 == j {
        var k :| 0 <= k < |Corners| && Corners[k].0 == j;
      }
    }
  }

  /**
   * What a successful parse yields: the placement section has no `/` and no
   * pawn letter; every piece stands on row 7 and none is a pawn; the clock and
   * move number are the parsed `i8` and `i32`; the castling section is "-" or
   * letters Q, K, q, k; and the side to move and target come from the helpers.
   */
  lemma FromFenOk(fen: string, colorOf: ColorParser, targetOf: TargetParser)
    requires FromFen(fen, colorOf, targetOf).Ok?
    ensures var sections := SplitWhitespace(fen);
            var b := FromFen(fen, colorOf, targetOf).value;
            |sections| == 6 &&
            (forall k | 0 <= k < |sections[0]| :: sections[0][k] != '/' && sections[0][k] != 'p' && sections[0][k] != 'P') &&
            OnlyLastRowPieces(b.squares) &&
            Some(b.halfMoveClock[0]) == ParseInt(sections[4], I8Min, I8Max) &&
            Some(b.numMoves) == ParseInt(sections[5], I32Min, I32Max) &&
            (sections[2] == "-" || ValidRights(sections[2])) &&
            b.whoseTurn == colorOf(sections[1]).value &&
            b.enPassantTarget == targetOf(sections[3]).value
  {
    var sections := SplitWhitespace(fen);
    var placed := Place(sections[0], 0, Cursor(7, 0, EmptySquares));
    PlaceOnLastRow(sections[0], 0, Cursor(7, 0, EmptySquares));
    assert OnlyLastRowPieces(placed.value.squares);
    CastlingSpec(sections[2], placed.value.squares);
    CastlingKeepsPieces(sections[2], placed.value.squares);
  }

  /** The check that the placement ended on row 7 never fails: the loop cannot leave row 7 and succeed. */
  lemma FinalRowCheckNeverFails(cs: string)
    ensures Place(cs, 0, Cursor(7, 0, EmptySquares)).Ok? ==> Place(cs, 0, Cursor(7, 0, EmptySquares)).value.row == 7
  {
    PlaceOnLastRow(cs, 0, Cursor(7, 0, EmptySquares));
  }
}
