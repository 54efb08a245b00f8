/**
 * Move generation (src/game/board/moves.rs) as functions on the board state.
 *
 * Every generator works by trying a candidate turn with `is_move_legal`,
 * which makes the turn, asks whether the mover's king is attacked, and undoes
 * it.  The undo does not always give back the state it started from (see
 * `BoardSpec.Restored`), and later candidates are read from the state the
 * earlier ones left, so each function here threads a `Run`: the turns found so
 * far, the current state, and whether the source would have panicked by now.
 * Once `panicked` is set every function returns its input unchanged.
 */
module MoveGen {
  import opened Wrappers
  import opened Colors
  import opened Positions
  import opened Pieces
  import opened Turns
  import opened BoardSpec
  import opened Attacks

  /** A computation on the board: its result, the board it leaves, and whether it panicked. */
  datatype Run<T> = Run(value: T, state: BoardState, panicked: bool)

  type Gen = Run<seq<Turn>>

  /** A fresh move list on state `s`, as each generator starts with `vec![]`. */
  function Start(s: BoardState): (g: Gen)
    ensures g.value == [] && g.state == s && !g.panicked
  {
    Run([], s, false)
  }

  function Panic<T>(r: Run<T>): (p: Run<T>)
    ensures p.panicked && p.value == r.value && p.state == r.state
  {
    r.(panicked := true)
  }

  const RookDirections: seq<(int, int)> := [(1, 0), (0, 1), (-1, 0), (0, -1)]
  const BishopDirections: seq<(int, int)> := [(1, 1), (1, -1), (-1, -1), (-1, 1)]
  const QueenDirections: seq<(int, int)> := RookDirections + BishopDirections

  predicate AllDirections(dirs: seq<(int, int)>)
  {
    forall k | 0 <= k < |dirs| :: IsDirection(dirs[k].0, dirs[k].1)
  }

  /** The three tables hold unit steps only: the queen's are the rook's followed by the bishop's. */
  lemma DirectionTables()
    ensures AllDirections(RookDirections) && AllDirections(BishopDirections) && AllDirections(QueenDirections)
    ensures |QueenDirections| == 8 && QueenDirections[..4] == RookDirections && QueenDirections[4..] == BishopDirections
  {
    assert RookDirections[2] == (-1, 0);
  }

  /**
   * What the make/undo cycles leave alone: the side to move, the history, the
   * captures, the move number, and which squares hold a piece of which colour
   * with how many moves.
   */
  predicate Keeps(s: BoardState, s': BoardState)
  {
    && s'.whoseTurn == s.whoseTurn
    && s'.moves == s.moves
    && s'.captures == s.captures
    && s'.numMoves == s.numMoves
    && forall i: Pos :: s'.squares[i].Some? == s.squares[i].Some? &&
         (s.squares[i].Some? ==> s'.squares[i].value.color == s.squares[i].value.color &&
                                 s'.squares[i].value.moveCount == s.squares[i].value.moveCount)
  }

  lemma KeepsTransitive(s1: BoardState, s2: BoardState, s3: BoardState)
    requires Keeps(s1, s2) && Keeps(s2, s3)
    ensures Keeps(s1, s3)
  {}

  /** A generator only appends to the move list it is given, and keeps the game. */
  predicate Grows(g: Gen, r: Gen)
  {
    |g.value| <= |r.value| && r.value[..|g.value|] == g.value && Keeps(g.state, r.state)
  }

  lemma GrowsTransitive(g1: Gen, g2: Gen, g3: Gen)
    requires Grows(g1, g2) && Grows(g2, g3)
    ensures Grows(g1, g3)
  {
    KeepsTransitive(g1.state, g2.state, g3.state);
    assert g3.value[..|g1.value|] == g3.value[..|g2.value|][..|g1.value|];
  }

  // ---------------------------------------------------------------------------
  // is_move_legal and add_move_if_legal

  /**
   * `is_move_legal` does not panic: `make_turn` succeeds and the mover still has
   * a king for `find_king` afterwards (`undo_turn` then cannot panic).
   */
  predicate CanTest(s: BoardState, t: Turn)
  {
    MakeTurnPre(s, t) && HasKing(MakeTurn(s, t).squares, Not(MakeTurn(s, t).whoseTurn))
  }

  /** The turn does not leave the mover's king attacked. */
  predicate Legal(s: BoardState, t: Turn)
    requires CanTest(s, t)
  {
    var m := MakeTurn(s, t);
    !KingAttacked(m, Not(m.whoseTurn))
  }

  /**
   * `is_move_legal(t)`: make, test the mover's king, undo.  It panics exactly
   * when `CanTest` fails, answers `Legal`, and leaves `Restored(s, t)`.
   */
  function IsMoveLegal(s: BoardState, t: Turn): (r: Run<bool>)
    ensures r.panicked <==> !CanTest(s, t)
    ensures !r.panicked ==> r.value == Legal(s, t) && r.state == Restored(s, t)
  {
    if !MakeTurnPre(s, t) then Run(false, s, true)
    else
      var m := MakeTurn(s, t);
      if !HasKing(m.squares, Not(m.whoseTurn)) then Run(false, s, true)
      else
        var valid := !KingAttacked(m, Not(m.whoseTurn));
        MakeUndo(s, t);
        Run(valid, UndoTurn(m).1, false)
  }

  lemma NotPawnKeeps(s: BoardState, t: Turn)
    requires s.squares[t.from].Some? && (Resets(t) || |s.halfMoveClock| >= 1)
    ensures Keeps(s, Restored(s, t))
  {}

  /** `add_move_if_legal`: append the turn when it is legal; the board is left as `is_move_legal` leaves it. */
  function AddIfLegal(g: Gen, t: Turn): (r: Gen)
    ensures g.panicked ==> r == g
    ensures !g.panicked ==> (r.panicked <==> !CanTest(g.state, t))
    ensures !r.panicked ==> r.state == Restored(g.state, t) &&
                            r.value == g.value + (if Legal(g.state, t) then [t] else [])
    ensures Grows(g, r)
  {
    if g.panicked then g
    else
      var q := IsMoveLegal(g.state, t);
      if q.panicked then Panic(g)
      else
        var r := Run(if q.value then g.value + [t] else g.value, q.state, false);
        MakeTurnPreFrom(g.state, t);
        NotPawnKeeps(g.state, t);
        AppendedIf(g, t, q.value, r);
        r
  }

  /** Appending `t` or nothing on a state the make/undo cycle keeps is growing the run. */
  lemma AppendedIf(g: Gen, t: Turn, b: bool, r: Gen)
    requires Keeps(g.state, r.state) && r.value == (if b then g.value + [t] else g.value)
    ensures r.value == g.value + (if b then [t] else [])
    ensures Grows(g, r)
  {
    assert r.value[..|g.value|] == g.value;
    assert g.value + [] == g.value;
  }

  // ---------------------------------------------------------------------------
  // get_turn_simple and the sliding pieces

  /**
   * `get_turn_simple(from, to)`: None onto a piece of the mover's colour, a
   * capture of `to` onto the other colour, a basic turn onto an empty square.
   */
  function TurnSimple(sq: Squares, from: Pos, to: Pos): (r: Option<Turn>)
    requires sq[from].Some?
    ensures r.None? <==> sq[to].Some? && sq[to].value.color == sq[from].value.color
    ensures r.Some? ==> r.value.from == from && r.value.to == to && r.value.kind == sq[from].value.kind
    ensures r.Some? ==> (r.value.capture.Some? <==> sq[to].Some?) && (r.value.capture.Some? ==> r.value.capture.value == to)
    ensures r.Some? ==> r.value.additionalMove.None? && r.value.promoteTo.None? && r.value.promoteFrom.None?
  {
    var piece := sq[from].value;
    if sq[to].Some? then
      if sq[to].value.color != piece.color then Some(NewCapture(piece.kind, from, to)) else None
    else
      Some(NewBasic(piece.kind, from, to))
  }

  /**
   * The `while let` of `line_moves` along one direction from `cur`: each square
   * that gives a turn is tried; a capture or a piece of the mover's colour ends
   * the line.
   */
  function LineRay(g: Gen, pos: Pos, cur: Pos, dr: int, dc: int): (r: Gen)
    requires IsDirection(dr, dc)
    ensures Grows(g, r)
    ensures g.panicked ==> r == g
    decreases Room(cur, dr, dc)
  {
    if g.panicked then g
    else match Offset(cur, dr, dc)
      case None => g
      case Some(q) =>
        RoomStep(cur, dr, dc);
        if g.state.squares[pos].None? then Panic(g)
        else match TurnSimple(g.state.squares, pos, q)
          case None => g
          case Some(t) =>
            var g1 := AddIfLegal(g, t);
            if t.capture.Some? then g1
            else
              var r := LineRay(g1, pos, q, dr, dc);
              GrowsTransitive(g, g1, r);
              r
  }

  /** The `for` of `line_moves` over the directions from index `i` on. */
  function LineDirs(g: Gen, pos: Pos, dirs: seq<(int, int)>, i: nat): (r: Gen)
    requires AllDirections(dirs)
    ensures Grows(g, r)
    ensures g.panicked ==> r == g
    decreases |dirs| - i
  {
    if g.panicked || i >= |dirs| then g
    else
      var g1 := LineRay(g, pos, pos, dirs[i].0, dirs[i].1);
      var r := LineDirs(g1, pos, dirs, i + 1);
      GrowsTransitive(g, g1, r);
      r
  }

  /** `line_moves(pos, dirs)`, and through it `rook_moves`, `bishop_moves` and `queen_moves`. */
  function LineMoves(s: BoardState, pos: Pos, dirs: seq<(int, int)>): (r: Gen)
    requires AllDirections(dirs)
    ensures Grows(Start(s), r)
  {
    LineDirs(Start(s), pos, dirs, 0)
  }

  // ---------------------------------------------------------------------------
  // The king, castling and the "knight"

  /** One candidate of the king or knight loops: a simple turn onto `to`, tried if there is one. */
  function SimpleStep(g: Gen, pos: Pos, to: Pos): (r: Gen)
    ensures Grows(g, r)
    ensures g.panicked ==> r == g
  {
    if g.panicked then g
    else if g.state.squares[pos].None? then Panic(g)
    else match TurnSimple(g.state.squares, pos, to)
      case None => g
      case Some(t) => AddIfLegal(g, t)
  }

  /** The body of `king_moves`' double loop for offset (r, c). */
  function KingStep(g: Gen, pos: Pos, r: int, c: int): (res: Gen)
    ensures Grows(g, res)
    ensures g.panicked ==> res == g
  {
    if r != 0 || c != 0 then
      match Offset(pos, r, c)
      case None => g
      case Some(to) => SimpleStep(g, pos, to)
    else g
  }

  /** The inner loop of `king_moves`: columns c..1 of row offset r. */
  function KingCols(g: Gen, pos: Pos, r: int, c: int): (res: Gen)
    requires -1 <= c <= 2
    ensures Grows(g, res)
    ensures g.panicked ==> res == g
    decreases 2 - c
  {
    if g.panicked || c > 1 then g
    else
      var g1 := KingStep(g, pos, r, c);
      var res := KingCols(g1, pos, r, c + 1);
      GrowsTransitive(g, g1, res);
      res
  }

  /** The outer loop of `king_moves`: row offsets r..1. */
  function KingRows(g: Gen, pos: Pos, r: int): (res: Gen)
    requires -1 <= r <= 2
    ensures Grows(g, res)
    ensures g.panicked ==> res == g
    decreases 2 - r
  {
    if g.panicked || r > 1 then g
    else
      var g1 := KingCols(g, pos, r, -1);
      var res := KingRows(g1, pos, r + 1);
      GrowsTransitive(g, g1, res);
      res
  }

  function Min(a: int, b: int): int { if a < b then a else b }
  function Max(a: int, b: int): int { if a < b then b else a }

  /**
   * The columns `castling_single_move` checks for attacks: from the square next
   * to the king towards the rook, up to (not including) `resCol - col`.
   */
  predicate SquaresAttacked(s: BoardState, row: int, start: int, stop: int, color: Color)
    requires 0 <= row < 8 && 0 <= start && stop <= 8
  {
    exists c | start <= c < stop :: AreAttacking(s.squares, PrevTurn(s.moves), New(row, c), color)
  }

  /** One more column that is not attacked leaves the range unattacked. */
  lemma SquaresAttackedStep(s: BoardState, row: int, start: int, c: int, color: Color)
    requires 0 <= row < 8 && 0 <= start <= c < 8
    requires !SquaresAttacked(s, row, start, c, color)
    requires !AreAttacking(s.squares, PrevTurn(s.moves), New(row, c), color)
    ensures !SquaresAttacked(s, row, start, c + 1, color)
  {
  }

  /** The castling turn: the king to column `resCol`, the rook at `rook` to `resCol - col`. */
  function CastleTurn(kind: PieceType, from: Pos, rook: Pos, col: int, resCol: int): (t: Turn)
    requires 0 <= resCol < 8 && 0 <= resCol - col < 8
    ensures t.from == from && t.to == New(Row(from), resCol)
    ensures t.additionalMove == Some((rook, New(Row(from), resCol - col)))
    ensures t.capture.None? && t.promoteTo.None? && t.promoteFrom.None?
  {
    NewAdditional(kind, (from, New(Row(from), resCol)), (rook, New(Row(from), resCol - col)))
  }

  /**
   * `castling_single_move`: the result's first component says whether the scan
   * goes on.  An empty square goes on; a piece other than an unmoved rook of the
   * king's colour stops it; so does an attacked square between; otherwise the
   * castle is tried and the scan goes on.
   */
  function CastlingSingleMove(g: Gen, newPos: Pos, fromPos: Pos, col: int, resCol: int, row: int): (res: (bool, Gen))
    requires col == 1 || col == -1
    requires 0 <= Col(fromPos) + col < 8 && 0 <= resCol < 8 && 0 <= resCol - col < 8 && 0 <= row < 8
    ensures Grows(g, res.1)
    ensures g.panicked ==> res.1 == g
  {
    if g.panicked then (false, g)
    else match g.state.squares[newPos]
      case None => (true, g)
      case Some(other) =>
        if g.state.squares[fromPos].None? then (false, Panic(g))
        else
          var mover := g.state.squares[fromPos].value;
          if !(other.kind == Rook && other.color == mover.color && other.moveCount == 0) then (false, g)
          else
            var from, to := Col(fromPos) + col, resCol - col;
            if SquaresAttacked(g.state, row, Min(from, to), Max(from, to), Not(mover.color)) then (false, g)
            else (true, AddIfLegal(g, CastleTurn(mover.kind, fromPos, newPos, col, resCol)))
  }

  /** `cur` lies on the king's row, on the `col` side of `from` (or is `from`). */
  predicate OnScan(from: Pos, cur: Pos, col: int)
  {
    Row(cur) == Row(from) && if col == 1 then Col(from) <= Col(cur) else Col(cur) <= Col(from)
  }

  /** The `while let` of `castling_moves` in one direction, from `cur` on. */
  function CastleScan(g: Gen, from: Pos, cur: Pos, col: int, resCol: int): (r: Gen)
    requires col == 1 || col == -1
    requires 0 <= resCol < 8 && 0 <= resCol - col < 8
    requires OnScan(from, cur, col)
    ensures Grows(g, r)
    ensures g.panicked ==> r == g
    decreases Room(cur, 0, col)
  {
    if g.panicked then g
    else match Offset(cur, 0, col)
      case None => g
      case Some(p) =>
        RoomStep(cur, 0, col);
        var (goOn, g1) := CastlingSingleMove(g, p, from, col, resCol, 0);
        if goOn then
          var r := CastleScan(g1, from, p, col, resCol);
          GrowsTransitive(g, g1, r);
          r
        else g1
  }

  /** `castling_moves`: king side (towards column 7, king to 6), then queen side (king to 2). */
  function CastlingMoves(g: Gen, from: Pos): (r: Gen)
    ensures Grows(g, r)
    ensures g.panicked ==> r == g
  {
    var g1 := CastleScan(g, from, from, 1, 6);
    var r := CastleScan(g1, from, from, -1, 2);
    GrowsTransitive(g, g1, r);
    r
  }

  /** `king_moves`: the eight neighbours, then castling for an unmoved king on its home row. */
  function KingMoves(s: BoardState, pos: Pos): (r: Gen)
    ensures Grows(Start(s), r)
  {
    var g := KingRows(Start(s), pos, -1);
    if g.panicked then g
    else if g.state.squares[pos].None? then Panic(g)
    else
      var piece := g.state.squares[pos].value;
      if piece.moveCount == 0 && Row(pos) == Home(piece.color) then
        var r := CastlingMoves(g, pos);
        GrowsTransitive(Start(s), g, r);
        r
      else g
  }

  /** The body of `knight_moves`' loop for entry i of `KNIGHT_MOVES`. */
  function KnightStep(g: Gen, pos: Pos, i: nat): (r: Gen)
    requires i < |KnightMoves|
    ensures Grows(g, r)
    ensures g.panicked ==> r == g
  {
    match Offset(pos, KnightMoves[i].0, KnightMoves[i].1)
    case None => g
    case Some(to) => SimpleStep(g, pos, to)
  }

  /** The loop of `knight_moves` over `KNIGHT_MOVES` from index i on. */
  function KnightSteps(g: Gen, pos: Pos, i: nat): (r: Gen)
    ensures Grows(g, r)
    ensures g.panicked ==> r == g
    decreases |KnightMoves| - i
  {
    if g.panicked || i >= |KnightMoves| then g
    else
      var g1 := KnightStep(g, pos, i);
      var r := KnightSteps(g1, pos, i + 1);
      GrowsTransitive(g, g1, r);
      r
  }

  /** `knight_moves`. */
  function KnightMovesOf(s: BoardState, pos: Pos): (r: Gen)
    ensures Grows(Start(s), r)
  {
    KnightSteps(Start(s), pos, 0)
  }

  // ---------------------------------------------------------------------------
  // Pawns

  /** The body of the loop over `PROMOTABLE_TYPES` for its entry i. */
  function PromotionStep(g: Gen, kind: PieceType, from: Pos, to: Pos, capture: bool, i: nat): (r: Gen)
    requires i < |PromotableTypes|
    ensures Grows(g, r)
    ensures g.panicked ==> r == g
  {
    AddIfLegal(g, NewPromotion(kind, from, to, PromotableTypes[i], capture))
  }

  /** The loop over `PROMOTABLE_TYPES` from index i on: one promotion turn per type. */
  function Promotions(g: Gen, kind: PieceType, from: Pos, to: Pos, capture: bool, i: nat): (r: Gen)
    ensures Grows(g, r)
    ensures g.panicked ==> r == g
    decreases |PromotableTypes| - i
  {
    if g.panicked || i >= |PromotableTypes| then g
    else
      var g1 := PromotionStep(g, kind, from, to, capture, i);
      var r := Promotions(g1, kind, from, to, capture, i + 1);
      GrowsTransitive(g, g1, r);
      r
  }

  /** The first step of `pawn_advance`, one square ahead, as a basic turn or as promotions. */
  function PawnStep(g: Gen, kind: PieceType, color: Color, pos: Pos, ahead: Pos): (r: Gen)
    ensures Grows(g, r)
    ensures g.panicked ==> r == g
  {
    if Row(ahead) == Home(Not(color)) then Promotions(g, kind, pos, ahead, false, 0)
    else AddIfLegal(g, NewBasic(kind, pos, ahead))
  }

  /**
   * `pawn_advance`: one square forward onto an empty square (four promotions
   * onto the opponent's home row), then two squares from row home + direction
   * if that square is empty too.
   */
  function PawnAdvance(g: Gen, pos: Pos): (r: Gen)
    ensures Grows(g, r)
    ensures g.panicked ==> r == g
  {
    if g.panicked then g
    else if g.state.squares[pos].None? then Panic(g)
    else
      var piece := g.state.squares[pos].value;
      var dir := Direction(piece.color);
      match Offset(pos, dir, 0)
      case None => g
      case Some(ahead) =>
        if g.state.squares[ahead].Some? then g
        else
          var g1 := PawnStep(g, piece.kind, piece.color, pos, ahead);
          if Row(pos) == Home(piece.color) + dir then
            match Offset(ahead, dir, 0)
            case None => Panic(g1)
            case Some(twoAhead) =>
              if g1.state.squares[twoAhead].None? then
                var r := AddIfLegal(g1, NewBasic(piece.kind, pos, twoAhead));
                GrowsTransitive(g, g1, r);
                r
              else g1
          else g1
  }

  /**
   * `pawn_capture(pos, cOff)`: a piece of the other colour diagonally ahead is
   * captured; onto its own home row this gives four promotions, each recorded
   * with the captured piece's kind.
   */
  function PawnCapture(g: Gen, pos: Pos, cOff: int): (r: Gen)
    ensures Grows(g, r)
    ensures g.panicked ==> r == g
  {
    if g.panicked then g
    else if g.state.squares[pos].None? then Panic(g)
    else
      var mover := g.state.squares[pos].value;
      match Offset(pos, Direction(mover.color), cOff)
      case None => g
      case Some(target) =>
        match g.state.squares[target]
        case None => g
        case Some(other) =>
          if mover.color == Not(other.color) then
            if Row(target) == Home(other.color) then Promotions(g, other.kind, pos, target, true, 0)
            else AddIfLegal(g, NewCapture(mover.kind, pos, target))
          else g
  }

  /**
   * `pawn_en_passant`: with a target one row ahead and one column aside, the
   * pawn moves to the target and captures on its own row, in the target's column.
   */
  function PawnEnPassant(g: Gen, pos: Pos): (r: Gen)
    ensures Grows(g, r)
    ensures g.panicked ==> r == g
  {
    if g.panicked then g
    else if g.state.squares[pos].None? then Panic(g)
    else
      var mover := g.state.squares[pos].value;
      match g.state.enPassantTarget
      case None => g
      case Some(target) =>
        if Row(pos) + Direction(mover.color) == Row(target) && Abs(Col(pos) - Col(target)) == 1 then
          AddIfLegal(g, NewCaptureComplex(mover.kind, pos, target, New(Row(pos), Col(target))))
        else g
  }

  /** `pawn_moves`: advance, capture to the left, capture to the right, en passant. */
  function PawnMoves(s: BoardState, pos: Pos): (r: Gen)
    ensures Grows(Start(s), r)
  {
    if s.squares[pos].None? then Panic(Start(s))
    else
      var g1 := PawnAdvance(Start(s), pos);
      var g2 := PawnCapture(g1, pos, -1);
      var g3 := PawnCapture(g2, pos, 1);
      var r := PawnEnPassant(g3, pos);
      GrowsTransitive(Start(s), g1, g2);
      GrowsTransitive(Start(s), g2, g3);
      GrowsTransitive(Start(s), g3, r);
      r
  }

  // ---------------------------------------------------------------------------
  // All pieces

  /** `get_piece_moves`: dispatch on the kind of the piece at `pos` (it panics on an empty square). */
  function PieceMoves(s: BoardState, pos: Pos): (r: Gen)
    ensures Grows(Start(s), r)
  {
    match s.squares[pos]
    case None => Panic(Start(s))
    case Some(piece) =>
      match piece.kind
      case King => KingMoves(s, pos)
      case Queen => LineMoves(s, pos, QueenDirections)
      case Rook => LineMoves(s, pos, RookDirections)
      case Bishop => LineMoves(s, pos, BishopDirections)
      case Knight => KnightMovesOf(s, pos)
      case Pawn => PawnMoves(s, pos)
  }

  /** The loop of `do_get_moves` from square i on: the moves of each piece of the side to move, in index order. */
  function DoGetMovesFrom(g: Gen, i: nat): (r: Gen)
    ensures Grows(g, r)
    ensures g.panicked ==> r == g
    decreases 64 - i
  {
    if g.panicked || i >= 64 then g
    else match g.state.squares[i]
      case Some(piece) =>
        if piece.color == g.state.whoseTurn then
          var m := PieceMoves(g.state, i);
          var g1 := Run(g.value + m.value, m.state, m.panicked);
          assert g1.value[..|g.value|] == g.value;
          var r := DoGetMovesFrom(g1, i + 1);
          GrowsTransitive(g, g1, r);
          r
        else DoGetMovesFrom(g, i + 1)
      case None => DoGetMovesFrom(g, i + 1)
  }

  /** `do_get_moves`. */
  function DoGetMoves(s: BoardState): (r: Gen)
    ensures Grows(Start(s), r)
  {
    DoGetMovesFrom(Start(s), 0)
  }

  /** `is_50_move_rule`: the top of the clock stack is at least 100 (the source panics on an empty stack). */
  function FiftyMoveRule(s: BoardState): (r: Run<bool>)
    ensures r.panicked <==> |s.halfMoveClock| == 0
    ensures r.state == s
    ensures !r.panicked ==> (r.value <==> s.halfMoveClock[|s.halfMoveClock| - 1] >= 100)
  {
    if |s.halfMoveClock| == 0 then Run(false, s, true)
    else Run(s.halfMoveClock[|s.halfMoveClock| - 1] >= 100, s, false)
  }

  /** `get_moves`: nothing once the fifty-move rule holds, otherwise `do_get_moves`. */
  function GetMoves(s: BoardState): (r: Gen)
    ensures r.panicked <==> |s.halfMoveClock| == 0 || (s.halfMoveClock[|s.halfMoveClock| - 1] < 100 && DoGetMoves(s).panicked)
    ensures |s.halfMoveClock| >= 1 && s.halfMoveClock[|s.halfMoveClock| - 1] >= 100 ==> r == Start(s)
    ensures |s.halfMoveClock| >= 1 && s.halfMoveClock[|s.halfMoveClock| - 1] < 100 ==> r == DoGetMoves(s)
    ensures Grows(Start(s), r)
  {
    var fifty := FiftyMoveRule(s);
    if fifty.panicked then Panic(Start(s))
    else if fifty.value then Start(s)
    else DoGetMoves(s)
  }
}
