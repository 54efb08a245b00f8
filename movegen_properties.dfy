/**
 * What the generators of src/game/board/moves.rs promise, proved about the
 * functions of `MoveGen`.
 *
 * Soundness: every turn a generator emits passed `is_move_legal` on the board
 * the generation started from, and the board comes back as it was (up to the
 * en-passant target `undo_turn` recomputes).  This holds as long as every
 * candidate turn undoes its own promotion; a pawn's capture-promotion does
 * not (it records the captured piece's kind), which is why the pawn lemmas ask
 * that no pawn of the side to move stands one step before its last row.
 */
module MoveGenProperties {
  import opened Wrappers
  import opened Colors
  import opened Positions
  import opened Pieces
  import opened Turns
  import opened BoardSpec
  import opened Attacks
  import opened MoveGen

  /** `s'` is `s`, or `s` with the en-passant target derived from its history. */
  predicate Settles(s: BoardState, s': BoardState)
  {
    s' == s || s' == s.(enPassantTarget := EpOf(s.moves))
  }

  /** Every turn of `ms` can be tried on `s` and is legal there. */
  predicate AllLegal(s: BoardState, ms: seq<Turn>)
  {
    forall k | 0 <= k < |ms| :: CanTest(s, ms[k]) && Legal(s, ms[k])
  }

  /** A run that generation from `s` can reach: the board settles back to `s` and only legal turns are listed. */
  predicate Sound(s: BoardState, g: Gen)
  {
    g.panicked || (Settles(s, g.state) && AllLegal(s, g.value))
  }

  /** The turn undoes its own promotion on `s` (vacuous when `from` is empty). */
  predicate Undoes(s: BoardState, t: Turn)
  {
    s.squares[t.from].Some? ==> PromotionUndoes(s, t)
  }

  /** `make_turn` overwrites the en-passant target, so it does not matter what it was. */
  lemma MakeIgnoresTarget(s: BoardState, e: Option<Pos>, t: Turn)
    ensures MakeTurnPre(s.(enPassantTarget := e), t) == MakeTurnPre(s, t)
    ensures MakeTurnPre(s, t) ==> MakeTurn(s.(enPassantTarget := e), t) == MakeTurn(s, t)
    ensures CanTest(s.(enPassantTarget := e), t) == CanTest(s, t)
    ensures CanTest(s, t) ==> Legal(s.(enPassantTarget := e), t) == Legal(s, t)
  {}

  /** Make then undo of a self-undoing turn on a sound clock gives back `s`, whatever its target was, with the derived target. */
  lemma RestoredSettles(s: BoardState, e: Option<Pos>, t: Turn)
    requires MakeTurnPre(s, t) && ClockOk(s) && PromotionUndoes(s, t)
    ensures Restored(s.(enPassantTarget := e), t) == s.(enPassantTarget := EpOf(s.moves))
  {
    ClockRoundTrip(s.halfMoveClock, t);
    assert s.squares[t.from := s.squares[t.from]] == s.squares;
  }

  /**
   * One `add_move_if_legal` keeps a sound run sound: the turn is listed only
   * when legal on `s`, and the board it leaves still settles to `s`.
   */
  lemma AddSound(s: BoardState, g: Gen, t: Turn)
    requires ClockOk(s) && Sound(s, g) && Undoes(s, t)
    ensures Sound(s, AddIfLegal(g, t))
  {
    var r := AddIfLegal(g, t);
    if !g.panicked && !r.panicked {
      var e := g.state.enPassantTarget;
      assert g.state == s.(enPassantTarget := e);
      MakeIgnoresTarget(s, e, t);
      assert CanTest(s, t);
      RestoredSettles(s, e, t);
      assert r.state == s.(enPassantTarget := EpOf(s.moves));
      if Legal(s, t) {
        assert r.value == g.value + [t];
        AllLegalAppend(s, g.value, [t]);
      } else {
        assert r.value == g.value;
      }
    }
  }

  /** A turn without promotion fields undoes itself. */
  lemma PlainUndoes(s: BoardState, t: Turn)
    requires t.promoteTo.None? && t.promoteFrom.None?
    ensures Undoes(s, t)
  {}

  // ---------------------------------------------------------------------------
  // Sliding pieces

  lemma {:induction false} LineRaySound(s: BoardState, g: Gen, pos: Pos, cur: Pos, dr: int, dc: int)
    requires IsDirection(dr, dc) && ClockOk(s) && Sound(s, g)
    ensures Sound(s, LineRay(g, pos, cur, dr, dc))
    decreases Room(cur, dr, dc)
  {
    if !g.panicked {
      match Offset(cur, dr, dc)
      case None =>
      case Some(q) =>
        RoomStep(cur, dr, dc);
        if g.state.squares[pos].Some? {
          match TurnSimple(g.state.squares, pos, q)
          case None =>
          case Some(t) =>
            PlainUndoes(s, t);
            AddSound(s, g, t);
            if t.capture.None? {
              LineRaySound(s, AddIfLegal(g, t), pos, q, dr, dc);
            }
        }
    }
  }

  lemma {:induction false} LineDirsSound(s: BoardState, g: Gen, pos: Pos, dirs: seq<(int, int)>, i: nat)
    requires AllDirections(dirs) && ClockOk(s) && Sound(s, g)
    ensures Sound(s, LineDirs(g, pos, dirs, i))
    decreases |dirs| - i
  {
    if !g.panicked && i < |dirs| {
      LineRaySound(s, g, pos, pos, dirs[i].0, dirs[i].1);
      LineDirsSound(s, LineRay(g, pos, pos, dirs[i].0, dirs[i].1), pos, dirs, i + 1);
    }
  }

  /** `line_moves` (rook, bishop, queen) lists only legal turns and leaves the board as it found it. */
  lemma LineMovesSound(s: BoardState, s': BoardState, pos: Pos, dirs: seq<(int, int)>)
    requires AllDirections(dirs) && ClockOk(s) && Settles(s, s')
    ensures Sound(s, LineMoves(s', pos, dirs))
  {
    LineDirsSound(s, Start(s'), pos, dirs, 0);
  }

  // ---------------------------------------------------------------------------
  // King, castling, "knight"

  lemma SimpleStepSound(s: BoardState, g: Gen, pos: Pos, to: Pos)
    requires ClockOk(s) && Sound(s, g)
    ensures Sound(s, SimpleStep(g, pos, to))
  {
    if !g.panicked && g.state.squares[pos].Some? {
      match TurnSimple(g.state.squares, pos, to)
      case None =>
      case Some(t) =>
        PlainUndoes(s, t);
        AddSound(s, g, t);
    }
  }

  lemma {:induction false} KingColsSound(s: BoardState, g: Gen, pos: Pos, r: int, c: int)
    requires -1 <= c <= 2 && ClockOk(s) && Sound(s, g)
    ensures Sound(s, KingCols(g, pos, r, c))
    decreases 2 - c
  {
    if !g.panicked && c <= 1 {
      KingStepSound(s, g, pos, r, c);
      KingColsSound(s, KingStep(g, pos, r, c), pos, r, c + 1);
    }
  }

  /** One offset of the king's double loop keeps soundness. */
  lemma KingStepSound(s: BoardState, g: Gen, pos: Pos, r: int, c: int)
    requires ClockOk(s) && Sound(s, g)
    ensures Sound(s, KingStep(g, pos, r, c))
  {
    if (r != 0 || c != 0) && Offset(pos, r, c).Some? {
      SimpleStepSound(s, g, pos, Offset(pos, r, c).value);
    }
  }

  lemma {:induction false} KingRowsSound(s: BoardState, g: Gen, pos: Pos, r: int)
    requires -1 <= r <= 2 && ClockOk(s) && Sound(s, g)
    ensures Sound(s, KingRows(g, pos, r))
    decreases 2 - r
  {
    if !g.panicked && r <= 1 {
      KingColsSound(s, g, pos, r, -1);
      KingRowsSound(s, KingCols(g, pos, r, -1), pos, r + 1);
    }
  }

  lemma CastlingSingleMoveSound(s: BoardState, g: Gen, newPos: Pos, fromPos: Pos, col: int, resCol: int, row: int)
    requires col == 1 || col == -1
    requires 0 <= Col(fromPos) + col < 8 && 0 <= resCol < 8 && 0 <= resCol - col < 8 && 0 <= row < 8
    requires ClockOk(s) && Sound(s, g)
    ensures Sound(s, CastlingSingleMove(g, newPos, fromPos, col, resCol, row).1)
  {
    if !g.panicked && g.state.squares[newPos].Some? && g.state.squares[fromPos].Some? {
      var mover := g.state.squares[fromPos].value;
      var t := CastleTurn(mover.kind, fromPos, newPos, col, resCol);
      PlainUndoes(s, t);
      AddSound(s, g, t);
    }
  }

  lemma {:induction false} CastleScanSound(s: BoardState, g: Gen, from: Pos, cur: Pos, col: int, resCol: int)
    requires col == 1 || col == -1
    requires 0 <= resCol < 8 && 0 <= resCol - col < 8
    requires OnScan(from, cur, col)
    requires ClockOk(s) && Sound(s, g)
    ensures Sound(s, CastleScan(g, from, cur, col, resCol))
    decreases Room(cur, 0, col)
  {
    if !g.panicked {
      match Offset(cur, 0, col)
      case None =>
      case Some(p) =>
        RoomStep(cur, 0, col);
        CastlingSingleMoveSound(s, g, p, from, col, resCol, 0);
        var (goOn, g1) := CastlingSingleMove(g, p, from, col, resCol, 0);
        if goOn {
          CastleScanSound(s, g1, from, p, col, resCol);
        }
    }
  }

  /** `king_moves` lists only legal turns and leaves the board as it found it. */
  lemma KingMovesSound(s: BoardState, s': BoardState, pos: Pos)
    requires ClockOk(s) && Settles(s, s')
    ensures Sound(s, KingMoves(s', pos))
  {
    KingRowsSound(s, Start(s'), pos, -1);
    var g := KingRows(Start(s'), pos, -1);
    if !g.panicked && g.state.squares[pos].Some? {
      CastleScanSound(s, g, pos, pos, 1, 6);
      CastleScanSound(s, CastleScan(g, pos, pos, 1, 6), pos, pos, -1, 2);
    }
  }

  lemma {:induction false} KnightStepsSound(s: BoardState, g: Gen, pos: Pos, i: nat)
    requires ClockOk(s) && Sound(s, g)
    ensures Sound(s, KnightSteps(g, pos, i))
    decreases |KnightMoves| - i
  {
    if !g.panicked && i < |KnightMoves| {
      var o := Offset(pos, KnightMoves[i].0, KnightMoves[i].1);
      if o.Some? {
        SimpleStepSound(s, g, pos, o.value);
      }
      KnightStepsSound(s, KnightStep(g, pos, i), pos, i + 1);
    }
  }

  /** `knight_moves` lists only legal turns and leaves the board as it found it. */
  lemma KnightMovesSound(s: BoardState, s': BoardState, pos: Pos)
    requires ClockOk(s) && Settles(s, s')
    ensures Sound(s, KnightMovesOf(s', pos))
  {
    KnightStepsSound(s, Start(s'), pos, 0);
  }

  // ---------------------------------------------------------------------------
  // Pawns

  /** The pawn at `pos`, if any, is not one step before its last row, so it has no capture-promotion. */
  predicate NotBeforeLastRow(s: BoardState, pos: Pos)
  {
    s.squares[pos].Some? ==>
      var p := s.squares[pos].value;
      Row(pos) + Direction(p.color) != Home(Not(p.color))
  }

  lemma {:induction false} PromotionsSound(s: BoardState, g: Gen, kind: PieceType, from: Pos, to: Pos, capture: bool, i: nat)
    requires ClockOk(s) && Sound(s, g)
    requires s.squares[from].Some? ==> s.squares[from].value.kind == kind
    ensures Sound(s, Promotions(g, kind, from, to, capture, i))
    decreases |PromotableTypes| - i
  {
    if !g.panicked && i < |PromotableTypes| {
      var g1 := PromotionStep(g, kind, from, to, capture, i);
      assert Promotions(g, kind, from, to, capture, i) == Promotions(g1, kind, from, to, capture, i + 1);
      AddSound(s, g, NewPromotion(kind, from, to, PromotableTypes[i], capture));
      PromotionsSound(s, g1, kind, from, to, capture, i + 1);
    }
  }

  /** The first step of `pawn_advance` keeps soundness. */
  lemma PawnStepSound(s: BoardState, g: Gen, kind: PieceType, color: Color, pos: Pos, ahead: Pos)
    requires ClockOk(s) && Sound(s, g)
    requires s.squares[pos].Some? ==> s.squares[pos].value.kind == kind
    ensures Sound(s, PawnStep(g, kind, color, pos, ahead))
  {
    if Row(ahead) == Home(Not(color)) {
      PromotionsSound(s, g, kind, pos, ahead, false, 0);
    } else {
      AddSound(s, g, NewBasic(kind, pos, ahead));
    }
  }

  lemma PawnAdvanceSound(s: BoardState, g: Gen, pos: Pos)
    requires ClockOk(s) && Sound(s, g)
    ensures Sound(s, PawnAdvance(g, pos))
  {
    if !g.panicked && s.squares[pos].Some? {
      var piece := s.squares[pos].value;
      var dir := Direction(piece.color);
      match Offset(pos, dir, 0)
      case None =>
      case Some(ahead) =>
        var g1 := PawnStep(g, piece.kind, piece.color, pos, ahead);
        PawnStepSound(s, g, piece.kind, piece.color, pos, ahead);
        match Offset(ahead, dir, 0)
        case None =>
        case Some(twoAhead) =>
          AddSound(s, g1, NewBasic(piece.kind, pos, twoAhead));
    }
  }

  lemma PawnCaptureSound(s: BoardState, g: Gen, pos: Pos, cOff: int)
    requires ClockOk(s) && Sound(s, g) && NotBeforeLastRow(s, pos)
    ensures Sound(s, PawnCapture(g, pos, cOff))
  {
    if !g.panicked && g.state.squares[pos].Some? {
      var mover := g.state.squares[pos].value;
      match Offset(pos, Direction(mover.color), cOff)
      case None =>
      case Some(target) =>
        match g.state.squares[target]
        case None =>
        case Some(other) =>
          AddSound(s, g, NewCapture(mover.kind, pos, target));
    }
  }

  lemma PawnEnPassantSound(s: BoardState, g: Gen, pos: Pos)
    requires ClockOk(s) && Sound(s, g)
    ensures Sound(s, PawnEnPassant(g, pos))
  {
    if !g.panicked && g.state.squares[pos].Some? && g.state.enPassantTarget.Some? {
      var mover := g.state.squares[pos].value;
      var target := g.state.enPassantTarget.value;
      AddSound(s, g, NewCaptureComplex(mover.kind, pos, target, New(Row(pos), Col(target))));
    }
  }

  /** `pawn_moves` lists only legal turns and leaves the board as it found it, away from the capture-promotion row. */
  lemma PawnMovesSound(s: BoardState, s': BoardState, pos: Pos)
    requires ClockOk(s) && Settles(s, s') && NotBeforeLastRow(s, pos)
    ensures Sound(s, PawnMoves(s', pos))
  {
    if s'.squares[pos].Some? {
      var g1 := PawnAdvance(Start(s'), pos);
      var g2 := PawnCapture(g1, pos, -1);
      var g3 := PawnCapture(g2, pos, 1);
      PawnAdvanceSound(s, Start(s'), pos);
      PawnCaptureSound(s, g1, pos, -1);
      PawnCaptureSound(s, g2, pos, 1);
      PawnEnPassantSound(s, g3, pos);
    }
  }

  // ---------------------------------------------------------------------------
  // All pieces

  /** No pawn of the side to move stands one step before its last row. */
  predicate NoPawnBeforeLastRow(s: BoardState)
  {
    forall i: Pos :: s.squares[i].Some? && s.squares[i].value.kind == Pawn && s.squares[i].value.color == s.whoseTurn ==>
                       NotBeforeLastRow(s, i)
  }

  lemma PieceMovesSound(s: BoardState, s': BoardState, pos: Pos)
    requires ClockOk(s) && Settles(s, s')
    requires s.squares[pos].Some? && s.squares[pos].value.kind == Pawn ==> NotBeforeLastRow(s, pos)
    ensures Sound(s, PieceMoves(s', pos))
  {
    match s'.squares[pos]
    case None =>
    case Some(piece) =>
      DirectionTables();
      match piece.kind
      case King => KingMovesSound(s, s', pos);
      case Queen => LineMovesSound(s, s', pos, QueenDirections);
      case Rook => LineMovesSound(s, s', pos, RookDirections);
      case Bishop => LineMovesSound(s, s', pos, BishopDirections);
      case Knight => KnightMovesSound(s, s', pos);
      case Pawn => PawnMovesSound(s, s', pos);
  }

  lemma AllLegalAppend(s: BoardState, a: seq<Turn>, b: seq<Turn>)
    requires AllLegal(s, a) && AllLegal(s, b)
    ensures AllLegal(s, a + b)
  {
    forall k | 0 <= k < |a + b|
      ensures CanTest(s, (a + b)[k]) && Legal(s, (a + b)[k])
    {
      if k < |a| {
        assert (a + b)[k] == a[k];
      } else {
        assert (a + b)[k] == b[k - |a|];
      }
    }
  }

  lemma {:induction false} DoGetMovesFromSound(s: BoardState, g: Gen, i: nat)
    requires ClockOk(s) && NoPawnBeforeLastRow(s) && Sound(s, g)
    ensures Sound(s, DoGetMovesFrom(g, i))
    decreases 64 - i
  {
    if !g.panicked && i < 64 {
      match g.state.squares[i]
      case Some(piece) =>
        if piece.color == g.state.whoseTurn {
          var m := PieceMoves(g.state, i);
          PieceMovesSound(s, g.state, i);
          var g1 := Run(g.value + m.value, m.state, m.panicked);
          if !m.panicked {
            AllLegalAppend(s, g.value, m.value);
          }
          DoGetMovesFromSound(s, g1, i + 1);
        } else {
          DoGetMovesFromSound(s, g, i + 1);
        }
      case None =>
        DoGetMovesFromSound(s, g, i + 1);
    }
  }

  /**
   * Every turn `get_moves` returns passed `is_move_legal` on the board it was
   * called on, and the board comes back unchanged when its en-passant target is
   * the one the history gives; this needs a sound clock and no pawn of the side
   * to move one step before its last row.
   */
  lemma GetMovesSound(s: BoardState)
    requires ClockOk(s) && NoPawnBeforeLastRow(s)
    ensures !GetMoves(s).panicked ==> AllLegal(s, GetMoves(s).value)
    ensures !GetMoves(s).panicked && s.enPassantTarget == EpOf(s.moves) ==> GetMoves(s).state == s
  {
    DoGetMovesFromSound(s, Start(s), 0);
  }
}
