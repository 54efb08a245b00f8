/**
 * Which turns the generators of src/game/board/moves.rs can list: where each
 * kind of piece may go, proved about the functions of `MoveGen`.  As in
 * `MoveGenProperties`, the run starts from a board `s` and every candidate is
 * tried with make/undo, so these lemmas carry the soundness invariant along.
 */
module MoveGenShapes {
  import opened Wrappers
  import opened Colors
  import opened Positions
  import opened Pieces
  import opened Turns
  import opened BoardSpec
  import opened Attacks
  import opened MoveGen
  import opened MoveGenProperties

  /** The turns `r` lists beyond those of `g`. */
  function Added(g: Gen, r: Gen): (ts: seq<Turn>)
    requires |g.value| <= |r.value|
    ensures |ts| == |r.value| - |g.value|
    ensures forall k | 0 <= k < |ts| :: ts[k] == r.value[|g.value| + k]
  {
    r.value[|g.value|..]
  }

  /** What a run adds in two stages is what each stage adds. */
  lemma AddedConcat(g: Gen, g1: Gen, r: Gen)
    requires Grows(g, g1) && Grows(g1, r)
    ensures |g.value| <= |r.value|
    ensures Added(g, r) == Added(g, g1) + Added(g1, r)
  {
    assert r.value[..|g1.value|] == g1.value;
    assert r.value[|g.value|..] == r.value[..|g1.value|][|g.value|..] + r.value[|g1.value|..];
  }

  /** A property every turn of both stages has holds of every turn the whole run adds. */
  lemma AddedJoin(g: Gen, g1: Gen, r: Gen, P: Turn -> bool)
    requires Grows(g, g1) && Grows(g1, r)
    requires forall u <- Added(g, g1) :: P(u)
    requires forall u <- Added(g1, r) :: P(u)
    ensures |g.value| <= |r.value|
    ensures forall u <- Added(g, r) :: P(u)
  {
    AddedConcat(g, g1, r);
  }

  /** `add_move_if_legal` adds `t` or nothing. */
  lemma AddedByAdd(g: Gen, t: Turn)
    requires !AddIfLegal(g, t).panicked
    ensures |Added(g, AddIfLegal(g, t))| <= 1
    ensures forall u <- Added(g, AddIfLegal(g, t)) :: u == t
  {
    var r := AddIfLegal(g, t);
    AppendedAtMostOne(g.value, r.value, t, Legal(g.state, t));
  }

  lemma AppendedAtMostOne(before: seq<Turn>, after: seq<Turn>, t: Turn, added: bool)
    requires after == before + (if added then [t] else [])
    ensures |before| <= |after| && |after[|before|..]| <= 1
    ensures forall u <- after[|before|..] :: u == t
  {
    assert after[|before|..] == (if added then [t] else []);
  }

  // ---------------------------------------------------------------------------
  // Sliding pieces

  /**
   * `t` is the simple turn from `pos` onto a square of the ray from `cur` in
   * direction (dr, dc), and every square of the ray before it is empty.
   */
  predicate OnLine(sq: Squares, pos: Pos, cur: Pos, dr: int, dc: int, t: Turn)
    requires IsDirection(dr, dc)
  {
    sq[pos].Some? &&
    exists k | 0 <= k < |Ray(cur, dr, dc)| ::
      Ray(cur, dr, dc)[k] == t.to &&
      (forall j | 0 <= j < k :: sq[Ray(cur, dr, dc)[j]].None?) &&
      TurnSimple(sq, pos, t.to) == Some(t)
  }

  /** A turn on the ray beyond an empty first square is on the ray from the square before. */
  lemma OnLineStep(sq: Squares, pos: Pos, cur: Pos, dr: int, dc: int, t: Turn)
    requires IsDirection(dr, dc) && Offset(cur, dr, dc).Some?
    requires sq[Offset(cur, dr, dc).value].None?
    requires OnLine(sq, pos, Offset(cur, dr, dc).value, dr, dc, t)
    ensures OnLine(sq, pos, cur, dr, dc, t)
  {
    var q := Offset(cur, dr, dc).value;
    RoomStep(cur, dr, dc);
    var ray := Ray(cur, dr, dc);
    assert ray == [q] + Ray(q, dr, dc);
    var k :| 0 <= k < |Ray(q, dr, dc)| && Ray(q, dr, dc)[k] == t.to &&
             (forall j | 0 <= j < k :: sq[Ray(q, dr, dc)[j]].None?) && TurnSimple(sq, pos, t.to) == Some(t);
    assert ray[k + 1] == t.to;
    forall j | 0 <= j < k + 1
      ensures sq[ray[j]].None?
    {
      if j > 0 {
        assert ray[j] == Ray(q, dr, dc)[j - 1];
      }
    }
  }

  /**
   * The `while let` of `line_moves` lists only turns along its ray, up to the
   * first piece: past empty squares, onto an empty square or an enemy piece.
   */
  lemma {:induction false} LineRayShape(s: BoardState, g: Gen, pos: Pos, cur: Pos, dr: int, dc: int)
    requires IsDirection(dr, dc) && ClockOk(s) && Sound(s, g)
    ensures var r := LineRay(g, pos, cur, dr, dc);
            !r.panicked ==> forall t <- Added(g, r) :: OnLine(s.squares, pos, cur, dr, dc, t)
    decreases Room(cur, dr, dc)
  {
    var r := LineRay(g, pos, cur, dr, dc);
    if !g.panicked && !r.panicked {
      match Offset(cur, dr, dc)
      case None =>
      case Some(q) =>
        assert g.state.squares == s.squares;
        if g.state.squares[pos].Some? {
          match TurnSimple(g.state.squares, pos, q)
          case None =>
          case Some(t) =>
            var g1 := AddIfLegal(g, t);
            LineHeadShape(s, g, pos, cur, dr, dc, q, t);
            if t.capture.None? {
              RoomStep(cur, dr, dc);
              assert r == LineRay(g1, pos, q, dr, dc);
              LineRayShape(s, g1, pos, q, dr, dc);
              forall u <- Added(g1, r)
                ensures OnLine(s.squares, pos, cur, dr, dc, u)
              {
                OnLineStep(s.squares, pos, cur, dr, dc, u);
              }
              AddedJoin(g, g1, r, u => OnLine(s.squares, pos, cur, dr, dc, u));
            }
        }
    }
  }

  /**
   * The first square of the ray: the simple turn onto it is on the line, and
   * when it captures nothing the run stays sound for the rest of the ray.
   */
  lemma LineHeadShape(s: BoardState, g: Gen, pos: Pos, cur: Pos, dr: int, dc: int, q: Pos, t: Turn)
    requires IsDirection(dr, dc) && ClockOk(s) && Sound(s, g) && !g.panicked
    requires Offset(cur, dr, dc) == Some(q) && s.squares[pos].Some? && TurnSimple(s.squares, pos, q) == Some(t)
    ensures var g1 := AddIfLegal(g, t);
            (!g1.panicked ==> forall u <- Added(g, g1) :: OnLine(s.squares, pos, cur, dr, dc, u)) &&
            (t.capture.None? ==> Sound(s, g1))
  {
    RoomStep(cur, dr, dc);
    assert Ray(cur, dr, dc)[0] == q;
    assert OnLine(s.squares, pos, cur, dr, dc, t);
    if !AddIfLegal(g, t).panicked {
      AddedByAdd(g, t);
    }
    if t.capture.None? {
      PlainUndoes(s, t);
      AddSound(s, g, t);
    }
  }

  /** `t` lies on one of the rays of `dirs` from `pos`. */
  predicate OnSomeLine(sq: Squares, pos: Pos, dirs: seq<(int, int)>, t: Turn)
    requires AllDirections(dirs)
  {
    exists i | 0 <= i < |dirs| :: OnLine(sq, pos, pos, dirs[i].0, dirs[i].1, t)
  }

  lemma {:induction false} LineDirsShape(s: BoardState, g: Gen, pos: Pos, dirs: seq<(int, int)>, i: nat)
    requires AllDirections(dirs) && ClockOk(s) && Sound(s, g)
    ensures var r := LineDirs(g, pos, dirs, i);
            !r.panicked ==> forall t <- Added(g, r) :: OnSomeLine(s.squares, pos, dirs, t)
    decreases |dirs| - i
  {
    var r := LineDirs(g, pos, dirs, i);
    if !g.panicked && i < |dirs| && !r.panicked {
      var g1 := LineRay(g, pos, pos, dirs[i].0, dirs[i].1);
      LineRayShape(s, g, pos, pos, dirs[i].0, dirs[i].1);
      LineRaySound(s, g, pos, pos, dirs[i].0, dirs[i].1);
      LineDirsShape(s, g1, pos, dirs, i + 1);
      AddedConcat(g, g1, r);
    }
  }

  /**
   * `rook_moves`, `bishop_moves` and `queen_moves` list only turns along one of
   * their directions, stopping at the first occupied square.
   */
  lemma LineMovesShape(s: BoardState, pos: Pos, dirs: seq<(int, int)>)
    requires AllDirections(dirs) && ClockOk(s)
    ensures var r := LineMoves(s, pos, dirs);
            !r.panicked ==> forall t <- r.value :: OnSomeLine(s.squares, pos, dirs, t)
  {
    LineDirsShape(s, Start(s), pos, dirs, 0);
    assert Added(Start(s), LineMoves(s, pos, dirs)) == LineMoves(s, pos, dirs).value;
  }

  // ---------------------------------------------------------------------------
  // The king, castling and the "knight"

  /** `t` is the simple turn from `pos` onto a different square at most one row and one column away. */
  predicate Neighbour(sq: Squares, pos: Pos, t: Turn)
  {
    sq[pos].Some? && t.to != pos &&
    Abs(Row(t.to) - Row(pos)) <= 1 && Abs(Col(t.to) - Col(pos)) <= 1 &&
    TurnSimple(sq, pos, t.to) == Some(t)
  }

  /** `SimpleStep` adds only the simple turn onto `to`. */
  lemma SimpleStepShape(s: BoardState, g: Gen, pos: Pos, to: Pos)
    requires Sound(s, g)
    ensures var r := SimpleStep(g, pos, to);
            !r.panicked ==> forall t <- Added(g, r) :: s.squares[pos].Some? && t.to == to && TurnSimple(s.squares, pos, to) == Some(t)
  {
    if !g.panicked && g.state.squares[pos].Some? {
      match TurnSimple(g.state.squares, pos, to)
      case None =>
      case Some(t) =>
        if !AddIfLegal(g, t).panicked {
          AddedByAdd(g, t);
        }
    }
  }

  /** One offset of the king's double loop adds only a neighbouring step, and keeps soundness. */
  lemma KingStepShape(s: BoardState, g: Gen, pos: Pos, r: int, c: int)
    requires -1 <= r <= 1 && -1 <= c <= 1 && Sound(s, g)
    ensures var g1 := KingStep(g, pos, r, c);
            !g1.panicked ==> forall t <- Added(g, g1) :: Neighbour(s.squares, pos, t)
  {
    if (r != 0 || c != 0) && Offset(pos, r, c).Some? {
      var to := Offset(pos, r, c).value;
      var g1 := SimpleStep(g, pos, to);
      assert KingStep(g, pos, r, c) == g1;
      SimpleStepShape(s, g, pos, to);
      if !g1.panicked {
        ToNeighbours(s.squares, pos, to, Added(g, g1));
      }
    } else {
      assert KingStep(g, pos, r, c) == g;
      assert Added(g, g) == [];
    }
  }

  /** Simple turns from `pos` onto an adjacent square `to` are neighbouring steps. */
  lemma ToNeighbours(sq: Squares, pos: Pos, to: Pos, ts: seq<Turn>)
    requires to != pos && Abs(Row(to) - Row(pos)) <= 1 && Abs(Col(to) - Col(pos)) <= 1
    requires forall t <- ts :: sq[pos].Some? && t.to == to && TurnSimple(sq, pos, to) == Some(t)
    ensures forall t <- ts :: Neighbour(sq, pos, t)
  {
  }

  lemma {:induction false} KingColsShape(s: BoardState, g: Gen, pos: Pos, r: int, c: int)
    requires -1 <= r <= 1 && -1 <= c <= 2 && ClockOk(s) && Sound(s, g)
    ensures var res := KingCols(g, pos, r, c);
            !res.panicked ==> forall t <- Added(g, res) :: Neighbour(s.squares, pos, t)
    decreases 2 - c
  {
    var res := KingCols(g, pos, r, c);
    if !g.panicked && c <= 1 && !res.panicked {
      var g1 := KingStep(g, pos, r, c);
      KingStepShape(s, g, pos, r, c);
      KingStepSound(s, g, pos, r, c);
      KingColsShape(s, g1, pos, r, c + 1);
      AddedConcat(g, g1, res);
    }
  }

  lemma {:induction false} KingRowsShape(s: BoardState, g: Gen, pos: Pos, r: int)
    requires -1 <= r <= 2 && ClockOk(s) && Sound(s, g)
    ensures var res := KingRows(g, pos, r);
            !res.panicked ==> forall t <- Added(g, res) :: Neighbour(s.squares, pos, t)
    decreases 2 - r
  {
    var res := KingRows(g, pos, r);
    if !g.panicked && r <= 1 && !res.panicked {
      var g1 := KingCols(g, pos, r, -1);
      KingColsShape(s, g, pos, r, -1);
      KingColsSound(s, g, pos, r, -1);
      KingRowsShape(s, g1, pos, r + 1);
      AddedConcat(g, g1, res);
    }
  }

  /** The square `p` lets the castling scan go on: it is empty or holds an unmoved rook of the colour of the piece at `from`. */
  predicate Passes(s: BoardState, from: Pos, p: Pos)
    requires s.squares[from].Some?
  {
    s.squares[p].None? || s.squares[p] == Some(Piece(Rook, s.squares[from].value.color, 0))
  }

  /** Column c lies strictly between columns a and b, walking from a in direction col. */
  predicate Between(a: int, c: int, b: int, col: int)
  {
    if col == 1 then a < c < b else b < c < a
  }

  /** The castling scan passes every square of the king's row strictly between `cur` and `rook`. */
  predicate ScanPasses(s: BoardState, from: Pos, cur: Pos, rook: Pos, col: int)
    requires s.squares[from].Some?
  {
    forall p: Pos :: Row(p) == Row(from) && Between(Col(cur), Col(p), Col(rook), col) ==> Passes(s, from, p)
  }

  /**
   * Castling with the rook at `rook`: an unmoved rook of the colour of the
   * piece at `from`, on its row to the `col` side, the king to column `resCol`
   * and the rook next to it on the inner side, with none of the columns between
   * the king's neighbour and the rook's new square attacked on row 0.
   */
  predicate CastleVia(s: BoardState, from: Pos, rook: Pos, col: int, resCol: int, t: Turn)
    requires col == 1 || col == -1
    requires 0 <= resCol < 8 && 0 <= resCol - col < 8
  {
    s.squares[from].Some? && 0 <= Col(from) + col < 8 &&
    OnScan(from, rook, col) && rook != from &&
    var mover := s.squares[from].value;
    s.squares[rook] == Some(Piece(Rook, mover.color, 0)) &&
    t == CastleTurn(mover.kind, from, rook, col, resCol) &&
    var a, b := Col(from) + col, resCol - col;
    !SquaresAttacked(s, 0, Min(a, b), Max(a, b), Not(mover.color))
  }

  /**
   * `t` castles the piece at `from` with some rook on its `col` side that the
   * scan of `castling_moves` reaches: every square between them is empty or
   * holds an unmoved rook of the same colour.
   */
  predicate CastleOn(s: BoardState, from: Pos, col: int, resCol: int, t: Turn)
    requires col == 1 || col == -1
    requires 0 <= resCol < 8 && 0 <= resCol - col < 8
  {
    exists rook: Pos :: CastleVia(s, from, rook, col, resCol, t) && ScanPasses(s, from, from, rook, col)
  }

  lemma CastlingSingleMoveShape(s: BoardState, g: Gen, newPos: Pos, fromPos: Pos, col: int, resCol: int)
    requires col == 1 || col == -1
    requires 0 <= Col(fromPos) + col < 8 && 0 <= resCol < 8 && 0 <= resCol - col < 8
    requires OnScan(fromPos, newPos, col) && newPos != fromPos && Sound(s, g)
    requires s.squares[fromPos].Some? ==> ScanPasses(s, fromPos, fromPos, newPos, col)
    ensures var r := CastlingSingleMove(g, newPos, fromPos, col, resCol, 0).1;
            !r.panicked ==> forall t <- Added(g, r) :: CastleOn(s, fromPos, col, resCol, t)
  {
    var r := CastlingSingleMove(g, newPos, fromPos, col, resCol, 0).1;
    if !g.panicked && !r.panicked && g.state.squares[newPos].Some? && g.state.squares[fromPos].Some? {
      var mover := g.state.squares[fromPos].value;
      var t := CastleTurn(mover.kind, fromPos, newPos, col, resCol);
      if r != g {
        assert r == AddIfLegal(g, t);
        AddedByAdd(g, t);
        CastleWitness(s, fromPos, newPos, col, resCol, t);
      }
    }
  }

  /** A castle with the rook at `rook` that `castling_single_move` accepts, reached by the scan, is a `CastleOn`. */
  lemma CastleWitness(s: BoardState, from: Pos, rook: Pos, col: int, resCol: int, t: Turn)
    requires col == 1 || col == -1
    requires 0 <= Col(from) + col < 8 && 0 <= resCol < 8 && 0 <= resCol - col < 8
    requires OnScan(from, rook, col) && rook != from && s.squares[from].Some?
    requires s.squares[rook] == Some(Piece(Rook, s.squares[from].value.color, 0))
    requires t == CastleTurn(s.squares[from].value.kind, from, rook, col, resCol)
    requires var a, b := Col(from) + col, resCol - col;
             !SquaresAttacked(s, 0, Min(a, b), Max(a, b), Not(s.squares[from].value.color))
    requires ScanPasses(s, from, from, rook, col)
    ensures CastleOn(s, from, col, resCol, t)
  {
    assert CastleVia(s, from, rook, col, resCol, t);
  }

  /** The square after `cur` is reached when every square up to and including `cur` passes. */
  lemma ScanPassesStep(s: BoardState, from: Pos, cur: Pos, p: Pos, col: int)
    requires col == 1 || col == -1
    requires s.squares[from].Some? && OnScan(from, cur, col) && Offset(cur, 0, col) == Some(p)
    requires ScanPasses(s, from, from, cur, col) && (cur != from ==> Passes(s, from, cur))
    ensures ScanPasses(s, from, from, p, col)
  {
    forall q: Pos | Row(q) == Row(from) && Between(Col(from), Col(q), Col(p), col)
      ensures Passes(s, from, q)
    {
      if Col(q) == Col(cur) {
        RowColInjective(q, cur);
      } else {
        assert Between(Col(from), Col(q), Col(cur), col);
      }
    }
  }

  /** `castling_single_move` goes on only past a square that passes. */
  lemma CastleGoOnPasses(s: BoardState, g: Gen, p: Pos, from: Pos, col: int, resCol: int)
    requires col == 1 || col == -1
    requires 0 <= Col(from) + col < 8 && 0 <= resCol < 8 && 0 <= resCol - col < 8
    requires Sound(s, g) && !g.panicked && s.squares[from].Some?
    ensures CastlingSingleMove(g, p, from, col, resCol, 0).0 ==> Passes(s, from, p)
  {
    assert g.state.squares == s.squares;
  }

  lemma {:induction false} CastleScanShape(s: BoardState, g: Gen, from: Pos, cur: Pos, col: int, resCol: int)
    requires col == 1 || col == -1
    requires 0 <= resCol < 8 && 0 <= resCol - col < 8
    requires OnScan(from, cur, col)
    requires ClockOk(s) && Sound(s, g)
    requires s.squares[from].Some? ==> ScanPasses(s, from, from, cur, col) && (cur != from ==> Passes(s, from, cur))
    ensures var r := CastleScan(g, from, cur, col, resCol);
            !r.panicked ==> forall t <- Added(g, r) :: CastleOn(s, from, col, resCol, t)
    decreases Room(cur, 0, col)
  {
    var r := CastleScan(g, from, cur, col, resCol);
    if !g.panicked && !r.panicked {
      match Offset(cur, 0, col)
      case None =>
      case Some(p) =>
        RoomStep(cur, 0, col);
        if s.squares[from].Some? {
          ScanPassesStep(s, from, cur, p, col);
          CastleGoOnPasses(s, g, p, from, col, resCol);
        }
        CastlingSingleMoveShape(s, g, p, from, col, resCol);
        CastlingSingleMoveSound(s, g, p, from, col, resCol, 0);
        var (goOn, g1) := CastlingSingleMove(g, p, from, col, resCol, 0);
        if goOn {
          CastleScanShape(s, g1, from, p, col, resCol);
          AddedConcat(g, g1, r);
        }
    }
  }

  /**
   * `king_moves` lists only steps to a neighbouring square and castles with an
   * unmoved rook of the king's colour, the castles only for an unmoved piece
   * on its home row.
   */
  lemma KingMovesShape(s: BoardState, pos: Pos)
    requires ClockOk(s)
    ensures var r := KingMoves(s, pos);
            !r.panicked ==> forall t <- r.value ::
              Neighbour(s.squares, pos, t) ||
              (s.squares[pos].Some? && s.squares[pos].value.moveCount == 0 && Row(pos) == Home(s.squares[pos].value.color) &&
               (CastleOn(s, pos, 1, 6, t) || CastleOn(s, pos, -1, 2, t)))
  {
    var r := KingMoves(s, pos);
    KingRowsShape(s, Start(s), pos, -1);
    KingRowsSound(s, Start(s), pos, -1);
    var g := KingRows(Start(s), pos, -1);
    assert Added(Start(s), g) == g.value;
    if !r.panicked && g.state.squares[pos].Some? && r != g {
      assert r == CastlingMoves(g, pos);
      CastlingMovesShape(s, g, pos);
      AddedConcat(Start(s), g, r);
      assert Added(Start(s), r) == r.value;
    }
  }

  /** `castling_moves` adds only castles of the piece at `from`, king side or queen side. */
  lemma CastlingMovesShape(s: BoardState, g: Gen, from: Pos)
    requires ClockOk(s) && Sound(s, g)
    ensures var r := CastlingMoves(g, from);
            !r.panicked ==> forall t <- Added(g, r) :: CastleOn(s, from, 1, 6, t) || CastleOn(s, from, -1, 2, t)
  {
    var g1 := CastleScan(g, from, from, 1, 6);
    var r := CastleScan(g1, from, from, -1, 2);
    assert r == CastlingMoves(g, from);
    if !r.panicked {
      assert !g1.panicked;
      CastleScanShape(s, g, from, from, 1, 6);
      CastleScanSound(s, g, from, from, 1, 6);
      CastleScanShape(s, g1, from, from, -1, 2);
      AddedJoin(g, g1, r, t => CastleOn(s, from, 1, 6, t) || CastleOn(s, from, -1, 2, t));
    }
  }

  /** `t` is the simple turn from `pos` one square along a row or a column. */
  predicate UnitStep(sq: Squares, pos: Pos, t: Turn)
  {
    sq[pos].Some? && Abs(Row(t.to) - Row(pos)) + Abs(Col(t.to) - Col(pos)) == 1 &&
    TurnSimple(sq, pos, t.to) == Some(t)
  }

  /** One offset of `knight_moves` adds only a unit step, and keeps soundness. */
  lemma KnightStepShape(s: BoardState, g: Gen, pos: Pos, i: nat)
    requires i < |KnightMoves| && ClockOk(s) && Sound(s, g)
    ensures var g1 := KnightStep(g, pos, i);
            Sound(s, g1) && (!g1.panicked ==> forall t <- Added(g, g1) :: UnitStep(s.squares, pos, t))
  {
    var o := Offset(pos, KnightMoves[i].0, KnightMoves[i].1);
    if o.Some? {
      SimpleStepShape(s, g, pos, o.value);
      SimpleStepSound(s, g, pos, o.value);
      KnightMovesAreUnitSteps();
      assert Abs(Row(o.value) - Row(pos)) + Abs(Col(o.value) - Col(pos)) == 1;
    } else {
      assert Added(g, g) == [];
    }
  }

  /**
   * `knight_moves` lists only simple turns one square along a row or a column:
   * the offsets it is given are those of a rook's single step.
   */
  lemma {:induction false} KnightStepsShape(s: BoardState, g: Gen, pos: Pos, i: nat)
    requires ClockOk(s) && Sound(s, g)
    ensures var r := KnightSteps(g, pos, i);
            !r.panicked ==> forall t <- Added(g, r) :: UnitStep(s.squares, pos, t)
    decreases |KnightMoves| - i
  {
    var r := KnightSteps(g, pos, i);
    if !g.panicked && i < |KnightMoves| && !r.panicked {
      var g1 := KnightStep(g, pos, i);
      assert r == KnightSteps(g1, pos, i + 1);
      KnightStepShape(s, g, pos, i);
      KnightStepsShape(s, g1, pos, i + 1);
      AddedJoin(g, g1, r, u => UnitStep(s.squares, pos, u));
    }
  }

  lemma KnightMovesShape(s: BoardState, pos: Pos)
    requires ClockOk(s)
    ensures var r := KnightMovesOf(s, pos);
            !r.panicked ==> forall t <- r.value ::
              Abs(Row(t.to) - Row(pos)) + Abs(Col(t.to) - Col(pos)) == 1 && TurnSimple(s.squares, pos, t.to) == Some(t)
  {
    KnightStepsShape(s, Start(s), pos, 0);
    assert Added(Start(s), KnightMovesOf(s, pos)) == KnightMovesOf(s, pos).value;
  }

  // ---------------------------------------------------------------------------
  // Pawns

  /**
   * The loop over `PROMOTABLE_TYPES` from index i adds at most one turn per
   * remaining type, each a promotion from `from` to `to` to one of them.
   */
  lemma PromotionsShape(g: Gen, kind: PieceType, from: Pos, to: Pos, capture: bool, i: nat)
    requires i <= |PromotableTypes|
    ensures var r := Promotions(g, kind, from, to, capture, i);
            !r.panicked ==>
              |Added(g, r)| <= |PromotableTypes| - i &&
              forall t <- Added(g, r) :: IsPromotion(kind, from, to, capture, t)
  {
    PromotionsCount(g, kind, from, to, capture, i);
    PromotionsKinds(g, kind, from, to, capture, i);
  }

  /** The loop over `PROMOTABLE_TYPES` from i is its pass for entry i followed by the loop from i + 1. */
  lemma PromotionsUnfold(g: Gen, kind: PieceType, from: Pos, to: Pos, capture: bool, i: nat)
    requires !g.panicked && i < |PromotableTypes|
    ensures Promotions(g, kind, from, to, capture, i) ==
            Promotions(PromotionStep(g, kind, from, to, capture, i), kind, from, to, capture, i + 1)
  {}

  /** The loop over `PROMOTABLE_TYPES` from index i adds at most one turn per remaining type. */
  lemma {:induction false} PromotionsCount(g: Gen, kind: PieceType, from: Pos, to: Pos, capture: bool, i: nat)
    requires i <= |PromotableTypes|
    ensures var r := Promotions(g, kind, from, to, capture, i);
            !r.panicked ==> |Added(g, r)| <= |PromotableTypes| - i
    decreases |PromotableTypes| - i, 1
  {
    var r := Promotions(g, kind, from, to, capture, i);
    if g.panicked || i == |PromotableTypes| {
      assert Added(g, r) == [];
    } else {
      PromotionsCountStep(g, kind, from, to, capture, i);
    }
  }

  /** `PromotionsCount` for an entry of `PROMOTABLE_TYPES`: its pass, then the loop from the next entry. */
  lemma {:induction false} PromotionsCountStep(g: Gen, kind: PieceType, from: Pos, to: Pos, capture: bool, i: nat)
    requires !g.panicked && i < |PromotableTypes|
    ensures var r := Promotions(g, kind, from, to, capture, i);
            !r.panicked ==> |Added(g, r)| <= |PromotableTypes| - i
    decreases |PromotableTypes| - i, 0
  {
    var r := Promotions(g, kind, from, to, capture, i);
    var g1 := PromotionStep(g, kind, from, to, capture, i);
    PromotionsUnfold(g, kind, from, to, capture, i);
    PromotionStepShape(g, kind, from, to, capture, i);
    PromotionsCount(g1, kind, from, to, capture, i + 1);
    if !r.panicked {
      AddedConcat(g, g1, r);
    }
  }


  /** Every turn the loop over `PROMOTABLE_TYPES` adds is a promotion from `from` to `to`. */
  lemma {:induction false} PromotionsKinds(g: Gen, kind: PieceType, from: Pos, to: Pos, capture: bool, i: nat)
    requires i <= |PromotableTypes|
    ensures var r := Promotions(g, kind, from, to, capture, i);
            !r.panicked ==> forall t <- Added(g, r) :: IsPromotion(kind, from, to, capture, t)
    decreases |PromotableTypes| - i, 1
  {
    var r := Promotions(g, kind, from, to, capture, i);
    if g.panicked || i == |PromotableTypes| {
      assert Added(g, r) == [];
    } else {
      PromotionsKindsStep(g, kind, from, to, capture, i);
    }
  }

  /** `PromotionsKinds` for an entry of `PROMOTABLE_TYPES`: its pass, then the loop from the next entry. */
  lemma {:induction false} PromotionsKindsStep(g: Gen, kind: PieceType, from: Pos, to: Pos, capture: bool, i: nat)
    requires !g.panicked && i < |PromotableTypes|
    ensures var r := Promotions(g, kind, from, to, capture, i);
            !r.panicked ==> forall t <- Added(g, r) :: IsPromotion(kind, from, to, capture, t)
    decreases |PromotableTypes| - i, 0
  {
    var r := Promotions(g, kind, from, to, capture, i);
    var g1 := PromotionStep(g, kind, from, to, capture, i);
    PromotionsUnfold(g, kind, from, to, capture, i);
    PromotionStepShape(g, kind, from, to, capture, i);
    PromotionsKinds(g1, kind, from, to, capture, i + 1);
    if !r.panicked {
      AddedConcat(g, g1, r);
    }
  }


  /** One entry of `PROMOTABLE_TYPES` adds at most its own promotion. */
  lemma PromotionStepShape(g: Gen, kind: PieceType, from: Pos, to: Pos, capture: bool, i: nat)
    requires i < |PromotableTypes|
    ensures var g1 := PromotionStep(g, kind, from, to, capture, i);
            !g1.panicked ==> |Added(g, g1)| <= 1 && forall u <- Added(g, g1) :: IsPromotion(kind, from, to, capture, u)
  {
    var t := NewPromotion(kind, from, to, PromotableTypes[i], capture);
    if !AddIfLegal(g, t).panicked {
      AddedByAdd(g, t);
      assert IsPromotion(kind, from, to, capture, t);
    }
  }

  /** `t` is a promotion from `from` to `to` to a promotable kind. */
  predicate IsPromotion(kind: PieceType, from: Pos, to: Pos, capture: bool, t: Turn)
  {
    t.promoteTo.Some? && t.promoteTo.value in PromotableTypes &&
    t == NewPromotion(kind, from, to, t.promoteTo.value, capture)
  }

  /**
   * A pawn push from `pos`: straight ahead onto an empty square, as a basic
   * turn, or as a promotion to a promotable kind onto the opponent's home row;
   * or two squares ahead from the row after its own home row, over an empty square.
   */
  predicate PawnPush(sq: Squares, pos: Pos, t: Turn)
  {
    sq[pos].Some? &&
    var p := sq[pos].value;
    var dir := Direction(p.color);
    Col(t.to) == Col(pos) && sq[t.to].None? &&
    ((Row(t.to) == Row(pos) + dir && Row(t.to) != Home(Not(p.color)) && t == NewBasic(p.kind, pos, t.to)) ||
     (Row(t.to) == Row(pos) + dir && Row(t.to) == Home(Not(p.color)) && t.promoteTo.Some? &&
      t.promoteTo.value in PromotableTypes && t == NewPromotion(p.kind, pos, t.to, t.promoteTo.value, false)) ||
     (Row(pos) == Home(p.color) + dir && Row(t.to) == Row(pos) + 2 * dir &&
      sq[New(Row(pos) + dir, Col(pos))].None? && t == NewBasic(p.kind, pos, t.to)))
  }

  lemma PawnStepShape(s: BoardState, g: Gen, pos: Pos, ahead: Pos)
    requires ClockOk(s) && Sound(s, g) && !g.panicked && s.squares[pos].Some?
    requires var p := s.squares[pos].value;
             Offset(pos, Direction(p.color), 0) == Some(ahead) && s.squares[ahead].None?
    ensures var p := s.squares[pos].value;
            var r := PawnStep(g, p.kind, p.color, pos, ahead);
            Grows(g, r) && Sound(s, r) &&
            (!r.panicked ==> forall t <- Added(g, r) :: PawnPush(s.squares, pos, t))
  {
    var p := s.squares[pos].value;
    var t := NewBasic(p.kind, pos, ahead);
    PawnStepSound(s, g, p.kind, p.color, pos, ahead);
    if Row(ahead) == Home(Not(p.color)) {
      PromotionsShape(g, p.kind, pos, ahead, false, 0);
    } else {
      if !AddIfLegal(g, t).panicked {
        AddedByAdd(g, t);
      }
    }
  }

  /** The double push of `pawn_advance` adds only a double push over the empty square ahead. */
  lemma PawnDoubleShape(s: BoardState, g: Gen, pos: Pos, ahead: Pos, twoAhead: Pos)
    requires Sound(s, g) && !g.panicked && s.squares[pos].Some?
    requires var p := s.squares[pos].value;
             var dir := Direction(p.color);
             Row(pos) == Home(p.color) + dir &&
             Offset(pos, dir, 0) == Some(ahead) && s.squares[ahead].None? &&
             Offset(ahead, dir, 0) == Some(twoAhead) && s.squares[twoAhead].None?
    ensures var t := NewBasic(s.squares[pos].value.kind, pos, twoAhead);
            var r := AddIfLegal(g, t);
            !r.panicked ==> forall u <- Added(g, r) :: PawnPush(s.squares, pos, u)
  {
    var p := s.squares[pos].value;
    var t := NewBasic(p.kind, pos, twoAhead);
    if !AddIfLegal(g, t).panicked {
      AddedByAdd(g, t);
    }
    assert New(Row(pos) + Direction(p.color), Col(pos)) == ahead;
    assert PawnPush(s.squares, pos, t);
  }

  lemma PawnAdvanceShape(s: BoardState, g: Gen, pos: Pos)
    requires ClockOk(s) && Sound(s, g)
    ensures var r := PawnAdvance(g, pos);
            !r.panicked ==> forall t <- Added(g, r) :: PawnPush(s.squares, pos, t)
  {
    var r := PawnAdvance(g, pos);
    if !g.panicked && !r.panicked && s.squares[pos].Some? {
      var piece := s.squares[pos].value;
      var dir := Direction(piece.color);
      match Offset(pos, dir, 0)
      case None =>
      case Some(ahead) =>
        if s.squares[ahead].None? {
          var g1 := PawnStep(g, piece.kind, piece.color, pos, ahead);
          PawnStepShape(s, g, pos, ahead);
          if Row(pos) == Home(piece.color) + dir {
            var twoAhead := Offset(ahead, dir, 0).value;
            if s.squares[twoAhead].None? {
              PawnDoubleShape(s, g1, pos, ahead, twoAhead);
              AddedConcat(g, g1, r);
            }
          }
        }
    }
  }

  /**
   * A pawn capture from `pos`: a piece of the other colour diagonally ahead is
   * taken, by a plain capture, or, on that piece's own home row, by a
   * promotion recorded with the captured piece's kind.
   */
  predicate PawnTake(sq: Squares, pos: Pos, t: Turn)
  {
    sq[pos].Some? && sq[t.to].Some? &&
    var p := sq[pos].value;
    var other := sq[t.to].value;
    p.color == Not(other.color) &&
    Row(t.to) == Row(pos) + Direction(p.color) && Abs(Col(t.to) - Col(pos)) == 1 &&
    ((Row(t.to) != Home(other.color) && t == NewCapture(p.kind, pos, t.to)) ||
     (Row(t.to) == Home(other.color) && t.promoteTo.Some? && t.promoteTo.value in PromotableTypes &&
      t == NewPromotion(other.kind, pos, t.to, t.promoteTo.value, true)))
  }

  lemma PawnCaptureShape(s: BoardState, g: Gen, pos: Pos, cOff: int)
    requires cOff == 1 || cOff == -1
    requires g.panicked || g.state.squares == s.squares
    ensures var r := PawnCapture(g, pos, cOff);
            !r.panicked ==> forall t <- Added(g, r) :: PawnTake(s.squares, pos, t)
  {
    var r := PawnCapture(g, pos, cOff);
    if !g.panicked && !r.panicked && g.state.squares[pos].Some? {
      var mover := g.state.squares[pos].value;
      match Offset(pos, Direction(mover.color), cOff)
      case None =>
      case Some(target) =>
        match g.state.squares[target]
        case None =>
        case Some(other) =>
          if mover.color == Not(other.color) {
            assert Row(target) == Row(pos) + Direction(mover.color) && Abs(Col(target) - Col(pos)) == 1;
            if Row(target) == Home(other.color) {
              assert r == Promotions(g, other.kind, pos, target, true, 0);
              PromotionsShape(g, other.kind, pos, target, true, 0);
            } else {
              assert r == AddIfLegal(g, NewCapture(mover.kind, pos, target));
              AddedByAdd(g, NewCapture(mover.kind, pos, target));
            }
            TakesFrom(s.squares, pos, target, Added(g, r));
          }
    }
  }

  /** Capture promotions onto the opponent's home row, or else plain captures, onto a diagonal neighbour are pawn takes. */
  lemma TakesFrom(sq: Squares, pos: Pos, target: Pos, ts: seq<Turn>)
    requires sq[pos].Some? && sq[target].Some? && sq[pos].value.color == Not(sq[target].value.color)
    requires Row(target) == Row(pos) + Direction(sq[pos].value.color) && Abs(Col(target) - Col(pos)) == 1
    requires Row(target) == Home(sq[target].value.color) ==>
               forall t <- ts :: IsPromotion(sq[target].value.kind, pos, target, true, t)
    requires Row(target) != Home(sq[target].value.color) ==>
               forall t <- ts :: t == NewCapture(sq[pos].value.kind, pos, target)
    ensures forall t <- ts :: PawnTake(sq, pos, t)
  {
    forall t <- ts ensures PawnTake(sq, pos, t) {
      assert t.to == target;
    }
  }

  /**
   * An en-passant capture from `pos`: onto the board's en-passant target (as
   * set, or as the history gives it), one row ahead and one column aside,
   * capturing on the pawn's own row in the target's column.
   */
  predicate PawnEnPassantTurn(s: BoardState, pos: Pos, t: Turn)
  {
    s.squares[pos].Some? &&
    var p := s.squares[pos].value;
    (s.enPassantTarget == Some(t.to) || EpOf(s.moves) == Some(t.to)) &&
    Row(t.to) == Row(pos) + Direction(p.color) && Abs(Col(pos) - Col(t.to)) == 1 &&
    t == NewCaptureComplex(p.kind, pos, t.to, New(Row(pos), Col(t.to)))
  }

  lemma PawnEnPassantShape(s: BoardState, g: Gen, pos: Pos)
    requires Sound(s, g)
    ensures var r := PawnEnPassant(g, pos);
            !r.panicked ==> forall t <- Added(g, r) :: PawnEnPassantTurn(s, pos, t)
  {
    var r := PawnEnPassant(g, pos);
    if !g.panicked && !r.panicked && g.state.squares[pos].Some? && g.state.enPassantTarget.Some? {
      var mover := g.state.squares[pos].value;
      var target := g.state.enPassantTarget.value;
      if Row(pos) + Direction(mover.color) == Row(target) && Abs(Col(pos) - Col(target)) == 1 {
        AddedByAdd(g, NewCaptureComplex(mover.kind, pos, target, New(Row(pos), Col(target))));
      }
    }
  }

  /**
   * `pawn_moves` lists only pushes, diagonal captures and en-passant captures,
   * for a pawn that is not one step before its last row (where a
   * capture-promotion can leave the board changed).
   */
  lemma PawnMovesShape(s: BoardState, pos: Pos)
    requires ClockOk(s) && NotBeforeLastRow(s, pos)
    ensures var r := PawnMoves(s, pos);
            !r.panicked ==> forall t <- r.value ::
              PawnPush(s.squares, pos, t) || PawnTake(s.squares, pos, t) || PawnEnPassantTurn(s, pos, t)
  {
    var r := PawnMoves(s, pos);
    if s.squares[pos].Some? && !r.panicked {
      var g0 := Start(s);
      var g1 := PawnAdvance(g0, pos);
      var g2 := PawnCapture(g1, pos, -1);
      var g3 := PawnCapture(g2, pos, 1);
      PawnAdvanceShape(s, g0, pos);
      PawnAdvanceSound(s, g0, pos);
      PawnCaptureShape(s, g1, pos, -1);
      PawnCaptureSound(s, g1, pos, -1);
      PawnCaptureShape(s, g2, pos, 1);
      PawnCaptureSound(s, g2, pos, 1);
      PawnEnPassantShape(s, g3, pos);
      AddedConcat(g0, g1, g2);
      AddedConcat(g0, g2, g3);
      AddedConcat(g0, g3, r);
      assert Added(g0, r) == r.value;
    }
  }
}
