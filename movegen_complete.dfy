/**
 * The other direction of move generation in src/game/board/moves.rs: every
 * candidate a generator walks over and that `is_move_legal` accepts on the
 * board the generation started from is listed.  Together with the lemmas of
 * `MoveGenProperties` (what is listed is legal) and `MoveGenShapes` (what is
 * listed has the generator's shape) this pins down what each generator lists.
 *
 * The lemmas carry the same hypotheses as the soundness lemmas: a sound clock
 * stack, and for pawns no capture-promotion, so that every candidate tried
 * before the one in question leaves the board as it found it.
 */
module MoveGenComplete {
  import opened Wrappers
  import opened Colors
  import opened Positions
  import opened Pieces
  import opened Turns
  import opened BoardSpec
  import opened Attacks
  import opened MoveGen
  import opened MoveGenProperties
  import opened MoveGenShapes

  /** A turn that is listed stays listed: generators only append. */
  lemma StaysListed(g: Gen, r: Gen, t: Turn)
    requires Grows(g, r) && t in g.value
    ensures t in r.value
  {
    var k :| 0 <= k < |g.value| && g.value[k] == t;
    assert r.value[..|g.value|][k] == t;
  }

  /**
   * `add_move_if_legal` on a run that settles to `s` adds exactly the turns
   * that are legal on `s`: the en-passant target it may have lost does not
   * matter to `make_turn`.
   */
  /** The board of a run settles back to `s`, or the run panicked. */
  predicate Settled(s: BoardState, g: Gen)
  {
    g.panicked || Settles(s, g.state)
  }

  /** One `add_move_if_legal` of a self-undoing turn leaves the board settled to `s`. */
  lemma AddSettles(s: BoardState, g: Gen, t: Turn)
    requires ClockOk(s) && Settled(s, g) && Undoes(s, t)
    ensures Settled(s, AddIfLegal(g, t))
  {
    var r := AddIfLegal(g, t);
    if !g.panicked && !r.panicked {
      var e := g.state.enPassantTarget;
      assert g.state == s.(enPassantTarget := e);
      MakeIgnoresTarget(s, e, t);
      RestoredSettles(s, e, t);
    }
  }

  lemma AddExact(s: BoardState, g: Gen, t: Turn)
    requires Settled(s, g) && !g.panicked
    ensures var r := AddIfLegal(g, t);
            (r.panicked <==> !CanTest(s, t)) &&
            (!r.panicked ==> Added(g, r) == (if Legal(s, t) then [t] else []))
  {
    MakeIgnoresTarget(s, g.state.enPassantTarget, t);
    assert g.state == s.(enPassantTarget := g.state.enPassantTarget);
    var r := AddIfLegal(g, t);
    if !r.panicked {
      assert Added(g, r) == r.value[|g.value|..];
    }
  }

  /** A candidate that is legal on `s` is listed by `add_move_if_legal`. */
  lemma AddComplete(s: BoardState, g: Gen, t: Turn)
    requires Settled(s, g) && !g.panicked && CanTest(s, t) && Legal(s, t)
    ensures !AddIfLegal(g, t).panicked && t in AddIfLegal(g, t).value
  {
    AddExact(s, g, t);
    var r := AddIfLegal(g, t);
    assert r.value[|g.value|] == t;
  }

  // ---------------------------------------------------------------------------
  // Sliding pieces

  /** A turn on the ray from `cur` starts it: the ray has a first square. */
  lemma OnLineHead(sq: Squares, pos: Pos, cur: Pos, dr: int, dc: int, t: Turn)
    requires IsDirection(dr, dc) && OnLine(sq, pos, cur, dr, dc, t)
    ensures Offset(cur, dr, dc).Some?
  {
  }

  /** The ray from `cur` is its first square followed by the ray from there. */
  lemma RayCons(cur: Pos, dr: int, dc: int, q: Pos)
    requires IsDirection(dr, dc) && Offset(cur, dr, dc) == Some(q)
    ensures Ray(cur, dr, dc) == [q] + Ray(q, dr, dc)
  {}

  /** A turn on the ray other than the one onto its first square lies beyond that square, which is empty. */
  lemma OnLineBeyond(sq: Squares, pos: Pos, cur: Pos, dr: int, dc: int, q: Pos, t: Turn)
    requires IsDirection(dr, dc) && OnLine(sq, pos, cur, dr, dc, t)
    requires Offset(cur, dr, dc) == Some(q) && TurnSimple(sq, pos, q) != Some(t)
    ensures sq[q].None? && OnLine(sq, pos, q, dr, dc, t)
  {
    var ray := Ray(cur, dr, dc);
    var k :| 0 <= k < |ray| && ray[k] == t.to &&
             (forall j | 0 <= j < k :: sq[ray[j]].None?) && TurnSimple(sq, pos, t.to) == Some(t);
    RayCons(cur, dr, dc, q);
    var tail := Ray(q, dr, dc);
    assert ray[0] == q;
    assert k != 0;
    assert sq[q].None?;
    assert tail[k - 1] == t.to;
    forall j | 0 <= j < k - 1
      ensures sq[tail[j]].None?
    {
      assert tail[j] == ray[j + 1];
    }
  }

  /** One square of the `while let` of `line_moves`: try the turn onto it, and go on past an empty square. */
  lemma LineRayUnfold(g: Gen, pos: Pos, cur: Pos, dr: int, dc: int, q: Pos, u: Turn)
    requires IsDirection(dr, dc) && !g.panicked && Offset(cur, dr, dc) == Some(q)
    requires g.state.squares[pos].Some? && TurnSimple(g.state.squares, pos, q) == Some(u)
    ensures Room(q, dr, dc) < Room(cur, dr, dc)
    ensures LineRay(g, pos, cur, dr, dc) ==
            if u.capture.Some? then AddIfLegal(g, u) else LineRay(AddIfLegal(g, u), pos, q, dr, dc)
  {
    RoomStep(cur, dr, dc);
  }

  /**
   * Every turn on the ray from `cur` up to and including the first occupied
   * square that is legal on `s` is listed by the `while let` of `line_moves`.
   */
  lemma {:induction false} LineRayComplete(s: BoardState, g: Gen, pos: Pos, cur: Pos, dr: int, dc: int, t: Turn)
    requires IsDirection(dr, dc) && ClockOk(s) && Sound(s, g)
    requires OnLine(s.squares, pos, cur, dr, dc, t) && CanTest(s, t) && Legal(s, t)
    ensures var r := LineRay(g, pos, cur, dr, dc);
            !r.panicked ==> t in r.value
    decreases Room(cur, dr, dc)
  {
    var r := LineRay(g, pos, cur, dr, dc);
    if !g.panicked && !r.panicked {
      OnLineHead(s.squares, pos, cur, dr, dc, t);
      var q := Offset(cur, dr, dc).value;
      assert g.state.squares == s.squares;
      if TurnSimple(s.squares, pos, q) != Some(t) {
        OnLineBeyond(s.squares, pos, cur, dr, dc, q, t);
      }
      var u := TurnSimple(s.squares, pos, q).value;
      var g1 := AddIfLegal(g, u);
      LineRayUnfold(g, pos, cur, dr, dc, q, u);
      if u == t {
        AddComplete(s, g, t);
        if t.capture.None? {
          StaysListed(g1, r, t);
        }
      } else {
        PlainUndoes(s, u);
        AddSound(s, g, u);
        LineRayComplete(s, g1, pos, q, dr, dc, t);
      }
    }
  }

  /** A legal turn on the ray of direction j, at or after index i, is listed by the `for` of `line_moves`. */
  lemma {:induction false} LineDirsComplete(s: BoardState, g: Gen, pos: Pos, dirs: seq<(int, int)>, i: nat, j: nat, t: Turn)
    requires AllDirections(dirs) && ClockOk(s) && Sound(s, g)
    requires i <= j < |dirs| && OnLine(s.squares, pos, pos, dirs[j].0, dirs[j].1, t) && CanTest(s, t) && Legal(s, t)
    ensures var r := LineDirs(g, pos, dirs, i);
            !r.panicked ==> t in r.value
    decreases |dirs| - i
  {
    var r := LineDirs(g, pos, dirs, i);
    if !g.panicked && !r.panicked {
      var g1 := LineRay(g, pos, pos, dirs[i].0, dirs[i].1);
      assert r == LineDirs(g1, pos, dirs, i + 1);
      if i == j {
        LineRayComplete(s, g, pos, pos, dirs[i].0, dirs[i].1, t);
        StaysListed(g1, r, t);
      } else {
        LineRaySound(s, g, pos, pos, dirs[i].0, dirs[i].1);
        LineDirsComplete(s, g1, pos, dirs, i + 1, j, t);
      }
    }
  }

  /**
   * `rook_moves`, `bishop_moves` and `queen_moves` list exactly the turns along
   * one of their directions, up to and including the first occupied square,
   * that are legal on the board.
   */
  lemma LineMovesExact(s: BoardState, pos: Pos, dirs: seq<(int, int)>)
    requires AllDirections(dirs) && ClockOk(s)
    ensures var r := LineMoves(s, pos, dirs);
            !r.panicked ==> forall t :: t in r.value <==> OnSomeLine(s.squares, pos, dirs, t) && CanTest(s, t) && Legal(s, t)
  {
    var r := LineMoves(s, pos, dirs);
    if !r.panicked {
      LineMovesShape(s, pos, dirs);
      LineMovesSound(s, s, pos, dirs);
      forall t | OnSomeLine(s.squares, pos, dirs, t) && CanTest(s, t) && Legal(s, t)
        ensures t in r.value
      {
        var j :| 0 <= j < |dirs| && OnLine(s.squares, pos, pos, dirs[j].0, dirs[j].1, t);
        LineDirsComplete(s, Start(s), pos, dirs, 0, j, t);
      }
    }
  }

  // ---------------------------------------------------------------------------
  // The king and the "knight"

  /** The simple turn onto `to`, when legal on `s`, is listed by one candidate of the king or knight loops. */
  lemma SimpleStepComplete(s: BoardState, g: Gen, pos: Pos, to: Pos, t: Turn)
    requires Sound(s, g) && s.squares[pos].Some? && TurnSimple(s.squares, pos, to) == Some(t)
    requires CanTest(s, t) && Legal(s, t)
    ensures var r := SimpleStep(g, pos, to);
            !r.panicked ==> t in r.value
  {
    if !g.panicked {
      assert g.state.squares == s.squares;
      AddComplete(s, g, t);
    }
  }

  /** The step onto (Row(pos) + r, Col(pos) + c) is the offset (r, c) of `pos`. */
  lemma OffsetTo(pos: Pos, to: Pos, r: int, c: int)
    requires r == Row(to) - Row(pos) && c == Col(to) - Col(pos)
    ensures Offset(pos, r, c) == Some(to)
  {
    RowColInjective(Offset(pos, r, c).value, to);
  }

  /** A legal neighbouring step in row offset r, at column offset c or beyond, is listed by the inner loop of `king_moves`. */
  lemma {:induction false} KingColsComplete(s: BoardState, g: Gen, pos: Pos, r: int, c: int, t: Turn)
    requires -1 <= r <= 1 && -1 <= c <= 2 && ClockOk(s) && Sound(s, g)
    requires Neighbour(s.squares, pos, t) && Row(t.to) - Row(pos) == r && c <= Col(t.to) - Col(pos)
    requires CanTest(s, t) && Legal(s, t)
    ensures var res := KingCols(g, pos, r, c);
            !res.panicked ==> t in res.value
    decreases 2 - c
  {
    var res := KingCols(g, pos, r, c);
    if !g.panicked && !res.panicked {
      var g1 := KingStep(g, pos, r, c);
      assert res == KingCols(g1, pos, r, c + 1);
      if c == Col(t.to) - Col(pos) {
        OffsetTo(pos, t.to, r, c);
        assert g1 == SimpleStep(g, pos, t.to);
        SimpleStepComplete(s, g, pos, t.to, t);
        StaysListed(g1, res, t);
      } else {
        KingStepSound(s, g, pos, r, c);
        KingColsComplete(s, g1, pos, r, c + 1, t);
      }
    }
  }

  /** A legal neighbouring step in row offset r or beyond is listed by the outer loop of `king_moves`. */
  lemma {:induction false} KingRowsComplete(s: BoardState, g: Gen, pos: Pos, r: int, t: Turn)
    requires -1 <= r <= 2 && ClockOk(s) && Sound(s, g)
    requires Neighbour(s.squares, pos, t) && r <= Row(t.to) - Row(pos)
    requires CanTest(s, t) && Legal(s, t)
    ensures var res := KingRows(g, pos, r);
            !res.panicked ==> t in res.value
    decreases 2 - r
  {
    var res := KingRows(g, pos, r);
    if !g.panicked && !res.panicked {
      var g1 := KingCols(g, pos, r, -1);
      assert res == KingRows(g1, pos, r + 1);
      if r == Row(t.to) - Row(pos) {
        KingColsComplete(s, g, pos, r, -1, t);
        StaysListed(g1, res, t);
      } else {
        KingColsSound(s, g, pos, r, -1);
        KingRowsComplete(s, g1, pos, r + 1, t);
      }
    }
  }

  /** `king_moves` lists every step onto a neighbouring square that is legal on the board. */
  lemma KingMovesComplete(s: BoardState, pos: Pos, t: Turn)
    requires ClockOk(s) && Neighbour(s.squares, pos, t) && CanTest(s, t) && Legal(s, t)
    ensures var r := KingMoves(s, pos);
            !r.panicked ==> t in r.value
  {
    var g := KingRows(Start(s), pos, -1);
    KingRowsComplete(s, Start(s), pos, -1, t);
    var r := KingMoves(s, pos);
    if !r.panicked {
      StaysListed(g, r, t);
    }
  }

  /** The attacked-squares test reads only the squares and the history, which settling keeps. */
  lemma AttackedSettles(s: BoardState, s': BoardState, start: int, stop: int, color: Color)
    requires Settles(s, s') && 0 <= start && stop <= 8
    ensures SquaresAttacked(s', 0, start, stop, color) == SquaresAttacked(s, 0, start, stop, color)
  {
  }

  /** One square of the castling scan: test it with `castling_single_move`, and go on when it says so. */
  lemma CastleScanUnfold(g: Gen, from: Pos, cur: Pos, col: int, resCol: int, p: Pos)
    requires col == 1 || col == -1
    requires 0 <= resCol < 8 && 0 <= resCol - col < 8
    requires OnScan(from, cur, col) && !g.panicked && Offset(cur, 0, col) == Some(p)
    ensures OnScan(from, p, col) && 0 <= Col(from) + col < 8 && Room(p, 0, col) < Room(cur, 0, col)
    ensures var (goOn, g1) := CastlingSingleMove(g, p, from, col, resCol, 0);
            CastleScan(g, from, cur, col, resCol) == if goOn then CastleScan(g1, from, p, col, resCol) else g1
  {
    RoomStep(cur, 0, col);
  }

  /** `castling_single_move` on a square the scan passes goes on, trying a castle with an unmoved rook there. */
  lemma CastleSinglePasses(s: BoardState, g: Gen, p: Pos, from: Pos, col: int, resCol: int)
    requires col == 1 || col == -1
    requires 0 <= Col(from) + col < 8 && 0 <= resCol < 8 && 0 <= resCol - col < 8
    requires Sound(s, g) && !g.panicked && s.squares[from].Some?
    requires Passes(s, from, p)
    requires var mover := s.squares[from].value;
             var a, b := Col(from) + col, resCol - col;
             !SquaresAttacked(s, 0, Min(a, b), Max(a, b), Not(mover.color))
    ensures var mover := s.squares[from].value;
            CastlingSingleMove(g, p, from, col, resCol, 0) ==
              if s.squares[p].None? then (true, g)
              else (true, AddIfLegal(g, CastleTurn(mover.kind, from, p, col, resCol)))
  {
    var mover := s.squares[from].value;
    var a, b := Col(from) + col, resCol - col;
    AttackedSettles(s, g.state, Min(a, b), Max(a, b), Not(mover.color));
  }

  /** The rook lies on the king's row strictly beyond `cur`, in direction col. */
  predicate Beyond(cur: Pos, rook: Pos, col: int)
  {
    Row(rook) == Row(cur) && if col == 1 then Col(cur) < Col(rook) else Col(rook) < Col(cur)
  }

  /**
   * One square of the castling scan towards a rook the scan passes up to: the
   * run stays sound, and when that square is the rook's, the castle is listed.
   */
  lemma CastleScanStep(s: BoardState, g: Gen, from: Pos, cur: Pos, col: int, resCol: int, rook: Pos, t: Turn)
    returns (p: Pos, g1: Gen)
    requires col == 1 || col == -1
    requires 0 <= resCol < 8 && 0 <= resCol - col < 8
    requires OnScan(from, cur, col) && ClockOk(s) && Sound(s, g) && !g.panicked
    requires CastleVia(s, from, rook, col, resCol, t) && Beyond(cur, rook, col) && ScanPasses(s, from, cur, rook, col)
    requires CanTest(s, t) && Legal(s, t)
    ensures OnScan(from, p, col) && Room(p, 0, col) < Room(cur, 0, col)
    ensures CastleScan(g, from, cur, col, resCol) == CastleScan(g1, from, p, col, resCol)
    ensures Sound(s, g1)
    ensures p == rook ==> !g1.panicked && t in g1.value
    ensures p != rook ==> Beyond(p, rook, col) && ScanPasses(s, from, p, rook, col)
  {
    p := New(Row(cur), Col(cur) + col);
    OffsetTo(cur, p, 0, col);
    CastleScanUnfold(g, from, cur, col, resCol, p);
    if p != rook {
      assert Between(Col(cur), Col(p), Col(rook), col);
    }
    CastleSinglePasses(s, g, p, from, col, resCol);
    g1 := CastlingSingleMove(g, p, from, col, resCol, 0).1;
    CastlingSingleMoveSound(s, g, p, from, col, resCol, 0);
    if p == rook {
      AddComplete(s, g, t);
    }
  }

  /**
   * A legal castle with the rook at `rook`, beyond `cur`, is listed by the scan
   * of `castling_moves` from `cur` when the scan passes every square before it.
   */
  lemma {:induction false} CastleScanComplete(s: BoardState, g: Gen, from: Pos, cur: Pos, col: int, resCol: int, rook: Pos, t: Turn)
    requires col == 1 || col == -1
    requires 0 <= resCol < 8 && 0 <= resCol - col < 8
    requires OnScan(from, cur, col) && ClockOk(s) && Sound(s, g)
    requires CastleVia(s, from, rook, col, resCol, t) && Beyond(cur, rook, col) && ScanPasses(s, from, cur, rook, col)
    requires CanTest(s, t) && Legal(s, t)
    ensures var r := CastleScan(g, from, cur, col, resCol);
            !r.panicked ==> t in r.value
    decreases Room(cur, 0, col)
  {
    var r := CastleScan(g, from, cur, col, resCol);
    if !g.panicked && !r.panicked {
      var p, g1 := CastleScanStep(s, g, from, cur, col, resCol, rook, t);
      if p == rook {
        StaysListed(g1, r, t);
      } else {
        CastleScanComplete(s, g1, from, p, col, resCol, rook, t);
      }
    }
  }

  /** A rook the castling predicate names lies strictly beyond the king on its row. */
  lemma CastleRookBeyond(s: BoardState, from: Pos, rook: Pos, col: int, resCol: int, t: Turn)
    requires col == 1 || col == -1
    requires 0 <= resCol < 8 && 0 <= resCol - col < 8
    requires CastleVia(s, from, rook, col, resCol, t)
    ensures Beyond(from, rook, col)
  {
    if Col(rook) == Col(from) {
      RowColInjective(rook, from);
    }
  }

  /** `castling_moves` lists every legal castle, king side or queen side, with a rook its scan reaches. */
  lemma CastlingMovesComplete(s: BoardState, g: Gen, pos: Pos, col: int, resCol: int, rook: Pos, t: Turn)
    requires (col, resCol) == (1, 6) || (col, resCol) == (-1, 2)
    requires ClockOk(s) && Sound(s, g)
    requires CastleVia(s, pos, rook, col, resCol, t) && ScanPasses(s, pos, pos, rook, col)
    requires CanTest(s, t) && Legal(s, t)
    ensures var r := CastlingMoves(g, pos);
            !r.panicked ==> t in r.value
  {
    CastleRookBeyond(s, pos, rook, col, resCol, t);
    var r := CastlingMoves(g, pos);
    var g1 := CastleScan(g, pos, pos, 1, 6);
    assert r == CastleScan(g1, pos, pos, -1, 2);
    if !r.panicked {
      if col == 1 {
        CastleScanComplete(s, g, pos, pos, 1, 6, rook, t);
        StaysListed(g1, r, t);
      } else {
        CastleScanSound(s, g, pos, pos, 1, 6);
        CastleScanComplete(s, g1, pos, pos, -1, 2, rook, t);
      }
    }
  }

  /**
   * `king_moves` lists every castle of an unmoved piece on its home row that
   * is legal on the board, king side (column 6) or queen side (column 2), with a
   * rook the scan of `castling_moves` reaches.
   */
  lemma KingCastleComplete(s: BoardState, pos: Pos, col: int, resCol: int, t: Turn)
    requires (col, resCol) == (1, 6) || (col, resCol) == (-1, 2)
    requires ClockOk(s) && s.squares[pos].Some?
    requires s.squares[pos].value.moveCount == 0 && Row(pos) == Home(s.squares[pos].value.color)
    requires CastleOn(s, pos, col, resCol, t) && CanTest(s, t) && Legal(s, t)
    ensures var r := KingMoves(s, pos);
            !r.panicked ==> t in r.value
  {
    var rook :| CastleVia(s, pos, rook, col, resCol, t) && ScanPasses(s, pos, pos, rook, col);
    KingCastleVia(s, pos, col, resCol, rook, t);
  }

  /** `KingCastleComplete` for a chosen rook. */
  lemma KingCastleVia(s: BoardState, pos: Pos, col: int, resCol: int, rook: Pos, t: Turn)
    requires (col, resCol) == (1, 6) || (col, resCol) == (-1, 2)
    requires ClockOk(s) && s.squares[pos].Some?
    requires s.squares[pos].value.moveCount == 0 && Row(pos) == Home(s.squares[pos].value.color)
    requires CastleVia(s, pos, rook, col, resCol, t) && ScanPasses(s, pos, pos, rook, col)
    requires CanTest(s, t) && Legal(s, t)
    ensures var r := KingMoves(s, pos);
            !r.panicked ==> t in r.value
  {
    var g := KingRows(Start(s), pos, -1);
    KingRowsSound(s, Start(s), pos, -1);
    if !g.panicked {
      assert KingMoves(s, pos) == CastlingMoves(g, pos);
      CastlingMovesComplete(s, g, pos, col, resCol, rook, t);
    }
  }


  /**
   * `king_moves` lists exactly the legal steps onto a neighbouring square and,
   * for an unmoved piece on its home row, the legal castles with a rook the
   * scan reaches, king side or queen side.
   */
  lemma KingMovesExact(s: BoardState, pos: Pos)
    requires ClockOk(s)
    ensures var r := KingMoves(s, pos);
            !r.panicked ==> forall t :: t in r.value <==>
              (Neighbour(s.squares, pos, t) ||
               (s.squares[pos].Some? && s.squares[pos].value.moveCount == 0 && Row(pos) == Home(s.squares[pos].value.color) &&
                (CastleOn(s, pos, 1, 6, t) || CastleOn(s, pos, -1, 2, t)))) &&
              CanTest(s, t) && Legal(s, t)
  {
    var r := KingMoves(s, pos);
    if !r.panicked {
      KingMovesShape(s, pos);
      KingMovesSound(s, s, pos);
      forall t | Neighbour(s.squares, pos, t) && CanTest(s, t) && Legal(s, t)
        ensures t in r.value
      {
        KingMovesComplete(s, pos, t);
      }
      forall t | s.squares[pos].Some? && s.squares[pos].value.moveCount == 0 && Row(pos) == Home(s.squares[pos].value.color) &&
                 CastleOn(s, pos, 1, 6, t) && CanTest(s, t) && Legal(s, t)
        ensures t in r.value
      {
        KingCastleComplete(s, pos, 1, 6, t);
      }
      forall t | s.squares[pos].Some? && s.squares[pos].value.moveCount == 0 && Row(pos) == Home(s.squares[pos].value.color) &&
                 CastleOn(s, pos, -1, 2, t) && CanTest(s, t) && Legal(s, t)
        ensures t in r.value
      {
        KingCastleComplete(s, pos, -1, 2, t);
      }
    }
  }

  /** A legal unit step whose offset is entry j of `KNIGHT_MOVES`, j at least i, is listed by the loop of `knight_moves`. */
  lemma {:induction false} KnightStepsComplete(s: BoardState, g: Gen, pos: Pos, i: nat, j: nat, t: Turn)
    requires ClockOk(s) && Sound(s, g)
    requires i <= j < |KnightMoves| && KnightMoves[j] == (Row(t.to) - Row(pos), Col(t.to) - Col(pos))
    requires s.squares[pos].Some? && TurnSimple(s.squares, pos, t.to) == Some(t) && CanTest(s, t) && Legal(s, t)
    ensures var r := KnightSteps(g, pos, i);
            !r.panicked ==> t in r.value
    decreases |KnightMoves| - i
  {
    var r := KnightSteps(g, pos, i);
    if !g.panicked && !r.panicked {
      var g1 := KnightStep(g, pos, i);
      assert r == KnightSteps(g1, pos, i + 1);
      if i == j {
        KnightStepComplete(s, g, pos, i, t);
        StaysListed(g1, r, t);
      } else {
        KnightStepSound(s, g, pos, i);
        KnightStepsComplete(s, g1, pos, i + 1, j, t);
      }
    }
  }

  /** The entry of `KNIGHT_MOVES` that leads onto `t.to` lists `t` when it is legal. */
  lemma KnightStepComplete(s: BoardState, g: Gen, pos: Pos, i: nat, t: Turn)
    requires Sound(s, g) && i < |KnightMoves| && KnightMoves[i] == (Row(t.to) - Row(pos), Col(t.to) - Col(pos))
    requires s.squares[pos].Some? && TurnSimple(s.squares, pos, t.to) == Some(t) && CanTest(s, t) && Legal(s, t)
    ensures var g1 := KnightStep(g, pos, i);
            !g1.panicked ==> t in g1.value
  {
    OffsetTo(pos, t.to, KnightMoves[i].0, KnightMoves[i].1);
    SimpleStepComplete(s, g, pos, t.to, t);
  }

  /** One offset of `knight_moves` keeps soundness. */
  lemma KnightStepSound(s: BoardState, g: Gen, pos: Pos, i: nat)
    requires i < |KnightMoves| && ClockOk(s) && Sound(s, g)
    ensures Sound(s, KnightStep(g, pos, i))
  {
    var o := Offset(pos, KnightMoves[i].0, KnightMoves[i].1);
    if o.Some? {
      SimpleStepSound(s, g, pos, o.value);
    }
  }

  /**
   * `knight_moves` lists every legal simple turn onto the square an entry of
   * `KNIGHT_MOVES` leads to.
   */
  lemma KnightMovesComplete(s: BoardState, pos: Pos, j: nat, t: Turn)
    requires ClockOk(s) && j < |KnightMoves| && KnightMoves[j] == (Row(t.to) - Row(pos), Col(t.to) - Col(pos))
    requires s.squares[pos].Some? && TurnSimple(s.squares, pos, t.to) == Some(t) && CanTest(s, t) && Legal(s, t)
    ensures var r := KnightMovesOf(s, pos);
            !r.panicked ==> t in r.value
  {
    KnightStepsComplete(s, Start(s), pos, 0, j, t);
  }

  /** A legal unit step is listed by `knight_moves`, through the entry of its offset in the first half of `KNIGHT_MOVES`. */
  lemma KnightMovesLists(s: BoardState, pos: Pos, t: Turn)
    requires ClockOk(s) && Abs(Row(t.to) - Row(pos)) + Abs(Col(t.to) - Col(pos)) == 1
    requires s.squares[pos].Some? && TurnSimple(s.squares, pos, t.to) == Some(t) && CanTest(s, t) && Legal(s, t)
    ensures var r := KnightMovesOf(s, pos);
            !r.panicked ==> t in r.value
  {
    var j := UnitStepEntry(Row(t.to) - Row(pos), Col(t.to) - Col(pos));
    KnightMovesComplete(s, pos, j, t);
  }

  /** Each unit step along a row or a column is an entry of the first half of `KNIGHT_MOVES`. */
  lemma UnitStepEntry(dr: int, dc: int) returns (j: nat)
    requires Abs(dr) + Abs(dc) == 1
    ensures j < 4 && KnightMoves[j] == (dr, dc)
  {
    if dr == 1 {
      j := 0;
    } else if dc == 1 {
      j := 1;
    } else if dr == -1 {
      j := 2;
    } else {
      j := 3;
    }
  }

  /** `knight_moves` lists every simple turn one square along a row or a column that is legal on the board. */
  lemma KnightMovesAllListed(s: BoardState, pos: Pos)
    requires ClockOk(s)
    ensures var r := KnightMovesOf(s, pos);
            !r.panicked ==> forall t | UnitStep(s.squares, pos, t) && CanTest(s, t) && Legal(s, t) :: t in r.value
  {
    forall t | UnitStep(s.squares, pos, t) && CanTest(s, t) && Legal(s, t)
      ensures var r := KnightMovesOf(s, pos); !r.panicked ==> t in r.value
    {
      KnightMovesLists(s, pos, t);
    }
  }

  /**
   * `knight_moves` lists exactly the simple turns one square along a row or a
   * column that are legal on the board: its table holds the rook's single
   * steps, not the knight's jumps.
   */
  lemma KnightMovesExact(s: BoardState, pos: Pos)
    requires ClockOk(s)
    ensures var r := KnightMovesOf(s, pos);
            !r.panicked ==> forall t :: t in r.value <==> UnitStep(s.squares, pos, t) && CanTest(s, t) && Legal(s, t)
  {
    var r := KnightMovesOf(s, pos);
    KnightStepsShape(s, Start(s), pos, 0);
    assert Added(Start(s), r) == r.value;
    KnightMovesSound(s, s, pos);
    KnightMovesAllListed(s, pos);
  }

  // ---------------------------------------------------------------------------
  // Pawns

  /** The promotions from `from` to `to` to the entries of `PROMOTABLE_TYPES` from index i on that are legal on `s`, in table order. */
  function LegalPromotions(s: BoardState, kind: PieceType, from: Pos, to: Pos, capture: bool, i: nat): (ts: seq<Turn>)
    ensures forall t <- ts :: IsPromotion(kind, from, to, capture, t) && CanTest(s, t) && Legal(s, t)
    decreases |PromotableTypes| - i
  {
    if i >= |PromotableTypes| then []
    else
      var t := NewPromotion(kind, from, to, PromotableTypes[i], capture);
      (if CanTest(s, t) && Legal(s, t) then [t] else []) + LegalPromotions(s, kind, from, to, capture, i + 1)
  }

  /** Each legal promotion at index j, at or after i, is among the legal promotions from i. */
  lemma {:induction false} LegalPromotionsHas(s: BoardState, kind: PieceType, from: Pos, to: Pos, capture: bool, i: nat, j: nat)
    requires i <= j < |PromotableTypes|
    requires var t := NewPromotion(kind, from, to, PromotableTypes[j], capture);
             CanTest(s, t) && Legal(s, t)
    ensures NewPromotion(kind, from, to, PromotableTypes[j], capture) in LegalPromotions(s, kind, from, to, capture, i)
    decreases j - i
  {
    if i < j {
      LegalPromotionsHas(s, kind, from, to, capture, i + 1, j);
    }
  }

  /**
   * The loop over `PROMOTABLE_TYPES` adds exactly the promotions that are
   * legal on the board, in table order, as long as the piece at `from` is of
   * the kind promoted from (so that each candidate undoes itself).
   */
  /** One pass of the loop over `PROMOTABLE_TYPES` adds its promotion exactly when that promotion is legal. */
  lemma PromotionStepExact(s: BoardState, g: Gen, kind: PieceType, from: Pos, to: Pos, capture: bool, i: nat)
    requires ClockOk(s) && Settled(s, g) && !g.panicked && i < |PromotableTypes|
    requires s.squares[from].Some? ==> s.squares[from].value.kind == kind
    ensures var g1 := PromotionStep(g, kind, from, to, capture, i);
            var t := NewPromotion(kind, from, to, PromotableTypes[i], capture);
            Settled(s, g1) &&
            (!g1.panicked ==> Added(g, g1) == (if CanTest(s, t) && Legal(s, t) then [t] else []))
  {
    var t := NewPromotion(kind, from, to, PromotableTypes[i], capture);
    AddExact(s, g, t);
    AddSettles(s, g, t);
  }

  /**
   * The loop over `PROMOTABLE_TYPES` adds exactly the promotions that are
   * legal on the board, in table order, as long as the piece at `from` is of
   * the kind promoted from (so that each candidate undoes itself).
   */
  lemma {:induction false} PromotionsExact(s: BoardState, g: Gen, kind: PieceType, from: Pos, to: Pos, capture: bool, i: nat)
    requires ClockOk(s) && Settled(s, g) && i <= |PromotableTypes|
    requires s.squares[from].Some? ==> s.squares[from].value.kind == kind
    ensures var r := Promotions(g, kind, from, to, capture, i);
            !r.panicked ==> Added(g, r) == LegalPromotions(s, kind, from, to, capture, i)
    decreases |PromotableTypes| - i, 1
  {
    var r := Promotions(g, kind, from, to, capture, i);
    if g.panicked || i == |PromotableTypes| {
      assert Added(g, r) == [];
    } else {
      PromotionsExactStep(s, g, kind, from, to, capture, i);
    }
  }

  /** `PromotionsExact` for an entry of `PROMOTABLE_TYPES`: its pass, then the loop from the next entry. */
  lemma {:induction false} PromotionsExactStep(s: BoardState, g: Gen, kind: PieceType, from: Pos, to: Pos, capture: bool, i: nat)
    requires ClockOk(s) && Settled(s, g) && !g.panicked && i < |PromotableTypes|
    requires s.squares[from].Some? ==> s.squares[from].value.kind == kind
    ensures var r := Promotions(g, kind, from, to, capture, i);
            !r.panicked ==> Added(g, r) == LegalPromotions(s, kind, from, to, capture, i)
    decreases |PromotableTypes| - i, 0
  {
    var r := Promotions(g, kind, from, to, capture, i);
    var g1 := PromotionStep(g, kind, from, to, capture, i);
    PromotionsUnfold(g, kind, from, to, capture, i);
    PromotionStepExact(s, g, kind, from, to, capture, i);
    PromotionsExact(s, g1, kind, from, to, capture, i + 1);
    if !r.panicked {
      AddedConcat(g, g1, r);
    }
  }

  /** The promotions from `from` to `to` to the entries of `PROMOTABLE_TYPES` from index i on, in table order. */
  function AllPromotions(kind: PieceType, from: Pos, to: Pos, capture: bool, i: nat): (ts: seq<Turn>)
    ensures |ts| == |PromotableTypes| - i || i > |PromotableTypes|
    ensures forall t <- ts :: IsPromotion(kind, from, to, capture, t)
    decreases |PromotableTypes| - i
  {
    if i >= |PromotableTypes| then []
    else [NewPromotion(kind, from, to, PromotableTypes[i], capture)] + AllPromotions(kind, from, to, capture, i + 1)
  }

  /** When every promotion from index i on is legal, the legal ones are all of them. */
  lemma {:induction false} LegalPromotionsAll(s: BoardState, kind: PieceType, from: Pos, to: Pos, capture: bool, i: nat)
    requires i <= |PromotableTypes|
    requires forall j | i <= j < |PromotableTypes| ::
               CanTest(s, NewPromotion(kind, from, to, PromotableTypes[j], capture)) &&
               Legal(s, NewPromotion(kind, from, to, PromotableTypes[j], capture))
    ensures LegalPromotions(s, kind, from, to, capture, i) == AllPromotions(kind, from, to, capture, i)
    decreases |PromotableTypes| - i
  {
    if i < |PromotableTypes| {
      LegalPromotionsAll(s, kind, from, to, capture, i + 1);
    }
  }

  /** When all four promotions are legal, the loop over `PROMOTABLE_TYPES` adds all four: queen, rook, bishop, knight. */
  lemma PromotionsAllFour(s: BoardState, g: Gen, kind: PieceType, from: Pos, to: Pos, capture: bool)
    requires ClockOk(s) && Settled(s, g)
    requires s.squares[from].Some? ==> s.squares[from].value.kind == kind
    requires forall j | 0 <= j < |PromotableTypes| ::
               CanTest(s, NewPromotion(kind, from, to, PromotableTypes[j], capture)) &&
               Legal(s, NewPromotion(kind, from, to, PromotableTypes[j], capture))
    ensures var r := Promotions(g, kind, from, to, capture, 0);
            !r.panicked ==>
              Added(g, r) == [NewPromotion(kind, from, to, Queen, capture), NewPromotion(kind, from, to, Rook, capture),
                              NewPromotion(kind, from, to, Bishop, capture), NewPromotion(kind, from, to, Knight, capture)]
  {
    PromotionsExact(s, g, kind, from, to, capture, 0);
    LegalPromotionsAll(s, kind, from, to, capture, 0);
    PromotionsFour(kind, from, to, capture);
  }

  lemma PromotionsFour(kind: PieceType, from: Pos, to: Pos, capture: bool)
    ensures AllPromotions(kind, from, to, capture, 0) ==
              [NewPromotion(kind, from, to, Queen, capture), NewPromotion(kind, from, to, Rook, capture),
               NewPromotion(kind, from, to, Bishop, capture), NewPromotion(kind, from, to, Knight, capture)]
  {
    assert AllPromotions(kind, from, to, capture, 3) == [NewPromotion(kind, from, to, Knight, capture)];
    assert AllPromotions(kind, from, to, capture, 2) == [NewPromotion(kind, from, to, Bishop, capture)] + AllPromotions(kind, from, to, capture, 3);
    assert AllPromotions(kind, from, to, capture, 1) == [NewPromotion(kind, from, to, Rook, capture)] + AllPromotions(kind, from, to, capture, 2);
  }

  /** A legal promotion at index j, at or after i, is listed by the loop over `PROMOTABLE_TYPES` from i. */
  lemma {:induction false} PromotionsComplete(s: BoardState, g: Gen, kind: PieceType, from: Pos, to: Pos, capture: bool, i: nat, j: nat)
    requires ClockOk(s) && Settled(s, g) && i <= j < |PromotableTypes|
    requires s.squares[from].Some? ==> s.squares[from].value.kind == kind
    requires var t := NewPromotion(kind, from, to, PromotableTypes[j], capture);
             CanTest(s, t) && Legal(s, t)
    ensures var r := Promotions(g, kind, from, to, capture, i);
            !r.panicked ==> NewPromotion(kind, from, to, PromotableTypes[j], capture) in r.value
    decreases j - i
  {
    var r := Promotions(g, kind, from, to, capture, i);
    if !g.panicked {
      var g1 := PromotionStep(g, kind, from, to, capture, i);
      PromotionsUnfold(g, kind, from, to, capture, i);
      if i == j {
        AddComplete(s, g, NewPromotion(kind, from, to, PromotableTypes[j], capture));
        StaysListed(g1, r, NewPromotion(kind, from, to, PromotableTypes[j], capture));
      } else {
        PromotionStepExact(s, g, kind, from, to, capture, i);
        PromotionsComplete(s, g1, kind, from, to, capture, i + 1, j);
      }
    }
  }

  /** A legal single push from `pos` onto the empty square ahead is listed by the first step of `pawn_advance`. */
  lemma PawnStepComplete(s: BoardState, g: Gen, pos: Pos, ahead: Pos, t: Turn)
    requires ClockOk(s) && Settled(s, g) && !g.panicked
    requires PawnPush(s.squares, pos, t) && t.to == ahead
    requires Offset(pos, Direction(s.squares[pos].value.color), 0) == Some(ahead)
    requires CanTest(s, t) && Legal(s, t)
    ensures var p := s.squares[pos].value;
            var r := PawnStep(g, p.kind, p.color, pos, ahead);
            !r.panicked ==> t in r.value
  {
    var p := s.squares[pos].value;
    if Row(ahead) == Home(Not(p.color)) {
      var j :| 0 <= j < |PromotableTypes| && PromotableTypes[j] == t.promoteTo.value;
      PromotionsComplete(s, g, p.kind, pos, ahead, false, 0, j);
    } else {
      AddComplete(s, g, t);
    }
  }

  /**
   * `pawn_advance` once its first step is taken: the double push when the
   * pawn stands on its starting row and the square two ahead is empty.
   */
  lemma PawnAdvanceUnfold(s: BoardState, g: Gen, pos: Pos, ahead: Pos)
    requires !g.panicked && g.state.squares == s.squares && s.squares[pos].Some?
    requires Offset(pos, Direction(s.squares[pos].value.color), 0) == Some(ahead) && s.squares[ahead].None?
    ensures var p := s.squares[pos].value;
            var dir := Direction(p.color);
            var g1 := PawnStep(g, p.kind, p.color, pos, ahead);
            PawnAdvance(g, pos) ==
              if Row(pos) != Home(p.color) + dir then g1
              else match Offset(ahead, dir, 0)
                   case None => Panic(g1)
                   case Some(twoAhead) =>
                     if g1.state.squares[twoAhead].None? then AddIfLegal(g1, NewBasic(p.kind, pos, twoAhead)) else g1
  {}

  /** A legal single or double push of `pos` is listed by `pawn_advance`. */
  lemma PawnAdvanceComplete(s: BoardState, g: Gen, pos: Pos, t: Turn)
    requires ClockOk(s) && Sound(s, g)
    requires PawnPush(s.squares, pos, t) && CanTest(s, t) && Legal(s, t)
    ensures var r := PawnAdvance(g, pos);
            !r.panicked ==> t in r.value
  {
    if !g.panicked {
      if Row(t.to) == Row(pos) + Direction(s.squares[pos].value.color) {
        PawnSingleComplete(s, g, pos, t);
      } else {
        PawnDoubleComplete(s, g, pos, t);
      }
    }
  }

  /** A legal single push of `pos` is listed by `pawn_advance`, whatever its double push adds. */
  lemma PawnSingleComplete(s: BoardState, g: Gen, pos: Pos, t: Turn)
    requires ClockOk(s) && Sound(s, g) && !g.panicked
    requires PawnPush(s.squares, pos, t) && Row(t.to) == Row(pos) + Direction(s.squares[pos].value.color)
    requires CanTest(s, t) && Legal(s, t)
    ensures var r := PawnAdvance(g, pos);
            !r.panicked ==> t in r.value
  {
    var p := s.squares[pos].value;
    var dir := Direction(p.color);
    OffsetTo(pos, t.to, dir, 0);
    var g1 := PawnStep(g, p.kind, p.color, pos, t.to);
    PawnStepSound(s, g, p.kind, p.color, pos, t.to);
    PawnAdvanceUnfold(s, g, pos, t.to);
    PawnStepComplete(s, g, pos, t.to, t);
    if !g1.panicked {
      PawnDoubleStays(s, g1, pos, t.to, PawnAdvance(g, pos), t);
    }
  }

  /** Whatever the double push adds, a turn listed by the first step stays listed. */
  lemma PawnDoubleStays(s: BoardState, g1: Gen, pos: Pos, ahead: Pos, r: Gen, t: Turn)
    requires s.squares[pos].Some? && t in g1.value
    requires var p := s.squares[pos].value;
             var dir := Direction(p.color);
             r == if Row(pos) != Home(p.color) + dir then g1
                  else match Offset(ahead, dir, 0)
                       case None => Panic(g1)
                       case Some(twoAhead) =>
                         if g1.state.squares[twoAhead].None? then AddIfLegal(g1, NewBasic(p.kind, pos, twoAhead)) else g1
    ensures !r.panicked ==> t in r.value
  {
    if !r.panicked && r != g1 {
      StaysListed(g1, r, t);
    }
  }

  /** A legal double push of `pos` is listed by `pawn_advance`. */
  lemma PawnDoubleComplete(s: BoardState, g: Gen, pos: Pos, t: Turn)
    requires ClockOk(s) && Sound(s, g) && !g.panicked
    requires PawnPush(s.squares, pos, t) && Row(t.to) != Row(pos) + Direction(s.squares[pos].value.color)
    requires CanTest(s, t) && Legal(s, t)
    ensures var r := PawnAdvance(g, pos);
            !r.panicked ==> t in r.value
  {
    var p := s.squares[pos].value;
    var dir := Direction(p.color);
    var ahead := New(Row(pos) + dir, Col(pos));
    OffsetTo(pos, ahead, dir, 0);
    OffsetTo(ahead, t.to, dir, 0);
    var g1 := PawnStep(g, p.kind, p.color, pos, ahead);
    PawnStepSound(s, g, p.kind, p.color, pos, ahead);
    PawnAdvanceUnfold(s, g, pos, ahead);
    if !g1.panicked {
      AddComplete(s, g1, t);
    }
  }

  /** `pawn_capture` onto a diagonal neighbour holding an opponent's piece off its home row tries the plain capture. */
  lemma PawnCaptureUnfold(g: Gen, pos: Pos, cOff: int, t: Turn)
    requires !g.panicked && g.state.squares[pos].Some?
    requires var mover := g.state.squares[pos].value;
             Offset(pos, Direction(mover.color), cOff) == Some(t.to) && g.state.squares[t.to].Some? &&
             mover.color == Not(g.state.squares[t.to].value.color) &&
             Row(t.to) != Home(g.state.squares[t.to].value.color) && t == NewCapture(mover.kind, pos, t.to)
    ensures PawnCapture(g, pos, cOff) == AddIfLegal(g, t)
  {}

  /**
   * A legal diagonal capture in column offset `cOff` is listed by
   * `pawn_capture`, for a pawn not one step before its last row (so that
   * the capture is a plain one).
   */
  lemma PawnCaptureComplete(s: BoardState, g: Gen, pos: Pos, cOff: int, t: Turn)
    requires Settled(s, g) && NotBeforeLastRow(s, pos)
    requires PawnTake(s.squares, pos, t) && Col(t.to) - Col(pos) == cOff
    requires CanTest(s, t) && Legal(s, t)
    ensures var r := PawnCapture(g, pos, cOff);
            !r.panicked ==> t in r.value
  {
    if !g.panicked {
      var mover := s.squares[pos].value;
      OffsetTo(pos, t.to, Direction(mover.color), cOff);
      PawnCaptureUnfold(g, pos, cOff, t);
      AddComplete(s, g, t);
    }
  }

  /** `pawn_en_passant` with a target one row ahead and one column aside tries the capture onto it. */
  lemma PawnEnPassantUnfold(g: Gen, pos: Pos, t: Turn)
    requires !g.panicked && g.state.squares[pos].Some? && g.state.enPassantTarget == Some(t.to)
    requires var mover := g.state.squares[pos].value;
             Row(pos) + Direction(mover.color) == Row(t.to) && Abs(Col(pos) - Col(t.to)) == 1 &&
             t == NewCaptureComplex(mover.kind, pos, t.to, New(Row(pos), Col(t.to)))
    ensures PawnEnPassant(g, pos) == AddIfLegal(g, t)
  {}

  /** A legal en-passant capture onto the run's en-passant target is listed by `pawn_en_passant`. */
  lemma PawnEnPassantComplete(s: BoardState, g: Gen, pos: Pos, t: Turn)
    requires Settled(s, g) && (g.panicked || g.state.enPassantTarget == Some(t.to))
    requires PawnEnPassantTurn(s, pos, t) && CanTest(s, t) && Legal(s, t)
    ensures var r := PawnEnPassant(g, pos);
            !r.panicked ==> t in r.value
  {
    if !g.panicked {
      PawnEnPassantUnfold(g, pos, t);
      AddComplete(s, g, t);
    }
  }

  /** A legal push of `pos` is listed by `pawn_moves`. */
  lemma PawnMovesHasPush(s: BoardState, pos: Pos, t: Turn)
    requires ClockOk(s) && NotBeforeLastRow(s, pos)
    requires PawnPush(s.squares, pos, t) && CanTest(s, t) && Legal(s, t)
    ensures var r := PawnMoves(s, pos);
            !r.panicked ==> t in r.value
  {
    var r := PawnMoves(s, pos);
    var g1 := PawnAdvance(Start(s), pos);
    var g2 := PawnCapture(g1, pos, -1);
    var g3 := PawnCapture(g2, pos, 1);
    assert r == PawnEnPassant(g3, pos);
    PawnAdvanceComplete(s, Start(s), pos, t);
    if !r.panicked {
      GrowsTransitive(g1, g2, g3);
      GrowsTransitive(g1, g3, r);
      StaysListed(g1, r, t);
    }
  }

  /** A legal diagonal capture of `pos` is listed by `pawn_moves`. */
  lemma PawnMovesHasTake(s: BoardState, pos: Pos, t: Turn)
    requires ClockOk(s) && NotBeforeLastRow(s, pos)
    requires PawnTake(s.squares, pos, t) && CanTest(s, t) && Legal(s, t)
    ensures var r := PawnMoves(s, pos);
            !r.panicked ==> t in r.value
  {
    var r := PawnMoves(s, pos);
    var g1 := PawnAdvance(Start(s), pos);
    var g2 := PawnCapture(g1, pos, -1);
    var g3 := PawnCapture(g2, pos, 1);
    assert r == PawnEnPassant(g3, pos);
    PawnAdvanceSound(s, Start(s), pos);
    if Col(t.to) - Col(pos) == -1 {
      PawnCaptureComplete(s, g1, pos, -1, t);
      if !r.panicked {
        GrowsTransitive(g2, g3, r);
        StaysListed(g2, r, t);
      }
    } else {
      PawnCaptureSound(s, g1, pos, -1);
      PawnCaptureComplete(s, g2, pos, 1, t);
      if !r.panicked {
        StaysListed(g3, r, t);
      }
    }
  }

  /**
   * A legal en-passant capture of `pos` is listed by `pawn_moves`, on a board
   * whose en-passant target is the one its history gives (the one every
   * `is_move_legal` leaves behind).
   */
  lemma PawnMovesHasEnPassant(s: BoardState, pos: Pos, t: Turn)
    requires ClockOk(s) && NotBeforeLastRow(s, pos) && s.enPassantTarget == EpOf(s.moves)
    requires PawnEnPassantTurn(s, pos, t) && CanTest(s, t) && Legal(s, t)
    ensures var r := PawnMoves(s, pos);
            !r.panicked ==> t in r.value
  {
    var r := PawnMoves(s, pos);
    var g1 := PawnAdvance(Start(s), pos);
    var g2 := PawnCapture(g1, pos, -1);
    var g3 := PawnCapture(g2, pos, 1);
    assert r == PawnEnPassant(g3, pos);
    PawnAdvanceSound(s, Start(s), pos);
    PawnCaptureSound(s, g1, pos, -1);
    PawnCaptureSound(s, g2, pos, 1);
    PawnEnPassantComplete(s, g3, pos, t);
  }

  /** Every legal push, diagonal capture and en-passant capture of `pos` is listed by `pawn_moves`. */
  lemma PawnMovesAllListed(s: BoardState, pos: Pos)
    requires ClockOk(s) && NotBeforeLastRow(s, pos) && s.enPassantTarget == EpOf(s.moves)
    ensures var r := PawnMoves(s, pos);
            !r.panicked ==> forall t | (PawnPush(s.squares, pos, t) || PawnTake(s.squares, pos, t) || PawnEnPassantTurn(s, pos, t)) &&
                                       CanTest(s, t) && Legal(s, t) :: t in r.value
  {
    forall t | (PawnPush(s.squares, pos, t) || PawnTake(s.squares, pos, t) || PawnEnPassantTurn(s, pos, t)) &&
               CanTest(s, t) && Legal(s, t)
      ensures var r := PawnMoves(s, pos); !r.panicked ==> t in r.value
    {
      if PawnPush(s.squares, pos, t) {
        PawnMovesHasPush(s, pos, t);
      } else if PawnTake(s.squares, pos, t) {
        PawnMovesHasTake(s, pos, t);
      } else {
        PawnMovesHasEnPassant(s, pos, t);
      }
    }
  }

  /**
   * `pawn_moves` lists exactly the legal pushes, diagonal captures and
   * en-passant captures of the pawn at `pos`, under the hypotheses of its
   * soundness and with the en-passant target its history gives.
   */
  lemma PawnMovesExact(s: BoardState, pos: Pos)
    requires ClockOk(s) && NotBeforeLastRow(s, pos) && s.enPassantTarget == EpOf(s.moves)
    ensures var r := PawnMoves(s, pos);
            !r.panicked ==> forall t :: t in r.value <==>
              (PawnPush(s.squares, pos, t) || PawnTake(s.squares, pos, t) || PawnEnPassantTurn(s, pos, t)) &&
              CanTest(s, t) && Legal(s, t)
  {
    PawnMovesShape(s, pos);
    PawnMovesSound(s, s, pos);
    PawnMovesAllListed(s, pos);
  }

  // ---------------------------------------------------------------------------
  // All pieces

  /** The king's candidates: a neighbouring step, or a castling of an unmoved king on its home row. */
  predicate KingCandidate(s: BoardState, pos: Pos, t: Turn)
  {
    Neighbour(s.squares, pos, t) ||
    (s.squares[pos].Some? && s.squares[pos].value.moveCount == 0 && Row(pos) == Home(s.squares[pos].value.color) &&
     (CastleOn(s, pos, 1, 6, t) || CastleOn(s, pos, -1, 2, t)))
  }

  /** The turns `get_piece_moves` tries for the piece at `pos`, by its kind, before the legality test. */
  predicate Candidate(s: BoardState, pos: Pos, t: Turn)
  {
    DirectionTables();
    s.squares[pos].Some? &&
    match s.squares[pos].value.kind
    case King => KingCandidate(s, pos, t)
    case Queen => OnSomeLine(s.squares, pos, QueenDirections, t)
    case Rook => OnSomeLine(s.squares, pos, RookDirections, t)
    case Bishop => OnSomeLine(s.squares, pos, BishopDirections, t)
    case Knight => UnitStep(s.squares, pos, t)
    case Pawn => PawnPush(s.squares, pos, t) || PawnTake(s.squares, pos, t) || PawnEnPassantTurn(s, pos, t)
  }

  /** Every candidate of the piece at `pos` moves from `pos`. */
  lemma CandidateFrom(s: BoardState, pos: Pos, t: Turn)
    requires Candidate(s, pos, t)
    ensures t.from == pos
  {
    DirectionTables();
    match s.squares[pos].value.kind
    case King =>
      if !Neighbour(s.squares, pos, t) {
        if CastleOn(s, pos, 1, 6, t) {
          var rook :| CastleVia(s, pos, rook, 1, 6, t) && ScanPasses(s, pos, pos, rook, 1);
        } else {
          var rook :| CastleVia(s, pos, rook, -1, 2, t) && ScanPasses(s, pos, pos, rook, -1);
        }
      }
    case Queen =>
      var i :| 0 <= i < |QueenDirections| && OnLine(s.squares, pos, pos, QueenDirections[i].0, QueenDirections[i].1, t);
    case Rook =>
      var i :| 0 <= i < |RookDirections| && OnLine(s.squares, pos, pos, RookDirections[i].0, RookDirections[i].1, t);
    case Bishop =>
      var i :| 0 <= i < |BishopDirections| && OnLine(s.squares, pos, pos, BishopDirections[i].0, BishopDirections[i].1, t);
    case Knight =>
    case Pawn =>
  }

  /**
   * `get_piece_moves` lists exactly the candidates of the piece at `pos` that
   * are legal on the board, under the hypotheses of its soundness (and, for a
   * pawn, an en-passant target that agrees with the history).
   */
  lemma PieceMovesExact(s: BoardState, pos: Pos)
    requires ClockOk(s)
    requires s.squares[pos].Some? && s.squares[pos].value.kind == Pawn ==>
               NotBeforeLastRow(s, pos) && s.enPassantTarget == EpOf(s.moves)
    ensures var r := PieceMoves(s, pos);
            !r.panicked ==> forall t :: t in r.value <==> Candidate(s, pos, t) && CanTest(s, t) && Legal(s, t)
  {
    DirectionTables();
    match s.squares[pos]
    case None =>
    case Some(piece) =>
      match piece.kind
      case King => KingMovesExact(s, pos);
      case Queen => LineMovesExact(s, pos, QueenDirections);
      case Rook => LineMovesExact(s, pos, RookDirections);
      case Bishop => LineMovesExact(s, pos, BishopDirections);
      case Knight => KnightMovesExact(s, pos);
      case Pawn => PawnMovesExact(s, pos);
  }

  /** A candidate of one of the pieces of the side to move. */
  predicate OwnCandidate(s: BoardState, t: Turn)
  {
    s.squares[t.from].Some? && s.squares[t.from].value.color == s.whoseTurn && Candidate(s, t.from, t)
  }

  /**
   * One square of the loop of `do_get_moves` that holds a piece of the side to
   * move: the turns appended are exactly the legal candidates from that square,
   * and the board comes back as it was.
   */
  lemma DoGetMovesStep(s: BoardState, g: Gen, i: Pos)
    requires ClockOk(s) && NoPawnBeforeLastRow(s) && s.enPassantTarget == EpOf(s.moves)
    requires !g.panicked && g.state == s && s.squares[i].Some? && s.squares[i].value.color == s.whoseTurn
    ensures var m := PieceMoves(s, i);
            var g1 := Run(g.value + m.value, m.state, m.panicked);
            !g1.panicked ==>
              g1.state == s &&
              forall t :: t in Added(g, g1) <==> OwnCandidate(s, t) && t.from == i && CanTest(s, t) && Legal(s, t)
  {
    var m := PieceMoves(s, i);
    var g1 := Run(g.value + m.value, m.state, m.panicked);
    PieceMovesExact(s, i);
    PieceMovesSound(s, s, i);
    if !g1.panicked {
      assert Added(g, g1) == m.value;
      forall t | Candidate(s, i, t)
        ensures t.from == i
      {
        CandidateFrom(s, i, t);
      }
    }
  }

  /** The loop of `do_get_moves` from square i on, on a square holding a piece of the side to move. */
  lemma DoGetMovesFromUnfold(g: Gen, i: Pos)
    requires !g.panicked && g.state.squares[i].Some? && g.state.squares[i].value.color == g.state.whoseTurn
    ensures var m := PieceMoves(g.state, i);
            DoGetMovesFrom(g, i) == DoGetMovesFrom(Run(g.value + m.value, m.state, m.panicked), i + 1)
  {}

  /** The loop of `do_get_moves` from square i on passes over a square without a piece of the side to move. */
  lemma DoGetMovesFromSkip(g: Gen, i: Pos)
    requires !g.panicked && !(g.state.squares[i].Some? && g.state.squares[i].value.color == g.state.whoseTurn)
    ensures DoGetMovesFrom(g, i) == DoGetMovesFrom(g, i + 1)
  {}

  /** What two consecutive pieces of a run add is what either adds. */
  lemma AddedUnion(g: Gen, g1: Gen, r: Gen, A: Turn -> bool, B: Turn -> bool)
    requires Grows(g, g1) && Grows(g1, r)
    requires forall u :: u in Added(g, g1) <==> A(u)
    requires forall u :: u in Added(g1, r) <==> B(u)
    ensures forall u :: u in Added(g, r) <==> A(u) || B(u)
  {
    AddedConcat(g, g1, r);
  }

  /**
   * The loop of `do_get_moves` from square i on appends exactly the legal
   * candidates of the pieces of the side to move that stand on square i or
   * later.
   */
  lemma {:induction false} DoGetMovesFromExact(s: BoardState, g: Gen, i: nat)
    requires ClockOk(s) && NoPawnBeforeLastRow(s) && s.enPassantTarget == EpOf(s.moves)
    requires i <= 64 && (g.panicked || g.state == s)
    ensures var r := DoGetMovesFrom(g, i);
            !r.panicked ==>
              forall t :: t in Added(g, r) <==> OwnCandidate(s, t) && i <= t.from && CanTest(s, t) && Legal(s, t)
    decreases 64 - i, 1
  {
    var r := DoGetMovesFrom(g, i);
    if g.panicked || i == 64 {
      assert Added(g, r) == [];
    } else if s.squares[i].Some? && s.squares[i].value.color == s.whoseTurn {
      DoGetMovesFromOwn(s, g, i);
    } else {
      DoGetMovesFromOther(s, g, i);
    }
  }

  /** `DoGetMovesFromExact` on a square holding a piece of the side to move. */
  lemma {:induction false} DoGetMovesFromOwn(s: BoardState, g: Gen, i: Pos)
    requires ClockOk(s) && NoPawnBeforeLastRow(s) && s.enPassantTarget == EpOf(s.moves)
    requires !g.panicked && g.state == s && s.squares[i].Some? && s.squares[i].value.color == s.whoseTurn
    ensures var r := DoGetMovesFrom(g, i);
            !r.panicked ==>
              forall t :: t in Added(g, r) <==> OwnCandidate(s, t) && i <= t.from && CanTest(s, t) && Legal(s, t)
    decreases 64 - i, 0
  {
    var r := DoGetMovesFrom(g, i);
    var m := PieceMoves(s, i);
    var g1 := Run(g.value + m.value, m.state, m.panicked);
    DoGetMovesFromUnfold(g, i);
    DoGetMovesStep(s, g, i);
    DoGetMovesFromExact(s, g1, i + 1);
    assert Grows(g, g1) by { assert g1.value[..|g.value|] == g.value; }
    DoGetMovesJoin(s, g, g1, r, i);
  }

  /** `DoGetMovesFromExact` on a square without a piece of the side to move. */
  lemma {:induction false} DoGetMovesFromOther(s: BoardState, g: Gen, i: Pos)
    requires ClockOk(s) && NoPawnBeforeLastRow(s) && s.enPassantTarget == EpOf(s.moves)
    requires !g.panicked && g.state == s && !(s.squares[i].Some? && s.squares[i].value.color == s.whoseTurn)
    ensures var r := DoGetMovesFrom(g, i);
            !r.panicked ==>
              forall t :: t in Added(g, r) <==> OwnCandidate(s, t) && i <= t.from && CanTest(s, t) && Legal(s, t)
    decreases 64 - i, 0
  {
    var r := DoGetMovesFrom(g, i);
    DoGetMovesFromSkip(g, i);
    DoGetMovesFromExact(s, g, i + 1);
    if !r.panicked {
      DoGetMovesPass(s, Added(g, r), i);
    }
  }

  /** Passing over a square without a piece of the side to move. */
  lemma DoGetMovesPass(s: BoardState, added: seq<Turn>, i: Pos)
    requires !(s.squares[i].Some? && s.squares[i].value.color == s.whoseTurn)
    requires forall t :: t in added <==> OwnCandidate(s, t) && i + 1 <= t.from && CanTest(s, t) && Legal(s, t)
    ensures forall t :: t in added <==> OwnCandidate(s, t) && i <= t.from && CanTest(s, t) && Legal(s, t)
  {}

  /** Joining the turns of a square holding a piece of the side to move. */
  lemma DoGetMovesJoin(s: BoardState, g: Gen, g1: Gen, r: Gen, i: Pos)
    requires Grows(g, g1) && Grows(g1, r) && (g1.panicked ==> r == g1)
    requires !g1.panicked ==>
               (forall t :: t in Added(g, g1) <==> OwnCandidate(s, t) && t.from == i && CanTest(s, t) && Legal(s, t))
    requires !r.panicked ==>
               (forall t :: t in Added(g1, r) <==> OwnCandidate(s, t) && i + 1 <= t.from && CanTest(s, t) && Legal(s, t))
  ensures !r.panicked ==>
              forall t :: t in Added(g, r) <==> OwnCandidate(s, t) && i <= t.from && CanTest(s, t) && Legal(s, t)
  {
    if !r.panicked {
      AddedUnion(g, g1, r,
                 t => OwnCandidate(s, t) && t.from == i && CanTest(s, t) && Legal(s, t),
                 t => OwnCandidate(s, t) && i + 1 <= t.from && CanTest(s, t) && Legal(s, t));
    }
  }

  /**
   * `do_get_moves` lists exactly the legal candidates of the pieces of the
   * side to move, under the hypotheses of its soundness and with the
   * en-passant target the history gives.
   */
  lemma DoGetMovesExact(s: BoardState)
    requires ClockOk(s) && NoPawnBeforeLastRow(s) && s.enPassantTarget == EpOf(s.moves)
    ensures var r := DoGetMoves(s);
            !r.panicked ==> forall t :: t in r.value <==> OwnCandidate(s, t) && CanTest(s, t) && Legal(s, t)
  {
    DoGetMovesFromExact(s, Start(s), 0);
    assert Added(Start(s), DoGetMoves(s)) == DoGetMoves(s).value;
  }

  /** When `do_get_moves` lists nothing, no candidate of the side to move is legal. */
  lemma NoMovesNoCandidate(s: BoardState)
    requires ClockOk(s) && NoPawnBeforeLastRow(s) && s.enPassantTarget == EpOf(s.moves)
    ensures var r := DoGetMoves(s);
            !r.panicked && r.value == [] ==> forall t | OwnCandidate(s, t) && CanTest(s, t) :: !Legal(s, t)
  {
    DoGetMovesExact(s);
  }
}
