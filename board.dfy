/**
 * `Board` (src/game/board/mod.rs, turns.rs, moves.rs): the 64 squares in an
 * array that the methods overwrite in place, and the stacks and scalars of the
 * game.  Each method is proved to compute the function of the same name in
 * BoardSpec, Attacks, MoveGen or Status, on `State()`.
 */
module Boards {
  import opened Wrappers
  import opened Colors
  import opened Positions
  import opened Pieces
  import opened Turns
  import opened Movement
  import opened BoardSpec
  import opened Attacks
  import opened GameStates
  import MoveGen
  import Status

  class Board {
    const squares: array<Option<Piece>>
    var captures: seq<Piece>
    var whoseTurn: Color
    var moves: seq<Turn>
    var halfMoveClock: seq<int>
    var numMoves: int
    var enPassantTarget: Option<Pos>

    ghost predicate Valid()
    {
      squares.Length == 64
    }

    /** The board as a value. */
    ghost function State(): BoardState
      requires Valid()
      reads this, squares
    {
      BoardState(squares[..], captures, whoseTurn, moves, halfMoveClock, numMoves, enPassantTarget)
    }

    /** `Board::default`. */
    constructor Default()
      ensures Valid() && fresh(squares) && State() == DefaultState()
    {
      squares := new Option<Piece>[64](_ => None);
      captures := [];
      whoseTurn := White;
      moves := [];
      halfMoveClock := [0];
      numMoves := 1;
      enPassantTarget := None;
    }

    /** `from_start`: the default board, then four loops filling the home rows and the pawn rows. */
    constructor FromStart()
      ensures Valid() && fresh(squares) && State() == StartState()
    {
      squares := new Option<Piece>[64](_ => None);
      captures := [];
      whoseTurn := White;
      moves := [];
      halfMoveClock := [0];
      numMoves := 1;
      enPassantTarget := None;
      new;
      for i := 0 to 8
        modifies squares
        invariant forall j :: 0 <= j < 64 ==> squares[j] == if j < i then StartSquare(j) else None
      {
        squares[i] := Some(NewPiece(PieceOrder[i], White));
      }
      for i := 56 to 64
        modifies squares
        invariant forall j :: 0 <= j < 64 ==> squares[j] == if j < 8 || 56 <= j < i then StartSquare(j) else None
      {
        squares[i] := Some(NewPiece(PieceOrder[i - 56], Black));
      }
      for i := 8 to 16
        modifies squares
        invariant forall j :: 0 <= j < 64 ==> squares[j] == if j < i || 56 <= j then StartSquare(j) else None
      {
        squares[i] := Some(NewPiece(Pawn, White));
      }
      for i := 48 to 56
        modifies squares
        invariant forall j :: 0 <= j < 64 ==> squares[j] == if j < 16 || 48 <= j < i || 56 <= j then StartSquare(j) else None
      {
        squares[i] := Some(NewPiece(Pawn, Black));
      }
      assert squares[..] == StartState().squares;
    }

    /** `at_position`: the piece on a square, if any. */
    method AtPosition(p: Pos) returns (r: Option<Piece>)
      requires Valid()
      ensures r == State().squares[p]
    {
      r := squares[p];
    }

    method WhoseTurn() returns (c: Color)
      ensures c == whoseTurn
    {
      c := whoseTurn;
    }

    /** `get_prev_turn`. */
    method GetPrevTurn() returns (r: Option<Turn>)
      ensures r == PrevTurn(moves)
    {
      if |moves| == 0 {
        r := None;
      } else {
        r := Some(moves[|moves| - 1]);
      }
    }

    // -------------------------------------------------------------------------
    // make_turn and undo_turn

    /** `make_turn`, step by step; the requires are the source's `expect`s and `assert!`s. */
    method MakeTurn(t: Turn)
      requires Valid() && BoardSpec.MakeTurnPre(State(), t)
      modifies this, squares
      ensures Valid() && State() == BoardSpec.MakeTurn(old(State()), t)
    {
      ghost var s := State();
      ghost var m := BoardSpec.MakeTurn(s, t);
      RemoveCaptured(t);
      assert squares[..] == LiftCapture(s.squares, t);
      if t.kind == Pawn && t.capture.None? {
        if Abs(Row(t.to) - Row(t.from)) == 2 {
          enPassantTarget := Some(New((Row(t.to) + Row(t.from)) / 2, Col(t.from)));
        } else {
          enPassantTarget := None;
        }
        halfMoveClock := halfMoveClock + [-1];
      } else {
        enPassantTarget := None;
      }
      assert enPassantTarget == m.enPassantTarget;
      MovePieces(t);
      assert squares[..] == m.squares;
      halfMoveClock := halfMoveClock[|halfMoveClock| - 1 := halfMoveClock[|halfMoveClock| - 1] + 1];
      assert halfMoveClock == m.halfMoveClock;
      moves := moves + [t];
      whoseTurn := Not(whoseTurn);
      if whoseTurn == White {
        numMoves := numMoves + 1;
      }
    }

    /** The first step of `make_turn`: lift the captured piece onto `captures` and open a clock frame. */
    method RemoveCaptured(t: Turn)
      requires Valid() && (t.capture.Some? ==> squares[t.capture.value].Some?)
      modifies this, squares
      ensures Valid() && squares[..] == LiftCapture(old(squares[..]), t)
      ensures captures == if t.capture.Some? then old(captures + [squares[t.capture.value].value]) else old(captures)
      ensures halfMoveClock == if t.capture.Some? then old(halfMoveClock) + [-1] else old(halfMoveClock)
      ensures whoseTurn == old(whoseTurn) && moves == old(moves) && numMoves == old(numMoves)
      ensures enPassantTarget == old(enPassantTarget)
    {
      if t.capture.Some? {
        var captured := squares[t.capture.value];
        squares[t.capture.value] := None;
        captures := captures + [captured.value];
        squares[t.capture.value] := None;
        halfMoveClock := halfMoveClock + [-1];
      }
    }

    /** The middle of `make_turn`: lift the piece, move the secondary piece, promote, count the move, place. */
    method MovePieces(t: Turn)
      requires Valid() && squares[t.from].Some?
      requires t.additionalMove.Some? ==>
                 squares[..][t.from := None][t.additionalMove.value.0].Some? &&
                 squares[..][t.from := None][t.additionalMove.value.0 := None][t.additionalMove.value.1].None?
      modifies squares
      ensures squares[..] == PlaceSecondary(old(squares[..])[t.from := None], t)[t.to := Some(MovedPiece(old(squares[t.from].value), t))]
    {
      ghost var sq := squares[..];
      var piece := squares[t.from];
      squares[t.from] := None;
      if t.additionalMove.Some? {
        var (a, b) := t.additionalMove.value;
        var secondary := squares[a];
        squares[a] := None;
        squares[b] := secondary;
      }
      assert squares[..] == PlaceSecondary(sq[t.from := None], t);
      var moved := piece.value;
      if t.promoteTo.Some? {
        moved := moved.(kind := t.promoteTo.value);
      }
      moved := moved.(moveCount := moved.moveCount + 1);
      squares[t.to] := Some(moved);
    }

    /** `undo_turn`, step by step. */
    method UndoTurn() returns (r: Option<Turn>)
      requires Valid() && UndoTurnPre(State())
      modifies this, squares
      ensures Valid() && (r, State()) == BoardSpec.UndoTurn(old(State()))
    {
      if |moves| == 0 {
        return None;
      }
      var t := moves[|moves| - 1];
      moves := moves[..|moves| - 1];
      PutBack(t);
      whoseTurn := Not(whoseTurn);
      enPassantTarget := LastDoublePush();
      PopClock();
      if whoseTurn == Black {
        numMoves := numMoves - 1;
      }
      r := Some(t);
    }

    /** The en passant target `undo_turn` recomputes from the turn now on top of the history. */
    method LastDoublePush() returns (ep: Option<Pos>)
      ensures ep == EpOf(moves)
    {
      if |moves| > 0 {
        ep := DoublePushTarget(moves[|moves| - 1]);
      } else {
        ep := None;
      }
    }

    /** The clock step of `undo_turn`: pop a frame at zero, otherwise count its top down. */
    method PopClock()
      requires |halfMoveClock| >= 1
      modifies this
      ensures halfMoveClock == ClockAfterUndo(old(halfMoveClock))
      ensures captures == old(captures) && whoseTurn == old(whoseTurn) && moves == old(moves)
      ensures numMoves == old(numMoves) && enPassantTarget == old(enPassantTarget)
    {
      if halfMoveClock[|halfMoveClock| - 1] == 0 {
        halfMoveClock := halfMoveClock[..|halfMoveClock| - 1];
      } else {
        halfMoveClock := halfMoveClock[|halfMoveClock| - 1 := halfMoveClock[|halfMoveClock| - 1] - 1];
      }
    }

    /** The squares part of `undo_turn`: lift the piece, put back the secondary piece and the capture, restore the piece. */
    method PutBack(t: Turn)
      requires Valid() && squares[t.to].Some?
      requires t.additionalMove.Some? ==> squares[..][t.to := None][t.additionalMove.value.1].Some?
      modifies this, squares
      ensures Valid() && whoseTurn == old(whoseTurn) && moves == old(moves) && halfMoveClock == old(halfMoveClock)
      ensures numMoves == old(numMoves) && enPassantTarget == old(enPassantTarget)
      ensures captures == PutBackCaptures(old(captures), t)
      ensures squares[..] == PutBackSquares(old(squares[..]), old(captures), t)
    {
      var piece := squares[t.to];
      squares[t.to] := None;
      if t.additionalMove.Some? {
        var (a, b) := t.additionalMove.value;
        var secondary := squares[b];
        squares[b] := None;
        squares[a] := secondary;
      }
      if t.capture.Some? {
        if |captures| == 0 {
          squares[t.capture.value] := None;
        } else {
          squares[t.capture.value] := Some(captures[|captures| - 1]);
          captures := captures[..|captures| - 1];
        }
      }
      var back := piece.value;
      if t.promoteFrom.Some? {
        back := back.(kind := t.promoteFrom.value);
      }
      back := back.(moveCount := back.moveCount - 1);
      squares[t.from] := Some(back);
    }

    // -------------------------------------------------------------------------
    // Attacks and legality

    /** `are_pieces_attacking`: the eight ray walks, then the `KNIGHT_MOVES` table; the board is only read. */
    method AreAttacking(position: Pos, color: Color) returns (r: bool)
      requires Valid()
      ensures r == Attacks.AreAttacking(State().squares, PrevTurn(moves), position, color)
    {
      r := RaysAttack(position, color);
      if !r {
        r := KnightsAttack(position, color);
      }
    }

    /** The double loop of `are_pieces_attacking` over the eight directions: does some ray walk end on an attacker? */
    method RaysAttack(position: Pos, color: Color) returns (r: bool)
      requires Valid()
      ensures r <==> exists dr, dc | -1 <= dr <= 1 && -1 <= dc <= 1 && (dr != 0 || dc != 0) ::
                       RayAttack(State().squares, PrevTurn(moves), position, color, dr, dc)
    {
      ghost var sq := State().squares;
      ghost var prev := PrevTurn(moves);
      for dr := -1 to 2
        invariant forall rr, cc | IsDirection(rr, cc) && rr < dr :: !RayAttack(sq, prev, position, color, rr, cc)
      {
        for dc := -1 to 2
          invariant forall rr, cc | IsDirection(rr, cc) && (rr < dr || (rr == dr && cc < dc)) ::
                      !RayAttack(sq, prev, position, color, rr, cc)
        {
          if dr != 0 || dc != 0 {
            var hit := RayAttacks(position, color, dr, dc);
            if hit {
              return true;
            }
          }
        }
      }
      return false;
    }

    /** The loop of `are_pieces_attacking` over `KNIGHT_MOVES`: is a knight of `color` at one of the offsets? */
    method KnightsAttack(position: Pos, color: Color) returns (r: bool)
      requires Valid()
      ensures r <==> exists i | 0 <= i < |Pieces.KnightMoves| :: KnightAttack(State().squares, position, color, Pieces.KnightMoves[i])
    {
      ghost var sq := State().squares;
      for i := 0 to |Pieces.KnightMoves|
        invariant forall j | 0 <= j < i :: !KnightAttack(sq, position, color, Pieces.KnightMoves[j])
      {
        var (dr, dc) := Pieces.KnightMoves[i];
        var o := Offset(position, dr, dc);
        if o.Some? {
          var piece := squares[o.value];
          if piece.Some? && piece.value.kind == Knight && piece.value.color == color {
            assert KnightAttack(sq, position, color, Pieces.KnightMoves[i]);
            return true;
          }
        }
      }
      return false;
    }

    /** One ray walk of `are_pieces_attacking`: step until the edge or the first piece, and test that piece. */
    method RayAttacks(position: Pos, color: Color, dr: int, dc: int) returns (r: bool)
      requires Valid() && IsDirection(dr, dc)
      ensures r == RayAttack(State().squares, PrevTurn(moves), position, color, dr, dc)
    {
      ghost var sq := State().squares;
      var pos := position;
      while true
        invariant FirstOnRay(sq, position, dr, dc) == FirstOnRay(sq, pos, dr, dc)
        decreases Room(pos, dr, dc)
      {
        var next := Offset(pos, dr, dc);
        if next.None? {
          return false;
        }
        RoomStep(pos, dr, dc);
        pos := next.value;
        var piece := squares[pos];
        if piece.Some? {
          var prevTurn := GetPrevTurn();
          return piece.value.color == color && CouldMoveTo(piece.value, pos, position, squares[position].Some?, prevTurn);
        }
      }
    }

    /** `find_king`: the first square holding a king of that colour (the source panics when there is none). */
    method FindKing(color: Color) returns (k: Pos)
      requires Valid() && HasKing(State().squares, color)
      ensures k == Attacks.FindKing(State().squares, color)
    {
      var i := 0;
      while !(squares[i].Some? && squares[i].value.kind == King && squares[i].value.color == color)
        invariant 0 <= i < 64
        invariant forall j: Pos :: j < i ==> !IsKingOf(State().squares[j], color)
        decreases 64 - i
      {
        i := i + 1;
      }
      k := i;
    }

    /** `is_king_attacked(color)`. */
    method IsKingAttacked(color: Color) returns (r: bool)
      requires Valid() && HasKing(State().squares, color)
      ensures r == KingAttacked(State(), color)
    {
      var k := FindKing(color);
      r := AreAttacking(k, Not(color));
    }

    /** `is_move_legal`: make the turn, test the mover's king, undo. */
    method IsMoveLegal(t: Turn) returns (valid: bool)
      requires Valid() && MoveGen.CanTest(State(), t)
      modifies this, squares
      ensures Valid() && MoveGen.IsMoveLegal(old(State()), t) == MoveGen.Run(valid, State(), false)
    {
      ghost var s := State();
      MakeTurn(t);
      var attacked := IsKingAttacked(Not(whoseTurn));
      valid := !attacked;
      MakeUndo(s, t);
      var _ := UndoTurn();
    }

    // -------------------------------------------------------------------------
    // Move generation.  Each generator is proved to produce the move list and
    // the board of the `MoveGen` function of the same name; the requires says
    // that function does not panic from here.

    /** `get_turn_simple`. */
    method GetTurnSimple(from: Pos, to: Pos) returns (r: Option<Turn>)
      requires Valid() && squares[from].Some?
      ensures r == MoveGen.TurnSimple(State().squares, from, to)
    {
      var mover := squares[from].value;
      if squares[to].Some? {
        if squares[to].value.color != mover.color {
          r := Some(NewCapture(mover.kind, from, to));
        } else {
          r := None;
        }
      } else {
        r := Some(NewBasic(mover.kind, from, to));
      }
    }

    /** `add_move_if_legal`: the list is passed in and handed back. */
    method AddMoveIfLegal(t: Turn, ms: seq<Turn>) returns (ms': seq<Turn>)
      requires Valid() && !MoveGen.AddIfLegal(MoveGen.Run(ms, State(), false), t).panicked
      modifies this, squares
      ensures Valid() && MoveGen.Run(ms', State(), false) == MoveGen.AddIfLegal(MoveGen.Run(ms, old(State()), false), t)
    {
      var legal := IsMoveLegal(t);
      if legal {
        ms' := ms + [t];
      } else {
        ms' := ms;
      }
    }

    /** `line_moves`: for each direction, walk until the edge, a piece of the mover's colour, or a capture. */
    method LineMoves(pos: Pos, dirs: seq<(int, int)>) returns (ms: seq<Turn>)
      requires Valid() && MoveGen.AllDirections(dirs) && !MoveGen.LineMoves(State(), pos, dirs).panicked
      modifies this, squares
      ensures Valid() && MoveGen.Run(ms, State(), false) == MoveGen.LineMoves(old(State()), pos, dirs)
    {
      ghost var goal := MoveGen.LineMoves(State(), pos, dirs);
      ms := [];
      for i := 0 to |dirs|
        invariant goal == MoveGen.LineDirs(MoveGen.Run(ms, State(), false), pos, dirs, i)
      {
        var (dr, dc) := dirs[i];
        var cur := pos;
        while true
          invariant goal == MoveGen.LineDirs(MoveGen.LineRay(MoveGen.Run(ms, State(), false), pos, cur, dr, dc), pos, dirs, i + 1)
          decreases Room(cur, dr, dc)
        {
          ghost var g := MoveGen.Run(ms, State(), false);
          var next := Offset(cur, dr, dc);
          if next.None? {
            break;
          }
          RoomStep(cur, dr, dc);
          ghost var rest := MoveGen.LineRay(g, pos, cur, dr, dc);
          assert !rest.panicked;
          cur := next.value;
          var t := GetTurnSimple(pos, cur);
          if t.None? {
            break;
          }
          ms := AddMoveIfLegal(t.value, ms);
          if t.value.capture.Some? {
            break;
          }
        }
      }
    }

    /** `rook_moves`. */
    method RookMoves(pos: Pos) returns (ms: seq<Turn>)
      requires Valid() && !MoveGen.LineMoves(State(), pos, MoveGen.RookDirections).panicked
      modifies this, squares
      ensures Valid() && MoveGen.Run(ms, State(), false) == MoveGen.LineMoves(old(State()), pos, MoveGen.RookDirections)
    {
      MoveGen.DirectionTables();
      ms := LineMoves(pos, MoveGen.RookDirections);
    }

    /** `bishop_moves`. */
    method BishopMoves(pos: Pos) returns (ms: seq<Turn>)
      requires Valid() && !MoveGen.LineMoves(State(), pos, MoveGen.BishopDirections).panicked
      modifies this, squares
      ensures Valid() && MoveGen.Run(ms, State(), false) == MoveGen.LineMoves(old(State()), pos, MoveGen.BishopDirections)
    {
      MoveGen.DirectionTables();
      ms := LineMoves(pos, MoveGen.BishopDirections);
    }

    /** `queen_moves`: the rook's directions, then the bishop's. */
    method QueenMoves(pos: Pos) returns (ms: seq<Turn>)
      requires Valid() && !MoveGen.LineMoves(State(), pos, MoveGen.QueenDirections).panicked
      modifies this, squares
      ensures Valid() && MoveGen.Run(ms, State(), false) == MoveGen.LineMoves(old(State()), pos, MoveGen.QueenDirections)
    {
      MoveGen.DirectionTables();
      ms := LineMoves(pos, MoveGen.QueenDirections);
    }

    /** One candidate of the king and knight loops: the simple turn onto `to`, if any, tried for legality. */
    method SimpleMove(from: Pos, to: Pos, ms: seq<Turn>) returns (ms': seq<Turn>)
      requires Valid() && !MoveGen.SimpleStep(MoveGen.Run(ms, State(), false), from, to).panicked
      modifies this, squares
      ensures Valid() && MoveGen.Run(ms', State(), false) == MoveGen.SimpleStep(MoveGen.Run(ms, old(State()), false), from, to)
    {
      var t := GetTurnSimple(from, to);
      ms' := ms;
      if t.Some? {
        ms' := AddMoveIfLegal(t.value, ms);
      }
    }

    /** `king_moves`: the eight neighbours, then castling for an unmoved king on its home row. */
    method KingMoves(from: Pos) returns (ms: seq<Turn>)
      requires Valid() && !MoveGen.KingMoves(State(), from).panicked
      modifies this, squares
      ensures Valid() && MoveGen.Run(ms, State(), false) == MoveGen.KingMoves(old(State()), from)
    {
      ghost var rows := MoveGen.KingRows(MoveGen.Start(State()), from, -1);
      ms := [];
      for r := -1 to 2
        invariant rows == MoveGen.KingRows(MoveGen.Run(ms, State(), false), from, r)
      {
        for c := -1 to 2
          invariant rows == MoveGen.KingRows(MoveGen.KingCols(MoveGen.Run(ms, State(), false), from, r, c), from, r + 1)
        {
          if r != 0 || c != 0 {
            var to := Offset(from, r, c);
            if to.Some? {
              ms := SimpleMove(from, to.value, ms);
            }
          }
        }
      }
      var piece := squares[from].value;
      if piece.moveCount == 0 && Row(from) == Home(piece.color) {
        ms := CastlingMoves(from, ms);
      }
    }

    /** `castling_moves`: the source's loop over `[(0, 1, 6), (0, -1, 2)]`, one scan per side. */
    method CastlingMoves(from: Pos, ms: seq<Turn>) returns (ms': seq<Turn>)
      requires Valid() && !MoveGen.CastlingMoves(MoveGen.Run(ms, State(), false), from).panicked
      modifies this, squares
      ensures Valid() && MoveGen.Run(ms', State(), false) == MoveGen.CastlingMoves(MoveGen.Run(ms, old(State()), false), from)
    {
      ms' := CastleScan(from, 1, 6, ms);
      ms' := CastleScan(from, -1, 2, ms');
    }

    /** The `while let` of `castling_moves` along one side of the king. */
    method CastleScan(from: Pos, col: int, resCol: int, ms: seq<Turn>) returns (ms': seq<Turn>)
      requires Valid() && (col == 1 || col == -1) && 0 <= resCol < 8 && 0 <= resCol - col < 8
      requires !MoveGen.CastleScan(MoveGen.Run(ms, State(), false), from, from, col, resCol).panicked
      modifies this, squares
      ensures Valid() && MoveGen.Run(ms', State(), false) == MoveGen.CastleScan(MoveGen.Run(ms, old(State()), false), from, from, col, resCol)
    {
      ghost var goal := MoveGen.CastleScan(MoveGen.Run(ms, State(), false), from, from, col, resCol);
      ms' := ms;
      var cur := from;
      while true
        invariant MoveGen.OnScan(from, cur, col)
        invariant goal == MoveGen.CastleScan(MoveGen.Run(ms', State(), false), from, cur, col, resCol)
        decreases Room(cur, 0, col)
      {
        var next := Offset(cur, 0, col);
        if next.None? {
          break;
        }
        RoomStep(cur, 0, col);
        cur := next.value;
        var goOn;
        goOn, ms' := CastlingSingleMove(cur, from, col, resCol, 0, ms');
        if !goOn {
          break;
        }
      }
    }

    /** `castling_single_move`: answers whether the scan goes on. */
    method CastlingSingleMove(newPos: Pos, fromPos: Pos, col: int, resCol: int, row: int, ms: seq<Turn>)
      returns (goOn: bool, ms': seq<Turn>)
      requires Valid() && (col == 1 || col == -1)
      requires 0 <= Col(fromPos) + col < 8 && 0 <= resCol < 8 && 0 <= resCol - col < 8 && 0 <= row < 8
      requires !MoveGen.CastlingSingleMove(MoveGen.Run(ms, State(), false), newPos, fromPos, col, resCol, row).1.panicked
      modifies this, squares
      ensures Valid()
      ensures (goOn, MoveGen.Run(ms', State(), false)) ==
              MoveGen.CastlingSingleMove(MoveGen.Run(ms, old(State()), false), newPos, fromPos, col, resCol, row)
    {
      ghost var g := MoveGen.Run(ms, State(), false);
      ms' := ms;
      goOn := true;
      if squares[newPos].Some? {
        assert squares[fromPos].Some?;
        var other := squares[newPos].value;
        var mover := squares[fromPos].value;
        if !(other.kind == Rook && other.color == mover.color && other.moveCount == 0) {
          return false, ms;
        }
        var from, to := Col(fromPos) + col, resCol - col;
        var attacked := SquaresAttacked(row, MoveGen.Min(from, to), MoveGen.Max(from, to), Not(mover.color));
        if attacked {
          return false, ms;
        }
        var t := MoveGen.CastleTurn(mover.kind, fromPos, newPos, col, resCol);
        assert MoveGen.CastlingSingleMove(g, newPos, fromPos, col, resCol, row) == (true, MoveGen.AddIfLegal(g, t));
        ms' := AddMoveIfLegal(t, ms);
      }
    }

    /** The `for c in start..stop` loop of `castling_single_move`: is any square (row, c) attacked? */
    method SquaresAttacked(row: int, start: int, stop: int, color: Color) returns (r: bool)
      requires Valid() && 0 <= row < 8 && 0 <= start && stop <= 8
      ensures r == MoveGen.SquaresAttacked(State(), row, start, stop, color)
    {
      ghost var s0 := State();
      if stop <= start {
        return false;
      }
      var c := start;
      while c < stop
        invariant start <= c <= stop
        invariant !MoveGen.SquaresAttacked(s0, row, start, c, color)
      {
        var attacked := AreAttacking(New(row, c), color);
        if attacked {
          return true;
        }
        MoveGen.SquaresAttackedStep(s0, row, start, c, color);
        c := c + 1;
      }
      return false;
    }

    /** `knight_moves`: one simple turn per `KNIGHT_MOVES` offset that stays on the board. */
    method KnightMoves(pos: Pos) returns (ms: seq<Turn>)
      requires Valid() && !MoveGen.KnightMovesOf(State(), pos).panicked
      modifies this, squares
      ensures Valid() && MoveGen.Run(ms, State(), false) == MoveGen.KnightMovesOf(old(State()), pos)
    {
      ghost var goal := MoveGen.KnightMovesOf(State(), pos);
      ms := [];
      ghost var g := MoveGen.Run(ms, State(), false);
      for i := 0 to |Pieces.KnightMoves|
        invariant g == MoveGen.Run(ms, State(), false)
        invariant goal == MoveGen.KnightSteps(g, pos, i)
      {
        assert goal == MoveGen.KnightSteps(MoveGen.KnightStep(g, pos, i), pos, i + 1);
        assert !MoveGen.KnightStep(g, pos, i).panicked;
        ms := KnightMove(pos, i, ms);
        g := MoveGen.KnightStep(g, pos, i);
      }
    }

    /** One entry (r, c) of `KNIGHT_MOVES`: the simple turn to `pos` + (r, c), if on the board. */
    method KnightMove(pos: Pos, i: nat, ms: seq<Turn>) returns (ms': seq<Turn>)
      requires Valid() && i < |Pieces.KnightMoves| && !MoveGen.KnightStep(MoveGen.Run(ms, State(), false), pos, i).panicked
      modifies this, squares
      ensures Valid() && MoveGen.Run(ms', State(), false) == MoveGen.KnightStep(MoveGen.Run(ms, old(State()), false), pos, i)
    {
      var (r, c) := Pieces.KnightMoves[i];
      var to := Offset(pos, r, c);
      ms' := ms;
      if to.Some? {
        ms' := SimpleMove(pos, to.value, ms);
      }
    }

    /** One promotion of the loop over `PROMOTABLE_TYPES`, tried for legality. */
    method AddPromotion(kind: PieceType, from: Pos, to: Pos, capture: bool, i: nat, ms: seq<Turn>) returns (ms': seq<Turn>)
      requires Valid() && i < |PromotableTypes|
      requires !MoveGen.PromotionStep(MoveGen.Run(ms, State(), false), kind, from, to, capture, i).panicked
      modifies this, squares
      ensures Valid()
      ensures MoveGen.Run(ms', State(), false) == MoveGen.PromotionStep(MoveGen.Run(ms, old(State()), false), kind, from, to, capture, i)
    {
      ms' := AddMoveIfLegal(NewPromotion(kind, from, to, PromotableTypes[i], capture), ms);
    }

    /** The `for promo in PROMOTABLE_TYPES` loops of `pawn_advance` and `pawn_capture`. */
    method AddPromotions(kind: PieceType, from: Pos, to: Pos, capture: bool, ms: seq<Turn>) returns (ms': seq<Turn>)
      requires Valid() && !MoveGen.Promotions(MoveGen.Run(ms, State(), false), kind, from, to, capture, 0).panicked
      modifies this, squares
      ensures Valid()
      ensures MoveGen.Run(ms', State(), false) == MoveGen.Promotions(MoveGen.Run(ms, old(State()), false), kind, from, to, capture, 0)
    {
      ghost var goal := MoveGen.Promotions(MoveGen.Run(ms, State(), false), kind, from, to, capture, 0);
      ms' := ms;
      ghost var g := MoveGen.Run(ms', State(), false);
      for i := 0 to |PromotableTypes|
        invariant g == MoveGen.Run(ms', State(), false)
        invariant goal == MoveGen.Promotions(g, kind, from, to, capture, i)
      {
        assert goal == MoveGen.Promotions(MoveGen.PromotionStep(g, kind, from, to, capture, i), kind, from, to, capture, i + 1);
        assert !MoveGen.PromotionStep(g, kind, from, to, capture, i).panicked;
        ms' := AddPromotion(kind, from, to, capture, i, ms');
        g := MoveGen.PromotionStep(g, kind, from, to, capture, i);
      }
    }

    /** `pawn_advance`. */
    method PawnAdvance(pos: Pos, ms: seq<Turn>) returns (ms': seq<Turn>)
      requires Valid() && !MoveGen.PawnAdvance(MoveGen.Run(ms, State(), false), pos).panicked
      modifies this, squares
      ensures Valid() && MoveGen.Run(ms', State(), false) == MoveGen.PawnAdvance(MoveGen.Run(ms, old(State()), false), pos)
    {
      ghost var s := State();
      ms' := ms;
      var piece := squares[pos].value;
      var dir := Direction(piece.color);
      var ahead := Offset(pos, dir, 0);
      if ahead.Some? && squares[ahead.value].None? {
        if Row(ahead.value) == Home(Not(piece.color)) {
          ms' := AddPromotions(piece.kind, pos, ahead.value, false, ms');
        } else {
          ms' := AddMoveIfLegal(NewBasic(piece.kind, pos, ahead.value), ms');
        }
        if Row(pos) == Home(piece.color) + dir {
          var twoAhead := Offset(ahead.value, dir, 0);
          if squares[twoAhead.value].None? {
            ms' := AddMoveIfLegal(NewBasic(piece.kind, pos, twoAhead.value), ms');
          }
        }
      }
    }

    /** `pawn_capture(pos, c_off)`. */
    method PawnCapture(pos: Pos, cOff: int, ms: seq<Turn>) returns (ms': seq<Turn>)
      requires Valid() && !MoveGen.PawnCapture(MoveGen.Run(ms, State(), false), pos, cOff).panicked
      modifies this, squares
      ensures Valid() && MoveGen.Run(ms', State(), false) == MoveGen.PawnCapture(MoveGen.Run(ms, old(State()), false), pos, cOff)
    {
      ms' := ms;
      var mover := squares[pos].value;
      var target := Offset(pos, Direction(mover.color), cOff);
      if target.Some? && squares[target.value].Some? {
        var other := squares[target.value].value;
        if mover.color == Not(other.color) {
          if Row(target.value) == Home(other.color) {
            ms' := AddPromotions(other.kind, pos, target.value, true, ms');
          } else {
            ms' := AddMoveIfLegal(NewCapture(mover.kind, pos, target.value), ms');
          }
        }
      }
    }

    /** `pawn_en_passant`. */
    method PawnEnPassant(pos: Pos, ms: seq<Turn>) returns (ms': seq<Turn>)
      requires Valid() && !MoveGen.PawnEnPassant(MoveGen.Run(ms, State(), false), pos).panicked
      modifies this, squares
      ensures Valid() && MoveGen.Run(ms', State(), false) == MoveGen.PawnEnPassant(MoveGen.Run(ms, old(State()), false), pos)
    {
      ms' := ms;
      var mover := squares[pos].value;
      if enPassantTarget.Some? {
        var target := enPassantTarget.value;
        if Row(pos) + Direction(mover.color) == Row(target) && Abs(Col(pos) - Col(target)) == 1 {
          ms' := AddMoveIfLegal(NewCaptureComplex(mover.kind, pos, target, New(Row(pos), Col(target))), ms');
        }
      }
    }

    /** `pawn_moves`: advance, capture to each side, en passant. */
    method PawnMoves(pos: Pos) returns (ms: seq<Turn>)
      requires Valid() && !MoveGen.PawnMoves(State(), pos).panicked
      modifies this, squares
      ensures Valid() && MoveGen.Run(ms, State(), false) == MoveGen.PawnMoves(old(State()), pos)
    {
      ghost var s := State();
      ghost var g1 := MoveGen.PawnAdvance(MoveGen.Start(s), pos);
      ghost var g2 := MoveGen.PawnCapture(g1, pos, -1);
      ghost var g3 := MoveGen.PawnCapture(g2, pos, 1);
      assert !g3.panicked && !g2.panicked && !g1.panicked;
      ms := PawnAdvance(pos, []);
      ms := PawnCapture(pos, -1, ms);
      ms := PawnCapture(pos, 1, ms);
      ms := PawnEnPassant(pos, ms);
    }

    /** `get_piece_moves`: dispatch on the kind of the piece at `pos`. */
    method GetPieceMoves(pos: Pos) returns (ms: seq<Turn>)
      requires Valid() && !MoveGen.PieceMoves(State(), pos).panicked
      modifies this, squares
      ensures Valid() && MoveGen.Run(ms, State(), false) == MoveGen.PieceMoves(old(State()), pos)
    {
      var kind := squares[pos].value.kind;
      match kind
      case King => ms := KingMoves(pos);
      case Queen => ms := QueenMoves(pos);
      case Rook => ms := RookMoves(pos);
      case Bishop => ms := BishopMoves(pos);
      case Knight => ms := KnightMoves(pos);
      case Pawn => ms := PawnMoves(pos);
    }

    /** `do_get_moves`: the moves of every piece of the side to move, in square order. */
    method DoGetMoves() returns (turns: seq<Turn>)
      requires Valid() && !MoveGen.DoGetMoves(State()).panicked
      modifies this, squares
      ensures Valid() && MoveGen.Run(turns, State(), false) == MoveGen.DoGetMoves(old(State()))
    {
      ghost var goal := MoveGen.DoGetMoves(State());
      turns := [];
      for i := 0 to 64
        invariant goal == MoveGen.DoGetMovesFrom(MoveGen.Run(turns, State(), false), i)
      {
        if squares[i].Some? && squares[i].value.color == whoseTurn {
          var more := GetPieceMoves(i);
          turns := turns + more;
        }
      }
    }

    /** `is_50_move_rule`. */
    method Is50MoveRule() returns (r: bool)
      requires Valid() && |halfMoveClock| >= 1
      ensures MoveGen.FiftyMoveRule(State()) == MoveGen.Run(r, State(), false)
    {
      r := halfMoveClock[|halfMoveClock| - 1] >= 100;
    }

    /** `is_threefold_repetition`: not implemented by the source; always false. */
    method IsThreefoldRepetition() returns (r: bool)
      requires Valid()
      ensures r == Status.IsThreefoldRepetition(State())
    {
      r := false;
    }

    /** `is_insufficient_material`: not implemented by the source; always false. */
    method IsInsufficientMaterial() returns (r: bool)
      requires Valid()
      ensures r == Status.IsInsufficientMaterial(State())
    {
      r := false;
    }

    /** `get_moves`: nothing under the fifty-move rule (or threefold repetition), otherwise `do_get_moves`. */
    method GetMoves() returns (turns: seq<Turn>)
      requires Valid() && !MoveGen.GetMoves(State()).panicked
      modifies this, squares
      ensures Valid() && MoveGen.Run(turns, State(), false) == MoveGen.GetMoves(old(State()))
    {
      var threefold := IsThreefoldRepetition();
      var fifty := Is50MoveRule();
      if threefold || fifty {
        turns := [];
      } else {
        turns := DoGetMoves();
      }
    }

    // -------------------------------------------------------------------------
    // The state of the game

    /** `is_check`: the side to move's king is attacked. */
    method IsCheck() returns (r: bool)
      requires Valid() && HasKing(State().squares, whoseTurn)
      ensures Status.IsCheck(State()) == MoveGen.Run(r, State(), false)
    {
      r := IsKingAttacked(whoseTurn);
    }

    /** `is_checkmate`: in check and no generated move. */
    method IsCheckmate() returns (r: bool)
      requires Valid() && !Status.IsCheckmate(State()).panicked
      modifies this, squares
      ensures Valid() && Status.IsCheckmate(old(State())) == MoveGen.Run(r, State(), false)
    {
      var check := IsCheck();
      if !check {
        return false;
      }
      var turns := DoGetMoves();
      r := turns == [];
    }

    /** `is_stalemate`: not in check and no generated move. */
    method IsStalemate() returns (r: bool)
      requires Valid() && !Status.IsStalemate(State()).panicked
      modifies this, squares
      ensures Valid() && Status.IsStalemate(old(State())) == MoveGen.Run(r, State(), false)
    {
      var check := IsCheck();
      if check {
        return false;
      }
      var turns := DoGetMoves();
      r := turns == [];
    }

    /** `is_draw`. */
    method IsDraw() returns (r: bool)
      requires Valid() && !Status.IsDraw(State()).panicked
      modifies this, squares
      ensures Valid() && Status.IsDraw(old(State())) == MoveGen.Run(r, State(), false)
    {
      var mate := IsCheckmate();
      if mate {
        return false;
      }
      var stale := IsStalemate();
      if stale {
        return true;
      }
      var threefold := IsThreefoldRepetition();
      if threefold {
        return true;
      }
      var fifty := Is50MoveRule();
      if fifty {
        return true;
      }
      r := IsInsufficientMaterial();
    }

    /** `is_game_over`: a draw, or checkmate. */
    method IsGameOver() returns (r: bool)
      requires Valid() && !Status.IsGameOver(State()).panicked
      modifies this, squares
      ensures Valid() && Status.IsGameOver(old(State())) == MoveGen.Run(r, State(), false)
    {
      var draw := IsDraw();
      if draw {
        return true;
      }
      r := IsCheckmate();
    }

    /** `get_game_state`. */
    method GetGameState() returns (r: GameState)
      requires Valid() && !Status.GetGameState(State()).panicked
      modifies this, squares
      ensures Valid() && Status.GetGameState(old(State())) == MoveGen.Run(r, State(), false)
    {
      var mate := IsCheckmate();
      if mate {
        return Win(Not(whoseTurn), Checkmate);
      }
      var stale := IsStalemate();
      if stale {
        return Draw(Stalemate);
      }
      var fifty := Is50MoveRule();
      if fifty {
        return Draw(DrawReason.FiftyMoveRule);
      }
      var threefold := IsThreefoldRepetition();
      if threefold {
        return Draw(ThreefoldRepetition);
      }
      var insufficient := IsInsufficientMaterial();
      if insufficient {
        return Draw(InsufficientMaterial);
      }
      r := Playing;
    }
  }
}
