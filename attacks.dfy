/**
 * Attack detection (`are_pieces_attacking`, `find_king`, `is_king_attacked`
 * in src/game/board/moves.rs) as functions of the squares and the previous
 * turn.  The read-only loops of class `Board` are proved to compute these.
 */
module Attacks {
  import opened Wrappers
  import opened Colors
  import opened Positions
  import opened Pieces
  import opened Turns
  import opened Movement
  import opened BoardSpec

  /** One of the eight unit steps the ray loops walk (`r`, `c` in {-1, 0, 1}, not both 0). */
  predicate IsDirection(dr: int, dc: int)
  {
    -1 <= dr <= 1 && -1 <= dc <= 1 && (dr != 0 || dc != 0)
  }

  /** Steps left along one coordinate before leaving the board (8 stands for "no limit"). */
  function Reach(x: int, d: int): int
  {
    if d == 1 then 7 - x else if d == -1 then x else 8
  }

  /** How many steps a ray from `p` takes before leaving the board. */
  function Room(p: Pos, dr: int, dc: int): (n: nat)
    requires IsDirection(dr, dc)
    ensures n == 0 <==> Offset(p, dr, dc).None?
    ensures n <= 7
  {
    var a := Reach(Row(p), dr);
    var b := Reach(Col(p), dc);
    if a < b then a else b
  }

  lemma RoomStep(p: Pos, dr: int, dc: int)
    requires IsDirection(dr, dc) && Offset(p, dr, dc).Some?
    ensures Room(Offset(p, dr, dc).value, dr, dc) == Room(p, dr, dc) - 1
  {}

  /** The squares of the ray from `p` (excluding `p`) up to the edge of the board. */
  function Ray(p: Pos, dr: int, dc: int): (ray: seq<Pos>)
    requires IsDirection(dr, dc)
    ensures |ray| == Room(p, dr, dc)
    decreases Room(p, dr, dc)
  {
    match Offset(p, dr, dc)
    case None => []
    case Some(q) =>
      RoomStep(p, dr, dc);
      [q] + Ray(q, dr, dc)
  }

  /** k steps of a unit offset d in {-1, 0, 1}, that is k * d, without the multiplication. */
  function Steps(k: int, d: int): (r: int)
    requires -1 <= d <= 1
    ensures d == 0 ==> r == 0
    ensures d != 0 ==> r == k || r == -k
  {
    if d == 1 then k else if d == -1 then -k else 0
  }

  /** The i-th square of the ray is i + 1 steps of (dr, dc) away from `p`. */
  lemma {:induction false} RayGeometry(p: Pos, dr: int, dc: int, i: nat)
    requires IsDirection(dr, dc) && i < |Ray(p, dr, dc)|
    ensures Row(Ray(p, dr, dc)[i]) == Row(p) + Steps(i + 1, dr)
    ensures Col(Ray(p, dr, dc)[i]) == Col(p) + Steps(i + 1, dc)
    ensures Ray(p, dr, dc)[i] == p + 8 * Steps(i + 1, dr) + Steps(i + 1, dc)
    decreases i
  {
    var q := Offset(p, dr, dc).value;
    RoomStep(p, dr, dc);
    if i > 0 {
      RayGeometry(q, dr, dc, i - 1);
      assert Ray(p, dr, dc)[i] == Ray(q, dr, dc)[i - 1];
    }
  }

  /**
   * The first occupied square of a sequence of squares: every square before it
   * is empty, and None means every square is empty.
   */
  function FirstOccupied(sq: Squares, ray: seq<Pos>): (r: Option<Pos>)
    ensures r.Some? ==> exists i :: 0 <= i < |ray| && ray[i] == r.value && sq[r.value].Some? &&
                          forall j :: 0 <= j < i ==> sq[ray[j]].None?
    ensures r.None? <==> forall j :: 0 <= j < |ray| ==> sq[ray[j]].None?
  {
    if |ray| == 0 then None
    else if sq[ray[0]].Some? then Some(ray[0])
    else
      var r := FirstOccupied(sq, ray[1..]);
      assert r.Some? ==> exists i :: 0 <= i < |ray[1..]| && ray[1..][i] == r.value && sq[r.value].Some? &&
                          forall j :: 0 <= j < i ==> sq[ray[1..][j]].None?;
      assert r.Some? ==> exists i :: 0 <= i < |ray| && ray[i] == r.value && sq[r.value].Some? &&
                          forall j :: 0 <= j < i ==> sq[ray[j]].None?;
      r
  }

  /**
   * The ray walk of `are_pieces_attacking`: step from `p` until a piece is
   * found or the board ends.  It finds the first occupied square of the ray.
   */
  function FirstOnRay(sq: Squares, p: Pos, dr: int, dc: int): (r: Option<Pos>)
    requires IsDirection(dr, dc)
    ensures r == FirstOccupied(sq, Ray(p, dr, dc))
    decreases Room(p, dr, dc)
  {
    match Offset(p, dr, dc)
    case None => None
    case Some(q) =>
      RoomStep(p, dr, dc);
      if sq[q].Some? then Some(q) else FirstOnRay(sq, q, dr, dc)
  }

  /**
   * The first piece on the ray from `target` is of `color` and `could_move_to`
   * the target.  The pawn rule sees the target's occupancy and the previous turn.
   */
  predicate RayAttack(sq: Squares, prev: Option<Turn>, target: Pos, color: Color, dr: int, dc: int)
    requires IsDirection(dr, dc)
  {
    var f := FirstOnRay(sq, target, dr, dc);
    f.Some? && sq[f.value].value.color == color &&
    CouldMoveTo(sq[f.value].value, f.value, target, sq[target].Some?, prev)
  }

  /** A knight of `color` stands at the offset `m` from `target`. */
  predicate KnightAttack(sq: Squares, target: Pos, color: Color, m: (int, int))
  {
    var o := Offset(target, m.0, m.1);
    o.Some? && sq[o.value].Some? && sq[o.value].value.kind == Knight && sq[o.value].value.color == color
  }

  /** `are_pieces_attacking(target, color)`: some ray attack, or a knight at a `KNIGHT_MOVES` offset. */
  predicate AreAttacking(sq: Squares, prev: Option<Turn>, target: Pos, color: Color)
  {
    || (exists dr, dc | -1 <= dr <= 1 && -1 <= dc <= 1 && (dr != 0 || dc != 0) :: RayAttack(sq, prev, target, color, dr, dc))
    || (exists i | 0 <= i < |KnightMoves| :: KnightAttack(sq, target, color, KnightMoves[i]))
  }

  /** The first king of colour `c` at index `i` or later. */
  function FindKingFrom(sq: Squares, c: Color, i: nat): (k: Pos)
    requires exists k: Pos :: i <= k && IsKingOf(sq[k], c)
    ensures i <= k && IsKingOf(sq[k], c)
    ensures forall j: Pos :: i <= j < k ==> !IsKingOf(sq[j], c)
    decreases 64 - i
  {
    if IsKingOf(sq[i], c) then i else FindKingFrom(sq, c, i + 1)
  }

  /** `find_king`: the lowest-indexed king of colour `c`; the source panics when there is none. */
  function FindKing(sq: Squares, c: Color): (k: Pos)
    requires HasKing(sq, c)
    ensures IsKingOf(sq[k], c)
    ensures forall j: Pos :: j < k ==> !IsKingOf(sq[j], c)
  {
    FindKingFrom(sq, c, 0)
  }

  /** A board whose only pieces stand on a1 and b3. */
  predicate OnlyA1AndB3(sq: Squares)
  {
    forall i: Pos :: i != 17 && i != 0 ==> sq[i].None?
  }

  /** `is_king_attacked(c)`: pieces of the other colour attack `c`'s king. */
  predicate KingAttacked(s: BoardState, c: Color)
    requires HasKing(s.squares, c)
  {
    AreAttacking(s.squares, PrevTurn(s.moves), FindKing(s.squares, c), Not(c))
  }
}

/** What attack detection does and does not see. */
module AttackProperties {
  import opened Wrappers
  import opened Colors
  import opened Positions
  import opened Pieces
  import opened Turns
  import opened Movement
  import opened BoardSpec
  import opened Attacks

  /**
   * The first piece on a ray, and so any ray attacker, stands `k` steps of
   * (dr, dc) from the target, for some k from 1 to 7.
   */
  lemma FirstOnRayGeometry(sq: Squares, target: Pos, dr: int, dc: int)
    requires IsDirection(dr, dc) && FirstOnRay(sq, target, dr, dc).Some?
    ensures var a := FirstOnRay(sq, target, dr, dc).value;
      exists k :: 1 <= k <= 7 && Row(a) == Row(target) + Steps(k, dr) && Col(a) == Col(target) + Steps(k, dc)
  {
    var ray := Ray(target, dr, dc);
    var a := FirstOnRay(sq, target, dr, dc).value;
    var i :| 0 <= i < |ray| && ray[i] == a && sq[a].Some? && forall j :: 0 <= j < i ==> sq[ray[j]].None?;
    RayGeometry(target, dr, dc, i);
    assert Row(a) == Row(target) + Steps(i + 1, dr) && Col(a) == Col(target) + Steps(i + 1, dc);
  }

  /** A neighbouring king of `color` attacks: it is first on its ray and a king moves one step. */
  lemma AdjacentKingAttacks(sq: Squares, prev: Option<Turn>, target: Pos, color: Color, q: Pos)
    requires q != target && Abs(Row(q) - Row(target)) <= 1 && Abs(Col(q) - Col(target)) <= 1
    requires IsKingOf(sq[q], color)
    ensures AreAttacking(sq, prev, target, color)
  {
    var dr, dc := Row(q) - Row(target), Col(q) - Col(target);
    RowColInjective(q, target);
    assert IsDirection(dr, dc);
    assert Offset(target, dr, dc) == Some(q) by { RowColInjective(Offset(target, dr, dc).value, q); }
    assert RayAttack(sq, prev, target, color, dr, dc);
  }

  /**
   * Because `KNIGHT_MOVES` holds unit steps, a knight of `color` directly
   * beside or above the target counts as attacking it.
   */
  lemma OrthogonalKnightAttacks(sq: Squares, prev: Option<Turn>, target: Pos, color: Color, i: nat)
    requires i < |KnightMoves|
    requires var o := Offset(target, KnightMoves[i].0, KnightMoves[i].1);
      o.Some? && sq[o.value].Some? && sq[o.value].value.kind == Knight && sq[o.value].value.color == color
    ensures AreAttacking(sq, prev, target, color)
  {
    assert KnightAttack(sq, target, color, KnightMoves[i]);
  }

  /** b3 (square 17) is on none of the rays from a1 (square 0). */
  lemma B3OffCornerRays(dr: int, dc: int, j: nat)
    requires IsDirection(dr, dc) && j < |Ray(0, dr, dc)|
    ensures Ray(0, dr, dc)[j] != 17 && Ray(0, dr, dc)[j] != 0
  {
    RayGeometry(0, dr, dc, j);
    StepsOffB3(j, dr, dc);
  }

  lemma StepsOffB3(j: nat, dr: int, dc: int)
    requires IsDirection(dr, dc) && j < 7
    ensures 8 * Steps(j + 1, dr) + Steps(j + 1, dc) != 17
    ensures 8 * Steps(j + 1, dr) + Steps(j + 1, dc) != 0
  {}

  lemma RaysFromA1Empty(sq: Squares, dr: int, dc: int)
    requires IsDirection(dr, dc) && OnlyA1AndB3(sq)
    ensures forall j | 0 <= j < |Ray(0, dr, dc)| :: sq[Ray(0, dr, dc)[j]].None?
  {
    forall j | 0 <= j < |Ray(0, dr, dc)|
      ensures sq[Ray(0, dr, dc)[j]].None?
    {
      RaySquareEmpty(sq, dr, dc, j);
    }
  }

  lemma RaySquareEmpty(sq: Squares, dr: int, dc: int, j: nat)
    requires IsDirection(dr, dc) && OnlyA1AndB3(sq) && j < |Ray(0, dr, dc)|
    ensures sq[Ray(0, dr, dc)[j]].None?
  {
    B3OffCornerRays(dr, dc, j);
    var p := Ray(0, dr, dc)[j];
    assert p != 17 && p != 0;
  }

  lemma NoRayReachesB3(sq: Squares, dr: int, dc: int)
    requires IsDirection(dr, dc) && OnlyA1AndB3(sq)
    ensures FirstOnRay(sq, 0, dr, dc).None?
  {
    RaysFromA1Empty(sq, dr, dc);
    assert FirstOccupied(sq, Ray(0, dr, dc)).None?;
  }

  /**
   * A real knight's jump is not detected: a knight of `color` on b3 does not
   * attack a1 when nothing else is on the board; neither the rays nor the
   * table see it.
   */
  lemma KnightJumpNotDetected(sq: Squares, color: Color)
    requires OnlyA1AndB3(sq) && sq[17] == Some(Piece(Knight, color, 0))
    ensures !AreAttacking(sq, None, 0, color)
  {
    forall dr, dc | -1 <= dr <= 1 && -1 <= dc <= 1 && (dr != 0 || dc != 0)
      ensures !RayAttack(sq, None, 0, color, dr, dc)
    {
      NoRayReachesB3(sq, dr, dc);
    }
    forall i | 0 <= i < |KnightMoves|
      ensures !KnightAttack(sq, 0, color, KnightMoves[i])
    {
      var o := Offset(0, KnightMoves[i].0, KnightMoves[i].1);
      if o.Some? {
        assert o.value == 1 || o.value == 8;
      }
    }
  }

  /** `find_king` on a board with one king of colour `c` returns that king's square. */
  lemma FindKingUnique(sq: Squares, c: Color, k: Pos)
    requires IsKingOf(sq[k], c)
    requires forall j: Pos :: j != k ==> !IsKingOf(sq[j], c)
    ensures FindKing(sq, c) == k
  {}
}
