/** The description of a single ply (src/game/turn.rs) and its constructors. */
module Turns {
  import opened Wrappers
  import opened Positions
  import opened Pieces

  /**
   * A move: the kind of piece moved, where from and to, the square whose
   * occupant is captured (not always `to`), a second piece that moves with it
   * (the castling rook), and the promotion kinds after and before.
   */
  datatype Turn = Turn(
    kind: PieceType,
    from: Pos,
    to: Pos,
    capture: Option<Pos>,
    additionalMove: Option<(Pos, Pos)>,
    promoteTo: Option<PieceType>,
    promoteFrom: Option<PieceType>)

  /** A turn records a promotion in both directions or in neither. */
  predicate PromotionRecorded(t: Turn)
  {
    t.promoteTo.Some? <==> t.promoteFrom.Some?
  }

  /** `Turn::new`: any properties; `promote_from` is the moved kind exactly when promoting. */
  function NewTurn(kind: PieceType, from: Pos, to: Pos, capture: Option<Pos>,
                   additionalMove: Option<(Pos, Pos)>, promoteTo: Option<PieceType>): (t: Turn)
    ensures PromotionRecorded(t)
    ensures t.promoteFrom.Some? ==> t.promoteFrom.value == kind
    ensures t.kind == kind && t.from == from && t.to == to && t.capture == capture
    ensures t.additionalMove == additionalMove && t.promoteTo == promoteTo
  {
    Turn(kind, from, to, capture, additionalMove, promoteTo, if promoteTo.Some? then Some(kind) else None)
  }

  /** `Turn::new_basic`: no capture, no second piece, no promotion. */
  function NewBasic(kind: PieceType, from: Pos, to: Pos): (t: Turn)
    ensures t == NewTurn(kind, from, to, None, None, None)
  {
    Turn(kind, from, to, None, None, None, None)
  }

  /** `Turn::new_capture`: captures the piece standing on `to`. */
  function NewCapture(kind: PieceType, from: Pos, to: Pos): (t: Turn)
    ensures t == NewTurn(kind, from, to, Some(to), None, None)
  {
    Turn(kind, from, to, Some(to), None, None, None)
  }

  /** `Turn::new_additional`: the main move plus a second piece's move, no capture. */
  function NewAdditional(kind: PieceType, main: (Pos, Pos), other: (Pos, Pos)): (t: Turn)
    ensures t == NewTurn(kind, main.0, main.1, None, Some(other), None)
  {
    Turn(kind, main.0, main.1, None, Some(other), None, None)
  }

  /** `Turn::new_capture_complex`: captures on a square that may differ from `to`. */
  function NewCaptureComplex(kind: PieceType, from: Pos, to: Pos, capture: Pos): (t: Turn)
    ensures t == NewTurn(kind, from, to, Some(capture), None, None)
  {
    Turn(kind, from, to, Some(capture), None, None, None)
  }

  /** `Turn::new_promotion`: promotes to `promoteTo`, capturing on `to` exactly when `capture`. */
  function NewPromotion(kind: PieceType, from: Pos, to: Pos, promoteTo: PieceType, capture: bool): (t: Turn)
    ensures t == NewTurn(kind, from, to, if capture then Some(to) else None, None, Some(promoteTo))
  {
    Turn(kind, from, to, if capture then Some(to) else None, None, Some(promoteTo), Some(kind))
  }
}
