/**
 * Square addressing (src/game/position.rs): a square is the index
 * row * 8 + column, with rows and columns zero-based.
 */
module Positions {
  import opened Wrappers

  /** A square index in [0, 64). */
  type Pos = i: int | 0 <= i < 64

  /** Zero-based row of a square (`row()`); rank is this plus one. */
  function Row(p: Pos): (r: int)
    ensures 0 <= r < 8
  {
    p / 8
  }

  /** Zero-based column of a square (`col()`); file 'A' is column 0. */
  function Col(p: Pos): (c: int)
    ensures 0 <= c < 8
  {
    p % 8
  }

  /** `Position::new(row, col)`: the square at that row and column. */
  function New(row: int, col: int): (p: Pos)
    requires 0 <= row < 8 && 0 <= col < 8
    ensures Row(p) == row && Col(p) == col
    ensures p < 256  // the index fits the `u8` the position is stored in
  {
    row * 8 + col
  }

  /** Every square is `New` of its own row and column, so `New` is a bijection. */
  lemma NewOfRowCol(p: Pos)
    ensures New(Row(p), Col(p)) == p
  {}

  /** Two squares are equal exactly when their rows and columns are. */
  lemma RowColInjective(p: Pos, q: Pos)
    ensures p == q <==> Row(p) == Row(q) && Col(p) == Col(q)
  {
    NewOfRowCol(p);
    NewOfRowCol(q);
  }

  /**
   * `offset(dr, dc)`: the square dr rows and dc columns away, or None when that
   * leaves the board; it never wraps round an edge.
   */
  function Offset(p: Pos, dr: int, dc: int): (r: Option<Pos>)
    ensures r.Some? <==> 0 <= Row(p) + dr < 8 && 0 <= Col(p) + dc < 8
    ensures r.Some? ==> Row(r.value) == Row(p) + dr && Col(r.value) == Col(p) + dc
    ensures r.Some? ==> r.value == p + 8 * dr + dc
  {
    if 0 <= Row(p) + dr < 8 && 0 <= Col(p) + dc < 8 then Some(p + 8 * dr + dc) else None
  }

  /** Rank shown by `Display`: `pos / 8 + 1`. */
  function Rank(p: Pos): (rank: int)
    ensures 1 <= rank <= 8
    ensures rank == Row(p) + 1
  {
    p / 8 + 1
  }

  /** File letter shown by `Display`: `'A' + pos % 8`. */
  function File(p: Pos): (file: char)
    ensures 'A' <= file <= 'H'
    ensures file as int - 'A' as int == Col(p)
  {
    (p % 8 + 'A' as int) as char
  }

  /** `Position::new(r, c)` displays as file 'A' + c and rank r + 1. */
  lemma DisplayOfNew(row: int, col: int)
    requires 0 <= row < 8 && 0 <= col < 8
    ensures File(New(row, col)) == ('A' as int + col) as char
    ensures Rank(New(row, col)) == row + 1
  {}
}
