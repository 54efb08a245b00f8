# chs chess engine core in Dafny

This project models the rules engine of the `chs` chess program
(`src/game`): squares and colours, pieces and their movement rule, the
record of a turn, the board with `make_turn` / `undo_turn`, attack
detection, legal-move generation, the game-state queries (check, mate,
stalemate, draws), and reading a board from FEN.

## How the model is laid out

| module (file) | source | form |
|---|---|---|
| `Colors` (color.dfy) | src/game/color.rs | functions |
| `Positions` (position.dfy) | src/game/position.rs | functions |
| `Pieces` (piece.dfy), `Movement` (movement.dfy) | src/game/piece.rs | functions |
| `Turns` (turn.dfy) | src/game/turn.rs | datatype and constructor functions |
| `GameStates` (game_state.dfy) | src/game/game_state.rs | datatypes |
| `BoardSpec` (board_spec.dfy) | src/game/board/turns.rs | the board as a value; make/undo as functions |
| `Attacks`, `AttackProperties` (attacks.dfy) | src/game/board/moves.rs | attack and king search as functions |
| `MoveGen` (movegen.dfy) | src/game/board/moves.rs | generators as functions on a threaded state |
| `MoveGenProperties` (movegen_properties.dfy), `MoveGenShapes` (movegen_shapes.dfy) | src/game/board/moves.rs | what the generators list: only legal turns (soundness), of the generator's shape |
| `MoveGenComplete` (movegen_complete.dfy) | src/game/board/moves.rs | every legal candidate is listed (completeness), and the exact lists that follow |
| `Status` (status.dfy) | src/game/board/mod.rs | game-state queries |
| `Boards` (board.dfy) | src/game/board/mod.rs, turns.rs, moves.rs | `class Board` with an `array` of squares |
| `Text` (text.dfy), `FenSpec` (fen_spec.dfy) | src/game/board/fen.rs | the parser as functions |
| `Fen` (fen.dfy) | src/game/board/fen.rs | `from_fen` as a method on a `Board` |

`Board` is a class. Its 64 squares are an `array<Option<Piece>>` that the
methods overwrite in place. The stacks (captures, moves, half-move clock)
are `seq` fields the methods reassign. Every method is proved to compute a
function of `BoardSpec`, `Attacks`, `MoveGen` or `Status` on the ghost
value `State()`. The properties are proved about those functions.

`src/game/board/mod.rs` repeats the code of `turns.rs`
(mod.rs:203-316) and of `moves.rs`. It also holds the game-state queries
(mod.rs:411-471) and a copy of `from_fen` (mod.rs:87-199, the same as
fen.rs:60-172). The table below cites `turns.rs`, `moves.rs` and
`fen.rs` for the shared code and `mod.rs` for the rest.

### Panics and the state move generation leaves behind

Move generation tries every candidate with `is_move_legal`: it makes the
turn, asks whether the mover's king is attacked, and undoes the turn.
`undo_turn` does not always restore the board exactly:

- it recomputes the en-passant target from the history;
- it drops a clock frame whose top was -1;
- it turns a promoted pawn back into the turn's `promote_from` kind.

A capture-promotion records the *captured* piece's kind there, so undoing
it turns the pawn into that piece. Later candidates are then read from the
changed board. The model therefore threads a
`Run(value, state, panicked)` through every generator. `panicked` records
where the source would panic: an `unwrap` on an empty square, a
`make_turn` precondition, or `find_king` finding no king. The `Board`
methods require that the specification does not panic.

### Behaviour modelled as the code has it

- `KNIGHT_MOVES` lists the four orthogonal unit steps twice. Attack
  detection and knight move generation therefore use orthogonal steps,
  not knight jumps.
- `could_rook_move_to` compares the origin's column with the
  destination's row.
- `could_pawn_move_to` rejects a move when
  `(from.row - to.row) * direction <= 0`. With White's direction +1 this
  accepts only moves towards the pawn's own home row.
- `castling_single_move` tests attacked squares on row `row`, which is
  always 0, whatever the colour.
- `castling_single_move` keeps scanning past a castling rook.
- A pawn's capture-promotion is built with the captured piece's kind.
- `from_fen`:
  - starts at row 7, and `/` increments the row;
  - never advances the column after placing a piece;
  - rejects `p`/`P`.
  So a successful parse places only non-pawn pieces on row 7, and its
  final `row != 7` check can never fail.
- `from_fen` first marks every corner rook as moved (`move_count` 1).
  Each castling letter then resets its rook to 0.

The colour helpers `get_home` and `get_direction`, and the position
helpers `row`, `col`, `offset` and `pos`, are defined outside the
modelled source files: the repository's `position.rs` and `color.rs`
are older versions without them. The model fixes them as follows:

- White's home row is 0, with direction +1;
- Black's home row is 7, with direction -1;
- a square is `row * 8 + col`;
- `offset` is `None` off the board.

## Model

| member | source | states |
|---|---|---|
| Colors.Not | src/game/color.rs:10-19 | negation gives the other colour |
| Colors.NotWhite | src/game/color.rs:15 | White negates to Black |
| Colors.NotBlack | src/game/color.rs:16 | Black negates to White |
| Colors.NotNot | src/game/color.rs:13-18 | negation is an involution |
| Colors.Home | src/game/piece.rs:124 | a home row is 0 or 7 |
| Colors.Direction | src/game/piece.rs:120 | a direction is +1 or -1 |
| Colors.HomeAndDirection | src/game/board/moves.rs:316 | seven steps from one home reach the other, and the directions are opposite |
| Positions.Row | src/game/position.rs:4-7 | a row is in 0..8 |
| Positions.Col | src/game/position.rs:4-7 | a column is in 0..8 |
| Positions.New | src/game/position.rs:10-12 | `new(row, col)` has that row and column and fits a `u8` |
| Positions.NewOfRowCol | src/game/position.rs:10-12 | every square is `new` of its own row and column |
| Positions.RowColInjective | src/game/position.rs:4-12 | squares are equal iff rows and columns are |
| Positions.Offset | src/game/board/moves.rs:19 | an offset is defined iff it stays on the board, and it moves by the given row and column |
| Positions.Rank | src/game/position.rs:18 | the rank is the row plus one, in 1..8 |
| Positions.File | src/game/position.rs:20 | the file is the column as a letter A..H |
| Positions.DisplayOfNew | src/game/position.rs:15-24 | `new(row, col)` displays as file `A + col`, rank `row + 1` |
| Pieces.NewPiece | src/game/piece.rs:60-66 | a new piece has the given kind and colour and no moves |
| Pieces.Abs | src/game/piece.rs:89 | absolute value |
| Pieces.PromotableTypesSpec | src/game/piece.rs:16-21 | four distinct promotion kinds, neither king nor pawn |
| Pieces.KnightMovesAreUnitSteps | src/game/piece.rs:23-32 | every `KNIGHT_MOVES` entry is an orthogonal unit step, and the second half repeats the first |
| Movement.NeverOntoItself | src/game/piece.rs:74-75 | no piece could move onto its own square |
| Movement.KingRule | src/game/piece.rs:88-90 | a king reaches exactly the other squares at distance one |
| Movement.KnightRule | src/game/piece.rs:105-109 | a knight reaches exactly the (2,1) and (1,2) jumps |
| Movement.BishopRule | src/game/piece.rs:96-99 | a bishop reaches exactly the other squares of its diagonals |
| Movement.RookRule | src/game/piece.rs:92-94 | a rook reaches exactly the squares in its row or whose row equals its column |
| Movement.QueenRule | src/game/piece.rs:101-103 | a queen moves iff a rook or a bishop would |
| Movement.RookColumnQuirk | src/game/piece.rs:93 | a rook does not reach a1 to a6 but does reach d1 to g4 |
| Movement.PawnRejections | src/game/piece.rs:113-134 | each early `return false` of the pawn rule |
| Movement.PawnDiagonalOntoEmpty | src/game/piece.rs:136-148 | a diagonal step onto an empty square is allowed iff the previous turn shows the en-passant pattern |
| Movement.PawnDirectionAsWritten | src/game/piece.rs:118-122 | no pawn move towards the opponent is accepted |
| Movement.PawnCapturesBackwards | src/game/piece.rs:112-149 | a capture one row backwards is accepted |
| Turns.NewTurn | src/game/turn.rs:27-48 | keeps every argument and sets `promote_from` to the kind exactly when promoting |
| Turns.NewBasic | src/game/turn.rs:51-61 | a move with no capture, secondary move or promotion |
| Turns.NewCapture | src/game/turn.rs:64-74 | a move capturing on its destination |
| Turns.NewAdditional | src/game/turn.rs:77-91 | a move with a secondary move |
| Turns.NewCaptureComplex | src/game/turn.rs:94-109 | a move capturing on a square other than its destination |
| Turns.NewPromotion | src/game/turn.rs:112-128 | a promotion, capturing on the destination iff `capture` |
| BoardSpec.StartPosition | src/game/board/mod.rs:54-84 | start: kings on e1 and e8, rows 2-5 empty, White on the first 16 squares, nothing moved |
| BoardSpec.PrevTurn | src/game/board/mod.rs:329-335 | the last turn of the history, None iff the history is empty |
| BoardSpec.DoublePushTarget | src/game/board/turns.rs:18-27 | a target exists iff a pawn moves two rows, and it is the square between |
| BoardSpec.MovedPiece | src/game/board/turns.rs:43-49 | the moved piece keeps its colour, takes the promotion kind, and counts one more move |
| BoardSpec.ClockAfterMake | src/game/board/turns.rs:15-56 | a capture or pawn move pushes exactly one frame |
| BoardSpec.ClockRoundTrip | src/game/board/turns.rs:111-115 | undo (pop a zero top, else decrement it) gives back the clock `make_turn` started from, whether make pushed a new zero frame or incremented the top, provided that top was not negative |
| BoardSpec.ClockLosesNegativeFrame | src/game/board/turns.rs:111-115 | undo drops a -1 top frame instead of restoring it |
| BoardSpec.SquaresRoundTrip | src/game/board/turns.rs:8-121 | undo after make puts every square back, for any overlap of capture, main and secondary squares |
| BoardSpec.MakeUndo | src/game/board/turns.rs:8-121 | undo after make returns the turn and the restored state |
| BoardSpec.MakeUndoIdentity | src/game/board/turns.rs:8-121 | undo after make is the identity when the clock top is not negative (`ClockOk`), the promotion record gives back the moved kind and the en-passant target is the one the history gives |
| BoardSpec.UndoAdoptsPromoteFrom | src/game/board/turns.rs:84-86 | undo gives the piece the turn's `promote_from` kind |
| BoardSpec.UndoForgetsUnbackedTarget | src/game/board/turns.rs:95-109 | undo on a one-move history clears the en-passant target |
| BoardSpec.MakeTurnSquares | src/game/board/turns.rs:9-53 | the piece lands on `to`, `from` and the captured square are emptied, and the captured piece is pushed |
| BoardSpec.MakeTurnClock | src/game/board/turns.rs:15-56 | a resetting move pushes a frame at 0; any other move increments the top |
| BoardSpec.MakeTurnEnPassant | src/game/board/turns.rs:17-31 | the target is set iff a pawn double-pushes without capture, to the skipped square |
| BoardSpec.MakeTurnHistory | src/game/board/turns.rs:55-61 | the turn is appended, the side flips, and the move number grows iff Black moved |
| BoardSpec.UndoEmptyHistory | src/game/board/turns.rs:67 | undo of an empty history returns None and changes nothing |
| BoardSpec.UndoTurnEffects | src/game/board/turns.rs:66-121 | undo returns the last turn, puts the piece back with one move less, pops or decrements the clock, and recomputes the target |
| Attacks.Room | src/game/board/moves.rs:19 | the ray length is 0 iff the first step leaves the board |
| Attacks.Ray | src/game/board/moves.rs:18-20 | the ray has one square per step to the edge |
| Attacks.RayGeometry | src/game/board/moves.rs:19-20 | the i-th ray square lies i+1 steps away |
| Attacks.FirstOccupied | src/game/board/moves.rs:21-29 | the first occupied square with all earlier squares empty, or None iff all are empty |
| Attacks.FirstOnRay | src/game/board/moves.rs:19-29 | the scan stops at the first occupied square of the ray |
| Attacks.FindKingFrom | src/game/board/moves.rs:53-60 | the lowest king square from i on |
| Attacks.FindKing | src/game/board/moves.rs:51-63 | a king of the colour, and no lower square holds one |
| AttackProperties.FirstOnRayGeometry | src/game/board/moves.rs:13-32 | the first piece on a ray, so any ray attacker, stands k steps along the direction, 1 <= k <= 7 |
| AttackProperties.AdjacentKingAttacks | src/game/board/moves.rs:13-32 | an adjacent king of the colour attacks the square |
| AttackProperties.OrthogonalKnightAttacks | src/game/board/moves.rs:37-45 | a knight one orthogonal step away attacks the square |
| AttackProperties.KnightJumpNotDetected | src/game/board/moves.rs:37-45 | a knight on b3 is not seen attacking a1 |
| AttackProperties.FindKingUnique | src/game/board/moves.rs:51-63 | with one king of the colour, `find_king` finds it |
| MoveGen.Start | src/game/board/moves.rs:149 | a generator starts with no moves on the given board |
| MoveGen.Panic | src/game/board/moves.rs:110 | a panic keeps the result and state reached |
| MoveGen.DirectionTables | src/game/board/moves.rs:171-193 | the queen's directions are the rook's then the bishop's |
| MoveGen.KeepsTransitive | src/game/board/moves.rs:141-145 | the side to move, history, captures, move number and occupancy kept by one step and the next are kept by both |
| MoveGen.GrowsTransitive | src/game/board/moves.rs:141-145 | appending-only generator steps compose |
| MoveGen.IsMoveLegal | src/game/board/moves.rs:72-80 | panics iff make or undo would; otherwise answers whether the mover's king is safe after the turn, leaving the restored board |
| MoveGen.NotPawnKeeps | src/game/board/moves.rs:72-80 | a make/undo cycle keeps the side to move, history, captures, move number and which squares hold whose piece |
| MoveGen.AddIfLegal | src/game/board/moves.rs:141-145 | appends the turn iff it is legal, leaving the restored board |
| MoveGen.TurnSimple | src/game/board/moves.rs:128-139 | None iff a friendly piece occupies `to`; otherwise a plain move, capturing iff `to` is occupied |
| MoveGen.LineRay | src/game/board/moves.rs:152-165 | only appends; a panic propagates |
| MoveGen.LineDirs | src/game/board/moves.rs:151-166 | only appends; a panic propagates |
| MoveGen.LineMoves | src/game/board/moves.rs:148-169 | only appends to an empty list |
| MoveGen.SimpleStep | src/game/board/moves.rs:200-204 | only appends; a panic propagates |
| MoveGen.KingStep | src/game/board/moves.rs:199-205 | only appends; a panic propagates |
| MoveGen.KingCols | src/game/board/moves.rs:198-206 | only appends; a panic propagates |
| MoveGen.KingRows | src/game/board/moves.rs:197-207 | only appends; a panic propagates |
| MoveGen.CastleTurn | src/game/board/moves.rs:269-274 | the king goes to `res_col` and the rook to `res_col - col`, on the king's row |
| MoveGen.SquaresAttackedStep | src/game/board/moves.rs:260-267 | one more unattacked column keeps the whole range between the king and the rook unattacked |
| MoveGen.CastlingSingleMove | src/game/board/moves.rs:233-279 | only appends; a panic propagates |
| MoveGen.CastleScan | src/game/board/moves.rs:221-227 | only appends; a panic propagates |
| MoveGen.CastlingMoves | src/game/board/moves.rs:217-229 | only appends; a panic propagates |
| MoveGen.KingMoves | src/game/board/moves.rs:195-215 | only appends to an empty list |
| MoveGen.KnightSteps | src/game/board/moves.rs:284-290 | only appends; a panic propagates |
| MoveGen.KnightMovesOf | src/game/board/moves.rs:281-293 | only appends to an empty list |
| MoveGen.KnightStep | src/game/board/moves.rs:285-289 | one entry of `KNIGHT_MOVES` only appends; a panic propagates |
| MoveGen.Promotions | src/game/board/moves.rs:317-322 | only appends; a panic propagates |
| MoveGen.PromotionStep | src/game/board/moves.rs:318-321 | one promotion kind only appends; a panic propagates |
| MoveGen.PawnStep | src/game/board/moves.rs:314-325 | only appends; a panic propagates |
| MoveGen.PawnAdvance | src/game/board/moves.rs:311-337 | only appends; a panic propagates |
| MoveGen.PawnCapture | src/game/board/moves.rs:339-362 | only appends; a panic propagates |
| MoveGen.PawnEnPassant | src/game/board/moves.rs:364-384 | only appends; a panic propagates |
| MoveGen.PawnMoves | src/game/board/moves.rs:295-309 | only appends to an empty list |
| MoveGen.PieceMoves | src/game/board/moves.rs:109-119 | only appends to an empty list |
| MoveGen.DoGetMovesFrom | src/game/board/moves.rs:94-101 | only appends; a panic propagates |
| MoveGen.DoGetMoves | src/game/board/moves.rs:92-103 | only appends to an empty list |
| MoveGen.FiftyMoveRule | src/game/board/mod.rs:432-434 | panics iff the clock stack is empty, else holds iff its top is at least 100 |
| MoveGen.GetMoves | src/game/board/moves.rs:83-90 | panics on an empty clock stack; no moves and no panic once the clock top reaches 100; otherwise exactly `do_get_moves`, panicking iff it does |
| MoveGenProperties.MakeIgnoresTarget | src/game/board/turns.rs:17-31 | make and legality do not depend on the previous en-passant target |
| MoveGenProperties.RestoredSettles | src/game/board/moves.rs:72-80 | with `ClockOk`: testing a self-undoing turn restores the board up to the derived target |
| MoveGenProperties.AddSound | src/game/board/moves.rs:141-145 | with `ClockOk`: adding a self-undoing turn keeps generation sound: only legal turns are listed and the board settles back |
| MoveGenProperties.PlainUndoes | src/game/board/turns.rs:84-86 | a turn without promotion undoes itself |
| MoveGenProperties.LineRaySound | src/game/board/moves.rs:152-165 | with `ClockOk`: one ray lists only legal turns and settles the board |
| MoveGenProperties.LineDirsSound | src/game/board/moves.rs:151-166 | with `ClockOk`: all rays list only legal turns |
| MoveGenProperties.LineMovesSound | src/game/board/moves.rs:148-193 | with a clock top that is not negative (`ClockOk`): every rook, bishop and queen move listed is legal on the board generation started from, and that board comes back |
| MoveGenProperties.SimpleStepSound | src/game/board/moves.rs:200-204 | with `ClockOk`: one king step keeps soundness |
| MoveGenProperties.KingStepSound | src/game/board/moves.rs:199-205 | with `ClockOk`: one offset of the king's double loop keeps soundness |
| MoveGenProperties.KingColsSound | src/game/board/moves.rs:198-206 | with `ClockOk`: the king's column loop keeps soundness |
| MoveGenProperties.KingRowsSound | src/game/board/moves.rs:197-207 | with `ClockOk`: the king's row loop keeps soundness |
| MoveGenProperties.CastlingSingleMoveSound | src/game/board/moves.rs:233-279 | with `ClockOk`: one castling candidate keeps soundness |
| MoveGenProperties.CastleScanSound | src/game/board/moves.rs:221-227 | with `ClockOk`: the castling scan keeps soundness |
| MoveGenProperties.KingMovesSound | src/game/board/moves.rs:195-215 | with `ClockOk`: king moves, castling included, are legal and the board comes back |
| MoveGenProperties.KnightStepsSound | src/game/board/moves.rs:284-290 | with `ClockOk`: the knight loop keeps soundness |
| MoveGenProperties.KnightMovesSound | src/game/board/moves.rs:281-293 | with `ClockOk`: knight moves are legal and the board comes back |
| MoveGenProperties.PromotionsSound | src/game/board/moves.rs:317-322 | with `ClockOk`: push promotions of the pawn's own kind keep soundness |
| MoveGenProperties.PawnStepSound | src/game/board/moves.rs:314-325 | with `ClockOk`: the single push, or its four promotions, keeps soundness |
| MoveGenProperties.PawnAdvanceSound | src/game/board/moves.rs:311-337 | with `ClockOk`: pushes, double pushes and push promotions are legal |
| MoveGenProperties.PawnCaptureSound | src/game/board/moves.rs:339-362 | with `ClockOk`, `NotBeforeLastRow` (the pawn does not stand on the row before its promotion row): pawn captures are legal |
| MoveGenProperties.PawnEnPassantSound | src/game/board/moves.rs:364-384 | with `ClockOk`: en-passant captures are legal |
| MoveGenProperties.PawnMovesSound | src/game/board/moves.rs:295-309 | with `ClockOk` and `NotBeforeLastRow` (the pawn does not stand on the row before its promotion row): pawn moves are legal |
| MoveGenProperties.PieceMovesSound | src/game/board/moves.rs:109-119 | with `ClockOk` and, for a pawn, `NotBeforeLastRow` (the pawn does not stand on the row before its promotion row): every piece's moves are legal and the board comes back |
| MoveGenProperties.AllLegalAppend | src/game/board/moves.rs:98 | joining two legal lists gives a legal list |
| MoveGenProperties.DoGetMovesFromSound | src/game/board/moves.rs:94-101 | with `ClockOk` and `NoPawnBeforeLastRow` (no pawn of the side to move stands on the row before its promotion row): the scan over all squares lists only legal turns |
| MoveGenProperties.GetMovesSound | src/game/board/moves.rs:83-103 | with `ClockOk` and `NoPawnBeforeLastRow`: `get_moves` lists only legal turns, and leaves the board unchanged when its target agrees with the history |
| MoveGenShapes.Added | src/game/board/moves.rs:141-145 | the turns a step appended, in order |
| MoveGenShapes.AddedConcat | src/game/board/moves.rs:141-145 | the turns appended over two steps are those of each step in turn |
| MoveGenShapes.AddedByAdd | src/game/board/moves.rs:141-145 | `add_move_if_legal` appends only its own turn |
| MoveGenShapes.LineRayShape | src/game/board/moves.rs:152-165 | with `ClockOk`: every turn of a ray goes to a square along it, with all earlier squares empty |
| MoveGenShapes.LineHeadShape | src/game/board/moves.rs:153-161 | with `ClockOk`: the first square of a ray is a turn along it, and a non-capture there keeps the run sound |
| MoveGenShapes.LineDirsShape | src/game/board/moves.rs:151-166 | with `ClockOk`: every turn lies along one of the directions |
| MoveGenShapes.LineMovesShape | src/game/board/moves.rs:148-193 | with `ClockOk`: every rook, bishop or queen turn lies along one of its directions, unobstructed |
| MoveGenShapes.SimpleStepShape | src/game/board/moves.rs:200-204 | one king step lists only the plain move to that square |
| MoveGenShapes.KingStepShape | src/game/board/moves.rs:199-205 | one offset of the king's double loop lists only a neighbouring step |
| MoveGenShapes.KingColsShape | src/game/board/moves.rs:198-206 | with `ClockOk`: every turn of the column loop is a neighbouring step |
| MoveGenShapes.KingRowsShape | src/game/board/moves.rs:197-207 | with `ClockOk`: every turn of the row loop is a neighbouring step |
| MoveGenShapes.CastlingSingleMoveShape | src/game/board/moves.rs:243-276 | a castling turn needs an unmoved own rook and unattacked row-0 squares between |
| MoveGenShapes.CastleWitness | src/game/board/moves.rs:243-276 | the conditions checked before adding make a castling turn |
| MoveGenShapes.CastleScanShape | src/game/board/moves.rs:221-227 | with `ClockOk`: every turn of the scan is a castling turn towards that side |
| MoveGenShapes.CastlingMovesShape | src/game/board/moves.rs:217-229 | with `ClockOk`: castling lists only castling turns towards column 6 or column 2 |
| MoveGenShapes.KingMovesShape | src/game/board/moves.rs:195-215 | with `ClockOk`: every king turn is a neighbouring step, or castling by an unmoved king on its home row |
| MoveGenShapes.KnightStepsShape | src/game/board/moves.rs:284-290 | with `ClockOk`: every turn of the knight loop is an orthogonal unit step |
| MoveGenShapes.KnightStepShape | src/game/board/moves.rs:285-289 | with `ClockOk`: one entry of `KNIGHT_MOVES` keeps soundness and lists only an orthogonal unit step |
| MoveGenShapes.KnightMovesShape | src/game/board/moves.rs:281-293 | with `ClockOk`: every knight turn is an orthogonal unit step |
| MoveGenShapes.PromotionsShape | src/game/board/moves.rs:317-322 | at most one turn per remaining kind, each a promotion to it |
| MoveGenShapes.PromotionsCount | src/game/board/moves.rs:317-322 | the loop from kind i adds at most one turn per remaining kind |
| MoveGenShapes.PromotionsKinds | src/game/board/moves.rs:317-322 | every turn the loop adds is a promotion from `from` to `to` to a promotable kind |
| MoveGenShapes.PromotionStepShape | src/game/board/moves.rs:318-321 | one kind adds at most its own promotion |
| MoveGenShapes.PawnStepShape | src/game/board/moves.rs:314-334 | with `ClockOk`: a step onto an empty square lists pushes only |
| MoveGenShapes.PawnDoubleShape | src/game/board/moves.rs:327-333 | the double push from the row after home over an empty square is a pawn push |
| MoveGenShapes.PawnAdvanceShape | src/game/board/moves.rs:311-337 | with `ClockOk`: every advance is a push, a push promotion, or a double push from the second row over an empty square |
| MoveGenShapes.PawnCaptureShape | src/game/board/moves.rs:339-362 | every capture takes an enemy piece diagonally ahead, promotions recorded with the captured kind |
| MoveGenShapes.PawnEnPassantShape | src/game/board/moves.rs:364-384 | every en-passant turn goes to the target from an adjacent column, capturing beside the pawn |
| MoveGenShapes.PawnMovesShape | src/game/board/moves.rs:295-309 | with `ClockOk` and `NotBeforeLastRow`: every pawn turn is a push, a capture or an en-passant capture |
| MoveGenComplete.AddExact | src/game/board/moves.rs:141-145 | on a settled board, adding a turn panics iff it cannot be tested, and otherwise appends exactly that turn when legal and nothing else |
| MoveGenComplete.AddComplete | src/game/board/moves.rs:141-145 | a testable legal turn is appended |
| MoveGenComplete.LineRayComplete | src/game/board/moves.rs:152-165 | with `ClockOk`: every legal turn along the ray from `cur`, with the squares before it empty, is listed |
| MoveGenComplete.LineDirsComplete | src/game/board/moves.rs:151-166 | with `ClockOk`: every legal turn along any remaining direction is listed |
| MoveGenComplete.LineMovesExact | src/game/board/moves.rs:148-193 | with `ClockOk`: a rook, bishop or queen lists a turn iff it lies unobstructed along one of its directions and is legal |
| MoveGenComplete.SimpleStepComplete | src/game/board/moves.rs:200-204 | a legal plain move to the square is listed |
| MoveGenComplete.KingColsComplete | src/game/board/moves.rs:198-206 | with `ClockOk`: every legal neighbouring step in the remaining columns of the row offset is listed |
| MoveGenComplete.KingRowsComplete | src/game/board/moves.rs:197-207 | with `ClockOk`: every legal neighbouring step in the remaining row offsets is listed |
| MoveGenComplete.KingMovesComplete | src/game/board/moves.rs:195-215 | with `ClockOk`: every legal neighbouring step of the king is listed |
| MoveGenComplete.CastleScanComplete | src/game/board/moves.rs:221-227 | with `ClockOk`: a legal castling with a rook the scan reaches is listed |
| MoveGenComplete.CastlingMovesComplete | src/game/board/moves.rs:217-229 | with `ClockOk`: a legal castling on either side is listed |
| MoveGenComplete.KingCastleComplete | src/game/board/moves.rs:208-214 | with `ClockOk`: an unmoved king on its home row lists every legal castling the scan reaches |
| MoveGenComplete.KingMovesExact | src/game/board/moves.rs:195-215 | with `ClockOk`: the king lists a turn iff it is a neighbouring step, or a castling of an unmoved king on its home row with a rook the scan reaches, and is legal |
| MoveGenComplete.KnightStepsComplete | src/game/board/moves.rs:284-290 | with `ClockOk`: every legal step for a remaining entry of `KNIGHT_MOVES` is listed |
| MoveGenComplete.KnightStepComplete | src/game/board/moves.rs:285-289 | the entry of `KNIGHT_MOVES` for a legal step lists it |
| MoveGenComplete.KnightMovesAllListed | src/game/board/moves.rs:281-293 | with `ClockOk`: every legal orthogonal unit step is listed |
| MoveGenComplete.KnightMovesExact | src/game/board/moves.rs:281-293 | with `ClockOk`: the knight lists a turn iff it is an orthogonal unit step and legal |
| MoveGenComplete.PromotionStepExact | src/game/board/moves.rs:318-321 | with `ClockOk`: one entry of `PROMOTABLE_TYPES` appends its promotion iff that promotion is legal, and nothing else |
| MoveGenComplete.PromotionsExact | src/game/board/moves.rs:317-322 | with `ClockOk`: the promotion loop appends exactly the legal promotions, in table order |
| MoveGenComplete.PromotionsAllFour | src/game/board/moves.rs:316-322 | with `ClockOk`: when all four are legal, the loop appends the queen, rook, bishop and knight promotions, in that order |
| MoveGenComplete.PromotionsComplete | src/game/board/moves.rs:317-322 | with `ClockOk`: every legal promotion to a remaining kind is listed |
| MoveGenComplete.PawnStepComplete | src/game/board/moves.rs:314-325 | with `ClockOk`: a legal single push, or push promotion, is listed |
| MoveGenComplete.PawnAdvanceComplete | src/game/board/moves.rs:311-337 | with `ClockOk`: every legal push, push promotion and double push is listed |
| MoveGenComplete.PawnSingleComplete | src/game/board/moves.rs:313-325 | with `ClockOk`: every legal one-square push or push promotion is listed |
| MoveGenComplete.PawnDoubleComplete | src/game/board/moves.rs:326-334 | with `ClockOk`: a legal double push from the row after home over two empty squares is listed |
| MoveGenComplete.PawnCaptureComplete | src/game/board/moves.rs:339-362 | with `NotBeforeLastRow`: a legal diagonal capture of an enemy piece on that side is listed |
| MoveGenComplete.PawnEnPassantComplete | src/game/board/moves.rs:364-384 | a legal en-passant capture onto the target is listed |
| MoveGenComplete.PawnMovesAllListed | src/game/board/moves.rs:295-309 | with `ClockOk`, `NotBeforeLastRow` and a target that agrees with the history: every legal push, capture and en-passant capture is listed |
| MoveGenComplete.PawnMovesExact | src/game/board/moves.rs:295-309 | with `ClockOk`, `NotBeforeLastRow` and a target that agrees with the history: a pawn lists a turn iff it is a push, a capture or an en-passant capture and legal |
| MoveGenComplete.CandidateFrom | src/game/board/moves.rs:109-119 | every candidate of a piece moves from its square |
| MoveGenComplete.PieceMovesExact | src/game/board/moves.rs:109-119 | with `ClockOk` (and for a pawn `NotBeforeLastRow` and a target that agrees with the history): a piece lists a turn iff it is a candidate of its kind and legal |
| MoveGenComplete.DoGetMovesStep | src/game/board/moves.rs:96-99 | with `ClockOk`, `NoPawnBeforeLastRow` and a target that agrees with the history: a square holding a piece of the side to move adds exactly its legal candidates, and the board comes back |
| MoveGenComplete.DoGetMovesFromExact | src/game/board/moves.rs:94-101 | with `ClockOk`, `NoPawnBeforeLastRow` and a target that agrees with the history: the scan from square i adds exactly the legal candidates of the side to move from squares i and later |
| MoveGenComplete.DoGetMovesExact | src/game/board/moves.rs:92-103 | with `ClockOk`, `NoPawnBeforeLastRow` and a target that agrees with the history: `do_get_moves` lists a turn iff it is a candidate of a piece of the side to move and legal |
| MoveGenComplete.NoMovesNoCandidate | src/game/board/moves.rs:92-103 | with `ClockOk`, `NoPawnBeforeLastRow` and a target that agrees with the history: when `do_get_moves` lists nothing, no testable candidate of the side to move is legal |
| Status.IsCheck | src/game/board/mod.rs:411-413 | panics iff the side to move has no king; else holds iff that king is attacked |
| Status.IsCheckmate | src/game/board/mod.rs:416-418 | holds iff in check and `do_get_moves` finds nothing |
| Status.IsStalemate | src/game/board/mod.rs:421-423 | holds iff not in check and `do_get_moves` finds nothing |
| Status.IsThreefoldRepetition | src/game/board/mod.rs:426-429 | always false |
| Status.IsInsufficientMaterial | src/game/board/mod.rs:437-440 | always false |
| Status.IsDraw | src/game/board/mod.rs:443-449 | not mate, and then stalemate or a clock top of at least 100, each asked on the board the previous query left |
| Status.IsGameOver | src/game/board/mod.rs:452-454 | keeps the side to move, history, captures, move number and occupancy |
| Status.QueriesKeepBoard | src/game/board/mod.rs:416-423 | with `ClockOk`, `NoPawnBeforeLastRow` and a target that agrees with the history: checkmate and stalemate leave the board as it was |
| Status.GameOverMatchesState | src/game/board/mod.rs:452-471 | with `ClockOk`, `NoPawnBeforeLastRow` and a target that agrees with the history, when `get_game_state` does not panic: `is_game_over` does not panic and holds iff the state is not `Playing` |
| Status.GetGameState | src/game/board/mod.rs:457-471 | a win iff checkmate, for the side that just moved; otherwise a stalemate draw iff stalemate; otherwise the fifty-move draw iff the clock top is at least 100, and else `Playing`; panics exactly where a query in that order panics; the stubbed draws never appear |
| Status.GameStateMatchesDraw | src/game/board/mod.rs:443-471 | when `get_game_state` does not panic, neither does `is_draw`; the state is a draw iff `is_draw` holds, and `Playing` iff neither a draw nor checkmate |
| Status.MateAndStalemateExclusive | src/game/board/mod.rs:416-423 | never both checkmate and stalemate |
| Boards.Board.Default | src/game/board/mod.rs:38-50 | an empty board, White to move, clock [0], move 1 |
| Boards.Board.FromStart | src/game/board/mod.rs:54-84 | the starting position |
| Boards.Board.AtPosition | src/game/board/mod.rs:319-321 | the piece on the square |
| Boards.Board.WhoseTurn | src/game/board/mod.rs:324-326 | the side to move |
| Boards.Board.GetPrevTurn | src/game/board/mod.rs:329-335 | the last turn of the history |
| Boards.Board.MakeTurn | src/game/board/turns.rs:8-62 | the new state is `make_turn` of the old one |
| Boards.Board.RemoveCaptured | src/game/board/turns.rs:9-16 | lifts the captured piece onto the captures stack and pushes a clock frame |
| Boards.Board.MovePieces | src/game/board/turns.rs:32-53 | lifts the piece, moves the secondary piece, and places the moved piece on `to` |
| Boards.Board.UndoTurn | src/game/board/turns.rs:66-121 | returns and applies `undo_turn` of the old state |
| Boards.Board.LastDoublePush | src/game/board/turns.rs:95-109 | the target derived from the last turn |
| Boards.Board.PopClock | src/game/board/turns.rs:111-115 | pops a 0 frame or decrements the top |
| Boards.Board.PutBack | src/game/board/turns.rs:68-92 | moves the pieces back and restores the captured piece |
| Boards.Board.AreAttacking | src/game/board/moves.rs:11-48 | answers `are_pieces_attacking` |
| Boards.Board.RaysAttack | src/game/board/moves.rs:13-31 | true iff the walk along one of the eight directions ends on a piece of `color` that could move to the square |
| Boards.Board.KnightsAttack | src/game/board/moves.rs:34-45 | true iff a knight of `color` stands at one of the `KNIGHT_MOVES` offsets |
| Boards.Board.RayAttacks | src/game/board/moves.rs:18-30 | answers whether the first piece on one ray attacks |
| Boards.Board.FindKing | src/game/board/moves.rs:51-63 | the first king square of the colour |
| Boards.Board.IsKingAttacked | src/game/board/moves.rs:66-68 | whether the colour's king is attacked |
| Boards.Board.IsMoveLegal | src/game/board/moves.rs:72-80 | computes `is_move_legal` and leaves the restored board |
| Boards.Board.GetTurnSimple | src/game/board/moves.rs:128-139 | computes `get_turn_simple` |
| Boards.Board.AddMoveIfLegal | src/game/board/moves.rs:141-145 | computes `add_move_if_legal` |
| Boards.Board.SimpleMove | src/game/board/moves.rs:200-204 | computes one king or knight candidate: the simple turn onto `to`, tried for legality |
| Boards.Board.LineMoves | src/game/board/moves.rs:148-169 | computes `line_moves` and the board it leaves |
| Boards.Board.RookMoves | src/game/board/moves.rs:171-173 | line moves in the four orthogonal directions |
| Boards.Board.BishopMoves | src/game/board/moves.rs:175-177 | line moves in the four diagonal directions |
| Boards.Board.QueenMoves | src/game/board/moves.rs:179-193 | line moves in all eight directions |
| Boards.Board.KingMoves | src/game/board/moves.rs:195-215 | computes `king_moves` |
| Boards.Board.CastlingMoves | src/game/board/moves.rs:217-229 | computes `castling_moves` |
| Boards.Board.CastleScan | src/game/board/moves.rs:221-227 | computes one side's castling scan |
| Boards.Board.CastlingSingleMove | src/game/board/moves.rs:233-279 | computes `castling_single_move`: whether to go on, and the moves |
| Boards.Board.SquaresAttacked | src/game/board/moves.rs:260-267 | whether any square of the range is attacked |
| Boards.Board.KnightMoves | src/game/board/moves.rs:281-293 | computes `knight_moves` |
| Boards.Board.KnightMove | src/game/board/moves.rs:285-289 | computes one entry of the `KNIGHT_MOVES` loop |
| Boards.Board.AddPromotions | src/game/board/moves.rs:317-322 | adds the four promotion turns that are legal |
| Boards.Board.AddPromotion | src/game/board/moves.rs:318-321 | computes one promotion kind of the loop |
| Boards.Board.PawnAdvance | src/game/board/moves.rs:311-337 | computes `pawn_advance` |
| Boards.Board.PawnCapture | src/game/board/moves.rs:339-362 | computes `pawn_capture` |
| Boards.Board.PawnEnPassant | src/game/board/moves.rs:364-384 | computes `pawn_en_passant` |
| Boards.Board.PawnMoves | src/game/board/moves.rs:295-309 | computes `pawn_moves` |
| Boards.Board.GetPieceMoves | src/game/board/moves.rs:109-119 | computes `get_piece_moves` |
| Boards.Board.DoGetMoves | src/game/board/moves.rs:92-103 | computes `do_get_moves` |
| Boards.Board.Is50MoveRule | src/game/board/mod.rs:432-434 | whether the clock top is at least 100 |
| Boards.Board.IsThreefoldRepetition | src/game/board/mod.rs:426-429 | always false |
| Boards.Board.IsInsufficientMaterial | src/game/board/mod.rs:437-440 | always false |
| Boards.Board.GetMoves | src/game/board/moves.rs:83-90 | computes `get_moves` |
| Boards.Board.IsCheck | src/game/board/mod.rs:411-413 | computes `is_check` |
| Boards.Board.IsCheckmate | src/game/board/mod.rs:416-418 | computes `is_checkmate` and the board it leaves |
| Boards.Board.IsStalemate | src/game/board/mod.rs:421-423 | computes `is_stalemate` and the board it leaves |
| Boards.Board.IsDraw | src/game/board/mod.rs:443-449 | computes `is_draw` and the board it leaves |
| Boards.Board.IsGameOver | src/game/board/mod.rs:452-454 | computes `is_game_over` and the board it leaves |
| Boards.Board.GetGameState | src/game/board/mod.rs:457-471 | computes `get_game_state` and the board it leaves |
| Text.Words | src/game/board/fen.rs:70 | every word is non-empty and free of ASCII whitespace |
| Text.SplitWhitespace | src/game/board/fen.rs:70 | every section is a non-empty word without whitespace |
| Text.WordsOfWord | src/game/board/fen.rs:70 | a word's characters extend the current word |
| Text.WordsJoin | src/game/board/fen.rs:70 | splitting joined words gives them back, the first one extended |
| Text.SplitJoin | src/game/board/fen.rs:70 | splitting words joined by spaces gives the same words |
| Text.DigitValue | src/game/board/fen.rs:87-88 | a digit's value is at most 9 |
| Text.ParseInt | src/game/board/fen.rs:81-82 | a parsed number is in the type's range; an empty string or a bare sign does not parse |
| Text.DigitChar | src/game/board/fen.rs:87-88 | the digit character of each value |
| Text.ShowNat | src/game/board/fen.rs:81-82 | decimal text is a non-empty digit string |
| Text.DigitsShow | src/game/board/fen.rs:81-82 | digit text reads back as the number |
| Text.ParseShow | src/game/board/fen.rs:81-82 | every in-range number's decimal text parses back to it |
| FenSpec.ToLower | src/game/board/fen.rs:115 | lowercases upper-case letters only |
| FenSpec.KindOf | src/game/board/fen.rs:115-122 | a kind exactly for k, q, b, n and r, never a pawn |
| FenSpec.PlaceChar | src/game/board/fen.rs:86-125 | one character: a digit advances the column and fails iff past 8; `/` fails unless the row is full or when it would be row 8, else goes to column 0 of the next row; a letter fails at column 8 or when it is no piece kind (pawns included), else puts an unmoved piece of that kind, white iff upper case, at (row, col) without moving the column |
| FenSpec.Place | src/game/board/fen.rs:85-126 | the loop keeps row and column in range and fails only with placement errors |
| FenSpec.SetRookCount | src/game/board/fen.rs:141-145 | changes only the named square |
| FenSpec.CornerOf | src/game/board/fen.rs:150-156 | Q, K, q and k name one of the four corners |
| FenSpec.AllowCastling | src/game/board/fen.rs:149-164 | any failure is `IllegalCastling` of the whole section |
| FenSpec.AllowedCounts | src/game/board/fen.rs:149-164 | the move count each corner rook ends with |
| FenSpec.CastlingCounts | src/game/board/fen.rs:134-165 | a corner's rook ends with 0 iff its letter appears |
| FenSpec.FromFen | src/game/board/fen.rs:60-172 | non-ASCII, then a wrong section count, then an unreadable clock, then an unreadable move number are the first errors, in that order; a board read has no history and one clock frame, holding the numbers read |
| FenSpec.PlaceOnLastRow | src/game/board/fen.rs:84-126 | a placement that succeeds from row 7 has no `/` and no pawn and changes only row-7 squares, to unmoved pieces |
| FenSpec.LockRooksSpec | src/game/board/fen.rs:134-146 | every corner rook of the right colour is marked moved, and nothing else changes |
| FenSpec.ValidRightsCons | src/game/board/fen.rs:149-156 | valid rights are letters from Q, K, q and k |
| FenSpec.AllowCastlingSpec | src/game/board/fen.rs:147-165 | succeeds iff every letter is Q, K, q or k, and then sets each named corner rook to 0 |
| FenSpec.CastlingSpec | src/game/board/fen.rs:132-165 | succeeds iff the section is `-` or valid letters; a corner rook ends unmoved iff its letter is present |
| FenSpec.CastlingKeepsPieces | src/game/board/fen.rs:132-165 | the castling section keeps a board whose pieces are all non-pawns on row 7 that way |
| FenSpec.FromFenOk | src/game/board/fen.rs:60-172 | a successful parse had six sections and no `/` or pawn, and holds the parsed numbers, valid rights, side and target |
| FenSpec.FinalRowCheckNeverFails | src/game/board/fen.rs:127-130 | the final row check cannot fail |
| Fen.PlacePieces | src/game/board/fen.rs:84-126 | writes the placement into the board's array, failing exactly as `Place` does |
| Fen.LockCastlingRooks | src/game/board/fen.rs:134-146 | the array becomes `LockRooks` of the old squares |
| Fen.AllowCastlingRooks | src/game/board/fen.rs:147-165 | the array becomes `AllowCastling` of the old squares, or the same error |
| Fen.FromFen | src/game/board/fen.rs:60-172 | fails iff the parse function fails, with the same error; otherwise a fresh board whose state is the parsed one |

## Left out

- `Display` for `Board`, `Piece`, `PieceType` and `Turn` is left out: it
  is text output. The square name, which `Position::fmt` computes, is
  modelled as `Rank` and `File`.
- `src/main.rs`, `src/game/board.rs`, `src/game/fen_consts.rs` and
  `src/game/mod.rs` are not part of this model.
- `Color::get_home`, `Color::get_direction`, `Color::from_fen`,
  `Position::row`, `Position::col`, `Position::offset`, `Position::pos` and
  `Position::from_fen` are defined outside the modelled source files; the
  repository's `position.rs` and `color.rs` are older versions without
  them.
  - The first set is fixed as described above.
  - `Color::from_fen` and `Position::from_fen` are the parameters
    `colorOf` and `targetOf` of the parser.
- The `ParseIntError` inside `FenError::InvalidNumber` becomes the text
  that failed to parse.
- Integer widths are not modelled: `i8` offsets and clock, `i32` move
  counts and the `u8` square index.
  - Clock and move counts are unbounded integers, so no overflow panics
    are modelled.
  - The FEN parser's range checks for `i8` and `i32` are modelled.
- The `Board` methods require that the specification does not panic.
  Panics are modelled as the `panicked` flag of the specification
  functions, not as method outcomes.
- The duplicate copies of the `turns.rs` and `moves.rs` code in
  `src/game/board/mod.rs` are modelled once.
- `pawn_moves`' empty sixth-row `if` (moves.rs:306) has no effect and is
  not modelled.
- MoveGenProperties.PawnMovesSound: requires `NotBeforeLastRow`: the pawn
  does not stand on the row before its promotion row. This excludes every
  promotion, push or capture, although only a capture-promotion breaks the
  round trip: it records the captured kind, and the undo then leaves a
  different piece on the board.
- MoveGenProperties.PawnCaptureSound: the same condition, for the same
  reason.
- MoveGenProperties.GetMovesSound: requires `NoPawnBeforeLastRow` (no pawn
  of the side to move on the row before its promotion row), for the same
  reason, and a clock top that is not negative (`ClockOk`), because undo
  drops a -1 frame.
- MoveGenShapes.PawnMovesShape: requires `NotBeforeLastRow`, for the same
  reason.
- MoveGen.LineRay: its own contract states only that turns are appended and a panic
  is kept. What it lists is stated by MoveGenShapes.LineRayShape, MoveGenProperties.LineRaySound and MoveGenComplete.LineRayComplete.
- MoveGen.LineDirs: its own contract states only that turns are appended and a panic
  is kept. What it lists is stated by MoveGenShapes.LineDirsShape, MoveGenProperties.LineDirsSound and MoveGenComplete.LineDirsComplete.
- MoveGen.LineMoves: its own contract states only that turns are appended and a panic
  is kept. What it lists is stated by MoveGenShapes.LineMovesShape, MoveGenProperties.LineMovesSound and MoveGenComplete.LineMovesExact.
- MoveGen.SimpleStep: its own contract states only that turns are appended and a panic
  is kept. What it lists is stated by MoveGenShapes.SimpleStepShape, MoveGenProperties.SimpleStepSound and MoveGenComplete.SimpleStepComplete.
- MoveGen.KingStep: its own contract states only that turns are appended and a panic
  is kept. What it lists is stated by MoveGenShapes.KingStepShape and MoveGenProperties.KingStepSound; its completeness is part of MoveGenComplete.KingColsComplete.
- MoveGen.KingCols: its own contract states only that turns are appended and a panic
  is kept. What it lists is stated by MoveGenShapes.KingColsShape, MoveGenProperties.KingColsSound and MoveGenComplete.KingColsComplete.
- MoveGen.KingRows: its own contract states only that turns are appended and a panic
  is kept. What it lists is stated by MoveGenShapes.KingRowsShape, MoveGenProperties.KingRowsSound and MoveGenComplete.KingRowsComplete.
- MoveGen.CastlingSingleMove: its own contract states only that turns are appended and a panic
  is kept. What it lists is stated by MoveGenShapes.CastlingSingleMoveShape and MoveGenProperties.CastlingSingleMoveSound; its completeness is part of MoveGenComplete.CastleScanComplete.
- MoveGen.CastleScan: its own contract states only that turns are appended and a panic
  is kept. What it lists is stated by MoveGenShapes.CastleScanShape, MoveGenProperties.CastleScanSound and MoveGenComplete.CastleScanComplete.
- MoveGen.CastlingMoves: its own contract states only that turns are appended and a panic
  is kept. What it lists is stated by MoveGenShapes.CastlingMovesShape and MoveGenComplete.CastlingMovesComplete; its soundness is part of MoveGenProperties.KingMovesSound.
- MoveGen.KingMoves: its own contract states only that turns are appended and a panic
  is kept. What it lists is stated by MoveGenShapes.KingMovesShape, MoveGenProperties.KingMovesSound and MoveGenComplete.KingMovesExact.
- MoveGen.KnightSteps: its own contract states only that turns are appended and a panic
  is kept. What it lists is stated by MoveGenShapes.KnightStepsShape, MoveGenProperties.KnightStepsSound and MoveGenComplete.KnightStepsComplete.
- MoveGen.KnightStep: its own contract states only that turns are appended and a panic
  is kept. What it lists is stated by MoveGenShapes.KnightStepShape, MoveGenComplete.KnightStepSound and MoveGenComplete.KnightStepComplete.
- MoveGen.KnightMovesOf: its own contract states only that turns are appended and a panic
  is kept. What it lists is stated by MoveGenShapes.KnightMovesShape, MoveGenProperties.KnightMovesSound and MoveGenComplete.KnightMovesExact.
- MoveGen.PromotionStep: its own contract states only that turns are appended and a panic
  is kept. What it lists is stated by MoveGenShapes.PromotionStepShape and MoveGenComplete.PromotionStepExact.
- MoveGen.Promotions: its own contract states only that turns are appended and a panic
  is kept. What it lists is stated by MoveGenShapes.PromotionsShape, MoveGenProperties.PromotionsSound, MoveGenComplete.PromotionsExact and MoveGenComplete.PromotionsAllFour.
- MoveGen.PawnStep: its own contract states only that turns are appended and a panic
  is kept. What it lists is stated by MoveGenShapes.PawnStepShape, MoveGenProperties.PawnStepSound and MoveGenComplete.PawnStepComplete.
- MoveGen.PawnAdvance: its own contract states only that turns are appended and a panic
  is kept. What it lists is stated by MoveGenShapes.PawnAdvanceShape, MoveGenProperties.PawnAdvanceSound and MoveGenComplete.PawnAdvanceComplete.
- MoveGen.PawnCapture: its own contract states only that turns are appended and a panic
  is kept. What it lists is stated by MoveGenShapes.PawnCaptureShape, MoveGenProperties.PawnCaptureSound and MoveGenComplete.PawnCaptureComplete.
- MoveGen.PawnEnPassant: its own contract states only that turns are appended and a panic
  is kept. What it lists is stated by MoveGenShapes.PawnEnPassantShape, MoveGenProperties.PawnEnPassantSound and MoveGenComplete.PawnEnPassantComplete.
- MoveGen.PawnMoves: its own contract states only that turns are appended and a panic
  is kept. What it lists is stated by MoveGenShapes.PawnMovesShape, MoveGenProperties.PawnMovesSound and MoveGenComplete.PawnMovesExact.
- MoveGen.PieceMoves: its own contract states only that turns are appended and a panic
  is kept. What it lists is stated by MoveGenProperties.PieceMovesSound and MoveGenComplete.PieceMovesExact.
- MoveGen.DoGetMovesFrom: its own contract states only that turns are appended and a panic
  is kept. What it lists is stated by MoveGenProperties.DoGetMovesFromSound and MoveGenComplete.DoGetMovesFromExact.
- MoveGen.DoGetMoves: its own contract states only that turns are appended and a panic
  is kept. What it lists is stated by MoveGenComplete.DoGetMovesExact and MoveGenComplete.NoMovesNoCandidate; its soundness is part of MoveGenProperties.GetMovesSound.
- MoveGenProperties.LineMovesSound, MoveGenProperties.KingMovesSound,
  MoveGenProperties.KnightMovesSound, MoveGenProperties.PieceMovesSound and
  MoveGenProperties.DoGetMovesFromSound: require a clock top that is not
  negative (`ClockOk`). A FEN board can carry a negative clock, and undo
  then drops a -1 frame, so the board does not come back.
- MoveGenProperties.RestoredSettles, MoveGenProperties.AddSound, MoveGenProperties.LineRaySound, MoveGenProperties.LineDirsSound, MoveGenProperties.SimpleStepSound, MoveGenProperties.KingStepSound, MoveGenProperties.KingColsSound, MoveGenProperties.KingRowsSound, MoveGenProperties.CastlingSingleMoveSound, MoveGenProperties.CastleScanSound, MoveGenProperties.KnightStepsSound, MoveGenProperties.PromotionsSound, MoveGenProperties.PawnStepSound, MoveGenProperties.PawnAdvanceSound, MoveGenProperties.PawnCaptureSound, MoveGenProperties.PawnEnPassantSound: require a clock top that is not negative (`ClockOk`), for the same reason: each candidate is tried by make and undo, and with a negative clock undo drops a -1 frame, so the board does not come back. They say nothing about a board whose clock top is negative or whose clock stack is empty.
- MoveGenShapes.LineRayShape, MoveGenShapes.LineHeadShape, MoveGenShapes.LineDirsShape, MoveGenShapes.LineMovesShape, MoveGenShapes.KingColsShape, MoveGenShapes.KingRowsShape, MoveGenShapes.CastleScanShape, MoveGenShapes.CastlingMovesShape, MoveGenShapes.KingMovesShape, MoveGenShapes.KnightStepsShape, MoveGenShapes.KnightStepShape, MoveGenShapes.KnightMovesShape, MoveGenShapes.PawnStepShape, MoveGenShapes.PawnAdvanceShape, MoveGenShapes.PawnMovesShape: require a clock top that is not negative (`ClockOk`), for the same reason: each candidate is tried by make and undo, and with a negative clock undo drops a -1 frame, so the board does not come back. They say nothing about a board whose clock top is negative or whose clock stack is empty.
- MoveGenComplete.LineRayComplete, MoveGenComplete.LineDirsComplete, MoveGenComplete.KingColsComplete, MoveGenComplete.KingRowsComplete, MoveGenComplete.KingMovesComplete, MoveGenComplete.CastleScanComplete, MoveGenComplete.CastlingMovesComplete, MoveGenComplete.KingCastleComplete, MoveGenComplete.KnightStepsComplete, MoveGenComplete.KnightMovesAllListed, MoveGenComplete.PromotionStepExact, MoveGenComplete.PromotionsExact, MoveGenComplete.PromotionsAllFour, MoveGenComplete.PromotionsComplete, MoveGenComplete.PawnStepComplete, MoveGenComplete.PawnAdvanceComplete, MoveGenComplete.PawnSingleComplete, MoveGenComplete.PawnDoubleComplete: require a clock top that is not negative (`ClockOk`), for the same reason: each candidate is tried by make and undo, and with a negative clock undo drops a -1 frame, so the board does not come back. They say nothing about a board whose clock top is negative or whose clock stack is empty.
- MoveGenComplete.KnightMovesAllListed: requires `ClockOk` as well; with a negative clock top a legal knight move may be missing from the list, and the lemma does not cover that case.
- BoardSpec.MakeUndoIdentity: requires `ClockOk`, `PromotionUndoes` and a target that agrees with the history; it says nothing about undo after make on a board with a negative clock top, a promotion record that does not give back the moved kind, or a target the history does not give.
- MoveGenProperties.PieceMovesSound: for a pawn, requires `NotBeforeLastRow`,
  as PawnMovesSound does, so it says nothing about a pawn that could promote.
- MoveGenProperties.DoGetMovesFromSound: requires `NoPawnBeforeLastRow`, as
  GetMovesSound does, so it says nothing about a position where a pawn of
  the side to move could promote.
- MoveGenComplete.LineMovesExact, MoveGenComplete.KingMovesExact,
  MoveGenComplete.KnightMovesExact, MoveGenComplete.PawnMovesExact,
  MoveGenComplete.PieceMovesExact and MoveGenComplete.DoGetMovesExact: carry
  the hypotheses of the soundness lemmas, because completeness needs every
  earlier candidate to leave the board as it found it.
- MoveGenComplete.PawnMovesAllListed, MoveGenComplete.PawnMovesExact,
  MoveGenComplete.PieceMovesExact and MoveGenComplete.DoGetMovesExact: also require that the en-passant target
  agrees with the history. Otherwise the first make/undo cycle replaces the
  target, and an en-passant capture on the old target is no longer tried.
- MoveGenComplete.PawnCaptureComplete: requires `NotBeforeLastRow`, so it
  does not cover capture-promotions, for the reason given for PawnMovesSound.
- DoGetMovesStep (MoveGenComplete): requires `ClockOk`, `NoPawnBeforeLastRow`
  and a target that agrees with the history, as DoGetMovesExact does.
- DoGetMovesFromExact (MoveGenComplete): the same three hypotheses, for the
  same reasons.
- NoMovesNoCandidate (MoveGenComplete): the same three hypotheses. So
  "no moves means no legal candidate", which checkmate and stalemate rest on,
  is proved only for positions without a pawn of the side to move on the row
  before its promotion row, with a non-negative clock top and with the
  en-passant target the history gives.
- Status.QueriesKeepBoard and Status.GameOverMatchesState: the same three
  hypotheses; without them the queries may leave a board with another
  en-passant target, and a later query is asked on that board.
- FenSpec.FromFen: its error contract is one-directional. The helper
  parameters may return any error, so an error does not determine its
  cause.
- Status.IsGameOver: its own contract states only that the side to move,
  history, captures, move number and occupancy are kept. Its value is
  related to `get_game_state` by Status.GameOverMatchesState, under that
  lemma's hypotheses.
