# Chess move rules, modelled in Dafny

A model of the rules layer of a small console chess program (`chess.cpp`). There are six
piece kinds: Pawn, Rook, Knight, Bishop, Queen and King. Each has a legality rule. The
rule decides whether a piece of a given colour may go from one square to another on the
current 8x8 board. The `ChessBoard` sets up the starting position and applies moves in place.

- `pieces.dfy`, module `Pieces`:
  - The pieces are one closed datatype `Piece(kind, colour)`, where `Colour` is `White | Black`. The source keeps the colour as a string and only ever compares it with `"white"` and `"black"`.
  - The board is an `array2<Option<Piece>>` indexed `[row, column]`.
  - Each rule is a predicate over the board (`PawnRule` … `KingRule`). `Legal` picks the rule by the piece's kind, in place of the source's virtual dispatch.
  - The Rook and Bishop rules walk the path square by square in the method `ScanPath`. `RookIsValidMove`, `BishopIsValidMove` and the dispatcher `IsValidMove` are the executable forms, proved equal to the predicates.
  - The lemmas restate each rule independently: sliding paths as "no occupied square strictly between", knight and king moves as displacement sets.
- `board.dfy`, module `BoardState`:
  - The `ChessBoard` class owns the 8x8 array.
  - The constructor empties the grid, then calls `InitializePieces`.
  - `MovePiece` returns a `MoveOutcome`. `NoPieceAtOrigin` and `IllegalMove` are the source's `false`. `Moved(captured)` is its `true`. `GameOver(winner)` stands in for the source's `exit(0)` when a king is taken.
  - The pure function `InitialCell` specifies the starting position, and lemmas describe it.
  - The ghost predicate `OneKing` says exactly one square holds a given colour's king. The constructor establishes it for both colours, and `MovePiece` preserves it.
  - `OpeningSequence` and `BlockedSliders` are client methods. They drive a few moves and assert their outcomes.

Preconditions that stand for undefined behaviour in the source:

- `Bishop::isValidMove` divides the displacement by its own magnitude (chess.cpp:123-124). When start equals end, that is a division by zero. So `BishopRule` requires `s != e`.
- `Queen::isValidMove` reaches the Bishop rule only after the Rook rule has rejected. `QueenRule` therefore requires `s != e || RookRule(...)`.
- The predicate `Defined` collects both conditions. `MovePiece` requires it for the piece on the origin square. For a Bishop or Queen standing on `s`, this is exactly `s != e`.
- `movePiece` indexes the board without a bounds check, so `MovePiece` requires both squares to be on the board.

Behaviours of the code a reader may not expect, all kept in the model:

- The King rule ("one square in any direction", chess.cpp:165) does not exclude a zero displacement. A king "moving" onto its own square is rejected only because that square holds a piece of its own colour (`KingStandStillRejected`). `KingMeaning` keeps the null move in the rule.
- The Bishop rule ("moves only diagonally", chess.cpp:117) does not reject a null move. It divides by zero on one, hence the precondition above.
- On a king capture, the code neither reports a capture nor touches the board. `GameOver` leaves every cell unchanged.
- `MovePiece` ends the game on any legal move onto a king, whatever the king's colour, as the code does. `MovePiece` proves that this king is always the opponent's.

## Model

| member | source | states |
|---|---|---|
| Pieces.ScanPath | chess.cpp:68-79 | returns true exactly when every square stepped over strictly between start and end (one unit step per iteration, direction = sign of the displacement) is empty |
| Pieces.RookIsValidMove | chess.cpp:56-86 | result equals the Rook rule: straight line, clear path, destination empty or the other colour |
| Pieces.BishopIsValidMove | chess.cpp:113-141 | result equals the Bishop rule: equal row and column displacement, clear path, destination empty or the other colour; requires start != end (division by zero otherwise) |
| Pieces.IsValidMove | chess.cpp:23-172 | the virtual `isValidMove` call of chess.cpp:246, dispatched on kind over the six rules; the Queen (chess.cpp:149-153) tries the Rook rule and falls back on the Bishop rule; result equals `Legal` for every kind |
| Pieces.PathClearMeaning | chess.cpp:128-134 | the stepping walk finds no occupied square iff no square geometrically strictly between the ends of the line is occupied |
| Pieces.RookMeaning | chess.cpp:62-83 | Rook accepts iff same row or column, no occupied square strictly between, destination empty or opposing |
| Pieces.BishopMeaning | chess.cpp:117-138 | Bishop accepts iff equal absolute displacements, no occupied square strictly between, destination empty or opposing |
| Pieces.QueenMeaning | chess.cpp:149-153 | Queen accepts iff the move is along a row, column or diagonal, nothing stands between, destination empty or opposing |
| Pieces.QueenIsRookOrBishop | chess.cpp:150-152 | a Queen move is legal exactly when the Rook rule or the Bishop rule of the same colour accepts it |
| Pieces.SlidingBlocked | chess.cpp:73-76 | a Rook, Bishop or Queen move with any occupied square strictly between start and end is rejected, whatever occupies it |
| Pieces.OwnColourRejected | chess.cpp:81 | no kind accepts a move onto a square holding a piece of the mover's colour |
| Pieces.LegalMoveLeavesOrigin | chess.cpp:246-261 | a piece standing on the start square has no legal move to that same square |
| Pieces.PawnForwardOnly | chess.cpp:24-47 | a pawn move is accepted only one row forward (straight or one column sideways) or two rows straight forward from its home row (6 White, 1 Black) |
| Pieces.PawnSingleStep | chess.cpp:31-34 | a one-row straight forward step is accepted iff the destination is empty |
| Pieces.PawnDoubleStep | chess.cpp:36-40 | a two-row straight forward step is accepted iff it starts on the home row and both the passed and the destination squares are empty |
| Pieces.PawnCapture | chess.cpp:41-45 | a one-column sideways move is accepted iff it goes one row forward onto a piece of the other colour |
| Pieces.KnightMeaning | chess.cpp:94-105 | Knight accepts iff the displacement is one of the eight (1,2)/(2,1) jumps and the destination is empty or opposing |
| Pieces.KingMeaning | chess.cpp:161-172 | King accepts iff the displacement is one of the eight adjacent steps or zero, and the destination is empty or opposing |
| Pieces.KingStandStillRejected | chess.cpp:166-167 | a king standing on its square cannot "move" onto that same square |
| BoardState.ChessBoard.constructor | chess.cpp:181-184 | the new board holds exactly the starting position, so exactly one king of each colour |
| BoardState.ChessBoard.InitializePieces | chess.cpp:195-220 | rows 0, 1, 6, 7 take the starting position; rows 2 to 5 are left as they were |
| BoardState.ChessBoard.PlaceBackRank | chess.cpp:203-219 | the given row holds Rook, Knight, Bishop, Queen, King, Bishop, Knight, Rook of the given colour; other rows unchanged |
| BoardState.ChessBoard.MovePiece | chess.cpp:236-263 | empty origin: NoPieceAtOrigin; rule rejects: IllegalMove; legal onto a king: GameOver with the mover's colour, the king being the opponent's; in these three cases no cell changes; otherwise Moved(previous destination occupant), destination holds the mover, origin empty, the other 62 cells unchanged; in every case a colour that had exactly one king still has exactly one |
| BoardState.BackRankKing | chess.cpp:207 | column 4 is the only king column of a back rank |
| BoardState.InitialLayout | chess.cpp:197-219 | rows 1 and 6 are Black and White pawns, rows 0 and 7 the Black and White back ranks, rows 2 to 5 (and only they) empty |
| BoardState.InitialKings | chess.cpp:207-216 | in the starting position each colour has exactly one king, on column 4 of its back row |
| BoardState.InitialMirrored | chess.cpp:197-219 | the starting position is symmetric: row r is row 7 - r with the colours swapped |

## Left out

- `printBoard` (chess.cpp:222-234) and every console message in `movePiece`: output only. The capture message's content is carried instead by `Moved(captured)`.
- `parseInput` (chess.cpp:267-285): it rests on `sscanf` format semantics. `MovePiece`'s on-board precondition stands for its range check.
- `main` (chess.cpp:288-322): the console loop, the quit command, the turn string and the check that the moving piece belongs to the side to move.
- The destructor and `new`/`delete` (chess.cpp:186-193, 258): cells hold piece values, so a capture simply overwrites the destination cell.
- `exit(0)` (chess.cpp:253): replaced by the returned outcome `GameOver`.
- Colour strings other than `"white"` and `"black"`: the program never creates any.
