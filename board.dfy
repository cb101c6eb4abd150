/** The board state: an 8x8 grid of optional pieces, set up in the standard starting
    position and changed in place, one accepted move at a time. */
module BoardState {
  import opened Pieces

  /** What one move attempt comes to. The program reports the first two as `false`
      and `Moved` as `true`; on `GameOver` it ends the whole process. */
  datatype MoveOutcome =
    | NoPieceAtOrigin
    | IllegalMove
    | GameOver(winner: Colour)
    | Moved(captured: Option<Piece>)

  /** The back rank, from column 0 to column 7, the same for both colours. */
  function BackRank(col: int): Kind
    requires 0 <= col < 8
  {
    [Rook, Knight, Bishop, Queen, King, Bishop, Knight, Rook][col]
  }

  /** Row of a colour's back rank: Black's is row 0, White's row 7. */
  function BackRow(c: Colour): int {
    match c
    case White => 7
    case Black => 0
  }

  /** The occupant of each square in the starting position. */
  function InitialCell(sq: Square): Cell
    requires OnBoard(sq)
  {
    if sq.row == 0 then Some(Piece(BackRank(sq.col), Black))
    else if sq.row == 1 then Some(Piece(Pawn, Black))
    else if sq.row == 6 then Some(Piece(Pawn, White))
    else if sq.row == 7 then Some(Piece(BackRank(sq.col), White))
    else None
  }

  /** Exactly one square of `b` holds the king of colour `c`. */
  ghost predicate OneKing(b: array2<Cell>, c: Colour)
    requires IsBoard(b)
    reads b
  {
    exists k :: OnBoard(k) && At(b, k) == Some(Piece(King, c)) &&
      forall q :: OnBoard(q) && At(b, q) == Some(Piece(King, c)) ==> q == k
  }

  predicate IsSetUpRow(row: int) {
    row == 0 || row == 1 || row == 6 || row == 7
  }

  class ChessBoard {
    var board: array2<Cell>

    ghost predicate Valid()
      reads this
    {
      IsBoard(board)
    }

    function Occupant(sq: Square): Cell
      requires Valid() && OnBoard(sq)
      reads this, board
    {
      board[sq.row, sq.col]
    }

    /** An empty grid, then the starting position. */
    constructor ()
      ensures Valid() && fresh(board)
      ensures forall r, c :: 0 <= r < 8 && 0 <= c < 8 ==> board[r, c] == InitialCell(Square(r, c))
      ensures OneKing(board, White) && OneKing(board, Black)
    {
      board := new Cell[8, 8]((r, c) => None);
      new;
      InitializePieces();
      forall c: Colour
        ensures OneKing(board, c)
      {
        var k := Square(BackRow(c), 4);
        InitialKings(c, k);
        assert At(board, k) == InitialCell(k);
        forall q | OnBoard(q) && At(board, q) == Some(Piece(King, c))
          ensures q == k
        {
          InitialKings(c, q);
          assert At(board, q) == InitialCell(q);
        }
      }
    }

    /** Places both pawn rows and both back ranks; rows 2 to 5 are not touched. */
    method InitializePieces()
      requires Valid()
      modifies board
      ensures forall r, c :: 0 <= r < 8 && 0 <= c < 8 ==>
        board[r, c] == if IsSetUpRow(r) then InitialCell(Square(r, c)) else old(board[r, c])
    {
      for i := 0 to 8
        invariant forall r, c :: 0 <= r < 8 && 0 <= c < 8 ==>
          board[r, c] == if (r == 1 || r == 6) && c < i then InitialCell(Square(r, c)) else old(board[r, c])
      {
        board[1, i] := Some(Piece(Pawn, Black));
        board[6, i] := Some(Piece(Pawn, White));
      }

      PlaceBackRank(BackRow(Black), Black);
      PlaceBackRank(BackRow(White), White);
    }

    /** Puts rook, knight, bishop, queen, king, bishop, knight, rook of colour `c` on
        row `row`, one direct assignment per square. */
    method PlaceBackRank(row: int, c: Colour)
      requires Valid() && 0 <= row < 8
      modifies board
      ensures forall r, col :: 0 <= r < 8 && 0 <= col < 8 ==>
        board[r, col] == if r == row then Some(Piece(BackRank(col), c)) else old(board[r, col])
    {
      board[row, 0] := Some(Piece(Rook, c));
      board[row, 1] := Some(Piece(Knight, c));
      board[row, 2] := Some(Piece(Bishop, c));
      board[row, 3] := Some(Piece(Queen, c));
      board[row, 4] := Some(Piece(King, c));
      board[row, 5] := Some(Piece(Bishop, c));
      board[row, 6] := Some(Piece(Knight, c));
      board[row, 7] := Some(Piece(Rook, c));
    }

    /** Looks up the piece on `s`, checks its rule, ends the game if the destination
        holds a king, and otherwise moves the piece, overwriting whatever stood on `e`. */
    method MovePiece(s: Square, e: Square) returns (outcome: MoveOutcome)
      requires Valid() && OnBoard(s) && OnBoard(e)
      requires Occupant(s) != None ==> Defined(Occupant(s).value, s, e, board)
      modifies board
      ensures Valid()
      ensures outcome == NoPieceAtOrigin <==> old(Occupant(s)) == None
      ensures outcome == IllegalMove <==>
        old(Occupant(s)) != None && !old(Legal(Occupant(s).value, s, e, board))
      ensures outcome.GameOver? <==>
        old(Occupant(s)) != None && old(Legal(Occupant(s).value, s, e, board))
        && old(Occupant(e)) != None && old(Occupant(e)).value.kind == King
      ensures outcome.GameOver? ==>
        outcome.winner == old(Occupant(s)).value.colour
        && old(Occupant(e)) == Some(Piece(King, Opponent(outcome.winner)))
      ensures !outcome.Moved? ==>
        forall r, c :: 0 <= r < 8 && 0 <= c < 8 ==> board[r, c] == old(board[r, c])
      ensures outcome.Moved? ==>
        s != e && outcome.captured == old(Occupant(e))
        && Occupant(e) == old(Occupant(s)) && Occupant(s) == None
        && forall r, c :: 0 <= r < 8 && 0 <= c < 8 && Square(r, c) != s && Square(r, c) != e ==>
             board[r, c] == old(board[r, c])
      ensures forall c :: old(OneKing(board, c)) ==> OneKing(board, c)
    {
      var piece := board[s.row, s.col];
      if piece == None {
        return NoPieceAtOrigin;
      }
      var ok := IsValidMove(piece.value, s, e, board);
      if !ok {
        return IllegalMove;
      }
      var target := board[e.row, e.col];
      if target != None && target.value.kind == King {
        if target.value.colour == piece.value.colour {
          OwnColourRejected(piece.value, s, e, board);
          assert false;
        }
        return GameOver(piece.value.colour);
      }
      LegalMoveLeavesOrigin(piece.value, s, e, board);
      board[e.row, e.col] := piece;
      board[s.row, s.col] := None;
      outcome := Moved(target);
      // A king that moves takes its uniqueness with it; no king is captured here.
      forall c | old(OneKing(board, c))
        ensures OneKing(board, c)
      {
        var k :| OnBoard(k) && old(At(board, k)) == Some(Piece(King, c)) &&
          forall q :: OnBoard(q) && old(At(board, q)) == Some(Piece(King, c)) ==> q == k;
        var k' := if k == s then e else k;
        assert At(board, k') == Some(Piece(King, c));
        forall q | OnBoard(q) && At(board, q) == Some(Piece(King, c))
          ensures q == k'
        {
          if q != e {
            assert old(At(board, q)) == Some(Piece(King, c));
          }
        }
      }
    }
  }

  // ---------------------------------------------------------------------------
  // The starting position

  lemma BackRankKing(col: int)
    requires 0 <= col < 8
    ensures BackRank(col) == King <==> col == 4
  {
  }

  /** Rows 1 and 6 hold the pawns, rows 0 and 7 the back ranks, rows 2 to 5 are empty. */
  lemma InitialLayout(sq: Square)
    requires OnBoard(sq)
    ensures sq.row == 1 ==> InitialCell(sq) == Some(Piece(Pawn, Black))
    ensures sq.row == 6 ==> InitialCell(sq) == Some(Piece(Pawn, White))
    ensures sq.row == BackRow(Black) ==> InitialCell(sq) == Some(Piece(BackRank(sq.col), Black))
    ensures sq.row == BackRow(White) ==> InitialCell(sq) == Some(Piece(BackRank(sq.col), White))
    ensures 2 <= sq.row <= 5 <==> InitialCell(sq) == None
  {
  }

  /** Each colour starts with exactly one king, on column 4 of its back rank. */
  lemma InitialKings(c: Colour, sq: Square)
    requires OnBoard(sq)
    ensures InitialCell(sq) == Some(Piece(King, c)) <==> sq == Square(BackRow(c), 4)
  {
    BackRankKing(sq.col);
  }

  /** The two sides start as mirror images of each other across the middle of the board. */
  lemma InitialMirrored(sq: Square)
    requires OnBoard(sq)
    ensures var m := InitialCell(Square(7 - sq.row, sq.col));
            InitialCell(sq) == if m == None then None else Some(Piece(m.value.kind, Opponent(m.value.colour)))
  {
  }

  // ---------------------------------------------------------------------------
  // A short opening, as the game loop would drive it

  method OpeningSequence() {
    var cb := new ChessBoard();
    // White pawn A6 advances two rows from its home row.
    var o := cb.MovePiece(Square(6, 0), Square(4, 0));
    assert o == Moved(None);
    // Black pawn A1 cannot reach row 4 in one move.
    o := cb.MovePiece(Square(1, 0), Square(4, 0));
    assert o == IllegalMove;
    // Black pawn H1 advances two rows.
    o := cb.MovePiece(Square(1, 7), Square(3, 7));
    assert o == Moved(None);
  }

  method BlockedSliders() {
    var cb := new ChessBoard();
    var o := cb.MovePiece(Square(6, 0), Square(4, 0));
    assert o == Moved(None);
    // White bishop C7 is blocked on its way to A5 by the pawn on B6.
    assert Step(Square(7, 2), Square(5, 0), 1) == Square(6, 1);
    o := cb.MovePiece(Square(7, 2), Square(5, 0));
    assert o == IllegalMove;
    // White rook A7 is blocked on its way to A0 by the pawn now on A4.
    assert Step(Square(7, 0), Square(0, 0), 3) == Square(4, 0);
    o := cb.MovePiece(Square(7, 0), Square(0, 0));
    assert o == IllegalMove;
  }
}
