/** The piece layer of the game: the six kinds of piece, their two colours, and the
    legality rule each kind applies to a proposed move on an 8x8 board.

    The board is an 8x8 grid of optional occupants (an `array2`), indexed
    `[row, column]`. White's pawns start on row 6 and move towards row 0; Black's
    start on row 1 and move towards row 7. Every rule looks only at geometry and
    occupancy: whose turn it is and whether a king is in check play no part. */
module Pieces {

  datatype Option<T> = None | Some(value: T)

  datatype Colour = White | Black

  datatype Kind = Pawn | Rook | Knight | Bishop | Queen | King

  /** A piece never changes kind or colour; only the board cell holding it changes. */
  datatype Piece = Piece(kind: Kind, colour: Colour)

  datatype Square = Square(row: int, col: int)

  type Cell = Option<Piece>

  function Opponent(c: Colour): Colour {
    match c
    case White => Black
    case Black => White
  }

  // ---------------------------------------------------------------------------
  // Board geometry

  predicate OnBoard(s: Square) {
    0 <= s.row < 8 && 0 <= s.col < 8
  }

  predicate IsBoard(b: array2<Cell>) {
    b.Length0 == 8 && b.Length1 == 8
  }

  function At(b: array2<Cell>, s: Square): Cell
    requires IsBoard(b) && OnBoard(s)
    reads b
  {
    b[s.row, s.col]
  }

  function Abs(x: int): nat {
    if x < 0 then -x else x
  }

  /** The sign of `d`; for `d != 0` this is the C++ expression `d / abs(d)`. */
  function Sign(d: int): int {
    if d > 0 then 1 else if d < 0 then -1 else 0
  }

  function Max(x: int, y: int): int {
    if x < y then y else x
  }

  /** Number of king steps from `s` to `e`. */
  function Distance(s: Square, e: Square): nat {
    Max(Abs(e.row - s.row), Abs(e.col - s.col))
  }

  predicate IsStraight(s: Square, e: Square) {
    s.row == e.row || s.col == e.col
  }

  predicate IsDiagonal(s: Square, e: Square) {
    Abs(e.row - s.row) == Abs(e.col - s.col)
  }

  /** A move along a row, a column or a diagonal: the only moves with a path. */
  predicate IsLine(s: Square, e: Square) {
    IsStraight(s, e) || IsDiagonal(s, e)
  }

  /** The coordinate reached after `k` unit steps from `from` towards `to`. */
  function Toward(from: int, to: int, k: int): int {
    if from < to then from + k else if to < from then from - k else from
  }

  /** The square `k` steps from `s` along the line to `e`. */
  function Step(s: Square, e: Square, k: int): Square {
    Square(Toward(s.row, e.row, k), Toward(s.col, e.col, k))
  }

  /** No square strictly between `s` and `e`, stepping along their line, is occupied.
      This is what the scanning loops of the Rook and Bishop rules check. */
  predicate PathClear(s: Square, e: Square, b: array2<Cell>)
    requires IsBoard(b) && OnBoard(s) && OnBoard(e) && IsLine(s, e)
    reads b
  {
    forall k :: 0 < k < Distance(s, e) ==> At(b, Step(s, e, k)) == None
  }

  /** `x` lies strictly between `lo` and `hi`, or on the shared value when they agree. */
  predicate Inside(lo: int, hi: int, x: int) {
    if lo == hi then x == lo else lo < x < hi || hi < x < lo
  }

  /** `q` is one of the squares a sliding piece passes over on its way from `s` to `e`,
      stated geometrically: on the segment, not at either end. */
  predicate StrictlyBetween(s: Square, e: Square, q: Square) {
    q != s && q != e &&
    Inside(s.row, e.row, q.row) && Inside(s.col, e.col, q.col) &&
    (IsStraight(s, e) || Abs(q.row - s.row) == Abs(q.col - s.col))
  }

  /** The path condition as a reader of the rules would state it. */
  ghost predicate NoBlocker(s: Square, e: Square, b: array2<Cell>)
    requires IsBoard(b)
    reads b
  {
    forall q :: OnBoard(q) && StrictlyBetween(s, e, q) ==> At(b, q) == None
  }

  /** The destination is empty or holds a piece of the other colour. */
  predicate CanLand(colour: Colour, e: Square, b: array2<Cell>)
    requires IsBoard(b) && OnBoard(e)
    reads b
  {
    At(b, e) == None || At(b, e).value.colour != colour
  }

  // ---------------------------------------------------------------------------
  // The per-kind rules

  /** Row direction of a pawn: White towards row 0, Black towards row 7. */
  function Direction(c: Colour): int {
    match c
    case White => -1
    case Black => 1
  }

  /** Row from which a pawn may advance two squares. */
  function PawnHomeRow(c: Colour): int {
    match c
    case White => 6
    case Black => 1
  }

  predicate PawnRule(colour: Colour, s: Square, e: Square, b: array2<Cell>)
    requires IsBoard(b) && OnBoard(s) && OnBoard(e)
    reads b
  {
    var dir := Direction(colour);
    if s.col == e.col then
      (e.row == s.row + dir && At(b, e) == None)
      || (s.row == PawnHomeRow(colour) && e.row == s.row + 2 * dir && At(b, e) == None
          && At(b, Square(s.row + dir, e.col)) == None)
    else if Abs(s.col - e.col) == 1 && e.row == s.row + dir then
      At(b, e) != None && At(b, e).value.colour != colour
    else
      false
  }

  predicate RookRule(colour: Colour, s: Square, e: Square, b: array2<Cell>)
    requires IsBoard(b) && OnBoard(s) && OnBoard(e)
    reads b
  {
    IsStraight(s, e) && PathClear(s, e, b) && CanLand(colour, e, b)
  }

  predicate KnightRule(colour: Colour, s: Square, e: Square, b: array2<Cell>)
    requires IsBoard(b) && OnBoard(s) && OnBoard(e)
    reads b
  {
    var rowDiff, colDiff := Abs(s.row - e.row), Abs(s.col - e.col);
    ((rowDiff == 2 && colDiff == 1) || (rowDiff == 1 && colDiff == 2)) && CanLand(colour, e, b)
  }

  /** The source divides the displacement by its magnitude, so a bishop "move" from a
      square to itself has no defined outcome: hence `s != e`. */
  predicate BishopRule(colour: Colour, s: Square, e: Square, b: array2<Cell>)
    requires IsBoard(b) && OnBoard(s) && OnBoard(e) && s != e
    reads b
  {
    IsDiagonal(s, e) && PathClear(s, e, b) && CanLand(colour, e, b)
  }

  /** Rook first, Bishop only when the Rook rule rejects: the division in the Bishop rule
      is reached for `s == e` exactly when the Rook rule has rejected. */
  predicate QueenRule(colour: Colour, s: Square, e: Square, b: array2<Cell>)
    requires IsBoard(b) && OnBoard(s) && OnBoard(e)
    requires s != e || RookRule(colour, s, e, b)
    reads b
  {
    RookRule(colour, s, e, b) || BishopRule(colour, s, e, b)
  }

  predicate KingRule(colour: Colour, s: Square, e: Square, b: array2<Cell>)
    requires IsBoard(b) && OnBoard(s) && OnBoard(e)
    reads b
  {
    Abs(s.row - e.row) <= 1 && Abs(s.col - e.col) <= 1 && CanLand(colour, e, b)
  }

  /** The rule of `p` has a defined outcome for this move. */
  predicate Defined(p: Piece, s: Square, e: Square, b: array2<Cell>)
    requires IsBoard(b) && OnBoard(s) && OnBoard(e)
    reads b
  {
    match p.kind
    case Bishop => s != e
    case Queen => s != e || RookRule(p.colour, s, e, b)
    case _ => true
  }

  /** The legality rule of `p`, chosen by its kind. */
  predicate Legal(p: Piece, s: Square, e: Square, b: array2<Cell>)
    requires IsBoard(b) && OnBoard(s) && OnBoard(e) && Defined(p, s, e, b)
    reads b
  {
    match p.kind
    case Pawn => PawnRule(p.colour, s, e, b)
    case Rook => RookRule(p.colour, s, e, b)
    case Knight => KnightRule(p.colour, s, e, b)
    case Bishop => BishopRule(p.colour, s, e, b)
    case Queen => QueenRule(p.colour, s, e, b)
    case King => KingRule(p.colour, s, e, b)
  }

  // ---------------------------------------------------------------------------
  // The rules as the program evaluates them

  /** Walks the squares strictly between `s` and `e` one step at a time and stops at
      the first occupied one. */
  method ScanPath(s: Square, e: Square, b: array2<Cell>) returns (clear: bool)
    requires IsBoard(b) && OnBoard(s) && OnBoard(e) && IsLine(s, e)
    ensures clear == PathClear(s, e, b)
  {
    var rowDirection, colDirection := Sign(e.row - s.row), Sign(e.col - s.col);
    var currentRow, currentCol := s.row + rowDirection, s.col + colDirection;
    ghost var k := 1;
    while currentRow != e.row || currentCol != e.col
      invariant 1 <= k && (k <= Distance(s, e) || s == e)
      invariant Square(currentRow, currentCol) == Step(s, e, k)
      invariant forall j :: 0 < j < k ==> At(b, Step(s, e, j)) == None
      decreases Distance(s, e) - k
    {
      if b[currentRow, currentCol] != None {
        return false;
      }
      currentRow, currentCol := currentRow + rowDirection, currentCol + colDirection;
      k := k + 1;
    }
    return true;
  }

  method RookIsValidMove(colour: Colour, s: Square, e: Square, b: array2<Cell>) returns (ok: bool)
    requires IsBoard(b) && OnBoard(s) && OnBoard(e)
    ensures ok == RookRule(colour, s, e, b)
  {
    if s.row != e.row && s.col != e.col {
      return false;
    }
    var clear := ScanPath(s, e, b);
    if !clear {
      return false;
    }
    ok := b[e.row, e.col] == None || b[e.row, e.col].value.colour != colour;
  }

  method BishopIsValidMove(colour: Colour, s: Square, e: Square, b: array2<Cell>) returns (ok: bool)
    requires IsBoard(b) && OnBoard(s) && OnBoard(e) && s != e
    ensures ok == BishopRule(colour, s, e, b)
  {
    var rowDiff, colDiff := Abs(s.row - e.row), Abs(s.col - e.col);
    if rowDiff != colDiff {
      return false;
    }
    var clear := ScanPath(s, e, b);
    if !clear {
      return false;
    }
    ok := b[e.row, e.col] == None || b[e.row, e.col].value.colour != colour;
  }

  /** Dispatch on the kind of the moving piece; the Queen tries the Rook rule and
      falls back on the Bishop rule. */
  method IsValidMove(p: Piece, s: Square, e: Square, b: array2<Cell>) returns (ok: bool)
    requires IsBoard(b) && OnBoard(s) && OnBoard(e) && Defined(p, s, e, b)
    ensures ok == Legal(p, s, e, b)
  {
    match p.kind
    case Pawn =>
      ok := PawnRule(p.colour, s, e, b);
    case Rook =>
      ok := RookIsValidMove(p.colour, s, e, b);
    case Knight =>
      ok := KnightRule(p.colour, s, e, b);
    case Bishop =>
      ok := BishopIsValidMove(p.colour, s, e, b);
    case Queen =>
      ok := RookIsValidMove(p.colour, s, e, b);
      if !ok {
        ok := BishopIsValidMove(p.colour, s, e, b);
      }
    case King =>
      ok := KingRule(p.colour, s, e, b);
  }

  // ---------------------------------------------------------------------------
  // What the rules mean

  /** The stepping walk of the scanning loop visits exactly the squares strictly
      between the two ends of the line. */
  lemma PathClearMeaning(s: Square, e: Square, b: array2<Cell>)
    requires IsBoard(b) && OnBoard(s) && OnBoard(e) && IsLine(s, e)
    ensures PathClear(s, e, b) <==> NoBlocker(s, e, b)
  {
    if PathClear(s, e, b) {
      forall q | OnBoard(q) && StrictlyBetween(s, e, q)
        ensures At(b, q) == None
      {
        var k := if q.row != s.row then Abs(q.row - s.row) else Abs(q.col - s.col);
        assert Step(s, e, k) == q;
      }
    }
    if NoBlocker(s, e, b) {
      forall k | 0 < k < Distance(s, e)
        ensures At(b, Step(s, e, k)) == None
      {
        assert StrictlyBetween(s, e, Step(s, e, k));
      }
    }
  }

  lemma RookMeaning(colour: Colour, s: Square, e: Square, b: array2<Cell>)
    requires IsBoard(b) && OnBoard(s) && OnBoard(e)
    ensures RookRule(colour, s, e, b) <==> IsStraight(s, e) && NoBlocker(s, e, b) && CanLand(colour, e, b)
  {
    if IsStraight(s, e) {
      PathClearMeaning(s, e, b);
    }
  }

  lemma BishopMeaning(colour: Colour, s: Square, e: Square, b: array2<Cell>)
    requires IsBoard(b) && OnBoard(s) && OnBoard(e) && s != e
    ensures BishopRule(colour, s, e, b) <==> IsDiagonal(s, e) && NoBlocker(s, e, b) && CanLand(colour, e, b)
  {
    if IsDiagonal(s, e) {
      PathClearMeaning(s, e, b);
    }
  }

  /** A queen moves along any row, column or diagonal over empty squares. */
  lemma QueenMeaning(colour: Colour, s: Square, e: Square, b: array2<Cell>)
    requires IsBoard(b) && OnBoard(s) && OnBoard(e) && s != e
    ensures QueenRule(colour, s, e, b) <==> IsLine(s, e) && NoBlocker(s, e, b) && CanLand(colour, e, b)
  {
    RookMeaning(colour, s, e, b);
    BishopMeaning(colour, s, e, b);
  }

  /** The queen's rule is the disjunction of the rook's and the bishop's, for the same
      colour, squares and board. */
  lemma QueenIsRookOrBishop(colour: Colour, s: Square, e: Square, b: array2<Cell>)
    requires IsBoard(b) && OnBoard(s) && OnBoard(e) && s != e
    ensures Legal(Piece(Queen, colour), s, e, b) <==>
            Legal(Piece(Rook, colour), s, e, b) || Legal(Piece(Bishop, colour), s, e, b)
  {
  }

  /** A rook, bishop or queen never passes over an occupied square, whoever occupies it. */
  lemma SlidingBlocked(p: Piece, s: Square, e: Square, b: array2<Cell>, q: Square)
    requires IsBoard(b) && OnBoard(s) && OnBoard(e) && OnBoard(q)
    requires p.kind == Rook || p.kind == Bishop || p.kind == Queen
    requires Defined(p, s, e, b)
    requires StrictlyBetween(s, e, q) && At(b, q) != None
    ensures !Legal(p, s, e, b)
  {
    RookMeaning(p.colour, s, e, b);
    if s != e {
      BishopMeaning(p.colour, s, e, b);
    }
  }

  /** No rule lets a piece land on a piece of its own colour. */
  lemma OwnColourRejected(p: Piece, s: Square, e: Square, b: array2<Cell>)
    requires IsBoard(b) && OnBoard(s) && OnBoard(e) && Defined(p, s, e, b)
    requires At(b, e) != None && At(b, e).value.colour == p.colour
    ensures !Legal(p, s, e, b)
  {
  }

  /** A piece standing on `s` has no legal move back onto `s`. */
  lemma LegalMoveLeavesOrigin(p: Piece, s: Square, e: Square, b: array2<Cell>)
    requires IsBoard(b) && OnBoard(s) && OnBoard(e) && Defined(p, s, e, b)
    requires At(b, s) == Some(p) && Legal(p, s, e, b)
    ensures s != e
  {
    if s == e {
      OwnColourRejected(p, s, e, b);
    }
  }

  /** A pawn moves one row in its direction (straight or diagonally), or two rows
      straight from its home row; nothing else. */
  lemma PawnForwardOnly(colour: Colour, s: Square, e: Square, b: array2<Cell>)
    requires IsBoard(b) && OnBoard(s) && OnBoard(e) && PawnRule(colour, s, e, b)
    ensures (e.row == s.row + Direction(colour) && Abs(e.col - s.col) <= 1)
         || (e.row == s.row + 2 * Direction(colour) && e.col == s.col && s.row == PawnHomeRow(colour))
  {
  }

  lemma PawnSingleStep(colour: Colour, s: Square, e: Square, b: array2<Cell>)
    requires IsBoard(b) && OnBoard(s) && OnBoard(e)
    requires e.col == s.col && e.row == s.row + Direction(colour)
    ensures PawnRule(colour, s, e, b) <==> At(b, e) == None
  {
  }

  lemma PawnDoubleStep(colour: Colour, s: Square, e: Square, b: array2<Cell>)
    requires IsBoard(b) && OnBoard(s) && OnBoard(e)
    requires e.col == s.col && e.row == s.row + 2 * Direction(colour)
    ensures OnBoard(Square(s.row + Direction(colour), s.col))
    ensures PawnRule(colour, s, e, b) <==>
            s.row == PawnHomeRow(colour) && At(b, e) == None
            && At(b, Square(s.row + Direction(colour), s.col)) == None
  {
  }

  /** A pawn moves diagonally only one row forward and only to take a piece of the
      other colour. */
  lemma PawnCapture(colour: Colour, s: Square, e: Square, b: array2<Cell>)
    requires IsBoard(b) && OnBoard(s) && OnBoard(e)
    requires Abs(e.col - s.col) == 1
    ensures PawnRule(colour, s, e, b) <==>
            e.row == s.row + Direction(colour) && At(b, e) != None && At(b, e).value.colour == Opponent(colour)
  {
  }

  /** The eight knight jumps, as (row, column) displacements. */
  function KnightJumps(): set<(int, int)> {
    {(-2, -1), (-2, 1), (-1, -2), (-1, 2), (1, -2), (1, 2), (2, -1), (2, 1)}
  }

  /** The eight king steps, as (row, column) displacements. */
  function KingSteps(): set<(int, int)> {
    {(-1, -1), (-1, 0), (-1, 1), (0, -1), (0, 1), (1, -1), (1, 0), (1, 1)}
  }

  lemma KnightMeaning(colour: Colour, s: Square, e: Square, b: array2<Cell>)
    requires IsBoard(b) && OnBoard(s) && OnBoard(e)
    ensures KnightRule(colour, s, e, b) <==> (e.row - s.row, e.col - s.col) in KnightJumps() && CanLand(colour, e, b)
  {
  }

  /** The king's rule also accepts the null move onto its own square when that square
      is empty or holds the other colour. */
  lemma KingMeaning(colour: Colour, s: Square, e: Square, b: array2<Cell>)
    requires IsBoard(b) && OnBoard(s) && OnBoard(e)
    ensures KingRule(colour, s, e, b) <==>
            (s == e || (e.row - s.row, e.col - s.col) in KingSteps()) && CanLand(colour, e, b)
  {
  }

  /** A king on its own square cannot "move" onto it: that square holds its own colour. */
  lemma KingStandStillRejected(colour: Colour, s: Square, b: array2<Cell>)
    requires IsBoard(b) && OnBoard(s) && At(b, s) == Some(Piece(King, colour))
    ensures !KingRule(colour, s, s, b)
  {
  }
}
