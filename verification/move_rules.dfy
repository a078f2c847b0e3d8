/** The move validator of `chess.py`: `checkValidMove` dispatches on the piece
    letter to one rule per piece kind, and `move` relocates the piece once the
    rule has not raised. The rules are those the code implements, which differ
    from the game of chess in several places (see each rule). */
module MoveRules {
  import opened Wrappers
  import opened ChessBoard
  import opened ClearPath

  /** The board after `move`, and whether `move` returned or raised. */
  datatype MoveResult = MoveResult(board: Board, outcome: Outcome<ChessError>)

  /** The source's capture guard
      `(square.islower() == p.islower()) or (square.isupper() == p.isupper())`;
      when it holds the move raises `InvalidMove`. */
  predicate SameCaseGuard(square: char, p: char) {
    (IsLower(square) == IsLower(p)) || (IsUpper(square) == IsUpper(p))
  }

  /** `c` is a piece of the side opposite to the letter `p`. */
  predicate OppositeSide(p: char, c: char) {
    (IsLower(p) && IsUpper(c)) || (IsUpper(p) && IsLower(c))
  }

  /** A sliding piece `p` may end on `c`: it is empty or holds an opposing piece. */
  predicate MayLandOn(p: char, c: char) {
    c == Empty || OppositeSide(p, c)
  }

  /** For a piece letter, the guard passes exactly on an opposing piece; in
      particular it rejects an empty square. */
  lemma SameCaseGuardMeaning(square: char, p: char)
    requires IsLower(p) || IsUpper(p)
    ensures !SameCaseGuard(square, p) <==> OppositeSide(p, square)
  {
  }

  /** `checkValidKingMove`. A file difference above one only reaches a bare
      `pass` (the unfinished castling branch), so it is not bounded; a rank
      difference above one raises; and the guard then raises on an empty target
      as well as on an own piece, so a king move succeeds only as a capture. */
  function CheckValidKingMove(b: Board, p: char, f: Square, t: Square): (r: Outcome<ChessError>)
    requires Full(b) && OnBoard(f) && OnBoard(t)
    requires p == 'k' || p == 'K'
    ensures r.Pass? <==> Abs(t.rank - f.rank) <= 1 && OppositeSide(p, b[t])
    ensures r.Fail? ==> r.error == InvalidMove
  {
    var dy := t.rank - f.rank;
    var dx := t.file - f.file;
    var square := b[t];
    if Abs(dy) > 1 then Fail(InvalidMove)
    else if SameCaseGuard(square, p) then Fail(InvalidMove)
    else Pass
  }

  /** The two file/rank differences of a knight's L. */
  predicate KnightLeap(f: Square, t: Square) {
    || (Abs(t.file - f.file) == 1 && Abs(t.rank - f.rank) == 2)
    || (Abs(t.file - f.file) == 2 && Abs(t.rank - f.rank) == 1)
  }

  /** `checkValidKnightMove`: an L-shaped leap onto an empty square returns;
      on an occupied target both remaining paths raise, so knights never
      capture. */
  function CheckValidKnightMove(b: Board, p: char, f: Square, t: Square): (r: Outcome<ChessError>)
    requires Full(b) && OnBoard(f) && OnBoard(t)
    requires p == 'n' || p == 'N'
    ensures r.Pass? <==> KnightLeap(f, t) && b[t] == Empty
    ensures r.Fail? ==> r.error == InvalidMove
  {
    var dy := Abs(t.rank - f.rank);
    var dx := Abs(t.file - f.file);
    var square := b[t];
    if (dx == 2 && dy == 1) || (dx == 1 && dy == 2) then
      if square == Empty then Pass
      else if SameCaseGuard(square, p) then Fail(InvalidMove)
      else Fail(InvalidMove)
    else Fail(InvalidMove)
  }

  /** The tail shared by the bishop and rook rules, given the path pair:
      a clear path to an empty target returns, a blocked path raises, and an
      occupied target returns only past the capture guard. */
  function SlideVerdict(path: (bool, bool), square: char, p: char): Outcome<ChessError> {
    if path.0 && path.1 then Pass
    else if !path.0 then Fail(InvalidMove)
    else if SameCaseGuard(square, p) then Fail(InvalidMove)
    else Pass
  }

  /** `checkValidBishopMove`: a diagonal move whose in-between squares are
      empty and whose target is empty or holds an opposing piece. */
  function CheckValidBishopMove(b: Board, p: char, f: Square, t: Square): (r: Outcome<ChessError>)
    requires Full(b) && OnBoard(f) && OnBoard(t)
    requires p == 'b' || p == 'B'
    ensures r.Pass? <==> IsDiagonal(f, t) && DiagonalClear(b, f, t) && MayLandOn(p, b[t])
    ensures r.Fail? ==> r.error == InvalidMove
  {
    match CheckClearPath(b, Diagonal, f, t)
    case Err(e) => Fail(e)
    case Ok(path) => SlideVerdict(path, b[t], p)
  }

  /** `checkValidRookMove`: a move along one rank or one file whose in-between
      squares are empty and whose target is empty or holds an opposing piece.
      A zero-length move is checked as vertical and fails on the rook itself. */
  function CheckValidRookMove(b: Board, p: char, f: Square, t: Square): (r: Outcome<ChessError>)
    requires Full(b) && OnBoard(f) && OnBoard(t)
    requires p == 'r' || p == 'R'
    ensures r.Pass? <==>
      && MayLandOn(p, b[t])
      && ((f.rank == t.rank && RankClear(b, f, t)) || (f.file == t.file && FileClear(b, f, t)))
    ensures r.Fail? ==> r.error == InvalidMove
  {
    var dy := t.rank - f.rank;
    var dx := t.file - f.file;
    if Abs(dx) > 0 && Abs(dy) > 0 then Fail(InvalidMove)
    else
      match CheckClearPath(b, if Abs(dx) > 0 then Horizontal else Vertical, f, t)
      case Err(e) => Fail(e)
      case Ok(path) => SlideVerdict(path, b[t], p)
  }

  /** How many ranks the move advances in the pawn's own direction: up the board
      for a lower-case pawn, down for an upper-case one (the source's `d * dy`). */
  function Advancement(p: char, f: Square, t: Square): int {
    if IsLower(p) then t.rank - f.rank else f.rank - t.rank
  }

  /** `checkValidPawnMove`, as written:
      - a double push needs the origin on rank "2" or "7" whatever the pawn's
        side, no file change, and both squares ahead empty;
      - a single push needs no file change and an empty target;
      - a diagonal step: the guard's first disjunct compares a bool with a
        string and is never true, so only `square.isupper() == p.islower()`
        counts: a lower-case pawn needs an upper-case target, an upper-case
        pawn any target that is not upper case, an empty one included.
      The "v" path is computed up front; it never raises, so this agrees with
      the source's short-circuit order. */
  function CheckValidPawnMove(b: Board, p: char, f: Square, t: Square): (r: Outcome<ChessError>)
    requires Full(b) && OnBoard(f) && OnBoard(t)
    requires p == 'p' || p == 'P'
    ensures r.Pass? <==>
      var dx := t.file - f.file;
      || (Advancement(p, f, t) == 2 && dx == 0 && (f.rank == 1 || f.rank == 6)
          && b[Square(f.file, (f.rank + t.rank) / 2)] == Empty && b[t] == Empty)
      || (Advancement(p, f, t) == 1 && dx == 0 && b[t] == Empty)
      || (Advancement(p, f, t) == 1 && Abs(dx) == 1 && (if p == 'p' then IsUpper(b[t]) else !IsUpper(b[t])))
    ensures r.Fail? ==> r.error == InvalidMove
  {
    var dy := Advancement(p, f, t);
    var dx := t.file - f.file;
    var square := b[t];
    match CheckClearPath(b, Vertical, f, t)
    case Err(e) => Fail(e)
    case Ok(path) =>
      if dy == 2 && (f.rank == 1 || f.rank == 6) && dx == 0 && path.0 && path.1 then Pass
      else if dy == 1 && dx == 0 && path.0 && path.1 then Pass
      else if dy == 1 && Abs(dx) == 1 && (IsUpper(square) == IsLower(p)) then Pass
      else Fail(InvalidMove)
  }

  /** `checkValidMove`: an empty square raises `InvalidPiece`; the five known
      piece letters go to their rule; every other letter, the queen included,
      passes unchecked. */
  function CheckValidMove(b: Board, p: char, f: Square, t: Square): (r: Outcome<ChessError>)
    requires Full(b) && OnBoard(f) && OnBoard(t)
    ensures p == Empty <==> r == Fail(InvalidPiece)
    ensures p != Empty && p !in "pPrRbBnNkK" ==> r == Pass
    ensures r.Fail? && p != Empty ==> r.error == InvalidMove
  {
    if p == Empty then Fail(InvalidPiece)
    else if p == 'p' || p == 'P' then CheckValidPawnMove(b, p, f, t)
    else if p == 'r' || p == 'R' then CheckValidRookMove(b, p, f, t)
    else if p == 'b' || p == 'B' then CheckValidBishopMove(b, p, f, t)
    else if p == 'n' || p == 'N' then CheckValidKnightMove(b, p, f, t)
    else if p == 'k' || p == 'K' then CheckValidKingMove(b, p, f, t)
    else Pass
  }

  /** `move`: validates the piece on the origin, then blanks the origin and
      writes the piece on the target. All or nothing: a raised check leaves the
      board as it was; otherwise the target holds the piece, the origin is
      blank (unless it is the target), and no other square changes. */
  function Move(b: Board, from: Square, to: Square): (r: MoveResult)
    requires Full(b) && OnBoard(from) && OnBoard(to)
    ensures Full(r.board)
    ensures r.outcome == CheckValidMove(b, b[from], from, to)
    ensures r.outcome.Fail? ==> r.board == b
    ensures r.outcome.Pass? ==> r.board[to] == b[from]
    ensures r.outcome.Pass? && from != to ==> r.board[from] == Empty
    ensures r.outcome.Pass? ==> forall s :: s in b && s != from && s != to ==> r.board[s] == b[s]
  {
    var piece := b[from];
    match CheckValidMove(b, piece, from, to)
    case Fail(e) => MoveResult(b, Fail(e))
    case Pass => MoveResult(b[from := Empty][to := piece], Pass)
  }

  /** Moving from an empty square raises `InvalidPiece` and changes nothing. */
  lemma MoveFromEmptySquare(b: Board, from: Square, to: Square)
    requires Full(b) && OnBoard(from) && OnBoard(to)
    requires b[from] == Empty
    ensures Move(b, from, to) == MoveResult(b, Fail(InvalidPiece))
  {
  }

  /** There is no queen rule: a queen move to any square of the board goes
      through, onto its own pieces and through blockers alike. */
  lemma QueenNeverRejected(b: Board, from: Square, to: Square)
    requires Full(b) && OnBoard(from) && OnBoard(to)
    requires b[from] == 'q' || b[from] == 'Q'
    ensures Move(b, from, to).outcome == Pass
    ensures Move(b, from, to).board[to] == b[from]
  {
  }

  /** A knight never captures: any occupied target is refused. */
  lemma KnightNeverCaptures(b: Board, from: Square, to: Square)
    requires Full(b) && OnBoard(from) && OnBoard(to)
    requires b[from] == 'n' || b[from] == 'N'
    requires b[to] != Empty
    ensures Move(b, from, to) == MoveResult(b, Fail(InvalidMove))
  {
  }

  /** A king cannot move onto an empty square nor more than one rank, but may
      capture any number of files away. */
  lemma KingOnlyCaptures(b: Board, from: Square, to: Square)
    requires Full(b) && OnBoard(from) && OnBoard(to)
    requires b[from] == 'k' || b[from] == 'K'
    ensures Move(b, from, to).outcome.Pass? ==> b[to] != Empty && Abs(to.rank - from.rank) <= 1
    ensures Abs(to.rank - from.rank) <= 1 && OppositeSide(b[from], b[to]) ==> Move(b, from, to).outcome.Pass?
  {
  }

  /** A rook or bishop never takes a piece of its own side. */
  lemma SliderSparesOwnSide(b: Board, from: Square, to: Square)
    requires Full(b) && OnBoard(from) && OnBoard(to)
    requires b[from] in "rRbB"
    requires b[to] != Empty && (IsLower(b[to]) == IsLower(b[from]))
    ensures Move(b, from, to) == MoveResult(b, Fail(InvalidMove))
  {
  }

  /** Every pawn move that goes through advances one or two ranks in the
      pawn's direction and changes file by at most one; a two-rank advance
      keeps its file and starts on rank "2" or "7". */
  lemma PawnMoveShape(b: Board, from: Square, to: Square)
    requires Full(b) && OnBoard(from) && OnBoard(to)
    requires b[from] == 'p' || b[from] == 'P'
    requires Move(b, from, to).outcome.Pass?
    ensures 1 <= Advancement(b[from], from, to) <= 2
    ensures Abs(to.file - from.file) <= 1
    ensures Advancement(b[from], from, to) == 2 ==> to.file == from.file && (from.rank == 1 || from.rank == 6)
  {
  }

  /** The diagonal step as written: a lower-case pawn only onto an upper-case
      piece, an upper-case pawn onto a lower-case piece or an empty square. */
  lemma PawnDiagonalStep(b: Board, from: Square, to: Square)
    requires Full(b) && OnBoard(from) && OnBoard(to)
    requires Abs(to.file - from.file) == 1
    requires b[to] == Empty || IsLower(b[to]) || IsUpper(b[to])
    ensures b[from] == 'p' && to.rank == from.rank + 1 ==>
      (Move(b, from, to).outcome.Pass? <==> IsUpper(b[to]))
    ensures b[from] == 'P' && to.rank == from.rank - 1 ==>
      (Move(b, from, to).outcome.Pass? <==> (IsLower(b[to]) || b[to] == Empty))
  {
  }

  /** The rank test of the double push does not look at the pawn's side, yet
      with an on-board target it only lets a pawn through from its own start
      rank: a lower-case pawn on rank "7" or an upper-case one on rank "2"
      would land off the board. */
  lemma DoublePushFromOwnStartRank(b: Board, from: Square, to: Square)
    requires Full(b) && OnBoard(from) && OnBoard(to)
    requires b[from] == 'p' || b[from] == 'P'
    requires Move(b, from, to).outcome.Pass? && Advancement(b[from], from, to) == 2
    ensures b[from] == 'p' ==> from.rank == 1
    ensures b[from] == 'P' ==> from.rank == 6
  {
  }
}
