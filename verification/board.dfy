/** The board of `chess.py`: a dictionary rank -> file -> one-character string,
    flattened here into one map from integer coordinates to the character.
    Lower-case letters are the side that starts on ranks 1-2 and moves up the
    board, upper-case letters the side that starts on ranks 7-8 and moves down,
    and ' ' is an empty square. */
module ChessBoard {

  /** A square by coordinates: `file` 0..7 is a..h and `rank` 0..7 is "1".."8"
      (the source's `int(n)` is `rank + 1`). */
  datatype Square = Square(file: int, rank: int)

  /** The two exceptions the move validator raises. */
  datatype ChessError = InvalidPiece | InvalidMove

  type Board = map<Square, char>

  const Empty: char := ' '

  /** The back ranks as the start position lays them out, file a first. */
  const LowerBackRank: string := "rnbqkbnr"
  const UpperBackRank: string := "RNBQKBNR"

  predicate OnBoard(s: Square) {
    0 <= s.file < 8 && 0 <= s.rank < 8
  }

  /** Every one of the 64 squares holds a character, and nothing else is a key. */
  ghost predicate Full(b: Board) {
    forall s :: s in b <==> OnBoard(s)
  }

  /** Python's `str.islower` / `str.isupper` on a one-character string, for the
      characters a board can hold. */
  predicate IsLower(c: char) {
    'a' <= c <= 'z'
  }

  predicate IsUpper(c: char) {
    'A' <= c <= 'Z'
  }

  /** The same file seen from the other side of the board. */
  function Mirror(s: Square): Square {
    Square(s.file, 7 - s.rank)
  }

  function SwapCase(c: char): char {
    if IsLower(c) then c - 'a' as char + 'A'
    else if IsUpper(c) then c - 'A' as char + 'a'
    else c
  }

  /** What the start position puts on a square: the branch taken for rank `n`
      inside the set-up loop, or the blank the board was first filled with. */
  function StartPiece(file: int, rank: int): char
    requires 0 <= file < 8
  {
    if rank == 0 then LowerBackRank[file]
    else if rank == 1 then 'p'
    else if rank == 6 then 'P'
    else if rank == 7 then UpperBackRank[file]
    else Empty
  }

  /** `initializeBord`: fills every square rank by rank and file by file.
      The result is the start position, and the two sides' set-ups are mirror
      images of each other with the letter case swapped. */
  method InitializeBoard() returns (b: Board)
    ensures Full(b)
    ensures forall f :: 0 <= f < 8 ==> b[Square(f, 0)] == LowerBackRank[f]
    ensures forall f :: 0 <= f < 8 ==> b[Square(f, 1)] == 'p'
    ensures forall f :: 0 <= f < 8 ==> b[Square(f, 6)] == 'P'
    ensures forall f :: 0 <= f < 8 ==> b[Square(f, 7)] == UpperBackRank[f]
    ensures forall s :: s in b && 2 <= s.rank < 6 ==> b[s] == Empty
    ensures forall s :: s in b ==> Mirror(s) in b && b[Mirror(s)] == SwapCase(b[s])
  {
    b := map[];
    var n := 0;
    while n < 8
      invariant 0 <= n <= 8
      invariant forall s :: s in b <==> OnBoard(s) && s.rank < n
      invariant forall s :: s in b ==> b[s] == StartPiece(s.file, s.rank)
    {
      var l := 0;
      while l < 8
        invariant 0 <= l <= 8
        invariant forall s :: s in b <==> OnBoard(s) && (s.rank < n || (s.rank == n && s.file < l))
        invariant forall s :: s in b ==> b[s] == StartPiece(s.file, s.rank)
      {
        b := b[Square(l, n) := StartPiece(l, n)];
        l := l + 1;
      }
      n := n + 1;
    }
    forall s | s in b
      ensures Mirror(s) in b && b[Mirror(s)] == SwapCase(b[s])
    {
      StartMirrored(s.file, s.rank);
    }
  }

  /** The start layout read from the far side: rank `7 - r` holds the
      case-swapped piece of rank `r`. */
  lemma StartMirrored(file: int, rank: int)
    requires 0 <= file < 8 && 0 <= rank < 8
    ensures StartPiece(file, 7 - rank) == SwapCase(StartPiece(file, rank))
  {
  }
}
