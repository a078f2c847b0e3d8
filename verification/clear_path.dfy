/** `Chess.checkClearPath`: for a horizontal ("h"), vertical ("v") or diagonal
    ("d") move it reports whether the squares strictly between origin and
    target are empty, and whether the target itself is empty. */
module ClearPath {
  import opened Wrappers
  import opened ChessBoard

  /** The mode string the source passes: "h", "v" or "d". */
  datatype PathKind = Horizontal | Vertical | Diagonal

  function Abs(n: int): nat {
    if n < 0 then -n else n
  }

  /** The source's step choice `if (b - a) > 0: d = 1 else: d = -1`. */
  function Step(delta: int): int {
    if delta > 0 then 1 else -1
  }

  /** `x` lies strictly between `a` and `c`, whichever of them is larger. */
  predicate Between(a: int, x: int, c: int) {
    (a < x < c) || (c < x < a)
  }

  /** Python's `xrange(a, c, d)` for a step of +1 or -1; also the indices of the
      slice `LETTERS[a:c:d]` when both ends lie in 0..7. */
  function Range(a: int, c: int, d: int): seq<int>
    requires d == 1 || d == -1
  {
    if d == 1 then seq(if c > a then c - a else 0, i => a + i)
    else seq(if a > c then a - c else 0, i => a - i)
  }

  /** `a` moved `k` steps in direction `d`, the position the diagonal walk
      reaches after `k` rounds of `a += xd`. */
  function Advance(a: int, d: int, k: int): int {
    if d > 0 then a + k else a - k
  }

  /** Python's `all(xs[1:])`: every entry after the first is true. */
  predicate AllAfterFirst(xs: seq<bool>) {
    forall i :: 1 <= i < |xs| ==> xs[i]
  }

  /** Python's `all(xs[:-1])`: every entry but the last is true. */
  predicate AllButLast(xs: seq<bool>) {
    forall i :: 0 <= i < |xs| - 1 ==> xs[i]
  }

  /** Every square of the origin's rank whose file lies strictly between the
      two files is empty. */
  ghost predicate RankClear(b: Board, f: Square, t: Square) {
    forall s :: s in b && s.rank == f.rank && Between(f.file, s.file, t.file) ==> b[s] == Empty
  }

  /** Every square of the origin's file whose rank lies strictly between the
      two ranks is empty. */
  ghost predicate FileClear(b: Board, f: Square, t: Square) {
    forall s :: s in b && s.file == f.file && Between(f.rank, s.rank, t.rank) ==> b[s] == Empty
  }

  /** Origin and target lie on one diagonal and differ. */
  predicate IsDiagonal(f: Square, t: Square) {
    t.file != f.file && Abs(t.file - f.file) == Abs(t.rank - f.rank)
  }

  /** `s` lies on the diagonal through `f`, strictly between `f` and `t`. */
  predicate DiagonallyBetween(f: Square, s: Square, t: Square) {
    && Between(f.file, s.file, t.file)
    && Between(f.rank, s.rank, t.rank)
    && Abs(s.file - f.file) == Abs(s.rank - f.rank)
  }

  /** Every square on the diagonal strictly between origin and target is empty. */
  ghost predicate DiagonalClear(b: Board, f: Square, t: Square) {
    forall s :: s in b && DiagonallyBetween(f, s, t) ==> b[s] == Empty
  }

  /** The emptiness flags of the "h" loop: one per file of `LETTERS[a:b:d]`,
      read on the origin's rank, the origin included. */
  function RankFlags(b: Board, f: Square, t: Square): seq<bool>
    requires Full(b) && OnBoard(f) && OnBoard(t)
  {
    var files := Range(f.file, t.file, Step(t.file - f.file));
    seq(|files|, i requires 0 <= i < |files| => b[Square(files[i], f.rank)] == Empty)
  }

  /** The emptiness flags of the "v" loop: one per rank of `xrange(a, b, d)`,
      read on the origin's file, the origin included. */
  function FileFlags(b: Board, f: Square, t: Square): seq<bool>
    requires Full(b) && OnBoard(f) && OnBoard(t)
  {
    var ranks := Range(f.rank, t.rank, Step(t.rank - f.rank));
    seq(|ranks|, i requires 0 <= i < |ranks| => b[Square(f.file, ranks[i])] == Empty)
  }

  /** The square the "d" loop visits in its `k`-th round. */
  function Walk(f: Square, t: Square, k: int): Square {
    Square(Advance(f.file, Step(t.file - f.file), k), Advance(f.rank, Step(t.rank - f.rank), k))
  }

  /** The emptiness flags of the "d" loop: one per square after the origin,
      the target last. */
  function DiagonalFlags(b: Board, f: Square, t: Square): seq<bool>
    requires Full(b) && OnBoard(f) && OnBoard(t) && IsDiagonal(f, t)
  {
    seq(Abs(t.file - f.file), i requires 0 <= i < Abs(t.file - f.file) =>
      WalkOnBoard(f, t, i + 1);
      b[Walk(f, t, i + 1)] == Empty)
  }

  /** The diagonal walk stays on the board and ends on the target. */
  lemma WalkOnBoard(f: Square, t: Square, k: int)
    requires OnBoard(f) && OnBoard(t) && IsDiagonal(f, t)
    requires 0 < k <= Abs(t.file - f.file)
    ensures OnBoard(Walk(f, t, k))
    ensures k < Abs(t.file - f.file) ==> DiagonallyBetween(f, Walk(f, t, k), t)
    ensures k == Abs(t.file - f.file) ==> Walk(f, t, k) == t
  {
  }

  /** Every square diagonally between is visited by the walk, in round
      `|s.file - f.file|`. */
  lemma BetweenOnWalk(f: Square, s: Square, t: Square)
    requires IsDiagonal(f, t) && DiagonallyBetween(f, s, t)
    ensures 0 < Abs(s.file - f.file) < Abs(t.file - f.file)
    ensures Walk(f, t, Abs(s.file - f.file)) == s
  {
  }

  /** `checkClearPath(path, f, t)`. The pair is (all squares strictly between
      are empty, the target is empty). "h" reads the origin's rank and "v" the
      origin's file whatever the target, and neither raises; "d" raises
      `InvalidMove` exactly when the move is not diagonal, which covers the
      `ZeroDivisionError` of a zero file difference. */
  function CheckClearPath(b: Board, kind: PathKind, f: Square, t: Square): (r: Result<(bool, bool), ChessError>)
    requires Full(b) && OnBoard(f) && OnBoard(t)
    ensures kind == Horizontal ==> r == Ok((RankClear(b, f, t), b[t] == Empty))
    ensures kind == Vertical ==> r == Ok((FileClear(b, f, t), b[t] == Empty))
    ensures kind == Diagonal ==> (r.Ok? <==> IsDiagonal(f, t))
    ensures kind == Diagonal && r.Ok? ==> r.value == (DiagonalClear(b, f, t), b[t] == Empty)
    ensures r.Err? ==> r.error == InvalidMove
  {
    match kind
    case Horizontal =>
      RankFlagsMeaning(b, f, t);
      Ok((AllAfterFirst(RankFlags(b, f, t)), b[t] == Empty))
    case Vertical =>
      FileFlagsMeaning(b, f, t);
      Ok((AllAfterFirst(FileFlags(b, f, t)), b[t] == Empty))
    case Diagonal =>
      var dx, dy := t.file - f.file, t.rank - f.rank;
      if dx == 0 || Abs(dy) != Abs(dx) then Err(InvalidMove)
      else
        var empty := DiagonalFlags(b, f, t);
        DiagonalFlagsMeaning(b, f, t);
        Ok((AllButLast(empty), empty[|empty| - 1]))
  }

  /** The "h" loop's flags after the first are exactly the squares strictly
      between on the origin's rank. */
  lemma RankFlagsMeaning(b: Board, f: Square, t: Square)
    requires Full(b) && OnBoard(f) && OnBoard(t)
    ensures AllAfterFirst(RankFlags(b, f, t)) <==> RankClear(b, f, t)
  {
    var d := Step(t.file - f.file);
    var files := Range(f.file, t.file, d);
    var flags := RankFlags(b, f, t);
    if AllAfterFirst(flags) {
      forall s | s in b && s.rank == f.rank && Between(f.file, s.file, t.file)
        ensures b[s] == Empty
      {
        var i := Abs(s.file - f.file);
        assert files[i] == s.file;
        assert flags[i];
      }
    }
    if RankClear(b, f, t) {
      forall i | 1 <= i < |flags|
        ensures flags[i]
      {
        var s := Square(files[i], f.rank);
        assert Between(f.file, s.file, t.file);
      }
    }
  }

  /** The "v" loop's flags after the first are exactly the squares strictly
      between on the origin's file. */
  lemma FileFlagsMeaning(b: Board, f: Square, t: Square)
    requires Full(b) && OnBoard(f) && OnBoard(t)
    ensures AllAfterFirst(FileFlags(b, f, t)) <==> FileClear(b, f, t)
  {
    var d := Step(t.rank - f.rank);
    var ranks := Range(f.rank, t.rank, d);
    var flags := FileFlags(b, f, t);
    if AllAfterFirst(flags) {
      forall s | s in b && s.file == f.file && Between(f.rank, s.rank, t.rank)
        ensures b[s] == Empty
      {
        var i := Abs(s.rank - f.rank);
        assert ranks[i] == s.rank;
        assert flags[i];
      }
    }
    if FileClear(b, f, t) {
      forall i | 1 <= i < |flags|
        ensures flags[i]
      {
        var s := Square(f.file, ranks[i]);
        assert Between(f.rank, s.rank, t.rank);
      }
    }
  }

  /** The "d" loop's flags but the last are exactly the diagonal squares
      strictly between, and its last flag is the target. */
  lemma DiagonalFlagsMeaning(b: Board, f: Square, t: Square)
    requires Full(b) && OnBoard(f) && OnBoard(t) && IsDiagonal(f, t)
    ensures AllButLast(DiagonalFlags(b, f, t)) <==> DiagonalClear(b, f, t)
    ensures |DiagonalFlags(b, f, t)| > 0
    ensures DiagonalFlags(b, f, t)[|DiagonalFlags(b, f, t)| - 1] == (b[t] == Empty)
  {
    var n := Abs(t.file - f.file);
    var flags := DiagonalFlags(b, f, t);
    WalkOnBoard(f, t, n);
    if AllButLast(flags) {
      forall s | s in b && DiagonallyBetween(f, s, t)
        ensures b[s] == Empty
      {
        BetweenOnWalk(f, s, t);
        assert flags[Abs(s.file - f.file) - 1];
      }
    }
    if DiagonalClear(b, f, t) {
      forall i | 0 <= i < n - 1
        ensures flags[i]
      {
        WalkOnBoard(f, t, i + 1);
      }
    }
  }
}
