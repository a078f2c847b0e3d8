# Chess move validator and square graph, in Dafny

This project models two self-contained pieces of a small Python chess program.

**The move validator (`chess.py`).** The board is a dictionary from rank
("1".."8") to file ("a".."h") to a one-character string. Lower-case letters
are the side that starts on ranks 1-2 and moves up the board. Upper-case
letters are the side that starts on ranks 7-8 and moves down. `' '` is an
empty square. `initializeBord` lays out the start position. `move` looks up
the piece on the origin and runs `checkValidMove`, which dispatches on the
letter to the pawn, rook, bishop, knight or king rule. If nothing raised, it
blanks the origin and writes the piece on the target. The sliding rules rely
on `checkClearPath`, which reports for a horizontal, vertical or diagonal move
whether the squares strictly between are empty and whether the target is
empty.

Here the board is an immutable `map<Square, char>` over integer coordinates
(`file` 0..7 for a..h, `rank` 0..7 for "1".."8"). The two exceptions
`InvalidPiece` and `InvalidMove` become an `Outcome`. `move` returns the new
board together with that outcome, so "a rejected move leaves the board
unchanged" is a checked statement.

The model follows the code as written, including where it departs from the
game of chess:
- there is no queen rule, so a queen move is never rejected;
- a knight can never capture;
- a king move needs an opposing piece on the target, and its file distance is unbounded;
- the pawn's diagonal guard has a disjunct that compares a bool with a string and is never true. So a lower-case pawn steps diagonally only onto an upper-case piece, and an upper-case pawn steps diagonally onto anything that is not upper case, an empty square included;
- a double push is allowed from rank "2" or "7" for either side.

**The square graph (`newBoard.py`).** Each `Space` gets eight attributes
naming its ray neighbours, or `None` at the edge. `_to_90s` and `_to_45s`
shift a character of the location inside `"abcdefgh "` or `"12345678 "`.
Past either edge the index lands on the trailing sentinel `' '`: index -1 is
the last character in Python, and 8 is the sentinel itself. The sentinel is
not a key of the board dictionary, so the lookup yields `None`. The model keeps
that mechanism (`Find`, `PyIndex`, `Lookup`) and proves it equal to a plain
coordinate function `Neighbour`. The graph is a map from `Space` to `Links`
built by the construction loop. `get_path` walks it eastwards.

Files: `wrappers.dfy` (Option/Result/Outcome), `board.dfy` (board and start
position), `clear_path.dfy` (`checkClearPath`), `move_rules.dfy` (the piece
rules and `move`), `space_graph.dfy` (`newBoard.py`).

## Model

| member | source | states |
|---|---|---|
| ChessBoard.InitializeBoard | chess.py:29-42 | the board has all 64 squares; rank 1 is "rnbqkbnr", rank 2 all `p`, rank 7 all `P`, rank 8 "RNBQKBNR", ranks 3-6 empty; and each square's mirror across the middle holds the same piece with its case swapped |
| ClearPath.CheckClearPath | chess.py:208-266 | "h" returns (every square of the origin's rank strictly between the two files is empty, target empty) and "v" the same along the origin's file, and neither raises; "d" raises `InvalidMove` exactly when the file difference is zero or differs in size from the rank difference, and otherwise returns (every diagonal square strictly between is empty, target empty) |
| ClearPath.RankFlagsMeaning | chess.py:211-222 | the flags of the "h" loop over `LETTERS[a:b:d]`, minus the origin's, are all true exactly when every square strictly between on the origin's rank is empty |
| ClearPath.FileFlagsMeaning | chess.py:224-235 | the flags of the "v" loop over `xrange(a, b, d)`, minus the origin's, are all true exactly when every square strictly between on the origin's file is empty |
| ClearPath.DiagonalFlagsMeaning | chess.py:255-266 | the "d" walk's flags but the last are all true exactly when every diagonal square strictly between is empty, and its last flag is whether the target is empty |
| MoveRules.SameCaseGuardMeaning | chess.py:147-148 | for a piece letter, the capture guard lets a move through exactly when the target holds a letter of the other case, so an empty target fails it |
| MoveRules.CheckValidKingMove | chess.py:91-108 | accepted exactly when the rank distance is at most 1 and the target holds an opposing piece, with no bound on the file distance; every rejection is `InvalidMove` |
| MoveRules.CheckValidKnightMove | chess.py:111-126 | accepted exactly when the move is a (1,2) or (2,1) leap and the target is empty; every rejection is `InvalidMove` |
| MoveRules.CheckValidBishopMove | chess.py:128-151 | accepted exactly when origin and target are distinct squares of one diagonal, every square between is empty, and the target is empty or holds an opposing piece |
| MoveRules.CheckValidRookMove | chess.py:154-182 | accepted exactly when the target is empty or opposing and the move stays on one rank with that rank clear between, or on one file with that file clear between |
| MoveRules.CheckValidPawnMove | chess.py:184-206 | accepted exactly for: a two-rank advance on the same file from rank "2" or "7" with the passed and target squares empty; a one-rank advance on the same file onto an empty square; or a one-rank advance one file aside where a lower-case pawn needs an upper-case target and an upper-case pawn any target that is not upper case |
| MoveRules.CheckValidMove | chess.py:69-89 | an empty square, and only that, raises `InvalidPiece`; `q`/`Q` and every other letter without a rule always pass; every other rejection is `InvalidMove` |
| MoveRules.Move | chess.py:57-66 | all or nothing: a rejected move returns the board unchanged; an accepted one puts the moved piece on the target, blanks the origin when it differs from the target, and leaves every other square as it was; the verdict is the validator's for the origin's piece |
| MoveRules.MoveFromEmptySquare | chess.py:57-74 | moving from an empty square raises `InvalidPiece` and leaves the board unchanged |
| MoveRules.QueenNeverRejected | chess.py:76-89 | a queen move between any two squares is accepted and puts the queen on the target |
| MoveRules.KnightNeverCaptures | chess.py:121-126 | a knight move onto an occupied square is always refused and changes nothing |
| MoveRules.KingOnlyCaptures | chess.py:101-108 | an accepted king move never ends on an empty square or more than one rank away; any capture within one rank is accepted |
| MoveRules.SliderSparesOwnSide | chess.py:128-182 | a rook or bishop move onto a piece of its own case is refused and changes nothing |
| MoveRules.PawnMoveShape | chess.py:192-206 | an accepted pawn move advances 1 or 2 ranks in the pawn's direction with a file change of at most 1, and a 2-rank advance keeps its file and starts on rank "2" or "7" |
| MoveRules.DoublePushFromOwnStartRank | chess.py:197-198 | although the rank test accepts "2" or "7" for either side, an accepted on-board double push of a lower-case pawn starts on rank "2" and of an upper-case pawn on rank "7" |
| MoveRules.PawnDiagonalStep | chess.py:203-204 | a lower-case pawn's diagonal step is accepted exactly onto an upper-case piece; an upper-case pawn's exactly onto a lower-case piece or an empty square |
| SpaceGraph.Find | newBoard.py:48-50 | `str.find`: -1 exactly when the character is absent, otherwise the first index holding it |
| SpaceGraph.LookupMeaning | newBoard.py:54-57 | looking up a letter/number pair taken from the sentinel strings yields the space at those indices, or `None` as soon as either is the sentinel |
| SpaceGraph.ShiftMeaning | newBoard.py:46-52 | shifting a board character by ±1 inside `letters`/`numbers` never raises and lands on the shifted character, or on the sentinel when the shift leaves a..h / 1..8 at either end |
| SpaceGraph.OrthogonalStep | newBoard.py:35-44 | raises exactly for a name other than north, east, west and south |
| SpaceGraph.DiagonalStep | newBoard.py:62-71 | raises exactly for a name other than the four diagonal ones |
| SpaceGraph.To90s | newBoard.py:32-57 | raises exactly for a name other than the four orthogonal ones |
| SpaceGraph.To45s | newBoard.py:59-86 | raises exactly for a name other than the four diagonal ones |
| SpaceGraph.To90sMeaning | newBoard.py:32-57 | for north, south, east or west the result is the space one step that way when it is on the board, and `None` at the edge |
| SpaceGraph.To45sMeaning | newBoard.py:59-86 | for a diagonal name the result is a space exactly when both the shifted file and the shifted rank are on the board, and is then that space |
| SpaceGraph.Attribute | newBoard.py:25-30 | the attribute `link_spaces` sets for a direction never raises and is that direction's geometric neighbour |
| SpaceGraph.LinkSpaces | newBoard.py:25-30 | all eight attributes of a space are its geometric neighbours |
| SpaceGraph.LinkBoard | newBoard.py:88-92 | after the construction loop exactly the 64 spaces are linked, and each link is the neighbour given by the coordinates alone |
| SpaceGraph.GetPath | newBoard.py:14-23 | the walk terminates and returns, in increasing file order, exactly the spaces east of the origin on its rank without the origin: 7 minus its file index of them |
| SpaceGraph.NeighbourInverse | newBoard.py:35-42 | opposite directions undo each other: if t is s's neighbour in one direction, s is t's neighbour in the opposite one |
| SpaceGraph.LinksInverse | newBoard.py:62-69 | on a linked board, following a link and then the opposite link returns to the start (north/south, east/west, north_east/south_west, north_west/south_east) |
| SpaceGraph.NoSelfLink | newBoard.py:35-42 | no space is its own neighbour in any direction |

## Left out

- `drawBoard`, the `__main__` block, the `DEBUG` flag and the `ipdb` hook (chess.py:5-7, 44-54, 71-72, 268-270): printing and debugging only.
- The castling and previous-move fields set in `__init__` (chess.py:17-27): nothing reads them, and the castling branch at chess.py:101-103 is a bare `pass`. Castling, en passant, king safety, turn alternation and move counters are not implemented by chess.py. The model follows the code, so a double push is tied to the origin rank, not to a move counter.
- Parsing of square names such as "a2", `str.lower` on the inputs, `LETTERS.find` and the `KeyError` of an off-board rank: squares are integer pairs, and every validator requires an on-board origin and target. The source's `move` is all or nothing only on the board: with no queen rule, a queen move to an off-board target such as "d9" passes, `move` blanks the origin at chess.py:63 and then raises `KeyError` at chess.py:66, losing the queen, while a target such as "z5" adds a new file key to rank 5.
- The floating-point ratio test `abs(dy/float(dx)) != 1` and its `ZeroDivisionError` (chess.py:249-253): stated as the integer condition that the file difference is non-zero and equal in size to the rank difference.
- `str.islower` / `str.isupper` are modelled on ASCII letters only. A board only ever holds the twelve piece letters and `' '`.
- In the pawn rule the "v" path check is computed before the short-circuit `and` that guards it in the source. It never raises and is only consulted when the file does not change, so the verdict is the same.
- `Space` object identity, `__repr__` and the mutable attribute graph: a space is its coordinates and the graph is a map from spaces to their eight links.
- SpaceGraph.To90s and SpaceGraph.To45s require an on-board space. The source only ever calls them on the 64 spaces of the board.
- The unit-test files exercise `Board`/`Pawn` classes and a return protocol that the modelled code does not define, so they play no part here.
