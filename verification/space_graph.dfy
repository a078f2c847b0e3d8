/** The square graph of `newBoard.py`. Each `Space` of the 8x8 board is linked
    to its eight ray neighbours. A neighbour is found by shifting one character
    of the location inside the strings "abcdefgh " and "12345678 " and looking
    the result up in the board dictionary. Past either edge the shifted index
    lands on the trailing ' ' (Python's index -1 is the last character), which
    is no key of the board, so the lookup yields `None`. */
module SpaceGraph {
  import opened Wrappers

  /** A space by coordinates: file 0..7 is a..h, rank 0..7 is "1".."8". */
  datatype Space = Space(file: int, rank: int)

  /** The eight direction attributes set by `link_spaces`. */
  datatype Direction = North | South | East | West | NorthEast | NorthWest | SouthEast | SouthWest

  /** `_to_90s` and `_to_45s` raise on a direction name they do not know. */
  datatype GraphError = InvalidDirection

  /** The eight neighbour attributes of one space; `None` at the board edge. */
  datatype Links = Links(
    north: Option<Space>, south: Option<Space>, east: Option<Space>, west: Option<Space>,
    northEast: Option<Space>, northWest: Option<Space>, southEast: Option<Space>, southWest: Option<Space>)

  /** `Space.letters` and `Space.numbers`, each ending in the sentinel ' '. */
  const Letters: string := "abcdefgh "
  const Numbers: string := "12345678 "

  /** The keys of the board dictionary. */
  const BoardLetters: string := "abcdefgh"
  const BoardNumbers: string := "12345678"

  predicate OnBoard(s: Space) {
    0 <= s.file < 8 && 0 <= s.rank < 8
  }

  /** The attribute name the source uses for a direction. */
  function Name(d: Direction): string {
    match d
    case North => "north"
    case South => "south"
    case East => "east"
    case West => "west"
    case NorthEast => "north_east"
    case NorthWest => "north_west"
    case SouthEast => "south_east"
    case SouthWest => "south_west"
  }

  predicate IsOrthogonal(d: Direction) {
    d == North || d == South || d == East || d == West
  }

  /** The file and rank change of one step in a direction. */
  function DeltaFile(d: Direction): int {
    match d
    case East => 1
    case NorthEast => 1
    case SouthEast => 1
    case West => -1
    case NorthWest => -1
    case SouthWest => -1
    case _ => 0
  }

  function DeltaRank(d: Direction): int {
    match d
    case North => 1
    case NorthEast => 1
    case NorthWest => 1
    case South => -1
    case SouthEast => -1
    case SouthWest => -1
    case _ => 0
  }

  function Opposite(d: Direction): Direction {
    match d
    case North => South
    case South => North
    case East => West
    case West => East
    case NorthEast => SouthWest
    case SouthWest => NorthEast
    case NorthWest => SouthEast
    case SouthEast => NorthWest
  }

  /** The board geometry the links are meant to encode: one step in direction
      `d`, or nothing when that leaves the board. */
  function Neighbour(s: Space, d: Direction): Option<Space> {
    var t := Space(s.file + DeltaFile(d), s.rank + DeltaRank(d));
    if OnBoard(t) then Some(t) else None
  }

  /** Python's `str.find` on one character: the first index holding `c`, or -1. */
  function Find(s: string, c: char): (r: int)
    ensures -1 <= r < |s|
    ensures r >= 0 ==> s[r] == c && forall j :: 0 <= j < r ==> s[j] != c
    ensures r == -1 <==> c !in s
  {
    if |s| == 0 then -1
    else if s[0] == c then 0
    else
      var k := Find(s[1..], c);
      if k == -1 then -1 else k + 1
  }

  /** Python's indexing `s[i]`: a negative index counts from the end; `None`
      is the `IndexError` of an index beyond either end. */
  function PyIndex(s: string, i: int): Option<char> {
    if 0 <= i < |s| then Some(s[i])
    else if -|s| <= i < 0 then Some(s[|s| + i])
    else None
  }

  /** `board[letter][number]` on the board dictionary
      `{letter: {number: Space(letter + number)}}` whose keys are "abcdefgh"
      and "12345678"; `None` for the `KeyError` the source catches. */
  function Lookup(letter: char, number: char): Option<Space> {
    if letter in BoardLetters && number in BoardNumbers
    then Some(Space(Find(BoardLetters, letter), Find(BoardNumbers, number)))
    else None
  }

  /** Shifts `c` by `delta` inside `variable` and returns the character there. */
  function ShiftIn(variable: string, c: char, delta: int): Option<char> {
    PyIndex(variable, Find(variable, c) + delta)
  }

  /** The branch `_to_90s` takes on a direction name: the delta, and whether
      it shifts the number (rank) rather than the letter (file). Any other
      name raises. */
  function OrthogonalStep(direction: string): (r: Result<(int, bool), GraphError>)
    ensures r.Err? <==> direction !in {"north", "east", "west", "south"}
  {
    if direction == "north" then Ok((1, true))
    else if direction == "east" then Ok((1, false))
    else if direction == "west" then Ok((-1, false))
    else if direction == "south" then Ok((-1, true))
    else Err(InvalidDirection)
  }

  /** The branch `_to_45s` takes on a direction name: the letter and number
      deltas. Any other name raises. */
  function DiagonalStep(direction: string): (r: Result<(int, int), GraphError>)
    ensures r.Err? <==> direction !in {"north_east", "north_west", "south_east", "south_west"}
  {
    if direction == "north_east" then Ok((1, 1))
    else if direction == "north_west" then Ok((-1, 1))
    else if direction == "south_east" then Ok((1, -1))
    else if direction == "south_west" then Ok((-1, -1))
    else Err(InvalidDirection)
  }

  /** The lookup `_to_90s` ends with: one character of the location shifted. */
  function Shift90(s: Space, delta: int, vertical: bool): Option<Space>
    requires OnBoard(s)
  {
    var letter, number := Letters[s.file], Numbers[s.rank];
    if vertical then
      match ShiftIn(Numbers, number, delta)
      case None => None
      case Some(n) => Lookup(letter, n)
    else
      match ShiftIn(Letters, letter, delta)
      case None => None
      case Some(l) => Lookup(l, number)
  }

  /** The lookup `_to_45s` ends with: the number shifted first, then the letter. */
  function Shift45(s: Space, dx: int, dy: int): Option<Space>
    requires OnBoard(s)
  {
    var letter, number := Letters[s.file], Numbers[s.rank];
    match ShiftIn(Numbers, number, dy)
    case None => None
    case Some(n) =>
      match ShiftIn(Letters, letter, dx)
      case None => None
      case Some(l) => Lookup(l, n)
  }

  /** `Space._to_90s(board, direction)` for the space at `s`. */
  function To90s(s: Space, direction: string): (r: Result<Option<Space>, GraphError>)
    requires OnBoard(s)
    ensures r.Err? <==> direction !in {"north", "east", "west", "south"}
  {
    var (delta, vertical) :- OrthogonalStep(direction);
    Ok(Shift90(s, delta, vertical))
  }

  /** `Space._to_45s(board, direction)` for the space at `s`. */
  function To45s(s: Space, direction: string): (r: Result<Option<Space>, GraphError>)
    requires OnBoard(s)
    ensures r.Err? <==> direction !in {"north_east", "north_west", "south_east", "south_west"}
  {
    var (dx, dy) :- DiagonalStep(direction);
    Ok(Shift45(s, dx, dy))
  }

  /** On a string whose characters are pairwise distinct, `find` inverts
      indexing. */
  lemma FindInvertsIndex(s: string, i: int)
    requires forall j, k :: 0 <= j < k < |s| ==> s[j] != s[k]
    requires 0 <= i < |s|
    ensures Find(s, s[i]) == i
  {
  }

  /** The sentinel is no key of the board, and the other characters of the
      sentinel strings are exactly its keys. */
  lemma SentinelStrings()
    ensures Letters == BoardLetters + " " && Numbers == BoardNumbers + " "
    ensures ' ' !in BoardLetters && ' ' !in BoardNumbers
  {
  }

  /** Looking up a character pair taken from the sentinel strings: a board
      space for two board characters, `None` as soon as one is the sentinel. */
  lemma LookupMeaning(i: int, j: int)
    requires 0 <= i < |Letters| && 0 <= j < |Numbers|
    ensures Lookup(Letters[i], Numbers[j]) == if i < 8 && j < 8 then Some(Space(i, j)) else None
  {
    SentinelStrings();
    if i < 8 && j < 8 {
      assert Letters[i] == BoardLetters[i];
      assert Numbers[j] == BoardNumbers[j];
      FindInvertsIndex(BoardLetters, i);
      FindInvertsIndex(BoardNumbers, j);
    }
  }

  /** Shifting a board character by one inside a sentinel string lands on the
      character of the shifted index, the sentinel when that leaves 0..7. */
  lemma ShiftMeaning(variable: string, i: int, delta: int)
    requires variable == Letters || variable == Numbers
    requires 0 <= i < 8 && (delta == 1 || delta == -1)
    ensures ShiftIn(variable, variable[i], delta) == Some(variable[if 0 <= i + delta < 8 then i + delta else 8])
  {
    FindInvertsIndex(variable, i);
  }

  /** Shifting the number and looking it up gives the vertical step. */
  lemma ShiftNumberMeaning(s: Space, delta: int)
    requires OnBoard(s) && (delta == 1 || delta == -1)
    ensures Shift90(s, delta, true)
      == if OnBoard(Space(s.file, s.rank + delta)) then Some(Space(s.file, s.rank + delta)) else None
  {
    var r := s.rank + delta;
    var j := if 0 <= r < 8 then r else 8;
    ShiftMeaning(Numbers, s.rank, delta);
    assert Shift90(s, delta, true) == Lookup(Letters[s.file], Numbers[j]);
    LookupMeaning(s.file, j);
  }

  /** Shifting the letter and looking it up gives the horizontal step. */
  lemma ShiftLetterMeaning(s: Space, delta: int)
    requires OnBoard(s) && (delta == 1 || delta == -1)
    ensures Shift90(s, delta, false)
      == if OnBoard(Space(s.file + delta, s.rank)) then Some(Space(s.file + delta, s.rank)) else None
  {
    var f := s.file + delta;
    var i := if 0 <= f < 8 then f else 8;
    ShiftMeaning(Letters, s.file, delta);
    assert Shift90(s, delta, false) == Lookup(Letters[i], Numbers[s.rank]);
    LookupMeaning(i, s.rank);
  }

  /** Shifting both characters and looking them up gives the diagonal step:
      a space exactly when both shifted coordinates are on the board. */
  lemma Shift45Meaning(s: Space, dx: int, dy: int)
    requires OnBoard(s) && (dx == 1 || dx == -1) && (dy == 1 || dy == -1)
    ensures Shift45(s, dx, dy)
      == if OnBoard(Space(s.file + dx, s.rank + dy)) then Some(Space(s.file + dx, s.rank + dy)) else None
  {
    var f, r := s.file + dx, s.rank + dy;
    var i, j := if 0 <= f < 8 then f else 8, if 0 <= r < 8 then r else 8;
    ShiftMeaning(Numbers, s.rank, dy);
    ShiftMeaning(Letters, s.file, dx);
    assert Shift45(s, dx, dy) == Lookup(Letters[i], Numbers[j]);
    LookupMeaning(i, j);
  }

  /** The orthogonal names select the step of their direction. */
  lemma OrthogonalStepOf(d: Direction)
    requires IsOrthogonal(d)
    ensures OrthogonalStep(Name(d)) == Ok((DeltaFile(d) + DeltaRank(d), d == North || d == South))
  {
    match d
    case North =>
    case East =>
      assert Name(d)[0] != "north"[0];
    case West =>
      assert Name(d)[0] != "north"[0] && Name(d)[0] != "east"[0];
    case South =>
      assert Name(d)[0] != "north"[0] && |Name(d)| != |"east"|;
  }

  /** The diagonal names select the step of their direction. */
  lemma DiagonalStepOf(d: Direction)
    requires !IsOrthogonal(d)
    ensures DiagonalStep(Name(d)) == Ok((DeltaFile(d), DeltaRank(d)))
  {
    match d
    case NorthEast =>
    case NorthWest =>
      assert Name(d)[6] != "north_east"[6];
    case SouthEast =>
      assert Name(d)[0] != "north_east"[0] && Name(d)[0] != "north_west"[0];
    case SouthWest =>
      assert Name(d)[0] != "north_east"[0] && Name(d)[0] != "north_west"[0];
      assert Name(d)[6] != "south_east"[6];
  }

  /** `_to_90s` for one of its four names is the geometric neighbour: the
      shifted space when it is on the board, `None` past either edge. */
  lemma To90sMeaning(s: Space, d: Direction)
    requires OnBoard(s) && IsOrthogonal(d)
    ensures To90s(s, Name(d)) == Ok(Neighbour(s, d))
  {
    match d
    case North => NorthLink(s);
    case South => SouthLink(s);
    case East => EastLink(s);
    case West => WestLink(s);
  }

  /* One lemma per direction: each keeps the string comparisons and the
     index arithmetic of a single name in its own proof obligation, which
     stays small; the dispatching lemmas above only pick the right one. */

  lemma NorthLink(s: Space)
    requires OnBoard(s)
    ensures To90s(s, "north") == Ok(Neighbour(s, North))
  {
    OrthogonalStepOf(North);
    ShiftNumberMeaning(s, 1);
  }

  lemma SouthLink(s: Space)
    requires OnBoard(s)
    ensures To90s(s, "south") == Ok(Neighbour(s, South))
  {
    OrthogonalStepOf(South);
    ShiftNumberMeaning(s, -1);
  }

  lemma EastLink(s: Space)
    requires OnBoard(s)
    ensures To90s(s, "east") == Ok(Neighbour(s, East))
  {
    OrthogonalStepOf(East);
    ShiftLetterMeaning(s, 1);
  }

  lemma WestLink(s: Space)
    requires OnBoard(s)
    ensures To90s(s, "west") == Ok(Neighbour(s, West))
  {
    OrthogonalStepOf(West);
    ShiftLetterMeaning(s, -1);
  }


  /** `_to_45s` for one of its four names is the geometric neighbour: it
      exists exactly when both the shifted file and the shifted rank are on the
      board, and is then the space there. */
  lemma To45sMeaning(s: Space, d: Direction)
    requires OnBoard(s) && !IsOrthogonal(d)
    ensures To45s(s, Name(d)) == Ok(Neighbour(s, d))
    ensures Neighbour(s, d).Some? <==> 0 <= s.file + DeltaFile(d) < 8 && 0 <= s.rank + DeltaRank(d) < 8
  {
    match d
    case NorthEast => NorthEastLink(s);
    case NorthWest => NorthWestLink(s);
    case SouthEast => SouthEastLink(s);
    case SouthWest => SouthWestLink(s);
  }

  lemma NorthEastLink(s: Space)
    requires OnBoard(s)
    ensures To45s(s, "north_east") == Ok(Neighbour(s, NorthEast))
  {
    DiagonalStepOf(NorthEast);
    Shift45Meaning(s, 1, 1);
  }

  lemma NorthWestLink(s: Space)
    requires OnBoard(s)
    ensures To45s(s, "north_west") == Ok(Neighbour(s, NorthWest))
  {
    DiagonalStepOf(NorthWest);
    Shift45Meaning(s, -1, 1);
  }

  lemma SouthEastLink(s: Space)
    requires OnBoard(s)
    ensures To45s(s, "south_east") == Ok(Neighbour(s, SouthEast))
  {
    DiagonalStepOf(SouthEast);
    Shift45Meaning(s, 1, -1);
  }

  lemma SouthWestLink(s: Space)
    requires OnBoard(s)
    ensures To45s(s, "south_west") == Ok(Neighbour(s, SouthWest))
  {
    DiagonalStepOf(SouthWest);
    Shift45Meaning(s, -1, -1);
  }

  /** The attribute of `links` named by a direction. */
  function Link(links: Links, d: Direction): Option<Space> {
    match d
    case North => links.north
    case South => links.south
    case East => links.east
    case West => links.west
    case NorthEast => links.northEast
    case NorthWest => links.northWest
    case SouthEast => links.southEast
    case SouthWest => links.southWest
  }

  /** The attribute `link_spaces` sets for a direction: its first loop calls
      `_to_90s` for the four orthogonal names, its second `_to_45s` for the
      four diagonal ones. */
  function Attribute(s: Space, d: Direction): (r: Result<Option<Space>, GraphError>)
    requires OnBoard(s)
    ensures r == Ok(Neighbour(s, d))
  {
    if IsOrthogonal(d) then
      To90sMeaning(s, d);
      To90s(s, Name(d))
    else
      To45sMeaning(s, d);
      To45s(s, Name(d))
  }

  /** The links the geometry prescribes for a space. */
  function GeometricLinks(s: Space): Links {
    Links(Neighbour(s, North), Neighbour(s, South), Neighbour(s, East), Neighbour(s, West),
          Neighbour(s, NorthEast), Neighbour(s, NorthWest), Neighbour(s, SouthEast), Neighbour(s, SouthWest))
  }

  /** `Space.link_spaces(board)`: sets the eight direction attributes. It never
      raises, and every attribute is the geometric neighbour of the space. */
  function LinkSpaces(s: Space): (r: Links)
    requires OnBoard(s)
    ensures r == GeometricLinks(s)
    ensures forall d :: Link(r, d) == Neighbour(s, d)
  {
    var links := Links(
      Attribute(s, North).value, Attribute(s, South).value,
      Attribute(s, East).value, Attribute(s, West).value,
      Attribute(s, NorthEast).value, Attribute(s, NorthWest).value,
      Attribute(s, SouthEast).value, Attribute(s, SouthWest).value);
    assert links == GeometricLinks(s);
    GeometricLinksMeaning(s);
    links
  }

  lemma GeometricLinksMeaning(s: Space)
    ensures forall d :: Link(GeometricLinks(s), d) == Neighbour(s, d)
  {
    forall d
      ensures Link(GeometricLinks(s), d) == Neighbour(s, d)
    {
      match d
      case North =>
      case South =>
      case East =>
      case West =>
      case NorthEast =>
      case NorthWest =>
      case SouthEast =>
      case SouthWest =>
    }
  }

  /** A linked board: one entry per space, each holding that space's links. */
  ghost predicate Linked(g: map<Space, Links>) {
    && (forall s :: s in g <==> OnBoard(s))
    && (forall s, d :: s in g ==> Link(g[s], d) == Neighbour(s, d))
  }

  /** The module-level construction: every space of the 8x8 board gets its
      links. All 64 spaces carry all eight attributes, and these depend on the
      coordinates alone. */
  method LinkBoard() returns (g: map<Space, Links>)
    ensures forall s :: s in g <==> OnBoard(s)
    ensures forall s, d :: s in g ==> Link(g[s], d) == Neighbour(s, d)
  {
    g := map[];
    var letter := 0;
    while letter < 8
      invariant 0 <= letter <= 8
      invariant forall s :: s in g <==> OnBoard(s) && s.file < letter
      invariant forall s :: s in g ==> g[s] == GeometricLinks(s)
    {
      var number := 0;
      while number < 8
        invariant 0 <= number <= 8
        invariant forall s :: s in g <==> OnBoard(s) && (s.file < letter || (s.file == letter && s.rank < number))
        invariant forall s :: s in g ==> g[s] == GeometricLinks(s)
      {
        var here := Space(letter, number);
        ghost var before := g;
        g := g[here := LinkSpaces(here)];
        assert forall s :: s in g <==> s in before || s == here;
        number := number + 1;
      }
      letter := letter + 1;
    }
    forall s | s in g
      ensures forall d :: Link(g[s], d) == Neighbour(s, d)
    {
      GeometricLinksMeaning(s);
    }
  }

  /** `Space.get_path`: follows the `east` links until one is `None`. It
      returns, file by file, exactly the spaces east of `s` on its rank,
      excluding `s`, so `7 - file` of them. */
  method GetPath(g: map<Space, Links>, s: Space) returns (path: seq<Space>)
    requires Linked(g) && OnBoard(s)
    ensures |path| == 7 - s.file
    ensures forall i :: 0 <= i < |path| ==> path[i] == Space(s.file + 1 + i, s.rank)
  {
    path := [];
    var here := s;
    while g[here].east.Some?
      invariant OnBoard(here) && here.rank == s.rank
      invariant here.file == s.file + |path|
      invariant forall i :: 0 <= i < |path| ==> path[i] == Space(s.file + 1 + i, s.rank)
      decreases 8 - here.file
    {
      assert Link(g[here], East) == Neighbour(here, East);
      here := g[here].east.value;
      path := path + [here];
    }
    assert Link(g[here], East) == Neighbour(here, East);
  }

  /** Opposite directions undo each other: if `t` is the neighbour of `s` in
      direction `d`, then `s` is the neighbour of `t` in the opposite one. */
  lemma NeighbourInverse(s: Space, d: Direction)
    requires OnBoard(s) && Neighbour(s, d).Some?
    ensures Neighbour(Neighbour(s, d).value, Opposite(d)) == Some(s)
  {
  }

  /** The same, read off a linked board's attributes. */
  lemma LinksInverse(g: map<Space, Links>, s: Space, d: Direction)
    requires Linked(g) && s in g && Link(g[s], d).Some?
    ensures Link(g[s], d).value in g
    ensures Link(g[Link(g[s], d).value], Opposite(d)) == Some(s)
  {
    NeighbourInverse(s, d);
  }

  /** No space is its own neighbour in any direction. */
  lemma NoSelfLink(g: map<Space, Links>, s: Space, d: Direction)
    requires Linked(g) && s in g
    ensures Link(g[s], d) != Some(s)
  {
  }
}
