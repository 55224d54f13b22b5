/**
 * The two text formats of a position: the 64-character row-major state
 * string (written with one letter per piece, read back as digits naming only
 * the owner) and the piece-placement field of Forsyth-Edwards Notation, as
 * defined in section 16.1.3.1 of the Portable Game Notation Specification and
 * Implementation Guide.
 */
module Codec {
  import opened Pieces
  import opened Board

  // ---------------------------------------------------------------------------
  // State string: one character per square

  /** Letters indexed by tag: player 0 (tag below 128) in lower case, player 1 (tag minus 128) in upper case. */
  const WhitePieces: string := "0pnbrqk"
  const BlackPieces: string := "0PNBRQK"

  /** The character written for a square: '0' when empty, otherwise the letter its tag selects. */
  function PieceNotation(cell: Option<Piece>): (c: char)
    ensures c == '0' <==> cell.None?
    ensures cell.Some? ==> ('a' <= c <= 'z' <==> cell.value.owner == White)
  {
    if cell.None? then '0'
    else
      var tag := Tag(cell.value);
      TagRoundTrip(cell.value);
      if tag < 128 then WhitePieces[tag] else BlackPieces[tag - 128]
  }

  /** Reads one state-string character back: None for a character no square is written as. */
  function CellOfNotation(c: char): Option<Option<Piece>>
  {
    if c == '0' then Some(None)
    else if c == 'p' then Some(Some(Piece(Pawn, White)))
    else if c == 'n' then Some(Some(Piece(Knight, White)))
    else if c == 'b' then Some(Some(Piece(Bishop, White)))
    else if c == 'r' then Some(Some(Piece(Rook, White)))
    else if c == 'q' then Some(Some(Piece(Queen, White)))
    else if c == 'k' then Some(Some(Piece(King, White)))
    else if c == 'P' then Some(Some(Piece(Pawn, Black)))
    else if c == 'N' then Some(Some(Piece(Knight, Black)))
    else if c == 'B' then Some(Some(Piece(Bishop, Black)))
    else if c == 'R' then Some(Some(Piece(Rook, Black)))
    else if c == 'Q' then Some(Some(Piece(Queen, Black)))
    else if c == 'K' then Some(Some(Piece(King, Black)))
    else None
  }

  /** Every square's notation identifies the square's content. */
  lemma NotationRoundTrip(cell: Option<Piece>)
    ensures CellOfNotation(PieceNotation(cell)) == Some(cell)
  {
    if cell.Some? {
      TagRoundTrip(cell.value);
      match cell.value.kind
      case Pawn =>
      case Knight =>
      case Bishop =>
      case Rook =>
      case Queen =>
      case King =>
    }
  }

  /** The state string: the notation of every square, row 0 first and column 0 first within a row. */
  function StateString(b: Board): (s: string)
    ensures |s| == 64
    ensures forall x: Coord, y: Coord :: s[y * 8 + x] == PieceNotation(At(b, x, y))
  {
    seq(64, i requires 0 <= i < 64 => PieceNotation(b[i]))
  }

  /** Reads a full state string back into a board; None when some character is not a square's notation. */
  function ParseStateString(s: string): Option<Board>
  {
    if |s| == 64 && forall i :: 0 <= i < 64 ==> CellOfNotation(s[i]).Some?
    then Some(seq(64, i requires 0 <= i < 64 => CellOfNotation(s[i]).value))
    else None
  }

  /** The state string loses nothing: reading it back gives the board it was written from. */
  lemma StateStringRoundTrip(b: Board)
    ensures ParseStateString(StateString(b)) == Some(b)
  {
    var s := StateString(b);
    forall i | 0 <= i < 64
      ensures CellOfNotation(s[i]) == Some(b[i])
    {
      assert s[i] == PieceNotation(b[i]) by {
        assert At(b, i % 8, i / 8) == b[i];
      }
      NotationRoundTrip(b[i]);
    }
    assert ParseStateString(s).value == b;
  }

  // ---------------------------------------------------------------------------
  // Reading a state string: one digit per square naming its owner

  /** `char n = c - '0'`: the difference narrowed to a signed 8-bit char. */
  function CharMinusZero(c: char): (n: int)
    ensures -128 <= n < 128
    ensures '0' <= c <= '9' ==> n == c as int - '0' as int
  {
    var v := (c as int - '0' as int) % 256;
    if v < 128 then v else v - 256
  }

  /**
   * A square read from a state-string character: empty when the digit value is
   * 0, otherwise a pawn created for player `n - 1`, whose tag is that of
   * player 0 only when `n` is 1.
   */
  function CellOfDigit(c: char): Option<Piece>
  {
    var n := CharMinusZero(c);
    if n == 0 then None
    else Some(Piece(Pawn, if n - 1 == 0 then White else Black))
  }

  /** `s[i]` on a C++ string: the character at i, or the terminating NUL at i == |s|. */
  function CharAt(s: string, i: nat): (c: char)
    requires i <= |s|
    ensures i < |s| ==> c == s[i]
    ensures i == |s| ==> c == 0 as char
  {
    if i < |s| then s[i] else 0 as char
  }

  /**
   * The board a state string is read into, square by square in row-major
   * order. A 63-character string reads its terminating NUL for the last square.
   */
  function BoardOfDigits(s: string): (b: Board)
    requires |s| >= 63
  {
    seq(64, i requires 0 <= i < 64 => CellOfDigit(CharAt(s, i)))
  }

  /** The digit the reader expects for a square: '0' empty, '1' player 0, '2' player 1. */
  function OwnerDigit(cell: Option<Piece>): char
  {
    if cell.None? then '0' else if cell.value.owner == White then '1' else '2'
  }

  function OccupancyString(b: Board): string
  {
    seq(64, i requires 0 <= i < 64 => OwnerDigit(b[i]))
  }

  /** Every piece replaced by a pawn of the same owner. */
  function AsPawns(b: Board): Board
  {
    seq(64, i requires 0 <= i < 64 => if b[i].None? then None else Some(Piece(Pawn, b[i].value.owner)))
  }

  /** Reading an owner-digit string restores who occupies each square, with every piece turned into a pawn. */
  lemma OccupancyRoundTrip(b: Board)
    ensures BoardOfDigits(OccupancyString(b)) == AsPawns(b)
  {
    var s := OccupancyString(b);
    forall i | 0 <= i < 64
      ensures CellOfDigit(s[i]) == AsPawns(b)[i]
    {
      assert s[i] == OwnerDigit(b[i]);
    }
  }

  /** A 63-character string reads the terminating NUL for square 63: a pawn tagged for player 1. */
  lemma ShortStateStringLastSquare(s: string)
    requires |s| == 63
    ensures BoardOfDigits(s)[63] == Some(Piece(Pawn, Black))
    ensures forall i :: 0 <= i < 63 ==> BoardOfDigits(s)[i] == CellOfDigit(s[i])
  {
    assert CharMinusZero(0 as char) == -48;
  }

  /**
   * Reading back what the state string writes keeps only occupancy: every
   * occupied square becomes a pawn tagged for player 1, whoever owned it.
   */
  lemma StateStringReadBackIsLossy(b: Board)
    ensures forall i :: 0 <= i < 64 ==>
      BoardOfDigits(StateString(b))[i] == (if b[i].None? then None else Some(Piece(Pawn, Black)))
  {
    var s := StateString(b);
    forall i | 0 <= i < 64
      ensures CellOfDigit(s[i]) == (if b[i].None? then None else Some(Piece(Pawn, Black)))
    {
      assert s[i] == PieceNotation(b[i]) by {
        assert At(b, i % 8, i / 8) == b[i];
      }
      if b[i].Some? {
        TagRoundTrip(b[i].value);
      }
    }
  }

  // ---------------------------------------------------------------------------
  // FEN piece placement

  /** The characters the stream extraction treats as white space in the "C" locale. */
  predicate IsSpace(c: char)
  {
    c == ' ' || c == '\t' || c == '\n' || c == '\r' || c as int == 11 || c as int == 12
  }

  /** What is left after the leading white space. */
  function SkipSpaces(s: string): (r: string)
    ensures |r| <= |s| && r == s[|s| - |r|..]
    ensures r == [] || !IsSpace(r[0])
    ensures forall i :: 0 <= i < |s| - |r| ==> IsSpace(s[i])
  {
    if s != [] && IsSpace(s[0]) then SkipSpaces(s[1..]) else s
  }

  /** The longest prefix without white space. */
  function Word(s: string): (w: string)
    ensures |w| <= |s| && w == s[..|w|]
    ensures forall i :: 0 <= i < |w| ==> !IsSpace(w[i])
    ensures |w| == |s| || IsSpace(s[|w|])
  {
    if s == [] || IsSpace(s[0]) then [] else [s[0]] + Word(s[1..])
  }

  /** The first white-space-delimited field of a FEN record: the piece placement. */
  function PlacementField(fen: string): string
  {
    Word(SkipSpaces(fen))
  }

  predicate IsDigit(c: char)
  {
    '0' <= c <= '9'
  }

  predicate IsUpper(c: char)
  {
    'A' <= c <= 'Z'
  }

  function ToLower(c: char): char
  {
    if IsUpper(c) then (c as int + 32) as char else c
  }

  /** The piece type a lower-case FEN letter names. */
  function KindOfLetter(c: char): Option<Kind>
  {
    match c
    case 'p' => Some(Pawn)
    case 'n' => Some(Knight)
    case 'b' => Some(Bishop)
    case 'r' => Some(Rook)
    case 'q' => Some(Queen)
    case 'k' => Some(King)
    case _ => None
  }

  /**
   * Places the pieces of `cs` starting at column x of row y: a '/' (allowed
   * only after exactly 8 columns) moves to column 0 of the row below, a digit
   * skips that many columns, a letter places a piece of player 0 (upper case)
   * or player 1 (lower case). Anything malformed stops the import and leaves
   * what was placed so far.
   */
  function PlaceFrom(cs: string, x: nat, y: int, b: Board): Board
    decreases |cs|
  {
    if cs == [] then b
    else
      var c := cs[0];
      if c == '/' then
        if x != 8 then b
        else if y - 1 < 0 then b
        else PlaceFrom(cs[1..], 0, y - 1, b)
      else if IsDigit(c) then
        var next := x + (c as int - '0' as int);
        if next > 8 then b else PlaceFrom(cs[1..], next, y, b)
      else
        match KindOfLetter(ToLower(c))
        case None => b
        case Some(kind) =>
          if x >= 8 || y < 0 || y > 7 then b
          else
            var owner := if IsUpper(c) then White else Black;
            PlaceFrom(cs[1..], x + 1, y, Put(b, x, y, Some(Piece(kind, owner))))
  }

  /**
   * The board a FEN record is imported into: unchanged when the record has no
   * placement field; otherwise the placement laid out on an emptied board from
   * row 7 (rank 8) down, column 0 (file a) first.
   */
  function FenToBoard(fen: string, b: Board): Board
  {
    var placement := PlacementField(fen);
    if placement == [] then b else PlaceFrom(placement, 0, 7, EmptyBoard())
  }

  // ---------------------------------------------------------------------------
  // A FEN placement writer, the reference the importer is checked against

  /** The FEN letter of a piece: upper case for player 0, lower case for player 1. */
  function Letter(p: Piece): (c: char)
    ensures !IsSpace(c) && !IsDigit(c) && c != '/'
  {
    var lower := match p.kind
      case Pawn => 'p'
      case Knight => 'n'
      case Bishop => 'b'
      case Rook => 'r'
      case Queen => 'q'
      case King => 'k';
    if p.owner == White then (lower as int - 32) as char else lower
  }

  /** The number of consecutive empty squares of row y from column x on. */
  function EmptyRun(b: Board, y: Coord, x: nat): (n: nat)
    requires x < 8 && At(b, x, y).None?
    ensures 1 <= n <= 8 - x
    ensures forall k :: x <= k < x + n ==> At(b, k, y).None?
    ensures x + n == 8 || At(b, x + n, y).Some?
    decreases 8 - x
  {
    if x + 1 == 8 || At(b, x + 1, y).Some? then 1 else 1 + EmptyRun(b, y, x + 1)
  }

  /** The digit naming a run of n empty squares. */
  function RunDigit(n: nat): (d: char)
    requires 1 <= n <= 8
    ensures IsDigit(d) && d as int - '0' as int == n
    ensures !IsSpace(d) && d != '/'
  {
    ('0' as int + n) as char
  }

  /**
   * Row y from column x on: a letter per piece and one digit per run of empty
   * squares, so that no two digits are adjacent.
   */
  function RankText(b: Board, y: Coord, x: nat): (s: string)
    requires x <= 8
    ensures x < 8 <==> s != []
    ensures |s| <= 8 - x
    ensures x < 8 && At(b, x, y).Some? ==> s[0] == Letter(At(b, x, y).value)
    ensures forall i, j :: 0 <= i && j == i + 1 && j < |s| ==> !(IsDigit(s[i]) && IsDigit(s[j]))
    ensures Spaceless(s)
    decreases 8 - x
  {
    if x == 8 then []
    else
      var cell := At(b, x, y);
      var c := if cell.Some? then Letter(cell.value) else RunDigit(EmptyRun(b, y, x));
      var next := if cell.Some? then x + 1 else x + EmptyRun(b, y, x);
      var rest := RankText(b, y, next);
      SpacelessCons(c, rest);
      [c] + rest
  }

  /** Rows y down to 0, separated by '/'. */
  function RanksText(b: Board, y: Coord): (s: string)
    ensures s != []
    ensures Spaceless(s)
  {
    if y == 0 then RankText(b, 0, 0)
    else
      var rank, below := RankText(b, y, 0), RanksText(b, y - 1);
      SpacelessJoin(rank, below);
      rank + (['/'] + below)
  }

  /** The FEN placement field of a board, runs of empty squares written as one digit each. */
  function FenPlacement(b: Board): string
  {
    RanksText(b, 7)
  }

  /** The board equal to `b` on row y before column x and on every row above y, empty elsewhere. */
  function Filled(b: Board, y: Coord, x: nat): Board
    requires x <= 8
  {
    seq(64, i requires 0 <= i < 64 => if (y * 8 <= i < y * 8 + x) || (y + 1) * 8 <= i then b[i] else None)
  }

  lemma LetterIsLetter(p: Piece)
    ensures KindOfLetter(ToLower(Letter(p))) == Some(p.kind)
    ensures IsUpper(Letter(p)) <==> p.owner == White
  {
    match p.kind
    case Pawn =>
    case Knight =>
    case Bishop =>
    case Rook =>
    case Queen =>
    case King =>
  }

  /** Filling in square (x, y) of row y: one Put of that square's content. */
  lemma FilledStep(b: Board, y: Coord, x: nat)
    requires x < 8
    ensures Put(Filled(b, y, x), x, y, At(b, x, y)) == Filled(b, y, x + 1)
  {
    assert At(b, x, y) == b[Index(x, y)];
  }

  /** Filling in a run of empty squares changes nothing. */
  lemma FilledSkip(b: Board, y: Coord, x: nat, n: nat)
    requires x + n <= 8
    requires forall k :: x <= k < x + n ==> At(b, k, y).None?
    ensures Filled(b, y, x) == Filled(b, y, x + n)
  {
    forall i | 0 <= i < 64
      ensures Filled(b, y, x)[i] == Filled(b, y, x + n)[i]
    {
      if y * 8 + x <= i < y * 8 + x + n {
        assert At(b, i - y * 8, y) == b[i];
      }
    }
  }

  /** The first character of row y's text from column x, and the column the rest of the text starts at. */
  lemma RankTextHead(b: Board, y: Coord, x: nat, rest: string) returns (c: char, next: nat)
    requires x < 8
    ensures x < next <= 8
    ensures RankText(b, y, x) + rest == [c] + (RankText(b, y, next) + rest)
    ensures At(b, x, y).Some? ==> c == Letter(At(b, x, y).value) && next == x + 1
    ensures At(b, x, y).None? ==> IsDigit(c) && next == x + (c as int - '0' as int)
    ensures forall k :: At(b, x, y).None? && x <= k < next ==> At(b, k, y).None?
  {
    if At(b, x, y).Some? {
      c, next := Letter(At(b, x, y).value), x + 1;
    } else {
      var n := EmptyRun(b, y, x);
      c, next := RunDigit(n), x + n;
    }
    assert RankText(b, y, x) == [c] + RankText(b, y, next);
    ConsAssociates(c, RankText(b, y, next), rest);
  }

  lemma ConsAssociates(c: char, s: string, t: string)
    ensures ([c] + s) + t == [c] + (s + t)
  {
  }

  /** A digit skips that many columns, provided the row has room for them. */
  lemma PlaceDigit(d: char, tail: string, x: nat, y: int, b: Board)
    requires IsDigit(d) && x + (d as int - '0' as int) <= 8
    ensures PlaceFrom([d] + tail, x, y, b) == PlaceFrom(tail, x + (d as int - '0' as int), y, b)
  {
    assert ([d] + tail)[0] == d && ([d] + tail)[1..] == tail;
  }

  /** A piece's letter puts that piece on (x, y) and moves to the next column. */
  lemma PlacePiece(p: Piece, tail: string, x: nat, y: Coord, b: Board)
    requires x < 8
    ensures PlaceFrom([Letter(p)] + tail, x, y, b) == PlaceFrom(tail, x + 1, y, Put(b, x, y, Some(p)))
  {
    var c := Letter(p);
    assert ([c] + tail)[0] == c && ([c] + tail)[1..] == tail;
    LetterIsLetter(p);
    assert Piece(p.kind, if IsUpper(c) then White else Black) == p;
  }

  /** Reading the first letter or digit of row y's text from column x fills in the squares it covers. */
  lemma PlaceStep(b: Board, y: Coord, x: nat, rest: string) returns (next: nat)
    requires x < 8
    ensures x < next <= 8
    ensures PlaceFrom(RankText(b, y, x) + rest, x, y, Filled(b, y, x))
         == PlaceFrom(RankText(b, y, next) + rest, next, y, Filled(b, y, next))
  {
    var c;
    c, next := RankTextHead(b, y, x, rest);
    var tail := RankText(b, y, next) + rest;
    if At(b, x, y).Some? {
      PlacePiece(At(b, x, y).value, tail, x, y, Filled(b, y, x));
      FilledStep(b, y, x);
    } else {
      PlaceDigit(c, tail, x, y, Filled(b, y, x));
      FilledSkip(b, y, x, next - x);
    }
  }

  /** Reading the text of row y from column x fills in the rest of that row. */
  lemma {:induction false} PlaceRank(b: Board, y: Coord, x: nat, rest: string)
    requires x <= 8
    ensures PlaceFrom(RankText(b, y, x) + rest, x, y, Filled(b, y, x)) == PlaceFrom(rest, 8, y, Filled(b, y, 8))
    decreases 8 - x
  {
    if x < 8 {
      var next := PlaceStep(b, y, x, rest);
      PlaceRank(b, y, next, rest);
    } else {
      assert RankText(b, y, x) + rest == rest;
    }
  }

  /** A completed row y is the same board as row y - 1 not yet begun. */
  lemma FilledRowDone(b: Board, y: Coord)
    requires y > 0
    ensures Filled(b, y, 8) == Filled(b, y - 1, 0)
  {
  }

  /** Reading rows y down to 0 from column 0 of row y completes the board. */
  lemma {:induction false} PlaceRanks(b: Board, y: Coord)
    ensures PlaceFrom(RanksText(b, y), 0, y, Filled(b, y, 0)) == b
  {
    if y == 0 {
      PlaceRank(b, 0, 0, []);
      assert RankText(b, 0, 0) + [] == RankText(b, 0, 0);
      assert Filled(b, 0, 8) == b;
    } else {
      var below := RanksText(b, y - 1);
      var rest := ['/'] + below;
      PlaceRank(b, y, 0, rest);
      assert rest[0] == '/' && rest[1..] == below;
      assert PlaceFrom(rest, 8, y, Filled(b, y, 8)) == PlaceFrom(below, 0, y - 1, Filled(b, y, 8));
      FilledRowDone(b, y);
      PlaceRanks(b, y - 1);
    }
  }

  /** Importing the placement field written for a board restores that board, whatever was on the board before. */
  lemma FenRoundTrip(b: Board, before: Board)
    ensures FenToBoard(FenPlacement(b), before) == b
  {
    var text := FenPlacement(b);
    assert SkipSpaces(text) == text;
    WordOfSpaceless(text);
    assert Filled(b, 7, 0) == EmptyBoard();
    PlaceRanks(b, 7);
  }

  /**
   * A full FEN record: the placement written for a board followed by
   * white space and the remaining fields imports that board.
   */
  lemma FenRecordRoundTrip(b: Board, before: Board, fields: string)
    requires fields != [] && IsSpace(fields[0])
    ensures FenToBoard(FenPlacement(b) + fields, before) == b
  {
    var text := FenPlacement(b);
    assert (text + fields)[0] == text[0];
    assert SkipSpaces(text + fields) == text + fields;
    WordOfSpacelessPrefix(text, fields);
    assert Filled(b, 7, 0) == EmptyBoard();
    PlaceRanks(b, 7);
  }

  /** A field without white space followed by white space is extracted up to that white space. */
  lemma {:induction false} WordOfSpacelessPrefix(s: string, r: string)
    requires Spaceless(s) && r != [] && IsSpace(r[0])
    ensures Word(s + r) == s
  {
    if s == [] {
      assert s + r == r;
    } else {
      assert (s + r)[0] == s[0] && (s + r)[1..] == s[1..] + r;
      WordOfSpacelessPrefix(s[1..], r);
    }
  }

  /** No character of `s` is white space. */
  predicate Spaceless(s: string)
  {
    s == [] || (!IsSpace(s[0]) && Spaceless(s[1..]))
  }

  lemma SpacelessCons(c: char, t: string)
    requires !IsSpace(c) && Spaceless(t)
    ensures Spaceless([c] + t)
  {
    assert ([c] + t)[1..] == t;
  }

  lemma {:induction false} SpacelessConcat(s: string, t: string)
    requires Spaceless(s) && Spaceless(t)
    ensures Spaceless(s + t)
  {
    if s != [] {
      SpacelessConcat(s[1..], t);
      assert (s + t)[1..] == s[1..] + t;
    } else {
      assert s + t == t;
    }
  }

  lemma SpacelessJoin(rank: string, below: string)
    requires Spaceless(rank) && Spaceless(below)
    ensures Spaceless(rank + (['/'] + below))
  {
    SpacelessCons('/', below);
    SpacelessConcat(rank, ['/'] + below);
  }

  lemma {:induction false} WordOfSpaceless(s: string)
    requires Spaceless(s)
    ensures Word(s) == s
  {
    if s != [] {
      WordOfSpaceless(s[1..]);
    }
  }
}
