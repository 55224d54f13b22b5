/**
 * Piece identities of the chess engine: the piece-type enumeration, the two
 * players and the integer tag the engine stores on every piece
 * (player * 128 + piece type), with the decoders the engine applies to it.
 */
module Pieces {

  datatype Option<+T> = None | Some(value: T)

  /** Player 0 moves the pieces written in upper case in FEN, player 1 the lower-case ones. */
  datatype Player = White | Black

  /** The player number the host framework gives each side. */
  function PlayerNumber(p: Player): (n: nat)
    ensures n < 2
    ensures p == PlayerOfNumber(n)
  {
    match p
    case White => 0
    case Black => 1
  }

  function PlayerOfNumber(n: nat): Player
    requires n < 2
  {
    if n == 0 then White else Black
  }

  /** The side that attacks a player's king: player number `1 - n`. */
  function Opponent(p: Player): (q: Player)
    ensures q != p
    ensures PlayerNumber(q) == 1 - PlayerNumber(p)
  {
    if p == White then Black else White
  }

  /** The engine's piece enumeration, in declaration order (NoPiece = 0 ... King = 6). */
  datatype PieceType = NoPiece | Pawn | Knight | Bishop | Rook | Queen | King

  /** A type that a piece on the board can have: every piece is created with one of these. */
  type Kind = t: PieceType | t != NoPiece witness Pawn

  /** A piece on the board: its type and its owner. */
  datatype Piece = Piece(kind: Kind, owner: Player)

  /** The integer value of an enumerator. */
  function Ordinal(t: PieceType): (n: nat)
    ensures n <= 6
    ensures (n == 0) == (t == NoPiece)
  {
    match t
    case NoPiece => 0
    case Pawn => 1
    case Knight => 2
    case Bishop => 3
    case Rook => 4
    case Queen => 5
    case King => 6
  }

  /** The enumerator with integer value `n`. */
  function TypeOfOrdinal(n: nat): PieceType
    requires n <= 6
  {
    if n == 1 then Pawn
    else if n == 2 then Knight
    else if n == 3 then Bishop
    else if n == 4 then Rook
    else if n == 5 then Queen
    else if n == 6 then King
    else NoPiece
  }

  /** The game tag a new piece receives: 0 or 128 for the owner plus the piece type. */
  function Tag(p: Piece): (t: int)
    ensures t % 128 == Ordinal(p.kind)
    ensures t / 128 == PlayerNumber(p.owner)
  {
    (if PlayerNumber(p.owner) == 0 then 0 else 128) + Ordinal(p.kind)
  }

  /**
   * The piece type read back from a tag: `tag & 127`, with values outside
   * Pawn..King read as NoPiece. For every integer in two's complement,
   * `tag & 127` is the non-negative remainder of `tag` by 128, which is what
   * Dafny's `%` computes.
   */
  function PieceTypeForTag(tag: int): (t: PieceType)
    ensures t != NoPiece ==> Ordinal(t) == tag % 128
    ensures Ordinal(Pawn) <= tag % 128 <= Ordinal(King) ==> Ordinal(t) == tag % 128
  {
    var encoded := tag % 128;
    if encoded < Ordinal(Pawn) || encoded > Ordinal(King) then NoPiece
    else TypeOfOrdinal(encoded)
  }

  /** `tag & 128`: bit 7 of the tag in two's complement. */
  function ColorBit(tag: int): (c: int)
    ensures c == 0 || c == 128
    ensures c == 128 <==> tag % 256 >= 128
  {
    (tag / 128) % 2 * 128
  }

  /** Decoding a piece's tag gives back its type, and its colour bit is 128 times its player number. */
  lemma TagRoundTrip(p: Piece)
    ensures PieceTypeForTag(Tag(p)) == p.kind
    ensures ColorBit(Tag(p)) == 128 * PlayerNumber(p.owner)
    ensures 0 < Tag(p) < 256
    ensures Tag(p) < 128 <==> p.owner == White
  {
    match p.kind
    case Pawn =>
    case Knight =>
    case Bishop =>
    case Rook =>
    case Queen =>
    case King =>
  }

  /** Distinct pieces never share a tag, so the tag is a faithful encoding of (type, owner). */
  lemma TagInjective(p: Piece, q: Piece)
    ensures Tag(p) == Tag(q) ==> p == q
  {
    if Tag(p) == Tag(q) {
      TagRoundTrip(p);
      TagRoundTrip(q);
      assert p.kind == q.kind;
      assert p.owner == q.owner;
    }
  }

  /**
   * The pick-up check: a piece may be taken from its square only when the
   * colour bit of its tag matches 128 times the number of the player to move.
   */
  function CanBitMoveFrom(p: Piece, toMove: Player): (r: bool)
    ensures r <==> p.owner == toMove
  {
    TagRoundTrip(p);
    ColorBit(Tag(p)) == PlayerNumber(toMove) * 128
  }
}
