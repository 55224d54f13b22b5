/**
 * What committing a move does to the engine: the castling-rights bookkeeping
 * for moved and captured kings and rooks, the en-passant target, the rook's
 * relocation when castling, the removal of a pawn taken en passant and the
 * promotion of a pawn to a queen.
 */
module Moves {
  import opened Pieces
  import opened Board
  import opened Rules

  // ---------------------------------------------------------------------------
  // Castling-rights bookkeeping

  /** The corner square a player's rook on `side` starts from. */
  function RookHome(p: Player, side: nat): Square
  {
    Square(RookColumn(side), HomeRow(p))
  }

  function SetRookMoved(st: State, n: nat, side: nat): State
    requires n < 2 && side < 2
  {
    st.(rookMoved := st.rookMoved[n := st.rookMoved[n][side := true]])
  }

  /** Clears the castling right of a rook of player `n` that leaves, or is taken on, a corner of its home row. */
  function MarkRookSquare(st: State, n: nat, sq: Square): State
    requires n < 2
  {
    if sq.y == HomeRow(PlayerOfNumber(n)) then
      if sq.x == 0 then SetRookMoved(st, n, QueenSide)
      else if sq.x == 7 then SetRookMoved(st, n, KingSide)
      else st
    else st
  }

  /** The bookkeeping for the piece that moves: a king loses both rights, a rook leaving its corner loses its own. */
  function MarkForMove(st: State, p: Piece, src: Square): State
  {
    var n := PlayerNumber(p.owner);
    if p.kind == King then st.(kingMoved := st.kingMoved[n := true])
    else if p.kind != Rook then st
    else MarkRookSquare(st, n, src)
  }

  /** The bookkeeping for a captured piece: a rook taken on its corner takes its owner's right with it. */
  function MarkForCapture(st: State, p: Piece, sq: Square): State
  {
    if p.kind != Rook then st
    else MarkRookSquare(st, PlayerNumber(p.owner), sq)
  }

  /** The host's notification of a capture: nothing happens without a piece or without the square holding it. */
  function PieceTaken(st: State, taken: Option<Piece>, holder: Option<Square>): State
  {
    if taken.None? || holder.None? then st
    else MarkForCapture(st, taken.value, holder.value)
  }

  /** Every castling flag that was set in `st` is still set in `st'`. */
  predicate FlagsOnlyRise(st: State, st': State)
  {
    && (forall q: Player :: KingMoved(st, q) ==> KingMoved(st', q))
    && (forall q: Player, side: nat :: side < 2 && RookMoved(st, q, side) ==> RookMoved(st', q, side))
  }

  /**
   * Moving a piece sets exactly its owner's king flag when it is a king, and
   * exactly the flag of the rook corner it leaves when it is a rook; nothing
   * else, and not the en-passant target, changes.
   */
  lemma MarkForMoveFlags(st: State, p: Piece, src: Square)
    ensures forall q: Player :: KingMoved(MarkForMove(st, p, src), q) == (KingMoved(st, q) || (p.kind == King && q == p.owner))
    ensures forall q: Player, side: nat :: side < 2 ==>
              RookMoved(MarkForMove(st, p, src), q, side) ==
              (RookMoved(st, q, side) || (p.kind == Rook && q == p.owner && src == RookHome(q, side)))
    ensures MarkForMove(st, p, src).epX == st.epX && MarkForMove(st, p, src).epY == st.epY
  {
    var r := MarkForMove(st, p, src);
    forall q: Player, side: nat | side < 2
      ensures RookMoved(r, q, side) ==
              (RookMoved(st, q, side) || (p.kind == Rook && q == p.owner && src == RookHome(q, side)))
    {
      if p.kind == Rook && q == p.owner {
        assert PlayerOfNumber(PlayerNumber(q)) == q;
      }
    }
  }

  /** A captured piece sets exactly the flag of its owner's rook corner it was taken on, and only when it is a rook. */
  lemma MarkForCaptureFlags(st: State, p: Piece, sq: Square)
    ensures forall q: Player :: KingMoved(MarkForCapture(st, p, sq), q) == KingMoved(st, q)
    ensures forall q: Player, side: nat :: side < 2 ==>
              RookMoved(MarkForCapture(st, p, sq), q, side) ==
              (RookMoved(st, q, side) || (p.kind == Rook && q == p.owner && sq == RookHome(q, side)))
    ensures MarkForCapture(st, p, sq).epX == st.epX && MarkForCapture(st, p, sq).epY == st.epY
  {
    var r := MarkForCapture(st, p, sq);
    forall q: Player, side: nat | side < 2
      ensures RookMoved(r, q, side) ==
              (RookMoved(st, q, side) || (p.kind == Rook && q == p.owner && sq == RookHome(q, side)))
    {
      if p.kind == Rook && q == p.owner {
        assert PlayerOfNumber(PlayerNumber(q)) == q;
      }
    }
  }

  // ---------------------------------------------------------------------------
  // Committing a move

  /** A king moving two columns along its row: the move the engine treats as castling. */
  predicate IsCastlingMove(p: Piece, src: Square, dst: Square)
  {
    p.kind == King && Abs(dst.x - src.x) == 2 && dst.y == src.y
  }

  /** Where the castling rook is taken from: column 7 on the king side, column 0 on the queen side. */
  function RookSource(src: Square, dst: Square): Square
  {
    Square(if dst.x > src.x then 7 else 0, src.y)
  }

  /** Where the castling rook is put: next to the king's destination, on the side the king came from. */
  function RookDestination(src: Square, dst: Square): Square
    requires Abs(dst.x - src.x) == 2
  {
    Square(if dst.x > src.x then dst.x - 1 else dst.x + 1, src.y)
  }

  /** Moves whatever stands on the rook's source square to the rook's destination square. */
  function RelocateRook(b: Board, src: Square, dst: Square): Board
    requires Abs(dst.x - src.x) == 2
  {
    var from, to := RookSource(src, dst), RookDestination(src, dst);
    var rook := At(b, from.x, from.y);
    if rook.Some? then Put(Put(b, to.x, to.y, rook), from.x, from.y, None) else b
  }

  /** A pawn moving diagonally onto the en-passant target of the previous move. */
  predicate IsEnPassantCapture(st: State, p: Piece, src: Square, dst: Square)
  {
    p.kind == Pawn && src.x != dst.x && st.epX == dst.x && st.epY == dst.y
  }

  /**
   * The board after the move's side effects. `b` already shows the moving
   * piece on `dst`; `st` is the state before the move.
   */
  function CommitBoard(b: Board, st: State, p: Piece, src: Square, dst: Square): Board
  {
    var castled := if IsCastlingMove(p, src, dst) then RelocateRook(b, src, dst) else b;
    if p.kind != Pawn then castled else PawnEffects(castled, st.epX, st.epY, p, src, dst)
  }

  /**
   * A pawn's side effects on the board, given the en-passant target (epX, epY)
   * before the move: the en-passant capture, then the promotion.
   */
  function PawnEffects(b: Board, epX: int, epY: int, p: Piece, src: Square, dst: Square): Board
  {
    var direction := Direction(p.owner);
    var captured :=
      if src.x != dst.x && epX == dst.x && epY == dst.y && OnBoard(dst.x, dst.y - direction)
      then Put(b, dst.x, dst.y - direction, None)
      else b;
    if dst.y == PromotionRow(p.owner) then Put(captured, dst.x, dst.y, Some(Piece(Queen, p.owner)))
    else captured
  }

  /** The engine state after the move: the mover's bookkeeping, then the new en-passant target. */
  function CommitState(st: State, p: Piece, src: Square, dst: Square): State
  {
    var marked := MarkForMove(st, p, src);
    if p.kind == Pawn && Abs(dst.y - src.y) == 2 then marked.(epX := src.x, epY := src.y + Direction(p.owner))
    else marked.(epX := -1, epY := -1)
  }

  /**
   * A whole move as the host performs it: a piece on the destination is
   * captured (and reported), the mover is lifted from `src` and dropped on
   * `dst`, and the engine then commits the move.
   */
  function HostMove(b: Board, st: State, p: Piece, src: Square, dst: Square): (Board, State)
  {
    var victim := At(b, dst.x, dst.y);
    var reported := PieceTaken(st, victim, if victim.Some? then Some(dst) else None);
    var dropped := Put(Put(b, src.x, src.y, None), dst.x, dst.y, Some(p));
    (CommitBoard(dropped, reported, p, src, dst), CommitState(reported, p, src, dst))
  }

  // ---------------------------------------------------------------------------
  // Properties of a committed move

  /**
   * After a commit the en-passant target is the square a two-row pawn move
   * skipped, and (-1, -1) after every other move; the castling flags only
   * rise, and only the mover's own king flag or rook-corner flag can rise.
   */
  lemma CommitStateEffects(st: State, p: Piece, src: Square, dst: Square)
    ensures var r := CommitState(st, p, src, dst);
      && (if p.kind == Pawn && Abs(dst.y - src.y) == 2
          then r.epX == src.x && r.epY == src.y + Direction(p.owner)
          else r.epX == -1 && r.epY == -1)
      && FlagsOnlyRise(st, r)
      && (forall q: Player :: KingMoved(r, q) == (KingMoved(st, q) || (p.kind == King && q == p.owner)))
      && (forall q: Player, side: nat :: side < 2 ==>
            RookMoved(r, q, side) == (RookMoved(st, q, side) || (p.kind == Rook && q == p.owner && src == RookHome(q, side))))
  {
    MarkForMoveFlags(st, p, src);
  }

  /**
   * Over a whole move, castling flags only go from false to true: a king's
   * flag rises when it moves, a rook corner's flag when its rook leaves the
   * corner or is captured there, and no other flag changes.
   */
  lemma HostMoveFlags(b: Board, st: State, p: Piece, src: Square, dst: Square)
    ensures var r := HostMove(b, st, p, src, dst).1;
      var victim := At(b, dst.x, dst.y);
      && FlagsOnlyRise(st, r)
      && (forall q: Player :: KingMoved(r, q) == (KingMoved(st, q) || (p.kind == King && q == p.owner)))
      && (forall q: Player, side: nat :: side < 2 ==>
            RookMoved(r, q, side) ==
            (|| RookMoved(st, q, side)
             || (p.kind == Rook && q == p.owner && src == RookHome(q, side))
             || (victim == Some(Piece(Rook, q)) && dst == RookHome(q, side))))
  {
    var victim := At(b, dst.x, dst.y);
    var reported := PieceTaken(st, victim, if victim.Some? then Some(dst) else None);
    if victim.Some? {
      MarkForCaptureFlags(st, victim.value, dst);
    }
    CommitStateEffects(reported, p, src, dst);
  }

  /**
   * Castling moves the piece on the rook's corner next to the king's
   * destination and changes no other square; with nothing on the corner the
   * board is unchanged.
   */
  lemma CastlingRelocatesRook(b: Board, st: State, p: Piece, src: Square, dst: Square)
    requires IsCastlingMove(p, src, dst)
    ensures At(b, RookSource(src, dst).x, src.y).None? ==> CommitBoard(b, st, p, src, dst) == b
    ensures var r := CommitBoard(b, st, p, src, dst);
      var from, to := RookSource(src, dst), RookDestination(src, dst);
      At(b, from.x, from.y).Some? ==>
      && At(r, to.x, to.y) == At(b, from.x, from.y)
      && At(r, from.x, from.y) == None
      && forall x, y :: (x, y) != (from.x, from.y) && (x, y) != (to.x, to.y) ==> At(r, x, y) == At(b, x, y)
  {
  }

  /**
   * A pawn moving diagonally onto the previous en-passant target removes the
   * piece one row behind its destination; apart from that square and a
   * promotion on the destination, the board is unchanged.
   */
  lemma EnPassantRemovesPawn(b: Board, st: State, p: Piece, src: Square, dst: Square)
    requires IsEnPassantCapture(st, p, src, dst)
    requires OnBoard(dst.x, dst.y - Direction(p.owner))
    ensures var r := CommitBoard(b, st, p, src, dst);
      var victimY := dst.y - Direction(p.owner);
      && At(r, dst.x, victimY) == None
      && At(r, dst.x, dst.y) == (if dst.y == PromotionRow(p.owner) then Some(Piece(Queen, p.owner)) else At(b, dst.x, dst.y))
      && forall x, y :: (x, y) != (dst.x, victimY) && (x, y) != (dst.x, dst.y) ==> At(r, x, y) == At(b, x, y)
  {
  }

  /**
   * A pawn that lands on its promotion row is replaced by a queen of its
   * owner; unless the move also captures en passant, no other square changes.
   */
  lemma PromotionMakesQueen(b: Board, st: State, p: Piece, src: Square, dst: Square)
    requires p.kind == Pawn && dst.y == PromotionRow(p.owner)
    ensures At(CommitBoard(b, st, p, src, dst), dst.x, dst.y) == Some(Piece(Queen, p.owner))
    ensures !IsEnPassantCapture(st, p, src, dst) ==> CommitBoard(b, st, p, src, dst) == Put(b, dst.x, dst.y, Some(Piece(Queen, p.owner)))
  {
  }

  /** A move that is neither castling, nor an en-passant capture, nor a promotion leaves the board as the host left it. */
  lemma QuietCommitKeepsBoard(b: Board, st: State, p: Piece, src: Square, dst: Square)
    requires !IsCastlingMove(p, src, dst) && !IsEnPassantCapture(st, p, src, dst)
    requires p.kind == Pawn ==> dst.y != PromotionRow(p.owner)
    ensures CommitBoard(b, st, p, src, dst) == b
  {
  }

  /** No white pawn stands on row 7 and no black pawn on row 0. */
  predicate NoUnpromotedPawns(b: Board)
  {
    forall x: Coord, y: Coord :: At(b, x, y).Some? && At(b, x, y).value.kind == Pawn ==> y != PromotionRow(At(b, x, y).value.owner)
  }

  /** Whatever move is made, no pawn is left standing on its promotion row. */
  lemma HostMoveKeepsPawnsUnpromoted(b: Board, st: State, p: Piece, src: Square, dst: Square)
    requires NoUnpromotedPawns(b)
    ensures NoUnpromotedPawns(HostMove(b, st, p, src, dst).0)
  {
    var victim := At(b, dst.x, dst.y);
    var reported := PieceTaken(st, victim, if victim.Some? then Some(dst) else None);
    var dropped := Put(Put(b, src.x, src.y, None), dst.x, dst.y, Some(p));
    var castled := if IsCastlingMove(p, src, dst) then RelocateRook(dropped, src, dst) else dropped;
    assert NoUnpromotedPawns(Put(b, src.x, src.y, None));
    if p.kind != Pawn {
      assert NoUnpromotedPawns(dropped);
      if IsCastlingMove(p, src, dst) {
        var from, to := RookSource(src, dst), RookDestination(src, dst);
        assert from.y == to.y;
        assert NoUnpromotedPawns(castled);
      }
    } else {
      var r := CommitBoard(dropped, reported, p, src, dst);
      forall x: Coord, y: Coord | At(r, x, y).Some? && At(r, x, y).value.kind == Pawn
        ensures y != PromotionRow(At(r, x, y).value.owner)
      {
        if (x, y) != (dst.x, dst.y) {
          assert At(r, x, y) == At(dropped, x, y);
        }
      }
    }
  }

  // ---------------------------------------------------------------------------
  // Two scenarios: an en-passant capture and a king-side castle

  /**
   * White's pawn advances (3, 1) to (3, 3): the target becomes (3, 2); black's
   * pawn on (2, 3) may then take on (3, 2), which removes the pawn on (3, 3)
   * and clears the target again.
   */
  lemma EnPassantScenario(b: Board, st: State)
    requires At(b, 3, 1) == Some(Piece(Pawn, White)) && At(b, 3, 2) == None && At(b, 3, 3) == None
    requires At(b, 2, 3) == Some(Piece(Pawn, Black))
    ensures CanMove(b, st, Piece(Pawn, White), Square(3, 1), Square(3, 3))
    ensures var (b1, st1) := HostMove(b, st, Piece(Pawn, White), Square(3, 1), Square(3, 3));
      && st1.epX == 3 && st1.epY == 2
      && CanMove(b1, st1, Piece(Pawn, Black), Square(2, 3), Square(3, 2))
      && var (b2, st2) := HostMove(b1, st1, Piece(Pawn, Black), Square(2, 3), Square(3, 2));
         && At(b2, 3, 3) == None
         && At(b2, 3, 2) == Some(Piece(Pawn, Black))
         && At(b2, 2, 3) == None
         && st2.epX == -1 && st2.epY == -1
  {
    var (b1, st1) := HostMove(b, st, Piece(Pawn, White), Square(3, 1), Square(3, 3));
    assert At(b1, 3, 2) == None;
    assert At(b1, 2, 3) == Some(Piece(Pawn, Black));
  }

  /**
   * With white's king on (4, 0), its king-side rook on (7, 0), both unmoved
   * and (5, 0), (6, 0) empty, the king may go to (6, 0) exactly when none of
   * (4, 0), (5, 0), (6, 0) is attacked by black; the move puts the rook on (5, 0).
   */
  lemma CastlingScenario(b: Board, st: State)
    requires At(b, 4, 0) == Some(Piece(King, White)) && At(b, 7, 0) == Some(Piece(Rook, White))
    requires At(b, 5, 0) == None && At(b, 6, 0) == None
    requires !KingMoved(st, White) && !RookMoved(st, White, KingSide)
    ensures CanMove(b, st, Piece(King, White), Square(4, 0), Square(6, 0)) <==>
            !UnderAttack(b, 4, 0, Black) && !UnderAttack(b, 5, 0, Black) && !UnderAttack(b, 6, 0, Black)
    ensures var (b1, st1) := HostMove(b, st, Piece(King, White), Square(4, 0), Square(6, 0));
      && At(b1, 6, 0) == Some(Piece(King, White))
      && At(b1, 5, 0) == Some(Piece(Rook, White))
      && At(b1, 4, 0) == None && At(b1, 7, 0) == None
      && KingMoved(st1, White)
  {
  }
}
