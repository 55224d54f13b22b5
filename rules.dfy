/**
 * Move legality as pure functions of a board and the engine's small state:
 * path clearance for sliding pieces, the per-piece movement rules, the pawn
 * rules with double step and en passant, attack detection and castling.
 */
module Rules {
  import opened Pieces
  import opened Board

  /**
   * The engine's own state: whether each player's king has moved, whether each
   * player's queen-side (index 0) and king-side (index 1) rook has moved, and
   * the en-passant target square, (-1, -1) when there is none.
   */
  datatype EngineState = EngineState(kingMoved: seq<bool>, rookMoved: seq<seq<bool>>, epX: int, epY: int)

  type State = st: EngineState | WellFormed(st) witness InitialState()

  predicate WellFormed(st: EngineState)
  {
    |st.kingMoved| == 2 && |st.rookMoved| == 2 && |st.rookMoved[0]| == 2 && |st.rookMoved[1]| == 2
  }

  /** No king or rook has moved and there is no en-passant target. */
  function InitialState(): (st: EngineState)
    ensures WellFormed(st)
  {
    EngineState([false, false], [[false, false], [false, false]], -1, -1)
  }

  const QueenSide: nat := 0
  const KingSide: nat := 1

  /** The column a side's rook starts on. */
  function RookColumn(side: nat): Coord
  {
    if side == KingSide then 7 else 0
  }

  function KingMoved(st: State, p: Player): bool
  {
    st.kingMoved[PlayerNumber(p)]
  }

  function RookMoved(st: State, p: Player, side: nat): bool
    requires side < 2
  {
    st.rookMoved[PlayerNumber(p)][side]
  }

  /** The row a player's king and rooks start on. */
  function HomeRow(p: Player): Coord
  {
    if p == White then 0 else 7
  }

  /** The row change of a pawn's forward step. */
  function Direction(p: Player): int
  {
    if p == White then 1 else -1
  }

  /** The row from which a pawn may advance two rows. */
  function StartRow(p: Player): Coord
  {
    if p == White then 1 else 6
  }

  /** The row on which a pawn is promoted. */
  function PromotionRow(p: Player): Coord
  {
    if p == White then 7 else 0
  }

  // ---------------------------------------------------------------------------
  // Path clearance

  /** The coordinate reached from `from` after `k` unit steps toward `from + delta`. */
  function Walk(from: int, delta: int, k: int): int
  {
    if delta > 0 then from + k else if delta < 0 then from - k else from
  }

  /** A straight or diagonal line. */
  predicate Aligned(dx: int, dy: int)
  {
    dx == 0 || dy == 0 || Abs(dx) == Abs(dy)
  }

  /** The number of unit steps from source to destination along an aligned line. */
  function Distance(dx: int, dy: int): nat
  {
    if Abs(dx) < Abs(dy) then Abs(dy) else Abs(dx)
  }

  /** The square `k` steps from (sx, sy) toward (tx, ty) is on the board and empty. */
  predicate FreeStep(b: Board, sx: int, sy: int, tx: int, ty: int, k: int)
  {
    var x, y := Walk(sx, tx - sx, k), Walk(sy, ty - sy, k);
    OnBoard(x, y) && At(b, x, y) == None
  }

  /**
   * The walk from the source toward the destination, one step of the sign of
   * each delta at a time, reaches the destination, and every square strictly
   * between the two is on the board and empty. The endpoints are not examined.
   */
  predicate PathClear(b: Board, sx: Coord, sy: Coord, tx: Coord, ty: Coord)
  {
    && Aligned(tx - sx, ty - sy)
    && forall k :: 0 < k < Distance(tx - sx, ty - sy) ==> FreeStep(b, sx, sy, tx, ty, k)
  }

  // ---------------------------------------------------------------------------
  // Movement rules

  predicate KnightJump(dx: int, dy: int)
  {
    (Abs(dx) == 1 && Abs(dy) == 2) || (Abs(dx) == 2 && Abs(dy) == 1)
  }

  /**
   * A pawn's move: straight onto an empty square one row forward, or two rows
   * forward from its start row over an empty square; diagonally one column and
   * one row forward onto an opponent's piece, or onto the empty en-passant
   * target (epX, epY).
   */
  predicate PawnCanMove(b: Board, epX: int, epY: int, pawn: Piece, src: Square, dst: Square)
    ensures PawnCanMove(b, epX, epY, pawn, src, dst) ==>
      Abs(dst.x - src.x) <= 1 &&
      (dst.y - src.y == Direction(pawn.owner) ||
       (dst.y - src.y == 2 * Direction(pawn.owner) && dst.x == src.x && src.y == StartRow(pawn.owner)))
    ensures PawnCanMove(b, epX, epY, pawn, src, dst) && At(b, dst.x, dst.y).Some? ==>
      dst.x != src.x && At(b, dst.x, dst.y).value.owner != pawn.owner
  {
    var dx, dy := dst.x - src.x, dst.y - src.y;
    var direction := Direction(pawn.owner);
    var target := At(b, dst.x, dst.y);
    if dx == 0 then
      if target.Some? then false
      else if dy == direction then true
      else if dy == direction * 2 && src.y == StartRow(pawn.owner) then
        OnBoard(src.x, src.y + direction) && At(b, src.x, src.y + direction) == None
      else false
    else if Abs(dx) == 1 && dy == direction then
      if target.Some? then target.value.owner != pawn.owner
      else dst.x == epX && dst.y == epY
    else false
  }

  /** Whether piece `p` may move from `src` to `dst` (the move-legality check of the engine). */
  predicate CanMove(b: Board, st: State, p: Piece, src: Square, dst: Square)
  {
    if src == dst then false
    else
      var dx, dy := dst.x - src.x, dst.y - src.y;
      match p.kind
      case Pawn => PawnCanMove(b, st.epX, st.epY, p, src, dst)
      case Knight => KnightJump(dx, dy)
      case Bishop => Abs(dx) == Abs(dy) && PathClear(b, src.x, src.y, dst.x, dst.y)
      case Rook => (dx == 0 || dy == 0) && PathClear(b, src.x, src.y, dst.x, dst.y)
      case Queen => (dx == 0 || dy == 0 || Abs(dx) == Abs(dy)) && PathClear(b, src.x, src.y, dst.x, dst.y)
      case King => (Abs(dx) <= 1 && Abs(dy) <= 1) || CastleAllowed(b, st, p, src, dst)
  }

  // ---------------------------------------------------------------------------
  // Attack detection

  /**
   * Whether piece `p` standing on `src` attacks square (tx, ty): the movement
   * geometry without the pawn's advance and en-passant rules and without
   * castling.
   */
  predicate Attacks(b: Board, p: Piece, src: Square, tx: Coord, ty: Coord)
    ensures Attacks(b, p, src, tx, ty) && p.kind != Knight ==>
      tx == src.x || ty == src.y || Abs(tx - src.x) == Abs(ty - src.y)
    ensures Attacks(b, p, src, tx, ty) && (p.kind == Pawn || p.kind == King) ==>
      Abs(tx - src.x) <= 1 && Abs(ty - src.y) <= 1 && (tx, ty) != (src.x, src.y)
    ensures Attacks(b, p, src, tx, ty) && p.kind == Knight ==>
      Abs(tx - src.x) + Abs(ty - src.y) == 3 && tx != src.x && ty != src.y
  {
    var dx, dy := tx - src.x, ty - src.y;
    match p.kind
    case Pawn => Abs(dx) == 1 && dy == Direction(p.owner)
    case Knight => KnightJump(dx, dy)
    case Bishop => Abs(dx) == Abs(dy) && PathClear(b, src.x, src.y, tx, ty)
    case Rook => (dx == 0 || dy == 0) && PathClear(b, src.x, src.y, tx, ty)
    case Queen => (dx == 0 || dy == 0 || Abs(dx) == Abs(dy)) && PathClear(b, src.x, src.y, tx, ty)
    case King => Abs(dx) <= 1 && Abs(dy) <= 1 && (dx != 0 || dy != 0)
  }

  /** Square (px, py) holds a piece of `attacker` that attacks (tx, ty). */
  predicate AttackerOn(b: Board, px: Coord, py: Coord, tx: Coord, ty: Coord, attacker: Player)
  {
    var cell := At(b, px, py);
    cell.Some? && cell.value.owner == attacker && Attacks(b, cell.value, Square(px, py), tx, ty)
  }

  predicate UnderAttack(b: Board, tx: Coord, ty: Coord, attacker: Player)
  {
    exists px: Coord, py: Coord :: AttackerOn(b, px, py, tx, ty, attacker)
  }

  // ---------------------------------------------------------------------------
  // Castling

  predicate StrictlyBetween(x: int, a: int, c: int)
  {
    (a < x < c) || (c < x < a)
  }

  /**
   * Castling: an unmoved king moves two columns along its row toward an
   * unmoved rook of its own that stands on column 7 (king side) or 0 (queen
   * side), every square between king and rook is empty, and neither the
   * king's square, the square it crosses nor its destination is attacked.
   */
  predicate CastleAllowed(b: Board, st: State, king: Piece, src: Square, dst: Square)
  {
    && king.kind == King
    && !KingMoved(st, king.owner)
    && src.y == dst.y
    && Abs(dst.x - src.x) == 2
    && var side := if dst.x > src.x then KingSide else QueenSide;
       var rookX := RookColumn(side);
       var step := if side == KingSide then 1 else -1;
       var opponent := Opponent(king.owner);
       && !RookMoved(st, king.owner, side)
       && At(b, rookX, src.y) == Some(Piece(Rook, king.owner))
       && (forall x :: 0 <= x < 8 && StrictlyBetween(x, src.x, rookX) ==> At(b, x, src.y) == None)
       && !UnderAttack(b, src.x, src.y, opponent)
       && !UnderAttack(b, src.x + step, src.y, opponent)
       && !UnderAttack(b, dst.x, dst.y, opponent)
  }

  // ---------------------------------------------------------------------------
  // Properties of path clearance

  /** On a straight or diagonal line every step strictly before the destination stays strictly between the endpoints. */
  lemma WalkBetween(sx: Coord, sy: Coord, tx: Coord, ty: Coord, k: int)
    requires Aligned(tx - sx, ty - sy) && 0 < k < Distance(tx - sx, ty - sy)
    ensures OnBoard(Walk(sx, tx - sx, k), Walk(sy, ty - sy, k))
    ensures Walk(sx, tx - sx, k) != sx || Walk(sy, ty - sy, k) != sy
    ensures Walk(sx, tx - sx, k) != tx || Walk(sy, ty - sy, k) != ty
  {
  }

  /** The sign of a delta: the unit step the walk takes along one axis. */
  function Step(delta: int): int
  {
    if delta > 0 then 1 else if delta < 0 then -1 else 0
  }

  /**
   * The walk from (sx, sy) toward (tx, ty) stands on (x, y) after k steps, the
   * k - 1 squares before it were free, and on a straight or diagonal line it
   * has not gone past the destination.
   */
  predicate Walked(b: Board, sx: Coord, sy: Coord, tx: Coord, ty: Coord, k: int, x: int, y: int)
  {
    && 1 <= k <= 8
    && x == Walk(sx, tx - sx, k) && y == Walk(sy, ty - sy, k)
    && (forall j :: 0 < j < k ==> FreeStep(b, sx, sy, tx, ty, j))
    && (Aligned(tx - sx, ty - sy) && Distance(tx - sx, ty - sy) > 0 ==> k <= Distance(tx - sx, ty - sy))
  }

  /** The first step of the walk. */
  lemma WalkStarts(b: Board, sx: Coord, sy: Coord, tx: Coord, ty: Coord)
    ensures Walked(b, sx, sy, tx, ty, 1, sx + Step(tx - sx), sy + Step(ty - sy))
  {
  }

  /**
   * A walk standing on a free square other than the destination takes one
   * more step; it had taken fewer than 8 steps.
   */
  lemma WalkContinues(b: Board, sx: Coord, sy: Coord, tx: Coord, ty: Coord, k: int, x: int, y: int)
    requires Walked(b, sx, sy, tx, ty, k, x, y)
    requires OnBoard(x, y) && At(b, x, y) == None
    requires x != tx || y != ty
    ensures k < 8
    ensures Walked(b, sx, sy, tx, ty, k + 1, x + Step(tx - sx), y + Step(ty - sy))
  {
    assert FreeStep(b, sx, sy, tx, ty, k);
  }

  /** A walk that meets a missing or occupied square before reaching the destination is not clear. */
  lemma WalkBlocked(b: Board, sx: Coord, sy: Coord, tx: Coord, ty: Coord, k: int, x: int, y: int)
    requires Walked(b, sx, sy, tx, ty, k, x, y)
    requires !(OnBoard(x, y) && At(b, x, y) == None)
    requires x != tx || y != ty
    ensures !PathClear(b, sx, sy, tx, ty)
  {
    assert !FreeStep(b, sx, sy, tx, ty, k);
  }

  /** A walk that reaches the destination over free squares is clear. */
  lemma WalkArrives(b: Board, sx: Coord, sy: Coord, tx: Coord, ty: Coord, k: int)
    requires Walked(b, sx, sy, tx, ty, k, tx, ty)
    ensures PathClear(b, sx, sy, tx, ty)
  {
  }

  /** The content of the square `k` steps from (sx, sy) toward (tx, ty). */
  function SquareOnPath(b: Board, sx: int, sy: int, tx: int, ty: int, k: int): Option<Piece>
  {
    At(b, Walk(sx, tx - sx, k), Walk(sy, ty - sy, k))
  }

  /**
   * The walk is clear exactly when the line is straight or diagonal and each
   * of the Distance - 1 squares strictly between the endpoints is empty.
   */
  lemma PathClearBetween(b: Board, sx: Coord, sy: Coord, tx: Coord, ty: Coord)
    ensures PathClear(b, sx, sy, tx, ty) <==>
            && Aligned(tx - sx, ty - sy)
            && forall k :: 0 < k < Distance(tx - sx, ty - sy) ==> SquareOnPath(b, sx, sy, tx, ty, k) == None
  {
    if Aligned(tx - sx, ty - sy) {
      forall k | 0 < k < Distance(tx - sx, ty - sy)
        ensures FreeStep(b, sx, sy, tx, ty, k) <==> SquareOnPath(b, sx, sy, tx, ty, k) == None
      {
        WalkBetween(sx, sy, tx, ty, k);
      }
    }
  }

  /** A walk that is not along a straight or diagonal line never reaches its destination, so it is never clear. */
  lemma CrookedPathBlocked(b: Board, sx: Coord, sy: Coord, tx: Coord, ty: Coord)
    requires !Aligned(tx - sx, ty - sy)
    ensures !PathClear(b, sx, sy, tx, ty)
  {
  }

  /** The contents of the source and destination squares never affect whether the path is clear. */
  lemma PathClearIgnoresEndpoints(b: Board, sx: Coord, sy: Coord, tx: Coord, ty: Coord, atSource: Option<Piece>, atTarget: Option<Piece>)
    ensures PathClear(Put(Put(b, sx, sy, atSource), tx, ty, atTarget), sx, sy, tx, ty) == PathClear(b, sx, sy, tx, ty)
  {
    var b' := Put(Put(b, sx, sy, atSource), tx, ty, atTarget);
    if Aligned(tx - sx, ty - sy) {
      forall k | 0 < k < Distance(tx - sx, ty - sy)
        ensures FreeStep(b', sx, sy, tx, ty, k) == FreeStep(b, sx, sy, tx, ty, k)
      {
        WalkBetween(sx, sy, tx, ty, k);
      }
    }
  }

  /** An occupied square strictly between the endpoints of a line blocks it. */
  lemma OccupiedSquareBlocks(b: Board, sx: Coord, sy: Coord, tx: Coord, ty: Coord, k: int)
    requires 0 < k < Distance(tx - sx, ty - sy)
    requires SquareOnPath(b, sx, sy, tx, ty, k).Some?
    ensures !PathClear(b, sx, sy, tx, ty)
  {
    assert !FreeStep(b, sx, sy, tx, ty, k);
  }

  /** Neighbouring squares and a square itself are always reachable: there is nothing strictly between. */
  lemma AdjacentPathClear(b: Board, sx: Coord, sy: Coord, tx: Coord, ty: Coord)
    requires Abs(tx - sx) <= 1 && Abs(ty - sy) <= 1
    ensures PathClear(b, sx, sy, tx, ty)
  {
  }

  // ---------------------------------------------------------------------------
  // Properties of the movement rules

  /**
   * A pawn moving straight needs an empty destination; then one row in its
   * direction is legal, two rows only from its start row over an empty
   * square, and no other straight move.
   */
  lemma PawnStraightMove(b: Board, st: State, pawn: Piece, src: Square, dst: Square)
    requires pawn.kind == Pawn && dst.x == src.x
    ensures CanMove(b, st, pawn, src, dst) <==>
            && At(b, dst.x, dst.y) == None
            && (|| dst.y - src.y == Direction(pawn.owner)
                || (&& dst.y - src.y == 2 * Direction(pawn.owner)
                    && src.y == StartRow(pawn.owner)
                    && At(b, src.x, src.y + Direction(pawn.owner)) == None))
  {
  }

  /**
   * A pawn stepping one column aside and one row forward is legal exactly
   * when it takes a piece of the other player, or lands on the empty
   * en-passant target.
   */
  lemma PawnDiagonalMove(b: Board, st: State, pawn: Piece, src: Square, dst: Square)
    requires pawn.kind == Pawn && Abs(dst.x - src.x) == 1 && dst.y - src.y == Direction(pawn.owner)
    ensures CanMove(b, st, pawn, src, dst) <==>
            || (At(b, dst.x, dst.y).Some? && At(b, dst.x, dst.y).value.owner != pawn.owner)
            || (At(b, dst.x, dst.y) == None && dst.x == st.epX && dst.y == st.epY)
  {
  }

  /** A pawn never moves sideways, backward, more than one column or more than two rows. */
  lemma PawnMoveShape(b: Board, st: State, pawn: Piece, src: Square, dst: Square)
    requires pawn.kind == Pawn && CanMove(b, st, pawn, src, dst)
    ensures Abs(dst.x - src.x) <= 1
    ensures dst.y - src.y == Direction(pawn.owner) || (dst.x == src.x && dst.y - src.y == 2 * Direction(pawn.owner))
  {
  }

  /** No piece may stay where it is. */
  lemma NoNullMove(b: Board, st: State, p: Piece, sq: Square)
    ensures !CanMove(b, st, p, sq, sq)
  {
  }

  /**
   * For knights, bishops, rooks and queens a move and an attack are the same
   * thing; so is a king's one-square step.
   */
  lemma MovesAreAttacks(b: Board, st: State, p: Piece, src: Square, dst: Square)
    requires src != dst
    ensures p.kind in {Knight, Bishop, Rook, Queen} ==> (CanMove(b, st, p, src, dst) <==> Attacks(b, p, src, dst.x, dst.y))
    ensures p.kind == King && Abs(dst.x - src.x) <= 1 && Abs(dst.y - src.y) <= 1 ==>
              CanMove(b, st, p, src, dst) && Attacks(b, p, src, dst.x, dst.y)
  {
  }

  /** A pawn's capture of a piece is legal exactly when the pawn attacks that square and the piece is the other player's. */
  lemma PawnCapturesWhereItAttacks(b: Board, st: State, pawn: Piece, src: Square, dst: Square)
    requires pawn.kind == Pawn && At(b, dst.x, dst.y).Some?
    ensures CanMove(b, st, pawn, src, dst) <==>
            Attacks(b, pawn, src, dst.x, dst.y) && At(b, dst.x, dst.y).value.owner != pawn.owner
  {
  }

  /** The rule leaves destinations to the host: a rook may be moved onto a piece of its own player. */
  lemma OwnPieceDestinationAllowed()
    ensures var b := Put(Put(EmptyBoard(), 0, 0, Some(Piece(Rook, White))), 0, 1, Some(Piece(Knight, White)));
            CanMove(b, InitialState(), Piece(Rook, White), Square(0, 0), Square(0, 1))
  {
    var b := Put(Put(EmptyBoard(), 0, 0, Some(Piece(Rook, White))), 0, 1, Some(Piece(Knight, White)));
    AdjacentPathClear(b, 0, 0, 0, 1);
  }

  // ---------------------------------------------------------------------------
  // Properties of attack detection

  /** A pawn attacks exactly the two squares diagonally in front of it, whatever they hold. */
  lemma PawnAttacksExactly(b: Board, pawn: Piece, src: Square, tx: Coord, ty: Coord)
    requires pawn.kind == Pawn
    ensures Attacks(b, pawn, src, tx, ty) <==>
            ty == src.y + Direction(pawn.owner) && (tx == src.x - 1 || tx == src.x + 1)
  {
  }

  /** A king attacks exactly the eight squares around it and never its own. */
  lemma KingAttacksExactly(b: Board, king: Piece, src: Square, tx: Coord, ty: Coord)
    requires king.kind == King
    ensures Attacks(b, king, src, tx, ty) <==>
            (tx, ty) != (src.x, src.y) && src.x - 1 <= tx <= src.x + 1 && src.y - 1 <= ty <= src.y + 1
  {
  }

  /** A bishop, rook or queen counts as attacking its own square: the walk toward it is empty. */
  lemma SliderAttacksOwnSquare(b: Board, p: Piece, src: Square)
    requires p.kind in {Bishop, Rook, Queen}
    ensures Attacks(b, p, src, src.x, src.y)
  {
  }

  /** A target is attacked exactly when one of the attacker's pieces on the board attacks it. */
  lemma UnderAttackWitness(b: Board, tx: Coord, ty: Coord, attacker: Player, px: Coord, py: Coord)
    requires At(b, px, py).Some? && At(b, px, py).value.owner == attacker
    requires Attacks(b, At(b, px, py).value, Square(px, py), tx, ty)
    ensures UnderAttack(b, tx, ty, attacker)
  {
    assert AttackerOn(b, px, py, tx, ty, attacker);
  }

  /** A board holding no piece of the attacker attacks nothing. */
  lemma NoAttackerNoAttack(b: Board, tx: Coord, ty: Coord, attacker: Player)
    requires forall x: Coord, y: Coord :: At(b, x, y).Some? ==> At(b, x, y).value.owner != attacker
    ensures !UnderAttack(b, tx, ty, attacker)
  {
  }

  // ---------------------------------------------------------------------------
  // Properties of castling

  /** A king may move two columns only by castling, and every condition of castling then holds. */
  lemma KingTwoColumnsOnlyByCastling(b: Board, st: State, king: Piece, src: Square, dst: Square)
    requires king.kind == King && Abs(dst.x - src.x) == 2
    ensures CanMove(b, st, king, src, dst) <==> CastleAllowed(b, st, king, src, dst)
    ensures CanMove(b, st, king, src, dst) ==>
            var side := if dst.x > src.x then KingSide else QueenSide;
            && !KingMoved(st, king.owner) && !RookMoved(st, king.owner, side)
            && src.y == dst.y
            && At(b, RookColumn(side), src.y) == Some(Piece(Rook, king.owner))
            && !UnderAttack(b, src.x, src.y, Opponent(king.owner))
            && !UnderAttack(b, dst.x, dst.y, Opponent(king.owner))
  {
  }

  /** A king whose flag is set moves only to a neighbouring square. */
  lemma MovedKingOnlySteps(b: Board, st: State, king: Piece, src: Square, dst: Square)
    requires king.kind == King && KingMoved(st, king.owner) && CanMove(b, st, king, src, dst)
    ensures Abs(dst.x - src.x) <= 1 && Abs(dst.y - src.y) <= 1
  {
  }

  /** Castling passes over the square next to the king: it is empty and not attacked. */
  lemma CastlingCrossesEmptySafeSquare(b: Board, st: State, king: Piece, src: Square, dst: Square)
    requires CastleAllowed(b, st, king, src, dst)
    ensures var step := if dst.x > src.x then 1 else -1;
            && OnBoard(src.x + step, src.y)
            && At(b, src.x + step, src.y) == None
            && !UnderAttack(b, src.x + step, src.y, Opponent(king.owner))
  {
    var step := if dst.x > src.x then 1 else -1;
    var rookX := RookColumn(if dst.x > src.x then KingSide else QueenSide);
    assert StrictlyBetween(src.x + step, src.x, rookX);
  }
}
