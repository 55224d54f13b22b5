/**
 * The chess engine object: the grid of squares and the castling and
 * en-passant state it updates in place. Each method is proved against the
 * pure definitions of modules Rules, Moves and Codec.
 */
module Engine {
  import opened Pieces
  import opened Board
  import opened Rules
  import opened Moves
  import opened Codec

  /** The FEN record of the standard starting position that a new game is set up from. */
  const StartFen: string := "rnbqkbnr/pppppppp/8/8/8/8/PPPPPPPP/RNBQKBNR b KQkq - 0 1"

  class Chess {
    /** The 64 squares in row-major order; square (x, y) is `board[Index(x, y)]`. */
    var board: array<Option<Piece>>
    /** `kingMoved[n]`: player n's king has moved. */
    var kingMoved: array<bool>
    /** `rookMoved[n, 0]` / `rookMoved[n, 1]`: player n's queen-side / king-side rook has moved or was captured. */
    var rookMoved: array2<bool>
    var enPassantTargetX: int
    var enPassantTargetY: int
    /** The FEN record a game is set up from; always StartFen, kept as a field so that proofs about setting up never unfold the literal. */
    const startFen: string

    ghost predicate Valid()
      reads this
    {
      board.Length == 64 && kingMoved.Length == 2 && rookMoved.Length0 == 2 && rookMoved.Length1 == 2
    }

    /** The board as a value. */
    function Cells(): Board
      reads this, board
      requires Valid()
    {
      board[..]
    }

    /** The castling and en-passant state as a value. */
    function State(): Rules.State
      reads this, kingMoved, rookMoved
      requires Valid()
    {
      EngineState(kingMoved[..],
                  [[rookMoved[0, 0], rookMoved[0, 1]], [rookMoved[1, 0], rookMoved[1, 1]]],
                  enPassantTargetX, enPassantTargetY)
    }

    /** A new engine: an empty board, no king or rook moved, no en-passant target. */
    constructor ()
      ensures Valid() && fresh(board) && fresh(kingMoved) && fresh(rookMoved)
      ensures Cells() == EmptyBoard() && State() == InitialState()
      ensures startFen == StartFen
    {
      startFen := StartFen;
      board := new Option<Piece>[64](i => None);
      kingMoved := new bool[2](i => false);
      rookMoved := new bool[2, 2]((i, j) => false);
      enPassantTargetX := -1;
      enPassantTargetY := -1;
    }

    /** Walks the squares strictly between source and destination; an occupied or missing square blocks. */
    method IsPathClear(srcX: Coord, srcY: Coord, dstX: Coord, dstY: Coord) returns (clear: bool)
      requires Valid()
      ensures clear == PathClear(Cells(), srcX, srcY, dstX, dstY)
    {
      var stepX := if dstX > srcX then 1 else if dstX < srcX then -1 else 0;
      var stepY := if dstY > srcY then 1 else if dstY < srcY then -1 else 0;
      assert stepX == Step(dstX - srcX) && stepY == Step(dstY - srcY);
      ghost var k := 1;
      ghost var cells := Cells();
      var x := srcX + stepX;
      var y := srcY + stepY;
      WalkStarts(cells, srcX, srcY, dstX, dstY);
      while x != dstX || y != dstY
        invariant 1 <= k <= 8
        invariant Walked(cells, srcX, srcY, dstX, dstY, k, x, y)
        decreases 8 - k
      {
        if !OnBoard(x, y) || board[Index(x, y)].Some? {
          WalkBlocked(cells, srcX, srcY, dstX, dstY, k, x, y);
          return false;
        }
        WalkContinues(cells, srcX, srcY, dstX, dstY, k, x, y);
        x := x + stepX;
        y := y + stepY;
        k := k + 1;
      }
      WalkArrives(cells, srcX, srcY, dstX, dstY, k);
      return true;
    }

    /** Scans the board row by row for a piece of `attacker` that attacks square (x, y). */
    method IsSquareUnderAttack(x: Coord, y: Coord, attacker: Player) returns (attacked: bool)
      requires Valid()
      ensures attacked == UnderAttack(Cells(), x, y, attacker)
    {
      var boardY := 0;
      while boardY < 8
        invariant 0 <= boardY <= 8
        invariant forall px: Coord, py: Coord :: py < boardY ==> !AttackerOn(Cells(), px, py, x, y, attacker)
      {
        var boardX := 0;
        while boardX < 8
          invariant 0 <= boardX <= 8
          invariant forall px: Coord, py: Coord :: (py < boardY || (py == boardY && px < boardX)) ==>
                      !AttackerOn(Cells(), px, py, x, y, attacker)
        {
          var cell := board[Index(boardX, boardY)];
          if cell.Some? && cell.value.owner == attacker {
            if Attacks(Cells(), cell.value, Square(boardX, boardY), x, y) {
              assert AttackerOn(Cells(), boardX, boardY, x, y, attacker);
              return true;
            }
          }
          boardX := boardX + 1;
        }
        boardY := boardY + 1;
      }
      return false;
    }

    /**
     * The castling check: the king and the side's rook are unmoved, the rook
     * is in its corner, the squares between are empty and the king does not
     * start on, cross or land on an attacked square.
     */
    method CanCastle(king: Piece, src: Square, dst: Square) returns (ok: bool)
      requires Valid()
      ensures ok == CastleAllowed(Cells(), State(), king, src, dst)
    {
      if king.kind != King {
        return false;
      }
      var n := PlayerNumber(king.owner);
      if kingMoved[n] {
        return false;
      }
      var dx := dst.x - src.x;
      if src.y != dst.y || Abs(dx) != 2 {
        return false;
      }
      var kingSide := dx > 0;
      if rookMoved[n, if kingSide then KingSide else QueenSide] {
        return false;
      }
      var rookX: Coord := if kingSide then 7 else 0;
      var rook := board[Index(rookX, src.y)];
      if rook.None? {
        return false;
      }
      if rook.value.owner != king.owner || rook.value.kind != Rook {
        return false;
      }
      var step := if kingSide then 1 else -1;
      var x := src.x + step;
      while x != rookX
        invariant StrictlyBetween(x, src.x, rookX) || x == rookX
        invariant forall u :: 0 <= u < 8 && StrictlyBetween(u, src.x, x) ==> At(Cells(), u, src.y) == None
        decreases Abs(rookX - x)
      {
        if board[Index(x, src.y)].Some? {
          assert StrictlyBetween(x, src.x, rookX) && At(Cells(), x, src.y) != None;
          return false;
        }
        x := x + step;
      }
      var opponent := Opponent(king.owner);
      var attacked := IsSquareUnderAttack(src.x, src.y, opponent);
      if attacked {
        return false;
      }
      attacked := IsSquareUnderAttack(src.x + step, src.y, opponent);
      if attacked {
        return false;
      }
      attacked := IsSquareUnderAttack(dst.x, dst.y, opponent);
      if attacked {
        return false;
      }
      return true;
    }

    /** The move-legality check: the per-piece rules, with castling for a king that moves two columns. */
    method CanBitMoveFromTo(p: Piece, src: Square, dst: Square) returns (legal: bool)
      requires Valid()
      ensures legal == CanMove(Cells(), State(), p, src, dst)
    {
      if src == dst {
        return false;
      }
      var dx := dst.x - src.x;
      var dy := dst.y - src.y;
      match p.kind
      case Pawn =>
        legal := PawnCanMove(Cells(), enPassantTargetX, enPassantTargetY, p, src, dst);
      case Knight =>
        legal := KnightJump(dx, dy);
      case Bishop =>
        legal := false;
        if Abs(dx) == Abs(dy) {
          legal := IsPathClear(src.x, src.y, dst.x, dst.y);
        }
      case Rook =>
        legal := false;
        if dx == 0 || dy == 0 {
          legal := IsPathClear(src.x, src.y, dst.x, dst.y);
        }
      case Queen =>
        legal := false;
        if dx == 0 || dy == 0 || Abs(dx) == Abs(dy) {
          legal := IsPathClear(src.x, src.y, dst.x, dst.y);
        }
      case King =>
        if Abs(dx) <= 1 && Abs(dy) <= 1 {
          return true;
        }
        legal := CanCastle(p, src, dst);
    }

    /** Records that player n's rook on `side` has moved or was captured. */
    method SetRookFlag(n: nat, side: nat)
      requires Valid() && n < 2 && side < 2
      modifies rookMoved
      ensures State() == SetRookMoved(old(State()), n, side)
    {
      ghost var before := State();
      rookMoved[n, side] := true;
      ghost var row := before.rookMoved[n][side := true];
      assert State().rookMoved[n] == row;
      assert State().rookMoved[1 - n] == before.rookMoved[1 - n];
      assert State().rookMoved == before.rookMoved[n := row];
    }

    /** Sets the moving king's flag, or the flag of the corner a moving rook leaves. */
    method MarkCastlingStateForMove(p: Piece, src: Square)
      requires Valid()
      modifies kingMoved, rookMoved
      ensures State() == MarkForMove(old(State()), p, src)
    {
      var n := PlayerNumber(p.owner);
      if p.kind == King {
        kingMoved[n] := true;
        return;
      }
      if p.kind != Rook {
        return;
      }
      if src.y == (if n == 0 then 0 else 7) {
        if src.x == 0 {
          SetRookFlag(n, QueenSide);
        } else if src.x == 7 {
          SetRookFlag(n, KingSide);
        }
      }
    }

    /** Sets the flag of the corner on which a rook is captured, for the rook's own owner. */
    method MarkCastlingStateForCapturedPiece(p: Piece, sq: Square)
      requires Valid()
      modifies rookMoved
      ensures State() == MarkForCapture(old(State()), p, sq)
    {
      if p.kind != Rook {
        return;
      }
      var n := PlayerNumber(p.owner);
      if sq.y == (if n == 0 then 0 else 7) {
        if sq.x == 0 {
          SetRookFlag(n, QueenSide);
        } else if sq.x == 7 {
          SetRookFlag(n, KingSide);
        }
      }
    }

    /** The host's capture notification: a captured piece and the square that held it. */
    method PieceTaken(taken: Option<Piece>, holder: Option<Square>)
      requires Valid()
      modifies rookMoved
      ensures State() == Moves.PieceTaken(old(State()), taken, holder)
    {
      if taken.None? {
        return;
      }
      if holder.None? {
        return;
      }
      MarkCastlingStateForCapturedPiece(taken.value, holder.value);
    }

    /**
     * Commits a move the host has already made (the mover stands on `dst`):
     * castling bookkeeping, a fresh en-passant target, the castling rook, an
     * en-passant capture and promotion.
     */
    method BitMovedFromTo(p: Piece, src: Square, dst: Square)
      requires Valid()
      modifies this`enPassantTargetX, this`enPassantTargetY, board, kingMoved, rookMoved
      ensures Cells() == CommitBoard(old(Cells()), old(State()), p, src, dst)
      ensures State() == CommitState(old(State()), p, src, dst)
    {
      var previousX, previousY := enPassantTargetX, enPassantTargetY;
      MarkCastlingStateForMove(p, src);
      enPassantTargetX := -1;
      enPassantTargetY := -1;
      if p.kind == King && Abs(dst.x - src.x) == 2 && dst.y == src.y {
        MoveCastlingRook(src, dst);
      }
      if p.kind == Pawn {
        CommitPawnMove(p, src, dst, previousX, previousY);
      }
    }

    /** Castling: whatever stands on the rook's corner goes next to the king's destination. */
    method MoveCastlingRook(src: Square, dst: Square)
      requires Valid() && Abs(dst.x - src.x) == 2
      modifies board
      ensures Cells() == RelocateRook(old(Cells()), src, dst)
    {
      var kingSide := dst.x > src.x;
      var rookSource := Index(if kingSide then 7 else 0, src.y);
      var rookDestination := Index(if kingSide then dst.x - 1 else dst.x + 1, src.y);
      if board[rookSource].Some? {
        var rook := board[rookSource];
        board[rookDestination] := rook;
        board[rookSource] := None;
      }
    }

    /**
     * A pawn's part of the commit, given the en-passant target before the
     * move: the capture en passant, the new target after a two-row move, and
     * the promotion.
     */
    method CommitPawnMove(p: Piece, src: Square, dst: Square, previousX: int, previousY: int)
      requires Valid() && p.kind == Pawn
      modifies board, this`enPassantTargetX, this`enPassantTargetY
      ensures Cells() == PawnEffects(old(Cells()), previousX, previousY, p, src, dst)
      ensures if Abs(dst.y - src.y) == 2
              then enPassantTargetX == src.x && enPassantTargetY == src.y + Direction(p.owner)
              else enPassantTargetX == old(enPassantTargetX) && enPassantTargetY == old(enPassantTargetY)
    {
      var direction := if PlayerNumber(p.owner) == 0 then 1 else -1;
      if src.x != dst.x && previousX == dst.x && previousY == dst.y {
        if OnBoard(dst.x, dst.y - direction) {
          board[Index(dst.x, dst.y - direction)] := None;
        }
      }
      if Abs(dst.y - src.y) == 2 {
        enPassantTargetX := src.x;
        enPassantTargetY := src.y + direction;
      }
      var promotionRank := if PlayerNumber(p.owner) == 0 then 7 else 0;
      if dst.y == promotionRank {
        board[Index(dst.x, dst.y)] := Some(Piece(Queen, p.owner));
      }
    }

    /** Empties every square. */
    method ClearBoard()
      requires Valid()
      modifies board
      ensures Cells() == EmptyBoard()
    {
      var i := 0;
      while i < 64
        invariant 0 <= i <= 64
        invariant forall j :: 0 <= j < i ==> board[j] == None
      {
        board[i] := None;
        i := i + 1;
      }
    }

    /**
     * Starts a game: castling rights fully available again, no en-passant
     * target, and the starting position imported from its FEN record.
     */
    method SetUpBoard()
      requires Valid()
      modifies this, board, kingMoved, rookMoved
      ensures Valid() && board == old(board) && kingMoved == old(kingMoved) && rookMoved == old(rookMoved)
      ensures State() == InitialState()
      ensures Cells() == FenToBoard(startFen, old(Cells()))
    {
      kingMoved[0], kingMoved[1] := false, false;
      rookMoved[0, 0], rookMoved[0, 1] := false, false;
      rookMoved[1, 0], rookMoved[1, 1] := false, false;
      enPassantTargetX := -1;
      enPassantTargetY := -1;
      FENtoBoard(startFen);
    }

    /**
     * Imports the placement field of a FEN record: nothing happens without
     * one; otherwise the board is emptied and the pieces are placed one
     * character at a time until the field ends or a character is malformed.
     */
    method FENtoBoard(fen: string)
      requires Valid()
      modifies board
      ensures Cells() == FenToBoard(fen, old(Cells()))
    {
      var placement := PlacementField(fen);
      if |placement| == 0 {
        return;
      }
      ClearBoard();
      var x: nat := 0;
      var y := 7;
      var i := 0;
      while i < |placement|
        invariant 0 <= i <= |placement|
        invariant x <= 8 && 0 <= y <= 7
        invariant PlaceFrom(placement[i..], x, y, Cells()) == PlaceFrom(placement, 0, 7, EmptyBoard())
      {
        var c := placement[i];
        assert placement[i..][0] == c && placement[i..][1..] == placement[i + 1..];
        if c == '/' {
          if x != 8 {
            return;
          }
          x := 0;
          y := y - 1;
          if y < 0 {
            return;
          }
          i := i + 1;
          continue;
        }
        if IsDigit(c) {
          x := x + (c as int - '0' as int);
          if x > 8 {
            return;
          }
          i := i + 1;
          continue;
        }
        var kind := KindOfLetter(ToLower(c));
        if kind.None? {
          return;
        }
        if x >= 8 || y < 0 || y > 7 {
          return;
        }
        var owner := if IsUpper(c) then White else Black;
        board[Index(x, y)] := Some(Piece(kind.value, owner));
        x := x + 1;
        i := i + 1;
      }
    }

    /** Ends a game: every square is emptied and the en-passant target is cleared; the castling flags stay. */
    method StopGame()
      requires Valid()
      modifies board, this`enPassantTargetX, this`enPassantTargetY
      ensures Cells() == EmptyBoard()
      ensures State() == old(State()).(epX := -1, epY := -1)
    {
      enPassantTargetX := -1;
      enPassantTargetY := -1;
      ClearBoard();
    }

    /** The state string of the board, built square by square in row-major order. */
    method StateString() returns (s: string)
      requires Valid()
      ensures s == Codec.StateString(Cells())
    {
      s := "";
      var y := 0;
      while y < 8
        invariant 0 <= y <= 8
        invariant |s| == y * 8
        invariant forall i :: 0 <= i < |s| ==> s[i] == PieceNotation(board[i])
      {
        var x := 0;
        while x < 8
          invariant 0 <= x <= 8
          invariant |s| == y * 8 + x
          invariant forall i :: 0 <= i < |s| ==> s[i] == PieceNotation(board[i])
        {
          s := s + [PieceNotation(board[Index(x, y)])];
          x := x + 1;
        }
        y := y + 1;
      }
      assert s == Codec.StateString(Cells());
    }

    /** Reads a state string: square y * 8 + x becomes empty or a pawn of the player its digit names. */
    method SetStateString(s: string)
      requires Valid()
      requires |s| >= 63
      modifies board
      ensures Cells() == BoardOfDigits(s)
    {
      var y := 0;
      while y < 8
        invariant 0 <= y <= 8
        invariant forall i :: 0 <= i < y * 8 ==> board[i] == CellOfDigit(CharAt(s, i))
      {
        var x := 0;
        while x < 8
          invariant 0 <= x <= 8
          invariant forall i :: 0 <= i < y * 8 + x ==> board[i] == CellOfDigit(CharAt(s, i))
        {
          var index := y * 8 + x;
          var playerNumber := CharMinusZero(CharAt(s, index));
          if playerNumber != 0 {
            board[index] := Some(Piece(Pawn, if playerNumber - 1 == 0 then White else Black));
          } else {
            board[index] := None;
          }
          x := x + 1;
        }
        y := y + 1;
      }
    }
  }
}
