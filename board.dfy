/**
 * The 8x8 board as a value: 64 optional pieces in row-major order (row 0
 * first, column 0 first within a row), the order in which the grid visits its
 * squares. Column 0 is file a, row 0 is rank 1.
 */
module Board {
  import opened Pieces

  /** A column or row index of a square on the board. */
  type Coord = i: int | 0 <= i < 8

  /** A square of the grid, addressed by column `x` and row `y`. */
  datatype Square = Square(x: Coord, y: Coord)

  type Board = b: seq<Option<Piece>> | |b| == 64 witness EmptyBoard()

  predicate OnBoard(x: int, y: int)
  {
    0 <= x < 8 && 0 <= y < 8
  }

  /** Position of square (x, y) in row-major order. */
  function Index(x: Coord, y: Coord): (i: nat)
    ensures i < 64
    ensures i / 8 == y && i % 8 == x
  {
    y * 8 + x
  }

  function EmptyBoard(): (b: seq<Option<Piece>>)
    ensures |b| == 64
    ensures forall i :: 0 <= i < 64 ==> b[i] == None
  {
    seq(64, i => None)
  }

  /** The content of square (x, y); a coordinate off the board has no square and reads as empty. */
  function At(b: Board, x: int, y: int): Option<Piece>
  {
    if OnBoard(x, y) then b[Index(x, y)] else None
  }

  /** Puts `cell` on square (x, y) and leaves every other square as it was. */
  function Put(b: Board, x: Coord, y: Coord, cell: Option<Piece>): (r: Board)
    ensures At(r, x, y) == cell
    ensures forall u, v :: (u != x || v != y) ==> At(r, u, v) == At(b, u, v)
  {
    b[Index(x, y) := cell]
  }

  function Abs(n: int): nat
  {
    if n < 0 then -n else n
  }
}
