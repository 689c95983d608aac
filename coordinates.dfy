/**
 * Coordinate helpers of the board (src/board/chess_board.py): each colour sees the board from
 * its own side. White numbers the squares a1 = 0 ... h8 = 63 rank by rank; Black numbers them
 * in reverse, so for both colours "forward" is +8 and "right" is +1.
 */
module Coordinates {
  import opened Wrappers
  import opened Exceptions
  import opened ChessHelper
  import opened Pieces

  const Dimension: int := 8

  predicate OnBoard(col: int, row: int) { 0 <= col < 8 && 0 <= row < 8 }

  /**
   * `position_to_row_and_column` for a position that passed validation: (column, row) with the
   * colour's bottom-left corner as origin. Rank 0 gives row -1 (White) or 8 (Black).
   */
  function ColumnRow(p: string, c: Color): (cr: (int, int))
    requires IsValidPosition(p)
    ensures |p| == 2 ==> (IsSquare(p) <==> OnBoard(cr.0, cr.1))
    ensures c == Black ==> cr == (7 - (p[0] as int - 'a' as int), 7 - (p[1] as int - '1' as int))
  {
    var file := p[0] as int - 'a' as int;
    var rank := p[1] as int - '0' as int;
    if c == White then (file, rank - 1) else (7 - file, 8 - rank)
  }

  function PositionToRowAndColumn(p: string, c: Color): (r: Result<(int, int), Error>)
    ensures r.Ok? <==> IsValidPosition(p)
  {
    if IsValidPosition(p) then Ok(ColumnRow(p, c)) else Err(InvalidPosition(p))
  }

  /** The index of a square in colour c's numbering. */
  function Index(p: string, c: Color): int
    requires IsSquare(p)
  {
    8 * ColumnRow(p, c).1 + ColumnRow(p, c).0
  }

  /** The square with index i in colour c's numbering. */
  function SquareOf(i: int, c: Color): (p: string)
    requires 0 <= i < 64
    ensures IsSquare(p)
  {
    var w := if c == White then i else 63 - i;
    [('a' as int + w % 8) as char, ('1' as int + w / 8) as char]
  }

  /** The square at (column, row) as colour c sees the board. */
  function SquareAt(col: int, row: int, c: Color): string
    requires OnBoard(col, row)
  {
    SquareOf(8 * row + col, c)
  }

  lemma DivMod8(n: int, q: int, r: int)
    requires n == 8 * q + r && 0 <= r < 8
    ensures n / 8 == q && n % 8 == r
  {
  }

  /** SquareOf and Index are inverse bijections between 0..63 and the 64 squares. */
  lemma SquareOfIndex(i: int, c: Color)
    requires 0 <= i < 64
    ensures IsSquare(SquareOf(i, c))
    ensures Index(SquareOf(i, c), c) == i
    ensures ColumnRow(SquareOf(i, c), c) == (i % 8, i / 8)
  {
    var w := if c == White then i else 63 - i;
    DivMod8(i, i / 8, i % 8);
    DivMod8(63 - i, 7 - i / 8, 7 - i % 8);
    assert SquareOf(i, c)[1] as int - '0' as int == w / 8 + 1;
  }

  lemma IndexOfSquare(p: string, c: Color)
    requires IsSquare(p)
    ensures 0 <= Index(p, c) < 64
    ensures SquareOf(Index(p, c), c) == p
  {
    var i := Index(p, c);
    var w := Index(p, White);
    DivMod8(w, p[1] as int - '1' as int, p[0] as int - 'a' as int);
    assert SquareOf(i, c) == SquareOf(w, White);
  }

  lemma SquareAtColumnRow(col: int, row: int, c: Color)
    requires OnBoard(col, row)
    ensures IsSquare(SquareAt(col, row, c)) && ColumnRow(SquareAt(col, row, c), c) == (col, row)
  {
    SquareOfIndex(8 * row + col, c);
    DivMod8(8 * row + col, row, col);
  }

  /** `_is_valid_index`. */
  predicate IsValidIndex(i: int) { 0 <= i < Dimension * Dimension }

  /** `_position_to_index`: InvalidPositionError, then KeyError for a valid text that is not a square. */
  function PositionToIndex(p: string, c: Color): (r: Result<int, Error>)
    ensures r.Ok? <==> IsSquare(p)
    ensures !IsValidPosition(p) ==> r == Err(InvalidPosition(p))
  {
    if !IsValidPosition(p) then Err(InvalidPosition(p))
    else if !IsSquare(p) then Err(KeyError)
    else Ok(Index(p, c))
  }

  /** `_index_to_position`: InvalidIndexError outside 0..63. */
  function IndexToPosition(i: int, c: Color): (r: Result<string, Error>)
    ensures r.Err? <==> !IsValidIndex(i)
    ensures r.Err? ==> r.error == InvalidIndex(i)
  {
    if !IsValidIndex(i) then Err(InvalidIndex(i)) else Ok(SquareOf(i, c))
  }

  /**
   * Index and position round-trip for both colours, and Black's index of a square is 63 minus
   * White's.
   */
  lemma IndexRoundTrip(p: string, c: Color)
    requires IsSquare(p)
    ensures PositionToIndex(p, c).Ok?
    ensures IndexToPosition(PositionToIndex(p, c).value, c) == Ok(p)
    ensures PositionToIndex(p, Black).value == 63 - PositionToIndex(p, White).value
  {
    IndexOfSquare(p, c);
  }

  /** And the other way round: every index 0..63 names a square that maps back to it. */
  lemma PositionRoundTrip(i: int, c: Color)
    requires IsValidIndex(i)
    ensures IndexToPosition(i, c).Ok? && IsSquare(IndexToPosition(i, c).value)
    ensures PositionToIndex(IndexToPosition(i, c).value, c) == Ok(i)
  {
    SquareOfIndex(i, c);
  }

  // ---------------------------------------------------------------------------------------
  // Rays
  // ---------------------------------------------------------------------------------------

  /** PIECE_SHIFTING for the eight ray directions. */
  function PieceShift(d: Direction): int
    requires d != LShape
  {
    match d
    case Forward => 8
    case Backward => -8
    case Left => -1
    case Right => 1
    case FLeftDiag => 7
    case FRightDiag => 9
    case BLeftDiag => -9
    case BRightDiag => -7
  }

  /** PIECE_SHIFTING for L_SHAPE. */
  const KnightShifts: seq<int> := [-17, -15, -10, -6, 6, 10, 15, 17]

  /** The column and row k steps from (col, row) in direction d. */
  function Step(col: int, row: int, d: Direction, k: int): (int, int)
    requires d != LShape
  {
    match d
    case Forward => (col, row + k)
    case Backward => (col, row - k)
    case Left => (col - k, row)
    case Right => (col + k, row)
    case FLeftDiag => (col - k, row + k)
    case FRightDiag => (col + k, row + k)
    case BLeftDiag => (col - k, row - k)
    case BRightDiag => (col + k, row - k)
  }

  /** Moving k steps changes the index by k shifts. */
  lemma StepIndex(col: int, row: int, d: Direction, k: int)
    requires d != LShape
    ensures 8 * Step(col, row, d, k).1 + Step(col, row, d, k).0 == 8 * row + col + k * PieceShift(d)
  {
  }

  /**
   * `_get_direction_square_count`: how many squares lie between p and the edge of the board in
   * direction d (7 for L_SHAPE).
   */
  function DirectionSquareCount(p: string, d: Direction, c: Color): (n: int)
    requires IsSquare(p)
    ensures 0 <= n <= 7
  {
    var (x, y) := ColumnRow(p, c);
    var maxMovement :=
      match d
      case Forward => Dimension - y - 1
      case FRightDiag => Min(Dimension - y - 1, Dimension - x - 1)
      case Right => Dimension - x - 1
      case BRightDiag => Min(y, Dimension - x - 1)
      case Backward => y
      case BLeftDiag => Min(y, x)
      case Left => x
      case FLeftDiag => Min(Dimension - y - 1, x)
      case LShape => Dimension - 1;
    Min(Dimension - 1, maxMovement)
  }

  function Min(a: int, b: int): int { if a < b then a else b }

  /** The square count reaches the last square on the board in direction d and no further. */
  lemma RayReachesEdge(p: string, d: Direction, c: Color)
    requires IsSquare(p) && d != LShape
    ensures var (col, row) := ColumnRow(p, c);
      var n := DirectionSquareCount(p, d, c);
      OnBoard(Step(col, row, d, n).0, Step(col, row, d, n).1) &&
      !OnBoard(Step(col, row, d, n + 1).0, Step(col, row, d, n + 1).1)
  {
  }

  /** The (column, row) k steps from p in direction d, as colour c sees the board. */
  function RayCell(p: string, d: Direction, c: Color, k: int): (int, int)
    requires IsSquare(p) && d != LShape
  {
    Step(ColumnRow(p, c).0, ColumnRow(p, c).1, d, k)
  }

  /** Every step from 0 up to the square count stays on the board. */
  lemma RayStaysOnBoard(p: string, d: Direction, c: Color, k: int)
    requires IsSquare(p) && d != LShape
    requires 0 <= k <= DirectionSquareCount(p, d, c)
    ensures OnBoard(RayCell(p, d, c, k).0, RayCell(p, d, c, k).1)
  {
    RayReachesEdge(p, d, c);
  }

  /** The k-th square (k >= 1) of the ray from p in direction d. */
  function RaySquare(p: string, d: Direction, c: Color, k: int): (q: string)
    requires IsSquare(p) && d != LShape
    requires 1 <= k <= DirectionSquareCount(p, d, c)
    ensures IsSquare(q)
  {
    RayStaysOnBoard(p, d, c, k);
    SquareAt(RayCell(p, d, c, k).0, RayCell(p, d, c, k).1, c)
  }

  lemma RaySquareFacts(p: string, d: Direction, c: Color, k: int)
    requires IsSquare(p) && d != LShape
    requires 1 <= k <= DirectionSquareCount(p, d, c)
    ensures IsSquare(RaySquare(p, d, c, k))
    ensures ColumnRow(RaySquare(p, d, c, k), c) == RayCell(p, d, c, k)
  {
    RayStaysOnBoard(p, d, c, k);
    var (col, row) := RayCell(p, d, c, k);
    SquareAtColumnRow(col, row, c);
  }

  /** One more step moves the index by one shift. */
  lemma StepNext(col: int, row: int, d: Direction, k: int)
    requires d != LShape
    ensures 8 * Step(col, row, d, k + 1).1 + Step(col, row, d, k + 1).0 ==
            8 * Step(col, row, d, k).1 + Step(col, row, d, k).0 + PieceShift(d)
    ensures Step(col, row, d, 0) == (col, row)
  {
  }

  /**
   * The L_SHAPE guard in index terms: the hop stays in 0..63, lands on another row and at
   * most two columns away (row and column of an index are its quotient and remainder by 8).
   */
  predicate KnightKeeps(i: int, shift: int)
  {
    var n := i + shift;
    0 <= n < 64 && n / 8 != i / 8 && Abs(n % 8 - i % 8) <= 2
  }

  function Abs(x: int): int { if x < 0 then -x else x }

  /**
   * One round of the L_SHAPE loop from index i: the candidate index must lie in 0..63, and
   * its square must be on another row and at most two columns away.
   */
  function KnightStep(i: int, shift: int, c: Color): seq<string>
    requires 0 <= i < 64
  {
    var next := IndexToPosition(i + shift, c);
    if next.Err? then []
    else
      var here := ColumnRow(SquareOf(i, c), c);
      var there := ColumnRow(next.value, c);
      if here.1 != there.1 && Abs(there.0 - here.0) <= 2 then [next.value] else []
  }

  /** The knight squares produced by the first j hop offsets from index i, in offset order. */
  function KnightPrefix(i: int, c: Color, j: int): seq<string>
    requires 0 <= i < 64 && 0 <= j <= |KnightShifts|
  {
    if j == 0 then [] else KnightPrefix(i, c, j - 1) + KnightStep(i, KnightShifts[j - 1], c)
  }

  /** What `_get_possible_positions` returns. */
  function PossiblePositionsSpec(p: string, d: Direction, c: Color): seq<string>
    requires IsSquare(p)
  {
    IndexOfSquare(p, c);
    if d == LShape then KnightPrefix(Index(p, c), c, |KnightShifts|)
    else RayPrefix(p, d, c, DirectionSquareCount(p, d, c))
  }

  /** The first n squares of the ray from p in direction d, nearest first. */
  function RayPrefix(p: string, d: Direction, c: Color, n: int): (r: seq<string>)
    requires IsSquare(p) && d != LShape
    requires 0 <= n <= DirectionSquareCount(p, d, c)
    ensures |r| == n
  {
    if n == 0 then [] else RayPrefix(p, d, c, n - 1) + [RaySquare(p, d, c, n)]
  }

  lemma {:induction false} RayPrefixAt(p: string, d: Direction, c: Color, n: int, k: int)
    requires IsSquare(p) && d != LShape
    requires 0 <= k < n <= DirectionSquareCount(p, d, c)
    ensures RayPrefix(p, d, c, n)[k] == RaySquare(p, d, c, k + 1)
  {
    if k < n - 1 {
      RayPrefixAt(p, d, c, n - 1, k);
      RayPrefixKeeps(p, d, c, n, k);
    } else {
      RayPrefixLast(p, d, c, n, k);
    }
  }

  /** Lengthening the prefix keeps its squares and puts the n-th square last. */
  lemma RayPrefixKeeps(p: string, d: Direction, c: Color, n: int, k: int)
    requires IsSquare(p) && d != LShape
    requires 0 <= k < n - 1 && n <= DirectionSquareCount(p, d, c)
    ensures RayPrefix(p, d, c, n)[k] == RayPrefix(p, d, c, n - 1)[k]
  {
  }

  lemma RayPrefixLast(p: string, d: Direction, c: Color, n: int, k: int)
    requires IsSquare(p) && d != LShape
    requires 0 <= k == n - 1 && n <= DirectionSquareCount(p, d, c)
    ensures RayPrefix(p, d, c, n)[k] == RaySquare(p, d, c, k + 1)
  {
  }

  lemma {:induction false} KnightPrefixSquares(i: int, c: Color, j: int)
    requires 0 <= i < 64 && 0 <= j <= |KnightShifts|
    ensures forall q :: q in KnightPrefix(i, c, j) ==> IsSquare(q)
  {
    if j > 0 {
      KnightPrefixSquares(i, c, j - 1);
    }
  }

  lemma {:induction false} RayPrefixSquares(p: string, d: Direction, c: Color, n: int)
    requires IsSquare(p) && d != LShape
    requires 0 <= n <= DirectionSquareCount(p, d, c)
    ensures forall q :: q in RayPrefix(p, d, c, n) ==> IsSquare(q)
  {
    if n > 0 {
      RayPrefixSquares(p, d, c, n - 1);
    }
  }

  /** Every projected position is a square of the board. */
  lemma PossibleSquares(p: string, d: Direction, c: Color)
    requires IsSquare(p)
    ensures forall q :: q in PossiblePositionsSpec(p, d, c) ==> IsSquare(q)
  {
    if d == LShape {
      IndexOfSquare(p, c);
      KnightPrefixSquares(Index(p, c), c, |KnightShifts|);
    } else {
      RayPrefixSquares(p, d, c, DirectionSquareCount(p, d, c));
    }
  }

  /**
   * `_get_possible_positions` for a square (the board calls it with nothing else): the
   * squares in direction d nearest first, or the knight squares in offset order.
   */
  method PossiblePositions(p: string, d: Direction, c: Color) returns (positions: seq<string>)
    requires IsSquare(p)
    ensures positions == PossiblePositionsSpec(p, d, c)
  {
    if d == LShape {
      positions := KnightPositions(p, c);
    } else {
      positions := RayPositions(p, d, c);
    }
  }

  /** The row and column of a square are the quotient and remainder of its index by 8. */
  lemma ColumnRowOfIndex(p: string, c: Color)
    requires IsSquare(p)
    ensures ColumnRow(p, c) == (Index(p, c) % 8, Index(p, c) / 8)
  {
    IndexOfSquare(p, c);
    SquareOfIndex(Index(p, c), c);
  }

  /** The same rounds stated with the index guard KnightKeeps. */
  function KeptStep(i: int, shift: int, c: Color): seq<string>
  {
    if KnightKeeps(i, shift) then [SquareOf(i + shift, c)] else []
  }

  function KeptPrefix(i: int, c: Color, j: int): seq<string>
    requires 0 <= j <= |KnightShifts|
  {
    if j == 0 then [] else KeptPrefix(i, c, j - 1) + KeptStep(i, KnightShifts[j - 1], c)
  }

  /** The row/column test of one L_SHAPE round is the index guard KnightKeeps. */
  lemma KnightStepKeeps(i: int, shift: int, c: Color)
    requires 0 <= i < 64
    ensures KnightStep(i, shift, c) == KeptStep(i, shift, c)
  {
    CellOfIndex(i, c);
    if IsValidIndex(i + shift) {
      CellOfIndex(i + shift, c);
    }
  }

  /** The (column, row) cell of the square with index i. */
  lemma CellOfIndex(i: int, c: Color)
    requires 0 <= i < 64
    ensures ColumnRow(SquareOf(i, c), c) == (i % 8, i / 8)
  {
    SquareOfIndex(i, c);
  }

  lemma {:induction false} KnightPrefixKept(i: int, c: Color, j: int)
    requires 0 <= i < 64 && 0 <= j <= |KnightShifts|
    ensures KnightPrefix(i, c, j) == KeptPrefix(i, c, j)
  {
    if j > 0 {
      KnightPrefixKept(i, c, j - 1);
      KnightStepKeeps(i, KnightShifts[j - 1], c);
    }
  }

  /** The L_SHAPE branch: each hop offset in turn, kept when it lands on the board without wrapping. */
  method KnightPositions(p: string, c: Color) returns (positions: seq<string>)
    requires IsSquare(p)
    ensures positions == KnightPrefix(Index(p, c), c, |KnightShifts|)
  {
    var current := Index(p, c);
    IndexOfSquare(p, c);
    var here := ColumnRow(SquareOf(current, c), c);
    positions := [];
    var j := 0;
    while j < |KnightShifts|
      invariant 0 <= j <= |KnightShifts|
      invariant positions == KnightPrefix(current, c, j)
    {
      var hop := KnightHop(current, KnightShifts[j], c, here);
      positions := positions + hop;
      j := j + 1;
    }
  }

  /**
   * One round of the L_SHAPE loop: the square `shift` away from index i, when that index is on
   * the board, lies on another row and at most two columns away.
   */
  method KnightHop(i: int, shift: int, c: Color, here: (int, int)) returns (hop: seq<string>)
    requires 0 <= i < 64 && here == ColumnRow(SquareOf(i, c), c)
    ensures hop == KnightStep(i, shift, c)
  {
    var candidate := IndexToPosition(i + shift, c);
    hop := [];
    if candidate.Ok? {
      var there := ColumnRow(candidate.value, c);
      if here.1 != there.1 && Abs(there.0 - here.0) <= 2 {
        hop := [candidate.value];
      }
    }
  }

  /** The index of the k-th ray square, read off its cell. */
  lemma RaySquareIndex(p: string, d: Direction, c: Color, k: int)
    requires IsSquare(p) && d != LShape
    requires 1 <= k <= DirectionSquareCount(p, d, c)
    ensures Index(RaySquare(p, d, c, k), c) == 8 * RayCell(p, d, c, k).1 + RayCell(p, d, c, k).0
  {
    RaySquareFacts(p, d, c, k);
  }

  /** Consecutive ray cells lie one shift apart; cell 0 is the start itself. */
  lemma RayCellNext(p: string, d: Direction, c: Color, k: int)
    requires IsSquare(p) && d != LShape
    ensures 8 * RayCell(p, d, c, k + 1).1 + RayCell(p, d, c, k + 1).0 ==
            8 * RayCell(p, d, c, k).1 + RayCell(p, d, c, k).0 + PieceShift(d)
    ensures 8 * RayCell(p, d, c, 0).1 + RayCell(p, d, c, 0).0 == Index(p, c)
  {
    StepNext(ColumnRow(p, c).0, ColumnRow(p, c).1, d, k);
  }

  /** The index reached after k shifts from p in direction d. */
  function RayIndex(p: string, d: Direction, c: Color, k: nat): int
    requires IsSquare(p) && d != LShape
  {
    if k == 0 then Index(p, c) else RayIndex(p, d, c, k - 1) + PieceShift(d)
  }

  /** After k shifts the index is that of the cell k steps along the ray. */
  lemma {:induction false} RayIndexCell(p: string, d: Direction, c: Color, k: nat)
    requires IsSquare(p) && d != LShape
    ensures RayIndex(p, d, c, k) == 8 * RayCell(p, d, c, k).1 + RayCell(p, d, c, k).0
  {
    if k == 0 {
      RayCellNext(p, d, c, 0);
    } else {
      RayIndexCell(p, d, c, k - 1);
      RayCellNext(p, d, c, k - 1);
    }
  }

  /** One more round of the ray loop: the next index names the next ray square. */
  lemma RayLoopStep(p: string, d: Direction, c: Color, count: nat)
    requires IsSquare(p) && d != LShape
    requires count < DirectionSquareCount(p, d, c)
    ensures IndexToPosition(RayIndex(p, d, c, count + 1), c) == Ok(RaySquare(p, d, c, count + 1))
  {
    RayIndexOfSquare(p, d, c, count + 1);
    SquareIndexBack(RaySquare(p, d, c, count + 1), c);
  }

  /** The k-th ray index is the index of the k-th ray square. */
  lemma RayIndexOfSquare(p: string, d: Direction, c: Color, k: nat)
    requires IsSquare(p) && d != LShape
    requires 1 <= k <= DirectionSquareCount(p, d, c)
    ensures RayIndex(p, d, c, k) == Index(RaySquare(p, d, c, k), c)
  {
    RayIndexCell(p, d, c, k);
    RaySquareIndex(p, d, c, k);
  }

  /** A square's index converts back to the square. */
  lemma SquareIndexBack(q: string, c: Color)
    requires IsSquare(q)
    ensures IndexToPosition(Index(q, c), c) == Ok(q)
  {
    IndexOfSquare(q, c);
  }

  /** SquareIndexBack for an index already known to be the square's. */
  lemma SquareIndexBackAt(q: string, c: Color, i: int)
    requires IsSquare(q) && i == Index(q, c)
    ensures IndexToPosition(i, c) == Ok(q)
  {
    SquareIndexBack(q, c);
  }

  /** The ray branch: as many squares as lie before the edge, each one shift further on. */
  method RayPositions(p: string, d: Direction, c: Color) returns (positions: seq<string>)
    requires IsSquare(p) && d != LShape
    ensures positions == PossiblePositionsSpec(p, d, c)
  {
    var nextIndex := Index(p, c);
    var numSpaces := DirectionSquareCount(p, d, c);
    positions := [];
    var count := 0;
    while count < numSpaces
      invariant 0 <= count <= numSpaces
      invariant nextIndex == RayIndex(p, d, c, count)
      invariant positions == RayPrefix(p, d, c, count)
    {
      var next;
      nextIndex, next := RayNext(p, d, c, count, nextIndex);
      positions := positions + [next];
      count := count + 1;
    }
  }

  /** One round of the ray loop: the index one shift further on, and the square it names. */
  method RayNext(p: string, d: Direction, c: Color, count: nat, index: int) returns (nextIndex: int, next: string)
    requires IsSquare(p) && d != LShape
    requires count < DirectionSquareCount(p, d, c) && index == RayIndex(p, d, c, count)
    ensures nextIndex == RayIndex(p, d, c, count + 1)
    ensures next == RaySquare(p, d, c, count + 1)
  {
    RayLoopStep(p, d, c, count);
    nextIndex := index + PieceShift(d);
    var position := IndexToPosition(nextIndex, c);
    next := position.value;
  }

  /** Ray squares lie one shift apart, nearest first, and none of them wraps around an edge. */
  lemma RayProjection(p: string, d: Direction, c: Color, k: int)
    requires IsSquare(p) && d != LShape
    requires 0 <= k < |PossiblePositionsSpec(p, d, c)|
    ensures |PossiblePositionsSpec(p, d, c)| == DirectionSquareCount(p, d, c)
    ensures var q := PossiblePositionsSpec(p, d, c)[k];
      && IsSquare(q)
      && Index(q, c) == Index(p, c) + (k + 1) * PieceShift(d)
      && ColumnRow(q, c) == RayCell(p, d, c, k + 1)
  {
    ProjectionAt(p, d, c, k);
    RaySquareFacts(p, d, c, k + 1);
    RaySquareOffset(p, d, c, k + 1);
  }

  /** The k-th projected square is the (k + 1)-th square of the ray. */
  lemma ProjectionAt(p: string, d: Direction, c: Color, k: int)
    requires IsSquare(p) && d != LShape
    requires 0 <= k < |PossiblePositionsSpec(p, d, c)|
    ensures |PossiblePositionsSpec(p, d, c)| == DirectionSquareCount(p, d, c)
    ensures 1 <= k + 1 <= DirectionSquareCount(p, d, c)
    ensures PossiblePositionsSpec(p, d, c)[k] == RaySquare(p, d, c, k + 1)
  {
    assert PossiblePositionsSpec(p, d, c) == RayPrefix(p, d, c, DirectionSquareCount(p, d, c));
    RayPrefixAt(p, d, c, DirectionSquareCount(p, d, c), k);
  }

  /** The k-th ray square's index is k shifts from the start's. */
  lemma RaySquareOffset(p: string, d: Direction, c: Color, k: int)
    requires IsSquare(p) && d != LShape
    requires 1 <= k <= DirectionSquareCount(p, d, c)
    ensures Index(RaySquare(p, d, c, k), c) == Index(p, c) + k * PieceShift(d)
  {
    RaySquareIndex(p, d, c, k);
    StepIndex(ColumnRow(p, c).0, ColumnRow(p, c).1, d, k);
  }

  // ---------------------------------------------------------------------------------------
  // Knight hops
  // ---------------------------------------------------------------------------------------

  /** A knight's jump: one file and two ranks away, or two files and one rank. */
  predicate KnightJump(p: string, t: string)
    requires IsSquare(p) && IsSquare(t)
  {
    var df := Abs(t[0] as int - p[0] as int);
    var dr := Abs(t[1] as int - p[1] as int);
    (df == 1 && dr == 2) || (df == 2 && dr == 1)
  }

  /** The column and row steps of each L_SHAPE offset: offset == 8 * rows + columns. */
  function KnightDelta(j: int): (delta: (int, int))
    requires 0 <= j < |KnightShifts|
    ensures KnightShifts[j] == 8 * delta.1 + delta.0
    ensures (Abs(delta.0) == 1 && Abs(delta.1) == 2) || (Abs(delta.0) == 2 && Abs(delta.1) == 1)
  {
    [(-1, -2), (1, -2), (-2, -1), (2, -1), (-2, 1), (2, 1), (-1, 2), (1, 2)][j]
  }

  /**
   * The arithmetic of the L_SHAPE guard: a hop that would leave the board either leaves
   * 0..63 or lands six or more columns away, so the guard keeps exactly the on-board cells.
   */
  lemma KnightGuard(i: int, dc: int, dr: int)
    requires 0 <= i < 64
    requires (Abs(dc) == 1 && Abs(dr) == 2) || (Abs(dc) == 2 && Abs(dr) == 1)
    ensures KnightKeeps(i, 8 * dr + dc) <==> OnBoard(i % 8 + dc, i / 8 + dr)
    ensures OnBoard(i % 8 + dc, i / 8 + dr) ==>
              (i + (8 * dr + dc)) / 8 == i / 8 + dr && (i + (8 * dr + dc)) % 8 == i % 8 + dc
  {
    var col := i % 8;
    var row := i / 8;
    var n := i + (8 * dr + dc);
    assert n == 8 * (row + dr) + (col + dc);
    if col + dc < 0 {
      DivMod8(n, row + dr - 1, col + dc + 8);
    } else if col + dc > 7 {
      DivMod8(n, row + dr + 1, col + dc - 8);
    } else {
      DivMod8(n, row + dr, col + dc);
    }
  }

  lemma {:induction false} KnightPrefixMembers(i: int, c: Color, k: int, t: string)
    requires 0 <= k <= |KnightShifts|
    ensures t in KeptPrefix(i, c, k) <==> exists j :: 0 <= j < k && t in KeptStep(i, KnightShifts[j], c)
  {
    if k > 0 {
      KnightPrefixMembers(i, c, k - 1, t);
    }
  }

  /** The ColumnRow difference of two squares, in file and rank terms for either colour. */
  lemma ColumnRowDifference(p: string, t: string, c: Color)
    requires IsSquare(p) && IsSquare(t)
    ensures var dc := ColumnRow(t, c).0 - ColumnRow(p, c).0;
      var dr := ColumnRow(t, c).1 - ColumnRow(p, c).1;
      Abs(dc) == Abs(t[0] as int - p[0] as int) && Abs(dr) == Abs(t[1] as int - p[1] as int)
  {
  }

  /** A hop the guard keeps is a knight's jump. */
  lemma KnightHopIsJump(p: string, c: Color, j: int)
    requires IsSquare(p) && 0 <= j < |KnightShifts|
    requires KnightKeeps(Index(p, c), KnightShifts[j])
    ensures IsSquare(SquareOf(Index(p, c) + KnightShifts[j], c))
    ensures KnightJump(p, SquareOf(Index(p, c) + KnightShifts[j], c))
  {
    HopCell(p, c, j);
    ColumnRowDifference(p, SquareOf(Index(p, c) + KnightShifts[j], c), c);
  }

  /** A kept hop moves the (column, row) cell by the offset's column and row steps. */
  lemma HopCell(p: string, c: Color, j: int)
    requires IsSquare(p) && 0 <= j < |KnightShifts|
    requires KnightKeeps(Index(p, c), KnightShifts[j])
    ensures IsSquare(SquareOf(Index(p, c) + KnightShifts[j], c))
    ensures ColumnRow(SquareOf(Index(p, c) + KnightShifts[j], c), c) ==
      (ColumnRow(p, c).0 + KnightDelta(j).0, ColumnRow(p, c).1 + KnightDelta(j).1)
  {
    var i := Index(p, c);
    var delta := KnightDelta(j);
    IndexOfSquare(p, c);
    KnightGuard(i, delta.0, delta.1);
    CellOfIndex(i + KnightShifts[j], c);
    ColumnRowOfIndex(p, c);
  }

  /** Every square the L_SHAPE projection lists is a knight's jump away. */
  lemma KnightSquaresAreJumps(p: string, c: Color, t: string)
    requires IsSquare(p)
    requires 0 <= Index(p, c) < 64 && t in KnightPrefix(Index(p, c), c, |KnightShifts|)
    ensures IsSquare(t) && KnightJump(p, t)
  {
    KnightPrefixKept(Index(p, c), c, |KnightShifts|);
    KnightPrefixMembers(Index(p, c), c, |KnightShifts|, t);
    var j :| 0 <= j < |KnightShifts| && t in KeptStep(Index(p, c), KnightShifts[j], c);
    KeptStepIsJump(p, c, j, t);
  }

  lemma KeptStepIsJump(p: string, c: Color, j: int, t: string)
    requires IsSquare(p) && 0 <= j < |KnightShifts|
    requires t in KeptStep(Index(p, c), KnightShifts[j], c)
    ensures IsSquare(t) && KnightJump(p, t)
  {
    if KnightKeeps(Index(p, c), KnightShifts[j]) {
      KnightHopIsJump(p, c, j);
    }
  }

  /** A knight's jump, read as a column and row step from p's index to t's. */
  lemma JumpCell(p: string, t: string, c: Color) returns (dc: int, dr: int)
    requires IsSquare(p) && IsSquare(t) && KnightJump(p, t)
    ensures (Abs(dc) == 1 && Abs(dr) == 2) || (Abs(dc) == 2 && Abs(dr) == 1)
    ensures 0 <= Index(p, c) < 64
    ensures Index(t, c) == Index(p, c) + (8 * dr + dc)
    ensures OnBoard(Index(p, c) % 8 + dc, Index(p, c) / 8 + dr)
  {
    ColumnRowOfIndex(p, c);
    ColumnRowDifference(p, t, c);
    dc := ColumnRow(t, c).0 - ColumnRow(p, c).0;
    dr := ColumnRow(t, c).1 - ColumnRow(p, c).1;
    IndexOfSquare(p, c);
  }

  /** Every square a knight's jump away is listed by the L_SHAPE projection. */
  lemma JumpsAreKnightSquares(p: string, c: Color, t: string)
    requires IsSquare(p) && IsSquare(t) && KnightJump(p, t)
    ensures 0 <= Index(p, c) < 64 && t in KnightPrefix(Index(p, c), c, |KnightShifts|)
  {
    var j := JumpKept(p, t, c);
    KnightPrefixMembers(Index(p, c), c, |KnightShifts|, t);
    KnightPrefixKept(Index(p, c), c, |KnightShifts|);
  }

  /** A knight's jump is the hop of one L_SHAPE offset that the guard keeps. */
  lemma JumpKept(p: string, t: string, c: Color) returns (j: int)
    requires IsSquare(p) && IsSquare(t) && KnightJump(p, t)
    ensures 0 <= j < |KnightShifts| && 0 <= Index(p, c) < 64
    ensures t in KeptStep(Index(p, c), KnightShifts[j], c)
  {
    var dc, dr := JumpCell(p, t, c);
    var i := Index(p, c);
    j := KnightIndexOf(dc, dr);
    IndexOfSquare(t, c);
    KeptAt(i, dc, dr, c, t);
  }

  /** A hop that stays on the board is kept and lists its landing square. */
  lemma KeptAt(i: int, dc: int, dr: int, c: Color, t: string)
    requires 0 <= i < 64
    requires (Abs(dc) == 1 && Abs(dr) == 2) || (Abs(dc) == 2 && Abs(dr) == 1)
    requires OnBoard(i % 8 + dc, i / 8 + dr) && SquareOf(i + (8 * dr + dc), c) == t
    ensures t in KeptStep(i, 8 * dr + dc, c)
  {
    KnightGuard(i, dc, dr);
  }

  /**
   * `_get_possible_positions` with L_SHAPE returns exactly the squares a knight's jump away
   * (one file and two ranks, or two files and one rank), for either colour.
   */
  lemma KnightSquares(p: string, c: Color, t: string)
    requires IsSquare(p)
    ensures t in PossiblePositionsSpec(p, LShape, c) <==> IsSquare(t) && KnightJump(p, t)
  {
    IndexOfSquare(p, c);
    if t in PossiblePositionsSpec(p, LShape, c) {
      KnightSquaresAreJumps(p, c, t);
    }
    if IsSquare(t) && KnightJump(p, t) {
      JumpsAreKnightSquares(p, c, t);
    }
  }

  /** The offset index of a knight step. */
  function KnightIndexOf(dc: int, dr: int): (j: int)
    requires (Abs(dc) == 1 && Abs(dr) == 2) || (Abs(dc) == 2 && Abs(dr) == 1)
    ensures 0 <= j < |KnightShifts| && KnightDelta(j) == (dc, dr)
  {
    if dr == -2 then (if dc == -1 then 0 else 1)
    else if dr == -1 then (if dc == -2 then 2 else 3)
    else if dr == 1 then (if dc == -2 then 4 else 5)
    else (if dc == -1 then 6 else 7)
  }

  /** From a corner the knight has two squares, listed in offset order. */
  lemma KnightFromCorner()
    ensures PossiblePositionsSpec("a1", LShape, White) == ["c2", "b3"]
  {
    assert Index("a1", White) == 0;
    KnightPrefixKept(0, White, |KnightShifts|);
    KeptFromCorner();
  }

  lemma KeptFromCorner()
    ensures KeptPrefix(0, White, |KnightShifts|) == ["c2", "b3"]
  {
    assert !KnightKeeps(0, -17) && !KnightKeeps(0, -15) && !KnightKeeps(0, -10) && !KnightKeeps(0, -6);
    assert !KnightKeeps(0, 6) && KnightKeeps(0, 10) && !KnightKeeps(0, 15) && KnightKeeps(0, 17);
    assert SquareOf(10, White) == "c2" && SquareOf(17, White) == "b3";
  }

  // ---------------------------------------------------------------------------------------
  // Shifting by an offset, and the direction between two squares
  // ---------------------------------------------------------------------------------------

  /**
   * `_get_position_shifted_by_offset` (never called with L_SHAPE): InvalidPositionError or
   * KeyError for the start, then InvalidIndexError when the shifted index leaves 0..63.
   */
  function ShiftedByOffset(p: string, d: Direction, offset: int, c: Color): (r: Result<string, Error>)
    requires d != LShape
    ensures !IsValidPosition(p) ==> r == Err(InvalidPosition(p))
    ensures IsValidPosition(p) && !IsSquare(p) ==> r == Err(KeyError)
    ensures r.Ok? ==> IsSquare(r.value)
  {
    var index :- PositionToIndex(p, c);
    IndexToPosition(index + PieceShift(d) * offset, c)
  }

  /** Shifting once along a ray gives the ray's first square, so the shift does not wrap an edge. */
  lemma ShiftedAlongRay(p: string, d: Direction, c: Color)
    requires IsSquare(p) && d != LShape
    requires DirectionSquareCount(p, d, c) >= 1
    ensures ShiftedByOffset(p, d, 1, c) == Ok(RaySquare(p, d, c, 1))
  {
    FirstRayIndex(p, d, c);
    ShiftedOnce(p, d, c, RaySquare(p, d, c, 1));
  }

  /** One shift from a square's index is the index of the ray's first square. */
  lemma FirstRayIndex(p: string, d: Direction, c: Color)
    requires IsSquare(p) && d != LShape
    requires DirectionSquareCount(p, d, c) >= 1
    ensures IndexToPosition(Index(p, c) + PieceShift(d), c) == Ok(RaySquare(p, d, c, 1))
  {
    RayLoopStep(p, d, c, 0);
    RayIndexOne(p, d, c);
  }

  lemma RayIndexOne(p: string, d: Direction, c: Color)
    requires IsSquare(p) && d != LShape
    ensures RayIndex(p, d, c, 1) == Index(p, c) + PieceShift(d)
  {
  }

  lemma ShiftedOnce(p: string, d: Direction, c: Color, q: string)
    requires IsSquare(p) && d != LShape
    requires IndexToPosition(Index(p, c) + PieceShift(d), c) == Ok(q)
    ensures ShiftedByOffset(p, d, 1, c) == Ok(q)
  {
  }

  /** The direction from one square to another, and the (column, row) offset between them. */
  datatype Displacement = Displacement(direction: Option<Direction>, offset: (int, int))

  /**
   * `_direction_and_position_offset`: the eight directions by the signs of the row and column
   * differences, diagonals first; no direction when the squares coincide.
   */
  function DirectionAndOffset(s: string, e: string, c: Color): (r: Result<Displacement, Error>)
    ensures r.Ok? <==> IsValidPosition(s) && IsValidPosition(e)
    ensures !IsValidPosition(s) ==> r == Err(InvalidPosition(s))
  {
    if !IsValidPosition(s) then Err(InvalidPosition(s))
    else if !IsValidPosition(e) then Err(InvalidPosition(e))
    else
      var rowDiff := ColumnRow(e, c).1 - ColumnRow(s, c).1;
      var columnDiff := ColumnRow(e, c).0 - ColumnRow(s, c).0;
      var direction :=
        if rowDiff > 0 && columnDiff > 0 then Some(FRightDiag)
        else if rowDiff > 0 && columnDiff < 0 then Some(FLeftDiag)
        else if rowDiff < 0 && columnDiff > 0 then Some(BRightDiag)
        else if rowDiff < 0 && columnDiff < 0 then Some(BLeftDiag)
        else if rowDiff > 0 then Some(Forward)
        else if rowDiff < 0 then Some(Backward)
        else if columnDiff > 0 then Some(Right)
        else if columnDiff < 0 then Some(Left)
        else None;
      Ok(Displacement(direction, (columnDiff, rowDiff)))
  }

  /**
   * Along every ray the direction and offset are recovered: the k-th square in direction d
   * lies in direction d, k unit steps away.
   */
  lemma DirectionOfRaySquare(p: string, d: Direction, c: Color, k: int)
    requires IsSquare(p) && d != LShape
    requires 1 <= k <= DirectionSquareCount(p, d, c)
    ensures DirectionAndOffset(p, RaySquare(p, d, c, k), c) == Ok(Displacement(Some(d), Step(0, 0, d, k)))
  {
    RaySquareFacts(p, d, c, k);
  }

  /** A square seen from itself has no direction, and the offset is (0, 0). */
  lemma NoDirectionToItself(p: string, c: Color)
    requires IsSquare(p)
    ensures DirectionAndOffset(p, p, c) == Ok(Displacement(None, (0, 0)))
  {
  }
}
