/**
 * The state of a chess board (src/board/chess_board.py): the 64 squares and what stands on
 * them, the square of each colour's king, and the en-passant target and pawn squares; then
 * the nearest-piece scan over a "ghost" overlay and the check test built on it.
 */
module Board {
  import opened Wrappers
  import opened Exceptions
  import opened ChessHelper
  import opened Pieces
  import opened Coordinates

  /** `_pieces`, `_king_positions` and `_en_passant_info` of a board. */
  datatype BoardState = BoardState(
    pieces: map<string, Option<Piece>>,
    whiteKing: Option<string>,
    blackKing: Option<string>,
    epTarget: Option<string>,
    epPawn: Option<string>)

  function KingSquare(b: BoardState, c: Color): Option<string>
  {
    if c == White then b.whiteKing else b.blackKing
  }

  function WithKing(b: BoardState, c: Color, p: string): (r: BoardState)
    ensures KingSquare(r, c) == Some(p) && KingSquare(r, Other(c)) == KingSquare(b, Other(c))
    ensures r.pieces == b.pieces && r.epTarget == b.epTarget && r.epPawn == b.epPawn
  {
    if c == White then b.(whiteKing := Some(p)) else b.(blackKing := Some(p))
  }

  function Other(c: Color): Color { if c == White then Black else White }

  predicate OptSquare(p: Option<string>) { p.Some? ==> IsSquare(p.value) }

  /**
   * The board's invariant: the keys of `_pieces` are exactly the 64 squares, and every
   * recorded king and target square is a square. The pawn square is only known to be a valid
   * position: `move_piece` records the end position before it finds that "e0" or "e4\n" is
   * not a key.
   */
  ghost predicate Valid(b: BoardState)
  {
    && (forall p :: p in b.pieces <==> IsSquare(p))
    && OptSquare(b.whiteKing) && OptSquare(b.blackKing)
    && OptSquare(b.epTarget) && (b.epPawn.Some? ==> IsValidPosition(b.epPawn.value))
  }

  /** `_board_positions`: the squares in dictionary order, a1 ... h1, a2 ... h8. */
  function BoardSquare(i: int): string
    requires 0 <= i < 64
  {
    SquareOf(i, White)
  }

  const AllSquares: set<string> := set i | 0 <= i < 64 :: SquareOf(i, White)

  /** The keys of `_pieces` in iteration order. */
  function DictOrder(): seq<string>
  {
    seq(64, i requires 0 <= i < 64 => BoardSquare(i))
  }

  /** The iteration order lists every square of the board, and nothing else. */
  lemma DictOrderIsBoard()
    ensures |DictOrder()| == 64 && SquareList(DictOrder())
    ensures forall p :: IsSquare(p) ==> p in DictOrder()
  {
    forall p | IsSquare(p) ensures p in DictOrder() {
      IndexOfSquare(p, White);
      assert DictOrder()[Index(p, White)] == p;
    }
  }

  lemma AllSquaresAreSquares(p: string)
    ensures p in AllSquares <==> IsSquare(p)
  {
    if IsSquare(p) {
      IndexOfSquare(p, White);
      assert SquareOf(Index(p, White), White) == p;
    }
  }

  /** An empty board: `ChessBoard()` with no FEN. */
  function EmptyBoard(): (b: BoardState)
    ensures Valid(b)
    ensures forall p :: p in b.pieces ==> b.pieces[p] == None
    ensures b.whiteKing == None && b.blackKing == None && b.epTarget == None && b.epPawn == None
  {
    forall p ensures p in AllSquares <==> IsSquare(p) {
      AllSquaresAreSquares(p);
    }
    BoardState(map p | p in AllSquares :: None, None, None, None, None)
  }

  // ---------------------------------------------------------------------------------------
  // The nearest piece in a direction, over a ghost overlay
  // ---------------------------------------------------------------------------------------

  /**
   * The overlay `ghost_pieces`: a square mapped to None is treated as empty, a square mapped
   * to (colour, type) as holding such a piece, whatever the board says.
   */
  type Ghost = map<string, Option<(Color, Kind)>>

  /** The dictionary `_get_nearest_piece_in_direction` returns. */
  datatype Sighting = Sighting(position: string, color: Color, offset: int, kind: Kind)

  predicate SquareList(ps: seq<string>)
  {
    forall k :: 0 <= k < |ps| ==> IsSquare(ps[k])
  }

  /** What the overlay shows on square q. */
  function Seen(b: BoardState, overlay: Ghost, q: string): Option<(Color, Kind)>
    requires Valid(b) && IsSquare(q)
  {
    if q in overlay then overlay[q]
    else if b.pieces[q].Some? then Some((b.pieces[q].value.color, b.pieces[q].value.kind))
    else None
  }

  /**
   * The scan loop of `_get_nearest_piece_in_direction` from the i-th projected square on: a
   * ghost None is skipped, a ghost piece is reported, otherwise a real piece is reported.
   */
  function NearestFrom(b: BoardState, ps: seq<string>, i: int, overlay: Ghost): Option<Sighting>
    requires Valid(b) && SquareList(ps) && 0 <= i <= |ps|
    decreases |ps| - i
  {
    if i == |ps| then None
    else
      var q := ps[i];
      if q in overlay && overlay[q].None? then NearestFrom(b, ps, i + 1, overlay)
      else if q in overlay then Some(Sighting(q, overlay[q].value.0, i + 1, overlay[q].value.1))
      else if b.pieces[q].Some? then
        Some(Sighting(q, b.pieces[q].value.color, i + 1, b.pieces[q].value.kind))
      else NearestFrom(b, ps, i + 1, overlay)
  }

  /**
   * The scan reports the first square from i on that the overlay shows occupied, at its
   * distance (1 for the adjacent square), with what the overlay shows there; it reports
   * nothing exactly when the overlay shows every remaining square empty.
   */
  lemma {:induction false} NearestIsFirstSeen(b: BoardState, ps: seq<string>, i: int, overlay: Ghost)
    requires Valid(b) && SquareList(ps) && 0 <= i <= |ps|
    decreases |ps| - i
    ensures var r := NearestFrom(b, ps, i, overlay);
      && (r.None? <==> forall k :: i <= k < |ps| ==> Seen(b, overlay, ps[k]).None?)
      && (r.Some? ==>
            && i < r.value.offset <= |ps|
            && r.value.position == ps[r.value.offset - 1]
            && Seen(b, overlay, ps[r.value.offset - 1]) == Some((r.value.color, r.value.kind))
            && forall k :: i <= k < r.value.offset - 1 ==> Seen(b, overlay, ps[k]).None?)
  {
    if i < |ps| {
      NearestIsFirstSeen(b, ps, i + 1, overlay);
    }
  }

  /**
   * `_get_nearest_piece_in_direction`: InvalidPositionError or KeyError for a start that is
   * not a square, otherwise the scan along the projected ray.
   */
  function Nearest(b: BoardState, start: string, d: Direction, c: Color, overlay: Ghost): (r: Result<Option<Sighting>, Error>)
    requires Valid(b) && d != LShape
    ensures r.Ok? <==> IsSquare(start)
    ensures !IsValidPosition(start) ==> r == Err(InvalidPosition(start))
    ensures IsValidPosition(start) && !IsSquare(start) ==> r == Err(KeyError)
  {
    if !IsValidPosition(start) then Err(InvalidPosition(start))
    else if !IsSquare(start) then Err(KeyError)
    else
      PossibleSquares(start, d, c);
      Ok(NearestFrom(b, PossiblePositionsSpec(start, d, c), 0, overlay))
  }

  // ---------------------------------------------------------------------------------------
  // is_check
  // ---------------------------------------------------------------------------------------

  /** The order in which `is_check` looks along the rays. */
  const CheckDirections: seq<Direction> :=
    [Forward, FRightDiag, Right, BRightDiag, Backward, BLeftDiag, Left, FLeftDiag]

  /** Every direction `is_check` scans is a ray: L_SHAPE is not among them. */
  lemma CheckDirectionIsRay(k: int)
    requires 0 <= k < |CheckDirections|
    ensures CheckDirections[k] != LShape
  {
    assert CheckDirections[k] in CheckDirections;
  }

  predicate IsForwardDiagonal(d: Direction) { d == FRightDiag || d == FLeftDiag }

  /** The kinds that attack along a ray in direction d from any distance. */
  predicate RangedAttacker(d: Direction, k: Kind)
  {
    if IsDiagonal(d) then k == Queen || k == Bishop else k == Rook || k == Queen
  }

  /**
   * A piece sighted in direction d gives check to colour c: it is an enemy and it is a pawn
   * adjacent on a forward diagonal, a king adjacent anywhere, or a ranged piece of that ray.
   */
  predicate Attacks(d: Direction, s: Sighting, c: Color)
  {
    && s.color != c
    && ((IsForwardDiagonal(d) && s.offset == 1 && s.kind == Pawn)
        || (s.offset == 1 && s.kind == King)
        || RangedAttacker(d, s.kind))
  }

  /** The ray part of `is_check` from the j-th direction on. */
  function RayAttackFrom(b: BoardState, c: Color, kp: string, overlay: Ghost, j: int): bool
    requires Valid(b) && IsSquare(kp) && 0 <= j <= |CheckDirections|
    decreases |CheckDirections| - j
  {
    if j == |CheckDirections| then false
    else SightingAttacks(b, c, kp, overlay, j) || RayAttackFrom(b, c, kp, overlay, j + 1)
  }

  /** An enemy knight stands (on the real board) on q. */
  predicate EnemyKnightAt(b: BoardState, c: Color, q: string)
    requires Valid(b) && IsSquare(q)
  {
    b.pieces[q].Some? && b.pieces[q].value.kind == Knight && b.pieces[q].value.color != c
  }

  /** The knight part of `is_check` from the i-th knight square on; it reads the real board. */
  function KnightAttackFrom(b: BoardState, c: Color, ks: seq<string>, i: int): bool
    requires Valid(b) && SquareList(ks) && 0 <= i <= |ks|
    decreases |ks| - i
  {
    if i == |ks| then false
    else EnemyKnightAt(b, c, ks[i]) || KnightAttackFrom(b, c, ks, i + 1)
  }

  /** Square kp is attacked against colour c, with the overlay on the rays only. */
  predicate Attacked(b: BoardState, c: Color, kp: string, overlay: Ghost)
    requires Valid(b) && IsSquare(kp)
  {
    PossibleSquares(kp, LShape, c);
    RayAttackFrom(b, c, kp, overlay, 0) || KnightAttackFrom(b, c, PossiblePositionsSpec(kp, LShape, c), 0)
  }

  /** The ray test holds exactly when some direction's sighting attacks. */
  lemma RayAttackWitness(b: BoardState, c: Color, kp: string, overlay: Ghost, j: int)
    requires Valid(b) && IsSquare(kp) && 0 <= j <= |CheckDirections|
    ensures RayAttackFrom(b, c, kp, overlay, j) <==>
      exists k :: j <= k < |CheckDirections| && SightingAttacks(b, c, kp, overlay, k)
  {
    if RayAttackFrom(b, c, kp, overlay, j) {
      var k := RayAttackFound(b, c, kp, overlay, j);
    }
    if exists k :: j <= k < |CheckDirections| && SightingAttacks(b, c, kp, overlay, k) {
      var k :| j <= k < |CheckDirections| && SightingAttacks(b, c, kp, overlay, k);
      RayAttackOf(b, c, kp, overlay, j, k);
    }
  }

  /** When the ray test holds, some direction from the j-th on gives it. */
  lemma {:induction false} RayAttackFound(b: BoardState, c: Color, kp: string, overlay: Ghost, j: int) returns (k: int)
    requires Valid(b) && IsSquare(kp) && 0 <= j <= |CheckDirections|
    requires RayAttackFrom(b, c, kp, overlay, j)
    ensures j <= k < |CheckDirections| && SightingAttacks(b, c, kp, overlay, k)
    decreases |CheckDirections| - j
  {
    RayAttackUnfold(b, c, kp, overlay, j);
    if SightingAttacks(b, c, kp, overlay, j) {
      k := j;
    } else {
      k := RayAttackFound(b, c, kp, overlay, j + 1);
    }
  }

  /** A direction from the j-th on whose sighting attacks makes the ray test hold. */
  lemma {:induction false} RayAttackOf(b: BoardState, c: Color, kp: string, overlay: Ghost, j: int, k: int)
    requires Valid(b) && IsSquare(kp) && 0 <= j <= k < |CheckDirections|
    requires SightingAttacks(b, c, kp, overlay, k)
    ensures RayAttackFrom(b, c, kp, overlay, j)
    decreases k - j
  {
    if k != j {
      RayAttackOf(b, c, kp, overlay, j + 1, k);
    }
    RayAttackUnfold(b, c, kp, overlay, j);
  }

  /** The ray test at direction j: that direction's sighting attacks, or a later one does. */
  lemma RayAttackUnfold(b: BoardState, c: Color, kp: string, overlay: Ghost, j: int)
    requires Valid(b) && IsSquare(kp) && 0 <= j < |CheckDirections|
    ensures RayAttackFrom(b, c, kp, overlay, j) == (SightingAttacks(b, c, kp, overlay, j) || RayAttackFrom(b, c, kp, overlay, j + 1))
  {
  }

  /** The piece sighted from kp in the k-th direction of the check order attacks colour c. */
  predicate SightingAttacks(b: BoardState, c: Color, kp: string, overlay: Ghost, k: int)
    requires Valid(b) && IsSquare(kp) && 0 <= k < |CheckDirections|
  {
    var d := CheckDirections[k];
    CheckDirectionIsRay(k);
    PossibleSquares(kp, d, c);
    var s := NearestFrom(b, PossiblePositionsSpec(kp, d, c), 0, overlay);
    s.Some? && Attacks(d, s.value, c)
  }

  /** The knight test holds exactly when an enemy knight stands on one of the knight squares. */
  lemma {:induction false} KnightAttackWitness(b: BoardState, c: Color, ks: seq<string>, i: int)
    requires Valid(b) && SquareList(ks) && 0 <= i <= |ks|
    decreases |ks| - i
    ensures KnightAttackFrom(b, c, ks, i) <==> exists k :: i <= k < |ks| && EnemyKnightAt(b, c, ks[k])
  {
    if i < |ks| {
      KnightAttackWitness(b, c, ks, i + 1);
    }
    if exists k :: i <= k < |ks| && EnemyKnightAt(b, c, ks[k]) {
      var k :| i <= k < |ks| && EnemyKnightAt(b, c, ks[k]);
      if k != i {
        KnightAttackWitness(b, c, ks, i + 1);
      }
    }
  }

  /**
   * `is_check(c, position, overlay)`. A non-empty `position` is validated (InvalidPositionError
   * first, even for a colour with no king) and used instead of the king's square; a colour with
   * no king is never in check; a valid text that is not a square fails with KeyError in the scan.
   */
  function IsCheck(b: BoardState, c: Color, position: Option<string>, overlay: Ghost): (r: Result<bool, Error>)
    requires Valid(b)
    ensures KingSquare(b, c).None? && (position.None? || position.value == "" || IsValidPosition(position.value)) ==>
              r == Ok(false)
    ensures KingSquare(b, c).Some? && (position.None? || position.value == "") ==>
              r == Ok(Attacked(b, c, KingSquare(b, c).value, overlay))
    ensures KingSquare(b, c).Some? && position.Some? && IsSquare(position.value) ==>
              r == Ok(Attacked(b, c, position.value, overlay))
    ensures position.Some? && position.value != "" && !IsValidPosition(position.value) ==>
              r == Err(InvalidPosition(position.value))
    ensures KingSquare(b, c).Some? && position.Some? && IsValidPosition(position.value) && !IsSquare(position.value) ==>
              r == Err(KeyError)
  {
    var given := position.Some? && position.value != "";
    if given && !IsValidPosition(position.value) then Err(InvalidPosition(position.value))
    else if KingSquare(b, c).None? then Ok(false)
    else
      var kp := if given then position.value else KingSquare(b, c).value;
      if !IsSquare(kp) then Err(KeyError)
      else Ok(Attacked(b, c, kp, overlay))
  }

  /** The overlay a move from `from` to `to` places: `from` empty, the mover on `to`. */
  function MoveGhost(from: string, to: string, p: Piece): Ghost
  {
    map[from := None][to := Some((p.color, p.kind))]
  }
}
