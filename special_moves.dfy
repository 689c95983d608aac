/**
 * The two special-move tests of src/board/chess_board.py: `can_en_passant` and `can_castle`
 * (FIDE Laws of Chess, Articles 3.7(d) and 3.8(b)).
 */
module SpecialMoves {
  import opened Wrappers
  import opened Exceptions
  import opened ChessHelper
  import opened Pieces
  import opened Coordinates
  import opened Board

  // ---------------------------------------------------------------------------------------
  // can_en_passant
  // ---------------------------------------------------------------------------------------

  /**
   * `can_en_passant(position, direction)`: false off the forward diagonals, KeyError for a
   * text that is not a board key, false unless a pawn stands there, otherwise whether one
   * diagonal step lands on the recorded en-passant target.
   */
  function CanEnPassant(b: BoardState, position: string, d: Option<Direction>): (r: Result<bool, Error>)
    requires Valid(b)
    ensures d.Some? && IsForwardDiagonal(d.value) && position !in b.pieces ==> r == Err(KeyError)
    ensures r == Ok(true) ==>
      && d.Some? && IsForwardDiagonal(d.value)
      && position in b.pieces && b.pieces[position].Some? && b.pieces[position].value.kind == Pawn
      && b.epTarget.Some?
  {
    if d != Some(FRightDiag) && d != Some(FLeftDiag) then Ok(false)
    else if position !in b.pieces then Err(KeyError)
    else if b.pieces[position].None? then Ok(false)
    else
      var pawn := b.pieces[position].value;
      if pawn.kind != Pawn then Ok(false)
      else
        var target :- ShiftedByOffset(position, d.value, 1, pawn.color);
        Ok(Some(target) == b.epTarget)
  }

  /**
   * A pawn may take en passant along a forward diagonal that has a square exactly when that
   * square is the recorded target.
   */
  lemma EnPassantOntoTarget(b: BoardState, position: string, d: Direction)
    requires Valid(b) && IsForwardDiagonal(d)
    requires position in b.pieces && b.pieces[position].Some? && b.pieces[position].value.kind == Pawn
    requires DirectionSquareCount(position, d, b.pieces[position].value.color) >= 1
    ensures CanEnPassant(b, position, Some(d)) ==
      Ok(b.epTarget == Some(RaySquare(position, d, b.pieces[position].value.color, 1)))
  {
    ShiftedAlongRay(position, d, b.pieces[position].value.color);
  }

  // ---------------------------------------------------------------------------------------
  // can_castle
  // ---------------------------------------------------------------------------------------

  /** Where each colour's castling rook starts, as the source lays it out. */
  function RookHome(c: Color, d: Direction): string
    requires d == Left || d == Right
  {
    match (c, d)
    case (White, Left) => "a1"
    case (White, _) => "h1"
    case (Black, Left) => "h8"
    case (Black, _) => "a8"
  }

  /** How far the castling rook stands from the king: three squares on the h side, four on the a side. */
  function ExpectedRookOffset(c: Color, d: Direction): int
  {
    if c == White then (if d == Right then 3 else 4)
    else (if d == Right then 4 else 3)
  }

  /**
   * `can_castle(c, d)`. Only LEFT and RIGHT qualify. The scan starts from the recorded king
   * square (AttributeError when there is none). The nearest piece must be a rook (of either
   * colour) at the expected distance, the piece on the king square must still have reach 2
   * in d (AttributeError when the square is empty, KeyError when d is missing), and neither
   * the king square nor the next two squares in d may be attacked.
   */
  function CanCastle(b: BoardState, c: Color, d: Option<Direction>): (r: Result<bool, Error>)
    requires Valid(b)
    ensures d != Some(Left) && d != Some(Right) ==> r == Ok(false)
    ensures (d == Some(Left) || d == Some(Right)) && KingSquare(b, c).None? ==> r == Err(AttributeError)
  {
    if d != Some(Left) && d != Some(Right) then Ok(false)
    else if KingSquare(b, c).None? then Err(AttributeError)
    else
      var kp := KingSquare(b, c).value;
      var nearest :- Nearest(b, kp, d.value, c, map[]);
      if nearest.None? || nearest.value.kind != Rook then Ok(false)
      else CastleWithRook(b, c, d.value, kp, nearest.value)
  }

  /**
   * The rest of `can_castle` once a rook s has been sighted from the king square kp: the
   * check test, the king's reach toward d, the rook's distance, and the crossing test.
   */
  function CastleWithRook(b: BoardState, c: Color, d: Direction, kp: string, s: Sighting): (r: Result<bool, Error>)
    requires Valid(b) && IsSquare(kp) && (d == Left || d == Right)
  {
    var king := b.pieces[kp];
    var inCheck :- IsCheck(b, c, Some(kp), map[]);
    var isExpectedOffset := ExpectedRookOffset(c, d) == s.offset;
    if king.None? then Err(AttributeError)
    else if d !in king.value.moves then Err(KeyError)
    else if !(NumericValue(king.value.moves[d]) == 2 && !inCheck && isExpectedOffset) then Ok(false)
    else CrossingUnattacked(b, c, Index(kp, king.value.color), PieceShift(d))
  }

  /**
   * The end of `can_castle`: the two squares one and two shifts from the king's index
   * (InvalidIndexError off the board) must not be attacked.
   */
  function CrossingUnattacked(b: BoardState, c: Color, kingIndex: int, shift: int): (r: Result<bool, Error>)
    requires Valid(b)
    ensures r.Ok? && KingSquare(b, c).Some? ==> IsValidIndex(kingIndex + shift) && IsValidIndex(kingIndex + shift + shift)
  {
    var positionOne :- IndexToPosition(kingIndex + shift, c);
    var checkOne :- IsCheck(b, c, Some(positionOne), map[]);
    var positionTwo :- IndexToPosition(kingIndex + shift + shift, c);
    var checkTwo :- IsCheck(b, c, Some(positionTwo), map[]);
    Ok(!checkOne && !checkTwo)
  }

  /** The k-th square (0-based) of a projected ray is the first square holding a piece. */
  predicate FirstPieceAt(b: BoardState, ps: seq<string>, k: int)
  {
    && 0 <= k < |ps|
    && (forall m :: 0 <= m <= k ==> ps[m] in b.pieces)
    && b.pieces[ps[k]].Some?
    && forall m :: 0 <= m < k ==> b.pieces[ps[m]].None?
  }

  /** With an empty overlay the scan finds exactly the first square holding a piece. */
  lemma NearestIsFirstPiece(b: BoardState, ps: seq<string>)
    requires Valid(b) && SquareList(ps)
    ensures var r := NearestFrom(b, ps, 0, map[]);
      && (r.None? <==> forall k :: 0 <= k < |ps| ==> b.pieces[ps[k]].None?)
      && (r.Some? ==> FirstPieceAt(b, ps, r.value.offset - 1)
                      && b.pieces[ps[r.value.offset - 1]].value.kind == r.value.kind)
  {
    NearestIsFirstSeen(b, ps, 0, map[]);
  }

  /** Only one square can be the first one holding a piece. */
  lemma FirstPieceUnique(b: BoardState, ps: seq<string>, k: int, m: int)
    requires Valid(b) && SquareList(ps)
    requires FirstPieceAt(b, ps, k) && FirstPieceAt(b, ps, m)
    ensures k == m
  {
  }

  /**
   * The castling conditions, stated on the board: for a king of colour c on its recorded
   * square, castling in d (LEFT or RIGHT, a key of the king's table) is allowed exactly when
   * the first piece along d is a rook at the expected distance, the king's reach in d is
   * still 2, and neither the king's square nor the two squares it crosses is attacked.
   */
  lemma CastlingConditions(b: BoardState, c: Color, d: Direction)
    requires Valid(b) && (d == Left || d == Right)
    requires KingSquare(b, c).Some?
    requires var kp := KingSquare(b, c).value;
      b.pieces[kp].Some? && b.pieces[kp].value.color == c && d in b.pieces[kp].value.moves
    ensures var kp := KingSquare(b, c).value;
      var ps := PossiblePositionsSpec(kp, d, c);
      CanCastle(b, c, Some(d)) == Ok(true) <==>
        && (exists k :: FirstPieceAt(b, ps, k) && b.pieces[ps[k]].value.kind == Rook && k + 1 == ExpectedRookOffset(c, d))
        && NumericValue(b.pieces[kp].value.moves[d]) == 2
        && !Attacked(b, c, kp, map[])
        && DirectionSquareCount(kp, d, c) >= 3
        && !Attacked(b, c, RaySquare(kp, d, c, 1), map[])
        && !Attacked(b, c, RaySquare(kp, d, c, 2), map[])
  {
    var kp := KingSquare(b, c).value;
    var ps := PossiblePositionsSpec(kp, d, c);
    PossibleSquares(kp, d, c);
    var r := NearestFrom(b, ps, 0, map[]);
    RookSighted(b, ps, r, ExpectedRookOffset(c, d));
    var king := b.pieces[kp].value;
    if r.None? || r.value.kind != Rook || NumericValue(king.moves[d]) != 2
       || Attacked(b, c, kp, map[]) || ExpectedRookOffset(c, d) != r.value.offset
    {
      CastleRefused(b, c, d);
    } else {
      CastleChecked(b, c, d);
    }
  }

  /** The scan sees a rook at a given distance exactly when the first piece along ps is one. */
  lemma RookSighted(b: BoardState, ps: seq<string>, r: Option<Sighting>, offset: int)
    requires Valid(b) && SquareList(ps) && r == NearestFrom(b, ps, 0, map[])
    ensures (exists k :: FirstPieceAt(b, ps, k) && b.pieces[ps[k]].value.kind == Rook && k + 1 == offset) <==>
      r.Some? && r.value.kind == Rook && r.value.offset == offset
  {
    NearestIsFirstPiece(b, ps);
    if exists k :: FirstPieceAt(b, ps, k) && b.pieces[ps[k]].value.kind == Rook && k + 1 == offset {
      var k :| FirstPieceAt(b, ps, k) && b.pieces[ps[k]].value.kind == Rook && k + 1 == offset;
      assert b.pieces[ps[k]].Some?;
      FirstPieceUnique(b, ps, k, r.value.offset - 1);
    }
    if r.Some? && r.value.kind == Rook && r.value.offset == offset {
      var k := r.value.offset - 1;
      assert FirstPieceAt(b, ps, k) && b.pieces[ps[k]].value.kind == Rook && k + 1 == offset;
    }
  }

  lemma CastleRefused(b: BoardState, c: Color, d: Direction)
    requires Valid(b) && (d == Left || d == Right)
    requires KingSquare(b, c).Some?
    requires var kp := KingSquare(b, c).value;
      b.pieces[kp].Some? && b.pieces[kp].value.color == c && d in b.pieces[kp].value.moves
    requires var kp := KingSquare(b, c).value;
      var r := Nearest(b, kp, d, c, map[]).value;
      r.None? || r.value.kind != Rook || NumericValue(b.pieces[kp].value.moves[d]) != 2
      || Attacked(b, c, kp, map[]) || ExpectedRookOffset(c, d) != r.value.offset
    ensures CanCastle(b, c, Some(d)) == Ok(false)
  {
  }

  lemma CastleChecked(b: BoardState, c: Color, d: Direction)
    requires Valid(b) && (d == Left || d == Right)
    requires KingSquare(b, c).Some?
    requires var kp := KingSquare(b, c).value;
      b.pieces[kp].Some? && b.pieces[kp].value.color == c && d in b.pieces[kp].value.moves
    requires var kp := KingSquare(b, c).value;
      var r := Nearest(b, kp, d, c, map[]).value;
      r.Some? && r.value.kind == Rook && NumericValue(b.pieces[kp].value.moves[d]) == 2
      && !Attacked(b, c, kp, map[]) && ExpectedRookOffset(c, d) == r.value.offset
    ensures var kp := KingSquare(b, c).value;
      && DirectionSquareCount(kp, d, c) >= 3
      && CanCastle(b, c, Some(d)) ==
         Ok(!Attacked(b, c, RaySquare(kp, d, c, 1), map[]) && !Attacked(b, c, RaySquare(kp, d, c, 2), map[]))
  {
    var kp := KingSquare(b, c).value;
    var ps := PossiblePositionsSpec(kp, d, c);
    PossibleSquares(kp, d, c);
    NearestIsFirstPiece(b, ps);
    assert |ps| == DirectionSquareCount(kp, d, c);
    CastleEval(b, c, d, kp, b.pieces[kp].value, Nearest(b, kp, d, c, map[]).value.value);
    CrossingSquares(b, c, kp, d);
  }

  /** Once the rook, the reach and the king square pass, `can_castle` is the crossing test. */
  lemma CastleEval(b: BoardState, c: Color, d: Direction, kp: string, king: Piece, s: Sighting)
    requires Valid(b) && (d == Left || d == Right)
    requires KingSquare(b, c) == Some(kp) && b.pieces[kp] == Some(king)
    requires king.color == c && d in king.moves
    requires Nearest(b, kp, d, c, map[]) == Ok(Some(s))
    requires s.kind == Rook && NumericValue(king.moves[d]) == 2
    requires !Attacked(b, c, kp, map[]) && ExpectedRookOffset(c, d) == s.offset
    ensures CanCastle(b, c, Some(d)) == CrossingUnattacked(b, c, Index(kp, c), PieceShift(d))
  {
    CastleReachesRook(b, c, d, kp, s);
    RookChecksPass(b, c, d, kp, king, s);
  }

  /** With a rook sighted from the recorded king square, `can_castle` goes on to the rook checks. */
  lemma CastleReachesRook(b: BoardState, c: Color, d: Direction, kp: string, s: Sighting)
    requires Valid(b) && (d == Left || d == Right) && KingSquare(b, c) == Some(kp)
    requires Nearest(b, kp, d, c, map[]) == Ok(Some(s)) && s.kind == Rook
    ensures IsSquare(kp) && CanCastle(b, c, Some(d)) == CastleWithRook(b, c, d, kp, s)
  {
  }

  lemma RookChecksPass(b: BoardState, c: Color, d: Direction, kp: string, king: Piece, s: Sighting)
    requires Valid(b) && (d == Left || d == Right) && IsSquare(kp)
    requires KingSquare(b, c) == Some(kp) && b.pieces[kp] == Some(king)
    requires king.color == c && d in king.moves && NumericValue(king.moves[d]) == 2
    requires !Attacked(b, c, kp, map[]) && ExpectedRookOffset(c, d) == s.offset
    ensures CastleWithRook(b, c, d, kp, s) == CrossingUnattacked(b, c, Index(kp, c), PieceShift(d))
  {
    assert IsCheck(b, c, Some(kp), map[]) == Ok(false);
  }

  /** The two squares `can_castle` tests are the first two squares of the ray. */
  lemma CrossingSquares(b: BoardState, c: Color, kp: string, d: Direction)
    requires Valid(b) && KingSquare(b, c).Some? && IsSquare(kp) && d != LShape
    requires DirectionSquareCount(kp, d, c) >= 2
    ensures CrossingUnattacked(b, c, Index(kp, c), PieceShift(d)) ==
      Ok(!Attacked(b, c, RaySquare(kp, d, c, 1), map[]) && !Attacked(b, c, RaySquare(kp, d, c, 2), map[]))
  {
    var p1, p2 := RaySquare(kp, d, c, 1), RaySquare(kp, d, c, 2);
    assert IndexToPosition(Index(kp, c) + PieceShift(d), c) == Ok(p1)
        && IndexToPosition(Index(kp, c) + PieceShift(d) + PieceShift(d), c) == Ok(p2) by {
      CrossingIndices(kp, d, c);
    }
    CrossingEval(b, c, Index(kp, c), PieceShift(d), p1, p2);
  }

  lemma CrossingEval(b: BoardState, c: Color, kingIndex: int, shift: int, p1: string, p2: string)
    requires Valid(b) && KingSquare(b, c).Some?
    requires IndexToPosition(kingIndex + shift, c) == Ok(p1)
    requires IndexToPosition(kingIndex + shift + shift, c) == Ok(p2)
    ensures IsSquare(p1) && IsSquare(p2)
    ensures CrossingUnattacked(b, c, kingIndex, shift) == Ok(!Attacked(b, c, p1, map[]) && !Attacked(b, c, p2, map[]))
  {
  }

  /** The two indices `can_castle` computes name the first two squares of the ray. */
  lemma CrossingIndices(kp: string, d: Direction, c: Color)
    requires IsSquare(kp) && d != LShape
    requires DirectionSquareCount(kp, d, c) >= 2
    ensures IndexToPosition(Index(kp, c) + PieceShift(d), c) == Ok(RaySquare(kp, d, c, 1))
    ensures IndexToPosition(Index(kp, c) + PieceShift(d) + PieceShift(d), c) == Ok(RaySquare(kp, d, c, 2))
  {
    FirstRayIndex(kp, d, c);
    SecondCrossing(kp, d, c);
  }

  /** The second index `can_castle` computes names the second square of the ray. */
  lemma SecondCrossing(kp: string, d: Direction, c: Color)
    requires IsSquare(kp) && d != LShape
    requires DirectionSquareCount(kp, d, c) >= 2
    ensures IndexToPosition(Index(kp, c) + PieceShift(d) + PieceShift(d), c) == Ok(RaySquare(kp, d, c, 2))
  {
    RaySquareOffset(kp, d, c, 2);
    SquareIndexBackAt(RaySquare(kp, d, c, 2), c, Index(kp, c) + PieceShift(d) + PieceShift(d));
  }
}
