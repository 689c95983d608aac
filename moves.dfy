/**
 * Move generation and the end-of-game tests of src/board/chess_board.py: `get_legal_moves`,
 * `is_checkmate` and `is_stalemate`, with `is_position_occupied` beneath them. Each loop of
 * the source is a tail-recursive function here that carries the list built so far.
 */
module Moves {
  import opened Wrappers
  import opened Exceptions
  import opened ChessHelper
  import opened Pieces
  import opened Coordinates
  import opened Board
  import opened SpecialMoves

  /** `is_position_occupied`: validation, then the dictionary lookup (KeyError off the board). */
  function IsOccupied(b: BoardState, position: string): (r: Result<bool, Error>)
    requires Valid(b)
    ensures r.Ok? <==> IsSquare(position)
    ensures !IsValidPosition(position) ==> r == Err(InvalidPosition(position))
    ensures r.Ok? ==> (r.value <==> b.pieces[position].Some?)
  {
    if !IsValidPosition(position) then Err(InvalidPosition(position))
    else if position !in b.pieces then Err(KeyError)
    else Ok(b.pieces[position].Some?)
  }

  /** The piece whose moves are generated, its square, and its colour's recorded king square. */
  datatype Mover = Mover(position: string, piece: Piece, kingSquare: Option<string>)

  /** A square that holds a piece of the other colour than c. */
  predicate Enemy(b: BoardState, c: Color, q: string)
    requires Valid(b) && IsSquare(q)
  {
    b.pieces[q].Some? && b.pieces[q].value.color != c
  }

  /**
   * Where `get_legal_moves` looks for check after moving to q in direction d: the destination
   * itself for a king on a ray, the recorded king square in the L_SHAPE loop and for every
   * other piece.
   */
  function CheckedSquare(m: Mover, d: Direction, q: string): Option<string>
  {
    if m.piece.kind == King && d != LShape then Some(q) else m.kingSquare
  }

  /** The ghost test: is the mover's colour in check with the mover lifted onto q? */
  function GhostCheck(b: BoardState, m: Mover, d: Direction, q: string): Result<bool, Error>
    requires Valid(b)
  {
    IsCheck(b, m.piece.color, CheckedSquare(m, d, q), MoveGhost(m.position, q, m.piece))
  }

  // ---------------------------------------------------------------------------------------
  // The loops of get_legal_moves
  // ---------------------------------------------------------------------------------------

  /**
   * The L_SHAPE loop from the i-th knight square on: a square that passes the ghost test is
   * added when it is empty or holds an enemy.
   */
  function KnightMovesFrom(b: BoardState, m: Mover, ps: seq<string>, i: int, acc: seq<string>): Result<seq<string>, Error>
    requires Valid(b) && SquareList(ps) && 0 <= i <= |ps|
    decreases |ps| - i
  {
    if i == |ps| then Ok(acc)
    else
      var q := ps[i];
      var inCheck :- GhostCheck(b, m, LShape, q);
      if !inCheck && (b.pieces[q].None? || b.pieces[q].value.color != m.piece.color)
      then KnightMovesFrom(b, m, ps, i + 1, acc + [q])
      else KnightMovesFrom(b, m, ps, i + 1, acc)
  }

  /**
   * How many projected squares a reach value lets the loop visit: -1 means all of them, and
   * any other value cuts the list as a Python slice `[0:n]` does, a negative end counting
   * back from the end of the list.
   */
  function RayLimit(count: nat, reach: Reach): (n: nat)
    ensures n <= count
    ensures NumericValue(reach) == -1 ==> n == count
    ensures 0 <= NumericValue(reach) ==> n == Min(count, NumericValue(reach))
    ensures NumericValue(reach) < -1 ==>
      n == (if count + NumericValue(reach) >= 0 then count + NumericValue(reach) else 0)
  {
    var stated := if NumericValue(reach) == -1 then count else NumericValue(reach);
    var m := Min(count, stated);
    if m >= 0 then m else if count + m >= 0 then count + m else 0
  }

  /**
   * The loop over one ray from its k-th square on. A king stops at the first square where it
   * would be in check and offers the square two files away only when castling is allowed. A
   * pawn moves straight onto empty squares and diagonally onto an enemy on the first square
   * or onto the en-passant target. Any other piece moves onto empty squares and stops at the
   * first piece, taking it if it is an enemy. For pawns and the others, a square that fails
   * the ghost test is skipped and the loop goes on.
   */
  function RayMovesFrom(b: BoardState, m: Mover, d: Direction, ps: seq<string>, k: int, acc: seq<string>): Result<seq<string>, Error>
    requires Valid(b) && IsSquare(m.position) && SquareList(ps) && 0 <= k <= |ps|
    decreases |ps| - k
  {
    if k == |ps| then Ok(acc)
    else
      var turn :- RayTurn(b, m, d, ps, k, acc);
      if turn.1 then Ok(turn.0) else RayMovesFrom(b, m, d, ps, k + 1, turn.0)
  }

  /**
   * One pass of the ray loop over the k-th square: the moves so far, and whether the loop
   * breaks there.
   */
  function RayTurn(b: BoardState, m: Mover, d: Direction, ps: seq<string>, k: int, acc: seq<string>): Result<(seq<string>, bool), Error>
    requires Valid(b) && IsSquare(m.position) && SquareList(ps) && 0 <= k < |ps|
  {
    var q := ps[k];
    var inCheck :- GhostCheck(b, m, d, q);
    if m.piece.kind == King then
      if inCheck then Ok((acc, true))
      else
        var castle :- CanCastle(b, m.piece.color, Some(d));
        Ok(KingTurn(b, m, q, castle, acc))
    else if inCheck then Ok((acc, false))
    else if m.piece.kind == Pawn then PawnTurn(b, m, d, k, q, acc)
    else if b.pieces[q].None? then Ok((acc + [q], false))
    else if Enemy(b, m.piece.color, q) then Ok((acc + [q], true))
    else Ok((acc, true))
  }

  /** How many squares apart p and q are in colour c's numbering. */
  function Distance(p: string, q: string, c: Color): nat
    requires IsSquare(p) && IsSquare(q)
  {
    Abs(Index(p, c) - Index(q, c))
  }

  /**
   * A king's pass over a square where it would not be in check, given whether castling that
   * way is allowed: the square two columns away only by castling, others when empty or taken.
   */
  function KingTurn(b: BoardState, m: Mover, q: string, castle: bool, acc: seq<string>): (r: (seq<string>, bool))
    requires Valid(b) && IsSquare(m.position) && IsSquare(q)
    ensures r.0 == acc || r.0 == acc + [q]
    ensures var distance := Distance(m.position, q, m.piece.color);
      r.0 == acc + [q] <==>
        (castle && distance == 2) || (distance != 2 && !Own(b, m.piece.color, q))
    ensures r.1 <==> Distance(m.position, q, m.piece.color) != 2 && Enemy(b, m.piece.color, q)
  {
    var distance := Distance(m.position, q, m.piece.color);
    if castle && distance == 2 then (acc + [q], false)
    else if b.pieces[q].None? && distance != 2 then (acc + [q], false)
    else if Enemy(b, m.piece.color, q) && distance != 2 then (acc + [q], true)
    else (acc, false)
  }

  /**
   * A pawn's pass over the k-th square of its ray, where it would not be in check. Straight
   * ahead it moves onto an empty square and stops at any piece. Diagonally it takes an enemy
   * on the first square, and otherwise moves there only by en passant, stopping when that is
   * not allowed; the en-passant test's errors pass through.
   */
  function PawnTurn(b: BoardState, m: Mover, d: Direction, k: int, q: string, acc: seq<string>): (r: Result<(seq<string>, bool), Error>)
    requires Valid(b) && IsSquare(m.position) && IsSquare(q)
    ensures r.Ok? ==> r.value.0 == acc || r.value.0 == acc + [q]
    ensures var capture := Enemy(b, m.piece.color, q) && k == 0;
      var enPassant := CanEnPassant(b, m.position, Some(d));
      && (r.Err? <==> IsForwardDiagonal(d) && !capture && enPassant.Err?)
      && (r.Err? ==> r.error == enPassant.error)
      && (r.Ok? ==> (r.value.0 == acc + [q] <==>
            if IsForwardDiagonal(d) then capture || enPassant == Ok(true) else b.pieces[q].None?))
      && (r.Ok? ==> (r.value.1 <==>
            if IsForwardDiagonal(d) then capture || enPassant == Ok(false) else b.pieces[q].Some?))
  {
    if b.pieces[q].None? && !IsForwardDiagonal(d) then Ok((acc + [q], false))
    else if Enemy(b, m.piece.color, q) && IsForwardDiagonal(d) && k == 0 then Ok((acc + [q], true))
    else if IsForwardDiagonal(d) then
      var enPassant :- CanEnPassant(b, m.position, Some(d));
      if enPassant then Ok((acc + [q], false)) else Ok((acc, true))
    else Ok((acc, true))
  }

  /** The squares the loop over direction d visits: all knight squares, or a cut ray. */
  function Visited(m: Mover, d: Direction): (ps: seq<string>)
    requires IsSquare(m.position) && d in m.piece.moves
    ensures SquareList(ps)
  {
    var all := PossiblePositionsSpec(m.position, d, m.piece.color);
    PossibleSquares(m.position, d, m.piece.color);
    if d == LShape then all else all[..RayLimit(|all|, m.piece.moves[d])]
  }

  /** The moves the loop over direction d appends to acc. */
  function MovesInDirection(b: BoardState, m: Mover, d: Direction, acc: seq<string>): Result<seq<string>, Error>
    requires Valid(b) && IsSquare(m.position) && d in m.piece.moves
  {
    var ps := Visited(m, d);
    if d == LShape then KnightMovesFrom(b, m, ps, 0, acc) else RayMovesFrom(b, m, d, ps, 0, acc)
  }

  /** The loop over the reach table, from its j-th direction on. */
  function DirectionsFrom(b: BoardState, m: Mover, ds: seq<Direction>, j: int, acc: seq<string>): Result<seq<string>, Error>
    requires Valid(b) && IsSquare(m.position) && 0 <= j <= |ds|
    requires forall d :: d in ds ==> d in m.piece.moves
    decreases |ds| - j
  {
    if j == |ds| then Ok(acc)
    else
      var next :- MovesInDirection(b, m, ds[j], acc);
      DirectionsFrom(b, m, ds, j + 1, next)
  }

  /** One round of the loop over the reach table. */
  lemma DirectionsStep(b: BoardState, m: Mover, ds: seq<Direction>, j: int, acc: seq<string>,
                       next: Result<seq<string>, Error>, total: Result<seq<string>, Error>)
    requires Valid(b) && IsSquare(m.position) && 0 <= j < |ds|
    requires forall d :: d in ds ==> d in m.piece.moves
    requires next == MovesInDirection(b, m, ds[j], acc) && DirectionsFrom(b, m, ds, j, acc) == total
    ensures next.Err? ==> total == Err(next.error)
    ensures next.Ok? ==> DirectionsFrom(b, m, ds, j + 1, next.value) == total
  {
  }

  /** The mover standing on an occupied square. */
  function MoverAt(b: BoardState, position: string): (m: Mover)
    requires Valid(b) && IsSquare(position) && b.pieces[position].Some?
  {
    var piece := b.pieces[position].value;
    Mover(position, piece, KingSquare(b, piece.color))
  }

  /**
   * `get_legal_moves(position)`: the occupancy test (with its errors), nothing for an empty
   * square, otherwise every direction of the reach table in iteration order.
   */
  function LegalMoves(b: BoardState, position: string): (r: Result<seq<string>, Error>)
    requires Valid(b)
    ensures !IsValidPosition(position) ==> r == Err(InvalidPosition(position))
    ensures IsSquare(position) && b.pieces[position].None? ==> r == Ok([])
  {
    var occupied :- IsOccupied(b, position);
    if !occupied then Ok([])
    else
      var m := MoverAt(b, position);
      DirectionsFrom(b, m, ReachOrder(m.piece), 0, [])
  }

  // ---------------------------------------------------------------------------------------
  // is_checkmate, is_stalemate
  // ---------------------------------------------------------------------------------------

  /** A square holding a piece of colour c. */
  predicate Own(b: BoardState, c: Color, q: string)
    requires Valid(b) && IsSquare(q)
  {
    b.pieces[q].Some? && b.pieces[q].value.color == c
  }

  /**
   * `is_checkmate(c)`: is c in check, and does the king have no legal move? Only the king's
   * own moves are consulted. Without a recorded king the move lookup fails on None.
   */
  function IsCheckmate(b: BoardState, c: Color): (r: Result<bool, Error>)
    requires Valid(b)
  {
    var inCheck :- IsCheck(b, c, None, map[]);
    var kp := KingSquare(b, c);
    if kp.None? then Err(AttributeError)
    else
      var moves :- LegalMoves(b, kp.value);
      Ok(inCheck && moves == [])
  }

  /** The loop of `is_stalemate` over the squares ps in dictionary order, from the i-th on. */
  function MovesAvailableFrom(b: BoardState, c: Color, ps: seq<string>, i: int, found: bool): Result<bool, Error>
    requires Valid(b) && SquareList(ps) && 0 <= i <= |ps|
    decreases |ps| - i
  {
    if i == |ps| then Ok(found)
    else if Own(b, c, ps[i]) then
      var moves :- LegalMoves(b, ps[i]);
      MovesAvailableFrom(b, c, ps, i + 1, found || moves != [])
    else MovesAvailableFrom(b, c, ps, i + 1, found)
  }

  /** One pass of the stalemate loop: a piece of colour c adds whether it has a legal move. */
  lemma AvailableStep(b: BoardState, c: Color, ps: seq<string>, i: int, found: bool)
    requires Valid(b) && SquareList(ps) && 0 <= i < |ps|
    ensures !Own(b, c, ps[i]) ==> MovesAvailableFrom(b, c, ps, i, found) == MovesAvailableFrom(b, c, ps, i + 1, found)
    ensures Own(b, c, ps[i]) && LegalMoves(b, ps[i]).Err? ==>
              MovesAvailableFrom(b, c, ps, i, found) == Err(LegalMoves(b, ps[i]).error)
    ensures Own(b, c, ps[i]) && LegalMoves(b, ps[i]).Ok? ==>
              MovesAvailableFrom(b, c, ps, i, found) ==
              MovesAvailableFrom(b, c, ps, i + 1, found || LegalMoves(b, ps[i]).value != [])
  {
  }

  /** `is_stalemate(c)`: c is not in check and none of its pieces has a legal move. */
  function IsStalemate(b: BoardState, c: Color): (r: Result<bool, Error>)
    requires Valid(b)
  {
    DictOrderIsBoard();
    var available :- MovesAvailableFrom(b, c, DictOrder(), 0, false);
    var inCheck :- IsCheck(b, c, None, map[]);
    Ok(!inCheck && !available)
  }

  // ---------------------------------------------------------------------------------------
  // What the generated moves satisfy
  // ---------------------------------------------------------------------------------------

  /** The ghost test lets q through: after the move the mover's colour is not in check. */
  predicate PassesGhost(b: BoardState, m: Mover, d: Direction, q: string)
    requires Valid(b)
  {
    GhostCheck(b, m, d, q) == Ok(false)
  }

  /** Every square the knight loop adds was visited, passed the ghost test and holds no own piece. */
  lemma {:induction false} KnightMovesLegal(b: BoardState, m: Mover, ps: seq<string>, i: int, acc: seq<string>, q: string)
    requires Valid(b) && SquareList(ps) && 0 <= i <= |ps|
    requires KnightMovesFrom(b, m, ps, i, acc).Ok? && q in KnightMovesFrom(b, m, ps, i, acc).value
    decreases |ps| - i
    ensures q in acc || (q in ps[i..] && PassesGhost(b, m, LShape, q) && !Own(b, m.piece.color, q))
  {
    if i < |ps| {
      var p := ps[i];
      var inCheck := GhostCheck(b, m, LShape, p).value;
      if !inCheck && (b.pieces[p].None? || b.pieces[p].value.color != m.piece.color) {
        KnightMovesLegal(b, m, ps, i + 1, acc + [p], q);
      } else {
        KnightMovesLegal(b, m, ps, i + 1, acc, q);
      }
    }
  }

  /** One pass of a ray loop keeps the list or adds the square, and adds it only when it passes the ghost test. */
  lemma TurnLegal(b: BoardState, m: Mover, d: Direction, ps: seq<string>, k: int, acc: seq<string>)
    requires Valid(b) && IsSquare(m.position) && SquareList(ps) && 0 <= k < |ps|
    requires RayTurn(b, m, d, ps, k, acc).Ok?
    ensures var moves := RayTurn(b, m, d, ps, k, acc).value.0;
      moves == acc || (moves == acc + [ps[k]] && PassesGhost(b, m, d, ps[k]))
  {
    assert GhostCheck(b, m, d, ps[k]).Ok?;
  }

  /** Every square a ray loop adds was visited and passed the ghost test. */
  lemma {:induction false} RayMovesLegal(b: BoardState, m: Mover, d: Direction, ps: seq<string>, k: int, acc: seq<string>, q: string)
    requires Valid(b) && IsSquare(m.position) && SquareList(ps) && 0 <= k <= |ps|
    requires RayMovesFrom(b, m, d, ps, k, acc).Ok? && q in RayMovesFrom(b, m, d, ps, k, acc).value
    decreases |ps| - k
    ensures q in acc || (q in ps[k..] && PassesGhost(b, m, d, q))
  {
    if k < |ps| {
      var turn := RayTurn(b, m, d, ps, k, acc).value;
      TurnLegal(b, m, d, ps, k, acc);
      assert ps[k] in ps[k..];
      if !turn.1 {
        RayMovesLegal(b, m, d, ps, k + 1, turn.0, q);
        assert forall x :: x in ps[k + 1..] ==> x in ps[k..];
      }
    }
  }

  /** The squares a direction's loop visits are projected squares in that direction. */
  lemma VisitedProjected(m: Mover, d: Direction, q: string)
    requires IsSquare(m.position) && d in m.piece.moves && q in Visited(m, d)
    ensures q in PossiblePositionsSpec(m.position, d, m.piece.color)
  {
    var all := PossiblePositionsSpec(m.position, d, m.piece.color);
    if d != LShape {
      var n := RayLimit(|all|, m.piece.moves[d]);
      var k :| 0 <= k < n && all[..n][k] == q;
      assert all[k] == q;
    }
  }

  /** Every square the direction loop adds was visited in one of the directions and passed the ghost test. */
  lemma {:induction false} DirectionsLegal(b: BoardState, m: Mover, ds: seq<Direction>, j: int, acc: seq<string>, q: string)
    requires Valid(b) && IsSquare(m.position) && 0 <= j <= |ds|
    requires forall d :: d in ds ==> d in m.piece.moves
    requires DirectionsFrom(b, m, ds, j, acc).Ok? && q in DirectionsFrom(b, m, ds, j, acc).value
    decreases |ds| - j
    ensures q in acc || exists d :: d in ds && q in Visited(m, d) && PassesGhost(b, m, d, q)
  {
    if j < |ds| {
      var d := ds[j];
      var ps := Visited(m, d);
      var next := if d == LShape then KnightMovesFrom(b, m, ps, 0, acc) else RayMovesFrom(b, m, d, ps, 0, acc);
      DirectionsLegal(b, m, ds, j + 1, next.value, q);
      if q in next.value && q !in acc {
        if d == LShape {
          KnightMovesLegal(b, m, ps, 0, acc, q);
        } else {
          RayMovesLegal(b, m, d, ps, 0, acc, q);
        }
        assert ps[0..] == ps;
      }
    }
  }

  /**
   * Legality of the generated moves: each square `get_legal_moves` returns is a projected
   * square of one of the piece's directions, and moving there leaves the mover's colour out
   * of check, with the origin emptied and the mover standing on the destination. The check is
   * looked for at the destination when a king moves along a ray, and at the recorded king
   * square in the L_SHAPE loop and for every other piece.
   */
  lemma LegalMovesAreSafe(b: BoardState, position: string, q: string)
    requires Valid(b)
    requires LegalMoves(b, position).Ok? && q in LegalMoves(b, position).value
    ensures IsSquare(position) && b.pieces[position].Some?
    ensures var piece := b.pieces[position].value;
      exists d :: d in piece.moves && q in PossiblePositionsSpec(position, d, piece.color) &&
        IsCheck(b, piece.color,
                if piece.kind == King && d != LShape then Some(q) else KingSquare(b, piece.color),
                MoveGhost(position, q, piece)) == Ok(false)
  {
    var m := MoverAt(b, position);
    DirectionsLegal(b, m, ReachOrder(m.piece), 0, [], q);
    var d :| d in ReachOrder(m.piece) && q in Visited(m, d) && PassesGhost(b, m, d, q);
    SafeDirection(b, m, d, q);
  }

  /** A visited square that passed the ghost test is projected, and the test's answer is "not in check". */
  lemma SafeDirection(b: BoardState, m: Mover, d: Direction, q: string)
    requires Valid(b) && IsSquare(m.position) && d in m.piece.moves && q in Visited(m, d) && PassesGhost(b, m, d, q)
    ensures d in m.piece.moves && q in PossiblePositionsSpec(m.position, d, m.piece.color)
    ensures IsCheck(b, m.piece.color, if m.piece.kind == King && d != LShape then Some(q) else m.kingSquare,
                    MoveGhost(m.position, q, m.piece)) == Ok(false)
  {
    VisitedProjected(m, d, q);
  }

  /** When no visited knight square passes the ghost test, the knight loop adds nothing. */
  lemma {:induction false} KnightMovesPinned(b: BoardState, m: Mover, ps: seq<string>, i: int, acc: seq<string>)
    requires Valid(b) && SquareList(ps) && 0 <= i <= |ps|
    requires forall k :: i <= k < |ps| ==> GhostCheck(b, m, LShape, ps[k]) == Ok(true)
    decreases |ps| - i
    ensures KnightMovesFrom(b, m, ps, i, acc) == Ok(acc)
  {
    if i < |ps| {
      KnightMovesPinned(b, m, ps, i + 1, acc);
    }
  }

  /** When no visited ray square passes the ghost test, the ray loop adds nothing. */
  lemma {:induction false} RayMovesPinned(b: BoardState, m: Mover, d: Direction, ps: seq<string>, k: int, acc: seq<string>)
    requires Valid(b) && IsSquare(m.position) && SquareList(ps) && 0 <= k <= |ps|
    requires forall j :: k <= j < |ps| ==> GhostCheck(b, m, d, ps[j]) == Ok(true)
    decreases |ps| - k
    ensures RayMovesFrom(b, m, d, ps, k, acc) == Ok(acc)
  {
    if k < |ps| {
      PinnedStep(b, m, d, ps, k, acc);
      if m.piece.kind != King {
        RayMovesPinned(b, m, d, ps, k + 1, acc);
      }
    }
  }

  /** A square that fails the ghost test ends a king's ray and is skipped by the others. */
  lemma PinnedStep(b: BoardState, m: Mover, d: Direction, ps: seq<string>, k: int, acc: seq<string>)
    requires Valid(b) && IsSquare(m.position) && SquareList(ps) && 0 <= k < |ps|
    requires GhostCheck(b, m, d, ps[k]) == Ok(true)
    ensures RayMovesFrom(b, m, d, ps, k, acc) ==
      if m.piece.kind == King then Ok(acc) else RayMovesFrom(b, m, d, ps, k + 1, acc)
  {
  }

  lemma {:induction false} DirectionsPinned(b: BoardState, m: Mover, ds: seq<Direction>, j: int, acc: seq<string>)
    requires Valid(b) && IsSquare(m.position) && 0 <= j <= |ds|
    requires forall d :: d in ds ==> d in m.piece.moves
    requires forall d, q :: d in ds && q in Visited(m, d) ==> GhostCheck(b, m, d, q) == Ok(true)
    decreases |ds| - j
    ensures DirectionsFrom(b, m, ds, j, acc) == Ok(acc)
  {
    if j < |ds| {
      var d := ds[j];
      var ps := Visited(m, d);
      if d == LShape {
        KnightMovesPinned(b, m, ps, 0, acc);
      } else {
        RayMovesPinned(b, m, d, ps, 0, acc);
      }
      DirectionsPinned(b, m, ds, j + 1, acc);
    }
  }

  /**
   * A pinned piece has no moves: when every projected square of every direction fails the
   * ghost test, `get_legal_moves` returns the empty list.
   */
  lemma PinnedPieceHasNoMoves(b: BoardState, position: string)
    requires Valid(b) && IsSquare(position) && b.pieces[position].Some?
    requires var m := MoverAt(b, position);
      forall d, q :: d in m.piece.moves && q in PossiblePositionsSpec(position, d, m.piece.color) ==>
        GhostCheck(b, m, d, q) == Ok(true)
    ensures LegalMoves(b, position) == Ok([])
  {
    var m := MoverAt(b, position);
    forall d, q | d in ReachOrder(m.piece) && q in Visited(m, d)
      ensures GhostCheck(b, m, d, q) == Ok(true)
    {
      VisitedProjected(m, d, q);
    }
    DirectionsPinned(b, m, ReachOrder(m.piece), 0, []);
  }

  // ---------------------------------------------------------------------------------------
  // Rays while every ghost test passes
  // ---------------------------------------------------------------------------------------

  /** The index of the first square from k on that holds a piece, or |ps| when none does. */
  function FirstOccupied(b: BoardState, ps: seq<string>, k: int): (f: int)
    requires Valid(b) && SquareList(ps) && 0 <= k <= |ps|
    ensures k <= f <= |ps|
    ensures f < |ps| ==> b.pieces[ps[f]].Some?
    ensures forall j :: k <= j < f ==> b.pieces[ps[j]].None?
    decreases |ps| - k
  {
    if k == |ps| then |ps| else if b.pieces[ps[k]].Some? then k else FirstOccupied(b, ps, k + 1)
  }

  /**
   * What an unobstructed-by-check ray offers from its k-th square on: the empty squares up to
   * the first piece, then that piece's square if it holds an enemy.
   */
  function OpenRay(b: BoardState, c: Color, ps: seq<string>, k: int): seq<string>
    requires Valid(b) && SquareList(ps) && 0 <= k <= |ps|
  {
    var f := FirstOccupied(b, ps, k);
    ps[k..f] + (if f < |ps| && Enemy(b, c, ps[f]) then [ps[f]] else [])
  }

  /** Taking the empty k-th square first and then the rest is the same ray. */
  lemma OpenRayStep(b: BoardState, c: Color, ps: seq<string>, k: int)
    requires Valid(b) && SquareList(ps) && 0 <= k < |ps| && b.pieces[ps[k]].None?
    ensures OpenRay(b, c, ps, k) == [ps[k]] + OpenRay(b, c, ps, k + 1)
    ensures ps[k..FirstOccupied(b, ps, k)] == [ps[k]] + ps[k + 1..FirstOccupied(b, ps, k + 1)]
  {
    var f := FirstOccupied(b, ps, k);
    assert ps[k..f] == [ps[k]] + ps[k + 1..f];
  }

  /** One step of a slider's ray loop when the ghost test passes. */
  lemma SliderStep(b: BoardState, m: Mover, d: Direction, ps: seq<string>, k: int, acc: seq<string>)
    requires Valid(b) && IsSquare(m.position) && SquareList(ps) && 0 <= k < |ps|
    requires m.piece.kind != King && m.piece.kind != Pawn && PassesGhost(b, m, d, ps[k])
    ensures RayMovesFrom(b, m, d, ps, k, acc) ==
      if b.pieces[ps[k]].None? then RayMovesFrom(b, m, d, ps, k + 1, acc + [ps[k]])
      else if Enemy(b, m.piece.color, ps[k]) then Ok(acc + [ps[k]])
      else Ok(acc)
  {
  }

  /**
   * A rook, bishop, queen (or any piece other than a king or pawn) whose every visited square
   * passes the ghost test moves along the ray up to the first piece and stops there, taking it
   * exactly when it is an enemy.
   */
  lemma {:induction false} SliderStopsAtFirstPiece(b: BoardState, m: Mover, d: Direction, ps: seq<string>, k: int, acc: seq<string>)
    requires Valid(b) && IsSquare(m.position) && SquareList(ps) && 0 <= k <= |ps|
    requires m.piece.kind != King && m.piece.kind != Pawn
    requires forall j :: k <= j < |ps| ==> PassesGhost(b, m, d, ps[j])
    decreases |ps| - k
    ensures RayMovesFrom(b, m, d, ps, k, acc) == Ok(acc + OpenRay(b, m.piece.color, ps, k))
  {
    if k == |ps| {
      assert OpenRay(b, m.piece.color, ps, k) == ps[k..k] == [];
      assert acc + [] == acc;
    } else {
      SliderStep(b, m, d, ps, k, acc);
      if b.pieces[ps[k]].None? {
        SliderStopsAtFirstPiece(b, m, d, ps, k + 1, acc + [ps[k]]);
        OpenRayStep(b, m.piece.color, ps, k);
        assert acc + [ps[k]] + OpenRay(b, m.piece.color, ps, k + 1) == acc + OpenRay(b, m.piece.color, ps, k);
      } else {
        assert FirstOccupied(b, ps, k) == k;
        assert OpenRay(b, m.piece.color, ps, k) == if Enemy(b, m.piece.color, ps[k]) then [ps[k]] else [];
        assert acc + [] == acc;
      }
    }
  }

  /**
   * A king's step onto the one square a reach of 1 lets it visit, away from the castling
   * squares: it is a destination exactly when it holds no piece of the king's colour.
   */
  lemma KingStep(b: BoardState, m: Mover, d: Direction, q: string, acc: seq<string>)
    requires Valid(b) && IsSquare(m.position) && IsSquare(q)
    requires m.piece.kind == King && CanCastle(b, m.piece.color, Some(d)) == Ok(false)
    requires Distance(m.position, q, m.piece.color) != 2
    requires PassesGhost(b, m, d, q)
    ensures RayMovesFrom(b, m, d, [q], 0, acc) == if Own(b, m.piece.color, q) then Ok(acc) else Ok(acc + [q])
  {
    var moves := if Own(b, m.piece.color, q) then acc else acc + [q];
    KingPlainTurn(b, m, d, q, acc);
    SingleSquareRay(b, m, d, q, acc, moves, Enemy(b, m.piece.color, q));
  }

  /** Without castling and off the castling squares, a king's pass adds any square but its own side's. */
  lemma KingPlainTurn(b: BoardState, m: Mover, d: Direction, q: string, acc: seq<string>)
    requires Valid(b) && IsSquare(m.position) && IsSquare(q)
    requires m.piece.kind == King && CanCastle(b, m.piece.color, Some(d)) == Ok(false)
    requires Distance(m.position, q, m.piece.color) != 2
    requires PassesGhost(b, m, d, q)
    ensures RayTurn(b, m, d, [q], 0, acc) ==
      Ok((if Own(b, m.piece.color, q) then acc else acc + [q], Enemy(b, m.piece.color, q)))
  {
    assert RayTurn(b, m, d, [q], 0, acc) == Ok(KingTurn(b, m, q, false, acc));
  }

  /** A ray of one square yields what its one pass yields. */
  lemma SingleSquareRay(b: BoardState, m: Mover, d: Direction, q: string, acc: seq<string>, moves: seq<string>, stop: bool)
    requires Valid(b) && IsSquare(m.position) && IsSquare(q)
    requires RayTurn(b, m, d, [q], 0, acc) == Ok((moves, stop))
    ensures RayMovesFrom(b, m, d, [q], 0, acc) == Ok(moves)
  {
    assert RayMovesFrom(b, m, d, [q], 1, moves) == Ok(moves);
  }

  /** One step of a pawn's straight ray when the ghost test passes. */
  lemma PawnForwardStep(b: BoardState, m: Mover, d: Direction, ps: seq<string>, k: int, acc: seq<string>)
    requires Valid(b) && IsSquare(m.position) && SquareList(ps) && 0 <= k < |ps|
    requires m.piece.kind == Pawn && !IsForwardDiagonal(d) && PassesGhost(b, m, d, ps[k])
    ensures RayMovesFrom(b, m, d, ps, k, acc) ==
      if b.pieces[ps[k]].None? then RayMovesFrom(b, m, d, ps, k + 1, acc + [ps[k]]) else Ok(acc)
  {
  }

  /**
   * A pawn's straight ray never captures: with every ghost test passing, it offers exactly
   * the empty squares before the first piece of either colour.
   */
  lemma {:induction false} PawnForwardIsBlocked(b: BoardState, m: Mover, d: Direction, ps: seq<string>, k: int, acc: seq<string>)
    requires Valid(b) && IsSquare(m.position) && SquareList(ps) && 0 <= k <= |ps|
    requires m.piece.kind == Pawn && !IsForwardDiagonal(d)
    requires forall j :: k <= j < |ps| ==> PassesGhost(b, m, d, ps[j])
    decreases |ps| - k
    ensures RayMovesFrom(b, m, d, ps, k, acc) == Ok(acc + ps[k..FirstOccupied(b, ps, k)])
  {
    if k == |ps| {
      assert acc + ps[k..k] == acc;
    } else {
      PawnForwardStep(b, m, d, ps, k, acc);
      if b.pieces[ps[k]].None? {
        PawnForwardIsBlocked(b, m, d, ps, k + 1, acc + [ps[k]]);
        OpenRayStep(b, m.piece.color, ps, k);
        assert acc + [ps[k]] + ps[k + 1..FirstOccupied(b, ps, k + 1)] == acc + ps[k..FirstOccupied(b, ps, k)];
      } else {
        assert FirstOccupied(b, ps, k) == k;
        assert acc + ps[k..k] == acc;
      }
    }
  }

  /**
   * A pawn's diagonal step (the one square its reach of 1 lets it visit) is a destination
   * exactly when it holds an enemy or is the en-passant target.
   */
  lemma PawnDiagonal(b: BoardState, m: Mover, d: Direction, acc: seq<string>)
    requires Valid(b) && IsSquare(m.position) && b.pieces[m.position] == Some(m.piece) && m.piece.kind == Pawn
    requires IsForwardDiagonal(d) && DirectionSquareCount(m.position, d, m.piece.color) >= 1
    requires PassesGhost(b, m, d, RaySquare(m.position, d, m.piece.color, 1))
    ensures var q := RaySquare(m.position, d, m.piece.color, 1);
      RayMovesFrom(b, m, d, [q], 0, acc) ==
        if Enemy(b, m.piece.color, q) || b.epTarget == Some(q) then Ok(acc + [q]) else Ok(acc)
  {
    EnPassantOntoTarget(b, m.position, d);
  }

  /** With the pawn's table the diagonal loop visits that one square. */
  lemma PawnDiagonalVisits(m: Mover, d: Direction)
    requires IsSquare(m.position) && IsForwardDiagonal(d) && d in m.piece.moves
    requires m.piece.moves[d] == Steps(1) && DirectionSquareCount(m.position, d, m.piece.color) >= 1
    ensures Visited(m, d) == [RaySquare(m.position, d, m.piece.color, 1)]
  {
    var n := DirectionSquareCount(m.position, d, m.piece.color);
    var all := PossiblePositionsSpec(m.position, d, m.piece.color);
    assert all == RayPrefix(m.position, d, m.piece.color, n);
    RayPrefixAt(m.position, d, m.piece.color, n, 0);
    assert RayLimit(|all|, Steps(1)) == 1;
    assert all[..1] == [all[0]];
  }

  // ---------------------------------------------------------------------------------------
  // Checkmate and stalemate
  // ---------------------------------------------------------------------------------------

  /**
   * Checkmate as the source decides it: colour c has a king, the king's square is attacked,
   * and the king itself has no legal move.
   */
  lemma CheckmateCharacterized(b: BoardState, c: Color)
    requires Valid(b)
    ensures IsCheckmate(b, c) == Ok(true) <==>
      && KingSquare(b, c).Some?
      && Attacked(b, c, KingSquare(b, c).value, map[])
      && LegalMoves(b, KingSquare(b, c).value) == Ok([])
  {
  }

  /** No piece of colour c on the squares ps[i..] has a legal move. */
  predicate NoMovesFrom(b: BoardState, c: Color, ps: seq<string>, i: int)
    requires Valid(b) && SquareList(ps) && 0 <= i <= |ps|
  {
    forall j :: i <= j < |ps| && Own(b, c, ps[j]) ==> LegalMoves(b, ps[j]) == Ok([])
  }

  lemma {:induction false} MovesAvailableNone(b: BoardState, c: Color, ps: seq<string>, i: int, found: bool)
    requires Valid(b) && SquareList(ps) && 0 <= i <= |ps|
    decreases |ps| - i
    ensures MovesAvailableFrom(b, c, ps, i, found) == Ok(false) <==> !found && NoMovesFrom(b, c, ps, i)
  {
    if i < |ps| {
      NoMovesStep(b, c, ps, i);
      if Own(b, c, ps[i]) {
        var moves := LegalMoves(b, ps[i]);
        if moves.Ok? {
          MovesAvailableNone(b, c, ps, i + 1, found || moves.value != []);
        }
      } else {
        MovesAvailableNone(b, c, ps, i + 1, found);
      }
    }
  }

  lemma NoMovesStep(b: BoardState, c: Color, ps: seq<string>, i: int)
    requires Valid(b) && SquareList(ps) && 0 <= i < |ps|
    ensures NoMovesFrom(b, c, ps, i) <==>
      (Own(b, c, ps[i]) ==> LegalMoves(b, ps[i]) == Ok([])) && NoMovesFrom(b, c, ps, i + 1)
  {
  }

  /**
   * Stalemate: colour c is not in check (or has no king) and no piece of colour c has a
   * legal move.
   */
  lemma StalemateCharacterized(b: BoardState, c: Color)
    requires Valid(b)
    ensures IsStalemate(b, c) == Ok(true) <==>
      && (KingSquare(b, c).None? || !Attacked(b, c, KingSquare(b, c).value, map[]))
      && forall p :: IsSquare(p) && Own(b, c, p) ==> LegalMoves(b, p) == Ok([])
  {
    DictOrderIsBoard();
    MovesAvailableNone(b, c, DictOrder(), 0, false);
  }
}
