/**
 * Applying a move (src/board/chess_board.py, `move_piece` and the accessors it goes through):
 * the squares it changes, the dictionary of changed squares it returns, castling, en passant
 * and the lowering of pawn and king reach. The source updates the board in place step by
 * step, so an error can leave a board partly updated; every step here therefore yields the
 * board it leaves behind together with what it returned or raised.
 */
module MovePiece {
  import opened Wrappers
  import opened Exceptions
  import opened ChessHelper
  import opened Pieces
  import opened Coordinates
  import opened Board
  import opened SpecialMoves

  /** The board a step leaves behind, and what the step returned or raised. */
  datatype Outcome<T> = Outcome(board: BoardState, result: Result<T, Error>)

  /** The dictionary `move_piece` returns: each changed square and what now stands on it. */
  type Changes = map<string, Option<Piece>>

  // ---------------------------------------------------------------------------------------
  // __getitem__, __setitem__, _remove_piece
  // ---------------------------------------------------------------------------------------

  /** `__getitem__`: a plain dictionary lookup, so anything but a square is a KeyError. */
  function GetItem(b: BoardState, p: string): (r: Result<Option<Piece>, Error>)
    requires Valid(b)
    ensures r.Ok? <==> IsSquare(p)
    ensures r.Err? ==> r.error == KeyError
  {
    if p in b.pieces then Ok(b.pieces[p]) else Err(KeyError)
  }

  /**
   * `__setitem__`: validate, store (a copy of) the piece, and record the square of a king.
   * Storing None stores it and then fails on `None.type`. A valid text that is not a square
   * ("a0") is refused with KeyError and changes nothing.
   */
  function SetItem(b: BoardState, p: string, piece: Option<Piece>): (o: Outcome<()>)
    requires Valid(b)
    ensures Valid(o.board)
    ensures !IsValidPosition(p) ==> o == Outcome(b, Err(InvalidPosition(p)))
    ensures IsValidPosition(p) && !IsSquare(p) ==> o == Outcome(b, Err(KeyError))
    ensures IsSquare(p) ==>
      && o.board.pieces == b.pieces[p := piece]
      && o.board.epTarget == b.epTarget && o.board.epPawn == b.epPawn
      && (o.result.Ok? <==> piece.Some?)
      && (o.result.Err? ==> o.result.error == AttributeError)
      && forall c :: KingSquare(o.board, c) ==
           if piece.Some? && piece.value.kind == King && piece.value.color == c then Some(p)
           else KingSquare(b, c)
  {
    if !IsValidPosition(p) then Outcome(b, Err(InvalidPosition(p)))
    else if !IsSquare(p) then Outcome(b, Err(KeyError))
    else
      var stored := b.(pieces := b.pieces[p := piece]);
      if piece.None? then Outcome(stored, Err(AttributeError))
      else if piece.value.kind == King then Outcome(WithKing(stored, piece.value.color, p), Ok(()))
      else Outcome(stored, Ok(()))
  }

  /**
   * `_remove_piece`: validate, then empty the square through the index table, which has no
   * entry for a valid text that is not a square. The king squares are not touched.
   */
  function RemovePiece(b: BoardState, p: string): (o: Outcome<()>)
    requires Valid(b)
    ensures Valid(o.board)
    ensures o.result.Ok? <==> IsSquare(p)
    ensures !IsValidPosition(p) ==> o == Outcome(b, Err(InvalidPosition(p)))
    ensures IsValidPosition(p) && !IsSquare(p) ==> o == Outcome(b, Err(KeyError))
    ensures IsSquare(p) ==> o.board == b.(pieces := b.pieces[p := None])
  {
    if !IsValidPosition(p) then Outcome(b, Err(InvalidPosition(p)))
    else if !IsSquare(p) then Outcome(b, Err(KeyError))
    else Outcome(b.(pieces := b.pieces[p := None]), Ok(()))
  }

  /** What is stored is what is read back, and no other square changes. */
  lemma SetThenGet(b: BoardState, p: string, piece: Piece, q: string)
    requires Valid(b) && IsSquare(p)
    ensures SetItem(b, p, Some(piece)).result == Ok(())
    ensures GetItem(SetItem(b, p, Some(piece)).board, q) ==
            if q == p then Ok(Some(piece)) else GetItem(b, q)
  {
  }

  /** Removing empties the square, and reading it back gives None. */
  lemma RemoveThenGet(b: BoardState, p: string, q: string)
    requires Valid(b) && IsSquare(p)
    ensures GetItem(RemovePiece(b, p).board, q) == if q == p then Ok(None) else GetItem(b, q)
  {
  }

  // ---------------------------------------------------------------------------------------
  // The steps of move_piece
  // ---------------------------------------------------------------------------------------

  /**
   * The en-passant record a move leaves: after a pawn advanced two rows, the square one row
   * ahead of its start (the square it passed over) and its end position; none after any other
   * move. The shift can fail in general, but never after a two-row advance.
   */
  function EnPassantAfter(s: string, e: string, mover: Piece): (r: Result<(Option<string>, Option<string>), Error>)
    requires IsSquare(s) && IsValidPosition(e)
    ensures r.Ok?
    ensures var double := mover.kind == Pawn && ColumnRow(e, mover.color).1 - ColumnRow(s, mover.color).1 == 2;
      && (double ==> DirectionSquareCount(s, Forward, mover.color) >= 1 &&
                     r.value == (Some(RaySquare(s, Forward, mover.color, 1)), Some(e)))
      && (!double ==> r.value == (None, None))
  {
    if mover.kind == Pawn && ColumnRow(e, mover.color).1 - ColumnRow(s, mover.color).1 == 2 then
      DoubleStepTarget(s, e, mover.color);
      Ok((Some(ShiftedByOffset(s, Forward, 1, mover.color).value), Some(e)))
    else Ok((None, None))
  }

  /**
   * The pawn branch: a forward reach above 1 is lowered to 1 on the board, then an
   * en-passant capture empties the square of the pawn that advanced two rows.
   */
  function PawnPhase(b: BoardState, s: string, mover: Piece, d: Option<Direction>, changes: Changes): (o: Outcome<(Piece, Changes)>)
    requires Valid(b) && IsSquare(s) && b.pieces[s] == Some(mover) && mover.kind == Pawn
    ensures Valid(o.board)
  {
    if Forward !in mover.moves then Outcome(b, Err(KeyError))
    else
      var lowered :=
        if NumericValue(mover.moves[Forward]) > 1 then mover.(moves := mover.moves[Forward := Steps(1)])
        else mover;
      var b1 := b.(pieces := b.pieces[s := Some(lowered)]);
      var enPassant := CanEnPassant(b1, s, d);
      if enPassant.Err? then Outcome(b1, Err(enPassant.error))
      else if !enPassant.value then Outcome(b1, Ok((lowered, changes)))
      else if b.epPawn.None? then Outcome(b1, Err(AttributeError))  // validating None fails on `decode`
      else
        var taken := RemovePiece(b1, b.epPawn.value);
        if taken.result.Err? then Outcome(taken.board, Err(taken.result.error))
        else Outcome(taken.board, Ok((lowered, changes[b.epPawn.value := None])))
  }

  /**
   * Castling's rook move: when `can_castle` holds, the piece on the rook's home corner is put
   * on the square beside the king's start, and the corner is emptied.
   */
  function CastleRook(b: BoardState, s: string, c: Color, d: Option<Direction>, changes: Changes): (o: Outcome<Changes>)
    requires Valid(b) && IsSquare(s)
    ensures Valid(o.board)
  {
    var castle := CanCastle(b, c, d);
    if castle.Err? then Outcome(b, Err(castle.error))
    else if !castle.value then Outcome(b, Ok(changes))
    else
      var newRook := ShiftedByOffset(s, d.value, 1, c);
      if newRook.Err? then Outcome(b, Err(newRook.error))
      else
        var home := RookHome(c, d.value);
        var placed := SetItem(b, newRook.value, b.pieces[home]);
        if placed.result.Err? then Outcome(placed.board, Err(placed.result.error))
        else
          var cleared := RemovePiece(placed.board, home);
          Outcome(cleared.board, Ok(changes[newRook.value := cleared.board.pieces[newRook.value]][home := None]))
  }

  /** The king branch: castle on a two-column move, then LEFT and RIGHT reach become 1. */
  function KingPhase(b: BoardState, s: string, mover: Piece, disp: Displacement, changes: Changes): (o: Outcome<(Piece, Changes)>)
    requires Valid(b) && IsSquare(s) && b.pieces[s] == Some(mover) && mover.kind == King
    ensures Valid(o.board)
  {
    var castled :=
      if Abs(disp.offset.0) == 2 then CastleRook(b, s, mover.color, disp.direction, changes)
      else Outcome(b, Ok(changes));
    if castled.result.Err? then Outcome(castled.board, Err(castled.result.error))
    else Outcome(castled.board, Ok((mover.(moves := mover.moves[Left := Steps(1)][Right := Steps(1)]), castled.result.value)))
  }

  /**
   * The rook branch: a rook leaving column 0 or 7 (as its colour sees the board) lowers the
   * king's reach towards that side to 1. The king object is the one on the recorded king
   * square; when that record is stale and points at the rook itself, the rook is lowered.
   */
  function RookPhase(b: BoardState, s: string, mover: Piece, changes: Changes): (o: Outcome<(Piece, Changes)>)
    requires Valid(b) && IsSquare(s) && b.pieces[s] == Some(mover) && mover.kind == Rook
    ensures Valid(o.board)
  {
    var kp := KingSquare(b, mover.color);
    var column := ColumnRow(s, mover.color).0;
    var side := if column == 0 then Some(Left) else if column == 7 then Some(Right) else None;
    if kp.None? || side.None? then Outcome(b, Ok((mover, changes)))
    else if b.pieces[kp.value].None? then Outcome(b, Err(AttributeError))
    else
      var king := b.pieces[kp.value].value;
      if side.value !in king.moves then Outcome(b, Err(KeyError))
      else if NumericValue(king.moves[side.value]) <= 1 then Outcome(b, Ok((mover, changes)))
      else
        var lowered := king.(moves := king.moves[side.value := Steps(1)]);
        Outcome(b.(pieces := b.pieces[kp.value := Some(lowered)]),
                Ok((if kp.value == s then lowered else mover, changes)))
  }

  /** The last steps: empty the start and end squares, then put the mover on the end square. */
  function FinishMove(b: BoardState, s: string, e: string, moved: Piece, changes: Changes): (o: Outcome<Changes>)
    requires Valid(b) && IsSquare(s)
    ensures Valid(o.board)
  {
    var cleared := RemovePiece(b, s).board;
    var emptied := RemovePiece(cleared, e);
    if emptied.result.Err? then Outcome(emptied.board, Err(emptied.result.error))
    else Outcome(SetItem(emptied.board, e, Some(moved)).board, Ok(changes))
  }

  /** The branch of the mover's kind; knights, bishops and queens have none. */
  function KindPhase(b: BoardState, s: string, mover: Piece, disp: Displacement, changes: Changes): (o: Outcome<(Piece, Changes)>)
    requires Valid(b) && IsSquare(s) && b.pieces[s] == Some(mover)
    ensures Valid(o.board)
  {
    match mover.kind
    case Pawn => PawnPhase(b, s, mover, disp.direction, changes)
    case King => KingPhase(b, s, mover, disp, changes)
    case Rook => RookPhase(b, s, mover, changes)
    case _ => Outcome(b, Ok((mover, changes)))
  }

  /**
   * `move_piece(s, e)`: validate both positions, read the mover (KeyError off the board,
   * EmptyPositionError on an empty square), note the result entries for s and e with a copy
   * of the mover, work out the new en-passant record, run the branch of the mover's kind,
   * and finally record the en-passant state and move the piece.
   */
  function MovePiece(b: BoardState, s: string, e: string): (o: Outcome<Changes>)
    requires Valid(b)
    ensures Valid(o.board)
  {
    if !IsValidPosition(s) then Outcome(b, Err(InvalidPosition(s)))
    else if !IsValidPosition(e) then Outcome(b, Err(InvalidPosition(e)))
    else if s !in b.pieces then Outcome(b, Err(KeyError))
    else if b.pieces[s].None? then Outcome(b, Err(EmptyPosition(s)))
    else
      var mover := b.pieces[s].value;
      var disp := DirectionAndOffset(s, e, mover.color).value;
      var changes := map[s := None][e := Some(mover)];
      var enPassant := EnPassantAfter(s, e, mover);
      if enPassant.Err? then Outcome(b, Err(enPassant.error))
      else
        var branch := KindPhase(b, s, mover, disp, changes);
        if branch.result.Err? then Outcome(branch.board, Err(branch.result.error))
        else
          var recorded := branch.board.(epTarget := enPassant.value.0, epPawn := enPassant.value.1);
          FinishMove(recorded, s, e, branch.result.value.0, branch.result.value.1)
  }

  // ---------------------------------------------------------------------------------------
  // What a move does
  // ---------------------------------------------------------------------------------------

  /** Rejected input raises before anything changes: invalid positions, and an empty start. */
  lemma MoveRejected(b: BoardState, s: string, e: string)
    requires Valid(b)
    ensures !IsValidPosition(s) ==> MovePiece(b, s, e) == Outcome(b, Err(InvalidPosition(s)))
    ensures IsValidPosition(s) && !IsValidPosition(e) ==> MovePiece(b, s, e) == Outcome(b, Err(InvalidPosition(e)))
    ensures IsValidPosition(e) && IsSquare(s) && b.pieces[s].None? ==>
              MovePiece(b, s, e) == Outcome(b, Err(EmptyPosition(s)))
  {
  }

  /** The reach table after the piece's own branch, for a pawn, a king or any other piece. */
  function Moved(mover: Piece): Piece
  {
    if mover.kind == Pawn && Forward in mover.moves && NumericValue(mover.moves[Forward]) > 1 then
      mover.(moves := mover.moves[Forward := Steps(1)])
    else if mover.kind == King then mover.(moves := mover.moves[Left := Steps(1)][Right := Steps(1)])
    else mover
  }

  /**
   * A knight, bishop or queen just moves: the start empties, the mover stands on the end
   * square, nothing else on the board changes, the en-passant record is cleared, and the
   * result lists exactly the two squares.
   */
  lemma PlainMove(b: BoardState, s: string, e: string)
    requires Valid(b) && IsSquare(s) && IsSquare(e) && b.pieces[s].Some?
    requires b.pieces[s].value.kind in {Knight, Bishop, Queen}
    ensures var mover := b.pieces[s].value;
      MovePiece(b, s, e) ==
        Outcome(b.(pieces := b.pieces[s := None][e := Some(mover)], epTarget := None, epPawn := None),
                Ok(map[s := None][e := Some(mover)]))
  {
  }

  /**
   * A king move that is not two columns wide: as a plain move, except that the king's square
   * is recorded and its LEFT and RIGHT reach become 1.
   */
  lemma KingMove(b: BoardState, s: string, e: string)
    requires Valid(b) && IsSquare(s) && IsSquare(e) && b.pieces[s].Some?
    requires b.pieces[s].value.kind == King
    requires Abs(ColumnRow(e, b.pieces[s].value.color).0 - ColumnRow(s, b.pieces[s].value.color).0) != 2
    ensures var mover := b.pieces[s].value;
      MovePiece(b, s, e) ==
        Outcome(WithKing(b.(pieces := b.pieces[s := None][e := Some(Moved(mover))], epTarget := None, epPawn := None),
                         mover.color, e),
                Ok(map[s := None][e := Some(mover)]))
  {
    var mover := b.pieces[s].value;
    KingPlainPhase(b, s, e);
    MoveKingVia(b, s, e, Outcome(b, Ok((Moved(mover), map[s := None][e := Some(mover)]))));
  }

  /** Away from the castling distance the king branch moves no rook. */
  lemma KingPlainPhase(b: BoardState, s: string, e: string)
    requires Valid(b) && IsSquare(s) && IsSquare(e) && b.pieces[s].Some?
    requires b.pieces[s].value.kind == King
    requires Abs(ColumnRow(e, b.pieces[s].value.color).0 - ColumnRow(s, b.pieces[s].value.color).0) != 2
    ensures var mover := b.pieces[s].value;
      var changes := map[s := None][e := Some(mover)];
      KingPhase(b, s, mover, DirectionAndOffset(s, e, mover.color).value, changes) == Outcome(b, Ok((Moved(mover), changes)))
  {
  }

  /** Two rows forward from a square, the square one row forward exists and is the shift by one. */
  lemma DoubleStepTarget(s: string, e: string, c: Color)
    requires IsSquare(s) && IsValidPosition(e) && ColumnRow(e, c).1 - ColumnRow(s, c).1 == 2
    ensures DirectionSquareCount(s, Forward, c) >= 1
    ensures ShiftedByOffset(s, Forward, 1, c) == Ok(RaySquare(s, Forward, c, 1))
  {
    ShiftedAlongRay(s, Forward, c);
  }

  /** `can_en_passant` reads only the kind and colour of the piece it is given. */
  lemma EnPassantIgnoresReach(b: BoardState, s: string, d: Option<Direction>, p: Piece)
    requires Valid(b) && IsSquare(s) && b.pieces[s].Some?
    requires p.kind == b.pieces[s].value.kind && p.color == b.pieces[s].value.color
    ensures CanEnPassant(b.(pieces := b.pieces[s := Some(p)]), s, d) == CanEnPassant(b, s, d)
  {
  }

  /** The pawn branch when there is no en-passant capture: only the reach is lowered. */
  lemma PawnPhaseQuiet(b: BoardState, s: string, mover: Piece, d: Option<Direction>, changes: Changes)
    requires Valid(b) && IsSquare(s) && b.pieces[s] == Some(mover) && mover.kind == Pawn
    requires Forward in mover.moves && CanEnPassant(b, s, d) == Ok(false)
    ensures PawnPhase(b, s, mover, d, changes) ==
            Outcome(b.(pieces := b.pieces[s := Some(Moved(mover))]), Ok((Moved(mover), changes)))
  {
    EnPassantIgnoresReach(b, s, d, Moved(mover));
  }

  /** The pawn branch of an en-passant capture: the recorded pawn square is emptied and reported. */
  lemma PawnPhaseCapture(b: BoardState, s: string, mover: Piece, d: Option<Direction>, changes: Changes)
    requires Valid(b) && IsSquare(s) && b.pieces[s] == Some(mover) && mover.kind == Pawn
    requires Forward in mover.moves && CanEnPassant(b, s, d) == Ok(true)
    requires b.epPawn.Some? && IsSquare(b.epPawn.value)
    ensures PawnPhase(b, s, mover, d, changes) ==
            Outcome(b.(pieces := b.pieces[s := Some(Moved(mover))][b.epPawn.value := None]),
                    Ok((Moved(mover), changes[b.epPawn.value := None])))
  {
    EnPassantIgnoresReach(b, s, d, Moved(mover));
  }

  /** The last steps on a square: start and end empty, then the mover (and a king's record) on the end. */
  lemma FinishOnSquare(b: BoardState, s: string, e: string, moved: Piece, changes: Changes)
    requires Valid(b) && IsSquare(s) && IsSquare(e)
    ensures var placed := b.(pieces := b.pieces[s := None][e := Some(moved)]);
      FinishMove(b, s, e, moved, changes) ==
        Outcome(if moved.kind == King then WithKing(placed, moved.color, e) else placed, Ok(changes))
  {
  }

  /** `move_piece` on a pawn, once the en-passant record and the pawn branch are known. */
  lemma MovePawnVia(b: BoardState, s: string, e: string, ep: (Option<string>, Option<string>), branch: Outcome<(Piece, Changes)>)
    requires Valid(b) && IsSquare(s) && IsSquare(e) && b.pieces[s].Some? && b.pieces[s].value.kind == Pawn
    requires var mover := b.pieces[s].value;
      && EnPassantAfter(s, e, mover) == Ok(ep)
      && PawnPhase(b, s, mover, DirectionAndOffset(s, e, mover.color).value.direction, map[s := None][e := Some(mover)]) == branch
    requires branch.result.Ok? && branch.result.value.0.kind == Pawn
    ensures var moved := branch.result.value.0;
      MovePiece(b, s, e) ==
        Outcome(branch.board.(pieces := branch.board.pieces[s := None][e := Some(moved)], epTarget := ep.0, epPawn := ep.1),
                Ok(branch.result.value.1))
  {
    var moved := branch.result.value.0;
    FinishOnSquare(branch.board.(epTarget := ep.0, epPawn := ep.1), s, e, moved, branch.result.value.1);
  }

  /**
   * A pawn move that is not an en-passant capture: the start empties, the pawn (its forward
   * reach lowered to 1 if it was higher) stands on the end square, nothing else changes, and
   * the result lists exactly the two squares with the pawn as it was before the move.
   */
  lemma PawnMove(b: BoardState, s: string, e: string)
    requires Valid(b) && IsSquare(s) && IsSquare(e) && b.pieces[s].Some?
    requires var mover := b.pieces[s].value;
      && mover.kind == Pawn && Forward in mover.moves
      && CanEnPassant(b, s, DirectionAndOffset(s, e, mover.color).value.direction) == Ok(false)
    ensures var mover := b.pieces[s].value;
      var ep := EnPassantAfter(s, e, mover).value;
      MovePiece(b, s, e) ==
        Outcome(b.(pieces := b.pieces[s := None][e := Some(Moved(mover))], epTarget := ep.0, epPawn := ep.1),
                Ok(map[s := None][e := Some(mover)]))
  {
    var mover := b.pieces[s].value;
    var d := DirectionAndOffset(s, e, mover.color).value.direction;
    var changes := map[s := None][e := Some(mover)];
    var ep := EnPassantAfter(s, e, mover).value;
    var after := b.(pieces := b.pieces[s := Some(Moved(mover))]);
    var branch := Outcome(after, Ok((Moved(mover), changes)));
    assert PawnPhase(b, s, mover, d, changes) == branch by {
      PawnPhaseQuiet(b, s, mover, d, changes);
    }
    assert after.pieces[s := None][e := Some(Moved(mover))] == b.pieces[s := None][e := Some(Moved(mover))];
    MovePawnVia(b, s, e, ep, branch);
  }

  /**
   * An en-passant capture: besides the start and end squares, the square of the pawn that
   * advanced two rows is emptied and reported, so the result has three entries.
   */
  lemma EnPassantCapture(b: BoardState, s: string, e: string)
    requires Valid(b) && IsSquare(s) && IsSquare(e) && b.pieces[s].Some?
    requires var mover := b.pieces[s].value;
      && mover.kind == Pawn && Forward in mover.moves
      && CanEnPassant(b, s, DirectionAndOffset(s, e, mover.color).value.direction) == Ok(true)
    requires b.epPawn.Some? && IsSquare(b.epPawn.value) && b.epPawn.value != s && b.epPawn.value != e
    ensures var mover := b.pieces[s].value;
      var ep := EnPassantAfter(s, e, mover).value;
      var taken := b.epPawn.value;
      MovePiece(b, s, e) ==
        Outcome(b.(pieces := b.pieces[taken := None][s := None][e := Some(Moved(mover))], epTarget := ep.0, epPawn := ep.1),
                Ok(map[s := None][e := Some(mover)][taken := None]))
  {
    var mover := b.pieces[s].value;
    var d := DirectionAndOffset(s, e, mover.color).value.direction;
    var taken := b.epPawn.value;
    var changes := map[s := None][e := Some(mover)];
    var ep := EnPassantAfter(s, e, mover).value;
    var after := b.(pieces := b.pieces[s := Some(Moved(mover))][taken := None]);
    var branch := Outcome(after, Ok((Moved(mover), changes[taken := None])));
    assert PawnPhase(b, s, mover, d, changes) == branch by {
      PawnPhaseCapture(b, s, mover, d, changes);
    }
    ClearedThenMoved(b.pieces, s, e, taken, Some(Moved(mover)), None, Some(Moved(mover)));
    MovePawnVia(b, s, e, ep, branch);
  }

  /** A write to the start square is lost when the start is emptied afterwards. */
  lemma ClearedThenMoved<K, V>(m: map<K, V>, s: K, e: K, t: K, x: V, none: V, y: V)
    ensures m[s := x][t := none][s := none][e := y] == m[t := none][s := none][e := y]
  {
  }

  /** The start and end of an en-passant capture differ, so with the taken pawn three squares are reported. */
  lemma EnPassantCaptureReportsThree(b: BoardState, s: string, e: string)
    requires Valid(b) && IsSquare(s) && IsSquare(e) && b.pieces[s].Some?
    requires CanEnPassant(b, s, DirectionAndOffset(s, e, b.pieces[s].value.color).value.direction) == Ok(true)
    requires b.epPawn.Some? && b.epPawn.value != s && b.epPawn.value != e
    ensures |map[s := None][e := Some(b.pieces[s].value)][b.epPawn.value := None]| == 3
  {
    if s == e {
      NoDirectionToItself(s, b.pieces[s].value.color);
    }
    assert map[s := None][e := Some(b.pieces[s].value)][b.epPawn.value := None].Keys == {s, e, b.epPawn.value};
  }

  // ---------------------------------------------------------------------------------------
  // Castling and rook moves
  // ---------------------------------------------------------------------------------------

  /**
   * The rook part of a castle that `can_castle` allows: the piece on the rook's corner lands
   * on the first square from the king's start towards the rook, the corner empties, and both
   * squares are reported.
   */
  lemma CastleRookMoves(b: BoardState, s: string, c: Color, d: Direction, changes: Changes)
    requires Valid(b) && IsSquare(s) && (d == Left || d == Right)
    requires CanCastle(b, c, Some(d)) == Ok(true) && DirectionSquareCount(s, d, c) >= 1
    requires b.pieces[RookHome(c, d)].Some? && b.pieces[RookHome(c, d)].value.kind != King
    ensures var r := RaySquare(s, d, c, 1);
      var home := RookHome(c, d);
      CastleRook(b, s, c, Some(d), changes) ==
        Outcome(b.(pieces := b.pieces[r := b.pieces[home]][home := None]),
                Ok(changes[r := b.pieces[home]][home := None]))
  {
    ShiftedAlongRay(s, d, c);
    var r := RaySquare(s, d, c, 1);
    var home := RookHome(c, d);
    if r == home {
      assert changes[r := None][home := None] == changes[r := b.pieces[home]][home := None];
    }
  }

  /** `move_piece` on a king, once its branch is known. */
  lemma MoveKingVia(b: BoardState, s: string, e: string, branch: Outcome<(Piece, Changes)>)
    requires Valid(b) && IsSquare(s) && IsSquare(e) && b.pieces[s].Some? && b.pieces[s].value.kind == King
    requires var mover := b.pieces[s].value;
      KingPhase(b, s, mover, DirectionAndOffset(s, e, mover.color).value, map[s := None][e := Some(mover)]) == branch
    requires branch.result.Ok? && branch.result.value.0 == Moved(b.pieces[s].value)
    ensures var mover := b.pieces[s].value;
      MovePiece(b, s, e) ==
        Outcome(WithKing(branch.board.(pieces := branch.board.pieces[s := None][e := Some(Moved(mover))], epTarget := None, epPawn := None),
                         mover.color, e),
                Ok(branch.result.value.1))
  {
    var mover := b.pieces[s].value;
    var cleared := branch.board.(epTarget := None, epPawn := None);
    MoveUnfolds(b, s, e);
    assert EnPassantAfter(s, e, mover) == Ok((None, None));
    assert KindPhase(b, s, mover, DirectionAndOffset(s, e, mover.color).value, map[s := None][e := Some(mover)]) == branch;
    FinishOnSquare(cleared, s, e, Moved(mover), branch.result.value.1);
    assert cleared.(pieces := cleared.pieces[s := None][e := Some(Moved(mover))]) ==
      branch.board.(pieces := branch.board.pieces[s := None][e := Some(Moved(mover))], epTarget := None, epPawn := None);
  }

  /** `move_piece` on an occupied square, once both positions are squares: the branch, then the finish. */
  lemma MoveUnfolds(b: BoardState, s: string, e: string)
    requires Valid(b) && IsSquare(s) && IsSquare(e) && b.pieces[s].Some?
    ensures var mover := b.pieces[s].value;
      var enPassant := EnPassantAfter(s, e, mover).value;
      var branch := KindPhase(b, s, mover, DirectionAndOffset(s, e, mover.color).value, map[s := None][e := Some(mover)]);
      MovePiece(b, s, e) ==
        if branch.result.Err? then Outcome(branch.board, Err(branch.result.error))
        else FinishMove(branch.board.(epTarget := enPassant.0, epPawn := enPassant.1), s, e, branch.result.value.0, branch.result.value.1)
  {
  }

  /**
   * Castling: a two-column king move that `can_castle` allows moves the king to the end square
   * (recording its square and lowering its LEFT and RIGHT reach to 1) and the piece on the
   * rook's corner to the square the king crosses; the corner empties, the en-passant record is
   * cleared, and the result reports the start, the end, the rook's new square and its corner.
   */
  lemma CastleMove(b: BoardState, s: string, e: string)
    requires Valid(b) && IsSquare(s) && IsSquare(e) && b.pieces[s].Some? && b.pieces[s].value.kind == King
    requires var c := b.pieces[s].value.color;
      var disp := DirectionAndOffset(s, e, c).value;
      && KingSquare(b, c) == Some(s)
      && Abs(disp.offset.0) == 2 && CanCastle(b, c, disp.direction) == Ok(true)
    requires var c := b.pieces[s].value.color;
      var d := DirectionAndOffset(s, e, c).value.direction.value;
      b.pieces[RookHome(c, d)].Some? && b.pieces[RookHome(c, d)].value.kind != King
    ensures var c := b.pieces[s].value.color;
      DirectionSquareCount(s, DirectionAndOffset(s, e, c).value.direction.value, c) >= 3
    ensures var mover := b.pieces[s].value;
      var c := mover.color;
      var d := DirectionAndOffset(s, e, c).value.direction.value;
      var r := RaySquare(s, d, c, 1);
      var home := RookHome(c, d);
      var rook := b.pieces[home];
      MovePiece(b, s, e) ==
        Outcome(WithKing(b.(pieces := b.pieces[r := rook][home := None][s := None][e := Some(Moved(mover))],
                            epTarget := None, epPawn := None), c, e),
                Ok(map[s := None][e := Some(mover)][r := rook][home := None]))
  {
    var mover := b.pieces[s].value;
    var c := mover.color;
    var d := DirectionAndOffset(s, e, c).value.direction.value;
    CastleBranch(b, s, e);
    var r := RaySquare(s, d, c, 1);
    var home := RookHome(c, d);
    var after := b.(pieces := b.pieces[r := b.pieces[home]][home := None]);
    MoveKingVia(b, s, e, Outcome(after, Ok((Moved(mover), map[s := None][e := Some(mover)][r := b.pieces[home]][home := None]))));
  }

  /** The king branch of a castle: the rook's corner empties onto the square the king crosses. */
  lemma CastleBranch(b: BoardState, s: string, e: string)
    requires Valid(b) && IsSquare(s) && IsSquare(e) && b.pieces[s].Some? && b.pieces[s].value.kind == King
    requires var c := b.pieces[s].value.color;
      var disp := DirectionAndOffset(s, e, c).value;
      && KingSquare(b, c) == Some(s)
      && Abs(disp.offset.0) == 2 && CanCastle(b, c, disp.direction) == Ok(true)
    requires var c := b.pieces[s].value.color;
      var d := DirectionAndOffset(s, e, c).value.direction.value;
      b.pieces[RookHome(c, d)].Some? && b.pieces[RookHome(c, d)].value.kind != King
    ensures var mover := b.pieces[s].value;
      var c := mover.color;
      var disp := DirectionAndOffset(s, e, c).value;
      var d := disp.direction.value;
      && DirectionSquareCount(s, d, c) >= 3
      && var r := RaySquare(s, d, c, 1);
        var home := RookHome(c, d);
        var changes := map[s := None][e := Some(mover)];
        KingPhase(b, s, mover, disp, changes) ==
          Outcome(b.(pieces := b.pieces[r := b.pieces[home]][home := None]),
                  Ok((Moved(mover), changes[r := b.pieces[home]][home := None])))
  {
    var mover := b.pieces[s].value;
    var c := mover.color;
    var disp := DirectionAndOffset(s, e, c).value;
    var d := disp.direction.value;
    var changes := map[s := None][e := Some(mover)];
    assert DirectionSquareCount(s, d, c) >= 3 by {
      CastlingConditions(b, c, d);
    }
    CastleRookMoves(b, s, c, d, changes);
  }

  /**
   * From the king's starting square (e1 for White, e8 for Black), the four squares a castle
   * reports are distinct: the start, the end two columns away, the square the king crosses,
   * and the rook's corner.
   */
  lemma CastleReportsFour(c: Color, d: Direction, e: string, king: Option<Piece>, rook: Option<Piece>)
    requires (d == Left || d == Right) && IsSquare(e)
    requires var s := if c == White then "e1" else "e8";
      var disp := DirectionAndOffset(s, e, c).value;
      disp.direction == Some(d) && Abs(disp.offset.0) == 2
    ensures DirectionSquareCount(if c == White then "e1" else "e8", d, c) >= 3
    ensures var s := if c == White then "e1" else "e8";
      |map[s := None][e := king][RaySquare(s, d, c, 1) := rook][RookHome(c, d) := None]| == 4
  {
    var s := if c == White then "e1" else "e8";
    CastleColumns(c, d, e);
    FourKeys(s, e, RaySquare(s, d, c, 1), RookHome(c, d), None, king, rook, None);
  }

  /** The four squares of a castling lie in four different columns. */
  lemma CastleColumns(c: Color, d: Direction, e: string)
    requires (d == Left || d == Right) && IsSquare(e)
    requires var s := if c == White then "e1" else "e8";
      var disp := DirectionAndOffset(s, e, c).value;
      disp.direction == Some(d) && Abs(disp.offset.0) == 2
    ensures DirectionSquareCount(if c == White then "e1" else "e8", d, c) >= 3
    ensures var s := if c == White then "e1" else "e8";
      var r := RaySquare(s, d, c, 1);
      var home := RookHome(c, d);
      s != e && s != r && s != home && e != r && e != home && r != home
  {
    var s := if c == White then "e1" else "e8";
    var r := RaySquare(s, d, c, 1);
    var home := RookHome(c, d);
    var (col, row) := ColumnRow(s, c);
    assert col == (if c == White then 4 else 3) && row == 0;
    assert ColumnRow(e, c).1 == row && Abs(ColumnRow(e, c).0 - col) == 2;
    assert ColumnRow(r, c) == (if d == Left then col - 1 else col + 1, row);
    assert ColumnRow(home, c).0 == (if d == Left then 0 else 7);
  }

  /** A map written at four different keys has four entries. */
  lemma FourKeys<V>(k1: string, k2: string, k3: string, k4: string, v1: V, v2: V, v3: V, v4: V)
    requires k1 != k2 && k1 != k3 && k1 != k4 && k2 != k3 && k2 != k4 && k3 != k4
    ensures |map[k1 := v1][k2 := v2][k3 := v3][k4 := v4]| == 4
  {
    assert map[k1 := v1][k2 := v2][k3 := v3][k4 := v4].Keys == {k1, k2, k3, k4};
  }

  /** `move_piece` on a rook, once its branch is known. */
  lemma MoveRookVia(b: BoardState, s: string, e: string, branch: Outcome<(Piece, Changes)>)
    requires Valid(b) && IsSquare(s) && IsSquare(e) && b.pieces[s].Some? && b.pieces[s].value.kind == Rook
    requires RookPhase(b, s, b.pieces[s].value, map[s := None][e := Some(b.pieces[s].value)]) == branch
    requires branch.result.Ok? && branch.result.value.0.kind != King
    ensures MovePiece(b, s, e) ==
      Outcome(branch.board.(pieces := branch.board.pieces[s := None][e := Some(branch.result.value.0)], epTarget := None, epPawn := None),
              Ok(branch.result.value.1))
  {
    FinishOnSquare(branch.board.(epTarget := None, epPawn := None), s, e, branch.result.value.0, branch.result.value.1);
  }

  /**
   * A rook that leaves neither column 0 nor column 7, or whose side has no recorded king,
   * moves like any other piece.
   */
  lemma RookMoveQuiet(b: BoardState, s: string, e: string)
    requires Valid(b) && IsSquare(s) && IsSquare(e) && b.pieces[s].Some? && b.pieces[s].value.kind == Rook
    requires var c := b.pieces[s].value.color;
      KingSquare(b, c).None? || (ColumnRow(s, c).0 != 0 && ColumnRow(s, c).0 != 7)
    ensures var rook := b.pieces[s].value;
      MovePiece(b, s, e) ==
        Outcome(b.(pieces := b.pieces[s := None][e := Some(rook)], epTarget := None, epPawn := None),
                Ok(map[s := None][e := Some(rook)]))
  {
  }

  /**
   * A rook leaving column 0 (LEFT side) or column 7 (RIGHT side) lowers the reach towards that
   * side of the piece on the recorded king square to 1 when it was higher; everything else is
   * as in a plain move. A stale king record pointing at the rook's own start lowers the rook.
   */
  lemma RookLeavesCorner(b: BoardState, s: string, e: string)
    requires Valid(b) && IsSquare(s) && IsSquare(e) && b.pieces[s].Some? && b.pieces[s].value.kind == Rook
    requires var c := b.pieces[s].value.color;
      var kp := KingSquare(b, c);
      var side := if ColumnRow(s, c).0 == 0 then Left else Right;
      && kp.Some? && (ColumnRow(s, c).0 == 0 || ColumnRow(s, c).0 == 7)
      && b.pieces[kp.value].Some? && side in b.pieces[kp.value].value.moves
    ensures var rook := b.pieces[s].value;
      var c := rook.color;
      var kp := KingSquare(b, c).value;
      var side := if ColumnRow(s, c).0 == 0 then Left else Right;
      var king := b.pieces[kp].value;
      var lowered := if NumericValue(king.moves[side]) > 1 then king.(moves := king.moves[side := Steps(1)]) else king;
      MovePiece(b, s, e) ==
        Outcome(b.(pieces := b.pieces[kp := Some(lowered)][s := None][e := Some(if kp == s then lowered else rook)],
                   epTarget := None, epPawn := None),
                Ok(map[s := None][e := Some(rook)]))
  {
    var rook := b.pieces[s].value;
    var c := rook.color;
    var kp := KingSquare(b, c).value;
    var side := if ColumnRow(s, c).0 == 0 then Left else Right;
    var king := b.pieces[kp].value;
    var lowered := if NumericValue(king.moves[side]) > 1 then king.(moves := king.moves[side := Steps(1)]) else king;
    var changes := map[s := None][e := Some(rook)];
    var branch := Outcome(b.(pieces := b.pieces[kp := Some(lowered)]), Ok((if kp == s then lowered else rook, changes)));
    assert RookPhase(b, s, rook, changes) == branch by {
      assert b.pieces[kp := Some(king)] == b.pieces;
    }
    MoveRookVia(b, s, e, branch);
  }

  /**
   * A rook leaving column 0 or 7 raises AttributeError when the recorded king square is empty,
   * and KeyError when the piece there has no reach towards that side; the board is unchanged.
   */
  lemma RookCornerFails(b: BoardState, s: string, e: string)
    requires Valid(b) && IsSquare(s) && IsSquare(e) && b.pieces[s].Some? && b.pieces[s].value.kind == Rook
    requires var c := b.pieces[s].value.color;
      KingSquare(b, c).Some? && (ColumnRow(s, c).0 == 0 || ColumnRow(s, c).0 == 7)
    ensures var c := b.pieces[s].value.color;
      var kp := KingSquare(b, c).value;
      var side := if ColumnRow(s, c).0 == 0 then Left else Right;
      && (b.pieces[kp].None? ==> MovePiece(b, s, e) == Outcome(b, Err(AttributeError)))
      && (b.pieces[kp].Some? && side !in b.pieces[kp].value.moves ==> MovePiece(b, s, e) == Outcome(b, Err(KeyError)))
  {
  }

  /**
   * A kind's branch only adds to the result, and it changes no square outside the result
   * except a recorded king square.
   */
  lemma KindPhaseFrame(b: BoardState, s: string, mover: Piece, disp: Displacement, changes: Changes, q: string)
    requires Valid(b) && IsSquare(s) && b.pieces[s] == Some(mover) && s in changes
    requires IsSquare(q) && Some(q) != b.whiteKing && Some(q) != b.blackKing
    requires KindPhase(b, s, mover, disp, changes).result.Ok?
    ensures var o := KindPhase(b, s, mover, disp, changes);
      && changes.Keys <= o.result.value.1.Keys
      && (q !in o.result.value.1 ==> o.board.pieces[q] == b.pieces[q])
  {
    match mover.kind
    case Pawn => PawnPhaseFrame(b, s, mover, disp.direction, changes, q);
    case King => KingPhaseFrame(b, s, mover, disp, changes, q);
    case Rook =>
    case _ =>
  }

  lemma PawnPhaseFrame(b: BoardState, s: string, mover: Piece, d: Option<Direction>, changes: Changes, q: string)
    requires Valid(b) && IsSquare(s) && b.pieces[s] == Some(mover) && mover.kind == Pawn && s in changes
    requires IsSquare(q) && PawnPhase(b, s, mover, d, changes).result.Ok?
    ensures var o := PawnPhase(b, s, mover, d, changes);
      && changes.Keys <= o.result.value.1.Keys
      && (q !in o.result.value.1 ==> o.board.pieces[q] == b.pieces[q])
  {
  }

  lemma KingPhaseFrame(b: BoardState, s: string, mover: Piece, disp: Displacement, changes: Changes, q: string)
    requires Valid(b) && IsSquare(s) && b.pieces[s] == Some(mover) && mover.kind == King
    requires IsSquare(q) && KingPhase(b, s, mover, disp, changes).result.Ok?
    ensures var o := KingPhase(b, s, mover, disp, changes);
      && changes.Keys <= o.result.value.1.Keys
      && (q !in o.result.value.1 ==> o.board.pieces[q] == b.pieces[q])
  {
    if Abs(disp.offset.0) == 2 {
      CastleRookFrame(b, s, mover.color, disp.direction, changes, q);
    }
  }

  lemma CastleRookFrame(b: BoardState, s: string, c: Color, d: Option<Direction>, changes: Changes, q: string)
    requires Valid(b) && IsSquare(s) && IsSquare(q) && CastleRook(b, s, c, d, changes).result.Ok?
    ensures var o := CastleRook(b, s, c, d, changes);
      && changes.Keys <= o.result.value.Keys
      && (q !in o.result.value ==> o.board.pieces[q] == b.pieces[q])
  {
    var castle := CanCastle(b, c, d);
    if castle.Ok? && castle.value {
      var newRook := ShiftedByOffset(s, d.value, 1, c).value;
      var home := RookHome(c, d.value);
      var placed := SetItem(b, newRook, b.pieces[home]);
      assert placed.board.pieces == b.pieces[newRook := b.pieces[home]];
      var cleared := RemovePiece(placed.board, home);
      assert cleared.board.pieces == b.pieces[newRook := b.pieces[home]][home := None];
    }
  }

  /** The last steps change only the start and end squares. */
  lemma FinishFrame(b: BoardState, s: string, e: string, moved: Piece, changes: Changes, q: string)
    requires Valid(b) && IsSquare(s) && IsSquare(q) && q != s && q != e
    ensures FinishMove(b, s, e, moved, changes).board.pieces[q] == b.pieces[q]
  {
  }

  /**
   * What a successful move reports is all it changes: a square outside the result keeps its
   * piece, unless it is a recorded king square (a rook move may lower that king's reach).
   */
  lemma MoveFrame(b: BoardState, s: string, e: string, q: string)
    requires Valid(b) && IsSquare(q) && Some(q) != b.whiteKing && Some(q) != b.blackKing
    requires MovePiece(b, s, e).result.Ok? && q !in MovePiece(b, s, e).result.value
    ensures MovePiece(b, s, e).board.pieces[q] == b.pieces[q]
  {
    var mover := b.pieces[s].value;
    var disp := DirectionAndOffset(s, e, mover.color).value;
    var changes := map[s := None][e := Some(mover)];
    var ep := EnPassantAfter(s, e, mover).value;
    var branch := KindPhase(b, s, mover, disp, changes);
    KindPhaseFrame(b, s, mover, disp, changes, q);
    FinishFrame(branch.board.(epTarget := ep.0, epPawn := ep.1), s, e, branch.result.value.0, branch.result.value.1, q);
  }
}
