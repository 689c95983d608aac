/**
 * The board object (src/board/chess_board.py, class ChessBoard): its fields, the construction
 * from a parsed FEN record, and the methods that read or change the board, each proved to
 * compute what the specification functions of the Board, SpecialMoves, Moves and MovePiece
 * modules say.
 */
module Engine {
  import opened Wrappers
  import opened Exceptions
  import opened ChessHelper
  import opened Pieces
  import opened Coordinates
  import opened Board
  import opened SpecialMoves
  import opened Moves
  import MP = MovePiece
  import opened Fen

  // ---------------------------------------------------------------------------------------
  // Construction from a FEN record
  // ---------------------------------------------------------------------------------------

  /** Every placement names a square of the board, as the placements of a parsed FEN do. */
  predicate OnSquares(ps: Placements)
  {
    forall k :: 0 <= k < |ps| ==> IsSquare(ps[k].0)
  }

  /** One row of a parsed placement field only ever names squares. */
  lemma {:induction false} RowOnSquares(text: string, row: nat, col: nat, acc: Placements)
    requires OnSquares(acc)
    ensures ParseRow(text, row, col, acc).Ok? ==> OnSquares(ParseRow(text, row, col, acc).value)
    decreases |text|
  {
    if text != [] {
      if PieceOfLetter(text[0]).Some? {
        if col < 8 && row < 8 {
          RowOnSquares(text[1..], row, col + 1, acc + [(SquareName(col, row), PieceOfLetter(text[0]).value)]);
        }
      } else if '1' <= text[0] <= '8' {
        RowOnSquares(text[1..], row, col + (text[0] as int - '0' as int), acc);
      } else {
        RowOnSquares(text[1..], row, col, acc);
      }
    }
  }

  lemma {:induction false} RowsOnSquares(rows: seq<string>, row: nat, acc: Placements)
    requires OnSquares(acc)
    ensures ParseRows(rows, row, acc).Ok? ==> OnSquares(ParseRows(rows, row, acc).value)
    decreases |rows|
  {
    if rows != [] {
      RowOnSquares(rows[0], row, 0, acc);
      var placed := ParseRow(rows[0], row, 0, acc);
      if placed.Ok? {
        RowsOnSquares(rows[1..], row + 1, placed.value);
      }
    }
  }

  /** A record that `Fen(s)` builds places pieces on squares only. */
  lemma ParsedOnSquares(s: string, f: FenRecord)
    requires ParseFen(s) == Ok(f)
    ensures OnSquares(f.board)
  {
    var fields := Fields(if s == "" then DefaultFen else s);
    RowsOnSquares(SplitSlash(fields[0]), 0, []);
    assert f.board == ParseBoardSpec(fields[0]).value;
  }

  /**
   * The en-passant record of a new board: none when the FEN has no (or an empty) target,
   * otherwise the target and the square one step behind it as the side to move sees the
   * board, which is where the pawn that just advanced two rows stands.
   */
  function EnPassantRecord(fen: FenRecord): (r: Result<(Option<string>, Option<string>), Error>)
    ensures r.Ok? ==> OptSquare(r.value.0) && OptSquare(r.value.1)
    ensures fen.enPassant.None? || fen.enPassant.value == "" ==> r == Ok((None, None))
    ensures fen.enPassant.Some? && fen.enPassant.value != "" && r.Ok? ==> r.value.0 == fen.enPassant && r.value.1.Some?
  {
    if fen.enPassant.None? || fen.enPassant.value == "" then Ok((None, None))
    else
      var pawn :- ShiftedByOffset(fen.enPassant.value, Backward, 1, fen.currentPlayer);
      Ok((fen.enPassant, Some(pawn)))
  }

  /**
   * The recorded pawn stands in the target's column, one row nearer to the side to move; a
   * target on the side to move's first row has no such square and fails with InvalidIndexError.
   */
  lemma EnPassantPawnBehind(fen: FenRecord)
    requires fen.enPassant.Some? && IsSquare(fen.enPassant.value)
    ensures var target := fen.enPassant.value;
      var c := fen.currentPlayer;
      var r := EnPassantRecord(fen);
      && (ColumnRow(target, c).1 == 0 ==> r.Err?)
      && (ColumnRow(target, c).1 > 0 ==>
            && r.Ok? && IsSquare(r.value.1.value)
            && ColumnRow(r.value.1.value, c) == (ColumnRow(target, c).0, ColumnRow(target, c).1 - 1))
  {
    var target := fen.enPassant.value;
    var c := fen.currentPlayer;
    if DirectionSquareCount(target, Backward, c) >= 1 {
      ShiftedAlongRay(target, Backward, c);
      RaySquareFacts(target, Backward, c, 1);
    } else {
      IndexOfSquare(target, c);
      ColumnRowOfIndex(target, c);
    }
  }

  /** `self._pieces[position] = copy.deepcopy(piece)`, and a king's square is recorded. */
  function Place(b: BoardState, position: string, piece: Piece): (r: BoardState)
    requires Valid(b) && IsSquare(position)
    ensures Valid(r)
  {
    var stored := b.(pieces := b.pieces[position := Some(piece)]);
    if piece.kind == King then WithKing(stored, piece.color, position) else stored
  }

  /** The placement loop of `__init__` over the placements, in order. */
  function PlaceAll(b: BoardState, ps: Placements): (r: BoardState)
    requires Valid(b) && OnSquares(ps)
    ensures Valid(r)
    decreases |ps|
  {
    if ps == [] then b
    else
      var last := ps[|ps| - 1];
      Place(PlaceAll(b, ps[..|ps| - 1]), last.0, last.1)
  }

  /** Index k is the last placement on square q. */
  predicate LastOn(ps: Placements, k: int, q: string)
  {
    0 <= k < |ps| && ps[k].0 == q && forall j :: k < j < |ps| ==> ps[j].0 != q
  }

  /** No placement names square q. */
  predicate Untouched(ps: Placements, q: string)
  {
    forall k :: 0 <= k < |ps| ==> ps[k].0 != q
  }

  /** After the placement loop, a square holds the last piece placed on it. */
  lemma {:induction false} PlacedSquare(b: BoardState, ps: Placements, q: string, k: int)
    requires Valid(b) && OnSquares(ps) && IsSquare(q) && LastOn(ps, k, q)
    ensures PlaceAll(b, ps).pieces[q] == Some(ps[k].1)
    decreases |ps|
  {
    var front := ps[..|ps| - 1];
    if k < |ps| - 1 {
      assert LastOn(front, k, q) by {
        assert forall j :: k < j < |front| ==> front[j] == ps[j];
      }
      PlacedSquare(b, front, q, k);
    }
  }

  /** A square on which nothing was placed holds what it held before the loop. */
  lemma {:induction false} UntouchedSquare(b: BoardState, ps: Placements, q: string)
    requires Valid(b) && OnSquares(ps) && IsSquare(q) && Untouched(ps, q)
    ensures PlaceAll(b, ps).pieces[q] == b.pieces[q]
    decreases |ps|
  {
    if ps != [] {
      var front := ps[..|ps| - 1];
      assert Untouched(front, q) by {
        assert forall j :: 0 <= j < |front| ==> front[j] == ps[j];
      }
      UntouchedSquare(b, front, q);
    }
  }

  /** A placement of a king of colour c. */
  predicate KingOf(pl: (string, Piece), c: Color)
  {
    pl.1.kind == King && pl.1.color == c
  }

  /** Index k is the last placement of a king of colour c. */
  predicate LastKingAt(ps: Placements, k: int, c: Color)
  {
    0 <= k < |ps| && KingOf(ps[k], c) && forall j :: k < j < |ps| ==> !KingOf(ps[j], c)
  }

  /** No king of colour c is placed. */
  predicate NoKing(ps: Placements, c: Color)
  {
    forall k :: 0 <= k < |ps| ==> !KingOf(ps[k], c)
  }

  /** After the placement loop, a colour's king square is where its last king was placed. */
  lemma {:induction false} PlacedKing(b: BoardState, ps: Placements, c: Color, k: int)
    requires Valid(b) && OnSquares(ps) && LastKingAt(ps, k, c)
    ensures KingSquare(PlaceAll(b, ps), c) == Some(ps[k].0)
    decreases |ps|
  {
    var front := ps[..|ps| - 1];
    if k < |ps| - 1 {
      assert LastKingAt(front, k, c) by {
        assert forall j :: k < j < |front| ==> front[j] == ps[j];
      }
      PlacedKing(b, front, c, k);
    }
  }

  /** Without a king of colour c among the placements, that colour's king square is kept. */
  lemma {:induction false} KeptKing(b: BoardState, ps: Placements, c: Color)
    requires Valid(b) && OnSquares(ps) && NoKing(ps, c)
    ensures KingSquare(PlaceAll(b, ps), c) == KingSquare(b, c)
    decreases |ps|
  {
    if ps != [] {
      var front := ps[..|ps| - 1];
      assert NoKing(front, c) by {
        assert forall j :: 0 <= j < |front| ==> front[j] == ps[j];
      }
      KeptKing(b, front, c);
    }
  }

  /** The sides whose castling right `__init__` examines, in its order. */
  const RightsOrder: seq<Direction> := [Left, Right]

  /** `king.move_directions[d] = 1` on the piece standing on sq; AttributeError on an empty square. */
  function LowerReach(b: BoardState, sq: string, d: Direction): (r: Result<BoardState, Error>)
    requires Valid(b) && IsSquare(sq)
    ensures r.Ok? <==> b.pieces[sq].Some?
    ensures r.Ok? ==> Valid(r.value) && r.value == b.(pieces := r.value.pieces)
  {
    match b.pieces[sq]
    case None => Err(AttributeError)
    case Some(king) => Ok(b.(pieces := b.pieces[sq := Some(king.(moves := king.moves[d := Steps(1)]))]))
  }

  /** One pass of the castling loop: a side missing from the castling list loses its reach of 2. */
  function KeepCastle(b: BoardState, sq: string, castle: seq<Direction>, d: Direction): (r: Result<BoardState, Error>)
    requires Valid(b) && IsSquare(sq)
    ensures r.Ok? ==> Valid(r.value) && r.value == b.(pieces := r.value.pieces)
  {
    if d in castle then Ok(b) else LowerReach(b, sq, d)
  }

  /** The castling loop of `__init__` over the sides ds, in order. */
  function CastleRights(b: BoardState, sq: string, castle: seq<Direction>, ds: seq<Direction>): (r: Result<BoardState, Error>)
    requires Valid(b) && IsSquare(sq)
    ensures r.Ok? ==> Valid(r.value) && r.value == b.(pieces := r.value.pieces)
    decreases |ds|
  {
    if ds == [] then Ok(b)
    else
      var before :- CastleRights(b, sq, castle, ds[..|ds| - 1]);
      KeepCastle(before, sq, castle, ds[|ds| - 1])
  }

  /**
   * On an occupied square the castling loop succeeds and changes only the piece's reach table:
   * LEFT and RIGHT become 1 when missing from the castling list, every other entry stays, and
   * the rest of the board is as it was.
   */
  lemma CastleRightsEffect(b: BoardState, sq: string, castle: seq<Direction>)
    requires Valid(b) && IsSquare(sq) && b.pieces[sq].Some?
    ensures var r := CastleRights(b, sq, castle, RightsOrder);
      var p := b.pieces[sq].value;
      && r.Ok?
      && r.value.pieces[sq].Some?
      && var k := r.value.pieces[sq].value;
      && k == p.(moves := k.moves)
      && (forall d :: d in k.moves <==> d in p.moves || ((d == Left || d == Right) && d !in castle))
      && (forall d :: d in k.moves ==>
            k.moves[d] == if (d == Left || d == Right) && d !in castle then Steps(1) else p.moves[d])
      && (forall q :: q in b.pieces && q != sq ==> r.value.pieces[q] == b.pieces[q])
      && r.value == b.(pieces := r.value.pieces)
  {
    var p := b.pieces[sq].value;
    KeepCastleEffect(b, sq, castle, Left);
    var first := KeepCastle(b, sq, castle, Left).value;
    KeepCastleEffect(first, sq, castle, Right);
    RightsTwoPasses(b, sq, castle);
    ReachAfterRights(p.moves, castle);
  }

  /** The castling loop over LEFT then RIGHT is the LEFT pass followed by the RIGHT pass. */
  lemma RightsTwoPasses(b: BoardState, sq: string, castle: seq<Direction>)
    requires Valid(b) && IsSquare(sq)
    ensures var first := KeepCastle(b, sq, castle, Left);
      CastleRights(b, sq, castle, RightsOrder) == if first.Err? then first else KeepCastle(first.value, sq, castle, Right)
  {
    assert RightsOrder[..1] == [Left] && RightsOrder[..0] == [];
    assert CastleRights(b, sq, castle, [Left]) == KeepCastle(b, sq, castle, Left);
  }

  /** One pass on an occupied square rewrites that piece's reach of d to 1 when d is missing from the list. */
  lemma KeepCastleEffect(b: BoardState, sq: string, castle: seq<Direction>, d: Direction)
    requires Valid(b) && IsSquare(sq) && b.pieces[sq].Some?
    ensures var p := b.pieces[sq].value;
      KeepCastle(b, sq, castle, d) ==
      Ok(b.(pieces := b.pieces[sq := Some(p.(moves := if d in castle then p.moves else p.moves[d := Steps(1)]))]))
  {
    if d in castle {
      assert b.pieces[sq := Some(b.pieces[sq].value)] == b.pieces;
    }
  }

  /** The reach table after both passes: LEFT and RIGHT at 1 when missing from the list, the rest kept. */
  lemma ReachAfterRights(m: map<Direction, Reach>, castle: seq<Direction>)
    ensures var m1 := if Left in castle then m else m[Left := Steps(1)];
      var m2 := if Right in castle then m1 else m1[Right := Steps(1)];
      && (forall d :: d in m2 <==> d in m || ((d == Left || d == Right) && d !in castle))
      && (forall d :: d in m2 ==> m2[d] == if (d == Left || d == Right) && d !in castle then Steps(1) else m[d])
  {
  }

  /** The white half of the castling loops: it runs only when a white king was placed. */
  function WhiteRights(b: BoardState, castle: seq<Direction>): (r: Result<BoardState, Error>)
    requires Valid(b)
    ensures r.Ok? ==> Valid(r.value)
  {
    if b.whiteKing.None? then Ok(b) else CastleRights(b, b.whiteKing.value, castle, RightsOrder)
  }

  /**
   * The black half as written: its guard reads the board at the black king's square, which is
   * a lookup of None, a KeyError, when no black king was placed.
   */
  function BlackRightsAsWritten(b: BoardState, castle: seq<Direction>): (r: Result<BoardState, Error>)
    requires Valid(b)
    ensures r.Ok? ==> Valid(r.value)
  {
    if b.blackKing.None? then Err(KeyError)
    else if b.pieces[b.blackKing.value].None? then Ok(b)
    else CastleRights(b, b.blackKing.value, castle, RightsOrder)
  }

  /** The black half with the guard the white half has: no black king, nothing to do. */
  function BlackRights(b: BoardState, castle: seq<Direction>): (r: Result<BoardState, Error>)
    requires Valid(b)
    ensures r.Ok? ==> Valid(r.value)
  {
    if b.blackKing.None? || b.pieces[b.blackKing.value].None? then Ok(b)
    else CastleRights(b, b.blackKing.value, castle, RightsOrder)
  }

  /** The board before the placement loop: empty, with the en-passant record of the FEN. */
  function StartState(ep: (Option<string>, Option<string>)): (b: BoardState)
    requires OptSquare(ep.0) && OptSquare(ep.1)
    ensures Valid(b)
  {
    EmptyBoard().(epTarget := ep.0, epPawn := ep.1)
  }

  /**
   * `ChessBoard(fen)` as written: an absent FEN or one without pieces gives the empty board;
   * otherwise the en-passant record, the placements in order, then the castling rights.
   */
  function InitialStateAsWritten(fen: Option<FenRecord>): (r: Result<BoardState, Error>)
    requires fen.Some? ==> OnSquares(fen.value.board)
    ensures r.Ok? ==> Valid(r.value)
  {
    if fen.None? || fen.value.board == [] then Ok(EmptyBoard())
    else
      var f := fen.value;
      var ep :- EnPassantRecord(f);
      var placed := PlaceAll(StartState(ep), f.board);
      var white :- WhiteRights(placed, f.whiteCastle);
      BlackRightsAsWritten(white, f.blackCastle)
  }

  /** `ChessBoard(fen)` with the black guard corrected; the board the rest of the model builds. */
  function InitialState(fen: Option<FenRecord>): (r: Result<BoardState, Error>)
    requires fen.Some? ==> OnSquares(fen.value.board)
    ensures r.Ok? ==> Valid(r.value)
  {
    if fen.None? || fen.value.board == [] then Ok(EmptyBoard())
    else
      var f := fen.value;
      var ep :- EnPassantRecord(f);
      Rights(PlaceAll(StartState(ep), f.board), f)
  }

  /** The castling loops of both colours after the placement loop. */
  function Rights(placed: BoardState, f: FenRecord): (r: Result<BoardState, Error>)
    requires Valid(placed)
  {
    var white :- WhiteRights(placed, f.whiteCastle);
    BlackRights(white, f.blackCastle)
  }

  /** The two constructions agree whenever the FEN places a black king. */
  lemma ConstructionsAgree(fen: FenRecord)
    requires OnSquares(fen.board)
    requires !NoKing(fen.board, Black)
    ensures InitialStateAsWritten(Some(fen)) == InitialState(Some(fen))
  {
    var ep := EnPassantRecord(fen);
    if ep.Ok? {
      var placed := PlaceAll(StartState(ep.value), fen.board);
      assert placed.blackKing.Some? by {
        var k :| 0 <= k < |fen.board| && KingOf(fen.board[k], Black);
        var last := LastKing(fen.board, Black, k);
        PlacedKing(StartState(ep.value), fen.board, Black, last);
      }
      GuardsAgree(placed, fen.whiteCastle, fen.blackCastle);
    }
  }

  /** Once a black king is recorded, the two black guards let the same boards through. */
  lemma GuardsAgree(b: BoardState, white: seq<Direction>, black: seq<Direction>)
    requires Valid(b) && b.blackKing.Some?
    ensures var w := WhiteRights(b, white);
      w.Ok? ==> BlackRightsAsWritten(w.value, black) == BlackRights(w.value, black)
  {
  }

  /** The last king of colour c in ps at or after index k. */
  lemma {:induction false} LastKing(ps: Placements, c: Color, k: int) returns (last: int)
    requires 0 <= k < |ps| && KingOf(ps[k], c)
    ensures LastKingAt(ps, last, c)
    decreases |ps| - k
  {
    if exists j :: k < j < |ps| && KingOf(ps[j], c) {
      var j :| k < j < |ps| && KingOf(ps[j], c);
      last := LastKing(ps, c, j);
    } else {
      last := k;
    }
  }

  /** A FEN with a white king and no black king: `ChessBoard` fails on it as written. */
  const LoneWhiteKing: FenRecord := FenRecord([("e1", NewPiece(King, White))], White, [], [], None)

  /**
   * As written, a board with no black king cannot be built (KeyError); with the corrected
   * guard it is built, with the white king on e1 and its castling reach lowered to 1.
   */
  lemma LoneKingConstruction()
    ensures OnSquares(LoneWhiteKing.board)
    ensures InitialStateAsWritten(Some(LoneWhiteKing)) == Err(KeyError)
    ensures InitialState(Some(LoneWhiteKing)).Ok?
    ensures var b := InitialState(Some(LoneWhiteKing)).value;
      && b.whiteKing == Some("e1") && b.blackKing == None
      && b.pieces["e1"].Some? && b.pieces["e1"].value.kind == King
      && b.pieces["e1"].value.moves[Left] == Steps(1) && b.pieces["e1"].value.moves[Right] == Steps(1)
  {
    var ps := LoneWhiteKing.board;
    var start := StartState((None, None));
    assert ps[..0] == [];
    assert PlaceAll(start, ps) == Place(start, "e1", NewPiece(King, White));
    var placed := PlaceAll(start, ps);
    assert placed.whiteKing == Some("e1") && placed.blackKing == None;
    CastleRightsEffect(placed, "e1", []);
  }

  /** A failure in the castling loop is the failure of the whole loop. */
  lemma {:induction false} CastleFailureStays(b: BoardState, sq: string, castle: seq<Direction>, ds: seq<Direction>, n: nat)
    requires Valid(b) && IsSquare(sq) && n <= |ds|
    requires CastleRights(b, sq, castle, ds[..n]).Err?
    ensures CastleRights(b, sq, castle, ds) == CastleRights(b, sq, castle, ds[..n])
    decreases |ds| - n
  {
    if n < |ds| {
      assert ds[..n + 1][..n] == ds[..n];
      CastleFailureStays(b, sq, castle, ds, n + 1);
    } else {
      assert ds[..n] == ds;
    }
  }

  /** One pass of the ray loop of `is_check`: the scan's sighting attacks, or a later ray does. */
  lemma SightingStep(b: BoardState, c: Color, kp: string, overlay: Ghost, j: int, s: Option<Sighting>)
    requires Valid(b) && 0 <= j < |CheckDirections| && CheckDirections[j] != LShape
    requires Nearest(b, kp, CheckDirections[j], c, overlay) == Ok(s)
    ensures IsSquare(kp)
    ensures RayAttackFrom(b, c, kp, overlay, j) ==
      ((s.Some? && Attacks(CheckDirections[j], s.value, c)) || RayAttackFrom(b, c, kp, overlay, j + 1))
  {
  }

  // ---------------------------------------------------------------------------------------
  // The board object
  // ---------------------------------------------------------------------------------------


  /**
   * `ChessBoard`: what stands on each square, each colour's king square, and the en-passant
   * target and pawn squares. The index tables the source builds are fixed, and are the
   * functions of the Coordinates module.
   */
  class ChessBoard {
    var pieces: map<string, Option<Piece>>
    var whiteKing: Option<string>
    var blackKing: Option<string>
    var epTarget: Option<string>
    var epPawn: Option<string>

    /** The fields as one value, the argument of the specification functions. */
    function State(): BoardState
      reads this
    {
      BoardState(pieces, whiteKing, blackKing, epTarget, epPawn)
    }

    ghost predicate Valid()
      reads this
    {
      Board.Valid(State())
    }

    /** `ChessBoard()`: every square empty, no kings, no en-passant record. */
    constructor()
      ensures State() == EmptyBoard()
    {
      pieces := EmptyBoard().pieces;
      whiteKing := None;
      blackKing := None;
      epTarget := None;
      epPawn := None;
    }

    /**
     * `ChessBoard(fen)`: the en-passant record, the placement loop, then the castling loops of
     * each colour, with the black guard corrected.
     */
    static method FromFen(fen: Option<FenRecord>) returns (r: Result<ChessBoard, Error>)
      requires fen.Some? ==> OnSquares(fen.value.board)
      ensures r.Ok? <==> InitialState(fen).Ok?
      ensures r.Ok? ==> fresh(r.value) && r.value.State() == InitialState(fen).value
      ensures r.Err? ==> InitialState(fen) == Err(r.error)
    {
      var board := new ChessBoard();
      if fen.None? || fen.value.board == [] {
        return Ok(board);
      }
      var f := fen.value;
      var recorded := board.RecordEnPassant(f);
      if recorded.Err? {
        return Err(recorded.error);
      }
      board.PlacePieces(f.board);
      var lowered := board.LowerCastleRights(f);
      if lowered.Err? {
        return Err(lowered.error);
      }
      return Ok(board);
    }

    /** The en-passant fields set by `__init__` from the FEN record. */
    method RecordEnPassant(f: FenRecord) returns (r: Result<(), Error>)
      requires State() == EmptyBoard()
      modifies this
      ensures var spec := EnPassantRecord(f);
        && (r.Ok? <==> spec.Ok?)
        && (spec.Ok? ==> State() == StartState(spec.value))
        && (r.Err? ==> spec == Err(r.error))
    {
      if f.enPassant.Some? && f.enPassant.value != "" {
        epTarget := f.enPassant;
        var pawn := ShiftedByOffset(f.enPassant.value, Backward, 1, f.currentPlayer);
        if pawn.Err? {
          return Err(pawn.error);
        }
        epPawn := Some(pawn.value);
      }
      return Ok(());
    }

    /** The castling loops of `__init__`, first for the white king and then for the black one. */
    method LowerCastleRights(f: FenRecord) returns (r: Result<(), Error>)
      requires Valid()
      modifies this
      ensures Valid()
      ensures var spec := Rights(old(State()), f);
        && (r.Ok? <==> spec.Ok?)
        && (spec.Ok? ==> State() == spec.value)
        && (r.Err? ==> spec == Err(r.error))
    {
      if whiteKing.Some? {
        var lowered := KeepCastleRights(whiteKing.value, f.whiteCastle);
        if lowered.Err? {
          return Err(lowered.error);
        }
      }
      assert WhiteRights(old(State()), f.whiteCastle) == Ok(State());
      if blackKing.Some? && pieces[blackKing.value].Some? {
        var lowered := KeepCastleRights(blackKing.value, f.blackCastle);
        if lowered.Err? {
          return Err(lowered.error);
        }
      }
      return Ok(());
    }

    /** The placement loop of `__init__`: each piece on its square, each king's square recorded. */
    method PlacePieces(ps: Placements)
      requires Valid() && OnSquares(ps)
      modifies this
      ensures Valid()
      ensures State() == PlaceAll(old(State()), ps)
    {
      var i := 0;
      while i < |ps|
        invariant 0 <= i <= |ps|
        invariant State() == PlaceAll(old(State()), ps[..i])
      {
        var (position, piece) := ps[i];
        pieces := pieces[position := Some(piece)];
        if piece.kind == King {
          if piece.color == White {
            whiteKing := Some(position);
          } else {
            blackKing := Some(position);
          }
        }
        assert ps[..i + 1][..i] == ps[..i];
        i := i + 1;
      }
      assert ps[..i] == ps;
    }

    /** The castling loop of `__init__` for the king on sq: each side missing from the list drops to 1. */
    method KeepCastleRights(sq: string, castle: seq<Direction>) returns (r: Result<(), Error>)
      requires Valid() && IsSquare(sq)
      modifies this
      ensures Valid()
      ensures var spec := CastleRights(old(State()), sq, castle, RightsOrder);
        && (r.Ok? <==> spec.Ok?)
        && (spec.Ok? ==> State() == spec.value)
        && (r.Err? ==> spec == Err(r.error))
    {
      var j := 0;
      while j < |RightsOrder|
        invariant 0 <= j <= |RightsOrder|
        invariant Valid()
        invariant CastleRights(old(State()), sq, castle, RightsOrder[..j]) == Ok(State())
      {
        var d := RightsOrder[j];
        assert RightsOrder[..j + 1][..j] == RightsOrder[..j];
        if d !in castle {
          var king := pieces[sq];
          if king.None? {
            CastleFailureStays(old(State()), sq, castle, RightsOrder, j + 1);
            return Err(AttributeError);
          }
          pieces := pieces[sq := Some(king.value.(moves := king.value.moves[d := Steps(1)]))];
        }
        j := j + 1;
      }
      assert RightsOrder[..j] == RightsOrder;
      return Ok(());
    }

    // -------------------------------------------------------------------------------------
    // Board access
    // -------------------------------------------------------------------------------------

    /** `__getitem__`. */
    method GetItem(position: string) returns (r: Result<Option<Piece>, Error>)
      requires Valid()
      ensures r == MP.GetItem(State(), position)
    {
      if position !in pieces {
        return Err(KeyError);
      }
      return Ok(pieces[position]);
    }

    /** `__setitem__`. */
    method SetItem(position: string, piece: Option<Piece>) returns (r: Result<(), Error>)
      requires Valid()
      modifies this
      ensures Valid()
      ensures State() == MP.SetItem(old(State()), position, piece).board
      ensures r == MP.SetItem(old(State()), position, piece).result
    {
      if !IsValidPosition(position) {
        return Err(InvalidPosition(position));
      }
      if position !in pieces {
        return Err(KeyError);
      }
      pieces := pieces[position := piece];
      if piece.None? {
        return Err(AttributeError);
      }
      if piece.value.kind == King {
        if piece.value.color == White {
          whiteKing := Some(position);
        } else {
          blackKing := Some(position);
        }
      }
      return Ok(());
    }

    /** `_remove_piece`. */
    method RemovePiece(position: string) returns (r: Result<(), Error>)
      requires Valid()
      modifies this
      ensures Valid()
      ensures State() == MP.RemovePiece(old(State()), position).board
      ensures r == MP.RemovePiece(old(State()), position).result
    {
      if !IsValidPosition(position) {
        return Err(InvalidPosition(position));
      }
      if position !in pieces {
        return Err(KeyError);
      }
      pieces := pieces[position := None];
      return Ok(());
    }

    /** `get_board_pieces`: a copy listing every square of the board with what stands on it. */
    method GetBoardPieces() returns (r: map<string, Option<Piece>>)
      requires Valid()
      ensures forall p :: p in r <==> IsSquare(p)
      ensures forall p :: p in r ==> r[p] == pieces[p]
    {
      r := pieces;
    }

    /** `get_enpassant_position`: the recorded target square, if any. */
    method GetEnPassantPosition() returns (r: Option<string>)
      requires Valid()
      ensures r == epTarget && OptSquare(r)
    {
      r := epTarget;
    }

    /** `is_position_occupied`. */
    method IsPositionOccupied(position: string) returns (r: Result<bool, Error>)
      requires Valid()
      ensures r == IsOccupied(State(), position)
    {
      if !IsValidPosition(position) {
        return Err(InvalidPosition(position));
      }
      if position !in pieces {
        return Err(KeyError);
      }
      return Ok(pieces[position].Some?);
    }

    // -------------------------------------------------------------------------------------
    // The scan and the check test
    // -------------------------------------------------------------------------------------

    /** `_get_nearest_piece_in_direction`: the scan loop over the projected ray. */
    method NearestPiece(start: string, d: Direction, c: Color, overlay: Ghost) returns (r: Result<Option<Sighting>, Error>)
      requires Valid() && d != LShape
      ensures r == Nearest(State(), start, d, c, overlay)
    {
      if !IsValidPosition(start) {
        return Err(InvalidPosition(start));
      }
      if !IsSquare(start) {
        return Err(KeyError);
      }
      var positions := PossiblePositions(start, d, c);
      PossibleSquares(start, d, c);
      var offset := 0;
      while offset < |positions|
        invariant 0 <= offset <= |positions|
        invariant NearestFrom(State(), positions, offset, overlay) == NearestFrom(State(), positions, 0, overlay)
      {
        var position := positions[offset];
        offset := offset + 1;
        var occupied := pieces[position].Some?;
        if position in overlay && overlay[position].None? {
          continue;
        } else if position in overlay {
          return Ok(Some(Sighting(position, overlay[position].value.0, offset, overlay[position].value.1)));
        } else if occupied {
          return Ok(Some(Sighting(position, pieces[position].value.color, offset, pieces[position].value.kind)));
        }
      }
      return Ok(None);
    }

    /**
     * `is_check`: the eight rays in order, returning at the first attacker, then the knight
     * squares on the real board.
     */
    method IsCheck(c: Color, position: Option<string>, overlay: Ghost) returns (r: Result<bool, Error>)
      requires Valid()
      ensures r == Board.IsCheck(State(), c, position, overlay)
    {
      var given := position.Some? && position.value != "";
      if given && !IsValidPosition(position.value) {
        return Err(InvalidPosition(position.value));
      }
      if KingSquare(State(), c).None? {
        return Ok(false);
      }
      var kp := if given then position.value else KingSquare(State(), c).value;
      var rays := RaysAttack(c, kp, overlay);
      if rays.Err? || rays.value {
        return rays;
      }
      var knightSquares := PossiblePositions(kp, LShape, c);
      PossibleSquares(kp, LShape, c);
      var knights := KnightsAttack(c, knightSquares);
      return Ok(knights);
    }

    /** The ray loop of `is_check` from square kp: an attacker sighted in any of the eight directions. */
    method RaysAttack(c: Color, kp: string, overlay: Ghost) returns (r: Result<bool, Error>)
      requires Valid() && IsValidPosition(kp)
      ensures !IsSquare(kp) ==> r == Err(KeyError)
      ensures IsSquare(kp) ==> r == Ok(RayAttackFrom(State(), c, kp, overlay, 0))
    {
      // The first ray's lookup raises KeyError for a position off the board; the loop below
      // then runs only on a square.
      if !IsSquare(kp) {
        return Err(KeyError);
      }
      ghost var b := State();
      // `is_check` returns at the first direction whose sighting attacks: the loop stops there.
      var found := false;
      var j := 0;
      while j < |CheckDirections| && !found
        invariant 0 <= j <= |CheckDirections|
        invariant RayAttackFrom(b, c, kp, overlay, 0) == (found || RayAttackFrom(b, c, kp, overlay, j))
      {
        found := RayHit(c, kp, overlay, j, b);
        j := j + 1;
      }
      return Ok(found);
    }

    /** One ray of `is_check`: the nearest piece along the j-th direction gives check. */
    method RayHit(c: Color, kp: string, overlay: Ghost, j: int, ghost b: BoardState) returns (hit: bool)
      requires Valid() && b == State() && IsSquare(kp) && 0 <= j < |CheckDirections|
      ensures RayAttackFrom(b, c, kp, overlay, j) == (hit || RayAttackFrom(b, c, kp, overlay, j + 1))
    {
      var d := CheckDirections[j];
      assert d != LShape by {
        assert d in CheckDirections && LShape !in CheckDirections;
      }
      var nearest := NearestPiece(kp, d, c, overlay);
      assert nearest.Ok?;
      var s := nearest.value;
      hit := s.Some? && s.value.color != c
        && ((IsForwardDiagonal(d) && s.value.offset == 1 && s.value.kind == Pawn)
            || (s.value.offset == 1 && s.value.kind == King)
            || RangedAttacker(d, s.value.kind));
      RayAttackUnfold(b, c, kp, overlay, j);
    }

    /** The knight loop of `is_check`: an enemy knight on one of the squares ks, on the real board. */
    method KnightsAttack(c: Color, ks: seq<string>) returns (r: bool)
      requires Valid() && SquareList(ks)
      ensures r == KnightAttackFrom(State(), c, ks, 0)
    {
      ghost var b := State();
      var i := 0;
      while i < |ks|
        invariant 0 <= i <= |ks|
        invariant KnightAttackFrom(b, c, ks, i) == KnightAttackFrom(b, c, ks, 0)
      {
        var q := ks[i];
        if pieces[q].Some? && pieces[q].value.kind == Knight && pieces[q].value.color != c {
          return true;
        }
        i := i + 1;
      }
      return false;
    }

    /**
     * `can_en_passant(position, d)`: only the forward diagonals qualify, the square must hold
     * a pawn, and the square one step along d must be the recorded target.
     */
    method CanEnPassant(position: string, d: Option<Direction>) returns (r: Result<bool, Error>)
      requires Valid()
      ensures r == SpecialMoves.CanEnPassant(State(), position, d)
    {
      if d != Some(FRightDiag) && d != Some(FLeftDiag) {
        return Ok(false);
      }
      if position !in pieces {
        return Err(KeyError);
      }
      var pawn := pieces[position];
      if pawn.None? || pawn.value.kind != Pawn {
        return Ok(false);
      }
      var newPosition := ShiftedByOffset(position, d.value, 1, pawn.value.color);
      if newPosition.Err? {
        return Err(newPosition.error);
      }
      return Ok(Some(newPosition.value) == epTarget);
    }

    /**
     * `can_castle(c, d)`: a rook at the expected distance along LEFT or RIGHT, a king that
     * still has reach 2 that way and is not in check, and two unattacked squares to cross.
     */
    method CanCastle(c: Color, d: Option<Direction>) returns (r: Result<bool, Error>)
      requires Valid()
      ensures r == SpecialMoves.CanCastle(State(), c, d)
    {
      if d != Some(Left) && d != Some(Right) {
        return Ok(false);
      }
      var kingPosition := if c == White then whiteKing else blackKing;
      if kingPosition.None? {
        return Err(AttributeError);
      }
      var kp := kingPosition.value;
      var nearest := NearestPiece(kp, d.value, c, map[]);
      if nearest.Err? {
        return Err(nearest.error);
      }
      if nearest.value.None? || nearest.value.value.kind != Rook {
        return Ok(false);
      }
      r := CastleChecks(c, d.value, kp, nearest.value.value);
    }

    /** The rest of `can_castle` once a rook has been sighted from the king square kp. */
    method CastleChecks(c: Color, d: Direction, kp: string, s: Sighting) returns (r: Result<bool, Error>)
      requires Valid() && IsSquare(kp) && (d == Left || d == Right)
      ensures r == CastleWithRook(State(), c, d, kp, s)
    {
      var king := pieces[kp];
      var inCheck := IsCheck(c, Some(kp), map[]);
      assert inCheck.Ok?;
      var isExpectedOffset := ExpectedRookOffset(c, d) == s.offset;
      if king.None? {
        return Err(AttributeError);
      }
      if d !in king.value.moves {
        return Err(KeyError);
      }
      if !(NumericValue(king.value.moves[d]) == 2 && !inCheck.value && isExpectedOffset) {
        return Ok(false);
      }
      r := CrossingSafe(c, Index(kp, king.value.color), PieceShift(d));
    }

    /** The end of `can_castle`: neither of the two squares the king crosses is attacked. */
    method CrossingSafe(c: Color, kingIndex: int, shift: int) returns (r: Result<bool, Error>)
      requires Valid()
      ensures r == CrossingUnattacked(State(), c, kingIndex, shift)
    {
      var positionOne := IndexToPosition(kingIndex + shift, c);
      if positionOne.Err? {
        return Err(positionOne.error);
      }
      var checkOne := IsCheck(c, Some(positionOne.value), map[]);
      if checkOne.Err? {
        return Err(checkOne.error);
      }
      var positionTwo := IndexToPosition(kingIndex + shift + shift, c);
      if positionTwo.Err? {
        return Err(positionTwo.error);
      }
      var checkTwo := IsCheck(c, Some(positionTwo.value), map[]);
      if checkTwo.Err? {
        return Err(checkTwo.error);
      }
      return Ok(!checkOne.value && !checkTwo.value);
    }

    /** The ghost test of `get_legal_moves`: the mover's colour in check with the mover lifted onto q. */
    method GhostTest(m: Mover, d: Direction, q: string) returns (r: Result<bool, Error>)
      requires Valid()
      ensures r == GhostCheck(State(), m, d, q)
    {
      r := IsCheck(m.piece.color, CheckedSquare(m, d, q), MoveGhost(m.position, q, m.piece));
    }

    /** The L_SHAPE loop of `get_legal_moves` over the knight squares ps, appending to acc. */
    method KnightMoves(m: Mover, ps: seq<string>, acc: seq<string>) returns (r: Result<seq<string>, Error>)
      requires Valid() && SquareList(ps)
      ensures r == KnightMovesFrom(State(), m, ps, 0, acc)
    {
      ghost var b := State();
      var possibleMoves := acc;
      var i := 0;
      while i < |ps|
        invariant 0 <= i <= |ps|
        invariant KnightMovesFrom(b, m, ps, i, possibleMoves) == KnightMovesFrom(b, m, ps, 0, acc)
      {
        var q := ps[i];
        var inCheck := GhostTest(m, LShape, q);
        if inCheck.Err? {
          return Err(inCheck.error);
        }
        if !inCheck.value {
          if pieces[q].None? {
            possibleMoves := possibleMoves + [q];
          } else if pieces[q].value.color != m.piece.color {
            possibleMoves := possibleMoves + [q];
          }
        }
        i := i + 1;
      }
      return Ok(possibleMoves);
    }

    /** The loop of `get_legal_moves` over the (cut) ray ps in direction d, appending to acc. */
    method RayMoves(m: Mover, d: Direction, ps: seq<string>, acc: seq<string>) returns (r: Result<seq<string>, Error>)
      requires Valid() && IsSquare(m.position) && SquareList(ps)
      ensures r == RayMovesFrom(State(), m, d, ps, 0, acc)
    {
      ghost var b := State();
      var possibleMoves := acc;
      var k := 0;
      while k < |ps|
        invariant 0 <= k <= |ps|
        invariant RayMovesFrom(b, m, d, ps, k, possibleMoves) == RayMovesFrom(b, m, d, ps, 0, acc)
      {
        var step := RayStep(m, d, ps, k, possibleMoves);
        if step.Err? {
          return Err(step.error);
        }
        var (next, stop) := step.value;
        if stop {
          return Ok(next);
        }
        possibleMoves := next;
        k := k + 1;
      }
      return Ok(possibleMoves);
    }

    /**
     * One pass of the ray loop over the k-th square: the moves so far, and whether the loop
     * breaks there.
     */
    method RayStep(m: Mover, d: Direction, ps: seq<string>, k: int, acc: seq<string>) returns (r: Result<(seq<string>, bool), Error>)
      requires Valid() && IsSquare(m.position) && SquareList(ps) && 0 <= k < |ps|
      ensures r == RayTurn(State(), m, d, ps, k, acc)
    {
      var q := ps[k];
      var inCheck := GhostTest(m, d, q);
      if inCheck.Err? {
        return Err(inCheck.error);
      }
      if m.piece.kind == King {
        if inCheck.value {
          return Ok((acc, true));
        }
        var castle := CanCastle(m.piece.color, Some(d));
        if castle.Err? {
          return Err(castle.error);
        }
        var turn := KingRayStep(m, q, castle.value, acc);
        return Ok(turn);
      }
      if inCheck.value {
        return Ok((acc, false));
      }
      if m.piece.kind == Pawn {
        r := PawnRayStep(m, d, k, q, acc);
        return;
      }
      if pieces[q].None? {
        return Ok((acc + [q], false));
      } else if pieces[q].value.color != m.piece.color {
        return Ok((acc + [q], true));
      }
      return Ok((acc, true));
    }

    /** The king's pass: castling squares, empty squares, and a capture that ends the ray. */
    method KingRayStep(m: Mover, q: string, castle: bool, acc: seq<string>) returns (turn: (seq<string>, bool))
      requires Valid() && IsSquare(m.position) && IsSquare(q)
      ensures turn == KingTurn(State(), m, q, castle, acc)
    {
      var distance := Abs(Index(m.position, m.piece.color) - Index(q, m.piece.color));
      if castle && distance == 2 {
        return (acc + [q], false);
      } else if pieces[q].None? && distance != 2 {
        return (acc + [q], false);
      } else if pieces[q].Some? && pieces[q].value.color != m.piece.color && distance != 2 {
        return (acc + [q], true);
      }
      return (acc, false);
    }

    /** The pawn's pass: a straight step, a capture on the first diagonal square, or en passant. */
    method PawnRayStep(m: Mover, d: Direction, k: int, q: string, acc: seq<string>) returns (r: Result<(seq<string>, bool), Error>)
      requires Valid() && IsSquare(m.position) && IsSquare(q)
      ensures r == PawnTurn(State(), m, d, k, q, acc)
    {
      if pieces[q].None? && !IsForwardDiagonal(d) {
        return Ok((acc + [q], false));
      } else if pieces[q].Some? && pieces[q].value.color != m.piece.color && IsForwardDiagonal(d) && k == 0 {
        return Ok((acc + [q], true));
      } else if IsForwardDiagonal(d) {
        var enPassant := CanEnPassant(m.position, Some(d));
        if enPassant.Err? {
          return Err(enPassant.error);
        }
        if enPassant.value {
          return Ok((acc + [q], false));
        }
      }
      return Ok((acc, true));
    }

    /**
     * `get_legal_moves(position)`: nothing for an empty square, otherwise the moves of every
     * direction of the piece's reach table, in the table's order.
     */
    method LegalMoves(position: string) returns (r: Result<seq<string>, Error>)
      requires Valid()
      ensures r == Moves.LegalMoves(State(), position)
    {
      var occupied := IsPositionOccupied(position);
      if occupied.Err? {
        return Err(occupied.error);
      }
      if !occupied.value {
        return Ok([]);
      }
      var piece := pieces[position].value;
      var m := Mover(position, piece, if piece.color == White then whiteKing else blackKing);
      var ds := ReachOrder(piece);
      ghost var b := State();
      ghost var total := DirectionsFrom(b, m, ds, 0, []);
      var possibleMoves := [];
      var j := 0;
      while j < |ds|
        invariant 0 <= j <= |ds|
        invariant Board.Valid(b) && IsSquare(m.position) && forall d :: d in ds ==> d in m.piece.moves
        invariant DirectionsFrom(b, m, ds, j, possibleMoves) == total
      {
        var next := DirectionMoves(m, ds[j], possibleMoves);
        DirectionsStep(b, m, ds, j, possibleMoves, next, total);
        if next.Err? {
          return Err(next.error);
        }
        possibleMoves := next.value;
        j := j + 1;
      }
      return Ok(possibleMoves);
    }

    /** The body of the loop of `get_legal_moves` over one direction d of the mover's table. */
    method DirectionMoves(m: Mover, d: Direction, acc: seq<string>) returns (r: Result<seq<string>, Error>)
      requires Valid() && IsSquare(m.position) && d in m.piece.moves
      ensures r == MovesInDirection(State(), m, d, acc)
    {
      var all := PossiblePositions(m.position, d, m.piece.color);
      PossibleSquares(m.position, d, m.piece.color);
      if d == LShape {
        r := KnightMoves(m, all, acc);
      } else {
        r := RayMoves(m, d, all[..RayLimit(|all|, m.piece.moves[d])], acc);
      }
    }

    /** `is_checkmate(c)`: in check, and the king has no legal move. */
    method IsCheckmate(c: Color) returns (r: Result<bool, Error>)
      requires Valid()
      ensures r == Moves.IsCheckmate(State(), c)
    {
      var kingPosition := if c == White then whiteKing else blackKing;
      var check := IsCheck(c, None, map[]);
      assert check.Ok?;
      if kingPosition.None? {
        return Err(AttributeError);
      }
      var possibleMoves := LegalMoves(kingPosition.value);
      if possibleMoves.Err? {
        return Err(possibleMoves.error);
      }
      return Ok(check.value && possibleMoves.value == []);
    }

    /**
     * `is_stalemate(c)`: the loop over every square in dictionary order looks for a piece of
     * colour c with a legal move; then the check test.
     */
    method IsStalemate(c: Color) returns (r: Result<bool, Error>)
      requires Valid()
      ensures r == Moves.IsStalemate(State(), c)
    {
      DictOrderIsBoard();
      var squares := DictOrder();
      ghost var b := State();
      var available := false;
      var i := 0;
      while i < |squares|
        invariant 0 <= i <= |squares|
        invariant MovesAvailableFrom(b, c, squares, i, available) == MovesAvailableFrom(b, c, squares, 0, false)
      {
        var q := squares[i];
        AvailableStep(b, c, squares, i, available);
        if pieces[q].Some? && pieces[q].value.color == c {
          var legalMoves := LegalMoves(q);
          if legalMoves.Err? {
            return Err(legalMoves.error);
          }
          if legalMoves.value != [] {
            available := true;
          }
        }
        i := i + 1;
      }
      var inCheck := IsCheck(c, None, map[]);
      assert inCheck.Ok?;
      return Ok(!inCheck.value && !available);
    }

    // -------------------------------------------------------------------------------------
    // move_piece
    // -------------------------------------------------------------------------------------

    /**
     * `move_piece(s, e)`: validation, the mover, the report of changed squares, the kind's own
     * phase, the new en-passant record, and finally the mover taken from s and set on e.
     */
    method MovePiece(s: string, e: string) returns (r: Result<MP.Changes, Error>)
      requires Valid()
      modifies this
      ensures State() == MP.MovePiece(old(State()), s, e).board
      ensures r == MP.MovePiece(old(State()), s, e).result
    {
      if !IsValidPosition(s) {
        return Err(InvalidPosition(s));
      }
      if !IsValidPosition(e) {
        return Err(InvalidPosition(e));
      }
      var start := GetItem(s);
      if start.Err? {
        return Err(start.error);
      }
      if start.value.None? {
        return Err(EmptyPosition(s));
      }
      var mover := start.value.value;
      var disp := DirectionAndOffset(s, e, mover.color).value;
      var changes := map[s := None][e := Some(mover)];
      var enPassant := MP.EnPassantAfter(s, e, mover).value;
      var branch := KindStep(s, mover, disp, changes);
      if branch.Err? {
        return Err(branch.error);
      }
      epTarget := enPassant.0;
      epPawn := enPassant.1;
      r := FinishStep(s, e, branch.value.0, branch.value.1);
    }

    /** The branch of `move_piece` on the mover's kind; the other kinds change nothing. */
    method KindStep(s: string, mover: Piece, disp: Displacement, changes: MP.Changes) returns (r: Result<(Piece, MP.Changes), Error>)
      requires Valid() && IsSquare(s) && pieces[s] == Some(mover)
      modifies this
      ensures State() == MP.KindPhase(old(State()), s, mover, disp, changes).board
      ensures r == MP.KindPhase(old(State()), s, mover, disp, changes).result
    {
      match mover.kind
      case Pawn => r := PawnStep(s, mover, disp.direction, changes);
      case King => r := KingStep(s, mover, disp, changes);
      case Rook => r := RookStep(s, mover, changes);
      case _ => r := Ok((mover, changes));
    }

    /**
     * The pawn branch: a forward reach above 1 drops to 1 on the board's own piece, and an
     * en-passant capture removes the recorded pawn and reports its square as emptied.
     */
    method PawnStep(s: string, mover: Piece, d: Option<Direction>, changes: MP.Changes) returns (r: Result<(Piece, MP.Changes), Error>)
      requires Valid() && IsSquare(s) && pieces[s] == Some(mover) && mover.kind == Pawn
      modifies this
      ensures State() == MP.PawnPhase(old(State()), s, mover, d, changes).board
      ensures r == MP.PawnPhase(old(State()), s, mover, d, changes).result
    {
      if Forward !in mover.moves {
        return Err(KeyError);
      }
      var lowered := mover;
      if NumericValue(mover.moves[Forward]) > 1 {
        lowered := mover.(moves := mover.moves[Forward := Steps(1)]);
      }
      var pawnSquare := epPawn;
      pieces := pieces[s := Some(lowered)];
      var enPassant := CanEnPassant(s, d);
      if enPassant.Err? {
        return Err(enPassant.error);
      }
      if !enPassant.value {
        return Ok((lowered, changes));
      }
      if pawnSquare.None? {
        return Err(AttributeError);
      }
      var taken := RemovePiece(pawnSquare.value);
      if taken.Err? {
        return Err(taken.error);
      }
      return Ok((lowered, changes[pawnSquare.value := None]));
    }

    /**
     * The king branch: a two-column move that may castle brings the rook over, and the king
     * loses its two-square reach to both sides in any case.
     */
    method KingStep(s: string, mover: Piece, disp: Displacement, changes: MP.Changes) returns (r: Result<(Piece, MP.Changes), Error>)
      requires Valid() && IsSquare(s) && pieces[s] == Some(mover) && mover.kind == King
      modifies this
      ensures State() == MP.KingPhase(old(State()), s, mover, disp, changes).board
      ensures r == MP.KingPhase(old(State()), s, mover, disp, changes).result
    {
      var castled := changes;
      if Abs(disp.offset.0) == 2 {
        var rook := CastleStep(s, mover.color, disp.direction, changes);
        if rook.Err? {
          return Err(rook.error);
        }
        castled := rook.value;
      }
      return Ok((mover.(moves := mover.moves[Left := Steps(1)][Right := Steps(1)]), castled));
    }

    /**
     * Castling's rook move: when `can_castle` allows it, the piece on the rook's home corner
     * is set on the square the king passes over and the corner is emptied.
     */
    method CastleStep(s: string, c: Color, d: Option<Direction>, changes: MP.Changes) returns (r: Result<MP.Changes, Error>)
      requires Valid() && IsSquare(s)
      modifies this
      ensures State() == MP.CastleRook(old(State()), s, c, d, changes).board
      ensures r == MP.CastleRook(old(State()), s, c, d, changes).result
    {
      var castle := CanCastle(c, d);
      if castle.Err? {
        return Err(castle.error);
      }
      if !castle.value {
        return Ok(changes);
      }
      var newRook := ShiftedByOffset(s, d.value, 1, c);
      if newRook.Err? {
        return Err(newRook.error);
      }
      var home := RookHome(c, d.value);
      var rookPiece := GetItem(home);
      var placed := SetItem(newRook.value, rookPiece.value);
      if placed.Err? {
        return Err(placed.error);
      }
      var cleared := RemovePiece(home);
      return Ok(changes[newRook.value := pieces[newRook.value]][home := None]);
    }

    /**
     * The rook branch: a rook leaving the a- or h-file (from its own side) lowers the reach
     * of its king toward that side to 1.
     */
    method RookStep(s: string, mover: Piece, changes: MP.Changes) returns (r: Result<(Piece, MP.Changes), Error>)
      requires Valid() && IsSquare(s) && pieces[s] == Some(mover) && mover.kind == Rook
      modifies this
      ensures State() == MP.RookPhase(old(State()), s, mover, changes).board
      ensures r == MP.RookPhase(old(State()), s, mover, changes).result
    {
      var kp := if mover.color == White then whiteKing else blackKing;
      var column := ColumnRow(s, mover.color).0;
      var side := if column == 0 then Some(Left) else if column == 7 then Some(Right) else None;
      if kp.None? || side.None? {
        return Ok((mover, changes));
      }
      var king := pieces[kp.value];
      if king.None? {
        return Err(AttributeError);
      }
      if side.value !in king.value.moves {
        return Err(KeyError);
      }
      if NumericValue(king.value.moves[side.value]) <= 1 {
        return Ok((mover, changes));
      }
      var lowered := king.value.(moves := king.value.moves[side.value := Steps(1)]);
      pieces := pieces[kp.value := Some(lowered)];
      return Ok((if kp.value == s then lowered else mover, changes));
    }

    /** The end of `move_piece`: both squares emptied, then the moved piece set on e. */
    method FinishStep(s: string, e: string, moved: Piece, changes: MP.Changes) returns (r: Result<MP.Changes, Error>)
      requires Valid() && IsSquare(s)
      modifies this
      ensures State() == MP.FinishMove(old(State()), s, e, moved, changes).board
      ensures r == MP.FinishMove(old(State()), s, e, moved, changes).result
    {
      var cleared := RemovePiece(s);
      var emptied := RemovePiece(e);
      if emptied.Err? {
        return Err(emptied.error);
      }
      var placed := SetItem(e, Some(moved));
      return Ok(changes);
    }
}
}
