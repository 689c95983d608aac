# Chess rules engine — a Dafny model

This project models the rules core of a small Python chess application: the board
(`src/board/chess_board.py`), the FEN codec (`src/board/fen.py`), the position helpers
(`src/utils/chess_helper.py`) and the piece classes (`src/piece/*.py`, `piece/rook.py`,
`piece/queen.py`).

The board is a dictionary from the 64 squares (`a1` … `h8`) to pieces. Each colour numbers the
squares from its own bottom-left corner (White: a1 = 0 … h8 = 63; Black: h8 = 0 … a1 = 63).
Moves follow the table `PIECE_SHIFTING` (forward = +8, right = +1, the diagonals ±7/±9, the
knight offsets). Every piece carries a reach table: for each direction, how many squares it may
travel (`-1` means any number). The board answers these questions:

- is a colour in check, checkmate or stalemate;
- which squares a piece may move to (with a "ghost" overlay that tests the position after the move);
- may a king castle (FIDE Laws of Chess, Article 3.8.2);
- may a pawn take en passant (FIDE Laws of Chess, Article 3.7.4).

`move_piece` carries out a move, including the rook of a castle and the pawn taken en passant.
It reports every square it changed.

The FEN codec reads and writes the first four fields of Forsyth-Edwards Notation, as the PGN
standard defines them in section 16.1.3:

- piece placement;
- active colour;
- castling availability;
- en-passant target square.

How the project is organised:

- Python exceptions are modelled as `Result` values (`Exceptions.Error`).
- The board itself is the class `Engine.ChessBoard`. Its methods change its fields in place.
- Each method is proved equal to a specification function on the value `BoardState`. That
  function's behaviour is stated in lemmas in `Board`, `SpecialMoves`, `Moves` and `MovePiece`.
- Loops in the source stay loops here, for example:
  - the scan in `_get_nearest_piece_in_direction`;
  - the ray and knight loops in `is_check`;
  - the reach-table loop of `get_legal_moves`;
  - the square loop of `is_stalemate`;
  - the placement and castling loops of `__init__`;
  - the loops of `_parse_board`, `_parse_castle` and `generate_fen`.

Files:

| file | contents |
|---|---|
| `wrappers.dfy` | `Option`, `Result`, and the exceptions the core raises |
| `chess_helper.dfy` | `to_string` (with a UTF-8 decoder), `is_valid_position`, `validate_position` |
| `pieces.dfy` | colours, kinds, directions, reach tables, `Piece.__eq__`, the mutable `PieceObject` |
| `coordinates.dfy` | indices, `position_to_row_and_column`, ray and knight projection, square counts, shifts, `_direction_and_position_offset` |
| `board_state.dfy` | the board value, its invariant, the nearest-piece scan, `is_check` |
| `special_moves.dfy` | `can_en_passant`, `can_castle` |
| `moves.dfy` | `is_position_occupied`, `get_legal_moves`, `is_checkmate`, `is_stalemate` |
| `move_piece.dfy` | `__getitem__`, `__setitem__`, `_remove_piece`, `move_piece` |
| `fen.dfy` | the FEN format check, field splitting, `_parse_board`, `_parse_castle`, `Fen.__init__`, `generate_fen` |
| `fen_format.dfy` | what the format pattern of `Fen.__init__` accepts, what an accepted line reads as, and whole generated lines read back |
| `chess_board.dfy` | `ChessBoard.__init__` and the class `ChessBoard` with every method as imperative code |

## Model

| member | source | states |
|---|---|---|
| ChessHelper.ToString | src/utils/chess_helper.py:10-19 | a `str` comes back unchanged; bytes are converted exactly when they are well-formed UTF-8, the result is the text they decode to, and ill-formed bytes raise UnicodeDecodeError; an object without `decode` raises AttributeError |
| ChessHelper.Utf8RoundTrip | src/utils/chess_helper.py:17-19 | decoding the UTF-8 encoding of any string gives the string back |
| ChessHelper.EncodeScalarWellFormed | src/utils/chess_helper.py:19 | every Unicode scalar value encodes to one well-formed sequence that decodes to it |
| ChessHelper.IsValidPosition | src/utils/chess_helper.py:22-34 | every square a1-h8 is accepted; what is accepted is a file a-h and a rank 0-8, with at most one trailing newline (`$` under `re.match`) |
| ChessHelper.ValidatePosition | src/utils/chess_helper.py:37-50 | succeeds exactly for the texts `is_valid_position` accepts; any other text raises InvalidPositionError carrying that text |
| ChessHelper.BytesValidateLikeText | src/utils/chess_helper.py:47-50 | a position given as UTF-8 bytes is judged exactly like the same position given as text |
| Pieces.Letter | src/piece/pawn.py:22 | the letter a piece prints is one character |
| Pieces.LetterDetermines | src/piece/king.py:27 | the letter tells kind and colour apart: equal letters mean the same kind and colour |
| Pieces.ReachOrder | src/piece/piece.py:37-39 | iterating the reach table visits exactly the directions that are keys of the table, each once, in the order the subclass constructor inserted them |
| Pieces.FreshPiecesEqual | src/piece/piece.py:44-48 | two new pieces compare equal exactly when they have the same kind and colour |
| Pieces.LoweredReachDiffers | src/piece/piece.py:44-48 | a pawn whose forward reach dropped to 1, or a king whose castling reach did, no longer equals a new piece of its kind |
| Pieces.PieceObject.constructor | src/piece/piece.py:6-11 | a base piece: not captured, empty letter, empty reach table |
| Pieces.PieceObject.Of | src/piece/king.py:17-27 | a subclass piece: its kind, colour, letter and the reach table its constructor fills in |
| Pieces.PieceObject.SetType | src/piece/piece.py:17-19 | the type setter changes the type and nothing else |
| Pieces.PieceObject.SetColor | src/piece/piece.py:25-27 | the colour setter changes the colour and nothing else |
| Pieces.PieceObject.SetCapture | src/piece/piece.py:33-35 | the capture setter changes the capture flag and nothing else |
| Coordinates.ColumnRow | src/board/chess_board.py:495-518 | a two-character valid position is on the board exactly when it is a square; for Black, column and row are mirrored |
| Coordinates.PositionToRowAndColumn | src/board/chess_board.py:495-518 | succeeds exactly for valid positions |
| Coordinates.PositionToIndex | src/board/chess_board.py:627-640 | succeeds exactly for squares; InvalidPositionError for text that fails validation |
| Coordinates.IndexToPosition | src/board/chess_board.py:642-660 | fails exactly outside 0..63, with InvalidIndexError carrying the index |
| Coordinates.IndexRoundTrip | src/board/chess_board.py:57-61 | square → index → square is the identity for both colours, and Black's index is 63 minus White's |
| Coordinates.PositionRoundTrip | src/board/chess_board.py:642-660 | index → square → index is the identity on 0..63 |
| Coordinates.DirectionSquareCount | src/board/chess_board.py:564-605 | the number of squares to the edge lies in 0..7 |
| Coordinates.RayReachesEdge | src/board/chess_board.py:564-605 | that many steps stay on the board, and one more step leaves it |
| Coordinates.PossiblePositions | src/board/chess_board.py:520-562 | the loop returns the ray squares nearest first, or the knight squares in offset order |
| Coordinates.RayPositions | src/board/chess_board.py:556-560 | the ray loop lists as many squares as lie before the edge, each one shift further on |
| Coordinates.KnightPositions | src/board/chess_board.py:542-555 | the L_SHAPE loop keeps each offset that lands on the board without wrapping |
| Coordinates.KnightHop | src/board/chess_board.py:546-555 | one L_SHAPE round: the landing square is kept when its index is on the board, on another row and at most two columns away |
| Coordinates.RayNext | src/board/chess_board.py:557-560 | one ray round: the next index and the square it names |
| Coordinates.RayProjection | src/board/chess_board.py:556-560 | the k-th projected square is k + 1 shifts from the start, on the ray, and never wraps around an edge |
| Coordinates.PossibleSquares | src/board/chess_board.py:520-562 | every projected position is a square |
| Coordinates.KnightSquares | src/board/chess_board.py:542-555 | the L_SHAPE projection lists exactly the squares a knight's jump away (one file and two ranks, or two files and one rank) |
| Coordinates.KnightFromCorner | src/board/chess_board.py:542-555 | from a1 the knight reaches c2 and b3, in that order |
| Coordinates.ShiftedByOffset | src/board/chess_board.py:607-625 | InvalidPositionError or KeyError for a start that is not a square; a result is always a square |
| Coordinates.ShiftedAlongRay | src/board/chess_board.py:607-625 | one shift along a ray that has a square gives that ray's first square |
| Coordinates.DirectionAndOffset | src/board/chess_board.py:754-801 | succeeds exactly when both positions are valid |
| Coordinates.DirectionOfRaySquare | src/board/chess_board.py:754-801 | the k-th square along direction d is seen in direction d, k unit steps away |
| Coordinates.NoDirectionToItself | src/board/chess_board.py:754-801 | a square seen from itself has no direction and offset (0, 0) |
| Board.WithKing | src/board/chess_board.py:74-76 | recording a king's square changes that colour's record only |
| Board.DictOrderIsBoard | src/board/chess_board.py:48-51 | the dictionary order lists the 64 squares, each once |
| Board.EmptyBoard | src/board/chess_board.py:45-52 | `ChessBoard()` is a valid board with every square empty, no kings and no en-passant record |
| Board.NearestIsFirstSeen | src/board/chess_board.py:678-725 | the scan reports the first square the overlay shows occupied, with its distance and what stands there; it reports nothing exactly when every square is empty |
| Board.Nearest | src/board/chess_board.py:678-725 | succeeds exactly for a square; InvalidPositionError or KeyError otherwise |
| Board.RayAttackWitness | src/board/chess_board.py:139-150 | the ray part of `is_check` holds exactly when the sighting in some direction attacks |
| Board.KnightAttackWitness | src/board/chess_board.py:153-158 | the knight part holds exactly when an enemy knight stands on one of the knight squares |
| Board.IsCheck | src/board/chess_board.py:104-160 | a given position that fails validation raises InvalidPositionError, and a valid one that is not a square raises KeyError once a king is recorded; without a king the answer is "not in check"; otherwise it is whether the king's square (or the given square) is attacked |
| SpecialMoves.CanEnPassant | src/board/chess_board.py:344-367 | a true answer needs a forward diagonal, a pawn on the square and a recorded target; KeyError for a non-square |
| SpecialMoves.EnPassantOntoTarget | src/board/chess_board.py:344-367 | a pawn may take en passant along a forward diagonal exactly when the first square that way is the recorded target |
| SpecialMoves.CanCastle | src/board/chess_board.py:307-342 | only LEFT and RIGHT can give true; AttributeError without a recorded king |
| SpecialMoves.CrossingUnattacked | src/board/chess_board.py:336-342 | a result means both squares the king crosses have valid indices |
| SpecialMoves.CastlingConditions | src/board/chess_board.py:307-342 | castling is allowed exactly when the first piece along d is a rook at the expected distance, the king's reach that way is still 2, and neither the king's square nor the two squares it crosses is attacked |
| SpecialMoves.CastleRefused | src/board/chess_board.py:322-334 | any failed rook, reach, check or distance test refuses castling |
| SpecialMoves.CastleChecked | src/board/chess_board.py:322-342 | once those tests pass, the answer is the crossing test on the first two ray squares |
| SpecialMoves.CrossingSquares | src/board/chess_board.py:336-342 | the two indices the crossing test computes name the first two ray squares |
| SpecialMoves.NearestIsFirstPiece | src/board/chess_board.py:678-725 | with no overlay, the scan finds exactly the first occupied square |
| Moves.IsOccupied | src/board/chess_board.py:91-102 | succeeds exactly for squares, and then says whether a piece stands there |
| Moves.RayLimit | src/board/chess_board.py:410-412 | reach -1 keeps every projected square; a reach n >= 0 keeps the first n; a reach below -1 drops that many from the end, as a negative slice bound does |
| Moves.KingTurn | src/board/chess_board.py:427-448 | on a square where it would not be in check, a king's pass adds the square exactly when it is two squares away and castling that way is allowed, or it is not two squares away and holds no piece of its own side; the loop then stops exactly when it took an enemy |
| Moves.PawnTurn | src/board/chess_board.py:449-464 | on a square where it would not be in check: straight ahead the square is added exactly when it is empty, and the loop stops exactly when it is occupied; on a forward diagonal the square is added exactly when it is the first square and holds an enemy, or en passant is allowed, and the loop stops after the capture or when en passant is refused; an error of the en-passant test is passed on |
| Moves.LegalMoves | src/board/chess_board.py:369-474 | InvalidPositionError for an invalid position, no moves for an empty square |
| Moves.LegalMovesAreSafe | src/board/chess_board.py:369-474 | every returned square lies along one of the piece's directions, and after moving there the mover's side is not in check: tested at the destination for a king on a ray direction, and at the recorded king square on L_SHAPE and for every other piece |
| Moves.PinnedPieceHasNoMoves | src/board/chess_board.py:369-474 | when every projected square fails the check test, there are no legal moves |
| Moves.SliderStopsAtFirstPiece | src/board/chess_board.py:465-472 | a sliding piece moves along the ray up to the first piece and takes it exactly when it is an enemy |
| Moves.KingStep | src/board/chess_board.py:427-448 | off the castling squares and without castling, a king's step is a move exactly when the square holds no piece of its own side |
| Moves.PawnForwardIsBlocked | src/board/chess_board.py:449-464 | a pawn's straight ray offers exactly the empty squares before the first piece: it never captures forward |
| Moves.PawnDiagonal | src/board/chess_board.py:449-464 | a pawn's diagonal step is a move exactly when it holds an enemy or is the en-passant target |
| Moves.PawnDiagonalVisits | src/board/chess_board.py:410-412 | with reach 1 the diagonal loop visits exactly the first diagonal square |
| Moves.CheckmateCharacterized | src/board/chess_board.py:169-191 | checkmate holds exactly when the colour has a king, the king is attacked, and the king has no legal move |
| Moves.StalemateCharacterized | src/board/chess_board.py:193-212 | stalemate holds exactly when the colour is not in check and none of its pieces has a legal move |
| MovePiece.GetItem | src/board/chess_board.py:830-839 | succeeds exactly for squares; KeyError otherwise |
| MovePiece.SetItem | src/board/chess_board.py:841-855 | stores the piece on a square, records a king's square, and changes nothing else; validation errors change nothing; storing None fails on `None.type` |
| MovePiece.RemovePiece | src/board/chess_board.py:662-676 | empties exactly that square; errors leave the board unchanged |
| MovePiece.SetThenGet | src/board/chess_board.py:830-855 | what is stored is read back, and other squares read as before |
| MovePiece.RemoveThenGet | src/board/chess_board.py:662-676 | a removed square reads as empty, and other squares read as before |
| MovePiece.EnPassantAfter | src/board/chess_board.py:248-255 | after a two-row pawn advance the record is the square passed over and the end square; after any other move it is cleared |
| MovePiece.MoveRejected | src/board/chess_board.py:227-232 | invalid positions and an empty start raise before anything changes |
| MovePiece.PlainMove | src/board/chess_board.py:214-305 | a knight, bishop or queen moves from start to end; the result reports exactly those two squares |
| MovePiece.KingMove | src/board/chess_board.py:267-285 | a king move that is not two columns wide records the king's square and lowers its LEFT and RIGHT reach to 1 |
| MovePiece.PawnMove | src/board/chess_board.py:258-265 | a pawn move that is not en passant moves the pawn (forward reach lowered to 1) and reports two squares |
| MovePiece.EnPassantCapture | src/board/chess_board.py:258-265 | an en-passant capture also empties the square of the pawn that advanced two rows |
| MovePiece.EnPassantCaptureReportsThree | src/board/chess_board.py:263-265 | that capture reports three squares |
| MovePiece.CastleRookMoves | src/board/chess_board.py:268-278 | castling moves the rook from its corner to the square the king crosses, and reports both squares |
| MovePiece.CastleMove | src/board/chess_board.py:267-285 | a castle moves both king and rook, clears the en-passant record and reports four squares |
| MovePiece.CastleReportsFour | src/board/chess_board.py:268-278 | from e1/e8 the four squares a castle reports are distinct |
| MovePiece.RookMoveQuiet | src/board/chess_board.py:286-298 | a rook that is not on its a- or h-file moves like any other piece |
| MovePiece.RookLeavesCorner | src/board/chess_board.py:286-298 | a rook leaving its a- or h-file lowers the king's reach towards that side to 1 |
| MovePiece.RookCornerFails | src/board/chess_board.py:295-298 | an empty king square gives AttributeError, a missing reach key gives KeyError |
| MovePiece.MoveFrame | src/board/chess_board.py:214-305 | a successful move changes only the squares it reports, apart from a recorded king square |
| Fen.ParseBoard | src/board/fen.py:141-168 | the nested loops over ranks and characters compute the specification of the placement field |
| Fen.ParseCastle | src/board/fen.py:116-139 | `-` grants nothing; otherwise every letter of the colour's case, in string order |
| Fen.CastleSides | src/board/fen.py:116-139 | only LEFT and RIGHT are ever granted |
| Fen.NewFen | src/board/fen.py:32-52 | the constructor: the empty string means the default; text the format pattern rejects raises FenIncorrectFormatError; then the fields are read |
| Fen.BoardRoundTrip | src/board/fen.py:141-168 | the corrected placement writer and `_parse_board` are inverse on complete boards |
| Fen.CastleRoundTrip | src/board/fen.py:101-139 | the castling field written by `generate_fen` parses back to both colours' sides |
| Fen.CastleTextParses | src/board/fen.py:101-110 | a colour's letters read back as its sides, and as nothing for the other colour |
| Fen.SplitJoin | src/board/fen.py:141-168 | splitting the joined ranks at `/` gives the ranks back |
| Fen.BoardSections | src/board/fen.py:82-95 | the square loop of `generate_fen` computes the specification walk |
| Fen.CastleLetters | src/board/fen.py:101-110 | the castling loop writes the letters of each side, in order |
| Fen.GenerateFen | src/board/fen.py:75-114 | the four fields joined by spaces, castling `-` when nobody may castle |
| Fen.GenerateAsWalk | src/board/fen.py:82-95 | the loop as written equals a rank-by-rank walk that carries the pending empty count |
| Fen.AsWrittenAgrees | src/board/fen.py:75-114 | when every rank ends in a piece or is empty, the generator as written equals the corrected one |
| Fen.CarriedCount | src/board/fen.py:82-95 | a black pawn on a8 and a white pawn on a7 are written `p/7P/...`, which reads back with the white pawn on h7 |
| FenFormat.FormatCheck | src/board/fen.py:42-44 | for eight ranks and three fields separated by single spaces, the format pattern matches exactly when the ranks have the pattern's form (no pawn on the first or last), the colour is `w` or `b`, the castling field is `-` or an in-order subset of `KQkq`, and the en-passant field starts with `-` or with a file and rank 3 or 6 |
| FenFormat.BoardJoin | src/board/fen.py:42 | the placement groups of the pattern end at the space after the eighth rank exactly when the ranks have the pattern's form |
| FenFormat.GreedyLetters | src/board/fen.py:42 | the greedy `K?Q?k?q?` group consumes the whole castling text exactly when its letters come in that order |
| FenFormat.ParseWellFormed | src/board/fen.py:38-52 | `Fen(line)` raises FenIncorrectFormatError exactly when the pattern rejects the line; otherwise it reads the ranks, `w` as White, the castling field for both colours, and `-` as no en-passant square |
| FenFormat.EmptyCastling | src/board/fen.py:42-52 | an empty castling field passes the pattern, but the line then splits into three fields and reading the fourth raises IndexError |
| FenFormat.RowsNeverMisformat | src/board/fen.py:154-168 | reading the placement fails, if at all, with IndexError |
| FenFormat.RowsFit | src/board/fen.py:154-168 | ranks that are `8` or at most eight piece letters are read without error, one placement per letter |
| FenFormat.DefaultLine | src/board/fen.py:38-39 | the default line is the starting ranks followed by `w KQkq -` |
| FenFormat.StartLine | src/board/fen.py:38-52 | over the starting ranks, a line is rejected by the pattern or read field by field into the 32 starting pieces |
| FenFormat.DefaultPosition | src/board/fen.py:38-52 | `Fen()` reads the starting position, White to move, both colours castling RIGHT then LEFT, no en-passant square |
| FenFormat.EmptyBoardLine | src/board/fen.py:38-52 | `8/8/8/8/8/8/8/8 w - -` reads as no pieces, White to move, no castling and no en-passant square |
| FenFormat.CastleCases | src/board/fen.py:116-139 | each colour reads the letters of its own case from the castling texts of the tests, in the order written |
| FenFormat.RejectedPassant | src/board/fen.py:42-44 | an en-passant square on rank 5 is rejected by the pattern |
| FenFormat.RejectedColour | src/board/fen.py:42-44 | the active colour `y` is rejected by the pattern |
| FenFormat.RejectedCastle | src/board/fen.py:42-44 | the castling text `KQw` is rejected by the pattern |
| FenFormat.RejectedNine | src/board/fen.py:42-44 | a `9` in the placement is rejected by the pattern |
| FenFormat.RankWritten | src/board/fen.py:82-95 | each rank written for a board with standard letters and no pawn on rank 8 or 1 is non-empty and made of the pattern's rank characters |
| FenFormat.GeneratedRanks | src/board/fen.py:82-97 | the eight written ranks have the pattern's form, and `_parse_board` reads them back as the board's pieces |
| FenFormat.CastleWritten | src/board/fen.py:101-139 | the castling field written for sides the pattern can spell is of the pattern's form and reads back as both colours' sides |
| FenFormat.PassantWritten | src/board/fen.py:112 | the en-passant field written for no square, or a square on rank 3 or 6, is of the pattern's form |
| FenFormat.GeneratedLineParses | src/board/fen.py:32-114 | for a complete board with standard letters and no pawn on rank 8 or 1, castling sides the pattern can spell and an en-passant square on rank 3 or 6 (or none), `Fen` reads the whole line the corrected generator writes back as the board's pieces, the player, both colours' sides and the en-passant square |
| FenFormat.AsWrittenLineParses | src/board/fen.py:32-114 | the same for `generate_fen` as written, on boards whose every rank ends in a piece on the h-file or is empty |
| Engine.ParsedOnSquares | src/board/fen.py:141-168 | a parsed FEN places pieces on squares only |
| Engine.EnPassantRecord | src/board/chess_board.py:63-69 | no target means no record; otherwise the target and the square behind it |
| Engine.EnPassantPawnBehind | src/board/chess_board.py:63-69 | the pawn square lies in the target's column, one row nearer the side to move; a target on that side's first row fails |
| Engine.PlacedSquare | src/board/chess_board.py:71-72 | after the placement loop a square holds the last piece placed on it |
| Engine.UntouchedSquare | src/board/chess_board.py:71-72 | a square nothing was placed on is unchanged |
| Engine.PlacedKing | src/board/chess_board.py:74-76 | a colour's king square is where its last king was placed |
| Engine.KeptKing | src/board/chess_board.py:74-76 | without a king of that colour its record is kept |
| Engine.LowerReach | src/board/chess_board.py:81-83 | lowering a reach succeeds exactly on an occupied square and changes only the pieces |
| Engine.CastleRightsEffect | src/board/chess_board.py:79-83 | the castling loop sets LEFT and RIGHT to 1 when missing from the castling list, keeps every other entry, and changes no other square |
| Engine.InitialStateAsWritten | src/board/chess_board.py:34-89 | the constructor as written builds a valid board when it succeeds |
| Engine.InitialState | src/board/chess_board.py:34-89 | the constructor with the corrected black guard builds a valid board when it succeeds |
| Engine.ConstructionsAgree | src/board/chess_board.py:85-89 | whenever the FEN places a black king, the two constructions agree |
| Engine.GuardsAgree | src/board/chess_board.py:85-89 | with a recorded black king the two black guards behave the same |
| Engine.LoneKingConstruction | src/board/chess_board.py:85-89 | a FEN with only a white king on e1 gives KeyError as written; corrected, it builds the board with the king's castling reach lowered |
| Engine.ChessBoard.constructor | src/board/chess_board.py:42-61 | a new board is the empty board |
| Engine.ChessBoard.FromFen | src/board/chess_board.py:34-89 | construction from a FEN record succeeds exactly when the corrected construction does, and builds that board |
| Engine.ChessBoard.RecordEnPassant | src/board/chess_board.py:63-69 | sets the en-passant fields as EnPassantRecord says |
| Engine.ChessBoard.PlacePieces | src/board/chess_board.py:71-76 | the placement loop gives the board PlaceAll describes |
| Engine.ChessBoard.KeepCastleRights | src/board/chess_board.py:79-83 | the castling loop gives the board CastleRights describes |
| Engine.ChessBoard.LowerCastleRights | src/board/chess_board.py:78-89 | both colours' castling loops, with the corrected black guard |
| Engine.ChessBoard.GetItem | src/board/chess_board.py:830-839 | `__getitem__` on the board's fields |
| Engine.ChessBoard.SetItem | src/board/chess_board.py:841-855 | `__setitem__` updates the fields as SetItem says, keeping the board invariant |
| Engine.ChessBoard.RemovePiece | src/board/chess_board.py:662-676 | `_remove_piece` updates the fields as RemovePiece says |
| Engine.ChessBoard.GetBoardPieces | src/board/chess_board.py:476-484 | a copy with exactly the 64 squares and what stands on each |
| Engine.ChessBoard.GetEnPassantPosition | src/board/chess_board.py:162-167 | the recorded target, which is a square when present |
| Engine.ChessBoard.IsPositionOccupied | src/board/chess_board.py:91-102 | agrees with IsOccupied |
| Engine.ChessBoard.NearestPiece | src/board/chess_board.py:678-725 | the scan loop computes Nearest |
| Engine.ChessBoard.IsCheck | src/board/chess_board.py:104-160 | the two loops compute IsCheck |
| Engine.ChessBoard.RaysAttack | src/board/chess_board.py:139-150 | the ray loop, stopping at the first attacking direction, computes the ray part of the test |
| Engine.ChessBoard.RayHit | src/board/chess_board.py:141-150 | one direction of the ray loop |
| Engine.ChessBoard.KnightsAttack | src/board/chess_board.py:153-158 | the knight loop computes the knight part of the test |
| Engine.ChessBoard.CanEnPassant | src/board/chess_board.py:344-367 | agrees with CanEnPassant |
| Engine.ChessBoard.CanCastle | src/board/chess_board.py:307-342 | agrees with CanCastle |
| Engine.ChessBoard.CastleChecks | src/board/chess_board.py:322-342 | the rook, reach, check and crossing tests |
| Engine.ChessBoard.CrossingSafe | src/board/chess_board.py:336-342 | the crossing test |
| Engine.ChessBoard.GhostTest | src/board/chess_board.py:398-432 | the check test with the mover lifted onto the square: at the square itself for a king on a ray direction, at the recorded king square otherwise |
| Engine.ChessBoard.KnightMoves | src/board/chess_board.py:391-406 | the L_SHAPE loop of `get_legal_moves`, which tests check at the recorded king square whatever the piece's type |
| Engine.ChessBoard.RayMoves | src/board/chess_board.py:410-472 | the loop over one cut ray |
| Engine.ChessBoard.RayStep | src/board/chess_board.py:414-472 | one pass of that loop |
| Engine.ChessBoard.KingRayStep | src/board/chess_board.py:427-448 | the king's pass |
| Engine.ChessBoard.PawnRayStep | src/board/chess_board.py:449-464 | the pawn's pass |
| Engine.ChessBoard.LegalMoves | src/board/chess_board.py:369-474 | the loop over the reach table computes LegalMoves |
| Engine.ChessBoard.DirectionMoves | src/board/chess_board.py:388-472 | the body for one direction |
| Engine.ChessBoard.IsCheckmate | src/board/chess_board.py:169-191 | agrees with IsCheckmate |
| Engine.ChessBoard.IsStalemate | src/board/chess_board.py:193-212 | the loop over the squares in dictionary order computes IsStalemate |
| Engine.ChessBoard.MovePiece | src/board/chess_board.py:214-305 | `move_piece` updates the fields and reports the changes as MovePiece says |
| Engine.ChessBoard.KindStep | src/board/chess_board.py:258-298 | the branch on the mover's kind |
| Engine.ChessBoard.PawnStep | src/board/chess_board.py:258-265 | the pawn branch |
| Engine.ChessBoard.KingStep | src/board/chess_board.py:267-285 | the king branch |
| Engine.ChessBoard.CastleStep | src/board/chess_board.py:268-278 | the rook move of a castle |
| Engine.ChessBoard.RookStep | src/board/chess_board.py:286-298 | the rook branch |
| Engine.ChessBoard.FinishStep | src/board/chess_board.py:300-305 | the last steps of `move_piece` |

## Left out

- The web application, the database models, the forms, the game and score classes and the JavaScript front end. They sit outside the rules core.
- Pawn promotion: the source does not implement it.
- `ChessBoard.__str__` (a text drawing of the board) and `_on_same_row`, which nothing calls.
- `get_dimension` is the constant 8.
- The messages carried by exceptions. Errors are compared by kind, and by the offending position or index where the source passes one.
- `to_string` on objects other than `str` and `bytes` that have a `decode` method of their own, such as `bytearray`. The model's third kind of value stands for an object without `decode`, which raises AttributeError.
- `Fen(None)` is treated like `Fen('')`: both fall back to the default string. The model's argument is a string.
- Regular expressions are written out as predicates over the string: the FEN format pattern under `re.match`, the whitespace split, and `^[a-h][0-8]$`. `\s` follows `str.isspace()`.
- `copy.deepcopy` and `copy.copy` are modelled by value semantics. A piece is a value inside the board's dictionary; the class `PieceObject` stands for one live piece object and its setters.
- `Engine.ChessBoard.FromFen` and `Engine.InitialState` require that every placement names a square. Every FEN record that `Fen` builds satisfies this (`Engine.ParsedOnSquares`); a caller of the Python class could hand it any object.
- `Engine.ChessBoard.FromFen` builds the board with the corrected black-king guard (see Findings). `Engine.InitialStateAsWritten` keeps the code as written.
- The `except ValueError` in `get_legal_moves` is not modelled: nothing in the `try` block raises ValueError.
- `MovePiece.SetItem`: a position that passes validation but is not a square (`a0`, or `e4` followed by a newline) is refused with KeyError and leaves the board unchanged. Python would store a new dictionary key. The model keeps the invariant that the board's keys are exactly the 64 squares.
- The test at lines 74-95 of `tests/board/test_fen.py` expects the castling text `KQ` to give `[LEFT, RIGHT]`. `_parse_castle` gives the sides in string order, `[RIGHT, LEFT]`, and the model follows the code.
- `Fen.CastleSides` states only that the sides are LEFT or RIGHT. Their order and contents are pinned down by `Fen.CastleRoundTrip`.
- `Pieces.Letter` states only that the letter is one character. That the letter tells pieces apart is `Pieces.LetterDetermines`.
- `Moves.LegalMoves` and `SpecialMoves.CanCastle` state only the error and trivial cases. Their behaviour is given by `Moves.LegalMovesAreSafe`, `Moves.SliderStopsAtFirstPiece`, `Moves.KingStep`, `Moves.PawnForwardIsBlocked`, `Moves.PawnDiagonal` and `SpecialMoves.CastlingConditions`.

## Findings

| source | as written | input that shows it | evidently intended | confidence | as-written member | corrected member |
|---|---|---|---|---|---|---|
| src/board/fen.py:82-95 | `generate_fen` writes the count of empty squares only in front of a piece, or as `8` at the eighth consecutive empty square, and never at the end of a rank. A run of empty squares at the end of a rank is therefore carried into the next rank, and one at the end of rank 1 is dropped. | a black pawn on a8, a white pawn on a7, everything else empty: rank 8 becomes `p`, rank 7 becomes `7P`. `_parse_board` reads that as the white pawn on h7. | every rank's trailing empty squares are written at the end of that rank (`p7/P7/8/...`), so that parsing gives the board back | high (not executed) | Fen.CarriedCount | Fen.BoardRoundTrip |
| src/board/chess_board.py:85-89 | the black castling loop tests `self[self._king_positions[Color.BLACK]]`. With no black king this is `self[None]`, which raises KeyError; the white loop tests the recorded square itself. | a FEN record whose only piece is a white king on e1 | skip the black loop when no black king was placed, as the white loop does | high (not executed) | Engine.LoneKingConstruction | Engine.ConstructionsAgree |
