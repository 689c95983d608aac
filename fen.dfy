/**
 * The FEN codec (src/board/fen.py): the first four fields of Forsyth-Edwards Notation as the
 * PGN standard defines them in section 16.1.3 (piece placement, active colour, castling
 * availability, en-passant target square), parsed into a record and generated from a board.
 */
module Fen {
  import opened Wrappers
  import opened Exceptions
  import opened Pieces

  /** The ranks of the standard starting position, from rank 8 down to rank 1. */
  function StartRanks(): seq<string>
  {
    ["rnbqkbnr", "pppppppp", "8", "8", "8", "8", "PPPPPPPP", "RNBQKBNR"]
  }

  /** Four fields separated by single spaces. */
  function FenLine(placement: string, colour: string, castle: string, enPassant: string): string
  {
    placement + " " + colour + " " + castle + " " + enPassant
  }

  /**
   * The string `Fen()` and `Fen('')` fall back to, `rnbqkbnr/pppppppp/8/8/8/8/PPPPPPPP/RNBQKBNR
   * w KQkq -`: the standard starting position.
   */
  const DefaultFen: string := FenLine(JoinSlash(StartRanks()), "w", "KQkq", "-")

  /** The parsed board: square and piece, in the order `_parse_board` inserts them. */
  type Placements = seq<(string, Piece)>

  /**
   * A parsed FEN string. The object never changes after construction and its accessors hand
   * out copies, so a value stands for it.
   */
  datatype FenRecord = FenRecord(
    board: Placements,
    currentPlayer: Color,
    whiteCastle: seq<Direction>,
    blackCastle: seq<Direction>,
    enPassant: Option<string>)

  // ---------------------------------------------------------------------------------------
  // The format check
  // ---------------------------------------------------------------------------------------

  /** `\s` of Python's `re` on a `str`: the characters `str.isspace()` accepts. */
  predicate IsSpace(ch: char)
  {
    || ('\t' <= ch <= '\r') || ('\U{1C}' <= ch <= ' ') || ch == '\U{85}' || ch == '\U{A0}'
    || ch == '\U{1680}' || ('\U{2000}' <= ch <= '\U{200A}') || ch == '\U{2028}' || ch == '\U{2029}'
    || ch == '\U{202F}' || ch == '\U{205F}' || ch == '\U{3000}'
  }

  /** The characters of a rank in the pattern: pieces and 1-8, pawns only on the inner ranks. */
  predicate RankChar(ch: char, pawns: bool)
  {
    match ch
    case 'r' | 'n' | 'b' | 'q' | 'k' | 'R' | 'N' | 'B' | 'Q' | 'K' => true
    case '1' | '2' | '3' | '4' | '5' | '6' | '7' | '8' => true
    case 'p' | 'P' => pawns
    case _ => false
  }

  /** Where the run of rank characters starting at i ends. */
  function RunEnd(s: string, i: nat, pawns: bool): (j: nat)
    requires i <= |s|
    ensures i <= j <= |s|
    ensures j < |s| ==> !RankChar(s[j], pawns)
    decreases |s| - i
  {
    if i == |s| || !RankChar(s[i], pawns) then i else RunEnd(s, i + 1, pawns)
  }

  /** Every character the run crosses is a rank character. */
  lemma {:induction false} RunChars(s: string, i: nat, pawns: bool)
    requires i <= |s|
    ensures forall k :: i <= k < RunEnd(s, i, pawns) ==> RankChar(s[k], pawns)
    decreases |s| - i
  {
    if i < |s| && RankChar(s[i], pawns) {
      RunChars(s, i + 1, pawns);
    }
  }

  /**
   * The inner ranks `([rnbqkpRNBQKP1-8]+\/){n}` followed by the last rank `[rnbqkRNBQK1-8]+`,
   * starting at i: where the last rank ends, if they match.
   */
  function RanksEnd(s: string, i: nat, n: nat): (r: Option<nat>)
    requires i <= |s|
    ensures r.Some? ==> i < r.value <= |s|
    decreases n
  {
    if n == 0 then
      var j := RunEnd(s, i, false);
      if j == i then None else Some(j)
    else
      var j := RunEnd(s, i, true);
      if j == i || j == |s| || s[j] != '/' then None else RanksEnd(s, j + 1, n - 1)
  }

  /** The placement field of the pattern: where it ends, if the string starts with one. */
  function BoardEnd(s: string): (r: Option<nat>)
    ensures r.Some? ==> r.value <= |s|
  {
    var j := RunEnd(s, 0, false);
    if j == 0 || j == |s| || s[j] != '/' then None else RanksEnd(s, j + 1, 6)
  }

  /**
   * The optional letters `K?Q?k?q?` from i on: where they end. Each is tried in turn; giving
   * one up never helps, because the next thing the pattern needs is whitespace.
   */
  function OptionalLetters(s: string, i: nat, letters: string): (j: nat)
    requires i <= |s|
    ensures i <= j <= |s|
    decreases letters
  {
    if letters == [] then i
    else if i < |s| && s[i] == letters[0] then OptionalLetters(s, i + 1, letters[1..])
    else OptionalLetters(s, i, letters[1..])
  }

  /** The castling group `(-|K?Q?k?q?)` and the whitespace after it, from i: where they end. */
  function CastleEnd(s: string, i: nat): (r: Option<nat>)
    requires i <= |s|
    ensures r.Some? ==> i < r.value <= |s|
  {
    if i < |s| && s[i] == '-' then
      if i + 1 < |s| && IsSpace(s[i + 1]) then Some(i + 2) else None
    else
      var j := OptionalLetters(s, i, "KQkq");
      if j < |s| && IsSpace(s[j]) then Some(j + 1) else None
  }

  /**
   * `re.match` of the format pattern: eight ranks, whitespace, `b` or `w`, whitespace, the
   * castling group, whitespace and an en-passant field `-` or a square on rank 3 or 6. The
   * match is anchored at the start only: anything may follow.
   */
  predicate MatchesPattern(s: string)
  {
    match BoardEnd(s)
    case None => false
    case Some(j) => RestMatches(s, j)
  }

  /** The part of the pattern after the placement field, which ends at j. */
  predicate RestMatches(s: string, j: nat)
    requires j <= |s|
  {
    && j + 3 <= |s| && IsSpace(s[j]) && (s[j + 1] == 'b' || s[j + 1] == 'w') && IsSpace(s[j + 2])
    && match CastleEnd(s, j + 3)
       case None => false
       case Some(t) => PassantAt(s, t)
  }

  /** The en-passant group `(-|[a-h][36])` at t. */
  predicate PassantAt(s: string, t: nat)
  {
    || (t < |s| && s[t] == '-')
    || (t + 1 < |s| && 'a' <= s[t] <= 'h' && (s[t + 1] == '3' || s[t + 1] == '6'))
  }

  // ---------------------------------------------------------------------------------------
  // Splitting into fields
  // ---------------------------------------------------------------------------------------

  /** Where the word starting at i ends: the next whitespace, or the end. */
  function WordEnd(s: string, i: nat): (j: nat)
    requires i <= |s|
    ensures i <= j <= |s|
    ensures forall k :: i <= k < j ==> !IsSpace(s[k])
    ensures j < |s| ==> IsSpace(s[j])
    decreases |s| - i
  {
    if i == |s| || IsSpace(s[i]) then i else WordEnd(s, i + 1)
  }

  /** Where the whitespace run starting at i ends. */
  function SpaceEnd(s: string, i: nat): (j: nat)
    requires i <= |s|
    ensures i <= j <= |s|
    ensures forall k :: i <= k < j ==> IsSpace(s[k])
    ensures j < |s| ==> !IsSpace(s[j])
    decreases |s| - i
  {
    if i == |s| || !IsSpace(s[i]) then i else SpaceEnd(s, i + 1)
  }

  /** `re.split(r'\s+', s)`: the pieces between runs of whitespace (empty at either end). */
  function Fields(s: string): (fs: seq<string>)
    ensures |fs| >= 1
    decreases |s|
  {
    var w := WordEnd(s, 0);
    if w == |s| then [s] else [s[..w]] + Fields(s[SpaceEnd(s, w)..])
  }

  /** Where the text before the next `/` from i ends. */
  function SlashAt(s: string, i: nat): (j: nat)
    requires i <= |s|
    ensures i <= j <= |s|
    ensures forall k :: i <= k < j ==> s[k] != '/'
    ensures j < |s| ==> s[j] == '/'
    decreases |s| - i
  {
    if i == |s| || s[i] == '/' then i else SlashAt(s, i + 1)
  }

  /** `s.split('/')`. */
  function SplitSlash(s: string): (parts: seq<string>)
    ensures |parts| >= 1
    decreases |s|
  {
    var k := SlashAt(s, 0);
    if k == |s| then [s] else [s[..k]] + SplitSlash(s[k + 1..])
  }

  // ---------------------------------------------------------------------------------------
  // The placement field
  // ---------------------------------------------------------------------------------------

  /** The square in column `col` (a-h) of the `row`-th rank listed, counting from rank 8. */
  function SquareName(col: nat, row: nat): (p: string)
    requires col < 8 && row < 8
    ensures |p| == 2
  {
    [('a' as int + col) as char, ('8' as int - row) as char]
  }

  /** The piece a letter of `[prnbqk]` (either case) creates: upper case is White. */
  function PieceOfLetter(ch: char): Option<Piece>
  {
    match ch
    case 'p' => Some(NewPiece(Pawn, Black))   case 'P' => Some(NewPiece(Pawn, White))
    case 'r' => Some(NewPiece(Rook, Black))   case 'R' => Some(NewPiece(Rook, White))
    case 'n' => Some(NewPiece(Knight, Black)) case 'N' => Some(NewPiece(Knight, White))
    case 'b' => Some(NewPiece(Bishop, Black)) case 'B' => Some(NewPiece(Bishop, White))
    case 'q' => Some(NewPiece(Queen, Black))  case 'Q' => Some(NewPiece(Queen, White))
    case 'k' => Some(NewPiece(King, Black))   case 'K' => Some(NewPiece(King, White))
    case _ => None
  }

  /**
   * The rest of one rank from column `col`: a piece letter is placed and moves one column on
   * (IndexError past column h or past the eighth rank), a digit 1-8 skips that many columns.
   */
  function ParseRow(text: string, row: nat, col: nat, acc: Placements): Result<Placements, Error>
    decreases |text|
  {
    if text == [] then Ok(acc)
    else if PieceOfLetter(text[0]).Some? then
      if col >= 8 || row >= 8 then Err(IndexError)
      else ParseRow(text[1..], row, col + 1, acc + [(SquareName(col, row), PieceOfLetter(text[0]).value)])
    else if '1' <= text[0] <= '8' then ParseRow(text[1..], row, col + (text[0] as int - '0' as int), acc)
    else ParseRow(text[1..], row, col, acc)
  }

  /** The ranks from the `row`-th on. */
  function ParseRows(rows: seq<string>, row: nat, acc: Placements): Result<Placements, Error>
    decreases |rows|
  {
    if rows == [] then Ok(acc)
    else
      var placed :- ParseRow(rows[0], row, 0, acc);
      ParseRows(rows[1..], row + 1, placed)
  }

  /** `_parse_board`. */
  function ParseBoardSpec(field: string): Result<Placements, Error>
  {
    ParseRows(SplitSlash(field), 0, [])
  }

  /** `_parse_board`: ranks 8 to 1, files a to h, one placement per piece letter. */
  method ParseBoard(field: string) returns (r: Result<Placements, Error>)
    ensures r == ParseBoardSpec(field)
  {
    var rows := SplitSlash(field);
    var board: Placements := [];
    var row: nat := 0;
    while row < |rows|
      invariant 0 <= row <= |rows|
      invariant ParseBoardSpec(field) == ParseRows(rows[row..], row, board)
    {
      var text := rows[row];
      var col: nat := 0;
      var i := 0;
      assert rows[row..][1..] == rows[row + 1..];
      while i < |text|
        invariant 0 <= i <= |text|
        invariant ParseBoardSpec(field) == (var placed :- ParseRow(text[i..], row, col, board); ParseRows(rows[row + 1..], row + 1, placed))
      {
        assert text[i..][1..] == text[i + 1..];
        var piece := PieceOfLetter(text[i]);
        if piece.Some? {
          if col >= 8 || row >= 8 {
            return Err(IndexError);
          }
          board := board + [(SquareName(col, row), piece.value)];
          col := col + 1;
        } else if '1' <= text[i] <= '8' {
          col := col + (text[i] as int - '0' as int);
        }
        i := i + 1;
      }
      row := row + 1;
    }
    return Ok(board);
  }

  // ---------------------------------------------------------------------------------------
  // The castling field
  // ---------------------------------------------------------------------------------------

  /** The castling sides a letter grants to a colour: K/k the RIGHT side, Q/q the LEFT side. */
  function CastleSide(ch: char, color: Color): Option<Direction>
  {
    match (color, ch)
    case (White, 'K') => Some(Right)
    case (White, 'Q') => Some(Left)
    case (Black, 'k') => Some(Right)
    case (Black, 'q') => Some(Left)
    case _ => None
  }

  /** The sides the letters of `castle` grant to `color`, in string order. */
  function CastleSides(castle: string, color: Color): (ds: seq<Direction>)
    ensures forall d :: d in ds ==> d == Left || d == Right
  {
    if castle == [] then []
    else
      var first := CastleSide(castle[0], color);
      (if first.Some? then [first.value] else []) + CastleSides(castle[1..], color)
  }

  /** `_parse_castle`. */
  function ParseCastleSpec(castle: string, color: Color): seq<Direction>
  {
    if castle == "-" then [] else CastleSides(castle, color)
  }

  /** `_parse_castle`: `-` grants nothing; otherwise each letter of the colour's case, in order. */
  method ParseCastle(castle: string, color: Color) returns (ds: seq<Direction>)
    ensures ds == ParseCastleSpec(castle, color)
  {
    if castle == "-" {
      return [];
    }
    ds := [];
    var i := 0;
    while i < |castle|
      invariant 0 <= i <= |castle|
      invariant ds + CastleSides(castle[i..], color) == CastleSides(castle, color)
    {
      var side := CastleSide(castle[i], color);
      CastleSidesStep(castle, i, color, ds);
      if side.Some? {
        ds := ds + [side.value];
      }
      i := i + 1;
    }
  }

  /** The sides from the i-th letter on: that letter's side, if any, then the later ones. */
  lemma CastleSidesStep(castle: string, i: int, color: Color, ds: seq<Direction>)
    requires 0 <= i < |castle|
    ensures var side := CastleSide(castle[i], color);
      ds + CastleSides(castle[i..], color) ==
      (if side.Some? then ds + [side.value] else ds) + CastleSides(castle[i + 1..], color)
  {
    var side := CastleSide(castle[i], color);
    assert castle[i..][1..] == castle[i + 1..];
    assert CastleSides(castle[i..], color) == (if side.Some? then [side.value] else []) + CastleSides(castle[i + 1..], color);
    if side.Some? {
      assert ds + ([side.value] + CastleSides(castle[i + 1..], color)) == ds + [side.value] + CastleSides(castle[i + 1..], color);
    }
  }

  // ---------------------------------------------------------------------------------------
  // Fen.__init__
  // ---------------------------------------------------------------------------------------

  /**
   * `Fen(fen)`: an empty string stands for the default; a string the pattern rejects raises
   * FenIncorrectFormatError; otherwise the whitespace-separated fields are read in the order
   * the constructor reads them (board, colour, black and white castling, en passant). An
   * empty castling group passes the pattern but leaves fewer fields, so the reads shift.
   */
  function ParseFen(fen: string): Result<FenRecord, Error>
  {
    var s := if fen == "" then DefaultFen else fen;
    if !MatchesPattern(s) then Err(FenIncorrectFormat)
    else
      var fields := Fields(s);
      var board :- ParseBoardSpec(fields[0]);
      if |fields| < 2 then Err(IndexError)
      else
        var player := if fields[1] == "w" || fields[1] == "W" then White else Black;
        if |fields| < 3 then Err(IndexError)
        else
          var black := ParseCastleSpec(fields[2], Black);
          var white := ParseCastleSpec(fields[2], White);
          if |fields| < 4 then Err(IndexError)
          else Ok(FenRecord(board, player, white, black, if fields[3] == "-" then None else Some(fields[3])))
  }

  /** `Fen.__init__`, running the two parsing loops. */
  method NewFen(fen: string) returns (r: Result<FenRecord, Error>)
    ensures r == ParseFen(fen)
  {
    var s := if fen == "" then DefaultFen else fen;
    if !MatchesPattern(s) {
      return Err(FenIncorrectFormat);
    }
    var fields := Fields(s);
    var board := ParseBoard(fields[0]);
    if board.Err? {
      return Err(board.error);
    }
    if |fields| < 2 {
      return Err(IndexError);
    }
    var player := if fields[1] == "w" || fields[1] == "W" then White else Black;
    if |fields| < 3 {
      return Err(IndexError);
    }
    var black := ParseCastle(fields[2], Black);
    var white := ParseCastle(fields[2], White);
    if |fields| < 4 {
      return Err(IndexError);
    }
    return Ok(FenRecord(board.value, player, white, black, if fields[3] == "-" then None else Some(fields[3])));
  }

  // ---------------------------------------------------------------------------------------
  // generate_fen
  // ---------------------------------------------------------------------------------------

  /** A board as `get_board_pieces()` returns it: every square a key, `None` when empty. */
  type BoardMap = map<string, Option<Piece>>

  /** The k-th square `generate_fen` visits: a8 to h8, then a7 to h7, down to h1. */
  function FenSquare(k: nat): (p: string)
    requires k < 64
    ensures |p| == 2
  {
    SquareName(k % 8, k / 8)
  }

  /** `str(n)` for a count of empty squares. */
  function DigitText(n: nat): (t: string)
    requires 1 <= n <= 8
  {
    [('0' as int + n) as char]
  }

  /** `'/'.join(parts)`. */
  function JoinSlash(parts: seq<string>): string
  {
    if parts == [] then ""
    else if |parts| == 1 then parts[0]
    else parts[0] + "/" + JoinSlash(parts[1..])
  }

  /** Eight empty rank sections. */
  function NoSections(): seq<string>
  {
    ["", "", "", "", "", "", "", ""]
  }

  /**
   * The walk over the squares from the k-th on, as written: a piece appends the pending count
   * (if any) and its letter to its rank's section; an empty square adds one to the count,
   * except that an eighth empty square in a row appends `8` instead. The count is not written
   * out at the end of a rank, so it carries over into the next one.
   */
  function SectionsFrom(board: BoardMap, k: nat, sections: seq<string>, count: nat): Result<seq<string>, Error>
    requires k <= 64 && |sections| == 8 && count <= 7
    decreases 64 - k
  {
    if k == 64 then Ok(sections)
    else
      var p := FenSquare(k);
      if p !in board then Err(KeyError)
      else if board[p].Some? then
        var text := (if count > 0 then DigitText(count) else "") + board[p].value.letter;
        SectionsFrom(board, k + 1, sections[k / 8 := sections[k / 8] + text], 0)
      else if count == 7 then SectionsFrom(board, k + 1, sections[k / 8 := sections[k / 8] + "8"], 0)
      else SectionsFrom(board, k + 1, sections, count + 1)
  }

  /** The castling letters of one colour: K (k) for RIGHT, Q (q) for any other side. */
  function CastleText(sides: seq<Direction>, color: Color): (t: string)
    ensures |t| == |sides|
  {
    if sides == [] then ""
    else
      var letter :=
        if color == White then (if sides[0] == Right then 'K' else 'Q')
        else (if sides[0] == Right then 'k' else 'q');
      [letter] + CastleText(sides[1..], color)
  }

  /** The four fields joined by single spaces, with `-` for an empty castling or en-passant field. */
  function FenText(placement: string, player: Color, castle: string, enPassant: Option<string>): string
  {
    var ep := if enPassant.None? || enPassant.value == "" then "-" else enPassant.value;
    placement + " " + (if player == White then "w" else "b") + " " + (if castle == "" then "-" else castle) + " " + ep
  }

  /** `Fen.generate_fen`, as written. */
  function GenerateFenSpec(board: BoardMap, player: Color, white: seq<Direction>, black: seq<Direction>, enPassant: Option<string>): Result<string, Error>
  {
    var sections :- SectionsFrom(board, 0, NoSections(), 0);
    Ok(FenText(JoinSlash(sections), player, CastleText(white, White) + CastleText(black, Black), enPassant))
  }

  /** The first loop of `generate_fen`: the walk over the 64 squares. */
  method BoardSections(board: BoardMap) returns (r: Result<seq<string>, Error>)
    ensures r == SectionsFrom(board, 0, NoSections(), 0)
  {
    var sections := NoSections();
    var count: nat := 0;
    var k: nat := 0;
    while k < 64
      invariant k <= 64 && |sections| == 8 && count <= 7
      invariant SectionsFrom(board, 0, NoSections(), 0) == SectionsFrom(board, k, sections, count)
    {
      var p := FenSquare(k);
      if p !in board {
        return Err(KeyError);
      }
      if board[p].Some? {
        var text := (if count > 0 then DigitText(count) else "") + board[p].value.letter;
        sections := sections[k / 8 := sections[k / 8] + text];
        count := 0;
      } else if count == 7 {
        sections := sections[k / 8 := sections[k / 8] + "8"];
        count := 0;
      } else {
        count := count + 1;
      }
      k := k + 1;
    }
    return Ok(sections);
  }

  /** The castling loops of `generate_fen`, for either colour. */
  method CastleLetters(sides: seq<Direction>, color: Color) returns (text: string)
    ensures text == CastleText(sides, color)
  {
    text := "";
    var i := 0;
    while i < |sides|
      invariant 0 <= i <= |sides|
      invariant text + CastleText(sides[i..], color) == CastleText(sides, color)
    {
      var letter :=
        if color == White then (if sides[i] == Right then "K" else "Q")
        else (if sides[i] == Right then "k" else "q");
      assert sides[i..][1..] == sides[i + 1..];
      assert CastleText(sides[i..], color) == letter + CastleText(sides[i + 1..], color);
      assert text + (letter + CastleText(sides[i + 1..], color)) == text + letter + CastleText(sides[i + 1..], color);
      text := text + letter;
      i := i + 1;
    }
  }

  /** `Fen.generate_fen`. */
  method GenerateFen(board: BoardMap, player: Color, white: seq<Direction>, black: seq<Direction>, enPassant: Option<string>)
    returns (r: Result<string, Error>)
    ensures r == GenerateFenSpec(board, player, white, black, enPassant)
  {
    var sections := BoardSections(board);
    if sections.Err? {
      return Err(sections.error);
    }
    var whiteText := CastleLetters(white, White);
    var blackText := CastleLetters(black, Black);
    return Ok(FenText(JoinSlash(sections.value), player, whiteText + blackText, enPassant));
  }

  // ---------------------------------------------------------------------------------------
  // The placement field written rank by rank
  // ---------------------------------------------------------------------------------------

  /** Every square of the board is a key. */
  predicate Complete(board: BoardMap)
  {
    forall col: nat, row: nat :: col < 8 && row < 8 ==> SquareName(col, row) in board
  }

  /** The squares of the `row`-th rank listed, from column `col` to h. */
  function Cells(board: BoardMap, row: nat, col: nat): (cells: seq<Option<Piece>>)
    requires Complete(board) && row < 8 && col <= 8
    ensures |cells| == 8 - col
    decreases 8 - col
  {
    if col == 8 then [] else [board[SquareName(col, row)]] + Cells(board, row, col + 1)
  }

  /** The pending count written out, if there is one. */
  function Flush(count: nat): string
  {
    if 0 < count <= 8 then DigitText(count) else ""
  }

  /**
   * One rank as the PGN standard writes it (section 16.1.3.1): each piece's letter, each run
   * of empty squares as its length, including a run that reaches the end of the rank.
   */
  function RankText(cells: seq<Option<Piece>>, count: nat): string
  {
    if cells == [] then Flush(count)
    else if cells[0].Some? then Flush(count) + cells[0].value.letter + RankText(cells[1..], 0)
    else RankText(cells[1..], count + 1)
  }

  /** The ranks from the `row`-th on, each written by itself. */
  function RankTexts(board: BoardMap, row: nat): (texts: seq<string>)
    requires Complete(board) && row <= 8
    ensures |texts| == 8 - row
    decreases 8 - row
  {
    if row == 8 then [] else [RankText(Cells(board, row, 0), 0)] + RankTexts(board, row + 1)
  }

  /**
   * `generate_fen` with the pending count written out at the end of every rank: the placement
   * field as the PGN standard defines it.
   */
  function GenerateFenFixed(board: BoardMap, player: Color, white: seq<Direction>, black: seq<Direction>, enPassant: Option<string>): Result<string, Error>
  {
    if !Complete(board) then Err(KeyError)
    else Ok(FenText(JoinSlash(RankTexts(board, 0)), player, CastleText(white, White) + CastleText(black, Black), enPassant))
  }

  // ---------------------------------------------------------------------------------------
  // Parsing what was generated
  // ---------------------------------------------------------------------------------------

  /** Every piece on the board carries the letter its subclass gives it. */
  predicate StandardLetters(board: BoardMap)
  {
    forall p :: p in board && board[p].Some? ==> board[p].value.letter == Letter(board[p].value.kind, board[p].value.color)
  }

  /** What parsing gives for the cells of a rank from column `col`: a fresh piece per piece. */
  function Placed(cells: seq<Option<Piece>>, row: nat, col: nat): Placements
    requires row < 8 && col + |cells| <= 8
    decreases |cells|
  {
    if cells == [] then []
    else
      var rest := Placed(cells[1..], row, col + 1);
      if cells[0].Some? then [(SquareName(col, row), NewPiece(cells[0].value.kind, cells[0].value.color))] + rest
      else rest
  }

  /** What parsing gives for the ranks from the `row`-th on. */
  function BoardPlacements(board: BoardMap, row: nat): Placements
    requires Complete(board) && row <= 8
    decreases 8 - row
  {
    if row == 8 then [] else Placed(Cells(board, row, 0), row, 0) + BoardPlacements(board, row + 1)
  }

  /** A subclass letter parses back to a fresh piece of that kind and colour, and is no digit. */
  lemma LetterParses(kind: Kind, color: Color)
    ensures PieceOfLetter(Letter(kind, color)[0]) == Some(NewPiece(kind, color))
    ensures !('0' <= Letter(kind, color)[0] <= '9') && Letter(kind, color)[0] != '/'
  {
  }

  /** A count of empty squares parses back to a skip of that many columns. */
  lemma FlushParses(count: nat, rest: string, row: nat, col: nat, acc: Placements)
    requires count <= 8
    ensures ParseRow(Flush(count) + rest, row, col, acc) == ParseRow(rest, row, col + count, acc)
  {
    if count > 0 {
      var t := Flush(count) + rest;
      assert t[0] == ('0' as int + count) as char && t[1..] == rest;
      assert PieceOfLetter(t[0]).None? && '1' <= t[0] <= '8';
      assert t[0] as int - '0' as int == count;
      assert ParseRow(t, row, col, acc) == ParseRow(t[1..], row, col + count, acc);
    } else {
      assert Flush(count) + rest == rest;
    }
  }

  /** A rank written by `RankText` parses back to its pieces, in their columns. */
  lemma {:induction false} RankParses(cells: seq<Option<Piece>>, count: nat, row: nat, col: nat, acc: Placements)
    requires row < 8 && col + count + |cells| == 8
    requires forall c :: c in cells && c.Some? ==> c.value.letter == Letter(c.value.kind, c.value.color)
    ensures ParseRow(RankText(cells, count), row, col, acc) == Ok(acc + Placed(cells, row, col + count))
    decreases |cells|
  {
    if cells == [] {
      FlushParses(count, "", row, col, acc);
      assert Flush(count) + "" == RankText(cells, count);
      assert acc + Placed(cells, row, col + count) == acc;
    } else if cells[0].Some? {
      var piece := cells[0].value;
      var rest := RankText(cells[1..], 0);
      var entry := (SquareName(col + count, row), NewPiece(piece.kind, piece.color));
      assert cells[0] in cells;
      assert RankText(cells, count) == Flush(count) + (piece.letter + rest);
      FlushParses(count, piece.letter + rest, row, col, acc);
      PieceParses(piece, rest, row, col + count, acc);
      assert forall c :: c in cells[1..] ==> c in cells;
      RankParses(cells[1..], 0, row, col + count + 1, acc + [entry]);
      PlacedPiece(cells, row, col + count, acc);
    } else {
      assert forall c :: c in cells[1..] ==> c in cells;
      RankParses(cells[1..], count + 1, row, col, acc);
    }
  }

  /** A piece's letter parses back to that piece, on the next column. */
  lemma PieceParses(piece: Piece, rest: string, row: nat, col: nat, acc: Placements)
    requires row < 8 && col < 8 && piece.letter == Letter(piece.kind, piece.color)
    ensures ParseRow(piece.letter + rest, row, col, acc) ==
            ParseRow(rest, row, col + 1, acc + [(SquareName(col, row), NewPiece(piece.kind, piece.color))])
  {
    LetterParses(piece.kind, piece.color);
    var text := piece.letter + rest;
    assert text[0] == Letter(piece.kind, piece.color)[0] && text[1..] == rest;
  }

  /** A rank starting with a piece places that piece first. */
  lemma PlacedPiece(cells: seq<Option<Piece>>, row: nat, col: nat, acc: Placements)
    requires row < 8 && col + |cells| <= 8 && cells != [] && cells[0].Some?
    ensures acc + Placed(cells, row, col) ==
            acc + [(SquareName(col, row), NewPiece(cells[0].value.kind, cells[0].value.color))] + Placed(cells[1..], row, col + 1)
  {
  }

  /** No rank text contains a `/`. */
  lemma {:induction false} RankHasNoSlash(cells: seq<Option<Piece>>, count: nat)
    requires forall c :: c in cells && c.Some? ==> c.value.letter == Letter(c.value.kind, c.value.color)
    ensures '/' !in RankText(cells, count)
    decreases |cells|
  {
    if cells != [] {
      RankHasNoSlash(cells[1..], if cells[0].Some? then 0 else count + 1);
      if cells[0].Some? {
        LetterParses(cells[0].value.kind, cells[0].value.color);
      }
    }
  }

  /** Splitting what was joined gives the parts back, when no part contains a `/`. */
  lemma {:induction false} SplitJoin(parts: seq<string>)
    requires |parts| >= 1 && forall p :: p in parts ==> '/' !in p
    ensures SplitSlash(JoinSlash(parts)) == parts
    decreases |parts|
  {
    var s := JoinSlash(parts);
    if |parts| == 1 {
      assert parts[0] in parts;
    } else {
      var first := parts[0];
      assert first in parts;
      assert s == first + "/" + JoinSlash(parts[1..]);
      var j := SlashAt(s, 0);
      assert s[|first|] == '/';
      assert j == |first|;
      assert s[|first| + 1..] == JoinSlash(parts[1..]);
      assert s[..|first|] == first;
      assert forall p :: p in parts[1..] ==> p in parts;
      SplitJoin(parts[1..]);
    }
  }

  /** The cells of a rank are squares of the board, so they carry standard letters too. */
  lemma {:induction false} CellsStandard(board: BoardMap, row: nat, col: nat)
    requires Complete(board) && StandardLetters(board) && row < 8 && col <= 8
    ensures forall c :: c in Cells(board, row, col) && c.Some? ==> c.value.letter == Letter(c.value.kind, c.value.color)
    decreases 8 - col
  {
    if col < 8 {
      CellsStandard(board, row, col + 1);
      assert SquareName(col, row) in board;
      assert Cells(board, row, col) == [board[SquareName(col, row)]] + Cells(board, row, col + 1);
    }
  }

  /** No rank text of a board contains a `/`. */
  lemma {:induction false} TextsHaveNoSlash(board: BoardMap, row: nat)
    requires Complete(board) && StandardLetters(board) && row <= 8
    ensures forall t :: t in RankTexts(board, row) ==> '/' !in t
    decreases 8 - row
  {
    if row < 8 {
      CellsStandard(board, row, 0);
      RankHasNoSlash(Cells(board, row, 0), 0);
      TextsHaveNoSlash(board, row + 1);
    }
  }

  /** One rank: its text parses to its pieces, and the later ranks follow. */
  lemma RowParses(board: BoardMap, row: nat, acc: Placements)
    requires Complete(board) && StandardLetters(board) && row < 8
    ensures ParseRows(RankTexts(board, row), row, acc)
            == ParseRows(RankTexts(board, row + 1), row + 1, acc + Placed(Cells(board, row, 0), row, 0))
  {
    var texts := RankTexts(board, row);
    var cells := Cells(board, row, 0);
    assert texts[0] == RankText(cells, 0) && texts[1..] == RankTexts(board, row + 1);
    CellsStandard(board, row, 0);
    RankParses(cells, 0, row, 0, acc);
  }

  /** The rank texts from the `row`-th on parse back to the pieces of those ranks. */
  lemma {:induction false} RowsParse(board: BoardMap, row: nat, acc: Placements)
    requires Complete(board) && StandardLetters(board) && row <= 8
    ensures ParseRows(RankTexts(board, row), row, acc) == Ok(acc + BoardPlacements(board, row))
    decreases 8 - row
  {
    if row < 8 {
      RowParses(board, row, acc);
      RowsParse(board, row + 1, acc + Placed(Cells(board, row, 0), row, 0));
      PlacementsCons(board, row, acc);
    } else {
      assert acc + BoardPlacements(board, row) == acc;
    }
  }

  /** The placements from the `row`-th rank on: that rank's, then the later ones'. */
  lemma PlacementsCons(board: BoardMap, row: nat, acc: Placements)
    requires Complete(board) && row < 8
    ensures acc + BoardPlacements(board, row) == acc + Placed(Cells(board, row, 0), row, 0) + BoardPlacements(board, row + 1)
  {
    var first := Placed(Cells(board, row, 0), row, 0);
    var rest := BoardPlacements(board, row + 1);
    assert acc + first + rest == acc + (first + rest);
  }

  /**
   * The placement field written rank by rank parses back to the board: one fresh piece of the
   * same kind and colour per occupied square, ranks 8 to 1, files a to h.
   */
  lemma BoardRoundTrip(board: BoardMap)
    requires Complete(board) && StandardLetters(board)
    ensures ParseBoardSpec(JoinSlash(RankTexts(board, 0))) == Ok(BoardPlacements(board, 0))
  {
    TextsHaveNoSlash(board, 0);
    SplitJoin(RankTexts(board, 0));
    RowsParse(board, 0, []);
    assert [] + BoardPlacements(board, 0) == BoardPlacements(board, 0);
  }

  /** Reading the letters a colour writes gives back its sides; the other colour reads none. */
  lemma {:induction false} CastleTextParses(ds: seq<Direction>, color: Color)
    requires forall d :: d in ds ==> d == Left || d == Right
    ensures CastleSides(CastleText(ds, color), color) == ds
    ensures CastleSides(CastleText(ds, color), if color == White then Black else White) == []
    decreases |ds|
  {
    if ds != [] {
      assert ds[0] in ds;
      assert forall d :: d in ds[1..] ==> d in ds;
      CastleLetterParses(ds, color);
      CastleTextParses(ds[1..], color);
      assert [ds[0]] + ds[1..] == ds;
    }
  }

  /** The first letter a colour writes reads back as its first side, and as nothing for the other colour. */
  lemma CastleLetterParses(ds: seq<Direction>, color: Color)
    requires ds != [] && (ds[0] == Left || ds[0] == Right)
    ensures CastleSides(CastleText(ds, color), color) == [ds[0]] + CastleSides(CastleText(ds[1..], color), color)
    ensures var other := if color == White then Black else White;
      CastleSides(CastleText(ds, color), other) == CastleSides(CastleText(ds[1..], color), other)
  {
    var t := CastleText(ds, color);
    assert t[1..] == CastleText(ds[1..], color);
  }

  /** The castling sides of a concatenation are those of its parts, in order. */
  lemma {:induction false} CastleSidesAppend(a: string, b: string, color: Color)
    ensures CastleSides(a + b, color) == CastleSides(a, color) + CastleSides(b, color)
    decreases |a|
  {
    if a != [] {
      assert (a + b)[0] == a[0] && (a + b)[1..] == a[1..] + b;
      CastleSidesAppend(a[1..], b, color);
      var first := CastleSide(a[0], color);
      var f := if first.Some? then [first.value] else [];
      assert CastleSides(a + b, color) == f + CastleSides(a[1..] + b, color);
      assert CastleSides(a, color) == f + CastleSides(a[1..], color);
      assert f + (CastleSides(a[1..], color) + CastleSides(b, color)) == f + CastleSides(a[1..], color) + CastleSides(b, color);
    } else {
      assert a + b == b;
    }
  }

  /**
   * The castling field `generate_fen` writes (`-` when neither colour may castle) parses back
   * to each colour's sides, when every side is LEFT or RIGHT.
   */
  lemma CastleRoundTrip(white: seq<Direction>, black: seq<Direction>)
    requires forall d :: d in white ==> d == Left || d == Right
    requires forall d :: d in black ==> d == Left || d == Right
    ensures var text := CastleText(white, White) + CastleText(black, Black);
            var field := if text == "" then "-" else text;
            ParseCastleSpec(field, White) == white && ParseCastleSpec(field, Black) == black
  {
    var text := CastleText(white, White) + CastleText(black, Black);
    CastleTextParses(white, White);
    CastleTextParses(black, Black);
    CastleSidesAppend(CastleText(white, White), CastleText(black, Black), White);
    CastleSidesAppend(CastleText(white, White), CastleText(black, Black), Black);
  }

  // ---------------------------------------------------------------------------------------
  // The walk as written, rank by rank
  // ---------------------------------------------------------------------------------------

  /**
   * What the walk as written appends to one rank's section, and the count it hands on, when
   * it enters the rank with `count` empty squares pending.
   */
  function RankRun(cells: seq<Option<Piece>>, count: nat): (r: (string, nat))
    requires count <= 7
    ensures r.1 <= 7
    decreases |cells|
  {
    if cells == [] then ("", count)
    else if cells[0].Some? then
      var rest := RankRun(cells[1..], 0);
      ((if count > 0 then DigitText(count) else "") + cells[0].value.letter + rest.0, rest.1)
    else if count == 7 then
      var rest := RankRun(cells[1..], 0);
      ("8" + rest.0, rest.1)
    else RankRun(cells[1..], count + 1)
  }

  /** n ranks written `8` each. */
  function Eights(n: nat): (texts: seq<string>)
    ensures |texts| == n
  {
    if n == 0 then [] else ["8"] + Eights(n - 1)
  }

  /** The sections the walk as written gives the ranks from the `row`-th on. */
  function WalkTexts(board: BoardMap, row: nat, count: nat): (texts: seq<string>)
    requires Complete(board) && row <= 8 && count <= 7
    ensures |texts| == 8 - row
    decreases 8 - row
  {
    if row == 8 then []
    else
      var run := RankRun(Cells(board, row, 0), count);
      [run.0] + WalkTexts(board, row + 1, run.1)
  }

  /** The `col`-th square of the `row`-th rank is the (8 * row + col)-th the walk visits. */
  lemma SquareIndex(row: nat, col: nat)
    requires row < 8 && col < 8
    ensures (8 * row + col) / 8 == row && (8 * row + col) % 8 == col
    ensures FenSquare(8 * row + col) == SquareName(col, row)
  {
  }

  /** Appending to a section twice is appending the two texts joined. */
  lemma AppendTwice(sections: seq<string>, row: nat, a: string, b: string)
    requires row < |sections|
    ensures var next := sections[row := sections[row] + a];
            next[row := next[row] + b] == sections[row := sections[row] + (a + b)]
  {
    assert sections[row] + a + b == sections[row] + (a + b);
  }

  /** The walk over one rank from column `col` appends that rank's run to its section. */
  lemma {:induction false} RankWalk(board: BoardMap, row: nat, col: nat, sections: seq<string>, count: nat)
    requires Complete(board) && row < 8 && col <= 8 && |sections| == 8 && count <= 7
    ensures var run := RankRun(Cells(board, row, col), count);
            SectionsFrom(board, 8 * row + col, sections, count)
            == SectionsFrom(board, 8 * row + 8, sections[row := sections[row] + run.0], run.1)
    decreases 8 - col
  {
    var cells := Cells(board, row, col);
    if col == 8 {
      assert sections[row] + "" == sections[row];
      assert sections[row := sections[row] + ""] == sections;
    } else {
      var square := board[SquareName(col, row)];
      var text := if square.Some? then (if count > 0 then DigitText(count) else "") + square.value.letter
                  else if count == 7 then "8" else "";
      var carry := if square.Some? || count == 7 then 0 else count + 1;
      var next := sections[row := sections[row] + text];
      assert RankRun(cells, count) == (text + RankRun(cells[1..], carry).0, RankRun(cells[1..], carry).1) by {
        CellsStep(board, row, col);
        if square.None? && count < 7 {
          assert text + RankRun(cells[1..], carry).0 == RankRun(cells[1..], carry).0;
        }
      }
      assert SectionsFrom(board, 8 * row + col, sections, count) == SectionsFrom(board, 8 * row + (col + 1), next, carry) by {
        SquareIndex(row, col);
        if square.None? && count < 7 {
          assert sections[row] + text == sections[row];
          assert next == sections;
        }
      }
      RankWalk(board, row, col + 1, next, carry);
      CellsStep(board, row, col);
      AppendTwice(sections, row, text, RankRun(cells[1..], carry).0);
    }
  }

  /** The first of the cells from column `col` is that square; the rest start one column on. */
  lemma CellsStep(board: BoardMap, row: nat, col: nat)
    requires Complete(board) && row < 8 && col < 8
    ensures var cells := Cells(board, row, col);
            cells[0] == board[SquareName(col, row)] && cells[1..] == Cells(board, row, col + 1)
  {
  }

  /** The walk over a whole rank moves on to the next one. */
  lemma RankStep(board: BoardMap, row: nat, sections: seq<string>, count: nat)
    requires Complete(board) && row < 8 && |sections| == 8 && count <= 7
    ensures var run := RankRun(Cells(board, row, 0), count);
            SectionsFrom(board, 8 * row, sections, count)
            == SectionsFrom(board, 8 * (row + 1), sections[row := sections[row] + run.0], run.1)
  {
    RankWalk(board, row, 0, sections, count);
    assert 8 * row + 8 == 8 * (row + 1);
  }

  /** The whole walk, from the `row`-th rank on, fills the remaining sections rank by rank. */
  lemma {:induction false} Walk(board: BoardMap, row: nat, sections: seq<string>, count: nat)
    requires Complete(board) && row <= 8 && |sections| == 8 && count <= 7
    requires forall i :: row <= i < 8 ==> sections[i] == ""
    ensures SectionsFrom(board, 8 * row, sections, count) == Ok(sections[..row] + WalkTexts(board, row, count))
    decreases 8 - row
  {
    if row == 8 {
      assert sections[..row] + [] == sections;
    } else {
      var run := RankRun(Cells(board, row, 0), count);
      var next := sections[row := sections[row] + run.0];
      var later := WalkTexts(board, row + 1, run.1);
      assert SectionsFrom(board, 8 * row, sections, count) == SectionsFrom(board, 8 * (row + 1), next, run.1) by {
        RankStep(board, row, sections, count);
      }
      assert SectionsFrom(board, 8 * (row + 1), next, run.1) == Ok(next[..row + 1] + later) by {
        Walk(board, row + 1, next, run.1);
      }
      assert WalkTexts(board, row, count) == [run.0] + later;
      FillSection(sections, row, run.0, later);
    }
  }

  /** Filling the empty `row`-th section and appending the later ones. */
  lemma FillSection(sections: seq<string>, row: nat, text: string, later: seq<string>)
    requires row < |sections| && sections[row] == ""
    ensures sections[row := sections[row] + text][..row + 1] + later == sections[..row] + ([text] + later)
  {
    var next := sections[row := sections[row] + text];
    assert next[row] == text;
    assert next[..row + 1] == next[..row] + [next[row]];
    assert next[..row] == sections[..row];
  }

  /** `generate_fen` as written, in terms of the rank-by-rank walk. */
  lemma GenerateAsWalk(board: BoardMap)
    requires Complete(board)
    ensures SectionsFrom(board, 0, NoSections(), 0) == Ok(WalkTexts(board, 0, 0))
  {
    Walk(board, 0, NoSections(), 0);
    assert NoSections()[..0] + WalkTexts(board, 0, 0) == WalkTexts(board, 0, 0);
  }

  /** A rank that ends in a piece: the run writes it as `RankText` does and hands on nothing. */
  lemma {:induction false} RunEndingInPiece(cells: seq<Option<Piece>>, count: nat)
    requires count <= 7 && count + |cells| <= 8 && |cells| > 0 && cells[|cells| - 1].Some?
    ensures RankRun(cells, count) == (RankText(cells, count), 0)
    decreases |cells|
  {
    if cells[0].Some? {
      if |cells| > 1 {
        RunEndingInPiece(cells[1..], 0);
      }
    } else {
      RunEndingInPiece(cells[1..], count + 1);
    }
  }

  /** An empty rank entered with nothing pending: the run writes `8` and hands on nothing. */
  lemma {:induction false} RunOfEmpties(cells: seq<Option<Piece>>, count: nat)
    requires count <= 7 && count + |cells| == 8 && forall c :: c in cells ==> c.None?
    ensures RankRun(cells, count) == ("8", 0) && RankText(cells, count) == "8"
    decreases |cells|
  {
    assert cells[0] in cells;
    assert forall c :: c in cells[1..] ==> c in cells;
    if count < 7 {
      RunOfEmpties(cells[1..], count + 1);
    } else {
      assert cells[1..] == [] && "8" + "" == "8";
      assert RankText(cells, count) == Flush(8) == "8";
    }
  }

  /** Every rank either ends in a piece on the h-file or is empty. */
  predicate RanksEndCleanly(board: BoardMap)
    requires Complete(board)
  {
    forall row: nat :: row < 8 ==>
      board[SquareName(7, row)].Some? || forall col: nat :: col < 8 ==> board[SquareName(col, row)].None?
  }

  /** The h-file square of a rank is its last cell, and every cell is one of its squares. */
  lemma {:induction false} CellsOfRank(board: BoardMap, row: nat, col: nat)
    requires Complete(board) && row < 8 && col < 8
    ensures Cells(board, row, col)[7 - col] == board[SquareName(7, row)]
    ensures forall c :: c in Cells(board, row, col) ==> exists k: nat :: col <= k < 8 && c == board[SquareName(k, row)]
    decreases 8 - col
  {
    var cells := Cells(board, row, col);
    assert cells[0] == board[SquareName(col, row)] && cells[1..] == Cells(board, row, col + 1);
    if col < 7 {
      CellsOfRank(board, row, col + 1);
      forall c | c in cells
        ensures exists k: nat :: col <= k < 8 && c == board[SquareName(k, row)]
      {
        if c != cells[0] {
          assert c in cells[1..];
        }
      }
    }
  }

  /** A rank that ends in a piece or is empty, entered with nothing pending, hands on nothing. */
  lemma RankMatches(board: BoardMap, row: nat)
    requires Complete(board) && RanksEndCleanly(board) && row < 8
    ensures var cells := Cells(board, row, 0); RankRun(cells, 0) == (RankText(cells, 0), 0)
  {
    var cells := Cells(board, row, 0);
    CellsOfRank(board, row, 0);
    if board[SquareName(7, row)].Some? {
      RunEndingInPiece(cells, 0);
    } else {
      RunOfEmpties(cells, 0);
    }
  }

  /** On such a board the walk as written writes every rank as `RankText` does. */
  lemma {:induction false} WalkMatchesRanks(board: BoardMap, row: nat)
    requires Complete(board) && RanksEndCleanly(board) && row <= 8
    ensures WalkTexts(board, row, 0) == RankTexts(board, row)
    decreases 8 - row
  {
    if row < 8 {
      RankMatches(board, row);
      WalkMatchesRanks(board, row + 1);
    }
  }

  /**
   * When every rank ends in a piece or is empty, the pending count is zero at every rank
   * boundary and `generate_fen` as written agrees with the corrected generator.
   */
  lemma AsWrittenAgrees(board: BoardMap, player: Color, white: seq<Direction>, black: seq<Direction>, enPassant: Option<string>)
    requires Complete(board) && RanksEndCleanly(board)
    ensures GenerateFenSpec(board, player, white, black, enPassant) == GenerateFenFixed(board, player, white, black, enPassant)
  {
    GenerateAsWalk(board);
    WalkMatchesRanks(board, 0);
  }

  // ---------------------------------------------------------------------------------------
  // The count carried across ranks: a board that shows it
  // ---------------------------------------------------------------------------------------

  /** Eight empty cells. */
  const EmptyRank: seq<Option<Piece>> := [None, None, None, None, None, None, None, None]

  /** A rank with no piece from column `col` on. */
  lemma {:induction false} EmptyCells(board: BoardMap, row: nat, col: nat)
    requires Complete(board) && row < 8 && col <= 8
    requires forall c: nat :: col <= c < 8 ==> board[SquareName(c, row)].None?
    ensures Cells(board, row, col) == EmptyRank[col..]
    decreases 8 - col
  {
    if col < 8 {
      EmptyCells(board, row, col + 1);
      assert EmptyRank[col..] == [None] + EmptyRank[col + 1..];
    }
  }

  /** Empty cells with fewer than eight squares pending in all: the run writes nothing yet. */
  lemma {:induction false} QuietRun(cells: seq<Option<Piece>>, count: nat)
    requires count + |cells| <= 7 && forall c :: c in cells ==> c.None?
    ensures RankRun(cells, count) == ("", count + |cells|)
    ensures RankText(cells, count) == Flush(count + |cells|)
    decreases |cells|
  {
    if cells != [] {
      assert cells[0] in cells;
      assert forall c :: c in cells[1..] ==> c in cells;
      QuietRun(cells[1..], count + 1);
    }
  }

  /** A whole empty rank entered with seven squares pending is written `8`; seven stay pending. */
  lemma EmptyRankRun()
    ensures RankRun(EmptyRank, 7) == ("8", 7)
  {
    QuietRun(EmptyRank[1..], 0);
    assert "8" + "" == "8";
  }

  /** Empty ranks entered with seven squares pending: each is written `8`, seven stay pending. */
  lemma {:induction false} EmptyWalk(board: BoardMap, row: nat)
    requires Complete(board) && row <= 8
    requires forall c: nat, r: nat :: c < 8 && row <= r < 8 ==> board[SquareName(c, r)].None?
    ensures WalkTexts(board, row, 7) == Eights(8 - row)
    decreases 8 - row
  {
    if row < 8 {
      EmptyRankWalk(board, row);
      WalkCons(board, row, 7);
      EmptyWalk(board, row + 1);
    }
  }

  /** An empty rank after seven pending squares: the walk writes `8` and hands on seven again. */
  lemma EmptyRankWalk(board: BoardMap, row: nat)
    requires Complete(board) && row < 8
    requires forall c: nat :: c < 8 ==> board[SquareName(c, row)].None?
    ensures RankRun(Cells(board, row, 0), 7) == ("8", 7)
  {
    EmptyCells(board, row, 0);
    EmptyRankRun();
    assert EmptyRank[0..] == EmptyRank;
  }

  /**
   * A black pawn on a8, a white pawn on a7 and nothing else: the walk as written leaves the
   * seven empty squares after a8 pending and writes them in front of the white pawn.
   */
  lemma CarriedSections(board: BoardMap)
    requires Complete(board)
    requires board[SquareName(0, 0)] == Some(NewPiece(Pawn, Black))
    requires board[SquareName(0, 1)] == Some(NewPiece(Pawn, White))
    requires forall c: nat, r: nat :: c < 8 && r < 8 && !(c == 0 && r < 2) ==> board[SquareName(c, r)].None?
    ensures SectionsFrom(board, 0, NoSections(), 0) == Ok(["p", "7P", "8", "8", "8", "8", "8", "8"])
  {
    PawnRanks(board);
    PawnRankRuns();
    WalkCons(board, 0, 0);
    WalkCons(board, 1, 7);
    EmptyWalk(board, 2);
    CarriedTextsJoin();
    GenerateAsWalk(board);
  }

  /** The walk from the `row`-th rank on: that rank's run, then the later ranks with its carry. */
  lemma WalkCons(board: BoardMap, row: nat, count: nat)
    requires Complete(board) && row < 8 && count <= 7
    ensures var run := RankRun(Cells(board, row, 0), count);
      run.1 <= 7 && WalkTexts(board, row, count) == [run.0] + WalkTexts(board, row + 1, run.1)
  {
  }

  /** The two pawn ranks' sections followed by six empty ranks. */
  lemma CarriedTextsJoin()
    ensures ["p"] + (["7P"] + Eights(6)) == ["p", "7P", "8", "8", "8", "8", "8", "8"]
  {
    assert Eights(6) == ["8", "8", "8", "8", "8", "8"];
  }

  /** On the same board each of the two pawn ranks ends in its own `7` when written rank by rank. */
  lemma UncarriedSections(board: BoardMap)
    requires Complete(board)
    requires board[SquareName(0, 0)] == Some(NewPiece(Pawn, Black))
    requires board[SquareName(0, 1)] == Some(NewPiece(Pawn, White))
    requires forall c: nat, r: nat :: c < 8 && r < 8 && !(c == 0 && r < 2) ==> board[SquareName(c, r)].None?
    ensures RankTexts(board, 0) == ["p7", "P7", "8", "8", "8", "8", "8", "8"]
  {
    PawnRanks(board);
    PawnRankRuns();
    RankTextsCons(board, 0);
    RankTextsCons(board, 1);
    EmptyTexts(board, 2);
    PawnTextsJoin();
  }

  /** The ranks from the `row`-th on: that rank's text, then the later ones. */
  lemma RankTextsCons(board: BoardMap, row: nat)
    requires Complete(board) && row < 8
    ensures RankTexts(board, row) == [RankText(Cells(board, row, 0), 0)] + RankTexts(board, row + 1)
  {
  }

  /** The two pawn ranks' texts followed by six empty ranks. */
  lemma PawnTextsJoin()
    ensures ["p7"] + (["P7"] + Eights(6)) == ["p7", "P7", "8", "8", "8", "8", "8", "8"]
  {
    assert Eights(6) == ["8", "8", "8", "8", "8", "8"];
  }

  /** The two pawn ranks of that board. */
  lemma PawnRanks(board: BoardMap)
    requires Complete(board)
    requires board[SquareName(0, 0)] == Some(NewPiece(Pawn, Black))
    requires board[SquareName(0, 1)] == Some(NewPiece(Pawn, White))
    requires forall c: nat, r: nat :: c < 8 && r < 8 && !(c == 0 && r < 2) ==> board[SquareName(c, r)].None?
    ensures Cells(board, 0, 0) == [Some(NewPiece(Pawn, Black))] + EmptyRank[1..]
    ensures Cells(board, 1, 0) == [Some(NewPiece(Pawn, White))] + EmptyRank[1..]
  {
    EmptyCells(board, 0, 1);
    EmptyCells(board, 1, 1);
    CellsStep(board, 0, 0);
    CellsStep(board, 1, 0);
  }

  /** How the walk as written and the corrected writer treat the two pawn ranks. */
  lemma PawnRankRuns()
    ensures RankRun([Some(NewPiece(Pawn, Black))] + EmptyRank[1..], 0) == ("p", 7)
    ensures RankRun([Some(NewPiece(Pawn, White))] + EmptyRank[1..], 7) == ("7P", 7)
    ensures RankText([Some(NewPiece(Pawn, Black))] + EmptyRank[1..], 0) == "p7"
    ensures RankText([Some(NewPiece(Pawn, White))] + EmptyRank[1..], 0) == "P7"
  {
    var black := [Some(NewPiece(Pawn, Black))] + EmptyRank[1..];
    var white := [Some(NewPiece(Pawn, White))] + EmptyRank[1..];
    assert Letter(Pawn, Black) == "p" && Letter(Pawn, White) == "P";
    assert black[1..] == EmptyRank[1..] && white[1..] == EmptyRank[1..];
    QuietRun(EmptyRank[1..], 0);
    assert "" + "p" + "" == "p";
    assert DigitText(7) + "P" + "" == "7P";
    assert "" + "p" + DigitText(7) == "p7";
    assert "" + "P" + DigitText(7) == "P7";
  }

  /** Empty ranks are written `8` each by the corrected writer. */
  lemma {:induction false} EmptyTexts(board: BoardMap, row: nat)
    requires Complete(board) && row <= 8
    requires forall c: nat, r: nat :: c < 8 && row <= r < 8 ==> board[SquareName(c, r)].None?
    ensures RankTexts(board, row) == Eights(8 - row)
    decreases 8 - row
  {
    if row < 8 {
      EmptyRankText(board, row);
      EmptyTexts(board, row + 1);
    }
  }

  /** An empty rank is written `8`. */
  lemma EmptyRankText(board: BoardMap, row: nat)
    requires Complete(board) && row < 8
    requires forall c: nat :: c < 8 ==> board[SquareName(c, row)].None?
    ensures RankText(Cells(board, row, 0), 0) == "8"
  {
    EmptyCells(board, row, 0);
    RunOfEmpties(EmptyRank, 0);
    assert EmptyRank[0..] == EmptyRank;
  }

  /** The fields after the placement when White is to move, nobody may castle and there is no en-passant square. */
  lemma QuietFields(placement: string)
    ensures FenText(placement, White, CastleText([], White) + CastleText([], Black), None) == placement + " w - -"
  {
    assert CastleText([], White) + CastleText([], Black) == "";
  }

  /** Ranks written `8` place nothing. */
  lemma {:induction false} EmptyRanksParse(n: nat, row: nat, acc: Placements)
    ensures ParseRows(Eights(n), row, acc) == Ok(acc)
    decreases n
  {
    if n > 0 {
      assert "8"[0] == '8' && "8"[1..] == "";
      assert PieceOfLetter('8') == None && '8' as int - '0' as int == 8;
      assert ParseRow("8", row, 0, acc) == ParseRow("", row, 8, acc);
      assert Eights(n)[1..] == Eights(n - 1);
      EmptyRanksParse(n - 1, row + 1, acc);
    }
  }

  /**
   * Reading the placement `generate_fen` as written gives for the pawn board: the black pawn
   * on a8, and the white pawn on h7 rather than a7.
   */
  lemma CarriedParse()
    ensures ParseBoardSpec(JoinSlash(["p", "7P", "8", "8", "8", "8", "8", "8"]))
            == Ok([(SquareName(0, 0), NewPiece(Pawn, Black)), (SquareName(7, 1), NewPiece(Pawn, White))])
  {
    var parts := ["p", "7P", "8", "8", "8", "8", "8", "8"];
    var black := (SquareName(0, 0), NewPiece(Pawn, Black));
    var white := (SquareName(7, 1), NewPiece(Pawn, White));
    CarriedSplit();
    BlackPawnFirst();
    RowsCons(parts, 0, [], [black]);
    SevenThenPawn([black]);
    assert [black] + [white] == [black, white];
    RowsCons(parts[1..], 1, [black], [black, white]);
    CarriedTail();
    EmptyRanksParse(6, 2, [black, white]);
  }

  /** After the two pawn sections come six empty ranks. */
  lemma CarriedTail()
    ensures var parts := ["p", "7P", "8", "8", "8", "8", "8", "8"];
      parts[1..][1..] == Eights(6)
  {
    assert Eights(6) == ["8", "8", "8", "8", "8", "8"];
  }

  /** The carried sections contain no `/`, so splitting their join gives them back. */
  lemma CarriedSplit()
    ensures var parts := ["p", "7P", "8", "8", "8", "8", "8", "8"];
      ParseBoardSpec(JoinSlash(parts)) == ParseRows(parts, 0, [])
  {
    var parts := ["p", "7P", "8", "8", "8", "8", "8", "8"];
    assert forall p :: p in parts ==> '/' !in p;
    SplitJoin(parts);
  }

  /** A first rank `p` places the black pawn on a8. */
  lemma BlackPawnFirst()
    ensures ParseRow("p", 0, 0, []) == Ok([(SquareName(0, 0), NewPiece(Pawn, Black))])
  {
    assert "p"[0] == 'p' && "p"[1..] == "";
    assert PieceOfLetter('p') == Some(NewPiece(Pawn, Black));
    assert [] + [(SquareName(0, 0), NewPiece(Pawn, Black))] == [(SquareName(0, 0), NewPiece(Pawn, Black))];
  }

  /** The ranks from the `row`-th on: the first one read, then the rest. */
  lemma RowsCons(rows: seq<string>, row: nat, acc: Placements, placed: Placements)
    requires rows != [] && ParseRow(rows[0], row, 0, acc) == Ok(placed)
    ensures ParseRows(rows, row, acc) == ParseRows(rows[1..], row + 1, placed)
  {
  }

  /** A reader of `7P` as the second rank places the white pawn on h7. */
  lemma SevenThenPawn(acc: Placements)
    ensures ParseRow("7P", 1, 0, acc) == Ok(acc + [(SquareName(7, 1), NewPiece(Pawn, White))])
  {
    assert "7P"[0] == '7' && "7P"[1..] == "P" && "P"[0] == 'P' && "P"[1..] == "";
    assert PieceOfLetter('7') == None && '1' <= '7' <= '8' && '7' as int - '0' as int == 7;
    assert ParseRow("7P", 1, 0, acc) == ParseRow("P", 1, 7, acc);
    assert PieceOfLetter('P') == Some(NewPiece(Pawn, White));
  }

  /**
   * `generate_fen` as written moves a piece: on the pawn board it writes the white pawn of a7
   * after seven empty squares, which reads back as h7; the corrected generator writes `p7/P7`.
   */
  lemma CarriedCount(board: BoardMap)
    requires Complete(board)
    requires board[SquareName(0, 0)] == Some(NewPiece(Pawn, Black))
    requires board[SquareName(0, 1)] == Some(NewPiece(Pawn, White))
    requires forall c: nat, r: nat :: c < 8 && r < 8 && !(c == 0 && r < 2) ==> board[SquareName(c, r)].None?
    ensures GenerateFenSpec(board, White, [], [], None) == Ok(JoinSlash(["p", "7P", "8", "8", "8", "8", "8", "8"]) + " w - -")
    ensures GenerateFenFixed(board, White, [], [], None) == Ok(JoinSlash(["p7", "P7", "8", "8", "8", "8", "8", "8"]) + " w - -")
    ensures ParseBoardSpec(JoinSlash(["p", "7P", "8", "8", "8", "8", "8", "8"]))
            == Ok([(SquareName(0, 0), NewPiece(Pawn, Black)), (SquareName(7, 1), NewPiece(Pawn, White))])
    ensures board[SquareName(7, 1)] == None
  {
    CarriedSections(board);
    UncarriedSections(board);
    QuietFields(JoinSlash(["p", "7P", "8", "8", "8", "8", "8", "8"]));
    QuietFields(JoinSlash(["p7", "P7", "8", "8", "8", "8", "8", "8"]));
    CarriedParse();
  }
}
