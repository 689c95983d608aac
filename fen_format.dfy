/**
 * What the format check of `Fen.__init__` accepts, and what a string that passes it parses to.
 * The strings considered are eight ranks joined by `/` followed by three more fields, each
 * separated by one space: every string with seven `/` in its first field and four fields has
 * this form.
 */
module FenFormat {
  import opened Wrappers
  import opened Exceptions
  import opened Pieces
  import opened Fen

  /** A field without whitespace: what splitting on whitespace yields. */
  predicate IsWord(w: string)
  {
    w != [] && forall k :: 0 <= k < |w| ==> !IsSpace(w[k])
  }

  /** The text between two `/` of a placement field: no `/` and no whitespace. */
  predicate PlainRank(r: string)
  {
    forall k :: 0 <= k < |r| ==> r[k] != '/' && !IsSpace(r[k])
  }

  /** A rank as the pattern accepts it: one or more rank characters. */
  predicate PatternRank(r: string, pawns: bool)
  {
    r != [] && forall k :: 0 <= k < |r| ==> RankChar(r[k], pawns)
  }

  /** Ranks that may hold pawns, then a last rank that may not. */
  predicate InnerThenLast(rs: seq<string>)
    decreases |rs|
  {
    if |rs| <= 1 then |rs| == 1 && PatternRank(rs[0], false)
    else PatternRank(rs[0], true) && InnerThenLast(rs[1..])
  }

  /** The eight ranks of the pattern: no pawns on the first and the last. */
  predicate PatternRanks(ranks: seq<string>)
  {
    |ranks| == 8 && PatternRank(ranks[0], false) && InnerThenLast(ranks[1..])
  }

  /**
   * `K?Q?k?q?` read greedily: the letters of `castle` occur in `letters` in the same order.
   * With distinct letters this is the in-order subsets of `letters`, the empty one included.
   */
  predicate InOrder(castle: string, letters: string)
    decreases |letters|
  {
    if castle == [] then true
    else if letters == [] then false
    else if castle[0] == letters[0] then InOrder(castle[1..], letters[1..])
    else InOrder(castle, letters[1..])
  }

  /** The castling group of the pattern: `-`, or an in-order subset of KQkq (possibly empty). */
  predicate CastleField(castle: string)
  {
    castle == "-" || InOrder(castle, "KQkq")
  }

  /**
   * The en-passant group of the pattern: `-` or a file a-h and rank 3 or 6. The match is anchored
   * only at the start, so only the first one or two characters are looked at.
   */
  predicate PassantField(ep: string)
  {
    |ep| >= 1 && (ep[0] == '-' || (|ep| >= 2 && 'a' <= ep[0] <= 'h' && (ep[1] == '3' || ep[1] == '6')))
  }

  // ---------------------------------------------------------------------------------------
  // The placement field
  // ---------------------------------------------------------------------------------------

  /** The text `t` occurs in `s` at position i. */
  predicate At(s: string, i: nat, t: string)
  {
    i + |t| <= |s| && forall k {:trigger t[k]} :: 0 <= k < |t| ==> s[i + k] == t[k]
  }

  /** Where `a + b` occurs, `a` occurs, and `b` right after it. */
  lemma AtSplit(s: string, i: nat, a: string, b: string)
    requires At(s, i, a + b)
    ensures At(s, i, a) && At(s, i + |a|, b)
  {
    forall k | 0 <= k < |a|
      ensures s[i + k] == a[k]
    {
      assert (a + b)[k] == a[k];
    }
    forall k | 0 <= k < |b|
      ensures s[i + |a| + k] == b[k]
    {
      assert s[i + (|a| + k)] == (a + b)[|a| + k];
    }
  }

  /** Both parts of a concatenation occur in it. */
  lemma AtAppend(a: string, b: string)
    ensures At(a + b, 0, a) && At(a + b, |a|, b)
  {
    forall k | 0 <= k < |a|
      ensures (a + b)[0 + k] == a[k]
    {
    }
  }

  /**
   * The run of rank characters over a rank that is followed by a character outside the run
   * reaches the end of the rank exactly when every character of the rank belongs to the run;
   * otherwise it stops on a character of the rank, which is neither `/` nor whitespace.
   */
  lemma RunOverRank(s: string, i: nat, r: string, pawns: bool)
    requires At(s, i, r) && i + |r| < |s| && PlainRank(r)
    requires !RankChar(s[i + |r|], pawns)
    ensures RunEnd(s, i, pawns) <= i + |r|
    ensures RunEnd(s, i, pawns) == i + |r| <==> forall k :: 0 <= k < |r| ==> RankChar(r[k], pawns)
    ensures RunEnd(s, i, pawns) < i + |r| ==> s[RunEnd(s, i, pawns)] != '/' && !IsSpace(s[RunEnd(s, i, pawns)])
  {
    var j := RunEnd(s, i, pawns);
    RunChars(s, i, pawns);
    if j < i + |r| {
      assert s[j] == r[j - i];
    } else {
      forall k | 0 <= k < |r|
        ensures RankChar(r[k], pawns)
      {
        assert s[i + k] == r[k];
      }
    }
  }

  /**
   * The ranks after the first, followed by whitespace: `RanksEnd` reaches the end of their
   * joined text exactly when they are the inner ranks and the last rank of the pattern; if it
   * stops earlier, it stops on a character that is not whitespace.
   */
  lemma {:induction false} RanksJoin(s: string, i: nat, rs: seq<string>, n: nat, end: nat)
    requires n == |rs| - 1 && forall k :: 0 <= k < |rs| ==> PlainRank(rs[k])
    requires At(s, i, JoinSlash(rs)) && end == i + |JoinSlash(rs)| && end < |s| && s[end] == ' '
    ensures var e := RanksEnd(s, i, n);
      && (e == Some(end) <==> InnerThenLast(rs))
      && (e.Some? ==> e.value <= end)
      && (e.Some? && e.value < end ==> !IsSpace(s[e.value]))
    decreases n
  {
    var r := rs[0];
    if n == 0 {
      LastRank(s, i, r);
    } else {
      var later := JoinSlash(rs[1..]);
      assert JoinSlash(rs) == r + "/" + later;
      AtSplit(s, i, r + "/", later);
      AtSplit(s, i, r, "/");
      InnerRank(s, i, r, n);
      if PatternRank(r, true) {
        RanksJoin(s, i + |r| + 1, rs[1..], n - 1, end);
        assert InnerThenLast(rs) == InnerThenLast(rs[1..]);
      }
    }
  }

  /** An inner rank followed by `/`: the ranks after it are matched next, if it is of the pattern's form. */
  lemma InnerRank(s: string, i: nat, r: string, n: nat)
    requires PlainRank(r) && At(s, i, r) && At(s, i + |r|, "/") && n >= 1
    ensures PatternRank(r, true) ==> RanksEnd(s, i, n) == RanksEnd(s, i + |r| + 1, n - 1)
    ensures !PatternRank(r, true) ==> RanksEnd(s, i, n) == None
  {
    assert s[i + |r|] == "/"[0];
    RunOverRank(s, i, r, true);
    var j := RunEnd(s, i, true);
    if j == i + |r| && r != [] {
      RanksEndStep(s, i, n, j);
    } else {
      RanksEndStop(s, i, n, j);
    }
  }

  /** The last rank, followed by whitespace. */
  lemma LastRank(s: string, i: nat, r: string)
    requires PlainRank(r) && At(s, i, r) && i + |r| < |s| && s[i + |r|] == ' '
    ensures var e := RanksEnd(s, i, 0);
      && (e == Some(i + |r|) <==> PatternRank(r, false))
      && (e.Some? ==> e.value <= i + |r|)
      && (e.Some? && e.value < i + |r| ==> !IsSpace(s[e.value]))
  {
    RunOverRank(s, i, r, false);
  }

  /** A rank that the run crosses up to a `/`: the ranks after it are matched next. */
  lemma RanksEndStep(s: string, i: nat, n: nat, j: nat)
    requires i <= |s| && n >= 1 && j == RunEnd(s, i, true)
    requires i < j < |s| && s[j] == '/'
    ensures RanksEnd(s, i, n) == RanksEnd(s, j + 1, n - 1)
  {
  }

  /** A rank on which the run stops short, or which is empty: no match. */
  lemma RanksEndStop(s: string, i: nat, n: nat, j: nat)
    requires i <= |s| && n >= 1 && j == RunEnd(s, i, true)
    requires j == i || j == |s| || s[j] != '/'
    ensures RanksEnd(s, i, n) == None
  {
  }

  /**
   * The placement field of the pattern over eight ranks followed by whitespace: it ends where
   * the ranks end exactly when the ranks are those of the pattern; where it ends earlier, the
   * character there is not whitespace.
   */
  lemma BoardJoin(s: string, ranks: seq<string>)
    requires |ranks| == 8 && forall k :: 0 <= k < 8 ==> PlainRank(ranks[k])
    requires At(s, 0, JoinSlash(ranks)) && |JoinSlash(ranks)| < |s| && s[|JoinSlash(ranks)|] == ' '
    ensures var e := BoardEnd(s);
      && (e == Some(|JoinSlash(ranks)|) <==> PatternRanks(ranks))
      && (e.Some? && e.value != |JoinSlash(ranks)| ==> e.value < |JoinSlash(ranks)| && !IsSpace(s[e.value]))
  {
    var r := ranks[0];
    var later := JoinSlash(ranks[1..]);
    assert JoinSlash(ranks) == r + "/" + later;
    AtSplit(s, 0, r + "/", later);
    AtSplit(s, 0, r, "/");
    assert s[|r|] == "/"[0];
    RunOverRank(s, 0, r, false);
    RanksJoin(s, |r| + 1, ranks[1..], 6, |JoinSlash(ranks)|);
  }

  // ---------------------------------------------------------------------------------------
  // The fields after the placement
  // ---------------------------------------------------------------------------------------

  /**
   * Greedy `K?Q?k?q?` over a castling text followed by a character that is not a letter:
   * it never passes the text, and it consumes all of it exactly when the text is in order.
   */
  lemma {:induction false} GreedyLetters(s: string, i: nat, castle: string, letters: string)
    requires At(s, i, castle) && i + |castle| < |s|
    requires s[i + |castle|] !in letters
    ensures OptionalLetters(s, i, letters) <= i + |castle|
    ensures OptionalLetters(s, i, letters) == i + |castle| <==> InOrder(castle, letters)
    decreases letters
  {
    if letters == [] {
    } else if i < |s| && s[i] == letters[0] {
      if castle != [] {
        assert castle[0] == s[i];
        assert forall k :: 0 <= k < |castle| - 1 ==> s[i + 1 + k] == castle[1..][k];
        GreedyLetters(s, i + 1, castle[1..], letters[1..]);
      }
    } else {
      if castle != [] {
        assert castle[0] == s[i];
      }
      GreedyLetters(s, i, castle, letters[1..]);
    }
  }

  /** A text whose first character is no letter at all is not in order. */
  lemma {:induction false} NotInOrder(castle: string, letters: string)
    requires castle != [] && castle[0] !in letters
    ensures !InOrder(castle, letters)
    decreases letters
  {
    if letters != [] {
      NotInOrder(castle, letters[1..]);
    }
  }

  /** The en-passant group over a last field: it matches exactly when the field starts that way. */
  lemma PassantWord(s: string, t: nat, ep: string)
    requires At(s, t, ep) && t + |ep| == |s| && IsWord(ep)
    ensures PassantAt(s, t) <==> PassantField(ep)
  {
    assert s[t] == ep[0];
    if |ep| >= 2 {
      assert s[t + 1] == ep[1];
    }
  }

  /**
   * The castling group and the whitespace after it, over a castling field followed by
   * whitespace: they match, ending after that whitespace character, exactly when the field is
   * of the group's form.
   */
  lemma CastleWord(s: string, i: nat, castle: string)
    requires At(s, i, castle) && i + |castle| < |s| && s[i + |castle|] == ' '
    requires IsWord(castle) || castle == []
    ensures CastleEnd(s, i) == if CastleField(castle) then Some(i + |castle| + 1) else None
  {
    if castle != [] && castle[0] == '-' {
      assert s[i] == castle[0];
      NotInOrder(castle, "KQkq");
      if |castle| >= 2 {
        assert s[i + 1] == castle[1];
      }
    } else {
      GreedyLetters(s, i, castle, "KQkq");
      var p := OptionalLetters(s, i, "KQkq");
      if p < i + |castle| {
        assert s[p] == castle[p - i];
      }
    }
  }

  /**
   * The castling group, whitespace and the en-passant group over `castle enPassant` at the end
   * of the line: they match exactly when both fields are of their group's form.
   */
  lemma CastleThenPassant(s: string, i: nat, castle: string, ep: string)
    requires At(s, i, castle + (" " + ep)) && i + |castle| + |ep| + 1 == |s|
    requires (IsWord(castle) || castle == []) && IsWord(ep)
    ensures (match CastleEnd(s, i) case None => false case Some(t) => PassantAt(s, t)) <==>
      CastleField(castle) && PassantField(ep)
  {
    AtSplit(s, i, castle, " " + ep);
    AtSplit(s, i + |castle|, " ", ep);
    assert s[i + |castle|] == " "[0];
    CastleWord(s, i, castle);
    PassantWord(s, i + |castle| + 1, ep);
  }

  /**
   * The rest of the pattern over ` colour castle enPassant` at the end of the line: it matches
   * exactly when the colour is `w` or `b`, the castling field is in the castling group and the
   * en-passant field starts the way the pattern asks.
   */
  lemma RestOfLine(s: string, j: nat, colour: string, castle: string, ep: string)
    requires At(s, j, " " + (colour + (" " + (castle + (" " + ep)))))
    requires j + |colour| + |castle| + |ep| + 3 == |s|
    requires IsWord(colour) && (IsWord(castle) || castle == []) && IsWord(ep)
    ensures RestMatches(s, j) <==> (colour == "w" || colour == "b") && CastleField(castle) && PassantField(ep)
  {
    AtSplit(s, j, " ", colour + (" " + (castle + (" " + ep))));
    AtSplit(s, j + 1, colour, " " + (castle + (" " + ep)));
    assert s[j] == " "[0];
    assert s[j + 1] == colour[0];
    if |colour| >= 2 {
      assert s[j + 2] == colour[1];
    } else {
      AtSplit(s, j + 2, " ", castle + (" " + ep));
      assert s[j + 2] == " "[0];
      CastleThenPassant(s, j + 3, castle, ep);
    }
  }

  /**
   * `re.match` of the format pattern over eight ranks and three further fields: it succeeds
   * exactly when the ranks, the colour, the castling group and the en-passant group are each
   * of the pattern's form.
   */
  lemma FormatCheck(ranks: seq<string>, colour: string, castle: string, ep: string)
    requires |ranks| == 8 && forall k :: 0 <= k < 8 ==> PlainRank(ranks[k])
    requires IsWord(colour) && (IsWord(castle) || castle == []) && IsWord(ep)
    ensures MatchesPattern(FenLine(JoinSlash(ranks), colour, castle, ep)) <==>
      && PatternRanks(ranks)
      && (colour == "w" || colour == "b")
      && CastleField(castle)
      && PassantField(ep)
  {
    var board := JoinSlash(ranks);
    var rest := " " + (colour + (" " + (castle + (" " + ep))));
    LineShape(board, colour, castle, ep);
    AtAppend(board, rest);
    assert (board + rest)[|board|] == rest[0];
    BoardJoin(board + rest, ranks);
    RestOfLine(board + rest, |board|, colour, castle, ep);
  }

  // ---------------------------------------------------------------------------------------
  // Splitting on whitespace
  // ---------------------------------------------------------------------------------------

  /** A word is split into itself. */
  lemma FieldsWord(w: string)
    requires IsWord(w)
    ensures Fields(w) == [w]
  {
  }

  /** The two ends of a text made of three parts. */
  lemma Ends(a: string, b: string, c: string)
    ensures (a + (b + c))[..|a|] == a && (a + (b + c))[|a| + |b|..] == c
  {
    var s := a + (b + c);
    assert s[|a|..] == b + c;
    assert s[|a| + |b|..] == s[|a|..][|b|..];
  }

  /** The word at the start of `first + (gap + rest)` is `first`. */
  lemma WordThenGap(first: string, gap: string, rest: string)
    requires IsWord(first) && gap != [] && IsSpace(gap[0])
    ensures WordEnd(first + (gap + rest), 0) == |first|
  {
    var s := first + (gap + rest);
    assert s[|first|] == gap[0];
  }

  /** The whitespace after `first` in `first + (gap + rest)` is `gap`. */
  lemma GapThenRest(first: string, gap: string, rest: string)
    requires (forall k :: 0 <= k < |gap| ==> IsSpace(gap[k])) && rest != [] && !IsSpace(rest[0])
    ensures SpaceEnd(first + (gap + rest), |first|) == |first| + |gap|
  {
    var s := first + (gap + rest);
    assert s[|first| + |gap|] == rest[0];
  }

  /** A word, a run of whitespace and a text that starts with a non-space: the word comes first. */
  lemma FieldsCons(first: string, gap: string, rest: string)
    requires IsWord(first) && gap != [] && (forall k :: 0 <= k < |gap| ==> IsSpace(gap[k]))
    requires rest != [] && !IsSpace(rest[0])
    ensures Fields(first + (gap + rest)) == [first] + Fields(rest)
  {
    var s := first + (gap + rest);
    WordThenGap(first, gap, rest);
    GapThenRest(first, gap, rest);
    Ends(first, gap, rest);
    assert Fields(s) == [s[..|first|]] + Fields(s[|first| + |gap|..]);
  }

  /** A line grouped from the right. */
  lemma LineShape(placement: string, colour: string, castle: string, ep: string)
    ensures FenLine(placement, colour, castle, ep) == placement + (" " + (colour + (" " + (castle + (" " + ep)))))
  {
  }

  /** The four fields of a line, in order. */
  lemma FieldsOfLine(placement: string, colour: string, castle: string, ep: string)
    requires IsWord(placement) && IsWord(colour) && IsWord(castle) && IsWord(ep)
    ensures Fields(FenLine(placement, colour, castle, ep)) == [placement, colour, castle, ep]
  {
    LineShape(placement, colour, castle, ep);
    FieldsWord(ep);
    FieldsCons(castle, " ", ep);
    FieldsCons(colour, " ", castle + (" " + ep));
    FieldsCons(placement, " ", colour + (" " + (castle + (" " + ep))));
    FourFields(Fields(FenLine(placement, colour, castle, ep)), placement, colour, castle, ep);
  }

  /** Four fields consed one by one form the four-element list. */
  lemma FourFields(fs: seq<string>, a: string, b: string, c: string, d: string)
    requires fs == [a] + ([b] + ([c] + [d]))
    ensures fs == [a, b, c, d]
  {
  }

  /** With an empty castling field the two spaces around it fall together: three fields remain. */
  lemma FieldsOfShortLine(placement: string, colour: string, ep: string)
    requires IsWord(placement) && IsWord(colour) && IsWord(ep)
    ensures Fields(FenLine(placement, colour, "", ep)) == [placement, colour, ep]
  {
    FieldsWord(ep);
    FieldsCons(colour, "  ", ep);
    assert FenLine(placement, colour, "", ep) == placement + (" " + (colour + ("  " + ep)));
    FieldsCons(placement, " ", colour + ("  " + ep));
  }

  // ---------------------------------------------------------------------------------------
  // What `Fen(fen)` makes of a line
  // ---------------------------------------------------------------------------------------

  /** Ranks without `/` or whitespace, joined by `/`, form one word. */
  lemma {:induction false} JoinedWord(ranks: seq<string>)
    requires |ranks| >= 2 && forall k :: 0 <= k < |ranks| ==> PlainRank(ranks[k])
    ensures IsWord(JoinSlash(ranks))
    decreases |ranks|
  {
    var r := ranks[0];
    var later := JoinSlash(ranks[1..]);
    assert JoinSlash(ranks) == r + "/" + later;
    if |ranks| > 2 {
      JoinedWord(ranks[1..]);
    } else {
      assert later == ranks[1];
    }
    forall k | 0 <= k < |r + "/" + later|
      ensures !IsSpace((r + "/" + later)[k])
    {
      if k < |r| {
        assert (r + "/" + later)[k] == r[k];
      } else if k > |r| {
        assert (r + "/" + later)[k] == later[k - |r| - 1];
      }
    }
  }

  /** The ranks of a field, with no `/` inside any of them, as `SplitJoin` wants them. */
  lemma NoSlashInside(ranks: seq<string>)
    requires forall k :: 0 <= k < |ranks| ==> PlainRank(ranks[k])
    ensures forall p :: p in ranks ==> '/' !in p
  {
    forall p | p in ranks
      ensures '/' !in p
    {
      var k :| 0 <= k < |ranks| && ranks[k] == p;
      assert PlainRank(p);
    }
  }

  /** What `Fen(fen)` reads from a line that passes the format check. */
  function FieldRecord(board: Placements, colour: string, castle: string, ep: string): FenRecord
  {
    FenRecord(board, if colour == "w" then White else Black,
      ParseCastleSpec(castle, White), ParseCastleSpec(castle, Black), if ep == "-" then None else Some(ep))
  }

  /**
   * `Fen(fen)` on eight ranks and three fields separated by single spaces: a line the format
   * pattern rejects raises FenIncorrectFormatError; otherwise the board is the ranks parsed in
   * order (or the IndexError of a rank with too many pieces), the player is White exactly for
   * `w`, both colours read the castling field, and `-` means no en-passant square.
   */
  lemma ParseWellFormed(ranks: seq<string>, colour: string, castle: string, ep: string)
    requires |ranks| == 8 && forall k :: 0 <= k < 8 ==> PlainRank(ranks[k])
    requires IsWord(colour) && IsWord(castle) && IsWord(ep)
    ensures var r := ParseFen(FenLine(JoinSlash(ranks), colour, castle, ep));
      && (r == Err(FenIncorrectFormat) <==>
          !(PatternRanks(ranks) && (colour == "w" || colour == "b") && CastleField(castle) && PassantField(ep)))
      && (r != Err(FenIncorrectFormat) ==>
          r == (var board :- ParseRows(ranks, 0, []); Ok(FieldRecord(board, colour, castle, ep))))
  {
    var line := FenLine(JoinSlash(ranks), colour, castle, ep);
    assert |line| > 0;
    FormatCheck(ranks, colour, castle, ep);
    if MatchesPattern(line) {
      JoinedWord(ranks);
      FieldsOfLine(JoinSlash(ranks), colour, castle, ep);
      NoSlashInside(ranks);
      SplitJoin(ranks);
      ParseAccepted(line, ranks, colour, castle, ep);
      RowsNeverMisformat(ranks, 0, []);
    }
  }

  /** A non-empty line that passes the format check and splits into the given four fields. */
  lemma ParseAccepted(line: string, ranks: seq<string>, colour: string, castle: string, ep: string)
    requires line != [] && MatchesPattern(line) && Fields(line) == [JoinSlash(ranks), colour, castle, ep]
    requires SplitSlash(JoinSlash(ranks)) == ranks && (colour == "w" || colour == "b")
    ensures ParseFen(line) == (var board :- ParseRows(ranks, 0, []); Ok(FieldRecord(board, colour, castle, ep)))
  {
  }

  /** Parsing ranks fails, if at all, with IndexError. */
  lemma {:induction false} RowsNeverMisformat(rows: seq<string>, row: nat, acc: Placements)
    ensures ParseRows(rows, row, acc).Err? ==> ParseRows(rows, row, acc).error == IndexError
    decreases |rows|
  {
    if rows != [] {
      RowNeverMisformats(rows[0], row, 0, acc);
      if ParseRow(rows[0], row, 0, acc).Ok? {
        RowsNeverMisformat(rows[1..], row + 1, ParseRow(rows[0], row, 0, acc).value);
      }
    }
  }

  /** Parsing one rank fails, if at all, with IndexError. */
  lemma {:induction false} RowNeverMisformats(text: string, row: nat, col: nat, acc: Placements)
    ensures ParseRow(text, row, col, acc).Err? ==> ParseRow(text, row, col, acc).error == IndexError
    decreases |text|
  {
    if text != [] {
      if PieceOfLetter(text[0]).Some? {
        if col < 8 && row < 8 {
          RowNeverMisformats(text[1..], row, col + 1, acc + [(SquareName(col, row), PieceOfLetter(text[0]).value)]);
        }
      } else if '1' <= text[0] <= '8' {
        RowNeverMisformats(text[1..], row, col + (text[0] as int - '0' as int), acc);
      } else {
        RowNeverMisformats(text[1..], row, col, acc);
      }
    }
  }

  /**
   * An empty castling field passes the format pattern, but splitting on whitespace then gives
   * three fields, and reading the fourth raises IndexError (after the board, whose own
   * IndexError comes first).
   */
  lemma EmptyCastling(ranks: seq<string>, colour: string, ep: string)
    requires |ranks| == 8 && forall k :: 0 <= k < 8 ==> PlainRank(ranks[k])
    requires IsWord(colour) && IsWord(ep)
    ensures var r := ParseFen(FenLine(JoinSlash(ranks), colour, "", ep));
      && (r == Err(FenIncorrectFormat) <==>
          !(PatternRanks(ranks) && (colour == "w" || colour == "b") && PassantField(ep)))
      && (r != Err(FenIncorrectFormat) ==> r == Err(IndexError))
  {
    var line := FenLine(JoinSlash(ranks), colour, "", ep);
    assert |line| > 0;
    FormatCheck(ranks, colour, "", ep);
    assert CastleField("");
    JoinedWord(ranks);
    FieldsOfShortLine(JoinSlash(ranks), colour, ep);
    NoSlashInside(ranks);
    SplitJoin(ranks);
    RowsNeverMisformat(ranks, 0, []);
  }

  // ---------------------------------------------------------------------------------------
  // Placement fields that fit the board
  // ---------------------------------------------------------------------------------------

  /** At most eight piece letters and nothing else. */
  predicate PieceLetters(text: string)
  {
    |text| <= 8 && forall k :: 0 <= k < |text| ==> PieceOfLetter(text[k]).Some?
  }

  /** The pieces of ranks that are each `8` or piece letters only. */
  function PieceCount(rows: seq<string>): nat
  {
    if rows == [] then 0 else (if rows[0] == "8" then 0 else |rows[0]|) + PieceCount(rows[1..])
  }

  /** Piece letters that fit in the rest of a rank are each placed: no IndexError. */
  lemma {:induction false} LettersFit(text: string, row: nat, col: nat, acc: Placements)
    requires row < 8 && col + |text| <= 8 && forall k :: 0 <= k < |text| ==> PieceOfLetter(text[k]).Some?
    ensures ParseRow(text, row, col, acc).Ok? && |ParseRow(text, row, col, acc).value| == |acc| + |text|
    decreases |text|
  {
    if text != [] {
      assert PieceOfLetter(text[0]).Some?;
      LettersFit(text[1..], row, col + 1, acc + [(SquareName(col, row), PieceOfLetter(text[0]).value)]);
    }
  }

  /**
   * At most eight ranks, each empty (`8`) or at most eight piece letters: the placement field
   * parses, with one placement per letter.
   */
  lemma {:induction false} RowsFit(rows: seq<string>, row: nat, acc: Placements)
    requires row + |rows| <= 8 && forall k :: 0 <= k < |rows| ==> rows[k] == "8" || PieceLetters(rows[k])
    ensures ParseRows(rows, row, acc).Ok? && |ParseRows(rows, row, acc).value| == |acc| + PieceCount(rows)
    decreases |rows|
  {
    if rows != [] {
      if rows[0] == "8" {
        assert ParseRow(rows[0], row, 0, acc) == Ok(acc);
      } else {
        LettersFit(rows[0], row, 0, acc);
      }
      RowsFit(rows[1..], row + 1, ParseRow(rows[0], row, 0, acc).value);
    }
  }

  // ---------------------------------------------------------------------------------------
  // The starting position and the cases of tests/board/test_fen.py
  // ---------------------------------------------------------------------------------------

  /** The board of the starting position, as `_parse_board` reads it. */
  function StartBoard(): Placements
  {
    var rows := ParseRows(StartRanks(), 0, []);
    if rows.Ok? then rows.value else []
  }

  /** The starting ranks hold neither `/` nor whitespace. */
  lemma StartPlain()
    ensures |StartRanks()| == 8 && forall k :: 0 <= k < 8 ==> PlainRank(StartRanks()[k])
  {
  }

  /** The starting ranks are of the pattern's form. */
  lemma StartPattern()
    ensures PatternRanks(StartRanks())
  {
  }

  /** The starting ranks parse into 32 placements. */
  lemma StartFits(ranks: seq<string>)
    requires ranks == StartRanks()
    ensures ParseRows(ranks, 0, []) == Ok(StartBoard()) && |StartBoard()| == 32
  {
    assert ParseRows(ranks, 0, []).Ok? && |ParseRows(ranks, 0, []).value| == PieceCount(ranks) by {
      StartShape(ranks);
      RowsFit(ranks, 0, []);
    }
    assert PieceCount(ranks) == 32 by {
      StartCount(ranks);
    }
  }

  /** Each starting rank is `8` or at most eight piece letters. */
  lemma StartShape(ranks: seq<string>)
    requires ranks == StartRanks()
    ensures |ranks| == 8 && forall k :: 0 <= k < 8 ==> ranks[k] == "8" || PieceLetters(ranks[k])
  {
    forall k | 0 <= k < 8
      ensures ranks[k] == "8" || PieceLetters(ranks[k])
    {
      if k != 0 && k != 1 && k != 6 && k != 7 {
        assert ranks[k] == "8";
      }
    }
  }

  /** The starting ranks hold 32 piece letters. */
  lemma StartCount(ranks: seq<string>)
    requires ranks == StartRanks()
    ensures PieceCount(ranks) == 32
  {
  }

  /** A line over the starting ranks: rejected by the format check, or read field by field. */
  lemma StartLine(ranks: seq<string>, colour: string, castle: string, ep: string)
    requires ranks == StartRanks()
    requires IsWord(colour) && IsWord(castle) && IsWord(ep)
    ensures ParseFen(FenLine(JoinSlash(ranks), colour, castle, ep)) ==
      if (colour == "w" || colour == "b") && CastleField(castle) && PassantField(ep)
      then Ok(FieldRecord(StartBoard(), colour, castle, ep))
      else Err(FenIncorrectFormat)
  {
    StartPlain();
    StartPattern();
    StartFits(ranks);
    ParseWellFormed(ranks, colour, castle, ep);
  }

  /** The line `Fen()` and `Fen('')` fall back to is the starting ranks followed by `w KQkq -`. */
  lemma DefaultLine(ranks: seq<string>)
    requires ranks == StartRanks()
    ensures DefaultFen == FenLine(JoinSlash(ranks), "w", "KQkq", "-")
  {
  }

  /**
   * What `Fen()` and `Fen('')` read: the starting position, 32 pieces, White to move, both
   * colours may castle on both sides (RIGHT first, as the letters come), no en-passant square.
   * The ranks are passed in so that the line is not evaluated as a literal.
   */
  lemma DefaultPosition(ranks: seq<string>, colour: string, castle: string, ep: string)
    requires ranks == StartRanks() && colour == "w" && castle == "KQkq" && ep == "-"
    ensures ParseFen(FenLine(JoinSlash(ranks), colour, castle, ep)) ==
      Ok(FenRecord(StartBoard(), White, [Right, Left], [Right, Left], None))
  {
    DefaultRecord(StartBoard(), colour, castle, ep);
    StartLine(ranks, colour, castle, ep);
  }

  lemma DefaultRecord(board: Placements, colour: string, castle: string, ep: string)
    requires colour == "w" && castle == "KQkq" && ep == "-"
    ensures IsWord(colour) && IsWord(castle) && IsWord(ep)
    ensures CastleField(castle) && PassantField(ep)
    ensures FieldRecord(board, colour, castle, ep) ==
      FenRecord(board, White, [Right, Left], [Right, Left], None)
  {
    DefaultCastling();
  }

  /** `KQkq`: of the castling group's form, and both colours may castle on both sides. */
  lemma DefaultCastling()
    ensures CastleField("KQkq")
  {
  }

  /** The empty ranks: plain, of the pattern's form, and parsing into no placement. */
  lemma EmptyFacts()
    ensures var ranks := ["8", "8", "8", "8", "8", "8", "8", "8"];
      && |ranks| == 8 && (forall k :: 0 <= k < 8 ==> PlainRank(ranks[k])) && PatternRanks(ranks)
      && ParseRows(ranks, 0, []) == Ok([])
  {
    var ranks := ["8", "8", "8", "8", "8", "8", "8", "8"];
    assert forall k :: 0 <= k < 8 ==> ranks[k] == "8";
    RowsFit(ranks, 0, []);
    assert PieceCount(ranks) == 0;
  }

  /** `8/8/8/8/8/8/8/8 w - -`: an empty board, White to move, no castling, no en-passant square. */
  lemma EmptyBoardLine(ranks: seq<string>)
    requires ranks == ["8", "8", "8", "8", "8", "8", "8", "8"]
    ensures ParseFen(FenLine(JoinSlash(ranks), "w", "-", "-")) == Ok(FenRecord([], White, [], [], None))
  {
    EmptyFacts();
    ParseWellFormed(ranks, "w", "-", "-");
  }

  /**
   * The castling texts of the tests, read for each colour: each colour takes the letters of its
   * own case, in the order written, K/k as RIGHT and Q/q as LEFT.
   */
  lemma CastleCases()
    ensures ParseCastleSpec("KQ", White) == [Right, Left] && ParseCastleSpec("KQ", Black) == []
    ensures ParseCastleSpec("Kk", White) == [Right] && ParseCastleSpec("Kk", Black) == [Right]
    ensures ParseCastleSpec("Qq", White) == [Left] && ParseCastleSpec("Qq", Black) == [Left]
    ensures ParseCastleSpec("kq", White) == [] && ParseCastleSpec("kq", Black) == [Right, Left]
    ensures ParseCastleSpec("Kkq", White) == [Right] && ParseCastleSpec("Kkq", Black) == [Right, Left]
    ensures ParseCastleSpec("KQk", White) == [Right, Left] && ParseCastleSpec("KQk", Black) == [Right]
    ensures ParseCastleSpec("-", White) == [] && ParseCastleSpec("-", Black) == []
  {
  }

  /** An en-passant square on rank 5: rejected by the format check, whatever the ranks. */
  lemma RejectedPassant(ranks: seq<string>, colour: string, castle: string, ep: string)
    requires |ranks| == 8 && forall k :: 0 <= k < 8 ==> PlainRank(ranks[k])
    requires colour == "w" && castle == "KQ" && ep == "f5"
    ensures ParseFen(FenLine(JoinSlash(ranks), colour, castle, ep)) == Err(FenIncorrectFormat)
  {
    assert IsWord(colour) && IsWord(castle) && IsWord(ep) by { WordFacts(colour, castle, ep); }
    assert !PassantField(ep);
    ParseWellFormed(ranks, colour, castle, ep);
  }

  /** The active colour `y`: rejected by the format check, whatever the ranks. */
  lemma RejectedColour(ranks: seq<string>, colour: string, castle: string, ep: string)
    requires |ranks| == 8 && forall k :: 0 <= k < 8 ==> PlainRank(ranks[k])
    requires colour == "y" && castle == "KQ" && ep == "-"
    ensures ParseFen(FenLine(JoinSlash(ranks), colour, castle, ep)) == Err(FenIncorrectFormat)
  {
    assert IsWord(colour) && IsWord(castle) && IsWord(ep) by { WordFacts(colour, castle, ep); }
    ParseWellFormed(ranks, colour, castle, ep);
  }

  /** The castling text `KQw`: rejected by the format check, whatever the ranks. */
  lemma RejectedCastle(ranks: seq<string>, colour: string, castle: string, ep: string)
    requires |ranks| == 8 && forall k :: 0 <= k < 8 ==> PlainRank(ranks[k])
    requires colour == "w" && castle == "KQw" && ep == "-"
    ensures ParseFen(FenLine(JoinSlash(ranks), colour, castle, ep)) == Err(FenIncorrectFormat)
  {
    assert IsWord(colour) && IsWord(castle) && IsWord(ep) by { WordFacts(colour, castle, ep); }
    CastleKQw(castle);
    ParseWellFormed(ranks, colour, castle, ep);
  }

  /** Fields spelled from the letters `w`, `y`, `K`, `Q`, `f`, `5` and `-` are words. */
  lemma WordFacts(colour: string, castle: string, ep: string)
    requires colour != [] && castle != [] && ep != []
    requires forall c :: c in colour + castle + ep ==> c in "wyKQf5-"
    ensures IsWord(colour) && IsWord(castle) && IsWord(ep)
  {
    forall w, k | w in [colour, castle, ep] && 0 <= k < |w|
      ensures !IsSpace(w[k])
    {
      assert w[k] in colour + castle + ep;
    }
  }

  /** `KQw`: not of the castling group's form, since `w` is no castling letter. */
  lemma CastleKQw(castle: string)
    requires castle == "KQw"
    ensures !CastleField(castle)
  {
    assert !InOrder("w", "q");
  }

  /** The ranks of the `9` case: plain, but not of the pattern's form. */
  lemma NineFacts()
    ensures var ranks := ["rnbqkbnr", "pppppppp", "9", "8", "8", "8", "PPPPPPPP", "RNBQKBNR"];
      |ranks| == 8 && (forall k :: 0 <= k < 8 ==> PlainRank(ranks[k])) && !PatternRanks(ranks)
  {
    var ranks := ["rnbqkbnr", "pppppppp", "9", "8", "8", "8", "PPPPPPPP", "RNBQKBNR"];
    assert ranks[2][0] == '9' && !RankChar('9', true);
    assert !PatternRank(ranks[2], true);
  }

  /** A `9` in the placement: rejected by the format check. */
  lemma RejectedNine(ranks: seq<string>)
    requires ranks == ["rnbqkbnr", "pppppppp", "9", "8", "8", "8", "PPPPPPPP", "RNBQKBNR"]
    ensures ParseFen(FenLine(JoinSlash(ranks), "w", "KQ", "-")) == Err(FenIncorrectFormat)
  {
    NineFacts();
    ParseWellFormed(ranks, "w", "KQ", "-");
  }

  // ---------------------------------------------------------------------------------------
  // Whole generated lines read back
  // ---------------------------------------------------------------------------------------

  /** A cell written with its subclass letter, holding no pawn unless `pawns`. */
  predicate WritableCell(c: Option<Piece>, pawns: bool)
  {
    c.Some? ==> c.value.letter == Letter(c.value.kind, c.value.color) && (pawns || c.value.kind != Pawn)
  }

  /** No pawn stands on rank 8 or rank 1, the ranks the pattern keeps free of `p` and `P`. */
  predicate NoPawnOnEdge(board: BoardMap)
  {
    forall col: nat, row: nat ::
      col < 8 && row < 8 && (row == 0 || row == 7) && SquareName(col, row) in board && board[SquareName(col, row)].Some?
      ==> board[SquareName(col, row)].value.kind != Pawn
  }

  /** Castling sides the `K?Q?` (`k?q?`) group can spell: RIGHT before LEFT, each at most once. */
  predicate WritableSides(ds: seq<Direction>)
  {
    ds == [] || ds == [Right] || ds == [Left] || ds == [Right, Left]
  }

  /** An en-passant value the pattern accepts once written: none, or a square on rank 3 or 6. */
  predicate WritablePassant(ep: Option<string>)
  {
    ep.None? || ep.value == "" || (|ep.value| == 2 && 'a' <= ep.value[0] <= 'h' && (ep.value[1] == '3' || ep.value[1] == '6'))
  }

  /** A rank character is neither `/` nor whitespace. */
  lemma RankCharPlain(ch: char, pawns: bool)
    requires RankChar(ch, pawns)
    ensures ch != '/' && !IsSpace(ch)
  {
  }

  /** Every character of t is a rank character. */
  predicate RankSpelling(t: string, pawns: bool)
  {
    forall k :: 0 <= k < |t| ==> RankChar(t[k], pawns)
  }

  /** Texts spelt in rank characters join into one. */
  lemma SpellingJoins(a: string, b: string, pawns: bool)
    requires RankSpelling(a, pawns) && RankSpelling(b, pawns)
    ensures RankSpelling(a + b, pawns)
  {
    forall k | 0 <= k < |a + b|
      ensures RankChar((a + b)[k], pawns)
    {
      if k < |a| {
        assert (a + b)[k] == a[k];
      } else {
        assert (a + b)[k] == b[k - |a|];
      }
    }
  }

  /** A pending count of at most 8 is written in rank characters. */
  lemma FlushSpelling(count: nat, pawns: bool)
    requires count <= 8
    ensures RankSpelling(Flush(count), pawns)
  {
    if count > 0 {
      var ch := DigitText(count)[0];
      assert ch == '1' || ch == '2' || ch == '3' || ch == '4' || ch == '5' || ch == '6' || ch == '7' || ch == '8';
      assert Flush(count) == [ch];
    }
  }

  /** A subclass letter is a rank character, a pawn's only where pawns are allowed. */
  lemma LetterSpelling(kind: Kind, color: Color, pawns: bool)
    requires pawns || kind != Pawn
    ensures RankSpelling(Letter(kind, color), pawns)
  {
  }

  /** A rank written by `RankText` is spelt in rank characters. */
  lemma {:induction false} RankTextChars(cells: seq<Option<Piece>>, count: nat, pawns: bool)
    requires count + |cells| <= 8
    requires forall c :: c in cells ==> WritableCell(c, pawns)
    ensures RankSpelling(RankText(cells, count), pawns)
    decreases |cells|
  {
    if cells == [] {
      FlushSpelling(count, pawns);
    } else {
      assert cells[0] in cells;
      assert forall c :: c in cells[1..] ==> c in cells;
      if cells[0].Some? {
        var piece := cells[0].value;
        RankTextChars(cells[1..], 0, pawns);
        LetterSpelling(piece.kind, piece.color, pawns);
        FlushSpelling(count, pawns);
        SpellingJoins(Flush(count), piece.letter, pawns);
        SpellingJoins(Flush(count) + piece.letter, RankText(cells[1..], 0), pawns);
      } else {
        RankTextChars(cells[1..], count + 1, pawns);
      }
    }
  }

  /** A rank written by `RankText` is never empty once a square has been seen. */
  lemma {:induction false} RankTextNonEmpty(cells: seq<Option<Piece>>, count: nat, pawns: bool)
    requires 1 <= count + |cells| <= 8
    requires forall c :: c in cells ==> WritableCell(c, pawns)
    ensures RankText(cells, count) != []
    decreases |cells|
  {
    if cells == [] {
      assert Flush(count) == DigitText(count);
    } else if cells[0].None? {
      assert forall c :: c in cells[1..] ==> c in cells;
      RankTextNonEmpty(cells[1..], count + 1, pawns);
    } else {
      assert cells[0] in cells;
      var piece := cells[0].value;
      assert |piece.letter| == 1;
      assert RankText(cells, count) == Flush(count) + piece.letter + RankText(cells[1..], 0);
    }
  }

  /** The cells of a rank of a board with standard letters, and no pawns on rank 8 or 1, are writable. */
  lemma {:induction false} CellsWritable(board: BoardMap, row: nat, col: nat)
    requires Complete(board) && StandardLetters(board) && NoPawnOnEdge(board) && row < 8 && col <= 8
    ensures forall c :: c in Cells(board, row, col) ==> WritableCell(c, row != 0 && row != 7)
    decreases 8 - col
  {
    if col < 8 {
      CellsWritable(board, row, col + 1);
      assert SquareName(col, row) in board;
      assert Cells(board, row, col) == [board[SquareName(col, row)]] + Cells(board, row, col + 1);
    }
  }

  /** Each rank text of such a board is plain and of the pattern's form for its rank. */
  lemma RankWritten(board: BoardMap, row: nat)
    requires Complete(board) && StandardLetters(board) && NoPawnOnEdge(board) && row < 8
    ensures var t := RankText(Cells(board, row, 0), 0);
      PlainRank(t) && PatternRank(t, row != 0 && row != 7)
  {
    var pawns := row != 0 && row != 7;
    var t := RankText(Cells(board, row, 0), 0);
    CellsWritable(board, row, 0);
    RankTextChars(Cells(board, row, 0), 0, pawns);
    RankTextNonEmpty(Cells(board, row, 0), 0, pawns);
    forall k | 0 <= k < |t|
      ensures t[k] != '/' && !IsSpace(t[k])
    {
      RankCharPlain(t[k], pawns);
    }
  }

  /** The k-th text from the `row`-th rank on is that of rank `row + k`. */
  lemma {:induction false} RankTextsAt(board: BoardMap, row: nat, k: nat)
    requires Complete(board) && row + k < 8
    ensures RankTexts(board, row)[k] == RankText(Cells(board, row + k, 0), 0)
    decreases k
  {
    if k > 0 {
      RankTextsAt(board, row + 1, k - 1);
    }
  }

  /** Ranks that may hold pawns followed by one that may not. */
  lemma {:induction false} InnerThenLastIntro(rs: seq<string>)
    requires |rs| >= 1 && PatternRank(rs[|rs| - 1], false)
    requires forall k :: 0 <= k < |rs| - 1 ==> PatternRank(rs[k], true)
    ensures InnerThenLast(rs)
    decreases |rs|
  {
    if |rs| > 1 {
      InnerThenLastIntro(rs[1..]);
    }
  }

  /** Eight ranks, each plain, together of the pattern's form. */
  predicate WrittenRanks(ranks: seq<string>)
  {
    |ranks| == 8 && (forall k :: 0 <= k < 8 ==> PlainRank(ranks[k])) && PatternRanks(ranks)
  }

  /** The eight rank texts of such a board are plain and together of the pattern's form. */
  lemma GeneratedRanks(board: BoardMap)
    requires Complete(board) && StandardLetters(board) && NoPawnOnEdge(board)
    ensures WrittenRanks(RankTexts(board, 0))
    ensures ParseRows(RankTexts(board, 0), 0, []) == Ok(BoardPlacements(board, 0))
  {
    assert ParseRows(RankTexts(board, 0), 0, []) == Ok(BoardPlacements(board, 0)) by {
      RowsParse(board, 0, []);
      assert [] + BoardPlacements(board, 0) == BoardPlacements(board, 0);
    }
    RanksWritten(board, RankTexts(board, 0));
  }

  /** The rank texts of such a board, given by name. */
  lemma RanksWritten(board: BoardMap, ranks: seq<string>)
    requires Complete(board) && StandardLetters(board) && NoPawnOnEdge(board) && ranks == RankTexts(board, 0)
    ensures WrittenRanks(ranks)
  {
    forall k | 0 <= k < 8
      ensures PlainRank(ranks[k])
    {
      RankAt(board, ranks, k);
    }
    var rs := ranks[1..];
    forall k | 0 <= k < |rs| - 1
      ensures PatternRank(rs[k], true)
    {
      RankAt(board, ranks, k + 1);
      assert rs[k] == ranks[k + 1];
    }
    RankAt(board, ranks, 7);
    assert rs[|rs| - 1] == ranks[7];
    InnerThenLastIntro(rs);
    RankAt(board, ranks, 0);
  }

  /** The k-th rank text of such a board is plain and of the pattern's form for its rank. */
  lemma RankAt(board: BoardMap, ranks: seq<string>, k: nat)
    requires Complete(board) && StandardLetters(board) && NoPawnOnEdge(board) && ranks == RankTexts(board, 0) && k < 8
    ensures |ranks| == 8 && PlainRank(ranks[k]) && PatternRank(ranks[k], k != 0 && k != 7)
  {
    RankTextsAt(board, 0, k);
    RankWritten(board, k);
  }

  /** A text without letters of x that matches y in order also matches x + y in order. */
  lemma {:induction false} InOrderSkip(b: string, x: string, y: string)
    requires InOrder(b, y) && forall ch :: ch in b ==> ch !in x
    ensures InOrder(b, x + y)
    decreases |x|
  {
    if b != [] && x != [] {
      assert b[0] in b;
      assert (x + y)[0] == x[0] && (x + y)[1..] == x[1..] + y;
      InOrderSkip(b, x[1..], y);
    } else if x == [] {
      assert x + y == y;
    }
  }

  /** In-order matches of two parts join into an in-order match of the joined letters. */
  lemma {:induction false} InOrderAppend(a: string, b: string, x: string, y: string)
    requires InOrder(a, x) && InOrder(b, y) && forall ch :: ch in b ==> ch !in x
    ensures InOrder(a + b, x + y)
    decreases |x|
  {
    if a == [] {
      assert a + b == b;
      InOrderSkip(b, x, y);
    } else {
      assert (a + b)[0] == a[0] && (a + b)[1..] == a[1..] + b;
      assert (x + y)[0] == x[0] && (x + y)[1..] == x[1..] + y;
      if a[0] == x[0] {
        InOrderAppend(a[1..], b, x[1..], y);
      } else {
        InOrderAppend(a, b, x[1..], y);
      }
    }
  }

  /** The letters one colour writes for writable sides, in the order `K?Q?` (`k?q?`) takes them. */
  lemma SidesWritten(ds: seq<Direction>, color: Color)
    requires WritableSides(ds)
    ensures InOrder(CastleText(ds, color), if color == White then "KQ" else "kq")
    ensures forall ch :: ch in CastleText(ds, color) ==> if color == White then ch in "KQ" else ch in "kq"
  {
  }

  /**
   * The castling field `generate_fen` writes for writable sides: of the pattern's form, a
   * word, and read back as each colour's sides.
   */
  lemma CastleWritten(white: seq<Direction>, black: seq<Direction>)
    requires WritableSides(white) && WritableSides(black)
    ensures var text := CastleText(white, White) + CastleText(black, Black);
      var field := if text == "" then "-" else text;
      && CastleField(field) && IsWord(field)
      && ParseCastleSpec(field, White) == white && ParseCastleSpec(field, Black) == black
  {
    SidesWritten(white, White);
    SidesWritten(black, Black);
    LettersInOrder(CastleText(white, White), CastleText(black, Black));
    CastleRoundTrip(white, black);
  }

  /** White's `K?Q?` letters followed by Black's `k?q?` letters: an in-order word of KQkq. */
  lemma LettersInOrder(w: string, b: string)
    requires InOrder(w, "KQ") && InOrder(b, "kq")
    requires (forall ch :: ch in w ==> ch in "KQ") && (forall ch :: ch in b ==> ch in "kq")
    ensures InOrder(w + b, "KQkq")
    ensures w + b != [] ==> IsWord(w + b)
  {
    InOrderAppend(w, b, "KQ", "kq");
    assert "KQ" + "kq" == "KQkq";
    forall k | 0 <= k < |w + b|
      ensures !IsSpace((w + b)[k])
    {
      assert (w + b)[k] in w + b;
    }
  }

  /** The en-passant field written for a writable value: a word of the pattern's form. */
  lemma PassantWritten(enPassant: Option<string>)
    requires WritablePassant(enPassant)
    ensures var ep := if enPassant.None? || enPassant.value == "" then "-" else enPassant.value;
      IsWord(ep) && PassantField(ep)
  {
  }

  /** The four fields of a written line, read back by the format check and the field reads. */
  lemma WrittenFieldsParse(line: string, ranks: seq<string>, colour: string, castle: string, ep: string, board: Placements)
    requires line != [] && MatchesPattern(line) && Fields(line) == [JoinSlash(ranks), colour, castle, ep]
    requires SplitSlash(JoinSlash(ranks)) == ranks && (colour == "w" || colour == "b")
    requires ParseRows(ranks, 0, []) == Ok(board)
    ensures ParseFen(line) == Ok(FieldRecord(board, colour, castle, ep))
  {
    ParseAccepted(line, ranks, colour, castle, ep);
  }

  /** A written line passes the format check and splits into its four fields and eight ranks. */
  lemma WrittenFieldsSplit(line: string, ranks: seq<string>, colour: string, castle: string, ep: string)
    requires line == FenLine(JoinSlash(ranks), colour, castle, ep) && (colour == "w" || colour == "b")
    requires WrittenRanks(ranks)
    requires IsWord(castle) && CastleField(castle) && IsWord(ep) && PassantField(ep)
    ensures line != [] && MatchesPattern(line) && Fields(line) == [JoinSlash(ranks), colour, castle, ep]
    ensures SplitSlash(JoinSlash(ranks)) == ranks
  {
    FormatCheck(ranks, colour, castle, ep);
    JoinedWord(ranks);
    FieldsOfLine(JoinSlash(ranks), colour, castle, ep);
    NoSlashInside(ranks);
    SplitJoin(ranks);
  }

  /** The record read from the written fields is the one the line was written from. */
  lemma WrittenRecord(board: Placements, player: Color, castle: string, ep: string,
                      white: seq<Direction>, black: seq<Direction>, passant: Option<string>)
    requires ParseCastleSpec(castle, White) == white && ParseCastleSpec(castle, Black) == black
    requires passant == if ep == "-" then None else Some(ep)
    ensures FieldRecord(board, if player == White then "w" else "b", castle, ep) ==
      FenRecord(board, player, white, black, passant)
  {
  }

  /**
   * Whole-line round trip: for a board with every square a key, standard letters and no pawn
   * on rank 8 or 1, castling sides the pattern can spell, and no en-passant square or one on
   * rank 3 or 6, the line the corrected generator writes passes the format check and reads
   * back as the board's pieces, the player, both colours' sides and the en-passant square.
   */
  lemma GeneratedLineParses(board: BoardMap, player: Color, white: seq<Direction>, black: seq<Direction>, enPassant: Option<string>)
    requires Complete(board) && StandardLetters(board) && NoPawnOnEdge(board)
    requires WritableSides(white) && WritableSides(black) && WritablePassant(enPassant)
    ensures GenerateFenFixed(board, player, white, black, enPassant).Ok?
    ensures ParseFen(GenerateFenFixed(board, player, white, black, enPassant).value) ==
      Ok(FenRecord(BoardPlacements(board, 0), player, white, black,
                   if enPassant.None? || enPassant.value == "" then None else enPassant))
  {
    var text := CastleText(white, White) + CastleText(black, Black);
    FixedLine(board, player, white, black, enPassant);
    FixedLineParses(board, player, white, black, enPassant, RankTexts(board, 0), if player == White then "w" else "b",
                    if text == "" then "-" else text, if enPassant.None? || enPassant.value == "" then "-" else enPassant.value);
  }

  /** The line of `FixedLine`, from its ranks and fields, read back. */
  lemma FixedLineParses(board: BoardMap, player: Color, white: seq<Direction>, black: seq<Direction>, enPassant: Option<string>,
                        ranks: seq<string>, colour: string, castle: string, ep: string)
    requires Complete(board) && StandardLetters(board) && NoPawnOnEdge(board)
    requires WritableSides(white) && WritableSides(black) && WritablePassant(enPassant)
    requires ranks == RankTexts(board, 0) && colour == (if player == White then "w" else "b")
    requires var text := CastleText(white, White) + CastleText(black, Black);
      castle == if text == "" then "-" else text
    requires ep == if enPassant.None? || enPassant.value == "" then "-" else enPassant.value
    ensures ParseFen(FenLine(JoinSlash(ranks), colour, castle, ep)) ==
      Ok(FenRecord(BoardPlacements(board, 0), player, white, black,
                   if enPassant.None? || enPassant.value == "" then None else enPassant))
  {
    GeneratedRanks(board);
    CastleWritten(white, black);
    PassantWritten(enPassant);
    WrittenRecord(BoardPlacements(board, 0), player, castle, ep, white, black,
                  if enPassant.None? || enPassant.value == "" then None else enPassant);
    PartsParse(FenLine(JoinSlash(ranks), colour, castle, ep), ranks, colour, castle, ep, BoardPlacements(board, 0));
  }

  /** A line written from ranks and fields of the pattern's form reads back field by field. */
  lemma PartsParse(line: string, ranks: seq<string>, colour: string, castle: string, ep: string, board: Placements)
    requires line == FenLine(JoinSlash(ranks), colour, castle, ep) && (colour == "w" || colour == "b")
    requires WrittenRanks(ranks)
    requires IsWord(castle) && CastleField(castle) && IsWord(ep) && PassantField(ep)
    requires ParseRows(ranks, 0, []) == Ok(board)
    ensures ParseFen(line) == Ok(FieldRecord(board, colour, castle, ep))
  {
    WrittenFieldsSplit(line, ranks, colour, castle, ep);
    WrittenFieldsParse(line, ranks, colour, castle, ep, board);
  }

  /** The corrected generator writes the rank texts and the three fields, single-spaced. */
  lemma FixedLine(board: BoardMap, player: Color, white: seq<Direction>, black: seq<Direction>, enPassant: Option<string>)
    requires Complete(board)
    ensures var text := CastleText(white, White) + CastleText(black, Black);
      GenerateFenFixed(board, player, white, black, enPassant) ==
        Ok(FenLine(JoinSlash(RankTexts(board, 0)), if player == White then "w" else "b",
                   if text == "" then "-" else text,
                   if enPassant.None? || enPassant.value == "" then "-" else enPassant.value))
  {
  }

  /**
   * The same for `generate_fen` as written, on boards whose every rank ends in a piece on the
   * h-file or is empty, where it agrees with the corrected generator.
   */
  lemma AsWrittenLineParses(board: BoardMap, player: Color, white: seq<Direction>, black: seq<Direction>, enPassant: Option<string>)
    requires Complete(board) && StandardLetters(board) && NoPawnOnEdge(board) && RanksEndCleanly(board)
    requires WritableSides(white) && WritableSides(black) && WritablePassant(enPassant)
    ensures GenerateFenSpec(board, player, white, black, enPassant).Ok?
    ensures ParseFen(GenerateFenSpec(board, player, white, black, enPassant).value) ==
      Ok(FenRecord(BoardPlacements(board, 0), player, white, black,
                   if enPassant.None? || enPassant.value == "" then None else enPassant))
  {
    AsWrittenAgrees(board, player, white, black, enPassant);
    GeneratedLineParses(board, player, white, black, enPassant);
  }
}
