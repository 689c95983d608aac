/**
 * Pieces (src/piece/piece.py and its subclasses): a piece is a type, a colour, a captured
 * flag, a one-letter name and a reach table that maps each direction the piece may move in
 * to how far it may go.
 */
module Pieces {
  import opened Wrappers

  datatype Color = White | Black
  datatype Kind = Pawn | Rook | Knight | Bishop | Queen | King

  /** MoveDirection, in the order its members are declared. */
  datatype Direction =
    | Forward | Backward | Left | Right
    | FLeftDiag | FRightDiag | BLeftDiag | BRightDiag
    | LShape

  const AllDirections: seq<Direction> :=
    [Forward, Backward, Left, Right, FLeftDiag, FRightDiag, BLeftDiag, BRightDiag, LShape]

  lemma DirectionsListed()
    ensures forall d: Direction :: d in AllDirections
  {
    forall d: Direction ensures d in AllDirections {
      var i := match d
        case Forward => 0 case Backward => 1 case Left => 2 case Right => 3
        case FLeftDiag => 4 case FRightDiag => 5 case BLeftDiag => 6 case BRightDiag => 7
        case LShape => 8;
      assert AllDirections[i] == d;
    }
  }

  predicate IsDiagonal(d: Direction) { d in {FLeftDiag, FRightDiag, BLeftDiag, BRightDiag} }
  predicate IsOrthogonal(d: Direction) { d in {Forward, Backward, Left, Right} }

  /** A reach-table value: a number of squares (-1 meaning "to the edge") or the knight's flag. */
  datatype Reach = Steps(n: int) | Flag(b: bool)

  /** The number Python sees in a reach value: `True == 1` and `False == 0`. */
  function NumericValue(r: Reach): int
  {
    match r
    case Steps(n) => n
    case Flag(b) => if b then 1 else 0
  }

  /** The class an object was built from: the bare Piece class, or the subclass named after a kind. */
  datatype PieceClass = BaseClass | Subclass(of: Kind)

  /** The state of one piece object; the board holds deep copies, so values suffice. */
  datatype Piece = Piece(
    cls: PieceClass,
    kind: Kind,
    color: Color,
    captured: bool,
    letter: string,
    moves: map<Direction, Reach>)

  /** `Piece.__init__`: not captured, no letter and an empty reach table. */
  function BasePiece(kind: Kind, color: Color): Piece
  {
    Piece(BaseClass, kind, color, false, "", map[])
  }

  /** The letter a subclass stores: upper case for White, lower case for Black. */
  function Letter(kind: Kind, color: Color): (s: string)
    ensures |s| == 1
  {
    var upper := match kind
      case Pawn => 'P' case Rook => 'R' case Knight => 'N'
      case Bishop => 'B' case Queen => 'Q' case King => 'K';
    if color == White then [upper] else [(upper as int + 32) as char]
  }

  /** The reach table each subclass constructor fills in. */
  function ReachTable(kind: Kind): map<Direction, Reach>
  {
    match kind
    case Pawn => map[Forward := Steps(2), FRightDiag := Steps(1), FLeftDiag := Steps(1)]
    case Knight => map[LShape := Flag(true)]
    case Bishop => map[FLeftDiag := Steps(-1), FRightDiag := Steps(-1), BLeftDiag := Steps(-1), BRightDiag := Steps(-1)]
    case Rook => map[Forward := Steps(-1), Backward := Steps(-1), Left := Steps(-1), Right := Steps(-1)]
    case Queen =>
      map[Forward := Steps(-1), Backward := Steps(-1), Left := Steps(-1), Right := Steps(-1),
          FLeftDiag := Steps(-1), FRightDiag := Steps(-1), BLeftDiag := Steps(-1), BRightDiag := Steps(-1)]
    case King =>
      map[Forward := Steps(1), Backward := Steps(1), Left := Steps(2), Right := Steps(2),
          FLeftDiag := Steps(1), FRightDiag := Steps(1), BLeftDiag := Steps(1), BRightDiag := Steps(1)]
  }

  /** The order in which each constructor inserts its reach-table keys. */
  function InsertionOrder(cls: PieceClass): seq<Direction>
  {
    match cls
    case BaseClass => []
    case Subclass(Pawn) => [Forward, FRightDiag, FLeftDiag]
    case Subclass(Knight) => [LShape]
    case Subclass(Bishop) => [FLeftDiag, FRightDiag, BLeftDiag, BRightDiag]
    case Subclass(Rook) => [Forward, Backward, Left, Right]
    case Subclass(_) => [Forward, Backward, Left, Right, FLeftDiag, FRightDiag, BLeftDiag, BRightDiag]
  }

  /** `Pawn(c)`, `Rook(c)`, ...: a fresh piece of a subclass. */
  function NewPiece(kind: Kind, color: Color): Piece
  {
    Piece(Subclass(kind), kind, color, false, Letter(kind, color), ReachTable(kind))
  }

  function Filter(ds: seq<Direction>, keep: set<Direction>): (r: seq<Direction>)
    ensures forall d :: d in r <==> d in ds && d in keep
  {
    if ds == [] then []
    else (if ds[0] in keep then [ds[0]] else []) + Filter(ds[1..], keep)
  }

  /** The first position of d in ds. */
  function IndexIn(ds: seq<Direction>, d: Direction): (i: nat)
    requires d in ds
    ensures i < |ds| && ds[i] == d
    ensures forall j :: 0 <= j < i ==> ds[j] != d
  {
    if ds[0] == d then 0 else 1 + IndexIn(ds[1..], d)
  }

  predicate Distinct(ds: seq<Direction>)
  {
    forall i, j :: 0 <= i < j < |ds| ==> ds[i] != ds[j]
  }

  /** r lists some of the entries of ds, each once, in the order ds lists them. */
  predicate InOrderOf(r: seq<Direction>, ds: seq<Direction>)
  {
    forall i, j :: 0 <= i < j < |r| ==> r[i] in ds && r[j] in ds && IndexIn(ds, r[i]) < IndexIn(ds, r[j])
  }

  /** Filtering a list without repeats keeps its order. */
  lemma {:induction false} FilterInOrder(ds: seq<Direction>, keep: set<Direction>)
    requires Distinct(ds)
    ensures InOrderOf(Filter(ds, keep), ds)
    decreases |ds|
  {
    if ds != [] {
      var tail := ds[1..];
      FilterInOrder(tail, keep);
      forall x | x in tail
        ensures IndexIn(ds, x) == 1 + IndexIn(tail, x)
      {
        var k :| 0 <= k < |tail| && tail[k] == x;
        assert ds[k + 1] == x;
      }
    }
  }

  lemma InsertionOrderDistinct(cls: PieceClass)
    ensures Distinct(InsertionOrder(cls)) && Distinct(AllDirections)
  {
  }

  /**
   * Whether iterating a reach table built by class cls reaches a before b: the constructor's
   * keys come first, in the order it inserts them, and later keys follow in declaration order.
   */
  predicate Precedes(cls: PieceClass, a: Direction, b: Direction)
  {
    var first := InsertionOrder(cls);
    if a in first then b !in first || IndexIn(first, a) < IndexIn(first, b)
    else && b !in first && a in AllDirections && b in AllDirections
         && IndexIn(AllDirections, a) < IndexIn(AllDirections, b)
  }

  /**
   * The order in which iterating the reach table visits its keys: each key once, the
   * constructor's keys first, then any key added later (the board only ever adds LEFT, then
   * RIGHT) in declaration order.
   */
  function ReachOrder(p: Piece): (ds: seq<Direction>)
    ensures forall d :: d in ds <==> d in p.moves
    ensures forall i, j :: 0 <= i < j < |ds| ==> Precedes(p.cls, ds[i], ds[j])
  {
    var first := InsertionOrder(p.cls);
    DirectionsListed();
    var early := Filter(first, p.moves.Keys);
    var late := Filter(AllDirections, p.moves.Keys - set d | d in first);
    InsertionOrderDistinct(p.cls);
    FilterInOrder(first, p.moves.Keys);
    FilterInOrder(AllDirections, p.moves.Keys - set d | d in first);
    JoinPrecedes(p.cls, early, late);
    early + late
  }

  lemma JoinPrecedes(cls: PieceClass, early: seq<Direction>, late: seq<Direction>)
    requires InOrderOf(early, InsertionOrder(cls)) && InOrderOf(late, AllDirections)
    requires forall d :: d in late ==> d !in InsertionOrder(cls)
    requires forall d :: d in early ==> d in InsertionOrder(cls)
    ensures forall i, j :: 0 <= i < j < |early + late| ==> Precedes(cls, (early + late)[i], (early + late)[j])
  {
    var ds := early + late;
    forall i, j | 0 <= i < j < |ds|
      ensures Precedes(cls, ds[i], ds[j])
    {
      if j < |early| {
        assert ds[i] == early[i] && ds[j] == early[j];
      } else if i < |early| {
        assert ds[i] == early[i] && ds[j] == late[j - |early|];
      } else {
        assert ds[i] == late[i - |early|] && ds[j] == late[j - |early|];
      }
    }
  }

  /** Python compares reach values numerically, so `True == 1`. */
  predicate SameReachTable(a: map<Direction, Reach>, b: map<Direction, Reach>)
  {
    a.Keys == b.Keys && forall d :: d in a && d in b ==> NumericValue(a[d]) == NumericValue(b[d])
  }

  /**
   * `Piece.__eq__`: `self` must be an instance of `other`'s class and the attribute
   * dictionaries must be equal. `other == None` stands for any object that is not a piece.
   */
  predicate PieceEquals(self: Piece, other: Option<Piece>)
  {
    && other.Some?
    && (other.value.cls == BaseClass || other.value.cls == self.cls)
    && self.kind == other.value.kind
    && self.color == other.value.color
    && self.captured == other.value.captured
    && self.letter == other.value.letter
    && SameReachTable(self.moves, other.value.moves)
  }

  /** Two fresh pieces compare equal exactly when they have the same kind and colour. */
  lemma FreshPiecesEqual(k1: Kind, c1: Color, k2: Kind, c2: Color)
    ensures PieceEquals(NewPiece(k1, c1), Some(NewPiece(k2, c2))) <==> k1 == k2 && c1 == c2
  {
    if k1 == k2 && c1 == c2 {
      assert SameReachTable(ReachTable(k1), ReachTable(k2));
    } else if Letter(k1, c1) == Letter(k2, c2) {
      LetterDetermines(k1, c1, k2, c2);
    }
  }

  /** Letters are distinct: the letter alone tells kind and colour apart. */
  lemma LetterDetermines(k1: Kind, c1: Color, k2: Kind, c2: Color)
    requires Letter(k1, c1) == Letter(k2, c2)
    ensures k1 == k2 && c1 == c2
  {
    assert Letter(k1, c1)[0] == Letter(k2, c2)[0];
  }

  /**
   * A pawn whose forward reach has been lowered, or a king whose castling reach has, no longer
   * equals a fresh piece of the same kind and colour.
   */
  lemma LoweredReachDiffers(c: Color)
    ensures var pawn := NewPiece(Pawn, c);
            !PieceEquals(pawn.(moves := pawn.moves[Forward := Steps(1)]), Some(pawn))
    ensures var king := NewPiece(King, c);
            !PieceEquals(king.(moves := king.moves[Left := Steps(1)][Right := Steps(1)]), Some(king))
  {
    var pawn := NewPiece(Pawn, c);
    assert pawn.moves[Forward := Steps(1)][Forward] == Steps(1);
    var king := NewPiece(King, c);
    assert king.moves[Left := Steps(1)][Right := Steps(1)][Left] == Steps(1);
  }

  /**
   * A live piece object: the piece.py getters read its attributes and the setters overwrite
   * one of them in place.
   */
  class PieceObject {
    var state: Piece

    /** `Piece(piece_type, color)`, the bare base class. */
    constructor (kind: Kind, color: Color)
      ensures state == BasePiece(kind, color)
      ensures !state.captured && state.letter == "" && state.moves == map[]
    {
      state := BasePiece(kind, color);
    }

    /** `Pawn(color)`, `King(color)`, ...: one of the subclasses. */
    constructor Of(kind: Kind, color: Color)
      ensures state == NewPiece(kind, color)
    {
      state := NewPiece(kind, color);
    }

    function Type(): Kind reads this { state.kind }
    function Color(): Color reads this { state.color }
    function Capture(): bool reads this { state.captured }
    function MoveDirections(): map<Direction, Reach> reads this { state.moves }

    /** `__str__`: the stored letter. */
    function Str(): string reads this { state.letter }

    /** `__eq__` between two live objects; `null` stands for any object that is not a piece. */
    predicate Equals(other: PieceObject?)
      reads this, other
    {
      PieceEquals(state, if other == null then None else Some(other.state))
    }

    method SetType(kind: Kind)
      modifies this
      ensures Type() == kind
      ensures state == old(state).(kind := kind)
    {
      state := state.(kind := kind);
    }

    method SetColor(color: Color)
      modifies this
      ensures Color() == color
      ensures state == old(state).(color := color)
    {
      state := state.(color := color);
    }

    method SetCapture(captured: bool)
      modifies this
      ensures Capture() == captured
      ensures state == old(state).(captured := captured)
    {
      state := state.(captured := captured);
    }
  }
}
