/** The catalogue of every possible "quiet" move (ComputeAllPossibleQuietMoves).
    A quiet move is a non-promoting move or a promoting Silver move, is not a
    capture, is not "always bad" (a Pawn, Bishop or Rook declining a promotion
    it could take, a Lance stopping unpromoted on relative rank 2) and is not
    illegal. The catalogue is built on an empty board, from a table of
    color-relative rank masks, and is emitted as ascending 32-bit codes.

    The attack table (`max_attacks_bb`: every square a piece reaches from a
    square on an empty board) and the 32-bit move encoding (`Move::ToUint32`)
    are parameters: their layout is not part of this model. */
module QuietMoves {
  import opened ShogiTypes
  import Sorting

  type Uint32 = x: int | 0 <= x < 0x1_0000_0000

  /** A set of squares. */
  type Bitboard = set<Square>

  /** `max_attacks_bb(piece, from)`. */
  type AttackTable = (Piece, Square) -> Bitboard

  datatype Move =
    | Board(piece: Piece, from: Square, to: Square, promote: bool)
    | Drop(piece: Piece, to: Square)

  // ---------------------------------------------------------------------
  // The rank-mask table: a mask `rank_bb<lo, 9>(color)` is the set of
  // squares whose relative rank is at least lo; 1 means "whole board".

  /** Lowest relative rank a non-promoting move may start from. */
  function MinOriginRank(t: PieceType): Coord {
    match t
    case Bishop => 4
    case Rook => 4
    case _ => 1
  }

  /** Lowest relative rank a non-promoting move may end on. */
  function MinTargetRank(t: PieceType): Coord {
    match t
    case Pawn => 4
    case Lance => 3
    case Knight => 3
    case Bishop => 4
    case Rook => 4
    case _ => 1
  }

  predicate IsDroppable(t: PieceType) {
    t in {Pawn, Lance, Knight, Silver, Gold, Bishop, Rook}
  }

  /** Lowest relative rank a piece may be dropped on. */
  function MinDropRank(t: PieceType): Coord {
    match t
    case Pawn => 2
    case Lance => 2
    case Knight => 3
    case _ => 1
  }

  // ---------------------------------------------------------------------
  // What each of the three passes emits.

  /** Pass 1: a non-promoting board move allowed by the origin and target masks. */
  predicate EmittedNonPromotion(attacks: AttackTable, m: Move) {
    && m.Board? && !m.promote
    && m.to in attacks(m.piece, m.from)
    && MinOriginRank(m.piece.kind) <= RelativeRank(m.piece.color, m.from)
    && MinTargetRank(m.piece.kind) <= RelativeRank(m.piece.color, m.to)
  }

  /** Pass 2: a promoting Silver move that starts or ends in the promotion zone. */
  predicate EmittedSilverPromotion(attacks: AttackTable, m: Move) {
    && m.Board? && m.promote && m.piece.kind == Silver
    && m.to in attacks(m.piece, m.from)
    && (InPromotionZone(m.piece.color, m.to) || InPromotionZone(m.piece.color, m.from))
  }

  /** Pass 3: a drop of a droppable piece allowed by its drop mask. */
  predicate EmittedDrop(m: Move) {
    && m.Drop?
    && IsDroppable(m.piece.kind)
    && MinDropRank(m.piece.kind) <= RelativeRank(m.piece.color, m.to)
  }

  predicate InCatalogue(attacks: AttackTable, m: Move) {
    EmittedNonPromotion(attacks, m) || EmittedSilverPromotion(attacks, m) || EmittedDrop(m)
  }

  // ---------------------------------------------------------------------
  // The rules the catalogue is meant to follow, stated without the masks.

  /** A piece on `s` that could never move again: illegal to leave it there. */
  predicate IsDeadEnd(t: PieceType, c: Color, s: Square) {
    || ((t == Pawn || t == Lance) && RelativeRank(c, s) == 1)
    || (t == Knight && RelativeRank(c, s) <= 2)
  }

  predicate CanPromote(c: Color, from: Square, to: Square) {
    InPromotionZone(c, from) || InPromotionZone(c, to)
  }

  /** Declining promotion here is never better than promoting. */
  predicate AlwaysBadUnpromoted(t: PieceType, c: Color, from: Square, to: Square) {
    || ((t == Pawn || t == Bishop || t == Rook) && CanPromote(c, from, to))
    || (t == Lance && RelativeRank(c, to) == 2)
  }

  /** A quiet move on an empty board: geometrically possible, not illegal,
      not always bad, and promoting only if it is a Silver that may promote. */
  predicate IsQuiet(attacks: AttackTable, m: Move) {
    match m
    case Board(p, from, to, promote) =>
      && to in attacks(p, from)
      && if promote then p.kind == Silver && CanPromote(p.color, from, to)
         else !AlwaysBadUnpromoted(p.kind, p.color, from, to) && !IsDeadEnd(p.kind, p.color, to)
    case Drop(p, to) =>
      IsDroppable(p.kind) && !IsDeadEnd(p.kind, p.color, to)
  }

  /** Pawns move one way only, towards relative rank 1. The masks rely on it:
      Pawn origins are not masked, because a Pawn that ends outside the
      promotion zone cannot have started inside it. */
  ghost predicate PawnsMoveForward(attacks: AttackTable) {
    forall c: Color, from: Square, to: Square :: to in attacks(Piece(c, Pawn), from) ==>
      RelativeRank(c, to) < RelativeRank(c, from)
  }

  /** The mask table emits exactly the quiet moves. */
  lemma CatalogueIsQuietSet(attacks: AttackTable, m: Move)
    requires PawnsMoveForward(attacks)
    ensures InCatalogue(attacks, m) <==> IsQuiet(attacks, m)
  {
    if m.Board? && !m.promote && m.piece.kind == Pawn && m.to in attacks(m.piece, m.from) {
      assert RelativeRank(m.piece.color, m.to) < RelativeRank(m.piece.color, m.from);
    }
  }

  /** The masks do need the Pawn fact: a (fictitious) table letting a Black
      Pawn step backwards out of the zone would get a move emitted that
      declines a promotion it could take. */
  lemma PawnMaskNeedsForwardPawns()
    ensures var backwards := (p: Piece, s: Square) => {Square(5, 4)};
            var m := Board(Piece(Black, Pawn), Square(5, 3), Square(5, 4), false);
            InCatalogue(backwards, m) && !IsQuiet(backwards, m)
  {
  }

  // ---------------------------------------------------------------------
  // The enumeration.

  ghost predicate NoDuplicates<T>(s: seq<T>) {
    forall i, j :: 0 <= i < j < |s| ==> s[i] != s[j]
  }

  lemma AppendFresh<T>(s: seq<T>, x: T)
    requires NoDuplicates(s) && x !in s
    ensures NoDuplicates(s + [x])
  {
  }

  /** Pass 1, one origin: every allowed target of `piece` from `from`. */
  method EmitNonPromotionsFrom(attacks: AttackTable, piece: Piece, from: Square, moves: seq<Move>)
    returns (out: seq<Move>)
    requires MinOriginRank(piece.kind) <= RelativeRank(piece.color, from)
    requires NoDuplicates(moves)
    requires forall m :: m in moves ==> !(m.Board? && !m.promote && m.piece == piece && m.from == from)
    ensures NoDuplicates(out)
    ensures forall m :: m in out <==>
      m in moves || (EmittedNonPromotion(attacks, m) && m.piece == piece && m.from == from)
  {
    out := moves;
    var k := 0;
    while k < SQUARE_COUNT
      invariant 0 <= k <= SQUARE_COUNT
      invariant NoDuplicates(out)
      invariant forall m :: m in out <==>
        m in moves || (EmittedNonPromotion(attacks, m) && m.piece == piece && m.from == from && SquareIndex(m.to) < k)
    {
      var to := SquareAt(k);
      if to in attacks(piece, from) && MinTargetRank(piece.kind) <= RelativeRank(piece.color, to) {
        AppendFresh(out, Board(piece, from, to, false));
        out := out + [Board(piece, from, to, false)];
      }
      forall s: Square | SquareIndex(s) == k ensures s == to {
        SquareAtIndex(s);
      }
      k := k + 1;
    }
  }

  /** Pass 1, one piece: every allowed origin. */
  method EmitNonPromotionsOf(attacks: AttackTable, piece: Piece, moves: seq<Move>)
    returns (out: seq<Move>)
    requires NoDuplicates(moves)
    requires forall m :: m in moves ==> !(m.Board? && !m.promote && m.piece == piece)
    ensures NoDuplicates(out)
    ensures forall m :: m in out <==> m in moves || (EmittedNonPromotion(attacks, m) && m.piece == piece)
  {
    out := moves;
    var k := 0;
    while k < SQUARE_COUNT
      invariant 0 <= k <= SQUARE_COUNT
      invariant NoDuplicates(out)
      invariant forall m :: m in out <==>
        m in moves || (EmittedNonPromotion(attacks, m) && m.piece == piece && SquareIndex(m.from) < k)
    {
      var from := SquareAt(k);
      if MinOriginRank(piece.kind) <= RelativeRank(piece.color, from) {
        out := EmitNonPromotionsFrom(attacks, piece, from, out);
      }
      forall s: Square | SquareIndex(s) == k ensures s == from {
        SquareAtIndex(s);
      }
      k := k + 1;
    }
  }

  /** Pass 1: the non-promoting moves of all 28 pieces. */
  method EmitNonPromotions(attacks: AttackTable, moves: seq<Move>) returns (out: seq<Move>)
    requires NoDuplicates(moves)
    requires forall m :: m in moves ==> !(m.Board? && !m.promote)
    ensures NoDuplicates(out)
    ensures forall m :: m in out <==> m in moves || EmittedNonPromotion(attacks, m)
  {
    out := moves;
    var i := 0;
    while i < PIECE_COUNT
      invariant 0 <= i <= PIECE_COUNT
      invariant NoDuplicates(out)
      invariant forall m :: m in out <==>
        m in moves || (EmittedNonPromotion(attacks, m) && PieceIndex(m.piece) < i)
    {
      var piece := PieceAt(i);
      out := EmitNonPromotionsOf(attacks, piece, out);
      forall p: Piece | PieceIndex(p) == i ensures p == piece {
        PieceAtIndex(p);
      }
      i := i + 1;
    }
  }

  /** Pass 2, one origin: the promoting Silver moves of color `c` from `from`. */
  method EmitSilverPromotionsFrom(attacks: AttackTable, c: Color, from: Square, moves: seq<Move>)
    returns (out: seq<Move>)
    requires NoDuplicates(moves)
    requires forall m :: m in moves ==> !(m.Board? && m.promote && m.piece == Piece(c, Silver) && m.from == from)
    ensures NoDuplicates(out)
    ensures forall m :: m in out <==>
      m in moves || (EmittedSilverPromotion(attacks, m) && m.piece.color == c && m.from == from)
  {
    out := moves;
    var silver := Piece(c, Silver);
    var k := 0;
    while k < SQUARE_COUNT
      invariant 0 <= k <= SQUARE_COUNT
      invariant NoDuplicates(out)
      invariant forall m :: m in out <==>
        m in moves || (EmittedSilverPromotion(attacks, m) && m.piece.color == c && m.from == from && SquareIndex(m.to) < k)
    {
      var to := SquareAt(k);
      if to in attacks(silver, from) && (InPromotionZone(c, to) || InPromotionZone(c, from)) {
        AppendFresh(out, Board(silver, from, to, true));
        out := out + [Board(silver, from, to, true)];
      }
      forall s: Square | SquareIndex(s) == k ensures s == to {
        SquareAtIndex(s);
      }
      k := k + 1;
    }
  }

  /** Pass 2: the promoting Silver moves of both colors from every square. */
  method EmitSilverPromotions(attacks: AttackTable, moves: seq<Move>) returns (out: seq<Move>)
    requires NoDuplicates(moves)
    requires forall m :: m in moves ==> !(m.Board? && m.promote)
    ensures NoDuplicates(out)
    ensures forall m :: m in out <==> m in moves || EmittedSilverPromotion(attacks, m)
  {
    out := moves;
    var colors := [Black, White];
    var i := 0;
    while i < 2
      invariant 0 <= i <= 2
      invariant NoDuplicates(out)
      invariant forall m :: m in out <==>
        m in moves || (EmittedSilverPromotion(attacks, m) && (m.piece.color == Black ==> i > 0) && (m.piece.color == White ==> i > 1))
    {
      var c := colors[i];
      var k := 0;
      while k < SQUARE_COUNT
        invariant 0 <= k <= SQUARE_COUNT
        invariant NoDuplicates(out)
        invariant forall m :: m in out <==>
          || m in moves
          || (EmittedSilverPromotion(attacks, m) && (m.piece.color == Black ==> i > 0) && (m.piece.color == White ==> i > 1))
          || (EmittedSilverPromotion(attacks, m) && m.piece.color == c && SquareIndex(m.from) < k)
      {
        var from := SquareAt(k);
        out := EmitSilverPromotionsFrom(attacks, c, from, out);
        forall s: Square | SquareIndex(s) == k ensures s == from {
          SquareAtIndex(s);
        }
        k := k + 1;
      }
      i := i + 1;
    }
  }

  /** Pass 3, one piece: its drops on every allowed square. */
  method EmitDropsOf(piece: Piece, moves: seq<Move>) returns (out: seq<Move>)
    requires IsDroppable(piece.kind)
    requires NoDuplicates(moves)
    requires forall m :: m in moves ==> !(m.Drop? && m.piece == piece)
    ensures NoDuplicates(out)
    ensures forall m :: m in out <==> m in moves || (EmittedDrop(m) && m.piece == piece)
  {
    out := moves;
    var k := 0;
    while k < SQUARE_COUNT
      invariant 0 <= k <= SQUARE_COUNT
      invariant NoDuplicates(out)
      invariant forall m :: m in out <==>
        m in moves || (EmittedDrop(m) && m.piece == piece && SquareIndex(m.to) < k)
    {
      var to := SquareAt(k);
      if MinDropRank(piece.kind) <= RelativeRank(piece.color, to) {
        AppendFresh(out, Drop(piece, to));
        out := out + [Drop(piece, to)];
      }
      forall s: Square | SquareIndex(s) == k ensures s == to {
        SquareAtIndex(s);
      }
      k := k + 1;
    }
  }

  /** Pass 3: the drops of every droppable piece. */
  method EmitDrops(moves: seq<Move>) returns (out: seq<Move>)
    requires NoDuplicates(moves)
    requires forall m :: m in moves ==> !m.Drop?
    ensures NoDuplicates(out)
    ensures forall m :: m in out <==> m in moves || EmittedDrop(m)
  {
    out := moves;
    var i := 0;
    while i < PIECE_COUNT
      invariant 0 <= i <= PIECE_COUNT
      invariant NoDuplicates(out)
      invariant forall m :: m in out <==>
        m in moves || (EmittedDrop(m) && PieceIndex(m.piece) < i)
    {
      var piece := PieceAt(i);
      if IsDroppable(piece.kind) {
        out := EmitDropsOf(piece, out);
      }
      forall p: Piece | PieceIndex(p) == i ensures p == piece {
        PieceAtIndex(p);
      }
      i := i + 1;
    }
  }

  /** The codes of a move list, in list order. */
  function Codes(moves: seq<Move>, encode: Move -> Uint32): (codes: seq<Uint32>)
    ensures |codes| == |moves|
    ensures forall i :: 0 <= i < |moves| ==> codes[i] == encode(moves[i])
  {
    seq(|moves|, i requires 0 <= i < |moves| => encode(moves[i]))
  }

  /** The whole catalogue: the three passes, then the codes sorted ascending. */
  method ComputeAllPossibleQuietMoves(attacks: AttackTable, encode: Move -> Uint32)
    returns (moves: seq<Move>, values: seq<Uint32>)
    ensures forall m :: m in moves <==> InCatalogue(attacks, m)
    ensures NoDuplicates(moves)
    ensures multiset(values) == multiset(Codes(moves, encode))
    ensures forall i, j :: 0 <= i < j < |values| ==> values[i] <= values[j]
  {
    moves := EmitNonPromotions(attacks, []);
    moves := EmitSilverPromotions(attacks, moves);
    moves := EmitDrops(moves);

    var a := new Uint32[|moves|];
    var i := 0;
    while i < |moves|
      invariant 0 <= i <= |moves|
      invariant forall k :: 0 <= k < i ==> a[k] == encode(moves[k])
    {
      a[i] := encode(moves[i]);
      i := i + 1;
    }
    assert a[..] == Codes(moves, encode);
    Sorting.SortBy(a, (x: Uint32) => x as int);
    values := a[..];
  }
}
