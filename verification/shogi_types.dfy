/** Shared value types: colors, piece types, pieces and board squares.
    Squares are addressed by file and rank (both 1..9); the rank is seen
    from Black's side, so Black's promotion zone is ranks 1..3. */
module ShogiTypes {

  datatype Color = Black | White {
    /** The other side (`~color`). */
    function Opponent(): (c: Color)
      ensures c != this
    {
      if this == Black then White else Black
    }
  }

  datatype PieceType =
    | Pawn | Lance | Knight | Silver | Gold | Bishop | Rook | King
    | ProPawn | ProLance | ProKnight | ProSilver | Horse | Dragon

  datatype Piece = Piece(color: Color, kind: PieceType)

  /** A file or a rank number. */
  type Coord = x: int | 1 <= x <= 9 witness 1

  datatype Square = Square(file: Coord, rank: Coord)

  const SQUARE_COUNT := 81
  const PIECE_TYPE_COUNT := 14
  const PIECE_COUNT := 28

  /** The 14 piece types in declaration order. */
  function TypeAt(i: nat): PieceType
    requires i < PIECE_TYPE_COUNT
  {
    [Pawn, Lance, Knight, Silver, Gold, Bishop, Rook, King,
     ProPawn, ProLance, ProKnight, ProSilver, Horse, Dragon][i]
  }

  function TypeIndex(t: PieceType): (i: nat)
    ensures i < PIECE_TYPE_COUNT && TypeAt(i) == t
  {
    match t
    case Pawn => 0 case Lance => 1 case Knight => 2 case Silver => 3
    case Gold => 4 case Bishop => 5 case Rook => 6 case King => 7
    case ProPawn => 8 case ProLance => 9 case ProKnight => 10
    case ProSilver => 11 case Horse => 12 case Dragon => 13
  }

  /** Position of a piece in the enumeration of all 28 pieces: Black's
      14 pieces first, then White's. */
  function PieceIndex(p: Piece): (i: nat)
    ensures i < PIECE_COUNT
  {
    (if p.color == Black then 0 else PIECE_TYPE_COUNT) + TypeIndex(p.kind)
  }

  function PieceAt(i: nat): (p: Piece)
    requires i < PIECE_COUNT
    ensures PieceIndex(p) == i
  {
    var p := Piece(if i < PIECE_TYPE_COUNT then Black else White, TypeAt(i % PIECE_TYPE_COUNT));
    assert TypeIndex(TypeAt(i % PIECE_TYPE_COUNT)) == i % PIECE_TYPE_COUNT by {
      TypeIndexOfTypeAt(i % PIECE_TYPE_COUNT);
    }
    p
  }

  lemma TypeIndexOfTypeAt(i: nat)
    requires i < PIECE_TYPE_COUNT
    ensures TypeIndex(TypeAt(i)) == i
  {
  }

  /** Every piece is reached by the enumeration, at exactly its own index. */
  lemma PieceAtIndex(p: Piece)
    ensures PieceAt(PieceIndex(p)) == p
  {
  }

  /** Position of a square in the board enumeration (file-major). */
  function SquareIndex(s: Square): (k: nat)
    ensures k < SQUARE_COUNT
  {
    (s.file - 1) * 9 + (s.rank - 1)
  }

  function SquareAt(k: nat): (s: Square)
    requires k < SQUARE_COUNT
    ensures SquareIndex(s) == k
  {
    Square(k / 9 + 1, k % 9 + 1)
  }

  /** Every square is reached by the enumeration, at exactly its own index. */
  lemma SquareAtIndex(s: Square)
    ensures SquareAt(SquareIndex(s)) == s
  {
  }

  /** The rank counted from the given side's far edge: Black's rank as is,
      White's mirrored; the promotion zone is relative ranks 1..3. */
  function RelativeRank(c: Color, s: Square): (r: Coord)
  {
    if c == Black then s.rank else 10 - s.rank
  }

  predicate InPromotionZone(c: Color, s: Square) {
    RelativeRank(c, s) <= 3
  }
}
