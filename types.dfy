/**
 * The engine's basic encodings (src/types.h): sides, pieces, squares,
 * castling flags and the 32-bit packed move.
 *
 * The C macros use `&`, `|`, `^` and shifts on non-negative values; on
 * naturals `x & (2^k - 1)` is `x % 2^k`, `x >> k` is `x / 2^k`, and an OR of
 * fields that occupy disjoint bits is their sum.
 */
module Types {
  // Sides
  const WHITE: int := 0
  const BLACK: int := 1
  const NO_SIDE: int := 2
  type Side = c: int | 0 <= c <= 1

  // Piece types (the value of a piece with its colour bit cleared)
  const PAWN: int := 0
  const KNIGHT: int := 2
  const BISHOP: int := 4
  const ROOK: int := 6
  const QUEEN: int := 8
  const KING: int := 10

  // Pieces: a piece is its type plus its side
  const WHITE_PAWN: int := 0
  const BLACK_PAWN: int := 1
  const WHITE_KNIGHT: int := 2
  const BLACK_KNIGHT: int := 3
  const WHITE_BISHOP: int := 4
  const BLACK_BISHOP: int := 5
  const WHITE_ROOK: int := 6
  const BLACK_ROOK: int := 7
  const WHITE_QUEEN: int := 8
  const BLACK_QUEEN: int := 9
  const WHITE_KING: int := 10
  const BLACK_KING: int := 11
  const NO_PIECE: int := 12
  const NPIECES: int := 12

  /** A board cell: a piece or NO_PIECE. */
  type Cell = p: int | 0 <= p <= 12

  // Squares: A1 = 0 ... H8 = 63, NO_SQUARE = 64
  const NSQUARES: int := 64
  const NO_SQUARE: int := 64
  type Square = s: int | 0 <= s < 64

  const A1: int := 0
  const C1: int := 2
  const D1: int := 3
  const E1: int := 4
  const F1: int := 5
  const G1: int := 6
  const H1: int := 7
  const A8: int := 56
  const C8: int := 58
  const D8: int := 59
  const E8: int := 60
  const F8: int := 61
  const G8: int := 62
  const H8: int := 63

  // Castling availability flags
  const WHITE_KINGSIDE: int := 1
  const WHITE_QUEENSIDE: int := 2
  const BLACK_KINGSIDE: int := 4
  const BLACK_QUEENSIDE: int := 8

  // Move type flags
  const NORMAL: int := 0
  const CAPTURE: int := 1
  const PROMOTION: int := 2
  const EN_PASSANT: int := 4
  const KINGSIDE_CASTLE: int := 8
  const QUEENSIDE_CASTLE: int := 16
  const NULL_MOVE: int := 32

  const NOMOVE: nat := 0
  const MAX_MOVES: int := 256
  const MAX_HISTORY_SIZE: int := 2048
  const MAX_SEARCH_DEPTH: int := 100
  const MAX_QUIESCENCE_DEPTH: int := 32
  const MAX_PLY: int := 132
  const PAWN_BASE_VALUE: int := 100

  /** `(x & flag) != 0` for a flag that is a single bit. */
  predicate HasFlag(x: nat, flag: nat)
    requires flag in {1, 2, 4, 8, 16, 32}
  {
    (x / flag) % 2 == 1
  }

  /** COLOR(p): the side a piece belongs to. */
  function Color(p: Cell): (c: int)
    ensures c == WHITE || c == BLACK
    ensures p < NO_PIECE ==> (c == BLACK <==> p in {BLACK_PAWN, BLACK_KNIGHT, BLACK_BISHOP, BLACK_ROOK, BLACK_QUEEN, BLACK_KING})
  {
    p % 2
  }

  /** VALUE(p): the piece type, the colour bit cleared. */
  function Value(p: Cell): (v: int)
    ensures v % 2 == 0 && v + Color(p) == p
  {
    p - p % 2
  }

  /** FLIP_COLOR(c) = c ^ 1 on a side. */
  function FlipColor(c: Side): (r: Side)
    ensures r != c
  {
    1 - c
  }

  lemma FlipColorInvolution(c: Side)
    ensures FlipColor(FlipColor(c)) == c
  {
  }

  /** SQUARE(f, r) = (r << 3) + f. */
  function SquareOf(f: int, r: int): (s: Square)
    requires 0 <= f < 8 && 0 <= r < 8
    ensures FileNr(s) == f && RankNr(s) == r
  {
    r * 8 + f
  }

  /** RANKNR(sq) = sq >> 3. */
  function RankNr(s: Square): (r: int)
    ensures 0 <= r < 8
  {
    s / 8
  }

  /** FILENR(sq) = sq & 7. */
  function FileNr(s: Square): (f: int)
    ensures 0 <= f < 8
  {
    s % 8
  }

  lemma SquareRoundTrip(s: Square)
    ensures SquareOf(FileNr(s), RankNr(s)) == s
  {
  }

  /** MIRROR(sq) = sq ^ 56: the same file seen from the other side. */
  function Mirror(s: Square): (m: Square)
    ensures FileNr(m) == FileNr(s) && RankNr(m) == 7 - RankNr(s)
  {
    // XOR with 56 complements the three rank bits and keeps the file bits
    (7 - s / 8) * 8 + s % 8
  }

  lemma MirrorInvolution(s: Square)
    ensures Mirror(Mirror(s)) == s
  {
  }

  /** SQUAREOFFBOARD(f, r). */
  predicate SquareOffBoard(f: int, r: int)
  {
    f < 0 || f > 7 || r < 0 || r > 7
  }

  // ---- Packed moves --------------------------------------------------------
  // bit 0-5: from, bit 6-11: to, bit 12-15: promotion piece, bit 16-21: type

  /** MOVE(f, t, p, l). */
  function MoveOf(f: int, t: int, p: int, l: int): (m: nat)
    requires 0 <= f < 64 && 0 <= t < 64 && 0 <= p < 16 && 0 <= l < 64
    ensures m < 0x40_0000
    ensures From(m) == f && To(m) == t && Promotion(m) == p && MoveType(m) == l
  {
    PackedFields(f, t, p, l);
    f + t * 64 + p * 4096 + l * 65536
  }

  /** Splitting a + 64 * q at 64 gives back the digit and the quotient. */
  lemma DivMod64(a: int, q: nat)
    requires 0 <= a < 64
    ensures (a + 64 * q) % 64 == a && (a + 64 * q) / 64 == q
  {}

  lemma DivMod16(a: int, q: nat)
    requires 0 <= a < 16
    ensures (a + 16 * q) % 16 == a && (a + 16 * q) / 16 == q
  {}

  lemma PackedFields(f: int, t: int, p: int, l: int)
    requires 0 <= f < 64 && 0 <= t < 64 && 0 <= p < 16 && 0 <= l < 64
    ensures var m := f + t * 64 + p * 4096 + l * 65536;
      m % 64 == f && (m / 64) % 64 == t && (m / 4096) % 16 == p && (m / 65536) % 64 == l && m < 0x40_0000
  {
    var m := f + t * 64 + p * 4096 + l * 65536;
    DivMod64(f, t + 64 * (p + 16 * l));
    DivMod64(t, p + 16 * l);
    DivMod16(p, l);
    DivMod64(l, 0);
    assert m / 64 / 64 == m / 4096;
    assert m / 4096 / 16 == m / 65536;
  }

  /** FROM(m) = m & 0x3F. */
  function From(m: nat): (s: Square)
  {
    m % 64
  }

  /** TO(m) = (m >> 6) & 0x3F. */
  function To(m: nat): (s: Square)
  {
    (m / 64) % 64
  }

  /** PROMOTION(m) = (m >> 12) & 0xF. */
  function Promotion(m: nat): (p: int)
    ensures 0 <= p < 16
  {
    (m / 4096) % 16
  }

  /** TYPE(m) = (m >> 16) & 0x3F. */
  function MoveType(m: nat): (l: int)
    ensures 0 <= l < 64
  {
    (m / 65536) % 64
  }

  /** The pieces of a move in one value, as the move-list code builds them. */
  lemma MoveRoundTrip(m: nat)
    requires m < 0x40_0000
    ensures MoveOf(From(m), To(m), Promotion(m), MoveType(m)) == m
  {
    FieldsDecompose(m);
  }

  lemma FieldsDecompose(m: nat)
    requires m < 0x40_0000
    ensures m == m % 64 + 64 * ((m / 64) % 64) + 4096 * ((m / 4096) % 16) + 65536 * ((m / 65536) % 64)
  {
    var a := m / 64;
    assert a / 64 == m / 4096;
    var b := m / 4096;
    assert b / 16 == m / 65536;
    assert m == m % 64 + 64 * a;
    assert a == a % 64 + 64 * b;
    assert b == b % 16 + 16 * (m / 65536);
  }

  predicate IsCapture(m: nat) { HasFlag(MoveType(m), CAPTURE) }
  predicate IsPromotion(m: nat) { HasFlag(MoveType(m), PROMOTION) }
  predicate IsEnPassant(m: nat) { HasFlag(MoveType(m), EN_PASSANT) }
  predicate IsKingsideCastle(m: nat) { HasFlag(MoveType(m), KINGSIDE_CASTLE) }
  predicate IsQueensideCastle(m: nat) { HasFlag(MoveType(m), QUEENSIDE_CASTLE) }
  predicate IsNullMove(m: nat) { HasFlag(MoveType(m), NULL_MOVE) }
  predicate IsNormal(m: nat) { MoveType(m) == 0 }

  /** ISTACTICAL(m): a capture, an en-passant capture or a promotion. */
  predicate IsTactical(m: nat)
  {
    IsCapture(m) || IsEnPassant(m) || IsPromotion(m)
  }

  /** The tactical test on a move built by MOVE reads the type flags given to it. */
  lemma TacticalOfFlags(f: int, t: int, p: int, l: int)
    requires 0 <= f < 64 && 0 <= t < 64 && 0 <= p < 16 && 0 <= l < 64
    ensures IsTactical(MoveOf(f, t, p, l)) <==> (l % 2 == 1 || (l / 2) % 2 == 1 || (l / 4) % 2 == 1)
    ensures IsNormal(MoveOf(f, t, p, l)) <==> l == NORMAL
  {
  }

  /** NULLMOVE = MOVE(0, 0, NO_PIECE, NULL_MOVE). */
  const NULLMOVE: nat := 0x20_C000

  /** NULLMOVE is the packed null move: no squares, no promotion, only the null-move type. */
  lemma NullMoveFields()
    ensures NULLMOVE == MoveOf(0, 0, NO_PIECE, NULL_MOVE)
    ensures IsNullMove(NULLMOVE) && !IsTactical(NULLMOVE) && From(NULLMOVE) == 0 && To(NULLMOVE) == 0
    ensures Promotion(NULLMOVE) == NO_PIECE
  {
    NullMoveIsNull();
    assert From(NULLMOVE) == 0 && To(NULLMOVE) == 0;
    assert Promotion(NULLMOVE) == NO_PIECE;
    assert MoveOf(0, 0, NO_PIECE, NULL_MOVE) == 0 + 0 * 64 + NO_PIECE * 4096 + NULL_MOVE * 65536;
  }

  lemma NullMoveIsNull()
    ensures MoveType(NULLMOVE) == NULL_MOVE && IsNullMove(NULLMOVE)
  {
    assert MoveType(NULLMOVE) == NULL_MOVE;
  }

  const kingsideCastleTo: seq<int> := [G1, G8]
  const queensideCastleTo: seq<int> := [C1, C8]

  /**
   * TO_CASTLE(move): castling moves are stored as king-captures-rook; this
   * gives the square the king lands on instead, and TO(move) otherwise.
   */
  function ToCastle(m: nat): (s: Square)
    ensures IsKingsideCastle(m) ==> FileNr(s) == 6 && RankNr(s) == (if To(m) >= A8 then 7 else 0)
    ensures !IsKingsideCastle(m) && IsQueensideCastle(m) ==> FileNr(s) == 2 && RankNr(s) == (if To(m) >= A8 then 7 else 0)
    ensures !IsKingsideCastle(m) && !IsQueensideCastle(m) ==> s == To(m)
  {
    if IsKingsideCastle(m) then kingsideCastleTo[if To(m) >= A8 then 1 else 0]
    else if IsQueensideCastle(m) then queensideCastleTo[if To(m) >= A8 then 1 else 0]
    else To(m)
  }
}
