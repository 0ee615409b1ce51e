/**
 * The consistency checks of src/validation.c: the range tests on squares,
 * sides, pieces and packed moves, and valid_position, which rebuilds the
 * piece array and the side bitboards from the piece bitboards and compares
 * them with the ones the position holds.
 */
module Validation {
  import opened Types
  import opened Bitboard
  import P = Position

  /** valid_square. */
  predicate ValidSquare(sq: int)
  {
    sq >= 0 && sq < NSQUARES
  }

  /** valid_side. */
  predicate ValidSide(side: int)
  {
    side == WHITE || side == BLACK
  }

  /** valid_piece. */
  predicate ValidPiece(piece: int)
  {
    piece >= WHITE_PAWN && piece < NO_PIECE
  }

  /** valid_move: both squares on the board, the promotion a piece or NO_PIECE, the type in 0..63. */
  predicate ValidMove(m: nat)
  {
    ValidSquare(From(m)) && ValidSquare(To(m)) &&
    (ValidPiece(Promotion(m)) || Promotion(m) == NO_PIECE) &&
    0 <= MoveType(m) <= 63
  }

  /**
   * The square and type fields are masked to six bits, so they always pass:
   * valid_move rejects a move exactly when its four promotion bits are
   * 13, 14 or 15.
   */
  lemma ValidMoveSpec(m: nat)
    ensures ValidMove(m) <==> Promotion(m) <= NO_PIECE
    ensures !ValidMove(m) <==> Promotion(m) in {13, 14, 15}
  {
  }

  /** Every move MOVE() packs from a piece or NO_PIECE passes valid_move. */
  lemma MoveOfValid(f: Square, t: Square, p: int, l: int)
    requires 0 <= p <= NO_PIECE && 0 <= l < 64
    ensures ValidMove(MoveOf(f, t, p, l))
  {
  }

  // ---- valid_position ---------------------------------------------------------

  /** The fields of struct position valid_position looks at, as the C ints they are. */
  datatype Fields = Fields(board: P.Placement, epSq: int, stm: int, castle: int, ply: int, fifty: int)

  /**
   * The piece valid_position derives for a square: the first piece, in the
   * order WHITE_PAWN, BLACK_PAWN, WHITE_KNIGHT, ..., BLACK_KING, whose
   * bitboard holds the square, and NO_PIECE when none does.
   */
  function DerivedPiece(bb: seq<Bitboard>, sq: int, k: nat): (p: Cell)
    requires |bb| == NPIECES && k <= NPIECES
    ensures p == NO_PIECE <==> forall j :: k <= j < NPIECES ==> sq !in bb[j]
    ensures p != NO_PIECE ==> k <= p && sq in bb[p] && forall j :: k <= j < p ==> sq !in bb[j]
    decreases NPIECES - k
  {
    if k == NPIECES then NO_PIECE
    else if sq in bb[k] then k
    else DerivedPiece(bb, sq, k + 1)
  }

  /** The union of the bitboards of side c's pieces among the first k. */
  function SideUnion(bb: seq<Bitboard>, c: int, k: nat): (u: Bitboard)
    requires |bb| == NPIECES && k <= NPIECES
    ensures forall x :: x in u <==> exists j :: 0 <= j < k && j % 2 == c && x in bb[j]
  {
    if k == 0 then {}
    else if (k - 1) % 2 == c then SideUnion(bb, c, k - 1) + bb[k - 1]
    else SideUnion(bb, c, k - 1)
  }

  /** What valid_position accepts, check by check. */
  predicate Accepted(f: Fields)
    requires f.board.Sized()
  {
    var b := f.board;
    (forall sq :: 0 <= sq < NSQUARES ==> DerivedPiece(b.bbPieces, sq, 0) == b.pieces[sq]) &&
    SideUnion(b.bbPieces, WHITE, NPIECES) == b.bbSides[WHITE] &&
    SideUnion(b.bbPieces, BLACK, NPIECES) == b.bbSides[BLACK] &&
    b.bbSides[WHITE] * b.bbSides[BLACK] == {} &&
    b.bbSides[WHITE] + b.bbSides[BLACK] == b.bbAll &&
    A1 <= f.epSq <= NO_SQUARE &&
    ValidSide(f.stm) &&
    0 <= f.castle <= 15 &&
    0 <= f.ply <= MAX_MOVES * 2 &&
    f.fifty >= 0
  }

  /**
   * valid_position: builds the piece array the bitboards give, compares it
   * square by square, ORs the piece bitboards into the two sides, compares
   * those, and range-checks the ep square, side, castling flags, ply and
   * fifty-move counter.
   */
  method ValidPosition(f: Fields) returns (ok: bool)
    requires f.board.Sized()
    ensures ok == Accepted(f)
  {
    var b := f.board;
    var pieces := new Cell[NSQUARES];
    for sq := 0 to NSQUARES
      invariant forall j :: 0 <= j < sq ==> pieces[j] == DerivedPiece(b.bbPieces, j, 0)
    {
      pieces[sq] := DerivedPiece(b.bbPieces, sq, 0);
    }
    for sq := 0 to NSQUARES
      invariant forall j :: 0 <= j < sq ==> DerivedPiece(b.bbPieces, j, 0) == b.pieces[j]
    {
      if pieces[sq] != b.pieces[sq] {
        return false;
      }
    }
    var black: Bitboard := {};
    var white: Bitboard := {};
    for k := 0 to NPIECES
      invariant white == SideUnion(b.bbPieces, WHITE, k) && black == SideUnion(b.bbPieces, BLACK, k)
    {
      if Color(k) == BLACK {
        black := black + b.bbPieces[k];
      } else {
        white := white + b.bbPieces[k];
      }
    }
    var all := white + black;
    if white != b.bbSides[WHITE] || black != b.bbSides[BLACK] || white * black != {} || all != b.bbAll {
      return false;
    }
    if f.epSq < A1 || f.epSq > NO_SQUARE {
      return false;
    }
    if f.stm != WHITE && f.stm != BLACK {
      return false;
    }
    if f.castle < 0 || f.castle > 15 {
      return false;
    }
    if f.ply < 0 || f.ply > MAX_MOVES * 2 {
      return false;
    }
    if f.fifty < 0 {
      return false;
    }
    return true;
  }

  /**
   * Every position whose bitboards are exactly the ones its piece array
   * gives, with its counters and flags in range, passes valid_position.
   */
  lemma ConsistentAccepted(f: Fields)
    requires f.board.Consistent()
    requires A1 <= f.epSq <= NO_SQUARE && ValidSide(f.stm) && 0 <= f.castle <= 15
    requires 0 <= f.ply <= MAX_MOVES * 2 && f.fifty >= 0
    ensures Accepted(f)
  {
    var b := f.board;
    forall sq | 0 <= sq < NSQUARES
      ensures DerivedPiece(b.bbPieces, sq, 0) == b.pieces[sq]
    {
      var d := DerivedPiece(b.bbPieces, sq, 0);
      if b.pieces[sq] == NO_PIECE {
        forall j | 0 <= j < NPIECES
          ensures sq !in b.bbPieces[j]
        {
          assert b.bbPieces[j] == P.PieceSquares(b.pieces, j);
        }
      } else {
        var q := b.pieces[sq];
        assert sq in P.PieceSquares(b.pieces, q);
        assert d != NO_PIECE;
        assert b.bbPieces[d] == P.PieceSquares(b.pieces, d);
      }
    }
    forall c | 0 <= c < 2
      ensures SideUnion(b.bbPieces, c, NPIECES) == b.bbSides[c]
    {
      assert b.bbSides[c] == P.SideSquares(b.pieces, c);
      forall x | x in b.bbSides[c]
        ensures x in SideUnion(b.bbPieces, c, NPIECES)
      {
        var q := b.pieces[x];
        assert b.bbPieces[q] == P.PieceSquares(b.pieces, q);
      }
      forall x | x in SideUnion(b.bbPieces, c, NPIECES)
        ensures x in b.bbSides[c]
      {
        var j :| 0 <= j < NPIECES && j % 2 == c && x in b.bbPieces[j];
        assert b.bbPieces[j] == P.PieceSquares(b.pieces, j);
      }
    }
    assert b.bbSides[WHITE] == P.SideSquares(b.pieces, WHITE);
    assert b.bbSides[BLACK] == P.SideSquares(b.pieces, BLACK);
    assert b.bbAll == P.OccupiedSquares(b.pieces);
  }

  /**
   * What passing valid_position guarantees: every piece of the array is on
   * its own bitboard, every square of a piece bitboard holds that piece or
   * one earlier in piece order, the side bitboards are disjoint and each is
   * the union of its pieces' bitboards, and bb_all is the union of the two.
   */
  lemma AcceptedMeans(f: Fields)
    requires f.board.Sized() && Accepted(f)
    ensures var b := f.board;
      (forall sq :: 0 <= sq < NSQUARES && b.pieces[sq] != NO_PIECE ==> sq in b.bbPieces[b.pieces[sq]]) &&
      (forall sq, k :: 0 <= sq < NSQUARES && 0 <= k < NPIECES && sq in b.bbPieces[k] ==> b.pieces[sq] <= k) &&
      b.bbSides[WHITE] * b.bbSides[BLACK] == {} && b.bbAll == b.bbSides[WHITE] + b.bbSides[BLACK] &&
      (forall c, k :: 0 <= c < 2 && 0 <= k < NPIECES && k % 2 == c ==> b.bbPieces[k] <= b.bbSides[c])
  {
    var b := f.board;
    forall sq, k | 0 <= sq < NSQUARES && 0 <= k < NPIECES && sq in b.bbPieces[k]
      ensures b.pieces[sq] <= k
    {
      assert DerivedPiece(b.bbPieces, sq, 0) == b.pieces[sq];
    }
  }

  /**
   * valid_position does not notice two pieces of one side on the same
   * square: a white pawn and a white knight both on A1, with the piece
   * array saying pawn, pass every check, though the board is not one the
   * piece array describes.
   */
  lemma AcceptsSharedSquare()
    ensures var pieces := seq(NSQUARES, i => if i == A1 then WHITE_PAWN else NO_PIECE);
      var bb := seq(NPIECES, k => if k == WHITE_PAWN || k == WHITE_KNIGHT then {A1} else {});
      var f := Fields(P.Placement(pieces, bb, [{A1}, {}], {A1}), NO_SQUARE, WHITE, 0, 0, 0);
      Accepted(f) && !f.board.Consistent()
  {
    var pieces := seq(NSQUARES, i => if i == A1 then WHITE_PAWN else NO_PIECE);
    var bb := seq(NPIECES, k => if k == WHITE_PAWN || k == WHITE_KNIGHT then {A1} else {});
    var f := Fields(P.Placement(pieces, bb, [{A1}, {}], {A1}), NO_SQUARE, WHITE, 0, 0, 0);
    forall sq | 0 <= sq < NSQUARES
      ensures DerivedPiece(bb, sq, 0) == pieces[sq]
    {
      if sq != A1 {
        assert forall j :: 0 <= j < NPIECES ==> sq !in bb[j];
      }
    }
    assert SideUnion(bb, WHITE, NPIECES) == {A1} by {
      assert A1 in bb[0];
    }
    assert SideUnion(bb, BLACK, NPIECES) == {};
    assert A1 !in P.PieceSquares(pieces, WHITE_KNIGHT);
  }
}
