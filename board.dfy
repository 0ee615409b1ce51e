/**
 * The castling rule of board.c (struct gamestate): castling_permission_masks
 * and `castle &= mask[from]; castle &= mask[to]`, and board_make_null_move,
 * which unlike pos_make_null_move leaves the fifty-move counter alone.
 */
module Board {
  import opened Types
  import opened Key
  import P = Position

  /**
   * castling_permission_masks[sq]: 15 everywhere but the kings' and rooks'
   * home squares (13 on A1, 12 on E1, 14 on H1, 7 on A8, 3 on E8, 11 on H8).
   */
  function PermissionMask(sq: Square): int
  {
    if sq == A1 then 13 else if sq == E1 then 12 else if sq == H1 then 14
    else if sq == A8 then 7 else if sq == E8 then 3 else if sq == H8 then 11
    else 15
  }

  /** The home squares a castling flag depends on: the king's square and its rook's corner. */
  predicate Guards(sq: int, g: int)
  {
    (g == WHITE_KINGSIDE && (sq == E1 || sq == H1)) ||
    (g == WHITE_QUEENSIDE && (sq == E1 || sq == A1)) ||
    (g == BLACK_KINGSIDE && (sq == E8 || sq == H8)) ||
    (g == BLACK_QUEENSIDE && (sq == E8 || sq == A8))
  }

  /** The mask of a square keeps exactly the flags that do not depend on it. */
  lemma PermissionMaskFlags(sq: Square, g: int)
    requires g in {1, 2, 4, 8}
    ensures 0 <= PermissionMask(sq) < 16
    ensures HasFlag(PermissionMask(sq), g) <==> !Guards(sq, g)
  {
    if sq in {A1, E1, H1, A8, E8, H8} {
      if g == 1 {} else if g == 2 {} else if g == 4 {} else {}
    } else {
      assert PermissionMask(sq) == 15;
    }
  }

  /** `a & b` on four castling flags. */
  function AndFlags(a: int, b: int): (r: int)
    requires 0 <= a < 16 && 0 <= b < 16
    ensures 0 <= r < 16
  {
    (if HasFlag(a, 1) && HasFlag(b, 1) then 1 else 0) + (if HasFlag(a, 2) && HasFlag(b, 2) then 2 else 0) +
    (if HasFlag(a, 4) && HasFlag(b, 4) then 4 else 0) + (if HasFlag(a, 8) && HasFlag(b, 8) then 8 else 0)
  }

  /** A flag is set in a & b exactly when it is set in both. */
  lemma AndFlagsBits(a: int, b: int, g: int)
    requires 0 <= a < 16 && 0 <= b < 16 && g in {1, 2, 4, 8}
    ensures HasFlag(AndFlags(a, b), g) <==> HasFlag(a, g) && HasFlag(b, g)
  {
    var r := AndFlags(a, b);
    var b1, b2, b4, b8 := (if HasFlag(r, 1) then 1 else 0), (if HasFlag(r, 2) then 2 else 0),
                          (if HasFlag(r, 4) then 4 else 0), (if HasFlag(r, 8) then 8 else 0);
    FlagSum(r);
  }

  /** Four flags written as a sum of their bits. */
  lemma FlagSum(r: int)
    requires 0 <= r < 16
    ensures var b1, b2, b4, b8 := (if HasFlag(r, 1) then 1 else 0), (if HasFlag(r, 2) then 2 else 0),
                                  (if HasFlag(r, 4) then 4 else 0), (if HasFlag(r, 8) then 8 else 0);
      r == b1 + b2 + b4 + b8
  {
  }

  /** Two castling values with the same four flags are the same value. */
  lemma FlagsDetermine(a: int, b: int)
    requires 0 <= a < 16 && 0 <= b < 16
    requires forall g | g in {1, 2, 4, 8} :: HasFlag(a, g) <==> HasFlag(b, g)
    ensures a == b
  {
    assert HasFlag(a, 1) <==> HasFlag(b, 1);
    assert HasFlag(a, 2) <==> HasFlag(b, 2);
    assert HasFlag(a, 4) <==> HasFlag(b, 4);
    assert HasFlag(a, 8) <==> HasFlag(b, 8);
    FlagSum(a);
    FlagSum(b);
  }

  /** board_make_move's castling update: castle &= mask[from]; castle &= mask[to]. */
  function MaskCastle(castle: int, from: Square, to: Square): (r: int)
    requires 0 <= castle < 16
    ensures 0 <= r < 16
  {
    PermissionMaskFlags(from, 1);
    PermissionMaskFlags(to, 1);
    AndFlags(AndFlags(castle, PermissionMask(from)), PermissionMask(to))
  }

  /** A move keeps a flag exactly when it had it and neither of its squares is one the flag depends on: flags are only removed. */
  lemma MaskCastleSpec(castle: int, from: Square, to: Square, g: int)
    requires 0 <= castle < 16 && g in {1, 2, 4, 8}
    ensures HasFlag(MaskCastle(castle, from, to), g) <==> HasFlag(castle, g) && !Guards(from, g) && !Guards(to, g)
  {
    PermissionMaskFlags(from, g);
    PermissionMaskFlags(to, g);
    var c1 := AndFlags(castle, PermissionMask(from));
    AndFlagsBits(castle, PermissionMask(from), g);
    AndFlagsBits(c1, PermissionMask(to), g);
  }

  /** The rook squares of standard chess: H1, A1, H8, A8. */
  const STANDARD_ROOKS: P.RookSquares := P.RookSquares(H1, A1, H8, A8)

  /**
   * Every castling flag that is set has its king alone on the king's home
   * square (no other king of that side on the board) and its rook on the corner.
   */
  predicate FlagsAtHome(pieces: seq<Cell>, castle: int)
    requires |pieces| == NSQUARES && 0 <= castle < 16
  {
    (HasFlag(castle, WHITE_KINGSIDE) ==> pieces[H1] == WHITE_ROOK) &&
    (HasFlag(castle, WHITE_QUEENSIDE) ==> pieces[A1] == WHITE_ROOK) &&
    (HasFlag(castle, BLACK_KINGSIDE) ==> pieces[H8] == BLACK_ROOK) &&
    (HasFlag(castle, BLACK_QUEENSIDE) ==> pieces[A8] == BLACK_ROOK) &&
    (HasFlag(castle, WHITE_KINGSIDE) || HasFlag(castle, WHITE_QUEENSIDE) ==> KingOnlyAt(pieces, WHITE_KING, E1)) &&
    (HasFlag(castle, BLACK_KINGSIDE) || HasFlag(castle, BLACK_QUEENSIDE) ==> KingOnlyAt(pieces, BLACK_KING, E8))
  }

  /** The king stands on sq and nowhere else. */
  predicate KingOnlyAt(pieces: seq<Cell>, king: Cell, sq: Square)
    requires |pieces| == NSQUARES
  {
    forall x :: 0 <= x < NSQUARES ==> (pieces[x] == king <==> x == sq)
  }

  /**
   * On standard chess with the flags at home, the mask rule of board.c and
   * update_castling_availability of position.c give the same flags for a
   * move of a piece of the side to move to a square without a piece of its
   * own and without a king.
   */
  lemma MaskAgreesWithPosition(pieces: seq<Cell>, stm: Side, castle: int, from: Square, to: Square)
    requires |pieces| == NSQUARES && 0 <= castle < 16 && FlagsAtHome(pieces, castle)
    requires pieces[from] != NO_PIECE && Color(pieces[from]) == stm
    requires pieces[to] == NO_PIECE || (Color(pieces[to]) != stm && Value(pieces[to]) != KING)
    ensures MaskCastle(castle, from, to) == P.CastlingAvailability(pieces, stm, STANDARD_ROOKS, castle, from, to)
  {
    var a, b := MaskCastle(castle, from, to), P.CastlingAvailability(pieces, stm, STANDARD_ROOKS, castle, from, to);
    forall g | g in {1, 2, 4, 8}
      ensures HasFlag(a, g) <==> HasFlag(b, g)
    {
      MaskCastleSpec(castle, from, to, g);
      P.CastlingAvailabilitySpec(pieces, stm, STANDARD_ROOKS, castle, from, to, g);
      if HasFlag(castle, g) {
        SameLoss(pieces, stm, castle, from, to, g);
      }
    }
    FlagsDetermine(a, b);
  }

  /** For a flag that is set, the squares the mask tests and the moves position.c tests pick out the same moves. */
  lemma SameLoss(pieces: seq<Cell>, stm: Side, castle: int, from: Square, to: Square, g: int)
    requires |pieces| == NSQUARES && 0 <= castle < 16 && FlagsAtHome(pieces, castle)
    requires g in {1, 2, 4, 8} && HasFlag(castle, g)
    requires pieces[from] != NO_PIECE && Color(pieces[from]) == stm
    requires pieces[to] == NO_PIECE || (Color(pieces[to]) != stm && Value(pieces[to]) != KING)
    ensures Guards(from, g) || Guards(to, g) <==> P.LosesFlag(pieces[from], stm, STANDARD_ROOKS, from, to, g)
  {
    var piece := pieces[from];
    if g == WHITE_KINGSIDE || g == WHITE_QUEENSIDE {
      assert pieces[E1] == WHITE_KING;
      assert piece == WHITE_KING <==> from == E1;
    } else {
      assert pieces[E8] == BLACK_KING;
      assert piece == BLACK_KING <==> from == E8;
    }
  }

  // ---- board_make_null_move ------------------------------------------------------

  /**
   * board_make_null_move on the fields struct gamestate shares with struct
   * position: a NULLMOVE record, no ep square, the fullmove number after
   * black and the side flipped, each with its key update.  The fifty-move
   * counter is saved in the record but not counted up.
   */
  function MakeNullMove(z: Zobrist, s: P.State): P.State
    requires z.Valid() && 0 <= s.epSq <= NO_SQUARE
  {
    var s1 := P.PushRecord(s, P.Unmake(NULLMOVE, NO_PIECE, NO_PIECE, s.castle, s.epSq, s.fifty, s.key));
    var s2 := s1.(epSq := NO_SQUARE, key := UpdateEpSquare(z, s1.key, s.epSq, NO_SQUARE));
    var s3 := s2.(fullmove := if s.stm == BLACK then s.fullmove + 1 else s.fullmove);
    s3.(stm := FlipColor(s.stm), key := UpdateSide(z, s3.key, FlipColor(s.stm)))
  }

  /**
   * board.c's null move is position.c's null move with the fifty-move
   * counter left where it was: one lower afterwards, and everything else,
   * the record pushed and the key included, the same.
   */
  lemma NullMoveKeepsFifty(z: Zobrist, s: P.State)
    requires z.Valid() && 0 <= s.epSq <= NO_SQUARE
    ensures MakeNullMove(z, s).fifty == s.fifty == P.MakeNullMove(z, s).fifty - 1
    ensures MakeNullMove(z, s) == P.MakeNullMove(z, s).(fifty := s.fifty)
  {
  }

  /** board_unmake_null_move pops the record and restores the fields, so it takes board_make_null_move back. */
  lemma NullMoveRoundTrip(z: Zobrist, s: P.State)
    requires z.Valid() && 0 <= s.epSq <= NO_SQUARE
    ensures var q := MakeNullMove(z, s);
      |q.history| > 0 && q.ply > 0 && IsNullMove(q.history[|q.history| - 1].move) && P.UnmakeNullMove(q) == s
  {
    NullMoveIsNull();
    var q := MakeNullMove(z, s);
    assert q.history[..|q.history| - 1] == s.history;
  }
}
