/** XOR on 64-bit Zobrist keys, and the algebra the key updates rely on. */
module KeyXor {
  /** `a ^ b` on keys; proofs about keys go through these lemmas, not the bits. */
  function Xor(a: bv64, b: bv64): bv64
  {
    a ^ b
  }

  // The group laws, proved on the bits once.

  lemma XorZero(k: bv64)
    ensures Xor(k, 0) == k
  {
  }

  lemma XorSelf(a: bv64)
    ensures Xor(a, a) == 0
  {
  }

  lemma XorComm(a: bv64, b: bv64)
    ensures Xor(a, b) == Xor(b, a)
  {
  }

  lemma XorAssoc(a: bv64, b: bv64, c: bv64)
    ensures Xor(Xor(a, b), c) == Xor(a, Xor(b, c))
  {
    assert Xor(Xor(a, b), c) == (a ^ b) ^ c;
    assert Xor(a, Xor(b, c)) == a ^ (b ^ c);
  }

  // Rearrangements used by the key proofs, derived from the group laws.

  /** XOR with a value twice is the identity. */
  lemma XorTwice(k: bv64, a: bv64)
    ensures Xor(Xor(k, a), a) == k
  {
    XorAssoc(k, a, a);
    XorSelf(a);
    XorZero(k);
  }

  /** Two XORs can be applied in either order. */
  lemma XorSwap(k: bv64, a: bv64, b: bv64)
    ensures Xor(Xor(k, a), b) == Xor(Xor(k, b), a)
  {
    XorAssoc(k, a, b);
    XorComm(a, b);
    XorAssoc(k, b, a);
  }

  /** A value XORed in first can be moved past three later ones. */
  lemma XorLast(k: bv64, t: bv64, a: bv64, b: bv64, c: bv64)
    ensures Xor(Xor(Xor(Xor(k, t), a), b), c) == Xor(Xor(Xor(Xor(k, a), b), c), t)
  {
    XorSwap(k, t, a);
    XorSwap(Xor(k, a), t, b);
    XorSwap(Xor(Xor(k, a), b), t, c);
  }

  /** The last of three XORed values can be moved to the front. */
  lemma XorRotate(k: bv64, a: bv64, b: bv64, c: bv64)
    ensures Xor(Xor(Xor(k, a), b), c) == Xor(Xor(Xor(k, c), a), b)
  {
    XorSwap(Xor(k, a), b, c);
    XorSwap(k, a, c);
  }

  /** Replacing the first of three XORed values by XORing out the old one and in the new one. */
  lemma XorReplaceFirst(k: bv64, was: bv64, now: bv64, b: bv64, c: bv64)
    ensures Xor(Xor(Xor(Xor(Xor(k, was), b), c), was), now) == Xor(Xor(Xor(k, now), b), c)
  {
    XorRotate(k, b, c, was);
    XorTwice(Xor(Xor(k, b), c), was);
    XorRotate(k, b, c, now);
  }

  /** Replacing the second of two XORed values by XORing out the old one and in the new one. */
  lemma XorReplaceSecond(k: bv64, was: bv64, now: bv64, c: bv64)
    ensures Xor(Xor(Xor(Xor(k, was), c), was), now) == Xor(Xor(k, now), c)
  {
    XorSwap(k, was, c);
    XorTwice(Xor(k, c), was);
    XorSwap(k, c, now);
  }
}

/**
 * Zobrist position keys (src/key.c).
 *
 * The random 64-bit constants are a parameter (`Zobrist`): only the XOR
 * algebra of the update functions matters, not the values themselves.
 */
module Key {
  import opened Types
  import opened KeyXor

  /** The four tables of random values: piece_values, ep_values, castle_values, color_values. */
  datatype Zobrist = Zobrist(piece: seq<seq<bv64>>, ep: seq<bv64>, castle: seq<bv64>, color: seq<bv64>)
  {
    predicate Valid()
    {
      (|piece|, |ep|, |castle|, |color|) == (NPIECES, NSQUARES, 16, 2) &&
      forall p :: 0 <= p < NPIECES ==> |piece[p]| == NSQUARES
    }
  }

  /** The state a key is computed from: the piece array, ep square, castling flags and side to move. */
  datatype KeyState = KeyState(pieces: seq<Cell>, ep: int, castle: int, stm: Side)
  {
    predicate Valid()
    {
      |pieces| == NSQUARES && 0 <= ep <= NO_SQUARE && 0 <= castle < 16
    }
  }

  // ---- the update functions -------------------------------------------------

  /** key_update_piece: toggles piece on sq in or out of the key. */
  function UpdatePiece(z: Zobrist, key: bv64, piece: int, sq: Square): bv64
    requires z.Valid() && 0 <= piece < NPIECES
  {
    Xor(key, z.piece[piece][sq])
  }

  /** The contribution of an en-passant square: nothing for NO_SQUARE. */
  function EpTerm(z: Zobrist, sq: int): bv64
    requires z.Valid() && 0 <= sq <= NO_SQUARE
  {
    if sq == NO_SQUARE then 0 else z.ep[sq]
  }

  /** key_update_ep_square: removes the old square's value and adds the new one's; NO_SQUARE has none. */
  function UpdateEpSquare(z: Zobrist, key: bv64, oldSq: int, newSq: int): (r: bv64)
    requires z.Valid() && 0 <= oldSq <= NO_SQUARE && 0 <= newSq <= NO_SQUARE
    ensures r == Xor(Xor(key, EpTerm(z, oldSq)), EpTerm(z, newSq))
  {
    XorZero(key);
    var k1 := if oldSq != NO_SQUARE then Xor(key, z.ep[oldSq]) else key;
    XorZero(k1);
    if newSq != NO_SQUARE then Xor(k1, z.ep[newSq]) else k1
  }

  /** key_update_side: XORs the values of both colours, whichever side is now to move. */
  function UpdateSide(z: Zobrist, key: bv64, newColor: Side): (r: bv64)
    requires z.Valid()
    ensures r == Xor(Xor(key, z.color[WHITE]), z.color[BLACK])
  {
    XorSwap(key, z.color[WHITE], z.color[BLACK]);
    Xor(Xor(key, z.color[FlipColor(newColor)]), z.color[newColor])
  }

  /** key_update_castling: swaps the value of the old castling flags for the new one's. */
  function UpdateCastling(z: Zobrist, key: bv64, oldCastle: int, newCastle: int): bv64
    requires z.Valid() && 0 <= oldCastle < 16 && 0 <= newCastle < 16
  {
    Xor(Xor(key, z.castle[oldCastle]), z.castle[newCastle])
  }

  // ---- algebra of the updates ----------------------------------------------

  /** Toggling the same piece twice leaves the key unchanged. */
  lemma UpdatePieceInvolution(z: Zobrist, key: bv64, piece: int, sq: Square)
    requires z.Valid() && 0 <= piece < NPIECES
    ensures UpdatePiece(z, UpdatePiece(z, key, piece, sq), piece, sq) == key
  {
    XorTwice(key, z.piece[piece][sq]);
  }

  /** Toggles of different pieces or squares commute. */
  lemma UpdatePieceCommutes(z: Zobrist, key: bv64, p1: int, s1: Square, p2: int, s2: Square)
    requires z.Valid() && 0 <= p1 < NPIECES && 0 <= p2 < NPIECES
    ensures UpdatePiece(z, UpdatePiece(z, key, p1, s1), p2, s2) == UpdatePiece(z, UpdatePiece(z, key, p2, s2), p1, s1)
  {
    XorSwap(key, z.piece[p1][s1], z.piece[p2][s2]);
  }

  /** Changing the ep square to itself, NO_SQUARE included, changes nothing; changes compose. */
  lemma UpdateEpSquareAlgebra(z: Zobrist, key: bv64, a: int, b: int, c: int)
    requires z.Valid() && 0 <= a <= NO_SQUARE && 0 <= b <= NO_SQUARE && 0 <= c <= NO_SQUARE
    ensures UpdateEpSquare(z, key, a, a) == key
    ensures UpdateEpSquare(z, UpdateEpSquare(z, key, a, b), b, c) == UpdateEpSquare(z, key, a, c)
  {
    XorTwice(key, EpTerm(z, a));
    XorTwice(Xor(key, EpTerm(z, a)), EpTerm(z, b));
  }

  /** The side update does not depend on the colour, and undoes itself. */
  lemma UpdateSideAlgebra(z: Zobrist, key: bv64, c: Side)
    requires z.Valid()
    ensures UpdateSide(z, key, c) == UpdateSide(z, key, FlipColor(c))
    ensures UpdateSide(z, UpdateSide(z, key, c), FlipColor(c)) == key
  {
    var w, b := z.color[WHITE], z.color[BLACK];
    XorSwap(Xor(key, w), b, w);
    XorTwice(key, w);
    XorTwice(key, b);
  }

  /** Changing castling flags to themselves changes nothing; changes compose. */
  lemma UpdateCastlingAlgebra(z: Zobrist, key: bv64, a: int, b: int, c: int)
    requires z.Valid() && 0 <= a < 16 && 0 <= b < 16 && 0 <= c < 16
    ensures UpdateCastling(z, key, a, a) == key
    ensures UpdateCastling(z, UpdateCastling(z, key, a, b), b, c) == UpdateCastling(z, key, a, c)
  {
    XorTwice(key, z.castle[a]);
    XorTwice(Xor(key, z.castle[a]), z.castle[b]);
  }

  // ---- key_generate -----------------------------------------------------------

  /** The contribution of square sq of the piece array. */
  function PieceTerm(z: Zobrist, pieces: seq<Cell>, sq: Square): bv64
    requires z.Valid() && |pieces| == NSQUARES
  {
    if pieces[sq] == NO_PIECE then 0 else z.piece[pieces[sq]][sq]
  }

  /** The XOR of the piece values of squares 0 .. n-1. */
  function PiecesKey(z: Zobrist, pieces: seq<Cell>, n: nat): bv64
    requires z.Valid() && |pieces| == NSQUARES && n <= NSQUARES
  {
    if n == 0 then 0 else Xor(PiecesKey(z, pieces, n - 1), PieceTerm(z, pieces, n - 1))
  }

  /** The key a state should have: every piece, the ep square, the castling flags and the side. */
  function KeyOf(z: Zobrist, s: KeyState): bv64
    requires z.Valid() && s.Valid()
  {
    Xor(Xor(Xor(PiecesKey(z, s.pieces, NSQUARES), EpTerm(z, s.ep)), z.castle[s.castle]), z.color[s.stm])
  }

  /** key_generate: the loop over the squares, then ep, castling and side. */
  method KeyGenerate(z: Zobrist, s: KeyState) returns (key: bv64)
    requires z.Valid() && s.Valid()
    ensures key == KeyOf(z, s)
  {
    key := 0;
    var k := 0;
    while k < NSQUARES
      invariant 0 <= k <= NSQUARES
      invariant key == PiecesKey(z, s.pieces, k)
    {
      if s.pieces[k] != NO_PIECE {
        key := Xor(key, z.piece[s.pieces[k]][k]);
      } else {
        XorZero(key);
      }
      k := k + 1;
    }
    XorZero(key);
    if s.ep != NO_SQUARE {
      key := Xor(key, z.ep[s.ep]);
    }
    key := Xor(key, z.castle[s.castle]);
    key := Xor(key, z.color[s.stm]);
  }

  /**
   * Changing one square of the piece array: the fold is unchanged if the
   * square is not among the first n, and otherwise differs by that square's
   * old and new terms.
   */
  lemma {:induction false} PiecesKeySet(z: Zobrist, pieces: seq<Cell>, sq: Square, p: Cell, n: nat)
    requires z.Valid() && |pieces| == NSQUARES && n <= NSQUARES
    ensures n <= sq ==> PiecesKey(z, pieces[sq := p], n) == PiecesKey(z, pieces, n)
    ensures sq < n ==> PiecesKey(z, pieces[sq := p], n)
                       == Xor(Xor(PiecesKey(z, pieces, n), PieceTerm(z, pieces, sq)), PieceTerm(z, pieces[sq := p], sq))
  {
    if n > 0 {
      var q := pieces[sq := p];
      PiecesKeySet(z, pieces, sq, p, n - 1);
      var prev := PiecesKey(z, pieces, n - 1);
      if n - 1 < sq {
        assert PieceTerm(z, q, n - 1) == PieceTerm(z, pieces, n - 1);
      } else if n - 1 == sq {
        XorTwice(Xor(prev, PieceTerm(z, pieces, sq)), PieceTerm(z, pieces, sq));
      } else {
        assert PieceTerm(z, q, n - 1) == PieceTerm(z, pieces, n - 1);
        XorRotate(prev, PieceTerm(z, pieces, sq), PieceTerm(z, q, sq), PieceTerm(z, pieces, n - 1));
      }
    }
  }

  /** Putting a piece on an empty square changes key_generate exactly as key_update_piece does. */
  lemma KeyAddPiece(z: Zobrist, s: KeyState, piece: int, sq: Square)
    requires z.Valid() && s.Valid() && 0 <= piece < NPIECES && s.pieces[sq] == NO_PIECE
    ensures KeyOf(z, s.(pieces := s.pieces[sq := piece])) == UpdatePiece(z, KeyOf(z, s), piece, sq)
  {
    var P := PiecesKey(z, s.pieces, NSQUARES);
    PiecesKeySet(z, s.pieces, sq, piece, NSQUARES);
    XorZero(P);
    XorLast(P, z.piece[piece][sq], EpTerm(z, s.ep), z.castle[s.castle], z.color[s.stm]);
  }

  /** Taking a piece off its square changes key_generate exactly as key_update_piece does. */
  lemma KeyRemovePiece(z: Zobrist, s: KeyState, sq: Square)
    requires z.Valid() && s.Valid() && s.pieces[sq] != NO_PIECE
    ensures KeyOf(z, s.(pieces := s.pieces[sq := NO_PIECE])) == UpdatePiece(z, KeyOf(z, s), s.pieces[sq], sq)
  {
    var P := PiecesKey(z, s.pieces, NSQUARES);
    var t := z.piece[s.pieces[sq]][sq];
    PiecesKeySet(z, s.pieces, sq, NO_PIECE, NSQUARES);
    XorZero(Xor(P, t));
    XorLast(P, t, EpTerm(z, s.ep), z.castle[s.castle], z.color[s.stm]);
  }

  /** A new ep square changes key_generate as key_update_ep_square does. */
  lemma KeyNewEpSquare(z: Zobrist, s: KeyState, ep: int)
    requires z.Valid() && s.Valid() && 0 <= ep <= NO_SQUARE
    ensures KeyOf(z, s.(ep := ep)) == UpdateEpSquare(z, KeyOf(z, s), s.ep, ep)
  {
    XorReplaceFirst(PiecesKey(z, s.pieces, NSQUARES), EpTerm(z, s.ep), EpTerm(z, ep), z.castle[s.castle], z.color[s.stm]);
  }

  /** New castling flags change key_generate as key_update_castling does. */
  lemma KeyNewCastling(z: Zobrist, s: KeyState, castle: int)
    requires z.Valid() && s.Valid() && 0 <= castle < 16
    ensures KeyOf(z, s.(castle := castle)) == UpdateCastling(z, KeyOf(z, s), s.castle, castle)
  {
    var PE := Xor(PiecesKey(z, s.pieces, NSQUARES), EpTerm(z, s.ep));
    XorReplaceSecond(PE, z.castle[s.castle], z.castle[castle], z.color[s.stm]);
  }

  /** Flipping the side to move changes key_generate as key_update_side does. */
  lemma KeyNewSide(z: Zobrist, s: KeyState)
    requires z.Valid() && s.Valid()
    ensures KeyOf(z, s.(stm := FlipColor(s.stm))) == UpdateSide(z, KeyOf(z, s), FlipColor(s.stm))
  {
    var PEC := Xor(Xor(PiecesKey(z, s.pieces, NSQUARES), EpTerm(z, s.ep)), z.castle[s.castle]);
    var m0, m1 := z.color[s.stm], z.color[FlipColor(s.stm)];
    XorTwice(Xor(PEC, m0), m0);
    // the update XORs both colours' values, in either order
    if s.stm == WHITE {
      XorTwice(PEC, m0);
      assert Xor(Xor(Xor(PEC, m0), m0), m1) == Xor(PEC, m1);
    } else {
      XorSwap(Xor(PEC, m0), m1, m0);
      XorTwice(PEC, m0);
      XorSwap(PEC, m0, m1);
      XorTwice(Xor(PEC, m1), m0);
      XorLast(PEC, m0, m1, m0, 0);
    }
  }
}
