/**
 * The Python training-data generator (scripts/gensfen.py): its own packed
 * sfen writer over a python-chess board, its move encoder, the binary and
 * plain record writers, the adjudication loop of play_game and the worker
 * loop around it.
 *
 * A python-chess board is modelled by the facts the script reads from it;
 * numpy's uint16 conversions are written out as `% 0x1_0000`. The writer
 * is proved to produce exactly the block the engine's own encoder
 * (SfenBuffer) produces for the corresponding engine position, so the
 * engine's decoder reads it back.
 */
module GenSfen {
  import opened Types
  import opened Wrappers
  import opened CInt
  import S = SfenFormat
  import SB = SfenBuffer
  import G = SfenGame

  // python-chess piece types
  const PY_PAWN: int := 1
  const PY_KNIGHT: int := 2
  const PY_QUEEN: int := 5
  const PY_KING: int := 6

  type PieceType = t: int | 1 <= t <= 6 witness 1

  /** HUFFMAN_TABLE of the script, indexed by python-chess piece type (0 for an empty square). */
  const PY_HUFFMAN: seq<nat> := [0, 1, 3, 5, 7, 9]

  /** What board.piece_at(sq) returns: None or a piece of a type and a colour. */
  datatype PyPiece = Empty | Piece(pieceType: PieceType, white: bool)

  /**
   * The facts encode_position reads from a python-chess board: the 64
   * squares, the side to move, both king squares, the four castling rights,
   * the en-passant square (None when there is none), the halfmove clock and
   * the fullmove number.
   */
  datatype PyBoard = PyBoard(
    squares: seq<PyPiece>,
    turnWhite: bool,
    whiteKing: Square,
    blackKing: Square,
    whiteKingside: bool,
    whiteQueenside: bool,
    blackKingside: bool,
    blackQueenside: bool,
    epSquare: Option<Square>,
    halfmove: nat,
    fullmove: nat)

  /** np.uint16(x): the value taken modulo 2^16. */
  function U16(x: nat): (r: nat)
    ensures r < 0x1_0000 && (x < 0x1_0000 ==> r == x)
  {
    x % 0x1_0000
  }

  /** The engine's piece for a python-chess piece: type t becomes 2 * (t - 1), black adds one. */
  function CellOf(pc: PyPiece): (c: Cell)
    ensures c == NO_PIECE <==> pc.Empty?
    ensures S.IsKing(c) <==> pc.Piece? && pc.pieceType == PY_KING
    ensures pc.Piece? ==> (Color(c) == WHITE <==> pc.white) && Value(c) == 2 * (pc.pieceType - 1)
  {
    match pc
    case Empty => NO_PIECE
    case Piece(t, w) => 2 * (t - 1) + (if w then 0 else 1)
  }

  function CellsOf(squares: seq<PyPiece>): (cells: seq<Cell>)
    ensures |cells| == |squares|
    ensures forall k :: 0 <= k < |squares| ==> cells[k] == CellOf(squares[k])
  {
    seq(|squares|, k requires 0 <= k < |squares| => CellOf(squares[k]))
  }

  /**
   * The en-passant square as encode_position sees it: `not board.ep_square`
   * is also true for square 0 (a1), which is then written as no square.
   */
  function EpOf(ep: Option<Square>): (sq: nat)
    ensures sq == NO_SQUARE || (ep == Some(sq) && sq != 0)
  {
    if ep.None? || ep.value == 0 then NO_SQUARE else ep.value
  }

  /** The engine's castling flags for the four rights. */
  function CastleOf(b: PyBoard): (c: nat)
    ensures c < 16
    ensures HasFlag(c, WHITE_KINGSIDE) == b.whiteKingside && HasFlag(c, WHITE_QUEENSIDE) == b.whiteQueenside
    ensures HasFlag(c, BLACK_KINGSIDE) == b.blackKingside && HasFlag(c, BLACK_QUEENSIDE) == b.blackQueenside
  {
    (if b.whiteKingside then 1 else 0) + (if b.whiteQueenside then 2 else 0)
    + (if b.blackKingside then 4 else 0) + (if b.blackQueenside then 8 else 0)
  }

  /** The engine position a board stands for. */
  function SfenOf(b: PyBoard): (p: S.SfenPosition)
    ensures p.board == CellsOf(b.squares)
    ensures p.stm == (if b.turnWhite then WHITE else BLACK)
    ensures p.whiteKingSq == b.whiteKing && p.blackKingSq == b.blackKing
    ensures p.epSq == EpOf(b.epSquare) && p.castle == CastleOf(b)
    ensures p.fifty == b.halfmove && p.fullmove == b.fullmove
  {
    S.SfenPosition(CellsOf(b.squares), b.whiteKing, b.blackKing, EpOf(b.epSquare), CastleOf(b),
      b.halfmove, b.fullmove, if b.turnWhite then WHITE else BLACK)
  }

  // ---- encode_bit, encode_bits, encode_piece_at ----------------------------------

  /**
   * encode_bit: sets bit pos of the block when value is non-zero and
   * returns pos + 1. The cursor is a uint16 that never gets near 2^16.
   */
  method EncodeBit(data: array<bv8>, pos: nat, value: nat) returns (next: nat)
    requires pos < 8 * data.Length
    modifies data
    ensures next == pos + 1
    ensures data[..] == SB.SetIf(old(data[..]), pos, value != 0)
  {
    if value != 0 {
      var i := pos / 8;
      data[i] := data[i] | SB.Mask(pos % 8);
    }
    next := pos + 1;
  }

  /** Bit i of v is the last of the i + 1 low bits of v. */
  lemma {:induction false} BitsSnoc(v: nat, i: nat)
    ensures S.Bits(v, i + 1) == S.Bits(v, i) + [(v / S.Pow2(i)) % 2 == 1]
  {
    if i > 0 {
      BitsSnoc(v / 2, i - 1);
      HalfDiv(v, S.Pow2(i - 1));
    }
  }

  /** Halving and then dividing by a is dividing by 2a. */
  lemma HalfDiv(v: nat, a: nat)
    requires a > 0
    ensures (v / 2) / a == v / (2 * a)
  {
    var q := v / (2 * a);
    var m := a * q;
    assert 2 * m <= v < 2 * m + 2 * a;
    var h := v / 2;
    assert m <= h < m + a;
    DivBetween(h, a, q, m);
  }

  /** The quotient is the q with d * q <= x < d * q + d. */
  lemma DivBetween(x: nat, d: nat, q: nat, m: nat)
    requires d > 0 && m == d * q && m <= x < m + d
    ensures x / d == q
  {
    var k := x / d;
    assert d * k <= x < d * k + d;
    if k > q {
      MulMono(d, q + 1, k);
    } else if k < q {
      MulMono(d, k + 1, q);
    }
  }

  lemma MulMono(a: nat, b: nat, c: nat)
    requires b <= c
    ensures a * b <= a * c && a * (b + 1) == a * b + a
  {
    assert a * c == a * b + a * (c - b);
  }

  /**
   * encode_bits: for i from 0 to nbits - 1, encode_bit of value & (1 << i);
   * the nbits low bits of value, least significant first, from pos on.
   */
  method EncodeBits(data: array<bv8>, pos: nat, value: nat, nbits: nat) returns (next: nat)
    requires pos + nbits <= 8 * data.Length
    modifies data
    ensures next == pos + nbits
    ensures data[..] == SB.OrBytes(old(data[..]), pos, S.Bits(value, nbits))
  {
    ghost var start := data[..];
    SB.OrBytesNothing(start, pos, S.Bits(value, 0));
    next := pos;
    for i := 0 to nbits
      invariant next == pos + i
      invariant data[..] == SB.OrBytes(start, pos, S.Bits(value, i))
    {
      // value & (1 << i)
      var masked := if (value / S.Pow2(i)) % 2 == 1 then S.Pow2(i) else 0;
      BitsSnoc(value, i);
      SB.OrBytesSnoc(start, pos, S.Bits(value, i), masked != 0, next);
      next := EncodeBit(data, next, masked);
    }
  }

  /** The script's table agrees with the engine's Huffman table. */
  lemma PyCode(pc: PyPiece, code: nat, black: nat)
    requires !(pc.Piece? && pc.pieceType == PY_KING)
    requires code == U16(PY_HUFFMAN[if pc.Piece? then pc.pieceType else 0])
    requires black == (if pc.Piece? && !pc.white then 1 else 0)
    ensures pc.Empty? ==> S.PieceBits(CellOf(pc)) == S.Bits(code, 1)
    ensures pc.Piece? ==> S.PieceBits(CellOf(pc)) == S.Bits(code, 4) + [U16(black) != 0]
  {
    SB.PieceCode(CellOf(pc));
    if pc.Piece? {
      SB.RowBits(pc.pieceType);
    } else {
      SB.RowBits(0);
    }
  }

  /**
   * encode_piece_at: one 0 bit for an empty square, else the four-bit code
   * of the piece type and then `not piece_color` (1 for black). The script
   * never calls it on a king (the table has no entry for one).
   */
  method EncodePieceAt(data: array<bv8>, pos: nat, pc: PyPiece) returns (next: nat)
    requires !(pc.Piece? && pc.pieceType == PY_KING)
    requires pos + |S.PieceBits(CellOf(pc))| <= 8 * data.Length
    modifies data
    ensures next == pos + |S.PieceBits(CellOf(pc))|
    ensures data[..] == SB.OrBytes(old(data[..]), pos, S.PieceBits(CellOf(pc)))
  {
    var code := U16(PY_HUFFMAN[if pc.Piece? then pc.pieceType else 0]);
    var black := if pc.Piece? && !pc.white then 1 else 0;
    PyCode(pc, code, black);
    if pc.Empty? {
      next := EncodeBits(data, pos, code, 1);
    } else {
      ghost var start := data[..];
      next := EncodeBits(data, pos, code, 4);
      SB.OrBytesSnoc(start, pos, S.Bits(code, 4), U16(black) != 0, next);
      next := EncodeBit(data, next, U16(black));
    }
  }

  // ---- encode_position -------------------------------------------------------------

  /** Only the low bits of a uint16 conversion are ever written. */
  lemma LowBitsOfU16(x: nat, n: nat)
    requires n <= 16
    ensures S.Bits(U16(x), n) == S.Bits(x, n)
  {
    var h := x / 0x1_0000;
    assert S.Pow2(16) == 0x1_0000 by {
      assert S.Pow2(4) == 16 && S.Pow2(8) == 256;
      assert S.Pow2(12) == 4096;
    }
    S.BitsLow(U16(x), h, 16);
    BitsPrefix(U16(x) + S.Pow2(16) * h, n, 16);
    BitsPrefix(U16(x), n, 16);
  }

  /** The n low bits are a prefix of the m low bits. */
  lemma {:induction false} BitsPrefix(v: nat, n: nat, m: nat)
    requires n <= m
    ensures S.Bits(v, m)[..n] == S.Bits(v, n)
  {
    if n > 0 {
      BitsPrefix(v / 2, n - 1, m - 1);
    }
  }

  /**
   * encode_position: a cleared 32-byte block with the side to move, the
   * king squares, the board from rank 8 down with kings skipped, the
   * castling rights, the en-passant square and the counters. The stream
   * has to fit the block: a set bit past it is an IndexError.
   */
  method EncodePosition(b: PyBoard) returns (data: array<bv8>)
    requires |b.squares| == 64
    requires |S.EncodeStream(SfenOf(b))| <= S.POSITION_BITS
    ensures data.Length == S.POSITION_BYTES
    ensures data[..] == SB.OrBytes(Cleared(), 0, S.EncodeStream(SfenOf(b)))
  {
    data := new bv8[32](_ => 0);
    ghost var start := data[..];
    assert start == Cleared();
    ghost var p := SfenOf(b);

    // Side to move and the king squares
    var black := if b.turnWhite then 0 else 1;
    SB.OrBytesOne(start, 0, black != 0);
    var pos := EncodeBit(data, 0, U16(black));
    ghost var w := [p.stm == BLACK];
    LowBitsOfU16(b.whiteKing, 6);
    SB.WriteMore(start, w, S.Bits(p.whiteKingSq, 6), pos);
    pos := EncodeBits(data, pos, U16(b.whiteKing), 6);
    w := w + S.Bits(p.whiteKingSq, 6);
    LowBitsOfU16(b.blackKing, 6);
    SB.WriteMore(start, w, S.Bits(p.blackKingSq, 6), pos);
    pos := EncodeBits(data, pos, U16(b.blackKing), 6);
    w := w + S.Bits(p.blackKingSq, 6);
    assert w == S.Header(p);

    // The board
    pos := EncodeBoard(b, data, pos, start, w);
    w := w + S.SquaresFrom(p.board, 7);

    // Castling, en passant and the counters
    EncodeTail(b, data, pos, start, w);
  }

  /** A cleared block. */
  function Cleared(): (z: seq<bv8>)
    ensures |z| == S.POSITION_BYTES && forall j :: 0 <= j < |z| ==> z[j] == 0
  {
    seq(32, _ => 0)
  }

  /** The rank loop of encode_position: ranks 8 down to 1. */
  method EncodeBoard(b: PyBoard, data: array<bv8>, pos: nat, ghost start: seq<bv8>, ghost w: seq<bool>)
    returns (next: nat)
    requires |b.squares| == 64 && data.Length == S.POSITION_BYTES
    requires pos == |w| && |w| + |S.SquaresFrom(CellsOf(b.squares), 7)| <= 228
    requires data[..] == SB.OrBytes(start, 0, w)
    modifies data
    ensures next == pos + |S.SquaresFrom(CellsOf(b.squares), 7)|
    ensures data[..] == SB.OrBytes(start, 0, w + S.SquaresFrom(CellsOf(b.squares), 7))
  {
    ghost var board := CellsOf(b.squares);
    SB.AboveTop(board, w);
    next := pos;
    var r := 7;
    while r >= 0
      invariant -1 <= r <= 7 && next == |w| + |SB.Above(board, r)|
      invariant |SB.Above(board, r)| + |S.SquaresFrom(board, r)| == |S.SquaresFrom(board, 7)|
      invariant data[..] == SB.OrBytes(start, 0, w + SB.Above(board, r))
    {
      SB.AboveStep(board, r, w);
      next := EncodeFiles(b, board, r, data, next, start, w + SB.Above(board, r));
      r := r - 1;
    }
    SB.AboveAll(board, w, r);
  }

  /** board holds the engine's piece for every square of squares. */
  predicate CellsAgree(squares: seq<PyPiece>, board: seq<Cell>)
  {
    |squares| == |board| && forall k :: 0 <= k < |board| ==> board[k] == CellOf(squares[k])
  }

  lemma SquareAgrees(squares: seq<PyPiece>, board: seq<Cell>, r: nat, f: nat)
    requires |board| == 64 && CellsAgree(squares, board) && r < 8 && f < 8
    ensures r * 8 + f < |squares| && board[8 * r + f] == CellOf(squares[r * 8 + f])
  {
  }

  /** The file loop of encode_position for rank r: a king is skipped, any other square written. */
  method EncodeFiles(b: PyBoard, ghost board: seq<Cell>, r: nat, data: array<bv8>, pos: nat, ghost start: seq<bv8>, ghost w: seq<bool>)
    returns (next: nat)
    requires |board| == 64 && CellsAgree(b.squares, board) && r < 8 && data.Length == S.POSITION_BYTES
    requires pos == |w| && |w| + |S.RankBits(board, r, 0)| < 256
    requires data[..] == SB.OrBytes(start, 0, w)
    modifies data
    ensures next == pos + |S.RankBits(board, r, 0)|
    ensures data[..] == SB.OrBytes(start, 0, w + S.RankBits(board, r, 0))
  {
    SB.AppendNothing(w, SB.Before(board, r, 0));
    next := pos;
    for f := 0 to 8
      invariant next == |w| + |SB.Before(board, r, f)|
      invariant data[..] == SB.OrBytes(start, 0, w + SB.Before(board, r, f))
    {
      var pc := b.squares[r * 8 + f];
      SquareAgrees(b.squares, board, r, f);
      next := EncodeSquare(board, pc, r, f, data, next, start, w);
    }
    SB.BeforeAll(board, r, 8, w);
  }

  /** The body of the file loop for the piece pc on file f of rank r: `continue` on a king, else encode_piece_at. */
  method EncodeSquare(ghost board: seq<Cell>, pc: PyPiece, r: nat, f: nat, data: array<bv8>, pos: nat,
                      ghost start: seq<bv8>, ghost w: seq<bool>)
    returns (next: nat)
    requires |board| == 64 && r < 8 && f < 8 && board[8 * r + f] == CellOf(pc) && data.Length == S.POSITION_BYTES
    requires pos == |w| + |SB.Before(board, r, f)| && |w| + |S.RankBits(board, r, 0)| < 256
    requires data[..] == SB.OrBytes(start, 0, w + SB.Before(board, r, f))
    modifies data
    ensures next == |w| + |SB.Before(board, r, f + 1)|
    ensures data[..] == SB.OrBytes(start, 0, w + SB.Before(board, r, f + 1))
  {
    SB.BeforeStep(board, r, f, f + 1, w);
    SB.BeforeSplit(board, r, f + 1);
    if pc.Piece? && pc.pieceType == PY_KING {
      SB.AppendNothing(w + SB.Before(board, r, f), S.SquareBits(CellOf(pc)));
      return pos;
    }
    SB.WriteMore(start, w + SB.Before(board, r, f), S.PieceBits(CellOf(pc)), pos);
    next := EncodePieceAt(data, pos, pc);
  }

  /**
   * The end of encode_position: the four castling rights, the en-passant
   * flag and square, the halfmove clock's six low bits, the fullmove
   * number's two bytes and the halfmove clock's seventh bit.
   */
  method EncodeTail(b: PyBoard, data: array<bv8>, pos: nat, ghost start: seq<bv8>, ghost w: seq<bool>)
    requires data.Length == S.POSITION_BYTES
    requires pos == |w| && |w| + |S.Tail(SfenOf(b))| <= S.POSITION_BITS
    requires data[..] == SB.OrBytes(start, 0, w)
    modifies data
    ensures data[..] == SB.OrBytes(start, 0, w + S.Tail(SfenOf(b)))
  {
    ghost var p := SfenOf(b);
    var c := pos;
    ghost var v := w;
    SB.WriteBit(start, v, b.whiteKingside, c);
    c := EncodeBit(data, c, if b.whiteKingside then 1 else 0);
    v := v + [b.whiteKingside];
    SB.WriteBit(start, v, b.whiteQueenside, c);
    c := EncodeBit(data, c, if b.whiteQueenside then 1 else 0);
    v := v + [b.whiteQueenside];
    SB.WriteBit(start, v, b.blackKingside, c);
    c := EncodeBit(data, c, if b.blackKingside then 1 else 0);
    v := v + [b.blackKingside];
    SB.WriteBit(start, v, b.blackQueenside, c);
    c := EncodeBit(data, c, if b.blackQueenside then 1 else 0);
    v := v + [b.blackQueenside];

    c := EncodeEp(b.epSquare, data, c, start, v);
    EncodeCounters(b.halfmove, b.fullmove, data, c, start, v + S.EpBits(p.epSq));
    SB.TailShape(p, w);
  }

  /** `if not board.ep_square`: a zero flag; otherwise a one flag and the six-bit square. */
  method EncodeEp(ep: Option<Square>, data: array<bv8>, pos: nat, ghost start: seq<bv8>, ghost w: seq<bool>)
    returns (next: nat)
    requires data.Length == S.POSITION_BYTES
    requires pos == |w| && |w| + |S.EpBits(EpOf(ep))| + 23 <= S.POSITION_BITS
    requires data[..] == SB.OrBytes(start, 0, w)
    modifies data
    ensures next == |w| + |S.EpBits(EpOf(ep))|
    ensures data[..] == SB.OrBytes(start, 0, w + S.EpBits(EpOf(ep)))
  {
    var sq := EpOf(ep);
    SB.EpShape(w, sq, sq != NO_SQUARE);
    if ep.None? || ep.value == 0 {
      SB.WriteBit(start, w, false, pos);
      next := EncodeBit(data, pos, 0);
    } else {
      SB.WriteBit(start, w, true, pos);
      next := EncodeBit(data, pos, 1);
      LowBitsOfU16(ep.value, 6);
      SB.WriteMore(start, w + [true], S.Bits(sq, 6), next);
      next := EncodeBits(data, next, U16(ep.value), 6);
    }
  }

  /** The counters, each through a uint16 conversion, and the halfmove clock's bit 6. */
  method EncodeCounters(halfmove: nat, fullmove: nat, data: array<bv8>, pos: nat, ghost start: seq<bv8>, ghost w: seq<bool>)
    requires data.Length == S.POSITION_BYTES
    requires pos == |w| && |w| + 23 <= S.POSITION_BITS
    requires data[..] == SB.OrBytes(start, 0, w)
    modifies data
    ensures data[..] == SB.OrBytes(start, 0, w + S.CounterBits(halfmove, fullmove))
  {
    ghost var b6, b8, h8 := S.Bits(halfmove, 6), S.Bits(fullmove, 8), S.Bits(fullmove / 256, 8);
    LowBitsOfU16(halfmove, 6);
    SB.WriteMore(start, w, b6, pos);
    var c := EncodeBits(data, pos, U16(halfmove), 6);
    LowBitsOfU16(fullmove, 8);
    SB.WriteMore(start, w + b6, b8, c);
    c := EncodeBits(data, c, U16(fullmove), 8);
    var highBit := (halfmove / 64) % 2;
    LowBitsOfU16(fullmove / 256, 8);
    SB.WriteMore(start, w + b6 + b8, h8, c);
    c := EncodeBits(data, c, U16(fullmove / 256), 8);
    SB.WriteBit(start, w + b6 + b8 + h8, highBit != 0, c);
    c := EncodeBit(data, c, U16(highBit));
    SB.CountersJoin(w, b6, b8, h8, [highBit != 0]);
  }

  /**
   * What the trainer relies on: the script's block holds the engine's
   * stream for the same position followed by zero bits, and the engine's
   * decoder reads that position back.
   */
  lemma PyBlockDecodes(b: PyBoard)
    requires |b.squares| == 64 && S.WellFormed(SfenOf(b))
    requires |S.EncodeStream(SfenOf(b))| <= S.POSITION_BITS
    ensures SB.BufferBits(SB.OrBytes(Cleared(), 0, S.EncodeStream(SfenOf(b))))
      == S.EncodeStream(SfenOf(b)) + SB.Zeros(S.POSITION_BITS - |S.EncodeStream(SfenOf(b))|)
    ensures S.DecodeStream(SB.BufferBits(SB.OrBytes(Cleared(), 0, S.EncodeStream(SfenOf(b))))) == Some(SfenOf(b))
  {
    SB.EncodedBlockDecodes(SfenOf(b), Cleared());
  }

  // ---- encode_move -------------------------------------------------------------------

  type PromotionType = t: int | 2 <= t <= 5 witness 2

  /** board.is_kingside_castling / is_queenside_castling of a move. */
  datatype Castling = NoCastling | KingsideCastling | QueensideCastling

  /**
   * A move with what the board says about it: origin, destination (the
   * king's landing square for castling), the promotion piece type if any,
   * and whether the board calls it en passant or castling.
   */
  datatype PyMove = PyMove(
    fromSq: Square,
    toSq: Square,
    promotion: Option<PromotionType>,
    enPassant: bool,
    castling: Castling)

  /** The rook square encode_move stores for a castling move of the side to move. */
  function RookSquare(turnWhite: bool, c: Castling): (sq: Square)
    requires c != NoCastling
    ensures FileNr(sq) == (if c == KingsideCastling then 7 else 0)
    ensures RankNr(sq) == (if turnWhite then 0 else 7)
  {
    if turnWhite && c == KingsideCastling then 7
    else if turnWhite then 0
    else if c == KingsideCastling then 63
    else 56
  }

  /** Bits 14-15: the promotion flag 1 ORed with en passant 2 or castling 3. */
  function FlagOr(promotion: bool, special: nat): (f: nat)
    requires special in {0, 2, 3}
    ensures f < 4
  {
    if !promotion then special else if special == 0 then 1 else 3
  }

  /**
   * encode_move: the destination, the castling rook square instead for a
   * castling move, in bits 0-5; the origin in bits 6-11; the promotion type
   * less two in bits 12-13; the special-move flag in bits 14-15. The fields
   * do not overlap, so the ORs of the script add.
   */
  function PyEncodeMove(turnWhite: bool, m: PyMove): (d: nat)
    ensures d < 0x1_0000
  {
    var to := if m.castling != NoCastling then RookSquare(turnWhite, m.castling) else m.toSq;
    var promo := if m.promotion.Some? then m.promotion.value - 2 else 0;
    var special := if m.enPassant then 2 else if m.castling != NoCastling then 3 else 0;
    to + 64 * m.fromSq + 4096 * promo + 16384 * FlagOr(m.promotion.Some?, special)
  }

  /** A move is at most one of a promotion, an en-passant capture and a castling move. */
  predicate OneKind(m: PyMove)
  {
    (if m.promotion.Some? then 1 else 0) + (if m.enPassant then 1 else 0) + (if m.castling != NoCastling then 1 else 0) <= 1
  }

  /**
   * The fields of the 16-bit move read back: the castling rook square (or
   * the destination), the origin, the promotion type and the flag that
   * names the kind of move.
   */
  lemma PyMoveFields(turnWhite: bool, m: PyMove)
    requires OneKind(m)
    ensures var d := PyEncodeMove(turnWhite, m);
      && G.DestField(d) == (if m.castling != NoCastling then RookSquare(turnWhite, m.castling) else m.toSq)
      && G.OriginField(d) == m.fromSq
      && G.PieceField(d) == (if m.promotion.Some? then m.promotion.value - 2 else 0)
      && (G.FlagField(d) == 1 <==> m.promotion.Some?)
      && (G.FlagField(d) == 2 <==> m.enPassant)
      && (G.FlagField(d) == 3 <==> m.castling != NoCastling)
      && (G.FlagField(d) == 0 <==> m.promotion.None? && !m.enPassant && m.castling == NoCastling)
  {
    var to := if m.castling != NoCastling then RookSquare(turnWhite, m.castling) else m.toSq;
    var promo := if m.promotion.Some? then m.promotion.value - 2 else 0;
    var special := if m.enPassant then 2 else if m.castling != NoCastling then 3 else 0;
    G.Fields16(to, m.fromSq, promo, FlagOr(m.promotion.Some?, special));
  }

  /**
   * The engine's form of the move: castling as the king taking its own
   * rook, a promotion to the piece of the side to move, and the type flags.
   */
  function EngineMove(turnWhite: bool, m: PyMove): (mv: nat)
    requires OneKind(m)
    ensures G.PromotesToPiece(mv)
  {
    var to := if m.castling != NoCastling then RookSquare(turnWhite, m.castling) else m.toSq;
    var piece := if m.promotion.Some? then 2 * (m.promotion.value - 1) + (if turnWhite then 0 else 1) else NO_PIECE;
    var flags :=
      if m.promotion.Some? then PROMOTION
      else if m.enPassant then EN_PASSANT
      else if m.castling == KingsideCastling then KINGSIDE_CASTLE
      else if m.castling == QueensideCastling then QUEENSIDE_CASTLE
      else NORMAL;
    FlagsRead(flags);
    MoveOf(m.fromSq, to, piece, flags)
  }

  /** The script and the engine pack a move into the same 16 bits. */
  lemma PyMoveAgrees(turnWhite: bool, m: PyMove)
    requires OneKind(m)
    ensures PyEncodeMove(turnWhite, m) == G.EncodeMove(EngineMove(turnWhite, m))
  {
    var to := if m.castling != NoCastling then RookSquare(turnWhite, m.castling) else m.toSq;
    var piece := if m.promotion.Some? then 2 * (m.promotion.value - 1) + (if turnWhite then 0 else 1) else NO_PIECE;
    var flags :=
      if m.promotion.Some? then PROMOTION
      else if m.enPassant then EN_PASSANT
      else if m.castling == KingsideCastling then KINGSIDE_CASTLE
      else if m.castling == QueensideCastling then QUEENSIDE_CASTLE
      else NORMAL;
    var mv := MoveOf(m.fromSq, to, piece, flags);
    assert mv == EngineMove(turnWhite, m);
    FlagsRead(flags);
    if m.promotion.Some? {
      assert Value(piece) / 2 - 1 == m.promotion.value - 2;
    }
  }

  /** Which move-type tests a single type flag passes. */
  lemma FlagsRead(flags: int)
    requires flags in {NORMAL, PROMOTION, EN_PASSANT, KINGSIDE_CASTLE, QUEENSIDE_CASTLE}
    ensures HasFlag(flags, PROMOTION) <==> flags == PROMOTION
    ensures HasFlag(flags, EN_PASSANT) <==> flags == EN_PASSANT
    ensures HasFlag(flags, KINGSIDE_CASTLE) <==> flags == KINGSIDE_CASTLE
    ensures HasFlag(flags, QUEENSIDE_CASTLE) <==> flags == QUEENSIDE_CASTLE
  {
  }

  // ---- write_sfen_bin, write_sfen_plain -------------------------------------------

  /**
   * A stored position of play_game: the board (as chess.Board rebuilds it
   * from the FEN), the FEN and the move in UCI as the plain writer prints
   * them, the move, the score from the side to move's point of view, and
   * the ply.
   */
  datatype PySfen = PySfen(board: PyBoard, fen: string, move: PyMove, uci: string, score: int, ply: nat)

  /** The result from the side to move's point of view: negated when black is to move. */
  function PovResult(s: PySfen, result: int): (r: int)
    ensures s.board.turnWhite ==> r == result
    ensures !s.board.turnWhite ==> r == -result
  {
    if !s.board.turnWhite then -1 * result else result
  }

  /** The record write_sfen_bin writes after the 32-byte position block. */
  function BinRecord(s: PySfen, result: int): (e: G.PackedSfen)
  {
    G.PackedSfen(SfenOf(s.board), Int16(s.score), PyEncodeMove(s.board.turnWhite, s.move),
      U16(s.ply), PovResult(s, result), 0xFF)
  }

  /**
   * A binary record holds the position the block decodes to, the score of
   * the side to move when it fits 16 bits, the move fields, and the result
   * from the side to move's point of view.
   */
  lemma BinRecordFields(s: PySfen, result: int)
    requires -0x8000 <= s.score < 0x8000 && s.ply < 0x1_0000 && OneKind(s.move)
    ensures var e := BinRecord(s, result);
      && e.position == SfenOf(s.board) && e.stmScore == s.score && e.ply == s.ply && e.padding == 0xFF
      && e.stmResult == (if s.board.turnWhite then result else -result)
      && e.move == G.EncodeMove(EngineMove(s.board.turnWhite, s.move))
  {
    PyMoveAgrees(s.board.turnWhite, s.move);
  }

  /** A board the binary writer can encode: 64 squares and a stream that fits the block. */
  predicate Encodable(b: PyBoard)
  {
    |b.squares| == 64 && |S.EncodeStream(SfenOf(b))| <= S.POSITION_BITS
  }

  /**
   * write_sfen_bin: the 32-byte block of encode_position, then the score as
   * int16, the move, the ply as uint16, the result as int8 and 0xFF.
   */
  method WriteSfenBin(s: PySfen, result: int) returns (block: seq<bv8>, rec: G.PackedSfen)
    requires Encodable(s.board)
    ensures |block| == S.POSITION_BYTES
    ensures block == SB.OrBytes(Cleared(), 0, S.EncodeStream(SfenOf(s.board)))
    ensures rec == BinRecord(s, result)
  {
    var povResult := result;
    if !s.board.turnWhite {
      povResult := -1 * povResult;
    }
    var data := EncodePosition(s.board);
    block := data[..];
    var move := PyEncodeMove(s.board.turnWhite, s.move);
    rec := G.PackedSfen(SfenOf(s.board), Int16(s.score), move, U16(s.ply), povResult, 0xFF);
  }

  /** The decimal digit of d. */
  function Digit(d: nat): (c: char)
    requires d < 10
    ensures '0' <= c <= '9'
  {
    ['0', '1', '2', '3', '4', '5', '6', '7', '8', '9'][d]
  }

  /** str(n) for a natural number. */
  function NatString(n: nat): (s: string)
    ensures |s| > 0 && forall k :: 0 <= k < |s| ==> '0' <= s[k] <= '9'
    decreases n
  {
    if n < 10 then [Digit(n)] else NatString(n / 10) + [Digit(n % 10)]
  }

  /** str(x) for an integer: a minus sign before a negative number. */
  function IntString(x: int): (s: string)
    ensures |s| > 0 && forall k :: 0 <= k < |s| ==> s[k] == '-' || '0' <= s[k] <= '9'
  {
    if x < 0 then "-" + NatString(-x) else NatString(x)
  }

  /** The value of a string of decimal digits. */
  function ParseNat(s: string): (n: nat)
    requires forall k :: 0 <= k < |s| ==> '0' <= s[k] <= '9'
  {
    if s == [] then 0 else 10 * ParseNat(s[..|s| - 1]) + (s[|s| - 1] as int - '0' as int)
  }

  /** The value of a decimal string with an optional minus sign. */
  function ParseInt(s: string): (x: int)
    requires |s| > 0 && forall k :: 0 <= k < |s| ==> s[k] == '-' || '0' <= s[k] <= '9'
    requires forall k :: 0 < k < |s| ==> s[k] != '-'
  {
    if s[0] == '-' then 0 - ParseNat(s[1..]) as int else ParseNat(s)
  }

  lemma DigitValue(d: nat)
    requires d < 10
    ensures Digit(d) as int - '0' as int == d
  {
  }

  /** Reading back a printed natural number gives the number. */
  lemma {:induction false} NatStringParses(n: nat)
    ensures ParseNat(NatString(n)) == n
    decreases n
  {
    var s := NatString(n);
    if n < 10 {
      DigitValue(n);
      assert s[..|s| - 1] == [];
    } else {
      NatStringParses(n / 10);
      DigitValue(n % 10);
      assert s[..|s| - 1] == NatString(n / 10);
    }
  }

  /** Reading back a printed integer gives the integer. */
  lemma IntStringParses(x: int)
    ensures forall k :: 0 < k < |IntString(x)| ==> IntString(x)[k] != '-'
    ensures ParseInt(IntString(x)) == x
  {
    if x < 0 {
      NegativeParses(x);
    } else {
      NatStringParses(x);
    }
  }

  lemma NegativeParses(x: int)
    requires x < 0
    ensures forall k :: 0 < k < |IntString(x)| ==> IntString(x)[k] != '-'
    ensures ParseInt(IntString(x)) == x
  {
    var s := IntString(x);
    assert s == "-" + NatString(-x);
    assert s[1..] == NatString(-x);
    NatStringParses(-x);
  }

  /** One line of a plain record: the key, its value and a line break. */
  function LineOf(key: string, value: string): (line: string)
    ensures |line| == |key| + |value| + 1 && line[|line| - 1] == '\n'
  {
    key + value + "\n"
  }

  /**
   * write_sfen_plain: six lines, "fen", "move", "score", "ply" and "result"
   * each followed by a space and its value, and "e".
   */
  function PlainRecord(s: PySfen, result: int): (text: string)
  {
    LineOf("fen ", s.fen)
    + LineOf("move ", s.uci)
    + LineOf("score ", IntString(s.score))
    + LineOf("ply ", NatString(s.ply))
    + LineOf("result ", IntString(PovResult(s, result)))
    + LineOf("e", "")
  }

  /** The number of line breaks in a text. */
  function Newlines(s: string): (n: nat)
    ensures n <= |s|
  {
    if s == [] then 0 else Newlines(s[..|s| - 1]) + (if s[|s| - 1] == '\n' then 1 else 0)
  }

  lemma {:induction false} NewlinesAppend(a: string, b: string)
    ensures Newlines(a + b) == Newlines(a) + Newlines(b)
    decreases |b|
  {
    if b != [] {
      assert (a + b)[..|a + b| - 1] == a + b[..|b| - 1];
      NewlinesAppend(a, b[..|b| - 1]);
    } else {
      assert a + b == a;
    }
  }

  /** A line of the plain record: a key, a value without line breaks, and a line break. */
  lemma {:induction false} LineBreaks(key: string, value: string)
    requires Newlines(key) == 0 && Newlines(value) == 0
    ensures Newlines(key + value + "\n") == 1
  {
    NewlinesAppend(key, value);
    NewlinesAppend(key + value, "\n");
  }

  /** A text without a line-break character has no line break. */
  lemma {:induction false} NoBreaks(s: string)
    requires forall k :: 0 <= k < |s| ==> s[k] != '\n'
    ensures Newlines(s) == 0
  {
    if s != [] {
      NoBreaks(s[..|s| - 1]);
    }
  }

  /**
   * A plain record is exactly six lines when the FEN and the UCI move have
   * no line break, and its score and result lines read back as the score
   * and the side to move's result.
   */
  lemma PlainRecordLines(s: PySfen, result: int)
    requires Newlines(s.fen) == 0 && Newlines(s.uci) == 0
    ensures Newlines(PlainRecord(s, result)) == 6
    ensures ParseInt(IntString(s.score)) == s.score
    ensures ParseInt(IntString(PovResult(s, result))) == (if s.board.turnWhite then result else -result)
  {
    var score, ply, res := IntString(s.score), NatString(s.ply), IntString(PovResult(s, result));
    Line("fen ", s.fen);
    Line("move ", s.uci);
    NoBreaks(score);
    Line("score ", score);
    NoBreaks(ply);
    Line("ply ", ply);
    NoBreaks(res);
    Line("result ", res);
    NoBreaks("");
    Line("e", "");
    SixLines(LineOf("fen ", s.fen), LineOf("move ", s.uci), LineOf("score ", score),
      LineOf("ply ", ply), LineOf("result ", res), LineOf("e", ""));
    IntStringParses(s.score);
    IntStringParses(PovResult(s, result));
  }

  /** One line of the record: a key without line breaks, a value without one, a line break. */
  lemma Line(key: string, value: string)
    requires forall k :: 0 <= k < |key| ==> key[k] != '\n'
    requires Newlines(value) == 0
    ensures Newlines(LineOf(key, value)) == 1
  {
    NoBreaks(key);
    LineBreaks(key, value);
  }

  lemma SixLines(l1: string, l2: string, l3: string, l4: string, l5: string, l6: string)
    requires Newlines(l1) == 1 && Newlines(l2) == 1 && Newlines(l3) == 1
    requires Newlines(l4) == 1 && Newlines(l5) == 1 && Newlines(l6) == 1
    ensures Newlines(l1 + l2 + l3 + l4 + l5 + l6) == 6
  {
    NewlinesAppend(l1, l2);
    NewlinesAppend(l1 + l2, l3);
    NewlinesAppend(l1 + l2 + l3, l4);
    NewlinesAppend(l1 + l2 + l3 + l4, l5);
    NewlinesAppend(l1 + l2 + l3 + l4 + l5, l6);
  }

  // ---- play_game -----------------------------------------------------------------------

  const PY_MAX_PLY: int := 400
  const PY_MIN_DRAW_PLY: int := 80
  const PY_DRAW_SCORE: int := 10
  const PY_DRAW_COUNT: int := 10
  const RESIGN_SCORE: int := 10000
  const RESIGN_COUNT: int := 10

  /** board.result(claim_draw=True) of a finished game: "1-0", "0-1" or "1/2-1/2". */
  datatype Outcome = WhiteWon | BlackWon | Drawn

  /**
   * One position of a game as play_game sees it, before its move: the
   * board, its FEN, whether the game is over and how it ended, the
   * engine's move (and its UCI text), the engine's score from the side to
   * move's point of view (None when the engine sent no score), and whether
   * the side to move is in check and the move captures.
   */
  datatype PyTurn = PyTurn(
    board: PyBoard,
    fen: string,
    gameOver: bool,
    outcome: Outcome,
    move: PyMove,
    uci: string,
    score: Option<int>,
    inCheck: bool,
    capture: bool)

  /** A game ends: its last position is a finished game. */
  predicate PyFinished(turns: seq<PyTurn>)
  {
    |turns| > 0 && turns[|turns| - 1].gameOver
  }

  /** is_quiet: the side to move is not in check and the move is not a capture. */
  predicate PyQuiet(t: PyTurn)
  {
    !t.inCheck && !t.capture
  }

  /** The ply play_game stores: twice the fullmove number, plus one with black to move. */
  function PlyOf(b: PyBoard): (ply: nat)
    ensures ply % 2 == (if b.turnWhite then 0 else 1)
  {
    if b.turnWhite then b.fullmove * 2 else b.fullmove * 2 + 1
  }

  /** score.white().score(): the score from white's point of view. */
  function WhiteScore(t: PyTurn): (w: int)
    requires t.score.Some?
    ensures w == (if t.board.turnWhite then t.score.value else -t.score.value)
  {
    if t.board.turnWhite then t.score.value else -t.score.value
  }

  /** The position stored for a quiet scored ply. */
  function SfenOfTurn(t: PyTurn): (s: PySfen)
    requires t.score.Some?
    ensures s.board == t.board && s.move == t.move && s.score == t.score.value && s.ply == PlyOf(t.board)
  {
    PySfen(t.board, t.fen, t.move, t.uci, t.score.value, PlyOf(t.board))
  }

  /** resign_count after a stored ply: consecutive plies scored at least RESIGN_SCORE away from zero. */
  function NextResign(t: PyTurn, resign: nat): (r: nat)
    requires t.score.Some?
    ensures Abs(t.score.value) >= RESIGN_SCORE ==> r == resign + 1
    ensures Abs(t.score.value) < RESIGN_SCORE ==> r == 0
  {
    if Abs(t.score.value) >= RESIGN_SCORE then resign + 1 else 0
  }

  /** draw_count after a stored ply: past PY_MIN_DRAW_PLY, consecutive plies within PY_DRAW_SCORE of zero. */
  function NextDrawsPy(t: PyTurn, draws: nat): (d: nat)
    requires t.score.Some?
    ensures PlyOf(t.board) <= PY_MIN_DRAW_PLY ==> d == draws
    ensures PlyOf(t.board) > PY_MIN_DRAW_PLY ==> (d == if Abs(t.score.value) <= PY_DRAW_SCORE then draws + 1 else 0)
  {
    if PlyOf(t.board) > PY_MIN_DRAW_PLY then (if Abs(t.score.value) <= PY_DRAW_SCORE then draws + 1 else 0) else draws
  }

  /**
   * The resign result as written: the sign of the score from the side to
   * move's point of view, taken as white's result.
   */
  function ResignResultAsWritten(t: PyTurn): (r: int)
    requires t.score.Some?
    ensures r == 1 <==> t.score.value > 0
  {
    if t.score.value > 0 then 1 else -1
  }

  /**
   * The resign result as the rest of play_game reads result_val: white's
   * result, the sign of the score from white's point of view.
   */
  function ResignResult(t: PyTurn): (r: int)
    requires t.score.Some?
  {
    if WhiteScore(t) > 0 then 1 else -1
  }

  /**
   * The resign branch as written gives white the win when black, to move,
   * is the side winning by far.
   */
  lemma ResignAsWrittenFavoursMover()
    ensures var t := PyTurn(PyBoard([], false, 4, 60, false, false, false, false, None, 0, 60),
                            "", false, Drawn, PyMove(52, 44, None, false, NoCastling), "", Some(12000), false, false);
      && ResignResultAsWritten(t) == 1 && WhiteScore(t) < 0 && ResignResult(t) == -1
  {
  }

  /** The corrected resign result has the sign of white's score, like the eval-limit result. */
  lemma ResignResultIsWhites(t: PyTurn)
    requires t.score.Some?
    ensures ResignResult(t) == 1 <==> WhiteScore(t) > 0
    ensures ResignResult(t) == -1 <==> WhiteScore(t) <= 0
    ensures !t.board.turnWhite && t.score.value != 0 ==> ResignResult(t) == -ResignResultAsWritten(t)
  {
  }

  /** Which sign the resign branch gives result_val. */
  datatype ResignRule =
    | MoverSign  // as written: the sign of the side to move's score
    | WhiteSign  // as the rest of play_game reads result_val: the sign of white's score

  /** result_val set by the resign branch under a rule. */
  function ResignValue(t: PyTurn, rule: ResignRule): (r: int)
    requires t.score.Some?
    ensures r in {-1, 1}
    ensures rule == WhiteSign ==> (r == 1 <==> WhiteScore(t) > 0)
    ensures rule == MoverSign ==> (r == 1 <==> t.score.value > 0)
  {
    if rule == MoverSign then ResignResultAsWritten(t) else ResignResult(t)
  }

  /**
   * How the loop stopped: adjudicated on the eval limit, the ply limit or the
   * draw count with result_val; resigned with result_val at the ply last; or
   * the game ended.
   */
  datatype PyStop = Adjudicated(resultVal: int) | Resigned(resultVal: int, last: PyTurn) | Ended(outcome: Outcome)

  /**
   * The loop of play_game from position i on, with the resign and draw
   * counters so far: the positions it stores and how it stops.
   */
  function PyRun(turns: seq<PyTurn>, i: nat, resign: nat, draws: nat, evalLimit: int, rule: ResignRule): (r: (seq<PySfen>, PyStop))
    requires PyFinished(turns) && i < |turns|
    ensures r.0 != [] ==> !turns[i].gameOver
    ensures r.1.Adjudicated? ==> r.1.resultVal in {-1, 0, 1}
    ensures r.1.Resigned? ==>
      r.1.last.score.Some? && Abs(r.1.last.score.value) >= RESIGN_SCORE && r.1.resultVal == ResignValue(r.1.last, rule)
    decreases |turns| - i
  {
    var t := turns[i];
    if t.gameOver then ([], Ended(t.outcome))
    else if t.score.None? || !PyQuiet(t) then PyRun(turns, i + 1, resign, draws, evalLimit, rule)
    else if Abs(t.score.value) > evalLimit then ([], Adjudicated(if WhiteScore(t) > 0 then 1 else -1))
    else if PlyOf(t.board) > PY_MAX_PLY then ([SfenOfTurn(t)], Adjudicated(0))
    else if NextResign(t, resign) >= RESIGN_COUNT then ([SfenOfTurn(t)], Resigned(ResignValue(t, rule), t))
    else if PlyOf(t.board) > PY_MIN_DRAW_PLY && NextDrawsPy(t, draws) >= PY_DRAW_COUNT then ([SfenOfTurn(t)], Adjudicated(0))
    else
      var rest := PyRun(turns, i + 1, NextResign(t, resign), NextDrawsPy(t, draws), evalLimit, rule);
      ([SfenOfTurn(t)] + rest.0, rest.1)
  }

  /** result_val after the loop: the adjudicated value, or the game's result. */
  function ResultValue(stop: PyStop): (v: int)
    ensures v in {-1, 0, 1}
    ensures stop.Ended? ==> (v == 1 <==> stop.outcome == WhiteWon) && (v == -1 <==> stop.outcome == BlackWon)
    ensures stop.Resigned? && stop.resultVal in {-1, 1} ==> v == stop.resultVal
  {
    match stop
    case Adjudicated(v) => if v in {-1, 0, 1} then v else 0
    case Resigned(v, _) => if v in {-1, 0, 1} then v else 0
    case Ended(WhiteWon) => 1
    case Ended(BlackWon) => -1
    case Ended(Drawn) => 0
  }

  /**
   * Every stored position comes from a ply the game had not ended at, that
   * the engine scored within the eval limit, and whose move was quiet.
   */
  lemma {:induction false} PyRunStoresQuiet(turns: seq<PyTurn>, i: nat, resign: nat, draws: nat, evalLimit: int, rule: ResignRule)
    requires PyFinished(turns) && i < |turns|
    ensures forall s :: s in PyRun(turns, i, resign, draws, evalLimit, rule).0 ==>
      exists j :: i <= j < |turns| && !turns[j].gameOver && turns[j].score.Some? && PyQuiet(turns[j])
        && Abs(turns[j].score.value) <= evalLimit && s == SfenOfTurn(turns[j])
    decreases |turns| - i
  {
    var t := turns[i];
    if !t.gameOver && i + 1 < |turns| {
      PyRunStoresQuiet(turns, i + 1, if t.score.Some? && PyQuiet(t) then NextResign(t, resign) else resign,
        if t.score.Some? && PyQuiet(t) then NextDrawsPy(t, draws) else draws, evalLimit, rule);
    }
  }

  /**
   * The two resign rules store the same positions and stop the same way;
   * they give different results exactly when the game is resigned with
   * black to move.
   */
  lemma {:induction false} ResignRulesDiffer(turns: seq<PyTurn>, i: nat, resign: nat, draws: nat, evalLimit: int)
    requires PyFinished(turns) && i < |turns|
    ensures var a, b := PyRun(turns, i, resign, draws, evalLimit, MoverSign), PyRun(turns, i, resign, draws, evalLimit, WhiteSign);
      && a.0 == b.0
      && (a.1.Resigned? <==> b.1.Resigned?)
      && (!a.1.Resigned? ==> a.1 == b.1)
      && (a.1.Resigned? ==> a.1.last == b.1.last && (a.1.resultVal == b.1.resultVal <==> a.1.last.board.turnWhite))
    decreases |turns| - i
  {
    var t := turns[i];
    if t.gameOver {
    } else if t.score.None? || !PyQuiet(t) {
      ResignRulesDiffer(turns, i + 1, resign, draws, evalLimit);
    } else if Abs(t.score.value) > evalLimit || PlyOf(t.board) > PY_MAX_PLY || NextResign(t, resign) >= RESIGN_COUNT {
    } else if PlyOf(t.board) > PY_MIN_DRAW_PLY && NextDrawsPy(t, draws) >= PY_DRAW_COUNT {
    } else {
      ResignRulesDiffer(turns, i + 1, NextResign(t, resign), NextDrawsPy(t, draws), evalLimit);
    }
  }

  // ---- Writing a game's positions ------------------------------------------------

  /** One record as the chosen format writes it. */
  datatype PyRecord = BinRec(rec: G.PackedSfen) | PlainRec(text: string)

  /** write_sfen_plain or write_sfen_bin, by args.format. */
  function WriteSfen(s: PySfen, result: int, plain: bool): (w: PyRecord)
    ensures plain <==> w.PlainRec?
  {
    if plain then PlainRec(PlainRecord(s, result)) else BinRec(BinRecord(s, result))
  }

  /** How many stored positions the write loop writes: all of them, or the first posLeft when that is fewer. */
  function WriteCount(stored: nat, posLeft: int): (n: nat)
    ensures n <= stored && (0 < posLeft ==> n <= posLeft)
    ensures n < stored ==> n == posLeft
  {
    if 0 < posLeft < stored then posLeft else stored
  }

  /**
   * The loop at the end of play_game: each stored position is written with
   * the game's result_val and pos_left is counted down; the loop breaks when
   * pos_left reaches 0. The output file is the sequence returned.
   */
  method WritePositions(positions: seq<PySfen>, resultVal: int, posLeft: int, plain: bool)
    returns (written: seq<PyRecord>, left: int)
    ensures |written| == WriteCount(|positions|, posLeft) && left == posLeft - |written|
    ensures forall k :: 0 <= k < |written| ==> written[k] == WriteSfen(positions[k], resultVal, plain)
  {
    written, left := [], posLeft;
    var k := 0;
    while k < |positions|
      invariant 0 <= k <= |positions| && left == posLeft - k && |written| == k
      invariant posLeft <= 0 || k < posLeft
      invariant forall j :: 0 <= j < k ==> written[j] == WriteSfen(positions[j], resultVal, plain)
    {
      written := written + [WriteSfen(positions[k], resultVal, plain)];
      left := left - 1;
      k := k + 1;
      if left == 0 {
        break;
      }
    }
  }

  /**
   * play_game after the random opening: the loop's stored positions written
   * with result_val, and the positions still left. A game already over
   * after the opening stores nothing and returns pos_left unchanged.
   */
  function PyPlayGame(turns: seq<PyTurn>, posLeft: int, evalLimit: int, rule: ResignRule, plain: bool): (r: (seq<PyRecord>, int))
    requires PyFinished(turns)
  {
    var run := PyRun(turns, 0, 0, 0, evalLimit, rule);
    var n := WriteCount(|run.0|, posLeft);
    (seq(n, k requires 0 <= k < n => WriteSfen(run.0[k], ResultValue(run.1), plain)), posLeft - n)
  }

  /** play_game as written: the loop, the game result when the game ended, then the write loop. */
  method PlayGame(turns: seq<PyTurn>, posLeft: int, evalLimit: int, plain: bool) returns (written: seq<PyRecord>, left: int)
    requires PyFinished(turns)
    ensures (written, left) == PyPlayGame(turns, posLeft, evalLimit, MoverSign, plain)
  {
    var run := PyRun(turns, 0, 0, 0, evalLimit, MoverSign);
    var resultVal := ResultValue(run.1);
    written, left := WritePositions(run.0, resultVal, posLeft, plain);
    assert written == PyPlayGame(turns, posLeft, evalLimit, MoverSign, plain).0;
  }

  /**
   * A game writes at most the positions left, counts pos_left down by the
   * records written, and leaves positions unwritten only when none are left.
   */
  lemma PyPlayGameQuota(turns: seq<PyTurn>, posLeft: int, evalLimit: int, rule: ResignRule, plain: bool)
    requires PyFinished(turns) && posLeft > 0
    ensures var r := PyPlayGame(turns, posLeft, evalLimit, rule, plain);
      && 0 <= r.1 == posLeft - |r.0|
      && (r.1 > 0 ==> |r.0| == |PyRun(turns, 0, 0, 0, evalLimit, rule).0|)
  {
  }

  /**
   * Every binary record of a game carries the same result_val, from its own
   * side to move's point of view, and every record is a quiet scored ply.
   */
  lemma PyPlayGameResults(turns: seq<PyTurn>, posLeft: int, evalLimit: int, rule: ResignRule)
    requires PyFinished(turns)
    ensures var r := PyPlayGame(turns, posLeft, evalLimit, rule, false);
      var v := ResultValue(PyRun(turns, 0, 0, 0, evalLimit, rule).1);
      forall k :: 0 <= k < |r.0| ==>
        r.0[k].BinRec? && r.0[k].rec.stmResult == (if r.0[k].rec.position.stm == WHITE then v else -v)
    ensures var r := PyPlayGame(turns, posLeft, evalLimit, rule, false);
      var v := ResultValue(PyRun(turns, 0, 0, 0, evalLimit, rule).1);
      forall k :: 0 <= k < |r.0| ==> StoredFrom(turns, evalLimit, r.0[k], v)
  {
    var run := PyRun(turns, 0, 0, 0, evalLimit, rule);
    PyRunStoresQuiet(turns, 0, 0, 0, evalLimit, rule);
    var r := PyPlayGame(turns, posLeft, evalLimit, rule, false);
    forall k | 0 <= k < |r.0|
      ensures StoredFrom(turns, evalLimit, r.0[k], ResultValue(run.1))
    {
      assert run.0[k] in run.0;
    }
  }

  /** The record is the binary record of a quiet ply of the game that the engine scored within the eval limit. */
  ghost predicate StoredFrom(turns: seq<PyTurn>, evalLimit: int, w: PyRecord, v: int)
  {
    exists j :: 0 <= j < |turns| && !turns[j].gameOver && turns[j].score.Some? && PyQuiet(turns[j]) &&
      Abs(turns[j].score.value) <= evalLimit && w == BinRec(BinRecord(SfenOfTurn(turns[j]), v))
  }

  /**
   * With white's sign, a resigned game gives +1 to the records of the side
   * the last score favours and -1 to the other side's.
   */
  lemma PyResignFavoursWinner(turns: seq<PyTurn>, posLeft: int, evalLimit: int)
    requires PyFinished(turns) && PyRun(turns, 0, 0, 0, evalLimit, WhiteSign).1.Resigned?
    ensures var last := PyRun(turns, 0, 0, 0, evalLimit, WhiteSign).1.last;
      var r := PyPlayGame(turns, posLeft, evalLimit, WhiteSign, false);
      forall k :: 0 <= k < |r.0| ==>
        (r.0[k].rec.stmResult == 1 <==> (r.0[k].rec.position.stm == WHITE) == (WhiteScore(last) > 0))
  {
    PyPlayGameResults(turns, posLeft, evalLimit, WhiteSign);
  }

  /**
   * As written, a game resigned with black to move gives every record the
   * opposite result to the corrected rule's.
   */
  lemma PyResignAsWrittenFlipped(turns: seq<PyTurn>, posLeft: int, evalLimit: int)
    requires PyFinished(turns)
    requires var a := PyRun(turns, 0, 0, 0, evalLimit, MoverSign).1; a.Resigned? && !a.last.board.turnWhite
    ensures var a, b := PyPlayGame(turns, posLeft, evalLimit, MoverSign, false), PyPlayGame(turns, posLeft, evalLimit, WhiteSign, false);
      |a.0| == |b.0| && forall k :: 0 <= k < |a.0| ==> a.0[k].rec.stmResult == -b.0[k].rec.stmResult
  {
    ResignRulesDiffer(turns, 0, 0, 0, evalLimit);
  }

  // ---- The batch loop of process_func ----------------------------------------------

  /**
   * `while pos_left > 0: pos_left = play_game(fh, pos_left, args)` over the
   * games the engine plays, one after the other.
   */
  function PyBatch(games: seq<seq<PyTurn>>, posLeft: int, evalLimit: int, plain: bool): (recs: seq<PyRecord>)
    requires forall g :: 0 <= g < |games| ==> PyFinished(games[g])
    decreases |games|
  {
    if posLeft <= 0 || games == [] then []
    else
      var r := PyPlayGame(games[0], posLeft, evalLimit, MoverSign, plain);
      r.0 + PyBatch(games[1..], r.1, evalLimit, plain)
  }

  /** A batch never writes more records than it was given. */
  lemma {:induction false} PyBatchBound(games: seq<seq<PyTurn>>, posLeft: int, evalLimit: int, plain: bool)
    requires forall g :: 0 <= g < |games| ==> PyFinished(games[g])
    ensures |PyBatch(games, posLeft, evalLimit, plain)| <= if posLeft < 0 then 0 else posLeft
    decreases |games|
  {
    if posLeft > 0 && games != [] {
      var r := PyPlayGame(games[0], posLeft, evalLimit, MoverSign, plain);
      PyPlayGameQuota(games[0], posLeft, evalLimit, MoverSign, plain);
      PyBatchBound(games[1..], r.1, evalLimit, plain);
    }
  }

  /**
   * The inner loop of process_func: games are played until the batch is
   * full. The engine's games are an input; the loop also stops when they
   * run out, and otherwise writes exactly workTodo records.
   */
  method GenerateBatch(games: seq<seq<PyTurn>>, workTodo: int, evalLimit: int, plain: bool)
    returns (written: seq<PyRecord>, played: nat)
    requires forall g :: 0 <= g < |games| ==> PyFinished(games[g])
    ensures played <= |games| && written == PyBatch(games, workTodo, evalLimit, plain)
    ensures |written| <= if workTodo < 0 then 0 else workTodo
    ensures played < |games| && workTodo > 0 ==> |written| == workTodo
  {
    var posLeft := workTodo;
    written, played := [], 0;
    while posLeft > 0 && played < |games|
      invariant played <= |games| && posLeft <= workTodo
      invariant written + PyBatch(games[played..], posLeft, evalLimit, plain) == PyBatch(games, workTodo, evalLimit, plain)
      invariant |written| == workTodo - posLeft && (workTodo > 0 ==> posLeft >= 0)
      decreases |games| - played
    {
      var recs;
      PyPlayGameQuota(games[played], posLeft, evalLimit, MoverSign, plain);
      BatchAdvance(games, played, posLeft, evalLimit, plain, written, PyBatch(games, workTodo, evalLimit, plain));
      recs, posLeft := PlayGame(games[played], posLeft, evalLimit, plain);
      written := written + recs;
      played := played + 1;
    }
    PyBatchBound(games, workTodo, evalLimit, plain);
  }

  /** One game of generate_batch's loop: what it writes joins the records already written. */
  lemma BatchAdvance(games: seq<seq<PyTurn>>, played: nat, posLeft: int, evalLimit: int, plain: bool,
                     written: seq<PyRecord>, total: seq<PyRecord>)
    requires forall g :: 0 <= g < |games| ==> PyFinished(games[g])
    requires posLeft > 0 && played < |games|
    requires written + PyBatch(games[played..], posLeft, evalLimit, plain) == total
    ensures var r := PyPlayGame(games[played], posLeft, evalLimit, MoverSign, plain);
      written + r.0 + PyBatch(games[played + 1..], r.1, evalLimit, plain) == total
  {
    BatchStep(games, played, posLeft, evalLimit, plain);
    var r := PyPlayGame(games[played], posLeft, evalLimit, MoverSign, plain);
    var rest := PyBatch(games[played + 1..], r.1, evalLimit, plain);
    assert written + r.0 + rest == written + (r.0 + rest);
  }

  lemma BatchStep(games: seq<seq<PyTurn>>, played: nat, posLeft: int, evalLimit: int, plain: bool)
    requires forall g :: 0 <= g < |games| ==> PyFinished(games[g])
    requires posLeft > 0 && played < |games|
    ensures var r := PyPlayGame(games[played], posLeft, evalLimit, MoverSign, plain);
      PyBatch(games[played..], posLeft, evalLimit, plain) == r.0 + PyBatch(games[played + 1..], r.1, evalLimit, plain)
  {
    assert games[played..][0] == games[played];
    assert games[played..][1..] == games[played + 1..];
  }
}
