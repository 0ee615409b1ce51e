/**
 * The bit-level writer and reader of src/sfen.c working on the 32-byte
 * position block of a training record: bit i of the stream is bit i % 8 of
 * byte i / 8.
 *
 * The writer only ever sets bits (`data[c/8] |= 1 << (c&7)`), so what it
 * leaves behind is the old block ORed with the stream; the training loop
 * clears every record first, and then the block holds exactly the stream
 * followed by zero bits. The reader is proved to compute the stream decoder
 * of SfenFormat on the block's bits.
 */
module SfenBuffer {
  import opened Types
  import opened Wrappers
  import S = SfenFormat

  // ---- Bits of a byte block --------------------------------------------------

  /** 1 << k for a bit of a byte. */
  function Mask(k: nat): (m: bv8)
    requires k < 8
  {
    (1 as bv8) << k
  }

  /** Bit i of the block: `(data[i/8] >> (i&7)) & 1`. */
  predicate BitAt(data: seq<bv8>, i: nat)
    requires i < 8 * |data|
  {
    (data[i / 8] >> (i % 8)) & 1 == 1
  }

  /** The block read as a bit stream. */
  function BufferBits(data: seq<bv8>): (b: seq<bool>)
    ensures |b| == 8 * |data|
  {
    seq(8 * |data|, i requires 0 <= i < 8 * |data| => BitAt(data, i))
  }

  /** Setting bit j of a byte changes bit j and no other. */
  lemma MaskOr(x: bv8, j: nat, k: nat)
    requires j < 8 && k < 8
    ensures ((x | Mask(j)) & Mask(k) != 0) == ((x & Mask(k) != 0) || j == k)
  {
  }

  /**
   * The block before with the bits of w ORed in from position at on: the
   * bits outside that window are unchanged, those inside are set where w is.
   */
  function OrInto(before: seq<bool>, at: nat, w: seq<bool>): (after: seq<bool>)
    requires at + |w| <= |before|
    ensures |after| == |before|
  {
    seq(|before|, i requires 0 <= i < |before| => before[i] || (at <= i < at + |w| && w[i - at]))
  }

  /** OR-ing a single set bit into byte c / 8. */
  lemma SetBit(data: seq<bv8>, c: nat)
    requires c < 8 * |data|
    ensures BufferBits(data[c / 8 := data[c / 8] | Mask(c % 8)]) == OrInto(BufferBits(data), c, [true])
  {
    var after := data[c / 8 := data[c / 8] | Mask(c % 8)];
    forall i | 0 <= i < 8 * |data|
      ensures BitAt(after, i) == (BitAt(data, i) || i == c)
    {
      SetBitAt(data, c, after, i);
    }
  }

  /** Bit i after OR-ing in bit c: set before, or i is c. */
  lemma SetBitAt(data: seq<bv8>, c: nat, after: seq<bv8>, i: nat)
    requires c < 8 * |data| && i < 8 * |data| && after == data[c / 8 := data[c / 8] | Mask(c % 8)]
    ensures BitAt(after, i) == (BitAt(data, i) || i == c)
  {
    var j, k := i / 8, i % 8;
    BitOfByte(after, i, j, k);
    BitOfByte(data, i, j, k);
    if j == c / 8 {
      SameByteOr(data[j], after[j], i, c);
    } else {
      assert after[j] == data[j];
    }
  }

  /** In the byte that holds c, bit i is set after the OR when it was before or i is c. */
  lemma SameByteOr(x: bv8, y: bv8, i: nat, c: nat)
    requires i / 8 == c / 8 && y == x | Mask(c % 8)
    ensures (y & Mask(i % 8) != 0) == ((x & Mask(i % 8) != 0) || i == c)
  {
    MaskOr(x, c % 8, i % 8);
    assert (i % 8 == c % 8) == (i == c);
  }

  /** encode_bit on the bytes: bit at is set when b is, and nothing else changes. */
  function SetIf(d: seq<bv8>, at: nat, b: bool): (r: seq<bv8>)
    requires at < 8 * |d|
    ensures |r| == |d|
  {
    if b then d[at / 8 := d[at / 8] | Mask(at % 8)] else d
  }

  /** What the bits of w, written from bit at on, put into bit k of byte j. */
  function Contrib(at: nat, w: seq<bool>, j: nat, k: nat): (m: bv8)
    requires k < 8
    ensures m == 0 || m == Mask(k)
  {
    if at <= 8 * j + k < at + |w| && w[8 * j + k - at] then Mask(k) else 0
  }

  /** Byte j of the bits of w written from bit at on into a cleared block. */
  function ByteOf(at: nat, w: seq<bool>, j: nat): bv8
  {
    Contrib(at, w, j, 0) | Contrib(at, w, j, 1) | Contrib(at, w, j, 2) | Contrib(at, w, j, 3)
    | Contrib(at, w, j, 4) | Contrib(at, w, j, 5) | Contrib(at, w, j, 6) | Contrib(at, w, j, 7)
  }

  /**
   * The bytes after the bits of w have been written from bit at on, one
   * encode_bit each: every byte ORed with the bits that land in it. Bits
   * past the end of the block land nowhere.
   */
  function OrBytes(d: seq<bv8>, at: nat, w: seq<bool>): (r: seq<bv8>)
    ensures |r| == |d|
  {
    seq(|d|, j requires 0 <= j < |d| => d[j] | ByteOf(at, w, j))
  }

  /** Writing nothing leaves the block as it is. */
  lemma OrBytesNothing(d: seq<bv8>, at: nat, w: seq<bool>)
    requires |w| == 0
    ensures OrBytes(d, at, w) == d
  {
    var x := OrBytes(d, at, w);
    forall j | 0 <= j < |d|
      ensures x[j] == d[j]
    {
    }
  }

  /** The one bit of a single-bit write lands in byte at / 8, at bit at % 8. */
  lemma ByteOfOne(at: nat, b: bool, j: nat)
    ensures ByteOf(at, [b], j) == if b && j == at / 8 then Mask(at % 8) else 0
  {
    assert at == 8 * (at / 8) + at % 8;
    if j == at / 8 {
      var k := at % 8;
      assert k == 0 || k == 1 || k == 2 || k == 3 || k == 4 || k == 5 || k == 6 || k == 7;
    }
  }

  /** Writing one bit is encode_bit's byte update. */
  lemma OrBytesOne(d: seq<bv8>, at: nat, b: bool)
    requires at < 8 * |d|
    ensures OrBytes(d, at, [b]) == SetIf(d, at, b)
  {
    var x := OrBytes(d, at, [b]);
    var y := SetIf(d, at, b);
    forall j | 0 <= j < |d|
      ensures x[j] == y[j]
    {
      ByteOfOne(at, b, j);
    }
  }

  /** Bit k of byte j comes from w1 or from w2 when w2 follows w1. */
  lemma ContribAppend(at: nat, w1: seq<bool>, w2: seq<bool>, j: nat, k: nat)
    requires k < 8
    ensures Contrib(at, w1 + w2, j, k) == Contrib(at, w1, j, k) | Contrib(at + |w1|, w2, j, k)
  {
    var i := 8 * j + k;
    if at <= i < at + |w1| {
      assert (w1 + w2)[i - at] == w1[i - at];
    } else if at + |w1| <= i < at + |w1| + |w2| {
      assert (w1 + w2)[i - at] == w2[i - at - |w1|];
    }
  }

  lemma ByteOfAppend(at: nat, w1: seq<bool>, w2: seq<bool>, j: nat)
    ensures ByteOf(at, w1 + w2, j) == ByteOf(at, w1, j) | ByteOf(at + |w1|, w2, j)
  {
    ContribAppend(at, w1, w2, j, 0);
    ContribAppend(at, w1, w2, j, 1);
    ContribAppend(at, w1, w2, j, 2);
    ContribAppend(at, w1, w2, j, 3);
    ContribAppend(at, w1, w2, j, 4);
    ContribAppend(at, w1, w2, j, 5);
    ContribAppend(at, w1, w2, j, 6);
    ContribAppend(at, w1, w2, j, 7);
  }

  /** Writing w1 and then, right after it, w2 writes w1 + w2. */
  lemma OrBytesAppend(d: seq<bv8>, at: nat, w1: seq<bool>, w2: seq<bool>, pos: nat)
    requires pos == at + |w1|
    ensures OrBytes(OrBytes(d, at, w1), pos, w2) == OrBytes(d, at, w1 + w2)
  {
    var x := OrBytes(OrBytes(d, at, w1), pos, w2);
    var y := OrBytes(d, at, w1 + w2);
    forall j | 0 <= j < |d|
      ensures x[j] == y[j]
    {
      ByteOfAppend(at, w1, w2, j);
    }
  }

  /** Writing w and then one more bit b right after it writes w + [b]. */
  lemma OrBytesSnoc(d: seq<bv8>, at: nat, w: seq<bool>, b: bool, pos: nat)
    requires pos == at + |w| && pos < 8 * |d|
    ensures SetIf(OrBytes(d, at, w), pos, b) == OrBytes(d, at, w + [b])
  {
    OrBytesOne(OrBytes(d, at, w), pos, b);
    OrBytesAppend(d, at, w, [b], pos);
  }

  /**
   * The writer's step: with w written from bit 0, writing more at the
   * cursor pos == |w| writes w + more.
   */
  lemma WriteMore(d: seq<bv8>, w: seq<bool>, more: seq<bool>, pos: nat)
    requires pos == |w|
    ensures OrBytes(OrBytes(d, 0, w), pos, more) == OrBytes(d, 0, w + more)
  {
    OrBytesAppend(d, 0, w, more, pos);
  }

  /** The same step for a single bit set by encode_bit. */
  lemma WriteBit(d: seq<bv8>, w: seq<bool>, b: bool, pos: nat)
    requires pos == |w| && pos < 8 * |d|
    ensures SetIf(OrBytes(d, 0, w), pos, b) == OrBytes(d, 0, w + [b])
  {
    OrBytesSnoc(d, 0, w, b, pos);
  }

  /** Bit k of byte j of a write is the contribution to that bit alone. */
  lemma ByteOfBit(at: nat, w: seq<bool>, j: nat, k: nat)
    requires k < 8
    ensures ByteOf(at, w, j) & Mask(k) == Contrib(at, w, j, k)
  {
    var c0, c1, c2, c3 := Contrib(at, w, j, 0), Contrib(at, w, j, 1), Contrib(at, w, j, 2), Contrib(at, w, j, 3);
    var c4, c5, c6, c7 := Contrib(at, w, j, 4), Contrib(at, w, j, 5), Contrib(at, w, j, 6), Contrib(at, w, j, 7);
    assert k == 0 || k == 1 || k == 2 || k == 3 || k == 4 || k == 5 || k == 6 || k == 7;
  }

  /** A bit of an OR of two bytes is set when it is set in either. */
  lemma OrMask(a: bv8, b: bv8, m: bv8)
    ensures ((a | b) & m != 0) == ((a & m != 0) || (b & m != 0))
  {
  }

  /** Bit i of the block after a write: set before, or set by the write. */
  lemma BitOfWrite(d: seq<bv8>, at: nat, w: seq<bool>, i: nat, j: nat, k: nat)
    requires i < 8 * |d| && j == i / 8 && k == i % 8
    ensures BitAt(OrBytes(d, at, w), i) == (BitAt(d, i) || (at <= i < at + |w| && w[i - at]))
  {
    assert 8 * j + k == i;
    BitOfByte(OrBytes(d, at, w), i, j, k);
    BitOfByte(d, i, j, k);
    OrBytesAt(d, at, w, j);
    ByteOfBit(at, w, j, k);
    ContribSet(at, w, j, k, i);
    OrMask(d[j], ByteOf(at, w, j), Mask(k));
  }

  /** Bit i of a block is bit i % 8 of byte i / 8. */
  lemma BitOfByte(data: seq<bv8>, i: nat, j: nat, k: nat)
    requires i < 8 * |data| && j == i / 8 && k == i % 8
    ensures j < |data| && BitAt(data, i) == (data[j] & Mask(k) != 0)
  {
    ShiftMask(data[j], k);
  }

  /** Shifting bit k down to bit 0 tests it as the mask does. */
  lemma ShiftMask(x: bv8, k: nat)
    requires k < 8
    ensures ((x >> k) & 1 == 1) == (x & Mask(k) != 0)
  {
  }

  /** Byte j after a write. */
  lemma OrBytesAt(d: seq<bv8>, at: nat, w: seq<bool>, j: nat)
    requires j < |d|
    ensures OrBytes(d, at, w)[j] == d[j] | ByteOf(at, w, j)
  {
  }

  /** The contribution to bit k of byte j is set when bit i = 8j + k of the window is. */
  lemma ContribSet(at: nat, w: seq<bool>, j: nat, k: nat, i: nat)
    requires k < 8 && i == 8 * j + k
    ensures (Contrib(at, w, j, k) != 0) == (at <= i < at + |w| && w[i - at])
  {
    MaskNonZero(k);
  }

  lemma MaskNonZero(k: nat)
    requires k < 8
    ensures Mask(k) != 0
  {
  }

  /** What the writer leaves in the block: the old bits ORed with w. */
  lemma OrBytesBits(d: seq<bv8>, at: nat, w: seq<bool>)
    requires at + |w| <= 8 * |d|
    ensures BufferBits(OrBytes(d, at, w)) == OrInto(BufferBits(d), at, w)
  {
    var x := BufferBits(OrBytes(d, at, w));
    var y := OrInto(BufferBits(d), at, w);
    forall i | 0 <= i < 8 * |d|
      ensures x[i] == y[i]
    {
      BitOfWrite(d, at, w, i, i / 8, i % 8);
    }
  }

  /** n clear bits. */
  function Zeros(n: nat): (z: seq<bool>)
    ensures |z| == n && forall i :: 0 <= i < n ==> !z[i]
  {
    seq(n, _ => false)
  }

  /** A cleared block holding w from bit 0 holds w and then zero bits. */
  lemma OrIntoZeros(w: seq<bool>, n: nat, pad: nat)
    requires |w| <= n && pad == n - |w|
    ensures OrInto(Zeros(n), 0, w) == w + Zeros(pad)
  {
    var x := OrInto(Zeros(n), 0, w);
    var y := w + Zeros(pad);
    forall i | 0 <= i < n
      ensures x[i] == y[i]
    {
    }
  }

  /** A cleared block reads as zero bits. */
  lemma ZeroBits(data: seq<bv8>, n: nat)
    requires n == 8 * |data|
    requires forall j :: 0 <= j < |data| ==> data[j] == 0
    ensures BufferBits(data) == Zeros(n)
  {
    var x := BufferBits(data);
    forall i | 0 <= i < n
      ensures !x[i]
    {
    }
  }

  // ---- Writing -----------------------------------------------------------------

  /** a + (b + c) is (a + b) + c. */
  lemma Assoc(a: seq<bool>, b: seq<bool>, c: seq<bool>)
    ensures a + (b + c) == a + b + c
  {
  }

  /** Moving one block from the end of a prefix to the head of the suffix. */
  lemma Regroup(above: seq<bool>, aboveQ: seq<bool>, rank: seq<bool>,
                below: seq<bool>, belowQ: seq<bool>, all: seq<bool>)
    requires above == aboveQ + rank && belowQ == rank + below && aboveQ + belowQ == all
    ensures above + below == all
  {
    Assoc(aboveQ, rank, below);
  }

  /** Nothing followed by b is b. */
  lemma NothingFirst(a: seq<bool>, b: seq<bool>)
    requires |a| == 0
    ensures a + b == b
  {
  }

  /** a followed by nothing is a. */
  lemma AppendNothing(a: seq<bool>, b: seq<bool>)
    requires |b| == 0
    ensures a + b == a
  {
  }

  /**
   * encode_bit: set bit cursor when the value is non-zero; the cursor is a
   * byte, so the one it returns wraps at 256.
   */
  method EncodeBit(data: array<bv8>, cursor: nat, value: bool) returns (next: nat)
    requires cursor < 256 && cursor < 8 * data.Length
    modifies data
    ensures next == if cursor == 255 then 0 else cursor + 1
    ensures data[..] == SetIf(old(data[..]), cursor, value)
  {
    if value {
      var i := cursor / 8;
      data[i] := data[i] | Mask(cursor % 8);
    }
    next := if cursor == 255 then 0 else cursor + 1;
  }

  /**
   * encode_bits: the nbits low bits of a byte value, least significant
   * first, each through encode_bit. The value parameter is a uint8_t, so a
   * wider counter arrives truncated to its low byte; that leaves the eight
   * low bits, the only ones read, as they were.
   */
  method EncodeBits(data: array<bv8>, cursor: nat, value: nat, nbits: nat) returns (next: nat)
    requires nbits <= 8
    requires cursor < 256 && cursor + nbits <= 256 && cursor + nbits <= 8 * data.Length
    modifies data
    ensures next == if cursor + nbits == 256 then 0 else cursor + nbits
    ensures data[..] == OrBytes(old(data[..]), cursor, S.Bits(value, nbits))
  {
    ghost var start := data[..];
    ghost var done: seq<bool> := [];
    OrBytesNothing(start, cursor, done);
    // value & (1 << k) is the low bit of value shifted right k times
    var v := value;
    next := cursor;
    var k := 0;
    ghost var left := nbits;
    while k < nbits
      invariant k <= nbits && |done| == k && left == nbits - k
      invariant next == if cursor + k == 256 then 0 else cursor + k
      invariant done + S.Bits(v, left) == S.Bits(value, nbits)
      invariant data[..] == OrBytes(start, cursor, done)
    {
      var bit := v % 2 == 1;
      OrBytesSnoc(start, cursor, done, bit, next);
      next := EncodeBit(data, next, bit);
      BitsStep(done, v, left);
      done := done + [bit];
      v := v / 2;
      left := left - 1;
      k := k + 1;
    }
    AppendNothing(done, S.Bits(v, left));
  }

  /** The first of the remaining bits is the low bit of the shifted value. */
  lemma BitsStep(done: seq<bool>, v: nat, n: nat)
    requires n > 0
    ensures done + S.Bits(v, n) == done + [v % 2 == 1] + S.Bits(v / 2, n - 1)
  {
    Assoc(done, [v % 2 == 1], S.Bits(v / 2, n - 1));
  }

  /** The code and length of table row k, as the writer reads them. */
  lemma RowBits(k: int)
    requires 0 <= k < |S.HUFFMAN_TABLE|
    ensures S.HUFFMAN_TABLE[k].code < 256 && S.HUFFMAN_TABLE[k].nbits <= 4
    ensures S.Bits(S.HUFFMAN_TABLE[k].code, S.HUFFMAN_TABLE[k].nbits) == S.CodeBits(k)
  {
  }

  /** The code of a square as encode_piece puts it together. */
  lemma PieceCode(piece: Cell)
    requires !S.IsKing(piece)
    ensures piece == NO_PIECE ==> S.PieceBits(piece) == S.CodeBits(0)
    ensures piece != NO_PIECE ==> S.PieceBits(piece) == S.CodeBits(Value(piece) / 2 + 1) + [Color(piece) != 0]
  {
  }

  /**
   * encode_piece: the Huffman code of the piece type and, for a piece, its
   * colour bit. Kings never get here: the table has no row for them.
   */
  method EncodePiece(data: array<bv8>, cursor: nat, piece: Cell) returns (next: nat)
    requires !S.IsKing(piece)
    requires cursor + |S.PieceBits(piece)| <= 256 && cursor + |S.PieceBits(piece)| <= 8 * data.Length
    modifies data
    ensures next == if cursor + |S.PieceBits(piece)| == 256 then 0 else cursor + |S.PieceBits(piece)|
    ensures data[..] == OrBytes(old(data[..]), cursor, S.PieceBits(piece))
  {
    var value := Value(piece);
    var color := Color(piece);
    if piece == NO_PIECE {
      PieceCode(piece);
      RowBits(0);
      next := EncodeBits(data, cursor, S.HUFFMAN_TABLE[0].code, S.HUFFMAN_TABLE[0].nbits);
    } else {
      PieceCode(piece);
      next := EncodeColoured(data, cursor, value / 2 + 1, color != 0);
    }
  }

  /** encode_piece for a piece: the code of its table row, then its colour bit. */
  method EncodeColoured(data: array<bv8>, cursor: nat, row: int, black: bool) returns (next: nat)
    requires 0 <= row < |S.HUFFMAN_TABLE|
    requires cursor + |S.CodeBits(row)| + 1 <= 256 && cursor + |S.CodeBits(row)| + 1 <= 8 * data.Length
    modifies data
    ensures next == if cursor + |S.CodeBits(row)| + 1 == 256 then 0 else cursor + |S.CodeBits(row)| + 1
    ensures data[..] == OrBytes(old(data[..]), cursor, S.CodeBits(row) + [black])
  {
    ghost var start := data[..];
    RowBits(row);
    next := EncodeBits(data, cursor, S.HUFFMAN_TABLE[row].code, S.HUFFMAN_TABLE[row].nbits);
    OrBytesSnoc(start, cursor, S.CodeBits(row), black, next);
    next := EncodeBit(data, next, black);
  }

  /**
   * encode_position into a 32-byte block: the stream of SfenFormat ORed
   * into the block from bit 0. The stream has to fit the block (the byte
   * cursor would wrap around otherwise); a position with at most 36 pieces
   * besides the kings does.
   */
  method EncodePosition(p: S.SfenPosition, data: array<bv8>)
    requires |p.board| == 64 && data.Length == S.POSITION_BYTES
    requires |S.EncodeStream(p)| <= S.POSITION_BITS
    modifies data
    ensures data[..] == OrBytes(old(data[..]), 0, S.EncodeStream(p))
  {
    ghost var start := data[..];
    var cursor := EncodeHeader(p, data);
    ghost var w := S.Header(p);

    // The board from rank 8 down, kings skipped
    cursor := EncodeSquares(p.board, data, cursor, start, w);
    w := w + S.SquaresFrom(p.board, 7);

    // Castling, en passant and the counters
    EncodeTail(p, data, cursor, start, w);
  }

  /** The first thirteen bits of encode_position: side to move and the two king squares. */
  method EncodeHeader(p: S.SfenPosition, data: array<bv8>) returns (cursor: nat)
    requires data.Length == S.POSITION_BYTES
    modifies data
    ensures cursor == |S.Header(p)|
    ensures data[..] == OrBytes(old(data[..]), 0, S.Header(p))
  {
    ghost var start := data[..];
    var black := p.stm == BLACK;
    OrBytesOne(start, 0, black);
    cursor := EncodeBit(data, 0, black);
    ghost var w := [black];
    WriteMore(start, w, S.Bits(p.whiteKingSq, 6), cursor);
    cursor := EncodeBits(data, cursor, p.whiteKingSq, 6);
    w := w + S.Bits(p.whiteKingSq, 6);
    WriteMore(start, w, S.Bits(p.blackKingSq, 6), cursor);
    cursor := EncodeBits(data, cursor, p.blackKingSq, 6);
  }

  /** The board block: every square from rank 8 down and file A to H except the kings. */
  method EncodeSquares(board: seq<Cell>, data: array<bv8>, cursor: nat, ghost start: seq<bv8>, ghost w: seq<bool>)
    returns (next: nat)
    requires |board| == 64 && data.Length == S.POSITION_BYTES
    requires cursor == |w| && |w| + |S.SquaresFrom(board, 7)| <= 228
    requires data[..] == OrBytes(start, 0, w)
    modifies data
    ensures next == cursor + |S.SquaresFrom(board, 7)|
    ensures data[..] == OrBytes(start, 0, w + S.SquaresFrom(board, 7))
  {
    AboveTop(board, w);
    next := cursor;
    var rank := 7;
    while rank >= 0
      invariant -1 <= rank <= 7 && next == |w| + |Above(board, rank)|
      invariant |Above(board, rank)| + |S.SquaresFrom(board, rank)| == |S.SquaresFrom(board, 7)|
      invariant data[..] == OrBytes(start, 0, w + Above(board, rank))
    {
      AboveStep(board, rank, w);
      next := EncodeRank(board, rank, data, next, start, w + Above(board, rank));
      rank := rank - 1;
    }
    AboveAll(board, w, rank);
  }

  /** The ranks of the board block above rank r (0-based), from rank 8 down. */
  ghost function Above(board: seq<Cell>, r: int): (b: seq<bool>)
    requires |board| == 64 && -1 <= r <= 7
    decreases 7 - r
  {
    if r == 7 then [] else Above(board, r + 1) + S.RankBits(board, r + 1, 0)
  }

  lemma AboveTop(board: seq<Cell>, w: seq<bool>)
    requires |board| == 64
    ensures w + Above(board, 7) == w
  {
  }

  /** Writing rank r after the ranks above it gives the ranks above r - 1. */
  lemma AboveStep(board: seq<Cell>, r: nat, w: seq<bool>)
    requires |board| == 64 && r <= 7
    ensures w + Above(board, r) + S.RankBits(board, r, 0) == w + Above(board, r - 1)
    ensures |Above(board, r)| + |S.SquaresFrom(board, r)|
      == |Above(board, r - 1)| + |S.SquaresFrom(board, r - 1)|
  {
    Assoc(w, Above(board, r), S.RankBits(board, r, 0));
  }

  /** Past rank 1 the ranks above are the whole board block. */
  lemma AboveAll(board: seq<Cell>, w: seq<bool>, r: int)
    requires |board| == 64 && r == -1
    ensures w + Above(board, r) == w + S.SquaresFrom(board, 7)
  {
    AboveSplit(board, r, 7);
  }

  lemma SquaresUnfold(board: seq<Cell>, q: nat, r: int)
    requires |board| == 64 && q <= 7 && r == q - 1
    ensures S.SquaresFrom(board, q) == S.RankBits(board, q, 0) + S.SquaresFrom(board, r)
  {
  }

  lemma {:induction false} AboveSplit(board: seq<Cell>, r: int, top: int)
    requires |board| == 64 && -1 <= r <= 7 && top == 7
    ensures Above(board, r) + S.SquaresFrom(board, r) == S.SquaresFrom(board, top)
    decreases 7 - r
  {
    if r < 7 {
      var q := r + 1;
      AboveSplit(board, q, top);
      SquaresUnfold(board, q, r);
      Regroup(Above(board, r), Above(board, q), S.RankBits(board, q, 0),
        S.SquaresFrom(board, r), S.SquaresFrom(board, q), S.SquaresFrom(board, top));
    } else {
      NothingFirst(Above(board, r), S.SquaresFrom(board, r));
    }
  }

  /** The bits of rank r (0-based) written before file f. */
  ghost function Before(board: seq<Cell>, r: nat, f: nat): (b: seq<bool>)
    requires |board| == 64 && r < 8 && f <= 8
  {
    if f == 0 then [] else Before(board, r, f - 1) + S.SquareBits(board[8 * r + f - 1])
  }

  /** File f adds its square to the bits before it. */
  lemma BeforeStep(board: seq<Cell>, r: nat, f: nat, g: nat, w: seq<bool>)
    requires |board| == 64 && r < 8 && f < 8 && g == f + 1
    ensures w + Before(board, r, g) == w + Before(board, r, f) + S.SquareBits(board[8 * r + f])
  {
    Assoc(w, Before(board, r, f), S.SquareBits(board[8 * r + f]));
  }

  /** The bits before file f and the rank from file f on make up the whole rank. */
  lemma {:induction false} BeforeSplit(board: seq<Cell>, r: nat, f: nat)
    requires |board| == 64 && r < 8 && f <= 8
    ensures Before(board, r, f) + S.RankBits(board, r, f) == S.RankBits(board, r, 0)
  {
    if f > 0 {
      var e := f - 1;
      BeforeSplit(board, r, e);
      RankUnfold(board, r, e, f);
      Regroup(Before(board, r, f), Before(board, r, e), S.SquareBits(board[8 * r + e]),
        S.RankBits(board, r, f), S.RankBits(board, r, e), S.RankBits(board, r, 0));
    } else {
      NothingFirst(Before(board, r, f), S.RankBits(board, r, f));
    }
  }

  lemma RankUnfold(board: seq<Cell>, r: nat, e: nat, f: nat)
    requires |board| == 64 && r < 8 && e < 8 && f == e + 1
    ensures S.RankBits(board, r, e) == S.SquareBits(board[8 * r + e]) + S.RankBits(board, r, f)
  {
  }

  /** After file 8 the bits before it are the whole rank. */
  lemma BeforeAll(board: seq<Cell>, r: nat, f: nat, w: seq<bool>)
    requires |board| == 64 && r < 8 && f == 8
    ensures w + Before(board, r, f) == w + S.RankBits(board, r, 0)
  {
    BeforeSplit(board, r, f);
    AppendNothing(Before(board, r, f), S.RankBits(board, r, f));
  }

  /**
   * The body of the file loop of encode_position: a king is skipped, any
   * other square is written with encode_piece.
   */
  method EncodeSquare(board: seq<Cell>, rank: nat, file: nat, data: array<bv8>, cursor: nat,
                      ghost start: seq<bv8>, ghost w: seq<bool>)
    returns (next: nat)
    requires |board| == 64 && rank < 8 && file < 8 && data.Length == S.POSITION_BYTES
    requires cursor == |w| + |Before(board, rank, file)| && |w| + |S.RankBits(board, rank, 0)| < 256
    requires data[..] == OrBytes(start, 0, w + Before(board, rank, file))
    modifies data
    ensures next == |w| + |Before(board, rank, file + 1)|
    ensures data[..] == OrBytes(start, 0, w + Before(board, rank, file + 1))
  {
    var piece := board[8 * rank + file];
    ghost var g := file + 1;
    BeforeStep(board, rank, file, g, w);
    BeforeSplit(board, rank, g);
    if piece == WHITE_KING || piece == BLACK_KING {
      AppendNothing(w + Before(board, rank, file), S.SquareBits(piece));
      next := cursor;
    } else {
      WriteMore(start, w + Before(board, rank, file), S.PieceBits(piece), cursor);
      next := EncodePiece(data, cursor, piece);
    }
  }

  /** The file loop of encode_position for one rank. */
  method EncodeRank(board: seq<Cell>, rank: nat, data: array<bv8>, cursor: nat, ghost start: seq<bv8>, ghost w: seq<bool>)
    returns (next: nat)
    requires |board| == 64 && rank < 8 && data.Length == S.POSITION_BYTES
    requires cursor == |w| && |w| + |S.RankBits(board, rank, 0)| < 256
    requires data[..] == OrBytes(start, 0, w)
    modifies data
    ensures next == cursor + |S.RankBits(board, rank, 0)|
    ensures data[..] == OrBytes(start, 0, w + S.RankBits(board, rank, 0))
  {
    AppendNothing(w, Before(board, rank, 0));
    next := cursor;
    var file := 0;
    while file < 8
      invariant 0 <= file <= 8 && next == |w| + |Before(board, rank, file)|
      invariant data[..] == OrBytes(start, 0, w + Before(board, rank, file))
    {
      next := EncodeSquare(board, rank, file, data, next, start, w);
      file := file + 1;
    }
    BeforeAll(board, rank, file, w);
  }

  /** The second half of encode_position: castling bits, en passant, counters. */
  method EncodeTail(p: S.SfenPosition, data: array<bv8>, cursor: nat, ghost start: seq<bv8>, ghost w: seq<bool>)
    requires data.Length == S.POSITION_BYTES
    requires cursor == |w| && |w| + |S.Tail(p)| <= S.POSITION_BITS
    requires data[..] == OrBytes(start, 0, w)
    modifies data
    ensures data[..] == OrBytes(start, 0, w + S.Tail(p))
  {
    var wk, wq := HasFlag(p.castle, WHITE_KINGSIDE), HasFlag(p.castle, WHITE_QUEENSIDE);
    var bk, bq := HasFlag(p.castle, BLACK_KINGSIDE), HasFlag(p.castle, BLACK_QUEENSIDE);
    var c := cursor;
    ghost var v := w;
    WriteBit(start, v, wk, c);
    c := EncodeBit(data, c, wk);
    v := v + [wk];
    WriteBit(start, v, wq, c);
    c := EncodeBit(data, c, wq);
    v := v + [wq];
    WriteBit(start, v, bk, c);
    c := EncodeBit(data, c, bk);
    v := v + [bk];
    WriteBit(start, v, bq, c);
    c := EncodeBit(data, c, bq);
    v := v + [bq];
    c := EncodeEp(p.epSq, data, c, start, v);
    EncodeCounters(p.fifty, p.fullmove, data, c, start, v + S.EpBits(p.epSq));
    TailShape(p, w);
  }

  /** The tail as encode_position writes it: four castling bits, en passant, counters. */
  lemma TailShape(p: S.SfenPosition, w: seq<bool>)
    ensures w + [HasFlag(p.castle, WHITE_KINGSIDE)] + [HasFlag(p.castle, WHITE_QUEENSIDE)]
      + [HasFlag(p.castle, BLACK_KINGSIDE)] + [HasFlag(p.castle, BLACK_QUEENSIDE)]
      + S.EpBits(p.epSq) + S.CounterBits(p.fifty, p.fullmove) == w + S.Tail(p)
  {
  }

  /** The en-passant flag and, when there is a square, its six bits. */
  method EncodeEp(epSq: nat, data: array<bv8>, cursor: nat, ghost start: seq<bv8>, ghost w: seq<bool>)
    returns (next: nat)
    requires data.Length == S.POSITION_BYTES
    requires cursor == |w| && |w| + |S.EpBits(epSq)| + 23 <= S.POSITION_BITS
    requires data[..] == OrBytes(start, 0, w)
    modifies data
    ensures next == |w| + |S.EpBits(epSq)|
    ensures data[..] == OrBytes(start, 0, w + S.EpBits(epSq))
  {
    var flag := epSq != NO_SQUARE;
    EpShape(w, epSq, flag);
    WriteBit(start, w, flag, cursor);
    next := EncodeBit(data, cursor, flag);
    if flag {
      WriteMore(start, w + [flag], S.Bits(epSq, 6), next);
      next := EncodeBits(data, next, epSq, 6);
    }
  }

  /** The en-passant field as encode_position writes it: the flag, then the square if any. */
  lemma EpShape(w: seq<bool>, epSq: nat, flag: bool)
    requires flag == (epSq != NO_SQUARE)
    ensures !flag ==> w + [flag] == w + S.EpBits(epSq)
    ensures flag ==> w + [flag] + S.Bits(epSq, 6) == w + S.EpBits(epSq)
  {
    if flag {
      Assoc(w, [flag], S.Bits(epSq, 6));
    }
  }

  /** The counters as encode_position writes them: each passed to encode_bits as a byte. */
  method EncodeCounters(fifty: nat, fullmove: nat, data: array<bv8>, cursor: nat, ghost start: seq<bv8>, ghost w: seq<bool>)
    requires data.Length == S.POSITION_BYTES
    requires cursor == |w| && |w| + 23 <= S.POSITION_BITS
    requires data[..] == OrBytes(start, 0, w)
    modifies data
    ensures data[..] == OrBytes(start, 0, w + S.CounterBits(fifty, fullmove))
  {
    ghost var b6, b8, h8 := S.Bits(fifty, 6), S.Bits(fullmove, 8), S.Bits(fullmove / 256, 8);
    var top := (fifty / 64) % 2 == 1;
    WriteMore(start, w, b6, cursor);
    var c := EncodeBits(data, cursor, fifty, 6);
    WriteMore(start, w + b6, b8, c);
    c := EncodeBits(data, c, fullmove, 8);
    WriteMore(start, w + b6 + b8, h8, c);
    c := EncodeBits(data, c, fullmove / 256, 8);
    WriteBit(start, w + b6 + b8 + h8, top, c);
    c := EncodeBit(data, c, top);
    CountersJoin(w, b6, b8, h8, [top]);
  }

  /** Regrouping the four counter writes. */
  lemma CountersJoin(w: seq<bool>, a: seq<bool>, b: seq<bool>, c: seq<bool>, d: seq<bool>)
    ensures w + a + b + c + d == w + (a + b + c + d)
  {
  }

  /**
   * What the training loop relies on: a cleared block that encode_position
   * has written holds the stream followed by zero bits, and decodes to the
   * position it was given.
   */
  lemma EncodedBlockDecodes(p: S.SfenPosition, block: seq<bv8>)
    requires S.WellFormed(p) && |S.EncodeStream(p)| <= S.POSITION_BITS
    requires |block| == S.POSITION_BYTES && forall j :: 0 <= j < |block| ==> block[j] == 0
    ensures BufferBits(OrBytes(block, 0, S.EncodeStream(p)))
      == S.EncodeStream(p) + Zeros(S.POSITION_BITS - |S.EncodeStream(p)|)
    ensures S.DecodeStream(BufferBits(OrBytes(block, 0, S.EncodeStream(p)))) == Some(p)
  {
    var w := S.EncodeStream(p);
    var pad := S.POSITION_BITS - |w|;
    ClearedBlockHolds(block, w, pad);
    S.StreamRoundTrip(p, Zeros(pad));
  }

  /** Bits written into a cleared block from bit 0 read back followed by clear bits. */
  lemma ClearedBlockHolds(block: seq<bv8>, w: seq<bool>, pad: nat)
    requires |block| == S.POSITION_BYTES && forall j :: 0 <= j < |block| ==> block[j] == 0
    requires |w| <= S.POSITION_BITS && pad == S.POSITION_BITS - |w|
    ensures BufferBits(OrBytes(block, 0, w)) == w + Zeros(pad)
  {
    var n := 8 * |block|;
    OrBytesBits(block, 0, w);
    ZeroBits(block, n);
    OrIntoZeros(w, n, pad);
  }

  // ---- Reading -----------------------------------------------------------------
  // The cursor of the reader is an int passed by address; here each reader
  // returns the cursor after it. The source reads on past the end of the
  // block, into the bytes that follow it in the record; here a read that
  // would leave the block gives None.

  /** A reader's result with the cursor it stops at turned into the rest of the stream. */
  function Rest<T>(s: seq<bool>, r: Option<(T, nat)>): (res: Option<(T, seq<bool>)>)
    requires r.Some? ==> r.value.1 <= |s|
    ensures res.Some? <==> r.Some?
  {
    match r
    case None => None
    case Some((v, n)) => Some((v, s[n..]))
  }

  /** read_bit: `(data[c/8] >> (c&7)) & 1`, and the cursor moves on by one. */
  method ReadBit(data: array<bv8>, cursor: nat) returns (r: Option<(bool, nat)>)
    requires cursor <= 8 * data.Length
    ensures r.Some? <==> cursor < 8 * data.Length
    ensures r.Some? ==> r.value == (BufferBits(data[..])[cursor], cursor + 1)
  {
    if cursor == 8 * data.Length {
      return None;
    }
    var b := (data[cursor / 8] & Mask(cursor % 8)) != 0;
    BitOfByte(data[..], cursor, cursor / 8, cursor % 8);
    return Some((b, cursor + 1));
  }

  /** The stream decoder's read_bit at bit c of the block. */
  lemma ReadBitAt(s: seq<bool>, c: nat, n: nat)
    requires c < |s| && n == c + 1
    ensures S.ReadBit(s[c..]) == Some((s[c], s[n..]))
  {
    assert s[c..][1..] == s[n..];
  }

  /** The value of the k bits of s from bit i on, bit j weighing 2^j, as read_bits ORs them together. */
  ghost function ValueAt(s: seq<bool>, i: nat, k: nat): nat
    requires i + k <= |s|
  {
    if k == 0 then 0 else ValueAt(s, i, k - 1) + (if s[i + k - 1] then S.Pow2(k - 1) else 0)
  }

  /** One more bit read: bit k of the value is the bit at i + k. */
  lemma ValueAtStep(s: seq<bool>, i: nat, k: nat, g: nat)
    requires g == k + 1 && i + g <= |s|
    ensures ValueAt(s, i, g) == ValueAt(s, i, k) + (if s[i + k] then S.Pow2(k) else 0)
  {
  }

  /** Appending a bit above the others adds its weight. */
  lemma {:induction false} ValueOfSnoc(b: seq<bool>, x: bool)
    ensures S.ValueOf(b + [x]) == S.ValueOf(b) + (if x then S.Pow2(|b|) else 0)
  {
    if b != [] {
      assert (b + [x])[1..] == b[1..] + [x];
      ValueOfSnoc(b[1..], x);
    }
  }

  /** Bits read one at a time make the value the stream decoder reads at once. */
  lemma {:induction false} ValueAtSlice(s: seq<bool>, i: nat, k: nat)
    requires i + k <= |s|
    ensures ValueAt(s, i, k) == S.ValueOf(s[i..i + k])
    decreases k
  {
    if k > 0 {
      var e := k - 1;
      ValueAtSlice(s, i, e);
      assert s[i..i + k] == s[i..i + e] + [s[i + e]];
      ValueOfSnoc(s[i..i + e], s[i + e]);
    }
  }

  /** The stream decoder's read_bits at bit i of the block. */
  lemma ReadBitsAt(s: seq<bool>, i: nat, n: nat, v: nat, c: nat)
    requires i + n <= |s| && c == i + n && v == ValueAt(s, i, n)
    ensures S.ReadBits(s[i..], n) == Some((v, s[c..]))
  {
    ValueAtSlice(s, i, n);
    assert s[i..][..n] == s[i..c];
    assert s[i..][n..] == s[c..];
  }

  /**
   * read_bits: nbits bits, the k-th bit read setting bit k of the result
   * (`result |= 1 << k`; bit k is still clear, so the OR adds 2^k).
   */
  method ReadBits(data: array<bv8>, cursor: nat, nbits: nat) returns (r: Option<(nat, nat)>)
    requires cursor <= 8 * data.Length
    ensures r.Some? <==> cursor + nbits <= 8 * data.Length
    ensures r.Some? ==> r.value == (ValueAt(BufferBits(data[..]), cursor, nbits), cursor + nbits)
  {
    ghost var s := BufferBits(data[..]);
    var result := 0;
    var k := 0;
    while k < nbits
      invariant k <= nbits && cursor + k <= |s|
      invariant result == ValueAt(s, cursor, k)
    {
      var bit := ReadBit(data, cursor + k);
      if bit.None? {
        return None;
      }
      ValueAtStep(s, cursor, k, k + 1);
      result := result + (if bit.value.0 then S.Pow2(k) else 0);
      k := k + 1;
    }
    return Some((result, cursor + nbits));
  }

  /** What read_bits gives is what the stream decoder reads at its cursor. */
  lemma ReadBitsMeets(s: seq<bool>, i: nat, n: nat, r: Option<(nat, nat)>)
    requires i <= |s|
    requires r.Some? <==> i + n <= |s|
    requires r.Some? ==> r.value == (ValueAt(s, i, n), i + n)
    ensures r.Some? ==> r.value.1 <= |s|
    ensures Rest(s, r) == S.ReadBits(s[i..], n)
  {
    if r.Some? {
      ReadBitsAt(s, i, n, r.value.0, r.value.1);
    }
  }

  /** The table scan of read_piece: the first row with this code and length, or the table's size. */
  method FindRow(code: nat, nbits: nat) returns (k: nat)
    ensures k == S.FindCode(code, nbits, 0)
  {
    k := 0;
    while k < |S.HUFFMAN_TABLE| && !(S.HUFFMAN_TABLE[k].code == code && S.HUFFMAN_TABLE[k].nbits == nbits)
      invariant k <= |S.HUFFMAN_TABLE| && S.FindCode(code, nbits, k) == S.FindCode(code, nbits, 0)
    {
      k := k + 1;
    }
  }

  /** The piece rows hold the five piece types. */
  lemma PieceRow(k: nat)
    requires 0 < k < |S.HUFFMAN_TABLE|
    ensures S.HUFFMAN_TABLE[k].pieceType in {PAWN, KNIGHT, BISHOP, ROOK, QUEEN}
  {
  }

  /**
   * One bit of read_piece's loop: the code grows by the bit (to code2) and
   * is looked up (row k).
   */
  lemma ReadCodeStep(s: seq<bool>, c: nat, code: nat, nbits: nat, code2: nat, k: nat)
    requires c < |s| && nbits < 4
    requires code2 == code + (if s[c] then S.Pow2(nbits) else 0) && k == S.FindCode(code2, nbits + 1, 0)
    ensures k < |S.HUFFMAN_TABLE| ==> S.ReadCode(s, c, code, nbits) == S.Matched(s, c, k)
    ensures k == |S.HUFFMAN_TABLE| && nbits + 1 == 4 ==> S.ReadCode(s, c, code, nbits) == None
    ensures k == |S.HUFFMAN_TABLE| && nbits + 1 < 4 ==> S.ReadCode(s, c, code, nbits) == S.ReadCode(s, c + 1, code2, nbits + 1)
  {
  }

  /**
   * read_piece: read code bits one at a time, least significant first,
   * until code and length match a table row; then the colour bit for a
   * piece. No row is longer than four bits, so a four-bit code without a
   * row (which the source keeps reading past for ever) gives None.
   */
  method ReadPiece(data: array<bv8>, cursor: nat) returns (r: Option<(Cell, nat)>)
    requires cursor <= 8 * data.Length
    ensures r == S.DecodePiece(BufferBits(data[..]), cursor)
  {
    ghost var s := BufferBits(data[..]);
    var code: nat := 0;
    var nbits: nat := 0;
    var c: nat := cursor;
    while true
      invariant nbits < 4 && c <= |s|
      invariant S.ReadCode(s, c, code, nbits) == S.DecodePiece(s, cursor)
      decreases 4 - nbits
    {
      var bit := ReadBit(data, c);
      if bit.None? {
        return None;
      }
      var code2 := code + (if bit.value.0 then S.Pow2(nbits) else 0);
      var k := FindRow(code2, nbits + 1);
      ReadCodeStep(s, c, code, nbits, code2, k);
      if k < |S.HUFFMAN_TABLE| {
        if S.HUFFMAN_TABLE[k].pieceType == NO_PIECE {
          return Some((NO_PIECE, c + 1));
        }
        var color := ReadBit(data, c + 1);
        if color.None? {
          return None;
        }
        PieceRow(k);
        return Some(((if color.value.0 then 1 else 0) + S.HUFFMAN_TABLE[k].pieceType, c + 2));
      }
      if nbits + 1 == 4 {
        return None;
      }
      code, nbits, c := code2, nbits + 1, c + 1;
    }
  }

  /** A decoder result at bit n of s[c..] is one at bit c + n of s. */
  function Shifted(r: Option<(Cell, nat)>, c: nat): Option<(Cell, nat)>
  {
    match r
    case None => None
    case Some((p, n)) => Some((p, c + n))
  }

  /** The colour step of read_piece at bit j = c + i of s and bit i of s[c..]. */
  lemma MatchedShift(s: seq<bool>, c: nat, i: nat, j: nat, k: nat)
    requires c <= |s| && j == c + i && j < |s| && k < |S.HUFFMAN_TABLE|
    ensures S.Matched(s, j, k) == Shifted(S.Matched(s[c..], i, k), c)
  {
    if j + 1 < |s| {
      assert s[c..][i + 1] == s[j + 1];
    }
  }

  /** Decoding a piece at bit j = c + i of s is decoding it at bit i of what follows c. */
  lemma {:induction false} ReadCodeShift(s: seq<bool>, c: nat, i: nat, j: nat, code: nat, nbits: nat)
    requires c <= |s| && j == c + i && nbits < 4
    ensures S.ReadCode(s, j, code, nbits) == Shifted(S.ReadCode(s[c..], i, code, nbits), c)
    decreases 4 - nbits
  {
    if j < |s| {
      var t := s[c..];
      assert t[i] == s[j];
      var code2 := code + (if s[j] then S.Pow2(nbits) else 0);
      var k := S.FindCode(code2, nbits + 1, 0);
      ReadCodeStep(s, j, code, nbits, code2, k);
      ReadCodeStep(t, i, code, nbits, code2, k);
      if k < |S.HUFFMAN_TABLE| {
        MatchedShift(s, c, i, j, k);
        assert S.ReadCode(s, j, code, nbits) == Shifted(S.ReadCode(t, i, code, nbits), c);
      } else if nbits + 1 < 4 {
        ReadCodeShift(s, c, i + 1, j + 1, code2, nbits + 1);
        assert S.ReadCode(s, j, code, nbits) == Shifted(S.ReadCode(t, i, code, nbits), c);
      } else {
        assert S.ReadCode(s, j, code, nbits) == Shifted(S.ReadCode(t, i, code, nbits), c);
      }
    } else {
      assert i >= |s[c..]|;
      assert S.ReadCode(s, j, code, nbits) == None;
      assert S.ReadCode(s[c..], i, code, nbits) == None;
    }
  }

  /** read_piece from bit c of the block, in the form of the stream decoder. */
  lemma PieceAt(s: seq<bool>, c: nat)
    requires c <= |s|
    ensures S.ReadPiece(s[c..]) == Rest(s, S.DecodePiece(s, c))
  {
    ReadCodeShift(s, c, 0, c, 0, 0);
    match S.DecodePiece(s[c..], 0)
    case None =>
    case Some((p, n)) =>
      assert s[c..][n..] == s[c + n..];
  }

  /** One square of the file loop of position_from_sfen that reads a piece. */
  lemma RankPieceStep(s: seq<bool>, c: nat, cur: seq<Cell>, rank: nat, file: nat, pr: Option<(Cell, nat)>)
    requires c <= |s| && |cur| == 64 && rank < 8 && file < 8
    requires cur[8 * rank + file] == NO_PIECE && pr == S.DecodePiece(s, c)
    ensures pr.None? ==> S.DecodeRank(s[c..], cur, rank, file) == None
    ensures pr.Some? ==> (pr.value.1 <= |s| && S.DecodeRank(s[c..], cur, rank, file)
      == S.DecodeRank(s[pr.value.1..], if pr.value.0 != NO_PIECE then cur[8 * rank + file := pr.value.0] else cur, rank, file + 1))
  {
    PieceAt(s, c);
  }

  /**
   * The file loop of position_from_sfen for one rank: a piece code is read
   * for every square that is still empty.
   */
  method ReadRank(data: array<bv8>, cursor: nat, board: seq<Cell>, rank: nat) returns (r: Option<(seq<Cell>, nat)>)
    requires cursor <= 8 * data.Length && |board| == 64 && rank < 8
    ensures r.Some? ==> r.value.1 <= 8 * data.Length
    ensures Rest(BufferBits(data[..]), r) == S.DecodeRank(BufferBits(data[..])[cursor..], board, rank, 0)
  {
    ghost var s := BufferBits(data[..]);
    var cur: seq<Cell> := board;
    var c: nat := cursor;
    var file := 0;
    while file < 8
      invariant file <= 8 && |cur| == 64 && c <= |s|
      invariant S.DecodeRank(s[c..], cur, rank, file) == S.DecodeRank(s[cursor..], board, rank, 0)
    {
      var sq := 8 * rank + file;
      if cur[sq] == NO_PIECE {
        var piece := ReadPiece(data, c);
        RankPieceStep(s, c, cur, rank, file, piece);
        if piece.None? {
          return None;
        }
        if piece.value.0 != NO_PIECE {
          cur := cur[sq := piece.value.0];
        }
        c := piece.value.1;
      }
      file := file + 1;
    }
    return Some((cur, c));
  }

  /** One rank of the rank loop of position_from_sfen. */
  lemma SquaresReadStep(s: seq<bool>, c: nat, cur: seq<Cell>, rank: nat, row: Option<(seq<Cell>, nat)>)
    requires c <= |s| && |cur| == 64 && rank < 8
    requires row.Some? ==> row.value.1 <= |s|
    requires Rest(s, row) == S.DecodeRank(s[c..], cur, rank, 0)
    ensures row.None? ==> S.DecodeSquares(s[c..], cur, rank) == None
    ensures row.Some? ==> (|row.value.0| == 64 && S.DecodeSquares(s[c..], cur, rank)
      == S.DecodeSquares(s[row.value.1..], row.value.0, rank - 1))
  {
  }

  /** The rank loop of position_from_sfen, from rank 8 down. */
  method ReadSquares(data: array<bv8>, cursor: nat, board: seq<Cell>) returns (r: Option<(seq<Cell>, nat)>)
    requires cursor <= 8 * data.Length && |board| == 64
    ensures r.Some? ==> r.value.1 <= 8 * data.Length
    ensures Rest(BufferBits(data[..]), r) == S.DecodeSquares(BufferBits(data[..])[cursor..], board, 7)
  {
    ghost var s := BufferBits(data[..]);
    var cur: seq<Cell> := board;
    var c: nat := cursor;
    var rank := 7;
    while rank >= 0
      invariant -1 <= rank <= 7 && |cur| == 64 && c <= |s|
      invariant S.DecodeSquares(s[c..], cur, rank) == S.DecodeSquares(s[cursor..], board, 7)
    {
      var row := ReadRank(data, c, cur, rank);
      SquaresReadStep(s, c, cur, rank, row);
      if row.None? {
        return None;
      }
      cur, c := row.value.0, row.value.1;
      rank := rank - 1;
    }
    return Some((cur, c));
  }

  /** Four bits read one by one and ORed into the castling flags make the four-bit value. */
  lemma CastleValue(s: seq<bool>, i: nat)
    requires i + 4 <= |s|
    ensures ValueAt(s, i, 4) == (if s[i] then WHITE_KINGSIDE else 0) + (if s[i + 1] then WHITE_QUEENSIDE else 0)
      + (if s[i + 2] then BLACK_KINGSIDE else 0) + (if s[i + 3] then BLACK_QUEENSIDE else 0)
  {
    ValueAtStep(s, i, 0, 1);
    ValueAtStep(s, i, 1, 2);
    ValueAtStep(s, i, 2, 3);
    ValueAtStep(s, i, 3, 4);
    assert S.Pow2(0) == 1 && S.Pow2(1) == 2 && S.Pow2(2) == 4 && S.Pow2(3) == 8;
  }

  /** The four castling bits of position_from_sfen: the k-th bit read sets flag 2^k. */
  method ReadCastle(data: array<bv8>, cursor: nat) returns (r: Option<(nat, nat)>)
    requires cursor <= 8 * data.Length
    ensures r.Some? <==> cursor + 4 <= 8 * data.Length
    ensures r.Some? ==> r.value == (ValueAt(BufferBits(data[..]), cursor, 4), cursor + 4)
  {
    ghost var s := BufferBits(data[..]);
    var castle := 0;
    var b0 := ReadBit(data, cursor);
    if b0.None? { return None; }
    if b0.value.0 { castle := castle + WHITE_KINGSIDE; }
    var b1 := ReadBit(data, cursor + 1);
    if b1.None? { return None; }
    if b1.value.0 { castle := castle + WHITE_QUEENSIDE; }
    var b2 := ReadBit(data, cursor + 2);
    if b2.None? { return None; }
    if b2.value.0 { castle := castle + BLACK_KINGSIDE; }
    var b3 := ReadBit(data, cursor + 3);
    if b3.None? { return None; }
    if b3.value.0 { castle := castle + BLACK_QUEENSIDE; }
    CastleValue(s, cursor);
    return Some((castle, cursor + 4));
  }

  /** The en-passant flag and, when it is set, the square; NO_SQUARE otherwise. */
  method ReadEp(data: array<bv8>, cursor: nat) returns (r: Option<(nat, nat)>)
    requires cursor <= 8 * data.Length
    ensures r.Some? ==> r.value.1 <= 8 * data.Length
    ensures Rest(BufferBits(data[..]), r) == S.DecodeEp(BufferBits(data[..])[cursor..])
  {
    ghost var s := BufferBits(data[..]);
    var hasEp := ReadBit(data, cursor);
    if hasEp.None? {
      return None;
    }
    DecodeEpAt(s, cursor);
    if !hasEp.value.0 {
      return Some((NO_SQUARE, cursor + 1));
    }
    r := ReadBits(data, cursor + 1, 6);
    ReadBitsMeets(s, cursor + 1, 6, r);
  }

  /** The stream decoder's en-passant field at bit c: the flag, then six bits when it is set. */
  lemma DecodeEpAt(s: seq<bool>, c: nat)
    requires c < |s|
    ensures S.DecodeEp(s[c..]) == if s[c] then S.ReadBits(s[c + 1..], 6) else Some((NO_SQUARE, s[c + 1..]))
  {
    ReadBitAt(s, c, c + 1);
  }

  /**
   * The counters at bit c of the block: six fifty-move bits, the move
   * number's low and high byte, then the fifty-move counter's seventh bit.
   */
  ghost function CountersAt(s: seq<bool>, c: nat): Option<(nat, nat)>
    requires c <= |s|
  {
    if c + 23 <= |s| then
      Some((ValueAt(s, c, 6) + (if s[c + 22] then 64 else 0), ValueAt(s, c + 6, 8) + 256 * ValueAt(s, c + 14, 8)))
    else None
  }

  /** The counters' four reads, in the stream decoder's terms, give its result. */
  lemma CountersRead(s: seq<bool>, c: nat, fifty: nat, low: nat, high: nat, bit: bool)
    requires c + 23 <= |s|
    requires S.ReadBits(s[c..], 6) == Some((fifty, s[c + 6..]))
    requires S.ReadBits(s[c + 6..], 8) == Some((low, s[c + 14..]))
    requires S.ReadBits(s[c + 14..], 8) == Some((high, s[c + 22..]))
    requires S.ReadBit(s[c + 22..]) == Some((bit, s[c + 23..]))
    ensures S.DecodeCounters(s[c..]) == Some((fifty + (if bit then 64 else 0), low + 256 * high))
  {
  }

  /** The stream decoder reads the counters at bit c of the block. */
  lemma CountersAtMeets(s: seq<bool>, c: nat)
    requires c <= |s|
    ensures S.DecodeCounters(s[c..]) == CountersAt(s, c)
  {
    if c + 23 <= |s| {
      ReadBitsAt(s, c, 6, ValueAt(s, c, 6), c + 6);
      ReadBitsAt(s, c + 6, 8, ValueAt(s, c + 6, 8), c + 14);
      ReadBitsAt(s, c + 14, 8, ValueAt(s, c + 14, 8), c + 22);
      ReadBitAt(s, c + 22, c + 23);
      CountersRead(s, c, ValueAt(s, c, 6), ValueAt(s, c + 6, 8), ValueAt(s, c + 14, 8), s[c + 22]);
    } else if c + 6 <= |s| {
      ReadBitsAt(s, c, 6, ValueAt(s, c, 6), c + 6);
      if c + 14 <= |s| {
        ReadBitsAt(s, c + 6, 8, ValueAt(s, c + 6, 8), c + 14);
        if c + 22 <= |s| {
          ReadBitsAt(s, c + 14, 8, ValueAt(s, c + 14, 8), c + 22);
        }
      }
    }
  }

  /**
   * The counters: fifty-move low bits, move number low and high byte,
   * fifty-move high bit; fullmove |= high << 8 and fifty |= bit << 6 OR
   * into clear bits, so they add.
   */
  method ReadCounters(data: array<bv8>, cursor: nat) returns (r: Option<(nat, nat)>)
    requires cursor <= 8 * data.Length
    ensures r == CountersAt(BufferBits(data[..]), cursor)
  {
    ghost var s := BufferBits(data[..]);
    var fifty := ReadBits(data, cursor, 6);
    if fifty.None? { return None; }
    var fullLow := ReadBits(data, cursor + 6, 8);
    if fullLow.None? { return None; }
    var fullHigh := ReadBits(data, cursor + 14, 8);
    if fullHigh.None? { return None; }
    var high := ReadBit(data, cursor + 22);
    if high.None? { return None; }
    var fullmove := fullLow.value.0 + 256 * fullHigh.value.0;
    var f := fifty.value.0 + (if high.value.0 then 64 else 0);
    CountersOfReads(s, cursor, fifty.value.0, fullLow.value.0, fullHigh.value.0, high.value.0);
    return Some((f, fullmove));
  }

  /** The four reads of the counters, put together, are the counters at bit c. */
  lemma CountersOfReads(s: seq<bool>, c: nat, fifty: nat, low: nat, high: nat, bit: bool)
    requires c + 23 <= |s| && bit == s[c + 22]
    requires fifty == ValueAt(s, c, 6) && low == ValueAt(s, c + 6, 8) && high == ValueAt(s, c + 14, 8)
    ensures CountersAt(s, c) == Some((fifty + (if bit then 64 else 0), low + 256 * high))
  {
  }

  /** Everything after the board block: castling, en passant, the counters. */
  method ReadTail(data: array<bv8>, cursor: nat) returns (r: Option<(nat, nat, nat, nat)>)
    requires cursor <= 8 * data.Length
    ensures r == S.DecodeTail(BufferBits(data[..])[cursor..])
  {
    ghost var s := BufferBits(data[..]);
    var castle := ReadCastle(data, cursor);
    ReadBitsMeets(s, cursor, 4, castle);
    if castle.None? { return None; }
    var ep := ReadEp(data, castle.value.1);
    if ep.None? { return None; }
    var counters := ReadCounters(data, ep.value.1);
    CountersAtMeets(s, ep.value.1);
    if counters.None? { return None; }
    return Some((castle.value.0, ep.value.0, counters.value.0, counters.value.1));
  }

  /**
   * position_from_sfen: the side to move, both kings, then every square
   * not already taken from rank 8 down, then castling, en passant and the
   * counters. It computes the stream decoder on the block's bits.
   */
  method PositionFromSfen(data: array<bv8>) returns (r: Option<S.SfenPosition>)
    requires data.Length == S.POSITION_BYTES
    ensures r == S.DecodeStream(BufferBits(data[..]))
  {
    ghost var s := BufferBits(data[..]);
    assert s[0..] == s;
    var stm := ReadBit(data, 0);
    ReadBitAt(s, 0, 1);
    var wk := ReadBits(data, 1, 6);
    ReadBitsMeets(s, 1, 6, wk);
    var bk := ReadBits(data, 7, 6);
    ReadBitsMeets(s, 7, 6, bk);
    assert S.Pow2(6) == 64;
    var whiteKing: Square := wk.value.0;
    var blackKing: Square := bk.value.0;
    var black := stm.value.0;
    var squares := ReadSquares(data, 13, S.KingsBoard(whiteKing, blackKing));
    if squares.None? {
      return None;
    }
    var tail := ReadTail(data, squares.value.1);
    if tail.None? {
      return None;
    }
    var (castle, ep, fifty, fullmove) := tail.value;
    return Some(S.SfenPosition(squares.value.0, whiteKing, blackKing, ep, castle, fifty, fullmove, if black then BLACK else WHITE));
  }
}
