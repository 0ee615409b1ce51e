/**
 * The packed training-record format ("packed sfen") that src/sfen.c,
 * src/selfplay.c and scripts/gensfen.py write and src/sfen.c reads back.
 *
 * A position is a stream of bits, least significant bit of every field
 * first:
 *   side to move (1), white king square (6), black king square (6),
 *   one Huffman code per square from rank 8 to rank 1 and file A to H with
 *   both king squares skipped, castling rights (4: WK WQ BK BQ),
 *   en-passant flag (1) and square (6, only when the flag is set),
 *   fifty-move counter low bits (6), fullmove low byte (8), fullmove high
 *   byte (8), fifty-move counter bit 6 (1).
 * This module states that stream as a sequence of booleans, the decoder
 * as a function on such a sequence, and proves that decoding undoes
 * encoding.
 */
module SfenFormat {
  import opened Types
  import opened Wrappers

  const SFEN_BIN_SIZE: int := 40
  const POSITION_BYTES: int := 32
  const POSITION_BITS: int := 256

  /** One row of the Huffman table: the code, its length and the piece type it stands for. */
  datatype HuffmanEntry = HuffmanEntry(code: nat, nbits: nat, pieceType: int)

  const HUFFMAN_TABLE: seq<HuffmanEntry> := [
    HuffmanEntry(0, 1, NO_PIECE),
    HuffmanEntry(1, 4, PAWN),
    HuffmanEntry(3, 4, KNIGHT),
    HuffmanEntry(5, 4, BISHOP),
    HuffmanEntry(7, 4, ROOK),
    HuffmanEntry(9, 4, QUEEN)
  ]

  /**
   * The part of a position that the bit stream carries: the board, both
   * king squares, the en-passant square (NO_SQUARE when there is none), the
   * castling flags, the fifty-move and fullmove counters and the side to
   * move.
   */
  datatype SfenPosition = SfenPosition(
    board: seq<Cell>,
    whiteKingSq: Square,
    blackKingSq: Square,
    epSq: nat,
    castle: nat,
    fifty: nat,
    fullmove: nat,
    stm: Side)

  predicate IsKing(p: Cell)
  {
    p == WHITE_KING || p == BLACK_KING
  }

  /**
   * A position the format can carry unchanged: each king on its own square
   * and nowhere else, a real or absent en-passant square, four castling
   * flags, a seven-bit fifty-move counter and a sixteen-bit move number.
   */
  predicate WellFormed(p: SfenPosition)
  {
    && |p.board| == 64
    && p.board[p.whiteKingSq] == WHITE_KING
    && p.board[p.blackKingSq] == BLACK_KING
    && (forall sq :: 0 <= sq < 64 && sq != p.whiteKingSq && sq != p.blackKingSq ==> !IsKing(p.board[sq]))
    && (p.epSq == NO_SQUARE || p.epSq < 64)
    && p.castle < 16
    && p.fifty < 128
    && p.fullmove < 0x1_0000
  }

  // ---- Fields of n bits ----------------------------------------------------

  function Pow2(n: nat): (p: nat)
    ensures p >= 1
  {
    if n == 0 then 1 else 2 * Pow2(n - 1)
  }

  /** The n low bits of v, least significant first, as encode_bits writes them. */
  function Bits(v: nat, n: nat): (b: seq<bool>)
    ensures |b| == n
  {
    if n == 0 then [] else [v % 2 == 1] + Bits(v / 2, n - 1)
  }

  /** The number whose bits, least significant first, are b, as read_bits assembles it. */
  function ValueOf(b: seq<bool>): (v: nat)
    ensures v < Pow2(|b|)
  {
    if b == [] then 0 else (if b[0] then 1 else 0) + 2 * ValueOf(b[1..])
  }

  /** Reading back n written bits gives the value when it fits in n bits. */
  lemma {:induction false} ValueOfBits(v: nat, n: nat)
    requires v < Pow2(n)
    ensures ValueOf(Bits(v, n)) == v
  {
    if n > 0 {
      ValueOfBits(v / 2, n - 1);
      assert Bits(v, n)[1..] == Bits(v / 2, n - 1);
    }
  }

  /** Writing the bits of a read value gives back the same bits. */
  lemma {:induction false} BitsOfValue(b: seq<bool>)
    ensures Bits(ValueOf(b), |b|) == b
  {
    if b != [] {
      BitsOfValue(b[1..]);
      var v := ValueOf(b);
      assert v % 2 == (if b[0] then 1 else 0) && v / 2 == ValueOf(b[1..]);
      assert Bits(v, |b|) == [b[0]] + b[1..];
    }
  }

  /** Only the n low bits are written: adding a multiple of 2^n changes nothing. */
  lemma {:induction false} BitsLow(v: nat, h: nat, n: nat)
    ensures Bits(v + Pow2(n) * h, n) == Bits(v, n)
  {
    if n > 0 {
      var q := Pow2(n - 1) * h;
      assert Pow2(n) * h == 2 * q;
      assert (v + 2 * q) % 2 == v % 2;
      assert (v + 2 * q) / 2 == v / 2 + q;
      BitsLow(v / 2, h, n - 1);
    }
  }

  /** A slice holding a + b holds a and then b. */
  lemma SliceOfConcat(s: seq<bool>, i: nat, a: seq<bool>, b: seq<bool>)
    requires i + |a| + |b| <= |s| && s[i..i + |a| + |b|] == a + b
    ensures s[i..i + |a|] == a && s[i + |a|..i + |a| + |b|] == b
  {
    assert s[i..i + |a|] == s[i..i + |a| + |b|][..|a|];
    assert s[i + |a|..i + |a| + |b|] == s[i..i + |a| + |b|][|a|..];
  }

  // ---- Pieces --------------------------------------------------------------

  /** The code bits of table row k. */
  function CodeBits(k: int): (b: seq<bool>)
    requires 0 <= k < |HUFFMAN_TABLE|
    ensures |b| == HUFFMAN_TABLE[k].nbits
  {
    Bits(HUFFMAN_TABLE[k].code, HUFFMAN_TABLE[k].nbits)
  }

  /** Each code reads back as its own value. */
  lemma CodeValue(k: int)
    requires 0 <= k < |HUFFMAN_TABLE|
    ensures ValueOf(CodeBits(k)) == HUFFMAN_TABLE[k].code
  {
    assert Pow2(1) == 2 && Pow2(4) == 16;
    ValueOfBits(HUFFMAN_TABLE[k].code, HUFFMAN_TABLE[k].nbits);
  }

  /** Rows 1 to 5: the pieces PAWN to QUEEN, each with the four-bit odd code 2k - 1. */
  lemma TableRow(k: int)
    requires 1 <= k < |HUFFMAN_TABLE|
    ensures HUFFMAN_TABLE[k] == HuffmanEntry(2 * k - 1, 4, 2 * k - 2)
  {
    if k == 1 {} else if k == 2 {} else if k == 3 {} else if k == 4 {} else {}
  }

  lemma TableRows()
    ensures forall k :: 1 <= k < |HUFFMAN_TABLE| ==> HUFFMAN_TABLE[k] == HuffmanEntry(2 * k - 1, 4, 2 * k - 2)
  {
    forall k | 1 <= k < |HUFFMAN_TABLE|
      ensures HUFFMAN_TABLE[k] == HuffmanEntry(2 * k - 1, 4, 2 * k - 2)
    {
      TableRow(k);
    }
  }

  /** No code of the table is a prefix of another, so a reader can stop at the first match. */
  lemma HuffmanPrefixFree(j: int, k: int)
    requires 0 <= j < |HUFFMAN_TABLE| && 0 <= k < |HUFFMAN_TABLE| && j != k
    ensures !(CodeBits(j) <= CodeBits(k))
  {
    if j != 0 && k != 0 {
      TableRow(j);
      TableRow(k);
      CodeValue(j);
      CodeValue(k);
      assert CodeBits(j) != CodeBits(k);
      assert |CodeBits(j)| == |CodeBits(k)| == 4;
      assert CodeBits(k)[..4] == CodeBits(k);
    } else if j == 0 {
      TableRow(k);
      assert CodeBits(0) == [false];
      assert CodeBits(k)[0];
    } else {
      TableRow(j);
      assert |CodeBits(k)| == 1;
    }
  }

  /**
   * The bits encode_piece writes for a cell other than a king: one 0 bit for
   * an empty square, otherwise the four-bit code of the piece type followed
   * by the colour bit.
   */
  function PieceBits(p: Cell): (b: seq<bool>)
    requires !IsKing(p)
    ensures |b| == (if p == NO_PIECE then 1 else 5)
    ensures b[0] <==> p != NO_PIECE
  {
    if p == NO_PIECE then CodeBits(0)
    else
      var k := Value(p) / 2 + 1;
      assert CodeBits(k)[0] by { assert HUFFMAN_TABLE[k].code % 2 == 1; }
      CodeBits(k) + [Color(p) == BLACK]
  }

  /** Row k of the table has this code and this length. */
  predicate RowMatches(k: nat, code: nat, nbits: nat)
    requires k < |HUFFMAN_TABLE|
  {
    HUFFMAN_TABLE[k].code == code && HUFFMAN_TABLE[k].nbits == nbits
  }

  /** The first table row whose code and length both match, or the table size when none does. */
  function FindCode(code: nat, nbits: nat, k: nat): (r: nat)
    requires k <= |HUFFMAN_TABLE|
    ensures k <= r <= |HUFFMAN_TABLE|
    ensures r < |HUFFMAN_TABLE| ==> RowMatches(r, code, nbits)
    decreases |HUFFMAN_TABLE| - k, code
  {
    if k == |HUFFMAN_TABLE| then k
    else if RowMatches(k, code, nbits) then k
    else FindCode(code, nbits, k + 1)
  }

  /** From row k >= 1 on, only the odd four-bit codes below 11 are found, each at row (code + 1) / 2. */
  lemma {:induction false} FindCodeFrom(code: nat, nbits: nat, k: nat)
    requires 1 <= k <= |HUFFMAN_TABLE|
    ensures FindCode(code, nbits, k)
      == if nbits == 4 && code % 2 == 1 && k <= (code + 1) / 2 < |HUFFMAN_TABLE| then (code + 1) / 2 else |HUFFMAN_TABLE|
    decreases |HUFFMAN_TABLE| - k
  {
    if k < |HUFFMAN_TABLE| {
      TableRow(k);
      if !RowMatches(k, code, nbits) {
        FindCodeFrom(code, nbits, k + 1);
      }
    }
  }

  /**
   * The table lookup as a formula: the one-bit code 0 is row 0, an odd
   * four-bit code below 11 is row (code + 1) / 2, and nothing else matches.
   */
  lemma FindCodeSpec(code: nat, nbits: nat)
    ensures FindCode(code, nbits, 0)
      == if nbits == 1 && code == 0 then 0
         else if nbits == 4 && code % 2 == 1 && code < 11 then (code + 1) / 2
         else |HUFFMAN_TABLE|
  {
    FindCodeFrom(code, nbits, 1);
  }

  /**
   * read_piece once row k has matched with the code's last bit at i: an
   * empty square ends there; a piece adds the colour bit that follows.
   */
  function Matched(s: seq<bool>, i: nat, k: nat): (r: Option<(Cell, nat)>)
    requires i < |s| && k < |HUFFMAN_TABLE|
    ensures r.Some? ==> i < r.value.1 <= |s| && !IsKing(r.value.0)
  {
    if HUFFMAN_TABLE[k].pieceType == NO_PIECE then Some((NO_PIECE, i + 1))
    else if i + 1 >= |s| then None
    else
      assert HUFFMAN_TABLE[k].pieceType in {PAWN, KNIGHT, BISHOP, ROOK, QUEEN};
      Some((HUFFMAN_TABLE[k].pieceType + (if s[i + 1] then 1 else 0), i + 2))
  }

  /**
   * read_piece from bit i, having read nbits bits that make up code: read
   * one more bit as the next higher bit of the code and look the code up.
   * No row is longer than four bits, so an unknown four-bit code can never
   * match (the source keeps reading for ever): it is None here, and so is
   * running out of bits.
   */
  function ReadCode(s: seq<bool>, i: nat, code: nat, nbits: nat): (r: Option<(Cell, nat)>)
    requires nbits < 4
    ensures r.Some? ==> i < r.value.1 <= |s| && !IsKing(r.value.0)
    decreases 4 - nbits, |s| - i
  {
    if i >= |s| then None
    else
      var code' := code + (if s[i] then Pow2(nbits) else 0);
      var k := FindCode(code', nbits + 1, 0);
      if k < |HUFFMAN_TABLE| then Matched(s, i, k)
      else if nbits + 1 == 4 then None
      else ReadCode(s, i + 1, code', nbits + 1)
  }

  function DecodePiece(s: seq<bool>, i: nat): (r: Option<(Cell, nat)>)
    ensures r.Some? ==> i < r.value.1 <= |s| && !IsKing(r.value.0)
  {
    ReadCode(s, i, 0, 0)
  }

  lemma ValueOfFour(b: seq<bool>)
    requires |b| == 4
    ensures ValueOf(b) == (if b[0] then 1 else 0) + (if b[1] then 2 else 0) + (if b[2] then 4 else 0) + (if b[3] then 8 else 0)
  {
    assert ValueOf(b[3..]) == (if b[3] then 1 else 0) by { assert b[3..][1..] == []; }
    assert ValueOf(b[2..]) == (if b[2] then 1 else 0) + 2 * ValueOf(b[3..]) by { assert b[2..][1..] == b[3..]; }
    assert ValueOf(b[1..]) == (if b[1] then 1 else 0) + 2 * ValueOf(b[2..]) by { assert b[1..][1..] == b[2..]; }
  }

  /** No row has two or three bits, and the only one-bit row is the 0 code. */
  lemma NoShortCode(code: nat, n: nat)
    requires (n == 1 && code != 0) || n == 2 || n == 3
    ensures FindCode(code, n, 0) == |HUFFMAN_TABLE|
  {
    FindCodeSpec(code, n);
  }

  /** A code starting with a 1 bit reads three more bits before it can match a row. */
  lemma ReadFirstThree(s: seq<bool>, i: nat)
    requires i + 4 <= |s| && s[i]
    ensures ReadCode(s, i, 0, 0) == ReadCode(s, i + 3, 1 + (if s[i + 1] then 2 else 0) + (if s[i + 2] then 4 else 0), 3)
  {
    assert Pow2(0) == 1 && Pow2(1) == 2 && Pow2(2) == 4;
    var c2 := 1 + (if s[i + 1] then 2 else 0);
    NoShortCode(1, 1);
    NoShortCode(c2, 2);
    NoShortCode(c2 + (if s[i + 2] then 4 else 0), 3);
    assert ReadCode(s, i, 0, 0) == ReadCode(s, i + 1, 1, 1);
    assert ReadCode(s, i + 1, 1, 1) == ReadCode(s, i + 2, c2, 2);
  }

  /** The fourth bit completes the code: it matches a row or nothing ever will. */
  lemma ReadFourth(s: seq<bool>, j: nat, code: nat)
    requires j < |s|
    ensures var k := FindCode(code + (if s[j] then 8 else 0), 4, 0);
      ReadCode(s, j, code, 3) == if k < |HUFFMAN_TABLE| then Matched(s, j, k) else None
  {
    assert Pow2(3) == 8;
  }

  /** A four-bit code of the table is found at its own row. */
  lemma FindOwnCode(k: nat)
    requires 1 <= k < |HUFFMAN_TABLE|
    ensures FindCode(HUFFMAN_TABLE[k].code, 4, 0) == k
  {
    TableRow(k);
    FindCodeSpec(HUFFMAN_TABLE[k].code, 4);
  }

  /** Reading a piece where encode_piece wrote one gives the piece and moves past its code. */
  lemma PieceRoundTrip(s: seq<bool>, i: nat, p: Cell)
    requires !IsKing(p)
    requires i + |PieceBits(p)| <= |s| && s[i..i + |PieceBits(p)|] == PieceBits(p)
    ensures DecodePiece(s, i) == Some((p, i + |PieceBits(p)|))
  {
    var b := PieceBits(p);
    assert s[i] == b[0] by { assert s[i..i + |b|][0] == s[i]; }
    if p == NO_PIECE {
      assert FindCode(0, 1, 0) == 0;
    } else {
      var k := PieceRowOf(p);
      var black := Color(p) == BLACK;
      SliceOfConcat(s, i, CodeBits(k), [black]);
      assert s[i + 4] == black by { assert s[i + 4..i + 5][0] == s[i + 4]; }
      PieceCodeRead(s, i, k, black);
    }
  }

  /** The four code bits of row k, read one at a time. */
  lemma CodeOfSlice(s: seq<bool>, i: nat, k: nat)
    requires 1 <= k < |HUFFMAN_TABLE| && i + 4 <= |s| && s[i..i + 4] == CodeBits(k)
    ensures s[i] && 1 + (if s[i + 1] then 2 else 0) + (if s[i + 2] then 4 else 0) + (if s[i + 3] then 8 else 0) == 2 * k - 1
  {
    TableRow(k);
    CodeValue(k);
    var w := s[i..i + 4];
    assert w[0] == s[i] && w[1] == s[i + 1] && w[2] == s[i + 2] && w[3] == s[i + 3];
    ValueOfFour(w);
  }

  /** A code whose four bits make row k's code is read as row k. */
  lemma ReadKnownCode(s: seq<bool>, i: nat, k: nat)
    requires 1 <= k < |HUFFMAN_TABLE| && i + 4 <= |s| && s[i]
    requires 1 + (if s[i + 1] then 2 else 0) + (if s[i + 2] then 4 else 0) + (if s[i + 3] then 8 else 0) == 2 * k - 1
    ensures ReadCode(s, i, 0, 0) == Matched(s, i + 3, k)
  {
    var c3 := 1 + (if s[i + 1] then 2 else 0) + (if s[i + 2] then 4 else 0);
    ReadFirstThree(s, i);
    ReadFourth(s, i + 3, c3);
    TableRow(k);
    FindOwnCode(k);
    assert FindCode(c3 + (if s[i + 3] then 8 else 0), 4, 0) == k;
  }

  /** Row k stands for a piece type, completed by the colour bit that follows. */
  lemma MatchedPiece(s: seq<bool>, j: nat, k: nat)
    requires 1 <= k < |HUFFMAN_TABLE| && j + 1 < |s|
    ensures Matched(s, j, k) == Some((2 * k - 2 + (if s[j + 1] then 1 else 0), j + 2))
  {
    TableRow(k);
  }

  /** Row k's four code bits and a colour bit read as the piece of that row and colour. */
  lemma PieceCodeRead(s: seq<bool>, i: nat, k: nat, black: bool)
    requires 1 <= k < |HUFFMAN_TABLE| && i + 5 <= |s|
    requires s[i..i + 4] == CodeBits(k) && s[i + 4] == black
    ensures ReadCode(s, i, 0, 0) == Some((2 * k - 2 + (if black then 1 else 0), i + 5))
  {
    CodeOfSlice(s, i, k);
    ReadKnownCode(s, i, k);
    MatchedPiece(s, i + 3, k);
  }

  /** The row of a piece other than a king, and the piece as row and colour. */
  lemma PieceRowOf(p: Cell) returns (k: nat)
    requires !IsKing(p) && p != NO_PIECE
    ensures 1 <= k < |HUFFMAN_TABLE| && PieceBits(p) == CodeBits(k) + [Color(p) == BLACK]
    ensures 2 * k - 2 + (if Color(p) == BLACK then 1 else 0) == p
  {
    k := Value(p) / 2 + 1;
  }

  // ---- The board block -------------------------------------------------------

  /** What one square contributes to the board block: nothing for a king, else its piece code. */
  function SquareBits(p: Cell): (b: seq<bool>)
    ensures |b| == (if IsKing(p) then 0 else if p == NO_PIECE then 1 else 5)
  {
    if IsKing(p) then [] else PieceBits(p)
  }

  /** The part of the board block that rank r contributes from file f on. */
  function RankBits(board: seq<Cell>, r: nat, f: nat): (b: seq<bool>)
    requires |board| == 64 && r < 8 && f <= 8
    decreases 8 - f, |board|
  {
    if f == 8 then [] else SquareBits(board[8 * r + f]) + RankBits(board, r, f + 1)
  }

  /**
   * The board block from rank r down to rank 1 (r is 0-based; -1 is past
   * rank 1): ranks from 8 down to 1, files A to H within a rank.
   */
  function SquaresFrom(board: seq<Cell>, r: int): (b: seq<bool>)
    requires |board| == 64 && -1 <= r < 8
    decreases r + 1, |board|
  {
    if r < 0 then [] else RankBits(board, r, 0) + SquaresFrom(board, r - 1)
  }

  function KingWeight(p: Cell): nat { if IsKing(p) then 1 else 0 }

  function PieceWeight(p: Cell): nat { if p != NO_PIECE && !IsKing(p) then 1 else 0 }

  /** The number of kings on rank r from file f on. */
  function KingsOnRank(board: seq<Cell>, r: nat, f: nat): (n: nat)
    requires |board| == 64 && r < 8 && f <= 8
    ensures n <= 8 - f
    decreases 8 - f, |board|
  {
    if f == 8 then 0 else KingWeight(board[8 * r + f]) + KingsOnRank(board, r, f + 1)
  }

  /** The number of pieces other than kings on rank r from file f on. */
  function PiecesOnRank(board: seq<Cell>, r: nat, f: nat): (n: nat)
    requires |board| == 64 && r < 8 && f <= 8
    ensures n <= 8 - f
    decreases 8 - f, |board|
  {
    if f == 8 then 0 else PieceWeight(board[8 * r + f]) + PiecesOnRank(board, r, f + 1)
  }

  /** The number of kings on ranks r down to 1. */
  function KingsFrom(board: seq<Cell>, r: int): (n: nat)
    requires |board| == 64 && -1 <= r < 8
    ensures n <= 8 * (r + 1)
    decreases r + 1, |board|
  {
    if r < 0 then 0 else KingsOnRank(board, r, 0) + KingsFrom(board, r - 1)
  }

  /** The number of pieces other than kings on ranks r down to 1. */
  function PiecesFrom(board: seq<Cell>, r: int): (n: nat)
    requires |board| == 64 && -1 <= r < 8
    ensures n <= 8 * (r + 1)
    decreases r + 1, |board|
  {
    if r < 0 then 0 else PiecesOnRank(board, r, 0) + PiecesFrom(board, r - 1)
  }

  /** Each non-king square costs one bit, and a piece four more. */
  lemma {:induction false} RankLength(board: seq<Cell>, r: nat, f: nat)
    requires |board| == 64 && r < 8 && f <= 8
    ensures |RankBits(board, r, f)| == (8 - f) - KingsOnRank(board, r, f) + 4 * PiecesOnRank(board, r, f)
    decreases 8 - f
  {
    if f < 8 {
      RankLength(board, r, f + 1);
      var p := board[8 * r + f];
      assert |SquareBits(p)| == 1 - KingWeight(p) + 4 * PieceWeight(p);
    }
  }

  lemma {:induction false} SquaresLength(board: seq<Cell>, r: int)
    requires |board| == 64 && -1 <= r < 8
    ensures |SquaresFrom(board, r)| == 8 * (r + 1) - KingsFrom(board, r) + 4 * PiecesFrom(board, r)
    decreases r + 1
  {
    if r >= 0 {
      RankLength(board, r, 0);
      SquaresLength(board, r - 1);
    }
  }

  /** Whether square sq lies on rank r at file f or later. */
  predicate OnRankFrom(sq: int, r: int, f: int)
  {
    8 * r + f <= sq < 8 * r + 8
  }

  lemma {:induction false} KingsOnRankCounted(p: SfenPosition, r: nat, f: nat)
    requires WellFormed(p) && r < 8 && f <= 8
    ensures KingsOnRank(p.board, r, f)
      == (if OnRankFrom(p.whiteKingSq, r, f) then 1 else 0) + (if OnRankFrom(p.blackKingSq, r, f) then 1 else 0)
    decreases 8 - f
  {
    if f < 8 {
      KingsOnRankCounted(p, r, f + 1);
    }
  }

  /** With the kings only on their two squares, exactly two squares are skipped. */
  lemma {:induction false} KingsCounted(p: SfenPosition, r: int)
    requires WellFormed(p) && -1 <= r < 8
    ensures KingsFrom(p.board, r) == (if p.whiteKingSq < 8 * (r + 1) then 1 else 0) + (if p.blackKingSq < 8 * (r + 1) then 1 else 0)
    decreases r + 1
  {
    if r >= 0 {
      KingsOnRankCounted(p, r, 0);
      KingsCounted(p, r - 1);
    }
  }

  // ---- The whole position ----------------------------------------------------

  function Header(p: SfenPosition): (b: seq<bool>)
    ensures |b| == 13
  {
    [p.stm == BLACK] + Bits(p.whiteKingSq, 6) + Bits(p.blackKingSq, 6)
  }

  function EpBits(epSq: nat): (b: seq<bool>)
    ensures |b| == (if epSq == NO_SQUARE then 1 else 7)
  {
    if epSq == NO_SQUARE then [false] else [true] + Bits(epSq, 6)
  }

  /**
   * Everything after the board block. The counters are passed to
   * encode_bits as bytes; Bits keeps only the low bits anyway, so the byte
   * truncation needs no separate step.
   */
  function Tail(p: SfenPosition): (b: seq<bool>)
    ensures |b| == 27 + |EpBits(p.epSq)|
  {
    [HasFlag(p.castle, WHITE_KINGSIDE), HasFlag(p.castle, WHITE_QUEENSIDE),
     HasFlag(p.castle, BLACK_KINGSIDE), HasFlag(p.castle, BLACK_QUEENSIDE)]
    + EpBits(p.epSq)
    + CounterBits(p.fifty, p.fullmove)
  }

  /** The bit stream encode_position writes. */
  function EncodeStream(p: SfenPosition): seq<bool>
    requires |p.board| == 64
  {
    Header(p) + SquaresFrom(p.board, 7) + Tail(p)
  }

  /**
   * The stream is 103 bits plus four per piece other than a king, plus six
   * with an en-passant square; with at most 36 such pieces (a legal position
   * has at most 30) it fits the 256-bit block.
   */
  lemma StreamLength(p: SfenPosition)
    requires WellFormed(p)
    ensures |EncodeStream(p)| == 103 + 4 * PiecesFrom(p.board, 7) + (if p.epSq == NO_SQUARE then 0 else 6)
    ensures PiecesFrom(p.board, 7) <= 36 ==> |EncodeStream(p)| <= POSITION_BITS
  {
    SquaresLength(p.board, 7);
    KingsCounted(p, 7);
  }

  // ---- Decoding ----------------------------------------------------------------
  // The reader consumes the stream from the front, as position_from_sfen
  // advances its cursor: each step returns what it read and the bits left.

  /** read_bit: the next bit. */
  function ReadBit(s: seq<bool>): (r: Option<(bool, seq<bool>)>)
    ensures r.Some? <==> |s| >= 1
    ensures r.Some? ==> r.value.0 == s[0] && r.value.1 == s[1..]
  {
    if |s| == 0 then None else Some((s[0], s[1..]))
  }

  /** read_bits: the next n bits, least significant first, as a number. */
  function ReadBits(s: seq<bool>, n: nat): (r: Option<(nat, seq<bool>)>)
    ensures r.Some? <==> |s| >= n
    ensures r.Some? ==> r.value.0 < Pow2(n) && r.value.1 == s[n..]
  {
    if |s| < n then None else Some((ValueOf(s[..n]), s[n..]))
  }

  /** read_piece: the next piece code and its colour bit. */
  function ReadPiece(s: seq<bool>): (r: Option<(Cell, seq<bool>)>)
    ensures r.Some? ==> !IsKing(r.value.0) && |r.value.1| < |s|
  {
    match DecodePiece(s, 0)
    case None => None
    case Some((piece, next)) => Some((piece, s[next..]))
  }

  function EmptyBoard(): (b: seq<Cell>)
    ensures |b| == 64 && forall sq :: 0 <= sq < 64 ==> b[sq] == NO_PIECE
  {
    seq(64, _ => NO_PIECE)
  }

  /** The board once both kings are placed, the white king first. */
  function KingsBoard(wk: Square, bk: Square): (b: seq<Cell>)
    ensures |b| == 64 && b[bk] == BLACK_KING && (wk != bk ==> b[wk] == WHITE_KING)
    ensures forall sq :: 0 <= sq < 64 && sq != wk && sq != bk ==> b[sq] == NO_PIECE
  {
    EmptyBoard()[wk := WHITE_KING][bk := BLACK_KING]
  }

  /**
   * The inner loop of position_from_sfen on rank r from file f: squares that
   * already hold a piece (the kings placed first) are skipped, every other
   * square reads one piece code.
   */
  function DecodeRank(s: seq<bool>, board: seq<Cell>, r: nat, f: nat): (res: Option<(seq<Cell>, seq<bool>)>)
    requires |board| == 64 && r < 8 && f <= 8
    ensures res.Some? ==> |res.value.0| == 64 && |res.value.1| <= |s|
    decreases 8 - f, |s|
  {
    if f == 8 then Some((board, s))
    else
      var sq := 8 * r + f;
      if board[sq] != NO_PIECE then DecodeRank(s, board, r, f + 1)
      else
        match ReadPiece(s)
        case None => None
        case Some((piece, s')) =>
          DecodeRank(s', if piece != NO_PIECE then board[sq := piece] else board, r, f + 1)
  }

  /** The outer loop of position_from_sfen, from rank r down to rank 1. */
  function DecodeSquares(s: seq<bool>, board: seq<Cell>, r: int): (res: Option<(seq<Cell>, seq<bool>)>)
    requires |board| == 64 && -1 <= r < 8
    ensures res.Some? ==> |res.value.0| == 64 && |res.value.1| <= |s|
    decreases r + 1, |s|
  {
    if r < 0 then Some((board, s))
    else
      match DecodeRank(s, board, r, 0)
      case None => None
      case Some((board', s')) => DecodeSquares(s', board', r - 1)
  }

  /** The en-passant flag bit and, when it is set, the six-bit square. */
  function DecodeEp(s: seq<bool>): (r: Option<(nat, seq<bool>)>)
  {
    match ReadBit(s)
    case None => None
    case Some((hasEp, s')) => if hasEp then ReadBits(s', 6) else Some((NO_SQUARE, s'))
  }

  /**
   * The counters: the low six bits of the fifty-move counter, the move
   * number in two bytes and the high bit of the fifty-move counter.
   */
  function DecodeCounters(s: seq<bool>): (r: Option<(nat, nat)>)
  {
    match ReadBits(s, 6)
    case None => None
    case Some((fiftyLow, s1)) =>
      match ReadBits(s1, 8)
      case None => None
      case Some((fullLow, s2)) =>
        match ReadBits(s2, 8)
        case None => None
        case Some((fullHigh, s3)) =>
          match ReadBit(s3)
          case None => None
          case Some((fiftyHigh, _)) => Some((fiftyLow + (if fiftyHigh then 64 else 0), fullLow + 256 * fullHigh))
  }

  /** The fields after the board block: the castling bits (bit k sets the flag 2^k), en passant, counters. */
  function DecodeTail(s: seq<bool>): (r: Option<(nat, nat, nat, nat)>)
  {
    match ReadBits(s, 4)
    case None => None
    case Some((castle, s1)) =>
      match DecodeEp(s1)
      case None => None
      case Some((ep, s2)) =>
        match DecodeCounters(s2)
        case None => None
        case Some((fifty, fullmove)) => Some((castle, ep, fifty, fullmove))
  }

  /** Everything after the header: the board around the two kings, then the tail. */
  function DecodeBody(s: seq<bool>, black: bool, wk: Square, bk: Square): (r: Option<SfenPosition>)
    ensures r.Some? ==> |r.value.board| == 64
  {
    match DecodeSquares(s, KingsBoard(wk, bk), 7)
    case None => None
    case Some((board', s')) =>
      match DecodeTail(s')
      case None => None
      case Some((castle, ep, fifty, fullmove)) =>
        Some(SfenPosition(board', wk, bk, ep, castle, fifty, fullmove, if black then BLACK else WHITE))
  }

  /** position_from_sfen on a bit stream; None when it runs out of bits or meets an unknown code. */
  function DecodeStream(s: seq<bool>): (r: Option<SfenPosition>)
    ensures r.Some? ==> |r.value.board| == 64
  {
    match ReadBit(s)
    case None => None
    case Some((black, s1)) =>
      match ReadBits(s1, 6)
      case None => None
      case Some((wk, s2)) =>
        match ReadBits(s2, 6)
        case None => None
        case Some((bk, s3)) =>
          assert Pow2(6) == 64;
          DecodeBody(s3, black, wk, bk)
  }

  // ---- Round trip --------------------------------------------------------------

  lemma ReadBitRoundTrip(b: bool, rest: seq<bool>)
    ensures ReadBit([b] + rest) == Some((b, rest))
  {
    assert ([b] + rest)[1..] == rest;
  }

  /** Reading n bits where n bits of v were written gives v back. */
  lemma ReadBitsRoundTrip(v: nat, n: nat, rest: seq<bool>)
    requires v < Pow2(n)
    ensures ReadBits(Bits(v, n) + rest, n) == Some((v, rest))
  {
    var t := Bits(v, n) + rest;
    assert t[..n] == Bits(v, n);
    assert t[n..] == rest;
    ValueOfBits(v, n);
  }

  lemma ReadPieceRoundTrip(p: Cell, rest: seq<bool>)
    requires !IsKing(p)
    ensures ReadPiece(PieceBits(p) + rest) == Some((p, rest))
  {
    var b := PieceBits(p);
    var t := b + rest;
    assert t[0..|b|] == b;
    PieceRoundTrip(t, 0, p);
    assert t[|b|..] == rest;
  }

  /**
   * cur is the board after the squares above rank r and those of rank r
   * before file f have been read back: those squares and the kings hold
   * their pieces, the rest is empty.
   */
  predicate Partial(cur: seq<Cell>, board: seq<Cell>, r: int, f: int)
  {
    |cur| == 64 && |board| == 64 &&
    forall sq :: 0 <= sq < 64 ==>
      cur[sq] == (if sq >= 8 * r + 8 || 8 * r <= sq < 8 * r + f || IsKing(board[sq]) then board[sq] else NO_PIECE)
  }

  /** Reading file f of rank r fills in that square and nothing else. */
  lemma PartialStep(cur: seq<Cell>, board: seq<Cell>, r: nat, f: nat)
    requires Partial(cur, board, r, f) && r < 8 && f < 8
    ensures cur[8 * r + f] == (if IsKing(board[8 * r + f]) then board[8 * r + f] else NO_PIECE)
    ensures Partial(cur[8 * r + f := board[8 * r + f]], board, r, f + 1)
  {
  }

  /** A finished rank is the start of the rank below it. */
  lemma PartialNextRank(cur: seq<Cell>, board: seq<Cell>, r: nat)
    requires Partial(cur, board, r, 8)
    ensures Partial(cur, board, r - 1, 0)
  {
  }

  /** The board position_from_sfen starts from: the two kings on an empty board. */
  lemma PartialStart(p: SfenPosition)
    requires WellFormed(p)
    ensures Partial(KingsBoard(p.whiteKingSq, p.blackKingSq), p.board, 7, 0)
  {
  }

  lemma PartialEnds(cur: seq<Cell>, board: seq<Cell>)
    requires Partial(cur, board, -1, 0)
    ensures cur == board
  {
  }

  /** Decoding one square moves past its bits and fills it in. */
  lemma SquareStep(rest: seq<bool>, cur: seq<Cell>, board: seq<Cell>, r: nat, f: nat)
    requires Partial(cur, board, r, f) && r < 8 && f < 8
    ensures Partial(cur[8 * r + f := board[8 * r + f]], board, r, f + 1)
    ensures DecodeRank(SquareBits(board[8 * r + f]) + rest, cur, r, f)
      == DecodeRank(rest, cur[8 * r + f := board[8 * r + f]], r, f + 1)
  {
    var p := board[8 * r + f];
    PartialStep(cur, board, r, f);
    if IsKing(p) {
      assert cur[8 * r + f := p] == cur;
      assert SquareBits(p) + rest == rest;
    } else {
      ReadPieceRoundTrip(p, rest);
      if p == NO_PIECE {
        assert cur[8 * r + f := p] == cur;
      }
    }
  }

  /** Reading rank r back from file f restores its squares and leaves what follows. */
  lemma {:induction false} RankRoundTrip(rest: seq<bool>, cur: seq<Cell>, board: seq<Cell>, r: nat, f: nat)
    requires Partial(cur, board, r, f) && r < 8 && f <= 8
    ensures DecodeRank(RankBits(board, r, f) + rest, cur, r, f).Some?
    ensures Partial(DecodeRank(RankBits(board, r, f) + rest, cur, r, f).value.0, board, r, 8)
    ensures DecodeRank(RankBits(board, r, f) + rest, cur, r, f).value.1 == rest
    decreases 8 - f
  {
    if f == 8 {
      assert RankBits(board, r, f) + rest == rest;
    } else {
      var here := SquareBits(board[8 * r + f]);
      var later := RankBits(board, r, f + 1);
      assert RankBits(board, r, f) + rest == here + (later + rest);
      SquareStep(later + rest, cur, board, r, f);
      RankRoundTrip(rest, cur[8 * r + f := board[8 * r + f]], board, r, f + 1);
    }
  }

  /** The rank read back from the board block of rank r, before the ranks below. */
  function RankRead(rest: seq<bool>, cur: seq<Cell>, board: seq<Cell>, r: nat): (c: seq<Cell>)
    requires Partial(cur, board, r, 0) && r < 8
    ensures Partial(c, board, r - 1, 0)
  {
    RankRoundTrip(SquaresFrom(board, r - 1) + rest, cur, board, r, 0);
    var c := DecodeRank(RankBits(board, r, 0) + (SquaresFrom(board, r - 1) + rest), cur, r, 0).value.0;
    PartialNextRank(c, board, r);
    c
  }

  /** Decoding the board block from rank r reads rank r and goes on with the ranks below. */
  lemma BoardStep(rest: seq<bool>, cur: seq<Cell>, board: seq<Cell>, r: nat)
    requires Partial(cur, board, r, 0) && r < 8
    ensures DecodeSquares(SquaresFrom(board, r) + rest, cur, r)
      == DecodeSquares(SquaresFrom(board, r - 1) + rest, RankRead(rest, cur, board, r), r - 1)
  {
    var below := SquaresFrom(board, r - 1) + rest;
    assert SquaresFrom(board, r) + rest == RankBits(board, r, 0) + below;
    RankRoundTrip(below, cur, board, r, 0);
  }

  /** Reading the board block back from rank r restores every square and leaves what follows. */
  lemma {:induction false} SquaresRoundTrip(rest: seq<bool>, cur: seq<Cell>, board: seq<Cell>, r: int)
    requires Partial(cur, board, r, 0) && -1 <= r < 8
    ensures DecodeSquares(SquaresFrom(board, r) + rest, cur, r) == Some((board, rest))
    decreases r + 1
  {
    if r < 0 {
      PartialEnds(cur, board);
      assert SquaresFrom(board, r) + rest == rest;
    } else {
      BoardStep(rest, cur, board, r);
      SquaresRoundTrip(rest, RankRead(rest, cur, board, r), board, r - 1);
    }
  }

  /** The four castling bits encode_position writes are the flags as a four-bit number. */
  lemma CastleBits(c: nat)
    requires c < 16
    ensures [HasFlag(c, WHITE_KINGSIDE), HasFlag(c, WHITE_QUEENSIDE), HasFlag(c, BLACK_KINGSIDE), HasFlag(c, BLACK_QUEENSIDE)]
      == Bits(c, 4)
  {
    assert Bits(c, 4) == [c % 2 == 1] + Bits(c / 2, 3);
    assert Bits(c / 2, 3) == [(c / 2) % 2 == 1] + Bits(c / 4, 2);
    assert Bits(c / 4, 2) == [(c / 4) % 2 == 1] + Bits(c / 8, 1);
    assert Bits(c / 8, 1) == [(c / 8) % 2 == 1] + Bits(c / 16, 0);
  }

  lemma EpRoundTrip(ep: nat, rest: seq<bool>)
    requires ep == NO_SQUARE || ep < 64
    ensures DecodeEp(EpBits(ep) + rest) == Some((ep, rest))
  {
    if ep == NO_SQUARE {
      ReadBitRoundTrip(false, rest);
    } else {
      assert EpBits(ep) + rest == [true] + (Bits(ep, 6) + rest);
      ReadBitRoundTrip(true, Bits(ep, 6) + rest);
      assert Pow2(6) == 64;
      ReadBitsRoundTrip(ep, 6, rest);
    }
  }

  /** The bits of the counters, first to last. */
  function CounterBits(fifty: nat, fullmove: nat): (b: seq<bool>)
  {
    Bits(fifty, 6) + Bits(fullmove, 8) + Bits(fullmove / 256, 8) + [(fifty / 64) % 2 == 1]
  }

  /** Reading n bits of a wider value gives its n low bits. */
  lemma ReadLowBits(low: nat, high: nat, n: nat, rest: seq<bool>)
    requires low < Pow2(n)
    ensures ReadBits(Bits(low + Pow2(n) * high, n) + rest, n) == Some((low, rest))
  {
    BitsLow(low, high, n);
    ReadBitsRoundTrip(low, n, rest);
  }

  lemma CounterSplit(fifty: nat, fullmove: nat)
    requires fifty < 128 && fullmove < 0x1_0000
    ensures fifty % 64 + (if (fifty / 64) % 2 == 1 then 64 else 0) == fifty
    ensures fullmove % 256 + 256 * (fullmove / 256) == fullmove && fullmove / 256 < 256
  {
  }

  /** The counter bits, grouped the way the reader consumes them. */
  lemma CountersShape(fifty: nat, fullmove: nat, rest: seq<bool>)
    ensures CounterBits(fifty, fullmove) + rest
      == Bits(fifty, 6) + (Bits(fullmove, 8) + (Bits(fullmove / 256, 8) + ([(fifty / 64) % 2 == 1] + rest)))
  {
    var top := [(fifty / 64) % 2 == 1] + rest;
    Assoc3(Bits(fifty, 6) + Bits(fullmove, 8), Bits(fullmove / 256, 8), [(fifty / 64) % 2 == 1], rest);
    Assoc3(Bits(fifty, 6), Bits(fullmove, 8), Bits(fullmove / 256, 8), top);
  }

  /** Both counters survive: the fifty-move counter split 6 + 1, the move number 8 + 8. */
  lemma CountersRoundTrip(fifty: nat, fullmove: nat, rest: seq<bool>)
    requires fifty < 128 && fullmove < 0x1_0000
    ensures DecodeCounters(CounterBits(fifty, fullmove) + rest) == Some((fifty, fullmove))
  {
    var top := [(fifty / 64) % 2 == 1] + rest;
    var high := Bits(fullmove / 256, 8) + top;
    var low := Bits(fullmove, 8) + high;
    CountersShape(fifty, fullmove, rest);
    assert Pow2(6) == 64 && Pow2(8) == 256;
    CounterSplit(fifty, fullmove);
    assert Bits(fifty % 64 + Pow2(6) * (fifty / 64), 6) == Bits(fifty, 6);
    assert Bits(fullmove % 256 + Pow2(8) * (fullmove / 256), 8) == Bits(fullmove, 8);
    ReadLowBits(fifty % 64, fifty / 64, 6, low);
    ReadLowBits(fullmove % 256, fullmove / 256, 8, high);
    ReadBitsRoundTrip(fullmove / 256, 8, top);
    ReadBitRoundTrip((fifty / 64) % 2 == 1, rest);
  }

  /** Reading the tail back gives the castling flags, en-passant square and both counters. */
  lemma TailRoundTrip(p: SfenPosition, rest: seq<bool>)
    requires WellFormed(p)
    ensures DecodeTail(Tail(p) + rest) == Some((p.castle, p.epSq, p.fifty, p.fullmove))
  {
    var counters := CounterBits(p.fifty, p.fullmove) + rest;
    var after := EpBits(p.epSq) + counters;
    CastleBits(p.castle);
    assert Tail(p) + rest == Bits(p.castle, 4) + after;
    assert Pow2(4) == 16;
    ReadBitsRoundTrip(p.castle, 4, after);
    EpRoundTrip(p.epSq, counters);
    CountersRoundTrip(p.fifty, p.fullmove, rest);
  }

  /** The encoded stream, cut where the reader consumes it. */
  lemma StreamShape(p: SfenPosition, rest: seq<bool>)
    requires |p.board| == 64
    ensures EncodeStream(p) + rest
      == [p.stm == BLACK] + (Bits(p.whiteKingSq, 6) + (Bits(p.blackKingSq, 6) + (SquaresFrom(p.board, 7) + (Tail(p) + rest))))
  {
    var h, sq, t := Header(p), SquaresFrom(p.board, 7), Tail(p);
    var x := sq + (t + rest);
    assert EncodeStream(p) + rest == h + sq + t + rest;
    Assoc3(h, sq, t, rest);
    assert h == [p.stm == BLACK] + Bits(p.whiteKingSq, 6) + Bits(p.blackKingSq, 6);
    Assoc3([p.stm == BLACK], Bits(p.whiteKingSq, 6), Bits(p.blackKingSq, 6), x);
  }

  lemma Assoc3(a: seq<bool>, b: seq<bool>, c: seq<bool>, d: seq<bool>)
    ensures a + b + c + d == a + (b + (c + d))
  {
  }

  /** The board block read back around the two kings. */
  lemma BoardRoundTrip(p: SfenPosition, rest: seq<bool>)
    requires WellFormed(p)
    ensures DecodeSquares(SquaresFrom(p.board, 7) + rest, KingsBoard(p.whiteKingSq, p.blackKingSq), 7)
      == Some((p.board, rest))
  {
    PartialStart(p);
    SquaresRoundTrip(rest, KingsBoard(p.whiteKingSq, p.blackKingSq), p.board, 7);
  }

  /** The board and tail read back after the header. */
  lemma BodyRoundTrip(p: SfenPosition, rest: seq<bool>)
    requires WellFormed(p)
    ensures DecodeBody(SquaresFrom(p.board, 7) + (Tail(p) + rest), p.stm == BLACK, p.whiteKingSq, p.blackKingSq) == Some(p)
  {
    var t := Tail(p) + rest;
    BoardRoundTrip(p, t);
    TailRoundTrip(p, rest);
    var stm: Side := if p.stm == BLACK then BLACK else WHITE;
    assert stm == p.stm;
  }

  /**
   * position_from_sfen undoes encode_position: whatever follows the stream,
   * decoding gives back the same side to move, king squares, board, castling
   * flags, en-passant square and both counters.
   */
  lemma StreamRoundTrip(p: SfenPosition, rest: seq<bool>)
    requires WellFormed(p)
    ensures DecodeStream(EncodeStream(p) + rest) == Some(p)
  {
    var s3 := SquaresFrom(p.board, 7) + (Tail(p) + rest);
    var s2 := Bits(p.blackKingSq, 6) + s3;
    var s1 := Bits(p.whiteKingSq, 6) + s2;
    StreamShape(p, rest);
    assert Pow2(6) == 64;
    ReadBitRoundTrip(p.stm == BLACK, s1);
    ReadBitsRoundTrip(p.whiteKingSq, 6, s2);
    ReadBitsRoundTrip(p.blackKingSq, 6, s3);
    BodyRoundTrip(p, rest);
  }
}
