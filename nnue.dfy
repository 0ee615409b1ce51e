/**
 * The NNUE evaluation of src/nnue.c: the scalar layers of the network, the
 * king/piece feature indices of the transformer, the full and incremental
 * updates of the accumulator, and the dirty-piece record nnue_make_move
 * leaves for the incremental update.  The central result is that an
 * incremental update from a valid previous accumulator equals a full
 * update of the new board, under int16 wrap-around.
 */
module Nnue {
  import opened Types
  import opened CInt
  import P = Position

  // ---- Network dimensions --------------------------------------------------

  const HALF_DIMS: int := 128
  /** KING * 64 + 1: the features of one king square, ten non-king pieces on 64 squares and index 0 unused. */
  const KING_STRIDE: int := 641
  /** 64 * (64 * 10 + 1): one block of features per king square. */
  const FEATURE_IN_DIMS: int := 41024
  const FEATURE_OUT_DIMS: int := HALF_DIMS * 2
  const HIDDEN_LAYER_SIZE: int := 32
  const OUTPUT_LAYER_SIZE: int := 1
  const NSIDES: int := 2

  // ---- Layers ---------------------------------------------------------------

  lemma RowFits(row: nat, nrows: nat, ncols: nat)
    requires row < nrows
    ensures row * ncols + ncols <= nrows * ncols
  {
    var rest := nrows - row - 1;
    assert nrows * ncols == rest * ncols + row * ncols + ncols;
  }

  /**
   * The weighted sum neuron `row` of a layer forms over its first n inputs:
   * input[j] * weights[row * ncols + j] summed for j < n, the weights stored
   * row by row.
   */
  function Dot(input: seq<int>, weights: seq<int>, row: nat, nrows: nat, ncols: nat, n: nat): int
    requires n <= ncols <= |input| && row < nrows && nrows * ncols <= |weights|
  {
    RowFits(row, nrows, ncols);
    if n == 0 then 0
    else Dot(input, weights, row, nrows, ncols, n - 1) + input[n - 1] * weights[row * ncols + n - 1]
  }

  /** A layer is linear in its input: the sums for x + y are the sums for x plus those for y. */
  lemma {:induction false} DotLinear(x: seq<int>, y: seq<int>, z: seq<int>, weights: seq<int>, row: nat, nrows: nat, ncols: nat, n: nat)
    requires n <= ncols <= |x| && |x| == |y| == |z| && row < nrows && nrows * ncols <= |weights|
    requires forall j :: 0 <= j < |z| ==> z[j] == x[j] + y[j]
    ensures Dot(z, weights, row, nrows, ncols, n) == Dot(x, weights, row, nrows, ncols, n) + Dot(y, weights, row, nrows, ncols, n)
  {
    if n > 0 {
      DotLinear(x, y, z, weights, row, nrows, ncols, n - 1);
      RowFits(row, nrows, ncols);
      var w := weights[row * ncols + n - 1];
      assert z[n - 1] * w == x[n - 1] * w + y[n - 1] * w;
    }
  }

  /**
   * layer_propagate, the scalar branch: every output neuron starts at its
   * bias and adds each input times its weight.
   */
  method LayerPropagate(input: array<int>, output: array<int>, ninputs: nat, noutputs: nat, biases: array<int>, weights: array<int>)
    requires ninputs <= input.Length && noutputs <= output.Length && noutputs <= biases.Length
    requires noutputs * ninputs <= weights.Length
    requires output != input && output != biases && output != weights
    modifies output
    ensures forall k :: 0 <= k < noutputs ==> output[k] == biases[k] + Dot(input[..], weights[..], k, noutputs, ninputs, ninputs)
    ensures forall k :: noutputs <= k < output.Length ==> output[k] == old(output[k])
  {
    var k := 0;
    while k < noutputs
      invariant 0 <= k <= noutputs
      invariant forall j :: 0 <= j < k ==> output[j] == biases[j] + Dot(input[..], weights[..], j, noutputs, ninputs, ninputs)
      invariant forall j :: noutputs <= j < output.Length ==> output[j] == old(output[j])
    {
      RowFits(k, noutputs, ninputs);
      output[k] := biases[k];
      var l := 0;
      while l < ninputs
        invariant 0 <= l <= ninputs
        invariant output[k] == biases[k] + Dot(input[..], weights[..], k, noutputs, ninputs, l)
        invariant forall j :: 0 <= j < k ==> output[j] == biases[j] + Dot(input[..], weights[..], j, noutputs, ninputs, ninputs)
        invariant forall j :: noutputs <= j < output.Length ==> output[j] == old(output[j])
      {
        output[k] := output[k] + input[l] * weights[k * ninputs + l];
        l := l + 1;
      }
      k := k + 1;
    }
  }

  /**
   * CLAMP(x >> 6, 0, 127): the arithmetic shift of a signed value divides by
   * 64 rounding toward minus infinity, which Dafny's `/` does for a positive
   * divisor.
   */
  function Activation(x: int): (r: int)
    ensures 0 <= r <= 127
    ensures 0 <= x < 128 * 64 ==> r * 64 <= x < r * 64 + 64
    ensures x < 64 ==> r == 0
    ensures x >= 127 * 64 ==> r == 127
  {
    Clamp(x / 64, 0, 127)
  }

  /** The activation never reverses the order of two inputs. */
  lemma ActivationMonotone(x: int, y: int)
    requires x <= y
    ensures Activation(x) <= Activation(y)
  {
  }

  /** layer_activate: each output is the activation of its input. */
  method LayerActivate(input: array<int>, output: array<int>, ndims: nat)
    requires ndims <= input.Length && ndims <= output.Length && input != output
    modifies output
    ensures forall k :: 0 <= k < ndims ==> output[k] == Activation(input[k])
    ensures forall k :: ndims <= k < output.Length ==> output[k] == old(output[k])
  {
    var k := 0;
    while k < ndims
      invariant 0 <= k <= ndims
      invariant forall j :: 0 <= j < k ==> output[j] == Activation(input[j])
      invariant forall j :: ndims <= j < output.Length ==> output[j] == old(output[j])
    {
      output[k] := Clamp(input[k] / 64, 0, 127);
      k := k + 1;
    }
  }

  // ---- Feature indices ------------------------------------------------------

  /** transform_square: white sees the board as it is, black rotated by 180 degrees. */
  function TransformSquare(sq: Square, side: Side): (r: Square)
    ensures side == WHITE ==> r == sq
    ensures side == BLACK ==> FileNr(r) == 7 - FileNr(sq) && RankNr(r) == 7 - RankNr(sq) && r == 63 - sq
  {
    if side == BLACK then SquareOf(7 - FileNr(sq), 7 - RankNr(sq)) else sq
  }

  /** Transforming twice gives the square back. */
  lemma TransformInvolution(sq: Square, side: Side)
    ensures TransformSquare(TransformSquare(sq, side), side) == sq
  {
  }

  /**
   * piece2index[side][piece] as nnue_init fills it for the ten non-king
   * pieces: white in the pieces' own order, black with the colours swapped.
   */
  function PieceIndex(side: Side, piece: int): (r: int)
    requires 0 <= piece < KING
    ensures r == PieceBlock(side, piece) * 64 + 1
  {
    if side == WHITE then piece * 64 + 1
    else if piece % 2 == 0 then (piece + 1) * 64 + 1
    else (piece - 1) * 64 + 1
  }

  /** The block of 64 squares a piece's features occupy in one side's half: the piece itself for white, the piece of the other colour for black. */
  function PieceBlock(side: Side, piece: int): (j: int)
    requires 0 <= piece < KING
    ensures 0 <= j < KING
  {
    if side == WHITE then piece else SwapColor(piece)
  }

  /** A piece of the other colour and the same type. */
  function SwapColor(piece: int): (r: int)
    requires 0 <= piece < KING
    ensures 0 <= r < KING
  {
    if piece % 2 == 0 then piece + 1 else piece - 1
  }

  /** The swapped piece has the same type and the other colour, and swapping back restores it. */
  lemma SwapColorSpec(piece: int)
    requires 0 <= piece < KING
    ensures Value(SwapColor(piece)) == Value(piece) && Color(SwapColor(piece)) != Color(piece)
    ensures SwapColor(SwapColor(piece)) == piece
  {
  }

  /**
   * nnue_init: fills the table's entries for the non-king pieces; the king
   * entries are never read and keep their value.
   */
  method NnueInit(table: array2<int>)
    requires table.Length0 == NSIDES && table.Length1 == NPIECES
    modifies table
    ensures forall q :: 0 <= q < KING ==> table[WHITE, q] == PieceIndex(WHITE, q) && table[BLACK, q] == PieceIndex(BLACK, q)
    ensures forall q :: KING <= q < NPIECES ==> table[WHITE, q] == old(table[WHITE, q]) && table[BLACK, q] == old(table[BLACK, q])
  {
    var piece := 0;
    while piece < KING
      invariant 0 <= piece <= KING && piece % 2 == 0
      invariant forall q :: 0 <= q < piece ==> table[WHITE, q] == PieceIndex(WHITE, q) && table[BLACK, q] == PieceIndex(BLACK, q)
      invariant forall q :: piece <= q < NPIECES ==> table[WHITE, q] == old(table[WHITE, q]) && table[BLACK, q] == old(table[BLACK, q])
    {
      table[WHITE, piece] := piece * 64 + 1;
      table[WHITE, piece + 1] := (piece + 1) * 64 + 1;
      table[BLACK, piece] := (piece + 1) * 64 + 1;
      table[BLACK, piece + 1] := piece * 64 + 1;
      piece := piece + 2;
    }
  }

  /**
   * calculate_feature_index, the king square already transformed: the
   * transformed piece square, the piece's block, the king's block.
   */
  function FeatureIndex(sq: Square, piece: int, kingSq: Square, side: Side): (r: int)
    requires 0 <= piece < KING
    ensures 0 < r < FEATURE_IN_DIMS
    ensures KING_STRIDE * kingSq < r < KING_STRIDE * (kingSq + 1)
  {
    TransformSquare(sq, side) + PieceIndex(side, piece) + KING_STRIDE * kingSq
  }

  /** The three parts of a feature index are recovered from its value. */
  lemma FeatureDigits(t1: int, j1: int, k1: int, t2: int, j2: int, k2: int)
    requires 0 <= t1 < 64 && 0 <= j1 < KING && 0 <= t2 < 64 && 0 <= j2 < KING
    requires t1 + j1 * 64 + KING_STRIDE * k1 == t2 + j2 * 64 + KING_STRIDE * k2
    ensures k1 == k2 && j1 == j2 && t1 == t2
  {
  }

  /** For one side, a feature index names one piece on one square with one king square. */
  lemma FeatureIndexInjective(sq1: Square, piece1: int, k1: Square, sq2: Square, piece2: int, k2: Square, side: Side)
    requires 0 <= piece1 < KING && 0 <= piece2 < KING
    requires FeatureIndex(sq1, piece1, k1, side) == FeatureIndex(sq2, piece2, k2, side)
    ensures sq1 == sq2 && piece1 == piece2 && k1 == k2
  {
    var t1, t2 := TransformSquare(sq1, side), TransformSquare(sq2, side);
    var j1, j2 := PieceBlock(side, piece1), PieceBlock(side, piece2);
    FeatureDigits(t1, j1, k1, t2, j2, k2);
    SwapColorSpec(piece1);
    SwapColorSpec(piece2);
    TransformInvolution(sq1, side);
    TransformInvolution(sq2, side);
  }

  /**
   * Black's half is white's half of the mirror-image position: the square
   * rotated by 180 degrees and the piece's colour swapped.
   */
  lemma FeaturePerspective(sq: Square, piece: int, kingSq: Square)
    requires 0 <= piece < KING
    ensures FeatureIndex(sq, piece, kingSq, BLACK) == FeatureIndex(63 - sq, SwapColor(piece), kingSq, WHITE)
  {
  }

  /** The feature a board cell contributes: none for an empty square or a king. */
  function CellFeature(c: Cell, sq: Square, kingSq: Square, side: Side): (r: seq<int>)
    ensures |r| <= 1 && (r == [] <==> c >= KING) && InDims(r)
  {
    if c < KING then [FeatureIndex(sq, c, kingSq, side)] else []
  }

  /** The cells below KING are the pieces that are not kings: find_active_features and find_changed_features test for these. */
  lemma NonKing(c: Cell)
    ensures c != NO_PIECE && Value(c) != KING <==> c < KING
  {
  }

  /** The features of the pieces on squares below n, in ascending square order. */
  function Active(p: seq<Cell>, kingSq: Square, side: Side, n: nat): seq<int>
    requires |p| == NSQUARES && n <= NSQUARES
    decreases n, |p|
  {
    if n == 0 then [] else Active(p, kingSq, side, n - 1) + CellFeature(p[n - 1], n - 1, kingSq, side)
  }

  lemma ActiveStep(p: seq<Cell>, kingSq: Square, side: Side, n: nat)
    requires |p| == NSQUARES && n < NSQUARES
    ensures Active(p, kingSq, side, n + 1) == Active(p, kingSq, side, n) + CellFeature(p[n], n, kingSq, side)
  {
  }

  /** One square of find_active_features' loop: a feature for a piece that is not a king, nothing otherwise. */
  lemma CollectStep(p: seq<Cell>, kingSq: Square, side: Side, sq: nat)
    requires |p| == NSQUARES && sq < NSQUARES
    ensures p[sq] != NO_PIECE && Value(p[sq]) != KING ==>
      Active(p, kingSq, side, sq + 1) == Active(p, kingSq, side, sq) + [FeatureIndex(sq, p[sq], kingSq, side)]
    ensures !(p[sq] != NO_PIECE && Value(p[sq]) != KING) ==> Active(p, kingSq, side, sq + 1) == Active(p, kingSq, side, sq)
  {
    ActiveStep(p, kingSq, side, sq);
    NonKing(p[sq]);
    assert Active(p, kingSq, side, sq) + [] == Active(p, kingSq, side, sq);
  }

  /** The lowest square from sq up holding `piece`; NO_SQUARE when there is none. */
  function Lowest(p: seq<Cell>, piece: int, sq: nat): (r: int)
    requires |p| == NSQUARES && sq <= NSQUARES
    ensures sq <= r <= NSQUARES
    ensures r < NSQUARES ==> p[r] == piece
    ensures forall j :: sq <= j < r ==> p[j] != piece
    decreases NSQUARES - sq, |p|
  {
    if sq == NSQUARES then NO_SQUARE
    else if p[sq] == piece then sq
    else Lowest(p, piece, sq + 1)
  }

  /** Boards that hold a piece on the same squares give the same lowest square. */
  lemma {:induction false} LowestSame(p: seq<Cell>, q: seq<Cell>, piece: int, sq: nat)
    requires |p| == NSQUARES && |q| == NSQUARES && sq <= NSQUARES
    requires forall j :: sq <= j < NSQUARES ==> (p[j] == piece <==> q[j] == piece)
    ensures Lowest(p, piece, sq) == Lowest(q, piece, sq)
    decreases NSQUARES - sq
  {
    if sq < NSQUARES && p[sq] != piece {
      LowestSame(p, q, piece, sq + 1);
    }
  }

  /** Whether a side has a king on the board. */
  predicate HasKing(p: seq<Cell>, side: Side)
    requires |p| == NSQUARES
  {
    Lowest(p, side + KING, 0) < NSQUARES
  }

  /** transform_square(LSB(king bitboard), side): the king square a half is indexed by. */
  function KingSquare(p: seq<Cell>, side: Side): Square
    requires |p| == NSQUARES && HasKing(p, side)
  {
    TransformSquare(Lowest(p, side + KING, 0), side)
  }

  /**
   * find_active_features: every piece but the two kings, lowest square
   * first, indexed against this side's king.
   */
  method FindActiveFeatures(pieces: array<Cell>, side: Side) returns (features: seq<int>)
    requires pieces.Length == NSQUARES && HasKing(pieces[..], side)
    ensures features == Active(pieces[..], KingSquare(pieces[..], side), side, NSQUARES)
    ensures InDims(features)
  {
    var kingSq := TransformSquare(Lowest(pieces[..], side + KING, 0), side);
    features := CollectFeatures(pieces, side, kingSq);
    ActiveInDims(pieces[..], kingSq, side, NSQUARES);
  }

  /** The loop of find_active_features: one feature per occupied square that holds no king. */
  method CollectFeatures(pieces: array<Cell>, side: Side, kingSq: Square) returns (features: seq<int>)
    requires pieces.Length == NSQUARES
    ensures features == Active(pieces[..], kingSq, side, NSQUARES)
  {
    ghost var p := pieces[..];
    features := [];
    var sq := 0;
    while sq < NSQUARES
      invariant 0 <= sq <= NSQUARES
      invariant features == Active(p, kingSq, side, sq)
    {
      var piece := pieces[sq];
      CollectStep(p, kingSq, side, sq);
      if piece != NO_PIECE && Value(piece) != KING {
        features := features + [FeatureIndex(sq, piece, kingSq, side)];
      }
      sq := sq + 1;
    }
  }

  // ---- Dirty pieces -----------------------------------------------------------

  /** An entry of struct dirty_pieces: a piece that left `from` for `to`, NO_SQUARE meaning "nowhere". */
  datatype DirtyPiece = DirtyPiece(piece: int, from: int, to: int)

  /** Entries find_changed_features can index: real pieces, squares or NO_SQUARE. */
  predicate DirtyShaped(d: seq<DirtyPiece>)
  {
    forall e :: e in d ==> 0 <= e.piece < NPIECES && 0 <= e.from <= NO_SQUARE && 0 <= e.to <= NO_SQUARE
  }

  /**
   * The entries nnue_make_move records for a move that does not castle: the
   * mover, then the piece it captures, then the piece it promotes to.
   */
  function NonCastleDirty(p: seq<Cell>, stm: Side, m: nat): seq<DirtyPiece>
    requires |p| == NSQUARES
  {
    var from, to := From(m), To(m);
    if IsEnPassant(m) then
      [DirtyPiece(p[from], from, to), DirtyPiece(PAWN + FlipColor(stm), P.BehindSquare(stm, to), NO_SQUARE)]
    else
      var captured := if IsCapture(m) then [DirtyPiece(p[to], to, NO_SQUARE)] else [];
      var promoted := if IsPromotion(m) then [DirtyPiece(Promotion(m), NO_SQUARE, to)] else [];
      [DirtyPiece(p[from], from, if IsPromotion(m) then NO_SQUARE else to)] + captured + promoted
  }

  /**
   * nnue_make_move's record as written: castling moves the rook from one
   * square beyond TO(move) to the square before it (kingside), or from two
   * squares before it to the square after it (queenside).
   */
  function DirtyPiecesAsWritten(p: seq<Cell>, stm: Side, m: nat): (r: seq<DirtyPiece>)
    requires |p| == NSQUARES
    ensures 1 <= |r| <= 3 && r[0].from == From(m)
    ensures IsKingsideCastle(m) || IsQueensideCastle(m) ==>
      |r| == 2 && r[0] == DirtyPiece(KING + stm, From(m), To(m)) && r[1].piece == ROOK + stm && r[1].from != To(m)
  {
    var from, to := From(m), To(m);
    if IsKingsideCastle(m) then [DirtyPiece(KING + stm, from, to), DirtyPiece(ROOK + stm, to + 1, to - 1)]
    else if IsQueensideCastle(m) then [DirtyPiece(KING + stm, from, to), DirtyPiece(ROOK + stm, to - 2, to + 1)]
    else NonCastleDirty(p, stm, m)
  }

  /**
   * The record with the castling entries corrected: a castling move is
   * stored as the king taking its own rook, so the rook leaves TO(move) and
   * lands where pos_make_move puts it, and the king lands on TO_CASTLE(move).
   */
  function DirtyPieces(p: seq<Cell>, stm: Side, m: nat): (r: seq<DirtyPiece>)
    requires |p| == NSQUARES
    ensures 1 <= |r| <= 3
    ensures P.IsCastle(m) || IsEnPassant(m) ==> |r| == 2
    ensures !P.IsCastle(m) && !IsEnPassant(m) ==>
      |r| == 1 + (if IsCapture(m) then 1 else 0) + (if IsPromotion(m) then 1 else 0)
    ensures IsNormal(m) ==> r == [DirtyPiece(p[From(m)], From(m), To(m))]
    ensures r[0].from == From(m) && r[0].piece == (if P.IsCastle(m) then KING + stm else p[From(m)])
  {
    if P.IsCastle(m) then
      [DirtyPiece(KING + stm, From(m), ToCastle(m)), DirtyPiece(ROOK + stm, To(m), P.RookLanding(m, stm))]
    else NonCastleDirty(p, stm, m)
  }

  /** The two records differ only on castling moves. */
  lemma DirtyAgreesOffCastling(p: seq<Cell>, stm: Side, m: nat)
    requires |p| == NSQUARES && !P.IsCastle(m)
    ensures DirtyPiecesAsWritten(p, stm, m) == DirtyPieces(p, stm, m)
  {
  }

  /** The standard white castling moves, stored as the king taking its rook. */
  const WHITE_OO: nat := E1 + H1 * 64 + KINGSIDE_CASTLE * 65536
  const WHITE_OOO: nat := E1 + A1 * 64 + QUEENSIDE_CASTLE * 65536

  /**
   * As written, white's kingside castling records its rook moving from A2
   * (square 8) to G1 where the rook goes from H1 to F1, and queenside
   * castling records a rook leaving square -2, which is off the board.
   */
  lemma CastleAsWrittenMisplacesRook(p: seq<Cell>)
    requires |p| == NSQUARES
    ensures DirtyPiecesAsWritten(p, WHITE, WHITE_OO)[1] == DirtyPiece(WHITE_ROOK, 8, G1)
    ensures DirtyPieces(p, WHITE, WHITE_OO)[1] == DirtyPiece(WHITE_ROOK, H1, F1)
    ensures DirtyPiecesAsWritten(p, WHITE, WHITE_OOO)[1].from == -2
    ensures DirtyPieces(p, WHITE, WHITE_OOO)[1] == DirtyPiece(WHITE_ROOK, A1, D1)
  {
    assert IsKingsideCastle(WHITE_OO) && !IsQueensideCastle(WHITE_OO) && To(WHITE_OO) == H1;
    assert IsQueensideCastle(WHITE_OOO) && !IsKingsideCastle(WHITE_OOO) && To(WHITE_OOO) == A1;
  }

  /** A move that fits its board leaves a record find_changed_features can index. */
  lemma DirtyPiecesShaped(p: seq<Cell>, stm: Side, m: nat)
    requires |p| == NSQUARES && P.BoardFits(p, stm, m)
    ensures DirtyShaped(DirtyPieces(p, stm, m))
  {
    P.FlagsOfKind(m);
  }

  // ---- Changed features -------------------------------------------------------

  /** The features find_changed_features lists as removed: each non-king dirty piece on the square it left. */
  function Removed(d: seq<DirtyPiece>, kingSq: Square, side: Side): seq<int>
    requires DirtyShaped(d)
  {
    if d == [] then []
    else
      var e := d[|d| - 1];
      Removed(d[..|d| - 1], kingSq, side) + (if e.from != NO_SQUARE then CellFeature(e.piece, e.from, kingSq, side) else [])
  }

  /** The features find_changed_features lists as added: each non-king dirty piece on the square it reached. */
  function Added(d: seq<DirtyPiece>, kingSq: Square, side: Side): seq<int>
    requires DirtyShaped(d)
  {
    if d == [] then []
    else
      var e := d[|d| - 1];
      Added(d[..|d| - 1], kingSq, side) + (if e.to != NO_SQUARE then CellFeature(e.piece, e.to, kingSq, side) else [])
  }

  /** find_changed_features: the kings skipped, each other dirty piece removed where it was and added where it went. */
  method FindChangedFeatures(d: seq<DirtyPiece>, kingSq: Square, side: Side) returns (added: seq<int>, removed: seq<int>)
    requires DirtyShaped(d)
    ensures added == Added(d, kingSq, side) && removed == Removed(d, kingSq, side)
  {
    added, removed := [], [];
    var k := 0;
    while k < |d|
      invariant 0 <= k <= |d|
      invariant added == Added(d[..k], kingSq, side) && removed == Removed(d[..k], kingSq, side)
    {
      assert d[..k + 1][..k] == d[..k];
      var e := d[k];
      NonKing(e.piece);
      if Value(e.piece) != KING {
        if e.from != NO_SQUARE {
          removed := removed + [FeatureIndex(e.from, e.piece, kingSq, side)];
        }
        if e.to != NO_SQUARE {
          added := added + [FeatureIndex(e.to, e.piece, kingSq, side)];
        }
      }
      k := k + 1;
    }
    assert d[..|d|] == d;
  }

  // ---- Weight sums -----------------------------------------------------------

  /** Feature indices the weight table has rows for. */
  predicate InDims(fs: seq<int>)
  {
    forall i :: 0 <= i < |fs| ==> 0 <= fs[i] < FEATURE_IN_DIMS
  }

  /** feature_weights: HALF_DIMS weights for each feature, one row after another. */
  predicate WeightsShaped(w: seq<int>)
  {
    |w| == HALF_DIMS * FEATURE_IN_DIMS
  }

  function Weight(w: seq<int>, f: int, l: int): int
    requires WeightsShaped(w) && 0 <= f < FEATURE_IN_DIMS && 0 <= l < HALF_DIMS
  {
    w[HALF_DIMS * f + l]
  }

  /** The weights in dimension l of a list of features, summed. */
  function WSum(w: seq<int>, fs: seq<int>, l: int): int
    requires WeightsShaped(w) && InDims(fs) && 0 <= l < HALF_DIMS
  {
    if fs == [] then 0 else WSum(w, fs[..|fs| - 1], l) + Weight(w, fs[|fs| - 1], l)
  }

  lemma WSumSnoc(w: seq<int>, fs: seq<int>, g: seq<int>, l: int)
    requires WeightsShaped(w) && InDims(fs) && InDims(g) && |g| <= 1 && 0 <= l < HALF_DIMS
    ensures InDims(fs + g)
    ensures WSum(w, fs + g, l) == WSum(w, fs, l) + WSum(w, g, l)
  {
    if g != [] {
      assert (fs + g)[..|fs|] == fs && (fs + g)[|fs|] == g[0];
      assert g[..0] == [];
      assert WSum(w, g, l) == Weight(w, g[0], l);
    } else {
      assert fs + g == fs;
    }
  }

  /** The weights of one cell's feature in dimension l. */
  function CellSum(w: seq<int>, c: Cell, sq: Square, kingSq: Square, side: Side, l: int): int
    requires WeightsShaped(w) && 0 <= l < HALF_DIMS
  {
    if c < KING then Weight(w, FeatureIndex(sq, c, kingSq, side), l) else 0
  }

  /** The weights in dimension l of the features of a board's squares below n. */
  function BoardSum(w: seq<int>, p: seq<Cell>, kingSq: Square, side: Side, n: nat, l: int): int
    requires WeightsShaped(w) && |p| == NSQUARES && n <= NSQUARES && 0 <= l < HALF_DIMS
    decreases n, |p|
  {
    if n == 0 then 0 else BoardSum(w, p, kingSq, side, n - 1, l) + CellSum(w, p[n - 1], n - 1, kingSq, side, l)
  }

  lemma {:induction false} ActiveInDims(p: seq<Cell>, kingSq: Square, side: Side, n: nat)
    requires |p| == NSQUARES && n <= NSQUARES
    ensures InDims(Active(p, kingSq, side, n))
  {
    if n > 0 {
      ActiveInDims(p, kingSq, side, n - 1);
      ActiveStep(p, kingSq, side, n - 1);
      InDimsConcat(Active(p, kingSq, side, n - 1), CellFeature(p[n - 1], n - 1, kingSq, side));
    }
  }

  lemma InDimsConcat(a: seq<int>, b: seq<int>)
    requires InDims(a) && InDims(b)
    ensures InDims(a + b)
  {
    forall i | 0 <= i < |a + b|
      ensures 0 <= (a + b)[i] < FEATURE_IN_DIMS
    {
      if i >= |a| {
        assert (a + b)[i] == b[i - |a|];
      }
    }
  }

  /** The weights of a board's feature list are its squares' weights. */
  lemma {:induction false} ActiveSum(w: seq<int>, p: seq<Cell>, kingSq: Square, side: Side, n: nat, l: int)
    requires WeightsShaped(w) && |p| == NSQUARES && n <= NSQUARES && 0 <= l < HALF_DIMS
    ensures InDims(Active(p, kingSq, side, n))
    ensures WSum(w, Active(p, kingSq, side, n), l) == BoardSum(w, p, kingSq, side, n, l)
  {
    ActiveInDims(p, kingSq, side, n);
    if n > 0 {
      ActiveSum(w, p, kingSq, side, n - 1, l);
      ActiveStep(p, kingSq, side, n - 1);
      WSumSnoc(w, Active(p, kingSq, side, n - 1), CellFeature(p[n - 1], n - 1, kingSq, side), l);
    }
  }

  // ---- The record describes the board change ------------------------------

  /** Below the square that changed, the sums agree. */
  lemma {:induction false} SetCellBelow(w: seq<int>, p: seq<Cell>, s: Square, c: Cell, kingSq: Square, side: Side, n: nat, l: int)
    requires WeightsShaped(w) && |p| == NSQUARES && n <= s && 0 <= l < HALF_DIMS
    ensures BoardSum(w, p[s := c], kingSq, side, n, l) == BoardSum(w, p, kingSq, side, n, l)
  {
    if n > 0 {
      var q := p[s := c];
      SetCellBelow(w, p, s, c, kingSq, side, n - 1, l);
      CellSumSame(w, q[n - 1], p[n - 1], n - 1, kingSq, side, l);
    }
  }

  lemma CellSumSame(w: seq<int>, c: Cell, d: Cell, sq: Square, kingSq: Square, side: Side, l: int)
    requires WeightsShaped(w) && 0 <= l < HALF_DIMS && c == d
    ensures CellSum(w, c, sq, kingSq, side, l) == CellSum(w, d, sq, kingSq, side, l)
  {
  }

  lemma {:induction false} SetCellAbove(w: seq<int>, p: seq<Cell>, s: Square, c: Cell, kingSq: Square, side: Side, n: nat, l: int)
    requires WeightsShaped(w) && |p| == NSQUARES && s < n <= NSQUARES && 0 <= l < HALF_DIMS
    ensures BoardSum(w, p[s := c], kingSq, side, n, l) + CellSum(w, p[s], s, kingSq, side, l)
         == BoardSum(w, p, kingSq, side, n, l) + CellSum(w, c, s, kingSq, side, l)
  {
    if n - 1 == s {
      SetCellBelow(w, p, s, c, kingSq, side, s, l);
    } else {
      var q := p[s := c];
      SetCellAbove(w, p, s, c, kingSq, side, n - 1, l);
      CellSumSame(w, q[n - 1], p[n - 1], n - 1, kingSq, side, l);
    }
  }

  /** Putting c on square s trades the weights of what stood there for those of c. */
  lemma SetCell(w: seq<int>, p: seq<Cell>, s: Square, c: Cell, kingSq: Square, side: Side, l: int)
    requires WeightsShaped(w) && |p| == NSQUARES && 0 <= l < HALF_DIMS
    ensures BoardSum(w, p[s := c], kingSq, side, NSQUARES, l) + CellSum(w, p[s], s, kingSq, side, l)
         == BoardSum(w, p, kingSq, side, NSQUARES, l) + CellSum(w, c, s, kingSq, side, l)
  {
    SetCellAbove(w, p, s, c, kingSq, side, NSQUARES, l);
  }

  /** The contribution of one dirty entry to the removed list. */
  function LeftSum(w: seq<int>, e: DirtyPiece, kingSq: Square, side: Side, l: int): int
    requires WeightsShaped(w) && DirtyShaped([e]) && 0 <= l < HALF_DIMS
  {
    if e.from != NO_SQUARE then CellSum(w, e.piece, e.from, kingSq, side, l) else 0
  }

  /** The contribution of one dirty entry to the added list. */
  function ReachedSum(w: seq<int>, e: DirtyPiece, kingSq: Square, side: Side, l: int): int
    requires WeightsShaped(w) && DirtyShaped([e]) && 0 <= l < HALF_DIMS
  {
    if e.to != NO_SQUARE then CellSum(w, e.piece, e.to, kingSq, side, l) else 0
  }

  lemma CellSumOfFeature(w: seq<int>, c: Cell, sq: int, kingSq: Square, side: Side, l: int)
    requires WeightsShaped(w) && 0 <= sq < NSQUARES && 0 <= l < HALF_DIMS
    ensures WSum(w, CellFeature(c, sq, kingSq, side), l) == CellSum(w, c, sq, kingSq, side, l)
  {
    if c < KING {
      assert CellFeature(c, sq, kingSq, side)[..0] == [];
    }
  }

  lemma ChangedSnoc(w: seq<int>, d: seq<DirtyPiece>, e: DirtyPiece, kingSq: Square, side: Side, l: int)
    requires WeightsShaped(w) && DirtyShaped(d + [e]) && 0 <= l < HALF_DIMS
    ensures DirtyShaped(d) && DirtyShaped([e])
    ensures InDims(Removed(d, kingSq, side)) && InDims(Added(d, kingSq, side))
    ensures InDims(Removed(d + [e], kingSq, side)) && InDims(Added(d + [e], kingSq, side))
    ensures WSum(w, Removed(d + [e], kingSq, side), l) == WSum(w, Removed(d, kingSq, side), l) + LeftSum(w, e, kingSq, side, l)
    ensures WSum(w, Added(d + [e], kingSq, side), l) == WSum(w, Added(d, kingSq, side), l) + ReachedSum(w, e, kingSq, side, l)
  {
    assert (d + [e])[..|d|] == d;
    assert forall x :: x in d ==> x in d + [e];
    ChangedInDims(d, kingSq, side);
    var r := if e.from != NO_SQUARE then CellFeature(e.piece, e.from, kingSq, side) else [];
    var a := if e.to != NO_SQUARE then CellFeature(e.piece, e.to, kingSq, side) else [];
    WSumSnoc(w, Removed(d, kingSq, side), r, l);
    WSumSnoc(w, Added(d, kingSq, side), a, l);
    if e.from != NO_SQUARE {
      CellSumOfFeature(w, e.piece, e.from, kingSq, side, l);
    }
    if e.to != NO_SQUARE {
      CellSumOfFeature(w, e.piece, e.to, kingSq, side, l);
    }
  }

  lemma {:induction false} ChangedInDims(d: seq<DirtyPiece>, kingSq: Square, side: Side)
    requires DirtyShaped(d)
    ensures InDims(Removed(d, kingSq, side)) && InDims(Added(d, kingSq, side))
  {
    if d != [] {
      assert forall x :: x in d[..|d| - 1] ==> x in d;
      ChangedInDims(d[..|d| - 1], kingSq, side);
    }
  }

  /** What the lists of a record weigh against what the board change weighs. */
  predicate Describes(w: seq<int>, p: seq<Cell>, q: seq<Cell>, d: seq<DirtyPiece>, kingSq: Square, side: Side, l: int)
    requires WeightsShaped(w) && |p| == NSQUARES && |q| == NSQUARES && DirtyShaped(d) && 0 <= l < HALF_DIMS
  {
    ChangedInDims(d, kingSq, side);
    BoardSum(w, q, kingSq, side, NSQUARES, l) + WSum(w, Removed(d, kingSq, side), l)
      == BoardSum(w, p, kingSq, side, NSQUARES, l) + WSum(w, Added(d, kingSq, side), l)
  }

  /** Castling on the board: king and rook leave their squares, then land; the king's cells weigh nothing. */
  lemma CastleDescribes(w: seq<int>, p: seq<Cell>, from: Square, rookFrom: Square, kingTo: Square, rookTo: Square, king: Cell, rook: Cell, kingSq: Square, side: Side, l: int)
    requires WeightsShaped(w) && |p| == NSQUARES && 0 <= l < HALF_DIMS
    requires p[from] == king && KING <= king < NPIECES && p[rookFrom] == rook && rook < NPIECES
    requires rookFrom != from && kingTo != rookTo
    requires p[kingTo] == NO_PIECE || kingTo == from || kingTo == rookFrom
    requires p[rookTo] == NO_PIECE || rookTo == from || rookTo == rookFrom
    ensures DirtyShaped([DirtyPiece(king, from, kingTo), DirtyPiece(rook, rookFrom, rookTo)])
    ensures Describes(w, p, p[from := NO_PIECE][rookFrom := NO_PIECE][kingTo := king][rookTo := rook],
                      [DirtyPiece(king, from, kingTo), DirtyPiece(rook, rookFrom, rookTo)], kingSq, side, l)
  {
    CastleBoard(w, p, from, rookFrom, kingTo, rookTo, king, rook, kingSq, side, l);
    ListsTwo(w, DirtyPiece(king, from, kingTo), DirtyPiece(rook, rookFrom, rookTo), kingSq, side, l);
  }

  /** The board side of castling: only the rook's move weighs anything. */
  lemma CastleBoard(w: seq<int>, p: seq<Cell>, from: Square, rookFrom: Square, kingTo: Square, rookTo: Square, king: Cell, rook: Cell, kingSq: Square, side: Side, l: int)
    requires WeightsShaped(w) && |p| == NSQUARES && 0 <= l < HALF_DIMS
    requires p[from] == king && KING <= king < NPIECES && p[rookFrom] == rook && rook < NPIECES
    requires rookFrom != from && kingTo != rookTo
    requires p[kingTo] == NO_PIECE || kingTo == from || kingTo == rookFrom
    requires p[rookTo] == NO_PIECE || rookTo == from || rookTo == rookFrom
    ensures BoardSum(w, p[from := NO_PIECE][rookFrom := NO_PIECE][kingTo := king][rookTo := rook], kingSq, side, NSQUARES, l)
              + CellSum(w, rook, rookFrom, kingSq, side, l)
         == BoardSum(w, p, kingSq, side, NSQUARES, l) + CellSum(w, rook, rookTo, kingSq, side, l)
  {
    var p1 := p[from := NO_PIECE];
    var p3 := p1[rookFrom := NO_PIECE];
    var p4 := p3[kingTo := king];
    CastleLifts(w, p, from, rookFrom, king, rook, kingSq, side, l);
    assert p3[kingTo] == NO_PIECE;
    SetCell(w, p3, kingTo, king, kingSq, side, l);
    assert p4[rookTo] == NO_PIECE;
    SetCell(w, p4, rookTo, rook, kingSq, side, l);
  }

  /** Lifting the king and the rook: the board loses the rook's weights. */
  lemma CastleLifts(w: seq<int>, p: seq<Cell>, from: Square, rookFrom: Square, king: Cell, rook: Cell, kingSq: Square, side: Side, l: int)
    requires WeightsShaped(w) && |p| == NSQUARES && 0 <= l < HALF_DIMS
    requires p[from] == king && KING <= king < NPIECES && p[rookFrom] == rook && rookFrom != from
    ensures BoardSum(w, p[from := NO_PIECE][rookFrom := NO_PIECE], kingSq, side, NSQUARES, l) + CellSum(w, rook, rookFrom, kingSq, side, l)
         == BoardSum(w, p, kingSq, side, NSQUARES, l)
  {
    var p1 := p[from := NO_PIECE];
    SetCell(w, p, from, NO_PIECE, kingSq, side, l);
    assert p1[rookFrom] == rook;
    SetCell(w, p1, rookFrom, NO_PIECE, kingSq, side, l);
  }

  /** Castling: the king's features do not count; the rook's moves from its square to its landing square. */
  lemma CastleFeatures(w: seq<int>, p: seq<Cell>, stm: Side, m: nat, kingSq: Square, side: Side, l: int)
    requires WeightsShaped(w) && |p| == NSQUARES && P.BoardFits(p, stm, m) && P.IsCastle(m) && 0 <= l < HALF_DIMS
    ensures DirtyShaped(DirtyPieces(p, stm, m))
    ensures Describes(w, p, P.MovedPieces(p, stm, m), DirtyPieces(p, stm, m), kingSq, side, l)
  {
    P.FlagsOfKind(m);
    var from, kingTo, rookFrom, rookTo := From(m), ToCastle(m), To(m), P.RookLanding(m, stm);
    assert kingTo != rookTo by {
      assert FileNr(kingTo) != FileNr(rookTo);
    }
    assert P.MovedPieces(p, stm, m) == p[from := NO_PIECE][rookFrom := NO_PIECE][kingTo := KING + stm][rookTo := ROOK + stm];
    CastleDescribes(w, p, from, rookFrom, kingTo, rookTo, KING + stm, ROOK + stm, kingSq, side, l);
  }

  /** En passant on the board: the mover leaves, the pawn behind the target goes, the mover lands. */
  lemma EnPassantDescribes(w: seq<int>, p: seq<Cell>, from: Square, v: Square, to: Square, kingSq: Square, side: Side, l: int)
    requires WeightsShaped(w) && |p| == NSQUARES && 0 <= l < HALF_DIMS
    requires from != to && v != from && p[to] == NO_PIECE && p[v] < NPIECES && p[from] < NPIECES
    ensures DirtyShaped([DirtyPiece(p[from], from, to), DirtyPiece(p[v], v, NO_SQUARE)])
    ensures Describes(w, p, p[from := NO_PIECE][v := NO_PIECE][to := p[from]],
                      [DirtyPiece(p[from], from, to), DirtyPiece(p[v], v, NO_SQUARE)], kingSq, side, l)
  {
    EnPassantBoard(w, p, from, v, to, kingSq, side, l);
    ListsTwo(w, DirtyPiece(p[from], from, to), DirtyPiece(p[v], v, NO_SQUARE), kingSq, side, l);
  }

  /** The board side of en passant: the mover's and the victim's weights go, the mover's on the target come. */
  lemma EnPassantBoard(w: seq<int>, p: seq<Cell>, from: Square, v: Square, to: Square, kingSq: Square, side: Side, l: int)
    requires WeightsShaped(w) && |p| == NSQUARES && 0 <= l < HALF_DIMS
    requires from != to && v != from && p[to] == NO_PIECE
    ensures BoardSum(w, p[from := NO_PIECE][v := NO_PIECE][to := p[from]], kingSq, side, NSQUARES, l)
              + CellSum(w, p[from], from, kingSq, side, l) + CellSum(w, p[v], v, kingSq, side, l)
         == BoardSum(w, p, kingSq, side, NSQUARES, l) + CellSum(w, p[from], to, kingSq, side, l)
  {
    var p1 := p[from := NO_PIECE];
    var p2 := p1[v := NO_PIECE];
    SetCell(w, p, from, NO_PIECE, kingSq, side, l);
    assert p1[v] == p[v];
    SetCell(w, p1, v, NO_PIECE, kingSq, side, l);
    assert p2[to] == NO_PIECE;
    SetCell(w, p2, to, p[from], kingSq, side, l);
  }

  /** En passant: the mover moves and the pawn behind its target disappears. */
  lemma EnPassantFeatures(w: seq<int>, p: seq<Cell>, stm: Side, m: nat, kingSq: Square, side: Side, l: int)
    requires WeightsShaped(w) && |p| == NSQUARES && P.BoardFits(p, stm, m) && IsEnPassant(m) && 0 <= l < HALF_DIMS
    ensures DirtyShaped(DirtyPieces(p, stm, m))
    ensures Describes(w, p, P.MovedPieces(p, stm, m), DirtyPieces(p, stm, m), kingSq, side, l)
  {
    P.FlagsOfKind(m);
    P.FitsShape(p, stm, m);
    EnPassantFitsFacts(p, stm, m);
    EnPassantOnSquares(w, p, stm, m, kingSq, side, l);
  }

  /** EnPassantFeatures from the facts about the squares alone. */
  lemma EnPassantOnSquares(w: seq<int>, p: seq<Cell>, stm: Side, m: nat, kingSq: Square, side: Side, l: int)
    requires WeightsShaped(w) && |p| == NSQUARES && 0 <= l < HALF_DIMS && P.MoveShape(p, stm, m)
    requires IsEnPassant(m) && !IsCapture(m) && !P.IsCastle(m) && !IsPromotion(m)
    requires 0 <= P.BehindSquare(stm, ToCastle(m)) < NSQUARES
    requires From(m) != ToCastle(m) && P.BehindSquare(stm, ToCastle(m)) != From(m)
    requires p[ToCastle(m)] == NO_PIECE && p[From(m)] < NPIECES
    requires p[P.BehindSquare(stm, ToCastle(m))] == PAWN + FlipColor(stm)
    ensures DirtyShaped(DirtyPieces(p, stm, m))
    ensures Describes(w, p, P.MovedPieces(p, stm, m), DirtyPieces(p, stm, m), kingSq, side, l)
  {
    P.EnPassantMoved(p, stm, m);
    EnPassantRecord(p, stm, m);
    EnPassantDescribes(w, p, From(m), P.BehindSquare(stm, ToCastle(m)), ToCastle(m), kingSq, side, l);
  }

  /** What BoardFits says of an en-passant capture's squares. */
  lemma EnPassantFitsFacts(p: seq<Cell>, stm: Side, m: nat)
    requires |p| == NSQUARES && P.BoardFits(p, stm, m) && IsEnPassant(m) && !IsCapture(m)
    ensures 0 <= P.BehindSquare(stm, ToCastle(m)) < NSQUARES
    ensures From(m) != ToCastle(m) && P.BehindSquare(stm, ToCastle(m)) != From(m)
    ensures p[ToCastle(m)] == NO_PIECE && p[From(m)] < NPIECES
    ensures p[P.BehindSquare(stm, ToCastle(m))] == PAWN + FlipColor(stm)
  {
  }

  /** The record of an en-passant capture: the mover, then the enemy pawn behind the target. */
  lemma EnPassantRecord(p: seq<Cell>, stm: Side, m: nat)
    requires |p| == NSQUARES && IsEnPassant(m) && !P.IsCastle(m)
    requires 0 <= P.BehindSquare(stm, ToCastle(m)) < NSQUARES && p[P.BehindSquare(stm, ToCastle(m))] == PAWN + FlipColor(stm)
    ensures DirtyPieces(p, stm, m) == [DirtyPiece(p[From(m)], From(m), ToCastle(m)),
                                       DirtyPiece(p[P.BehindSquare(stm, ToCastle(m))], P.BehindSquare(stm, ToCastle(m)), NO_SQUARE)]
  {
  }

  /** The dirty record of a move that is neither castling nor en passant, by its capture and promotion flags. */
  function PlainDirty(p: seq<Cell>, from: Square, to: Square, capture: bool, promotion: bool, promoted: Cell): seq<DirtyPiece>
    requires |p| == NSQUARES
  {
    [DirtyPiece(p[from], from, if promotion then NO_SQUARE else to)]
      + (if capture then [DirtyPiece(p[to], to, NO_SQUARE)] else [])
      + (if promotion then [DirtyPiece(promoted, NO_SQUARE, to)] else [])
  }

  /** A move that is not castling or en passant on the board: the mover leaves, and the mover or its promotion lands on whatever stood there. */
  lemma PlainDescribes(w: seq<int>, p: seq<Cell>, from: Square, to: Square, capture: bool, promotion: bool, promoted: Cell, kingSq: Square, side: Side, l: int)
    requires WeightsShaped(w) && |p| == NSQUARES && 0 <= l < HALF_DIMS && from != to
    requires p[from] < NPIECES && promoted < NPIECES && (if capture then p[to] < NPIECES else p[to] == NO_PIECE)
    ensures DirtyShaped(PlainDirty(p, from, to, capture, promotion, promoted))
    ensures Describes(w, p, p[from := NO_PIECE][to := if promotion then promoted else p[from]],
                      PlainDirty(p, from, to, capture, promotion, promoted), kingSq, side, l)
  {
    var landing := if promotion then promoted else p[from];
    PlainBoard(w, p, from, to, landing, kingSq, side, l);
    PlainLists(w, p, from, to, capture, promotion, promoted, kingSq, side, l);
  }

  /** The board side of a plain move: what stood on both squares goes, the landing piece comes. */
  lemma PlainBoard(w: seq<int>, p: seq<Cell>, from: Square, to: Square, landing: Cell, kingSq: Square, side: Side, l: int)
    requires WeightsShaped(w) && |p| == NSQUARES && 0 <= l < HALF_DIMS && from != to
    ensures BoardSum(w, p[from := NO_PIECE][to := landing], kingSq, side, NSQUARES, l)
              + CellSum(w, p[from], from, kingSq, side, l) + CellSum(w, p[to], to, kingSq, side, l)
         == BoardSum(w, p, kingSq, side, NSQUARES, l) + CellSum(w, landing, to, kingSq, side, l)
  {
    var p1 := p[from := NO_PIECE];
    SetCell(w, p, from, NO_PIECE, kingSq, side, l);
    SetCell(w, p1, to, landing, kingSq, side, l);
    assert p1[to] == p[to];
  }

  /** The record side of a plain move: the mover and any captured piece leave, the mover or its promotion arrives. */
  lemma PlainLists(w: seq<int>, p: seq<Cell>, from: Square, to: Square, capture: bool, promotion: bool, promoted: Cell, kingSq: Square, side: Side, l: int)
    requires WeightsShaped(w) && |p| == NSQUARES && 0 <= l < HALF_DIMS
    requires p[from] < NPIECES && promoted < NPIECES && (if capture then p[to] < NPIECES else p[to] == NO_PIECE)
    ensures DirtyShaped(PlainDirty(p, from, to, capture, promotion, promoted))
    ensures InDims(Removed(PlainDirty(p, from, to, capture, promotion, promoted), kingSq, side))
    ensures InDims(Added(PlainDirty(p, from, to, capture, promotion, promoted), kingSq, side))
    ensures WSum(w, Removed(PlainDirty(p, from, to, capture, promotion, promoted), kingSq, side), l)
         == CellSum(w, p[from], from, kingSq, side, l) + CellSum(w, p[to], to, kingSq, side, l)
    ensures WSum(w, Added(PlainDirty(p, from, to, capture, promotion, promoted), kingSq, side), l)
         == CellSum(w, if promotion then promoted else p[from], to, kingSq, side, l)
  {
    var first := DirtyPiece(p[from], from, if promotion then NO_SQUARE else to);
    var d := PlainDirty(p, from, to, capture, promotion, promoted);
    if capture && promotion {
      assert d == [first, DirtyPiece(p[to], to, NO_SQUARE), DirtyPiece(promoted, NO_SQUARE, to)];
      ListsThree(w, first, DirtyPiece(p[to], to, NO_SQUARE), DirtyPiece(promoted, NO_SQUARE, to), kingSq, side, l);
    } else if capture {
      assert d == [first, DirtyPiece(p[to], to, NO_SQUARE)];
      ListsTwo(w, first, DirtyPiece(p[to], to, NO_SQUARE), kingSq, side, l);
    } else if promotion {
      assert d == [first, DirtyPiece(promoted, NO_SQUARE, to)];
      ListsTwo(w, first, DirtyPiece(promoted, NO_SQUARE, to), kingSq, side, l);
    } else {
      assert d == [first];
      ListsOne(w, first, kingSq, side, l);
    }
  }

  lemma ListsOne(w: seq<int>, e0: DirtyPiece, kingSq: Square, side: Side, l: int)
    requires WeightsShaped(w) && DirtyShaped([e0]) && 0 <= l < HALF_DIMS
    ensures InDims(Removed([e0], kingSq, side)) && InDims(Added([e0], kingSq, side))
    ensures WSum(w, Removed([e0], kingSq, side), l) == LeftSum(w, e0, kingSq, side, l)
    ensures WSum(w, Added([e0], kingSq, side), l) == ReachedSum(w, e0, kingSq, side, l)
  {
    assert [e0] == [] + [e0];
    ChangedSnoc(w, [], e0, kingSq, side, l);
  }

  lemma ListsTwo(w: seq<int>, e0: DirtyPiece, e1: DirtyPiece, kingSq: Square, side: Side, l: int)
    requires WeightsShaped(w) && DirtyShaped([e0, e1]) && 0 <= l < HALF_DIMS
    ensures DirtyShaped([e0]) && DirtyShaped([e1])
    ensures InDims(Removed([e0, e1], kingSq, side)) && InDims(Added([e0, e1], kingSq, side))
    ensures WSum(w, Removed([e0, e1], kingSq, side), l) == LeftSum(w, e0, kingSq, side, l) + LeftSum(w, e1, kingSq, side, l)
    ensures WSum(w, Added([e0, e1], kingSq, side), l) == ReachedSum(w, e0, kingSq, side, l) + ReachedSum(w, e1, kingSq, side, l)
  {
    assert [e0, e1] == [e0] + [e1];
    ChangedSnoc(w, [e0], e1, kingSq, side, l);
    ListsOne(w, e0, kingSq, side, l);
  }

  lemma ListsThree(w: seq<int>, e0: DirtyPiece, e1: DirtyPiece, e2: DirtyPiece, kingSq: Square, side: Side, l: int)
    requires WeightsShaped(w) && DirtyShaped([e0, e1, e2]) && 0 <= l < HALF_DIMS
    ensures DirtyShaped([e0]) && DirtyShaped([e1]) && DirtyShaped([e2])
    ensures InDims(Removed([e0, e1, e2], kingSq, side)) && InDims(Added([e0, e1, e2], kingSq, side))
    ensures WSum(w, Removed([e0, e1, e2], kingSq, side), l)
         == LeftSum(w, e0, kingSq, side, l) + LeftSum(w, e1, kingSq, side, l) + LeftSum(w, e2, kingSq, side, l)
    ensures WSum(w, Added([e0, e1, e2], kingSq, side), l)
         == ReachedSum(w, e0, kingSq, side, l) + ReachedSum(w, e1, kingSq, side, l) + ReachedSum(w, e2, kingSq, side, l)
  {
    assert [e0, e1, e2] == [e0, e1] + [e2];
    ChangedSnoc(w, [e0, e1], e2, kingSq, side, l);
    ListsTwo(w, e0, e1, kingSq, side, l);
  }

  /** A plain move, a capture, a promotion: the mover leaves, the captured piece goes, the mover or its promotion lands. */
  lemma PlainFeatures(w: seq<int>, p: seq<Cell>, stm: Side, m: nat, kingSq: Square, side: Side, l: int)
    requires WeightsShaped(w) && |p| == NSQUARES && P.BoardFits(p, stm, m) && !P.IsCastle(m) && !IsEnPassant(m) && 0 <= l < HALF_DIMS
    ensures DirtyShaped(DirtyPieces(p, stm, m))
    ensures Describes(w, p, P.MovedPieces(p, stm, m), DirtyPieces(p, stm, m), kingSq, side, l)
  {
    P.FlagsOfKind(m);
    P.FitsShape(p, stm, m);
    PlainFitsFacts(p, stm, m);
    PlainOnSquares(w, p, stm, m, kingSq, side, l);
  }

  /** What BoardFits says of the squares of a move that neither castles nor captures en passant. */
  lemma PlainFitsFacts(p: seq<Cell>, stm: Side, m: nat)
    requires |p| == NSQUARES && P.BoardFits(p, stm, m) && !P.IsCastle(m) && !IsEnPassant(m)
    ensures From(m) != To(m) && p[From(m)] < NPIECES
    ensures IsPromotion(m) ==> 0 <= Promotion(m) < NPIECES
    ensures if IsCapture(m) then p[To(m)] < NPIECES else p[To(m)] == NO_PIECE
  {
  }

  /** PlainFeatures from the facts about the squares alone. */
  lemma PlainOnSquares(w: seq<int>, p: seq<Cell>, stm: Side, m: nat, kingSq: Square, side: Side, l: int)
    requires WeightsShaped(w) && |p| == NSQUARES && 0 <= l < HALF_DIMS && P.MoveShape(p, stm, m)
    requires !P.IsCastle(m) && !IsEnPassant(m)
    requires From(m) != To(m) && p[From(m)] < NPIECES
    requires IsPromotion(m) ==> 0 <= Promotion(m) < NPIECES
    requires if IsCapture(m) then p[To(m)] < NPIECES else p[To(m)] == NO_PIECE
    ensures DirtyShaped(DirtyPieces(p, stm, m))
    ensures Describes(w, p, P.MovedPieces(p, stm, m), DirtyPieces(p, stm, m), kingSq, side, l)
  {
    var from, to := From(m), To(m);
    var promoted: Cell := if IsPromotion(m) then Promotion(m) else PAWN;
    assert P.MovedPieces(p, stm, m) == p[from := NO_PIECE][to := if IsPromotion(m) then promoted else p[from]];
    assert DirtyPieces(p, stm, m) == PlainDirty(p, from, to, IsCapture(m), IsPromotion(m), promoted);
    PlainDescribes(w, p, from, to, IsCapture(m), IsPromotion(m), promoted, kingSq, side, l);
  }

  /**
   * The record nnue_make_move leaves (castling corrected) describes
   * pos_make_move's board change: in every dimension of every weight table,
   * the new board's features plus the removed ones weigh what the old
   * board's features plus the added ones weigh.
   */
  lemma DirtyFeatures(w: seq<int>, p: seq<Cell>, stm: Side, m: nat, kingSq: Square, side: Side, l: int)
    requires WeightsShaped(w) && |p| == NSQUARES && P.BoardFits(p, stm, m) && 0 <= l < HALF_DIMS
    ensures DirtyShaped(DirtyPieces(p, stm, m))
    ensures Describes(w, p, P.MovedPieces(p, stm, m), DirtyPieces(p, stm, m), kingSq, side, l)
  {
    if P.IsCastle(m) {
      CastleFeatures(w, p, stm, m, kingSq, side, l);
    } else if IsEnPassant(m) {
      EnPassantFeatures(w, p, stm, m, kingSq, side, l);
    } else {
      PlainFeatures(w, p, stm, m, kingSq, side, l);
    }
  }
}
