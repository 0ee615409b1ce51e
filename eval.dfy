/**
 * The integer helpers of the hand-written evaluation in src/eval.c: the
 * tapered interpolation between middlegame and endgame scores, the king
 * distance, the game phase, the insufficient-material test, and the
 * incrementally kept piece-square and material sums.
 *
 * The piece-square tables and material values of src/evalparams.c are the
 * fields of a `Params` value.  The piece counts and bishop square colours the
 * C code takes from the piece bitboards are taken here from the piece array
 * (`pos->pieces`), which agrees with the bitboards in a valid position.
 */
module Eval {
  import opened Types
  import opened CInt

  const MIDDLEGAME: int := 0
  const ENDGAME: int := 1
  const NPHASES: int := 2
  const TOTAL_PHASE: int := 24

  /** |w| <= b times a non-negative factor. */
  lemma MulMono(x: int, y: int, c: int)
    requires x <= y && c >= 0
    ensures x * c <= y * c
  {
    assert (y - x) * c >= 0;
  }

  /** calculate_tapered_eval: ((mg·(256-phase)) + eg·phase)/256, truncated toward zero. */
  function TaperedEval(phase: int, mg: int, eg: int): int
  {
    CDiv(mg * (256 - phase) + eg * phase, 256)
  }

  /** Phase 0 gives the middlegame score and phase 256 the endgame score. */
  lemma TaperedEnds(mg: int, eg: int)
    ensures TaperedEval(0, mg, eg) == mg
    ensures TaperedEval(256, mg, eg) == eg
  {
    assert mg * 256 + eg * 0 == mg * 256;
    assert mg * 0 + eg * 256 == eg * 256;
  }

  /** For a phase in [0, 256] the tapered score lies between the two scores. */
  lemma TaperedBetween(phase: int, mg: int, eg: int)
    requires 0 <= phase <= 256
    ensures Min(mg, eg) <= TaperedEval(phase, mg, eg) <= Max(mg, eg)
  {
    var lo, hi := Min(mg, eg), Max(mg, eg);
    var x := mg * (256 - phase) + eg * phase;
    MulMono(lo, mg, 256 - phase);
    MulMono(lo, eg, phase);
    MulMono(mg, hi, 256 - phase);
    MulMono(eg, hi, phase);
    assert lo * (256 - phase) + lo * phase == lo * 256;
    assert hi * (256 - phase) + hi * phase == hi * 256;
    assert lo * 256 <= x <= hi * 256;
    var q := CDiv(x, 256);
    if x >= 0 {
      assert q * 256 <= x < (q + 1) * 256;
    } else {
      assert -q * 256 <= -x < (-q + 1) * 256;
    }
  }

  /**
   * king_distance: the number of king moves between two squares, computed as
   * the diagonal steps min(Δfile, Δrank) plus the straight steps left over.
   * It is the larger of the two distances.
   */
  function KingDistance(from: Square, to: Square): (n: int)
    ensures n == Max(Abs(FileNr(to) - FileNr(from)), Abs(RankNr(to) - RankNr(from)))
  {
    var fileDelta := Abs(FileNr(to) - FileNr(from));
    var rankDelta := Abs(RankNr(to) - RankNr(from));
    var diagonal := if fileDelta > rankDelta then rankDelta else fileDelta;
    diagonal + ((fileDelta - diagonal) + (rankDelta - diagonal))
  }

  /** The king distance is a metric on the board: zero only from a square to itself, and symmetric. */
  lemma KingDistanceMetric(a: Square, b: Square)
    ensures KingDistance(a, b) == KingDistance(b, a)
    ensures KingDistance(a, b) == 0 <==> a == b
    ensures 0 <= KingDistance(a, b) <= 7
  {
    if KingDistance(a, b) == 0 {
      SquareRoundTrip(a);
      SquareRoundTrip(b);
    }
  }

  /** The number of squares in [0, n) holding piece p. */
  function Count(board: seq<int>, p: int, n: nat): (c: nat)
    requires n <= |board|
    ensures c <= n
  {
    if n == 0 then 0 else Count(board, p, n - 1) + (if board[n - 1] == p then 1 else 0)
  }

  function Counts(board: seq<int>, p: int): nat
    requires |board| == NSQUARES
  {
    Count(board, p, NSQUARES)
  }

  /**
   * eval_game_phase: 24 less one per minor piece, two per rook and four per
   * queen, scaled to 0..256 with rounding, and never below 0.
   */
  function GamePhase(board: seq<int>): (phase: int)
    requires |board| == NSQUARES
    ensures 0 <= phase <= 256
  {
    var p := TOTAL_PHASE
             - Counts(board, WHITE_KNIGHT) - Counts(board, BLACK_KNIGHT)
             - Counts(board, WHITE_BISHOP) - Counts(board, BLACK_BISHOP)
             - 2 * Counts(board, WHITE_ROOK) - 2 * Counts(board, BLACK_ROOK)
             - 4 * Counts(board, WHITE_QUEEN) - 4 * Counts(board, BLACK_QUEEN);
    Max(CDiv(p * 256 + TOTAL_PHASE / 2, TOTAL_PHASE), 0)
  }

  /** With only kings and pawns left the phase is the endgame, 256. */
  lemma GamePhaseNoPieces(board: seq<int>)
    requires |board| == NSQUARES
    requires forall s :: 0 <= s < NSQUARES ==> board[s] in {WHITE_PAWN, BLACK_PAWN, WHITE_KING, BLACK_KING, NO_PIECE}
    ensures GamePhase(board) == 256
  {
    forall p | p in {WHITE_KNIGHT, BLACK_KNIGHT, WHITE_BISHOP, BLACK_BISHOP, WHITE_ROOK, BLACK_ROOK, WHITE_QUEEN, BLACK_QUEEN}
      ensures Counts(board, p) == 0
    {
      NoneCounted(board, p, NSQUARES);
    }
  }

  lemma {:induction false} NoneCounted(board: seq<int>, p: int, n: nat)
    requires n <= |board| && forall s :: 0 <= s < n ==> board[s] != p
    ensures Count(board, p, n) == 0
  {
    if n > 0 {
      NoneCounted(board, p, n - 1);
    }
  }

  /** sq_color: a1 is a dark square; a square is light when its file and rank differ in parity. */
  function SquareColor(s: Square): (c: int)
    ensures c == WHITE || c == BLACK
  {
    if (FileNr(s) + RankNr(s)) % 2 == 1 then WHITE else BLACK
  }

  /** Some square in [0, n) of colour c holds piece p: `(bb_pieces[p] & <colour>_square_mask) != 0`. */
  predicate OnColor(board: seq<int>, p: int, c: int, n: nat)
    requires n <= |board| == NSQUARES
  {
    n > 0 && (OnColor(board, p, c, n - 1) || (board[n - 1] == p && SquareColor(n - 1) == c))
  }

  /** A piece counted at least once stands on a square of one of the two colours. */
  lemma {:induction false} CountedOnColor(board: seq<int>, p: int, n: nat)
    requires n <= |board| == NSQUARES
    ensures Count(board, p, n) > 0 <==> OnColor(board, p, WHITE, n) || OnColor(board, p, BLACK, n)
  {
    if n > 0 {
      CountedOnColor(board, p, n - 1);
    }
  }

  /** The bishops of a side all stand on squares of one colour. */
  predicate BishopsOneColor(board: seq<int>, p: int)
    requires |board| == NSQUARES
  {
    !(OnColor(board, p, WHITE, NSQUARES) && OnColor(board, p, BLACK, NSQUARES))
  }

  /**
   * eval_is_material_draw: no pawn, rook or queen, and either bare kings, a
   * single knight against a bare king, or bishops of one side that all stand
   * on squares of one colour against a bare king.
   */
  function MaterialDraw(board: seq<int>): (draw: bool)
    requires |board| == NSQUARES
    ensures (Counts(board, WHITE_PAWN) > 0 || Counts(board, BLACK_PAWN) > 0 ||
             Counts(board, WHITE_ROOK) > 0 || Counts(board, BLACK_ROOK) > 0 ||
             Counts(board, WHITE_QUEEN) > 0 || Counts(board, BLACK_QUEEN) > 0) ==> !draw
  {
    if Counts(board, WHITE_PAWN) != 0 || Counts(board, BLACK_PAWN) != 0 ||
       Counts(board, WHITE_ROOK) != 0 || Counts(board, BLACK_ROOK) != 0 ||
       Counts(board, WHITE_QUEEN) != 0 || Counts(board, BLACK_QUEEN) != 0 then false
    else
      var wn, bn := Counts(board, WHITE_KNIGHT), Counts(board, BLACK_KNIGHT);
      var wb, bb := Counts(board, WHITE_BISHOP), Counts(board, BLACK_BISHOP);
      if wn == 0 && bn == 0 && wb == 0 && bb == 0 then true
      else if wn == 1 && bn == 0 && wb == 0 && bb == 0 then true
      else if wn == 0 && bn == 1 && wb == 0 && bb == 0 then true
      else if wn == 0 && bn == 0 && wb > 0 && bb == 0 then BishopsOneColor(board, WHITE_BISHOP)
      else if wn == 0 && bn == 0 && wb == 0 && bb > 0 then BishopsOneColor(board, BLACK_BISHOP)
      else false
  }

  /** Only kings and minor pieces may remain. */
  predicate NoMajorsOrPawns(board: seq<int>)
    requires |board| == NSQUARES
  {
    Counts(board, WHITE_PAWN) == 0 && Counts(board, BLACK_PAWN) == 0 &&
    Counts(board, WHITE_ROOK) == 0 && Counts(board, BLACK_ROOK) == 0 &&
    Counts(board, WHITE_QUEEN) == 0 && Counts(board, BLACK_QUEEN) == 0
  }

  /**
   * The drawn endings, stated by the material they leave: without pawns,
   * rooks and queens, the position is a material draw exactly when the
   * minor pieces are at most one knight, or bishops of one side only, all
   * on one square colour.
   */
  lemma MaterialDrawCases(board: seq<int>)
    requires |board| == NSQUARES && NoMajorsOrPawns(board)
    ensures var wn, bn := Counts(board, WHITE_KNIGHT), Counts(board, BLACK_KNIGHT);
            var wb, bb := Counts(board, WHITE_BISHOP), Counts(board, BLACK_BISHOP);
            MaterialDraw(board) <==>
              (wb == 0 && bb == 0 && wn + bn <= 1) ||
              (wn == 0 && bn == 0 && wb == 0 && BishopsOneColor(board, BLACK_BISHOP)) ||
              (wn == 0 && bn == 0 && bb == 0 && BishopsOneColor(board, WHITE_BISHOP))
  {
    var wb, bb := Counts(board, WHITE_BISHOP), Counts(board, BLACK_BISHOP);
    CountedOnColor(board, WHITE_BISHOP, NSQUARES);
    CountedOnColor(board, BLACK_BISHOP, NSQUARES);
  }

  /** One side's bishops on both square colours against a bare king is not a material draw. */
  lemma BishopPairNotDraw(board: seq<int>)
    requires |board| == NSQUARES && NoMajorsOrPawns(board)
    requires Counts(board, WHITE_KNIGHT) == 0 && Counts(board, BLACK_KNIGHT) == 0 && Counts(board, BLACK_BISHOP) == 0
    requires OnColor(board, WHITE_BISHOP, WHITE, NSQUARES) && OnColor(board, WHITE_BISHOP, BLACK, NSQUARES)
    ensures !MaterialDraw(board)
  {
    CountedOnColor(board, WHITE_BISHOP, NSQUARES);
  }

  // ---- Piece-square and material sums ---------------------------------------

  /**
   * The tables of src/evalparams.c: a piece-square table per piece type and
   * phase (seen from white), and the material value per piece type and phase
   * (pawns count PAWN_BASE_VALUE and kings nothing, whatever these hold).
   */
  datatype Params = Params(psqMg: seq<seq<int>>, psqEg: seq<seq<int>>, matMg: seq<int>, matEg: seq<int>)

  predicate ParamsValid(pr: Params)
  {
    && |pr.psqMg| == 6 && |pr.psqEg| == 6 && |pr.matMg| == 6 && |pr.matEg| == 6
    && (forall t :: 0 <= t < 6 ==> |pr.psqMg[t]| == NSQUARES && |pr.psqEg[t]| == NSQUARES)
  }

  /** One side's sums: pos->psq[phase][side] and pos->material[phase][side] for both phases. */
  datatype SideSums = SideSums(psqMg: int, psqEg: int, matMg: int, matEg: int)

  /** The sums of both sides. */
  datatype Sums = Sums(white: SideSums, black: SideSums)

  function Of(s: Sums, side: int): SideSums
  {
    if side == WHITE then s.white else s.black
  }

  function Plus(a: SideSums, b: SideSums): (c: SideSums)
  {
    SideSums(a.psqMg + b.psqMg, a.psqEg + b.psqEg, a.matMg + b.matMg, a.matEg + b.matEg)
  }

  function Negate(a: SideSums): (c: SideSums)
  {
    SideSums(-a.psqMg, -a.psqEg, -a.matMg, -a.matEg)
  }

  const ZERO_SIDE := SideSums(0, 0, 0, 0)
  const ZERO_SUMS := Sums(ZERO_SIDE, ZERO_SIDE)

  /**
   * What a piece on a square contributes to its own side: the table entry of
   * its type at the square (mirrored for black) and its material value.
   */
  function Contribution(pr: Params, piece: int, sq: Square): (c: SideSums)
    requires ParamsValid(pr) && 0 <= piece < NPIECES
    ensures piece / 2 == KING / 2 ==> c.matMg == 0 && c.matEg == 0
    ensures piece / 2 == PAWN / 2 ==> c.matMg == PAWN_BASE_VALUE && c.matEg == PAWN_BASE_VALUE
    ensures Color(piece) == WHITE ==> c.psqMg == pr.psqMg[piece / 2][sq] && c.psqEg == pr.psqEg[piece / 2][sq]
    ensures Color(piece) == BLACK ==> c.psqMg == pr.psqMg[piece / 2][Mirror(sq)] && c.psqEg == pr.psqEg[piece / 2][Mirror(sq)]
  {
    var t := piece / 2;
    var s := if Color(piece) == BLACK then Mirror(sq) else sq;
    var mMg := if t == PAWN / 2 then PAWN_BASE_VALUE else if t == KING / 2 then 0 else pr.matMg[t];
    var mEg := if t == PAWN / 2 then PAWN_BASE_VALUE else if t == KING / 2 then 0 else pr.matEg[t];
    SideSums(pr.psqMg[t][s], pr.psqEg[t][s], mMg, mEg)
  }

  /**
   * eval_update_piece_features as a value: the piece's side gains (added) or
   * loses its contribution; the other side's sums do not change.
   */
  function Update(sums: Sums, pr: Params, piece: int, sq: Square, added: bool): (r: Sums)
    requires ParamsValid(pr) && 0 <= piece < NPIECES
    ensures Of(r, 1 - Color(piece)) == Of(sums, 1 - Color(piece))
  {
    var c := Contribution(pr, piece, sq);
    var d := if added then c else Negate(c);
    if Color(piece) == WHITE then sums.(white := Plus(sums.white, d)) else sums.(black := Plus(sums.black, d))
  }

  /** Adding a piece and then removing it restores every psq and material sum. */
  lemma UpdateRoundTrip(sums: Sums, pr: Params, piece: int, sq: Square)
    requires ParamsValid(pr) && 0 <= piece < NPIECES
    ensures Update(Update(sums, pr, piece, sq, true), pr, piece, sq, false) == sums
  {
  }

  /** Two updates commute: the sums do not depend on the order pieces are added in. */
  lemma UpdatesCommute(sums: Sums, pr: Params, p1: int, s1: Square, a1: bool, p2: int, s2: Square, a2: bool)
    requires ParamsValid(pr) && 0 <= p1 < NPIECES && 0 <= p2 < NPIECES
    ensures Update(Update(sums, pr, p1, s1, a1), pr, p2, s2, a2) == Update(Update(sums, pr, p2, s2, a2), pr, p1, s1, a1)
  {
  }

  predicate BoardValid(board: seq<int>)
  {
    |board| == NSQUARES && forall s :: 0 <= s < NSQUARES ==> 0 <= board[s] <= NO_PIECE
  }

  /** eval_init_piece_features as a value: the sums over the pieces on squares [0, n). */
  function Features(pr: Params, board: seq<int>, n: nat): Sums
    requires ParamsValid(pr) && BoardValid(board) && n <= NSQUARES
  {
    if n == 0 then ZERO_SUMS
    else
      var r := Features(pr, board, n - 1);
      if board[n - 1] == NO_PIECE then r else Update(r, pr, board[n - 1], n - 1, true)
  }

  /**
   * Putting a piece on an empty square changes the from-scratch sums exactly
   * as the incremental update does, so the incrementally kept sums agree with
   * eval_init_piece_features.
   */
  lemma {:induction false} FeaturesAddPiece(pr: Params, board: seq<int>, piece: int, sq: Square, n: nat)
    requires ParamsValid(pr) && BoardValid(board) && n <= NSQUARES
    requires 0 <= piece < NPIECES && board[sq] == NO_PIECE
    ensures n <= sq ==> Features(pr, board[sq := piece], n) == Features(pr, board, n)
    ensures sq < n ==> Features(pr, board[sq := piece], n) == Update(Features(pr, board, n), pr, piece, sq, true)
  {
    if n > 0 {
      FeaturesAddPiece(pr, board, piece, sq, n - 1);
      if n - 1 != sq && board[n - 1] != NO_PIECE && sq < n - 1 {
        UpdatesCommute(Features(pr, board, n - 1), pr, piece, sq, true, board[n - 1], n - 1, true);
      }
    }
  }

  /** Removing a piece from its square reverses its contribution to the from-scratch sums. */
  lemma FeaturesRemovePiece(pr: Params, board: seq<int>, sq: Square)
    requires ParamsValid(pr) && BoardValid(board) && board[sq] != NO_PIECE
    ensures Features(pr, board[sq := NO_PIECE], NSQUARES)
            == Update(Features(pr, board, NSQUARES), pr, board[sq], sq, false)
  {
    var empty := board[sq := NO_PIECE];
    FeaturesAddPiece(pr, empty, board[sq], sq, NSQUARES);
    assert empty[sq := board[sq]] == board;
    UpdateRoundTrip(Features(pr, empty, NSQUARES), pr, board[sq], sq);
  }

  /** delta * x for the ±1 delta of eval_update_piece_features. */
  function Times(delta: int, x: int): (r: int)
    requires delta == 1 || delta == -1
    ensures r == if delta == 1 then x else -x
  {
    delta * x
  }

  /** pos->psq and pos->material of a position, each indexed [phase][side]. */
  class FeatureSums {
    var psq: array2<int>
    var material: array2<int>

    ghost predicate Valid()
      reads this
    {
      psq.Length0 == NPHASES && psq.Length1 == 2 && material.Length0 == NPHASES && material.Length1 == 2
      && psq != material
    }

    function Totals(): Sums
      reads this, psq, material
      requires Valid()
    {
      Sums(SideSums(psq[MIDDLEGAME, WHITE], psq[ENDGAME, WHITE], material[MIDDLEGAME, WHITE], material[ENDGAME, WHITE]),
           SideSums(psq[MIDDLEGAME, BLACK], psq[ENDGAME, BLACK], material[MIDDLEGAME, BLACK], material[ENDGAME, BLACK]))
    }

    /** The cleared sums eval_init_piece_features starts from. */
    constructor ()
      ensures Valid() && fresh(psq) && fresh(material)
      ensures Totals() == ZERO_SUMS
    {
      psq := new int[NPHASES, 2]((_, _) => 0);
      material := new int[NPHASES, 2]((_, _) => 0);
    }

    /** eval_update_piece_features: add (added) or subtract the piece's table entries and material. */
    method UpdatePieceFeatures(pr: Params, piece: int, sq: Square, added: bool)
      requires Valid() && ParamsValid(pr) && 0 <= piece < NPIECES
      modifies psq, material
      ensures Totals() == Update(old(Totals()), pr, piece, sq, added)
    {
      var delta := if added then 1 else -1;
      var side := Color(piece);
      var s := if side == BLACK then Mirror(sq) else sq;
      var t := piece / 2;
      ghost var before := Totals();
      ghost var c := Contribution(pr, piece, sq);
      ghost var d := if added then c else Negate(c);
      psq[MIDDLEGAME, side] := psq[MIDDLEGAME, side] + Times(delta, pr.psqMg[t][s]);
      psq[ENDGAME, side] := psq[ENDGAME, side] + Times(delta, pr.psqEg[t][s]);
      if t != KING / 2 {
        var mg := if t == PAWN / 2 then PAWN_BASE_VALUE else pr.matMg[t];
        var eg := if t == PAWN / 2 then PAWN_BASE_VALUE else pr.matEg[t];
        material[MIDDLEGAME, side] := material[MIDDLEGAME, side] + Times(delta, mg);
        material[ENDGAME, side] := material[ENDGAME, side] + Times(delta, eg);
      }
      assert psq[MIDDLEGAME, side] == old(psq[MIDDLEGAME, side]) + d.psqMg;
      assert psq[ENDGAME, side] == old(psq[ENDGAME, side]) + d.psqEg;
      assert material[MIDDLEGAME, side] == old(material[MIDDLEGAME, side]) + d.matMg;
      assert material[ENDGAME, side] == old(material[ENDGAME, side]) + d.matEg;
      assert Of(Totals(), 1 - side) == Of(before, 1 - side);
      assert Of(Totals(), side) == Plus(Of(before, side), d);
    }

    /** eval_init_piece_features: the sums recomputed from the pieces on the board, square by square. */
    method InitPieceFeatures(pr: Params, board: seq<int>)
      requires Valid() && ParamsValid(pr) && BoardValid(board)
      modifies psq, material
      ensures Totals() == Features(pr, board, NSQUARES)
    {
      var k := 0;
      while k < NPHASES
        invariant 0 <= k <= NPHASES
        invariant forall i, j :: 0 <= i < k && 0 <= j < 2 ==> psq[i, j] == 0 && material[i, j] == 0
      {
        var l := 0;
        while l < 2
          invariant 0 <= l <= 2
          invariant forall i, j :: 0 <= i < k && 0 <= j < 2 ==> psq[i, j] == 0 && material[i, j] == 0
          invariant forall j :: 0 <= j < l ==> psq[k, j] == 0 && material[k, j] == 0
        {
          material[k, l] := 0;
          psq[k, l] := 0;
          l := l + 1;
        }
        k := k + 1;
      }
      var sq := 0;
      while sq < NSQUARES
        invariant 0 <= sq <= NSQUARES
        invariant Totals() == Features(pr, board, sq)
      {
        if board[sq] != NO_PIECE {
          UpdatePieceFeatures(pr, board[sq], sq, true);
        }
        sq := sq + 1;
      }
    }
  }
}
