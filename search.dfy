/**
 * The integer helpers of the search (src/search.c): the transposition-table
 * cutoff test, mate-score adjustment, principal-variation update, material
 * gain and the aspiration-window re-search loop. The recursive search
 * itself is not part of this model; where the loop calls search_root, the
 * scores it returns are an input.
 */
module Search {
  import opened Types
  import opened Wrappers
  import opened CInt
  import H = Hash

  const INFINITE_SCORE: int := 30000
  const CHECKMATE: int := 20000

  // ---- check_tt_cutoff -------------------------------------------------------------

  /**
   * check_tt_cutoff: a stored item searched at least as deep as needed ends
   * the node if it is exact, or if its bound already proves the score is
   * outside the (alpha, beta) window.
   */
  predicate CheckTTCutoff(item: H.TTItem, depth: int, alpha: int, beta: int, score: int)
  {
    if item.depth >= depth then
      match item.itemType
      case 0 => true                 // TT_EXACT
      case 2 => score <= alpha       // TT_ALPHA
      case 1 => score >= beta        // TT_BETA
      case _ => false
    else false
  }

  /** A cutoff needs enough depth; a bound only cuts when the score is outside the window. */
  lemma CheckTTCutoffMeaning(item: H.TTItem, depth: int, alpha: int, beta: int, score: int)
    ensures CheckTTCutoff(item, depth, alpha, beta, score) ==> item.depth >= depth
    ensures item.depth >= depth && item.itemType == H.TT_EXACT ==> CheckTTCutoff(item, depth, alpha, beta, score)
    ensures CheckTTCutoff(item, depth, alpha, beta, score) && item.itemType != H.TT_EXACT ==>
              (item.itemType == H.TT_ALPHA && score <= alpha) || (item.itemType == H.TT_BETA && score >= beta)
    ensures item.depth >= depth && item.itemType == H.TT_ALPHA ==> (CheckTTCutoff(item, depth, alpha, beta, score) <==> score <= alpha)
    ensures item.depth >= depth && item.itemType == H.TT_BETA ==> (CheckTTCutoff(item, depth, alpha, beta, score) <==> score >= beta)
    ensures alpha < score < beta ==> (CheckTTCutoff(item, depth, alpha, beta, score) <==> item.depth >= depth && item.itemType == H.TT_EXACT)
  {
  }

  // ---- adjust_mate_score -----------------------------------------------------------

  /** adjust_mate_score: a mate score read from the table is moved sply closer to zero. */
  function AdjustMateScore(score: int, sply: nat, knownWin: nat): (r: int)
    ensures -(knownWin as int) <= score <= knownWin ==> r == score
    ensures score > knownWin ==> score - r == sply
    ensures score < -(knownWin as int) ==> r - score == sply
  {
    if score > knownWin then score - sply
    else if score < -(knownWin as int) then score + sply
    else score
  }

  /**
   * The shift hash_tt_store applies to a score it stores is undone by
   * adjust_mate_score when the item is read at the same ply.
   */
  lemma AdjustUndoesStore(score: int, itemType: int, sply: nat, knownWin: nat)
    requires H.StoredScore(score, itemType, sply, knownWin).Some?
    ensures AdjustMateScore(H.StoredScore(score, itemType, sply, knownWin).value, sply, knownWin) == score
  {
  }

  // ---- update_pv --------------------------------------------------------------------

  /** pv_table: one movelist of MAX_MOVES moves and a size per search ply. */
  class PvTable {
    var moves: array2<nat>
    var sizes: array<int>

    ghost predicate Valid()
      reads this
    {
      moves.Length0 == MAX_PLY && moves.Length1 == MAX_MOVES && sizes.Length == MAX_PLY
    }

    /** The principal variation stored for ply p. */
    ghost function Line(p: nat): seq<nat>
      reads this, moves, sizes
      requires Valid() && p < MAX_PLY && 0 <= sizes[p] <= MAX_MOVES
    {
      var m, n := moves, sizes[p];
      seq(n, i requires 0 <= i < n reads m => m[p, i])
    }

    /** update_pv: the line at sply becomes move followed by the line at sply + 1. */
    method UpdatePv(sply: nat, move: nat)
      requires Valid() && sply + 1 < MAX_PLY && 0 <= sizes[sply + 1] < MAX_MOVES
      modifies moves, sizes
      ensures sizes[sply] == old(sizes[sply + 1]) + 1
      ensures Line(sply) == [move] + old(Line(sply + 1))
      ensures forall p :: 0 <= p < MAX_PLY && p != sply ==> sizes[p] == old(sizes[p])
      ensures forall p, i :: 0 <= p < MAX_PLY && p != sply && 0 <= i < MAX_MOVES ==> moves[p, i] == old(moves[p, i])
    {
      moves[sply, 0] := move;
      var n := sizes[sply + 1];
      var i := 0;
      // the memcpy of the next ply's moves behind the new first move
      while i < n
        invariant 0 <= i <= n
        invariant moves[sply, 0] == move
        invariant forall j :: 1 <= j <= i ==> moves[sply, j] == old(moves[sply + 1, j - 1])
        invariant forall p, j {:trigger moves[p, j]} :: 0 <= p < MAX_PLY && p != sply && 0 <= j < MAX_MOVES ==> moves[p, j] == old(moves[p, j])
        invariant sizes == old(sizes) && sizes[..] == old(sizes[..])
      {
        moves[sply, i + 1] := moves[sply + 1, i];
        i := i + 1;
      }
      sizes[sply] := n + 1;
    }
  }

  // ---- material_gain ---------------------------------------------------------------

  /** The captured part of material_gain: the piece on the target, or a pawn for en passant. */
  function CapturedGain(seeMaterial: seq<int>, pieces: seq<Cell>, stm: Side, move: nat): int
    requires |seeMaterial| == NPIECES && |pieces| == NSQUARES
    requires IsCapture(move) ==> pieces[To(move)] < NO_PIECE
  {
    if IsCapture(move) then seeMaterial[pieces[To(move)]]
    else if IsEnPassant(move) then seeMaterial[PAWN + FlipColor(stm)]
    else 0
  }

  /**
   * material_gain as written: the promotion piece of a move already carries
   * its colour, and the side to move is added to it once more.
   * see_material is not part of this model; its values are a parameter.
   */
  function MaterialGainAsWritten(seeMaterial: seq<int>, pieces: seq<Cell>, stm: Side, move: nat): (gain: int)
    requires |seeMaterial| == NPIECES && |pieces| == NSQUARES
    requires IsCapture(move) ==> pieces[To(move)] < NO_PIECE
    requires IsPromotion(move) ==> Promotion(move) + stm < NPIECES
    ensures !IsPromotion(move) || stm == WHITE ==> gain == MaterialGain(seeMaterial, pieces, stm, move)
    ensures IsPromotion(move) ==>
      gain == MaterialGain(seeMaterial, pieces, stm, move) - seeMaterial[Promotion(move)] + seeMaterial[Promotion(move) + stm]
  {
    var captured := CapturedGain(seeMaterial, pieces, stm, move);
    if IsPromotion(move) then captured + seeMaterial[Promotion(move) + stm] - seeMaterial[PAWN + stm]
    else captured
  }

  /** As written, a black promotion is valued as the next piece kind: a queen as a king. */
  lemma BlackPromotionReadsNextKind(seeMaterial: seq<int>, pieces: seq<Cell>, move: nat)
    requires |seeMaterial| == NPIECES && |pieces| == NSQUARES
    requires IsPromotion(move) && !IsCapture(move) && !IsEnPassant(move)
    requires Promotion(move) in {BLACK_KNIGHT, BLACK_BISHOP, BLACK_ROOK, BLACK_QUEEN}
    ensures MaterialGainAsWritten(seeMaterial, pieces, BLACK, move) == seeMaterial[Promotion(move) + 1] - seeMaterial[BLACK_PAWN]
    ensures Promotion(move) == BLACK_QUEEN ==> MaterialGainAsWritten(seeMaterial, pieces, BLACK, move) == seeMaterial[WHITE_KING] - seeMaterial[BLACK_PAWN]
  {
  }

  /**
   * material_gain: the material a move wins: the captured piece (a pawn for
   * en passant) plus, for a promotion, the promoted piece less a pawn, the
   * promoted piece read with the colour it already carries.
   */
  function MaterialGain(seeMaterial: seq<int>, pieces: seq<Cell>, stm: Side, move: nat): (gain: int)
    requires |seeMaterial| == NPIECES && |pieces| == NSQUARES
    requires IsCapture(move) ==> pieces[To(move)] < NO_PIECE
    requires IsPromotion(move) ==> Promotion(move) < NPIECES
    ensures !IsCapture(move) && !IsEnPassant(move) && !IsPromotion(move) ==> gain == 0
    ensures !IsPromotion(move) && IsCapture(move) ==> gain == seeMaterial[pieces[To(move)]]
    ensures !IsPromotion(move) && !IsCapture(move) && IsEnPassant(move) ==> gain == seeMaterial[PAWN + FlipColor(stm)]
  {
    var captured := CapturedGain(seeMaterial, pieces, stm, move);
    if IsPromotion(move) then captured + seeMaterial[Promotion(move)] - seeMaterial[PAWN + stm]
    else captured
  }

  /** see_material gives both colours of a piece kind the same value. */
  predicate ColourBlind(seeMaterial: seq<int>)
    requires |seeMaterial| == NPIECES
  {
    forall k :: 0 <= k < NPIECES / 2 ==> seeMaterial[2 * k] == seeMaterial[2 * k + 1]
  }

  /**
   * With a table that values both colours alike, a quiet promotion to the
   * same kind gains the same for white and black: the promoted piece less a
   * pawn.
   */
  lemma PromotionGainSameForBothSides(seeMaterial: seq<int>, pieces: seq<Cell>, m1: nat, m2: nat, kind: int)
    requires |seeMaterial| == NPIECES && |pieces| == NSQUARES && ColourBlind(seeMaterial)
    requires kind in {KNIGHT, BISHOP, ROOK, QUEEN}
    requires IsPromotion(m1) && !IsCapture(m1) && !IsEnPassant(m1) && Promotion(m1) == kind + WHITE
    requires IsPromotion(m2) && !IsCapture(m2) && !IsEnPassant(m2) && Promotion(m2) == kind + BLACK
    ensures MaterialGain(seeMaterial, pieces, WHITE, m1) == seeMaterial[kind] - seeMaterial[PAWN]
    ensures MaterialGain(seeMaterial, pieces, BLACK, m2) == seeMaterial[kind] - seeMaterial[PAWN]
  {
    assert seeMaterial[2 * (kind / 2)] == seeMaterial[2 * (kind / 2) + 1];
    assert seeMaterial[2 * (PAWN / 2)] == seeMaterial[2 * (PAWN / 2) + 1];
  }

  // ---- the aspiration window loop ------------------------------------------------

  /** aspiration_window: the window sizes tried in turn; the last is INFINITE_SCORE. */
  const ASPIRATION_WINDOW: seq<int> := [10, 20, 40, 80, 160, 320, 640, INFINITE_SCORE]
  const LAST_WINDOW: nat := 7

  /** The state of search_aspiration_window between two calls of search_root. */
  datatype Window = Window(alpha: int, beta: int, awindex: nat, bwindex: nat)

  /** The first window: an infinite one up to depth 5, else the smallest around the previous score. */
  function FirstWindow(depth: int, prevScore: int): (w: Window)
    ensures w.awindex == 0 && w.bwindex == 0
    ensures depth > 5 ==> w.alpha < prevScore < w.beta
  {
    if depth > 5 then Window(prevScore - ASPIRATION_WINDOW[0], prevScore + ASPIRATION_WINDOW[0], 0, 0)
    else Window(-INFINITE_SCORE, INFINITE_SCORE, 0, 0)
  }

  /** The bounds actually searched: alpha and beta clamped to the infinite window. */
  function Clamped(w: Window): Window
  {
    w.(alpha := Max(w.alpha, -INFINITE_SCORE), beta := Min(w.beta, INFINITE_SCORE))
  }

  /** One outcome of search_root for a window: done, or a wider window to search again. */
  datatype Outcome = Done | Again(next: Window) | PastTable

  /**
   * One turn of the loop as written: a fail low widens alpha with the next
   * window size, a fail high beta; it reads aspiration_window past its
   * end (PastTable) when a side fails more than seven times.
   */
  function StepAsWritten(w: Window, score: int): (o: Outcome)
    ensures o.Done? <==> Clamped(w).alpha < score < Clamped(w).beta
    ensures o.PastTable? ==> w.awindex >= LAST_WINDOW || w.bwindex >= LAST_WINDOW
    ensures o.Again? ==> o.next.awindex + o.next.bwindex == w.awindex + w.bwindex + 1
    ensures o.Again? ==> o.next.awindex >= w.awindex && o.next.bwindex >= w.bwindex
  {
    var c := Clamped(w);
    if score <= c.alpha then
      if w.awindex + 1 > LAST_WINDOW then PastTable
      else Again(c.(awindex := w.awindex + 1, alpha := score - ASPIRATION_WINDOW[w.awindex + 1]))
    else if score >= c.beta then
      if w.bwindex + 1 > LAST_WINDOW then PastTable
      else Again(c.(bwindex := w.bwindex + 1, beta := score + ASPIRATION_WINDOW[w.bwindex + 1]))
    else Done
  }

  /** The loop as written, fed the scores search_root returns in turn. */
  function RunAsWritten(w: Window, scores: seq<int>): (o: Outcome)
    ensures o.Again? ==> o.next.awindex + o.next.bwindex == w.awindex + w.bwindex + |scores|
    decreases |scores|
  {
    if |scores| == 0 then Again(w)
    else match StepAsWritten(w, scores[0])
      case Again(next) => RunAsWritten(next, scores[1..])
      case other => other
  }

  /**
   * Eight fail lows in one iteration take the fail-low index past the table:
   * the seventh widening only subtracts INFINITE_SCORE from a positive
   * score, leaving a finite alpha that a mate score can still fail below.
   */
  lemma AspirationOverrunsAsWritten()
    ensures RunAsWritten(FirstWindow(6, 19000), [18990, 18970, 18930, 18850, 18690, 18370, 17730, -19990]) == PastTable
  {
    var w0 := FirstWindow(6, 19000);
    assert w0 == Window(18990, 19010, 0, 0);
    var w7 := Window(17730 - INFINITE_SCORE, 19010, 7, 0);
    assert RunAsWritten(w0, [18990, 18970, 18930, 18850, 18690, 18370, 17730, -19990])
        == RunAsWritten(w7, [-19990]);
    assert StepAsWritten(w7, -19990) == PastTable;
  }

  /**
   * One turn of the loop with the last window taken as truly infinite: once
   * a side reaches aspiration_window's last entry its bound is
   * INFINITE_SCORE itself, which no score can fail against.
   */
  function Step(w: Window, score: int): (o: Outcome)
    requires w.awindex <= LAST_WINDOW && w.bwindex <= LAST_WINDOW
    ensures o != PastTable
    ensures o.Again? ==> o.next.awindex + o.next.bwindex == w.awindex + w.bwindex + 1
    ensures o.Again? ==> o.next.awindex >= w.awindex && o.next.bwindex >= w.bwindex
  {
    var c := Clamped(w);
    if score <= c.alpha && w.awindex < LAST_WINDOW then
      var aw := w.awindex + 1;
      Again(c.(awindex := aw, alpha := if aw == LAST_WINDOW then -INFINITE_SCORE else score - ASPIRATION_WINDOW[aw]))
    else if score >= c.beta && w.bwindex < LAST_WINDOW then
      var bw := w.bwindex + 1;
      Again(c.(bwindex := bw, beta := if bw == LAST_WINDOW then INFINITE_SCORE else score + ASPIRATION_WINDOW[bw]))
    else Done
  }

  /** A window whose last-index sides are infinite. */
  ghost predicate Sound(w: Window)
  {
    w.awindex <= LAST_WINDOW && w.bwindex <= LAST_WINDOW &&
    (w.awindex == LAST_WINDOW ==> w.alpha <= -INFINITE_SCORE) &&
    (w.bwindex == LAST_WINDOW ==> w.beta >= INFINITE_SCORE)
  }

  /** Where the step differs from the source it only replaces an out-of-table read. */
  lemma StepAgreesInTable(w: Window, score: int)
    requires Sound(w) && -INFINITE_SCORE < score < INFINITE_SCORE
    ensures StepAsWritten(w, score) != PastTable && Step(w, score) != Done ==> Step(w, score).Again?
    ensures Step(w, score).Again? ==> Sound(Step(w, score).next)
    ensures Step(w, score) == Done ==> Clamped(w).alpha < score < Clamped(w).beta
  {
  }

  /**
   * search_aspiration_window: searches, widening the failed side, until a
   * score falls inside the window. scores[i] is the score search_root
   * returns for the i-th search; fifteen searches always suffice.
   */
  method AspirationWindow(depth: int, prevScore: int, scores: seq<int>) returns (score: int, nsearches: nat, w: Window)
    requires |scores| >= 2 * LAST_WINDOW + 1
    requires forall i :: 0 <= i < |scores| ==> -INFINITE_SCORE < scores[i] < INFINITE_SCORE
    ensures 1 <= nsearches <= 2 * LAST_WINDOW + 1
    ensures score == scores[nsearches - 1]
    ensures Clamped(w).alpha < score < Clamped(w).beta
  {
    w := FirstWindow(depth, prevScore);
    nsearches := 0;
    while true
      invariant Sound(w) && nsearches == w.awindex + w.bwindex
      decreases 2 * LAST_WINDOW - nsearches
    {
      score := scores[nsearches];
      nsearches := nsearches + 1;
      StepAgreesInTable(w, score);
      var o := Step(w, score);
      if o == Done {
        return;
      }
      w := o.next;
    }
  }
}
