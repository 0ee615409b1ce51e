/**
 * The accumulator half of src/nnue.c: perform_full_update and
 * perform_incremental_update filling one side's int16_t half from the
 * feature lists, the proof that the incremental update gives what the full
 * one gives, and the evaluation stack that nnue_make_move,
 * nnue_make_null_move and incremental_update_possible maintain.
 */
module Accumulator {
  import opened Types
  import opened CInt
  import opened Nnue
  import P = Position

  // ---- Accumulator updates ----------------------------------------------------

  /** Values an int16_t array holds. */
  predicate Int16s(s: seq<int>)
  {
    forall i :: 0 <= i < |s| ==> -0x8000 <= s[i] < 0x8000
  }

  /** A weight sum with its sign: subtracted for removed features, added otherwise. */
  function Signed(subtract: bool, x: int): int
  {
    if subtract then -x else x
  }

  /** The weights of a feature list, summed in every dimension. */
  function Sums(w: seq<int>, fs: seq<int>): (r: seq<int>)
    requires WeightsShaped(w) && InDims(fs)
    ensures |r| == HALF_DIMS
  {
    seq(HALF_DIMS, l requires 0 <= l < HALF_DIMS => WSum(w, fs, l))
  }

  /** A half with sums added, each element stored as an int16_t. */
  function Biased(base: seq<int>, s: seq<int>): (r: seq<int>)
    requires |base| == HALF_DIMS && |s| == HALF_DIMS
    ensures |r| == HALF_DIMS && Int16s(r)
  {
    seq(HALF_DIMS, l requires 0 <= l < HALF_DIMS => Int16(base[l] + s[l]))
  }

  /** A half with one list of sums subtracted and another added, each element stored as an int16_t. */
  function Shifted(prev: seq<int>, removed: seq<int>, added: seq<int>): (r: seq<int>)
    requires |prev| == HALF_DIMS && |removed| == HALF_DIMS && |added| == HALF_DIMS
    ensures |r| == HALF_DIMS && Int16s(r)
  {
    seq(HALF_DIMS, l requires 0 <= l < HALF_DIMS => Int16(prev[l] - removed[l] + added[l]))
  }

  /**
   * One half of the accumulator after perform_full_update: in every
   * dimension the bias plus the weights of the active features, as int16_t.
   */
  function FullAccumulator(biases: seq<int>, w: seq<int>, fs: seq<int>): (r: seq<int>)
    requires |biases| == HALF_DIMS && WeightsShaped(w) && InDims(fs)
  {
    Biased(biases, Sums(w, fs))
  }

  /**
   * One half of the accumulator after perform_incremental_update: the
   * previous half less the removed features' weights plus the added ones'.
   */
  function IncrementalAccumulator(prev: seq<int>, w: seq<int>, removed: seq<int>, added: seq<int>): (r: seq<int>)
    requires |prev| == HALF_DIMS && WeightsShaped(w) && InDims(removed) && InDims(added)
  {
    Shifted(prev, Sums(w, removed), Sums(w, added))
  }

  lemma WSumStep(w: seq<int>, fs: seq<int>, k: nat, l: int)
    requires WeightsShaped(w) && InDims(fs) && k < |fs| && 0 <= l < HALF_DIMS
    ensures InDims(fs[..k]) && InDims(fs[..k + 1])
    ensures WSum(w, fs[..k + 1], l) == WSum(w, fs[..k], l) + Weight(w, fs[k], l)
  {
    assert fs[..k + 1][..k] == fs[..k];
  }

  /** One weight row added to (or subtracted from) the half, each element stored back as an int16_t. */
  method ApplyRow(data: array<int>, w: seq<int>, f: int, subtract: bool)
    requires data.Length == HALF_DIMS && WeightsShaped(w) && 0 <= f < FEATURE_IN_DIMS
    modifies data
    ensures forall l :: 0 <= l < HALF_DIMS ==> data[l] == Int16(old(data[l]) + Signed(subtract, Weight(w, f, l)))
  {
    var offset := HALF_DIMS * f;
    var l := 0;
    while l < HALF_DIMS
      invariant 0 <= l <= HALF_DIMS
      invariant forall j :: 0 <= j < l ==> data[j] == Int16(old(data[j]) + Signed(subtract, Weight(w, f, j)))
      invariant forall j :: l <= j < HALF_DIMS ==> data[j] == old(data[j])
    {
      data[l] := Int16(data[l] + if subtract then -w[offset + l] else w[offset + l]);
      l := l + 1;
    }
  }

  /** Adding the next feature's row extends the wrapped sum by one term. */
  lemma ApplyStep(o: int, w: seq<int>, fs: seq<int>, k: nat, subtract: bool, l: int)
    requires WeightsShaped(w) && InDims(fs) && k < |fs| && 0 <= l < HALF_DIMS
    ensures InDims(fs[..k]) && InDims(fs[..k + 1])
    ensures Int16(Int16(o + Signed(subtract, WSum(w, fs[..k], l))) + Signed(subtract, Weight(w, fs[k], l)))
         == Int16(o + Signed(subtract, WSum(w, fs[..k + 1], l)))
  {
    WSumStep(w, fs, k, l);
    Int16Add(o + Signed(subtract, WSum(w, fs[..k], l)), Signed(subtract, Weight(w, fs[k], l)));
  }

  /**
   * The feature loops of perform_full_update and perform_incremental_update:
   * each listed feature's weight row added to (or subtracted from) the
   * half, each element stored back as an int16_t.
   */
  method ApplyFeatures(data: array<int>, w: seq<int>, fs: seq<int>, subtract: bool)
    requires data.Length == HALF_DIMS && Int16s(data[..]) && WeightsShaped(w) && InDims(fs)
    modifies data
    ensures forall l :: 0 <= l < HALF_DIMS ==> data[l] == Int16(old(data[l]) + Signed(subtract, WSum(w, fs, l)))
  {
    forall l | 0 <= l < HALF_DIMS
      ensures data[l] == Int16(data[l] + Signed(subtract, WSum(w, fs[..0], l)))
    {
      assert fs[..0] == [];
    }
    var k := 0;
    while k < |fs|
      invariant 0 <= k <= |fs| && InDims(fs[..k])
      invariant forall j :: 0 <= j < HALF_DIMS ==> data[j] == Int16(old(data[j]) + Signed(subtract, WSum(w, fs[..k], j)))
    {
      ApplyRow(data, w, fs[k], subtract);
      forall j | 0 <= j < HALF_DIMS
        ensures data[j] == Int16(old(data[j]) + Signed(subtract, WSum(w, fs[..k + 1], j)))
      {
        ApplyStep(old(data[j]), w, fs, k, subtract, j);
      }
      k := k + 1;
    }
    assert fs[..|fs|] == fs;
  }

  /** The copy loops of both updates: the half takes the given values. */
  method CopyHalf(data: array<int>, src: seq<int>)
    requires data.Length == HALF_DIMS && |src| == HALF_DIMS
    modifies data
    ensures data[..] == src
  {
    var k := 0;
    while k < HALF_DIMS
      invariant 0 <= k <= HALF_DIMS
      invariant forall j :: 0 <= j < k ==> data[j] == src[j]
    {
      data[k] := src[k];
      k := k + 1;
    }
  }

  /** perform_full_update once the feature list is known: biases copied, then every feature's row added. */
  method AccumulateFull(data: array<int>, biases: seq<int>, w: seq<int>, features: seq<int>)
    requires data.Length == HALF_DIMS && |biases| == HALF_DIMS && Int16s(biases) && WeightsShaped(w) && InDims(features)
    modifies data
    ensures data[..] == FullAccumulator(biases, w, features)
  {
    CopyHalf(data, biases);
    ApplyFeatures(data, w, features, false);
  }

  /**
   * perform_full_update: the biases copied into the half, then the weights
   * of every active feature added.
   */
  method PerformFullUpdate(data: array<int>, pieces: array<Cell>, side: Side, biases: seq<int>, w: seq<int>)
    requires data.Length == HALF_DIMS && pieces.Length == NSQUARES && HasKing(pieces[..], side)
    requires |biases| == HALF_DIMS && Int16s(biases) && WeightsShaped(w)
    requires data as object != pieces as object
    modifies data
    ensures InDims(Active(pieces[..], KingSquare(pieces[..], side), side, NSQUARES))
    ensures data[..] == FullAccumulator(biases, w, Active(pieces[..], KingSquare(pieces[..], side), side, NSQUARES))
  {
    ghost var p := pieces[..];
    var features := FindActiveFeatures(pieces, side);
    AccumulateFull(data, biases, w, features);
    assert pieces[..] == p;
  }

  /**
   * perform_incremental_update: the previous ply's half copied, the removed
   * features' weights subtracted, the added features' weights added.
   */
  method PerformIncrementalUpdate(data: array<int>, prev: seq<int>, pieces: array<Cell>, side: Side, d: seq<DirtyPiece>, w: seq<int>)
    requires data.Length == HALF_DIMS && |prev| == HALF_DIMS && Int16s(prev)
    requires pieces.Length == NSQUARES && HasKing(pieces[..], side) && DirtyShaped(d) && WeightsShaped(w)
    requires data as object != pieces as object
    modifies data
    ensures InDims(Removed(d, KingSquare(pieces[..], side), side)) && InDims(Added(d, KingSquare(pieces[..], side), side))
    ensures data[..] == IncrementalAccumulator(prev, w, Removed(d, KingSquare(pieces[..], side), side), Added(d, KingSquare(pieces[..], side), side))
  {
    ghost var p := pieces[..];
    var kingSq := TransformSquare(Lowest(pieces[..], side + KING, 0), side);
    var added, removed := FindChangedFeatures(d, kingSq, side);
    ChangedInDims(d, kingSq, side);
    AccumulateIncremental(data, prev, w, removed, added);
    assert pieces[..] == p;
  }

  /** perform_incremental_update once the lists are known: the previous half copied, removed rows subtracted, added rows added. */
  method AccumulateIncremental(data: array<int>, prev: seq<int>, w: seq<int>, removed: seq<int>, added: seq<int>)
    requires data.Length == HALF_DIMS && |prev| == HALF_DIMS && Int16s(prev) && WeightsShaped(w) && InDims(removed) && InDims(added)
    modifies data
    ensures data[..] == IncrementalAccumulator(prev, w, removed, added)
  {
    CopyHalf(data, prev);
    ApplyFeatures(data, w, removed, true);
    ApplyFeatures(data, w, added, false);
    forall l | 0 <= l < HALF_DIMS
      ensures data[l] == Int16(prev[l] - WSum(w, removed, l) + WSum(w, added, l))
    {
      Int16Add(prev[l] - WSum(w, removed, l), WSum(w, added, l));
    }
  }

  /**
   * The full accumulator of a board from one side's perspective: the king
   * square taken from the board, every other piece a feature.
   */
  function BoardAccumulator(biases: seq<int>, w: seq<int>, p: seq<Cell>, side: Side): (r: seq<int>)
    requires |biases| == HALF_DIMS && WeightsShaped(w) && |p| == NSQUARES && HasKing(p, side)
    ensures |r| == HALF_DIMS && Int16s(r)
  {
    ActiveInDims(p, KingSquare(p, side), side, NSQUARES);
    FullAccumulator(biases, w, Active(p, KingSquare(p, side), side, NSQUARES))
  }

  /**
   * A move whose first record is not this side's king, and which neither
   * captures that king nor promotes to one, leaves the king where it
   * stood, so the half keeps its king square.
   */
  lemma KingStays(p: seq<Cell>, stm: Side, m: nat, side: Side)
    requires |p| == NSQUARES && P.BoardFits(p, stm, m) && HasKing(p, side)
    requires DirtyPieces(p, stm, m)[0].piece != side + KING
    requires p[ToCastle(m)] != side + KING && (IsPromotion(m) ==> Promotion(m) != side + KING)
    ensures HasKing(P.MovedPieces(p, stm, m), side)
    ensures KingSquare(P.MovedPieces(p, stm, m), side) == KingSquare(p, side)
  {
    P.FlagsOfKind(m);
    P.FitsShape(p, stm, m);
    var q := P.MovedPieces(p, stm, m);
    var king := side + KING;
    forall j | 0 <= j < NSQUARES
      ensures p[j] == king <==> q[j] == king
    {
      if P.IsCastle(m) {
        assert stm != side;
      } else {
        assert p[From(m)] != king;
      }
    }
    LowestSame(p, q, king, 0);
  }

  /**
   * The incremental update is exact: from the full accumulator of the board
   * before a move, subtracting and adding the rows of the move's record
   * gives the full accumulator of the board after it, whatever the weights,
   * int16_t wrap-around included, as long as the king square is the same.
   */
  lemma IncrementalIsFull(p: seq<Cell>, stm: Side, m: nat, kingSq: Square, side: Side, biases: seq<int>, w: seq<int>)
    requires |p| == NSQUARES && P.BoardFits(p, stm, m) && |biases| == HALF_DIMS && WeightsShaped(w)
    ensures DirtyShaped(DirtyPieces(p, stm, m))
    ensures InDims(Active(p, kingSq, side, NSQUARES)) && InDims(Active(P.MovedPieces(p, stm, m), kingSq, side, NSQUARES))
    ensures InDims(Removed(DirtyPieces(p, stm, m), kingSq, side)) && InDims(Added(DirtyPieces(p, stm, m), kingSq, side))
    ensures IncrementalAccumulator(FullAccumulator(biases, w, Active(p, kingSq, side, NSQUARES)), w,
                                   Removed(DirtyPieces(p, stm, m), kingSq, side), Added(DirtyPieces(p, stm, m), kingSq, side))
         == FullAccumulator(biases, w, Active(P.MovedPieces(p, stm, m), kingSq, side, NSQUARES))
  {
    var q := P.MovedPieces(p, stm, m);
    var d := DirtyPieces(p, stm, m);
    DirtyPiecesShaped(p, stm, m);
    ActiveInDims(p, kingSq, side, NSQUARES);
    ActiveInDims(q, kingSq, side, NSQUARES);
    ChangedInDims(d, kingSq, side);
    var before, after := Active(p, kingSq, side, NSQUARES), Active(q, kingSq, side, NSQUARES);
    var removed, added := Removed(d, kingSq, side), Added(d, kingSq, side);
    forall l | 0 <= l < HALF_DIMS
      ensures Sums(w, after)[l] + Sums(w, removed)[l] == Sums(w, before)[l] + Sums(w, added)[l]
    {
      DirtyFeatures(w, p, stm, m, kingSq, side, l);
      ActiveSum(w, p, kingSq, side, NSQUARES, l);
      ActiveSum(w, q, kingSq, side, NSQUARES, l);
    }
    TradeSums(biases, Sums(w, before), Sums(w, after), Sums(w, removed), Sums(w, added));
  }

  /**
   * When, in every dimension, the removed and added sums account for the
   * difference between two sums, shifting the first biased half gives the
   * second: wrapping after each step ends where wrapping once does.
   */
  lemma TradeSums(biases: seq<int>, before: seq<int>, after: seq<int>, removed: seq<int>, added: seq<int>)
    requires |biases| == HALF_DIMS && |before| == HALF_DIMS && |after| == HALF_DIMS && |removed| == HALF_DIMS && |added| == HALF_DIMS
    requires forall l :: 0 <= l < HALF_DIMS ==> after[l] + removed[l] == before[l] + added[l]
    ensures Shifted(Biased(biases, before), removed, added) == Biased(biases, after)
  {
    forall l | 0 <= l < HALF_DIMS
      ensures Shifted(Biased(biases, before), removed, added)[l] == Biased(biases, after)[l]
    {
      WrapTrade(biases[l], before[l], after[l], removed[l], added[l]);
    }
  }

  /** Trading removed weights for added ones inside the wrapped sum. */
  lemma WrapTrade(bias: int, a: int, b: int, removed: int, added: int)
    requires b + removed == a + added
    ensures Int16(Int16(bias + a) - removed + added) == Int16(bias + b)
  {
    Int16Add(bias + a, added - removed);
  }

  // ---- The evaluation stack ---------------------------------------------------

  /** The accumulator of one ply: the two halves, indexed by side, and whether they are up to date. */
  datatype AccState = AccState(valid: bool, white: seq<int>, black: seq<int>)
  {
    function Half(side: Side): seq<int>
    {
      if side == WHITE then white else black
    }
  }

  /** One item of the evaluation stack: a ply's accumulator and the record of the move that led to it. */
  datatype EvalItem = EvalItem(state: AccState, dirty: seq<DirtyPiece>)

  /** Both halves hold HALF_DIMS int16_t values. */
  predicate StateShaped(s: AccState)
  {
    |s.white| == HALF_DIMS && |s.black| == HALF_DIMS && Int16s(s.white) && Int16s(s.black)
  }

  /**
   * incremental_update_possible on the stack's values: only in a search,
   * only when the previous ply is up to date, and only when this side's
   * king was not the first piece the move recorded.
   */
  predicate UpdatePossible(worker: bool, sply: nat, items: seq<EvalItem>, side: Side)
    requires sply < |items|
  {
    worker && sply > 0 && items[sply - 1].state.valid &&
    !(|items[sply].dirty| > 0 && items[sply].dirty[0].piece == side + KING)
  }

  /** After nnue_make_move, a side can be updated incrementally exactly when the previous ply is up to date and the move does not record that side's king first. */
  lemma PossibleAfterMove(items: seq<EvalItem>, sply: nat, p: seq<Cell>, stm: Side, m: nat, side: Side)
    requires 0 < sply < |items| && |p| == NSQUARES
    ensures var after := items[sply := EvalItem(items[sply].state.(valid := false), DirtyPieces(p, stm, m))];
            UpdatePossible(true, sply, after, side)
            <==> items[sply - 1].state.valid && !(P.IsCastle(m) && stm == side) && !(!P.IsCastle(m) && p[From(m)] == side + KING)
  {
  }

  /** Neither a capture nor a promotion of the move puts a king into or out of play. */
  predicate KingsKept(p: seq<Cell>, m: nat)
    requires |p| == NSQUARES
  {
    p[ToCastle(m)] != WHITE_KING && p[ToCastle(m)] != BLACK_KING &&
    (IsPromotion(m) ==> Promotion(m) != WHITE_KING && Promotion(m) != BLACK_KING)
  }

  /**
   * What the search keeps true from one ply to the next when the previous
   * ply is up to date: its halves are the full accumulators of the board
   * before the move, and this ply's record and board are that move's.
   */
  ghost predicate Linked(before: AccState, dirty: seq<DirtyPiece>, prev: seq<Cell>, stm: Side, m: nat, board: seq<Cell>, biases: seq<int>, w: seq<int>)
  {
    |prev| == NSQUARES && |biases| == HALF_DIMS && WeightsShaped(w) &&
    P.BoardFits(prev, stm, m) && P.MoveShape(prev, stm, m) && KingsKept(prev, m) &&
    board == P.MovedPieces(prev, stm, m) && dirty == DirtyPieces(prev, stm, m) &&
    ExactHalves(before, prev, biases, w)
  }

  /** Both halves of the state are the full accumulators of the board. */
  ghost predicate ExactHalves(before: AccState, prev: seq<Cell>, biases: seq<int>, w: seq<int>)
  {
    |prev| == NSQUARES && |biases| == HALF_DIMS && WeightsShaped(w) && HasKing(prev, WHITE) && HasKing(prev, BLACK) &&
    before.white == BoardAccumulator(biases, w, prev, WHITE) && before.black == BoardAccumulator(biases, w, prev, BLACK)
  }

  /** The item with its accumulator marked out of date. */
  function Invalidated(e: EvalItem): (r: EvalItem)
    ensures !r.state.valid && r.dirty == e.dirty
    ensures r.state.white == e.state.white && r.state.black == e.state.black
  {
    e.(state := e.state.(valid := false))
  }

  /** The evaluation stack of a position: one accumulator and move record per search ply. */
  class EvalStack {
    /** Whether the position belongs to a search worker (pos->worker != NULL). */
    var worker: bool
    /** The ply within the search, kept by the position's history push and pop. */
    var sply: nat
    /** pos->eval_stack. */
    var items: array<EvalItem>

    ghost predicate Valid()
      reads this, items
    {
      sply < items.Length && forall k :: 0 <= k < items.Length ==> StateShaped(items[k].state)
    }

    constructor (searching: bool, depth: nat)
      requires depth > 0
      ensures Valid() && fresh(items) && items.Length == depth
      ensures worker == searching && sply == 0
      ensures forall k :: 0 <= k < depth ==> !items[k].state.valid
    {
      var zeros := seq(HALF_DIMS, _ => 0);
      worker := searching;
      sply := 0;
      items := new EvalItem[depth](_ => EvalItem(AccState(false, zeros, zeros), []));
    }

    /**
     * What refreshing relies on: when this ply is out of date and the
     * previous one up to date, the previous ply's halves are exact and this
     * ply's record and board are those of the move between the plies.
     */
    ghost predicate LinkReady(board: seq<Cell>, biases: seq<int>, w: seq<int>, prev: seq<Cell>, stm: Side, m: nat)
      reads this, items
      requires Valid()
    {
      !items[sply].state.valid && worker && sply > 0 && items[sply - 1].state.valid ==>
        Linked(items[sply - 1].state, items[sply].dirty, prev, stm, m, board, biases, w)
    }

    /** An out-of-date ply that is ready to refresh meets UpdateHalf's link for either side. */
    lemma ReadyHalf(board: seq<Cell>, side: Side, biases: seq<int>, w: seq<int>, prev: seq<Cell>, stm: Side, m: nat)
      requires Valid() && !items[sply].state.valid && LinkReady(board, biases, w, prev, stm, m)
      ensures IncrementalUpdatePossible(side) ==> Linked(items[sply - 1].state, items[sply].dirty, prev, stm, m, board, biases, w)
    {
    }

    /** incremental_update_possible. */
    predicate IncrementalUpdatePossible(side: Side)
      reads this, items
      requires sply < items.Length
    {
      UpdatePossible(worker, sply, items[..], side)
    }

    /** nnue_reset_state: every ply's accumulator marked out of date. */
    method ResetState()
      requires Valid()
      modifies items
      ensures Valid()
      ensures forall k :: 0 <= k < items.Length ==> items[k] == Invalidated(old(items[k]))
    {
      var k := 0;
      while k < items.Length
        invariant 0 <= k <= items.Length
        invariant forall j :: 0 <= j < k ==> items[j] == Invalidated(old(items[j]))
        invariant forall j :: k <= j < items.Length ==> items[j] == old(items[j])
      {
        items[k] := Invalidated(items[k]);
        k := k + 1;
      }
    }

    /**
     * nnue_make_move: in a search, this ply's accumulator is marked out of
     * date and the move's record is kept for the incremental update.
     */
    method MakeMove(p: seq<Cell>, stm: Side, m: nat)
      requires Valid() && |p| == NSQUARES
      modifies items
      ensures Valid()
      ensures worker ==> items[..] == old(items[..])[sply := EvalItem(Invalidated(old(items[sply])).state, DirtyPieces(p, stm, m))]
      ensures !worker ==> items[..] == old(items[..])
    {
      if !worker {
        return;
      }
      items[sply] := EvalItem(Invalidated(items[sply]).state, DirtyPieces(p, stm, m));
    }

    /**
     * nnue_make_null_move: in a search, this ply takes over the previous
     * ply's accumulator when that one is up to date, and is marked out of
     * date otherwise; the move record is left as it was.
     */
    method MakeNullMove()
      requires Valid()
      modifies items
      ensures Valid()
      ensures worker && sply > 0 && old(items[sply - 1].state.valid) ==>
        items[..] == old(items[..])[sply := old(items[sply]).(state := old(items[sply - 1].state))]
      ensures worker && !(sply > 0 && old(items[sply - 1].state.valid)) ==>
        items[..] == old(items[..])[sply := Invalidated(old(items[sply]))]
      ensures !worker ==> items[..] == old(items[..])
    {
      if !worker {
        return;
      }
      if sply > 0 && items[sply - 1].state.valid {
        items[sply] := items[sply].(state := items[sply - 1].state);
      } else {
        items[sply] := Invalidated(items[sply]);
      }
    }

    /**
     * The update of one half in transformer_propagate: incremental when
     * possible, full otherwise, and in both cases the full accumulator of
     * the board, provided the previous ply's halves were exact.
     */
    method UpdateHalf(pieces: array<Cell>, side: Side, biases: seq<int>, w: seq<int>, ghost prev: seq<Cell>, ghost stm: Side, ghost m: nat)
        returns (half: seq<int>)
      requires Valid() && pieces.Length == NSQUARES && HasKing(pieces[..], side)
      requires |biases| == HALF_DIMS && Int16s(biases) && WeightsShaped(w)
      requires IncrementalUpdatePossible(side) ==>
        Linked(items[sply - 1].state, items[sply].dirty, prev, stm, m, pieces[..], biases, w)
      ensures half == BoardAccumulator(biases, w, pieces[..], side)
    {
      var data := new int[HALF_DIMS];
      if IncrementalUpdatePossible(side) {
        LinkedHalf(items[sply - 1].state, prev, biases, w, side);
        IncrementalHalf(data, pieces, side, items[sply].dirty, items[sply - 1].state.Half(side), biases, w, prev, stm, m);
      } else {
        PerformFullUpdate(data, pieces, side, biases, w);
      }
      half := data[..];
    }

    /**
     * The refresh at the start of transformer_propagate: an out-of-date
     * accumulator gets both halves recomputed and is marked up to date;
     * one already up to date is left alone.
     */
    method Refresh(pieces: array<Cell>, biases: seq<int>, w: seq<int>, ghost prev: seq<Cell>, ghost stm: Side, ghost m: nat)
      requires Valid() && pieces.Length == NSQUARES && HasKing(pieces[..], WHITE) && HasKing(pieces[..], BLACK)
      requires |biases| == HALF_DIMS && Int16s(biases) && WeightsShaped(w)
      requires LinkReady(pieces[..], biases, w, prev, stm, m)
      modifies items
      ensures Valid() && items[sply].state.valid
      ensures old(items[sply].state.valid) ==> items[..] == old(items[..])
      ensures !old(items[sply].state.valid) ==>
        items[..] == old(items[..])[sply := old(items[sply]).(state := AccState(true,
          BoardAccumulator(biases, w, pieces[..], WHITE), BoardAccumulator(biases, w, pieces[..], BLACK)))]
    {
      if !items[sply].state.valid {
        ReadyHalf(pieces[..], WHITE, biases, w, prev, stm, m);
        var white := UpdateHalf(pieces, WHITE, biases, w, prev, stm, m);
        ReadyHalf(pieces[..], BLACK, biases, w, prev, stm, m);
        var black := UpdateHalf(pieces, BLACK, biases, w, prev, stm, m);
        items[sply] := items[sply].(state := AccState(true, white, black));
      }
    }
  }

  /** The previous ply's half for one side, from the link between the plies. */
  lemma LinkedHalf(before: AccState, prev: seq<Cell>, biases: seq<int>, w: seq<int>, side: Side)
    requires ExactHalves(before, prev, biases, w)
    ensures |prev| == NSQUARES && HasKing(prev, side)
    ensures before.Half(side) == BoardAccumulator(biases, w, prev, side)
  {
  }

  /** The incremental branch of UpdateHalf, from an exact previous half and the move's record. */
  method IncrementalHalf(data: array<int>, pieces: array<Cell>, side: Side, d: seq<DirtyPiece>, before: seq<int>,
                         biases: seq<int>, w: seq<int>, ghost prev: seq<Cell>, ghost stm: Side, ghost m: nat)
    requires data.Length == HALF_DIMS && pieces.Length == NSQUARES && data as object != pieces as object
    requires |prev| == NSQUARES && P.BoardFits(prev, stm, m) && P.MoveShape(prev, stm, m) && KingsKept(prev, m) && HasKing(prev, side)
    requires pieces[..] == P.MovedPieces(prev, stm, m) && d == DirtyPieces(prev, stm, m) && d[0].piece != side + KING
    requires |biases| == HALF_DIMS && WeightsShaped(w) && before == BoardAccumulator(biases, w, prev, side)
    modifies data
    ensures HasKing(pieces[..], side) && data[..] == BoardAccumulator(biases, w, pieces[..], side)
  {
    IncrementalFromLinked(prev, stm, m, side, biases, w);
    PerformIncrementalUpdate(data, before, pieces, side, d, w);
  }

  /**
   * The step the incremental branch relies on: from the previous board's
   * exact half, the record's rows give the new board's exact half, because
   * this side's king has not moved.
   */
  lemma IncrementalFromLinked(prev: seq<Cell>, stm: Side, m: nat, side: Side, biases: seq<int>, w: seq<int>)
    requires |prev| == NSQUARES && |biases| == HALF_DIMS && WeightsShaped(w) && P.BoardFits(prev, stm, m)
    requires KingsKept(prev, m) && HasKing(prev, side) && DirtyPieces(prev, stm, m)[0].piece != side + KING
    ensures HasKing(P.MovedPieces(prev, stm, m), side) && DirtyShaped(DirtyPieces(prev, stm, m))
    ensures var kingSq := KingSquare(P.MovedPieces(prev, stm, m), side);
            InDims(Removed(DirtyPieces(prev, stm, m), kingSq, side)) && InDims(Added(DirtyPieces(prev, stm, m), kingSq, side)) &&
            IncrementalAccumulator(BoardAccumulator(biases, w, prev, side), w,
                                   Removed(DirtyPieces(prev, stm, m), kingSq, side), Added(DirtyPieces(prev, stm, m), kingSq, side))
            == BoardAccumulator(biases, w, P.MovedPieces(prev, stm, m), side)
  {
    KingStays(prev, stm, m, side);
    IncrementalIsFull(prev, stm, m, KingSquare(prev, side), side, biases, w);
  }
}
