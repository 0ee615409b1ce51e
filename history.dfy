/**
 * The move-ordering tables of src/history.c: the butterfly history table,
 * the counter-move and follow-up continuation histories, the killer table
 * and the counter-move table.
 *
 * The C tables are fixed-size arrays inside the search worker; here they are
 * the arrays of a `HistoryTables` object, flattened so that a (piece, square)
 * pair is the index piece * 64 + square and a continuation entry is
 * (previous key) * 768 + (key).  The parts of the position the routines read
 * (the piece array, the history stack, ply and sply) are a `Ctx` value.
 */
module History {
  import opened Types
  import opened CInt

  /** MAX_HISTORY_SCORE = INT_MAX / 3. */
  const MAX_HISTORY_SCORE: int := 715827882
  const MAX_HISTORY_DEPTH: int := 20
  const UP: int := 32
  const DOWN: int := 512
  /** NPIECES * NSQUARES: the number of (piece, square) keys. */
  const NKEYS: int := 768
  const INT_MAX: int := 0x7FFF_FFFF

  /** history_table entries never leave [-HISTORY_BOUND, HISTORY_BOUND]. */
  const HISTORY_BOUND: int := 58515
  /** counter_history and follow_history entries never leave [-CONT_BOUND, CONT_BOUND]. */
  const CONT_BOUND: int := 16384

  /** One entry of the position's history stack: the move made and the piece that moved. */
  datatype Undo = Undo(move: nat, piece: int)

  /** What the history routines read of the position. */
  datatype Ctx = Ctx(pieces: seq<int>, stack: seq<Undo>, ply: nat, sply: nat)

  predicate CtxValid(c: Ctx)
  {
    && |c.pieces| == NSQUARES
    && (forall s :: 0 <= s < |c.pieces| ==> 0 <= c.pieces[s] <= NO_PIECE)
    && c.ply <= |c.stack|
    && c.sply <= c.ply
    && (forall i :: 0 <= i < |c.stack| ==> 0 <= c.stack[i].piece < NPIECES)
  }

  function Key(piece: int, sq: Square): (k: int)
    requires 0 <= piece < NPIECES
    ensures 0 <= k < NKEYS
  {
    piece * NSQUARES + sq
  }

  /** The key of a move: the moving piece and TO_CASTLE of the move. */
  function MoveKey(c: Ctx, move: nat): (k: int)
    requires CtxValid(c) && c.pieces[From(move)] < NPIECES
    ensures 0 <= k < NKEYS
  {
    Key(c.pieces[From(move)], ToCastle(move))
  }

  /** move_c: the opponent's previous move, or NOMOVE at ply 0 or after a null move. */
  function CounterMove(c: Ctx): (m: nat)
    requires CtxValid(c)
    ensures m != NOMOVE ==> c.ply >= 1 && m == c.stack[c.ply - 1].move && !IsNullMove(m)
  {
    if c.ply >= 1 && !IsNullMove(c.stack[c.ply - 1].move) then c.stack[c.ply - 1].move else NOMOVE
  }

  /** move_f: our own previous move, or NOMOVE when either of the last two moves was a null move. */
  function FollowMove(c: Ctx): (m: nat)
    requires CtxValid(c)
    ensures m != NOMOVE ==> c.ply >= 2 && m == c.stack[c.ply - 2].move
                            && !IsNullMove(m) && !IsNullMove(c.stack[c.ply - 1].move)
  {
    if c.ply >= 2 && !IsNullMove(c.stack[c.ply - 1].move) && !IsNullMove(c.stack[c.ply - 2].move)
    then c.stack[c.ply - 2].move
    else NOMOVE
  }

  /** The key of the continuation table row: the piece that made the move `back` plies ago and where it went. */
  function ContKey(c: Ctx, back: nat, m: nat): (k: int)
    requires CtxValid(c) && 1 <= back <= c.ply
    ensures 0 <= k < NKEYS
  {
    Key(c.stack[c.ply - back].piece, ToCastle(m))
  }

  /** The index of a continuation entry: the previous move's key, then the move's key. */
  function ContIndex(prev: int, k: int): (j: int)
    requires 0 <= prev < NKEYS && 0 <= k < NKEYS
    ensures 0 <= j < NKEYS * NKEYS
  {
    prev * NKEYS + k
  }

  /** The previous move's piece stands on its target square, as it does after the move is made. */
  predicate PrevOnBoard(c: Ctx)
    requires CtxValid(c)
  {
    c.ply >= 1 && !IsNullMove(c.stack[c.ply - 1].move) ==> c.pieces[ToCastle(c.stack[c.ply - 1].move)] < NPIECES
  }

  /** The same, for a previous move that is neither NOMOVE nor a null move: all counter_get_move reads the board for. */
  predicate PrevLanded(c: Ctx)
    requires CtxValid(c)
  {
    c.ply >= 1 && c.stack[c.ply - 1].move != NOMOVE && !IsNullMove(c.stack[c.ply - 1].move) ==>
      c.pieces[ToCastle(c.stack[c.ply - 1].move)] < NPIECES
  }

  /** The bonus of a move: +depth² for the best (last) move of the list, -depth² for every other one. */
  function Bonus(move: nat, best: nat, d: int): (delta: int)
    ensures move == best ==> delta == d * d
    ensures move != best ==> delta == -(d * d)
  {
    if move != best then -(d * d) else d * d
  }

  /** The history_table update, as written: the old entry is replaced, not accumulated. */
  function HistoryScore(was: int, delta: int): (r: int)
    ensures r <= MAX_HISTORY_SCORE
  {
    Min(UP * delta - CDiv(was * Abs(delta), DOWN), MAX_HISTORY_SCORE)
  }

  /** The counter_history and follow_history update: the entry moves toward ±UP·DOWN. */
  function AccumScore(was: int, delta: int): (r: int)
    ensures r <= MAX_HISTORY_SCORE
  {
    Min(was + (UP * delta - CDiv(was * Abs(delta), DOWN)), MAX_HISTORY_SCORE)
  }

  /** The three tables as values. */
  datatype Tables = Tables(h: seq<int>, c: seq<int>, f: seq<int>)

  predicate Shaped(t: Tables)
  {
    |t.h| == NKEYS && |t.c| == NKEYS * NKEYS && |t.f| == NKEYS * NKEYS
  }

  /** Every entry within the bounds the updates keep. */
  predicate Bounded(t: Tables)
  {
    Shaped(t) && Within(t.h, HISTORY_BOUND) && Within(t.c, CONT_BOUND) && Within(t.f, CONT_BOUND)
  }

  predicate Within(s: seq<int>, b: int)
  {
    forall i :: 0 <= i < |s| ==> -b <= s[i] <= b
  }

  lemma SetWithin(s: seq<int>, j: int, v: int, b: int)
    requires Within(s, b) && 0 <= j < |s| && -b <= v <= b
    ensures Within(s[j := v], b)
  {
  }

  lemma BonusRange(move: nat, best: nat, d: int)
    requires 1 <= d <= MAX_HISTORY_DEPTH
    ensures -400 <= Bonus(move, best, d) <= 400
  {
    ProductBound(d, d, MAX_HISTORY_DEPTH);
  }

  predicate MovesKnown(c: Ctx, moves: seq<nat>)
    requires CtxValid(c)
  {
    forall k :: 0 <= k < |moves| ==> c.pieces[From(moves[k])] < NPIECES
  }

  /** One iteration of the update loop of history_update_tables. */
  function Step(t: Tables, c: Ctx, move: nat, best: nat, d: int): (r: Tables)
    requires Shaped(t) && CtxValid(c) && c.pieces[From(move)] < NPIECES
    ensures Shaped(r)
  {
    var i := MoveKey(c, move);
    var delta := Bonus(move, best, d);
    var mc := CounterMove(c);
    var mf := FollowMove(c);
    var h := t.h[i := HistoryScore(t.h[i], delta)];
    var cc := if mc != NOMOVE then
                var j := ContIndex(ContKey(c, 1, mc), i);
                t.c[j := AccumScore(t.c[j], delta)]
              else t.c;
    var ff := if mf != NOMOVE then
                var j := ContIndex(ContKey(c, 2, mf), i);
                t.f[j := AccumScore(t.f[j], delta)]
              else t.f;
    Tables(h, cc, ff)
  }

  /** The tables after the first k iterations. */
  function Passed(t: Tables, c: Ctx, moves: seq<nat>, best: nat, d: int, k: nat): (r: Tables)
    requires Shaped(t) && CtxValid(c) && MovesKnown(c, moves) && k <= |moves|
    ensures Shaped(r)
  {
    if k == 0 then t else Step(Passed(t, c, moves, best, d, k - 1), c, moves[k - 1], best, d)
  }

  /** |w·a| <= b·a for |w| <= b and a >= 0. */
  lemma ProductBound(w: int, a: int, b: int)
    requires -b <= w <= b && a >= 0
    ensures -(b * a) <= w * a <= b * a
  {
    if w >= 0 {
      assert (b - w) * a >= 0;
    } else {
      assert (b + w) * a >= 0;
    }
  }

  /**
   * The history_table update stays within ±HISTORY_BOUND and its product
   * fits a C int: the MIN against MAX_HISTORY_SCORE never applies.
   */
  lemma HistoryScoreBounded(was: int, delta: int)
    requires -HISTORY_BOUND <= was <= HISTORY_BOUND
    requires -400 <= delta <= 400
    ensures -INT_MAX <= was * Abs(delta) <= INT_MAX
    ensures -HISTORY_BOUND <= HistoryScore(was, delta) <= HISTORY_BOUND
    ensures HistoryScore(was, delta) == UP * delta - CDiv(was * Abs(delta), DOWN)
  {
    var a := Abs(delta);
    var x := was * a;
    ProductBound(was, a, HISTORY_BOUND);
    var q := CDiv(x, DOWN);
    assert Abs(q) * 512 <= Abs(x);
  }

  /** The continuation update stays within ±CONT_BOUND for a non-negative entry. */
  lemma AccumScoreNonNeg(was: int, delta: int)
    requires 0 <= was <= CONT_BOUND
    requires -400 <= delta <= 400
    ensures -CONT_BOUND <= AccumScore(was, delta) <= CONT_BOUND
    ensures AccumScore(was, delta) == was + (UP * delta - CDiv(was * Abs(delta), DOWN))
    ensures delta >= 0 ==> AccumScore(was, delta) >= was
    ensures delta <= 0 ==> AccumScore(was, delta) <= was
  {
    var a := Abs(delta);
    var x := was * a;
    var q := CDiv(x, DOWN);
    ContinuationProducts(was, a);
    assert q * 512 <= x < (q + 1) * 512;
  }

  /** The three product facts behind AccumScoreNonNeg, for w = the entry and a = |delta|. */
  lemma ContinuationProducts(w: int, a: int)
    requires 0 <= w <= CONT_BOUND && 0 <= a <= 400
    ensures 0 <= w * a <= CONT_BOUND * a
    ensures w * a <= 512 * w
    ensures w * a >= 512 * (w + 32 * a - CONT_BOUND)
  {
    ProductBound(w, a, CONT_BOUND);
    ProductBound(a, w, 512);
    var u := CONT_BOUND - w;
    var v := 512 - a;
    ProductBound(u, v, u);
    assert u * v == CONT_BOUND * 512 - CONT_BOUND * a - 512 * w + w * a;
  }

  /**
   * A bonus never lowers a continuation entry and a penalty never raises it,
   * and the entry stays within ±CONT_BOUND; products fit a C int.
   */
  lemma AccumScoreMoves(was: int, delta: int)
    requires -CONT_BOUND <= was <= CONT_BOUND
    requires -400 <= delta <= 400
    ensures -INT_MAX <= was * Abs(delta) <= INT_MAX
    ensures -CONT_BOUND <= AccumScore(was, delta) <= CONT_BOUND
    ensures delta >= 0 ==> AccumScore(was, delta) >= was
    ensures delta <= 0 ==> AccumScore(was, delta) <= was
  {
    ProductBound(was, Abs(delta), CONT_BOUND);
    if was >= 0 {
      AccumScoreNonNeg(was, delta);
    } else {
      AccumScoreNonNeg(-was, -delta);
      assert (-was) * Abs(-delta) == -(was * Abs(delta));
      CDivNeg(was * Abs(delta), DOWN);
    }
  }

  /**
   * The history_table update replaces the entry instead of adding to it, so a
   * move that is the best move twice in a row at depth 20 falls from 12800 to
   * 2800 where the continuation tables' update would keep it rising.
   */
  lemma RepeatedBonusLowersHistory()
    ensures HistoryScore(0, 400) == 12800
    ensures HistoryScore(HistoryScore(0, 400), 400) == 2800
    ensures AccumScore(0, 400) == 12800
    ensures AccumScore(AccumScore(0, 400), 400) == 15600
  {
  }

  /** One loop iteration keeps every table within its bounds. */
  lemma StepBounded(t: Tables, c: Ctx, move: nat, best: nat, d: int)
    requires Bounded(t) && CtxValid(c) && c.pieces[From(move)] < NPIECES
    requires 1 <= d <= MAX_HISTORY_DEPTH
    ensures Bounded(Step(t, c, move, best, d))
  {
    var delta := Bonus(move, best, d);
    BonusRange(move, best, d);
    var i := MoveKey(c, move);
    HistoryScoreBounded(t.h[i], delta);
    SetWithin(t.h, i, HistoryScore(t.h[i], delta), HISTORY_BOUND);
    var mc := CounterMove(c);
    if mc != NOMOVE {
      var j := ContIndex(ContKey(c, 1, mc), i);
      AccumScoreMoves(t.c[j], delta);
      SetWithin(t.c, j, AccumScore(t.c[j], delta), CONT_BOUND);
    }
    var mf := FollowMove(c);
    if mf != NOMOVE {
      var j := ContIndex(ContKey(c, 2, mf), i);
      AccumScoreMoves(t.f[j], delta);
      SetWithin(t.f, j, AccumScore(t.f[j], delta), CONT_BOUND);
    }
  }

  /** Every updated entry stays within its bound (and so below MAX_HISTORY_SCORE) after the whole loop. */
  lemma {:induction false} PassedBounded(t: Tables, c: Ctx, moves: seq<nat>, best: nat, d: int, k: nat)
    requires Bounded(t) && CtxValid(c) && MovesKnown(c, moves) && k <= |moves|
    requires 1 <= d <= MAX_HISTORY_DEPTH
    ensures Bounded(Passed(t, c, moves, best, d, k))
  {
    if k > 0 {
      PassedBounded(t, c, moves, best, d, k - 1);
      StepBounded(Passed(t, c, moves, best, d, k - 1), c, moves[k - 1], best, d);
    }
  }

  /** A history_table entry that is the key of none of the moves is left as it was. */
  lemma {:induction false} PassedFrame(t: Tables, c: Ctx, moves: seq<nat>, best: nat, d: int, k: nat, i: int)
    requires Shaped(t) && CtxValid(c) && MovesKnown(c, moves) && k <= |moves|
    requires 0 <= i < NKEYS
    requires forall n :: 0 <= n < k ==> MoveKey(c, moves[n]) != i
    ensures Passed(t, c, moves, best, d, k).h[i] == t.h[i]
  {
    if k > 0 {
      PassedFrame(t, c, moves, best, d, k - 1, i);
    }
  }

  /**
   * With a previous opponent move, each iteration raises the best move's
   * counter_history entry and lowers every other move's.
   */
  lemma StepCounterDirection(t: Tables, c: Ctx, move: nat, best: nat, d: int)
    requires Bounded(t) && CtxValid(c) && c.pieces[From(move)] < NPIECES
    requires 1 <= d <= MAX_HISTORY_DEPTH
    requires CounterMove(c) != NOMOVE
    ensures var j := ContIndex(ContKey(c, 1, CounterMove(c)), MoveKey(c, move));
            && (move == best ==> Step(t, c, move, best, d).c[j] >= t.c[j])
            && (move != best ==> Step(t, c, move, best, d).c[j] <= t.c[j])
  {
    var j := ContIndex(ContKey(c, 1, CounterMove(c)), MoveKey(c, move));
    BonusRange(move, best, d);
    AccumScoreMoves(t.c[j], Bonus(move, best, d));
  }

  class HistoryTables {
    /** history_table[piece][to] at piece * 64 + to. */
    var history: array<int>
    /** counter_history[prev piece][prev to][piece][to]. */
    var counter: array<int>
    /** follow_history[prev piece][prev to][piece][to]. */
    var follow: array<int>
    /** killer_table[sply]. */
    var killers: array<nat>
    /** countermove_table[piece][to]. */
    var countermoves: array<nat>

    ghost predicate Valid()
      reads this
    {
      && history.Length == NKEYS
      && counter.Length == NKEYS * NKEYS
      && follow.Length == NKEYS * NKEYS
      && killers.Length == MAX_PLY
      && countermoves.Length == NKEYS
      && history != counter && history != follow && counter != follow
      && killers != countermoves
    }

    function Tabs(): (t: Tables)
      reads this, history, counter, follow
    {
      Tables(history[..], counter[..], follow[..])
    }

    /** history_clear_tables, killer_clear_table and counter_clear_table on a fresh worker. */
    constructor ()
      ensures Valid() && fresh(history) && fresh(counter) && fresh(follow) && fresh(killers) && fresh(countermoves)
      ensures forall i :: 0 <= i < NKEYS ==> history[i] == 0
      ensures forall i :: 0 <= i < NKEYS * NKEYS ==> counter[i] == 0 && follow[i] == 0
      ensures forall i :: 0 <= i < MAX_PLY ==> killers[i] == NOMOVE
      ensures forall i :: 0 <= i < NKEYS ==> countermoves[i] == NOMOVE
    {
      history := new int[NKEYS](_ => 0);
      counter := new int[NKEYS * NKEYS](_ => 0);
      follow := new int[NKEYS * NKEYS](_ => 0);
      killers := new nat[MAX_PLY](_ => NOMOVE);
      countermoves := new nat[NKEYS](_ => NOMOVE);
    }

    /** Cleared tables are within the bounds the updates keep. */
    lemma ClearedBounded()
      requires Valid()
      requires forall i :: 0 <= i < NKEYS ==> history[i] == 0
      requires forall i :: 0 <= i < NKEYS * NKEYS ==> counter[i] == 0 && follow[i] == 0
      ensures Bounded(Tabs())
    {
    }

    /**
     * history_update_tables: depth is capped at MAX_HISTORY_DEPTH, the last
     * move of the list is the best move, and every move of the list updates
     * its history entry and, when there is a previous move, its counter and
     * follow-up entries.
     */
    method UpdateTables(c: Ctx, moves: seq<nat>, depth: int)
      requires Valid() && CtxValid(c) && MovesKnown(c, moves)
      requires |moves| > 0 && depth > 0
      modifies history, counter, follow
      ensures Tabs() == Passed(old(Tabs()), c, moves, moves[|moves| - 1], Min(depth, MAX_HISTORY_DEPTH), |moves|)
    {
      var d := Min(depth, MAX_HISTORY_DEPTH);
      var mc := CounterMove(c);
      var mf := FollowMove(c);
      var best := moves[|moves| - 1];
      ghost var t0 := Tabs();
      var k := 0;
      while k < |moves|
        invariant 0 <= k <= |moves|
        invariant Tabs() == Passed(t0, c, moves, best, d, k)
      {
        UpdateMove(c, moves[k], best, d, mc, mf);
        k := k + 1;
      }
    }

    /** The body of history_update_tables' loop for one move: its three entries get the bonus or the malus. */
    method UpdateMove(c: Ctx, move: nat, best: nat, d: int, mc: nat, mf: nat)
      requires Valid() && CtxValid(c) && c.pieces[From(move)] < NPIECES
      requires mc == CounterMove(c) && mf == FollowMove(c)
      modifies history, counter, follow
      ensures Tabs() == Step(old(Tabs()), c, move, best, d)
    {
      var i := MoveKey(c, move);
      var delta := Bonus(move, best, d);
      history[i] := HistoryScore(history[i], delta);
      if mc != NOMOVE {
        var j := ContIndex(ContKey(c, 1, mc), i);
        counter[j] := AccumScore(counter[j], delta);
      }
      if mf != NOMOVE {
        var j := ContIndex(ContKey(c, 2, mf), i);
        follow[j] := AccumScore(follow[j], delta);
      }
    }

    /** history_get_score: the sum of the three table entries for the move. */
    function GetScore(c: Ctx, move: nat): int
      reads this, history, counter, follow
      requires Valid() && CtxValid(c) && c.pieces[From(move)] < NPIECES
    {
      var i := MoveKey(c, move);
      var s := history[i];
      var mc := CounterMove(c);
      var s := if mc != NOMOVE then s + counter[ContIndex(ContKey(c, 1, mc), i)] else s;
      var mf := FollowMove(c);
      if mf != NOMOVE then s + follow[ContIndex(ContKey(c, 2, mf), i)] else s
    }

    /** history_get_scores: the three parts of the move's score; they add up to history_get_score. */
    method GetScores(c: Ctx, move: nat) returns (hist: int, chist: int, fhist: int)
      requires Valid() && CtxValid(c) && c.pieces[From(move)] < NPIECES
      ensures hist + chist + fhist == GetScore(c, move)
      ensures hist == history[MoveKey(c, move)]
      ensures CounterMove(c) == NOMOVE ==> chist == 0
      ensures FollowMove(c) == NOMOVE ==> fhist == 0
    {
      var i := MoveKey(c, move);
      hist, chist, fhist := 0, 0, 0;
      hist := history[i];
      var prev := CounterMove(c);
      if prev != NOMOVE {
        chist := counter[ContIndex(ContKey(c, 1, prev), i)];
      }
      prev := FollowMove(c);
      if prev != NOMOVE {
        fhist := follow[ContIndex(ContKey(c, 2, prev), i)];
      }
    }

    /** killer_get_move: the killer move stored for this sply. */
    function KillerGet(c: Ctx): nat
      reads this, killers
      requires Valid() && c.sply < MAX_PLY
    {
      killers[c.sply]
    }

    /** killer_add_move: the move becomes the killer of this sply; other plies keep theirs. */
    method KillerAdd(c: Ctx, move: nat)
      requires Valid() && c.sply < MAX_PLY
      modifies killers
      ensures KillerGet(c) == move
      ensures forall p :: 0 <= p < MAX_PLY && p != c.sply ==> killers[p] == old(killers[p])
    {
      killers[c.sply] := move;
    }

    /** killer_clear_table. */
    method KillerClear()
      requires Valid()
      modifies killers
      ensures forall p :: 0 <= p < MAX_PLY ==> killers[p] == NOMOVE
    {
      var k := 0;
      while k < MAX_PLY
        invariant 0 <= k <= MAX_PLY
        invariant forall p :: 0 <= p < k ==> killers[p] == NOMOVE
      {
        killers[k] := NOMOVE;
        k := k + 1;
      }
    }

    /** counter_clear_table. */
    method CounterClear()
      requires Valid()
      modifies countermoves
      ensures forall i :: 0 <= i < NKEYS ==> countermoves[i] == NOMOVE
    {
      var k := 0;
      while k < NPIECES
        invariant 0 <= k <= NPIECES
        invariant forall i :: 0 <= i < k * NSQUARES ==> countermoves[i] == NOMOVE
      {
        var l := 0;
        while l < NSQUARES
          invariant 0 <= l <= NSQUARES
          invariant forall i :: 0 <= i < k * NSQUARES + l ==> countermoves[i] == NOMOVE
        {
          countermoves[Key(k, l)] := NOMOVE;
          l := l + 1;
        }
        k := k + 1;
      }
    }

    /**
     * counter_get_move: NOMOVE at ply 0 and after a NOMOVE or null move,
     * otherwise the counter move stored for the piece now on the previous
     * move's target square.
     */
    function CounterGet(c: Ctx): (m: nat)
      reads this, countermoves
      requires Valid() && CtxValid(c) && PrevLanded(c)
      ensures c.ply == 0 ==> m == NOMOVE
      ensures c.ply >= 1 && (c.stack[c.ply - 1].move == NOMOVE || IsNullMove(c.stack[c.ply - 1].move)) ==> m == NOMOVE
    {
      if c.ply == 0 then NOMOVE
      else
        var prev := c.stack[c.ply - 1].move;
        if prev == NOMOVE || IsNullMove(prev) then NOMOVE
        else
          var to := ToCastle(prev);
          countermoves[Key(c.pieces[to], to)]
    }

    /**
     * counter_add_move: unless the previous move was a null move, the move is
     * stored for the piece on the previous move's target square, and
     * counter_get_move then returns it.
     */
    method CounterAdd(c: Ctx, move: nat)
      requires Valid() && CtxValid(c) && c.sply > 0
      requires PrevOnBoard(c)
      modifies countermoves
      ensures IsNullMove(c.stack[c.ply - 1].move) ==> countermoves[..] == old(countermoves[..])
      ensures c.stack[c.ply - 1].move != NOMOVE && !IsNullMove(c.stack[c.ply - 1].move) ==> CounterGet(c) == move
      ensures !IsNullMove(c.stack[c.ply - 1].move) ==>
                var to := ToCastle(c.stack[c.ply - 1].move);
                forall i :: 0 <= i < NKEYS && i != Key(c.pieces[to], to) ==> countermoves[i] == old(countermoves[i])
    {
      var prev := c.stack[c.ply - 1].move;
      if IsNullMove(prev) {
        return;
      }
      var to := ToCastle(prev);
      countermoves[Key(c.pieces[to], to)] := move;
    }
  }
}
