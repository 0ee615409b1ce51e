/**
 * The staged move selector of src/moveselect.c.  A node's moves come in
 * phases: the transposition-table move, the good tactical moves (best MVV/LVA
 * score first), the killer move, the counter move, the quiet moves (best
 * history score first) and finally the tactical moves that lose material.
 *
 * Good moves fill the `moveinfo` array from the front and losing tactical
 * moves from the back; `SelectMove` is one step of a selection sort that
 * swaps the best remaining entry to the front of the unsearched range.
 *
 * Move generation, the static exchange test and pseudo-legality are not part
 * of this module: the selector reads them from a `Node` value, which plays the
 * part of the position (`worker->pos`) the C routines consult.
 */
module MoveSelect {
  import opened Types
  import opened Wrappers

  const PHASE_TT: int := 0
  const PHASE_GEN_TACTICAL: int := 1
  const PHASE_GOOD_TACTICAL: int := 2
  const PHASE_KILLER: int := 3
  const PHASE_COUNTER: int := 4
  const PHASE_GEN_MOVES: int := 5
  const PHASE_MOVES: int := 6
  const PHASE_ADD_BAD_TACTICAL: int := 7
  const PHASE_BAD_TACTICAL: int := 8
  /** The phase after the last one: every call returns no move. */
  const PHASE_DONE: int := 9

  datatype MoveInfo = MoveInfo(move: nat, score: int)

  /**
   * What the selector reads of the position: the generated tactical and
   * quiet move lists, the moves that are pseudo-legal, the tactical moves
   * whose static exchange loses material, the piece on each square, the
   * side to move, and the history score of each quiet move.
   */
  datatype Node = Node(tacticals: seq<nat>, quiets: seq<nat>, pseudoLegal: set<nat>, losing: set<nat>,
                       pieces: seq<int>, stm: Side, history: nat -> int)

  predicate NodeValid(o: Node)
  {
    && |o.tacticals| + |o.quiets| <= MAX_MOVES
    && |o.pieces| == NSQUARES
    && forall s :: 0 <= s < |o.pieces| ==> 0 <= o.pieces[s] <= NO_PIECE
  }

  /** mvvlva_table[victim][attacker]. */
  const MVVLVA: seq<seq<int>> := [
    [160, 160, 150, 150, 140, 140, 130, 130, 120, 120, 110, 110],
    [160, 160, 150, 150, 140, 140, 130, 130, 120, 120, 110, 110],
    [260, 260, 250, 250, 240, 240, 230, 230, 220, 220, 210, 210],
    [260, 260, 250, 250, 240, 240, 230, 230, 220, 220, 210, 210],
    [360, 360, 350, 350, 340, 340, 330, 330, 320, 320, 310, 310],
    [360, 360, 350, 350, 340, 340, 330, 330, 320, 320, 310, 310],
    [460, 460, 450, 450, 440, 440, 430, 430, 420, 420, 410, 410],
    [460, 460, 450, 450, 440, 440, 430, 430, 420, 420, 410, 410],
    [560, 560, 550, 550, 540, 540, 530, 530, 520, 520, 510, 510],
    [560, 560, 550, 550, 540, 540, 530, 530, 520, 520, 510, 510],
    [660, 660, 650, 650, 640, 640, 630, 630, 620, 620, 610, 610],
    [660, 660, 650, 650, 640, 640, 630, 630, 620, 620, 610, 610]
  ]

  /** Row v of the table is 100 per victim rank step and -10 per attacker rank step. */
  lemma MvvLvaRow(v: int)
    requires 0 <= v < NPIECES
    ensures |MVVLVA[v]| == NPIECES
    ensures forall a :: 0 <= a < NPIECES ==> MVVLVA[v][a] == 100 * (v / 2) + 160 - 10 * (a / 2)
  {
    var base := 100 * (v / 2) + 160;
    var row := seq(NPIECES, a => base - 10 * (a / 2));
    if v < 2 {
      assert MVVLVA[v] == [160, 160, 150, 150, 140, 140, 130, 130, 120, 120, 110, 110] == row;
    } else if v < 4 {
      assert MVVLVA[v] == [260, 260, 250, 250, 240, 240, 230, 230, 220, 220, 210, 210] == row;
    } else if v < 6 {
      assert MVVLVA[v] == [360, 360, 350, 350, 340, 340, 330, 330, 320, 320, 310, 310] == row;
    } else if v < 8 {
      assert MVVLVA[v] == [460, 460, 450, 450, 440, 440, 430, 430, 420, 420, 410, 410] == row;
    } else if v < 10 {
      assert MVVLVA[v] == [560, 560, 550, 550, 540, 540, 530, 530, 520, 520, 510, 510] == row;
    } else {
      assert MVVLVA[v] == [660, 660, 650, 650, 640, 640, 630, 630, 620, 620, 610, 610] == row;
    }
  }

  /**
   * Most valuable victim first: a capture of a more valuable piece type
   * scores higher whatever the attackers, and with the same victim the less
   * valuable attacker scores higher.
   */
  lemma MvvLvaOrder(v1: int, a1: int, v2: int, a2: int)
    requires 0 <= v1 < NPIECES && 0 <= a1 < NPIECES && 0 <= v2 < NPIECES && 0 <= a2 < NPIECES
    ensures v1 / 2 > v2 / 2 ==> MVVLVA[v1][a1] > MVVLVA[v2][a2]
    ensures v1 / 2 == v2 / 2 ==> (MVVLVA[v1][a1] > MVVLVA[v2][a2] <==> a1 / 2 < a2 / 2)
  {
    MvvLvaRow(v1);
    MvvLvaRow(v2);
  }

  /** mvvlva: the table entry of a capture, the pawn-takes-pawn entry of an en-passant capture, 0 otherwise. */
  function MvvLva(o: Node, m: nat): (r: int)
    requires NodeValid(o)
    ensures IsCapture(m) && o.pieces[To(m)] < NPIECES && o.pieces[From(m)] < NPIECES ==>
              r == 100 * (o.pieces[To(m)] / 2) + 160 - 10 * (o.pieces[From(m)] / 2)
    ensures !IsCapture(m) && IsEnPassant(m) ==> r == 160
    ensures !IsCapture(m) && !IsEnPassant(m) ==> r == 0
  {
    if IsCapture(m) then
      var v, a := o.pieces[To(m)], o.pieces[From(m)];
      if v < NPIECES && a < NPIECES then (MvvLvaRow(v); MVVLVA[v][a]) else 0
    else if IsEnPassant(m) then (MvvLvaRow(PAWN + o.stm); MVVLVA[PAWN + o.stm][PAWN + o.stm])
    else 0
  }

  /** The entry add_moves writes for a move: MVV/LVA for a tactical move, the history score otherwise. */
  function Info(o: Node, m: nat): MoveInfo
    requires NodeValid(o)
  {
    MoveInfo(m, if IsTactical(m) then MvvLva(o, m) else o.history(m))
  }

  predicate Skipped(m: nat, tt: nat, killer: nat, counter: nat)
  {
    m == tt || m == killer || m == counter
  }

  predicate Losing(o: Node, m: nat)
  {
    IsTactical(m) && m in o.losing
  }

  /** The moves of the list add_moves puts at the front, in list order. */
  function GoodOf(o: Node, list: seq<nat>, tt: nat, killer: nat, counter: nat): seq<nat>
  {
    if list == [] then []
    else
      var rest := GoodOf(o, list[..|list| - 1], tt, killer, counter);
      var m := list[|list| - 1];
      if Skipped(m, tt, killer, counter) || Losing(o, m) then rest else rest + [m]
  }

  /** The moves of the list add_moves puts at the back, in list order. */
  function BadOf(o: Node, list: seq<nat>, tt: nat, killer: nat, counter: nat): seq<nat>
  {
    if list == [] then []
    else
      var rest := BadOf(o, list[..|list| - 1], tt, killer, counter);
      var m := list[|list| - 1];
      if !Skipped(m, tt, killer, counter) && Losing(o, m) then rest + [m] else rest
  }

  /**
   * add_moves leaves out the transposition-table, killer and counter moves,
   * puts each other move in exactly one of the two regions (the losing
   * tactical moves at the back), and so adds no more moves than the list has.
   */
  lemma {:induction false} AddedMoves(o: Node, list: seq<nat>, tt: nat, killer: nat, counter: nat)
    ensures forall m :: m in GoodOf(o, list, tt, killer, counter) <==>
                          m in list && !Skipped(m, tt, killer, counter) && !Losing(o, m)
    ensures forall m :: m in BadOf(o, list, tt, killer, counter) <==>
                          m in list && !Skipped(m, tt, killer, counter) && Losing(o, m)
    ensures |GoodOf(o, list, tt, killer, counter)| + |BadOf(o, list, tt, killer, counter)| <= |list|
  {
    if list != [] {
      var init := list[..|list| - 1];
      AddedMoves(o, init, tt, killer, counter);
      assert list == init + [list[|list| - 1]];
    }
  }

  /** Extending the list by its next move extends at most one of the two regions by that move. */
  lemma OfNext(o: Node, list: seq<nat>, k: int, tt: nat, killer: nat, counter: nat)
    requires 0 <= k < |list|
    ensures var m := list[k];
            && GoodOf(o, list[..k + 1], tt, killer, counter)
               == (if Skipped(m, tt, killer, counter) || Losing(o, m) then GoodOf(o, list[..k], tt, killer, counter)
                   else GoodOf(o, list[..k], tt, killer, counter) + [m])
            && BadOf(o, list[..k + 1], tt, killer, counter)
               == (if !Skipped(m, tt, killer, counter) && Losing(o, m) then BadOf(o, list[..k], tt, killer, counter) + [m]
                   else BadOf(o, list[..k], tt, killer, counter))
  {
    assert list[..k + 1][..k] == list[..k];
  }

  /** The index of the first entry with the highest score in s[start..last]. */
  function BestIndex(s: seq<MoveInfo>, start: int, last: int): (b: int)
    requires 0 <= start < last <= |s|
    ensures start <= b < last
    ensures forall j :: start <= j < last ==> s[j].score <= s[b].score
    ensures forall j :: start <= j < b ==> s[j].score < s[b].score
    decreases last - start
  {
    if last == start + 1 then start
    else
      var b := BestIndex(s, start, last - 1);
      if s[last - 1].score > s[b].score then last - 1 else b
  }

  function Swap(s: seq<MoveInfo>, i: int, j: int): (r: seq<MoveInfo>)
    requires 0 <= i < |s| && 0 <= j < |s|
    ensures |r| == |s| && r[i] == s[j] && r[j] == s[i]
    ensures forall k :: 0 <= k < |s| && k != i && k != j ==> r[k] == s[k]
  {
    s[i := s[j]][j := s[i]]
  }

  /** A swap only reorders the entries. */
  lemma SwapPermutes(s: seq<MoveInfo>, i: int, j: int)
    requires 0 <= i < |s| && 0 <= j < |s|
    ensures multiset(Swap(s, i, j)) == multiset(s)
  {
    if i != j {
      calc {
        multiset(s[i := s[j]][j := s[i]]);
        multiset(s[i := s[j]]) - multiset{s[i := s[j]][j]} + multiset{s[i]};
        { assert s[i := s[j]][j] == s[j]; }
        multiset(s) - multiset{s[i]} + multiset{s[j]} - multiset{s[j]} + multiset{s[i]};
      }
    }
  }

  /** After the swap the entry at start has the highest score of the range. */
  lemma SwapBestFirst(s: seq<MoveInfo>, start: int, last: int)
    requires 0 <= start < last <= |s|
    ensures var r := Swap(s, start, BestIndex(s, start, last));
            forall j :: start <= j < last ==> r[j].score <= r[start].score
  {
    var b := BestIndex(s, start, last);
    var r := Swap(s, start, b);
    forall j | start <= j < last
      ensures r[j].score <= r[start].score
    {
      if j == b {
        assert r[j] == s[start];
      } else if j != start {
        assert r[j] == s[j];
      }
    }
  }

  class MoveSelector {
    var ttmove: nat
    var killer: nat
    var counter: nat
    var moveinfo: array<MoveInfo>
    /** Index of the last good move plus one. */
    var lastIdx: int
    /** The number of losing tactical moves, stored from the back of moveinfo. */
    var nbad: int
    /** Index of the next move to select. */
    var idx: int
    var phase: int
    var inCheck: bool
    var underpromote: bool
    var tacticalOnly: bool

    /**
     * The front region [0, lastIdx) and the back region [MAX_MOVES - nbad,
     * MAX_MOVES) never overlap, and they hold no more moves than the node
     * generated in the phases reached so far.
     */
    ghost predicate Valid(o: Node)
      reads this
    {
      && NodeValid(o)
      && moveinfo.Length == MAX_MOVES
      && PHASE_TT <= phase <= PHASE_DONE
      && 0 <= nbad <= MAX_MOVES && 0 <= lastIdx && 0 <= idx
      && (phase <= PHASE_GEN_TACTICAL ==> lastIdx == 0 && nbad == 0)
      && (PHASE_GOOD_TACTICAL <= phase <= PHASE_GEN_MOVES ==> lastIdx + nbad <= |o.tacticals|)
      && (PHASE_MOVES <= phase <= PHASE_ADD_BAD_TACTICAL ==> lastIdx + nbad <= |o.tacticals| + |o.quiets|)
      && (PHASE_BAD_TACTICAL <= phase ==> lastIdx == MAX_MOVES)
    }

    /**
     * select_init_node: the selector starts at the transposition-table phase
     * with empty regions; the ttmove is dropped when it is NOMOVE or not
     * pseudo-legal, or when it is quiet in a tactical-only node that is not in
     * check.
     */
    constructor (o: Node, tacticalOnly: bool, inCheck: bool, ttmove: nat, killer: nat, counter: nat)
      requires NodeValid(o)
      ensures Valid(o) && fresh(moveinfo)
      ensures phase == PHASE_TT && idx == 0 && lastIdx == 0 && nbad == 0
      ensures this.tacticalOnly == tacticalOnly && this.underpromote == !tacticalOnly && this.inCheck == inCheck
      ensures this.killer == killer && this.counter == counter
      ensures this.ttmove == (if ttmove == NOMOVE || ttmove !in o.pseudoLegal then NOMOVE
                              else if tacticalOnly && !inCheck && !IsTactical(ttmove) then NOMOVE
                              else ttmove)
    {
      phase := PHASE_TT;
      this.tacticalOnly := tacticalOnly;
      underpromote := !tacticalOnly;
      if ttmove == NOMOVE || ttmove !in o.pseudoLegal {
        this.ttmove := NOMOVE;
      } else if tacticalOnly && !inCheck && !IsTactical(ttmove) {
        this.ttmove := NOMOVE;
      } else {
        this.ttmove := ttmove;
      }
      this.inCheck := inCheck;
      idx := 0;
      lastIdx := 0;
      nbad := 0;
      this.killer := killer;
      this.counter := counter;
      moveinfo := new MoveInfo[MAX_MOVES](_ => MoveInfo(NOMOVE, 0));
    }

    /**
     * select_move: NOMOVE when the range [idx, lastIdx) is empty; otherwise
     * the first best-scored entry of the range is swapped to idx and its move
     * returned.  Only the two swapped entries change.
     */
    method SelectMove() returns (m: nat)
      requires moveinfo.Length == MAX_MOVES && 0 <= idx && lastIdx <= MAX_MOVES
      modifies moveinfo
      ensures idx >= lastIdx ==> m == NOMOVE && moveinfo[..] == old(moveinfo[..])
      ensures idx < lastIdx ==>
                && moveinfo[..] == Swap(old(moveinfo[..]), idx, BestIndex(old(moveinfo[..]), idx, lastIdx))
                && m == moveinfo[idx].move
                && (forall j :: idx <= j < lastIdx ==> moveinfo[j].score <= moveinfo[idx].score)
      ensures multiset(moveinfo[..]) == old(multiset(moveinfo[..]))
    {
      if idx >= lastIdx {
        return NOMOVE;
      }
      var start := idx;
      var best := FindBest(start);
      ghost var s := moveinfo[..];
      if best != start {
        var temp := moveinfo[best];
        moveinfo[best] := moveinfo[start];
        moveinfo[start] := temp;
      }
      assert moveinfo[..] == Swap(s, start, best);
      SwapPermutes(s, start, best);
      SwapBestFirst(s, start, lastIdx);
      m := moveinfo[start].move;
    }

    /** The scan of select_move: the first best-scored entry of [start, lastIdx). */
    method FindBest(start: int) returns (best: int)
      requires moveinfo.Length == MAX_MOVES && 0 <= start < lastIdx <= MAX_MOVES
      ensures best == BestIndex(moveinfo[..], start, lastIdx)
    {
      var iter := start + 1;
      best := start;
      while iter < lastIdx
        invariant start < iter <= lastIdx
        invariant best == BestIndex(moveinfo[..], start, iter)
      {
        if moveinfo[iter].score > moveinfo[best].score {
          best := iter;
        }
        iter := iter + 1;
      }
    }

    /**
     * The entries written by add_moves so far: `good` upward from l0 and
     * `bad` downward from the back below the b0 entries already there, with
     * the rest of the earlier contents s0 of both regions left alone.
     */
    ghost predicate Filled(o: Node, good: seq<nat>, bad: seq<nat>, l0: int, b0: int, s0: seq<MoveInfo>)
      reads this, moveinfo
      requires NodeValid(o)
    {
      && moveinfo.Length == MAX_MOVES && |s0| == MAX_MOVES
      && 0 <= l0 && 0 <= b0
      && lastIdx == l0 + |good| && nbad == b0 + |bad|
      && lastIdx + nbad <= MAX_MOVES
      && (forall j :: 0 <= j < l0 ==> moveinfo[j] == s0[j])
      && (forall j :: l0 <= j < lastIdx ==> moveinfo[j] == Info(o, good[j - l0]))
      && (forall j :: 0 <= j < |bad| ==> moveinfo[MAX_MOVES - 1 - (b0 + j)] == Info(o, bad[j]))
      && (forall j :: MAX_MOVES - b0 <= j < MAX_MOVES ==> moveinfo[j] == s0[j])
    }

    /** The front branch of add_moves: the entry goes to lastIdx. */
    method PushGood(o: Node, move: nat, ghost good: seq<nat>, ghost bad: seq<nat>, ghost l0: int, ghost b0: int,
                    ghost s0: seq<MoveInfo>)
      requires NodeValid(o) && Filled(o, good, bad, l0, b0, s0) && lastIdx + nbad < MAX_MOVES
      modifies this`lastIdx, moveinfo
      ensures Filled(o, good + [move], bad, l0, b0, s0)
    {
      moveinfo[lastIdx] := Info(o, move);
      lastIdx := lastIdx + 1;
    }

    /** The back branch of add_moves: the entry goes to MAX_MOVES - 1 - nbad. */
    method PushBad(o: Node, move: nat, ghost good: seq<nat>, ghost bad: seq<nat>, ghost l0: int, ghost b0: int,
                   ghost s0: seq<MoveInfo>)
      requires NodeValid(o) && Filled(o, good, bad, l0, b0, s0) && lastIdx + nbad < MAX_MOVES
      modifies this`nbad, moveinfo
      ensures Filled(o, good, bad + [move], l0, b0, s0)
    {
      moveinfo[MAX_MOVES - 1 - nbad] := Info(o, move);
      nbad := nbad + 1;
    }

    /**
     * add_moves: every move of the list but the ttmove, the killer and the
     * counter move gets an entry; the losing tactical moves are stored
     * downward from the back and the others upward from lastIdx.
     */
    method AddMoves(o: Node, list: seq<nat>)
      requires NodeValid(o) && moveinfo.Length == MAX_MOVES
      requires 0 <= lastIdx && 0 <= nbad && lastIdx + nbad + |list| <= MAX_MOVES
      modifies this`lastIdx, this`nbad, moveinfo
      ensures Filled(o, GoodOf(o, list, ttmove, killer, counter), BadOf(o, list, ttmove, killer, counter),
                     old(lastIdx), old(nbad), old(moveinfo[..]))
      ensures lastIdx + nbad <= old(lastIdx + nbad) + |list|
    {
      ghost var l0, b0, s0 := lastIdx, nbad, moveinfo[..];
      var k := 0;
      while k < |list|
        invariant 0 <= k <= |list|
        invariant Filled(o, GoodOf(o, list[..k], ttmove, killer, counter), BadOf(o, list[..k], ttmove, killer, counter),
                         l0, b0, s0)
        invariant lastIdx + nbad <= l0 + b0 + k
      {
        var move := list[k];
        ghost var good, bad := GoodOf(o, list[..k], ttmove, killer, counter), BadOf(o, list[..k], ttmove, killer, counter);
        OfNext(o, list, k, ttmove, killer, counter);
        if move == ttmove || move == killer || move == counter {
          k := k + 1;
          continue;
        }
        if IsTactical(move) && move in o.losing {
          PushBad(o, move, good, bad, l0, b0, s0);
        } else {
          PushGood(o, move, good, bad, l0, b0, s0);
        }
        k := k + 1;
      }
      assert list[..|list|] == list;
    }

    /**
     * get_move: one call of the phase machine.  The phase never decreases;
     * once the losing tactical moves are exhausted every call returns false
     * with NOMOVE; a returned move is never NOMOVE.
     */
    method GetMove(o: Node) returns (found: bool, move: nat)
      requires Valid(o)
      modifies this`phase, this`idx, this`lastIdx, this`nbad, moveinfo
      ensures Valid(o)
      ensures phase >= old(phase)
      ensures found <==> move != NOMOVE
      ensures old(phase) == PHASE_DONE ==> !found && phase == PHASE_DONE
      ensures old(phase) == PHASE_TT && ttmove != NOMOVE ==> found && move == ttmove && phase == PHASE_GEN_TACTICAL
      ensures found && old(phase) <= PHASE_KILLER && phase == PHASE_COUNTER ==>
                move == killer && killer != ttmove && killer in o.pseudoLegal
      ensures found && old(phase) <= PHASE_COUNTER && phase == PHASE_GEN_MOVES ==>
                move == counter && counter != ttmove && counter != killer && counter in o.pseudoLegal
    {
      var stop := false;
      found, move := false, NOMOVE;
      if phase <= PHASE_COUNTER {
        stop, found, move := EarlyPhases(o);
      }
      if !stop {
        found, move := LatePhases(o);
      }
    }

    /**
     * The cases PHASE_TT to PHASE_COUNTER of get_move.  `stop` is false when
     * the switch falls through into PHASE_GEN_MOVES.
     */
    method EarlyPhases(o: Node) returns (stop: bool, found: bool, move: nat)
      requires Valid(o) && phase <= PHASE_COUNTER
      modifies this`phase, this`idx, this`lastIdx, this`nbad, moveinfo
      ensures Valid(o)
      ensures phase >= old(phase)
      ensures !stop ==> phase == PHASE_GEN_MOVES
      ensures stop ==> phase <= PHASE_GEN_MOVES && (found <==> move != NOMOVE)
      ensures old(phase) == PHASE_TT && ttmove != NOMOVE ==> stop && found && move == ttmove && phase == PHASE_GEN_TACTICAL
      ensures stop && found && phase == PHASE_COUNTER ==>
                move == killer && killer != ttmove && killer in o.pseudoLegal
      ensures stop && found && phase == PHASE_GEN_MOVES ==>
                move == counter && counter != ttmove && counter != killer && counter in o.pseudoLegal
    {
      if phase == PHASE_TT {
        phase := phase + 1;
        if ttmove != NOMOVE {
          return true, true, ttmove;
        }
      }
      if phase == PHASE_GEN_TACTICAL {
        Generate(o, o.tacticals);
        phase := phase + 1;
        idx := 0;
      }
      if phase == PHASE_GOOD_TACTICAL {
        if idx < lastIdx || (tacticalOnly && !inCheck) {
          move := Select();
          return true, move != NOMOVE, move;
        }
        phase := phase + 1;
      }
      if phase == PHASE_KILLER {
        phase := phase + 1;
        if killer != NOMOVE && killer != ttmove && killer in o.pseudoLegal {
          return true, true, killer;
        }
      }
      phase := phase + 1;
      if counter != NOMOVE && counter != ttmove && counter != killer && counter in o.pseudoLegal {
        return true, true, counter;
      }
      return false, false, NOMOVE;
    }

    /** The cases PHASE_GEN_MOVES to the end of get_move. */
    method LatePhases(o: Node) returns (found: bool, move: nat)
      requires Valid(o) && phase >= PHASE_GEN_MOVES
      modifies this`phase, this`idx, this`lastIdx, this`nbad, moveinfo
      ensures Valid(o)
      ensures phase >= old(phase) && phase > PHASE_GEN_MOVES
      ensures found <==> move != NOMOVE
      ensures old(phase) == PHASE_DONE ==> !found && phase == PHASE_DONE
    {
      if phase == PHASE_GEN_MOVES {
        Generate(o, o.quiets);
        phase := phase + 1;
      }
      if phase == PHASE_MOVES {
        if idx < lastIdx {
          move := Select();
          return move != NOMOVE, move;
        }
        phase := phase + 1;
      }
      if phase == PHASE_ADD_BAD_TACTICAL {
        lastIdx := MAX_MOVES;
        idx := MAX_MOVES - nbad;
        phase := phase + 1;
      }
      if phase == PHASE_BAD_TACTICAL {
        if idx < lastIdx {
          move := Select();
          return move != NOMOVE, move;
        }
        phase := phase + 1;
      }
      return false, NOMOVE;
    }

    /** A generation phase of get_move: add_moves on the generated list, seen only by the sizes it changes. */
    method Generate(o: Node, list: seq<nat>)
      requires NodeValid(o) && moveinfo.Length == MAX_MOVES
      requires 0 <= lastIdx && 0 <= nbad && lastIdx + nbad + |list| <= MAX_MOVES
      modifies this`lastIdx, this`nbad, moveinfo
      ensures 0 <= lastIdx && 0 <= nbad && lastIdx + nbad <= old(lastIdx + nbad) + |list|
    {
      AddMoves(o, list);
    }

    /** The tail of get_move: select the next move and advance idx. */
    method Select() returns (move: nat)
      requires moveinfo.Length == MAX_MOVES && 0 <= idx && lastIdx <= MAX_MOVES
      modifies this`idx, moveinfo
      ensures idx == old(idx) + 1
      ensures old(idx) >= lastIdx ==> move == NOMOVE
    {
      move := SelectMove();
      idx := idx + 1;
    }

    /** select_is_bad_capture_phase. */
    function IsBadCapturePhase(): (r: bool)
      reads this
      ensures r <==> phase == PHASE_BAD_TACTICAL
    {
      phase == PHASE_BAD_TACTICAL
    }
  }
}
