/**
 * The game-state checks of the XBoard driver (src/xboard.c): the moves left
 * in the current time control, the three-fold repetition test over the
 * position's history, and the end-of-game verdict.
 */
module Xboard {
  import opened Types
  import PO = PositionObject
  import P = Position
  import E = Eval

  // ---- the time control ----------------------------------------------------------

  /** C's `a % d`: the remainder of the quotient truncated toward zero, with the sign of a. */
  function CRem(a: int, d: int): (r: int)
    requires d != 0
    ensures a >= 0 ==> 0 <= r < (if d > 0 then d else -d)
    ensures a < 0 ==> -(if d > 0 then d else -d) < r <= 0
  {
    var m := if d > 0 then d else -d;
    if a >= 0 then a % m else -((-a) % m)
  }

  /**
   * update_moves_to_time_control: nothing changes without a conventional
   * time control or on the first move of the game; otherwise the moves to go
   * are counted from where fullmove stands in the current period.
   */
  function MovesToGo(infinite: bool, fixed: bool, mps: int, mtg: int, fullmove: int): (r: int)
  {
    if infinite || fixed || mps == 0 then mtg
    else
      var inTc := CRem(fullmove, mps);
      if fullmove == 1 then mtg
      else if inTc == 1 then mps
      else if inTc == 0 then 1
      else mps - inTc + 1
  }

  /**
   * Past the first move of a game with a time control of mps > 0 moves,
   * there are between 1 and mps moves to go, and the period ends on the
   * move whose number is a multiple of mps: the first move of a period
   * gets the whole period, its last move gets one.
   */
  lemma MovesToGoEndsPeriod(mps: int, mtg: int, fullmove: int)
    requires mps > 0 && fullmove > 1
    ensures var r := MovesToGo(false, false, mps, mtg, fullmove);
      1 <= r <= mps && (fullmove + r - 1) % mps == 0 && r == mps - (fullmove - 1) % mps
  {
    var r := MovesToGo(false, false, mps, mtg, fullmove);
    var inTc := fullmove % mps;
    var q := fullmove / mps;
    assert CRem(fullmove, mps) == inTc;
    if inTc == 0 {
      assert r == 1;
      ModUnique(fullmove + r - 1, mps, q, 0);
      ModUnique(fullmove - 1, mps, q - 1, mps - 1);
    } else {
      assert r == mps - inTc + 1;
      ModUnique(fullmove + r - 1, mps, q + 1, 0);
      ModUnique(fullmove - 1, mps, q, inTc - 1);
    }
  }

  /** The remainder is the only value below the divisor that the quotient's multiple leaves over. */
  lemma ModUnique(a: int, m: int, q: int, k: int)
    requires m > 0 && 0 <= k < m && a == q * m + k
    ensures a % m == k
  {
    var q0, k0 := a / m, a % m;
    assert a == q0 * m + k0;
    assert (q - q0) * m == k0 - k by {
      assert (q - q0) * m == q * m - q0 * m;
    }
    if q - q0 >= 1 {
      assert (q - q0) * m >= m by { MulAtLeast(q - q0, m); }
    } else if q - q0 <= -1 {
      assert (q0 - q) * m >= m by {
        MulAtLeast(q0 - q, m);
        assert (q0 - q) * m == -((q - q0) * m);
      }
    }
  }

  lemma MulAtLeast(x: int, m: int)
    requires x >= 1 && m > 0
    ensures x * m >= m
  {
    assert x * m == (x - 1) * m + m;
  }

  /** Without a conventional time control, or on move 1, the count is left as it was. */
  lemma MovesToGoUnchanged(infinite: bool, fixed: bool, mps: int, mtg: int, fullmove: int)
    requires infinite || fixed || mps == 0 || fullmove == 1
    ensures MovesToGo(infinite, fixed, mps, mtg, fullmove) == mtg
  {
  }

  /** The time-control variables of the driver, which its commands update in place. */
  class TimeControl {
    var infiniteTime: bool
    var fixedTime: bool
    var movesPerTimeControl: int
    var movesToTimeControl: int

    /** The initial values of the statics: infinite time, no moves per control. */
    constructor ()
      ensures infiniteTime && !fixedTime && movesPerTimeControl == 0 && movesToTimeControl == 0
    {
      infiniteTime := true;
      fixedTime := false;
      movesPerTimeControl := 0;
      movesToTimeControl := 0;
    }

    /** update_moves_to_time_control for the position's fullmove number. */
    method UpdateMovesToTimeControl(fullmove: int)
      modifies this`movesToTimeControl
      ensures movesToTimeControl == MovesToGo(infiniteTime, fixedTime, movesPerTimeControl, old(movesToTimeControl), fullmove)
    {
      if infiniteTime || fixedTime || movesPerTimeControl == 0 {
        return;
      }
      var movesInTc := CRem(fullmove, movesPerTimeControl);
      if fullmove == 1 {
      } else if movesInTc == 1 {
        movesToTimeControl := movesPerTimeControl;
      } else if movesInTc == 0 {
        movesToTimeControl := 1;
      } else {
        movesToTimeControl := movesPerTimeControl - movesInTc + 1;
      }
    }
  }

  // ---- three-fold repetition ------------------------------------------------------

  /**
   * How many of the records idx, idx - 2, ... down to lo (and not below 0)
   * hold the key.
   */
  function Reps(h: seq<P.Unmake>, key: bv64, idx: int, lo: int): (n: nat)
    requires idx < |h|
    decreases idx
  {
    if idx < 0 || idx < lo then 0
    else (if h[idx].key == key then 1 else 0) + Reps(h, key, idx - 2, lo)
  }

  /**
   * is_three_fold_repetition on the history of a position at ply |h|: the
   * current position counts once, and so does every earlier record with the
   * same side to move and the same key since the last irreversible move.
   */
  predicate ThreeFold(h: seq<P.Unmake>, key: bv64, fifty: int)
  {
    1 + Reps(h, key, |h| - 2, |h| - fifty) >= 3
  }

  /** The records the scan from idx down to lo visits. */
  predicate Visited(idx: int, lo: int, j: int)
  {
    0 <= j <= idx && j >= lo && (idx - j) % 2 == 0
  }

  /** The records counted from idx are the visited ones holding the key: one of them, and two of them. */
  lemma {:induction false} RepsWitness(h: seq<P.Unmake>, key: bv64, idx: int, lo: int)
    requires idx < |h|
    ensures Reps(h, key, idx, lo) >= 1 <==> exists j :: Visited(idx, lo, j) && h[j].key == key
    ensures Reps(h, key, idx, lo) >= 2 <==>
      exists i, j :: Visited(idx, lo, i) && Visited(idx, lo, j) && i < j && h[i].key == key && h[j].key == key
    decreases idx
  {
    if idx < 0 || idx < lo {
      assert forall j :: !Visited(idx, lo, j);
    } else {
      RepsWitness(h, key, idx - 2, lo);
      assert forall j :: Visited(idx, lo, j) <==> j == idx || Visited(idx - 2, lo, j);
      if h[idx].key == key {
        if Reps(h, key, idx - 2, lo) >= 1 {
          var i :| Visited(idx - 2, lo, i) && h[i].key == key;
          assert Visited(idx, lo, i) && Visited(idx, lo, idx) && i < idx;
        }
        if exists i, j :: Visited(idx, lo, i) && Visited(idx, lo, j) && i < j && h[i].key == key && h[j].key == key {
          var i, j :| Visited(idx, lo, i) && Visited(idx, lo, j) && i < j && h[i].key == key && h[j].key == key;
          assert Visited(idx - 2, lo, i);
        }
      } else {
        if exists j :: Visited(idx, lo, j) && h[j].key == key {
          var j :| Visited(idx, lo, j) && h[j].key == key;
          assert Visited(idx - 2, lo, j);
        }
        if exists i, j :: Visited(idx, lo, i) && Visited(idx, lo, j) && i < j && h[i].key == key && h[j].key == key {
          var i, j :| Visited(idx, lo, i) && Visited(idx, lo, j) && i < j && h[i].key == key && h[j].key == key;
          assert Visited(idx - 2, lo, i) && Visited(idx - 2, lo, j);
        }
      }
    }
  }

  /**
   * Three-fold repetition holds exactly when two earlier positions with the
   * same side to move inside the fifty-move window have the current key.
   */
  lemma ThreeFoldSpec(h: seq<P.Unmake>, key: bv64, fifty: int)
    ensures ThreeFold(h, key, fifty) <==>
      exists i, j :: Visited(|h| - 2, |h| - fifty, i) && Visited(|h| - 2, |h| - fifty, j) && i < j &&
                     h[i].key == key && h[j].key == key
  {
    RepsWitness(h, key, |h| - 2, |h| - fifty);
  }

  /** A three-fold repetition is a repetition in the sense of pos_is_repetition. */
  lemma ThreeFoldRepeats(h: seq<P.Unmake>, key: bv64, fifty: int)
    requires ThreeFold(h, key, fifty)
    ensures P.Repeats(h, key, fifty)
  {
    RepsWitness(h, key, |h| - 2, |h| - fifty);
    var i, j :| Visited(|h| - 2, |h| - fifty, i) && Visited(|h| - 2, |h| - fifty, j) && i < j &&
                h[i].key == key && h[j].key == key;
    assert 0 <= j && j + 2 <= |h| && (|h| - j) % 2 == 0 && j >= |h| - fifty && h[j].key == key;
  }

  /** is_three_fold_repetition: every other record back to the last irreversible move, stopping at the third occurrence. */
  method IsThreeFoldRepetition(pos: PO.Position) returns (r: bool)
    requires pos.Shaped()
    ensures r == ThreeFold(pos.history[..pos.ply], pos.key, pos.fifty)
  {
    ghost var h := pos.history[..pos.ply];
    var nreps := 1;
    var idx := pos.ply - 2;
    while idx >= 0 && idx >= pos.ply - pos.fifty && nreps < 3
      invariant idx <= pos.ply - 2
      invariant nreps + Reps(h, pos.key, idx, pos.ply - pos.fifty) == 1 + Reps(h, pos.key, pos.ply - 2, pos.ply - pos.fifty)
      decreases idx + 2
    {
      if pos.history[idx].key == pos.key {
        assert h[idx] == pos.history[idx];
        nreps := nreps + 1;
      } else {
        assert h[idx] == pos.history[idx];
      }
      idx := idx - 2;
    }
    r := nreps >= 3;
  }

  // ---- end of game -----------------------------------------------------------------

  /** enum game_result. */
  datatype GameResult = Undetermined | Checkmate | Stalemate | DrawByRule

  /**
   * is_game_over from what it asks the rest of the engine: the number of
   * legal moves, whether the side to move is in check, the fifty-move
   * counter, the repetition test and the material-draw test.
   */
  function GameOver(legalMoves: nat, inCheck: bool, fifty: int, threeFold: bool, materialDraw: bool): (r: GameResult)
  {
    if legalMoves == 0 then (if inCheck then Checkmate else Stalemate)
    else if fifty > 100 || threeFold || materialDraw then DrawByRule
    else Undetermined
  }

  /**
   * Each verdict by its conditions: mate and stalemate need a position with
   * no legal move and take precedence over the draw rules, which need a
   * legal move; the game goes on only when nothing applies.
   */
  lemma GameOverCases(legalMoves: nat, inCheck: bool, fifty: int, threeFold: bool, materialDraw: bool)
    ensures var r := GameOver(legalMoves, inCheck, fifty, threeFold, materialDraw);
      (r == Checkmate <==> legalMoves == 0 && inCheck) &&
      (r == Stalemate <==> legalMoves == 0 && !inCheck) &&
      (r == DrawByRule <==> legalMoves > 0 && (fifty > 100 || threeFold || materialDraw)) &&
      (r == Undetermined <==> legalMoves > 0 && fifty <= 100 && !threeFold && !materialDraw)
  {
  }

  /**
   * is_game_over on a position object.  The legal move list (filled by
   * gen_legal_moves) and the in-check test are given; the repetition test
   * and the material test are the ones modelled here.
   */
  method IsGameOver(pos: PO.Position, legal: seq<nat>, inCheck: bool) returns (r: GameResult)
    requires pos.Shaped()
    ensures r == GameOver(|legal|, inCheck, pos.fifty,
      ThreeFold(pos.history[..pos.ply], pos.key, pos.fifty), E.MaterialDraw(pos.pieces[..]))
  {
    if |legal| == 0 {
      return if inCheck then Checkmate else Stalemate;
    }
    if pos.fifty > 100 {
      return DrawByRule;
    }
    var rep := IsThreeFoldRepetition(pos);
    if rep || E.MaterialDraw(pos.pieces[..]) {
      return DrawByRule;
    }
    return Undetermined;
  }
}
