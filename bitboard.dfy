/**
 * The bitboard move tables of src/bitboard.c.
 *
 * A uint64_t bitboard is modelled as the set of squares whose bit is set:
 * `|` is union, `&` intersection, `& ~x` difference, and a shift moves every
 * square by the shift amount and drops the squares pushed past bit 63 or
 * below bit 0.  The rook and bishop moves that the magic databases return
 * are modelled by what init_magic_databases stores in them: the union of
 * get_slider_moves over the piece's four directions.
 */
module Bitboard {
  import opened Types

  type Bitboard = set<int>

  predicate OnBoard(b: Bitboard)
  {
    forall s :: s in b ==> 0 <= s < NSQUARES
  }

  /** Square t holds the bit square t - n held before a left shift by n. */
  predicate ShiftedUp(b: Bitboard, n: nat, t: int)
  {
    t - n in b
  }

  /** Square t holds the bit square t + n held before a right shift by n. */
  predicate ShiftedDown(b: Bitboard, n: nat, t: int)
  {
    t + n in b
  }

  /** `b << n`: every square moves up by n; squares beyond bit 63 are lost. */
  function Shl(b: Bitboard, n: nat): (r: Bitboard)
    ensures OnBoard(r) && forall t :: t in r <==> 0 <= t < NSQUARES && t - n in b
  {
    set t | 0 <= t < NSQUARES && ShiftedUp(b, n, t)
  }

  /** `b >> n`: every square moves down by n; squares below bit 0 are lost. */
  function Shr(b: Bitboard, n: nat): (r: Bitboard)
    ensures OnBoard(r) && forall t :: t in r <==> 0 <= t < NSQUARES && t + n in b
  {
    set t | 0 <= t < NSQUARES && ShiftedDown(b, n, t)
  }

  /** file_mask[f]. */
  function FileMask(f: int): (r: Bitboard)
    ensures OnBoard(r) && forall s :: 0 <= s < NSQUARES ==> (s in r <==> FileNr(s) == f)
  {
    set s | 0 <= s < NSQUARES && FileNr(s) == f
  }

  /** rank_mask[r]. */
  function RankMask(r: int): (m: Bitboard)
    ensures OnBoard(m) && forall s :: 0 <= s < NSQUARES ==> (s in m <==> RankNr(s) == r)
  {
    set s | 0 <= s < NSQUARES && RankNr(s) == r
  }

  const FILE_A: int := 0
  const FILE_H: int := 7
  const RANK_1: int := 0
  const RANK_2: int := 1
  const RANK_3: int := 2
  const RANK_4: int := 3
  const RANK_5: int := 4
  const RANK_6: int := 5
  const RANK_7: int := 6
  const RANK_8: int := 7

  // ---- Set-wise pawn moves ------------------------------------------------

  /** bb_pawn_pushes: single pushes onto empty squares, and double pushes from them off the third (sixth) rank. */
  function PawnPushes(pawns: Bitboard, occ: Bitboard, side: Side): Bitboard
  {
    if side == WHITE then
      var push := Shl(pawns, 8) - occ;
      push + (Shl(push * RankMask(RANK_3), 8) - occ)
    else
      var push := Shr(pawns, 8) - occ;
      push + (Shr(push * RankMask(RANK_6), 8) - occ)
  }

  /**
   * A white pawn push lands on an empty square, either one rank up or two
   * ranks up from the second rank over an empty square; and every such
   * square is a push.
   */
  lemma PawnPushesWhite(pawns: Bitboard, occ: Bitboard, t: int)
    requires OnBoard(pawns) && 0 <= t < NSQUARES
    ensures t in PawnPushes(pawns, occ, WHITE) <==>
              t !in occ && (t - 8 in pawns || (RankNr(t) == RANK_4 && t - 16 in pawns && t - 8 !in occ))
  {
    if t >= 8 {
      assert RankNr(t - 8) == RankNr(t) - 1;
    }
  }

  /** The black pushes mirror the white ones: one rank down, or two from the seventh rank. */
  lemma PawnPushesBlack(pawns: Bitboard, occ: Bitboard, t: int)
    requires OnBoard(pawns) && 0 <= t < NSQUARES
    ensures t in PawnPushes(pawns, occ, BLACK) <==>
              t !in occ && (t + 8 in pawns || (RankNr(t) == RANK_5 && t + 16 in pawns && t + 8 !in occ))
  {
    if t + 8 < NSQUARES {
      assert RankNr(t + 8) == RankNr(t) + 1;
    }
  }

  /** bb_pawn_attacks: the squares diagonally in front of the pawns, with the a- and h-file pawns masked first. */
  function PawnAttacks(pawns: Bitboard, side: Side): Bitboard
  {
    if side == WHITE then
      Shl(pawns - FileMask(FILE_A), 7) + Shl(pawns - FileMask(FILE_H), 9)
    else
      Shr(pawns - FileMask(FILE_A), 9) + Shr(pawns - FileMask(FILE_H), 7)
  }

  /**
   * The attacks never wrap between the a- and h-files: a square is attacked
   * by white pawns exactly when a pawn stands one rank below it on an
   * adjacent file.
   */
  lemma PawnAttacksWhite(pawns: Bitboard, t: int)
    requires OnBoard(pawns) && 0 <= t < NSQUARES
    ensures t in PawnAttacks(pawns, WHITE) <==>
              (t - 7 in pawns && RankNr(t - 7) == RankNr(t) - 1 && FileNr(t - 7) == FileNr(t) + 1) ||
              (t - 9 in pawns && RankNr(t - 9) == RankNr(t) - 1 && FileNr(t - 9) == FileNr(t) - 1)
  {
  }

  lemma PawnAttacksBlack(pawns: Bitboard, t: int)
    requires OnBoard(pawns) && 0 <= t < NSQUARES
    ensures t in PawnAttacks(pawns, BLACK) <==>
              (t + 9 in pawns && RankNr(t + 9) == RankNr(t) + 1 && FileNr(t + 9) == FileNr(t) + 1) ||
              (t + 7 in pawns && RankNr(t + 7) == RankNr(t) + 1 && FileNr(t + 7) == FileNr(t) - 1)
  {
  }

  // ---- Sliders ------------------------------------------------------------

  /** The file k steps from f in direction d (-1, 0 or 1). */
  function Walk(f: int, d: int, k: nat): int
  {
    if d > 0 then f + k else if d < 0 then f - k else f
  }

  predicate Direction(fdir: int, rdir: int)
  {
    -1 <= fdir <= 1 && -1 <= rdir <= 1 && (fdir != 0 || rdir != 0)
  }

  /** The square k steps from sq along (fdir, rdir) is on the board. */
  predicate OnRay(sq: Square, fdir: int, rdir: int, k: nat)
  {
    !SquareOffBoard(Walk(FileNr(sq), fdir, k), Walk(RankNr(sq), rdir, k))
  }

  function RaySquare(sq: Square, fdir: int, rdir: int, k: nat): (t: Square)
    requires OnRay(sq, fdir, rdir, k)
  {
    SquareOf(Walk(FileNr(sq), fdir, k), Walk(RankNr(sq), rdir, k))
  }

  /** A ray leaves the board within eight steps. */
  lemma RayLength(sq: Square, fdir: int, rdir: int, k: nat)
    requires Direction(fdir, rdir) && OnRay(sq, fdir, rdir, k)
    ensures k <= 7
  {
  }

  /**
   * get_slider_moves from step k on: the squares along the ray up to and
   * including the first occupied one.
   */
  function Slide(sq: Square, fdir: int, rdir: int, occ: Bitboard, k: nat): Bitboard
    requires Direction(fdir, rdir)
    decreases 8 - k
  {
    if !OnRay(sq, fdir, rdir, k) then {}
    else
      RayLength(sq, fdir, rdir, k);
      var t := RaySquare(sq, fdir, rdir, k);
      {t} + (if t in occ then {} else Slide(sq, fdir, rdir, occ, k + 1))
  }

  function SliderMoves(sq: Square, fdir: int, rdir: int, occ: Bitboard): Bitboard
    requires Direction(fdir, rdir)
  {
    Slide(sq, fdir, rdir, occ, 1)
  }

  /** Every square of a slide is a ray square at or beyond step k. */
  lemma {:induction false} SlideOnRay(sq: Square, fdir: int, rdir: int, occ: Bitboard, k: nat, t: int)
    requires Direction(fdir, rdir) && t in Slide(sq, fdir, rdir, occ, k)
    ensures exists j :: k <= j <= 7 && OnRay(sq, fdir, rdir, j) && t == RaySquare(sq, fdir, rdir, j)
    decreases 8 - k
  {
    RayLength(sq, fdir, rdir, k);
    if t != RaySquare(sq, fdir, rdir, k) {
      SlideOnRay(sq, fdir, rdir, occ, k + 1, t);
    }
  }

  /** The ray square at step j belongs to the slide from step k exactly when no square before it is occupied. */
  lemma {:induction false} SlideReaches(sq: Square, fdir: int, rdir: int, occ: Bitboard, k: nat, j: nat)
    requires Direction(fdir, rdir) && k <= j && OnRay(sq, fdir, rdir, j)
    requires forall i :: k <= i < j ==> OnRay(sq, fdir, rdir, i)
    ensures RaySquare(sq, fdir, rdir, j) in Slide(sq, fdir, rdir, occ, k) <==>
              forall i :: k <= i < j ==> RaySquare(sq, fdir, rdir, i) !in occ
    decreases j - k
  {
    assert OnRay(sq, fdir, rdir, k);
    RayLength(sq, fdir, rdir, k);
    var s := RaySquare(sq, fdir, rdir, k);
    assert Slide(sq, fdir, rdir, occ, k) == {s} + (if s in occ then {} else Slide(sq, fdir, rdir, occ, k + 1));
    if k < j {
      RayInjective(sq, fdir, rdir, k, j);
      SlideReaches(sq, fdir, rdir, occ, k + 1, j);
    }
  }

  /** Distinct steps along a ray give distinct squares. */
  lemma RayInjective(sq: Square, fdir: int, rdir: int, i: nat, j: nat)
    requires Direction(fdir, rdir) && i < j && OnRay(sq, fdir, rdir, i) && OnRay(sq, fdir, rdir, j)
    ensures RaySquare(sq, fdir, rdir, i) != RaySquare(sq, fdir, rdir, j)
  {
    var a, b := RaySquare(sq, fdir, rdir, i), RaySquare(sq, fdir, rdir, j);
    assert FileNr(a) == Walk(FileNr(sq), fdir, i) && RankNr(a) == Walk(RankNr(sq), rdir, i);
    assert FileNr(b) == Walk(FileNr(sq), fdir, j) && RankNr(b) == Walk(RankNr(sq), rdir, j);
  }

  /** The squares between a board square and the edge along a ray are all on the board. */
  lemma RayPrefix(sq: Square, fdir: int, rdir: int, j: nat)
    requires Direction(fdir, rdir) && OnRay(sq, fdir, rdir, j)
    ensures forall i :: 0 <= i <= j ==> OnRay(sq, fdir, rdir, i)
  {
  }

  /** t is the ray square at step j, and every square before it along the ray is empty. */
  predicate Unblocked(sq: Square, fdir: int, rdir: int, occ: Bitboard, j: nat, t: int)
  {
    1 <= j <= 7 && OnRay(sq, fdir, rdir, j) && t == RaySquare(sq, fdir, rdir, j) &&
    forall i :: 1 <= i < j ==> RaySquare(sq, fdir, rdir, i) !in occ
  }

  /**
   * get_slider_moves holds the squares along the ray up to and including the
   * first occupied square, and nothing beyond it nor off the board.
   */
  lemma SliderMovesSpec(sq: Square, fdir: int, rdir: int, occ: Bitboard, t: int)
    requires Direction(fdir, rdir)
    ensures t in SliderMoves(sq, fdir, rdir, occ) <==> exists j :: Unblocked(sq, fdir, rdir, occ, j, t)
  {
    if t in SliderMoves(sq, fdir, rdir, occ) {
      SlideOnRay(sq, fdir, rdir, occ, 1, t);
      var j :| 1 <= j <= 7 && OnRay(sq, fdir, rdir, j) && t == RaySquare(sq, fdir, rdir, j);
      RayPrefix(sq, fdir, rdir, j);
      SlideReaches(sq, fdir, rdir, occ, 1, j);
      assert Unblocked(sq, fdir, rdir, occ, j, t);
    }
    if exists j :: Unblocked(sq, fdir, rdir, occ, j, t) {
      var j :| Unblocked(sq, fdir, rdir, occ, j, t);
      UnblockedReached(sq, fdir, rdir, occ, j, t);
    }
  }

  lemma UnblockedReached(sq: Square, fdir: int, rdir: int, occ: Bitboard, j: nat, t: int)
    requires Direction(fdir, rdir) && Unblocked(sq, fdir, rdir, occ, j, t)
    ensures t in SliderMoves(sq, fdir, rdir, occ)
  {
    RayPrefix(sq, fdir, rdir, j);
    SlideReaches(sq, fdir, rdir, occ, 1, j);
  }

  /** The walk of get_slider_moves from step k on, having collected `moves` so far. */
  function SlideFrom(sq: Square, fdir: int, rdir: int, occ: Bitboard, k: nat, moves: Bitboard): Bitboard
    requires Direction(fdir, rdir)
    decreases 8 - k
  {
    if !OnRay(sq, fdir, rdir, k) then moves
    else
      RayLength(sq, fdir, rdir, k);
      var t := RaySquare(sq, fdir, rdir, k);
      if t in occ then moves + {t} else SlideFrom(sq, fdir, rdir, occ, k + 1, moves + {t})
  }

  /** The walk adds exactly the slide to what it has collected. */
  lemma {:induction false} SlideFromAdds(sq: Square, fdir: int, rdir: int, occ: Bitboard, k: nat, moves: Bitboard)
    requires Direction(fdir, rdir)
    ensures SlideFrom(sq, fdir, rdir, occ, k, moves) == moves + Slide(sq, fdir, rdir, occ, k)
    decreases 8 - k
  {
    if OnRay(sq, fdir, rdir, k) {
      RayLength(sq, fdir, rdir, k);
      var t := RaySquare(sq, fdir, rdir, k);
      if t !in occ {
        SlideFromAdds(sq, fdir, rdir, occ, k + 1, moves + {t});
      }
    }
  }

  /** get_slider_moves: walk the ray, setting each square, and stop after the first occupied one. */
  method GetSliderMoves(sq: Square, fdir: int, rdir: int, occ: Bitboard) returns (moves: Bitboard)
    requires Direction(fdir, rdir)
    ensures moves == SliderMoves(sq, fdir, rdir, occ)
  {
    moves := {};
    var file := FileNr(sq) + fdir;
    var rank := RankNr(sq) + rdir;
    ghost var k: nat := 1;
    while !SquareOffBoard(file, rank)
      invariant 1 <= k <= 8
      invariant file == Walk(FileNr(sq), fdir, k) && rank == Walk(RankNr(sq), rdir, k)
      invariant SlideFrom(sq, fdir, rdir, occ, k, moves) == SlideFrom(sq, fdir, rdir, occ, 1, {})
      decreases 8 - k
    {
      assert OnRay(sq, fdir, rdir, k);
      RayLength(sq, fdir, rdir, k);
      var target := SquareOf(file, rank);
      assert target == RaySquare(sq, fdir, rdir, k);
      moves := moves + {target};
      if target in occ {
        break;
      }
      file := file + fdir;
      rank := rank + rdir;
      k := k + 1;
    }
    SlideFromAdds(sq, fdir, rdir, occ, 1, {});
  }

  /** The rook moves of bb_rook_moves: the four straight rays. */
  function RookMoves(occ: Bitboard, sq: Square): Bitboard
  {
    SliderMoves(sq, 1, 0, occ) + SliderMoves(sq, -1, 0, occ) + SliderMoves(sq, 0, 1, occ) + SliderMoves(sq, 0, -1, occ)
  }

  /** The bishop moves of bb_bishop_moves: the four diagonal rays. */
  function BishopMoves(occ: Bitboard, sq: Square): Bitboard
  {
    SliderMoves(sq, -1, 1, occ) + SliderMoves(sq, 1, 1, occ) + SliderMoves(sq, -1, -1, occ) + SliderMoves(sq, 1, -1, occ)
  }

  /** bb_queen_moves = rook moves | bishop moves. */
  function QueenMoves(occ: Bitboard, sq: Square): Bitboard
  {
    RookMoves(occ, sq) + BishopMoves(occ, sq)
  }

  // ---- Occupancy combinations ---------------------------------------------

  /** Bit k of a non-negative index: `index & (1 << k)`. */
  predicate BitSet(index: nat, k: nat)
  {
    if k == 0 then index % 2 == 1 else BitSet(index / 2, k - 1)
  }

  /** get_occupancy_combination as a value: the blockers whose bit is set in the index, among the first n. */
  function Occupancy(index: nat, occbits: seq<Bitboard>, n: nat): Bitboard
    requires n <= |occbits|
  {
    if n == 0 then {} else Occupancy(index, occbits, n - 1) + (if BitSet(index, n - 1) then occbits[n - 1] else {})
  }

  /**
   * The combination is the union of occbits[k] over the set bits k of the
   * index; index 0 gives the empty board.
   */
  lemma {:induction false} OccupancySpec(index: nat, occbits: seq<Bitboard>, n: nat, t: int)
    requires n <= |occbits|
    ensures t in Occupancy(index, occbits, n) <==> exists k :: 0 <= k < n && BitSet(index, k) && t in occbits[k]
  {
    if n > 0 {
      OccupancySpec(index, occbits, n - 1, t);
    }
  }

  lemma {:induction false} OccupancyZero(occbits: seq<Bitboard>, n: nat)
    requires n <= |occbits|
    ensures Occupancy(0, occbits, n) == {}
  {
    if n > 0 {
      OccupancyZero(occbits, n - 1);
      ZeroBits(n - 1);
    }
  }

  lemma {:induction false} ZeroBits(k: nat)
    ensures !BitSet(0, k)
  {
    if k > 0 {
      ZeroBits(k - 1);
    }
  }

  /** get_occupancy_combination: OR in the blockers whose bit is set in the index. */
  method GetOccupancyCombination(index: nat, occbits: seq<Bitboard>, nblockers: nat) returns (occ: Bitboard)
    requires nblockers <= |occbits|
    ensures occ == Occupancy(index, occbits, nblockers)
  {
    occ := {};
    var k := 0;
    while k < nblockers
      invariant 0 <= k <= nblockers
      invariant occ == Occupancy(index, occbits, k)
    {
      if BitSet(index, k) {
        occ := occ + occbits[k];
      }
      k := k + 1;
    }
  }

  // ---- Pawn tables --------------------------------------------------------

  /** The rank a pawn of the side moves towards: +1 for white, -1 for black. */
  function Forward(side: Side): int
  {
    if side == WHITE then 1 else -1
  }

  /** The rank a pawn of the side can never stand on: the first for white, the eighth for black. */
  function HomeRank(side: Side): int
  {
    if side == WHITE then RANK_1 else RANK_8
  }

  /** pawn_moves_table[sq][side]: one square forward, two from the starting rank; nothing from the first and last rank. */
  function PawnMovesFrom(sq: Square, side: Side): Bitboard
  {
    var rank := RankNr(sq);
    if rank == RANK_1 || rank == RANK_8 then {}
    else if side == WHITE then {sq + 8} + (if rank == RANK_2 then {sq + 16} else {})
    else {sq - 8} + (if rank == RANK_7 then {sq - 16} else {})
  }

  /** pawn_attacks_from_table[sq][side]: the squares a pawn on sq attacks. */
  function PawnAttacksFrom(sq: Square, side: Side): Bitboard
  {
    var rank, file := RankNr(sq), FileNr(sq);
    if rank == RANK_1 || rank == RANK_8 then {}
    else if side == WHITE then
      (if file != FILE_A then {sq + 7} else {}) + (if file != FILE_H then {sq + 9} else {})
    else
      (if file != FILE_A then {sq - 9} else {}) + (if file != FILE_H then {sq - 7} else {})
  }

  /** pawn_attacks_to_table[sq][side]: the squares from which a pawn of the side attacks sq. */
  function PawnAttacksTo(sq: Square, side: Side): Bitboard
  {
    var rank, file := RankNr(sq), FileNr(sq);
    if side == WHITE then
      if rank == RANK_1 then {}
      else (if file != FILE_A then {sq - 9} else {}) + (if file != FILE_H then {sq - 7} else {})
    else
      if rank == RANK_8 then {}
      else (if file != FILE_A then {sq + 7} else {}) + (if file != FILE_H then {sq + 9} else {})
  }

  /**
   * A pawn attacks the two squares diagonally in front of it that are on the
   * board, and a pawn on the first or last rank attacks nothing.
   */
  lemma PawnAttacksFromSpec(sq: Square, side: Side, t: int)
    ensures t in PawnAttacksFrom(sq, side) <==>
              0 <= t < NSQUARES && RankNr(sq) != RANK_1 && RankNr(sq) != RANK_8 &&
              RankNr(t) == RankNr(sq) + Forward(side) &&
              (FileNr(t) == FileNr(sq) - 1 || FileNr(t) == FileNr(sq) + 1)
  {
  }

  /** The two pawn attack tables are converse relations, for a pawn off the rank it can never stand on. */
  lemma PawnAttacksConverse(sq: Square, pawn: Square, side: Side)
    requires RankNr(pawn) != HomeRank(side)
    ensures pawn in PawnAttacksTo(sq, side) <==> sq in PawnAttacksFrom(pawn, side)
  {
  }

  /** bb_pawn_moves: the table moves onto empty squares, a double step only over an empty square. */
  function PawnMoves(occ: Bitboard, from: Square, side: Side): Bitboard
  {
    var moves := PawnMovesFrom(from, side) - occ;
    var rank := RankNr(from);
    if side == WHITE && rank == RANK_2 then moves - Shl(RankMask(RANK_3) * occ, 8)
    else if side == BLACK && rank == RANK_7 then moves - Shr(RankMask(RANK_6) * occ, 8)
    else moves
  }

  /**
   * A pawn moves one square forward onto an empty square, or two from its
   * starting rank when both squares are empty; from the first or last rank
   * it has no moves.
   */
  lemma PawnMovesSpec(occ: Bitboard, from: Square, side: Side, t: int)
    ensures t in PawnMoves(occ, from, side) <==>
              t !in occ && RankNr(from) != RANK_1 && RankNr(from) != RANK_8 &&
              (t == from + 8 * Forward(side) ||
               (RankNr(from) == (if side == WHITE then RANK_2 else RANK_7) &&
                t == from + 16 * Forward(side) && from + 8 * Forward(side) !in occ))
  {
    if side == WHITE && RankNr(from) == RANK_2 {
      assert RankNr(from + 8) == RANK_3;
    } else if side == BLACK && RankNr(from) == RANK_7 {
      assert RankNr(from - 8) == RANK_6;
    }
  }

  /** bb_pawn_moves_to: the squares a pawn of the side would push from to reach `to`. */
  function PawnMovesTo(occ: Bitboard, to: Square, side: Side): Bitboard
  {
    var rank := RankNr(to);
    if side == WHITE then
      (if rank > RANK_2 then {to - 8} else {}) + (if rank == RANK_4 && to - 8 !in occ then {to - 16} else {})
    else
      (if rank < RANK_7 then {to + 8} else {}) + (if rank == RANK_5 && to + 8 !in occ then {to + 16} else {})
  }

  /** Onto an empty square, bb_pawn_moves_to is the converse of bb_pawn_moves. */
  lemma PawnMovesConverse(occ: Bitboard, from: Square, to: Square, side: Side)
    requires to !in occ
    ensures from in PawnMovesTo(occ, to, side) <==> to in PawnMoves(occ, from, side)
  {
    PawnMovesSpec(occ, from, side, to);
  }

  /** precalc_pawn_moves: fill the three pawn tables, white squares first, then black. */
  method PrecalcPawnMoves(moves: array2<Bitboard>, attacksFrom: array2<Bitboard>, attacksTo: array2<Bitboard>)
    requires moves.Length0 == NSQUARES && moves.Length1 == 2
    requires attacksFrom.Length0 == NSQUARES && attacksFrom.Length1 == 2
    requires attacksTo.Length0 == NSQUARES && attacksTo.Length1 == 2
    requires moves != attacksFrom && moves != attacksTo && attacksFrom != attacksTo
    modifies moves, attacksFrom, attacksTo
    ensures forall sq: Square, side: Side ::
              moves[sq, side] == PawnMovesFrom(sq, side) && attacksFrom[sq, side] == PawnAttacksFrom(sq, side) &&
              attacksTo[sq, side] == PawnAttacksTo(sq, side)
  {
    for side := WHITE to BLACK + 1
      invariant forall sq: Square, s: Side :: s < side ==> moves[sq, s] == PawnMovesFrom(sq, s)
      invariant forall sq: Square, s: Side :: s < side ==> attacksFrom[sq, s] == PawnAttacksFrom(sq, s)
      invariant forall sq: Square, s: Side :: s < side ==> attacksTo[sq, s] == PawnAttacksTo(sq, s)
    {
      for sq := 0 to NSQUARES
        invariant forall q: Square, s: Side :: s < side || (s == side && q < sq) ==> moves[q, s] == PawnMovesFrom(q, s)
        invariant forall q: Square, s: Side :: s < side || (s == side && q < sq) ==> attacksFrom[q, s] == PawnAttacksFrom(q, s)
        invariant forall q: Square, s: Side :: s < side || (s == side && q < sq) ==> attacksTo[q, s] == PawnAttacksTo(q, s)
      {
        var m, f, t := PawnEntry(sq, side);
        moves[sq, side], attacksFrom[sq, side], attacksTo[sq, side] := m, f, t;
      }
    }
  }

  /** One iteration of precalc_pawn_moves: clear the cells, then set the bits the square's rank and file allow. */
  method PawnEntry(sq: Square, side: Side) returns (moves: Bitboard, attacksFrom: Bitboard, attacksTo: Bitboard)
    ensures moves == PawnMovesFrom(sq, side) && attacksFrom == PawnAttacksFrom(sq, side)
    ensures attacksTo == PawnAttacksTo(sq, side)
  {
    var rank, file := RankNr(sq), FileNr(sq);
    moves, attacksFrom, attacksTo := {}, {}, {};
    var dir := Forward(side);
    var first, last, start := HomeRank(side), HomeRank(1 - side), if side == WHITE then RANK_2 else RANK_7;
    if rank == first {
      return;
    } else if rank == last {
      if file != FILE_A {
        attacksTo := attacksTo + {sq - 8 * dir - 1};
      }
      if file != FILE_H {
        attacksTo := attacksTo + {sq - 8 * dir + 1};
      }
      return;
    }
    if file != FILE_A {
      attacksTo := attacksTo + {sq - 8 * dir - 1};
      attacksFrom := attacksFrom + {sq + 8 * dir - 1};
    }
    if file != FILE_H {
      attacksTo := attacksTo + {sq - 8 * dir + 1};
      attacksFrom := attacksFrom + {sq + 8 * dir + 1};
    }
    moves := moves + {sq + 8 * dir};
    if rank == start {
      moves := moves + {sq + 16 * dir};
    }
  }

  // ---- King and knight tables ---------------------------------------------

  const KING_FILE_OFFSETS: seq<int> := [1, 1, 0, -1, -1, -1, 0, 1]
  const KING_RANK_OFFSETS: seq<int> := [0, -1, -1, -1, 0, 1, 1, 1]
  const KNIGHT_FILE_OFFSETS: seq<int> := [2, 1, -1, -2, -2, -1, 1, 2]
  const KNIGHT_RANK_OFFSETS: seq<int> := [-1, -2, -2, -1, 1, 2, 2, 1]

  /** The on-board squares reached from sq by the first n (file, rank) offsets. */
  function Jumps(sq: Square, df: seq<int>, dr: seq<int>, n: nat): Bitboard
    requires n <= |df| && n <= |dr|
  {
    if n == 0 then {}
    else
      var file, rank := FileNr(sq) + df[n - 1], RankNr(sq) + dr[n - 1];
      Jumps(sq, df, dr, n - 1) + (if SquareOffBoard(file, rank) then {} else {SquareOf(file, rank)})
  }

  /** A square is reached when one of the first n offsets lands on it. */
  lemma {:induction false} JumpsSpec(sq: Square, df: seq<int>, dr: seq<int>, n: nat, t: int)
    requires n <= |df| && n <= |dr|
    ensures t in Jumps(sq, df, dr, n) <==>
              0 <= t < NSQUARES && exists i :: 0 <= i < n && FileNr(t) == FileNr(sq) + df[i] && RankNr(t) == RankNr(sq) + dr[i]
  {
    if n > 0 {
      JumpsSpec(sq, df, dr, n - 1, t);
      if 0 <= t < NSQUARES && FileNr(t) == FileNr(sq) + df[n - 1] && RankNr(t) == RankNr(sq) + dr[n - 1] {
        SquareRoundTrip(t);
      }
    }
  }

  /** king_moves_table[sq]. */
  function KingTargets(sq: Square): Bitboard
  {
    Jumps(sq, KING_FILE_OFFSETS, KING_RANK_OFFSETS, 8)
  }

  /** knight_moves_table[sq]. */
  function KnightTargets(sq: Square): Bitboard
  {
    Jumps(sq, KNIGHT_FILE_OFFSETS, KNIGHT_RANK_OFFSETS, 8)
  }

  /** The king steps to every other square at most one file and one rank away. */
  lemma KingTargetsSpec(sq: Square, t: int)
    ensures t in KingTargets(sq) <==>
              0 <= t < NSQUARES && t != sq && -1 <= FileNr(t) - FileNr(sq) <= 1 && -1 <= RankNr(t) - RankNr(sq) <= 1
  {
    JumpsSpec(sq, KING_FILE_OFFSETS, KING_RANK_OFFSETS, 8, t);
    if 0 <= t < NSQUARES {
      var df, dr := FileNr(t) - FileNr(sq), RankNr(t) - RankNr(sq);
      if t != sq && -1 <= df <= 1 && -1 <= dr <= 1 {
        var i := KingOffsetIndex(df, dr);
        assert FileNr(t) == FileNr(sq) + KING_FILE_OFFSETS[i] && RankNr(t) == RankNr(sq) + KING_RANK_OFFSETS[i];
      }
      if t == sq {
        SquareRoundTrip(t);
        SquareRoundTrip(sq);
      }
    }
  }

  /** The offset index of precalc_king_moves for a one-square step. */
  function KingOffsetIndex(df: int, dr: int): (i: nat)
    requires -1 <= df <= 1 && -1 <= dr <= 1 && (df != 0 || dr != 0)
    ensures i < 8 && KING_FILE_OFFSETS[i] == df && KING_RANK_OFFSETS[i] == dr
  {
    if dr == -1 then 2 - df
    else if dr == 0 then (if df == 1 then 0 else 4)
    else 6 + df
  }

  /** The knight jumps to every square two files and one rank, or one file and two ranks, away. */
  lemma KnightTargetsSpec(sq: Square, t: int)
    ensures t in KnightTargets(sq) <==>
              0 <= t < NSQUARES && KnightJump(FileNr(t) - FileNr(sq), RankNr(t) - RankNr(sq))
  {
    JumpsSpec(sq, KNIGHT_FILE_OFFSETS, KNIGHT_RANK_OFFSETS, 8, t);
    if 0 <= t < NSQUARES {
      var df, dr := FileNr(t) - FileNr(sq), RankNr(t) - RankNr(sq);
      if KnightJump(df, dr) {
        var i := KnightOffsetIndex(df, dr);
        assert FileNr(t) == FileNr(sq) + KNIGHT_FILE_OFFSETS[i] && RankNr(t) == RankNr(sq) + KNIGHT_RANK_OFFSETS[i];
      }
    }
  }

  predicate KnightJump(df: int, dr: int)
  {
    ((df == 1 || df == -1) && (dr == 2 || dr == -2)) || ((df == 2 || df == -2) && (dr == 1 || dr == -1))
  }

  /** The offset index of precalc_knight_moves for a knight jump. */
  function KnightOffsetIndex(df: int, dr: int): (i: nat)
    requires KnightJump(df, dr)
    ensures i < 8 && KNIGHT_FILE_OFFSETS[i] == df && KNIGHT_RANK_OFFSETS[i] == dr
  {
    if dr == -1 then (if df == 2 then 0 else 3)
    else if dr == -2 then (if df == 1 then 1 else 2)
    else if dr == 1 then (if df == -2 then 4 else 7)
    else (if df == -1 then 5 else 6)
  }

  /** A king on t attacks sq exactly when a king on sq attacks t; likewise for knights. */
  lemma SteppersSymmetric(sq: Square, t: Square)
    ensures t in KingTargets(sq) <==> sq in KingTargets(t)
    ensures t in KnightTargets(sq) <==> sq in KnightTargets(t)
  {
    KingTargetsSpec(sq, t);
    KingTargetsSpec(t, sq);
    KnightTargetsSpec(sq, t);
    KnightTargetsSpec(t, sq);
  }

  /** precalc_king_moves and precalc_knight_moves: for every square, set the target of each on-board offset. */
  method PrecalcJumps(table: array<Bitboard>, df: seq<int>, dr: seq<int>)
    requires table.Length == NSQUARES && |df| == 8 && |dr| == 8
    modifies table
    ensures forall sq: Square :: table[sq] == Jumps(sq, df, dr, 8)
  {
    for sq := 0 to NSQUARES
      invariant forall q: Square :: q < sq ==> table[q] == Jumps(q, df, dr, 8)
    {
      table[sq] := {};
      for ray := 0 to 8
        invariant table[sq] == Jumps(sq, df, dr, ray)
        invariant forall q: Square :: q < sq ==> table[q] == Jumps(q, df, dr, 8)
      {
        var file := FileNr(sq) + df[ray];
        var rank := RankNr(sq) + dr[ray];
        if file > -1 && file < 8 && rank > -1 && rank < 8 {
          table[sq] := table[sq] + {SquareOf(file, rank)};
        }
      }
    }
  }

  // ---- Attacks ------------------------------------------------------------

  /** Walking j steps along a ray and i back along the reversed ray lands j - i steps out. */
  lemma RayReverse(sq: Square, fdir: int, rdir: int, j: nat, i: nat)
    requires Direction(fdir, rdir) && OnRay(sq, fdir, rdir, j) && i <= j
    ensures Direction(-fdir, -rdir) && OnRay(RaySquare(sq, fdir, rdir, j), -fdir, -rdir, i)
    ensures OnRay(sq, fdir, rdir, j - i)
    ensures RaySquare(RaySquare(sq, fdir, rdir, j), -fdir, -rdir, i) == RaySquare(sq, fdir, rdir, j - i)
  {
    RayPrefix(sq, fdir, rdir, j);
    var t := RaySquare(sq, fdir, rdir, j);
    assert FileNr(t) == Walk(FileNr(sq), fdir, j) && RankNr(t) == Walk(RankNr(sq), rdir, j);
  }

  /**
   * A slider on t reaches sq along a ray exactly when one on sq reaches t
   * along the opposite ray: the squares between them are the same.
   */
  lemma SliderSymmetric(sq: Square, fdir: int, rdir: int, occ: Bitboard, t: Square, bf: int, br: int)
    requires Direction(fdir, rdir) && bf == -fdir && br == -rdir
    ensures Direction(bf, br) && (t in SliderMoves(sq, fdir, rdir, occ) ==> sq in SliderMoves(t, bf, br, occ))
  {
    if t in SliderMoves(sq, fdir, rdir, occ) {
      var j := SliderStep(sq, fdir, rdir, occ, t);
      ReversedUnblocked(sq, fdir, rdir, occ, j, t, bf, br);
      UnblockedReached(t, bf, br, occ, j, sq);
    }
  }

  /** The step along the ray at which a slider move lies. */
  lemma SliderStep(sq: Square, fdir: int, rdir: int, occ: Bitboard, t: Square) returns (j: nat)
    requires Direction(fdir, rdir) && t in SliderMoves(sq, fdir, rdir, occ)
    ensures 1 <= j <= 7 && OnRay(sq, fdir, rdir, j) && t == RaySquare(sq, fdir, rdir, j)
    ensures Unblocked(sq, fdir, rdir, occ, j, t)
  {
    SliderMovesSpec(sq, fdir, rdir, occ, t);
    j :| Unblocked(sq, fdir, rdir, occ, j, t);
  }

  lemma ReversedUnblocked(sq: Square, fdir: int, rdir: int, occ: Bitboard, j: nat, t: Square, bf: int, br: int)
    requires Direction(fdir, rdir) && Unblocked(sq, fdir, rdir, occ, j, t) && bf == -fdir && br == -rdir
    ensures Direction(bf, br) && Unblocked(t, bf, br, occ, j, sq)
  {
    RayReverse(sq, fdir, rdir, j, j);
    forall i | 1 <= i < j
      ensures OnRay(t, bf, br, i) && RaySquare(t, bf, br, i) !in occ
    {
      RayReverse(sq, fdir, rdir, j, i);
      assert RaySquare(sq, fdir, rdir, j - i) !in occ;
    }
  }

  /** A rook on t reaches sq exactly when a rook on sq reaches t. */
  lemma RookSymmetric(occ: Bitboard, sq: Square, t: Square)
    ensures t in RookMoves(occ, sq) ==> sq in RookMoves(occ, t)
  {
    SliderSymmetric(sq, 1, 0, occ, t, -1, 0);
    SliderSymmetric(sq, -1, 0, occ, t, 1, 0);
    SliderSymmetric(sq, 0, 1, occ, t, 0, -1);
    SliderSymmetric(sq, 0, -1, occ, t, 0, 1);
  }

  /** A bishop on t reaches sq exactly when a bishop on sq reaches t. */
  lemma BishopSymmetric(occ: Bitboard, sq: Square, t: Square)
    ensures t in BishopMoves(occ, sq) ==> sq in BishopMoves(occ, t)
  {
    SliderSymmetric(sq, -1, 1, occ, t, 1, -1);
    SliderSymmetric(sq, 1, 1, occ, t, -1, -1);
    SliderSymmetric(sq, -1, -1, occ, t, 1, 1);
    SliderSymmetric(sq, 1, -1, occ, t, -1, 1);
  }

  /** bb_moves_for_piece: the moves table or generator of the piece's type. */
  function MovesForPiece(occ: Bitboard, from: Square, piece: Cell): Bitboard
    requires piece < NO_PIECE
  {
    var v := Value(piece);
    if v == PAWN then PawnMoves(occ, from, Color(piece))
    else if v == KNIGHT then KnightTargets(from)
    else if v == BISHOP then BishopMoves(occ, from)
    else if v == ROOK then RookMoves(occ, from)
    else if v == QUEEN then QueenMoves(occ, from)
    else KingTargets(from)
  }

  /** The twelve piece bitboards of a position, indexed by piece, all on the board. */
  predicate PieceBoards(bb: seq<Bitboard>)
  {
    |bb| == NPIECES && forall k :: 0 <= k < NPIECES ==> OnBoard(bb[k])
  }

  /** bb_attacks_to: the pieces of the side that attack `to`, looked up from `to`'s side. */
  function AttacksTo(bb: seq<Bitboard>, occ: Bitboard, to: Square, side: Side): Bitboard
    requires PieceBoards(bb)
  {
    (KingTargets(to) * bb[side + KING]) + (QueenMoves(occ, to) * bb[side + QUEEN]) +
    (RookMoves(occ, to) * bb[side + ROOK]) + (BishopMoves(occ, to) * bb[side + BISHOP]) +
    (KnightTargets(to) * bb[side + KNIGHT]) + (PawnAttacksTo(to, side) * bb[side + PAWN])
  }

  /** The piece of the side on t attacks `to` by its own moves. */
  predicate Attacks(bb: seq<Bitboard>, occ: Bitboard, t: Square, to: Square, side: Side)
    requires PieceBoards(bb)
  {
    (t in bb[side + KING] && to in KingTargets(t)) ||
    (t in bb[side + QUEEN] && to in QueenMoves(occ, t)) ||
    (t in bb[side + ROOK] && to in RookMoves(occ, t)) ||
    (t in bb[side + BISHOP] && to in BishopMoves(occ, t)) ||
    (t in bb[side + KNIGHT] && to in KnightTargets(t)) ||
    (t in bb[side + PAWN] && to in PawnAttacksFrom(t, side))
  }

  /** No pawn of the side stands on the rank it can never reach. */
  predicate PawnsOffHomeRank(bb: seq<Bitboard>, side: Side)
    requires PieceBoards(bb)
  {
    forall p :: p in bb[side + PAWN] ==> 0 <= p < NSQUARES && RankNr(p) != HomeRank(side)
  }

  /**
   * Looking from the attacked square finds exactly the pieces whose own moves
   * reach it: the king, knight, pawn and slider tables are symmetric.
   */
  lemma AttacksToSpec(bb: seq<Bitboard>, occ: Bitboard, to: Square, side: Side, t: Square)
    requires PieceBoards(bb) && PawnsOffHomeRank(bb, side)
    ensures t in AttacksTo(bb, occ, to, side) <==> Attacks(bb, occ, t, to, side)
  {
    SteppersSymmetric(to, t);
    SlidersSymmetric(occ, to, t);
    if t in bb[side + PAWN] {
      PawnAttacksConverse(to, t, side);
    }
    var k, q, r, b, n, p := side + KING, side + QUEEN, side + ROOK, side + BISHOP, side + KNIGHT, side + PAWN;
    UnionOfParts(KingTargets(to) * bb[k], QueenMoves(occ, to) * bb[q], RookMoves(occ, to) * bb[r],
                 BishopMoves(occ, to) * bb[b], KnightTargets(to) * bb[n], PawnAttacksTo(to, side) * bb[p], t,
                 t in bb[k] && to in KingTargets(t), t in bb[q] && to in QueenMoves(occ, t),
                 t in bb[r] && to in RookMoves(occ, t), t in bb[b] && to in BishopMoves(occ, t),
                 t in bb[n] && to in KnightTargets(t), t in bb[p] && to in PawnAttacksFrom(t, side));
  }

  lemma UnionOfParts(a1: Bitboard, a2: Bitboard, a3: Bitboard, a4: Bitboard, a5: Bitboard, a6: Bitboard, x: int,
                     p1: bool, p2: bool, p3: bool, p4: bool, p5: bool, p6: bool)
    requires (x in a1 <==> p1) && (x in a2 <==> p2) && (x in a3 <==> p3)
    requires (x in a4 <==> p4) && (x in a5 <==> p5) && (x in a6 <==> p6)
    ensures x in a1 + a2 + a3 + a4 + a5 + a6 <==> p1 || p2 || p3 || p4 || p5 || p6
  {
  }

  /** Rook, bishop and queen moves are symmetric relations between squares. */
  lemma SlidersSymmetric(occ: Bitboard, sq: Square, t: Square)
    ensures t in RookMoves(occ, sq) <==> sq in RookMoves(occ, t)
    ensures t in BishopMoves(occ, sq) <==> sq in BishopMoves(occ, t)
    ensures t in QueenMoves(occ, sq) <==> sq in QueenMoves(occ, t)
  {
    RookSymmetric(occ, sq, t);
    RookSymmetric(occ, t, sq);
    BishopSymmetric(occ, sq, t);
    BishopSymmetric(occ, t, sq);
  }

  /** bb_is_attacked: some piece of the side attacks the square, with the board's own occupancy. */
  predicate IsAttacked(bb: seq<Bitboard>, occ: Bitboard, sq: Square, side: Side)
    requires PieceBoards(bb)
  {
    AttacksTo(bb, occ, sq, side) != {}
  }

  /** A square is attacked when some piece of the side reaches it with its own moves ... */
  lemma AttackerAttacks(bb: seq<Bitboard>, occ: Bitboard, sq: Square, side: Side, t: Square)
    requires PieceBoards(bb) && PawnsOffHomeRank(bb, side) && Attacks(bb, occ, t, sq, side)
    ensures IsAttacked(bb, occ, sq, side)
  {
    AttacksToSpec(bb, occ, sq, side, t);
  }

  /** ... and only then: an attacked square has such a piece. */
  lemma AttackedHasAttacker(bb: seq<Bitboard>, occ: Bitboard, sq: Square, side: Side) returns (t: Square)
    requires PieceBoards(bb) && PawnsOffHomeRank(bb, side) && IsAttacked(bb, occ, sq, side)
    ensures Attacks(bb, occ, t, sq, side)
  {
    var x := Pick(AttacksTo(bb, occ, sq, side));
    AttackersOnBoard(bb, occ, sq, side);
    t := x;
    AttacksToSpec(bb, occ, sq, side, t);
  }

  /** Every attacker stands on one of the side's piece bitboards, so on the board. */
  lemma AttackersOnBoard(bb: seq<Bitboard>, occ: Bitboard, sq: Square, side: Side)
    requires PieceBoards(bb)
    ensures OnBoard(AttacksTo(bb, occ, sq, side))
  {
    assert OnBoard(bb[side + KING]) && OnBoard(bb[side + QUEEN]) && OnBoard(bb[side + ROOK]);
    assert OnBoard(bb[side + BISHOP]) && OnBoard(bb[side + KNIGHT]) && OnBoard(bb[side + PAWN]);
    MaskedOnBoard(KingTargets(sq), bb[side + KING], QueenMoves(occ, sq), bb[side + QUEEN], RookMoves(occ, sq), bb[side + ROOK],
                  BishopMoves(occ, sq), bb[side + BISHOP], KnightTargets(sq), bb[side + KNIGHT],
                  PawnAttacksTo(sq, side), bb[side + PAWN]);
  }

  lemma MaskedOnBoard(a1: Bitboard, b1: Bitboard, a2: Bitboard, b2: Bitboard, a3: Bitboard, b3: Bitboard,
                      a4: Bitboard, b4: Bitboard, a5: Bitboard, b5: Bitboard, a6: Bitboard, b6: Bitboard)
    requires OnBoard(b1) && OnBoard(b2) && OnBoard(b3) && OnBoard(b4) && OnBoard(b5) && OnBoard(b6)
    ensures OnBoard(a1 * b1 + a2 * b2 + a3 * b3 + a4 * b4 + a5 * b5 + a6 * b6)
  {
  }

  /** Some member of a non-empty bitboard. */
  lemma Pick(b: Bitboard) returns (x: int)
    requires b != {}
    ensures x in b
  {
    if forall y :: y !in b {
      assert false;
    }
    x :| x in b;
  }
}
