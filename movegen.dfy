/**
 * The move generator of src/movegen.c: the move list the generators append
 * to, add_moves and add_promotion_moves, which turn a target bitboard into
 * moves in the order POPBIT takes the bits (lowest square first), the
 * per-piece generators, en-passant captures, castling, gen_moves and
 * gen_legal_moves, which keeps the generated moves pos_make_move accepts.
 */
module Movegen {
  import opened Types
  import opened Bitboard
  import opened Key
  import P = Position
  import PO = PositionObject

  // ---- the order POPBIT visits a bitboard ------------------------------------

  /** The squares of b from i up, lowest first. */
  function Ascending(b: Bitboard, i: nat): (r: seq<Square>)
    requires i <= NSQUARES
    ensures forall x :: x in r <==> x in b && i <= x < NSQUARES
    decreases NSQUARES - i
  {
    if i == NSQUARES then []
    else if i in b then [i] + Ascending(b, i + 1)
    else Ascending(b, i + 1)
  }

  /** The squares of b from i up, as a set. */
  function Above(b: Bitboard, i: nat): set<int>
  {
    set x | x in b && i <= x < NSQUARES
  }

  /** Ascending lists each square once: as many entries as the bitboard has squares from i up. */
  lemma {:induction false} AscendingCount(b: Bitboard, i: nat)
    requires i <= NSQUARES
    ensures |Ascending(b, i)| == |Above(b, i)|
    decreases NSQUARES - i
  {
    if i < NSQUARES {
      AscendingCount(b, i + 1);
      if i in b {
        assert Above(b, i) == Above(b, i + 1) + {i};
      } else {
        assert Above(b, i) == Above(b, i + 1);
      }
    } else {
      assert Above(b, i) == {};
    }
  }

  /** A bitboard of board squares has one entry in Ascending per square. */
  lemma AscendingLength(b: Bitboard)
    requires OnBoard(b)
    ensures |Ascending(b, 0)| == |b|
  {
    AscendingCount(b, 0);
    assert Above(b, 0) == b;
  }

  /** Ascending only looks at the squares from i up. */
  lemma {:induction false} AscendingAgree(a: Bitboard, b: Bitboard, i: nat)
    requires i <= NSQUARES
    requires forall x :: i <= x < NSQUARES ==> (x in a <==> x in b)
    ensures Ascending(a, i) == Ascending(b, i)
    decreases NSQUARES - i
  {
    if i < NSQUARES {
      AscendingAgree(a, b, i + 1);
    }
  }

  /** Squares below the lowest one can be skipped. */
  lemma {:induction false} AscendingSkip(b: Bitboard, i: nat, j: nat)
    requires i <= j <= NSQUARES
    requires forall x :: i <= x < j ==> x !in b
    ensures Ascending(b, i) == Ascending(b, j)
    decreases j - i
  {
    if i < j {
      AscendingSkip(b, i + 1, j);
    }
  }

  /** POPBIT: the lowest square of a non-empty bitboard comes first, and the rest follow in order. */
  lemma PopLowest(b: Bitboard)
    requires OnBoard(b) && b != {}
    ensures var l := P.LowestSquare(b, 0);
      l < NSQUARES && l in b && Ascending(b, 0) == [l] + Ascending(b - {l}, 0)
  {
    var x :| x in b;
    var l := P.LowestSquare(b, 0);
    assert l <= x;
    AscendingSkip(b, 0, l);
    AscendingSkip(b - {l}, 0, l + 1);
    AscendingAgree(b - {l}, b, l + 1);
  }

  // ---- the move list -----------------------------------------------------------

  /** struct movelist: a fixed array of MAX_MOVES moves and the number in use. */
  class MoveList {
    const moves: array<nat>
    var size: nat

    predicate Valid()
      reads this
    {
      moves.Length == MAX_MOVES && size <= MAX_MOVES
    }

    /** The moves in the list. */
    function Contents(): seq<nat>
      reads this, moves
      requires Valid()
    {
      moves[..size]
    }

    constructor ()
      ensures Valid() && Contents() == [] && fresh(moves)
    {
      moves := new nat[MAX_MOVES](_ => NOMOVE);
      size := 0;
    }

    /** list->size = 0. */
    method Clear()
      requires Valid()
      modifies this
      ensures Valid() && Contents() == []
    {
      size := 0;
    }

    lemma ContentsAt(k: nat)
      requires Valid() && k < size
      ensures Contents()[k] == moves[k]
    {
    }

    /** ADD_MOVE: the move goes in the next free slot. */
    method Add(m: nat)
      requires Valid() && size < MAX_MOVES
      modifies this, moves
      ensures Valid() && Contents() == old(Contents()) + [m]
    {
      moves[size] := m;
      size := size + 1;
    }
  }

  // ---- add_moves and add_promotion_moves ------------------------------------------

  /** The moves from one square to each of the targets, in order. */
  function MovesTo(from: Square, tos: seq<Square>, promotion: int, flags: int): (r: seq<nat>)
    requires 0 <= promotion < 16 && 0 <= flags < 64
    ensures |r| == |tos|
    ensures forall i :: 0 <= i < |r| ==> r[i] == MoveOf(from, tos[i], promotion, flags)
  {
    if tos == [] then [] else [MoveOf(from, tos[0], promotion, flags)] + MovesTo(from, tos[1..], promotion, flags)
  }

  /** The moves from each of the sources to one square, in order. */
  function MovesFrom(froms: seq<Square>, to: Square, promotion: int, flags: int): (r: seq<nat>)
    requires 0 <= promotion < 16 && 0 <= flags < 64
    ensures |r| == |froms|
    ensures forall i :: 0 <= i < |r| ==> r[i] == MoveOf(froms[i], to, promotion, flags)
  {
    if froms == [] then [] else [MoveOf(froms[0], to, promotion, flags)] + MovesFrom(froms[1..], to, promotion, flags)
  }

  lemma MovesToCons(from: Square, to: Square, tail: seq<Square>, promotion: int, flags: int)
    requires 0 <= promotion < 16 && 0 <= flags < 64
    ensures MovesTo(from, [to] + tail, promotion, flags) == [MoveOf(from, to, promotion, flags)] + MovesTo(from, tail, promotion, flags)
  {
    assert ([to] + tail)[1..] == tail;
  }

  lemma MovesFromCons(from: Square, to: Square, tail: seq<Square>, promotion: int, flags: int)
    requires 0 <= promotion < 16 && 0 <= flags < 64
    ensures MovesFrom([from] + tail, to, promotion, flags) == [MoveOf(from, to, promotion, flags)] + MovesFrom(tail, to, promotion, flags)
  {
    assert ([from] + tail)[1..] == tail;
  }

  /** Appending a move to the list and dropping it from the head of what is still to come leave the total alone. */
  lemma Shift(done: seq<nat>, m: nat, todo: seq<nat>)
    ensures done + ([m] + todo) == (done + [m]) + todo
  {
  }

  /** An empty bitboard lists nothing. */
  lemma AscendingEmpty(b: Bitboard)
    requires b == {}
    ensures Ascending(b, 0) == []
  {
    if Ascending(b, 0) != [] {
      assert Ascending(b, 0)[0] in Ascending(b, 0);
    }
  }

  /** At most two squares fit in a subset of two. */
  lemma AtMostTwo(s: set<int>, a: int, b: int)
    requires s <= {a, b}
    ensures |s| <= 2
  {
    assert s == (if a in s then {a} else {}) + (if b in s then {b} else {});
  }

  /**
   * add_moves: one move per set bit of the target bitboard, lowest square
   * first, from `from`, with no promotion and the given flags.
   */
  method AddMoves(list: MoveList, from: Square, targets: Bitboard, flags: int)
    requires list.Valid() && OnBoard(targets) && 0 <= flags < 64
    requires list.size + |targets| <= MAX_MOVES
    modifies list, list.moves
    ensures list.Valid() && list.Contents() == old(list.Contents()) + MovesTo(from, Ascending(targets, 0), NO_PIECE, flags)
  {
    ghost var whole := list.Contents() + MovesTo(from, Ascending(targets, 0), NO_PIECE, flags);
    var rest := targets;
    while rest != {}
      invariant list.Valid() && OnBoard(rest) && list.size + |rest| <= MAX_MOVES
      invariant whole == list.Contents() + MovesTo(from, Ascending(rest, 0), NO_PIECE, flags)
      decreases |rest|
    {
      TargetStep(whole, list.Contents(), from, rest, flags);
      var to := P.LowestSquare(rest, 0);
      rest := rest - {to};
      list.Add(MoveOf(from, to, NO_PIECE, flags));
    }
    AscendingEmpty(rest);
  }

  /** One turn of add_moves' loop: the move onto the lowest target leaves what is still to come for the next. */
  lemma TargetStep(whole: seq<nat>, done: seq<nat>, from: Square, rest: Bitboard, flags: int)
    requires OnBoard(rest) && rest != {} && 0 <= flags < 64
    requires whole == done + MovesTo(from, Ascending(rest, 0), NO_PIECE, flags)
    ensures var to := P.LowestSquare(rest, 0);
      to < NSQUARES && to in rest && |rest - {to}| == |rest| - 1 &&
      whole == (done + [MoveOf(from, to, NO_PIECE, flags)]) + MovesTo(from, Ascending(rest - {to}, 0), NO_PIECE, flags)
  {
    PopLowest(rest);
    var to := P.LowestSquare(rest, 0);
    MovesToCons(from, to, Ascending(rest - {to}, 0), NO_PIECE, flags);
    Shift(done, MoveOf(from, to, NO_PIECE, flags), MovesTo(from, Ascending(rest - {to}, 0), NO_PIECE, flags));
  }

  /** What add_moves appends: exactly one move per target square, each with the given from square and flags. */
  lemma AddMovesSpec(from: Square, targets: Bitboard, flags: int, m: nat)
    requires OnBoard(targets) && 0 <= flags < 64
    ensures |MovesTo(from, Ascending(targets, 0), NO_PIECE, flags)| == |targets|
    ensures m in MovesTo(from, Ascending(targets, 0), NO_PIECE, flags) <==>
              From(m) == from && To(m) in targets && Promotion(m) == NO_PIECE && MoveType(m) == flags && m < 0x40_0000
  {
    AscendingLength(targets);
    var r := MovesTo(from, Ascending(targets, 0), NO_PIECE, flags);
    if From(m) == from && To(m) in targets && Promotion(m) == NO_PIECE && MoveType(m) == flags && m < 0x40_0000 {
      var tos := Ascending(targets, 0);
      var i :| 0 <= i < |tos| && tos[i] == To(m);
      MoveRoundTrip(m);
      assert r[i] == m;
    }
  }

  /** The four promotion pieces add_promotion_moves tries, queen first, or the queen alone. */
  function PromotionPieces(stm: Side, underpromote: bool): (r: seq<int>)
    ensures |r| == (if underpromote then 4 else 1)
    ensures forall i :: 0 <= i < |r| ==> 0 <= r[i] < NPIECES && Color(r[i]) == stm && Value(r[i]) != PAWN && Value(r[i]) != KING
  {
    if underpromote then [QUEEN + stm, ROOK + stm, BISHOP + stm, KNIGHT + stm] else [QUEEN + stm]
  }

  /** The promotions of one pawn move onto `to`, one per promotion piece. */
  function PromotionsOnto(from: Square, to: Square, pieces: seq<int>, flags: int): (r: seq<nat>)
    requires forall i :: 0 <= i < |pieces| ==> 0 <= pieces[i] < 16
    requires 0 <= flags < 64
    ensures |r| == |pieces|
    ensures forall i :: 0 <= i < |r| ==> r[i] == MoveOf(from, to, pieces[i], flags)
  {
    if pieces == [] then [] else [MoveOf(from, to, pieces[0], flags)] + PromotionsOnto(from, to, pieces[1..], flags)
  }

  /** The promotion moves from one square to each of the targets in order. */
  function PromotionsTo(from: Square, tos: seq<Square>, stm: Side, flags: int, underpromote: bool): (r: seq<nat>)
    requires 0 <= flags < 64
    ensures |r| == (if underpromote then 4 * |tos| else |tos|)
  {
    if tos == [] then []
    else PromotionsOnto(from, tos[0], PromotionPieces(stm, underpromote), flags) +
         PromotionsTo(from, tos[1..], stm, flags, underpromote)
  }

  /**
   * The promotions of each target square sit in a block of one or four
   * moves: the block of the i-th target holds the i-th promotion piece at
   * offset k.
   */
  lemma {:induction false} PromotionsToBlock(from: Square, tos: seq<Square>, stm: Side, flags: int, underpromote: bool, i: nat, k: nat)
    requires 0 <= flags < 64
    requires i < |tos| && k < |PromotionPieces(stm, underpromote)|
    ensures var r := PromotionsTo(from, tos, stm, flags, underpromote);
      var j := if underpromote then 4 * i + k else i;
      j < |r| && r[j] == MoveOf(from, tos[i], PromotionPieces(stm, underpromote)[k], flags)
  {
    var pieces := PromotionPieces(stm, underpromote);
    var r := PromotionsTo(from, tos, stm, flags, underpromote);
    var head := PromotionsOnto(from, tos[0], pieces, flags);
    var tail := PromotionsTo(from, tos[1..], stm, flags, underpromote);
    assert r == head + tail;
    if i > 0 {
      PromotionsToBlock(from, tos[1..], stm, flags, underpromote, i - 1, k);
      var j := if underpromote then 4 * (i - 1) + k else i - 1;
      assert r[|head| + j] == tail[j];
    }
  }

  lemma PromotionsToCons(from: Square, to: Square, tail: seq<Square>, stm: Side, flags: int, underpromote: bool)
    requires 0 <= flags < 64
    ensures PromotionsTo(from, [to] + tail, stm, flags, underpromote) ==
      [MoveOf(from, to, QUEEN + stm, flags)] +
      (if underpromote then [MoveOf(from, to, ROOK + stm, flags), MoveOf(from, to, BISHOP + stm, flags), MoveOf(from, to, KNIGHT + stm, flags)] else []) +
      PromotionsTo(from, tail, stm, flags, underpromote)
  {
    assert ([to] + tail)[1..] == tail;
    var head := PromotionsOnto(from, to, PromotionPieces(stm, underpromote), flags);
    if underpromote {
      assert head == [MoveOf(from, to, QUEEN + stm, flags), MoveOf(from, to, ROOK + stm, flags), MoveOf(from, to, BISHOP + stm, flags), MoveOf(from, to, KNIGHT + stm, flags)];
    } else {
      assert head == [MoveOf(from, to, QUEEN + stm, flags)];
    }
  }

  /**
   * add_promotion_moves: for each target, lowest first, the queen
   * promotion, followed by the rook, bishop and knight promotions when
   * underpromotions are asked for.
   */
  method AddPromotionMoves(list: MoveList, stm: Side, from: Square, targets: Bitboard, flags: int, underpromote: bool)
    requires list.Valid() && OnBoard(targets) && 0 <= flags < 64
    requires list.size + (if underpromote then 4 * |targets| else |targets|) <= MAX_MOVES
    modifies list, list.moves
    ensures list.Valid() &&
      list.Contents() == old(list.Contents()) + PromotionsTo(from, Ascending(targets, 0), stm, flags, underpromote)
  {
    var rest := targets;
    while rest != {}
      invariant list.Valid() && OnBoard(rest) && list.size + (if underpromote then 4 * |rest| else |rest|) <= MAX_MOVES
      invariant old(list.Contents()) + PromotionsTo(from, Ascending(targets, 0), stm, flags, underpromote) ==
                list.Contents() + PromotionsTo(from, Ascending(rest, 0), stm, flags, underpromote)
      decreases |rest|
    {
      var to := P.LowestSquare(rest, 0);
      PromotionsToLowest(from, rest, stm, flags, underpromote);
      ShiftBlock(list.Contents(), PromotionsOnto(from, to, PromotionPieces(stm, underpromote), flags),
                 PromotionsTo(from, Ascending(rest - {to}, 0), stm, flags, underpromote));
      rest := rest - {to};
      AddPromotionsOnto(list, stm, from, to, flags, underpromote);
    }
    AscendingEmpty(rest);
  }

  /** The promotions onto a non-empty set of targets start with those onto its lowest square. */
  lemma PromotionsToLowest(from: Square, b: Bitboard, stm: Side, flags: int, underpromote: bool)
    requires OnBoard(b) && b != {} && 0 <= flags < 64
    ensures var l := P.LowestSquare(b, 0);
      l < NSQUARES && l in b &&
      PromotionsTo(from, Ascending(b, 0), stm, flags, underpromote) ==
      PromotionsOnto(from, l, PromotionPieces(stm, underpromote), flags) +
      PromotionsTo(from, Ascending(b - {l}, 0), stm, flags, underpromote)
  {
    PopLowest(b);
    var l := P.LowestSquare(b, 0);
    assert Ascending(b, 0)[1..] == Ascending(b - {l}, 0);
  }

  lemma ShiftBlock(done: seq<nat>, block: seq<nat>, todo: seq<nat>)
    ensures done + (block + todo) == (done + block) + todo
  {
  }

  /** The body of add_promotion_moves' loop: the queen promotion onto one target, then the underpromotions if asked for. */
  method AddPromotionsOnto(list: MoveList, stm: Side, from: Square, to: Square, flags: int, underpromote: bool)
    requires list.Valid() && 0 <= flags < 64 && list.size + (if underpromote then 4 else 1) <= MAX_MOVES
    modifies list, list.moves
    ensures list.Valid()
    ensures list.Contents() == old(list.Contents()) + PromotionsOnto(from, to, PromotionPieces(stm, underpromote), flags)
  {
    list.Add(MoveOf(from, to, QUEEN + stm, flags));
    if underpromote {
      list.Add(MoveOf(from, to, ROOK + stm, flags));
      list.Add(MoveOf(from, to, BISHOP + stm, flags));
      list.Add(MoveOf(from, to, KNIGHT + stm, flags));
    }
  }

  // ---- en passant -------------------------------------------------------------------

  /** The pawns of the side to move that can take en passant onto epSq: beside the pawn that moved two squares. */
  function EpCapturers(epSq: int, stm: Side, pawns: Bitboard): Bitboard
    requires A1 + 8 <= epSq < A8
  {
    var pawnPos := epSq + (if stm == WHITE then -8 else 8);
    var file := FileNr(epSq);
    ((if file != FILE_A then {pawnPos - 1} else {}) + (if file != FILE_H then {pawnPos + 1} else {})) * pawns
  }

  /** The capturers stand on board squares, at most two of them. */
  lemma EpCapturersBounds(epSq: int, stm: Side, pawns: Bitboard)
    requires A1 + 8 <= epSq < A8
    ensures OnBoard(EpCapturers(epSq, stm, pawns)) && |EpCapturers(epSq, stm, pawns)| <= 2
  {
    var pawnPos := epSq + (if stm == WHITE then -8 else 8);
    var file := FileNr(epSq);
    assert file != FILE_A ==> 0 <= pawnPos - 1;
    assert file != FILE_H ==> pawnPos + 1 < NSQUARES;
    AtMostTwo(EpCapturers(epSq, stm, pawns), pawnPos - 1, pawnPos + 1);
  }

  /** What gen_en_passant_moves adds: nothing without an ep square, else a capture onto it from each capturer. */
  function EnPassantMoves(epSq: int, stm: Side, pawns: Bitboard): seq<nat>
    requires epSq == NO_SQUARE || A1 + 8 <= epSq < A8
  {
    if epSq == NO_SQUARE then []
    else MovesFrom(Ascending(EpCapturers(epSq, stm, pawns), 0), epSq, NO_PIECE, EN_PASSANT)
  }

  /**
   * The en-passant captures are made by pawns of the side to move that
   * stand on the rank of the pawn that just moved two squares, on a file
   * next to the ep square; every such pawn gets one.
   */
  lemma EnPassantSpec(epSq: int, stm: Side, pawns: Bitboard, c: int)
    requires A1 + 8 <= epSq < A8
    ensures c in EpCapturers(epSq, stm, pawns) <==>
              c in pawns && 0 <= c < NSQUARES &&
              RankNr(c) == RankNr(epSq) - Forward(stm) &&
              (FileNr(c) == FileNr(epSq) - 1 || FileNr(c) == FileNr(epSq) + 1)
  {
  }

  /** Without an ep square no en-passant capture is generated; with one, each is an EN_PASSANT move onto it. */
  lemma EnPassantMovesShape(epSq: int, stm: Side, pawns: Bitboard)
    requires epSq == NO_SQUARE || A1 + 8 <= epSq < A8
    ensures epSq == NO_SQUARE ==> EnPassantMoves(epSq, stm, pawns) == []
    ensures forall m :: m in EnPassantMoves(epSq, stm, pawns) ==>
              To(m) == epSq && MoveType(m) == EN_PASSANT && From(m) in EpCapturers(epSq, stm, pawns)
    ensures |EnPassantMoves(epSq, stm, pawns)| <= 2
  {
    if epSq != NO_SQUARE {
      var cs := EpCapturers(epSq, stm, pawns);
      EpCapturersBounds(epSq, stm, pawns);
      AscendingLength(cs);
    }
  }

  /** gen_en_passant_moves: the capturers are looked up beside the pawn that moved two squares. */
  method GenEnPassantMoves(list: MoveList, epSq: int, stm: Side, pawns: Bitboard)
    requires epSq == NO_SQUARE || A1 + 8 <= epSq < A8
    requires list.Valid() && list.size + |EnPassantMoves(epSq, stm, pawns)| <= MAX_MOVES
    modifies list, list.moves
    ensures list.Valid() && list.Contents() == old(list.Contents()) + EnPassantMoves(epSq, stm, pawns)
  {
    if epSq == NO_SQUARE {
      return;
    }
    var pieces := EpCapturerSquares(epSq, stm, pawns);
    EpCapturersBounds(epSq, stm, pawns);
    AscendingLength(pieces);
    AddCaptures(list, pieces, epSq, EN_PASSANT);
  }

  /** The pawns gen_en_passant_moves finds on the files next to the ep square, on the rank of the pawn that moved. */
  method EpCapturerSquares(epSq: int, stm: Side, pawns: Bitboard) returns (pieces: Bitboard)
    requires A1 + 8 <= epSq < A8
    ensures pieces == EpCapturers(epSq, stm, pawns)
  {
    var file := FileNr(epSq);
    var offset := if stm == WHITE then -8 else 8;
    var pawnPos := epSq + offset;
    var left: Bitboard := if file != FILE_A then {pawnPos - 1} else {};
    var right: Bitboard := if file != FILE_H then {pawnPos + 1} else {};
    pieces := (left + right) * pawns;
  }

  /** gen_en_passant_moves' loop: one move per capturer, lowest square first, onto the same square. */
  method AddCaptures(list: MoveList, froms: Bitboard, to: Square, flags: int)
    requires list.Valid() && OnBoard(froms) && 0 <= flags < 64
    requires list.size + |froms| <= MAX_MOVES
    modifies list, list.moves
    ensures list.Valid() && list.Contents() == old(list.Contents()) + MovesFrom(Ascending(froms, 0), to, NO_PIECE, flags)
  {
    ghost var whole := list.Contents() + MovesFrom(Ascending(froms, 0), to, NO_PIECE, flags);
    var rest := froms;
    while rest != {}
      invariant list.Valid() && OnBoard(rest) && list.size + |rest| <= MAX_MOVES
      invariant whole == list.Contents() + MovesFrom(Ascending(rest, 0), to, NO_PIECE, flags)
      decreases |rest|
    {
      CaptureStep(whole, list.Contents(), rest, to, flags);
      var from := P.LowestSquare(rest, 0);
      rest := rest - {from};
      list.Add(MoveOf(from, to, NO_PIECE, flags));
    }
    AscendingEmpty(rest);
  }

  /** One turn of AddCaptures' loop: the lowest capturer's move leaves what is still to come for the next. */
  lemma CaptureStep(whole: seq<nat>, done: seq<nat>, rest: Bitboard, to: Square, flags: int)
    requires OnBoard(rest) && rest != {} && 0 <= flags < 64
    requires whole == done + MovesFrom(Ascending(rest, 0), to, NO_PIECE, flags)
    ensures var from := P.LowestSquare(rest, 0);
      from < NSQUARES && from in rest && |rest - {from}| == |rest| - 1 &&
      whole == (done + [MoveOf(from, to, NO_PIECE, flags)]) + MovesFrom(Ascending(rest - {from}, 0), to, NO_PIECE, flags)
  {
    PopLowest(rest);
    var from := P.LowestSquare(rest, 0);
    MovesFromCons(from, to, Ascending(rest - {from}, 0), NO_PIECE, flags);
    Shift(done, MoveOf(from, to, NO_PIECE, flags), MovesFrom(Ascending(rest - {from}, 0), to, NO_PIECE, flags));
  }

  // ---- the per-piece generators ----------------------------------------------------

  /**
   * The generators gen_quiet_moves, gen_capture_moves and gen_promotion_moves
   * call: each takes its pieces from a source bitboard, one by one lowest
   * first, and adds the moves to a target bitboard masked by the caller.
   */
  datatype Gen = Knights | Diagonals | Straights | Kings | PawnPushes | PawnCaptures | Promotions | CapturePromotions

  /** The rank the side's pawns promote from. */
  function PromotionRank(stm: Side): int
  {
    if stm == WHITE then RANK_7 else RANK_2
  }

  /** The pieces a generator moves: bishops and queens slide diagonally, rooks and queens straight, pawns split by rank. */
  function Sources(g: Gen, bb: seq<Bitboard>, stm: Side): (r: Bitboard)
    requires PieceBoards(bb)
    ensures OnBoard(r)
  {
    match g
    case Knights => bb[KNIGHT + stm]
    case Diagonals => bb[BISHOP + stm] + bb[QUEEN + stm]
    case Straights => bb[ROOK + stm] + bb[QUEEN + stm]
    case Kings => bb[KING + stm]
    case PawnPushes => bb[PAWN + stm] - RankMask(PromotionRank(stm))
    case PawnCaptures => bb[PAWN + stm] - RankMask(PromotionRank(stm))
    case Promotions => bb[PAWN + stm] * RankMask(PromotionRank(stm))
    case CapturePromotions => bb[PAWN + stm] * RankMask(PromotionRank(stm))
  }

  /** The squares a piece of the generator on sq reaches before masking. */
  function Targets(g: Gen, occ: Bitboard, stm: Side, sq: Square): Bitboard
  {
    match g
    case Knights => KnightTargets(sq)
    case Diagonals => BishopMoves(occ, sq)
    case Straights => RookMoves(occ, sq)
    case Kings => KingTargets(sq)
    case PawnPushes => PawnMoves(occ, sq, stm)
    case PawnCaptures => PawnAttacksFrom(sq, stm)
    case Promotions => PawnMoves(occ, sq, stm)
    case CapturePromotions => PawnAttacksFrom(sq, stm)
  }

  /** ~bb_all: the empty squares. */
  function EmptySquares(occ: Bitboard): (r: Bitboard)
    ensures OnBoard(r) && forall s :: 0 <= s < NSQUARES ==> (s in r <==> s !in occ)
  {
    set s | 0 <= s < NSQUARES && s !in occ
  }

  /** The moves a generator adds for its piece on sq: promotions for the pawns on the seventh rank, plain moves otherwise. */
  function SquareMoves(g: Gen, occ: Bitboard, stm: Side, sq: Square, mask: Bitboard, flags: int, underpromote: bool): (r: seq<nat>)
    requires OnBoard(mask) && 0 <= flags < 64
  {
    var tos := Ascending(Targets(g, occ, stm, sq) * mask, 0);
    if g.Promotions? || g.CapturePromotions? then PromotionsTo(sq, tos, stm, flags, underpromote)
    else MovesTo(sq, tos, NO_PIECE, flags)
  }

  /** The moves a generator adds for pieces on each of the squares in order. */
  function GenFrom(g: Gen, occ: Bitboard, stm: Side, froms: seq<Square>, mask: Bitboard, flags: int, underpromote: bool): seq<nat>
    requires OnBoard(mask) && 0 <= flags < 64
  {
    if froms == [] then []
    else SquareMoves(g, occ, stm, froms[0], mask, flags, underpromote) + GenFrom(g, occ, stm, froms[1..], mask, flags, underpromote)
  }

  /** The generator's moves from a non-empty source set start with those of its lowest square. */
  lemma GenFromLowest(g: Gen, occ: Bitboard, stm: Side, b: Bitboard, mask: Bitboard, flags: int, underpromote: bool)
    requires OnBoard(b) && b != {} && OnBoard(mask) && 0 <= flags < 64
    ensures var l := P.LowestSquare(b, 0);
      l < NSQUARES && l in b &&
      GenFrom(g, occ, stm, Ascending(b, 0), mask, flags, underpromote) ==
      SquareMoves(g, occ, stm, l, mask, flags, underpromote) + GenFrom(g, occ, stm, Ascending(b - {l}, 0), mask, flags, underpromote)
  {
    PopLowest(b);
    var l := P.LowestSquare(b, 0);
    assert Ascending(b, 0)[1..] == Ascending(b - {l}, 0);
  }

  /** One move per masked target, or one or four per target for a promoting pawn. */
  lemma SquareMovesLength(g: Gen, occ: Bitboard, stm: Side, sq: Square, mask: Bitboard, flags: int, underpromote: bool)
    requires OnBoard(mask) && 0 <= flags < 64
    ensures var n := |Targets(g, occ, stm, sq) * mask|;
      |SquareMoves(g, occ, stm, sq, mask, flags, underpromote)| ==
      (if (g.Promotions? || g.CapturePromotions?) && underpromote then 4 * n else n)
  {
    AscendingLength(Targets(g, occ, stm, sq) * mask);
  }

  /**
   * gen_knight_moves, gen_diagonal_slider_moves, gen_straight_slider_moves,
   * gen_king_moves, gen_pawn_moves, gen_pawn_captures, gen_promotions and
   * gen_capture_promotions: for each source square, lowest first,
   * add_moves or add_promotion_moves on its masked targets.
   */
  method GenPieceMoves(list: MoveList, g: Gen, bb: seq<Bitboard>, occ: Bitboard, stm: Side, mask: Bitboard, flags: int, underpromote: bool)
    requires list.Valid() && PieceBoards(bb) && OnBoard(mask) && 0 <= flags < 64
    requires list.size + |GenFrom(g, occ, stm, Ascending(Sources(g, bb, stm), 0), mask, flags, underpromote)| <= MAX_MOVES
    modifies list, list.moves
    ensures list.Valid() &&
      list.Contents() == old(list.Contents()) + GenFrom(g, occ, stm, Ascending(Sources(g, bb, stm), 0), mask, flags, underpromote)
  {
    var rest := Sources(g, bb, stm);
    while rest != {}
      invariant list.Valid() && OnBoard(rest)
      invariant list.size + |GenFrom(g, occ, stm, Ascending(rest, 0), mask, flags, underpromote)| <= MAX_MOVES
      invariant old(list.Contents()) + GenFrom(g, occ, stm, Ascending(Sources(g, bb, stm), 0), mask, flags, underpromote) ==
                list.Contents() + GenFrom(g, occ, stm, Ascending(rest, 0), mask, flags, underpromote)
      decreases |rest|
    {
      var sq := P.LowestSquare(rest, 0);
      GenFromLowest(g, occ, stm, rest, mask, flags, underpromote);
      ShiftBlock(list.Contents(), SquareMoves(g, occ, stm, sq, mask, flags, underpromote),
                 GenFrom(g, occ, stm, Ascending(rest - {sq}, 0), mask, flags, underpromote));
      SquareMovesLength(g, occ, stm, sq, mask, flags, underpromote);
      rest := rest - {sq};
      AddSquareMoves(list, g, occ, stm, sq, mask, flags, underpromote);
    }
    AscendingEmpty(rest);
  }

  /** The body of the generators' loops: add_moves, or add_promotion_moves for the promoting pawns. */
  method AddSquareMoves(list: MoveList, g: Gen, occ: Bitboard, stm: Side, sq: Square, mask: Bitboard, flags: int, underpromote: bool)
    requires list.Valid() && OnBoard(mask) && 0 <= flags < 64
    requires list.size + |SquareMoves(g, occ, stm, sq, mask, flags, underpromote)| <= MAX_MOVES
    modifies list, list.moves
    ensures list.Valid() && list.Contents() == old(list.Contents()) + SquareMoves(g, occ, stm, sq, mask, flags, underpromote)
  {
    var targets := Targets(g, occ, stm, sq) * mask;
    SquareMovesLength(g, occ, stm, sq, mask, flags, underpromote);
    if g.Promotions? || g.CapturePromotions? {
      AddPromotionMoves(list, stm, sq, targets, flags, underpromote);
    } else {
      AddMoves(list, sq, targets, flags);
    }
  }

  /** m is among a generator's moves from the squares exactly when it is among the moves of one of them. */
  lemma {:induction false} GenFromMember(g: Gen, occ: Bitboard, stm: Side, froms: seq<Square>, mask: Bitboard, flags: int, underpromote: bool, m: nat)
    requires OnBoard(mask) && 0 <= flags < 64
    ensures m in GenFrom(g, occ, stm, froms, mask, flags, underpromote) <==>
            exists i :: 0 <= i < |froms| && m in SquareMoves(g, occ, stm, froms[i], mask, flags, underpromote)
  {
    if froms != [] {
      GenFromMember(g, occ, stm, froms[1..], mask, flags, underpromote, m);
      if m in GenFrom(g, occ, stm, froms[1..], mask, flags, underpromote) {
        var i :| 0 <= i < |froms[1..]| && m in SquareMoves(g, occ, stm, froms[1..][i], mask, flags, underpromote);
        assert froms[1..][i] == froms[i + 1];
      }
      if exists i :: 0 <= i < |froms| && m in SquareMoves(g, occ, stm, froms[i], mask, flags, underpromote) {
        var i :| 0 <= i < |froms| && m in SquareMoves(g, occ, stm, froms[i], mask, flags, underpromote);
        if i > 0 {
          assert froms[1..][i - 1] == froms[i];
        }
      }
    }
  }

  /** m is a promotion onto one of the squares exactly when it goes there and names one of the promotion pieces. */
  lemma {:induction false} PromotionsToMember(from: Square, tos: seq<Square>, stm: Side, flags: int, underpromote: bool, m: nat)
    requires 0 <= flags < 64
    ensures m in PromotionsTo(from, tos, stm, flags, underpromote) <==>
            exists i, k :: 0 <= i < |tos| && 0 <= k < |PromotionPieces(stm, underpromote)| &&
                           m == MoveOf(from, tos[i], PromotionPieces(stm, underpromote)[k], flags)
  {
    var pieces := PromotionPieces(stm, underpromote);
    if tos != [] {
      PromotionsToMember(from, tos[1..], stm, flags, underpromote, m);
      var head := PromotionsOnto(from, tos[0], pieces, flags);
      if m in head {
        var k :| 0 <= k < |head| && head[k] == m;
        assert tos[0] == tos[0];
      }
      if m in PromotionsTo(from, tos[1..], stm, flags, underpromote) {
        var i, k :| 0 <= i < |tos[1..]| && 0 <= k < |pieces| && m == MoveOf(from, tos[1..][i], pieces[k], flags);
        assert tos[1..][i] == tos[i + 1];
      }
      if exists i, k :: 0 <= i < |tos| && 0 <= k < |pieces| && m == MoveOf(from, tos[i], pieces[k], flags) {
        var i, k :| 0 <= i < |tos| && 0 <= k < |pieces| && m == MoveOf(from, tos[i], pieces[k], flags);
        if i == 0 {
          assert head[k] == m;
        } else {
          assert tos[1..][i - 1] == tos[i];
        }
      }
    }
  }

  /**
   * Every move a generator adds starts on one of its pieces, lands on a
   * masked target of that piece and carries the generator's flags; plain
   * moves have no promotion piece, pawn promotions a queen, rook, bishop or
   * knight of the mover's colour.
   */
  lemma GenMoveShape(g: Gen, bb: seq<Bitboard>, occ: Bitboard, stm: Side, mask: Bitboard, flags: int, underpromote: bool, m: nat)
    requires PieceBoards(bb) && OnBoard(mask) && 0 <= flags < 64
    requires m in GenAll(g, bb, occ, stm, mask, flags, underpromote)
    ensures From(m) in Sources(g, bb, stm) && To(m) in Targets(g, occ, stm, From(m)) && To(m) in mask && MoveType(m) == flags
    ensures if g.Promotions? || g.CapturePromotions? then Promotion(m) in PromotionPieces(stm, underpromote)
            else Promotion(m) == NO_PIECE
  {
    var froms := Ascending(Sources(g, bb, stm), 0);
    GenFromMember(g, occ, stm, froms, mask, flags, underpromote, m);
    var i :| 0 <= i < |froms| && m in SquareMoves(g, occ, stm, froms[i], mask, flags, underpromote);
    assert froms[i] in froms;
    SquareMoveShape(g, occ, stm, froms[i], mask, flags, underpromote, m);
  }

  /** A move a generator adds for the piece on sq starts there, lands on a masked target and carries the flags. */
  lemma SquareMoveShape(g: Gen, occ: Bitboard, stm: Side, sq: Square, mask: Bitboard, flags: int, underpromote: bool, m: nat)
    requires OnBoard(mask) && 0 <= flags < 64
    requires m in SquareMoves(g, occ, stm, sq, mask, flags, underpromote)
    ensures From(m) == sq && To(m) in Targets(g, occ, stm, sq) && To(m) in mask && MoveType(m) == flags
    ensures if g.Promotions? || g.CapturePromotions? then Promotion(m) in PromotionPieces(stm, underpromote)
            else Promotion(m) == NO_PIECE
  {
    var tos := Ascending(Targets(g, occ, stm, sq) * mask, 0);
    if g.Promotions? || g.CapturePromotions? {
      PromotionsToMember(sq, tos, stm, flags, underpromote, m);
      var j, k :| 0 <= j < |tos| && 0 <= k < |PromotionPieces(stm, underpromote)| &&
                  m == MoveOf(sq, tos[j], PromotionPieces(stm, underpromote)[k], flags);
      assert tos[j] in tos;
    } else {
      var r := MovesTo(sq, tos, NO_PIECE, flags);
      var j :| 0 <= j < |r| && r[j] == m;
      assert tos[j] in tos;
    }
  }

  // ---- gen_quiet_moves, gen_capture_moves, gen_promotion_moves ----------------------

  /** A generator's moves for all of its pieces, lowest source square first. */
  function GenAll(g: Gen, bb: seq<Bitboard>, occ: Bitboard, stm: Side, mask: Bitboard, flags: int, underpromote: bool): seq<nat>
    requires PieceBoards(bb) && OnBoard(mask) && 0 <= flags < 64
  {
    GenFrom(g, occ, stm, Ascending(Sources(g, bb, stm), 0), mask, flags, underpromote)
  }

  /** The opponent's bitboard is one of the two side bitboards. */
  lemma OpponentOnBoard(b: P.Placement, stm: Side)
    requires Boards(b)
    ensures OnBoard(b.bbSides[FlipColor(stm)])
  {
    if stm == WHITE {
      assert FlipColor(stm) == BLACK;
    }
  }

  /** The bitboards of a position, all of them holding squares of the board. */
  predicate Boards(b: P.Placement)
  {
    b.Sized() && PieceBoards(b.bbPieces) && OnBoard(b.bbSides[WHITE]) && OnBoard(b.bbSides[BLACK])
  }

  /**
   * What the two castling generators need when pos_is_castling_allowed
   * answers yes: a king of the side to move and the rook's start square on
   * the board.
   */
  predicate CastlingFits(bb: seq<Bitboard>, stm: Side, rooks: P.RookSquares, kingside: bool, queenside: bool)
    requires PieceBoards(bb)
  {
    ((kingside || queenside) ==> P.LowestSquare(bb[KING + stm], 0) < NSQUARES) &&
    (kingside ==> 0 <= P.KingsideRook(rooks, stm) < NSQUARES) &&
    (queenside ==> 0 <= P.QueensideRook(rooks, stm) < NSQUARES)
  }

  /**
   * gen_kingside_castling_moves then gen_queenside_castling_moves: the king
   * moves onto its own rook's square, as Chess960 castling is written; each
   * is added when pos_is_castling_allowed allows it.
   */
  function CastlingMoves(bb: seq<Bitboard>, stm: Side, rooks: P.RookSquares, kingside: bool, queenside: bool): (r: seq<nat>)
    requires PieceBoards(bb) && CastlingFits(bb, stm, rooks, kingside, queenside)
    ensures |r| == (if kingside then 1 else 0) + (if queenside then 1 else 0)
  {
    var king := P.LowestSquare(bb[KING + stm], 0);
    (if kingside then [MoveOf(king, P.KingsideRook(rooks, stm), NO_PIECE, KINGSIDE_CASTLE)] else []) +
    (if queenside then [MoveOf(king, P.QueensideRook(rooks, stm), NO_PIECE, QUEENSIDE_CASTLE)] else [])
  }

  /** A castling move goes from the king to the rook of the allowed side, flagged as that castling. */
  lemma CastlingMovesSpec(bb: seq<Bitboard>, stm: Side, rooks: P.RookSquares, kingside: bool, queenside: bool, m: nat)
    requires PieceBoards(bb) && CastlingFits(bb, stm, rooks, kingside, queenside)
    requires m in CastlingMoves(bb, stm, rooks, kingside, queenside)
    ensures From(m) in bb[KING + stm] && P.IsCastle(m) && Promotion(m) == NO_PIECE
    ensures IsKingsideCastle(m) ==> kingside && To(m) == P.KingsideRook(rooks, stm)
    ensures IsQueensideCastle(m) ==> queenside && To(m) == P.QueensideRook(rooks, stm)
  {
  }

  /**
   * The knight, diagonal slider, straight slider and king moves onto the
   * mask, in that order, as gen_quiet_moves and gen_capture_moves both
   * start with.
   */
  function PieceMoves(bb: seq<Bitboard>, occ: Bitboard, stm: Side, mask: Bitboard, flags: int): seq<nat>
    requires PieceBoards(bb) && OnBoard(mask) && 0 <= flags < 64
  {
    GenAll(Knights, bb, occ, stm, mask, flags, false) + GenAll(Diagonals, bb, occ, stm, mask, flags, false) +
    GenAll(Straights, bb, occ, stm, mask, flags, false) + GenAll(Kings, bb, occ, stm, mask, flags, false)
  }

  /** gen_quiet_moves: the non-captures of every piece onto empty squares, the pawn pushes short of promotion, then castling. */
  function QuietMoves(b: P.Placement, stm: Side, rooks: P.RookSquares, kingside: bool, queenside: bool): seq<nat>
    requires Boards(b) && CastlingFits(b.bbPieces, stm, rooks, kingside, queenside)
  {
    var bb, occ := b.bbPieces, b.bbAll;
    var empty := EmptySquares(occ);
    PieceMoves(bb, occ, stm, empty, 0) + GenAll(PawnPushes, bb, occ, stm, empty, 0, false) +
    CastlingMoves(bb, stm, rooks, kingside, queenside)
  }

  /** An en-passant square the generators accept: none, or one behind a pawn that moved two squares. */
  predicate EpFits(epSq: int)
  {
    epSq == NO_SQUARE || A1 + 8 <= epSq < A8
  }

  /**
   * gen_capture_moves: captures of opposing pieces by knights, sliders,
   * king and pawns, the capturing promotions with underpromotions, then
   * the en-passant captures.
   */
  function CaptureMoves(b: P.Placement, stm: Side, epSq: int): seq<nat>
    requires Boards(b) && EpFits(epSq)
  {
    OpponentOnBoard(b, stm);
    var bb, occ := b.bbPieces, b.bbAll;
    var opp := b.bbSides[FlipColor(stm)];
    PieceMoves(bb, occ, stm, opp, CAPTURE) + PawnCaptureMoves(b, stm, epSq)
  }

  /** The pawn part of gen_capture_moves: plain pawn captures, capturing promotions with underpromotions, then en passant. */
  function PawnCaptureMoves(b: P.Placement, stm: Side, epSq: int): seq<nat>
    requires Boards(b) && EpFits(epSq)
  {
    OpponentOnBoard(b, stm);
    var bb, occ := b.bbPieces, b.bbAll;
    var opp := b.bbSides[FlipColor(stm)];
    GenAll(PawnCaptures, bb, occ, stm, opp, CAPTURE, false) +
    GenAll(CapturePromotions, bb, occ, stm, opp, CAPTURE + PROMOTION, true) +
    EnPassantMoves(epSq, stm, bb[PAWN + stm])
  }

  /** gen_promotion_moves: the non-capturing promotions onto empty squares. */
  function PromotionMoves(b: P.Placement, stm: Side, underpromote: bool): seq<nat>
    requires Boards(b)
  {
    GenAll(Promotions, b.bbPieces, b.bbAll, stm, EmptySquares(b.bbAll), PROMOTION, underpromote)
  }

  /**
   * gen_moves: the check evasions when the side to move is in check,
   * otherwise the quiet moves, the captures and the promotions with
   * underpromotions, in that order.
   */
  function PseudoLegal(b: P.Placement, stm: Side, epSq: int, rooks: P.RookSquares, kingside: bool, queenside: bool, evasions: seq<nat>): seq<nat>
    requires Boards(b) && P.HasKing(b, stm) && EpFits(epSq) && CastlingFits(b.bbPieces, stm, rooks, kingside, queenside)
  {
    if P.InCheck(b, stm) then evasions
    else QuietMoves(b, stm, rooks, kingside, queenside) + CaptureMoves(b, stm, epSq) + PromotionMoves(b, stm, true)
  }

  /** What gen_moves needs of a position: consistent boards, a king, an en passant square and castling rights in range. */
  ghost predicate Ready(s: P.State, kingside: bool, queenside: bool)
  {
    Boards(s.board) && P.HasKing(s.board, s.stm) && EpFits(s.epSq) && CastlingFits(s.board.bbPieces, s.stm, s.rooks, kingside, queenside)
  }

  /** The pseudo-legal moves of the position s. */
  ghost function PseudoLegalIn(s: P.State, kingside: bool, queenside: bool, evasions: seq<nat>): seq<nat>
    requires Ready(s, kingside, queenside)
  {
    PseudoLegal(s.board, s.stm, s.epSq, s.rooks, kingside, queenside, evasions)
  }

  /** gen_quiet_moves. */
  method GenQuietMoves(list: MoveList, b: P.Placement, stm: Side, rooks: P.RookSquares, kingside: bool, queenside: bool)
    requires Boards(b) && CastlingFits(b.bbPieces, stm, rooks, kingside, queenside)
    requires list.Valid() && list.size + |QuietMoves(b, stm, rooks, kingside, queenside)| <= MAX_MOVES
    modifies list, list.moves
    ensures list.Valid() && list.Contents() == old(list.Contents()) + QuietMoves(b, stm, rooks, kingside, queenside)
  {
    var bb, occ := b.bbPieces, b.bbAll;
    var mask := EmptySquares(occ);
    ghost var start := list.Contents();
    ghost var pieces := PieceMoves(bb, occ, stm, mask, 0);
    ghost var pawns := GenAll(PawnPushes, bb, occ, stm, mask, 0, false);
    GenPiecesMoves(list, bb, occ, stm, mask, 0);
    GenPieceMoves(list, PawnPushes, bb, occ, stm, mask, 0, false);
    ShiftBlock(start, pieces, pawns);
    GenCastlingMoves(list, bb, stm, rooks, kingside, queenside);
    ShiftBlock(start, pieces + pawns, CastlingMoves(bb, stm, rooks, kingside, queenside));
  }

  /** The knight, diagonal slider, straight slider and king generators in turn, with one mask and one set of flags. */
  method GenPiecesMoves(list: MoveList, bb: seq<Bitboard>, occ: Bitboard, stm: Side, mask: Bitboard, flags: int)
    requires PieceBoards(bb) && OnBoard(mask) && 0 <= flags < 64
    requires list.Valid() && list.size + |PieceMoves(bb, occ, stm, mask, flags)| <= MAX_MOVES
    modifies list, list.moves
    ensures list.Valid() && list.Contents() == old(list.Contents()) + PieceMoves(bb, occ, stm, mask, flags)
  {
    ghost var start := list.Contents();
    ghost var knights := GenAll(Knights, bb, occ, stm, mask, flags, false);
    ghost var diagonals := GenAll(Diagonals, bb, occ, stm, mask, flags, false);
    ghost var straights := GenAll(Straights, bb, occ, stm, mask, flags, false);
    GenPieceMoves(list, Knights, bb, occ, stm, mask, flags, false);
    GenPieceMoves(list, Diagonals, bb, occ, stm, mask, flags, false);
    ShiftBlock(start, knights, diagonals);
    GenPieceMoves(list, Straights, bb, occ, stm, mask, flags, false);
    ShiftBlock(start, knights + diagonals, straights);
    GenPieceMoves(list, Kings, bb, occ, stm, mask, flags, false);
    ShiftBlock(start, knights + diagonals + straights, GenAll(Kings, bb, occ, stm, mask, flags, false));
  }

  /** gen_kingside_castling_moves and gen_queenside_castling_moves. */
  method GenCastlingMoves(list: MoveList, bb: seq<Bitboard>, stm: Side, rooks: P.RookSquares, kingside: bool, queenside: bool)
    requires PieceBoards(bb) && CastlingFits(bb, stm, rooks, kingside, queenside)
    requires list.Valid() && list.size + |CastlingMoves(bb, stm, rooks, kingside, queenside)| <= MAX_MOVES
    modifies list, list.moves
    ensures list.Valid() && list.Contents() == old(list.Contents()) + CastlingMoves(bb, stm, rooks, kingside, queenside)
  {
    var kingStart := P.LowestSquare(bb[KING + stm], 0);
    if kingside {
      list.Add(MoveOf(kingStart, P.KingsideRook(rooks, stm), NO_PIECE, KINGSIDE_CASTLE));
    }
    if queenside {
      list.Add(MoveOf(kingStart, P.QueensideRook(rooks, stm), NO_PIECE, QUEENSIDE_CASTLE));
    }
  }

  /** gen_capture_moves. */
  method GenCaptureMoves(list: MoveList, b: P.Placement, stm: Side, epSq: int)
    requires Boards(b) && EpFits(epSq)
    requires list.Valid() && list.size + |CaptureMoves(b, stm, epSq)| <= MAX_MOVES
    modifies list, list.moves
    ensures list.Valid() && list.Contents() == old(list.Contents()) + CaptureMoves(b, stm, epSq)
  {
    var oppMask := b.bbSides[FlipColor(stm)];
    OpponentOnBoard(b, stm);
    ghost var start := list.Contents();
    ghost var pieces := PieceMoves(b.bbPieces, b.bbAll, stm, oppMask, CAPTURE);
    GenPiecesMoves(list, b.bbPieces, b.bbAll, stm, oppMask, CAPTURE);
    GenPawnCaptureMoves(list, b, stm, epSq);
    ShiftBlock(start, pieces, PawnCaptureMoves(b, stm, epSq));
  }

  /** The pawn captures, capturing promotions and en-passant captures of gen_capture_moves. */
  method GenPawnCaptureMoves(list: MoveList, b: P.Placement, stm: Side, epSq: int)
    requires Boards(b) && EpFits(epSq)
    requires list.Valid() && list.size + |PawnCaptureMoves(b, stm, epSq)| <= MAX_MOVES
    modifies list, list.moves
    ensures list.Valid() && list.Contents() == old(list.Contents()) + PawnCaptureMoves(b, stm, epSq)
  {
    var bb, occ := b.bbPieces, b.bbAll;
    var oppMask := b.bbSides[FlipColor(stm)];
    OpponentOnBoard(b, stm);
    ghost var start := list.Contents();
    ghost var pawns := GenAll(PawnCaptures, bb, occ, stm, oppMask, CAPTURE, false);
    ghost var promotions := GenAll(CapturePromotions, bb, occ, stm, oppMask, CAPTURE + PROMOTION, true);
    GenPieceMoves(list, PawnCaptures, bb, occ, stm, oppMask, CAPTURE, false);
    GenPieceMoves(list, CapturePromotions, bb, occ, stm, oppMask, CAPTURE + PROMOTION, true);
    ShiftBlock(start, pawns, promotions);
    GenEnPassantMoves(list, epSq, stm, bb[PAWN + stm]);
    ShiftBlock(start, pawns + promotions, EnPassantMoves(epSq, stm, bb[PAWN + stm]));
  }

  /** gen_promotion_moves. */
  method GenPromotionMoves(list: MoveList, b: P.Placement, stm: Side, underpromote: bool)
    requires Boards(b)
    requires list.Valid() && list.size + |PromotionMoves(b, stm, underpromote)| <= MAX_MOVES
    modifies list, list.moves
    ensures list.Valid() && list.Contents() == old(list.Contents()) + PromotionMoves(b, stm, underpromote)
  {
    GenPieceMoves(list, Promotions, b.bbPieces, b.bbAll, stm, EmptySquares(b.bbAll), PROMOTION, underpromote);
  }

  /** Copies the moves of gen_check_evasions into the list, in order. */
  method AddAll(list: MoveList, ms: seq<nat>)
    requires list.Valid() && list.size + |ms| <= MAX_MOVES
    modifies list, list.moves
    ensures list.Valid() && list.Contents() == old(list.Contents()) + ms
  {
    for k := 0 to |ms|
      invariant list.Valid() && list.Contents() == old(list.Contents()) + ms[..k]
    {
      assert ms[..k + 1] == ms[..k] + [ms[k]];
      list.Add(ms[k]);
    }
    assert ms[..|ms|] == ms;
  }

  /** gen_moves, with the moves gen_check_evasions would find given as `evasions` and pos_is_castling_allowed's answers as flags. */
  method GenMoves(pos: PO.Position, list: MoveList, kingside: bool, queenside: bool, evasions: seq<nat>)
    requires pos.Shaped() && Ready(pos.State(), kingside, queenside)
    requires list.Valid() && |PseudoLegalIn(pos.State(), kingside, queenside, evasions)| <= MAX_MOVES
    modifies list, list.moves
    ensures list.Valid() && list.Contents() == PseudoLegalIn(old(pos.State()), kingside, queenside, evasions)
  {
    ghost var s := pos.State();
    var b, stm, epSq, rooks := pos.Board(), pos.stm, pos.epSq, pos.rooks;
    assert b == s.board && stm == s.stm && epSq == s.epSq && rooks == s.rooks;
    ghost var pseudo := PseudoLegal(b, stm, epSq, rooks, kingside, queenside, evasions);
    assert PseudoLegalIn(s, kingside, queenside, evasions) == pseudo;
    var check := pos.InCheck(stm);
    list.Clear();
    assert list.size == 0;
    if check {
      assert pseudo == evasions;
      AddAll(list, evasions);
    } else {
      assert pseudo == QuietMoves(b, stm, rooks, kingside, queenside) + CaptureMoves(b, stm, epSq) + PromotionMoves(b, stm, true);
      GenMovesUnchecked(list, b, stm, epSq, rooks, kingside, queenside);
    }
  }

  /** The three generators gen_moves runs when the side to move is not in check. */
  method GenMovesUnchecked(list: MoveList, b: P.Placement, stm: Side, epSq: int, rooks: P.RookSquares, kingside: bool, queenside: bool)
    requires Boards(b) && EpFits(epSq) && CastlingFits(b.bbPieces, stm, rooks, kingside, queenside)
    requires list.Valid() &&
      list.size + |QuietMoves(b, stm, rooks, kingside, queenside) + CaptureMoves(b, stm, epSq) + PromotionMoves(b, stm, true)| <= MAX_MOVES
    modifies list, list.moves
    ensures list.Valid() &&
      list.Contents() == old(list.Contents()) + (QuietMoves(b, stm, rooks, kingside, queenside) + CaptureMoves(b, stm, epSq) + PromotionMoves(b, stm, true))
  {
    ghost var start := list.Contents();
    ghost var quiet := QuietMoves(b, stm, rooks, kingside, queenside);
    ghost var captures := CaptureMoves(b, stm, epSq);
    ghost var promotions := PromotionMoves(b, stm, true);
    GenQuietMoves(list, b, stm, rooks, kingside, queenside);
    GenCaptureMoves(list, b, stm, epSq);
    ShiftBlock(start, quiet, captures);
    GenPromotionMoves(list, b, stm, true);
    ShiftBlock(start, quiet + captures, promotions);
  }

  // ---- gen_legal_moves ---------------------------------------------------------------

  /** The moves of ms that pass the test, in their order. */
  ghost function KeepIf(ok: nat -> bool, ms: seq<nat>): (r: seq<nat>)
    ensures |r| <= |ms|
  {
    if ms == [] then []
    else KeepIf(ok, ms[..|ms| - 1]) + (if ok(ms[|ms| - 1]) then [ms[|ms| - 1]] else [])
  }

  /** pos_make_move's legality test in the position s. */
  ghost function LegalIn(z: Zobrist, s: P.State): nat -> bool
  {
    (m: nat) => P.LeavesKingSafe(z, s, m)
  }

  /** Testing one more move appends it when it passes. */
  lemma KeepIfSnoc(ok: nat -> bool, ms: seq<nat>, m: nat)
    ensures KeepIf(ok, ms + [m]) == KeepIf(ok, ms) + (if ok(m) then [m] else [])
  {
    assert (ms + [m])[..|ms + [m]| - 1] == ms;
  }

  /** A move is kept exactly when it is one of the moves and passes the test. */
  lemma {:induction false} KeepIfMember(ok: nat -> bool, ms: seq<nat>, m: nat)
    ensures m in KeepIf(ok, ms) <==> m in ms && ok(m)
  {
    if ms != [] {
      var init := ms[..|ms| - 1];
      KeepIfMember(ok, init, m);
      assert ms == init + [ms[|ms| - 1]];
    }
  }

  /** The kept moves keep their order: any two of them stand in the same order among all the moves. */
  lemma {:induction false} KeepIfOrder(ok: nat -> bool, ms: seq<nat>, i: nat, j: nat)
    requires i < j < |KeepIf(ok, ms)|
    ensures exists i', j' :: 0 <= i' < j' < |ms| && ms[i'] == KeepIf(ok, ms)[i] && ms[j'] == KeepIf(ok, ms)[j]
  {
    var init := ms[..|ms| - 1];
    var r := KeepIf(ok, ms);
    var ri := KeepIf(ok, init);
    if j < |ri| {
      KeepIfOrder(ok, init, i, j);
      var i', j' :| 0 <= i' < j' < |init| && init[i'] == ri[i] && init[j'] == ri[j];
      assert ms[i'] == init[i'] && ms[j'] == init[j'];
    } else {
      KeepIfMember(ok, init, ri[i]);
      assert ri[i] in ri;
      var i' :| 0 <= i' < |init| && init[i'] == ri[i];
      assert ms[i'] == r[i] && ms[|ms| - 1] == r[j];
    }
  }

  /** gen_legal_moves keeps exactly the pseudo-legal moves that leave the mover's king safe. */
  lemma LegalMovesMember(z: Zobrist, s: P.State, pseudo: seq<nat>, m: nat)
    ensures m in KeepIf(LegalIn(z, s), pseudo) <==> m in pseudo && P.LeavesKingSafe(z, s, m)
  {
    KeepIfMember(LegalIn(z, s), pseudo, m);
  }

  /**
   * gen_legal_moves: generates the pseudo-legal moves into a list of its
   * own, makes each in turn, and keeps it (taking it back again) when
   * pos_make_move accepts it.  The position is left as it was.
   */
  method GenLegalMoves(z: Zobrist, pos: PO.Position, list: MoveList, kingside: bool, queenside: bool, evasions: seq<nat>)
    requires pos.Shaped() && Ready(pos.State(), kingside, queenside) && Roomy(pos.State())
    requires list.Valid() && |PseudoLegalIn(pos.State(), kingside, queenside, evasions)| <= MAX_MOVES
    requires AllFit(z, pos.State(), PseudoLegalIn(pos.State(), kingside, queenside, evasions))
    modifies list, list.moves, pos, pos.pieces, pos.bbPieces, pos.bbSides, pos.history
    ensures pos.Shaped() && pos.State() == old(pos.State())
    ensures list.Valid() &&
      list.Contents() == KeepIf(LegalIn(z, old(pos.State())), PseudoLegalIn(old(pos.State()), kingside, queenside, evasions))
  {
    var temp := GenMovesInto(pos, kingside, queenside, evasions);
    assert pos.pieces[..] == old(pos.pieces[..]) && pos.bbPieces[..] == old(pos.bbPieces[..]) && pos.bbSides[..] == old(pos.bbSides[..]);
    assert pos.history[..pos.ply] == old(pos.history[..pos.ply]);
    assert pos.State() == old(pos.State());
    KeepLegalMoves(z, pos, temp, list, old(pos.State()), PseudoLegalIn(old(pos.State()), kingside, queenside, evasions));
  }

  /** gen_legal_moves' temp_list: a fresh list filled by gen_moves. */
  method GenMovesInto(pos: PO.Position, kingside: bool, queenside: bool, evasions: seq<nat>) returns (temp: MoveList)
    requires pos.Shaped() && Ready(pos.State(), kingside, queenside)
    requires |PseudoLegalIn(pos.State(), kingside, queenside, evasions)| <= MAX_MOVES
    ensures fresh(temp) && fresh(temp.moves) && temp.Valid()
    ensures temp.Contents() == PseudoLegalIn(old(pos.State()), kingside, queenside, evasions)
  {
    temp := new MoveList();
    GenMoves(pos, temp, kingside, queenside, evasions);
  }

  /** The moves of ms whose verdict in vs is true, in their order. */
  function Kept(ms: seq<nat>, vs: seq<bool>): (r: seq<nat>)
    requires |vs| == |ms|
    ensures |r| <= |ms|
  {
    if ms == [] then []
    else Kept(ms[..|ms| - 1], vs[..|vs| - 1]) + (if vs[|vs| - 1] then [ms[|ms| - 1]] else [])
  }

  /** vs holds the test's verdict on each move of ms. */
  ghost predicate Verdicts(ok: nat -> bool, ms: seq<nat>, vs: seq<bool>)
  {
    |vs| == |ms| && forall i :: 0 <= i < |ms| ==> vs[i] == ok(ms[i])
  }

  /** One more move with its verdict. */
  lemma VerdictsSnoc(ok: nat -> bool, ms: seq<nat>, vs: seq<bool>, m: nat, v: bool)
    requires Verdicts(ok, ms, vs) && v == ok(m)
    ensures Verdicts(ok, ms + [m], vs + [v])
  {
  }

  /** Filtering by the verdicts of a test is filtering by the test. */
  lemma {:induction false} KeptByVerdicts(ok: nat -> bool, ms: seq<nat>, vs: seq<bool>)
    requires Verdicts(ok, ms, vs)
    ensures Kept(ms, vs) == KeepIf(ok, ms)
  {
    if ms != [] {
      KeptByVerdicts(ok, ms[..|ms| - 1], vs[..|vs| - 1]);
    }
  }

  /** One more verdict appends its move when it is true. */
  lemma KeptSnoc(ms: seq<nat>, vs: seq<bool>, m: nat, v: bool)
    requires |vs| == |ms|
    ensures Kept(ms + [m], vs + [v]) == Kept(ms, vs) + (if v then [m] else [])
  {
    assert (ms + [m])[..|ms|] == ms;
    assert (vs + [v])[..|vs|] == vs;
  }

  /** ok answers pos_make_move's legality test for every move in the position s. */
  ghost predicate Decides(z: Zobrist, s: P.State, ok: nat -> bool)
  {
    forall m {:trigger P.LeavesKingSafe(z, s, m)} :: ok(m) == P.LeavesKingSafe(z, s, m)
  }

  /** LegalIn is the legality test. */
  lemma LegalInDecides(z: Zobrist, s: P.State)
    ensures Decides(z, s, LegalIn(z, s))
  {
  }

  /** Every move of ms meets pos_make_move's table lookups in the position s. */
  ghost predicate AllFit(z: Zobrist, s: P.State, ms: seq<nat>)
  {
    forall i :: 0 <= i < |ms| ==> FitsAt(z, s, ms, i)
  }

  /** The i-th move of ms meets pos_make_move's table lookups in s. */
  ghost predicate FitsAt(z: Zobrist, s: P.State, ms: seq<nat>, i: nat)
    requires i < |ms|
  {
    P.MoveFits(z, s, ms[i])
  }

  /** What pos_make_move needs of the position whatever the move: room in the history and a king to move. */
  ghost predicate Roomy(s: P.State)
  {
    s.ply < MAX_HISTORY_SIZE && s.stm + KING in s.board.pieces
  }

  /** What making any move of ms in s needs: room, a king, the table lookups, and ok as the legality test. */
  ghost predicate Filterable(z: Zobrist, s: P.State, ms: seq<nat>, ok: nat -> bool)
  {
    Roomy(s) && AllFit(z, s, ms) && Decides(z, s, ok)
  }

  /** gen_legal_moves' loop: each generated move is made, kept if it was legal, and unmade. */
  method KeepLegalMoves(z: Zobrist, pos: PO.Position, temp: MoveList, list: MoveList, ghost s: P.State, ghost moves: seq<nat>)
    requires pos.Shaped() && pos.State() == s && Roomy(s)
    requires temp.Valid() && temp.Contents() == moves && AllFit(z, s, moves)
    requires list.Valid() && list != temp && list.moves != temp.moves
    modifies list, list.moves, pos, pos.pieces, pos.bbPieces, pos.bbSides, pos.history
    ensures pos.Shaped() && pos.State() == s
    ensures list.Valid() && list.Contents() == KeepIf(LegalIn(z, s), moves)
  {
    list.Clear();
    LegalInDecides(z, s);
    FilterMoves(z, pos, temp, list, LegalIn(z, s));
  }

  /** The loop itself, for any ok that is the legality test. */
  method FilterMoves(z: Zobrist, pos: PO.Position, temp: MoveList, list: MoveList, ghost ok: nat -> bool)
    requires pos.Shaped() && temp.Valid() && Filterable(z, pos.State(), temp.Contents(), ok)
    requires list.Valid() && list.size == 0 && list != temp && list.moves != temp.moves
    modifies list, list.moves, pos, pos.pieces, pos.bbPieces, pos.bbSides, pos.history
    ensures pos.Shaped() && pos.State() == old(pos.State())
    ensures list.Valid() && list.Contents() == KeepIf(ok, temp.Contents())
  {
    ghost var s := pos.State();
    ghost var moves := temp.Contents();
    ghost var verdicts: seq<bool> := [];
    var k := 0;
    while k < temp.size
      invariant 0 <= k <= temp.size && temp.Valid() && temp.Contents() == moves
      invariant pos.Shaped() && pos.State() == s
      invariant Verdicts(ok, moves[..k], verdicts)
      invariant list.Valid() && list.size <= k && list.Contents() == Kept(moves[..k], verdicts)
      invariant list != temp && list.moves != temp.moves
    {
      var move := temp.moves[k];
      temp.ContentsAt(k);
      FilterableAt(z, s, moves, ok, k);
      FilterOneMore(ok, moves, verdicts, k);
      LegalStep(z, pos, list, move, ok);
      verdicts := verdicts + [ok(move)];
      k := k + 1;
    }
    assert moves[..k] == moves;
    KeptByVerdicts(ok, moves, verdicts);
  }

  /** Judging one more move of the list extends the verdicts and the kept moves by that move. */
  lemma FilterOneMore(ok: nat -> bool, ms: seq<nat>, vs: seq<bool>, k: nat)
    requires k < |ms| && Verdicts(ok, ms[..k], vs)
    ensures Verdicts(ok, ms[..k + 1], vs + [ok(ms[k])])
    ensures Kept(ms[..k + 1], vs + [ok(ms[k])]) == Kept(ms[..k], vs) + (if ok(ms[k]) then [ms[k]] else [])
  {
    assert ms[..k + 1] == ms[..k] + [ms[k]];
    KeptSnoc(ms[..k], vs, ms[k], ok(ms[k]));
    VerdictsSnoc(ok, ms[..k], vs, ms[k], ok(ms[k]));
  }

  /** The k-th move of a filterable list can be made, and ok is the legality test. */
  lemma FilterableAt(z: Zobrist, s: P.State, moves: seq<nat>, ok: nat -> bool, k: nat)
    requires Filterable(z, s, moves, ok) && k < |moves|
    ensures Roomy(s) && P.MoveFits(z, s, moves[k]) && Decides(z, s, ok)
  {
    assert FitsAt(z, s, moves, k);
  }

  /** One turn of gen_legal_moves' loop: make the move, and keep and unmake it if it was legal. */
  method LegalStep(z: Zobrist, pos: PO.Position, list: MoveList, move: nat, ghost ok: nat -> bool)
    requires pos.Shaped() && Roomy(pos.State()) && P.MoveFits(z, pos.State(), move)
    requires Decides(z, pos.State(), ok)
    requires list.Valid() && list.size < MAX_MOVES
    modifies list, list.moves, pos, pos.pieces, pos.bbPieces, pos.bbSides, pos.history
    ensures pos.Shaped() && pos.State() == old(pos.State())
    ensures list.Valid() && list.Contents() == old(list.Contents()) + (if ok(move) then [move] else [])
  {
    assert ok(move) == P.LeavesKingSafe(z, pos.State(), move);
    var legal := pos.MakeMove(z, move);
    if legal {
      KeepAndUnmake(pos, list, move);
    }
  }

  /** The legal branch of gen_legal_moves' loop: the move goes on the list and is unmade. */
  method KeepAndUnmake(pos: PO.Position, list: MoveList, move: nat)
    requires pos.Shaped() && P.UnmakeFits(pos.State())
    requires list.Valid() && list.size < MAX_MOVES
    modifies list, list.moves, pos, pos.pieces, pos.bbPieces, pos.bbSides
    ensures pos.Shaped() && pos.State() == P.UnmakeMove(old(pos.State()))
    ensures list.Valid() && list.Contents() == old(list.Contents()) + [move]
  {
    ghost var made := pos.State();
    list.Add(move);
    assert pos.State() == made;
    pos.UnmakeMove();
  }
}
