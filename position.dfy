/**
 * The position of src/position.c: the piece array and bitboards kept in
 * step by add_piece/remove_piece, the Zobrist key updated incrementally,
 * the history stack of unmake records, pos_make_move / pos_unmake_move,
 * the null move, the repetition scan and the move-string conversions.
 *
 * The value-level functions below follow the C statement by statement;
 * the class Position further down holds the same state in arrays and its
 * methods are proved to compute these functions.
 */
module Position {
  import opened Types
  import opened Bitboard
  import opened KeyXor
  import opened Key

  /** material_values[]: what update_material adds or subtracts per piece. */
  const MATERIAL_VALUES: seq<int> := [100, 100, 392, 392, 406, 406, 654, 654, 1381, 1381, 0, 0]

  // ---- the piece placement -------------------------------------------------

  /** The squares of the piece array holding piece k. */
  ghost function PieceSquares(pieces: seq<Cell>, k: int): set<int>
    requires |pieces| == NSQUARES
  {
    set x | 0 <= x < NSQUARES && pieces[x] == k
  }

  /** The squares holding a piece of side c. */
  ghost function SideSquares(pieces: seq<Cell>, c: int): set<int>
    requires |pieces| == NSQUARES
  {
    set x | 0 <= x < NSQUARES && pieces[x] != NO_PIECE && Color(pieces[x]) == c
  }

  /** The occupied squares. */
  ghost function OccupiedSquares(pieces: seq<Cell>): set<int>
    requires |pieces| == NSQUARES
  {
    set x | 0 <= x < NSQUARES && pieces[x] != NO_PIECE
  }

  /** pieces[], bb_pieces[], bb_sides[] and bb_all. */
  datatype Placement = Placement(pieces: seq<Cell>, bbPieces: seq<Bitboard>, bbSides: seq<Bitboard>, bbAll: Bitboard)
  {
    predicate Sized()
    {
      |pieces| == NSQUARES && |bbPieces| == NPIECES && |bbSides| == 2
    }

    /** Every bitboard holds exactly the squares the piece array gives it. */
    ghost predicate Consistent()
    {
      Sized() &&
      (forall k :: 0 <= k < NPIECES ==> bbPieces[k] == PieceSquares(pieces, k)) &&
      (forall c :: 0 <= c < 2 ==> bbSides[c] == SideSquares(pieces, c)) &&
      bbAll == OccupiedSquares(pieces)
    }
  }

  /** add_piece: sets the square's bit in the piece, side and all bitboards and records the piece. */
  function AddPiece(b: Placement, piece: int, sq: Square): (r: Placement)
    requires b.Sized() && 0 <= piece < NPIECES
    ensures r.Sized()
  {
    Placement(b.pieces[sq := piece],
              b.bbPieces[piece := b.bbPieces[piece] + {sq}],
              b.bbSides[Color(piece) := b.bbSides[Color(piece)] + {sq}],
              b.bbAll + {sq})
  }

  /** remove_piece: clears the square's bit in the three bitboards and empties the square. */
  function RemovePiece(b: Placement, piece: int, sq: Square): (r: Placement)
    requires b.Sized() && 0 <= piece < NPIECES
    ensures r.Sized()
  {
    Placement(b.pieces[sq := NO_PIECE],
              b.bbPieces[piece := b.bbPieces[piece] - {sq}],
              b.bbSides[Color(piece) := b.bbSides[Color(piece)] - {sq}],
              b.bbAll - {sq})
  }

  /** Putting a piece on an empty square keeps the bitboards in step with the array. */
  lemma AddPieceConsistent(b: Placement, piece: int, sq: Square)
    requires b.Consistent() && 0 <= piece < NPIECES && b.pieces[sq] == NO_PIECE
    ensures AddPiece(b, piece, sq).Consistent()
  {
    var r := AddPiece(b, piece, sq);
    assert PieceSquares(r.pieces, piece) == PieceSquares(b.pieces, piece) + {sq};
    assert SideSquares(r.pieces, Color(piece)) == SideSquares(b.pieces, Color(piece)) + {sq};
    assert OccupiedSquares(r.pieces) == OccupiedSquares(b.pieces) + {sq};
    forall k | 0 <= k < NPIECES && k != piece
      ensures r.bbPieces[k] == PieceSquares(r.pieces, k)
    {
      assert PieceSquares(r.pieces, k) == PieceSquares(b.pieces, k);
    }
    forall c | 0 <= c < 2 && c != Color(piece)
      ensures r.bbSides[c] == SideSquares(r.pieces, c)
    {
      assert SideSquares(r.pieces, c) == SideSquares(b.pieces, c);
    }
  }

  /** Taking the piece that is on a square off it keeps the bitboards in step with the array. */
  lemma RemovePieceConsistent(b: Placement, piece: int, sq: Square)
    requires b.Consistent() && 0 <= piece < NPIECES && b.pieces[sq] == piece
    ensures RemovePiece(b, piece, sq).Consistent()
  {
    var r := RemovePiece(b, piece, sq);
    assert PieceSquares(r.pieces, piece) == PieceSquares(b.pieces, piece) - {sq};
    assert SideSquares(r.pieces, Color(piece)) == SideSquares(b.pieces, Color(piece)) - {sq};
    assert OccupiedSquares(r.pieces) == OccupiedSquares(b.pieces) - {sq};
    forall k | 0 <= k < NPIECES && k != piece
      ensures r.bbPieces[k] == PieceSquares(r.pieces, k)
    {
      assert PieceSquares(r.pieces, k) == PieceSquares(b.pieces, k);
    }
    forall c | 0 <= c < 2 && c != Color(piece)
      ensures r.bbSides[c] == SideSquares(r.pieces, c)
    {
      assert SideSquares(r.pieces, c) == SideSquares(b.pieces, c);
    }
  }

  /** The piece array determines a consistent placement: the bitboards are derived data. */
  lemma PlacementDetermined(a: Placement, b: Placement)
    requires a.Consistent() && b.Consistent() && a.pieces == b.pieces
    ensures a == b
  {
    assert a.bbPieces == b.bbPieces;
    assert a.bbSides == b.bbSides;
  }

  // ---- material ------------------------------------------------------------

  /** update_material: +value for a white piece added, -value for a black one, and the reverse on removal. */
  function UpdateMaterial(material: int, piece: int, added: bool): int
    requires 0 <= piece < NPIECES
  {
    var delta := (if added then 1 else -1) * (if Color(piece) == BLACK then -1 else 1);
    material + delta * MATERIAL_VALUES[piece]
  }

  /** The change is white-positive whichever way it goes, and removing undoes adding. */
  lemma UpdateMaterialSigned(material: int, piece: int)
    requires 0 <= piece < NPIECES
    ensures UpdateMaterial(material, piece, true) - material == (if Color(piece) == WHITE then MATERIAL_VALUES[piece] else -MATERIAL_VALUES[piece])
    ensures UpdateMaterial(material, piece, false) - material == material - UpdateMaterial(material, piece, true)
    ensures UpdateMaterial(UpdateMaterial(material, piece, true), piece, false) == material
    ensures UpdateMaterial(UpdateMaterial(material, piece, false), piece, true) == material
  {
  }

  // ---- castling availability ----------------------------------------------

  /** castle &= ~flag for one of the four flags. */
  function ClearFlag(castle: int, flag: int): (r: int)
    requires 0 <= castle < 16 && flag in {1, 2, 4, 8}
    ensures 0 <= r < 16
  {
    if HasFlag(castle, flag) then castle - flag else castle
  }

  /** Clearing a flag turns that flag off and leaves the other three as they were. */
  lemma ClearFlagBits(castle: int, flag: int, g: int)
    requires 0 <= castle < 16 && flag in {1, 2, 4, 8} && g in {1, 2, 4, 8}
    ensures HasFlag(ClearFlag(castle, flag), g) <==> HasFlag(castle, g) && g != flag
  {
    // with both flags fixed every division is by a constant
    if flag == 1 {
      if g == 1 {} else if g == 2 {} else if g == 4 {} else {}
    } else if flag == 2 {
      if g == 1 {} else if g == 2 {} else if g == 4 {} else {}
    } else if flag == 4 {
      if g == 1 {} else if g == 2 {} else if g == 4 {} else {}
    } else {
      if g == 1 {} else if g == 2 {} else if g == 4 {} else {}
    }
  }

  /** pos->castle_wk, castle_wq, castle_bk, castle_bq: the rooks' castling squares (Chess960 included). */
  datatype RookSquares = RookSquares(wk: int, wq: int, bk: int, bq: int)

  /** The kingside and queenside flags of a side. */
  function KingsideFlag(side: Side): int
  {
    if side == WHITE then WHITE_KINGSIDE else BLACK_KINGSIDE
  }

  function QueensideFlag(side: Side): int
  {
    if side == WHITE then WHITE_QUEENSIDE else BLACK_QUEENSIDE
  }

  /** The rook squares castling with a side's king. */
  function KingsideRook(rooks: RookSquares, side: Side): int
  {
    if side == WHITE then rooks.wk else rooks.bk
  }

  function QueensideRook(rooks: RookSquares, side: Side): int
  {
    if side == WHITE then rooks.wq else rooks.bq
  }

  /** The first block of update_castling_availability: a king move clears both of its side's flags. */
  function KingMoveRights(castle: int, piece: Cell, stm: Side): (r: int)
    requires 0 <= castle < 16
    ensures 0 <= r < 16
  {
    if piece == stm + KING then ClearFlag(ClearFlag(castle, KingsideFlag(stm)), QueensideFlag(stm)) else castle
  }

  /** The second block: a rook leaving its castling square clears that flag, the kingside square tested first. */
  function RookMoveRights(castle: int, piece: Cell, stm: Side, rooks: RookSquares, from: Square): (r: int)
    requires 0 <= castle < 16
    ensures 0 <= r < 16
  {
    if piece == stm + ROOK then
      (if from == KingsideRook(rooks, stm) then ClearFlag(castle, KingsideFlag(stm))
       else if from == QueensideRook(rooks, stm) then ClearFlag(castle, QueensideFlag(stm)) else castle)
    else castle
  }

  /** The third block: a move to an opponent rook's castling square clears that flag. */
  function CaptureRights(castle: int, stm: Side, rooks: RookSquares, to: Square): (r: int)
    requires 0 <= castle < 16
    ensures 0 <= r < 16
  {
    var opp := FlipColor(stm);
    if to == KingsideRook(rooks, opp) then ClearFlag(castle, KingsideFlag(opp))
    else if to == QueensideRook(rooks, opp) then ClearFlag(castle, QueensideFlag(opp)) else castle
  }

  /** update_castling_availability(pos, from, to), the piece array taken before the move. */
  function CastlingAvailability(pieces: seq<Cell>, stm: Side, rooks: RookSquares, castle: int, from: Square, to: Square): (r: int)
    requires |pieces| == NSQUARES && 0 <= castle < 16
    ensures 0 <= r < 16
  {
    var piece := pieces[from];
    CaptureRights(RookMoveRights(KingMoveRights(castle, piece, stm), piece, stm, rooks, from), stm, rooks, to)
  }

  /**
   * When a move takes away castling flag g: the king of its side moved, the
   * rook on its castling square moved (the kingside square is tested first
   * when both rooks share one), or the move went to that square of the
   * opponent's.
   */
  predicate LosesFlag(piece: Cell, stm: Side, rooks: RookSquares, from: Square, to: Square, g: int)
  {
    var opp := FlipColor(stm);
    (piece == stm + KING && (g == KingsideFlag(stm) || g == QueensideFlag(stm))) ||
    (piece == stm + ROOK && g == KingsideFlag(stm) && from == KingsideRook(rooks, stm)) ||
    (piece == stm + ROOK && g == QueensideFlag(stm) && from == QueensideRook(rooks, stm) && from != KingsideRook(rooks, stm)) ||
    (g == KingsideFlag(opp) && to == KingsideRook(rooks, opp)) ||
    (g == QueensideFlag(opp) && to == QueensideRook(rooks, opp) && to != KingsideRook(rooks, opp))
  }

  /** Castling flags are only ever cleared, exactly the ones LosesFlag names, and the others are kept. */
  lemma CastlingAvailabilitySpec(pieces: seq<Cell>, stm: Side, rooks: RookSquares, castle: int, from: Square, to: Square, g: int)
    requires |pieces| == NSQUARES && 0 <= castle < 16 && g in {1, 2, 4, 8}
    ensures HasFlag(CastlingAvailability(pieces, stm, rooks, castle, from, to), g) <==>
            HasFlag(castle, g) && !LosesFlag(pieces[from], stm, rooks, from, to, g)
  {
    var piece, opp := pieces[from], FlipColor(stm);
    var c1 := KingMoveRights(castle, piece, stm);
    if piece == stm + KING {
      ClearFlagBits(castle, KingsideFlag(stm), g);
      ClearFlagBits(ClearFlag(castle, KingsideFlag(stm)), QueensideFlag(stm), g);
    }
    var c2 := RookMoveRights(c1, piece, stm, rooks, from);
    if piece == stm + ROOK {
      ClearFlagBits(c1, KingsideFlag(stm), g);
      ClearFlagBits(c1, QueensideFlag(stm), g);
    }
    ClearFlagBits(c2, KingsideFlag(opp), g);
    ClearFlagBits(c2, QueensideFlag(opp), g);
  }

  // ---- the state and its history --------------------------------------------

  /** struct unmake: what pos_unmake_move needs to restore a move. */
  datatype Unmake = Unmake(move: nat, piece: Cell, capture: Cell, castle: int, epSq: int, fifty: int, key: bv64)

  /**
   * The fields of struct position that the moves change.  history holds the
   * first ply entries of the history array, the unmake records still live.
   */
  datatype State = State(board: Placement, key: bv64, epSq: int, castle: int, stm: Side,
                         ply: nat, height: nat, fifty: int, fullmove: int, material: int,
                         history: seq<Unmake>, rooks: RookSquares)

  /** The part of the state key_generate reads. */
  function KeyStateOf(s: State): KeyState
  {
    KeyState(s.board.pieces, s.epSq, s.castle, s.stm)
  }

  /** The board is consistent, the ep square and castling flags are in range and the key is key_generate's. */
  ghost predicate Good(z: Zobrist, s: State)
  {
    z.Valid() && s.board.Consistent() && 0 <= s.epSq <= NO_SQUARE && 0 <= s.castle < 16 &&
    s.key == KeyOf(z, KeyStateOf(s))
  }

  /** Good, and ply counts the live history records. */
  ghost predicate Valid(z: Zobrist, s: State)
  {
    Good(z, s) && s.ply == |s.history|
  }

  /** remove_piece followed by key_update_piece, as pos_make_move does them. */
  function Take(z: Zobrist, s: State, piece: int, sq: Square): State
    requires z.Valid() && s.board.Sized() && 0 <= piece < NPIECES
  {
    s.(board := RemovePiece(s.board, piece, sq), key := UpdatePiece(z, s.key, piece, sq))
  }

  /** add_piece followed by key_update_piece. */
  function Put(z: Zobrist, s: State, piece: int, sq: Square): State
    requires z.Valid() && s.board.Sized() && 0 <= piece < NPIECES
  {
    s.(board := AddPiece(s.board, piece, sq), key := UpdatePiece(z, s.key, piece, sq))
  }

  lemma TakeGood(z: Zobrist, s: State, sq: Square)
    requires Good(z, s) && s.board.pieces[sq] != NO_PIECE
    ensures Good(z, Take(z, s, s.board.pieces[sq], sq))
    ensures Take(z, s, s.board.pieces[sq], sq).board.pieces == s.board.pieces[sq := NO_PIECE]
  {
    RemovePieceConsistent(s.board, s.board.pieces[sq], sq);
    KeyRemovePiece(z, KeyStateOf(s), sq);
  }

  lemma PutGood(z: Zobrist, s: State, piece: int, sq: Square)
    requires Good(z, s) && 0 <= piece < NPIECES && s.board.pieces[sq] == NO_PIECE
    ensures Good(z, Put(z, s, piece, sq))
    ensures Put(z, s, piece, sq).board.pieces == s.board.pieces[sq := piece]
  {
    AddPieceConsistent(s.board, piece, sq);
    KeyAddPiece(z, KeyStateOf(s), piece, sq);
  }

  /** A captured piece leaves: remove_piece, key_update_piece, then update_material. */
  function Capture(z: Zobrist, s: State, piece: int, sq: Square): State
    requires z.Valid() && s.board.Sized() && 0 <= piece < NPIECES
  {
    Take(z, s, piece, sq).(material := UpdateMaterial(s.material, piece, false))
  }

  /** A promotion piece lands: add_piece, key_update_piece, then the pawn's material is exchanged for it. */
  function Promote(z: Zobrist, s: State, pawn: int, promotion: int, sq: Square): State
    requires z.Valid() && s.board.Sized() && 0 <= pawn < NPIECES && 0 <= promotion < NPIECES
  {
    Put(z, s, promotion, sq).(material := UpdateMaterial(UpdateMaterial(s.material, pawn, false), promotion, true))
  }

  /** The mover lands on its target: as itself, or as the promotion piece. */
  function Land(z: Zobrist, s: State, m: nat, piece: int, to: Square): State
    requires z.Valid() && s.board.Sized() && 0 <= piece < NPIECES
    requires IsPromotion(m) ==> 0 <= Promotion(m) < NPIECES
  {
    if IsPromotion(m) then Promote(z, s, piece, Promotion(m), to) else Put(z, s, piece, to)
  }

  lemma LandGood(z: Zobrist, s: State, m: nat, piece: int, to: Square)
    requires Good(z, s) && 0 <= piece < NPIECES && s.board.pieces[to] == NO_PIECE
    requires IsPromotion(m) ==> 0 <= Promotion(m) < NPIECES
    ensures Good(z, Land(z, s, m, piece, to))
    ensures Land(z, s, m, piece, to).board.pieces == s.board.pieces[to := if IsPromotion(m) then Promotion(m) else piece]
  {
    if IsPromotion(m) {
      PromoteGood(z, s, piece, Promotion(m), to);
    } else {
      PutGood(z, s, piece, to);
    }
  }

  lemma CaptureGood(z: Zobrist, s: State, sq: Square)
    requires Good(z, s) && s.board.pieces[sq] != NO_PIECE
    ensures Good(z, Capture(z, s, s.board.pieces[sq], sq))
    ensures Capture(z, s, s.board.pieces[sq], sq).board.pieces == s.board.pieces[sq := NO_PIECE]
  {
    TakeGood(z, s, sq);
  }

  lemma PromoteGood(z: Zobrist, s: State, pawn: int, promotion: int, sq: Square)
    requires Good(z, s) && 0 <= pawn < NPIECES && 0 <= promotion < NPIECES && s.board.pieces[sq] == NO_PIECE
    ensures Good(z, Promote(z, s, pawn, promotion, sq))
    ensures Promote(z, s, pawn, promotion, sq).board.pieces == s.board.pieces[sq := promotion]
  {
    PutGood(z, s, promotion, sq);
  }

  /** The square of the pawn an en-passant capture removes, and the ep square a double push leaves. */
  function BehindSquare(stm: Side, to: Square): int
  {
    if stm == WHITE then to - 8 else to + 8
  }

  /** The ep square after a move: behind a pawn that moved two ranks, NO_SQUARE otherwise. */
  function NewEpSquare(piece: Cell, from: Square, to: Square, stm: Side): int
  {
    if Value(piece) == PAWN && (to - from == 16 || from - to == 16) then BehindSquare(stm, to) else NO_SQUARE
  }

  predicate IsCastle(m: nat)
  {
    IsKingsideCastle(m) || IsQueensideCastle(m)
  }

  /** Where the castling rook lands: F1/F8 kingside, D1/D8 queenside. */
  function RookLanding(m: nat, stm: Side): Square
  {
    if IsKingsideCastle(m) then (if stm == WHITE then F1 else F8)
    else (if stm == WHITE then D1 else D8)
  }

  /**
   * What pos_make_move relies on, in the terms of the move's own branches:
   * the mover is a piece of the side to move, a capture takes an enemy
   * piece, an en-passant capture takes the enemy pawn behind the empty
   * target, a castling king takes its own rook on its back rank and both
   * landing squares are free apart from the king and that rook, a promotion
   * is made by a pawn into a piece of its side, a pawn that moves two ranks
   * moves forwards, and a plain move goes to an empty square.  These are the
   * consequences of pos_is_move_pseudo_legal that make and unmake use.
   */
  predicate BoardFits(p: seq<Cell>, stm: Side, m: nat)
    requires |p| == NSQUARES
  {
    var from, to := From(m), ToCastle(m);
    var piece := p[from];
    piece != NO_PIECE && Color(piece) == stm &&
    MoveType(m) in {NORMAL, CAPTURE, PROMOTION, CAPTURE + PROMOTION, EN_PASSANT, KINGSIDE_CASTLE, QUEENSIDE_CASTLE} &&
    (IsPromotion(m) ==> Value(piece) == PAWN && 0 <= Promotion(m) < NPIECES && Color(Promotion(m)) == stm) &&
    (Value(piece) == PAWN && (to - from == 16 || from - to == 16) ==> to - from == (if stm == WHITE then 16 else -16)) &&
    if IsCapture(m) then
      from != to && p[to] != NO_PIECE && Color(p[to]) != stm
    else if IsEnPassant(m) then
      var v := BehindSquare(stm, to);
      from != to && p[to] == NO_PIECE && Value(piece) == PAWN &&
      0 <= v < NSQUARES && v != from && p[v] == PAWN + FlipColor(stm)
    else if IsCastle(m) then
      var rookFrom, rookTo := To(m), RookLanding(m, stm);
      piece == stm + KING && rookFrom != from && p[rookFrom] == stm + ROOK &&
      RankNr(rookFrom) == (if stm == WHITE then 0 else 7) &&
      (p[to] == NO_PIECE || to == from || to == rookFrom) &&
      (p[rookTo] == NO_PIECE || rookTo == from || rookTo == rookFrom)
    else
      from != to && p[to] == NO_PIECE
  }

  /**
   * A valid state and a move that fits it; MakeFits, the table lookups of
   * pos_make_move, follows from the other two (ValidFitsMake) and is
   * spelled out so that MakeMove can be applied at once.
   */
  ghost predicate MoveFits(z: Zobrist, s: State, m: nat)
  {
    Valid(z, s) && BoardFits(s.board.pieces, s.stm, m) && MakeFits(z, s, m)
  }

  /** A valid state and a move that fits its board meet pos_make_move's table lookups. */
  lemma ValidFitsMake(z: Zobrist, s: State, m: nat)
    requires Valid(z, s) && BoardFits(s.board.pieces, s.stm, m)
    ensures MakeFits(z, s, m)
  {
    GoodParts(z, s);
    FitsNewEp(s.board.pieces, s.stm, m);
  }

  /** The parts of Good that the table lookups of pos_make_move use. */
  lemma GoodParts(z: Zobrist, s: State)
    requires Good(z, s)
    ensures z.Valid() && s.board.Sized() && 0 <= s.epSq <= NO_SQUARE && 0 <= s.castle < 16
  {
    assert s.board.Sized();
  }

  /** A move that fits its board has the move's shape and leaves an ep square on the board or none. */
  lemma FitsNewEp(p: seq<Cell>, stm: Side, m: nat)
    requires |p| == NSQUARES && BoardFits(p, stm, m)
    ensures MoveShape(p, stm, m)
    ensures 0 <= NewEpSquare(p[From(m)], From(m), ToCastle(m), stm) <= NO_SQUARE
  {
    FitsShape(p, stm, m);
    var from: int, to: int := From(m), ToCastle(m);
    if Value(p[from]) == PAWN && (to - from == 16 || from - to == 16) {
      assert to - from == (if stm == WHITE then 16 else -16);
    }
  }

  // ---- pos_make_move ---------------------------------------------------------

  /** push_history: the record goes on top, ply and height go up. */
  function PushRecord(s: State, e: Unmake): State
  {
    s.(history := s.history + [e], ply := s.ply + 1, height := s.height + 1)
  }

  /** The first part of pos_make_move: the unmake record, the new ep square and castling flags with their key updates. */
  function MakeStart(z: Zobrist, s: State, m: nat): (r: State)
    requires MakeFits(z, s, m)
    ensures r.board == s.board && r.stm == s.stm && r.material == s.material && r.rooks == s.rooks
    ensures r.fullmove == s.fullmove && r.fifty == s.fifty && r.height == s.height + 1
  {
    var from, to := From(m), ToCastle(m);
    var piece := s.board.pieces[from];
    var s1 := PushRecord(s, Unmake(m, piece, s.board.pieces[to], s.castle, s.epSq, s.fifty, s.key));
    var ep := NewEpSquare(piece, from, to, s.stm);
    var s2 := s1.(epSq := ep, key := UpdateEpSquare(z, s1.key, s.epSq, ep));
    var castle := CastlingAvailability(s.board.pieces, s.stm, s.rooks, s.castle, from, to);
    s2.(castle := castle, key := UpdateCastling(z, s2.key, s.castle, castle))
  }

  /** A new ep square with key_update_ep_square. */
  function NewEp(z: Zobrist, s: State, ep: int): State
    requires z.Valid() && 0 <= s.epSq <= NO_SQUARE && 0 <= ep <= NO_SQUARE
  {
    s.(epSq := ep, key := UpdateEpSquare(z, s.key, s.epSq, ep))
  }

  /** New castling flags with key_update_castling. */
  function NewCastle(z: Zobrist, s: State, castle: int): State
    requires z.Valid() && 0 <= s.castle < 16 && 0 <= castle < 16
  {
    s.(castle := castle, key := UpdateCastling(z, s.key, s.castle, castle))
  }

  /** MakeStart as its three updates, for the method that makes them one at a time. */
  lemma MakeStartSteps(z: Zobrist, s: State, m: nat, e: Unmake, ep: int, castle: int)
    requires MakeFits(z, s, m)
    requires e == Unmake(m, s.board.pieces[From(m)], s.board.pieces[ToCastle(m)], s.castle, s.epSq, s.fifty, s.key)
    requires ep == NewEpSquare(s.board.pieces[From(m)], From(m), ToCastle(m), s.stm)
    requires castle == CastlingAvailability(s.board.pieces, s.stm, s.rooks, s.castle, From(m), ToCastle(m))
    ensures 0 <= ep <= NO_SQUARE && 0 <= castle < 16
    ensures MakeStart(z, s, m) == NewCastle(z, NewEp(z, PushRecord(s, e), ep), castle)
  {
  }

  /**
   * The piece moves of pos_make_move: the mover leaves its square, a
   * captured piece or en-passant pawn is removed with its material, a
   * castling rook leaves its square, the mover (or the promotion piece,
   * with the material exchanged) lands, and a castling rook lands.
   */
  function MakePieces(z: Zobrist, t: State, m: nat): (r: State)
    requires z.Valid() && t.board.Sized() && MoveShape(t.board.pieces, t.stm, m)
    ensures r.stm == t.stm && r.rooks == t.rooks && r.fullmove == t.fullmove && r.fifty == t.fifty
    ensures r.height == t.height && r.history == t.history && r.ply == t.ply && r.epSq == t.epSq && r.castle == t.castle
  {
    var from, to, stm := From(m), ToCastle(m), t.stm;
    var piece, capture := t.board.pieces[from], t.board.pieces[to];
    var t1 := Take(z, t, piece, from);
    var t2 := if IsCapture(m) then Capture(z, t1, capture, to)
              else if IsEnPassant(m) then Capture(z, t1, PAWN + FlipColor(stm), BehindSquare(stm, to))
              else t1;
    var t3 := if IsCastle(m) then Take(z, t2, stm + ROOK, To(m)) else t2;
    var t4 := Land(z, t3, m, piece, to);
    if IsCastle(m) then Put(z, t4, stm + ROOK, RookLanding(m, stm)) else t4
  }

  /** The first half of MakePieces: the mover, a captured or en-passant pawn and a castling rook leave. */
  function Removed(z: Zobrist, t: State, m: nat): (r: State)
    requires z.Valid() && t.board.Sized() && MoveShape(t.board.pieces, t.stm, m)
    ensures r.board.Sized() && r.stm == t.stm
  {
    var from, to, stm := From(m), ToCastle(m), t.stm;
    var piece, capture := t.board.pieces[from], t.board.pieces[to];
    var t1 := Take(z, t, piece, from);
    var t2 := if IsCapture(m) then Capture(z, t1, capture, to)
              else if IsEnPassant(m) then Capture(z, t1, PAWN + FlipColor(stm), BehindSquare(stm, to))
              else t1;
    if IsCastle(m) then Take(z, t2, stm + ROOK, To(m)) else t2
  }

  /** The second half of MakePieces: the mover, or its promotion piece, lands and a castling rook lands. */
  function Placed(z: Zobrist, t3: State, m: nat, piece: Cell): State
    requires z.Valid() && t3.board.Sized() && 0 <= piece < NPIECES
    requires IsPromotion(m) ==> 0 <= Promotion(m) < NPIECES
  {
    var t4 := Land(z, t3, m, piece, ToCastle(m));
    if IsCastle(m) then Put(z, t4, t3.stm + ROOK, RookLanding(m, t3.stm)) else t4
  }

  /** MakePieces in its two halves, for the method that makes the moves one at a time. */
  lemma MakePiecesSplit(z: Zobrist, t: State, m: nat)
    requires z.Valid() && t.board.Sized() && MoveShape(t.board.pieces, t.stm, m)
    ensures MakePieces(z, t, m) == Placed(z, Removed(z, t, m), m, t.board.pieces[From(m)])
  {
  }

  /** The end of pos_make_move: the fifty-move counter, the fullmove number and the side to move with its key update. */
  function MakeFinish(z: Zobrist, t: State, m: nat, piece: Cell): State
    requires z.Valid()
  {
    var fifty := if IsCapture(m) || Value(piece) == PAWN then 0 else t.fifty + 1;
    var fullmove := if t.stm == BLACK then t.fullmove + 1 else t.fullmove;
    var stm := FlipColor(t.stm);
    t.(fifty := fifty, fullmove := fullmove, stm := stm, key := UpdateSide(z, t.key, stm))
  }

  /** pos_make_move up to its legality test: the state after the move. */
  function MakeMove(z: Zobrist, s: State, m: nat): State
    requires MakeFits(z, s, m)
  {
    MakeFinish(z, MakePieces(z, MakeStart(z, s, m), m), m, s.board.pieces[From(m)])
  }

  /** What pos_make_move's table lookups need: the key tables, the board arrays, the ep square, the castling flags, the move's squares and the new ep square. */
  predicate MakeFits(z: Zobrist, s: State, m: nat)
  {
    z.Valid() && s.board.Sized() && 0 <= s.epSq <= NO_SQUARE && 0 <= s.castle < 16 && MoveShape(s.board.pieces, s.stm, m) &&
    0 <= NewEpSquare(s.board.pieces[From(m)], From(m), ToCastle(m), s.stm) <= NO_SQUARE
  }

  /** What indexing the material table, the promotion piece and the en-passant victim's square needs. */
  predicate MoveShape(p: seq<Cell>, stm: Side, m: nat)
    requires |p| == NSQUARES
  {
    p[From(m)] != NO_PIECE && (IsPromotion(m) ==> 0 <= Promotion(m) < NPIECES) &&
    (IsCapture(m) ==> p[ToCastle(m)] != NO_PIECE) &&
    (!IsCapture(m) && IsEnPassant(m) ==> 0 <= BehindSquare(stm, ToCastle(m)) < NSQUARES)
  }

  lemma FitsShape(p: seq<Cell>, stm: Side, m: nat)
    requires |p| == NSQUARES && BoardFits(p, stm, m)
    ensures MoveShape(p, stm, m)
  {
  }

  /** The piece array after pos_make_move's piece moves. */
  function MovedPieces(p: seq<Cell>, stm: Side, m: nat): (r: seq<Cell>)
    requires |p| == NSQUARES && MoveShape(p, stm, m)
    ensures |r| == NSQUARES
  {
    var from, to := From(m), ToCastle(m);
    var p1 := p[from := NO_PIECE];
    var p2 := if !IsCapture(m) && IsEnPassant(m) then p1[BehindSquare(stm, to) := NO_PIECE] else p1;
    var p3 := if IsCastle(m) then p2[To(m) := NO_PIECE] else p2;
    var p4 := p3[to := if IsPromotion(m) then Promotion(m) else p[from]];
    if IsCastle(m) then p4[RookLanding(m, stm) := stm + ROOK] else p4
  }

  /** The record, the new ep square and the new castling flags keep the key equal to key_generate's. */
  lemma MakeStartGood(z: Zobrist, s: State, m: nat)
    requires MoveFits(z, s, m)
    ensures Good(z, MakeStart(z, s, m))
  {
    var from, to := From(m), ToCastle(m);
    var ep := NewEpSquare(s.board.pieces[from], from, to, s.stm);
    var castle := CastlingAvailability(s.board.pieces, s.stm, s.rooks, s.castle, from, to);
    KeyNewEpSquare(z, KeyStateOf(s), ep);
    KeyNewCastling(z, KeyStateOf(s).(ep := ep), castle);
  }

  /** The move kinds BoardFits admits exclude each other as the flag tests of pos_make_move take them. */
  lemma FlagsOfKind(m: nat)
    requires MoveType(m) in {NORMAL, CAPTURE, PROMOTION, CAPTURE + PROMOTION, EN_PASSANT, KINGSIDE_CASTLE, QUEENSIDE_CASTLE}
    ensures IsCastle(m) ==> !IsCapture(m) && !IsEnPassant(m) && !IsPromotion(m)
    ensures IsEnPassant(m) ==> !IsCapture(m) && !IsPromotion(m) && !IsCastle(m)
    ensures IsCapture(m) || IsPromotion(m) ==> !IsEnPassant(m) && !IsCastle(m)
    ensures IsKingsideCastle(m) ==> !IsQueensideCastle(m)
  {
  }

  // Each kind of move is a short chain of Take, Capture, Put and Promote on
  // squares whose contents the move's conditions fix; the chains are proved
  // on their own and then matched with MakePieces.

  lemma CaptureChain(z: Zobrist, t: State, from: Square, to: Square)
    requires Good(z, t) && t.board.pieces[from] != NO_PIECE && t.board.pieces[to] != NO_PIECE && from != to
    ensures var t2 := Capture(z, Take(z, t, t.board.pieces[from], from), t.board.pieces[to], to);
      Good(z, t2) && t2.board.pieces == t.board.pieces[from := NO_PIECE][to := NO_PIECE]
  {
    TakeGood(z, t, from);
    CaptureGood(z, Take(z, t, t.board.pieces[from], from), to);
  }

  lemma EnPassantChain(z: Zobrist, t: State, from: Square, to: Square, v: Square)
    requires Good(z, t) && t.board.pieces[from] != NO_PIECE && t.board.pieces[to] == NO_PIECE && t.board.pieces[v] != NO_PIECE
    requires from != to && v != from && v != to
    ensures var t2 := Capture(z, Take(z, t, t.board.pieces[from], from), t.board.pieces[v], v);
      Good(z, Put(z, t2, t.board.pieces[from], to)) &&
      Put(z, t2, t.board.pieces[from], to).board.pieces == t.board.pieces[from := NO_PIECE][v := NO_PIECE][to := t.board.pieces[from]]
  {
    TakeGood(z, t, from);
    var t1 := Take(z, t, t.board.pieces[from], from);
    CaptureGood(z, t1, v);
    PutGood(z, Capture(z, t1, t.board.pieces[v], v), t.board.pieces[from], to);
  }

  lemma CastleChain(z: Zobrist, t: State, from: Square, rookFrom: Square, kingTo: Square, rookTo: Square)
    requires Good(z, t) && t.board.pieces[from] != NO_PIECE && t.board.pieces[rookFrom] != NO_PIECE && from != rookFrom
    requires kingTo != rookTo
    requires t.board.pieces[kingTo] == NO_PIECE || kingTo == from || kingTo == rookFrom
    requires t.board.pieces[rookTo] == NO_PIECE || rookTo == from || rookTo == rookFrom
    ensures var king, rook := t.board.pieces[from], t.board.pieces[rookFrom];
      var t4 := Put(z, Take(z, Take(z, t, king, from), rook, rookFrom), king, kingTo);
      Good(z, Put(z, t4, rook, rookTo)) &&
      Put(z, t4, rook, rookTo).board.pieces == t.board.pieces[from := NO_PIECE][rookFrom := NO_PIECE][kingTo := king][rookTo := rook]
  {
    var king, rook := t.board.pieces[from], t.board.pieces[rookFrom];
    TakeGood(z, t, from);
    var t1 := Take(z, t, king, from);
    TakeGood(z, t1, rookFrom);
    var t3 := Take(z, t1, rook, rookFrom);
    PutGood(z, t3, king, kingTo);
    PutGood(z, Put(z, t3, king, kingTo), rook, rookTo);
  }

  /** A plain move or a promotion without capture: the mover leaves, the mover or promotion piece lands. */
  lemma MakeQuietGood(z: Zobrist, t: State, m: nat)
    requires Good(z, t) && BoardFits(t.board.pieces, t.stm, m)
    requires !IsCapture(m) && !IsEnPassant(m) && !IsCastle(m)
    ensures Good(z, MakePieces(z, t, m))
    ensures MakePieces(z, t, m).board.pieces == MovedPieces(t.board.pieces, t.stm, m)
  {
    var from, to := From(m), ToCastle(m);
    TakeGood(z, t, from);
    LandGood(z, Take(z, t, t.board.pieces[from], from), m, t.board.pieces[from], to);
  }

  /** A capture, promotion or not: the victim leaves the target before the mover lands on it. */
  lemma MakeCaptureGood(z: Zobrist, t: State, m: nat)
    requires Good(z, t) && BoardFits(t.board.pieces, t.stm, m)
    requires IsCapture(m) && !IsEnPassant(m) && !IsCastle(m)
    ensures Good(z, MakePieces(z, t, m))
    ensures MakePieces(z, t, m).board.pieces == MovedPieces(t.board.pieces, t.stm, m)
  {
    var from, to := From(m), ToCastle(m);
    CaptureChain(z, t, from, to);
    var t2 := Capture(z, Take(z, t, t.board.pieces[from], from), t.board.pieces[to], to);
    LandGood(z, t2, m, t.board.pieces[from], to);
  }

  /** An en-passant capture: the pawn behind the target leaves, the mover lands on the empty target. */
  lemma MakeEnPassantGood(z: Zobrist, t: State, m: nat)
    requires Good(z, t) && BoardFits(t.board.pieces, t.stm, m)
    requires IsEnPassant(m) && !IsCapture(m) && !IsPromotion(m) && !IsCastle(m)
    ensures Good(z, MakePieces(z, t, m))
    ensures MakePieces(z, t, m).board.pieces == MovedPieces(t.board.pieces, t.stm, m)
  {
    var from, to := From(m), ToCastle(m);
    var v := EnPassantSquares(t, m);
    FitsShape(t.board.pieces, t.stm, m);
    EnPassantSteps(z, t, m);
    EnPassantMoved(t.board.pieces, t.stm, m);
    EnPassantChain(z, t, from, to, v);
  }

  /** The squares of an en-passant capture that fits the board: the victim is the enemy pawn behind the empty target. */
  lemma EnPassantSquares(t: State, m: nat) returns (v: Square)
    requires t.board.Sized() && BoardFits(t.board.pieces, t.stm, m)
    requires IsEnPassant(m) && !IsCapture(m) && !IsCastle(m)
    ensures v == BehindSquare(t.stm, ToCastle(m))
    ensures var from, to, p := From(m), ToCastle(m), t.board.pieces;
      p[from] != NO_PIECE && p[to] == NO_PIECE && p[v] == PAWN + FlipColor(t.stm) &&
      from != to && v != from && v != to
  {
    v := BehindSquare(t.stm, ToCastle(m));
  }

  /** MakePieces on an en-passant capture is the chain EnPassantChain proves. */
  lemma EnPassantSteps(z: Zobrist, t: State, m: nat)
    requires z.Valid() && t.board.Sized() && MoveShape(t.board.pieces, t.stm, m)
    requires IsEnPassant(m) && !IsCapture(m) && !IsPromotion(m) && !IsCastle(m)
    requires t.board.pieces[BehindSquare(t.stm, ToCastle(m))] == PAWN + FlipColor(t.stm)
    ensures var p, v := t.board.pieces, BehindSquare(t.stm, ToCastle(m));
      MakePieces(z, t, m) == Put(z, Capture(z, Take(z, t, p[From(m)], From(m)), p[v], v), p[From(m)], ToCastle(m))
  {
  }

  /** MovedPieces on an en-passant capture: the mover and the victim leave, the mover lands. */
  lemma EnPassantMoved(p: seq<Cell>, stm: Side, m: nat)
    requires |p| == NSQUARES && MoveShape(p, stm, m)
    requires IsEnPassant(m) && !IsCapture(m) && !IsPromotion(m) && !IsCastle(m)
    ensures MovedPieces(p, stm, m) == p[From(m) := NO_PIECE][BehindSquare(stm, ToCastle(m)) := NO_PIECE][ToCastle(m) := p[From(m)]]
  {
  }

  /** Castling: king and rook both leave before either lands, so Chess960 overlaps are harmless. */
  lemma MakeCastleGood(z: Zobrist, t: State, m: nat)
    requires Good(z, t) && BoardFits(t.board.pieces, t.stm, m)
    requires IsCastle(m) && !IsCapture(m) && !IsEnPassant(m) && !IsPromotion(m)
    ensures Good(z, MakePieces(z, t, m))
    ensures MakePieces(z, t, m).board.pieces == MovedPieces(t.board.pieces, t.stm, m)
  {
    var from, to, stm := From(m), ToCastle(m), t.stm;
    CastleChain(z, t, from, To(m), to, RookLanding(m, stm));
  }

  /** The piece moves keep the board consistent and the key equal to key_generate's. */
  lemma MakePiecesGood(z: Zobrist, t: State, m: nat)
    requires Good(z, t) && BoardFits(t.board.pieces, t.stm, m)
    ensures Good(z, MakePieces(z, t, m))
    ensures MakePieces(z, t, m).board.pieces == MovedPieces(t.board.pieces, t.stm, m)
  {
    FlagsOfKind(m);
    if IsCastle(m) {
      MakeCastleGood(z, t, m);
    } else if IsCapture(m) {
      MakeCaptureGood(z, t, m);
    } else if IsEnPassant(m) {
      MakeEnPassantGood(z, t, m);
    } else {
      MakeQuietGood(z, t, m);
    }
  }

  /** pos_make_move, up to the legality test, leaves a valid state with the record on top of the history. */
  lemma MakeMoveValid(z: Zobrist, s: State, m: nat)
    requires MoveFits(z, s, m)
    ensures Valid(z, MakeMove(z, s, m))
    ensures MakeMove(z, s, m).board.pieces == MovedPieces(s.board.pieces, s.stm, m)
    ensures MakeMove(z, s, m).history == s.history + [Unmake(m, s.board.pieces[From(m)], s.board.pieces[ToCastle(m)], s.castle, s.epSq, s.fifty, s.key)]
    ensures MakeMove(z, s, m).stm == FlipColor(s.stm)
  {
    var t := MakeStart(z, s, m);
    MakeStartGood(z, s, m);
    MakePiecesGood(z, t, m);
    KeyNewSide(z, KeyStateOf(MakePieces(z, t, m)));
  }

  /** The material after the piece moves: a captured piece or en-passant pawn is taken off, a promotion exchanges the pawn for its piece. */
  function MovedMaterial(material: int, p: seq<Cell>, stm: Side, m: nat): int
    requires |p| == NSQUARES && MoveShape(p, stm, m)
  {
    var mat1 := if IsCapture(m) then UpdateMaterial(material, p[ToCastle(m)], false)
                else if IsEnPassant(m) then UpdateMaterial(material, PAWN + FlipColor(stm), false)
                else material;
    if IsPromotion(m) then UpdateMaterial(UpdateMaterial(mat1, p[From(m)], false), Promotion(m), true) else mat1
  }

  lemma MakePiecesMaterial(z: Zobrist, t: State, m: nat)
    requires z.Valid() && t.board.Sized() && MoveShape(t.board.pieces, t.stm, m)
    ensures MakePieces(z, t, m).material == MovedMaterial(t.material, t.board.pieces, t.stm, m)
  {
  }

  /** The counters pos_make_move changes besides the board and key. */
  lemma MakeMoveCounters(z: Zobrist, s: State, m: nat)
    requires MoveFits(z, s, m)
    ensures var q := MakeMove(z, s, m);
      q.material == MovedMaterial(s.material, s.board.pieces, s.stm, m) &&
      q.rooks == s.rooks && q.height == s.height + 1 &&
      q.fullmove == (if s.stm == BLACK then s.fullmove + 1 else s.fullmove) &&
      q.fifty == (if IsCapture(m) || Value(s.board.pieces[From(m)]) == PAWN then 0 else s.fifty + 1)
  {
    FitsShape(s.board.pieces, s.stm, m);
    MakePiecesMaterial(z, MakeStart(z, s, m), m);
  }

  // ---- pos_unmake_move ---------------------------------------------------------

  /** pop_history: ply goes down, height too unless it is already 0. */
  function PopRecord(s: State): State
    requires |s.history| > 0 && s.ply > 0
  {
    s.(history := s.history[..|s.history| - 1], ply := s.ply - 1, height := if s.height > 0 then s.height - 1 else 0)
  }

  /** What pos_unmake_move needs to index its tables: a record to pop and the piece moves it asks for. */
  predicate UnmakeFits(s: State)
  {
    |s.history| > 0 && s.ply > 0 && PiecesUnmake(s.board, s.history[|s.history| - 1], s.stm)
  }

  /**
   * What the piece moves of pos_unmake_move need on the board b with color
   * to move: a piece on the move's target, a captured piece to put back, and
   * an en-passant victim's square on the board.
   */
  predicate PiecesUnmake(b: Placement, e: Unmake, color: Side)
  {
    var to := ToCastle(e.move);
    b.Sized() && b.pieces[to] != NO_PIECE &&
    (IsCapture(e.move) ==> e.capture != NO_PIECE) &&
    (!IsCapture(e.move) && IsEnPassant(e.move) ==> 0 <= BehindSquare(FlipColor(color), to) < NSQUARES)
  }

  /**
   * The piece moves of pos_unmake_move, made while color, the opponent of
   * the mover, is still to move: the piece on the target and a castling
   * rook leave (UnmakeLift), then the mover, a captured piece or
   * en-passant pawn and a castling rook return (UnmakeReturn).
   */
  function UnmakePieces(b: Placement, material: int, e: Unmake, color: Side): (Placement, int)
    requires PiecesUnmake(b, e, color)
  {
    var lifted := UnmakeLift(b, material, e, color);
    var to := ToCastle(e.move);
    var mover := if IsPromotion(e.move) then PAWN + FlipColor(color) else b.pieces[to];
    UnmakeReturn(lifted.0, lifted.1, e, color, mover)
  }

  /** The piece on the target leaves (a promoted piece gives its material back to a pawn), and a castling rook leaves its landing square. */
  function UnmakeLift(b: Placement, material: int, e: Unmake, color: Side): (r: (Placement, int))
    requires b.Sized() && b.pieces[ToCastle(e.move)] != NO_PIECE
    ensures r.0.Sized()
  {
    var m, moveColor := e.move, FlipColor(color);
    var to := ToCastle(m);
    var piece := b.pieces[to];
    var b1 := RemovePiece(b, piece, to);
    var mat1 := if IsPromotion(m) then UpdateMaterial(UpdateMaterial(material, piece, false), PAWN + moveColor, true) else material;
    (if IsCastle(m) then RemovePiece(b1, moveColor + ROOK, RookLanding(m, moveColor)) else b1, mat1)
  }

  /** The mover goes back to its square, a captured piece or en-passant pawn returns with its material, and a castling rook returns. */
  function UnmakeReturn(b2: Placement, mat1: int, e: Unmake, color: Side, mover: Cell): (r: (Placement, int))
    requires b2.Sized() && 0 <= mover < NPIECES
    requires IsCapture(e.move) ==> e.capture != NO_PIECE
    requires !IsCapture(e.move) && IsEnPassant(e.move) ==> 0 <= BehindSquare(FlipColor(color), ToCastle(e.move)) < NSQUARES
    ensures r.0.Sized()
  {
    var m, moveColor := e.move, FlipColor(color);
    var to := ToCastle(m);
    var b3 := AddPiece(b2, mover, From(m));
    var b4 := if IsCapture(m) then AddPiece(b3, e.capture, to)
              else if IsEnPassant(m) then AddPiece(b3, PAWN + color, BehindSquare(moveColor, to))
              else b3;
    var mat2 := if IsCapture(m) then UpdateMaterial(mat1, e.capture, true)
                else if IsEnPassant(m) then UpdateMaterial(mat1, PAWN + color, true)
                else mat1;
    (if IsCastle(m) then AddPiece(b4, moveColor + ROOK, To(m)) else b4, mat2)
  }

  /** pos_unmake_move: the record is popped and its fields restored, the pieces move back, the fullmove number and side to move go back. */
  function UnmakeMove(s: State): State
    requires UnmakeFits(s)
  {
    UnmakeFinish(UnmakeBoard(UnmakeRestore(s), s.history[|s.history| - 1]))
  }

  /** pop_history, and the castling flags, ep square, fifty-move counter and key of the popped record. */
  function UnmakeRestore(s: State): State
    requires |s.history| > 0 && s.ply > 0
  {
    var e := s.history[|s.history| - 1];
    PopRecord(s).(castle := e.castle, epSq := e.epSq, fifty := e.fifty, key := e.key)
  }

  /** The board and material after the piece moves of pos_unmake_move. */
  function UnmakeBoard(t: State, e: Unmake): State
    requires PiecesUnmake(t.board, e, t.stm)
  {
    var r := UnmakePieces(t.board, t.material, e, t.stm);
    t.(board := r.0, material := r.1)
  }

  /** The fullmove number goes back when white is to move, and the side to move flips back. */
  function UnmakeFinish(t: State): State
  {
    t.(fullmove := if t.stm == WHITE then t.fullmove - 1 else t.fullmove, stm := FlipColor(t.stm))
  }

  /** UnmakeMove in its three parts, for the method that makes them one at a time. */
  lemma UnmakeMoveSteps(s: State)
    requires UnmakeFits(s)
    ensures var e := s.history[|s.history| - 1];
      PiecesUnmake(UnmakeRestore(s).board, e, UnmakeRestore(s).stm) &&
      UnmakeMove(s) == UnmakeFinish(UnmakeBoard(UnmakeRestore(s), e))
  {
  }

  // The round trip: each kind of move is taken back by a chain of
  // RemovePiece and AddPiece that ends on a consistent board with the piece
  // array of the start, which PlacementDetermined turns into the start.

  lemma UnmakeQuietChain(b0: Placement, b: Placement, from: Square, to: Square, lands: int)
    requires b0.Consistent() && b.Consistent() && from != to && 0 <= lands < NPIECES
    requires b0.pieces[from] != NO_PIECE && b0.pieces[to] == NO_PIECE
    requires b.pieces == b0.pieces[from := NO_PIECE][to := lands]
    ensures AddPiece(RemovePiece(b, lands, to), b0.pieces[from], from) == b0
  {
    var p := b0.pieces;
    RemovePieceConsistent(b, lands, to);
    var b1 := RemovePiece(b, lands, to);
    assert b1.pieces == p[from := NO_PIECE];
    AddPieceConsistent(b1, p[from], from);
    var b2 := AddPiece(b1, p[from], from);
    assert b2.pieces == p;
    PlacementDetermined(b2, b0);
  }

  lemma UnmakeCaptureChain(b0: Placement, b: Placement, from: Square, to: Square, lands: int)
    requires b0.Consistent() && b.Consistent() && from != to && 0 <= lands < NPIECES
    requires b0.pieces[from] != NO_PIECE && b0.pieces[to] != NO_PIECE
    requires b.pieces == b0.pieces[from := NO_PIECE][to := lands]
    ensures AddPiece(AddPiece(RemovePiece(b, lands, to), b0.pieces[from], from), b0.pieces[to], to) == b0
  {
    var p := b0.pieces;
    RemovePieceConsistent(b, lands, to);
    var b1 := RemovePiece(b, lands, to);
    assert b1.pieces == p[from := NO_PIECE][to := NO_PIECE];
    AddPieceConsistent(b1, p[from], from);
    var b2 := AddPiece(b1, p[from], from);
    AddPieceConsistent(b2, p[to], to);
    var b3 := AddPiece(b2, p[to], to);
    assert b3.pieces == p;
    PlacementDetermined(b3, b0);
  }

  lemma UnmakeEnPassantChain(b0: Placement, b: Placement, from: Square, to: Square, v: Square)
    requires b0.Consistent() && b.Consistent() && from != to && v != from && v != to
    requires b0.pieces[from] != NO_PIECE && b0.pieces[to] == NO_PIECE && b0.pieces[v] != NO_PIECE
    requires b.pieces == b0.pieces[from := NO_PIECE][v := NO_PIECE][to := b0.pieces[from]]
    ensures AddPiece(AddPiece(RemovePiece(b, b0.pieces[from], to), b0.pieces[from], from), b0.pieces[v], v) == b0
  {
    var p := b0.pieces;
    RemovePieceConsistent(b, p[from], to);
    var b1 := RemovePiece(b, p[from], to);
    assert b1.pieces == p[from := NO_PIECE][v := NO_PIECE];
    AddPieceConsistent(b1, p[from], from);
    var b2 := AddPiece(b1, p[from], from);
    AddPieceConsistent(b2, p[v], v);
    var b3 := AddPiece(b2, p[v], v);
    assert b3.pieces == p;
    PlacementDetermined(b3, b0);
  }

  lemma UnmakeCastleChain(b0: Placement, b: Placement, from: Square, rookFrom: Square, kingTo: Square, rookTo: Square)
    requires b0.Consistent() && b.Consistent() && from != rookFrom && kingTo != rookTo
    requires b0.pieces[from] != NO_PIECE && b0.pieces[rookFrom] != NO_PIECE
    requires b0.pieces[kingTo] == NO_PIECE || kingTo == from || kingTo == rookFrom
    requires b0.pieces[rookTo] == NO_PIECE || rookTo == from || rookTo == rookFrom
    requires b.pieces == b0.pieces[from := NO_PIECE][rookFrom := NO_PIECE][kingTo := b0.pieces[from]][rookTo := b0.pieces[rookFrom]]
    ensures var king, rook := b0.pieces[from], b0.pieces[rookFrom];
      AddPiece(AddPiece(RemovePiece(RemovePiece(b, king, kingTo), rook, rookTo), king, from), rook, rookFrom) == b0
  {
    var p: seq<Cell> := b0.pieces;
    var king, rook := p[from], p[rookFrom];
    RemovePieceConsistent(b, king, kingTo);
    var b1 := RemovePiece(b, king, kingTo);
    RemovePieceConsistent(b1, rook, rookTo);
    var b2 := RemovePiece(b1, rook, rookTo);
    assert b2.pieces == p[from := NO_PIECE][rookFrom := NO_PIECE];
    AddPieceConsistent(b2, king, from);
    var b3 := AddPiece(b2, king, from);
    AddPieceConsistent(b3, rook, rookFrom);
    var b4 := AddPiece(b3, rook, rookFrom);
    assert b4.pieces == p;
    PlacementDetermined(b4, b0);
  }

  /** A pawn of side stm is the piece PAWN + stm. */
  lemma PawnOfSide(piece: Cell, stm: Side)
    requires piece != NO_PIECE && Value(piece) == PAWN && Color(piece) == stm
    ensures piece == PAWN + stm
  {
  }

  /** b is the board pos_make_move leaves after the move of e, made by stm on the consistent board b0 it fits. */
  ghost predicate Restorable(b0: Placement, b: Placement, stm: Side, e: Unmake)
  {
    b0.Consistent() && b.Consistent() && BoardFits(b0.pieces, stm, e.move) && MoveShape(b0.pieces, stm, e.move) &&
    e.capture == b0.pieces[ToCastle(e.move)] && b.pieces == MovedPieces(b0.pieces, stm, e.move)
  }

  lemma RestoreQuiet(b0: Placement, b: Placement, material: int, stm: Side, e: Unmake)
    requires Restorable(b0, b, stm, e)
    requires !IsCapture(e.move) && !IsEnPassant(e.move) && !IsCastle(e.move)
    ensures PiecesUnmake(b, e, FlipColor(stm))
    ensures UnmakePieces(b, MovedMaterial(material, b0.pieces, stm, e.move), e, FlipColor(stm)) == (b0, material)
  {
    var m, p := e.move, b0.pieces;
    var from, to := From(m), ToCastle(m);
    var lands := if IsPromotion(m) then Promotion(m) else p[from];
    assert b.pieces == p[from := NO_PIECE][to := lands];
    UnmakeQuietChain(b0, b, from, to, lands);
    if IsPromotion(m) {
      PawnOfSide(p[from], stm);
      UpdateMaterialSigned(UpdateMaterial(material, p[from], false), lands);
      UpdateMaterialSigned(material, p[from]);
    }
  }

  lemma RestoreCapture(b0: Placement, b: Placement, material: int, stm: Side, e: Unmake)
    requires Restorable(b0, b, stm, e)
    requires IsCapture(e.move) && !IsEnPassant(e.move) && !IsCastle(e.move)
    ensures PiecesUnmake(b, e, FlipColor(stm))
    ensures UnmakePieces(b, MovedMaterial(material, b0.pieces, stm, e.move), e, FlipColor(stm)) == (b0, material)
  {
    var m, p := e.move, b0.pieces;
    var from, to := From(m), ToCastle(m);
    var lands := if IsPromotion(m) then Promotion(m) else p[from];
    assert b.pieces == p[from := NO_PIECE][to := lands];
    UnmakeCaptureChain(b0, b, from, to, lands);
    var color := FlipColor(stm);
    var mat1 := UpdateMaterial(material, p[to], false);
    var moved := MovedMaterial(material, p, stm, m);
    var b1 := RemovePiece(b, lands, to);
    var lifted := if IsPromotion(m) then UpdateMaterial(UpdateMaterial(moved, lands, false), PAWN + stm, true) else moved;
    assert b.pieces[to] == lands && FlipColor(color) == stm;
    assert UnmakeLift(b, moved, e, color) == (b1, lifted);
    if IsPromotion(m) {
      PawnOfSide(p[from], stm);
      assert moved == UpdateMaterial(UpdateMaterial(mat1, p[from], false), lands, true);
      UpdateMaterialSigned(UpdateMaterial(mat1, p[from], false), lands);
      UpdateMaterialSigned(mat1, p[from]);
    }
    assert lifted == mat1;
    assert UnmakeReturn(b1, mat1, e, color, p[from]) == (AddPiece(AddPiece(b1, p[from], from), p[to], to), UpdateMaterial(mat1, p[to], true));
    UpdateMaterialSigned(material, p[to]);
  }

  lemma RestoreEnPassant(b0: Placement, b: Placement, material: int, stm: Side, e: Unmake)
    requires Restorable(b0, b, stm, e)
    requires IsEnPassant(e.move) && !IsCapture(e.move) && !IsPromotion(e.move) && !IsCastle(e.move)
    ensures PiecesUnmake(b, e, FlipColor(stm))
    ensures UnmakePieces(b, MovedMaterial(material, b0.pieces, stm, e.move), e, FlipColor(stm)) == (b0, material)
  {
    var m, p := e.move, b0.pieces;
    var from, to := From(m), ToCastle(m);
    var v: Square := BehindSquare(stm, to);
    var color := FlipColor(stm);
    EnPassantMoved(p, stm, m);
    UnmakeEnPassantChain(b0, b, from, to, v);
    var mat1 := MovedMaterial(material, p, stm, m);
    assert mat1 == UpdateMaterial(material, PAWN + color, false);
    assert b.pieces[to] == p[from];
    var b1 := RemovePiece(b, p[from], to);
    assert UnmakeLift(b, mat1, e, color) == (b1, mat1);
    assert p[v] == PAWN + color && FlipColor(color) == stm;
    assert UnmakeReturn(b1, mat1, e, color, p[from]) == (AddPiece(AddPiece(b1, p[from], from), p[v], v), UpdateMaterial(mat1, p[v], true));
    UpdateMaterialSigned(material, p[v]);
  }

  lemma RestoreCastle(b0: Placement, b: Placement, material: int, stm: Side, e: Unmake)
    requires Restorable(b0, b, stm, e)
    requires IsCastle(e.move) && !IsCapture(e.move) && !IsEnPassant(e.move) && !IsPromotion(e.move)
    ensures PiecesUnmake(b, e, FlipColor(stm))
    ensures UnmakePieces(b, MovedMaterial(material, b0.pieces, stm, e.move), e, FlipColor(stm)) == (b0, material)
  {
    var m, p := e.move, b0.pieces;
    var from, to, rookTo := From(m), ToCastle(m), RookLanding(m, stm);
    var color := FlipColor(stm);
    UnmakeCastleChain(b0, b, from, To(m), to, rookTo);
    assert MovedMaterial(material, p, stm, m) == material;
    assert b.pieces[to] == p[from] && FlipColor(color) == stm && p[To(m)] == stm + ROOK;
    var b2 := RemovePiece(RemovePiece(b, p[from], to), stm + ROOK, rookTo);
    assert UnmakeLift(b, material, e, color) == (b2, material);
    assert UnmakeReturn(b2, material, e, color, p[from]) == (AddPiece(AddPiece(b2, p[from], from), stm + ROOK, To(m)), material);
  }

  /** pos_unmake_move's piece moves take the board and material of pos_make_move's back to where they were. */
  lemma UnmakePiecesRestores(b0: Placement, b: Placement, material: int, stm: Side, e: Unmake)
    requires Restorable(b0, b, stm, e)
    ensures PiecesUnmake(b, e, FlipColor(stm))
    ensures UnmakePieces(b, MovedMaterial(material, b0.pieces, stm, e.move), e, FlipColor(stm)) == (b0, material)
  {
    FlagsOfKind(e.move);
    if IsCastle(e.move) {
      RestoreCastle(b0, b, material, stm, e);
    } else if IsCapture(e.move) {
      RestoreCapture(b0, b, material, stm, e);
    } else if IsEnPassant(e.move) {
      RestoreEnPassant(b0, b, material, stm, e);
    } else {
      RestoreQuiet(b0, b, material, stm, e);
    }
  }

  /**
   * pos_unmake_move undoes pos_make_move: the state comes back whole, the
   * board, key, ep square, castling flags, fifty-move counter, material,
   * fullmove number, side to move and the history stack.
   */
  lemma MakeUnmakeRoundTrip(z: Zobrist, s: State, m: nat)
    requires MoveFits(z, s, m)
    ensures UnmakeFits(MakeMove(z, s, m)) && UnmakeMove(MakeMove(z, s, m)) == s
  {
    var q := MakeMove(z, s, m);
    var e := Unmake(m, s.board.pieces[From(m)], s.board.pieces[ToCastle(m)], s.castle, s.epSq, s.fifty, s.key);
    MakeMoveValid(z, s, m);
    MakeMoveCounters(z, s, m);
    FitsShape(s.board.pieces, s.stm, m);
    assert q.history[|q.history| - 1] == e;
    assert q.history[..|q.history| - 1] == s.history;
    UnmakePiecesRestores(s.board, q.board, s.material, s.stm, e);
    var t := UnmakeBoard(UnmakeRestore(q), e);
    assert t.board == s.board && t.material == s.material;
  }

  // ---- pos_in_check -----------------------------------------------------------

  /** LSB: the lowest square of a bitboard from i on, NO_SQUARE when it has none. */
  function LowestSquare(b: Bitboard, i: nat): (r: int)
    requires i <= NSQUARES
    ensures i <= r <= NSQUARES && (r < NSQUARES ==> r in b)
    ensures forall j :: i <= j < r ==> j !in b
    decreases NSQUARES - i
  {
    if i == NSQUARES then NSQUARES else if i in b then i else LowestSquare(b, i + 1)
  }

  /** The king bitboard of the side is not empty, so LSB is defined on it. */
  predicate HasKing(b: Placement, side: Side)
    requires b.Sized()
  {
    LowestSquare(b.bbPieces[KING + side], 0) < NSQUARES
  }

  /** pos_in_check: the lowest square of the side's king bitboard is attacked by the other side. */
  predicate InCheck(b: Placement, side: Side)
    requires b.Sized() && PieceBoards(b.bbPieces) && HasKing(b, side)
  {
    IsAttacked(b.bbPieces, b.bbAll, LowestSquare(b.bbPieces[KING + side], 0), FlipColor(side))
  }

  /** Consistent bitboards hold squares of the board only. */
  lemma ConsistentBoards(b: Placement)
    requires b.Consistent()
    ensures b.Sized() && PieceBoards(b.bbPieces)
  {
    forall k | 0 <= k < NPIECES
      ensures OnBoard(b.bbPieces[k])
    {
      assert b.bbPieces[k] == PieceSquares(b.pieces, k);
    }
  }

  /** A king on the piece array of a consistent board is found by LSB on its bitboard. */
  lemma KingFound(b: Placement, side: Side, x: Square)
    requires b.Consistent() && b.pieces[x] == side + KING
    ensures HasKing(b, side)
  {
    assert b.bbPieces[KING + side] == PieceSquares(b.pieces, KING + side);
    assert x in b.bbPieces[KING + side];
  }

  /** The mover's king is somewhere on the board after the piece moves. */
  lemma KingSurvives(p: seq<Cell>, stm: Side, m: nat, x: Square) returns (y: Square)
    requires |p| == NSQUARES && BoardFits(p, stm, m) && MoveShape(p, stm, m) && p[x] == stm + KING
    ensures MovedPieces(p, stm, m)[y] == stm + KING
  {
    FlagsOfKind(m);
    if x == From(m) {
      y := ToCastle(m);
      KingLands(p, stm, m);
    } else {
      y := x;
      KingStays(p, stm, m, x);
    }
  }

  /** A king that moves is found on its landing square, castling or not. */
  lemma KingLands(p: seq<Cell>, stm: Side, m: nat)
    requires |p| == NSQUARES && BoardFits(p, stm, m) && MoveShape(p, stm, m) && p[From(m)] == stm + KING
    requires IsCastle(m) ==> !IsCapture(m) && !IsEnPassant(m) && !IsPromotion(m)
    requires IsKingsideCastle(m) ==> !IsQueensideCastle(m)
    ensures MovedPieces(p, stm, m)[ToCastle(m)] == stm + KING
  {
  }

  /** A king that does not move is neither taken nor covered. */
  lemma KingStays(p: seq<Cell>, stm: Side, m: nat, x: Square)
    requires |p| == NSQUARES && BoardFits(p, stm, m) && MoveShape(p, stm, m) && p[x] == stm + KING && x != From(m)
    requires IsCastle(m) ==> !IsCapture(m) && !IsEnPassant(m) && !IsPromotion(m)
    requires IsEnPassant(m) ==> !IsCapture(m) && !IsPromotion(m) && !IsCastle(m)
    ensures MovedPieces(p, stm, m)[x] == stm + KING
  {
    KingNotTaken(p, stm, m, x);
    KingNotCovered(p, stm, m, x);
    MovedElsewhere(p, stm, m, x);
  }

  /** The mover's own king is not on the square a move lands on or clears by en passant. */
  lemma KingNotTaken(p: seq<Cell>, stm: Side, m: nat, x: Square)
    requires |p| == NSQUARES && BoardFits(p, stm, m) && p[x] == stm + KING && x != From(m)
    requires IsEnPassant(m) ==> !IsCapture(m) && !IsCastle(m)
    ensures x != ToCastle(m)
    ensures !IsCapture(m) && IsEnPassant(m) ==> x != BehindSquare(stm, ToCastle(m))
  {
  }

  /** Castling neither lifts nor covers a king that stays. */
  lemma KingNotCovered(p: seq<Cell>, stm: Side, m: nat, x: Square)
    requires |p| == NSQUARES && BoardFits(p, stm, m) && p[x] == stm + KING && x != From(m)
    requires IsCastle(m) ==> !IsCapture(m) && !IsEnPassant(m) && !IsPromotion(m)
    ensures IsCastle(m) ==> x != To(m) && x != RookLanding(m, stm)
  {
  }

  /** A square the move neither leaves, clears nor lands on keeps its piece. */
  lemma MovedElsewhere(p: seq<Cell>, stm: Side, m: nat, x: Square)
    requires |p| == NSQUARES && MoveShape(p, stm, m)
    requires x != From(m) && x != ToCastle(m)
    requires !IsCapture(m) && IsEnPassant(m) ==> x != BehindSquare(stm, ToCastle(m))
    requires IsCastle(m) ==> x != To(m) && x != RookLanding(m, stm)
    ensures MovedPieces(p, stm, m)[x] == p[x]
  {
  }

  /** After pos_make_move's piece moves the mover's king is still found by LSB, so pos_in_check can be asked. */
  lemma MakeMoveKeepsKing(z: Zobrist, s: State, m: nat, x: Square)
    requires MoveFits(z, s, m) && s.board.pieces[x] == s.stm + KING
    ensures var q := MakeMove(z, s, m); q.board.Sized() && PieceBoards(q.board.bbPieces) && HasKing(q.board, s.stm)
  {
    var q := MakeMove(z, s, m);
    MakeMoveValid(z, s, m);
    FitsShape(s.board.pieces, s.stm, m);
    var y := KingSurvives(s.board.pieces, s.stm, m, x);
    ConsistentBoards(q.board);
    KingFound(q.board, s.stm, y);
  }

  /**
   * pos_make_move's legality test on a move that fits a state whose side to
   * move has a king: after the move LSB finds the mover's king and it is
   * not attacked.
   */
  ghost predicate LeavesKingSafe(z: Zobrist, s: State, m: nat)
  {
    MoveFits(z, s, m) &&
    var q := MakeMove(z, s, m).board;
    q.Sized() && PieceBoards(q.bbPieces) && HasKing(q, s.stm) && !InCheck(q, s.stm)
  }

  /** What the object's pos_make_move needs to ask pos_in_check and to take an illegal move back. */
  lemma MakeMoveChecked(z: Zobrist, s: State, m: nat)
    requires MoveFits(z, s, m) && s.stm + KING in s.board.pieces
    ensures var q := MakeMove(z, s, m);
      q.board.Sized() && PieceBoards(q.board.bbPieces) && HasKing(q.board, s.stm) &&
      (LeavesKingSafe(z, s, m) <==> !InCheck(q.board, s.stm)) &&
      UnmakeFits(q) && UnmakeMove(q) == s
  {
    var x :| 0 <= x < NSQUARES && s.board.pieces[x] == s.stm + KING;
    MakeMoveKeepsKing(z, s, m, x);
    MakeUnmakeRoundTrip(z, s, m);
  }

  // ---- pos_has_non_pawn ---------------------------------------------------------

  /** pos_has_non_pawn: the union of the side's knight, bishop, rook and queen bitboards is not empty. */
  predicate HasNonPawn(b: Placement, side: Side)
    requires b.Sized()
  {
    b.bbPieces[KNIGHT + side] + b.bbPieces[BISHOP + side] + b.bbPieces[ROOK + side] + b.bbPieces[QUEEN + side] != {}
  }

  /** A piece of the side that is neither a pawn nor a king. */
  predicate IsOfficer(piece: Cell, side: Side)
  {
    piece != NO_PIECE && Color(piece) == side && Value(piece) != PAWN && Value(piece) != KING
  }

  /** On a consistent board, pos_has_non_pawn holds exactly when the piece array has a knight, bishop, rook or queen of the side. */
  lemma HasNonPawnSpec(b: Placement, side: Side)
    requires b.Consistent()
    ensures HasNonPawn(b, side) <==> exists x :: 0 <= x < NSQUARES && IsOfficer(b.pieces[x], side)
  {
    var n, bi, r, q := KNIGHT + side, BISHOP + side, ROOK + side, QUEEN + side;
    assert b.bbPieces[n] == PieceSquares(b.pieces, n) && b.bbPieces[bi] == PieceSquares(b.pieces, bi);
    assert b.bbPieces[r] == PieceSquares(b.pieces, r) && b.bbPieces[q] == PieceSquares(b.pieces, q);
    if HasNonPawn(b, side) {
      var x := Pick(b.bbPieces[n] + b.bbPieces[bi] + b.bbPieces[r] + b.bbPieces[q]);
      assert IsOfficer(b.pieces[x], side);
    }
    if exists x :: 0 <= x < NSQUARES && IsOfficer(b.pieces[x], side) {
      var x :| 0 <= x < NSQUARES && IsOfficer(b.pieces[x], side);
      assert x in b.bbPieces[b.pieces[x]];
    }
  }

  // ---- the null move ------------------------------------------------------------

  /** pos_make_null_move: a record with NULLMOVE, no ep square, fifty up, the fullmove number after black, the side flipped. */
  function MakeNullMove(z: Zobrist, s: State): State
    requires z.Valid() && 0 <= s.epSq <= NO_SQUARE
  {
    var s1 := PushRecord(s, Unmake(NULLMOVE, NO_PIECE, NO_PIECE, s.castle, s.epSq, s.fifty, s.key));
    var s2 := s1.(epSq := NO_SQUARE, key := UpdateEpSquare(z, s1.key, s.epSq, NO_SQUARE));
    var s3 := s2.(fifty := s.fifty + 1, fullmove := if s.stm == BLACK then s.fullmove + 1 else s.fullmove);
    s3.(stm := FlipColor(s.stm), key := UpdateSide(z, s3.key, FlipColor(s.stm)))
  }

  /** The end of pos_make_null_move: fifty goes up, the fullmove number after black, the side flips with its key update. */
  function PassSide(z: Zobrist, t: State): State
    requires z.Valid()
  {
    var stm := FlipColor(t.stm);
    t.(fifty := t.fifty + 1, fullmove := if t.stm == BLACK then t.fullmove + 1 else t.fullmove, stm := stm, key := UpdateSide(z, t.key, stm))
  }

  /** MakeNullMove as its three updates, for the method that makes them one at a time. */
  lemma MakeNullMoveSteps(z: Zobrist, s: State)
    requires z.Valid() && 0 <= s.epSq <= NO_SQUARE
    ensures var e := Unmake(NULLMOVE, NO_PIECE, NO_PIECE, s.castle, s.epSq, s.fifty, s.key);
      MakeNullMove(z, s) == PassSide(z, NewEp(z, PushRecord(s, e), NO_SQUARE))
  {
  }

  /** pos_unmake_null_move: pops the record and restores castle, ep square, fifty and key; the fullmove number goes back after white. */
  function UnmakeNullMove(s: State): State
    requires |s.history| > 0 && s.ply > 0 && IsNullMove(s.history[|s.history| - 1].move)
  {
    var e := s.history[|s.history| - 1];
    var t := PopRecord(s).(castle := e.castle, epSq := e.epSq, fifty := e.fifty, key := e.key);
    t.(fullmove := if s.stm == WHITE then s.fullmove - 1 else s.fullmove, stm := FlipColor(s.stm))
  }

  /** The null move keeps the state valid, leaves the board alone, clears the ep square and passes the move. */
  lemma MakeNullMoveValid(z: Zobrist, s: State)
    requires Valid(z, s)
    ensures var q := MakeNullMove(z, s);
      Valid(z, q) && q.board == s.board && q.epSq == NO_SQUARE && q.castle == s.castle &&
      q.stm == FlipColor(s.stm) && q.fifty == s.fifty + 1 && |q.history| == |s.history| + 1
  {
    var q, k := MakeNullMove(z, s), KeyStateOf(s);
    var k1 := k.(ep := NO_SQUARE);
    var key1 := UpdateEpSquare(z, s.key, s.epSq, NO_SQUARE);
    assert q.key == UpdateSide(z, key1, FlipColor(s.stm));
    KeyNewEpSquare(z, k, NO_SQUARE);
    assert KeyOf(z, k1) == key1;
    KeyNewSide(z, k1);
    assert KeyStateOf(q) == k1.(stm := FlipColor(s.stm));
  }

  /** pos_unmake_null_move after pos_make_null_move gives back the state. */
  lemma NullMoveRoundTrip(z: Zobrist, s: State)
    requires z.Valid() && 0 <= s.epSq <= NO_SQUARE
    ensures var q := MakeNullMove(z, s);
      |q.history| > 0 && q.ply > 0 && IsNullMove(q.history[|q.history| - 1].move) && UnmakeNullMove(q) == s
  {
    NullMoveIsNull();
    UnmakeNullPushed(s, MakeNullMove(z, s), Unmake(NULLMOVE, NO_PIECE, NO_PIECE, s.castle, s.epSq, s.fifty, s.key));
  }

  /** Popping a null-move record pushed on s, with only the counters, ep square, key and side changed, gives back s. */
  lemma UnmakeNullPushed(s: State, q: State, e: Unmake)
    requires e == Unmake(NULLMOVE, NO_PIECE, NO_PIECE, s.castle, s.epSq, s.fifty, s.key) && IsNullMove(NULLMOVE)
    requires q == s.(history := s.history + [e], ply := s.ply + 1, height := s.height + 1, epSq := NO_SQUARE, key := q.key,
                     fifty := s.fifty + 1, fullmove := (if s.stm == BLACK then s.fullmove + 1 else s.fullmove), stm := FlipColor(s.stm))
    ensures |q.history| > 0 && q.ply > 0 && IsNullMove(q.history[|q.history| - 1].move) && UnmakeNullMove(q) == s
  {
    assert q.history[..|q.history| - 1] == s.history;
  }

  // ---- pos_is_repetition ---------------------------------------------------------

  /**
   * Some earlier position with the same side to move (an even number of
   * plies back) inside the fifty-move window has the current key.
   */
  predicate Repeats(history: seq<Unmake>, key: bv64, fifty: int)
  {
    exists idx :: 0 <= idx && idx + 2 <= |history| && (|history| - idx) % 2 == 0 &&
                  idx >= |history| - fifty && history[idx].key == key
  }
}
