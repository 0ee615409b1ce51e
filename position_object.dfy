/**
 * struct position as the engine holds it: the piece array, the piece and
 * side bitboards and the history stack are arrays updated in place, and
 * pos_make_move, pos_unmake_move, the null move and pos_is_repetition are
 * methods.  Each method is proved to leave the state the value-level
 * function of module Position computes, so the properties proved there
 * (the round trips, the key kept equal to key_generate's, the castling
 * rules) hold of the object.
 */
module PositionObject {
  import opened Types
  import opened Bitboard
  import opened Key
  import P = Position

  class Position {
    const pieces: array<Cell>
    const bbPieces: array<Bitboard>
    const bbSides: array<Bitboard>
    const history: array<P.Unmake>
    var bbAll: Bitboard
    var key: bv64
    var epSq: int
    var castle: int
    var stm: Side
    var ply: nat
    var height: nat
    var fifty: int
    var fullmove: int
    var material: int
    var rooks: P.RookSquares

    /** The arrays have the sizes of struct position and ply indexes the history array. */
    predicate Shaped()
      reads this
    {
      (pieces.Length, bbPieces.Length, bbSides.Length, history.Length) == (NSQUARES, NPIECES, 2, MAX_HISTORY_SIZE) &&
      bbPieces != bbSides && ply <= history.Length
    }

    function Board(): P.Placement
      reads this, pieces, bbPieces, bbSides
    {
      P.Placement(pieces[..], bbPieces[..], bbSides[..], bbAll)
    }

    /** The position as a value: the live part of the history is its first ply records. */
    function State(): P.State
      reads this, pieces, bbPieces, bbSides, history
      requires ply <= history.Length
    {
      P.State(Board(), key, epSq, castle, stm, ply, height, fifty, fullmove, material, history[..ply], rooks)
    }

    /** An empty board with no history, as a cleared struct position before it is set up. */
    constructor (rooks0: P.RookSquares)
      ensures Shaped() && Board().Consistent() && P.OccupiedSquares(pieces[..]) == {} && ply == 0 && rooks == rooks0
    {
      pieces := new Cell[NSQUARES](_ => NO_PIECE);
      bbPieces := new Bitboard[NPIECES](_ => {});
      bbSides := new Bitboard[2](_ => {});
      history := new P.Unmake[MAX_HISTORY_SIZE](_ => P.Unmake(NOMOVE, NO_PIECE, NO_PIECE, 0, NO_SQUARE, 0, 0));
      bbAll := {};
      key := 0;
      epSq := NO_SQUARE;
      castle := 0;
      stm := WHITE;
      ply := 0;
      height := 0;
      fifty := 0;
      fullmove := 1;
      material := 0;
      rooks := rooks0;
    }

    /** add_piece. */
    method AddPiece(piece: int, sq: Square)
      requires Shaped() && 0 <= piece < NPIECES
      modifies pieces, bbPieces, bbSides, this`bbAll
      ensures Shaped() && State() == old(State()).(board := P.AddPiece(old(Board()), piece, sq))
    {
      ghost var b := Board();
      pieces[sq] := piece;
      bbPieces[piece] := bbPieces[piece] + {sq};
      bbSides[Color(piece)] := bbSides[Color(piece)] + {sq};
      bbAll := bbAll + {sq};
      assert Board() == P.AddPiece(b, piece, sq);
    }

    /** remove_piece. */
    method RemovePiece(piece: int, sq: Square)
      requires Shaped() && 0 <= piece < NPIECES
      modifies pieces, bbPieces, bbSides, this`bbAll
      ensures Shaped() && State() == old(State()).(board := P.RemovePiece(old(Board()), piece, sq))
    {
      ghost var b := Board();
      pieces[sq] := NO_PIECE;
      bbPieces[piece] := bbPieces[piece] - {sq};
      bbSides[Color(piece)] := bbSides[Color(piece)] - {sq};
      bbAll := bbAll - {sq};
      assert Board() == P.RemovePiece(b, piece, sq);
    }

    /** push_history: the record goes on top of the stack. */
    method PushHistory(e: P.Unmake)
      requires Shaped() && ply < MAX_HISTORY_SIZE
      modifies history, this`ply, this`height
      ensures Shaped() && State() == P.PushRecord(old(State()), e)
    {
      history[ply] := e;
      ply := ply + 1;
      height := height + 1;
      assert history[..ply] == old(history[..ply]) + [e];
    }

    /** pop_history: returns the top record. */
    method PopHistory() returns (e: P.Unmake)
      requires Shaped() && ply > 0
      modifies this`ply, this`height
      ensures Shaped() && e == old(State()).history[old(ply) - 1] && State() == P.PopRecord(old(State()))
    {
      ply := ply - 1;
      if height > 0 {
        height := height - 1;
      }
      e := history[ply];
      assert history[..ply] == old(history[..ply])[..ply];
    }

    /** update_material. */
    method UpdateMaterial(piece: int, added: bool)
      requires Shaped() && 0 <= piece < NPIECES
      modifies this`material
      ensures Shaped() && State() == old(State()).(material := P.UpdateMaterial(old(material), piece, added))
    {
      material := P.UpdateMaterial(material, piece, added);
    }

    /** update_castling_availability, before the pieces move. */
    method UpdateCastlingAvailability(from: Square, to: Square)
      requires Shaped() && 0 <= castle < 16
      modifies this`castle
      ensures Shaped() && State() == old(State()).(castle := P.CastlingAvailability(pieces[..], stm, rooks, old(castle), from, to))
    {
      var piece := pieces[from];
      var c := castle;
      if piece == stm + KING {
        c := P.ClearFlag(P.ClearFlag(c, P.KingsideFlag(stm)), P.QueensideFlag(stm));
      }
      if piece == stm + ROOK {
        if from == P.KingsideRook(rooks, stm) {
          c := P.ClearFlag(c, P.KingsideFlag(stm));
        } else if from == P.QueensideRook(rooks, stm) {
          c := P.ClearFlag(c, P.QueensideFlag(stm));
        }
      }
      var opp := FlipColor(stm);
      if to == P.KingsideRook(rooks, opp) {
        c := P.ClearFlag(c, P.KingsideFlag(opp));
      } else if to == P.QueensideRook(rooks, opp) {
        c := P.ClearFlag(c, P.QueensideFlag(opp));
      }
      castle := c;
    }

    /** pos_is_repetition: scans every other record back to the last irreversible move. */
    method IsRepetition() returns (r: bool)
      requires Shaped()
      ensures r == P.Repeats(State().history, key, fifty)
    {
      ghost var h := history[..ply];
      var idx := ply - 2;
      while idx >= 0 && idx >= ply - fifty
        invariant idx <= ply - 2 && (ply - idx) % 2 == 0
        invariant forall j :: 0 <= j && idx < j && j + 2 <= ply && (ply - j) % 2 == 0 && j >= ply - fifty ==> h[j].key != key
        decreases idx
      {
        if history[idx].key == key {
          assert h[idx] == history[idx];
          return true;
        }
        idx := idx - 2;
      }
      return false;
    }

    /** remove_piece and key_update_piece, as pos_make_move pairs them. */
    method TakePiece(z: Zobrist, piece: int, sq: Square)
      requires Shaped() && z.Valid() && 0 <= piece < NPIECES
      modifies pieces, bbPieces, bbSides, this`bbAll, this`key
      ensures Shaped() && State() == P.Take(z, old(State()), piece, sq)
    {
      RemovePiece(piece, sq);
      key := UpdatePiece(z, key, piece, sq);
    }

    /** add_piece and key_update_piece. */
    method PutPiece(z: Zobrist, piece: int, sq: Square)
      requires Shaped() && z.Valid() && 0 <= piece < NPIECES
      modifies pieces, bbPieces, bbSides, this`bbAll, this`key
      ensures Shaped() && State() == P.Put(z, old(State()), piece, sq)
    {
      AddPiece(piece, sq);
      key := UpdatePiece(z, key, piece, sq);
    }

    /** The first part of pos_make_move: the unmake record, the ep square and the castling flags with their keys. */
    method MakeStart(z: Zobrist, m: nat)
      requires Shaped() && P.MakeFits(z, State(), m) && ply < MAX_HISTORY_SIZE
      modifies history, this`ply, this`height, this`epSq, this`key, this`castle
      ensures Shaped() && State() == P.MakeStart(z, old(State()), m)
    {
      var from, to := From(m), ToCastle(m);
      var e := P.Unmake(m, pieces[from], pieces[to], castle, epSq, fifty, key);
      var ep := P.NewEpSquare(pieces[from], from, to, stm);
      P.MakeStartSteps(z, State(), m, e, ep, P.CastlingAvailability(pieces[..], stm, rooks, castle, from, to));
      PushHistory(e);
      SetEpSquare(z, ep);
      SetCastling(z, from, to);
    }

    /** The new ep square and its key update. */
    method SetEpSquare(z: Zobrist, ep: int)
      requires Shaped() && z.Valid() && 0 <= epSq <= NO_SQUARE && 0 <= ep <= NO_SQUARE
      modifies this`epSq, this`key
      ensures Shaped() && State() == P.NewEp(z, old(State()), ep)
    {
      epSq, key := ep, UpdateEpSquare(z, key, epSq, ep);
    }

    /** update_castling_availability and key_update_castling. */
    method SetCastling(z: Zobrist, from: Square, to: Square)
      requires Shaped() && z.Valid() && 0 <= castle < 16
      modifies this`castle, this`key
      ensures Shaped() && State() == P.NewCastle(z, old(State()), P.CastlingAvailability(pieces[..], stm, rooks, old(castle), from, to))
    {
      var prior := castle;
      UpdateCastlingAvailability(from, to);
      key := UpdateCastling(z, key, prior, castle);
    }

    /** The piece moves of pos_make_move. */
    method MakePieces(z: Zobrist, m: nat)
      requires Shaped() && z.Valid() && P.MoveShape(pieces[..], stm, m)
      modifies pieces, bbPieces, bbSides, this`bbAll, this`key, this`material
      ensures Shaped() && State() == P.MakePieces(z, old(State()), m)
    {
      P.MakePiecesSplit(z, State(), m);
      var piece := RemoveStage(z, m);
      PlaceStage(z, m, piece);
    }

    /** The mover, a captured piece or en-passant pawn, and a castling rook leave the board. */
    method RemoveStage(z: Zobrist, m: nat) returns (piece: Cell)
      requires Shaped() && z.Valid() && P.MoveShape(pieces[..], stm, m)
      modifies pieces, bbPieces, bbSides, this`bbAll, this`key, this`material
      ensures Shaped() && piece == old(pieces[From(m)]) && 0 <= piece < NPIECES
      ensures State() == P.Removed(z, old(State()), m)
    {
      var from, to, side := From(m), ToCastle(m), stm;
      var capture := pieces[to];
      piece := pieces[from];
      TakePiece(z, piece, from);
      TakeVictim(z, m, capture, to);
      if P.IsCastle(m) {
        TakePiece(z, side + ROOK, To(m));
      }
    }

    /** The mover, or its promotion piece, lands and a castling rook lands. */
    method PlaceStage(z: Zobrist, m: nat, piece: Cell)
      requires Shaped() && z.Valid() && 0 <= piece < NPIECES && (IsPromotion(m) ==> 0 <= Promotion(m) < NPIECES)
      modifies pieces, bbPieces, bbSides, this`bbAll, this`key, this`material
      ensures Shaped() && State() == P.Placed(z, old(State()), m, piece)
    {
      var side := stm;
      LandMover(z, m, piece, ToCastle(m));
      if P.IsCastle(m) {
        PutPiece(z, side + ROOK, P.RookLanding(m, side));
      }
    }

    /** The end of pos_make_move: the fifty-move counter, the fullmove number after black and the side to move. */
    method MakeFinish(z: Zobrist, m: nat, piece: Cell)
      requires Shaped() && z.Valid()
      modifies this
      ensures Shaped() && State() == P.MakeFinish(z, old(State()), m, piece)
    {
      ghost var s := State();
      var side := FlipColor(stm);
      var fifty', fullmove' := if IsCapture(m) || Value(piece) == PAWN then 0 else fifty + 1,
                               if stm == BLACK then fullmove + 1 else fullmove;
      var key' := UpdateSide(z, key, side);
      assert P.MakeFinish(z, s, m, piece) == s.(fifty := fifty', fullmove := fullmove', stm := side, key := key');
      fifty, fullmove, stm, key := fifty', fullmove', side, key';
      assert Board() == s.board;
    }

    /** pos_in_check. */
    method InCheck(side: Side) returns (r: bool)
      requires Shaped() && PieceBoards(bbPieces[..]) && P.HasKing(Board(), side)
      ensures r == P.InCheck(Board(), side)
    {
      var king := P.LowestSquare(bbPieces[KING + side], 0);
      r := IsAttacked(bbPieces[..], bbAll, king, FlipColor(side));
    }

    /**
     * pos_make_move: makes the move, and takes it back again and answers
     * false when it leaves the mover's king attacked.
     */
    method MakeMove(z: Zobrist, m: nat) returns (legal: bool)
      requires Shaped() && P.MoveFits(z, State(), m) && ply < MAX_HISTORY_SIZE && stm + KING in pieces[..]
      modifies pieces, bbPieces, bbSides, history, this
      ensures Shaped() && legal == P.LeavesKingSafe(z, old(State()), m)
      ensures legal ==> State() == P.MakeMove(z, old(State()), m)
      ensures legal ==> P.UnmakeFits(State()) && P.UnmakeMove(State()) == old(State())
      ensures !legal ==> State() == old(State())
    {
      ghost var s := State();
      var mover := stm;
      P.MakeMoveChecked(z, s, m);
      ApplyMove(z, m);
      var check := InCheck(mover);
      if check {
        UnmakeMove();
        return false;
      }
      return true;
    }

    /** The moves of pos_make_move before its legality test. */
    method ApplyMove(z: Zobrist, m: nat)
      requires Shaped() && P.MakeFits(z, State(), m) && ply < MAX_HISTORY_SIZE
      modifies pieces, bbPieces, bbSides, history, this
      ensures Shaped() && State() == P.MakeMove(z, old(State()), m)
    {
      var piece := pieces[From(m)];
      MakeStart(z, m);
      MakePieces(z, m);
      MakeFinish(z, m, piece);
    }

    /** pos_unmake_move: pops the record, restores its fields and moves the pieces back. */
    method UnmakeMove()
      requires Shaped() && P.UnmakeFits(State())
      modifies pieces, bbPieces, bbSides, this
      ensures Shaped() && State() == P.UnmakeMove(old(State()))
    {
      P.UnmakeMoveSteps(State());
      var e := RestoreRecord();
      UnmakePieces(e);
      UnmakeFinish();
    }

    /** pop_history, and the popped record's castling flags, ep square, fifty-move counter and key come back. */
    method RestoreRecord() returns (e: P.Unmake)
      requires Shaped() && ply > 0
      modifies this
      ensures Shaped() && e == old(State()).history[old(ply) - 1] && State() == P.UnmakeRestore(old(State()))
    {
      e := PopHistory();
      castle, epSq, fifty, key := e.castle, e.epSq, e.fifty, e.key;
    }

    /** The fullmove number goes back after white and the mover is to move again. */
    method UnmakeFinish()
      requires Shaped()
      modifies this
      ensures Shaped() && State() == P.UnmakeFinish(old(State()))
    {
      fullmove, stm := if stm == WHITE then fullmove - 1 else fullmove, FlipColor(stm);
    }

    /** The piece moves of pos_unmake_move, with the side to move still the opponent of the mover. */
    method UnmakePieces(e: P.Unmake)
      requires Shaped() && P.PiecesUnmake(Board(), e, stm)
      modifies pieces, bbPieces, bbSides, this`bbAll, this`material
      ensures Shaped() && State() == P.UnmakeBoard(old(State()), e)
    {
      var mover := UnmakeLift(e);
      UnmakeReturn(e, mover);
    }

    /** The piece on the move's target and a castling rook leave; returns the piece that goes back, a pawn after a promotion. */
    method UnmakeLift(e: P.Unmake) returns (mover: Cell)
      requires Shaped() && pieces[ToCastle(e.move)] != NO_PIECE
      modifies pieces, bbPieces, bbSides, this`bbAll, this`material
      ensures Shaped() && (Board(), material) == P.UnmakeLift(old(Board()), old(material), e, stm)
      ensures mover == if IsPromotion(e.move) then PAWN + FlipColor(stm) else old(pieces[ToCastle(e.move)])
    {
      var m := e.move;
      var to, moveColor := ToCastle(m), FlipColor(stm);
      mover := pieces[to];
      RemovePiece(mover, to);
      if IsPromotion(m) {
        UpdateMaterial(mover, false);
        mover := PAWN + moveColor;
        UpdateMaterial(mover, true);
      }
      if P.IsCastle(m) {
        RemovePiece(moveColor + ROOK, P.RookLanding(m, moveColor));
      }
    }

    /** The mover goes back, a captured piece or en-passant pawn returns with its material, a castling rook returns. */
    method UnmakeReturn(e: P.Unmake, mover: Cell)
      requires Shaped() && 0 <= mover < NPIECES
      requires IsCapture(e.move) ==> e.capture != NO_PIECE
      requires !IsCapture(e.move) && IsEnPassant(e.move) ==> 0 <= P.BehindSquare(FlipColor(stm), ToCastle(e.move)) < NSQUARES
      modifies pieces, bbPieces, bbSides, this`bbAll, this`material
      ensures Shaped() && (Board(), material) == P.UnmakeReturn(old(Board()), old(material), e, stm, mover)
    {
      var m := e.move;
      var to, color := ToCastle(m), stm;
      var moveColor := FlipColor(color);
      AddPiece(mover, From(m));
      if IsCapture(m) {
        AddPiece(e.capture, to);
        UpdateMaterial(e.capture, true);
      } else if IsEnPassant(m) {
        AddPiece(PAWN + color, P.BehindSquare(moveColor, to));
        UpdateMaterial(PAWN + color, true);
      }
      if P.IsCastle(m) {
        AddPiece(moveColor + ROOK, To(m));
      }
    }

    /** pos_make_null_move: a record with the null move, no ep square, the side to move passes. */
    method MakeNullMove(z: Zobrist)
      requires Shaped() && z.Valid() && 0 <= epSq <= NO_SQUARE && ply < MAX_HISTORY_SIZE
      modifies history, this
      ensures Shaped() && State() == P.MakeNullMove(z, old(State()))
    {
      P.MakeNullMoveSteps(z, State());
      PushHistory(P.Unmake(NULLMOVE, NO_PIECE, NO_PIECE, castle, epSq, fifty, key));
      SetEpSquare(z, NO_SQUARE);
      PassSide(z);
    }

    /** fifty goes up, the fullmove number after black, the side to move flips with its key update. */
    method PassSide(z: Zobrist)
      requires Shaped() && z.Valid()
      modifies this
      ensures Shaped() && State() == P.PassSide(z, old(State()))
    {
      var side := FlipColor(stm);
      fifty, fullmove, stm, key := fifty + 1, if stm == BLACK then fullmove + 1 else fullmove, side, UpdateSide(z, key, side);
    }

    /** pos_unmake_null_move: pops the null-move record and restores what it saved. */
    method UnmakeNullMove()
      requires Shaped() && ply > 0 && IsNullMove(history[ply - 1].move)
      modifies this
      ensures Shaped() && State() == P.UnmakeNullMove(old(State()))
    {
      var _ := RestoreRecord();
      UnmakeFinish();
    }

    /** The captured piece, or the pawn taken en passant, leaves the board with its material. */
    method TakeVictim(z: Zobrist, m: nat, capture: int, to: Square)
      requires Shaped() && z.Valid() && (IsCapture(m) ==> 0 <= capture < NPIECES)
      requires !IsCapture(m) && IsEnPassant(m) ==> 0 <= P.BehindSquare(stm, to) < NSQUARES
      modifies pieces, bbPieces, bbSides, this`bbAll, this`key, this`material
      ensures Shaped() && State() == if IsCapture(m) then P.Capture(z, old(State()), capture, to)
                                     else if IsEnPassant(m) then P.Capture(z, old(State()), PAWN + FlipColor(old(stm)), P.BehindSquare(old(stm), to))
                                     else old(State())
    {
      if IsCapture(m) {
        TakePiece(z, capture, to);
        UpdateMaterial(capture, false);
      } else if IsEnPassant(m) {
        var ep := P.BehindSquare(stm, to);
        TakePiece(z, PAWN + FlipColor(stm), ep);
        UpdateMaterial(PAWN + FlipColor(stm), false);
      }
    }

    /** The mover lands on its target, or the promotion piece does with the material exchanged. */
    method LandMover(z: Zobrist, m: nat, piece: int, to: Square)
      requires Shaped() && z.Valid() && 0 <= piece < NPIECES && (IsPromotion(m) ==> 0 <= Promotion(m) < NPIECES)
      modifies pieces, bbPieces, bbSides, this`bbAll, this`key, this`material
      ensures Shaped() && State() == P.Land(z, old(State()), m, piece, to)
    {
      if IsPromotion(m) {
        PutPiece(z, Promotion(m), to);
        UpdateMaterial(piece, false);
        UpdateMaterial(Promotion(m), true);
      } else {
        PutPiece(z, piece, to);
      }
    }
  }
}
