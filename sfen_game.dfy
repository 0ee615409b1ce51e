/**
 * Training-data generation of src/sfen.c (and the identical game loop of
 * src/selfplay.c): the 16-bit move field of a record, the self-play game
 * loop with its adjudication rules, the loop that plays games until the
 * requested number of records is written, and the checks and score update
 * of rescoring.
 *
 * The engine is not modelled: a game is given as the sequence of positions
 * the loop visits, each with what the engine reports for it (the game
 * result, the searched move and score, the check tests). Position i + 1 is
 * the position after the move of position i.
 */
module SfenGame {
  import opened Types
  import opened Wrappers
  import opened CInt
  import S = SfenFormat

  const BATCH_SIZE: nat := 10000
  const EVAL_LIMIT: int := 10000
  const RANDOM_PLIES: nat := 16
  const MIN_DRAW_PLY: nat := 80
  const MAX_GAME_PLY: nat := 400
  const DRAW_SCORE: int := 10
  const DRAW_COUNT: nat := 10

  // ---- encode_move -----------------------------------------------------------

  /** The promotion piece of a promotion move is a knight, bishop, rook or queen. */
  predicate PromotesToPiece(m: nat)
  {
    IsPromotion(m) ==> WHITE_KNIGHT <= Promotion(m) <= BLACK_QUEEN
  }

  /** The special-move flag of bits 14-15: promotion 1, en passant 2, castling 3. */
  function MoveFlag(m: nat): (f: nat)
    ensures f < 4
  {
    if IsPromotion(m) then 1
    else if IsEnPassant(m) then 2
    else if IsKingsideCastle(m) || IsQueensideCastle(m) then 3
    else 0
  }

  /** The promotion field of bits 12-13: the piece type as KNIGHT 0 up to QUEEN 3. */
  function PromotionField(m: nat): (p: nat)
    requires PromotesToPiece(m)
    ensures p < 4
  {
    if IsPromotion(m) then Value(Promotion(m)) / 2 - 1 else 0
  }

  /**
   * encode_move: destination in bits 0-5, origin in bits 6-11, the promotion
   * field and the flag above them. The fields do not overlap, so the ORs
   * of the source add.
   */
  function EncodeMove(m: nat): (d: nat)
    requires PromotesToPiece(m)
    ensures d < 0x1_0000
  {
    To(m) + 64 * From(m) + 4096 * PromotionField(m) + 16384 * MoveFlag(m)
  }

  /** The fields of a 16-bit move as the training code reads them. */
  function DestField(d: nat): nat { d % 64 }
  function OriginField(d: nat): nat { (d / 64) % 64 }
  function PieceField(d: nat): nat { (d / 4096) % 4 }
  function FlagField(d: nat): nat { d / 16384 }

  /** Four fields of 6, 6, 2 and 2 bits put together are read back one by one. */
  lemma Fields16(a: nat, b: nat, c: nat, e: nat)
    requires a < 64 && b < 64 && c < 4 && e < 4
    ensures var d := a + 64 * b + 4096 * c + 16384 * e;
      DestField(d) == a && OriginField(d) == b && PieceField(d) == c && FlagField(d) == e
  {
    var d := a + 64 * b + 4096 * c + 16384 * e;
    assert d == a + 64 * (b + 64 * (c + 4 * e));
    assert d / 64 == b + 64 * (c + 4 * e);
    assert d / 4096 == (d / 64) / 64;
    assert (d / 64) / 64 == c + 4 * e;
    assert d / 16384 == (d / 4096) / 4;
  }

  /**
   * Reading the fields of encode_move's result gives back the destination,
   * the origin, the promoted piece type and the kind of move.
   */
  lemma EncodeMoveFields(m: nat)
    requires PromotesToPiece(m)
    ensures DestField(EncodeMove(m)) == To(m)
    ensures OriginField(EncodeMove(m)) == From(m)
    ensures IsPromotion(m) ==> 2 * PieceField(EncodeMove(m)) + KNIGHT == Value(Promotion(m))
    ensures !IsPromotion(m) ==> PieceField(EncodeMove(m)) == 0
    ensures FlagField(EncodeMove(m)) == 1 <==> IsPromotion(m)
    ensures FlagField(EncodeMove(m)) == 2 <==> !IsPromotion(m) && IsEnPassant(m)
    ensures FlagField(EncodeMove(m)) == 3 <==> !IsPromotion(m) && !IsEnPassant(m) && (IsKingsideCastle(m) || IsQueensideCastle(m))
  {
    Fields16(To(m), From(m), PromotionField(m), MoveFlag(m));
  }

  // ---- The game loop ---------------------------------------------------------

  /** pos_get_game_result. */
  datatype GameResult = Undetermined | Checkmate | Stalemate | DrawByRule

  /**
   * One position of a game as the loop sees it: its result, its ply
   * (pos->ply), whether the side to move is in check, the engine's move and
   * score (from the side to move's point of view), whether the move gives
   * check, and the position as a training record stores it, which also
   * holds the side to move.
   */
  datatype Turn = Turn(
    result: GameResult,
    ply: nat,
    inCheck: bool,
    move: nat,
    score: int,
    givesCheck: bool,
    pos: S.SfenPosition)

  /** One training record (struct packed_sfen); position is the block encode_position writes. */
  datatype PackedSfen = PackedSfen(
    position: S.SfenPosition,
    stmScore: int,
    move: nat,
    ply: nat,
    stmResult: int,
    padding: nat)

  /** A game the loop can play: every search returns a move encode_move can store, and the game ends. */
  predicate Finished(turns: seq<Turn>)
  {
    && |turns| > 0
    && turns[|turns| - 1].result != Undetermined
    && (forall i :: 0 <= i < |turns| ==> PromotesToPiece(turns[i].move))
  }

  /** A ply is recorded only when it is quiet: no tactical move, no check before or after it. */
  predicate Quiet(t: Turn)
  {
    !IsTactical(t.move) && !t.inCheck && !t.givesCheck
  }

  /** The score from white's point of view. */
  function WhiteScore(t: Turn): int
  {
    if t.pos.stm == WHITE then t.score else -t.score
  }

  /** The record stored for a ply before the game result is known: stm_result holds the side's sign. */
  function Entry(t: Turn): (e: PackedSfen)
    requires PromotesToPiece(t.move)
  {
    PackedSfen(t.pos, t.score, EncodeMove(t.move), t.ply, if t.pos.stm == WHITE then 1 else -1, 0xFF)
  }

  /** How the loop stopped: adjudicated with white's result, or the game ended at position at. */
  datatype Stop = Adjudicated(white: int) | GameOver(at: nat)

  /**
   * draw_count after a stored ply: past MIN_DRAW_PLY it counts the
   * consecutive plies scored within DRAW_SCORE of zero.
   */
  function NextDraws(t: Turn, draws: nat): (d: nat)
    ensures t.ply <= MIN_DRAW_PLY ==> d == draws
    ensures t.ply > MIN_DRAW_PLY ==> (d > 0 <==> Abs(t.score) <= DRAW_SCORE)
  {
    if t.ply > MIN_DRAW_PLY then (if Abs(t.score) <= DRAW_SCORE then draws + 1 else 0) else draws
  }

  /** The loop stops after storing a ply at the ply limit or at the draw count. */
  predicate StopsAfter(t: Turn, draws: nat)
  {
    t.ply >= MAX_GAME_PLY || (t.ply > MIN_DRAW_PLY && NextDraws(t, draws) >= DRAW_COUNT)
  }

  /**
   * The game loop from position i with draw_count draws: the records it
   * stores and how it stops.
   */
  function Run(turns: seq<Turn>, i: nat, draws: nat): (r: (seq<PackedSfen>, Stop))
    requires Finished(turns) && i < |turns|
    ensures r.1.GameOver? ==> i <= r.1.at < |turns| && turns[r.1.at].result != Undetermined
    ensures r.1.Adjudicated? ==> r.1.white in {-1, 0, 1}
    decreases |turns| - i
  {
    var t := turns[i];
    if t.result != Undetermined then ([], GameOver(i))
    else if !Quiet(t) then Run(turns, i + 1, draws)
    else if Abs(t.score) >= EVAL_LIMIT then ([], Adjudicated(if WhiteScore(t) > 0 then 1 else -1))
    else if StopsAfter(t, draws) then ([Entry(t)], Adjudicated(0))
    else
      var rest := Run(turns, i + 1, NextDraws(t, draws));
      ([Entry(t)] + rest.0, rest.1)
  }

  /** A stored ply is the first record of the loop from there on. */
  lemma RunStores(turns: seq<Turn>, i: nat, draws: nat)
    requires Finished(turns) && i < |turns|
    requires turns[i].result == Undetermined && Quiet(turns[i]) && Abs(turns[i].score) < EVAL_LIMIT
    ensures StopsAfter(turns[i], draws) ==> Run(turns, i, draws) == ([Entry(turns[i])], Adjudicated(0))
    ensures !StopsAfter(turns[i], draws) ==>
      && Run(turns, i, draws).0 == [Entry(turns[i])] + Run(turns, i + 1, NextDraws(turns[i], draws)).0
      && Run(turns, i, draws).1 == Run(turns, i + 1, NextDraws(turns[i], draws)).1
  {
  }

  /** White's result after the loop: the adjudicated one, or the one the final position has. */
  function WhiteResult(turns: seq<Turn>, stop: Stop): (w: int)
    requires stop.GameOver? ==> stop.at < |turns|
    requires stop.Adjudicated? ==> stop.white in {-1, 0, 1}
    ensures w in {-1, 0, 1}
  {
    match stop
    case Adjudicated(w) => w
    case GameOver(j) =>
      if turns[j].result == Checkmate then (if turns[j].pos.stm == BLACK then 1 else -1) else 0
  }

  /** stm_result *= white_result on one record. */
  function Scale(e: PackedSfen, w: int): PackedSfen
  {
    e.(stmResult := e.stmResult * w)
  }

  /**
   * The records play_game writes from the stored ones: stm_result
   * multiplied by white's result, at most posLeft of them.
   */
  function ResultRecords(stored: seq<PackedSfen>, w: int, posLeft: nat): (recs: seq<PackedSfen>)
    ensures |recs| == if |stored| > posLeft then posLeft else |stored|
    ensures forall k :: 0 <= k < |recs| ==> recs[k] == stored[k].(stmResult := stored[k].stmResult * w)
    decreases |stored|
  {
    if |stored| == 0 || posLeft == 0 then []
    else [Scale(stored[0], w)] + ResultRecords(stored[1..], w, posLeft - 1)
  }

  /**
   * play_game: the stored records, with the game result from each record's
   * side to move's point of view, cut down to the positions still wanted.
   */
  function PlayGameSpec(turns: seq<Turn>, posLeft: nat): (recs: seq<PackedSfen>)
    requires Finished(turns)
  {
    var r := Run(turns, 0, 0);
    ResultRecords(r.0, WhiteResult(turns, r.1), posLeft)
  }

  /** Every record of the loop is the entry of a quiet ply of the game below the eval limit. */
  lemma {:induction false} RunRecordsQuiet(turns: seq<Turn>, i: nat, draws: nat)
    requires Finished(turns) && i < |turns|
    ensures forall e :: e in Run(turns, i, draws).0 ==>
      exists j :: i <= j < |turns| && turns[j].result == Undetermined && Quiet(turns[j])
        && Abs(turns[j].score) < EVAL_LIMIT && e == Entry(turns[j])
    decreases |turns| - i
  {
    var t := turns[i];
    if t.result == Undetermined && (!Quiet(t) || Abs(t.score) < EVAL_LIMIT) {
      var draws' := NextDraws(t, draws);
      if !Quiet(t) {
        RunRecordsQuiet(turns, i + 1, draws);
      } else if !StopsAfter(t, draws) {
        RunRecordsQuiet(turns, i + 1, draws');
      }
    }
  }

  /**
   * A written record as the trainer expects it: the game result from its
   * side to move's point of view (white's result w for white, -w for
   * black), a score inside the eval limit, the 0xFF padding and the move of
   * a quiet ply (neither a promotion nor an en-passant capture).
   */
  predicate ProperRecord(e: PackedSfen, w: int)
  {
    && e.stmResult == (if e.position.stm == WHITE then w else -w)
    && -EVAL_LIMIT < e.stmScore < EVAL_LIMIT
    && e.padding == 0xFF
    && FlagField(e.move) != 1 && FlagField(e.move) != 2
  }

  lemma EntryProper(t: Turn, w: int)
    requires PromotesToPiece(t.move) && Quiet(t) && Abs(t.score) < EVAL_LIMIT
    ensures ProperRecord(Scale(Entry(t), w), w)
  {
    EncodeMoveFields(t.move);
  }

  /**
   * Every record play_game writes is a proper record for the game's result,
   * and no more records are written than positions are left.
   */
  lemma PlayGameRecords(turns: seq<Turn>, posLeft: nat)
    requires Finished(turns)
    ensures |PlayGameSpec(turns, posLeft)| <= posLeft
    ensures forall k :: 0 <= k < |PlayGameSpec(turns, posLeft)| ==>
      ProperRecord(PlayGameSpec(turns, posLeft)[k], WhiteResult(turns, Run(turns, 0, 0).1))
  {
    var r := Run(turns, 0, 0);
    var w := WhiteResult(turns, r.1);
    RunRecordsQuiet(turns, 0, 0);
    var recs := PlayGameSpec(turns, posLeft);
    forall k | 0 <= k < |recs|
      ensures ProperRecord(recs[k], w)
    {
      assert r.0[k] in r.0;
      var j :| 0 <= j < |turns| && turns[j].result == Undetermined && Quiet(turns[j])
        && Abs(turns[j].score) < EVAL_LIMIT && r.0[k] == Entry(turns[j]);
      EntryProper(turns[j], w);
    }
  }

  // ---- Bounds and order of a game's records ----------------------------------

  /** Each move of the game advances pos->ply by one. */
  predicate PliesAdvance(turns: seq<Turn>)
  {
    forall i :: 0 <= i < |turns| - 1 ==> turns[i + 1].ply == turns[i].ply + 1
  }

  /** The most records the loop can store from a position at ply p on. */
  function PlyBudget(p: nat): (n: nat)
    ensures n >= 1
  {
    if p <= MAX_GAME_PLY then MAX_GAME_PLY + 1 - p else 1
  }

  /**
   * From position i on, the loop stores at most PlyBudget of i's ply
   * records, in increasing ply order, none before i's ply.
   */
  lemma {:induction false} RunBounded(turns: seq<Turn>, i: nat, draws: nat)
    requires Finished(turns) && PliesAdvance(turns) && i < |turns|
    ensures |Run(turns, i, draws).0| <= PlyBudget(turns[i].ply)
    ensures forall k :: 0 <= k < |Run(turns, i, draws).0| ==> Run(turns, i, draws).0[k].ply >= turns[i].ply
    ensures forall a, b :: 0 <= a < b < |Run(turns, i, draws).0| ==> Run(turns, i, draws).0[a].ply < Run(turns, i, draws).0[b].ply
    decreases |turns| - i
  {
    var t := turns[i];
    if t.result == Undetermined && (!Quiet(t) || Abs(t.score) < EVAL_LIMIT) {
      var draws' := NextDraws(t, draws);
      if !Quiet(t) {
        RunBounded(turns, i + 1, draws);
      } else if !StopsAfter(t, draws) {
        RunBounded(turns, i + 1, draws');
        var rest := Run(turns, i + 1, draws').0;
        assert Run(turns, i, draws).0 == [Entry(t)] + rest;
        forall a, b | 0 <= a < b < |Run(turns, i, draws).0|
          ensures Run(turns, i, draws).0[a].ply < Run(turns, i, draws).0[b].ply
        {
          if a > 0 {
            assert Run(turns, i, draws).0[a] == rest[a - 1];
          }
          assert Run(turns, i, draws).0[b] == rest[b - 1];
        }
      }
    }
  }

  /**
   * A game whose random opening leaves it undecided starts recording at
   * ply RANDOM_PLIES, so its records fit the MAX_GAME_PLY entries of the
   * batch.
   */
  lemma GameFitsBatch(turns: seq<Turn>)
    requires Finished(turns) && PliesAdvance(turns)
    requires turns[0].result == Undetermined ==> turns[0].ply == RANDOM_PLIES
    ensures |Run(turns, 0, 0).0| <= MAX_GAME_PLY
  {
    RunBounded(turns, 0, 0);
  }

  /** A game that ends on the board is won by the side that gave mate, and drawn otherwise. */
  lemma GameOverResult(turns: seq<Turn>, j: nat)
    requires Finished(turns) && Run(turns, 0, 0).1 == GameOver(j)
    ensures turns[j].result == Checkmate ==> WhiteResult(turns, GameOver(j)) == (if turns[j].pos.stm == WHITE then -1 else 1)
    ensures turns[j].result != Checkmate ==> WhiteResult(turns, GameOver(j)) == 0
    ensures j == |turns| - 1 || turns[j].result != Undetermined
  {
  }

  // ---- play_game -------------------------------------------------------------

  /** A batch entry as memset leaves it. */
  const BLANK: PackedSfen := PackedSfen(S.SfenPosition(seq(64, _ => 0), 0, 0, 0, 0, 0, 0, 0), 0, 0, 0, 0, 0)

  /**
   * play_game: walks the game, stores the quiet plies in a batch of
   * MAX_GAME_PLY entries, adjudicates, fills in the result and returns the
   * records written, at most posLeft of them.
   */
  method PlayGame(turns: seq<Turn>, posLeft: nat) returns (npos: nat, written: seq<PackedSfen>)
    requires Finished(turns) && PliesAdvance(turns)
    requires turns[0].result == Undetermined ==> turns[0].ply == RANDOM_PLIES
    ensures written == PlayGameSpec(turns, posLeft) && npos == |written| <= posLeft
  {
    if turns[0].result != Undetermined {
      return 0, [];
    }
    var batch := new PackedSfen[MAX_GAME_PLY](_ => BLANK);
    npos := 0;
    var i: nat := 0;
    var whiteResult := 0;
    var drawCount: nat := 0;
    GameFitsBatch(turns);
    while turns[i].result == Undetermined
      invariant i < |turns| && npos <= MAX_GAME_PLY
      invariant batch[..npos] + Run(turns, i, drawCount).0 == Run(turns, 0, 0).0
      invariant Run(turns, i, drawCount).1 == Run(turns, 0, 0).1
      decreases |turns| - i
    {
      var t := turns[i];
      if !Quiet(t) {
        i := i + 1;
        continue;
      }
      if Abs(t.score) >= EVAL_LIMIT {
        whiteResult := if WhiteScore(t) > 0 then 1 else -1;
        break;
      }
      RunStores(turns, i, drawCount);
      ghost var stored := batch[..npos];
      ghost var stops := StopsAfter(t, drawCount);
      ghost var next := NextDraws(t, drawCount);
      batch[npos] := Entry(t);
      npos := npos + 1;
      assert batch[..npos] == stored + [Entry(t)];
      if t.ply >= MAX_GAME_PLY {
        whiteResult := 0;
        break;
      }
      if t.ply > MIN_DRAW_PLY {
        if Abs(t.score) <= DRAW_SCORE {
          drawCount := drawCount + 1;
        } else {
          drawCount := 0;
        }
        if drawCount >= DRAW_COUNT {
          whiteResult := 0;
          break;
        }
      }
      assert !stops && drawCount == next;
      i := i + 1;
    }

    // The game result of the final position, when the loop did not adjudicate.
    if turns[i].result == Checkmate {
      whiteResult := if turns[i].pos.stm == BLACK then 1 else -1;
    } else if turns[i].result == Stalemate || turns[i].result == DrawByRule {
      whiteResult := 0;
    }
    assert batch[..npos] == Run(turns, 0, 0).0 && whiteResult == WhiteResult(turns, Run(turns, 0, 0).1);
    written := WriteBatch(batch, npos, whiteResult, posLeft);
    npos := |written|;
  }

  /**
   * The end of play_game: every stored record gets stm_result multiplied by
   * white's result, and the first npos of them, at most posLeft, are
   * written.
   */
  method WriteBatch(batch: array<PackedSfen>, npos: nat, whiteResult: int, posLeft: nat) returns (written: seq<PackedSfen>)
    requires npos <= batch.Length
    modifies batch
    ensures written == ResultRecords(old(batch[..npos]), whiteResult, posLeft)
    ensures forall k :: 0 <= k < npos ==> batch[k] == Scale(old(batch[k]), whiteResult)
  {
    ghost var recs := batch[..npos];
    for k := 0 to npos
      invariant forall j :: 0 <= j < k ==> batch[j] == Scale(recs[j], whiteResult)
      invariant forall j :: k <= j < batch.Length ==> batch[j] == old(batch[j])
    {
      batch[k] := batch[k].(stmResult := batch[k].stmResult * whiteResult);
    }
    var n := npos;
    if n > posLeft {
      n := posLeft;
    }
    written := batch[..n];
  }

  // ---- generate ----------------------------------------------------------------

  /** A game the loop can be run on: finished, one ply per move, recording from RANDOM_PLIES on. */
  predicate Playable(turns: seq<Turn>)
  {
    && Finished(turns)
    && PliesAdvance(turns)
    && (turns[0].result == Undetermined ==> turns[0].ply == RANDOM_PLIES)
  }

  /** All the records a game writes when no limit cuts it short. */
  function GameRecords(turns: seq<Turn>): (recs: seq<PackedSfen>)
    requires Playable(turns)
  {
    PlayGameSpec(turns, |Run(turns, 0, 0).0|)
  }

  /** With posLeft positions left, play_game writes the first posLeft of a game's records. */
  lemma PlayGamePrefix(turns: seq<Turn>, posLeft: nat)
    requires Playable(turns)
    ensures var all := GameRecords(turns);
      PlayGameSpec(turns, posLeft) == all[..if |all| > posLeft then posLeft else |all|]
  {
  }

  /** The records of the games one after another, each written in full. */
  function Records(games: seq<seq<Turn>>): (recs: seq<PackedSfen>)
    requires forall k :: 0 <= k < |games| ==> Playable(games[k])
  {
    if |games| == 0 then []
    else Records(games[..|games| - 1]) + GameRecords(games[|games| - 1])
  }

  /** The records of some games come before those of the games after them. */
  lemma {:induction false} RecordsPrefix(games: seq<seq<Turn>>, g: nat)
    requires g <= |games| && forall k :: 0 <= k < |games| ==> Playable(games[k])
    ensures |Records(games[..g])| <= |Records(games)|
    ensures Records(games[..g]) == Records(games)[..|Records(games[..g])|]
    decreases |games|
  {
    if g == |games| {
      assert games[..g] == games;
    } else {
      var init := games[..|games| - 1];
      RecordsPrefix(init, g);
      assert init[..g] == games[..g];
      assert Records(games) == Records(init) + GameRecords(games[|games| - 1]);
    }
  }

  /**
   * generate: plays the games one after another, each asked for the
   * positions still missing, until npositions records are written. The
   * games are the ones the engine would play; running out of them ends the
   * loop as well. The file then holds the first npositions records of the
   * games, or all of them when they hold fewer.
   */
  method Generate(games: seq<seq<Turn>>, npositions: int) returns (ngenerated: int, written: seq<PackedSfen>)
    requires forall k :: 0 <= k < |games| ==> Playable(games[k])
    ensures npositions <= 0 ==> ngenerated == 0 && written == []
    ensures npositions > 0 ==> ngenerated == if |Records(games)| > npositions then npositions else |Records(games)|
    ensures npositions > 0 ==> written == Records(games)[..ngenerated]
    ensures ngenerated == |written|
  {
    ngenerated := 0;
    written := [];
    var g := 0;
    while ngenerated < npositions && g < |games|
      invariant g <= |games| && 0 <= ngenerated == |written|
      invariant npositions <= 0 ==> written == []
      invariant npositions > 0 ==> GenerateInvariant(games, g, npositions, written)
      decreases |games| - g
    {
      var n, recs := PlayGame(games[g], npositions - ngenerated);
      GenerateStep(games, g, npositions, written, recs);
      written := written + recs;
      ngenerated := ngenerated + n;
      g := g + 1;
    }
    if npositions > 0 {
      GenerateDone(games, g, npositions, written);
    }
  }

  /**
   * Between games of generate: the records written are the first ones of
   * the games played so far, no more than wanted, and all of them while
   * more are wanted.
   */
  predicate GenerateInvariant(games: seq<seq<Turn>>, g: nat, npositions: nat, written: seq<PackedSfen>)
    requires g <= |games| && forall k :: 0 <= k < |games| ==> Playable(games[k])
  {
    && |written| <= npositions
    && |written| <= |Records(games[..g])|
    && written == Records(games[..g])[..|written|]
    && (|written| < npositions ==> |written| == |Records(games[..g])|)
  }

  /** One more game keeps GenerateInvariant. */
  lemma GenerateStep(games: seq<seq<Turn>>, g: nat, npositions: nat, written: seq<PackedSfen>, recs: seq<PackedSfen>)
    requires g < |games| && forall k :: 0 <= k < |games| ==> Playable(games[k])
    requires GenerateInvariant(games, g, npositions, written) && |written| < npositions
    requires Playable(games[g]) && recs == PlayGameSpec(games[g], npositions - |written|)
    ensures GenerateInvariant(games, g + 1, npositions, written + recs)
  {
    var left := npositions - |written|;
    PlayGamePrefix(games[g], left);
    assert games[..g + 1][..g] == games[..g];
    var before := Records(games[..g]);
    var all := GameRecords(games[g]);
    assert written == before;
    assert Records(games[..g + 1]) == before + all;
    assert (before + all)[..|before| + |recs|] == before + all[..|recs|];
  }

  /** When generate stops, the records written are the first npositions of all the games'. */
  lemma GenerateDone(games: seq<seq<Turn>>, g: nat, npositions: nat, written: seq<PackedSfen>)
    requires g <= |games| && forall k :: 0 <= k < |games| ==> Playable(games[k])
    requires GenerateInvariant(games, g, npositions, written)
    requires |written| >= npositions || g == |games|
    ensures |written| == if |Records(games)| > npositions then npositions else |Records(games)|
    ensures written == Records(games)[..|written|]
  {
    RecordsPrefix(games, g);
    assert g == |games| ==> games[..g] == games;
  }

  // ---- rescore -----------------------------------------------------------------

  datatype RescoreError = InvalidSize | InvalidOffset | InvalidCount | SeekFailed | ReadFailed

  const U32: nat := 0x1_0000_0000

  /** An unsigned 32-bit value read back as a two's-complement int. */
  function Int32(x: nat): (i: int)
    requires x < U32
    ensures -0x8000_0000 <= i < 0x8000_0000
    ensures x < 0x8000_0000 ==> i == x
  {
    if x < 0x8000_0000 then x else x - U32
  }

  /**
   * The checks of rescore on the input file of size bytes: the number of
   * entries is size / SFEN_BIN_SIZE cut to 32 bits, a negative npositions
   * means all entries, and offset and npositions are compared to the
   * number of entries as 32-bit unsigned values. Ok holds the number of
   * positions to rescore.
   */
  function RescoreCount(size: nat, npositions: int, offset: int): (r: Result<int, RescoreError>)
    requires size < 0x1_0000_0000_0000_0000
    requires -0x8000_0000 <= npositions < 0x8000_0000 && -0x8000_0000_0000_0000 <= offset < 0x8000_0000_0000_0000
  {
    if size % S.SFEN_BIN_SIZE != 0 then Err(InvalidSize)
    else
      var nentries := (size / S.SFEN_BIN_SIZE) % U32;
      var count := if npositions < 0 then Int32(nentries) else npositions;
      if offset % U32 >= nentries then Err(InvalidOffset)
      else if (count % U32 + offset % U32) % U32 > nentries then Err(InvalidCount)
      else Ok(count)
  }

  /**
   * For files of fewer than 2^31 entries and an offset below 2^32, the
   * checks pass exactly when the size is a whole number of entries, the
   * offset is an entry of the file and the positions asked for (all when
   * npositions is negative) end within the file.
   */
  lemma RescoreCountExact(size: nat, npositions: int, offset: int)
    requires size < S.SFEN_BIN_SIZE * 0x8000_0000
    requires -0x8000_0000 <= npositions < 0x8000_0000 && 0 <= offset < U32
    ensures var nentries := size / S.SFEN_BIN_SIZE;
      var count := if npositions < 0 then nentries else npositions;
      RescoreCount(size, npositions, offset).Ok? <==>
        size % S.SFEN_BIN_SIZE == 0 && offset < nentries && count + offset <= nentries
    ensures RescoreCount(size, npositions, offset).Ok? ==>
      var count := RescoreCount(size, npositions, offset).value;
      0 <= count && count + offset <= size / S.SFEN_BIN_SIZE
  {
    var nentries := size / S.SFEN_BIN_SIZE;
    assert nentries < 0x8000_0000;
    assert nentries % U32 == nentries;
    assert offset % U32 == offset;
    var count := if npositions < 0 then nentries else npositions;
    if offset < nentries {
      assert count % U32 == count;
      assert (count + offset) % U32 == count + offset;
    }
  }

  /** A record after rescoring: a score inside the eval limit replaces the stored one. */
  function Rescored(e: PackedSfen, score: int): (r: PackedSfen)
    ensures -EVAL_LIMIT < score < EVAL_LIMIT ==> r == e.(stmScore := score)
    ensures !(-EVAL_LIMIT < score < EVAL_LIMIT) ==> r == e
  {
    if -EVAL_LIMIT < score && score < EVAL_LIMIT then e.(stmScore := Int16(score)) else e
  }

  /** Rescoring keeps a proper record proper. */
  lemma RescoredProper(e: PackedSfen, score: int, w: int)
    requires ProperRecord(e, w)
    ensures ProperRecord(Rescored(e, score), w)
  {
  }

  /** The first n entries of the input, each rescored with its search score. */
  function RescoredPrefix(input: seq<PackedSfen>, scores: seq<int>, n: nat): (out: seq<PackedSfen>)
    requires n <= |input| && n <= |scores|
    ensures |out| == n
    ensures forall k :: 0 <= k < n ==> out[k] == Rescored(input[k], scores[k])
  {
    if n == 0 then [] else RescoredPrefix(input, scores, n - 1) + [Rescored(input[n - 1], scores[n - 1])]
  }

  /**
   * The loop of rescore: reads the entries after the offset in batches of
   * BATCH_SIZE, rescores each with the engine's score for it and appends
   * the batch to the output. A read that comes up short stops it with an
   * error, after the full batches before it were written.
   */
  method RescoreEntries(input: seq<PackedSfen>, scores: seq<int>, npositions: int) returns (r: Result<(), RescoreError>, output: seq<PackedSfen>)
    requires |scores| >= |input|
    ensures r.Ok? <==> npositions <= |input|
    ensures r.Ok? ==> output == RescoredPrefix(input, scores, if npositions > 0 then npositions else 0)
    ensures r.Err? ==> r.error == ReadFailed && output == RescoredPrefix(input, scores, |input| / BATCH_SIZE * BATCH_SIZE)
  {
    var batchData := new PackedSfen[BATCH_SIZE](_ => BLANK);
    var nscored := 0;
    output := [];
    ghost var batches: nat := 0;
    while nscored < npositions
      invariant nscored >= 0 && nscored <= |input| && output == RescoredPrefix(input, scores, nscored)
      invariant nscored == 0 || nscored <= npositions
      invariant nscored < npositions ==> nscored == batches * BATCH_SIZE
      decreases npositions - nscored
    {
      var batchSize := if nscored + BATCH_SIZE <= npositions then BATCH_SIZE else npositions - nscored;
      if nscored + batchSize > |input| {
        BatchesBeforeShortRead(|input|, nscored, npositions, batches);
        return Err(ReadFailed), output;
      }
      ScoreBatch(batchData, input, scores, nscored, batchSize);
      AppendRescored(input, scores, nscored, batchData, batchSize);
      output := output + batchData[..batchSize];
      nscored := nscored + batchSize;
      batches := batches + 1;
    }
    return Ok(()), output;
  }

  /**
   * rescore: the checks on the input, the seek to entry offset and the
   * batch loop. The input file is size bytes that hold the records
   * entries; scores[k] is the engine's score for entry k.
   */
  method Rescore(size: nat, entries: seq<PackedSfen>, scores: seq<int>, npositions: int, offset: int)
    returns (r: Result<(), RescoreError>, output: seq<PackedSfen>)
    requires size < 0x1_0000_0000_0000_0000 && |entries| == size / S.SFEN_BIN_SIZE && |scores| >= |entries|
    requires -0x8000_0000 <= npositions < 0x8000_0000 && -0x8000_0000_0000_0000 <= offset < 0x8000_0000_0000_0000
    ensures RescoreCount(size, npositions, offset).Err? ==> r == Err(RescoreCount(size, npositions, offset).error) && output == []
    ensures size < S.SFEN_BIN_SIZE * 0x8000_0000 && 0 <= offset < U32 && RescoreCount(size, npositions, offset).Ok? ==>
      var count := RescoreCount(size, npositions, offset).value;
      r.Ok? && 0 <= count && offset + count <= |entries| && output == RescoredPrefix(entries[offset..], scores[offset..], count)
  {
    var checked := RescoreCount(size, npositions, offset);
    if checked.Err? {
      return Err(checked.error), [];
    }
    if offset < 0 {
      return Err(SeekFailed), [];
    }
    var input := if offset <= |entries| then entries[offset..] else [];
    var inputScores := if offset <= |entries| then scores[offset..] else [];
    if size < S.SFEN_BIN_SIZE * 0x8000_0000 && offset < U32 {
      RescoreCountExact(size, npositions, offset);
    }
    r, output := RescoreEntries(input, inputScores, checked.value);
  }

  /**
   * One batch of rescore: the entries read from the input into batch_data,
   * then each entry's score replaced by the search score when that is
   * inside the eval limit.
   */
  method ScoreBatch(batchData: array<PackedSfen>, input: seq<PackedSfen>, scores: seq<int>, start: nat, batchSize: nat)
    requires batchSize <= batchData.Length && start + batchSize <= |input| <= |scores|
    modifies batchData
    ensures forall j :: 0 <= j < batchSize ==> batchData[j] == Rescored(input[start + j], scores[start + j])
  {
    forall k | 0 <= k < batchSize {
      batchData[k] := input[start + k];
    }
    for k := 0 to batchSize
      invariant forall j :: 0 <= j < k ==> batchData[j] == Rescored(input[start + j], scores[start + j])
      invariant forall j :: k <= j < batchSize ==> batchData[j] == input[start + j]
    {
      var score := scores[start + k];
      if -EVAL_LIMIT < score && score < EVAL_LIMIT {
        batchData[k] := batchData[k].(stmScore := Int16(score));
      }
    }
  }

  /** Appending a rescored batch extends the rescored prefix. */
  lemma AppendRescored(input: seq<PackedSfen>, scores: seq<int>, n: nat, batch: array<PackedSfen>, size: nat)
    requires size <= batch.Length && n + size <= |input| <= |scores|
    requires forall j :: 0 <= j < size ==> batch[j] == Rescored(input[n + j], scores[n + j])
    ensures RescoredPrefix(input, scores, n) + batch[..size] == RescoredPrefix(input, scores, n + size)
  {
    var a := RescoredPrefix(input, scores, n) + batch[..size];
    var b := RescoredPrefix(input, scores, n + size);
    forall k | 0 <= k < |a|
      ensures a[k] == b[k]
    {
      if k >= n {
        assert a[k] == batch[k - n];
      }
    }
  }

  /** The first short read of the batch loop comes after all the full batches the input holds. */
  lemma BatchesBeforeShortRead(size: nat, nscored: nat, npositions: int, batches: nat)
    requires nscored == batches * BATCH_SIZE && nscored <= size && nscored < npositions
    requires nscored + (if nscored + BATCH_SIZE <= npositions then BATCH_SIZE else npositions - nscored) > size
    ensures size < npositions && nscored == size / BATCH_SIZE * BATCH_SIZE
  {
    assert size - nscored < BATCH_SIZE;
  }
}
