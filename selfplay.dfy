/**
 * The self-play generator of src/selfplay.c. Its bit encoder
 * (sfen_encode_bit, sfen_encode_bits, sfen_encode_piece,
 * sfen_encode_position) and sfen_encode_move are the ones of src/sfen.c,
 * modelled by SfenBuffer and SfenGame.EncodeMove. What differs is that
 * play_game keeps the raw position data of each stored ply and encodes the
 * records only when it writes them.
 */
module SelfPlay {
  import opened Types
  import opened Wrappers
  import opened CInt
  import S = SfenFormat
  import SB = SfenBuffer
  import G = SfenGame

  /** struct position_data: what fill_position_data keeps of a ply. */
  datatype PositionData = PositionData(
    board: seq<Cell>,
    blackKingSq: Square,
    whiteKingSq: Square,
    epSq: nat,
    castle: nat,
    fifty: nat,
    fullmove: nat,
    stm: Side,
    move: nat,
    stmScore: int,
    ply: nat,
    stmResult: int)

  /** The position part of the data, as the record's position block encodes it. */
  function PositionOf(d: PositionData): (p: S.SfenPosition)
    ensures p.board == d.board && p.stm == d.stm && p.castle == d.castle && p.epSq == d.epSq
  {
    S.SfenPosition(d.board, d.whiteKingSq, d.blackKingSq, d.epSq, d.castle, d.fifty, d.fullmove, d.stm)
  }

  /**
   * fill_position_data: copies the position of the ply with the move and
   * score of the search, and puts the side to move's sign in stm_result.
   */
  function FillPositionData(t: G.Turn): (d: PositionData)
    ensures PositionOf(d) == t.pos
    ensures d.move == t.move && d.stmScore == t.score && d.ply == t.ply
    ensures d.stmResult == (if t.pos.stm == WHITE then 1 else -1)
  {
    PositionData(t.pos.board, t.pos.blackKingSq, t.pos.whiteKingSq, t.pos.epSq, t.pos.castle,
      t.pos.fifty, t.pos.fullmove, t.pos.stm, t.move, t.score, t.ply,
      if t.pos.stm == WHITE then 1 else -1)
  }

  /** The record write_sfen_data makes of the data. */
  function RecordOf(d: PositionData): G.PackedSfen
    requires G.PromotesToPiece(d.move)
  {
    G.PackedSfen(PositionOf(d), d.stmScore, G.EncodeMove(d.move), d.ply, d.stmResult, 0xFF)
  }

  /**
   * The data a ply leaves, once written, is the record src/sfen.c stores
   * for that ply; multiplying its stm_result first is multiplying the
   * record's.
   */
  lemma FillRecordsEntry(t: G.Turn, w: int)
    requires G.PromotesToPiece(t.move)
    ensures RecordOf(FillPositionData(t)) == G.Entry(t)
    ensures RecordOf(Scaled(FillPositionData(t), w)) == G.Scale(G.Entry(t), w)
  {
  }

  /** stm_result *= white_result on the data of one ply. */
  function Scaled(d: PositionData, w: int): PositionData
  {
    d.(stmResult := d.stmResult * w)
  }

  /** A position the 32-byte block can hold: 64 squares, few enough pieces. */
  predicate Encodable(p: S.SfenPosition)
  {
    |p.board| == 64 && |S.EncodeStream(p)| <= S.POSITION_BITS
  }

  /**
   * write_sfen_data: a zeroed record whose position block is filled by
   * sfen_encode_position, with the score, the encoded move, the ply, the
   * result and the 0xFF padding. The block decodes back to the position.
   */
  method WriteSfenData(d: PositionData) returns (block: seq<bv8>, rec: G.PackedSfen)
    requires G.PromotesToPiece(d.move) && Encodable(PositionOf(d))
    ensures rec == RecordOf(d) && rec.padding == 0xFF
    ensures |block| == S.POSITION_BYTES
    ensures SB.BufferBits(block) == BlockBits(PositionOf(d))
  {
    var buf := new bv8[S.POSITION_BYTES](_ => 0);
    ghost var zero := buf[..];
    SB.EncodePosition(PositionOf(d), buf);
    block := buf[..];
    rec := G.PackedSfen(PositionOf(d), d.stmScore, G.EncodeMove(d.move), d.ply, d.stmResult, 0xFF);
    BlockOfStream(PositionOf(d), zero);
  }

  /** Encoding into a zeroed block leaves the stream followed by zero bits. */
  lemma BlockOfStream(p: S.SfenPosition, zero: seq<bv8>)
    requires Encodable(p)
    requires |zero| == S.POSITION_BYTES && forall j :: 0 <= j < |zero| ==> zero[j] == 0
    ensures SB.BufferBits(SB.OrBytes(zero, 0, S.EncodeStream(p))) == BlockBits(p)
  {
    var w := S.EncodeStream(p);
    SB.OrBytesBits(zero, 0, w);
    SB.ZeroBits(zero, S.POSITION_BITS);
    SB.OrIntoZeros(w, S.POSITION_BITS, S.POSITION_BITS - |w|);
  }

  /**
   * The block write_sfen_data makes of a well-formed position reads back,
   * through sfen_decode_position, as that position.
   */
  lemma BlockDecodes(p: S.SfenPosition)
    requires Encodable(p) && S.WellFormed(p)
    ensures S.DecodeStream(BlockBits(p)) == Some(p)
  {
    var zero := seq(S.POSITION_BYTES, _ => 0 as bv8);
    assert forall j :: 0 <= j < |zero| ==> zero[j] == 0;
    BlockOfStream(p, zero);
    SB.EncodedBlockDecodes(p, zero);
  }

  /** The blank entry memset leaves in the batch. */
  const BLANK: PositionData := PositionData(seq(64, _ => 0), 0, 0, 0, 0, 0, 0, 0, 0, 0, 0, 0)

  /** The stored data of the batch, each as the record it will be written as. */
  predicate StoredAs(batch: seq<PositionData>, stored: seq<G.PackedSfen>)
  {
    && |batch| == |stored|
    && forall k :: 0 <= k < |batch| ==> G.PromotesToPiece(batch[k].move) && RecordOf(batch[k]) == stored[k]
  }

  /** Every game position can be encoded into the record's block. */
  predicate GameEncodable(turns: seq<G.Turn>)
  {
    forall i :: 0 <= i < |turns| ==> Encodable(turns[i].pos)
  }

  /**
   * play_game of src/selfplay.c: the game loop of src/sfen.c with the
   * position data kept in the batch. It writes the same records.
   */
  method PlayGame(turns: seq<G.Turn>, posLeft: nat) returns (npos: nat, written: seq<G.PackedSfen>, blocks: seq<seq<bv8>>)
    requires G.Playable(turns) && GameEncodable(turns)
    ensures written == G.PlayGameSpec(turns, posLeft) && npos == |written| <= posLeft
    ensures BlocksOf(written, blocks)
  {
    if turns[0].result != G.Undetermined {
      return 0, [], [];
    }
    var batch := new PositionData[G.MAX_GAME_PLY](_ => BLANK);
    var whiteResult;
    ghost var stored;
    npos, whiteResult, stored := StorePlies(turns, batch);
    ghost var kept := batch[..npos];
    assert StoredAs(kept, stored) && stored == G.Run(turns, 0, 0).0;
    RecordsEncodable(turns);
    SetResults(batch, npos, whiteResult);
    ScaledStored(kept, batch[..npos], stored, whiteResult);
    if npos > posLeft {
      npos := posLeft;
    }
    written, blocks := WritePositionData(batch, npos, stored, whiteResult, posLeft);
  }

  /**
   * The game loop of play_game: the data of every quiet ply is kept in the
   * batch until the game ends or is adjudicated, and the result is set from
   * white's point of view.
   */
  method StorePlies(turns: seq<G.Turn>, batch: array<PositionData>) returns (npos: nat, whiteResult: int, ghost stored: seq<G.PackedSfen>)
    requires G.Playable(turns) && turns[0].result == G.Undetermined
    requires batch.Length == G.MAX_GAME_PLY
    modifies batch
    ensures npos <= batch.Length && Played(turns, batch[..npos], stored, whiteResult)
  {
    npos := 0;
    var i: nat := 0;
    whiteResult := 0;
    var drawCount: nat := 0;
    stored := [];
    ghost var data: seq<PositionData> := [];
    G.GameFitsBatch(turns);
    while turns[i].result == G.Undetermined
      invariant i < |turns| && npos == |stored| <= |G.Run(turns, 0, 0).0| <= batch.Length
      invariant batch[..npos] == data
      invariant Storing(turns, data, stored, i, drawCount)
      decreases |turns| - i
    {
      var t := turns[i];
      if !G.Quiet(t) {
        SkipStep(turns, data, stored, i, drawCount);
        i := i + 1;
        continue;
      }
      if Abs(t.score) >= G.EVAL_LIMIT {
        StopAdjudicated(turns, data, stored, i, drawCount);
        whiteResult := if G.WhiteScore(t) > 0 then 1 else -1;
        break;
      }
      ghost var stops := G.StopsAfter(t, drawCount);
      KeepStep(turns, data, stored, i, drawCount);
      Push(batch, npos, FillPositionData(t));
      npos := npos + 1;
      data := data + [FillPositionData(t)];
      stored := stored + [G.Entry(t)];
      if t.ply > G.MIN_DRAW_PLY {
        drawCount := if Abs(t.score) <= G.DRAW_SCORE then drawCount + 1 else 0;
      }
      if t.ply >= G.MAX_GAME_PLY || (t.ply > G.MIN_DRAW_PLY && drawCount >= G.DRAW_COUNT) {
        assert stops;
        whiteResult := 0;
        break;
      }
      i := i + 1;
    }

    if turns[i].result != G.Undetermined {
      StopGameOver(turns, data, stored, i, drawCount);
    }
    if turns[i].result == G.Checkmate {
      whiteResult := if turns[i].pos.stm == BLACK then 1 else -1;
    } else if turns[i].result == G.Stalemate || turns[i].result == G.DrawByRule {
      whiteResult := 0;
    }
  }

  /** batch[npos] = data: one more entry after the npos stored ones. */
  method Push(batch: array<PositionData>, npos: nat, d: PositionData)
    requires npos < batch.Length
    modifies batch
    ensures batch[..npos + 1] == old(batch[..npos]) + [d]
  {
    batch[npos] := d;
  }

  /**
   * The state of the game loop at ply i: the batch holds the data of the
   * records stored so far, and the loop from ply i stores the rest and
   * stops as the whole game does.
   */
  predicate Storing(turns: seq<G.Turn>, data: seq<PositionData>, stored: seq<G.PackedSfen>, i: nat, draws: nat)
  {
    && G.Finished(turns) && i < |turns|
    && StoredAs(data, stored)
    && stored + G.Run(turns, i, draws).0 == G.Run(turns, 0, 0).0
    && G.Run(turns, i, draws).1 == G.Run(turns, 0, 0).1
  }

  /**
   * The state the game loop ends in: the batch holds the data of every
   * record the game stores, and w is the result of the game for white.
   */
  predicate Played(turns: seq<G.Turn>, data: seq<PositionData>, stored: seq<G.PackedSfen>, w: int)
  {
    && G.Finished(turns)
    && StoredAs(data, stored)
    && stored == G.Run(turns, 0, 0).0
    && w == G.WhiteResult(turns, G.Run(turns, 0, 0).1)
  }

  /** A ply that is not quiet is passed over. */
  lemma SkipStep(turns: seq<G.Turn>, data: seq<PositionData>, stored: seq<G.PackedSfen>, i: nat, draws: nat)
    requires Storing(turns, data, stored, i, draws)
    requires turns[i].result == G.Undetermined && !G.Quiet(turns[i])
    ensures i + 1 < |turns| && Storing(turns, data, stored, i + 1, draws)
  {
    assert i != |turns| - 1;
  }

  /** A quiet ply below the eval limit is stored; the loop goes on unless the ply or draw limit is reached. */
  lemma KeepStep(turns: seq<G.Turn>, data: seq<PositionData>, stored: seq<G.PackedSfen>, i: nat, draws: nat)
    requires Storing(turns, data, stored, i, draws)
    requires turns[i].result == G.Undetermined && G.Quiet(turns[i]) && Abs(turns[i].score) < G.EVAL_LIMIT
    ensures StoredAs(data + [FillPositionData(turns[i])], stored + [G.Entry(turns[i])])
    ensures |stored| < |G.Run(turns, 0, 0).0|
    ensures G.StopsAfter(turns[i], draws) ==>
      Played(turns, data + [FillPositionData(turns[i])], stored + [G.Entry(turns[i])], 0)
    ensures !G.StopsAfter(turns[i], draws) ==>
      && i + 1 < |turns|
      && Storing(turns, data + [FillPositionData(turns[i])], stored + [G.Entry(turns[i])], i + 1, G.NextDraws(turns[i], draws))
  {
    var t := turns[i];
    G.RunStores(turns, i, draws);
    FillRecordsEntry(t, 1);
    StoreOne(data, stored, FillPositionData(t), G.Entry(t));
    assert i != |turns| - 1;
    if !G.StopsAfter(t, draws) {
      StoreAssoc(stored, G.Entry(t), G.Run(turns, i + 1, G.NextDraws(t, draws)).0);
    }
  }

  /** A ply past the eval limit ends the loop with what is stored, adjudicated to the side ahead. */
  lemma StopAdjudicated(turns: seq<G.Turn>, data: seq<PositionData>, stored: seq<G.PackedSfen>, i: nat, draws: nat)
    requires Storing(turns, data, stored, i, draws)
    requires turns[i].result == G.Undetermined && G.Quiet(turns[i]) && Abs(turns[i].score) >= G.EVAL_LIMIT
    ensures Played(turns, data, stored, if G.WhiteScore(turns[i]) > 0 then 1 else -1)
  {
  }

  /** A position where the game is over ends the loop with what is stored. */
  lemma StopGameOver(turns: seq<G.Turn>, data: seq<PositionData>, stored: seq<G.PackedSfen>, i: nat, draws: nat)
    requires Storing(turns, data, stored, i, draws) && turns[i].result != G.Undetermined
    ensures Played(turns, data, stored, G.WhiteResult(turns, G.GameOver(i)))
  {
  }

  /** The loop at the end of play_game: stm_result *= white_result on each stored entry. */
  method SetResults(batch: array<PositionData>, npos: nat, w: int)
    requires npos <= batch.Length
    modifies batch
    ensures forall j :: 0 <= j < npos ==> batch[j] == Scaled(old(batch[j]), w)
    ensures forall j :: npos <= j < batch.Length ==> batch[j] == old(batch[j])
  {
    for k := 0 to npos
      invariant forall j :: 0 <= j < k ==> batch[j] == Scaled(old(batch[j]), w)
      invariant forall j :: k <= j < batch.Length ==> batch[j] == old(batch[j])
    {
      batch[k] := batch[k].(stmResult := batch[k].stmResult * w);
    }
  }

  /** The stored data, each written as the record stored for it with the game result applied. */
  predicate ScaledAs(batch: seq<PositionData>, stored: seq<G.PackedSfen>, w: int)
  {
    && |batch| == |stored|
    && forall k :: 0 <= k < |batch| ==>
      G.PromotesToPiece(batch[k].move) && Encodable(PositionOf(batch[k])) && RecordOf(batch[k]) == G.Scale(stored[k], w)
  }

  /** Applying the result to the data applies it to the records they are written as. */
  lemma ScaledStored(kept: seq<PositionData>, batch: seq<PositionData>, stored: seq<G.PackedSfen>, w: int)
    requires StoredAs(kept, stored) && |batch| == |kept|
    requires forall e :: e in stored ==> Encodable(e.position)
    requires forall j :: 0 <= j < |kept| ==> batch[j] == Scaled(kept[j], w)
    ensures ScaledAs(batch, stored, w)
  {
    forall k | 0 <= k < |batch|
      ensures Encodable(PositionOf(batch[k]))
    {
      assert stored[k] in stored;
    }
  }

  /** Every record a game stores is of one of its positions. */
  lemma RecordsEncodable(turns: seq<G.Turn>)
    requires G.Finished(turns) && GameEncodable(turns)
    ensures forall e :: e in G.Run(turns, 0, 0).0 ==> Encodable(e.position)
  {
    G.RunRecordsQuiet(turns, 0, 0);
  }

  /** Moving the record of one ply from the loop's remainder onto the stored ones. */
  lemma StoreAssoc(prev: seq<G.PackedSfen>, e: G.PackedSfen, rest: seq<G.PackedSfen>)
    ensures (prev + [e]) + rest == prev + ([e] + rest)
  {
  }

  /** Storing one more ply's data keeps the batch in step with its records. */
  lemma StoreOne(batch: seq<PositionData>, stored: seq<G.PackedSfen>, d: PositionData, e: G.PackedSfen)
    requires StoredAs(batch, stored) && G.PromotesToPiece(d.move) && RecordOf(d) == e
    ensures StoredAs(batch + [d], stored + [e])
  {
  }

  /**
   * write_position_data: writes the first npos entries of the batch, each
   * with write_sfen_data.
   */
  method WritePositionData(batch: array<PositionData>, npos: nat, ghost stored: seq<G.PackedSfen>, ghost w: int, ghost posLeft: nat)
    returns (written: seq<G.PackedSfen>, blocks: seq<seq<bv8>>)
    requires npos == (if |stored| > posLeft then posLeft else |stored|) && |stored| <= batch.Length
    requires ScaledAs(batch[..|stored|], stored, w)
    ensures written == G.ResultRecords(stored, w, posLeft)
    ensures BlocksOf(written, blocks)
  {
    written := [];
    blocks := [];
    for k := 0 to npos
      invariant WrittenSoFar(written, blocks, stored, w, k)
    {
      ghost var d := batch[..|stored|][k];
      var block, rec := WriteSfenData(batch[k]);
      WriteStep(written, blocks, stored, w, k, d, rec, block);
      written := written + [rec];
      blocks := blocks + [block];
    }
    WrittenAll(written, blocks, stored, w, posLeft);
  }

  /** The first k records of the batch written, with their blocks. */
  predicate WrittenSoFar(written: seq<G.PackedSfen>, blocks: seq<seq<bv8>>, stored: seq<G.PackedSfen>, w: int, k: nat)
  {
    && k <= |stored| && |written| == k
    && (forall j :: 0 <= j < k ==> written[j] == G.Scale(stored[j], w))
    && BlocksOf(written, blocks)
  }

  lemma WriteStep(written: seq<G.PackedSfen>, blocks: seq<seq<bv8>>, stored: seq<G.PackedSfen>, w: int, k: nat,
                  d: PositionData, rec: G.PackedSfen, block: seq<bv8>)
    requires WrittenSoFar(written, blocks, stored, w, k) && k < |stored|
    requires G.PromotesToPiece(d.move) && Encodable(PositionOf(d)) && RecordOf(d) == G.Scale(stored[k], w)
    requires rec == RecordOf(d) && |block| == S.POSITION_BYTES && SB.BufferBits(block) == BlockBits(PositionOf(d))
    ensures WrittenSoFar(written + [rec], blocks + [block], stored, w, k + 1)
  {
    BlocksStep(written, blocks, rec, block);
    var more := written + [rec];
    forall j | 0 <= j < k + 1
      ensures more[j] == G.Scale(stored[j], w)
    {
      if j < k {
        assert more[j] == written[j];
      }
    }
  }

  lemma WrittenAll(written: seq<G.PackedSfen>, blocks: seq<seq<bv8>>, stored: seq<G.PackedSfen>, w: int, posLeft: nat)
    requires WrittenSoFar(written, blocks, stored, w, if |stored| > posLeft then posLeft else |stored|)
    ensures written == G.ResultRecords(stored, w, posLeft) && BlocksOf(written, blocks)
  {
  }

  lemma BlocksStep(written: seq<G.PackedSfen>, blocks: seq<seq<bv8>>, rec: G.PackedSfen, block: seq<bv8>)
    requires BlocksOf(written, blocks) && Encodable(rec.position)
    requires |block| == S.POSITION_BYTES && SB.BufferBits(block) == BlockBits(rec.position)
    ensures BlocksOf(written + [rec], blocks + [block])
  {
  }

  /** The 256 bits of a record's position block: the position's stream, then zero bits. */
  function BlockBits(p: S.SfenPosition): (b: seq<bool>)
    requires Encodable(p)
    ensures |b| == S.POSITION_BITS && b[..|S.EncodeStream(p)|] == S.EncodeStream(p)
  {
    S.EncodeStream(p) + SB.Zeros(S.POSITION_BITS - |S.EncodeStream(p)|)
  }

  /** Each record's position block holds its position's stream, padded with zero bits. */
  predicate BlocksOf(written: seq<G.PackedSfen>, blocks: seq<seq<bv8>>)
  {
    && |blocks| == |written|
    && forall k :: 0 <= k < |written| ==>
      && Encodable(written[k].position)
      && |blocks[k]| == S.POSITION_BYTES
      && SB.BufferBits(blocks[k]) == BlockBits(written[k].position)
  }

  /** Every game can be encoded, position by position. */
  predicate GamesEncodable(games: seq<seq<G.Turn>>)
  {
    forall k :: 0 <= k < |games| ==> G.Playable(games[k]) && GameEncodable(games[k])
  }

  /**
   * play_games: games are played until npositions records are written,
   * each game asked for the positions still wanted. The games are the ones
   * the engine plays, one after the other; the records are those of the
   * generator of src/sfen.c, each with its encoded block.
   */
  method PlayGames(games: seq<seq<G.Turn>>, npositions: int) returns (ngenerated: int, written: seq<G.PackedSfen>, blocks: seq<seq<bv8>>)
    requires GamesEncodable(games)
    ensures npositions <= 0 ==> ngenerated == 0 && written == []
    ensures npositions > 0 ==> ngenerated == if |G.Records(games)| > npositions then npositions else |G.Records(games)|
    ensures npositions > 0 ==> written == G.Records(games)[..ngenerated]
    ensures ngenerated == |written| && BlocksOf(written, blocks)
  {
    ngenerated := 0;
    written := [];
    blocks := [];
    var g := 0;
    while ngenerated < npositions && g < |games|
      invariant g <= |games| && 0 <= ngenerated == |written|
      invariant BlocksOf(written, blocks)
      invariant npositions <= 0 ==> written == []
      invariant npositions > 0 ==> G.GenerateInvariant(games, g, npositions, written)
      decreases |games| - g
    {
      var n, recs, recBlocks := PlayGame(games[g], npositions - ngenerated);
      G.GenerateStep(games, g, npositions, written, recs);
      BlocksAppend(written, blocks, recs, recBlocks);
      written := written + recs;
      blocks := blocks + recBlocks;
      ngenerated := ngenerated + n;
      g := g + 1;
    }
    if npositions > 0 {
      G.GenerateDone(games, g, npositions, written);
    }
  }

  lemma BlocksAppend(written: seq<G.PackedSfen>, blocks: seq<seq<bv8>>, recs: seq<G.PackedSfen>, recBlocks: seq<seq<bv8>>)
    requires BlocksOf(written, blocks) && BlocksOf(recs, recBlocks)
    ensures BlocksOf(written + recs, blocks + recBlocks)
  {
    var w := written + recs;
    var b := blocks + recBlocks;
    forall k | 0 <= k < |w|
      ensures Encodable(w[k].position) && |b[k]| == S.POSITION_BYTES && SB.BufferBits(b[k]) == BlockBits(w[k].position)
    {
      if k < |written| {
        assert w[k] == written[k] && b[k] == blocks[k];
      } else {
        assert w[k] == recs[k - |written|] && b[k] == recBlocks[k - |written|];
      }
    }
  }
}
