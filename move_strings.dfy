/**
 * pos_move2str and pos_str2move of src/position.c: moves in coordinate
 * notation, castling written as the king's move in standard chess and as
 * O-O / O-O-O for Chess960 under the Xboard protocol.  The engine variant
 * and protocol, globals in the engine, are parameters here, and so is the
 * move list gen_moves produces.
 */
module MoveStrings {
  import opened Types
  import opened Wrappers
  import opened Bitboard
  import opened Position

  datatype Variant = VariantUnspecified | VariantStandard | VariantFrc
  datatype Protocol = ProtocolUnspecified | ProtocolUci | ProtocolXboard

  /** The Xboard protocol playing Chess960, where castling has its own notation. */
  predicate FrcXboard(variant: Variant, protocol: Protocol)
  {
    variant == VariantFrc && protocol == ProtocolXboard
  }

  /** A square as file letter and rank digit. */
  function SquareName(sq: Square): (r: string)
    ensures |r| == 2 && 'a' <= r[0] <= 'h' && '1' <= r[1] <= '8'
  {
    [(FileNr(sq) + 'a' as int) as char, (RankNr(sq) + '1' as int) as char]
  }

  /** The letter of a promotion piece type. */
  function PromotionLetter(v: int): char
    requires v in {KNIGHT, BISHOP, ROOK, QUEEN}
  {
    if v == KNIGHT then 'n' else if v == BISHOP then 'b' else if v == ROOK then 'r' else 'q'
  }

  /** A move pos_move2str can print: a promotion names a knight, bishop, rook or queen (any other trips its assert). */
  predicate Printable(m: nat)
  {
    IsPromotion(m) ==> Promotion(m) < NO_PIECE && Value(Promotion(m)) in {KNIGHT, BISHOP, ROOK, QUEEN}
  }

  /** pos_move2str. */
  function Move2Str(m: nat, variant: Variant, protocol: Protocol): (r: string)
    requires Printable(m)
    ensures !IsNullMove(m) && m != NOMOVE && !(FrcXboard(variant, protocol) && IsCastle(m)) ==>
              |r| == (if IsPromotion(m) then 5 else 4) && r[..2] == SquareName(From(m))
  {
    if IsNullMove(m) then "0000"
    else if m == NOMOVE then "(none)"
    else if FrcXboard(variant, protocol) && IsKingsideCastle(m) then "O-O"
    else if FrcXboard(variant, protocol) && IsQueensideCastle(m) then "O-O-O"
    else
      var to := if variant == VariantStandard then ToCastle(m) else To(m);
      SquareName(From(m)) + SquareName(to) +
      (if IsPromotion(m) then [PromotionLetter(Value(Promotion(m)))] else [])
  }

  /** What pos_str2move looks for in the move list: from, to and the promotion piece. */
  datatype Target = Target(from: int, to: int, promotion: int)

  /** A listed move is the one looked for: same squares, and the same promotion piece if it promotes. */
  predicate Matches(t: Target, move: nat)
  {
    t.from == From(move) && t.to == To(move) && (IsPromotion(move) ==> t.promotion == Promotion(move))
  }

  /** str[i] of the NUL-terminated string: the terminator past its end. */
  function CharAt(str: string, i: nat): char
  {
    if i < |str| then str[i] else '\0'
  }

  /** SQUARE(str[i] - 'a', str[i + 1] - '1'), unchecked as in the C. */
  function SquareAt(str: string, i: nat): int
  {
    (CharAt(str, i + 1) as int - '1' as int) * 8 + (CharAt(str, i) as int - 'a' as int)
  }

  /** The promotion piece named by a letter: n, b, r or q of the side to move, NO_PIECE otherwise. */
  function PromotionOf(c: char, stm: Side): int
  {
    if c == 'n' then KNIGHT + stm else if c == 'b' then BISHOP + stm
    else if c == 'r' then ROOK + stm else if c == 'q' then QUEEN + stm else NO_PIECE
  }

  /** pos_str2move's own case: the king of the side, given in coordinates as a two-file move, castles. */
  predicate KingCastleStep(b: Placement, stm: Side, from: int, to: int)
    requires b.Sized()
  {
    0 <= from < NSQUARES && b.pieces[from] == stm + KING && (to - from == 2 || from - to == 2)
  }

  /** What LSB of the king bitboard needs: a king of the side when the string is O-O or O-O-O in Chess960 under Xboard. */
  predicate CastleStringNeedsKing(str: string, b: Placement, stm: Side, variant: Variant, protocol: Protocol)
    requires b.Sized()
  {
    FrcXboard(variant, protocol) && (str == "O-O" || str == "O-O-O") ==> HasKing(b, stm)
  }

  /**
   * The parsing half of pos_str2move: nothing for a string shorter than 3;
   * O-O and O-O-O for Chess960 under Xboard name the king's square and the
   * rook's; otherwise two squares and an optional promotion letter, and in
   * standard chess a two-file king move becomes king-takes-rook.
   */
  function ParseMove(str: string, b: Placement, stm: Side, rooks: RookSquares, variant: Variant, protocol: Protocol): (r: Option<Target>)
    requires b.Sized() && CastleStringNeedsKing(str, b, stm, variant, protocol)
    ensures r.None? <==> |str| < 3
  {
    if |str| < 3 then None
    else if FrcXboard(variant, protocol) && str == "O-O" then
      Some(Target(LowestSquare(b.bbPieces[KING + stm], 0), KingsideRook(rooks, stm), NO_PIECE))
    else if FrcXboard(variant, protocol) && str == "O-O-O" then
      Some(Target(LowestSquare(b.bbPieces[KING + stm], 0), QueensideRook(rooks, stm), NO_PIECE))
    else
      var from, to := SquareAt(str, 0), SquareAt(str, 2);
      var promotion := PromotionOf(CharAt(str, 4), stm);
      if variant == VariantStandard && KingCastleStep(b, stm, from, to) then
        Some(Target(from, if to < from then QueensideRook(rooks, stm) else KingsideRook(rooks, stm), promotion))
      else
        Some(Target(from, to, promotion))
  }

  /** The first listed move that matches, NOMOVE when none does. */
  predicate FirstMatch(t: Target, list: seq<nat>, move: nat)
  {
    (exists k :: 0 <= k < |list| && list[k] == move && Matches(t, list[k]) &&
                 forall j :: 0 <= j < k ==> !Matches(t, list[j])) ||
    (move == NOMOVE && forall k :: 0 <= k < |list| ==> !Matches(t, list[k]))
  }

  /** pos_str2move: parses the string and returns the first move of gen_moves' list that it matches. */
  method Str2Move(str: string, list: seq<nat>, b: Placement, stm: Side, rooks: RookSquares,
                  variant: Variant, protocol: Protocol) returns (move: nat)
    requires b.Sized() && CastleStringNeedsKing(str, b, stm, variant, protocol)
    ensures match ParseMove(str, b, stm, rooks, variant, protocol)
              case None => move == NOMOVE
              case Some(t) => FirstMatch(t, list, move)
  {
    var parsed := ParseMove(str, b, stm, rooks, variant, protocol);
    if parsed.None? {
      return NOMOVE;
    }
    var t := parsed.value;
    var k := 0;
    while k < |list|
      invariant 0 <= k <= |list|
      invariant forall j :: 0 <= j < k ==> !Matches(t, list[j])
    {
      if Matches(t, list[k]) {
        return list[k];
      }
      k := k + 1;
    }
    return NOMOVE;
  }

  /** Characters a C char holds without sign trouble. */
  predicate Ascii(str: string)
  {
    forall i :: 0 <= i < |str| ==> str[i] < 128 as char
  }

  /**
   * A three-character string other than O-O parses to a target square off
   * the board (its fourth character is the terminator), so it matches no
   * move: pos_str2move needs four characters although it tests for three.
   */
  lemma ThreeCharsMatchNothing(str: string, b: Placement, stm: Side, rooks: RookSquares, variant: Variant, protocol: Protocol, move: nat)
    requires b.Sized() && CastleStringNeedsKing(str, b, stm, variant, protocol) && Ascii(str)
    requires |str| == 3 && !(FrcXboard(variant, protocol) && str == "O-O")
    ensures ParseMove(str, b, stm, rooks, variant, protocol).Some?
    ensures !Matches(ParseMove(str, b, stm, rooks, variant, protocol).value, move)
  {
    var from, to := SquareAt(str, 0), SquareAt(str, 2);
    assert str[2] < 128 as char;
    assert to < -300;
    assert !KingCastleStep(b, stm, from, to);
  }

  /** The squares a listed move is written with, as pos_str2move reads them back. */
  lemma SquareNameParses(str: string, i: nat, sq: Square)
    requires i + 2 <= |str| && str[i..i + 2] == SquareName(sq)
    ensures SquareAt(str, i) == sq
  {
    assert str[i] == str[i..i + 2][0] && str[i + 1] == str[i..i + 2][1];
  }

  /** What a move must satisfy for its string to read back as the same move on the board it was made on. */
  predicate ReadsBack(m: nat, b: Placement, stm: Side, rooks: RookSquares, variant: Variant, protocol: Protocol)
    requires b.Sized()
  {
    Printable(m) && !IsNullMove(m) && m != NOMOVE &&
    (IsPromotion(m) ==> Color(Promotion(m)) == stm) &&
    if FrcXboard(variant, protocol) && IsCastle(m) then
      // O-O names the king found by LSB and the rook's castling square, and no promotion
      !IsPromotion(m) && HasKing(b, stm) && LowestSquare(b.bbPieces[KING + stm], 0) == From(m) &&
      To(m) == (if IsKingsideCastle(m) then KingsideRook(rooks, stm) else QueensideRook(rooks, stm))
    else if variant == VariantStandard && IsCastle(m) then
      // the king's two-file step names the rook's castling square
      KingCastleStep(b, stm, From(m), ToCastle(m)) &&
      To(m) == (if ToCastle(m) < From(m) then QueensideRook(rooks, stm) else KingsideRook(rooks, stm))
    else
      // any other move is read as written: a king never steps two files
      variant != VariantStandard || !KingCastleStep(b, stm, From(m), To(m))
  }

  /** pos_str2move reads pos_move2str's string back as a target that the move itself matches. */
  lemma Move2StrReadsBack(m: nat, b: Placement, stm: Side, rooks: RookSquares, variant: Variant, protocol: Protocol)
    requires b.Sized() && ReadsBack(m, b, stm, rooks, variant, protocol)
    ensures CastleStringNeedsKing(Move2Str(m, variant, protocol), b, stm, variant, protocol)
    ensures var r := ParseMove(Move2Str(m, variant, protocol), b, stm, rooks, variant, protocol);
      r.Some? && Matches(r.value, m)
  {
    if FrcXboard(variant, protocol) && IsCastle(m) {
      CastlingReadsBack(m, b, stm, rooks, variant, protocol);
    } else {
      CoordinatesReadBack(m, b, stm, rooks, variant, protocol);
    }
  }

  /** O-O and O-O-O: the king found by LSB and the rook's castling square. */
  lemma CastlingReadsBack(m: nat, b: Placement, stm: Side, rooks: RookSquares, variant: Variant, protocol: Protocol)
    requires b.Sized() && ReadsBack(m, b, stm, rooks, variant, protocol) && FrcXboard(variant, protocol) && IsCastle(m)
    ensures CastleStringNeedsKing(Move2Str(m, variant, protocol), b, stm, variant, protocol)
    ensures var r := ParseMove(Move2Str(m, variant, protocol), b, stm, rooks, variant, protocol);
      r.Some? && Matches(r.value, m)
  {
    var str := Move2Str(m, variant, protocol);
    var king := LowestSquare(b.bbPieces[KING + stm], 0);
    if IsKingsideCastle(m) {
      assert str == "O-O";
      assert ParseMove(str, b, stm, rooks, variant, protocol) == Some(Target(king, KingsideRook(rooks, stm), NO_PIECE));
    } else {
      assert str == "O-O-O";
      assert ParseMove(str, b, stm, rooks, variant, protocol) == Some(Target(king, QueensideRook(rooks, stm), NO_PIECE));
    }
  }

  /** The coordinate form: both squares and the promotion letter read back. */
  lemma CoordinatesReadBack(m: nat, b: Placement, stm: Side, rooks: RookSquares, variant: Variant, protocol: Protocol)
    requires b.Sized() && ReadsBack(m, b, stm, rooks, variant, protocol) && !(FrcXboard(variant, protocol) && IsCastle(m))
    ensures CastleStringNeedsKing(Move2Str(m, variant, protocol), b, stm, variant, protocol)
    ensures var r := ParseMove(Move2Str(m, variant, protocol), b, stm, rooks, variant, protocol);
      r.Some? && Matches(r.value, m)
  {
    var str := Move2Str(m, variant, protocol);
    var to := if variant == VariantStandard then ToCastle(m) else To(m);
    var tail := if IsPromotion(m) then [PromotionLetter(Value(Promotion(m)))] else [];
    assert str == SquareName(From(m)) + SquareName(to) + tail;
    assert str[..2] == SquareName(From(m));
    assert str[2..4] == SquareName(to);
    assert str[0] != 'O';
    SquareNameParses(str, 0, From(m));
    SquareNameParses(str, 2, to);
    var promotion := PromotionOf(CharAt(str, 4), stm);
    if IsPromotion(m) {
      var p := Promotion(m);
      assert CharAt(str, 4) == PromotionLetter(Value(p));
      assert promotion == Value(p) + stm;
    }
    var r := ParseMove(str, b, stm, rooks, variant, protocol);
    if variant == VariantStandard && KingCastleStep(b, stm, From(m), to) {
      assert IsCastle(m);
      assert r.value == Target(From(m), To(m), promotion);
    } else {
      assert r.value == Target(From(m), to, promotion);
    }
  }
}
