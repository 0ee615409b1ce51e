/**
 * FEN strings (src/fen.c): fen_setup_board reads the six fields of a FEN
 * string through a character pointer into a position, fen_build_string
 * writes them back.
 *
 * The C string is a `string` here: its characters are the buffer and its end
 * is the terminating NUL.  The specification functions consume a string from
 * the front and return what is left, as the pointer advances; where the C
 * would read past the terminator or write outside the piece array the
 * outcome is Undefined, where fen_setup_board returns false it is Rejected.
 */
module Fen {
  import opened Types
  import opened Wrappers
  import U = Utils
  import K = Key
  import P = Position
  import B = Board

  /** What a field parser gives: the rest of the string and a value, or one of the two failures. */
  datatype Parse<T> = Read(rest: string, value: T) | Rejected | Undefined
  {
    predicate IsFailure()
    {
      !Read?
    }

    function PropagateFailure<U>(): Parse<U>
      requires IsFailure()
    {
      if Rejected? then Rejected else Undefined
    }

    function Extract(): (string, T)
      requires !IsFailure()
    {
      (rest, value)
    }
  }

  /** The character the pointer sees: the terminating NUL at the end of the string. */
  function At(s: string): char
  {
    if |s| > 0 then s[0] else '\0'
  }

  /** IS_DIGIT_08. */
  predicate IsDigit08(c: char)
  {
    '0' <= c <= '8'
  }

  /** IS_DIGIT_09. */
  predicate IsDigit09(c: char)
  {
    '0' <= c <= '9'
  }

  function DigitValue(c: char): (d: int)
    requires IsDigit09(c)
    ensures 0 <= d <= 9
  {
    c as int - '0' as int
  }

  function DigitChar(d: int): (c: char)
    requires 0 <= d <= 9
    ensures IsDigit09(c) && DigitValue(c) == d
  {
    ('0' as int + d) as char
  }

  /** IS_PIECE: the twelve piece letters. */
  predicate IsPieceChar(c: char)
  {
    c in {'K', 'Q', 'R', 'B', 'N', 'P', 'k', 'q', 'r', 'b', 'n', 'p'}
  }

  /** char2piece. */
  function CharToPiece(c: char): (p: Cell)
    ensures IsPieceChar(c) <==> p != NO_PIECE
  {
    match c
    case 'K' => WHITE_KING
    case 'Q' => WHITE_QUEEN
    case 'R' => WHITE_ROOK
    case 'B' => WHITE_BISHOP
    case 'N' => WHITE_KNIGHT
    case 'P' => WHITE_PAWN
    case 'k' => BLACK_KING
    case 'q' => BLACK_QUEEN
    case 'r' => BLACK_ROOK
    case 'b' => BLACK_BISHOP
    case 'n' => BLACK_KNIGHT
    case 'p' => BLACK_PAWN
    case _ => NO_PIECE
  }

  /** piece2char (src/data.c): upper case for white, lower case for black. */
  function PieceChar(p: Cell): (c: char)
    requires p != NO_PIECE
    ensures IsPieceChar(c) && CharToPiece(c) == p
  {
    ['P', 'p', 'N', 'n', 'B', 'b', 'R', 'r', 'Q', 'q', 'K', 'k'][p]
  }

  // ---- the piece placement field ----------------------------------------------

  /**
   * The inner loop of the placement field for one rank: digits advance the
   * file, piece letters are stored on SQUARE(file, rank), anything else is
   * skipped; it stops, without consuming it, at '/' or ' '.
   */
  function ScanRank(s: string, rank: int, file: int, board: seq<Cell>): (r: Parse<seq<Cell>>)
    requires |board| == NSQUARES && 0 <= rank < 8 && 0 <= file
    ensures r.Read? ==> |r.rest| > 0 && r.rest[0] in {'/', ' '} && |r.value| == NSQUARES
    decreases |s|
  {
    if |s| == 0 then Undefined   // the terminator is neither '/' nor ' ': the loop runs on past it
    else if s[0] == '/' then Read(s, board)
    else if IsDigit08(s[0]) then ScanRank(s[1..], rank, file + DigitValue(s[0]), board)
    else if s[0] == ' ' then Read(s, board)
    else if IsPieceChar(s[0]) then
      if rank * 8 + file >= NSQUARES then Undefined   // a write past the end of pos->pieces
      else ScanRank(s[1..], rank, file + 1, board[rank * 8 + file := CharToPiece(s[0])])
    else ScanRank(s[1..], rank, file, board)
  }

  /** The outer loop: ranks 8 down to 1, each followed by one character the pointer steps over. */
  function ScanPlacement(s: string, rank: int, board: seq<Cell>): (r: Parse<seq<Cell>>)
    requires |board| == NSQUARES && -1 <= rank < 8
    ensures r.Read? ==> |r.value| == NSQUARES
    decreases rank, |board|
  {
    if rank < 0 then Read(s, board)
    else
      match ScanRank(s, rank, 0, board)
      case Read(t, b) => ScanPlacement(t[1..], rank - 1, b)
      case Rejected => Rejected
      case Undefined => Undefined
  }

  /** The characters fen_build_string writes for the squares file..7 of a rank, with `empty` empty squares pending. */
  function RankChars(p: seq<Cell>, rank: int, file: int, empty: int): (r: string)
    requires |p| == NSQUARES && 0 <= rank < 8 && 0 <= empty <= file <= 8
    decreases 8 - file, |p|
  {
    if file == 8 then (if empty > 0 then [DigitChar(empty)] else [])
    else if p[rank * 8 + file] != NO_PIECE then
      (if empty > 0 then [DigitChar(empty)] else []) + [PieceChar(p[rank * 8 + file])] + RankChars(p, rank, file + 1, 0)
    else RankChars(p, rank, file + 1, empty + 1)
  }

  /** The placement field from a rank down to rank 1, the ranks separated by '/'. */
  function RanksFrom(p: seq<Cell>, rank: int): string
    requires |p| == NSQUARES && 0 <= rank < 8
    decreases rank, |p|
  {
    RankChars(p, rank, 0, 0) + (if rank > 0 then ['/'] + RanksFrom(p, rank - 1) else [])
  }

  function PlacementString(p: seq<Cell>): string
    requires |p| == NSQUARES
  {
    RanksFrom(p, 7)
  }

  /** A rank written by fen_build_string holds only digits 1..8 and piece letters: never '/' or ' '. */
  lemma {:induction false} RankCharsAlphabet(p: seq<Cell>, rank: int, file: int, empty: int)
    requires |p| == NSQUARES && 0 <= rank < 8 && 0 <= empty <= file <= 8
    ensures forall c | c in RankChars(p, rank, file, empty) :: IsPieceChar(c) || '1' <= c <= '8'
    decreases 8 - file
  {
    if file < 8 {
      if p[rank * 8 + file] != NO_PIECE {
        RankCharsAlphabet(p, rank, file + 1, 0);
      } else {
        RankCharsAlphabet(p, rank, file + 1, empty + 1);
      }
    }
  }

  /** The board with the squares of one rank from p and every other square unchanged. */
  predicate RankCopied(before: seq<Cell>, after: seq<Cell>, p: seq<Cell>, rank: int)
    requires |before| == |after| == |p| == NSQUARES && 0 <= rank < 8
  {
    forall sq :: 0 <= sq < NSQUARES ==> after[sq] == if rank * 8 <= sq < rank * 8 + 8 then p[sq] else before[sq]
  }

  /**
   * Reading back the characters of a rank, starting `empty` files behind
   * (the empty squares still pending), onto a board whose squares from that
   * file on are empty: the rank is copied from p and nothing else changes.
   */
  lemma {:induction false} RankRoundTrip(p: seq<Cell>, rank: int, file: int, empty: int, board: seq<Cell>, rest: string)
    requires |p| == |board| == NSQUARES && 0 <= rank < 8 && 0 <= empty <= file <= 8
    requires forall sq :: rank * 8 + file - empty <= sq < rank * 8 + file ==> p[sq] == NO_PIECE
    requires forall sq :: rank * 8 <= sq < rank * 8 + 8 ==> board[sq] == if sq < rank * 8 + file then p[sq] else NO_PIECE
    requires |rest| > 0 && rest[0] in {'/', ' '}
    ensures var r := ScanRank(RankChars(p, rank, file, empty) + rest, rank, file - empty, board);
      r.Read? && r.rest == rest && RankCopied(board, r.value, p, rank)
    decreases 8 - file
  {
    if file == 8 {
      RankEnd(p, rank, empty, board, rest);
    } else if p[rank * 8 + file] != NO_PIECE {
      var board' := board[rank * 8 + file := p[rank * 8 + file]];
      RankRoundTrip(p, rank, file + 1, 0, board', rest);
      RankPiece(p, rank, file, empty, board, rest);
    } else {
      RankRoundTrip(p, rank, file + 1, empty + 1, board, rest);
    }
  }

  /** A digit advances the file. */
  lemma ScanDigit(d: int, t: string, rank: int, file: int, board: seq<Cell>)
    requires |board| == NSQUARES && 0 <= rank < 8 && 0 <= file && 1 <= d <= 8
    ensures ScanRank([DigitChar(d)] + t, rank, file, board) == ScanRank(t, rank, file + d, board)
  {
    assert ([DigitChar(d)] + t)[1..] == t;
  }

  /** A piece letter is stored on the current square and advances the file. */
  lemma ScanPiece(piece: Cell, t: string, rank: int, file: int, board: seq<Cell>)
    requires |board| == NSQUARES && 0 <= rank < 8 && 0 <= file < 8 && piece != NO_PIECE
    ensures ScanRank([PieceChar(piece)] + t, rank, file, board) == ScanRank(t, rank, file + 1, board[rank * 8 + file := piece])
  {
    assert ([PieceChar(piece)] + t)[1..] == t;
  }

  /** The end of a rank: the pending digit, if any, then the separator. */
  lemma RankEnd(p: seq<Cell>, rank: int, empty: int, board: seq<Cell>, rest: string)
    requires |p| == |board| == NSQUARES && 0 <= rank < 8 && 0 <= empty <= 8
    requires forall sq :: rank * 8 + 8 - empty <= sq < rank * 8 + 8 ==> p[sq] == NO_PIECE
    requires forall sq :: rank * 8 <= sq < rank * 8 + 8 ==> board[sq] == p[sq]
    requires |rest| > 0 && rest[0] in {'/', ' '}
    ensures var r := ScanRank(RankChars(p, rank, 8, empty) + rest, rank, 8 - empty, board);
      r.Read? && r.rest == rest && RankCopied(board, r.value, p, rank)
  {
    if empty > 0 {
      ScanDigit(empty, rest, rank, 8 - empty, board);
      assert RankChars(p, rank, 8, empty) + rest == [DigitChar(empty)] + rest;
    } else {
      assert RankChars(p, rank, 8, empty) + rest == rest;
    }
  }

  /** A piece after `empty` empty squares: the digit and the letter bring the scan to the next file. */
  lemma RankPiece(p: seq<Cell>, rank: int, file: int, empty: int, board: seq<Cell>, rest: string)
    requires |p| == |board| == NSQUARES && 0 <= rank < 8 && 0 <= empty <= file < 8
    requires p[rank * 8 + file] != NO_PIECE
    ensures ScanRank(RankChars(p, rank, file, empty) + rest, rank, file - empty, board)
         == ScanRank(RankChars(p, rank, file + 1, 0) + rest, rank, file + 1, board[rank * 8 + file := p[rank * 8 + file]])
  {
    if empty > 0 {
      PieceAfterGap(p, rank, file, empty, board, rest);
    }
    PieceNoGap(p, rank, file, board, rest);
  }

  /** The digit for the empty squares before a piece brings the scan to the piece's file. */
  lemma PieceAfterGap(p: seq<Cell>, rank: int, file: int, empty: int, board: seq<Cell>, rest: string)
    requires |p| == |board| == NSQUARES && 0 <= rank < 8 && 0 < empty <= file < 8
    requires p[rank * 8 + file] != NO_PIECE
    ensures ScanRank(RankChars(p, rank, file, empty) + rest, rank, file - empty, board)
         == ScanRank(RankChars(p, rank, file, 0) + rest, rank, file, board)
  {
    var d, piece, after := [DigitChar(empty)], [PieceChar(p[rank * 8 + file])], RankChars(p, rank, file + 1, 0);
    RankCharsPiece(p, rank, file, empty);
    RankCharsPiece(p, rank, file, 0);
    Assoc(d, piece + after, rest);
    ScanDigit(empty, RankChars(p, rank, file, 0) + rest, rank, file - empty, board);
  }

  /** The piece letter itself. */
  lemma PieceNoGap(p: seq<Cell>, rank: int, file: int, board: seq<Cell>, rest: string)
    requires |p| == |board| == NSQUARES && 0 <= rank < 8 && 0 <= file < 8
    requires p[rank * 8 + file] != NO_PIECE
    ensures ScanRank(RankChars(p, rank, file, 0) + rest, rank, file, board)
         == ScanRank(RankChars(p, rank, file + 1, 0) + rest, rank, file + 1, board[rank * 8 + file := p[rank * 8 + file]])
  {
    var piece, after := [PieceChar(p[rank * 8 + file])], RankChars(p, rank, file + 1, 0);
    RankCharsPiece(p, rank, file, 0);
    Assoc(piece, after, rest);
    ScanPiece(p[rank * 8 + file], after + rest, rank, file, board);
  }

  /** A piece square of a rank: the digit for the pending empty squares, if any, the letter, then the files after it. */
  lemma RankCharsPiece(p: seq<Cell>, rank: int, file: int, empty: int)
    requires |p| == NSQUARES && 0 <= rank < 8 && 0 <= empty <= file < 8
    requires p[rank * 8 + file] != NO_PIECE
    ensures empty > 0 ==>
      RankChars(p, rank, file, empty) == [DigitChar(empty)] + ([PieceChar(p[rank * 8 + file])] + RankChars(p, rank, file + 1, 0))
    ensures empty == 0 ==> RankChars(p, rank, file, empty) == [PieceChar(p[rank * 8 + file])] + RankChars(p, rank, file + 1, 0)
  {
    var piece, after := [PieceChar(p[rank * 8 + file])], RankChars(p, rank, file + 1, 0);
    if empty > 0 {
      Assoc([DigitChar(empty)], piece, after);
    } else {
      assert [] + piece == piece;
    }
  }

  lemma Assoc(a: string, b: string, c: string)
    ensures a + b + c == a + (b + c)
  {
  }

  /** The empty board. */
  function EmptyBoard(): (b: seq<Cell>)
    ensures |b| == NSQUARES && forall sq :: 0 <= sq < NSQUARES ==> b[sq] == NO_PIECE
  {
    seq(NSQUARES, _ => NO_PIECE)
  }

  /** The ranks above `rank` are copied from p and the rest of the board is empty. */
  predicate FilledAbove(board: seq<Cell>, p: seq<Cell>, rank: int)
    requires |board| == |p| == NSQUARES
  {
    forall sq :: 0 <= sq < NSQUARES ==> board[sq] == if sq >= rank * 8 + 8 then p[sq] else NO_PIECE
  }

  /** Copying one more rank extends the filled ranks by one; the last one completes the board. */
  lemma FilledAboveStep(board: seq<Cell>, b': seq<Cell>, p: seq<Cell>, rank: int)
    requires |board| == |b'| == |p| == NSQUARES && 0 <= rank < 8
    requires FilledAbove(board, p, rank) && RankCopied(board, b', p, rank)
    ensures FilledAbove(b', p, rank - 1)
    ensures rank == 0 ==> b' == p
  {
    if rank == 0 {
      assert forall sq :: 0 <= sq < NSQUARES ==> b'[sq] == p[sq];
    }
  }

  /**
   * The placement field fen_build_string writes is read back by
   * fen_setup_board onto an empty board as the same piece array, and the
   * pointer is left after the space that ends the field.
   */
  lemma {:induction false} RanksRoundTrip(p: seq<Cell>, rank: int, board: seq<Cell>, rest: string)
    requires |p| == |board| == NSQUARES && 0 <= rank < 8 && FilledAbove(board, p, rank)
    ensures ScanPlacement(RanksFrom(p, rank) + [' '] + rest, rank, board) == Read(rest, p)
    decreases rank
  {
    var row := RankChars(p, rank, 0, 0);
    var tail := if rank > 0 then RanksFrom(p, rank - 1) + [' '] + rest else rest;
    var t := (if rank > 0 then ['/'] else [' ']) + tail;
    RanksSplit(p, rank, rest, row, tail, t);
    RankRoundTrip(p, rank, 0, 0, board, t);
    var b' := ScanRank(row + t, rank, 0, board).value;
    PlacementStep(row + t, rank, board, t, b');
    FilledAboveStep(board, b', p, rank);
    if rank > 0 {
      RanksRoundTrip(p, rank - 1, b', rest);
    }
  }

  /** The field is the rank's characters, the separator after it and the rest. */
  lemma RanksSplit(p: seq<Cell>, rank: int, rest: string, row: string, tail: string, t: string)
    requires |p| == NSQUARES && 0 <= rank < 8
    requires row == RankChars(p, rank, 0, 0)
    requires tail == if rank > 0 then RanksFrom(p, rank - 1) + [' '] + rest else rest
    requires t == (if rank > 0 then ['/'] else [' ']) + tail
    ensures RanksFrom(p, rank) + [' '] + rest == row + t && t[1..] == tail && |t| > 0 && t[0] in {'/', ' '}
  {
  }

  /** One rank of the outer loop. */
  lemma PlacementStep(s: string, rank: int, board: seq<Cell>, t: string, b': seq<Cell>)
    requires |board| == NSQUARES && 0 <= rank < 8
    requires ScanRank(s, rank, 0, board) == Read(t, b')
    ensures |t| > 0 && ScanPlacement(s, rank, board) == ScanPlacement(t[1..], rank - 1, b')
  {
  }

  /** The whole placement field round-trips from the empty board fen_setup_board starts from. */
  lemma PlacementRoundTrip(p: seq<Cell>, rest: string)
    requires |p| == NSQUARES
    ensures ScanPlacement(PlacementString(p) + [' '] + rest, 7, EmptyBoard()) == Read(rest, p)
  {
    RanksRoundTrip(p, 7, EmptyBoard(), rest);
  }

  // ---- the castling field ---------------------------------------------------------

  /** The castling flags and the rook squares castle_wk, castle_wq, castle_bk, castle_bq. */
  datatype Castling = Castling(castle: int, rooks: P.RookSquares)

  /** The cleared field: no flags, every rook square NO_SQUARE. */
  const NO_CASTLING: Castling := Castling(0, P.RookSquares(NO_SQUARE, NO_SQUARE, NO_SQUARE, NO_SQUARE))

  predicate IsFlag(g: int)
  {
    g == WHITE_KINGSIDE || g == WHITE_QUEENSIDE || g == BLACK_KINGSIDE || g == BLACK_QUEENSIDE
  }

  /** castle |= flag. */
  function SetFlag(castle: int, flag: int): (r: int)
    requires 0 <= castle < 16 && IsFlag(flag)
    ensures 0 <= r < 16
  {
    if HasFlag(castle, flag) then castle else castle + flag
  }

  /** Setting a flag sets that flag and leaves the other three as they were. */
  lemma SetFlagBits(castle: int, flag: int, g: int)
    requires 0 <= castle < 16 && IsFlag(flag) && IsFlag(g)
    ensures HasFlag(SetFlag(castle, flag), g) <==> HasFlag(castle, g) || g == flag
  {
    B.FlagSum(castle);
    if flag == 1 {
    } else if flag == 2 {
    } else if flag == 4 {
    } else {
    }
  }

  /** A castling right with its rook square. */
  function AddRight(st: Castling, flag: int, rook: int): (r: Castling)
    requires 0 <= st.castle < 16 && IsFlag(flag)
    ensures 0 <= r.castle < 16
  {
    var rs := st.rooks;
    Castling(SetFlag(st.castle, flag),
      if flag == WHITE_KINGSIDE then rs.(wk := rook)
      else if flag == WHITE_QUEENSIDE then rs.(wq := rook)
      else if flag == BLACK_KINGSIDE then rs.(bk := rook)
      else rs.(bq := rook))
  }

  /** Square k of outer_rook's scan for a flag: from the flag's corner toward the other corner. */
  function RookPath(flag: int, k: int): Square
    requires IsFlag(flag) && 0 <= k < 7
  {
    if flag == WHITE_KINGSIDE then H1 - k
    else if flag == WHITE_QUEENSIDE then A1 + k
    else if flag == BLACK_KINGSIDE then H8 - k
    else A8 + k
  }

  /** The rook outer_rook looks for and the king that stops it. */
  function RookOf(flag: int): Cell
    requires IsFlag(flag)
  {
    if flag == WHITE_KINGSIDE || flag == WHITE_QUEENSIDE then WHITE_ROOK else BLACK_ROOK
  }

  function KingOf(flag: int): Cell
    requires IsFlag(flag)
  {
    if flag == WHITE_KINGSIDE || flag == WHITE_QUEENSIDE then WHITE_KING else BLACK_KING
  }

  /** outer_rook from step k of its scan: the first rook of the flag's colour before a king of that colour. */
  function RookScan(pieces: seq<Cell>, flag: int, k: int): (r: int)
    requires |pieces| == NSQUARES && IsFlag(flag) && 0 <= k <= 7
    decreases 7 - k, |pieces|
  {
    if k == 7 then NO_SQUARE
    else if pieces[RookPath(flag, k)] == RookOf(flag) then RookPath(flag, k)
    else if pieces[RookPath(flag, k)] == KingOf(flag) then NO_SQUARE
    else RookScan(pieces, flag, k + 1)
  }

  /**
   * outer_rook finds the rook of the flag's colour nearest the flag's corner
   * (the corner itself first), provided no king of that colour comes before
   * it; the last square of the rank is never looked at.
   */
  lemma {:induction false} RookScanSpec(pieces: seq<Cell>, flag: int, k: int)
    requires |pieces| == NSQUARES && IsFlag(flag) && 0 <= k <= 7
    ensures var r := RookScan(pieces, flag, k);
      r == NO_SQUARE ||
      exists j :: k <= j < 7 && r == RookPath(flag, j) && pieces[r] == RookOf(flag) &&
        forall i :: k <= i < j ==> pieces[RookPath(flag, i)] != RookOf(flag) && pieces[RookPath(flag, i)] != KingOf(flag)
    ensures var r := RookScan(pieces, flag, k);
      r == NO_SQUARE ==> forall j :: k <= j < 7 && pieces[RookPath(flag, j)] == RookOf(flag) ==>
        exists i :: k <= i < j && pieces[RookPath(flag, i)] == KingOf(flag)
    decreases 7 - k
  {
    if k < 7 && pieces[RookPath(flag, k)] != RookOf(flag) && pieces[RookPath(flag, k)] != KingOf(flag) {
      RookScanSpec(pieces, flag, k + 1);
      var r := RookScan(pieces, flag, k + 1);
      if r != NO_SQUARE {
        var j :| k + 1 <= j < 7 && r == RookPath(flag, j) && pieces[r] == RookOf(flag) &&
          forall i :: k + 1 <= i < j ==> pieces[RookPath(flag, i)] != RookOf(flag) && pieces[RookPath(flag, i)] != KingOf(flag);
        assert k <= j < 7;
      }
    } else if k < 7 && pieces[RookPath(flag, k)] == KingOf(flag) {
      forall j | k <= j < 7 && pieces[RookPath(flag, j)] == RookOf(flag)
        ensures exists i :: k <= i < j && pieces[RookPath(flag, i)] == KingOf(flag)
      {
        assert RookOf(flag) != KingOf(flag);
        assert j != k;
        assert k <= k < j && pieces[RookPath(flag, k)] == KingOf(flag);
      }
    }
  }

  /** LSB(bb_pieces[piece]): the lowest square from sq on holding the piece, NO_SQUARE when none does. */
  function LowestSquareOf(pieces: seq<Cell>, piece: Cell, sq: int): (r: int)
    requires |pieces| == NSQUARES && 0 <= sq <= NSQUARES
    ensures r == NO_SQUARE || (sq <= r < NSQUARES && pieces[r] == piece)
    ensures forall q :: sq <= q < NSQUARES && q < r ==> pieces[q] != piece
    decreases NSQUARES - sq, |pieces|
  {
    if sq == NSQUARES then NO_SQUARE
    else if pieces[sq] == piece then sq
    else LowestSquareOf(pieces, piece, sq + 1)
  }

  /**
   * set_castle_from_file (Chess960 notation): the letter names the rook's
   * file on the side's back rank; the side of the king it stands on decides
   * the right.  LSB of the empty bitboard, with no king on the board, is
   * outside bitscan_forward's contract: Undefined.
   */
  function FileRight(c: char, st: Castling, pieces: seq<Cell>): (r: Parse<Castling>)
    requires |pieces| == NSQUARES && 0 <= st.castle < 16
    requires 'A' <= c <= 'H' || 'a' <= c <= 'h'
    ensures r.Read? ==> 0 <= r.value.castle < 16
  {
    var white := 'A' <= c <= 'H';
    var rook := if white then c as int - 'A' as int else A8 + (c as int - 'a' as int);
    var king := LowestSquareOf(pieces, if white then WHITE_KING else BLACK_KING, 0);
    if king == NO_SQUARE then Undefined
    else if king < rook then Read([], AddRight(st, if white then WHITE_KINGSIDE else BLACK_KINGSIDE, rook))
    else if king > rook then Read([], AddRight(st, if white then WHITE_QUEENSIDE else BLACK_QUEENSIDE, rook))
    else Read([], st)
  }

  /** The letters the castling field accepts, besides '-' and the closing ' '. */
  predicate IsCastlingChar(c: char)
  {
    c in {'K', 'Q', 'k', 'q'} || 'A' <= c <= 'H' || 'a' <= c <= 'h'
  }

  /** One character of the castling loop: a flag letter with outer_rook, or a Chess960 file. */
  function CastlingChar(c: char, st: Castling, pieces: seq<Cell>): (r: Parse<Castling>)
    requires |pieces| == NSQUARES && 0 <= st.castle < 16
    ensures r.Read? ==> 0 <= r.value.castle < 16
    ensures r == Rejected <==> !IsCastlingChar(c)
  {
    if c == 'K' then Read([], AddRight(st, WHITE_KINGSIDE, RookScan(pieces, WHITE_KINGSIDE, 0)))
    else if c == 'Q' then Read([], AddRight(st, WHITE_QUEENSIDE, RookScan(pieces, WHITE_QUEENSIDE, 0)))
    else if c == 'k' then Read([], AddRight(st, BLACK_KINGSIDE, RookScan(pieces, BLACK_KINGSIDE, 0)))
    else if c == 'q' then Read([], AddRight(st, BLACK_QUEENSIDE, RookScan(pieces, BLACK_QUEENSIDE, 0)))
    else if 'A' <= c <= 'H' || 'a' <= c <= 'h' then FileRight(c, st, pieces)
    else Rejected
  }

  /** The castling loop from its k-th character: at most four letters, ended by '-' (consumed) or ' '. */
  function CastlingChars(s: string, k: int, st: Castling, pieces: seq<Cell>): (r: Parse<Castling>)
    requires |pieces| == NSQUARES && 0 <= k <= 4 && 0 <= st.castle < 16
    ensures r.Read? ==> 0 <= r.value.castle < 16 && |r.rest| <= |s|
    decreases 4 - k, |pieces|
  {
    if k == 4 then Read(s, st)
    else if At(s) == '-' then Read(s[1..], st)
    else if At(s) == ' ' then Read(s, st)
    else if |s| == 0 then Rejected   // the terminator falls to the default case
    else
      match CastlingChar(s[0], st, pieces)
      case Read(_, st') => CastlingChars(s[1..], k + 1, st', pieces)
      case Rejected => Rejected
      case Undefined => Undefined
  }

  /** The castling field: the loop, then a ' ' that the pointer steps over. */
  function CastlingField(s: string, pieces: seq<Cell>): (r: Parse<Castling>)
    requires |pieces| == NSQUARES
    ensures r.Read? ==> 0 <= r.value.castle < 16
  {
    match CastlingChars(s, 0, NO_CASTLING, pieces)
    case Read(t, st) =>
      if At(t) != ' ' then Rejected
      else if st.castle < 0 || st.castle > 15 then Rejected
      else Read(t[1..], st)
    case Rejected => Rejected
    case Undefined => Undefined
  }

  /**
   * An accepted castling field is flag or file letters, possibly followed
   * by a '-' that ends the loop early (so "-" alone, and also "K-"), and the
   * pointer is left on what follows.
   */
  lemma {:induction false} CastlingCharsShape(s: string, k: int, st: Castling, pieces: seq<Cell>)
    requires |pieces| == NSQUARES && 0 <= k <= 4 && 0 <= st.castle < 16
    ensures var r := CastlingChars(s, k, st, pieces);
      r.Read? ==> (|r.rest| <= |s| && r.rest == s[|s| - |r.rest|..] &&
        forall i :: 0 <= i < |s| - |r.rest| ==> IsCastlingChar(s[i]) || (s[i] == '-' && i == |s| - |r.rest| - 1))
    decreases 4 - k
  {
    var r := CastlingChars(s, k, st, pieces);
    if k < 4 && At(s) != '-' && At(s) != ' ' && |s| > 0 && CastlingChar(s[0], st, pieces).Read? {
      var st' := CastlingChar(s[0], st, pieces).value;
      CastlingCharsShape(s[1..], k + 1, st', pieces);
      if r.Read? {
        var t := s[1..];
        assert r == CastlingChars(t, k + 1, st', pieces);
        assert r.rest == t[|t| - |r.rest|..];
        assert s[|s| - |r.rest|..] == t[|t| - |r.rest|..];
        assert forall i :: 1 <= i < |s| - |r.rest| ==> s[i] == t[i - 1];
      }
    }
  }

  /** The castling letters fen_build_string writes: '-' when there are none, else K, Q, k, q in that order. */
  function CastlingString(castle: int): string
    requires 0 <= castle < 16
  {
    if castle == 0 then "-"
    else (if HasFlag(castle, WHITE_KINGSIDE) then "K" else "") + (if HasFlag(castle, WHITE_QUEENSIDE) then "Q" else "") +
         (if HasFlag(castle, BLACK_KINGSIDE) then "k" else "") + (if HasFlag(castle, BLACK_QUEENSIDE) then "q" else "")
  }

  /** A letter that is present in the field is one step of the loop; an absent one is no step. */
  lemma CastlingPart(present: bool, c: char, flag: int, t: string, k: int, st: Castling, pieces: seq<Cell>)
    requires |pieces| == NSQUARES && 0 <= st.castle < 16 && IsFlag(flag) && 0 <= k <= 4
    requires present ==> k < 4
    requires c == (if flag == WHITE_KINGSIDE then 'K' else if flag == WHITE_QUEENSIDE then 'Q' else if flag == BLACK_KINGSIDE then 'k' else 'q')
    ensures CastlingChars((if present then [c] else []) + t, k, st, pieces)
         == CastlingChars(t, if present then k + 1 else k, if present then AddRight(st, flag, RookScan(pieces, flag, 0)) else st, pieces)
  {
    if present {
      assert ([c] + t)[1..] == t;
    } else {
      assert [] + t == t;
    }
  }

  /** The letters of CastlingString for the flags that are set, in the order K, Q, k, q. */
  function Letters(b1: bool, b2: bool, b4: bool, b8: bool): string
  {
    (if b1 then "K" else "") + (if b2 then "Q" else "") + (if b4 then "k" else "") + (if b8 then "q" else "")
  }

  /** What the castling loop makes of those letters: each present flag added in turn with its outer rook. */
  function LettersRead(b1: bool, b2: bool, b4: bool, b8: bool, pieces: seq<Cell>): (r: Castling)
    requires |pieces| == NSQUARES
    ensures 0 <= r.castle < 16
  {
    var s1 := if b1 then AddRight(NO_CASTLING, 1, RookScan(pieces, 1, 0)) else NO_CASTLING;
    var s2 := if b2 then AddRight(s1, 2, RookScan(pieces, 2, 0)) else s1;
    var s4 := if b4 then AddRight(s2, 4, RookScan(pieces, 4, 0)) else s2;
    if b8 then AddRight(s4, 8, RookScan(pieces, 8, 0)) else s4
  }

  /** The black letters, read from step k with state st. */
  lemma BlackLetters(b4: bool, b8: bool, k: int, st: Castling, pieces: seq<Cell>, rest: string)
    requires |pieces| == NSQUARES && 0 <= k <= 2 && 0 <= st.castle < 16
    ensures CastlingChars(Letters(false, false, b4, b8) + " " + rest, k, st, pieces)
         == Read(" " + rest, var s4 := if b4 then AddRight(st, 4, RookScan(pieces, 4, 0)) else st;
                             if b8 then AddRight(s4, 8, RookScan(pieces, 8, 0)) else s4)
  {
    var p4: string, p8: string := (if b4 then ['k'] else []), (if b8 then ['q'] else []);
    var t8 := p8 + (" " + rest);
    assert Letters(false, false, b4, b8) + " " + rest == p4 + t8;
    var s4 := if b4 then AddRight(st, 4, RookScan(pieces, 4, 0)) else st;
    CastlingPart(b4, 'k', 4, t8, k, st, pieces);
    CastlingPart(b8, 'q', 8, " " + rest, if b4 then k + 1 else k, s4, pieces);
  }

  /** The loop reads the letters one by one and stops on the space after them. */
  lemma LettersLoop(b1: bool, b2: bool, b4: bool, b8: bool, pieces: seq<Cell>, rest: string)
    requires |pieces| == NSQUARES
    ensures CastlingChars(Letters(b1, b2, b4, b8) + " " + rest, 0, NO_CASTLING, pieces)
         == Read(" " + rest, LettersRead(b1, b2, b4, b8, pieces))
  {
    var p1: string, p2: string := (if b1 then ['K'] else []), (if b2 then ['Q'] else []);
    var t4 := Letters(false, false, b4, b8) + " " + rest;
    var t2 := p2 + t4;
    assert Letters(b1, b2, b4, b8) + " " + rest == p1 + t2;
    var k1 := if b1 then 1 else 0;
    var s1 := if b1 then AddRight(NO_CASTLING, 1, RookScan(pieces, 1, 0)) else NO_CASTLING;
    CastlingPart(b1, 'K', 1, t2, 0, NO_CASTLING, pieces);
    var s2 := if b2 then AddRight(s1, 2, RookScan(pieces, 2, 0)) else s1;
    CastlingPart(b2, 'Q', 2, t4, k1, s1, pieces);
    BlackLetters(b4, b8, if b2 then k1 + 1 else k1, s2, pieces, rest);
  }

  /** Adding the present flags in increasing order gives their sum. */
  lemma LettersCastle(b1: bool, b2: bool, b4: bool, b8: bool, pieces: seq<Cell>)
    requires |pieces| == NSQUARES
    ensures LettersRead(b1, b2, b4, b8, pieces).castle
         == (if b1 then 1 else 0) + (if b2 then 2 else 0) + (if b4 then 4 else 0) + (if b8 then 8 else 0)
  {
  }

  /** The flag letters fen_build_string writes are read back as the same four flags. */
  lemma CastlingRoundTrip(castle: int, pieces: seq<Cell>, rest: string)
    requires 0 <= castle < 16 && |pieces| == NSQUARES
    ensures var r := CastlingField(CastlingString(castle) + " " + rest, pieces);
      r.Read? && r.rest == rest && r.value.castle == castle
  {
    if castle == 0 {
      assert (CastlingString(castle) + " " + rest)[1..] == " " + rest;
    } else {
      var b1, b2, b4, b8 := HasFlag(castle, 1), HasFlag(castle, 2), HasFlag(castle, 4), HasFlag(castle, 8);
      assert CastlingString(castle) == Letters(b1, b2, b4, b8);
      LettersLoop(b1, b2, b4, b8, pieces, rest);
      LettersCastle(b1, b2, b4, b8, pieces);
      B.FlagSum(castle);
      assert (" " + rest)[1..] == rest;
    }
  }

  // ---- the side to move and en-passant fields ----------------------------------------

  /** The active colour: 'w' or 'b', then the space the pointer steps over. */
  function SideField(s: string): (r: Parse<Side>)
  {
    if At(s) != 'w' && At(s) != 'b' then Rejected
    else if At(s[1..]) != ' ' then Rejected
    else Read(s[2..], if s[0] == 'w' then WHITE else BLACK)
  }

  /** Any other character in the side field is rejected. */
  lemma SideFieldSpec(s: string)
    ensures SideField(s).Read? ==> |s| >= 2 && s[1] == ' ' && (s[0] == 'w' || s[0] == 'b')
    ensures SideField(s).Read? ==> (SideField(s).value == WHITE <==> s[0] == 'w')
  {
  }

  /**
   * The en-passant field: '-' for none, otherwise a file letter and a rank
   * digit taken as SQUARE(file, rank) without a range check; it must be
   * followed by ' ' or the end.  With fewer than two characters left the
   * pointer steps past the terminator: Undefined.
   */
  function EpField(s: string): (r: Parse<int>)
  {
    if At(s) == '-' then EpEnd(s[1..], NO_SQUARE)
    else if |s| < 2 then Undefined
    else EpEnd(s[2..], (s[1] as int - '1' as int) * 8 + (s[0] as int - 'a' as int))
  }

  function EpEnd(t: string, ep: int): Parse<int>
  {
    if At(t) != ' ' && At(t) != '\0' then Rejected else Read(t, ep)
  }

  /** '-' gives NO_SQUARE. */
  lemma EpDash(s: string)
    requires At(s) == '-'
    ensures EpField(s).Read? ==> EpField(s).value == NO_SQUARE && EpField(s).rest == s[1..]
  {
  }

  /** The en-passant field fen_build_string writes: '-' or the file letter and rank digit. */
  function EpString(ep: int): string
    requires 0 <= ep <= NO_SQUARE
  {
    if ep == NO_SQUARE then "-" else [('a' as int + FileNr(ep)) as char, ('1' as int + RankNr(ep)) as char]
  }

  lemma EpRoundTrip(ep: int, rest: string)
    requires 0 <= ep <= NO_SQUARE
    ensures EpField(EpString(ep) + " " + rest) == Read(" " + rest, ep)
  {
    var s := EpString(ep) + " " + rest;
    if ep == NO_SQUARE {
      assert s[1..] == " " + rest;
    } else {
      assert s[2..] == " " + rest;
    }
  }

  // ---- the halfmove and fullmove fields ------------------------------------------------

  /** The number of leading digits. */
  function DigitRun(s: string): (n: nat)
    ensures n <= |s| && (forall i :: 0 <= i < n ==> IsDigit09(s[i])) && (n < |s| ==> !IsDigit09(s[n]))
    decreases |s|
  {
    if |s| > 0 && IsDigit09(s[0]) then 1 + DigitRun(s[1..]) else 0
  }

  /** The number of leading white-space characters, as isspace counts them. */
  function SpaceRun(s: string): (n: nat)
    ensures n <= |s| && (forall i :: 0 <= i < n ==> U.IsSpace(s[i])) && (n < |s| ==> !U.IsSpace(s[n]))
    decreases |s|
  {
    if |s| > 0 && U.IsSpace(s[0]) then 1 + SpaceRun(s[1..]) else 0
  }

  /** The value of a run of decimal digits. */
  function DigitsValue(ds: string): nat
    requires forall i :: 0 <= i < |ds| ==> IsDigit09(ds[i])
    decreases |ds|
  {
    if |ds| == 0 then 0 else DigitsValue(ds[..|ds| - 1]) * 10 + DigitValue(ds[|ds| - 1])
  }

  /** sprintf("%d") of a non-negative value: its digits, most significant first. */
  function Digits(n: nat): (r: string)
    ensures |r| > 0 && forall i :: 0 <= i < |r| ==> IsDigit09(r[i])
    decreases n
  {
    if n < 10 then [DigitChar(n)] else Digits(n / 10) + [DigitChar(n % 10)]
  }

  /** sprintf("%d"). */
  function Decimal(n: int): string
  {
    if n < 0 then "-" + Digits(-n) else Digits(n)
  }

  lemma {:induction false} DigitsRoundTrip(n: nat)
    ensures DigitsValue(Digits(n)) == n
    decreases n
  {
    if n >= 10 {
      DigitsRoundTrip(n / 10);
      var ds := Digits(n);
      assert ds[..|ds| - 1] == Digits(n / 10);
    }
  }

  /** The digit run of a number followed by a non-digit is exactly its digits. */
  lemma {:induction false} DigitRunOf(ds: string, rest: string)
    requires forall i :: 0 <= i < |ds| ==> IsDigit09(ds[i])
    requires |rest| == 0 || !IsDigit09(rest[0])
    ensures DigitRun(ds + rest) == |ds|
    decreases |ds|
  {
    if |ds| > 0 {
      assert (ds + rest)[1..] == ds[1..] + rest;
      DigitRunOf(ds[1..], rest);
    } else {
      assert ds + rest == rest;
    }
  }

  /** sscanf(s, "%d", &v) == 1: leading white space, an optional sign and at least one digit; the value read. */
  function ScanInt(s: string): Option<int>
  {
    var t := s[SpaceRun(s)..];
    var u := if At(t) == '-' || At(t) == '+' then t[1..] else t;
    var n := DigitRun(u);
    if n == 0 then None
    else if At(t) == '-' then Some(0 - DigitsValue(u[..n]))
    else Some(DigitsValue(u[..n]))
  }

  /** A counter field: the value sscanf reads and what is left once the pointer has stepped over the digits where it stood. */
  function IntField(v: string): Parse<int>
  {
    match ScanInt(v)
    case None => Rejected
    case Some(n) => Read(v[DigitRun(v)..], n)
  }

  /** sscanf reads back the digits sprintf writes for a non-negative value. */
  lemma ScanDigits(n: nat, rest: string)
    requires |rest| == 0 || !IsDigit09(rest[0])
    ensures IntField(Digits(n) + rest) == Read(rest, n)
  {
    var s := Digits(n) + rest;
    assert s[0] == Digits(n)[0];
    assert SpaceRun(s) == 0;
    assert s[0..] == s;
    DigitRunOf(Digits(n), rest);
    assert s[..|Digits(n)|] == Digits(n);
    assert s[|Digits(n)|..] == rest;
    DigitsRoundTrip(n);
  }

  /**
   * The halfmove and fullmove fields, after skip_whitespace.  If they are
   * absent (an EPD string) the clock is 0 and the move number 1 and the rest
   * is left unread.  Otherwise fen.c:300 steps over one character before
   * sscanf reads the halfmove clock; `skipFirst` says whether to do that.
   * The pointer is then moved over the digits from where it stood, so a
   * one-digit clock followed by the move number is read as the move number.
   */
  function CountersFrom(s: string, skipFirst: bool): (r: Parse<(int, int)>)
  {
    var u := s[SpaceRun(s)..];
    if |u| > 0 && IsDigit09(u[0]) then HalfmoveField(if skipFirst then u[1..] else u)
    else Read(u, (0, 1))
  }

  /** The halfmove clock: a number, then a space; a negative clock is rejected. */
  function HalfmoveField(v: string): Parse<(int, int)>
  {
    var f := IntField(v);
    if f.Rejected? then Rejected
    else if At(f.rest) != ' ' || f.value < 0 then Rejected
    else FullmoveField(f.rest[1..], f.value)
  }

  /** The fullmove number: a number that ends the string. */
  function FullmoveField(x: string, fifty: int): Parse<(int, int)>
  {
    var f := IntField(x);
    if f.Rejected? || At(f.rest) != '\0' then Rejected else Read(f.rest, (fifty, f.value))
  }

  /** The counters as fen.c reads them, with the character skipped before the halfmove clock. */
  function CountersAsWritten(s: string): (r: Parse<(int, int)>)
    ensures r.Read? ==> r.value.0 >= 0
  {
    CountersFrom(s, true)
  }

  /** The counters as evidently intended: the halfmove clock read from its first digit. */
  function Counters(s: string): Parse<(int, int)>
  {
    CountersFrom(s, false)
  }

  /** Without the two counters (an EPD string) the clock is 0 and the move number 1, both ways of reading. */
  lemma CountersAbsent(s: string, skipFirst: bool)
    requires var u := s[SpaceRun(s)..]; |u| == 0 || !IsDigit09(u[0])
    ensures CountersFrom(s, skipFirst) == Read(s[SpaceRun(s)..], (0, 1))
  {
  }

  /** The evidently intended reading of a clock and a move number separated by one space. */
  lemma CountersRead(s: string, fifty: nat, fullmove: nat)
    requires s == " " + Digits(fifty) + " " + Digits(fullmove)
    ensures CountersFrom(s, false) == Read("", (fifty, fullmove))
  {
    var a := Digits(fifty);
    assert s[1..][0] == a[0];
    assert SpaceRun(s) == 1;
    HalfmoveRead(s[1..], fifty, fullmove);
  }

  /** The two counters written as digits are read back from the first digit of the clock. */
  lemma HalfmoveRead(v: string, fifty: nat, fullmove: nat)
    requires v == Digits(fifty) + " " + Digits(fullmove)
    ensures HalfmoveField(v) == Read("", (fifty, fullmove))
  {
    var a, b := Digits(fifty), Digits(fullmove);
    assert v == a + (" " + b);
    ScanDigits(fifty, " " + b);
    assert (" " + b)[1..] == b;
    FullmoveRead(b, fifty, fullmove);
  }

  lemma FullmoveRead(x: string, fifty: int, fullmove: nat)
    requires x == Digits(fullmove)
    ensures FullmoveField(x, fifty) == Read("", (fifty, fullmove))
  {
    assert x == x + "";
    ScanDigits(fullmove, "");
  }

  /** The evidently intended reading gives back the clock and move number fen_build_string writes. */
  lemma CountersRoundTrip(fifty: nat, fullmove: nat)
    ensures Counters(" " + Digits(fifty) + " " + Digits(fullmove)) == Read("", (fifty, fullmove))
  {
    CountersRead(" " + Digits(fifty) + " " + Digits(fullmove), fifty, fullmove);
  }

  /** As written, the first digit of the clock is dropped: the clock is read from the digits after it. */
  lemma CountersAsWrittenDropsDigit(s: string, d: char, fifty: nat, fullmove: nat)
    requires IsDigit09(d)
    requires s == " " + [d] + Digits(fifty) + " " + Digits(fullmove)
    ensures CountersAsWritten(s) == Read("", (fifty, fullmove))
  {
    assert s[1..][0] == d;
    assert SpaceRun(s) == 1;
    HalfmoveRead(s[1..][1..], fifty, fullmove);
  }

  /** As written, a one-digit clock is skipped and sscanf reads the move number in its place. */
  lemma CountersAsWrittenOneDigit(s: string, d: char, fullmove: nat)
    requires IsDigit09(d)
    requires s == " " + [d] + " " + Digits(fullmove)
    ensures CountersAsWritten(s) == Read("", (fullmove, fullmove))
  {
    var b := Digits(fullmove);
    assert s[1..][0] == d;
    assert SpaceRun(s) == 1;
    var v := s[1..][1..];
    assert v == " " + b;
    assert v[1..][0] == b[0];
    assert SpaceRun(v) == 1;
    assert v[1..] == b + "";
    ScanDigits(fullmove, "");
    assert ScanInt(v) == Some(fullmove);
    assert DigitRun(v) == 0;
    assert IntField(v) == Read(v, fullmove as int);
    assert IntField(v[1..]) == Read("", fullmove as int);
  }

  /** The counters "12 40" as fen_build_string writes them: read back as clock 2, move 40, where 12 was meant. */
  lemma HalfmoveLosesFirstDigit(s: string)
    requires s == " 12 40"
    ensures CountersAsWritten(s) == Read("", (2, 40))
  {
    assert Digits(40) == "40";
    assert Digits(2) == "2";
    assert s == " " + ['1'] + Digits(2) + " " + Digits(40);
    CountersAsWrittenDropsDigit(s, '1', 2, 40);
  }

  /** The counters "5 40": read back as clock 40. */
  lemma HalfmoveOneDigitReadsMoveNumber(s: string)
    requires s == " 5 40"
    ensures CountersAsWritten(s) == Read("", (40, 40))
  {
    assert Digits(40) == "40";
    CountersAsWrittenOneDigit(s, '5', 40);
  }

  // ---- the whole string ----------------------------------------------------------------

  /** The fields fen_setup_board fills in, and the key it generates from them. */
  datatype FenPosition = FenPosition(pieces: seq<Cell>, stm: Side, castling: Castling, epSq: int,
                                     fifty: int, fullmove: int, key: bv64)

  /**
   * The range check after the en-passant field.  fen.c:289 tests the castle
   * flags against A1 (`asWritten`); testing the en-passant square is what
   * is evidently meant.
   */
  predicate InRange(castle: int, ep: int, asWritten: bool)
  {
    !((if asWritten then castle else ep) < A1 || ep > NO_SQUARE)
  }

  /**
   * fen_setup_board: the placement over `board` (what pos->pieces held
   * before), the side, the castling field, the en-passant square with its
   * range check, the counters, and key_generate of the result.
   */
  function SetupFrom(z: K.Zobrist, s: string, board: seq<Cell>, asWritten: bool): (r: Parse<FenPosition>)
    requires z.Valid() && |board| == NSQUARES
    ensures r.Read? ==>
      (|r.value.pieces| == NSQUARES && 0 <= r.value.castling.castle < 16 &&
       0 <= r.value.epSq <= NO_SQUARE && r.value.fifty >= 0)
  {
    var r := ScanPlacement(s, 7, board);
    if r.Read? then AfterPlacement(z, r.rest, r.value, asWritten) else if r.Rejected? then Rejected else Undefined
  }

  /** The fields after the placement. */
  function AfterPlacement(z: K.Zobrist, t: string, pieces: seq<Cell>, asWritten: bool): (r: Parse<FenPosition>)
    requires z.Valid() && |pieces| == NSQUARES
  {
    var side := SideField(t);
    if side.Read? then AfterSide(z, side.rest, pieces, side.value, asWritten) else Rejected
  }

  /** The fields after the side to move. */
  function AfterSide(z: K.Zobrist, t: string, pieces: seq<Cell>, stm: Side, asWritten: bool): (r: Parse<FenPosition>)
    requires z.Valid() && |pieces| == NSQUARES
  {
    var c := CastlingField(t, pieces);
    if c.Read? then AfterCastling(z, c.rest, pieces, stm, c.value, asWritten)
    else if c.Rejected? then Rejected else Undefined
  }

  /** The fields after the castling field. */
  function AfterCastling(z: K.Zobrist, t: string, pieces: seq<Cell>, stm: Side, cs: Castling, asWritten: bool): (r: Parse<FenPosition>)
    requires z.Valid() && |pieces| == NSQUARES && 0 <= cs.castle < 16
  {
    var ep := EpField(t);
    if ep.Read? then AfterEp(z, ep.rest, pieces, stm, cs, ep.value, asWritten)
    else if ep.Rejected? then Rejected else Undefined
  }

  /**
   * The range check, the counters and the key.  An en-passant square below
   * the board gets past the check as written; if the counters then read,
   * key_generate indexes ep_values outside the table: Undefined.  Counters
   * that do not read make fen_setup_board return false before that.
   */
  function AfterEp(z: K.Zobrist, t: string, pieces: seq<Cell>, stm: Side, cs: Castling, ep: int, asWritten: bool): (r: Parse<FenPosition>)
    requires z.Valid() && |pieces| == NSQUARES && 0 <= cs.castle < 16
    ensures r.Read? ==> 0 <= r.value.epSq <= NO_SQUARE && r.value.fifty >= 0
    ensures r.Undefined? <==> InRange(cs.castle, ep, asWritten) && ep < 0 && CountersFrom(t, asWritten).Read?
  {
    if !InRange(cs.castle, ep, asWritten) then Rejected
    else
      var counters := CountersFrom(t, asWritten);
      if !counters.Read? then Rejected
      else if ep < 0 then Undefined
      else Read(counters.rest, FenPosition(pieces, stm, cs, ep, counters.value.0, counters.value.1,
        K.KeyOf(z, K.KeyState(pieces, ep, cs.castle, stm))))
  }

  /** fen_setup_board as written. */
  function SetupAsWritten(z: K.Zobrist, s: string, board: seq<Cell>): (r: Parse<FenPosition>)
    requires z.Valid() && |board| == NSQUARES
    ensures r.Read? ==>
      |r.value.pieces| == NSQUARES && 0 <= r.value.castling.castle < 16 && 0 <= r.value.epSq <= NO_SQUARE && r.value.fifty >= 0
  {
    SetupFrom(z, s, board, true)
  }

  /** fen_setup_board as evidently intended: the en-passant square range-checked, the clock read from its first digit. */
  function Setup(z: K.Zobrist, s: string, board: seq<Cell>): Parse<FenPosition>
    requires z.Valid() && |board| == NSQUARES
  {
    SetupFrom(z, s, board, false)
  }

  /** fen_build_string of the fields of a position. */
  function BuildFen(p: FenPosition): string
    requires |p.pieces| == NSQUARES && 0 <= p.castling.castle < 16 && 0 <= p.epSq <= NO_SQUARE
  {
    PlacementString(p.pieces) + [' '] + BuildTail(p)
  }

  /** The five fields after the placement, each followed by a space but the last. */
  function BuildTail(p: FenPosition): string
    requires 0 <= p.castling.castle < 16 && 0 <= p.epSq <= NO_SQUARE
  {
    [if p.stm == WHITE then 'w' else 'b'] + " " + (CastlingString(p.castling.castle) + " " +
    (EpString(p.epSq) + " " + (Decimal(p.fifty) + " " + Decimal(p.fullmove))))
  }

  /** The fields after the placement, read back. */
  lemma TailRoundTrip(z: K.Zobrist, p: FenPosition, t: string, asWritten: bool)
    requires z.Valid() && |p.pieces| == NSQUARES && 0 <= p.castling.castle < 16 && 0 <= p.epSq <= NO_SQUARE
    requires p.fifty >= 0 && p.fullmove >= 0 && !asWritten
    requires t == BuildTail(p)
    ensures var r := SideField(t);
      r.Read? && r.value == p.stm &&
      var c := CastlingField(r.rest, p.pieces);
      c.Read? && c.value.castle == p.castling.castle &&
      EpField(c.rest) == Read(" " + Digits(p.fifty) + " " + Digits(p.fullmove), p.epSq) &&
      CountersFrom(" " + Digits(p.fifty) + " " + Digits(p.fullmove), asWritten) == Read("", (p.fifty, p.fullmove))
  {
    var counters := Digits(p.fifty) + " " + Digits(p.fullmove);
    assert counters == Decimal(p.fifty) + " " + Decimal(p.fullmove);
    var epRest := EpString(p.epSq) + " " + counters;
    var csRest := CastlingString(p.castling.castle) + " " + epRest;
    assert t == [t[0]] + " " + csRest;
    assert SideField(t) == Read(csRest, p.stm);
    CastlingRoundTrip(p.castling.castle, p.pieces, epRest);
    EpRoundTrip(p.epSq, counters);
    CountersRead(" " + counters, p.fifty, p.fullmove);
    assert " " + counters == " " + Digits(p.fifty) + " " + Digits(p.fullmove);
  }

  /** The whole string read back, stated over a string equal to fen_build_string's output. */
  lemma SetupRead(z: K.Zobrist, p: FenPosition, s: string)
    requires z.Valid() && |p.pieces| == NSQUARES && 0 <= p.castling.castle < 16 && 0 <= p.epSq <= NO_SQUARE
    requires p.fifty >= 0 && p.fullmove >= 0
    requires s == BuildFen(p)
    ensures var r := SetupFrom(z, s, EmptyBoard(), false);
      r.Read? && r.rest == "" && r.value.pieces == p.pieces && r.value.stm == p.stm &&
      r.value.castling.castle == p.castling.castle && r.value.epSq == p.epSq &&
      r.value.fifty == p.fifty && r.value.fullmove == p.fullmove &&
      r.value.key == K.KeyOf(z, K.KeyState(p.pieces, p.epSq, p.castling.castle, p.stm))
  {
    var t := BuildTail(p);
    PlacementRoundTrip(p.pieces, t);
    TailRoundTrip(z, p, t, false);
    var side := SideField(t);
    var castling := CastlingField(side.rest, p.pieces);
    var counters := " " + Digits(p.fifty) + " " + Digits(p.fullmove);
    assert InRange(castling.value.castle, p.epSq, false);
  }

  /**
   * With the evidently intended reading, fen_build_string's output is read
   * back into the same pieces, side, castling flags, en-passant square,
   * clock and move number, and the same key.
   */
  lemma SetupRoundTrip(z: K.Zobrist, p: FenPosition)
    requires z.Valid() && |p.pieces| == NSQUARES && 0 <= p.castling.castle < 16 && 0 <= p.epSq <= NO_SQUARE
    requires p.fifty >= 0 && p.fullmove >= 0
    ensures var r := Setup(z, BuildFen(p), EmptyBoard());
      r.Read? && r.rest == "" && r.value.pieces == p.pieces && r.value.stm == p.stm &&
      r.value.castling.castle == p.castling.castle && r.value.epSq == p.epSq &&
      r.value.fifty == p.fifty && r.value.fullmove == p.fullmove &&
      r.value.key == K.KeyOf(z, K.KeyState(p.pieces, p.epSq, p.castling.castle, p.stm))
  {
    SetupRead(z, p, BuildFen(p));
  }

  /** The fields after the placement with the en-passant field "a0", then `counters`: they read as square -8. */
  lemma EpBelowBoardTail(p: FenPosition, t: string, counters: string)
    requires |p.pieces| == NSQUARES && 0 <= p.castling.castle < 16
    requires counters == "" || counters[0] == ' '
    requires t == [if p.stm == WHITE then 'w' else 'b'] + " " + (CastlingString(p.castling.castle) + " " + ("a0" + counters))
    ensures var side := SideField(t);
      side.Read? && var c := CastlingField(side.rest, p.pieces);
      c.Read? && 0 <= c.value.castle < 16 && EpField(c.rest) == Read(counters, -8)
  {
    var csRest := CastlingString(p.castling.castle) + " " + ("a0" + counters);
    assert t == [t[0]] + " " + csRest;
    assert SideField(t) == Read(csRest, p.stm);
    CastlingRoundTrip(p.castling.castle, p.pieces, "a0" + counters);
    var castling := CastlingField(csRest, p.pieces);
    EpA0(castling.rest, counters);
  }

  lemma EpA0(s: string, counters: string)
    requires counters == "" || counters[0] == ' '
    requires s == "a0" + counters
    ensures EpField(s) == Read(counters, -8)
  {
    assert s[2..] == counters;
  }

  /**
   * An en-passant field "a0" names square -8.  As written the range check
   * lets it through, the absent counters read as 0 and 1, and key_generate
   * indexes ep_values with it; checking the square instead of the castle
   * flags rejects the string.
   */
  lemma EpBelowBoard(z: K.Zobrist, p: FenPosition, t: string, s: string)
    requires z.Valid() && |p.pieces| == NSQUARES && 0 <= p.castling.castle < 16
    requires t == [if p.stm == WHITE then 'w' else 'b'] + " " + (CastlingString(p.castling.castle) + " " + ("a0" + ""))
    requires s == PlacementString(p.pieces) + [' '] + t
    ensures SetupAsWritten(z, s, EmptyBoard()) == Undefined
    ensures Setup(z, s, EmptyBoard()) == Rejected
  {
    PlacementRoundTrip(p.pieces, t);
    EpBelowBoardTail(p, t, "");
  }

  /**
   * With "a0" followed by a halfmove field sscanf cannot read ("1x", the
   * first character skipped), fen_setup_board returns false before
   * key_generate runs, as written and corrected alike.
   */
  lemma EpBelowBoardBadCounters(z: K.Zobrist, p: FenPosition, t: string, s: string)
    requires z.Valid() && |p.pieces| == NSQUARES && 0 <= p.castling.castle < 16
    requires t == [if p.stm == WHITE then 'w' else 'b'] + " " + (CastlingString(p.castling.castle) + " " + ("a0" + " 1x 1"))
    requires s == PlacementString(p.pieces) + [' '] + t
    ensures SetupAsWritten(z, s, EmptyBoard()) == Rejected
    ensures Setup(z, s, EmptyBoard()) == Rejected
  {
    PlacementRoundTrip(p.pieces, t);
    EpBelowBoardTail(p, t, " 1x 1");
    var c := " 1x 1";
    assert SpaceRun(c) == 1 by { assert c[1..][0] == '1'; }
    assert c[1..][1..] == "x 1";
    assert SpaceRun("x 1") == 0 && DigitRun("x 1") == 0;
    assert CountersFrom(c, true) == Rejected;
  }

  // ---- fen_setup_board, imperatively -------------------------------------------------------

  /** The placement parse from inside a rank: the rest of this rank from `file` on, then the ranks below. */
  function RankThenBelow(s: string, rank: int, file: int, board: seq<Cell>): Parse<seq<Cell>>
    requires |board| == NSQUARES && 0 <= rank < 8 && 0 <= file
  {
    match ScanRank(s, rank, file, board)
    case Read(t, b) => ScanPlacement(t[1..], rank - 1, b)
    case Rejected => Rejected
    case Undefined => Undefined
  }

  /**
   * The placement loops of fen_setup_board over pos->pieces: the piece
   * letters are stored, and the index is left after the space that ends the
   * field.  Inputs on which the C loop runs past the terminator or writes
   * past the piece array are excluded.
   */
  method ParsePlacement(s: string, pieces: array<Cell>) returns (i: nat)
    requires pieces.Length == NSQUARES
    requires ScanPlacement(s, 7, pieces[..]) != Undefined
    modifies pieces
    ensures i <= |s| && ScanPlacement(s, 7, old(pieces[..])) == Read(s[i..], pieces[..])
  {
    i := 0;
    var rank := 7;
    while rank >= 0
      invariant -1 <= rank < 8 && i <= |s|
      invariant ScanPlacement(s[i..], rank, pieces[..]) == ScanPlacement(s, 7, old(pieces[..]))
    {
      i := ParseRank(s, i, rank, pieces);
      rank := rank - 1;
    }
  }

  /** The inner loop for one rank (its `break` at ' ' folded into the loop test), and the step over the character that ends it. */
  method ParseRank(s: string, start: nat, rank: int, pieces: array<Cell>) returns (i: nat)
    requires pieces.Length == NSQUARES && 0 <= rank < 8 && start <= |s|
    requires ScanPlacement(s[start..], rank, pieces[..]) != Undefined
    modifies pieces
    ensures i <= |s| && ScanPlacement(s[i..], rank - 1, pieces[..]) == ScanPlacement(s[start..], rank, old(pieces[..]))
  {
    DefinedRankNotEmpty(s[start..], rank, 0, pieces[..]);
    var file;
    i, file := ParseSquares(s, start, rank, pieces);
    RankEndStep(s, i, rank, file, pieces[..]);
    i := i + 1;
  }

  /** The inner loop proper: it stops on the '/' or ' ' that ends the rank. */
  method ParseSquares(s: string, start: nat, rank: int, pieces: array<Cell>) returns (i: nat, file: int)
    requires pieces.Length == NSQUARES && 0 <= rank < 8 && start <= |s|
    requires RankThenBelow(s[start..], rank, 0, pieces[..]) != Undefined
    modifies pieces
    ensures 0 <= file && i < |s| && (s[i] == '/' || s[i] == ' ')
    ensures RankThenBelow(s[i..], rank, file, pieces[..]) == old(RankThenBelow(s[start..], rank, 0, pieces[..]))
  {
    i, file := start, 0;
    DefinedRankNotEmpty(s[i..], rank, file, pieces[..]);
    while s[i] != '/' && s[i] != ' '
      invariant 0 <= file && i < |s|
      invariant RankThenBelow(s[i..], rank, file, pieces[..]) == old(RankThenBelow(s[start..], rank, 0, pieces[..]))
      decreases |s| - i
    {
      file := ParseSquareChar(s, i, rank, file, pieces);
      i := i + 1;
    }
  }

  /** The character that ends a rank is stepped over and the next rank begins. */
  lemma RankEndStep(s: string, i: nat, rank: int, file: int, board: seq<Cell>)
    requires |board| == NSQUARES && 0 <= rank < 8 && 0 <= file && i < |s| && (s[i] == '/' || s[i] == ' ')
    ensures RankThenBelow(s[i..], rank, file, board) == ScanPlacement(s[i + 1..], rank - 1, board)
  {
    assert s[i..][0] == s[i];
    assert s[i..][1..] == s[i + 1..];
  }

  /** One pass of the inner loop: a digit advances the file, a piece letter is stored, anything else is skipped. */
  method ParseSquareChar(s: string, i: nat, rank: int, file: int, pieces: array<Cell>) returns (file': int)
    requires pieces.Length == NSQUARES && 0 <= rank < 8 && 0 <= file && i < |s| && s[i] != '/' && s[i] != ' '
    requires RankThenBelow(s[i..], rank, file, pieces[..]) != Undefined
    modifies pieces
    ensures 0 <= file' && i + 1 < |s|
    ensures RankThenBelow(s[i + 1..], rank, file', pieces[..]) == old(RankThenBelow(s[i..], rank, file, pieces[..]))
  {
    RankStep(s[i..], rank, file, pieces[..]);
    assert s[i..][1..] == s[i + 1..];
    if IsDigit08(s[i]) {
      file' := file + DigitValue(s[i]);
    } else if IsPieceChar(s[i]) {
      pieces[rank * 8 + file] := CharToPiece(s[i]);
      file' := file + 1;
    } else {
      file' := file;
    }
    DefinedRankNotEmpty(s[i + 1..], rank, file', pieces[..]);
  }

  /** One character of a rank, as the inner loop takes it. */
  lemma RankStep(s: string, rank: int, file: int, board: seq<Cell>)
    requires |board| == NSQUARES && 0 <= rank < 8 && 0 <= file && |s| > 0
    requires RankThenBelow(s, rank, file, board) != Undefined
    ensures s[0] == '/' || s[0] == ' ' ==> RankThenBelow(s, rank, file, board) == ScanPlacement(s[1..], rank - 1, board)
    ensures IsDigit08(s[0]) ==> RankThenBelow(s, rank, file, board) == RankThenBelow(s[1..], rank, file + DigitValue(s[0]), board)
    ensures !IsDigit08(s[0]) && s[0] != '/' && s[0] != ' ' && IsPieceChar(s[0]) ==>
      rank * 8 + file < NSQUARES &&
      RankThenBelow(s, rank, file, board) == RankThenBelow(s[1..], rank, file + 1, board[rank * 8 + file := CharToPiece(s[0])])
    ensures !IsDigit08(s[0]) && s[0] != '/' && s[0] != ' ' && !IsPieceChar(s[0]) ==>
      RankThenBelow(s, rank, file, board) == RankThenBelow(s[1..], rank, file, board)
  {
  }

  /** A rank the loop gets through has a character left to look at. */
  lemma DefinedRankNotEmpty(s: string, rank: int, file: int, board: seq<Cell>)
    requires |board| == NSQUARES && 0 <= rank < 8 && 0 <= file
    ensures RankThenBelow(s, rank, file, board) != Undefined ==> |s| > 0
    ensures file == 0 ==> RankThenBelow(s, rank, file, board) == ScanPlacement(s, rank, board)
  {
  }

  /** outer_rook: the scan from the flag's corner along the back rank, with its start, stop and step. */
  method OuterRook(pieces: array<Cell>, flag: int) returns (sq: int)
    requires pieces.Length == NSQUARES && IsFlag(flag)
    ensures sq == RookScan(pieces[..], flag, 0)
  {
    var start, stop, delta, target, blocker;
    if flag == WHITE_KINGSIDE {
      start, stop, delta, target, blocker := H1, A1, -1, WHITE_ROOK, WHITE_KING;
    } else if flag == WHITE_QUEENSIDE {
      start, stop, delta, target, blocker := A1, H1, 1, WHITE_ROOK, WHITE_KING;
    } else if flag == BLACK_KINGSIDE {
      start, stop, delta, target, blocker := H8, A8, -1, BLACK_ROOK, BLACK_KING;
    } else {
      start, stop, delta, target, blocker := A8, H8, 1, BLACK_ROOK, BLACK_KING;
    }
    sq := start;
    ghost var k := 0;
    while sq != stop
      invariant 0 <= k <= 7 && sq == start + k * delta
      invariant k < 7 ==> sq == RookPath(flag, k)
      invariant (sq == stop) == (k == 7)
      invariant RookScan(pieces[..], flag, k) == RookScan(pieces[..], flag, 0)
      decreases 7 - k
    {
      if pieces[sq] == target {
        return;
      } else if pieces[sq] == blocker {
        return NO_SQUARE;
      }
      sq, k := sq + delta, k + 1;
    }
    return NO_SQUARE;
  }

  /**
   * The castling loop: at most four characters, each setting a flag and its
   * rook square.  `ok` is false where fen_setup_board returns false; a file
   * letter with no king of its colour on the board is excluded.
   */
  method ParseCastling(s: string, start: nat, pieces: array<Cell>) returns (i: nat, st: Castling, ok: bool)
    requires start <= |s| && pieces.Length == NSQUARES
    requires CastlingChars(s[start..], 0, NO_CASTLING, pieces[..]) != Undefined
    ensures ok <==> CastlingChars(s[start..], 0, NO_CASTLING, pieces[..]).Read?
    ensures ok ==> i <= |s| && CastlingChars(s[start..], 0, NO_CASTLING, pieces[..]) == Read(s[i..], st)
  {
    i, st := start, NO_CASTLING;
    var k := 0;
    while k < 4
      invariant 0 <= k <= 4 && start <= i <= |s| && 0 <= st.castle < 16
      invariant CastlingChars(s[i..], k, st, pieces[..]) == CastlingChars(s[start..], 0, NO_CASTLING, pieces[..])
    {
      var c := At(s[i..]);
      CastlingStep(s, i, k, st, pieces[..]);
      if c == '-' {
        i := i + 1;
        break;
      } else if c == ' ' {
        break;
      }
      if !IsCastlingChar(c) {
        return i, st, false;
      }
      st := ParseCastlingChar(c, st, pieces);
      i, k := i + 1, k + 1;
    }
    ok := true;
  }

  /** The body of the castling loop for a flag or file letter. */
  method ParseCastlingChar(c: char, st: Castling, pieces: array<Cell>) returns (st': Castling)
    requires pieces.Length == NSQUARES && 0 <= st.castle < 16 && IsCastlingChar(c)
    requires CastlingChar(c, st, pieces[..]) != Undefined
    ensures CastlingChar(c, st, pieces[..]) == Read([], st')
  {
    if c == 'K' || c == 'Q' || c == 'k' || c == 'q' {
      var flag := if c == 'K' then WHITE_KINGSIDE else if c == 'Q' then WHITE_QUEENSIDE
        else if c == 'k' then BLACK_KINGSIDE else BLACK_QUEENSIDE;
      var rook := OuterRook(pieces, flag);
      st' := AddRight(st, flag, rook);
    } else {
      st' := FileRight(c, st, pieces[..]).value;
    }
  }

  /** One pass of the castling loop, by the character under the pointer. */
  lemma CastlingStep(s: string, i: nat, k: int, st: Castling, pieces: seq<Cell>)
    requires i <= |s| && 0 <= k < 4 && |pieces| == NSQUARES && 0 <= st.castle < 16
    ensures At(s[i..]) == '-' ==> i < |s| && CastlingChars(s[i..], k, st, pieces) == Read(s[i + 1..], st)
    ensures At(s[i..]) == ' ' ==> CastlingChars(s[i..], k, st, pieces) == Read(s[i..], st)
    ensures At(s[i..]) != '-' && At(s[i..]) != ' ' && !IsCastlingChar(At(s[i..])) ==>
      CastlingChars(s[i..], k, st, pieces) == Rejected
    ensures At(s[i..]) != '-' && At(s[i..]) != ' ' && IsCastlingChar(At(s[i..])) ==>
      i < |s| && CastlingChar(s[i], st, pieces) != Rejected &&
      CastlingChars(s[i..], k, st, pieces) ==
        (var r := CastlingChar(s[i], st, pieces); if r.Read? then CastlingChars(s[i + 1..], k + 1, r.value, pieces) else Undefined)
  {
    if |s[i..]| > 0 {
      assert s[i..][0] == s[i];
      assert s[i..][1..] == s[i + 1..];
    }
  }

  /** The loop that steps the pointer over the digits sscanf has read. */
  method SkipDigits(s: string, start: nat) returns (i: nat)
    requires start <= |s|
    ensures i == start + DigitRun(s[start..]) && i <= |s|
  {
    i := start;
    while i < |s| && IsDigit09(s[i])
      invariant start <= i <= |s|
      invariant DigitRun(s[start..]) == i - start + DigitRun(s[i..])
    {
      assert s[i..][1..] == s[i + 1..];
      i := i + 1;
    }
  }

  /** skip_whitespace steps over exactly the leading white space. */
  lemma {:induction false} SpaceRunOf(s: string, start: nat, i: nat)
    requires start <= i <= |s|
    requires forall k :: start <= k < i ==> U.IsSpace(s[k])
    requires i < |s| ==> !U.IsSpace(s[i])
    ensures SpaceRun(s[start..]) == i - start
    decreases i - start
  {
    if start < i {
      assert s[start..][1..] == s[start + 1..];
      SpaceRunOf(s, start + 1, i);
    }
  }

  /** The active colour field. */
  method ParseSide(s: string, start: nat) returns (i: nat, ok: bool, stm: Side)
    requires start <= |s|
    ensures ok <==> SideField(s[start..]).Read?
    ensures ok ==> i <= |s| && SideField(s[start..]) == Read(s[i..], stm)
  {
    i, stm := start, WHITE;
    if At(s[i..]) == 'w' {
      stm := WHITE;
    } else if At(s[i..]) == 'b' {
      stm := BLACK;
    } else {
      return i, false, stm;
    }
    assert s[i..][1..] == s[i + 1..];
    i := i + 1;
    if At(s[i..]) != ' ' {
      return i, false, stm;
    }
    assert s[start..][2..] == s[i + 1..];
    i, ok := i + 1, true;
  }

  /** The castling field: the loop, the closing space, the range check, and the step over the space. */
  method ParseCastlingField(s: string, start: nat, pieces: array<Cell>) returns (i: nat, ok: bool, st: Castling)
    requires start <= |s| && pieces.Length == NSQUARES
    requires CastlingField(s[start..], pieces[..]) != Undefined
    ensures ok <==> CastlingField(s[start..], pieces[..]).Read?
    ensures ok ==> i <= |s| && CastlingField(s[start..], pieces[..]) == Read(s[i..], st)
  {
    i, st, ok := ParseCastling(s, start, pieces);
    if !ok {
      return;
    }
    if At(s[i..]) != ' ' || st.castle < 0 || st.castle > 15 {
      return i, false, st;
    }
    assert s[i..][1..] == s[i + 1..];
    i := i + 1;
  }

  /** The en-passant field, without the range check. */
  method ParseEp(s: string, start: nat) returns (i: nat, ok: bool, ep: int)
    requires start <= |s|
    requires EpField(s[start..]) != Undefined
    ensures ok <==> EpField(s[start..]).Read?
    ensures ok ==> i <= |s| && EpField(s[start..]) == Read(s[i..], ep)
  {
    if At(s[start..]) == '-' {
      ep, i := NO_SQUARE, start + 1;
      assert s[start..][1..] == s[i..];
    } else {
      var file := s[start] as int - 'a' as int;
      var rank := s[start + 1] as int - '1' as int;
      ep, i := rank * 8 + file, start + 2;
      assert s[start..][2..] == s[i..];
    }
    ok := At(s[i..]) == ' ' || At(s[i..]) == '\0';
  }

  /** The two counters, or 0 and 1 when they are absent; the clock is read from its first digit. */
  method ParseCounters(s: string, start: nat) returns (i: nat, ok: bool, fifty: int, fullmove: int)
    requires start <= |s|
    ensures i <= |s| && Counters(s[start..]) == if ok then Read(s[i..], (fifty, fullmove)) else Rejected
  {
    i := U.SkipWhitespace(s, start);
    SpaceRunOf(s, start, i);
    assert s[start..][SpaceRun(s[start..])..] == s[i..];
    if !(i < |s| && IsDigit09(s[i])) {
      return i, true, 0, 1;
    }
    i, ok, fifty, fullmove := ParseHalfmove(s, i);
  }

  /** sscanf("%d") at the pointer, then the loop that steps over the digits where the pointer stood. */
  method ReadInt(s: string, start: nat) returns (i: nat, v: Option<int>)
    requires start <= |s|
    ensures i <= |s| && IntField(s[start..]) == if v.Some? then Read(s[i..], v.value) else Rejected
  {
    v := ScanInt(s[start..]);
    i := SkipDigits(s, start);
  }

  method ParseHalfmove(s: string, start: nat) returns (i: nat, ok: bool, fifty: int, fullmove: int)
    requires start <= |s|
    ensures i <= |s| && HalfmoveField(s[start..]) == if ok then Read(s[i..], (fifty, fullmove)) else Rejected
  {
    var v;
    i, v := ReadInt(s, start);
    if v.None? {
      return i, false, 0, 1;
    }
    fifty := v.value;
    if At(s[i..]) != ' ' || fifty < 0 {
      return i, false, fifty, 1;
    }
    HalfmoveStep(s, start, i, fifty);
    i, ok, fullmove := ParseFullmove(s, i + 1, fifty);
  }

  /** The halfmove field once sscanf has read the clock and the pointer has stepped over its digits to index i. */
  lemma HalfmoveStep(s: string, start: nat, i: nat, fifty: int)
    requires start <= |s| && i <= |s|
    requires IntField(s[start..]) == Read(s[i..], fifty)
    requires At(s[i..]) == ' ' && fifty >= 0
    ensures i < |s| && HalfmoveField(s[start..]) == FullmoveField(s[i + 1..], fifty)
  {
    assert |s[i..]| > 0;
    assert s[i..][1..] == s[i + 1..];
  }

  method ParseFullmove(s: string, start: nat, fifty: int) returns (i: nat, ok: bool, fullmove: int)
    requires start <= |s|
    ensures i <= |s| && FullmoveField(s[start..], fifty) == if ok then Read(s[i..], (fifty, fullmove)) else Rejected
  {
    var v;
    i, v := ReadInt(s, start);
    if v.None? {
      return i, false, 1;
    }
    fullmove := v.value;
    ok := At(s[i..]) == '\0';
  }

  /**
   * fen_setup_board with the two corrections: the halfmove clock read from
   * its first digit, and the range check on the en-passant square.  The
   * pieces are placed into the array; the rest of the position comes back
   * as a value.  The bitboards the C fills from the pieces are not modelled.
   */
  method SetupBoard(z: K.Zobrist, s: string, pieces: array<Cell>) returns (ok: bool, pos: FenPosition)
    requires z.Valid() && pieces.Length == NSQUARES
    requires Setup(z, s, pieces[..]) != Undefined
    modifies pieces
    ensures ok <==> Setup(z, s, old(pieces[..])).Read?
    ensures ok ==> pos == Setup(z, s, old(pieces[..])).value && pos.pieces == pieces[..]
  {
    var i := ParsePlacement(s, pieces);
    ghost var result := AfterPlacement(z, s[i..], pieces[..], false);
    assert Setup(z, s, old(pieces[..])) == result;
    pos := FenPosition(pieces[..], WHITE, NO_CASTLING, NO_SQUARE, 0, 1, 0);
    var stm, st, ep, fifty, fullmove;
    i, ok, stm := ParseSide(s, i);
    if !ok {
      return;
    }
    assert result == AfterSide(z, s[i..], pieces[..], stm, false);
    i, ok, st := ParseCastlingField(s, i, pieces);
    if !ok {
      return;
    }
    assert result == AfterCastling(z, s[i..], pieces[..], stm, st, false);
    i, ok, ep := ParseEp(s, i);
    if !ok {
      return;
    }
    assert result == AfterEp(z, s[i..], pieces[..], stm, st, ep, false);
    if ep < A1 || ep > NO_SQUARE {
      return false, pos;
    }
    i, ok, fifty, fullmove := ParseCounters(s, i);
    if !ok {
      return;
    }
    var key := K.KeyGenerate(z, K.KeyState(pieces[..], ep, st.castle, stm));
    pos := FenPosition(pieces[..], stm, st, ep, fifty, fullmove, key);
  }

  /** The squares of a rank from `file` on, as the builder's inner loop writes them. */
  method BuildRank(p: seq<Cell>, rank: int) returns (row: string)
    requires |p| == NSQUARES && 0 <= rank < 8
    ensures row == RankChars(p, rank, 0, 0)
  {
    row := [];
    var empty := 0;
    var file := 0;
    while file < 8
      invariant 0 <= empty <= file <= 8
      invariant row + RankChars(p, rank, file, empty) == RankChars(p, rank, 0, 0)
    {
      var sq := rank * 8 + file;
      if p[sq] != NO_PIECE {
        BuildPiece(row, p, rank, file, empty);
        if empty > 0 {
          row := row + [DigitChar(empty)];
          empty := 0;
        }
        row := row + [PieceChar(p[sq])];
      } else {
        BuildEmpty(p, rank, file, empty);
        empty := empty + 1;
      }
      file := file + 1;
    }
    if empty != 0 {
      row := row + [DigitChar(empty)];
    } else {
      assert row + [] == row;
    }
  }

  /** An empty square only adds to the pending count. */
  lemma BuildEmpty(p: seq<Cell>, rank: int, file: int, empty: int)
    requires |p| == NSQUARES && 0 <= rank < 8 && 0 <= empty <= file < 8 && p[rank * 8 + file] == NO_PIECE
    ensures RankChars(p, rank, file, empty) == RankChars(p, rank, file + 1, empty + 1)
  {
  }

  /** A piece square: the pending digit and the letter move from the unwritten part to the row. */
  lemma BuildPiece(row: string, p: seq<Cell>, rank: int, file: int, empty: int)
    requires |p| == NSQUARES && 0 <= rank < 8 && 0 <= empty <= file < 8 && p[rank * 8 + file] != NO_PIECE
    ensures empty > 0 ==>
      row + RankChars(p, rank, file, empty) == row + [DigitChar(empty)] + [PieceChar(p[rank * 8 + file])] + RankChars(p, rank, file + 1, 0)
    ensures empty == 0 ==>
      row + RankChars(p, rank, file, empty) == row + [PieceChar(p[rank * 8 + file])] + RankChars(p, rank, file + 1, 0)
  {
    var piece, after := [PieceChar(p[rank * 8 + file])], RankChars(p, rank, file + 1, 0);
    RankCharsPiece(p, rank, file, empty);
    if empty > 0 {
      Assoc(row, [DigitChar(empty)], piece + after);
      Assoc(row + [DigitChar(empty)], piece, after);
    } else {
      assert row + [] == row;
      Assoc(row, piece, after);
    }
  }

  /** fen_build_string: the placement rank by rank, then the other five fields. */
  method FenBuildString(p: FenPosition) returns (fen: string)
    requires |p.pieces| == NSQUARES && 0 <= p.castling.castle < 16 && 0 <= p.epSq <= NO_SQUARE
    ensures fen == BuildFen(p)
  {
    fen := [];
    var rank := 7;
    while rank >= 0
      invariant -1 <= rank < 8
      invariant rank >= 0 ==> fen + RanksFrom(p.pieces, rank) == PlacementString(p.pieces)
      invariant rank < 0 ==> fen == PlacementString(p.pieces)
    {
      var row := BuildRank(p.pieces, rank);
      BuildStep(fen, row, p.pieces, rank);
      fen := fen + row;
      if rank > 0 {
        fen := fen + "/";
      }
      rank := rank - 1;
    }
    var tail := BuildFields(p);
    fen := fen + [' '] + tail;
  }

  /** One rank of the builder's outer loop. */
  lemma BuildStep(fen: string, row: string, p: seq<Cell>, rank: int)
    requires |p| == NSQUARES && 0 <= rank < 8 && row == RankChars(p, rank, 0, 0)
    ensures fen + RanksFrom(p, rank) == if rank > 0 then fen + row + "/" + RanksFrom(p, rank - 1) else fen + row
  {
    if rank > 0 {
      assert RanksFrom(p, rank) == row + (['/'] + RanksFrom(p, rank - 1));
    } else {
      assert RanksFrom(p, rank) == row + [];
    }
  }

  /** The side, castling, en-passant and counter fields. */
  method BuildFields(p: FenPosition) returns (tail: string)
    requires 0 <= p.castling.castle < 16 && 0 <= p.epSq <= NO_SQUARE
    ensures tail == BuildTail(p)
  {
    var castling := BuildCastling(p.castling.castle);
    var ep: string;
    if p.epSq == NO_SQUARE {
      ep := "-";
    } else {
      ep := [('a' as int + FileNr(p.epSq)) as char, ('1' as int + RankNr(p.epSq)) as char];
    }
    tail := [if p.stm == WHITE then 'w' else 'b'] + " " + (castling + " " + (ep + " " + (Decimal(p.fifty) + " " + Decimal(p.fullmove))));
  }

  /** The castling letters, one test per flag. */
  method BuildCastling(castle: int) returns (letters: string)
    requires 0 <= castle < 16
    ensures letters == CastlingString(castle)
  {
    if castle == 0 {
      return "-";
    }
    letters := [];
    if HasFlag(castle, WHITE_KINGSIDE) {
      letters := letters + "K";
    }
    if HasFlag(castle, WHITE_QUEENSIDE) {
      letters := letters + "Q";
    }
    if HasFlag(castle, BLACK_KINGSIDE) {
      letters := letters + "k";
    }
    if HasFlag(castle, BLACK_QUEENSIDE) {
      letters := letters + "q";
    }
  }
}
