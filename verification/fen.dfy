/** Forsyth-Edwards Notation: printing, parsing, and the keys positions are compared by. */
module Fen {
  import opened Board
  import opened Rules
  import opened Text
  import opened Notation

  const START_FEN: string := "rnbqkbnr/pppppppp/8/8/8/8/PPPPPPPP/RNBQKBNR w KQkq - 0 1"

  // ---- Piece letters ----

  function WhiteLetter(k: Kind): char {
    match k
    case Pawn => 'P'
    case Knight => 'N'
    case Bishop => 'B'
    case Rook => 'R'
    case Queen => 'Q'
    case King => 'K'
  }

  function BlackLetter(k: Kind): char {
    match k
    case Pawn => 'p'
    case Knight => 'n'
    case Bishop => 'b'
    case Rook => 'r'
    case Queen => 'q'
    case King => 'k'
  }

  function Letter(piece: Piece): char
    requires piece.Man?
  {
    if piece.color == White then WhiteLetter(piece.kind) else BlackLetter(piece.kind)
  }

  function PieceOf(c: char): Option<Piece> {
    match c
    case 'P' => Some(Man(White, Pawn))
    case 'N' => Some(Man(White, Knight))
    case 'B' => Some(Man(White, Bishop))
    case 'R' => Some(Man(White, Rook))
    case 'Q' => Some(Man(White, Queen))
    case 'K' => Some(Man(White, King))
    case 'p' => Some(Man(Black, Pawn))
    case 'n' => Some(Man(Black, Knight))
    case 'b' => Some(Man(Black, Bishop))
    case 'r' => Some(Man(Black, Rook))
    case 'q' => Some(Man(Black, Queen))
    case 'k' => Some(Man(Black, King))
    case _ => None
  }

  // ---- One rank ----

  function Gap(empty: nat): string
    requires empty < 10
  {
    if empty > 0 then [DigitChar(empty)] else ""
  }

  /** The text of the rest of a rank after `empty` empty squares not yet written. */
  function RankText(row: seq<Piece>, empty: nat): string
    requires |row| + empty < 10
    decreases row
  {
    if row == [] then Gap(empty)
    else if row[0].Empty? then RankText(row[1..], empty + 1)
    else Gap(empty) + [Letter(row[0])] + RankText(row[1..], 0)
  }

  predicate IsGapDigit(c: char) { '1' <= c <= '8' }

  function Blank(n: nat): seq<Piece> { seq(n, _ => Empty) }

  /** The pieces a rank's text stands for from `file` on, or nothing if it is malformed. */
  function ParseRank(s: string, file: nat): (row: Option<seq<Piece>>)
    ensures row.Some? ==> file <= 8 && |row.value| == 8 - file
    decreases s
  {
    if s == "" then (if file == 8 then Some([]) else None)
    else if IsGapDigit(s[0]) then
      var rest := ParseRank(s[1..], file + Digit(s[0]));
      if rest.Some? then Some(Blank(Digit(s[0])) + rest.value) else None
    else if PieceOf(s[0]).Some? && file <= 7 then
      var rest := ParseRank(s[1..], file + 1);
      if rest.Some? then Some([PieceOf(s[0]).value] + rest.value) else None
    else None
  }

  lemma {:induction false} RankRoundTrip(row: seq<Piece>, empty: nat, file: nat)
    requires |row| + empty + file == 8
    ensures ParseRank(RankText(row, empty), file) == Some(Blank(empty) + row)
    decreases row
  {
    if row == [] {
      ParseGap(empty, "", file);
      assert Gap(empty) + "" == Gap(empty);
    } else if row[0].Empty? {
      RankRoundTrip(row[1..], empty + 1, file);
      assert Blank(empty + 1) + row[1..] == Blank(empty) + row;
    } else {
      RankRoundTrip(row[1..], 0, file + empty + 1);
      assert Blank(0) + row[1..] == row[1..];
      ParsePiece(row, empty, file);
    }
  }

  /** A gap, a piece and a tail that round-trips. */
  lemma {:induction false} ParsePiece(row: seq<Piece>, empty: nat, file: nat)
    requires |row| + empty + file == 8 && row != [] && row[0].Man?
    requires ParseRank(RankText(row[1..], 0), file + empty + 1) == Some(row[1..])
    ensures ParseRank(RankText(row, empty), file) == Some(Blank(empty) + row)
  {
    var tail := RankText(row[1..], 0);
    ParseLetter(row[0], tail, file + empty);
    HeadAndTail(row);
    ParseGap(empty, [Letter(row[0])] + tail, file);
    RankTextOfPiece(row, empty);
  }

  lemma HeadAndTail<T>(row: seq<T>)
    requires row != []
    ensures [row[0]] + row[1..] == row
  {}

  lemma {:induction false} RankTextOfPiece(row: seq<Piece>, empty: nat)
    requires |row| + empty < 10 && row != [] && row[0].Man?
    ensures RankText(row, empty) == Gap(empty) + ([Letter(row[0])] + RankText(row[1..], 0))
  {}

  lemma {:induction false} ParseLetter(piece: Piece, tail: string, file: nat)
    requires piece.Man? && file <= 7 && ParseRank(tail, file + 1).Some?
    ensures ParseRank([Letter(piece)] + tail, file) == Some([piece] + ParseRank(tail, file + 1).value)
  {}

  lemma {:induction false} ParseGap(empty: nat, rest: string, file: nat)
    requires empty + file <= 8 && ParseRank(rest, file + empty).Some?
    ensures ParseRank(Gap(empty) + rest, file) == Some(Blank(empty) + ParseRank(rest, file + empty).value)
  {
    if empty == 0 {
      assert Gap(empty) + rest == rest && Blank(0) + ParseRank(rest, file).value == ParseRank(rest, file).value;
    } else {
      assert (Gap(empty) + rest)[1..] == rest;
    }
  }

  predicate RankChars(s: string) {
    forall i :: 0 <= i < |s| ==> IsDigit(s[i]) || PieceOf(s[i]).Some?
  }

  lemma {:induction false} RankTextChars(row: seq<Piece>, empty: nat)
    requires |row| + empty < 10
    ensures RankChars(RankText(row, empty))
    ensures row != [] || empty > 0 ==> RankText(row, empty) != ""
    decreases row
  {
    if row != [] {
      RankTextChars(row[1..], if row[0].Empty? then empty + 1 else 0);
    }
  }

  // ---- All ranks ----

  /** The squares of one rank. */
  function Row(q: Squares, rank: int): seq<Piece>
    requires 0 <= rank < 8
  {
    q[8 * rank..8 * rank + 8]
  }

  /** The texts of the ranks, the eighth first. */
  function RankTexts(q: Squares): seq<string> {
    seq(8, i requires 0 <= i < 8 => RankText(Row(q, 7 - i), 0))
  }

  function Placement(q: Squares): string { JoinWith(RankTexts(q), '/') }

  predicate AllParse(parts: seq<string>) {
    |parts| == 8 && forall i :: 0 <= i < 8 ==> ParseRank(parts[i], 0).Some?
  }

  function ParsePlacement(s: string): Option<Squares> {
    var parts := Split(s, '/');
    if !AllParse(parts) then None
    else Some(seq(64, t requires 0 <= t < 64 => ParseRank(parts[7 - t / 8], 0).value[t % 8]))
  }

  lemma RankTextsOk(q: Squares, i: int)
    requires 0 <= i < 8
    ensures '/' !in RankTexts(q)[i]
    ensures ParseRank(RankTexts(q)[i], 0) == Some(Row(q, 7 - i))
    ensures RankChars(RankTexts(q)[i]) && RankTexts(q)[i] != ""
  {
    RankRoundTrip(Row(q, 7 - i), 0, 0);
    assert Blank(0) + Row(q, 7 - i) == Row(q, 7 - i);
    RankTextChars(Row(q, 7 - i), 0);
  }

  lemma {:induction false} PlacementOfRows(s: string, q: Squares)
    requires |Split(s, '/')| == 8
    requires forall j :: 0 <= j < 8 ==> ParseRank(Split(s, '/')[j], 0) == Some(Row(q, 7 - j))
    ensures ParsePlacement(s) == Some(q)
  {
    var q' := ParsePlacement(s).value;
    forall t | 0 <= t < 64 ensures q'[t] == q[t] {
      assert ParseRank(Split(s, '/')[7 - t / 8], 0) == Some(Row(q, t / 8));
      assert Row(q, t / 8)[t % 8] == q[8 * (t / 8) + t % 8];
    }
    assert q' == q;
  }

  lemma PlacementRoundTrip(q: Squares)
    ensures ParsePlacement(Placement(q)) == Some(q)
  {
    var parts := RankTexts(q);
    forall i | 0 <= i < 8 ensures '/' !in parts[i] && ParseRank(parts[i], 0) == Some(Row(q, 7 - i)) {
      RankTextsOk(q, i);
    }
    SplitOfJoin(parts, '/');
    PlacementOfRows(Placement(q), q);
  }

  // ---- The other fields ----

  function TurnText(c: Color): string { if c == White then "w" else "b" }

  function ParseTurn(s: string): Option<Color> {
    if s == "w" then Some(White) else if s == "b" then Some(Black) else None
  }

  const NO_RIGHTS: Rights := Rights(false, false, false, false)

  function RightsText(r: Rights): string {
    if r == NO_RIGHTS then "-"
    else (if r.wk then "K" else "") + (if r.wq then "Q" else "")
              + (if r.bk then "k" else "") + (if r.bq then "q" else "")
  }

  /** Adds the rights named by each letter, in any order and with repetitions. */
  function ParseLetters(s: string, r: Rights): Option<Rights>
    decreases s
  {
    if s == "" then Some(r)
    else match s[0]
      case 'K' => ParseLetters(s[1..], r.(wk := true))
      case 'Q' => ParseLetters(s[1..], r.(wq := true))
      case 'k' => ParseLetters(s[1..], r.(bk := true))
      case 'q' => ParseLetters(s[1..], r.(bq := true))
      case _ => None
  }

  function ParseRights(s: string): Option<Rights> {
    if s == "-" then Some(NO_RIGHTS) else ParseLetters(s, NO_RIGHTS)
  }

  /** Writing one optional letter and reading it back. */
  lemma OneLetter(on: bool, c: char, rest: string, r: Rights)
    requires c in {'K', 'Q', 'k', 'q'}
    ensures ParseLetters((if on then [c] else "") + rest, r) ==
      ParseLetters(rest, if !on then r else match c
        case 'K' => r.(wk := true)
        case 'Q' => r.(wq := true)
        case 'k' => r.(bk := true)
        case _ => r.(bq := true))
  {
    if on {
      assert ([c] + rest)[1..] == rest;
    } else {
      assert "" + rest == rest;
    }
  }

  lemma RightsRoundTrip(r: Rights)
    ensures ParseRights(RightsText(r)) == Some(r)
    ensures IsWord(RightsText(r))
  {
    if r != NO_RIGHTS {
      var k, q := if r.wk then "K" else "", if r.wq then "Q" else "";
      var bk, bq := if r.bk then "k" else "", if r.bq then "q" else "";
      assert RightsText(r) == k + (q + (bk + (bq + "")));
      OneLetter(r.wk, 'K', q + (bk + (bq + "")), NO_RIGHTS);
      OneLetter(r.wq, 'Q', bk + (bq + ""), NO_RIGHTS.(wk := r.wk));
      OneLetter(r.bk, 'k', bq + "", NO_RIGHTS.(wk := r.wk, wq := r.wq));
      OneLetter(r.bq, 'q', "", NO_RIGHTS.(wk := r.wk, wq := r.wq, bk := r.bk));
    }
  }

  function TargetText(e: int): string
    requires e == NO_SQUARE || 0 <= e < 64
  {
    if e == NO_SQUARE then "-" else SquareName(e)
  }

  function ParseTarget(s: string): Option<int> {
    if s == "-" then Some(NO_SQUARE)
    else if |s| != 2 then None
    else match ParseSquare(s[0], s[1])
      case Some(e) => Some(e)
      case None => None
  }

  lemma TargetRoundTrip(e: int)
    requires e == NO_SQUARE || 0 <= e < 64
    ensures ParseTarget(TargetText(e)) == Some(e) && IsWord(TargetText(e))
  {}

  // ---- The whole position ----

  /** What every parsed position satisfies, and all that printing needs. */
  predicate WellFormed(p: Position) {
    && (p.enPassant == NO_SQUARE || 0 <= p.enPassant < 64)
    && 0 <= p.halfMove <= MAX_INT && 1 <= p.fullMove <= MAX_INT
  }

  /** The four fields that repetition compares. */
  function KeyFields(p: Position): seq<string>
    requires WellFormed(p)
  {
    [Placement(p.squares), TurnText(p.turn), RightsText(p.castling), TargetText(p.enPassant)]
  }

  function Print(p: Position): string
    requires WellFormed(p)
  {
    Join(KeyFields(p) + [Itoa(p.halfMove), Itoa(p.fullMove)])
  }

  function Parse(s: string): (result: Option<Position>) {
    var fields := Fields(s);
    if |fields| != 6 then None
    else match (ParsePlacement(fields[0]), ParseTurn(fields[1]), ParseRights(fields[2]), ParseTarget(fields[3]),
                Atoi(fields[4]), Atoi(fields[5]))
      case (Some(q), Some(turn), Some(rights), Some(target), Some(half), Some(full)) =>
        if half < 0 || full < 1 then None else Some(Position(q, turn, rights, target, half, full))
      case _ => None
  }

  lemma PieceLetterNoSpace(c: char)
    requires IsDigit(c) || PieceOf(c).Some? || c == '/'
    ensures !IsSpace(c)
  {}

  lemma {:induction false} JoinedChars(parts: seq<string>)
    requires |parts| >= 1 && forall i :: 0 <= i < |parts| ==> RankChars(parts[i]) && parts[i] != ""
    ensures IsWord(JoinWith(parts, '/'))
  {
    forall c | IsDigit(c) || PieceOf(c).Some? || c == '/' ensures !IsSpace(c) { PieceLetterNoSpace(c); }
    if |parts| > 1 {
      JoinedChars(parts[1..]);
    }
  }

  lemma KeyFieldsAreWords(p: Position)
    requires WellFormed(p)
    ensures AllWords(KeyFields(p))
  {
    forall i | 0 <= i < 8 ensures RankChars(RankTexts(p.squares)[i]) && RankTexts(p.squares)[i] != "" {
      RankTextsOk(p.squares, i);
    }
    JoinedChars(RankTexts(p.squares));
    RightsRoundTrip(p.castling);
    TargetRoundTrip(p.enPassant);
  }

  lemma {:induction false} NumberIsWord(n: nat)
    ensures IsWord(Itoa(n))
  {}

  /** Parsing a printed position gives the position back. */
  lemma RoundTrip(p: Position)
    requires WellFormed(p)
    ensures Parse(Print(p)) == Some(p)
  {
    var fields := KeyFields(p) + [Itoa(p.halfMove), Itoa(p.fullMove)];
    KeyFieldsAreWords(p);
    NumberIsWord(p.halfMove);
    NumberIsWord(p.fullMove);
    FieldsOfJoin(fields);
    PlacementRoundTrip(p.squares);
    RightsRoundTrip(p.castling);
    TargetRoundTrip(p.enPassant);
    AtoiOfItoa(p.halfMove);
    AtoiOfItoa(p.fullMove);
  }

  lemma PrintInjective(p: Position, p': Position)
    requires WellFormed(p) && WellFormed(p') && Print(p) == Print(p')
    ensures p == p'
  {
    RoundTrip(p);
    RoundTrip(p');
  }

  /** Whatever parses is well formed, so printing it and parsing again changes nothing. */
  lemma ParsedIsWellFormed(s: string)
    ensures Parse(s).Some? ==> WellFormed(Parse(s).value) && Parse(Print(Parse(s).value)) == Parse(s)
  {
    if Parse(s).Some? {
      RoundTrip(Parse(s).value);
    }
  }

  // ---- Repetition keys ----

  /** Everything before the `n`-th space, or the whole text if it has fewer. */
  function BeforeSpace(s: string, n: nat): string
    requires n >= 1
    decreases s
  {
    if s == "" then ""
    else if s[0] == ' ' && n == 1 then ""
    else [s[0]] + BeforeSpace(s[1..], if s[0] == ' ' then n - 1 else n)
  }

  function RepetitionKey(fen: string): string { BeforeSpace(fen, 4) }

  /** The opening book's key: the first four fields, joined again. */
  function PositionKey(fen: string): string {
    var fields := Fields(fen);
    if |fields| >= 4 then Join(fields[..4]) else fen
  }

  lemma {:induction false} BeforeSpaceOfWord(w: string, rest: string, n: nat)
    requires n >= 1 && forall i :: 0 <= i < |w| ==> w[i] != ' '
    ensures BeforeSpace(w + rest, n) == w + BeforeSpace(rest, n)
  {
    if w == "" {
      assert w + rest == rest;
    } else {
      BeforeSpaceOfWord(w[1..], rest, n);
      TailOfConcat(w, rest);
      HeadAndTail(w);
      assert [w[0]] + (w[1..] + BeforeSpace(rest, n)) == ([w[0]] + w[1..]) + BeforeSpace(rest, n);
    }
  }

  lemma TailOfConcat(w: string, rest: string)
    requires w != ""
    ensures (w + rest)[0] == w[0] && (w + rest)[1..] == w[1..] + rest
  {}

  lemma {:induction false} BeforeSpaceOfJoin(ws: seq<string>, n: nat)
    requires 1 <= n < |ws| && AllWords(ws)
    ensures BeforeSpace(Join(ws), n) == Join(ws[..n])
    decreases n
  {
    var rest := Join(ws[1..]);
    assert Join(ws) == ws[0] + (" " + rest);
    assert forall i :: 0 <= i < |ws[0]| ==> !IsSpace(ws[0][i]);
    BeforeSpaceOfWord(ws[0], " " + rest, n);
    assert (" " + rest)[1..] == rest;
    if n > 1 {
      BeforeSpaceOfJoin(ws[1..], n - 1);
      assert ws[..n][1..] == ws[1..][..n - 1];
      assert ws[..n][0] == ws[0];
    } else {
      assert ws[..1] == [ws[0]];
    }
  }

  /** The space-counting key and the field-splitting key agree on every printed position. */
  lemma KeysAgree(p: Position)
    requires WellFormed(p)
    ensures RepetitionKey(Print(p)) == PositionKey(Print(p)) == Join(KeyFields(p))
  {
    var fields := KeyFields(p) + [Itoa(p.halfMove), Itoa(p.fullMove)];
    KeyFieldsAreWords(p);
    NumberIsWord(p.halfMove);
    NumberIsWord(p.fullMove);
    FieldsOfJoin(fields);
    BeforeSpaceOfJoin(fields, 4);
    assert fields[..4] == KeyFields(p);
  }

  /** The positions agree except for the clocks. */
  predicate SamePlace(p: Position, p': Position) {
    p.squares == p'.squares && p.turn == p'.turn && p.castling == p'.castling && p.enPassant == p'.enPassant
  }

  /** Equal keys mean the same position up to the clocks. */
  lemma KeyDeterminesPlace(p: Position, p': Position)
    requires WellFormed(p) && WellFormed(p')
    ensures RepetitionKey(Print(p)) == RepetitionKey(Print(p')) <==> SamePlace(p, p')
  {
    KeysAgree(p);
    KeysAgree(p');
    if Join(KeyFields(p)) == Join(KeyFields(p')) {
      KeyFieldsAreWords(p);
      KeyFieldsAreWords(p');
      FieldsOfJoin(KeyFields(p));
      FieldsOfJoin(KeyFields(p'));
      assert KeyFields(p)[0] == KeyFields(p')[0] && KeyFields(p)[1] == KeyFields(p')[1];
      assert KeyFields(p)[2] == KeyFields(p')[2] && KeyFields(p)[3] == KeyFields(p')[3];
      PlacementRoundTrip(p.squares);
      PlacementRoundTrip(p'.squares);
      RightsRoundTrip(p.castling);
      RightsRoundTrip(p'.castling);
      TargetRoundTrip(p.enPassant);
      TargetRoundTrip(p'.enPassant);
    }
  }

  /** Positions with equal keys have the same legal moves, and the same keys after each. */
  lemma KeyDeterminesPlay(p: Position, p': Position, m: Move)
    requires WellFormed(p) && WellFormed(p') && RepetitionKey(Print(p)) == RepetitionKey(Print(p'))
    ensures Legal(p, m) <==> Legal(p', m)
    ensures WellFormed(Apply(p, m)) && WellFormed(Apply(p', m)) ==>
      RepetitionKey(Print(Apply(p, m))) == RepetitionKey(Print(Apply(p', m)))
  {
    KeyDeterminesPlace(p, p');
    SamePlaceSameMoves(p, p', m);
    if WellFormed(Apply(p, m)) && WellFormed(Apply(p', m)) {
      KeyDeterminesPlace(Apply(p, m), Apply(p', m));
    }
  }

  lemma SamePlaceSameMoves(p: Position, p': Position, m: Move)
    requires SamePlace(p, p')
    ensures Legal(p, m) <==> Legal(p', m)
    ensures SamePlace(Apply(p, m), Apply(p', m))
  {
    forall kingSide: bool ensures MayCastle(p, kingSide) <==> MayCastle(p', kingSide) {}
  }
}
