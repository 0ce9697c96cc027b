/** The printing and parsing loops for FEN, and the starting position's text. */
module FenCodec {
  import opened Board
  import opened Text
  import opened Notation
  import opened Fen
  import opened Invariant

  // ---- Printing ----

  /** One more square of a rank: an empty one is counted, a piece is written after the gap. */
  lemma {:induction false} RankWritten(row: seq<Piece>, file: nat, empty: nat, before: string)
    requires file < |row| <= 8 && empty <= file
    ensures row[file].Empty? ==> RankText(row[file..], empty) == RankText(row[file + 1..], empty + 1)
    ensures row[file].Man? ==>
      before + RankText(row[file..], empty) == before + Gap(empty) + [Letter(row[file])] + RankText(row[file + 1..], 0)
  {}

  method WriteRank(q: Squares, rank: int) returns (s: string)
    requires 0 <= rank < 8
    ensures s == RankText(Row(q, rank), 0)
  {
    s := "";
    var empty := 0;
    ghost var row := Row(q, rank);
    assert row[0..] == row;
    for file := 0 to 8
      invariant 0 <= empty <= file && s + RankText(row[file..], empty) == RankText(row, 0)
    {
      var piece := q[Sq(file, rank)];
      assert piece == row[file];
      RankWritten(row, file, empty, s);
      if piece == Empty {
        empty := empty + 1;
        continue;
      }
      ghost var written := s + Gap(empty);
      if empty > 0 {
        s := s + [DigitChar(empty)];
        empty := 0;
      }
      assert s == written;
      s := s + [Letter(piece)];
    }
    assert row[8..] == [];
    if empty > 0 {
      s := s + [DigitChar(empty)];
    }
  }

  lemma SlashNext(texts: seq<string>, i: nat, before: string)
    requires i + 1 < |texts|
    ensures before + JoinWith(texts[i..], '/') == before + texts[i] + ['/'] + JoinWith(texts[i + 1..], '/')
  {}

  method WritePlacement(q: Squares) returns (s: string)
    ensures s == Placement(q)
  {
    s := "";
    ghost var texts := RankTexts(q);
    assert texts[0..] == texts;
    var rank := 7;
    while rank >= 0
      invariant -1 <= rank <= 7
      invariant if rank >= 0 then s + JoinWith(texts[7 - rank..], '/') == Placement(q) else s == Placement(q)
    {
      var text := WriteRank(q, rank);
      ghost var before := s;
      s := s + text;
      if rank > 0 {
        s := s + ['/'];
        SlashNext(texts, 7 - rank, before);
      }
      rank := rank - 1;
    }
  }

  method WriteRights(r: Rights) returns (s: string)
    ensures s == RightsText(r)
  {
    if r == NO_RIGHTS {
      return "-";
    }
    s := "";
    if r.wk {
      s := s + ['K'];
    }
    if r.wq {
      s := s + ['Q'];
    }
    if r.bk {
      s := s + ['k'];
    }
    if r.bq {
      s := s + ['q'];
    }
  }

  method WriteFen(p: Position) returns (s: string)
    requires WellFormed(p)
    ensures s == Print(p)
  {
    var placement := WritePlacement(p.squares);
    var rights := WriteRights(p.castling);
    var turn := if p.turn == White then " w " else " b ";
    var target := if p.enPassant == NO_SQUARE then "-" else SquareName(p.enPassant);
    s := placement + turn + rights + " " + target + " " + Itoa(p.halfMove) + " " + Itoa(p.fullMove);
    SixFields(placement, TurnText(p.turn), rights, target, Itoa(p.halfMove), Itoa(p.fullMove));
    assert " " + TurnText(p.turn) + " " == turn;
    assert KeyFields(p) + [Itoa(p.halfMove), Itoa(p.fullMove)]
        == [placement, TurnText(p.turn), rights, target, Itoa(p.halfMove), Itoa(p.fullMove)];
  }

  lemma SixFields(a: string, b: string, c: string, d: string, e: string, f: string)
    ensures Join([a, b, c, d, e, f]) == a + (" " + b + " ") + c + " " + d + " " + e + " " + f
  {
    assert Join([e, f]) == e + " " + f;
    assert [d, e, f][1..] == [e, f];
    assert Join([d, e, f]) == d + " " + (e + " " + f);
    assert [c, d, e, f][1..] == [d, e, f];
    assert Join([c, d, e, f]) == c + " " + (d + " " + (e + " " + f));
    assert [b, c, d, e, f][1..] == [c, d, e, f];
    assert [a, b, c, d, e, f][1..] == [b, c, d, e, f];
  }

  // ---- Parsing ----

  /** What is known of a rank when `file` squares of it are read and `rest` is left. */
  ghost predicate RankSoFar(s: string, rest: string, row: seq<Piece>, file: nat) {
    && |row| == 8 && (forall f :: file <= f < 8 ==> row[f] == Empty)
    && (ParseRank(s, 0).Some? <==> ParseRank(rest, file).Some?)
    && (ParseRank(s, 0).Some? ==> ParseRank(s, 0).value == row[..file] + ParseRank(rest, file).value)
  }

  lemma ReadGap(s: string, rest: string, row: seq<Piece>, file: nat)
    requires RankSoFar(s, rest, row, file) && rest != "" && IsGapDigit(rest[0])
    ensures RankSoFar(s, rest[1..], row, file + Digit(rest[0]))
  {}

  lemma {:induction false} ReadPiece(s: string, rest: string, row: seq<Piece>, file: nat)
    requires RankSoFar(s, rest, row, file) && rest != "" && !IsGapDigit(rest[0])
    ensures PieceOf(rest[0]).Some? && file <= 7 ==>
      RankSoFar(s, rest[1..], row[file := PieceOf(rest[0]).value], file + 1)
    ensures !(PieceOf(rest[0]).Some? && file <= 7) ==> ParseRank(s, 0).None?
  {}

  method ReadRank(s: string) returns (row: Option<seq<Piece>>)
    ensures row == ParseRank(s, 0)
  {
    var pieces: seq<Piece> := Blank(8);
    var file := 0;
    assert s[0..] == s && pieces[..0] == [];
    for j := 0 to |s|
      invariant file >= 0 && RankSoFar(s, s[j..], pieces, file)
    {
      var ch := s[j];
      assert s[j..][1..] == s[j + 1..];
      if '1' <= ch <= '8' {
        ReadGap(s, s[j..], pieces, file);
        file := file + Digit(ch);
        continue;
      }
      ReadPiece(s, s[j..], pieces, file);
      var piece := PieceOf(ch);
      if piece.None? || file > 7 {
        return None;
      }
      pieces := pieces[file := piece.value];
      file := file + 1;
    }
    if file != 8 {
      return None;
    }
    assert s[|s|..] == "" && pieces[..8] + [] == pieces;
    return Some(pieces);
  }

  /** Writes eight pieces onto a rank. */
  function SetRank(q: Squares, rank: int, row: seq<Piece>): Squares
    requires 0 <= rank < 8 && |row| == 8
  {
    q[..8 * rank] + row + q[8 * rank + 8..]
  }

  lemma SetRankRows(q: Squares, rank: int, row: seq<Piece>, other: int)
    requires 0 <= rank < 8 && |row| == 8 && 0 <= other < 8
    ensures Row(SetRank(q, rank, row), other) == if other == rank then row else Row(q, other)
  {
    var q' := SetRank(q, rank, row);
    forall f | 0 <= f < 8 ensures Row(q', other)[f] == if other == rank then row[f] else Row(q, other)[f] {
      assert Row(q', other)[f] == q'[8 * other + f];
      if other == rank {
        assert q'[8 * rank + f] == row[f];
      } else {
        SetElsewhere(q, rank, row, 8 * other + f);
      }
    }
  }

  lemma SetElsewhere(q: Squares, rank: int, row: seq<Piece>, s: Square)
    requires 0 <= rank < 8 && |row| == 8 && !(8 * rank <= s < 8 * rank + 8)
    ensures SetRank(q, rank, row)[s] == q[s]
  {}

  /** The first `n` rank texts have been read into the squares. */
  ghost predicate RanksRead(ranks: seq<string>, q: Squares, n: nat)
    requires n <= |ranks| == 8
  {
    forall j :: 0 <= j < n ==> ParseRank(ranks[j], 0) == Some(Row(q, 7 - j))
  }

  lemma RankReadNext(ranks: seq<string>, q: Squares, n: nat, row: seq<Piece>)
    requires n < |ranks| == 8 && RanksRead(ranks, q, n) && ParseRank(ranks[n], 0) == Some(row)
    ensures RanksRead(ranks, SetRank(q, 7 - n, row), n + 1)
  {
    forall j | 0 <= j <= n ensures ParseRank(ranks[j], 0) == Some(Row(SetRank(q, 7 - n, row), 7 - j)) {
      SetRankRows(q, 7 - n, row, 7 - j);
    }
  }

  method ReadPlacement(s: string) returns (squares: Option<Squares>)
    ensures squares == ParsePlacement(s)
  {
    var ranks := Split(s, '/');
    if |ranks| != 8 {
      return None;
    }
    var q: Squares := seq(64, _ => Empty);
    for i := 0 to 8
      invariant RanksRead(ranks, q, i)
    {
      var row := ReadRank(ranks[i]);
      if row.None? {
        return None;
      }
      RankReadNext(ranks, q, i, row.value);
      q := SetRank(q, 7 - i, row.value);
    }
    PlacementOfRows(s, q);
    return Some(q);
  }

  method ReadRights(s: string) returns (rights: Option<Rights>)
    ensures rights == ParseRights(s)
  {
    if s == "-" {
      return Some(NO_RIGHTS);
    }
    var r := NO_RIGHTS;
    assert s[0..] == s;
    for i := 0 to |s|
      invariant ParseRights(s) == ParseLetters(s[i..], r)
    {
      assert s[i..][1..] == s[i + 1..];
      match s[i]
      case 'K' => r := r.(wk := true);
      case 'Q' => r := r.(wq := true);
      case 'k' => r := r.(bk := true);
      case 'q' => r := r.(bq := true);
      case _ => return None;
    }
    return Some(r);
  }

  method ReadFen(s: string) returns (p: Option<Position>)
    ensures p == Parse(s)
  {
    var fields := Fields(s);
    if |fields| != 6 {
      return None;
    }
    var squares := ReadPlacement(fields[0]);
    if squares.None? {
      return None;
    }
    var turn := ParseTurn(fields[1]);
    if turn.None? {
      return None;
    }
    var rights := ReadRights(fields[2]);
    if rights.None? {
      return None;
    }
    var target := ParseTarget(fields[3]);
    if target.None? {
      return None;
    }
    var half, full := Atoi(fields[4]), Atoi(fields[5]);
    if half.None? || half.value < 0 || full.None? || full.value < 1 {
      return None;
    }
    return Some(Position(squares.value, turn.value, rights.value, target.value, half.value, full.value));
  }

  // ---- The starting position ----

  lemma {:induction false} BlankRow(n: nat, empty: nat)
    requires n + empty <= 8
    ensures RankText(Blank(n), empty) == Gap(n + empty)
    decreases n
  {
    if n > 0 {
      BlankRow(n - 1, empty + 1);
      assert Blank(n)[1..] == Blank(n - 1);
    }
  }

  function BackRow(c: Color): seq<Piece> { seq(8, f => Man(c, BackRank(f))) }

  lemma RankStep(row: seq<Piece>, i: nat)
    requires i < |row| <= 8 && row[i].Man?
    ensures RankText(row[i..], 0) == [Letter(row[i])] + RankText(row[i + 1..], 0)
  {}

  lemma {:induction false} MenText(row: seq<Piece>, text: string, i: nat)
    requires |row| == |text| <= 8 && i <= |row|
    requires forall f :: 0 <= f < |row| ==> row[f].Man? && Letter(row[f]) == text[f]
    ensures RankText(row[i..], 0) == text[i..]
    decreases |row| - i
  {
    if i < |row| {
      RankStep(row, i);
      MenText(row, text, i + 1);
    }
  }

  lemma BackRowText(c: Color)
    ensures RankText(BackRow(c), 0) == if c == White then "RNBQKBNR" else "rnbqkbnr"
  {
    var row, text := BackRow(c), if c == White then "RNBQKBNR" else "rnbqkbnr";
    forall f | 0 <= f < 8 ensures row[f].Man? && Letter(row[f]) == text[f] {}
    MenText(row, text, 0);
    assert row[0..] == row && text[0..] == text;
  }

  /** The text of a rank of the starting position. */
  function StartRankText(rank: int): string {
    if rank == 0 then "RNBQKBNR" else if rank == 1 then "PPPPPPPP"
    else if rank == 6 then "pppppppp" else if rank == 7 then "rnbqkbnr" else "8"
  }

  lemma PawnRow(c: Color)
    ensures RankText(seq(8, _ => Man(c, Pawn)), 0) == if c == White then "PPPPPPPP" else "pppppppp"
  {
    var row, text := seq(8, _ => Man(c, Pawn)), if c == White then "PPPPPPPP" else "pppppppp";
    forall f | 0 <= f < 8 ensures row[f].Man? && Letter(row[f]) == text[f] {}
    MenText(row, text, 0);
    assert row[0..] == row && text[0..] == text;
  }

  lemma StartRow(rank: int)
    requires 0 <= rank < 8
    ensures RankText(Row(StartPosition().squares, rank), 0) == StartRankText(rank)
  {
    var row := Row(StartPosition().squares, rank);
    assert forall f :: 0 <= f < 8 ==> row[f] == StartPiece(8 * rank + f);
    if rank == 0 || rank == 7 {
      BackRowText(if rank == 0 then White else Black);
      assert row == BackRow(if rank == 0 then White else Black);
    } else if rank == 1 || rank == 6 {
      PawnRow(if rank == 1 then White else Black);
      var c := if rank == 1 then White else Black;
      assert row == seq(8, _ => Man(c, Pawn));
    } else {
      BlankRow(8, 0);
      assert row == Blank(8);
    }
  }

  lemma StartLowerRanks()
    ensures "8" + "/" + ("8" + "/" + ("8" + "/" + ("8" + "/" + ("PPPPPPPP" + "/" + "RNBQKBNR"))))
        == "8/8/8/8/PPPPPPPP/RNBQKBNR"
  {}

  lemma StartUpperRanks(rest: string)
    ensures "rnbqkbnr" + "/" + ("pppppppp" + "/" + rest) == "rnbqkbnr/pppppppp/" + rest
  {}

  lemma StartAllRanks()
    ensures "rnbqkbnr/pppppppp/" + "8/8/8/8/PPPPPPPP/RNBQKBNR" == "rnbqkbnr/pppppppp/8/8/8/8/PPPPPPPP/RNBQKBNR"
  {}

  lemma {:induction false} StartRanksJoined(t: seq<string>)
    requires t == ["rnbqkbnr", "pppppppp", "8", "8", "8", "8", "PPPPPPPP", "RNBQKBNR"]
    ensures JoinWith(t, '/') == "rnbqkbnr/pppppppp/8/8/8/8/PPPPPPPP/RNBQKBNR"
  {
    EightRanks(t);
    StartLowerRanks();
    StartUpperRanks("8/8/8/8/PPPPPPPP/RNBQKBNR");
    StartAllRanks();
  }

  lemma StartPlacement()
    ensures Placement(StartPosition().squares) == "rnbqkbnr/pppppppp/8/8/8/8/PPPPPPPP/RNBQKBNR"
  {
    var texts := RankTexts(StartPosition().squares);
    forall i | 0 <= i < 8 ensures texts[i] == StartRankText(7 - i) { StartRow(7 - i); }
    StartRanksJoined(texts);
  }

  lemma StartFields(placement: string)
    ensures placement + (" " + "w" + " ") + "KQkq" + " " + "-" + " " + "0" + " " + "1" == placement + " w KQkq - 0 1"
  {}

  lemma StartOtherFields()
    ensures RightsText(StartPosition().castling) == "KQkq" && TurnText(StartPosition().turn) == "w"
    ensures TargetText(StartPosition().enPassant) == "-" && Itoa(0) == "0" && Itoa(1) == "1"
  {}

  /** The built-in starting text is the print of the starting position. */
  lemma StartText()
    ensures Print(StartPosition()) == START_FEN
  {
    var p := StartPosition();
    var placement := Placement(p.squares);
    StartOtherFields();
    assert KeyFields(p) + [Itoa(p.halfMove), Itoa(p.fullMove)] == [placement, "w", "KQkq", "-", "0", "1"];
    SixFields(placement, "w", "KQkq", "-", "0", "1");
    StartFields(placement);
    StartPlacement();
    StartConcat();
  }

  lemma StartConcat()
    ensures "rnbqkbnr/pppppppp/8/8/8/8/PPPPPPPP/RNBQKBNR" + " w KQkq - 0 1" == START_FEN
  {}

  lemma JoinStep(t: seq<string>, i: nat)
    requires i + 1 < |t|
    ensures JoinWith(t[i..], '/') == t[i] + "/" + JoinWith(t[i + 1..], '/')
  {}

  lemma {:induction false} EightRanks(t: seq<string>)
    requires |t| == 8
    ensures JoinWith(t, '/') ==
      t[0] + "/" + (t[1] + "/" + (t[2] + "/" + (t[3] + "/" + (t[4] + "/" + (t[5] + "/" + (t[6] + "/" + t[7]))))))
  {
    assert t[0..] == t && t[7..] == [t[7]];
    JoinStep(t, 0);
    JoinStep(t, 1);
    JoinStep(t, 2);
    JoinStep(t, 3);
    JoinStep(t, 4);
    JoinStep(t, 5);
    JoinStep(t, 6);
  }
}
