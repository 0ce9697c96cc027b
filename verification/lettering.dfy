/** What the texts of moves and positions say, letter by letter and square by square. */
module Lettering {
  import opened Board
  import opened Rules
  import opened Invariant
  import opened Text
  import opened Notation
  import opened Fen
  import opened FenCodec

  // ---- Letters and digits ----

  lemma LetterTable(c: char)
    ensures PieceOf(c).Some? <==> c in "PNBRQKpnbrqk"
    ensures forall piece :: PieceOf(c) == Some(piece) <==> piece.Man? && Letter(piece) == c
  {
    forall i | 0 <= i < 12 ensures PieceOf("PNBRQKpnbrqk"[i]).Some? {}
    if PieceOf(c).Some? {
      var piece := PieceOf(c).value;
      var kind := match piece.kind
        case Pawn => 0 case Knight => 1 case Bishop => 2 case Rook => 3 case Queen => 4 case King => 5;
      assert "PNBRQKpnbrqk"[if piece.color == White then kind else 6 + kind] == c;
    }
  }

  /** A promotion is written with the letter a position's text has for that black piece, and only a
      knight, bishop, rook or queen can be promoted to. */
  lemma PromotionLetters(k: Kind, c: char)
    ensures IsPromotionKind(Some(k)) ==> PromoLetter(k) == Letter(Man(Black, k))
    ensures LetterPromo(c) == Some(k) <==> k in {Knight, Bishop, Rook, Queen} && PieceOf(c) == Some(Man(Black, k))
  {}

  lemma {:induction false} DigitTable(d: nat)
    requires d < 10
    ensures Itoa(d) == ["0123456789"[d]] && Digit("0123456789"[d]) == d
  {}

  // ---- The text of a rank ----

  /** How many squares a rank's text describes: as many as a digit says, and one for a piece. */
  function Width(s: string): nat {
    if s == "" then 0 else (if IsGapDigit(s[0]) then Digit(s[0]) else 1) + Width(s[1..])
  }

  ghost predicate RankLetters(s: string) {
    forall c :: c in s ==> IsGapDigit(c) || PieceOf(c).Some?
  }

  /** A rank's text is accepted exactly if it describes eight squares in piece letters and digits. */
  lemma {:induction false} RankAccepted(s: string, file: nat)
    ensures ParseRank(s, file).Some? <==> RankLetters(s) && file + Width(s) == 8
    decreases s
  {
    if s != "" {
      RankAccepted(s[1..], if IsGapDigit(s[0]) then file + Digit(s[0]) else file + 1);
      assert RankLetters(s) <==> (IsGapDigit(s[0]) || PieceOf(s[0]).Some?) && RankLetters(s[1..]) by {
        assert s == [s[0]] + s[1..];
      }
    }
  }

  /** Each character describes the squares that follow those of the characters before it. */
  lemma {:induction false} RankSquares(s: string, file: nat, i: nat)
    requires ParseRank(s, file).Some? && i < |s|
    ensures var row, at := ParseRank(s, file).value, Width(s[..i]);
      if IsGapDigit(s[i]) then at + Digit(s[i]) <= |row| && forall k :: at <= k < at + Digit(s[i]) ==> row[k].Empty?
      else at < |row| && PieceOf(s[i]) == Some(row[at])
    decreases s
  {
    if i > 0 {
      RankSquares(s[1..], if IsGapDigit(s[0]) then file + Digit(s[0]) else file + 1, i - 1);
      assert s[..i][1..] == s[1..][..i - 1];
    }
  }

  /** The eight parts between slashes describe the ranks from the eighth down to the first. */
  lemma {:induction false} PlacementAccepted(s: string)
    ensures ParsePlacement(s).Some? <==>
      && |Split(s, '/')| == 8
      && forall i :: 0 <= i < 8 ==> RankLetters(Split(s, '/')[i]) && Width(Split(s, '/')[i]) == 8
    ensures ParsePlacement(s).Some? ==>
      forall t: Square :: ParseRank(Split(s, '/')[7 - RankOf(t)], 0).Some?
        && ParsePlacement(s).value[t] == ParseRank(Split(s, '/')[7 - RankOf(t)], 0).value[FileOf(t)]
  {
    var parts := Split(s, '/');
    if |parts| == 8 {
      forall i | 0 <= i < 8 ensures ParseRank(parts[i], 0).Some? <==> RankLetters(parts[i]) && Width(parts[i]) == 8 {
        RankAccepted(parts[i], 0);
      }
    }
  }

  // ---- Castling rights ----

  lemma {:induction false} LettersAccepted(s: string, r: Rights)
    ensures ParseLetters(s, r).Some? <==> forall c :: c in s ==> c in "KQkq"
    ensures var t := ParseLetters(s, r);
      t.Some? ==> t.value == Rights(r.wk || 'K' in s, r.wq || 'Q' in s, r.bk || 'k' in s, r.bq || 'q' in s)
    decreases s
  {
    if s != "" {
      assert s == [s[0]] + s[1..];
      match s[0]
      case 'K' => LettersAccepted(s[1..], r.(wk := true));
      case 'Q' => LettersAccepted(s[1..], r.(wq := true));
      case 'k' => LettersAccepted(s[1..], r.(bk := true));
      case 'q' => LettersAccepted(s[1..], r.(bq := true));
      case _ => assert s[0] in s && s[0] !in "KQkq";
    }
  }

  /** The rights held are those whose letter is in the text: K and Q for White, k and q for Black. */
  lemma RightsAccepted(s: string)
    ensures ParseRights(s).Some? <==> s == "-" || forall c :: c in s ==> c in "KQkq"
    ensures ParseRights(s).Some? ==> ParseRights(s).value == Rights('K' in s, 'Q' in s, 'k' in s, 'q' in s)
  {
    LettersAccepted(s, NO_RIGHTS);
    if s == "-" {
      assert s[0] == '-';
    }
  }

  // ---- A position's text ----

  lemma {:induction false} BlanksThen(n: nat, rest: seq<Piece>, empty: nat)
    requires n + empty + |rest| < 10
    ensures RankText(Blank(n) + rest, empty) == RankText(rest, n + empty)
    decreases n
  {
    var row := Blank(n) + rest;
    if n == 0 {
      assert row == rest;
    } else {
      assert row[1..] == Blank(n - 1) + rest;
      BlanksThen(n - 1, rest, empty + 1);
    }
  }

  lemma {:induction false} ManThen(man: Piece, rest: seq<Piece>, empty: nat)
    requires man.Man? && 1 + |rest| + empty < 10
    ensures RankText([man] + rest, empty) == Gap(empty) + [Letter(man)] + RankText(rest, 0)
  {
    assert ([man] + rest)[1..] == rest;
  }

  /** A pawn alone on the e-file, and a row of pawns without it. */
  lemma {:induction false} PawnOnE(man: Piece)
    requires man.Man?
    ensures RankText(Blank(4) + ([man] + Blank(3)), 0) == ['4', Letter(man), '3']
  {
    BlanksThen(4, [man] + Blank(3), 0);
    ManThen(man, Blank(3), 4);
    BlankRow(3, 0);
  }

  lemma {:induction false} PawnsButE(man: Piece)
    requires man.Man?
    ensures var l := Letter(man);
      RankText([man] + ([man] + ([man] + ([man] + (Blank(1) + ([man] + ([man] + ([man] + []))))))), 0)
      == [l, l, l, l, '1', l, l, l]
  {
    var three := [man] + ([man] + ([man] + []));
    ManThen(man, [man] + ([man] + ([man] + (Blank(1) + three))), 0);
    ManThen(man, [man] + ([man] + (Blank(1) + three)), 0);
    ManThen(man, [man] + (Blank(1) + three), 0);
    ManThen(man, Blank(1) + three, 0);
    BlanksThen(1, three, 0);
    ManThen(man, [man] + ([man] + []), 1);
    ManThen(man, [man] + [], 0);
    ManThen(man, [], 0);
  }

  /** The position after 1. e4. */
  function KingsPawn(): Position { Apply(StartPosition(), Move(12, 28, None)) }

  lemma KingsPawnSquares(s: Square)
    ensures KingsPawn().squares[s] ==
      if s == 28 then Man(White, Pawn) else if s == 12 then Empty else StartPosition().squares[s]
  {
    assert StartPosition().squares[12] == StartPiece(12);
  }

  /** The squares of the second and fourth ranks. */
  lemma KingsPawnRows()
    ensures var q, man := KingsPawn().squares, Man(White, Pawn);
      && Row(q, 3) == Blank(4) + ([man] + Blank(3))
      && Row(q, 1) == [man] + ([man] + ([man] + ([man] + (Blank(1) + ([man] + ([man] + ([man] + [])))))))
  {
    forall s: Square
      ensures KingsPawn().squares[s] ==
        if s == 28 then Man(White, Pawn) else if s == 12 then Empty else StartPiece(s)
    {
      KingsPawnSquares(s);
      assert StartPosition().squares[s] == StartPiece(s);
    }
  }

  lemma OtherRow(rank: int)
    requires 0 <= rank < 8 && rank != 1 && rank != 3
    ensures Row(KingsPawn().squares, rank) == Row(StartPosition().squares, rank)
  {
    var q, q0 := KingsPawn().squares, StartPosition().squares;
    forall s: Square ensures s != 12 && s != 28 ==> q[s] == q0[s] { KingsPawnSquares(s); }
  }

  lemma KingsPawnRow(rank: int)
    requires 0 <= rank < 8
    ensures RankText(Row(KingsPawn().squares, rank), 0) ==
      if rank == 3 then "4P3" else if rank == 1 then "PPPP1PPP" else StartRankText(rank)
  {
    if rank == 3 {
      KingsPawnRows();
      PawnOnE(Man(White, Pawn));
    } else if rank == 1 {
      KingsPawnRows();
      PawnsButE(Man(White, Pawn));
    } else {
      OtherRow(rank);
      StartRow(rank);
    }
  }

  lemma LowerRanks()
    ensures "8" + "/" + ("8" + "/" + ("4P3" + "/" + ("8" + "/" + ("PPPP1PPP" + "/" + "RNBQKBNR"))))
        == "8/8/4P3/8/PPPP1PPP/RNBQKBNR"
  {}

  lemma {:induction false} KingsPawnJoined(t: seq<string>)
    requires t == ["rnbqkbnr", "pppppppp", "8", "8", "4P3", "8", "PPPP1PPP", "RNBQKBNR"]
    ensures JoinWith(t, '/') == "rnbqkbnr/pppppppp/8/8/4P3/8/PPPP1PPP/RNBQKBNR"
  {
    EightRanks(t);
    LowerRanks();
    StartUpperRanks("8/8/4P3/8/PPPP1PPP/RNBQKBNR");
    JoinedRanks();
  }

  function KingsPawnRankText(i: int): string {
    if i == 4 then "4P3" else if i == 6 then "PPPP1PPP" else StartRankText(7 - i)
  }

  lemma KingsPawnTextAt(i: int)
    requires 0 <= i < 8
    ensures RankTexts(KingsPawn().squares)[i] == KingsPawnRankText(i)
  {
    KingsPawnRow(7 - i);
  }

  lemma TextsListed(t: seq<string>)
    requires |t| == 8 && forall i :: 0 <= i < 8 ==> t[i] == KingsPawnRankText(i)
    ensures t == ["rnbqkbnr", "pppppppp", "8", "8", "4P3", "8", "PPPP1PPP", "RNBQKBNR"]
  {}

  lemma KingsPawnPlacement()
    ensures Placement(KingsPawn().squares) == "rnbqkbnr/pppppppp/8/8/4P3/8/PPPP1PPP/RNBQKBNR"
  {
    var t := RankTexts(KingsPawn().squares);
    forall i | 0 <= i < 8 ensures t[i] == KingsPawnRankText(i) { KingsPawnTextAt(i); }
    TextsListed(t);
    KingsPawnJoined(t);
  }

  lemma JoinedRanks()
    ensures "rnbqkbnr/pppppppp/" + "8/8/4P3/8/PPPP1PPP/RNBQKBNR" == "rnbqkbnr/pppppppp/8/8/4P3/8/PPPP1PPP/RNBQKBNR"
  {}

  lemma KingsPawnFields()
    ensures var p := KingsPawn();
      TurnText(p.turn) == "b" && RightsText(p.castling) == "KQkq" && p.enPassant == 20 && TargetText(20) == "e3"
      && p.halfMove == 0 && p.fullMove == 1 && Itoa(0) == "0" && Itoa(1) == "1"
  {
    assert StartPosition().squares[12] == StartPiece(12);
    SquareNames(20);
  }

  lemma JoinedFields(placement: string)
    ensures placement + (" " + "b" + " ") + "KQkq" + " " + "e3" + " " + "0" + " " + "1" == placement + " b KQkq e3 0 1"
  {}

  lemma KingsPawnConcat(placement: string)
    requires placement == "rnbqkbnr/pppppppp/8/8/4P3/8/PPPP1PPP/RNBQKBNR"
    ensures placement + (" " + "b" + " ") + "KQkq" + " " + "e3" + " " + "0" + " " + "1"
         == "rnbqkbnr/pppppppp/8/8/4P3/8/PPPP1PPP/RNBQKBNR b KQkq e3 0 1"
  {
    JoinedFields(placement);
  }

  /** "e2e4" is the move of the king's pawn by two ranks. */
  lemma KingsPawnMove()
    ensures ParseMove("e2e4") == Some(Move(12, 28, None))
  {}

  lemma PrintOf(p: Position, a: string, b: string, c: string, d: string, e: string, f: string)
    requires WellFormed(p) && a == Placement(p.squares) && b == TurnText(p.turn) && c == RightsText(p.castling)
    requires d == TargetText(p.enPassant) && e == Itoa(p.halfMove) && f == Itoa(p.fullMove)
    ensures Print(p) == a + (" " + b + " ") + c + " " + d + " " + e + " " + f
  {
    assert KeyFields(p) + [Itoa(p.halfMove), Itoa(p.fullMove)] == [a, b, c, d, e, f];
    SixFields(a, b, c, d, e, f);
  }

  /** The text after 1. e4, down to the square the pawn has crossed. */
  lemma KingsPawnText()
    ensures WellFormed(KingsPawn())
    ensures Print(KingsPawn()) == "rnbqkbnr/pppppppp/8/8/4P3/8/PPPP1PPP/RNBQKBNR b KQkq e3 0 1"
  {
    var placement := Placement(KingsPawn().squares);
    KingsPawnFields();
    PrintOf(KingsPawn(), placement, "b", "KQkq", "e3", "0", "1");
    KingsPawnPlacement();
    KingsPawnConcat(placement);
  }
}
