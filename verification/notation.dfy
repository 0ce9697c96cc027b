/** Squares and moves in coordinate notation. */
module Notation {
  import opened Board
  import opened Rules

  function FileChar(f: int): char
    requires 0 <= f < 8
  {
    'a' + f as char
  }

  function RankChar(r: int): char
    requires 0 <= r < 8
  {
    '1' + r as char
  }

  function SquareName(s: Square): string {
    [FileChar(FileOf(s)), RankChar(RankOf(s))]
  }

  function ParseSquare(file: char, rank: char): Option<Square> {
    if file < 'a' || file > 'h' || rank < '1' || rank > '8' then None
    else Some(Sq(file as int - 'a' as int, rank as int - '1' as int))
  }

  lemma SquareRoundTrip(s: Square)
    ensures ParseSquare(SquareName(s)[0], SquareName(s)[1]) == Some(s)
  {
    SquareOf(s);
  }

  /** Squares are named along each rank from a to h, and rank by rank from 1 to 8. */
  lemma SquareNames(s: Square)
    ensures SquareName(s) == ["abcdefgh"[s % 8], "12345678"[s / 8]]
  {}

  /** Parsing starts from a1; the next file is the next square, and the next rank is eight squares on. */
  lemma ParsedSquares(file: char, rank: char)
    ensures ParseSquare('a', '1') == Some(0)
    ensures ParseSquare(file, rank).Some? <==> file in "abcdefgh" && rank in "12345678"
    ensures var here := ParseSquare(file, rank);
      && (here.Some? && file != 'h' ==> ParseSquare(file + 1 as char, rank) == Some(here.value + 1))
      && (here.Some? && rank != '8' ==> ParseSquare(file, rank + 1 as char) == Some(here.value + 8))
  {
    if 'a' <= file <= 'h' {
      assert "abcdefgh"[file as int - 'a' as int] == file;
    }
    if '1' <= rank <= '8' {
      assert "12345678"[rank as int - '1' as int] == rank;
    }
  }

  lemma SquareNameOfParsed(file: char, rank: char)
    ensures ParseSquare(file, rank).Some? ==> SquareName(ParseSquare(file, rank).value) == [file, rank]
  {}

  lemma SquareNameInjective(s: Square, t: Square)
    requires SquareName(s) == SquareName(t)
    ensures s == t
  {
    SquareRoundTrip(s);
    SquareRoundTrip(t);
  }

  function PromoLetter(k: Kind): char {
    match k
    case Knight => 'n'
    case Bishop => 'b'
    case Rook => 'r'
    case Queen => 'q'
    case _ => '\0'
  }

  function LetterPromo(c: char): Option<Kind> {
    if c == 'n' then Some(Knight)
    else if c == 'b' then Some(Bishop)
    else if c == 'r' then Some(Rook)
    else if c == 'q' then Some(Queen)
    else None
  }

  function MoveString(m: Move): string {
    SquareName(m.from) + SquareName(m.to) + if m.promotion.Some? then [PromoLetter(m.promotion.value)] else ""
  }

  function ParseMove(s: string): Option<Move> {
    if |s| != 4 && |s| != 5 then None
    else match (ParseSquare(s[0], s[1]), ParseSquare(s[2], s[3]))
      case (Some(from), Some(to)) =>
        if |s| == 4 then Some(Move(from, to, None))
        else if LetterPromo(s[4]).Some? then Some(Move(from, to, LetterPromo(s[4])))
        else None
      case _ => None
  }

  /** The castling moves are written by the king's squares. */
  lemma CastlingNames()
    ensures MoveString(CastleMove(White, true)) == "e1g1" && MoveString(CastleMove(White, false)) == "e1c1"
    ensures MoveString(CastleMove(Black, true)) == "e8g8" && MoveString(CastleMove(Black, false)) == "e8c8"
  {
    SquareNames(4);
    SquareNames(6);
    SquareNames(2);
    SquareNames(60);
    SquareNames(62);
    SquareNames(58);
  }

  predicate Printable(m: Move) {
    m.promotion == None || IsPromotionKind(m.promotion)
  }

  /** Two square names, and a promotion letter or nothing. */
  lemma ParseNamed(a: string, b: string, from: Square, to: Square, promotion: Option<Kind>)
    requires |a| == |b| == 2 && ParseSquare(a[0], a[1]) == Some(from) && ParseSquare(b[0], b[1]) == Some(to)
    requires promotion == None || IsPromotionKind(promotion)
    ensures ParseMove(a + b + if promotion.Some? then [PromoLetter(promotion.value)] else "")
        == Some(Move(from, to, promotion))
  {}

  /** Printing then parsing gives the move back. */
  lemma MoveRoundTrip(m: Move)
    requires Printable(m)
    ensures ParseMove(MoveString(m)) == Some(m)
  {
    SquareRoundTrip(m.from);
    SquareRoundTrip(m.to);
    ParseNamed(SquareName(m.from), SquareName(m.to), m.from, m.to, m.promotion);
  }

  /** What parses is the printed form of exactly one move. */
  lemma ParsedMovePrints(s: string)
    ensures ParseMove(s).Some? ==> Printable(ParseMove(s).value) && MoveString(ParseMove(s).value) == s
  {
    if ParseMove(s).Some? {
      SquareNameOfParsed(s[0], s[1]);
      SquareNameOfParsed(s[2], s[3]);
      var m := ParseMove(s).value;
      assert MoveString(m)[..4] == s[..4];
    }
  }
}
