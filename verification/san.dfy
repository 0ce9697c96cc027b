/** Standard Algebraic Notation and its unambiguity. */
module San {
  import opened Board
  import opened Rules
  import opened Invariant
  import opened Notation

  function PieceLetter(k: Kind): char {
    match k
    case Knight => 'N'
    case Bishop => 'B'
    case Rook => 'R'
    case Queen => 'Q'
    case King => 'K'
    case Pawn => 'P'
  }

  /** Another piece of the same kind on `s` has a legal move to the same square. */
  ghost predicate Rival(p: Position, m: Move, s: Square) {
    s != m.from && p.squares[s] == p.squares[m.from] && exists k :: Legal(p, Move(s, m.to, k))
  }

  ghost function Disambiguation(p: Position, m: Move): string {
    if !exists s: Square :: Rival(p, m, s) then ""
    else if !exists s: Square :: Rival(p, m, s) && FileOf(s) == FileOf(m.from) then [FileChar(FileOf(m.from))]
    else if !exists s: Square :: Rival(p, m, s) && RankOf(s) == RankOf(m.from) then [RankChar(RankOf(m.from))]
    else SquareName(m.from)
  }

  ghost function CheckSuffix(p: Position, m: Move): string {
    var after := Apply(p, m);
    if !Checked(after) then "" else if forall n :: !Legal(after, n) then "#" else "+"
  }

  predicate WritesCapture(p: Position, m: Move) {
    p.squares[m.to].Man? || (IsPawn(p.squares[m.from]) && m.to == p.enPassant)
  }

  /** The notation without the check or mate sign. */
  ghost function Body(p: Position, m: Move): string
    requires p.squares[m.from].Man?
  {
    var kind := p.squares[m.from].kind;
    if IsCastling(p, m) then (if FileOf(m.to) == 2 then "O-O-O" else "O-O")
    else if kind == Pawn then
      (if WritesCapture(p, m) then [FileChar(FileOf(m.from)), 'x'] else "")
      + SquareName(m.to)
      + PromotionText(m.promotion)
    else
      [PieceLetter(kind)] + Disambiguation(p, m) + (if WritesCapture(p, m) then "x" else "") + SquareName(m.to)
  }

  ghost function SanText(p: Position, m: Move): string {
    if p.squares[m.from].Empty? then MoveString(m) else Body(p, m) + CheckSuffix(p, m)
  }

  // ---- Reading the notation back ----

  predicate IsSign(c: char) { c == '+' || c == '#' }

  lemma BodyEnds(p: Position, m: Move)
    requires p.squares[m.from].Man?
    ensures var b := Body(p, m); b != "" && !IsSign(b[|b| - 1])
  {}

  /** The check sign can be cut off unambiguously. */
  lemma SuffixSplits(b: string, s: string, b': string, s': string)
    requires b != "" && b' != "" && !IsSign(b[|b| - 1]) && !IsSign(b'[|b'| - 1])
    requires s in {"", "+", "#"} && s' in {"", "+", "#"} && b + s == b' + s'
    ensures b == b'
  {
    var t := b + s;
    assert t[|t| - 1] == if s == "" then b[|b| - 1] else s[0];
    assert t[|t| - 1] == if s' == "" then b'[|b'| - 1] else s'[0];
    assert |s| == |s'|;
    assert t[..|b|] == b && t[..|b'|] == b';
  }

  /** The first character tells castling, pawn moves and the kinds of piece apart. */
  lemma FirstChar(p: Position, m: Move)
    requires p.squares[m.from].Man?
    ensures Body(p, m) != "" && Starts(p.squares[m.from].kind, IsCastling(p, m), Body(p, m)[0])
  {}

  predicate Starts(kind: Kind, castling: bool, c: char) {
    if castling then c == 'O' else if kind == Pawn then 'a' <= c <= 'h' else c == PieceLetter(kind)
  }

  lemma StartsOneWay(k: Kind, x: bool, l: Kind, y: bool, c: char)
    requires Starts(k, x, c) && Starts(l, y, c)
    ensures x == y && (!x ==> k == l)
  {}

  lemma CastlingDetermined(p: Position, m: Move, n: Move)
    requires PseudoLegal(p, m) && PseudoLegal(p, n) && IsCastling(p, m) && IsCastling(p, n)
    requires Body(p, m) == Body(p, n)
    ensures m == n
  {
    CastlingShape(p, m);
    CastlingShape(p, n);
    Coordinates(6, p.turn.HomeRank());
    Coordinates(2, p.turn.HomeRank());
    assert |Body(p, m)| == if FileOf(m.to) == 2 then 5 else 3;
    assert |Body(p, n)| == if FileOf(n.to) == 2 then 5 else 3;
  }

  /** In a sound position a capture is written exactly for a diagonal pawn move. */
  lemma PawnWritesCapture(p: Position, m: Move)
    requires Sound(p) && PseudoLegal(p, m) && IsPawn(p.squares[m.from])
    ensures WritesCapture(p, m) <==> DF(m) != 0
  {}

  /** The parts of a pawn move's text. */
  lemma PawnText(p: Position, m: Move)
    requires Sound(p) && PseudoLegal(p, m) && IsPawn(p.squares[m.from])
    ensures var b := Body(p, m);
      if DF(m) != 0 then
        |b| >= 4 && b[0] == FileChar(FileOf(m.from)) && b[1] == 'x' && b[2..4] == SquareName(m.to)
        && b[4..] == PromotionText(m.promotion)
      else
        |b| >= 2 && b[0..2] == SquareName(m.to) && b[1] != 'x'
        && b[2..] == PromotionText(m.promotion)
  {
    PawnWritesCapture(p, m);
  }

  /** A square is reached by pushing at most one pawn. */
  lemma PushDetermined(p: Position, m: Move, n: Move)
    requires PseudoLegal(p, m) && PseudoLegal(p, n) && IsPawn(p.squares[m.from]) && IsPawn(p.squares[n.from])
    requires m.to == n.to && DF(m) == 0 && DF(n) == 0
    ensures m.from == n.from
  {}

  lemma PawnDetermined(p: Position, m: Move, n: Move)
    requires Sound(p) && PseudoLegal(p, m) && PseudoLegal(p, n)
    requires IsPawn(p.squares[m.from]) && IsPawn(p.squares[n.from]) && Body(p, m) == Body(p, n)
    ensures m == n
  {
    PawnText(p, m);
    PawnText(p, n);
    assert DF(m) != 0 <==> DF(n) != 0;
    assert SquareName(m.to) == SquareName(n.to);
    SquareNameInjective(m.to, n.to);
    if DF(m) == 0 {
      PushDetermined(p, m, n);
    } else {
      TakeDetermined(p, m, n);
    }
    PromotionDetermined(p, m, n);
  }

  lemma TakeDetermined(p: Position, m: Move, n: Move)
    requires PseudoLegal(p, m) && PseudoLegal(p, n) && IsPawn(p.squares[m.from]) && IsPawn(p.squares[n.from])
    requires m.to == n.to && DF(m) != 0 && DF(n) != 0 && FileChar(FileOf(m.from)) == FileChar(FileOf(n.from))
    ensures m.from == n.from
  {}

  function PromotionText(k: Option<Kind>): string {
    if k.Some? then ['=', PieceLetter(k.value)] else ""
  }

  lemma PromotionTextInjective(a: Option<Kind>, b: Option<Kind>)
    requires (a.Some? ==> IsPromotionKind(a)) && (b.Some? ==> IsPromotionKind(b))
    requires PromotionText(a) == PromotionText(b)
    ensures a == b
  {}

  lemma PawnPromotes(p: Position, m: Move)
    requires PseudoLegal(p, m) && IsPawn(p.squares[m.from])
    ensures m.promotion.Some? ==> IsPromotionKind(m.promotion)
  {}

  lemma PromotionDetermined(p: Position, m: Move, n: Move)
    requires PseudoLegal(p, m) && PseudoLegal(p, n) && IsPawn(p.squares[m.from]) && IsPawn(p.squares[n.from])
    requires PromotionText(m.promotion) == PromotionText(n.promotion)
    ensures m.promotion == n.promotion
  {
    PawnPromotes(p, m);
    PawnPromotes(p, n);
    PromotionTextInjective(m.promotion, n.promotion);
  }

  /** The parts of the text of a move of another piece. */
  lemma PieceText(p: Position, m: Move)
    requires PseudoLegal(p, m) && !IsPawn(p.squares[m.from]) && !IsCastling(p, m)
    ensures var b, x := Body(p, m), if p.squares[m.to].Man? then 1 else 0;
      && |b| == 1 + |Disambiguation(p, m)| + x + 2 && b[0] == PieceLetter(p.squares[m.from].kind)
      && b[1..|b| - 2 - x] == Disambiguation(p, m) && b[|b| - 2..] == SquareName(m.to)
      && m.promotion == None
  {
    CastlingShape(p, m);
  }

  /** What a disambiguation says of a move that has a rival. */
  lemma DisambiguationShape(p: Position, m: Move, s: Square)
    requires Rival(p, m, s)
    ensures var d := Disambiguation(p, m);
      || (d == [FileChar(FileOf(m.from))] && FileOf(s) != FileOf(m.from))
      || (d == [RankChar(RankOf(m.from))] && RankOf(s) != RankOf(m.from))
      || d == SquareName(m.from)
  {}

  lemma NamesApart(f: int, r: int)
    requires 0 <= f < 8 && 0 <= r < 8
    ensures FileChar(f) > RankChar(r)
  {}

  /** Two rivals are never given the same disambiguation. */
  lemma RivalsDiffer(p: Position, m: Move, n: Move)
    requires Rival(p, m, n.from) && Rival(p, n, m.from)
    ensures Disambiguation(p, m) != Disambiguation(p, n)
  {
    var d, e := Disambiguation(p, m), Disambiguation(p, n);
    DisambiguationShape(p, m, n.from);
    DisambiguationShape(p, n, m.from);
    SquareOf(m.from);
    SquareOf(n.from);
    NamesApart(FileOf(m.from), RankOf(n.from));
    NamesApart(FileOf(n.from), RankOf(m.from));
    if SquareName(m.from) == SquareName(n.from) {
      SquareNameInjective(m.from, n.from);
    }
  }

  lemma PieceDetermined(p: Position, m: Move, n: Move)
    requires Legal(p, m) && Legal(p, n) && !IsPawn(p.squares[m.from]) && !IsPawn(p.squares[n.from])
    requires !IsCastling(p, m) && !IsCastling(p, n) && Body(p, m) == Body(p, n)
    ensures m == n
  {
    PieceText(p, m);
    PieceText(p, n);
    assert p.squares[m.from].kind == p.squares[n.from].kind;
    SquareNameInjective(m.to, n.to);
    if m.from != n.from {
      assert Legal(p, Move(n.from, m.to, None)) && Legal(p, Move(m.from, n.to, None));
      RivalsDiffer(p, m, n);
    }
  }

  /** Equal notations have equal bodies. */
  lemma SameBody(p: Position, m: Move, n: Move)
    requires p.squares[m.from].Man? && p.squares[n.from].Man? && SanText(p, m) == SanText(p, n)
    ensures Body(p, m) == Body(p, n)
  {
    BodyEnds(p, m);
    BodyEnds(p, n);
    SuffixSplits(Body(p, m), CheckSuffix(p, m), Body(p, n), CheckSuffix(p, n));
  }

  /** Moves with equal bodies are both castling, both pawn moves, or moves of one kind of piece. */
  lemma SameSort(p: Position, m: Move, n: Move)
    requires p.squares[m.from].Man? && p.squares[n.from].Man? && Body(p, m) == Body(p, n)
    ensures IsCastling(p, m) <==> IsCastling(p, n)
    ensures !IsCastling(p, m) ==> p.squares[m.from].kind == p.squares[n.from].kind
  {
    FirstChar(p, m);
    FirstChar(p, n);
    StartsOneWay(p.squares[m.from].kind, IsCastling(p, m), p.squares[n.from].kind, IsCastling(p, n), Body(p, m)[0]);
  }

  /** Different legal moves of a sound position are written differently. */
  lemma SanInjective(p: Position, m: Move, n: Move)
    requires Sound(p) && Legal(p, m) && Legal(p, n) && SanText(p, m) == SanText(p, n)
    ensures m == n
  {
    SameBody(p, m, n);
    SameSort(p, m, n);
    if IsCastling(p, m) {
      CastlingDetermined(p, m, n);
    } else if IsPawn(p.squares[m.from]) {
      PawnDetermined(p, m, n);
    } else {
      PieceDetermined(p, m, n);
    }
  }
}
