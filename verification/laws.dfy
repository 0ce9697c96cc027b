/** The rules in other words: what they mean for squares, pieces and whole games. */
module Laws {
  import opened Board
  import opened Rules
  import opened Invariant

  // ---- Geometry ----

  /** The knight goes to the nearest squares that are on no common rank, file or diagonal. */
  lemma KnightLaw(df: int, dr: int)
    ensures KnightLeap(df, dr) <==> Dist(df, dr) == 2 && !Diagonal(df, dr) && !Straight(df, dr)
  {}

  lemma LineLaws(df: int, dr: int)
    ensures Diagonal(df, dr) <==> df != 0 && (dr == df || dr == -df)
    ensures Straight(df, dr) <==> (df == 0 && dr != 0) || (df != 0 && dr == 0)
    ensures KingStep(df, dr) <==> Dist(df, dr) == 1
  {}

  /** `x` lies strictly between `a` and `b`. */
  predicate Between(a: int, x: int, b: int) { a < x < b || b < x < a }

  /** A rook bears on the squares of its rank and file up to the first man it meets. */
  lemma RookLaw(q: Squares, c: Color, f: int, r: int, tf: int, tr: int)
    ensures Bears(q, Man(c, Rook), f, r, tf, tr) <==>
      || (tf == f && tr != r && forall x :: Between(r, x, tr) ==> At(q, f, x).Empty?)
      || (tr == r && tf != f && forall x :: Between(f, x, tf) ==> At(q, x, r).Empty?)
  {
    if Straight(tf - f, tr - r) {
      ClearIs(q, f, r, tf, tr);
    }
  }

  /** A bishop bears on the squares of its two diagonals up to the first man it meets. */
  lemma BishopLaw(q: Squares, c: Color, f: int, r: int, tf: int, tr: int)
    ensures Bears(q, Man(c, Bishop), f, r, tf, tr) <==>
      && tf != f && (tr - r == tf - f || tr - r == f - tf)
      && forall x :: Between(f, x, tf) ==> At(q, x, if tr - r == tf - f then r + x - f else r - x + f).Empty?
  {
    if Diagonal(tf - f, tr - r) {
      ClearIs(q, f, r, tf, tr);
    }
  }

  /** A line is clear when each square between its ends is empty. */
  lemma ClearIs(q: Squares, f: int, r: int, tf: int, tr: int)
    requires Straight(tf - f, tr - r) || Diagonal(tf - f, tr - r)
    ensures tf == f ==> (Clear(q, f, r, tf, tr) <==> forall x :: Between(r, x, tr) ==> At(q, f, x).Empty?)
    ensures tf != f ==> (Clear(q, f, r, tf, tr) <==>
      forall x :: Between(f, x, tf) ==> At(q, x, Height(f, r, tf, tr, x)).Empty?)
  {
    var n, sf, sr := Dist(tf - f, tr - r), Sign(tf - f), Sign(tr - r);
    if Clear(q, f, r, tf, tr) {
      forall x | Between(r, x, tr) ensures tf == f ==> At(q, f, x).Empty? {
        assert tf == f ==> RayAt(q, f, r, sf, sr, Abs(x - r)) == At(q, f, x);
      }
      forall x | Between(f, x, tf) ensures At(q, x, Height(f, r, tf, tr, x)).Empty? {
        assert RayAt(q, f, r, sf, sr, Abs(x - f)) == At(q, x, Height(f, r, tf, tr, x));
      }
    } else {
      var k :| 0 < k < n && !RayAt(q, f, r, sf, sr, k).Empty?;
      var x, y := f + Along(sf, k), r + Along(sr, k);
      assert tf == f ==> Between(r, y, tr) && x == f;
      assert tf != f ==> Between(f, x, tf) && y == Height(f, r, tf, tr, x);
    }
  }

  /** The rank at which a line from (f, r) to (tf, tr) crosses the file x. */
  function Height(f: int, r: int, tf: int, tr: int, x: int): int {
    if tr == r then r else if tr - r == tf - f then r + x - f else r - x + f
  }

  /** A queen bears on what a rook or a bishop would; the other pieces do not mind what is between. */
  lemma OtherPieceLaws(q: Squares, c: Color, f: int, r: int, tf: int, tr: int)
    ensures Bears(q, Man(c, Queen), f, r, tf, tr) <==>
      Bears(q, Man(c, Rook), f, r, tf, tr) || Bears(q, Man(c, Bishop), f, r, tf, tr)
    ensures Bears(q, Man(c, King), f, r, tf, tr) <==> Dist(tf - f, tr - r) == 1
    ensures Bears(q, Man(c, Knight), f, r, tf, tr) <==>
      Dist(tf - f, tr - r) == 2 && tf != f && tr != r && Abs(tf - f) != Abs(tr - r)
    ensures Bears(q, Man(c, Pawn), f, r, tf, tr) <==>
      (tf == f + 1 || tf == f - 1) && tr == if c == White then r + 1 else r - 1
  {}

  /** White's pawns go up the board and Black's down, at most two ranks and one file. */
  lemma PawnsAdvance(p: Position, m: Move)
    requires PseudoLegal(p, m) && IsPawn(p.squares[m.from])
    ensures if p.turn == White then RankOf(m.from) < RankOf(m.to) <= RankOf(m.from) + 2
            else RankOf(m.from) - 2 <= RankOf(m.to) < RankOf(m.from)
    ensures Abs(DF(m)) <= 1 && (Abs(DR(m)) == 2 ==> DF(m) == 0 && RankOf(m.from) == if p.turn == White then 1 else 6)
  {}

  /** On reaching the far rank, and only there, a pawn becomes a queen, rook, bishop or knight. */
  lemma PawnsPromote(p: Position, m: Move)
    requires Sound(p) && PseudoLegal(p, m) && IsPawn(p.squares[m.from])
    ensures if RankOf(m.to) == (if p.turn == White then 7 else 0)
            then m.promotion.Some? && m.promotion.value in {Queen, Rook, Bishop, Knight} else m.promotion == None
  {}

  // ---- Castling, square by square ----

  ghost predicate Safe(p: Position, squares: set<Square>) {
    forall s: Square :: s in squares ==> !SquareAttacked(p.squares, s, p.turn.Opposite())
  }

  lemma SafeThree(p: Position, a: Square, b: Square, c: Square)
    ensures Safe(p, {a, b, c}) <==>
      !SquareAttacked(p.squares, a, p.turn.Opposite()) && !SquareAttacked(p.squares, b, p.turn.Opposite())
      && !SquareAttacked(p.squares, c, p.turn.Opposite())
  {}

  /** King and rook at home, the right held, nothing between them, and no attack on the king's walk. */
  lemma WhiteCastlingLaw(p: Position)
    requires p.turn == White
    ensures var q := p.squares;
      && (Castles(p, Move(4, 6, None)) <==>
            && p.castling.wk && q[4] == Man(White, King) && q[7] == Man(White, Rook)
            && q[5].Empty? && q[6].Empty? && Safe(p, {4, 5, 6}))
      && (Castles(p, Move(4, 2, None)) <==>
            && p.castling.wq && q[4] == Man(White, King) && q[0] == Man(White, Rook)
            && q[1].Empty? && q[2].Empty? && q[3].Empty? && Safe(p, {2, 3, 4}))
  {
    SafeThree(p, 4, 5, 6);
    SafeThree(p, 2, 3, 4);
    CastlingIs(p, true);
    CastlingIs(p, false);
  }

  lemma BlackCastlingLaw(p: Position)
    requires p.turn == Black
    ensures var q := p.squares;
      && (Castles(p, Move(60, 62, None)) <==>
            && p.castling.bk && q[60] == Man(Black, King) && q[63] == Man(Black, Rook)
            && q[61].Empty? && q[62].Empty? && Safe(p, {60, 61, 62}))
      && (Castles(p, Move(60, 58, None)) <==>
            && p.castling.bq && q[60] == Man(Black, King) && q[56] == Man(Black, Rook)
            && q[57].Empty? && q[58].Empty? && q[59].Empty? && Safe(p, {58, 59, 60}))
  {
    SafeThree(p, 60, 61, 62);
    SafeThree(p, 58, 59, 60);
    CastlingIs(p, true);
    CastlingIs(p, false);
  }

  lemma CastlingIs(p: Position, kingSide: bool)
    ensures Castles(p, CastleMove(p.turn, kingSide)) <==> MayCastle(p, kingSide)
    ensures MayCastle(p, kingSide) <==>
      var q, r, enemy := p.squares, p.turn.HomeRank(), p.turn.Opposite();
      && HasRight(p.castling, p.turn, kingSide) && At(q, 4, r) == Man(p.turn, King) && !Attacked(q, 4, r, enemy)
      && if kingSide then
           && At(q, 7, r) == Man(p.turn, Rook) && At(q, 5, r).Empty? && At(q, 6, r).Empty?
           && !Attacked(q, 5, r, enemy) && !Attacked(q, 6, r, enemy)
         else
           && At(q, 0, r) == Man(p.turn, Rook) && At(q, 1, r).Empty? && At(q, 2, r).Empty? && At(q, 3, r).Empty?
           && !Attacked(q, 2, r, enemy) && !Attacked(q, 3, r, enemy)
  {}

  /** Castling puts the king on the g or c file and the rook on the square it has crossed. */
  lemma CastlingPlaces(p: Position, m: Move)
    requires PseudoLegal(p, m) && Castles(p, m)
    ensures var q, a := p.squares, SquaresAfter(p, m);
      var K, R := Man(p.turn, King), Man(p.turn, Rook);
      || (m == Move(4, 6, None) && a == q[4 := Empty][5 := R][6 := K][7 := Empty])
      || (m == Move(4, 2, None) && a == q[4 := Empty][3 := R][2 := K][0 := Empty])
      || (m == Move(60, 62, None) && a == q[60 := Empty][61 := R][62 := K][63 := Empty])
      || (m == Move(60, 58, None) && a == q[60 := Empty][59 := R][58 := K][56 := Empty])
  {
    CastlingShape(p, m);
    var kingSide :| CastlesOn(p, m, kingSide);
  }

  /** The mover leaves its square and stands on its destination, as what it promotes to if it does. */
  lemma MoverLands(p: Position, m: Move)
    requires Sound(p) && PseudoLegal(p, m)
    ensures SquaresAfter(p, m)[m.from].Empty?
    ensures SquaresAfter(p, m)[m.to] ==
      if m.promotion.Some? then Man(p.turn, m.promotion.value) else p.squares[m.from]
  {
    Elsewhere(p, m);
  }

  // ---- The en-passant target ----

  /** After a move there is a target exactly when a pawn has moved two ranks: the square it crossed. */
  lemma TargetIff(p: Position, m: Move)
    requires PseudoLegal(p, m)
    ensures var t := Apply(p, m).enPassant;
      if IsPawn(p.squares[m.from]) && Abs(DR(m)) == 2
      then t == m.from + 8 * p.turn.Forward() == m.to - 8 * p.turn.Forward() else t == NO_SQUARE
  {
    if IsPawn(p.squares[m.from]) && Abs(DR(m)) == 2 {
      assert DoublePush(p.squares, p.turn, m);
      DoublePushSquares(p, m);
    }
  }

  /** A pawn that has moved two ranks can be taken there by any enemy pawn beside it. */
  lemma EnPassantOffered(p: Position, m: Move, s: Square)
    requires Sound(p) && PseudoLegal(p, m) && IsPawn(p.squares[m.from]) && Abs(DR(m)) == 2
    requires p.squares[s] == Man(p.turn.Opposite(), Pawn)
    requires RankOf(s) == RankOf(m.to) && Abs(FileOf(s) - FileOf(m.to)) == 1
    ensures var q := Apply(p, m);
      0 <= q.enPassant < 64 && Takes(q, Move(s, q.enPassant, None), m.to)
  {
    var q := Apply(p, m);
    TargetIff(p, m);
    DoublePushAfter(p, m);
    DoublePushSquares(p, m);
    CrossedRank(p, m, s);
    EnPassantKept(p, m);
    var n := Move(s, q.enPassant, None);
    assert q.squares[s] == Man(q.turn, Pawn) && PawnCapture(q.turn, DF(n), DR(n));
  }

  lemma CrossedRank(p: Position, m: Move, s: Square)
    requires DoublePush(p.squares, p.turn, m) && RankOf(s) == RankOf(m.to) && Abs(FileOf(s) - FileOf(m.to)) == 1
    ensures var t := m.to - 8 * p.turn.Forward();
      0 <= t < 64 && FileOf(t) == FileOf(m.to) && RankOf(t) == RankOf(s) - p.turn.Forward() && s != m.from && s != m.to
  {}

  /** The move is allowed by the pieces, lands on an empty square, and removes what stood on `victim`. */
  ghost predicate Takes(p: Position, m: Move, victim: Square) {
    && PseudoLegal(p, m) && p.squares[m.to].Empty? && p.squares[victim] == Man(p.turn.Opposite(), Pawn)
    && SquaresAfter(p, m) == p.squares[m.from := Empty][m.to := p.squares[m.from]][victim := Empty]
  }

  // ---- Whole games ----

  /** The positions of a game from the start, before and after each of its plies. */
  ghost predicate Game(ps: seq<Position>, ms: seq<Move>) {
    |ps| == |ms| + 1 && ps[0] == StartPosition() && forall i :: 0 <= i < |ms| ==> Ply(ps, ms, i)
  }

  ghost predicate Ply(ps: seq<Position>, ms: seq<Move>, i: nat)
    requires i < |ms| < |ps|
  {
    Legal(ps[i], ms[i]) && ps[i + 1] == Apply(ps[i], ms[i])
  }

  function Positions(p: Position, ms: seq<Move>): (ps: seq<Position>)
    ensures |ps| == |ms| + 1 && ps[0] == p
    decreases ms
  {
    if ms == [] then [p] else [p] + Positions(Apply(p, ms[0]), ms[1..])
  }

  lemma {:induction false} PositionsPlayed(p: Position, ms: seq<Move>)
    requires Playable(p, ms)
    ensures forall i :: 0 <= i < |ms| ==> Ply(Positions(p, ms), ms, i)
    ensures Positions(p, ms)[|ms|] == Replay(p, ms)
    decreases ms
  {
    if ms != [] {
      var q, rest := Apply(p, ms[0]), ms[1..];
      PositionsPlayed(q, rest);
      forall i | 0 <= i < |ms| ensures Ply(Positions(p, ms), ms, i) {
        assert i > 0 ==> Ply(Positions(q, rest), rest, i - 1);
      }
    }
  }

  /** Every playable list of moves is a game, and its last position is where it leads. */
  lemma GameOf(ms: seq<Move>) returns (ps: seq<Position>)
    requires Playable(StartPosition(), ms)
    ensures Game(ps, ms) && ps[|ms|] == Replay(StartPosition(), ms)
  {
    ps := Positions(StartPosition(), ms);
    PositionsPlayed(StartPosition(), ms);
  }

  lemma {:induction false} GameIsSound(ps: seq<Position>, ms: seq<Move>, n: nat)
    requires Game(ps, ms) && n <= |ms|
    ensures Sound(ps[n])
  {
    if n == 0 {
      StartIsSound();
    } else {
      GameIsSound(ps, ms, n - 1);
      assert Ply(ps, ms, n - 1);
      LegalKeepsSound(ps[n - 1], ms[n - 1]);
    }
  }

  /** White is to move after an even number of plies, and the move number counts both sides' plies. */
  lemma {:induction false} NumbersOfGame(ps: seq<Position>, ms: seq<Move>, n: nat)
    requires Game(ps, ms) && n <= |ms|
    ensures ps[n].turn == (if n % 2 == 0 then White else Black) && ps[n].fullMove == 1 + n / 2
  {
    if n > 0 {
      NumbersOfGame(ps, ms, n - 1);
      assert Ply(ps, ms, n - 1);
    }
  }

  /** The ply moves a piece other than a pawn to an empty square. */
  ghost predicate Quiet(ps: seq<Position>, ms: seq<Move>, i: nat)
    requires i < |ms| < |ps|
  {
    !IsPawn(ps[i].squares[ms[i].from]) && ps[i].squares[ms[i].to].Empty?
  }

  /** The last `h` of the first `n` plies are quiet, and the one before is not. */
  ghost predicate QuietSince(ps: seq<Position>, ms: seq<Move>, n: nat, h: int)
    requires n <= |ms| < |ps|
  {
    && 0 <= h <= n && (forall i :: n - h <= i < n ==> Quiet(ps, ms, i))
    && (h < n ==> !Quiet(ps, ms, n - h - 1))
  }

  /** The half-move clock is the number of plies since the last pawn move or capture. */
  lemma {:induction false} ClockOfGame(ps: seq<Position>, ms: seq<Move>, n: nat)
    requires Game(ps, ms) && n <= |ms|
    ensures QuietSince(ps, ms, n, ps[n].halfMove)
  {
    if n > 0 {
      ClockOfGame(ps, ms, n - 1);
      assert Ply(ps, ms, n - 1);
    }
  }

  /** No ply has moved the king or the rook from home, nor taken the rook there. */
  ghost predicate Untouched(ms: seq<Move>, n: nat, king: Square, rook: Square)
    requires n <= |ms|
  {
    forall i :: 0 <= i < n ==> ms[i].from != king && ms[i].from != rook && ms[i].to != rook
  }

  /** One ply loses a right exactly so. */
  lemma RightsOfPly(p: Position, m: Move)
    requires Sound(p) && PseudoLegal(p, m)
    ensures var r, r' := p.castling, Apply(p, m).castling;
      && (r'.wk <==> r.wk && m.from != 4 && m.from != 7 && m.to != 7)
      && (r'.wq <==> r.wq && m.from != 4 && m.from != 0 && m.to != 0)
      && (r'.bk <==> r.bk && m.from != 60 && m.from != 63 && m.to != 63)
      && (r'.bq <==> r.bq && m.from != 60 && m.from != 56 && m.to != 56)
  {
    assert KingHome(White) == 4 && KingHome(Black) == 60;
    assert HasRight(p.castling, White, true) || HasRight(p.castling, White, false) ==> p.squares[4] == Man(White, King);
    assert HasRight(p.castling, Black, true) || HasRight(p.castling, Black, false) ==>
      p.squares[60] == Man(Black, King);
    var k: Square :| KingAt(p.squares, White, k);
    var l: Square :| KingAt(p.squares, Black, l);
  }

  /** A castling right is held exactly as long as its king and rook have stayed at home. */
  lemma {:induction false} RightsOfGame(ps: seq<Position>, ms: seq<Move>, n: nat)
    requires Game(ps, ms) && n <= |ms|
    ensures var r := ps[n].castling;
      && (r.wk <==> Untouched(ms, n, 4, 7)) && (r.wq <==> Untouched(ms, n, 4, 0))
      && (r.bk <==> Untouched(ms, n, 60, 63)) && (r.bq <==> Untouched(ms, n, 60, 56))
  {
    if n > 0 {
      RightsOfGame(ps, ms, n - 1);
      GameIsSound(ps, ms, n - 1);
      assert Ply(ps, ms, n - 1);
      RightsOfPly(ps[n - 1], ms[n - 1]);
    }
  }

  // ---- Check and mate ----

  /** A man of the other side attacks a king of this colour. */
  ghost predicate KingHit(q: Squares, c: Color) {
    exists k: Square, s: Square :: q[k] == Man(c, King) && AttacksFrom(q, s, c.Opposite(), FileOf(k), RankOf(k))
  }

  lemma CheckedIsHit(p: Position)
    ensures Checked(p) ==> KingHit(p.squares, p.turn)
    ensures OneKing(p.squares, p.turn) && KingHit(p.squares, p.turn) ==> Checked(p)
  {
    var q, c := p.squares, p.turn;
    if OneKing(q, c) && KingHit(q, c) {
      var k: Square, s: Square :| q[k] == Man(c, King) && AttacksFrom(q, s, c.Opposite(), FileOf(k), RankOf(k));
      assert IsKingSquare(q, c, k) && SquareAttacked(q, k, c.Opposite());
    }
  }

  /** The loser is to move, its king is attacked, and it has no legal move. */
  ghost predicate Mated(p: Position, loser: Color) {
    p.turn == loser && KingHit(p.squares, loser) && forall m :: !Legal(p, m)
  }

  // ---- The first move ----

  /** White's pieces that can move at the start: a pawn by one rank or two, or a knight. */
  predicate FirstMove(m: Move) {
    m.promotion == None && (
      || (8 <= m.from < 16 && (m.to == m.from + 8 || m.to == m.from + 16))
      || (m.from == 1 && (m.to == 16 || m.to == 18)) || (m.from == 6 && (m.to == 21 || m.to == 23)))
  }

  lemma StartSquares(s: Square)
    ensures StartPosition().squares[s] == StartPiece(s)
  {}

  lemma FirstPawnMove(m: Move)
    requires 8 <= m.from < 16
    ensures PseudoLegal(StartPosition(), m) <==> FirstMove(m)
  {
    StartSquares(m.from);
    StartSquares(m.to);
  }

  lemma FirstKnightMove(m: Move)
    requires m.from == 1 || m.from == 6
    ensures PseudoLegal(StartPosition(), m) <==> FirstMove(m)
  {
    StartSquares(m.from);
    StartSquares(m.to);
  }

  /** A rook, bishop or queen with an own man next to it in a direction has no move in it. */
  lemma BlockedBeside(p: Position, m: Move)
    requires p.squares[m.from].Man? && p.squares[m.from].kind in {Rook, Bishop, Queen}
    requires Own(At(p.squares, FileOf(m.from) + Sign(DF(m)), RankOf(m.from) + Sign(DR(m))), p.turn)
    ensures !PieceMoves(p, m)
  {
    var q, f, r, sf, sr := p.squares, FileOf(m.from), RankOf(m.from), Sign(DF(m)), Sign(DR(m));
    SquareOf(m.to);
    if Dist(DF(m), DR(m)) > 1 {
      assert RayAt(q, f, r, sf, sr, 1) == At(q, f + sf, r + sr);
      assert Clear(q, f, r, FileOf(m.to), RankOf(m.to)) ==> RayAt(q, f, r, sf, sr, 1).Empty?;
    }
  }

  lemma FirstRank(f: int, r: int)
    requires 0 <= f < 8 && 0 <= r < 2
    ensures Own(At(StartPosition().squares, f, r), White)
  {
    Coordinates(f, r);
    StartSquares(Sq(f, r));
  }

  lemma FirstRookMove(m: Move)
    requires m.from in {0, 2, 3, 5, 7}
    ensures !PseudoLegal(StartPosition(), m)
  {
    StartSquares(m.from);
    SquareOf(m.to);
    FirstRank(FileOf(m.from) + Sign(DF(m)), RankOf(m.from) + Sign(DR(m)));
    BlockedBeside(StartPosition(), m);
  }

  lemma FirstKingMove(m: Move)
    requires m.from == 4
    ensures !PseudoLegal(StartPosition(), m)
  {
    StartSquares(m.from);
    StartSquares(m.to);
    NoFirstCastling(m);
  }

  lemma NoFirstCastling(m: Move)
    ensures !Castles(StartPosition(), m)
  {
    StartSquares(5);
    StartSquares(3);
    WhiteCastlingLaw(StartPosition());
    assert CastleMove(White, true) == Move(4, 6, None) && CastleMove(White, false) == Move(4, 2, None);
    CastlingIs(StartPosition(), true);
    CastlingIs(StartPosition(), false);
  }

  lemma FirstOthers(m: Move)
    requires m.from >= 16
    ensures !PseudoLegal(StartPosition(), m)
  {
    StartSquares(m.from);
  }

  /** No black piece is on a line with e1, or near it. */
  lemma FirstMoveSafe(m: Move, s: Square)
    requires FirstMove(m)
    ensures !AttacksFrom(SquaresAfter(StartPosition(), m), s, Black, 4, 0)
  {
    StartSquares(s);
    StartSquares(m.from);
    StartSquares(m.to);
  }

  /** White has exactly the twenty first moves. */
  lemma FirstMoves(m: Move)
    ensures Legal(StartPosition(), m) <==> FirstMove(m)
  {
    if m.from >= 16 {
      FirstOthers(m);
    } else if m.from >= 8 {
      FirstPawnMove(m);
    } else if m.from == 1 || m.from == 6 {
      FirstKnightMove(m);
    } else if m.from == 4 {
      FirstKingMove(m);
    } else {
      FirstRookMove(m);
    }
    if FirstMove(m) {
      forall s: Square ensures !AttacksFrom(SquaresAfter(StartPosition(), m), s, Black, 4, 0) { FirstMoveSafe(m, s); }
      FirstKingStays(m);
      KingAttackedAt(SquaresAfter(StartPosition(), m), White, 4);
    }
  }

  lemma FirstKingStays(m: Move)
    requires FirstMove(m) && PseudoLegal(StartPosition(), m)
    ensures KingAt(SquaresAfter(StartPosition(), m), White, 4)
  {
    StartKings();
    StartSquares(m.from);
    StartSquares(m.to);
  }
}
