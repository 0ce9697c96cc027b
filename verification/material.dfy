/** Conservation of material and the bound on the length of a game. */
module Material {
  import opened Board
  import opened Rules
  import opened Invariant

  /** The sum of a weight over the first `n` squares. */
  function Sum(q: Squares, w: (Piece, int) -> int, n: nat): int
    requires n <= 64
  {
    if n == 0 then 0 else Sum(q, w, n - 1) + w(q[n - 1], n - 1)
  }

  function Total(q: Squares, w: (Piece, int) -> int): int { Sum(q, w, 64) }

  lemma {:induction false} SumUpdate(q: Squares, w: (Piece, int) -> int, n: nat, s: Square, x: Piece)
    requires n <= 64
    ensures Sum(q[s := x], w, n) == Sum(q, w, n) + if s < n then w(x, s) - w(q[s], s) else 0
  {
    if n > 0 {
      SumUpdate(q, w, n - 1, s, x);
    }
  }

  /** One for every man of colour `c`. */
  function CountOf(c: Color): (Piece, int) -> int {
    (piece, s) => if Own(piece, c) then 1 else 0
  }

  function Men(q: Squares, c: Color): int { Total(q, CountOf(c)) }

  /** One for every man, and for a pawn also the ranks it has left to advance. */
  function Weight(piece: Piece, s: int): int {
    if piece.Empty? then 0
    else if piece.kind != Pawn then 1
    else 1 + if piece.color == White then 7 - RankOf(s) else RankOf(s)
  }

  function Mass(q: Squares): int { Total(q, Weight) }

  predicate Captures(p: Position, m: Move) {
    p.squares[m.to].Man? || TakesEnPassant(p, m)
  }

  /** Taking a piece away from one square and putting one on another. */
  lemma TotalMoved(q: Squares, w: (Piece, int) -> int, from: Square, to: Square, x: Piece)
    requires from != to && forall s :: w(Empty, s) == 0
    ensures Total(q[from := Empty][to := x], w) == Total(q, w) - w(q[from], from) - w(q[to], to) + w(x, to)
  {
    SumUpdate(q, w, 64, from, Empty);
    SumUpdate(q[from := Empty], w, 64, to, x);
  }

  /** What a move adds to a sum beside its own two squares: the pawn taken en passant is gone, the
      castling rook has moved. */
  function Aside(p: Position, m: Move, w: (Piece, int) -> int): int {
    if TakesEnPassant(p, m) then -w(Man(p.turn.Opposite(), Pawn), Victim(p.turn, m.to))
    else if IsCastling(p, m) then
      var kingSide := FileOf(m.to) == 6;
      w(Man(p.turn, Rook), RookAway(p.turn, kingSide)) - w(Man(p.turn, Rook), RookHome(p.turn, kingSide))
    else 0
  }

  /** How a legal move changes any sum that ignores empty squares. */
  lemma TotalAfter(p: Position, m: Move, w: (Piece, int) -> int)
    requires Sound(p) && PseudoLegal(p, m)
    requires forall s :: w(Empty, s) == 0
    ensures Total(SquaresAfter(p, m), w) - Total(p.squares, w) ==
      w(Landing(p, m), m.to) - w(p.squares[m.from], m.from) - w(p.squares[m.to], m.to) + Aside(p, m, w)
  {
    var e := EffectOf(p, m);
    DestinationFree(p, m);
    TotalMoved(p.squares, w, m.from, m.to, Landing(p, m));
    var q := p.squares[m.from := Empty][m.to := Landing(p, m)];
    match e
    case Plain =>
    case EnPassant =>
      SumUpdate(q, w, 64, Victim(p.turn, m.to), Empty);
    case Castling(kingSide) =>
      RookMoved(p, m, w, kingSide);
  }

  lemma RookMoved(p: Position, m: Move, w: (Piece, int) -> int, kingSide: bool)
    requires CastlesOn(p, m, kingSide) && forall s :: w(Empty, s) == 0
    ensures Total(SquaresAfter(p, m), w) == Total(p.squares[m.from := Empty][m.to := Man(p.turn, King)], w)
      + w(Man(p.turn, Rook), RookAway(p.turn, kingSide)) - w(Man(p.turn, Rook), RookHome(p.turn, kingSide))
  {
    TotalMoved(p.squares[m.from := Empty][m.to := Man(p.turn, King)], w,
               RookHome(p.turn, kingSide), RookAway(p.turn, kingSide), Man(p.turn, Rook));
  }

  /** Each ply keeps the mover's men and takes one of the opponent's exactly when it captures. */
  lemma MenAfter(p: Position, m: Move)
    requires Sound(p) && PseudoLegal(p, m)
    ensures Men(SquaresAfter(p, m), p.turn) == Men(p.squares, p.turn)
    ensures Men(SquaresAfter(p, m), p.turn.Opposite())
            == Men(p.squares, p.turn.Opposite()) - if Captures(p, m) then 1 else 0
  {
    DestinationFree(p, m);
    TotalAfter(p, m, CountOf(p.turn));
    TotalAfter(p, m, CountOf(p.turn.Opposite()));
  }

  /** A pawn move or a capture lowers the mass; any other move keeps it. */
  lemma MassAfter(p: Position, m: Move)
    requires Sound(p) && PseudoLegal(p, m)
    ensures Irreversible(p, m) ==> Mass(SquaresAfter(p, m)) < Mass(p.squares)
    ensures !Irreversible(p, m) ==> Mass(SquaresAfter(p, m)) == Mass(p.squares)
  {
    TotalAfter(p, m, Weight);
    LandingWeight(p, m);
  }

  lemma LandingWeight(p: Position, m: Move)
    requires Sound(p) && PseudoLegal(p, m)
    ensures Weight(Landing(p, m), m.to) <=
        Weight(p.squares[m.from], m.from) - if IsPawn(p.squares[m.from]) then 1 else 0
    ensures !IsPawn(p.squares[m.from]) ==> Weight(Landing(p, m), m.to) == 1
    ensures p.squares[m.to].Man? ==> Weight(p.squares[m.to], m.to) >= 1
    ensures TakesEnPassant(p, m) ==> Weight(Man(p.turn.Opposite(), Pawn), Victim(p.turn, m.to)) >= 1
  {
    SquareOf(m.from);
    SquareOf(m.to);
  }

  /** Falls with every ply until the fifty-move rule ends the game. */
  function Ranking(p: Position): int {
    100 * Mass(p.squares) + (100 - p.halfMove)
  }

  lemma RankingFalls(p: Position, m: Move)
    requires Sound(p) && Legal(p, m) && p.halfMove < 100
    ensures Ranking(Apply(p, m)) < Ranking(p) && 0 <= Apply(p, m).halfMove <= 100
  {
    MassAfter(p, m);
  }

  lemma {:induction false} MassNonNegative(q: Squares, n: nat)
    requires n <= 64
    ensures Sum(q, Weight, n) >= 0
  {
    if n > 0 {
      MassNonNegative(q, n - 1);
      SquareOf(n - 1);
    }
  }

  /** The moves are played from positions where the fifty-move rule has not ended the game. */
  ghost predicate WithinFifty(p: Position, ms: seq<Move>)
    decreases ms
  {
    ms != [] ==> p.halfMove < 100 && WithinFifty(Apply(p, ms[0]), ms[1..])
  }

  lemma {:induction false} LengthBounded(p: Position, ms: seq<Move>)
    requires Sound(p) && p.halfMove <= 100 && Playable(p, ms) && WithinFifty(p, ms)
    ensures |ms| + Ranking(Replay(p, ms)) <= Ranking(p)
    ensures Ranking(Replay(p, ms)) >= 0
    decreases ms
  {
    if ms == [] {
      MassNonNegative(p.squares, 64);
    } else {
      RankingFalls(p, ms[0]);
      LegalKeepsSound(p, ms[0]);
      LengthBounded(Apply(p, ms[0]), ms[1..]);
    }
  }

  /** The mass of the first `n` squares of the starting position. */
  function StartMassTo(n: nat): int {
    if n <= 8 then n
    else if n <= 16 then 8 + 7 * (n - 8)
    else if n <= 48 then 64
    else if n <= 56 then 64 + 7 * (n - 48)
    else 120 + (n - 56)
  }

  lemma {:induction false} StartMass(n: nat)
    requires n <= 64
    ensures Sum(StartPosition().squares, Weight, n) == StartMassTo(n)
  {
    if n > 0 {
      StartMass(n - 1);
      assert StartPosition().squares[n - 1] == StartPiece(n - 1);
    }
  }

  /** No game from the starting position outlasts 12900 plies. */
  lemma {:induction false} GamesEnd(ms: seq<Move>)
    requires Playable(StartPosition(), ms) && WithinFifty(StartPosition(), ms)
    ensures |ms| <= 12900
  {
    StartIsSound();
    StartMass(64);
    LengthBounded(StartPosition(), ms);
  }
}
