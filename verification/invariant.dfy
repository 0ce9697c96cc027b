/** What every position of a game keeps. */
module Invariant {
  import opened Board
  import opened Rules

  ghost predicate KingAt(q: Squares, c: Color, k: Square) {
    q[k] == Man(c, King) && forall t: Square :: q[t] == Man(c, King) ==> t == k
  }

  ghost predicate OneKing(q: Squares, c: Color) {
    exists k: Square :: KingAt(q, c, k)
  }

  ghost predicate PawnsInside(q: Squares) {
    forall s: Square :: IsPawn(q[s]) ==> 8 <= s < 56
  }

  function KingHome(c: Color): Square { Sq(4, c.HomeRank()) }

  function RookHome(c: Color, kingSide: bool): Square { Sq(RookFile(kingSide), c.HomeRank()) }

  /** A castling right is held only with king and rook at home. */
  ghost predicate RightsBacked(q: Squares, rights: Rights) {
    forall c, kingSide :: HasRight(rights, c, kingSide) ==>
      q[KingHome(c)] == Man(c, King) && q[RookHome(c, kingSide)] == Man(c, Rook)
  }

  /** The en-passant target is an empty square that an enemy pawn has just crossed: the square it
      came from is empty and it stands on the square beyond. */
  ghost predicate EnPassantSound(p: Position) {
    p.enPassant != NO_SQUARE ==>
      var e, step := p.enPassant, 8 * p.turn.Forward();
      && 16 <= e < 48 && RankOf(e) == p.turn.HomeRank() + 5 * p.turn.Forward()
      && p.squares[e].Empty? && p.squares[e + step].Empty?
      && p.squares[e - step] == Man(p.turn.Opposite(), Pawn)
  }

  ghost predicate Sound(p: Position) {
    && OneKing(p.squares, White) && OneKing(p.squares, Black)
    && PawnsInside(p.squares)
    && RightsBacked(p.squares, p.castling)
    && EnPassantSound(p)
    && !KingAttacked(p.squares, p.turn.Opposite())
    && p.halfMove >= 0 && p.fullMove >= 1
  }

  // ---- What a pseudo-legal move puts where ----

  ghost predicate CastlesOn(p: Position, m: Move, kingSide: bool) {
    && m == CastleMove(p.turn, kingSide) && MayCastle(p, kingSide)
    && p.squares[m.from] == Man(p.turn, King) && p.squares[m.to].Empty?
    && p.squares[RookHome(p.turn, kingSide)] == Man(p.turn, Rook)
    && SquaresAfter(p, m) == p.squares[m.from := Empty][m.to := Man(p.turn, King)]
         [RookHome(p.turn, kingSide) := Empty][RookAway(p.turn, kingSide) := Man(p.turn, Rook)]
    && p.squares[RookAway(p.turn, kingSide)].Empty?
  }

  function RookAway(c: Color, kingSide: bool): Square { Sq(if kingSide then 5 else 3, c.HomeRank()) }

  lemma CastlingShape(p: Position, m: Move)
    requires PseudoLegal(p, m)
    ensures IsCastling(p, m) <==> Castles(p, m)
    ensures Castles(p, m) ==> exists kingSide :: CastlesOn(p, m, kingSide)
  {
    if Castles(p, m) {
      var kingSide :| m == CastleMove(p.turn, kingSide) && MayCastle(p, kingSide);
      Coordinates(4, p.turn.HomeRank());
      Coordinates(if kingSide then 6 else 2, p.turn.HomeRank());
      assert At(p.squares, if kingSide then 6 else 2, p.turn.HomeRank()).Empty?;
      assert At(p.squares, if kingSide then 5 else 3, p.turn.HomeRank()).Empty?;
      assert CastlesOn(p, m, kingSide);
    }
  }

  /** The destination never holds an own piece. */
  lemma DestinationFree(p: Position, m: Move)
    requires PseudoLegal(p, m)
    ensures !Own(p.squares[m.to], p.turn) && m.from != m.to
  {
    CastlingShape(p, m);
  }

  /** A capture by pseudo-legal move is an attack in the sense of the rules. */
  lemma CaptureIsAttack(p: Position, m: Move)
    requires PseudoLegal(p, m) && p.squares[m.to].Man?
    ensures SquareAttacked(p.squares, m.to, p.turn)
  {
    CastlingShape(p, m);
    assert AttacksFrom(p.squares, m.from, p.turn, FileOf(m.to), RankOf(m.to));
  }

  /** No move from a sound position takes a king. */
  lemma KingNeverTaken(p: Position, m: Move)
    requires Sound(p) && PseudoLegal(p, m)
    ensures p.squares[m.to] != Man(p.turn.Opposite(), King)
  {
    if p.squares[m.to] == Man(p.turn.Opposite(), King) {
      CaptureIsAttack(p, m);
      assert IsKingSquare(p.squares, p.turn.Opposite(), m.to);
    }
  }

  /** En passant removes the enemy pawn that has just advanced two squares, and only it. */
  lemma EnPassantTakesPawn(p: Position, m: Move)
    requires Sound(p) && PseudoLegal(p, m) && TakesEnPassant(p, m)
    ensures var v := Victim(p.turn, m.to);
            0 <= v < 64 && v != m.from && v != m.to && p.squares[v] == Man(p.turn.Opposite(), Pawn)
            && SquaresAfter(p, m) == p.squares[m.to := Man(p.turn, Pawn)][m.from := Empty][v := Empty]
            && PawnCapture(p.turn, DF(m), DR(m))
  {}

  /** The squares after a move that neither castles nor takes en passant. */
  lemma PlainAfter(p: Position, m: Move)
    requires PseudoLegal(p, m) && !IsCastling(p, m) && !TakesEnPassant(p, m)
    ensures SquaresAfter(p, m) ==
      p.squares[m.from := Empty]
          [m.to := if m.promotion.Some? then Man(p.turn, m.promotion.value) else p.squares[m.from]]
  {}

  /** Each way a pseudo-legal move of a sound position can change the squares. */
  datatype Effect = Plain | EnPassant | Castling(kingSide: bool)

  lemma EffectOf(p: Position, m: Move) returns (e: Effect)
    requires Sound(p) && PseudoLegal(p, m)
    ensures e.EnPassant? <==> TakesEnPassant(p, m)
    ensures e.Castling? <==> IsCastling(p, m)
    ensures e.Castling? ==> (e.kingSide <==> FileOf(m.to) == 6)
    ensures match e
      case Plain =>
        SquaresAfter(p, m) == p.squares[m.from := Empty][m.to := Landing(p, m)]
      case EnPassant =>
        var v := Victim(p.turn, m.to);
        && 0 <= v < 64 && v != m.from && v != m.to && p.squares[v] == Man(p.turn.Opposite(), Pawn)
        && SquaresAfter(p, m) == p.squares[m.from := Empty][m.to := Landing(p, m)][v := Empty]
        && Landing(p, m) == p.squares[m.from] == Man(p.turn, Pawn) && p.squares[m.to].Empty?
      case Castling(kingSide) =>
        CastlesOn(p, m, kingSide)
  {
    CastlingShape(p, m);
    if Castles(p, m) {
      var kingSide :| CastlesOn(p, m, kingSide);
      Coordinates(if kingSide then 6 else 2, p.turn.HomeRank());
      return Castling(kingSide);
    }
    DestinationFree(p, m);
    if TakesEnPassant(p, m) {
      EnPassantTakesPawn(p, m);
      return EnPassant;
    }
    PlainAfter(p, m);
    return Plain;
  }

  /** The piece that ends up on the destination square. */
  function Landing(p: Position, m: Move): Piece {
    if m.promotion.Some? then Man(p.turn, m.promotion.value) else p.squares[m.from]
  }

  // ---- Every legal move keeps every part ----

  /** Away from its two squares a move neither brings nor removes a king, and brings no pawn. */
  lemma Elsewhere(p: Position, m: Move)
    requires Sound(p) && PseudoLegal(p, m)
    ensures SquaresAfter(p, m)[m.from].Empty? && SquaresAfter(p, m)[m.to] == Landing(p, m)
    ensures forall s: Square {:trigger SquaresAfter(p, m)[s]} :: s != m.from && s != m.to ==>
      && (SquaresAfter(p, m)[s].Man? && SquaresAfter(p, m)[s].kind == King ==> SquaresAfter(p, m)[s] == p.squares[s])
      && (p.squares[s].Man? && p.squares[s].kind == King ==> SquaresAfter(p, m)[s] == p.squares[s])
      && (IsPawn(SquaresAfter(p, m)[s]) ==> IsPawn(p.squares[s]))
  {
    var e := EffectOf(p, m);
    DestinationFree(p, m);
  }

  lemma KingKept(q: Squares, q': Squares, from: Square, to: Square, c: Color)
    requires OneKing(q, c) && from != to && q[to] != Man(c, King)
    requires q'[from].Empty? && (q'[to] == Man(c, King) <==> q[from] == Man(c, King))
    requires forall s: Square :: s != from && s != to ==> (q'[s] == Man(c, King) <==> q[s] == Man(c, King))
    ensures OneKing(q', c)
  {
    var k: Square :| KingAt(q, c, k);
    assert KingAt(q', c, if k == from then to else k);
  }

  lemma KingsKept(p: Position, m: Move)
    requires Sound(p) && PseudoLegal(p, m)
    ensures OneKing(SquaresAfter(p, m), White) && OneKing(SquaresAfter(p, m), Black)
  {
    var q' := SquaresAfter(p, m);
    Elsewhere(p, m);
    KingNeverTaken(p, m);
    DestinationFree(p, m);
    assert q'[m.to].Man? && q'[m.to].color == p.turn;
    KingKept(p.squares, q', m.from, m.to, White);
    KingKept(p.squares, q', m.from, m.to, Black);
  }

  lemma LandingInside(p: Position, m: Move)
    requires Sound(p) && PseudoLegal(p, m)
    ensures IsPawn(Landing(p, m)) ==> 8 <= m.to < 56
  {}

  lemma PawnsKept(p: Position, m: Move)
    requires Sound(p) && PseudoLegal(p, m)
    ensures PawnsInside(SquaresAfter(p, m))
  {
    Elsewhere(p, m);
    LandingInside(p, m);
  }

  /** A right that survives a move was held before, and the move touched neither home square. */
  lemma RightSurvives(p: Position, m: Move, c: Color, kingSide: bool)
    requires Sound(p) && PseudoLegal(p, m) && HasRight(RightsAfter(p, m), c, kingSide)
    ensures p.squares[KingHome(c)] == Man(c, King) && p.squares[RookHome(c, kingSide)] == Man(c, Rook)
    ensures m.from != RookHome(c, kingSide) && m.to != RookHome(c, kingSide)
    ensures m.from != KingHome(c) && m.to != KingHome(c) && !(IsCastling(p, m) && p.turn == c)
  {
    assert HasRight(p.castling, c, kingSide);
    KingNeverTaken(p, m);
    DestinationFree(p, m);
  }

  /** A square away from the move that holds no pawn, and is not the mover's back rank when the
      move castles, keeps its piece. */
  lemma UntouchedSquare(p: Position, m: Move, s: Square)
    requires Sound(p) && PseudoLegal(p, m) && s != m.from && s != m.to && !IsPawn(p.squares[s])
    requires IsCastling(p, m) ==> RankOf(s) != p.turn.HomeRank()
    ensures SquaresAfter(p, m)[s] == p.squares[s]
  {
    var e := EffectOf(p, m);
    if e.Castling? {
      RookRank(p.turn, e.kingSide);
    }
  }

  lemma RookRank(c: Color, kingSide: bool)
    ensures RankOf(RookHome(c, kingSide)) == c.HomeRank() && RankOf(RookAway(c, kingSide)) == c.HomeRank()
  {}

  lemma RightsKept(p: Position, m: Move)
    requires Sound(p) && PseudoLegal(p, m)
    ensures RightsBacked(SquaresAfter(p, m), RightsAfter(p, m))
  {
    var q := SquaresAfter(p, m);
    forall c, kingSide | HasRight(RightsAfter(p, m), c, kingSide)
      ensures q[KingHome(c)] == Man(c, King) && q[RookHome(c, kingSide)] == Man(c, Rook)
    {
      RightSurvives(p, m, c, kingSide);
      Coordinates(4, c.HomeRank());
      Coordinates(RookFile(kingSide), c.HomeRank());
      UntouchedSquare(p, m, KingHome(c));
      UntouchedSquare(p, m, RookHome(c, kingSide));
    }
  }

  /** The squares of a double push: from, over and to are one file apart by a rank each. */
  lemma DoublePushSquares(p: Position, m: Move)
    requires DoublePush(p.squares, p.turn, m)
    ensures m.to == m.from + 16 * p.turn.Forward() && (m.from + m.to) / 2 == m.from + 8 * p.turn.Forward()
    ensures 16 <= m.from + 8 * p.turn.Forward() < 48 && p.squares[m.from + 8 * p.turn.Forward()].Empty?
    ensures RankOf(m.from + 8 * p.turn.Forward()) == p.turn.HomeRank() + 2 * p.turn.Forward()
  {}

  lemma DoublePushAfter(p: Position, m: Move)
    requires Sound(p) && PseudoLegal(p, m) && IsPawn(p.squares[m.from]) && Abs(DR(m)) == 2
    ensures DoublePush(p.squares, p.turn, m)
    ensures SquaresAfter(p, m) == p.squares[m.from := Empty][m.to := Man(p.turn, Pawn)]
  {
    DoublePushSquares(p, m);
    PlainAfter(p, m);
  }

  lemma EnPassantKept(p: Position, m: Move)
    requires Sound(p) && PseudoLegal(p, m)
    ensures EnPassantSound(Apply(p, m))
  {
    if IsPawn(p.squares[m.from]) && Abs(DR(m)) == 2 {
      DoublePushAfter(p, m);
      DoublePushSquares(p, m);
    }
  }

  /** Every legal move leads from a sound position to a sound position. */
  lemma LegalKeepsSound(p: Position, m: Move)
    requires Sound(p) && Legal(p, m)
    ensures Sound(Apply(p, m))
  {
    KingsKept(p, m);
    PawnsKept(p, m);
    RightsKept(p, m);
    EnPassantKept(p, m);
  }

  // ---- Whole games ----

  /** Every move of the list is legal when its turn comes. */
  ghost predicate Playable(p: Position, ms: seq<Move>)
    decreases ms
  {
    ms != [] ==> Legal(p, ms[0]) && Playable(Apply(p, ms[0]), ms[1..])
  }

  function Replay(p: Position, ms: seq<Move>): Position
    decreases ms
  {
    if ms == [] then p else Replay(Apply(p, ms[0]), ms[1..])
  }

  lemma {:induction false} PlayKeepsSound(p: Position, ms: seq<Move>)
    requires Sound(p) && Playable(p, ms)
    ensures Sound(Replay(p, ms))
    decreases ms
  {
    if ms != [] {
      LegalKeepsSound(p, ms[0]);
      PlayKeepsSound(Apply(p, ms[0]), ms[1..]);
    }
  }

  /** Extending a game by one move. */
  lemma {:induction false} PlayOneMore(p: Position, ms: seq<Move>, m: Move)
    ensures Replay(p, ms + [m]) == Apply(Replay(p, ms), m)
    ensures Playable(p, ms + [m]) <==> Playable(p, ms) && Legal(Replay(p, ms), m)
    decreases ms
  {
    var all := ms + [m];
    if ms == [] {
      assert all[1..] == [];
    } else {
      PlayOneMore(Apply(p, ms[0]), ms[1..], m);
      assert all[1..] == ms[1..] + [m] && all[0] == ms[0];
    }
  }

  lemma {:induction false} PlayPrefix(p: Position, ms: seq<Move>, n: nat)
    requires n <= |ms| && Playable(p, ms)
    ensures Playable(p, ms[..n])
    decreases ms
  {
    if n > 0 {
      PlayPrefix(Apply(p, ms[0]), ms[1..], n - 1);
      assert ms[..n][1..] == ms[1..][..n - 1] && ms[..n][0] == ms[0];
    }
  }

  // ---- The starting position ----

  function BackRank(f: int): Kind {
    if f == 0 || f == 7 then Rook
    else if f == 1 || f == 6 then Knight
    else if f == 2 || f == 5 then Bishop
    else if f == 3 then Queen else King
  }

  function StartPiece(s: int): Piece {
    if 0 <= s < 8 then Man(White, BackRank(s))
    else if 8 <= s < 16 then Man(White, Pawn)
    else if 48 <= s < 56 then Man(Black, Pawn)
    else if 56 <= s < 64 then Man(Black, BackRank(s - 56))
    else Empty
  }

  function StartPosition(): Position {
    Position(seq(64, s => StartPiece(s)), White, Rights(true, true, true, true), NO_SQUARE, 0, 1)
  }

  lemma StartKings()
    ensures KingAt(StartPosition().squares, White, 4) && KingAt(StartPosition().squares, Black, 60)
  {}

  lemma KingAttackedAt(q: Squares, c: Color, k: Square)
    requires KingAt(q, c, k)
    ensures KingAttacked(q, c) <==> SquareAttacked(q, k, c.Opposite())
  {}

  lemma StartE8Safe()
    ensures !Attacked(StartPosition().squares, 4, 7, White)
  {}

  lemma SafeOnE8(q: Squares)
    requires KingAt(q, Black, 60) && !Attacked(q, 4, 7, White)
    ensures !KingAttacked(q, Black)
  {}

  lemma StartNoCheck()
    ensures !KingAttacked(StartPosition().squares, Black)
  {
    StartKings();
    StartE8Safe();
    SafeOnE8(StartPosition().squares);
  }

  lemma StartIsSound()
    ensures Sound(StartPosition())
  {
    StartKings();
    StartNoCheck();
    var q := StartPosition().squares;
    forall s: Square ensures q[s] == StartPiece(s) {}
  }

  /** Every position of every game from the starting position is sound. */
  lemma {:induction false} ReachableIsSound(ms: seq<Move>)
    requires Playable(StartPosition(), ms)
    ensures Sound(Replay(StartPosition(), ms))
  {
    StartIsSound();
    PlayKeepsSound(StartPosition(), ms);
  }
}
