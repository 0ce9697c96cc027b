/** The rules for White and Black are mirror images of each other. */
module Mirror {
  import opened Board
  import opened Rules
  import opened Invariant

  function Flip(s: Square): Square { Sq(FileOf(s), 7 - RankOf(s)) }

  function Swap(piece: Piece): Piece {
    if piece.Empty? then Empty else Man(piece.color.Opposite(), piece.kind)
  }

  /** The second board is the first with ranks reversed and colours exchanged. */
  ghost predicate Mirrored(q: Squares, q': Squares) {
    forall f, r :: At(q', f, r) == Swap(At(q, f, 7 - r))
  }

  function FlipMove(m: Move): Move { Move(Flip(m.from), Flip(m.to), m.promotion) }

  function FlipTarget(e: int): int { if 0 <= e < 64 then Flip(e) else e }

  function FlipRights(r: Rights): Rights { Rights(r.bk, r.bq, r.wk, r.wq) }

  /** The second position is the mirror image of the first; the move number does not matter. */
  ghost predicate MirrorOf(p: Position, p': Position) {
    && Mirrored(p.squares, p'.squares) && p'.turn == p.turn.Opposite() && p'.castling == FlipRights(p.castling)
    && p'.enPassant == FlipTarget(p.enPassant) && p'.halfMove == p.halfMove
  }

  lemma FlipSquare(s: Square)
    ensures FileOf(Flip(s)) == FileOf(s) && RankOf(Flip(s)) == 7 - RankOf(s) && Flip(Flip(s)) == s
  {
    SquareOf(s);
    Coordinates(FileOf(s), 7 - RankOf(s));
  }

  lemma MirroredAt(q: Squares, q': Squares, s: Square)
    requires Mirrored(q, q')
    ensures q'[Flip(s)] == Swap(q[s])
  {
    SquareOf(s);
    var f, r := FileOf(s), RankOf(s);
    assert At(q', f, 7 - r) == Swap(At(q, f, 7 - (7 - r)));
  }

  /** The mirror image of every position exists. */
  function Reflect(p: Position): Position {
    Position(
      seq(64, s requires 0 <= s < 64 => Swap(p.squares[Flip(s)])),
      p.turn.Opposite(), FlipRights(p.castling), FlipTarget(p.enPassant), p.halfMove, p.fullMove)
  }

  lemma ReflectionExists(p: Position)
    ensures MirrorOf(p, Reflect(p))
  {
    var q, q' := p.squares, Reflect(p).squares;
    forall f, r ensures At(q', f, r) == Swap(At(q, f, 7 - r)) {
      if OnBoard(f, r) {
        Coordinates(f, r);
        assert q'[Sq(f, r)] == Swap(q[Flip(Sq(f, r))]);
      }
    }
  }

  lemma MirroredBack(q: Squares, q': Squares)
    requires Mirrored(q, q')
    ensures Mirrored(q', q)
  {}

  lemma MirrorBack(p: Position, p': Position)
    requires MirrorOf(p, p')
    ensures MirrorOf(p', p)
  {
    MirroredBack(p.squares, p'.squares);
    if 0 <= p.enPassant < 64 {
      FlipSquare(p.enPassant);
    }
  }

  // ---- Attacks ----

  lemma RayAtMirrored(q: Squares, q': Squares, f: int, r: int, df: int, dr: int, k: int)
    requires Mirrored(q, q')
    ensures RayAt(q', f, 7 - r, df, -dr, k) == Swap(RayAt(q, f, r, df, dr, k))
  {}

  lemma RayClearMirrored(q: Squares, q': Squares, f: int, r: int, df: int, dr: int, n: int)
    requires Mirrored(q, q') && RayClear(q, f, r, df, dr, n)
    ensures RayClear(q', f, 7 - r, df, -dr, n)
  {
    var r', dr' := 7 - r, -dr;
    forall k | 0 < k < n ensures RayAt(q', f, r', df, dr', k).Empty? {
      RayAtMirrored(q, q', f, r, df, dr, k);
      assert RayAt(q, f, r, df, dr, k).Empty?;
    }
  }

  lemma BearsMirrored(q: Squares, q': Squares, man: Piece, ff: int, fr: int, tf: int, tr: int)
    requires Mirrored(q, q') && man.Man? && Bears(q, man, ff, fr, tf, tr)
    ensures Bears(q', Swap(man), ff, 7 - fr, tf, 7 - tr)
  {
    if man.kind in {Bishop, Rook, Queen} {
      RayClearMirrored(q, q', ff, fr, Sign(tf - ff), Sign(tr - fr), Dist(tf - ff, tr - fr));
    }
  }

  lemma AttacksMirrored(q: Squares, q': Squares, s: Square, c: Color, f: int, r: int)
    requires Mirrored(q, q') && AttacksFrom(q, s, c, f, r)
    ensures AttacksFrom(q', Flip(s), c.Opposite(), f, 7 - r)
  {
    MirroredAt(q, q', s);
    FlipSquare(s);
    BearsMirrored(q, q', q[s], FileOf(s), RankOf(s), f, r);
  }

  lemma AttackedImplies(q: Squares, q': Squares, f: int, r: int, c: Color)
    requires Mirrored(q, q') && Attacked(q, f, r, c)
    ensures Attacked(q', f, 7 - r, c.Opposite())
  {
    var s: Square :| AttacksFrom(q, s, c, f, r);
    AttacksMirrored(q, q', s, c, f, r);
  }

  /** Attacks are mirrored. */
  lemma AttackedMirrored(q: Squares, q': Squares, f: int, r: int, c: Color)
    requires Mirrored(q, q')
    ensures Attacked(q, f, r, c) <==> Attacked(q', f, 7 - r, c.Opposite())
  {
    if Attacked(q, f, r, c) {
      AttackedImplies(q, q', f, r, c);
    }
    if Attacked(q', f, 7 - r, c.Opposite()) {
      MirroredBack(q, q');
      AttackedImplies(q', q, f, 7 - r, c.Opposite());
      assert 7 - (7 - r) == r && c.Opposite().Opposite() == c;
    }
  }

  // ---- What a move does ----

  lemma SquareMirrored(s: Square, f: int, r: int)
    requires OnBoard(f, r)
    ensures Sq(f, r) == Flip(s) <==> Sq(f, 7 - r) == s
  {}

  lemma UpdateMirrored(q: Squares, q': Squares, s: Square, x: Piece)
    requires Mirrored(q, q')
    ensures Mirrored(q[s := x], q'[Flip(s) := Swap(x)])
  {
    var after, after' := q[s := x], q'[Flip(s) := Swap(x)];
    forall f, r ensures At(after', f, r) == Swap(At(after, f, 7 - r)) {
      assert At(q', f, r) == Swap(At(q, f, 7 - r));
      if OnBoard(f, r) {
        SquareMirrored(s, f, r);
      }
    }
  }

  lemma MoveRookMirrored(q: Squares, q': Squares, rank: int, kingSide: bool)
    requires Mirrored(q, q') && 0 <= rank < 8
    ensures Mirrored(MoveRook(q, rank, kingSide), MoveRook(q', 7 - rank, kingSide))
  {
    var home, away := Sq(RookFile(kingSide), rank), Sq(if kingSide then 5 else 3, rank);
    RookSquareMirrored(RookFile(kingSide), rank);
    RookSquareMirrored(if kingSide then 5 else 3, rank);
    MirroredAt(q, q', home);
    UpdateMirrored(q, q', away, q[home]);
    UpdateMirrored(q[away := q[home]], q'[Flip(away) := Swap(q[home])], home, Empty);
  }

  lemma RookSquareMirrored(f: int, rank: int)
    requires OnBoard(f, rank)
    ensures Flip(Sq(f, rank)) == Sq(f, 7 - rank)
  {}

  /** The shape of a move and what it meets are mirrored. */
  lemma ShapeMirrored(p: Position, p': Position, m: Move)
    requires MirrorOf(p, p')
    ensures DF(FlipMove(m)) == DF(m) && DR(FlipMove(m)) == -DR(m)
    ensures p'.squares[Flip(m.from)] == Swap(p.squares[m.from]) && p'.squares[Flip(m.to)] == Swap(p.squares[m.to])
    ensures p'.enPassant == Flip(m.to) <==> p.enPassant == m.to
  {
    FlipSquare(m.from);
    FlipSquare(m.to);
    MirroredAt(p.squares, p'.squares, m.from);
    MirroredAt(p.squares, p'.squares, m.to);
    if 0 <= p.enPassant < 64 {
      FlipSquare(p.enPassant);
    }
  }

  lemma VictimMirrored(c: Color, to: Square)
    ensures 0 <= Victim(c, to) < 64 <==> 0 <= Victim(c.Opposite(), Flip(to)) < 64
    ensures 0 <= Victim(c, to) < 64 ==> Flip(Victim(c, to)) == Victim(c.Opposite(), Flip(to))
  {
    SquareOf(to);
    var f, r := FileOf(to), RankOf(to);
    assert Victim(c, to) == Sq(f, r - c.Forward()) && Victim(c.Opposite(), Flip(to)) == Sq(f, 7 - (r - c.Forward()));
    if OnBoard(f, r - c.Forward()) {
      RookSquareMirrored(f, r - c.Forward());
    }
  }

  lemma VictimTaken(p: Position, p': Position, m: Move, q: Squares, q': Squares)
    requires MirrorOf(p, p') && Mirrored(q, q')
    ensures var v, v' := Victim(p.turn, m.to), Victim(p'.turn, Flip(m.to));
      && (0 <= v < 64 <==> 0 <= v' < 64) && (0 <= v < 64 ==> Mirrored(q[v := Empty], q'[v' := Empty]))
  {
    VictimMirrored(p.turn, m.to);
    var v := Victim(p.turn, m.to);
    if 0 <= v < 64 {
      UpdateMirrored(q, q', v, Empty);
    }
  }

  lemma SquaresAfterMirrored(p: Position, p': Position, m: Move)
    requires MirrorOf(p, p')
    ensures Mirrored(SquaresAfter(p, m), SquaresAfter(p', FlipMove(m)))
  {
    ShapeMirrored(p, p', m);
    var q, q', n := p.squares, p'.squares, FlipMove(m);
    var q0, q0' := q[m.to := q[m.from]][m.from := Empty], q'[n.to := q'[n.from]][n.from := Empty];
    UpdateMirrored(q, q', m.to, q[m.from]);
    UpdateMirrored(q[m.to := q[m.from]], q'[n.to := q'[n.from]], m.from, Empty);
    VictimTaken(p, p', m, q0, q0');
    var v, v' := Victim(p.turn, m.to), Victim(p'.turn, n.to);
    var takes := TakesEnPassant(p, m) && 0 <= v < 64;
    assert takes <==> TakesEnPassant(p', n) && 0 <= v' < 64;
    var q1, q1' := if takes then q0[v := Empty] else q0, if takes then q0'[v' := Empty] else q0';
    var q2 := if m.promotion.Some? then q1[m.to := Man(p.turn, m.promotion.value)] else q1;
    var q2' := if m.promotion.Some? then q1'[n.to := Man(p'.turn, m.promotion.value)] else q1';
    if m.promotion.Some? {
      UpdateMirrored(q1, q1', m.to, Man(p.turn, m.promotion.value));
    }
    CastlingAfter(p, p', m, q2, q2');
  }

  lemma CastlingAfter(p: Position, p': Position, m: Move, q: Squares, q': Squares)
    requires MirrorOf(p, p') && Mirrored(q, q')
    ensures Mirrored(if IsCastling(p, m) then MoveRook(q, RankOf(m.from), FileOf(m.to) == 6) else q,
                     if IsCastling(p', FlipMove(m)) then MoveRook(q', RankOf(Flip(m.from)),
                         FileOf(Flip(m.to)) == 6) else q')
  {
    ShapeMirrored(p, p', m);
    FlipSquare(m.from);
    FlipSquare(m.to);
    if IsCastling(p, m) {
      SquareOf(m.from);
      MoveRookMirrored(q, q', RankOf(m.from), FileOf(m.to) == 6);
    }
  }

  lemma FlipCorners(s: Square)
    ensures SameCorner(s, Flip(s))
  {}

  lemma KingMirrored(q: Squares, q': Squares, s: Square)
    requires Mirrored(q, q')
    ensures q'[Flip(s)] == Man(White, King) <==> q[s] == Man(Black, King)
    ensures q'[Flip(s)] == Man(Black, King) <==> q[s] == Man(White, King)
  {
    MirroredAt(q, q', s);
  }

  /** Squares that stand for each other as home squares of the rooks. */
  predicate SameCorner(s: Square, t: Square) {
    (t == 7 <==> s == 63) && (t == 0 <==> s == 56) && (t == 63 <==> s == 7) && (t == 56 <==> s == 0)
  }

  lemma RightsAgree(p: Position, p': Position, m: Move, n: Move)
    requires p'.castling == FlipRights(p.castling) && SameCorner(m.from, n.from) && SameCorner(m.to, n.to)
    requires p'.squares[n.from] == Man(White, King) <==> p.squares[m.from] == Man(Black, King)
    requires p'.squares[n.from] == Man(Black, King) <==> p.squares[m.from] == Man(White, King)
    ensures RightsAfter(p', n) == FlipRights(RightsAfter(p, m))
  {}

  lemma RightsMirrored(p: Position, p': Position, m: Move)
    requires MirrorOf(p, p')
    ensures RightsAfter(p', FlipMove(m)) == FlipRights(RightsAfter(p, m))
  {
    KingMirrored(p.squares, p'.squares, m.from);
    FlipCorners(m.from);
    FlipCorners(m.to);
    RightsAgree(p, p', m, FlipMove(m));
  }

  lemma MidpointMirrored(m: Move)
    ensures Abs(DR(m)) == 2 ==> FlipTarget((m.from + m.to) / 2) == (Flip(m.from) + Flip(m.to)) / 2
  {
    if Abs(DR(m)) == 2 {
      SquareOf(m.from);
      SquareOf(m.to);
      var f, r := (FileOf(m.from) + FileOf(m.to)) / 2, if DR(m) > 0 then RankOf(m.from) + 1 else RankOf(m.to) + 1;
      assert (m.from + m.to) / 2 == Sq(f, r);
      assert (Flip(m.from) + Flip(m.to)) / 2 == Sq(f, 7 - r);
      RookSquareMirrored(f, r);
    }
  }

  /** Making a move commutes with the reflection. */
  lemma ApplyMirrored(p: Position, p': Position, m: Move)
    requires MirrorOf(p, p')
    ensures MirrorOf(Apply(p, m), Apply(p', FlipMove(m)))
  {
    SquaresAfterMirrored(p, p', m);
    ShapeMirrored(p, p', m);
    MidpointMirrored(m);
    RightsMirrored(p, p', m);
  }

  // ---- Legality ----

  lemma MayCastleMirrored(p: Position, p': Position, kingSide: bool)
    requires MirrorOf(p, p') && MayCastle(p, kingSide)
    ensures MayCastle(p', kingSide)
  {
    var q, q', rank, far := p.squares, p'.squares, p.turn.HomeRank(), p'.turn.HomeRank();
    forall f ensures At(q', f, far) == Swap(At(q, f, rank)) {
      assert At(q', f, far) == Swap(At(q, f, 7 - far));
    }
    forall f | if kingSide then 4 <= f <= 6 else 2 <= f <= 4 ensures !Attacked(q', f, far, p.turn) {
      AttackedMirrored(q, q', f, rank, p.turn.Opposite());
      assert !Attacked(q, f, rank, p.turn.Opposite());
    }
  }

  lemma CastleMoveMirrored(c: Color, kingSide: bool)
    ensures FlipMove(CastleMove(c, kingSide)) == CastleMove(c.Opposite(), kingSide)
  {}

  lemma PawnMovesMirrored(p: Position, p': Position, m: Move)
    requires MirrorOf(p, p') && PawnMoves(p, m)
    ensures PawnMoves(p', FlipMove(m))
  {
    ShapeMirrored(p, p', m);
    FlipSquare(m.from);
    FlipSquare(m.to);
    var f, r := FileOf(m.from), RankOf(m.from) + p.turn.Forward();
    assert At(p'.squares, f, 7 - r) == Swap(At(p.squares, f, 7 - (7 - r)));
  }

  lemma PieceMovesMirrored(p: Position, p': Position, m: Move)
    requires MirrorOf(p, p') && p.squares[m.from].Man? && PieceMoves(p, m)
    ensures p'.squares[Flip(m.from)].Man? && PieceMoves(p', FlipMove(m))
  {
    MirroredAt(p.squares, p'.squares, m.from);
    MirroredAt(p.squares, p'.squares, m.to);
    FlipSquare(m.from);
    FlipSquare(m.to);
    BearsMirrored(p.squares, p'.squares, p.squares[m.from], FileOf(m.from), RankOf(m.from), FileOf(m.to), RankOf(m.to));
  }

  lemma CastlesMirrored(p: Position, p': Position, m: Move)
    requires MirrorOf(p, p') && Castles(p, m)
    ensures Castles(p', FlipMove(m))
  {
    var kingSide :| m == CastleMove(p.turn, kingSide) && MayCastle(p, kingSide);
    MayCastleMirrored(p, p', kingSide);
    CastleMoveMirrored(p.turn, kingSide);
  }

  lemma PseudoLegalMirrored(p: Position, p': Position, m: Move)
    requires MirrorOf(p, p') && PseudoLegal(p, m)
    ensures PseudoLegal(p', FlipMove(m))
  {
    MirroredAt(p.squares, p'.squares, m.from);
    if p.squares[m.from].kind == Pawn {
      PawnMovesMirrored(p, p', m);
    } else if PieceMoves(p, m) {
      PieceMovesMirrored(p, p', m);
    } else {
      CastlesMirrored(p, p', m);
    }
  }

  lemma KingAtMirrored(q: Squares, q': Squares, c: Color, k: Square)
    requires Mirrored(q, q') && KingAt(q, c, k)
    ensures KingAt(q', c.Opposite(), Flip(k))
  {
    MirroredAt(q, q', k);
    forall t: Square | q'[t] == Man(c.Opposite(), King) ensures t == Flip(k) {
      MirroredBack(q, q');
      MirroredAt(q', q, t);
      FlipSquare(t);
    }
  }

  /** With one king per side, the mirrored king is attacked exactly when the king is. */
  lemma KingAttackedMirrored(q: Squares, q': Squares, c: Color)
    requires Mirrored(q, q') && OneKing(q, c)
    ensures KingAttacked(q', c.Opposite()) <==> KingAttacked(q, c)
  {
    var k: Square :| KingAt(q, c, k);
    KingAtMirrored(q, q', c, k);
    KingAttackedAt(q, c, k);
    KingAttackedAt(q', c.Opposite(), Flip(k));
    FlipSquare(k);
    AttackedMirrored(q, q', FileOf(k), RankOf(k), c.Opposite());
  }

  /** A sound position and its mirror image have mirrored legal moves. */
  lemma LegalMirrored(p: Position, p': Position, m: Move)
    requires Sound(p) && MirrorOf(p, p')
    ensures Legal(p, m) <==> Legal(p', FlipMove(m))
  {
    FlipSquare(m.from);
    FlipSquare(m.to);
    assert FlipMove(FlipMove(m)) == m;
    if PseudoLegal(p', FlipMove(m)) {
      MirrorBack(p, p');
      PseudoLegalMirrored(p', p, FlipMove(m));
    }
    if PseudoLegal(p, m) {
      PseudoLegalMirrored(p, p', m);
      KingsKept(p, m);
      SquaresAfterMirrored(p, p', m);
      KingAttackedMirrored(SquaresAfter(p, m), SquaresAfter(p', FlipMove(m)), p.turn);
    }
  }

  function FlipMoves(ms: seq<Move>): seq<Move> {
    seq(|ms|, i requires 0 <= i < |ms| => FlipMove(ms[i]))
  }

  /** A game is playable exactly when its mirror image is, and they end in mirrored positions. */
  lemma {:induction false} GameMirrored(p: Position, p': Position, ms: seq<Move>)
    requires Sound(p) && MirrorOf(p, p')
    ensures Playable(p, ms) <==> Playable(p', FlipMoves(ms))
    ensures Playable(p, ms) ==> MirrorOf(Replay(p, ms), Replay(p', FlipMoves(ms)))
    decreases ms
  {
    if ms != [] {
      LegalMirrored(p, p', ms[0]);
      assert FlipMoves(ms)[0] == FlipMove(ms[0]) && FlipMoves(ms)[1..] == FlipMoves(ms[1..]);
      if Legal(p, ms[0]) {
        LegalKeepsSound(p, ms[0]);
        ApplyMirrored(p, p', ms[0]);
        GameMirrored(Apply(p, ms[0]), Apply(p', FlipMove(ms[0])), ms[1..]);
      }
    }
  }
}
