/** How often the generator lists a move: once on every board of a game, twice on some other boards. */
module MoveList {
  import opened Board
  import opened Rules
  import opened MoveGen
  import opened Invariant

  lemma {:induction false} KingsCounted(q: Squares, c: Color, k: Square, n: nat)
    requires KingAt(q, c, k) && n <= 64
    ensures KingsBelow(q, c, n) == if k < n then 1 else 0
  {
    if n > 0 {
      KingsCounted(q, c, k, n - 1);
    }
  }

  lemma SoundHasOneKing(p: Position)
    requires Sound(p)
    ensures KingsBelow(p.squares, p.turn, 64) == 1
  {
    var k: Square :| KingAt(p.squares, p.turn, k);
    KingsCounted(p.squares, p.turn, k, 64);
  }

  /** What the generator promises of the list it returns for a board. */
  ghost predicate Listed(p: Position, ms: seq<Move>) {
    forall m :: multiset(ms)[m] == if Legal(p, m) then Multiplicity(p, 64, m) else 0
  }

  /** On a sound board the list holds every legal move exactly once, and nothing else. */
  lemma SoundListsOnce(p: Position, ms: seq<Move>)
    requires Sound(p) && Listed(p, ms)
    ensures (forall m :: multiset(ms)[m] == if Legal(p, m) then 1 else 0) && NoDup(ms)
  {
    SoundHasOneKing(p);
    NoDupCounts(ms);
  }

  /** So it does in every position of every game. */
  lemma {:induction false} ReachableListsOnce(played: seq<Move>, ms: seq<Move>)
    requires Playable(StartPosition(), played) && Listed(Replay(StartPosition(), played), ms)
    ensures (forall m :: multiset(ms)[m] == if Legal(Replay(StartPosition(), played), m) then 1 else 0) && NoDup(ms)
  {
    ReachableIsSound(played);
    SoundListsOnce(Replay(StartPosition(), played), ms);
  }

  // ---- A board with two kings ----

  /** White kings on a1 and e1, a rook on h1 with the right to castle, and no one else. */
  function TwoKings(): Position {
    var q: Squares := seq(64, s => if s == 0 || s == 4 then Man(White, King)
              else if s == 7 then Man(White, Rook) else Empty);
    Position(q, White, Rights(true, false, false, false), NO_SQUARE, 0, 1)
  }

  lemma NobodyAttacks(q: Squares, c: Color, f: int, r: int)
    requires forall s: Square :: q[s].Man? ==> q[s].color != c
    ensures !Attacked(q, f, r, c)
  {}

  lemma TwoKingsMayCastle()
    ensures MayCastle(TwoKings(), true)
  {
    var q := TwoKings().squares;
    forall f, r ensures !Attacked(q, f, r, Black) { NobodyAttacks(q, Black, f, r); }
  }

  ghost predicate OneSided(q: Squares, c: Color) {
    forall s: Square :: q[s].Man? ==> q[s].color == c
  }

  lemma OneSidedUpdate(q: Squares, c: Color, s: Square, x: Piece)
    requires OneSided(q, c) && (x.Man? ==> x.color == c)
    ensures OneSided(q[s := x], c)
  {}

  lemma CastlingStaysOneSided(p: Position, m: Move)
    requires OneSided(p.squares, p.turn) && PseudoLegal(p, m) && Castles(p, m)
    ensures OneSided(SquaresAfter(p, m), p.turn)
  {
    CastlingShape(p, m);
    var kingSide :| CastlesOn(p, m, kingSide);
    var q, c := p.squares, p.turn;
    var q1, q2 := q[m.from := Empty], q[m.from := Empty][m.to := Man(c, King)];
    OneSidedUpdate(q, c, m.from, Empty);
    OneSidedUpdate(q1, c, m.to, Man(c, King));
    OneSidedUpdate(q2, c, RookHome(c, kingSide), Empty);
    OneSidedUpdate(q2[RookHome(c, kingSide) := Empty], c, RookAway(c, kingSide), Man(c, Rook));
  }

  lemma NoCheckWithoutEnemies(q: Squares, c: Color)
    requires OneSided(q, c)
    ensures !KingAttacked(q, c)
  {
    forall f, r ensures !Attacked(q, f, r, c.Opposite()) { NobodyAttacks(q, c.Opposite(), f, r); }
  }

  lemma TwoKingsCounted()
    ensures KingsBelow(TwoKings().squares, White, 64) == 2
  {
    var q := TwoKings().squares;
    assert KingsBelow(q, White, 0) == 0 && KingsBelow(q, White, 1) == 1;
    KingsSame(q, White, 1, 4);
    assert KingsBelow(q, White, 5) == 2;
    KingsSame(q, White, 5, 64);
  }

  lemma {:induction false} KingsSame(q: Squares, c: Color, n: nat, n': nat)
    requires n <= n' <= 64 && forall s: Square :: n <= s < n' ==> q[s] != Man(c, King)
    ensures KingsBelow(q, c, n') == KingsBelow(q, c, n)
  {
    if n < n' {
      KingsSame(q, c, n, n' - 1);
    }
  }

  /** With two kings the castling move is listed twice. */
  lemma TwoKingsListTwice(ms: seq<Move>)
    requires Listed(TwoKings(), ms)
    ensures multiset(ms)[Move(4, 6, None)] == 2 && !NoDup(ms)
  {
    var p, m := TwoKings(), Move(4, 6, None);
    TwoKingsMayCastle();
    assert m == CastleMove(White, true) && Castles(p, m);
    assert OneSided(p.squares, White);
    CastlingStaysOneSided(p, m);
    NoCheckWithoutEnemies(SquaresAfter(p, m), White);
    TwoKingsCounted();
    NoDupCounts(ms);
  }
}
