/** Move generation: pseudo-legal generation forwards from each piece, then the legality filter. */
module MoveGen {
  import opened Board
  import opened Attack
  import opened Rules
  import opened Applying

  ghost predicate NoDup(ms: seq<Move>) {
    forall i, j :: 0 <= i < j < |ms| ==> ms[i] != ms[j]
  }

  lemma NoDupAppend(a: seq<Move>, b: seq<Move>)
    requires NoDup(a) && NoDup(b) && forall m :: m in a ==> m !in b
    ensures NoDup(a + b)
  {
    var c := a + b;
    forall i, j | 0 <= i < j < |c| ensures c[i] != c[j] {
      if i < |a| <= j {
        assert a[i] in a && b[j - |a|] in b;
      }
    }
  }

  // ---- Stepping pieces ----

  ghost predicate StepRule(q: Squares, s: Square, us: Color, deltas: seq<(int, int)>, m: Move) {
    m.from == s && m.promotion == None && (DF(m), DR(m)) in deltas && !Own(q[m.to], us)
  }

  ghost predicate Distinct(ds: seq<(int, int)>) {
    forall i, j :: 0 <= i < j < |ds| ==> ds[i] != ds[j]
  }

  method GenStep(q: Squares, s: Square, us: Color, deltas: seq<(int, int)>) returns (ms: seq<Move>)
    requires Distinct(deltas)
    ensures forall m :: m in ms <==> StepRule(q, s, us, deltas, m)
    ensures NoDup(ms)
  {
    var f, r := FileOf(s), RankOf(s);
    ms := [];
    for i := 0 to |deltas|
      invariant forall m :: m in ms <==> StepRule(q, s, us, deltas[..i], m)
      invariant NoDup(ms)
    {
      var d := deltas[i];
      assert deltas[..i + 1] == deltas[..i] + [d];
      assert d !in deltas[..i];
      var nf, nr := f + d.0, r + d.1;
      if OnBoard(nf, nr) {
        Coordinates(nf, nr);
        var t := Sq(nf, nr);
        var dst := q[t];
        StepTarget(q, s, us, d, t);
        if dst == Empty || dst.color != us {
          NoDupAppend(ms, [Move(s, t, None)]);
          ms := ms + [Move(s, t, None)];
        }
      } else {
        NoStep(s, d);
      }
    }
    assert deltas[..|deltas|] == deltas;
  }

  lemma StepTarget(q: Squares, s: Square, us: Color, d: (int, int), t: Square)
    requires OnBoard(FileOf(s) + d.0, RankOf(s) + d.1) && t == Sq(FileOf(s) + d.0, RankOf(s) + d.1)
    ensures forall m: Move :: m.from == s && (DF(m), DR(m)) == d <==> m.from == s && m.to == t
  {}

  lemma NoStep(s: Square, d: (int, int))
    requires !OnBoard(FileOf(s) + d.0, RankOf(s) + d.1)
    ensures forall m: Move :: m.from == s ==> (DF(m), DR(m)) != d
  {}

  // ---- Sliding pieces ----

  /** A piece of colour `us` on `s` can stop `k` steps along `d`: nothing stands in between
      and no own piece stands there. */
  ghost predicate RayStops(q: Squares, s: Square, us: Color, d: (int, int), k: int) {
    var f, r := FileOf(s), RankOf(s);
    && k > 0 && RayClear(q, f, r, d.0, d.1, k)
    && OnBoard(f + Along(d.0, k), r + Along(d.1, k)) && !Own(RayAt(q, f, r, d.0, d.1, k), us)
  }

  /** The index of the square `k` steps along a ray. */
  function RaySq(s: Square, d: (int, int), k: int): int {
    Sq(FileOf(s) + Along(d.0, k), RankOf(s) + Along(d.1, k))
  }

  ghost predicate RayRule(q: Squares, s: Square, us: Color, d: (int, int), m: Move) {
    m.from == s && m.promotion == None && exists k :: RayStops(q, s, us, d, k) && m.to == RaySq(s, d, k)
  }

  /** The list holds the first steps of a ray, in order. */
  ghost predicate RayPrefix(ms: seq<Move>, s: Square, d: (int, int)) {
    forall i :: 0 <= i < |ms| ==> ms[i].from == s && ms[i].promotion == None && ms[i].to == RaySq(s, d, i + 1)
  }

  lemma RayListing(q: Squares, s: Square, us: Color, d: (int, int), ms: seq<Move>)
    requires UnitDir(d) && RayPrefix(ms, s, d)
    requires forall k :: RayStops(q, s, us, d, k) <==> 0 < k <= |ms|
    ensures forall m :: m in ms <==> RayRule(q, s, us, d, m)
    ensures NoDup(ms)
  {
    forall i | 0 <= i < |ms| ensures RayRule(q, s, us, d, ms[i]) {
      assert RayStops(q, s, us, d, i + 1);
    }
    forall m | RayRule(q, s, us, d, m) ensures m in ms {
      var k :| RayStops(q, s, us, d, k) && m.to == RaySq(s, d, k);
      assert m == ms[k - 1];
    }
    forall i, j | 0 <= i < j < |ms| ensures ms[i] != ms[j] {
      assert RaySq(s, d, i + 1) != RaySq(s, d, j + 1);
    }
  }

  /** Past the first piece, or past the edge, a ray has no stop. */
  lemma RayCut(q: Squares, s: Square, us: Color, d: (int, int), k: int)
    requires UnitDir(d) && k > 0
    requires !OnBoard(FileOf(s) + Along(d.0, k), RankOf(s) + Along(d.1, k))
             || RayAt(q, FileOf(s), RankOf(s), d.0, d.1, k).Man?
    ensures forall j :: j > k ==> !RayStops(q, s, us, d, j)
  {}

  /** One more stop of a ray. */
  lemma RayStep(q: Squares, s: Square, us: Color, d: (int, int), k: int, ms: seq<Move>, t: Square)
    requires UnitDir(d) && k > 0 && RayPrefix(ms, s, d) && |ms| == k - 1
    requires OnBoard(FileOf(s) + Along(d.0, k), RankOf(s) + Along(d.1, k)) && t == RaySq(s, d, k)
    ensures RayPrefix(ms + [Move(s, t, None)], s, d)
  {}

  method GenRay(q: Squares, s: Square, us: Color, d: (int, int)) returns (ms: seq<Move>)
    requires UnitDir(d)
    ensures forall m :: m in ms <==> RayRule(q, s, us, d, m)
    ensures NoDup(ms)
  {
    var f, r := FileOf(s), RankOf(s);
    var nf, nr := f + d.0, r + d.1;
    ms := [];
    ghost var k := 1;
    while OnBoard(nf, nr)
      invariant k > 0 && nf == f + Along(d.0, k) && nr == r + Along(d.1, k)
      invariant RayClear(q, f, r, d.0, d.1, k)
      invariant |ms| == k - 1 && RayPrefix(ms, s, d)
      invariant forall j :: 0 < j < k ==> RayStops(q, s, us, d, j)
      decreases 9 - k
    {
      var t := Sq(nf, nr);
      var dst := q[t];
      assert dst == RayAt(q, f, r, d.0, d.1, k);
      RayStep(q, s, us, d, k, ms, t);
      if dst == Empty {
        ms := ms + [Move(s, t, None)];
      } else {
        if dst.color != us {
          ms := ms + [Move(s, t, None)];
        }
        break;
      }
      nf, nr := nf + d.0, nr + d.1;
      k := k + 1;
    }
    RayEnd(q, s, us, d, k, ms);
  }

  /** When the walk stops at step `k`, the list holds every stop of the ray. */
  lemma RayEnd(q: Squares, s: Square, us: Color, d: (int, int), k: int, ms: seq<Move>)
    requires UnitDir(d) && k > 0 && RayClear(q, FileOf(s), RankOf(s), d.0, d.1, k) && RayPrefix(ms, s, d)
    requires forall j :: 0 < j < k ==> RayStops(q, s, us, d, j)
    requires !OnBoard(FileOf(s) + Along(d.0, k), RankOf(s) + Along(d.1, k))
             || RayAt(q, FileOf(s), RankOf(s), d.0, d.1, k).Man?
    requires |ms| == if RayStops(q, s, us, d, k) then k else k - 1
    ensures forall m :: m in ms <==> RayRule(q, s, us, d, m)
    ensures NoDup(ms)
  {
    RayCut(q, s, us, d, k);
    RayListing(q, s, us, d, ms);
  }

  ghost predicate SlideRule(q: Squares, s: Square, us: Color, dirs: seq<(int, int)>, m: Move) {
    exists d :: d in dirs && RayRule(q, s, us, d, m)
  }

  /** Different rays from one square share no square. */
  lemma RaysApart(q: Squares, s: Square, us: Color, d: (int, int), e: (int, int), m: Move)
    requires UnitDir(d) && UnitDir(e) && RayRule(q, s, us, d, m) && RayRule(q, s, us, e, m)
    ensures d == e
  {
    RayShape(q, s, us, d, m);
    RayShape(q, s, us, e, m);
  }

  lemma RayShape(q: Squares, s: Square, us: Color, d: (int, int), m: Move)
    requires UnitDir(d) && RayRule(q, s, us, d, m)
    ensures d == (Sign(DF(m)), Sign(DR(m)))
    ensures Diagonal(DF(m), DR(m)) || Straight(DF(m), DR(m))
    ensures Diagonal(DF(m), DR(m)) <==> d.0 != 0 && d.1 != 0
    ensures Clear(q, FileOf(s), RankOf(s), FileOf(m.to), RankOf(m.to)) && !Own(q[m.to], us)
  {
    var k :| RayStops(q, s, us, d, k) && m.to == RaySq(s, d, k);
    var tf, tr := FileOf(s) + Along(d.0, k), RankOf(s) + Along(d.1, k);
    Coordinates(tf, tr);
    assert DF(m) == Along(d.0, k) && DR(m) == Along(d.1, k);
    assert Dist(DF(m), DR(m)) == k && Sign(DF(m)) == d.0 && Sign(DR(m)) == d.1;
  }

  lemma LineIsRay(q: Squares, s: Square, us: Color, m: Move)
    requires m.from == s && m.promotion == None && !Own(q[m.to], us)
    requires Diagonal(DF(m), DR(m)) || Straight(DF(m), DR(m))
    requires Clear(q, FileOf(s), RankOf(s), FileOf(m.to), RankOf(m.to))
    ensures var d := (Sign(DF(m)), Sign(DR(m))); UnitDir(d) && RayRule(q, s, us, d, m)
  {
    var d, k := (Sign(DF(m)), Sign(DR(m))), Dist(DF(m), DR(m));
    LineSteps(DF(m), DR(m));
    RayTarget(m, d, k);
    assert RayStops(q, s, us, d, k);
  }

  lemma RayTarget(m: Move, d: (int, int), k: int)
    requires Along(d.0, k) == DF(m) && Along(d.1, k) == DR(m)
    ensures m.to == RaySq(m.from, d, k) && OnBoard(FileOf(m.from) + Along(d.0, k), RankOf(m.from) + Along(d.1, k))
  {
    SquareOf(m.to);
  }

  /** A straight or diagonal displacement is its distance in steps of its direction. */
  lemma LineSteps(df: int, dr: int)
    requires Diagonal(df, dr) || Straight(df, dr)
    ensures var k := Dist(df, dr);
        k > 0 && Along(Sign(df), k) == df && Along(Sign(dr), k) == dr && UnitDir((Sign(df), Sign(dr)))
  {}

  method GenSliding(q: Squares, s: Square, us: Color, dirs: seq<(int, int)>) returns (ms: seq<Move>)
    requires UnitDirs(dirs) && Distinct(dirs)
    ensures forall m :: m in ms <==> SlideRule(q, s, us, dirs, m)
    ensures NoDup(ms)
  {
    ms := [];
    for i := 0 to |dirs|
      invariant forall m :: m in ms <==> SlideRule(q, s, us, dirs[..i], m)
      invariant NoDup(ms)
    {
      var d := dirs[i];
      assert dirs[..i + 1] == dirs[..i] + [d];
      assert d !in dirs[..i];
      var ray := GenRay(q, s, us, d);
      forall m | m in ms ensures m !in ray {
        var e :| e in dirs[..i] && RayRule(q, s, us, e, m);
        if m in ray {
          RaysApart(q, s, us, d, e, m);
        }
      }
      NoDupAppend(ms, ray);
      ms := ms + ray;
    }
    assert dirs[..|dirs|] == dirs;
  }

  // ---- Pawns ----

  /** One pawn destination: the single move, or the four promotions on the far rank. */
  method AddPawnMove(from: Square, to: Square, promo: bool) returns (ms: seq<Move>)
    ensures forall m :: m in ms <==>
      m.from == from && m.to == to && if promo then IsPromotionKind(m.promotion) else m.promotion == None
    ensures NoDup(ms)
  {
    if !promo {
      return [Move(from, to, None)];
    }
    var kinds := [Queen, Rook, Bishop, Knight];
    ms := [];
    for i := 0 to 4
      invariant |ms| == i && forall j :: 0 <= j < i ==> ms[j] == Move(from, to, Some(kinds[j]))
    {
      ms := ms + [Move(from, to, Some(kinds[i]))];
    }
    assert ms == [Move(from, to, Some(Queen)), Move(from, to, Some(Rook)),
                  Move(from, to, Some(Bishop)), Move(from, to, Some(Knight))];
  }

  ghost predicate PushRule(p: Position, m: Move) {
    || (SinglePush(p.squares, p.turn, m) && PromotionFits(p.turn, m))
    || (DoublePush(p.squares, p.turn, m) && m.promotion == None)
  }

  /** The squares a pawn on `s` can be pushed to are one and two ranks ahead on its file. */
  lemma PushTargets(p: Position, s: Square)
    ensures forall m: Move :: m.from == s && PushRule(p, m) ==>
      && OnBoard(FileOf(s), RankOf(s) + p.turn.Forward())
      && p.squares[Sq(FileOf(s), RankOf(s) + p.turn.Forward())].Empty?
      && (m.to == Sq(FileOf(s), RankOf(s) + p.turn.Forward())
          || (m.to == Sq(FileOf(s), RankOf(s) + 2 * p.turn.Forward())
              && RankOf(s) == p.turn.HomeRank() + p.turn.Forward()))
  {}

  method GenPushes(p: Position, s: Square) returns (ms: seq<Move>)
    ensures forall m :: m in ms <==> m.from == s && PushRule(p, m)
    ensures NoDup(ms)
  {
    var q, f, r := p.squares, FileOf(s), RankOf(s);
    var dir, startRank, promoRank := if p.turn == White then 1 else -1, if p.turn == White then 1 else 6,
                                     if p.turn == White then 7 else 0;
    PushTargets(p, s);
    ms := [];
    var oneRank := r + dir;
    if 0 <= oneRank < 8 {
      Coordinates(f, oneRank);
      var one := Sq(f, oneRank);
      if q[one] == Empty {
        ms := AddPawnMove(s, one, oneRank == promoRank);
        if r == startRank {
          var twoRank := r + 2 * dir;
          Coordinates(f, twoRank);
          var two := Sq(f, twoRank);
          if q[two] == Empty {
            NoDupAppend(ms, [Move(s, two, None)]);
            ms := ms + [Move(s, two, None)];
          }
        }
      }
    }
  }

  ghost predicate TakeRule(p: Position, m: Move) {
    PawnCapture(p.turn, DF(m), DR(m)) &&
    ((Enemy(p.squares[m.to], p.turn) && PromotionFits(p.turn, m))
     || (EnPassantCapture(p, p.turn, m) && m.promotion == None))
  }

  method GenTake(p: Position, s: Square, df: int) returns (ms: seq<Move>)
    requires df == -1 || df == 1
    ensures forall m :: m in ms <==> m.from == s && DF(m) == df && TakeRule(p, m)
    ensures NoDup(ms)
  {
    var nf, nr := FileOf(s) + df, RankOf(s) + if p.turn == White then 1 else -1;
    if !OnBoard(nf, nr) {
      NoStep(s, (df, p.turn.Forward()));
      return [];
    }
    var t := Sq(nf, nr);
    StepTarget(p.squares, s, p.turn, (df, p.turn.Forward()), t);
    Coordinates(nf, nr);
    var dst := p.squares[t];
    if dst != Empty && dst.color != p.turn {
      ms := AddPawnMove(s, t, nr == if p.turn == White then 7 else 0);
    } else if t == p.enPassant && dst == Empty {
      ms := [Move(s, t, None)];
    } else {
      ms := [];
    }
  }

  method GenPawn(p: Position, s: Square) returns (ms: seq<Move>)
    ensures forall m :: m in ms <==> m.from == s && PawnMoves(p, m)
    ensures NoDup(ms)
  {
    ms := GenPushes(p, s);
    var dfs := [-1, 1];
    for i := 0 to 2
      invariant forall m :: m in ms <==>
        m.from == s && (PushRule(p, m) || (TakeRule(p, m) && ((i > 0 && DF(m) == -1) || (i > 1 && DF(m) == 1))))
      invariant NoDup(ms)
    {
      var takes := GenTake(p, s, dfs[i]);
      NoDupAppend(ms, takes);
      ms := ms + takes;
    }
  }

  // ---- Castling ----

  /** The king of the side to move is at home and unattacked. */
  ghost predicate KingReady(p: Position) {
    var rank := p.turn.HomeRank();
    At(p.squares, 4, rank) == Man(p.turn, King) && !Attacked(p.squares, 4, rank, p.turn.Opposite())
  }

  lemma NoneUnready(p: Position)
    ensures !KingReady(p) ==> forall m :: !Castles(p, m)
  {}

  lemma ShortRule(p: Position)
    requires KingReady(p)
    ensures var q, rank, enemy := p.squares, p.turn.HomeRank(), p.turn.Opposite();
      MayCastle(p, true) <==>
        && HasRight(p.castling, p.turn, true) && At(q, 5, rank).Empty? && At(q, 6, rank).Empty?
        && !Attacked(q, 5, rank, enemy) && !Attacked(q, 6, rank, enemy) && At(q, 7, rank) == Man(p.turn, Rook)
  {}

  lemma LongRule(p: Position)
    requires KingReady(p)
    ensures var q, rank, enemy := p.squares, p.turn.HomeRank(), p.turn.Opposite();
      MayCastle(p, false) <==>
        && HasRight(p.castling, p.turn, false)
        && At(q, 1, rank).Empty? && At(q, 2, rank).Empty? && At(q, 3, rank).Empty?
        && !Attacked(q, 2, rank, enemy) && !Attacked(q, 3, rank, enemy) && At(q, 0, rank) == Man(p.turn, Rook)
  {}

  lemma BothWings(p: Position, short: seq<Move>, long: seq<Move>)
    requires short == (if MayCastle(p, true) then [CastleMove(p.turn, true)] else [])
    requires long == (if MayCastle(p, false) then [CastleMove(p.turn, false)] else [])
    ensures (forall m :: m in short + long <==> Castles(p, m)) && NoDup(short + long)
  {}

  /** White's branch: e1, then f1, g1 and h1, then d1, c1, b1 and a1. */
  method GenWhiteCastling(p: Position) returns (ms: seq<Move>)
    requires p.turn == White
    ensures forall m :: m in ms <==> Castles(p, m)
    ensures NoDup(ms)
  {
    var q := p.squares;
    var e := IsAttacked(q, 4, Black);
    if q[4] != Man(White, King) || e {
      NoneUnready(p);
      return [];
    }
    ShortRule(p);
    LongRule(p);
    var short, long: seq<Move> := [], [];
    var f := IsAttacked(q, 5, Black);
    var g := IsAttacked(q, 6, Black);
    if p.castling.wk && q[5] == Empty && q[6] == Empty && !f && !g && q[7] == Man(White, Rook) {
      short := [Move(4, 6, None)];
    }
    var c := IsAttacked(q, 2, Black);
    var d := IsAttacked(q, 3, Black);
    if p.castling.wq && q[1] == Empty && q[2] == Empty && q[3] == Empty && !c && !d && q[0] == Man(White, Rook) {
      long := [Move(4, 2, None)];
    }
    BothWings(p, short, long);
    return short + long;
  }

  /** Black's branch: e8, then f8, g8 and h8, then d8, c8, b8 and a8. */
  method GenBlackCastling(p: Position) returns (ms: seq<Move>)
    requires p.turn == Black
    ensures forall m :: m in ms <==> Castles(p, m)
    ensures NoDup(ms)
  {
    var q := p.squares;
    var e := IsAttacked(q, 60, White);
    if q[60] != Man(Black, King) || e {
      NoneUnready(p);
      return [];
    }
    ShortRule(p);
    LongRule(p);
    var short, long: seq<Move> := [], [];
    var f := IsAttacked(q, 61, White);
    var g := IsAttacked(q, 62, White);
    if p.castling.bk && q[61] == Empty && q[62] == Empty && !f && !g && q[63] == Man(Black, Rook) {
      short := [Move(60, 62, None)];
    }
    var c := IsAttacked(q, 58, White);
    var d := IsAttacked(q, 59, White);
    if p.castling.bq && q[57] == Empty && q[58] == Empty && q[59] == Empty && !c && !d && q[56] == Man(Black, Rook) {
      long := [Move(60, 58, None)];
    }
    BothWings(p, short, long);
    return short + long;
  }

  method GenCastling(p: Position) returns (ms: seq<Move>)
    ensures forall m :: m in ms <==> Castles(p, m)
    ensures NoDup(ms)
  {
    if p.turn == White {
      ms := GenWhiteCastling(p);
    } else {
      ms := GenBlackCastling(p);
    }
  }


  // ---- All pieces ----

  lemma StepRuleIsPieceMoves(p: Position, s: Square, deltas: seq<(int, int)>, m: Move)
    requires (p.squares[s] == Man(p.turn, Knight) && deltas == KNIGHT_DELTAS)
             || (p.squares[s] == Man(p.turn, King) && deltas == KING_DELTAS)
    ensures StepRule(p.squares, s, p.turn, deltas, m) <==> m.from == s && PieceMoves(p, m)
  {}

  lemma SlideRuleIsPieceMoves(p: Position, s: Square, dirs: seq<(int, int)>, slider: Kind, m: Move)
    requires p.squares[s] == Man(p.turn, slider) && DirsOf(dirs, slider)
    ensures SlideRule(p.squares, s, p.turn, dirs, m) <==> m.from == s && PieceMoves(p, m)
  {
    SlideRuleIsLine(p, s, dirs, slider, m);
  }

  /** The moves a slider's rays give are those along clear lines of its shape. */
  lemma SlideRuleIsLine(p: Position, s: Square, dirs: seq<(int, int)>, slider: Kind, m: Move)
    requires DirsOf(dirs, slider)
    ensures SlideRule(p.squares, s, p.turn, dirs, m) <==>
      && m.from == s && m.promotion == None && !Own(p.squares[m.to], p.turn)
      && (if slider == Bishop then Diagonal(DF(m), DR(m)) else Straight(DF(m), DR(m)))
      && Clear(p.squares, FileOf(s), RankOf(s), FileOf(m.to), RankOf(m.to))
  {
    if SlideRule(p.squares, s, p.turn, dirs, m) {
      var d :| d in dirs && RayRule(p.squares, s, p.turn, d, m);
      DirShape(dirs, slider, d);
      RayShape(p.squares, s, p.turn, d, m);
    }
    if m.from == s && m.promotion == None && !Own(p.squares[m.to], p.turn)
       && (if slider == Bishop then Diagonal(DF(m), DR(m)) else Straight(DF(m), DR(m)))
       && Clear(p.squares, FileOf(s), RankOf(s), FileOf(m.to), RankOf(m.to)) {
      LineIsRay(p.squares, s, p.turn, m);
      DirShape(dirs, slider, (Sign(DF(m)), Sign(DR(m))));
    }
  }

  /** The moves of a piece other than a pawn, castling aside. */
  method GenPiece(p: Position, s: Square) returns (ms: seq<Move>)
    requires Own(p.squares[s], p.turn) && p.squares[s].kind != Pawn
    ensures forall m :: m in ms <==> m.from == s && PieceMoves(p, m)
    ensures NoDup(ms)
  {
    var q, us := p.squares, p.turn;
    match q[s].kind
    case Knight =>
      ms := GenStep(q, s, us, KNIGHT_DELTAS);
      forall m ensures m in ms <==> m.from == s && PieceMoves(p, m) { StepRuleIsPieceMoves(p, s, KNIGHT_DELTAS, m); }
    case King =>
      ms := GenStep(q, s, us, KING_DELTAS);
      forall m ensures m in ms <==> m.from == s && PieceMoves(p, m) { StepRuleIsPieceMoves(p, s, KING_DELTAS, m); }
    case Bishop =>
      ms := GenSliding(q, s, us, BISHOP_DIRS);
      forall m ensures m in ms <==> m.from == s && PieceMoves(p, m)
      {
        SlideRuleIsPieceMoves(p, s, BISHOP_DIRS, Bishop, m);
      }
    case Rook =>
      ms := GenSliding(q, s, us, ROOK_DIRS);
      forall m ensures m in ms <==> m.from == s && PieceMoves(p, m) { SlideRuleIsPieceMoves(p, s, ROOK_DIRS, Rook, m); }
    case Queen =>
      ms := GenQueen(p, s);
  }

  method GenQueen(p: Position, s: Square) returns (ms: seq<Move>)
    requires p.squares[s] == Man(p.turn, Queen)
    ensures forall m :: m in ms <==> m.from == s && PieceMoves(p, m)
    ensures NoDup(ms)
  {
    var diagonals := GenSliding(p.squares, s, p.turn, BISHOP_DIRS);
    var straights := GenSliding(p.squares, s, p.turn, ROOK_DIRS);
    forall m
      ensures m in diagonals || m in straights <==> m.from == s && PieceMoves(p, m)
      ensures m in diagonals ==> m !in straights
    {
      SlideRuleIsLine(p, s, BISHOP_DIRS, Bishop, m);
      SlideRuleIsLine(p, s, ROOK_DIRS, Rook, m);
    }
    NoDupAppend(diagonals, straights);
    ms := diagonals + straights;
  }

  /** How many kings of colour `c` stand on the first `n` squares. */
  ghost function KingsBelow(q: Squares, c: Color, n: nat): nat
    requires n <= 64
  {
    if n == 0 then 0 else KingsBelow(q, c, n - 1) + if q[n - 1] == Man(c, King) then 1 else 0
  }

  /** A king's step is never a castling move. */
  lemma CastlingIsNoStep(p: Position, m: Move)
    requires Castles(p, m)
    ensures p.squares[m.from] == Man(p.turn, King) && !PieceMoves(p, m)
  {}

  method GenKing(p: Position, s: Square) returns (ms: seq<Move>)
    requires p.squares[s] == Man(p.turn, King)
    ensures forall m :: m in ms <==> (m.from == s && PieceMoves(p, m)) || Castles(p, m)
    ensures NoDup(ms)
  {
    var steps := GenPiece(p, s);
    var castling := GenCastling(p);
    forall m | m in steps ensures m !in castling {
      if m in castling {
        CastlingIsNoStep(p, m);
      }
    }
    NoDupAppend(steps, castling);
    ms := steps + castling;
  }

  /** The moves generated for the piece on `s`; a king also generates the castling moves of its side. */
  method GenFrom(p: Position, s: Square) returns (ms: seq<Move>)
    requires Own(p.squares[s], p.turn)
    ensures forall m :: m in ms <==>
      PseudoLegal(p, m) && if Castles(p, m) then p.squares[s] == Man(p.turn, King) else m.from == s
    ensures NoDup(ms)
  {
    forall m | Castles(p, m) ensures p.squares[m.from] == Man(p.turn, King) && !PieceMoves(p, m) {
      CastlingIsNoStep(p, m);
    }
    match p.squares[s].kind
    case Pawn =>
      ms := GenPawn(p, s);
    case King =>
      ms := GenKing(p, s);
    case _ =>
      ms := GenPiece(p, s);
  }

  /** How often a move is generated once the first `n` squares are done: a castling move once
      for every king of the side to move, any other pseudo-legal move once. */
  ghost function Multiplicity(p: Position, n: nat, m: Move): nat
    requires n <= 64
  {
    if !PseudoLegal(p, m) then 0
    else if Castles(p, m) then KingsBelow(p.squares, p.turn, n)
    else if m.from < n then 1 else 0
  }

  lemma NoDupCounts(ms: seq<Move>)
    ensures NoDup(ms) <==> forall m :: multiset(ms)[m] <= 1
  {
    if NoDup(ms) {
      forall m ensures multiset(ms)[m] <= 1 { NoDupCount(ms, m); }
    } else {
      var i, j :| 0 <= i < j < |ms| && ms[i] == ms[j];
      assert ms == ms[..j] + [ms[j]] + ms[j + 1..];
      assert ms[i] == ms[..j][i] && ms[i] in ms[..j];
      assert multiset(ms)[ms[j]] >= 2;
    }
  }

  lemma {:induction false} NoDupCount(ms: seq<Move>, m: Move)
    requires NoDup(ms)
    ensures multiset(ms)[m] == if m in ms then 1 else 0
  {
    if ms != [] {
      var rest := ms[..|ms| - 1];
      assert ms == rest + [ms[|ms| - 1]];
      NoDupCount(rest, m);
    }
  }

  method PseudoLegalMoves(p: Position) returns (ms: seq<Move>)
    ensures forall m :: multiset(ms)[m] == Multiplicity(p, 64, m)
  {
    ms := [];
    for s := 0 to 64
      invariant forall m :: multiset(ms)[m] == Multiplicity(p, s, m)
    {
      var piece := p.squares[s];
      if piece == Empty || piece.color != p.turn {
        continue;
      }
      var more := GenFrom(p, s);
      forall m ensures multiset(ms + more)[m] == Multiplicity(p, s + 1, m) {
        NoDupCount(more, m);
        assert multiset(ms + more)[m] == multiset(ms)[m] + multiset(more)[m];
      }
      ms := ms + more;
    }
  }

  lemma KingSquareUnique(q: Squares, c: Color, s: int)
    requires IsKingSquare(q, c, s)
    ensures KingAttacked(q, c) <==> SquareAttacked(q, s, c.Opposite())
  {}

  /** A castling move presupposes a king, so it is generated at least once. */
  lemma CastlingHasKing(p: Position, m: Move)
    requires Castles(p, m)
    ensures KingsBelow(p.squares, p.turn, 64) > 0
  {
    CastlingIsNoStep(p, m);
    KingsBelowPositive(p.squares, p.turn, m.from, 64);
  }

  lemma {:induction false} KingsBelowPositive(q: Squares, c: Color, s: Square, n: nat)
    requires s < n <= 64 && q[s] == Man(c, King)
    ensures KingsBelow(q, c, n) > 0
  {
    if s < n - 1 {
      KingsBelowPositive(q, c, s, n - 1);
    }
  }

  /** The legal moves of any board, kingless and many-kinged ones included: exactly those of the
      rule relation, each once, except that a castling move is listed once per own king. */
  method LegalMoves(p: Position) returns (ms: seq<Move>)
    ensures forall m :: m in ms <==> Legal(p, m)
    ensures forall m :: multiset(ms)[m] == if Legal(p, m) then Multiplicity(p, 64, m) else 0
    ensures NoDup(ms) <==> KingsBelow(p.squares, p.turn, 64) <= 1 || forall m :: Legal(p, m) ==> !Castles(p, m)
  {
    var pseudo := PseudoLegalMoves(p);
    ms := [];
    for i := 0 to |pseudo|
      invariant forall m :: multiset(ms)[m] == if Legal(p, m) then multiset(pseudo[..i])[m] else 0
    {
      var m := pseudo[i];
      assert m in multiset(pseudo) && PseudoLegal(p, m);
      assert pseudo[..i + 1] == pseudo[..i] + [m];
      VictimOnBoard(p, m);
      var nb := ApplyMoveUnchecked(p, m);
      var ks := KingSquare(nb.squares, p.turn);
      var attacked := IsAttacked(nb.squares, ks, p.turn.Opposite());
      KingSquareUnique(nb.squares, p.turn, ks);
      if !attacked {
        ms := ms + [m];
      }
    }
    assert pseudo[..|pseudo|] == pseudo;
    forall m | Castles(p, m) ensures KingsBelow(p.squares, p.turn, 64) > 0 { CastlingHasKing(p, m); }
    forall m ensures m in ms <==> Legal(p, m) { assert m in ms <==> m in multiset(ms); }
    NoDupCounts(ms);
  }

  /** A pseudo-legal en-passant capture names a square on the board, even on a board whose
      en-passant target is nonsense. */
  lemma VictimOnBoard(p: Position, m: Move)
    requires PseudoLegal(p, m)
    ensures Applicable(p, m)
  {}

  method IsLegal(p: Position, m: Move) returns (ok: bool)
    ensures ok <==> Legal(p, m)
  {
    var ms := LegalMoves(p);
    for i := 0 to |ms|
      invariant m !in ms[..i]
    {
      if ms[i] == m {
        return true;
      }
    }
    assert ms[..|ms|] == ms;
    return false;
  }

  /** The resulting position, or nothing when the move is illegal. */
  method ApplyMove(p: Position, m: Move) returns (after: Option<Position>)
    ensures after == if Legal(p, m) then Some(Apply(p, m)) else None
  {
    var ok := IsLegal(p, m);
    if !ok {
      return None;
    }
    VictimOnBoard(p, m);
    var nb := ApplyMoveUnchecked(p, m);
    return Some(nb);
  }
}
