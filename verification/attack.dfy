/** Attack detection by rays cast backwards from the attacked square. */
module Attack {
  import opened Board

  const KNIGHT_DELTAS: seq<(int, int)> :=
    [(1, 2), (2, 1), (2, -1), (1, -2), (-1, -2), (-2, -1), (-2, 1), (-1, 2)]
  const KING_DELTAS: seq<(int, int)> :=
    [(1, 0), (1, 1), (0, 1), (-1, 1), (-1, 0), (-1, -1), (0, -1), (1, -1)]
  const BISHOP_DIRS: seq<(int, int)> := [(1, 1), (1, -1), (-1, 1), (-1, -1)]
  const ROOK_DIRS: seq<(int, int)> := [(1, 0), (-1, 0), (0, 1), (0, -1)]

  predicate UnitDir(d: (int, int)) {
    -1 <= d.0 <= 1 && -1 <= d.1 <= 1 && d != (0, 0)
  }

  ghost predicate UnitDirs(dirs: seq<(int, int)>) {
    forall d :: d in dirs ==> UnitDir(d)
  }

  /** A coordinate from which the code casts rays: a square, or the missing square -1. */
  predicate RayOrigin(f: int, r: int) {
    OnBoard(f, r) || (f == -1 && r == 0)
  }

  /** Walking `k` steps from (f, r), the first piece met is `man`. */
  ghost predicate Meets(q: Squares, f: int, r: int, d: (int, int), k: int, man: Piece) {
    k > 0 && RayClear(q, f, r, d.0, d.1, k) && man.Man? && RayAt(q, f, r, d.0, d.1, k) == man
  }

  ghost predicate MeetsSlider(q: Squares, f: int, r: int, d: (int, int), side: Color, slider: Kind) {
    exists k :: Meets(q, f, r, d, k, Man(side, slider)) || Meets(q, f, r, d, k, Man(side, Queen))
  }

  /** A clear line is clear in both directions. */
  lemma ClearReverse(q: Squares, f: int, r: int, tf: int, tr: int)
    requires Diagonal(tf - f, tr - r) || Straight(tf - f, tr - r)
    requires Clear(q, f, r, tf, tr)
    ensures Clear(q, tf, tr, f, r)
  {
    var n := Dist(tf - f, tr - r);
    var df, dr := Sign(tf - f), Sign(tr - r);
    var bf, br := Sign(f - tf), Sign(r - tr);
    forall k | 0 < k < n
      ensures RayAt(q, tf, tr, bf, br, k).Empty?
    {
      assert RayAt(q, f, r, df, dr, n - k).Empty?;
      assert tf + Along(bf, k) == f + Along(df, n - k);
      assert tr + Along(br, k) == r + Along(dr, n - k);
    }
  }

  /** What a ray meets k steps out has a clear line back to the origin of the ray. */
  lemma MeetsIsClear(q: Squares, f: int, r: int, d: (int, int), k: int, man: Piece)
    requires UnitDir(d) && Meets(q, f, r, d, k, man)
    ensures var tf, tr := f + Along(d.0, k), r + Along(d.1, k);
            OnBoard(tf, tr) && Clear(q, tf, tr, f, r)
            && (d.0 != 0 && d.1 != 0 ==> Diagonal(f - tf, r - tr))
            && (d.0 == 0 || d.1 == 0 ==> Straight(f - tf, r - tr))
  {
    var tf, tr := f + Along(d.0, k), r + Along(d.1, k);
    assert Dist(tf - f, tr - r) == k && Sign(tf - f) == d.0 && Sign(tr - r) == d.1;
    ClearReverse(q, f, r, tf, tr);
  }

  /** A piece with a clear line to (f, r) is what the ray towards it meets. */
  lemma ClearIsMet(q: Squares, tf: int, tr: int, f: int, r: int)
    requires At(q, tf, tr).Man?
    requires Diagonal(f - tf, r - tr) || Straight(f - tf, r - tr)
    requires Clear(q, tf, tr, f, r)
    ensures var d := (Sign(tf - f), Sign(tr - r));
            UnitDir(d) && Meets(q, f, r, d, Dist(tf - f, tr - r), At(q, tf, tr))
  {
    ClearReverse(q, tf, tr, f, r);
    var n := Dist(tf - f, tr - r);
    assert f + Along(Sign(tf - f), n) == tf && r + Along(Sign(tr - r), n) == tr;
  }

  /** Beyond its first piece, or beyond the edge, a ray meets nothing. */
  lemma RayEnds(q: Squares, f: int, r: int, d: (int, int), k: int, man: Piece)
    requires RayOrigin(f, r) && UnitDir(d) && k > 0
    requires RayClear(q, f, r, d.0, d.1, k)
    requires !OnBoard(f + Along(d.0, k), r + Along(d.1, k))
             || (RayAt(q, f, r, d.0, d.1, k).Man? && RayAt(q, f, r, d.0, d.1, k) != man)
    ensures forall j :: !Meets(q, f, r, d, j, man)
  {}

  lemma NothingMet(q: Squares, f: int, r: int, d: (int, int), k: int, side: Color, slider: Kind)
    requires RayOrigin(f, r) && UnitDir(d) && k > 0 && RayClear(q, f, r, d.0, d.1, k)
    requires !OnBoard(f + Along(d.0, k), r + Along(d.1, k))
             || RayAt(q, f, r, d.0, d.1, k) !in {Empty, Man(side, slider), Man(side, Queen)}
    ensures !MeetsSlider(q, f, r, d, side, slider)
  {
    RayEnds(q, f, r, d, k, Man(side, slider));
    RayEnds(q, f, r, d, k, Man(side, Queen));
  }

  lemma SliderMet(q: Squares, f: int, r: int, d: (int, int), k: int, side: Color, slider: Kind)
    requires k > 0 && RayClear(q, f, r, d.0, d.1, k)
    requires RayAt(q, f, r, d.0, d.1, k) in {Man(side, slider), Man(side, Queen)}
    ensures MeetsSlider(q, f, r, d, side, slider)
  {
    assert Meets(q, f, r, d, k, RayAt(q, f, r, d.0, d.1, k));
  }

  method CastRay(q: Squares, f: int, r: int, d: (int, int), side: Color, slider: Kind) returns (hit: bool)
    requires RayOrigin(f, r) && UnitDir(d)
    ensures hit <==> MeetsSlider(q, f, r, d, side, slider)
  {
    var nf, nr := f + d.0, r + d.1;
    ghost var k := 1;
    while OnBoard(nf, nr)
      invariant k > 0 && nf == f + Along(d.0, k) && nr == r + Along(d.1, k)
      invariant RayClear(q, f, r, d.0, d.1, k)
      decreases 9 - k
    {
      var p := q[Sq(nf, nr)];
      assert p == RayAt(q, f, r, d.0, d.1, k);
      if p != Empty {
        if p.color == side && (p.kind == slider || p.kind == Queen) {
          SliderMet(q, f, r, d, k, side, slider);
          return true;
        }
        break;
      }
      nf, nr := nf + d.0, nr + d.1;
      k := k + 1;
    }
    NothingMet(q, f, r, d, k, side, slider);
    return false;
  }

  method SlidingAttack(q: Squares, f: int, r: int, dirs: seq<(int, int)>, side: Color, slider: Kind)
    returns (hit: bool)
    requires RayOrigin(f, r) && UnitDirs(dirs)
    ensures hit <==> exists d :: d in dirs && MeetsSlider(q, f, r, d, side, slider)
  {
    for i := 0 to |dirs|
      invariant forall j :: 0 <= j < i ==> !MeetsSlider(q, f, r, dirs[j], side, slider)
    {
      var seen := CastRay(q, f, r, dirs[i], side, slider);
      if seen {
        return true;
      }
    }
    return false;
  }

  /** Some piece of kind `kind` and colour `side` stands one listed step away from (f, r). */
  ghost predicate StepAway(q: Squares, f: int, r: int, deltas: seq<(int, int)>, man: Piece) {
    exists d :: d in deltas && At(q, f + d.0, r + d.1) == man
  }

  method LeapAttack(q: Squares, f: int, r: int, deltas: seq<(int, int)>, man: Piece) returns (hit: bool)
    requires man.Man?
    ensures hit <==> StepAway(q, f, r, deltas, man)
  {
    for i := 0 to |deltas|
      invariant forall j :: 0 <= j < i ==> At(q, f + deltas[j].0, r + deltas[j].1) != man
    {
      var nf, nr := f + deltas[i].0, r + deltas[i].1;
      if OnBoard(nf, nr) && q[Sq(nf, nr)] == man {
        assert deltas[i] in deltas;
        return true;
      }
    }
    return false;
  }

  /** A pawn of colour `side` stands where it would be attacking (f, r). */
  ghost predicate PawnBeside(q: Squares, f: int, r: int, side: Color) {
    At(q, f - 1, r - side.Forward()) == Man(side, Pawn) || At(q, f + 1, r - side.Forward()) == Man(side, Pawn)
  }

  method PawnAttack(q: Squares, f: int, r: int, side: Color) returns (hit: bool)
    ensures hit <==> PawnBeside(q, f, r, side)
  {
    var pawnRank := if side == White then r - 1 else r + 1;
    if 0 <= pawnRank < 8 {
      var dfs := [-1, 1];
      for i := 0 to 2
        invariant i > 0 ==> At(q, f - 1, pawnRank) != Man(side, Pawn)
        invariant i > 1 ==> At(q, f + 1, pawnRank) != Man(side, Pawn)
      {
        var pf := f + dfs[i];
        if 0 <= pf < 8 && q[Sq(pf, pawnRank)] == Man(side, Pawn) {
          return true;
        }
      }
    }
    return false;
  }

  // ---- Each part of the backward test, read forwards ----

  /** A piece of kind `kind` and colour `side` attacks (f, r). */
  ghost predicate AttackedByKind(q: Squares, f: int, r: int, side: Color, kind: Kind) {
    exists s: Square :: q[s] == Man(side, kind) && AttacksFrom(q, s, side, f, r)
  }

  /** A knight or a king on (0, 0) reaches (df, dr). */
  predicate Leaps(kind: Kind, df: int, dr: int) {
    if kind == Knight then KnightLeap(df, dr) else kind == King && KingStep(df, dr)
  }

  /** The table lists exactly the steps from a square back to the pieces of this kind that reach it. */
  ghost predicate LeapTable(deltas: seq<(int, int)>, kind: Kind) {
    forall df, dr :: (df, dr) in deltas <==> Leaps(kind, -df, -dr)
  }

  lemma KnightTable()
    ensures LeapTable(KNIGHT_DELTAS, Knight)
  {
    forall df, dr ensures (df, dr) in KNIGHT_DELTAS <==> Leaps(Knight, -df, -dr) {}
  }

  lemma KingTable()
    ensures LeapTable(KING_DELTAS, King)
  {
    forall df, dr ensures (df, dr) in KING_DELTAS <==> Leaps(King, -df, -dr) {}
  }

  lemma LeapIsAttack(q: Squares, s: Square, side: Color, kind: Kind, f: int, r: int)
    requires (kind == Knight || kind == King) && q[s] == Man(side, kind)
    ensures AttacksFrom(q, s, side, f, r) <==> Leaps(kind, f - FileOf(s), r - RankOf(s))
  {}

  lemma LeapFound(q: Squares, f: int, r: int, side: Color, kind: Kind, deltas: seq<(int, int)>)
    requires (kind == Knight || kind == King) && LeapTable(deltas, kind)
    requires StepAway(q, f, r, deltas, Man(side, kind))
    ensures AttackedByKind(q, f, r, side, kind)
  {
    var d :| d in deltas && At(q, f + d.0, r + d.1) == Man(side, kind);
    assert (d.0, d.1) in deltas;
    Coordinates(f + d.0, r + d.1);
    LeapIsAttack(q, Sq(f + d.0, r + d.1), side, kind, f, r);
  }

  lemma LeapForward(q: Squares, f: int, r: int, side: Color, kind: Kind, deltas: seq<(int, int)>)
    requires (kind == Knight || kind == King) && LeapTable(deltas, kind)
    ensures StepAway(q, f, r, deltas, Man(side, kind)) <==> AttackedByKind(q, f, r, side, kind)
  {
    if StepAway(q, f, r, deltas, Man(side, kind)) {
      LeapFound(q, f, r, side, kind, deltas);
    }
    if AttackedByKind(q, f, r, side, kind) {
      var s: Square :| q[s] == Man(side, kind) && AttacksFrom(q, s, side, f, r);
      LeapIsAttack(q, s, side, kind, f, r);
      var df, dr := FileOf(s) - f, RankOf(s) - r;
      SquareOf(s);
      assert (df, dr) in deltas && At(q, f + (df, dr).0, r + (df, dr).1) == Man(side, kind);
    }
  }

  lemma PawnForward(q: Squares, f: int, r: int, side: Color)
    ensures PawnBeside(q, f, r, side) <==> AttackedByKind(q, f, r, side, Pawn)
  {}

  /** The line a slider of this kind uses has the shape of its ray directions. */
  ghost predicate DirsOf(dirs: seq<(int, int)>, slider: Kind) {
    (slider == Bishop && dirs == BISHOP_DIRS) || (slider == Rook && dirs == ROOK_DIRS)
  }

  lemma DirShape(dirs: seq<(int, int)>, slider: Kind, d: (int, int))
    requires DirsOf(dirs, slider)
    ensures d in dirs <==> UnitDir(d) && ((d.0 != 0 && d.1 != 0) <==> slider == Bishop)
  {}

  /** A slider, or a queen using that slider's lines, attacks (f, r). */
  ghost predicate AttackedOnLine(q: Squares, f: int, r: int, side: Color, slider: Kind) {
    exists s: Square ::
      (q[s] == Man(side, slider) || q[s] == Man(side, Queen)) && LineTo(q, s, f, r, slider)
  }

  ghost predicate LineTo(q: Squares, s: Square, f: int, r: int, slider: Kind) {
    var df, dr := f - FileOf(s), r - RankOf(s);
    (if slider == Bishop then Diagonal(df, dr) else Straight(df, dr)) && Clear(q, FileOf(s), RankOf(s), f, r)
  }

  lemma RayToLine(q: Squares, f: int, r: int, dirs: seq<(int, int)>, side: Color, slider: Kind, d: (int, int))
    requires DirsOf(dirs, slider) && d in dirs && MeetsSlider(q, f, r, d, side, slider)
    ensures AttackedOnLine(q, f, r, side, slider)
  {
    DirShape(dirs, slider, d);
    var k :| Meets(q, f, r, d, k, Man(side, slider)) || Meets(q, f, r, d, k, Man(side, Queen));
    if Meets(q, f, r, d, k, Man(side, slider)) {
      MeetsOnLine(q, f, r, d, k, Man(side, slider), slider);
    } else {
      MeetsOnLine(q, f, r, d, k, Man(side, Queen), slider);
    }
  }

  lemma MeetsOnLine(q: Squares, f: int, r: int, d: (int, int), k: int, man: Piece, slider: Kind)
    requires UnitDir(d) && ((d.0 != 0 && d.1 != 0) <==> slider == Bishop) && Meets(q, f, r, d, k, man)
    ensures exists s: Square :: q[s] == man && LineTo(q, s, f, r, slider)
  {
    MeetsIsClear(q, f, r, d, k, man);
    var tf, tr := f + Along(d.0, k), r + Along(d.1, k);
    Coordinates(tf, tr);
    assert q[Sq(tf, tr)] == man && LineTo(q, Sq(tf, tr), f, r, slider);
  }

  lemma LineToRay(q: Squares, f: int, r: int, dirs: seq<(int, int)>, side: Color, slider: Kind)
    requires DirsOf(dirs, slider) && AttackedOnLine(q, f, r, side, slider)
    ensures exists d :: d in dirs && MeetsSlider(q, f, r, d, side, slider)
  {
    var s: Square :| (q[s] == Man(side, slider) || q[s] == Man(side, Queen)) && LineTo(q, s, f, r, slider);
    SquareOf(s);
    var d := (Sign(FileOf(s) - f), Sign(RankOf(s) - r));
    ClearIsMet(q, FileOf(s), RankOf(s), f, r);
    DirShape(dirs, slider, d);
    assert MeetsSlider(q, f, r, d, side, slider);
  }

  /** The kinds together are all the attackers there are. */
  lemma AttackersByKind(q: Squares, f: int, r: int, side: Color)
    ensures Attacked(q, f, r, side) <==>
              || AttackedByKind(q, f, r, side, Pawn)
              || AttackedByKind(q, f, r, side, Knight)
              || AttackedByKind(q, f, r, side, King)
              || AttackedOnLine(q, f, r, side, Bishop)
              || AttackedOnLine(q, f, r, side, Rook)
  {
    forall s: Square
      ensures AttacksFrom(q, s, side, f, r) <==>
              q[s].Man? && q[s].color == side && match q[s].kind
                case Bishop => LineTo(q, s, f, r, Bishop)
                case Rook => LineTo(q, s, f, r, Rook)
                case Queen => LineTo(q, s, f, r, Bishop) || LineTo(q, s, f, r, Rook)
                case _ => AttacksFrom(q, s, side, f, r)
    {}
  }

  method KnightAttack(q: Squares, f: int, r: int, side: Color) returns (hit: bool)
    ensures hit <==> AttackedByKind(q, f, r, side, Knight)
  {
    KnightTable();
    LeapForward(q, f, r, side, Knight, KNIGHT_DELTAS);
    hit := LeapAttack(q, f, r, KNIGHT_DELTAS, Man(side, Knight));
  }

  method KingAttack(q: Squares, f: int, r: int, side: Color) returns (hit: bool)
    ensures hit <==> AttackedByKind(q, f, r, side, King)
  {
    KingTable();
    LeapForward(q, f, r, side, King, KING_DELTAS);
    hit := LeapAttack(q, f, r, KING_DELTAS, Man(side, King));
  }

  method LineAttack(q: Squares, f: int, r: int, dirs: seq<(int, int)>, side: Color, slider: Kind)
    returns (hit: bool)
    requires RayOrigin(f, r) && DirsOf(dirs, slider)
    ensures hit <==> AttackedOnLine(q, f, r, side, slider)
  {
    hit := SlidingAttack(q, f, r, dirs, side, slider);
    if d :| d in dirs && MeetsSlider(q, f, r, d, side, slider) {
      RayToLine(q, f, r, dirs, side, slider, d);
    }
    if AttackedOnLine(q, f, r, side, slider) {
      LineToRay(q, f, r, dirs, side, slider);
    }
  }

  /** The backward-cast test finds exactly the squares attacked in the forward sense. */
  method IsAttacked(q: Squares, s: int, side: Color) returns (attacked: bool)
    requires -1 <= s < 64
    ensures attacked <==> SquareAttacked(q, s, side)
  {
    var f, r := FileOf(s), RankOf(s);
    AttackersByKind(q, f, r, side);
    PawnForward(q, f, r, side);
    attacked := PawnAttack(q, f, r, side);
    if attacked {
      return;
    }
    attacked := KnightAttack(q, f, r, side);
    if attacked {
      return;
    }
    attacked := KingAttack(q, f, r, side);
    if attacked {
      return;
    }
    attacked := LineAttack(q, f, r, BISHOP_DIRS, side, Bishop);
    if attacked {
      return;
    }
    attacked := LineAttack(q, f, r, ROOK_DIRS, side, Rook);
  }

  // ---- Kings ----

  method KingSquare(q: Squares, c: Color) returns (s: int)
    ensures IsKingSquare(q, c, s)
    ensures -1 <= s < 64
  {
    var want := Man(c, King);
    for t := 0 to 64
      invariant forall u: Square :: u < t ==> q[u] != want
    {
      if q[t] == want {
        return t;
      }
    }
    return NO_SQUARE;
  }

  method InCheck(p: Position) returns (check: bool)
    ensures check <==> Checked(p)
  {
    var ks := KingSquare(p.squares, p.turn);
    if ks == NO_SQUARE {
      return false;
    }
    check := IsAttacked(p.squares, ks, p.turn.Opposite());
  }
}
