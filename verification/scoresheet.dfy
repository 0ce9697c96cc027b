/** What a reader recovers from the written text of a move and of a game. */
module Scoresheet {
  import opened Board
  import opened Rules
  import opened Invariant
  import opened Laws
  import opened Material
  import opened Text
  import opened Notation
  import opened Fen
  import opened San
  import opened Pgn

  // ---- The sign ----

  /** The text without its check or mate sign. */
  function Unsigned(t: string): string {
    if t != "" && t[|t| - 1] in "+#" then t[..|t| - 1] else t
  }

  lemma SignCut(p: Position, m: Move)
    requires p.squares[m.from].Man?
    ensures Unsigned(SanText(p, m)) == Body(p, m)
  {
    var b, s := Body(p, m), CheckSuffix(p, m);
    BodyEnds(p, m);
    assert b + "" == b;
    assert s != "" ==> (b + s)[..|b|] == b && (b + s)[|b|] == s[0];
  }

  /** The text ends in '#' exactly when the move mates, and in '+' exactly when it gives a check that
      can be answered. */
  lemma SignTold(p: Position, m: Move)
    requires Sound(p) && Legal(p, m)
    ensures var t, after, foe := SanText(p, m), Apply(p, m), p.turn.Opposite();
      && t != "" && (t[|t| - 1] == '#' <==> Mated(after, foe))
      && (t[|t| - 1] == '+' <==> KingHit(after.squares, foe) && exists n :: Legal(after, n))
  {
    LegalKeepsSound(p, m);
    CheckedIsHit(Apply(p, m));
    BodyEnds(p, m);
    SuffixTold(p, m);
    var b, s := Body(p, m), CheckSuffix(p, m);
    assert SanText(p, m) == b + s;
    assert s == "" ==> b + s == b;
    assert s != "" ==> (b + s)[|b|] == s[0] && |s| == 1;
  }

  lemma SuffixTold(p: Position, m: Move)
    ensures var after := Apply(p, m);
      && CheckSuffix(p, m) in {"", "+", "#"}
      && (CheckSuffix(p, m) == "#" <==> Checked(after) && forall n :: !Legal(after, n))
      && (CheckSuffix(p, m) == "+" <==> Checked(after) && exists n :: Legal(after, n))
  {}

  // ---- What moves ----

  /** Castling is "O-O" when the king goes two files towards h, "O-O-O" when it goes two towards a, and
      nothing else is written so. */
  lemma CastlingTold(p: Position, m: Move)
    requires PseudoLegal(p, m)
    ensures var u, king := Unsigned(SanText(p, m)), p.squares[m.from].kind == King;
      && (u == "O-O" <==> king && FileOf(m.to) == FileOf(m.from) + 2 == 6)
      && (u == "O-O-O" <==> king && FileOf(m.to) == FileOf(m.from) - 2 == 2)
  {
    SignCut(p, m);
    FirstChar(p, m);
    CastlingShape(p, m);
    if Castles(p, m) {
      Coordinates(4, p.turn.HomeRank());
      Coordinates(6, p.turn.HomeRank());
      Coordinates(2, p.turn.HomeRank());
    }
  }

  /** Otherwise the text begins with the letter a position's text has for that white piece, or, for a
      pawn, with the file it leaves. */
  lemma MoverTold(p: Position, m: Move)
    requires Sound(p) && PseudoLegal(p, m) && !Castles(p, m)
    ensures var t := SanText(p, m);
      && t != ""
      && if IsPawn(p.squares[m.from]) then t[0] == SquareName(m.from)[0]
         else PieceOf(t[0]) == Some(Man(White, p.squares[m.from].kind))
  {
    CastlingShape(p, m);
    FirstChar(p, m);
    assert SanText(p, m)[0] == Body(p, m)[0];
    if IsPawn(p.squares[m.from]) {
      PawnText(p, m);
      assert DF(m) == 0 ==> Body(p, m)[0..2][0] == Body(p, m)[0];
    }
  }

  // ---- Where it goes ----

  /** The name of the destination comes last, and after it only '=' and the letter of the white piece a
      pawn becomes. */
  lemma DestinationTold(p: Position, m: Move)
    requires Sound(p) && PseudoLegal(p, m) && !Castles(p, m)
    ensures var u := Unsigned(SanText(p, m));
      && |u| >= 2 && (m.promotion.Some? <==> '=' in u)
      && if m.promotion.Some? then
           && |u| >= 4 && u[|u| - 4..|u| - 2] == SquareName(m.to) && u[|u| - 2] == '='
           && PieceOf(u[|u| - 1]) == Some(Man(White, m.promotion.value))
         else u[|u| - 2..] == SquareName(m.to)
  {
    SignCut(p, m);
    if IsPawn(p.squares[m.from]) {
      PawnPromotes(p, m);
      PawnDestination(p, m);
    } else {
      PieceDestination(p, m);
    }
  }

  lemma PawnDestination(p: Position, m: Move)
    requires IsPawn(p.squares[m.from]) && (m.promotion.Some? ==> IsPromotionKind(m.promotion))
    ensures var b, n := Body(p, m), if m.promotion.Some? then |Body(p, m)| - 2 else |Body(p, m)|;
      && 2 <= n && b[n - 2..n] == SquareName(m.to) && (m.promotion.Some? <==> '=' in b)
      && (m.promotion.Some? ==> b[n] == '=' && PieceOf(b[n + 1]) == Some(Man(White, m.promotion.value)))
  {
    var head := PawnBody(p, m);
    PromotionEnds(head, SquareName(m.to), m.promotion);
  }

  lemma PawnBody(p: Position, m: Move) returns (head: string)
    requires IsPawn(p.squares[m.from])
    ensures Body(p, m) == head + SquareName(m.to) + PromotionText(m.promotion)
    ensures '=' !in head && '=' !in SquareName(m.to)
  {
    head := if WritesCapture(p, m) then [FileChar(FileOf(m.from)), 'x'] else "";
  }

  lemma PromotionEnds(head: string, name: string, k: Option<Kind>)
    requires |name| == 2 && '=' !in head && '=' !in name && (k.Some? ==> IsPromotionKind(k))
    ensures var b, n := head + name + PromotionText(k), |head| + 2;
      && n >= 2 && b[n - 2..n] == name && (k.Some? <==> '=' in b) && |b| == (if k.Some? then n + 2 else n)
      && (k.Some? ==> b[n] == '=' && PieceOf(b[n + 1]) == Some(Man(White, k.value)))
  {
    var b, n := head + name + PromotionText(k), |head| + 2;
    assert b[n - 2..n] == name;
    assert k.Some? ==> b[n] == '=';
  }

  lemma PieceDestination(p: Position, m: Move)
    requires PseudoLegal(p, m) && !IsPawn(p.squares[m.from]) && !Castles(p, m)
    ensures var b := Body(p, m); |b| >= 2 && b[|b| - 2..] == SquareName(m.to) && m.promotion == None && '=' !in b
  {
    CastlingShape(p, m);
    PieceText(p, m);
    assert '=' !in SquareName(m.to) && '=' !in Disambiguation(p, m);
  }

  /** A capture is written exactly when the opponent loses a man. */
  lemma CaptureTold(p: Position, m: Move)
    requires Sound(p) && PseudoLegal(p, m)
    ensures var foe := p.turn.Opposite();
      'x' in SanText(p, m) <==> Men(Apply(p, m).squares, foe) < Men(p.squares, foe)
  {
    MenAfter(p, m);
    CastlingShape(p, m);
    BodyCapture(p, m);
    SuffixTold(p, m);
  }

  lemma BodyCapture(p: Position, m: Move)
    requires p.squares[m.from].Man?
    ensures 'x' in Body(p, m) <==> !IsCastling(p, m) && WritesCapture(p, m)
  {
    NoCaptureSign(p, m);
    var kind, name, sign := p.squares[m.from].kind, SquareName(m.to), if WritesCapture(p, m) then "x" else "";
    if IsCastling(p, m) {
      assert 'x' !in Body(p, m);
    } else if kind == Pawn {
      var head := if WritesCapture(p, m) then [FileChar(FileOf(m.from)), 'x'] else "";
      assert Body(p, m) == head + name + PromotionText(m.promotion);
    } else {
      assert Body(p, m) == [PieceLetter(kind)] + Disambiguation(p, m) + sign + name;
    }
  }

  lemma NoCaptureSign(p: Position, m: Move)
    ensures 'x' !in SquareName(m.to) && 'x' !in Disambiguation(p, m) && 'x' !in PromotionText(m.promotion)
  {
    assert forall s: Square :: 'x' !in SquareName(s);
  }

  // ---- Where it comes from ----

  /** A piece of the same kind and colour, the mover itself included, that may go there too. */
  ghost predicate Candidate(p: Position, m: Move, s: Square) {
    p.squares[s] == p.squares[m.from] && Legal(p, Move(s, m.to, None))
  }

  /** An origin names a square by nothing, its file, its rank, or both. */
  predicate Fits(origin: string, s: Square) {
    origin in {"", SquareName(s)[..1], SquareName(s)[1..], SquareName(s)}
  }

  ghost predicate Enough(p: Position, m: Move, origin: string) {
    forall s :: Candidate(p, m, s) && Fits(origin, s) ==> s == m.from
  }

  /** What is written between the piece and the destination. */
  function Origin(t: string): string {
    var u := Unsigned(t);
    var after := |u| - (if 'x' in u then 3 else 2);
    if 1 <= after <= |u| then u[1..after] else ""
  }

  lemma OriginIs(p: Position, m: Move)
    requires PseudoLegal(p, m) && !IsPawn(p.squares[m.from]) && !Castles(p, m)
    ensures Origin(SanText(p, m)) == Disambiguation(p, m)
  {
    SignCut(p, m);
    CastlingShape(p, m);
    BodyCapture(p, m);
    PieceText(p, m);
  }

  lemma RivalIs(p: Position, m: Move, s: Square)
    requires PseudoLegal(p, m) && !IsPawn(p.squares[m.from])
    ensures Rival(p, m, s) <==> Candidate(p, m, s) && s != m.from
  {
    forall k | p.squares[s] == p.squares[m.from] && Legal(p, Move(s, m.to, k)) ensures k == None {
      CastlingShape(p, Move(s, m.to, k));
    }
  }

  lemma FitsIs(from: Square, s: Square)
    ensures Fits("", s) && (Fits(SquareName(from), s) <==> s == from)
    ensures Fits(SquareName(from)[..1], s) <==> FileOf(s) == FileOf(from)
    ensures Fits(SquareName(from)[1..], s) <==> RankOf(s) == RankOf(from)
  {
    SquareOf(s);
    SquareOf(from);
    var a, b := SquareName(from), SquareName(s);
    assert a[..1] == [a[0]] && a[1..] == [a[1]] && b[..1] == [b[0]] && b[1..] == [b[1]];
    NamesApart(FileOf(from), RankOf(s));
    NamesApart(FileOf(s), RankOf(from));
    if a == b {
      SquareNameInjective(from, s);
    }
  }

  /** What it takes to single the mover out, in terms of its rivals. */
  lemma EnoughIs(p: Position, m: Move)
    requires PseudoLegal(p, m) && !IsPawn(p.squares[m.from])
    ensures var name := SquareName(m.from);
      && Enough(p, m, name) && (Enough(p, m, "") <==> !exists s: Square :: Rival(p, m, s))
      && (Enough(p, m, name[..1]) <==> !exists s: Square :: Rival(p, m, s) && FileOf(s) == FileOf(m.from))
      && (Enough(p, m, name[1..]) <==> !exists s: Square :: Rival(p, m, s) && RankOf(s) == RankOf(m.from))
  {
    forall s: Square
      ensures Rival(p, m, s) <==> Candidate(p, m, s) && s != m.from
      ensures Fits("", s) && (Fits(SquareName(m.from), s) <==> s == m.from)
      ensures Fits(SquareName(m.from)[..1], s) <==> FileOf(s) == FileOf(m.from)
      ensures Fits(SquareName(m.from)[1..], s) <==> RankOf(s) == RankOf(m.from)
    {
      RivalIs(p, m, s);
      FitsIs(m.from, s);
    }
  }

  lemma OriginForms(p: Position, m: Move)
    ensures var d, name := Disambiguation(p, m), SquareName(m.from);
      && (d == "" <==> !exists s: Square :: Rival(p, m, s))
      && (d == name[..1] ==> !exists s: Square :: Rival(p, m, s) && FileOf(s) == FileOf(m.from))
      && (d == name[1..] ==> !exists s: Square :: Rival(p, m, s) && RankOf(s) == RankOf(m.from))
      && d in {"", name[..1], name[1..], name}
      && (d !in {"", name[..1]} ==> exists s: Square :: Rival(p, m, s) && FileOf(s) == FileOf(m.from))
      && (d == name ==> exists s: Square :: Rival(p, m, s) && RankOf(s) == RankOf(m.from))
  {
    var name := SquareName(m.from);
    assert name[..1] == [FileChar(FileOf(m.from))] && name[1..] == [RankChar(RankOf(m.from))];
    NamesApart(FileOf(m.from), RankOf(m.from));
  }

  /** The origin singles the mover out, and says no more than that takes: nothing if that is enough, else
      the file if that is, else the rank if that is. */
  lemma OriginTold(p: Position, m: Move)
    requires Legal(p, m) && !IsPawn(p.squares[m.from]) && !Castles(p, m)
    ensures var o, name := Origin(SanText(p, m)), SquareName(m.from);
      && Fits(o, m.from) && Enough(p, m, o)
      && (o != "" ==> !Enough(p, m, ""))
      && (o !in {"", name[..1]} ==> !Enough(p, m, name[..1]))
      && (o == name ==> !Enough(p, m, name[1..]))
  {
    OriginIs(p, m);
    EnoughIs(p, m);
    OriginForms(p, m);
  }

  // ---- A game ----

  /** The ply is written at its place: after a number and a dot if White plays it. */
  ghost predicate PlyWritten(t: seq<string>, ps: seq<Position>, ms: seq<Move>, i: nat)
    requires i < |ms| < |ps|
  {
    var at := i + i / 2 + 1;
    at < |t| && t[at] == SanText(ps[i], ms[i]) && (i % 2 == 0 ==> t[at - 1] == Itoa(i / 2 + 1) + ".")
  }

  /** The number and dot before a ply after `k` others, if White plays it. */
  function Numbered(k: nat): seq<string> { if k % 2 == 0 then [Itoa(k / 2 + 1) + "."] else [] }

  lemma {:induction false} ReplayOnce(start: Position, ms: seq<Move>, m: Move, p: Position, p': Position)
    requires Playable(start, ms) && Replay(start, ms) == p && Legal(p, m) && p' == Apply(p, m)
    ensures Playable(start, ms + [m]) && Replay(start, ms + [m]) == p'
  {
    PlayOneMore(start, ms, m);
  }

  lemma {:induction false} ReplaysFrom(start: Position, ps: seq<Position>, ms: seq<Move>, n: nat)
    requires n <= |ms| < |ps| && ps[0] == start && forall i :: 0 <= i < |ms| ==> Ply(ps, ms, i)
    ensures Playable(start, ms[..n]) && Replay(start, ms[..n]) == ps[n]
  {
    if n > 0 {
      ReplaysFrom(start, ps, ms, n - 1);
      assert Ply(ps, ms, n - 1);
      assert ms[..n] == ms[..n - 1] + [ms[n - 1]];
      ReplayOnce(start, ms[..n - 1], ms[n - 1], ps[n - 1], ps[n]);
    }
  }

  /** After `i` moves from `start` this is the position, with its number and the side to move. */
  ghost predicate Stage(start: Position, ps: seq<Position>, ms: seq<Move>, i: nat)
    requires i <= |ms| < |ps|
  {
    && Replay(start, ms[..i]) == ps[i] && ps[i].fullMove == 1 + i / 2
    && ps[i].turn == (if i % 2 == 0 then White else Black)
  }

  lemma {:induction false} TokensNumbered(start: Position, ps: seq<Position>, ms: seq<Move>, i: nat)
    requires start.fullMove >= 0 && i < |ms| < |ps| && Stage(start, ps, ms, i)
    ensures Tokens(start, ms[..i + 1], true)
         == Tokens(start, ms[..i], true) + Numbered(i) + [SanText(ps[i], ms[i])]
  {
    assert ms[..i + 1] == ms[..i] + [ms[i]];
    TokensSnoc(start, ms[..i], ms[i], true);
  }

  lemma WrittenKept(t: seq<string>, more: seq<string>, ps: seq<Position>, ms: seq<Move>, i: nat)
    requires i < |ms| < |ps| && PlyWritten(t, ps, ms, i)
    ensures PlyWritten(t + more, ps, ms, i)
  {}

  lemma {:induction false} WrittenLast(t: seq<string>, ps: seq<Position>, ms: seq<Move>, i: nat)
    requires i < |ms| < |ps| && |t| == i + (i + 1) / 2
    ensures PlyWritten(t + Numbered(i) + [SanText(ps[i], ms[i])], ps, ms, i)
  {
    assert i % 2 == 0 ==> (t + Numbered(i))[|t|] == Itoa(i / 2 + 1) + ".";
  }

  lemma {:induction false} WrittenNext(t: seq<string>, ps: seq<Position>, ms: seq<Move>, n: nat)
    requires n < |ms| < |ps| && |t| == n + (n + 1) / 2 && forall i :: 0 <= i < n ==> PlyWritten(t, ps, ms, i)
    ensures var t' := t + Numbered(n) + [SanText(ps[n], ms[n])];
      |t'| == n + 1 + (n + 2) / 2 && forall i :: 0 <= i <= n ==> PlyWritten(t', ps, ms, i)
  {
    var more := Numbered(n) + [SanText(ps[n], ms[n])];
    var t' := t + more;
    assert t + Numbered(n) + [SanText(ps[n], ms[n])] == t';
    WrittenLast(t, ps, ms, n);
    forall i | 0 <= i < n ensures PlyWritten(t', ps, ms, i) {
      WrittenKept(t, more, ps, ms, i);
    }
  }

  lemma {:induction false} AllWritten(start: Position, ps: seq<Position>, ms: seq<Move>, n: nat)
    requires start.fullMove >= 0 && n <= |ms| < |ps| && forall i :: 0 <= i < n ==> Stage(start, ps, ms, i)
    ensures var t := Tokens(start, ms[..n], true);
      |t| == n + (n + 1) / 2 && forall i :: 0 <= i < n ==> PlyWritten(t, ps, ms, i)
  {
    if n > 0 {
      AllWritten(start, ps, ms, n - 1);
      assert Stage(start, ps, ms, n - 1);
      TokensNumbered(start, ps, ms, n - 1);
      WrittenNext(Tokens(start, ms[..n - 1], true), ps, ms, n - 1);
    }
  }

  /** A game from the start is written move by move, both sides' plies under one number. */
  lemma {:induction false} GameWritten(ps: seq<Position>, ms: seq<Move>)
    requires Game(ps, ms)
    ensures Playable(StartPosition(), ms) && Replay(StartPosition(), ms) == ps[|ms|]
    ensures var t := Tokens(StartPosition(), ms, true);
      |t| == |ms| + (|ms| + 1) / 2 && forall i :: 0 <= i < |ms| ==> PlyWritten(t, ps, ms, i)
  {
    var start, n := StartPosition(), |ms|;
    forall i | 0 <= i < n ensures Stage(start, ps, ms, i) {
      ReplaysFrom(start, ps, ms, i);
      NumbersOfGame(ps, ms, i);
    }
    assert ms[..n] == ms;
    ReplaysFrom(start, ps, ms, n);
    AllWritten(start, ps, ms, n);
  }

  /** A game that begins with Black to move begins with its number and three dots. */
  lemma {:induction false} BlackBegins(p: Position, ms: seq<Move>)
    requires p.fullMove >= 0 && p.turn == Black && ms != []
    ensures Tokens(p, ms, true)[..2] == [Itoa(p.fullMove) + "...", SanText(p, ms[0])]
  {}
}
