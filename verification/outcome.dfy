/** When a game is over: mate, stalemate, dead positions, the fifty-move rule, repetition. */
module Outcome {
  import opened Board
  import opened Rules
  import opened Attack
  import opened MoveGen
  import opened Invariant
  import opened Laws
  import opened Fen

  datatype Result = InProgress | WhiteWins | BlackWins | Draw

  datatype Reason = Ongoing | Checkmate | Stalemate | InsufficientMaterial | FiftyMove | ThreefoldRepetition

  // ---- Insufficient material ----

  function SquareColor(s: Square): int { (FileOf(s) + RankOf(s)) % 2 }

  predicate IsMinor(piece: Piece) { piece.Man? && (piece.kind == Knight || piece.kind == Bishop) }

  predicate IsMajor(piece: Piece) { piece.Man? && piece.kind in {Pawn, Rook, Queen} }

  /** Neither side has a pawn, rook or queen. */
  ghost predicate NoMajors(q: Squares) { forall s: Square :: !IsMajor(q[s]) }

  /** The squares below `n` that hold a knight or a bishop. */
  ghost function Minors(q: Squares, n: int): set<int> {
    set s: int | 0 <= s < 64 && s < n && IsMinor(q[s])
  }

  /** Bishops only, all on squares of one colour. */
  ghost predicate SameColorBishops(q: Squares, minors: set<int>) {
    && (forall s :: s in minors ==> 0 <= s < 64 && q[s].Man? && q[s].kind == Bishop)
    && (forall s: Square, t: Square :: s in minors && t in minors ==> SquareColor(s) == SquareColor(t))
  }

  /** Beside the kings there is at most one minor piece, or two bishops on squares of one colour. */
  ghost predicate Dead(q: Squares) {
    && NoMajors(q)
    && (|Minors(q, 64)| <= 1 || (|Minors(q, 64)| == 2 && SameColorBishops(q, Minors(q, 64))))
  }

  lemma MinorsNext(q: Squares, n: Square)
    ensures Minors(q, n + 1) == if IsMinor(q[n]) then Minors(q, n) + {n} else Minors(q, n)
    ensures n !in Minors(q, n)
  {}

  /** The bishops met so far, in the order of their squares. */
  ghost predicate ListsBishops(q: Squares, bishops: seq<Square>, n: int) {
    && (forall i :: 0 <= i < |bishops| ==> bishops[i] < n && q[bishops[i]].Man? && q[bishops[i]].kind == Bishop)
    && (forall i, j :: 0 <= i < j < |bishops| ==> bishops[i] < bishops[j])
    && (forall s: Square :: ListedBelow(q, bishops, n, s))
  }

  ghost predicate ListedBelow(q: Squares, bishops: seq<Square>, n: int, s: Square) {
    s < n && q[s].Man? && q[s].kind == Bishop ==> s in bishops
  }

  lemma BishopAdded(q: Squares, bishops: seq<Square>, s: Square)
    requires ListsBishops(q, bishops, s) && q[s].Man? && q[s].kind == Bishop
    ensures ListsBishops(q, bishops + [s], s + 1)
  {
    var after, n := bishops + [s], s + 1;
    forall i | 0 <= i < |after| ensures after[i] < s + 1 && q[after[i]].Man? && q[after[i]].kind == Bishop {
      assert i < |bishops| ==> after[i] == bishops[i];
    }
    forall i, j | 0 <= i < j < |after| ensures after[i] < after[j] {
      assert after[i] == bishops[i];
    }
    forall t: Square ensures ListedBelow(q, after, n, t) {
      assert ListedBelow(q, bishops, s, t);
    }
  }

  lemma BishopsNext(q: Squares, bishops: seq<Square>, s: Square)
    requires ListsBishops(q, bishops, s)
    ensures ListsBishops(q, if q[s].Man? && q[s].kind == Bishop then bishops + [s] else bishops, s + 1)
  {
    if q[s].Man? && q[s].kind == Bishop {
      BishopAdded(q, bishops, s);
    } else {
      var n := s + 1;
      forall t: Square ensures ListedBelow(q, bishops, n, t) { assert ListedBelow(q, bishops, s, t); }
    }
  }

  /** What is known once the first `n` squares are counted and none holds a pawn, rook or queen. */
  ghost predicate Counted(q: Squares, bishops: seq<Square>, n: int, total: int) {
    (forall t: Square :: t < n ==> !IsMajor(q[t])) && total == |Minors(q, n)| && ListsBishops(q, bishops, n)
  }

  lemma CountedNext(q: Squares, bishops: seq<Square>, s: Square, total: int, bishops': seq<Square>, total': int)
    requires Counted(q, bishops, s, total) && !IsMajor(q[s])
    requires bishops' == if q[s].Man? && q[s].kind == Bishop then bishops + [s] else bishops
    requires total' == if IsMinor(q[s]) then total + 1 else total
    ensures Counted(q, bishops', s + 1, total')
  {
    MinorsNext(q, s);
    BishopsNext(q, bishops, s);
  }

  lemma NothingCounted(q: Squares)
    ensures Counted(q, [], 0, 0)
  {}

  lemma Decided(q: Squares, bishops: seq<Square>, total: int)
    requires Counted(q, bishops, 64, total)
    ensures Dead(q) <==>
      total <= 1 || (total == 2 && |bishops| == 2 && SquareColor(bishops[0]) == SquareColor(bishops[1]))
  {
    if total == 2 && |bishops| == 2 {
      TwoBishops(q, bishops);
    } else if total == 2 && SameColorBishops(q, Minors(q, 64)) {
      BishopsCounted(q, bishops);
    }
  }

  /** The scan: how many minor pieces there are and where the bishops stand, or nothing as soon as a
      pawn, rook or queen is met. */
  method CountMinors(q: Squares) returns (total: Option<int>, bishops: seq<Square>)
    ensures total.Some? ==> Counted(q, bishops, 64, total.value)
    ensures total.None? ==> !NoMajors(q)
  {
    var whiteMinor, blackMinor := 0, 0;
    bishops := [];
    NothingCounted(q);
    for s := 0 to 64
      invariant Counted(q, bishops, s, whiteMinor + blackMinor)
    {
      var piece := q[s];
      if IsMajor(piece) {
        return None, bishops;
      }
      ghost var before, n := bishops, whiteMinor + blackMinor;
      if piece != Empty && piece.kind != King {
        if piece.kind == Bishop {
          bishops := bishops + [s];
        }
        if piece.color == White {
          whiteMinor := whiteMinor + 1;
        } else {
          blackMinor := blackMinor + 1;
        }
      }
      CountedNext(q, before, s, n, bishops, whiteMinor + blackMinor);
    }
    total := Some(whiteMinor + blackMinor);
  }

  method HasInsufficientMaterial(q: Squares) returns (dead: bool)
    ensures dead <==> Dead(q)
  {
    var total, bishops := CountMinors(q);
    if total.None? {
      return false;
    }
    Decided(q, bishops, total.value);
    if total.value <= 1 {
      return true;
    }
    if total.value == 2 && |bishops| == 2 {
      return SquareColor(bishops[0]) == SquareColor(bishops[1]);
    }
    return false;
  }

  lemma TwoBishops(q: Squares, bishops: seq<Square>)
    requires ListsBishops(q, bishops, 64) && |bishops| == 2 && |Minors(q, 64)| == 2
    ensures SameColorBishops(q, Minors(q, 64)) <==> SquareColor(bishops[0]) == SquareColor(bishops[1])
  {
    var pair: set<int> := {bishops[0], bishops[1]};
    assert pair <= Minors(q, 64);
    SubsetOfSameSize(pair, Minors(q, 64));
  }

  lemma SubsetOfSameSize<T>(a: set<T>, b: set<T>)
    requires a <= b && |a| == |b|
    ensures a == b
  {
    if a != b {
      var x :| x in b && x !in a;
      assert a <= b - {x} && |b - {x}| == |b| - 1;
      SubsetSize(a, b - {x});
    }
  }

  lemma {:induction false} SubsetSize<T>(a: set<T>, b: set<T>)
    requires a <= b
    ensures |a| <= |b|
  {
    if a != {} {
      var x :| x in a;
      SubsetSize(a - {x}, b - {x});
    }
  }

  lemma BishopsCounted(q: Squares, bishops: seq<Square>)
    requires ListsBishops(q, bishops, 64) && |Minors(q, 64)| == 2 && SameColorBishops(q, Minors(q, 64))
    ensures |bishops| == 2
  {
    var listed: set<int> := set i | 0 <= i < |bishops| :: bishops[i];
    forall s | s in Minors(q, 64) ensures s in listed {
      var t: Square := s;
      assert ListedBelow(q, bishops, 64, t);
    }
    assert listed == Minors(q, 64);
    ListSize(bishops);
  }

  lemma {:induction false} ListSize(xs: seq<Square>)
    requires forall i, j :: 0 <= i < j < |xs| ==> xs[i] < xs[j]
    ensures |set i | 0 <= i < |xs| :: xs[i] as int| == |xs|
  {
    var all := set i | 0 <= i < |xs| :: xs[i] as int;
    if xs == [] {
      assert all == {};
    } else {
      var n := |xs| - 1;
      var front := xs[..n];
      ListSize(front);
      var rest := set i | 0 <= i < n :: front[i] as int;
      assert forall i :: 0 <= i < n ==> front[i] == xs[i];
      assert all == rest + {xs[n] as int};
    }
  }

  // ---- The dead positions, spelled out ----

  /** Neighbouring squares have different colours, there are two, and a1 has the colour 0. */
  lemma ColorsAlternate(s: Square, t: Square)
    ensures SquareColor(s) in {0, 1} && SquareColor(0) == 0
    ensures RankOf(s) == RankOf(t) && FileOf(t) == FileOf(s) + 1 ==> SquareColor(s) != SquareColor(t)
    ensures FileOf(s) == FileOf(t) && RankOf(t) == RankOf(s) + 1 ==> SquareColor(s) != SquareColor(t)
  {}

  /** The squares of the men other than kings. */
  ghost function Others(q: Squares): set<int> {
    set s: int | 0 <= s < 64 && q[s].Man? && q[s].kind != King
  }

  ghost predicate TwoBishopsOnly(q: Squares, s: Square, t: Square) {
    && s != t && Others(q) == {s as int, t as int} && q[s].kind == Bishop && q[t].kind == Bishop
    && (FileOf(s) + RankOf(s)) % 2 == (FileOf(t) + RankOf(t)) % 2
  }

  /** Beside the kings there is nothing, or one knight or bishop, or two bishops on squares of one colour. */
  lemma DeadSpelled(q: Squares)
    ensures Dead(q) <==>
      || Others(q) == {}
      || (exists s: Square :: Others(q) == {s as int} && q[s].kind in {Knight, Bishop})
      || (exists s: Square, t: Square :: TwoBishopsOnly(q, s, t))
  {
    var a := Others(q);
    assert NoMajors(q) <==> forall s: Square :: s in a ==> q[s].kind in {Knight, Bishop};
    assert NoMajors(q) ==> a == Minors(q, 64);
    if Dead(q) {
      AtMostTwo(q);
    } else {
      forall s: Square ensures !(a == {s as int} && q[s].kind in {Knight, Bishop}) {
        assert |{s as int}| == 1;
      }
      forall s: Square, t: Square ensures !TwoBishopsOnly(q, s, t) {
        assert s != t ==> |{s as int, t as int}| == 2;
      }
    }
  }

  lemma AtMostTwo(q: Squares)
    requires Dead(q) && Others(q) == Minors(q, 64)
    ensures || Others(q) == {}
            || (exists s: Square :: Others(q) == {s as int} && q[s].kind in {Knight, Bishop})
            || (exists s: Square, t: Square :: TwoBishopsOnly(q, s, t))
  {
    var a := Others(q);
    if |a| == 1 {
      var s :| s in a;
      assert |a - {s}| == 0;
      var t: Square := s;
      assert a == {t as int};
    } else if |a| == 2 {
      var s, t := TwoOf(a);
      assert s in a && t in a;
      var b: Square, c: Square := s, t;
      assert TwoBishopsOnly(q, b, c);
    }
  }

  // ---- What is documented, and what else the code counts ----

  /** Exactly two minor pieces are left: bishops on squares of one colour, on s and t. */
  ghost predicate BishopPair(q: Squares, s: Square, t: Square) {
    && s != t && Minors(q, 64) == {s as int, t as int}
    && q[s].Man? && q[s].kind == Bishop && q[t].Man? && q[t].kind == Bishop && SquareColor(s) == SquareColor(t)
  }

  /** The four documented cases: bare kings, one knight, one bishop, or a bishop on each side with
      both on squares of one colour. */
  ghost predicate Documented(q: Squares) {
    && NoMajors(q)
    && (|Minors(q, 64)| <= 1 || exists s: Square, t: Square :: BishopPair(q, s, t) && q[s].color != q[t].color)
  }

  /** The case beyond them: both bishops belong to one side. */
  ghost predicate OneSidedPair(q: Squares) {
    NoMajors(q) && exists s: Square, t: Square :: BishopPair(q, s, t) && q[s].color == q[t].color
  }

  lemma TwoOf<T>(a: set<T>) returns (s: T, t: T)
    requires |a| == 2
    ensures s != t && a == {s, t}
  {
    assert a != {};
    s :| s in a;
    var rest := a - {s};
    assert |rest| == 1 && rest != {};
    t :| t in rest;
    assert |rest - {t}| == 0;
    assert a == {s, t};
  }

  lemma PairIsDead(q: Squares, s: Square, t: Square)
    requires NoMajors(q) && BishopPair(q, s, t)
    ensures Dead(q)
  {
    assert |{s as int, t as int}| == 2;
  }

  lemma DeadIsPair(q: Squares)
    requires Dead(q) && |Minors(q, 64)| > 1
    ensures exists s: Square, t: Square :: BishopPair(q, s, t)
  {
    var s, t := TwoOf(Minors(q, 64));
    assert s in Minors(q, 64) && t in Minors(q, 64);
    var a: Square, b: Square := s, t;
    assert BishopPair(q, a, b);
  }

  /** The code decides exactly the documented cases and two same-coloured bishops of one side. */
  lemma DeadIff(q: Squares)
    ensures Dead(q) <==> Documented(q) || OneSidedPair(q)
  {
    if Dead(q) && |Minors(q, 64)| > 1 {
      DeadIsPair(q);
      var s: Square, t: Square :| BishopPair(q, s, t);
      assert q[s].color == q[t].color || q[s].color != q[t].color;
    }
    if exists s: Square, t: Square :: NoMajors(q) && BishopPair(q, s, t) {
      var s: Square, t: Square :| NoMajors(q) && BishopPair(q, s, t);
      PairIsDead(q, s, t);
    }
  }

  /** Two white bishops on c1 and e3 beside the kings. */
  function TwoWhiteBishops(): Squares {
    seq(64, s => if s == 4 then Man(White, King) else if s == 60 then Man(Black, King)
                 else if s == 2 || s == 20 then Man(White, Bishop) else Empty)
  }

  lemma UndocumentedIsDead()
    ensures Dead(TwoWhiteBishops()) && !Documented(TwoWhiteBishops())
  {
    var q := TwoWhiteBishops();
    assert Minors(q, 64) == {2, 20};
    assert |{2, 20}| == 2;
    assert BishopPair(q, 2, 20);
    PairIsDead(q, 2, 20);
  }

  /** A move in a dead position is a plain move of a king or a minor piece. */
  lemma DeadMovesPlainly(p: Position, m: Move)
    requires Dead(p.squares) && PseudoLegal(p, m)
    ensures SquaresAfter(p, m) == p.squares[m.from := Empty][m.to := p.squares[m.from]] && m.from != m.to
    ensures p.squares[m.from].kind == Bishop ==> SquareColor(m.to) == SquareColor(m.from)
    ensures !IsMajor(p.squares[m.from])
  {
    assert !IsMajor(p.squares[m.from]);
    CastlingShape(p, m);
    NoRookNoCastling(p);
    DestinationFree(p, m);
    PlainAfter(p, m);
    if p.squares[m.from].kind == Bishop {
      assert Diagonal(DF(m), DR(m));
      DiagonalKeepsColor(FileOf(m.from), RankOf(m.from), FileOf(m.to), RankOf(m.to));
    }
  }

  lemma NoRookNoCastling(p: Position)
    requires NoMajors(p.squares)
    ensures forall kingSide :: !MayCastle(p, kingSide)
  {}

  lemma DiagonalKeepsColor(ff: int, fr: int, tf: int, tr: int)
    requires Diagonal(tf - ff, tr - fr)
    ensures (tf + tr) % 2 == (ff + fr) % 2
  {}

  lemma MinorsAfter(q: Squares, from: Square, to: Square)
    requires from != to && q[from].Man?
    ensures var after := Minors(q[from := Empty][to := q[from]], 64);
      after == Minors(q, 64) - {from, to} + if IsMinor(q[from]) then {to} else {}
  {}

  lemma SizeAfter(a: set<int>, from: int, to: int)
    ensures |a - {from, to}| <= |a|
    ensures from in a ==> |a - {from, to} + {to}| <= |a|
    ensures from in a && to in a && from != to ==> |a - {from, to} + {to}| < |a|
    ensures to in a ==> |a - {from, to}| < |a|
  {}

  /** Two bishops of one square colour remain so when one of them moves along a diagonal. */
  lemma BishopsAfter(q: Squares, from: Square, to: Square)
    requires from != to && q[from].Man? && SameColorBishops(q, Minors(q, 64))
    requires q[from].kind == Bishop ==> SquareColor(to) == SquareColor(from)
    ensures SameColorBishops(q[from := Empty][to := q[from]], Minors(q[from := Empty][to := q[from]], 64))
  {}

  lemma DeadAfter(q: Squares, from: Square, to: Square)
    requires Dead(q) && from != to && q[from].Man?
    requires q[from].kind == Bishop ==> SquareColor(to) == SquareColor(from)
    ensures Dead(q[from := Empty][to := q[from]])
  {
    var a := Minors(q, 64);
    MinorsAfter(q, from, to);
    SizeAfter(a, from, to);
    assert from in a <==> IsMinor(q[from]);
    if SameColorBishops(q, a) {
      BishopsAfter(q, from, to);
    }
    var q' := q[from := Empty][to := q[from]];
    assert NoMajors(q');
  }

  /** Insufficient material is kept by every move. */
  lemma DeadStaysDead(p: Position, m: Move)
    requires Dead(p.squares) && PseudoLegal(p, m)
    ensures Dead(SquaresAfter(p, m))
  {
    DeadMovesPlainly(p, m);
    DeadAfter(p.squares, m.from, m.to);
  }

  /** From a dead position no sequence of legal moves brings mating material back. */
  lemma {:induction false} DeadForever(p: Position, ms: seq<Move>)
    requires Dead(p.squares) && Playable(p, ms)
    ensures Dead(Replay(p, ms).squares)
    decreases ms
  {
    if ms != [] {
      DeadStaysDead(p, ms[0]);
      DeadForever(Apply(p, ms[0]), ms[1..]);
    }
  }

  // ---- Repetition ----

  function Keys(history: seq<string>): seq<string> {
    seq(|history|, i requires 0 <= i < |history| => RepetitionKey(history[i]))
  }

  /** Some position occurs at least three times in the history. */
  ghost predicate Threefold(history: seq<string>) {
    exists k :: multiset(Keys(history))[k] >= 3
  }

  lemma {:induction false} SpaceNext(fen: string, i: nat, n: nat)
    requires i < |fen| && n >= 1
    ensures fen[..i] + BeforeSpace(fen[i..], n) ==
      if fen[i] != ' ' then fen[..i + 1] + BeforeSpace(fen[i + 1..], n)
      else if n == 1 then fen[..i]
      else fen[..i + 1] + BeforeSpace(fen[i + 1..], n - 1)
  {}

  method FindRepetitionKey(fen: string) returns (key: string)
    ensures key == RepetitionKey(fen)
  {
    var fields := 0;
    for i := 0 to |fen|
      invariant 0 <= fields < 4 && RepetitionKey(fen) == fen[..i] + BeforeSpace(fen[i..], 4 - fields)
    {
      SpaceNext(fen, i, 4 - fields);
      if fen[i] == ' ' {
        fields := fields + 1;
        if fields == 4 {
          return fen[..i];
        }
      }
    }
    assert fen[..|fen|] == fen;
    return fen;
  }

  function Tally(counts: map<string, nat>, k: string): nat { if k in counts then counts[k] else 0 }

  /** The counters are the numbers of occurrences so far, all below three. */
  ghost predicate Tallied(history: seq<string>, counts: map<string, nat>) {
    forall k :: Tally(counts, k) == multiset(Keys(history))[k] < 3
  }

  lemma TallyNext(history: seq<string>, fen: string, counts: map<string, nat>)
    requires Tallied(history, counts)
    ensures var key, n := RepetitionKey(fen), Tally(counts, RepetitionKey(fen)) + 1;
      if n >= 3 then multiset(Keys(history + [fen]))[key] >= 3 else Tallied(history + [fen], counts[key := n])
  {
    KeysNext(history, fen);
    var key, n := RepetitionKey(fen), Tally(counts, RepetitionKey(fen)) + 1;
    assert Tally(counts, key) == multiset(Keys(history))[key];
    forall k ensures multiset(Keys(history + [fen]))[k] == multiset(Keys(history))[k] + if k == key then 1 else 0 {}
    if n < 3 {
      forall k ensures Tally(counts[key := n], k) == multiset(Keys(history + [fen]))[k] < 3 {
        assert Tally(counts, k) == multiset(Keys(history))[k];
      }
    }
  }

  method HasThreefold(history: seq<string>) returns (found: bool)
    ensures found <==> Threefold(history)
  {
    var counts: map<string, nat> := map[];
    assert Keys([]) == [];
    for i := 0 to |history|
      invariant Tallied(history[..i], counts)
    {
      var key := FindRepetitionKey(history[i]);
      TallyNext(history[..i], history[i], counts);
      assert history[..i + 1] == history[..i] + [history[i]];
      var n := Tally(counts, key) + 1;
      if n >= 3 {
        RepeatedEarly(history, i + 1, key);
        return true;
      }
      counts := counts[key := n];
    }
    assert history[..|history|] == history;
    NoneRepeated(history, counts);
    return false;
  }

  lemma RepeatedEarly(history: seq<string>, n: nat, key: string)
    requires n <= |history| && multiset(Keys(history[..n]))[key] >= 3
    ensures Threefold(history)
  {
    KeysPrefix(history, n);
    assert multiset(Keys(history))[key] >= 3;
  }

  lemma NoneRepeated(history: seq<string>, counts: map<string, nat>)
    requires Tallied(history, counts)
    ensures !Threefold(history)
  {}

  lemma KeysNext(history: seq<string>, fen: string)
    ensures Keys(history + [fen]) == Keys(history) + [RepetitionKey(fen)]
  {}

  lemma KeysPrefix(history: seq<string>, n: nat)
    requires n <= |history|
    ensures multiset(Keys(history[..n])) <= multiset(Keys(history))
  {
    assert Keys(history) == Keys(history[..n]) + Keys(history[n..]);
  }

  /** The position that first occurs a third time is the one just reached, although the search
      covers the whole history. */
  lemma ThreefoldIsCurrent(history: seq<string>, fen: string)
    requires !Threefold(history)
    ensures Threefold(history + [fen]) <==> multiset(Keys(history + [fen]))[RepetitionKey(fen)] == 3
  {
    KeysNext(history, fen);
    forall k ensures multiset(Keys(history))[k] < 3 {}
  }

  // ---- The verdict ----

  ghost function Verdict(p: Position): (Result, Reason) {
    if forall m :: !Legal(p, m) then
      if Checked(p) then (if p.turn == White then BlackWins else WhiteWins, Checkmate) else (Draw, Stalemate)
    else if Dead(p.squares) then (Draw, Reason.InsufficientMaterial)
    else if p.halfMove >= 100 then (Draw, FiftyMove)
    else (InProgress, Ongoing)
  }

  ghost function VerdictWith(p: Position, history: seq<string>): (Result, Reason) {
    if Verdict(p).0 != InProgress then Verdict(p)
    else if Threefold(history) then (Draw, ThreefoldRepetition)
    else (InProgress, Ongoing)
  }

  /** Whoever is mated loses; nobody wins otherwise. */
  lemma MateDecides(p: Position)
    ensures var (result, reason) := Verdict(p);
      && (result == WhiteWins ==> Mated(p, Black)) && (result == BlackWins ==> Mated(p, White))
      && (reason == Checkmate <==> result == WhiteWins || result == BlackWins)
      && (result == InProgress <==> reason == Ongoing)
  {
    CheckedIsHit(p);
  }

  /** In a sound position a mate is always seen, and a side that cannot move and is not attacked has
      drawn. */
  lemma MateIsSeen(p: Position)
    requires Sound(p)
    ensures Mated(p, Black) <==> Verdict(p) == (WhiteWins, Checkmate)
    ensures Mated(p, White) <==> Verdict(p) == (BlackWins, Checkmate)
    ensures Verdict(p) == (Draw, Stalemate) <==> (forall m :: !Legal(p, m)) && !KingHit(p.squares, p.turn)
  {
    CheckedIsHit(p);
  }

  /** A game is drawn by the fifty-move rule exactly when its last hundred plies are neither pawn moves
      nor captures, the side to move has a move, and mate is still possible. */
  lemma {:induction false} FiftyMoveIff(ps: seq<Position>, ms: seq<Move>)
    requires Game(ps, ms)
    ensures Verdict(ps[|ms|]) == (Draw, FiftyMove) <==>
      && |ms| >= 100 && (forall i :: |ms| - 100 <= i < |ms| ==> Quiet(ps, ms, i))
      && (exists m :: Legal(ps[|ms|], m)) && !Dead(ps[|ms|].squares)
  {
    var n := |ms|;
    ClockOfGame(ps, ms, n);
    var h := ps[n].halfMove;
    assert h < n ==> !Quiet(ps, ms, n - h - 1);
  }

  method JudgePosition(p: Position) returns (result: Result, reason: Reason)
    ensures (result, reason) == Verdict(p)
    ensures (result == WhiteWins ==> Mated(p, Black)) && (result == BlackWins ==> Mated(p, White))
    ensures Sound(p) ==> (Mated(p, Black) ==> result == WhiteWins) && (Mated(p, White) ==> result == BlackWins)
    ensures reason == Checkmate <==> result == WhiteWins || result == BlackWins
  {
    MateDecides(p);
    if Sound(p) {
      MateIsSeen(p);
    }
    var legal := LegalMoves(p);
    if |legal| == 0 {
      var check := InCheck(p);
      if check {
        if p.turn == White {
          return BlackWins, Checkmate;
        }
        return WhiteWins, Checkmate;
      }
      return Draw, Stalemate;
    }
    assert Legal(p, legal[0]);
    var dead := HasInsufficientMaterial(p.squares);
    if dead {
      return Draw, Reason.InsufficientMaterial;
    }
    if p.halfMove >= 100 {
      return Draw, FiftyMove;
    }
    return InProgress, Ongoing;
  }

  method JudgeWithHistory(p: Position, history: seq<string>) returns (result: Result, reason: Reason)
    ensures (result, reason) == VerdictWith(p, history)
  {
    result, reason := JudgePosition(p);
    if result != InProgress {
      return;
    }
    var repeated := HasThreefold(history);
    if repeated {
      return Draw, ThreefoldRepetition;
    }
    return InProgress, Ongoing;
  }
}
