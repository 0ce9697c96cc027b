/** Elo updates and the rating ledger under concurrent transactions. */
module Ratings {
  import opened Board

  const DEFAULT_RATING: int := 1200

  // ---- The formula ----

  datatype Score = BlackWon | Drawn | WhiteWon

  function Points(o: Score): real {
    match o
    case BlackWon => 0.0
    case Drawn => 0.5
    case WhiteWon => 1.0
  }

  function KFactor(rating: int, games: int): int {
    if games < 30 then 40 else if rating >= 2400 then 10 else 20
  }

  /** Rounds to the nearest integer, ties away from zero. */
  function RoundHalfAway(x: real): int {
    if x < 0.0 then -((-x + 0.5).Floor) else (x + 0.5).Floor
  }

  /** A player's delta: the K-factor times the surprise, rounded. */
  function Delta(k: int, surprise: real): int { RoundHalfAway(k as real * surprise) }

  /** The deltas for White and Black; `expected` is White's expected score by the logistic curve. */
  function Update(whiteElo: int, blackElo: int, o: Score, whiteGames: int, blackGames: int,
                  expected: real): (int, int) {
    (Delta(KFactor(whiteElo, whiteGames), Points(o) - expected),
     Delta(KFactor(blackElo, blackGames), (1.0 - Points(o)) - (1.0 - expected)))
  }

  /** 40 for the first thirty games, then 20, and 10 from a rating of 2400. */
  lemma Tiers(rating: int, games: int)
    ensures KFactor(rating, 29) == 40 && KFactor(2399, 30) == 20 && KFactor(2400, 30) == 10
    ensures KFactor(rating, games) in {10, 20, 40}
    ensures games <= 29 <==> KFactor(rating, games) == 40
    ensures games >= 30 && rating >= 2400 <==> KFactor(rating, games) == 10
  {}

  /** The nearest integer, and of two equally near the one farther from zero. */
  lemma Rounded(x: real)
    ensures var n := RoundHalfAway(x) as real;
      && -0.5 <= x - n <= 0.5 && (x - n == 0.5 ==> x < 0.0) && (x - n == -0.5 ==> x > 0.0)
  {}

  lemma DeltaIsNearest(k: int, x: real)
    ensures -0.5 <= k as real * x - Delta(k, x) as real <= 0.5
  {
    Rounded(k as real * x);
  }

  /** Each delta is the nearest integer to the K-factor times the points scored above expectation. */
  lemma UpdateIsNearest(whiteElo: int, blackElo: int, o: Score, whiteGames: int, blackGames: int, expected: real)
    ensures var (w, b) := Update(whiteElo, blackElo, o, whiteGames, blackGames, expected);
      var scored := if o == WhiteWon then 1.0 else if o == Drawn then 0.5 else 0.0;
      && -0.5 <= KFactor(whiteElo, whiteGames) as real * (scored - expected) - w as real <= 0.5
      && -0.5 <= KFactor(blackElo, blackGames) as real * (expected - scored) - b as real <= 0.5
  {
    var scored := if o == WhiteWon then 1.0 else if o == Drawn then 0.5 else 0.0;
    assert Points(o) == scored && (1.0 - Points(o)) - (1.0 - expected) == expected - scored;
    DeltaIsNearest(KFactor(whiteElo, whiteGames), scored - expected);
    DeltaIsNearest(KFactor(blackElo, blackGames), expected - scored);
  }

  lemma DeltaIsOdd(k: int, x: real)
    ensures Delta(k, -x) == -Delta(k, x)
  {}

  lemma DeltaBounded(k: int, x: real)
    requires k > 0 && -1.0 < x < 1.0
    ensures -k <= Delta(k, x) <= k && (x >= 0.0 ==> Delta(k, x) >= 0)
  {}

  /** No rating moves by more than the K-factor; a winner never loses points and a loser never
      gains any. */
  lemma UpdateBounds(whiteElo: int, blackElo: int, o: Score, whiteGames: int, blackGames: int, expected: real)
    requires 0.0 < expected < 1.0
    ensures var (w, b) := Update(whiteElo, blackElo, o, whiteGames, blackGames, expected);
      && Abs(w) <= KFactor(whiteElo, whiteGames) && Abs(b) <= KFactor(blackElo, blackGames)
      && (o == WhiteWon ==> w >= 0 && b <= 0) && (o == BlackWon ==> w <= 0 && b >= 0)
  {
    var x := Points(o) - expected;
    var kw, kb := KFactor(whiteElo, whiteGames), KFactor(blackElo, blackGames);
    DeltaIsOdd(kw, x);
    DeltaIsOdd(kb, x);
    DeltaBounded(kw, x);
    DeltaBounded(kw, -x);
    DeltaBounded(kb, x);
    DeltaBounded(kb, -x);
  }

  // ---- When the deltas cancel ----

  /** A surprise that both K-factors round to the same number of points: none, or, when one factor
      is twice the other, a single point. */
  predicate RoundsAlike(low: int, high: int, surprise: real) {
    || high as real * surprise < 0.5
    || (high == 2 * low && 0.5 <= low as real * surprise < 0.75)
  }

  lemma RoundTwice(z: real)
    requires z >= 0.0
    ensures RoundHalfAway(z) == RoundHalfAway(2.0 * z) <==> z < 0.25 || 0.5 <= z < 0.75
  {}

  lemma RoundFour(z: real)
    requires z >= 0.0
    ensures RoundHalfAway(z) == RoundHalfAway(4.0 * z) <==> z < 0.125
  {}

  lemma RoundsAlikeExactly(low: int, high: int, x: real)
    requires x >= 0.0 && low > 0 && (high == 2 * low || high == 4 * low)
    ensures Delta(low, x) == Delta(high, x) <==> RoundsAlike(low, high, x)
  {
    var z := low as real * x;
    assert z >= 0.0;
    if high == 2 * low {
      assert high as real * x == 2.0 * z;
      RoundTwice(z);
    } else {
      assert high as real * x == 4.0 * z;
      RoundFour(z);
    }
  }

  lemma KFactors(rating: int, games: int)
    ensures KFactor(rating, games) in {10, 20, 40}
  {}

  function Size(x: real): real { if x < 0.0 then -x else x }

  function Low(a: int, b: int): int { if a < b then a else b }

  function High(a: int, b: int): int { if a < b then b else a }

  lemma SameSize(k: int, l: int, x: real)
    ensures Delta(k, x) == Delta(l, x) <==> Delta(k, Size(x)) == Delta(l, Size(x))
  {
    DeltaIsOdd(k, x);
    DeltaIsOdd(l, x);
  }

  /** What one side gains the other loses exactly when the K-factors are equal, or the surprise is
      so small that both round it to the same number of points. */
  lemma CancelExactly(whiteElo: int, blackElo: int, o: Score, whiteGames: int, blackGames: int, expected: real)
    ensures var (w, b) := Update(whiteElo, blackElo, o, whiteGames, blackGames, expected);
      var kw, kb := KFactor(whiteElo, whiteGames), KFactor(blackElo, blackGames);
      w + b == 0 <==> kw == kb || RoundsAlike(Low(kw, kb), High(kw, kb), Size(Points(o) - expected))
  {
    var x := Points(o) - expected;
    var kw, kb := KFactor(whiteElo, whiteGames), KFactor(blackElo, blackGames);
    assert (1.0 - Points(o)) - (1.0 - expected) == -x;
    DeltaIsOdd(kb, x);
    KFactors(whiteElo, whiteGames);
    KFactors(blackElo, blackGames);
    SameSize(kw, kb, x);
    if kw != kb {
      RoundsAlikeExactly(Low(kw, kb), High(kw, kb), Size(x));
    }
  }

  /** With K-factors 40 and 20 an even draw still cancels, and an even win does not. */
  lemma UnequalFactors()
    ensures KFactor(1200, 0) == 40 && KFactor(1200, 30) == 20
    ensures Update(1200, 1200, Drawn, 0, 30, 0.5) == (0, 0)
    ensures Update(1200, 1200, WhiteWon, 0, 30, 0.5) == (20, -10)
    ensures Update(1600, 2400, WhiteWon, 40, 40, 0.5) == (10, -5)
  {}

  // ---- The ledger ----

  type User = string

  /** A rated game between two players; `over` once its status has left IN_PROGRESS. */
  datatype Game = Game(white: User, black: User, rated: bool, over: bool)

  /** A scored game: the deltas recorded on its row. */
  datatype Entry = Entry(game: nat, white: User, black: User, whiteDelta: int, blackDelta: int)

  /** A rating transaction that holds a game's row lock and has computed its deltas, possibly from
      ratings that other transactions have since changed. */
  datatype Tx = Tx(game: nat, whiteDelta: int, blackDelta: int)

  /** A player's rating and number of finished games as read by a transaction. */
  datatype Standing = Standing(elo: int, games: int)

  datatype Ledger = Ledger(elo: map<User, int>, games: map<nat, Game>, scored: seq<Entry>, open: map<nat, Tx>)

  datatype Step =
    | NewUser(user: User)
    | NewGame(id: nat, game: Game)
    | EndGame(id: nat)
    /** Lock the row, check that the game is rated, over and unscored, and compute the deltas from
        the ratings and game counts read, which other transactions may change before the commit. */
    | Begin(tx: nat, id: nat, o: Score, white: Standing, black: Standing, expected: real)
    /** Add the deltas to both ratings and record them on the row. */
    | Commit(tx: nat)
    /** The transaction fails and leaves nothing behind. */
    | Abort(tx: nat)

  predicate Scored(l: Ledger, id: nat) { exists i :: 0 <= i < |l.scored| && l.scored[i].game == id }

  predicate Locked(l: Ledger, id: nat) { exists t :: t in l.open && l.open[t].game == id }

  predicate Enabled(l: Ledger, step: Step) {
    match step
    case NewUser(u) => u !in l.elo
    case NewGame(id, g) => id !in l.games && g.white in l.elo && g.black in l.elo && !g.over
    case EndGame(id) => id in l.games
    case Begin(t, id, _, _, _, expected) =>
      0.0 < expected < 1.0 && t !in l.open && id in l.games && l.games[id].rated && l.games[id].over
      && !Scored(l, id) && !Locked(l, id)
    case Commit(t) => t in l.open && l.open[t].game in l.games
    case Abort(t) => t in l.open
  }

  function Bump(elo: map<User, int>, u: User, d: int): map<User, int> {
    if u in elo then elo[u := elo[u] + d] else elo
  }

  function Do(l: Ledger, step: Step): Ledger
    requires Enabled(l, step)
  {
    match step
    case NewUser(u) => l.(elo := l.elo[u := DEFAULT_RATING])
    case NewGame(id, g) => l.(games := l.games[id := g])
    case EndGame(id) => l.(games := l.games[id := l.games[id].(over := true)])
    case Begin(t, id, o, white, black, expected) =>
      var (w, b) := Update(white.elo, black.elo, o, white.games, black.games, expected);
      l.(open := l.open[t := Tx(id, w, b)])
    case Commit(t) =>
      var Tx(id, w, b) := l.open[t];
      var g := l.games[id];
      l.(elo := Bump(Bump(l.elo, g.white, w), g.black, b),
         scored := l.scored + [Entry(id, g.white, g.black, w, b)],
         open := l.open - {t})
    case Abort(t) => l.(open := l.open - {t})
  }

  /** What the recorded games have moved a player's rating by. */
  function Earned(es: seq<Entry>, u: User): int {
    if es == [] then 0
    else
      var e := es[|es| - 1];
      Earned(es[..|es| - 1], u) + (if e.white == u then e.whiteDelta else 0)
      + (if e.black == u then e.blackDelta else 0)
  }

  /** A game that may be, or has been, scored. */
  predicate Scorable(l: Ledger, id: nat) { id in l.games && l.games[id].rated && l.games[id].over }

  ghost predicate EntryOk(l: Ledger, i: int) {
    0 <= i < |l.scored| ==>
      && Scorable(l, l.scored[i].game) && l.scored[i].white in l.elo && l.scored[i].black in l.elo
      && Abs(l.scored[i].whiteDelta) <= 40 && Abs(l.scored[i].blackDelta) <= 40
      && forall j :: i < j < |l.scored| ==> l.scored[j].game != l.scored[i].game
  }

  ghost predicate GameOk(l: Ledger, id: nat) {
    id in l.games ==> l.games[id].white in l.elo && l.games[id].black in l.elo
  }

  /** An open transaction's game is unscored, and no other transaction holds it. */
  ghost predicate TxOk(l: Ledger, t: nat) {
    t in l.open ==>
      && Scorable(l, l.open[t].game) && !Scored(l, l.open[t].game)
      && Abs(l.open[t].whiteDelta) <= 40 && Abs(l.open[t].blackDelta) <= 40
      && forall u :: u in l.open && u != t ==> l.open[u].game != l.open[t].game
  }

  ghost predicate EloOk(l: Ledger, u: User) {
    u in l.elo ==> l.elo[u] == DEFAULT_RATING + Earned(l.scored, u)
  }

  ghost predicate Inv(l: Ledger) {
    && (forall i :: EntryOk(l, i)) && (forall id :: GameOk(l, id))
    && (forall t :: TxOk(l, t)) && (forall u :: EloOk(l, u))
  }

  lemma {:induction false} NothingEarned(l: Ledger, n: nat, u: User)
    requires n <= |l.scored| && u !in l.elo && forall i :: EntryOk(l, i)
    ensures Earned(l.scored[..n], u) == 0
  {
    if n > 0 {
      NothingEarned(l, n - 1, u);
      assert EntryOk(l, n - 1);
      assert l.scored[..n][..n - 1] == l.scored[..n - 1];
    }
  }

  lemma EntryKept(l: Ledger, step: Step, i: int)
    requires Inv(l) && Enabled(l, step)
    ensures EntryOk(Do(l, step), i)
  {
    assert EntryOk(l, i);
    if step.Commit? {
      assert TxOk(l, step.tx) && GameOk(l, l.open[step.tx].game);
    }
  }

  lemma GameKept(l: Ledger, step: Step, id: nat)
    requires Inv(l) && Enabled(l, step)
    ensures GameOk(Do(l, step), id)
  {
    assert GameOk(l, id);
  }

  lemma TxKept(l: Ledger, step: Step, t: nat)
    requires Inv(l) && Enabled(l, step)
    ensures TxOk(Do(l, step), t)
  {
    var l' := Do(l, step);
    assert TxOk(l, t);
    if step.Begin? {
      UpdateBounds(step.white.elo, step.black.elo, step.o, step.white.games, step.black.games, step.expected);
      KFactors(step.white.elo, step.white.games);
      KFactors(step.black.elo, step.black.games);
    }
    if step.Commit? && t in l'.open {
      var id := l.open[step.tx].game;
      assert TxOk(l, step.tx) && l.open[t].game != id;
      forall i | 0 <= i < |l'.scored| ensures l'.scored[i].game != l.open[t].game {}
    }
  }

  lemma EloOnCommit(l: Ledger, t: nat, u: User)
    requires EloOk(l, u) && Enabled(l, Commit(t)) && GameOk(l, l.open[t].game)
    ensures EloOk(Do(l, Commit(t)), u)
  {}

  lemma EloKept(l: Ledger, step: Step, u: User)
    requires Inv(l) && Enabled(l, step)
    ensures EloOk(Do(l, step), u)
  {
    assert EloOk(l, u);
    if step.Commit? {
      assert GameOk(l, l.open[step.tx].game);
      EloOnCommit(l, step.tx, u);
    } else if step == NewUser(u) {
      NothingEarned(l, |l.scored|, u);
      assert l.scored[..|l.scored|] == l.scored;
    }
  }

  lemma StepKeeps(l: Ledger, step: Step)
    requires Inv(l) && Enabled(l, step)
    ensures Inv(Do(l, step))
  {
    var l' := Do(l, step);
    forall i ensures EntryOk(l', i) { EntryKept(l, step, i); }
    forall id ensures GameOk(l', id) { GameKept(l, step, id); }
    forall t ensures TxOk(l', t) { TxKept(l, step, t); }
    forall u ensures EloOk(l', u) { EloKept(l, step, u); }
  }

  /** A run of the ledger from the empty database. */
  ghost predicate Leads(l: Ledger, steps: seq<Step>, l': Ledger)
    decreases steps
  {
    if steps == [] then l == l' else Enabled(l, steps[0]) && Leads(Do(l, steps[0]), steps[1..], l')
  }

  lemma {:induction false} RunKeeps(l: Ledger, steps: seq<Step>, l': Ledger)
    requires Inv(l) && Leads(l, steps, l')
    ensures Inv(l')
    decreases steps
  {
    if steps != [] {
      StepKeeps(l, steps[0]);
      RunKeeps(Do(l, steps[0]), steps[1..], l');
    }
  }

  /** Under any interleaving of rating transactions and retries, no game is scored twice, only
      rated finished games are, no delta exceeds 40, and every rating is 1200 plus the deltas recorded on the player's
      games. */
  lemma {:induction false} LedgerBalances(steps: seq<Step>, l: Ledger)
    requires Leads(Ledger(map[], map[], [], map[]), steps, l)
    ensures forall i, j :: 0 <= i < j < |l.scored| ==> l.scored[i].game != l.scored[j].game
    ensures forall i :: 0 <= i < |l.scored| ==>
      Scorable(l, l.scored[i].game) && Abs(l.scored[i].whiteDelta) <= 40 && Abs(l.scored[i].blackDelta) <= 40
    ensures forall u :: u in l.elo ==> l.elo[u] == 1200 + Earned(l.scored, u)
  {
    RunKeeps(Ledger(map[], map[], [], map[]), steps, l);
    forall i, j | 0 <= i < j < |l.scored| ensures l.scored[i].game != l.scored[j].game { assert EntryOk(l, i); }
    forall i | 0 <= i < |l.scored|
      ensures Scorable(l, l.scored[i].game) && Abs(l.scored[i].whiteDelta) <= 40 && Abs(l.scored[i].blackDelta) <= 40
    {
      assert EntryOk(l, i);
    }
    forall u | u in l.elo ensures l.elo[u] == 1200 + Earned(l.scored, u) { assert EloOk(l, u); }
  }
}
