/** The game service's record of one game, each request taken as one step on its row. */
module Service {
  import opened Board
  import opened Rules
  import opened MoveGen
  import opened Invariant
  import opened Laws
  import opened Material
  import opened Notation
  import opened Fen
  import opened FenCodec
  import opened Outcome

  /** A stored half-move. */
  datatype StoredMove = StoredMove(ply: int, uci: string, fenAfter: string)

  datatype EndReason = NotEnded | OnBoard(reason: Reason) | Resignation

  datatype Reply =
    | Accepted
    | InvalidArgument
    | AlreadyOver
    | PermissionDenied
    | IllegalMove
    | StoreFailed
    | EngineFailed

  /** The position after the first `n` moves of a game from the start. */
  function PositionAt(played: seq<Move>, n: nat): Position
    requires n <= |played|
  {
    Replay(StartPosition(), played[..n])
  }

  function Current(played: seq<Move>): Position { Replay(StartPosition(), played) }

  /** The history that repetition is judged on: the start, then every stored position. */
  function History(moves: seq<StoredMove>): seq<string> {
    [START_FEN] + seq(|moves|, i requires 0 <= i < |moves| => moves[i].fenAfter)
  }

  /** One stored move is the printed record of one played move. */
  ghost predicate MoveRecorded(stored: StoredMove, played: seq<Move>, i: nat)
    requires i < |played|
  {
    && stored.ply == i + 1 && ParseMove(stored.uci) == Some(played[i])
    && WellFormed(PositionAt(played, i + 1)) && stored.fenAfter == Print(PositionAt(played, i + 1))
  }

  ghost predicate AllRecorded(moves: seq<StoredMove>, played: seq<Move>)
    requires |moves| == |played|
  {
    forall i :: 0 <= i < |moves| ==> MoveRecorded(moves[i], played, i)
  }

  /** The row records exactly this legal game: plies 1 to n, and the printed positions. */
  ghost predicate Recorded(fen: string, moves: seq<StoredMove>, played: seq<Move>) {
    && |moves| == |played| && Playable(StartPosition(), played) && WithinFifty(StartPosition(), played)
    && AllRecorded(moves, played)
    && WellFormed(Current(played)) && fen == Print(Current(played))
  }

  // ---- Clocks stay printable ----

  lemma {:induction false} ClocksBounded(p: Position, ms: seq<Move>)
    requires Sound(p) && Playable(p, ms)
    ensures Replay(p, ms).halfMove <= p.halfMove + |ms| && Replay(p, ms).fullMove <= p.fullMove + |ms|
    decreases ms
  {
    if ms != [] {
      LegalKeepsSound(p, ms[0]);
      ClocksBounded(Apply(p, ms[0]), ms[1..]);
    }
  }

  lemma {:induction false} ReachableIsWellFormed(ms: seq<Move>)
    requires Playable(StartPosition(), ms) && |ms| <= 12901
    ensures Sound(Current(ms)) && WellFormed(Current(ms))
  {
    ReachableIsSound(ms);
    StartIsSound();
    ClocksBounded(StartPosition(), ms);
  }

  lemma {:induction false} WithinFiftyOneMore(p: Position, ms: seq<Move>, m: Move)
    requires WithinFifty(p, ms) && Replay(p, ms).halfMove < 100
    ensures WithinFifty(p, ms + [m])
    decreases ms
  {
    var all := ms + [m];
    if ms == [] {
      assert all[1..] == [];
    } else {
      assert all[1..] == ms[1..] + [m] && all[0] == ms[0];
      WithinFiftyOneMore(Apply(p, ms[0]), ms[1..], m);
    }
  }

  lemma AllRecordedNext(moves: seq<StoredMove>, played: seq<Move>, stored: StoredMove, m: Move)
    requires |moves| == |played| && AllRecorded(moves, played) && MoveRecorded(stored, played + [m], |played|)
    ensures AllRecorded(moves + [stored], played + [m])
  {
    var moves', played' := moves + [stored], played + [m];
    forall i | 0 <= i < |moves'| ensures MoveRecorded(moves'[i], played', i) {
      if i < |moves| {
        assert MoveRecorded(moves[i], played, i);
        assert played'[..i + 1] == played[..i + 1];
      }
    }
  }

  /** The game extended by a legal move is a game, and its position can be printed. */
  lemma {:induction false} ExtendedGame(played: seq<Move>, m: Move)
    requires Playable(StartPosition(), played) && WithinFifty(StartPosition(), played)
    requires Legal(Current(played), m) && Current(played).halfMove < 100
    ensures Playable(StartPosition(), played + [m]) && WithinFifty(StartPosition(), played + [m])
    ensures Current(played + [m]) == Apply(Current(played), m) && WellFormed(Apply(Current(played), m))
  {
    GamesEnd(played);
    PlayOneMore(StartPosition(), played, m);
    WithinFiftyOneMore(StartPosition(), played, m);
    ReachableIsWellFormed(played + [m]);
  }

  /** Recording one more legal move. */
  lemma RecordedOnce(fen: string, moves: seq<StoredMove>, played: seq<Move>, uci: string, m: Move)
    requires Recorded(fen, moves, played) && ParseMove(uci) == Some(m)
    requires Legal(Current(played), m) && Current(played).halfMove < 100
    ensures var after := Apply(Current(played), m);
      && WellFormed(after) && after == Current(played + [m])
      && Recorded(Print(after), moves + [StoredMove(|moves| + 1, uci, Print(after))], played + [m])
  {
    ExtendedGame(played, m);
    var played', n := played + [m], |played|;
    assert played'[..n + 1] == played';
    AllRecordedNext(moves, played, StoredMove(n + 1, uci, Print(Apply(Current(played), m))), m);
  }

  lemma HistoryOneMore(moves: seq<StoredMove>, stored: StoredMove)
    ensures History(moves + [stored]) == History(moves) + [stored.fenAfter]
  {}

  lemma StartNotRepeated()
    ensures !Threefold(History([]))
  {}

  /** a2a3 leaves White's king unattacked. */
  lemma StartE1Safe(s: Square)
    ensures !AttacksFrom(StartPosition().squares[16 := Man(White, Pawn)][8 := Empty], s, Black, 4, 0)
  {
    assert StartPosition().squares[s] == StartPiece(s);
  }

  lemma StartHasMove()
    ensures Legal(StartPosition(), Move(8, 16, None))
  {
    var p, m := StartPosition(), Move(8, 16, None);
    assert p.squares[8] == Man(White, Pawn) && p.squares[16] == Empty;
    assert PseudoLegal(p, m);
    var q := p.squares[16 := Man(White, Pawn)][8 := Empty];
    assert SquaresAfter(p, m) == q;
    StartKings();
    assert KingAt(q, White, 4);
    forall s: Square ensures !AttacksFrom(q, s, Black, 4, 0) { StartE1Safe(s); }
    KingAttackedAt(q, White, 4);
  }

  lemma StartGoesOn()
    ensures VerdictWith(StartPosition(), History([])).0 == InProgress
  {
    StartHasMove();
    StartNotRepeated();
    assert IsMajor(StartPosition().squares[8]);
  }

  lemma StartRecorded()
    ensures Recorded(START_FEN, [], [])
  {
    StartText();
    ReachableIsWellFormed([]);
  }

  /** A stored game has at most 12900 plies. */
  lemma RecordedIsBounded(fen: string, moves: seq<StoredMove>, played: seq<Move>)
    requires Recorded(fen, moves, played)
    ensures |moves| <= 12900
  {
    GamesEnd(played);
  }

  /** The stored text determines the position: parsing it gives the replayed game's position. */
  lemma StoredFenReplays(fen: string, moves: seq<StoredMove>, played: seq<Move>)
    requires Recorded(fen, moves, played)
    ensures Parse(fen) == Some(Current(played))
  {
    RoundTrip(Current(played));
  }

  /** The row records a legal game; while it is in progress the verdict on the position is that the
      game goes on, so it is no mate, stalemate or draw; once ended on the board, the stored result is the
      verdict on the final position, and a game ended by repetition repeats that very position. */
  ghost predicate Consistent(fen: string, moves: seq<StoredMove>, played: seq<Move>, status: Result, end: EndReason) {
    && Recorded(fen, moves, played)
    && (status == InProgress ==> VerdictWith(Current(played), History(moves)).0 == InProgress)
    && (status == InProgress <==> end == NotEnded)
    && (end.OnBoard? ==> (status, end.reason) == VerdictWith(Current(played), History(moves)))
    && (end == OnBoard(ThreefoldRepetition) ==> multiset(Keys(History(moves)))[RepetitionKey(fen)] == 3)
  }

  /** A stored win is a mate of the other side, or a resignation; a stored draw ends on the board. */
  lemma StoredWin(fen: string, moves: seq<StoredMove>, played: seq<Move>, status: Result, end: EndReason)
    requires Consistent(fen, moves, played, status, end) && end.OnBoard?
    ensures status == WhiteWins ==> Mated(Current(played), Black)
    ensures status == BlackWins ==> Mated(Current(played), White)
    ensures end.reason == Checkmate <==> status == WhiteWins || status == BlackWins
  {
    MateDecides(Current(played));
  }

  /** White is to move exactly when an even number of moves is stored. */
  lemma {:induction false} TurnByParity(played: seq<Move>)
    requires Playable(StartPosition(), played)
    ensures Current(played).turn == if |played| % 2 == 0 then White else Black
  {
    var ps := GameOf(played);
    NumbersOfGame(ps, played, |played|);
  }

  lemma HistoryStarts(moves: seq<StoredMove>)
    ensures |History(moves)| == |moves| + 1 && Parse(History(moves)[0]) == Some(StartPosition())
  {
    StartText();
    StartIsSound();
    RoundTrip(StartPosition());
  }

  lemma StoredIsPosition(stored: StoredMove, played: seq<Move>, i: nat)
    requires i < |played| && MoveRecorded(stored, played, i)
    ensures Parse(stored.fenAfter) == Some(PositionAt(played, i + 1))
  {
    RoundTrip(PositionAt(played, i + 1));
  }

  /** Every entry of the history is the text of the position after so many plies. */
  lemma HistoryIsPositions(fen: string, moves: seq<StoredMove>, played: seq<Move>, i: nat)
    requires Recorded(fen, moves, played) && i <= |moves|
    ensures |History(moves)| == |moves| + 1 && Parse(History(moves)[i]) == Some(PositionAt(played, i))
  {
    HistoryStarts(moves);
    if i > 0 {
      assert MoveRecorded(moves[i - 1], played, i - 1);
      StoredIsPosition(moves[i - 1], played, i - 1);
    }
  }

  lemma RepetitionVerdict(p: Position, history: seq<string>)
    ensures VerdictWith(p, history).1 == ThreefoldRepetition ==> Threefold(history)
  {}

  lemma OngoingVerdict(p: Position, history: seq<string>)
    requires VerdictWith(p, history).0 == InProgress
    ensures p.halfMove < 100 && !Threefold(history)
  {}

  /** Storing a judged move keeps the row consistent. */
  lemma ConsistentOnce(fen: string, moves: seq<StoredMove>, played: seq<Move>, uci: string, m: Move,
                       stored: StoredMove, result: Result, reason: Reason)
    requires Consistent(fen, moves, played, InProgress, NotEnded)
    requires ParseMove(uci) == Some(m) && Legal(Current(played), m)
    requires WellFormed(Apply(Current(played), m))
    requires stored == StoredMove(|moves| + 1, uci, Print(Apply(Current(played), m)))
    requires (result, reason) == VerdictWith(Apply(Current(played), m), History(moves) + [stored.fenAfter])
    ensures Apply(Current(played), m) == Current(played + [m])
    ensures Consistent(stored.fenAfter, moves + [stored], played + [m], result,
                       if result == InProgress then NotEnded else OnBoard(reason))
  {
    OngoingVerdict(Current(played), History(moves));
    RecordedOnce(fen, moves, played, uci, m);
    HistoryOneMore(moves, stored);
    RepetitionVerdict(Current(played + [m]), History(moves + [stored]));
    ThreefoldIsCurrent(History(moves), stored.fenAfter);
  }

  /** The history a request judges repetition on, rebuilt from the stored moves. */
  method BuildHistory(moves: seq<StoredMove>) returns (history: seq<string>)
    ensures history == History(moves)
  {
    history := [START_FEN];
    for i := 0 to |moves|
      invariant history == History(moves[..i])
    {
      assert moves[..i + 1] == moves[..i] + [moves[i]];
      HistoryOneMore(moves[..i], moves[i]);
      history := history + [moves[i].fenAfter];
    }
    assert moves[..|moves|] == moves;
  }

  /** A legal move with the position it leads to, that position's text and its verdict. */
  datatype Judged = Judged(after: Position, text: string, result: Result, reason: Reason)

  method Judge(board: Position, uci: string, history: seq<string>) returns (j: Option<Judged>)
    requires forall m :: Legal(board, m) ==> WellFormed(Apply(board, m))
    ensures j.Some? <==> ParseMove(uci).Some? && Legal(board, ParseMove(uci).value)
    ensures j.Some? ==> var Judged(after, text, result, reason) := j.value;
      && after == Apply(board, ParseMove(uci).value) && WellFormed(after) && text == Print(after)
      && (result, reason) == VerdictWith(after, history + [text])
  {
    var parsed := ParseMove(uci);
    if parsed.None? {
      return None;
    }
    var next := ApplyMove(board, parsed.value);
    if next.None? {
      return None;
    }
    var text := WriteFen(next.value);
    var result, reason := JudgeWithHistory(next.value, history + [text]);
    return Some(Judged(next.value, text, result, reason));
  }

  /** Every legal move from a recorded, unfinished game leads to a printable position. */
  lemma NextIsWellFormed(fen: string, moves: seq<StoredMove>, played: seq<Move>)
    requires Recorded(fen, moves, played)
    ensures forall m :: Legal(Current(played), m) ==> WellFormed(Apply(Current(played), m))
  {
    GamesEnd(played);
    forall m | Legal(Current(played), m) ensures WellFormed(Apply(Current(played), m)) {
      PlayOneMore(StartPosition(), played, m);
      ReachableIsWellFormed(played + [m]);
    }
  }

  // ---- Requests ----

  /** A text that names a legal move. */
  ghost predicate Plays(p: Position, uci: string) {
    ParseMove(uci).Some? && Legal(p, ParseMove(uci).value)
  }

  /** After a playable move of a recorded game, the verdict is that the game goes on. */
  ghost predicate GoesOn(played: seq<Move>, moves: seq<StoredMove>, uci: string) {
    Plays(Current(played), uci) &&
    var after := Current(played + [ParseMove(uci).value]);
    WellFormed(after) && VerdictWith(after, History(moves) + [Print(after)]).0 == InProgress
  }

  /** The game after a stored move: that move, and the engine's answer exactly when the game goes
      on, there is an engine, and it answers with a legal move that is committed. */
  ghost predicate Answered(played: seq<Move>, moves: seq<StoredMove>, uci: string, engine: Option<string>,
                           commits: bool, result: seq<Move>) {
    ParseMove(uci).Some? &&
    var next := played + [ParseMove(uci).value];
    if GoesOn(played, moves, uci) && engine.Some? && commits && Plays(Current(next), engine.value)
    then result == next + [ParseMove(engine.value).value]
    else result == next
  }

  lemma GoesOnAfter(played: seq<Move>, moves: seq<StoredMove>, uci: string, stored: StoredMove)
    requires Plays(Current(played), uci)
    requires var after := Current(played + [ParseMove(uci).value]); WellFormed(after) && stored.fenAfter == Print(after)
    ensures GoesOn(played, moves, uci) <==>
      VerdictWith(Current(played + [ParseMove(uci).value]), History(moves + [stored])).0 == InProgress
  {
    HistoryOneMore(moves, stored);
  }

  // ---- The row ----

  class GameRow {
    const whiteId: string
    const blackId: string
    const vsEngine: bool
    var status: Result
    var endReason: EndReason
    var fen: string
    var moves: seq<StoredMove>
    ghost var played: seq<Move>

    ghost predicate Valid()
      reads this
    {
      Consistent(fen, moves, played, status, endReason)
    }

    constructor (white: string, black: string, engine: bool)
      ensures Valid() && status == InProgress && moves == [] && played == []
      ensures whiteId == white && blackId == black && vsEngine == engine
    {
      whiteId, blackId, vsEngine := white, black, engine;
      status, endReason, fen, moves, played := InProgress, NotEnded, START_FEN, [], [];
      new;
      StartRecorded();
      StartGoesOn();
    }

    /** The transaction that stores a move with the new position and status. It asks nothing of the
        row: that the move is legal and the game still on is for its caller to see to. */
    method AppendMove(stored: StoredMove, result: Result, reason: Reason)
      modifies this`status, this`endReason, this`fen, this`moves
      ensures moves == old(moves) + [stored] && fen == stored.fenAfter && status == result
      ensures endReason == if result == InProgress then old(endReason) else OnBoard(reason)
    {
      moves, fen, status := moves + [stored], stored.fenAfter, result;
      if result != InProgress {
        endReason := OnBoard(reason);
      }
    }

    /** Parses and applies a move, judges the position, and stores both. */
    method Play(board: Position, uci: string, storeOk: bool) returns (reply: Reply, after: Position)
      requires Valid() && status == InProgress && board == Current(played)
      modifies this
      ensures Valid()
      ensures reply == Accepted <==> storeOk && Plays(board, uci)
      ensures reply == Accepted ==>
        && played == old(played) + [ParseMove(uci).value] && after == Current(played) && WellFormed(after)
        && moves == old(moves) + [StoredMove(|old(moves)| + 1, uci, Print(after))]
        && status == VerdictWith(after, History(moves)).0 && endReason != Resignation
      ensures reply == (if !Plays(board, uci) then IllegalMove else if storeOk then Accepted else StoreFailed)
      ensures reply != Accepted ==> unchanged(this)
    {
      NextIsWellFormed(fen, moves, played);
      var history := BuildHistory(moves);
      var j := Judge(board, uci, history);
      if j.None? {
        return IllegalMove, board;
      }
      var Judged(next, text, result, reason) := j.value;
      after := next;
      if !storeOk {
        return StoreFailed, after;
      }
      var stored := StoredMove(|moves| + 1, uci, text);
      HistoryOneMore(moves, stored);
      ConsistentOnce(fen, moves, played, uci, ParseMove(uci).value, stored, result, reason);
      AppendMove(stored, result, reason);
      played := played + [ParseMove(uci).value];
      reply := Accepted;
    }

    function Expected(turn: Color): string { if turn == Black then blackId else whiteId }

    /** A request that may move: the game goes on and, between people, its sender is White after an even
        number of plies and Black after an odd one. */
    ghost predicate Admitted(uci: string, player: string)
      reads this
    {
      && uci != "" && status == InProgress
      && (vsEngine || player == (if |moves| % 2 == 0 then whiteId else blackId) != "")
    }

    /** Loads the position of the stored game and checks the request against it. */
    method Admit(uci: string, player: string) returns (reply: Reply, board: Position)
      requires Valid()
      ensures reply == Accepted <==> Admitted(uci, player)
      ensures reply == Accepted ==> board == Current(played)
      ensures reply == AlreadyOver <==> uci != "" && status != InProgress
      ensures reply == PermissionDenied <==>
          uci != "" && status == InProgress && !vsEngine && player != "" && !Admitted(uci, player)
      ensures reply in {Accepted, AlreadyOver, PermissionDenied, InvalidArgument}
    {
      StoredFenReplays(fen, moves, played);
      TurnByParity(played);
      var parsed := ReadFen(fen);
      board := parsed.value;
      reply :=
        if uci == "" then InvalidArgument
        else if status != InProgress then AlreadyOver
        else if vsEngine then Accepted
        else if player == "" then InvalidArgument
        else if player != Expected(board.turn) then PermissionDenied
        else Accepted;
    }

    /** A request whose move is stored: it may move, its move is legal, and the store commits. */
    ghost predicate Stores(uci: string, player: string, storeOk: bool)
      reads this
    {
      Admitted(uci, player) && storeOk && Plays(Current(played), uci)
    }

    /** One request: the player's move and, in an engine game that goes on, the engine's reply.
        `engine` is the engine's answer, if any; the booleans say whether the store commits.
        A rejected request changes nothing; an accepted move stays even when the engine fails. */
    method SubmitMove(uci: string, player: string, storeOk: bool, engine: Option<string>, engineStoreOk: bool)
      returns (reply: Reply)
      requires Valid()
      modifies this
      ensures Valid() && old(moves) <= moves
      ensures if old(Stores(uci, player, storeOk))
        then Answered(old(played), old(moves), uci, if vsEngine then engine else None, engineStoreOk, played)
          && endReason != Resignation
        else reply != Accepted && unchanged(this)
      ensures reply == Accepted <==>
        && old(Stores(uci, player, storeOk))
        && (vsEngine && GoesOn(old(played), old(moves), uci) ==> |played| == |old(played)| + 2)
      ensures old(Admitted(uci, player)) ==> (reply == IllegalMove <==> !old(Plays(Current(played), uci)))
    {
      var board, after;
      reply, board := Admit(uci, player);
      if reply != Accepted {
        return;
      }
      reply, after := Play(board, uci, storeOk);
      if reply != Accepted {
        return;
      }
      GoesOnAfter(old(played), old(moves), uci, StoredMove(|old(moves)| + 1, uci, Print(after)));
      if status == InProgress && vsEngine {
        reply := PlayEngineReply(after, engine, engineStoreOk);
      }
    }

    /** The engine's answer, if it gives one, is validated and stored like a player's move. */
    method PlayEngineReply(board: Position, engine: Option<string>, storeOk: bool) returns (reply: Reply)
      requires Valid() && status == InProgress && board == Current(played)
      modifies this
      ensures Valid() && old(moves) <= moves
      ensures reply == Accepted <==> storeOk && engine.Some? && Plays(board, engine.value)
      ensures reply == EngineFailed <==> engine.None? || !Plays(board, engine.value)
      ensures reply in {Accepted, EngineFailed, StoreFailed}
      ensures reply == Accepted ==> played == old(played) + [ParseMove(engine.value).value] && endReason != Resignation
      ensures reply != Accepted ==> unchanged(this)
    {
      if engine.None? {
        return EngineFailed;
      }
      var after;
      reply, after := Play(board, engine.value, storeOk);
      if reply == IllegalMove {
        return EngineFailed;
      }
    }

    /** Ends the game in the opponent's favour, unless it is already over. */
    method Resign(player: string) returns (reply: Reply)
      requires Valid()
      modifies this
      ensures Valid() && played == old(played) && moves == old(moves) && fen == old(fen)
      ensures reply == Accepted <==>
          player != "" && (player == whiteId || player == blackId) && old(status) == InProgress
      ensures reply == Accepted ==>
          status == (if player == whiteId then BlackWins else WhiteWins) && endReason == Resignation
      ensures reply == AlreadyOver <==>
          player != "" && (player == whiteId || player == blackId) && old(status) != InProgress
      ensures reply == PermissionDenied <==> player != "" && player != whiteId && player != blackId
      ensures reply in {Accepted, AlreadyOver, PermissionDenied, InvalidArgument}
      ensures reply != Accepted ==> status == old(status) && endReason == old(endReason)
    {
      if player == "" {
        return InvalidArgument;
      }
      if player != whiteId && player != blackId {
        return PermissionDenied;
      }
      if status != InProgress {
        return AlreadyOver;
      }
      status := if player == whiteId then BlackWins else WhiteWins;
      endReason := Resignation;
      return Accepted;
    }
  }
}
