/** Writing a game's moves as PGN movetext. */
module Pgn {
  import opened Board
  import opened Rules
  import opened Applying
  import opened Attack
  import opened MoveGen
  import opened Invariant
  import opened Notation
  import opened Fen
  import opened San
  import opened Text

  // ---- Writing one move ----

  predicate HasPawn(q: Squares) { exists s: Square :: IsPawn(q[s]) }

  /** An empty en-passant target has its victim's square on the board, or there is no pawn to take. */
  predicate TargetSafe(p: Position) {
    0 <= p.enPassant < 64 && p.squares[p.enPassant].Empty? && !(0 <= Victim(p.turn, p.enPassant) < 64) ==>
      !HasPawn(p.squares)
  }

  /** That is exactly when any move, legal or not, can be made without indexing outside the board. */
  lemma SafeIff(p: Position)
    ensures (forall m :: Applicable(p, m)) <==> TargetSafe(p)
  {
    if !TargetSafe(p) {
      var s: Square :| IsPawn(p.squares[s]);
      assert !Applicable(p, Move(s, p.enPassant, None));
    }
  }

  /** A lone white pawn on a2 with the target on a1: the text of a2a1 cannot be written. */
  function PawnAboveTarget(): Position {
    Position(seq(64, s => if s == 8 then Man(White, Pawn) else Empty),
        White, Rights(false, false, false, false), 0, 0, 1)
  }

  lemma UnsafeTarget()
    ensures WellFormed(PawnAboveTarget()) && !Applicable(PawnAboveTarget(), Move(8, 0, None))
  {}

  predicate Writable(p: Position) { p.fullMove >= 0 && TargetSafe(p) }

  lemma WritableApplies(p: Position, m: Move)
    requires Writable(p)
    ensures Applicable(p, m)
  {
    SafeIff(p);
  }

  lemma SoundIsWritable(p: Position)
    requires Sound(p)
    ensures Writable(p)
  {}

  lemma LegalKeepsWritable(p: Position, m: Move)
    requires Writable(p) && PseudoLegal(p, m)
    ensures Writable(Apply(p, m))
  {
    if IsPawn(p.squares[m.from]) && Abs(DR(m)) == 2 {
      assert DoublePush(p.squares, p.turn, m);
      DoublePushSquares(p, m);
    }
  }

  lemma {:induction false} PlayKeepsWritable(p: Position, ms: seq<Move>)
    requires Writable(p) && Playable(p, ms)
    ensures Writable(Replay(p, ms))
    decreases ms
  {
    if ms != [] {
      LegalKeepsWritable(p, ms[0]);
      PlayKeepsWritable(Apply(p, ms[0]), ms[1..]);
    }
  }

  method WriteCheckSuffix(p: Position, m: Move) returns (s: string)
    requires Applicable(p, m)
    ensures s == CheckSuffix(p, m)
  {
    var after := ApplyMoveUnchecked(p, m);
    var check := InCheck(after);
    if !check {
      return "";
    }
    var replies := LegalMoves(after);
    if |replies| == 0 {
      return "#";
    }
    assert replies[0] in replies && Legal(after, replies[0]);
    return "+";
  }

  /** The squares of the other pieces of the same kind that can go to the same square. */
  method FindRivals(p: Position, m: Move) returns (rivals: seq<Square>)
    ensures forall t: Square :: t in rivals <==> Rival(p, m, t)
  {
    var legal := LegalMoves(p);
    rivals := [];
    for i := 0 to |legal|
      invariant forall t: Square :: t in rivals <==>
        exists j :: 0 <= j < i && legal[j].from == t && legal[j].to == m.to
                  && t != m.from && p.squares[t] == p.squares[m.from]
    {
      var lm := legal[i];
      if lm.to == m.to && lm.from != m.from && p.squares[lm.from] == p.squares[m.from] {
        rivals := rivals + [lm.from];
      }
    }
    forall t: Square ensures t in rivals <==> Rival(p, m, t) {
      if t in rivals {
        var j :| 0 <= j < |legal| && legal[j].from == t && legal[j].to == m.to
              && t != m.from && p.squares[t] == p.squares[m.from];
        assert legal[j] in legal && legal[j] == Move(t, m.to, legal[j].promotion);
      }
      if Rival(p, m, t) {
        var k :| Legal(p, Move(t, m.to, k));
        assert Move(t, m.to, k) in legal;
      }
    }
  }

  method WriteDisambiguation(p: Position, m: Move) returns (s: string)
    ensures s == Disambiguation(p, m)
  {
    var rivals := FindRivals(p, m);
    if |rivals| == 0 {
      return "";
    }
    assert Rival(p, m, rivals[0]);
    var sameFile, sameRank := SharesLine(rivals, m.from);
    if !sameFile {
      return [FileChar(FileOf(m.from))];
    } else if !sameRank {
      return [RankChar(RankOf(m.from))];
    }
    return SquareName(m.from);
  }

  method SharesLine(rivals: seq<Square>, from: Square) returns (sameFile: bool, sameRank: bool)
    ensures sameFile <==> exists t: Square :: t in rivals && FileOf(t) == FileOf(from)
    ensures sameRank <==> exists t: Square :: t in rivals && RankOf(t) == RankOf(from)
  {
    sameFile, sameRank := false, false;
    for i := 0 to |rivals|
      invariant sameFile <==> exists t: Square :: t in rivals[..i] && FileOf(t) == FileOf(from)
      invariant sameRank <==> exists t: Square :: t in rivals[..i] && RankOf(t) == RankOf(from)
    {
      assert rivals[..i + 1] == rivals[..i] + [rivals[i]];
      if FileOf(rivals[i]) == FileOf(from) {
        sameFile := true;
      }
      if RankOf(rivals[i]) == RankOf(from) {
        sameRank := true;
      }
    }
    assert rivals[..|rivals|] == rivals;
  }

  method WritePawn(p: Position, m: Move, isCapture: bool) returns (s: string)
    requires IsPawn(p.squares[m.from]) && isCapture == WritesCapture(p, m)
    ensures s == Body(p, m)
  {
    s := "";
    if isCapture {
      s := s + [FileChar(FileOf(m.from))];
      s := s + ['x'];
    }
    s := s + SquareName(m.to);
    if m.promotion.Some? {
      s := s + ['='];
      s := s + [PieceLetter(m.promotion.value)];
    }
    assert s == Body(p, m);
  }

  method WritePiece(p: Position, m: Move, isCapture: bool) returns (s: string)
    requires p.squares[m.from].Man? && !IsPawn(p.squares[m.from]) && !IsCastling(p, m)
    requires isCapture == WritesCapture(p, m)
    ensures s == Body(p, m)
  {
    var origin := WriteDisambiguation(p, m);
    s := [PieceLetter(p.squares[m.from].kind)];
    s := s + origin;
    if isCapture {
      s := s + ['x'];
    }
    s := s + SquareName(m.to);
    assert s == Body(p, m);
  }

  method WriteSan(p: Position, m: Move) returns (s: string)
    requires Applicable(p, m)
    ensures s == SanText(p, m)
  {
    var piece := p.squares[m.from];
    if piece == Empty {
      return MoveString(m);
    }
    var suffix := WriteCheckSuffix(p, m);
    if piece.kind == King && Abs(FileOf(m.to) - FileOf(m.from)) == 2 {
      s := "O-O";
      if FileOf(m.to) == 2 {
        s := "O-O-O";
      }
      return s + suffix;
    }
    var isCapture := p.squares[m.to] != Empty || (piece.kind == Pawn && m.to == p.enPassant);
    if piece.kind == Pawn {
      s := WritePawn(p, m, isCapture);
    } else {
      s := WritePiece(p, m, isCapture);
    }
    s := s + suffix;
  }

  // ---- Movetext ----

  /** The tokens of a game: move numbers and moves. */
  ghost function Tokens(p: Position, ms: seq<Move>, first: bool): seq<string>
    requires p.fullMove >= 0
    decreases ms
  {
    if ms == [] then []
    else Marker(p, first) + [SanText(p, ms[0])] + Tokens(Apply(p, ms[0]), ms[1..], false)
  }

  /** The move number, before White's moves and before a first move by Black. */
  function Marker(p: Position, first: bool): seq<string>
    requires p.fullMove >= 0
  {
    if p.turn == White then [Itoa(p.fullMove) + "."]
    else if first then [Itoa(p.fullMove) + "..."]
    else []
  }

  lemma SameHead(x: seq<string>, a: string, t: seq<string>, b: string, u: seq<string>)
    requires x + [a] + t == x + [b] + u
    ensures a == b && t == u
  {
    var s := x + [a] + t;
    assert s[|x|] == a && s[|x| + 1..] == t;
    assert (x + [b] + u)[|x|] == b && (x + [b] + u)[|x| + 1..] == u;
  }

  lemma {:induction false} TokensNext(p: Position, ms: seq<Move>, first: bool, r: string)
    requires p.fullMove >= 0 && ms != []
    ensures Tokens(p, ms, first) + [r] ==
            Marker(p, first) + [SanText(p, ms[0])] + (Tokens(Apply(p, ms[0]), ms[1..], false) + [r])
  {}

  /** Two games that read the same begin with the same move, and go on reading the same. */
  lemma {:induction false} FirstDetermined(p: Position, ms: seq<Move>, ns: seq<Move>, first: bool,
                                           r: string, r': string)
    requires Sound(p) && ms != [] && ns != [] && Legal(p, ms[0]) && Legal(p, ns[0])
    requires Tokens(p, ms, first) + [r] == Tokens(p, ns, first) + [r']
    ensures ms[0] == ns[0]
    ensures Tokens(Apply(p, ms[0]), ms[1..], false) + [r] == Tokens(Apply(p, ns[0]), ns[1..], false) + [r']
  {
    TokensNext(p, ms, first, r);
    TokensNext(p, ns, first, r');
    SameHead(Marker(p, first), SanText(p, ms[0]), Tokens(Apply(p, ms[0]), ms[1..], false) + [r],
             SanText(p, ns[0]), Tokens(Apply(p, ns[0]), ns[1..], false) + [r']);
    SanInjective(p, ms[0], ns[0]);
  }

  lemma {:induction false} EmptyGame(p: Position, ns: seq<Move>, first: bool, r: string, r': string)
    requires p.fullMove >= 0 && [r] == Tokens(p, ns, first) + [r']
    ensures ns == [] && r == r'
  {
    var t := Tokens(p, ns, first);
    assert |t + [r']| == |t| + 1 && (t + [r'])[|t|] == r';
  }

  /** Two games from one position that read the same are the same game with the same result. */
  lemma {:induction false} GameDetermined(p: Position, ms: seq<Move>, ns: seq<Move>, first: bool, r: string, r': string)
    requires Sound(p) && Playable(p, ms) && Playable(p, ns)
    requires Tokens(p, ms, first) + [r] == Tokens(p, ns, first) + [r']
    ensures ms == ns && r == r'
    decreases ms
  {
    if ms == [] {
      EmptyGame(p, ns, first, r, r');
    } else if ns == [] {
      EmptyGame(p, ms, first, r', r);
    } else {
      FirstDetermined(p, ms, ns, first, r, r');
      LegalKeepsSound(p, ms[0]);
      GameDetermined(Apply(p, ms[0]), ms[1..], ns[1..], false, r, r');
      assert ms == [ms[0]] + ms[1..] && ns == [ns[0]] + ns[1..];
    }
  }

  predicate NoSpaces(s: string) {
    forall i :: 0 <= i < |s| ==> !IsSpace(s[i])
  }

  lemma DisambiguationNoSpaces(p: Position, m: Move)
    ensures NoSpaces(Disambiguation(p, m))
  {}

  lemma NoSpacesAppend(a: string, b: string)
    requires NoSpaces(a) && NoSpaces(b)
    ensures NoSpaces(a + b)
  {}

  lemma BodyNoSpaces(p: Position, m: Move)
    requires p.squares[m.from].Man?
    ensures NoSpaces(Body(p, m))
  {
    var x := if WritesCapture(p, m) then "x" else "";
    if !IsCastling(p, m) && p.squares[m.from].kind != Pawn {
      DisambiguationNoSpaces(p, m);
      var head := [PieceLetter(p.squares[m.from].kind)];
      NoSpacesAppend(head, Disambiguation(p, m));
      NoSpacesAppend(head + Disambiguation(p, m), x);
      NoSpacesAppend(head + Disambiguation(p, m) + x, SquareName(m.to));
    }
  }

  lemma SanIsWord(p: Position, m: Move)
    ensures IsWord(SanText(p, m))
  {
    if p.squares[m.from].Man? {
      BodyEnds(p, m);
      BodyNoSpaces(p, m);
      NoSpacesAppend(Body(p, m), CheckSuffix(p, m));
      assert IsWord(Body(p, m) + CheckSuffix(p, m));
    } else {
      assert IsWord(MoveString(m));
    }
  }

  lemma MarkersAreWords(p: Position, first: bool)
    requires p.fullMove >= 0
    ensures AllWords(Marker(p, first))
  {}

  lemma {:induction false} TokensAreWords(p: Position, ms: seq<Move>, first: bool)
    requires p.fullMove >= 0
    ensures AllWords(Tokens(p, ms, first))
    decreases ms
  {
    if ms != [] {
      MarkersAreWords(p, first);
      SanIsWord(p, ms[0]);
      TokensAreWords(Apply(p, ms[0]), ms[1..], false);
    }
  }

  // ---- Wrapping ----

  /** Words one space apart, within the width unless there is only one. */
  predicate GoodLine(line: string, width: int) {
    && Fields(line) != [] && line == Join(Fields(line)) && '\n' !in line
    && (|line| <= width || |Fields(line)| == 1)
  }

  /** The first word of the second line would not have fitted on the first. */
  predicate Breaks(line: string, next: string, width: int) {
    Fields(next) != [] && |line| + 1 + |Fields(next)[0]| > width
  }

  ghost predicate GoodLines(lines: seq<string>, width: int) {
    && (forall i :: 0 <= i < |lines| ==> GoodLine(lines[i], width))
    && (forall i, j :: 0 <= i < j < |lines| && j == i + 1 ==> Breaks(lines[i], lines[j], width))
  }

  lemma {:induction false} WordIsLine(w: string, width: int)
    requires IsWord(w)
    ensures Fields(w) == [w] && GoodLine(w, width)
  {
    FieldsOfWord(w, "");
    assert w + "" == w;
  }

  lemma {:induction false} WordsSnoc(ws: seq<string>, w: string)
    requires ws != []
    ensures Join(ws + [w]) == Join(ws) + (" " + w)
  {
    var all := ws + [w];
    if |ws| == 1 {
      assert all[1..] == [w];
    } else {
      WordsSnoc(ws[1..], w);
      assert all[1..] == ws[1..] + [w] && all[0] == ws[0];
      assert ws[0] + " " + (Join(ws[1..]) + (" " + w)) == ws[0] + " " + Join(ws[1..]) + (" " + w);
    }
  }

  lemma {:induction false} LineLonger(line: string, w: string, width: int)
    requires GoodLine(line, width) && IsWord(w) && |line| + 1 + |w| <= width
    ensures GoodLine(line + (" " + w), width) && Fields(line + (" " + w))[0] == Fields(line)[0]
  {
    FieldsSnoc(line, ' ', w);
    WordsSnoc(Fields(line), w);
    assert line + [' '] + w == line + (" " + w);
  }

  /** The word goes on a line of its own when it does not fit on the last. */
  lemma LinesNext(lines: seq<string>, w: string, width: int)
    requires GoodLines(lines, width) && IsWord(w) && lines != [] && |lines[|lines| - 1]| + 1 + |w| > width
    ensures GoodLines(lines + [w], width)
  {
    WordIsLine(w, width);
  }

  lemma {:induction false} LinesLonger(lines: seq<string>, w: string, width: int)
    requires GoodLines(lines, width) && IsWord(w) && lines != [] && |lines[|lines| - 1]| + 1 + |w| <= width
    ensures GoodLines(lines[|lines| - 1 := lines[|lines| - 1] + (" " + w)], width)
  {
    LineLonger(lines[|lines| - 1], w, width);
  }

  lemma {:induction false} JoinSnoc(lines: seq<string>, line: string)
    requires |lines| >= 1
    ensures JoinWith(lines + [line], '\n') == JoinWith(lines, '\n') + ['\n'] + line
  {
    var all := lines + [line];
    if |lines| == 1 {
      assert all[1..] == [line];
    } else {
      JoinSnoc(lines[1..], line);
      assert all[1..] == lines[1..] + [line];
    }
  }

  lemma {:induction false} JoinExtend(lines: seq<string>, more: string)
    requires |lines| >= 1
    ensures JoinWith(lines[|lines| - 1 := lines[|lines| - 1] + more], '\n') == JoinWith(lines, '\n') + more
  {
    var n := |lines| - 1;
    var longer := lines[n := lines[n] + more];
    if n > 0 {
      JoinExtend(lines[1..], more);
      assert longer[1..] == lines[1..][n - 1 := lines[1..][n - 1] + more];
    }
  }

  /** Wrapping keeps every token and their order, puts one space between the tokens of a line, and breaks a
      line exactly where the next token does not fit. */
  method WrapMovetext(s: string, width: int) returns (out: string)
    ensures Fields(out) == Fields(s)
    ensures GoodLines(Split(out, '\n'), width) || out == ""
  {
    var words := Fields(s);
    FieldsAreWords(s);
    out := "";
    var lineLen := 0;
    ghost var lines: seq<string> := [];
    for i := 0 to |words|
      invariant Fields(out) == words[..i]
      invariant i == 0 ==> out == "" && lineLen == 0
      invariant i > 0 ==> |lines| >= 1 && out == JoinWith(lines, '\n') && lineLen == |lines[|lines| - 1]| > 0
      invariant GoodLines(lines, width)
    {
      var w := words[i];
      assert IsWord(w) && words[..i + 1] == words[..i] + [w];
      if lineLen > 0 && lineLen + 1 + |w| > width {
        FieldsSnoc(out, '\n', w);
        JoinSnoc(lines, w);
        LinesNext(lines, w, width);
        lines := lines + [w];
        out := out + ['\n'];
        lineLen := 0;
      } else if i > 0 {
        FieldsSnoc(out, ' ', w);
        JoinExtend(lines, " " + w);
        LinesLonger(lines, w, width);
        lines := lines[|lines| - 1 := lines[|lines| - 1] + (" " + w)];
        assert out + [' '] + w == out + (" " + w);
        out := out + [' '];
        lineLen := lineLen + 1;
      } else {
        WordIsLine(w, width);
        assert "" + w == w;
        lines := [w];
      }
      out := out + w;
      lineLen := lineLen + |w|;
    }
    assert words[..|words|] == words;
    if words != [] {
      SplitOfJoin(lines, '\n');
    }
  }

  // ---- The whole movetext ----

  /** The UCI strings denote this legal game. */
  ghost predicate IsGame(p: Position, ucis: seq<string>, ms: seq<Move>) {
    && |ms| == |ucis| && Playable(p, ms)
    && forall i :: 0 <= i < |ucis| ==> ParseMove(ucis[i]) == Some(ms[i])
  }

  lemma Regroup(a: seq<string>, b: seq<string>, c: seq<string>, d: seq<string>)
    ensures a + (b + c + d) == (a + b) + c + d
  {}

  lemma {:induction false} TokensSnoc(p: Position, ms: seq<Move>, m: Move, first: bool)
    requires p.fullMove >= 0 && Replay(p, ms).fullMove >= 0
    ensures Tokens(p, ms + [m], first) ==
            Tokens(p, ms, first) + Marker(Replay(p, ms), first && ms == []) + [SanText(Replay(p, ms), m)]
    decreases ms
  {
    var all := ms + [m];
    if ms == [] {
      assert all[1..] == [] && all[0] == m;
      assert Tokens(Apply(p, m), [], false) == [];
    } else {
      assert all[1..] == ms[1..] + [m] && all[0] == ms[0];
      var next, last := Apply(p, ms[0]), Replay(p, ms);
      TokensSnoc(next, ms[1..], m, false);
      Regroup(Marker(p, first) + [SanText(p, ms[0])], Tokens(next, ms[1..], false),
              Marker(last, false), [SanText(last, m)]);
    }
  }

  /** A list that agrees with a game's UCI strings is that game's prefix. */
  lemma {:induction false} GamePrefix(p: Position, ucis: seq<string>, ms: seq<Move>, ns: seq<Move>)
    requires IsGame(p, ucis, ns)
    requires Parsed(ucis, ms)
    ensures ms == ns[..|ms|] && Playable(p, ms)
  {
    assert ms == ns[..|ms|];
    PlayPrefix(p, ns, |ms|);
  }

  /** A text `a` followed by one token and a space. */
  lemma {:induction false} FieldsPush(a: string, w: string)
    requires IsWord(w) && (a == "" || IsSpace(a[|a| - 1]))
    ensures Fields(a + w + " ") == Fields(a) + [w]
  {
    if a == "" {
      assert a + w == w;
      FieldsOfWord(w, " ");
      FieldsOfSpace(' ', "");
      assert " " + "" == " ";
    } else {
      var b, c := a[..|a| - 1], a[|a| - 1];
      assert a == b + [c] && a + w == b + [c] + w;
      FieldsSnoc(b, c, w);
      FieldsBeforeSpace(b, c);
      FieldsBeforeSpace(a + w, ' ');
      assert a + w + " " == a + w + [' '];
    }
  }

  /** Text that is empty or ends in a space, ready for another token. */
  predicate Open(text: string) { text == "" || text[|text| - 1] == ' ' }

  method PushToken(text: string, token: string) returns (more: string)
    requires Open(text) && IsWord(token)
    ensures more != "" && Open(more) && Fields(more) == Fields(text) + [token]
  {
    FieldsPush(text, token);
    more := text + token + " ";
  }

  method WritePly(text: string, board: Position, m: Move) returns (more: string)
    requires Open(text) && Writable(board)
    ensures more != "" && Open(more)
    ensures Fields(more) == Fields(text) + Marker(board, text == "") + [SanText(board, m)]
  {
    more := text;
    MarkersAreWords(board, text == "");
    if board.turn == White {
      more := PushToken(more, Itoa(board.fullMove) + ".");
    } else if |text| == 0 {
      more := PushToken(more, Itoa(board.fullMove) + "...");
    }
    WritableApplies(board, m);
    var san := WriteSan(board, m);
    SanIsWord(board, m);
    more := PushToken(more, san);
  }

  ghost predicate Parsed(ucis: seq<string>, ms: seq<Move>) {
    |ms| <= |ucis| && forall j :: 0 <= j < |ms| ==> ParseMove(ucis[j]) == Some(ms[j])
  }

  lemma ParsedOnce(ucis: seq<string>, ms: seq<Move>, m: Move)
    requires Parsed(ucis, ms) && |ms| < |ucis| && ParseMove(ucis[|ms|]) == Some(m)
    ensures Parsed(ucis, ms + [m])
  {}

  /** The first moves are parsed and legal, lead to `board`, and are what `text` says. */
  ghost predicate Written(start: Position, ucis: seq<string>, ms: seq<Move>, board: Position, text: string) {
    && start.fullMove >= 0
    && Parsed(ucis, ms) && Playable(start, ms) && board == Replay(start, ms)
    && Fields(text) == Tokens(start, ms, true) && Open(text) && (text == "" <==> ms == [])
  }

  lemma {:induction false} TokensOnce(start: Position, ms: seq<Move>, m: Move, text: string, more: string)
    requires start.fullMove >= 0 && Replay(start, ms).fullMove >= 0
    requires Fields(text) == Tokens(start, ms, true) && (text == "" <==> ms == [])
    requires Fields(more) == Fields(text) + Marker(Replay(start, ms), text == "") + [SanText(Replay(start, ms), m)]
    ensures Fields(more) == Tokens(start, ms + [m], true)
  {
    TokensSnoc(start, ms, m, true);
  }

  lemma {:induction false} WrittenOnce(start: Position, ucis: seq<string>, ms: seq<Move>, board: Position, text: string,
                    m: Move, more: string)
    requires Written(start, ucis, ms, board, text) && |ms| < |ucis| && ParseMove(ucis[|ms|]) == Some(m)
    requires more != "" && Open(more) && Legal(board, m) && board.fullMove >= 0
    requires Fields(more) == Fields(text) + Marker(board, text == "") + [SanText(board, m)]
    ensures Written(start, ucis, ms + [m], Apply(board, m), more)
  {
    TokensOnce(start, ms, m, text, more);
    ParsedOnce(ucis, ms, m);
    PlayOneMore(start, ms, m);
  }

  /** An illegal next move means that the UCI strings denote no game. */
  lemma NoGame(start: Position, ucis: seq<string>, ms: seq<Move>, board: Position, text: string, m: Move)
    requires Written(start, ucis, ms, board, text) && |ms| < |ucis| && ParseMove(ucis[|ms|]) == Some(m)
    requires !Legal(board, m)
    ensures forall ns :: !IsGame(start, ucis, ns)
  {
    ParsedOnce(ucis, ms, m);
    PlayOneMore(start, ms, m);
    forall ns | IsGame(start, ucis, ns) ensures false {
      GamePrefix(start, ucis, ms + [m], ns);
    }
  }

  /** Replays the UCI strings, writing each move; nothing when they denote no legal game. */
  method WriteGame(start: Position, ucis: seq<string>) returns (out: Option<string>, ghost ms: seq<Move>)
    requires Writable(start)
    ensures out.Some? ==> IsGame(start, ucis, ms) && Fields(out.value) == Tokens(start, ms, true)
    ensures out.None? ==> forall ns :: !IsGame(start, ucis, ns)
  {
    var board := start;
    var text := "";
    ms := [];
    for i := 0 to |ucis|
      invariant |ms| == i && Written(start, ucis, ms, board, text)
    {
      var parsed := ParseMove(ucis[i]);
      if parsed.None? {
        return None, ms;
      }
      var m := parsed.value;
      PlayKeepsWritable(start, ms);
      var more := WritePly(text, board, m);
      var next := ApplyMove(board, m);
      if next.None? {
        NoGame(start, ucis, ms, board, text, m);
        return None, ms;
      }
      WrittenOnce(start, ucis, ms, board, text, m, more);
      board, text, ms := next.value, more, ms + [m];
    }
    return Some(text), ms;
  }

  /** The result as written: an asterisk when there is none. */
  function ResultText(result: string): string { if result == "" then "*" else result }

  /** What a text must read as to be the movetext of a game with this result. */
  ghost predicate Reads(text: string, start: Position, ms: seq<Move>, result: string)
    requires start.fullMove >= 0
  {
    Fields(text) == Tokens(start, ms, true) + Fields(ResultText(result))
  }

  /** Writes the game the UCI strings denote, or nothing when they denote no legal game. */
  method Movetext(start: Position, ucis: seq<string>, result: string) returns (out: Option<string>)
    requires Writable(start)
    ensures out.None? ==> forall ms :: !IsGame(start, ucis, ms)
    ensures out.Some? ==> exists ms :: IsGame(start, ucis, ms) && Reads(out.value, start, ms, result)
    ensures out.Some? ==> GoodLines(Split(out.value, '\n'), 80) || out.value == ""
    ensures out.Some? && result == "" ==> Fields(out.value) != [] && Fields(out.value)[|Fields(out.value)| - 1] == "*"
  {
    ghost var ms;
    out, ms := WriteGame(start, ucis);
    if out.None? {
      return;
    }
    var text := Trim(out.value);
    FieldsOfTrim(out.value);
    FieldsConcat(text, ' ', ResultText(result));
    assert text + [' '] + ResultText(result) == text + " " + ResultText(result);
    var wrapped := WrapMovetext(text + " " + ResultText(result), 80);
    out := Some(wrapped);
    assert Reads(wrapped, start, ms, result);
    FieldsOfOne("*");
  }

  /** One text is the movetext of at most one game from a position, when results are single words. */
  lemma {:induction false} MovetextDetermines(text: string, start: Position, ms: seq<Move>, ns: seq<Move>,
                                              r: string, r': string)
    requires Sound(start) && Playable(start, ms) && Playable(start, ns)
    requires IsWord(ResultText(r)) && IsWord(ResultText(r')) && Reads(text, start, ms, r) && Reads(text, start, ns, r')
    ensures ms == ns && ResultText(r) == ResultText(r')
  {
    FieldsOfOne(ResultText(r));
    FieldsOfOne(ResultText(r'));
    GameDetermined(start, ms, ns, true, ResultText(r), ResultText(r'));
  }
}
