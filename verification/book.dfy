/** The opening book: built from lines of play, consulted by weighted random draw. */
module Book {
  import opened Board
  import opened Rules
  import opened MoveGen
  import opened Invariant
  import opened Notation
  import opened Text
  import opened Fen
  import opened FenCodec
  import opened StreamIds

  /** A loaded book may carry any weight; a built one carries positive weights only. */
  datatype BookMove = BookMove(uci: string, weight: int)

  // ---- Drawing a move ----

  function Total(moves: seq<BookMove>): int {
    if moves == [] then 0 else Total(moves[..|moves| - 1]) + moves[|moves| - 1].weight
  }

  ghost predicate NonNegative(moves: seq<BookMove>) {
    forall i :: 0 <= i < |moves| ==> moves[i].weight >= 0
  }

  lemma {:induction false} TotalMonotone(moves: seq<BookMove>, i: nat)
    requires i <= |moves| && NonNegative(moves)
    ensures 0 <= Total(moves[..i]) <= Total(moves)
    decreases |moves|
  {
    if i < |moves| {
      var front := moves[..|moves| - 1];
      TotalMonotone(front, i);
      assert front[..i] == moves[..i];
    } else {
      assert moves[..i] == moves;
      if moves != [] {
        TotalMonotone(moves[..i - 1], i - 1);
        assert moves[..i - 1][..i - 1] == moves[..i - 1];
      }
    }
  }

  lemma TotalNext(moves: seq<BookMove>, i: nat)
    requires i < |moves|
    ensures Total(moves[..i + 1]) == Total(moves[..i]) + moves[i].weight
  {
    assert moves[..i + 1][..i] == moves[..i];
  }

  /** The total of the first `k` moves. */
  function Running(moves: seq<BookMove>, k: nat): int
    requires k <= |moves|
  {
    Total(moves[..k])
  }

  /** The first move at which the running total exceeds the draw. */
  ghost predicate Picks(moves: seq<BookMove>, i: nat, n: int) {
    i < |moves| && n < Running(moves, i + 1) && forall k :: 0 < k <= i ==> Running(moves, k) <= n
  }

  /** Each value picks at most one move. */
  lemma PicksOne(moves: seq<BookMove>, i: nat, j: nat, n: int)
    requires Picks(moves, i, n) && Picks(moves, j, n)
    ensures i == j
  {}

  /** With no negative weight, a move is picked by the values of its share of the range. */
  lemma PicksShare(moves: seq<BookMove>, i: nat, n: int)
    requires NonNegative(moves) && i < |moves| && 0 <= n
    ensures Picks(moves, i, n) <==> Running(moves, i) <= n < Running(moves, i) + moves[i].weight
  {
    TotalNext(moves, i);
    forall k | 0 < k <= i ensures Running(moves, k) <= Running(moves, i) {
      TotalMonotone(moves[..i], k);
      assert moves[..i][..k] == moves[..k];
    }
  }

  /** Then each move is picked by exactly as many draws as its weight. */
  lemma {:induction false} ShareSize(moves: seq<BookMove>, i: nat)
    requires i < |moves| && NonNegative(moves)
    ensures |set n | 0 <= n < Total(moves) && Picks(moves, i, n)| == moves[i].weight
  {
    TotalNext(moves, i);
    TotalMonotone(moves, i);
    TotalMonotone(moves, i + 1);
    var lo := Running(moves, i);
    RangeSize(lo, moves[i].weight);
    forall n | 0 <= n ensures Picks(moves, i, n) <==> lo <= n < lo + moves[i].weight { PicksShare(moves, i, n); }
    assert (set n | 0 <= n < Total(moves) && Picks(moves, i, n)) == Range(lo, moves[i].weight);
  }

  ghost function Range(lo: nat, w: nat): (r: set<int>)
    ensures forall n :: n in r <==> lo <= n < lo + w
  {
    if w == 0 then {} else Range(lo, w - 1) + {lo + w - 1}
  }

  lemma {:induction false} RangeSize(lo: nat, w: nat)
    ensures |Range(lo, w)| == w
  {
    if w > 0 {
      RangeSize(lo, w - 1);
    }
  }

  /** The selection loop returns the move the draw picks, whatever the weights; its fallback after
      the loop is never taken. With no positive total the first move is played. */
  method Choose(moves: seq<BookMove>, draw: int) returns (i: nat)
    requires moves != [] && (Total(moves) > 0 ==> 0 <= draw < Total(moves))
    ensures i < |moves| && if Total(moves) > 0 then Picks(moves, i, draw) else i == 0
  {
    var total := 0;
    for k := 0 to |moves|
      invariant total == Total(moves[..k])
    {
      TotalNext(moves, k);
      total := total + moves[k].weight;
    }
    assert moves[..|moves|] == moves;
    if total <= 0 {
      return 0;
    }
    var n := draw;
    i := |moves| - 1;
    for k := 0 to |moves|
      invariant n == draw - Running(moves, k) && forall j :: 0 < j <= k ==> Running(moves, j) <= draw
    {
      TotalNext(moves, k);
      if n < moves[k].weight {
        return k;
      }
      n := n - moves[k].weight;
    }
    assert false;
  }

  // ---- Building ----

  function KeyOf(p: Position): string
    requires WellFormed(p)
  {
    PositionKey(Print(p))
  }

  /** Every move of the line parses and is legal when it is played. */
  ghost predicate LineOk(p: Position, line: seq<string>)
    decreases line
  {
    line == [] ||
      (ParseMove(line[0]).Some? && Legal(p, ParseMove(line[0]).value) &&
        LineOk(Apply(p, ParseMove(line[0]).value), line[1..]))
  }

  /** The positions of a line have clocks that can be printed. */
  ghost predicate Roomy(p: Position, line: seq<string>) {
    Sound(p) && p.halfMove + |line| <= MAX_INT && p.fullMove + |line| <= MAX_INT
  }

  lemma RoomyNext(p: Position, line: seq<string>)
    requires Roomy(p, line)
    ensures WellFormed(p)
    ensures line != [] && ParseMove(line[0]).Some? && Legal(p, ParseMove(line[0]).value) ==>
      Roomy(Apply(p, ParseMove(line[0]).value), line[1..])
  {
    if line != [] && ParseMove(line[0]).Some? && Legal(p, ParseMove(line[0]).value) {
      LegalKeepsSound(p, ParseMove(line[0]).value);
    }
  }

  /** How often a line plays `uci` from a position with this key. */
  ghost function Plays(p: Position, line: seq<string>, key: string, uci: string): nat
    requires Roomy(p, line) && LineOk(p, line)
    decreases line
  {
    RoomyNext(p, line);
    if line == [] then 0
    else (if KeyOf(p) == key && line[0] == uci then 1 else 0)
         + Plays(Apply(p, ParseMove(line[0]).value), line[1..], key, uci)
  }

  /** A move counted for a key is legal in every position with that key. */
  lemma {:induction false} PlayedIsLegal(p: Position, line: seq<string>, key: string, uci: string, p': Position)
    requires Roomy(p, line) && LineOk(p, line) && Plays(p, line, key, uci) > 0
    requires WellFormed(p') && KeyOf(p') == key
    ensures ParseMove(uci).Some? && Legal(p', ParseMove(uci).value)
    decreases line
  {
    RoomyNext(p, line);
    var m := ParseMove(line[0]).value;
    if KeyOf(p) == key && line[0] == uci {
      KeysAgree(p);
      KeysAgree(p');
      KeyDeterminesPlay(p, p', m);
    } else {
      PlayedIsLegal(Apply(p, m), line[1..], key, uci, p');
    }
  }

  type Counts = map<string, map<string, int>>

  function CountOf(c: Counts, key: string, uci: string): int {
    if key in c && uci in c[key] then c[key][uci] else 0
  }

  /** Only moves that were played are stored, and only positions with such a move. */
  ghost predicate Positive(c: Counts) {
    forall k :: k in c ==> c[k] != map[] && forall u :: u in c[k] ==> c[k][u] > 0
  }

  function Bump(c: Counts, key: string, uci: string): Counts {
    var row := if key in c then c[key] else map[];
    c[key := row[uci := CountOf(c, key, uci) + 1]]
  }

  lemma BumpCounts(c: Counts, key: string, uci: string, k: string, u: string)
    ensures CountOf(Bump(c, key, uci), k, u) == CountOf(c, k, u) + if k == key && u == uci then 1 else 0
  {}

  lemma BumpPositive(c: Counts, key: string, uci: string)
    requires Positive(c)
    ensures Positive(Bump(c, key, uci))
  {
    var c' := Bump(c, key, uci);
    assert uci in c'[key];
    forall k | k in c' ensures c'[k] != map[] && forall u :: u in c'[k] ==> c'[k][u] > 0 {
      assert k != key ==> c'[k] == c[k];
    }
  }

  /** Walks one line, counting each move before it is validated; an illegal line is an error. */
  method AddLine(c: Counts, start: Position, line: seq<string>) returns (out: Option<Counts>)
    requires Roomy(start, line) && Positive(c)
    ensures out.Some? <==> LineOk(start, line)
    ensures out.Some? ==> Positive(out.value)
    ensures out.Some? ==> forall k, u :: CountOf(out.value, k, u) == CountOf(c, k, u) + Plays(start, line, k, u)
    decreases line
  {
    if line == [] {
      return Some(c);
    }
    RoomyNext(start, line);
    var fen := WriteFen(start);
    var key := PositionKey(fen);
    var counted := Bump(c, key, line[0]);
    BumpPositive(c, key, line[0]);
    var parsed := ParseMove(line[0]);
    if parsed.None? {
      return None;
    }
    var next := ApplyMove(start, parsed.value);
    if next.None? {
      return None;
    }
    out := AddLine(counted, next.value, line[1..]);
    if out.Some? {
      forall k, u ensures CountOf(out.value, k, u) == CountOf(c, k, u) + Plays(start, line, k, u) {
        BumpCounts(c, key, line[0], k, u);
      }
    }
  }

  /** The lines are all legal from the starting position and short enough to number. */
  ghost predicate LinesRoomy(lines: seq<seq<string>>) {
    forall i :: 0 <= i < |lines| ==> Roomy(StartPosition(), lines[i])
  }

  ghost predicate LinesOk(lines: seq<seq<string>>) {
    forall i :: 0 <= i < |lines| ==> LineOk(StartPosition(), lines[i])
  }

  ghost function AllPlays(lines: seq<seq<string>>, key: string, uci: string): nat
    requires LinesRoomy(lines) && LinesOk(lines)
  {
    if lines == [] then 0
    else AllPlays(lines[..|lines| - 1], key, uci) + Plays(StartPosition(), lines[|lines| - 1], key, uci)
  }

  lemma {:induction false} AllPlaysNext(lines: seq<seq<string>>, line: seq<string>, key: string, uci: string)
    requires LinesRoomy(lines) && LinesOk(lines) && Roomy(StartPosition(), line) && LineOk(StartPosition(), line)
    ensures LinesRoomy(lines + [line]) && LinesOk(lines + [line])
    ensures AllPlays(lines + [line], key, uci) == AllPlays(lines, key, uci) + Plays(StartPosition(), line, key, uci)
  {
    assert (lines + [line])[..|lines|] == lines;
  }

  /** The counts are those of the lines. */
  ghost predicate CountsOf(c: Counts, lines: seq<seq<string>>)
    requires LinesRoomy(lines) && LinesOk(lines)
  {
    Positive(c) && forall k, u :: CountOf(c, k, u) == AllPlays(lines, k, u)
  }

  lemma {:induction false} CountedNext(c: Counts, lines: seq<seq<string>>, line: seq<string>, c': Counts)
    requires LinesRoomy(lines) && LinesOk(lines) && CountsOf(c, lines)
    requires Roomy(StartPosition(), line) && LineOk(StartPosition(), line) && Positive(c')
    requires forall k, u :: CountOf(c', k, u) == CountOf(c, k, u) + Plays(StartPosition(), line, k, u)
    ensures LinesRoomy(lines + [line]) && LinesOk(lines + [line]) && CountsOf(c', lines + [line])
  {
    forall k, u
      ensures LinesRoomy(lines + [line]) && LinesOk(lines + [line])
      ensures CountOf(c', k, u) == AllPlays(lines + [line], k, u)
    {
      AllPlaysNext(lines, line, k, u);
    }
  }

  /** Counts the moves of all lines: the count of a move at a key is the number of line positions
      with that key that played it, and one illegal move makes the whole build fail. */
  method CountLines(lines: seq<seq<string>>) returns (out: Option<Counts>)
    requires LinesRoomy(lines)
    ensures out.Some? <==> LinesOk(lines)
    ensures out.Some? ==> CountsOf(out.value, lines)
  {
    var c: Counts := map[];
    for i := 0 to |lines|
      invariant LinesRoomy(lines[..i]) && LinesOk(lines[..i]) && CountsOf(c, lines[..i])
    {
      var added := AddLine(c, StartPosition(), lines[i]);
      if added.None? {
        return None;
      }
      CountedNext(c, lines[..i], lines[i], added.value);
      assert lines[..i + 1] == lines[..i] + [lines[i]];
      c := added.value;
    }
    assert lines[..|lines|] == lines;
    return Some(c);
  }

  // ---- The sorted list of a position ----

  /** Heavier first, then by the move's text. */
  predicate Ahead(a: BookMove, b: BookMove) {
    a.weight > b.weight || (a.weight == b.weight && TextLess(a.uci, b.uci))
  }

  ghost predicate Sorted(moves: seq<BookMove>) {
    forall i, j :: 0 <= i < j < |moves| ==> Ahead(moves[i], moves[j])
  }

  lemma {:induction false} TextLessTrans(a: string, b: string, c: string)
    requires TextLess(a, b) && TextLess(b, c)
    ensures TextLess(a, c)
  {
    if a != "" && a[0] == b[0] == c[0] {
      TextLessTrans(a[1..], b[1..], c[1..]);
    }
  }

  lemma AheadTrans(a: BookMove, b: BookMove, c: BookMove)
    requires Ahead(a, b) && Ahead(b, c)
    ensures Ahead(a, c)
  {
    if a.weight == b.weight == c.weight {
      TextLessTrans(a.uci, b.uci, c.uci);
    }
  }

  lemma AheadTotal(a: BookMove, b: BookMove)
    ensures Ahead(a, b) ==> !Ahead(b, a)
    ensures !Ahead(a, b) && !Ahead(b, a) ==> a == b
  {
    TextLessAsym(a.uci, b.uci);
  }

  function Inserted(moves: seq<BookMove>, b: BookMove): seq<BookMove> {
    if moves == [] || Ahead(b, moves[0]) then [b] + moves else [moves[0]] + Inserted(moves[1..], b)
  }

  lemma {:induction false} InsertedHas(moves: seq<BookMove>, b: BookMove, x: BookMove)
    ensures x in Inserted(moves, b) <==> x in moves || x == b
  {
    if moves != [] && !Ahead(b, moves[0]) {
      InsertedHas(moves[1..], b, x);
      assert moves == [moves[0]] + moves[1..];
    }
  }

  /** Everything in the list comes after `a`. */
  ghost predicate AllBehind(a: BookMove, moves: seq<BookMove>) {
    forall i :: 0 <= i < |moves| ==> Ahead(a, moves[i])
  }

  lemma SortedCons(a: BookMove, moves: seq<BookMove>)
    requires Sorted(moves) && AllBehind(a, moves)
    ensures Sorted([a] + moves)
  {}

  lemma {:induction false} InsertedSorted(moves: seq<BookMove>, b: BookMove)
    requires Sorted(moves) && b !in moves
    ensures Sorted(Inserted(moves, b))
  {
    if moves == [] {
    } else if Ahead(b, moves[0]) {
      forall i | 0 <= i < |moves| ensures Ahead(b, moves[i]) {
        if i > 0 {
          AheadTrans(b, moves[0], moves[i]);
        }
      }
      SortedCons(b, moves);
    } else {
      var rest := Inserted(moves[1..], b);
      InsertedSorted(moves[1..], b);
      AheadTotal(moves[0], b);
      forall i | 0 <= i < |rest| ensures Ahead(moves[0], rest[i]) {
        InsertedHas(moves[1..], b, rest[i]);
      }
      SortedCons(moves[0], rest);
    }
  }

  /** The list holds the position's moves with their weights, each once, in order. */
  ghost predicate Lists(moves: seq<BookMove>, row: map<string, int>) {
    Sorted(moves) && forall b :: b in moves <==> b.uci in row && row[b.uci] == b.weight
  }

  /** Two lists of one position are equal, so the order in which the map is walked does not matter. */
  lemma {:induction false} ListUnique(a: seq<BookMove>, b: seq<BookMove>)
    requires Sorted(a) && Sorted(b) && forall x :: x in a <==> x in b
    ensures a == b
  {
    SameEmptiness(a, b);
    if a != [] {
      assert a[0] in b && b != [] && b[0] in a;
      HeadsEqual(a, b);
      forall x ensures x in a[1..] <==> x in b[1..] {
        TailHas(a, x);
        TailHas(b, x);
      }
      ListUnique(a[1..], b[1..]);
      assert a == [a[0]] + a[1..] && b == [b[0]] + b[1..];
    }
  }

  lemma SameEmptiness<T>(a: seq<T>, b: seq<T>)
    requires forall x :: x in a <==> x in b
    ensures a == [] <==> b == []
  {
    assert a != [] ==> a[0] in a;
    assert b != [] ==> b[0] in b;
  }

  lemma HeadsEqual(a: seq<BookMove>, b: seq<BookMove>)
    requires Sorted(a) && Sorted(b) && a != [] && b != [] && a[0] in b && b[0] in a
    ensures a[0] == b[0]
  {
    AheadTotal(a[0], b[0]);
  }

  lemma TailHas(a: seq<BookMove>, x: BookMove)
    requires Sorted(a) && a != []
    ensures x in a[1..] <==> x in a && x != a[0]
  {
    assert a == [a[0]] + a[1..];
    AheadTotal(a[0], a[0]);
  }

  method ListMoves(row: map<string, int>) returns (moves: seq<BookMove>)
    ensures Lists(moves, row)
    ensures forall i, j :: 0 <= i < j < |moves| ==>
      && moves[i].weight >= moves[j].weight
      && (moves[i].weight == moves[j].weight ==> TextLess(moves[i].uci, moves[j].uci))
  {
    moves := [];
    var todo := row.Keys;
    while todo != {}
      invariant todo <= row.Keys && Sorted(moves)
      invariant forall b :: b in moves <==> b.uci in row && b.uci !in todo && row[b.uci] == b.weight
      decreases todo
    {
      var u :| u in todo;
      var b := BookMove(u, row[u]);
      InsertedSorted(moves, b);
      forall x ensures x in Inserted(moves, b) <==> x in moves || x == b { InsertedHas(moves, b, x); }
      moves := Inserted(moves, b);
      todo := todo - {u};
    }
  }

  // ---- The book ----

  /** For each key that some line passes through with a move to play, the sorted list of the moves
      played there, weighted by how often. */
  ghost predicate BookOf(lines: seq<seq<string>>, book: map<string, seq<BookMove>>)
    requires LinesRoomy(lines) && LinesOk(lines)
  {
    && (forall k :: k in book ==> book[k] != [] && Sorted(book[k]))
    && (forall k, b :: k in book ==> (b in book[k] <==> b.weight == AllPlays(lines, k, b.uci) > 0))
    && (forall k, u :: AllPlays(lines, k, u) > 0 ==> k in book)
  }

  lemma {:induction false} ListedPlays(lines: seq<seq<string>>, c: Counts, k: string, moves: seq<BookMove>, b: BookMove)
    requires LinesRoomy(lines) && LinesOk(lines) && Positive(c) && forall u :: CountOf(c, k, u) == AllPlays(lines, k, u)
    requires k in c && Lists(moves, c[k])
    ensures moves != [] && (b in moves <==> b.weight == AllPlays(lines, k, b.uci) > 0)
  {
    assert CountOf(c, k, b.uci) == AllPlays(lines, k, b.uci);
    var u :| u in c[k];
    assert BookMove(u, c[k][u]) in moves;
  }

  method Build(lines: seq<seq<string>>) returns (out: Option<map<string, seq<BookMove>>>)
    requires LinesRoomy(lines)
    ensures out.Some? <==> LinesOk(lines)
    ensures out.Some? ==> BookOf(lines, out.value)
  {
    var counted := CountLines(lines);
    if counted.None? {
      return None;
    }
    var c := counted.value;
    var book: map<string, seq<BookMove>> := map[];
    var todo := c.Keys;
    while todo != {}
      invariant todo <= c.Keys && book.Keys == c.Keys - todo
      invariant forall k :: k in book ==> Lists(book[k], c[k])
      decreases todo
    {
      var key :| key in todo;
      var moves := ListMoves(c[key]);
      book := book[key := moves];
      todo := todo - {key};
    }
    forall k, b | k in book ensures book[k] != [] && (b in book[k] <==> b.weight == AllPlays(lines, k, b.uci) > 0) {
      ListedPlays(lines, c, k, book[k], b);
    }
    forall k | k in book ensures book[k] != [] { ListedPlays(lines, c, k, book[k], BookMove("", 0)); }
    forall k, u | AllPlays(lines, k, u) > 0 ensures k in book { assert CountOf(c, k, u) > 0; }
    return Some(book);
  }

  /** A weighted random move for a position, or nothing when the position is not in the book. */
  method Consult(book: map<string, seq<BookMove>>, fen: string, draw: int) returns (uci: Option<string>)
    requires PositionKey(fen) in book && Total(book[PositionKey(fen)]) > 0 ==> 0 <= draw < Total(book[PositionKey(fen)])
    ensures uci.Some? <==> PositionKey(fen) in book && book[PositionKey(fen)] != []
    ensures uci.Some? ==>
        exists i: nat :: Drawn(book[PositionKey(fen)], i, draw) && book[PositionKey(fen)][i].uci == uci.value
  {
    var key := PositionKey(fen);
    if key !in book || book[key] == [] {
      return None;
    }
    var i := Choose(book[key], draw);
    assert Drawn(book[key], i, draw);
    return Some(book[key][i].uci);
  }

  ghost predicate Drawn(moves: seq<BookMove>, i: nat, draw: int) {
    i < |moves| && if Total(moves) > 0 then Picks(moves, i, draw) else i == 0
  }

  /** Every move of a successfully built book is legal in every position that shares its key. */
  lemma {:induction false} BookMovesAreLegal(lines: seq<seq<string>>, key: string, uci: string, p: Position)
    requires LinesRoomy(lines) && LinesOk(lines) && AllPlays(lines, key, uci) > 0
    requires WellFormed(p) && KeyOf(p) == key
    ensures ParseMove(uci).Some? && Legal(p, ParseMove(uci).value)
  {
    var n := |lines| - 1;
    if Plays(StartPosition(), lines[n], key, uci) > 0 {
      PlayedIsLegal(StartPosition(), lines[n], key, uci, p);
    } else {
      BookMovesAreLegal(lines[..n], key, uci, p);
    }
  }

  lemma {:induction false} PositiveTotal(moves: seq<BookMove>)
    requires moves != [] && forall i :: 0 <= i < |moves| ==> moves[i].weight > 0
    ensures Total(moves) > 0 && NonNegative(moves)
  {
    TotalMonotone(moves, |moves| - 1);
  }

  /** Whatever is drawn from a built book for a printed position is legal there, and it was drawn by
      weight: the entry's total is positive and each of its moves has as many draws as line positions
      that played it. */
  lemma {:induction false} DrawnIsLegal(lines: seq<seq<string>>, book: map<string, seq<BookMove>>, p: Position,
                                        i: nat, draw: int)
    requires LinesRoomy(lines) && LinesOk(lines) && BookOf(lines, book) && WellFormed(p)
    requires KeyOf(p) in book && Drawn(book[KeyOf(p)], i, draw)
    ensures var moves := book[KeyOf(p)];
      && Total(moves) > 0 && Picks(moves, i, draw)
      && |set n | 0 <= n < Total(moves) && Picks(moves, i, n)| == AllPlays(lines, KeyOf(p), moves[i].uci)
      && ParseMove(moves[i].uci).Some? && Legal(p, ParseMove(moves[i].uci).value)
  {
    var moves := book[KeyOf(p)];
    forall j | 0 <= j < |moves| ensures moves[j].weight > 0 { assert moves[j] in moves; }
    PositiveTotal(moves);
    ShareSize(moves, i);
    assert moves[i] in moves;
    BookMovesAreLegal(lines, KeyOf(p), moves[i].uci, p);
  }
}
