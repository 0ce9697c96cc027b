/** Commits, the transactional outbox, and relay loops that publish it at least once. */
module Relays {
  import opened StreamIds
  import opened EventLog
  import opened Hubs

  const BATCH: nat := 200

  /** A relay loop: between cycles, publishing a fetched batch, or about to mark what it published. */
  datatype Relay = Idle | Draining(rows: seq<nat>, done: nat) | Marking(ids: seq<nat>)

  /** The database and the streams: committed moves per game, outbox rows by id, the rows marked
      published, the stream of each game, and the state of every relay loop. */
  datatype Store = Store(
    committed: map<string, seq<MoveEvent>>,
    outbox: map<nat, MoveEvent>,
    published: set<nat>,
    streams: map<string, seq<Entry>>,
    relays: map<nat, Relay>)

  function Committed(s: Store, g: string): seq<MoveEvent> {
    if g in s.committed then s.committed[g] else []
  }

  function Stream(s: Store, g: string): seq<Entry> {
    if g in s.streams then s.streams[g] else []
  }

  function RelayOf(s: Store, r: nat): Relay {
    if r in s.relays then s.relays[r] else Idle
  }

  // ---- Dropping repeated plies ----

  /** What a spectator is shown of a move, the stream id aside. */
  datatype Shown = Shown(ply: int, uci: string, fen: string, status: string, endReason: string, ended: bool)

  function ShownDelta(d: Delta): Shown { Shown(d.ply, d.uci, d.fen, d.status, d.endReason, d.ended) }

  function ShownEvent(e: MoveEvent): Shown { Shown(e.ply, e.uci, e.fenAfter, e.status, e.endReason, e.ended) }

  function ShownAll(es: seq<MoveEvent>): seq<Shown> {
    seq(|es|, i requires 0 <= i < |es| => ShownEvent(es[i]))
  }

  ghost predicate HasPly(ms: seq<Shown>, ply: int) {
    exists i :: 0 <= i < |ms| && ms[i].ply == ply
  }

  /** The moves in the order of their first arrival. */
  ghost function Dedup(ds: seq<Delta>): seq<Shown> {
    if ds == [] then []
    else Add(Dedup(ds[..|ds| - 1]), ds[|ds| - 1])
  }

  ghost function Add(ms: seq<Shown>, d: Delta): seq<Shown> {
    if HasPly(ms, d.ply) then ms else ms + [ShownDelta(d)]
  }

  lemma {:induction false} DedupSnoc(ds: seq<Delta>, d: Delta)
    ensures Dedup(ds + [d]) == Add(Dedup(ds), d)
  {}

  lemma {:induction false} DedupGrows(ds: seq<Delta>, k: nat)
    requires k <= |ds|
    ensures Dedup(ds[..k]) <= Dedup(ds)
  {
    if k < |ds| {
      var front := ds[..|ds| - 1];
      DedupGrows(front, k);
      assert front[..k] == ds[..k];
    } else {
      assert ds[..k] == ds;
    }
  }

  /** Every ply received is among the moves kept. */
  lemma {:induction false} DedupHas(ds: seq<Delta>, i: nat)
    requires i < |ds|
    ensures HasPly(Dedup(ds), ds[i].ply)
  {
    var n := |ds| - 1;
    var front := Dedup(ds[..n]);
    if i < n {
      DedupHas(ds[..n], i);
      var j :| 0 <= j < |front| && front[j].ply == ds[i].ply;
      assert Dedup(ds)[j].ply == ds[i].ply;
    } else if !HasPly(front, ds[n].ply) {
      assert Dedup(ds)[|front|].ply == ds[n].ply;
    }
  }

  // ---- Steps ----

  datatype Step =
    /** A move and its outbox row are committed in one transaction. */
    | Commit(event: MoveEvent, row: nat)
    /** A relay reads the oldest unpublished rows. */
    | Fetch(relay: nat, rows: seq<nat>)
    /** It appends the next row to its game's stream: `took` says whether the append took effect,
        `ok` whether it was reported as a success. */
    | Append(relay: nat, id: StreamId, took: bool, ok: bool)
    /** It reaches the end of the batch. */
    | FinishBatch(relay: nat)
    /** It marks the published rows; the update may be lost. */
    | Mark(relay: nat, took: bool)
    /** It crashes, at any point. */
    | Crash(relay: nat)

  /** The rows a fetch returns: unpublished, in id order, and no unpublished row is passed over. */
  ghost predicate Fetched(s: Store, rows: seq<nat>) {
    && |rows| <= BATCH
    && (forall i :: 0 <= i < |rows| ==> rows[i] in s.outbox && rows[i] !in s.published)
    && (forall i, j :: 0 <= i < j < |rows| ==> rows[i] < rows[j])
    && (forall id :: id in s.outbox && id !in s.published && id !in rows ==>
          |rows| == BATCH && forall i :: 0 <= i < |rows| ==> rows[i] < id)
  }

  ghost function Unpublished(s: Store): set<nat> { set id | id in s.outbox && id !in s.published }

  ghost function RowSet(rows: seq<nat>): set<nat> { set id | id in rows }

  lemma {:induction false} RowsCount(rows: seq<nat>)
    requires forall i, j :: 0 <= i < j < |rows| ==> rows[i] < rows[j]
    ensures |RowSet(rows)| == |rows|
  {
    if rows == [] {
      assert RowSet(rows) == {};
    } else {
      var n := |rows| - 1;
      var front := rows[..n];
      RowsCount(front);
      assert rows == front + [rows[n]];
      assert RowSet(rows) == RowSet(front) + {rows[n]};
      assert rows[n] !in front;
    }
  }

  lemma SubsetSize(a: set<nat>, b: set<nat>)
    requires a <= b
    ensures |a| <= |b| && (|a| == |b| ==> a == b)
  {
    assert b == a + (b - a);
    assert |b| == |a| + |b - a|;
  }

  /** A fetch returns all unpublished rows, or the two hundred oldest. */
  lemma {:induction false} FetchSize(s: Store, rows: seq<nat>)
    requires Fetched(s, rows)
    ensures |rows| == if |Unpublished(s)| <= 200 then |Unpublished(s)| else 200
    ensures |Unpublished(s)| <= 200 ==> RowSet(rows) == Unpublished(s)
    ensures forall id, i :: id in Unpublished(s) && id !in rows && 0 <= i < |rows| ==> rows[i] < id
  {
    RowsCount(rows);
    assert RowSet(rows) <= Unpublished(s);
    SubsetSize(RowSet(rows), Unpublished(s));
    if |rows| < 200 {
      forall id | id in Unpublished(s) ensures id in RowSet(rows) {}
      assert RowSet(rows) == Unpublished(s);
    }
  }

  function SetRelay(s: Store, r: nat, relay: Relay): Store { s.(relays := s.relays[r := relay]) }

  function PutOnStream(s: Store, id: StreamId, e: MoveEvent): Store {
    s.(streams := s.streams[e.game := Stream(s, e.game) + [Entry(id, e)]])
  }

  /** The id the stream gives an entry: larger than any it holds, and never zero. */
  ghost predicate FreshId(entries: seq<Entry>, id: StreamId) {
    IdLess(LastOf(entries), id)
  }

  /** The relay's next row, when it has one. */
  ghost predicate HasNext(s: Store, r: nat) {
    var relay := RelayOf(s, r);
    relay.Draining? && relay.done < |relay.rows| && relay.rows[relay.done] in s.outbox
  }

  ghost function NextRow(s: Store, r: nat): nat
    requires HasNext(s, r)
  {
    RelayOf(s, r).rows[RelayOf(s, r).done]
  }

  ghost predicate Enabled(s: Store, step: Step) {
    match step
    case Commit(e, row) =>
      && e.ply == |Committed(s, e.game)| + 1 && row !in s.outbox
      && forall id :: id in s.outbox && s.outbox[id].game == e.game ==> id < row
    case Fetch(r, rows) => RelayOf(s, r) == Idle && Fetched(s, rows)
    case Append(r, id, took, ok) =>
      HasNext(s, r) && (ok ==> took) && FreshId(Stream(s, s.outbox[NextRow(s, r)].game), id)
    case FinishBatch(r) => RelayOf(s, r).Draining? && RelayOf(s, r).done == |RelayOf(s, r).rows|
    case Mark(r, took) => RelayOf(s, r).Marking?
    case Crash(r) => true
  }

  ghost function Do(s: Store, step: Step): Store
    requires Enabled(s, step)
  {
    match step
    case Commit(e, row) =>
      s.(committed := s.committed[e.game := Committed(s, e.game) + [e]], outbox := s.outbox[row := e])
    case Fetch(r, rows) => SetRelay(s, r, Draining(rows, 0))
    case Append(r, id, took, ok) =>
      var Draining(rows, done) := RelayOf(s, r);
      var after := if took then PutOnStream(s, id, s.outbox[NextRow(s, r)]) else s;
      SetRelay(after, r, if ok then Draining(rows, done + 1) else Marking(rows[..done]))
    case FinishBatch(r) => SetRelay(s, r, Marking(RelayOf(s, r).rows))
    case Mark(r, took) =>
      SetRelay(if took then s.(published := s.published + set id | id in RelayOf(s, r).ids) else s, r, Idle)
    case Crash(r) => SetRelay(s, r, Idle)
  }

  // ---- The invariant ----

  /** How many moves of a game have reached its stream. */
  ghost function Reached(s: Store, g: string): nat { |Dedup(Deltas(Stream(s, g)))| }

  ghost predicate RowOnStream(s: Store, id: nat) {
    id in s.outbox && s.outbox[id].ply <= Reached(s, s.outbox[id].game)
  }

  ghost predicate RowFor(s: Store, g: string, i: int, id: nat) {
    0 <= i < |Committed(s, g)| && id in s.outbox && s.outbox[id] == Committed(s, g)[i]
  }

  ghost predicate HasRow(s: Store, g: string, i: int) { exists id :: RowFor(s, g, i, id) }

  ghost predicate Numbered(s: Store, g: string) {
    forall i :: 0 <= i < |Committed(s, g)| ==>
      Committed(s, g)[i].game == g && Committed(s, g)[i].ply == i + 1 && HasRow(s, g, i)
  }

  /** A game's plies are numbered from 1, each has its outbox row, the first occurrences on the
      stream are the committed moves in order, without gaps, and the stream's ids increase. */
  ghost predicate GameOk(s: Store, g: string) {
    && Numbered(s, g)
    && Dedup(Deltas(Stream(s, g))) <= ShownAll(Committed(s, g))
    && (forall i :: 0 <= i < |Stream(s, g)| ==> Stream(s, g)[i].event.game == g)
    && Increasing(Stream(s, g))
  }

  ghost predicate RowOk(s: Store, id: nat) {
    id in s.outbox ==>
      var e := s.outbox[id];
      1 <= e.ply <= |Committed(s, e.game)| && Committed(s, e.game)[e.ply - 1] == e
  }

  /** Within a game, outbox ids are in ply order. */
  ghost predicate RowsOrdered(s: Store, a: nat, b: nat) {
    a in s.outbox && b in s.outbox && s.outbox[a].game == s.outbox[b].game && a < b ==>
      s.outbox[a].ply < s.outbox[b].ply
  }

  ghost predicate PublishedOk(s: Store, id: nat) {
    id in s.published ==> RowOnStream(s, id)
  }

  /** An earlier row of the same game than the k-th of a batch is published or earlier in the batch. */
  ghost predicate Preceded(s: Store, rows: seq<nat>, k: nat, id: nat)
    requires k < |rows|
  {
    rows[k] in s.outbox && id in s.outbox && s.outbox[id].game == s.outbox[rows[k]].game && id < rows[k] ==>
      id in s.published || id in rows[..k]
  }

  ghost predicate RelayOk(s: Store, relay: Relay) {
    match relay
    case Idle => true
    case Draining(rows, done) =>
      && done <= |rows|
      && (forall k :: 0 <= k < |rows| ==> rows[k] in s.outbox)
      && (forall k :: 0 <= k < done ==> RowOnStream(s, rows[k]))
      && (forall k, id :: 0 <= k < |rows| ==> Preceded(s, rows, k, id))
    case Marking(ids) =>
      && (forall k :: 0 <= k < |ids| ==> RowOnStream(s, ids[k]))
      && (forall k, id :: 0 <= k < |ids| ==> Preceded(s, ids, k, id))
  }

  /** Within a game, what is published has everything before it published. */
  ghost predicate PublishedClosed(s: Store, a: nat, b: nat) {
    b in s.published && b in s.outbox && a in s.outbox && s.outbox[a].game == s.outbox[b].game && a < b ==>
      a in s.published
  }

  ghost predicate Inv(s: Store) {
    && (forall g :: GameOk(s, g)) && (forall id :: RowOk(s, id)) && (forall a, b :: RowsOrdered(s, a, b))
    && (forall id :: PublishedOk(s, id)) && (forall a, b :: PublishedClosed(s, a, b))
    && (forall r :: RelayOk(s, RelayOf(s, r)))
  }

  // ---- What every step keeps ----

  /** Committed moves, outbox rows and streams only ever grow. */
  ghost predicate Grows(s: Store, s': Store) {
    && (forall g :: Committed(s, g) <= Committed(s', g)) && (forall g :: Stream(s, g) <= Stream(s', g))
    && (forall id :: id in s.outbox ==> id in s'.outbox && s'.outbox[id] == s.outbox[id])
    && s.published <= s'.published
  }

  lemma StepGrows(s: Store, step: Step)
    requires Enabled(s, step)
    ensures Grows(s, Do(s, step))
  {}

  lemma ReachedGrows(s: Store, s': Store, g: string)
    requires Stream(s, g) <= Stream(s', g)
    ensures Reached(s, g) <= Reached(s', g)
  {
    var n := |Stream(s, g)|;
    assert Deltas(Stream(s', g))[..n] == Deltas(Stream(s, g));
    DedupGrows(Deltas(Stream(s', g)), n);
  }

  lemma OnStreamGrows(s: Store, s': Store, id: nat)
    requires Grows(s, s') && RowOnStream(s, id)
    ensures RowOnStream(s', id)
  {
    ReachedGrows(s, s', s.outbox[id].game);
  }

  /** When a relay is about to append a row, every earlier row of its game is on the stream. */
  lemma EarlierOnStream(s: Store, r: nat, id: nat)
    requires Inv(s) && HasNext(s, r) && id in s.outbox && s.outbox[id].game == s.outbox[NextRow(s, r)].game
    requires s.outbox[id].ply < s.outbox[NextRow(s, r)].ply
    ensures RowOnStream(s, id)
  {
    var Draining(rows, done) := RelayOf(s, r);
    assert RelayOk(s, Draining(rows, done));
    assert RowsOrdered(s, rows[done], id);
    assert Preceded(s, rows, done, id) && PublishedOk(s, id);
    if id !in s.published {
      var k :| 0 <= k < done && rows[k] == id;
      assert RowOnStream(s, rows[k]);
    }
  }

  /** So the row to be appended is at most one ply ahead of the stream. */
  lemma NextIsDue(s: Store, r: nat)
    requires Inv(s) && HasNext(s, r)
    ensures var e := s.outbox[NextRow(s, r)]; 1 <= e.ply <= Reached(s, e.game) + 1
  {
    var e := s.outbox[NextRow(s, r)];
    var n := Reached(s, e.game);
    assert RowOk(s, NextRow(s, r)) && GameOk(s, e.game);
    if e.ply > n + 1 {
      assert Committed(s, e.game)[n].ply == n + 1;
      var id :| RowFor(s, e.game, n, id);
      EarlierOnStream(s, r, id);
    }
  }

  /** Adding a move that is next, or one already there, keeps a prefix of the numbered moves. */
  lemma AddDue(ms: seq<Shown>, all: seq<Shown>, d: Delta)
    requires ms <= all && forall i :: 0 <= i < |all| ==> all[i].ply == i + 1
    requires 1 <= d.ply <= |ms| + 1 && d.ply <= |all| && ShownDelta(d) == all[d.ply - 1]
    ensures Add(ms, d) <= all && d.ply <= |Add(ms, d)|
  {}

  /** Appending a due row keeps the stream's first occurrences a prefix of the committed moves. */
  lemma AppendReaches(s: Store, id: StreamId, e: MoveEvent)
    requires GameOk(s, e.game) && 1 <= e.ply <= Reached(s, e.game) + 1
    requires e.ply <= |Committed(s, e.game)| && Committed(s, e.game)[e.ply - 1] == e
    ensures Dedup(Deltas(Stream(PutOnStream(s, id, e), e.game))) <= ShownAll(Committed(s, e.game))
    ensures e.ply <= Reached(PutOnStream(s, id, e), e.game)
  {
    var g, x := e.game, Entry(id, e);
    var ms, all := Dedup(Deltas(Stream(s, g))), ShownAll(Committed(s, g));
    DeltasSnoc(Stream(s, g), x);
    DedupSnoc(Deltas(Stream(s, g)), DeltaFrom(x));
    forall i | 0 <= i < |all| ensures all[i].ply == i + 1 {
      assert Committed(s, g)[i].ply == i + 1;
    }
    AddDue(ms, all, DeltaFrom(x));
  }

  lemma AppendGame(s: Store, id: StreamId, e: MoveEvent)
    requires GameOk(s, e.game) && 1 <= e.ply <= Reached(s, e.game) + 1
    requires e.ply <= |Committed(s, e.game)| && Committed(s, e.game)[e.ply - 1] == e && FreshId(Stream(s, e.game), id)
    ensures GameOk(PutOnStream(s, id, e), e.game)
  {
    var s', g := PutOnStream(s, id, e), e.game;
    IncreasingNext(Stream(s, g), Entry(id, e));
    AppendReaches(s, id, e);
    RowsFrame(s, s', g);
    assert Committed(s', g) == Committed(s, g);
    forall i | 0 <= i < |Stream(s', g)| ensures Stream(s', g)[i].event.game == g {
      assert i < |Stream(s, g)| ==> Stream(s', g)[i] == Stream(s, g)[i];
    }
  }

  lemma GameKept(s: Store, step: Step, g: string)
    requires Inv(s) && Enabled(s, step)
    ensures GameOk(Do(s, step), g)
  {
    var s' := Do(s, step);
    assert GameOk(s, g);
    if step.Commit? && step.event.game == g {
      CommitGame(s, step.event, step.row);
    } else if step.Append? && step.took && s.outbox[NextRow(s, step.relay)].game == g {
      var e := s.outbox[NextRow(s, step.relay)];
      assert RowOk(s, NextRow(s, step.relay));
      NextIsDue(s, step.relay);
      AppendGame(s, step.id, e);
      GameFrame(PutOnStream(s, step.id, e), s', g);
    } else {
      GameFrame(s, s', g);
    }
  }

  /** A game's moves keep their numbers and rows. */
  lemma RowsFrame(s: Store, s': Store, g: string)
    requires GameOk(s, g) && Committed(s', g) == Committed(s, g)
    requires forall id :: id in s.outbox ==> id in s'.outbox && s'.outbox[id] == s.outbox[id]
    ensures Numbered(s', g)
  {
    forall i | 0 <= i < |Committed(s', g)|
      ensures Committed(s', g)[i].game == g && Committed(s', g)[i].ply == i + 1 && HasRow(s', g, i)
    {
      assert Committed(s, g)[i].ply == i + 1;
      var row :| RowFor(s, g, i, row);
      assert RowFor(s', g, i, row);
    }
  }

  lemma GameFrame(s: Store, s': Store, g: string)
    requires GameOk(s, g) && Committed(s', g) == Committed(s, g) && Stream(s', g) == Stream(s, g)
    requires forall id :: id in s.outbox ==> id in s'.outbox && s'.outbox[id] == s.outbox[id]
    ensures GameOk(s', g)
  {
    RowsFrame(s, s', g);
  }

  lemma CommitGame(s: Store, e: MoveEvent, row: nat)
    requires GameOk(s, e.game) && Enabled(s, Commit(e, row))
    ensures GameOk(Do(s, Commit(e, row)), e.game)
  {
    var g, s' := e.game, Do(s, Commit(e, row));
    forall i | 0 <= i < |Committed(s', g)|
      ensures Committed(s', g)[i].game == g && Committed(s', g)[i].ply == i + 1 && HasRow(s', g, i)
    {
      if i < |Committed(s, g)| {
        assert Committed(s, g)[i].ply == i + 1;
        var id :| RowFor(s, g, i, id);
        assert RowFor(s', g, i, id);
      } else {
        assert RowFor(s', g, i, row);
      }
    }
    assert Stream(s', g) == Stream(s, g);
    PrefixTrans(Dedup(Deltas(Stream(s, g))), ShownAll(Committed(s, g)), ShownAll(Committed(s', g)));
  }

  lemma PrefixTrans<T>(a: seq<T>, b: seq<T>, c: seq<T>)
    requires a <= b && b <= c
    ensures a <= c
  {}

  lemma RowKept(s: Store, step: Step, id: nat)
    requires Inv(s) && Enabled(s, step)
    ensures RowOk(Do(s, step), id)
  {
    assert RowOk(s, id);
  }

  lemma OrderKept(s: Store, step: Step, a: nat, b: nat)
    requires Inv(s) && Enabled(s, step)
    ensures RowsOrdered(Do(s, step), a, b)
  {
    assert RowsOrdered(s, a, b) && RowOk(s, a);
  }

  /** What a relay knows stays true while everything grows. */
  lemma RelayFrame(s: Store, s': Store, relay: Relay)
    requires RelayOk(s, relay) && Grows(s, s')
    requires forall id :: id in s'.outbox && id !in s.outbox ==>
      forall a :: a in s.outbox && s.outbox[a].game == s'.outbox[id].game ==> a < id
    ensures RelayOk(s', relay)
  {
    forall id | RowOnStream(s, id) ensures RowOnStream(s', id) { OnStreamGrows(s, s', id); }
    if relay != Idle {
      var rows := if relay.Draining? then relay.rows else relay.ids;
      forall k, id | 0 <= k < |rows| ensures Preceded(s', rows, k, id) {
        assert Preceded(s, rows, k, id);
      }
    }
  }

  /** A fetched batch leaves out no earlier row of a game that is not yet on the stream. */
  lemma FetchedOk(s: Store, rows: seq<nat>)
    requires Inv(s) && Fetched(s, rows)
    ensures RelayOk(s, Draining(rows, 0))
  {
    forall k, id | 0 <= k < |rows| ensures Preceded(s, rows, k, id) {
      if id in s.outbox && id < rows[k] {
        if id !in s.published {
          var j :| 0 <= j < |rows| && rows[j] == id;
          assert j < k && rows[..k][j] == id;
        }
      }
    }
  }

  /** After a successful append the row is on the stream. */
  lemma AppendedRow(s: Store, r: nat, id: StreamId)
    requires Inv(s) && Enabled(s, Append(r, id, true, true))
    ensures RowOnStream(Do(s, Append(r, id, true, true)), NextRow(s, r))
  {
    var s' := Do(s, Append(r, id, true, true));
    var e := s.outbox[NextRow(s, r)];
    NextIsDue(s, r);
    assert RowOk(s, NextRow(s, r)) && GameOk(s, e.game);
    AppendReaches(s, id, e);
    assert Stream(s', e.game) == Stream(PutOnStream(s, id, e), e.game);
  }

  lemma AppendedOk(s: Store, r: nat, id: StreamId)
    requires Inv(s) && Enabled(s, Append(r, id, true, true))
    ensures RelayOk(Do(s, Append(r, id, true, true)), Draining(RelayOf(s, r).rows, RelayOf(s, r).done + 1))
  {
    var s' := Do(s, Append(r, id, true, true));
    var Draining(rows, done) := RelayOf(s, r);
    StepGrows(s, Append(r, id, true, true));
    assert RelayOk(s, Draining(rows, done));
    RelayFrame(s, s', Draining(rows, done));
    AppendedRow(s, r, id);
    assert rows[done] == NextRow(s, r);
  }

  lemma RelayKept(s: Store, step: Step, r: nat)
    requires Inv(s) && Enabled(s, step)
    ensures RelayOk(Do(s, step), RelayOf(Do(s, step), r))
  {
    var s', relay := Do(s, step), RelayOf(s, r);
    assert RelayOk(s, relay);
    StepGrows(s, step);
    RelayFrame(s, s', relay);
    if !step.Commit? && step.relay == r {
      match step
      case Fetch(_, rows) =>
        FetchedOk(s, rows);
        RelayFrame(s, s', Draining(rows, 0));
      case Append(_, id, took, ok) =>
        if ok {
          AppendedOk(s, r, id);
        } else {
          RelayFrame(s, s', Marking(relay.rows[..relay.done])) by { PrefixOk(s, relay.rows, relay.done); }
        }
      case FinishBatch(_) =>
        PrefixOk(s, relay.rows, relay.done);
        assert relay.rows[..relay.done] == relay.rows;
        RelayFrame(s, s', Marking(relay.rows));
      case _ =>
    }
  }

  /** What a relay has published so far may be marked. */
  lemma PrefixOk(s: Store, rows: seq<nat>, done: nat)
    requires RelayOk(s, Draining(rows, done))
    ensures RelayOk(s, Marking(rows[..done]))
  {
    var ids := rows[..done];
    forall k, id | 0 <= k < |ids| ensures Preceded(s, ids, k, id) {
      assert Preceded(s, rows, k, id);
      assert ids[..k] == rows[..k];
    }
  }

  lemma ClosedKept(s: Store, step: Step, a: nat, b: nat)
    requires Inv(s) && Enabled(s, step)
    ensures PublishedClosed(Do(s, step), a, b)
  {
    var s' := Do(s, step);
    StepGrows(s, step);
    assert PublishedClosed(s, a, b) && RowOk(s, a) && RowOk(s, b) && RowsOrdered(s, a, b);
    if b in s'.published && b !in s.published {
      var ids := RelayOf(s, step.relay).ids;
      assert RelayOk(s, RelayOf(s, step.relay));
      var k :| 0 <= k < |ids| && ids[k] == b;
      assert Preceded(s, ids, k, a);
      assert forall x :: x in ids[..k] ==> x in ids;
    }
    assert PublishedOk(s, b);
  }

  lemma PublishedKept(s: Store, step: Step, id: nat)
    requires Inv(s) && Enabled(s, step)
    ensures PublishedOk(Do(s, step), id)
  {
    var s' := Do(s, step);
    StepGrows(s, step);
    assert PublishedOk(s, id);
    if id in s.published {
      OnStreamGrows(s, s', id);
    } else if id in s'.published {
      assert RelayOk(s, RelayOf(s, step.relay));
      OnStreamGrows(s, s', id);
    }
  }

  lemma StepKeeps(s: Store, step: Step)
    requires Inv(s) && Enabled(s, step)
    ensures Inv(Do(s, step))
  {
    var s' := Do(s, step);
    forall g ensures GameOk(s', g) { GameKept(s, step, g); }
    forall id ensures RowOk(s', id) { RowKept(s, step, id); }
    forall a, b ensures RowsOrdered(s', a, b) { OrderKept(s, step, a, b); }
    forall id ensures PublishedOk(s', id) { PublishedKept(s, step, id); }
    forall a, b ensures PublishedClosed(s', a, b) { ClosedKept(s, step, a, b); }
    forall r ensures RelayOk(s', RelayOf(s', r)) { RelayKept(s, step, r); }
  }

  // ---- Whole runs ----

  const EMPTY: Store := Store(map[], map[], {}, map[], map[])

  /** The steps lead from `s` to `s'`. */
  ghost predicate Leads(s: Store, steps: seq<Step>, s': Store)
    decreases steps
  {
    if steps == [] then s == s' else Enabled(s, steps[0]) && Leads(Do(s, steps[0]), steps[1..], s')
  }

  lemma {:induction false} LeadsSnoc(s: Store, steps: seq<Step>, s': Store, step: Step)
    requires Leads(s, steps, s') && Enabled(s', step)
    ensures Leads(s, steps + [step], Do(s', step))
    decreases steps
  {
    var all := steps + [step];
    if steps == [] {
      assert all[1..] == [];
    } else {
      assert all[1..] == steps[1..] + [step] && all[0] == steps[0];
      LeadsSnoc(Do(s, steps[0]), steps[1..], s', step);
    }
  }

  lemma {:induction false} RunKeeps(s: Store, steps: seq<Step>, s': Store)
    requires Inv(s) && Leads(s, steps, s')
    ensures Inv(s')
    decreases steps
  {
    if steps != [] {
      StepKeeps(s, steps[0]);
      RunKeeps(Do(s, steps[0]), steps[1..], s');
    }
  }

  lemma EmptyOk()
    ensures Inv(EMPTY)
  {}

  /** Every move kept was one of those received. */
  lemma {:induction false} DedupSource(ds: seq<Delta>, i: nat) returns (j: nat)
    requires i < |Dedup(ds)|
    ensures j < |ds| && ShownDelta(ds[j]) == Dedup(ds)[i]
  {
    var n := |ds| - 1;
    if i < |Dedup(ds[..n])| {
      j := DedupSource(ds[..n], i);
    } else {
      j := n;
    }
  }

  ghost predicate EventOnStream(s: Store, e: MoveEvent) {
    exists i :: 0 <= i < |Stream(s, e.game)| && Stream(s, e.game)[i].event == e
  }

  lemma RowIsOnStream(s: Store, id: nat)
    requires Inv(s) && RowOnStream(s, id)
    ensures EventOnStream(s, s.outbox[id])
  {
    var e := s.outbox[id];
    assert RowOk(s, id) && GameOk(s, e.game);
    var ds := Deltas(Stream(s, e.game));
    var j := DedupSource(ds, e.ply - 1);
    assert Dedup(ds)[e.ply - 1] == ShownAll(Committed(s, e.game))[e.ply - 1] == ShownEvent(e);
    assert Stream(s, e.game)[j].event == e;
  }

  /** Row `a` comes before row `b` in the same game. */
  predicate Before(s: Store, a: nat, b: nat) {
    a in s.outbox && b in s.outbox && s.outbox[a].game == s.outbox[b].game && s.outbox[a].ply < s.outbox[b].ply
  }

  /** Over every run of any number of relays, whatever fails or crashes: published rows are
      downward closed in ply within a game, every published row is on its stream, and the stream's
      first occurrences are the committed moves from the first on, without gaps, under increasing
      ids. */
  lemma {:induction false} RelaySafe(steps: seq<Step>, s: Store)
    requires Leads(EMPTY, steps, s)
    ensures forall a, b :: b in s.published && Before(s, a, b) ==> a in s.published
    ensures forall id :: id in s.published ==> id in s.outbox && EventOnStream(s, s.outbox[id])
    ensures forall g :: Dedup(Deltas(Stream(s, g))) <= ShownAll(Committed(s, g)) && Increasing(Stream(s, g))
  {
    EmptyOk();
    RunKeeps(EMPTY, steps, s);
    forall a, b | b in s.published && Before(s, a, b) ensures a in s.published {
      assert RowsOrdered(s, b, a) && PublishedClosed(s, a, b);
    }
    forall id | id in s.published ensures id in s.outbox && EventOnStream(s, s.outbox[id]) {
      assert PublishedOk(s, id);
      RowIsOnStream(s, id);
    }
    forall g ensures Dedup(Deltas(Stream(s, g))) <= ShownAll(Committed(s, g)) && Increasing(Stream(s, g)) {
      assert GameOk(s, g);
    }
  }

  // ---- One relay cycle as the code runs it ----

  /** How one append ends: it succeeds with an id, or it fails, possibly after taking effect. */
  datatype AppendResult = Appended(id: StreamId) | Failed(id: StreamId, took: bool)

  function GameOf(s: Store, row: nat): string { if row in s.outbox then s.outbox[row].game else "" }

  /** The ids that a row's own stream hands out from the `from`-th append on are fresh there. */
  ghost predicate IdsFresh(s: Store, rows: seq<nat>, results: seq<AppendResult>, from: nat)
    requires |rows| == |results|
  {
    forall k :: from <= k < |results| ==> FreshId(Stream(s, GameOf(s, rows[k])), results[k].id)
  }

  /** The ids increase along each stream; rows of different games may be given equal ids. */
  ghost predicate IdsIncrease(s: Store, rows: seq<nat>, results: seq<AppendResult>)
    requires |rows| == |results|
  {
    forall j, k :: 0 <= j < k < |results| && GameOf(s, rows[j]) == GameOf(s, rows[k]) ==>
      IdLess(results[j].id, results[k].id)
  }

  /** Where a cycle of relay `r` stands after `i` successful appends. */
  ghost predicate Cycle(s: Store, cur: Store, r: nat, rows: seq<nat>, i: nat, steps: seq<Step>) {
    && Leads(s, steps, cur) && RelayOf(cur, r) == Draining(rows, i) && i <= |rows|
    && cur.published == s.published && cur.outbox == s.outbox && cur.committed == s.committed
    && forall k :: 0 <= k < |rows| ==> rows[k] in s.outbox
  }

  /** The store after one append of the cycle. */
  function AfterAppend(cur: Store, r: nat, rows: seq<nat>, i: nat, e: MoveEvent, result: AppendResult): Store
    requires i < |rows|
  {
    if result.Appended? then SetRelay(PutOnStream(cur, result.id, e), r, Draining(rows, i + 1))
    else SetRelay(if result.took then PutOnStream(cur, result.id, e) else cur, r, Marking(rows[..i]))
  }

  function AppendStep(r: nat, result: AppendResult): Step {
    Append(r, result.id, result.Appended? || result.took, result.Appended?)
  }

  lemma {:induction false} CycleStep(s: Store, cur: Store, r: nat, rows: seq<nat>, i: nat, steps: seq<Step>,
                                     results: seq<AppendResult>)
    requires Cycle(s, cur, r, rows, i, steps) && i < |rows| == |results|
    requires IdsFresh(cur, rows, results, i) && IdsIncrease(s, rows, results)
    ensures Leads(s, steps + [AppendStep(r, results[i])], AfterAppend(cur, r, rows, i, s.outbox[rows[i]], results[i]))
    ensures results[i].Appended? ==>
      IdsFresh(AfterAppend(cur, r, rows, i, s.outbox[rows[i]], results[i]), rows, results, i + 1)
  {
    var g := s.outbox[rows[i]].game;
    assert FreshId(Stream(cur, g), results[i].id);
    LeadsSnoc(s, steps, cur, AppendStep(r, results[i]));
    var next := AfterAppend(cur, r, rows, i, s.outbox[rows[i]], results[i]);
    if results[i].Appended? {
      forall k | i + 1 <= k < |results| ensures FreshId(Stream(next, GameOf(next, rows[k])), results[k].id) {
        var h := GameOf(next, rows[k]);
        assert h == GameOf(cur, rows[k]) == GameOf(s, rows[k]);
        assert FreshId(Stream(cur, h), results[k].id);
        assert h == g ==> IdLess(results[i].id, results[k].id);
        assert h != g ==> Stream(next, h) == Stream(cur, h);
      }
    }
  }

  lemma MarkEnds(s: Store, steps: seq<Step>, cur: Store, r: nat, ids: seq<nat>, took: bool)
    requires Leads(s, steps, cur) && RelayOf(cur, r) == Marking(ids)
    ensures Leads(s, steps + [Mark(r, took)],
                  SetRelay(if took then cur.(published := cur.published + set id | id in ids) else cur, r, Idle))
  {
    LeadsSnoc(s, steps, cur, Mark(r, took));
  }

  /** Appends the fetched rows in order until one fails. */
  method PublishRows(s: Store, r: nat, rows: seq<nat>, results: seq<AppendResult>)
    returns (cur: Store, published: seq<nat>, err: bool, ghost steps: seq<Step>)
    requires RelayOf(s, r) == Idle && Fetched(s, rows)
    requires |results| == |rows| && IdsFresh(s, rows, results, 0) && IdsIncrease(s, rows, results)
    ensures Leads(s, steps, cur) && published <= rows && err == (|published| < |rows|)
    ensures RelayOf(cur, r) == if err then Marking(published) else Draining(rows, |rows|)
    ensures forall k :: 0 <= k < |published| ==> results[k].Appended?
    ensures err ==> results[|published|].Failed?
    ensures cur.published == s.published && cur.outbox == s.outbox && cur.committed == s.committed
  {
    LeadsSnoc(s, [], s, Fetch(r, rows));
    steps := [] + [Fetch(r, rows)];
    cur := SetRelay(s, r, Draining(rows, 0));
    assert IdsFresh(cur, rows, results, 0) by {
      forall k | 0 <= k < |rows| ensures Stream(cur, GameOf(cur, rows[k])) == Stream(s, GameOf(s, rows[k])) {}
    }
    published := [];
    err := false;
    for i := 0 to |rows|
      invariant Cycle(s, cur, r, rows, i, steps) && IdsFresh(cur, rows, results, i)
      invariant published == rows[..i] && forall k :: 0 <= k < i ==> results[k].Appended?
    {
      CycleStep(s, cur, r, rows, i, steps, results);
      steps := steps + [AppendStep(r, results[i])];
      cur := AfterAppend(cur, r, rows, i, s.outbox[rows[i]], results[i]);
      if results[i].Failed? {
        err := true;
        break;
      }
      published := published + [rows[i]];
    }
  }

  /** One cycle of an undisturbed relay is a run of the steps above: it publishes rows in order up
      to the first failure and marks exactly those, and a later cycle starts afresh. */
  method DrainOnce(s: Store, r: nat, rows: seq<nat>, results: seq<AppendResult>, marked: bool)
    returns (after: Store, count: nat, err: bool, ghost steps: seq<Step>)
    requires RelayOf(s, r) == Idle && Fetched(s, rows)
    requires |results| == |rows| && IdsFresh(s, rows, results, 0) && IdsIncrease(s, rows, results)
    ensures Leads(s, steps, after) && RelayOf(after, r) == Idle
    ensures count <= |rows| && (forall k :: 0 <= k < count ==> results[k].Appended?)
    ensures count < |rows| ==> results[count].Failed?
    ensures err <==> count < |rows| || (count > 0 && !marked)
    ensures after.published == s.published + if marked then (set id | id in rows[..count]) else {}
    ensures after.outbox == s.outbox && after.committed == s.committed
  {
    if |rows| == 0 {
      return s, 0, false, [];
    }
    var published;
    after, published, err, steps := PublishRows(s, r, rows, results);
    count := |published|;
    assert published == rows[..count];
    if !err {
      assert published == rows;
      LeadsSnoc(s, steps, after, FinishBatch(r));
      steps := steps + [FinishBatch(r)];
      after := SetRelay(after, r, Marking(published));
    }
    MarkEnds(s, steps, after, r, published, marked);
    steps := steps + [Mark(r, marked)];
    after := SetRelay(if marked then after.(published := after.published + set id | id in published)
            else after, r, Idle);
    err := err || (count > 0 && !marked);
  }
}
