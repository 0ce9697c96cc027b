/** Exactly which streams let a spectator miss a move. */
module MissedMove {
  import opened Board
  import opened StreamIds
  import opened EventLog
  import opened Hubs
  import opened Pipeline

  /** The stream of a game in which every ply was published once. */
  ghost predicate Plain(entries: seq<Entry>, g: string) { forall i, j :: PlainAt(entries, g, i, j) }

  ghost predicate PlainAt(entries: seq<Entry>, g: string, i: int, j: int) {
    0 <= i < |entries| ==>
      && entries[i].event.game == g && entries[i].event.ply == i + 1 && IdLess(ZERO, entries[i].id)
      && (i < j < |entries| ==> IdLess(entries[i].id, entries[j].id))
  }

  lemma PlainIncreases(entries: seq<Entry>, g: string)
    requires Plain(entries, g)
    ensures Increasing(entries)
  {
    forall i, j | 0 <= i < j < |entries| ensures IdLess(entries[i].id, entries[j].id)
    {
      assert PlainAt(entries, g, i, j);
    }
    forall i | 0 <= i < |entries| ensures IdLess(ZERO, entries[i].id) { assert PlainAt(entries, g, i, i); }
  }

  function Events(entries: seq<Entry>): seq<MoveEvent> {
    seq(|entries|, i requires 0 <= i < |entries| => entries[i].event)
  }

  // ---- The state as the run goes on ----

  /** Of the game whose stream will be `all`: so many plies are committed, marked published and on the
      stream; and these are the one relay, the one hub and the one spectator. */
  ghost predicate Scene(s: State, g: string, all: seq<Entry>, committed: nat, published: nat, streamed: nat,
                        relay: Relays.Relay, feed: Option<Feed>, sp: Spectator) {
    && committed <= |all| && streamed <= |all| && Relays.Committed(s.store, g) == Events(all[..committed])
    && (forall id :: id in s.store.outbox <==> 1 <= id <= committed)
    && (forall id :: id in s.store.outbox ==> s.store.outbox[id] == all[id - 1].event)
    && (forall id :: id in s.store.published <==> 1 <= id <= published)
    && Relays.RelayOf(s.store, 0) == relay && Stream(s, g) == all[..streamed]
    && s.hubs == (if feed.Some? then map[0 := feed.value] else map[]) && s.spectators == map[0 := sp] && sp.game == g
  }

  /** Between relay cycles. */
  ghost predicate Still(s: State, g: string, all: seq<Entry>, k: nat, feed: Option<Feed>, sp: Spectator) {
    Scene(s, g, all, k, k, k, Relays.Idle, feed, sp)
  }

  function Reading(g: string, entries: seq<Entry>): Feed { Feed(g, Deltas(entries), Cursor(entries, |entries|), []) }

  lemma SceneCommit(s: State, g: string, all: seq<Entry>, k: nat, feed: Option<Feed>, sp: Spectator)
    requires Plain(all, g) && k < |all| && Still(s, g, all, k, feed, sp)
    ensures var step := Upstream(Relays.Commit(all[k].event, k + 1));
      Enabled(s, step) && Scene(Do(s, step), g, all, k + 1, k, k, Relays.Idle, feed, sp)
  {
    assert PlainAt(all, g, k, k);
    assert Events(all[..k + 1]) == Events(all[..k]) + [all[k].event];
  }

  lemma SceneFetch(s: State, g: string, all: seq<Entry>, k: nat, feed: Option<Feed>, sp: Spectator)
    requires k < |all| && Scene(s, g, all, k + 1, k, k, Relays.Idle, feed, sp)
    ensures var step := Upstream(Relays.Fetch(0, [k + 1]));
      Enabled(s, step) && Scene(Do(s, step), g, all, k + 1, k, k, Relays.Draining([k + 1], 0), feed, sp)
  {
    assert k + 1 in [k + 1];
  }

  lemma SceneAppend(s: State, g: string, all: seq<Entry>, k: nat, feed: Option<Feed>, sp: Spectator)
    requires Plain(all, g) && k < |all| && Scene(s, g, all, k + 1, k, k, Relays.Draining([k + 1], 0), feed, sp)
    ensures var step := Upstream(Relays.Append(0, all[k].id, true, true));
      Enabled(s, step) && Scene(Do(s, step), g, all, k + 1, k, k + 1, Relays.Draining([k + 1], 1), feed, sp)
  {
    assert PlainAt(all, g, k, k) && PlainAt(all, g, k - 1, k);
    assert all[..k + 1] == all[..k] + [all[k]];
    assert k > 0 ==> LastOf(all[..k]) == all[k - 1].id;
  }

  lemma SceneMark(s: State, g: string, all: seq<Entry>, k: nat, feed: Option<Feed>, sp: Spectator)
    requires k < |all| && Scene(s, g, all, k + 1, k, k + 1, Relays.Draining([k + 1], 1), feed, sp)
    ensures var finish, mark := Upstream(Relays.FinishBatch(0)), Upstream(Relays.Mark(0, true));
      && Enabled(s, finish) && Enabled(Do(s, finish), mark)
      && Still(Do(Do(s, finish), mark), g, all, k + 1, feed, sp)
  {
    assert k + 1 in [k + 1];
  }

  /** One ply goes all the way: committed, fetched, appended and marked. */
  lemma PublishPly(s0: State, before: seq<Step>, s1: State, g: string, all: seq<Entry>, k: nat, feed: Option<Feed>,
                   sp: Spectator) returns (steps: seq<Step>, s: State)
    requires Leads(s0, before, s1) && Plain(all, g) && k < |all| && Still(s1, g, all, k, feed, sp)
    ensures Leads(s0, steps, s) && Still(s, g, all, k + 1, feed, sp)
  {
    SceneCommit(s1, g, all, k, feed, sp);
    steps, s := Take(s0, before, s1, Upstream(Relays.Commit(all[k].event, k + 1)));
    SceneFetch(s, g, all, k, feed, sp);
    steps, s := Take(s0, steps, s, Upstream(Relays.Fetch(0, [k + 1])));
    SceneAppend(s, g, all, k, feed, sp);
    steps, s := Take(s0, steps, s, Upstream(Relays.Append(0, all[k].id, true, true)));
    SceneMark(s, g, all, k, feed, sp);
    steps, s := Take(s0, steps, s, Upstream(Relays.FinishBatch(0)));
    steps, s := Take(s0, steps, s, Upstream(Relays.Mark(0, true)));
  }

  /** A run goes on by one step. */
  lemma Take(s0: State, before: seq<Step>, s1: State, step: Step) returns (steps: seq<Step>, s: State)
    requires Leads(s0, before, s1) && Enabled(s1, step)
    ensures Leads(s0, steps, s) && s == Do(s1, step)
  {
    LeadsSnoc(s0, before, s1, step);
    steps, s := before + [step], Do(s1, step);
  }

  lemma SceneHubUp(s: State, g: string, all: seq<Entry>, k: nat, sp: Spectator)
    requires Still(s, g, all, k, None, sp)
    ensures Enabled(s, HubUp(0, g, true))
    ensures Still(Do(s, HubUp(0, g, true)), g, all, k, Some(Reading(g, all[..k])), sp)
  {}

  lemma SceneConnect(s: State, g: string, all: seq<Entry>, k: nat, feed: Feed, sp: Spectator)
    requires Still(s, g, all, k, Some(feed), sp) && sp.conn.None? && feed.game == g
    ensures Enabled(s, Connect(0, 0))
    ensures Still(Do(s, Connect(0, 0)), g, all, k, Some(feed),
                  sp.(conn := Some(Conn(0, Missing(feed.history, LastId(sp)), true))))
  {}

  lemma SceneDeliver(s: State, g: string, all: seq<Entry>, k: nat, feed: Feed, sp: Spectator)
    requires Still(s, g, all, k, Some(feed), sp) && sp.conn.Some? && sp.conn.value.pending != []
    ensures Enabled(s, Deliver(0)) && Still(Do(s, Deliver(0)), g, all, k, Some(feed), Delivered(sp))
  {}

  lemma SceneDisconnect(s: State, g: string, all: seq<Entry>, k: nat, feed: Feed, sp: Spectator)
    requires Still(s, g, all, k, Some(feed), sp)
    ensures Enabled(s, Disconnect(0)) && Still(Do(s, Disconnect(0)), g, all, k, Some(feed), sp.(conn := None))
  {}

  lemma SceneRead(s: State, g: string, all: seq<Entry>, k: nat, feed: Feed, batch: seq<Entry>, sp: Spectator)
    requires Still(s, g, all, k, Some(feed), sp)
    requires feed.game == g && feed.batch == [] && batch == ReadAfter(all[..k], feed.lastId)
    ensures Enabled(s, HubRead(0)) && Still(Do(s, HubRead(0)), g, all, k, Some(feed.(batch := batch)), sp)
  {}

  /** A hub that has read all but the last entry of the stream reads that one. */
  lemma NextBatch(all: seq<Entry>, k: nat)
    requires Increasing(all) && k < |all|
    ensures ReadAfter(all[..k + 1], Cursor(all[..k], k)) == [all[k]]
  {
    var entries := all[..k + 1];
    ReadNext(entries, k);
    assert Cursor(entries, k) == Cursor(all[..k], k);
    assert entries[k..k + 1] == [all[k]];
  }

  lemma SceneBroadcast(s: State, g: string, all: seq<Entry>, k: nat, sp: Spectator)
    requires k < |all| && Still(s, g, all, k + 1, Some(Reading(g, all[..k]).(batch := [all[k]])), sp)
    ensures Enabled(s, HubBroadcast(0, {}))
    ensures Still(Do(s, HubBroadcast(0, {})), g, all, k + 1, Some(Reading(g, all[..k + 1])),
                  Pushed(sp, 0, DeltaFrom(all[k]), false))
  {
    assert all[..k + 1] == all[..k] + [all[k]];
    DeltasSnoc(all[..k], all[k]);
    assert [all[k]][1..] == [];
  }

  // ---- Stretches of the run ----

  function Start(g: string): State { State(Relays.EMPTY, map[], map[0 := Spectator(g, [], None)]) }

  /** Some run leads there. */
  ghost predicate Reachable(g: string, all: seq<Entry>, k: nat, feed: Option<Feed>, sp: Spectator) {
    exists steps, s :: Leads(Start(g), steps, s) && Still(s, g, all, k, feed, sp)
  }

  /** Some run leads there with the hub up to date. */
  ghost predicate Up(g: string, all: seq<Entry>, k: nat, sp: Spectator) {
    k <= |all| && Reachable(g, all, k, Some(Reading(g, all[..k])), sp)
  }

  lemma ReachStart(g: string, all: seq<Entry>)
    ensures Initial(Start(g)) && Reachable(g, all, 0, None, Spectator(g, [], None))
  {
    assert Events(all[..0]) == [];
    assert Leads(Start(g), [], Start(g)) && Still(Start(g), g, all, 0, None, Spectator(g, [], None));
  }

  lemma ReachPublish(g: string, all: seq<Entry>, k: nat, feed: Option<Feed>, sp: Spectator)
    requires Plain(all, g) && k < |all| && Reachable(g, all, k, feed, sp)
    ensures Reachable(g, all, k + 1, feed, sp)
  {
    var steps, s :| Leads(Start(g), steps, s) && Still(s, g, all, k, feed, sp);
    var steps', s' := PublishPly(Start(g), steps, s, g, all, k, feed, sp);
  }

  lemma ReachHubUp(g: string, all: seq<Entry>, k: nat, sp: Spectator)
    requires k <= |all| && Reachable(g, all, k, None, sp)
    ensures Reachable(g, all, k, Some(Reading(g, all[..k])), sp)
  {
    var steps, s :| Leads(Start(g), steps, s) && Still(s, g, all, k, None, sp);
    SceneHubUp(s, g, all, k, sp);
    var steps', s' := Take(Start(g), steps, s, HubUp(0, g, true));
  }

  lemma ReachConnect(g: string, all: seq<Entry>, k: nat, feed: Feed, sp: Spectator)
    requires Reachable(g, all, k, Some(feed), sp) && sp.conn.None? && feed.game == g
    ensures Reachable(g, all, k, Some(feed), sp.(conn := Some(Conn(0, Missing(feed.history, LastId(sp)), true))))
  {
    var steps, s :| Leads(Start(g), steps, s) && Still(s, g, all, k, Some(feed), sp);
    SceneConnect(s, g, all, k, feed, sp);
    var steps', s' := Take(Start(g), steps, s, Connect(0, 0));
  }

  lemma ReachDeliver(g: string, all: seq<Entry>, k: nat, feed: Feed, sp: Spectator)
    requires Reachable(g, all, k, Some(feed), sp) && sp.conn.Some? && sp.conn.value.pending != []
    ensures Reachable(g, all, k, Some(feed), Delivered(sp))
  {
    var steps, s :| Leads(Start(g), steps, s) && Still(s, g, all, k, Some(feed), sp);
    SceneDeliver(s, g, all, k, feed, sp);
    var steps', s' := Take(Start(g), steps, s, Deliver(0));
  }

  lemma ReachDisconnect(g: string, all: seq<Entry>, k: nat, feed: Feed, sp: Spectator)
    requires Reachable(g, all, k, Some(feed), sp)
    ensures Reachable(g, all, k, Some(feed), sp.(conn := None))
  {
    var steps, s :| Leads(Start(g), steps, s) && Still(s, g, all, k, Some(feed), sp);
    SceneDisconnect(s, g, all, k, feed, sp);
    var steps', s' := Take(Start(g), steps, s, Disconnect(0));
  }

  lemma ReachTail(g: string, all: seq<Entry>, k: nat, sp: Spectator)
    requires Plain(all, g) && k < |all| && Reachable(g, all, k + 1, Some(Reading(g, all[..k])), sp)
    ensures Reachable(g, all, k + 1, Some(Reading(g, all[..k + 1])), Pushed(sp, 0, DeltaFrom(all[k]), false))
  {
    var steps, s :| Leads(Start(g), steps, s) && Still(s, g, all, k + 1, Some(Reading(g, all[..k])), sp);
    PlainIncreases(all, g);
    NextBatch(all, k);
    SceneRead(s, g, all, k + 1, Reading(g, all[..k]), [all[k]], sp);
    steps, s := Take(Start(g), steps, s, HubRead(0));
    SceneBroadcast(s, g, all, k, sp);
    steps, s := Take(Start(g), steps, s, HubBroadcast(0, {}));
  }

  /** The next ply is published, read by the hub and broadcast. */
  lemma NextPly(g: string, all: seq<Entry>, k: nat, sp: Spectator)
    requires Plain(all, g) && k < |all| && Up(g, all, k, sp)
    ensures Up(g, all, k + 1, Pushed(sp, 0, DeltaFrom(all[k]), false))
  {
    ReachPublish(g, all, k, Some(Reading(g, all[..k])), sp);
    ReachTail(g, all, k, sp);
  }

  /** The hub goes on to the k-th ply, with the spectator away. */
  lemma {:induction false} HubGoesOn(g: string, all: seq<Entry>, from: nat, k: nat, sp: Spectator)
    requires Plain(all, g) && from <= k <= |all| && sp.conn.None? && Up(g, all, from, sp)
    ensures Up(g, all, k, sp)
    decreases k
  {
    if from < k {
      HubGoesOn(g, all, from, k - 1, sp);
      NextPly(g, all, k - 1, sp);
    }
  }

  lemma Shifted<T>(received: seq<T>, pending: seq<T>)
    requires pending != []
    ensures received + [pending[0]] + pending[1..] == received + pending
  {}

  /** Everything pending is delivered. */
  lemma {:induction false} DeliverAll(g: string, all: seq<Entry>, k: nat, feed: Feed,
                                      received: seq<Delta>, pending: seq<Delta>)
    requires Reachable(g, all, k, Some(feed), Spectator(g, received, Some(Conn(0, pending, true))))
    ensures Reachable(g, all, k, Some(feed), Spectator(g, received + pending, Some(Conn(0, [], true))))
    decreases pending
  {
    if pending == [] {
      assert received + pending == received;
    } else {
      ReachDeliver(g, all, k, feed, Spectator(g, received, Some(Conn(0, pending, true))));
      DeliverAll(g, all, k, feed, received + [pending[0]], pending[1..]);
      Shifted(received, pending);
    }
  }

  /** A spectator that has `received` connects, receives what the hub sends it, and stays. */
  lemma Visit(g: string, all: seq<Entry>, k: nat, received: seq<Delta>)
    requires Up(g, all, k, Spectator(g, received, None))
    ensures var more := Missing(Deltas(all[..k]), LastId(Spectator(g, received, None)));
      Up(g, all, k, Spectator(g, received + more, Some(Conn(0, [], true))))
  {
    var sp := Spectator(g, received, None);
    ReachConnect(g, all, k, Reading(g, all[..k]), sp);
    DeliverAll(g, all, k, Reading(g, all[..k]), received, Missing(Deltas(all[..k]), LastId(sp)));
  }

  /** Some plies are published before any hub is up. */
  lemma {:induction false} Prologue(g: string, all: seq<Entry>, k: nat)
    requires Plain(all, g) && k <= |all|
    ensures Reachable(g, all, k, None, Spectator(g, [], None))
    decreases k
  {
    if k == 0 {
      ReachStart(g, all);
    } else {
      Prologue(g, all, k - 1);
      ReachPublish(g, all, k - 1, None, Spectator(g, [], None));
    }
  }

  /** The spectator sees the first `k` plies and leaves. */
  lemma FirstVisit(g: string, all: seq<Entry>, k: nat)
    requires Plain(all, g) && k <= |all|
    ensures Up(g, all, k, Spectator(g, Deltas(all[..k]), None))
  {
    Prologue(g, all, k);
    ReachHubUp(g, all, k, Spectator(g, [], None));
    Visit(g, all, k, []);
    assert [] + Deltas(all[..k]) == Deltas(all[..k]);
    ReachDisconnect(g, all, k, Reading(g, all[..k]), Spectator(g, Deltas(all[..k]), Some(Conn(0, [], true))));
  }

  /** What the hub with the first j + 1 entries sends a client that saw the i-th. */
  function Resent(all: seq<Entry>, i: nat, j: nat): seq<Delta>
    requires i <= j < |all|
  {
    Missing(Deltas(all[..j + 1]), IdText(all[i].id))
  }

  /** What the spectator receives up to the i-th entry, and on resuming. */
  function Resumed(all: seq<Entry>, i: nat, j: nat): seq<Delta>
    requires i <= j < |all|
  {
    Deltas(all[..i + 1]) + Resent(all, i, j)
  }

  /** All that it receives: one more live. */
  function Received(all: seq<Entry>, i: nat, j: nat): seq<Delta>
    requires i <= j < |all| - 1
  {
    Resumed(all, i, j) + [DeltaFrom(all[j + 1])]
  }

  /** It comes back when the hub has the j-th entry. */
  lemma SecondVisit(g: string, all: seq<Entry>, i: nat, j: nat)
    requires Plain(all, g) && i < j < |all| - 1
    ensures Up(g, all, j + 1, Spectator(g, Resumed(all, i, j), Some(Conn(0, [], true))))
  {
    var seen := Deltas(all[..i + 1]);
    Absence(g, all, i, j);
    LastSeen(g, all, i);
    Visit(g, all, j + 1, seen);
  }

  lemma LastSeen(g: string, all: seq<Entry>, i: nat)
    requires i < |all|
    ensures LastId(Spectator(g, Deltas(all[..i + 1]), None)) == IdText(all[i].id)
  {}

  /** The hub goes on from the i-th to the j-th entry without it. */
  lemma Absence(g: string, all: seq<Entry>, i: nat, j: nat)
    requires Plain(all, g) && i < j < |all| - 1
    ensures Up(g, all, j + 1, Spectator(g, Deltas(all[..i + 1]), None))
  {
    FirstVisit(g, all, i + 1);
    HubGoesOn(g, all, i + 1, j + 1, Spectator(g, Deltas(all[..i + 1]), None));
  }

  /** The next entry reaches an attached spectator. */
  lemma LivePly(g: string, all: seq<Entry>, k: nat, received: seq<Delta>)
    requires Plain(all, g) && k < |all| && Up(g, all, k, Spectator(g, received, Some(Conn(0, [], true))))
    ensures Up(g, all, k + 1, Spectator(g, received + [DeltaFrom(all[k])], Some(Conn(0, [], true))))
  {
    var sp, d := Spectator(g, received, Some(Conn(0, [], true))), DeltaFrom(all[k]);
    NextPly(g, all, k, sp);
    assert [] + [d] == [d];
    assert Pushed(sp, 0, d, false) == Spectator(g, received, Some(Conn(0, [d], true)));
    DeliverAll(g, all, k + 1, Reading(g, all[..k + 1]), received, [d]);
  }

  /** A spectator leaves, and the rest of the stream is published. */
  lemma Epilogue(g: string, all: seq<Entry>, k: nat, sp: Spectator)
    requires Plain(all, g) && k <= |all| && Up(g, all, k, sp)
    ensures Up(g, all, |all|, sp.(conn := None))
  {
    ReachDisconnect(g, all, k, Reading(g, all[..k]), sp);
    HubGoesOn(g, all, k, |all|, sp.(conn := None));
  }

  lemma WholeRun(g: string, all: seq<Entry>, i: nat, j: nat)
    requires Plain(all, g) && i < j < |all| - 1
    ensures Up(g, all, |all|, Spectator(g, Received(all, i, j), None))
  {
    Gap(g, all, i, j);
    Epilogue(g, all, j + 2, Spectator(g, Received(all, i, j), Some(Conn(0, [], true))));
  }

  lemma Gap(g: string, all: seq<Entry>, i: nat, j: nat)
    requires Plain(all, g) && i < j < |all| - 1
    ensures Up(g, all, j + 2, Spectator(g, Received(all, i, j), Some(Conn(0, [], true))))
  {
    SecondVisit(g, all, i, j);
    LivePly(g, all, j + 1, Resumed(all, i, j));
  }

  // ---- What is missing ----

  /** The filter does not send the j-th entry when its id does not sort after the i-th. */
  lemma NotResent(all: seq<Entry>, g: string, i: nat, j: nat, d: Delta)
    requires Plain(all, g) && i < j < |all| - 1 && !DigitsAgree(all[i].id, all[j].id) && d in Received(all, i, j)
    ensures d.ply != j + 1
  {
    var ds, from := Deltas(all[..j + 1]), IdText(all[i].id);
    PlainIncreases(all, g);
    TextOrderExact(all[i].id, all[j].id);
    TextLessAsym(from, IdText(all[j].id));
    assert |from| > 0;
    forall k | 0 <= k < |all| ensures all[k].event.ply == k + 1 { assert PlainAt(all, g, k, k); }
    if d in Resent(all, i, j) {
      var k :| 0 <= k < |Newer(ds, from)| && Newer(ds, from)[k] == d;
      NewerSound(ds, from);
      NewerAmong(ds, from);
    }
  }

  /** A spectator that has a ply but not the one before it does not see a prefix. */
  lemma {:induction false} GapIsNoPrefix(ds: seq<Delta>, all: seq<Relays.Shown>, j: nat, k: nat)
    requires forall i :: 0 <= i < |all| ==> all[i].ply == i + 1
    requires k < |ds| && ds[k].ply == j + 2 && forall i :: 0 <= i < |ds| ==> ds[i].ply != j + 1
    ensures !(Relays.Dedup(ds) <= all)
  {
    Relays.DedupHas(ds, k);
    var ms := Relays.Dedup(ds);
    var m :| 0 <= m < |ms| && ms[m].ply == j + 2;
    if ms <= all {
      assert ms[m] == all[m] && m == j + 1;
      assert ms[j] == all[j];
      var source := Relays.DedupSource(ds, j);
      assert false;
    }
  }

  lemma SceneMissed(s: State, g: string, all: seq<Entry>, i: nat, j: nat, feed: Option<Feed>, sp: Spectator)
    requires Plain(all, g) && i < j < |all| - 1 && !DigitsAgree(all[i].id, all[j].id)
    requires Still(s, g, all, |all|, feed, sp) && sp.received == Received(all, i, j)
    ensures 0 in s.spectators && s.spectators[0].game == g && Stream(s, g) == all && !SeesPrefix(s, 0)
  {
    assert all[..|all|] == all;
    var ds := Received(all, i, j);
    forall k | 0 <= k < |ds| ensures ds[k].ply != j + 1 { NotResent(all, g, i, j, ds[k]); }
    assert ds[|ds| - 1] == DeltaFrom(all[j + 1]);
    forall k | 0 <= k < |all| ensures all[k].event.ply == k + 1 { assert PlainAt(all, g, k, k); }
    GapIsNoPrefix(ds, Relays.ShownAll(Events(all)), j, |ds| - 1);
  }

  // ---- Exactly when no run misses a move ----

  /** On every run that ends with this stream, every spectator of the game sees a prefix of it. */
  ghost predicate NeverMisses(g: string, all: seq<Entry>) {
    forall s0, steps, s, x :: Ends(s0, steps, s, x, g, all) ==> SeesPrefix(s, x)
  }

  ghost predicate Ends(s0: State, steps: seq<Step>, s: State, x: nat, g: string, all: seq<Entry>) {
    Initial(s0) && Leads(s0, steps, s) && x in s.spectators && s.spectators[x].game == g && Stream(s, g) == all
  }

  /** For every stream on which no ply is repeated: all runs keep the prefix if and only if the digits
      agree between any two ids other than the last. */
  lemma {:induction false} NeverMissesIff(g: string, all: seq<Entry>)
    requires Plain(all, g)
    ensures NeverMisses(g, all) <==> DigitsSorted(ButLast(all))
  {
    if DigitsSorted(ButLast(all)) {
      forall s0, steps, s, x | Ends(s0, steps, s, x, g, all) ensures SeesPrefix(s, x) {
        SpectatorSeesPrefix(s0, steps, s, x);
      }
    } else {
      var i, j :| 0 <= i < j < |ButLast(all)| && !DigitsAgree(ButLast(all)[i].id, ButLast(all)[j].id);
      var feed, sp := Some(Reading(g, all[..|all|])), Spectator(g, Received(all, i, j), None);
      WholeRun(g, all, i, j);
      ReachStart(g, all);
      var steps, s :| Leads(Start(g), steps, s) && Still(s, g, all, |all|, feed, sp);
      SceneMissed(s, g, all, i, j, feed, sp);
      assert Ends(Start(g), steps, s, 0, g, all);
    }
  }

  /** In any game and millisecond: when twelve plies or more are published within it, some run misses
      one. */
  lemma {:induction false} SpectatorMissesMove(g: string, ms: nat, all: seq<Entry>)
    requires Plain(all, g) && |all| >= 12 && forall i :: 0 <= i < |all| ==> all[i].id == StreamId(ms, i)
    ensures !NeverMisses(g, all)
  {
    TextOrderFails(ms);
    TextOrderExact(StreamId(ms, 9), StreamId(ms, 10));
    assert ButLast(all)[9].id == StreamId(ms, 9) && ButLast(all)[10].id == StreamId(ms, 10);
    NeverMissesIff(g, all);
  }
}
