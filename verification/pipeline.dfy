/** The move-event pipeline end to end: relays publish, hubs read the stream, and spectators are
    served, dropped and resumed. */
module Pipeline {
  import opened Board
  import opened StreamIds
  import opened EventLog
  import opened Hubs
  import Relays

  /** A spectator's connection: the hub, what is still to be sent to it, and whether the hub still
      feeds it (it does not once it was dropped for being slow). */
  datatype Conn = Conn(hub: nat, pending: seq<Delta>, attached: bool)

  /** A client: the game it watches, every message it has received, and its connection. */
  datatype Spectator = Spectator(game: string, received: seq<Delta>, conn: Option<Conn>)

  /** A running hub: its game, its in-memory history, the id it has read up to, and the entries of
      the last read that it has yet to broadcast. */
  datatype Feed = Feed(game: string, history: seq<Delta>, lastId: string, batch: seq<Entry>)

  datatype State = State(store: Relays.Store, hubs: map<nat, Feed>, spectators: map<nat, Spectator>)

  function Stream(s: State, g: string): seq<Entry> { Relays.Stream(s.store, g) }

  /** A game's stream as the deltas its entries turn into. */
  function Tape(s: State, g: string): seq<Delta> { Deltas(Stream(s, g)) }

  /** The id a client resumes from: that of the last message it received. */
  function LastId(x: Spectator): string {
    if x.received == [] then "" else x.received[|x.received| - 1].id
  }

  // ---- Steps ----

  datatype Step =
    /** A commit or a relay step. */
    | Upstream(step: Relays.Step)
    /** A hub starts; the history preload may fail. */
    | HubUp(hub: nat, game: string, preloaded: bool)
    /** A hub that has broadcast all it read asks the stream for the entries after its last id. */
    | HubRead(hub: nat)
    /** A hub broadcasts the next entry it read, dropping subscribers that are slow. */
    | HubBroadcast(hub: nat, dropped: set<nat>)
    /** A hub goes away, and with it its connections. */
    | HubDown(hub: nat)
    /** A client connects, resuming from the last id it saw. */
    | Connect(spectator: nat, hub: nat)
    /** The next pending message reaches the client. */
    | Deliver(spectator: nat)
    /** The connection ends, at any point. */
    | Disconnect(spectator: nat)

  function SetSpectator(s: State, x: nat, sp: Spectator): State { s.(spectators := s.spectators[x := sp]) }

  /** What a broadcast does to one spectator. */
  function Pushed(sp: Spectator, hub: nat, d: Delta, dropped: bool): Spectator {
    if sp.conn.None? || sp.conn.value.hub != hub || !sp.conn.value.attached then sp
    else if dropped then sp.(conn := Some(sp.conn.value.(attached := false)))
    else sp.(conn := Some(sp.conn.value.(pending := sp.conn.value.pending + [d])))
  }

  function Unplugged(sp: Spectator, hub: nat): Spectator {
    if sp.conn.Some? && sp.conn.value.hub == hub then sp.(conn := None) else sp
  }

  ghost predicate Enabled(s: State, step: Step) {
    match step
    case Upstream(up) => Relays.Enabled(s.store, up)
    case HubUp(h, g, preloaded) => h !in s.hubs
    case HubRead(h) => h in s.hubs && s.hubs[h].batch == []
    case HubBroadcast(h, dropped) => h in s.hubs && s.hubs[h].batch != []
    case HubDown(h) => h in s.hubs
    case Connect(x, h) => x in s.spectators && s.spectators[x].conn.None?
          && h in s.hubs && s.hubs[h].game == s.spectators[x].game
    case Deliver(x) => x in s.spectators && s.spectators[x].conn.Some? && s.spectators[x].conn.value.pending != []
    case Disconnect(x) => x in s.spectators
  }

  ghost function Do(s: State, step: Step): State
    requires Enabled(s, step)
  {
    match step
    case Upstream(up) => s.(store := Relays.Do(s.store, up))
    case HubUp(h, g, preloaded) =>
      var loaded := if preloaded then Stream(s, g) else [];
      s.(hubs := s.hubs[h := Feed(g, Deltas(loaded), Cursor(loaded, |loaded|), [])])
    case HubRead(h) =>
      var feed := s.hubs[h];
      s.(hubs := s.hubs[h := feed.(batch := ReadAfter(Stream(s, feed.game), feed.lastId))])
    case HubBroadcast(h, dropped) =>
      var feed := s.hubs[h];
      var d := DeltaFrom(feed.batch[0]);
      s.(hubs := s.hubs[h := Feed(feed.game, feed.history + [d], IdText(feed.batch[0].id), feed.batch[1..])],
         spectators := map x | x in s.spectators :: Pushed(s.spectators[x], h, d, x in dropped))
    case HubDown(h) =>
      s.(hubs := s.hubs - {h}, spectators := map x | x in s.spectators :: Unplugged(s.spectators[x], h))
    case Connect(x, h) =>
      var sp := s.spectators[x];
      SetSpectator(s, x, sp.(conn := Some(Conn(h, Missing(s.hubs[h].history, LastId(sp)), true))))
    case Deliver(x) =>
      var sp := s.spectators[x];
      var c := sp.conn.value;
      SetSpectator(s, x, sp.(received := sp.received + [c.pending[0]], conn := Some(c.(pending := c.pending[1..]))))
    case Disconnect(x) => SetSpectator(s, x, s.spectators[x].(conn := None))
  }

  ghost predicate Initial(s: State) {
    && s.store == Relays.EMPTY && s.hubs == map[]
    && forall x :: x in s.spectators ==> s.spectators[x].received == [] && s.spectators[x].conn == None
  }

  // ---- The invariant ----

  /** A hub's history is the first entries of its game's stream, its last id is that of the last of
      them, and what it has yet to broadcast are the entries that follow. */
  ghost predicate FeedFollows(entries: seq<Entry>, feed: Feed) {
    && Tracks(entries, feed.history, feed.lastId)
    && |feed.history| + |feed.batch| <= |entries|
    && feed.batch == entries[|feed.history|..|feed.history| + |feed.batch|]
  }

  ghost predicate FeedOk(s: State, h: nat) {
    h in s.hubs ==> FeedFollows(Stream(s, s.hubs[h].game), s.hubs[h])
  }

  // In what follows `n` is the length the game's stream reaches in the end, or more. The last entry
  // of a stream need not sort as text after the others: missing it leaves no gap behind.

  /** All entries sort as text, the n-th aside. */
  ghost predicate NearlySorted(tape: seq<Delta>, n: nat) {
    |tape| <= n && SortedAsText(if |tape| == n > 0 then tape[..n - 1] else tape)
  }

  /** The hub feeds the connection, and belongs to the game. */
  predicate FedBy(hubs: map<nat, Feed>, g: string, c: Conn) {
    c.attached ==> c.hub in hubs && hubs[c.hub].game == g
  }

  /** A connection carries on at position `a` of the tape, no later than the first one unseen; once its
      hub has read the n-th entry nothing more comes. */
  ghost predicate ConnOk(tape: seq<Delta>, hubs: map<nat, Feed>, g: string, c: Conn, seen: nat, a: nat, n: nat) {
    && a <= seen && a + |c.pending| <= |tape| && c.pending == tape[a..a + |c.pending|] && FedBy(hubs, g, c)
    && (c.attached ==> a + |c.pending| == |hubs[c.hub].history| || |hubs[c.hub].history| == n)
  }

  ghost predicate Among(ds: seq<Delta>, tape: seq<Delta>) {
    forall i :: 0 <= i < |ds| ==> ds[i] in tape
  }

  /** Or the client has seen all n entries, and whatever comes is among them. */
  ghost predicate ConnDone(tape: seq<Delta>, hubs: map<nat, Feed>, g: string, c: Conn, seen: nat, n: nat) {
    seen == |tape| == n && Among(c.pending, tape) && FedBy(hubs, g, c)
  }

  ghost predicate ConnFine(tape: seq<Delta>, hubs: map<nat, Feed>, g: string, c: Conn, seen: nat, n: nat) {
    (exists a :: ConnOk(tape, hubs, g, c, seen, a, n)) || ConnDone(tape, hubs, g, c, seen, n)
  }

  /** What the client has, repeated plies dropped, is what the first `seen` entries of the tape
      give, and the id it would resume from is that of one of them. */
  ghost predicate Covers(tape: seq<Delta>, hubs: map<nat, Feed>, sp: Spectator, seen: nat, n: nat) {
    && seen <= |tape| <= n && Relays.Dedup(sp.received) == Relays.Dedup(tape[..seen])
    && (sp.received != [] ==> sp.received[|sp.received| - 1] in tape[..seen])
    && (sp.conn.Some? ==> ConnFine(tape, hubs, sp.game, sp.conn.value, seen, n))
  }

  ghost predicate SpectatorOk(s: State, x: nat, n: nat) {
    x in s.spectators ==>
      exists seen :: Covers(Tape(s, s.spectators[x].game), s.hubs, s.spectators[x], seen, n)
  }

  ghost predicate Inv(s: State) {
    Relays.Inv(s.store) && forall h :: FeedOk(s, h)
  }

  // ---- What every step keeps ----

  lemma TapeGrows(s: State, step: Step, g: string)
    requires Enabled(s, step)
    ensures Stream(s, g) <= Stream(Do(s, step), g) && Tape(s, g) <= Tape(Do(s, step), g)
  {
    if step.Upstream? {
      Relays.StepGrows(s.store, step.step);
    }
  }

  lemma CoversGrows(tape: seq<Delta>, tape': seq<Delta>, hubs: map<nat, Feed>, sp: Spectator, seen: nat, n: nat)
    requires Covers(tape, hubs, sp, seen, n) && tape <= tape' && |tape'| <= n
    ensures Covers(tape', hubs, sp, seen, n)
  {
    assert tape'[..seen] == tape[..seen];
    if sp.conn.Some? {
      var c := sp.conn.value;
      if ConnDone(tape, hubs, sp.game, c, seen, n) {
        assert tape' == tape;
      } else {
        var a: nat :| ConnOk(tape, hubs, sp.game, c, seen, a, n);
        assert ConnOk(tape', hubs, sp.game, c, seen, a, n);
      }
    }
  }

  /** One more entry of the tape, seen before or the next unseen one. */
  lemma {:induction false} DedupReaches(tape: seq<Delta>, received: seq<Delta>, seen: nat, a: nat)
    requires a <= seen <= |tape| && a < |tape| && Relays.Dedup(received) == Relays.Dedup(tape[..seen])
    ensures Relays.Dedup(received + [tape[a]]) == Relays.Dedup(tape[..if a == seen then seen + 1 else seen])
  {
    Relays.DedupSnoc(received, tape[a]);
    if a == seen {
      assert tape[..seen + 1] == tape[..seen] + [tape[a]];
      Relays.DedupSnoc(tape[..seen], tape[a]);
    } else {
      assert tape[..seen][a] == tape[a];
      Relays.DedupHas(tape[..seen], a);
    }
  }

  /** The client after the next pending delta has reached it. */
  function Delivered(sp: Spectator): Spectator
    requires sp.conn.Some? && sp.conn.value.pending != []
  {
    var c := sp.conn.value;
    sp.(received := sp.received + [c.pending[0]], conn := Some(c.(pending := c.pending[1..])))
  }

  lemma DeliverDone(tape: seq<Delta>, hubs: map<nat, Feed>, sp: Spectator, seen: nat, n: nat)
    requires Covers(tape, hubs, sp, seen, n) && sp.conn.Some? && sp.conn.value.pending != []
    requires ConnDone(tape, hubs, sp.game, sp.conn.value, seen, n)
    ensures Covers(tape, hubs, Delivered(sp), seen, n)
  {
    var c := sp.conn.value;
    assert tape[..seen] == tape && c.pending[0] in tape;
    var m :| 0 <= m < |tape| && tape[m] == c.pending[0];
    DedupReaches(tape, sp.received, seen, m);
    forall i | 0 <= i < |c.pending[1..]| ensures c.pending[1..][i] in tape { assert c.pending[i + 1] in tape; }
  }

  lemma DeliverNext(tape: seq<Delta>, hubs: map<nat, Feed>, sp: Spectator, seen: nat, n: nat, a: nat)
    requires Covers(tape, hubs, sp, seen, n) && sp.conn.Some? && sp.conn.value.pending != []
    requires ConnOk(tape, hubs, sp.game, sp.conn.value, seen, a, n)
    ensures Covers(tape, hubs, Delivered(sp), if a == seen then seen + 1 else seen, n)
  {
    var sp' := Delivered(sp);
    assert sp.conn.value.pending[0] == tape[a];
    var seen' := if a == seen then seen + 1 else seen;
    DedupReaches(tape, sp.received, seen, a);
    assert tape[..seen'][a] == tape[a];
    assert ConnOk(tape, hubs, sp.game, sp'.conn.value, seen', a + 1, n);
  }

  /** Receiving the next pending delta. */
  lemma DeliverCovers(tape: seq<Delta>, hubs: map<nat, Feed>, sp: Spectator, seen: nat, n: nat)
    requires Covers(tape, hubs, sp, seen, n) && sp.conn.Some? && sp.conn.value.pending != []
    ensures exists seen' :: Covers(tape, hubs, Delivered(sp), seen', n)
  {
    if ConnDone(tape, hubs, sp.game, sp.conn.value, seen, n) {
      DeliverDone(tape, hubs, sp, seen, n);
    } else {
      var a: nat :| ConnOk(tape, hubs, sp.game, sp.conn.value, seen, a, n);
      DeliverNext(tape, hubs, sp, seen, n, a);
    }
  }

  /** By the id order, what a hub sends first is exactly what follows the last id seen, or nothing
      when the client is ahead of the hub. */
  lemma ResumePoint(tape: seq<Delta>, k: nat, i: nat)
    requires i < |tape| && k <= |tape| && SortedAsText(tape)
    ensures var a := if i < k then i + 1 else k; Newer(tape[..k], tape[i].id) == tape[a..k]
  {
    var history := tape[..k];
    if i < k {
      ResumeExact(history, i);
      assert history[i + 1..] == tape[i + 1..k];
    } else {
      ResumeAhead(history, tape[i].id);
    }
  }

  lemma LastOfSlice<T>(tape: seq<T>, i: nat)
    requires i < |tape| - 1
    ensures tape == tape[..|tape| - 1] + [tape[|tape| - 1]]
    ensures tape[..|tape| - 1][i + 1..] == tape[i + 1..|tape| - 1]
    ensures tape[i + 1..|tape| - 1] + [tape[|tape| - 1]] == tape[i + 1..]
  {}

  /** A hub that has the n-th entry may or may not count it as newer. */
  lemma {:induction false} ResumeAtEnd(tape: seq<Delta>, n: nat, i: nat)
    requires |tape| == n && i < n - 1 && SortedAsText(tape[..n - 1])
    ensures Newer(tape, tape[i].id) == tape[i + 1..] || Newer(tape, tape[i].id) == tape[i + 1..n - 1]
  {
    var front, from := tape[..n - 1], tape[i].id;
    LastOfSlice(tape, i);
    ResumeExact(front, i);
    NewerSnoc(front, tape[n - 1], from);
    assert tape[i + 1..n - 1] + [] == tape[i + 1..n - 1];
  }

  /** Where a client resumes: no later than the first entry unseen, with all that the hub has from
      there on, except perhaps the n-th entry. */
  lemma ConnectPoint(tape: seq<Delta>, i: nat, k: nat, n: nat) returns (a: nat, b: nat)
    requires k <= |tape| && i < |tape| && i < n - 1 && NearlySorted(tape, n)
    ensures a <= i + 1 && a <= b <= k && Newer(tape[..k], tape[i].id) == tape[a..b] && (b == k || k == n)
  {
    if k == |tape| == n {
      ResumeAtEnd(tape, n, i);
      assert tape[..k] == tape;
      a := i + 1;
      b := if Newer(tape, tape[i].id) == tape[i + 1..] then n else n - 1;
      assert tape[a..n] == tape[a..];
    } else {
      var front := if |tape| == n > 0 then tape[..n - 1] else tape;
      ResumePoint(front, k, i);
      assert front[..k] == tape[..k];
      a, b := if i < k then i + 1 else k, k;
      assert front[a..k] == tape[a..k];
    }
  }

  lemma {:induction false} NewerAmong(history: seq<Delta>, from: string)
    ensures Among(Newer(history, from), history)
  {
    if history != [] {
      var rest := history[1..];
      NewerAmong(rest, from);
      forall i | 0 <= i < |Newer(rest, from)| ensures Newer(rest, from)[i] in history {
        assert Newer(rest, from)[i] in rest;
      }
    }
  }

  lemma ConnectFine(tape: seq<Delta>, hubs: map<nat, Feed>, g: string, h: nat, i: nat, seen: nat, n: nat)
    requires i < seen <= |tape| && NearlySorted(tape, n) && tape[i].id != ""
    requires h in hubs && hubs[h].game == g && hubs[h].history <= tape
    ensures ConnFine(tape, hubs, g, Conn(h, Missing(hubs[h].history, tape[i].id), true), seen, n)
  {
    var history := hubs[h].history;
    var k, c := |history|, Conn(h, Missing(history, tape[i].id), true);
    assert history == tape[..k];
    if i == n - 1 {
      NewerAmong(history, tape[i].id);
      forall j | 0 <= j < |c.pending| ensures c.pending[j] in tape { assert c.pending[j] in history; }
      assert ConnDone(tape, hubs, g, c, seen, n);
    } else {
      var a, b := ConnectPoint(tape, i, k, n);
      assert ConnOk(tape, hubs, g, c, seen, a, n);
    }
  }

  lemma ConnectCovers(tape: seq<Delta>, hubs: map<nat, Feed>, sp: Spectator, seen: nat, h: nat, n: nat)
    requires Covers(tape, hubs, sp, seen, n) && NearlySorted(tape, n) && sp.conn.None?
    requires h in hubs && hubs[h].game == sp.game && hubs[h].history <= tape
    requires forall i :: 0 <= i < |tape| ==> tape[i].id != ""
    ensures Covers(tape, hubs, sp.(conn := Some(Conn(h, Missing(hubs[h].history, LastId(sp)), true))), seen, n)
  {
    if sp.received == [] {
      var c := Conn(h, Missing(hubs[h].history, ""), true);
      assert ConnOk(tape, hubs, sp.game, c, seen, 0, n);
    } else {
      var d := sp.received[|sp.received| - 1];
      var i :| 0 <= i < seen && tape[..seen][i] == d;
      ConnectFine(tape, hubs, sp.game, h, i, seen, n);
    }
  }

  lemma IdTextNotEmpty(s: State, g: string)
    ensures forall i :: 0 <= i < |Tape(s, g)| ==> Tape(s, g)[i].id != ""
  {}

  /** A broadcast reaches an attached spectator, or drops it; either way its view stays sound. */
  lemma PushCovers(tape: seq<Delta>, hubs: map<nat, Feed>, sp: Spectator, seen: nat, n: nat,
                   h: nat, feed: Feed, d: Delta, dropped: bool)
    requires Covers(tape, hubs, sp, seen, n) && h in hubs
    requires feed.game == hubs[h].game && feed.history == hubs[h].history + [d]
    requires feed.game == sp.game ==> feed.history <= tape
    ensures Covers(tape, hubs[h := feed], Pushed(sp, h, d, dropped), seen, n)
  {
    if sp.conn.Some? {
      var c, c' := sp.conn.value, Pushed(sp, h, d, dropped).conn.value;
      var k := |hubs[h].history|;
      assert feed.game == sp.game ==> tape[k] == feed.history[k] == d;
      if ConnDone(tape, hubs, sp.game, c, seen, n) {
        assert Among(c'.pending, tape);
        assert ConnDone(tape, hubs[h := feed], sp.game, c', seen, n);
      } else {
        var a: nat :| ConnOk(tape, hubs, sp.game, c, seen, a, n);
        assert ConnOk(tape, hubs[h := feed], sp.game, c', seen, a, n);
      }
    }
  }

  /** Hubs that come, go or read do not disturb a view that does not hang on them. */
  lemma HubsCover(tape: seq<Delta>, hubs: map<nat, Feed>, hubs': map<nat, Feed>, sp: Spectator, seen: nat, n: nat)
    requires Covers(tape, hubs, sp, seen, n)
    requires sp.conn.Some? && sp.conn.value.attached && sp.conn.value.hub in hubs ==>
      var h := sp.conn.value.hub;
      h in hubs' && hubs'[h].game == hubs[h].game && hubs'[h].history == hubs[h].history
    ensures Covers(tape, hubs', sp, seen, n)
  {
    if sp.conn.Some? {
      var c := sp.conn.value;
      if ConnDone(tape, hubs, sp.game, c, seen, n) {
        assert ConnDone(tape, hubs', sp.game, c, seen, n);
      } else {
        var a: nat :| ConnOk(tape, hubs, sp.game, c, seen, a, n);
        assert ConnOk(tape, hubs', sp.game, c, seen, a, n);
      }
    }
  }

  // ---- The hubs ----

  lemma FollowsGrows(entries: seq<Entry>, entries': seq<Entry>, feed: Feed)
    requires FeedFollows(entries, feed) && entries <= entries'
    ensures FeedFollows(entries', feed)
  {
    TracksGrows(entries, entries', feed.history, feed.lastId);
  }

  /** Since ids increase, reading after the last id gives the entries after the last one read. */
  lemma FollowsRead(entries: seq<Entry>, feed: Feed)
    requires FeedFollows(entries, feed) && Increasing(entries)
    ensures FeedFollows(entries, feed.(batch := ReadAfter(entries, feed.lastId)))
  {
    ReadNext(entries, |feed.history|);
  }

  lemma FollowsBroadcast(entries: seq<Entry>, feed: Feed)
    requires FeedFollows(entries, feed) && feed.batch != []
    ensures FeedFollows(entries, Feed(feed.game, feed.history + [DeltaFrom(feed.batch[0])],
                                      IdText(feed.batch[0].id), feed.batch[1..]))
  {
    var n := |feed.history|;
    assert feed.batch[0] == entries[n];
    TracksNext(entries, feed.history, feed.lastId);
  }

  lemma FeedStarts(s: State, h: nat, g: string, preloaded: bool)
    requires Enabled(s, HubUp(h, g, preloaded))
    ensures FeedOk(Do(s, HubUp(h, g, preloaded)), h)
  {}

  /** A hub's history stays a prefix of its game's stream, and its last id the id of its end. */
  lemma FeedKept(s: State, step: Step, h: nat)
    requires Inv(s) && Enabled(s, step)
    ensures FeedOk(Do(s, step), h)
  {
    assert FeedOk(s, h);
    if h in s.hubs {
      var feed := s.hubs[h];
      var entries := Stream(s, feed.game);
      TapeGrows(s, step, feed.game);
      if step == HubRead(h) {
        assert Relays.GameOk(s.store, feed.game);
        FollowsRead(entries, feed);
      } else if step.HubBroadcast? && step.hub == h {
        FollowsBroadcast(entries, feed);
      } else {
        FollowsGrows(entries, Stream(Do(s, step), feed.game), feed);
      }
    } else if step.HubUp? && step.hub == h {
      FeedStarts(s, h, step.game, step.preloaded);
    }
  }

  // ---- The spectators ----

  lemma DropCovers(tape: seq<Delta>, hubs: map<nat, Feed>, hubs': map<nat, Feed>, sp: Spectator, seen: nat, n: nat)
    requires Covers(tape, hubs, sp, seen, n)
    ensures Covers(tape, hubs', sp.(conn := None), seen, n)
  {}

  lemma KeptOnRead(s: State, h: nat, x: nat, n: nat)
    requires SpectatorOk(s, x, n) && Enabled(s, HubRead(h)) && x in s.spectators
    ensures SpectatorOk(Do(s, HubRead(h)), x, n)
  {
    var s', sp := Do(s, HubRead(h)), s.spectators[x];
    var seen: nat :| Covers(Tape(s, sp.game), s.hubs, sp, seen, n);
    HubsCover(Tape(s, sp.game), s.hubs, s'.hubs, sp, seen, n);
    assert Covers(Tape(s', sp.game), s'.hubs, s'.spectators[x], seen, n);
  }

  lemma KeptOnBroadcast(s: State, h: nat, dropped: set<nat>, x: nat, n: nat)
    requires SpectatorOk(s, x, n) && FeedOk(s, h) && Enabled(s, HubBroadcast(h, dropped)) && x in s.spectators
    ensures SpectatorOk(Do(s, HubBroadcast(h, dropped)), x, n)
  {
    var s', sp, feed := Do(s, HubBroadcast(h, dropped)), s.spectators[x], s.hubs[h];
    var seen: nat :| Covers(Tape(s, sp.game), s.hubs, sp, seen, n);
    FollowsBroadcast(Stream(s, feed.game), feed);
    PushCovers(Tape(s, sp.game), s.hubs, sp, seen, n, h, s'.hubs[h], DeltaFrom(feed.batch[0]), x in dropped);
    assert Covers(Tape(s', sp.game), s'.hubs, s'.spectators[x], seen, n);
  }

  lemma KeptOnHubUp(s: State, h: nat, g: string, preloaded: bool, x: nat, n: nat)
    requires SpectatorOk(s, x, n) && Enabled(s, HubUp(h, g, preloaded)) && x in s.spectators
    ensures SpectatorOk(Do(s, HubUp(h, g, preloaded)), x, n)
  {
    var s', sp := Do(s, HubUp(h, g, preloaded)), s.spectators[x];
    var seen: nat :| Covers(Tape(s, sp.game), s.hubs, sp, seen, n);
    HubsCover(Tape(s, sp.game), s.hubs, s'.hubs, sp, seen, n);
    assert Covers(Tape(s', sp.game), s'.hubs, s'.spectators[x], seen, n);
  }

  lemma KeptOnHubDown(s: State, h: nat, x: nat, n: nat)
    requires SpectatorOk(s, x, n) && Enabled(s, HubDown(h)) && x in s.spectators
    ensures SpectatorOk(Do(s, HubDown(h)), x, n)
  {
    var s', sp := Do(s, HubDown(h)), s.spectators[x];
    var seen: nat :| Covers(Tape(s, sp.game), s.hubs, sp, seen, n);
    if sp.conn.Some? && sp.conn.value.hub == h {
      DropCovers(Tape(s, sp.game), s.hubs, s'.hubs, sp, seen, n);
    } else {
      HubsCover(Tape(s, sp.game), s.hubs, s'.hubs, sp, seen, n);
    }
    assert Covers(Tape(s', sp.game), s'.hubs, s'.spectators[x], seen, n);
  }

  lemma KeptOnConnect(s: State, x: nat, h: nat, n: nat)
    requires SpectatorOk(s, x, n) && FeedOk(s, h) && Enabled(s, Connect(x, h))
    requires NearlySorted(Tape(s, s.spectators[x].game), n)
    ensures SpectatorOk(Do(s, Connect(x, h)), x, n)
  {
    var s', sp := Do(s, Connect(x, h)), s.spectators[x];
    var seen: nat :| Covers(Tape(s, sp.game), s.hubs, sp, seen, n);
    IdTextNotEmpty(s, sp.game);
    ConnectCovers(Tape(s, sp.game), s.hubs, sp, seen, h, n);
    assert Covers(Tape(s', sp.game), s'.hubs, s'.spectators[x], seen, n);
  }

  lemma KeptOnDeliver(s: State, x: nat, n: nat)
    requires SpectatorOk(s, x, n) && Enabled(s, Deliver(x))
    ensures SpectatorOk(Do(s, Deliver(x)), x, n)
  {
    var s', sp := Do(s, Deliver(x)), s.spectators[x];
    var seen: nat :| Covers(Tape(s, sp.game), s.hubs, sp, seen, n);
    DeliverCovers(Tape(s, sp.game), s.hubs, sp, seen, n);
    var seen': nat :| Covers(Tape(s, sp.game), s.hubs, Delivered(sp), seen', n);
    assert Covers(Tape(s', sp.game), s'.hubs, s'.spectators[x], seen', n);
  }

  lemma KeptOnDisconnect(s: State, x: nat, n: nat)
    requires SpectatorOk(s, x, n) && Enabled(s, Disconnect(x))
    ensures SpectatorOk(Do(s, Disconnect(x)), x, n)
  {
    var s', sp := Do(s, Disconnect(x)), s.spectators[x];
    var seen: nat :| Covers(Tape(s, sp.game), s.hubs, sp, seen, n);
    DropCovers(Tape(s, sp.game), s.hubs, s.hubs, sp, seen, n);
    assert Covers(Tape(s', sp.game), s'.hubs, s'.spectators[x], seen, n);
  }

  /** A client's own steps leave the other clients alone. */
  lemma KeptElsewhere(s: State, step: Step, x: nat, n: nat)
    requires SpectatorOk(s, x, n) && Enabled(s, step) && x in s.spectators
    requires (step.Connect? || step.Deliver? || step.Disconnect?) && step.spectator != x
    ensures SpectatorOk(Do(s, step), x, n)
  {
    var s', sp := Do(s, step), s.spectators[x];
    var seen: nat :| Covers(Tape(s, sp.game), s.hubs, sp, seen, n);
    assert Covers(Tape(s', sp.game), s'.hubs, s'.spectators[x], seen, n);
  }

  lemma KeptOnUpstream(s: State, up: Relays.Step, x: nat, n: nat)
    requires SpectatorOk(s, x, n) && Enabled(s, Upstream(up)) && x in s.spectators
    requires |Tape(Do(s, Upstream(up)), s.spectators[x].game)| <= n
    ensures SpectatorOk(Do(s, Upstream(up)), x, n)
  {
    var s', sp := Do(s, Upstream(up)), s.spectators[x];
    var seen: nat :| Covers(Tape(s, sp.game), s.hubs, sp, seen, n);
    TapeGrows(s, Upstream(up), sp.game);
    CoversGrows(Tape(s, sp.game), Tape(s', sp.game), s.hubs, sp, seen, n);
    assert Covers(Tape(s', sp.game), s'.hubs, s'.spectators[x], seen, n);
  }

  lemma SpectatorKept(s: State, step: Step, x: nat, n: nat)
    requires Inv(s) && Enabled(s, step) && x in s.spectators && SpectatorOk(s, x, n)
    requires NearlySorted(Tape(s, s.spectators[x].game), n) && |Tape(Do(s, step), s.spectators[x].game)| <= n
    ensures SpectatorOk(Do(s, step), x, n)
  {
    if step.Connect? || step.HubBroadcast? {
      assert FeedOk(s, step.hub);
    }
    match step
    case Upstream(up) => KeptOnUpstream(s, up, x, n);
    case HubUp(h, g, preloaded) => KeptOnHubUp(s, h, g, preloaded, x, n);
    case HubRead(h) => KeptOnRead(s, h, x, n);
    case HubBroadcast(h, dropped) => KeptOnBroadcast(s, h, dropped, x, n);
    case HubDown(h) => KeptOnHubDown(s, h, x, n);
    case Connect(y, h) => if y == x { KeptOnConnect(s, x, h, n); } else { KeptElsewhere(s, step, x, n); }
    case Deliver(y) => if y == x { KeptOnDeliver(s, x, n); } else { KeptElsewhere(s, step, x, n); }
    case Disconnect(y) => if y == x { KeptOnDisconnect(s, x, n); } else { KeptElsewhere(s, step, x, n); }
  }

  lemma StepKeeps(s: State, step: Step)
    requires Inv(s) && Enabled(s, step)
    ensures Inv(Do(s, step))
  {
    if step.Upstream? {
      Relays.StepKeeps(s.store, step.step);
    }
    forall h ensures FeedOk(Do(s, step), h) { FeedKept(s, step, h); }
  }

  /** A client goes on watching the same game. */
  lemma SameGame(s: State, step: Step, x: nat)
    requires Enabled(s, step) && x in s.spectators
    ensures x in Do(s, step).spectators && Do(s, step).spectators[x].game == s.spectators[x].game
  {}

  // ---- End to end ----

  /** The steps lead from `s` to `s'`. */
  ghost predicate Leads(s: State, steps: seq<Step>, s': State)
    decreases steps
  {
    if steps == [] then s == s' else Enabled(s, steps[0]) && Leads(Do(s, steps[0]), steps[1..], s')
  }

  lemma {:induction false} LeadsSnoc(s: State, steps: seq<Step>, s': State, step: Step)
    requires Leads(s, steps, s') && Enabled(s', step)
    ensures Leads(s, steps + [step], Do(s', step))
    decreases steps
  {
    var all := steps + [step];
    if steps == [] {
      assert all[1..] == [];
    } else {
      assert all[1..] == steps[1..] + [step] && all[0] == steps[0];
      LeadsSnoc(Do(s, steps[0]), steps[1..], s', step);
    }
  }

  lemma NearlySortedPrefix(tape: seq<Delta>, tape': seq<Delta>, n: nat)
    requires tape <= tape' && NearlySorted(tape', n)
    ensures NearlySorted(tape, n)
  {
    var front := if |tape'| == n > 0 then tape'[..n - 1] else tape';
    if |tape| == n {
      assert tape == tape';
    } else {
      assert tape == front[..|tape|];
    }
  }

  /** Since streams only grow, ids that sort as text at the end did so all along. */
  lemma {:induction false} SortedAllAlong(s: State, steps: seq<Step>, s': State, g: string, n: nat)
    requires Leads(s, steps, s') && NearlySorted(Tape(s', g), n)
    ensures NearlySorted(Tape(s, g), n) && Tape(s, g) <= Tape(s', g)
    decreases steps
  {
    if steps != [] {
      SortedAllAlong(Do(s, steps[0]), steps[1..], s', g, n);
      TapeGrows(s, steps[0], g);
      NearlySortedPrefix(Tape(s, g), Tape(Do(s, steps[0]), g), n);
    }
  }

  lemma {:induction false} RunKeeps(s: State, steps: seq<Step>, s': State)
    requires Inv(s) && Leads(s, steps, s')
    ensures Inv(s')
    decreases steps
  {
    if steps != [] {
      StepKeeps(s, steps[0]);
      RunKeeps(Do(s, steps[0]), steps[1..], s');
    }
  }

  lemma {:induction false} SpectatorRun(s: State, steps: seq<Step>, s': State, x: nat, n: nat)
    requires Inv(s) && Leads(s, steps, s') && x in s.spectators && SpectatorOk(s, x, n)
    requires NearlySorted(Tape(s', s.spectators[x].game), n)
    ensures x in s'.spectators && s'.spectators[x].game == s.spectators[x].game && SpectatorOk(s', x, n)
    decreases steps
  {
    if steps != [] {
      var g := s.spectators[x].game;
      SortedAllAlong(s, steps, s', g, n);
      SortedAllAlong(Do(s, steps[0]), steps[1..], s', g, n);
      SameGame(s, steps[0], x);
      SpectatorKept(s, steps[0], x, n);
      StepKeeps(s, steps[0]);
      SpectatorRun(Do(s, steps[0]), steps[1..], s', x, n);
    }
  }

  lemma {:induction false} SpectatorsRemain(s: State, steps: seq<Step>, s': State, x: nat)
    requires Leads(s, steps, s') && x in s'.spectators
    ensures x in s.spectators && s.spectators[x].game == s'.spectators[x].game
    decreases steps
  {
    if steps != [] {
      SpectatorsRemain(Do(s, steps[0]), steps[1..], s', x);
    }
  }

  lemma InitialOk(s: State, n: nat)
    requires Initial(s)
    ensures Inv(s) && forall x :: x in s.spectators ==> SpectatorOk(s, x, n)
  {
    Relays.EmptyOk();
    forall x | x in s.spectators ensures SpectatorOk(s, x, n) {
      assert Covers(Tape(s, s.spectators[x].game), s.hubs, s.spectators[x], 0, n);
    }
  }

  /** In every reachable state, hubs follow their streams, and a spectator whose game's ids sort as
      text has a sound view. */
  lemma {:induction false} ReachableOk(s0: State, steps: seq<Step>, s: State, x: nat, n: nat)
    requires Initial(s0) && Leads(s0, steps, s) && x in s.spectators && NearlySorted(Tape(s, s.spectators[x].game), n)
    ensures Inv(s) && SpectatorOk(s, x, n)
  {
    InitialOk(s0, n);
    RunKeeps(s0, steps, s);
    SpectatorsRemain(s0, steps, s, x);
    SpectatorRun(s0, steps, s, x, n);
  }

  /** All entries of a stream but the last. */
  function ButLast(entries: seq<Entry>): seq<Entry> { if entries == [] then [] else entries[..|entries| - 1] }

  lemma DigitsSort(entries: seq<Entry>)
    requires Increasing(entries)
    ensures DigitsSorted(ButLast(entries)) ==> NearlySorted(Deltas(entries), |entries|)
    ensures DigitsSorted(entries) ==> NearlySorted(Deltas(entries), |entries| + 1)
  {
    SortedIffDigits(entries);
    SortedIffDigits(ButLast(entries));
    assert |entries| > 0 ==> Deltas(ButLast(entries)) == Deltas(entries)[..|entries| - 1];
  }

  /** In a reachable state, entries whose digits agree sort as text. */
  lemma {:induction false} ReachableSorted(s0: State, steps: seq<Step>, s: State, g: string)
    requires Initial(s0) && Leads(s0, steps, s)
    ensures DigitsSorted(ButLast(Stream(s, g))) ==> NearlySorted(Tape(s, g), |Stream(s, g)|)
    ensures DigitsSorted(Stream(s, g)) ==> NearlySorted(Tape(s, g), |Stream(s, g)| + 1)
  {
    InitialOk(s0, 0);
    RunKeeps(s0, steps, s);
    assert Relays.GameOk(s.store, g);
    DigitsSort(Stream(s, g));
  }

  /** Over every interleaving of commits, relay cycles that fail or crash, hub reads, drops and
      reconnects, what a spectator has received, repeated plies dropped, is a prefix of the moves
      committed in its game, provided that the digits of this game's stream ids agree, the last
      one's aside. A failed history preload does not endanger this. */
  lemma {:induction false} SpectatorSeesPrefix(s0: State, steps: seq<Step>, s: State, x: nat)
    requires Initial(s0) && Leads(s0, steps, s) && x in s.spectators
    requires DigitsSorted(ButLast(Stream(s, s.spectators[x].game)))
    ensures SeesPrefix(s, x)
  {
    var g := s.spectators[x].game;
    ReachableSorted(s0, steps, s, g);
    ReachableOk(s0, steps, s, x, |Stream(s, g)|);
    var seen: nat :| Covers(Tape(s, g), s.hubs, s.spectators[x], seen, |Stream(s, g)|);
    Relays.DedupGrows(Tape(s, g), seen);
    assert Relays.GameOk(s.store, g);
    Relays.PrefixTrans(Relays.Dedup(Tape(s, g)[..seen]), Relays.Dedup(Tape(s, g)),
                       Relays.ShownAll(Relays.Committed(s.store, g)));
  }

  /** What the spectator has received, repeated plies dropped, is a prefix of the committed moves. */
  ghost predicate SeesPrefix(s: State, x: nat)
    requires x in s.spectators
  {
    Relays.Dedup(s.spectators[x].received) <= Relays.ShownAll(Relays.Committed(s.store, s.spectators[x].game))
  }

  /** And nothing is lost: once every outbox row of the game is published, the hub has read the
      stream to its end and the spectator has received what was sent, it has every move. */
  lemma {:induction false} SpectatorSeesAll(s0: State, steps: seq<Step>, s: State, x: nat)
    requires Initial(s0) && Leads(s0, steps, s) && x in s.spectators
    requires DigitsSorted(Stream(s, s.spectators[x].game))
    requires var sp := s.spectators[x];
      && sp.conn.Some? && sp.conn.value.attached && sp.conn.value.pending == []
      && (sp.conn.value.hub in s.hubs ==> |s.hubs[sp.conn.value.hub].history| == |Tape(s, sp.game)|)
      && (forall id :: id in s.store.outbox && s.store.outbox[id].game == sp.game ==> id in s.store.published)
    ensures Relays.Dedup(s.spectators[x].received) ==
      Relays.ShownAll(Relays.Committed(s.store, s.spectators[x].game))
  {
    SpectatorSeesPrefix(s0, steps, s, x);
    AllSeen(s0, steps, s, x);
    AllPublishedReached(s.store, s.spectators[x].game);
  }

  lemma {:induction false} AllSeen(s0: State, steps: seq<Step>, s: State, x: nat)
    requires Initial(s0) && Leads(s0, steps, s) && x in s.spectators
    requires DigitsSorted(Stream(s, s.spectators[x].game))
    requires var sp := s.spectators[x];
      && sp.conn.Some? && sp.conn.value.attached && sp.conn.value.pending == []
      && (sp.conn.value.hub in s.hubs ==> |s.hubs[sp.conn.value.hub].history| == |Tape(s, sp.game)|)
    ensures Inv(s) && Relays.Dedup(s.spectators[x].received) == Relays.Dedup(Tape(s, s.spectators[x].game))
  {
    var sp := s.spectators[x];
    var n := |Stream(s, sp.game)| + 1;
    ReachableSorted(s0, steps, s, sp.game);
    ReachableOk(s0, steps, s, x, n);
    var seen: nat :| Covers(Tape(s, sp.game), s.hubs, sp, seen, n);
    SeenToEnd(Tape(s, sp.game), s.hubs, sp, seen, n);
    assert Tape(s, sp.game)[..seen] == Tape(s, sp.game);
  }

  lemma SeenToEnd(tape: seq<Delta>, hubs: map<nat, Feed>, sp: Spectator, seen: nat, n: nat)
    requires Covers(tape, hubs, sp, seen, n) && |tape| < n
    requires sp.conn.Some? && sp.conn.value.attached && sp.conn.value.pending == []
    requires sp.conn.value.hub in hubs ==> |hubs[sp.conn.value.hub].history| == |tape|
    ensures seen == |tape|
  {}

  lemma AllPublishedReached(store: Relays.Store, g: string)
    requires Relays.Inv(store)
    requires forall id :: id in store.outbox && store.outbox[id].game == g ==> id in store.published
    ensures Relays.Reached(store, g) >= |Relays.Committed(store, g)|
  {
    var all := Relays.Committed(store, g);
    assert Relays.GameOk(store, g);
    if all != [] {
      var n := |all| - 1;
      assert all[n].ply == n + 1;
      var id :| Relays.RowFor(store, g, n, id);
      assert Relays.PublishedOk(store, id);
    }
  }

  /** Streams whose ids keep their digit counts satisfy the condition. */
  lemma {:induction false} SameWidthsSort(s0: State, steps: seq<Step>, s: State, g: string)
    requires Initial(s0) && Leads(s0, steps, s)
    requires forall i, j :: 0 <= i < j < |Stream(s, g)| ==> SameWidths(Stream(s, g)[i].id, Stream(s, g)[j].id)
    ensures DigitsSorted(Stream(s, g))
  {
    InitialOk(s0, 0);
    RunKeeps(s0, steps, s);
    assert Relays.GameOk(s.store, g);
    var entries := Stream(s, g);
    forall i, j | 0 <= i < j < |entries| ensures DigitsAgree(entries[i].id, entries[j].id) {
      SameWidthsAgree(entries[i].id, entries[j].id);
    }
  }
}
