/** One game's hub: its history, its subscribers, and the handover from backlog to live moves. */
module Hubs {
  import opened StreamIds
  import opened EventLog

  const SEND_BUFFER: nat := 256

  /** One move as sent to a spectator. */
  datatype Delta = Delta(
    id: string,
    ply: int,
    uci: string,
    fen: string,
    status: string,
    endReason: string,
    ended: bool)

  function DeltaFrom(e: Entry): Delta {
    Delta(IdText(e.id), e.event.ply, e.event.uci, e.event.fenAfter, e.event.status, e.event.endReason, e.event.ended)
  }

  function Deltas(entries: seq<Entry>): seq<Delta> {
    seq(|entries|, i requires 0 <= i < |entries| => DeltaFrom(entries[i]))
  }

  lemma DeltasSnoc(entries: seq<Entry>, x: Entry)
    ensures Deltas(entries + [x]) == Deltas(entries) + [DeltaFrom(x)]
  {}

  /** The deltas whose id sorts after `from` as text. */
  function Newer(history: seq<Delta>, from: string): seq<Delta> {
    if history == [] then []
    else (if TextLess(from, history[0].id) then [history[0]] else []) + Newer(history[1..], from)
  }

  /** What a client that has seen `from` is missing; everything when it has seen nothing. */
  function Missing(history: seq<Delta>, from: string): seq<Delta> {
    if from == "" then history else Newer(history, from)
  }

  lemma {:induction false} NewerSnoc(history: seq<Delta>, d: Delta, from: string)
    ensures Newer(history + [d], from) == Newer(history, from) + if TextLess(from, d.id) then [d] else []
  {
    var all := history + [d];
    if history != [] {
      NewerSnoc(history[1..], d, from);
      assert all[1..] == history[1..] + [d];
    }
  }

  method FilterAfter(history: seq<Delta>, from: string) returns (out: seq<Delta>)
    ensures out == Missing(history, from)
  {
    if from == "" {
      return history;
    }
    out := [];
    for i := 0 to |history|
      invariant out == Newer(history[..i], from)
    {
      assert history[..i + 1] == history[..i] + [history[i]];
      NewerSnoc(history[..i], history[i], from);
      if TextLess(from, history[i].id) {
        out := out + [history[i]];
      }
    }
    assert history[..|history|] == history;
  }

  // ---- When the text filter resumes exactly ----

  /** The history's ids sort as text in the order of the stream. */
  ghost predicate SortedAsText(history: seq<Delta>) {
    forall i, j :: 0 <= i < j < |history| ==> TextLess(history[i].id, history[j].id)
  }

  lemma {:induction false} NewerAll(history: seq<Delta>, from: string)
    requires forall i :: 0 <= i < |history| ==> TextLess(from, history[i].id)
    ensures Newer(history, from) == history
  {
    if history != [] {
      NewerAll(history[1..], from);
    }
  }

  lemma {:induction false} NewerNone(history: seq<Delta>, from: string)
    requires forall i :: 0 <= i < |history| ==> !TextLess(from, history[i].id)
    ensures Newer(history, from) == []
  {
    if history != [] {
      NewerNone(history[1..], from);
    }
  }

  lemma {:induction false} NewerSplit(a: seq<Delta>, b: seq<Delta>, from: string)
    ensures Newer(a + b, from) == Newer(a, from) + Newer(b, from)
  {
    var all := a + b;
    if a == [] {
      assert all == b;
    } else {
      NewerSplit(a[1..], b, from);
      assert all[0] == a[0] && all[1..] == a[1..] + b;
      var head := if TextLess(from, a[0].id) then [a[0]] else [];
      assert head + (Newer(a[1..], from) + Newer(b, from)) == (head + Newer(a[1..], from)) + Newer(b, from);
    }
  }

  /** What the filter keeps sorts after `from`; if it keeps nothing, nothing does. */
  lemma {:induction false} NewerSound(history: seq<Delta>, from: string)
    ensures forall i :: 0 <= i < |Newer(history, from)| ==> TextLess(from, Newer(history, from)[i].id)
    ensures Newer(history, from) == [] ==> forall i :: 0 <= i < |history| ==> !TextLess(from, history[i].id)
  {
    if history != [] {
      NewerSound(history[1..], from);
    }
  }

  /** When resuming from the k-th delta is exact: what follows it sorts after it as text, and
      nothing before it does. */
  ghost predicate SortsAround(history: seq<Delta>, k: nat)
    requires k < |history|
  {
    && (forall j :: k < j < |history| ==> TextLess(history[k].id, history[j].id))
    && (forall j :: 0 <= j < k ==> !TextLess(history[k].id, history[j].id))
  }

  lemma {:induction false} NewerParts(history: seq<Delta>, k: nat, from: string)
    requires k < |history|
    ensures Newer(history, from) == Newer(history[..k + 1], from) + Newer(history[k + 1..], from)
  {
    assert history == history[..k + 1] + history[k + 1..];
    NewerSplit(history[..k + 1], history[k + 1..], from);
  }

  lemma {:induction false} SortedAroundResumes(history: seq<Delta>, k: nat)
    requires k < |history| && SortsAround(history, k)
    ensures Newer(history, history[k].id) == history[k + 1..]
  {
    var from, seen, rest := history[k].id, history[..k + 1], history[k + 1..];
    TextLessAsym(from, from);
    forall j | 0 <= j < |seen| ensures !TextLess(from, seen[j].id) {}
    NewerNone(seen, from);
    NewerAll(rest, from);
    NewerParts(history, k, from);
  }

  lemma {:induction false} AllLater(history: seq<Delta>, k: nat)
    requires k < |history| && Newer(history, history[k].id) == history[k + 1..]
    ensures forall j :: k < j < |history| ==> TextLess(history[k].id, history[j].id)
  {
    NewerSound(history, history[k].id);
    forall j | k < j < |history| ensures TextLess(history[k].id, history[j].id) {
      assert Newer(history, history[k].id)[j - k - 1] == history[j];
    }
  }

  lemma {:induction false} NoneEarlier(history: seq<Delta>, k: nat)
    requires k < |history| && Newer(history, history[k].id) == history[k + 1..]
    ensures forall j :: 0 <= j < k ==> !TextLess(history[k].id, history[j].id)
  {
    var from, seen, rest := history[k].id, history[..k + 1], history[k + 1..];
    AllLater(history, k);
    NewerAll(rest, from);
    NewerParts(history, k, from);
    assert |Newer(seen, from) + rest| == |Newer(seen, from)| + |rest|;
    NewerSound(seen, from);
    forall j | 0 <= j < k ensures !TextLess(from, history[j].id) { assert seen[j] == history[j]; }
  }

  lemma {:induction false} ResumeExactAt(history: seq<Delta>, k: nat)
    requires k < |history|
    ensures Newer(history, history[k].id) == history[k + 1..] <==> SortsAround(history, k)
  {
    if SortsAround(history, k) {
      SortedAroundResumes(history, k);
    }
    if Newer(history, history[k].id) == history[k + 1..] {
      AllLater(history, k);
      NoneEarlier(history, k);
    }
  }

  /** Resuming from the k-th delta of a history sorted as text gives exactly what follows it. */
  lemma {:induction false} ResumeExact(history: seq<Delta>, k: nat)
    requires k < |history| && SortedAsText(history)
    ensures Newer(history, history[k].id) == history[k + 1..]
  {
    ResumeExactAt(history, k);
    forall j | 0 <= j < k ensures !TextLess(history[k].id, history[j].id) {
      TextLessAsym(history[j].id, history[k].id);
    }
  }

  /** Every client resumes exactly if and only if the ids sort as text in history order. */
  lemma {:induction false} ResumeExactIff(history: seq<Delta>)
    ensures (forall k :: 0 <= k < |history| ==> Newer(history, history[k].id) == history[k + 1..])
            <==> SortedAsText(history)
  {
    if SortedAsText(history) {
      forall k | 0 <= k < |history| ensures Newer(history, history[k].id) == history[k + 1..]
      {
        ResumeExact(history, k);
      }
    } else {
      var i, j :| 0 <= i < j < |history| && !TextLess(history[i].id, history[j].id);
      ResumeExactAt(history, i);
      assert !SortsAround(history, i);
    }
  }

  /** The digit condition holds between any two entries. */
  ghost predicate DigitsSorted(entries: seq<Entry>) {
    forall i, j :: 0 <= i < j < |entries| ==> DigitsAgree(entries[i].id, entries[j].id)
  }

  lemma SortedIffDigits(entries: seq<Entry>)
    requires Increasing(entries)
    ensures SortedAsText(Deltas(entries)) <==> DigitsSorted(entries)
  {
    var ds := Deltas(entries);
    forall i, j | 0 <= i < j < |entries|
      ensures TextLess(ds[i].id, ds[j].id) <==> DigitsAgree(entries[i].id, entries[j].id)
    {
      TextOrderExact(entries[i].id, entries[j].id);
    }
  }

  /** Over a whole stream: every client resumes exactly if and only if the digits of its ids agree. */
  lemma StreamResumesIff(entries: seq<Entry>)
    requires Increasing(entries)
    ensures (forall k :: 0 <= k < |entries| ==>
        Missing(Deltas(entries), IdText(entries[k].id)) == Deltas(entries)[k + 1..])
            <==> DigitsSorted(entries)
  {
    var ds := Deltas(entries);
    SortedIffDigits(entries);
    ResumeExactIff(ds);
    forall k | 0 <= k < |entries| ensures Missing(ds, IdText(entries[k].id)) == Newer(ds, ds[k].id) {
      assert |IdText(entries[k].id)| > 0;
    }
    assert forall k :: 0 <= k < |ds| ==> Missing(ds, IdText(entries[k].id)) == Newer(ds, ds[k].id);
  }

  /** A client further along than the history misses nothing of it. */
  lemma {:induction false} ResumeAhead(history: seq<Delta>, from: string)
    requires forall i :: 0 <= i < |history| ==> TextLess(history[i].id, from)
    ensures Newer(history, from) == []
  {
    forall i | 0 <= i < |history| ensures !TextLess(from, history[i].id) {
      TextLessAsym(history[i].id, from);
    }
    NewerNone(history, from);
  }

  /** The text filter can lose a move: in any millisecond, a client that saw the tenth entry is
      never sent the eleventh. */
  lemma ResumeLosesMove(ms: nat, a: Delta, b: Delta)
    requires a.id == IdText(StreamId(ms, 9)) && b.id == IdText(StreamId(ms, 10))
    ensures Missing([a, b], a.id) == [] != [b]
  {
    TextOrderFails(ms);
    TextLessAsym(b.id, a.id);
    TextLessAsym(a.id, a.id);
    NewerNone([a, b], a.id);
    assert |a.id| > 0;
  }

  // ---- The hub ----

  ghost predicate Following(history: seq<Delta>, at: nat, from: string, initial: seq<Delta>,
                            received: seq<Delta>, queue: seq<Delta>) {
    && at <= |history| && initial == Missing(history[..at], from)
    && |queue| <= SEND_BUFFER && received + queue == history[at..]
  }

  lemma FollowingFresh(history: seq<Delta>, from: string)
    ensures Following(history, |history|, from, Missing(history, from), [], [])
  {
    assert history[..|history|] == history;
  }

  lemma FollowingNext(history: seq<Delta>, at: nat, from: string, initial: seq<Delta>,
                      received: seq<Delta>, queue: seq<Delta>, d: Delta)
    requires Following(history, at, from, initial, received, queue) && |queue| < SEND_BUFFER
    ensures Following(history + [d], at, from, initial, received, queue + [d])
  {
    var after := history + [d];
    assert after[at..] == history[at..] + [d] && after[..at] == history[..at];
    assert received + (queue + [d]) == (received + queue) + [d];
  }

  /** One spectator's view: the backlog to send first, then the channel of live deltas. */
  class Sub {
    const from: string
    const initial: seq<Delta>
    var queue: seq<Delta>
    var kicked: bool
    ghost const at: nat
    ghost var received: seq<Delta>

    constructor (from: string, initial: seq<Delta>, ghost at: nat)
      ensures this.from == from && this.initial == initial && this.at == at
      ensures queue == [] && !kicked && received == []
    {
      this.from, this.initial, this.at := from, initial, at;
      queue, kicked, received := [], false, [];
    }

    /** The spectator's backlog is what it missed when it attached, and what it has taken off the
        channel and what is still on it are exactly what the hub has broadcast since. */
    ghost predicate Follows(history: seq<Delta>)
      reads this
    {
      Following(history, at, from, initial, received, queue)
    }

    /** Puts a delta on the channel, or kicks the subscriber when the channel is full. */
    method Offer(d: Delta) returns (ok: bool)
      modifies this`queue, this`kicked
      ensures ok <==> old(|queue|) < 256
      ensures ok ==> kicked == old(kicked) && queue == old(queue) + [d]
      ensures !ok ==> kicked && queue == old(queue)
    {
      ok := |queue| < SEND_BUFFER;
      if ok {
        queue := queue + [d];
      } else {
        kicked := true;
      }
    }

    /** Takes the oldest delta off the channel; whatever the subscriber followed, it still follows. */
    method Receive() returns (d: Delta)
      requires queue != []
      modifies this`queue, this`received
      ensures [d] + queue == old(queue) && received == old(received) + [d]
      ensures forall history :: old(Follows(history)) ==> Follows(history)
    {
      d := queue[0];
      received := received + [d];
      queue := queue[1..];
      assert received + queue == old(received) + old(queue);
    }
  }

  /** The hub has read the first entries of the stream, and stands right after them. */
  ghost predicate Tracks(entries: seq<Entry>, history: seq<Delta>, lastId: string) {
    history <= Deltas(entries) && lastId == Cursor(entries, |history|)
  }

  /** It stays so while the stream grows. */
  lemma TracksGrows(entries: seq<Entry>, entries': seq<Entry>, history: seq<Delta>, lastId: string)
    requires Tracks(entries, history, lastId) && entries <= entries'
    ensures Tracks(entries', history, lastId)
  {
    assert Deltas(entries) <= Deltas(entries');
  }

  /** Broadcasting the entry after the last one read. */
  lemma TracksNext(entries: seq<Entry>, history: seq<Delta>, lastId: string)
    requires Tracks(entries, history, lastId) && |history| < |entries|
    ensures Tracks(entries, history + [DeltaFrom(entries[|history|])], IdText(entries[|history|].id))
  {}

  class Hub {
    var history: seq<Delta>
    var subs: set<Sub>
    /** The spectator gauge this hub contributes to the metrics. */
    var gauge: int

    ghost predicate Valid()
      reads this, subs
    {
      && gauge == |subs|
      && forall s :: s in subs ==> !s.kicked && s.Follows(history)
    }

    constructor ()
      ensures Valid() && history == [] && subs == {}
    {
      history, subs, gauge := [], {}, 0;
    }

    /** Preloads the entries replayed from the stream; a failed replay leaves the history empty.
        Returns the id to tail from, which either way is right after what was loaded. */
    method LoadHistory(entries: seq<Entry>, replayOk: bool) returns (startId: string)
      requires Valid() && history == [] && subs == {}
      modifies this
      ensures Valid() && subs == {}
      ensures history == (if replayOk then Deltas(entries) else []) && Tracks(entries, history, startId)
    {
      startId := "0";
      if !replayOk {
        return;
      }
      for i := 0 to |entries|
        invariant subs == {} && gauge == 0 && |history| == i && Tracks(entries, history, startId)
      {
        TracksNext(entries, history, startId);
        history := history + [DeltaFrom(entries[i])];
        startId := IdText(entries[i].id);
      }
    }

    /** One round of the tailing loop: reads a batch after `lastId` and broadcasts it entry by entry.
        Afterwards the hub has read up to 128 entries more, without gap or repetition, and whoever had
        room for them is still attached. */
    method Tail(entries: seq<Entry>, lastId: string) returns (next: string)
      requires Valid() && Increasing(entries) && Tracks(entries, history, lastId)
      modifies this, subs`queue, subs`kicked
      ensures Valid() && subs <= old(subs) && Tracks(entries, history, next)
      ensures |history| == if old(|history|) + READ_COUNT <= |entries| then old(|history|) + READ_COUNT else |entries|
      ensures forall s :: s in old(subs) && old(|s.queue|) + 128 <= 256 ==> s in subs
    {
      var batch := ReadAfter(entries, lastId);
      ghost var n, all := |history|, subs;
      ReadNext(entries, n);
      next := lastId;
      for i := 0 to |batch|
        invariant Valid() && subs <= all && Tracks(entries, history, next) && |history| == n + i
        invariant forall s :: s in subs ==> |s.queue| <= old(|s.queue|) + i
        invariant forall s :: s in all && old(|s.queue|) + i <= SEND_BUFFER ==> s in subs
        modifies this, all`queue, all`kicked
      {
        assert batch[i] == entries[n + i];
        next := TailOne(entries, next, batch[i]);
      }
    }

    method TailOne(ghost entries: seq<Entry>, ghost lastId: string, e: Entry) returns (next: string)
      requires Valid() && Tracks(entries, history, lastId) && |history| < |entries| && e == entries[|history|]
      modifies this, subs`queue, subs`kicked
      ensures Valid() && subs <= old(subs) && Tracks(entries, history, next) && |history| == old(|history|) + 1
      ensures forall s :: s in old(subs) && old(|s.queue|) < SEND_BUFFER ==> s in subs
      ensures forall s :: s in subs ==> |s.queue| == old(|s.queue|) + 1
    {
      TracksNext(entries, history, lastId);
      Broadcast(DeltaFrom(e));
      next := IdText(e.id);
    }

    method Attach(from: string) returns (s: Sub)
      requires Valid()
      modifies this
      ensures Valid() && fresh(s) && s in subs && subs == old(subs) + {s} && history == old(history)
      ensures s.from == from && s.at == |history| && s.initial == Missing(history, from)
    {
      var initial := FilterAfter(history, from);
      FollowingFresh(history, from);
      s := new Sub(from, initial, |history|);
      assert s.Follows(history) && s !in subs;
      subs := subs + {s};
      gauge := gauge + 1;
    }

    /** Removes a subscriber, if it is still attached, and reports whether the hub is now empty. */
    method Detach(s: Sub) returns (empty: bool)
      requires Valid()
      modifies this
      ensures Valid() && subs == old(subs) - {s} && history == old(history)
      ensures empty <==> subs == {}
    {
      if s in subs {
        subs := subs - {s};
        gauge := gauge - 1;
      }
      empty := subs == {};
    }

    /** Offers a delta to every subscriber; those whose buffer is full are dropped. */
    method OfferAll(d: Delta)
      requires gauge == |subs| && forall s :: s in subs ==> !s.kicked
      modifies this`subs, this`gauge, subs`queue, subs`kicked
      ensures gauge == |subs| && subs <= old(subs)
      ensures forall s :: s in old(subs) ==> (s in subs <==> old(|s.queue|) < SEND_BUFFER)
      ensures forall s :: s in subs ==> !s.kicked && s.queue == old(s.queue) + [d]
      ensures forall s :: s in old(subs) && s !in subs ==> s.kicked && s.queue == old(s.queue)
    {
      var todo := subs;
      ghost var all := subs;
      while todo != {}
        invariant todo <= subs <= all && gauge == |subs|
        invariant forall s :: s in todo ==> !s.kicked && s.queue == old(s.queue)
        invariant forall s :: s in all && s !in todo ==> (s in subs <==> old(|s.queue|) < SEND_BUFFER)
        invariant forall s :: s in subs && s !in todo ==> !s.kicked && s.queue == old(s.queue) + [d]
        invariant forall s :: s in all && s !in subs ==> s.kicked && s.queue == old(s.queue)
        modifies this`subs, this`gauge, all`queue, all`kicked
        decreases todo
      {
        var s :| s in todo;
        todo := todo - {s};
        var ok := s.Offer(d);
        if !ok {
          subs := subs - {s};
          gauge := gauge - 1;
        }
      }
    }

    /** Appends a delta to the history and delivers it: afterwards every remaining subscriber has
        it on its channel, and those dropped were exactly the ones with a full buffer. */
    method Broadcast(d: Delta)
      requires Valid()
      modifies this, subs`queue, subs`kicked
      ensures Valid() && history == old(history) + [d] && subs <= old(subs)
      ensures forall s :: s in old(subs) ==> (s in subs <==> old(|s.queue|) < SEND_BUFFER)
      ensures forall s :: s in subs ==> s.queue == old(s.queue) + [d]
      ensures forall s :: s in old(subs) && s !in subs ==> s.kicked && s.queue == old(s.queue)
    {
      ghost var before := history;
      history := history + [d];
      OfferAll(d);
      forall s | s in subs ensures s.Follows(history) {
        FollowingNext(before, s.at, s.from, s.initial, s.received, old(s.queue), d);
      }
    }
  }

  /** Everything sent to the subscriber or waiting for it. */
  ghost function Sent(s: Sub): seq<Delta>
    reads s
  {
    s.initial + (s.received + s.queue)
  }

  /** A client that resumes from an entry is sent exactly the history after it, with no gap,
      duplicate or reordering, if and only if the hub already had that entry when the client
      attached; otherwise it is sent everything the hub has broadcast since, seen or not. */
  lemma HandoverExact(s: Sub, history: seq<Delta>, k: nat)
    requires s.Follows(history) && SortedAsText(history)
    requires k < |history| && s.from == history[k].id && s.from != ""
    ensures Sent(s) == history[if k < s.at then k + 1 else s.at..]
    ensures Sent(s) == history[k + 1..] <==> k < s.at
  {
    var seen := history[..s.at];
    if k < s.at {
      ResumeExact(seen, k);
      assert seen[k + 1..] + history[s.at..] == history[k + 1..];
    } else {
      ResumeAhead(seen, s.from);
      assert Sent(s) == history[s.at..];
    }
  }

  /** A client that attached before the hub had read anything is sent the whole history, whatever it
      had seen. */
  lemma HandoverRepeats(s: Sub, history: seq<Delta>)
    requires s.Follows(history) && s.at == 0
    ensures Sent(s) == history
  {
    assert Missing(history[..0], s.from) == [];
  }

  /** After a failed preload, a client that had seen the k-th entry is sent the stream from its first
      entry again. */
  method ResumeAfterFailedPreload(entries: seq<Entry>, k: nat) returns (hub: Hub, s: Sub)
    requires Increasing(entries) && k < |entries| <= READ_COUNT
    ensures s.from == IdText(entries[k].id) && s in hub.subs && Sent(s) == Deltas(entries)
  {
    hub := new Hub();
    var startId := hub.LoadHistory(entries, false);
    s := hub.Attach(IdText(entries[k].id));
    var lastId := hub.Tail(entries, startId);
    HandoverRepeats(s, hub.history);
  }

  lemma HandoverFresh(s: Sub, history: seq<Delta>)
    requires s.Follows(history) && s.from == ""
    ensures Sent(s) == history
  {}
}
