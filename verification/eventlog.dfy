/** Move events, their stream encoding, and the entries of a game's stream. */
module EventLog {
  import opened Board
  import opened Text
  import opened StreamIds

  datatype MoveEvent = MoveEvent(
    game: string,
    ply: int,
    uci: string,
    fenAfter: string,
    status: string,
    endReason: string,
    ended: bool)

  /** An event as stored in the stream. */
  datatype Entry = Entry(id: StreamId, event: MoveEvent)

  function FormatBool(b: bool): string { if b then "true" else "false" }

  /** `strconv.ParseBool`, with its errors read as false. */
  predicate ParseBool(s: string) {
    s in {"1", "t", "T", "TRUE", "true", "True"}
  }

  function Encode(e: MoveEvent): map<string, string>
    requires e.ply >= 0
  {
    map[
      "game_id" := e.game,
      "ply" := Itoa(e.ply),
      "uci" := e.uci,
      "fen_after" := e.fenAfter,
      "status" := e.status,
      "end_reason" := e.endReason,
      "ended" := FormatBool(e.ended)]
  }

  function Lookup(m: map<string, string>, k: string): string {
    if k in m then m[k] else ""
  }

  /** Only a bad ply fails; the other fields default to their zero values. */
  function Decode(m: map<string, string>): Option<MoveEvent> {
    match Atoi(Lookup(m, "ply"))
    case None => None
    case Some(ply) =>
      Some(MoveEvent(Lookup(m, "game_id"), ply, Lookup(m, "uci"), Lookup(m, "fen_after"),
                     Lookup(m, "status"), Lookup(m, "end_reason"), ParseBool(Lookup(m, "ended"))))
  }

  lemma EncodedFields(e: MoveEvent)
    requires e.ply >= 0
    ensures var m := Encode(e);
      && Lookup(m, "game_id") == e.game && Lookup(m, "ply") == Itoa(e.ply) && Lookup(m, "uci") == e.uci
      && Lookup(m, "fen_after") == e.fenAfter && Lookup(m, "status") == e.status
      && Lookup(m, "end_reason") == e.endReason && Lookup(m, "ended") == FormatBool(e.ended)
  {}

  /** Every event the relay writes decodes to itself, so no entry of its own is ever skipped. */
  lemma EventRoundTrip(e: MoveEvent)
    requires 0 <= e.ply <= MAX_INT
    ensures Decode(Encode(e)) == Some(e)
  {
    EncodedFields(e);
    AtoiOfItoa(e.ply);
    assert "false" !in {"1", "t", "T", "TRUE", "true", "True"} by { assert "false"[0] == 'f' != "true"[0]; }
  }

  // ---- Reading a stream ----

  const READ_COUNT: nat := 128

  /** Ids grow along a stream and are all above zero. */
  ghost predicate Increasing(entries: seq<Entry>) {
    && (forall i, j :: 0 <= i < j < |entries| ==> IdLess(entries[i].id, entries[j].id))
    && (forall i :: 0 <= i < |entries| ==> IdLess(ZERO, entries[i].id))
  }

  /** The id the next entry must exceed. */
  function LastOf(entries: seq<Entry>): StreamId {
    if entries == [] then ZERO else entries[|entries| - 1].id
  }

  lemma IncreasingNext(entries: seq<Entry>, x: Entry)
    requires Increasing(entries) && IdLess(LastOf(entries), x.id)
    ensures Increasing(entries + [x])
  {
    var all, n := entries + [x], |entries|;
    forall i, j | 0 <= i < j < |all| ensures IdLess(all[i].id, all[j].id) {
      assert i < n - 1 && j == n ==> IdLess(entries[i].id, entries[n - 1].id);
    }
  }

  function EntriesAfter(entries: seq<Entry>, id: StreamId): seq<Entry> {
    if entries == [] then []
    else (if IdLess(id, entries[0].id) then [entries[0]] else []) + EntriesAfter(entries[1..], id)
  }

  /** What one read after `lastId` returns: the first entries with a larger id, up to the count.
      An empty `lastId` asks only for entries yet to come. */
  function ReadAfter(entries: seq<Entry>, lastId: string): seq<Entry> {
    match ParseId(lastId)
    case None => []
    case Some(id) =>
      var found := EntriesAfter(entries, id);
      if |found| <= READ_COUNT then found else found[..READ_COUNT]
  }

  lemma {:induction false} AfterFrom(entries: seq<Entry>, id: StreamId, n: nat)
    requires n <= |entries|
    requires forall i :: 0 <= i < |entries| ==> (IdLess(id, entries[i].id) <==> n <= i)
    ensures EntriesAfter(entries, id) == entries[n..]
  {
    if entries != [] {
      var k := if n == 0 then 0 else n - 1;
      AfterFrom(entries[1..], id, k);
    }
  }

  /** Where a reader stands that has read the first `n` entries. */
  function Cursor(entries: seq<Entry>, n: nat): string
    requires n <= |entries|
  {
    if n == 0 then "0" else IdText(entries[n - 1].id)
  }

  /** Reading from there gives exactly the entries that follow. */
  lemma ReadNext(entries: seq<Entry>, n: nat)
    requires Increasing(entries) && n <= |entries|
    ensures ReadAfter(entries, Cursor(entries, n)) ==
      entries[n..if n + READ_COUNT <= |entries| then n + READ_COUNT else |entries|]
  {
    var id := if n == 0 then ZERO else entries[n - 1].id;
    if n == 0 {
      ZeroText();
    } else {
      IdRoundTrip(id);
    }
    AfterFrom(entries, id, n);
  }
}
