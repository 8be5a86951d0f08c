/** Following the stream from a client (athanore/cli/inspect.py): reconnected, from the
    last stored id, whenever a connection ends. */
module Follow {
  import opened Base
  import opened Json
  import opened Bus
  import opened Feed
  import opened SseText

  // How an envelope becomes the text of a `data:` line, and back.
  datatype Codec = Codec(encode: Json -> string, decode: Decoder)

  // What was written reads back as it was, on one line. `json.dumps` and `json.loads` do not
  // give this of every value: a number loses digits, a repeated key all but one of its
  // values, and a line separator that is not escaped breaks the line.
  predicate Readable(c: Codec, j: Json) {
    c.decode(c.encode(j)) == Some(j) && Unbroken(c.encode(j))
  }

  const RESYNC := "resync"

  function Text(s: Option<string>): Json {
    if s.Some? then JStr(s.value) else JNull
  }

  function Envelope(e: Event): Json {
    JDict([("id", if e.id.Some? then JInt(e.id.value) else JNull), ("run_id", Text(e.run)), ("name", JStr(e.name)),
        ("data", e.data)])
  }

  function Why(reason: ResyncReason): Json {
    JDict([("reason", JStr(if reason == ReplayCapped then "replay_capped" else "overflowed"))])
  }

  // The frame as the server writes it. A resync carries no id.
  function ItemOf(c: Codec, f: Frame): Item {
    match f
    case Data(e) => Message(e.id, e.name, c.encode(Envelope(e)))
    case Resync(reason) => Message(None, RESYNC, c.encode(Why(reason)))
  }

  // A frame a client can read: its data comes back as it was, and the name of an event is
  // neither that of the control frame nor empty, and on one line.
  predicate FrameReadable(c: Codec, f: Frame) {
    match f
    case Data(e) => e.name != RESYNC && e.name != "" && Unbroken(e.name) && Readable(c, Envelope(e))
    case Resync(reason) => Readable(c, Why(reason))
  }

  predicate FramesReadable(c: Codec, frames: seq<Frame>) {
    forall i | 0 <= i < |frames| :: FrameReadable(c, frames[i])
  }

  // The items are the frames, with keep-alives between them.
  predicate Carries(c: Codec, items: seq<Item>, frames: seq<Frame>)
    decreases |items|
  {
    if items == [] then frames == []
    else if items[0].Ping? then Unbroken(items[0].text) && Carries(c, items[1..], frames)
    else frames != [] && items[0] == ItemOf(c, frames[0]) && Carries(c, items[1..], frames[1..])
  }

  // ------------------------------------------------------------------------
  // What the client sees
  // ------------------------------------------------------------------------

  function View(e: Event): ServerEvent {
    ServerEvent(e.name, Envelope(e), if e.id.Some? then Some(e.id.value) else None)
  }

  function Views(events: seq<Event>): seq<ServerEvent> {
    if events == [] then [] else [View(events[0])] + Views(events[1..])
  }

  // The stored events a reader has, up to the first resync.
  function Stored(events: seq<ServerEvent>): seq<ServerEvent> {
    if events == [] || events[0].name == RESYNC then []
    else (if events[0].id.Some? then [events[0]] else []) + Stored(events[1..])
  }

  // Nothing of an event is lost on the way: what the client has tells which event it was.
  lemma ViewTells(a: Event, b: Event)
    ensures View(a) == View(b) ==> a == b
  {
    var x, y := Envelope(a), Envelope(b);
    assert View(a) == View(b) ==> x.entries[0].1 == y.entries[0].1 && x.entries[1].1 == y.entries[1].1
                                  && x.entries[3].1 == y.entries[3].1;
  }

  predicate SawResync(events: seq<ServerEvent>) {
    exists i | 0 <= i < |events| :: events[i].name == RESYNC
  }

  // The cursor after reading these events.
  function Advance(cursor: Option<int>, events: seq<ServerEvent>): Option<int>
    decreases |events|
  {
    if events == [] then cursor
    else Advance(if events[0].id.Some? then events[0].id else cursor, events[1..])
  }

  // A server as a client knows it: the lines connection i delivers, asked after a cursor,
  // before it drops.
  type Server = (nat, Option<int>) -> seq<string>

  datatype Followed = Followed(yielded: seq<ServerEvent>, cursor: Option<int>, refused: bool)

  // What following has yielded once n connections have ended.
  function FollowUpto(decode: Decoder, serve: Server, after: Option<int>, n: nat): Followed
    decreases n
  {
    if n == 0 then Followed([], after, false)
    else
      var before := FollowUpto(decode, serve, after, n - 1);
      if before.refused then before
      else
        var parsed := Parse(decode, serve(n - 1, before.cursor));
        Followed(before.yielded + parsed.events, Advance(before.cursor, parsed.events), parsed.refused)
  }

  lemma {:induction false} AdvanceNext(cursor: Option<int>, events: seq<ServerEvent>, e: ServerEvent)
    ensures Advance(cursor, events + [e]) == if e.id.Some? then e.id else Advance(cursor, events)
    decreases |events|
  {
    if events == [] {
      assert [e][1..] == [];
    } else {
      assert (events + [e])[1..] == events[1..] + [e];
      AdvanceNext(if events[0].id.Some? then events[0].id else cursor, events[1..], e);
    }
  }

  /** `follow`, over as many connections as there are. */
  method FollowStreams(decode: Decoder, serve: Server, after: Option<int>, connections: nat)
    returns (yielded: seq<ServerEvent>, cursor: Option<int>, refused: bool)
    ensures Followed(yielded, cursor, refused) == FollowUpto(decode, serve, after, connections)
  {
    hide Parse;
    yielded, cursor, refused := [], after, false;
    for i := 0 to connections
      invariant Followed(yielded, cursor, refused) == FollowUpto(decode, serve, after, i)
    {
      if !refused {
        ghost var was := yielded;
        var start := cursor;
        var events, bad := ParseSse(decode, serve(i, cursor));
        for k := 0 to |events|
          invariant yielded == was + events[..k] && cursor == Advance(start, events[..k])
        {
          AdvanceNext(start, events[..k], events[k]);
          assert events[..k + 1] == events[..k] + [events[k]];
          if events[k].id.Some? {
            cursor := events[k].id;
          }
          yielded := yielded + [events[k]];
        }
        assert events[..|events|] == events;
        refused := bad;
      }
    }
  }

  // ------------------------------------------------------------------------
  // Prefixes, and what one connection gives
  // ------------------------------------------------------------------------

  lemma {:induction false} StoredConcat(a: seq<ServerEvent>, b: seq<ServerEvent>)
    ensures SawResync(a) ==> Stored(a + b) == Stored(a)
    ensures !SawResync(a) ==> Stored(a + b) == Stored(a) + Stored(b)
    ensures SawResync(a + b) <==> SawResync(a) || SawResync(b)
    decreases |a|
  {
    SawConcat(a, b);
    if a == [] {
      assert a + b == b;
    } else {
      assert (a + b)[1..] == a[1..] + b;
      SawConcat([a[0]], a[1..]);
      assert [a[0]] + a[1..] == a;
      StoredConcat(a[1..], b);
    }
  }

  lemma SawConcat(a: seq<ServerEvent>, b: seq<ServerEvent>)
    ensures SawResync(a + b) <==> SawResync(a) || SawResync(b)
    ensures forall e :: SawResync([e]) <==> e.name == RESYNC
  {
    forall e ensures SawResync([e]) <==> e.name == RESYNC {
      assert [e][0] == e;
    }
    if SawResync(a) {
      var i :| 0 <= i < |a| && a[i].name == RESYNC;
      assert (a + b)[i].name == RESYNC;
    }
    if SawResync(b) {
      var i :| 0 <= i < |b| && b[i].name == RESYNC;
      assert (a + b)[|a| + i].name == RESYNC;
    }
  }

  // Stored events of the first frames are the first of the stored events.
  lemma StoredPrefix(a: seq<ServerEvent>, b: seq<ServerEvent>)
    requires a <= b
    ensures Stored(a) <= Stored(b)
  {
    assert b == a + b[|a|..];
    StoredConcat(a, b[|a|..]);
  }

  lemma {:induction false} AdvanceIsLast(cursor: Option<int>, events: seq<ServerEvent>)
    requires !SawResync(events)
    ensures Advance(cursor, events) == if Stored(events) == [] then cursor else Stored(events)[|Stored(events)| - 1].id
    ensures forall i | 0 <= i < |Stored(events)| :: Stored(events)[i].id.Some?
    decreases |events|
  {
    if events != [] {
      SawConcat([events[0]], events[1..]);
      assert [events[0]] + events[1..] == events;
      AdvanceIsLast(if events[0].id.Some? then events[0].id else cursor, events[1..]);
    }
  }

  lemma RestReadable(c: Codec, frames: seq<Frame>)
    requires FramesReadable(c, frames) && frames != []
    ensures FrameReadable(c, frames[0]) && FramesReadable(c, frames[1..])
  {
    assert forall i | 0 <= i < |frames| - 1 :: frames[1..][i] == frames[i + 1];
  }

  lemma {:induction false} CarriedAreSendable(c: Codec, items: seq<Item>, frames: seq<Frame>)
    requires Carries(c, items, frames) && FramesReadable(c, frames)
    ensures AllSendable(c.decode, items)
    decreases |items|
  {
    hide FramesReadable;
    if items != [] {
      var rest := items[1..];
      if items[0].Ping? {
        CarriedAreSendable(c, rest, frames);
      } else {
        RestReadable(c, frames);
        CarriedAreSendable(c, rest, frames[1..]);
      }
      forall i | 0 <= i < |items| ensures Sendable(c.decode, items[i]) {
        assert i > 0 ==> items[i] == rest[i - 1];
      }
    }
  }

  // What the client reads of the whole stream, up to the first resync, is what was sent.
  lemma {:induction false} ReadsSent(c: Codec, items: seq<Item>, frames: seq<Frame>)
    requires Carries(c, items, frames) && FramesReadable(c, frames) && AllSendable(c.decode, items)
    ensures Stored(ReadAll(c.decode, items)) == Views(Sent(frames))
    decreases |items|
  {
    hide FramesReadable;
    if items != [] {
      var rest := items[1..];
      assert AllSendable(c.decode, rest) by {
        assert forall i | 0 <= i < |rest| :: rest[i] == items[i + 1];
      }
      assert Sendable(c.decode, items[0]);
      if items[0].Ping? {
        ReadsSent(c, rest, frames);
        assert [] + ReadAll(c.decode, rest) == ReadAll(c.decode, rest);
      } else {
        RestReadable(c, frames);
        ReadsSent(c, rest, frames[1..]);
        ReadsFrame(c, items[0], frames[0], ReadAll(c.decode, rest));
        SentHead(frames);
      }
    }
  }

  lemma SentHead(frames: seq<Frame>)
    requires frames != []
    ensures frames[0].Resync? ==> Views(Sent(frames)) == []
    ensures frames[0].Data? ==>
              Views(Sent(frames)) ==
                (if frames[0].event.id.Some? then [View(frames[0].event)] else []) + Views(Sent(frames[1..]))
  {
    if frames[0].Data? && frames[0].event.id.Some? {
      assert Sent(frames)[1..] == Sent(frames[1..]);
    } else if frames[0].Data? {
      assert Sent(frames) == [] + Sent(frames[1..]) == Sent(frames[1..]);
      assert [] + Views(Sent(frames[1..])) == Views(Sent(frames[1..]));
    }
  }

  lemma ReadsFrame(c: Codec, item: Item, frame: Frame, rest: seq<ServerEvent>)
    requires FrameReadable(c, frame) && item == ItemOf(c, frame) && Sendable(c.decode, item)
    ensures var read := Read(c.decode, item);
            && (frame.Resync? ==> Stored(read + rest) == [])
            && (frame.Data? ==>
                  Stored(read + rest) == (if frame.event.id.Some? then [View(frame.event)] else []) + Stored(rest))
  {
    var read := Read(c.decode, item);
    assert |read| == 1 && (read + rest)[0] == read[0] && (read + rest)[1..] == rest;
    if frame.Data? {
      assert read[0] == View(frame.event);
    }
  }

  // ------------------------------------------------------------------------
  // Resuming
  // ------------------------------------------------------------------------

  // Asking after the last event one has gives exactly the events one does not have.
  lemma {:induction false} ResumeGivesRest(cfg: Config, events: seq<Event>, have: seq<Event>)
    requires Ascending(events) && have <= Keep(Asked(cfg), events)
    ensures Keep(Asked(cfg.(after := Mark(cfg.after, have))), events) == Keep(Asked(cfg), events)[|have|..]
  {
    hide Keep;
    var all := Keep(Asked(cfg), events);
    var resumed := cfg.(after := Mark(cfg.after, have));
    var k := |have|;
    KeepAscends(Asked(cfg), events);
    forall i | 0 <= i < |all| ensures (all[i].id.value > resumed.after <==> i >= k) && all[i].id.value > cfg.after {
      assert Wanted(Asked(cfg), all[i]);
      assert k > 0 ==> have[k - 1] == all[k - 1];
    }
    KeepTwice(cfg, resumed.after, events);
    KeepSuffix(Asked(resumed), all, k);
  }

  // Raising the cursor keeps less of what was kept.
  lemma {:induction false} KeepTwice(cfg: Config, after: nat, events: seq<Event>)
    requires cfg.after <= after
    ensures Keep(Asked(cfg.(after := after)), events) == Keep(Asked(cfg.(after := after)), Keep(Asked(cfg), events))
  {
    if events != [] {
      var front, last := events[..|events| - 1], events[|events| - 1];
      KeepTwice(cfg, after, front);
      KeepConcat(Asked(cfg.(after := after)), Keep(Asked(cfg), front), if Wanted(Asked(cfg), last) then [last] else []);
      KeepOne(Asked(cfg.(after := after)), last);
    }
  }

  lemma KeepSuffix(f: Feed.Filter, events: seq<Event>, k: nat)
    requires k <= |events| && forall i | 0 <= i < |events| :: Wanted(f, events[i]) <==> i >= k
    ensures Keep(f, events) == events[k..]
  {
    assert events == events[..k] + events[k..];
    KeepConcat(f, events[..k], events[k..]);
    KeepNone(f, events[..k]);
    KeepAll(f, events[k..]);
  }

  lemma {:induction false} KeepAll(f: Feed.Filter, events: seq<Event>)
    requires forall e | e in events :: Wanted(f, e)
    ensures Keep(f, events) == events
  {
    hide Wanted;
    if events != [] {
      KeepAll(f, events[..|events| - 1]);
    }
  }

  // ------------------------------------------------------------------------
  // One connection
  // ------------------------------------------------------------------------

  // One connection's stream: where the store and the bus stood, what happened, and the text
  // that was written of it, keep-alives included.
  datatype Connection = Connection(committed: seq<Event>, published: nat, trace: seq<Step>, items: seq<Item>)

  predicate Runs(cfg: Config, k: Connection) {
    && Ascending(k.committed) && k.published <= |k.committed|
    && Feed.IsRun(cfg, Start(cfg, k.committed, k.published), k.trace)
  }

  function Final(cfg: Config, k: Connection): State
    requires Runs(cfg, k)
  {
    Feed.End(cfg, Start(cfg, k.committed, k.published), k.trace)
  }

  // It ended when `history` was committed, having written its frames so that a client can
  // read them.
  predicate Wrote(cfg: Config, c: Codec, history: seq<Event>, k: Connection) {
    && Runs(cfg, k) && Final(cfg, k).committed == history
    && FramesReadable(c, Final(cfg, k).out) && Carries(c, k.items, Final(cfg, k).out)
  }

  // The lines are what such a connection wrote, cut anywhere.
  ghost predicate Served(cfg: Config, c: Codec, history: seq<Event>, lines: seq<string>) {
    exists k, cut: nat :: Wrote(cfg, c, history, k) && cut <= |Wire(k.items)| && lines == Wire(k.items)[..cut]
  }

  // All that was committed has been published and taken from the queue, and nothing dropped.
  predicate CaughtUp(s: State) {
    (s.phase.Turning? || s.phase.Getting?) && s.published == |s.committed| && s.inbox == Inbox([], false)
        && !Resynced(s.out)
  }

  // The lines are all that such a connection wrote, when it had caught up.
  ghost predicate ServedAll(cfg: Config, c: Codec, history: seq<Event>, lines: seq<string>) {
    exists k :: Wrote(cfg, c, history, k) && CaughtUp(Final(cfg, k)) && lines == Wire(k.items)
  }

  // What reading the text of a connection yields.
  lemma ReadsConnection(cfg: Config, c: Codec, history: seq<Event>, k: Connection)
    requires Wrote(cfg, c, history, k)
    ensures AllSendable(c.decode, k.items)
    ensures Stored(ReadAll(c.decode, k.items)) == Views(Sent(Final(cfg, k).out))
    ensures Ascending(history) && Sent(Final(cfg, k).out) <= Keep(Asked(cfg), history)
  {
    hide Keep, Sent, Stored, Views, ReadAll, Feed.IsRun, Feed.End, FramesReadable, Carries;
    NoGapNoDuplicate(cfg, k.committed, k.published, k.trace);
    CarriedAreSendable(c, k.items, Final(cfg, k).out);
    ReadsSent(c, k.items, Final(cfg, k).out);
  }

  // One connection yields the first of the events after its cursor, and refuses nothing.
  lemma OneConnection(cfg: Config, c: Codec, history: seq<Event>, lines: seq<string>) returns (got: seq<Event>)
    requires Served(cfg, c, history, lines)
    ensures !Parse(c.decode, lines).refused && Ascending(history)
    ensures got <= Keep(Asked(cfg), history) && Stored(Parse(c.decode, lines).events) == Views(got)
  {
    hide Keep, Sent, Stored, Views, Parse, Wrote, Final, Wire, ReadAll, AllSendable;
    var k, cut: nat :| Wrote(cfg, c, history, k) && cut <= |Wire(k.items)| && lines == Wire(k.items)[..cut];
    ReadsConnection(cfg, c, history, k);
    CutStream(c.decode, k.items, cut);
    StoredPrefix(Parse(c.decode, lines).events, ReadAll(c.decode, k.items));
    WroteRuns(cfg, c, history, k);
    got := ViewsPrefix(Stored(Parse(c.decode, lines).events), Sent(Final(cfg, k).out));
  }

  // Each frame as a client has it, stored or not.
  function FrameView(f: Frame): ServerEvent {
    match f
    case Data(e) => View(e)
    case Resync(reason) => ServerEvent(RESYNC, Why(reason), None)
  }

  function FrameViews(frames: seq<Frame>): seq<ServerEvent> {
    seq(|frames|, i requires 0 <= i < |frames| => FrameView(frames[i]))
  }

  // And what it has of a frame tells which frame it was, the reason of a resync included.
  lemma FrameTells(c: Codec, f: Frame, g: Frame)
    requires FrameReadable(c, f) && FrameReadable(c, g)
    ensures FrameView(f) == FrameView(g) ==> f == g
  {
    hide Readable, Unbroken;
    if f.Data? && g.Data? {
      ViewTells(f.event, g.event);
    } else if f.Resync? && g.Resync? {
      assert Why(f.reason) == Why(g.reason) ==> Why(f.reason).entries[0].1 == Why(g.reason).entries[0].1;
      assert "replay_capped" != "overflowed" by {
        assert "replay_capped"[0] == 'r' && "overflowed"[0] == 'o';
      }
    }
  }

  lemma {:induction false} ReadsEvery(c: Codec, items: seq<Item>, frames: seq<Frame>)
    requires Carries(c, items, frames) && FramesReadable(c, frames) && AllSendable(c.decode, items)
    ensures ReadAll(c.decode, items) == FrameViews(frames)
    decreases |items|
  {
    hide FramesReadable;
    if items != [] {
      var rest := items[1..];
      assert AllSendable(c.decode, rest) by {
        assert forall i | 0 <= i < |rest| :: rest[i] == items[i + 1];
      }
      assert Sendable(c.decode, items[0]);
      if items[0].Ping? {
        ReadsEvery(c, rest, frames);
        assert [] + ReadAll(c.decode, rest) == ReadAll(c.decode, rest);
      } else {
        RestReadable(c, frames);
        ReadsEvery(c, rest, frames[1..]);
        assert [FrameView(frames[0])] + FrameViews(frames[1..]) == FrameViews(frames);
      }
    }
  }

  // What a connection gives of its frames, stored or not: the first of them, each as it was
  // sent; and all of them when it was not cut.
  lemma ConnectionGives(cfg: Config, c: Codec, history: seq<Event>, k: Connection, cut: nat)
    requires Wrote(cfg, c, history, k) && cut <= |Wire(k.items)|
    ensures var parsed, sent := Parse(c.decode, Wire(k.items)[..cut]), FrameViews(Final(cfg, k).out);
            !parsed.refused && parsed.events <= sent && (cut == |Wire(k.items)| ==> parsed.events == sent)
  {
    hide Wire, Parse, ReadAll, AllSendable, FramesReadable, Carries, Feed.IsRun, Feed.End;
    CarriedAreSendable(c, k.items, Final(cfg, k).out);
    ReadsEvery(c, k.items, Final(cfg, k).out);
    CutStream(c.decode, k.items, cut);
    RoundTrip(c.decode, k.items);
    assert Wire(k.items)[..|Wire(k.items)|] == Wire(k.items);
  }

  // And following yields all that its connections give, one after the other.
  lemma FollowYields(cfg: Config, c: Codec, history: seq<Event>, k: Connection, cut: nat, serve: Server,
      after: Option<int>, n: nat)
    requires Wrote(cfg, c, history, k) && cut <= |Wire(k.items)|
    requires var before := FollowUpto(c.decode, serve, after, n);
             !before.refused && serve(n, before.cursor) == Wire(k.items)[..cut]
    ensures var before, next := FollowUpto(c.decode, serve, after, n), FollowUpto(c.decode, serve, after, n + 1);
            var sent := FrameViews(Final(cfg, k).out);
            && !next.refused && before.yielded <= next.yielded
            && next.yielded[|before.yielded|..] <= sent
            && (cut == |Wire(k.items)| ==> next.yielded == before.yielded + sent)
  {
    hide Wire, Parse, Wrote, Final, FrameViews;
    ConnectionGives(cfg, c, history, k, cut);
  }

  lemma WroteRuns(cfg: Config, c: Codec, history: seq<Event>, k: Connection)
    requires Wrote(cfg, c, history, k)
    ensures Runs(cfg, k) && Final(cfg, k).committed == history
  {
  }

  // One that was caught up and not cut yields all of them.
  lemma WholeConnection(cfg: Config, c: Codec, history: seq<Event>, lines: seq<string>)
    requires ServedAll(cfg, c, history, lines)
    ensures Stored(Parse(c.decode, lines).events) == Views(Keep(Asked(cfg), history))
  {
    hide Keep, Sent, Stored, Views, Parse, Wire, ReadAll, AllSendable, CaughtUp, Feed.IsRun, Feed.End;
    var k :| Wrote(cfg, c, history, k) && CaughtUp(Final(cfg, k)) && lines == Wire(k.items);
    ReadsConnection(cfg, c, history, k);
    RoundTrip(c.decode, k.items);
    CaughtUpSentAll(cfg, k);
  }

  lemma CaughtUpSentAll(cfg: Config, k: Connection)
    requires Runs(cfg, k) && CaughtUp(Final(cfg, k))
    ensures Sent(Final(cfg, k).out) == Keep(Asked(cfg), Final(cfg, k).committed)
  {
    hide Keep, Sent, Feed.IsRun, Feed.End, Resynced;
    AllIsSent(cfg, k.committed, k.published, k.trace);
  }

  // ------------------------------------------------------------------------
  // End to end
  // ------------------------------------------------------------------------

  function CursorOf(cursor: Option<int>): nat {
    if cursor.Some? && cursor.value >= 0 then cursor.value else 0
  }

  // The server of the filters in `cfg`: connection i is a stream of it, asked after any
  // cursor, and the history only grows from one connection to the next.
  ghost predicate Serves(cfg: Config, c: Codec, histories: nat -> seq<Event>, serve: Server) {
    && (forall i: nat :: Ascending(histories(i)) && histories(i) <= histories(i + 1))
    && (forall i: nat, cursor: Option<int> ::
        Served(cfg.(after := CursorOf(cursor)), c, histories(i), serve(i, cursor)))
  }

  lemma {:induction false} ViewsLength(events: seq<Event>)
    ensures |Views(events)| == |events| && forall i | 0 <= i < |events| :: Views(events)[i] == View(events[i])
  {
    if events != [] {
      ViewsLength(events[1..]);
    }
  }

  lemma ViewsPrefix(a: seq<ServerEvent>, events: seq<Event>) returns (got: seq<Event>)
    requires a <= Views(events)
    ensures got <= events && a == Views(got)
  {
    ViewsLength(events);
    got := events[..|a|];
    ViewsLength(got);
  }

  lemma ViewsConcat(a: seq<Event>, b: seq<Event>)
    ensures Views(a + b) == Views(a) + Views(b)
  {
    ViewsLength(a);
    ViewsLength(b);
    ViewsLength(a + b);
  }

  // What has been yielded so far, and where the cursor stands.
  ghost predicate FollowedSoFar(cfg: Config, f: Followed, history: seq<Event>, got: seq<Event>) {
    && !f.refused && got <= Keep(Asked(cfg), history) && Stored(f.yielded) == Views(got)
    && (!SawResync(f.yielded) ==> CursorOf(f.cursor) == Mark(cfg.after, got))
  }

  lemma EmptyViews()
    ensures Stored([]) == Views([]) == []
  {
  }

  lemma CursorMoves(cfg: Config, cursor: Option<int>, events: seq<ServerEvent>, got: seq<Event>, more: seq<Event>)
    requires CursorOf(cursor) == Mark(cfg.after, got) && Stored(events) == Views(more)
    requires forall i | 0 <= i < |more| :: more[i].id.Some?
    ensures !SawResync(events) ==> CursorOf(Advance(cursor, events)) == Mark(cfg.after, got + more)
  {
    if !SawResync(events) {
      AdvanceIsLast(cursor, events);
      ViewsLength(more);
      if more == [] {
        assert got + more == got;
      }
    }
  }

  // What was yielded of a history is yielded of a longer one.
  lemma SoFarGrows(cfg: Config, f: Followed, history: seq<Event>, longer: seq<Event>, got: seq<Event>)
    requires FollowedSoFar(cfg, f, history, got) && history <= longer
    ensures FollowedSoFar(cfg, f, longer, got)
  {
    hide Keep, Stored, Views, SawResync, Mark;
    KeepPrefix(Asked(cfg), longer, |history|);
    assert longer[..|history|] == history;
  }

  // One more connection, asked from the cursor, adds the next of the events.
  lemma OneMore(
    cfg: Config, c: Codec, history: seq<Event>, f: Followed, lines: seq<string>, got: seq<Event>)
    returns (all: seq<Event>)
    requires FollowedSoFar(cfg, f, history, got) && Served(cfg.(after := CursorOf(f.cursor)), c, history, lines)
    ensures var parsed := Parse(c.decode, lines);
            FollowedSoFar(cfg, Followed(f.yielded + parsed.events, Advance(f.cursor, parsed.events), parsed.refused),
                history, all)
  {
    hide Keep, Stored, Views, Parse, Served, Advance, SawResync, Mark, CursorOf, Ascending;
    var more := OneConnection(cfg.(after := CursorOf(f.cursor)), c, history, lines);
    var events := Parse(c.decode, lines).events;
    StoredConcat(f.yielded, events);
    if SawResync(f.yielded) {
      all := got;
    } else {
      ResumeGivesRest(cfg, history, got);
      ViewsConcat(got, more);
      KeptHaveIds(cfg, history, got, more);
      CursorMoves(cfg, f.cursor, events, got, more);
      all := got + more;
    }
  }

  lemma KeptHaveIds(cfg: Config, history: seq<Event>, got: seq<Event>, more: seq<Event>)
    requires got <= Keep(Asked(cfg), history) && more <= Keep(Asked(cfg), history)[|got|..]
    ensures got + more <= Keep(Asked(cfg), history) && forall i | 0 <= i < |more| :: more[i].id.Some?
  {
    var all := Keep(Asked(cfg), history);
    assert all == got + all[|got|..];
    forall i | 0 <= i < |more| ensures more[i].id.Some? {
      assert more[i] == all[|got| + i];
      KeptHasId(Asked(cfg), history, all[|got| + i]);
    }
  }

  lemma {:induction false} FollowingHolds(
    cfg: Config, c: Codec, histories: nat -> seq<Event>, serve: Server, after: Option<int>, n: nat)
    returns (got: seq<Event>)
    requires Serves(cfg, c, histories, serve) && cfg.after == CursorOf(after)
    ensures FollowedSoFar(cfg, FollowUpto(c.decode, serve, after, n), histories(n), got)
  {
    hide FollowedSoFar, Parse, Served, Advance, CursorOf, Ascending;
    if n == 0 {
      got := [];
      NothingYet(cfg, histories(0), after);
    } else {
      var before := FollowUpto(c.decode, serve, after, n - 1);
      var had := FollowingHolds(cfg, c, histories, serve, after, n - 1);
      NotRefused(cfg, before, histories(n - 1), had);
      got := OneMore(cfg, c, histories(n - 1), before, serve(n - 1, before.cursor), had);
      assert histories(n - 1) <= histories(n - 1 + 1);
      SoFarGrows(cfg, FollowUpto(c.decode, serve, after, n), histories(n - 1), histories(n), got);
    }
  }

  lemma NothingYet(cfg: Config, history: seq<Event>, after: Option<int>)
    requires cfg.after == CursorOf(after)
    ensures FollowedSoFar(cfg, Followed([], after, false), history, [])
  {
    EmptyViews();
  }

  lemma NotRefused(cfg: Config, f: Followed, history: seq<Event>, got: seq<Event>)
    requires FollowedSoFar(cfg, f, history, got)
    ensures !f.refused
  {
  }

  // However many connections end, and wherever each was cut, the stored events yielded up
  // to the first resync are the first of those committed after the starting cursor that
  // match the filters: once each, in order, none skipped. The parser refuses nothing.
  lemma FollowIsExact(cfg: Config, c: Codec, histories: nat -> seq<Event>, serve: Server, after: Option<int>, n: nat)
    requires Serves(cfg, c, histories, serve) && cfg.after == CursorOf(after)
    ensures var f := FollowUpto(c.decode, serve, after, n);
            !f.refused && Stored(f.yielded) <= Views(Keep(Asked(cfg), histories(n)))
                && Ascending(Keep(Asked(cfg), histories(n)))
  {
    hide Keep, Stored, Views;
    var got := FollowingHolds(cfg, c, histories, serve, after, n);
    var all := Keep(Asked(cfg), histories(n));
    assert all == got + all[|got|..];
    ViewsConcat(got, all[|got|..]);
    assert Ascending(histories(n));
    KeepAscends(Asked(cfg), histories(n));
  }

  // And none is held back: once a connection has caught up and was not cut, with no resync
  // before it, every such event committed by then has been yielded.
  lemma FollowIsComplete(cfg: Config, c: Codec, histories: nat -> seq<Event>, serve: Server, after: Option<int>, n: nat)
    requires Serves(cfg, c, histories, serve) && cfg.after == CursorOf(after)
    requires var before := FollowUpto(c.decode, serve, after, n);
             !SawResync(before.yielded)
                 && ServedAll(cfg.(after := CursorOf(before.cursor)), c, histories(n), serve(n, before.cursor))
    ensures Stored(FollowUpto(c.decode, serve, after, n + 1).yielded) == Views(Keep(Asked(cfg), histories(n)))
  {
    hide Keep, Stored, Views, Parse, Served, ServedAll, Advance, SawResync;
    var before := FollowUpto(c.decode, serve, after, n);
    var got := FollowingHolds(cfg, c, histories, serve, after, n);
    assert Ascending(histories(n));
    WholeConnection(cfg.(after := CursorOf(before.cursor)), c, histories(n), serve(n, before.cursor));
    StoredConcat(before.yielded, Parse(c.decode, serve(n, before.cursor)).events);
    ResumeGivesRest(cfg, histories(n), got);
    var all := Keep(Asked(cfg), histories(n));
    assert all == got + all[|got|..];
    ViewsConcat(got, all[|got|..]);
  }
}
