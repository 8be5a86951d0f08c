/** The event stream (athanore/api/sse.py): history from the store, then what the bus
    delivers, with nothing lost and nothing twice across the seam.

    One client's connection is a state machine over every interleaving of commits,
    publishes, the subscription, the one replay query and the turns of the live loop. */
module Feed {
  import opened Base
  import Glob
  import opened Bus

  datatype ResyncReason = ReplayCapped | Overflowed

  datatype Frame = Data(event: Event) | Resync(reason: ResyncReason)

  // What the client asked for, and the server's limits.
  datatype Config = Config(patterns: Option<seq<string>>, run: Option<string>, after: nat, cap: nat, maxsize: int)

  // Where the stream is: not subscribed, about to query, sending the page, at the top of the
  // live loop, or waiting on the queue.
  datatype Phase = Idle | Paging | Sending(rows: seq<Event>) | Turning | Getting

  datatype State = State(
    committed: seq<Event>,
    published: nat,
    phase: Phase,
    inbox: Inbox,
    reported: bool,
    last: nat,
    out: seq<Frame>)

  datatype Step =
    | Commit(batch: seq<Event>)
    | Publish
    | PublishEphemeral(e: Event)
    | Subscribe
    | Page
    | Send
    | Turn
    | Get

  function Start(cfg: Config, committed: seq<Event>, published: nat): State {
    State(committed, published, Idle, Inbox([], false), false, cfg.after, [])
  }

  // ------------------------------------------------------------------------
  // Selecting events
  // ------------------------------------------------------------------------

  // Which stored events: by name, by run, and above a cursor.
  datatype Filter = Filter(patterns: Option<seq<string>>, run: Option<string>, above: int)

  predicate Wanted(f: Filter, e: Event) {
    && e.id.Some? && e.id.value > f.above
    && (f.run.None? || e.run == f.run)
    && Takes(f.patterns, e.name)
  }

  function Keep(f: Filter, events: seq<Event>): (r: seq<Event>)
    ensures forall i | 0 <= i < |r| :: r[i] in events && Wanted(f, r[i])
    ensures forall e | e in events && Wanted(f, e) :: e in r
  {
    if events == [] then []
    else
      var last := events[|events| - 1];
      Keep(f, events[..|events| - 1]) + (if Wanted(f, last) then [last] else [])
  }

  lemma {:induction false} KeepConcat(f: Filter, a: seq<Event>, b: seq<Event>)
    ensures Keep(f, a + b) == Keep(f, a) + Keep(f, b)
    decreases |b|
  {
    if b == [] {
      assert a + b == a;
    } else {
      var front := b[..|b| - 1];
      assert (a + b)[..|a + b| - 1] == a + front;
      KeepConcat(f, a, front);
    }
  }

  lemma {:induction false} KeepNone(f: Filter, events: seq<Event>)
    requires forall e | e in events :: !Wanted(f, e)
    ensures Keep(f, events) == []
  {
    if events != [] {
      KeepNone(f, events[..|events| - 1]);
    }
  }

  // The store's side of the name filter.
  predicate StoreTakes(patterns: Option<seq<string>>, name: string) {
    patterns.None? || exists i | 0 <= i < |patterns.value| :: Glob.Selects(patterns.value[i], name)
  }

  lemma NamesAgree(patterns: Option<seq<string>>, name: string)
    ensures StoreTakes(patterns, name) <==> Takes(patterns, name)
  {
    if patterns.Some? {
      forall i | 0 <= i < |patterns.value|
        ensures Glob.Selects(patterns.value[i], name) <==> Glob.Matches(patterns.value[i], name)
      {
        Glob.FiltersAgree(patterns.value[i], name);
      }
    }
  }

  // The rows of `list_after`, before its limit.
  function Rows(f: Filter, events: seq<Event>): seq<Event> {
    if events == [] then []
    else
      var last := events[|events| - 1];
      var before := Rows(f, events[..|events| - 1]);
      if last.id.Some? && last.id.value > f.above && (f.run.None? || last.run == f.run)
          && StoreTakes(f.patterns, last.name)
      then before + [last] else before
  }

  lemma {:induction false} RowsAreKept(f: Filter, events: seq<Event>)
    ensures Rows(f, events) == Keep(f, events)
  {
    if events != [] {
      RowsAreKept(f, events[..|events| - 1]);
      NamesAgree(f.patterns, events[|events| - 1].name);
    }
  }

  function Take<T>(s: seq<T>, limit: nat): seq<T> {
    if |s| <= limit then s else s[..limit]
  }

  function ListAfter(committed: seq<Event>, f: Filter, limit: nat): seq<Event> {
    Take(Rows(f, committed), limit)
  }

  // What the client asked for, and what its subscription selects.
  function Asked(cfg: Config): Filter {
    Filter(cfg.patterns, cfg.run, cfg.after)
  }

  function Heard(cfg: Config): Filter {
    Filter(cfg.patterns, None, -1)
  }

  // ------------------------------------------------------------------------
  // The steps
  // ------------------------------------------------------------------------

  predicate Ascending(events: seq<Event>) {
    && (forall i | 0 <= i < |events| :: events[i].id.Some?)
    && (forall i, j | 0 <= i < j < |events| :: events[i].id.value < events[j].id.value)
  }

  predicate Enabled(cfg: Config, s: State, a: Step) {
    match a
    case Commit(batch) => Ascending(s.committed + batch)
    case Publish => s.published < |s.committed|
    case PublishEphemeral(e) => e.id.None?
    case Subscribe => s.phase.Idle?
    case Page => s.phase.Paging?
    case Send => s.phase.Sending?
    case Turn => s.phase.Turning?
    case Get => s.phase.Getting? && s.inbox.queue != []
  }

  function Delivered(cfg: Config, s: State, e: Event): Inbox {
    if s.phase.Idle? then s.inbox else Offer(s.inbox, cfg.patterns, cfg.maxsize, e)
  }

  function Next(cfg: Config, s: State, a: Step): State
    requires Enabled(cfg, s, a)
  {
    match a
    case Commit(batch) => s.(committed := s.committed + batch)
    case Publish => s.(published := s.published + 1, inbox := Delivered(cfg, s, s.committed[s.published]))
    case PublishEphemeral(e) => s.(inbox := Delivered(cfg, s, e))
    case Subscribe => s.(phase := Paging)
    case Page =>
      var rows := ListAfter(s.committed, Asked(cfg), cfg.cap + 1);
      if |rows| > cfg.cap then s.(phase := Turning, out := s.out + [Resync(ReplayCapped)])
      else s.(phase := Sending(rows))
    case Send =>
      if s.phase.rows == [] then s.(phase := Turning)
      else
        var row := s.phase.rows[0];
        s.(phase := Sending(s.phase.rows[1..]),
           last := if row.id.Some? then row.id.value else s.last,
           out := s.out + [Data(row)])
    case Turn =>
      if s.inbox.overflowed && !s.reported then
          s.(phase := Getting, reported := true, out := s.out + [Resync(Overflowed)])
      else s.(phase := Getting)
    case Get =>
      var e := s.inbox.queue[0];
      var t := s.(phase := Turning, inbox := s.inbox.(queue := s.inbox.queue[1..]));
      if cfg.run.Some? && e.run != cfg.run then t
      else if e.id.Some? && e.id.value <= s.last then t
      else t.(last := if e.id.Some? then e.id.value else s.last, out := s.out + [Data(e)])
  }

  predicate IsRun(cfg: Config, s: State, trace: seq<Step>)
    decreases |trace|
  {
    trace == [] || (Enabled(cfg, s, trace[0]) && IsRun(cfg, Next(cfg, s, trace[0]), trace[1..]))
  }

  function End(cfg: Config, s: State, trace: seq<Step>): State
    requires IsRun(cfg, s, trace)
    decreases |trace|
  {
    if trace == [] then s else End(cfg, Next(cfg, s, trace[0]), trace[1..])
  }

  // ------------------------------------------------------------------------
  // What was sent
  // ------------------------------------------------------------------------

  // The stored events among the frames before the first resync.
  function Sent(out: seq<Frame>): seq<Event> {
    if out == [] || out[0].Resync? then []
    else (if out[0].event.id.Some? then [out[0].event] else []) + Sent(out[1..])
  }

  predicate Resynced(out: seq<Frame>) {
    exists i | 0 <= i < |out| :: out[i].Resync?
  }

  lemma ResyncedHead(out: seq<Frame>)
    ensures Resynced(out) <==> out != [] && (out[0].Resync? || Resynced(out[1..]))
  {
    if i :| 0 <= i < |out| && out[i].Resync? && i > 0 {
      assert out[1..][i - 1].Resync?;
    }
    if out != [] && Resynced(out[1..]) {
      var i :| 0 <= i < |out[1..]| && out[1..][i].Resync?;
      assert out[i + 1].Resync?;
    }
  }

  lemma {:induction false} SentNext(out: seq<Frame>, frame: Frame)
    ensures Resynced(out) ==> Sent(out + [frame]) == Sent(out)
    ensures !Resynced(out) ==>
              Sent(out + [frame]) == Sent(out) + (if frame.Data? && frame.event.id.Some? then [frame.event] else [])
    ensures Resynced(out + [frame]) <==> Resynced(out) || frame.Resync?
  {
    hide Resynced;
    var longer := out + [frame];
    ResyncedHead(out);
    ResyncedHead(longer);
    if out == [] {
      assert longer[1..] == [];
      ResyncedHead([]);
    } else {
      assert longer[0] == out[0] && longer[1..] == out[1..] + [frame];
      SentNext(out[1..], frame);
    }
  }

  // ------------------------------------------------------------------------
  // The invariant
  // ------------------------------------------------------------------------

  // The stored events of the part of the queue taken before any was dropped.
  function StoredIn(queue: seq<Event>): seq<Event> {
    Keep(Filter(None, None, -1), queue)
  }

  // The queue's first k items are the committed events the subscription selects, from
  // position c to position m; nothing is missing unless the subscription has overflowed,
  // and while that is unreported the next item taken is still one of those.
  predicate QueueAt(cfg: Config, s: State, c: nat, m: nat, k: nat) {
    && c <= m <= s.published <= |s.committed|
    && k <= |s.inbox.queue|
    && StoredIn(s.inbox.queue[..k]) == Keep(Heard(cfg), s.committed[c..m])
    && (!s.inbox.overflowed ==> k == |s.inbox.queue| && m == s.published)
    && (s.inbox.overflowed && s.phase.Getting? ==> k >= 1)
  }

  // The high-water mark: the id of the last stored event sent, or the cursor.
  function Mark(after: nat, sent: seq<Event>): nat {
    if sent == [] || sent[|sent| - 1].id.None? then after else sent[|sent| - 1].id.value
  }

  // All that was asked for among the first d committed events is sent, or is about to be.
  predicate SentAt(cfg: Config, s: State, c: nat, d: nat) {
    && c <= d <= |s.committed|
    && s.last == Mark(cfg.after, Sent(s.out))
    && match s.phase
       case Idle => true
       case Paging => s.out == []
       case Sending(rows) => Sent(s.out) + rows == Keep(Asked(cfg), s.committed[..d])
       case _ => Sent(s.out) == Keep(Asked(cfg), s.committed[..d])
  }

  ghost predicate Seamless(cfg: Config, s: State) {
    exists c: nat, m: nat, k: nat, d: nat :: QueueAt(cfg, s, c, m, k) && SentAt(cfg, s, c, d)
  }

  ghost predicate Inv(cfg: Config, s: State) {
    && Ascending(s.committed)
    && s.published <= |s.committed|
    && (s.phase.Idle? ==> s.out == [] && s.last == cfg.after && s.inbox == Inbox([], false))
    && (s.reported ==> Resynced(s.out))
    && Sent(s.out) <= Keep(Asked(cfg), s.committed)
    && (!Resynced(s.out) && !s.phase.Idle? ==> Seamless(cfg, s))
  }

  // ------------------------------------------------------------------------
  // Slices of what is committed
  // ------------------------------------------------------------------------

  lemma {:induction false} KeepAscends(f: Filter, events: seq<Event>)
    requires Ascending(events)
    ensures Ascending(Keep(f, events))
  {
    if events != [] {
      var front, last := events[..|events| - 1], events[|events| - 1];
      KeepAscends(f, front);
      forall e | e in Keep(f, front) ensures e.id.Some? && e.id.value < last.id.value {
        var i :| 0 <= i < |front| && front[i] == e;
        assert events[i] == e;
      }
    }
  }

  lemma KeepPrefix(f: Filter, events: seq<Event>, d: nat)
    requires d <= |events|
    ensures Keep(f, events[..d]) <= Keep(f, events)
  {
    assert events == events[..d] + events[d..];
    KeepConcat(f, events[..d], events[d..]);
  }

  lemma KeepSlice(f: Filter, events: seq<Event>, a: nat, b: nat, c: nat)
    requires a <= b <= c <= |events|
    ensures Keep(f, events[a..c]) == Keep(f, events[a..b]) + Keep(f, events[b..c])
  {
    assert events[a..c] == events[a..b] + events[b..c];
    KeepConcat(f, events[a..b], events[b..c]);
  }

  lemma KeepOne(f: Filter, e: Event)
    ensures Keep(f, [e]) == if Wanted(f, e) then [e] else []
  {
    assert [e][..0] == [];
  }

  // The mark is above everything wanted among what is sent, and below what comes after.
  lemma MarkDivides(cfg: Config, committed: seq<Event>, d: nat, j: nat)
    requires Ascending(committed) && d <= |committed| && j < |committed| && Wanted(Asked(cfg), committed[j])
    ensures var mark := Mark(cfg.after, Keep(Asked(cfg), committed[..d]));
            if j < d then committed[j].id.value <= mark else committed[j].id.value > mark
  {
    hide Keep;
    var kept := Keep(Asked(cfg), committed[..d]);
    assert Ascending(committed[..d]);
    KeepAscends(Asked(cfg), committed[..d]);
    if j < d {
      assert committed[..d][j] in kept;
      var i :| 0 <= i < |kept| && kept[i] == committed[j];
    } else if kept != [] {
      var last := kept[|kept| - 1];
      assert last in committed[..d];
      var i :| 0 <= i < d && committed[..d][i] == last;
      assert committed[i] == last;
    }
  }

  // ------------------------------------------------------------------------
  // Every step
  // ------------------------------------------------------------------------

  lemma CommitKeeps(cfg: Config, s: State, a: Step)
    requires Inv(cfg, s) && a.Commit? && Enabled(cfg, s, a)
    ensures Inv(cfg, Next(cfg, s, a))
  {
    hide Resynced, Keep, Sent, Ascending;
    var s' := Next(cfg, s, a);
    assert s'.committed[..|s.committed|] == s.committed;
    KeepPrefix(Asked(cfg), s'.committed, |s.committed|);
    if !Resynced(s.out) && !s.phase.Idle? {
      var c: nat, m: nat, k: nat, d: nat :| QueueAt(cfg, s, c, m, k) && SentAt(cfg, s, c, d);
      assert s'.committed[c..m] == s.committed[c..m] && s'.committed[..d] == s.committed[..d];
      assert QueueAt(cfg, s', c, m, k) && SentAt(cfg, s', c, d);
    }
  }

  // An event offered to the queue: taken at its end, dropped for good, or not wanted.
  lemma OfferKeeps(cfg: Config, s: State, e: Event, s': State, c: nat, m: nat, k: nat)
    requires QueueAt(cfg, s, c, m, k) && !s.phase.Idle? && Ascending(s.committed)
    requires e.id.Some? ==> s.published < |s.committed| && e == s.committed[s.published]
    requires s' == s.(published := if e.id.Some? then s.published + 1 else s.published,
                      inbox := Offer(s.inbox, cfg.patterns, cfg.maxsize, e))
    ensures exists m': nat, k': nat :: QueueAt(cfg, s', c, m', k')
  {
    hide Keep;
    var queue := s.inbox.queue;
    if s.inbox.overflowed || (Takes(cfg.patterns, e.name) && Full(queue, cfg.maxsize)) {
      assert s'.inbox.queue[..k] == queue[..k];
      assert QueueAt(cfg, s', c, m, k);
    } else {
      var m' := s'.published;
      if e.id.Some? {
        KeepSlice(Heard(cfg), s.committed, c, m, m');
        assert s.committed[m..m'] == [e];
        KeepOne(Heard(cfg), e);
      }
      KeepConcat(Filter(None, None, -1), queue, [e]);
      KeepOne(Filter(None, None, -1), e);
      assert queue[..k] == queue;
      assert s'.inbox.queue[..|s'.inbox.queue|] == s'.inbox.queue;
      assert QueueAt(cfg, s', c, m', |s'.inbox.queue|);
    }
  }

  lemma PublishKeeps(cfg: Config, s: State, a: Step)
    requires Inv(cfg, s) && (a.Publish? || a.PublishEphemeral?) && Enabled(cfg, s, a)
    ensures Inv(cfg, Next(cfg, s, a))
  {
    hide Resynced, Keep, Sent, QueueAt, Offer;
    var s' := Next(cfg, s, a);
    if !Resynced(s.out) && !s.phase.Idle? {
      var c: nat, m: nat, k: nat, d: nat :| QueueAt(cfg, s, c, m, k) && SentAt(cfg, s, c, d);
      OfferKeeps(cfg, s, if a.Publish? then s.committed[s.published] else a.e, s', c, m, k);
      var m': nat, k': nat :| QueueAt(cfg, s', c, m', k');
      assert SentAt(cfg, s', c, d);
    }
  }

  lemma SubscribeKeeps(cfg: Config, s: State, a: Step)
    requires Inv(cfg, s) && a.Subscribe? && Enabled(cfg, s, a)
    ensures Inv(cfg, Next(cfg, s, a))
  {
    var s' := Next(cfg, s, a);
    assert s.committed[s.published..s.published] == [];
    assert QueueAt(cfg, s', s.published, s.published, 0) && SentAt(cfg, s', s.published, s.published);
  }

  lemma PageKeeps(cfg: Config, s: State, a: Step)
    requires Inv(cfg, s) && a.Page? && Enabled(cfg, s, a)
    ensures Inv(cfg, Next(cfg, s, a))
  {
    hide Keep, Rows, QueueAt;
    var s' := Next(cfg, s, a);
    RowsAreKept(Asked(cfg), s.committed);
    SentNext(s.out, Resync(ReplayCapped));
    if !Resynced(s'.out) {
      assert !Resynced(s.out);
      var c: nat, m: nat, k: nat, d: nat :| QueueAt(cfg, s, c, m, k) && SentAt(cfg, s, c, d);
      QueueUntouched(cfg, s, s', c, m, k);
      assert s.committed[..|s.committed|] == s.committed;
      assert SentAt(cfg, s', c, |s.committed|);
    }
  }

  lemma QueueUntouched(cfg: Config, s: State, s': State, c: nat, m: nat, k: nat)
    requires QueueAt(cfg, s, c, m, k) && s'.committed == s.committed && s'.published == s.published
        && s'.inbox == s.inbox
    requires s'.inbox.overflowed ==> !s'.phase.Getting?
    ensures QueueAt(cfg, s', c, m, k)
  {
  }

  lemma SendSeamless(cfg: Config, s: State, a: Step, c: nat, m: nat, k: nat, d: nat)
    requires QueueAt(cfg, s, c, m, k) && SentAt(cfg, s, c, d) && !Resynced(s.out)
    requires a.Send? && Enabled(cfg, s, a)
    ensures var s' := Next(cfg, s, a);
            QueueAt(cfg, s', c, m, k) && SentAt(cfg, s', c, d) && Sent(s'.out) <= Keep(Asked(cfg), s.committed[..d])
  {
    hide Keep, QueueAt, Sent, Resynced, Wanted;
    var s', rows := Next(cfg, s, a), s.phase.rows;
    QueueUntouched(cfg, s, s', c, m, k);
    var kept := Keep(Asked(cfg), s.committed[..d]);
    if rows == [] {
      assert Sent(s.out) + rows == Sent(s.out);
    } else {
      SentNext(s.out, Data(rows[0]));
      MovesOver(Sent(s.out), rows);
      KeptHasId(Asked(cfg), s.committed[..d], rows[0]);
      assert Sent(s'.out) == Sent(s.out) + [rows[0]];
    }
  }

  // The head of what is left goes over to what is sent.
  lemma MovesOver(sent: seq<Event>, rows: seq<Event>)
    requires rows != []
    ensures sent + rows == sent + [rows[0]] + rows[1..] && rows[0] in sent + rows
  {
    assert (sent + rows)[|sent|] == rows[0];
  }

  lemma KeptHasId(f: Filter, events: seq<Event>, e: Event)
    requires e in Keep(f, events)
    ensures e.id.Some?
  {
  }

  lemma SendKeeps(cfg: Config, s: State, a: Step)
    requires Inv(cfg, s) && a.Send? && Enabled(cfg, s, a)
    ensures Inv(cfg, Next(cfg, s, a))
  {
    hide Keep, QueueAt, SentAt, Sent, Resynced;
    if s.phase.rows != [] {
      SentNext(s.out, Data(s.phase.rows[0]));
    }
    if !Resynced(s.out) {
      var c: nat, m: nat, k: nat, d: nat :| QueueAt(cfg, s, c, m, k) && SentAt(cfg, s, c, d);
      SendSeamless(cfg, s, a, c, m, k, d);
      SentBounds(cfg, s, c, d);
      KeepPrefix(Asked(cfg), s.committed, d);
    }
  }

  lemma SentBounds(cfg: Config, s: State, c: nat, d: nat)
    requires SentAt(cfg, s, c, d)
    ensures d <= |s.committed|
  {
  }

  lemma TurnKeeps(cfg: Config, s: State, a: Step)
    requires Inv(cfg, s) && a.Turn? && Enabled(cfg, s, a)
    ensures Inv(cfg, Next(cfg, s, a))
  {
    hide Keep, Sent, Resynced, QueueAt;
    var s' := Next(cfg, s, a);
    SentNext(s.out, Resync(Overflowed));
    if !Resynced(s'.out) {
      var c: nat, m: nat, k: nat, d: nat :| QueueAt(cfg, s, c, m, k) && SentAt(cfg, s, c, d);
      assert !s.inbox.overflowed;
      QueueUntouched(cfg, s, s', c, m, k);
      assert SentAt(cfg, s', c, d);
    }
  }

  lemma KeptSome(f: Filter, events: seq<Event>)
    requires Keep(f, events) != []
    ensures events != []
  {
  }

  // Keeping is by the first event, too.
  lemma KeepFirst(f: Filter, events: seq<Event>)
    requires events != []
    ensures Keep(f, events) == if Wanted(f, events[0]) then [events[0]] + Keep(f, events[1..]) else Keep(f, events[1..])
  {
    hide Keep, Wanted;
    assert events == [events[0]] + events[1..];
    KeepConcat(f, [events[0]], events[1..]);
    KeepOne(f, events[0]);
    assert [] + Keep(f, events[1..]) == Keep(f, events[1..]);
  }

  // Event j is the first that is wanted.
  predicate IsFirst(f: Filter, events: seq<Event>, j: nat) {
    j < |events| && Wanted(f, events[j]) && forall i | 0 <= i < j :: !Wanted(f, events[i])
  }

  lemma FirstOfRest(f: Filter, events: seq<Event>, j: nat)
    requires events != [] && !Wanted(f, events[0]) && IsFirst(f, events[1..], j)
    ensures IsFirst(f, events, j + 1) && events[1..][j] == events[j + 1] && events[1..][j + 1..] == events[j + 2..]
  {
    hide Wanted;
    forall i | 0 <= i < j + 1 ensures !Wanted(f, events[i]) {
      assert i > 0 ==> events[i] == events[1..][i - 1];
    }
  }

  // The first event kept, and the rest of what is kept.
  lemma {:induction false} FirstKept(f: Filter, events: seq<Event>) returns (j: nat)
    requires Keep(f, events) != []
    ensures j < |events| && IsFirst(f, events, j)
    ensures events[j] == Keep(f, events)[0] && Keep(f, events)[1..] == Keep(f, events[j + 1..])
    decreases |events|
  {
    hide Keep, Wanted, IsFirst;
    KeptSome(f, events);
    KeepFirst(f, events);
    if Wanted(f, events[0]) {
      j := 0;
      HeadIsFirst(f, events);
    } else {
      var k := FirstKept(f, events[1..]);
      FirstOfRest(f, events, k);
      j := k + 1;
    }
  }

  lemma HeadIsFirst(f: Filter, events: seq<Event>)
    requires events != [] && Wanted(f, events[0])
    ensures IsFirst(f, events, 0)
  {
  }

  // The next committed event the subscription selects, when there is one.
  lemma FirstHeard(f: Filter, committed: seq<Event>, c: nat, m: nat) returns (j: nat)
    requires c <= m <= |committed| && Keep(f, committed[c..m]) != []
    ensures c <= j < m && committed[j] == Keep(f, committed[c..m])[0]
    ensures Keep(f, committed[c..m])[1..] == Keep(f, committed[j + 1..m])
    ensures forall i | c <= i < j :: !Wanted(f, committed[i])
  {
    hide Keep, Wanted;
    var k := FirstKept(f, committed[c..m]);
    j := c + k;
    FirstWithin(f, committed, c, m, k);
  }

  lemma FirstWithin(f: Filter, committed: seq<Event>, c: nat, m: nat, k: nat)
    requires c <= m <= |committed| && IsFirst(f, committed[c..m], k)
    ensures c + k < m && committed[c..m][k] == committed[c + k] && committed[c..m][k + 1..] == committed[c + k + 1..m]
    ensures forall i | c <= i < c + k :: !Wanted(f, committed[i])
  {
    hide Wanted;
    forall i | c <= i < c + k ensures !Wanted(f, committed[i]) {
      assert committed[i] == committed[c..m][i - c];
    }
  }

  // Taking the head of the queue moves the contiguous part on by one.
  lemma HeadTaken(cfg: Config, s: State, s': State, c: nat, m: nat, k: nat) returns (c': nat)
    requires QueueAt(cfg, s, c, m, k) && k >= 1 && Ascending(s.committed)
    requires s'.committed == s.committed && s'.published == s.published && s'.phase.Turning?
    requires s'.inbox == s.inbox.(queue := s.inbox.queue[1..])
    ensures c <= c' <= m && QueueAt(cfg, s', c', m, k - 1)
    ensures s.inbox.queue[0].id.None? ==> c' == c
    ensures s.inbox.queue[0].id.Some? ==> c' > c && s.committed[c' - 1] == s.inbox.queue[0]
    ensures forall i | c <= i < c' - 1 :: !Wanted(Heard(cfg), s.committed[i])
  {
    hide Keep;
    var queue, e := s.inbox.queue, s.inbox.queue[0];
    var all := Filter(None, None, -1);
    assert queue[..k] == [e] + queue[1..][..k - 1];
    KeepConcat(all, [e], queue[1..][..k - 1]);
    KeepOne(all, e);
    c' := c;
    if e.id.Some? {
      var j := FirstHeard(Heard(cfg), s.committed, c, m);
      c' := j + 1;
    }
  }

  // Moving past events that were not asked for adds nothing to what was.
  lemma SkipUnwanted(cfg: Config, committed: seq<Event>, d: nat, d': nat)
    requires d <= d' <= |committed| && forall i | d <= i < d' :: !Wanted(Asked(cfg), committed[i])
    ensures Keep(Asked(cfg), committed[..d']) == Keep(Asked(cfg), committed[..d])
  {
    hide Keep;
    assert committed[..d'] == committed[..d] + committed[d..d'];
    KeepConcat(Asked(cfg), committed[..d], committed[d..d']);
    KeepNone(Asked(cfg), committed[d..d']);
  }

  lemma AskedIsHeard(cfg: Config, e: Event)
    ensures Wanted(Asked(cfg), e) <==>
      Wanted(Heard(cfg), e) && e.id.value > cfg.after && (cfg.run.None? || e.run == cfg.run)
  {
  }

  // The live loop's two filters pass on exactly what was asked for and is not yet sent.
  lemma TakenIsNext(cfg: Config, committed: seq<Event>, c: nat, d: nat, c': nat) returns (d': nat)
    requires Ascending(committed) && c <= d <= |committed| && c < c' <= |committed|
    requires forall i | c <= i < c' - 1 :: !Wanted(Heard(cfg), committed[i])
    requires Wanted(Heard(cfg), committed[c' - 1])
    ensures c' <= d' <= |committed|
    ensures var e, kept := committed[c' - 1], Keep(Asked(cfg), committed[..d]);
            Keep(Asked(cfg), committed[..d']) ==
              if (cfg.run.Some? && e.run != cfg.run) || e.id.value <= Mark(cfg.after, kept) then kept else kept + [e]
  {
    hide Keep;
    var e, kept := committed[c' - 1], Keep(Asked(cfg), committed[..d]);
    forall i | c <= i < |committed| && Wanted(Asked(cfg), committed[i]) ensures Wanted(Heard(cfg), committed[i]) {
      AskedIsHeard(cfg, committed[i]);
    }
    AskedIsHeard(cfg, e);
    if Wanted(Asked(cfg), e) {
      MarkDivides(cfg, committed, d, c' - 1);
    }
    d' := if d < c' then c' else d;
    if d < c' {
      SkipUnwanted(cfg, committed, d, c' - 1);
      assert committed[..c'] == committed[..c' - 1] + [e];
      KeepConcat(Asked(cfg), committed[..c' - 1], [e]);
      KeepOne(Asked(cfg), e);
    }
    MarkAtLeast(cfg, committed, d);
  }

  lemma MarkAtLeast(cfg: Config, committed: seq<Event>, d: nat)
    requires d <= |committed|
    ensures Mark(cfg.after, Keep(Asked(cfg), committed[..d])) >= cfg.after
  {
    hide Keep;
    var kept := Keep(Asked(cfg), committed[..d]);
    if kept != [] {
      assert Wanted(Asked(cfg), kept[|kept| - 1]);
    }
  }

  lemma GetKeeps(cfg: Config, s: State, a: Step)
    requires Inv(cfg, s) && a.Get? && Enabled(cfg, s, a)
    ensures Inv(cfg, Next(cfg, s, a))
  {
    hide Keep, Sent, Resynced, QueueAt, Ascending, Wanted, Mark;
    var s', e := Next(cfg, s, a), s.inbox.queue[0];
    SentNext(s.out, Data(e));
    if !Resynced(s.out) {
      GetSeamless(cfg, s, a);
      var c: nat, m: nat, k: nat, d: nat :| QueueAt(cfg, s', c, m, k) && SentAt(cfg, s', c, d);
      KeepPrefix(Asked(cfg), s.committed, d);
    }
  }

  lemma GetSeamless(cfg: Config, s: State, a: Step)
    requires Ascending(s.committed) && Seamless(cfg, s) && a.Get? && Enabled(cfg, s, a) && !Resynced(s.out)
    ensures Seamless(cfg, Next(cfg, s, a))
  {
    hide Keep, Sent, Resynced, QueueAt, Ascending;
    var s', e := Next(cfg, s, a), s.inbox.queue[0];
    SentNext(s.out, Data(e));
    var c: nat, m: nat, k: nat, d: nat :| QueueAt(cfg, s, c, m, k) && SentAt(cfg, s, c, d);
    HeadThere(cfg, s, c, m, k);
    var c' := HeadTaken(cfg, s, s', c, m, k);
    if e.id.None? {
      MarkAtLeast(cfg, s.committed, d);
      assert SentAt(cfg, s', c', d);
    } else {
      HeadHeard(cfg, s, c, m, k);
      QueueBounds(cfg, s', c', m, k - 1);
      var d' := TakenIsNext(cfg, s.committed, c, d, c');
      assert SentAt(cfg, s', c', d');
    }
  }

  lemma HeadThere(cfg: Config, s: State, c: nat, m: nat, k: nat)
    requires QueueAt(cfg, s, c, m, k) && s.phase.Getting? && s.inbox.queue != []
    ensures 1 <= k <= |s.inbox.queue|
  {
  }

  lemma QueueBounds(cfg: Config, s: State, c: nat, m: nat, k: nat)
    requires QueueAt(cfg, s, c, m, k)
    ensures c <= m <= |s.committed|
  {
  }

  lemma HeadHeard(cfg: Config, s: State, c: nat, m: nat, k: nat)
    requires QueueAt(cfg, s, c, m, k) && k >= 1 && s.inbox.queue[0].id.Some?
    ensures Wanted(Heard(cfg), s.inbox.queue[0])
  {
    hide Keep;
    assert s.inbox.queue[..k][0] in StoredIn(s.inbox.queue[..k]);
  }

  lemma StepKeeps(cfg: Config, s: State, a: Step)
    requires Inv(cfg, s) && Enabled(cfg, s, a)
    ensures Inv(cfg, Next(cfg, s, a))
  {
    hide Inv, Enabled, Next;
    match a
    case Commit(_) => CommitKeeps(cfg, s, a);
    case Publish => PublishKeeps(cfg, s, a);
    case PublishEphemeral(_) => PublishKeeps(cfg, s, a);
    case Subscribe => SubscribeKeeps(cfg, s, a);
    case Page => PageKeeps(cfg, s, a);
    case Send => SendKeeps(cfg, s, a);
    case Turn => TurnKeeps(cfg, s, a);
    case Get => GetKeeps(cfg, s, a);
  }

  lemma {:induction false} RunKeeps(cfg: Config, s: State, trace: seq<Step>)
    requires Inv(cfg, s) && IsRun(cfg, s, trace)
    ensures Inv(cfg, End(cfg, s, trace))
    decreases |trace|
  {
    hide Inv, Enabled, Next;
    if trace != [] {
      StepKeeps(cfg, s, trace[0]);
      RunKeeps(cfg, Next(cfg, s, trace[0]), trace[1..]);
    }
  }

  // ------------------------------------------------------------------------
  // The seam
  // ------------------------------------------------------------------------

  lemma StartInv(cfg: Config, committed: seq<Event>, published: nat)
    requires Ascending(committed) && published <= |committed|
    ensures Inv(cfg, Start(cfg, committed, published))
  {
  }

  // Whatever the interleaving, the stored events sent before the first resync are the first
  // of the committed events that match the filters and lie above the cursor: ascending, no
  // gap, no duplicate.
  lemma NoGapNoDuplicate(cfg: Config, committed: seq<Event>, published: nat, trace: seq<Step>)
    requires Ascending(committed) && published <= |committed| && IsRun(cfg, Start(cfg, committed, published), trace)
    ensures var s := End(cfg, Start(cfg, committed, published), trace);
            Ascending(s.committed) && Sent(s.out) <= Keep(Asked(cfg), s.committed) && Ascending(Sent(s.out))
  {
    hide Keep, Sent, IsRun, End;
    StartInv(cfg, committed, published);
    RunKeeps(cfg, Start(cfg, committed, published), trace);
    var s := End(cfg, Start(cfg, committed, published), trace);
    KeepAscends(Asked(cfg), s.committed);
  }

  // Nothing is held back either: once the stream is live, all that is committed is
  // published, and the queue is drained with nothing dropped, all of it has been sent.
  lemma AllIsSent(cfg: Config, committed: seq<Event>, published: nat, trace: seq<Step>)
    requires Ascending(committed) && published <= |committed| && IsRun(cfg, Start(cfg, committed, published), trace)
    ensures var s := End(cfg, Start(cfg, committed, published), trace);
            (s.phase.Turning? || s.phase.Getting?) && s.published == |s.committed| && s.inbox == Inbox([], false)
                && !Resynced(s.out) ==>
              Sent(s.out) == Keep(Asked(cfg), s.committed)
  {
    hide Keep, Sent, IsRun, End, Resynced;
    StartInv(cfg, committed, published);
    RunKeeps(cfg, Start(cfg, committed, published), trace);
    var s := End(cfg, Start(cfg, committed, published), trace);
    if (s.phase.Turning? || s.phase.Getting?) && s.published == |s.committed| && s.inbox == Inbox([], false)
        && !Resynced(s.out) {
      var c: nat, m: nat, k: nat, d: nat :| QueueAt(cfg, s, c, m, k) && SentAt(cfg, s, c, d);
      DrainedIsAll(cfg, s, c, m, k, d);
    }
  }

  lemma DrainedIsAll(cfg: Config, s: State, c: nat, m: nat, k: nat, d: nat)
    requires QueueAt(cfg, s, c, m, k) && SentAt(cfg, s, c, d) && (s.phase.Turning? || s.phase.Getting?)
    requires s.published == |s.committed| && s.inbox == Inbox([], false)
    ensures Sent(s.out) == Keep(Asked(cfg), s.committed)
  {
    hide Sent;
    assert s.committed[c..m] == s.committed[c..];
    forall i | d <= i < |s.committed| ensures !Wanted(Asked(cfg), s.committed[i]) {
      AskedIsHeard(cfg, s.committed[i]);
      assert s.committed[i] == s.committed[c..][i - c];
      assert s.committed[i] in s.committed[c..];
    }
    SkipUnwanted(cfg, s.committed, d, |s.committed|);
    assert s.committed[..|s.committed|] == s.committed;
  }

  lemma {:induction false} SentSplit(out: seq<Frame>, k: nat)
    requires k <= |out| && !Resynced(out[..k])
    ensures Sent(out) == Sent(out[..k]) + Sent(out[k..])
    ensures forall e | e in Sent(out[..k]) :: Data(e) in out[..k]
  {
    if k > 0 {
      assert !out[..k][0].Resync?;
      assert out[..k][1..] == out[1..][..k - 1];
      var rest := out[1..][..k - 1];
      forall i | 0 <= i < |rest| ensures !rest[i].Resync? {
        assert !out[..k][i + 1].Resync?;
      }
      SentSplit(out[1..], k - 1);
    }
  }

  // An event that was asked for and not sent before a later one was is announced first: a
  // resync stands before the later one.
  lemma SkipsAreAnnounced(cfg: Config, committed: seq<Event>, published: nat, trace: seq<Step>, k: nat, x: Event)
    requires Ascending(committed) && published <= |committed| && IsRun(cfg, Start(cfg, committed, published), trace)
    ensures var s := End(cfg, Start(cfg, committed, published), trace);
            k < |s.out| && s.out[k].Data? && s.out[k].event.id.Some? && x in s.committed && Wanted(Asked(cfg), x)
              && x.id.value < s.out[k].event.id.value ==>
              Resynced(s.out[..k]) || Data(x) in s.out[..k]
  {
    hide Keep, IsRun, End, Wanted, Resynced;
    NoGapNoDuplicate(cfg, committed, published, trace);
    var s := End(cfg, Start(cfg, committed, published), trace);
    var kept := Keep(Asked(cfg), s.committed);
    KeepAscends(Asked(cfg), s.committed);
    if k < |s.out| && s.out[k].Data? && s.out[k].event.id.Some? && x in kept && x.id.Some?
      && x.id.value < s.out[k].event.id.value && !Resynced(s.out[..k])
    {
      var before := Sent(s.out[..k]);
      SentSplit(s.out, k);
      assert s.out[k..][0] == s.out[k];
      assert Sent(s.out)[|before|] == s.out[k].event;
      var i :| 0 <= i < |kept| && kept[i] == x;
      assert kept[|before|] == s.out[k].event;
      assert i < |before| && before[i] == Sent(s.out)[i] == x;
      assert x in before;
    }
    WantedHasId(Asked(cfg), x);
  }

  lemma WantedHasId(f: Filter, e: Event)
    ensures Wanted(f, e) ==> e.id.Some?
  {
  }
}
