/** Everything a connection sends, stored or not, before a resync and after it: the page, and
    then what the subscription took, in the order it was published (athanore/api/sse.py). */
module LiveFeed {
  import opened Base
  import opened Bus
  import opened Feed

  // ------------------------------------------------------------------------
  // What was sent, and what was published
  // ------------------------------------------------------------------------

  // The events among the frames, and the reasons of the others.
  function Events(out: seq<Frame>): seq<Event> {
    if out == [] then []
    else
      var last := out[|out| - 1];
      Events(out[..|out| - 1]) + (if last.Data? then [last.event] else [])
  }

  function Reasons(out: seq<Frame>): seq<ResyncReason> {
    if out == [] then []
    else
      var last := out[|out| - 1];
      Reasons(out[..|out| - 1]) + (if last.Resync? then [last.reason] else [])
  }

  // Of the asked run, and not sent with the page.
  predicate Passes(cfg: Config, mark: nat, e: Event) {
    (cfg.run.None? || e.run == cfg.run) && (e.id.None? || e.id.value > mark)
  }

  function Passed(cfg: Config, mark: nat, events: seq<Event>): seq<Event> {
    if events == [] then []
    else
      var last := events[|events| - 1];
      Passed(cfg, mark, events[..|events| - 1]) + (if Passes(cfg, mark, last) then [last] else [])
  }

  // The event a step publishes, if it does.
  function Publishes(cfg: Config, s: State, a: Step): Option<Event>
    requires Enabled(cfg, s, a)
  {
    match a
    case Publish => Some(s.committed[s.published])
    case PublishEphemeral(e) => Some(e)
    case _ => None
  }

  // What a step tells the subscription, once there is one: an event of a name it takes.
  function Tells(cfg: Config, s: State, a: Step): seq<Event>
    requires Enabled(cfg, s, a)
  {
    var e := Publishes(cfg, s, a);
    if e.Some? && !s.phase.Idle? && Takes(cfg.patterns, e.value.name) then [e.value] else []
  }

  // And what of that there was room for.
  function Fits(cfg: Config, s: State, a: Step): seq<Event>
    requires Enabled(cfg, s, a)
  {
    if Full(s.inbox.queue, cfg.maxsize) then [] else Tells(cfg, s, a)
  }

  function Told(cfg: Config, s: State, trace: seq<Step>): seq<Event>
    requires IsRun(cfg, s, trace)
    decreases |trace|
  {
    if trace == [] then [] else Tells(cfg, s, trace[0]) + Told(cfg, Next(cfg, s, trace[0]), trace[1..])
  }

  function Taken(cfg: Config, s: State, trace: seq<Step>): seq<Event>
    requires IsRun(cfg, s, trace)
    decreases |trace|
  {
    if trace == [] then [] else Fits(cfg, s, trace[0]) + Taken(cfg, Next(cfg, s, trace[0]), trace[1..])
  }

  lemma {:induction false} PassedConcat(cfg: Config, mark: nat, a: seq<Event>, b: seq<Event>)
    ensures Passed(cfg, mark, a + b) == Passed(cfg, mark, a) + Passed(cfg, mark, b)
    decreases |b|
  {
    if b == [] {
      assert a + b == a;
    } else {
      var front := b[..|b| - 1];
      assert (a + b)[..|a + b| - 1] == a + front;
      PassedConcat(cfg, mark, a, front);
    }
  }

  lemma PassedOne(cfg: Config, mark: nat, e: Event)
    ensures Passed(cfg, mark, [e]) == if Passes(cfg, mark, e) then [e] else []
  {
    assert [e][..0] == [];
  }

  lemma OutNext(out: seq<Frame>, frame: Frame)
    ensures Events(out + [frame]) == Events(out) + (if frame.Data? then [frame.event] else [])
    ensures Reasons(out + [frame]) == Reasons(out) + (if frame.Resync? then [frame.reason] else [])
  {
    assert (out + [frame])[..|out|] == out;
  }

  // ------------------------------------------------------------------------
  // The invariant
  // ------------------------------------------------------------------------

  // The page that was sent, or that there was too much for one, and how much was committed when
  // it was read.
  datatype Replay = Replay(page: seq<Event>, capped: bool, at: nat)

  // The page is all that is asked for of what was committed then, unless that is too much.
  predicate ReadAt(cfg: Config, committed: seq<Event>, r: Replay) {
    && r.at <= |committed|
    && var rows := Keep(Asked(cfg), committed[..r.at]);
       (r.capped <==> |rows| > cfg.cap) && r.page == if r.capped then [] else rows
  }

  // The stored events among these ascend.
  predicate Rising(events: seq<Event>) {
    forall i, j | 0 <= i < j < |events| && events[i].id.Some? && events[j].id.Some? ::
      events[i].id.value < events[j].id.value
  }

  // Stored events are taken in the order of their ids, and none before it is committed.
  predicate InTurn(s: State, taken: seq<Event>) {
    && Rising(taken)
    && (forall i | 0 <= i < |taken| && taken[i].id.Some? ::
          0 < s.published <= |s.committed| && s.committed[s.published - 1].id.Some?
          && taken[i].id.value <= s.committed[s.published - 1].id.value)
  }

  // What is queued is the end of what was taken; the rest was got.
  predicate QueuedOf(s: State, taken: seq<Event>) {
    |s.inbox.queue| <= |taken| && s.inbox.queue == taken[|taken| - |s.inbox.queue|..]
  }

  function Got(s: State, taken: seq<Event>): seq<Event>
    requires QueuedOf(s, taken)
  {
    taken[..|taken| - |s.inbox.queue|]
  }

  // The mark moves with the stored events that are sent.
  predicate MarkOk(s: State, mark: nat, got: seq<Event>) {
    && s.last >= mark
    && (s.last == mark || exists i :: 0 <= i < |got| && got[i].id == Some(s.last))
  }

  predicate PageOk(cfg: Config, r: Replay) {
    && Ascending(r.page) && (forall i | 0 <= i < |r.page| :: Wanted(Asked(cfg), r.page[i]))
    && (r.capped ==> r.page == [])
  }

  predicate SentOk(cfg: Config, s: State, taken: seq<Event>, r: Replay)
    requires QueuedOf(s, taken)
  {
    match s.phase
    case Idle => s.out == [] && taken == [] && s.last == cfg.after && !s.reported
    case Paging => s.out == [] && Got(s, taken) == [] && s.last == cfg.after && !s.reported
    case Sending(rows) =>
      && Events(s.out) + rows == r.page && Got(s, taken) == [] && s.last == Mark(cfg.after, Events(s.out))
      && Reasons(s.out) == [] && !r.capped && !s.reported
    case _ =>
      var mark := Mark(cfg.after, r.page);
      && Events(s.out) == r.page + Passed(cfg, mark, Got(s, taken)) && MarkOk(s, mark, Got(s, taken))
      && Reasons(s.out) == (if r.capped then [ReplayCapped] else []) + (if s.reported then [Overflowed] else [])
  }

  // What is taken has a name that was asked for; what is stored is committed.
  predicate Known(cfg: Config, s: State, taken: seq<Event>, page: seq<Event>) {
    && (forall i | 0 <= i < |taken| ::
          Takes(cfg.patterns, taken[i].name) && (taken[i].id.Some? ==> taken[i] in s.committed))
    && (forall i | 0 <= i < |page| :: page[i] in s.committed)
  }

  predicate LiveOk(cfg: Config, s: State, taken: seq<Event>, told: seq<Event>, r: Replay) {
    && Ascending(s.committed) && s.published <= |s.committed| && InTurn(s, taken) && QueuedOf(s, taken)
    && (!s.inbox.overflowed ==> taken == told) && PageOk(cfg, r) && SentOk(cfg, s, taken, r)
    && Known(cfg, s, taken, r.page) && ReadAt(cfg, s.committed, r)
  }

  // ------------------------------------------------------------------------
  // Every step
  // ------------------------------------------------------------------------

  // An event at the end of the queue, or none.
  lemma PublishLive(cfg: Config, s: State, a: Step, taken: seq<Event>, told: seq<Event>, r: Replay)
    requires LiveOk(cfg, s, taken, told, r) && Enabled(cfg, s, a) && (a.Publish? || a.PublishEphemeral?)
    ensures LiveOk(cfg, Next(cfg, s, a), taken + Fits(cfg, s, a), told + Tells(cfg, s, a), r)
  {
    hide Events, Reasons, Passed, PageOk, ReadAt, Known, Takes;
    var s', more := Next(cfg, s, a), taken + Fits(cfg, s, a);
    PublishInTurn(cfg, s, a, taken);
    PublishKnown(cfg, s, a, taken, r.page);
    assert Got(s', more) == Got(s, taken);
  }

  lemma PublishKnown(cfg: Config, s: State, a: Step, taken: seq<Event>, page: seq<Event>)
    requires Known(cfg, s, taken, page) && Enabled(cfg, s, a) && (a.Publish? || a.PublishEphemeral?)
    ensures Known(cfg, Next(cfg, s, a), taken + Fits(cfg, s, a), page)
  {
    hide Takes, Full;
    var more := taken + Fits(cfg, s, a);
    forall i | 0 <= i < |more|
      ensures Takes(cfg.patterns, more[i].name) && (more[i].id.Some? ==> more[i] in s.committed)
    {
      assert i < |taken| ==> more[i] == taken[i];
    }
  }

  lemma PublishInTurn(cfg: Config, s: State, a: Step, taken: seq<Event>)
    requires Ascending(s.committed) && s.published <= |s.committed| && InTurn(s, taken) && QueuedOf(s, taken)
    requires Enabled(cfg, s, a) && (a.Publish? || a.PublishEphemeral?)
    ensures var s', more := Next(cfg, s, a), taken + Fits(cfg, s, a);
            InTurn(s', more) && QueuedOf(s', more)
  {
    hide InTurn, QueuedOf, Takes, Full, Ascending, Rising;
    var s', e := Next(cfg, s, a), Publishes(cfg, s, a).value;
    PublishedIs(cfg, s, a);
    if Fits(cfg, s, a) == [] {
      assert taken + [] == taken;
      StillInTurn(s, s', taken);
      StillQueued(s, s', taken, []);
    } else {
      NextInTurn(s, s', taken, e);
      StillQueued(s, s', taken, [e]);
    }
  }

  // What is published goes to the end of the queue, if it is wanted there and there is room.
  lemma PublishedIs(cfg: Config, s: State, a: Step)
    requires Enabled(cfg, s, a) && (a.Publish? || a.PublishEphemeral?)
    ensures var s', e := Next(cfg, s, a), Publishes(cfg, s, a).value;
            && s'.committed == s.committed && s'.inbox.queue == s.inbox.queue + Fits(cfg, s, a)
            && (Fits(cfg, s, a) == [] || Fits(cfg, s, a) == [e])
            && s'.published == (if a.Publish? then s.published + 1 else s.published)
            && (a.Publish? ==> s.published < |s.committed| && e == s.committed[s.published])
            && (a.PublishEphemeral? ==> e.id.None?)
  {
    hide Takes;
    assert s.inbox.queue + [] == s.inbox.queue;
  }

  lemma StillQueued(s: State, s': State, taken: seq<Event>, more: seq<Event>)
    requires QueuedOf(s, taken) && s'.inbox.queue == s.inbox.queue + more
    ensures QueuedOf(s', taken + more)
  {
    assert (taken + more)[|taken| - |s.inbox.queue|..] == taken[|taken| - |s.inbox.queue|..] + more;
  }

  lemma StillInTurn(s: State, s': State, taken: seq<Event>)
    requires Ascending(s.committed) && InTurn(s, taken) && s'.committed == s.committed
    requires s.published <= s'.published <= |s.committed|
    ensures InTurn(s', taken)
  {
  }

  lemma NextInTurn(s: State, s': State, taken: seq<Event>, e: Event)
    requires Ascending(s.committed) && InTurn(s, taken) && s'.committed == s.committed
    requires s.published <= s'.published <= |s.committed|
    requires e.id.Some? ==> s'.published == s.published + 1 && e == s.committed[s.published]
    ensures InTurn(s', taken + [e])
  {
    var more := taken + [e];
    forall i | 0 <= i < |more| ensures more[i] == if i < |taken| then taken[i] else e {
    }
    forall i | 0 <= i < |taken| && taken[i].id.Some? && e.id.Some? ensures taken[i].id.value < e.id.value {
      assert s.committed[s.published - 1].id.value < s.committed[s.published].id.value;
    }
  }

  lemma CommitLive(cfg: Config, s: State, a: Step, taken: seq<Event>, told: seq<Event>, r: Replay)
    requires LiveOk(cfg, s, taken, told, r) && Enabled(cfg, s, a) && a.Commit?
    ensures LiveOk(cfg, Next(cfg, s, a), taken, told, r)
  {
    hide Events, Reasons, Passed, PageOk, Keep;
    assert Next(cfg, s, a).committed[..r.at] == s.committed[..r.at];
  }

  function Pages(cfg: Config, rows: seq<Event>, at: nat): Replay {
    if |rows| > cfg.cap then Replay([], true, at) else Replay(rows, false, at)
  }

  // The page is read: its rows are to be sent, or the replay is capped.
  lemma PageLive(cfg: Config, s: State, a: Step, taken: seq<Event>, told: seq<Event>, r: Replay) returns (r': Replay)
    requires LiveOk(cfg, s, taken, told, r) && Enabled(cfg, s, a) && a.Page?
    ensures LiveOk(cfg, Next(cfg, s, a), taken, told, r') && r'.at == |s.committed|
  {
    hide Passed, Keep, Ascending, InTurn, QueuedOf, PageOk, SentOk, ListAfter, ReadAt;
    var rows := Keep(Asked(cfg), s.committed);
    r' := Pages(cfg, rows, |s.committed|);
    PageIs(cfg, s, a);
    KeptPage(cfg, s.committed);
    KnownPage(cfg, s, taken, r.page);
    StillInTurn(s, Next(cfg, s, a), taken);
    PageSent(cfg, s, a, taken, r);
  }

  lemma KnownPage(cfg: Config, s: State, taken: seq<Event>, page: seq<Event>)
    requires Known(cfg, s, taken, page)
    ensures Known(cfg, s, taken, Keep(Asked(cfg), s.committed)) && Known(cfg, s, taken, [])
  {
    hide Wanted, Takes;
  }

  lemma PageIs(cfg: Config, s: State, a: Step)
    requires Enabled(cfg, s, a) && a.Page?
    ensures var rows := Keep(Asked(cfg), s.committed);
            Next(cfg, s, a) ==
              if |rows| > cfg.cap then s.(phase := Turning, out := s.out + [Resync(ReplayCapped)])
              else s.(phase := Sending(rows))
  {
    hide Keep, Rows;
    RowsAreKept(Asked(cfg), s.committed);
  }

  lemma KeptPage(cfg: Config, committed: seq<Event>)
    requires Ascending(committed)
    ensures PageOk(cfg, Pages(cfg, Keep(Asked(cfg), committed), |committed|))
    ensures ReadAt(cfg, committed, Pages(cfg, Keep(Asked(cfg), committed), |committed|))
  {
    hide Wanted, Keep, Ascending;
    KeepAscends(Asked(cfg), committed);
    NothingAscends();
    assert committed[..|committed|] == committed;
    assert forall i | 0 <= i < |Keep(Asked(cfg), committed)| :: Wanted(Asked(cfg), Keep(Asked(cfg), committed)[i]);
  }

  lemma NothingAscends()
    ensures Ascending([])
  {
  }

  lemma PageSent(cfg: Config, s: State, a: Step, taken: seq<Event>, r: Replay)
    requires QueuedOf(s, taken) && SentOk(cfg, s, taken, r) && Enabled(cfg, s, a) && a.Page?
    ensures QueuedOf(Next(cfg, s, a), taken)
    ensures var rows := Keep(Asked(cfg), s.committed);
            SentOk(cfg, Next(cfg, s, a), taken, Pages(cfg, rows, |s.committed|))
  {
    hide Keep, ListAfter, Next;
    PageIs(cfg, s, a);
    var rows, s' := Keep(Asked(cfg), s.committed), Next(cfg, s, a);
    assert Got(s', taken) == [] && Events([]) == [] && Reasons([]) == [];
    if |rows| > cfg.cap {
      OutNext([], Resync(ReplayCapped));
      assert s'.out == [Resync(ReplayCapped)];
      assert [] + Passed(cfg, cfg.after, []) == [];
      assert [ReplayCapped] + [] == [ReplayCapped];
    } else {
      assert [] + rows == rows;
    }
  }

  lemma PassedNothing(cfg: Config, mark: nat)
    ensures Passed(cfg, mark, []) == []
  {
  }

  lemma SendLive(cfg: Config, s: State, a: Step, taken: seq<Event>, told: seq<Event>, r: Replay)
    requires LiveOk(cfg, s, taken, told, r) && Enabled(cfg, s, a) && a.Send?
    ensures LiveOk(cfg, Next(cfg, s, a), taken, told, r)
  {
    hide Passed, Wanted, Events, Reasons, ReadAt;
    var rows := s.phase.rows;
    if rows == [] {
      PassedNothing(cfg, Mark(cfg.after, r.page));
      assert Events(s.out) + rows == Events(s.out);
    } else {
      OutNext(s.out, Data(rows[0]));
      assert Events(s.out) + [rows[0]] + rows[1..] == Events(s.out) + rows;
      assert r.page[|Events(s.out)|] == rows[0];
    }
  }

  lemma TurnLive(cfg: Config, s: State, a: Step, taken: seq<Event>, told: seq<Event>, r: Replay)
    requires LiveOk(cfg, s, taken, told, r) && Enabled(cfg, s, a) && a.Turn?
    ensures LiveOk(cfg, Next(cfg, s, a), taken, told, r)
  {
    hide Passed, Events, Reasons, PageOk, ReadAt;
    OutNext(s.out, Resync(Overflowed));
  }

  // The head of the queue is sent exactly when it passes.
  lemma GetLive(cfg: Config, s: State, a: Step, taken: seq<Event>, told: seq<Event>, r: Replay)
    requires LiveOk(cfg, s, taken, told, r) && Enabled(cfg, s, a) && a.Get?
    ensures LiveOk(cfg, Next(cfg, s, a), taken, told, r)
  {
    hide Passed, Events, Reasons, PageOk, ReadAt, Ascending, Mark, MarkOk, InTurn, Known, Passes, Takes;
    var s', e, mark := Next(cfg, s, a), s.inbox.queue[0], Mark(cfg.after, r.page);
    var got := Got(s, taken);
    HeadGot(s, s', taken);
    StillInTurn(s, s', taken);
    StillKnown(cfg, s, s', taken, r.page);
    if e.id.Some? {
      MarkMoves(s, mark, taken, |got|);
    }
    PassedConcat(cfg, mark, got, [e]);
    PassedOne(cfg, mark, e);
    PassesWhen(cfg, mark, e);
    OutNext(s.out, Data(e));
    MarkFollows(s, s', mark, got, e);
    assert r.page + Passed(cfg, mark, got) + [e] == r.page + (Passed(cfg, mark, got) + [e]);
    assert Passed(cfg, mark, got) + [] == Passed(cfg, mark, got);
  }

  lemma StillKnown(cfg: Config, s: State, s': State, taken: seq<Event>, page: seq<Event>)
    requires Known(cfg, s, taken, page) && s'.committed == s.committed
    ensures Known(cfg, s', taken, page)
  {
    hide Takes;
  }

  lemma PassesWhen(cfg: Config, mark: nat, e: Event)
    ensures Passes(cfg, mark, e) <==> !(cfg.run.Some? && e.run != cfg.run) && !(e.id.Some? && e.id.value <= mark)
  {
  }

  lemma HeadGot(s: State, s': State, taken: seq<Event>)
    requires QueuedOf(s, taken) && s.inbox.queue != [] && s'.inbox.queue == s.inbox.queue[1..]
    ensures QueuedOf(s', taken) && Got(s', taken) == Got(s, taken) + [s.inbox.queue[0]]
    ensures |Got(s, taken)| < |taken| && taken[|Got(s, taken)|] == s.inbox.queue[0]
    ensures taken[..|Got(s, taken)|] == Got(s, taken)
  {
    var n := |taken| - |s.inbox.queue|;
    assert taken[n..][0] == taken[n] && taken[n..][1..] == taken[n + 1..];
  }

  lemma MarkFollows(s: State, s': State, mark: nat, got: seq<Event>, e: Event)
    requires MarkOk(s, mark, got)
    requires s'.last == s.last || (e.id == Some(s'.last) && s'.last > s.last)
    ensures MarkOk(s', mark, got + [e])
  {
    if s'.last != s.last {
      assert (got + [e])[|got|].id == Some(s'.last);
    } else if s.last != mark {
      var i :| 0 <= i < |got| && got[i].id == Some(s.last);
      assert (got + [e])[i].id == Some(s'.last);
    }
  }

  // Above the mark means above the page, for the next that was taken.
  lemma MarkMoves(s: State, mark: nat, taken: seq<Event>, k: nat)
    requires InTurn(s, taken) && k < |taken| && MarkOk(s, mark, taken[..k]) && taken[k].id.Some?
    ensures taken[k].id.value > s.last <==> taken[k].id.value > mark
  {
    if s.last != mark {
      var i :| 0 <= i < |taken[..k]| && taken[..k][i].id == Some(s.last);
      assert taken[i].id == Some(s.last);
    }
  }

  lemma StepLive(cfg: Config, s: State, a: Step, taken: seq<Event>, told: seq<Event>, r: Replay) returns (r': Replay)
    requires LiveOk(cfg, s, taken, told, r) && Enabled(cfg, s, a)
    ensures LiveOk(cfg, Next(cfg, s, a), taken + Fits(cfg, s, a), told + Tells(cfg, s, a), r')
    ensures if a.Page? then r'.at == |s.committed| else r' == r
  {
    r' := r;
    if a.Publish? || a.PublishEphemeral? {
      PublishLive(cfg, s, a, taken, told, r);
    } else {
      hide LiveOk, Enabled, Next;
      NothingTold(cfg, s, a, taken, told);
      match a
      case Commit(_) => CommitLive(cfg, s, a, taken, told, r);
      case Subscribe => SubscribeLive(cfg, s, a, taken, told, r);
      case Page => r' := PageLive(cfg, s, a, taken, told, r);
      case Send => SendLive(cfg, s, a, taken, told, r);
      case Turn => TurnLive(cfg, s, a, taken, told, r);
      case Get => GetLive(cfg, s, a, taken, told, r);
    }
  }

  // Once the page was read, it was read with this much committed.
  predicate ReadSince(s: State, r: Replay, base: nat) {
    s.phase.Idle? || s.phase.Paging? || base <= r.at
  }

  lemma StillSince(cfg: Config, s: State, a: Step, r: Replay, r': Replay)
    requires Enabled(cfg, s, a) && if a.Page? then r'.at == |s.committed| else r' == r
    ensures |s.committed| <= |Next(cfg, s, a).committed|
    ensures forall base: nat | base <= |s.committed| && ReadSince(s, r, base) :: ReadSince(Next(cfg, s, a), r', base)
  {
  }

  lemma NothingTold(cfg: Config, s: State, a: Step, taken: seq<Event>, told: seq<Event>)
    requires Enabled(cfg, s, a) && !a.Publish? && !a.PublishEphemeral?
    ensures taken + Fits(cfg, s, a) == taken && told + Tells(cfg, s, a) == told
  {
  }

  lemma SubscribeLive(cfg: Config, s: State, a: Step, taken: seq<Event>, told: seq<Event>, r: Replay)
    requires LiveOk(cfg, s, taken, told, r) && Enabled(cfg, s, a) && a.Subscribe?
    ensures LiveOk(cfg, Next(cfg, s, a), taken, told, r)
  {
  }

  lemma {:induction false} RunLive(
    cfg: Config, s: State, trace: seq<Step>, taken: seq<Event>, told: seq<Event>, r: Replay) returns (r': Replay)
    requires LiveOk(cfg, s, taken, told, r) && IsRun(cfg, s, trace)
    ensures LiveOk(cfg, End(cfg, s, trace), taken + Taken(cfg, s, trace), told + Told(cfg, s, trace), r')
    ensures forall base: nat | base <= |s.committed| && ReadSince(s, r, base) ::
              ReadSince(End(cfg, s, trace), r', base)
    decreases |trace|
  {
    hide LiveOk, Enabled, Next, Fits, Tells, ReadSince;
    if trace == [] {
      r' := r;
      assert taken + [] == taken && told + [] == told;
    } else {
      var a := trace[0];
      r' := StepLive(cfg, s, a, taken, told, r);
      var s', rest := Next(cfg, s, a), trace[1..];
      StillSince(cfg, s, a, r, r');
      r' := RunLive(cfg, s', rest, taken + Fits(cfg, s, a), told + Tells(cfg, s, a), r');
      assert taken + Fits(cfg, s, a) + Taken(cfg, s', rest) == taken + (Fits(cfg, s, a) + Taken(cfg, s', rest));
      assert told + Tells(cfg, s, a) + Told(cfg, s', rest) == told + (Tells(cfg, s, a) + Told(cfg, s', rest));
    }
  }

  // ------------------------------------------------------------------------
  // Over whole runs
  // ------------------------------------------------------------------------

  predicate IsLive(s: State) {
    s.phase.Turning? || s.phase.Getting?
  }

  // Over every interleaving, resyncs or not: what is sent is the page, unless the replay was
  // capped, and then each event the subscription took, stored or not, that is of the asked run
  // and not of the page: once each and in the order of publication, but for those still
  // queued. It took all it was told of unless it has overflowed. An overflow is announced
  // once. The page is all that was asked for of what had been committed when it was read, no
  // less than when the client came; the replay is capped exactly when that is too much.
  lemma LiveIsExact(cfg: Config, committed: seq<Event>, published: nat, trace: seq<Step>) returns (r: Replay)
    requires Ascending(committed) && published <= |committed| && IsRun(cfg, Start(cfg, committed, published), trace)
    ensures var s0 := Start(cfg, committed, published);
            var s, taken := End(cfg, s0, trace), Taken(cfg, s0, trace);
            && (!s.inbox.overflowed ==> taken == Told(cfg, s0, trace))
            && r.at <= |s.committed|
            && (r.capped <==> |Keep(Asked(cfg), s.committed[..r.at])| > cfg.cap)
            && r.page == (if r.capped then [] else Keep(Asked(cfg), s.committed[..r.at]))
            && (IsLive(s) ==>
                  && |committed| <= r.at
                  && var mark := Mark(cfg.after, r.page);
                  && Events(s.out) + Passed(cfg, mark, s.inbox.queue) == r.page + Passed(cfg, mark, taken)
                  && Reasons(s.out) ==
                       (if r.capped then [ReplayCapped] else []) + (if s.reported then [Overflowed] else []))
  {
    hide IsRun, End, Taken, Told, Events, Reasons, Passed, Wanted, LiveOk, Mark, Keep;
    var s0 := Start(cfg, committed, published);
    StartsLive(cfg, committed, published);
    r := RunLive(cfg, s0, trace, [], [], Replay([], false, 0));
    assert [] + Taken(cfg, s0, trace) == Taken(cfg, s0, trace) && [] + Told(cfg, s0, trace) == Told(cfg, s0, trace);
    LiveTells(cfg, End(cfg, s0, trace), Taken(cfg, s0, trace), Told(cfg, s0, trace), r);
    assert ReadSince(s0, Replay([], false, 0), |committed|);
  }

  lemma LiveTells(cfg: Config, s: State, taken: seq<Event>, told: seq<Event>, r: Replay)
    requires LiveOk(cfg, s, taken, told, r)
    ensures !s.inbox.overflowed ==> taken == told
    ensures ReadAt(cfg, s.committed, r)
    ensures Ascending(r.page) && forall i | 0 <= i < |r.page| :: Wanted(Asked(cfg), r.page[i])
    ensures IsLive(s) ==>
              var mark := Mark(cfg.after, r.page);
              && Events(s.out) + Passed(cfg, mark, s.inbox.queue) == r.page + Passed(cfg, mark, taken)
              && Reasons(s.out) ==
                   (if r.capped then [ReplayCapped] else []) + (if s.reported then [Overflowed] else [])
  {
    hide Events, Reasons, Passed, Wanted, Ascending, InTurn, MarkOk, Mark, ReadAt;
    if IsLive(s) {
      var mark := Mark(cfg.after, r.page);
      assert taken == Got(s, taken) + s.inbox.queue;
      PassedConcat(cfg, mark, Got(s, taken), s.inbox.queue);
      assert r.page + Passed(cfg, mark, Got(s, taken)) + Passed(cfg, mark, s.inbox.queue) ==
             r.page + (Passed(cfg, mark, Got(s, taken)) + Passed(cfg, mark, s.inbox.queue));
    }
  }

  lemma StartsLive(cfg: Config, committed: seq<Event>, published: nat)
    requires Ascending(committed) && published <= |committed|
    ensures LiveOk(cfg, Start(cfg, committed, published), [], [], Replay([], false, 0))
  {
  }

  // ------------------------------------------------------------------------
  // What is not stored
  // ------------------------------------------------------------------------

  // The events of the asked run that are not stored.
  function Unstored(cfg: Config, events: seq<Event>): seq<Event> {
    if events == [] then []
    else
      var last := events[|events| - 1];
      Unstored(cfg, events[..|events| - 1])
      + (if last.id.None? && (cfg.run.None? || last.run == cfg.run) then [last] else [])
  }

  lemma {:induction false} UnstoredConcat(cfg: Config, a: seq<Event>, b: seq<Event>)
    ensures Unstored(cfg, a + b) == Unstored(cfg, a) + Unstored(cfg, b)
    decreases |b|
  {
    if b == [] {
      assert a + b == a;
    } else {
      var front := b[..|b| - 1];
      assert (a + b)[..|a + b| - 1] == a + front;
      UnstoredConcat(cfg, a, front);
    }
  }

  lemma UnstoredOne(cfg: Config, e: Event)
    ensures Unstored(cfg, [e]) == if e.id.None? && (cfg.run.None? || e.run == cfg.run) then [e] else []
  {
    assert [e][..0] == [];
  }

  lemma {:induction false} UnstoredPass(cfg: Config, mark: nat, events: seq<Event>)
    ensures Unstored(cfg, Passed(cfg, mark, events)) == Unstored(cfg, events)
  {
    if events != [] {
      var front, last := events[..|events| - 1], events[|events| - 1];
      UnstoredPass(cfg, mark, front);
      if Passes(cfg, mark, last) {
        UnstoredConcat(cfg, Passed(cfg, mark, front), [last]);
        UnstoredOne(cfg, last);
      } else {
        assert Passed(cfg, mark, events) == Passed(cfg, mark, front);
      }
    }
  }

  lemma {:induction false} NoneUnstored(cfg: Config, events: seq<Event>)
    requires forall i | 0 <= i < |events| :: events[i].id.Some?
    ensures Unstored(cfg, events) == []
  {
    if events != [] {
      NoneUnstored(cfg, events[..|events| - 1]);
    }
  }

  // Once subscribed and with nothing dropped, the events that are not stored are sent exactly
  // as they were published: those of the asked run and names, each once and in order, but for
  // those still queued.
  lemma UnstoredAreSent(cfg: Config, committed: seq<Event>, published: nat, trace: seq<Step>)
    requires Ascending(committed) && published <= |committed| && IsRun(cfg, Start(cfg, committed, published), trace)
    ensures var s0 := Start(cfg, committed, published);
            var s := End(cfg, s0, trace);
            IsLive(s) ==>
              && Unstored(cfg, Events(s.out)) + Unstored(cfg, s.inbox.queue) == Unstored(cfg, Taken(cfg, s0, trace))
              && (!s.inbox.overflowed ==> Taken(cfg, s0, trace) == Told(cfg, s0, trace))
  {
    hide IsRun, End, Taken, Told, Events, Passed, Unstored;
    var s0 := Start(cfg, committed, published);
    var r := LiveIsExact(cfg, committed, published, trace);
    var s, taken, mark := End(cfg, s0, trace), Taken(cfg, s0, trace), Mark(cfg.after, r.page);
    if IsLive(s) {
      UnstoredConcat(cfg, Events(s.out), Passed(cfg, mark, s.inbox.queue));
      UnstoredConcat(cfg, r.page, Passed(cfg, mark, taken));
      UnstoredPass(cfg, mark, s.inbox.queue);
      UnstoredPass(cfg, mark, taken);
      NoneUnstored(cfg, r.page);
      assert [] + Unstored(cfg, taken) == Unstored(cfg, taken);
    }
  }

  // ------------------------------------------------------------------------
  // What is stored
  // ------------------------------------------------------------------------

  lemma {:induction false} PassedRises(cfg: Config, mark: nat, events: seq<Event>)
    requires Rising(events)
    ensures var passed := Passed(cfg, mark, events);
            && Rising(passed)
            && forall i | 0 <= i < |passed| :: passed[i] in events && Passes(cfg, mark, passed[i])
  {
    if events != [] {
      var front, last := events[..|events| - 1], events[|events| - 1];
      PassedRises(cfg, mark, front);
      var before := Passed(cfg, mark, front);
      forall i | 0 <= i < |before| && before[i].id.Some? && last.id.Some? ensures before[i].id.value < last.id.value {
        assert before[i] in front;
        var k :| 0 <= k < |front| && front[k] == before[i];
        assert events[k] == front[k];
      }
    }
  }

  // Whatever resyncs there were: the stored events sent are committed ones that were asked
  // for, and their ids ascend, so that none is sent twice.
  lemma StoredAreSentOnce(cfg: Config, committed: seq<Event>, published: nat, trace: seq<Step>, i: nat, j: nat)
    requires Ascending(committed) && published <= |committed| && IsRun(cfg, Start(cfg, committed, published), trace)
    ensures var s := End(cfg, Start(cfg, committed, published), trace);
            var sent := Events(s.out);
            IsLive(s) ==>
              && (i < |sent| && sent[i].id.Some? ==> Wanted(Asked(cfg), sent[i]) && sent[i] in s.committed)
              && (i < j < |sent| && sent[i].id.Some? && sent[j].id.Some? ==> sent[i].id.value < sent[j].id.value)
  {
    hide IsRun, End, Taken, Told, Events, Passed, LiveOk;
    var s0 := Start(cfg, committed, published);
    StartsLive(cfg, committed, published);
    var r := RunLive(cfg, s0, trace, [], [], Replay([], false, 0));
    var s, taken := End(cfg, s0, trace), Taken(cfg, s0, trace);
    assert [] + taken == taken;
    if IsLive(s) {
      SentRise(cfg, s, taken, [] + Told(cfg, s0, trace), r);
    }
  }

  lemma SentRise(cfg: Config, s: State, taken: seq<Event>, told: seq<Event>, r: Replay)
    requires LiveOk(cfg, s, taken, told, r) && IsLive(s)
    ensures var sent := Events(s.out);
            && Rising(sent)
            && forall i | 0 <= i < |sent| && sent[i].id.Some? :: Wanted(Asked(cfg), sent[i]) && sent[i] in s.committed
  {
    hide Events, Passed, Reasons, Takes, ReadAt, Wanted, Rising, Mark;
    var mark, got := Mark(cfg.after, r.page), Got(s, taken);
    PageBelow(cfg, r);
    GotRises(cfg, s, taken, mark);
    RisesOn(r.page, Passed(cfg, mark, got), mark);
    assert Events(s.out) == r.page + Passed(cfg, mark, got);
    forall i | 0 <= i < |r.page| ensures Wanted(Asked(cfg), r.page[i]) && r.page[i] in s.committed {
    }
  }

  // What was got and passes rises above the mark, and what of it is stored was asked for.
  lemma GotRises(cfg: Config, s: State, taken: seq<Event>, mark: nat)
    requires QueuedOf(s, taken) && InTurn(s, taken) && Known(cfg, s, taken, []) && mark >= cfg.after
    ensures var passed := Passed(cfg, mark, Got(s, taken));
            && Rising(passed)
            && forall i | 0 <= i < |passed| && passed[i].id.Some? ::
                 passed[i].id.value > mark && Wanted(Asked(cfg), passed[i]) && passed[i] in s.committed
  {
    hide Passed, Takes;
    var got := Got(s, taken);
    PassedRises(cfg, mark, got);
    var passed := Passed(cfg, mark, got);
    forall i | 0 <= i < |passed| && passed[i].id.Some?
      ensures passed[i].id.value > mark && Wanted(Asked(cfg), passed[i]) && passed[i] in s.committed
    {
      assert passed[i] in got;
      var k :| 0 <= k < |got| && got[k] == passed[i];
      assert taken[k] == got[k];
    }
  }

  lemma RisesOn(below: seq<Event>, above: seq<Event>, mark: nat)
    requires Rising(below) && Rising(above)
    requires forall i | 0 <= i < |below| && below[i].id.Some? :: below[i].id.value <= mark
    requires forall i | 0 <= i < |above| && above[i].id.Some? :: above[i].id.value > mark
    ensures Rising(below + above)
  {
  }

  // The page lies between the cursor and the mark.
  lemma PageBelow(cfg: Config, r: Replay)
    requires PageOk(cfg, r)
    ensures Mark(cfg.after, r.page) >= cfg.after && Rising(r.page)
    ensures forall i | 0 <= i < |r.page| ::
              r.page[i].id.Some? && cfg.after < r.page[i].id.value <= Mark(cfg.after, r.page)
  {
  }

  // ------------------------------------------------------------------------
  // What is dropped
  // ------------------------------------------------------------------------

  predicate Bounded(cfg: Config, s: State) {
    if cfg.maxsize > 0 then |s.inbox.queue| <= cfg.maxsize else !s.inbox.overflowed
  }

  // A step drops the event it tells the subscription exactly when the queue holds as many as
  // it may, and remembers that it did; any other goes to the end of the queue.
  lemma DropsWhenFull(cfg: Config, s: State, a: Step)
    requires Enabled(cfg, s, a) && Bounded(cfg, s)
    ensures var s' := Next(cfg, s, a);
            && Bounded(cfg, s')
            && (Tells(cfg, s, a) != [] ==>
                  if cfg.maxsize > 0 && |s.inbox.queue| == cfg.maxsize then
                    s'.inbox == Inbox(s.inbox.queue, true) && Fits(cfg, s, a) == []
                  else s'.inbox == Inbox(s.inbox.queue + Tells(cfg, s, a), s.inbox.overflowed)
                       && Fits(cfg, s, a) == Tells(cfg, s, a))
            && (Tells(cfg, s, a) == [] ==> s'.inbox.overflowed == s.inbox.overflowed && Fits(cfg, s, a) == [])
  {
    hide Takes, ListAfter;
  }

  // Over every interleaving: the queue is never longer than it may be, and one without a
  // bound drops nothing.
  lemma {:induction false} QueueIsBounded(cfg: Config, s: State, trace: seq<Step>)
    requires IsRun(cfg, s, trace) && Bounded(cfg, s)
    ensures Bounded(cfg, End(cfg, s, trace))
    decreases |trace|
  {
    hide Enabled, Next, Bounded, Fits, Tells;
    if trace != [] {
      DropsWhenFull(cfg, s, trace[0]);
      QueueIsBounded(cfg, Next(cfg, s, trace[0]), trace[1..]);
    }
  }
}
