/** The generator behind one connection (athanore/api/sse.py), run against whatever commits and
    publishes happen while it waits. */
module Streaming {
  import opened Base
  import opened Bus
  import opened Feed
  import opened LiveFeed

  // What others do to the store and the bus.
  predicate Others(a: Step) {
    a.Commit? || a.Publish? || a.PublishEphemeral?
  }

  /** One connection's store, subscription and generator state. */
  class Stream {
    const cfg: Config
    var committed: seq<Event>
    var published: nat
    var subscribed: bool
    var queue: seq<Event>
    var overflowed: bool
    // The generator's own variables.
    var last: nat
    var reported: bool
    var out: seq<Frame>
    // What the subscription was told of, what of that it took, and what the page was.
    ghost var told: seq<Event>
    ghost var taken: seq<Event>
    ghost var replay: Replay

    // The machine's view, at this place of the generator.
    ghost function View(phase: Phase): State
      reads this
    {
      State(committed, published, phase, Inbox(queue, overflowed), reported, last, out)
    }

    // What holds at this place, of the stored events before a resync and of all of them.
    ghost predicate Ok(phase: Phase)
      reads this
    {
      Feed.Inv(cfg, View(phase)) && LiveOk(cfg, View(phase), taken, told, replay)
    }

    constructor (cfg: Config, committed: seq<Event>, published: nat)
      requires Ascending(committed) && published <= |committed|
      ensures this.cfg == cfg && !subscribed && View(Idle) == Start(cfg, committed, published) && Ok(Idle)
    {
      this.cfg, this.committed, this.published, subscribed := cfg, committed, published, false;
      queue, overflowed, last, reported, out := [], false, cfg.after, false, [];
      told, taken, replay := [], [], Replay([], false, 0);
      new;
      StartInv(cfg, committed, published);
      StartsLive(cfg, committed, published);
    }

    /** `put_nowait`, or the overflow flag. */
    method Deliver(e: Event)
      modifies this`queue, this`overflowed, this`told, this`taken
      ensures var was := old(Inbox(queue, overflowed));
              Inbox(queue, overflowed) == if subscribed then Offer(was, cfg.patterns, cfg.maxsize, e) else was
      ensures var wanted := subscribed && Takes(cfg.patterns, e.name);
              && told == old(told) + (if wanted then [e] else [])
              && taken == old(taken) + (if wanted && !Full(old(queue), cfg.maxsize) then [e] else [])
    {
      if !subscribed || !Takes(cfg.patterns, e.name) {
        return;
      }
      told := told + [e];
      if Full(queue, cfg.maxsize) {
        overflowed := true;
      } else {
        queue := queue + [e];
        taken := taken + [e];
      }
    }

    /** One thing that happens elsewhere; one that cannot is skipped. */
    method Happen(a: Feed.Step, ghost phase: Phase)
      requires subscribed && !phase.Idle? && Ok(phase) && Others(a)
      modifies this`committed, this`published, this`queue, this`overflowed, this`told, this`taken
      ensures Ok(phase) && old(committed) <= committed && old(told) <= told
      ensures a.PublishEphemeral? && a.e.id.None? && Takes(cfg.patterns, a.e.name) ==> told == old(told) + [a.e]
    {
      hide Feed.Inv, LiveOk, Ascending, Takes;
      ghost var before := View(phase);
      match a
      case Commit(batch) =>
        if Ascending(committed + batch) {
          Step(before, a);
          committed := committed + batch;
        }
      case Publish =>
        if published < |committed| {
          Step(before, a);
          Deliver(committed[published]);
          published := published + 1;
        }
      case PublishEphemeral(e) =>
        if e.id.None? {
          Step(before, a);
          Deliver(e);
        }
      case _ =>
    }

    /** What happens elsewhere while the generator is suspended. */
    method Suspend(others: seq<Feed.Step>, ghost phase: Phase)
      requires subscribed && !phase.Idle? && Ok(phase) && forall i | 0 <= i < |others| :: Others(others[i])
      modifies this`committed, this`published, this`queue, this`overflowed, this`told, this`taken
      ensures Ok(phase) && old(committed) <= committed && old(told) <= told
      ensures forall i | 0 <= i < |others| && others[i].PublishEphemeral? && others[i].e.id.None?
                  && Takes(cfg.patterns, others[i].e.name) :: others[i].e in told[|old(told)|..]
    {
      hide Feed.Inv, LiveOk, Takes;
      for i := 0 to |others|
        invariant Ok(phase) && old(committed) <= committed && old(told) <= told
        invariant forall j | 0 <= j < i && others[j].PublishEphemeral? && others[j].e.id.None?
                      && Takes(cfg.patterns, others[j].e.name) :: others[j].e in told[|old(told)|..]
      {
        ghost var before := told;
        Happen(others[i], phase);
        assert told[|old(told)|..] == before[|old(told)|..] + told[|before|..];
      }
    }

    // A step of others keeps what holds.
    lemma Step(s: State, a: Feed.Step)
      requires Feed.Inv(cfg, s) && LiveOk(cfg, s, taken, told, replay) && Enabled(cfg, s, a) && !a.Page?
      ensures Feed.Inv(cfg, Next(cfg, s, a))
      ensures LiveOk(cfg, Next(cfg, s, a), taken + Fits(cfg, s, a), told + Tells(cfg, s, a), replay)
      ensures !a.Publish? && !a.PublishEphemeral? ==>
                taken + Fits(cfg, s, a) == taken && told + Tells(cfg, s, a) == told
    {
      hide Feed.Inv, LiveOk;
      Feed.StepKeeps(cfg, s, a);
      var r := StepLive(cfg, s, a, taken, told, replay);
    }

    /** The top of a turn: an overflow is reported once. */
    method Notice()
      requires Ok(Turning)
      modifies this`reported, this`out
      ensures Ok(Getting) && old(out) <= out
    {
      hide Feed.Inv, LiveOk;
      Step(View(Turning), Turn);
      if overflowed && !reported {
        reported := true;
        out := out + [Resync(Overflowed)];
      }
    }

    /** The head of the queue: sent, unless it is of another run or was replayed already. */
    method Take()
      requires Ok(Getting) && queue != []
      modifies this`queue, this`last, this`out
      ensures Ok(Turning) && old(out) <= out
    {
      hide Feed.Inv, LiveOk;
      Step(View(Getting), Get);
      var e := queue[0];
      queue := queue[1..];
      if cfg.run.Some? && e.run != cfg.run {
        return;
      }
      if e.id.Some? {
        if e.id.value <= last {
          return;
        }
        last := e.id.value;
      }
      out := out + [Data(e)];
    }

    /** `_live`: turns of the loop, one for each list of what happens before the queue yields,
        until the queue stays empty. */
    method Live(turns: seq<seq<Feed.Step>>)
      requires subscribed && Ok(Turning)
      requires forall i, k | 0 <= i < |turns| && 0 <= k < |turns[i]| :: Others(turns[i][k])
      modifies this
      ensures Ok(Turning) || Ok(Getting)
      ensures old(out) <= out && old(committed) <= committed && old(told) <= told && replay == old(replay)
    {
      hide Feed.Inv, LiveOk;
      for i := 0 to |turns|
        invariant subscribed && Ok(Turning)
        invariant old(out) <= out && old(committed) <= committed && old(told) <= told && replay == old(replay)
      {
        Notice();
        Suspend(turns[i], Getting);
        if queue == [] {
          return;
        }
        Take();
      }
    }

    /** The page, row by row, with what happens before each. */
    method SendPage(page: seq<Event>, sending: seq<seq<Feed.Step>>)
      requires subscribed && Ok(Sending(page))
      requires forall i, k | 0 <= i < |sending| && 0 <= k < |sending[i]| :: Others(sending[i][k])
      modifies this
      ensures subscribed && Ok(Turning) && old(committed) <= committed && replay == old(replay)
    {
      hide Feed.Inv, LiveOk;
      var rows, i := page, 0;
      while rows != []
        invariant subscribed && Ok(Sending(rows)) && old(committed) <= committed && replay == old(replay)
        decreases |rows|
      {
        if i < |sending| {
          Suspend(sending[i], Sending(rows));
        }
        Step(View(Sending(rows)), Send);
        if rows[0].id.Some? {
          last := rows[0].id.value;
        }
        out := out + [Data(rows[0])];
        rows := rows[1..];
        i := i + 1;
      }
      Step(View(Sending(rows)), Send);
    }

    /** `_stream`: subscribe, then replay, then live. It sends before its first resync the first
        of the stored events asked for; and over all, the page and then what the subscription
        took that passes, stored or not, but for what is queued. */
    method Run(during: seq<Feed.Step>, sending: seq<seq<Feed.Step>>, turns: seq<seq<Feed.Step>>)
      requires !subscribed && Ok(Idle)
      requires forall k | 0 <= k < |during| :: Others(during[k])
      requires forall i, k | 0 <= i < |sending| && 0 <= k < |sending[i]| :: Others(sending[i][k])
      requires forall i, k | 0 <= i < |turns| && 0 <= k < |turns[i]| :: Others(turns[i][k])
      modifies this
      ensures old(committed) <= committed && Ascending(committed)
      ensures Sent(out) <= Keep(Asked(cfg), committed)
      ensures var mark := Mark(cfg.after, replay.page);
              Events(out) + Passed(cfg, mark, queue) == replay.page + Passed(cfg, mark, taken)
      ensures ReadAt(cfg, committed, replay) && old(|committed|) <= replay.at
      ensures !overflowed ==> taken == told
    {
      hide Feed.Inv, LiveOk, Keep, Sent, Events, Passed, Wanted, ReadAt;
      Step(View(Idle), Subscribe);
      subscribed := true;
      Suspend(during, Paging);
      Feed.StepKeeps(cfg, View(Paging), Page);
      replay := PageLive(cfg, View(Paging), Page, taken, told, replay);
      var rows := ListAfter(committed, Asked(cfg), cfg.cap + 1);
      if |rows| > cfg.cap {
        out := out + [Resync(ReplayCapped)];
      } else {
        SendPage(rows, sending);
      }
      Live(turns);
      ghost var phase := if Ok(Turning) then Turning else Getting;
      InvTells(cfg, View(phase));
      LiveTells(cfg, View(phase), taken, told, replay);
    }
  }

  lemma InvTells(cfg: Config, s: State)
    requires Feed.Inv(cfg, s)
    ensures Ascending(s.committed) && Sent(s.out) <= Keep(Asked(cfg), s.committed)
  {
  }
}
