/** In-process fan-out of events: bounded queues that are never waited for
    (athanore/events/bus.py). */
module Bus {
  import opened Base
  import opened Json
  import Glob

  // An event on the bus. One that is not stored has no id.
  datatype Event = Event(id: Option<nat>, run: Option<string>, name: string, data: Json)

  // Does a list of globs take the name? None takes all.
  predicate Takes(patterns: Option<seq<string>>, name: string) {
    patterns.None? || exists i | 0 <= i < |patterns.value| :: Glob.Matches(patterns.value[i], name)
  }

  // A queue of a maximum size; 0 or less is no bound.
  datatype Inbox = Inbox(queue: seq<Event>, overflowed: bool)

  predicate Full(queue: seq<Event>, maxsize: int) {
    0 < maxsize <= |queue|
  }

  // What offering an event makes of a subscriber's inbox.
  function Offer(inbox: Inbox, patterns: Option<seq<string>>, maxsize: int, e: Event): Inbox {
    if !Takes(patterns, e.name) then inbox
    else if Full(inbox.queue, maxsize) then inbox.(overflowed := true)
    else inbox.(queue := inbox.queue + [e])
  }

  class Subscription {
    const patterns: Option<seq<string>>
    const maxsize: int
    var queue: seq<Event>
    var overflowed: bool
    var closed: bool

    constructor (patterns: Option<seq<string>>, maxsize: int)
      ensures this.patterns == patterns && this.maxsize == maxsize && View() == Inbox([], false) && !closed
    {
      this.patterns := patterns;
      this.maxsize := maxsize;
      queue := [];
      overflowed := false;
      closed := false;
    }

    function View(): Inbox
      reads this
    {
      Inbox(queue, overflowed)
    }

    /** `put_nowait`: false when the queue is full. */
    method PutNowait(e: Event) returns (ok: bool)
      modifies this`queue
      ensures ok <==> !Full(old(queue), maxsize)
      ensures queue == if ok then old(queue) + [e] else old(queue)
    {
      if 0 < maxsize <= |queue| {
        return false;
      }
      queue := queue + [e];
      return true;
    }
  }

  // The list less one subscription.
  function Without(subscriptions: seq<Subscription>, s: Subscription): (r: seq<Subscription>)
    ensures forall x | x in r :: x in subscriptions && x != s
    ensures forall x | x in subscriptions && x != s :: x in r
  {
    if subscriptions == [] then []
    else
      var rest := Without(subscriptions[1..], s);
      if subscriptions[0] == s then rest else [subscriptions[0]] + rest
  }

  predicate Distinct(subscriptions: seq<Subscription>) {
    forall i, j | 0 <= i < j < |subscriptions| :: subscriptions[i] != subscriptions[j]
  }

  lemma {:induction false} StillDistinct(subscriptions: seq<Subscription>, s: Subscription)
    requires Distinct(subscriptions)
    ensures Distinct(Without(subscriptions, s))
  {
    if subscriptions != [] {
      var rest := subscriptions[1..];
      assert subscriptions[0] !in rest;
      StillDistinct(rest, s);
    }
  }

  class EventBus {
    var subscriptions: seq<Subscription>

    // Every subscription once, and none that is closed.
    ghost predicate Valid()
      reads this, subscriptions
    {
      && Distinct(subscriptions)
      && (forall s | s in subscriptions :: !s.closed)
    }

    constructor ()
      ensures Valid() && subscriptions == []
    {
      subscriptions := [];
    }

    method Subscribe(patterns: Option<seq<string>>, maxsize: int) returns (s: Subscription)
      requires Valid()
      modifies this
      ensures Valid() && fresh(s) && subscriptions == old(subscriptions) + [s]
      ensures s.patterns == patterns && s.maxsize == maxsize && s.View() == Inbox([], false)
    {
      s := new Subscription(patterns, maxsize);
      subscriptions := subscriptions + [s];
    }

    /** Ends delivery to a subscription. A second close does nothing. */
    method Close(s: Subscription)
      requires Valid() && (s.closed || s in subscriptions)
      modifies this, s`closed
      ensures Valid() && s.closed && s !in subscriptions
      ensures old(s.closed) ==> subscriptions == old(subscriptions)
      ensures forall x | x in subscriptions :: x in old(subscriptions)
      ensures forall x | x in old(subscriptions) && x != s :: x in subscriptions
    {
      if s.closed {
        return;
      }
      StillDistinct(subscriptions, s);
      s.closed := true;
      subscriptions := Without(subscriptions, s);
    }

    /** Offers the event to every subscription: each takes it, drops it and remembers that
        it did, or does not want it. None is waited for and none affects another. */
    method Publish(e: Event)
      requires Valid()
      modifies subscriptions
      ensures Valid() && subscriptions == old(subscriptions)
      ensures forall s | s in subscriptions :: s.View() == Offer(old(s.View()), s.patterns, s.maxsize, e)
    {
      for i := 0 to |subscriptions|
        invariant Valid() && subscriptions == old(subscriptions)
        invariant forall j | 0 <= j < i ::
            subscriptions[j].View() == Offer(old(subscriptions[j].View()), subscriptions[j].patterns,
                subscriptions[j].maxsize, e)
        invariant forall j | i <= j < |subscriptions| :: subscriptions[j].View() == old(subscriptions[j].View())
      {
        var s := subscriptions[i];
        if !s.closed && Takes(s.patterns, e.name) {
          var ok := s.PutNowait(e);
          if !ok {
            s.overflowed := true;
          }
        }
      }
    }
  }
}
