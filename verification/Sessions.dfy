/** A held agent session (athanore/agents/acp.py): its prompts, their repair turns, what each
    is accounted for, and what its failures leave open. */
module Sessions {
  import opened Base

  type Tokens = map<string, nat>

  datatype Reason = Transport | TimedOut | Shutdown | Refusal | CancelledStop | Truncated | NoSubmission

  // What an await inside the session can raise: the timeout, a cancellation, an AgentError,
  // anything else.
  datatype Exc = ETimeout | ECancel | EAgent | EOther

  datatype StopReason = EndTurn | MaxTokens | RefusalStop | CancelStop

  // What follows an answer: nothing to repair, a repair turn, a look for the submission that
  // raises, or a repair that raises before it reaches the wire.
  datatype Repair = NoRepair | AskAgain | CheckRaises(exc: Exc) | RepairRaises(exc: Exc)

  // One wire turn: the agent answers, or the wait for it raises. `broken` says a policy of
  // the client could not be honoured.
  datatype Reply =
    | Answer(usage: Tokens, stop: StopReason, broken: bool, repair: Repair)
    | Raise(exc: Exc)

  // What can still interrupt a prompt whose answer is in, where its errors are swallowed.
  datatype Cut = CutByTimeout | CutByCancellation

  // What the provider says of the answer, unless asking it is interrupted.
  datatype Length = Whole | TooLong | Unasked(cut: Cut)

  // A submission is attached, or not: an AgentError when there is none that is valid.
  datatype Lookup = Found | LookupRaises(exc: Exc)

  // All that a prompt can meet: what rendering it raises, the replies in order, whether the
  // provider calls the answer truncated, whether a valid submission is attached, and what
  // interrupts the building of the entry.
  datatype Script = Script(render: Option<Exc>, replies: seq<Reply>, length: Length, lookup: Lookup,
      entryCut: Option<Cut>)

  datatype Entry = Entry(ok: bool, reason: Option<Reason>, usage: Tokens, repairs: nat)

  datatype Outcome = Answered(failure: Option<Reason>) | AgentFailed | PromptCancelled | BusyRefused | ClosedRefused

  // The settings of a session: `plain` is the tier without submissions.
  datatype Config = Config(plain: bool, maxRepairs: nat)

  // A turn's accounting.
  datatype Turn = Turn(repairs: nat, usage: Tokens, ok: bool, reason: Option<Reason>)

  // The session: what is still held, why it is dead, and the record of what it did. `wire`
  // says of each prompt sent whether the session was dead or unconnected at the time.
  datatype Held = Held(
    connected: bool,
    running: bool,
    busy: bool,
    closed: bool,
    wire: seq<bool>,
    answered: seq<Tokens>,
    entries: seq<Entry>,
    disconnects: nat,
    stops: nat)

  const Unopened := Held(false, false, false, false, [], [], [], 0, 0)

  // ------------------------------------------------------------------------
  // One prompt
  // ------------------------------------------------------------------------

  function Get(t: Tokens, key: string): nat {
    if key in t then t[key] else 0
  }

  function Plus(a: Tokens, b: Tokens): Tokens {
    map key | key in a.Keys + b.Keys :: Get(a, key) + Get(b, key)
  }

  // How the lifecycle step names what ended it.
  function NamedReason(exc: Exc, before: Option<Reason>): Reason {
    match exc
    case ECancel => Shutdown
    case ETimeout => TimedOut
    case EAgent => if before.Some? then before.value else Transport
    case EOther => Transport
  }

  datatype Ended = Returned(stop: StopReason) | Raised(exc: Exc)

  datatype Exchange = Exchange(held: Held, turn: Turn, ended: Ended)

  function Sent(h: Held): Held {
    h.(wire := h.wire + [h.closed || !h.connected])
  }

  function Heard(h: Held, usage: Tokens): Held {
    Sent(h).(answered := h.answered + [usage])
  }

  function Again(turn: Turn, usage: Tokens): Turn {
    turn.(usage := Plus(turn.usage, usage), repairs := turn.repairs + 1)
  }

  // Another turn is worth it: a repair is due, and one is left.
  predicate Worth(cfg: Config, turn: Turn, repair: Repair) {
    !cfg.plain && turn.repairs < cfg.maxRepairs && !repair.NoRepair?
  }

  // The i-th wire turn of a prompt, and the repair turns after it.
  function Exchanged(cfg: Config, h: Held, script: Script, i: nat, turn: Turn): Exchange
    decreases |script.replies| - i
  {
    if i >= |script.replies| then Exchange(Sent(h), turn, Raised(EOther))
    else match script.replies[i]
      case Raise(exc) => Exchange(Sent(h), turn, Raised(exc))
      case Answer(usage, stop, broken, repair) =>
        if broken then Exchange(Heard(h, usage), turn.(usage := Plus(turn.usage, usage)), Raised(EAgent))
        else if !Worth(cfg, turn, repair) then
            Exchange(Heard(h, usage), turn.(usage := Plus(turn.usage, usage)), Returned(stop))
        else if repair.CheckRaises? then
            Exchange(Heard(h, usage), turn.(usage := Plus(turn.usage, usage)), Raised(repair.exc))
        else if repair.RepairRaises? then Exchange(Heard(h, usage), Again(turn, usage), Raised(repair.exc))
        else Exchanged(cfg, Heard(h, usage), script, i + 1, Again(turn, usage))
  }

  // The result of the exchange, with the turn's status and reason set on the way: an answer,
  // or what raised.
  datatype Mapped = Mapped(turn: Turn, failure: Option<Reason>, raised: Option<Exc>)

  function CutExc(cut: Cut): Exc {
    if cut.CutByTimeout? then ETimeout else ECancel
  }

  // The failures a body may route on, of an answer that stopped like this.
  function Failure(script: Script, stop: StopReason): Option<Reason> {
    if stop == RefusalStop then Some(Refusal) else if stop == CancelStop then Some(CancelledStop)
    else if stop == MaxTokens || script.length.TooLong? then Some(Truncated) else None
  }

  function Outcomes(cfg: Config, script: Script, e: Exchange): Mapped {
    match e.ended
    case Raised(exc) => Mapped(e.turn, None, Some(exc))
    case Returned(stop) =>
      var failure := Failure(script, stop);
      var cut := if script.entryCut.None? then None else Some(CutExc(script.entryCut.value));
      if failure.None? && script.length.Unasked? then Mapped(e.turn, None, Some(CutExc(script.length.cut)))
      else if failure.Some? then Mapped(e.turn.(ok := false, reason := failure), failure, cut)
      else if !cfg.plain && script.lookup.LookupRaises? then
        var exc := script.lookup.exc;
        Mapped(e.turn.(reason := if exc == EAgent then Some(NoSubmission) else e.turn.reason), None, Some(exc))
      else Mapped(e.turn.(ok := true, reason := None), None, cut)
  }

  function Cleaned(h: Held): Held {
    h.(connected := false, disconnects := h.disconnects + (if h.connected then 1 else 0),
       running := false, stops := h.stops + (if h.running then 1 else 0))
  }

  // The end of a prompt: a dead session is stopped at once unless it was cancelled, and the
  // entry is recorded on every path.
  function Finished(h: Held, m: Mapped): (Held, Outcome) {
    var turn := if m.raised.Some? then m.turn.(reason := Some(NamedReason(m.raised.value, m.turn.reason))) else m.turn;
    var kills := m.raised.Some? && (m.raised.value == ECancel || turn.reason.value in {Transport, TimedOut});
    var stopped := if kills && turn.reason != Some(Shutdown) then Cleaned(h) else h;
    (stopped.(busy := false, closed := h.closed || kills,
              entries := h.entries + [Entry(turn.ok, turn.reason, turn.usage, turn.repairs)]),
     if m.raised.None? then Answered(m.failure) else if m.raised.value == ECancel then PromptCancelled else AgentFailed)
  }

  const NewTurn := Turn(0, map[], false, None)

  function Prompted(cfg: Config, h: Held, script: Script): (Held, Outcome) {
    if h.busy then (h, BusyRefused)
    else if h.closed then (h, ClosedRefused)
    else
      var busy := h.(busy := true);
      var e := if script.render.Some? then Exchange(busy, NewTurn, Raised(script.render.value))
               else Exchanged(cfg, busy, script, 0, NewTurn);
      Finished(e.held, Outcomes(cfg, script, e))
  }

  // ------------------------------------------------------------------------
  // The block
  // ------------------------------------------------------------------------

  // How far the entry got before it failed, if it did.
  datatype Entering = NotSpawned(exc: Exc) | NotConnected(exc: Exc) | NotOpened(exc: Exc) | Opened

  function Entered(e: Entering): Held {
    match e
    case NotSpawned(_) => Unopened
    case NotConnected(_) => Unopened.(running := true)
    case _ => Unopened.(running := true, connected := true)
  }

  // A failed entry stops what it started and records the handshake's own entry.
  function Refused(h: Held, exc: Exc): Held {
    Cleaned(h).(entries := h.entries + [Entry(false, Some(NamedReason(exc, None)), map[], 0)])
  }

  function PromptAll(cfg: Config, h: Held, scripts: seq<Script>): Held
    decreases |scripts|
  {
    if scripts == [] then h else Prompted(cfg, PromptAll(cfg, h, scripts[..|scripts| - 1]), scripts[|scripts| - 1]).0
  }

  // A whole block: the entry, its prompts, the exit.
  function Block(cfg: Config, e: Entering, scripts: seq<Script>): Held {
    if e.Opened? then Cleaned(PromptAll(cfg, Entered(e), scripts)) else Refused(Entered(e), e.exc)
  }

  // ------------------------------------------------------------------------
  // The same, step by step
  // ------------------------------------------------------------------------

  class Session {
    const cfg: Config
    var connected: bool
    var running: bool
    var busy: bool
    var closed: bool
    var wire: seq<bool>
    var answered: seq<Tokens>
    var entries: seq<Entry>
    var disconnects: nat
    var stops: nat

    function View(): Held
      reads this
    {
      Held(connected, running, busy, closed, wire, answered, entries, disconnects, stops)
    }

    constructor (cfg: Config, e: Entering)
      ensures this.cfg == cfg && View() == Entered(e)
    {
      this.cfg := cfg;
      running := !e.NotSpawned?;
      connected := e.NotOpened? || e.Opened?;
      busy, closed, wire, answered, entries, disconnects, stops := false, false, [], [], [], 0, 0;
    }

    /** Closes the connection and stops the child, each if it is still there. */
    method Cleanup()
      modifies this
      ensures View() == Cleaned(old(View()))
    {
      if connected {
        connected := false;
        disconnects := disconnects + 1;
      }
      if running {
        running := false;
        stops := stops + 1;
      }
    }

    /** The wire turns of one prompt: the first, and repair turns while they are worth it. */
    method Converse(script: Script) returns (turn: Turn, ended: Ended)
      modifies this
      ensures Exchange(View(), turn, ended) == Exchanged(cfg, old(View()), script, 0, NewTurn)
    {
      hide Plus;
      turn := NewTurn;
      var i := 0;
      ghost var all := Exchanged(cfg, View(), script, 0, NewTurn);
      while true
        invariant i <= |script.replies|
        invariant Exchanged(cfg, View(), script, i, turn) == all
        decreases |script.replies| - i
      {
        wire := wire + [closed || !connected];
        if i >= |script.replies| { return turn, Raised(EOther); }
        var reply := script.replies[i];
        if reply.Raise? { return turn, Raised(reply.exc); }
        answered := answered + [reply.usage];
        var worth := !cfg.plain && turn.repairs < cfg.maxRepairs && !reply.repair.NoRepair?;
        turn := turn.(usage := Plus(turn.usage, reply.usage));
        if reply.broken { return turn, Raised(EAgent); }
        if !worth { return turn, Returned(reply.stop); }
        if reply.repair.CheckRaises? { return turn, Raised(reply.repair.exc); }
        turn := turn.(repairs := turn.repairs + 1);
        if reply.repair.RepairRaises? { return turn, Raised(reply.repair.exc); }
        i := i + 1;
      }
    }

    /** One prompt, with its own entry. */
    method Prompt(script: Script) returns (outcome: Outcome)
      modifies this
      ensures (View(), outcome) == Prompted(cfg, old(View()), script)
    {
      if busy { return BusyRefused; }
      if closed { return ClosedRefused; }
      busy := true;
      var turn, ended := NewTurn, Raised(EOther);
      if script.render.Some? {
        ended := Raised(script.render.value);
      } else {
        turn, ended := Converse(script);
      }
      var m := Outcomes(cfg, script, Exchange(View(), turn, ended));
      turn := m.turn;
      outcome := Answered(m.failure);
      if m.raised.Some? {
        turn := turn.(reason := Some(NamedReason(m.raised.value, turn.reason)));
        outcome := if m.raised.value == ECancel then PromptCancelled else AgentFailed;
        if m.raised.value == ECancel || turn.reason.value in {Transport, TimedOut} {
          closed := true;
          if turn.reason != Some(Shutdown) {
            Cleanup();
          }
        }
      }
      busy := false;
      entries := entries + [Entry(turn.ok, turn.reason, turn.usage, turn.repairs)];
    }
  }

  // ------------------------------------------------------------------------
  // Accounting
  // ------------------------------------------------------------------------

  // The tokens of a list of answers, of one kind.
  function Total(all: seq<Tokens>, key: string): nat {
    if all == [] then 0 else Total(all[..|all| - 1], key) + Get(all[|all| - 1], key)
  }

  function Accounted(entries: seq<Entry>, key: string): nat {
    if entries == [] then 0 else Accounted(entries[..|entries| - 1], key) + Get(entries[|entries| - 1].usage, key)
  }

  lemma PlusGets(a: Tokens, b: Tokens, key: string)
    ensures Get(Plus(a, b), key) == Get(a, key) + Get(b, key)
  {
  }

  // A kind of token counts if either has it, with what each has of it.
  lemma PlusAdds(a: Tokens, b: Tokens, key: string)
    ensures key in Plus(a, b) <==> key in a || key in b
    ensures key in Plus(a, b) ==>
              Plus(a, b)[key] == (if key in a then a[key] else 0) + (if key in b then b[key] else 0)
  {
  }

  lemma TotalNext(all: seq<Tokens>, t: Tokens, key: string)
    ensures Total(all + [t], key) == Total(all, key) + Get(t, key)
  {
    assert (all + [t])[..|all|] == all;
  }

  // An exchange adds to the wire and to the answers, and changes nothing else.
  lemma {:induction false} ExchangeKeeps(cfg: Config, h: Held, script: Script, i: nat, turn: Turn)
    ensures var e := Exchanged(cfg, h, script, i, turn);
            && e.held == h.(wire := e.held.wire, answered := e.held.answered)
            && h.wire < e.held.wire && e.turn.ok == turn.ok && e.turn.reason == turn.reason
    decreases |script.replies| - i
  {
    hide Plus, Worth;
    if i < |script.replies| && script.replies[i].Answer? {
      ExchangeKeeps(cfg, Heard(h, script.replies[i].usage), script, i + 1, Again(turn, script.replies[i].usage));
    }
  }

  // How far it can go: as many wire turns as its repairs allow, each on a live session.
  lemma {:induction false} ExchangeCounts(cfg: Config, h: Held, script: Script, i: nat, turn: Turn)
    requires turn.repairs <= cfg.maxRepairs
    ensures var e := Exchanged(cfg, h, script, i, turn);
            && |e.held.wire| + turn.repairs <= |h.wire| + 1 + e.turn.repairs
            && turn.repairs <= e.turn.repairs <= cfg.maxRepairs
            && (h.connected && !h.closed ==> forall k | |h.wire| <= k < |e.held.wire| :: !e.held.wire[k])
    decreases |script.replies| - i
  {
    hide Plus;
    if i < |script.replies| && script.replies[i].Answer? {
      var reply := script.replies[i];
      if !reply.broken && Worth(cfg, turn, reply.repair) && reply.repair == AskAgain {
        ExchangeCounts(cfg, Heard(h, reply.usage), script, i + 1, Again(turn, reply.usage));
        ExchangeKeeps(cfg, Heard(h, reply.usage), script, i + 1, Again(turn, reply.usage));
      }
    }
  }

  // The tokens of the answers are in the turn.
  lemma {:induction false} ExchangeTokens(cfg: Config, h: Held, script: Script, i: nat, turn: Turn, key: string)
    ensures var e := Exchanged(cfg, h, script, i, turn);
            Total(e.held.answered, key) + Get(turn.usage, key) == Total(h.answered, key) + Get(e.turn.usage, key)
    decreases |script.replies| - i
  {
    hide Plus, Total, Get, Worth;
    if i < |script.replies| && script.replies[i].Answer? {
      var reply := script.replies[i];
      PlusGets(turn.usage, reply.usage, key);
      TotalNext(h.answered, reply.usage, key);
      ExchangeTokens(cfg, Heard(h, reply.usage), script, i + 1, Again(turn, reply.usage), key);
    }
  }

  // The session between prompts: idle; connected with its child unless it is dead; every
  // prompt so far sent on a live session.
  predicate Ready(h: Held) {
    && !h.busy
    && (!h.closed ==> h.connected && h.running)
    && h.disconnects == (if h.connected then 0 else 1) && h.stops == (if h.running then 0 else 1)
    && forall k | 0 <= k < |h.wire| :: !h.wire[k]
  }

  // The tokens reported are the tokens accounted for.
  predicate Balanced(h: Held, key: string) {
    Total(h.answered, key) == Accounted(h.entries, key)
  }

  lemma AccountedNext(entries: seq<Entry>, e: Entry, key: string)
    ensures Accounted(entries + [e], key) == Accounted(entries, key) + Get(e.usage, key)
  {
    assert (entries + [e])[..|entries|] == entries;
  }

  // One prompt, whatever it meets: refused, it leaves the session as it was; admitted, it
  // records one entry, sends at most one wire turn more than the repairs allowed, and the
  // entry has the tokens of its answers.
  lemma PromptIsAccounted(cfg: Config, h: Held, script: Script, key: string)
    requires Ready(h) && Balanced(h, key)
    ensures var (h', outcome) := Prompted(cfg, h, script);
            && Ready(h') && Balanced(h', key)
            && (h.closed ==> outcome == ClosedRefused && h' == h)
            && (!h.closed ==>
                  && |h'.entries| == |h.entries| + 1 && h'.entries[..|h.entries|] == h.entries
                  && |h'.wire| <= |h.wire| + 1 + cfg.maxRepairs
                  && h'.entries[|h.entries|].repairs <= cfg.maxRepairs)
  {
    if !h.closed {
      var busy := h.(busy := true);
      var e := if script.render.Some? then Exchange(busy, NewTurn, Raised(script.render.value))
          else Exchanged(cfg, busy, script, 0, NewTurn);
      if script.render.None? {
        ExchangeKeeps(cfg, busy, script, 0, NewTurn);
        ExchangeCounts(cfg, busy, script, 0, NewTurn);
        ExchangeTokens(cfg, busy, script, 0, NewTurn, key);
      }
      var m := Outcomes(cfg, script, e);
      FinishAccounts(h, e, m, key);
    }
  }

  lemma FinishAccounts(h: Held, e: Exchange, m: Mapped, key: string)
    requires Ready(h) && Balanced(h, key) && !h.closed
    requires e.held == h.(busy := true, wire := e.held.wire, answered := e.held.answered) && h.wire <= e.held.wire
    requires forall k | |h.wire| <= k < |e.held.wire| :: !e.held.wire[k]
    requires Total(e.held.answered, key) == Total(h.answered, key) + Get(e.turn.usage, key)
    requires m.turn.usage == e.turn.usage && m.turn.repairs == e.turn.repairs
    ensures var h' := Finished(e.held, m).0;
            && Ready(h') && Balanced(h', key) && h'.wire == e.held.wire
            && h'.entries == h.entries + [Entry(m.turn.ok, h'.entries[|h.entries|].reason, m.turn.usage,
                m.turn.repairs)]
  {
    var h' := Finished(e.held, m).0;
    AccountedNext(h.entries, h'.entries[|h.entries|], key);
  }

  // One prompt while other prompts are made on the session, at every await of it: while it
  // is rendered, while wire turn i is answered and then repaired, and while its answer is
  // looked into.
  function ExchangedAmid(
    cfg: Config, h: Held, script: Script, i: nat, turn: Turn, others: nat -> seq<Script>): Exchange
    decreases |script.replies| - i
  {
    var sent := PromptAll(cfg, Sent(h), others(2 * i));
    if i >= |script.replies| then Exchange(sent, turn, Raised(EOther))
    else match script.replies[i]
      case Raise(exc) => Exchange(sent, turn, Raised(exc))
      case Answer(usage, stop, broken, repair) =>
        var heard := PromptAll(cfg, sent.(answered := sent.answered + [usage]), others(2 * i + 1));
        if broken then Exchange(heard, turn.(usage := Plus(turn.usage, usage)), Raised(EAgent))
        else if !Worth(cfg, turn, repair) then Exchange(heard, turn.(usage := Plus(turn.usage, usage)), Returned(stop))
        else if repair.CheckRaises? then
          Exchange(heard, turn.(usage := Plus(turn.usage, usage)), Raised(repair.exc))
        else if repair.RepairRaises? then Exchange(heard, Again(turn, usage), Raised(repair.exc))
        else ExchangedAmid(cfg, heard, script, i + 1, Again(turn, usage), others)
  }

  function PromptedAmid(cfg: Config, h: Held, script: Script, rendering: seq<Script>, others: nat -> seq<Script>,
      ending: seq<Script>): (Held, Outcome)
    requires !h.busy && !h.closed
  {
    var busy := PromptAll(cfg, h.(busy := true), rendering);
    var e := if script.render.Some? then Exchange(busy, NewTurn, Raised(script.render.value))
             else ExchangedAmid(cfg, busy, script, 0, NewTurn, others);
    Finished(PromptAll(cfg, e.held, ending), Outcomes(cfg, script, e))
  }

  // Prompts made while one is in flight are refused, each of them.
  lemma {:induction false} AllRefused(cfg: Config, h: Held, scripts: seq<Script>)
    requires h.busy
    ensures PromptAll(cfg, h, scripts) == h
    ensures forall i | 0 <= i < |scripts| :: Prompted(cfg, PromptAll(cfg, h, scripts[..i]), scripts[i]).1 == BusyRefused
    decreases |scripts|
  {
    if scripts != [] {
      var front := scripts[..|scripts| - 1];
      AllRefused(cfg, h, front);
      forall i | 0 <= i < |scripts|
        ensures Prompted(cfg, PromptAll(cfg, h, scripts[..i]), scripts[i]).1 == BusyRefused
      {
        assert i < |front| ==> front[..i] == scripts[..i] && front[i] == scripts[i];
        assert i == |front| ==> scripts[..i] == front;
      }
    }
  }

  lemma {:induction false} ExchangeUndisturbed(
    cfg: Config, h: Held, script: Script, i: nat, turn: Turn, others: nat -> seq<Script>)
    requires h.busy
    ensures ExchangedAmid(cfg, h, script, i, turn, others) == Exchanged(cfg, h, script, i, turn)
    decreases |script.replies| - i
  {
    hide Plus, Worth, PromptAll;
    AllRefused(cfg, Sent(h), others(2 * i));
    if i < |script.replies| && script.replies[i].Answer? {
      AllRefused(cfg, Heard(h, script.replies[i].usage), others(2 * i + 1));
      ExchangeUndisturbed(cfg, Heard(h, script.replies[i].usage), script, i + 1, Again(turn, script.replies[i].usage),
          others);
    }
  }

  // However many prompts are made while one is in flight, at whichever of its awaits: it ends
  // as it would have alone, with the same session, entry and outcome.
  lemma OverlapChangesNothing(cfg: Config, h: Held, script: Script, rendering: seq<Script>,
      others: nat -> seq<Script>, ending: seq<Script>)
    requires !h.busy && !h.closed
    ensures PromptedAmid(cfg, h, script, rendering, others, ending) == Prompted(cfg, h, script)
  {
    hide PromptAll, Finished, Outcomes;
    var busy := h.(busy := true);
    AllRefused(cfg, busy, rendering);
    ExchangeUndisturbed(cfg, busy, script, 0, NewTurn, others);
    ExchangeKeeps(cfg, busy, script, 0, NewTurn);
    AllRefused(cfg, if script.render.Some? then busy else Exchanged(cfg, busy, script, 0, NewTurn).held, ending);
  }

  // What kills the session: a cancellation, a timeout or a transport failure, and nothing
  // else. A refusal, a truncated answer and a missing submission leave it open.
  lemma WhatKills(cfg: Config, h: Held, script: Script)
    requires Ready(h) && !h.closed
    ensures var (h', outcome) := Prompted(cfg, h, script);
            && |h'.entries| == |h.entries| + 1
            && var reason := h'.entries[|h.entries|].reason;
               && (h'.closed <==>
                     || outcome == PromptCancelled
                     || (outcome == AgentFailed && reason in {Some(Transport), Some(TimedOut)}))
               && (outcome == PromptCancelled <==> h'.closed && reason == Some(Shutdown))
               && (if h'.closed && outcome != PromptCancelled then
                     !h'.connected && !h'.running && h'.disconnects == h.disconnects + 1 && h'.stops == h.stops + 1
                   else
                     && h'.connected == h.connected && h'.running == h.running
                     && h'.disconnects == h.disconnects && h'.stops == h.stops)
               && (outcome.Answered? ==> reason == outcome.failure)
  {
    var busy := h.(busy := true);
    if script.render.None? {
      ExchangeKeeps(cfg, busy, script, 0, NewTurn);
    }
  }

  // The prompt comes to reply k: every reply before it was an answer that asked for a repair
  // within the budget.
  predicate Reaches(cfg: Config, script: Script, k: nat) {
    && k < |script.replies| && (k > 0 ==> !cfg.plain && k <= cfg.maxRepairs)
    && forall j | 0 <= j < k ::
         script.replies[j].Answer? && !script.replies[j].broken && script.replies[j].repair == AskAgain
  }

  // And ends on it: an answer with no repair due, or none left.
  predicate EndsOn(cfg: Config, script: Script, k: nat) {
    && Reaches(cfg, script, k)
    && var last := script.replies[k];
       && last.Answer? && !last.broken && (cfg.plain || k >= cfg.maxRepairs || last.repair == NoRepair)
  }

  // Or raises there: the wait for the reply, a policy that was broken, the look at whether a
  // repair is due, or the repair.
  predicate RaisesAt(cfg: Config, script: Script, k: nat, exc: Exc) {
    && Reaches(cfg, script, k)
    && match script.replies[k]
       case Raise(raised) => raised == exc
       case Answer(_, _, broken, repair) =>
         if broken then exc == EAgent
         else !cfg.plain && k < cfg.maxRepairs && (repair == CheckRaises(exc) || repair == RepairRaises(exc))
  }

  // Or is interrupted with its answer in: while the provider is asked of it, while its
  // submission is looked for, or while its entry is built.
  predicate CutAt(cfg: Config, script: Script, k: nat, exc: Exc) {
    && EndsOn(cfg, script, k)
    && var own := script.replies[k].stop == EndTurn;
       if own && script.length.Unasked? then
         exc == if script.length.cut == CutByTimeout then ETimeout else ECancel
       else if own && script.length == Whole && !cfg.plain && script.lookup.LookupRaises? then
         exc == script.lookup.exc && exc != EAgent
       else
         script.entryCut.Some? && exc == if script.entryCut.value == CutByTimeout then ETimeout else ECancel
  }

  // That ended of its own accord.
  predicate EndsWell(cfg: Config, script: Script, k: nat) {
    EndsOn(cfg, script, k) && script.replies[k].stop == EndTurn
  }

  // A good answer, found whole, with its submission unless the tier has none.
  predicate Good(cfg: Config, script: Script) {
    && script.render.None? && script.length == Whole && (cfg.plain || script.lookup == Found)
    && exists k :: 0 <= k < |script.replies| && EndsWell(cfg, script, k)
  }

  // Past a reply that no repair turn follows, none ends the prompt.
  lemma EndsNoLater(cfg: Config, script: Script, i: nat, k: nat)
    requires i < k < |script.replies|
    requires var reply := script.replies[i];
             cfg.plain || i >= cfg.maxRepairs || !reply.Answer? || reply.broken || reply.repair != AskAgain
    ensures !EndsWell(cfg, script, k)
  {
  }

  // The exchange returns a good stop exactly when some reply from i on ends it well.
  lemma {:induction false} ExchangeEndsWell(cfg: Config, h: Held, script: Script, i: nat, turn: Turn)
    requires turn.repairs == i <= cfg.maxRepairs && i <= |script.replies| && (i > 0 ==> !cfg.plain)
    requires forall j | 0 <= j < i ::
               script.replies[j].Answer? && !script.replies[j].broken && script.replies[j].repair == AskAgain
    ensures Exchanged(cfg, h, script, i, turn).ended == Returned(EndTurn) <==>
              exists k :: i <= k < |script.replies| && EndsWell(cfg, script, k)
    decreases |script.replies| - i
  {
    hide Plus;
    if i < |script.replies| {
      var reply := script.replies[i];
      if reply.Answer? && !reply.broken && Worth(cfg, turn, reply.repair) && reply.repair == AskAgain {
        ExchangeEndsWell(cfg, Heard(h, reply.usage), script, i + 1, Again(turn, reply.usage));
        assert !EndsWell(cfg, script, i);
      } else {
        forall k | i < k < |script.replies| ensures !EndsWell(cfg, script, k) {
          EndsNoLater(cfg, script, i, k);
        }
        assert EndsWell(cfg, script, i) <==>
            reply.Answer? && !reply.broken && reply.stop == EndTurn && !Worth(cfg, turn, reply.repair);
      }
    }
  }

  // An entry says ok exactly when the prompt had a good answer; and then the body was given
  // the result exactly when nothing cut the building of the entry short. So an entry says ok
  // for a prompt that raised if and only if a good answer's entry was cut short.
  lemma EntryTellsOutcome(cfg: Config, h: Held, script: Script)
    requires Ready(h) && !h.closed
    ensures var (h', outcome) := Prompted(cfg, h, script);
            && |h'.entries| == |h.entries| + 1
            && (h'.entries[|h.entries|].ok <==> Good(cfg, script))
            && (outcome == Answered(None) <==> Good(cfg, script) && script.entryCut.None?)
            && (h'.entries[|h.entries|].ok && !outcome.Answered? <==> Good(cfg, script) && script.entryCut.Some?)
  {
    hide EndsWell;
    ExchangeEndsWell(cfg, h.(busy := true), script, 0, NewTurn);
    ExchangeKeeps(cfg, h.(busy := true), script, 0, NewTurn);
  }

  // The exchange ends where the replies lead, with as many repairs as there were before.
  lemma {:induction false} ExchangeReaches(cfg: Config, h: Held, script: Script, i: nat, turn: Turn, k: nat)
    requires turn.repairs == i <= k && Reaches(cfg, script, k)
    ensures var e, last := Exchanged(cfg, h, script, i, turn), script.replies[k];
            && (EndsOn(cfg, script, k) ==> e.ended == Returned(last.stop) && e.turn.repairs == k)
            && (forall exc | RaisesAt(cfg, script, k, exc) :: e.ended == Raised(exc) && e.turn.repairs >= k)
            && e.turn.reason == turn.reason && e.turn.ok == turn.ok
    decreases k - i
  {
    hide Plus;
    ExchangeKeeps(cfg, h, script, i, turn);
    if i < k {
      ExchangeReaches(cfg, Heard(h, script.replies[i].usage), script, i + 1, Again(turn, script.replies[i].usage), k);
    }
  }

  // What an answer says of itself, and what is found of it, is what the entry gives as its
  // reason and the body as its failure: each of the failures a body may route on by its own
  // name, and the one it may not.
  lemma AnswersHaveReasons(cfg: Config, h: Held, script: Script, k: nat)
    requires Ready(h) && !h.closed && script.render.None? && EndsOn(cfg, script, k)
    requires script.entryCut.None?
    ensures var (h', outcome) := Prompted(cfg, h, script);
            var stop := script.replies[k].stop;
            && |h'.entries| == |h.entries| + 1 && h'.entries[|h.entries|].repairs == k
            && var reason := h'.entries[|h.entries|].reason;
               && (stop == RefusalStop ==> reason == Some(Refusal) && outcome == Answered(reason))
               && (stop == CancelStop ==> reason == Some(CancelledStop) && outcome == Answered(reason))
               && (stop == MaxTokens ==> reason == Some(Truncated) && outcome == Answered(reason))
               && (stop == EndTurn && script.length == TooLong ==>
                   reason == Some(Truncated) && outcome == Answered(reason))
               && (stop == EndTurn && script.length == Whole && !cfg.plain && script.lookup == LookupRaises(EAgent) ==>
                   reason == Some(NoSubmission) && outcome == AgentFailed)
               && (stop == EndTurn && script.length == Whole && (cfg.plain || script.lookup == Found) ==>
                   reason == None && outcome == Answered(None))
  {
    hide Plus;
    ExchangeReaches(cfg, h.(busy := true), script, 0, NewTurn, k);
    ExchangeKeeps(cfg, h.(busy := true), script, 0, NewTurn);
  }

  // The reason the entry gives for what was raised.
  function ReasonOf(exc: Exc): Reason {
    if exc == ETimeout then TimedOut else if exc == ECancel then Shutdown else Transport
  }

  // What is raised on the way to an answer, or before it, has its reason too; and the entry is
  // not ok.
  lemma RaisesHaveReasons(cfg: Config, h: Held, script: Script, k: nat, exc: Exc)
    requires Ready(h) && !h.closed
    requires script.render == Some(exc) || (script.render.None? && RaisesAt(cfg, script, k, exc))
    ensures var (h', outcome) := Prompted(cfg, h, script);
            && |h'.entries| == |h.entries| + 1 && !h'.entries[|h.entries|].ok
            && h'.entries[|h.entries|].reason == Some(ReasonOf(exc))
            && outcome == (if exc == ECancel then PromptCancelled else AgentFailed)
  {
    hide Plus;
    if script.render.None? {
      ExchangeReaches(cfg, h.(busy := true), script, 0, NewTurn, k);
      ExchangeKeeps(cfg, h.(busy := true), script, 0, NewTurn);
    }
  }

  // And so has what interrupts it afterwards, whatever the answer was.
  lemma CutsHaveReasons(cfg: Config, h: Held, script: Script, k: nat, exc: Exc)
    requires Ready(h) && !h.closed && script.render.None? && CutAt(cfg, script, k, exc)
    ensures var (h', outcome) := Prompted(cfg, h, script);
            && |h'.entries| == |h.entries| + 1 && h'.entries[|h.entries|].repairs == k
            && h'.entries[|h.entries|].reason == Some(ReasonOf(exc))
            && outcome == (if exc == ECancel then PromptCancelled else AgentFailed)
  {
    hide Plus;
    ExchangeReaches(cfg, h.(busy := true), script, 0, NewTurn, k);
    ExchangeKeeps(cfg, h.(busy := true), script, 0, NewTurn);
  }

  // A session that could not be entered records that alone, with its reason, and gives back
  // what it had started.
  lemma EntriesHaveReasons(cfg: Config, e: Entering, scripts: seq<Script>)
    requires !e.Opened?
    ensures var h := Block(cfg, e, scripts);
            && h.entries == [Entry(false, Some(ReasonOf(e.exc)), map[], 0)] && h.wire == [] && h.answered == []
            && !h.connected && !h.running
            && h.disconnects == (if e.NotOpened? then 1 else 0) && h.stops == (if e.NotSpawned? then 0 else 1)
  {
  }

  // One such prompt: the agent answers, and the timeout strikes while the entry is built.
  lemma CutShort()
    ensures var script := Script(None, [Answer(map[], EndTurn, false, NoRepair)], Whole, Found, Some(CutByTimeout));
            var (h', outcome) := Prompted(Config(false, 1), Entered(Opened), script);
            outcome == AgentFailed && h'.entries == [Entry(true, Some(TimedOut), map[], 0)]
  {
    var h := Entered(Opened).(busy := true);
    var script := Script(None, [Answer(map[], EndTurn, false, NoRepair)], Whole, Found, Some(CutByTimeout));
    assert Plus(map[], map[]) == map[];
    assert Exchanged(Config(false, 1), h, script, 0, NewTurn) == Exchange(Heard(h, map[]), NewTurn, Returned(EndTurn));
  }

  // ------------------------------------------------------------------------
  // Any sequence of prompts
  // ------------------------------------------------------------------------

  // How many of the prompts are admitted.
  function Admitted(cfg: Config, h: Held, scripts: seq<Script>): nat
    decreases |scripts|
  {
    if scripts == [] then 0
    else
      var front := scripts[..|scripts| - 1];
      Admitted(cfg, h, front) + (if PromptAll(cfg, h, front).closed then 0 else 1)
  }

  lemma {:induction false} PromptsAreAccounted(cfg: Config, h: Held, scripts: seq<Script>, key: string)
    requires Ready(h) && Balanced(h, key)
    ensures var h' := PromptAll(cfg, h, scripts);
            && Ready(h') && Balanced(h', key)
            && |h'.entries| == |h.entries| + Admitted(cfg, h, scripts)
            && |h'.wire| <= |h.wire| + Admitted(cfg, h, scripts) * (1 + cfg.maxRepairs)
    decreases |scripts|
  {
    hide Prompted, Ready;
    if scripts != [] {
      var front := scripts[..|scripts| - 1];
      PromptsAreAccounted(cfg, h, front, key);
      PromptIsAccounted(cfg, PromptAll(cfg, h, front), scripts[|scripts| - 1], key);
      var n := Admitted(cfg, h, front);
      assert (n + 1) * (1 + cfg.maxRepairs) == n * (1 + cfg.maxRepairs) + (1 + cfg.maxRepairs);
    }
  }

  // A whole block, however entry, prompts and exit go: one entry for each admitted prompt,
  // or one for an entry that failed; all reported tokens accounted for; nothing sent on a
  // dead session; and what was opened is closed and stopped exactly once.
  lemma BlockIsAccounted(cfg: Config, e: Entering, scripts: seq<Script>, key: string)
    ensures var h := Block(cfg, e, scripts);
            && |h.entries| == (if e.Opened? then Admitted(cfg, Entered(e), scripts) else 1)
            && Balanced(h, key)
            && (forall k | 0 <= k < |h.wire| :: !h.wire[k])
            && |h.wire| <= (if e.Opened? then Admitted(cfg, Entered(e), scripts) * (1 + cfg.maxRepairs) else 0)
            && !h.connected && !h.running
            && h.disconnects == (if Entered(e).connected then 1 else 0)
            && h.stops == (if Entered(e).running then 1 else 0)
  {
    hide PromptAll;
    if e.Opened? {
      PromptsAreAccounted(cfg, Entered(e), scripts, key);
    } else {
      AccountedNext([], Refused(Entered(e), e.exc).entries[0], key);
    }
  }
}
