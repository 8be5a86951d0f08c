/** A server that `Follow` can follow: a text that carries every JSON value without a
    fraction, and connections that send the history and are caught up. */
module Serving {
  import opened Base
  import opened Json
  import opened Bus
  import opened Feed
  import opened SseText
  import opened Follow

  // ------------------------------------------------------------------------
  // JSON as one line of text
  // ------------------------------------------------------------------------

  // A value without a fraction, which text can carry exactly.
  predicate Exact(j: Json) {
    match j
    case JFloat(_) => false
    case JList(items) => forall i | 0 <= i < |items| :: Exact(items[i])
    case JDict(entries) => forall i | 0 <= i < |entries| :: Exact(entries[i].1)
    case _ => true
  }

  // A number and its stop, then the rest of the line.
  function Number(n: nat, rest: string): string {
    Show(n) + (";" + rest)
  }

  // A text by its character codes, which no line break can be in.
  function Codes(s: string, rest: string): string {
    if s == "" then "." + rest else Number(s[0] as int, Codes(s[1..], rest))
  }

  // A value, then the rest of the line. The first character says what it is.
  function Write(j: Json, rest: string): string
    decreases j, 2
  {
    [Tag(j)] + Body(j, rest)
  }

  function Tag(j: Json): char {
    match j
    case JNull => 'n'
    case JBool(b) => if b then 't' else 'f'
    case JInt(n) => if n < 0 then '-' else '+'
    case JFloat(_) => 'x'
    case JStr(_) => 's'
    case JList(_) => '['
    case JDict(_) => '{'
  }

  function Body(j: Json, rest: string): string
    decreases j, 1
  {
    match j
    case JInt(n) => Number(if n < 0 then -n else n, rest)
    case JStr(s) => Codes(s, rest)
    case JList(items) => Items(items, rest)
    case JDict(entries) => Entries(entries, rest)
    case _ => rest
  }

  function Items(items: seq<Json>, rest: string): string
    decreases items, 0
  {
    if items == [] then "]" + rest else Write(items[0], Items(items[1..], rest))
  }

  function Entries(entries: seq<(string, Json)>, rest: string): string
    decreases entries, 0
  {
    if entries == [] then "}" + rest else ":" + OneEntry(entries[0], Entries(entries[1..], rest))
  }

  function OneEntry(e: (string, Json), rest: string): string
    decreases e, 0
  {
    Codes(e.0, Write(e.1, rest))
  }

  // ------------------------------------------------------------------------
  // It can be read back
  // ------------------------------------------------------------------------

  lemma SplitHead(a: char, x: string, b: char, y: string)
    requires [a] + x == [b] + y
    ensures a == b && x == y
  {
    assert ([a] + x)[0] == a && ([b] + y)[0] == b;
    assert ([a] + x)[1..] == x && ([b] + y)[1..] == y;
  }

  // What stands before the first stop, and what after, can be told apart.
  lemma {:induction false} SplitAtStop(p: string, x: string, q: string, y: string)
    requires ';' !in p && ';' !in q && p + (";" + x) == q + (";" + y)
    ensures p == q && x == y
  {
    if p != "" {
      assert p + (";" + x) == [p[0]] + (p[1..] + (";" + x));
    } else {
      assert p + (";" + x) == [';'] + x;
    }
    if q != "" {
      assert q + (";" + y) == [q[0]] + (q[1..] + (";" + y));
    } else {
      assert q + (";" + y) == [';'] + y;
    }
    SplitHead(if p == "" then ';' else p[0], if p == "" then x else p[1..] + (";" + x),
      if q == "" then ';' else q[0], if q == "" then y else q[1..] + (";" + y));
    if p != "" && q != "" {
      SplitAtStop(p[1..], x, q[1..], y);
    }
  }

  lemma SplitNumber(m: nat, x: string, n: nat, y: string)
    requires Number(m, x) == Number(n, y)
    ensures m == n && x == y
  {
    ShowsDigits(m);
    ShowsDigits(n);
    SplitAtStop(Show(m), x, Show(n), y);
  }

  lemma NumberBegins(n: nat, x: string)
    ensures Number(n, x) != "" && IsDigit(Number(n, x)[0])
  {
    ShowsDigits(n);
  }

  lemma {:induction false} SplitText(s: string, x: string, t: string, y: string)
    requires Codes(s, x) == Codes(t, y)
    ensures s == t && x == y
  {
    hide Number;
    if s != "" {
      NumberBegins(s[0] as int, Codes(s[1..], x));
    }
    if t != "" {
      NumberBegins(t[0] as int, Codes(t[1..], y));
    }
    if s == "" {
      SplitHead('.', x, '.', y);
    } else {
      SplitNumber(s[0] as int, Codes(s[1..], x), t[0] as int, Codes(t[1..], y));
      SplitText(s[1..], x, t[1..], y);
    }
  }

  lemma {:induction false} SplitValue(j: Json, x: string, k: Json, y: string)
    requires Exact(j) && Exact(k) && Write(j, x) == Write(k, y)
    ensures j == k && x == y
    decreases j, 2
  {
    hide Number, Codes, Items, Entries;
    SplitHead(Tag(j), Body(j, x), Tag(k), Body(k, y));
    match j
    case JInt(n) => SplitNumber(if n < 0 then -n else n, x, if k.n < 0 then -k.n else k.n, y);
    case JStr(s) => SplitText(s, x, k.s, y);
    case JList(items) => SplitItems(items, x, k.items, y);
    case JDict(entries) => SplitEntries(entries, x, k.entries, y);
    case _ =>
  }

  lemma {:induction false} SplitItems(items: seq<Json>, x: string, others: seq<Json>, y: string)
    requires (forall i | 0 <= i < |items| :: Exact(items[i])) && (forall i | 0 <= i < |others| :: Exact(others[i]))
    requires Items(items, x) == Items(others, y)
    ensures items == others && x == y
    decreases items, 0
  {
    hide Body;
    SplitHead(if items == [] then ']' else Tag(items[0]),
      if items == [] then x else Body(items[0], Items(items[1..], x)),
      if others == [] then ']' else Tag(others[0]), if others == [] then y else Body(others[0], Items(others[1..], y)));
    if items != [] {
      SplitValue(items[0], Items(items[1..], x), others[0], Items(others[1..], y));
      SplitItems(items[1..], x, others[1..], y);
    }
  }

  lemma {:induction false} SplitEntries(entries: seq<(string, Json)>, x: string, others: seq<(string, Json)>, y: string)
    requires (forall i | 0 <= i < |entries| :: Exact(entries[i].1))
        && (forall i | 0 <= i < |others| :: Exact(others[i].1))
    requires Entries(entries, x) == Entries(others, y)
    ensures entries == others && x == y
    decreases entries, 0
  {
    hide OneEntry;
    SplitHead(if entries == [] then '}' else ':',
      if entries == [] then x else OneEntry(entries[0], Entries(entries[1..], x)),
      if others == [] then '}' else ':', if others == [] then y else OneEntry(others[0], Entries(others[1..], y)));
    if entries != [] {
      SplitEntry(entries[0], Entries(entries[1..], x), others[0], Entries(others[1..], y));
      SplitEntries(entries[1..], x, others[1..], y);
    }
  }

  lemma {:induction false} SplitEntry(e: (string, Json), x: string, f: (string, Json), y: string)
    requires Exact(e.1) && Exact(f.1) && OneEntry(e, x) == OneEntry(f, y)
    ensures e == f && x == y
    decreases e, 0
  {
    hide Write, Codes;
    SplitText(e.0, Write(e.1, x), f.0, Write(f.1, y));
    SplitValue(e.1, x, f.1, y);
  }

  function Encode(j: Json): string {
    Write(j, "")
  }

  // The value a text stands for, if it stands for one.
  ghost function Decode(text: string): Option<Json> {
    if exists j :: Exact(j) && Encode(j) == text then
      var j :| Exact(j) && Encode(j) == text;
      Some(j)
    else None
  }

  // It stays on one line.
  lemma {:induction false} CodesAreUnbroken(s: string, rest: string)
    requires Unbroken(rest)
    ensures Unbroken(Codes(s, rest))
  {
    if s != "" {
      CodesAreUnbroken(s[1..], rest);
      ShowIsUnbroken(s[0] as int);
    }
  }

  lemma {:induction false} WriteIsUnbroken(j: Json, rest: string)
    requires Unbroken(rest)
    ensures Unbroken(Write(j, rest))
    decreases j, 1
  {
    match j
    case JInt(n) => ShowIsUnbroken(if n < 0 then -n else n);
    case JStr(s) => CodesAreUnbroken(s, rest);
    case JList(items) => ItemsAreUnbroken(items, rest);
    case JDict(entries) => EntriesAreUnbroken(entries, rest);
    case _ =>
  }

  lemma {:induction false} ItemsAreUnbroken(items: seq<Json>, rest: string)
    requires Unbroken(rest)
    ensures Unbroken(Items(items, rest))
    decreases items, 0
  {
    if items != [] {
      ItemsAreUnbroken(items[1..], rest);
      WriteIsUnbroken(items[0], Items(items[1..], rest));
    }
  }

  lemma {:induction false} EntriesAreUnbroken(entries: seq<(string, Json)>, rest: string)
    requires Unbroken(rest)
    ensures Unbroken(Entries(entries, rest))
    decreases entries, 0
  {
    if entries != [] {
      EntriesAreUnbroken(entries[1..], rest);
      EntryIsUnbroken(entries[0], Entries(entries[1..], rest));
    }
  }

  lemma {:induction false} EntryIsUnbroken(e: (string, Json), rest: string)
    requires Unbroken(rest)
    ensures Unbroken(OneEntry(e, rest))
    decreases e, 0
  {
    WriteIsUnbroken(e.1, rest);
    CodesAreUnbroken(e.0, Write(e.1, rest));
  }

  lemma Reads(j: Json)
    requires Exact(j)
    ensures Decode(Encode(j)) == Some(j) && Unbroken(Encode(j))
  {
    WriteIsUnbroken(j, "");
    SplitValue(Decode(Encode(j)).value, "", j, "");
  }

  // ------------------------------------------------------------------------
  // Connections that replay
  // ------------------------------------------------------------------------

  // What a client is sent of a history before anything else happens.
  function Replayed(cfg: Config, history: seq<Event>): seq<Frame> {
    var rows := Keep(Asked(cfg), history);
    if |rows| > cfg.cap then [Resync(ReplayCapped)] else Datas(rows)
  }

  function Datas(events: seq<Event>): (r: seq<Frame>)
    ensures |r| == |events| && forall i | 0 <= i < |r| :: r[i] == Data(events[i])
  {
    seq(|events|, i requires 0 <= i < |events| => Data(events[i]))
  }

  function ItemsOf(c: Codec, frames: seq<Frame>): seq<Item> {
    if frames == [] then [] else [ItemOf(c, frames[0])] + ItemsOf(c, frames[1..])
  }

  lemma {:induction false} ItemsCarry(c: Codec, frames: seq<Frame>)
    ensures Carries(c, ItemsOf(c, frames), frames)
  {
    if frames != [] {
      ItemsCarry(c, frames[1..]);
      assert ItemsOf(c, frames)[1..] == ItemsOf(c, frames[1..]);
    }
  }

  function Sends(n: nat): seq<Step> {
    if n == 0 then [Send] else [Send] + Sends(n - 1)
  }

  function SentOne(s: State): State
    requires s.phase.Sending? && s.phase.rows != []
  {
    var row := s.phase.rows[0];
    s.(phase := Sending(s.phase.rows[1..]),
       last := if row.id.Some? then row.id.value else s.last,
       out := s.out + [Data(row)])
  }

  lemma SendIs(cfg: Config, s: State)
    requires s.phase.Sending?
    ensures Feed.Enabled(cfg, s, Send)
    ensures Feed.Next(cfg, s, Send) == if s.phase.rows == [] then s.(phase := Turning) else SentOne(s)
  {
  }

  // Sending the page row by row, and then going live.
  lemma {:induction false} SendsAll(cfg: Config, s: State)
    requires s.phase.Sending?
    ensures var trace := Sends(|s.phase.rows|);
            Feed.IsRun(cfg, s, trace) && var s' := Feed.End(cfg, s, trace);
            s' == s.(phase := Turning, last := s'.last, out := s.out + Datas(s.phase.rows))
    decreases |s.phase.rows|
  {
    hide Feed.Enabled, Feed.Next, Datas;
    var rows := s.phase.rows;
    SendIs(cfg, s);
    if rows == [] {
      assert Datas(rows) == [] && s.out + [] == s.out;
      assert Sends(0)[1..] == [];
    } else {
      SendsAll(cfg, SentOne(s));
      assert Sends(|rows|)[1..] == Sends(|rows| - 1);
      assert [Data(rows[0])] + Datas(rows[1..]) == Datas(rows);
      assert s.out + [Data(rows[0])] + Datas(rows[1..]) == s.out + ([Data(rows[0])] + Datas(rows[1..]));
    }
  }

  // A connection that subscribes, reads its page and sends it.
  function Replay(cfg: Config, c: Codec, history: seq<Event>): Connection {
    var rows := Keep(Asked(cfg), history);
    var trace := [Subscribe, Page] + (if |rows| > cfg.cap then [] else Sends(|rows|));
    Connection(history, |history|, trace, ItemsOf(c, Replayed(cfg, history)))
  }

  lemma TwoSteps(cfg: Config, s: State, a: Step, b: Step, rest: seq<Step>)
    requires Feed.Enabled(cfg, s, a) && Feed.Enabled(cfg, Feed.Next(cfg, s, a), b)
    requires Feed.IsRun(cfg, Feed.Next(cfg, Feed.Next(cfg, s, a), b), rest)
    ensures Feed.IsRun(cfg, s, [a, b] + rest)
    ensures Feed.End(cfg, s, [a, b] + rest) == Feed.End(cfg, Feed.Next(cfg, Feed.Next(cfg, s, a), b), rest)
  {
    hide Feed.Enabled, Feed.Next;
    assert ([a, b] + rest)[1..] == [b] + rest && ([b] + rest)[1..] == rest;
  }

  lemma ReplayEnds(cfg: Config, c: Codec, history: seq<Event>)
    requires Ascending(history)
    ensures Runs(cfg, Replay(cfg, c, history))
    ensures Final(cfg, Replay(cfg, c, history)).out == Replayed(cfg, history)
    ensures Final(cfg, Replay(cfg, c, history)).committed == history
    ensures |Keep(Asked(cfg), history)| <= cfg.cap ==> CaughtUp(Final(cfg, Replay(cfg, c, history)))
  {
    hide Keep, Feed.Rows;
    var rows := Keep(Asked(cfg), history);
    RowsAreKept(Asked(cfg), history);
    var s0 := Start(cfg, history, |history|);
    var s1 := s0.(phase := Paging);
    if |rows| > cfg.cap {
      TwoSteps(cfg, s0, Subscribe, Page, []);
    } else {
      SendsAll(cfg, s1.(phase := Sending(rows)));
      TwoSteps(cfg, s0, Subscribe, Page, Sends(|rows|));
      assert [] + Datas(rows) == Datas(rows);
    }
  }

  // Names on one line that a client can tell from the control frame, and data without a
  // fraction.
  predicate Carriable(e: Event) {
    e.name != RESYNC && e.name != "" && Unbroken(e.name) && Exact(e.data)
  }

  lemma ReplayReadable(cfg: Config, history: seq<Event>)
    requires forall e | e in history :: Carriable(e)
    ensures FramesReadable(Codec(Encode, Decode), Replayed(cfg, history))
  {
    hide Keep, Encode, Decode, Unbroken;
    var c := Codec(Encode, Decode);
    var frames := Replayed(cfg, history);
    forall i | 0 <= i < |frames| ensures FrameReadable(c, frames[i]) {
      match frames[i]
      case Data(e) =>
        assert e in Keep(Asked(cfg), history);
        KeptIs(cfg, history, e);
        Reads(Envelope(e));
      case Resync(reason) => Reads(Why(reason));
    }
  }

  lemma KeptIs(cfg: Config, history: seq<Event>, e: Event)
    requires e in Keep(Asked(cfg), history)
    ensures e in history
  {
  }

  function ReplayLines(cfg: Config, c: Codec, histories: nat -> seq<Event>): Server {
    (i: nat, cursor: Option<int>) => Wire(Replay(cfg.(after := CursorOf(cursor)), c, histories(i)).items)
  }

  lemma ReplayWrites(cfg: Config, history: seq<Event>)
    requires Ascending(history) && forall e | e in history :: Carriable(e)
    ensures var c := Codec(Encode, Decode);
            Wrote(cfg, c, history, Replay(cfg, c, history))
  {
    hide Runs, Final, FramesReadable, Carries, Replayed, Ascending;
    var c := Codec(Encode, Decode);
    ReplayEnds(cfg, c, history);
    ReplayReadable(cfg, history);
    ItemsCarry(c, Replayed(cfg, history));
  }

  // Such a server serves every history of such events; and it has sent all that was asked
  // for whenever that is no more than a page.
  lemma ReplayServes(cfg: Config, histories: nat -> seq<Event>)
    requires forall i: nat :: Ascending(histories(i)) && histories(i) <= histories(i + 1)
    requires forall i: nat, e | e in histories(i) :: Carriable(e)
    ensures var c := Codec(Encode, Decode);
            var serve := ReplayLines(cfg, c, histories);
            && Serves(cfg, c, histories, serve)
            && forall i: nat, cursor: Option<int> :: var asked := cfg.(after := CursorOf(cursor));
                 |Keep(Asked(asked), histories(i))| <= cfg.cap ==> ServedAll(asked, c, histories(i), serve(i, cursor))
  {
    hide Keep, Wrote, Replay, CaughtUp, Wire, Ascending, Carriable;
    var c := Codec(Encode, Decode);
    var serve := ReplayLines(cfg, c, histories);
    forall i: nat, cursor: Option<int>
      ensures var asked := cfg.(after := CursorOf(cursor));
              && Served(asked, c, histories(i), serve(i, cursor))
              && (|Keep(Asked(asked), histories(i))| <= cfg.cap ==> ServedAll(asked, c, histories(i), serve(i, cursor)))
    {
      var asked := cfg.(after := CursorOf(cursor));
      var k := Replay(asked, c, histories(i));
      ReplayWrites(asked, histories(i));
      ReplayEnds(asked, c, histories(i));
      assert Wire(k.items)[..|Wire(k.items)|] == Wire(k.items);
    }
  }

  // So following is neither vacuous nor stuck short: a client of this server has all that
  // was asked for after one connection, when that is no more than a page.
  lemma FollowingReplay(cfg: Config, histories: nat -> seq<Event>, after: Option<int>)
    requires forall i: nat :: Ascending(histories(i)) && histories(i) <= histories(i + 1)
    requires forall i: nat, e | e in histories(i) :: Carriable(e)
    requires cfg.after == CursorOf(after) && |Keep(Asked(cfg), histories(0))| <= cfg.cap
    ensures var c := Codec(Encode, Decode);
            Stored(FollowUpto(Decode, ReplayLines(cfg, c, histories), after, 1).yielded) ==
              Views(Keep(Asked(cfg), histories(0)))
  {
    hide Keep, Serves, ServedAll, Stored, Views, ReplayLines, Ascending;
    var c := Codec(Encode, Decode);
    ReplayServes(cfg, histories);
    assert cfg.(after := CursorOf(after)) == cfg;
    FollowIsComplete(cfg, c, histories, ReplayLines(cfg, c, histories), after, 0);
  }
}
