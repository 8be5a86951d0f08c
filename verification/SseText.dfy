/** The event stream as text: what the server writes, line by line, and the parser that
    reads it (athanore/cli/client.py). Sections 9.2.5 and 9.2.6 of the WHATWG HTML Living
    Standard, except that the id is reset with each frame. */
module SseText {
  import opened Base
  import opened Json

  datatype ServerEvent = ServerEvent(name: string, data: Json, id: Option<int>)

  // `json.loads`, which may refuse a text.
  type Decoder = string -> Option<Json>

  // What a frame has accumulated.
  datatype Buffer = Buffer(name: Option<string>, data: seq<string>, id: Option<int>)

  const Fresh := Buffer(None, [], None)

  // What the lines so far have yielded, and whether a line was refused.
  datatype Parsed = Parsed(events: seq<ServerEvent>, buffer: Buffer, refused: bool)

  // ------------------------------------------------------------------------
  // Integers
  // ------------------------------------------------------------------------

  predicate IsDigit(c: char) {
    '0' <= c <= '9'
  }

  predicate IsSpace(c: char) {
    c in {' ', '\t', '\n', '\r'}
  }

  function Trim(s: string): string {
    if s != "" && IsSpace(s[0]) then Trim(s[1..])
    else if s != "" && IsSpace(s[|s| - 1]) then Trim(s[..|s| - 1])
    else s
  }

  function DigitValue(c: char): nat
    requires IsDigit(c)
  {
    (c as int) - ('0' as int)
  }

  // Digits, with single underscores between them.
  function Natural(s: string): Option<nat> {
    if s == "" || !IsDigit(s[|s| - 1]) then None
    else
      var digit := DigitValue(s[|s| - 1]);
      var front := s[..|s| - 1];
      if front == "" then Some(digit)
      else
        var rest := Natural(if front[|front| - 1] == '_' then front[..|front| - 1] else front);
        if rest.None? then None else Some(10 * rest.value + digit)
  }

  // `int(value)`, in ASCII digits.
  function ParseInt(value: string): Option<int> {
    var s := Trim(value);
    if s != "" && (s[0] == '+' || s[0] == '-') then
      var n := Natural(s[1..]);
      if n.None? then None
      else
        var v: int := n.value;
        Some(if s[0] == '-' then -v else v)
    else
      var n := Natural(s);
      if n.None? then None else Some(n.value)
  }

  function Digit(n: nat): char
    requires n < 10
  {
    '0' + n as char
  }

  // `str(n)`.
  function Show(n: nat): string {
    if n < 10 then [Digit(n)] else Show(n / 10) + [Digit(n % 10)]
  }

  lemma {:induction false} ShowsDigits(n: nat)
    ensures |Show(n)| > 0 && forall i | 0 <= i < |Show(n)| :: IsDigit(Show(n)[i])
    ensures Natural(Show(n)) == Some(n)
  {
    if n >= 10 {
      ShowsDigits(n / 10);
      assert Show(n)[..|Show(n)| - 1] == Show(n / 10);
    }
  }

  lemma ParseIntOfShow(n: nat)
    ensures ParseInt(Show(n)) == Some(n)
  {
    ShowsDigits(n);
  }

  // ------------------------------------------------------------------------
  // The parser
  // ------------------------------------------------------------------------

  // `line.partition(":")`: the field, and what follows the first colon.
  function Field(line: string): string {
    if line == "" || line[0] == ':' then "" else [line[0]] + Field(line[1..])
  }

  function Rest(line: string): string {
    if line == "" then "" else if line[0] == ':' then line[1..] else Rest(line[1..])
  }

  // One optional space after the colon is framing.
  function Unspaced(value: string): string {
    if value != "" && value[0] == ' ' then value[1..] else value
  }

  function Joined(data: seq<string>): string {
    if data == [] then "" else if |data| == 1 then data[0] else data[0] + "\n" + Joined(data[1..])
  }

  // A blank line dispatches what has accumulated.
  function Dispatch(decode: Decoder, p: Parsed): Parsed {
    if p.buffer.name.None? && p.buffer.data == [] then Parsed(p.events, Fresh, false)
    else
      var data := decode(Joined(p.buffer.data));
      if data.None? then p.(refused := true)
      else
        var name := if p.buffer.name.None? || p.buffer.name.value == "" then "message" else p.buffer.name.value;
        Parsed(p.events + [ServerEvent(name, data.value, p.buffer.id)], Fresh, false)
  }

  // One line, after which nothing is read once a line was refused.
  function Line(decode: Decoder, p: Parsed, line: string): Parsed {
    if p.refused then p
    else if line == "" then Dispatch(decode, p)
    else if line[0] == ':' then p
    else
      var field, value := Field(line), Unspaced(Rest(line));
      if field == "event" then p.(buffer := p.buffer.(name := Some(value)))
      else if field == "data" then p.(buffer := p.buffer.(data := p.buffer.data + [value]))
      else if field == "id" then
        var id := ParseInt(value);
        if id.None? then p.(refused := true) else p.(buffer := p.buffer.(id := id))
      else p
  }

  function ParseFrom(decode: Decoder, p: Parsed, lines: seq<string>): Parsed
    decreases |lines|
  {
    if lines == [] then p else ParseFrom(decode, Line(decode, p, lines[0]), lines[1..])
  }

  function Parse(decode: Decoder, lines: seq<string>): Parsed {
    ParseFrom(decode, Parsed([], Fresh, false), lines)
  }

  /** `_parse_sse`, over the lines there are. */
  method ParseSse(decode: Decoder, lines: seq<string>) returns (events: seq<ServerEvent>, refused: bool)
    ensures events == Parse(decode, lines).events && refused == Parse(decode, lines).refused
  {
    var name: Option<string> := None;
    var data: seq<string> := [];
    var id: Option<int> := None;
    events := [];
    for i := 0 to |lines|
      invariant Parse(decode, lines) == ParseFrom(decode, Parsed(events, Buffer(name, data, id), false), lines[i..])
    {
      var line := lines[i];
      assert lines[i..][1..] == lines[i + 1..];
      if line == "" {
        if name.Some? || data != [] {
          var body := decode(Joined(data));
          if body.None? {
            RefusedStays(decode, Parsed(events, Buffer(name, data, id), true), lines[i + 1..]);
            return events, true;
          }
          var called := if name.None? || name.value == "" then "message" else name.value;
          events := events + [ServerEvent(called, body.value, id)];
        }
        name, data, id := None, [], None;
      } else if line[0] != ':' {
        var field, value := Field(line), Unspaced(Rest(line));
        if field == "event" {
          name := Some(value);
        } else if field == "data" {
          data := data + [value];
        } else if field == "id" {
          var n := ParseInt(value);
          if n.None? {
            RefusedStays(decode, Parsed(events, Buffer(name, data, id), true), lines[i + 1..]);
            return events, true;
          }
          id := n;
        }
      }
    }
    refused := false;
  }

  lemma {:induction false} RefusedStays(decode: Decoder, p: Parsed, lines: seq<string>)
    requires p.refused
    ensures ParseFrom(decode, p, lines) == p
    decreases |lines|
  {
    if lines != [] {
      RefusedStays(decode, p, lines[1..]);
    }
  }

  // ------------------------------------------------------------------------
  // Prefixes and comments
  // ------------------------------------------------------------------------

  lemma {:induction false} ParseConcat(decode: Decoder, p: Parsed, a: seq<string>, b: seq<string>)
    ensures ParseFrom(decode, p, a + b) == ParseFrom(decode, ParseFrom(decode, p, a), b)
    decreases |a|
  {
    if a == [] {
      assert a + b == b;
    } else {
      assert (a + b)[1..] == a[1..] + b;
      ParseConcat(decode, Line(decode, p, a[0]), a[1..], b);
    }
  }

  lemma {:induction false} ParseGrows(decode: Decoder, p: Parsed, lines: seq<string>)
    ensures p.events <= ParseFrom(decode, p, lines).events
    decreases |lines|
  {
    if lines != [] {
      ParseGrows(decode, Line(decode, p, lines[0]), lines[1..]);
    }
  }

  // A stream cut at any line, mid-frame included, yields the first of its events.
  lemma PrefixOfEvents(decode: Decoder, lines: seq<string>, cut: nat)
    requires cut <= |lines|
    ensures Parse(decode, lines[..cut]).events <= Parse(decode, lines).events
  {
    assert lines == lines[..cut] + lines[cut..];
    ParseConcat(decode, Parsed([], Fresh, false), lines[..cut], lines[cut..]);
    ParseGrows(decode, Parse(decode, lines[..cut]), lines[cut..]);
  }

  // A comment changes nothing, wherever it stands.
  lemma CommentChangesNothing(decode: Decoder, before: seq<string>, comment: string, after: seq<string>)
    requires comment != "" && comment[0] == ':'
    ensures Parse(decode, before + [comment] + after) == Parse(decode, before + after)
  {
    var start := Parsed([], Fresh, false);
    ParseConcat(decode, start, before + [comment], after);
    ParseConcat(decode, start, before, [comment]);
    ParseConcat(decode, start, before, after);
    assert [comment][1..] == [];
  }

  // ------------------------------------------------------------------------
  // What the server writes
  // ------------------------------------------------------------------------

  // A message, or a keep-alive comment with its blank line.
  datatype Item = Message(id: Option<nat>, name: string, data: string) | Ping(text: string)

  function Lines(item: Item): seq<string> {
    match item
    case Ping(text) => [":" + text, ""]
    case Message(id, name, data) =>
      (if id.Some? then ["id: " + Show(id.value)] else []) + ["event: " + name, "data: " + data, ""]
  }

  // Where the client's reader ends a line: more places than the writer does.
  predicate Breaks(c: char) {
    c in {'\n', '\U{0B}', '\U{0C}', '\r', '\U{1C}', '\U{1D}', '\U{1E}', '\U{85}', '\U{2028}', '\U{2029}'}
  }

  predicate Unbroken(text: string) {
    forall i | 0 <= i < |text| :: !Breaks(text[i])
  }

  // A line that was written, as the reader gives it.
  function Broken(line: string): (r: seq<string>)
    ensures r != []
  {
    if line == "" then [""]
    else
      var rest := Broken(line[1..]);
      if Breaks(line[0]) then [""] + rest else [[line[0]] + rest[0]] + rest[1..]
  }

  function Given(lines: seq<string>): seq<string> {
    if lines == [] then [] else Broken(lines[0]) + Given(lines[1..])
  }

  // What a client is given of what was written.
  function Wire(items: seq<Item>): seq<string> {
    if items == [] then [] else Given(Lines(items[0])) + Wire(items[1..])
  }

  // A message a client of this API can be sent: it has no line break in it that only the
  // client sees, and its data is JSON.
  predicate Sendable(decode: Decoder, item: Item) {
    match item
    case Ping(text) => Unbroken(text)
    case Message(_, name, data) => name != "" && Unbroken(name) && Unbroken(data) && decode(data).Some?
  }

  function Read(decode: Decoder, item: Item): seq<ServerEvent>
    requires Sendable(decode, item)
  {
    if item.Ping? then []
    else [ServerEvent(item.name, decode(item.data).value, if item.id.Some? then Some(item.id.value) else None)]
  }

  predicate AllSendable(decode: Decoder, items: seq<Item>) {
    forall i | 0 <= i < |items| :: Sendable(decode, items[i])
  }

  function ReadAll(decode: Decoder, items: seq<Item>): seq<ServerEvent>
    requires AllSendable(decode, items)
  {
    if items == [] then []
    else
      var rest := items[1..];
      assert forall i | 0 <= i < |rest| :: Sendable(decode, rest[i]);
      Read(decode, items[0]) + ReadAll(decode, rest)
  }

  // A field line is read back as its field and its value, whatever the value holds.
  lemma FieldLine(field: string, value: string)
    requires field in {"id", "event", "data"}
    ensures Field(field + ": " + value) == field && Unspaced(Rest(field + ": " + value)) == value
  {
    var line := field + ": " + value;
    FieldOf(field, " " + value);
    assert line == field + ":" + (" " + value);
  }

  lemma {:induction false} FieldOf(field: string, value: string)
    requires ':' !in field
    ensures Field(field + ":" + value) == field && Rest(field + ":" + value) == value
  {
    var line := field + ":" + value;
    if field != "" {
      assert field[0] != ':' && line[1..] == field[1..] + ":" + value;
      FieldOf(field[1..], value);
    }
  }

  lemma LineOf(decode: Decoder, p: Parsed, field: string, value: string)
    requires field in {"id", "event", "data"} && !p.refused
    ensures var q := Line(decode, p, field + ": " + value);
            && (field == "event" ==> q == p.(buffer := p.buffer.(name := Some(value))))
            && (field == "data" ==> q == p.(buffer := p.buffer.(data := p.buffer.data + [value])))
            && (field == "id" && ParseInt(value).Some? ==> q == p.(buffer := p.buffer.(id := ParseInt(value))))
  {
    hide Field, Rest, Unspaced, ParseInt, Dispatch;
    var line := field + ": " + value;
    FieldLine(field, value);
    assert line != "" && line[0] == field[0];
    assert "id" != "event" && "id" != "data" && "event" != "data" by {
      assert "id"[0] == 'i' && "event"[0] == 'e' && "data"[0] == 'd';
    }
  }

  lemma ParseOne(decode: Decoder, p: Parsed, line: string, rest: seq<string>)
    ensures ParseFrom(decode, p, [line] + rest) == ParseFrom(decode, Line(decode, p, line), rest)
  {
    assert ([line] + rest)[1..] == rest;
  }

  lemma ReadsItem(decode: Decoder, events: seq<ServerEvent>, item: Item)
    requires Sendable(decode, item)
    ensures ParseFrom(decode, Parsed(events, Fresh, false), Lines(item)) == Parsed(events + Read(decode, item), Fresh,
        false)
  {
    hide ParseFrom, Field, Rest, Unspaced, ParseInt;
    var p := Parsed(events, Fresh, false);
    match item
    case Ping(text) =>
      assert (":" + text)[0] == ':';
      ParseOne(decode, p, ":" + text, [""]);
      assert Lines(item) == [":" + text] + [""];
      ParseBlank(decode, p);
      assert events + [] == events;
    case Message(id, name, data) =>
      var body := ["event: " + name, "data: " + data, ""];
      if id.Some? {
        ParseIntOfShow(id.value);
        assert "id" + ": " + Show(id.value) == "id: " + Show(id.value);
        LineOf(decode, p, "id", Show(id.value));
        ParseOne(decode, p, "id: " + Show(id.value), body);
        assert Lines(item) == ["id: " + Show(id.value)] + body;
        ReadsBody(decode, p.(buffer := Buffer(None, [], Some(id.value))), name, data);
      } else {
        assert Lines(item) == body;
        ReadsBody(decode, p, name, data);
      }
  }

  lemma ParseBlank(decode: Decoder, p: Parsed)
    ensures ParseFrom(decode, p, [""]) == Line(decode, p, "")
  {
    assert [""] + [] == [""];
    ParseOne(decode, p, "", []);
  }

  lemma ReadsBody(decode: Decoder, q: Parsed, name: string, data: string)
    requires name != "" && decode(data).Some? && !q.refused && q.buffer.name.None? && q.buffer.data == []
    ensures ParseFrom(decode, q, ["event: " + name, "data: " + data, ""]) ==
              Parsed(q.events + [ServerEvent(name, decode(data).value, q.buffer.id)], Fresh, false)
  {
    hide ParseFrom, Field, Rest, Unspaced, ParseInt, Line;
    var lines := ["event: " + name, "data: " + data, ""];
    assert "event" + ": " + name == "event: " + name && "data" + ": " + data == "data: " + data;
    LineOf(decode, q, "event", name);
    var r := q.(buffer := q.buffer.(name := Some(name)));
    LineOf(decode, r, "data", data);
    var s := r.(buffer := r.buffer.(data := r.buffer.data + [data]));
    assert s.buffer == Buffer(Some(name), [data], q.buffer.id);
    assert lines == ["event: " + name] + (["data: " + data] + [""]);
    ParseOne(decode, q, "event: " + name, ["data: " + data] + [""]);
    ParseOne(decode, r, "data: " + data, [""]);
    ParseBlank(decode, s);
    BlankDispatches(decode, s, name, data);
  }

  lemma BlankDispatches(decode: Decoder, s: Parsed, name: string, data: string)
    requires name != "" && decode(data).Some? && !s.refused && s.buffer.name == Some(name) && s.buffer.data == [data]
    ensures Line(decode, s, "") == Parsed(s.events + [ServerEvent(name, decode(data).value, s.buffer.id)], Fresh, false)
  {
  }

  lemma {:induction false} UnbrokenIsWhole(line: string)
    requires Unbroken(line)
    ensures Broken(line) == [line]
  {
    if line != "" {
      assert forall i | 0 <= i < |line| - 1 :: line[1..][i] == line[i + 1];
      UnbrokenIsWhole(line[1..]);
      assert [line[0]] + line[1..] == line;
    }
  }

  lemma {:induction false} UnbrokenAreGiven(lines: seq<string>)
    requires forall i | 0 <= i < |lines| :: Unbroken(lines[i])
    ensures Given(lines) == lines
  {
    if lines != [] {
      UnbrokenIsWhole(lines[0]);
      UnbrokenAreGiven(lines[1..]);
    }
  }

  lemma UnbrokenJoined(a: string, b: string)
    requires Unbroken(a) && Unbroken(b)
    ensures Unbroken(a + b)
  {
  }

  lemma FieldsAreUnbroken()
    ensures Unbroken("id: ") && Unbroken("event: ") && Unbroken("data: ") && Unbroken(":") && Unbroken("")
  {
  }

  lemma ShowIsUnbroken(n: nat)
    ensures Unbroken(Show(n))
  {
    ShowsDigits(n);
  }

  // What can be sent is given as it was written.
  lemma SendableIsGiven(decode: Decoder, item: Item)
    requires Sendable(decode, item)
    ensures Given(Lines(item)) == Lines(item)
  {
    hide Unbroken, Given, Show;
    FieldsAreUnbroken();
    match item
    case Ping(text) =>
      UnbrokenJoined(":", text);
      UnbrokenAreGiven(Lines(item));
    case Message(id, name, data) =>
      UnbrokenJoined("event: ", name);
      UnbrokenJoined("data: ", data);
      if id.Some? {
        ShowIsUnbroken(id.value);
        UnbrokenJoined("id: ", Show(id.value));
      }
      UnbrokenAreGiven(Lines(item));
  }

  lemma {:induction false} WireFrom(decode: Decoder, events: seq<ServerEvent>, items: seq<Item>)
    requires AllSendable(decode, items)
    ensures ParseFrom(decode, Parsed(events, Fresh, false), Wire(items)) ==
              Parsed(events + ReadAll(decode, items), Fresh, false)
    decreases |items|
  {
    hide Lines, Read, ParseFrom, Given;
    if items == [] {
      assert events + [] == events;
      ParseNothing(decode, Parsed(events, Fresh, false));
    } else {
      RestSendable(decode, items);
      ReadsItem(decode, events, items[0]);
      SendableIsGiven(decode, items[0]);
      ParseConcat(decode, Parsed(events, Fresh, false), Lines(items[0]), Wire(items[1..]));
      WireFrom(decode, events + Read(decode, items[0]), items[1..]);
      assert events + Read(decode, items[0]) + ReadAll(decode, items[1..]) == events + ReadAll(decode, items);
    }
  }

  lemma ParseNothing(decode: Decoder, p: Parsed)
    ensures ParseFrom(decode, p, []) == p
  {
  }

  lemma RestSendable(decode: Decoder, items: seq<Item>)
    requires AllSendable(decode, items) && items != []
    ensures Sendable(decode, items[0]) && AllSendable(decode, items[1..])
  {
    assert forall i | 0 <= i < |items| - 1 :: items[1..][i] == items[i + 1];
  }

  // What is written is what is read: every message once, in order, an id exactly where one
  // was written, and the keep-alives not at all.
  lemma RoundTrip(decode: Decoder, items: seq<Item>)
    requires AllSendable(decode, items)
    ensures Parse(decode, Wire(items)) == Parsed(ReadAll(decode, items), Fresh, false)
  {
    WireFrom(decode, [], items);
    assert [] + ReadAll(decode, items) == ReadAll(decode, items);
  }

  // And a stream cut at any line yields the first of the messages, and refuses nothing.
  lemma CutStream(decode: Decoder, items: seq<Item>, cut: nat)
    requires AllSendable(decode, items) && cut <= |Wire(items)|
    ensures Parse(decode, Wire(items)[..cut]).events <= ReadAll(decode, items)
    ensures !Parse(decode, Wire(items)[..cut]).refused
  {
    var lines := Wire(items);
    RoundTrip(decode, items);
    PrefixOfEvents(decode, lines, cut);
    assert lines == lines[..cut] + lines[cut..];
    ParseConcat(decode, Parsed([], Fresh, false), lines[..cut], lines[cut..]);
    if Parse(decode, lines[..cut]).refused {
      RefusedStays(decode, Parse(decode, lines[..cut]), lines[cut..]);
    }
  }

  // ------------------------------------------------------------------------
  // A line break that only the client sees
  // ------------------------------------------------------------------------

  lemma {:induction false} BrokenAt(before: string, c: char, after: string)
    requires Unbroken(before) && Breaks(c) && Unbroken(after)
    ensures Broken(before + [c] + after) == [before, after]
  {
    var line := before + [c] + after;
    if before == "" {
      UnbrokenIsWhole(after);
      assert line[1..] == after;
    } else {
      assert forall i | 0 <= i < |before| - 1 :: before[1..][i] == before[i + 1];
      assert line[1..] == before[1..] + [c] + after;
      BrokenAt(before[1..], c, after);
      assert [before[0]] + before[1..] == before;
    }
  }

  // A message whose data has one is read as if its data ended there: it is refused exactly
  // when that is not JSON, and what follows the break is lost, unless it reads as a field.
  lemma BreakCutsData(decode: Decoder, id: Option<nat>, name: string, before: string, c: char, after: string)
    requires name != "" && Unbroken(name) && Unbroken(before) && Breaks(c) && Unbroken(after)
    requires Field(after) !in {"event", "data", "id"}
    ensures var p := Parse(decode, Wire([Message(id, name, before + [c] + after)]));
            && (p.refused <==> decode(before).None?)
            && p.events == if decode(before).None? then []
                           else [ServerEvent(name, decode(before).value, if id.Some? then Some(id.value) else None)]
  {
    hide Unbroken, Broken, Field, Rest, Unspaced, ParseInt, Breaks, Line, ParseFrom, Dispatch;
    var start := Parsed([], Fresh, false);
    var q := BrokenLines(decode, id, name, before, c, after);
    var r := q.(buffer := q.buffer.(name := Some(name)));
    LineOf(decode, q, "event", name);
    LineOf(decode, r, "data", before);
    var s := r.(buffer := r.buffer.(data := r.buffer.data + [before]));
    assert s.buffer == Buffer(Some(name), [before], q.buffer.id);
    assert "event" + ": " + name == "event: " + name && "data" + ": " + before == "data: " + before;
    ParseOne(decode, q, "event: " + name, ["data: " + before, after, ""]);
    assert ["event: " + name] + ["data: " + before, after, ""] == ["event: " + name, "data: " + before, after, ""];
    ParseOne(decode, r, "data: " + before, [after, ""]);
    assert ["data: " + before] + [after, ""] == ["data: " + before, after, ""];
    assert [after] + [""] == [after, ""];
    ParseOne(decode, s, after, [""]);
    ParseBlank(decode, Line(decode, s, after));
    NoFieldThenBlank(decode, s, name, before, after);
  }

  // The lines of such a message, and what the parser has after its id.
  lemma BrokenLines(decode: Decoder, id: Option<nat>, name: string, before: string, c: char, after: string)
    returns (q: Parsed)
    requires Unbroken(name) && Unbroken(before) && Breaks(c) && Unbroken(after)
    ensures q == Parsed([], Buffer(None, [], if id.Some? then Some(id.value) else None), false)
    ensures Parse(decode, Wire([Message(id, name, before + [c] + after)])) ==
            ParseFrom(decode, q, ["event: " + name, "data: " + before, after, ""])
  {
    hide Unbroken, Broken, Field, Rest, Unspaced, ParseInt, Breaks, Line, ParseFrom, Show;
    var item := Message(id, name, before + [c] + after);
    var body := ["event: " + name, "data: " + before, after, ""];
    FieldsAreUnbroken();
    UnbrokenJoined("event: ", name);
    UnbrokenJoined("data: ", before);
    BrokenAt("data: " + before, c, after);
    assert "data: " + before + [c] + after == "data: " + (before + [c] + after);
    GivenBody("event: " + name, "data: " + (before + [c] + after), ["data: " + before, after]);
    assert ["event: " + name] + ["data: " + before, after] + [""] == body;
    assert Wire([item]) == Given(Lines(item));
    var start := Parsed([], Fresh, false);
    var written := ["event: " + name, "data: " + (before + [c] + after), ""];
    if id.Some? {
      assert Lines(item) == ["id: " + Show(id.value)] + written;
      ShowIsUnbroken(id.value);
      UnbrokenJoined("id: ", Show(id.value));
      UnbrokenIsWhole("id: " + Show(id.value));
      GivenFirst("id: " + Show(id.value), written);
      assert "id" + ": " + Show(id.value) == "id: " + Show(id.value);
      ParseIntOfShow(id.value);
      LineOf(decode, start, "id", Show(id.value));
      ParseOne(decode, start, "id: " + Show(id.value), body);
      q := start.(buffer := Buffer(None, [], Some(id.value)));
    } else {
      assert Lines(item) == written;
      q := start;
    }
  }

  lemma GivenFirst(first: string, rest: seq<string>)
    ensures Given([first] + rest) == Broken(first) + Given(rest)
  {
    assert ([first] + rest)[1..] == rest;
  }

  lemma GivenBody(event: string, data: string, parts: seq<string>)
    requires Unbroken(event) && Broken(data) == parts
    ensures Given([event, data, ""]) == [event] + parts + [""]
  {
    UnbrokenIsWhole(event);
    GivenFirst(event, [data, ""]);
    GivenFirst(data, [""]);
    GivenFirst("", []);
    assert [event] + [data, ""] == [event, data, ""] && [data] + [""] == [data, ""] && [""] + [] == [""];
  }

  lemma NoFieldThenBlank(decode: Decoder, s: Parsed, name: string, data: string, line: string)
    requires !s.refused && s.buffer.name == Some(name) && s.buffer.data == [data] && name != ""
    requires Field(line) !in {"event", "data", "id"}
    ensures var p := Line(decode, Line(decode, s, line), "");
            && (p.refused <==> decode(data).None?)
            && p.events == if decode(data).None? then s.events
                           else s.events + [ServerEvent(name, decode(data).value, s.buffer.id)]
  {
    hide Field, Rest, Unspaced, ParseInt;
    assert Joined(s.buffer.data) == data;
    if line == "" {
      var p := Line(decode, s, "");
      assert !p.refused ==> p == Parsed(s.events + [ServerEvent(name, decode(data).value, s.buffer.id)], Fresh, false);
    } else {
      assert Line(decode, s, line) == s;
    }
  }

  // ------------------------------------------------------------------------
  // One frame, as it stands on the wire
  // ------------------------------------------------------------------------

  lemma KnownFrame(decode: Decoder)
    requires decode("{}") == Some(JDict([]))
    ensures Lines(Message(Some(42), "task.done", "{}")) == ["id: 42", "event: task.done", "data: {}", ""]
    ensures Parse(decode, ["id: 42", "event: task.done", "data: {}", ""]) ==
            Parsed([ServerEvent("task.done", JDict([]), Some(42))], Fresh, false)
  {
    var item := Message(Some(42), "task.done", "{}");
    assert Show(42) == Show(4) + ['2'] == "42";
    assert "id: " + "42" == "id: 42" && "event: " + "task.done" == "event: task.done" && "data: " + "{}" == "data: {}";
    ReadsItem(decode, [], item);
    assert [] + Read(decode, item) == Read(decode, item);
  }
}
