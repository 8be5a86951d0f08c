/** What the parser makes of any block of lines, however its fields are written, and of a text of
    several lines (athanore/cli/client.py). */
module SseFields {
  import opened Base
  import opened Json
  import opened SseText

  // ------------------------------------------------------------------------
  // A block of fields
  // ------------------------------------------------------------------------

  // The line gives the field this value: after a colon and a space, after the colon alone, or
  // with no colon at all. Every line that is neither blank nor a comment gives one field.
  predicate Gives(line: string, field: string, value: string) {
    && field != "" && ':' !in field
    && (line == field + ":" + (" " + value)
        || (line == field + ":" + value && (value == "" || value[0] != ' '))
        || (line == field && value == ""))
  }

  predicate Writes(lines: seq<string>, fields: seq<(string, string)>) {
    |lines| == |fields| && forall i | 0 <= i < |lines| :: Gives(lines[i], fields[i].0, fields[i].1)
  }

  lemma {:induction false} NoColon(line: string)
    requires ':' !in line
    ensures Field(line) == line && Rest(line) == ""
  {
    if line != "" {
      NoColon(line[1..]);
    }
  }

  lemma GivesIs(line: string, field: string, value: string)
    requires Gives(line, field, value)
    ensures Field(line) == field && Unspaced(Rest(line)) == value && line != "" && line[0] != ':'
  {
    hide Field, Rest;
    if line == field && value == "" {
      NoColon(line);
    } else if line == field + ":" + (" " + value) {
      FieldOf(field, " " + value);
      assert line[0] == field[0];
    } else {
      FieldOf(field, value);
      assert line[0] == field[0];
    }
  }

  lemma {:induction false} EveryLineGives(line: string) returns (field: string, value: string)
    requires line != "" && line[0] != ':'
    ensures Gives(line, field, value)
  {
    field, value := Field(line), Unspaced(Rest(line));
    Partition(line);
  }

  lemma {:induction false} Partition(line: string)
    ensures ':' !in Field(line) && (line == Field(line) + ":" + Rest(line) || (line == Field(line) && Rest(line) == ""))
  {
    if line != "" && line[0] != ':' {
      Partition(line[1..]);
      assert [line[0]] + line[1..] == line;
    }
  }

  // The values given for one name, in order.
  function Values(fields: seq<(string, string)>, name: string): seq<string> {
    if fields == [] then []
    else
      var last := fields[|fields| - 1];
      Values(fields[..|fields| - 1], name) + (if last.0 == name then [last.1] else [])
  }

  predicate IdsRead(fields: seq<(string, string)>) {
    forall i | 0 <= i < |fields| && fields[i].0 == "id" :: ParseInt(fields[i].1).Some?
  }

  // What a block leaves in the buffer: the last name, all data, the last id.
  function Held(fields: seq<(string, string)>): Buffer {
    var names, ids := Values(fields, "event"), Values(fields, "id");
    Buffer(if names == [] then None else Some(names[|names| - 1]), Values(fields, "data"),
      if ids == [] then None else ParseInt(ids[|ids| - 1]))
  }

  lemma {:induction false} BlockHolds(
    decode: Decoder, events: seq<ServerEvent>, lines: seq<string>, fields: seq<(string, string)>)
    requires Writes(lines, fields) && IdsRead(fields)
    ensures ParseFrom(decode, Parsed(events, Fresh, false), lines) == Parsed(events, Held(fields), false)
    decreases |lines|
  {
    hide ParseFrom, Line, ParseInt, Gives;
    if fields == [] {
      ParseNothing(decode, Parsed(events, Fresh, false));
    } else {
      var front, last := fields[..|fields| - 1], fields[|fields| - 1];
      var before, line := lines[..|lines| - 1], lines[|lines| - 1];
      BlockHolds(decode, events, before, front);
      assert lines == before + [line] && [line] == [line] + [];
      ParseConcat(decode, Parsed(events, Fresh, false), before, [line]);
      ParseOne(decode, Parsed(events, Held(front), false), line, []);
      ParseNothing(decode, Line(decode, Parsed(events, Held(front), false), line));
      OneField(decode, events, front, last, line);
    }
  }

  lemma OneField(
    decode: Decoder, events: seq<ServerEvent>, front: seq<(string, string)>, last: (string, string), line: string)
    requires Gives(line, last.0, last.1) && (last.0 == "id" ==> ParseInt(last.1).Some?)
    ensures Line(decode, Parsed(events, Held(front), false), line) == Parsed(events, Held(front + [last]), false)
  {
    hide Field, Rest, ParseInt, Dispatch, Unspaced, Gives;
    GivesIs(line, last.0, last.1);
    assert (front + [last])[..|front|] == front;
    NamesDiffer();
  }

  lemma NamesDiffer()
    ensures "id" != "event" && "id" != "data" && "event" != "data"
  {
    assert "id"[0] == 'i' && "event"[0] == 'e' && "data"[0] == 'd';
  }

  // A block of any fields in any order, and its blank line: with no name and no data it is
  // nothing. Otherwise it is one event, of the last name or `message`, with the data lines
  // joined and the last id; or refused, when that is not JSON. Other fields do nothing.
  lemma BlockReads(
    decode: Decoder, events: seq<ServerEvent>, lines: seq<string>, fields: seq<(string, string)>)
    requires Writes(lines, fields) && IdsRead(fields)
    ensures var names, data, ids := Values(fields, "event"), Values(fields, "data"), Values(fields, "id");
            var p := ParseFrom(decode, Parsed(events, Fresh, false), lines + [""]);
            if names == [] && data == [] then p == Parsed(events, Fresh, false)
            else if decode(Joined(data)).None? then p.refused && p.events == events
            else
              && p.events == events + [ServerEvent(
                     if names == [] || names[|names| - 1] == "" then "message" else names[|names| - 1],
                     decode(Joined(data)).value, if ids == [] then None else ParseInt(ids[|ids| - 1]))]
              && !p.refused && p.buffer == Buffer(None, [], None)
  {
    hide ParseFrom, ParseInt, Joined, Gives;
    BlockHolds(decode, events, lines, fields);
    ParseConcat(decode, Parsed(events, Fresh, false), lines, [""]);
    ParseBlank(decode, Parsed(events, Held(fields), false));
  }

  // An id that is not an integer refuses the stream there, whatever follows.
  lemma BadIdRefuses(decode: Decoder, events: seq<ServerEvent>, lines: seq<string>, fields: seq<(string, string)>,
                     line: string, id: string, rest: seq<string>)
    requires Writes(lines, fields) && IdsRead(fields) && Gives(line, "id", id) && ParseInt(id).None?
    ensures var p := ParseFrom(decode, Parsed(events, Fresh, false), lines + ([line] + rest));
            p.refused && p.events == events
  {
    hide ParseFrom, Line, ParseInt, Gives;
    var held := Parsed(events, Held(fields), false);
    BlockHolds(decode, events, lines, fields);
    ParseConcat(decode, Parsed(events, Fresh, false), lines, [line] + rest);
    ParseOne(decode, held, line, rest);
    BadId(decode, held, line, id);
    RefusedStays(decode, Line(decode, held, line), rest);
  }

  lemma BadId(decode: Decoder, p: Parsed, line: string, id: string)
    requires !p.refused && Gives(line, "id", id) && ParseInt(id).None?
    ensures Line(decode, p, line) == p.(refused := true)
  {
    hide Field, Rest, ParseInt, Unspaced, Dispatch, Gives;
    GivesIs(line, "id", id);
    NamesDiffer();
  }

  // ------------------------------------------------------------------------
  // A text of several lines
  // ------------------------------------------------------------------------

  function LinesOf(text: string): (lines: seq<string>)
    ensures |lines| >= 1
  {
    if text == "" then [""]
    else
      var rest := LinesOf(text[1..]);
      if text[0] == '\n' then [""] + rest else [[text[0]] + rest[0]] + rest[1..]
  }

  lemma {:induction false} JoinedAgain(text: string)
    ensures Joined(LinesOf(text)) == text && forall i | 0 <= i < |LinesOf(text)| :: '\n' !in LinesOf(text)[i]
  {
    if text != "" {
      JoinedAgain(text[1..]);
      var rest := LinesOf(text[1..]);
      if text[0] == '\n' {
        assert ([""] + rest)[1..] == rest;
        assert "" + "\n" + text[1..] == text;
      } else {
        var head := [text[0]] + rest[0];
        assert ([head] + rest[1..])[1..] == rest[1..];
        assert |rest| > 1 ==> head + "\n" + Joined(rest[1..]) == [text[0]] + Joined(rest);
        assert [text[0]] + text[1..] == text;
      }
    }
  }

  function DataFields(lines: seq<string>): seq<(string, string)> {
    seq(|lines|, i requires 0 <= i < |lines| => ("data", lines[i]))
  }

  lemma {:induction false} DataValues(lines: seq<string>)
    ensures Values(DataFields(lines), "data") == lines
    ensures Values(DataFields(lines), "event") == [] && Values(DataFields(lines), "id") == []
  {
    NamesDiffer();
    if lines != [] {
      var front := lines[..|lines| - 1];
      DataValues(front);
      assert DataFields(lines)[..|lines| - 1] == DataFields(front);
      assert front + [lines[|lines| - 1]] == lines;
    }
  }

  // Each line of it as one `data:` line.
  function DataLines(lines: seq<string>): seq<string> {
    seq(|lines|, i requires 0 <= i < |lines| => "data: " + lines[i])
  }

  lemma DataWrites(lines: seq<string>)
    ensures Writes(DataLines(lines), DataFields(lines)) && IdsRead(DataFields(lines))
  {
    hide ParseInt;
    NamesDiffer();
    forall i | 0 <= i < |lines| ensures Gives(DataLines(lines)[i], "data", lines[i]) {
      assert "data: " + lines[i] == "data" + ":" + (" " + lines[i]);
    }
  }

  // A text written a line at a time reads back as that text, line ends and all.
  lemma TextReads(decode: Decoder, text: string)
    requires decode(text).Some?
    ensures Parse(decode, DataLines(LinesOf(text)) + [""]).events ==
              [ServerEvent("message", decode(text).value, None)]
  {
    hide ParseFrom, Values, LinesOf, Joined, Writes, IdsRead, DataLines;
    var lines := LinesOf(text);
    JoinedAgain(text);
    DataValues(lines);
    DataWrites(lines);
    BlockReads(decode, [], DataLines(lines), DataFields(lines));
  }

  // ------------------------------------------------------------------------
  // Integers
  // ------------------------------------------------------------------------

  predicate Blank(pad: string) {
    forall i | 0 <= i < |pad| :: IsSpace(pad[i])
  }

  lemma {:induction false} TrimRight(text: string, after: string)
    requires text != "" && !IsSpace(text[0]) && !IsSpace(text[|text| - 1]) && Blank(after)
    ensures Trim(text + after) == text
    decreases |after|
  {
    if after == "" {
      assert text + after == text;
    } else {
      TrimRight(text, after[..|after| - 1]);
      assert (text + after)[..|text + after| - 1] == text + after[..|after| - 1];
    }
  }

  lemma {:induction false} TrimBoth(before: string, text: string, after: string)
    requires text != "" && !IsSpace(text[0]) && !IsSpace(text[|text| - 1]) && Blank(before) && Blank(after)
    ensures Trim(before + text + after) == text
    decreases |before|
  {
    if before == "" {
      assert before + text + after == text + after;
      TrimRight(text, after);
    } else {
      assert (before + text + after)[1..] == before[1..] + text + after;
      TrimBoth(before[1..], text, after);
    }
  }

  // `int` reads a number with its sign, and blanks around it.
  lemma IntReads(before: string, sign: string, n: nat, after: string)
    requires Blank(before) && Blank(after) && sign in {"", "+", "-"}
    ensures var v: int := n;
            ParseInt(before + (sign + Show(n)) + after) == Some(if sign == "-" then -v else v)
  {
    hide Trim, Show, Natural;
    ShowsDigits(n);
    var text := sign + Show(n);
    TrimBoth(before, text, after);
    if sign != "" {
      assert text[1..] == Show(n) && text[0] == sign[0];
    } else {
      assert text == Show(n);
    }
  }
}
