/** Event-name globs: the per-segment rule of the bus (athanore/events/names.py) and the
    rule the store spells in SQL (athanore/store/repos/events.py) select the same names. */
module Glob {

  // `fnmatchcase` without character classes, which the endpoint refuses.
  predicate Fnmatch(pattern: string, text: string)
    decreases |pattern| + |text|
  {
    if pattern == "" then text == ""
    else if pattern[0] == '*' then Fnmatch(pattern[1..], text) || (text != "" && Fnmatch(pattern, text[1..]))
    else text != "" && (pattern[0] == '?' || pattern[0] == text[0]) && Fnmatch(pattern[1..], text[1..])
  }

  // `split(".")`: always at least one segment.
  function Split(text: string): (segments: seq<string>)
    ensures |segments| >= 1
  {
    if text == "" then [""]
    else
      var rest := Split(text[1..]);
      if text[0] == '.' then [""] + rest else [[text[0]] + rest[0]] + rest[1..]
  }

  function Rejoined(segments: seq<string>): string
    requires segments != []
  {
    if |segments| == 1 then segments[0] else segments[0] + "." + Rejoined(segments[1..])
  }

  // The segments are the text between its dots, and one fewer than they are dots.
  lemma {:induction false} SplitIs(text: string)
    ensures Rejoined(Split(text)) == text && |Split(text)| == Dots(text) + 1
    ensures forall i | 0 <= i < |Split(text)| :: '.' !in Split(text)[i]
  {
    if text != "" {
      SplitIs(text[1..]);
      var rest := Split(text[1..]);
      if text[0] == '.' {
        assert ([""] + rest)[1..] == rest;
        assert "" + "." + text[1..] == text;
      } else {
        var head := [text[0]] + rest[0];
        assert ([head] + rest[1..])[1..] == rest[1..];
        assert |rest| > 1 ==> head + "." + Rejoined(rest[1..]) == [text[0]] + Rejoined(rest);
        assert [text[0]] + text[1..] == text;
      }
    }
  }

  function Dots(text: string): nat {
    if text == "" then 0 else (if text[0] == '.' then 1 else 0) + Dots(text[1..])
  }

  predicate Segmentwise(patterns: seq<string>, names: seq<string>) {
    |patterns| == |names| && forall i | 0 <= i < |names| :: Fnmatch(patterns[i], names[i])
  }

  // The bus: as many segments, each matched on its own.
  predicate Matches(pattern: string, name: string) {
    Segmentwise(Split(pattern), Split(name))
  }

  // The store: a match that may cross dots, and as many dots.
  predicate Selects(pattern: string, name: string) {
    Fnmatch(pattern, name) && Dots(name) == Dots(pattern)
  }

  // No wildcard takes a dot.
  predicate Strict(pattern: string, text: string)
    decreases |pattern| + |text|
  {
    if pattern == "" then text == ""
    else if pattern[0] == '*' then
        Strict(pattern[1..], text) || (text != "" && text[0] != '.' && Strict(pattern, text[1..]))
    else
      && text != "" && (if pattern[0] == '?' then text[0] != '.' else pattern[0] == text[0])
      && Strict(pattern[1..], text[1..])
  }

  lemma {:induction false} MatchKeepsDots(pattern: string, text: string)
    requires Fnmatch(pattern, text)
    ensures Dots(text) >= Dots(pattern)
    decreases |pattern| + |text|
  {
    if pattern != "" {
      if pattern[0] != '*' {
        MatchKeepsDots(pattern[1..], text[1..]);
      } else if Fnmatch(pattern[1..], text) {
        MatchKeepsDots(pattern[1..], text);
      } else {
        MatchKeepsDots(pattern, text[1..]);
      }
    }
  }

  // Each dot of the pattern takes one of the name, so with as many dots none is left for a
  // wildcard.
  lemma {:induction false} StrictIsSelects(pattern: string, text: string)
    ensures Strict(pattern, text) <==> Selects(pattern, text)
    decreases |pattern| + |text|
  {
    if pattern != "" {
      StrictIsSelects(pattern[1..], text);
      if text != "" {
        StrictIsSelects(pattern, text[1..]);
        StrictIsSelects(pattern[1..], text[1..]);
        if Fnmatch(pattern, text[1..]) {
          MatchKeepsDots(pattern, text[1..]);
        }
        if Fnmatch(pattern[1..], text[1..]) {
          MatchKeepsDots(pattern[1..], text[1..]);
        }
      }
    }
  }

  // Matching segment by segment, from the first on.
  lemma SegmentwiseHead(patterns: seq<string>, names: seq<string>)
    requires patterns != [] && names != []
    ensures Segmentwise(patterns, names) <==> Fnmatch(patterns[0], names[0]) && Segmentwise(patterns[1..], names[1..])
  {
    if Fnmatch(patterns[0], names[0]) && Segmentwise(patterns[1..], names[1..]) {
      forall i | 0 <= i < |names| ensures Fnmatch(patterns[i], names[i]) {
        assert i > 0 ==> Fnmatch(patterns[1..][i - 1], names[1..][i - 1]);
      }
    }
    if Segmentwise(patterns, names) {
      forall i | 0 <= i < |names[1..]| ensures Fnmatch(patterns[1..][i], names[1..][i]) {
        assert Fnmatch(patterns[i + 1], names[i + 1]);
      }
    }
  }

  lemma {:induction false} StrictIsMatches(pattern: string, text: string)
    ensures Strict(pattern, text) <==> Segmentwise(Split(pattern), Split(text))
    decreases |pattern| + |text|
  {
    SegmentwiseHead(Split(pattern), Split(text));
    if pattern != "" {
      SegmentwiseHead(Split(pattern[1..]), Split(text));
      StrictIsMatches(pattern[1..], text);
      if text != "" {
        SegmentwiseHead(Split(pattern), Split(text[1..]));
        SegmentwiseHead(Split(pattern[1..]), Split(text[1..]));
        StrictIsMatches(pattern, text[1..]);
        StrictIsMatches(pattern[1..], text[1..]);
        StrictCase(pattern, text);
      } else {
        EmptyCase(pattern);
      }
    }
  }

  lemma EmptyCase(pattern: string)
    requires pattern != ""
    requires Strict(pattern[1..], "") <==> Segmentwise(Split(pattern[1..]), Split(""))
    ensures Strict(pattern, "") <==> Segmentwise(Split(pattern), Split(""))
  {
    SegmentwiseHead(Split(pattern), Split(""));
    SegmentwiseHead(Split(pattern[1..]), Split(""));
    var head := Split(pattern)[0];
    assert pattern[0] != '.' ==> head[0] == pattern[0] && head[1..] == Split(pattern[1..])[0];
    assert pattern[0] != '.' ==> Split(pattern)[1..] == Split(pattern[1..])[1..];
  }

  lemma StrictCase(pattern: string, text: string)
    requires pattern != "" && text != ""
    requires Strict(pattern[1..], text) <==> Segmentwise(Split(pattern[1..]), Split(text))
    requires Strict(pattern, text[1..]) <==> Segmentwise(Split(pattern), Split(text[1..]))
    requires Strict(pattern[1..], text[1..]) <==> Segmentwise(Split(pattern[1..]), Split(text[1..]))
    ensures Strict(pattern, text) <==> Segmentwise(Split(pattern), Split(text))
  {
    hide Segmentwise;
    var p, t, p', t' := Split(pattern), Split(text), Split(pattern[1..]), Split(text[1..]);
    SegmentwiseHead(p, t);
    SegmentwiseHead(p', t);
    SegmentwiseHead(p, t');
    SegmentwiseHead(p', t');
    assert pattern[0] != '.' ==> p[0][0] == pattern[0] && p[0][1..] == p'[0] && p[1..] == p'[1..];
    assert pattern[0] == '.' ==> p[0] == "" && p[1..] == p';
    assert text[0] != '.' ==> t[0][0] == text[0] && t[0][1..] == t'[0] && t[1..] == t'[1..];
    assert text[0] == '.' ==> t[0] == "" && t[1..] == t';
  }

  // The filtered replay and the filtered live stream agree on every name.
  lemma FiltersAgree(pattern: string, name: string)
    ensures Matches(pattern, name) <==> Selects(pattern, name)
  {
    StrictIsMatches(pattern, name);
    StrictIsSelects(pattern, name);
  }

  // ------------------------------------------------------------------------
  // The LIKE spelling
  // ------------------------------------------------------------------------

  function LikePattern(pattern: string): string {
    if pattern == "" then ""
    else
      var rest := LikePattern(pattern[1..]);
      if pattern[0] == '*' then ['%'] + rest
      else if pattern[0] == '?' then ['_'] + rest
      else if pattern[0] in {'%', '_', '\\'} then ['\\', pattern[0]] + rest
      else [pattern[0]] + rest
  }

  // `LIKE … ESCAPE '\'`.
  predicate Like(pattern: string, text: string)
    decreases |pattern| + |text|
  {
    if pattern == "" then text == ""
    else if pattern[0] == '%' then Like(pattern[1..], text) || (text != "" && Like(pattern, text[1..]))
    else if pattern[0] == '\\' && |pattern| > 1 then
        text != "" && pattern[1] == text[0] && Like(pattern[2..], text[1..])
    else text != "" && (pattern[0] == '_' || pattern[0] == text[0]) && Like(pattern[1..], text[1..])
  }

  // PostgreSQL's LIKE of the translation is SQLite's GLOB of the pattern.
  lemma {:induction false} LikeIsGlob(pattern: string, text: string)
    ensures Like(LikePattern(pattern), text) <==> Fnmatch(pattern, text)
    decreases |pattern| + |text|
  {
    if pattern != "" {
      var like, rest := LikePattern(pattern), LikePattern(pattern[1..]);
      assert pattern[0] in {'%', '_', '\\'} ==> like[2..] == rest;
      assert pattern[0] !in {'%', '_', '\\'} ==> like[1..] == rest;
      LikeIsGlob(pattern[1..], text);
      if text != "" {
        LikeIsGlob(pattern, text[1..]);
        LikeIsGlob(pattern[1..], text[1..]);
      }
    }
  }
}
