/** Reading a whole history page by page (athanore/cli/inspect.py), while it grows. */
module Paging {
  import opened Base
  import opened Bus
  import opened Feed
  import Follow

  // One page: the first events of the run after a cursor, at most `page` of them.
  function Page(history: seq<Event>, run: string, after: nat, page: nat): seq<Event> {
    Take(Keep(Filter(None, Some(run), after), history), page)
  }

  function AllOf(run: string, after: nat): Config {
    Config(None, Some(run), after, 0, 0)
  }

  // What was read of a history, and then a page of a longer one, is what would have been
  // read of the longer one.
  lemma PageContinues(run: string, after: nat, history: seq<Event>, longer: seq<Event>, got: seq<Event>, page: nat)
    requires Ascending(longer) && history <= longer && got <= Keep(Filter(None, Some(run), after), history)
    ensures got + Page(longer, run, Mark(after, got), page) <= Keep(Filter(None, Some(run), after), longer)
    ensures |Page(longer, run, Mark(after, got), page)| < page ==>
              got + Page(longer, run, Mark(after, got), page) == Keep(Filter(None, Some(run), after), longer)
  {
    hide Keep, Mark;
    assert longer[..|history|] == history;
    KeepPrefix(Filter(None, Some(run), after), longer, |history|);
    Follow.ResumeGivesRest(AllOf(run, after), longer, got);
  }

  lemma MarkMoves(after: nat, got: seq<Event>, more: seq<Event>)
    requires more != [] && forall i | 0 <= i < |more| :: more[i].id.Some?
    ensures Mark(after, got + more) == more[|more| - 1].id.value
  {
  }

  /** Every stored event of the run after the cursor, once and in order, as of the last page
      read, however the history grew between the pages: page i is read of history i, and every
      page but the last is full. */
  method AllEvents(
    histories: nat -> seq<Event>, run: string, after: nat, page: nat, bound: nat) returns (got: seq<Event>, pages: nat)
    requires page > 0
    requires forall i: nat :: Ascending(histories(i)) && histories(i) <= histories(i + 1) && |histories(i)| <= bound
    ensures pages > 0 && got == Keep(Filter(None, Some(run), after), histories(pages - 1))
    ensures (pages - 1) * page <= |got| < pages * page
  {
    hide Keep, Page, Mark, Ascending;
    got, pages := [], 0;
    var cursor := after;
    EmptyMark(after);
    while true
      invariant cursor == Mark(after, got)
      invariant got <= Keep(Filter(None, Some(run), after), histories(if pages == 0 then 0 else pages - 1))
      invariant |got| == pages * page
      decreases bound + 1 - pages * page
    {
      var rows := Page(histories(pages), run, cursor, page);
      ghost var before := histories(if pages == 0 then 0 else pages - 1);
      assert before <= histories(pages) by {
        assert pages > 0 ==> histories(pages - 1) <= histories(pages - 1 + 1);
      }
      PageContinues(run, after, before, histories(pages), got, page);
      PageRows(histories(pages), run, cursor, page);
      got := got + rows;
      pages := pages + 1;
      assert pages * page == (pages - 1) * page + page;
      if |rows| < page {
        return;
      }
      // Ids ascend, so a full page moves the cursor: the guard against one that does not is
      // never taken.
      MarkMoves(after, got[..|got| - |rows|], rows);
      cursor := rows[|rows| - 1].id.value;
      KeptAtMost(Filter(None, Some(run), after), histories(pages - 1));
    }
  }

  lemma EmptyMark(after: nat)
    ensures Mark(after, []) == after
  {
  }

  lemma PageRows(history: seq<Event>, run: string, after: nat, page: nat)
    ensures |Page(history, run, after, page)| <= page
    ensures forall i | 0 <= i < |Page(history, run, after, page)| :: Page(history, run, after, page)[i].id.Some?
  {
    var kept := Keep(Filter(None, Some(run), after), history);
    assert forall i | 0 <= i < |kept| :: kept[i].id.Some?;
  }

  lemma {:induction false} KeptAtMost(f: Feed.Filter, events: seq<Event>)
    ensures |Keep(f, events)| <= |events|
  {
    if events != [] {
      KeptAtMost(f, events[..|events| - 1]);
    }
  }
}
