/**
 Errors are never lost either: failures, each of which is on show, hold exactly the failed items that are no work of a
 tool.
 */
module TranscriptFailures {
  import opened ConversationItems
  import opened Transcript
  import opened TranscriptConservation
  import opened TranscriptFailureRows

  predicate FailsRun(item: Item) {
    RunFailed(item) && !StatusOf(item, ContextCompacted) && !Interjects(item)
  }

  function FailedAmong(items: seq<Item>): seq<Item> {
    if items == [] then []
    else FailedAmong(items[..|items| - 1]) + if RunFailed(items[|items| - 1]) then [items[|items| - 1]] else []
  }

  function RunFailures(log: seq<Item>): seq<Item> {
    if log == [] then []
    else RunFailures(log[..|log| - 1]) + if FailsRun(log[|log| - 1]) then [log[|log| - 1]] else []
  }

  lemma PlacedFailures(d: Draft, x: Item, phases: Phases, texts: set<string>)
    ensures FailureItems(Place(d, x, phases, texts).failures) ==
            FailureItems(d.failures) + if RunFailed(x) then multiset{x} else multiset{}
  {
    if RunFailed(x) {
      PlaceFailureItems(d, x);
    } else {
      CompletedFailures(d, x);
    }
    hide FailureItems, RunFailed, LateMarker, PlaceFailure, AddToLast, Answers, Completed, AnswerOf, Background;
  }

  lemma CompletedFailures(d: Draft, x: Item)
    ensures FailureItems(Completed(d, x).failures) == FailureItems(d.failures)
  {
    if d.failures != [] {
      LastFailureItems(d.failures, d.failures[|d.failures| - 1].(completed := true));
    }
  }

  lemma FailedNext(turn: seq<Item>, k: nat)
    requires 0 < k <= |turn|
    ensures multiset(FailedAmong(turn[..k])) ==
            multiset(FailedAmong(turn[..k - 1])) + if RunFailed(turn[k - 1]) then multiset{turn[k - 1]} else multiset{}
  {
    hide RunFailed;
    assert turn[..k][..k - 1] == turn[..k - 1];
  }

  lemma FailuresNext(turn: seq<Item>, k: nat, failures: seq<Failure>, failing: bool)
    requires 0 < k <= |turn|
    ensures FailureItems(DraftAt(turn, k, failures, failing).failures) ==
            FailureItems(DraftAt(turn, k - 1, failures, failing).failures) + if RunFailed(turn[k - 1]) then
              multiset{turn[k - 1]} else multiset{}
  {
    hide Place, FailureItems, RunFailed, PhasesOf, TextsOf;
    PlacedFailures(DraftAt(turn, k - 1, failures, failing), turn[k - 1], PhasesOf(turn), TextsOf(turn, PhasesOf(turn)));
  }

  lemma {:induction false} DraftFailures(turn: seq<Item>, k: nat, failures: seq<Failure>, failing: bool)
    requires k <= |turn|
    ensures FailureItems(DraftAt(turn, k, failures, failing).failures) == FailureItems(failures)
            + multiset(FailedAmong(turn[..k]))
  {
    hide *;
    if k == 0 {
      DraftStart(turn, failures, failing);
      NoneFailed(turn[..0]);
    } else {
      DraftFailures(turn, k - 1, failures, failing);
      FailuresNext(turn, k, failures, failing);
      FailedNext(turn, k);
      Regroup(FailureItems(failures), multiset(FailedAmong(turn[..k - 1])),
              if RunFailed(turn[k - 1]) then multiset{turn[k - 1]} else multiset{});
    }
  }

  lemma NoneFailed(items: seq<Item>)
    requires items == []
    ensures FailedAmong(items) == []
  {
  }

  /** What the failures will hold once the turn is flushed. */
  function Expected(p: Projection): multiset<Item> {
    FailureItems(p.failures) + multiset(FailedAmong(p.turn))
  }

  lemma FlushExpected(p: Projection, active: bool)
    ensures Expected(Flush(p, active)) == Expected(p)
  {
    DraftFailures(p.turn, |p.turn|, p.failures, p.failing);
    assert p.turn[..|p.turn|] == p.turn;
    hide DraftAt, TurnRows, FailureItems;
  }

  lemma HistoricalExpected(p: Projection)
    ensures Expected(Historical(p)) == Expected(p)
  {
    if p.failing && p.failures != [] {
      LastFailureItems(p.failures, p.failures[|p.failures| - 1].(previous := true));
    }
  }

  lemma CollectExpected(p: Projection, x: Item)
    ensures Expected(p.(turn := p.turn + [x])) == Expected(p) + if RunFailed(x) then multiset{x} else multiset{}
  {
    hide FailureItems, RunFailed;
    assert (p.turn + [x])[..|p.turn|] == p.turn;
  }

  lemma ShownExpected(p: Projection, x: Item)
    ensures Expected(p.(rows := p.rows + [Message(x.key, x)])) == Expected(p)
  {
  }

  lemma ReceiveExpected(p: Projection, x: Item)
    ensures Expected(Receive(p, x)) == Expected(p) + if FailsRun(x) then multiset{x} else multiset{}
  {
    FlushExpected(p, false);
    FlushedTurn(p);
    HistoricalExpected(Flush(p, false));
    hide Flush, RunFailed, Historical, FailureItems, FailedAmong, Expected, StatusOf, Boundary, Interjects;
    if StatusOf(x, ContextCompacted) {
    } else if Boundary(x) {
      BoundaryReceived(p, x);
      CollectExpected(Historical(Flush(p, false)), x);
      ShownExpected(Historical(Flush(p, false)), x);
    } else if Interjects(x) {
      ShownExpected(Flush(p, false), x);
    } else {
      CollectExpected(p, x);
      FlushExpected(p.(turn := p.turn + [x]), false);
    }
  }

  lemma {:induction false} ReceivedExpected(log: seq<Item>)
    ensures Expected(Received(log)) == multiset(RunFailures(log))
  {
    if log != [] {
      hide Receive, FailsRun, Expected;
      ReceivedExpected(log[..|log| - 1]);
      ReceiveExpected(Received(log[..|log| - 1]), log[|log| - 1]);
    }
  }

  /**
   The failures of a transcript hold the run's failed items: all of them, and nothing else. Each of them is marked by
   one row, so that every such item is on screen.
   */
  lemma FailuresAreKept(log: seq<Item>, live: bool)
    ensures var shown := Present(log, live);
            && FailureItems(shown.failures) == multiset(RunFailures(log))
            && FailureRows(shown.rows) == TableRows(shown.failures, 0)
  {
    FailuresAreShown(log, live);
    ReceivedExpected(log);
    FlushExpected(Received(log), live);
    FlushEmpties(Received(log), live);
    hide Flush, Received, FailureItems, FailureRows, TableRows;
  }
}
