/** Which Activity is live, and which one previews the latest progress text. */
module TranscriptLive {
  import opened Wrappers
  import opened ConversationItems
  import opened Transcript
  import opened TranscriptDrafts
  import opened TranscriptMerge
  import opened TranscriptStability
  import opened TranscriptConservation
  import opened TranscriptKeys
  import opened TranscriptWork
  import opened ProjectionAnchors

  /** What has been collected since the last item that ended a turn, or began one. */
  function Unfinished(log: seq<Item>): seq<Item> {
    if log == [] then []
    else
      var x := log[|log| - 1];
      if StatusOf(x, ContextCompacted) || UserMessage(x) || Is(x, Question) || Is(x, ApprovalRequest)
         || Is(x, TurnResult) then []
      else if StatusOf(x, TurnStarted) then [x]
      else Unfinished(log[..|log| - 1]) + [x]
  }

  lemma UnfinishedNext(p: Projection, x: Item)
    ensures Receive(p, x).turn ==
            if StatusOf(x, ContextCompacted) || UserMessage(x) || Is(x, Question) || Is(x, ApprovalRequest)
               || Is(x, TurnResult) then []
            else if StatusOf(x, TurnStarted) then [x] else p.turn + [x]
  {
    TurnAfter(p, x);
    hide Receive;
  }

  lemma {:induction false} ReceivedUnfinished(log: seq<Item>)
    ensures Received(log).turn == Unfinished(log)
  {
    if log != [] {
      ReceivedUnfinished(log[..|log| - 1]);
      UnfinishedNext(Received(log[..|log| - 1]), log[|log| - 1]);
      hide Receive, StatusOf, UserMessage;
    }
  }

  // Finished turns.

  /** An Activity that is not live and previews nothing. */
  predicate Quiet(row: Row) {
    row.Activity? ==> !row.live && row.preview.None? && row.items != []
  }

  ghost predicate AllQuiet(rows: seq<Row>) {
    forall row <- rows :: Quiet(row)
  }

  /** The group of an Activity, and with it what the flags of the turn say. */
  lemma FlaggedOrigin(turn: seq<Item>, failures: seq<Failure>, failing: bool, active: bool, row: Row) returns (g: nat)
    requires row in TurnRows(turn, failures, failing, active) && row.Activity?
    ensures RowOfGroup(turn, failures, failing, row, g)
    ensures var flags := FlagsOf(turn, failures, failing,
              KeptOf(DraftOf(turn, failures, failing).groups, PhasesOf(turn)), active);
            && row.live == (flags.live == Some(g))
            && row.preview == if flags.previewed == Some(g) then Some(flags.preview) else None
  {
    var d := DraftOf(turn, failures, failing);
    var keep := KeptOf(d.groups, PhasesOf(turn));
    var settled, flags := Settled(d.groups, keep), FlagsOf(turn, failures, failing, keep, active);
    hide DraftOf, MergeFrom, FlagsOf, KeptOf, PhasesOf;
    RowOrigin(d.slots, settled, keep, flags, row);
    var slot :| slot in d.slots && RowOf(slot, settled, keep, flags) == Some(row);
    g := slot.group;
  }

  lemma GroupRowsHold(turn: seq<Item>, failures: seq<Failure>, failing: bool, row: Row, g: nat)
    requires RowOfGroup(turn, failures, failing, row, g)
    ensures row.items != []
  {
    var groups := DraftOf(turn, failures, failing).groups;
    var w := KeptHasWork(groups[g], PhasesOf(turn));
    hide DraftOf, PhasesOf, Kept, MergeFrom;
    assert PlacedIn(turn, failures, failing, g, g, w);
    PlacedIsShown(turn, failures, failing, row, g, g, w);
  }

  lemma FinishedTurnIsQuiet(turn: seq<Item>, failures: seq<Failure>, failing: bool)
    ensures AllQuiet(TurnRows(turn, failures, failing, false))
  {
    hide TurnRows, RowOfGroup, DraftOf, KeptOf, PhasesOf;
    forall row | row in TurnRows(turn, failures, failing, false) ensures Quiet(row) {
      if row.Activity? {
        var g := FlaggedOrigin(turn, failures, failing, false, row);
        GroupRowsHold(turn, failures, failing, row, g);
      }
    }
  }

  lemma FlushQuiet(p: Projection)
    requires AllQuiet(p.rows)
    ensures AllQuiet(Flush(p, false).rows)
  {
    FinishedTurnIsQuiet(p.turn, p.failures, p.failing);
    hide TurnRows, DraftOf, Quiet;
  }

  lemma MessageQuiet(rows: seq<Row>, row: Row)
    requires AllQuiet(rows) && row.Message?
    ensures AllQuiet(rows + [row])
  {
  }

  lemma ReceiveQuiet(p: Projection, x: Item)
    requires AllQuiet(p.rows)
    ensures AllQuiet(Receive(p, x).rows)
  {
    var ended := Historical(Flush(p, false));
    hide Flush, AllQuiet, StatusOf, Boundary, Interjects, Is;
    FlushQuiet(p);
    FlushedTurn(p);
    FlushQuiet(p.(turn := p.turn + [x]));
    FlushQuiet(ended.(turn := ended.turn + [x]));
    MessageQuiet(Flush(p, false).rows, Message(x.key, x));
  }

  lemma {:induction false} ReceivedQuiet(log: seq<Item>)
    ensures AllQuiet(Received(log).rows)
  {
    hide Receive, Quiet;
    if log != [] {
      ReceivedQuiet(log[..|log| - 1]);
      ReceiveQuiet(Received(log[..|log| - 1]), log[|log| - 1]);
    }
  }

  /** What is on show of finished turns is no longer collected. */
  lemma ShownIsCollected(log: seq<Item>, row: Row, x: Item)
    requires Ascending(log) && row in Received(log).rows && row.Activity? && x in row.items
    ensures x !in Received(log).turn
  {
    var p := Received(log);
    hide Received, RowItems, FailureItems, LostOfTurns, CompactionMarkers, Ascending;
    ReceivedHolds(log);
    AscendingIsDistinct(log, x);
    RowHolds(p.rows, row);
    OneOfTwo(multiset(log), RowItems(p.rows), FailureItems(p.failures), multiset(p.turn),
             multiset(CompactionMarkers(log)) + LostOfTurns(EndedTurns(log)), row.items, x);
  }

  lemma OneOfTwo(all: multiset<Item>, rows: multiset<Item>, failures: multiset<Item>, turn: multiset<Item>,
                 rest: multiset<Item>, items: seq<Item>, x: Item)
    requires all == rows + failures + turn + rest && all[x] <= 1 && multiset(items) <= rows && x in items
    ensures x !in turn
  {
    assert x in multiset(items);
  }

  // The last Activity of the turn.

  lemma {:induction false} LiveIsLast(slots: seq<Slot>, groups: seq<Group>, keep: seq<bool>, flags: Flags, i: nat,
      j: nat)
    requires |keep| == |groups| && SlotsAscend(slots) && flags.live == LastKept(keep, |keep|)
    requires i < j < |RowsOf(slots, groups, keep, flags)|
    requires RowsOf(slots, groups, keep, flags)[i].Activity? && RowsOf(slots, groups, keep, flags)[j].Activity?
    ensures !RowsOf(slots, groups, keep, flags)[i].live
  {
    var n := |slots| - 1;
    var shorter := RowsOf(slots[..n], groups, keep, flags);
    hide RowOf;
    if j < |shorter| {
      LiveIsLast(slots[..n], groups, keep, flags, i, j);
    } else {
      RowOrigin(slots[..n], groups, keep, flags, shorter[i]);
      var slot :| slot in slots[..n] && RowOf(slot, groups, keep, flags) == Some(shorter[i]);
      var s :| 0 <= s < n && slots[s] == slot;
      LastKeptFacts(keep, |keep|);
      hide LastKept, RowsOf;
      EarlierIsNotLive(slots[s], slots[n], groups, keep, flags);
    }
  }

  lemma EarlierIsNotLive(a: Slot, b: Slot, groups: seq<Group>, keep: seq<bool>, flags: Flags)
    requires |keep| == |groups| && SlotBefore(a, b) && flags.live == LastKept(keep, |keep|)
    requires RowOf(a, groups, keep, flags).Some? && RowOf(a, groups, keep, flags).value.Activity?
    requires RowOf(b, groups, keep, flags).Some? && RowOf(b, groups, keep, flags).value.Activity?
    ensures !RowOf(a, groups, keep, flags).value.live
  {
    LastKeptFacts(keep, |keep|);
    hide LastKept;
  }

  lemma TurnLiveIsLast(turn: seq<Item>, failures: seq<Failure>, failing: bool, i: nat, j: nat)
    requires Ascending(turn)
    requires var rows := TurnRows(turn, failures, failing, true);
             i < j < |rows| && rows[i].Activity? && rows[j].Activity?
    ensures !TurnRows(turn, failures, failing, true)[i].live
  {
    var d := DraftOf(turn, failures, failing);
    var keep := KeptOf(d.groups, PhasesOf(turn));
    if turn != [] {
      DraftMakes(turn, |turn|, failures, failing);
      hide DraftAt, KeptOf, Settled, PhasesOf, LatestProgress, RowsOf, SlotsAscend;
      var flags := FlagsOf(turn, failures, failing, keep, true);
      LiveIsLast(d.slots, Settled(d.groups, keep), keep, flags, i, j);
    }
  }

  /** A turn that shows an Activity has a live one while it is unfinished. */
  lemma SomeIsLive(turn: seq<Item>, failures: seq<Failure>, failing: bool, row: Row) returns (live: Row)
    requires row in TurnRows(turn, failures, failing, true) && row.Activity?
    ensures live in TurnRows(turn, failures, failing, true) && live.Activity? && live.live
  {
    var d := DraftOf(turn, failures, failing);
    var keep := KeptOf(d.groups, PhasesOf(turn));
    var settled, flags := Settled(d.groups, keep), FlagsOf(turn, failures, failing, keep, true);
    var g := FlaggedOrigin(turn, failures, failing, true, row);
    LastKeptFacts(keep, |keep|);
    DraftRefers(turn, |turn|, failures, failing);
    hide DraftAt, Settled, PhasesOf, RefersTo, Kept, KeptOf, LastKept, LatestProgress, RowsOf;
    var last := flags.live.value;
    SlotForGroup(d.slots, |d.groups|, last);
    RowForSlot(d.slots, GroupSlot(last), settled, keep, flags);
    live := RowOf(GroupSlot(last), settled, keep, flags).value;
  }

  /** While a turn is unfinished its last Activity is live, and no other. */
  lemma LiveIffLast(turn: seq<Item>, failures: seq<Failure>, failing: bool, i: nat)
    requires Ascending(turn)
    requires var rows := TurnRows(turn, failures, failing, true); i < |rows| && rows[i].Activity?
    ensures var rows := TurnRows(turn, failures, failing, true);
            rows[i].live <==> forall j | i < j < |rows| :: !rows[j].Activity?
  {
    var rows := TurnRows(turn, failures, failing, true);
    hide TurnRows;
    if j :| i < j < |rows| && rows[j].Activity? {
      TurnLiveIsLast(turn, failures, failing, i, j);
    } else if !rows[i].live {
      var live := SomeIsLive(turn, failures, failing, rows[i]);
      var k :| 0 <= k < |rows| && rows[k] == live;
      TurnLiveIsLast(turn, failures, failing, k, i);
      assert false;
    }
  }

  // The latest progress text.

  /** The last text of the turn that is classified as progress. */
  ghost predicate LatestText(turn: seq<Item>, x: Item) {
    && x in turn && PhaseOf(x, PhasesOf(turn)) == Some(Progress)
    && forall y <- turn :: PhaseOf(y, PhasesOf(turn)) == Some(Progress) ==> y.key <= x.key
  }

  lemma {:induction false} LatestIsLast(turn: seq<Item>, phases: Phases, k: nat)
    requires k <= |turn|
    ensures forall i | LatestProgress(turn, phases, k) <= i < k :: !InProgressText(turn[i], phases)
  {
    hide InProgressText;
    if k > 0 && !InProgressText(turn[k - 1], phases) {
      LatestIsLast(turn, phases, k - 1);
    }
  }

  lemma LastIsLatest(turn: seq<Item>)
    requires Ascending(turn) && LatestProgress(turn, PhasesOf(turn), |turn|) > 0
    ensures LatestText(turn, turn[LatestProgress(turn, PhasesOf(turn), |turn|) - 1])
  {
    var phases := PhasesOf(turn);
    var n := LatestProgress(turn, phases, |turn|);
    hide LatestProgress, PhasesOf, Ascending, PhaseOf;
    LatestIsLast(turn, phases, |turn|);
    ProgressBelow(turn, phases, n);
    assert turn[n - 1] in turn;
  }

  lemma LatestIsThere(turn: seq<Item>, x: Item)
    requires Ascending(turn) && LatestText(turn, x)
    ensures var n := LatestProgress(turn, PhasesOf(turn), |turn|); n > 0 && x == turn[n - 1]
  {
    var phases := PhasesOf(turn);
    var n := LatestProgress(turn, phases, |turn|);
    hide LatestProgress, PhasesOf, Ascending, PhaseOf;
    LatestIsLast(turn, phases, |turn|);
    var i := PositionOf(turn, x);
    assert InProgressText(turn[i], phases) && i < n && turn[n - 1] in turn;
    KeysOrder(turn, i, n - 1);
  }

  lemma LatestTextIs(turn: seq<Item>, x: Item)
    requires Ascending(turn)
    ensures var n := LatestProgress(turn, PhasesOf(turn), |turn|);
            LatestText(turn, x) <==> n > 0 && x == turn[n - 1]
  {
    hide LatestProgress, PhasesOf, Ascending, LatestText;
    if LatestProgress(turn, PhasesOf(turn), |turn|) > 0 {
      LastIsLatest(turn);
    }
    if LatestText(turn, x) {
      LatestIsThere(turn, x);
    }
  }

  lemma PositionOf(turn: seq<Item>, x: Item) returns (i: nat)
    requires x in turn
    ensures i < |turn| && turn[i] == x
  {
    i :| 0 <= i < |turn| && turn[i] == x;
  }

  lemma KeysOrder(turn: seq<Item>, i: nat, j: nat)
    requires Ascending(turn) && i <= j < |turn|
    ensures turn[i].key <= turn[j].key && (turn[i].key == turn[j].key ==> i == j)
  {
  }

  lemma ProgressBelow(turn: seq<Item>, phases: Phases, n: nat)
    requires Ascending(turn) && 0 < n <= |turn| && forall i | n <= i < |turn| :: !InProgressText(turn[i], phases)
    ensures forall y <- turn :: PhaseOf(y, phases) == Some(Progress) ==> y.key <= turn[n - 1].key
  {
    hide PhaseOf, Ascending;
    forall y | y in turn && PhaseOf(y, phases) == Some(Progress) ensures y.key <= turn[n - 1].key {
      var i :| 0 <= i < |turn| && turn[i] == y;
      KeysOrder(turn, i, n - 1);
    }
  }

  lemma {:induction false} StaysInGroup(turn: seq<Item>, k: nat, n: nat, failures: seq<Failure>, failing: bool, g: nat,
                                        x: Item)
    requires n <= k <= |turn| && Ascending(turn)
    requires var groups := DraftAt(turn, n, failures, failing).groups; g < |groups| && x in groups[g].items
    ensures var groups := DraftAt(turn, k, failures, failing).groups; g < |groups| && x in groups[g].items
    decreases k
  {
    hide DraftAt;
    if n < k {
      StaysInGroup(turn, k - 1, n, failures, failing, g, x);
      DraftGrows(turn, k - 1, failures, failing);
      hide *;
      MemberStays(DraftAt(turn, k - 1, failures, failing).groups, DraftAt(turn, k, failures, failing).groups, g, x);
    }
  }

  lemma DraftGrows(turn: seq<Item>, k: nat, failures: seq<Failure>, failing: bool)
    requires k < |turn| && Ascending(turn)
    ensures GroupsGrow(DraftAt(turn, k, failures, failing).groups, DraftAt(turn, k + 1, failures, failing).groups)
  {
    DraftOrdered(turn, k, failures, failing);
    var d, phases := DraftAt(turn, k, failures, failing), PhasesOf(turn);
    hide Place, PhasesOf, TextsOf, GroupsAfter, OrderedGroups, AllBelow, GroupsGrow;
    PlacedGroups(d, turn[k], phases, TextsOf(turn, phases));
    PlaceGrows(d, turn[k], phases);
  }

  lemma MemberStays(groups: seq<Group>, groups': seq<Group>, g: nat, x: Item)
    requires GroupsGrow(groups, groups') && g < |groups| && x in groups[g].items
    ensures g < |groups'| && x in groups'[g].items
  {
  }

  /** A progress text is the last member of the last group when it is placed. */
  lemma ProgressIsGrouped(turn: seq<Item>, n: nat, failures: seq<Failure>, failing: bool)
    requires 0 < n <= |turn| && InProgressText(turn[n - 1], PhasesOf(turn))
    ensures var groups := DraftAt(turn, n, failures, failing).groups;
            groups != [] && turn[n - 1] in groups[|groups| - 1].items
  {
    var d, phases, x := DraftAt(turn, n - 1, failures, failing), PhasesOf(turn), turn[n - 1];
    PlacedGroups(d, x, phases, TextsOf(turn, phases));
    ProgressIsWork(x, phases);
    hide Place, PhasesOf, TextsOf, RunFailed, LateMarker, Background;
  }

  lemma ProgressIsWork(x: Item, phases: Phases)
    requires InProgressText(x, phases)
    ensures !RunFailed(x) && !LateMarker(x) && Background(x, phases) && x.Text? && Works(x)
  {
  }

  /** Where the latest progress text is when all of the turn is placed. */
  lemma LatestIsPlaced(turn: seq<Item>, failures: seq<Failure>, failing: bool, x: Item)
    requires Ascending(turn) && LatestText(turn, x)
    ensures var n := LatestProgress(turn, PhasesOf(turn), |turn|);
            && n > 0 && x == turn[n - 1] && x.Text? && Works(x)
            && var placed, groups := |DraftAt(turn, n, failures, failing).groups|,
              DraftOf(turn, failures, failing).groups;
               0 < placed <= |groups| && x in groups[placed - 1].items
  {
    LatestTextIs(turn, x);
    var n := LatestProgress(turn, PhasesOf(turn), |turn|);
    hide LatestText, LatestProgress, PhasesOf, DraftAt, InProgressText, Ascending, Works;
    ProgressIsWork(x, PhasesOf(turn));
    ProgressIsGrouped(turn, n, failures, failing);
    StaysInGroup(turn, |turn|, n, failures, failing, |DraftAt(turn, n, failures, failing).groups| - 1, x);
  }

  lemma OneGroupShows(turn: seq<Item>, failures: seq<Failure>, failing: bool, row: Row, g: nat, h: nat, x: Item)
    requires Ascending(turn) && RowOfGroup(turn, failures, failing, row, g) && Works(x)
    requires var groups := DraftOf(turn, failures, failing).groups; h < |groups| && x in groups[h].items
    ensures x in row.items <==> g == h
  {
    var groups := DraftOf(turn, failures, failing).groups;
    DraftOrdered(turn, |turn|, failures, failing);
    if x in row.items {
      var m := PlacedSomewhere(turn, failures, failing, row, g, x);
      WorkIsOwn(turn, failures, failing, g, m, x);
      hide DraftAt, OrderedGroups, RowOfGroup, Works, PhasesOf;
      SharedMember(groups, g, h, x);
    }
    if g == h {
      GroupedWork(turn, failures, failing, g, x);
      hide DraftAt, OrderedGroups, RowOfGroup, Works, PhasesOf;
      assert PlacedIn(turn, failures, failing, g, g, x);
      PlacedIsShown(turn, failures, failing, row, g, g, x);
    }
  }

  /** Of the Activities of a turn, that of the group previewed shows the latest progress text. */
  lemma PreviewedShows(turn: seq<Item>, failures: seq<Failure>, failing: bool, row: Row, g: nat, x: Item)
    requires Ascending(turn) && RowOfGroup(turn, failures, failing, row, g) && LatestText(turn, x)
    ensures var n := LatestProgress(turn, PhasesOf(turn), |turn|);
            && n > 0 && x == turn[n - 1] && x.Text?
            && |DraftAt(turn, n, failures, failing).groups| > 0
            && (x in row.items <==> g == |DraftAt(turn, n, failures, failing).groups| - 1)
  {
    hide LatestText, LatestProgress, PhasesOf, DraftAt, RowOfGroup, Works, Ascending;
    LatestIsPlaced(turn, failures, failing, x);
    var n := LatestProgress(turn, PhasesOf(turn), |turn|);
    OneGroupShows(turn, failures, failing, row, g, |DraftAt(turn, n, failures, failing).groups| - 1, x);
  }

  /** What an Activity of an unfinished turn previews. */
  lemma PreviewIs(turn: seq<Item>, failures: seq<Failure>, failing: bool, row: Row)
    requires Ascending(turn) && row in TurnRows(turn, failures, failing, true) && row.Activity?
    ensures row.preview.Some? <==> exists x <- row.items :: LatestText(turn, x)
    ensures forall x <- row.items | LatestText(turn, x) :: x.Text? && row.preview == Some(x.text)
  {
    hide TurnRows, LatestText, LatestProgress, PhasesOf, DraftAt, RowOfGroup, KeptOf, LastKept, Ascending;
    var g := FlaggedOrigin(turn, failures, failing, true, row);
    var n := LatestProgress(turn, PhasesOf(turn), |turn|);
    forall x | LatestText(turn, x) ensures n > 0 && x == turn[n - 1] {
      LatestTextIs(turn, x);
    }
    if n > 0 {
      LatestTextIs(turn, turn[n - 1]);
      PreviewedShows(turn, failures, failing, row, g, turn[n - 1]);
    }
  }

  lemma ItemsFromTurn(turn: seq<Item>, failures: seq<Failure>, failing: bool, active: bool, row: Row)
    requires row in TurnRows(turn, failures, failing, active) && row.Activity?
    ensures row.items != [] && forall x <- row.items :: x in turn
  {
    var g := ActivityOrigin(turn, failures, failing, active, row);
    GroupRowsHold(turn, failures, failing, row, g);
    GroupsFromTurn(turn, |turn|, failures, failing);
    hide TurnRows, RowOfGroup, DraftAt, KeptOf, PhasesOf, Feeds;
    forall x | x in row.items ensures x in turn {
      var m := PlacedSomewhere(turn, failures, failing, row, g, x);
    }
  }

  // Whole logs.

  lemma PresentRows(log: seq<Item>, live: bool)
    ensures var p := Received(log);
            Present(log, live).rows ==
            p.rows + if p.turn == [] then [] else TurnRows(p.turn, p.failures, p.failing, live)
  {
    hide Received, TurnRows, DraftOf;
    assert Received(log).rows + [] == Received(log).rows;
  }

  ghost predicate LastActivity(rows: seq<Row>, i: nat)
    requires i < |rows|
  {
    rows[i].Activity? && forall j | i < j < |rows| :: !rows[j].Activity?
  }

  /**
   An Activity is live if and only if the log is, its items are of the unfinished turn, and no later row is an
   Activity. It previews a text if and only if the log is live and it shows the last text of the unfinished turn that is
   classified as progress, and then it previews that text.
   */
  lemma FlagsAreRight(log: seq<Item>, live: bool, i: nat)
    requires Ascending(log)
    requires var rows := Present(log, live).rows; i < |rows| && rows[i].Activity?
    ensures var rows := Present(log, live).rows;
            var turn := Unfinished(log);
            && (rows[i].live <==> live && (forall x <- rows[i].items :: x in turn) && LastActivity(rows, i))
            && (rows[i].preview.Some? <==> live && exists x <- rows[i].items :: LatestText(turn, x))
            && (forall x <- rows[i].items | live && LatestText(turn, x) :: x.Text? && rows[i].preview == Some(x.text))
  {
    var p, rows := Received(log), Present(log, live).rows;
    hide Present, Received, TurnRows, LatestText, Unfinished, Ascending;
    PresentRows(log, live);
    ReceivedUnfinished(log);
    ReceivedAscends(log);
    var turn := Unfinished(log);
    if i < |p.rows| {
      OldFlags(log, live, i);
      NoneLatest(rows[i].items, turn);
      hide *;
    } else {
      var own := TurnRows(p.turn, p.failures, p.failing, live);
      assert rows[i] == own[i - |p.rows|];
      OwnFlags(p.turn, p.failures, p.failing, live, i - |p.rows|);
      LaterRows(p.rows, own, i);
      hide *;
    }
  }

  lemma ReceivedAscends(log: seq<Item>)
    requires Ascending(log)
    ensures Ascending(Received(log).turn)
  {
    ReceivedTurnOk(log);
    hide Received;
  }

  lemma NoneLatest(items: seq<Item>, turn: seq<Item>)
    requires items != [] && forall x <- items :: x !in turn
    ensures forall x <- items :: !LatestText(turn, x)
    ensures !forall x <- items :: x in turn
  {
    hide PhaseOf, PhasesOf;
    assert items[0] in items;
  }

  lemma LaterRows(before: seq<Row>, own: seq<Row>, i: nat)
    requires |before| <= i < |before| + |own|
    ensures LastActivity(before + own, i) <==> LastActivity(own, i - |before|)
  {
    var rows := before + own;
    assert forall j | |before| <= j < |rows| :: rows[j] == own[j - |before|];
    if LastActivity(rows, i) {
      forall j | i - |before| < j < |own| ensures !own[j].Activity? {
        assert rows[j + |before|] == own[j];
      }
    }
  }

  lemma OldFlags(log: seq<Item>, live: bool, i: nat)
    requires Ascending(log) && i < |Received(log).rows| && Received(log).rows[i].Activity?
    ensures var row, turn := Received(log).rows[i], Received(log).turn;
            && !row.live && row.preview.None? && row.items != [] && forall x <- row.items :: x !in turn
  {
    var p := Received(log);
    ReceivedQuiet(log);
    hide Received;
    assert Quiet(p.rows[i]);
    forall x | x in p.rows[i].items ensures x !in p.turn {
      ShownIsCollected(log, p.rows[i], x);
    }
  }

  lemma OwnFlags(turn: seq<Item>, failures: seq<Failure>, failing: bool, live: bool, i: nat)
    requires Ascending(turn)
    requires var rows := TurnRows(turn, failures, failing, live); i < |rows| && rows[i].Activity?
    ensures var rows := TurnRows(turn, failures, failing, live);
            && (forall x <- rows[i].items :: x in turn)
            && (rows[i].live <==> live && LastActivity(rows, i))
            && (rows[i].preview.Some? <==> live && exists x <- rows[i].items :: LatestText(turn, x))
            && (forall x <- rows[i].items | live && LatestText(turn, x) :: x.Text? && rows[i].preview == Some(x.text))
  {
    var rows := TurnRows(turn, failures, failing, live);
    ItemsFromTurn(turn, failures, failing, live, rows[i]);
    if live {
      LiveIffLast(turn, failures, failing, i);
      PreviewIs(turn, failures, failing, rows[i]);
    } else {
      FinishedTurnIsQuiet(turn, failures, failing);
      assert Quiet(rows[i]);
    }
    hide TurnRows, LatestText;
  }

  /** At most one Activity is live, and none of a log that is not. */
  lemma OneIsLive(log: seq<Item>, live: bool, i: nat, j: nat)
    requires Ascending(log)
    requires var rows := Present(log, live).rows;
             i < |rows| && j < |rows| && rows[i].Activity? && rows[i].live && rows[j].Activity? && rows[j].live
    ensures live && i == j
  {
    FlagsAreRight(log, live, i);
    FlagsAreRight(log, live, j);
    hide Present, LatestText, Unfinished;
  }
}
