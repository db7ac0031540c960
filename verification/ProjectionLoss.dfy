/**
 Which Activities of the projected conversation stay for good, exactly: those that show what begins an operation and is
 not divided from their work by a message, and those whose turn has ended. Any later tool call takes away the others.
 */
module ProjectionLoss {
  import opened Wrappers
  import opened ConversationItems
  import opened Transcript
  import opened TranscriptDrafts
  import opened TranscriptGaps
  import opened TranscriptMerge
  import opened TranscriptStability
  import opened TranscriptConservation
  import opened TranscriptKeys
  import opened TranscriptWork
  import opened ConversationTrace
  import opened TraceBeginnings
  import opened TraceConservation
  import opened TraceCorrelation
  import opened ProjectionStability
  import opened ProjectionAnchors

  /** The first member of an operation is on show if any is. */
  lemma FirstMemberShown(log: seq<Item>, live: bool, o: Operation)
    requires Ascending(log) && o in Operations(log, live)
    requires var rows := Present(log, live).rows; OwnerOf(o.members, Owners(rows, |rows|)).Some?
    ensures var rows := Present(log, live).rows;
            && o.members != [] && o.members[0] in Owners(rows, |rows|)
            && OwnerOf(o.members, Owners(rows, |rows|)) == Some(Owners(rows, |rows|)[o.members[0]])
  {
    var rows := Present(log, live).rows;
    OperationsBegun(log, live, o);
    hide Present, Owners, Operations, ToolItem;
    if |o.members| > 1 {
      var x :| x in log && ToolItem(x) && x.key == o.members[0];
      ToolIsShown(log, live, x);
    } else {
      assert OwnerOf(o.members[1..], Owners(rows, |rows|)).None?;
    }
  }

  lemma ToolIsShown(log: seq<Item>, live: bool, x: Item)
    requires x in log && ToolItem(x)
    ensures var rows := Present(log, live).rows; x.key in Owners(rows, |rows|)
  {
    var rows := Present(log, live).rows;
    ToolsAreWork(log, x);
    hide Present, Owners, WorkOf, Turns;
    var turn :| turn in Turns(log) && WorkOf(turn, x);
    WorkIsShown(log, live, turn, x);
    var row :| row in rows && row.Activity? && x in row.items;
    assert rows[..|rows|] == rows;
    ShownHasOwner(rows, |rows|, row, x);
  }

  // Whatever survives shows the beginning of an operation.

  lemma {:induction false} AttachedSomeone(operations: seq<Operation>, owners: map<int, nat>, row: nat)
      returns (o: Operation)
    requires AttachedTo(operations, owners, row) != []
    ensures o in operations && OwnerOf(o.members, owners) == Some(row)
  {
    hide OwnerOf;
    o := operations[|operations| - 1];
    if OwnerOf(o.members, owners) != Some(row) {
      o := AttachedSomeone(operations[..|operations| - 1], owners, row);
    }
  }

  lemma {:induction false} IdsProjected(rows: seq<Row>, operations: seq<Operation>, owners: map<int, nat>, n: nat,
      id: RowId)
    requires n <= |rows| && id in ProjectedIds(Projected(rows, operations, owners, n))
    ensures exists r ::
            0 <= r < n && IdOf(rows[r]) == id && (rows[r].Activity? ==> AttachedTo(operations, owners, r) != [])
  {
    hide AttachedTo, IdOf;
    assert n > 0;
    hide *;
    IdsAfterRow(rows, operations, owners, n);
    if id in ProjectedIds(Projected(rows, operations, owners, n - 1)) {
      IdsProjected(rows, operations, owners, n - 1, id);
    }
  }

  lemma OnShowBegins(log: seq<Item>, live: bool, key: int) returns (row: Row, x: Item)
    requires Ascending(log) && OnShow(log, live, key)
    ensures row in Present(log, live).rows && row.Activity? && row.key == key && x in row.items && Begins(log, live, x)
  {
    var rows, operations := Present(log, live).rows, Operations(log, live);
    var owners := Owners(rows, |rows|);
    hide Present, Operations, Owners, AttachedTo, Projected, ProjectedIds;
    IdsProjected(rows, operations, owners, |rows|, ActivityId(key));
    var r: nat :| r < |rows| && IdOf(rows[r]) == ActivityId(key)
      && (rows[r].Activity? ==> AttachedTo(operations, owners, r) != []);
    ActivityIds(rows[r]);
    var o := AttachedSomeone(operations, owners, r);
    FirstMemberShown(log, live, o);
    OwnerShows(rows, |rows|, o.members[0]);
    row := rows[r];
    x :| x in row.items && x.key == o.members[0];
  }

  // A tool call keeps the last group of the turn, and with it all idle groups since the last work.

  lemma ToolKeepsLast(turn: seq<Item>, t: Item, failures: seq<Failure>, failing: bool)
    requires ToolItem(t)
    ensures var groups := DraftOf(turn + [t], failures, failing).groups;
            groups != [] && t in groups[|groups| - 1].items
  {
    var more := turn + [t];
    var d := DraftAt(more, |turn|, failures, failing);
    PlacedGroups(d, t, PhasesOf(more), TextsOf(more, PhasesOf(more)));
    ToolIsPlaced(d, t, PhasesOf(more));
    hide Place, PhasesOf, TextsOf, GroupsAfter;
    assert DraftOf(more, failures, failing).groups == GroupsAfter(d, t, PhasesOf(more));
  }

  lemma ToolIsPlaced(d: Draft, t: Item, phases: Phases)
    requires ToolItem(t)
    ensures var groups' := GroupsAfter(d, t, phases);
            groups' != [] && t in groups'[|groups'| - 1].items
  {
  }

  /** A group without work does not move back past later work. */
  lemma NoneMovesBack(groups: seq<Group>, keep: seq<bool>, g: nat, m: nat)
    requires |keep| == |groups| && OrderedGroups(groups) && g < m < |groups| && keep[|groups| - 1]
    ensures !Feeds(groups, keep, m, g)
  {
    var key, n := groups[m].key, |groups| - 1;
    FirstAboveFacts(groups, keep, key, 0);
    GroupKeysAscend(groups, g, m);
    if m < n {
      GroupKeysAscend(groups, m, n);
    }
    hide FirstAbove, LastKept, OrderedGroups;
  }

  /** With work in the last group, an earlier one shows only what it showed before from itself and groups before it. */
  lemma EarlierUnmoved(groups: seq<Group>, groups': seq<Group>, keep: seq<bool>, keep': seq<bool>, g: nat, m: nat,
      x: Item)
    requires |keep| == |groups| && |keep'| == |groups'| && GroupsGrow(groups, groups')
    requires OrderedGroups(groups) && OrderedGroups(groups') && groups' != [] && keep'[|groups'| - 1]
    requires g + 1 < |groups| && keep[g] && forall i | 0 <= i <= g :: keep'[i] == keep[i]
    requires m < |groups'| && (m == g || Feeds(groups', keep', m, g)) && x in groups'[m].items
    ensures m <= g && (m == g || Feeds(groups, keep, m, g)) && x in groups[m].items
  {
    hide OrderedGroups, Target;
    if g < m {
      NoneMovesBack(groups', keep', g, m);
    } else if m < g {
      EarlierFeeds(groups, groups', keep, keep', m, g);
    }
  }

  /**
   After a tool call, the Activity of an earlier group shows only what it showed before from itself and groups before
   it.
   */
  lemma ToolLeavesEarlier(turn: seq<Item>, t: Item, failures: seq<Failure>, failing: bool, g: nat, m: nat, x: Item)
    requires Ascending(turn + [t]) && NoResult(turn) && ToolItem(t)
    requires g + 1 < |DraftOf(turn, failures, failing).groups|
             && Kept(DraftOf(turn, failures, failing).groups[g], PhasesOf(turn))
    requires PlacedIn(turn + [t], failures, failing, g, m, x)
    ensures m <= g && PlacedIn(turn, failures, failing, g, m, x)
  {
    var more := turn + [t];
    hide DraftOf, OrderedGroups, PhasesOf, Kept, GroupsWithin, Feeds, ToolItem, Works, GroupsGrow, Ascending, NoResult;
    DraftsGrow(turn, t, failures, failing);
    ToolKeepsLast(turn, t, failures, failing);
    ToolWorks(t);
    var d, d' := DraftOf(turn, failures, failing), DraftOf(more, failures, failing);
    var keep, keep' := KeptOf(d.groups, PhasesOf(turn)), KeptOf(d'.groups, PhasesOf(more));
    GroupedWork(more, failures, failing, |d'.groups| - 1, t);
    forall i: nat | i <= g ensures keep'[i] == keep[i] {
      KeptGrows(d.groups, d'.groups, turn, t, i);
    }
    EarlierUnmoved(d.groups, d'.groups, keep, keep', g, m, x);
  }

  lemma ToolWorks(t: Item)
    requires ToolItem(t)
    ensures Works(t)
  {
  }

  /** A row of the longer turn with the key of group g is that of group g. */
  lemma SameGroup(turn: seq<Item>, t: Item, failures: seq<Failure>, failing: bool, row: Row, row': Row, g: nat, g': nat)
    requires Ascending(turn + [t]) && NoResult(turn)
    requires RowOfGroup(turn, failures, failing, row, g) && RowOfGroup(turn + [t], failures, failing, row', g')
             && row'.key == row.key
    ensures g' == g
  {
    var more := turn + [t];
    DraftsGrow(turn, t, failures, failing);
    hide DraftOf, OrderedGroups, PhasesOf, Kept, GroupsWithin, Settled, MergeFrom;
    var d, d' := DraftOf(turn, failures, failing), DraftOf(more, failures, failing);
    var keep, keep' := KeptOf(d.groups, PhasesOf(turn)), KeptOf(d'.groups, PhasesOf(more));
    VisibleKeysStay(d.groups, d'.groups, turn, t);
    VisibleKeysAscend(d'.groups, keep');
    assert VisibleKeys(d.groups, keep)[g] == Some(row.key) && VisibleKeys(d'.groups, keep')[g] == Some(row.key);
    assert VisibleKeys(d'.groups, keep')[g'] == Some(row.key);
  }

  lemma OneRowPerKey(log: seq<Item>, live: bool, a: Row, b: Row)
    requires Ascending(log) && a in Present(log, live).rows && b in Present(log, live).rows
    requires a.Activity? && b.Activity? && a.key == b.key
    ensures a == b
  {
    RowKeysAscend(log, live);
    hide Present;
    var rows := Present(log, live).rows;
    var i :| 0 <= i < |rows| && rows[i] == a;
    var j :| 0 <= j < |rows| && rows[j] == b;
    assert SameKind(Ids(rows)[i], Ids(rows)[j]) && Ids(rows)[i].key == Ids(rows)[j].key;
  }

  /** In the present turn, an Activity that is not rooted lives on something placed after it. */
  lemma LivesOnLater(log: seq<Item>, live: bool, row: Row, g: nat)
    requires Ascending(log) && row in Present(log, live).rows && row.Activity? && OnShow(log, live, row.key)
             && !Rooted(log, live, row)
    requires var p := Received(log); RowOfGroup(p.turn, p.failures, p.failing, row, g)
    ensures var p := Received(log); g + 1 < |DraftOf(p.turn, p.failures, p.failing).groups|
  {
    var p := Received(log);
    hide Received, Present, DraftOf, OnShow, Begins, RowOfGroup, Undivided, LateMarker, KeptOf;
    var row', x := OnShowBegins(log, live, row.key);
    OneRowPerKey(log, live, row, row');
    var m := PlacedSomewhere(p.turn, p.failures, p.failing, row, g, x);
    if m <= g {
      RowItemsLogged(log, live, row, x);
      BeginnersAreTraced(log, live, x);
      PlacedIsUndivided(log, live, row, g, m, x);
    }
  }

  lemma RowItemsLogged(log: seq<Item>, live: bool, row: Row, x: Item)
    requires Ascending(log) && row in Present(log, live).rows && row.Activity? && x in row.items
    ensures x in log
  {
    ActivityItemsAscend(log, live, row);
  }

  lemma ToolIsCollected(p: Projection, t: Item)
    requires ToolItem(t)
    ensures Receive(p, t) == p.(turn := p.turn + [t])
  {
    hide Flush;
  }

  /** Any tool call or result takes away an Activity that is not rooted. */
  lemma UnrootedGoes(log: seq<Item>, live: bool, live': bool, row: Row, t: Item)
    requires Ascending(log + [t]) && ToolItem(t) && row in Present(log, live).rows && row.Activity?
    requires OnShow(log, live, row.key) && !Rooted(log, live, row)
    ensures !OnShow(log + [t], live', row.key)
  {
    var p, more := Received(log), log + [t];
    AscendingPrefix(log, t);
    ReceivedTurnOk(log);
    TurnAscends(log, t, p);
    ReceivedOne(log, t);
    ToolIsCollected(p, t);
    assert row in TurnRows(p.turn, p.failures, p.failing, live);
    assert forall r <- Present(more, live').rows ::
           r in p.rows || r in TurnRows(p.turn + [t], p.failures, p.failing, live');
    assert forall r <- p.rows :: r in Present(log, live).rows;
    hide Received, Receive, Present, TurnRows, DraftOf, OnShow, Begins, Settled, MergeFrom, Undivided, ToolItem,
         Ascending, NoResult;
    var g := ActivityOrigin(p.turn, p.failures, p.failing, live, row);
    LivesOnLater(log, live, row, g);
    if OnShow(more, live', row.key) {
      var row', x := OnShowBegins(more, live', row.key);
      if row' in p.rows {
        OneRowPerKey(log, live, row, row');
      } else {
        var g' := ActivityOrigin(p.turn + [t], p.failures, p.failing, live', row');
        SameGroup(p.turn, t, p.failures, p.failing, row, row', g, g');
        var m := PlacedSomewhere(p.turn + [t], p.failures, p.failing, row', g, x);
        ToolLeavesEarlier(p.turn, t, p.failures, p.failing, g, m, x);
        EarlierIsRoot(log, live, live', row, g, m, t, x);
      }
    }
  }

  lemma EarlierIsRoot(log: seq<Item>, live: bool, live': bool, row: Row, g: nat, m: nat, t: Item, x: Item)
    requires Ascending(log + [t]) && Ascending(log) && ToolItem(t) && row in Present(log, live).rows && row.Activity?
    requires var p := Received(log);
             RowOfGroup(p.turn, p.failures, p.failing, row, g) && PlacedIn(p.turn, p.failures, p.failing, g, m, x)
               && m <= g
    requires Begins(log + [t], live', x)
    ensures Rooted(log, live, row)
  {
    var p := Received(log);
    hide Received, Present, TurnRows, DraftOf, Begins, RowOfGroup, PlacedIn, Undivided, ToolItem, LateMarker, Ended;
    PlacedIsShown(p.turn, p.failures, p.failing, row, g, m, x);
    RowItemsLogged(log, live, row, x);
    assert x.key < t.key by {
      var i :| 0 <= i < |log| && log[i] == x;
      assert (log + [t])[i] == x && (log + [t])[|log|] == t;
    }
    BegunBefore(log, t, live, live', x);
    BeginnersAreTraced(log, live, x);
    PlacedIsUndivided(log, live, row, g, m, x);
  }

  /** Whatever the log goes on with, the projected conversation shows an Activity with this key. */
  ghost predicate StaysForGood(log: seq<Item>, key: int) {
    forall more: seq<Item>, live' | Ascending(log + more) :: OnShow(log + more, live', key)
  }

  function SomeTool(key: int): (t: Item)
    ensures t.key == key && ToolItem(t)
  {
    Event(key, key, ToolCall, Source("", Claude, ""),
      Payload(NoSubtype, None, None, false, NoStatus, None, None, false, None, "", ""))
  }

  /**
   An Activity of the projected conversation stays there for good, under its key, if and only if its turn has ended or
   it shows what begins an operation with no message between its work and that.
   */
  lemma ActivityStaysIffRooted(log: seq<Item>, live: bool, row: Row)
    requires Ascending(log) && row in Present(log, live).rows && row.Activity? && OnShow(log, live, row.key)
    ensures StaysForGood(log, row.key) <==> Rooted(log, live, row)
  {
    hide Present, OnShow, Begins, Undivided, Ended, Received;
    if Rooted(log, live, row) {
      forall more: seq<Item>, live' | Ascending(log + more) ensures OnShow(log + more, live', row.key) {
        RootedStays(log, more, live, live', row);
      }
    } else {
      var t := SomeTool(if log == [] then 0 else log[|log| - 1].key + 1);
      assert Ascending(log + [t]);
      UnrootedGoes(log, live, live, row, t);
    }
  }

  lemma RootedStays(log: seq<Item>, more: seq<Item>, live: bool, live': bool, row: Row)
    requires Ascending(log + more) && row in Present(log, live).rows && row.Activity? && OnShow(log, live, row.key)
    requires Rooted(log, live, row)
    ensures OnShow(log + more, live', row.key)
  {
    hide Present, OnShow, Begins, Undivided, Ended, Received;
    AscendingPart(log, more);
    if Ended(log, row) {
      var row', x := OnShowBegins(log, live, row.key);
      OneRowPerKey(log, live, row, row');
      EndedHolds(log, row, x);
      BeginnerStays(log, more, live, live', row, x);
    } else {
      var x :| x in row.items && Begins(log, live, x) && Undivided(Present(log, live).rows, row, x);
      UndividedLasts(log, live, row, x);
      BeginnerStays(log, more, live, live', row, x);
    }
  }

  /** In particular an Activity stays if it shows the first member of an operation and that is work. */
  lemma WorkedActivityStays(log: seq<Item>, more: seq<Item>, live: bool, live': bool, row: Row, x: Item)
    requires Ascending(log + more) && row in Present(log, live).rows && row.Activity? && x in row.items && Works(x)
    requires Begins(log, live, x)
    ensures OnShow(log + more, live', row.key)
  {
    hide Present, Works, Holds, OnShow, Begins, Received;
    AscendingPart(log, more);
    WorkHolds(log, live, row, x);
    BeginnerStays(log, more, live, live', row, x);
  }

  // An instance: the only operation of a shown Activity is a lifecycle event after the next message.

  const SOURCE := Source("task", Claude, "session")

  function Note(subtype: Subtype, id: string): Payload {
    Payload(subtype, None, None, false, NoStatus, None, None, false, None, id, "")
  }

  // A call, a message, the result of the call, another message, and a lifecycle event.
  const CALL := Event(1, 1, ToolCall, SOURCE, Note(NoSubtype, "a"))
  const FIRST := Text(2, 2, Claude, "", None, None)
  const RESULT := Event(3, 3, ToolResult, SOURCE, Note(NoSubtype, "a"))
  const SECOND := Text(4, 4, Claude, "", None, None)
  const RETRY := Event(5, 5, Status, SOURCE, Note(OtherSubtype, ""))

  const SHOWN := [CALL, FIRST, RESULT, SECOND, RETRY]

  /** Items that neither end a turn nor classify a message. */
  predicate Plainly(x: Item) {
    && !StatusOf(x, ContextCompacted) && !Boundary(x) && !Interjects(x) && !Is(x, TurnResult)
    && TextId(x).None? && (x.Event? ==> x.payload.subtype != AssistantMessage)
  }

  lemma {:induction false} OneTurn(log: seq<Item>)
    requires forall x <- log :: Plainly(x)
    ensures Received(log) == Projection([], log, [], false) && PhasesOf(log) == map[]
  {
    if log != [] {
      var shorter := log[..|log| - 1];
      assert log == shorter + [log[|log| - 1]];
      OneTurn(shorter);
      assert Plainly(log[|log| - 1]);
    }
  }

  lemma PlaceBackground(d: Draft, x: Item, texts: set<string>)
    requires Plainly(x) && !Failed(x) && x.Event? && (ToolItem(x) || Is(x, Status))
    ensures Place(d, x, map[], texts) == PlaceWork(d, x)
  {
  }

  lemma PlaceProse(d: Draft, x: Item, texts: set<string>)
    requires Plainly(x) && x.Text? && x.phase.None?
    ensures Place(d, x, map[], texts) == d.(slots := d.slots + [MessageSlot(x)], open := false)
  {
  }

  lemma ItemsPlainly()
    ensures Plainly(CALL) && Plainly(FIRST) && Plainly(RESULT) && Plainly(SECOND) && Plainly(RETRY)
    ensures !Failed(CALL) && !Failed(RESULT) && !Failed(RETRY)
  {
  }

  lemma ShownIsTurn()
    ensures Received(SHOWN) == Projection([], SHOWN, [], false) && PhasesOf(SHOWN) == map[]
  {
    ItemsPlainly();
    hide Plainly, Failed, Received, PhasesOf;
    forall x | x in SHOWN ensures Plainly(x) {
    }
    OneTurn(SHOWN);
  }

  function D3(): Draft {
    Draft([GroupSlot(0), MessageSlot(FIRST), GroupSlot(1)], [Group(1, [CALL]), Group(3, [RESULT])], true, {}, [], false)
  }

  function D5(): Draft {
    Draft([GroupSlot(0), MessageSlot(FIRST), GroupSlot(1), MessageSlot(SECOND), GroupSlot(2)],
          [Group(1, [CALL]), Group(3, [RESULT]), Group(5, [RETRY])], true, {}, [], false)
  }

  lemma FirstThree()
    ensures DraftAt(SHOWN, 3, [], false) == D3()
  {
    hide Place, PhasesOf, TextsOf, Plainly, Failed, Received;
    ItemsPlainly();
    ShownIsTurn();
    var texts := TextsOf(SHOWN, map[]);
    var d0 := DraftAt(SHOWN, 0, [], false);
    PlaceBackground(d0, CALL, texts);
    var d1 := DraftAt(SHOWN, 1, [], false);
    assert d1 == Draft([GroupSlot(0)], [Group(1, [CALL])], true, {}, [], false);
    PlaceProse(d1, FIRST, texts);
    var d2 := DraftAt(SHOWN, 2, [], false);
    assert d2.slots == [GroupSlot(0), MessageSlot(FIRST)];
    PlaceBackground(d2, RESULT, texts);
    var d3 := DraftAt(SHOWN, 3, [], false);
    assert d3.slots == D3().slots && d3.groups == D3().groups;
  }

  lemma FourSlots()
    ensures D3().slots + [MessageSlot(SECOND)] == [GroupSlot(0), MessageSlot(FIRST), GroupSlot(1), MessageSlot(SECOND)]
    ensures D3().groups == [Group(1, [CALL]), Group(3, [RESULT])] && D3().answered == {} && D3().failures == []
            && !D3().failing
  {
  }

  /** The draft of the instance: three groups and the messages between them. */
  lemma ShownDraft()
    ensures DraftOf(SHOWN, [], false) == D5()
  {
    hide Place, PhasesOf, TextsOf, Plainly, Failed, D3, Received;
    ItemsPlainly();
    ShownIsTurn();
    FirstThree();
    var texts := TextsOf(SHOWN, map[]);
    PlaceProse(D3(), SECOND, texts);
    FourSlots();
    var d4 := DraftAt(SHOWN, 4, [], false);
    assert d4.slots == [GroupSlot(0), MessageSlot(FIRST), GroupSlot(1), MessageSlot(SECOND)];
    PlaceBackground(d4, RETRY, texts);
    var d5 := DraftAt(SHOWN, 5, [], false);
    assert d5.slots == D5().slots && d5.groups == D5().groups;
  }

  lemma KeptGroups()
    ensures KeptOf(D5().groups, map[]) == [true, true, false]
  {
    assert CALL in D5().groups[0].items && RESULT in D5().groups[1].items;
  }

  /** The lifecycle event moves back into the work of the result, as there is no later work. */
  lemma RetryFeeds()
    ensures Feeds(D5().groups, [true, true, false], 2, 1)
  {
    var groups, keep := D5().groups, [true, true, false];
    FirstAboveFacts(groups, keep, 5, 0);
    LastKeptFacts(keep, 3);
    hide FirstAbove, LastKept;
  }

  lemma ShownPlaces()
    ensures var d := DraftOf(SHOWN, [], false); d == D5() && KeptOf(d.groups, PhasesOf(SHOWN)) == [true, true, false]
    ensures PlacedIn(SHOWN, [], false, 1, 2, RETRY)
  {
    ShownIsTurn();
    ShownDraft();
    KeptGroups();
    RetryFeeds();
    hide DraftOf, PhasesOf, KeptOf, Feeds, Received;
  }

  lemma RowOfTurn(turn: seq<Item>, live: bool, g: nat, m: nat, x: Item) returns (row: Row)
    requires Received(turn) == Projection([], turn, [], false) && turn != [] && Ascending(turn)
             && PlacedIn(turn, [], false, g, m, x)
    ensures row in Present(turn, live).rows && RowOfGroup(turn, [], false, row, g) && x in row.items
    ensures var groups := DraftOf(turn, [], false).groups;
            row.key == groups[Feed(KeptOf(groups, PhasesOf(turn)), g)].key
  {
    DraftFacts(turn, [], false);
    hide DraftOf, PhasesOf, Settled, MergeFrom, TurnRows, Received, Feeds, OrderedGroups, Gaps, Messages, Kept;
    row := GroupHasRow(turn, [], false, live, g);
    PlacedIsShown(turn, [], false, row, g, m, x);
    var groups := DraftOf(turn, [], false).groups;
    SettledKey(groups, KeptOf(groups, PhasesOf(turn)), g);
  }

  /** The Activity of the result, which shows the event too. */
  lemma ShownRow() returns (row: Row)
    ensures row in Present(SHOWN, true).rows && row.Activity? && row.key == 3 && RowOfGroup(SHOWN, [], false, row, 1)
            && RETRY in row.items
  {
    ShownIsTurn();
    ShownPlaces();
    hide DraftOf, PhasesOf, KeptOf, Present, Received, PlacedIn;
    row := RowOfTurn(SHOWN, true, 1, 2, RETRY);
    assert Feed([true, true, false], 1) == 1;
  }

  lemma RetryBegins()
    ensures Begins(SHOWN, true, RETRY)
  {
    assert SHOWN == SHOWN[..4] + [RETRY];
    assert IsTraced(RETRY);
    hide Begins;
    SoloBegins(SHOWN[..4], true, RETRY);
  }

  lemma ResultBeginsNothing()
    ensures !Begins(SHOWN, true, RESULT)
  {
    assert Correlated(SHOWN, 0, 2) && SHOWN[2] == RESULT;
    JoinsEarlier(SHOWN, true, 0, 2);
  }

  lemma ShownIsUnrooted(row: Row)
    requires row in Present(SHOWN, true).rows && row.Activity? && RowOfGroup(SHOWN, [], false, row, 1)
    ensures !Rooted(SHOWN, true, row)
  {
    hide DraftOf, PhasesOf, Settled, MergeFrom, KeptOf, Received, Present, Begins, Undivided, RowOfGroup, PlacedIn;
    ShownIsTurn();
    forall x | x in row.items && Begins(SHOWN, true, x) ensures !Undivided(Present(SHOWN, true).rows, row, x) {
      var m := PlacedSomewhere(SHOWN, [], false, row, 1, x);
      BeginsInThird(m, x);
      LaterIsDivided(SHOWN, true, row, 1, m, x);
    }
  }

  lemma LaterIsDivided(turn: seq<Item>, live: bool, row: Row, g: nat, m: nat, x: Item)
    requires Received(turn) == Projection([], turn, [], false) && turn != [] && Ascending(turn) && g < m
    requires row.Activity? && RowOfGroup(turn, [], false, row, g) && PlacedIn(turn, [], false, g, m, x)
    ensures !Undivided(Present(turn, live).rows, row, x)
  {
    hide DraftOf, PhasesOf, Settled, MergeFrom, KeptOf, TurnRows, Received, Undivided, PlacedIn, RowOfGroup;
    UndividedIsPlaced(turn, [], false, live, row, g, m, x);
    assert Present(turn, live).rows == [] + TurnRows(turn, [], false, live) == TurnRows(turn, [], false, live);
  }

  lemma BeginsInThird(m: nat, x: Item)
    requires PlacedIn(SHOWN, [], false, 1, m, x) && Begins(SHOWN, true, x)
    ensures m == 2
  {
    ShownPlaces();
    ResultBeginsNothing();
    hide DraftOf, PhasesOf, KeptOf, Begins, Target;
  }

  /** A shown Activity that any later tool call or result takes away. */
  lemma LaterWorkTakesActivity(t: Item, live: bool)
    requires ToolItem(t) && t.key > 5
    ensures Ascending(SHOWN + [t]) && OnShow(SHOWN, true, 3) && !OnShow(SHOWN + [t], live, 3)
  {
    hide Present, Begins, OnShow, Rooted, RowOfGroup, ToolItem;
    var row := ShownRow();
    ShownIsUnrooted(row);
    RetryBegins();
    BeginnerIsOnShow(SHOWN, true, 3, RETRY);
    UnrootedGoes(SHOWN, true, live, row, t);
  }
}
