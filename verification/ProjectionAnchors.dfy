/** Which Activities stay in the projected conversation whatever comes later. */
module ProjectionAnchors {
  import opened Wrappers
  import opened ConversationItems
  import opened Transcript
  import opened TranscriptDrafts
  import opened TranscriptGaps
  import opened TranscriptMerge
  import opened TranscriptStability
  import opened TranscriptConservation
  import opened TranscriptKeys
  import opened TranscriptWork
  import opened ConversationTrace
  import opened TraceBeginnings
  import opened TraceConservation
  import opened ProjectionStability

  /** A kind of item that is in an Activity as work only. */
  predicate Works(x: Item) {
    ToolItem(x) || TraceImage(x) || x.Text?
  }

  /** An Activity with this key shows the item. */
  ghost predicate Anchored(rows: seq<Row>, key: int, x: Item) {
    exists row <- rows :: row.Activity? && row.key == key && x in row.items
  }

  /** No message lies between the work of the Activity and the item after it. */
  predicate Undivided(rows: seq<Row>, row: Row, x: Item)
    requires row.Activity?
  {
    forall w <- row.items, m <- rows | Works(w) && m.Message? && w.key < m.key :: x.key < m.key
  }

  // From an Activity of a turn back to the groups.

  lemma {:induction false} RowOrigin(slots: seq<Slot>, groups: seq<Group>, keep: seq<bool>, flags: Flags, row: Row)
    requires |keep| == |groups| && row in RowsOf(slots, groups, keep, flags)
    ensures exists slot <- slots :: RowOf(slot, groups, keep, flags) == Some(row)
  {
    hide RowOf;
    var shorter, last := slots[..|slots| - 1], slots[|slots| - 1];
    assert slots == shorter + [last];
    if row in RowsOf(shorter, groups, keep, flags) {
      RowOrigin(shorter, groups, keep, flags, row);
    }
  }

  /** The row is that of group g of the turn. */
  ghost predicate RowOfGroup(turn: seq<Item>, failures: seq<Failure>, failing: bool, row: Row, g: nat) {
    var groups := DraftOf(turn, failures, failing).groups;
    var keep := KeptOf(groups, PhasesOf(turn));
    && g < |groups| && keep[g] && row.Activity?
    && row.key == Settled(groups, keep)[g].key && row.items == MergeFrom(groups, keep, 0)[g].items
  }

  lemma ActivityOrigin(turn: seq<Item>, failures: seq<Failure>, failing: bool, active: bool, row: Row) returns (g: nat)
    requires row in TurnRows(turn, failures, failing, active) && row.Activity?
    ensures RowOfGroup(turn, failures, failing, row, g)
  {
    var d := DraftOf(turn, failures, failing);
    var keep := KeptOf(d.groups, PhasesOf(turn));
    var settled, flags := Settled(d.groups, keep), FlagsOf(turn, failures, failing, keep, active);
    hide DraftOf, MergeFrom, FlagsOf, KeptOf, PhasesOf;
    RowOrigin(d.slots, settled, keep, flags, row);
    var slot :| slot in d.slots && RowOf(slot, settled, keep, flags) == Some(row);
    g := slot.group;
  }

  lemma GroupHasRow(turn: seq<Item>, failures: seq<Failure>, failing: bool, active: bool, g: nat) returns (row: Row)
    requires var d := DraftOf(turn, failures, failing); g < |d.groups| && Kept(d.groups[g], PhasesOf(turn))
    ensures row in TurnRows(turn, failures, failing, active) && RowOfGroup(turn, failures, failing, row, g)
  {
    var d := DraftOf(turn, failures, failing);
    var keep := KeptOf(d.groups, PhasesOf(turn));
    var settled, flags := Settled(d.groups, keep), FlagsOf(turn, failures, failing, keep, active);
    DraftRefers(turn, |turn|, failures, failing);
    hide DraftAt, MergeFrom, FlagsOf, PhasesOf, RefersTo, Kept, KeptOf;
    SlotForGroup(d.slots, |d.groups|, g);
    RowForSlot(d.slots, GroupSlot(g), settled, keep, flags);
    row := RowOf(GroupSlot(g), settled, keep, flags).value;
  }

  lemma MessageHasRow(turn: seq<Item>, failures: seq<Failure>, failing: bool, active: bool, y: Item)
    requires y in Messages(DraftOf(turn, failures, failing).slots)
    ensures Message(y.key, y) in TurnRows(turn, failures, failing, active)
  {
    var d := DraftOf(turn, failures, failing);
    var keep := KeptOf(d.groups, PhasesOf(turn));
    var settled, flags := Settled(d.groups, keep), FlagsOf(turn, failures, failing, keep, active);
    hide DraftOf, Settled, FlagsOf, KeptOf;
    RowForSlot(d.slots, MessageSlot(y), settled, keep, flags);
  }

  lemma MessageOrigin(turn: seq<Item>, failures: seq<Failure>, failing: bool, active: bool, row: Row)
    requires row in TurnRows(turn, failures, failing, active) && row.Message?
    ensures row.key == row.item.key && row.item in Messages(DraftOf(turn, failures, failing).slots)
  {
    var d := DraftOf(turn, failures, failing);
    var keep := KeptOf(d.groups, PhasesOf(turn));
    hide DraftOf, Settled, FlagsOf, KeptOf, PhasesOf, RowsOf, Messages;
    MessageFrom(d.slots, Settled(d.groups, keep), keep, FlagsOf(turn, failures, failing, keep, active), row);
  }

  lemma MessageFrom(slots: seq<Slot>, groups: seq<Group>, keep: seq<bool>, flags: Flags, row: Row)
    requires |keep| == |groups| && row in RowsOf(slots, groups, keep, flags) && row.Message?
    ensures row.key == row.item.key && row.item in Messages(slots)
  {
    RowOrigin(slots, groups, keep, flags, row);
    var slot :| slot in slots && RowOf(slot, groups, keep, flags) == Some(row);
    hide RowsOf;
    assert slot == MessageSlot(row.item);
  }

  /** An item of such a kind makes the group that it was placed in worth showing. */
  lemma GroupedWork(turn: seq<Item>, failures: seq<Failure>, failing: bool, m: nat, x: Item)
    requires Works(x) && m < |DraftOf(turn, failures, failing).groups|
             && x in DraftOf(turn, failures, failing).groups[m].items
    ensures Kept(DraftOf(turn, failures, failing).groups[m], PhasesOf(turn))
  {
    var groups := DraftOf(turn, failures, failing).groups;
    DisclosedItems(turn, |turn|, failures, failing);
    GroupMembers(groups, x);
    hide DraftAt, GroupItems, Disclosed, PhasesOf;
    assert x in multiset(Disclosed(turn, |turn|));
    DisclosedMembers(turn, |turn|, x);
  }

  /** A kept group has work of its own. */
  lemma KeptHasWork(group: Group, phases: Phases) returns (w: Item)
    requires Kept(group, phases)
    ensures w in group.items && Works(w) && !LateMarker(w)
  {
    w :| w in group.items && WorkItem(w, phases);
  }

  /** The item was placed in group m, which g shows. */
  ghost predicate PlacedIn(turn: seq<Item>, failures: seq<Failure>, failing: bool, g: nat, m: nat, x: Item) {
    var groups := DraftOf(turn, failures, failing).groups;
    var keep := KeptOf(groups, PhasesOf(turn));
    && g < |groups| && m < |groups| && keep[g] && (m == g || Feeds(groups, keep, m, g)) && x in groups[m].items
  }

  lemma PlacedSomewhere(turn: seq<Item>, failures: seq<Failure>, failing: bool, row: Row, g: nat, x: Item)
      returns (m: nat)
    requires RowOfGroup(turn, failures, failing, row, g) && x in row.items
    ensures PlacedIn(turn, failures, failing, g, m, x)
  {
    hide MergeFrom, DraftOf, Settled, KeptOf, PhasesOf;
    var groups := DraftOf(turn, failures, failing).groups;
    m := MemberOrigin(groups, KeptOf(groups, PhasesOf(turn)), g, x);
  }

  lemma PlacedIsShown(turn: seq<Item>, failures: seq<Failure>, failing: bool, row: Row, g: nat, m: nat, x: Item)
    requires RowOfGroup(turn, failures, failing, row, g) && PlacedIn(turn, failures, failing, g, m, x)
    ensures x in row.items
  {
    hide MergeFrom, DraftOf, Settled, KeptOf, PhasesOf;
    var groups := DraftOf(turn, failures, failing).groups;
    MergedMembers(groups, KeptOf(groups, PhasesOf(turn)), 0, g, x);
  }

  /** Work is shown by the group that it was placed in. */
  lemma WorkIsOwn(turn: seq<Item>, failures: seq<Failure>, failing: bool, g: nat, m: nat, x: Item)
    requires Works(x) && PlacedIn(turn, failures, failing, g, m, x)
    ensures m == g
  {
    GroupedWork(turn, failures, failing, m, x);
    hide DraftOf, PhasesOf, Works, Kept;
  }

  lemma ItemsInOrder(groups: seq<Group>, g: nat, m: nat, w: Item, x: Item)
    requires OrderedGroups(groups) && m < g < |groups| && w in groups[g].items && x in groups[m].items
    ensures x.key < w.key
  {
    assert Before(groups[m].items, groups[g].items);
  }

  /** An item that is no late marker is undivided from an Activity exactly if it was placed there or earlier. */
  lemma UndividedIsPlaced(turn: seq<Item>, failures: seq<Failure>, failing: bool, active: bool, row: Row, g: nat,
      m: nat, x: Item)
    requires Ascending(turn) && RowOfGroup(turn, failures, failing, row, g)
             && PlacedIn(turn, failures, failing, g, m, x)
    ensures Undivided(TurnRows(turn, failures, failing, active), row, x) ==> m <= g
    ensures m <= g && !LateMarker(x) ==> Undivided(TurnRows(turn, failures, failing, active), row, x)
  {
    hide TurnRows, Settled, MergeFrom, KeptOf, PhasesOf, Messages, LateMarker, Works, Gaps, OrderedGroups;
    if g < m {
      PlacedLater(turn, failures, failing, active, row, g, m, x);
    } else if !LateMarker(x) {
      forall w, r | w in row.items && r in TurnRows(turn, failures, failing, active) && Works(w) && r.Message?
        && w.key < r.key
        ensures x.key < r.key
      {
        MessageOrigin(turn, failures, failing, active, r);
        PlacedBefore(turn, failures, failing, row, g, m, x, w, r.item);
      }
    }
  }

  lemma DraftFacts(turn: seq<Item>, failures: seq<Failure>, failing: bool)
    requires Ascending(turn)
    ensures var d := DraftOf(turn, failures, failing);
            OrderedGroups(d.groups) && Gaps(Messages(d.slots), d.groups, d.open)
  {
    DraftGaps(turn, |turn|, failures, failing);
    DraftOrdered(turn, |turn|, failures, failing);
    hide Gaps, OrderedGroups, Messages;
  }

  lemma PlacedLater(turn: seq<Item>, failures: seq<Failure>, failing: bool, active: bool, row: Row, g: nat, m: nat,
      x: Item)
    requires Ascending(turn) && RowOfGroup(turn, failures, failing, row, g)
             && PlacedIn(turn, failures, failing, g, m, x) && g < m
    ensures !Undivided(TurnRows(turn, failures, failing, active), row, x)
  {
    var d := DraftOf(turn, failures, failing);
    DraftFacts(turn, failures, failing);
    hide TurnRows, Settled, MergeFrom, DraftOf, PhasesOf, Messages, LateMarker, Works, OrderedGroups, Kept, Separated,
         Whole, Edge, Undivided;
    var y := MessageBetween(Messages(d.slots), d.groups, g, m);
    var w := KeptHasWork(d.groups[g], PhasesOf(turn));
    PlacedIsShown(turn, failures, failing, row, g, g, w);
    MessageHasRow(turn, failures, failing, active, y);
    assert w.key < y.key < x.key;
    hide *;
    Divides(TurnRows(turn, failures, failing, active), row, x, w, Message(y.key, y));
  }

  lemma Divides(rows: seq<Row>, row: Row, x: Item, w: Item, m: Row)
    requires row.Activity? && w in row.items && Works(w) && m in rows && m.Message? && w.key < m.key <= x.key
    ensures !Undivided(rows, row, x)
  {
  }

  lemma PlacedBefore(turn: seq<Item>, failures: seq<Failure>, failing: bool, row: Row, g: nat, m: nat, x: Item, w: Item,
      y: Item)
    requires Ascending(turn) && RowOfGroup(turn, failures, failing, row, g)
             && PlacedIn(turn, failures, failing, g, m, x) && m <= g
    requires w in row.items && Works(w) && !LateMarker(x)
    requires y in Messages(DraftOf(turn, failures, failing).slots) && w.key < y.key
    ensures x.key < y.key
  {
    var d := DraftOf(turn, failures, failing);
    DraftFacts(turn, failures, failing);
    WorkIsNoMarker(w);
    hide TurnRows, Settled, MergeFrom, DraftOf, PhasesOf, Messages, LateMarker, Works, OrderedGroups, Separated, Edge,
         KeptOf;
    var n := PlacedSomewhere(turn, failures, failing, row, g, w);
    WorkIsOwn(turn, failures, failing, g, n, w);
    if m < g {
      ItemsInOrder(d.groups, g, m, w, x);
    }
  }

  lemma WorkIsNoMarker(w: Item)
    requires Works(w)
    ensures !LateMarker(w)
  {
  }

  // What is placed in an Activity or before it stays there while the turn goes on.

  /** The group placed in or before g, and shown by it. */
  ghost predicate Lasting(turn: seq<Item>, failures: seq<Failure>, failing: bool, key: int, x: Item) {
    exists g: nat, m: nat :: m <= g && LastingIn(turn, failures, failing, key, x, g, m)
  }

  ghost predicate LastingIn(turn: seq<Item>, failures: seq<Failure>, failing: bool, key: int, x: Item, g: nat, m: nat) {
    && PlacedIn(turn, failures, failing, g, m, x)
    && var groups := DraftOf(turn, failures, failing).groups;
       Settled(groups, KeptOf(groups, PhasesOf(turn)))[g].key == key
  }

  lemma LastingIsShown(turn: seq<Item>, failures: seq<Failure>, failing: bool, active: bool, key: int, x: Item)
    requires Lasting(turn, failures, failing, key, x)
    ensures Anchored(TurnRows(turn, failures, failing, active), key, x)
  {
    hide TurnRows, Settled, MergeFrom, DraftOf, PhasesOf, Kept;
    var g: nat, m: nat :| m <= g && LastingIn(turn, failures, failing, key, x, g, m);
    var row := GroupHasRow(turn, failures, failing, active, g);
    PlacedIsShown(turn, failures, failing, row, g, m, x);
  }

  /** Whether an earlier group moves into g depends on nothing after g. */
  lemma EarlierFeeds(groups: seq<Group>, groups': seq<Group>, keep: seq<bool>, keep': seq<bool>, m: nat, g: nat)
    requires |keep| == |groups| && |keep'| == |groups'| && GroupsGrow(groups, groups') && OrderedGroups(groups)
    requires m < g < |groups| && keep[g] && keep'[g] && forall i | 0 <= i < g :: keep'[i] == keep[i]
    ensures Feeds(groups', keep', m, g) <==> Feeds(groups, keep, m, g)
  {
    var key := groups[m].key;
    GroupKeysAscend(groups, m, g);
    FirstAboveFacts(groups, keep, key, 0);
    FirstAboveFacts(groups', keep', key, 0);
    hide FirstAbove, LastKept, OrderedGroups;
    assert FirstAbove(groups, keep, key, 0) == Some(g) <==> FirstAbove(groups', keep', key, 0) == Some(g);
  }

  /** One more item of the turn leaves the Activity with its key, and the item in it. */
  lemma LastingStays(turn: seq<Item>, y: Item, failures: seq<Failure>, failing: bool, key: int, x: Item)
    requires Ascending(turn + [y]) && NoResult(turn) && Lasting(turn, failures, failing, key, x)
    ensures Lasting(turn + [y], failures, failing, key, x)
  {
    var more := turn + [y];
    hide OrderedGroups, Settled, PhasesOf, Kept, DraftOf, GroupsWithin, Target;
    var d, d' := DraftOf(turn, failures, failing), DraftOf(more, failures, failing);
    var keep, keep' := KeptOf(d.groups, PhasesOf(turn)), KeptOf(d'.groups, PhasesOf(more));
    var g: nat, m: nat :| m <= g && LastingIn(turn, failures, failing, key, x, g, m);
    DraftsGrow(turn, y, failures, failing);
    VisibleKeysStay(d.groups, d'.groups, turn, y);
    assert VisibleKeys(d.groups, keep)[g] == Some(key) && VisibleKeys(d'.groups, keep')[g] == Some(key);
    assert x in d'.groups[m].items;
    if m < g {
      forall i: nat | i < g ensures keep'[i] == keep[i] {
        KeptGrows(d.groups, d'.groups, turn, y, i);
      }
      EarlierFeeds(d.groups, d'.groups, keep, keep', m, g);
    }
    assert LastingIn(more, failures, failing, key, x, g, m);
  }

  // Whole logs.

  /** The Activity is among the finished rows, or the item lasts in it. */
  ghost predicate Holds(p: Projection, key: int, x: Item) {
    Anchored(p.rows, key, x) || (p.turn != [] && Lasting(p.turn, p.failures, p.failing, key, x))
  }

  lemma AnchoredMore(rows: seq<Row>, extra: seq<Row>, key: int, x: Item)
    ensures Anchored(rows + extra, key, x) <==> Anchored(rows, key, x) || Anchored(extra, key, x)
  {
    assert forall row <- rows :: row in rows + extra;
    assert forall row <- extra :: row in rows + extra;
  }

  lemma HoldsIsShown(p: Projection, active: bool, key: int, x: Item)
    requires Holds(p, key, x)
    ensures Anchored(Flush(p, active).rows, key, x)
  {
    hide TurnRows, Anchored, Lasting;
    if p.turn != [] {
      AnchoredMore(p.rows, TurnRows(p.turn, p.failures, p.failing, active), key, x);
      if !Anchored(p.rows, key, x) {
        LastingIsShown(p.turn, p.failures, p.failing, active, key, x);
      }
    }
  }

  lemma RowsGrow(p: Projection, y: Item)
    ensures if StatusOf(y, ContextCompacted) || Boundary(y) || Interjects(y)
            then Flush(p, false).rows <= Receive(p, y).rows
            else var q := p.(turn := p.turn + [y]); Receive(p, y) == if Is(y, TurnResult) then Flush(q, false) else q
  {
    if StatusOf(y, ContextCompacted) || Boundary(y) || Interjects(y) {
      RowsAfterFlush(p, y);
    }
    hide Flush, StatusOf;
  }

  lemma ReceiveHolds(p: Projection, y: Item, key: int, x: Item)
    requires NoResult(p.turn) && Ascending(p.turn + [y]) && Holds(p, key, x)
    ensures Holds(Receive(p, y), key, x)
  {
    RowsGrow(p, y);
    hide Flush, Receive, StatusOf, Anchored, Lasting;
    if StatusOf(y, ContextCompacted) || Boundary(y) || Interjects(y) {
      var flushed, rows := Flush(p, false).rows, Receive(p, y).rows;
      HoldsIsShown(p, false, key, x);
      AnchoredMore(flushed, rows[|flushed|..], key, x);
      assert flushed + rows[|flushed|..] == rows;
    } else {
      var q := p.(turn := p.turn + [y]);
      if !Anchored(p.rows, key, x) {
        LastingStays(p.turn, y, p.failures, p.failing, key, x);
      }
      HoldsIsShown(q, false, key, x);
    }
  }

  lemma {:induction false} HoldsForever(log: seq<Item>, more: seq<Item>, live': bool, key: int, x: Item)
    requires Ascending(log + more) && Holds(Received(log), key, x)
    ensures Holds(Received(log + more), key, x) && Anchored(Present(log + more, live').rows, key, x)
    decreases |more|
  {
    hide Anchored, Flush, Received, Holds;
    if more == [] {
      assert log + more == log;
    } else {
      var all := log + more;
      var shorter, y := all[..|all| - 1], all[|all| - 1];
      assert shorter == log + more[..|more| - 1];
      HoldsForever(log, more[..|more| - 1], false, key, x);
      ReceivedTurnOk(shorter);
      var p := Received(shorter);
      TurnAscends(shorter, y, p);
      ReceiveHolds(p, y, key, x);
      assert Received(all) == Receive(p, y) by {
        ReceivedNext(all);
      }
    }
    HoldsIsShown(Received(log + more), live', key, x);
  }

  // Which items hold.

  /** The turn of the Activity has ended: it is among the finished rows. */
  ghost predicate Ended(log: seq<Item>, row: Row) {
    row in Received(log).rows
  }

  lemma TurnIsLater(log: seq<Item>, x: Item, m: Row)
    requires Ascending(log) && x in Received(log).turn && m in Received(log).rows
    ensures m.key < x.key
  {
    var p := Received(log);
    ReceivedKeysOk(log, log[|log| - 1].key + 1) by {
      if log == [] {
        NothingReceived(log);
      }
    }
    var i :| 0 <= i < |p.rows| && p.rows[i] == m;
    assert Ids(p.rows)[i] in Ids(p.rows);
  }

  lemma NothingReceived(log: seq<Item>)
    requires log == []
    ensures Received(log).turn == []
  {
  }

  /** What is undivided from an Activity of the present turn lasts in it. */
  lemma UndividedLasts(log: seq<Item>, live: bool, row: Row, x: Item)
    requires Ascending(log) && row in Present(log, live).rows && row.Activity? && !Ended(log, row) && x in row.items
    requires Undivided(Present(log, live).rows, row, x)
    ensures Holds(Received(log), row.key, x)
  {
    var p := Received(log);
    ReceivedTurnOk(log);
    var rows := TurnRows(p.turn, p.failures, p.failing, live);
    assert row in rows && forall m <- rows :: m in Present(log, live).rows;
    hide Received, TurnRows, DraftOf, Settled, MergeFrom, KeptOf, Works;
    assert Undivided(rows, row, x);
    var g := ActivityOrigin(p.turn, p.failures, p.failing, live, row);
    var m := PlacedSomewhere(p.turn, p.failures, p.failing, row, g, x);
    UndividedIsPlaced(p.turn, p.failures, p.failing, live, row, g, m, x);
    assert LastingIn(p.turn, p.failures, p.failing, row.key, x, g, m);
  }

  /** The converse, but for late markers. */
  lemma PlacedIsUndivided(log: seq<Item>, live: bool, row: Row, g: nat, m: nat, x: Item)
    requires var p := Received(log);
             && Ascending(log) && row in Present(log, live).rows && m <= g && !LateMarker(x)
             && RowOfGroup(p.turn, p.failures, p.failing, row, g) && PlacedIn(p.turn, p.failures, p.failing, g, m, x)
    ensures Undivided(Present(log, live).rows, row, x)
  {
    var p := Received(log);
    ReceivedTurnOk(log);
    var rows, all := TurnRows(p.turn, p.failures, p.failing, live), Present(log, live).rows;
    assert forall r <- all :: r in p.rows || (p.turn != [] && r in rows);
    hide Received, Present, TurnRows, DraftOf, Settled, MergeFrom, KeptOf, Works, LateMarker;
    UndividedIsPlaced(p.turn, p.failures, p.failing, live, row, g, m, x);
    forall w, r | w in row.items && r in all && Works(w) && r.Message? && w.key < r.key ensures x.key < r.key {
      var n := PlacedSomewhere(p.turn, p.failures, p.failing, row, g, w);
      PlacedIsInTurn(p.turn, p.failures, p.failing, g, n, w);
      if r in p.rows {
        TurnIsLater(log, w, r);
      }
    }
  }

  lemma PlacedIsInTurn(turn: seq<Item>, failures: seq<Failure>, failing: bool, g: nat, m: nat, x: Item)
    requires PlacedIn(turn, failures, failing, g, m, x)
    ensures x in turn
  {
    GroupsFromTurn(turn, |turn|, failures, failing);
  }

  lemma EndedHolds(log: seq<Item>, row: Row, x: Item)
    requires Ended(log, row) && row.Activity? && x in row.items
    ensures Holds(Received(log), row.key, x)
  {
    hide Received;
  }

  lemma WorkHolds(log: seq<Item>, live: bool, row: Row, x: Item)
    requires Ascending(log) && row in Present(log, live).rows && row.Activity? && x in row.items && Works(x)
    ensures Holds(Received(log), row.key, x)
  {
    var p := Received(log);
    if Ended(log, row) {
      EndedHolds(log, row, x);
    } else {
      assert row in TurnRows(p.turn, p.failures, p.failing, live);
      hide Received, Present, TurnRows, DraftOf, Settled, MergeFrom, KeptOf, Works;
      var g := ActivityOrigin(p.turn, p.failures, p.failing, live, row);
      var m := PlacedSomewhere(p.turn, p.failures, p.failing, row, g, x);
      WorkIsOwn(p.turn, p.failures, p.failing, g, m, x);
      WorkIsNoMarker(x);
      PlacedIsUndivided(log, live, row, g, g, x);
      UndividedLasts(log, live, row, x);
    }
  }

  /** An Activity keeps its key and its work for as long as the log goes on. */
  lemma WorkKeepsItsActivity(log: seq<Item>, more: seq<Item>, live: bool, live': bool, row: Row, x: Item)
    requires Ascending(log + more) && row in Present(log, live).rows && row.Activity? && x in row.items && Works(x)
    ensures Anchored(Present(log + more, live').rows, row.key, x)
  {
    hide Present, Works, Holds, Anchored;
    AscendingPart(log, more);
    WorkHolds(log, live, row, x);
    HoldsForever(log, more, live', row.key, x);
  }

  lemma AscendingPart(log: seq<Item>, more: seq<Item>)
    requires Ascending(log + more)
    ensures Ascending(log)
  {
    forall i, j | 0 <= i < j < |log| ensures log[i].key < log[j].key {
      assert (log + more)[i].key < (log + more)[j].key;
    }
  }

  // From an operation to the row that shows it.

  lemma {:induction false} AttachedMember(operations: seq<Operation>, owners: map<int, nat>, row: nat, o: Operation)
    requires o in operations && OwnerOf(o.members, owners) == Some(row)
    ensures AttachedTo(operations, owners, row) != []
  {
    hide OwnerOf;
    if o != operations[|operations| - 1] {
      AttachedMember(operations[..|operations| - 1], owners, row, o);
    }
  }

  lemma {:induction false} OwnerShows(rows: seq<Row>, n: nat, key: int)
    requires n <= |rows| && key in Owners(rows, n)
    ensures var r := Owners(rows, n)[key];
            r < n && rows[r].Activity? && exists x <- rows[r].items :: x.key == key
  {
    if rows[n - 1].Activity? {
      WithOwnerFacts(Owners(rows, n - 1), rows[n - 1].items, n - 1, key);
    }
    hide WithOwner;
    if key in Owners(rows, n - 1) {
      OwnerShows(rows, n - 1, key);
    }
  }

  lemma {:induction false} RowStays(rows: seq<Row>, operations: seq<Operation>, owners: map<int, nat>, n: nat, r: nat)
    requires r < n <= |rows| && AttachedTo(operations, owners, r) != []
    ensures IdOf(rows[r]) in ProjectedIds(Projected(rows, operations, owners, n))
  {
    hide *;
    IdsAfterRow(rows, operations, owners, n);
    if r < n - 1 {
      RowStays(rows, operations, owners, n - 1, r);
    }
  }

  /** Keys are distinct, so an item of the log is told by its key. */
  lemma ShownKeyIsItem(log: seq<Item>, live: bool, row: Row, x: Item, y: Item)
    requires Ascending(log) && x in log && row in Present(log, live).rows && row.Activity? && y in row.items
             && y.key == x.key
    ensures y == x
  {
    hide Present;
    ActivityItemsAscend(log, live, row);
    hide Ascending;
    KeyIsIdentity(log, y, x);
  }

  /** One row shows the item, so the Activity that owns its key is the one with the item's row key. */
  lemma OwnerIsAnchor(log: seq<Item>, live: bool, key: int, x: Item) returns (r: nat)
    requires Ascending(log) && x in log && Anchored(Present(log, live).rows, key, x)
    ensures var rows := Present(log, live).rows;
            && x.key in Owners(rows, |rows|) && Owners(rows, |rows|)[x.key] == r < |rows|
            && rows[r].Activity? && rows[r].key == key
  {
    var rows := Present(log, live).rows;
    var row :| row in rows && row.Activity? && row.key == key && x in row.items;
    hide Present, Owners;
    assert rows[..|rows|] == rows;
    ShownHasOwner(rows, |rows|, row, x);
    OwnerShows(rows, |rows|, x.key);
    r := Owners(rows, |rows|)[x.key];
    var y :| y in rows[r].items && y.key == x.key;
    ShownKeyIsItem(log, live, rows[r], x, y);
    OneRowShows(log, live, row, rows[r], x);
  }

  lemma OneRowShows(log: seq<Item>, live: bool, a: Row, b: Row, x: Item)
    requires Ascending(log) && a in Present(log, live).rows && b in Present(log, live).rows
    requires a.Activity? && b.Activity? && x in a.items && x in b.items
    ensures a == b
  {
    var rows := Present(log, live).rows;
    AccountedOnce(log, live, x);
    hide Present;
    if a != b {
      TwoRowsHold(rows, a, b, x);
    }
  }

  lemma {:induction false} TwoRowsHold(rows: seq<Row>, a: Row, b: Row, x: Item)
    requires a in rows && b in rows && a != b && a.Activity? && b.Activity? && x in a.items && x in b.items
    ensures RowItems(rows)[x] >= 2
  {
    var n := |rows| - 1;
    assert rows == rows[..n] + [rows[n]];
    assert x in multiset(a.items) && x in multiset(b.items);
    if a != rows[n] && b != rows[n] {
      TwoRowsHold(rows[..n], a, b, x);
    } else {
      RowHolds(rows[..n], if a == rows[n] then b else a);
    }
  }

  lemma ShownIsLogged(log: seq<Item>, more: seq<Item>, live: bool, row: Row, x: Item)
    requires Ascending(log + more) && row in Present(log, live).rows && row.Activity? && x in row.items
    ensures x in log + more
  {
    hide Present;
    AscendingPart(log, more);
    ActivityItemsAscend(log, live, row);
  }

  /** The turn of the Activity has ended, or it shows an undivided item that begins an operation. */
  ghost predicate Rooted(log: seq<Item>, live: bool, row: Row)
    requires row.Activity?
  {
    Ended(log, row) || exists x <- row.items :: Begins(log, live, x) && Undivided(Present(log, live).rows, row, x)
  }

  /** The projected conversation shows an Activity with this key. */
  ghost predicate OnShow(log: seq<Item>, live: bool, key: int) {
    ActivityId(key) in ProjectedIds(ProjectConversation(log, live))
  }

  /** The Activity that shows an item which begins an operation survives. */
  lemma BeginnerIsOnShow(log: seq<Item>, live: bool, key: int, x: Item)
    requires Ascending(log) && x in log && Anchored(Present(log, live).rows, key, x) && Begins(log, live, x)
    ensures OnShow(log, live, key)
  {
    var rows := Present(log, live).rows;
    var r := OwnerIsAnchor(log, live, key, x);
    hide Present, Owners, Operations, Projected, ProjectedIds;
    var o :| o in Operations(log, live) && o.members != [] && o.members[0] == x.key;
    assert OwnerOf(o.members, Owners(rows, |rows|)) == Some(r);
    AttachedMember(Operations(log, live), Owners(rows, |rows|), r, o);
    RowStays(rows, Operations(log, live), Owners(rows, |rows|), |rows|, r);
  }

  lemma BeginnerStays(log: seq<Item>, more: seq<Item>, live: bool, live': bool, row: Row, x: Item)
    requires Ascending(log + more) && row in Present(log, live).rows && row.Activity? && x in row.items
    requires Begins(log, live, x) && Holds(Received(log), row.key, x)
    ensures OnShow(log + more, live', row.key)
  {
    ShownIsLogged(log, more, live, row, x);
    HoldsForever(log, more, live', row.key, x);
    hide Present, Operations, OnShow, Anchored;
    var o :| o in Operations(log, live) && o.members != [] && o.members[0] == x.key;
    var o' := BeginsLater(log, more, live, live', o);
    BeginnerIsOnShow(log + more, live', row.key, x);
  }
}
