/** Work is always on show: every item of work is in a visible Activity of the transcript. */
module TranscriptWork {
  import opened ConversationItems
  import opened Transcript
  import opened TranscriptConservation

  /** An item that is work in its turn. */
  predicate WorkOf(turn: seq<Item>, x: Item) {
    x in turn && !RunFailed(x) && WorkItem(x, PhasesOf(turn))
  }

  ghost predicate Shows(rows: seq<Row>, x: Item) {
    exists row <- rows :: row.Activity? && x in row.items
  }

  lemma {:induction false} SlotForGroup(slots: seq<Slot>, n: nat, g: nat)
    requires RefersTo(slots, n) && g < n
    ensures GroupSlot(g) in slots
  {
    var last, shorter := slots[|slots| - 1], slots[..|slots| - 1];
    assert slots == shorter + [last];
    if last != GroupSlot(g) {
      SlotForGroup(shorter, if last.GroupSlot? then n - 1 else n, g);
    }
  }

  lemma {:induction false} RowForSlot(slots: seq<Slot>, slot: Slot, groups: seq<Group>, keep: seq<bool>, flags: Flags)
    requires |keep| == |groups| && slot in slots && RowOf(slot, groups, keep, flags).Some?
    ensures RowOf(slot, groups, keep, flags).value in RowsOf(slots, groups, keep, flags)
  {
    hide RowOf;
    if slot != slots[|slots| - 1] {
      RowForSlot(slots[..|slots| - 1], slot, groups, keep, flags);
    }
  }

  lemma {:induction false} KeptMembers(groups: seq<Group>, keep: seq<bool>, n: nat, x: Item) returns (g: nat)
    requires |keep| == |groups| && n <= |groups| && x in KeptItems(groups, keep, n)
    ensures g < n && keep[g] && x in groups[g].items
  {
    if x in KeptItems(groups, keep, n - 1) {
      g := KeptMembers(groups, keep, n - 1, x);
    } else {
      g := n - 1;
      assert x in multiset(groups[g].items);
    }
  }

  lemma DisclosedWork(turn: seq<Item>, x: Item)
    requires WorkOf(turn, x)
    ensures x in Disclosed(turn, |turn|) && !Idle(turn)
  {
    WorkIsBackground(x, PhasesOf(turn));
    hide RunFailed, WorkItem, PhasesOf, Disclosed;
    var i :| 0 <= i < |turn| && turn[i] == x;
    WorkIsDisclosed(turn, |turn|, i);
  }

  lemma GroupShown(slots: seq<Slot>, groups: seq<Group>, keep: seq<bool>, flags: Flags, g: nat, x: Item)
    requires |keep| == |groups| && RefersTo(slots, |groups|) && g < |groups| && keep[g] && x in groups[g].items
    ensures Shows(RowsOf(slots, groups, keep, flags), x)
  {
    SlotForGroup(slots, |groups|, g);
    RowForSlot(slots, GroupSlot(g), groups, keep, flags);
  }

  lemma TurnShowsWork(turn: seq<Item>, failures: seq<Failure>, failing: bool, active: bool, x: Item)
    requires WorkOf(turn, x)
    ensures Shows(TurnRows(turn, failures, failing, active), x)
  {
    var d := DraftOf(turn, failures, failing);
    var keep := KeptOf(d.groups, PhasesOf(turn));
    DraftRefers(turn, |turn|, failures, failing);
    DisclosedItems(turn, |turn|, failures, failing);
    DisclosedWork(turn, x);
    KeptIffWork(turn, failures, failing);
    assert x in GroupItems(d.groups) by {
      assert x in multiset(Disclosed(turn, |turn|));
    }
    hide DraftAt, KeptOf, Settled, Idle, RowsOf, FlagsOf, KeptItems, AnyKept, RefersTo, GroupItems, Shows;
    SettledItems(d.groups, keep);
    var g := KeptMembers(Settled(d.groups, keep), keep, |d.groups|, x);
    GroupShown(d.slots, Settled(d.groups, keep), keep, FlagsOf(turn, failures, failing, keep, active), g, x);
  }

  // Whole logs.

  /** All work of these turns is on show. */
  ghost predicate ShowsAll(rows: seq<Row>, turns: seq<seq<Item>>) {
    forall turn <- turns :: ShowsWork(rows, turn)
  }

  ghost predicate ShowsWork(rows: seq<Row>, turn: seq<Item>) {
    forall x | WorkOf(turn, x) :: Shows(rows, x)
  }

  lemma MoreRowsShow(rows: seq<Row>, extra: seq<Row>, turns: seq<seq<Item>>)
    requires ShowsAll(rows, turns)
    ensures ShowsAll(rows + extra, turns)
  {
    hide WorkOf;
    forall turn, x | turn in turns && WorkOf(turn, x) ensures Shows(rows + extra, x) {
      assert ShowsWork(rows, turn);
      var row :| row in rows && row.Activity? && x in row.items;
      assert row in rows + extra;
    }
  }

  lemma FlushShows(p: Projection, active: bool, turns: seq<seq<Item>>)
    requires ShowsAll(p.rows, turns)
    ensures ShowsAll(Flush(p, active).rows, turns + [p.turn])
  {
    var flushed := Flush(p, active).rows;
    hide Flush, WorkOf, Shows, TurnRows;
    FlushAppends(p, active);
    MoreRowsShow(p.rows, flushed[|p.rows|..], turns);
    assert p.rows + flushed[|p.rows|..] == flushed;
    forall x | WorkOf(p.turn, x) ensures Shows(flushed, x) {
      FlushShowsOne(p, active, x);
    }
  }

  lemma FlushAppends(p: Projection, active: bool)
    ensures p.rows <= Flush(p, active).rows
  {
    hide TurnRows;
  }

  lemma FlushShowsOne(p: Projection, active: bool, x: Item)
    requires WorkOf(p.turn, x)
    ensures Shows(Flush(p, active).rows, x)
  {
    TurnShowsWork(p.turn, p.failures, p.failing, active, x);
    hide TurnRows, WorkItem;
    var row :| row in TurnRows(p.turn, p.failures, p.failing, active) && row.Activity? && x in row.items;
    assert row in Flush(p, active).rows;
  }

  lemma ReceiveShows(p: Projection, x: Item, turns: seq<seq<Item>>)
    requires ShowsAll(p.rows, turns)
    ensures ShowsAll(Receive(p, x).rows, turns + EndedBy(p, x))
  {
    var flushed := Flush(p, false);
    FlushShows(p, false, turns);
    FlushedTurn(p);
    MoreRowsShow(flushed.rows, [Message(x.key, x)], turns + [p.turn]);
    hide Flush, ShowsAll;
    if StatusOf(x, ContextCompacted) {
    } else if Boundary(x) {
      BoundaryReceived(p, x);
    } else if Interjects(x) {
    } else if Is(x, TurnResult) {
      FlushShows(p.(turn := p.turn + [x]), false, turns);
    } else {
      assert turns + [] == turns;
    }
  }

  lemma {:induction false} ReceivedShows(log: seq<Item>)
    ensures ShowsAll(Received(log).rows, EndedTurns(log))
  {
    if log != [] {
      hide ShowsAll, Receive, EndedBy;
      ReceivedShows(log[..|log| - 1]);
      ReceiveShows(Received(log[..|log| - 1]), log[|log| - 1], EndedTurns(log[..|log| - 1]));
    }
  }

  /** Whatever is work in its turn is a member of a visible Activity. */
  lemma WorkIsShown(log: seq<Item>, live: bool, turn: seq<Item>, x: Item)
    requires turn in Turns(log) && WorkOf(turn, x)
    ensures Shows(Present(log, live).rows, x)
  {
    ReceivedShows(log);
    FlushShows(Received(log), live, EndedTurns(log));
    hide Flush, Received, EndedTurns, WorkOf;
    assert ShowsWork(Present(log, live).rows, turn);
  }

  /**
   A turn of a log is one that had ended before its last item, or the unfinished one of before, or that item alone.
  */
  lemma TurnsOf(log: seq<Item>, turn: seq<Item>, x: Item)
    requires log != [] && turn in Turns(log) && x in turn
    ensures var shorter := log[..|log| - 1];
            turn in Turns(shorter) || x in Received(shorter).turn || x == log[|log| - 1]
  {
    var shorter, last := log[..|log| - 1], log[|log| - 1];
    TurnAfter(Received(shorter), last);
    assert Received(log) == Receive(Received(shorter), last);
    hide Received, Receive, StatusOf, Boundary, Interjects, Is;
  }

  lemma {:induction false} TurnsAreInLog(log: seq<Item>, turn: seq<Item>, x: Item)
    requires turn in Turns(log) && x in turn
    ensures x in log
  {
    if log != [] {
      var shorter := log[..|log| - 1];
      TurnsOf(log, turn, x);
      assert Received(shorter).turn in Turns(shorter);
      hide Turns, Received;
      if turn in Turns(shorter) {
        TurnsAreInLog(shorter, turn, x);
      } else if x in Received(shorter).turn {
        TurnsAreInLog(shorter, Received(shorter).turn, x);
      }
    }
  }

  lemma {:induction false} ItemHasTurn(log: seq<Item>, x: Item)
    requires x in log && !StatusOf(x, ContextCompacted) && !Interjects(x)
    ensures exists turn <- Turns(log) :: x in turn
  {
    var shorter, last := log[..|log| - 1], log[|log| - 1];
    var p := Received(shorter);
    assert log == shorter + [last];
    ReceiveKeepsTurn(p, last);
    assert Received(log) == Receive(p, last);
    assert EndedTurns(log) == EndedTurns(shorter) + EndedBy(p, last);
    hide Received, Receive, EndedTurns, EndedBy, StatusOf;
    if x in shorter {
      ItemHasTurn(shorter, x);
      var turn :| turn in Turns(shorter) && x in turn;
      if turn !in EndedTurns(shorter) {
        var turn' :| turn' in EndedBy(p, last) + [Receive(p, last).turn] && x in turn';
        assert turn' in Turns(log);
      } else {
        assert turn in Turns(log);
      }
    } else {
      var turn' :| turn' in EndedBy(p, last) + [Receive(p, last).turn] && last in turn';
      assert turn' in Turns(log);
    }
  }

  lemma TurnAfter(p: Projection, x: Item)
    ensures Receive(p, x).turn ==
            if StatusOf(x, ContextCompacted) || Interjects(x) || (Is(x, TurnResult) && !Boundary(x)) then []
            else if Boundary(x) then [x] else p.turn + [x]
  {
    FlushedTurn(p);
    FlushedTurn(p.(turn := p.turn + [x]));
    hide Flush, StatusOf;
    if Boundary(x) {
      BoundaryReceived(p, x);
      assert [] + [x] == [x];
      BoundaryIsStatus(x);
    }
  }

  lemma BoundaryIsStatus(x: Item)
    ensures Boundary(x) ==> !Is(x, TurnResult) && !StatusOf(x, ContextCompacted)
  {
  }

  /**
   Receiving an item keeps what is collected within the turns, and the item itself unless it ends or interrupts one.
   */
  lemma ReceiveKeepsTurn(p: Projection, x: Item)
    ensures forall y <- p.turn :: exists turn <- EndedBy(p, x) + [Receive(p, x).turn] :: y in turn
    ensures !StatusOf(x, ContextCompacted) && !Interjects(x)
            ==> exists turn <- EndedBy(p, x) + [Receive(p, x).turn] :: x in turn
  {
    var all := EndedBy(p, x) + [Receive(p, x).turn];
    TurnAfter(p, x);
    BoundaryIsStatus(x);
    hide Receive, StatusOf, Interjects, Boundary;
    var first := all[0];
    assert first in all;
    assert all[|all| - 1] == Receive(p, x).turn && Receive(p, x).turn in all;
    assert first == p.turn || first == p.turn + [x];
  }

  /** Tool calls and results, and images that did not fail, are work whatever their turn. */
  lemma ToolsAreWork(log: seq<Item>, x: Item)
    requires x in log && (ToolItem(x) || (TraceImage(x) && !Failed(x)))
    ensures exists turn <- Turns(log) :: WorkOf(turn, x)
  {
    ItemHasTurn(log, x);
    var turn :| turn in Turns(log) && x in turn;
    hide PhasesOf;
    assert WorkOf(turn, x);
  }
}
