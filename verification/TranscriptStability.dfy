/** Later events never hide a row that has been shown, turn it into another kind of row, or change its key. */
module TranscriptStability {
  import opened Wrappers
  import opened ConversationItems
  import opened Transcript
  import opened TranscriptDrafts
  import opened TranscriptMerge
  import opened Subsequences

  // What identifies a row to the reader.
  datatype RowId = MessageId(key: int) | ActivityId(key: int) | FailureId(key: int)

  function IdOf(row: Row): RowId {
    match row
    case Message(key, _) => MessageId(key)
    case AnswerRow(key, _) => MessageId(key)
    case Activity(key, _, _, _) => ActivityId(key)
    case FailureRow(key, _) => FailureId(key)
  }

  function Ids(rows: seq<Row>): (ids: seq<RowId>)
    ensures |ids| == |rows|
  {
    seq(|rows|, i requires 0 <= i < |rows| => IdOf(rows[i]))
  }

  lemma IdsConcat(a: seq<Row>, b: seq<Row>)
    ensures Ids(a + b) == Ids(a) + Ids(b)
  {
  }

  // The keys of the groups that are shown.
  function VisibleKeys(groups: seq<Group>, keep: seq<bool>): (keys: seq<Option<int>>)
    requires |keep| == |groups|
    ensures |keys| == |groups|
  {
    seq(|groups|, i requires 0 <= i < |groups| => if keep[i] then Some(Settled(groups, keep)[i].key) else None)
  }

  function SlotIds(slots: seq<Slot>, keys: seq<Option<int>>): seq<RowId> {
    if slots == [] then []
    else SlotIds(slots[..|slots| - 1], keys) + SlotId(slots[|slots| - 1], keys)
  }

  function SlotId(slot: Slot, keys: seq<Option<int>>): seq<RowId> {
    match slot
    case MessageSlot(item) => [MessageId(item.key)]
    case AnswerSlot(answer) => [MessageId(answer.key)]
    case FailureSlot(key, _) => [FailureId(key)]
    case GroupSlot(g) => if g < |keys| && keys[g].Some? then [ActivityId(keys[g].value)] else []
  }

  lemma {:induction false} RowsAreSlots(slots: seq<Slot>, groups: seq<Group>, keep: seq<bool>, flags: Flags)
    requires |keep| == |groups|
    ensures Ids(RowsOf(slots, Settled(groups, keep), keep, flags)) == SlotIds(slots, VisibleKeys(groups, keep))
  {
    if slots != [] {
      RowsAreSlots(slots[..|slots| - 1], groups, keep, flags);
      var row := RowOf(slots[|slots| - 1], Settled(groups, keep), keep, flags);
      IdsConcat(RowsOf(slots[..|slots| - 1], Settled(groups, keep), keep, flags), if row.Some? then [row.value]
        else []);
    }
  }

  /** Every shown group is still shown, under the same key. */
  ghost predicate StillShown(keys: seq<Option<int>>, keys': seq<Option<int>>) {
    |keys| <= |keys'| && forall i | 0 <= i < |keys| && keys[i].Some? :: keys'[i] == keys[i]
  }

  lemma {:induction false} SlotsStillShown(slots: seq<Slot>, keys: seq<Option<int>>, keys': seq<Option<int>>)
    requires StillShown(keys, keys')
    ensures Sub(SlotIds(slots, keys), SlotIds(slots, keys'))
  {
    if slots != [] {
      var shorter := slots[..|slots| - 1];
      var one, two := SlotId(slots[|slots| - 1], keys), SlotId(slots[|slots| - 1], keys');
      var ids, ids' := SlotIds(shorter, keys), SlotIds(shorter, keys');
      SlotsStillShown(shorter, keys, keys');
      if one == [] {
        assert ids + one == ids;
        SubMore(ids, ids', two);
      } else {
        SubBoth(ids, ids', one[0]);
        assert one == two == [one[0]];
      }
    }
  }

  lemma {:induction false} MoreSlotsStillShown(slots: seq<Slot>, extra: seq<Slot>, keys: seq<Option<int>>)
    ensures Sub(SlotIds(slots, keys), SlotIds(slots + extra, keys))
    decreases |extra|
  {
    hide Sub, SlotId;
    if extra == [] {
      assert slots + extra == slots;
      SubItself(SlotIds(slots, keys));
    } else {
      var all := slots + extra;
      assert all[..|all| - 1] == slots + extra[..|extra| - 1];
      MoreSlotsStillShown(slots, extra[..|extra| - 1], keys);
      SubMore(SlotIds(slots, keys), SlotIds(all[..|all| - 1], keys), SlotId(all[|all| - 1], keys));
    }
  }

  // One more item.

  lemma KeptGrows(groups: seq<Group>, groups': seq<Group>, turn: seq<Item>, x: Item, i: nat)
    requires GroupsGrow(groups, groups') && GroupsWithin(groups, turn) && i < |groups|
    ensures Kept(groups[i], PhasesOf(turn)) ==> Kept(groups'[i], PhasesOf(turn + [x]))
    ensures i + 1 < |groups| ==> Kept(groups'[i], PhasesOf(turn + [x])) == Kept(groups[i], PhasesOf(turn))
  {
    forall item | item in groups[i].items
      ensures WorkItem(item, PhasesOf(turn + [x])) == WorkItem(item, PhasesOf(turn)) && item in groups'[i].items
    {
      PhaseStable(turn, x, item);
    }
  }

  lemma VisibleKeysStay(groups: seq<Group>, groups': seq<Group>, turn: seq<Item>, x: Item)
    requires GroupsGrow(groups, groups') && GroupsWithin(groups, turn)
    requires OrderedGroups(groups) && OrderedGroups(groups')
    ensures StillShown(VisibleKeys(groups, KeptOf(groups, PhasesOf(turn))),
                       VisibleKeys(groups', KeptOf(groups', PhasesOf(turn + [x]))))
  {
    var keep, keep' := KeptOf(groups, PhasesOf(turn)), KeptOf(groups', PhasesOf(turn + [x]));
    forall i | 0 <= i < |groups| && keep[i]
      ensures keep'[i] && Settled(groups', keep')[i].key == Settled(groups, keep)[i].key
    {
      forall m: nat | m <= i ensures (m < i ==> keep'[m] == keep[m]) && (keep[m] ==> keep'[m]) {
        KeptGrows(groups, groups', turn, x, m);
      }
      FeedSame(keep, keep', i);
      SettledKey(groups, keep, i);
      SettledKey(groups', keep', i);
    }
  }

  function TurnIds(turn: seq<Item>, failures: seq<Failure>, failing: bool): seq<RowId> {
    var d := DraftOf(turn, failures, failing);
    SlotIds(d.slots, VisibleKeys(d.groups, KeptOf(d.groups, PhasesOf(turn))))
  }

  lemma TurnRowIds(turn: seq<Item>, failures: seq<Failure>, failing: bool, active: bool)
    ensures Ids(TurnRows(turn, failures, failing, active)) == TurnIds(turn, failures, failing)
  {
    var d := DraftOf(turn, failures, failing);
    var keep := KeptOf(d.groups, PhasesOf(turn));
    RowsAreSlots(d.slots, d.groups, keep, FlagsOf(turn, failures, failing, keep, active));
  }

  lemma AscendingPrefix(turn: seq<Item>, x: Item)
    requires Ascending(turn + [x])
    ensures Ascending(turn)
  {
    forall i, j | 0 <= i < j < |turn| ensures turn[i].key < turn[j].key {
      assert (turn + [x])[i].key < (turn + [x])[j].key;
    }
  }

  /** The draft of a turn, and that of the turn with one more item. */
  lemma DraftsGrow(turn: seq<Item>, x: Item, failures: seq<Failure>, failing: bool)
    requires Ascending(turn + [x]) && NoResult(turn)
    ensures var d, d' := DraftOf(turn, failures, failing), DraftOf(turn + [x], failures, failing);
            && d.slots <= d'.slots && GroupsGrow(d.groups, d'.groups) && GroupsWithin(d.groups, turn)
            && OrderedGroups(d.groups) && OrderedGroups(d'.groups)
  {
    var more := turn + [x];
    assert more[..|turn|] == turn && more[|turn|] == x;
    AscendingPrefix(turn, x);
    DraftPrefix(turn, x, |turn|, failures, failing);
    hide Place, OrderedGroups, AllBelow, GroupsWithin, GroupsGrow, GroupsAfter, PhasesOf, TextsOf;
    var d, d' := DraftOf(turn, failures, failing), DraftOf(more, failures, failing);
    assert d' == Place(d, x, PhasesOf(more), TextsOf(more, PhasesOf(more)));
    assert DraftAt(more, |turn|, failures, failing) == d;
    DraftOrdered(more, |turn|, failures, failing);
    GroupsFromTurn(turn, |turn|, failures, failing);
    hide DraftAt, DraftOf;
    PlacedGroups(d, x, PhasesOf(more), TextsOf(more, PhasesOf(more)));
    PlaceGrows(d, x, PhasesOf(more));
  }

  lemma OneMoreItem(turn: seq<Item>, x: Item, failures: seq<Failure>, failing: bool)
    requires Ascending(turn + [x]) && NoResult(turn)
    ensures Sub(TurnIds(turn, failures, failing), TurnIds(turn + [x], failures, failing))
  {
    hide DraftOf, SlotIds, VisibleKeys, KeptOf, OrderedGroups, GroupsWithin, GroupsGrow, PhasesOf, Sub, StillShown,
         Ascending;
    DraftsGrow(turn, x, failures, failing);
    var d, d' := DraftOf(turn, failures, failing), DraftOf(turn + [x], failures, failing);
    var keys := VisibleKeys(d.groups, KeptOf(d.groups, PhasesOf(turn)));
    var keys' := VisibleKeys(d'.groups, KeptOf(d'.groups, PhasesOf(turn + [x])));
    VisibleKeysStay(d.groups, d'.groups, turn, x);
    SlotsStillShown(d.slots, keys, keys');
    MoreSlotsStillShown(d.slots, d'.slots[|d.slots|..], keys');
    assert d.slots + d'.slots[|d.slots|..] == d'.slots;
    SubTransitive(SlotIds(d.slots, keys), SlotIds(d.slots, keys'), SlotIds(d'.slots, keys'));
  }

  // Whole logs.

  function ShownIds(p: Projection): seq<RowId> {
    Ids(Flush(p, false).rows)
  }

  lemma FlushedIds(p: Projection, active: bool)
    ensures Ids(Flush(p, active).rows) == Ids(p.rows) + if p.turn == [] then []
            else TurnIds(p.turn, p.failures, p.failing)
  {
    if p.turn != [] {
      TurnRowIds(p.turn, p.failures, p.failing, active);
      IdsConcat(p.rows, TurnRows(p.turn, p.failures, p.failing, active));
    }
  }

  /** What holds of the turn being collected: it is a stretch of the log without a result. */
  ghost predicate TurnOk(p: Projection, log: seq<Item>) {
    && NoResult(p.turn)
    && Ascending(p.turn)
    && (forall x <- p.turn :: x in log)
  }

  lemma FlushEndsTurn(p: Projection, active: bool)
    ensures Flush(p, active).turn == [] && p.rows <= Flush(p, active).rows
  {
  }

  lemma ReceivedTurn(p: Projection, x: Item)
    ensures var turn := Receive(p, x).turn;
            turn == [] || (!Is(x, TurnResult) && (turn == p.turn + [x] || turn == [x]))
  {
    hide Flush, StatusOf, Interjects;
    FlushEndsTurn(p, false);
    var ended := Historical(Flush(p, false));
    FlushEndsTurn(ended, false);
    FlushEndsTurn(ended.(turn := ended.turn + [x]), false);
    FlushEndsTurn(p.(turn := p.turn + [x]), false);
    assert [] + [x] == [x];
  }

  lemma TurnStaysOk(p: Projection, shorter: seq<Item>, x: Item)
    requires TurnOk(p, shorter) && Ascending(shorter + [x])
    ensures TurnOk(Receive(p, x), shorter + [x])
  {
    var log := shorter + [x];
    forall y | y in p.turn ensures y in log && y.key < x.key {
      var i :| 0 <= i < |shorter| && shorter[i] == y;
      assert log[i] == y && log[|shorter|] == x;
    }
    ReceivedTurn(p, x);
    hide Receive, Is;
  }

  lemma {:induction false} ReceivedTurnOk(log: seq<Item>)
    requires Ascending(log)
    ensures TurnOk(Received(log), log)
  {
    hide TurnOk, Receive;
    if log == [] {
      NothingIsOk();
    } else {
      var shorter, x := log[..|log| - 1], log[|log| - 1];
      assert log == shorter + [x];
      ReceivedTurnOk(shorter);
      TurnStaysOk(Received(shorter), shorter, x);
    }
  }

  lemma NothingIsOk()
    ensures TurnOk(NOTHING, [])
  {
  }

  /** Receiving an item only adds to the rows that would be shown without it. */
  lemma ReceiveKeepsShown(p: Projection, x: Item)
    requires NoResult(p.turn) && Ascending(p.turn + [x])
    ensures Sub(ShownIds(p), ShownIds(Receive(p, x)))
  {
    var p' := Receive(p, x);
    FlushedIds(p, false);
    FlushedIds(p', false);
    if StatusOf(x, ContextCompacted) || Boundary(x) || Interjects(x) {
      // The turn was flushed first; whatever follows comes after its rows.
      FlushedFirst(p, x);
    } else {
      var q := p.(turn := p.turn + [x]);
      FlushedIds(q, false);
      assert ShownIds(p') == ShownIds(q);
      OneMoreItem(p.turn, x, p.failures, p.failing);
      if p.turn == [] {
        SubMore(Ids(p.rows), Ids(p.rows), TurnIds(q.turn, q.failures, q.failing)) by { SubItself(Ids(p.rows)); }
      } else {
        SubAfter(Ids(p.rows), TurnIds(p.turn, p.failures, p.failing), TurnIds(q.turn, q.failures, q.failing));
      }
    }
  }

  lemma RowsAfterFlush(p: Projection, x: Item)
    requires StatusOf(x, ContextCompacted) || Boundary(x) || Interjects(x)
    ensures Flush(p, false).rows <= Receive(p, x).rows
  {
    FlushEndsTurn(p, false);
  }

  lemma FlushedFirst(p: Projection, x: Item)
    requires StatusOf(x, ContextCompacted) || Boundary(x) || Interjects(x)
    ensures Sub(ShownIds(p), ShownIds(Receive(p, x)))
  {
    var flushed := Flush(p, false).rows;
    var all := Flush(Receive(p, x), false).rows;
    RowsAfterFlush(p, x);
    FlushEndsTurn(Receive(p, x), false);
    hide Receive, Flush, Ids, StatusOf, Boundary, Interjects;
    var extra := all[|flushed|..];
    assert all == flushed + extra;
    IdsConcat(flushed, extra);
    SubItself(Ids(flushed));
    SubMore(Ids(flushed), Ids(flushed), Ids(extra));
  }

  lemma TurnAscends(log: seq<Item>, x: Item, p: Projection)
    requires Ascending(log + [x]) && TurnOk(p, log)
    ensures Ascending(p.turn + [x])
  {
    forall y | y in p.turn ensures y.key < x.key {
      var i :| 0 <= i < |log| && log[i] == y;
      assert (log + [x])[i] == y && (log + [x])[|log|] == x;
    }
  }

  lemma ShownEitherWay(log: seq<Item>, live: bool)
    ensures Ids(Present(log, live).rows) == ShownIds(Received(log))
  {
    FlushedIds(Received(log), live);
    FlushedIds(Received(log), false);
    hide TurnIds, Flush, Received, Ids;
  }

  lemma ReceivedOne(log: seq<Item>, x: Item)
    ensures Received(log + [x]) == Receive(Received(log), x)
  {
    assert (log + [x])[..|log|] == log;
    hide Receive;
  }

  /**
   For any log and any continuation of it, the rows shown for the log, as a sequence of kinds and keys, are a
   subsequence of the rows shown for both.
   */
  lemma {:induction false} PrefixStability(log: seq<Item>, more: seq<Item>, live: bool, live': bool)
    requires Ascending(log + more)
    ensures Sub(Ids(Present(log, live).rows), Ids(Present(log + more, live').rows))
    decreases |more|
  {
    hide Sub, Ids, Present, Received, Receive, ShownIds, NoResult;
    ShownEitherWay(log, live);
    ShownEitherWay(log + more, live');
    if more == [] {
      assert log + more == log;
      SubItself(ShownIds(Received(log)));
    } else {
      var shorter, x := log + more[..|more| - 1], more[|more| - 1];
      assert log + more == shorter + [x];
      AscendingPrefix(shorter, x);
      PrefixStability(log, more[..|more| - 1], live, false);
      ShownEitherWay(shorter, false);
      ReceivedTurnOk(shorter);
      TurnAscends(shorter, x, Received(shorter));
      ReceiveKeepsShown(Received(shorter), x);
      ReceivedOne(shorter, x);
      SubTransitive(Ids(Present(log, live).rows), ShownIds(Received(shorter)), ShownIds(Received(shorter + [x])));
    }
  }
}
