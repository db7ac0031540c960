/** Rows of one kind follow each other by key, and so do the items of an Activity. */
module TranscriptKeys {
  import opened Wrappers
  import opened ConversationItems
  import opened Transcript
  import opened TranscriptDrafts
  import opened TranscriptMerge
  import opened TranscriptStability
  import opened TranscriptConservation

  predicate SameKind(a: RowId, b: RowId) {
    (a.MessageId? && b.MessageId?) || (a.ActivityId? && b.ActivityId?) || (a.FailureId? && b.FailureId?)
  }

  /** Keys of one kind of row ascend, and are unique within it. */
  ghost predicate KindsAscend(ids: seq<RowId>) {
    forall i, j | 0 <= i < j < |ids| && SameKind(ids[i], ids[j]) :: ids[i].key < ids[j].key
  }

  // Slots of a draft.

  /** Slot a comes before slot b in the order of its kind. */
  predicate SlotBefore(a: Slot, b: Slot) {
    match (a, b)
    case (FailureSlot(k, _), FailureSlot(l, _)) => k < l
    case (GroupSlot(g), GroupSlot(h)) => g < h
    case (MessageSlot(x), MessageSlot(y)) => x.key < y.key
    case (MessageSlot(x), AnswerSlot(y)) => x.key < y.key
    case (AnswerSlot(x), MessageSlot(y)) => x.key < y.key
    case (AnswerSlot(x), AnswerSlot(y)) => x.key < y.key
    case _ => true
  }

  ghost predicate SlotsAscend(slots: seq<Slot>) {
    forall i, j | 0 <= i < j < |slots| :: SlotBefore(slots[i], slots[j])
  }

  /** The slot was made for an item of the turn below this key, or for one of the first n groups. */
  ghost predicate SlotMade(slot: Slot, turn: seq<Item>, key: int, n: nat) {
    match slot
    case MessageSlot(item) => item.key < key && exists x <- turn :: x.key == item.key
    case AnswerSlot(answer) => answer.key < key && exists x <- turn :: x.key == answer.key
    case FailureSlot(k, _) => k < key && exists x <- turn :: x.key == k
    case GroupSlot(g) => g < n
  }

  ghost predicate SlotsMade(slots: seq<Slot>, turn: seq<Item>, key: int, n: nat) {
    SlotsAscend(slots) && forall slot <- slots :: SlotMade(slot, turn, key, n)
  }

  lemma OneMoreSlot(slots: seq<Slot>, slot: Slot, turn: seq<Item>, x: Item, n: nat, n': nat)
    requires SlotsMade(slots, turn, x.key, n) && x in turn && n <= n'
    requires match slot
      case MessageSlot(item) => item == x
      case AnswerSlot(answer) => answer.key == x.key
      case FailureSlot(k, _) => k == x.key
      case GroupSlot(g) => g == n < n'
    ensures SlotsMade(slots + [slot], turn, x.key + 1, n')
  {
    var slots' := slots + [slot];
    forall s | s in slots' ensures SlotMade(s, turn, x.key + 1, n') {
      if s in slots {
        assert SlotMade(s, turn, x.key, n);
      }
    }
    forall i, j | 0 <= i < j < |slots'| ensures SlotBefore(slots'[i], slots'[j]) {
      if i < |slots| {
        assert slots'[i] in slots && SlotMade(slots'[i], turn, x.key, n);
      }
    }
  }

  lemma NoMoreSlots(slots: seq<Slot>, turn: seq<Item>, key: int, n: nat, key': int, n': nat)
    requires SlotsMade(slots, turn, key, n) && key <= key' && n <= n'
    ensures SlotsMade(slots, turn, key', n')
  {
    forall slot | slot in slots ensures SlotMade(slot, turn, key', n') {
      assert SlotMade(slot, turn, key, n);
    }
  }

  /** What placing an item does to the slots: it adds at most a row of its own, and an answer after a work row. */
  lemma PlacedSlots(d: Draft, x: Item, phases: Phases, texts: set<string>)
    ensures var d' := Place(d, x, phases, texts);
            || d'.slots == d.slots
            || (d'.slots == d.slots + [FailureSlot(x.key, |d.failures|)])
            || (d'.slots == d.slots + [MessageSlot(x)])
            || (d'.slots == d.slots + [GroupSlot(|d.groups|)] && |d'.groups| == |d.groups| + 1)
            || (x.Event? && d'.slots == d.slots + [AnswerSlot(AnswerOf(x))])
            || (x.Event? && d'.slots == d.slots + [GroupSlot(|d.groups|), AnswerSlot(AnswerOf(x))]
              && |d'.groups| == |d.groups| + 1)
    ensures |d.groups| <= |Place(d, x, phases, texts).groups|
  {
    hide AddToLast, Answers, RunFailed, LateMarker, AnswerOf, Background, PlaceFailure, PlaceWork, Completed, Is;
    FailureSlots(d, x);
    CompletedSlots(d, x);
    AddToLastKeeps(d.groups, x);
    AnswersResult(d, x, texts, phases);
    WorkSlots(Completed(d, x), x);
    if x.Event? {
      var answer := AnswerSlot(AnswerOf(x));
      assert d.slots + [GroupSlot(|d.groups|)] + [answer] == d.slots + [GroupSlot(|d.groups|), answer];
    }
  }

  lemma FailureSlots(d: Draft, x: Item)
    ensures var d' := PlaceFailure(d, x);
            d'.groups == d.groups && (d'.slots == d.slots || d'.slots == d.slots + [FailureSlot(x.key, |d.failures|)])
  {
  }

  lemma CompletedSlots(d: Draft, x: Item)
    ensures Completed(d, x).slots == d.slots && Completed(d, x).groups == d.groups
  {
  }

  lemma WorkSlots(d: Draft, x: Item)
    ensures var d' := PlaceWork(d, x);
            || (d'.slots == d.slots && |d'.groups| == |d.groups|)
            || (d'.slots == d.slots + [GroupSlot(|d.groups|)] && |d'.groups| == |d.groups| + 1)
  {
  }

  lemma AnswersResult(d: Draft, x: Item, texts: set<string>, phases: Phases)
    ensures forall e: Draft :: Answers(e, x, texts) ==> Is(x, TurnResult) && Background(x, phases)
    ensures Is(x, TurnResult) ==> x.Event? && AnswerOf(x).key == x.key
  {
  }

  lemma PlaceMakes(d: Draft, x: Item, turn: seq<Item>, phases: Phases, texts: set<string>)
    requires SlotsMade(d.slots, turn, x.key, |d.groups|) && x in turn
    ensures var d' := Place(d, x, phases, texts);
            SlotsMade(d'.slots, turn, x.key + 1, |d'.groups|)
  {
    var d' := Place(d, x, phases, texts);
    PlacedSlots(d, x, phases, texts);
    hide Place, SlotsMade;
    if d'.slots == d.slots {
      NoMoreSlots(d.slots, turn, x.key, |d.groups|, x.key + 1, |d'.groups|);
    } else if d'.slots == d.slots + [FailureSlot(x.key, |d.failures|)] {
      OneMoreSlot(d.slots, FailureSlot(x.key, |d.failures|), turn, x, |d.groups|, |d'.groups|);
    } else if d'.slots == d.slots + [MessageSlot(x)] {
      OneMoreSlot(d.slots, MessageSlot(x), turn, x, |d.groups|, |d'.groups|);
    } else if d'.slots == d.slots + [GroupSlot(|d.groups|)] {
      OneMoreSlot(d.slots, GroupSlot(|d.groups|), turn, x, |d.groups|, |d'.groups|);
    } else if d'.slots == d.slots + [AnswerSlot(AnswerOf(x))] {
      OneMoreSlot(d.slots, AnswerSlot(AnswerOf(x)), turn, x, |d.groups|, |d'.groups|);
    } else {
      WorkThenAnswer(d.slots, turn, x, |d.groups|);
    }
  }

  lemma WorkThenAnswer(slots: seq<Slot>, turn: seq<Item>, x: Item, n: nat)
    requires SlotsMade(slots, turn, x.key, n) && x in turn && x.Event?
    ensures SlotsMade(slots + [GroupSlot(n), AnswerSlot(AnswerOf(x))], turn, x.key + 1, n + 1)
  {
    var slots' := slots + [GroupSlot(n), AnswerSlot(AnswerOf(x))];
    forall slot | slot in slots' ensures SlotMade(slot, turn, x.key + 1, n + 1) {
      if slot in slots {
        assert SlotMade(slot, turn, x.key, n);
      }
    }
    forall i, j | 0 <= i < j < |slots'| ensures SlotBefore(slots'[i], slots'[j]) {
      if i < |slots| {
        assert slots'[i] in slots && SlotMade(slots'[i], turn, x.key, n);
      }
    }
  }

  lemma {:induction false} DraftMakes(turn: seq<Item>, k: nat, failures: seq<Failure>, failing: bool)
    requires k <= |turn| && turn != [] && Ascending(turn)
    ensures var d := DraftAt(turn, k, failures, failing);
            SlotsMade(d.slots, turn, if k < |turn| then turn[k].key else turn[|turn| - 1].key + 1, |d.groups|)
  {
    hide Place, PhasesOf, TextsOf;
    if k > 0 {
      hide SlotsMade;
      DraftMakes(turn, k - 1, failures, failing);
      PlaceMakes(DraftAt(turn, k - 1, failures, failing), turn[k - 1], turn, PhasesOf(turn),
        TextsOf(turn, PhasesOf(turn)));
      var d := DraftAt(turn, k, failures, failing);
      NoMoreSlots(d.slots, turn, turn[k - 1].key + 1, |d.groups|,
                  if k < |turn| then turn[k].key else turn[|turn| - 1].key + 1, |d.groups|);
    }
  }

  // From slots to rows.

  ghost predicate KeysAscend(keys: seq<Option<int>>) {
    forall g, h | 0 <= g < h < |keys| && keys[g].Some? && keys[h].Some? :: keys[g].value < keys[h].value
  }

  lemma {:induction false} IdOrigin(slots: seq<Slot>, keys: seq<Option<int>>, i: nat) returns (s: nat)
    requires i < |SlotIds(slots, keys)|
    ensures s < |slots| && SlotId(slots[s], keys) == [SlotIds(slots, keys)[i]]
  {
    var n := |slots| - 1;
    if i < |SlotIds(slots[..n], keys)| {
      s := IdOrigin(slots[..n], keys, i);
    } else {
      s := n;
    }
  }

  lemma SlotOrderIsKeyOrder(a: Slot, b: Slot, keys: seq<Option<int>>)
    requires SlotBefore(a, b) && KeysAscend(keys) && SlotId(a, keys) != [] && SlotId(b, keys) != []
    ensures SameKind(SlotId(a, keys)[0], SlotId(b, keys)[0]) ==> SlotId(a, keys)[0].key < SlotId(b, keys)[0].key
  {
  }

  lemma {:induction false} SlotKindsAscend(slots: seq<Slot>, keys: seq<Option<int>>)
    requires SlotsAscend(slots) && KeysAscend(keys)
    ensures KindsAscend(SlotIds(slots, keys))
  {
    if slots != [] {
      var shorter, last := slots[..|slots| - 1], slots[|slots| - 1];
      SlotKindsAscend(shorter, keys);
      var ids, all := SlotIds(shorter, keys), SlotIds(slots, keys);
      assert all == ids + SlotId(last, keys);
      hide SlotIds, SlotId, SlotBefore, SameKind, KeysAscend;
      SlotIdShort(last, keys);
      forall i: nat | i < |ids| && SlotId(last, keys) != [] && SameKind(ids[i], SlotId(last, keys)[0])
        ensures ids[i].key < SlotId(last, keys)[0].key
      {
        var s := IdOrigin(shorter, keys, i);
        assert SlotBefore(slots[s], last);
        SlotOrderIsKeyOrder(slots[s], last, keys);
      }
    }
  }

  lemma SlotIdShort(slot: Slot, keys: seq<Option<int>>)
    ensures |SlotId(slot, keys)| <= 1
  {
  }

  lemma FeedsAscend(keep: seq<bool>, g: nat, h: nat)
    requires g < h < |keep| && keep[g] && keep[h]
    ensures Feed(keep, g) <= g < Feed(keep, h)
  {
  }

  lemma VisibleKeysAscend(groups: seq<Group>, keep: seq<bool>)
    requires |keep| == |groups| && OrderedGroups(groups)
    ensures KeysAscend(VisibleKeys(groups, keep))
  {
    forall g: nat, h: nat | g < h < |groups| && keep[g] && keep[h]
      ensures Settled(groups, keep)[g].key < Settled(groups, keep)[h].key
    {
      FeedsAscend(keep, g, h);
      SettledKey(groups, keep, g);
      SettledKey(groups, keep, h);
      GroupKeysAscend(groups, Feed(keep, g), Feed(keep, h));
    }
  }

  /** The row's key is that of an item of the turn. */
  ghost predicate KeyedBy(id: RowId, turn: seq<Item>) {
    exists x <- turn :: x.key == id.key
  }

  lemma VisibleKeyFromTurn(groups: seq<Group>, keep: seq<bool>, turn: seq<Item>, g: nat)
    requires |keep| == |groups| && OrderedGroups(groups) && GroupsWithin(groups, turn) && g < |groups| && keep[g]
    ensures exists x <- turn :: x.key == Settled(groups, keep)[g].key
  {
    SettledKey(groups, keep, g);
    var f := Feed(keep, g);
    assert groups[f].items[0] in groups[f].items;
  }

  lemma TurnKinds(turn: seq<Item>, failures: seq<Failure>, failing: bool)
    requires Ascending(turn) && turn != []
    ensures KindsAscend(TurnIds(turn, failures, failing))
    ensures forall id <- TurnIds(turn, failures, failing) :: KeyedBy(id, turn)
  {
    var d := DraftOf(turn, failures, failing);
    var keep := KeptOf(d.groups, PhasesOf(turn));
    var keys := VisibleKeys(d.groups, keep);
    DraftMakes(turn, |turn|, failures, failing);
    DraftOrdered(turn, |turn|, failures, failing);
    GroupsFromTurn(turn, |turn|, failures, failing);
    hide DraftOf, KeptOf, OrderedGroups, GroupsWithin, SlotIds, SlotsAscend, KindsAscend, Settled, PhasesOf;
    VisibleKeysAscend(d.groups, keep);
    SlotKindsAscend(d.slots, keys);
    forall i: nat | i < |SlotIds(d.slots, keys)| ensures KeyedBy(SlotIds(d.slots, keys)[i], turn) {
      var s := IdOrigin(d.slots, keys, i);
      assert d.slots[s] in d.slots;
      if d.slots[s].GroupSlot? {
        VisibleKeyFromTurn(d.groups, keep, turn, d.slots[s].group);
      }
    }
  }

  // Whole logs.

  ghost predicate IdsBelow(ids: seq<RowId>, key: int) {
    forall id <- ids :: id.key < key
  }

  /** What holds of the rows and the turn collected so far. */
  ghost predicate KeysOk(p: Projection, key: int) {
    && KindsAscend(Ids(p.rows)) && IdsBelow(Ids(p.rows), key)
    && Ascending(p.turn) && (forall x <- p.turn :: IdsBelow(Ids(p.rows), x.key) && x.key < key)
  }

  lemma KindsAppend(a: seq<RowId>, b: seq<RowId>, turn: seq<Item>)
    requires KindsAscend(a) && KindsAscend(b)
    requires (forall x <- turn :: IdsBelow(a, x.key)) && forall id <- b :: KeyedBy(id, turn)
    ensures KindsAscend(a + b)
  {
    forall i, j | 0 <= i < |a| && 0 <= j < |b| ensures a[i].key < b[j].key {
      assert b[j] in b;
      var x :| x in turn && x.key == b[j].key;
      assert IdsBelow(a, x.key) && a[i] in a;
    }
  }

  lemma FlushKeysOk(p: Projection, key: int, active: bool)
    requires KeysOk(p, key)
    ensures KeysOk(Flush(p, active), key) && Flush(p, active).turn == []
  {
    if p.turn != [] {
      FlushedIds(p, active);
      TurnKinds(p.turn, p.failures, p.failing);
      var a, b := Ids(p.rows), TurnIds(p.turn, p.failures, p.failing);
      hide TurnIds, Ids, KindsAscend, TurnRows;
      KindsAppend(a, b, p.turn);
      forall id: RowId | id in a + b ensures id.key < key {
        if id in b {
          assert KeyedBy(id, p.turn);
        }
      }
    }
  }

  lemma MessageKeysOk(p: Projection, x: Item)
    requires KeysOk(p, x.key) && p.turn == []
    ensures KeysOk(p.(rows := p.rows + [Message(x.key, x)]), x.key + 1)
  {
    IdsConcat(p.rows, [Message(x.key, x)]);
    assert Ids([Message(x.key, x)]) == [MessageId(x.key)];
    hide Ids;
  }

  lemma CollectKeysOk(p: Projection, x: Item)
    requires KeysOk(p, x.key)
    ensures KeysOk(p.(turn := p.turn + [x]), x.key + 1)
  {
    hide Ids;
  }

  lemma ReceiveKeysOk(p: Projection, x: Item)
    requires KeysOk(p, x.key)
    ensures KeysOk(Receive(p, x), x.key + 1)
  {
    var flushed := Flush(p, false);
    FlushKeysOk(p, x.key, false);
    FlushedTurn(p);
    assert KeysOk(Historical(flushed), x.key);
    hide Flush, KindsAscend, Ids, Ascending;
    if StatusOf(x, ContextCompacted) {
      assert KeysOk(flushed, x.key + 1);
    } else if Boundary(x) {
      BoundaryReceived(p, x);
      MessageKeysOk(Historical(flushed), x);
      CollectKeysOk(Historical(flushed), x);
    } else if Interjects(x) {
      MessageKeysOk(flushed, x);
    } else {
      CollectKeysOk(p, x);
      FlushKeysOk(p.(turn := p.turn + [x]), x.key + 1, false);
    }
  }

  lemma {:induction false} ReceivedKeysOk(log: seq<Item>, key: int)
    requires Ascending(log) && (log != [] ==> log[|log| - 1].key < key)
    ensures KeysOk(Received(log), key)
  {
    hide Receive, KeysOk;
    if log == [] {
      NothingKeysOk(key);
    } else {
      var x := log[|log| - 1];
      ReceivedKeysOk(log[..|log| - 1], x.key);
      ReceiveKeysOk(Received(log[..|log| - 1]), x);
      KeysOkLater(Received(log), x.key + 1, key);
    }
  }

  lemma NothingKeysOk(key: int)
    ensures KeysOk(NOTHING, key)
  {
  }

  lemma KeysOkLater(p: Projection, key: int, key': int)
    requires KeysOk(p, key) && key <= key'
    ensures KeysOk(p, key')
  {
  }

  /** Rows of one kind have distinct keys, in order: those of their Activities, of their messages, of their failures. */
  lemma RowKeysAscend(log: seq<Item>, live: bool)
    requires Ascending(log)
    ensures KindsAscend(Ids(Present(log, live).rows))
  {
    var key := if log == [] then 0 else log[|log| - 1].key + 1;
    ReceivedKeysOk(log, key);
    FlushKeysOk(Received(log), key, live);
  }

  // Items of an Activity.

  ghost predicate Sorted(items: seq<Item>) {
    forall i, j | 0 <= i < j < |items| :: items[i].key <= items[j].key
  }

  lemma {:induction false} InsertSorted(items: seq<Item>, item: Item)
    requires Sorted(items)
    ensures Sorted(Insert(items, item))
  {
    if items != [] && items[|items| - 1].key > item.key {
      var shorter, last := items[..|items| - 1], items[|items| - 1];
      InsertSorted(shorter, item);
      InsertContents(shorter, item);
      assert Insert(items, item) == Insert(shorter, item) + [last];
      hide Insert;
      forall x | x in Insert(shorter, item) ensures x.key <= last.key {
        assert x in multiset(Insert(shorter, item));
        assert x in multiset(shorter) <==> x in shorter;
      }
      hide *;
      LargestLast(Insert(shorter, item), last);
    } else {
      AllSmaller(items, item);
      LargestLast(items, item);
    }
  }

  lemma AllSmaller(items: seq<Item>, item: Item)
    requires Sorted(items) && (items == [] || items[|items| - 1].key <= item.key)
    ensures forall x <- items :: x.key <= item.key
  {
  }

  lemma LargestLast(items: seq<Item>, item: Item)
    requires Sorted(items) && forall x <- items :: x.key <= item.key
    ensures Sorted(items + [item])
  {
  }

  lemma {:induction false} SortSorts(items: seq<Item>)
    ensures Sorted(Sort(items))
  {
    if items != [] {
      SortSorts(items[..|items| - 1]);
      InsertSorted(Sort(items[..|items| - 1]), items[|items| - 1]);
    }
  }

  ghost predicate AllSorted(groups: seq<Group>) {
    forall g | 0 <= g < |groups| :: Sorted(groups[g].items)
  }

  lemma {:induction false} MergeSorted(groups: seq<Group>, keep: seq<bool>, i: nat)
    requires |keep| == |groups| && i <= |groups| && AllSorted(groups)
    ensures AllSorted(MergeFrom(groups, keep, i))
    decreases |groups| - i
  {
    if i < |groups| {
      var target := Target(groups, keep, groups[i].key);
      if !keep[i] && target.Some? && target.value < |groups| {
        SortSorts(groups[target.value].items + groups[i].items);
      }
      hide Target, Sort, Sorted;
      MergeSorted(MergeStep(groups, keep, i), keep, i + 1);
    }
  }

  ghost predicate RowSorted(row: Row) {
    row.Activity? ==> Sorted(row.items)
  }

  lemma {:induction false} RowsSorted(slots: seq<Slot>, groups: seq<Group>, keep: seq<bool>, flags: Flags)
    requires |keep| == |groups| && AllSorted(groups)
    ensures forall row <- RowsOf(slots, groups, keep, flags) :: RowSorted(row)
  {
    hide Sorted;
    if slots != [] {
      RowsSorted(slots[..|slots| - 1], groups, keep, flags);
    }
  }

  lemma TurnRowsSorted(turn: seq<Item>, failures: seq<Failure>, failing: bool, active: bool)
    requires Ascending(turn)
    ensures forall row <- TurnRows(turn, failures, failing, active) :: RowSorted(row)
  {
    var d := DraftOf(turn, failures, failing);
    var keep := KeptOf(d.groups, PhasesOf(turn));
    DraftOrdered(turn, |turn|, failures, failing);
    OrderedIsSorted(d.groups);
    hide DraftOf, KeptOf, OrderedGroups, RowsOf, FlagsOf, PhasesOf;
    MergeSorted(d.groups, keep, 0);
    RowsSorted(d.slots, Settled(d.groups, keep), keep, FlagsOf(turn, failures, failing, keep, active));
  }

  lemma OrderedIsSorted(groups: seq<Group>)
    requires OrderedGroups(groups)
    ensures AllSorted(groups)
  {
  }

  ghost predicate RowsAreSorted(rows: seq<Row>) {
    forall row <- rows :: RowSorted(row)
  }

  lemma FlushSorted(p: Projection, active: bool)
    requires Ascending(p.turn) && RowsAreSorted(p.rows)
    ensures RowsAreSorted(Flush(p, active).rows)
  {
    TurnRowsSorted(p.turn, p.failures, p.failing, active);
    hide TurnRows, RowSorted;
  }

  lemma MessageSorted(rows: seq<Row>, row: Row)
    requires RowsAreSorted(rows) && row.Message?
    ensures RowsAreSorted(rows + [row])
  {
  }

  lemma AloneAscends(x: Item)
    ensures Ascending([x]) && [] + [x] == [x]
  {
  }

  lemma ReceiveSorted(p: Projection, x: Item)
    requires Ascending(p.turn + [x]) && Ascending(p.turn) && RowsAreSorted(p.rows)
    ensures RowsAreSorted(Receive(p, x).rows)
  {
    hide Flush, RowsAreSorted, Ascending, StatusOf, Boundary, Interjects, Is;
    var ended := Historical(Flush(p, false));
    FlushedTurn(p);
    AloneAscends(x);
    FlushSorted(p, false);
    FlushSorted(p.(turn := p.turn + [x]), false);
    FlushSorted(ended.(turn := ended.turn + [x]), false);
    MessageSorted(Flush(p, false).rows, Message(x.key, x));
    MessageSorted(ended.rows, Message(x.key, x));
  }

  lemma {:induction false} ReceivedSorted(log: seq<Item>)
    requires Ascending(log)
    ensures RowsAreSorted(Received(log).rows)
  {
    if log != [] {
      var shorter, x := log[..|log| - 1], log[|log| - 1];
      ReceivedSorted(shorter);
      ReceivedKeysOk(shorter, x.key);
      hide RowsAreSorted;
      ReceiveSorted(Received(shorter), x);
    }
  }

  lemma {:induction false} RowHolds(rows: seq<Row>, row: Row)
    requires row in rows
    ensures multiset(ItemsOf(row)) <= RowItems(rows)
  {
    var n := |rows| - 1;
    hide ItemsOf;
    if row != rows[n] {
      assert rows == rows[..n] + [rows[n]];
      RowHolds(rows[..n], row);
    }
  }

  lemma TwiceCounts(items: seq<Item>, i: nat, j: nat)
    requires i < j < |items| && items[i] == items[j]
    ensures multiset(items)[items[i]] >= 2
  {
    assert items == items[..j] + items[j..];
    assert items[i] in items[..j] && items[j] in items[j..];
    assert multiset(items) == multiset(items[..j]) + multiset(items[j..]);
    assert items[i] in multiset(items[..j]) && items[i] in multiset(items[j..]);
  }

  lemma SortedOnceAscends(log: seq<Item>, items: seq<Item>)
    requires Ascending(log) && Sorted(items) && forall x <- items :: x in log && multiset(items)[x] == 1
    ensures Ascending(items)
  {
    forall i: nat, j: nat | i < j < |items| ensures items[i].key < items[j].key {
      if items[i].key == items[j].key {
        KeyIsIdentity(log, items[i], items[j]);
        TwiceCounts(items, i, j);
      }
    }
  }

  /** The items of every Activity are items of the log in ascending order. */
  lemma ActivityItemsAscend(log: seq<Item>, live: bool, row: Row)
    requires Ascending(log) && row in Present(log, live).rows && row.Activity?
    ensures Ascending(row.items) && forall x <- row.items :: x in log
  {
    var p := Received(log);
    ReceivedSorted(log);
    ReceivedTurnOk(log);
    FlushSorted(p, live);
    assert RowSorted(row);
    RowHolds(Present(log, live).rows, row);
    hide Present, Received, RowItems, FailureItems, Dropped, RowsAreSorted;
    forall x | x in row.items ensures x in log && multiset(row.items)[x] == 1 {
      AccountedOnce(log, live, x);
      assert x in multiset(row.items);
    }
    hide *;
    SortedOnceAscends(log, row.items);
  }

  lemma KeyIsIdentity(log: seq<Item>, x: Item, y: Item)
    requires Ascending(log) && x in log && y in log && x.key == y.key
    ensures x == y
  {
  }
}
