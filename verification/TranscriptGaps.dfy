/** Where the messages of a turn lie: at least one between any two work groups, and none within a group. */
module TranscriptGaps {
  import opened ConversationItems
  import opened Transcript
  import opened TranscriptDrafts

  // Late markers join the group before them however much prose has come in between, so they are left aside.

  predicate Below(items: seq<Item>, key: int) {
    forall x <- items | !LateMarker(x) :: x.key < key
  }

  predicate Above(items: seq<Item>, key: int) {
    forall x <- items | !LateMarker(x) :: x.key > key
  }

  /** The messages that a draft has placed. */
  function Messages(slots: seq<Slot>): set<Item> {
    set slot <- slots | slot.MessageSlot? :: slot.item
  }

  ghost predicate Whole(messages: set<Item>, groups: seq<Group>) {
    forall y <- messages, i | 0 <= i < |groups| :: Below(groups[i].items, y.key) || Above(groups[i].items, y.key)
  }

  ghost predicate Parted(messages: set<Item>, items: seq<Item>, key: int) {
    exists y <- messages :: Below(items, y.key) && y.key < key
  }

  ghost predicate Separated(messages: set<Item>, groups: seq<Group>) {
    forall i | 0 <= i && i + 1 < |groups| :: Parted(messages, groups[i].items, groups[i + 1].key)
  }

  /** No message has come since the last group was begun if work is still open, and one has if it is not. */
  ghost predicate Edge(messages: set<Item>, groups: seq<Group>, open: bool) {
    groups != [] ==>
      var last := groups[|groups| - 1];
      if open then forall y <- messages :: y.key < last.key else exists y <- messages :: Below(last.items, y.key)
  }

  ghost predicate Gaps(messages: set<Item>, groups: seq<Group>, open: bool) {
    Whole(messages, groups) && Separated(messages, groups) && Edge(messages, groups, open)
  }

  ghost predicate MessagesBelow(messages: set<Item>, key: int) {
    forall y <- messages :: y.key < key
  }

  lemma MarkerKeepsGaps(messages: set<Item>, groups: seq<Group>, open: bool, x: Item)
    requires Gaps(messages, groups, open) && groups != [] && LateMarker(x)
    ensures Gaps(messages, AddToLast(groups, x), open)
  {
    var groups' := AddToLast(groups, x);
    hide LateMarker;
    forall i, key | 0 <= i < |groups|
      ensures Below(groups'[i].items, key) == Below(groups[i].items, key)
      ensures Above(groups'[i].items, key) == Above(groups[i].items, key)
    {
      MarkerAside(groups[i].items, groups'[i].items, x, key);
    }
    hide Below, Above, AddToLast;
    forall i | 0 <= i && i + 1 < |groups| ensures Parted(messages, groups'[i].items, groups'[i + 1].key) {
      assert Parted(messages, groups[i].items, groups[i + 1].key);
    }
  }

  lemma MarkerAside(items: seq<Item>, items': seq<Item>, x: Item, key: int)
    requires LateMarker(x) && (items' == items || items' == items + [x])
    ensures Below(items', key) == Below(items, key) && Above(items', key) == Above(items, key)
  {
    hide LateMarker;
    assert forall y <- items :: y in items';
  }

  lemma WorkKeepsGaps(messages: set<Item>, groups: seq<Group>, x: Item)
    requires Gaps(messages, groups, true) && groups != [] && OrderedGroups(groups) && AllBelow(groups, x.key)
    ensures Gaps(messages, AddToLast(groups, x), true)
  {
    var groups' := AddToLast(groups, x);
    var n := |groups| - 1;
    hide LateMarker;
    forall y | y in messages ensures Above(groups'[n].items, y.key) {
      assert GroupOk(groups[n]) && groups[n].items[0] in groups[n].items;
    }
    forall y, i | y in messages && 0 <= i < |groups|
      ensures Below(groups'[i].items, y.key) || Above(groups'[i].items, y.key)
    {
      assert i < n ==> groups'[i] == groups[i];
    }
    hide Below, Above, OrderedGroups;
    forall i | 0 <= i && i + 1 < |groups| ensures Parted(messages, groups'[i].items, groups'[i + 1].key) {
      assert Parted(messages, groups[i].items, groups[i + 1].key);
    }
  }

  lemma NewGroupKeepsGaps(messages: set<Item>, groups: seq<Group>, open: bool, x: Item)
    requires Gaps(messages, groups, open) && (groups != [] ==> !open) && MessagesBelow(messages, x.key)
    ensures Gaps(messages, groups + [Group(x.key, [x])], true)
  {
    var groups' := groups + [Group(x.key, [x])];
    hide LateMarker;
    forall y | y in messages ensures Above([x], y.key) {
    }
    hide Below, Above;
    forall i | 0 <= i && i + 1 < |groups'| ensures Parted(messages, groups'[i].items, groups'[i + 1].key) {
      if i + 1 < |groups| {
        assert Parted(messages, groups[i].items, groups[i + 1].key);
      }
    }
  }

  lemma MessageKeepsGaps(messages: set<Item>, groups: seq<Group>, open: bool, x: Item)
    requires Gaps(messages, groups, open) && AllBelow(groups, x.key)
    ensures Gaps(messages + {x}, groups, false)
  {
    hide LateMarker;
    forall i | 0 <= i < |groups| ensures Below(groups[i].items, x.key) {
    }
    hide Below, Above;
    forall i | 0 <= i && i + 1 < |groups| ensures Parted(messages + {x}, groups[i].items, groups[i + 1].key) {
      assert Parted(messages, groups[i].items, groups[i + 1].key);
    }
    assert x in messages + {x};
  }

  /** Items that become a message of their own. */
  predicate Speaks(x: Item, phases: Phases) {
    !RunFailed(x) && !LateMarker(x) && !Background(x, phases)
  }

  lemma MessagesMore(slots: seq<Slot>, slot: Slot)
    ensures Messages(slots + [slot]) == Messages(slots) + if slot.MessageSlot? then {slot.item} else {}
  {
    assert forall s <- slots :: s in slots + [slot];
    assert slot in slots + [slot];
  }

  lemma PlacedAnswer(d: Draft, x: Item, texts: set<string>)
    ensures var d' := PlaceAnswer(d, x, texts);
            Messages(d'.slots) == Messages(d.slots) && d'.open == d.open && d'.groups == d.groups
  {
    if Answers(d, x, texts) {
      MessagesMore(d.slots, AnswerSlot(AnswerOf(x)));
    }
  }

  lemma PlacedMessages(d: Draft, x: Item, phases: Phases, texts: set<string>)
    ensures var d' := Place(d, x, phases, texts);
            && Messages(d'.slots) == Messages(d.slots) + (if Speaks(x, phases) then {x} else {})
            && d'.open == if RunFailed(x) || LateMarker(x) then d.open else !Speaks(x, phases)
  {
    hide Messages, PlaceAnswer, AddToLast, RunFailed, LateMarker, Background;
    MessagesMore(d.slots, FailureSlot(x.key, |d.failures|));
    if !RunFailed(x) && !LateMarker(x) {
      var e := Completed(d, x);
      assert e.slots == d.slots && e.groups == d.groups && e.open == d.open;
      MessagesMore(d.slots, MessageSlot(x));
      MessagesMore(d.slots, GroupSlot(|d.groups|));
      PlacedAnswer(if Background(x, phases) then PlaceWork(e, x)
        else e.(slots := e.slots + [MessageSlot(x)], open := false), x, texts);
    }
  }

  lemma PlaceKeepsGaps(d: Draft, x: Item, phases: Phases, texts: set<string>)
    requires Gaps(Messages(d.slots), d.groups, d.open) && MessagesBelow(Messages(d.slots), x.key)
    requires OrderedGroups(d.groups) && AllBelow(d.groups, x.key)
    ensures var d' := Place(d, x, phases, texts);
            Gaps(Messages(d'.slots), d'.groups, d'.open) && MessagesBelow(Messages(d'.slots), x.key + 1)
  {
    PlacedGroups(d, x, phases, texts);
    PlacedMessages(d, x, phases, texts);
    hide Place, Gaps, Messages, OrderedGroups, AllBelow, AddToLast, RunFailed, LateMarker, Background;
    var messages := Messages(d.slots);
    assert messages + {} == messages;
    if RunFailed(x) {
    } else if LateMarker(x) {
      if d.groups != [] {
        MarkerKeepsGaps(messages, d.groups, d.open, x);
      }
    } else if !Background(x, phases) {
      MessageKeepsGaps(messages, d.groups, d.open, x);
    } else if d.open && d.groups != [] {
      WorkKeepsGaps(messages, d.groups, x);
    } else {
      NewGroupKeepsGaps(messages, d.groups, d.open, x);
    }
  }

  lemma {:induction false} DraftGaps(turn: seq<Item>, k: nat, failures: seq<Failure>, failing: bool)
    requires k <= |turn| && Ascending(turn)
    ensures var d := DraftAt(turn, k, failures, failing);
            && Gaps(Messages(d.slots), d.groups, d.open)
            && (if k < |turn| then MessagesBelow(Messages(d.slots), turn[k].key) else true)
  {
    hide Place, PhasesOf, TextsOf;
    if k > 0 {
      hide Gaps, Messages, OrderedGroups, AllBelow;
      DraftGaps(turn, k - 1, failures, failing);
      DraftOrdered(turn, k - 1, failures, failing);
      PlaceKeepsGaps(DraftAt(turn, k - 1, failures, failing), turn[k - 1], PhasesOf(turn),
        TextsOf(turn, PhasesOf(turn)));
    }
  }

  lemma {:induction false} MessagesAreLogged(turn: seq<Item>, k: nat, failures: seq<Failure>, failing: bool)
    requires k <= |turn|
    ensures forall y <- Messages(DraftAt(turn, k, failures, failing).slots) :: y in turn
  {
    hide Place, PhasesOf, TextsOf;
    if k > 0 {
      hide Messages;
      MessagesAreLogged(turn, k - 1, failures, failing);
      PlacedMessages(DraftAt(turn, k - 1, failures, failing), turn[k - 1], PhasesOf(turn),
        TextsOf(turn, PhasesOf(turn)));
    }
  }

  /** A message lies between the items of a group and any later group. */
  lemma MessageBetween(messages: set<Item>, groups: seq<Group>, g: nat, m: nat) returns (y: Item)
    requires Separated(messages, groups) && OrderedGroups(groups) && g < m < |groups|
    ensures y in messages && Below(groups[g].items, y.key) && forall x <- groups[m].items :: y.key < x.key
  {
    hide Below;
    assert Parted(messages, groups[g].items, groups[g + 1].key);
    y :| y in messages && Below(groups[g].items, y.key) && y.key < groups[g + 1].key;
    forall x | x in groups[m].items ensures y.key < x.key {
      assert GroupOk(groups[g + 1]) && groups[g + 1].items[0] in groups[g + 1].items;
      if g + 1 < m {
        assert Before(groups[g + 1].items, groups[m].items);
      }
    }
  }
}
