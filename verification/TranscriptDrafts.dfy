/** How the draft of a turn grows: phases settle early, slots are only appended, groups follow the log's order. */
module TranscriptDrafts {
  import opened ConversationItems
  import opened Transcript

  // Phases: the first classification is the one that counts.

  lemma {:induction false} TextIsClassified(turn: seq<Item>, item: Item)
    requires item in turn && TextId(item).Some?
    ensures item.messageId.value in PhasesOf(turn)
  {
    var shorter := turn[..|turn| - 1];
    assert turn == shorter + [turn[|turn| - 1]];
    if item in shorter {
      TextIsClassified(shorter, item);
    }
  }

  lemma PhaseStable(turn: seq<Item>, x: Item, item: Item)
    requires item in turn
    ensures PhaseOf(item, PhasesOf(turn + [x])) == PhaseOf(item, PhasesOf(turn))
  {
    assert (turn + [x])[..|turn|] == turn;
    if TextId(item).Some? {
      TextIsClassified(turn, item);
    }
  }

  // The draft of a turn only grows.

  predicate NoResult(turn: seq<Item>) {
    forall item <- turn :: !Is(item, TurnResult)
  }

  /** But for results, placing an item depends on nothing but its own phase. */
  lemma PlaceDependsOnPhase(d: Draft, item: Item, phases: Phases, phases': Phases, texts: set<string>,
      texts': set<string>)
    requires !Is(item, TurnResult) && PhaseOf(item, phases') == PhaseOf(item, phases)
    ensures Place(d, item, phases', texts') == Place(d, item, phases, texts)
  {
  }

  lemma {:induction false} DraftPrefix(turn: seq<Item>, x: Item, k: nat, failures: seq<Failure>, failing: bool)
    requires k <= |turn| && NoResult(turn)
    ensures DraftAt(turn + [x], k, failures, failing) == DraftAt(turn, k, failures, failing)
  {
    hide Place, PhaseOf, TextsOf, PhasesOf;
    if k > 0 {
      var more := turn + [x];
      DraftPrefix(turn, x, k - 1, failures, failing);
      assert more[k - 1] == turn[k - 1] && turn[k - 1] in turn;
      PhaseStable(turn, x, turn[k - 1]);
      PlaceDependsOnPhase(DraftAt(turn, k - 1, failures, failing), turn[k - 1], PhasesOf(turn), PhasesOf(more),
                          TextsOf(turn, PhasesOf(turn)), TextsOf(more, PhasesOf(more)));
    }
  }

  ghost predicate GroupOk(group: Group) {
    group.items != [] && group.key == group.items[0].key && Ascending(group.items)
  }

  /** Groups follow each other in the log without overlap. */
  ghost predicate OrderedGroups(groups: seq<Group>) {
    && (forall i | 0 <= i < |groups| :: GroupOk(groups[i]))
    && (forall i, j | 0 <= i < j < |groups| :: Before(groups[i].items, groups[j].items))
  }

  ghost predicate Before(a: seq<Item>, b: seq<Item>) {
    forall x <- a, y <- b :: x.key < y.key
  }

  ghost predicate AllBelow(groups: seq<Group>, key: int) {
    forall i | 0 <= i < |groups| :: forall x <- groups[i].items :: x.key < key
  }

  ghost predicate GroupsGrow(groups: seq<Group>, groups': seq<Group>) {
    && |groups| <= |groups'|
    && (forall i | 0 <= i < |groups| :: groups'[i].key == groups[i].key && groups[i].items <= groups'[i].items)
    && (forall i | 0 <= i && i + 1 < |groups| :: groups'[i] == groups[i])
  }

  lemma AddToLastOrdered(groups: seq<Group>, x: Item)
    requires OrderedGroups(groups) && groups != [] && AllBelow(groups, x.key)
    ensures OrderedGroups(AddToLast(groups, x)) && AllBelow(AddToLast(groups, x), x.key + 1)
    ensures GroupsGrow(groups, AddToLast(groups, x))
  {
    var groups' := AddToLast(groups, x);
    var n := |groups| - 1;
    assert groups'[n].items == groups[n].items + [x];
    forall i, j | 0 <= i < j < |groups'| ensures Before(groups'[i].items, groups'[j].items) {
      assert Before(groups[i].items, groups[j].items);
    }
  }

  lemma NewGroupOrdered(groups: seq<Group>, x: Item)
    requires OrderedGroups(groups) && AllBelow(groups, x.key)
    ensures OrderedGroups(groups + [Group(x.key, [x])]) && AllBelow(groups + [Group(x.key, [x])], x.key + 1)
    ensures GroupsGrow(groups, groups + [Group(x.key, [x])])
  {
    var groups' := groups + [Group(x.key, [x])];
    forall i, j | 0 <= i < j < |groups'| ensures Before(groups'[i].items, groups'[j].items) {
      if j < |groups| {
        assert Before(groups[i].items, groups[j].items);
      }
    }
  }

  lemma UnchangedOrdered(groups: seq<Group>, x: Item)
    requires OrderedGroups(groups) && AllBelow(groups, x.key)
    ensures GroupsGrow(groups, groups) && AllBelow(groups, x.key + 1)
  {
  }

  /** What an item does to the groups of a draft. */
  function GroupsAfter(d: Draft, x: Item, phases: Phases): seq<Group> {
    if RunFailed(x) then d.groups
    else if LateMarker(x) then if d.groups == [] then d.groups else AddToLast(d.groups, x)
    else if !Background(x, phases) then d.groups
    else if d.open && d.groups != [] then AddToLast(d.groups, x)
    else d.groups + [Group(x.key, [x])]
  }

  lemma PlacedGroups(d: Draft, x: Item, phases: Phases, texts: set<string>)
    ensures Place(d, x, phases, texts).groups == GroupsAfter(d, x, phases)
    ensures d.slots <= Place(d, x, phases, texts).slots
  {
  }

  lemma PlaceGrows(d: Draft, x: Item, phases: Phases)
    requires OrderedGroups(d.groups) && AllBelow(d.groups, x.key)
    ensures var groups' := GroupsAfter(d, x, phases);
            GroupsGrow(d.groups, groups') && OrderedGroups(groups') && AllBelow(groups', x.key + 1)
  {
    if RunFailed(x) || (!LateMarker(x) && !Background(x, phases)) {
      UnchangedOrdered(d.groups, x);
    } else if d.groups != [] && (LateMarker(x) || d.open) {
      AddToLastOrdered(d.groups, x);
    } else if LateMarker(x) {
      UnchangedOrdered(d.groups, x);
    } else {
      NewGroupOrdered(d.groups, x);
    }
  }

  lemma {:induction false} DraftOrdered(turn: seq<Item>, k: nat, failures: seq<Failure>, failing: bool)
    requires k <= |turn| && Ascending(turn)
    ensures OrderedGroups(DraftAt(turn, k, failures, failing).groups)
    ensures k < |turn| ==> AllBelow(DraftAt(turn, k, failures, failing).groups, turn[k].key)
  {
    if k > 0 {
      DraftOrdered(turn, k - 1, failures, failing);
      PlacedGroups(DraftAt(turn, k - 1, failures, failing), turn[k - 1], PhasesOf(turn), TextsOf(turn, PhasesOf(turn)));
      PlaceGrows(DraftAt(turn, k - 1, failures, failing), turn[k - 1], PhasesOf(turn));
    }
  }

  ghost predicate GroupsWithin(groups: seq<Group>, items: seq<Item>) {
    forall i | 0 <= i < |groups| :: forall x <- groups[i].items :: x in items
  }

  lemma GroupsAfterWithin(d: Draft, x: Item, phases: Phases, items: seq<Item>)
    requires GroupsWithin(d.groups, items) && x in items
    ensures GroupsWithin(GroupsAfter(d, x, phases), items)
  {
    hide RunFailed, LateMarker, Background;
  }

  lemma NoGroups(turn: seq<Item>, failures: seq<Failure>, failing: bool)
    ensures GroupsWithin(DraftAt(turn, 0, failures, failing).groups, turn)
  {
  }

  /** Groups hold nothing but items of the turn. */
  lemma {:induction false} GroupsFromTurn(turn: seq<Item>, k: nat, failures: seq<Failure>, failing: bool)
    requires k <= |turn|
    ensures GroupsWithin(DraftAt(turn, k, failures, failing).groups, turn)
  {
    hide Place, PhasesOf, TextsOf, GroupsWithin, GroupsAfter;
    if k == 0 {
      NoGroups(turn, failures, failing);
    } else {
      GroupsFromTurn(turn, k - 1, failures, failing);
      var d, phases := DraftAt(turn, k - 1, failures, failing), PhasesOf(turn);
      PlacedGroups(d, turn[k - 1], phases, TextsOf(turn, phases));
      GroupsAfterWithin(d, turn[k - 1], phases, turn);
    }
  }
}
