/** The same guarantee event by event: prose that is still streaming extends the item it began. */
module TranscriptStreaming {
  import opened Wrappers
  import opened ConversationItems
  import opened Transcript
  import opened TranscriptDrafts
  import opened TranscriptMerge
  import opened TranscriptStability
  import opened Subsequences

  /** Two texts that differ at most in what they say so far. */
  predicate SameVoice(t: Item, t': Item) {
    t.Text? && t'.Text? && t'.key == t.key && t'.agent == t.agent && t'.messageId == t.messageId && t'.phase == t.phase
  }

  lemma PhasesAlike(turn: seq<Item>, t: Item, t': Item)
    requires SameVoice(t, t')
    ensures PhasesOf(turn + [t']) == PhasesOf(turn + [t])
  {
    assert (turn + [t])[..|turn|] == turn && (turn + [t'])[..|turn|] == turn;
  }

  /** Groups that agree in their keys and in which of them did work are shown under the same keys. */
  lemma VisibleKeysAlike(groups: seq<Group>, groups': seq<Group>, phases: Phases)
    requires OrderedGroups(groups) && OrderedGroups(groups') && |groups| == |groups'|
    requires forall i | 0 <= i < |groups| ::
             groups'[i].key == groups[i].key && Kept(groups'[i], phases) == Kept(groups[i], phases)
    ensures VisibleKeys(groups', KeptOf(groups', phases)) == VisibleKeys(groups, KeptOf(groups, phases))
  {
    var keep, keep' := KeptOf(groups, phases), KeptOf(groups', phases);
    assert keep == keep';
    forall i | 0 <= i < |groups| && keep[i]
      ensures Settled(groups', keep')[i].key == Settled(groups, keep)[i].key
    {
      SettledKey(groups, keep, i);
      SettledKey(groups', keep', i);
    }
  }

  lemma KeptAlike(group: Group, t: Item, t': Item, phases: Phases)
    requires SameVoice(t, t')
    ensures Kept(group.(items := group.items + [t']), phases) == Kept(group.(items := group.items + [t]), phases)
  {
    var with, with' := group.items + [t], group.items + [t'];
    assert WorkItem(t, phases) == WorkItem(t', phases);
    assert forall x <- group.items :: x in with && x in with';
    assert with[|group.items|] == t && with'[|group.items|] == t';
  }

  lemma GroupAlikeAt(d: Draft, t: Item, t': Item, phases: Phases, i: nat)
    requires SameVoice(t, t') && i < |GroupsAfter(d, t, phases)|
    ensures var g, g' := GroupsAfter(d, t, phases), GroupsAfter(d, t', phases);
            |g'| == |g| && g'[i].key == g[i].key && Kept(g'[i], phases) == Kept(g[i], phases)
  {
    if i < |d.groups| {
      KeptAlike(d.groups[i], t, t', phases);
    } else {
      KeptAlike(Group(t.key, []), t, t', phases);
      assert [] + [t] == [t] && [] + [t'] == [t'];
    }
  }

  lemma GroupsAlike(d: Draft, t: Item, t': Item, phases: Phases)
    requires SameVoice(t, t') && OrderedGroups(d.groups) && AllBelow(d.groups, t.key)
    ensures var g, g' := GroupsAfter(d, t, phases), GroupsAfter(d, t', phases);
            VisibleKeys(g', KeptOf(g', phases)) == VisibleKeys(g, KeptOf(g, phases))
  {
    PlaceGrows(d, t, phases);
    PlaceGrows(d, t', phases);
    var g, g' := GroupsAfter(d, t, phases), GroupsAfter(d, t', phases);
    assert |g'| == |g|;
    forall i: nat | i < |g| ensures g'[i].key == g[i].key && Kept(g'[i], phases) == Kept(g[i], phases) {
      GroupAlikeAt(d, t, t', phases, i);
    }
    VisibleKeysAlike(g, g', phases);
  }

  lemma PlacedText(d: Draft, t: Item, phases: Phases, texts: set<string>)
    requires t.Text?
    ensures Place(d, t, phases, texts) ==
            if InProgressText(t, phases) then PlaceWork(d, t)
              else d.(slots := d.slots + [MessageSlot(t)], open := false)
  {
  }

  lemma SlotsAlike(d: Draft, t: Item, t': Item, phases: Phases, texts: set<string>, texts': set<string>,
      keys: seq<Option<int>>)
    requires SameVoice(t, t')
    ensures SlotIds(Place(d, t', phases, texts').slots, keys) == SlotIds(Place(d, t, phases, texts).slots, keys)
  {
    PlacedText(d, t, phases, texts);
    PlacedText(d, t', phases, texts');
    if !InProgressText(t, phases) {
      assert (d.slots + [MessageSlot(t)])[..|d.slots|] == d.slots == (d.slots + [MessageSlot(t')])[..|d.slots|];
    }
  }

  /** The draft of a turn with one more item is that of the turn, with the item placed. */
  lemma DraftNext(turn: seq<Item>, x: Item, failures: seq<Failure>, failing: bool)
    requires NoResult(turn) && Ascending(turn + [x])
    ensures var more := turn + [x];
            DraftOf(more, failures, failing)
            == Place(DraftOf(turn, failures, failing), x, PhasesOf(more), TextsOf(more, PhasesOf(more)))
    ensures var groups := DraftOf(turn, failures, failing).groups; OrderedGroups(groups) && AllBelow(groups, x.key)
  {
    var more := turn + [x];
    hide Place, OrderedGroups, AllBelow, PhasesOf, TextsOf, NoResult;
    DraftPrefix(turn, x, |turn|, failures, failing);
    DraftOrdered(more, |turn|, failures, failing);
    assert more[|turn|] == x;
  }

  lemma AscendingAlike(turn: seq<Item>, t: Item, t': Item)
    requires Ascending(turn + [t]) && t'.key == t.key
    ensures Ascending(turn + [t'])
  {
    forall i, j | 0 <= i < j < |turn + [t']| ensures (turn + [t'])[i].key < (turn + [t'])[j].key {
      assert (turn + [t])[i].key < (turn + [t])[j].key;
    }
  }

  lemma TurnIdsAlike(turn: seq<Item>, t: Item, t': Item, failures: seq<Failure>, failing: bool)
    requires SameVoice(t, t') && NoResult(turn) && Ascending(turn + [t])
    ensures TurnIds(turn + [t'], failures, failing) == TurnIds(turn + [t], failures, failing)
  {
    hide Place, OrderedGroups, AllBelow, PhasesOf, TextsOf, KeptOf, SlotIds, VisibleKeys, DraftOf, NoResult, Ascending;
    var more, more' := turn + [t], turn + [t'];
    var d := DraftOf(turn, failures, failing);
    AscendingAlike(turn, t, t');
    DraftNext(turn, t, failures, failing);
    DraftNext(turn, t', failures, failing);
    PhasesAlike(turn, t, t');
    var phases := PhasesOf(more);
    PlacedGroups(d, t, phases, TextsOf(more, phases));
    PlacedGroups(d, t', phases, TextsOf(more', phases));
    GroupsAlike(d, t, t', phases);
    var keys := VisibleKeys(GroupsAfter(d, t, phases), KeptOf(GroupsAfter(d, t, phases), phases));
    SlotsAlike(d, t, t', phases, TextsOf(more, phases), TextsOf(more', phases), keys);
  }

  lemma TextIsCollected(p: Projection, t: Item)
    requires t.Text?
    ensures Receive(p, t) == p.(turn := p.turn + [t])
  {
    hide Flush, Historical;
  }

  /** More of a message changes no row's kind or key. */
  lemma LongerTextSameRows(log: seq<Item>, t: Item, t': Item, live: bool, live': bool)
    requires SameVoice(t, t') && Ascending(log + [t])
    ensures Ids(Present(log + [t'], live').rows) == Ids(Present(log + [t], live).rows)
  {
    hide Received, Receive, Flush, Ids, TurnIds, NoResult, Ascending;
    var p := Received(log);
    AscendingPrefix(log, t);
    ReceivedTurnOk(log);
    TurnAscends(log, t, p);
    ReceivedOne(log, t);
    ReceivedOne(log, t');
    TextIsCollected(p, t);
    TextIsCollected(p, t');
    TurnIdsAlike(p.turn, t, t', p.failures, p.failing);
    FlushedIds(Received(log + [t]), live);
    FlushedIds(Received(log + [t']), live');
  }

  lemma AppendKeepsAscending(log: seq<Item>, event: Incoming, seqNo: int)
    requires Ascending(log) && forall x <- log :: x.key < seqNo
    ensures Ascending(AppendHistoryEvent(log, event, seqNo))
    ensures forall x <- AppendHistoryEvent(log, event, seqNo) :: x.key <= seqNo
  {
  }

  /** Whatever event arrives next, every row on screen stays, with its kind and key. */
  lemma StreamingStability(log: seq<Item>, event: Incoming, seqNo: int, live: bool, live': bool)
    requires Ascending(log) && forall x <- log :: x.key < seqNo
    ensures Sub(Ids(Present(log, live).rows), Ids(Present(AppendHistoryEvent(log, event, seqNo), live').rows))
  {
    AppendKeepsAscending(log, event, seqNo);
    if log != [] && Continues(log[|log| - 1], event) {
      var last := log[|log| - 1];
      var next := last.(endSeq := seqNo, text := last.text + event.text);
      assert log == log[..|log| - 1] + [last];
      LongerTextSameRows(log[..|log| - 1], last, next, live, live');
      SubItself(Ids(Present(log, live).rows));
    } else {
      PrefixStability(log, [Fresh(event, seqNo)], live, live');
    }
  }
}
