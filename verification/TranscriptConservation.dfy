/** The compact transcript is a view and not a filter: what becomes of every item of the log. */
module TranscriptConservation {
  import opened ConversationItems
  import opened Transcript
  import opened TranscriptDrafts
  import opened TranscriptFailureRows
  import opened TranscriptMerge

  // Accounts of the items held by each part of a draft.

  function SlotItems(slots: seq<Slot>): multiset<Item> {
    if slots == [] then multiset{}
    else
      SlotItems(slots[..|slots| - 1])
      + match slots[|slots| - 1] case MessageSlot(item) => multiset{item} case _ => multiset{}
  }

  function GroupItems(groups: seq<Group>): multiset<Item> {
    if groups == [] then multiset{} else GroupItems(groups[..|groups| - 1]) + multiset(groups[|groups| - 1].items)
  }

  function FailureItems(failures: seq<Failure>): multiset<Item> {
    if failures == [] then multiset{}
      else FailureItems(failures[..|failures| - 1]) + multiset(failures[|failures| - 1].items)
  }

  /** No item before k has opened an Activity. */
  predicate NothingOpened(turn: seq<Item>, k: nat, phases: Phases)
    requires k <= |turn|
  {
    forall i | 0 <= i < k :: RunFailed(turn[i]) || LateMarker(turn[i]) || !Background(turn[i], phases)
  }

  /** Late markers with no earlier Activity in their turn. */
  function LooseMarkers(turn: seq<Item>, k: nat): seq<Item>
    requires k <= |turn|
  {
    if k == 0 then []
    else LooseMarkers(turn, k - 1) +
         if !RunFailed(turn[k - 1]) && LateMarker(turn[k - 1])
           && NothingOpened(turn, k - 1, PhasesOf(turn)) then [turn[k - 1]] else []
  }

  /** The items of a turn that belong to a disclosure. */
  function Disclosed(turn: seq<Item>, k: nat): seq<Item>
    requires k <= |turn|
  {
    if k == 0 then []
    else
      var item := turn[k - 1];
      Disclosed(turn, k - 1) +
      if !RunFailed(item) && (if LateMarker(item) then !NothingOpened(turn, k - 1, PhasesOf(turn))
        else Background(item, PhasesOf(turn)))
      then [item] else []
  }

  lemma AddToLastItems(groups: seq<Group>, x: Item)
    requires groups != []
    ensures GroupItems(AddToLast(groups, x)) == GroupItems(groups) + multiset{x}
  {
    var groups' := AddToLast(groups, x);
    assert groups'[..|groups'| - 1] == groups[..|groups| - 1];
  }

  lemma NewGroupItems(groups: seq<Group>, x: Item)
    ensures GroupItems(groups + [Group(x.key, [x])]) == GroupItems(groups) + multiset{x}
  {
    var groups' := groups + [Group(x.key, [x])];
    assert groups'[..|groups|] == groups;
  }

  lemma LastFailureItems(failures: seq<Failure>, last: Failure)
    requires failures != []
    ensures FailureItems(failures[|failures| - 1 := last]) == FailureItems(failures[..|failures| - 1])
            + multiset(last.items)
  {
    var failures' := failures[|failures| - 1 := last];
    assert failures'[..|failures'| - 1] == failures[..|failures| - 1];
  }

  /** Where an item goes, as an account. */
  function Accounted(d: Draft): multiset<Item> {
    SlotItems(d.slots) + GroupItems(d.groups) + FailureItems(d.failures)
  }

  lemma NewFailureItems(d: Draft, x: Item)
    ensures var failures := d.failures + [Failure(x.key, [], false, false)];
            FailureItems(failures[|d.failures| := Failure(x.key, [x], false, false)]) == FailureItems(d.failures)
              + multiset{x}
    ensures SlotItems(d.slots + [FailureSlot(x.key, |d.failures|)]) == SlotItems(d.slots)
  {
    var failures := d.failures + [Failure(x.key, [], false, false)];
    assert failures[..|d.failures|] == d.failures;
    assert (d.slots + [FailureSlot(x.key, |d.failures|)])[..|d.slots|] == d.slots;
    LastFailureItems(failures, Failure(x.key, [x], false, false));
  }

  lemma AnotherFailureItem(failures: seq<Failure>, x: Item)
    requires failures != []
    ensures var last := failures[|failures| - 1];
            FailureItems(failures[|failures| - 1 := last.(items := last.items + [x], completed := false)]) ==
            FailureItems(failures) + multiset{x}
  {
    var last := failures[|failures| - 1];
    LastFailureItems(failures, last.(items := last.items + [x], completed := false));
    Regroup(FailureItems(failures[..|failures| - 1]), multiset(last.items), multiset{x});
  }

  lemma PlaceFailureItems(d: Draft, x: Item)
    ensures var d' := PlaceFailure(d, x);
            && FailureItems(d'.failures) == FailureItems(d.failures) + multiset{x}
            && SlotItems(d'.slots) == SlotItems(d.slots) && d'.groups == d.groups
  {
    hide FailureItems, SlotItems;
    if !(d.failing && d.failures != []) {
      NewFailureItems(d, x);
      assert [] + [x] == [x];
    } else {
      AnotherFailureItem(d.failures, x);
    }
  }

  lemma CompletedItems(d: Draft, x: Item)
    ensures Accounted(Completed(d, x)) == Accounted(d)
    ensures Completed(d, x) == d.(failures := Completed(d, x).failures)
  {
    if d.failures != [] {
      LastFailureItems(d.failures, d.failures[|d.failures| - 1].(completed := true));
    }
  }

  lemma PlaceAnswerItems(d: Draft, x: Item, texts: set<string>)
    ensures Accounted(PlaceAnswer(d, x, texts)) == Accounted(d)
    ensures PlaceAnswer(d, x, texts).groups == d.groups && PlaceAnswer(d, x, texts).failures == d.failures
  {
    if Answers(d, x, texts) {
      assert (d.slots + [AnswerSlot(AnswerOf(x))])[..|d.slots|] == d.slots;
    }
  }

  lemma GroupSlotItems(slots: seq<Slot>, g: nat)
    ensures SlotItems(slots + [GroupSlot(g)]) == SlotItems(slots)
  {
    assert (slots + [GroupSlot(g)])[..|slots|] == slots;
  }

  lemma PlaceWorkItems(d: Draft, x: Item)
    ensures Accounted(PlaceWork(d, x)) == Accounted(d) + multiset{x}
  {
    if d.open && d.groups != [] {
      AddToLastItems(d.groups, x);
    } else {
      NewGroupItems(d.groups, x);
      GroupSlotItems(d.slots, |d.groups|);
    }
  }

  lemma PlaceMessageItems(d: Draft, x: Item)
    ensures Accounted(d.(slots := d.slots + [MessageSlot(x)], open := false)) == Accounted(d) + multiset{x}
  {
    assert (d.slots + [MessageSlot(x)])[..|d.slots|] == d.slots;
  }

  lemma PlaceFailureAccount(d: Draft, x: Item)
    ensures Accounted(PlaceFailure(d, x)) == Accounted(d) + multiset{x}
  {
    PlaceFailureItems(d, x);
    hide PlaceFailure;
  }

  lemma PlaceMarkerItems(d: Draft, x: Item)
    requires d.groups != []
    ensures Accounted(d.(groups := AddToLast(d.groups, x))) == Accounted(d) + multiset{x}
  {
    AddToLastItems(d.groups, x);
    hide AddToLast;
  }

  lemma PlaceItems(d: Draft, x: Item, phases: Phases, texts: set<string>)
    ensures Accounted(Place(d, x, phases, texts)) ==
            Accounted(d) + if !RunFailed(x) && LateMarker(x) && d.groups == [] then multiset{} else multiset{x}
  {
    hide Accounted, RunFailed, LateMarker, Background, Completed, PlaceFailure, PlaceWork, PlaceAnswer, AddToLast;
    if RunFailed(x) {
      PlaceFailureAccount(d, x);
    } else {
      CompletedItems(d, x);
      var d := Completed(d, x);
      if LateMarker(x) {
        if d.groups != [] {
          PlaceMarkerItems(d, x);
        }
      } else if Background(x, phases) {
        PlaceWorkItems(d, x);
        PlaceAnswerItems(PlaceWork(d, x), x, texts);
      } else {
        PlaceMessageItems(d, x);
        PlaceAnswerItems(d.(slots := d.slots + [MessageSlot(x)], open := false), x, texts);
      }
    }
  }

  /** Whether an item joins a disclosure when it is placed. */
  predicate Joins(d: Draft, x: Item, phases: Phases) {
    !RunFailed(x) && if LateMarker(x) then d.groups != [] else Background(x, phases)
  }

  lemma GroupsAfterItems(d: Draft, x: Item, phases: Phases)
    ensures GroupItems(GroupsAfter(d, x, phases)) == GroupItems(d.groups) + if Joins(d, x, phases) then multiset{x}
            else multiset{}
  {
    hide AddToLast, GroupItems, RunFailed, LateMarker, Background;
    if d.groups != [] {
      AddToLastItems(d.groups, x);
    }
    NewGroupItems(d.groups, x);
  }

  lemma GroupsNext(turn: seq<Item>, k: nat, failures: seq<Failure>, failing: bool)
    requires 0 < k <= |turn|
    ensures DraftAt(turn, k, failures, failing).groups ==
            GroupsAfter(DraftAt(turn, k - 1, failures, failing), turn[k - 1], PhasesOf(turn))
  {
    hide GroupsAfter;
    PlacedGroups(DraftAt(turn, k - 1, failures, failing), turn[k - 1], PhasesOf(turn), TextsOf(turn, PhasesOf(turn)));
    hide Place;
  }

  lemma OpenedNext(d: Draft, d': Draft, turn: seq<Item>, k: nat)
    requires 0 < k <= |turn| && d'.groups == GroupsAfter(d, turn[k - 1], PhasesOf(turn))
    requires d.groups == [] <==> NothingOpened(turn, k - 1, PhasesOf(turn))
    ensures d'.groups == [] <==> NothingOpened(turn, k, PhasesOf(turn))
  {
    hide RunFailed, LateMarker, Background, PhasesOf;
  }

  lemma DraftStart(turn: seq<Item>, failures: seq<Failure>, failing: bool)
    ensures DraftAt(turn, 0, failures, failing) == Draft([], [], false, {}, failures, failing)
  {
  }

  lemma {:induction false} GroupsOpened(turn: seq<Item>, k: nat, failures: seq<Failure>, failing: bool)
    requires k <= |turn|
    ensures DraftAt(turn, k, failures, failing).groups == [] <==> NothingOpened(turn, k, PhasesOf(turn))
  {
    hide DraftAt, GroupsAfter;
    if k == 0 {
      DraftStart(turn, failures, failing);
    } else {
      GroupsOpened(turn, k - 1, failures, failing);
      GroupsNext(turn, k, failures, failing);
      OpenedNext(DraftAt(turn, k - 1, failures, failing), DraftAt(turn, k, failures, failing), turn, k);
    }
  }

  lemma DisclosedNext(d: Draft, d': Draft, turn: seq<Item>, k: nat)
    requires 0 < k <= |turn| && d'.groups == GroupsAfter(d, turn[k - 1], PhasesOf(turn))
    requires d.groups == [] <==> NothingOpened(turn, k - 1, PhasesOf(turn))
    requires GroupItems(d.groups) == multiset(Disclosed(turn, k - 1))
    ensures GroupItems(d'.groups) == multiset(Disclosed(turn, k))
  {
    GroupsAfterItems(d, turn[k - 1], PhasesOf(turn));
    hide GroupsAfter;
  }

  lemma {:induction false} DisclosedItems(turn: seq<Item>, k: nat, failures: seq<Failure>, failing: bool)
    requires k <= |turn|
    ensures GroupItems(DraftAt(turn, k, failures, failing).groups) == multiset(Disclosed(turn, k))
  {
    hide DraftAt, GroupsAfter;
    if k == 0 {
      DraftStart(turn, failures, failing);
    } else {
      DisclosedItems(turn, k - 1, failures, failing);
      GroupsOpened(turn, k - 1, failures, failing);
      GroupsNext(turn, k, failures, failing);
      hide *;
      DisclosedNext(DraftAt(turn, k - 1, failures, failing), DraftAt(turn, k, failures, failing), turn, k);
    }
  }

  /** Whether an item is a late marker that no disclosure takes. */
  predicate Loose(d: Draft, x: Item) {
    !RunFailed(x) && LateMarker(x) && d.groups == []
  }

  lemma AccountNext(turn: seq<Item>, k: nat, failures: seq<Failure>, failing: bool)
    requires 0 < k <= |turn|
    ensures Accounted(DraftAt(turn, k, failures, failing)) ==
            Accounted(DraftAt(turn, k - 1, failures, failing)) +
            if Loose(DraftAt(turn, k - 1, failures, failing), turn[k - 1]) then multiset{} else multiset{turn[k - 1]}
  {
    PlaceItems(DraftAt(turn, k - 1, failures, failing), turn[k - 1], PhasesOf(turn), TextsOf(turn, PhasesOf(turn)));
    hide Place, Accounted;
  }

  lemma LooseNext(d: Draft, turn: seq<Item>, k: nat)
    requires 0 < k <= |turn|
    requires d.groups == [] <==> NothingOpened(turn, k - 1, PhasesOf(turn))
    ensures multiset(turn[..k]) == multiset(turn[..k - 1]) + multiset{turn[k - 1]}
    ensures multiset(LooseMarkers(turn, k)) ==
            multiset(LooseMarkers(turn, k - 1)) + if Loose(d, turn[k - 1]) then multiset{turn[k - 1]} else multiset{}
  {
    hide RunFailed, LateMarker, NothingOpened, PhasesOf;
    assert turn[..k] == turn[..k - 1] + [turn[k - 1]];
    assert LooseMarkers(turn, k) == LooseMarkers(turn, k - 1) + if Loose(d, turn[k - 1]) then [turn[k - 1]] else [];
  }

  lemma Balanced(before: multiset<Item>, taken: multiset<Item>, held: multiset<Item>, held': multiset<Item>,
                 loose: multiset<Item>, loose': multiset<Item>, x: Item, isLoose: bool)
    requires taken + before == held + loose
    requires held' == held + if isLoose then multiset{} else multiset{x}
    requires loose' == loose + if isLoose then multiset{x} else multiset{}
    ensures taken + multiset{x} + before == held' + loose'
  {
    assert taken + multiset{x} + before == taken + before + multiset{x};
    if isLoose {
      assert held + (loose + multiset{x}) == held + loose + multiset{x};
    } else {
      assert held + multiset{x} + loose == held + loose + multiset{x};
    }
  }

  lemma AccountStart(turn: seq<Item>, failures: seq<Failure>, failing: bool)
    ensures multiset(turn[..0]) + FailureItems(failures) ==
            Accounted(DraftAt(turn, 0, failures, failing)) + multiset(LooseMarkers(turn, 0))
  {
    hide Place, FailureItems;
  }

  lemma {:induction false} DraftAccount(turn: seq<Item>, k: nat, failures: seq<Failure>, failing: bool)
    requires k <= |turn|
    ensures multiset(turn[..k]) + FailureItems(failures) ==
            Accounted(DraftAt(turn, k, failures, failing)) + multiset(LooseMarkers(turn, k))
  {
    hide *;
    if k == 0 {
      AccountStart(turn, failures, failing);
    } else {
      var d, d' := DraftAt(turn, k - 1, failures, failing), DraftAt(turn, k, failures, failing);
      DraftAccount(turn, k - 1, failures, failing);
      GroupsOpened(turn, k - 1, failures, failing);
      AccountNext(turn, k, failures, failing);
      LooseNext(d, turn, k);
      Balanced(FailureItems(failures), multiset(turn[..k - 1]), Accounted(d), Accounted(d'),
               multiset(LooseMarkers(turn, k - 1)), multiset(LooseMarkers(turn, k)), turn[k - 1],
                 Loose(d, turn[k - 1]));
    }
  }

  // Merging moves items between groups and loses none.

  /** The items of the kept groups among the first n. */
  function KeptItems(groups: seq<Group>, keep: seq<bool>, n: nat): multiset<Item>
    requires |keep| == |groups| && n <= |groups|
  {
    if n == 0 then multiset{}
    else KeptItems(groups, keep, n - 1) + if keep[n - 1] then multiset(groups[n - 1].items) else multiset{}
  }

  /** The items of the dropped groups from i on. */
  function DroppedItems(groups: seq<Group>, keep: seq<bool>, i: nat): multiset<Item>
    requires |keep| == |groups| && i <= |groups|
    decreases |groups| - i
  {
    if i == |groups| then multiset{}
    else (if keep[i] then multiset{} else multiset(groups[i].items)) + DroppedItems(groups, keep, i + 1)
  }

  function Updated(groups: seq<Group>, t: nat, extra: seq<Item>): (updated: seq<Group>)
    requires t < |groups|
    ensures |updated| == |groups|
  {
    groups[t := groups[t].(items := Sort(groups[t].items + extra))]
  }

  lemma UpdatedItems(groups: seq<Group>, t: nat, extra: seq<Item>, n: nat)
    requires t < |groups| && n < |groups|
    ensures multiset(Updated(groups, t, extra)[n].items) ==
            multiset(groups[n].items) + if n == t then multiset(extra) else multiset{}
  {
    if n == t {
      SortContents(groups[t].items + extra);
      assert multiset(groups[t].items + extra) == multiset(groups[t].items) + multiset(extra);
    }
  }

  lemma KeptItemsNext(groups: seq<Group>, keep: seq<bool>, n: nat)
    requires |keep| == |groups| && 0 < n <= |groups|
    ensures KeptItems(groups, keep, n) == KeptItems(groups, keep, n - 1) + if keep[n - 1] then
            multiset(groups[n - 1].items) else multiset{}
  {
  }

  lemma NoKeptItems(groups: seq<Group>, keep: seq<bool>)
    requires |keep| == |groups|
    ensures KeptItems(groups, keep, 0) == multiset{}
  {
  }

  lemma {:induction false} KeptItemsUpdate(groups: seq<Group>, keep: seq<bool>, t: nat, extra: seq<Item>, n: nat)
    requires |keep| == |groups| && t < |groups| && n <= |groups| && keep[t]
    ensures KeptItems(Updated(groups, t, extra), keep, n) ==
            KeptItems(groups, keep, n) + if t < n then multiset(extra) else multiset{}
  {
    hide *;
    if n == 0 {
      NoKeptItems(groups, keep);
      NoKeptItems(Updated(groups, t, extra), keep);
    } else {
      KeptItemsUpdate(groups, keep, t, extra, n - 1);
      KeptItemsNext(groups, keep, n);
      KeptItemsNext(Updated(groups, t, extra), keep, n);
      UpdatedItems(groups, t, extra, n - 1);
      var kept, own := KeptItems(groups, keep, n - 1), multiset(groups[n - 1].items);
      if n - 1 == t {
        Regroup(kept, own, multiset(extra));
      } else if keep[n - 1] && t < n {
        assert kept + multiset(extra) + own == kept + own + multiset(extra);
      }
    }
  }

  lemma {:induction false} DroppedItemsSame(groups: seq<Group>, groups': seq<Group>, keep: seq<bool>, i: nat)
    requires |keep| == |groups| == |groups'| && i <= |groups|
    requires forall m | 0 <= m < |groups| && !keep[m] :: groups'[m] == groups[m]
    ensures DroppedItems(groups', keep, i) == DroppedItems(groups, keep, i)
    decreases |groups| - i
  {
    if i < |groups| {
      DroppedItemsSame(groups, groups', keep, i + 1);
    }
  }

  predicate AnyKept(keep: seq<bool>) {
    exists i :: 0 <= i < |keep| && keep[i]
  }

  lemma MergeStepItems(groups: seq<Group>, keep: seq<bool>, i: nat)
    requires |keep| == |groups| && i < |groups| && AnyKept(keep)
    ensures KeptItems(MergeStep(groups, keep, i), keep, |groups|) ==
            KeptItems(groups, keep, |groups|) + if keep[i] then multiset{} else multiset(groups[i].items)
  {
    if !keep[i] {
      TargetIsKept(groups, keep, groups[i].key);
      KeptItemsUpdate(groups, keep, Target(groups, keep, groups[i].key).value, groups[i].items, |groups|);
    }
  }

  lemma DroppedItemsNext(groups: seq<Group>, keep: seq<bool>, i: nat)
    requires |keep| == |groups| && i < |groups|
    ensures DroppedItems(groups, keep, i) == (if keep[i] then multiset{} else multiset(groups[i].items))
            + DroppedItems(groups, keep, i + 1)
    ensures MergeFrom(groups, keep, i) == MergeFrom(MergeStep(groups, keep, i), keep, i + 1)
  {
  }

  lemma NothingLeft(groups: seq<Group>, keep: seq<bool>)
    requires |keep| == |groups|
    ensures MergeFrom(groups, keep, |groups|) == groups && DroppedItems(groups, keep, |groups|) == multiset{}
  {
  }

  lemma {:induction false} MergeItems(groups: seq<Group>, keep: seq<bool>, i: nat)
    requires |keep| == |groups| && i <= |groups| && AnyKept(keep)
    ensures KeptItems(MergeFrom(groups, keep, i), keep, |groups|) == KeptItems(groups, keep, |groups|)
            + DroppedItems(groups, keep, i)
    decreases |groups| - i
  {
    hide *;
    if i == |groups| {
      NothingLeft(groups, keep);
    } else {
      var merged := MergeStep(groups, keep, i);
      MergeStepItems(groups, keep, i);
      MergeStepKeeps(groups, keep, i);
      DroppedItemsSame(groups, merged, keep, i + 1);
      DroppedItemsNext(groups, keep, i);
      MergeItems(merged, keep, i + 1);
      Regroup(KeptItems(groups, keep, |groups|), if keep[i] then multiset{}
        else multiset(groups[i].items), DroppedItems(groups, keep, i + 1));
    }
  }

  lemma {:induction false} KeptItemsLowered(groups: seq<Group>, keep: seq<bool>, n: nat)
    requires |keep| == |groups| && n <= |groups|
    ensures KeptItems(LowerKeys(groups, keep), keep, n) == KeptItems(groups, keep, n)
  {
    if n > 0 {
      KeptItemsLowered(groups, keep, n - 1);
    }
  }

  lemma {:induction false} AllGroupItems(groups: seq<Group>, keep: seq<bool>, n: nat)
    requires |keep| == |groups| && n <= |groups|
    ensures GroupItems(groups[..n]) + DroppedItems(groups, keep, n) == KeptItems(groups, keep, n)
            + DroppedItems(groups, keep, 0)
  {
    if n == 0 {
      assert groups[..0] == [];
    } else {
      hide *;
      AllGroupItems(groups, keep, n - 1);
      GroupItemsTo(groups, keep, n);
      Moved(GroupItems(groups[..n - 1]), KeptItems(groups, keep, n - 1), DroppedItems(groups, keep, n),
            DroppedItems(groups, keep, 0), multiset(groups[n - 1].items), keep[n - 1]);
    }
  }

  lemma Moved(all: multiset<Item>, kept: multiset<Item>, rest: multiset<Item>, dropped: multiset<Item>,
      own: multiset<Item>, keep: bool)
    requires all + ((if keep then multiset{} else own) + rest) == kept + dropped
    ensures all + own + rest == kept + (if keep then own else multiset{}) + dropped
  {
    if keep {
      assert all + own + rest == all + (multiset{} + rest) + own;
      assert kept + own + dropped == kept + dropped + own;
    } else {
      assert all + own + rest == all + (own + rest);
    }
  }

  lemma GroupItemsTo(groups: seq<Group>, keep: seq<bool>, n: nat)
    requires |keep| == |groups| && 0 < n <= |groups|
    ensures GroupItems(groups[..n]) == GroupItems(groups[..n - 1]) + multiset(groups[n - 1].items)
    ensures KeptItems(groups, keep, n) == KeptItems(groups, keep, n - 1) + if keep[n - 1] then
            multiset(groups[n - 1].items) else multiset{}
    ensures DroppedItems(groups, keep, n - 1) ==
            (if keep[n - 1] then multiset{} else multiset(groups[n - 1].items)) + DroppedItems(groups, keep, n)
  {
    assert groups[..n][..n - 1] == groups[..n - 1];
  }

  /** What the settled groups show: everything, or nothing where no group did work. */
  lemma SettledItems(groups: seq<Group>, keep: seq<bool>)
    requires |keep| == |groups|
    ensures KeptItems(Settled(groups, keep), keep, |groups|) == if AnyKept(keep) then GroupItems(groups) else multiset{}
  {
    KeptItemsLowered(MergeFrom(groups, keep, 0), keep, |groups|);
    if AnyKept(keep) {
      MergeItems(groups, keep, 0);
      AllGroupItems(groups, keep, |groups|);
      assert groups[..|groups|] == groups;
    } else {
      NoneKept(Settled(groups, keep), keep, |groups|);
    }
  }

  lemma {:induction false} NoneKept(groups: seq<Group>, keep: seq<bool>, n: nat)
    requires |keep| == |groups| && n <= |groups| && !AnyKept(keep)
    ensures KeptItems(groups, keep, n) == multiset{}
  {
    if n > 0 {
      NoneKept(groups, keep, n - 1);
    }
  }

  // From slots to rows.

  /** The groups that slots refer to are numbered in order, each once. */
  predicate RefersTo(slots: seq<Slot>, n: nat) {
    if slots == [] then n == 0
    else match slots[|slots| - 1]
      case GroupSlot(g) => n > 0 && g == n - 1 && RefersTo(slots[..|slots| - 1], n - 1)
      case _ => RefersTo(slots[..|slots| - 1], n)
  }

  lemma RefersToMore(slots: seq<Slot>, slot: Slot, n: nat)
    requires RefersTo(slots, n)
    ensures RefersTo(slots + [slot], n) || slot.GroupSlot?
    ensures RefersTo(slots + [GroupSlot(n)], n + 1)
  {
    assert (slots + [slot])[..|slots|] == slots && (slots + [GroupSlot(n)])[..|slots|] == slots;
  }

  lemma PlaceAnswerRefers(d: Draft, x: Item, texts: set<string>)
    requires RefersTo(d.slots, |d.groups|)
    ensures RefersTo(PlaceAnswer(d, x, texts).slots, |d.groups|)
  {
    if Answers(d, x, texts) {
      RefersToMore(d.slots, AnswerSlot(AnswerOf(x)), |d.groups|);
    }
  }

  lemma PlaceWorkRefers(d: Draft, x: Item)
    requires RefersTo(d.slots, |d.groups|)
    ensures RefersTo(PlaceWork(d, x).slots, |PlaceWork(d, x).groups|)
  {
    RefersToMore(d.slots, GroupSlot(|d.groups|), |d.groups|);
  }

  lemma PlaceRefers(d: Draft, x: Item, phases: Phases, texts: set<string>)
    requires RefersTo(d.slots, |d.groups|)
    ensures RefersTo(Place(d, x, phases, texts).slots, |Place(d, x, phases, texts).groups|)
  {
    hide RefersTo, AddToLast, Answers, Background;
    if RunFailed(x) {
      RefersToMore(d.slots, FailureSlot(x.key, |d.failures|), |d.groups|);
    } else if !LateMarker(x) {
      var d := Completed(d, x);
      if Background(x, phases) {
        PlaceWorkRefers(d, x);
        PlaceAnswerRefers(PlaceWork(d, x), x, texts);
      } else {
        RefersToMore(d.slots, MessageSlot(x), |d.groups|);
        PlaceAnswerRefers(d.(slots := d.slots + [MessageSlot(x)], open := false), x, texts);
      }
    } else {
      AddToLastKeeps(d.groups, x);
    }
  }

  lemma AddToLastKeeps(groups: seq<Group>, x: Item)
    ensures groups != [] ==> |AddToLast(groups, x)| == |groups|
  {
  }

  lemma {:induction false} DraftRefers(turn: seq<Item>, k: nat, failures: seq<Failure>, failing: bool)
    requires k <= |turn|
    ensures RefersTo(DraftAt(turn, k, failures, failing).slots, |DraftAt(turn, k, failures, failing).groups|)
  {
    hide Place, TextsOf, PhasesOf;
    if k > 0 {
      hide RefersTo;
      DraftRefers(turn, k - 1, failures, failing);
      PlaceRefers(DraftAt(turn, k - 1, failures, failing), turn[k - 1], PhasesOf(turn), TextsOf(turn, PhasesOf(turn)));
    }
  }

  /** The log items that a row shows or holds; a failure's are in the table of failures. */
  function ItemsOf(row: Row): seq<Item> {
    match row
    case Message(_, item) => [item]
    case AnswerRow(_, _) => []
    case Activity(_, items, _, _) => items
    case FailureRow(_, _) => []
  }

  function RowItems(rows: seq<Row>): multiset<Item> {
    if rows == [] then multiset{} else RowItems(rows[..|rows| - 1]) + multiset(ItemsOf(rows[|rows| - 1]))
  }

  lemma RowItemsMore(rows: seq<Row>, row: Row)
    ensures RowItems(rows + [row]) == RowItems(rows) + multiset(ItemsOf(row))
  {
    assert (rows + [row])[..|rows|] == rows;
  }

  lemma {:induction false} RowItemsConcat(a: seq<Row>, b: seq<Row>)
    ensures RowItems(a + b) == RowItems(a) + RowItems(b)
    decreases |b|
  {
    hide *;
    if b == [] {
      assert a + b == a;
      NoRowItems();
    } else {
      var shorter, row := b[..|b| - 1], b[|b| - 1];
      RowItemsConcat(a, shorter);
      RowItemsMore(shorter, row);
      RowItemsMore(a + shorter, row);
      assert b == shorter + [row] && a + b == (a + shorter) + [row];
      Regroup(RowItems(a), RowItems(shorter), multiset(ItemsOf(row)));
    }
  }

  lemma NoRowItems()
    ensures RowItems([]) == multiset{}
  {
  }

  lemma Regroup(a: multiset<Item>, b: multiset<Item>, c: multiset<Item>)
    ensures a + b + c == a + (b + c)
  {
  }

  /** What a slot adds to the account of the rows, where n groups are numbered up to it. */
  function SlotShows(slot: Slot, groups: seq<Group>, keep: seq<bool>, n: nat): multiset<Item>
    requires |keep| == |groups| && n <= |groups|
  {
    match slot
    case MessageSlot(item) => multiset{item}
    case GroupSlot(_) => if n > 0 && keep[n - 1] then multiset(groups[n - 1].items) else multiset{}
    case _ => multiset{}
  }

  lemma SlotRowItems(rows: seq<Row>, slot: Slot, groups: seq<Group>, keep: seq<bool>, flags: Flags, n: nat)
    requires |keep| == |groups| && n <= |groups| && (slot.GroupSlot? ==> n > 0 && slot.group == n - 1)
    ensures var row := RowOf(slot, groups, keep, flags);
            RowItems(rows + if row.Some? then [row.value] else []) == RowItems(rows) + SlotShows(slot, groups, keep, n)
  {
    hide RowItems, Trim;
    var row := RowOf(slot, groups, keep, flags);
    hide RowItems;
    if row.Some? {
      RowItemsMore(rows, row.value);
    } else {
      assert rows + [] == rows;
    }
  }

  lemma SlotAccount(slots: seq<Slot>, groups: seq<Group>, keep: seq<bool>, n: nat)
    requires |keep| == |groups| && n <= |groups| && slots != [] && RefersTo(slots, n)
    ensures var slot := slots[|slots| - 1];
            var m := if slot.GroupSlot? then n - 1 else n;
            && m >= 0 && (slot.GroupSlot? ==> slot.group == m) && RefersTo(slots[..|slots| - 1], m)
            && SlotItems(slots) + KeptItems(groups, keep, n) ==
               SlotItems(slots[..|slots| - 1]) + KeptItems(groups, keep, m) + SlotShows(slot, groups, keep, n)
  {
    match slots[|slots| - 1]
    case GroupSlot(_) =>
      assert SlotItems(slots) == SlotItems(slots[..|slots| - 1]) + multiset{};
    case _ =>
  }

  lemma {:induction false} RowsOfItems(slots: seq<Slot>, groups: seq<Group>, keep: seq<bool>, flags: Flags, n: nat)
    requires |keep| == |groups| && n <= |groups| && RefersTo(slots, n)
    ensures RowItems(RowsOf(slots, groups, keep, flags)) == SlotItems(slots) + KeptItems(groups, keep, n)
  {
    if slots != [] {
      hide SlotItems, KeptItems, RowItems, RowOf, SlotShows;
      var shorter, slot := slots[..|slots| - 1], slots[|slots| - 1];
      SlotAccount(slots, groups, keep, n);
      RowsOfItems(shorter, groups, keep, flags, if slot.GroupSlot? then n - 1 else n);
      SlotRowItems(RowsOf(shorter, groups, keep, flags), slot, groups, keep, flags, n);
    }
  }

  // Turns.

  /** No item of the turn is work. */
  predicate Idle(turn: seq<Item>) {
    forall i | 0 <= i < |turn| :: RunFailed(turn[i]) || !WorkItem(turn[i], PhasesOf(turn))
  }

  /** What a turn's rows do not show: loose markers, and in an idle turn its lifecycle items. */
  function LostOfTurn(turn: seq<Item>): seq<Item> {
    LooseMarkers(turn, |turn|) + if Idle(turn) then Disclosed(turn, |turn|) else []
  }

  lemma {:induction false} GroupMembers(groups: seq<Group>, x: Item)
    ensures x in GroupItems(groups) <==> exists g :: 0 <= g < |groups| && x in groups[g].items
  {
    if groups != [] {
      var n := |groups| - 1;
      GroupMembers(groups[..n], x);
      assert x in multiset(groups[n].items) <==> x in groups[n].items;
      assert forall g | 0 <= g < n :: groups[..n][g] == groups[g];
    }
  }

  lemma {:induction false} DisclosedMembers(turn: seq<Item>, k: nat, x: Item)
    requires k <= |turn| && x in Disclosed(turn, k)
    ensures x in turn && !RunFailed(x) && (LateMarker(x) || Background(x, PhasesOf(turn)))
  {
    hide RunFailed, LateMarker, Background, PhasesOf, NothingOpened;
    if x in Disclosed(turn, k - 1) {
      DisclosedMembers(turn, k - 1, x);
    }
  }

  lemma {:induction false} WorkIsDisclosed(turn: seq<Item>, k: nat, i: nat)
    requires i < k <= |turn| && !RunFailed(turn[i]) && !LateMarker(turn[i]) && Background(turn[i], PhasesOf(turn))
    ensures turn[i] in Disclosed(turn, k)
  {
    hide RunFailed, LateMarker, Background, PhasesOf, NothingOpened;
    if i < k - 1 {
      WorkIsDisclosed(turn, k - 1, i);
    }
  }

  lemma WorkIsBackground(x: Item, phases: Phases)
    requires WorkItem(x, phases)
    ensures Background(x, phases) && !LateMarker(x)
  {
  }

  /** A turn shows a disclosure if and only if some item of it is work. */
  lemma KeptIffWork(turn: seq<Item>, failures: seq<Failure>, failing: bool)
    ensures AnyKept(KeptOf(DraftOf(turn, failures, failing).groups, PhasesOf(turn))) <==> !Idle(turn)
  {
    var groups, phases := DraftOf(turn, failures, failing).groups, PhasesOf(turn);
    DisclosedItems(turn, |turn|, failures, failing);
    assert GroupItems(groups) == multiset(Disclosed(turn, |turn|));
    hide DraftAt, PhasesOf, RunFailed, WorkItem, GroupItems, Disclosed, DraftOf;
    var keep := KeptOf(groups, phases);
    if AnyKept(keep) {
      var g :| 0 <= g < |keep| && keep[g];
      var x :| x in groups[g].items && WorkItem(x, phases);
      GroupMembers(groups, x);
      assert x in multiset(Disclosed(turn, |turn|));
      DisclosedMembers(turn, |turn|, x);
    }
    if !Idle(turn) {
      var i :| 0 <= i < |turn| && !RunFailed(turn[i]) && WorkItem(turn[i], phases);
      WorkIsBackground(turn[i], phases);
      WorkIsDisclosed(turn, |turn|, i);
      assert turn[i] in multiset(Disclosed(turn, |turn|));
      GroupMembers(groups, turn[i]);
      var g :| 0 <= g < |groups| && turn[i] in groups[g].items;
      assert keep[g];
    }
  }

  lemma TurnRowsItems(turn: seq<Item>, failures: seq<Failure>, failing: bool, active: bool)
    ensures RowItems(TurnRows(turn, failures, failing, active)) ==
            SlotItems(DraftOf(turn, failures, failing).slots) + if Idle(turn) then multiset{}
              else multiset(Disclosed(turn, |turn|))
  {
    var d := DraftOf(turn, failures, failing);
    var keep := KeptOf(d.groups, PhasesOf(turn));
    DraftRefers(turn, |turn|, failures, failing);
    DisclosedItems(turn, |turn|, failures, failing);
    KeptIffWork(turn, failures, failing);
    hide DraftAt, KeptOf, Settled, Idle, RowsOf, RowItems, FlagsOf, SlotItems, KeptItems, AnyKept, RefersTo;
    SettledItems(d.groups, keep);
    RowsOfItems(d.slots, Settled(d.groups, keep), keep, FlagsOf(turn, failures, failing, keep, active), |d.groups|);
  }

  /**
   Every item of a turn is in one row, in a failure, or lost on purpose. The failures that begin in the turn are marked
   by a row each.
   */
  lemma TurnConserves(turn: seq<Item>, failures: seq<Failure>, failing: bool, active: bool)
    ensures var rows, failures' := TurnRows(turn, failures, failing, active), DraftOf(turn, failures, failing).failures;
            && multiset(turn) + FailureItems(failures) ==
               RowItems(rows) + FailureItems(failures') + multiset(LostOfTurn(turn))
            && |failures| <= |failures'| && FailureRows(rows) == TableRows(failures', |failures|)
  {
    TurnShowsFailures(turn, failures, failing, active);
    hide *;
    TurnRowsItems(turn, failures, failing, active);
    DraftAccount(turn, |turn|, failures, failing);
    TurnAccount(turn, failures, failing);
    assert turn[..|turn|] == turn;
  }

  lemma TurnAccount(turn: seq<Item>, failures: seq<Failure>, failing: bool)
    ensures var d := DraftAt(turn, |turn|, failures, failing);
            && d == DraftOf(turn, failures, failing)
            && Accounted(d) + multiset(LooseMarkers(turn, |turn|)) ==
               SlotItems(d.slots) + (if Idle(turn) then multiset{} else multiset(Disclosed(turn, |turn|)))
               + FailureItems(d.failures) + multiset(LostOfTurn(turn))
  {
    var d := DraftAt(turn, |turn|, failures, failing);
    DisclosedItems(turn, |turn|, failures, failing);
    hide DraftAt, SlotItems, GroupItems, FailureItems, LooseMarkers, Disclosed, Idle;
    var all := multiset(Disclosed(turn, |turn|));
    if Idle(turn) {
      assert multiset(LostOfTurn(turn)) == multiset(LooseMarkers(turn, |turn|)) + all;
    } else {
      assert LostOfTurn(turn) == LooseMarkers(turn, |turn|);
    }
  }

  /** What a turn loses are late markers before any Activity, and quiet lifecycle items of a turn without work. */
  lemma LostOnPurpose(turn: seq<Item>, x: Item)
    requires x in LostOfTurn(turn)
    ensures x in turn && !Failed(x)
    ensures || (LateMarker(x) && exists i :: 0 <= i < |turn| && turn[i] == x && NothingOpened(turn, i, PhasesOf(turn)))
            || (Idle(turn) && (Is(x, Status) || Is(x, TurnResult)))
  {
    if x in LooseMarkers(turn, |turn|) {
      LooseMembers(turn, |turn|, x);
    } else {
      DisclosedMembers(turn, |turn|, x);
      IdleMembers(turn, x);
    }
  }

  lemma IdleMembers(turn: seq<Item>, x: Item)
    requires Idle(turn) && x in turn && !RunFailed(x) && (LateMarker(x) || Background(x, PhasesOf(turn)))
    ensures !Failed(x) && (Is(x, Status) || Is(x, TurnResult))
  {
    hide PhasesOf;
    assert !WorkItem(x, PhasesOf(turn));
  }

  lemma {:induction false} LooseMembers(turn: seq<Item>, k: nat, x: Item)
    requires k <= |turn| && x in LooseMarkers(turn, k)
    ensures x in turn && !Failed(x) && LateMarker(x)
    ensures exists i :: 0 <= i < |turn| && turn[i] == x && NothingOpened(turn, i, PhasesOf(turn))
  {
    if x in LooseMarkers(turn, k - 1) {
      LooseMembers(turn, k - 1, x);
    } else {
      assert turn[k - 1] == x && NothingOpened(turn, k - 1, PhasesOf(turn));
    }
  }

  // Whole logs.

  /** The turns that receiving an item ends. */
  function EndedBy(p: Projection, x: Item): seq<seq<Item>> {
    if StatusOf(x, ContextCompacted) || Boundary(x) || Interjects(x) then [p.turn]
    else if Is(x, TurnResult) then [p.turn + [x]] else []
  }

  function EndedTurns(log: seq<Item>): seq<seq<Item>> {
    if log == [] then []
    else EndedTurns(log[..|log| - 1]) + EndedBy(Received(log[..|log| - 1]), log[|log| - 1])
  }

  /** The turns of a log, the unfinished one last. */
  function Turns(log: seq<Item>): seq<seq<Item>> {
    EndedTurns(log) + [Received(log).turn]
  }

  function CompactionMarkers(log: seq<Item>): seq<Item> {
    if log == [] then []
    else CompactionMarkers(log[..|log| - 1]) + if StatusOf(log[|log| - 1], ContextCompacted) then [log[|log| - 1]]
      else []
  }

  function LostOfTurns(turns: seq<seq<Item>>): multiset<Item> {
    if turns == [] then multiset{} else LostOfTurns(turns[..|turns| - 1]) + multiset(LostOfTurn(turns[|turns| - 1]))
  }

  /** Everything the compact transcript leaves out. */
  function Dropped(log: seq<Item>): multiset<Item> {
    multiset(CompactionMarkers(log)) + LostOfTurns(Turns(log))
  }

  function Held(p: Projection): multiset<Item> {
    RowItems(p.rows) + FailureItems(p.failures) + multiset(p.turn)
  }

  lemma FlushHolds(p: Projection, active: bool)
    ensures Held(p) == Held(Flush(p, active)) + multiset(LostOfTurn(p.turn))
  {
    if p.turn == [] {
      assert LostOfTurn(p.turn) == [];
    } else {
      FlushTurnHolds(p, active);
    }
  }

  lemma FlushTurnHolds(p: Projection, active: bool)
    requires p.turn != []
    ensures Held(p) == Held(Flush(p, active)) + multiset(LostOfTurn(p.turn))
  {
    var rows := TurnRows(p.turn, p.failures, p.failing, active);
    RowItemsConcat(p.rows, rows);
    TurnConserves(p.turn, p.failures, p.failing, active);
    hide TurnRows, DraftOf, LostOfTurn, RowItems, FailureItems;
    FlushSum(RowItems(p.rows), RowItems(rows), FailureItems(p.failures),
      FailureItems(DraftOf(p.turn, p.failures, p.failing).failures),
             multiset(p.turn), multiset(LostOfTurn(p.turn)));
  }

  lemma FlushSum(before: multiset<Item>, rows: multiset<Item>, failures: multiset<Item>, failures': multiset<Item>,
                 turn: multiset<Item>, lost: multiset<Item>)
    requires turn + failures == rows + failures' + lost
    ensures before + failures + turn == before + rows + failures' + multiset{} + lost
  {
    assert before + failures + turn == before + (turn + failures);
    assert before + (rows + failures' + lost) == before + rows + failures' + multiset{} + lost;
  }

  lemma HistoricalHolds(p: Projection)
    ensures Held(Historical(p)) == Held(p)
  {
    if p.failing && p.failures != [] {
      LastFailureItems(p.failures, p.failures[|p.failures| - 1].(previous := true));
    }
  }

  lemma InterjectHolds(p: Projection, x: Item)
    ensures Held(p.(rows := p.rows + [Message(x.key, x)])) == Held(p) + multiset{x}
  {
    RowItemsMore(p.rows, Message(x.key, x));
    hide RowItems;
    assert multiset([x]) == multiset{x};
  }

  lemma CollectHolds(p: Projection, x: Item)
    ensures Held(p.(turn := p.turn + [x])) == Held(p) + multiset{x}
  {
    hide RowItems, FailureItems;
  }

  lemma FlushedTurn(p: Projection)
    ensures Flush(p, false).turn == [] && Historical(Flush(p, false)).turn == []
    ensures Flush(Historical(Flush(p, false)), false) == Historical(Flush(p, false))
            && Flush(Flush(p, false), false) == Flush(p, false)
  {
    hide TurnRows, DraftOf;
  }

  lemma LostOfOne(turn: seq<Item>)
    ensures LostOfTurns([turn]) == multiset(LostOfTurn(turn)) && LostOfTurns([]) == multiset{}
  {
    assert [turn][..0] == [];
  }

  lemma ReceiveHolds(p: Projection, x: Item)
    ensures Held(p) + multiset{x} ==
            Held(Receive(p, x)) + LostOfTurns(EndedBy(p, x)) + if StatusOf(x, ContextCompacted) then multiset{x}
              else multiset{}
  {
    var flushed := Flush(p, false);
    FlushHolds(p, false);
    FlushedTurn(p);
    HistoricalHolds(flushed);
    LostOfOne(p.turn);
    hide Flush, Held, LostOfTurns, LostOfTurn, Historical;
    if StatusOf(x, ContextCompacted) {
    } else if Boundary(x) {
      InterjectHolds(Historical(flushed), x);
      CollectHolds(Historical(flushed), x);
      BoundaryReceived(p, x);
    } else if Interjects(x) {
      InterjectHolds(flushed, x);
    } else {
      CollectHolds(p, x);
      FlushHolds(p.(turn := p.turn + [x]), false);
      LostOfOne(p.turn + [x]);
    }
  }

  lemma BoundaryReceived(p: Projection, x: Item)
    requires Boundary(x)
    ensures var q := Historical(Flush(p, false));
            Receive(p, x) == if Interjects(x) then q.(rows := q.rows + [Message(x.key, x)])
              else q.(turn := q.turn + [x])
  {
    FlushedTurn(p);
    hide Flush, Historical;
  }

  lemma {:induction false} LostOfTurnsConcat(a: seq<seq<Item>>, b: seq<seq<Item>>)
    ensures LostOfTurns(a + b) == LostOfTurns(a) + LostOfTurns(b)
    decreases |b|
  {
    hide LostOfTurn;
    if b == [] {
      assert a + b == a;
    } else {
      LostOfTurnsConcat(a, b[..|b| - 1]);
      assert (a + b)[..|a + b| - 1] == a + b[..|b| - 1];
      Regroup(LostOfTurns(a), LostOfTurns(b[..|b| - 1]), multiset(LostOfTurn(b[|b| - 1])));
    }
  }

  lemma {:induction false} ReceivedHolds(log: seq<Item>)
    ensures multiset(log) == Held(Received(log)) + multiset(CompactionMarkers(log)) + LostOfTurns(EndedTurns(log))
  {
    if log == [] {
      assert Held(NOTHING) == multiset{};
    } else {
      hide *;
      var shorter, x := log[..|log| - 1], log[|log| - 1];
      ReceivedHolds(shorter);
      ReceiveHolds(Received(shorter), x);
      ReceivedNext(log);
      LostOfTurnsConcat(EndedTurns(shorter), EndedBy(Received(shorter), x));
      LogSum(multiset(shorter), Held(Received(shorter)), Held(Received(log)), multiset(CompactionMarkers(shorter)),
             LostOfTurns(EndedTurns(shorter)), LostOfTurns(EndedBy(Received(shorter), x)),
             if StatusOf(x, ContextCompacted) then multiset{x} else multiset{}, multiset{x});
    }
  }

  lemma ReceivedNext(log: seq<Item>)
    requires log != []
    ensures var shorter, x := log[..|log| - 1], log[|log| - 1];
            && multiset(log) == multiset(shorter) + multiset{x}
            && Received(log) == Receive(Received(shorter), x)
            && EndedTurns(log) == EndedTurns(shorter) + EndedBy(Received(shorter), x)
            && multiset(CompactionMarkers(log)) ==
               multiset(CompactionMarkers(shorter)) + if StatusOf(x, ContextCompacted) then multiset{x} else multiset{}
  {
    hide Receive, EndedBy;
    assert log == log[..|log| - 1] + [log[|log| - 1]];
  }

  lemma LogSum(log: multiset<Item>, held: multiset<Item>, held': multiset<Item>, markers: multiset<Item>,
      lost: multiset<Item>,
               ended: multiset<Item>, marker: multiset<Item>, x: multiset<Item>)
    requires log == held + markers + lost && held + x == held' + ended + marker
    ensures log + x == held' + (markers + marker) + (lost + ended)
  {
    assert log + x == held + x + markers + lost;
  }

  lemma LogAccount(log: seq<Item>, live: bool)
    ensures var shown := Present(log, live);
            multiset(log) == RowItems(shown.rows) + FailureItems(shown.failures) + Dropped(log)
  {
    var p := Received(log);
    ReceivedHolds(log);
    FlushHolds(p, live);
    FlushEmpties(p, live);
    LostOfTurnsConcat(EndedTurns(log), [p.turn]);
    LostOfOne(p.turn);
    hide Flush, Received, LostOfTurns, LostOfTurn, EndedTurns, RowItems, FailureItems, CompactionMarkers;
    var q := Flush(p, live);
    assert Held(q) == RowItems(q.rows) + FailureItems(q.failures);
    FinalSum(multiset(log), Held(p), Held(q), multiset(LostOfTurn(p.turn)), multiset(CompactionMarkers(log)),
      LostOfTurns(EndedTurns(log)));
  }

  lemma FinalSum(log: multiset<Item>, held: multiset<Item>, held': multiset<Item>, last: multiset<Item>,
      markers: multiset<Item>, lost: multiset<Item>)
    requires log == held + markers + lost && held == held' + last
    ensures log == held' + (markers + (lost + last))
  {
  }

  lemma FlushEmpties(p: Projection, active: bool)
    ensures Flush(p, active).turn == []
  {
  }

  lemma {:induction false} LostMember(turns: seq<seq<Item>>, x: Item)
    requires x in LostOfTurns(turns)
    ensures exists turn <- turns :: x in LostOfTurn(turn)
  {
    hide LostOfTurn;
    var last := turns[|turns| - 1];
    if x in LostOfTurns(turns[..|turns| - 1]) {
      LostMember(turns[..|turns| - 1], x);
      var turn :| turn in turns[..|turns| - 1] && x in LostOfTurn(turn);
      assert turn in turns;
    } else {
      assert x in multiset(LostOfTurn(last));
      assert last in turns;
    }
  }

  lemma {:induction false} MarkerMember(log: seq<Item>, x: Item)
    requires x in CompactionMarkers(log)
    ensures StatusOf(x, ContextCompacted)
  {
    if x in CompactionMarkers(log[..|log| - 1]) {
      MarkerMember(log[..|log| - 1], x);
    }
  }

  /** The only items that can be dropped. */
  lemma DroppedOnPurpose(log: seq<Item>, x: Item)
    requires x in Dropped(log)
    ensures || StatusOf(x, ContextCompacted)
            || exists turn <- Turns(log) :: x in turn && !Failed(x) &&
                 (|| (LateMarker(x) && exists i ::
                   0 <= i < |turn| && turn[i] == x && NothingOpened(turn, i, PhasesOf(turn)))
                  || (Idle(turn) && (Is(x, Status) || Is(x, TurnResult))))
  {
    hide LostOfTurn, Turns, LostOfTurns, CompactionMarkers, Idle, NothingOpened, PhasesOf;
    if x in multiset(CompactionMarkers(log)) {
      MarkerMember(log, x);
    } else {
      LostMember(Turns(log), x);
      var turn :| turn in Turns(log) && x in LostOfTurn(turn);
      LostOnPurpose(turn, x);
    }
  }

  lemma {:induction false} AscendingIsDistinct(log: seq<Item>, x: Item)
    requires Ascending(log)
    ensures multiset(log)[x] <= 1
  {
    if log != [] {
      var shorter := log[..|log| - 1];
      AscendingIsDistinct(shorter, x);
      assert log == shorter + [log[|log| - 1]];
      forall i | 0 <= i < |shorter| ensures shorter[i] != log[|log| - 1] {
        assert log[i].key < log[|log| - 1].key;
      }
    }
  }

  lemma AccountedOnce(log: seq<Item>, live: bool, x: Item)
    requires Ascending(log)
    ensures var shown := Present(log, live);
            RowItems(shown.rows)[x] + FailureItems(shown.failures)[x] + Dropped(log)[x] == (if x in log then 1 else 0)
  {
    LogAccount(log, live);
    AscendingIsDistinct(log, x);
    hide Present, Dropped, RowItems, FailureItems;
    assert x in log <==> x in multiset(log);
  }

  // What is on screen: a failure row shows the items of its failure.

  function ShownBy(row: Row, failures: seq<Failure>): seq<Item> {
    if row.FailureRow? then if row.failure < |failures| then failures[row.failure].items else [] else ItemsOf(row)
  }

  /** What the rows show, with the failures that they mark. */
  function Displayed(rows: seq<Row>, failures: seq<Failure>): multiset<Item> {
    if rows == [] then multiset{}
    else Displayed(rows[..|rows| - 1], failures) + multiset(ShownBy(rows[|rows| - 1], failures))
  }

  lemma DisplayedMore(rows: seq<Row>, row: Row, failures: seq<Failure>)
    ensures Displayed(rows + [row], failures) == Displayed(rows, failures) + multiset(ShownBy(row, failures))
  {
    assert (rows + [row])[..|rows|] == rows;
  }

  lemma {:induction false} DisplayedMarks(rows: seq<Row>, failures: seq<Failure>)
    ensures Displayed(rows, failures) == RowItems(rows) + Displayed(FailureRows(rows), failures)
  {
    hide *;
    if rows == [] {
      NothingDisplayed(failures);
    } else {
      var shorter, row := rows[..|rows| - 1], rows[|rows| - 1];
      assert rows == shorter + [row];
      DisplayedMarks(shorter, failures);
      DisplayedMore(shorter, row, failures);
      RowItemsMore(shorter, row);
      FailureRowsMore(shorter, row);
      MarksOrShows(shorter, row, failures);
    }
  }

  lemma NothingDisplayed(failures: seq<Failure>)
    ensures Displayed([], failures) == RowItems([]) + Displayed(FailureRows([]), failures)
  {
  }

  lemma MarksOrShows(rows: seq<Row>, row: Row, failures: seq<Failure>)
    ensures RowItems(rows) + Displayed(FailureRows(rows), failures) + multiset(ShownBy(row, failures)) ==
            RowItems(rows) + multiset(ItemsOf(row))
            + Displayed(FailureRows(rows) + if row.FailureRow? then [row] else [], failures)
  {
    hide RowItems, Displayed, FailureRows;
    var marks := FailureRows(rows);
    DisplayedMore(marks, row, failures);
    assert marks + [] == marks;
    Regrouped(RowItems(rows), Displayed(marks, failures), multiset(ShownBy(row, failures)));
  }

  lemma Regrouped(a: multiset<Item>, b: multiset<Item>, c: multiset<Item>)
    ensures a + b + c == a + c + b && a + b + c == a + (b + c) && a + multiset{} + (b + c) == a + b + c
  {
  }

  lemma {:induction false} TableDisplays(failures: seq<Failure>, n: nat)
    requires n <= |failures|
    ensures Displayed(TableRows(failures, 0)[..n], failures) == FailureItems(failures[..n])
  {
    hide TableRows;
    if n > 0 {
      TableDisplays(failures, n - 1);
      var table := TableRows(failures, 0);
      hide Displayed, FailureItems;
      assert table[..n] == table[..n - 1] + [table[n - 1]];
      DisplayedMore(table[..n - 1], table[n - 1], failures);
      TableRowAt(failures, n - 1);
      FailureItemsNext(failures, n);
    }
  }

  lemma TableRowAt(failures: seq<Failure>, n: nat)
    requires n < |failures|
    ensures ShownBy(TableRows(failures, 0)[n], failures) == failures[n].items
  {
  }

  lemma FailureItemsNext(failures: seq<Failure>, n: nat)
    requires 0 < n <= |failures|
    ensures FailureItems(failures[..n]) == FailureItems(failures[..n - 1]) + multiset(failures[n - 1].items)
  {
    assert failures[..n][..n - 1] == failures[..n - 1];
  }

  lemma DisplayedTable(rows: seq<Row>, failures: seq<Failure>)
    requires FailureRows(rows) == TableRows(failures, 0)
    ensures Displayed(rows, failures) == RowItems(rows) + FailureItems(failures)
  {
    hide *;
    DisplayedMarks(rows, failures);
    TableDisplays(failures, |failures|);
    assert TableRows(failures, 0)[..|failures|] == TableRows(failures, 0) && failures[..|failures|] == failures;
  }

  /**
   The compact transcript is a view of the whole log: as collections, the log is what its rows show, those of failures
   included, and what is dropped on purpose.
   */
  lemma Conservation(log: seq<Item>, live: bool)
    ensures var shown := Present(log, live);
            multiset(log) == Displayed(shown.rows, shown.failures) + Dropped(log)
  {
    LogAccount(log, live);
    FailuresAreShown(log, live);
    hide *;
    DisplayedTable(Present(log, live).rows, Present(log, live).failures);
  }

  /** No item is shown twice, and none that is dropped is shown. */
  lemma ShownAtMostOnce(log: seq<Item>, live: bool, x: Item)
    requires Ascending(log)
    ensures var shown := Present(log, live);
            Displayed(shown.rows, shown.failures)[x] + Dropped(log)[x] == (if x in log then 1 else 0)
  {
    Conservation(log, live);
    AscendingIsDistinct(log, x);
    hide Present, Dropped, Displayed;
    assert x in log <==> x in multiset(log);
  }
}
