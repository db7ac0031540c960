/** Where the items of a group without work end up, and which key the row that takes them gets. */
module TranscriptMerge {
  import opened Wrappers
  import opened ConversationItems
  import opened Transcript
  import opened TranscriptDrafts

  // The key of a group that is shown: that of the first group whose items end up in it.

  /** The first of the run of dropped groups directly before t, or t itself. */
  function Feed(keep: seq<bool>, t: nat): (f: nat)
    requires t < |keep|
    ensures f <= t && (forall m | f <= m < t :: !keep[m]) && (f > 0 ==> keep[f - 1])
  {
    if t == 0 || keep[t - 1] then t else Feed(keep, t - 1)
  }

  lemma {:induction false} FeedSame(keep: seq<bool>, keep': seq<bool>, t: nat)
    requires t < |keep| && t < |keep'| && forall i | 0 <= i < t :: keep'[i] == keep[i]
    ensures Feed(keep', t) == Feed(keep, t)
  {
    if t > 0 && !keep[t - 1] {
      FeedSame(keep, keep', t - 1);
    }
  }

  predicate Feeds(groups: seq<Group>, keep: seq<bool>, m: nat, t: nat)
    requires |keep| == |groups|
  {
    m < |groups| && !keep[m] && Target(groups, keep, groups[m].key) == Some(t)
  }

  lemma {:induction false} FirstAboveFacts(groups: seq<Group>, keep: seq<bool>, key: int, i: nat)
    requires |keep| == |groups| && i <= |groups|
    ensures var r := FirstAbove(groups, keep, key, i);
            if r.Some? then i <= r.value < |groups| && keep[r.value] && groups[r.value].key > key
                            && forall m | i <= m < r.value :: !keep[m] || groups[m].key <= key
            else forall m | i <= m < |groups| :: !keep[m] || groups[m].key <= key
    decreases |groups| - i
  {
    if i < |groups| && !(keep[i] && groups[i].key > key) {
      FirstAboveFacts(groups, keep, key, i + 1);
    }
  }

  lemma {:induction false} LastKeptFacts(keep: seq<bool>, i: nat)
    requires i <= |keep|
    ensures var r := LastKept(keep, i);
            if r.Some? then r.value < i && keep[r.value] && forall m | r.value < m < i :: !keep[m]
            else forall m | 0 <= m < i :: !keep[m]
  {
    if i > 0 && !keep[i - 1] {
      LastKeptFacts(keep, i - 1);
    }
  }

  lemma TargetIsKept(groups: seq<Group>, keep: seq<bool>, key: int)
    requires |keep| == |groups|
    ensures var t := Target(groups, keep, key);
            if t.Some? then t.value < |groups| && keep[t.value] else forall m | 0 <= m < |groups| :: !keep[m]
  {
    FirstAboveFacts(groups, keep, key, 0);
    LastKeptFacts(keep, |keep|);
  }

  lemma {:induction false} FirstAboveSameKeys(groups: seq<Group>, groups': seq<Group>, keep: seq<bool>, key: int,
      i: nat)
    requires |keep| == |groups| == |groups'| && i <= |groups|
    requires forall m | 0 <= m < |groups| :: groups'[m].key == groups[m].key
    ensures FirstAbove(groups', keep, key, i) == FirstAbove(groups, keep, key, i)
    decreases |groups| - i
  {
    if i < |groups| {
      FirstAboveSameKeys(groups, groups', keep, key, i + 1);
    }
  }

  lemma {:induction false} InsertContents(items: seq<Item>, item: Item)
    ensures multiset(Insert(items, item)) == multiset(items) + multiset{item}
  {
    if items != [] && items[|items| - 1].key > item.key {
      InsertContents(items[..|items| - 1], item);
      assert items == items[..|items| - 1] + [items[|items| - 1]];
    }
  }

  lemma {:induction false} SortContents(items: seq<Item>)
    ensures multiset(Sort(items)) == multiset(items)
  {
    if items != [] {
      SortContents(items[..|items| - 1]);
      InsertContents(Sort(items[..|items| - 1]), items[|items| - 1]);
      assert items == items[..|items| - 1] + [items[|items| - 1]];
    }
  }

  lemma SortMembers(items: seq<Item>, x: Item)
    ensures x in Sort(items) <==> x in items
  {
    SortContents(items);
    assert x in Sort(items) <==> x in multiset(Sort(items));
    assert x in items <==> x in multiset(items);
  }

  /** A step of the merge changes no key, no dropped group and no target. */
  lemma MergeStepKeeps(groups: seq<Group>, keep: seq<bool>, i: nat)
    requires |keep| == |groups| && i < |groups|
    ensures var merged := MergeStep(groups, keep, i);
            && (forall m | 0 <= m < |groups| :: merged[m].key == groups[m].key)
            && (forall m | 0 <= m < |groups| && !keep[m] :: merged[m] == groups[m])
            && (forall m: nat, t: nat :: Feeds(merged, keep, m, t) == Feeds(groups, keep, m, t))
  {
    var merged := MergeStep(groups, keep, i);
    TargetIsKept(groups, keep, groups[i].key);
    forall m: nat, t: nat ensures Feeds(merged, keep, m, t) == Feeds(groups, keep, m, t) {
      if m < |groups| {
        FirstAboveSameKeys(groups, merged, keep, groups[m].key, 0);
      }
    }
  }

  lemma MergeStepMembers(groups: seq<Group>, keep: seq<bool>, i: nat, t: nat, x: Item)
    requires |keep| == |groups| && i < |groups| && t < |groups| && keep[t]
    ensures x in MergeStep(groups, keep, i)[t].items
            <==> x in groups[t].items || (Feeds(groups, keep, i, t) && x in groups[i].items)
  {
    TargetIsKept(groups, keep, groups[i].key);
    if Feeds(groups, keep, i, t) {
      SortMembers(groups[t].items + groups[i].items, x);
    }
  }

  lemma {:induction false} MergedMembers(groups: seq<Group>, keep: seq<bool>, i: nat, t: nat, x: Item)
    requires |keep| == |groups| && i <= |groups| && t < |groups| && keep[t]
    ensures MergeFrom(groups, keep, i)[t].key == groups[t].key
    ensures x in MergeFrom(groups, keep, i)[t].items <==>
            x in groups[t].items || exists m :: i <= m < |groups| && Feeds(groups, keep, m, t) && x in groups[m].items
    decreases |groups| - i
  {
    if i < |groups| {
      var merged := MergeStep(groups, keep, i);
      MergeStepKeeps(groups, keep, i);
      MergeStepMembers(groups, keep, i, t, x);
      MergedMembers(merged, keep, i + 1, t, x);
    }
  }

  lemma GroupKeysAscend(groups: seq<Group>, i: nat, j: nat)
    requires OrderedGroups(groups) && i < j < |groups|
    ensures groups[i].key < groups[j].key
  {
    assert Before(groups[i].items, groups[j].items);
    assert groups[i].items[0] in groups[i].items && groups[j].items[0] in groups[j].items;
  }

  /** The next work after group m, or the last where none follows. */
  predicate NearestWork(keep: seq<bool>, m: nat, t: nat)
    requires m < |keep| && t < |keep|
  {
    keep[t] &&
    if m < t then forall k | m < k < t :: !keep[k]
    else (forall k | m < k < |keep| :: !keep[k]) && forall k | t < k < |keep| :: !keep[k]
  }

  lemma FeedsNearest(groups: seq<Group>, keep: seq<bool>, m: nat, t: nat)
    requires |keep| == |groups| && OrderedGroups(groups) && m < |groups| && !keep[m] && t < |groups|
    ensures Feeds(groups, keep, m, t) <==> NearestWork(keep, m, t)
  {
    FirstAboveFacts(groups, keep, groups[m].key, 0);
    LastKeptFacts(keep, |keep|);
    hide OrderedGroups, FirstAbove, LastKept;
    forall k | 0 <= k < |groups| && k != m ensures groups[k].key > groups[m].key <==> k > m {
      if k < m {
        GroupKeysAscend(groups, k, m);
      } else {
        GroupKeysAscend(groups, m, k);
      }
    }
  }

  lemma LaterLacks(groups: seq<Group>, m: nat, n: nat, x: Item)
    requires OrderedGroups(groups) && m < n < |groups| && x in groups[m].items
    ensures x !in groups[n].items
  {
    assert Before(groups[m].items, groups[n].items);
  }

  lemma SharedMember(groups: seq<Group>, m: nat, n: nat, x: Item)
    requires OrderedGroups(groups) && m < |groups| && n < |groups| && x in groups[m].items && x in groups[n].items
    ensures m == n
  {
    hide OrderedGroups;
    if m < n {
      LaterLacks(groups, m, n, x);
    } else if n < m {
      LaterLacks(groups, n, m, x);
    }
  }

  /** The items of a group without work are shown by the next work after it, or by the last, and by no other. */
  lemma IdleJoinsNearestWork(groups: seq<Group>, keep: seq<bool>, m: nat, t: nat, x: Item)
    requires |keep| == |groups| && OrderedGroups(groups) && m < |groups| && !keep[m] && t < |groups| && keep[t]
    requires x in groups[m].items
    ensures x in MergeFrom(groups, keep, 0)[t].items <==> NearestWork(keep, m, t)
  {
    MergedMembers(groups, keep, 0, t, x);
    FeedsNearest(groups, keep, m, t);
    hide OrderedGroups, MergeFrom, Feeds, NearestWork;
    if x in groups[t].items {
      SharedMember(groups, m, t, x);
    }
    if n :| 0 <= n < |groups| && Feeds(groups, keep, n, t) && x in groups[n].items {
      SharedMember(groups, m, n, x);
    }
  }

  lemma FeedFeeds(groups: seq<Group>, keep: seq<bool>, t: nat)
    requires |keep| == |groups| && OrderedGroups(groups) && t < |groups| && keep[t]
    ensures Feed(keep, t) < t ==> Feeds(groups, keep, Feed(keep, t), t)
  {
    hide OrderedGroups, Feeds, Feed;
    var f := Feed(keep, t);
    if f < t {
      FeedsNearest(groups, keep, f, t);
    }
  }

  lemma FeedersFollowFeed(groups: seq<Group>, keep: seq<bool>, m: nat, t: nat)
    requires |keep| == |groups| && OrderedGroups(groups) && t < |groups| && keep[t]
    requires Feeds(groups, keep, m, t)
    ensures Feed(keep, t) <= m
  {
    hide OrderedGroups, FirstAbove, LastKept;
    var f := Feed(keep, t);
    if m < f {
      // The kept group before f would have been the target.
      assert m < f - 1;
      GroupKeysAscend(groups, m, f - 1);
      FirstAboveFacts(groups, keep, groups[m].key, 0);
    }
  }

  lemma {:induction false} MinKeyFacts(items: seq<Item>, key: int)
    ensures MinKey(items, key) <= key
    ensures forall x <- items :: MinKey(items, key) <= x.key
    ensures MinKey(items, key) == key || exists x <- items :: x.key == MinKey(items, key)
  {
    if items != [] {
      MinKeyFacts(items[..|items| - 1], key);
      assert items == items[..|items| - 1] + [items[|items| - 1]];
    }
  }

  lemma FirstKeyIsLeast(groups: seq<Group>, m: nat, x: Item)
    requires OrderedGroups(groups) && m < |groups| && x in groups[m].items
    ensures groups[m].key <= x.key
  {
  }

  /** Where a member of a merged group came from. */
  lemma MemberOrigin(groups: seq<Group>, keep: seq<bool>, t: nat, x: Item) returns (m: nat)
    requires |keep| == |groups| && t < |groups| && keep[t]
    requires x in MergeFrom(groups, keep, 0)[t].items
    ensures m < |groups| && x in groups[m].items && (m == t || Feeds(groups, keep, m, t))
  {
    MergedMembers(groups, keep, 0, t, x);
    if x in groups[t].items {
      m := t;
    } else {
      m :| 0 <= m < |groups| && Feeds(groups, keep, m, t) && x in groups[m].items;
    }
  }

  lemma MergedAboveFeed(groups: seq<Group>, keep: seq<bool>, t: nat, x: Item)
    requires |keep| == |groups| && OrderedGroups(groups) && t < |groups| && keep[t]
    requires x in MergeFrom(groups, keep, 0)[t].items
    ensures groups[Feed(keep, t)].key <= x.key
  {
    hide OrderedGroups, MergeFrom, Feeds, Feed;
    var f := Feed(keep, t);
    var m := MemberOrigin(groups, keep, t, x);
    if m != t {
      FeedersFollowFeed(groups, keep, m, t);
    }
    FirstKeyIsLeast(groups, m, x);
    if f < m {
      GroupKeysAscend(groups, f, m);
    }
  }

  lemma MergedHoldsFeed(groups: seq<Group>, keep: seq<bool>, t: nat)
    requires |keep| == |groups| && OrderedGroups(groups) && t < |groups| && keep[t]
    ensures groups[Feed(keep, t)].items[0] in MergeFrom(groups, keep, 0)[t].items
    ensures groups[Feed(keep, t)].key <= groups[t].key == MergeFrom(groups, keep, 0)[t].key
  {
    var f := Feed(keep, t);
    assert groups[f].items[0] in groups[f].items;
    MergedMembers(groups, keep, 0, t, groups[f].items[0]);
    FeedFeeds(groups, keep, t);
    if f < t {
      GroupKeysAscend(groups, f, t);
    }
  }

  lemma SettledKey(groups: seq<Group>, keep: seq<bool>, t: nat)
    requires |keep| == |groups| && OrderedGroups(groups) && t < |groups| && keep[t]
    ensures Settled(groups, keep)[t].key == groups[Feed(keep, t)].key
  {
    var merged := MergeFrom(groups, keep, 0)[t];
    MergedHoldsFeed(groups, keep, t);
    MinKeyFacts(merged.items, merged.key);
    if MinKey(merged.items, merged.key) != merged.key {
      var x :| x in merged.items && x.key == MinKey(merged.items, merged.key);
      MergedAboveFeed(groups, keep, t, x);
    }
  }
}
