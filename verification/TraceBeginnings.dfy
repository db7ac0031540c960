/** Which items begin an operation. */
module TraceBeginnings {
  import opened ConversationItems
  import opened ConversationTrace
  import opened TraceConservation
  import opened TraceCorrelation
  import TranscriptKeys

  /** The item is the first member of an operation. */
  ghost predicate Begins(log: seq<Item>, live: bool, x: Item) {
    exists o <- Operations(log, live) :: o.members != [] && o.members[0] == x.key
  }

  // Operations only gain members.

  ghost predicate OperationsGrow(a: seq<Operation>, b: seq<Operation>) {
    |a| <= |b| && forall i | 0 <= i < |a| :: a[i].members <= b[i].members
  }

  lemma TraceItemGrows(t: Tracing, x: Item)
    requires t.Valid()
    ensures OperationsGrow(t.operations, TraceItem(t, x).operations)
  {
    hide Terminal, Traceable, ToolItem, TraceImage, Failed, RunBoundary, StatusOf, CallOf, ImageOf;
  }

  lemma {:induction false} OperationsOfMore(log: seq<Item>, more: seq<Item>)
    ensures OperationsGrow(Traced(log).operations, Traced(log + more).operations)
    decreases |more|
  {
    hide TraceItem;
    if more == [] {
      assert log + more == log;
    } else {
      var all := log + more;
      assert all[..|all| - 1] == log + more[..|more| - 1];
      OperationsOfMore(log, more[..|more| - 1]);
      TraceItemGrows(Traced(all[..|all| - 1]), all[|all| - 1]);
      assert Traced(all) == TraceItem(Traced(all[..|all| - 1]), all[|all| - 1]);
      hide Traced;
    }
  }

  lemma SameMembers(log: seq<Item>, live: bool)
    ensures |Operations(log, live)| == |Traced(log).operations|
    ensures forall i | 0 <= i < |Operations(log, live)| ::
            Operations(log, live)[i].members == Traced(log).operations[i].members
  {
    hide Traced;
  }

  lemma BeginsLater(log: seq<Item>, more: seq<Item>, live: bool, live': bool, o: Operation) returns (o': Operation)
    requires o in Operations(log, live) && o.members != []
    ensures o' in Operations(log + more, live') && o'.members != [] && o'.members[0] == o.members[0]
  {
    SameMembers(log, live);
    SameMembers(log + more, live');
    OperationsOfMore(log, more);
    hide Traced, Operations;
    var i :| 0 <= i < |Operations(log, live)| && Operations(log, live)[i] == o;
    o' := Operations(log + more, live')[i];
    assert o'.members == Traced(log + more).operations[i].members && o.members <= o'.members;
  }

  /** A tool item lets no earlier item begin an operation that did not before. */
  lemma BegunBefore(log: seq<Item>, t: Item, live: bool, live': bool, x: Item)
    requires ToolItem(t) && Begins(log + [t], live', x) && x.key != t.key
    ensures Begins(log, live, x)
  {
    hide Traced, TraceTool, WithCall, Operations, ToolItem, CallOf, WellBegun;
    var all := Operations(log + [t], live');
    var i :| 0 <= i < |all| && all[i].members != [] && all[i].members[0] == x.key;
    BeganAt(log, t, live, live', i);
    assert Operations(log, live)[i] in Operations(log, live);
  }

  lemma BeganAt(log: seq<Item>, t: Item, live: bool, live': bool, i: nat)
    requires ToolItem(t) && i < |Operations(log + [t], live')| && Operations(log + [t], live')[i].members != []
    ensures var first := Operations(log + [t], live')[i].members[0];
            first == t.key
            || (i < |Operations(log, live)| && Operations(log, live)[i].members != []
              && Operations(log, live)[i].members[0] == first)
  {
    var s := Traced(log);
    SameMembers(log, live);
    SameMembers(log + [t], live');
    ToolTraced(log, t);
    ToolJoins(s, t);
    hide Traced, TraceTool, WithCall, Operations, ToolItem, CallOf;
    if i < |s.operations| {
      OperationsBegun(log, live, Operations(log, live)[i]);
    }
  }

  lemma ToolTraced(log: seq<Item>, t: Item)
    requires ToolItem(t)
    ensures Traced(log + [t]) == TraceTool(Traced(log), t)
  {
    assert (log + [t])[..|log|] == log;
    ToolStepOf(Traced(log), t);
    hide TraceTool, TraceItem;
  }

  lemma ToolStepOf(t: Tracing, x: Item)
    requires t.Valid() && ToolItem(x)
    ensures TraceItem(t, x) == TraceTool(t, x)
  {
    hide TraceTool, Finish;
  }

  // Prose and lifecycle events are operations of their own.

  lemma SoloBegins(log: seq<Item>, live: bool, x: Item)
    requires IsTraced(x) && !ToolItem(x) && !TraceImage(x)
    ensures Begins(log + [x], live, x)
  {
    SameMembers(log + [x], live);
    SoloTraced(log, x);
    hide Traced, Operations;
    var n := |Traced(log + [x]).operations| - 1;
    assert Operations(log + [x], live)[n].members == [x.key];
  }

  lemma SoloTraced(log: seq<Item>, x: Item)
    requires IsTraced(x) && !ToolItem(x) && !TraceImage(x)
    ensures var operations := Traced(log + [x]).operations;
            operations != [] && operations[|operations| - 1].members == [x.key]
  {
    assert (log + [x])[..|log|] == log;
    hide TraceTool, TraceOutput, Finish, Terminal, Traceable, ToolItem, TraceImage, Failed, RunBoundary, StatusOf;
  }

  // Who may begin what.

  ghost predicate ToolKey(log: seq<Item>, key: int) {
    exists x <- log :: ToolItem(x) && x.key == key
  }

  ghost predicate BegunByTool(operation: Operation, log: seq<Item>) {
    operation.members != [] && ToolKey(log, operation.members[0])
  }

  ghost predicate WellBegun(operation: Operation, log: seq<Item>) {
    operation.members != []
    && ((|operation.members| == 1 && !operation.state.Running?) || BegunByTool(operation, log))
  }

  ghost predicate AllBegun(t: Tracing, log: seq<Item>)
    requires t.Valid()
  {
    && (forall o <- t.operations :: WellBegun(o, log))
    && (forall c <- t.calls :: BegunByTool(t.operations[t.calls[c]], log))
  }

  lemma BegunLater(t: Tracing, log: seq<Item>, x: Item)
    requires t.Valid() && AllBegun(t, log)
    ensures AllBegun(t, log + [x])
  {
    hide ToolItem;
    forall key | ToolKey(log, key) ensures ToolKey(log + [x], key) {
      assert forall y <- log :: y in log + [x];
    }
    hide ToolKey;
  }

  lemma FinishBegun(t: Tracing, interrupted: bool, log: seq<Item>)
    requires t.Valid() && AllBegun(t, log)
    ensures AllBegun(Finish(t, interrupted), log)
  {
    hide ToolKey;
    forall o | o in Finish(t, interrupted).operations ensures WellBegun(o, log) {
      var i :| 0 <= i < |t.operations| && Finish(t, interrupted).operations[i] == o;
      assert WellBegun(t.operations[i], log);
    }
  }

  lemma ToolBegun(t: Tracing, x: Item, log: seq<Item>)
    requires t.Valid() && AllBegun(t, log) && ToolItem(x) && x in log
    ensures AllBegun(TraceTool(t, x), log)
  {
    var t', n := TraceTool(t, x), WithCall(t, x).1;
    ToolJoins(t, x);
    assert ToolKey(log, x.key);
    hide TraceTool, WithCall, CallOf, ToolKey, ToolItem;
    assert n < |t.operations| ==> BegunByTool(t.operations[n], log);
    assert BegunByTool(t'.operations[n], log);
    forall i | 0 <= i < |t'.operations| ensures WellBegun(t'.operations[i], log) {
      if i != n {
        assert t'.operations[i] in t.operations;
      }
    }
  }

  lemma OutputBegun(t: Tracing, x: Item, log: seq<Item>)
    requires t.Valid() && AllBegun(t, log)
    ensures AllBegun(TraceOutput(t, x), log)
  {
    hide ToolKey, ImageOf;
  }

  lemma PushBegun(t: Tracing, operation: Operation, log: seq<Item>)
    requires t.Valid() && AllBegun(t, log) && |operation.members| == 1 && !operation.state.Running?
    ensures AllBegun(Push(t, operation), log)
  {
    hide ToolKey;
  }

  lemma TraceItemBegun(t: Tracing, x: Item, log: seq<Item>)
    requires t.Valid() && AllBegun(t, log) && x in log
    ensures AllBegun(TraceItem(t, x), log)
  {
    hide AllBegun, Finish, TraceTool, TraceOutput, Push, Terminal, Traceable, ToolItem, TraceImage, Failed, RunBoundary,
         StatusOf;
    FinishBegun(t, false, log);
    var s := if RunBoundary(x) then Finish(t, false) else t;
    FinishBegun(s, Failed(x) || !Is(x, TurnResult), log);
    if ToolItem(x) {
      ToolBegun(s, x, log);
    }
    OutputBegun(s, x, log);
    PushBegun(s, Operation(x.key, ProgressStep, Finished, [x.key]), log);
    PushBegun(s, Operation(x.key, ReasoningStep, Finished, [x.key]), log);
    PushBegun(s, Operation(x.key, EventStep, if Failed(x) then Errored else Finished, [x.key]), log);
  }

  lemma {:induction false} TracedBegun(log: seq<Item>)
    ensures AllBegun(Traced(log), log)
  {
    if log != [] {
      var shorter, x := log[..|log| - 1], log[|log| - 1];
      TracedBegun(shorter);
      assert log == shorter + [x];
      hide TraceItem, AllBegun;
      BegunLater(Traced(shorter), shorter, x);
      TraceItemBegun(Traced(shorter), x, log);
    }
  }

  lemma OperationsBegun(log: seq<Item>, live: bool, o: Operation)
    requires o in Operations(log, live)
    ensures WellBegun(o, log)
  {
    TracedBegun(log);
    FinishBegun(Traced(log), false, log);
    hide Traced, WellBegun, Finish;
  }

  // The first member of an operation is its least, and gives it its key.

  ghost predicate FirstLeast(operations: seq<Operation>, key: int) {
    forall o <- operations :: LeastFirst(o, key)
  }

  ghost predicate LeastFirst(o: Operation, key: int) {
    o.members != [] && o.key == o.members[0] && forall k <- o.members :: o.key <= k < key
  }

  lemma FirstLeastLater(operations: seq<Operation>, key: int, key': int)
    requires FirstLeast(operations, key) && key <= key'
    ensures FirstLeast(operations, key')
  {
  }

  lemma FinishFirstLeast(t: Tracing, interrupted: bool, key: int)
    requires t.Valid() && FirstLeast(t.operations, key)
    ensures FirstLeast(Finish(t, interrupted).operations, key)
  {
    var finished := Finish(t, interrupted).operations;
    forall o | o in finished ensures LeastFirst(o, key) {
      var i :| 0 <= i < |finished| && finished[i] == o;
      assert LeastFirst(t.operations[i], key);
    }
  }

  lemma GrownFirstLeast(operations: seq<Operation>, n: nat, operation: Operation, key: int)
    requires FirstLeast(operations, key) && n <= |operations|
    requires operation.members == (if n < |operations| then operations[n].members else []) + [key]
    requires operation.key == (if n < |operations| then operations[n].key else key)
    ensures FirstLeast(if n < |operations| then operations[n := operation] else operations + [operation], key + 1)
  {
    var grown := if n < |operations| then operations[n := operation] else operations + [operation];
    assert LeastFirst(operation, key + 1) by {
      if n < |operations| {
        assert LeastFirst(operations[n], key);
        assert forall k <- operation.members :: k in operations[n].members || k == key;
        assert operations[n].members[0] in operations[n].members;
      } else {
        assert operation.members == [key];
      }
    }
    hide LeastFirst;
    forall o | o in grown ensures LeastFirst(o, key + 1) {
      if o != operation {
        assert LeastFirst(o, key);
        LaterFirst(o, key);
      }
    }
  }

  lemma LaterFirst(o: Operation, key: int)
    requires LeastFirst(o, key)
    ensures LeastFirst(o, key + 1)
  {
  }

  lemma ToolFirstLeast(t: Tracing, x: Item)
    requires t.Valid() && ToolItem(x) && FirstLeast(t.operations, x.key)
    ensures FirstLeast(TraceTool(t, x).operations, x.key + 1)
  {
    var t', n := TraceTool(t, x), WithCall(t, x).1;
    ToolJoins(t, x);
    hide TraceTool, WithCall, CallOf, FirstLeast;
    GrownFirstLeast(t.operations, n, t'.operations[n], x.key);
    assert t'.operations ==
           if n < |t.operations| then t.operations[n := t'.operations[n]] else t.operations + [t'.operations[n]];
  }

  lemma OutputFirstLeast(t: Tracing, x: Item)
    requires t.Valid() && FirstLeast(t.operations, x.key)
    ensures FirstLeast(TraceOutput(t, x).operations, x.key + 1)
  {
    var call := ImageOf(x);
    hide FirstLeast, ImageOf;
    if call.Some? && call.value in t.calls {
      var n := t.calls[call.value];
      GrownFirstLeast(t.operations, n, t.operations[n].(members := t.operations[n].members + [x.key]), x.key);
    } else {
      GrownFirstLeast(t.operations, |t.operations|, Operation(x.key, EventStep, Finished, [x.key]), x.key);
    }
  }

  lemma PushFirstLeast(t: Tracing, operation: Operation, key: int)
    requires t.Valid() && FirstLeast(t.operations, key) && operation.members == [key] && operation.key == key
    ensures FirstLeast(Push(t, operation).operations, key + 1)
  {
    GrownFirstLeast(t.operations, |t.operations|, operation, key);
  }

  lemma TraceItemFirstLeast(t: Tracing, x: Item)
    requires t.Valid() && FirstLeast(t.operations, x.key)
    ensures FirstLeast(TraceItem(t, x).operations, x.key + 1)
  {
    hide FirstLeast, Finish, TraceTool, TraceOutput, Push, Terminal, Traceable, ToolItem, TraceImage, Failed,
         RunBoundary, StatusOf;
    FinishFirstLeast(t, false, x.key);
    var s := if RunBoundary(x) then Finish(t, false) else t;
    FinishFirstLeast(s, Failed(x) || !Is(x, TurnResult), x.key);
    if ToolItem(x) {
      ToolFirstLeast(s, x);
    }
    OutputFirstLeast(s, x);
    PushFirstLeast(s, Operation(x.key, ProgressStep, Finished, [x.key]), x.key);
    PushFirstLeast(s, Operation(x.key, ReasoningStep, Finished, [x.key]), x.key);
    PushFirstLeast(s, Operation(x.key, EventStep, if Failed(x) then Errored else Finished, [x.key]), x.key);
    FirstLeastLater(s.operations, x.key, x.key + 1);
    FirstLeastLater(Finish(s, Failed(x) || !Is(x, TurnResult)).operations, x.key, x.key + 1);
  }

  lemma {:induction false} TracedFirstLeast(log: seq<Item>, key: int)
    requires Ascending(log) && (log != [] ==> log[|log| - 1].key < key)
    ensures FirstLeast(Traced(log).operations, key)
  {
    if log != [] {
      var shorter, x := log[..|log| - 1], log[|log| - 1];
      hide TraceItem, FirstLeast;
      TracedFirstLeast(shorter, x.key);
      TraceItemFirstLeast(Traced(shorter), x);
      FirstLeastLater(Traced(log).operations, x.key + 1, key);
    }
  }

  lemma FirstIsLeast(log: seq<Item>, live: bool, o: Operation, k: int)
    requires Ascending(log) && o in Operations(log, live) && k in o.members
    ensures o.key == o.members[0] <= k
  {
    var key := if log == [] then 0 else log[|log| - 1].key + 1;
    TracedFirstLeast(log, key);
    FinishFirstLeast(Traced(log), false, key);
    hide Traced, Finish;
  }

  // Each member has one operation.

  /** Begun operations are about traced items, which late markers are not. */
  lemma BeginnersAreTraced(log: seq<Item>, live: bool, x: Item)
    requires Ascending(log) && x in log && Begins(log, live, x)
    ensures !Transcript.LateMarker(x)
  {
    OperationsPartition(log, live);
    TracedKeysAscend(log, x.key);
    hide Traced, Operations, IsTraced, Ascending;
    var o :| o in Operations(log, live) && o.members != [] && o.members[0] == x.key;
    MemberCounts(Operations(log, live), o, x.key);
    var y :| y in log && IsTraced(y) && y.key == x.key;
    TranscriptKeys.KeyIsIdentity(log, x, y);
    TracedIsNoMarker(x);
  }

  lemma TracedIsNoMarker(x: Item)
    requires IsTraced(x)
    ensures !Transcript.LateMarker(x)
  {
  }

  lemma {:induction false} MemberCounts(operations: seq<Operation>, o: Operation, key: int)
    requires o in operations && key in o.members
    ensures key in Members(operations)
  {
    var n := |operations| - 1;
    assert operations == operations[..n] + [operations[n]];
    assert key in multiset(o.members);
    if o != operations[n] {
      MemberCounts(operations[..n], o, key);
    }
  }

  lemma {:induction false} MembersOfTwo(operations: seq<Operation>, a: nat, b: nat, key: int)
    requires a < b < |operations| && key in operations[a].members && key in operations[b].members
    ensures Members(operations)[key] >= 2
  {
    var n := |operations| - 1;
    if b < n {
      MembersOfTwo(operations[..n], a, b, key);
    } else {
      assert operations[a] in operations[..n];
      MemberCounts(operations[..n], operations[a], key);
      assert key in multiset(operations[n].members);
    }
  }

  lemma OneOperation(log: seq<Item>, live: bool, o: Operation, o': Operation, key: int)
    requires Ascending(log) && o in Operations(log, live) && o' in Operations(log, live)
    requires key in o.members && key in o'.members
    ensures o == o'
  {
    var operations := Operations(log, live);
    hide Operations, HasTraced, Members, Ascending, TracedKeys;
    OperationsPartition(log, live);
    TracedKeysAscend(log, key);
    var a :| 0 <= a < |operations| && operations[a] == o;
    var b :| 0 <= b < |operations| && operations[b] == o';
    if a < b {
      MembersOfTwo(operations, a, b, key);
    } else if b < a {
      MembersOfTwo(operations, b, a, key);
    }
  }

  lemma {:induction false} HasOperation(operations: seq<Operation>, key: int) returns (o: Operation)
    requires key in Members(operations)
    ensures o in operations && key in o.members
  {
    var n := |operations| - 1;
    if key in Members(operations[..n]) {
      o := HasOperation(operations[..n], key);
    } else {
      o := operations[n];
      assert key in multiset(o.members);
    }
  }

  lemma ToolHasOperation(log: seq<Item>, live: bool, x: Item) returns (o: Operation)
    requires Ascending(log) && x in log && ToolItem(x)
    ensures o in Operations(log, live) && x.key in o.members
  {
    OperationsPartition(log, live);
    TracedKeysAscend(log, x.key);
    ToolIsTraced(x);
    hide Operations, IsTraced, ToolItem, Ascending, Members;
    o := HasOperation(Operations(log, live), x.key);
  }

  lemma ToolIsTraced(x: Item)
    requires ToolItem(x)
    ensures IsTraced(x)
  {
  }

  lemma JoinsEarlier(log: seq<Item>, live: bool, i: nat, j: nat)
    requires Ascending(log) && i < j && ToolAt(log, i) && ToolAt(log, j) && Correlated(log, i, j)
    ensures !Begins(log, live, log[j])
  {
    CallsCorrelate(log, live, i, j);
    hide Operations, ToolItem, Correlated;
    if Begins(log, live, log[j]) {
      var operations := Operations(log, live);
      var o :| o in operations && o.members != [] && o.members[0] == log[j].key;
      var n :| 0 <= n < |operations| && log[i].key in operations[n].members && log[j].key in operations[n].members;
      OneOperation(log, live, o, operations[n], log[j].key);
      FirstIsLeast(log, live, o, log[i].key);
    }
  }

  lemma AreTogether(operations: seq<Operation>, o: Operation, a: int, b: int)
    requires o in operations && a in o.members && b in o.members
    ensures Together(operations, a, b)
  {
  }

  /** A tool item begins an operation if and only if no earlier one is part of the same call. */
  lemma FirstOfCall(log: seq<Item>, live: bool, j: nat)
    requires Ascending(log) && ToolAt(log, j)
    ensures Begins(log, live, log[j]) <==> forall i: nat | i < j && ToolAt(log, i) :: !Correlated(log, i, j)
  {
    hide Operations, ToolItem, Correlated, WellBegun, Begins;
    if i: nat :| i < j && ToolAt(log, i) && Correlated(log, i, j) {
      JoinsEarlier(log, live, i, j);
    } else {
      var o := ToolHasOperation(log, live, log[j]);
      OnlyFirst(log, live, j, o);
    }
  }

  lemma OnlyFirst(log: seq<Item>, live: bool, j: nat, o: Operation)
    requires Ascending(log) && ToolAt(log, j) && o in Operations(log, live) && log[j].key in o.members
    requires forall i: nat | i < j && ToolAt(log, i) :: !Correlated(log, i, j)
    ensures Begins(log, live, log[j])
  {
    OperationsBegun(log, live, o);
    FirstIsLeast(log, live, o, log[j].key);
    hide Operations, ToolItem, Correlated;
    if o.members[0] != log[j].key {
      var x :| x in log && ToolItem(x) && x.key == o.members[0];
      var i :| 0 <= i < |log| && log[i] == x;
      assert i < j;
      AreTogether(Operations(log, live), o, log[i].key, log[j].key);
      CallsCorrelate(log, live, i, j);
    }
  }
}
