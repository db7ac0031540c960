/** When an operation of a live log is running: while its last call or result leaves it so, and its run goes on. */
module TraceStates {
  import opened Wrappers
  import opened ConversationItems
  import opened ConversationTrace
  import opened TraceBeginnings
  import opened TraceConservation
  import opened TraceCorrelation
  import opened TraceImages

  /** What a call or result makes of its operation by itself, if anything. */
  function Settles(x: Item): Option<TraceState> {
    if Failed(x) then Some(Errored)
    else if !x.Event? then None
    else if x.payload.status.Interrupted? then Some(Stopped)
    else if x.payload.status.Succeeded? || (Is(x, ToolResult) && !x.payload.status.InProgress?) then Some(Finished)
    else None
  }

  /** An earlier tool item of the same call, in the same run. */
  predicate Earlier(log: seq<Item>, i: nat, j: nat)
    requires i < j < |log|
  {
    ToolAt(log, i) && Correlated(log, i, j)
  }

  /** The last of the first k items that belongs to the call of j. */
  function Before(log: seq<Item>, j: nat, k: nat): (i: Option<nat>)
    requires k <= j < |log|
    ensures i.Some? ==> i.value < k && Earlier(log, i.value, j) && forall m | i.value < m < k :: !Earlier(log, m, j)
    ensures i.None? ==> forall m | 0 <= m < k :: !Earlier(log, m, j)
  {
    if k == 0 then None else if Earlier(log, k - 1, j) then Some(k - 1) else Before(log, j, k - 1)
  }

  /** The state that the tool items of its call up to j give an operation, one after the other. */
  function StateAt(log: seq<Item>, j: nat): TraceState
    requires ToolAt(log, j)
  {
    Advanced(var i := Before(log, j, j); if i.Some? then StateAt(log, i.value) else Running, log[j])
  }

  /** No later tool item belongs to the call. */
  ghost predicate Latest(log: seq<Item>, j: nat) {
    ToolAt(log, j) && forall m | j < m < |log| && ToolAt(log, m) :: !Correlated(log, j, m)
  }

  // An operation is in the state that its latest tool item left.

  ghost predicate StatesFit(operations: seq<Operation>, log: seq<Item>) {
    forall j: nat, o | Latest(log, j) && SameRun(log, j, |log|) && 0 <= o < |operations|
      && log[j].key in operations[o].members ::
      operations[o].state == StateAt(log, j)
  }

  /** Every call that is open was begun by a tool item of the present run. */
  ghost predicate CallsBegun(calls: map<CallKey, nat>, log: seq<Item>) {
    forall c <- calls :: exists i: nat :: OfCall(log, i, c)
  }

  predicate OfCall(log: seq<Item>, i: nat, c: CallKey) {
    ToolAt(log, i) && CallOf(log[i]) == Some(c) && SameRun(log, i, |log|)
  }

  lemma CallsBegunLater(calls: map<CallKey, nat>, log: seq<Item>, x: Item)
    requires CallsBegun(calls, log) && !Ends(x)
    ensures CallsBegun(calls, log + [x])
  {
    hide CallOf, Ends, ToolItem;
    forall c | c in calls ensures exists i: nat :: OfCall(log + [x], i, c) {
      var i: nat :| OfCall(log, i, c);
      SameRunNext(log, x, i);
      assert OfCall(log + [x], i, c);
    }
  }

  lemma ToolBeginsCall(t: Tracing, log: seq<Item>, x: Item)
    requires t.Valid() && ToolItem(x) && !Ends(x) && CallsBegun(t.calls, log)
    ensures CallsBegun(TraceTool(t, x).calls, log + [x])
  {
    ToolJoins(t, x);
    CallsBegunLater(t.calls, log, x);
    hide TraceTool, WithCall, CallOf, Ends, ToolItem;
    var more := log + [x];
    forall c | c in TraceTool(t, x).calls ensures exists i: nat :: OfCall(more, i, c) {
      if CallOf(x) == Some(c) {
        assert more[|log|] == x;
        assert OfCall(more, |log|, c);
      }
    }
  }

  // States do not depend on what comes later.

  lemma EarlierMore(log: seq<Item>, x: Item, i: nat, j: nat)
    requires i < j < |log|
    ensures Earlier(log + [x], i, j) <==> Earlier(log, i, j)
  {
    hide CallOf, ToolItem, Ends;
    assert (log + [x])[i] == log[i] && (log + [x])[j] == log[j];
    SameRunMore(log, x, i, j);
  }

  lemma {:induction false} BeforeMore(log: seq<Item>, x: Item, j: nat, k: nat)
    requires k <= j < |log|
    ensures Before(log + [x], j, k) == Before(log, j, k)
  {
    hide Earlier;
    if k > 0 {
      EarlierMore(log, x, k - 1, j);
      BeforeMore(log, x, j, k - 1);
    }
  }

  lemma {:induction false} StateMore(log: seq<Item>, x: Item, j: nat)
    requires ToolAt(log, j)
    ensures ToolAt(log + [x], j) && StateAt(log + [x], j) == StateAt(log, j)
  {
    hide ToolItem, Advanced, Earlier;
    assert (log + [x])[j] == log[j];
    BeforeMore(log, x, j, j);
    var i := Before(log, j, j);
    if i.Some? {
      EarlierIsTool(log, i.value, j);
      StateMore(log, x, i.value);
    }
  }

  lemma EarlierIsTool(log: seq<Item>, i: nat, j: nat)
    requires i < j < |log| && Earlier(log, i, j)
    ensures ToolAt(log, i)
  {
  }

  lemma LatestBefore(log: seq<Item>, x: Item, j: nat)
    requires Latest(log + [x], j) && j < |log|
    ensures Latest(log, j)
    ensures ToolItem(x) ==> !Correlated(log + [x], j, |log|)
  {
    hide ToolItem, CallOf, Ends;
    forall m | j < m < |log| && ToolAt(log, m) ensures !Correlated(log, j, m) {
      assert (log + [x])[m] == log[m] && (log + [x])[j] == log[j];
      assert ToolAt(log + [x], m);
      SameRunMore(log, x, j, m);
    }
    assert (log + [x])[|log|] == x;
  }

  /** A step that leaves the states of operations alone leaves those of the tool items before it. */
  lemma QuietStates(operations: seq<Operation>, operations': seq<Operation>, log: seq<Item>, x: Item)
    requires StatesFit(operations, log) && Unmoved(operations, operations', log) && !ToolItem(x) && !Ends(x)
    requires forall o | 0 <= o < |operations| :: operations'[o].state == operations[o].state
    ensures StatesFit(operations', log + [x])
  {
    var more := log + [x];
    hide ToolItem, Ends, StateAt, Correlated, SameRun;
    forall j: nat, o | Latest(more, j) && SameRun(more, j, |more|) && 0 <= o < |operations'|
      && more[j].key in operations'[o].members
      ensures operations'[o].state == StateAt(more, j)
    {
      LatestIsTool(more, j);
      assert j < |log| && more[j] == log[j] && log[j] in log;
      LatestBefore(log, x, j);
      SameRunNext(log, x, j);
      StateMore(log, x, j);
    }
  }

  lemma LatestIsTool(log: seq<Item>, j: nat)
    requires Latest(log, j)
    ensures ToolAt(log, j)
  {
  }

  lemma EndedStates(operations: seq<Operation>, log: seq<Item>, x: Item)
    requires Ends(x) && !ToolItem(x)
    ensures StatesFit(operations, log + [x])
  {
    var more := log + [x];
    hide ToolItem, Ends, StateAt;
    forall j: nat | Latest(more, j) ensures !SameRun(more, j, |more|) {
      assert j < |log|;
      SameRunNext(log, x, j);
    }
  }

  /** The operation that a tool item joins is in the state that the call's last item before it left. */
  lemma JoinedState(t: Tracing, log: seq<Item>, x: Item)
    requires t.Valid() && ToolItem(x) && !Ends(x) && CallsFit(t, log) && CallsBegun(t.calls, log)
    requires StatesFit(t.operations, log)
    ensures var n, more := WithCall(t, x).1, log + [x];
            && ToolAt(more, |log|)
            && StateAt(more, |log|) ==
               Advanced(if n < |t.operations| then t.operations[n].state else Running, x)
  {
    var n, more := WithCall(t, x).1, log + [x];
    ToolJoins(t, x);
    assert more[|log|] == x;
    hide TraceTool, WithCall, CallOf, Ends, ToolItem, Advanced, Correlated, SameRun, Latest;
    var before := Before(more, |log|, |log|);
    if n < |t.operations| {
      var c := CallOf(x).value;
      var i: nat :| OfCall(log, i, c);
      assert Earlier(more, i, |log|) by {
        OfCallIsEarlier(log, x, i, c);
      }
      var k := before.value;
      LastOfCall(log, x, k, c);
      StateMore(log, x, k);
      assert log[k].key in t.operations[n].members;
    } else if before.Some? {
      EarlierIsKnown(t, log, x, before.value);
    }
  }

  lemma OfCallIsEarlier(log: seq<Item>, x: Item, i: nat, c: CallKey)
    requires OfCall(log, i, c) && CallOf(x) == Some(c)
    ensures Earlier(log + [x], i, |log|)
  {
    hide CallOf, ToolItem, Ends;
    assert (log + [x])[|log|] == x && (log + [x])[i] == log[i];
    SameRunMore(log, x, i, |log|);
  }

  lemma EarlierIsOfCall(log: seq<Item>, x: Item, k: nat)
    requires k < |log| && Earlier(log + [x], k, |log|)
    ensures ToolAt(log, k) && CallOf(x).Some? && OfCall(log, k, CallOf(x).value)
  {
    hide CallOf, ToolItem, Ends;
    assert (log + [x])[|log|] == x && (log + [x])[k] == log[k];
    SameRunMore(log, x, k, |log|);
  }

  lemma LastOfCall(log: seq<Item>, x: Item, k: nat, c: CallKey)
    requires CallOf(x) == Some(c) && k < |log| && Earlier(log + [x], k, |log|)
    requires forall m | k < m < |log| :: !Earlier(log + [x], m, |log|)
    ensures OfCall(log, k, c) && Latest(log, k)
  {
    EarlierIsOfCall(log, x, k);
    hide CallOf, ToolItem, Ends;
    forall m | k < m < |log| && ToolAt(log, m) ensures !Correlated(log, k, m) {
      if Correlated(log, k, m) {
        assert SameRun(log, m, |log|);
        OfCallIsEarlier(log, x, m, c);
      }
    }
  }

  lemma EarlierIsKnown(t: Tracing, log: seq<Item>, x: Item, k: nat)
    requires t.Valid() && CallsFit(t, log) && k < |log| && Earlier(log + [x], k, |log|)
    ensures CallOf(x).Some? && CallOf(x).value in t.calls
  {
    EarlierIsOfCall(log, x, k);
    hide CallOf, ToolItem, Ends;
  }

  lemma ToolStates(t: Tracing, log: seq<Item>, x: Item)
    requires t.Valid() && ToolItem(x) && !Ends(x) && CallsFit(t, log) && CallsBegun(t.calls, log)
    requires StatesFit(t.operations, log) && Unseen(t.operations, x.key) && forall y <- log :: y.key < x.key
    ensures StatesFit(TraceTool(t, x).operations, log + [x])
  {
    var t', n, more := TraceTool(t, x), WithCall(t, x).1, log + [x];
    ToolJoins(t, x);
    JoinedState(t, log, x);
    ToolUnmoved(t, log, x);
    assert more[|log|] == x;
    hide TraceTool, WithCall, CallOf, Ends, ToolItem, Advanced, StateAt, Latest, SameRun, CallsFit, CallsBegun;
    forall j: nat, o | Latest(more, j) && SameRun(more, j, |more|) && 0 <= o < |t'.operations|
      && more[j].key in t'.operations[o].members
      ensures t'.operations[o].state == StateAt(more, j)
    {
      LatestIsTool(more, j);
      if j == |log| {
        assert o == n;
      } else {
        assert more[j] == log[j] && log[j] in log;
        LatestBefore(log, x, j);
        SameRunNext(log, x, j);
        StateMore(log, x, j);
        if o == n {
          JoinedIsCorrelated(t, log, x, j);
        }
      }
    }
  }

  lemma JoinedIsCorrelated(t: Tracing, log: seq<Item>, x: Item, j: nat)
    requires t.Valid() && ToolItem(x) && CallsFit(t, log) && ToolAt(log, j) && log[j].key != x.key
    requires var n := WithCall(t, x).1; log[j].key in TraceTool(t, x).operations[n].members
    ensures Correlated(log + [x], j, |log|)
  {
    ToolJoins(t, x);
    hide TraceTool, WithCall, CallOf, Ends, ToolItem;
    assert (log + [x])[|log|] == x && (log + [x])[j] == log[j];
    SameRunMore(log, x, j, |log|);
  }

  lemma TraceItemStates(t: Tracing, log: seq<Item>, x: Item)
    requires t.Valid() && CallsFit(t, log) && CallsBegun(t.calls, log) && StatesFit(t.operations, log)
    requires Unseen(t.operations, x.key) && forall y <- log :: y.key < x.key
    ensures CallsBegun(TraceItem(t, x).calls, log + [x]) && StatesFit(TraceItem(t, x).operations, log + [x])
  {
    KindsApart(x);
    if Ends(x) {
      EndedStates(TraceItem(t, x).operations, log, x);
      EndedCalls(t, x);
    } else if ToolItem(x) {
      ToolStepOf(t, x);
      ToolBeginsCall(t, log, x);
      ToolStates(t, log, x);
    } else {
      QuietUnmoved(t, log, x);
      SameStates(t, x);
      CallsBegunLater(t.calls, log, x);
      QuietStates(t.operations, TraceItem(t, x).operations, log, x);
    }
    hide TraceItem, TraceTool, ToolItem, Terminal, RunBoundary, StatesFit, CallsFit, Unmoved;
  }

  lemma EndedCalls(t: Tracing, x: Item)
    requires t.Valid() && Ends(x)
    ensures TraceItem(t, x).calls == map[]
  {
    KindsApart(x);
    hide Terminal, RunBoundary, ToolItem, TraceImage, StatusOf, Failed, Traceable;
  }

  lemma SameStates(t: Tracing, x: Item)
    requires t.Valid() && !ToolItem(x) && !Ends(x)
    ensures var operations := TraceItem(t, x).operations;
            |t.operations| <= |operations|
            && forall o | 0 <= o < |t.operations| :: operations[o].state == t.operations[o].state
  {
    hide Terminal, RunBoundary, ToolItem, TraceImage, StatusOf, Failed, Traceable, TraceTool, ImageOf;
  }

  lemma {:induction false} TracedStates(log: seq<Item>)
    requires Ascending(log)
    ensures CallsBegun(Traced(log).calls, log) && StatesFit(Traced(log).operations, log)
  {
    hide TraceItem, CallsFit, PairsFit, CallsBegun, StatesFit, Unseen, Ascending;
    if log == [] {
      NothingStates();
    } else {
      var shorter, x := log[..|log| - 1], log[|log| - 1];
      LastIsUnseen(log);
      TracedStates(shorter);
      TracedFits(shorter);
      assert log == shorter + [x];
      TraceItemStates(Traced(shorter), shorter, x);
    }
  }

  lemma NothingStates()
    ensures CallsBegun(map[], []) && StatesFit([], [])
  {
  }

  // What leaves an operation running.

  /** The item leaves its operation to run, and every failure or end before it was followed by an interruption. */
  ghost predicate Unsettled(log: seq<Item>, j: nat)
    requires j < |log|
  {
    Settles(log[j]).None? && forall i | 0 <= i < j && Earlier(log, i, j) && Lasts(log[i]) :: Interrupted(log, i, j)
  }

  /** What only an interruption undoes. */
  predicate Lasts(x: Item) {
    Settles(x) == Some(Errored) || Settles(x) == Some(Finished)
  }

  ghost predicate Interrupted(log: seq<Item>, i: nat, j: nat)
    requires i < j < |log|
  {
    exists m :: i < m < j && Earlier(log, m, j) && Settles(log[m]) == Some(Stopped)
  }

  lemma AdvancedIs(state: TraceState, x: Item)
    requires ToolItem(x)
    ensures Advanced(state, x) ==
            if Settles(x).Some? then Settles(x).value else if state.Errored? || state.Finished? then state else Running
  {
  }

  lemma EarlierChain(log: seq<Item>, i: nat, k: nat, j: nat)
    requires i < k < j < |log| && Earlier(log, k, j)
    ensures Earlier(log, i, k) <==> Earlier(log, i, j)
  {
    hide CallOf, ToolItem;
    assert !Ends(log[k]) by {
      KindsApart(log[k]);
    }
    hide Ends;
  }

  /** The state tells running from what lasts. */
  lemma {:induction false} StateIs(log: seq<Item>, j: nat)
    requires ToolAt(log, j)
    ensures StateAt(log, j).Running? <==> Unsettled(log, j)
    ensures StateAt(log, j).Stopped? <==> Settles(log[j]) == Some(Stopped)
    ensures !StateAt(log, j).Unknown?
  {
    AdvancedIs(Running, log[j]);
    var k := Before(log, j, j);
    if k.Some? {
      EarlierIsTool(log, k.value, j);
      StateIs(log, k.value);
      AdvancedIs(StateAt(log, k.value), log[j]);
    }
    hide Advanced, ToolItem, Earlier, StateAt;
    if Settles(log[j]).None? && k.Some? {
      UnsettledBefore(log, j, k.value);
    }
  }

  lemma InterruptedBefore(log: seq<Item>, i: nat, k: nat, j: nat)
    requires i < k < j < |log| && Earlier(log, k, j) && forall m | k < m < j :: !Earlier(log, m, j)
    ensures Interrupted(log, i, j) <==> Interrupted(log, i, k) || Settles(log[k]) == Some(Stopped)
  {
    hide Settles, Earlier;
    forall m | 0 <= m < k ensures Earlier(log, m, k) <==> Earlier(log, m, j) {
      EarlierChain(log, m, k, j);
    }
    if Interrupted(log, i, k) {
      var m :| i < m < k && Earlier(log, m, k) && Settles(log[m]) == Some(Stopped);
      assert Earlier(log, m, j);
    }
    if Interrupted(log, i, j) {
      var m :| i < m < j && Earlier(log, m, j) && Settles(log[m]) == Some(Stopped);
      assert m <= k;
    }
  }

  lemma UnsettledBefore(log: seq<Item>, j: nat, k: nat)
    requires k < j < |log| && Settles(log[j]).None? && Earlier(log, k, j) && forall m | k < m < j :: !Earlier(log, m, j)
    ensures Unsettled(log, j) <==> Unsettled(log, k) || Settles(log[k]) == Some(Stopped)
    ensures Unsettled(log, j) ==> Settles(log[k]).None? || Settles(log[k]) == Some(Stopped)
  {
    assert Settles(log[k]).None? || Settles(log[k]) == Some(Stopped) || Lasts(log[k]);
    hide Settles, Earlier;
    assert !Interrupted(log, k, j);
    forall i: nat | i < k
      ensures Earlier(log, i, k) <==> Earlier(log, i, j)
      ensures Interrupted(log, i, j) <==> Interrupted(log, i, k) || Settles(log[k]) == Some(Stopped)
    {
      EarlierChain(log, i, k, j);
      InterruptedBefore(log, i, k, j);
    }
    hide Interrupted;
    if Unsettled(log, j) {
      assert !Lasts(log[k]);
    }
    if Settles(log[k]) == Some(Stopped) {
      forall i | 0 <= i < j && Earlier(log, i, j) && Lasts(log[i]) ensures Interrupted(log, i, j) {
        assert i < k;
      }
    }
    if Unsettled(log, k) {
      forall i | 0 <= i < j && Earlier(log, i, j) && Lasts(log[i]) ensures Interrupted(log, i, j) {
        assert i < k;
      }
    }
  }

  // Whole operations.

  /** The last tool item of its operation that the log has. */
  lemma LatestOf(log: seq<Item>, j: nat) returns (k: nat)
    requires ToolAt(log, j)
    ensures j <= k && Latest(log, k) && (k == j || Earlier(log, j, k))
    decreases |log| - j
  {
    hide ToolItem, CallOf, Ends;
    if m: nat :| j < m < |log| && ToolAt(log, m) && Correlated(log, j, m) {
      k := LatestOf(log, m);
      if k != m {
        EarlierChain(log, j, m, k);
      }
    } else {
      k := j;
    }
  }

  /** The operation runs: its last tool item left it running, and no run has ended or begun since. */
  ghost predicate GoesOn(log: seq<Item>, o: Operation) {
    exists j: nat :: Latest(log, j) && log[j].key in o.members && SameRun(log, j, |log|) && Unsettled(log, j)
  }

  lemma RunningGoesOn(log: seq<Item>, o: Operation)
    requires Ascending(log) && o in Operations(log, true) && o.state.Running?
    ensures GoesOn(log, o)
  {
    OperationsBegun(log, true, o);
    FirstIsLeast(log, true, o, o.members[0]);
    hide Operations, ToolItem, ToolKey, CallOf, Unsettled, Latest;
    var i := ToolWithKey(log, o.members[0]);
    var j := LatestOf(log, i);
    LatestIsTool(log, j);
    InSameOperation(log, true, o, i, j);
    RunStillOn(log, o, j);
    StateOf(log, o, j);
    StateIs(log, j);
  }

  lemma InSameOperation(log: seq<Item>, live: bool, o: Operation, i: nat, j: nat)
    requires Ascending(log) && o in Operations(log, live) && ToolAt(log, i) && ToolAt(log, j) && log[i].key in o.members
    requires i == j || (i < j && Earlier(log, i, j))
    ensures log[j].key in o.members
  {
    hide Operations, ToolItem, Correlated;
    if i != j {
      CallsCorrelate(log, live, i, j);
      var operations := Operations(log, live);
      var n :| 0 <= n < |operations| && log[i].key in operations[n].members && log[j].key in operations[n].members;
      OneOperation(log, live, o, operations[n], log[i].key);
    }
  }

  lemma RunStillOn(log: seq<Item>, o: Operation, j: nat)
    requires Ascending(log) && o in Operations(log, true) && o.state.Running? && j < |log| && log[j].key in o.members
    ensures SameRun(log, j, |log|)
  {
    hide Operations, Ends;
    var operations := Operations(log, true);
    var n :| 0 <= n < |operations| && operations[n] == o;
    RunningIsLive(log, true, n);
    FirstIsLeast(log, true, o, log[j].key);
  }

  lemma StateOf(log: seq<Item>, o: Operation, j: nat)
    requires Ascending(log) && o in Operations(log, true) && Latest(log, j) && SameRun(log, j, |log|)
    requires log[j].key in o.members
    ensures ToolAt(log, j) && o.state == StateAt(log, j)
  {
    TracedStates(log);
    hide Traced, Latest, SameRun, StateAt, CallsBegun;
    LatestIsTool(log, j);
    var n :| 0 <= n < |Operations(log, true)| && Operations(log, true)[n] == o;
  }

  /**
   An operation of a live log is running if and only if no run has ended or begun since its last call or result, and
   that neither failed nor ended it, nor was stopped, nor came after one that did without an interruption in between.
   */
  lemma RunningIff(log: seq<Item>, o: Operation)
    requires Ascending(log) && o in Operations(log, true)
    ensures o.state.Running? <==> GoesOn(log, o)
  {
    hide Operations, Unsettled, Latest, SameRun, GoesOn;
    if o.state.Running? {
      RunningGoesOn(log, o);
    }
    if GoesOn(log, o) {
      GoesOnRunning(log, o);
    }
  }

  lemma GoesOnRunning(log: seq<Item>, o: Operation)
    requires Ascending(log) && o in Operations(log, true) && GoesOn(log, o)
    ensures o.state.Running?
  {
    hide Operations, Unsettled, SameRun, StateAt;
    var j: nat :| Latest(log, j) && log[j].key in o.members && SameRun(log, j, |log|) && Unsettled(log, j);
    StateOf(log, o, j);
    StateIs(log, j);
  }
}
