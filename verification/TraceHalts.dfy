/** What state every operation ends up in: what its items made of it, and what the end of its run did. */
module TraceHalts {
  import opened Wrappers
  import opened ConversationItems
  import opened ConversationTrace
  import opened TraceConservation
  import opened TraceCorrelation
  import opened TraceStates
  import TraceBeginnings

  /** What the end of a run, or the beginning of the next, makes of what still runs. */
  function Halting(x: Item): TraceState {
    if Is(x, RunError) || StatusOf(x, ProcessExit) || StatusOf(x, StopSignal) || StatusOf(x, ErrorSubtype)
       || (Is(x, TurnResult) && Failed(x))
    then Stopped else Unknown
  }

  /** The first item from k on that ends or begins a run. */
  function FirstEnd(log: seq<Item>, k: nat): (m: Option<nat>)
    requires k <= |log|
    ensures m.Some? ==> k <= m.value < |log| && Ends(log[m.value])
    ensures var n := m.GetOr(|log|); forall i | k <= i < n :: !Ends(log[i])
    decreases |log| - k
  {
    if k == |log| then None else if Ends(log[k]) then Some(k) else FirstEnd(log, k + 1)
  }

  /** The state of an operation whose latest tool item is this. */
  function FinalState(log: seq<Item>, j: nat): TraceState
    requires ToolAt(log, j)
  {
    var state, m := StateAt(log, j), FirstEnd(log, j + 1);
    if state.Running? && m.Some? then Halting(log[m.value]) else state
  }

  ghost predicate FinalFit(operations: seq<Operation>, log: seq<Item>) {
    forall j: nat, o | Latest(log, j) && 0 <= o < |operations| && log[j].key in operations[o].members ::
      operations[o].state == FinalState(log, j)
  }

  lemma {:induction false} FirstEndMore(log: seq<Item>, x: Item, k: nat)
    requires k <= |log|
    ensures FirstEnd(log + [x], k) ==
            if FirstEnd(log, k).Some? then FirstEnd(log, k) else if Ends(x) then Some(|log|) else None
    decreases |log| - k
  {
    hide Ends;
    if k < |log| {
      assert (log + [x])[k] == log[k];
      FirstEndMore(log, x, k + 1);
    } else {
      assert (log + [x])[k] == x;
    }
  }

  /** One more item changes the state only where it ends the run of what still runs. */
  lemma FinalMore(log: seq<Item>, x: Item, j: nat)
    requires ToolAt(log, j)
    ensures ToolAt(log + [x], j)
    ensures FinalState(log + [x], j) ==
            if FinalState(log, j).Running? && Ends(x) then Halting(x) else FinalState(log, j)
  {
    StateMore(log, x, j);
    FirstEndMore(log, x, j + 1);
    hide StateAt, Ends, ToolItem;
    assert FirstEnd(log, j + 1).Some? ==> (log + [x])[FirstEnd(log, j + 1).value] == log[FirstEnd(log, j + 1).value];
    assert (log + [x])[|log|] == x;
  }

  lemma QuietFinal(operations: seq<Operation>, operations': seq<Operation>, log: seq<Item>, x: Item)
    requires FinalFit(operations, log) && Unmoved(operations, operations', log) && !ToolItem(x) && !Ends(x)
    requires forall o | 0 <= o < |operations| :: operations'[o].state == operations[o].state
    ensures FinalFit(operations', log + [x])
  {
    var more := log + [x];
    hide ToolItem, Ends, FinalState, Correlated;
    forall j: nat, o | Latest(more, j) && 0 <= o < |operations'| && more[j].key in operations'[o].members
      ensures operations'[o].state == FinalState(more, j)
    {
      LatestIsTool(more, j);
      assert j < |log| && more[j] == log[j] && log[j] in log;
      LatestBefore(log, x, j);
      FinalMore(log, x, j);
    }
  }

  lemma EndedFinal(operations: seq<Operation>, operations': seq<Operation>, log: seq<Item>, x: Item)
    requires FinalFit(operations, log) && Ends(x) && !ToolItem(x) && |operations'| == |operations|
    requires forall o | 0 <= o < |operations| ::
               operations'[o] ==
               if operations[o].state.Running? then operations[o].(state := Halting(x)) else operations[o]
    ensures FinalFit(operations', log + [x])
  {
    var more := log + [x];
    hide ToolItem, Ends, FinalState, Correlated, Halting;
    forall j: nat, o | Latest(more, j) && 0 <= o < |operations'| && more[j].key in operations'[o].members
      ensures operations'[o].state == FinalState(more, j)
    {
      LatestIsTool(more, j);
      assert j < |log| && more[j] == log[j];
      LatestBefore(log, x, j);
      FinalMore(log, x, j);
    }
  }

  /** The end of a run halts exactly what still runs. */
  lemma EndHalts(t: Tracing, log: seq<Item>, x: Item)
    requires t.Valid() && Current(t, log) && Ends(x)
    ensures var operations := TraceItem(t, x).operations;
            && |operations| == |t.operations|
            && (forall o | 0 <= o < |t.operations| ::
                  operations[o] ==
                  if t.operations[o].state.Running? then t.operations[o].(state := Halting(x)) else t.operations[o])
  {
    KindsApart(x);
    EndsOnce(x);
    hide Failed, ToolItem, TraceImage, Traceable, StatusOf, RunBoundary, Terminal, Halting;
  }

  lemma EndsOnce(x: Item)
    requires Ends(x)
    ensures RunBoundary(x) ==> !Terminal(x) && Halting(x) == Unknown
    ensures Terminal(x) ==> Halting(x) == if Failed(x) || !Is(x, TurnResult) then Stopped else Unknown
    ensures RunBoundary(x) ==> StatusOf(x, Dispatch) || StatusOf(x, Followup) || StatusOf(x, TurnStarted)
  {
  }

  lemma ToolFinal(t: Tracing, log: seq<Item>, x: Item)
    requires t.Valid() && ToolItem(x) && !Ends(x) && CallsFit(t, log) && CallsBegun(t.calls, log)
    requires StatesFit(t.operations, log) && FinalFit(t.operations, log)
    requires Unseen(t.operations, x.key) && forall y <- log :: y.key < x.key
    ensures FinalFit(TraceTool(t, x).operations, log + [x])
  {
    var t', n, more := TraceTool(t, x), WithCall(t, x).1, log + [x];
    ToolJoins(t, x);
    JoinedState(t, log, x);
    ToolUnmoved(t, log, x);
    assert more[|log|] == x;
    hide TraceTool, WithCall, CallOf, Ends, ToolItem, Advanced, StateAt, Latest, CallsFit, CallsBegun, StatesFit;
    forall j: nat, o | Latest(more, j) && 0 <= o < |t'.operations| && more[j].key in t'.operations[o].members
      ensures t'.operations[o].state == FinalState(more, j)
    {
      LatestIsTool(more, j);
      if j == |log| {
        assert o == n;
      } else {
        assert more[j] == log[j] && log[j] in log;
        LatestBefore(log, x, j);
        FinalMore(log, x, j);
        if o == n {
          JoinedIsCorrelated(t, log, x, j);
        }
      }
    }
  }

  lemma TraceItemFinal(t: Tracing, log: seq<Item>, x: Item)
    requires t.Valid() && CallsFit(t, log) && CallsBegun(t.calls, log) && StatesFit(t.operations, log)
             && Current(t, log)
    requires FinalFit(t.operations, log) && Unseen(t.operations, x.key) && forall y <- log :: y.key < x.key
    ensures FinalFit(TraceItem(t, x).operations, log + [x])
  {
    KindsApart(x);
    hide TraceTool, ToolItem, StatesFit, CallsFit, Unmoved, FinalFit, Current, CallsBegun;
    if Ends(x) {
      EndHalts(t, log, x);
      hide TraceItem;
      EndedFinal(t.operations, TraceItem(t, x).operations, log, x);
    } else if ToolItem(x) {
      TraceBeginnings.ToolStepOf(t, x);
      ToolFinal(t, log, x);
    } else {
      QuietUnmoved(t, log, x);
      SameStates(t, x);
      hide TraceItem;
      QuietFinal(t.operations, TraceItem(t, x).operations, log, x);
    }
  }

  lemma {:induction false} TracedFinal(log: seq<Item>)
    requires Ascending(log)
    ensures FinalFit(Traced(log).operations, log)
  {
    hide TraceItem, CallsFit, PairsFit, CallsBegun, StatesFit, FinalFit, Unseen, Ascending, Current;
    if log == [] {
      NothingFinal();
    } else {
      var shorter, x := log[..|log| - 1], log[|log| - 1];
      LastIsUnseen(log);
      TracedFinal(shorter);
      TracedStates(shorter);
      TracedFits(shorter);
      TracedCurrent(shorter);
      assert log == shorter + [x];
      TraceItemFinal(Traced(shorter), shorter, x);
    }
  }

  lemma NothingFinal()
    ensures FinalFit([], [])
  {
  }

  // What settles an operation.

  /** The last item of the call of j, j included, that settles something by itself. */
  ghost predicate LastSettles(log: seq<Item>, i: nat, j: nat)
    requires i <= j < |log|
  {
    && Settles(log[i]).Some? && (i == j || (Earlier(log, i, j) && Settles(log[j]).None?))
    && forall m | i < m < j && Earlier(log, m, j) :: Settles(log[m]).None?
  }

  lemma {:induction false} SettledState(log: seq<Item>, j: nat) returns (i: nat)
    requires ToolAt(log, j) && !Unsettled(log, j)
    ensures i <= j && LastSettles(log, i, j) && Settles(log[i]) == Some(StateAt(log, j))
  {
    AdvancedIs(Running, log[j]);
    StateIs(log, j);
    var k := Before(log, j, j);
    if Settles(log[j]).Some? {
      i := j;
      if k.Some? {
        AdvancedIs(StateAt(log, k.value), log[j]);
      }
    } else {
      assert k.Some?;
      EarlierIsTool(log, k.value, j);
      AdvancedIs(StateAt(log, k.value), log[j]);
      StateIs(log, k.value);
      i := SettledState(log, k.value);
      hide Advanced, ToolItem, StateAt, Settles;
      SettlesLater(log, i, k.value, j);
    }
  }

  lemma SettlesLater(log: seq<Item>, i: nat, k: nat, j: nat)
    requires i <= k < j < |log| && LastSettles(log, i, k) && Settles(log[j]).None? && Earlier(log, k, j)
    requires forall m | k < m < j :: !Earlier(log, m, j)
    ensures LastSettles(log, i, j)
  {
    hide Settles, Earlier;
    forall m: nat | m < k ensures Earlier(log, m, k) <==> Earlier(log, m, j) {
      EarlierChain(log, m, k, j);
    }
  }

  // Whole operations.

  lemma FinalOf(log: seq<Item>, live: bool, o: Operation, j: nat)
    requires Ascending(log) && o in Operations(log, live) && Latest(log, j) && log[j].key in o.members
    ensures ToolAt(log, j)
    ensures o.state == if FinalState(log, j).Running? && !live then Unknown else FinalState(log, j)
  {
    TracedFinal(log);
    TracedCurrent(log);
    LatestIsTool(log, j);
    hide Traced, Latest, FinalState, ToolItem, BegunAfter;
    var n :| 0 <= n < |Operations(log, live)| && Operations(log, live)[n] == o;
    assert log[j].key in Traced(log).operations[n].members;
  }

  lemma UnsettledFinal(log: seq<Item>, j: nat)
    requires ToolAt(log, j) && Unsettled(log, j)
    ensures SameRun(log, j, |log|) ==> FinalState(log, j).Running?
    ensures forall m | j < m < |log| && Ends(log[m]) && SameRun(log, j, m) ::
              FinalState(log, j) == Halting(log[m])
  {
    StateIs(log, j);
    var first := FirstEnd(log, j + 1);
    hide StateAt, Unsettled, Ends, Halting, ToolItem;
    forall m | j < m < |log| && Ends(log[m]) && SameRun(log, j, m) ensures first == Some(m) {
      assert first.Some? && first.value <= m;
    }
  }

  lemma SettledFinal(log: seq<Item>, j: nat) returns (i: nat)
    requires ToolAt(log, j) && !Unsettled(log, j)
    ensures i <= j && LastSettles(log, i, j) && Settles(log[i]) == Some(FinalState(log, j))
    ensures !FinalState(log, j).Running?
  {
    StateIs(log, j);
    i := SettledState(log, j);
    hide StateAt, Unsettled, Halting, ToolItem, LastSettles, Settles;
  }

  /**
   The state of an operation, by its latest tool item. Where that leaves it running, the first item that then ends or
   begins a run makes it interrupted or unknown, and without one it is running in a live log and unknown in another.
   Otherwise it is in the state that the last item which settled it gave it, whatever ends later.
   */
  lemma OperationState(log: seq<Item>, live: bool, o: Operation, j: nat)
    requires Ascending(log) && o in Operations(log, live) && Latest(log, j) && log[j].key in o.members
    ensures j < |log|
    ensures Unsettled(log, j) && SameRun(log, j, |log|) ==> o.state == if live then Running else Unknown
    ensures forall m | j < m < |log| && Ends(log[m]) && SameRun(log, j, m) && Unsettled(log, j) ::
              o.state == Halting(log[m])
    ensures !Unsettled(log, j) ==>
              exists i | 0 <= i <= j :: LastSettles(log, i, j) && Settles(log[i]) == Some(o.state)
  {
    FinalOf(log, live, o, j);
    HaltingIs();
    if Unsettled(log, j) {
      UnsettledFinal(log, j);
      hide *;
    } else {
      var i := SettledFinal(log, j);
      hide *;
    }
  }

  /** Every operation with a call or a result has a latest one. */
  lemma HasLatest(log: seq<Item>, live: bool, o: Operation, i: nat) returns (j: nat)
    requires Ascending(log) && o in Operations(log, live) && ToolAt(log, i) && log[i].key in o.members
    ensures Latest(log, j) && log[j].key in o.members
  {
    j := LatestOf(log, i);
    LatestIsTool(log, j);
    hide Latest, Operations, ToolItem;
    InSameOperation(log, live, o, i, j);
  }

  lemma HaltingIs()
    ensures forall x: Item :: !Halting(x).Running?
  {
  }
}
