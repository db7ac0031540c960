/** Which images belong to an operation: those that name a call which is under way in their run. */
module TraceImages {
  import opened Wrappers
  import opened ConversationItems
  import opened ConversationTrace
  import opened TraceBeginnings
  import opened TraceConservation
  import opened TraceCorrelation

  predicate ImageAt(log: seq<Item>, i: nat) {
    i < |log| && TraceImage(log[i])
  }

  // Later items move no key that has been traced.

  lemma UnmovedOnwards(a: seq<Operation>, b: seq<Operation>, c: seq<Operation>, log: seq<Item>, log': seq<Item>)
    requires Unmoved(a, b, log) && Unmoved(b, c, log') && forall x <- log :: x in log'
    ensures Unmoved(a, c, log)
  {
  }

  lemma TraceItemUnmoved(t: Tracing, log: seq<Item>, x: Item)
    requires t.Valid() && forall y <- log :: y.key < x.key
    ensures Unmoved(t.operations, TraceItem(t, x).operations, log)
  {
    KindsApart(x);
    if Ends(x) {
      EndUnmoved(t, log, x);
    } else if ToolItem(x) {
      ToolUnmoved(t, log, x);
      ToolStepOf(t, x);
    } else {
      QuietUnmoved(t, log, x);
    }
    hide TraceItem, TraceTool, Unmoved, ToolItem, Terminal, RunBoundary;
  }

  lemma EndUnmoved(t: Tracing, log: seq<Item>, x: Item)
    requires t.Valid() && Ends(x)
    ensures Unmoved(t.operations, TraceItem(t, x).operations, log)
  {
    KindsApart(x);
    var s := if RunBoundary(x) then Finish(t, false) else t;
    var ended := Finish(s, Failed(x) || !Is(x, TurnResult));
    FinishUnmoved(t, false, log);
    SelfUnmoved(t.operations, log);
    FinishUnmoved(s, Failed(x) || !Is(x, TurnResult), log);
    hide Terminal, Traceable, RunBoundary, ToolItem, TraceImage, StatusOf, Failed, Finish;
    assert TraceItem(t, x).operations == if Terminal(x) then ended.operations else s.operations;
    hide TraceItem;
    UnmovedOnwards(t.operations, s.operations, ended.operations, log, log);
  }

  lemma {:induction false} TracedUnmoved(log: seq<Item>, n: nat)
    requires Ascending(log) && n <= |log|
    ensures Unmoved(Traced(log[..n]).operations, Traced(log).operations, log[..n])
  {
    hide TraceItem, Unmoved, Unseen;
    if n == |log| {
      assert log[..n] == log;
      SelfUnmoved(Traced(log).operations, log);
    } else {
      var shorter, x := log[..|log| - 1], log[|log| - 1];
      LastIsUnseen(log);
      TracedUnmoved(shorter, n);
      assert shorter[..n] == log[..n];
      TraceItemUnmoved(Traced(shorter), shorter, x);
      UnmovedOnwards(Traced(log[..n]).operations, Traced(shorter).operations, Traced(log).operations, log[..n],
        shorter);
    }
  }

  // Where an image goes.

  lemma ImageJoins(t: Tracing, x: Item, key: int)
    requires t.Valid() && Unseen(t.operations, x.key) && key != x.key
    ensures Together(TraceOutput(t, x).operations, key, x.key) <==>
            ImageOf(x).Some? && ImageOf(x).value in t.calls && key in t.operations[t.calls[ImageOf(x).value]].members
  {
    hide ImageOf;
    var operations := TraceOutput(t, x).operations;
    if ImageOf(x).Some? && ImageOf(x).value in t.calls {
      var n := t.calls[ImageOf(x).value];
      assert x.key in operations[n].members && (key in operations[n].members <==> key in t.operations[n].members);
      assert forall o | 0 <= o < |operations| && o != n :: operations[o] == t.operations[o];
    } else {
      assert operations[|t.operations|].members == [x.key];
      assert forall o | 0 <= o < |t.operations| :: operations[o] == t.operations[o];
    }
  }

  lemma CallsOfRun(t: Tracing, log: seq<Item>, i: nat, call: Option<CallKey>)
    requires t.Valid() && CallsFit(t, log) && ToolAt(log, i)
    ensures call.Some? && call.value in t.calls && log[i].key in t.operations[t.calls[call.value]].members <==>
            call.Some? && CallOf(log[i]) == call && SameRun(log, i, |log|)
  {
    hide CallOf, SameRun, ToolItem;
  }

  lemma ImageStepOf(t: Tracing, x: Item)
    requires t.Valid() && TraceImage(x)
    ensures TraceItem(t, x) == TraceOutput(t, x)
  {
    hide TraceOutput, TraceTool, Finish;
  }

  lemma SameRunWithin(log: seq<Item>, i: nat, j: nat)
    requires j <= |log|
    ensures SameRun(log[..j], i, j) <==> SameRun(log, i, j)
  {
    hide Ends;
    assert forall k | i < k < j :: log[..j][k] == log[k];
  }

  /** A tool item is part of the call that an image names, in the run of both. */
  predicate Called(log: seq<Item>, i: nat, j: nat)
    requires i < j < |log|
  {
    ImageOf(log[j]).Some? && CallOf(log[i]) == ImageOf(log[j]) && SameRun(log, i, j)
  }

  /**
   An image is in the operation of an earlier tool item if and only if it names its call and no run has ended since.
  */
  lemma ImagesCorrelate(log: seq<Item>, live: bool, i: nat, j: nat)
    requires Ascending(log) && i < j && ToolAt(log, i) && ImageAt(log, j)
    ensures Together(Operations(log, live), log[i].key, log[j].key) <==> Called(log, i, j)
  {
    hide TraceItem, TraceOutput, Unmoved, CallsFit, PairsFit, Unseen, Together, CallOf, ImageOf, SameRun, ToolItem,
         TraceImage, Finish;
    var shorter, upto, x := log[..j], log[..j + 1], log[j];
    AscendingUpTo(log, j + 1);
    assert upto == shorter + [x] && upto[..|upto| - 1] == shorter;
    LastIsUnseen(upto);
    TracedFits(shorter);
    TracedNext(log, j);
    ImageStepOf(Traced(shorter), x);
    ImageJoins(Traced(shorter), x, log[i].key);
    CallsOfRun(Traced(shorter), shorter, i, ImageOf(x));
    SameRunWithin(log, i, j);
    TracedUnmoved(log, j + 1);
    TogetherUnmoved(Traced(upto).operations, Traced(log).operations, upto, i, j);
    SameTogether(log, live, i, j);
  }

  lemma AscendingUpTo(log: seq<Item>, n: nat)
    requires Ascending(log) && n <= |log|
    ensures Ascending(log[..n])
  {
  }

  lemma SameTogether(log: seq<Item>, live: bool, i: nat, j: nat)
    requires i < |log| && j < |log|
    ensures Together(Operations(log, live), log[i].key, log[j].key) <==>
            Together(Traced(log).operations, log[i].key, log[j].key)
  {
    FinishUnmoved(Traced(log), false, log);
    hide Traced, Finish, Unmoved;
    if !live {
      TogetherUnmoved(Traced(log).operations, Operations(log, live), log, i, j);
    }
  }

  // Any two items of a call.

  /** What can be part of a call. */
  predicate PartAt(log: seq<Item>, i: nat) {
    ToolAt(log, i) || ImageAt(log, i)
  }

  /** The item at i is part of the call that the tool item at k is part of. */
  predicate PartOf(log: seq<Item>, k: nat, i: nat)
    requires k <= i < |log|
  {
    k == i || if ToolItem(log[i]) then Correlated(log, k, i) else Called(log, k, i)
  }

  lemma PartsOfTool(log: seq<Item>, live: bool, k: nat, i: nat)
    requires Ascending(log) && k <= i && ToolAt(log, k) && PartAt(log, i)
    ensures Together(Operations(log, live), log[k].key, log[i].key) <==> PartOf(log, k, i)
  {
    hide Operations, Together, TraceImage, Correlated, Called;
    if k == i {
      var o := ToolHasOperation(log, live, log[k]);
      AreTogether(Operations(log, live), o, log[k].key, log[k].key);
    } else if ToolItem(log[i]) {
      CallsCorrelate(log, live, k, i);
    } else {
      ImagesCorrelate(log, live, k, i);
    }
  }

  /** An operation of two items begins with a tool item, no later than either. */
  lemma BegunByEarlierTool(log: seq<Item>, live: bool, i: nat, j: nat) returns (k: nat)
    requires Ascending(log) && i < j && PartAt(log, i) && PartAt(log, j)
    requires Together(Operations(log, live), log[i].key, log[j].key)
    ensures k <= i && ToolAt(log, k)
    ensures Together(Operations(log, live), log[k].key, log[i].key)
    ensures Together(Operations(log, live), log[k].key, log[j].key)
  {
    hide Operations, ToolItem, TraceImage, ToolKey;
    var operations := Operations(log, live);
    var n :| 0 <= n < |operations| && log[i].key in operations[n].members && log[j].key in operations[n].members;
    var o := operations[n];
    OperationsBegun(log, live, o);
    FirstIsLeast(log, live, o, log[i].key);
    assert |o.members| > 1 by {
      assert log[i].key < log[j].key;
    }
    k := ToolWithKey(log, o.members[0]);
    AreTogether(operations, o, log[k].key, log[i].key);
    AreTogether(operations, o, log[k].key, log[j].key);
    assert log[k].key <= log[i].key;
  }

  lemma ToolWithKey(log: seq<Item>, key: int) returns (k: nat)
    requires ToolKey(log, key)
    ensures ToolAt(log, k) && log[k].key == key
  {
    hide ToolItem;
    var x :| x in log && ToolItem(x) && x.key == key;
    k :| 0 <= k < |log| && log[k] == x;
  }

  lemma BothWithTool(log: seq<Item>, live: bool, k: nat, i: nat, j: nat)
    requires Ascending(log) && k <= i < j < |log|
    requires Together(Operations(log, live), log[k].key, log[i].key)
    requires Together(Operations(log, live), log[k].key, log[j].key)
    ensures Together(Operations(log, live), log[i].key, log[j].key)
  {
    hide Operations;
    var operations := Operations(log, live);
    var n :| 0 <= n < |operations| && log[k].key in operations[n].members && log[i].key in operations[n].members;
    var m :| 0 <= m < |operations| && log[k].key in operations[m].members && log[j].key in operations[m].members;
    OneOperation(log, live, operations[n], operations[m], log[k].key);
    assert log[j].key in operations[n].members;
  }

  /**
   Two tool items or images are in one operation if and only if some tool item no later than either begins a call that
   both are part of: by its id within the task, agent and session, with no end or beginning of a run in between. An
   image that comes before its call, or names none, stays alone.
   */
  lemma PartsCorrelate(log: seq<Item>, live: bool, i: nat, j: nat)
    requires Ascending(log) && i < j && PartAt(log, i) && PartAt(log, j)
    ensures Together(Operations(log, live), log[i].key, log[j].key) <==>
            exists k: nat :: k <= i && ToolAt(log, k) && PartOf(log, k, i) && PartOf(log, k, j)
  {
    hide Operations, Together, ToolItem, TraceImage, PartOf;
    if Together(Operations(log, live), log[i].key, log[j].key) {
      var k := BegunByEarlierTool(log, live, i, j);
      PartsOfTool(log, live, k, i);
      PartsOfTool(log, live, k, j);
    }
    if k: nat :| k <= i && ToolAt(log, k) && PartOf(log, k, i) && PartOf(log, k, j) {
      PartsOfTool(log, live, k, i);
      PartsOfTool(log, live, k, j);
      BothWithTool(log, live, k, i, j);
    }
  }
}
