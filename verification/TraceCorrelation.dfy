/** Which tool items form one operation: those of one call within one run. */
module TraceCorrelation {
  import opened Wrappers
  import opened ConversationItems
  import opened ConversationTrace
  import opened TraceConservation

  /** No run ends or begins strictly between two positions. */
  predicate SameRun(log: seq<Item>, i: nat, j: nat)
    requires j <= |log|
  {
    forall k | i < k < j :: !Ends(log[k])
  }

  predicate ToolAt(log: seq<Item>, i: nat) {
    i < |log| && ToolItem(log[i])
  }

  /** Two tool items are parts of one call. */
  predicate Correlated(log: seq<Item>, i: nat, j: nat)
    requires i < j < |log|
  {
    CallOf(log[i]).Some? && CallOf(log[i]) == CallOf(log[j]) && SameRun(log, i, j)
  }

  ghost predicate Together(operations: seq<Operation>, a: int, b: int) {
    exists o :: 0 <= o < |operations| && a in operations[o].members && b in operations[o].members
  }

  /** The operation of a call holds exactly the tool items of that call in the present run. */
  ghost predicate CallsFit(t: Tracing, log: seq<Item>)
    requires t.Valid()
  {
    && (forall c <- t.calls, i: nat | ToolAt(log, i) ::
          log[i].key in t.operations[t.calls[c]].members <==> CallOf(log[i]) == Some(c) && SameRun(log, i, |log|))
    && CallsKnown(t.calls, log) && CallsDistinct(t.calls)
  }

  /** Every call of the present run has its operation. */
  ghost predicate CallsKnown(calls: map<CallKey, nat>, log: seq<Item>) {
    forall i: nat | ToolAt(log, i) && CallOf(log[i]).Some? && SameRun(log, i, |log|) :: CallOf(log[i]).value in calls
  }

  ghost predicate CallsDistinct(calls: map<CallKey, nat>) {
    forall c <- calls, c' <- calls | calls[c] == calls[c'] :: c == c'
  }

  ghost predicate PairsFit(operations: seq<Operation>, log: seq<Item>) {
    forall i: nat, j: nat | i < j && ToolAt(log, i) && ToolAt(log, j) ::
      Together(operations, log[i].key, log[j].key) <==> Correlated(log, i, j)
  }

  /** No operation gains or loses a key of the log. */
  ghost predicate Unmoved(operations: seq<Operation>, operations': seq<Operation>, log: seq<Item>) {
    && |operations| <= |operations'|
    && (forall x <- log, o | 0 <= o < |operations| ::
      x.key in operations'[o].members <==> x.key in operations[o].members)
    && (forall x <- log, o | |operations| <= o < |operations'| :: x.key !in operations'[o].members)
  }

  lemma TogetherUnmoved(operations: seq<Operation>, operations': seq<Operation>, log: seq<Item>, i: nat, j: nat)
    requires Unmoved(operations, operations', log) && i < |log| && j < |log|
    ensures Together(operations', log[i].key, log[j].key) <==> Together(operations, log[i].key, log[j].key)
  {
    assert log[i] in log && log[j] in log;
    if Together(operations', log[i].key, log[j].key) {
      var o :| 0 <= o < |operations'| && log[i].key in operations'[o].members && log[j].key in operations'[o].members;
      assert o < |operations|;
    }
    if Together(operations, log[i].key, log[j].key) {
      var o :| 0 <= o < |operations| && log[i].key in operations[o].members && log[j].key in operations[o].members;
      assert log[i].key in operations'[o].members;
    }
  }

  lemma OldPairsFit(operations: seq<Operation>, operations': seq<Operation>, log: seq<Item>, x: Item)
    requires PairsFit(operations, log) && Unmoved(operations, operations', log)
    requires ToolItem(x) ==>
               forall i: nat | ToolAt(log, i) :: Together(operations', log[i].key, x.key)
                 <==> Correlated(log + [x], i, |log|)
    ensures PairsFit(operations', log + [x])
  {
    var more := log + [x];
    hide CallOf, Together, Unmoved, ToolItem, Ends;
    forall i: nat, j: nat | i < j && ToolAt(more, i) && ToolAt(more, j)
      ensures Together(operations', more[i].key, more[j].key) <==> Correlated(more, i, j)
    {
      assert more[i] == log[i] && ToolAt(log, i);
      if j < |log| {
        assert more[j] == log[j] && ToolAt(log, j);
        TogetherUnmoved(operations, operations', log, i, j);
        SameRunMore(log, x, i, j);
      }
    }
  }

  lemma SameRunMore(log: seq<Item>, x: Item, i: nat, j: nat)
    requires j <= |log|
    ensures SameRun(log + [x], i, j) <==> SameRun(log, i, j)
  {
    hide Ends;
    forall k | i < k < j ensures (log + [x])[k] == log[k] {
    }
  }

  lemma SameRunNext(log: seq<Item>, x: Item, i: nat)
    requires i < |log|
    ensures SameRun(log + [x], i, |log| + 1) <==> SameRun(log, i, |log|) && !Ends(x)
  {
    hide Ends;
    SameRunMore(log, x, i, |log|);
    assert (log + [x])[|log|] == x;
  }

  /** Nothing but tool items changes which call is which. */
  lemma QuietStep(t: Tracing, t': Tracing, log: seq<Item>, x: Item)
    requires t.Valid() && t'.Valid() && CallsFit(t, log) && !ToolItem(x) && !Ends(x)
    requires t'.calls == t.calls && Unmoved(t.operations, t'.operations, log)
    ensures CallsFit(t', log + [x])
  {
    var more := log + [x];
    hide CallOf, Ends, ToolItem;
    forall i: nat | ToolAt(more, i) ensures ToolAt(log, i) && more[i] == log[i] && log[i] in log
                                           && (SameRun(more, i, |more|) <==> SameRun(log, i, |log|))
    {
      SameRunNext(log, x, i);
    }
  }

  lemma EndStep(t': Tracing, log: seq<Item>, x: Item)
    requires t'.Valid() && t'.calls == map[] && Ends(x) && !ToolItem(x)
    ensures CallsFit(t', log + [x])
  {
    var more := log + [x];
    hide CallOf, Ends, ToolItem;
    forall i: nat | ToolAt(more, i) ensures !SameRun(more, i, |more|) {
      SameRunNext(log, x, i);
    }
  }

  /** What a tool item does to the members of operations: it joins the operation of its call. */
  lemma ToolJoins(t: Tracing, x: Item)
    requires t.Valid() && ToolItem(x)
    ensures var t' := TraceTool(t, x);
            var n := WithCall(t, x).1;
            && |t.operations| <= |t'.operations| <= |t.operations| + 1 && n < |t'.operations|
            && (n == |t.operations| <==> |t'.operations| > |t.operations|)
            && (n == |t.operations| <==> CallOf(x).None? || CallOf(x).value !in t.calls)
            && (n < |t.operations| ==>
              CallOf(x).Some? && CallOf(x).value in t.calls && n == t.calls[CallOf(x).value] && t'.calls == t.calls)
            && (n == |t.operations| ==> t'.calls == if CallOf(x).Some? then t.calls[CallOf(x).value := n] else t.calls)
            && (forall o | 0 <= o < |t.operations| && o != n :: t'.operations[o] == t.operations[o])
            && t'.operations[n].members == (if n < |t.operations| then t.operations[n].members else []) + [x.key]
            && t'.operations[n].key == (if n < |t.operations| then t.operations[n].key else x.key)
            && t'.operations[n].state == Advanced(if n < |t.operations| then t.operations[n].state else Running, x)
  {
    hide CallOf, Failed, Advanced;
  }

  ghost predicate Unseen(operations: seq<Operation>, key: int) {
    forall o | 0 <= o < |operations| :: key !in operations[o].members
  }

  lemma ToolUnmoved(t: Tracing, log: seq<Item>, x: Item)
    requires t.Valid() && ToolItem(x) && forall y <- log :: y.key < x.key
    ensures Unmoved(t.operations, TraceTool(t, x).operations, log)
  {
    ToolJoins(t, x);
    hide TraceTool, WithCall, CallOf;
  }

  lemma ToolPairs(t: Tracing, log: seq<Item>, x: Item, i: nat)
    requires t.Valid() && ToolItem(x) && CallsFit(t, log) && Unseen(t.operations, x.key)
    requires ToolAt(log, i) && log[i].key < x.key
    ensures Together(TraceTool(t, x).operations, log[i].key, x.key) <==> Correlated(log + [x], i, |log|)
  {
    var t', n := TraceTool(t, x), WithCall(t, x).1;
    ToolJoins(t, x);
    hide TraceTool, WithCall, CallOf, Ends, ToolItem;
    assert (log + [x])[i] == log[i] && (log + [x])[|log|] == x;
    SameRunMore(log, x, i, |log|);
    assert Together(t'.operations, log[i].key, x.key) <==> log[i].key in t'.operations[n].members by {
      assert x.key in t'.operations[n].members;
      forall o | 0 <= o < |t'.operations| && x.key in t'.operations[o].members ensures o == n {
      }
    }
  }

  /** The calls of other tool items are as they were, and none has taken operation n. */
  ghost predicate OthersKept(t: Tracing, t': Tracing, n: nat, call: Option<CallKey>)
    requires t.Valid()
  {
    forall c | c in t'.calls && call != Some(c) :: c in t.calls && t'.calls[c] == t.calls[c] && t.calls[c] != n
  }

  lemma ToolKeepsOthers(t: Tracing, x: Item, log: seq<Item>)
    requires t.Valid() && ToolItem(x) && CallsFit(t, log)
    ensures var t', n := TraceTool(t, x), WithCall(t, x).1;
            OthersKept(t, t', n, CallOf(x)) && CallsDistinct(t'.calls)
  {
    ToolJoins(t, x);
    hide TraceTool, WithCall, CallOf, ToolItem, ToolAt, SameRun, CallsKnown;
  }

  lemma ToolKeepsKnown(t: Tracing, x: Item, log: seq<Item>)
    requires t.Valid() && ToolItem(x) && CallsFit(t, log)
    ensures CallsKnown(TraceTool(t, x).calls, log + [x])
  {
    var t', more := TraceTool(t, x), log + [x];
    ToolJoins(t, x);
    hide TraceTool, WithCall, CallOf, ToolItem, CallsDistinct, Ends;
    forall i: nat | ToolAt(more, i) && CallOf(more[i]).Some? && SameRun(more, i, |more|)
      ensures CallOf(more[i]).value in t'.calls
    {
      if i < |log| {
        SameRunNext(log, x, i);
        assert more[i] == log[i] && ToolAt(log, i);
      } else {
        assert more[i] == x;
      }
    }
  }

  lemma ToolCalls(t: Tracing, log: seq<Item>, x: Item)
    requires t.Valid() && ToolItem(x) && !Ends(x) && CallsFit(t, log) && Unseen(t.operations, x.key)
             && forall y <- log :: y.key < x.key
    ensures CallsFit(TraceTool(t, x), log + [x])
  {
    var t', n, more := TraceTool(t, x), WithCall(t, x).1, log + [x];
    ToolJoins(t, x);
    ToolKeepsOthers(t, x, log);
    ToolKeepsKnown(t, x, log);
    assert SameRun(more, |log|, |more|);
    hide TraceTool, WithCall, CallOf, Ends, ToolItem, Unseen, SameRun, CallsDistinct, CallsKnown, CallsFit;
    forall c, i: nat | c in t'.calls && ToolAt(more, i)
      ensures more[i].key in t'.operations[t'.calls[c]].members
              <==> CallOf(more[i]) == Some(c) && SameRun(more, i, |more|)
    {
      if i < |log| {
        SameRunNext(log, x, i);
        assert more[i] == log[i];
      }
      CallFits(t, t', n, log, x, c, i);
    }
    CallsFitFrom(t', more);
  }

  lemma CallsFitFrom(t: Tracing, log: seq<Item>)
    requires t.Valid() && CallsKnown(t.calls, log) && CallsDistinct(t.calls)
    requires forall c <- t.calls, i: nat | ToolAt(log, i) ::
               log[i].key in t.operations[t.calls[c]].members <==> CallOf(log[i]) == Some(c) && SameRun(log, i, |log|)
    ensures CallsFit(t, log)
  {
    hide CallOf, ToolAt, SameRun, CallsKnown, CallsDistinct;
  }

  lemma CallFits(t: Tracing, t': Tracing, n: nat, log: seq<Item>, x: Item, c: CallKey, i: nat)
    requires t.Valid() && t'.Valid() && CallsFit(t, log) && Unseen(t.operations, x.key)
             && (forall y <- log :: y.key < x.key)
    requires c in t'.calls && i <= |log| && (i < |log| ==> ToolAt(log, i))
    requires SameRun(log + [x], |log|, |log| + 1)
             && (i < |log| ==> (SameRun(log + [x], i, |log| + 1) <==> SameRun(log, i, |log|)))
    requires |t.operations| <= |t'.operations| && n < |t'.operations| && n <= |t.operations|
    requires n == |t.operations| ==> CallOf(x).None? || CallOf(x).value !in t.calls
    requires if CallOf(x) == Some(c) then t'.calls[c] == n && (n < |t.operations| ==> c in t.calls && t.calls[c] == n)
             else c in t.calls && t'.calls[c] == t.calls[c] && t.calls[c] != n
    requires forall o | 0 <= o < |t.operations| && o != n :: t'.operations[o] == t.operations[o]
    requires t'.operations[n].members == (if n < |t.operations| then t.operations[n].members else []) + [x.key]
    ensures (log + [x])[i].key in t'.operations[t'.calls[c]].members <==>
            CallOf((log + [x])[i]) == Some(c) && SameRun(log + [x], i, |log| + 1)
  {
    hide CallOf, Ends, ToolItem, SameRun;
    var more := log + [x];
    if i < |log| {
      assert more[i] == log[i] && log[i] in log && log[i].key != x.key;
    } else {
      assert more[i] == x;
    }
  }

  lemma OutputUnmoved(t: Tracing, log: seq<Item>, x: Item)
    requires t.Valid() && forall y <- log :: y.key < x.key
    ensures Unmoved(t.operations, TraceOutput(t, x).operations, log) && TraceOutput(t, x).calls == t.calls
  {
  }

  lemma PushUnmoved(t: Tracing, operation: Operation, log: seq<Item>, x: Item)
    requires t.Valid() && operation.members == [x.key] && forall y <- log :: y.key < x.key
    ensures Unmoved(t.operations, Push(t, operation).operations, log)
  {
  }

  lemma FinishUnmoved(t: Tracing, interrupted: bool, log: seq<Item>)
    requires t.Valid()
    ensures Unmoved(t.operations, Finish(t, interrupted).operations, log)
    ensures forall i | 0 <= i < |t.operations| ::
            Finish(t, interrupted).operations[i].members == t.operations[i].members
  {
  }

  lemma KindsApart(x: Item)
    ensures ToolItem(x) ==> !Ends(x)
    ensures RunBoundary(x) && !Terminal(x) ==> !TraceImage(x) && !x.Text? && !StatusOf(x, Reasoning) && !Traceable(x)
  {
  }

  lemma TraceItemFits(t: Tracing, log: seq<Item>, x: Item)
    requires t.Valid() && CallsFit(t, log) && PairsFit(t.operations, log)
    requires Unseen(t.operations, x.key) && forall y <- log :: y.key < x.key
    ensures CallsFit(TraceItem(t, x), log + [x]) && PairsFit(TraceItem(t, x).operations, log + [x])
  {
    var t' := TraceItem(t, x);
    KindsApart(x);
    if Ends(x) {
      EndFits(t, log, x);
    } else {
      assert !RunBoundary(x) && !Terminal(x);
      hide CallsFit, PairsFit, Finish, TraceTool, TraceOutput, Terminal, Traceable, ToolItem, TraceImage, Failed,
           RunBoundary, StatusOf, Together, Correlated, Unmoved, Unseen;
      if ToolItem(x) {
        ToolUnmoved(t, log, x);
        ToolCalls(t, log, x);
        forall i: nat | ToolAt(log, i)
          ensures Together(t'.operations, log[i].key, x.key) <==> Correlated(log + [x], i, |log|)
        {
          assert log[i] in log;
          ToolPairs(t, log, x, i);
        }
      } else {
        assert Unmoved(t.operations, t'.operations, log) && t'.calls == t.calls by {
          QuietUnmoved(t, log, x);
        }
        QuietStep(t, t', log, x);
      }
      OldPairsFit(t.operations, t'.operations, log, x);
    }
  }

  lemma QuietUnmoved(t: Tracing, log: seq<Item>, x: Item)
    requires t.Valid() && !ToolItem(x) && !RunBoundary(x) && !Terminal(x) && forall y <- log :: y.key < x.key
    ensures Unmoved(t.operations, TraceItem(t, x).operations, log) && TraceItem(t, x).calls == t.calls
  {
    hide Unmoved, Finish, TraceOutput, Terminal, Traceable, ToolItem, TraceImage, Failed, RunBoundary, StatusOf;
    OutputUnmoved(t, log, x);
    PushUnmoved(t, Operation(x.key, ProgressStep, Finished, [x.key]), log, x);
    PushUnmoved(t, Operation(x.key, ReasoningStep, Finished, [x.key]), log, x);
    PushUnmoved(t, Operation(x.key, EventStep, if Failed(x) then Errored else Finished, [x.key]), log, x);
    SelfUnmoved(t.operations, log);
  }

  lemma SelfUnmoved(operations: seq<Operation>, log: seq<Item>)
    ensures Unmoved(operations, operations, log)
  {
  }

  lemma EndFits(t: Tracing, log: seq<Item>, x: Item)
    requires t.Valid() && PairsFit(t.operations, log) && Ends(x)
    ensures CallsFit(TraceItem(t, x), log + [x]) && PairsFit(TraceItem(t, x).operations, log + [x])
  {
    var t' := TraceItem(t, x);
    KindsApart(x);
    var s := if RunBoundary(x) then Finish(t, false) else t;
    FinishUnmoved(t, false, log);
    FinishUnmoved(s, Failed(x) || !Is(x, TurnResult), log);
    assert t'.calls == map[] && Unmoved(t.operations, t'.operations, log) by {
      hide Terminal, RunBoundary, ToolItem, TraceImage, StatusOf, Failed, PairsFit;
    }
    hide TraceItem, Finish, CallsFit, PairsFit, ToolItem;
    EndStep(t', log, x);
    OldPairsFit(t.operations, t'.operations, log, x);
  }

  lemma {:induction false} NotAMember(operations: seq<Operation>, key: int)
    requires key !in Members(operations)
    ensures Unseen(operations, key)
  {
    if operations != [] {
      var n := |operations| - 1;
      NotAMember(operations[..n], key);
      assert key in multiset(operations[n].members) <==> key in operations[n].members;
      forall o | 0 <= o < |operations| ensures key !in operations[o].members {
        assert o < n ==> operations[..n][o] == operations[o];
      }
    }
  }

  lemma LastIsUnseen(log: seq<Item>)
    requires log != [] && Ascending(log)
    ensures var shorter, x := log[..|log| - 1], log[|log| - 1];
            Ascending(shorter) && Unseen(Traced(shorter).operations, x.key) && forall y <- shorter :: y.key < x.key
  {
    var shorter, x := log[..|log| - 1], log[|log| - 1];
    assert log == shorter + [x];
    forall y | y in shorter ensures y.key < x.key {
      var i :| 0 <= i < |shorter| && shorter[i] == y;
      assert log[i] == y;
    }
    hide Traced, TracedKeys, HasTraced, Members, Unseen;
    HasTracedNext(log, x.key);
    TracedMembers(shorter);
    TracedKeysAscend(shorter, x.key);
    NotAMember(Traced(shorter).operations, x.key);
  }

  lemma {:induction false} TracedFits(log: seq<Item>)
    requires Ascending(log)
    ensures CallsFit(Traced(log), log) && PairsFit(Traced(log).operations, log)
  {
    hide TraceItem, CallsFit, PairsFit, Unseen, Ascending;
    if log != [] {
      var shorter, x := log[..|log| - 1], log[|log| - 1];
      LastIsUnseen(log);
      TracedFits(shorter);
      assert log == shorter + [x];
      TraceItemFits(Traced(shorter), shorter, x);
    } else {
      NothingFits(log);
    }
  }

  lemma NothingFits(log: seq<Item>)
    requires log == []
    ensures CallsFit(Traced(log), log) && PairsFit(Traced(log).operations, log)
  {
  }

  /**
   Two tool items are members of one operation if and only if they name the same call of the same task, agent and
   session, and no run ends or begins between them. Without an id they never are.
   */
  lemma CallsCorrelate(log: seq<Item>, live: bool, i: nat, j: nat)
    requires Ascending(log) && i < j && ToolAt(log, i) && ToolAt(log, j)
    ensures Together(Operations(log, live), log[i].key, log[j].key) <==> Correlated(log, i, j)
  {
    TracedFits(log);
    FinishUnmoved(Traced(log), false, log);
    hide Traced, Finish, CallsFit, Correlated, Unmoved;
    if !live {
      TogetherUnmoved(Traced(log).operations, Operations(log, live), log, i, j);
    }
  }
}
