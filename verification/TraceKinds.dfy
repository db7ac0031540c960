/** What an operation is about: a tool call, or one item that stands for itself, in a state of its own. */
module TraceKinds {
  import opened ConversationItems
  import opened ConversationTrace
  import opened TraceConservation
  import opened TraceCorrelation

  function AloneKind(x: Item): TraceKind {
    if x.Text? then ProgressStep else if StatusOf(x, Reasoning) then ReasoningStep else EventStep
  }

  /** Only a failed status that is not about reasoning is an error. */
  function AloneState(x: Item): TraceState {
    if Is(x, Status) && !StatusOf(x, Reasoning) && Failed(x) then Errored else Finished
  }

  /** The item is an operation by itself. */
  predicate IsAlone(o: Operation, x: Item) {
    !ToolItem(x) && o == Operation(x.key, AloneKind(x), AloneState(x), [x.key])
  }

  ghost predicate HasCall(o: Operation, log: seq<Item>) {
    exists x <- log :: Is(x, ToolCall) && x.key in o.members
  }

  ghost predicate OfTool(o: Operation, log: seq<Item>) {
    && (exists x <- log :: ToolItem(x) && x.key in o.members)
    && o.kind == if HasCall(o, log) then ToolStep else EventStep
  }

  ghost predicate Alone(o: Operation, log: seq<Item>) {
    exists x <- log :: IsAlone(o, x)
  }

  ghost predicate KindsFit(t: Tracing, log: seq<Item>)
    requires t.Valid()
  {
    && (forall o <- t.operations :: Alone(o, log) || OfTool(o, log))
    && (forall c <- t.calls :: OfTool(t.operations[t.calls[c]], log))
  }

  /** An item that is not in an operation leaves its kind. */
  lemma KindLater(o: Operation, log: seq<Item>, x: Item)
    requires x.key !in o.members
    ensures Alone(o, log) ==> Alone(o, log + [x])
    ensures OfTool(o, log) ==> OfTool(o, log + [x])
  {
    hide IsAlone, ToolItem, Is;
    forall y | y in log ensures y in log + [x] {
    }
    assert HasCall(o, log + [x]) ==> HasCall(o, log);
    assert HasCall(o, log) ==> HasCall(o, log + [x]) by {
      if y :| y in log && Is(y, ToolCall) && y.key in o.members {
        assert y in log + [x];
      }
    }
    if OfTool(o, log) {
      var y :| y in log && ToolItem(y) && y.key in o.members;
      assert y in log + [x];
    }
    if Alone(o, log) {
      var y :| y in log && IsAlone(o, y);
      assert y in log + [x];
    }
  }

  lemma KindsLater(t: Tracing, log: seq<Item>, x: Item)
    requires t.Valid() && KindsFit(t, log) && Unseen(t.operations, x.key)
    ensures KindsFit(t, log + [x])
  {
    hide Alone, OfTool;
    forall n | 0 <= n < |t.operations|
      ensures Alone(t.operations[n], log) ==> Alone(t.operations[n], log + [x])
      ensures OfTool(t.operations[n], log) ==> OfTool(t.operations[n], log + [x])
    {
      KindLater(t.operations[n], log, x);
    }
  }

  lemma AloneAdded(t: Tracing, log: seq<Item>, x: Item, o: Operation)
    requires t.Valid() && KindsFit(t, log + [x]) && IsAlone(o, x)
    ensures KindsFit(Push(t, o), log + [x])
  {
    hide IsAlone, OfTool;
    assert x in log + [x];
    assert Alone(o, log + [x]);
    hide Alone;
    var t' := Push(t, o);
    forall p | p in t'.operations ensures Alone(p, log + [x]) || OfTool(p, log + [x]) {
      assert p in t.operations || p == o;
    }
  }

  /** A member that is no call joins an operation of a tool. */
  lemma MemberJoins(o: Operation, o': Operation, log: seq<Item>, x: Item)
    requires OfTool(o, log) && x in log && forall y <- log :: y.key == x.key ==> y == x
    requires o'.members == o.members + [x.key]
    requires o'.kind == if Is(x, ToolCall) then ToolStep else o.kind
    ensures OfTool(o', log)
  {
    hide ToolItem, Is;
    var y :| y in log && ToolItem(y) && y.key in o.members;
    assert y.key in o'.members;
    if HasCall(o, log) {
      var z :| z in log && Is(z, ToolCall) && z.key in o.members;
      assert z.key in o'.members;
    }
    if HasCall(o', log) && !Is(x, ToolCall) {
      var z :| z in log && Is(z, ToolCall) && z.key in o'.members;
      assert z.key in o.members;
    }
    assert x.key in o'.members;
  }

  lemma FirstOfTool(o: Operation, log: seq<Item>, x: Item)
    requires ToolItem(x) && x in log && forall y <- log :: y.key == x.key ==> y == x
    requires o.members == [x.key] && o.kind == if Is(x, ToolCall) then ToolStep else EventStep
    ensures OfTool(o, log)
  {
    hide ToolItem, Is;
    assert x.key in o.members;
  }

  lemma ToolMakes(t: Tracing, x: Item)
    requires t.Valid() && ToolItem(x)
    ensures var t', n := TraceTool(t, x), WithCall(t, x).1;
            n < |t'.operations| && t'.operations[n].kind ==
              if Is(x, ToolCall) then ToolStep else if n < |t.operations| then t.operations[n].kind else EventStep
  {
    hide CallOf, Is, Advanced;
  }

  lemma ToolKinds(t: Tracing, log: seq<Item>, x: Item)
    requires t.Valid() && KindsFit(t, log) && ToolItem(x) && x in log && forall y <- log :: y.key == x.key ==> y == x
    ensures KindsFit(TraceTool(t, x), log)
  {
    var t', n := TraceTool(t, x), WithCall(t, x).1;
    ToolJoins(t, x);
    ToolMakes(t, x);
    hide TraceTool, WithCall, CallOf, ToolItem, Alone, OfTool, Advanced, Is;
    if n < |t.operations| {
      MemberJoins(t.operations[n], t'.operations[n], log, x);
    } else {
      FirstOfTool(t'.operations[n], log, x);
    }
    forall i | 0 <= i < |t'.operations| ensures Alone(t'.operations[i], log) || OfTool(t'.operations[i], log) {
      if i != n {
        assert t'.operations[i] in t.operations;
      }
    }
    forall c | c in t'.calls ensures OfTool(t'.operations[t'.calls[c]], log) {
      if t'.calls[c] != n {
        assert c in t.calls && t'.calls[c] == t.calls[c];
      }
    }
  }

  lemma OutputJoins(t: Tracing, x: Item)
    requires t.Valid()
    ensures var t', call := TraceOutput(t, x), ImageOf(x);
            && t'.calls == t.calls
            && if call.Some? && call.value in t.calls then
                 var n := t.calls[call.value];
                 t'.operations == t.operations[n := t.operations[n].(members := t.operations[n].members + [x.key])]
               else t' == Push(t, Operation(x.key, EventStep, Finished, [x.key]))
  {
    hide ImageOf;
  }

  lemma ImageKinds(t: Tracing, log: seq<Item>, x: Item)
    requires t.Valid() && KindsFit(t, log + [x]) && TraceImage(x) && !ToolItem(x) && forall y <- log :: y.key < x.key
    ensures KindsFit(TraceOutput(t, x), log + [x])
  {
    OutputJoins(t, x);
    ImagesAreEvents(x);
    hide TraceOutput, ImageOf, Alone, OfTool, TraceImage, ToolItem, IsAlone, Is, AloneKind, AloneState;
    var call := ImageOf(x);
    if call.Some? && call.value in t.calls {
      var n, t' := t.calls[call.value], TraceOutput(t, x);
      assert x in log + [x];
      MemberJoins(t.operations[n], t'.operations[n], log + [x], x);
      forall i | 0 <= i < |t'.operations|
        ensures Alone(t'.operations[i], log + [x]) || OfTool(t'.operations[i], log + [x])
      {
        if i != n {
          assert t'.operations[i] in t.operations;
        }
      }
    } else {
      AloneAdded(t, log, x, Operation(x.key, EventStep, Finished, [x.key]));
    }
  }

  lemma ImagesAreEvents(x: Item)
    requires TraceImage(x)
    ensures !ToolItem(x) && !Is(x, ToolCall) && AloneKind(x) == EventStep && AloneState(x) == Finished
    ensures IsAlone(Operation(x.key, EventStep, Finished, [x.key]), x)
  {
  }

  lemma HaltedKind(o: Operation, o': Operation, log: seq<Item>)
    requires o' == o || (o.state.Running? && o' == o.(state := o'.state))
    ensures Alone(o, log) ==> Alone(o', log)
    ensures OfTool(o, log) ==> OfTool(o', log)
  {
    hide ToolItem, Is, AloneKind;
  }

  lemma FinishKinds(t: Tracing, interrupted: bool, log: seq<Item>)
    requires t.Valid() && KindsFit(t, log)
    ensures KindsFit(Finish(t, interrupted), log)
  {
    hide Alone, OfTool;
    var t' := Finish(t, interrupted);
    forall i | 0 <= i < |t'.operations| ensures Alone(t'.operations[i], log) || OfTool(t'.operations[i], log) {
      HaltedKind(t.operations[i], t'.operations[i], log);
      assert t.operations[i] in t.operations;
    }
  }

  lemma Others(x: Item)
    requires !Ends(x) && !ToolItem(x) && !TraceImage(x)
    ensures x.Text? ==> IsAlone(Operation(x.key, ProgressStep, Finished, [x.key]), x)
    ensures StatusOf(x, Reasoning) ==> IsAlone(Operation(x.key, ReasoningStep, Finished, [x.key]), x)
    ensures !x.Text? && !StatusOf(x, Reasoning) && Traceable(x)
            ==> IsAlone(Operation(x.key, EventStep, if Failed(x) then Errored else Finished, [x.key]), x)
  {
  }

  lemma TraceItemKinds(t: Tracing, log: seq<Item>, x: Item)
    requires t.Valid() && KindsFit(t, log) && Unseen(t.operations, x.key) && forall y <- log :: y.key < x.key
    ensures KindsFit(TraceItem(t, x), log + [x])
  {
    var more := log + [x];
    KindsLater(t, log, x);
    KindsApart(x);
    hide KindsFit, Finish, TraceTool, TraceOutput, Push, Terminal, Traceable, ToolItem, TraceImage, Failed, RunBoundary,
         StatusOf, IsAlone;
    FinishKinds(t, false, more);
    var s := if RunBoundary(x) then Finish(t, false) else t;
    FinishKinds(s, Failed(x) || !Is(x, TurnResult), more);
    if !Ends(x) {
      if ToolItem(x) {
        ToolKinds(t, more, x);
      } else if TraceImage(x) {
        ImageKinds(t, log, x);
      } else {
        Others(x);
        if x.Text? {
          AloneAdded(t, log, x, Operation(x.key, ProgressStep, Finished, [x.key]));
        } else if StatusOf(x, Reasoning) {
          AloneAdded(t, log, x, Operation(x.key, ReasoningStep, Finished, [x.key]));
        } else if Traceable(x) {
          AloneAdded(t, log, x, Operation(x.key, EventStep, if Failed(x) then Errored else Finished, [x.key]));
        }
      }
    }
  }

  lemma {:induction false} TracedKinds(log: seq<Item>)
    requires Ascending(log)
    ensures KindsFit(Traced(log), log)
  {
    hide TraceItem, KindsFit, Unseen, Ascending;
    if log == [] {
      NothingHasKind();
    } else {
      var shorter, x := log[..|log| - 1], log[|log| - 1];
      LastIsUnseen(log);
      TracedKinds(shorter);
      assert log == shorter + [x];
      TraceItemKinds(Traced(shorter), shorter, x);
    }
  }

  lemma NothingHasKind()
    ensures KindsFit(Tracing([], map[], []), [])
  {
  }

  /**
   Every operation is either one item that stands for itself, with the kind and the state that this gives it, or has
   calls or results: then it is a tool step if and only if it has a call.
   */
  lemma OperationKind(log: seq<Item>, live: bool, o: Operation)
    requires Ascending(log) && o in Operations(log, live)
    ensures (exists x <- log :: IsAlone(o, x)) || OfTool(o, log)
  {
    TracedKinds(log);
    FinishKinds(Traced(log), false, log);
    hide Traced, Finish, OfTool, IsAlone;
  }

  // Operations and their members are in the order of the log.

  ghost predicate MembersAscend(o: Operation, key: int) {
    && o.key < key && (forall k <- o.members :: k < key)
    && forall i, j | 0 <= i < j < |o.members| :: o.members[i] < o.members[j]
  }

  ghost predicate InOrder(operations: seq<Operation>, key: int) {
    && (forall o <- operations :: MembersAscend(o, key))
    && forall i, j | 0 <= i < j < |operations| :: operations[i].key < operations[j].key
  }

  lemma AscendsFurther(o: Operation, o': Operation, key: int, key': int)
    requires MembersAscend(o, key) && key < key' && o'.key == o.key
    requires o'.members == o.members || o'.members == o.members + [key]
    ensures MembersAscend(o', key')
  {
    assert forall i | 0 <= i < |o.members| :: o.members[i] in o.members;
  }

  lemma AloneAscendsToo(o: Operation, key: int, key': int)
    requires o.key == key < key' && o.members == [key]
    ensures MembersAscend(o, key')
  {
  }

  /** A step that adds one member to an operation, or an operation of one member, keeps the order. */
  lemma OneMoreInOrder(operations: seq<Operation>, operations': seq<Operation>, n: nat, key: int, key': int)
    requires InOrder(operations, key) && key < key' && |operations| <= |operations'| <= |operations| + 1
    requires n < |operations'| && (n < |operations| ==> |operations'| == |operations|)
    requires forall i | 0 <= i < |operations| :: operations'[i].key == operations[i].key
    requires forall i | 0 <= i < |operations| && i != n :: operations'[i].members == operations[i].members
    requires if n < |operations| then operations'[n].members == operations[n].members + [key]
             else operations'[n].members == [key] && operations'[n].key == key
    ensures InOrder(operations', key')
  {
    hide MembersAscend;
    forall i | 0 <= i < |operations'| ensures MembersAscend(operations'[i], key') && operations'[i].key < key' {
      if i < |operations| {
        assert MembersAscend(operations[i], key);
        AscendsFurther(operations[i], operations'[i], key, key');
      } else {
        AloneAscendsToo(operations'[i], key, key');
      }
      AscendsBelow(operations'[i], key');
    }
    forall i | 0 <= i < |operations| ensures operations[i].key < key {
      AscendsBelow(operations[i], key);
    }
  }

  lemma AscendsBelow(o: Operation, key: int)
    requires MembersAscend(o, key)
    ensures o.key < key
  {
  }

  lemma SameInOrder(operations: seq<Operation>, operations': seq<Operation>, key: int, key': int)
    requires InOrder(operations, key) && key < key' && |operations'| == |operations|
    requires forall i | 0 <= i < |operations| ::
               operations'[i].key == operations[i].key && operations'[i].members == operations[i].members
    ensures InOrder(operations', key')
  {
    hide MembersAscend;
    forall i | 0 <= i < |operations'| ensures MembersAscend(operations'[i], key') {
      assert MembersAscend(operations[i], key);
      AscendsFurther(operations[i], operations'[i], key, key');
    }
  }

  /** An item joins one operation, or makes one, or changes nothing but states. */
  lemma ItemJoins(t: Tracing, x: Item) returns (n: nat)
    requires t.Valid()
    ensures var operations, operations' := t.operations, TraceItem(t, x).operations;
            if n == |operations'| then
              && |operations'| == |operations|
              && forall i | 0 <= i < |operations| ::
                   operations'[i].key == operations[i].key && operations'[i].members == operations[i].members
            else
              && n < |operations'| && |operations| <= |operations'| <= |operations| + 1
              && (n < |operations| ==> |operations'| == |operations|)
              && (forall i | 0 <= i < |operations| :: operations'[i].key == operations[i].key)
              && (forall i | 0 <= i < |operations| && i != n :: operations'[i].members == operations[i].members)
              && (if n < |operations| then operations'[n].members == operations[n].members + [x.key]
                  else operations'[n].members == [x.key] && operations'[n].key == x.key)
  {
    KindsApart(x);
    if Ends(x) {
      n := |t.operations|;
    } else if ToolItem(x) {
      hide TraceTool, WithCall, CallOf, Terminal, RunBoundary, ToolItem, TraceImage, Traceable, Failed, StatusOf;
      ToolJoins(t, x);
      n := WithCall(t, x).1;
    } else if TraceImage(x) {
      hide TraceTool, TraceOutput, ImageOf, Terminal, RunBoundary, ToolItem, TraceImage, Traceable, Failed, StatusOf;
      OutputJoins(t, x);
      n := if ImageOf(x).Some? && ImageOf(x).value in t.calls then t.calls[ImageOf(x).value] else |t.operations|;
    } else {
      hide TraceTool, TraceOutput, Terminal, RunBoundary, ToolItem, TraceImage, Traceable, Failed, StatusOf;
      n := |t.operations|;
    }
  }

  lemma {:induction false} TracedInOrder(log: seq<Item>, key: int)
    requires Ascending(log) && forall x <- log :: x.key < key
    ensures InOrder(Traced(log).operations, key)
  {
    hide TraceItem, InOrder;
    if log == [] {
      NothingInOrder(key);
    } else {
      var shorter, x := log[..|log| - 1], log[|log| - 1];
      LastIsUnseen(log);
      TracedInOrder(shorter, x.key);
      var operations, operations' := Traced(shorter).operations, Traced(log).operations;
      assert operations' == TraceItem(Traced(shorter), x).operations;
      var n := ItemJoins(Traced(shorter), x);
      hide Traced, Ascending, Unseen;
      if n == |operations'| {
        SameInOrder(operations, operations', x.key, key);
      } else {
        OneMoreInOrder(operations, operations', n, x.key, key);
      }
    }
  }

  lemma NothingInOrder(key: int)
    ensures InOrder([], key)
  {
  }

  /** Operations come in the order of the log, by key, and so do the members of each. */
  lemma OperationsAscend(log: seq<Item>, live: bool)
    requires Ascending(log)
    ensures var operations := Operations(log, live);
            && (forall i, j | 0 <= i < j < |operations| :: operations[i].key < operations[j].key)
            && (forall o <- operations, i, j | 0 <= i < j < |o.members| :: o.members[i] < o.members[j])
  {
    var key := if log == [] then 0 else log[|log| - 1].key + 1;
    TracedInOrder(log, key);
    assert forall i | 0 <= i < |Traced(log).operations| ::
        Operations(log, live)[i].key == Traced(log).operations[i].key
        && Operations(log, live)[i].members == Traced(log).operations[i].members;
    hide Traced;
    forall o | o in Operations(log, live) ensures forall i, j | 0 <= i < j < |o.members| ::
      o.members[i] < o.members[j] {
      var n :| 0 <= n < |Operations(log, live)| && Operations(log, live)[n] == o;
      assert MembersAscend(Traced(log).operations[n], key);
    }
  }
}
