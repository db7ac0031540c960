/** Work is conserved end to end: from the log, through operations, to the Activities that survive. */
module TraceConservation {
  import opened ConversationItems
  import opened ConversationTrace
  import TranscriptConservation
  import TranscriptWork

  // Every item that is traced is a member of one operation.

  predicate IsTraced(item: Item) {
    !Terminal(item) && (ToolItem(item) || TraceImage(item) || item.Text? || StatusOf(item, Reasoning)
      || Traceable(item))
  }

  function TracedKeys(log: seq<Item>): seq<int> {
    if log == [] then []
    else TracedKeys(log[..|log| - 1]) + if IsTraced(log[|log| - 1]) then [log[|log| - 1].key] else []
  }

  function Members(operations: seq<Operation>): multiset<int> {
    if operations == [] then multiset{}
    else Members(operations[..|operations| - 1]) + multiset(operations[|operations| - 1].members)
  }

  lemma MembersMore(operations: seq<Operation>, operation: Operation)
    ensures Members(operations + [operation]) == Members(operations) + multiset(operation.members)
  {
    assert (operations + [operation])[..|operations|] == operations;
  }

  lemma {:induction false} MembersWith(operations: seq<Operation>, n: nat, operation: Operation, key: int)
    requires n < |operations| && operation.members == operations[n].members + [key]
    ensures Members(operations[n := operation]) == Members(operations) + multiset{key}
  {
    hide *;
    var last := |operations| - 1;
    var shorter := operations[..last];
    var rest, own := Members(shorter), multiset(operations[last].members);
    assert operations == shorter + [operations[last]];
    MembersMore(shorter, operations[last]);
    if n == last {
      assert operations[n := operation] == shorter + [operation];
      MembersMore(shorter, operation);
      OneMore(rest, own, key);
    } else {
      MembersWith(shorter, n, operation, key);
      assert operations[n := operation] == shorter[n := operation] + [operations[last]];
      MembersMore(shorter[n := operation], operations[last]);
      OneMore(rest, own, key);
    }
  }

  lemma OneMore(rest: multiset<int>, own: multiset<int>, key: int)
    ensures rest + (own + multiset{key}) == rest + own + multiset{key} == rest + multiset{key} + own
  {
  }

  lemma {:induction false} MembersSame(a: seq<Operation>, b: seq<Operation>)
    requires |a| == |b| && forall i | 0 <= i < |a| :: a[i].members == b[i].members
    ensures Members(a) == Members(b)
  {
    if a != [] {
      MembersSame(a[..|a| - 1], b[..|b| - 1]);
    }
  }

  lemma FinishMembers(t: Tracing, interrupted: bool)
    requires t.Valid()
    ensures Members(Finish(t, interrupted).operations) == Members(t.operations)
  {
    MembersSame(Finish(t, interrupted).operations, t.operations);
  }

  lemma TraceToolMembers(t: Tracing, item: Item)
    requires t.Valid() && ToolItem(item)
    ensures Members(TraceTool(t, item).operations) == Members(t.operations) + multiset{item.key}
  {
    var (begun, n) := WithCall(t, item);
    var operation := begun.operations[n];
    if begun != t {
      MembersMore(t.operations, operation);
      assert begun.operations == t.operations + [operation];
    }
    var grown := operation.(members := operation.members + [item.key],
                            kind := if Is(item, ToolCall) then ToolStep else operation.kind,
                            state := Advanced(operation.state, item));
    MembersWith(begun.operations, n, grown, item.key);
  }

  lemma TraceOutputMembers(t: Tracing, item: Item)
    requires t.Valid()
    ensures Members(TraceOutput(t, item).operations) == Members(t.operations) + multiset{item.key}
  {
    var call := ImageOf(item);
    if call.Some? && call.value in t.calls {
      var n := t.calls[call.value];
      MembersWith(t.operations, n, t.operations[n].(members := t.operations[n].members + [item.key]), item.key);
    } else {
      MembersMore(t.operations, Operation(item.key, EventStep, Finished, [item.key]));
    }
  }

  lemma PushMembers(t: Tracing, kind: TraceKind, state: TraceState, key: int)
    requires t.Valid()
    ensures Members(Push(t, Operation(key, kind, state, [key])).operations) == Members(t.operations) + multiset{key}
  {
    MembersMore(t.operations, Operation(key, kind, state, [key]));
  }

  lemma BoundaryMembers(t: Tracing, item: Item)
    requires t.Valid()
    ensures Bounded(t, item).Valid() && Members(Bounded(t, item).operations) == Members(t.operations)
  {
    FinishMembers(t, false);
  }

  function Bounded(t: Tracing, item: Item): Tracing
    requires t.Valid()
  {
    if RunBoundary(item) then Finish(t, false) else t
  }

  lemma TraceItemMembers(t: Tracing, item: Item)
    requires t.Valid()
    ensures Members(TraceItem(t, item).operations) ==
            Members(t.operations) + if IsTraced(item) then multiset{item.key} else multiset{}
  {
    hide Members, Finish, TraceTool, TraceOutput, Push, Terminal, Traceable, ToolItem, TraceImage, Failed, RunBoundary,
         StatusOf;
    BoundaryMembers(t, item);
    var s := Bounded(t, item);
    if Terminal(item) {
      FinishMembers(s, Failed(item) || !Is(item, TurnResult));
    } else if ToolItem(item) {
      TraceToolMembers(s, item);
    } else if TraceImage(item) {
      TraceOutputMembers(s, item);
    } else if item.Text? {
      PushMembers(s, ProgressStep, Finished, item.key);
    } else if StatusOf(item, Reasoning) {
      PushMembers(s, ReasoningStep, Finished, item.key);
    } else if Traceable(item) {
      PushMembers(s, EventStep, if Failed(item) then Errored else Finished, item.key);
    }
  }

  lemma {:induction false} TracedMembers(log: seq<Item>)
    ensures Members(Traced(log).operations) == multiset(TracedKeys(log))
  {
    hide TraceItem, IsTraced;
    if log != [] {
      TracedMembers(log[..|log| - 1]);
      TraceItemMembers(Traced(log[..|log| - 1]), log[|log| - 1]);
    }
  }

  /** Operations share out the traced items among them: each is a member once, of one operation. */
  lemma OperationsPartition(log: seq<Item>, live: bool)
    ensures Members(Operations(log, live)) == multiset(TracedKeys(log))
  {
    TracedMembers(log);
    FinishMembers(Traced(log), false);
  }

  /** Whether a traced item of the log has this key. */
  predicate HasTraced(log: seq<Item>, key: int) {
    exists x <- log :: IsTraced(x) && x.key == key
  }

  lemma HasTracedNext(log: seq<Item>, key: int)
    requires log != [] && Ascending(log)
    ensures var shorter, last := log[..|log| - 1], log[|log| - 1];
            && (HasTraced(log, key) <==> HasTraced(shorter, key) || (IsTraced(last) && last.key == key))
            && (last.key == key ==> !HasTraced(shorter, key))
  {
    hide IsTraced;
    var shorter, last := log[..|log| - 1], log[|log| - 1];
    assert log == shorter + [last];
    forall x | x in shorter ensures x.key < last.key {
      var i :| 0 <= i < |shorter| && shorter[i] == x;
      assert log[i] == x;
    }
  }

  lemma {:induction false} TracedKeysAscend(log: seq<Item>, key: int)
    requires Ascending(log)
    ensures multiset(TracedKeys(log))[key] == if HasTraced(log, key) then 1 else 0
  {
    hide IsTraced, HasTraced;
    if log == [] {
      NoTracedKey(key);
    } else {
      TracedKeysAscend(log[..|log| - 1], key);
      HasTracedNext(log, key);
    }
  }

  lemma NoTracedKey(key: int)
    ensures !HasTraced([], key)
  {
  }

  // A run that is not live leaves nothing running.

  /** Items that end a run, or begin another. */
  predicate Ends(item: Item) {
    RunBoundary(item) || Terminal(item)
  }

  /** Whatever still runs is active, and was begun after the last item that ended a run. */
  ghost predicate Current(t: Tracing, log: seq<Item>) {
    && (forall i | 0 <= i < |t.operations| && t.operations[i].state.Running? :: i in t.active)
    && (forall c <- t.calls :: t.calls[c] in t.active)
    && (forall a <- t.active :: a < |t.operations| && BegunAfter(t.operations[a].key, log))
  }

  ghost predicate BegunAfter(key: int, log: seq<Item>) {
    forall x <- log | Ends(x) :: x.key < key
  }

  lemma FinishStops(t: Tracing, interrupted: bool, log: seq<Item>)
    requires t.Valid() && Current(t, log)
    ensures forall more: seq<Item> :: Current(Finish(t, interrupted), more)
    ensures forall i | 0 <= i < |t.operations| :: !Finish(t, interrupted).operations[i].state.Running?
  {
  }

  lemma LaterCurrent(t: Tracing, log: seq<Item>, item: Item)
    requires t.Valid() && Current(t, log) && !Ends(item)
    ensures Current(t, log + [item])
  {
    hide Ends;
    forall a | a in t.active ensures BegunAfter(t.operations[a].key, log + [item]) {
      assert BegunAfter(t.operations[a].key, log);
    }
  }

  lemma TraceToolCurrent(t: Tracing, item: Item, log: seq<Item>)
    requires t.Valid() && Current(t, log) && ToolItem(item) && BegunAfter(item.key, log)
    ensures Current(TraceTool(t, item), log)
  {
    hide BegunAfter, Failed;
  }

  lemma TraceOutputCurrent(t: Tracing, item: Item, log: seq<Item>)
    requires t.Valid() && Current(t, log)
    ensures Current(TraceOutput(t, item), log)
  {
    hide BegunAfter;
  }

  lemma PushCurrent(t: Tracing, operation: Operation, log: seq<Item>)
    requires t.Valid() && Current(t, log) && !operation.state.Running?
    ensures Current(Push(t, operation), log)
  {
    hide BegunAfter;
  }

  lemma TraceItemCurrent(t: Tracing, item: Item, log: seq<Item>)
    requires t.Valid() && Current(t, log) && forall x <- log :: x.key < item.key
    ensures Current(TraceItem(t, item), log + [item])
  {
    assert BegunAfter(item.key, log + [item]) || Ends(item);
    var s := Bounded(t, item);
    FinishStops(t, false, log);
    hide Current, Finish, TraceTool, TraceOutput, Push, Terminal, Traceable, ToolItem, TraceImage, Failed, RunBoundary,
         StatusOf;
    if Terminal(item) {
      FinishStops(s, Failed(item) || !Is(item, TurnResult), log);
    } else {
      if !RunBoundary(item) {
        LaterCurrent(t, log, item);
      } else {
        EndsAreStatus(item);
      }
      var more := log + [item];
      if ToolItem(item) {
        TraceToolCurrent(s, item, more);
      } else if TraceImage(item) {
        TraceOutputCurrent(s, item, more);
      } else if item.Text? {
        PushCurrent(s, Operation(item.key, ProgressStep, Finished, [item.key]), more);
      } else if StatusOf(item, Reasoning) {
        PushCurrent(s, Operation(item.key, ReasoningStep, Finished, [item.key]), more);
      } else if Traceable(item) {
        PushCurrent(s, Operation(item.key, EventStep, if Failed(item) then Errored else Finished, [item.key]), more);
      }
    }
  }

  lemma EndsAreStatus(item: Item)
    ensures RunBoundary(item) ==> !ToolItem(item)
  {
  }

  lemma {:induction false} TracedCurrent(log: seq<Item>)
    requires Ascending(log)
    ensures Current(Traced(log), log)
  {
    if log != [] {
      var shorter, last := log[..|log| - 1], log[|log| - 1];
      TracedCurrent(shorter);
      hide TraceItem, Current;
      assert log == shorter + [last];
      TraceItemCurrent(Traced(shorter), last, shorter);
    }
  }

  /** Only in a live log does anything run, and then it was begun after the last end of a run. */
  lemma RunningIsLive(log: seq<Item>, live: bool, i: nat)
    requires Ascending(log) && i < |Operations(log, live)| && Operations(log, live)[i].state.Running?
    ensures live && forall x <- log | Ends(x) :: x.key < Operations(log, live)[i].key
  {
    TracedCurrent(log);
    FinishStops(Traced(log), false, log);
    hide Traced, Ends;
    if live {
      assert i in Traced(log).active;
    }
  }

  // Attaching loses no operation that has a member on show.

  function RowMembers(rows: seq<TracedRow>): multiset<int> {
    if rows == [] then multiset{} else RowMembers(rows[..|rows| - 1]) + Members(rows[|rows| - 1].operations)
  }

  /** The members of the operations that one of the first n rows owns. */
  function OwnedBelow(operations: seq<Operation>, owners: map<int, nat>, n: nat): multiset<int> {
    if operations == [] then multiset{}
    else
      var operation := operations[|operations| - 1];
      var owner := OwnerOf(operation.members, owners);
      OwnedBelow(operations[..|operations| - 1], owners, n)
      + if owner.Some? && owner.value < n then multiset(operation.members) else multiset{}
  }

  lemma {:induction false} OwnedByRow(operations: seq<Operation>, owners: map<int, nat>, n: nat)
    ensures OwnedBelow(operations, owners, n + 1) == OwnedBelow(operations, owners, n)
            + Members(AttachedTo(operations, owners, n))
  {
    hide OwnerOf;
    if operations != [] {
      var shorter, last := operations[..|operations| - 1], operations[|operations| - 1];
      OwnedByRow(shorter, owners, n);
      var attached := AttachedTo(shorter, owners, n);
      MembersMore(attached, last);
      assert attached + [] == attached;
      Sums(OwnedBelow(shorter, owners, n), Members(attached), multiset(last.members));
    }
  }

  lemma Sums(a: multiset<int>, b: multiset<int>, c: multiset<int>)
    ensures a + b + c == a + (b + c) && a + b + c == a + c + b
  {
  }

  lemma {:induction false} NoneBelow(operations: seq<Operation>, owners: map<int, nat>)
    ensures OwnedBelow(operations, owners, 0) == multiset{}
  {
    if operations != [] {
      NoneBelow(operations[..|operations| - 1], owners);
    }
  }

  lemma {:induction false} OnlyActivitiesOwn(operations: seq<Operation>, rows: seq<Transcript.Row>, r: nat)
    requires r < |rows| && !rows[r].Activity?
    ensures AttachedTo(operations, Owners(rows, |rows|), r) == []
  {
    if operations != [] {
      OnlyActivitiesOwn(operations[..|operations| - 1], rows, r);
      OwnerIsRow(operations[|operations| - 1].members, rows);
    }
  }

  lemma ProjectedNext(rows: seq<Transcript.Row>, operations: seq<Operation>, n: nat)
    requires 0 < n <= |rows|
    ensures var owners := Owners(rows, |rows|);
            RowMembers(Projected(rows, operations, owners, n)) ==
            RowMembers(Projected(rows, operations, owners, n - 1)) + Members(AttachedTo(operations, owners, n - 1))
  {
    hide Owners, AttachedTo;
    var owners := Owners(rows, |rows|);
    if !rows[n - 1].Activity? {
      OnlyActivitiesOwn(operations, rows, n - 1);
    }
    NoMembers();
    var before := Projected(rows, operations, owners, n - 1);
    var row := TracedRow(rows[n - 1], AttachedTo(operations, owners, n - 1));
    hide Members;
    assert (before + [row])[..|before|] == before;
    assert before + [] == before;
  }

  lemma {:induction false} ProjectedMembers(rows: seq<Transcript.Row>, operations: seq<Operation>, n: nat)
    requires n <= |rows|
    ensures RowMembers(Projected(rows, operations, Owners(rows, |rows|), n))
            == OwnedBelow(operations, Owners(rows, |rows|), n)
  {
    hide Owners, OwnedBelow, AttachedTo, Members, RowMembers;
    if n == 0 {
      NoneBelow(operations, Owners(rows, |rows|));
      NoRowMembers();
    } else {
      ProjectedMembers(rows, operations, n - 1);
      OwnedByRow(operations, Owners(rows, |rows|), n - 1);
      ProjectedNext(rows, operations, n);
    }
  }

  lemma NoRowMembers()
    ensures RowMembers([]) == multiset{}
  {
  }

  lemma NoMembers()
    ensures Members([]) == multiset{}
  {
  }

  lemma {:induction false} OwnerFound(members: seq<int>, owners: map<int, nat>, key: int)
    requires key in members && key in owners
    ensures OwnerOf(members, owners).Some?
  {
    if members[0] !in owners {
      OwnerFound(members[1..], owners, key);
    }
  }

  lemma {:induction false} OwnedIsAttached(operations: seq<Operation>, rows: seq<Transcript.Row>, key: int)
    requires key in Members(operations) && key in Owners(rows, |rows|)
    ensures key in OwnedBelow(operations, Owners(rows, |rows|), |rows|)
  {
    hide OwnerOf, Owners;
    var shorter, last := operations[..|operations| - 1], operations[|operations| - 1];
    if key in Members(shorter) {
      OwnedIsAttached(shorter, rows, key);
    } else {
      assert key in multiset(last.members);
      OwnerFound(last.members, Owners(rows, |rows|), key);
      OwnerIsRow(last.members, rows);
    }
  }

  lemma {:induction false} OwnedAreMembers(operations: seq<Operation>, owners: map<int, nat>, n: nat)
    ensures OwnedBelow(operations, owners, n) <= Members(operations)
  {
    hide OwnerOf;
    if operations != [] {
      OwnedAreMembers(operations[..|operations| - 1], owners, n);
    }
  }

  lemma {:induction false} ShownHasOwner(rows: seq<Transcript.Row>, n: nat, row: Transcript.Row, x: Item)
    requires n <= |rows| && row in rows[..n] && row.Activity? && x in row.items
    ensures x.key in Owners(rows, n)
  {
    if rows[n - 1].Activity? {
      WithOwnerFacts(Owners(rows, n - 1), rows[n - 1].items, n - 1, x.key);
    }
    if row != rows[n - 1] {
      assert rows[..n] == rows[..n - 1] + [rows[n - 1]];
      ShownHasOwner(rows, n - 1, row, x);
    }
  }

  lemma {:induction false} OnlyActivitiesHold(rows: seq<Transcript.Row>, operations: seq<Operation>,
      owners: map<int, nat>, n: nat)
    requires n <= |rows|
    ensures forall traced <- Projected(rows, operations, owners, n) ::
              if traced.row.Activity? then traced.operations != [] else traced.operations == []
  {
    hide AttachedTo;
    if n > 0 {
      OnlyActivitiesHold(rows, operations, owners, n - 1);
    }
  }

  /**
   Every item of work in a log, be it a tool call, a tool result, an image of the trace that did not fail or
   progress text, is a member, once, of exactly one operation, and that is attached to exactly one of the
   Activities that survive, even where a result lands in a later Activity than its call.
   */
  lemma WorkIsTraced(log: seq<Item>, live: bool, turn: seq<Item>, x: Item)
    requires Ascending(log) && turn in TranscriptConservation.Turns(log) && TranscriptWork.WorkOf(turn, x)
    ensures RowMembers(ProjectConversation(log, live))[x.key] == 1
    ensures forall traced <- ProjectConversation(log, live) ::
              if traced.row.Activity? then traced.operations != [] else traced.operations == []
  {
    var rows := Transcript.Present(log, live).rows;
    var operations, owners := Operations(log, live), Owners(rows, |rows|);
    TranscriptWork.TurnsAreInLog(log, turn, x);
    assert HasTraced(log, x.key) by {
      WorkIsTracedItem(turn, x);
    }
    hide Transcript.Present, Traced, HasTraced, OwnedBelow, Members, RowMembers, Owners, Operations;
    TranscriptWork.WorkIsShown(log, live, turn, x);
    var row :| row in rows && row.Activity? && x in row.items;
    assert rows[..|rows|] == rows;
    ShownHasOwner(rows, |rows|, row, x);
    OperationsPartition(log, live);
    TracedKeysAscend(log, x.key);
    OwnedIsAttached(operations, rows, x.key);
    OwnedAreMembers(operations, owners, |rows|);
    ProjectedMembers(rows, operations, |rows|);
    OnlyActivitiesHold(rows, operations, owners, |rows|);
  }

  lemma WorkIsTracedItem(turn: seq<Item>, x: Item)
    requires TranscriptWork.WorkOf(turn, x)
    ensures IsTraced(x)
  {
    hide Transcript.PhasesOf;
  }

  /** No item is twice among the operations on show. */
  lemma TracedAtMostOnce(log: seq<Item>, live: bool, key: int)
    requires Ascending(log)
    ensures RowMembers(ProjectConversation(log, live))[key] <= 1
  {
    var rows := Transcript.Present(log, live).rows;
    hide Transcript.Present, Traced, HasTraced, OwnedBelow, Members, RowMembers, Owners, Operations;
    OperationsPartition(log, live);
    TracedKeysAscend(log, key);
    OwnedAreMembers(Operations(log, live), Owners(rows, |rows|), |rows|);
    ProjectedMembers(rows, Operations(log, live), |rows|);
  }
}
