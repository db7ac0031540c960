/**
 The execution trace: tool calls, their results, images, prose and lifecycle events become operations, and each
 operation is attached to the Activity that shows the first of its members.

 Operations are changed in place while they are active; here they are numbered, and calls refer to them by number.
 */
module ConversationTrace {
  import opened Wrappers
  import opened ConversationItems
  import Transcript

  datatype TraceState = Running | Finished | Errored | Stopped | Unknown

  datatype TraceKind = ToolStep | ReasoningStep | ProgressStep | EventStep

  datatype Operation = Operation(key: int, kind: TraceKind, state: TraceState, members: seq<int>)

  // Calls correlate within one task, agent and session only.
  datatype CallKey = CallKey(source: Source, id: string)

  datatype Tracing = Tracing(operations: seq<Operation>, calls: map<CallKey, nat>, active: seq<nat>) {
    ghost predicate Valid() {
      && (forall c <- calls :: calls[c] < |operations|)
      && (forall a <- active :: a < |operations|)
    }
  }

  predicate RunBoundary(item: Item) {
    StatusOf(item, Dispatch) || StatusOf(item, Followup) || StatusOf(item, TurnStarted)
  }

  predicate Terminal(item: Item) {
    || Is(item, TurnResult) || Is(item, RunError)
    || StatusOf(item, ProcessExit) || StatusOf(item, StopSignal) || StatusOf(item, ErrorSubtype)
  }

  /** Housekeeping statuses and those that the transcript shows itself are no operations. */
  predicate Traceable(item: Item) {
    Is(item, Status) && !Terminal(item) && item.payload.subtype !in
      {TurnStarted, Dispatch, Followup, Steer, Answer, AssistantMessage, ContextCompacted, Housekeeping}
  }

  function Keyed(item: Item, id: string): Option<CallKey>
    requires item.Event?
  {
    if id == "" then None else Some(CallKey(item.source, id))
  }

  /** Missing ids never correlate by position. */
  function CallOf(item: Item): Option<CallKey> {
    if !item.Event? then None
    else Keyed(item, if item.payload.toolUseId != "" then item.payload.toolUseId else item.payload.callId)
  }

  function ImageOf(item: Item): Option<CallKey> {
    if !item.Event? then None else Keyed(item, item.payload.toolUseId)
  }

  function Halted(operation: Operation, interrupted: bool): Operation {
    if operation.state.Running? then operation.(state := if interrupted then Stopped else Unknown) else operation
  }

  function Finish(t: Tracing, interrupted: bool): (t': Tracing)
    requires t.Valid()
    ensures t'.Valid() && |t'.operations| == |t.operations|
  {
    Tracing(seq(|t.operations|, i requires 0 <= i < |t.operations| =>
              if i in t.active then Halted(t.operations[i], interrupted) else t.operations[i]),
            map[], [])
  }

  /** The state of a tool operation after a call or result. */
  function Advanced(state: TraceState, item: Item): TraceState
    requires ToolItem(item)
  {
    if Failed(item) then Errored
    else if item.payload.status.Interrupted? then Stopped
    else if item.payload.status.Succeeded? || (Is(item, ToolResult) && !item.payload.status.InProgress?) then Finished
    else if state.Errored? || state.Finished? then state else Running
  }

  function Push(t: Tracing, operation: Operation): (t': Tracing)
    requires t.Valid()
    ensures t'.Valid()
  {
    t.(operations := t.operations + [operation])
  }

  /** The operation that a call or result belongs to, begun here if there is none. */
  function WithCall(t: Tracing, item: Item): (r: (Tracing, nat))
    requires t.Valid() && ToolItem(item)
    ensures r.0.Valid() && r.1 < |r.0.operations|
  {
    var call := CallOf(item);
    if call.Some? && call.value in t.calls then (t, t.calls[call.value])
    else
      var n := |t.operations|;
      var kind := if Is(item, ToolCall) then ToolStep else EventStep;
      (Tracing(t.operations + [Operation(item.key, kind, Running, [])],
               if call.Some? then t.calls[call.value := n] else t.calls, t.active + [n]), n)
  }

  function WithMember(t: Tracing, n: nat, operation: Operation): (t': Tracing)
    requires t.Valid() && n < |t.operations|
    ensures t'.Valid()
  {
    t.(operations := t.operations[n := operation])
  }

  function TraceTool(t: Tracing, item: Item): (t': Tracing)
    requires t.Valid() && ToolItem(item)
    ensures t'.Valid()
  {
    var (begun, n) := WithCall(t, item);
    var operation := begun.operations[n];
    WithMember(begun, n, operation.(members := operation.members + [item.key],
                                    kind := if Is(item, ToolCall) then ToolStep else operation.kind,
                                    state := Advanced(operation.state, item)))
  }

  function TraceOutput(t: Tracing, item: Item): (t': Tracing)
    requires t.Valid()
    ensures t'.Valid()
  {
    var call := ImageOf(item);
    if call.Some? && call.value in t.calls then
      var n := t.calls[call.value];
      WithMember(t, n, t.operations[n].(members := t.operations[n].members + [item.key]))
    else Push(t, Operation(item.key, EventStep, Finished, [item.key]))
  }

  function TraceItem(t: Tracing, item: Item): (t': Tracing)
    requires t.Valid()
    ensures t'.Valid()
  {
    var t := if RunBoundary(item) then Finish(t, false) else t;
    if Terminal(item) then Finish(t, Failed(item) || !Is(item, TurnResult))
    else if ToolItem(item) then TraceTool(t, item)
    else if TraceImage(item) then TraceOutput(t, item)
    else if item.Text? then Push(t, Operation(item.key, ProgressStep, Finished, [item.key]))
    else if StatusOf(item, Reasoning) then Push(t, Operation(item.key, ReasoningStep, Finished, [item.key]))
    else if Traceable(item) then
      Push(t, Operation(item.key, EventStep, if Failed(item) then Errored else Finished, [item.key]))
    else t
  }

  function Traced(log: seq<Item>): (t: Tracing)
    ensures t.Valid()
  {
    if log == [] then Tracing([], map[], []) else TraceItem(Traced(log[..|log| - 1]), log[|log| - 1])
  }

  function Operations(log: seq<Item>, live: bool): seq<Operation> {
    (if live then Traced(log) else Finish(Traced(log), false)).operations
  }

  method FinishActive(operations: seq<Operation>, active: seq<nat>, interrupted: bool)
      returns (finished: seq<Operation>)
    requires forall a <- active :: a < |operations|
    ensures |finished| == |operations|
    ensures forall i | 0 <= i < |operations| ::
              finished[i] == if i in active then Halted(operations[i], interrupted) else operations[i]
  {
    finished := operations;
    var k := 0;
    while k < |active|
      invariant 0 <= k <= |active| && |finished| == |operations|
      invariant forall i | 0 <= i < |operations| ::
                  finished[i] == if i in active[..k] then Halted(operations[i], interrupted) else operations[i]
    {
      assert active[..k + 1] == active[..k] + [active[k]] && active[k] in active;
      if finished[active[k]].state.Running? {
        finished := finished[active[k] := finished[active[k]].(state := if interrupted then Stopped else Unknown)];
      }
      k := k + 1;
    }
    assert active[..k] == active;
  }

  lemma NothingTraced(log: seq<Item>)
    requires log == []
    ensures Traced(log) == Tracing([], map[], [])
  {
  }

  lemma TracedNext(log: seq<Item>, n: nat)
    requires n < |log|
    ensures Traced(log[..n + 1]) == TraceItem(Traced(log[..n]), log[n])
  {
    assert log[..n + 1][..n] == log[..n];
    hide TraceItem;
  }

  method TraceOperations(log: seq<Item>, live: bool) returns (operations: seq<Operation>)
    ensures operations == Operations(log, live)
  {
    hide Terminal, Traceable, RunBoundary, Failed, StatusOf, ToolItem, TraceImage, Advanced, CallOf, ImageOf, Traced;
    operations := [];
    var calls: map<CallKey, nat> := map[];
    var active: seq<nat> := [];
    var k := 0;
    NothingTraced(log[..0]);
    while k < |log|
      invariant 0 <= k <= |log|
      invariant Tracing(operations, calls, active) == Traced(log[..k])
    {
      ghost var before := Traced(log[..k]);
      var item := log[k];
      TracedNext(log, k);
      if RunBoundary(item) {
        operations := FinishActive(operations, active, false);
        calls, active := map[], [];
        assert operations == Finish(before, false).operations;
      }
      ghost var bounded := Tracing(operations, calls, active);
      if Terminal(item) {
        operations := FinishActive(operations, active, Failed(item) || !Is(item, TurnResult));
        calls, active := map[], [];
        assert operations == Finish(bounded, Failed(item) || !Is(item, TurnResult)).operations;
      } else if ToolItem(item) {
        var call := CallOf(item);
        var n;
        if call.Some? && call.value in calls {
          n := calls[call.value];
        } else {
          n := |operations|;
          var kind := if Is(item, ToolCall) then ToolStep else EventStep;
          operations := operations + [Operation(item.key, kind, Running, [])];
          active := active + [n];
          if call.Some? {
            calls := calls[call.value := n];
          }
        }
        var operation := operations[n];
        operations := operations[n := operation.(members := operation.members + [item.key],
                                                 kind := if Is(item, ToolCall) then ToolStep else operation.kind,
                                                 state := Advanced(operation.state, item))];
      } else if TraceImage(item) {
        var call := ImageOf(item);
        if call.Some? && call.value in calls {
          var n := calls[call.value];
          operations := operations[n := operations[n].(members := operations[n].members + [item.key])];
        } else {
          operations := operations + [Operation(item.key, EventStep, Finished, [item.key])];
        }
      } else if item.Text? {
        operations := operations + [Operation(item.key, ProgressStep, Finished, [item.key])];
      } else if StatusOf(item, Reasoning) {
        operations := operations + [Operation(item.key, ReasoningStep, Finished, [item.key])];
      } else if Traceable(item) {
        var state := if Failed(item) then Errored else Finished;
        operations := operations + [Operation(item.key, EventStep, state, [item.key])];
      }
      k := k + 1;
    }
    assert log[..k] == log;
    if !live {
      ghost var last := Traced(log);
      operations := FinishActive(operations, active, false);
      assert operations == Finish(last, false).operations;
    }
  }

  // Attaching operations to rows.

  function WithOwner(owners: map<int, nat>, items: seq<Item>, row: nat): map<int, nat> {
    if items == [] then owners else WithOwner(owners, items[..|items| - 1], row)[items[|items| - 1].key := row]
  }

  /** Which row shows the item with a key: the last of the first n rows that does. */
  function Owners(rows: seq<Transcript.Row>, n: nat): (owners: map<int, nat>)
    requires n <= |rows|
  {
    if n == 0 then map[]
    else if rows[n - 1].Activity? then WithOwner(Owners(rows, n - 1), rows[n - 1].items, n - 1)
    else Owners(rows, n - 1)
  }

  /** The row of the first member on show. */
  function OwnerOf(members: seq<int>, owners: map<int, nat>): Option<nat> {
    if members == [] then None
    else if members[0] in owners then Some(owners[members[0]]) else OwnerOf(members[1..], owners)
  }

  /** The operations attached to a row, in order. */
  function AttachedTo(operations: seq<Operation>, owners: map<int, nat>, row: nat): seq<Operation> {
    if operations == [] then []
    else
      var operation := operations[|operations| - 1];
      AttachedTo(operations[..|operations| - 1], owners, row)
      + if OwnerOf(operation.members, owners) == Some(row) then [operation] else []
  }

  lemma AttachedNext(operations: seq<Operation>, operation: Operation, owners: map<int, nat>, row: nat)
    ensures AttachedTo(operations + [operation], owners, row) ==
            AttachedTo(operations, owners, row)
            + if OwnerOf(operation.members, owners) == Some(row) then [operation] else []
  {
    assert (operations + [operation])[..|operations|] == operations;
    hide OwnerOf;
  }

  lemma NothingAttached(operations: seq<Operation>, owners: map<int, nat>)
    requires operations == []
    ensures forall row: nat :: AttachedTo(operations, owners, row) == []
  {
  }

  method FindOwner(members: seq<int>, owners: map<int, nat>) returns (owner: Option<nat>)
    ensures owner == OwnerOf(members, owners)
  {
    var k := 0;
    while k < |members|
      invariant 0 <= k <= |members|
      invariant OwnerOf(members[k..], owners) == OwnerOf(members, owners)
    {
      if members[k] in owners {
        return Some(owners[members[k]]);
      }
      assert members[k..][1..] == members[k + 1..];
      k := k + 1;
    }
    return None;
  }

  method CollectOwners(rows: seq<Transcript.Row>) returns (owners: map<int, nat>)
    ensures owners == Owners(rows, |rows|)
  {
    owners := map[];
    var r := 0;
    while r < |rows|
      invariant 0 <= r <= |rows| && owners == Owners(rows, r)
    {
      if rows[r].Activity? {
        ghost var before := owners;
        var items := rows[r].items;
        var k := 0;
        while k < |items|
          invariant 0 <= k <= |items|
          invariant owners == WithOwner(before, items[..k], r)
        {
          assert items[..k + 1][..k] == items[..k];
          owners := owners[items[k].key := r];
          k := k + 1;
        }
        assert items[..k] == items;
      }
      r := r + 1;
    }
  }

  /** What each row gets: a list of operations for an Activity, none for another row. */
  method AttachTraceOperations(rows: seq<Transcript.Row>, log: seq<Item>, live: bool)
      returns (attached: seq<seq<Operation>>)
    ensures |attached| == |rows|
    ensures forall r: nat | r < |rows| :: attached[r] == AttachedTo(Operations(log, live), Owners(rows, |rows|), r)
  {
    var owners := CollectOwners(rows);
    var operations := TraceOperations(log, live);
    hide AttachedTo, OwnerOf, Owners, Operations;
    attached := seq(|rows|, _ => []);
    NothingAttached(operations[..0], owners);
    var k := 0;
    while k < |operations|
      invariant 0 <= k <= |operations| && |attached| == |rows|
      invariant forall r: nat | r < |rows| :: attached[r] == AttachedTo(operations[..k], owners, r)
    {
      assert operations[..k + 1] == operations[..k] + [operations[k]];
      forall r: nat | r < |rows|
        ensures AttachedTo(operations[..k + 1], owners, r) ==
                AttachedTo(operations[..k], owners, r)
                + if OwnerOf(operations[k].members, owners) == Some(r) then [operations[k]] else []
      {
        AttachedNext(operations[..k], operations[k], owners, r);
      }
      var owner := FindOwner(operations[k].members, owners);
      if owner.Some? {
        OwnerIsRow(operations[k].members, rows);
        attached := attached[owner.value := attached[owner.value] + [operations[k]]];
      }
      k := k + 1;
    }
    assert operations[..k] == operations;
  }

  lemma {:induction false} WithOwnerFacts(owners: map<int, nat>, items: seq<Item>, row: nat, key: int)
    ensures var all := WithOwner(owners, items, row);
            && (key in all <==> key in owners || exists x <- items :: x.key == key)
            && (key in all ==>
                  if exists x <- items :: x.key == key then all[key] == row
                  else key in owners && all[key] == owners[key])
  {
    if items != [] {
      var shorter, last := items[..|items| - 1], items[|items| - 1];
      WithOwnerFacts(owners, shorter, row, key);
      assert items == shorter + [last];
    }
  }

  lemma {:induction false} OwnersAreActivities(rows: seq<Transcript.Row>, n: nat, key: int)
    requires n <= |rows| && key in Owners(rows, n)
    ensures Owners(rows, n)[key] < n && rows[Owners(rows, n)[key]].Activity?
  {
    if rows[n - 1].Activity? {
      WithOwnerFacts(Owners(rows, n - 1), rows[n - 1].items, n - 1, key);
    }
    if key in Owners(rows, n - 1) {
      OwnersAreActivities(rows, n - 1, key);
    }
  }

  lemma {:induction false} OwnerIsRow(members: seq<int>, rows: seq<Transcript.Row>)
    ensures var owner := OwnerOf(members, Owners(rows, |rows|));
            owner.Some? ==> owner.value < |rows| && rows[owner.value].Activity?
  {
    if members != [] {
      if members[0] in Owners(rows, |rows|) {
        OwnersAreActivities(rows, |rows|, members[0]);
      } else {
        OwnerIsRow(members[1..], rows);
      }
    }
  }

  // A row with its operations. Only an Activity has any.
  datatype TracedRow = TracedRow(row: Transcript.Row, operations: seq<Operation>)

  /** Among the first n rows, every row but an Activity without operations. */
  function Projected(rows: seq<Transcript.Row>, operations: seq<Operation>, owners: map<int, nat>, n: nat)
    : seq<TracedRow>
    requires n <= |rows|
  {
    if n == 0 then []
    else
      var row := rows[n - 1];
      var own := if row.Activity? then AttachedTo(operations, owners, n - 1) else [];
      Projected(rows, operations, owners, n - 1) + if row.Activity? && own == [] then [] else [TracedRow(row, own)]
  }

  function ProjectConversation(log: seq<Item>, live: bool): seq<TracedRow> {
    var rows := Transcript.Present(log, live).rows;
    Projected(rows, Operations(log, live), Owners(rows, |rows|), |rows|)
  }
}
