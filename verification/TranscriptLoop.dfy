/** The projection as it runs: loops over the log and over each turn, which compute what `Transcript` specifies. */
module TranscriptLoop {
  import opened Wrappers
  import opened ConversationItems
  import opened Transcript

  method ClassifyTurn(turn: seq<Item>) returns (phases: Phases)
    ensures phases == PhasesOf(turn)
  {
    phases := map[];
    var k := 0;
    while k < |turn|
      invariant 0 <= k <= |turn| && phases == PhasesOf(turn[..k])
    {
      var item := turn[k];
      assert turn[..k + 1][..k] == turn[..k];
      if TextId(item).Some? && item.messageId.value !in phases {
        phases := phases[item.messageId.value := item.phase];
      }
      if item.Event? && item.payload.subtype == AssistantMessage && item.payload.messageId.Some?
         && item.payload.messageId.value !in phases && item.payload.phase.Some? {
        phases := phases[item.payload.messageId.value := item.payload.phase];
      }
      k := k + 1;
    }
    assert turn[..k] == turn;
  }

  /**
   Lays out a turn. `previewed` is the group that holds the latest progress text, for the first n items of the turn.
   */
  method LayOut(turn: seq<Item>, phases: Phases, failures0: seq<Failure>, failing0: bool, n: nat)
    returns (slots: seq<Slot>, groups: seq<Group>, failures: seq<Failure>, failing: bool, previewed: Option<nat>)
    requires phases == PhasesOf(turn) && n <= |turn|
    ensures var d := DraftOf(turn, failures0, failing0);
            slots == d.slots && groups == d.groups && failures == d.failures && failing == d.failing
    ensures var placed := |DraftAt(turn, n, failures0, failing0).groups|;
            previewed == if n > 0 && placed > 0 then Some(placed - 1) else None
  {
    hide Place, TextsOf, PhasesOf;
    ghost var texts0 := TextsOf(turn, phases);
    var texts := TextsOf(turn, phases);
    ghost var d := Draft([], [], false, {}, failures0, failing0);
    var open := false;
    slots, groups, failures, failing, previewed := [], [], failures0, failing0, None;
    var k := 0;
    while k < |turn|
      invariant 0 <= k <= |turn| && d == DraftAt(turn, k, failures0, failing0)
      invariant d == Draft(slots, groups, open, d.answered, failures, failing)
      invariant texts == texts0 + d.answered
      invariant k < n ==> previewed == None
      invariant k >= n ==> var placed := |DraftAt(turn, n, failures0, failing0).groups|;
                           previewed == if n > 0 && placed > 0 then Some(placed - 1) else None
    {
      var item := turn[k];
      slots, groups, open, texts, failures,
        failing := PlaceItem(slots, groups, open, texts, failures, failing, item, phases, d, texts0);
      d := Place(d, item, phases, texts0);
      k := k + 1;
      if k == n && groups != [] {
        previewed := Some(|groups| - 1);
      }
    }
  }

  /** The body of that loop: an item goes into the run's failure, a work group or a row of its own. */
  method PlaceItem(slots0: seq<Slot>, groups0: seq<Group>, open0: bool, texts0: set<string>, failures0: seq<Failure>,
      failing0: bool,
                   item: Item, phases: Phases, ghost d: Draft, ghost shown: set<string>)
    returns (slots: seq<Slot>, groups: seq<Group>, open: bool, texts: set<string>, failures: seq<Failure>,
      failing: bool)
    requires d == Draft(slots0, groups0, open0, d.answered, failures0, failing0) && texts0 == shown + d.answered
    ensures var d' := Place(d, item, phases, shown);
            d' == Draft(slots, groups, open, d'.answered, failures, failing) && texts == shown + d'.answered
  {
    hide LateMarker, Background, Trim, RunFailed, Failed;
    slots, groups, open, texts, failures, failing := slots0, groups0, open0, texts0, failures0, failing0;
    if RunFailed(item) {
      if !failing || failures == [] {
        slots := slots + [FailureSlot(item.key, |failures|)];
        failures := failures + [Failure(item.key, [], false, false)];
        failing := true;
      }
      var last := failures[|failures| - 1];
      failures := failures[|failures| - 1 := last.(items := last.items + [item], completed := false)];
      return;
    }
    if Is(item, TurnResult) && failing && failures != [] {
      failures := failures[|failures| - 1 := failures[|failures| - 1].(completed := true)];
    }
    if LateMarker(item) {
      if groups != [] {
        groups := AddToLast(groups, item);
      }
      return;
    }
    if Background(item, phases) {
      if !open || groups == [] {
        slots := slots + [GroupSlot(|groups|)];
        groups := groups + [Group(item.key, [])];
        open := true;
      }
      groups := AddToLast(groups, item);
      assert [] + [item] == [item];
    } else {
      open := false;
      slots := slots + [MessageSlot(item)];
    }
    if Is(item, TurnResult) && !Failed(item) && item.payload.result.Some?
       && Trim(item.payload.result.value) != "" && Trim(item.payload.result.value) !in texts {
      slots := slots + [AnswerSlot(AnswerOf(item))];
      texts := texts + {Trim(item.payload.result.value)};
    }
  }

  method MergeIdle(groups0: seq<Group>, keep: seq<bool>) returns (groups: seq<Group>)
    requires |keep| == |groups0|
    ensures groups == Settled(groups0, keep)
  {
    groups := groups0;
    var i := 0;
    while i < |groups0|
      invariant 0 <= i <= |groups0| == |groups|
      invariant MergeFrom(groups, keep, i) == MergeFrom(groups0, keep, 0)
    {
      if !keep[i] {
        var target := Target(groups, keep, groups[i].key);
        if target.Some? && target.value < |groups| {
          groups := groups[target.value :=
            groups[target.value].(items := Sort(groups[target.value].items + groups[i].items))];
        }
      }
      i := i + 1;
    }
    var merged := groups;
    i := 0;
    while i < |groups0|
      invariant 0 <= i <= |groups0| == |groups|
      invariant forall j | 0 <= j < |groups| :: groups[j] == if j < i && keep[j] then Lowered(merged[j]) else merged[j]
    {
      if keep[i] {
        groups := groups[i := Lowered(groups[i])];
      }
      i := i + 1;
    }
  }

  method ShowRows(slots: seq<Slot>, groups: seq<Group>, keep: seq<bool>, flags: Flags) returns (rows: seq<Row>)
    requires |keep| == |groups|
    ensures rows == RowsOf(slots, groups, keep, flags)
  {
    rows := [];
    var k := 0;
    while k < |slots|
      invariant 0 <= k <= |slots| && rows == RowsOf(slots[..k], groups, keep, flags)
    {
      assert slots[..k + 1][..k] == slots[..k];
      var row := RowOf(slots[k], groups, keep, flags);
      if row.Some? {
        rows := rows + [row.value];
      }
      k := k + 1;
    }
    assert slots[..k] == slots;
  }

  method FlushTurn(rows0: seq<Row>, turn: seq<Item>, failures0: seq<Failure>, failing0: bool, active: bool)
    returns (rows: seq<Row>, failures: seq<Failure>, failing: bool)
    ensures Projection(rows, [], failures, failing) == Flush(Projection(rows0, turn, failures0, failing0), active)
  {
    hide DraftAt, PhasesOf, KeptOf, Settled, RowsOf, LatestProgress, LastKept;
    if turn == [] {
      return rows0, failures0, failing0;
    }
    var phases := ClassifyTurn(turn);
    var n := LatestProgress(turn, phases, |turn|);
    var slots, groups, previewed;
    slots, groups, failures, failing, previewed := LayOut(turn, phases, failures0, failing0, n);
    var keep := KeptOf(groups, phases);
    var settled := MergeIdle(groups, keep);
    var flags := NO_FLAGS;
    if active {
      flags := Flags(LastKept(keep, |keep|), previewed, if n > 0 && turn[n - 1].Text? then turn[n - 1].text else "");
    }
    var own := ShowRows(slots, settled, keep, flags);
    rows := rows0 + own;
  }

  /** The compact transcript of a log. */
  method PresentTranscript(log: seq<Item>, live: bool) returns (transcript: Transcript)
    ensures transcript == Present(log, live)
  {
    var rows: seq<Row>, turn: seq<Item>, failures: seq<Failure>, failing := [], [], [], false;
    var k := 0;
    while k < |log|
      invariant 0 <= k <= |log| && Projection(rows, turn, failures, failing) == Received(log[..k])
    {
      var item := log[k];
      ghost var before := Projection(rows, turn, failures, failing);
      assert Received(log[..k + 1]) == Receive(before, item) by {
        assert log[..k + 1][..k] == log[..k];
      }
      if StatusOf(item, ContextCompacted) {
        rows, failures, failing := FlushTurn(rows, turn, failures, failing, false);
        turn := [];
      } else {
        if Boundary(item) {
          rows, failures, failing := FlushTurn(rows, turn, failures, failing, false);
          turn := [];
          if failing && failures != [] {
            failures := failures[|failures| - 1 := failures[|failures| - 1].(previous := true)];
          }
          failing := false;
        }
        if Interjects(item) {
          rows, failures, failing := FlushTurn(rows, turn, failures, failing, false);
          rows, turn := rows + [Message(item.key, item)], [];
        } else {
          turn := turn + [item];
          if Is(item, TurnResult) {
            rows, failures, failing := FlushTurn(rows, turn, failures, failing, false);
            turn := [];
          }
        }
      }
      k := k + 1;
    }
    assert log[..k] == log;
    rows, failures, failing := FlushTurn(rows, turn, failures, failing, live);
    transcript := Transcript(rows, failures);
  }
}
