/** Every failure is on show: the rows have one mark for each entry of the table of failures, in its order. */
module TranscriptFailureRows {
  import opened ConversationItems
  import opened Transcript

  /** The failure rows among these. */
  function FailureRows(rows: seq<Row>): seq<Row> {
    if rows == [] then []
    else FailureRows(rows[..|rows| - 1]) + if rows[|rows| - 1].FailureRow? then [rows[|rows| - 1]] else []
  }

  /** One row for each failure from this one on, with its key. */
  function TableRows(failures: seq<Failure>, from: nat): (rows: seq<Row>)
    requires from <= |failures|
    ensures |rows| == |failures| - from
  {
    seq(|failures| - from, i requires 0 <= i < |failures| - from => FailureRow(failures[from + i].key, from + i))
  }

  lemma FailureRowsMore(rows: seq<Row>, row: Row)
    ensures FailureRows(rows + [row]) == FailureRows(rows) + if row.FailureRow? then [row] else []
  {
    assert (rows + [row])[..|rows|] == rows;
  }

  lemma {:induction false} FailureRowsConcat(a: seq<Row>, b: seq<Row>)
    ensures FailureRows(a + b) == FailureRows(a) + FailureRows(b)
    decreases |b|
  {
    if b == [] {
      assert a + b == a && FailureRows(a) + [] == FailureRows(a);
    } else {
      hide FailureRows;
      var shorter, row := b[..|b| - 1], b[|b| - 1];
      FailureRowsConcat(a, shorter);
      FailureRowsMore(shorter, row);
      FailureRowsMore(a + shorter, row);
      assert b == shorter + [row] && a + b == (a + shorter) + [row];
    }
  }

  // Within a turn.

  /** The rows of the failures that the slots mark. */
  function Marks(slots: seq<Slot>): seq<Row> {
    if slots == [] then [] else Marks(slots[..|slots| - 1]) + Mark(slots[|slots| - 1])
  }

  function Mark(slot: Slot): seq<Row> {
    if slot.FailureSlot? then [FailureRow(slot.key, slot.failure)] else []
  }

  lemma MarksMore(slots: seq<Slot>, slot: Slot)
    ensures Marks(slots + [slot]) == Marks(slots) + Mark(slot)
  {
    assert (slots + [slot])[..|slots|] == slots;
  }

  /** The failures before keep their keys, and only the last of them anything more. */
  predicate KeysKept(failures: seq<Failure>, failures': seq<Failure>) {
    |failures| <= |failures'| && forall i | 0 <= i < |failures| :: failures'[i].key == failures[i].key
  }

  lemma SameTable(failures: seq<Failure>, failures': seq<Failure>, from: nat)
    requires from <= |failures| == |failures'| && KeysKept(failures, failures')
    ensures TableRows(failures', from) == TableRows(failures, from)
  {
  }

  lemma TableMore(failures: seq<Failure>, failures': seq<Failure>, from: nat)
    requires from <= |failures| && |failures'| == |failures| + 1 && KeysKept(failures, failures')
    ensures TableRows(failures', from) ==
            TableRows(failures, from) + [FailureRow(failures'[|failures|].key, |failures|)]
  {
  }

  /** What an item does to the table and its marks. */
  lemma PlacedMark(d: Draft, x: Item, phases: Phases, texts: set<string>)
    ensures var d' := Place(d, x, phases, texts);
            && KeysKept(d.failures, d'.failures)
            && if |d'.failures| == |d.failures| then Marks(d'.slots) == Marks(d.slots)
               else |d'.failures| == |d.failures| + 1
                    && Marks(d'.slots) == Marks(d.slots) + [FailureRow(d'.failures[|d.failures|].key, |d.failures|)]
  {
    hide Marks, LateMarker, Background, RunFailed, AddToLast, Answers, Trim;
    if RunFailed(x) {
      MarksMore(d.slots, FailureSlot(x.key, |d.failures|));
    } else if !LateMarker(x) {
      var e := if Background(x, phases) then PlaceWork(Completed(d, x), x)
               else Completed(d, x).(slots := d.slots + [MessageSlot(x)], open := false);
      MarksMore(d.slots, GroupSlot(|d.groups|));
      MarksMore(d.slots, MessageSlot(x));
      assert Marks(e.slots) == Marks(d.slots);
      AnswerUnmarked(e, x, texts);
    }
  }

  lemma AnswerUnmarked(d: Draft, x: Item, texts: set<string>)
    ensures var d' := PlaceAnswer(d, x, texts); Marks(d'.slots) == Marks(d.slots) && d'.failures == d.failures
  {
    if Answers(d, x, texts) {
      MarksMore(d.slots, AnswerSlot(AnswerOf(x)));
    }
  }

  lemma {:induction false} DraftMarks(turn: seq<Item>, k: nat, failures: seq<Failure>, failing: bool)
    requires k <= |turn|
    ensures var d := DraftAt(turn, k, failures, failing);
            KeysKept(failures, d.failures) && Marks(d.slots) == TableRows(d.failures, |failures|)
  {
    hide Place, PhasesOf, TextsOf, Marks, TableRows;
    if k == 0 {
      NoMarks(failures);
    } else {
      DraftMarks(turn, k - 1, failures, failing);
      var d := DraftAt(turn, k - 1, failures, failing);
      var d' := DraftAt(turn, k, failures, failing);
      PlacedMark(d, turn[k - 1], PhasesOf(turn), TextsOf(turn, PhasesOf(turn)));
      if |d'.failures| == |d.failures| {
        SameTable(d.failures, d'.failures, |failures|);
      } else {
        TableMore(d.failures, d'.failures, |failures|);
      }
    }
  }

  lemma NoMarks(failures: seq<Failure>)
    ensures Marks([]) == TableRows(failures, |failures|) == []
  {
  }

  lemma {:induction false} RowsAreMarks(slots: seq<Slot>, groups: seq<Group>, keep: seq<bool>, flags: Flags)
    requires |keep| == |groups|
    ensures FailureRows(RowsOf(slots, groups, keep, flags)) == Marks(slots)
  {
    if slots != [] {
      var shorter, slot := slots[..|slots| - 1], slots[|slots| - 1];
      RowsAreMarks(shorter, groups, keep, flags);
      var row := RowOf(slot, groups, keep, flags);
      hide FailureRows;
      if row.Some? {
        FailureRowsMore(RowsOf(shorter, groups, keep, flags), row.value);
      } else {
        assert RowsOf(shorter, groups, keep, flags) + [] == RowsOf(shorter, groups, keep, flags);
      }
    }
  }

  /** A turn shows the failures that begin in it, once each and in their order. */
  lemma TurnShowsFailures(turn: seq<Item>, failures: seq<Failure>, failing: bool, active: bool)
    ensures var failures' := DraftOf(turn, failures, failing).failures;
            && KeysKept(failures, failures')
            && FailureRows(TurnRows(turn, failures, failing, active)) == TableRows(failures', |failures|)
  {
    DraftMarks(turn, |turn|, failures, failing);
    hide DraftAt, KeptOf, Settled, FlagsOf, FailureRows, RowsOf, Marks, TableRows;
    var d := DraftOf(turn, failures, failing);
    var keep := KeptOf(d.groups, PhasesOf(turn));
    RowsAreMarks(d.slots, Settled(d.groups, keep), keep, FlagsOf(turn, failures, failing, keep, active));
  }

  // Whole logs.

  predicate AllMarked(p: Projection) {
    FailureRows(p.rows) == TableRows(p.failures, 0)
  }

  lemma TablesJoin(failures: seq<Failure>, failures': seq<Failure>)
    requires KeysKept(failures, failures')
    ensures TableRows(failures, 0) + TableRows(failures', |failures|) == TableRows(failures', 0)
  {
  }

  lemma FlushMarked(p: Projection, active: bool)
    requires AllMarked(p)
    ensures AllMarked(Flush(p, active))
  {
    if p.turn != [] {
      var rows := TurnRows(p.turn, p.failures, p.failing, active);
      TurnShowsFailures(p.turn, p.failures, p.failing, active);
      hide TurnRows, DraftOf, FailureRows, TableRows, KeysKept;
      FailureRowsConcat(p.rows, rows);
      TablesJoin(p.failures, DraftOf(p.turn, p.failures, p.failing).failures);
    }
  }

  lemma HistoricalMarked(p: Projection)
    requires AllMarked(p)
    ensures AllMarked(Historical(p))
  {
    SameTable(p.failures, Historical(p).failures, 0);
    hide TableRows;
  }

  lemma MessageMarked(p: Projection, x: Item)
    requires AllMarked(p)
    ensures AllMarked(p.(rows := p.rows + [Message(x.key, x)])) && AllMarked(p.(turn := p.turn + [x]))
  {
    FailureRowsMore(p.rows, Message(x.key, x));
    hide FailureRows, TableRows;
    assert FailureRows(p.rows) + [] == FailureRows(p.rows);
  }

  lemma ReceiveMarked(p: Projection, x: Item)
    requires AllMarked(p)
    ensures AllMarked(Receive(p, x))
  {
    hide Flush, Historical, AllMarked, StatusOf, Boundary, Interjects;
    FlushMarked(p, false);
    if !StatusOf(x, ContextCompacted) {
      if Boundary(x) {
        HistoricalMarked(Flush(p, false));
      }
      var q := if Boundary(x) then Historical(Flush(p, false)) else p;
      FlushMarked(q, false);
      MessageMarked(Flush(q, false), x);
      MessageMarked(q, x);
      FlushMarked(q.(turn := q.turn + [x]), false);
    }
  }

  lemma {:induction false} ReceivedMarked(log: seq<Item>)
    ensures AllMarked(Received(log))
  {
    hide Receive, AllMarked;
    if log == [] {
      NothingMarked();
    } else {
      ReceivedMarked(log[..|log| - 1]);
      ReceiveMarked(Received(log[..|log| - 1]), log[|log| - 1]);
    }
  }

  lemma NothingMarked()
    ensures AllMarked(NOTHING)
  {
  }

  /** The failure rows of a transcript are one for each failure, in order, with its key. */
  lemma FailuresAreShown(log: seq<Item>, live: bool)
    ensures var shown := Present(log, live); FailureRows(shown.rows) == TableRows(shown.failures, 0)
  {
    ReceivedMarked(log);
    hide Flush, Received;
    FlushMarked(Received(log), live);
  }
}
