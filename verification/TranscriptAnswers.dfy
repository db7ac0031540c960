/** What a turn's result says is on screen: as prose that said it already, or as an answer of its own, once. */
module TranscriptAnswers {
  import opened ConversationItems
  import opened Transcript
  import opened TranscriptConservation

  /** A result that has something to say. */
  predicate Reports(x: Item) {
    Is(x, TurnResult) && !Failed(x) && x.payload.result.Some? && Trim(x.payload.result.value) != ""
  }

  function Report(x: Item): string
    requires Reports(x)
  {
    Trim(x.payload.result.value)
  }

  // The answers of a turn, in order.

  function SlotAnswers(slots: seq<Slot>): seq<Item> {
    if slots == [] then []
    else SlotAnswers(slots[..|slots| - 1]) + if slots[|slots| - 1].AnswerSlot? then [slots[|slots| - 1].answer] else []
  }

  function RowAnswers(rows: seq<Row>): seq<Item> {
    if rows == [] then []
    else RowAnswers(rows[..|rows| - 1]) + if rows[|rows| - 1].AnswerRow? then [rows[|rows| - 1].answer] else []
  }

  lemma SlotAnswersMore(slots: seq<Slot>, slot: Slot)
    ensures SlotAnswers(slots + [slot]) == SlotAnswers(slots) + if slot.AnswerSlot? then [slot.answer] else []
  {
    assert (slots + [slot])[..|slots|] == slots;
  }

  lemma RowAnswersMore(rows: seq<Row>, row: Row)
    ensures RowAnswers(rows + [row]) == RowAnswers(rows) + if row.AnswerRow? then [row.answer] else []
  {
    assert (rows + [row])[..|rows|] == rows;
  }

  lemma {:induction false} RowsAreAnswers(slots: seq<Slot>, groups: seq<Group>, keep: seq<bool>, flags: Flags)
    requires |keep| == |groups|
    ensures RowAnswers(RowsOf(slots, groups, keep, flags)) == SlotAnswers(slots)
  {
    if slots != [] {
      var shorter, slot := slots[..|slots| - 1], slots[|slots| - 1];
      RowsAreAnswers(shorter, groups, keep, flags);
      var row := RowOf(slot, groups, keep, flags);
      hide RowAnswers;
      if row.Some? {
        RowAnswersMore(RowsOf(shorter, groups, keep, flags), row.value);
      } else {
        assert RowsOf(shorter, groups, keep, flags) + [] == RowsOf(shorter, groups, keep, flags);
      }
    }
  }

  /** The text that an item says, trimmed. */
  function Said(item: Item): string {
    if item.Text? then Trim(item.text) else ""
  }

  /** Answers say different things, and none what the turn's prose says. */
  ghost predicate Distinct(answers: seq<Item>, texts: set<string>) {
    && (forall i, j | 0 <= i < j < |answers| :: Said(answers[i]) != Said(answers[j]))
    && (forall a <- answers :: Said(a) !in texts)
  }

  /** Each answer was made from a result of the turn. */
  ghost predicate FromResults(answers: seq<Item>, turn: seq<Item>) {
    forall a <- answers :: exists x <- turn :: Reports(x) && a == AnswerOf(x)
  }

  /** What the draft remembers of its answers. */
  ghost predicate Remembered(answers: seq<Item>, answered: set<string>) {
    forall t :: t in answered <==> exists a <- answers :: Said(a) == t
  }

  ghost predicate AnswersOk(d: Draft, turn: seq<Item>, texts: set<string>) {
    var answers := SlotAnswers(d.slots);
    Distinct(answers, texts) && FromResults(answers, turn) && Remembered(answers, d.answered)
  }

  /** Whether the item speaks by itself in its turn. */
  predicate Prose(x: Item, phases: Phases) {
    x.Text? && !InProgressText(x, phases)
  }

  /** What becomes of an item: a message of its own if it is prose, an answer if nobody has said what it reports. */
  lemma PlacedAnswers(d: Draft, x: Item, phases: Phases, texts: set<string>)
    ensures var d' := Place(d, x, phases, texts);
            && d.slots <= d'.slots
            && (Prose(x, phases) ==> MessageSlot(x) in d'.slots)
            && if Reports(x) && Report(x) !in texts && Report(x) !in d.answered
               then SlotAnswers(d'.slots) == SlotAnswers(d.slots) + [AnswerOf(x)]
                 && d'.answered == d.answered + {Report(x)}
               else SlotAnswers(d'.slots) == SlotAnswers(d.slots) && d'.answered == d.answered
  {
    ResultIsPlaced(x, phases);
    hide SlotAnswers, Trim, RunFailed, LateMarker, Background, AddToLast, Failed, InProgressText;
    SlotAnswersMore(d.slots, FailureSlot(x.key, |d.failures|));
    if !RunFailed(x) && !LateMarker(x) {
      var e := Completed(d, x);
      assert e.slots == d.slots && e.answered == d.answered;
      var f := if Background(x, phases) then PlaceWork(e, x)
        else e.(slots := e.slots + [MessageSlot(x)], open := false);
      SlotAnswersMore(d.slots, MessageSlot(x));
      SlotAnswersMore(d.slots, GroupSlot(|d.groups|));
      assert SlotAnswers(f.slots) == SlotAnswers(d.slots) && f.answered == d.answered;
      if Answers(f, x, texts) {
        SlotAnswersMore(f.slots, AnswerSlot(AnswerOf(x)));
      }
    }
  }

  lemma ResultIsPlaced(x: Item, phases: Phases)
    ensures Reports(x) ==> !RunFailed(x) && !LateMarker(x)
    ensures Prose(x, phases) ==> !RunFailed(x) && !LateMarker(x) && !Background(x, phases)
    ensures forall d: Draft, texts: set<string> ::
              Answers(d, x, texts) <==> Reports(x) && Report(x) !in texts && Report(x) !in d.answered
  {
  }

  lemma AnswerKept(d: Draft, d': Draft, x: Item, turn: seq<Item>, texts: set<string>)
    requires AnswersOk(d, turn, texts) && x in turn && Reports(x) && Report(x) !in texts && Report(x) !in d.answered
    requires SlotAnswers(d'.slots) == SlotAnswers(d.slots) + [AnswerOf(x)] && d'.answered == d.answered + {Report(x)}
    ensures AnswersOk(d', turn, texts)
  {
    var answers, answers', a := SlotAnswers(d.slots), SlotAnswers(d'.slots), AnswerOf(x);
    assert Said(a) == Report(x);
    hide SlotAnswers, Trim, Reports, Report, AnswerOf, Said;
    assert forall b <- answers' :: b in answers || b == a;
    assert forall b <- answers :: b in answers';
    assert a == answers'[|answers|] && a in answers';
    forall i, j | 0 <= i < j < |answers'| ensures Said(answers'[i]) != Said(answers'[j]) {
      if j == |answers| {
        assert answers'[i] in answers;
      }
    }
  }

  lemma {:induction false} DraftAnswers(turn: seq<Item>, k: nat, failures: seq<Failure>, failing: bool)
    requires k <= |turn|
    ensures AnswersOk(DraftAt(turn, k, failures, failing), turn, TextsOf(turn, PhasesOf(turn)))
  {
    hide Place, TextsOf, PhasesOf, SlotAnswers, Reports, Report, Said, AnswersOk;
    if k == 0 {
      NoAnswers(turn, failures, failing, TextsOf(turn, PhasesOf(turn)));
    } else {
      DraftAnswers(turn, k - 1, failures, failing);
      var d, d', x := DraftAt(turn, k - 1, failures, failing), DraftAt(turn, k, failures, failing), turn[k - 1];
      var texts := TextsOf(turn, PhasesOf(turn));
      PlacedAnswers(d, x, PhasesOf(turn), texts);
      if Reports(x) && Report(x) !in texts && Report(x) !in d.answered {
        AnswerKept(d, d', x, turn, texts);
      } else {
        SameAnswers(d, d', turn, texts);
      }
    }
  }

  lemma SameAnswers(d: Draft, d': Draft, turn: seq<Item>, texts: set<string>)
    requires AnswersOk(d, turn, texts) && SlotAnswers(d'.slots) == SlotAnswers(d.slots) && d'.answered == d.answered
    ensures AnswersOk(d', turn, texts)
  {
  }

  lemma NoAnswers(turn: seq<Item>, failures: seq<Failure>, failing: bool, texts: set<string>)
    ensures AnswersOk(DraftAt(turn, 0, failures, failing), turn, texts)
  {
  }

  /** Whatever a placed item says is said by a slot. */
  lemma {:induction false} DraftSays(turn: seq<Item>, k: nat, i: nat, failures: seq<Failure>, failing: bool)
    requires i < k <= |turn|
    ensures var d, phases := DraftAt(turn, k, failures, failing), PhasesOf(turn);
            && (Prose(turn[i], phases) ==> MessageSlot(turn[i]) in d.slots)
            && (Reports(turn[i]) ==> Report(turn[i]) in TextsOf(turn, phases) || Report(turn[i]) in d.answered)
  {
    hide Place, TextsOf, PhasesOf, SlotAnswers, Reports, Report, Prose;
    var d, phases := DraftAt(turn, k - 1, failures, failing), PhasesOf(turn);
    PlacedAnswers(d, turn[k - 1], phases, TextsOf(turn, phases));
    if i < k - 1 {
      DraftSays(turn, k - 1, i, failures, failing);
    }
  }

  /** The row says this, with words of the turn: as one of its prose items, or as an answer made from a result of it. */
  predicate Says(row: Row, turn: seq<Item>, text: string) {
    match row
    case Message(_, item) => item in turn && item.Text? && Trim(item.text) == text
    case AnswerRow(_, answer) => Said(answer) == text && exists x <- turn :: Reports(x) && answer == AnswerOf(x)
    case _ => false
  }

  /** The text of a result is shown by a row of its turn. */
  lemma TurnShowsReport(turn: seq<Item>, failures: seq<Failure>, failing: bool, active: bool, x: Item)
    requires x in turn && Reports(x)
    ensures exists row <- TurnRows(turn, failures, failing, active) :: Says(row, turn, Report(x))
  {
    var d := DraftOf(turn, failures, failing);
    var i :| 0 <= i < |turn| && turn[i] == x;
    DraftSays(turn, |turn|, i, failures, failing);
    DraftAnswers(turn, |turn|, failures, failing);
    var rows := TurnRows(turn, failures, failing, active);
    TurnRowAnswers(turn, failures, failing, active);
    if Report(x) in d.answered {
      var a :| a in SlotAnswers(d.slots) && Said(a) == Report(x);
      hide TurnRows, DraftAt, TextsOf, PhasesOf, SlotAnswers, Trim;
      AnswerHasRow(rows, a);
    } else {
      var t :| t in turn && Prose(t, PhasesOf(turn)) && Trim(t.text) == Report(x);
      var j :| 0 <= j < |turn| && turn[j] == t;
      DraftSays(turn, |turn|, j, failures, failing);
      hide TurnRows, DraftAt, TextsOf, PhasesOf, SlotAnswers, Trim, AnswersOk;
      ProseHasRow(turn, failures, failing, active, t);
    }
  }

  lemma ProseHasRow(turn: seq<Item>, failures: seq<Failure>, failing: bool, active: bool, t: Item)
    requires MessageSlot(t) in DraftOf(turn, failures, failing).slots
    ensures Message(t.key, t) in TurnRows(turn, failures, failing, active)
  {
    var d := DraftOf(turn, failures, failing);
    var keep := KeptOf(d.groups, PhasesOf(turn));
    hide DraftOf, Settled, FlagsOf, KeptOf;
    SlotHasRow(d.slots, MessageSlot(t), Settled(d.groups, keep), keep,
               FlagsOf(turn, failures, failing, keep, active));
  }

  lemma {:induction false} SlotHasRow(slots: seq<Slot>, slot: Slot, groups: seq<Group>, keep: seq<bool>, flags: Flags)
    requires |keep| == |groups| && slot in slots && RowOf(slot, groups, keep, flags).Some?
    ensures RowOf(slot, groups, keep, flags).value in RowsOf(slots, groups, keep, flags)
  {
    hide RowOf;
    if slot != slots[|slots| - 1] {
      SlotHasRow(slots[..|slots| - 1], slot, groups, keep, flags);
    }
  }

  lemma {:induction false} AnswerHasRow(rows: seq<Row>, a: Item)
    requires a in RowAnswers(rows)
    ensures exists row <- rows :: row.AnswerRow? && row.answer == a
  {
    var shorter, last := rows[..|rows| - 1], rows[|rows| - 1];
    assert rows == shorter + [last];
    if a in RowAnswers(shorter) {
      AnswerHasRow(shorter, a);
    }
  }

  lemma TurnRowAnswers(turn: seq<Item>, failures: seq<Failure>, failing: bool, active: bool)
    ensures RowAnswers(TurnRows(turn, failures, failing, active)) == SlotAnswers(DraftOf(turn, failures, failing).slots)
  {
    var d := DraftOf(turn, failures, failing);
    var keep := KeptOf(d.groups, PhasesOf(turn));
    hide DraftOf, Settled, FlagsOf, KeptOf, RowsOf, SlotAnswers, RowAnswers;
    RowsAreAnswers(d.slots, Settled(d.groups, keep), keep, FlagsOf(turn, failures, failing, keep, active));
  }

  /** The answers of a turn are made from its results; they say different things, and nothing that its prose says. */
  lemma AnswersOnce(turn: seq<Item>, failures: seq<Failure>, failing: bool, active: bool)
    ensures var answers := RowAnswers(TurnRows(turn, failures, failing, active));
            Distinct(answers, TextsOf(turn, PhasesOf(turn))) && FromResults(answers, turn)
  {
    DraftAnswers(turn, |turn|, failures, failing);
    TurnRowAnswers(turn, failures, failing, active);
    hide DraftAt, TurnRows, TextsOf, PhasesOf, SlotAnswers, RowAnswers, Distinct, FromResults;
  }

  // Whole logs.

  /** All the rows of the turn are among these. */
  ghost predicate OnScreen(rows: seq<Row>, turn: seq<Item>) {
    turn == [] || exists failures, failing, active :: RowsAmong(TurnRows(turn, failures, failing, active), rows)
  }

  ghost predicate RowsAmong(some: seq<Row>, rows: seq<Row>) {
    forall row <- some :: row in rows
  }

  ghost predicate AllOnScreen(rows: seq<Row>, turns: seq<seq<Item>>) {
    forall turn <- turns :: OnScreen(rows, turn)
  }

  lemma MoreOnScreen(rows: seq<Row>, rows': seq<Row>, turns: seq<seq<Item>>)
    requires AllOnScreen(rows, turns) && rows <= rows'
    ensures AllOnScreen(rows', turns)
  {
    hide TurnRows;
    forall turn | turn in turns ensures OnScreen(rows', turn) {
      assert OnScreen(rows, turn);
      if turn != [] {
        var failures, failing, active :| RowsAmong(TurnRows(turn, failures, failing, active), rows);
        assert RowsAmong(TurnRows(turn, failures, failing, active), rows');
      }
    }
  }

  lemma FlushOnScreen(p: Projection, active: bool, turns: seq<seq<Item>>)
    requires AllOnScreen(p.rows, turns)
    ensures AllOnScreen(Flush(p, active).rows, turns + [p.turn]) && p.rows <= Flush(p, active).rows
  {
    var flushed := Flush(p, active).rows;
    assert p.turn != [] ==> RowsAmong(TurnRows(p.turn, p.failures, p.failing, active), flushed);
    hide TurnRows, RowsAmong;
    MoreOnScreen(p.rows, flushed, turns);
  }

  lemma ReceiveOnScreen(p: Projection, x: Item, turns: seq<seq<Item>>)
    requires AllOnScreen(p.rows, turns)
    ensures AllOnScreen(Receive(p, x).rows, turns + EndedBy(p, x))
  {
    var flushed := Flush(p, false);
    FlushOnScreen(p, false, turns);
    FlushedTurn(p);
    MoreOnScreen(flushed.rows, flushed.rows + [Message(x.key, x)], turns + [p.turn]);
    hide Flush, AllOnScreen;
    if StatusOf(x, ContextCompacted) {
    } else if Boundary(x) {
      BoundaryReceived(p, x);
    } else if Interjects(x) {
    } else if Is(x, TurnResult) {
      FlushOnScreen(p.(turn := p.turn + [x]), false, turns);
    } else {
      assert turns + [] == turns;
    }
  }

  lemma {:induction false} ReceivedOnScreen(log: seq<Item>)
    ensures AllOnScreen(Received(log).rows, EndedTurns(log))
  {
    if log != [] {
      hide AllOnScreen, Receive, EndedBy;
      ReceivedOnScreen(log[..|log| - 1]);
      ReceiveOnScreen(Received(log[..|log| - 1]), log[|log| - 1], EndedTurns(log[..|log| - 1]));
    }
  }

  /** Whatever an unfailed result of a turn says is shown by a row of that turn. */
  lemma ReportsAreShown(log: seq<Item>, live: bool, turn: seq<Item>, x: Item)
    requires turn in Turns(log) && x in turn && Reports(x)
    ensures exists row <- Present(log, live).rows :: Says(row, turn, Report(x))
  {
    ReceivedOnScreen(log);
    FlushOnScreen(Received(log), live, EndedTurns(log));
    hide Flush, Received, EndedTurns, TurnRows, Says, Reports, Report;
    assert OnScreen(Present(log, live).rows, turn);
    var failures, failing, active :| RowsAmong(TurnRows(turn, failures, failing, active), Present(log, live).rows);
    TurnShowsReport(turn, failures, failing, active, x);
  }
}
