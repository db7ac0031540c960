/** No answer repeats what its turn shows anyway. */
module TranscriptEchoes {
  import opened ConversationItems
  import opened Transcript
  import opened TranscriptAnswers
  import opened TranscriptGaps
  import opened ProjectionAnchors

  lemma {:induction false} MessagesSpeak(turn: seq<Item>, k: nat, failures: seq<Failure>, failing: bool)
    requires k <= |turn|
    ensures forall y <- Messages(DraftAt(turn, k, failures, failing).slots) :: y in turn && Speaks(y, PhasesOf(turn))
  {
    hide Place, PhasesOf, TextsOf, Speaks;
    if k > 0 {
      hide Messages;
      MessagesSpeak(turn, k - 1, failures, failing);
      PlacedMessages(DraftAt(turn, k - 1, failures, failing), turn[k - 1], PhasesOf(turn),
                     TextsOf(turn, PhasesOf(turn)));
    }
  }

  lemma {:induction false} RowIsAnswer(rows: seq<Row>, row: Row)
    requires row in rows && row.AnswerRow?
    ensures row.answer in RowAnswers(rows)
  {
    var shorter, last := rows[..|rows| - 1], rows[|rows| - 1];
    assert rows == shorter + [last];
    if row in shorter {
      RowIsAnswer(shorter, row);
    }
  }

  lemma SpokenIsText(turn: seq<Item>, y: Item)
    requires y in turn && y.Text? && Speaks(y, PhasesOf(turn))
    ensures Trim(y.text) in TextsOf(turn, PhasesOf(turn))
  {
    hide PhasesOf, Trim;
  }

  /** Of one turn, no answer says what a message says. */
  lemma NoEcho(turn: seq<Item>, failures: seq<Failure>, failing: bool, active: bool, answer: Row, message: Row)
    requires var rows := TurnRows(turn, failures, failing, active); answer in rows && message in rows
    requires answer.AnswerRow? && answer.answer.Text? && message.Message? && message.item.Text?
    ensures Trim(answer.answer.text) != Trim(message.item.text)
  {
    MessageOrigin(turn, failures, failing, active, message);
    MessagesSpeak(turn, |turn|, failures, failing);
    AnswersOnce(turn, failures, failing, active);
    RowIsAnswer(TurnRows(turn, failures, failing, active), answer);
    hide DraftAt, TurnRows, TextsOf, PhasesOf, Messages, Speaks, RowAnswers, FromResults, Trim;
    SpokenIsText(turn, message.item);
  }
}
