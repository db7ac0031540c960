/**
 The compact transcript: a log of items becomes a sequence of rows, turn by turn.

 Rows point at failures and, while a turn is being laid out, at work groups by position, because later items
 still add to them. `TranscriptLoop` has the loops; these functions say what they compute.
 */
module Transcript {
  import opened Wrappers
  import opened ConversationItems

  // A work disclosure of the turn at hand.
  datatype Group = Group(key: int, items: seq<Item>)

  // One disclosure per run, shared by error, result and exit signals across turns.
  datatype Failure = Failure(key: int, items: seq<Item>, previous: bool, completed: bool)

  datatype Slot =
    | MessageSlot(item: Item)
    | AnswerSlot(answer: Item)
    | GroupSlot(group: nat)
    | FailureSlot(key: int, failure: nat)

  // An answer is a message row whose item was made from a result rather than taken from the log.
  datatype Row =
    | Message(key: int, item: Item)
    | AnswerRow(key: int, answer: Item)
    | Activity(key: int, items: seq<Item>, live: bool, preview: Option<string>)
    | FailureRow(key: int, failure: nat)

  datatype Transcript = Transcript(rows: seq<Row>, failures: seq<Failure>)

  type Phases = map<string, Option<Phase>>

  function TextId(item: Item): Option<string> {
    if item.Text? && item.messageId.Some? && item.messageId.value != "" then item.messageId else None
  }

  /** The first classification of a message wins, whether its own or that of an earlier marker. */
  function Classify(phases: Phases, item: Item): Phases {
    if item.Text? then
      if TextId(item).Some? && item.messageId.value !in phases then phases[item.messageId.value := item.phase]
        else phases
    else if item.payload.subtype == AssistantMessage && item.payload.messageId.Some?
            && item.payload.messageId.value !in phases && item.payload.phase.Some?
    then phases[item.payload.messageId.value := item.payload.phase]
    else phases
  }

  function PhasesOf(turn: seq<Item>): Phases {
    if turn == [] then map[] else Classify(PhasesOf(turn[..|turn| - 1]), turn[|turn| - 1])
  }

  function PhaseOf(item: Item, phases: Phases): Option<Phase> {
    if !item.Text? then None
    else if TextId(item).None? then item.phase
    else if item.messageId.value in phases then phases[item.messageId.value] else None
  }

  predicate InProgressText(item: Item, phases: Phases) {
    PhaseOf(item, phases) == Some(Progress)
  }

  predicate Background(item: Item, phases: Phases) {
    Is(item, Status) || ToolItem(item) || TraceImage(item) || Is(item, TurnResult) || InProgressText(item, phases)
  }

  /** What makes a group worth a row of its own. */
  predicate WorkItem(item: Item, phases: Phases) {
    ToolItem(item) || TraceImage(item) || InProgressText(item, phases)
  }

  predicate LateMarker(item: Item) {
    StatusOf(item, AssistantMessage)
  }

  /** Tool failures are work details; every other failed item belongs to the run's failure row. */
  predicate RunFailed(item: Item) {
    Failed(item) && !ToolItem(item)
  }

  /** The visible texts of a turn, which a result must not repeat. */
  function TextsOf(turn: seq<Item>, phases: Phases): set<string> {
    set item <- turn | item.Text? && !InProgressText(item, phases) :: Trim(item.text)
  }

  // `open` says that work goes on in the last group. `answered` are the texts synthesized so far.
  datatype Draft = Draft(
    slots: seq<Slot>,
    groups: seq<Group>,
    open: bool,
    answered: set<string>,
    failures: seq<Failure>,
    failing: bool)

  function AddToLast(groups: seq<Group>, item: Item): seq<Group>
    requires groups != []
  {
    var last := groups[|groups| - 1];
    groups[|groups| - 1 := last.(items := last.items + [item])]
  }

  function PlaceFailure(d: Draft, item: Item): Draft {
    var d := if d.failing && d.failures != [] then d
             else d.(slots := d.slots + [FailureSlot(item.key, |d.failures|)],
                     failures := d.failures + [Failure(item.key, [], false, false)], failing := true);
    var last := d.failures[|d.failures| - 1];
    d.(failures := d.failures[|d.failures| - 1 := last.(items := last.items + [item], completed := false)])
  }

  function PlaceWork(d: Draft, item: Item): Draft {
    if d.open && d.groups != [] then d.(groups := AddToLast(d.groups, item))
    else d.(slots := d.slots + [GroupSlot(|d.groups|)], groups := d.groups + [Group(item.key, [item])], open := true)
  }

  /** A run that produced a result after its failure has completed. */
  function Completed(d: Draft, item: Item): Draft {
    if Is(item, TurnResult) && d.failing && d.failures != [] then
      d.(failures := d.failures[|d.failures| - 1 := d.failures[|d.failures| - 1].(completed := true)])
    else d
  }

  function AnswerOf(item: Item): Item
    requires item.Event?
  {
    Text(item.key, item.key, item.source.agent, item.payload.result.GetOr(""), None, Some(Final))
  }

  predicate Answers(d: Draft, item: Item, texts: set<string>) {
    && Is(item, TurnResult) && !Failed(item) && item.payload.result.Some?
    && Trim(item.payload.result.value) != ""
    && Trim(item.payload.result.value) !in texts && Trim(item.payload.result.value) !in d.answered
  }

  function PlaceAnswer(d: Draft, item: Item, texts: set<string>): Draft {
    if Answers(d, item, texts) then
      d.(slots := d.slots + [AnswerSlot(AnswerOf(item))], answered := d.answered + {Trim(item.payload.result.value)})
    else d
  }

  function Place(d: Draft, item: Item, phases: Phases, texts: set<string>): Draft {
    if RunFailed(item) then PlaceFailure(d, item)
    else
      var d := Completed(d, item);
      if LateMarker(item) then
        // It belongs to the disclosure before it, even when that is no longer open.
        if d.groups == [] then d else d.(groups := AddToLast(d.groups, item))
      else
        var d := if Background(item, phases) then PlaceWork(d, item)
                 else d.(slots := d.slots + [MessageSlot(item)], open := false);
        PlaceAnswer(d, item, texts)
  }

  /** The draft after the first k items of a turn. */
  function DraftAt(turn: seq<Item>, k: nat, failures: seq<Failure>, failing: bool): Draft
    requires k <= |turn|
  {
    if k == 0 then Draft([], [], false, {}, failures, failing)
    else Place(DraftAt(turn, k - 1, failures, failing), turn[k - 1], PhasesOf(turn), TextsOf(turn, PhasesOf(turn)))
  }

  function DraftOf(turn: seq<Item>, failures: seq<Failure>, failing: bool): Draft {
    DraftAt(turn, |turn|, failures, failing)
  }

  predicate Kept(group: Group, phases: Phases) {
    exists item <- group.items :: WorkItem(item, phases)
  }

  function KeptOf(groups: seq<Group>, phases: Phases): (keep: seq<bool>)
    ensures |keep| == |groups|
    ensures forall i | 0 <= i < |groups| :: keep[i] == Kept(groups[i], phases)
  {
    seq(|groups|, i requires 0 <= i < |groups| => Kept(groups[i], phases))
  }

  /** The first kept group from i on with a key above this one. */
  function FirstAbove(groups: seq<Group>, keep: seq<bool>, key: int, i: nat): Option<nat>
    requires |keep| == |groups| && i <= |groups|
    decreases |groups| - i
  {
    if i == |groups| then None
    else if keep[i] && groups[i].key > key then Some(i)
    else FirstAbove(groups, keep, key, i + 1)
  }

  /** The last kept group before i. */
  function LastKept(keep: seq<bool>, i: nat): Option<nat>
    requires i <= |keep|
  {
    if i == 0 then None else if keep[i - 1] then Some(i - 1) else LastKept(keep, i - 1)
  }

  /** Where a group without work goes: into the next work, or else into the last. */
  function Target(groups: seq<Group>, keep: seq<bool>, key: int): Option<nat>
    requires |keep| == |groups|
  {
    var next := FirstAbove(groups, keep, key, 0);
    if next.Some? then next else LastKept(keep, |keep|)
  }

  // Stable insertion sort by key.
  function Insert(items: seq<Item>, item: Item): seq<Item> {
    if items != [] && items[|items| - 1].key > item.key then Insert(items[..|items| - 1], item) + [items[|items| - 1]]
    else items + [item]
  }

  function Sort(items: seq<Item>): seq<Item> {
    if items == [] then [] else Insert(Sort(items[..|items| - 1]), items[|items| - 1])
  }

  function MergeStep(groups: seq<Group>, keep: seq<bool>, i: nat): (merged: seq<Group>)
    requires |keep| == |groups| && i < |groups|
    ensures |merged| == |groups|
  {
    if keep[i] then groups
    else
      var target := Target(groups, keep, groups[i].key);
      if target.None? || target.value >= |groups| then groups
      else groups[target.value := groups[target.value].(items := Sort(groups[target.value].items + groups[i].items))]
  }

  /** Lifecycle bands do not deserve a row: groups from i on that did no work are retained in one that did. */
  function MergeFrom(groups: seq<Group>, keep: seq<bool>, i: nat): (merged: seq<Group>)
    requires |keep| == |groups| && i <= |groups|
    ensures |merged| == |groups|
    decreases |groups| - i
  {
    if i == |groups| then groups else MergeFrom(MergeStep(groups, keep, i), keep, i + 1)
  }

  function MinKey(items: seq<Item>, key: int): int {
    if items == [] then key
    else
      var least := MinKey(items[..|items| - 1], key);
      if items[|items| - 1].key < least then items[|items| - 1].key else least
  }

  /** The earliest member names the disclosure, so that streaming never remounts it. */
  function Lowered(group: Group): Group {
    group.(key := MinKey(group.items, group.key))
  }

  function LowerKeys(groups: seq<Group>, keep: seq<bool>): (lowered: seq<Group>)
    requires |keep| == |groups|
    ensures |lowered| == |groups|
  {
    seq(|groups|, i requires 0 <= i < |groups| => if keep[i] then Lowered(groups[i]) else groups[i])
  }

  function Settled(groups: seq<Group>, keep: seq<bool>): (settled: seq<Group>)
    requires |keep| == |groups|
    ensures |settled| == |groups|
  {
    LowerKeys(MergeFrom(groups, keep, 0), keep)
  }

  // Flags of an unfinished turn: which group is live, and which shows the latest progress text.
  datatype Flags = Flags(live: Option<nat>, previewed: Option<nat>, preview: string)

  const NO_FLAGS := Flags(None, None, "")

  function RowOf(slot: Slot, groups: seq<Group>, keep: seq<bool>, flags: Flags): Option<Row>
    requires |keep| == |groups|
  {
    match slot
    case MessageSlot(item) => Some(Message(item.key, item))
    case AnswerSlot(answer) => Some(AnswerRow(answer.key, answer))
    case FailureSlot(key, failure) => Some(FailureRow(key, failure))
    case GroupSlot(g) =>
      if g < |groups| && keep[g] then
        Some(Activity(groups[g].key, groups[g].items, flags.live == Some(g),
                      if flags.previewed == Some(g) then Some(flags.preview) else None))
      else None
  }

  function RowsOf(slots: seq<Slot>, groups: seq<Group>, keep: seq<bool>, flags: Flags): seq<Row>
    requires |keep| == |groups|
  {
    if slots == [] then []
    else
      var row := RowOf(slots[|slots| - 1], groups, keep, flags);
      RowsOf(slots[..|slots| - 1], groups, keep, flags) + if row.Some? then [row.value] else []
  }

  /** The position after the latest progress text among the first k items, or 0. */
  function LatestProgress(turn: seq<Item>, phases: Phases, k: nat): (n: nat)
    requires k <= |turn|
    ensures n <= k && (n > 0 ==> InProgressText(turn[n - 1], phases))
  {
    if k == 0 then 0 else if InProgressText(turn[k - 1], phases) then k else LatestProgress(turn, phases, k - 1)
  }

  function FlagsOf(turn: seq<Item>, failures: seq<Failure>, failing: bool, keep: seq<bool>, active: bool): Flags {
    if !active then NO_FLAGS
    else
      var n := LatestProgress(turn, PhasesOf(turn), |turn|);
      var placed := |DraftAt(turn, n, failures, failing).groups|;
      Flags(LastKept(keep, |keep|), if n > 0 && placed > 0 then Some(placed - 1) else None,
            if n > 0 && turn[n - 1].Text? then turn[n - 1].text else "")
  }

  // The whole transcript so far: finished rows, the turn being collected, and the run's failure if it has one.
  datatype Projection = Projection(rows: seq<Row>, turn: seq<Item>, failures: seq<Failure>, failing: bool)

  const NOTHING := Projection([], [], [], false)

  function TurnRows(turn: seq<Item>, failures: seq<Failure>, failing: bool, active: bool): seq<Row> {
    var d := DraftOf(turn, failures, failing);
    var keep := KeptOf(d.groups, PhasesOf(turn));
    RowsOf(d.slots, Settled(d.groups, keep), keep, FlagsOf(turn, failures, failing, keep, active))
  }

  function Flush(p: Projection, active: bool): Projection {
    if p.turn == [] then p
    else
      var d := DraftOf(p.turn, p.failures, p.failing);
      Projection(p.rows + TurnRows(p.turn, p.failures, p.failing, active), [], d.failures, d.failing)
  }

  /** A new request or provider turn makes the previous run's failure historical. */
  predicate Boundary(item: Item) {
    StatusOf(item, Dispatch) || StatusOf(item, Followup) || StatusOf(item, TurnStarted)
  }

  function Historical(p: Projection): Projection {
    if p.failing && p.failures != [] then
      p.(failures := p.failures[|p.failures| - 1 := p.failures[|p.failures| - 1].(previous := true)], failing := false)
    else p.(failing := false)
  }

  predicate Interjects(item: Item) {
    UserMessage(item) || Is(item, Question) || Is(item, ApprovalRequest)
  }

  function Receive(p: Projection, item: Item): Projection {
    if StatusOf(item, ContextCompacted) then Flush(p, false)
    else
      var p := if Boundary(item) then Historical(Flush(p, false)) else p;
      if Interjects(item) then
        var p := Flush(p, false);
        p.(rows := p.rows + [Message(item.key, item)])
      else
        var p := p.(turn := p.turn + [item]);
        if Is(item, TurnResult) then Flush(p, false) else p
  }

  function Received(log: seq<Item>): Projection {
    if log == [] then NOTHING else Receive(Received(log[..|log| - 1]), log[|log| - 1])
  }

  function Present(log: seq<Item>, live: bool): Transcript {
    var p := Flush(Received(log), live);
    Transcript(p.rows, p.failures)
  }
}
