/** How a stream of events becomes a log: prose that goes on is joined, and nothing is lost, repeated or reordered. */
module HistoryStream {
  import opened ConversationItems

  // An event with its sequence number.
  type Numbered = (int, Incoming)

  /** The log that a stream of events makes, one event after the other. */
  function LogOf(events: seq<Numbered>): seq<Item> {
    if events == [] then []
    else
      var last := events[|events| - 1];
      AppendHistoryEvent(LogOf(events[..|events| - 1]), last.1, last.0)
  }

  function Said(event: Incoming): string {
    if event.Prose? then event.text else ""
  }

  function Joined(part: seq<Numbered>): string {
    if part == [] then "" else Joined(part[..|part| - 1]) + Said(part[|part| - 1].1)
  }

  /** Prose of one agent under one id, or without id in one phase. */
  predicate SameMessage(a: Incoming, b: Incoming) {
    a.Prose? && b.Prose? && a.agent == b.agent && a.messageId == b.messageId
      && (a.messageId.Some? || a.phase == b.phase)
  }

  /** The item is made of this part of the stream: of one event, or of prose of one message, joined. */
  ghost predicate MadeOf(item: Item, part: seq<Numbered>) {
    && part != [] && item.key == part[0].0 && item.endSeq == part[|part| - 1].0
    && match part[0].1
       case Prose(agent, _, messageId, phase) =>
         && item == Text(part[0].0, part[|part| - 1].0, agent, Joined(part), messageId, phase)
         && forall n <- part :: SameMessage(part[0].1, n.1)
       case Other(kind, source, payload) =>
         |part| == 1 && item == Event(part[0].0, part[0].0, kind, source, payload)
  }

  function Flat(parts: seq<seq<Numbered>>): seq<Numbered> {
    if parts == [] then [] else Flat(parts[..|parts| - 1]) + parts[|parts| - 1]
  }

  /** The parts make up the stream, each item is made of one, and no message goes on in the next. */
  ghost predicate Divided(items: seq<Item>, events: seq<Numbered>, parts: seq<seq<Numbered>>) {
    && Flat(parts) == events && |parts| == |items|
    && (forall i | 0 <= i < |items| :: MadeOf(items[i], parts[i]))
    && (forall i, j | 0 < i < |items| && j == i - 1 :: Apart(parts[j], parts[i]))
  }

  predicate Apart(a: seq<Numbered>, b: seq<Numbered>) {
    a != [] && b != [] && !SameMessage(a[0].1, b[0].1)
  }

  lemma JoinedMore(part: seq<Numbered>, n: Numbered)
    ensures Joined(part + [n]) == Joined(part) + Said(n.1)
  {
    assert (part + [n])[..|part|] == part;
  }

  lemma ContinuesSame(item: Item, part: seq<Numbered>, event: Incoming)
    requires MadeOf(item, part)
    ensures Continues(item, event) <==> SameMessage(part[0].1, event)
  {
  }

  /** An event that goes on with the message extends its item, and one that does not makes its own. */
  lemma Extended(item: Item, part: seq<Numbered>, n: Numbered)
    requires MadeOf(item, part) && SameMessage(part[0].1, n.1) && item.Text? && n.1.Prose?
    ensures MadeOf(item.(endSeq := n.0, text := item.text + n.1.text), part + [n])
  {
    JoinedMore(part, n);
    hide Joined;
    assert (part + [n])[0] == part[0];
  }

  lemma Alone(n: Numbered)
    ensures MadeOf(Fresh(n.1, n.0), [n])
  {
    JoinedMore([], n);
    assert [] + [n] == [n];
    assert Joined([]) == "";
  }

  lemma FlatMore(parts: seq<seq<Numbered>>, part: seq<Numbered>)
    ensures Flat(parts + [part]) == Flat(parts) + part
  {
    assert (parts + [part])[..|parts|] == parts;
  }

  lemma MadeOfSome(item: Item, part: seq<Numbered>)
    requires MadeOf(item, part)
    ensures part != []
  {
  }

  lemma ExtendedDivides(items: seq<Item>, events: seq<Numbered>, n: Numbered, parts: seq<seq<Numbered>>)
    requires Divided(items, events, parts) && items != [] && Continues(items[|items| - 1], n.1)
    ensures |parts| == |items|
    ensures var last := |items| - 1;
            Divided(AppendHistoryEvent(items, n.1, n.0), events + [n], parts[..last] + [parts[last] + [n]])
  {
    hide MadeOf, SameMessage, Continues, Flat;
    var last := |items| - 1;
    var part := parts[last];
    assert MadeOf(items[last], part);
    ContinuesSame(items[last], part, n.1);
    ContinuedIsProse(items[last], n.1);
    Extended(items[last], part, n);
    MadeOfSome(items[last], part);
    assert parts == parts[..last] + [part];
    FlatMore(parts[..last], part);
    FlatMore(parts[..last], part + [n]);
    assert Flat(parts[..last]) + (part + [n]) == events + [n];
    ExtendedApart(items, parts, n);
    hide Apart;
  }

  lemma ExtendedApart(items: seq<Item>, parts: seq<seq<Numbered>>, n: Numbered)
    requires items != [] && |parts| == |items| && parts[|items| - 1] != []
    requires forall i, j | 0 < i < |items| && j == i - 1 :: Apart(parts[j], parts[i])
    ensures var parts' := parts[..|items| - 1] + [parts[|items| - 1] + [n]];
            forall i, j | 0 < i < |items| && j == i - 1 :: Apart(parts'[j], parts'[i])
  {
    hide SameMessage;
    var part := parts[|items| - 1];
    assert (part + [n])[0] == part[0];
    forall i, j | 0 < i < |items| && j == i - 1
      ensures Apart(parts[j], if i == |items| - 1 then part + [n] else parts[i])
    {
      assert Apart(parts[j], parts[i]);
    }
  }

  lemma ContinuedIsProse(item: Item, event: Incoming)
    requires Continues(item, event)
    ensures item.Text? && event.Prose?
  {
  }

  lemma FreshDivides(items: seq<Item>, events: seq<Numbered>, n: Numbered, parts: seq<seq<Numbered>>)
    requires Divided(items, events, parts) && (items == [] || !Continues(items[|items| - 1], n.1))
    ensures Divided(AppendHistoryEvent(items, n.1, n.0), events + [n], parts + [[n]])
  {
    Alone(n);
    FlatMore(parts, [n]);
    if items != [] {
      ContinuesSame(items[|items| - 1], parts[|items| - 1], n.1);
      MadeOfSome(items[|items| - 1], parts[|items| - 1]);
    }
    hide MadeOf, SameMessage, Continues, Fresh, Flat;
  }

  /**
   The items of a log divide the stream it was made of into consecutive parts, as long as they can be: each item is one
   event that is no prose, or all the prose of one message that came without a break, with the text joined in order.
   */
  lemma {:induction false} StreamIsDivided(events: seq<Numbered>) returns (parts: seq<seq<Numbered>>)
    ensures Divided(LogOf(events), events, parts)
  {
    hide Divided, Continues, AppendHistoryEvent;
    if events == [] {
      parts := [];
      NothingDivides();
    } else {
      var shorter, last := events[..|events| - 1], events[|events| - 1];
      var before := StreamIsDivided(shorter);
      var items := LogOf(shorter);
      assert events == shorter + [last];
      if items != [] && Continues(items[|items| - 1], last.1) {
        ExtendedDivides(items, shorter, last, before);
        parts := before[..|items| - 1] + [before[|items| - 1] + [last]];
      } else {
        FreshDivides(items, shorter, last, before);
        parts := before + [[last]];
      }
    }
  }

  lemma NothingDivides()
    ensures Divided([], [], [])
  {
  }
}
