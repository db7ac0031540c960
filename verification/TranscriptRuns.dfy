/**
 Which failed items share a failure: those of one run. Turns, rows and phases have no say in it, so that the failures
 of a transcript can be told from the log alone.
 */
module TranscriptRuns {
  import opened ConversationItems
  import opened Transcript
  import opened TranscriptConservation
  import opened TranscriptFailures

  // The failures so far, and whether the last of them belongs to the present run.
  datatype Runs = Runs(failures: seq<Failure>, failing: bool)

  const NO_RUNS := Runs([], false)

  function Fail(r: Runs, x: Item): Runs {
    var failures := if r.failing && r.failures != [] then r.failures
                    else r.failures + [Failure(x.key, [], false, false)];
    var n := |failures| - 1;
    Runs(failures[n := failures[n].(items := failures[n].items + [x], completed := false)], true)
  }

  function Noted(r: Runs, x: Item): Runs {
    if RunFailed(x) then Fail(r, x)
    else if Is(x, TurnResult) && r.failing && r.failures != [] then
      var n := |r.failures| - 1;
      r.(failures := r.failures[n := r.failures[n].(completed := true)])
    else r
  }

  /** A new run makes the failure before it historical. */
  function Ended(r: Runs): Runs {
    if r.failing && r.failures != [] then
      var n := |r.failures| - 1;
      Runs(r.failures[n := r.failures[n].(previous := true)], false)
    else r.(failing := false)
  }

  function Followed(r: Runs, x: Item): Runs {
    if StatusOf(x, ContextCompacted) then r
    else
      var r := if Boundary(x) then Ended(r) else r;
      if Interjects(x) then r else Noted(r, x)
  }

  function RunsOf(log: seq<Item>): Runs {
    if log == [] then NO_RUNS else Followed(RunsOf(log[..|log| - 1]), log[|log| - 1])
  }

  // The projection computes them, turn by turn.

  function AllNoted(r: Runs, items: seq<Item>): Runs {
    if items == [] then r else Noted(AllNoted(r, items[..|items| - 1]), items[|items| - 1])
  }

  lemma PlacedRun(d: Draft, x: Item, phases: Phases, texts: set<string>)
    ensures var d' := Place(d, x, phases, texts); Runs(d'.failures, d'.failing) == Noted(Runs(d.failures, d.failing), x)
  {
    hide RunFailed, LateMarker, Background, AddToLast, Answers, AnswerOf;
  }

  lemma {:induction false} DraftRuns(turn: seq<Item>, k: nat, failures: seq<Failure>, failing: bool)
    requires k <= |turn|
    ensures var d := DraftAt(turn, k, failures, failing);
            Runs(d.failures, d.failing) == AllNoted(Runs(failures, failing), turn[..k])
  {
    hide Place, Noted, PhasesOf, TextsOf;
    if k > 0 {
      DraftRuns(turn, k - 1, failures, failing);
      PlacedRun(DraftAt(turn, k - 1, failures, failing), turn[k - 1], PhasesOf(turn), TextsOf(turn, PhasesOf(turn)));
      assert turn[..k][..k - 1] == turn[..k - 1];
    }
  }

  /** The failures once the turn at hand is flushed. */
  function Outlook(p: Projection): Runs {
    AllNoted(Runs(p.failures, p.failing), p.turn)
  }

  lemma FlushOutlook(p: Projection, active: bool)
    ensures var q := Flush(p, active); q.turn == [] && Runs(q.failures, q.failing) == Outlook(p) == Outlook(q)
  {
    DraftRuns(p.turn, |p.turn|, p.failures, p.failing);
    assert p.turn[..|p.turn|] == p.turn;
    hide DraftAt, TurnRows, Noted;
  }

  lemma OneMoreNoted(r: Runs, items: seq<Item>, x: Item)
    ensures AllNoted(r, items + [x]) == Noted(AllNoted(r, items), x)
  {
    assert (items + [x])[..|items|] == items;
    hide Noted;
  }

  lemma ReceiveOutlook(p: Projection, x: Item)
    ensures Outlook(Receive(p, x)) == Followed(Outlook(p), x)
  {
    var flushed := Flush(p, false);
    FlushOutlook(p, false);
    FlushedTurn(p);
    hide Flush, StatusOf, Boundary, Interjects, Noted;
    var q := if Boundary(x) then Historical(flushed) else p;
    assert Outlook(q) == if Boundary(x) then Ended(Outlook(p)) else Outlook(p);
    FlushOutlook(q, false);
    OneMoreNoted(Runs(q.failures, q.failing), q.turn, x);
    FlushOutlook(q.(turn := q.turn + [x]), false);
  }

  lemma {:induction false} ReceivedOutlook(log: seq<Item>)
    ensures Outlook(Received(log)) == RunsOf(log)
  {
    if log != [] {
      hide Receive, Followed, Outlook;
      ReceivedOutlook(log[..|log| - 1]);
      ReceiveOutlook(Received(log[..|log| - 1]), log[|log| - 1]);
    }
  }

  lemma FailuresAreRuns(log: seq<Item>, live: bool)
    ensures Present(log, live).failures == RunsOf(log).failures
  {
    ReceivedOutlook(log);
    FlushOutlook(Received(log), live);
    hide Flush, Received, Outlook, RunsOf;
  }

  // What that means for the items of a log.

  /** A run begins after the first item, and no later than the second. */
  ghost predicate BeginsBetween(log: seq<Item>, x: Item, y: Item) {
    exists b <- log :: Boundary(b) && x.key < b.key <= y.key
  }

  ghost predicate BeginsAfter(log: seq<Item>, x: Item) {
    exists b <- log :: Boundary(b) && x.key < b.key
  }

  /** Failures hold the failed items of the log, in order, each those of one run. */
  ghost predicate HoldRuns(r: Runs, log: seq<Item>) {
    OnlyFailed(r.failures, log) && AllInOrder(r.failures) && AllFailed(r.failures, log) && RunsApart(r.failures, log)
  }

  ghost predicate OnlyFailed(failures: seq<Failure>, log: seq<Item>) {
    forall f, x | 0 <= f < |failures| && x in failures[f].items :: x in log && FailsRun(x)
  }

  ghost predicate AllInOrder(failures: seq<Failure>) {
    forall f | 0 <= f < |failures| :: InOrder(failures[f])
  }

  ghost predicate AllFailed(failures: seq<Failure>, log: seq<Item>) {
    forall x <- log | FailsRun(x) :: HeldBy(failures, x)
  }

  ghost predicate HeldBy(failures: seq<Failure>, x: Item) {
    exists f :: 0 <= f < |failures| && x in failures[f].items
  }

  ghost predicate RunsApart(failures: seq<Failure>, log: seq<Item>) {
    forall f | 0 <= f < |failures| :: OneRun(failures[f], log)
  }

  /** Of the failed items after one of its own, a failure holds those before which no other run begins. */
  ghost predicate OneRun(failure: Failure, log: seq<Item>) {
    forall x <- failure.items, y <- log | FailsRun(y) && x.key < y.key ::
      y in failure.items <==> !BeginsBetween(log, x, y)
  }

  ghost predicate InOrder(failure: Failure) {
    failure.items != [] && failure.key == failure.items[0].key && Ascending(failure.items)
  }

  /** The last failure is that of the present run if there is one; it alone is not historical. */
  ghost predicate Current(r: Runs, log: seq<Item>) {
    && (r.failing ==> r.failures != [])
    && (forall f | 0 <= f < |r.failures| :: r.failures[f].previous <==> !(r.failing && f == |r.failures| - 1))
    && (forall f, x | 0 <= f < |r.failures| && x in r.failures[f].items ::
          BeginsAfter(log, x) <==> !(r.failing && f == |r.failures| - 1))
  }

  predicate Above(log: seq<Item>, key: int) {
    forall x <- log :: x.key < key
  }

  lemma BoundaryNext(log: seq<Item>, z: Item, x: Item, y: Item)
    requires Above(log, z.key) && x in log && y in log + [z]
    ensures BeginsAfter(log + [z], x) <==> BeginsAfter(log, x) || Boundary(z)
    ensures y in log ==> (BeginsBetween(log + [z], x, y) <==> BeginsBetween(log, x, y))
    ensures y == z ==> (BeginsBetween(log + [z], x, y) <==> BeginsAfter(log, x) || Boundary(z))
  {
    hide Boundary;
    assert forall b <- log + [z] :: b in log || b == z;
    assert forall b <- log :: b in log + [z];
    assert z in log + [z];
  }

  /** The same failures but for flags. */
  predicate SameItems(a: seq<Failure>, b: seq<Failure>) {
    |a| == |b| && forall f | 0 <= f < |a| :: b[f].items == a[f].items && b[f].key == a[f].key
  }

  lemma QuietHolds(r: Runs, r': Runs, log: seq<Item>, z: Item)
    requires HoldRuns(r, log) && Above(log, z.key) && !FailsRun(z) && SameItems(r.failures, r'.failures)
    ensures HoldRuns(r', log + [z])
  {
    hide FailsRun, InOrder, OneRun, Above;
    forall x | x in log && FailsRun(x) ensures HeldBy(r'.failures, x) {
      assert HeldBy(r.failures, x);
    }
    forall f | 0 <= f < |r.failures| ensures InOrder(r'.failures[f]) && OneRun(r'.failures[f], log + [z]) {
      SameOrder(r.failures[f], r'.failures[f]);
      OneRunNext(r.failures[f], r'.failures[f], z, log, false);
    }
  }

  lemma SameOrder(a: Failure, b: Failure)
    requires InOrder(a) && b.items == a.items && b.key == a.key
    ensures InOrder(b)
  {
  }

  lemma QuietCurrent(r: Runs, r': Runs, log: seq<Item>, z: Item)
    requires HoldRuns(r, log) && Current(r, log) && Above(log, z.key) && SameItems(r.failures, r'.failures)
    requires r'.failing == (r.failing && !Boundary(z))
    requires forall f | 0 <= f < |r.failures| ::
               r'.failures[f].previous ==
                 (r.failures[f].previous || (Boundary(z) && r.failing && f == |r.failures| - 1))
    ensures Current(r', log + [z])
  {
    hide FailsRun, BeginsBetween, BeginsAfter, InOrder, Boundary;
    forall f, x | 0 <= f < |r.failures| && x in r'.failures[f].items
      ensures BeginsAfter(log + [z], x) <==> !(r'.failing && f == |r.failures| - 1)
    {
      BoundaryNext(log, z, x, x);
    }
  }

  lemma NothingAbove(log: seq<Item>, z: Item)
    requires Above(log, z.key)
    ensures z !in log && !BeginsAfter(log + [z], z) && forall y <- log + [z] :: y.key <= z.key
  {
    hide Boundary;
  }

  lemma OneMoreInOrder(failure: Failure, failure': Failure, z: Item)
    requires InOrder(failure) && (forall x <- failure.items :: x.key < z.key)
    requires failure'.key == failure.key && failure'.items == failure.items + [z]
    ensures InOrder(failure')
  {
  }

  /** The last failure with one more item, or one more failure with an item of its own. */
  predicate Gains(failures: seq<Failure>, failures': seq<Failure>, n: nat, z: Item) {
    && n <= |failures| <= |failures'| == n + 1
    && (forall f | 0 <= f < n :: failures'[f].items == failures[f].items && failures'[f].key == failures[f].key)
    && failures'[n].items == (if n < |failures| then failures[n].items else []) + [z]
    && failures'[n].key == (if n < |failures| then failures[n].key else z.key)
  }

  lemma GainsFailed(failures: seq<Failure>, failures': seq<Failure>, n: nat, z: Item, log: seq<Item>)
    requires Gains(failures, failures', n, z) && FailsRun(z) && OnlyFailed(failures, log) && AllFailed(failures, log)
    ensures OnlyFailed(failures', log + [z]) && AllFailed(failures', log + [z])
  {
    hide FailsRun;
    forall x | x in log + [z] && FailsRun(x) ensures HeldBy(failures', x) {
      if x == z {
        assert x in failures'[n].items;
      } else {
        assert HeldBy(failures, x);
        var f :| 0 <= f < |failures| && x in failures[f].items;
        assert x in failures'[f].items;
      }
    }
  }

  lemma GainsOrder(failures: seq<Failure>, failures': seq<Failure>, n: nat, z: Item, log: seq<Item>)
    requires Gains(failures, failures', n, z) && AllInOrder(failures) && OnlyFailed(failures, log) && Above(log, z.key)
    ensures AllInOrder(failures')
  {
    hide FailsRun, InOrder;
    forall f | 0 <= f < |failures'| ensures InOrder(failures'[f]) {
      if f < n {
        SameOrder(failures[f], failures'[f]);
      } else if n < |failures| {
        OneMoreInOrder(failures[n], failures'[n], z);
      } else {
        assert [] + [z] == [z];
        AloneInOrder(failures'[f], z);
      }
    }
  }

  lemma OneRunNext(failure: Failure, failure': Failure, z: Item, log: seq<Item>, joins: bool)
    requires OneRun(failure, log) && Above(log, z.key) && (forall x <- failure.items :: x in log)
    requires failure'.items == failure.items + if joins then [z] else []
    requires FailsRun(z) ==> forall x <- failure.items :: BeginsAfter(log, x) || Boundary(z) <==> !joins
    requires joins ==> FailsRun(z)
    ensures OneRun(failure', log + [z])
  {
    NothingAbove(log, z);
    hide FailsRun, BeginsBetween, BeginsAfter, Boundary;
    forall x, y | x in failure'.items && y in log + [z] && FailsRun(y) && x.key < y.key
      ensures y in failure'.items <==> !BeginsBetween(log + [z], x, y)
    {
      if x in failure.items {
        BoundaryNext(log, z, x, y);
      }
    }
  }

  lemma OneRunBegins(failure: Failure, z: Item, log: seq<Item>)
    requires failure.items == [z] && Above(log, z.key)
    ensures OneRun(failure, log + [z])
  {
    NothingAbove(log, z);
    hide FailsRun, BeginsBetween;
  }

  /** The other failures are of runs that are over. */
  lemma GainsApart(failures: seq<Failure>, failures': seq<Failure>, n: nat, z: Item, log: seq<Item>)
    requires Gains(failures, failures', n, z) && OnlyFailed(failures, log) && RunsApart(failures, log)
    requires Above(log, z.key) && FailsRun(z)
    requires forall f, x | 0 <= f < |failures| && x in failures[f].items ::
               BeginsAfter(log, x) || Boundary(z) <==> f < n
    ensures RunsApart(failures', log + [z])
  {
    hide FailsRun, BeginsAfter, Boundary, OneRun, Above;
    forall f | 0 <= f < |failures'| ensures OneRun(failures'[f], log + [z]) {
      if f < |failures| {
        assert f < n <==> f != n;
        assert forall x <- failures[f].items :: BeginsAfter(log, x) || Boundary(z) <==> f < n;
        OneRunNext(failures[f], failures'[f], z, log, f == n);
      } else {
        assert [] + [z] == [z];
        OneRunBegins(failures'[f], z, log);
      }
    }
  }

  /** A failed item of the present run joins its failure. */
  lemma JoinHolds(r: Runs, log: seq<Item>, z: Item)
    requires HoldRuns(r, log) && Current(r, log) && Above(log, z.key) && FailsRun(z) && r.failing && !Boundary(z)
    ensures HoldRuns(Fail(r, z), log + [z])
  {
    var failures, failures', n := r.failures, Fail(r, z).failures, |r.failures| - 1;
    hide FailsRun, BeginsAfter, Boundary, OnlyFailed, AllInOrder, AllFailed, RunsApart;
    GainsFailed(failures, failures', n, z, log);
    GainsOrder(failures, failures', n, z, log);
    GainsApart(failures, failures', n, z, log);
  }

  lemma JoinCurrent(r: Runs, log: seq<Item>, z: Item)
    requires HoldRuns(r, log) && Current(r, log) && Above(log, z.key) && FailsRun(z) && r.failing && !Boundary(z)
    ensures Current(Fail(r, z), log + [z])
  {
    var r', n := Fail(r, z), |r.failures| - 1;
    NothingAbove(log, z);
    hide FailsRun, BeginsBetween, BeginsAfter, InOrder, Boundary;
    forall f, x | 0 <= f < |r'.failures| && x in r'.failures[f].items
      ensures BeginsAfter(log + [z], x) <==> !(r'.failing && f == |r'.failures| - 1)
    {
      if x != z {
        assert x in r.failures[f].items;
        BoundaryNext(log, z, x, x);
      }
    }
  }

  /** One that is the first of its run begins a failure. */
  lemma BeginHolds(r: Runs, r1: Runs, log: seq<Item>, z: Item)
    requires HoldRuns(r, log) && Current(r, log) && Above(log, z.key) && FailsRun(z)
    requires SameItems(r.failures, r1.failures) && !r1.failing && (r.failing ==> Boundary(z))
    ensures HoldRuns(Fail(r1, z), log + [z])
  {
    var failures, failures', n := r.failures, Fail(r1, z).failures, |r.failures|;
    hide FailsRun, BeginsAfter, Boundary, OnlyFailed, AllInOrder, AllFailed, RunsApart;
    assert [] + [z] == [z];
    GainsFailed(failures, failures', n, z, log);
    GainsOrder(failures, failures', n, z, log);
    GainsApart(failures, failures', n, z, log);
  }

  lemma AloneInOrder(failure: Failure, z: Item)
    requires failure.key == z.key && failure.items == [z]
    ensures InOrder(failure)
  {
  }

  lemma BeginCurrent(r: Runs, r1: Runs, log: seq<Item>, z: Item)
    requires HoldRuns(r, log) && Current(r, log) && Above(log, z.key) && FailsRun(z)
    requires SameItems(r.failures, r1.failures) && !r1.failing && (r.failing ==> Boundary(z))
    requires forall f | 0 <= f < |r1.failures| :: r1.failures[f].previous
    ensures Current(Fail(r1, z), log + [z])
  {
    var r', n := Fail(r1, z), |r.failures|;
    NothingAbove(log, z);
    hide FailsRun, BeginsBetween, BeginsAfter, InOrder, Boundary;
    assert forall f | 0 <= f < n :: r'.failures[f] == r1.failures[f];
    forall f, x | 0 <= f < |r'.failures| && x in r'.failures[f].items
      ensures BeginsAfter(log + [z], x) <==> !(r'.failing && f == |r'.failures| - 1)
    {
      if f < n {
        assert x in r.failures[f].items;
        BoundaryNext(log, z, x, x);
      } else {
        assert x == z;
      }
    }
  }

  lemma FollowedHolds(r: Runs, log: seq<Item>, z: Item)
    requires HoldRuns(r, log) && Current(r, log) && Above(log, z.key)
    ensures HoldRuns(Followed(r, z), log + [z]) && Current(Followed(r, z), log + [z])
  {
    var r1 := if Boundary(z) then Ended(r) else r;
    if FailsRun(z) {
      EndedRuns(r, log);
      FailingStep(r, z);
      hide RunFailed, StatusOf, Boundary, Interjects, HoldRuns, Current, Fail, Ended, Followed, FailsRun, SameItems;
      if r.failing && !Boundary(z) {
        JoinHolds(r, log, z);
        JoinCurrent(r, log, z);
      } else {
        BeginHolds(r, r1, log, z);
        BeginCurrent(r, r1, log, z);
      }
    } else {
      QuietStep(r, z);
      hide RunFailed, StatusOf, Boundary, Interjects, HoldRuns, Current, Followed, FailsRun;
      QuietHolds(r, Followed(r, z), log, z);
      QuietCurrent(r, Followed(r, z), log, z);
    }
  }

  lemma EndedRuns(r: Runs, log: seq<Item>)
    requires Current(r, log)
    ensures SameItems(r.failures, Ended(r).failures) && SameItems(r.failures, r.failures) && !Ended(r).failing
    ensures forall f | 0 <= f < |r.failures| :: Ended(r).failures[f].previous
    ensures !r.failing ==> forall f | 0 <= f < |r.failures| :: r.failures[f].previous
  {
  }

  lemma FailingStep(r: Runs, z: Item)
    requires FailsRun(z)
    ensures Followed(r, z) == Fail(if Boundary(z) then Ended(r) else r, z)
  {
  }

  /** What an item that fails no run does to the failures: it sets a flag of the last one at most. */
  lemma QuietStep(r: Runs, z: Item)
    requires !FailsRun(z) && (r.failing ==> r.failures != [])
    ensures var r' := Followed(r, z);
            && SameItems(r.failures, r'.failures) && r'.failing == (r.failing && !Boundary(z))
            && forall f | 0 <= f < |r.failures| ::
                 r'.failures[f].previous ==
                   (r.failures[f].previous || (Boundary(z) && r.failing && f == |r.failures| - 1))
  {
    KindsOf(z);
    hide RunFailed, StatusOf, Boundary, Interjects;
  }

  lemma KindsOf(z: Item)
    ensures StatusOf(z, ContextCompacted) ==> !Boundary(z) && !Interjects(z)
    ensures Is(z, TurnResult) ==> !Boundary(z) && !Interjects(z)
  {
  }

  // A failure has completed if its run has brought a result since.

  /** A result that is no failure comes after the item, before another run begins. */
  ghost predicate ResultAfter(log: seq<Item>, x: Item) {
    exists t <- log :: IsResultOf(log, x, t)
  }

  ghost predicate IsResultOf(log: seq<Item>, x: Item, t: Item) {
    Is(t, TurnResult) && !RunFailed(t) && x.key < t.key && !BeginsBetween(log, x, t)
  }

  lemma ResultNext(log: seq<Item>, z: Item, x: Item)
    requires Above(log, z.key) && x in log
    ensures ResultAfter(log + [z], x) <==>
            ResultAfter(log, x) || (Is(z, TurnResult) && !RunFailed(z) && !BeginsAfter(log, x))
  {
    KindsOf(z);
    hide RunFailed, Is, Boundary, BeginsAfter, BeginsBetween;
    forall t | t in log ensures IsResultOf(log + [z], x, t) <==> IsResultOf(log, x, t) {
      BoundaryNext(log, z, x, t);
    }
    BoundaryNext(log, z, x, z);
    assert forall t <- log :: t in log + [z];
    assert z in log + [z] && forall t <- log + [z] :: t in log || t == z;
  }

  /** What completes a failure: a result after the last of its items. */
  ghost predicate CompletedByResult(failure: Failure, log: seq<Item>) {
    failure.items != [] && (failure.completed <==> ResultAfter(log, failure.items[|failure.items| - 1]))
  }

  ghost predicate AllCompleted(failures: seq<Failure>, log: seq<Item>) {
    forall f | 0 <= f < |failures| :: CompletedByResult(failures[f], log)
  }

  /** What an item does to what a failure says of its completion. */
  lemma CompletedNext(failure: Failure, failure': Failure, log: seq<Item>, z: Item)
    requires CompletedByResult(failure, log) && Above(log, z.key) && (forall x <- failure.items :: x in log)
    requires failure'.items == failure.items
    requires failure'.completed == (failure.completed
               || (Is(z, TurnResult) && !RunFailed(z) && !BeginsAfter(log, failure.items[|failure.items| - 1])))
    ensures CompletedByResult(failure', log + [z])
  {
    var x := failure.items[|failure.items| - 1];
    assert x in log;
    hide BeginsAfter, RunFailed, Is;
    ResultNext(log, z, x);
    hide ResultAfter;
  }

  lemma NoResultYet(failure: Failure, log: seq<Item>, z: Item)
    requires Above(log, z.key) && !failure.completed && failure.items != [] && failure.items[|failure.items| - 1] == z
    ensures CompletedByResult(failure, log + [z])
  {
    NothingAbove(log, z);
    hide RunFailed, BeginsBetween;
  }

  lemma FollowedCompletes(r: Runs, log: seq<Item>, z: Item)
    requires HoldRuns(r, log) && Current(r, log) && AllCompleted(r.failures, log) && Above(log, z.key)
    ensures AllCompleted(Followed(r, z).failures, log + [z])
  {
    var r' := Followed(r, z);
    CompletionStep(r, z);
    hide Followed, RunFailed, Is, BeginsAfter, CompletedByResult, FailsRun, RunsApart, AllFailed;
    forall f | 0 <= f < |r'.failures| ensures CompletedByResult(r'.failures[f], log + [z]) {
      if FailsRun(z) && f == |r'.failures| - 1 {
        NoResultYet(r'.failures[f], log, z);
      } else {
        assert InOrder(r.failures[f]);
        var items := r.failures[f].items;
        assert items[|items| - 1] in items;
        CompletedNext(r.failures[f], r'.failures[f], log, z);
      }
    }
  }

  lemma CompletionStep(r: Runs, z: Item)
    requires r.failing ==> r.failures != []
    ensures var r', n := Followed(r, z), |Followed(r, z).failures| - 1;
            && |r.failures| <= |r'.failures| <= |r.failures| + 1 && (|r'.failures| > |r.failures| ==> FailsRun(z))
            && (FailsRun(z) ==>
                  n >= 0 && r'.failures[n].items != [] && !r'.failures[n].completed
                  && r'.failures[n].items[|r'.failures[n].items| - 1] == z)
            && forall f | 0 <= f < |r.failures| && !(FailsRun(z) && f == n) ::
                 r'.failures[f].items == r.failures[f].items
                 && r'.failures[f].completed ==
                    (r.failures[f].completed
                     || (Is(z, TurnResult) && !RunFailed(z) && r.failing && f == |r.failures| - 1))
  {
    KindsOf(z);
    hide RunFailed, Boundary, Interjects;
  }

  lemma {:induction false} RunsHold(log: seq<Item>)
    requires Ascending(log)
    ensures HoldRuns(RunsOf(log), log) && Current(RunsOf(log), log) && AllCompleted(RunsOf(log).failures, log)
  {
    hide Followed, HoldRuns, Current, AllCompleted;
    if log == [] {
      NoRunsHold();
    } else {
      var shorter, z := log[..|log| - 1], log[|log| - 1];
      assert log == shorter + [z];
      RunsHold(shorter);
      assert Above(shorter, z.key);
      FollowedHolds(RunsOf(shorter), shorter, z);
      FollowedCompletes(RunsOf(shorter), shorter, z);
    }
  }

  lemma NoRunsHold()
    ensures HoldRuns(NO_RUNS, []) && Current(NO_RUNS, []) && AllCompleted(NO_RUNS.failures, [])
  {
  }

  /**
   Of two failed items of a log, the later is in the failure of the earlier if and only if no run begins after the one
   and up to the other. Each is in a failure; it is historical if and only if a run begins after it.
   */
  lemma RunsShareFailures(log: seq<Item>, live: bool, x: Item, y: Item)
    requires Ascending(log) && x in log && y in log && FailsRun(x) && FailsRun(y) && x.key < y.key
    ensures (exists failure <- Present(log, live).failures :: x in failure.items && y in failure.items)
            <==> !BeginsBetween(log, x, y)
  {
    RunsHold(log);
    FailuresAreRuns(log, live);
    hide Present, RunsOf, FailsRun, BeginsBetween, Current, InOrder, AllCompleted;
    var failures := RunsOf(log).failures;
    assert HeldBy(failures, x);
    var f :| 0 <= f < |failures| && x in failures[f].items;
    assert failures[f] in Present(log, live).failures && OneRun(failures[f], log);
  }

  /**
   Each failed item is in a failure. That is keyed by its first item and in the order of the log, historical if and only
   if a run begins after the item, and completed if and only if its run has brought a result since the last item.
   */
  lemma FailureOf(log: seq<Item>, live: bool, x: Item) returns (failure: Failure)
    requires Ascending(log) && x in log && FailsRun(x)
    ensures failure in Present(log, live).failures && x in failure.items && InOrder(failure)
    ensures failure.previous <==> BeginsAfter(log, x)
    ensures CompletedByResult(failure, log)
  {
    RunsHold(log);
    FailuresAreRuns(log, live);
    hide Present, RunsOf, FailsRun, BeginsBetween, BeginsAfter, InOrder, CompletedByResult;
    assert HeldBy(RunsOf(log).failures, x);
    var f :| 0 <= f < |RunsOf(log).failures| && x in RunsOf(log).failures[f].items;
    failure := RunsOf(log).failures[f];
  }
}
