/**
 What the record of a finished host says of how it ended: over all runs it says what happened, and it goes on saying
 it.
 */
module HostOutcomes {
  import opened Wrappers
  import opened HostRecords
  import opened HostProtocol
  import opened HostInvariant
  import opened HostSafety

  // What records tell.

  /** A finished record says when it finished and how: a code, and a reason unless the code is that of success. */
  predicate OutcomeTold(record: Record) {
    && record.lifecycle.finishedAt.Some? && record.exitCode.Some?
    && match record.lifecycle.reason
       case None => record.exitCode == Some(0)
       case Some(ChildFailed) => record.exitCode != Some(0)
       case Some(ReadinessTimeout) => true
       case _ => record.exitCode == Some(-1)
  }

  /** An unfinished one says nothing of that, unless that its guardian is lost. */
  predicate Told(record: Record) {
    if record.state == Exited then OutcomeTold(record)
    else
      && record.exitCode.None? && record.lifecycle.finishedAt.None? && !record.lifecycle.compacted
      && (record.lifecycle.startedAt.Some? <==> record.state == Running)
      && (record.lifecycle.reason.Some? ==> record.lifecycle.reason == Some(GuardianLost) && record.guard.Some?)
  }

  /** The copies of launches and guardians know of no loss. */
  predicate CopyTold(pc: Pc) {
    match pc
    case LaunchGrouped(record) => Untouched(record)
    case LaunchReserved(record) => Untouched(record)
    case LaunchFailed(record) => Untouched(record)
    case LaunchCleaned(record) => Untouched(record)
    case GuardianClaiming(record) => Untouched(record)
    case GuardianClaimed(record) => Untouched(record)
    case GuardianSpawned(record, _) => Untouched(record)
    case GuardianWatching(record) => record.state == Running && Told(record) && record.lifecycle.reason.None?
    case GuardianStopping(record) => Ending(record)
    case GuardianEmptied(record) => Ending(record)
    case MaintainOwned(record) => Told(record)
    case MaintainReporting(record) => record.state != Exited && Told(record) && record.guard.Some?
    case MaintainEmptied(record) => record.state != Exited && Told(record) && record.guard.Some?
    case MaintainCompacting(record) => record.state == Exited && Told(record)
    case _ => true
  }

  predicate Untouched(record: Record) {
    record.state == Starting && Told(record) && record.lifecycle.reason.None?
  }

  /** The copy of a guardian that saw its child exit, or failed. */
  predicate Ending(record: Record) {
    && record.exitCode.Some?
    && (record.lifecycle.reason.Some? ==>
          record.lifecycle.reason == Some(HostStartFailed) && record.exitCode == Some(-1))
  }

  ghost predicate AllTold(h: Host) {
    && (h.record.Some? ==> Told(h.record.value))
    && forall who <- h.actors :: CopyTold(h.actors[who])
  }

  lemma LaunchKeepsTold(h: Host, who: Identity, o: Outcome)
    requires AllTold(h) && who in h.actors && LaunchPc(h.actors[who]) && LaunchStep(h, who, h.actors[who], o).Some?
    ensures AllTold(LaunchStep(h, who, h.actors[who], o).value)
  {
    hide Populated, ReadyAt, Alive;
    assert CopyTold(h.actors[who]);
  }

  lemma GuardianKeepsTold(h: Host, who: Identity, o: Outcome)
    requires AllTold(h) && who in h.actors && GuardianPc(h.actors[who])
    requires GuardianStep(h, who, h.actors[who], o).Some?
    ensures AllTold(GuardianStep(h, who, h.actors[who], o).value)
  {
    hide Populated, ReadyAt, Alive;
    assert CopyTold(h.actors[who]);
  }

  lemma MaintainKeepsTold(h: Host, who: Identity, o: Outcome)
    requires AllTold(h) && who in h.actors && MaintainPc(h.actors[who])
    requires MaintainStep(h, who, h.actors[who], o).Some?
    ensures AllTold(MaintainStep(h, who, h.actors[who], o).value)
  {
    hide Populated, ReadyAt, Alive;
    assert CopyTold(h.actors[who]);
  }

  lemma InspectKeepsTold(h: Host, who: Identity)
    requires AllTold(h) && who in h.actors && InspectPc(h.actors[who]) && InspectStep(h, who, h.actors[who]).Some?
    ensures AllTold(InspectStep(h, who, h.actors[who]).value)
  {
    hide Populated, ReadyAt, Alive, ReportAlive;
    assert CopyTold(h.actors[who]);
  }

  lemma StepKeepsTold(h: Host, action: Action)
    requires AllTold(h) && Step(h, action).Some?
    ensures AllTold(Step(h, action).value)
  {
    hide LaunchStep, GuardianStep, MaintainStep, InspectStep, Told, CopyTold;
    if action.Continue? {
      var who, o := action.who, action.outcome;
      hide AllTold;
      if LaunchPc(h.actors[who]) {
        LaunchKeepsTold(h, who, o);
      } else if GuardianPc(h.actors[who]) {
        GuardianKeepsTold(h, who, o);
      } else if MaintainPc(h.actors[who]) {
        MaintainKeepsTold(h, who, o);
      } else {
        InspectKeepsTold(h, who);
      }
    } else {
      ArrivalsTellNothing();
    }
  }

  lemma ArrivalsTellNothing()
    ensures CopyTold(LaunchChecked) && CopyTold(MaintainRead) && forall record: Record :: CopyTold(InspectRead(record))
  {
  }

  lemma {:induction false} RunKeepsTold(h: Host, actions: seq<Action>)
    requires AllTold(h) && Run(h, actions).Some?
    ensures AllTold(Run(h, actions).value)
    decreases |actions|
  {
    hide Step, AllTold;
    if actions != [] {
      StepKeepsTold(h, actions[0]);
      RunKeepsTold(Step(h, actions[0]).value, actions[1..]);
    }
  }

  lemma EmptyIsTold()
    ensures AllTold(EMPTY_HOST)
  {
  }

  /** Every finished record of a reachable host tells its outcome, and no unfinished one does. */
  lemma OutcomesAreTold(actions: seq<Action>, h: Host)
    requires Reaches(actions, h)
    ensures h.record.Some? ==> Told(h.record.value)
  {
    EmptyIsTold();
    hide AllTold, Run;
    RunKeepsTold(EMPTY_HOST, actions);
    TheRecordTells(h);
  }

  lemma TheRecordTells(h: Host)
    requires AllTold(h)
    ensures h.record.Some? ==> Told(h.record.value)
    ensures forall who <- h.actors :: CopyTold(h.actors[who])
  {
  }

  // A finished record stays as it is, but for compaction.

  /** What compaction leaves of a finished record. */
  predicate SaysTheSame(a: Record, b: Record) {
    && b.state == a.state && b.isolation == a.isolation && b.exitCode == a.exitCode
    && (b == a || b.lifecycle.compacted)
    && b.lifecycle.createdAt == a.lifecycle.createdAt && b.lifecycle.startedAt == a.lifecycle.startedAt
    && b.lifecycle.finishedAt == a.lifecycle.finishedAt && b.lifecycle.reason == a.lifecycle.reason
    && b.lifecycle.readinessRequired == a.lifecycle.readinessRequired
    && (a.lifecycle.readyAt.Some? ==> b.lifecycle.readyAt == a.lifecycle.readyAt)
  }

  ghost predicate Over(h: Host, record: Record) {
    h.record.Some? && h.record.value.state == Exited && SaysTheSame(record, h.record.value)
  }

  lemma LaunchKeepsOver(h: Host, who: Identity, o: Outcome, record: Record)
    requires Inv(h) && AllTold(h) && who in h.actors && LaunchPc(h.actors[who]) && Over(h, record)
    requires LaunchStep(h, who, h.actors[who], o).Some?
    ensures Over(LaunchStep(h, who, h.actors[who], o).value, record)
  {
    assert ActorOk(h, who) && CopyTold(h.actors[who]);
    hide Populated, ReadFrom, Inv, Core, AllTold;
  }

  lemma GuardianKeepsOver(h: Host, who: Identity, o: Outcome, record: Record)
    requires Inv(h) && AllTold(h) && who in h.actors && GuardianPc(h.actors[who]) && Over(h, record)
    requires GuardianStep(h, who, h.actors[who], o).Some?
    ensures Over(GuardianStep(h, who, h.actors[who], o).value, record)
  {
    assert ActorOk(h, who) && CopyTold(h.actors[who]);
    hide Populated, ReadFrom, Inv, Core, AllTold;
  }

  lemma MaintainKeepsOver(h: Host, who: Identity, o: Outcome, record: Record)
    requires Inv(h) && AllTold(h) && who in h.actors && MaintainPc(h.actors[who]) && Over(h, record)
    requires MaintainStep(h, who, h.actors[who], o).Some?
    ensures Over(MaintainStep(h, who, h.actors[who], o).value, record)
  {
    assert ActorOk(h, who) && CopyTold(h.actors[who]);
    hide Populated, ReadFrom, Inv, Core, AllTold;
  }

  lemma InspectKeepsOver(h: Host, who: Identity, record: Record)
    requires who in h.actors && InspectPc(h.actors[who]) && Over(h, record) && InspectStep(h, who, h.actors[who]).Some?
    ensures Over(InspectStep(h, who, h.actors[who]).value, record)
  {
    hide Populated, ReportAlive;
  }

  lemma ContinueKeepsOver(h: Host, who: Identity, o: Outcome, record: Record)
    requires Inv(h) && AllTold(h) && Over(h, record) && Step(h, Continue(who, o)).Some?
    ensures Over(Step(h, Continue(who, o)).value, record)
  {
    hide LaunchStep, GuardianStep, MaintainStep, InspectStep, Inv, AllTold, Over;
    var pc := h.actors[who];
    if LaunchPc(pc) {
      LaunchKeepsOver(h, who, o, record);
    } else if GuardianPc(pc) {
      GuardianKeepsOver(h, who, o, record);
    } else if MaintainPc(pc) {
      MaintainKeepsOver(h, who, o, record);
    } else {
      InspectKeepsOver(h, who, record);
    }
  }

  lemma StepKeepsOver(h: Host, action: Action, record: Record)
    requires Inv(h) && AllTold(h) && Over(h, record) && Step(h, action).Some?
    ensures Over(Step(h, action).value, record)
  {
    match action
    case Continue(who, o) => ContinueKeepsOver(h, who, o, record);
    case _ => hide Inv, AllTold;
  }

  lemma {:induction false} RunKeepsOver(h: Host, record: Record, actions: seq<Action>)
    requires Inv(h) && AllTold(h) && Over(h, record) && Run(h, actions).Some?
    ensures Over(Run(h, actions).value, record)
    decreases |actions|
  {
    hide Step, AllTold, Inv, Over, Advances;
    if actions != [] {
      StepKeepsInv(h, actions[0]);
      StepKeepsTold(h, actions[0]);
      StepKeepsOver(h, actions[0], record);
      RunKeepsOver(Step(h, actions[0]).value, record, actions[1..]);
    }
  }

  /** Nothing that follows changes how a finished record says that its host ended. */
  lemma OutcomeIsFinal(before: seq<Action>, h: Host, after: seq<Action>)
    requires Reaches(before, h) && Run(h, after).Some? && h.record.Some? && h.record.value.state == Exited
    ensures var h' := Run(h, after).value; h'.record.Some? && SaysTheSame(h.record.value, h'.record.value)
  {
    ReachableInv(before, h);
    EmptyIsTold();
    hide Run, Inv, AllTold, SaysTheSame;
    RunKeepsTold(EMPTY_HOST, before);
    SaysItself(h.record.value);
    RunKeepsOver(h, h.record.value, after);
  }

  lemma SaysItself(record: Record)
    ensures SaysTheSame(record, record)
  {
  }

  // What a guardian saw is what it writes.

  /** The guardian has left its child behind with this copy, which it will finish and write; or it is gone for good. */
  predicate Ends(h: Host, who: Identity, e: Record) {
    && who < h.nextIdentity
    && (who in h.actors ==>
          h.actors[who] == GuardianStopping(e) || h.actors[who] == GuardianEmptied(e) || h.actors[who] == GuardianEnded)
  }

  lemma StepKeepsEnds(h: Host, action: Action, who: Identity, e: Record)
    requires Ends(h, who, e) && Step(h, action).Some?
    ensures Ends(Step(h, action).value, who, e)
  {
    hide Populated, ReadyAt, Alive, ReportAlive, Unclaimed;
    match action
    case Continue(_, _) => ContinueKeepsEnds(h, action, who, e);
    case _ =>
  }

  lemma LaunchKeepsEnds(h: Host, actor: Identity, o: Outcome, who: Identity, e: Record)
    requires Ends(h, who, e) && actor in h.actors && LaunchPc(h.actors[actor])
             && LaunchStep(h, actor, h.actors[actor], o).Some?
    ensures Ends(LaunchStep(h, actor, h.actors[actor], o).value, who, e)
  {
    hide Populated, SpawnFailed;
  }

  lemma GuardianKeepsEnds(h: Host, actor: Identity, o: Outcome, who: Identity, e: Record)
    requires Ends(h, who, e) && actor in h.actors && GuardianPc(h.actors[actor])
             && GuardianStep(h, actor, h.actors[actor], o).Some?
    ensures Ends(GuardianStep(h, actor, h.actors[actor], o).value, who, e)
  {
    hide Populated, ReadyAt, Unclaimed, StartFailed, Started, Finished;
  }

  lemma MaintainKeepsEnds(h: Host, actor: Identity, o: Outcome, who: Identity, e: Record)
    requires Ends(h, who, e) && actor in h.actors && MaintainPc(h.actors[actor])
             && MaintainStep(h, actor, h.actors[actor], o).Some?
    ensures Ends(MaintainStep(h, actor, h.actors[actor], o).value, who, e)
  {
    hide Populated, Alive, Lost, Reconciled, Compacted;
  }

  lemma ContinueKeepsEnds(h: Host, action: Action, who: Identity, e: Record)
    requires Ends(h, who, e) && action.Continue? && Step(h, action).Some?
    ensures Ends(Step(h, action).value, who, e)
  {
    hide LaunchStep, GuardianStep, MaintainStep, Populated, ReportAlive, Alive;
    var actor, o := action.who, action.outcome;
    if LaunchPc(h.actors[actor]) {
      LaunchKeepsEnds(h, actor, o, who, e);
    } else if GuardianPc(h.actors[actor]) {
      GuardianKeepsEnds(h, actor, o, who, e);
    } else if MaintainPc(h.actors[actor]) {
      MaintainKeepsEnds(h, actor, o, who, e);
    }
  }

  lemma {:induction false} RunKeepsEnds(h: Host, actions: seq<Action>, who: Identity, e: Record)
    requires Ends(h, who, e) && Run(h, actions).Some?
    ensures Ends(Run(h, actions).value, who, e)
    decreases |actions|
  {
    hide Step, Ends;
    if actions != [] {
      StepKeepsEnds(h, actions[0], who, e);
      RunKeepsEnds(Step(h, actions[0]).value, actions[1..], who, e);
    }
  }

  /** The record of a host that finished then with this copy of its guardian's. */
  function FinishedWith(e: Record, now: nat, reason: Option<Reason>): Record {
    e.(state := Exited, lifecycle := e.lifecycle.(finishedAt := Some(now), reason := reason))
  }

  /** The actor's step finishes the host. */
  ghost predicate Finishes(h: Host, who: Identity, last: Outcome, h': Host) {
    && h.record.Some? && h.record.value.state != Exited
    && Step(h, Continue(who, last)) == Some(h') && h'.record.Some? && h'.record.value.state == Exited
  }

  lemma EndsAreWritten(h: Host, who: Identity, e: Record, last: Outcome, h': Host)
    requires Ends(h, who, e) && Finishes(h, who, last, h')
    ensures h'.record == Some(FinishedWith(e, last.now,
              if last.stop == StopUnready then Some(ReadinessTimeout)
              else if e.lifecycle.reason.None? && e.exitCode != Some(0) then Some(ChildFailed)
              else e.lifecycle.reason))
  {
    hide Populated;
  }

  /** What a watching guardian makes of it that its child has exited. */
  lemma ExitIsSeen(h: Host, who: Identity, seen: Outcome, c: int)
    requires Inv(h) && AllTold(h) && who in h.actors && h.actors[who].GuardianWatching?
    requires seen.exitCode == Some(c) && !seen.fails
    ensures var r := h.actors[who].record;
            && Step(h, Continue(who, seen)).Some? && r.lifecycle.reason.None?
            && Ends(Step(h, Continue(who, seen)).value, who,
                    r.(exitCode := Some(c), lifecycle := r.lifecycle.(readyAt := ReadyAt(r, seen.ready))))
  {
    assert ActorOk(h, who) && CopyTold(h.actors[who]);
    hide Inv, AllTold, Core, ReadyAt;
  }

  /**
   In any run: when a guardian has seen its child exit with this code and, however long after, finishes the host, the
   record is the one it watched with that code, and with the reason that the stop evidence gives, else the child's
   failure if and only if the code is not zero; and so it stays, compaction included.
   */
  lemma ExitCodeIsKept(before: seq<Action>, h: Host, who: Identity, seen: Outcome, c: int, during: seq<Action>,
      h': Host,
                       last: Outcome, end: Host, after: seq<Action>)
    requires Reaches(before, h) && who in h.actors && h.actors[who].GuardianWatching?
    requires seen.exitCode == Some(c) && !seen.fails
    requires Run(h, [Continue(who, seen)] + during) == Some(h') && Finishes(h', who, last, end)
    requires Run(end, after).Some?
    ensures var r := h.actors[who].record;
            && end.record.value == r.(state := Exited, exitCode := Some(c), lifecycle := r.lifecycle.(
                                      readyAt := ReadyAt(r, seen.ready), finishedAt := Some(last.now),
                                      reason := if last.stop == StopUnready then Some(ReadinessTimeout)
                                                else if c != 0 then Some(ChildFailed) else None))
            && Run(end, after).value.record.Some? && SaysTheSame(end.record.value, Run(end, after).value.record.value)
  {
    ReachableInv(before, h);
    EmptyIsTold();
    var r := h.actors[who].record;
    var e := r.(exitCode := Some(c), lifecycle := r.lifecycle.(readyAt := ReadyAt(r, seen.ready)));
    var actions := [Continue(who, seen)] + during;
    assert actions[1..] == during;
    ExitIsSeen(h, who, seen, c) by {
      RunKeepsTold(EMPTY_HOST, before);
    }
    RunKeepsEnds(Step(h, Continue(who, seen)).value, during, who, e);
    EndsAreWritten(h', who, e, last, end);
    var all := before + actions + [Continue(who, last)];
    hide Step, Inv, AllTold, Ends, SaysTheSame;
    ReachesFurther(before, h, actions, h', Continue(who, last), end);
    OutcomeIsFinal(before + actions + [Continue(who, last)], end, after);
  }

  /** What a guardian makes of a failure before its child has exited. */
  lemma FailureIsSeen(h: Host, who: Identity, seen: Outcome)
    requires Inv(h) && who in h.actors && seen.fails
    requires h.actors[who].GuardianClaimed? || h.actors[who].GuardianSpawned? || h.actors[who].GuardianWatching?
    ensures var next := Step(h, Continue(who, seen));
            && next.Some? && who in next.value.actors && next.value.actors[who].GuardianStopping?
            && var e := next.value.actors[who].record;
               Ends(next.value, who, e) && e.exitCode == Some(-1) && e.lifecycle.reason == Some(HostStartFailed)
  {
    assert ActorOk(h, who);
    hide Inv, Core, ReadyAt, Started;
  }

  /** A guardian that failed and finishes the host all the same says so, unless the stop evidence gives the reason. */
  lemma FailureIsKept(before: seq<Action>, h: Host, who: Identity, seen: Outcome, during: seq<Action>, h': Host,
                      last: Outcome, end: Host)
    requires Reaches(before, h) && who in h.actors && seen.fails
    requires h.actors[who].GuardianClaimed? || h.actors[who].GuardianSpawned? || h.actors[who].GuardianWatching?
    requires Run(h, [Continue(who, seen)] + during) == Some(h') && Finishes(h', who, last, end)
    ensures end.record.value.exitCode == Some(-1) && end.record.value.lifecycle.finishedAt == Some(last.now)
    ensures end.record.value.lifecycle.reason ==
            Some(if last.stop == StopUnready then ReadinessTimeout else HostStartFailed)
  {
    ReachableInv(before, h);
    FailureIsSeen(h, who, seen);
    var next := Step(h, Continue(who, seen)).value;
    assert ([Continue(who, seen)] + during)[1..] == during;
    RunKeepsEnds(next, during, who, next.actors[who].record);
    hide Step, Inv, Ends;
    EndsAreWritten(h', who, next.actors[who].record, last, end);
  }

  lemma LaunchSaysWhy(h: Host, who: Identity, last: Outcome, end: Host)
    requires Inv(h) && Finishes(h, who, last, end) && LaunchPc(h.actors[who])
    ensures end.record == Some(FinishedWith(h.record.value.(exitCode := Some(-1)), last.now, Some(GuardianSpawnFailed)))
    ensures h.guardians == 0
  {
    assert ActorOk(h, who);
    hide Inv, Core, Populated, ReadFrom;
  }

  lemma GuardianOwns(h: Host, who: Identity, last: Outcome, end: Host)
    requires Inv(h) && Finishes(h, who, last, end) && GuardianPc(h.actors[who])
    ensures h.record.value.guard == Some(who)
  {
    assert ActorOk(h, who);
    hide Inv, Core, Populated, ReadFrom, ReadyAt;
  }

  lemma MaintainSaysWhy(h: Host, who: Identity, last: Outcome, end: Host)
    requires Inv(h) && Finishes(h, who, last, end) && MaintainPc(h.actors[who])
    ensures end.record == Some(FinishedWith(h.record.value.(exitCode := Some(-1)), last.now, Some(GuardianLost)))
    ensures h.record.value.guard.Some? && !Alive(h, h.record.value.guard)
  {
    assert ActorOk(h, who);
    hide Inv, Core, Populated, ReadFrom;
  }

  lemma InspectFinishesNothing(h: Host, who: Identity, last: Outcome, end: Host)
    requires Finishes(h, who, last, end)
    ensures !InspectPc(h.actors[who])
  {
    hide LaunchStep, GuardianStep, MaintainStep, Populated, ReportAlive;
  }

  lemma SomeoneFinishes(h: Host, who: Identity, last: Outcome, end: Host)
    requires Finishes(h, who, last, end)
    ensures who in h.actors && (LaunchPc(h.actors[who]) || GuardianPc(h.actors[who]) || MaintainPc(h.actors[who])
                                || InspectPc(h.actors[who]))
  {
    hide LaunchStep, GuardianStep, MaintainStep, InspectStep;
  }

  /** Whoever finishes a host that its guardian does not: a launch that has none, or maintenance that finds it dead. */
  lemma OthersSayWhy(before: seq<Action>, h: Host, who: Identity, last: Outcome, end: Host)
    requires Reaches(before, h) && Finishes(h, who, last, end)
    ensures var r := h.record.value;
            || r.guard == Some(who)
            || (end.record == Some(FinishedWith(r.(exitCode := Some(-1)), last.now, Some(GuardianSpawnFailed)))
                && h.guardians == 0)
            || (end.record == Some(FinishedWith(r.(exitCode := Some(-1)), last.now, Some(GuardianLost)))
                && r.guard.Some? && !Alive(h, r.guard))
  {
    ReachableInv(before, h);
    SomeoneFinishes(h, who, last, end);
    InspectFinishesNothing(h, who, last, end);
    hide Inv, Finishes, Run;
    if LaunchPc(h.actors[who]) {
      LaunchSaysWhy(h, who, last, end);
    } else if GuardianPc(h.actors[who]) {
      GuardianOwns(h, who, last, end);
    } else {
      MaintainSaysWhy(h, who, last, end);
    }
  }

  // Where exit codes come from.

  /** A guardian sees its child exit with this code. */
  predicate SeesExit(h: Host, action: Action, c: int) {
    && action.Continue? && action.who in h.actors && h.actors[action.who].GuardianWatching?
    && action.outcome.exitCode == Some(c) && !action.outcome.fails
  }

  predicate Carries(pc: Pc, c: int) {
    && (pc.GuardianStopping? || pc.GuardianEmptied? || pc.MaintainOwned? || pc.MaintainReporting? || pc.MaintainEmptied?
        || pc.MaintainCompacting?)
    && pc.record.exitCode == Some(c)
  }

  ghost predicate Known(h: Host, c: int) {
    || (h.record.Some? && h.record.value.exitCode == Some(c))
    || exists who <- h.actors :: Carries(h.actors[who], c)
  }

  lemma LaunchLearnsNothing(h: Host, who: Identity, o: Outcome, c: int)
    requires AllTold(h) && who in h.actors && LaunchPc(h.actors[who]) && LaunchStep(h, who, h.actors[who], o).Some?
    requires c != -1 && Known(LaunchStep(h, who, h.actors[who], o).value, c)
    ensures Known(h, c)
  {
    assert CopyTold(h.actors[who]);
    hide AllTold, Populated;
  }

  lemma GuardianLearns(h: Host, who: Identity, o: Outcome, c: int)
    requires AllTold(h) && who in h.actors && GuardianPc(h.actors[who]) && GuardianStep(h, who, h.actors[who], o).Some?
    requires c != -1 && Known(GuardianStep(h, who, h.actors[who], o).value, c)
    ensures Known(h, c) || SeesExit(h, Continue(who, o), c)
  {
    assert CopyTold(h.actors[who]);
    assert Carries(h.actors[who], c) ==> Known(h, c);
    hide AllTold, Populated, ReadyAt, Unclaimed;
  }

  lemma MaintainLearnsNothing(h: Host, who: Identity, o: Outcome, c: int)
    requires who in h.actors && MaintainPc(h.actors[who]) && MaintainStep(h, who, h.actors[who], o).Some?
    requires c != -1 && Known(MaintainStep(h, who, h.actors[who], o).value, c)
    ensures Known(h, c)
  {
    assert Carries(h.actors[who], c) ==> Known(h, c);
    hide Populated, ReadyAt, Alive;
  }

  lemma StepLearns(h: Host, action: Action, c: int)
    requires AllTold(h) && Step(h, action).Some? && c != -1 && Known(Step(h, action).value, c)
    ensures Known(h, c) || SeesExit(h, action, c)
  {
    hide LaunchStep, GuardianStep, MaintainStep, Populated, Alive, ReportAlive, AllTold;
    if action.Continue? {
      var who, o := action.who, action.outcome;
      if LaunchPc(h.actors[who]) {
        hide Known;
        LaunchLearnsNothing(h, who, o, c);
      } else if GuardianPc(h.actors[who]) {
        hide Known;
        GuardianLearns(h, who, o, c);
      } else if MaintainPc(h.actors[who]) {
        hide Known;
        MaintainLearnsNothing(h, who, o, c);
      }
    }
  }

  /** Somewhere in the run a guardian saw its child exit with this code. */
  ghost predicate Seen(actions: seq<Action>, c: int) {
    exists k, h :: 0 <= k < |actions| && Reaches(actions[..k], h) && SeesExit(h, actions[k], c)
  }

  lemma {:induction false} KnownIsSeen(actions: seq<Action>, h: Host, c: int)
    requires Reaches(actions, h) && Known(h, c) && c != -1
    ensures Seen(actions, c)
  {
    if actions != [] {
      var n := |actions| - 1;
      var g := PrefixReaches(actions, h);
      EmptyIsTold();
      RunKeepsTold(EMPTY_HOST, actions[..n]);
      StepLearns(g, actions[n], c);
      hide Run, Step, Known, SeesExit, AllTold;
      if !SeesExit(g, actions[n], c) {
        KnownIsSeen(actions[..n], g, c);
        var k, x :| 0 <= k < n && Reaches(actions[..n][..k], x) && SeesExit(x, actions[..n][k], c);
        assert actions[..n][..k] == actions[..k];
      }
    }
  }

  lemma PrefixReaches(actions: seq<Action>, h: Host) returns (g: Host)
    requires Reaches(actions, h) && actions != []
    ensures Reaches(actions[..|actions| - 1], g) && Step(g, actions[|actions| - 1]) == Some(h)
  {
    var n := |actions| - 1;
    PrefixRuns(EMPTY_HOST, actions, n);
    g := Run(EMPTY_HOST, actions[..n]).value;
    hide Step;
    assert actions == actions[..n] + [actions[n]];
    RunExtends(EMPTY_HOST, actions[..n], actions[n]);
  }

  lemma {:induction false} PrefixRuns(h: Host, actions: seq<Action>, n: nat)
    requires Run(h, actions).Some? && n <= |actions|
    ensures Run(h, actions[..n]).Some?
    decreases n
  {
    hide Step;
    if n > 0 {
      assert actions[..n][1..] == actions[1..][..n - 1] && actions[..n][0] == actions[0];
      PrefixRuns(Step(h, actions[0]).value, actions[1..], n - 1);
    }
  }

  /** No host is said to have ended with a code, success included, that no guardian saw its child exit with. */
  lemma CodesAreSeen(actions: seq<Action>, h: Host)
    requires Reaches(actions, h) && h.record.Some? && h.record.value.exitCode.Some?
    ensures h.record.value.exitCode == Some(-1) || Seen(actions, h.record.value.exitCode.value)
  {
    hide Seen, Run;
    if h.record.value.exitCode != Some(-1) {
      KnownIsSeen(actions, h, h.record.value.exitCode.value);
    }
  }

  // The child that is recorded is the one that was spawned.

  /** The guardian has spawned this child, and has recorded nothing else; or it is past that, or gone for good. */
  predicate Spawned(h: Host, who: Identity, record: Record, child: Identity) {
    && who < h.nextIdentity
    && (who in h.actors ==>
          || h.actors[who] == GuardianSpawned(record, child) || h.actors[who].GuardianWatching?
          || h.actors[who].GuardianStopping? || h.actors[who].GuardianEmptied? || h.actors[who].GuardianEnded?)
  }

  lemma LaunchKeepsSpawned(h: Host, actor: Identity, o: Outcome, who: Identity, record: Record, child: Identity)
    requires Spawned(h, who, record, child) && actor in h.actors && LaunchPc(h.actors[actor])
    requires LaunchStep(h, actor, h.actors[actor], o).Some?
    ensures Spawned(LaunchStep(h, actor, h.actors[actor], o).value, who, record, child)
  {
    hide Populated, SpawnFailed;
  }

  lemma GuardianKeepsSpawned(h: Host, actor: Identity, o: Outcome, who: Identity, record: Record, child: Identity)
    requires Spawned(h, who, record, child) && actor in h.actors && GuardianPc(h.actors[actor])
    requires GuardianStep(h, actor, h.actors[actor], o).Some?
    ensures Spawned(GuardianStep(h, actor, h.actors[actor], o).value, who, record, child)
  {
    hide Populated, ReadyAt, Unclaimed, StartFailed, Started, Finished;
  }

  lemma MaintainKeepsSpawned(h: Host, actor: Identity, o: Outcome, who: Identity, record: Record, child: Identity)
    requires Spawned(h, who, record, child) && actor in h.actors && MaintainPc(h.actors[actor])
    requires MaintainStep(h, actor, h.actors[actor], o).Some?
    ensures Spawned(MaintainStep(h, actor, h.actors[actor], o).value, who, record, child)
  {
    hide Populated, Alive, Lost, Reconciled, Compacted;
  }

  lemma StepKeepsSpawned(h: Host, action: Action, who: Identity, record: Record, child: Identity)
    requires Spawned(h, who, record, child) && Step(h, action).Some?
    ensures Spawned(Step(h, action).value, who, record, child)
  {
    hide LaunchStep, GuardianStep, MaintainStep, Populated, ReportAlive, Alive;
    if action.Continue? {
      var actor, o := action.who, action.outcome;
      if LaunchPc(h.actors[actor]) {
        LaunchKeepsSpawned(h, actor, o, who, record, child);
      } else if GuardianPc(h.actors[actor]) {
        GuardianKeepsSpawned(h, actor, o, who, record, child);
      } else if MaintainPc(h.actors[actor]) {
        MaintainKeepsSpawned(h, actor, o, who, record, child);
      }
    }
  }

  lemma {:induction false} RunKeepsSpawned(h: Host, actions: seq<Action>, who: Identity, record: Record,
      child: Identity)
    requires Spawned(h, who, record, child) && Run(h, actions).Some?
    ensures Spawned(Run(h, actions).value, who, record, child)
    decreases |actions|
  {
    hide Step, Spawned;
    if actions != [] {
      StepKeepsSpawned(h, actions[0], who, record, child);
      RunKeepsSpawned(Step(h, actions[0]).value, actions[1..], who, record, child);
    }
  }

  /** A claim adds the guardian to the reservation and changes nothing else of it. */
  lemma ClaimIsRecorded(before: seq<Action>, h: Host, who: Identity, o: Outcome)
    requires Reaches(before, h) && who in h.actors && h.actors[who].GuardianClaiming?
    ensures h.record.Some? && Unclaimed(h.record.value) && Step(h, Continue(who, o)).Some?
    ensures Step(h, Continue(who, o)).value.record == Some(h.record.value.(guard := Some(who)))
  {
    ReachableInv(before, h);
    assert ActorOk(h, who);
  }

  /**
   In any run: a guardian that spawns a child and later records it, records that very child, as far as it could be
   identified, in the record it had claimed.
   */
  lemma SpawnIsRecorded(before: seq<Action>, h: Host, who: Identity, spawn: Outcome, during: seq<Action>, h': Host,
                        note: Outcome)
    requires Reaches(before, h) && who in h.actors && h.actors[who].GuardianClaimed?
    requires Run(h, [Continue(who, spawn)] + during) == Some(h')
    requires who in h'.actors && h'.actors[who].GuardianSpawned? && !note.fails
    ensures var child, noted := h.nextIdentity, Step(h', Continue(who, note));
            && h.record.Some? && noted.Some?
            && Step(h, Continue(who, spawn)).value.members == h.members + {child}
            && noted.value.record == Some(h.record.value.(
                 child := if note.identified then Some(child) else None, state := Running,
                 lifecycle := h.record.value.lifecycle.(startedAt := Some(note.now))))
  {
    ReachableInv(before, h);
    assert ActorOk(h, who);
    var next := Step(h, Continue(who, spawn)).value;
    assert ([Continue(who, spawn)] + during)[1..] == during;
    SpawnOrStop(h, who, spawn);
    var record := h.actors[who].record;
    if next.actors[who].GuardianStopping? {
      RunKeepsEnds(next, during, who, next.actors[who].record);
      assert false;
    }
    RunKeepsSpawned(next, during, who, record, h.nextIdentity);
    hide Inv, Core, ReadFrom, Run;
  }

  lemma SpawnOrStop(h: Host, who: Identity, o: Outcome)
    requires who in h.actors && who < h.nextIdentity && h.actors[who].GuardianClaimed?
    ensures var next, record := Step(h, Continue(who, o)), h.actors[who].record;
            && next.Some? && who in next.value.actors
            && if next.value.actors[who].GuardianStopping? then Ends(next.value, who, next.value.actors[who].record)
               else Spawned(next.value, who, record, h.nextIdentity)
                    && next.value.members == h.members + {h.nextIdentity}
  {
  }

  /** While it watches, a guardian records when its child became ready, from evidence that names that child. */
  lemma ReadinessIsRecorded(before: seq<Action>, h: Host, who: Identity, o: Outcome)
    requires Reaches(before, h) && who in h.actors && h.actors[who].GuardianWatching? && !o.fails
    ensures h.record.Some? && Step(h, Continue(who, o)).Some?
    ensures var r, readyAt := h.record.value, h.record.value.lifecycle.readyAt;
            Step(h, Continue(who, o)).value.record == Some(r.(lifecycle := r.lifecycle.(readyAt :=
              if readyAt.None? && o.ready.Evidence? && r.child == Some(o.ready.child) then Some(o.ready.at)
              else readyAt)))
  {
    ReachableInv(before, h);
    assert ActorOk(h, who);
    hide Inv, Core, ReadFrom, Run;
  }

  // A loss that is recorded is real.

  ghost predicate LossReal(h: Host) {
    h.record.Some? && h.record.value.lifecycle.reason == Some(GuardianLost)
    ==> !Unclaimed(h.record.value) && NoGuardian(h)
  }

  lemma LaunchKeepsLoss(h: Host, who: Identity, o: Outcome)
    requires AllTold(h) && who in h.actors && LaunchPc(h.actors[who]) && LaunchStep(h, who, h.actors[who], o).Some?
    ensures var next := LaunchStep(h, who, h.actors[who], o).value;
            next.record == h.record || next.record.value.lifecycle.reason != Some(GuardianLost)
  {
    assert CopyTold(h.actors[who]);
    hide AllTold, Populated;
  }

  lemma GuardianKeepsLoss(h: Host, who: Identity, o: Outcome)
    requires AllTold(h) && who in h.actors && GuardianPc(h.actors[who]) && GuardianStep(h, who, h.actors[who], o).Some?
    ensures var next := GuardianStep(h, who, h.actors[who], o).value;
            next.record == h.record || next.record.value.lifecycle.reason != Some(GuardianLost)
  {
    assert CopyTold(h.actors[who]);
    hide AllTold, Populated, ReadyAt, Unclaimed;
  }

  lemma MaintainKeepsLoss(h: Host, who: Identity, o: Outcome)
    requires Inv(h) && AllTold(h) && who in h.actors && MaintainPc(h.actors[who])
    requires MaintainStep(h, who, h.actors[who], o).Some?
    ensures var next := MaintainStep(h, who, h.actors[who], o).value;
            && (next.record.Some? ==> h.record.Some?)
            && (next.record.Some? && next.record.value.lifecycle.reason == Some(GuardianLost)
                ==> h.record.value.lifecycle.reason == Some(GuardianLost)
                    || (h.record.value.guard.Some? && NoGuardian(h)))
  {
    assert ActorOk(h, who) && CopyTold(h.actors[who]);
    hide AllTold, Populated, ReadyAt, ReadFrom;
  }

  lemma StepKeepsLoss(h: Host, action: Action)
    requires Inv(h) && AllTold(h) && LossReal(h) && Step(h, action).Some?
    ensures LossReal(Step(h, action).value)
  {
    StepKeepsInv(h, action);
    hide LaunchStep, GuardianStep, MaintainStep, Inv, AllTold, Populated, Alive, ReportAlive;
    if action.Continue? {
      var who, o := action.who, action.outcome;
      if LaunchPc(h.actors[who]) {
        LaunchKeepsLoss(h, who, o);
      } else if GuardianPc(h.actors[who]) {
        GuardianKeepsLoss(h, who, o);
      } else if MaintainPc(h.actors[who]) {
        MaintainKeepsLoss(h, who, o);
      }
    }
  }

  lemma {:induction false} RunKeepsLoss(h: Host, actions: seq<Action>)
    requires Inv(h) && AllTold(h) && LossReal(h) && Run(h, actions).Some?
    ensures LossReal(Run(h, actions).value)
    decreases |actions|
  {
    hide Step, Inv, AllTold, LossReal, Advances;
    if actions != [] {
      StepKeepsInv(h, actions[0]);
      StepKeepsTold(h, actions[0]);
      StepKeepsLoss(h, actions[0]);
      RunKeepsLoss(Step(h, actions[0]).value, actions[1..]);
    }
  }

  /** Where a record says that its guardian is lost, no guardian of the host lives, then or later. */
  lemma LossIsReal(actions: seq<Action>, h: Host)
    requires Reaches(actions, h) && h.record.Some? && h.record.value.lifecycle.reason == Some(GuardianLost)
    ensures h.guardians == 0 || h.lastGuardian !in h.actors
  {
    ReachableInv([], EMPTY_HOST);
    EmptyIsTold();
    hide Run, Inv, AllTold;
    RunKeepsLoss(EMPTY_HOST, actions);
  }

  lemma ReachesFurther(before: seq<Action>, h: Host, actions: seq<Action>, h': Host, action: Action, end: Host)
    requires Reaches(before, h) && Run(h, actions) == Some(h') && Step(h', action) == Some(end)
    ensures Reaches(before + actions + [action], end)
  {
    RunJoins(EMPTY_HOST, before, actions);
    hide Step;
    RunExtends(EMPTY_HOST, before + actions, action);
  }

  lemma {:induction false} RunJoins(h: Host, a: seq<Action>, b: seq<Action>)
    requires Run(h, a).Some?
    ensures Run(h, a + b) == Run(Run(h, a).value, b)
    decreases |a|
  {
    hide Step;
    if a == [] {
      assert a + b == b;
    } else {
      assert (a + b)[1..] == a[1..] + b;
      RunJoins(Step(h, a[0]).value, a[1..], b);
    }
  }
}
