/**
 What the ownership protocol can always get done: no state is reached from which a host could not be brought to its end.
*/
module HostProgress {
  import opened Wrappers
  import opened HostRecords
  import opened HostProtocol
  import opened HostInvariant
  import opened HostSafety
  import opened HostOutcomes

  lemma RunOne(h: Host, action: Action, rest: seq<Action>)
    requires Step(h, action).Some?
    ensures Run(h, [action] + rest) == Run(Step(h, action).value, rest)
  {
    hide Step;
    assert ([action] + rest)[1..] == rest;
  }

  lemma RunTwo(h: Host, a: Action, b: Action, rest: seq<Action>)
    requires Step(h, a).Some? && Step(Step(h, a).value, b).Some?
    ensures Run(h, [a, b] + rest) == Run(Step(Step(h, a).value, b).value, rest)
  {
    hide Step;
    RunOne(h, a, [b] + rest);
    RunOne(Step(h, a).value, b, rest);
    assert [a] + ([b] + rest) == [a, b] + rest;
  }

  lemma RunNothing(h: Host)
    ensures Run(h, []) == Some(h)
  {
  }

  lemma GuardIsOlder(h: Host)
    requires Inv(h) && h.record.Some?
    ensures h.record.value.guard.Some? ==> h.record.value.guard.value < h.nextIdentity
    ensures h.nextIdentity !in h.actors
  {
    assert ActorOk(h, h.nextIdentity);
  }

  /** The actor is in maintenance of the host as it was. */
  predicate InMaintenance(h: Host, g: Host, who: Identity, pc: Pc) {
    && who in g.actors && g.actors[who] == pc && g.record == h.record && g.members == h.members
    && g.groupExists == h.groupExists && forall a | a in g.actors && a != who :: a in h.actors
  }

  lemma MaintenanceLocks(h: Host, o: Outcome) returns (g: Host)
    requires h.record.Some? && h.holder.None? && !Alive(h, h.record.value.guard)
    ensures Step(h, Maintain).Some? && Step(Step(h, Maintain).value, Continue(h.nextIdentity, o)) == Some(g)
    ensures InMaintenance(h, g, h.nextIdentity, MaintainLocked)
  {
    hide LaunchStep, GuardianStep, InspectStep;
    g := Step(Step(h, Maintain).value, Continue(h.nextIdentity, o)).value;
  }

  lemma MaintenanceReads(h: Host, g: Host, who: Identity, o: Outcome) returns (owned: Host)
    requires InMaintenance(h, g, who, MaintainLocked)
    requires h.record.Some? && !Alive(h, h.record.value.guard) && h.record.value.guard != Some(who)
    ensures Step(g, Continue(who, o)) == Some(owned)
    ensures InMaintenance(h, owned, who, MaintainOwned(h.record.value))
  {
    hide LaunchStep, GuardianStep, InspectStep, Populated;
    owned := Step(g, Continue(who, o)).value;
  }

  /** A new actor takes the lock of a host whose guardian is gone, and reads its record. */
  lemma MaintenanceEnters(h: Host, o: Outcome, rest: seq<Action>) returns (owned: Host)
    requires Inv(h) && h.record.Some? && h.holder.None? && !Alive(h, h.record.value.guard)
    ensures InMaintenance(h, owned, h.nextIdentity, MaintainOwned(h.record.value))
    ensures var again := Continue(h.nextIdentity, o); Run(h, [Maintain, again] + ([again] + rest)) == Run(owned, rest)
  {
    var who, again := h.nextIdentity, Continue(h.nextIdentity, o);
    GuardIsOlder(h);
    hide Inv, Run, Step, InMaintenance;
    var g := MaintenanceLocks(h, o);
    owned := MaintenanceReads(h, g, who, o);
    RunTwo(h, Maintain, again, [again] + rest);
    RunOne(g, again, rest);
  }

  lemma OrphanStep(h: Host, owned: Host, who: Identity, o: Outcome) returns (end: Host)
    requires Contained(h) && InMaintenance(h, owned, who, MaintainOwned(h.record.value))
    requires var r := h.record.value; r.state != Exited && r.group && r.guard.Some? && h.members == {}
    ensures Step(owned, Continue(who, o)).Some?
    ensures Step(Step(owned, Continue(who, o)).value, Continue(who, o)) == Some(end)
    ensures end.record == Some(FinishedWith(h.record.value.(exitCode := Some(-1)), o.now, Some(GuardianLost)))
  {
    hide LaunchStep, GuardianStep, InspectStep, ReadyAt;
    var emptied := Step(owned, Continue(who, o)).value;
    assert emptied.actors[who] == MaintainEmptied(h.record.value);
    end := Step(emptied, Continue(who, o)).value;
  }

  lemma UnfinishedHasGroup(h: Host)
    requires Inv(h) && Contained(h) && h.record.value.state != Exited
    ensures h.record.value.group
  {
  }

  /** Maintenance can always finish a contained host that lost its guardian and has no process left. */
  lemma OrphanCanBeFinished(before: seq<Action>, h: Host, o: Outcome) returns (actions: seq<Action>, end: Host)
    requires Reaches(before, h) && Contained(h) && h.holder.None?
    requires var r := h.record.value; r.state != Exited && r.guard.Some? && !Alive(h, r.guard) && h.members == {}
    ensures Run(h, actions) == Some(end)
    ensures end.record == Some(FinishedWith(h.record.value.(exitCode := Some(-1)), o.now, Some(GuardianLost)))
  {
    ReachableInv(before, h);
    UnfinishedHasGroup(h);
    var again := Continue(h.nextIdentity, o);
    actions := [Maintain, again] + ([again] + [again, again]);
    hide Inv, Run, Step, InMaintenance;
    var owned := MaintenanceEnters(h, o, [again, again]);
    end := OrphanStep(h, owned, h.nextIdentity, o);
    RunTwo(owned, again, again, []);
    assert [again, again] + [] == [again, again];
    RunNothing(end);
  }

  lemma ExpiredStep(h: Host, owned: Host, who: Identity, o: Outcome) returns (end: Host)
    requires Contained(h) && InMaintenance(h, owned, who, MaintainOwned(h.record.value)) && o.expired
    requires var r := h.record.value; r.state == Exited && Told(r) && !r.lifecycle.compacted && h.members == {}
    ensures Step(owned, Continue(who, o)).Some?
    ensures Step(Step(owned, Continue(who, o)).value, Continue(who, o)) == Some(end)
    ensures end.record.Some? && end.record.value.lifecycle.compacted && SaysTheSame(h.record.value, end.record.value)
  {
    hide LaunchStep, GuardianStep, InspectStep;
    var ready := Step(owned, Continue(who, o)).value;
    assert ready.actors[who] == MaintainCompacting(h.record.value);
    end := Step(ready, Continue(who, o)).value;
  }

  lemma FinishedIsEmpty(h: Host)
    requires Inv(h) && Contained(h) && h.record.value.state == Exited
    ensures h.members == {}
  {
  }

  /** Maintenance can always compact a finished contained host once it has expired. */
  lemma FinishedCanBeCompacted(before: seq<Action>, h: Host, o: Outcome) returns (actions: seq<Action>, end: Host)
    requires Reaches(before, h) && Contained(h) && h.holder.None? && o.expired
    requires var r := h.record.value; r.state == Exited && !Alive(h, r.guard)
    ensures Run(h, actions) == Some(end)
    ensures end.record.Some? && end.record.value.lifecycle.compacted && SaysTheSame(h.record.value, end.record.value)
  {
    ReachableInv(before, h);
    OutcomesAreTold(before, h);
    FinishedIsEmpty(h);
    var again := Continue(h.nextIdentity, o);
    hide Inv, Run, Step, InMaintenance, Told;
    if h.record.value.lifecycle.compacted {
      actions, end := [], h;
      RunNothing(h);
    } else {
      actions := [Maintain, again] + ([again] + [again, again]);
      var owned := MaintenanceEnters(h, o, [again, again]);
      end := ExpiredStep(h, owned, h.nextIdentity, o);
      RunTwo(owned, again, again, []);
      assert [again, again] + [] == [again, again];
      RunNothing(end);
    }
  }

  lemma ExitStep(h: Host, who: Identity, seen: Outcome, c: int) returns (e: Record, alone: Host)
    requires Inv(h) && who in h.actors && h.actors[who].GuardianWatching?
    requires seen.exitCode == Some(c) && !seen.fails
    ensures Step(h, Continue(who, seen)).Some?
    ensures Step(Step(h, Continue(who, seen)).value, ProcessesExit(h.members)) == Some(alone)
    ensures who in alone.actors && alone.actors[who] == GuardianStopping(e) && alone.members == {}
    ensures e.exitCode == Some(c)
  {
    assert ActorOk(h, who);
    hide Inv, Core, LaunchStep, MaintainStep, InspectStep, ReadyAt;
    var left := Step(h, Continue(who, seen)).value;
    e := left.actors[who].record;
    alone := Step(left, ProcessesExit(h.members)).value;
  }

  lemma FinishStep(alone: Host, who: Identity, e: Record, last: Outcome) returns (end: Host)
    requires who in alone.actors && alone.actors[who] == GuardianStopping(e) && alone.members == {}
    ensures Step(alone, Continue(who, last)).Some?
    ensures Step(Step(alone, Continue(who, last)).value, Continue(who, last)) == Some(end)
    ensures end.record.Some? && end.record.value.state == Exited && end.record.value.exitCode == e.exitCode
    ensures end.record.value.lifecycle.finishedAt == Some(last.now)
  {
    hide LaunchStep, MaintainStep, InspectStep, ReadyAt;
    var emptied := Step(alone, Continue(who, last)).value;
    assert emptied.actors[who] == GuardianEmptied(e);
    end := Step(emptied, Continue(who, last)).value;
  }

  /** A guardian that sees its child exit can always finish the host, once the other processes are gone too. */
  lemma ExitCanBeFinished(before: seq<Action>, h: Host, who: Identity, seen: Outcome, c: int, last: Outcome)
      returns (actions: seq<Action>, end: Host)
    requires Reaches(before, h) && who in h.actors && h.actors[who].GuardianWatching?
    requires seen.exitCode == Some(c) && !seen.fails
    ensures Run(h, actions) == Some(end)
    ensures end.record.Some? && end.record.value.state == Exited && end.record.value.exitCode == Some(c)
    ensures end.record.value.lifecycle.finishedAt == Some(last.now)
  {
    ReachableInv(before, h);
    var a, b, d := Continue(who, seen), ProcessesExit(h.members), Continue(who, last);
    hide Inv, Run, Step;
    actions := [a, b] + [d, d];
    var e, alone := ExitStep(h, who, seen, c);
    end := FinishStep(alone, who, e, last);
    RunTwo(h, a, b, [d, d]);
    RunTwo(alone, d, d, []);
    assert [d, d] + [] == [d, d];
    RunNothing(end);
  }
}
