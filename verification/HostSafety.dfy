/** What the ownership protocol guarantees about one host, over all runs. */
module HostSafety {
  import opened Wrappers
  import opened HostRecords
  import opened HostProtocol
  import opened HostInvariant

  lemma {:induction false} RunKeepsInv(h: Host, actions: seq<Action>)
    requires Inv(h) && Run(h, actions).Some?
    ensures Inv(Run(h, actions).value)
    ensures h.record.Some? ==> Run(h, actions).value.record.Some?
    ensures h.spawned <= Run(h, actions).value.spawned
    ensures h.record.Some? && h.record.value.state == Exited ==> Run(h, actions).value.record.value.state == Exited
    ensures Contained(h) ==> Contained(Run(h, actions).value)
    ensures Contained(h) && Gone(h) ==> Gone(Run(h, actions).value)
    decreases |actions|
  {
    if actions != [] {
      StepKeepsInv(h, actions[0]);
      RunKeepsInv(Step(h, actions[0]).value, actions[1..]);
    }
  }

  ghost predicate Reaches(actions: seq<Action>, h: Host) {
    Run(EMPTY_HOST, actions) == Some(h)
  }

  lemma ReachableInv(actions: seq<Action>, h: Host)
    requires Reaches(actions, h)
    ensures Inv(h)
  {
    assert Inv(EMPTY_HOST);
    RunKeepsInv(EMPTY_HOST, actions);
  }

  /** However launches, guardians, maintenance and crashes interleave, one identity runs one invocation. */
  lemma SpawnedAtMostOnce(actions: seq<Action>, h: Host)
    requires Reaches(actions, h)
    ensures h.spawned <= 1 && h.guardians <= 1
  {
    ReachableInv(actions, h);
  }

  /** Two actors are never inside the lock together. */
  lemma LockIsExclusive(actions: seq<Action>, h: Host, one: Identity, other: Identity)
    requires Reaches(actions, h)
    requires one in h.actors && HoldsLock(h.actors[one])
    requires other in h.actors && HoldsLock(h.actors[other])
    ensures one == other
  {
    ReachableInv(actions, h);
    assert ActorOk(h, one) && ActorOk(h, other);
  }

  /** No write makes a claimed or finished record claimable again, and no step deletes it. */
  lemma NeverClaimableAgain(actions: seq<Action>, h: Host, action: Action)
    requires Reaches(actions, h) && Step(h, action).Some?
    requires h.record.Some? && !Unclaimed(h.record.value)
    ensures Step(h, action).value.record.Some? && !Unclaimed(Step(h, action).value.record.value)
  {
    ReachableInv(actions, h);
    StepKeepsInv(h, action);
    if action.Continue? {
      assert ActorOk(h, action.who);
    }
  }

  /** Exited is never left. With a cgroup it means empty, now and at every later moment. */
  lemma ExitedIsFinal(before: seq<Action>, h: Host, after: seq<Action>)
    requires Reaches(before, h) && Run(h, after).Some?
    requires h.record.Some? && h.record.value.state == Exited
    ensures Run(h, after).value.record.Some? && Run(h, after).value.record.value.state == Exited
    ensures Contained(h) ==> h.members == {} && Run(h, after).value.members == {}
  {
    ReachableInv(before, h);
    RunKeepsInv(h, after);
  }

  /** An actor that has just written Exited over a record of a contained host. */
  ghost predicate WritesExited(h: Host, next: Option<Host>) {
    && Contained(h) && h.record.value.state != Exited
    && next.Some? && next.value.record.Some? && next.value.record.value.state == Exited
  }

  lemma LaunchWritesExited(h: Host, who: Identity, o: Outcome)
    requires Inv(h) && who in h.actors && LaunchPc(h.actors[who])
    requires WritesExited(h, LaunchStep(h, who, h.actors[who], o))
    ensures h.actors[who].LaunchCleaned? && h.members == {}
  {
    assert ActorOk(h, who);
  }

  lemma GuardianWritesExited(h: Host, who: Identity, o: Outcome)
    requires Inv(h) && who in h.actors && GuardianPc(h.actors[who])
    requires WritesExited(h, GuardianStep(h, who, h.actors[who], o))
    ensures h.actors[who].GuardianEmptied? && h.members == {}
  {
    assert ActorOk(h, who);
  }

  lemma MaintainWritesExited(h: Host, who: Identity, o: Outcome)
    requires Inv(h) && who in h.actors && MaintainPc(h.actors[who])
    requires WritesExited(h, MaintainStep(h, who, h.actors[who], o))
    ensures h.actors[who].MaintainEmptied? && h.members == {}
  {
    assert ActorOk(h, who);
  }

  /** Only three places write Exited, and each has seen the group empty and removed it first. */
  lemma ExitedIsWrittenWhenEmpty(actions: seq<Action>, h: Host, action: Action)
    requires Reaches(actions, h) && Step(h, action).Some?
    requires h.record.Some? && h.record.value.state != Exited
    requires Contained(Step(h, action).value) && Step(h, action).value.record.value.state == Exited
    ensures action.Continue? && action.who in h.actors
    ensures h.actors[action.who].LaunchCleaned? || h.actors[action.who].GuardianEmptied?
            || h.actors[action.who].MaintainEmptied?
    ensures h.members == {}
  {
    ReachableInv(actions, h);
    StepKeepsInv(h, action);
    assert WritesExited(h, Step(h, action));
    hide Inv, Advances, WritesExited, LaunchStep, GuardianStep, MaintainStep, Run;
    if action.Continue? && action.who in h.actors {
      var who, pc := action.who, h.actors[action.who];
      if LaunchPc(pc) {
        LaunchWritesExited(h, who, action.outcome);
      } else if GuardianPc(pc) {
        GuardianWritesExited(h, who, action.outcome);
      } else if MaintainPc(pc) {
        MaintainWritesExited(h, who, action.outcome);
      }
    }
  }

  /** A not-alive verdict on a settled record is right when given, and stays right for ever. */
  lemma SettledVerdictIsFinal(before: seq<Action>, h: Host, reader: Identity, record: Record, after: seq<Action>)
    requires Reaches(before, h) && Run(h, after).Some?
    requires reader in h.actors && h.actors[reader] == InspectDone(record, false)
    requires Contained(h) && Settled(record)
    ensures h.members == {} && Run(h, after).value.members == {}
    ensures Run(h, after).value.spawned == h.spawned
    ensures Gone(Run(h, after).value)
  {
    ReachableInv(before, h);
    assert ActorOk(h, reader);
    RunKeepsInv(h, after);
    GoneSpawnsNothing(h, after);
  }

  lemma {:induction false} GoneSpawnsNothing(h: Host, actions: seq<Action>)
    requires Inv(h) && Contained(h) && Gone(h) && Run(h, actions).Some?
    ensures Run(h, actions).value.spawned == h.spawned
    decreases |actions|
  {
    if actions != [] {
      StepKeepsInv(h, actions[0]);
      if actions[0].Continue? {
        assert ActorOk(h, actions[0].who);
      }
      GoneSpawnsNothing(Step(h, actions[0]).value, actions[1..]);
    }
  }

  // The verdict on an unsettled record.

  /** Some run gives a not-alive verdict on this record while the host is not over. */
  ghost predicate VerdictMayBeWrong(record: Record) {
    exists actions, h, reader ::
      && Reaches(actions, h)
      && reader in h.actors
      && h.actors[reader] == InspectDone(record, false)
      && Contained(h)
      && !Gone(h)
  }

  /** Some run has an inspection of a contained host reading this record. */
  ghost predicate Readable(record: Record) {
    exists actions, h, reader ::
      && Reaches(actions, h)
      && reader in h.actors
      && h.actors[reader] == InspectRead(record)
      && Contained(h)
  }

  lemma {:induction false} RunExtends(h: Host, actions: seq<Action>, action: Action)
    requires Run(h, actions).Some?
    ensures Run(h, actions + [action]) == Step(Run(h, actions).value, action)
    decreases |actions|
  {
    if actions == [] {
      var next := Step(h, action);
      assert ([action])[1..] == [];
      assert next.Some? ==> Run(next.value, []) == next;
    } else {
      assert (actions + [action])[1..] == actions[1..] + [action];
      RunExtends(Step(h, actions[0]).value, actions[1..], action);
    }
  }

  /** Continues a known run by one step. */
  lemma Extend(actions: seq<Action>, h: Host, action: Action) returns (actions': seq<Action>, h': Host)
    requires Reaches(actions, h) && Step(h, action).Some?
    ensures Reaches(actions', h') && Step(h, action) == Some(h')
  {
    RunExtends(EMPTY_HOST, actions, action);
    actions', h' := actions + [action], Step(h, action).value;
  }

  /** The guardian spawns its child and dies between the two looks of an inspection. */
  lemma UnsettledVerdictRaces(actions: seq<Action>, h: Host, guardian: Identity, o: Outcome)
    returns (actions': seq<Action>, h': Host, reader: Identity)
    requires Reaches(actions, h)
    requires guardian in h.actors && h.actors[guardian].GuardianClaimed?
    requires Contained(h) && h.groupExists && !o.fails && h.members == {}
    ensures Reaches(actions', h')
    ensures reader in h'.actors && h'.actors[reader] == InspectDone(h.record.value, false)
    ensures h'.members != {} && Contained(h')
  {
    ReachableInv(actions, h);
    assert ActorOk(h, guardian);
    reader := h.nextIdentity;
    assert ActorOk(h, reader);
    hide Reaches, Inv, ActorOk, Core;
    actions', h' := Extend(actions, h, Inspect);
    actions', h' := Extend(actions', h', Continue(reader, o));
    assert h'.actors[reader] == InspectSeen(h.record.value, false);
    actions', h' := RaceEnds(actions', h', guardian, reader, o);
  }

  lemma RaceEnds(actions: seq<Action>, h: Host, guardian: Identity, reader: Identity, o: Outcome)
    returns (actions': seq<Action>, h': Host)
    requires Reaches(actions, h) && Contained(h) && h.record.value.guard == Some(guardian)
    requires h.record.value.group && h.groupExists && !o.fails
    requires guardian in h.actors && h.actors[guardian] == GuardianClaimed(h.record.value)
    requires reader in h.actors && h.actors[reader] == InspectSeen(h.record.value, false)
    requires h.record.value.state != Exited
    ensures Reaches(actions', h')
    ensures reader in h'.actors && h'.actors[reader] == InspectDone(h.record.value, false)
    ensures h'.members != {} && Contained(h')
  {
    hide Reaches;
    actions', h' := Extend(actions, h, Continue(guardian, o));
    assert h.nextIdentity in h'.members;
    actions', h' := Extend(actions', h', Vanish(guardian));
    actions', h' := Extend(actions', h', Continue(reader, o));
  }

  /** Launches that give up at once move the next identity on. */
  lemma {:induction false} ReachIdentity(n: nat) returns (actions: seq<Action>)
    ensures Reaches(actions, EMPTY_HOST.(nextIdentity := n))
  {
    if n == 0 {
      actions := [];
    } else {
      var actions0 := ReachIdentity(n - 1);
      var h := EMPTY_HOST.(nextIdentity := n - 1);
      var actions1, h1 := Extend(actions0, h, Launch);
      var actions2, h2 := Extend(actions1, h1, Vanish(n - 1));
      assert h2.actors == map[];
      actions := actions2;
    }
  }

  /** Every claim has a run that writes it, with its guardian about to spawn. */
  lemma ReachClaim(record: Record, o: Outcome) returns (actions: seq<Action>, h: Host)
    requires Reservation(record) && record.isolation == Cgroup && record.lifecycle.reason.None?
    requires record.guard.Some? && record.guard.value >= 1
    requires o.isolation == Cgroup && o.environment == record.environment && !o.fails
    requires o.now == record.lifecycle.createdAt && o.readinessRequired == record.lifecycle.readinessRequired
    ensures Reaches(actions, h)
    ensures h.record == Some(record) && h.groupExists && h.members == {}
    ensures record.guard.value in h.actors && h.actors[record.guard.value] == GuardianClaimed(record)
  {
    hide Run;
    var guardian := record.guard.value;
    var launcher := guardian - 1;
    var reserved := record.(guard := None);
    actions := ReachIdentity(launcher);
    h := EMPTY_HOST.(nextIdentity := launcher);
    actions, h := Extend(actions, h, Launch);
    actions, h := Extend(actions, h, Continue(launcher, o));
    actions, h := Extend(actions, h, Continue(launcher, o));
    actions, h := Extend(actions, h, Continue(launcher, o));
    assert h.actors[launcher] == LaunchGrouped(reserved);
    actions, h := Extend(actions, h, Continue(launcher, o));
    actions, h := Extend(actions, h, Continue(launcher, o));
    assert h.actors[guardian] == GuardianStarted && h.holder.None?;
    actions, h := GuardianClaims(actions, h, guardian, reserved, o);
  }

  lemma GuardianClaims(actions: seq<Action>, h: Host, guardian: Identity, reserved: Record, o: Outcome)
    returns (actions': seq<Action>, h': Host)
    requires Reaches(actions, h) && h.record == Some(reserved) && Unclaimed(reserved) && h.holder.None?
    requires guardian in h.actors && h.actors[guardian] == GuardianStarted
    ensures Reaches(actions', h')
    ensures h'.record == Some(reserved.(guard := Some(guardian)))
    ensures h'.groupExists == h.groupExists && h'.members == h.members
    ensures guardian in h'.actors && h'.actors[guardian] == GuardianClaimed(reserved.(guard := Some(guardian)))
  {
    actions', h' := Extend(actions, h, Continue(guardian, o));
    actions', h' := Extend(actions', h', Continue(guardian, o));
    actions', h' := Extend(actions', h', Continue(guardian, o));
  }

  lemma WrongMeansUnsettled(record: Record)
    requires VerdictMayBeWrong(record)
    ensures record.guard.Some? && !Settled(record)
  {
    var actions, h, reader :| Reaches(actions, h) && reader in h.actors
      && h.actors[reader] == InspectDone(record, false)
                              && Contained(h) && !Gone(h);
    ReachableInv(actions, h);
    hide Reaches, Core;
    assert ActorOk(h, reader);
  }

  lemma UnsettledMayBeWrong(record: Record)
    requires Readable(record) && record.guard.Some? && !Settled(record)
    ensures VerdictMayBeWrong(record)
  {
    var actions0, h0, reader0 :| Reaches(actions0, h0) && reader0 in h0.actors
      && h0.actors[reader0] == InspectRead(record)
                                 && Contained(h0);
    ReachableInv(actions0, h0);
    hide Reaches, Core;
    assert ActorOk(h0, reader0);
    ClaimMayBeWrong(record);
  }

  lemma ClaimMayBeWrong(record: Record)
    requires Reservation(record) && record.isolation == Cgroup && record.lifecycle.reason.None?
    requires record.guard.Some? && record.guard.value >= 1
    ensures VerdictMayBeWrong(record)
  {
    hide Reaches;
    var o := Outcome(record.lifecycle.createdAt, false, false, false, Cgroup, record.environment,
                     record.lifecycle.readinessRequired, None, NoEvidence, NoStop, false);
    var actions1, h1 := ReachClaim(record, o);
    var actions2, h2, reader2 := UnsettledVerdictRaces(actions1, h1, record.guard.value, o);
    assert !Gone(h2);
  }

  /**
   For every record an inspection can read: a not-alive verdict on it is right in all runs unless the record is a
   claimed reservation that has not been settled. `describe` looks at the processes before it looks at the guardian,
   so a guardian that spawns and dies in between leaves a living child behind a verdict that says it is gone.
   */
  lemma VerdictTrustworthyIffSettled(record: Record)
    requires Readable(record)
    ensures VerdictMayBeWrong(record) <==> record.guard.Some? && !Settled(record)
  {
    hide Readable, VerdictMayBeWrong;
    if VerdictMayBeWrong(record) {
      WrongMeansUnsettled(record);
    }
    if record.guard.Some? && !Settled(record) {
      UnsettledMayBeWrong(record);
    }
  }
}
