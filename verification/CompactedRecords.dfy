/** What compaction relies on holds of every record that the ownership protocol can leave behind. */
module CompactedRecords {
  import opened Wrappers
  import opened HostRecords
  import opened HostProtocol
  import opened HostInvariant
  import opened HostSafety
  import opened HostOutcomes
  import Compaction

  /** What an actor is about to write over the record: only a finished one is ever compact, and it stays as it is. */
  predicate CopyOk(pc: Pc) {
    match pc
    case LaunchGrouped(record) => !record.lifecycle.compacted
    case LaunchReserved(record) => !record.lifecycle.compacted
    case LaunchFailed(record) => !record.lifecycle.compacted
    case LaunchCleaned(record) => !record.lifecycle.compacted
    case GuardianClaiming(record) => !record.lifecycle.compacted
    case GuardianClaimed(record) => !record.lifecycle.compacted
    case GuardianSpawned(record, _) => !record.lifecycle.compacted
    case GuardianWatching(record) => !record.lifecycle.compacted
    case GuardianStopping(record) => !record.lifecycle.compacted
    case GuardianEmptied(record) => !record.lifecycle.compacted
    case MaintainOwned(record) => Compaction.Sealed(record)
    case MaintainReporting(record) => !record.lifecycle.compacted
    case MaintainEmptied(record) => !record.lifecycle.compacted
    case MaintainCompacting(record) => record.state == Exited && !record.lifecycle.compacted
    case _ => true
  }

  ghost predicate AllSealed(h: Host) {
    && (h.record.Some? ==> Compaction.Sealed(h.record.value))
    && forall who <- h.actors :: CopyOk(h.actors[who])
  }

  lemma LaunchKeepsSealed(h: Host, who: Identity, o: Outcome)
    requires AllSealed(h) && who in h.actors && LaunchPc(h.actors[who]) && LaunchStep(h, who, h.actors[who], o).Some?
    ensures AllSealed(LaunchStep(h, who, h.actors[who], o).value)
  {
    hide Populated, ReadyAt, Alive, ReportAlive;
    assert CopyOk(h.actors[who]);
  }

  lemma GuardianKeepsSealed(h: Host, who: Identity, o: Outcome)
    requires AllSealed(h) && who in h.actors && GuardianPc(h.actors[who])
             && GuardianStep(h, who, h.actors[who], o).Some?
    ensures AllSealed(GuardianStep(h, who, h.actors[who], o).value)
  {
    hide Populated, ReadyAt, Alive, ReportAlive;
    assert CopyOk(h.actors[who]);
  }

  lemma MaintainKeepsSealed(h: Host, who: Identity, o: Outcome)
    requires AllSealed(h) && who in h.actors && MaintainPc(h.actors[who])
             && MaintainStep(h, who, h.actors[who], o).Some?
    ensures AllSealed(MaintainStep(h, who, h.actors[who], o).value)
  {
    hide Populated, ReadyAt, Alive, ReportAlive;
    assert CopyOk(h.actors[who]);
  }

  lemma InspectKeepsSealed(h: Host, who: Identity)
    requires AllSealed(h) && who in h.actors && InspectPc(h.actors[who]) && InspectStep(h, who, h.actors[who]).Some?
    ensures AllSealed(InspectStep(h, who, h.actors[who]).value)
  {
    hide Populated, ReadyAt, Alive, ReportAlive;
    assert CopyOk(h.actors[who]);
  }

  lemma ContinueKeepsSealed(h: Host, who: Identity, o: Outcome)
    requires AllSealed(h) && Step(h, Continue(who, o)).Some?
    ensures AllSealed(Step(h, Continue(who, o)).value)
  {
    hide AllSealed, LaunchStep, GuardianStep, MaintainStep, InspectStep;
    var pc := h.actors[who];
    if LaunchPc(pc) {
      LaunchKeepsSealed(h, who, o);
    } else if GuardianPc(pc) {
      GuardianKeepsSealed(h, who, o);
    } else if MaintainPc(pc) {
      MaintainKeepsSealed(h, who, o);
    } else {
      InspectKeepsSealed(h, who);
    }
  }

  lemma StepKeepsSealed(h: Host, action: Action)
    requires AllSealed(h) && Step(h, action).Some?
    ensures AllSealed(Step(h, action).value)
  {
    match action
    case Continue(who, o) => ContinueKeepsSealed(h, who, o);
    case _ =>
  }

  lemma {:induction false} RunKeepsSealed(h: Host, actions: seq<Action>)
    requires AllSealed(h) && Run(h, actions).Some?
    ensures AllSealed(Run(h, actions).value)
    decreases |actions|
  {
    hide Step, AllSealed;
    if actions != [] {
      StepKeepsSealed(h, actions[0]);
      RunKeepsSealed(Step(h, actions[0]).value, actions[1..]);
    }
  }

  lemma EmptyIsSealed()
    ensures AllSealed(EMPTY_HOST)
  {
  }

  lemma SealedIsSealed(h: Host)
    requires AllSealed(h)
    ensures h.record.Some? ==> Compaction.Sealed(h.record.value)
  {
  }

  /** A record that any run leaves, with whatever sidecars and time of writing. */
  ghost predicate Left(actions: seq<Action>, f: Compaction.Files) {
    exists h :: Reaches(actions, h) && h.record == Some(f.record)
  }

  /** However launches, guardians, maintenance and crashes interleave, a compact record has nothing more to lose. */
  lemma LeftIsSealed(actions: seq<Action>, f: Compaction.Files)
    requires Left(actions, f)
    ensures Compaction.Sealed(f.record)
  {
    hide Run, AllSealed;
    EmptyIsSealed();
    var h :| Reaches(actions, h) && h.record == Some(f.record);
    RunKeepsSealed(EMPTY_HOST, actions);
    SealedIsSealed(h);
  }

  /** So whatever a run has left behind, any number of passes cut off anywhere show nothing and lead to one form. */
  lemma LeftConverges(actions: seq<Action>, f: Compaction.Files, p: Compaction.Processes, runs: seq<Compaction.PassRun>)
    requires Left(actions, f)
    ensures var g := Compaction.Passes(f, p, runs);
            && Compaction.Reported(g, p) == Compaction.Reported(f, p)
            && Compaction.FinishedAt(g) == Compaction.FinishedAt(f)
            && Compaction.Converging(f, g)
  {
    LeftIsSealed(actions, f);
    Compaction.PassesConverge(f, p, runs);
  }

  /** The protocol's own compaction is the rewrite of a pass. */
  lemma ProtocolCompacts(actions: seq<Action>, h: Host, who: Identity, o: Outcome, f: Compaction.Files)
    requires Reaches(actions, h) && who in h.actors && h.actors[who].MaintainCompacting?
    requires h.record == Some(f.record) && o.ready == f.ready
    ensures Step(h, Continue(who, o)).Some?
    ensures Step(h, Continue(who, o)).value.record == Some(Compaction.Rewritten(f, o.now).record)
  {
    ReachableInv(actions, h);
    OutcomesAreTold(actions, h);
    assert ActorOk(h, who);
  }
}
