/** The durable host record, its sidecar files and what an inspection reports about them. */
module HostRecords {
  import opened Wrappers

  // A process identity: process id, boot and start time together, so it is never reused.
  type Identity = nat

  datatype Isolation = Cgroup | ProcessGroup

  datatype HostState = Starting | Running | Exited

  datatype Reason =
    | GuardianSpawnFailed
    | HostStartFailed
    | ReadinessTimeout
    | ChildFailed
    | GuardianLost

  datatype Lifecycle = Lifecycle(
    createdAt: nat,
    startedAt: Option<nat>,
    readyAt: Option<nat>,
    finishedAt: Option<nat>,
    reason: Option<Reason>,
    readinessRequired: bool,
    compacted: bool)

  // `group` says whether the record names a cgroup; its path is a function of kind and id.
  datatype Record = Record(
    state: HostState,
    isolation: Isolation,
    group: bool,
    environment: map<string, string>,
    guard: Option<Identity>,
    child: Option<Identity>,
    exitCode: Option<int>,
    lifecycle: Lifecycle)

  // The ready sidecar, as far as a reader can make sense of it.
  datatype Evidence = NoEvidence | Malformed | Evidence(child: Identity, at: nat)

  datatype StopSidecar = NoStop | StopRequested | StopUnready

  datatype ReportedState = ReportRunning | ReportExited | ReportLost | ReportUnknown
  datatype Supervision = Guarded | Ended | Orphaned | Unconfirmed
  datatype HostPhase = PhaseExited | PhaseUnknown | PhaseStopping | PhaseReady | PhaseStarting | PhaseRunning
  datatype Readiness = Ready | Pending | Unsupported

  datatype Report = Report(
    state: ReportedState,
    alive: bool,
    supervision: Supervision,
    phase: HostPhase,
    readiness: Readiness,
    readyAt: Option<nat>,
    exitCode: Option<int>)

  function NewRecord(isolation: Isolation, environment: map<string, string>, now: nat, readinessRequired: bool)
    : Record
  {
    Record(Starting, isolation, isolation == Cgroup, environment, None, None, None,
           Lifecycle(now, None, None, None, None, readinessRequired, false))
  }

  /** A reservation that no guardian has claimed. */
  predicate Unclaimed(record: Record) {
    record.state == Starting && record.guard.None? && record.child.None?
  }

  function ReadyAt(record: Record, ready: Evidence): Option<nat> {
    if record.lifecycle.readyAt.Some? then record.lifecycle.readyAt
    else match ready
      case Evidence(child, at) => if record.child == Some(child) then Some(at) else None
      case _ => None
  }

  function ReportState(record: Record, populated: bool, guardAlive: bool): ReportedState {
    if populated || guardAlive then ReportRunning
    else if record.state == Exited then ReportExited
    else if record.group && record.guard.Some? then ReportLost
    else ReportUnknown
  }

  /** What a caller acts on: a host is alive unless every sign of it is known to be gone. */
  predicate ReportAlive(record: Record, populated: bool, guardAlive: bool) {
    populated || guardAlive || ReportState(record, populated, guardAlive) == ReportUnknown
  }

  function ReportSupervision(record: Record, populated: bool, guardAlive: bool): Supervision {
    if guardAlive then Guarded
    else if record.state == Exited && !populated then Ended
    else if record.guard.Some? then Orphaned
    else Unconfirmed
  }

  function Describe(record: Record, ready: Evidence, stop: StopSidecar, populated: bool, guardAlive: bool): Report {
    var supervision := ReportSupervision(record, populated, guardAlive);
    var readyAt := ReadyAt(record, ready);
    var phase :=
      if record.state == Exited && !populated then PhaseExited
      else if supervision != Guarded then PhaseUnknown
      else if !stop.NoStop? then PhaseStopping
      else if readyAt.Some? then PhaseReady
      else if record.lifecycle.readinessRequired || record.child.None? then PhaseStarting
      else PhaseRunning;
    var readiness :=
      if readyAt.Some? then Ready
      else if record.lifecycle.readinessRequired then Pending
      else Unsupported;
    Report(ReportState(record, populated, guardAlive), ReportAlive(record, populated, guardAlive),
           supervision, phase, readiness, readyAt, record.exitCode)
  }

  // The record updates, one per place that writes a record.

  function SpawnFailed(record: Record, now: nat): Record {
    record.(state := Exited, exitCode := Some(-1),
            lifecycle := record.lifecycle.(finishedAt := Some(now), reason := Some(GuardianSpawnFailed)))
  }

  function StartFailed(record: Record): Record {
    record.(exitCode := Some(-1), lifecycle := record.lifecycle.(reason := Some(HostStartFailed)))
  }

  function Started(record: Record, child: Option<Identity>, now: nat): Record {
    record.(child := child, state := Running, lifecycle := record.lifecycle.(startedAt := Some(now)))
  }

  function Finished(record: Record, stop: StopSidecar, now: nat): Record {
    var reason :=
      if stop == StopUnready then Some(ReadinessTimeout)
      else if record.lifecycle.reason.None? && record.exitCode != Some(0) then Some(ChildFailed)
      else record.lifecycle.reason;
    record.(state := Exited, lifecycle := record.lifecycle.(finishedAt := Some(now), reason := reason))
  }

  function Lost(record: Record): Record {
    record.(lifecycle := record.lifecycle.(reason := Some(GuardianLost)))
  }

  function Reconciled(record: Record, now: nat): Record {
    record.(state := Exited, exitCode := Some(-1),
            lifecycle := record.lifecycle.(finishedAt := Some(now), reason := Some(GuardianLost)))
  }

  function Compacted(record: Record, ready: Evidence, finished: nat): Record {
    record.(environment := map[], guard := None, child := None, group := false,
            lifecycle := record.lifecycle.(readyAt := ReadyAt(record, ready), finishedAt := Some(finished),
              compacted := true))
  }
}
