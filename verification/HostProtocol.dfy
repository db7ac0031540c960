/**
 The ownership protocol of one host, as a machine whose steps interleave freely.

 Any number of launches, guardians, maintenance passes and inspections of the same (kind, id) may be under
 way at once. Each is an actor with a program counter, and each step is one atomic effect on the durable
 record, its lock file, its cgroup or the process table. Any actor may vanish between any two steps: a
 crash, a replacement by exec and an error return all look the same from here, and all release the lock.
 */
module HostProtocol {
  import opened Wrappers
  import opened HostRecords

  // A program counter. The record it carries is the actor's own copy, read or built earlier.
  datatype Pc =
    | LaunchChecked
    | LaunchLocked
    | LaunchConfirmed
    | LaunchGrouped(record: Record)
    | LaunchReserved(record: Record)
    | LaunchFailed(record: Record)
    | LaunchCleaned(record: Record)
    | GuardianStarted
    | GuardianLocked
    | GuardianClaiming(record: Record)
    | GuardianClaimed(record: Record)
    | GuardianSpawned(record: Record, spawnedChild: Identity)
    | GuardianWatching(record: Record)
    | GuardianStopping(record: Record)
    | GuardianEmptied(record: Record)
    | GuardianEnded
    | MaintainRead
    | MaintainLocked
    | MaintainOwned(record: Record)
    | MaintainReporting(record: Record)
    | MaintainEmptied(record: Record)
    | MaintainCompacting(record: Record)
    | InspectRead(record: Record)
    | InspectSeen(record: Record, populated: bool)
    | InspectDone(record: Record, alive: bool)

  // `members` are the living processes the host contains. `spawned` and `guardians` count the children and
  // the guardian processes ever created for this identity; `lastGuardian` is the latest of the latter.
  datatype Host = Host(
    record: Option<Record>,
    holder: Option<Identity>,
    groupExists: bool,
    members: set<Identity>,
    actors: map<Identity, Pc>,
    nextIdentity: Identity,
    spawned: nat,
    guardians: nat,
    lastGuardian: Identity)

  const EMPTY_HOST := Host(None, None, false, {}, map[], 0, 0, 0, 0)

  // What the environment decides during one step.
  datatype Outcome = Outcome(
    now: nat,
    fails: bool,
    committed: bool,
    identified: bool,
    isolation: Isolation,
    environment: map<string, string>,
    readinessRequired: bool,
    exitCode: Option<int>,
    ready: Evidence,
    stop: StopSidecar,
    expired: bool)

  datatype Action =
    | Launch
    | Maintain
    | Inspect
    | Continue(who: Identity, outcome: Outcome)
    | Vanish(who: Identity)
    | Fork
    | ProcessesExit(gone: set<Identity>)

  predicate Alive(h: Host, identity: Option<Identity>) {
    identity.Some? && identity.value in h.actors
  }

  predicate Populated(h: Host, record: Record) {
    if record.group then h.groupExists && h.members != {} else record.child.Some? && h.members != {}
  }

  function At(h: Host, who: Identity, pc: Pc): Host {
    h.(actors := h.actors[who := pc])
  }

  function Enter(h: Host, pc: Pc): Host {
    At(h, h.nextIdentity, pc).(nextIdentity := h.nextIdentity + 1)
  }

  function Leave(h: Host, who: Identity): Host {
    h.(actors := h.actors - {who}, holder := if h.holder == Some(who) then None else h.holder)
  }

  function Lock(h: Host, who: Identity, pc: Pc): Option<Host> {
    if h.holder.None? then Some(At(h, who, pc).(holder := Some(who))) else None
  }

  function RemoveGroup(h: Host, record: Record): Host {
    if record.group then h.(groupExists := false) else h
  }

  function LaunchStep(h: Host, who: Identity, pc: Pc, o: Outcome): Option<Host> {
    match pc
    case LaunchChecked => Lock(h, who, LaunchLocked)
    case LaunchLocked => Some(if h.record.Some? then Leave(h, who) else At(h, who, LaunchConfirmed))
    case LaunchConfirmed =>
      var record := NewRecord(o.isolation, o.environment, o.now, o.readinessRequired);
      // An existing cgroup is never adopted: creating it again is an error.
      Some(if record.group && h.groupExists then Leave(h, who)
           else At(h, who, LaunchGrouped(record)).(groupExists := h.groupExists || record.group))
    case LaunchGrouped(record) => Some(At(h, who, LaunchReserved(record)).(record := Some(record)))
    case LaunchReserved(record) =>
      Some(if o.fails then At(h, who, LaunchFailed(record))
           else Leave(Enter(h, GuardianStarted), who).(guardians := h.guardians + 1, lastGuardian := h.nextIdentity))
    case LaunchFailed(record) =>
      Some(if Populated(h, record) then Leave(h, who) else RemoveGroup(At(h, who, LaunchCleaned(record)), record))
    case LaunchCleaned(record) => Some(Leave(h, who).(record := Some(SpawnFailed(record, o.now))))
    case _ => None
  }

  function GuardianStep(h: Host, who: Identity, pc: Pc, o: Outcome): Option<Host> {
    match pc
    case GuardianStarted => Lock(h, who, GuardianLocked)
    case GuardianLocked =>
      Some(if h.record.Some? && Unclaimed(h.record.value) then At(h, who, GuardianClaiming(h.record.value))
           else Leave(h, who))
    case GuardianClaiming(record) =>
      var claimed := record.(guard := Some(who));
      Some(At(h, who, GuardianClaimed(claimed)).(record := Some(claimed)))
    case GuardianClaimed(record) =>
      if o.fails || (record.group && !h.groupExists) then Some(At(h, who, GuardianStopping(StartFailed(record))))
      // The child joins the group before it can run anything of its own.
      else Some(At(h, who, GuardianSpawned(record, h.nextIdentity))
                .(members := h.members + {h.nextIdentity}, nextIdentity := h.nextIdentity + 1,
                  spawned := h.spawned + 1))
    case GuardianSpawned(record, child) =>
      var started := Started(record, if o.identified then Some(child) else None, o.now);
      Some(if o.fails
           // A failed write may or may not have reached the disk.
           then At(h, who, GuardianStopping(StartFailed(if o.identified then started else record)))
                .(record := if o.committed then Some(started) else h.record)
           else At(h, who, GuardianWatching(started)).(record := Some(started)))
    case GuardianWatching(record) =>
      var seen := record.(lifecycle := record.lifecycle.(readyAt := ReadyAt(record, o.ready)));
      var watched := h.(record := Some(seen));
      Some(if o.fails
           then At(h, who, GuardianStopping(StartFailed(seen))).(record := if o.committed then Some(seen) else h.record)
           else if o.exitCode.Some? then At(watched, who, GuardianStopping(seen.(exitCode := o.exitCode)))
           else At(watched, who, GuardianWatching(seen)))
    case GuardianStopping(record) =>
      if Populated(h, record) then None
      else Some(RemoveGroup(At(h, who, GuardianEmptied(record)), record))
    case GuardianEmptied(record) => Some(At(h, who, GuardianEnded).(record := Some(Finished(record, o.stop, o.now))))
    case GuardianEnded => Some(Leave(h, who))
    case _ => None
  }

  function MaintainStep(h: Host, who: Identity, pc: Pc, o: Outcome): Option<Host> {
    match pc
    case MaintainRead => Lock(h, who, MaintainLocked)
    case MaintainLocked =>
      Some(if h.record.None? || Alive(h, h.record.value.guard) then Leave(h, who)
           else At(h, who, MaintainOwned(h.record.value)))
    case MaintainOwned(record) =>
      // Without a recorded guardian a delayed launch may still claim its reservation.
      if record.state != Exited && record.guard.Some? then
        if record.isolation == Cgroup && !record.group then Some(Leave(h, who))
        else if record.isolation == ProcessGroup && record.child.None? then
          Some(Leave(h, who).(record := Some(Lost(record))))
        else if Populated(h, record) then Some(At(h, who, MaintainReporting(record)))
        else Some(RemoveGroup(At(h, who, MaintainEmptied(record)), record))
      else if record.state == Exited && !Populated(h, record) && o.expired && !record.lifecycle.compacted then
        Some(At(h, who, MaintainCompacting(record)))
      else Some(Leave(h, who))
    case MaintainReporting(record) => Some(Leave(h, who).(record := Some(Lost(record))))
    case MaintainEmptied(record) =>
      var reconciled := Reconciled(record, o.now);
      Some(At(h, who, MaintainOwned(reconciled)).(record := Some(reconciled)))
    case MaintainCompacting(record) =>
      // Without a time of finishing, that of the file counts.
      var finished := record.lifecycle.finishedAt.GetOr(o.now);
      Some(Leave(h, who).(record := Some(Compacted(record, o.ready, finished))))
    case _ => None
  }

  /** An inspection reads the record, then its processes, then its guardian: three separate moments. */
  function InspectStep(h: Host, who: Identity, pc: Pc): Option<Host> {
    match pc
    case InspectRead(record) => Some(At(h, who, InspectSeen(record, Populated(h, record))))
    case InspectSeen(record, populated) =>
      Some(At(h, who, InspectDone(record, ReportAlive(record, populated, Alive(h, record.guard)))))
    case InspectDone(_, _) => Some(Leave(h, who))
    case _ => None
  }

  /** One step, or None where the action cannot happen now. */
  function Step(h: Host, action: Action): Option<Host> {
    match action
    case Launch => if h.record.None? then Some(Enter(h, LaunchChecked)) else None
    case Maintain => if h.record.Some? && !Alive(h, h.record.value.guard) then Some(Enter(h, MaintainRead)) else None
    case Inspect => if h.record.Some? then Some(Enter(h, InspectRead(h.record.value))) else None
    case Continue(who, o) =>
      if who !in h.actors then None
      else
        var pc := h.actors[who];
        if LaunchPc(pc) then LaunchStep(h, who, pc, o)
        else if GuardianPc(pc) then GuardianStep(h, who, pc, o)
        else if MaintainPc(pc) then MaintainStep(h, who, pc, o)
        else InspectStep(h, who, pc)
    case Vanish(who) => if who in h.actors then Some(Leave(h, who)) else None
    case Fork =>
      if h.members == {} then None
      else Some(h.(members := h.members + {h.nextIdentity}, nextIdentity := h.nextIdentity + 1))
    case ProcessesExit(gone) => Some(h.(members := h.members - gone))
  }

  predicate LaunchPc(pc: Pc) {
    pc.LaunchChecked? || pc.LaunchLocked? || pc.LaunchConfirmed? || pc.LaunchGrouped? || pc.LaunchReserved?
    || pc.LaunchFailed? || pc.LaunchCleaned?
  }

  predicate GuardianPc(pc: Pc) {
    pc.GuardianStarted? || pc.GuardianLocked? || pc.GuardianClaiming? || pc.GuardianClaimed? || pc.GuardianSpawned?
    || pc.GuardianWatching? || pc.GuardianStopping? || pc.GuardianEmptied? || pc.GuardianEnded?
  }

  predicate MaintainPc(pc: Pc) {
    pc.MaintainRead? || pc.MaintainLocked? || pc.MaintainOwned? || pc.MaintainReporting? || pc.MaintainEmptied?
    || pc.MaintainCompacting?
  }

  predicate InspectPc(pc: Pc) {
    pc.InspectRead? || pc.InspectSeen? || pc.InspectDone?
  }

  /** A run is any sequence of actions, each of which can happen where it stands. */
  function Run(h: Host, actions: seq<Action>): Option<Host>
    decreases |actions|
  {
    if actions == [] then Some(h)
    else
      var next := Step(h, actions[0]);
      if next.None? then None else Run(next.value, actions[1..])
  }
}
