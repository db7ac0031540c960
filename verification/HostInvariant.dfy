/**
 The invariant of one host over every interleaving, and the proof that each single step keeps it.
 */
module HostInvariant {
  import opened Wrappers
  import opened HostRecords
  import opened HostProtocol

  predicate HoldsLock(pc: Pc) {
    !(pc.LaunchChecked? || pc.GuardianStarted? || pc.MaintainRead? || InspectPc(pc))
  }

  /** A guardian that has claimed the record and has not yet let it go. */
  predicate Owning(pc: Pc) {
    pc.GuardianClaimed? || pc.GuardianSpawned? || pc.GuardianWatching? || pc.GuardianStopping? || pc.GuardianEmptied?
  }

  /** A Starting record on disk is a reservation: nothing but its guardian and a loss can have been added. */
  predicate Reservation(record: Record) {
    var reserved := NewRecord(record.isolation, record.environment, record.lifecycle.createdAt,
      record.lifecycle.readinessRequired);
    && record == reserved.(guard := record.guard, lifecycle := reserved.lifecycle.(reason := record.lifecycle.reason))
    && (record.lifecycle.reason.Some? ==> record.guard.Some?)
  }

  /** Whether a not-alive verdict on this record can be trusted; a caller can tell before asking. */
  predicate Settled(record: Record) {
    record.state != Starting || record.lifecycle.reason.Some?
  }

  predicate WellFormed(record: Record) {
    && (record.state == Starting ==> record.child.None?)
    && (record.state == Running ==> record.guard.Some?)
    && (record.state != Exited ==> record.group == (record.isolation == Cgroup))
  }

  predicate Contained(h: Host) {
    h.record.Some? && h.record.value.isolation == Cgroup
  }

  predicate NoGuardian(h: Host) {
    h.guardians == 0 || h.lastGuardian !in h.actors
  }

  /** The host is over: no process of it is left, and nothing can start one again. */
  predicate Gone(h: Host) {
    h.record.Some? && !Unclaimed(h.record.value) && h.members == {} && NoGuardian(h)
  }

  /** How a record read earlier relates to the record now. */
  predicate ReadFrom(h: Host, read: Record) {
    && h.record.Some?
    && WellFormed(read)
    && (read.state == Starting ==> Reservation(read))
    && (read.state == Starting && read.lifecycle.reason.Some? ==> !Alive(h, read.guard))
    && (read.guard.Some? ==> h.guardians == 1 && read.guard.value == h.lastGuardian && read.guard.value >= 1)
    && (read.state == Exited && read.guard.None? ==> NoGuardian(h))
    && read.isolation == h.record.value.isolation
    && (read.state == Exited ==> h.record.value.state == Exited)
    && (read.state == Running ==> h.spawned == 1)
    && (read.guard.Some? && h.record.value.state != Exited ==> h.record.value.guard == read.guard)
  }

  predicate PcOk(h: Host, who: Identity, pc: Pc) {
    match pc
    case LaunchChecked => true
    case LaunchLocked => true
    case LaunchConfirmed => h.record.None?
    case LaunchGrouped(record) => h.record.None? && Unclaimed(record) && WellFormed(record) && Reservation(record)
    case LaunchReserved(record) => h.record == Some(record) && Unclaimed(record) && h.guardians == 0
    case LaunchFailed(record) => h.record == Some(record) && Unclaimed(record) && h.guardians == 0
    case LaunchCleaned(record) => h.record == Some(record) && Unclaimed(record) && h.guardians == 0
    case GuardianStarted => true
    case GuardianLocked => true
    case GuardianClaiming(record) => h.record == Some(record) && Unclaimed(record)
    case GuardianClaimed(record) => OwnedBy(h, who, record) && h.record == Some(record) && record.state == Starting
      && h.spawned == 0
    case GuardianSpawned(record, _) => OwnedBy(h, who, record) && h.record == Some(record) && record.state == Starting
      && h.spawned == 1
    case GuardianWatching(record) => OwnedBy(h, who, record) && h.record == Some(record) && record.state == Running
      && h.spawned == 1
    case GuardianStopping(record) => OwnedBy(h, who, record)
    case GuardianEmptied(record) => OwnedBy(h, who, record) && (record.isolation == Cgroup ==> h.members == {})
    case GuardianEnded => h.record.Some? && h.record.value.state == Exited
    case MaintainRead => h.record.Some?
    case MaintainLocked => h.record.Some?
    case MaintainOwned(record) => h.record == Some(record) && !Alive(h, record.guard)
    case MaintainReporting(record) => h.record == Some(record) && !Alive(h, record.guard) && record.state != Exited
      && record.guard.Some?
    case MaintainEmptied(record) => h.record == Some(record) && !Alive(h, record.guard) && record.state != Exited
      && record.guard.Some?
                                    && (record.isolation == Cgroup ==> h.members == {})
    case MaintainCompacting(record) => h.record == Some(record) && !Alive(h, record.guard) && record.state == Exited
    case InspectRead(record) => ReadFrom(h, record)
    case InspectSeen(record, populated) =>
      && ReadFrom(h, record)
      && (Contained(h) && !populated && Settled(record) ==> h.members == {})
      && (Contained(h) && !populated && Settled(record) && record.state == Starting ==> Gone(h))
    case InspectDone(record, alive) =>
      ReadFrom(h, record) && (!alive ==> !Unclaimed(record)) && (Contained(h) && !alive && Settled(record) ==> Gone(h))
  }

  /** The guardian's own copy of the record it owns; only exit code, reason and child may be ahead of the disk. */
  predicate OwnedBy(h: Host, who: Identity, record: Record) {
    && h.record.Some?
    && h.record.value.state != Exited
    && h.record.value.guard == Some(who)
    && record.state != Exited
    && record.guard == Some(who)
    && record.isolation == h.record.value.isolation
    && WellFormed(record)
  }

  predicate RecordOk(h: Host) {
    if h.record.None? then h.spawned == 0 && h.members == {} && h.guardians == 0
    else
      var record := h.record.value;
      && WellFormed(record)
      && (record.state == Starting ==> Reservation(record))
      && (record.state == Starting && record.lifecycle.reason.Some? ==> !Alive(h, record.guard))
      && (record.guard.Some? ==> h.guardians == 1 && record.guard.value == h.lastGuardian >= 1)
      && (record.state == Exited && record.guard.None? ==> NoGuardian(h))
      && (Unclaimed(record) ==> h.spawned == 0)
      && (record.state == Running ==> h.spawned == 1)
      && (record.isolation == Cgroup && record.state == Exited ==> h.members == {})
      && (record.isolation == Cgroup && h.members != {} ==> h.groupExists)
      && (record.state != Exited && Alive(h, record.guard) ==> Owning(h.actors[record.guard.value]))
  }

  predicate Core(h: Host) {
    && RecordOk(h)
    && h.spawned <= 1
    && h.guardians <= 1
    && (h.guardians == 1 ==> h.lastGuardian < h.nextIdentity)
    && (h.members != {} ==> h.spawned == 1)
  }

  predicate ActorOk(h: Host, who: Identity) {
    who in h.actors ==>
      && who < h.nextIdentity
      && (GuardianPc(h.actors[who]) ==> h.guardians == 1 && who == h.lastGuardian >= 1)
      && (HoldsLock(h.actors[who]) ==> h.holder == Some(who))
      && PcOk(h, who, h.actors[who])
  }

  ghost predicate Inv(h: Host) {
    Core(h) && forall who :: ActorOk(h, who)
  }

  // What no step ever undoes.
  ghost predicate Advances(h: Host, h': Host) {
    && h.nextIdentity <= h'.nextIdentity
    && (forall who <- h'.actors :: who < h.nextIdentity ==> who in h.actors)
    && h.spawned <= h'.spawned
    && h.guardians <= h'.guardians
    && (h.record.Some? ==>
          && h'.record.Some?
          && h'.record.value.isolation == h.record.value.isolation
          && (h.record.value.state == Exited ==> h'.record.value.state == Exited)
          && (h.record.value.guard.Some? && h'.record.value.state != Exited
            ==> h'.record.value.guard == h.record.value.guard))
    && (Contained(h) && h.spawned == 1 && h.members == {} ==> h'.members == {})
    && (h.guardians == 1 ==> h'.lastGuardian == h.lastGuardian)
    && (h.record.Some? && !Unclaimed(h.record.value)
      ==> !Unclaimed(h'.record.value) && (NoGuardian(h) ==> NoGuardian(h')))
    && (Contained(h) && Gone(h) ==> Gone(h'))
  }

  /** What a step must achieve where it is possible at all. */
  ghost predicate Good(h: Host, next: Option<Host>) {
    next.Some? ==> Inv(next.value) && Advances(h, next.value)
  }

  // Every step keeps the invariant, and never undoes what is over.

  lemma ReadFromKept(h: Host, h': Host, read: Record)
    requires Core(h) && Core(h') && Advances(h, h') && ReadFrom(h, read)
    ensures ReadFrom(h', read)
  {
  }

  lemma PassiveActorKept(h: Host, h': Host, a: Identity)
    requires Inv(h) && Core(h') && Advances(h, h')
    requires a in h.actors && !HoldsLock(h.actors[a])
    ensures PcOk(h', a, h.actors[a])
  {
    assert ActorOk(h, a);
    if InspectPc(h.actors[a]) {
      ReadFromKept(h, h', h.actors[a].record);
    }
  }

  /** A step of the lock holder: everyone else is waiting or only looking. */
  lemma HolderStepKeepsInv(h: Host, h': Host, who: Identity)
    requires Inv(h) && Core(h') && Advances(h, h')
    requires who in h.actors && HoldsLock(h.actors[who])
    requires ActorOk(h', who)
    requires forall a :: a != who && a in h'.actors ==>
                           if a in h.actors then h'.actors[a] == h.actors[a] else ActorOk(h', a)
    ensures Inv(h')
  {
    assert ActorOk(h, who);
    forall a ensures ActorOk(h', a) {
      if a != who && a in h'.actors && a in h.actors {
        assert ActorOk(h, a);
        PassiveActorKept(h, h', a);
      }
    }
  }

  /** A step that leaves record, processes and cgroup alone. */
  ghost predicate ActorStep(h: Host, h': Host, who: Identity) {
    && h' == h.(actors := h'.actors, holder := h'.holder, nextIdentity := h'.nextIdentity)
    && h'.nextIdentity >= h.nextIdentity
    && (h'.holder == h.holder || h.holder.None?)
    && ActorOk(h', who)
    && (who in h.actors ==> who in h'.actors && !HoldsLock(h.actors[who]))
    && (who !in h.actors ==> who == h.nextIdentity)
    && forall a :: a != who ==> (a in h'.actors <==> a in h.actors) && (a in h.actors ==> h'.actors[a] == h.actors[a])
  }

  lemma ActorStepKeepsCore(h: Host, h': Host, who: Identity)
    requires Inv(h) && ActorStep(h, h', who)
    ensures Core(h') && Advances(h, h')
  {
    assert ActorOk(h, who);
  }

  lemma ActorStepKeepsInv(h: Host, h': Host, who: Identity)
    requires Inv(h) && ActorStep(h, h', who)
    ensures Inv(h') && Advances(h, h')
  {
    ActorStepKeepsCore(h, h', who);
    forall a ensures ActorOk(h', a) {
      assert ActorOk(h, a);
      if a != who && a in h.actors && !HoldsLock(h.actors[a]) {
        PassiveActorKept(h, h', a);
      }
    }
  }

  lemma LeaveKeepsInv(h: Host, who: Identity)
    requires Inv(h) && who in h.actors
    ensures Inv(Leave(h, who)) && Advances(h, Leave(h, who))
  {
    var h' := Leave(h, who);
    assert ActorOk(h, who);
    forall a ensures ActorOk(h', a) {
      assert ActorOk(h, a);
      if a in h'.actors && !HoldsLock(h.actors[a]) {
        PassiveActorKept(h, h', a);
      }
    }
  }

  lemma LaunchLockKeepsInv(h: Host, who: Identity, o: Outcome)
    requires Inv(h) && who in h.actors && h.actors[who].LaunchChecked?
    ensures Good(h, LaunchStep(h, who, h.actors[who], o))
  {
    hide ReadFrom;
    var next := LaunchStep(h, who, h.actors[who], o);
    assert ActorOk(h, who);
    if next.None? { return; }
    var h' := next.value;
    ActorStepKeepsInv(h, h', who);
  }

  lemma RecheckKeepsInv(h: Host, who: Identity, o: Outcome)
    requires Inv(h) && who in h.actors && h.actors[who].LaunchLocked?
    ensures Good(h, LaunchStep(h, who, h.actors[who], o))
  {
    hide ReadFrom;
    var next := LaunchStep(h, who, h.actors[who], o);
    assert ActorOk(h, who);
    if next.None? { return; }
    var h' := next.value;
    if h' == Leave(h, who) {
      LeaveKeepsInv(h, who);
    } else {
      HolderStepKeepsInv(h, h', who);
    }
  }

  lemma GroupKeepsInv(h: Host, who: Identity, o: Outcome)
    requires Inv(h) && who in h.actors && h.actors[who].LaunchConfirmed?
    ensures Good(h, LaunchStep(h, who, h.actors[who], o))
  {
    hide ReadFrom;
    var next := LaunchStep(h, who, h.actors[who], o);
    assert ActorOk(h, who);
    if next.None? { return; }
    var h' := next.value;
    if h' == Leave(h, who) {
      LeaveKeepsInv(h, who);
    } else {
      HolderStepKeepsInv(h, h', who);
    }
  }

  lemma ReserveKeepsInv(h: Host, who: Identity, o: Outcome)
    requires Inv(h) && who in h.actors && h.actors[who].LaunchGrouped?
    ensures Good(h, LaunchStep(h, who, h.actors[who], o))
  {
    hide ReadFrom;
    var next := LaunchStep(h, who, h.actors[who], o);
    assert ActorOk(h, who);
    if next.None? { return; }
    var h' := next.value;
    HolderStepKeepsInv(h, h', who);
  }

  lemma SpawnGuardianKeepsInv(h: Host, who: Identity, o: Outcome)
    requires Inv(h) && who in h.actors && h.actors[who].LaunchReserved?
    ensures Good(h, LaunchStep(h, who, h.actors[who], o))
  {
    hide ReadFrom;
    var next := LaunchStep(h, who, h.actors[who], o);
    assert ActorOk(h, who);
    if next.None? { return; }
    var h' := next.value;
    assert ActorOk(h, h.nextIdentity);
    HolderStepKeepsInv(h, h', who);
  }

  lemma CleanUpKeepsInv(h: Host, who: Identity, o: Outcome)
    requires Inv(h) && who in h.actors && h.actors[who].LaunchFailed?
    ensures Good(h, LaunchStep(h, who, h.actors[who], o))
  {
    hide ReadFrom;
    var next := LaunchStep(h, who, h.actors[who], o);
    assert ActorOk(h, who);
    if next.None? { return; }
    var h' := next.value;
    if h' == Leave(h, who) {
      LeaveKeepsInv(h, who);
    } else {
      HolderStepKeepsInv(h, h', who);
    }
  }

  lemma AbandonKeepsInv(h: Host, who: Identity, o: Outcome)
    requires Inv(h) && who in h.actors && h.actors[who].LaunchCleaned?
    ensures Good(h, LaunchStep(h, who, h.actors[who], o))
  {
    hide ReadFrom;
    var next := LaunchStep(h, who, h.actors[who], o);
    assert ActorOk(h, who);
    if next.None? { return; }
    var h' := next.value;
    HolderStepKeepsInv(h, h', who);
  }

  lemma LaunchStepKeepsInv(h: Host, who: Identity, o: Outcome)
    requires Inv(h) && who in h.actors && LaunchPc(h.actors[who])
    ensures Good(h, LaunchStep(h, who, h.actors[who], o))
  {
    match h.actors[who]
    case LaunchChecked => LaunchLockKeepsInv(h, who, o);
    case LaunchLocked => RecheckKeepsInv(h, who, o);
    case LaunchConfirmed => GroupKeepsInv(h, who, o);
    case LaunchGrouped(_) => ReserveKeepsInv(h, who, o);
    case LaunchReserved(_) => SpawnGuardianKeepsInv(h, who, o);
    case LaunchFailed(_) => CleanUpKeepsInv(h, who, o);
    case LaunchCleaned(_) => AbandonKeepsInv(h, who, o);
  }

  lemma ClaimKeepsInv(h: Host, who: Identity, o: Outcome)
    requires Inv(h) && who in h.actors && (h.actors[who].GuardianClaiming?)
    ensures Good(h, GuardianStep(h, who, h.actors[who], o))
  {
    hide ReadFrom;
    var next := GuardianStep(h, who, h.actors[who], o);
    assert ActorOk(h, who);
    if next.None? { return; }
    var h' := next.value;
    HolderStepKeepsInv(h, h', who);
  }

  lemma SpawnKeepsInv(h: Host, who: Identity, o: Outcome)
    requires Inv(h) && who in h.actors && (h.actors[who].GuardianClaimed?)
    ensures Good(h, GuardianStep(h, who, h.actors[who], o))
  {
    hide ReadFrom;
    var next := GuardianStep(h, who, h.actors[who], o);
    assert ActorOk(h, who);
    if next.None? { return; }
    var h' := next.value;
    assert ActorOk(h, h.nextIdentity);
    HolderStepKeepsInv(h, h', who);
  }

  lemma RecordChildKeepsInv(h: Host, who: Identity, o: Outcome)
    requires Inv(h) && who in h.actors && h.actors[who].GuardianSpawned? && !o.fails
    ensures Good(h, GuardianStep(h, who, h.actors[who], o))
  {
    assert ActorOk(h, who);
    HolderStepKeepsInv(h, GuardianStep(h, who, h.actors[who], o).value, who);
  }

  lemma RecordChildFailsKeepsInv(h: Host, who: Identity, o: Outcome)
    requires Inv(h) && who in h.actors && h.actors[who].GuardianSpawned? && o.fails
    ensures Good(h, GuardianStep(h, who, h.actors[who], o))
  {
    assert ActorOk(h, who);
    HolderStepKeepsInv(h, GuardianStep(h, who, h.actors[who], o).value, who);
  }

  lemma WatchKeepsCore(h: Host, who: Identity, o: Outcome)
    requires Core(h) && ActorOk(h, who) && who in h.actors && h.actors[who].GuardianWatching?
    ensures var h' := GuardianStep(h, who, h.actors[who], o).value; Core(h') && Advances(h, h') && ActorOk(h', who)
  {
    hide ReadFrom;
  }

  lemma WatchKeepsInv(h: Host, who: Identity, o: Outcome)
    requires Inv(h) && who in h.actors && (h.actors[who].GuardianWatching?)
    ensures Good(h, GuardianStep(h, who, h.actors[who], o))
  {
    assert ActorOk(h, who);
    WatchKeepsCore(h, who, o);
    hide Core, Advances, PcOk;
    HolderStepKeepsInv(h, GuardianStep(h, who, h.actors[who], o).value, who);
  }

  lemma EmptyKeepsInv(h: Host, who: Identity, o: Outcome)
    requires Inv(h) && who in h.actors && (h.actors[who].GuardianStopping?)
    ensures Good(h, GuardianStep(h, who, h.actors[who], o))
  {
    hide ReadFrom;
    var next := GuardianStep(h, who, h.actors[who], o);
    assert ActorOk(h, who);
    if next.None? { return; }
    var h' := next.value;
    HolderStepKeepsInv(h, h', who);
  }

  lemma FinishKeepsInv(h: Host, who: Identity, o: Outcome)
    requires Inv(h) && who in h.actors && (h.actors[who].GuardianEmptied?)
    ensures Good(h, GuardianStep(h, who, h.actors[who], o))
  {
    hide ReadFrom;
    var next := GuardianStep(h, who, h.actors[who], o);
    assert ActorOk(h, who);
    if next.None? { return; }
    var h' := next.value;
    HolderStepKeepsInv(h, h', who);
  }

  lemma GuardianLockKeepsInv(h: Host, who: Identity, o: Outcome)
    requires Inv(h) && who in h.actors && h.actors[who].GuardianStarted?
    ensures Good(h, GuardianStep(h, who, h.actors[who], o))
  {
    hide ReadFrom;
    var next := GuardianStep(h, who, h.actors[who], o);
    assert ActorOk(h, who);
    if next.None? { return; }
    var h' := next.value;
    ActorStepKeepsInv(h, h', who);
  }

  lemma GuardianReadKeepsInv(h: Host, who: Identity, o: Outcome)
    requires Inv(h) && who in h.actors && h.actors[who].GuardianLocked?
    ensures Good(h, GuardianStep(h, who, h.actors[who], o))
  {
    hide ReadFrom;
    var next := GuardianStep(h, who, h.actors[who], o);
    assert ActorOk(h, who);
    if next.None? { return; }
    var h' := next.value;
    if h' == Leave(h, who) {
      LeaveKeepsInv(h, who);
    } else {
      HolderStepKeepsInv(h, h', who);
    }
  }

  lemma EndKeepsInv(h: Host, who: Identity, o: Outcome)
    requires Inv(h) && who in h.actors && h.actors[who].GuardianEnded?
    ensures Good(h, GuardianStep(h, who, h.actors[who], o))
  {
    hide ReadFrom;
    var next := GuardianStep(h, who, h.actors[who], o);
    assert ActorOk(h, who);
    if next.None? { return; }
    var h' := next.value;
    LeaveKeepsInv(h, who);
  }

  lemma GuardianStepKeepsInv(h: Host, who: Identity, o: Outcome)
    requires Inv(h) && who in h.actors && GuardianPc(h.actors[who])
    ensures Good(h, GuardianStep(h, who, h.actors[who], o))
  {
    match h.actors[who]
    case GuardianStarted => GuardianLockKeepsInv(h, who, o);
    case GuardianLocked => GuardianReadKeepsInv(h, who, o);
    case GuardianClaiming(_) => ClaimKeepsInv(h, who, o);
    case GuardianClaimed(_) => SpawnKeepsInv(h, who, o);
    case GuardianSpawned(_, _) =>
      if o.fails {
        RecordChildFailsKeepsInv(h, who, o);
      } else {
        RecordChildKeepsInv(h, who, o);
      }
    case GuardianWatching(_) => WatchKeepsInv(h, who, o);
    case GuardianStopping(_) => EmptyKeepsInv(h, who, o);
    case GuardianEmptied(_) => FinishKeepsInv(h, who, o);
    case GuardianEnded => EndKeepsInv(h, who, o);
  }

  lemma MaintainLockKeepsInv(h: Host, who: Identity, o: Outcome)
    requires Inv(h) && who in h.actors && h.actors[who].MaintainRead?
    ensures Good(h, MaintainStep(h, who, h.actors[who], o))
  {
    hide ReadFrom;
    var next := MaintainStep(h, who, h.actors[who], o);
    assert ActorOk(h, who);
    if next.None? { return; }
    var h' := next.value;
    ActorStepKeepsInv(h, h', who);
  }

  lemma RereadKeepsInv(h: Host, who: Identity, o: Outcome)
    requires Inv(h) && who in h.actors && h.actors[who].MaintainLocked?
    ensures Good(h, MaintainStep(h, who, h.actors[who], o))
  {
    hide ReadFrom;
    var next := MaintainStep(h, who, h.actors[who], o);
    assert ActorOk(h, who);
    if next.None? { return; }
    var h' := next.value;
    if h' == Leave(h, who) {
      LeaveKeepsInv(h, who);
    } else {
      HolderStepKeepsInv(h, h', who);
    }
  }

  lemma OrphanKeepsInv(h: Host, who: Identity, o: Outcome)
    requires Inv(h) && who in h.actors && h.actors[who].MaintainOwned?
             && h.actors[who].record.state != Exited && !Populated(h, h.actors[who].record)
    ensures Good(h, MaintainStep(h, who, h.actors[who], o))
  {
    hide ReadFrom;
    var next := MaintainStep(h, who, h.actors[who], o);
    assert ActorOk(h, who);
    if next.None? { return; }
    var h' := next.value;
    if h' == Leave(h, who) {
      LeaveKeepsInv(h, who);
    } else {
      HolderStepKeepsInv(h, h', who);
    }
  }

  lemma OccupiedOrphanKeepsInv(h: Host, who: Identity, o: Outcome)
    requires Inv(h) && who in h.actors && h.actors[who].MaintainOwned?
             && h.actors[who].record.state != Exited && Populated(h, h.actors[who].record)
    ensures Good(h, MaintainStep(h, who, h.actors[who], o))
  {
    hide ReadFrom;
    var next := MaintainStep(h, who, h.actors[who], o);
    assert ActorOk(h, who);
    if next.None? { return; }
    var h' := next.value;
    if h' == Leave(h, who) {
      LeaveKeepsInv(h, who);
    } else {
      HolderStepKeepsInv(h, h', who);
    }
  }

  lemma ExpireKeepsInv(h: Host, who: Identity, o: Outcome)
    requires Inv(h) && who in h.actors && h.actors[who].MaintainOwned?
             && h.actors[who].record.state == Exited
    ensures Good(h, MaintainStep(h, who, h.actors[who], o))
  {
    hide ReadFrom;
    var next := MaintainStep(h, who, h.actors[who], o);
    assert ActorOk(h, who);
    if next.None? { return; }
    var h' := next.value;
    if h' == Leave(h, who) {
      LeaveKeepsInv(h, who);
    } else {
      HolderStepKeepsInv(h, h', who);
    }
  }

  lemma ReportLostKeepsInv(h: Host, who: Identity, o: Outcome)
    requires Inv(h) && who in h.actors && h.actors[who].MaintainReporting?
    ensures Good(h, MaintainStep(h, who, h.actors[who], o))
  {
    hide ReadFrom;
    var next := MaintainStep(h, who, h.actors[who], o);
    assert ActorOk(h, who);
    if next.None? { return; }
    var h' := next.value;
    HolderStepKeepsInv(h, h', who);
  }

  lemma ReconcileKeepsInv(h: Host, who: Identity, o: Outcome)
    requires Inv(h) && who in h.actors && h.actors[who].MaintainEmptied?
    ensures Good(h, MaintainStep(h, who, h.actors[who], o))
  {
    hide ReadFrom;
    var next := MaintainStep(h, who, h.actors[who], o);
    assert ActorOk(h, who);
    if next.None? { return; }
    var h' := next.value;
    HolderStepKeepsInv(h, h', who);
  }

  lemma CompactKeepsInv(h: Host, who: Identity, o: Outcome)
    requires Inv(h) && who in h.actors && h.actors[who].MaintainCompacting?
    ensures Good(h, MaintainStep(h, who, h.actors[who], o))
  {
    hide ReadFrom;
    var next := MaintainStep(h, who, h.actors[who], o);
    assert ActorOk(h, who);
    if next.None? { return; }
    var h' := next.value;
    HolderStepKeepsInv(h, h', who);
  }

  lemma MaintainStepKeepsInv(h: Host, who: Identity, o: Outcome)
    requires Inv(h) && who in h.actors && MaintainPc(h.actors[who])
    ensures Good(h, MaintainStep(h, who, h.actors[who], o))
  {
    match h.actors[who]
    case MaintainRead => MaintainLockKeepsInv(h, who, o);
    case MaintainLocked => RereadKeepsInv(h, who, o);
    case MaintainOwned(record) =>
      if record.state == Exited {
        ExpireKeepsInv(h, who, o);
      } else if Populated(h, record) {
        OccupiedOrphanKeepsInv(h, who, o);
      } else {
        OrphanKeepsInv(h, who, o);
      }
    case MaintainReporting(_) => ReportLostKeepsInv(h, who, o);
    case MaintainEmptied(_) => ReconcileKeepsInv(h, who, o);
    case MaintainCompacting(_) => CompactKeepsInv(h, who, o);
  }

  lemma SeeMembersKeepsInv(h: Host, who: Identity)
    requires Inv(h) && who in h.actors && h.actors[who].InspectRead?
    ensures Good(h, InspectStep(h, who, h.actors[who]))
  {
    assert ActorOk(h, who);
    ActorStepKeepsInv(h, InspectStep(h, who, h.actors[who]).value, who);
  }

  lemma ConcludeKeepsInv(h: Host, who: Identity)
    requires Inv(h) && who in h.actors && h.actors[who].InspectSeen?
    ensures Good(h, InspectStep(h, who, h.actors[who]))
  {
    assert ActorOk(h, who);
    ActorStepKeepsInv(h, InspectStep(h, who, h.actors[who]).value, who);
  }

  lemma InspectStepKeepsInv(h: Host, who: Identity)
    requires Inv(h) && who in h.actors && InspectPc(h.actors[who])
    ensures Good(h, InspectStep(h, who, h.actors[who]))
  {
    match h.actors[who]
    case InspectRead(_) => SeeMembersKeepsInv(h, who);
    case InspectSeen(_, _) => ConcludeKeepsInv(h, who);
    case InspectDone(_, _) => LeaveKeepsInv(h, who);
  }

  lemma MembersStepKeepsInv(h: Host, h': Host)
    requires Inv(h) && Core(h') && Advances(h, h')
    requires h' == h.(members := h'.members, nextIdentity := h'.nextIdentity)
    requires h.members == {} ==> h'.members == {}
    ensures Inv(h')
  {
    forall a ensures ActorOk(h', a) {
      assert ActorOk(h, a);
      if a in h.actors && !HoldsLock(h.actors[a]) {
        PassiveActorKept(h, h', a);
      }
    }
  }

  lemma ArriveIsActorStep(h: Host, action: Action)
    requires Inv(h) && (action.Launch? || action.Maintain? || action.Inspect?) && Step(h, action).Some?
    ensures ActorStep(h, Step(h, action).value, h.nextIdentity)
  {
    assert ActorOk(h, h.nextIdentity);
    if action.Inspect? {
      assert ReadFrom(h, h.record.value);
    }
    hide Core, Inv;
  }

  lemma ArriveKeepsInv(h: Host, action: Action)
    requires Inv(h) && (action.Launch? || action.Maintain? || action.Inspect?)
    ensures Good(h, Step(h, action))
  {
    if Step(h, action).None? { return; }
    ArriveIsActorStep(h, action);
    hide Inv, ActorStep, Advances;
    ActorStepKeepsInv(h, Step(h, action).value, h.nextIdentity);
  }

  lemma EnvironmentKeepsInv(h: Host, action: Action)
    requires Inv(h) && (action.Fork? || action.ProcessesExit?)
    ensures Good(h, Step(h, action))
  {
    var next := Step(h, action);
    if next.None? { return; }
    MembersStepKeepsInv(h, next.value);
  }

  lemma ContinueKeepsInv(h: Host, who: Identity, o: Outcome)
    requires Inv(h)
    ensures Good(h, Step(h, Continue(who, o)))
  {
    if who !in h.actors { return; }
    var pc := h.actors[who];
    if LaunchPc(pc) {
      LaunchStepKeepsInv(h, who, o);
    } else if GuardianPc(pc) {
      GuardianStepKeepsInv(h, who, o);
    } else if MaintainPc(pc) {
      MaintainStepKeepsInv(h, who, o);
    } else {
      InspectStepKeepsInv(h, who);
    }
  }

  lemma StepKeepsInv(h: Host, action: Action)
    requires Inv(h)
    ensures Good(h, Step(h, action))
  {
    match action
    case Launch => ArriveKeepsInv(h, action);
    case Maintain => ArriveKeepsInv(h, action);
    case Inspect => ArriveKeepsInv(h, action);
    case Continue(who, o) => ContinueKeepsInv(h, who, o);
    case Vanish(who) =>
      if who in h.actors {
        LeaveKeepsInv(h, who);
      }
    case Fork => EnvironmentKeepsInv(h, action);
    case ProcessesExit(_) => EnvironmentKeepsInv(h, action);
  }
}
