/**
 How the supervisor chooses the identity of a replaceable service (web or application), over the hosts of that
 kind. The selected identity is durable and is stored before anything is launched under it; a new one is chosen
 only after an inspection says that the selected one is not alive. The supervisor may crash, or be replaced by
 exec, between any two of these steps, and hosts keep taking their own steps throughout.
 */
module ServiceIdentity {
  import opened Wrappers
  import opened HostRecords
  import opened HostProtocol
  import opened HostInvariant

  type Id = nat

  // Where the supervisor stands inside start_web or start_application.
  datatype Selection =
    | Idle
    | Inspecting(inspected: Id, reader: Identity)
    | Choosing
    | Stored(stored: Id)
    | Launching(launched: Id, launcher: Identity)

  // `trusted` records whether every not-alive verdict acted on so far was about a settled record.
  datatype System = System(
    hosts: map<Id, Host>,
    current: Option<Id>,
    selection: Selection,
    trusted: bool)

  const EMPTY_SYSTEM := System(map[], None, Idle, true)

  datatype SystemAction =
    | BeginStart
    | Conclude
    | StoreIdentity(id: Id)
    | BeginLaunch
    | LaunchReturns
    | SupervisorVanishes
    | HostAction(host: Id, action: Action)

  function WithHost(s: System, id: Id, h: Host): System {
    s.(hosts := s.hosts[id := h])
  }

  /** Takes a supervisor-owned activity away from its host, if it is still there. */
  function Drop(h: Host, who: Identity): Host {
    if who in h.actors then Leave(h, who) else h
  }

  function SystemStep(s: System, action: SystemAction): Option<System> {
    match action
    case BeginStart =>
      if !s.selection.Idle? then None
      else if s.current.None? then Some(s.(selection := Choosing))
      else if s.current.value !in s.hosts then None
      else
        var h := s.hosts[s.current.value];
        // Without a record the inspection reports an absent host, which is not alive.
        if h.record.None? then Some(s.(selection := Choosing))
        else Some(WithHost(s, s.current.value, Step(h, Inspect).value)
                  .(selection := Inspecting(s.current.value, h.nextIdentity)))
    case Conclude =>
      if !s.selection.Inspecting? || s.selection.inspected !in s.hosts then None
      else
        var h := s.hosts[s.selection.inspected];
        var reader := s.selection.reader;
        if reader !in h.actors || !h.actors[reader].InspectDone? then None
        else if h.actors[reader].alive then Some(s.(selection := Idle))
        else Some(s.(selection := Choosing, trusted := s.trusted && Settled(h.actors[reader].record)))
    case StoreIdentity(id) =>
      // Identities are random and never repeat.
      if !s.selection.Choosing? || id in s.hosts then None
      else Some(WithHost(s, id, EMPTY_HOST).(current := Some(id), selection := Stored(id)))
    case BeginLaunch =>
      if !s.selection.Stored? || s.selection.stored !in s.hosts then None
      else
        var h := s.hosts[s.selection.stored];
        if h.record.Some? then Some(s.(selection := Idle))
        else Some(WithHost(s, s.selection.stored, Step(h, Launch).value)
                  .(selection := Launching(s.selection.stored, h.nextIdentity)))
    case LaunchReturns =>
      if s.selection.Launching? && s.selection.launched in s.hosts
         && s.selection.launcher !in s.hosts[s.selection.launched].actors
      then Some(s.(selection := Idle)) else None
    case SupervisorVanishes =>
      match s.selection {
        case Launching(id, who) =>
          if id !in s.hosts then None else Some(WithHost(s, id, Drop(s.hosts[id], who)).(selection := Idle))
        case Inspecting(id, who) =>
          if id !in s.hosts then None else Some(WithHost(s, id, Drop(s.hosts[id], who)).(selection := Idle))
        case _ => Some(s.(selection := Idle))
      }
    case HostAction(id, hostAction) =>
      if id !in s.hosts || !Permitted(hostAction) then None
      else
        var next := Step(s.hosts[id], hostAction);
        if next.None? then None else Some(WithHost(s, id, next.value))
  }

  /** Only the supervisor launches a service host, and it does so in the isolation it was set up with. */
  predicate Permitted(action: Action) {
    !action.Launch? && (action.Continue? ==> action.outcome.isolation == Cgroup)
  }

  function SystemRun(s: System, actions: seq<SystemAction>): Option<System>
    decreases |actions|
  {
    if actions == [] then Some(s)
    else
      var next := SystemStep(s, actions[0]);
      if next.None? then None else SystemRun(next.value, actions[1..])
  }

  // The invariant.

  ghost predicate NoLauncher(h: Host) {
    forall who <- h.actors :: !LaunchPc(h.actors[who])
  }

  /** No process of the host exists, and none ever will again. */
  ghost predicate Quiet(h: Host) {
    && NoLauncher(h)
    && h.members == {}
    && NoGuardian(h)
    && (h.record.Some? ==> Gone(h))
  }

  predicate InCgroup(h: Host) {
    && (h.record.Some? ==> h.record.value.isolation == Cgroup)
    && forall who <- h.actors :: h.actors[who].LaunchGrouped? ==> h.actors[who].record.isolation == Cgroup
  }

  ghost predicate HostOk(s: System, id: Id) {
    id in s.hosts ==>
      && Inv(s.hosts[id])
      && InCgroup(s.hosts[id])
      && (forall who <- s.hosts[id].actors :: LaunchPc(s.hosts[id].actors[who]) ==> s.selection == Launching(id, who))
      && (s.trusted && (s.current != Some(id) || s.selection.Choosing?) ==> Quiet(s.hosts[id]))
  }

  ghost predicate SelectionOk(s: System) {
    && (s.current.Some? ==> s.current.value in s.hosts)
    && (s.selection.Stored? ==> s.current == Some(s.selection.stored))
    && (s.selection.Launching? ==> s.current == Some(s.selection.launched))
    && (s.selection.Inspecting? ==>
          && s.current == Some(s.selection.inspected)
          && s.hosts[s.selection.inspected].record.Some?
          && s.selection.reader < s.hosts[s.selection.inspected].nextIdentity
          && (s.selection.reader in s.hosts[s.selection.inspected].actors ==>
                InspectPc(s.hosts[s.selection.inspected].actors[s.selection.reader])))
  }

  ghost predicate SystemInv(s: System) {
    SelectionOk(s) && forall id :: HostOk(s, id)
  }

  // Host steps, as the supervisor's invariant sees them.

  lemma QuietKept(h: Host, action: Action)
    requires Inv(h) && InCgroup(h) && Quiet(h) && !action.Launch? && Step(h, action).Some?
    ensures Quiet(Step(h, action).value)
  {
    StepKeepsInv(h, action);
    CastKept(h, action);
    if action.Continue? || action.Vanish? {
      assert ActorOk(h, action.who);
    }
  }

  // No step but an arrival changes what kind of activity an actor is.

  datatype Cast = Launcher | Guardian | Maintainer | Reader

  function CastOf(pc: Pc): Cast {
    if LaunchPc(pc) then Launcher else if GuardianPc(pc) then Guardian else if MaintainPc(pc) then Maintainer
      else Reader
  }

  ghost predicate SameCast(h: Host, next: Option<Host>) {
    next.Some? ==>
      forall who <- next.value.actors ::
        if who in h.actors then CastOf(next.value.actors[who]) == CastOf(h.actors[who])
        else who == h.nextIdentity && !LaunchPc(next.value.actors[who])
  }

  /** A step that leaves every launcher where it is, or removes it. */
  ghost predicate LaunchersKept(h: Host, next: Option<Host>) {
    next.Some? ==>
      forall who <- next.value.actors ::
        LaunchPc(next.value.actors[who]) ==> who in h.actors && next.value.actors[who] == h.actors[who]
  }

  /** A step in which one actor moves on within its activity, or leaves. */
  ghost predicate OnlyMoves(h: Host, next: Option<Host>, who: Identity) {
    next.Some? && who in h.actors ==>
      || next.value.actors == h.actors - {who}
      || (&& who in next.value.actors
          && next.value.actors == h.actors[who := next.value.actors[who]]
          && CastOf(next.value.actors[who]) == CastOf(h.actors[who]))
  }

  lemma MovesKeepCast(h: Host, next: Option<Host>, who: Identity)
    requires who in h.actors && !LaunchPc(h.actors[who]) && OnlyMoves(h, next, who)
    ensures SameCast(h, next) && LaunchersKept(h, next)
  {
  }

  lemma LaunchCast(h: Host, who: Identity, o: Outcome)
    requires who in h.actors && LaunchPc(h.actors[who]) && h.nextIdentity !in h.actors
    ensures SameCast(h, LaunchStep(h, who, h.actors[who], o))
  {
  }

  lemma GuardianMoves(h: Host, who: Identity, o: Outcome)
    requires who in h.actors && GuardianPc(h.actors[who])
    ensures OnlyMoves(h, GuardianStep(h, who, h.actors[who], o), who)
  {
    hide Populated, Unclaimed, Started, StartFailed, Finished, Lost, Reconciled, Compacted, ReadyAt, Alive;
  }

  lemma GuardianCast(h: Host, who: Identity, o: Outcome)
    requires who in h.actors && GuardianPc(h.actors[who])
    ensures SameCast(h, GuardianStep(h, who, h.actors[who], o))
    ensures LaunchersKept(h, GuardianStep(h, who, h.actors[who], o))
  {
    GuardianMoves(h, who, o);
    MovesKeepCast(h, GuardianStep(h, who, h.actors[who], o), who);
  }

  lemma MaintainMoves(h: Host, who: Identity, o: Outcome)
    requires who in h.actors && MaintainPc(h.actors[who])
    ensures OnlyMoves(h, MaintainStep(h, who, h.actors[who], o), who)
  {
    hide Populated, Unclaimed, Started, StartFailed, Finished, Lost, Reconciled, Compacted, ReadyAt, Alive;
  }

  lemma MaintainCast(h: Host, who: Identity, o: Outcome)
    requires who in h.actors && MaintainPc(h.actors[who])
    ensures SameCast(h, MaintainStep(h, who, h.actors[who], o))
    ensures LaunchersKept(h, MaintainStep(h, who, h.actors[who], o))
  {
    MaintainMoves(h, who, o);
    MovesKeepCast(h, MaintainStep(h, who, h.actors[who], o), who);
  }

  lemma InspectCast(h: Host, who: Identity)
    requires who in h.actors && InspectPc(h.actors[who])
    ensures SameCast(h, InspectStep(h, who, h.actors[who]))
    ensures LaunchersKept(h, InspectStep(h, who, h.actors[who]))
  {
  }

  lemma ContinueCast(h: Host, who: Identity, o: Outcome)
    requires Inv(h)
    ensures SameCast(h, Step(h, Continue(who, o)))
    ensures who in h.actors && !LaunchPc(h.actors[who]) ==> LaunchersKept(h, Step(h, Continue(who, o)))
  {
    assert ActorOk(h, h.nextIdentity);
    if who !in h.actors { return; }
    var pc := h.actors[who];
    if LaunchPc(pc) {
      LaunchCast(h, who, o);
    } else if GuardianPc(pc) {
      GuardianCast(h, who, o);
    } else if MaintainPc(pc) {
      MaintainCast(h, who, o);
    } else {
      InspectCast(h, who);
    }
  }

  lemma CastKept(h: Host, action: Action)
    requires Inv(h) && !action.Launch?
    ensures SameCast(h, Step(h, action))
    ensures (action.Continue? && action.who in h.actors && LaunchPc(h.actors[action.who]))
            || LaunchersKept(h, Step(h, action))
  {
    if action.Continue? {
      ContinueCast(h, action.who, action.outcome);
    } else {
      assert ActorOk(h, h.nextIdentity);
    }
  }

  /** What the supervisor relies on of its reader: it stays a reader of an existing host, or it is gone. */
  lemma ReaderKept(h: Host, action: Action, reader: Identity)
    requires Inv(h) && !action.Launch? && Step(h, action).Some?
    requires reader < h.nextIdentity && (reader in h.actors ==> InspectPc(h.actors[reader]))
    ensures reader in Step(h, action).value.actors ==> InspectPc(Step(h, action).value.actors[reader])
    ensures h.record.Some? ==> Step(h, action).value.record.Some?
    ensures h.nextIdentity <= Step(h, action).value.nextIdentity
  {
    StepKeepsInv(h, action);
    CastKept(h, action);
  }

  lemma LaunchStepInCgroup(h: Host, who: Identity, o: Outcome)
    requires Inv(h) && InCgroup(h) && who in h.actors && LaunchPc(h.actors[who]) && o.isolation == Cgroup
    ensures LaunchStep(h, who, h.actors[who], o).Some? ==> InCgroup(LaunchStep(h, who, h.actors[who], o).value)
  {
    assert ActorOk(h, who);
  }

  lemma InCgroupKept(h: Host, action: Action)
    requires Inv(h) && InCgroup(h) && Step(h, action).Some?
    requires action.Continue? ==> action.outcome.isolation == Cgroup
    ensures InCgroup(Step(h, action).value)
  {
    StepKeepsInv(h, action);
    if action.Continue? && LaunchPc(h.actors[action.who]) {
      LaunchStepInCgroup(h, action.who, action.outcome);
    } else if !action.Launch? {
      CastKept(h, action);
      if action.Continue? {
        ContinueNeedsRecord(h, action.who);
      }
      OtherStepInCgroup(h, action);
    }
  }

  /** Only a launcher acts on a host without a record. */
  lemma ContinueNeedsRecord(h: Host, who: Identity)
    requires Inv(h) && who in h.actors && !LaunchPc(h.actors[who])
    ensures h.record.Some?
  {
    assert ActorOk(h, who);
  }

  lemma OtherStepInCgroup(h: Host, action: Action)
    requires InCgroup(h) && Step(h, action).Some?
    requires action.Continue? ==> h.record.Some?
    requires Advances(h, Step(h, action).value) && LaunchersKept(h, Step(h, action))
    ensures InCgroup(Step(h, action).value)
  {
  }

  /** What a step of one host does to the system's account of that host. */
  lemma HostKept(s: System, id: Id, action: Action)
    requires SystemInv(s) && SystemStep(s, HostAction(id, action)).Some?
    ensures HostOk(SystemStep(s, HostAction(id, action)).value, id)
  {
    var h := s.hosts[id];
    assert HostOk(s, id);
    StepKeepsInv(h, action);
    CastKept(h, action);
    InCgroupKept(h, action);
    hide Step, Inv, InCgroup, Gone, NoGuardian, SelectionOk;
    if Quiet(h) {
      QuietKept(h, action);
    }
  }

  lemma SelectionKept(s: System, id: Id, action: Action)
    requires SystemInv(s) && SystemStep(s, HostAction(id, action)).Some?
    ensures SelectionOk(SystemStep(s, HostAction(id, action)).value)
  {
    assert HostOk(s, id);
    hide Step, Inv, InCgroup, Quiet;
    if s.selection.Inspecting? && s.selection.inspected == id {
      ReaderKept(s.hosts[id], action, s.selection.reader);
    }
  }

  lemma HostActionKeepsInv(s: System, id: Id, action: Action)
    requires SystemInv(s) && SystemStep(s, HostAction(id, action)).Some?
    ensures SystemInv(SystemStep(s, HostAction(id, action)).value)
  {
    var s' := SystemStep(s, HostAction(id, action)).value;
    HostKept(s, id, action);
    SelectionKept(s, id, action);
    hide Step, Inv, InCgroup, Quiet, SelectionOk;
    forall i ensures HostOk(s', i) {
      assert HostOk(s, i);
    }
  }

  lemma BeginStartKeepsInv(s: System)
    requires SystemInv(s) && SystemStep(s, BeginStart).Some?
    ensures SystemInv(SystemStep(s, BeginStart).value)
  {
    var s' := SystemStep(s, BeginStart).value;
    if s.current.Some? {
      var h := s.hosts[s.current.value];
      assert HostOk(s, s.current.value);
      StepKeepsInv(h, Inspect);
      CastKept(h, Inspect);
    }
    forall i ensures HostOk(s', i) {
      assert HostOk(s, i);
    }
  }

  lemma ConcludeKeepsSystemInv(s: System)
    requires SystemInv(s) && SystemStep(s, Conclude).Some?
    ensures SystemInv(SystemStep(s, Conclude).value)
  {
    var s' := SystemStep(s, Conclude).value;
    assert ActorOk(s.hosts[s.selection.inspected], s.selection.reader) by {
      assert HostOk(s, s.selection.inspected);
    }
    forall i ensures HostOk(s', i) {
      assert HostOk(s, i);
    }
  }

  lemma BeginLaunchKeepsInv(s: System)
    requires SystemInv(s) && SystemStep(s, BeginLaunch).Some?
    ensures SystemInv(SystemStep(s, BeginLaunch).value)
  {
    var s' := SystemStep(s, BeginLaunch).value;
    var h := s.hosts[s.selection.stored];
    assert HostOk(s, s.selection.stored);
    StepKeepsInv(h, Launch);
    forall i ensures HostOk(s', i) {
      assert HostOk(s, i);
    }
  }

  lemma LeaveInCgroup(h: Host, who: Identity)
    requires InCgroup(h)
    ensures InCgroup(Leave(h, who))
  {
  }

  lemma SupervisorVanishesKeepsInv(s: System)
    requires SystemInv(s) && SystemStep(s, SupervisorVanishes).Some?
    ensures SystemInv(SystemStep(s, SupervisorVanishes).value)
  {
    hide Inv, InCgroup, Gone, NoGuardian;
    var s' := SystemStep(s, SupervisorVanishes).value;
    if s.selection.Launching? || s.selection.Inspecting? {
      var id, who := s.current.value, if s.selection.Launching? then s.selection.launcher else s.selection.reader;
      assert HostOk(s, id);
      if who in s.hosts[id].actors {
        LeaveKeepsInv(s.hosts[id], who);
        LeaveInCgroup(s.hosts[id], who);
        if Quiet(s.hosts[id]) {
          QuietKept(s.hosts[id], Vanish(who));
        }
      }
    }
    forall i ensures HostOk(s', i) {
      assert HostOk(s, i);
    }
  }

  lemma SystemStepKeepsInv(s: System, action: SystemAction)
    requires SystemInv(s) && SystemStep(s, action).Some?
    ensures SystemInv(SystemStep(s, action).value)
  {
    var s' := SystemStep(s, action).value;
    match action
    case BeginStart => BeginStartKeepsInv(s);
    case Conclude => ConcludeKeepsSystemInv(s);
    case BeginLaunch => BeginLaunchKeepsInv(s);
    case SupervisorVanishes => SupervisorVanishesKeepsInv(s);
    case HostAction(id, hostAction) => HostActionKeepsInv(s, id, hostAction);
    case _ =>
      assert Inv(EMPTY_HOST);
      forall i ensures HostOk(s', i) {
        assert HostOk(s, i);
      }
  }

  lemma {:induction false} SystemRunKeepsInv(s: System, actions: seq<SystemAction>)
    requires SystemInv(s) && SystemRun(s, actions).Some?
    ensures SystemInv(SystemRun(s, actions).value)
    decreases |actions|
  {
    if actions != [] {
      SystemStepKeepsInv(s, actions[0]);
      SystemRunKeepsInv(SystemStep(s, actions[0]).value, actions[1..]);
    }
  }

  ghost predicate SystemReaches(actions: seq<SystemAction>, s: System) {
    SystemRun(EMPTY_SYSTEM, actions) == Some(s)
  }

  /** A host has a living process: one it contains, or a guardian of its own. */
  ghost predicate Living(h: Host) {
    h.members != {} || exists who <- h.actors :: GuardianPc(h.actors[who])
  }

  /**
   Across crashes, replacements, explicit restarts and autonomous recovery, only the selected identity can have
   living processes, as long as no not-alive verdict about an unsettled record was acted on.
   */
  lemma OnlySelectedIdentityLives(actions: seq<SystemAction>, s: System, id: Id)
    requires SystemReaches(actions, s) && s.trusted
    requires id in s.hosts && Living(s.hosts[id])
    ensures s.current == Some(id)
  {
    assert SystemInv(EMPTY_SYSTEM);
    SystemRunKeepsInv(EMPTY_SYSTEM, actions);
    assert HostOk(s, id);
    if s.hosts[id].members == {} {
      var who :| who in s.hosts[id].actors && GuardianPc(s.hosts[id].actors[who]);
      assert ActorOk(s.hosts[id], who);
    }
  }
}
