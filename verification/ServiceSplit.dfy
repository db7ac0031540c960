/** Which not-alive verdicts can split a service, so that two of its identities live at once. */
module ServiceSplit {
  import opened Wrappers
  import opened HostRecords
  import opened HostProtocol
  import opened HostInvariant
  import opened ServiceIdentity

  /** A run from one state to another in which the supervisor acts on no verdict. */
  ghost predicate Leads(from: System, actions: seq<SystemAction>, to: System) {
    SystemRun(from, actions) == Some(to) && Conclude !in actions
  }

  /** The supervisor's own inspection stands here. */
  predicate InspectsAt(s: System, pc: Pc) {
    && s.selection.Inspecting? && s.selection.inspected in s.hosts
    && s.selection.reader in s.hosts[s.selection.inspected].actors
    && s.hosts[s.selection.inspected].actors[s.selection.reader] == pc
  }

  /** Some run has the supervisor reading this record of the selected identity. */
  ghost predicate SupervisorReads(record: Record) {
    exists actions, s :: SystemReaches(actions, s) && InspectsAt(s, InspectRead(record))
  }

  /** Two identities have processes that their hosts contain. */
  ghost predicate Split(s: System) {
    exists a: Id, b: Id :: a != b && a in s.hosts && b in s.hosts && s.hosts[a].members != {}
      && s.hosts[b].members != {}
  }

  /** A run in which the supervisor acts on this verdict first of those that can be wrong, and on none after it. */
  ghost predicate SplitRun(record: Record, before: seq<SystemAction>, s: System, after: seq<SystemAction>,
      end: System) {
    && SystemReaches(before, s) && s.trusted && InspectsAt(s, InspectDone(record, false))
    && SystemStep(s, Conclude).Some? && Leads(SystemStep(s, Conclude).value, after, end) && Split(end)
  }

  /** Acting on a not-alive verdict about this record can split the service. */
  ghost predicate MaySplit(record: Record) {
    exists before, s, after, end :: SplitRun(record, before, s, after, end)
  }

  // Verdicts on settled records do not.

  lemma {:induction false} TrustLasts(s: System, actions: seq<SystemAction>)
    requires s.trusted && SystemRun(s, actions).Some? && Conclude !in actions
    ensures SystemRun(s, actions).value.trusted
    decreases |actions|
  {
    if actions != [] {
      assert actions[0] in actions && forall action <- actions[1..] :: action in actions;
      TrustKept(s, actions[0]);
      hide SystemStep;
      TrustLasts(SystemStep(s, actions[0]).value, actions[1..]);
    }
  }

  lemma TrustKept(s: System, action: SystemAction)
    requires s.trusted && SystemStep(s, action).Some? && action != Conclude
    ensures SystemStep(s, action).value.trusted
  {
    hide Step;
  }

  lemma {:induction false} RunsJoin(s: System, a: seq<SystemAction>, b: seq<SystemAction>)
    requires SystemRun(s, a).Some?
    ensures SystemRun(s, a + b) == SystemRun(SystemRun(s, a).value, b)
    decreases |a|
  {
    hide SystemStep;
    if a == [] {
      assert a + b == b;
    } else {
      assert (a + b)[1..] == a[1..] + b;
      RunsJoin(SystemStep(s, a[0]).value, a[1..], b);
    }
  }

  lemma OneStep(s: System, action: SystemAction)
    ensures SystemRun(s, [action]) == SystemStep(s, action)
  {
    hide SystemStep;
    assert [action][1..] == [];
    assert SystemStep(s, action).Some? ==> SystemRun(SystemStep(s, action).value, []) == SystemStep(s, action);
  }

  lemma {:induction false} SettledNeverSplits(record: Record, before: seq<SystemAction>, s: System,
      after: seq<SystemAction>, end: System)
    requires SplitRun(record, before, s, after, end)
    ensures record.guard.Some? && !Settled(record)
  {
    hide SystemStep, Inv, InCgroup, SystemInv;
    if Settled(record) {
      assert SystemStep(s, Conclude).value.trusted by {
        SettledIsTrusted(s, record);
      }
      var s1 := SystemStep(s, Conclude).value;
      OneStep(s, Conclude);
      RunsJoin(EMPTY_SYSTEM, before, [Conclude]);
      RunsJoin(EMPTY_SYSTEM, before + [Conclude], after);
      TrustLasts(s1, after);
      var a: Id, b: Id :| a != b && a in end.hosts && b in end.hosts && end.hosts[a].members != {}
        && end.hosts[b].members != {};
      OnlySelectedIdentityLives(before + [Conclude] + after, end, a);
      OnlySelectedIdentityLives(before + [Conclude] + after, end, b);
    } else {
      NotAliveIsClaimed(before, s, record);
    }
  }

  lemma SettledIsTrusted(s: System, record: Record)
    requires s.trusted && InspectsAt(s, InspectDone(record, false)) && SystemStep(s, Conclude).Some? && Settled(record)
    ensures SystemStep(s, Conclude).value.trusted
  {
  }

  lemma ReachedInv(actions: seq<SystemAction>, s: System)
    requires SystemReaches(actions, s)
    ensures SystemInv(s)
  {
    assert SystemInv(EMPTY_SYSTEM);
    SystemRunKeepsInv(EMPTY_SYSTEM, actions);
  }

  lemma NotAliveIsClaimed(before: seq<SystemAction>, s: System, record: Record)
    requires SystemReaches(before, s) && InspectsAt(s, InspectDone(record, false)) && !Settled(record)
    ensures record.guard.Some?
  {
    ReachedInv(before, s);
    var h, reader := s.hosts[s.selection.inspected], s.selection.reader;
    assert HostOk(s, s.selection.inspected);
    assert ActorOk(h, reader);
    hide SystemReaches, SystemInv;
    assert record.child.None?;
  }

  // Verdicts on claimed and unsettled ones do.

  lemma Extend(from: System, actions: seq<SystemAction>, s: System, action: SystemAction)
    returns (actions': seq<SystemAction>, s': System)
    requires Leads(from, actions, s) && action != Conclude && SystemStep(s, action).Some?
    ensures Leads(from, actions', s') && SystemStep(s, action) == Some(s')
  {
    hide SystemStep;
    RunsJoin(from, actions, [action]);
    OneStep(s, action);
    actions', s' := actions + [action], SystemStep(s, action).value;
  }

  lemma OnHost(from: System, actions: seq<SystemAction>, s: System, id: Id, action: Action, h: Host)
    returns (actions': seq<SystemAction>, s': System)
    requires Leads(from, actions, s) && id in s.hosts && Permitted(action) && Step(s.hosts[id], action) == Some(h)
    ensures Leads(from, actions', s') && s' == WithHost(s, id, h)
  {
    hide Step, SystemRun;
    actions', s' := Extend(from, actions, s, HostAction(id, action));
  }

  // The stages of a host whose first guardian is g.

  function Reserved(record: Record, n: Identity): Host {
    Host(Some(record), Some(0), true, {}, map[0 := LaunchReserved(record)], n, 0, 0, 0)
  }

  function Unowned(record: Record, g: Identity): Host {
    Host(Some(record), None, true, {}, map[g := GuardianStarted], g + 1, 0, 1, g)
  }

  function Owned(record: Record, g: Identity): Host {
    Host(Some(record), Some(g), true, {}, map[g := GuardianClaimed(record)], g + 1, 0, 1, g)
  }

  function Claiming(record: Record, g: Identity, pc: Pc): Host {
    Unowned(record, g).(holder := Some(g), actors := map[g := pc])
  }

  function ReadBy(record: Record, g: Identity): Host {
    Host(Some(record), Some(g), true, {}, map[g := GuardianClaimed(record), g + 1 := InspectRead(record)],
         g + 2, 0, 1, g)
  }

  function Looked(record: Record, g: Identity): Host {
    Host(Some(record), Some(g), true, {}, map[g := GuardianClaimed(record), g + 1 := InspectSeen(record, false)],
         g + 2, 0, 1, g)
  }

  function Spawned(record: Record, g: Identity): Host {
    Host(Some(record), Some(g), true, {g + 2},
      map[g := GuardianSpawned(record, g + 2), g + 1 := InspectSeen(record, false)],
         g + 3, 1, 1, g)
  }

  function Left(record: Record, g: Identity): Host {
    Host(Some(record), None, true, {g + 2}, map[g + 1 := InspectSeen(record, false)], g + 3, 1, 1, g)
  }

  function Raced(record: Record, g: Identity): Host {
    Host(Some(record), None, true, {g + 2}, map[g + 1 := InspectDone(record, false)], g + 3, 1, 1, g)
  }

  /** What the environment decides when such a record is written. */
  predicate Fits(o: Outcome, record: Record) {
    && o.isolation == Cgroup && !o.fails
    && record == NewRecord(Cgroup, o.environment, o.now, o.readinessRequired).(guard := record.guard)
  }

  /** The record before its guardian claimed it. */
  function Reservable(record: Record): Record {
    record.(guard := None)
  }

  // Maps of one or two actors.

  lemma OneMoves(a: Identity, pc: Pc, pc': Pc)
    ensures map[a := pc][a := pc'] == map[a := pc']
  {
  }

  lemma OneOfTwoMoves(a: Identity, pc: Pc, b: Identity, pc2: Pc, pc': Pc)
    requires a != b
    ensures map[a := pc][b := pc2] == map[a := pc, b := pc2]
    ensures map[a := pc, b := pc2][a := pc'] == map[a := pc', b := pc2]
    ensures map[a := pc, b := pc2][b := pc'] == map[a := pc, b := pc']
    ensures map[a := pc, b := pc2] - {a} == map[b := pc2]
    ensures map[a := pc, b := pc2] - {b} == map[a := pc]
  {
  }

  lemma FreshReservation(o: Outcome, record: Record)
    requires Fits(o, record)
    ensures var r := Reservable(record);
            && Step(Host(None, None, false, {}, map[0 := LaunchChecked], 1, 0, 0, 0), Continue(0, o)) ==
               Some(Host(None, Some(0), false, {}, map[0 := LaunchLocked], 1, 0, 0, 0))
            && Step(Host(None, Some(0), false, {}, map[0 := LaunchLocked], 1, 0, 0, 0), Continue(0, o)) ==
               Some(Host(None, Some(0), false, {}, map[0 := LaunchConfirmed], 1, 0, 0, 0))
            && Step(Host(None, Some(0), false, {}, map[0 := LaunchConfirmed], 1, 0, 0, 0), Continue(0, o)) ==
               Some(Host(None, Some(0), true, {}, map[0 := LaunchGrouped(r)], 1, 0, 0, 0))
            && Step(Host(None, Some(0), true, {}, map[0 := LaunchGrouped(r)], 1, 0, 0, 0), Continue(0, o))
              == Some(Reserved(r, 1))
  {
    var r := Reservable(record);
    OneMoves(0, LaunchChecked, LaunchLocked);
    OneMoves(0, LaunchLocked, LaunchConfirmed);
    OneMoves(0, LaunchConfirmed, LaunchGrouped(r));
    OneMoves(0, LaunchGrouped(r), LaunchReserved(r));
  }

  /** From a free choice to a reservation on disk. */
  lemma ReachReservation(from: System, actions: seq<SystemAction>, s: System, id: Id, record: Record, o: Outcome)
    returns (actions': seq<SystemAction>, s': System)
    requires Leads(from, actions, s) && s.selection.Choosing? && id !in s.hosts && Fits(o, record)
    ensures Leads(from, actions', s')
    ensures s' == s.(hosts := s.hosts[id := Reserved(Reservable(record), 1)], current := Some(id),
            selection := Launching(id, 0))
  {
    hide SystemRun, Leads;
    actions', s' := Extend(from, actions, s, StoreIdentity(id));
    assert s' == s.(hosts := s.hosts[id := EMPTY_HOST], current := Some(id), selection := Stored(id));
    actions', s' := Extend(from, actions', s', BeginLaunch);
    var h := Host(None, None, false, {}, map[0 := LaunchChecked], 1, 0, 0, 0);
    assert s'.hosts[id].actors == h.actors;
    assert s' == s.(hosts := s.hosts[id := h], current := Some(id), selection := Launching(id, 0));
    actions', s' := LaunchReserves(from, actions', s', id, record, o);
  }

  lemma LaunchReserves(from: System, actions: seq<SystemAction>, s: System, id: Id, record: Record, o: Outcome)
    returns (actions': seq<SystemAction>, s': System)
    requires Leads(from, actions, s) && id in s.hosts && Fits(o, record)
    requires s.hosts[id] == Host(None, None, false, {}, map[0 := LaunchChecked], 1, 0, 0, 0)
    ensures Leads(from, actions', s') && s' == WithHost(s, id, Reserved(Reservable(record), 1))
  {
    hide SystemRun, Leads, Step;
    var r := Reservable(record);
    FreshReservation(o, record);
    actions', s' := OnHost(from, actions, s, id, Continue(0, o),
      Host(None, Some(0), false, {}, map[0 := LaunchLocked], 1, 0, 0, 0));
    actions', s' := OnHost(from, actions', s', id, Continue(0, o),
      Host(None, Some(0), false, {}, map[0 := LaunchConfirmed], 1, 0, 0, 0));
    actions', s' := OnHost(from, actions', s', id, Continue(0, o),
      Host(None, Some(0), true, {}, map[0 := LaunchGrouped(r)], 1, 0, 0, 0));
    actions', s' := OnHost(from, actions', s', id, Continue(0, o), Reserved(r, 1));
    assert s'.hosts == s.hosts[id := Reserved(r, 1)];
  }

  lemma ComeAndGo(record: Record, n: Identity)
    requires n >= 1
    ensures var seen := Reserved(record, n).(actors := map[0 := LaunchReserved(record), n := InspectRead(record)],
            nextIdentity := n + 1);
            Step(Reserved(record, n), Inspect) == Some(seen) && Step(seen, Vanish(n)) == Some(Reserved(record, n + 1))
  {
    OneOfTwoMoves(0, LaunchReserved(record), n, InspectRead(record), LaunchChecked);
  }

  /** Inspections that come and go move the identity of the next process on. */
  lemma {:induction false} ReachSpawn(from: System, actions: seq<SystemAction>, s: System, id: Id, record: Record,
      n: Identity, g: Identity)
    returns (actions': seq<SystemAction>, s': System)
    requires Leads(from, actions, s) && id in s.hosts && 1 <= n <= g && s.hosts[id] == Reserved(record, n)
    ensures Leads(from, actions', s') && s' == WithHost(s, id, Reserved(record, g))
    decreases g - n
  {
    hide SystemRun, Leads, Step;
    if n == g {
      actions', s' := actions, s;
      assert s.hosts[id := s.hosts[id]] == s.hosts;
    } else {
      ComeAndGo(record, n);
      var seen := Step(Reserved(record, n), Inspect).value;
      actions', s' := OnHost(from, actions, s, id, Inspect, seen);
      actions', s' := OnHost(from, actions', s', id, Vanish(n), Reserved(record, n + 1));
      actions', s' := ReachSpawn(from, actions', s', id, record, n + 1, g);
      assert s'.hosts == s.hosts[id := Reserved(record, g)];
    }
  }

  lemma SpawnsGuardian(o: Outcome, r: Record, g: Identity)
    requires !o.fails && g >= 1
    ensures Step(Reserved(r, g), Continue(0, o)) == Some(Unowned(r, g))
  {
    OneOfTwoMoves(0, LaunchReserved(r), g, GuardianStarted, LaunchChecked);
  }

  lemma GuardianOwns(o: Outcome, record: Record, g: Identity)
    requires Fits(o, record) && record.guard == Some(g)
    ensures var r := Reservable(record);
            && Step(Unowned(r, g), Continue(g, o)) == Some(Claiming(r, g, GuardianLocked))
            && Step(Claiming(r, g, GuardianLocked), Continue(g, o)) == Some(Claiming(r, g, GuardianClaiming(r)))
            && Step(Claiming(r, g, GuardianClaiming(r)), Continue(g, o)) == Some(Owned(record, g))
  {
    var r := Reservable(record);
    OneMoves(g, GuardianStarted, GuardianLocked);
    OneMoves(g, GuardianLocked, GuardianClaiming(r));
    OneMoves(g, GuardianClaiming(r), GuardianClaimed(record));
  }

  /** From the reservation to the claim of guardian g. */
  lemma ReachClaim(from: System, actions: seq<SystemAction>, s: System, id: Id, record: Record, g: Identity, o: Outcome)
    returns (actions': seq<SystemAction>, s': System)
    requires Leads(from, actions, s) && id in s.hosts && Fits(o, record) && record.guard == Some(g) && g >= 1
    requires s.hosts[id] == Reserved(Reservable(record), g) && s.selection == Launching(id, 0)
    ensures Leads(from, actions', s') && s' == WithHost(s, id, Owned(record, g)).(selection := Idle)
  {
    hide SystemRun, Leads, Step;
    var r := Reservable(record);
    SpawnsGuardian(o, r, g);
    GuardianOwns(o, record, g);
    actions', s' := OnHost(from, actions, s, id, Continue(0, o), Unowned(r, g));
    actions', s' := Extend(from, actions', s', LaunchReturns);
    actions', s' := OnHost(from, actions', s', id, Continue(g, o), Claiming(r, g, GuardianLocked));
    actions', s' := OnHost(from, actions', s', id, Continue(g, o), Claiming(r, g, GuardianClaiming(r)));
    actions', s' := OnHost(from, actions', s', id, Continue(g, o), Owned(record, g));
    assert s'.hosts == s.hosts[id := Owned(record, g)];
  }

  lemma ReaderLooks(o: Outcome, record: Record, g: Identity)
    requires record.group
    ensures Step(Owned(record, g), Inspect) == Some(ReadBy(record, g))
    ensures Step(ReadBy(record, g), Continue(g + 1, o)) == Some(Looked(record, g))
  {
    OneOfTwoMoves(g, GuardianClaimed(record), g + 1, InspectRead(record), InspectSeen(record, false));
  }

  lemma GuardianSpawns(o: Outcome, record: Record, g: Identity)
    requires !o.fails && record.group
    ensures Step(Looked(record, g), Continue(g, o)) == Some(Spawned(record, g))
    ensures Step(Spawned(record, g), Vanish(g)) == Some(Left(record, g))
  {
    assert {} + {g + 2} == {g + 2};
    OneOfTwoMoves(g, GuardianClaimed(record), g + 1, InspectSeen(record, false), GuardianSpawned(record, g + 2));
    OneOfTwoMoves(g, GuardianSpawned(record, g + 2), g + 1, InspectSeen(record, false), LaunchChecked);
  }

  lemma ReaderConcludes(o: Outcome, record: Record, g: Identity)
    requires record.state == Starting && record.group && record.guard == Some(g)
    ensures Step(Left(record, g), Continue(g + 1, o)) == Some(Raced(record, g))
  {
    OneMoves(g + 1, InspectSeen(record, false), InspectDone(record, false));
  }

  /** The supervisor inspects; the guardian spawns its child and dies between the two looks. */
  lemma ReachVerdict(from: System, actions: seq<SystemAction>, s: System, id: Id, record: Record, g: Identity,
      o: Outcome)
    returns (actions': seq<SystemAction>, s': System)
    requires Leads(from, actions, s) && s.selection.Idle? && s.current == Some(id) && id in s.hosts
    requires Fits(o, record) && record.guard == Some(g) && g >= 1 && s.hosts[id] == Owned(record, g)
    ensures Leads(from, actions', s') && s' == WithHost(s, id, Raced(record, g)).(selection := Inspecting(id, g + 1))
  {
    hide SystemRun, Leads, Step;
    ReaderLooks(o, record, g);
    GuardianSpawns(o, record, g);
    ReaderConcludes(o, record, g);
    actions', s' := Extend(from, actions, s, BeginStart);
    actions', s' := OnHost(from, actions', s', id, Continue(g + 1, o), Looked(record, g));
    actions', s' := OnHost(from, actions', s', id, Continue(g, o), Spawned(record, g));
    actions', s' := OnHost(from, actions', s', id, Vanish(g), Left(record, g));
    actions', s' := OnHost(from, actions', s', id, Continue(g + 1, o), Raced(record, g));
    assert s'.hosts == s.hosts[id := Raced(record, g)];
  }

  /** The choice that follows, up to the child of the next identity. */
  lemma ReachSecondChild(from: System, actions: seq<SystemAction>, s: System, id: Id, record: Record, o: Outcome)
    returns (actions': seq<SystemAction>, s': System)
    requires Leads(from, actions, s) && s.selection.Choosing? && id !in s.hosts && Fits(o, record)
             && record.guard == Some(1)
    ensures Leads(from, actions', s') && id in s'.hosts && s'.hosts[id].members != {}
    ensures forall other <- s.hosts :: other in s'.hosts && s'.hosts[other] == s.hosts[other]
  {
    hide SystemRun, Leads;
    actions', s' := ReachReservation(from, actions, s, id, record, o);
    actions', s' := ReachClaim(from, actions', s', id, record, 1, o);
    var h := Step(Owned(record, 1), Continue(1, o)).value;
    assert 2 in h.members;
    actions', s' := OnHost(from, actions', s', id, Continue(1, o), h);
  }

  /**
   For every claimed, unsettled reservation there is a run that splits the service, and two children live at its end.
   */
  lemma UnsettledVerdictSplitsService(record: Record, g: Identity, o: Outcome)
    requires Fits(o, record) && record.guard == Some(g) && g >= 1
    ensures MaySplit(record)
  {
    hide SystemRun, SystemStep;
    var before, s := ReachWrongVerdict(record, g, o);
    assert SystemReaches(before, s);
    ActOnVerdict(s, record, g);
    var chosen := s.(selection := Choosing, trusted := false);
    StartsHere(chosen);
    var after, end := ReachSecondChild(chosen, [], chosen, 1, record.(guard := Some(1)), o);
    assert end.hosts[0].members == {g + 2} && g + 2 in end.hosts[0].members;
    assert Split(end);
    assert SplitRun(record, before, s, after, end);
  }

  lemma StartsHere(s: System)
    ensures Leads(s, [], s)
  {
  }

  lemma ReachWrongVerdict(record: Record, g: Identity, o: Outcome) returns (before: seq<SystemAction>, s: System)
    requires Fits(o, record) && record.guard == Some(g) && g >= 1
    ensures Leads(EMPTY_SYSTEM, before, s) && s.trusted && s.hosts == map[0 := Raced(record, g)]
    ensures s.selection == Inspecting(0, g + 1)
  {
    hide SystemRun, Step;
    StartsHere(EMPTY_SYSTEM);
    before, s := Extend(EMPTY_SYSTEM, [], EMPTY_SYSTEM, BeginStart);
    hide SystemStep, Leads;
    before, s := ReachReservation(EMPTY_SYSTEM, before, s, 0, record, o);
    before, s := ReachSpawn(EMPTY_SYSTEM, before, s, 0, Reservable(record), 1, g);
    before, s := ReachClaim(EMPTY_SYSTEM, before, s, 0, record, g, o);
    before, s := ReachVerdict(EMPTY_SYSTEM, before, s, 0, record, g, o);
    assert s.hosts == map[0 := Raced(record, g)];
  }

  lemma ActOnVerdict(s: System, record: Record, g: Identity)
    requires s.hosts == map[0 := Raced(record, g)] && s.selection == Inspecting(0, g + 1) && !Settled(record)
    ensures InspectsAt(s, InspectDone(record, false))
    ensures SystemStep(s, Conclude) == Some(s.(selection := Choosing, trusted := false))
  {
  }

  /** A record that the supervisor reads and that is claimed and unsettled is a reservation and nothing more. */
  lemma ReadReservation(record: Record)
    requires SupervisorReads(record) && record.guard.Some? && !Settled(record)
    ensures record == NewRecord(Cgroup, record.environment, record.lifecycle.createdAt,
            record.lifecycle.readinessRequired).(guard := record.guard)
    ensures record.guard.value >= 1
  {
    var actions, s :| SystemReaches(actions, s) && InspectsAt(s, InspectRead(record));
    ReachedInv(actions, s);
    assert HostOk(s, s.selection.inspected);
    assert ActorOk(s.hosts[s.selection.inspected], s.selection.reader);
    hide SystemReaches, SystemInv, Core;
  }

  /**
   Of the records that the supervisor's inspection can read, acting on a not-alive verdict can split the service exactly
   for those that are claimed and unsettled, whatever identities, times and environments are in them.
   */
  lemma SplitsIffUnsettled(record: Record)
    requires SupervisorReads(record)
    ensures MaySplit(record) <==> record.guard.Some? && !Settled(record)
  {
    hide SystemReaches, SplitRun;
    if MaySplit(record) {
      var before, s, after, end :| SplitRun(record, before, s, after, end);
      SettledNeverSplits(record, before, s, after, end);
    }
    if record.guard.Some? && !Settled(record) {
      ReadReservation(record);
      var o := Outcome(record.lifecycle.createdAt, false, false, false, Cgroup, record.environment,
                       record.lifecycle.readinessRequired, None, NoEvidence, NoStop, false);
      UnsettledVerdictSplitsService(record, record.guard.value, o);
    }
  }
}
