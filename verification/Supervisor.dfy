/**
 The supervisor's control loop: one pending lifecycle operation, one pending exit, bounded connections, and the
 application service whose release must follow the configuration. Files and inspections may fail at any point.
 */
module Supervisor {
  import opened Wrappers

  type ConnectionId = nat
  type HostId = nat
  type Release = nat

  // `supported` is what the release's manifest says about the application runtime.
  datatype Config = Config(release: Release, supported: bool)

  datatype Kind = Web | Application | Update | Work

  // A replacement is asked for under a candidate configuration; `next` is the release of that, which the successor
  // runs.
  datatype Exit = ExitStop | ExitReplace(next: Release)

  datatype AfterStop =
    | Inspected
    | Restart(candidate: Config)
    | Shutdown
    | Activate(candidate: Config)
    | Replacing(next: Release)

  datatype Operation =
    | Reply(exit: Option<Exit>)
    | LaunchWait(kind: Kind, id: HostId)
    | StopWait(kind: Kind, id: HostId, after: AfterStop)
  {
    predicate OwnsWeb() {
      !Reply? && (kind == Web || kind == Application)
    }
  }

  datatype Request =
    | Status
    | List
    | InspectHost
    | Launch(kind: Kind)
    | Terminate
    | RestartWeb
    | Replace
    | StartUpdate
    | StartApplication(release: Release)
    | Stop
  {
    predicate ReadOnly() {
      Status? || List? || InspectHost?
    }
  }

  // What polling the pending operation came to.
  datatype Polled = Idle | Waits | Ended | EndedWith(exit: Exit)

  /**
   The operation is over with the host it waited out: what it was for needs nothing else, or nothing is left to stop.
   `cleared` says of stopping the application whether nothing was left, or something is, or neither can be told.
   */
  predicate NothingLeft(operation: Operation, cleared: Option<bool>)
    requires operation.StopWait?
  {
    || operation.after.Replacing?
    || (operation.after.Shutdown? && (operation.kind == Application || cleared == Some(true)))
  }

  function ExitOf(after: AfterStop): Exit
    requires after.Shutdown? || after.Replacing?
  {
    if after.Replacing? then ExitReplace(after.next) else ExitStop
  }

  /** What a request can begin. */
  predicate Fits(request: Request, operation: Operation) {
    match request
    case Launch(_) => operation == Reply(None) || (operation.LaunchWait? && operation.kind == Work)
    case Terminate => operation.StopWait? && operation.kind == Work && operation.after == Inspected
    case RestartWeb =>
      || operation == Reply(None)
      || (operation.LaunchWait? && operation.kind == Web)
      || (operation.StopWait? && operation.kind == Web && operation.after.Restart?)
      || (operation.StopWait? && operation.kind == Application && operation.after.Activate?)
    case Replace =>
      || (operation.Reply? && operation.exit.Some? && operation.exit.value.ExitReplace?)
      || (operation.StopWait? && operation.kind == Application && operation.after.Replacing?)
    case StartUpdate => operation == Reply(None) || (operation.LaunchWait? && operation.kind == Update)
    case Stop =>
      || operation == Reply(Some(ExitStop))
      || (operation.StopWait? && (operation.kind == Web || operation.kind == Application)
          && operation.after == Shutdown)
    case _ => operation == Reply(None)
  }

  // A control connection. The request is taken out of Waiting when it is begun.
  datatype Phase = Reading | Waiting(request: Option<Request>) | Writing | Closed

  datatype Connection = Connection(id: ConnectionId, phase: Phase) {

    function Request(): Option<Request> {
      if phase.Waiting? then phase.request else None
    }

    function Replied(): Connection {
      if phase.Closed? then this else this.(phase := Writing)
    }

    /** Its request can still be begun. */
    predicate Unbegun() {
      phase.Reading? || Request().Some?
    }

    /** What one poll can do, whatever the peer and the clock are up to. */
    predicate Polls(next: Connection) {
      next.id == id &&
      match phase
      case Reading => next.phase != Waiting(None)
      case Waiting(_) => next.phase == phase || next.phase == Closed
      case Writing => next.phase == Writing || next.phase == Closed
      case Closed => next.phase == Closed
    }
  }

  const MAX_CONNECTIONS := 32

  class Supervisor {
    var config: Config
    // The release the application may be recovered for, and the two selected identities.
    var enabled: Option<Release>
    var application: Option<HostId>
    var web: Option<HostId>
    var pending: Option<(ConnectionId, Operation)>
    var exiting: Option<(ConnectionId, Exit)>
    var connections: seq<Connection>
    var nextId: ConnectionId

    // The surroundings: application hosts that may have living processes, each with the release it was
    // launched from, and the source of identities, which never repeats one.
    var living: map<HostId, Release>
    var nextHost: HostId

    // The connections whose request has been begun, in order.
    ghost var begun: seq<ConnectionId>

    // Whether every not-alive verdict that was acted on was right. ServiceSplit says which can be wrong.
    ghost var trusted: bool

    /** A living application host is the selected one, and it runs the configured release. */
    ghost predicate ReleaseOk()
      reads this`application, this`nextHost, this`living, this`config, this`trusted
    {
      && (application.Some? ==> application.value < nextHost)
      && (forall id <- living :: id < nextHost)
      && (trusted ==> forall id <- living :: application == Some(id) && living[id] == config.release)
    }

    /** No application host lives. */
    ghost predicate AllGone()
      reads this`living, this`trusted
    {
      trusted ==> living == map[]
    }

    /** The application is disabled and being waited out, before a release switch, a replacement or an exit. */
    predicate HandingOver()
      reads this`pending
    {
      pending.Some? && pending.value.1.StopWait? && pending.value.1.kind == Application
    }

    predicate PendingOk()
      reads this`pending, this`exiting, this`application, this`enabled
    {
      && !(pending.Some? && exiting.Some?)
      && (pending.Some? ==> OperationOk(pending.value.1))
    }

    predicate OperationOk(operation: Operation)
      reads this`application, this`enabled
    {
      match operation
      case Reply(exit) => exit.None?
      case LaunchWait(kind, _) => kind != Application
      case StopWait(kind, id, after) =>
        if kind == Application then application == Some(id) && enabled.None? && !after.Restart?
        else !after.Activate? && !after.Replacing?
    }

    ghost predicate RequestsOk()
      reads this`connections, this`nextId, this`begun
    {
      && |connections| <= MAX_CONNECTIONS
      && (forall i | 0 <= i < |connections| :: connections[i].id < nextId)
      && (forall i, j | 0 <= i < j < |connections| :: connections[i].id != connections[j].id)
      && (forall i | 0 <= i < |begun| :: begun[i] < nextId)
      && (forall i, j | 0 <= i < j < |begun| :: begun[i] != begun[j])
      && (forall i | 0 <= i < |connections| :: connections[i].Unbegun() ==> connections[i].id !in begun)
    }

    /** A peer whose request was taken is answered, unless the pending operation is its own. */
    ghost predicate AnswersOk()
      reads this`connections, this`pending
    {
      forall i | 0 <= i < |connections| ::
        connections[i].phase == Waiting(None) ==> pending.Some? && pending.value.0 == connections[i].id
    }

    /** Before an exit the application is disabled and gone, or it runs the release of the successor already. */
    ghost predicate ExitOk(exit: Exit)
      reads this`living, this`trusted, this`enabled, this`config
    {
      (exit.ExitReplace? && exit.next == config.release) || (AllGone() && enabled.None?)
    }

    ghost predicate Valid()
      reads this
    {
      ReleaseOk() && PendingOk() && RequestsOk() && AnswersOk() && (exiting.Some? ==> ExitOk(exiting.value.1))
    }

    /** A supervisor starting where no application of another release is alive. */
    constructor (config: Config, enabled: Option<Release>, application: Option<HostId>, web: Option<HostId>,
                 living: map<HostId, Release>, nextHost: HostId, ghost trusted: bool)
      requires application.Some? ==> application.value < nextHost
      requires forall id <- living :: id < nextHost
      requires trusted ==> forall id <- living :: application == Some(id) && living[id] == config.release
      ensures Valid() && pending.None? && exiting.None? && begun == [] && this.config == config
      ensures this.trusted == trusted && this.living == living
    {
      this.config, this.enabled, this.application, this.web := config, enabled, application, web;
      pending, exiting, connections, nextId := None, None, [], 0;
      this.living, this.nextHost, this.trusted := living, nextHost, trusted;
      begun := [];
    }

    /** Hosts may end at any moment, and none starts by itself. */
    method HostsMayEnd()
      requires ReleaseOk()
      modifies this`living
      ensures ReleaseOk()
      ensures living.Keys <= old(living).Keys
    {
      var ended: set<HostId> := *;
      living := living - ended;
    }

    /** An inspection may fail, and either verdict may be wrong; a wrong not-alive one is no more to be trusted. */
    method InspectApplication(id: HostId) returns (ok: bool, alive: bool)
      modifies this`trusted
      ensures trusted <==> old(trusted) && (ok && !alive ==> id !in living)
    {
      ok, alive := *, *;
      trusted := trusted && (ok && !alive ==> id !in living);
    }

    /** A durable write may fail, with or without having taken effect. */
    method DisableApplication() returns (ok: bool)
      modifies this`enabled
      ensures ok ==> enabled.None?
      ensures enabled.None? || enabled == old(enabled)
    {
      ok := *;
      var written: bool := *;
      if ok || written {
        enabled := None;
      }
    }

    /** None is a failure; Some(None) means that there was nothing to stop. */
    method StopApplication(after: AfterStop) returns (r: Option<Option<Operation>>)
      requires enabled.None? && !after.Restart?
      modifies this`trusted
      ensures trusted ==> old(trusted)
      ensures r.Some? && r.value.None? && trusted ==> application.None? || application.value !in living
      ensures r.Some? && r.value.Some? ==>
                OperationOk(r.value.value) && application.Some?
                && r.value.value == StopWait(Application, application.value, after)
    {
      if application.None? { return Some(None); }
      var ok, alive := InspectApplication(application.value);
      if !ok { return None; }
      if !alive { return Some(None); }
      var signalled: bool := *;
      if !signalled { return None; }
      return Some(Some(StopWait(Application, application.value, after)));
    }

    /** Launches a host of some kind under an identity that is already stored. */
    method LaunchHost(kind: Kind, id: HostId) returns (r: Option<Operation>)
      requires kind == Application ==> application == Some(id) && id < nextHost && AllGone()
      requires ReleaseOk()
      modifies this`living
      ensures ReleaseOk()
      ensures kind != Application ==> living == old(living)
      ensures r.Some? ==> r.value == Reply(None) || r.value == LaunchWait(kind, id)
    {
      var ok: bool, reserved: bool := *, *;
      // Whatever the outcome, a guardian may have been started from the configured release.
      if kind == Application {
        living := living[id := config.release];
      }
      r := if !ok then None else if reserved then Some(LaunchWait(kind, id)) else Some(Reply(None));
    }

    /** The outcome is read by nobody but the caller that drops it: start_application never waits. */
    method StartApplicationHost() returns (r: Option<Operation>)
      requires ReleaseOk()
      modifies this`application, this`living, this`nextHost, this`trusted
      ensures ReleaseOk() && (trusted ==> old(trusted))
      ensures application == old(application) ==> living == old(living)
      ensures application != old(application) ==>
                application == Some(old(nextHost)) && (trusted ==> old(living) == map[])
      ensures r.Some? ==> application.Some?
    {
      if application.Some? {
        var ok, alive := InspectApplication(application.value);
        if !ok { return None; }
        if alive {
          var starting: bool := *;
          return Some(if starting then LaunchWait(Application, application.value) else Reply(None));
        }
      }
      assert AllGone();
      var id := nextHost;
      nextHost := nextHost + 1;
      var ok: bool, written: bool := *, *;
      if ok || written {
        application := Some(id);
      }
      if !ok { return None; }
      r := LaunchHost(Application, id);
    }

    method StartWeb() returns (r: Option<Operation>)
      requires ReleaseOk()
      modifies this`web, this`nextHost
      ensures ReleaseOk()
      ensures r.Some? ==> r.value == Reply(None) || (r.value.LaunchWait? && r.value.kind == Web)
    {
      if web.Some? {
        var ok: bool, alive: bool := *, *;
        if !ok { return None; }
        if alive { return Some(Reply(None)); }
      }
      var id := nextHost;
      nextHost := nextHost + 1;
      var stored: bool, written: bool := *, *;
      if stored || written {
        web := Some(id);
      }
      if !stored { return None; }
      var ok: bool, reserved: bool := *, *;
      r := if !ok then None else if reserved then Some(LaunchWait(Web, id)) else Some(Reply(None));
    }

    /** Switches to a candidate, waiting the application out first when the release changes. */
    method ActivateCandidate(candidate: Config) returns (r: Option<Operation>)
      requires ReleaseOk()
      modifies this`config, this`enabled, this`web, this`nextHost, this`trusted
      ensures ReleaseOk() && (trusted ==> old(trusted))
      ensures config == old(config) || config == candidate
      ensures config.release != old(config.release) ==> AllGone() && enabled.None?
      ensures r.Some? ==> OperationOk(r.value) && Fits(RestartWeb, r.value)
      ensures r.Some? && !r.value.StopWait? ==> config == candidate
      ensures r.Some? && r.value.StopWait? ==> r.value.after == Activate(candidate)
    {
      if candidate.release != config.release || !candidate.supported {
        var ok := DisableApplication();
        if !ok { return None; }
        var stopping := StopApplication(Activate(candidate));
        if stopping.None? { return None; }
        if stopping.value.Some? { return stopping.value; }
        assert AllGone();
      }
      config := candidate;
      r := StartWeb();
    }

    method StopWeb(after: AfterStop) returns (r: Option<Operation>)
      requires ReleaseOk() && !after.Activate? && !after.Replacing?
      modifies this`enabled, this`trusted
      ensures ReleaseOk() && (trusted ==> old(trusted))
      ensures r.Some? ==> OperationOk(r.value)
                          || (r.value == Reply(Some(ExitStop)) && web.None? && AllGone() && enabled.None?)
      ensures r.Some? ==>
                if web.Some? then r.value == StopWait(Web, web.value, after) else Fits(Stop, r.value)
    {
      if web.Some? {
        var signalled: bool := *;
        if !signalled { return None; }
        return Some(StopWait(Web, web.value, after));
      }
      var ok := DisableApplication();
      if !ok { return None; }
      var stopping := StopApplication(Shutdown);
      if stopping.None? { return None; }
      if stopping.value.Some? { return stopping.value; }
      return Some(Reply(Some(ExitStop)));
    }

    /** The configuration file, if it can be read and keeps the isolation. */
    method Candidate() returns (r: Option<Config>)
    {
      var ok: bool, release: Release, supported: bool := *, *, *;
      r := if ok then Some(Config(release, supported)) else None;
    }

    /** Begins one request. None is an error reply. */
    method Begin(request: Request) returns (r: Option<Operation>)
      requires ReleaseOk()
      requires !request.ReadOnly() ==> !HandingOver()
      modifies this`config, this`enabled, this`application, this`web, this`living, this`nextHost, this`trusted
      ensures ReleaseOk() && (trusted ==> old(trusted))
      ensures request.ReadOnly() ==> unchanged(this)
      ensures config.release != old(config.release) ==> AllGone() && enabled.None?
      ensures request.StartApplication? ==> config == old(config) && (r.Some? ==> r.value == Reply(None))
      ensures request.ReadOnly() && r.Some? ==> r.value == Reply(None)
      ensures r.Some? && r.value.Reply? && r.value.exit.Some? ==> ExitOk(r.value.exit.value)
      ensures r.Some? && r.value.Reply? && r.value.exit.Some? ==>
                if r.value.exit.value.ExitReplace? then request.Replace? else request.Stop?
      ensures r.Some? ==> r.value.Reply? || OperationOk(r.value)
      ensures r.Some? ==> Fits(request, r.value)
      ensures request.StartApplication? && r.Some? ==>
                request.release == config.release && ApplicationEnabled() && application.Some?
    {
      match request
      case Status =>
        var ok: bool := *;
        return if ok then Some(Reply(None)) else None;
      case List =>
        var ok: bool := *;
        return if ok then Some(Reply(None)) else None;
      case InspectHost =>
        var ok: bool := *;
        return if ok then Some(Reply(None)) else None;
      case Launch(kind) =>
        if kind != Work { return None; }
        var id: HostId := *;
        r := LaunchHost(Work, id);
      case Terminate =>
        var ok: bool, id: HostId := *, *;
        return if ok then Some(StopWait(Work, id, Inspected)) else None;
      case RestartWeb =>
        var candidate := Candidate();
        if candidate.None? { return None; }
        if web.None? {
          r := ActivateCandidate(candidate.value);
        } else {
          r := StopWeb(Restart(candidate.value));
        }
      case Replace =>
        var candidate := Candidate();
        if candidate.None? { return None; }
        if candidate.value.release != config.release || !candidate.value.supported {
          var ok := DisableApplication();
          if !ok { return None; }
          var stopping := StopApplication(Replacing(candidate.value.release));
          if stopping.None? { return None; }
          if stopping.value.Some? { return stopping.value; }
        }
        return Some(Reply(Some(ExitReplace(candidate.value.release))));
      case StartUpdate =>
        var id := nextHost;
        nextHost := nextHost + 1;
        r := LaunchHost(Update, id);
      case StartApplication(release) =>
        if release != config.release || !config.supported { return None; }
        var ok: bool, written: bool := *, *;
        if ok || written {
          enabled := Some(config.release);
        }
        if !ok { return None; }
        var started := StartApplicationHost();
        // The caller observes readiness by itself, so that lifecycle waits never nest.
        if started.None? { return None; }
        return Some(Reply(None));
      case Stop =>
        var idle: bool := *;
        if !idle { return None; }
        r := StopWeb(Shutdown);
    }

    /**
     Polls the pending operation once. `finished` says that its waiting is over, with the exit it asks for; an
     error (an elapsed deadline, a failed inspection) also ends it. `alive` is what the inspection of the host that is
     waited out said, if it succeeded.
     */
    method PollOperation(operation: Operation)
        returns (finished: bool, next: Operation, exit: Option<Exit>, ghost alive: Option<bool>,
                 ghost cleared: Option<bool>)
      requires ReleaseOk() && OperationOk(operation)
      modifies this`config, this`enabled, this`web, this`nextHost, this`trusted
      ensures ReleaseOk() && (trusted ==> old(trusted))
      ensures config.release != old(config.release) ==>
                AllGone() && enabled.None? && operation.StopWait?
                && (operation.after.Activate? || operation.after.Restart?)
      ensures exit.Some? ==> finished && AllGone() && enabled.None?
      ensures exit.Some? && exit.value.ExitReplace? ==>
                operation.StopWait? && operation.after == Replacing(exit.value.next)
      ensures exit == Some(ExitStop) ==> operation.StopWait? && operation.after == Shutdown
      ensures !finished ==> OperationOk(next)
      ensures exit.Some? <==> operation.StopWait? && alive == Some(false) && NothingLeft(operation, cleared)
      ensures exit.Some? ==> exit.value == ExitOf(operation.after)
      ensures operation.Reply? ==> finished
      ensures operation.LaunchWait? || alive == Some(true) ==>
                next == operation && config == old(config) && enabled == old(enabled) && web == old(web)
      ensures operation.StopWait? && alive.None? ==> finished
      ensures operation.StopWait? && alive == Some(false) ==> StopGoesOn(operation, finished, next)
    {
      next, exit, alive, cleared := operation, None, None, None;
      match operation
      case Reply(_) => finished := true;
      case LaunchWait(_, _) => finished := *;
      case StopWait(kind, id, after) =>
        var ok: bool, living: bool := *, *;
        if kind == Application {
          ok, living := InspectApplication(id);
        }
        finished := true;
        if !ok { return; }
        alive := Some(living);
        if living {
          // The deadline may have passed.
          finished := *;
          return;
        }
        match after {
          case Inspected => return;
          case Shutdown =>
            if kind != Application {
              var disabled := DisableApplication();
              if !disabled { return; }
              var stopping := StopApplication(Shutdown);
              if stopping.None? { return; }
              cleared := Some(stopping.value.None?);
              if stopping.value.Some? {
                finished, next := false, stopping.value.value;
                return;
              }
            }
            exit := Some(ExitStop);
          case Restart(candidate) =>
            var activated := ActivateCandidate(candidate);
            if activated.None? { return; }
            finished, next := false, activated.value;
          case Activate(candidate) =>
            config := candidate;
            var started := StartWeb();
            if started.None? { return; }
            finished, next := false, started.value;
          case Replacing(release) => exit := Some(ExitReplace(release));
        }
    }

    /** What becomes of a stop whose host is dead. */
    predicate StopGoesOn(operation: Operation, finished: bool, next: Operation)
      requires operation.StopWait?
      reads this`config, this`application
    {
      match operation.after
      case Inspected => finished
      case Shutdown => finished || (application.Some? && next == StopWait(Application, application.value, Shutdown))
      case Restart(candidate) =>
        || finished || (!next.StopWait? && config == candidate)
        || (application.Some? && next == StopWait(Application, application.value, Activate(candidate)))
      case Activate(candidate) => config == candidate && (finished || !next.StopWait?)
      case Replacing(_) => finished
    }

    /** The first phase of a tick: the pending operation moves on, or ends and answers its connection. */
    method PollPending() returns (ghost polled: Polled, ghost alive: Option<bool>, ghost cleared: Option<bool>)
      requires Valid()
      modifies this`config, this`enabled, this`web, this`nextHost, this`pending, this`exiting, this`connections,
               this`trusted
      ensures Valid() && (trusted ==> old(trusted))
      ensures config.release != old(config.release) ==> AllGone() && enabled.None?
      ensures old(pending).None? ==> pending.None? && exiting == old(exiting) && config == old(config)
      ensures |connections| == |old(connections)|
      ensures polled.Idle? <==> old(pending).None?
      ensures polled.Idle? || polled.Waits? ==> connections == old(connections)
      ensures polled.Waits? ==> pending.Some? && pending.value.0 == old(pending).value.0 && exiting.None?
      ensures polled.Ended? || polled.EndedWith? ==>
                pending.None? && forall i | 0 <= i < |connections| ::
                  connections[i] == if old(connections)[i].id == old(pending).value.0 then old(connections)[i].Replied()
                                    else old(connections)[i]
      ensures polled.Ended? ==> exiting.None?
      ensures polled.EndedWith? ==> exiting == Some((old(pending).value.0, polled.exit))
      ensures polled.EndedWith? <==>
                old(pending).Some? && var operation := old(pending).value.1;
                operation.StopWait? && alive == Some(false) && NothingLeft(operation, cleared)
      ensures polled.EndedWith? ==> polled.exit == ExitOf(old(pending).value.1.after)
    {
      hide RequestsOk, ReleaseOk;
      if pending.None? {
        polled, alive, cleared := Idle, None, None;
        return;
      }
      var (id, operation) := pending.value;
      var finished, next, exit;
      finished, next, exit, alive, cleared := PollOperation(operation);
      if !finished {
        polled := Waits;
        pending := Some((id, next));
        return;
      }
      polled := if exit.Some? then EndedWith(exit.value) else Ended;
      pending := None;
      exiting := if exit.Some? then Some((id, exit.value)) else None;
      AnswerConnection(id);
    }

    method AnswerConnection(id: ConnectionId)
      requires RequestsOk()
      modifies this`connections
      ensures RequestsOk() && |connections| == |old(connections)|
      ensures forall i | 0 <= i < |connections| ::
                connections[i] == if old(connections)[i].id == id then old(connections)[i].Replied()
                  else old(connections)[i]
    {
      for i := 0 to |connections|
        invariant connections == old(connections)
        invariant forall k | 0 <= k < i :: connections[k].id != id
      {
        if connections[i].id == id {
          AnswerAt(i);
          return;
        }
      }
    }

    /** A request that is not begun yet has to wait for the pending operation or for the exit. */
    predicate Deferred(connection: Connection)
      reads this`pending, this`exiting
    {
      connection.Request().Some? ==> !connection.Request().value.ReadOnly() && (pending.Some? || exiting.Some?)
    }

    /**
     The second phase: every connection's request is begun if nothing stands in its way. Read-only requests always
     may; a web bootstrap may ask for the application while its own launch is pending.
     */
    method BeginRequests()
      requires Valid()
      modifies this
      ensures Valid() && nextId == old(nextId) && (trusted ==> old(trusted))
      ensures old(pending).Some? ==> pending == old(pending) && exiting.None? && config == old(config)
      ensures old(exiting).Some? ==> exiting == old(exiting) && pending.None? && config == old(config)
      ensures old(HandingOver()) || old(exiting).Some? ==> living == old(living) && enabled == old(enabled)
      ensures old(begun) <= begun
      ensures forall i | 0 <= i < |connections| :: Deferred(connections[i])
    {
      for i := 0 to |connections|
        invariant Valid() && nextId == old(nextId) && (trusted ==> old(trusted))
        invariant old(pending).Some? ==> pending == old(pending) && exiting.None? && config == old(config)
        invariant old(exiting).Some? ==> exiting == old(exiting) && pending.None? && config == old(config)
        invariant old(HandingOver()) || old(exiting).Some? ==> living == old(living) && enabled == old(enabled)
        invariant old(begun) <= begun
        invariant |connections| == |old(connections)|
        invariant forall k | 0 <= k < i :: Deferred(connections[k])
      {
        BeginAt(i);
      }
    }

    method TakeRequest(i: nat)
      requires RequestsOk() && i < |connections| && connections[i].Request().Some?
      modifies this`connections, this`begun
      ensures RequestsOk() && |connections| == |old(connections)|
      ensures connections == old(connections)[i := Connection(old(connections)[i].id, Waiting(None))]
      ensures begun == old(begun) + [old(connections)[i].id] && old(connections)[i].id !in old(begun)
    {
      begun := begun + [connections[i].id];
      connections := connections[i := Connection(connections[i].id, Waiting(None))];
    }

    method AnswerAt(i: nat)
      requires RequestsOk() && i < |connections|
      modifies this`connections
      ensures RequestsOk() && connections == old(connections)[i := old(connections)[i].Replied()]
    {
      connections := connections[i := connections[i].Replied()];
    }

    method BeginAdmitted(i: nat, request: Request)
      requires Valid() && i < |connections| && connections[i].Request() == Some(request)
      requires !request.ReadOnly() ==>
                 exiting.None? && (pending.None? || (request.StartApplication? && !HandingOver()))
      modifies this
      ensures Valid() && nextId == old(nextId) && |connections| == |old(connections)| && (trusted ==> old(trusted))
      ensures old(pending).Some? ==> pending == old(pending) && exiting.None? && config == old(config)
      ensures old(exiting).Some? ==> exiting == old(exiting) && pending.None? && config == old(config)
      ensures old(HandingOver()) || old(exiting).Some? ==> living == old(living) && enabled == old(enabled)
      ensures config.release != old(config.release) ==> AllGone() && enabled.None?
      ensures old(begun) <= begun
      ensures connections[i].Request().None?
      ensures forall k | 0 <= k < |connections| && k != i :: connections[k] == old(connections)[k]
    {
      hide RequestsOk, ReleaseOk, Fits, ApplicationEnabled;
      TakeRequest(i);
      var operation := Begin(request);
      hide AllGone, AnswersOk, PendingOk, OperationOk, ExitOk;
      SettleAt(i, operation);
    }

    /** Answers the connection whose request was begun, unless it has to wait. */
    method SettleAt(i: nat, operation: Option<Operation>)
      requires RequestsOk() && PendingOk() && i < |connections| && connections[i].phase == Waiting(None)
      requires forall k | 0 <= k < |connections| && k != i && connections[k].phase == Waiting(None) ::
                 pending.Some? && pending.value.0 == connections[k].id
      requires operation.Some? && !operation.value.Reply?
               ==> pending.None? && exiting.None? && OperationOk(operation.value)
      requires operation.Some? && operation.value.Reply? && operation.value.exit.Some?
               ==> pending.None? && exiting.None?
      modifies this`pending, this`exiting, this`connections
      ensures RequestsOk() && PendingOk() && AnswersOk() && |connections| == |old(connections)|
      ensures connections[i].Request().None?
      ensures forall k | 0 <= k < |connections| && k != i :: connections[k] == old(connections)[k]
      ensures operation.None? || operation.value == Reply(None) ==> pending == old(pending) && exiting == old(exiting)
      ensures operation.Some? && !operation.value.Reply?
              ==> pending == Some((old(connections)[i].id, operation.value)) && exiting == old(exiting)
      ensures operation.Some? && operation.value.Reply? && operation.value.exit.Some? ==>
                pending == old(pending) && exiting == Some((old(connections)[i].id, operation.value.exit.value))
    {
      hide RequestsOk;
      Settle(connections[i].id, operation);
      if operation.None? || operation.value.Reply? {
        AnswerAt(i);
      }
    }

    method BeginAt(i: nat)
      requires Valid() && i < |connections|
      modifies this
      ensures Valid() && nextId == old(nextId) && |connections| == |old(connections)| && (trusted ==> old(trusted))
      ensures old(pending).Some? ==> pending == old(pending) && exiting.None? && config == old(config)
      ensures old(exiting).Some? ==> exiting == old(exiting) && pending.None? && config == old(config)
      ensures old(HandingOver()) || old(exiting).Some? ==> living == old(living) && enabled == old(enabled)
      ensures config.release != old(config.release) ==> AllGone() && enabled.None?
      ensures old(begun) <= begun
      ensures Deferred(connections[i])
      ensures forall k | 0 <= k < |connections| && k != i :: connections[k] == old(connections)[k]
    {
      hide RequestsOk, ReleaseOk, AnswersOk, ExitOk, OperationOk, ReleaseOk, AllGone;
      var request := connections[i].Request();
      if request.None? { return; }
      var bootstrap := request.value.StartApplication? && pending.Some? && pending.value.1.LaunchWait?
        && pending.value.1.kind == Web;
      if !request.value.ReadOnly() && ((!bootstrap && pending.Some?) || exiting.Some?) { return; }
      BeginAdmitted(i, request.value);
    }

    /** Records what a begun request asks the loop to wait for. An operation or exit is never overwritten. */
    method Settle(id: ConnectionId, operation: Option<Operation>)
      requires operation.Some? && !operation.value.Reply?
               ==> pending.None? && exiting.None? && OperationOk(operation.value)
      requires operation.Some? && operation.value.Reply? && operation.value.exit.Some?
               ==> pending.None? && exiting.None?
      modifies this`pending, this`exiting
      ensures operation.None? || operation.value == Reply(None) ==> pending == old(pending) && exiting == old(exiting)
      ensures operation.Some? && !operation.value.Reply?
              ==> pending == Some((id, operation.value)) && exiting == old(exiting)
      ensures operation.Some? && operation.value.Reply? && operation.value.exit.Some? ==>
                pending == old(pending) && exiting == Some((id, operation.value.exit.value))
    {
      if operation.Some? {
        if !operation.value.Reply? {
          pending := Some((id, operation.value));
        } else if operation.value.exit.Some? {
          exiting := Some((id, operation.value.exit.value));
        }
      }
    }

    predicate ApplicationEnabled()
      reads this`config, this`enabled
    {
      config.supported && enabled == Some(config.release)
    }

    /** The third phase: autonomous recovery of the application, then of the web service. */
    method Recover()
      requires Valid()
      modifies this`application, this`living, this`web, this`nextHost, this`trusted
      ensures Valid() && (trusted ==> old(trusted))
      ensures old(HandingOver()) || exiting.Some? || !ApplicationEnabled()
              ==> living == old(living) && application == old(application)
    {
      if exiting.Some? || (pending.Some? && pending.value.1.OwnsWeb()) { return; }
      if ApplicationEnabled() {
        var start: bool := *;
        if start {
          var _ := StartApplicationHost();
        }
      }
      var start: bool := *;
      if start {
        var _ := StartWeb();
      }
    }

    /** Admits new peers, up to the bound. */
    method Admit()
      requires RequestsOk() && AnswersOk()
      modifies this`connections, this`nextId
      ensures RequestsOk() && AnswersOk() && old(nextId) <= nextId
    {
      var arriving: nat := *;
      while arriving > 0
        invariant RequestsOk() && AnswersOk() && old(nextId) <= nextId
      {
        if |connections| < MAX_CONNECTIONS {
          connections := connections + [Connection(nextId, Reading)];
          nextId := nextId + 1;
        }
        arriving := arriving - 1;
      }
    }

    /** Lets one connection's own input and output move. */
    method PollConnection(i: nat, next: Connection)
      requires RequestsOk() && AnswersOk() && i < |connections| && connections[i].Polls(next)
      modifies this`connections
      ensures RequestsOk() && AnswersOk() && |connections| == |old(connections)|
    {
      connections := connections[i := next];
    }

    method PollConnections()
      requires RequestsOk() && AnswersOk()
      modifies this`connections
      ensures RequestsOk() && AnswersOk()
    {
      var count := |connections|;
      for i := 0 to count
        invariant RequestsOk() && AnswersOk() && |connections| == count
      {
        var phase: Phase := *;
        var next := Connection(connections[i].id, phase);
        if connections[i].Polls(next) {
          PollConnection(i, next);
        }
      }
    }

    /** Forgets closed connections. */
    method DropClosed()
      requires RequestsOk() && AnswersOk()
      modifies this`connections
      ensures RequestsOk() && AnswersOk()
      ensures forall i | 0 <= i < |connections| :: connections[i].phase != Closed && connections[i] in old(connections)
      ensures forall connection <- old(connections) :: connection.phase != Closed ==> connection in connections
    {
      var kept: seq<Connection> := [];
      for i := 0 to |connections|
        invariant |kept| <= i
        invariant forall k | 0 <= k < |kept| :: kept[k] in connections[..i] && kept[k].phase != Closed
        invariant forall k, l | 0 <= k < l < |kept| :: kept[k].id != kept[l].id
        invariant forall k | 0 <= k < i :: connections[k].phase != Closed ==> connections[k] in kept
      {
        if connections[i].phase != Closed {
          kept := kept + [connections[i]];
        }
      }
      connections := kept;
    }

    /** Whether the connection that asked for the exit has been answered and is gone. */
    predicate ExitDue()
      reads this`exiting, this`connections
    {
      exiting.Some? && forall i | 0 <= i < |connections| :: connections[i].id != exiting.value.0
    }

    /** What a turn made of the operation that was pending before it, and of an exit. */
    predicate Carried(was: Option<(ConnectionId, Operation)>, asked: Option<(ConnectionId, Exit)>, polled: Polled)
      reads this`pending, this`exiting
    {
      && (polled.Idle? <==> was.None?)
      && (polled.Waits? ==> pending.Some? && pending.value.0 == was.value.0 && exiting.None?)
      && (polled.EndedWith? ==> pending.None? && exiting == Some((was.value.0, polled.exit)))
      && (asked.Some? ==> exiting == asked && pending.None?)
    }

    method TickOperations() returns (ghost polled: Polled)
      requires Valid()
      modifies this
      ensures Valid() && old(begun) <= begun && (trusted ==> old(trusted))
      ensures Carried(old(pending), old(exiting), polled)
    {
      ghost var alive, cleared;
      polled, alive, cleared := PollPending();
      BeginRequests();
      HostsMayEnd();
      Recover();
    }

    /** One turn of the loop. */
    method Tick() returns (left: Option<Exit>, ghost polled: Polled)
      requires Valid()
      modifies this
      ensures Valid() && old(begun) <= begun && (trusted ==> old(trusted))
      ensures Carried(old(pending), old(exiting), polled)
      ensures left.Some? <==> ExitDue()
      ensures left.Some? ==> left.value == exiting.value.1 && pending.None? && ExitOk(left.value)
    {
      hide RequestsOk, ReleaseOk, AnswersOk, Deferred;
      HostsMayEnd();
      Admit();
      PollConnections();
      polled := TickOperations();
      PollConnections();
      DropClosed();
      left := if ExitDue() then Some(exiting.value.1) else None;
    }

    /** The loop may be left: with no application host alive, or to a successor whose release all of them run. */
    ghost predicate MayLeave(exit: Exit)
      reads this
    {
      && pending.None?
      && (exit.ExitStop? ==> AllGone() && enabled.None?)
      && (exit.ExitReplace? && trusted ==> forall id <- living :: application == Some(id) && living[id] == exit.next)
    }

    /**
     The control loop, for any number of ticks. Whatever happens in between, it keeps `Valid`: as long as the not-alive
     verdicts acted on are right, a living application host is the selected one and runs the configured release; no
     operation and exit are pending together, and no connection's request is begun twice. It leaves with no operation
     outstanding: to stop once the application is disabled and gone, to be replaced once no host of another release than
     the successor's lives.
     */
    method Serve(ticks: nat) returns (left: Option<Exit>)
      requires Valid()
      modifies this
      ensures Valid() && old(begun) <= begun && (trusted ==> old(trusted))
      ensures old(exiting).Some? ==> exiting == old(exiting)
      ensures left.Some? ==> ExitDue() && left.value == exiting.value.1 && MayLeave(left.value)
      ensures left.None? && ticks > 0 ==> !ExitDue()
    {
      left := None;
      for tick := 0 to ticks
        invariant Valid() && old(begun) <= begun && left.None? && (trusted ==> old(trusted))
        invariant old(exiting).Some? ==> exiting == old(exiting)
        invariant tick > 0 ==> !ExitDue()
      {
        ghost var polled;
        left, polled := Tick();
        if left.Some? { return; }
      }
    }
  }

  /**
   One supervisor after the other, each starting on the configuration under which its predecessor was asked to be
   replaced: the application survives those whose release it runs, and every one of them keeps `Valid`.
   */
  method ServeGenerations(first: Supervisor, generations: nat) returns (last: Supervisor, left: Option<Exit>)
    requires first.Valid()
    modifies first
    ensures last.Valid() && (last.trusted ==> old(first.trusted))
    ensures left.Some? ==> last.MayLeave(left.value)
  {
    last, left := first, None;
    for generation := 0 to generations
      invariant last == first || fresh(last)
      invariant last.Valid() && (last.trusted ==> old(first.trusted))
      invariant left.Some? ==> last.MayLeave(left.value)
    {
      if left.Some? {
        if left.value.ExitStop? { return; }
        var supported: bool := *;
        last := new Supervisor(Config(left.value.next, supported), last.enabled, last.application, last.web,
                               last.living, last.nextHost, last.trusted);
      }
      var ticks: nat := *;
      left := last.Serve(ticks);
    }
  }
}
