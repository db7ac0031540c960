/** What an inspection at one moment reports of a contained host, in terms of what lives of it. */
module HostReports {
  import opened Wrappers
  import opened HostRecords
  import opened HostProtocol
  import opened HostInvariant
  import opened HostSafety
  import opened HostOutcomes

  predicate Lives(h: Host)
    requires h.record.Some?
  {
    Alive(h, h.record.value.guard)
  }

  /** The child was seen ready, or its own evidence says so. */
  predicate SeenReady(record: Record, ready: Evidence) {
    record.lifecycle.readyAt.Some? || (ready.Evidence? && record.child == Some(ready.child))
  }

  function ReportOf(h: Host, ready: Evidence, stop: StopSidecar): Report
    requires h.record.Some?
  {
    Describe(h.record.value, ready, stop, Populated(h, h.record.value), Alive(h, h.record.value.guard))
  }

  /** What a record of a contained host says of its cgroup is what lives in it. */
  lemma PopulatedIsLiving(h: Host)
    requires Inv(h) && Contained(h)
    ensures Populated(h, h.record.value) <==> h.members != {}
  {
  }

  /**
   In any run, an inspection that looks at everything at once reports a contained host as gone if and only if nothing of
   it lives and nothing can start it: no member, no guardian, and no reservation that a guardian may yet claim.
   */
  lemma AliveIsRight(actions: seq<Action>, h: Host, ready: Evidence, stop: StopSidecar)
    requires Reaches(actions, h) && Contained(h)
    ensures !ReportOf(h, ready, stop).alive <==> Gone(h)
    ensures ReportOf(h, ready, stop).alive <==> h.members != {} || Lives(h) || Unclaimed(h.record.value)
    ensures ReportOf(h, ready, stop).state == ReportLost <==>
            h.record.value.state != Exited && h.record.value.guard.Some? && !Lives(h) && h.members == {}
    ensures ReportOf(h, ready, stop).state == ReportExited <==> h.record.value.state == Exited && !Lives(h)
  {
    ReachableInv(actions, h);
    PopulatedIsLiving(h);
    hide Run, ReadyAt;
  }

  /** And the phase says what goes on: how far the host has come while a guardian is there, and its end. */
  lemma PhaseIsRight(actions: seq<Action>, h: Host, ready: Evidence, stop: StopSidecar)
    requires Reaches(actions, h) && Contained(h)
    ensures var record, report := h.record.value, ReportOf(h, ready, stop);
            var underway := record.state != Exited && Lives(h);
            && (report.phase == PhaseExited <==> record.state == Exited)
            && (report.phase == PhaseStopping <==> underway && !stop.NoStop?)
            && (report.phase == PhaseReady <==> underway && stop.NoStop? && SeenReady(record, ready))
            && (report.phase == PhaseRunning <==>
                  underway && stop.NoStop? && !SeenReady(record, ready) && record.child.Some?
                  && !record.lifecycle.readinessRequired)
            && (report.phase == PhaseStarting <==>
                  underway && stop.NoStop? && !SeenReady(record, ready)
                  && (record.child.None? || record.lifecycle.readinessRequired))
            && (report.phase == PhaseUnknown <==> record.state != Exited && !Lives(h))
            && (report.supervision == Guarded <==> Lives(h))
            && (report.readiness == Ready <==> SeenReady(record, ready))
            && (report.readiness == Pending <==> !SeenReady(record, ready) && record.lifecycle.readinessRequired)
            && (report.exitCode.Some? <==> record.state == Exited)
  {
    ReachableInv(actions, h);
    OutcomesAreTold(actions, h);
    PopulatedIsLiving(h);
    hide Run, Inv, ReportState, ReportAlive, AllTold;
    ExitedIsEmpty(h) by {
      ReachableInv(actions, h);
    }
  }

  lemma ExitedIsEmpty(h: Host)
    requires Inv(h) && Contained(h)
    ensures h.record.value.state == Exited ==> h.members == {}
  {
  }
}
