/** Compaction of an expired record: a rewrite and two deletions, any of which a crash can come before. */
module Compaction {
  import opened HostRecords

  const RETAIN_MS: nat := 7 * 24 * 60 * 60 * 1000

  // What is left of a host's processes: whether its cgroup, its child and its guardian still live.
  datatype Processes = Processes(group: bool, child: bool, guard: bool)

  // The files of one host. `modified` is when the record was last written.
  datatype Files = Files(record: Record, ready: Evidence, stop: StopSidecar, modified: nat)

  predicate PopulatedBy(record: Record, p: Processes) {
    if record.group then p.group else record.child.Some? && p.child
  }

  predicate GuardedBy(record: Record, p: Processes) {
    record.guard.Some? && p.guard
  }

  function Reported(f: Files, p: Processes): Report {
    Describe(f.record, f.ready, f.stop, PopulatedBy(f.record, p), GuardedBy(f.record, p))
  }

  function FinishedAt(f: Files): nat {
    f.record.lifecycle.finishedAt.GetOr(f.modified)
  }

  predicate Expired(f: Files, now: nat) {
    (if now < FinishedAt(f) then 0 else now - FinishedAt(f)) >= RETAIN_MS
  }

  /** A pass gets to compaction only with the host over and its guardian gone. */
  predicate Over(f: Files, p: Processes) {
    f.record.state == Exited && !PopulatedBy(f.record, p) && !GuardedBy(f.record, p)
  }

  function Rewritten(f: Files, now: nat): Files {
    f.(record := Compacted(f.record, f.ready, FinishedAt(f)), modified := now)
  }

  // The durable effects of a pass, of which it performs only those that are still to do.
  datatype Effect = Rewrite | DeleteReady | DeleteStop

  function Effects(f: Files): seq<Effect> {
    (if f.record.lifecycle.compacted then [] else [Rewrite])
    + (if f.ready.NoEvidence? then [] else [DeleteReady])
    + (if f.stop.NoStop? then [] else [DeleteStop])
  }

  function Effected(f: Files, effect: Effect, now: nat): Files {
    match effect
    case Rewrite => Rewritten(f, now)
    case DeleteReady => f.(ready := NoEvidence)
    case DeleteStop => f.(stop := NoStop)
  }

  function After(f: Files, effects: seq<Effect>, now: nat): Files
    decreases |effects|
  {
    if effects == [] then f else After(Effected(f, effects[0], now), effects[1..], now)
  }

  /** A pass that is cut off after n effects. */
  function Pass(f: Files, p: Processes, now: nat, n: nat): Files {
    if Over(f, p) && Expired(f, now) then
      After(f, if n < |Effects(f)| then Effects(f)[..n] else Effects(f), now)
    else f
  }

  class HostDirectory {
    var record: Record
    var ready: Evidence
    var stop: StopSidecar
    var modified: nat

    constructor (f: Files)
      ensures Contents() == f
    {
      record, ready, stop, modified := f.record, f.ready, f.stop, f.modified;
    }

    function Contents(): Files
      reads this
    {
      Files(record, ready, stop, modified)
    }

    /** The end of a maintenance pass, with room for n effects before a crash. */
    method Compact(p: Processes, now: nat, n: nat)
      modifies this
      ensures Contents() == Pass(old(Contents()), p, now, n)
    {
      ghost var before := Contents();
      var left := n;
      if record.state != Exited || PopulatedBy(record, p) || GuardedBy(record, p) {
        return;
      }
      var finished := record.lifecycle.finishedAt.GetOr(modified);
      if now < finished || now - finished < RETAIN_MS {
        return;
      }
      if !record.lifecycle.compacted {
        if left == 0 {
          assert Effects(before)[..0] == [];
          return;
        }
        record, modified := Compacted(record, ready, finished), now;
        left := left - 1;
      }
      ghost var compact := Contents();
      assert compact == After(before, if before.record.lifecycle.compacted then [] else [Rewrite], now);
      DeletionsFollow(before, now, n, left);
      if !ready.NoEvidence? {
        if left == 0 {
          return;
        }
        ready := NoEvidence;
        left := left - 1;
      }
      if !stop.NoStop? && left > 0 {
        stop := NoStop;
      }
    }
  }

  /** What remains to be done once the record is compact: the deletions, as far as there is room for them. */
  lemma DeletionsFollow(f: Files, now: nat, n: nat, left: nat)
    requires f.record.lifecycle.compacted ==> left == n
    requires !f.record.lifecycle.compacted ==> n == left + 1
    ensures var all := Effects(f);
            var compact := if f.record.lifecycle.compacted then f else Rewritten(f, now);
            After(f, if n < |all| then all[..n] else all, now) ==
            if f.ready.NoEvidence? then (if left == 0 then compact else compact.(stop := NoStop))
            else if left == 0 then compact
            else if left == 1 then compact.(ready := NoEvidence)
            else compact.(ready := NoEvidence, stop := NoStop)
  {
    var all := Effects(f);
    var some := if n < |all| then all[..n] else all;
    var rest := if f.record.lifecycle.compacted then some else some[1..];
    var compact := if f.record.lifecycle.compacted then f else Rewritten(f, now);
    assert After(f, some, now) == After(compact, rest, now);
    var deletions := (if f.ready.NoEvidence? then [] else [DeleteReady])
      + (if f.stop.NoStop? then [] else [DeleteStop]);
    assert all == (if f.record.lifecycle.compacted then [] else [Rewrite]) + deletions;
    assert rest == if left < |deletions| then deletions[..left] else deletions;
    assert |deletions| <= 2 && (left == 0 ==> rest == []) && (left == 1 && |deletions| == 2 ==> rest == [DeleteReady]);
    Deleted(compact, rest, now);
  }

  lemma Deleted(f: Files, effects: seq<Effect>, now: nat)
    requires effects == [] || effects == [DeleteReady] || effects == [DeleteStop]
             || effects == [DeleteReady, DeleteStop]
    ensures After(f, effects, now) ==
            f.(ready := if DeleteReady in effects then NoEvidence else f.ready,
               stop := if DeleteStop in effects then NoStop else f.stop)
  {
    if effects != [] {
      assert effects[1..] == if |effects| == 2 then [DeleteStop] else [];
      assert [DeleteStop][1..] == [];
      assert |effects| == 2 ==> After(f, effects, now) == After(f.(ready := NoEvidence), [DeleteStop], now);
    }
  }

  /** A record that is compact has nothing that the sidecars or the processes could add to. */
  predicate Sealed(record: Record) {
    record.lifecycle.compacted ==>
      && record.state == Exited && record.guard.None? && record.child.None? && !record.group
      && record.environment == map[]
      && record.lifecycle.finishedAt.Some?
  }

  /** A pass changes something only seven days after the host finished, with nothing of it and no guardian left. */
  lemma OnlyExpiredChanges(f: Files, p: Processes, now: nat, n: nat)
    ensures Pass(f, p, now, n) != f ==>
              && f.record.state == Exited && !GuardedBy(f.record, p) && !PopulatedBy(f.record, p)
              && now >= FinishedAt(f) + 604_800_000
    ensures now >= FinishedAt(f) + 604_800_000 ==> Expired(f, now)
  {
    hide After, Effects;
  }

  lemma {:induction false} EffectsAreInvisible(f: Files, p: Processes, effects: seq<Effect>, now: nat)
    requires Over(f, p) && Sealed(f.record)
    requires !f.record.lifecycle.compacted && effects != [] ==> effects[0] == Rewrite
    requires Rewrite !in effects[if f.record.lifecycle.compacted || effects == [] then 0 else 1..]
    ensures var g := After(f, effects, now);
            && Reported(g, p) == Reported(f, p) && FinishedAt(g) == FinishedAt(f) && Over(g, p) && Sealed(g.record)
            && (f.record.lifecycle.compacted ==> g.record == f.record)
            && (effects != [] || f.record.lifecycle.compacted ==> g.record.lifecycle.compacted)
    decreases |effects|
  {
    if effects != [] {
      var next := Effected(f, effects[0], now);
      assert Over(next, p) && Sealed(next.record);
      assert next.record.lifecycle.compacted;
      EffectsAreInvisible(next, p, effects[1..], now);
    }
  }

  lemma EffectsFit(f: Files, n: nat)
    ensures var all := Effects(f);
            var some := if n < |all| then all[..n] else all;
            && (!f.record.lifecycle.compacted && some != [] ==> some[0] == Rewrite)
            && Rewrite !in some[if f.record.lifecycle.compacted || some == [] then 0 else 1..]
  {
  }

  /**
   At every point of a pass, whether or not it is cut off there, an inspection reports what it reported before:
   the same state, liveness, supervision, phase, readiness, ready time and exit code.
   */
  lemma CompactionIsInvisible(f: Files, p: Processes, now: nat, n: nat)
    requires Sealed(f.record)
    ensures var g := Pass(f, p, now, n);
            Reported(g, p) == Reported(f, p) && FinishedAt(g) == FinishedAt(f) && Sealed(g.record)
  {
    if Over(f, p) && Expired(f, now) {
      EffectsFit(f, n);
      EffectsAreInvisible(f, p, if n < |Effects(f)| then Effects(f)[..n] else Effects(f), now);
    }
  }

  // A pass is given by its clock reading and the number of effects it gets to.
  type PassRun = (nat, nat)

  function Passes(f: Files, p: Processes, runs: seq<PassRun>): Files {
    if runs == [] then f else Pass(Passes(f, p, runs[..|runs| - 1]), p, runs[|runs| - 1].0, runs[|runs| - 1].1)
  }

  /** The compact record that passes converge to. */
  ghost predicate Converging(f: Files, g: Files) {
    || (g.record == f.record && g.ready == f.ready && g.stop == f.stop && g.modified == f.modified)
    || (g.record == (if f.record.lifecycle.compacted then f.record else Compacted(f.record, f.ready, FinishedAt(f)))
        && g.ready in {f.ready, NoEvidence} && g.stop in {f.stop, NoStop})
  }

  lemma PassConverges(f: Files, g: Files, p: Processes, now: nat, n: nat)
    requires Converging(f, g)
    ensures Converging(f, Pass(g, p, now, n))
  {
    if Over(g, p) && Expired(g, now) {
      var left := if g.record.lifecycle.compacted then n else if n == 0 then 0 else n - 1;
      if n == 0 && !g.record.lifecycle.compacted {
        assert Effects(g)[..0] == [];
      } else {
        DeletionsFollow(g, now, n, left);
      }
    }
  }

  /**
   However often passes are cut off and run again, nothing shows, nothing is aged anew, and no other record results.
   */
  lemma {:induction false} PassesConverge(f: Files, p: Processes, runs: seq<PassRun>)
    requires Sealed(f.record)
    ensures var g := Passes(f, p, runs);
            && Reported(g, p) == Reported(f, p) && FinishedAt(g) == FinishedAt(f) && Sealed(g.record)
            && Converging(f, g)
  {
    if runs != [] {
      var run := runs[|runs| - 1];
      PassesConverge(f, p, runs[..|runs| - 1]);
      hide Pass, Converging, Reported;
      CompactionIsInvisible(Passes(f, p, runs[..|runs| - 1]), p, run.0, run.1);
      PassConverges(f, Passes(f, p, runs[..|runs| - 1]), p, run.0, run.1);
    }
  }

  /**
   A pass over an expired host that is not cut off reaches the same end whatever happened before it, and no later
   pass changes anything.
   */
  lemma CompletePass(f: Files, p: Processes, runs: seq<PassRun>, now: nat, later: nat, n: nat)
    requires Sealed(f.record) && Over(f, p) && Expired(f, now)
    ensures var g := Pass(Passes(f, p, runs), p, now, 3);
            && g.record == (if f.record.lifecycle.compacted then f.record
              else Compacted(f.record, f.ready, FinishedAt(f)))
            && g.ready == NoEvidence && g.stop == NoStop
            && Pass(g, p, later, n) == g
  {
    var before := Passes(f, p, runs);
    PassesConverge(f, p, runs);
    assert Over(before, p) by {
      assert Converging(f, before);
    }
    assert Expired(before, now);
    DeletionsFollow(before, now, 3, if before.record.lifecycle.compacted then 3 else 2);
    assert |Effects(before)| <= 3;
    var g := Pass(before, p, now, 3);
    assert Effects(before)[..|Effects(before)|] == Effects(before);
    assert Effects(g) == [];
  }
}

/** Log retention: which logs a finished sweep gives to be pruned. */
module LogRetention {
  import opened Compaction

  const LOG_BUDGET: nat := 64 * 1024 * 1024

  datatype Log = Log(bytes: nat, finished: nat, name: string)

  predicate Old(log: Log, now: nat) {
    (if now < log.finished then 0 else now - log.finished) >= RETAIN_MS
  }

  function Insert(logs: seq<Log>, log: Log): seq<Log> {
    if logs != [] && logs[|logs| - 1].finished > log.finished then Insert(logs[..|logs| - 1], log) + [logs[|logs| - 1]]
    else logs + [log]
  }

  /** The stable sort by the time of finishing. */
  function ByFinish(logs: seq<Log>): seq<Log> {
    if logs == [] then [] else Insert(ByFinish(logs[..|logs| - 1]), logs[|logs| - 1])
  }

  ghost predicate Ordered(logs: seq<Log>) {
    forall i, j | 0 <= i < j < |logs| :: logs[i].finished <= logs[j].finished
  }

  lemma {:induction false} InsertContents(logs: seq<Log>, log: Log)
    ensures multiset(Insert(logs, log)) == multiset(logs) + multiset{log}
  {
    if logs != [] && logs[|logs| - 1].finished > log.finished {
      InsertContents(logs[..|logs| - 1], log);
      assert logs == logs[..|logs| - 1] + [logs[|logs| - 1]];
    }
  }

  lemma {:induction false} InsertFacts(logs: seq<Log>, log: Log)
    requires Ordered(logs)
    ensures Ordered(Insert(logs, log)) && multiset(Insert(logs, log)) == multiset(logs) + multiset{log}
  {
    InsertContents(logs, log);
    if logs != [] && logs[|logs| - 1].finished > log.finished {
      var shorter, last := logs[..|logs| - 1], logs[|logs| - 1];
      InsertFacts(shorter, log);
      var inserted := Insert(shorter, log);
      assert Insert(logs, log) == inserted + [last];
      hide Insert;
      forall l | l in inserted ensures l.finished <= last.finished {
        assert l in multiset(inserted);
        assert l in multiset(shorter) ==> l in shorter;
      }
    }
  }

  lemma {:induction false} ByFinishFacts(logs: seq<Log>)
    ensures Ordered(ByFinish(logs)) && multiset(ByFinish(logs)) == multiset(logs)
  {
    if logs != [] {
      ByFinishFacts(logs[..|logs| - 1]);
      InsertFacts(ByFinish(logs[..|logs| - 1]), logs[|logs| - 1]);
      assert logs == logs[..|logs| - 1] + [logs[|logs| - 1]];
    }
  }

  function Less(a: nat, b: nat): nat {
    if a < b then 0 else a - b
  }

  function Bytes(logs: seq<Log>): nat {
    if logs == [] then 0 else Bytes(logs[..|logs| - 1]) + logs[|logs| - 1].bytes
  }

  // The clock is read again for each log.
  function Planned(logs: seq<Log>, clock: seq<nat>, total: nat, k: nat): (plan: (seq<Log>, nat))
    requires k <= |logs| == |clock|
  {
    if k == 0 then ([], total)
    else
      var (pruning, remaining) := Planned(logs, clock, total, k - 1);
      var log := logs[k - 1];
      if Old(log, clock[k - 1]) || remaining > LOG_BUDGET then (pruning + [log], Less(remaining, log.bytes))
      else (pruning, remaining)
  }

  method Plan(found: seq<Log>, clock: seq<nat>, total: nat) returns (pruning: seq<Log>)
    requires |clock| == |found|
    ensures |ByFinish(found)| == |found|
    ensures pruning == Planned(ByFinish(found), clock, total, |found|).0
  {
    var logs := ByFinish(found);
    assert |logs| == |found| by {
      ByFinishFacts(found);
      assert |multiset(logs)| == |multiset(found)|;
    }
    var remaining := total;
    pruning := [];
    var k := 0;
    while k < |logs|
      invariant 0 <= k <= |logs| && (pruning, remaining) == Planned(logs, clock, total, k)
    {
      if Old(logs[k], clock[k]) || remaining > LOG_BUDGET {
        remaining := Less(remaining, logs[k].bytes);
        pruning := pruning + [logs[k]];
      }
      k := k + 1;
    }
  }

  /** Pruning the first n logs is enough: what is left is young, and within budget unless nothing is left. */
  ghost predicate Enough(logs: seq<Log>, total: nat, now: nat, n: nat)
    requires n <= |logs|
  {
    && (forall i | n <= i < |logs| :: now < logs[i].finished + 604_800_000)
    && (n == |logs| || Less(total, Bytes(logs[..n])) <= 67_108_864)
  }

  /** What a run of the loop has done after k logs: prune the first n, where any fewer would not have been enough. */
  ghost predicate PlanAt(logs: seq<Log>, total: nat, now: nat, k: nat, n: nat, plan: (seq<Log>, nat))
    requires n <= k <= |logs|
  {
    && plan == (logs[..n], Less(total, Bytes(logs[..n])))
    && (n < k ==> !Old(logs[n], now) && plan.1 <= LOG_BUDGET)
    && (forall m | 0 <= m < n :: Old(logs[m], now) || Less(total, Bytes(logs[..m])) > LOG_BUDGET)
  }

  lemma BytesNext(logs: seq<Log>, n: nat)
    requires n < |logs|
    ensures logs[..n + 1] == logs[..n] + [logs[n]] && Bytes(logs[..n + 1]) == Bytes(logs[..n]) + logs[n].bytes
  {
    assert logs[..n + 1][..n] == logs[..n];
  }

  lemma PlanStart(logs: seq<Log>, clock: seq<nat>, total: nat, now: nat)
    requires |logs| == |clock|
    ensures PlanAt(logs, total, now, 0, 0, Planned(logs, clock, total, 0))
  {
    assert logs[..0] == [];
  }

  lemma PlanNext(logs: seq<Log>, total: nat, now: nat, k: nat, n: nat, plan: (seq<Log>, nat))
      returns (n': nat, plan': (seq<Log>, nat))
    requires n <= k < |logs| && Ordered(logs) && PlanAt(logs, total, now, k, n, plan)
    ensures plan' == if Old(logs[k], now) || plan.1 > LOG_BUDGET then (plan.0 + [logs[k]], Less(plan.1, logs[k].bytes))
            else plan
    ensures n' <= k + 1 && PlanAt(logs, total, now, k + 1, n', plan')
  {
    n', plan' := n, plan;
    if n < k {
      StillYoung(logs[n], logs[k], now);
      hide Old;
    } else if Old(logs[k], now) || plan.1 > LOG_BUDGET {
      hide Old;
      BytesNext(logs, k);
      n', plan' := k + 1, (plan.0 + [logs[k]], Less(plan.1, logs[k].bytes));
    }
  }

  lemma {:induction false} PlanStep(logs: seq<Log>, clock: seq<nat>, total: nat, now: nat, k: nat) returns (n: nat)
    requires k <= |logs| == |clock| && Ordered(logs) && forall i | 0 <= i < |clock| :: clock[i] == now
    ensures n <= k && PlanAt(logs, total, now, k, n, Planned(logs, clock, total, k))
  {
    hide Old, Less, PlanAt, Bytes, Ordered;
    if k == 0 {
      n := 0;
      PlanStart(logs, clock, total, now);
    } else {
      var m := PlanStep(logs, clock, total, now, k - 1);
      var plan;
      n, plan := PlanNext(logs, total, now, k - 1, m, Planned(logs, clock, total, k - 1));
    }
  }

  lemma StillYoung(log: Log, later: Log, now: nat)
    requires log.finished <= later.finished && !Old(log, now)
    ensures !Old(later, now)
  {
  }

  /**
   With one reading of the clock, the plan is the shortest run of oldest logs that holds every expired one and
   leaves the total within budget, or takes every completed log.
   */
  lemma PlanIsShortest(found: seq<Log>, clock: seq<nat>, total: nat, now: nat) returns (n: nat)
    requires |clock| == |found| && forall i | 0 <= i < |clock| :: clock[i] == now
    ensures var logs := ByFinish(found);
            && Ordered(logs) && multiset(logs) == multiset(found) && |logs| == |found|
            && n <= |logs| && Planned(logs, clock, total, |found|).0 == logs[..n]
            && Enough(logs, total, now, n)
            && forall m | 0 <= m < n :: !Enough(logs, total, now, m)
  {
    var logs := ByFinish(found);
    ByFinishFacts(found);
    assert |logs| == |found| by {
      assert |multiset(logs)| == |multiset(found)|;
    }
    n := PlanStep(logs, clock, total, now, |logs|);
    hide Planned, ByFinish, Bytes;
    forall i | n <= i < |logs| ensures !Old(logs[i], now) && now < logs[i].finished + 604_800_000 {
      assert n == i || logs[n].finished <= logs[i].finished;
    }
  }

  // With a clock that moves between two logs, the plan is what the budget takes and what has expired after it.

  /** How many of the oldest logs, from the n-th on, must go for the rest to be within budget. */
  function Needed(logs: seq<Log>, total: nat, n: nat): (needed: nat)
    requires n <= |logs|
    ensures n <= needed <= |logs|
    ensures forall m | n <= m < needed :: Less(total, Bytes(logs[..m])) > LOG_BUDGET
    ensures needed < |logs| ==> Less(total, Bytes(logs[..needed])) <= LOG_BUDGET
    decreases |logs| - n
  {
    if n == |logs| || Less(total, Bytes(logs[..n])) <= LOG_BUDGET then n else Needed(logs, total, n + 1)
  }

  /** Of the logs from n to k, those that had expired when they were looked at. */
  function Expired(logs: seq<Log>, clock: seq<nat>, n: nat, k: nat): seq<Log>
    requires k <= |logs| == |clock|
  {
    if k <= n then [] else Expired(logs, clock, n, k - 1) + if Old(logs[k - 1], clock[k - 1]) then [logs[k - 1]] else []
  }

  lemma NothingPlanned(logs: seq<Log>, clock: seq<nat>, total: nat)
    requires |logs| == |clock|
    ensures Planned(logs, clock, total, 0) == (logs[..0], Less(total, Bytes(logs[..0])))
  {
    assert logs[..0] == [];
  }

  lemma LessMore(total: nat, a: nat, b: nat)
    ensures Less(Less(total, a), b) == Less(total, a + b)
  {
  }

  lemma {:induction false} BudgetFirst(logs: seq<Log>, clock: seq<nat>, total: nat, k: nat)
    requires |logs| == |clock| && k <= Needed(logs, total, 0)
    ensures Planned(logs, clock, total, k) == (logs[..k], Less(total, Bytes(logs[..k])))
  {
    hide Old, Needed, Bytes, Less;
    if k == 0 {
      NothingPlanned(logs, clock, total);
    } else {
      BudgetFirst(logs, clock, total, k - 1);
      BytesNext(logs, k - 1);
      LessMore(total, Bytes(logs[..k - 1]), logs[k - 1].bytes);
    }
  }

  lemma {:induction false} ThenExpired(logs: seq<Log>, clock: seq<nat>, total: nat, k: nat)
    requires Needed(logs, total, 0) <= k <= |logs| == |clock|
    ensures var (plan, remaining) := Planned(logs, clock, total, k);
            var n := Needed(logs, total, 0);
            plan == logs[..n] + Expired(logs, clock, n, k) && (n < |logs| ==> remaining <= LOG_BUDGET)
  {
    hide Old, Needed, Bytes;
    var n := Needed(logs, total, 0);
    BudgetFirst(logs, clock, total, n);
    if k > n {
      ThenExpired(logs, clock, total, k - 1);
    }
  }

  ghost predicate Distinct(logs: seq<Log>) {
    forall i, j | 0 <= i < j < |logs| :: logs[i] != logs[j]
  }

  lemma {:induction false} DistinctOnce(logs: seq<Log>, log: Log)
    requires Distinct(logs)
    ensures multiset(logs)[log] <= 1
  {
    if logs != [] {
      var shorter, last := logs[..|logs| - 1], logs[|logs| - 1];
      assert logs == shorter + [last];
      DistinctOnce(shorter, log);
      assert log in multiset(shorter) <==> log in shorter;
    }
  }

  lemma TwiceCounts(logs: seq<Log>, i: nat, j: nat)
    requires i < j < |logs| && logs[i] == logs[j]
    ensures multiset(logs)[logs[j]] >= 2
  {
    assert logs == logs[..j] + logs[j..];
    assert logs[..j][i] in multiset(logs[..j]) && logs[j..][0] in multiset(logs[j..]);
    assert multiset(logs) == multiset(logs[..j]) + multiset(logs[j..]);
  }

  lemma SameDistinct(a: seq<Log>, b: seq<Log>)
    requires Distinct(a) && multiset(b) == multiset(a)
    ensures Distinct(b)
  {
    forall i, j | 0 <= i < j < |b| ensures b[i] != b[j] {
      DistinctOnce(a, b[j]);
      if b[i] == b[j] {
        TwiceCounts(b, i, j);
      }
    }
  }

  /** From n on, no log had expired when it was looked at after one that had not. */
  ghost predicate InOrder(logs: seq<Log>, clock: seq<nat>, n: nat, k: nat)
    requires k <= |logs| == |clock|
  {
    forall i, j | n <= i < j < k && Old(logs[j], clock[j]) :: Old(logs[i], clock[i])
  }

  lemma {:induction false} ExpiredInOrder(logs: seq<Log>, clock: seq<nat>, n: nat, k: nat) returns (c: nat)
    requires n <= k <= |logs| == |clock| && InOrder(logs, clock, n, k)
    ensures n <= c <= k && Expired(logs, clock, n, k) == logs[n..c] && (c < k ==> !Old(logs[c], clock[c]))
  {
    hide Old;
    if k == n {
      c := n;
    } else {
      c := ExpiredInOrder(logs, clock, n, k - 1);
      if Old(logs[k - 1], clock[k - 1]) {
        c := k;
      }
    }
  }

  lemma {:induction false} ExpiredMembers(logs: seq<Log>, clock: seq<nat>, n: nat, k: nat, log: Log)
    requires k <= |logs| == |clock|
    ensures log in Expired(logs, clock, n, k) <==> exists i :: n <= i < k && logs[i] == log && Old(logs[i], clock[i])
  {
    hide Old;
    if k > n {
      ExpiredMembers(logs, clock, n, k - 1, log);
    }
  }

  lemma PrefixIsInOrder(logs: seq<Log>, clock: seq<nat>, n: nat, i: nat, j: nat)
    requires |logs| == |clock| && Distinct(logs) && n <= i < j < |logs| && Old(logs[j], clock[j])
    requires logs[..n] + Expired(logs, clock, n, |logs|) <= logs
    ensures Old(logs[i], clock[i])
  {
    hide Old;
    var plan := logs[..n] + Expired(logs, clock, n, |logs|);
    ExpiredMembers(logs, clock, n, |logs|, logs[j]);
    ExpiredMembers(logs, clock, n, |logs|, logs[i]);
    assert logs[j] in plan;
    var p :| 0 <= p < |plan| && plan[p] == logs[j];
    assert p == j && plan[i] == logs[i];
    assert logs[i] !in logs[..n];
  }

  lemma PrefixIffInOrder(logs: seq<Log>, clock: seq<nat>, n: nat)
    requires n <= |logs| == |clock| && Distinct(logs)
    ensures logs[..n] + Expired(logs, clock, n, |logs|) <= logs <==> InOrder(logs, clock, n, |logs|)
  {
    hide Old, Distinct, Expired;
    if InOrder(logs, clock, n, |logs|) {
      var c := ExpiredInOrder(logs, clock, n, |logs|);
      assert logs[..n] + logs[n..c] == logs[..c];
    }
    if logs[..n] + Expired(logs, clock, n, |logs|) <= logs {
      forall i: nat, j: nat | n <= i < j < |logs| && Old(logs[j], clock[j]) ensures Old(logs[i], clock[i]) {
        PrefixIsInOrder(logs, clock, n, i, j);
      }
    }
  }

  /**
   Whatever the clock does: the plan is the fewest oldest logs that leave the rest within budget, and of the later ones
   those that had expired when they were looked at. It spares no log for a younger one if and only if, of the later
   ones, none is seen expired after one that is not.
   */
  lemma PlanIsPrefixIffInOrder(found: seq<Log>, clock: seq<nat>, total: nat)
    requires |clock| == |found| && forall i, j | 0 <= i < j < |found| :: found[i].name != found[j].name
    ensures |ByFinish(found)| == |found|
    ensures var logs := ByFinish(found);
            var n, plan := Needed(logs, total, 0), Planned(logs, clock, total, |found|).0;
            plan == logs[..n] + Expired(logs, clock, n, |found|) && (plan <= logs <==> InOrder(logs, clock, n, |found|))
  {
    var logs := ByFinish(found);
    ByFinishFacts(found);
    SameDistinct(found, logs);
    assert |logs| == |found| by {
      assert |multiset(logs)| == |multiset(found)|;
    }
    hide ByFinish, Planned, Needed, Old, Distinct, InOrder, Expired;
    var n := Needed(logs, total, 0);
    ThenExpired(logs, clock, total, |logs|);
    PrefixIffInOrder(logs, clock, n);
  }

  /** In one instance the clock passes the age of two logs after the older one was looked at, which is spared. */
  lemma MovingClockSkips(total: nat)
    requires total <= LOG_BUDGET
    ensures var logs := [Log(1, 0, "a"), Log(1, 0, "b")];
            && ByFinish(logs) == logs
            && Planned(logs, [604_799_999, 604_800_000], total, 2).0 == [Log(1, 0, "b")]
  {
    SortsInPlace(Log(1, 0, "a"), Log(1, 0, "b"));
    hide ByFinish, Bytes;
    var logs, clock := [Log(1, 0, "a"), Log(1, 0, "b")], [604_799_999, 604_800_000];
    assert Planned(logs, clock, total, 1) == ([], total);
    assert [] + [logs[1]] == [logs[1]];
  }

  lemma SortsInPlace(a: Log, b: Log)
    requires a.finished == b.finished
    ensures ByFinish([a, b]) == [a, b]
  {
    assert [a, b][..1] == [a] && [a][..0] == [];
    assert ByFinish([a]) == Insert([], a) == [a];
  }
}

/** The inventory, listed by pages of 32 that a cursor asks for. */
module HostListing {
  import opened Wrappers

  const PAGE: nat := 32

  predicate CursorChar(c: char) {
    'a' <= c <= 'z' || 'A' <= c <= 'Z' || '0' <= c <= '9' || c == '-'
  }

  predicate ValidCursor(cursor: string) {
    |cursor| <= 96 && forall c <- cursor :: CursorChar(c)
  }

  // The order of keys is that of their bytes.
  predicate Before(a: string, b: string) {
    b != "" && (a == "" || a[0] < b[0] || (a[0] == b[0] && Before(a[1..], b[1..])))
  }

  lemma {:induction false} BeforeTransitive(a: string, b: string, c: string)
    requires Before(a, b) && Before(b, c)
    ensures Before(a, c)
  {
    if a != "" && a[0] == b[0] == c[0] {
      BeforeTransitive(a[1..], b[1..], c[1..]);
    }
  }

  lemma {:induction false} BeforeIrreflexive(a: string)
    ensures !Before(a, a)
  {
    if a != "" {
      BeforeIrreflexive(a[1..]);
    }
  }

  lemma {:induction false} BeforeTotal(a: string, b: string)
    ensures a == b || Before(a, b) || Before(b, a)
  {
    if a != "" && b != "" && a[0] == b[0] {
      BeforeTotal(a[1..], b[1..]);
      assert a == [a[0]] + a[1..] && b == [b[0]] + b[1..];
    }
  }

  ghost predicate Ascending(keys: seq<string>) {
    forall i, j | 0 <= i < j < |keys| :: Before(keys[i], keys[j])
  }

  predicate Beyond(key: string, after: Option<string>) {
    after.None? || Before(after.value, key)
  }

  /** The keys of an inventory beyond a cursor. */
  function Rest(inventory: seq<string>, after: Option<string>): seq<string> {
    if inventory == [] then [] else if Beyond(inventory[0], after) then inventory else Rest(inventory[1..], after)
  }

  // A refused cursor is an error; otherwise a page, and where the next one begins.
  datatype Listing = InvalidCursor | Page(keys: seq<string>, next: Option<string>)

  function Listed(inventory: seq<string>, after: Option<string>): Listing {
    if after.Some? && !ValidCursor(after.value) then InvalidCursor
    else
      var rest := Rest(inventory, after);
      if |rest| <= PAGE then Page(rest, None) else Page(rest[..PAGE], Some(rest[PAGE - 1]))
  }

  method List(inventory: seq<string>, after: Option<string>) returns (listing: Listing)
    ensures listing == Listed(inventory, after)
    ensures listing.Page? ==> |listing.keys| <= 32 && (listing.next.Some? ==> |listing.keys| == 32)
  {
    hide ValidCursor, Before;
    if after.Some? && !ValidCursor(after.value) {
      return InvalidCursor;
    }
    var start := 0;
    while start < |inventory| && !Beyond(inventory[start], after)
      invariant 0 <= start <= |inventory| && Rest(inventory[start..], after) == Rest(inventory, after)
    {
      assert inventory[start..][1..] == inventory[start + 1..];
      start := start + 1;
    }
    assert Rest(inventory, after) == inventory[start..];
    ghost var rest := inventory[start..];
    hide *;
    var page: seq<string> := [];
    var k := start;
    while k < |inventory| && |page| < PAGE
      invariant start <= k <= |inventory| && |page| == k - start <= PAGE
      invariant page == rest[..k - start]
    {
      page := page + [inventory[k]];
      k := k + 1;
    }
    listing := Page(page, if k < |inventory| then Some(page[|page| - 1]) else None);
    PageOf(inventory, after, |page|);
    assert rest[..|rest|] == rest;
  }

  lemma PageOf(inventory: seq<string>, after: Option<string>, n: nat)
    requires after.None? || ValidCursor(after.value)
    requires n <= |Rest(inventory, after)| && n <= PAGE && (n < PAGE ==> n == |Rest(inventory, after)|)
    ensures var rest := Rest(inventory, after);
            Listed(inventory, after) == Page(rest[..n], if n < |rest| then Some(rest[n - 1]) else None)
  {
    hide Rest, ValidCursor;
    var rest := Rest(inventory, after);
    assert rest[..|rest|] == rest;
  }

  /** What a client collects that follows the cursors through the inventories of its requests. */
  function Collected(inventories: seq<seq<string>>, after: Option<string>): seq<string> {
    if inventories == [] then []
    else match Listed(inventories[0], after)
      case InvalidCursor => []
      case Page(keys, next) => if next.None? then keys else keys + Collected(inventories[1..], next)
  }

  /** Whether it comes to a last page. */
  predicate Finishes(inventories: seq<seq<string>>, after: Option<string>) {
    inventories != [] &&
    match Listed(inventories[0], after)
    case InvalidCursor => false
    case Page(keys, next) => next.None? || Finishes(inventories[1..], next)
  }

  lemma {:induction false} RestFacts(inventory: seq<string>, after: Option<string>)
    requires Ascending(inventory)
    ensures Ascending(Rest(inventory, after))
    ensures forall key :: key in Rest(inventory, after) <==> key in inventory && Beyond(key, after)
  {
    if inventory != [] {
      if Beyond(inventory[0], after) {
        forall i | 0 < i < |inventory| ensures Beyond(inventory[i], after) {
          assert Before(inventory[0], inventory[i]);
          if after.Some? {
            BeforeTransitive(after.value, inventory[0], inventory[i]);
          }
        }
      } else {
        RestFacts(inventory[1..], after);
        assert inventory == [inventory[0]] + inventory[1..];
      }
    }
  }

  ghost predicate AllAscending(inventories: seq<seq<string>>) {
    forall inventory <- inventories :: Ascending(inventory)
  }

  lemma PageFacts(inventory: seq<string>, after: Option<string>)
    requires Ascending(inventory) && Listed(inventory, after).Page?
    ensures var page := Listed(inventory, after);
            && Ascending(page.keys) && (forall key <- page.keys :: key in inventory && Beyond(key, after))
            && (page.next.Some? ==> page.next.value in inventory && Beyond(page.next.value, after)
                                    && (forall key <- page.keys ::
                                      key == page.next.value || Before(key, page.next.value)))
            && (forall key <- inventory | Beyond(key, after) ::
              key in page.keys || (page.next.Some? && Beyond(key, page.next)))
  {
    var rest := Rest(inventory, after);
    RestFacts(inventory, after);
    if |rest| > PAGE {
      forall key | key in rest ensures key in rest[..PAGE] || Before(rest[PAGE - 1], key) {
        var i :| 0 <= i < |rest| && rest[i] == key;
        assert i < PAGE ==> rest[..PAGE][i] == key;
      }
    }
  }

  /** Whatever happens to the inventory meanwhile, keys come in strict order, so that none comes twice. */
  lemma {:induction false} CollectedAscends(inventories: seq<seq<string>>, after: Option<string>)
    requires AllAscending(inventories)
    ensures Ascending(Collected(inventories, after)) && forall key <- Collected(inventories, after) ::
            Beyond(key, after)
  {
    if inventories != [] && Listed(inventories[0], after).Page? {
      var page := Listed(inventories[0], after);
      PageFacts(inventories[0], after);
      if page.next.Some? {
        CollectedAscends(inventories[1..], page.next);
        forall a, b | a in page.keys && b in Collected(inventories[1..], page.next) ensures Before(a, b) {
          if a != page.next.value {
            BeforeTransitive(a, page.next.value, b);
          }
        }
        forall b | b in Collected(inventories[1..], page.next) ensures Beyond(b, after) {
          if after.Some? {
            BeforeTransitive(after.value, page.next.value, b);
          }
        }
      }
    }
  }

  /** A key that is present throughout is collected, and no key is that was absent throughout. */
  lemma {:induction false} CollectedIsComplete(inventories: seq<seq<string>>, after: Option<string>, key: string)
    requires AllAscending(inventories) && Finishes(inventories, after) && Beyond(key, after)
    requires forall inventory <- inventories :: key in inventory
    ensures key in Collected(inventories, after)
  {
    PageFacts(inventories[0], after);
    var page := Listed(inventories[0], after);
    if key !in page.keys {
      CollectedIsComplete(inventories[1..], page.next, key);
    }
  }

  lemma {:induction false} CollectedIsPresent(inventories: seq<seq<string>>, after: Option<string>, key: string)
    requires AllAscending(inventories) && key in Collected(inventories, after)
    ensures exists inventory <- inventories :: key in inventory
  {
    PageFacts(inventories[0], after);
    var page := Listed(inventories[0], after);
    if key !in page.keys {
      CollectedIsPresent(inventories[1..], page.next, key);
      var inventory :| inventory in inventories[1..] && key in inventory;
      assert inventory in inventories;
    } else {
      assert inventories[0] in inventories;
    }
  }

  /** An inventory whose keys all make good cursors. */
  ghost predicate Named(inventory: seq<string>) {
    forall key <- inventory :: ValidCursor(key)
  }

  lemma {:induction false} RestOfRest(inventory: seq<string>, after: Option<string>, i: nat)
    requires Ascending(inventory) && i < |Rest(inventory, after)|
    ensures Rest(inventory, Some(Rest(inventory, after)[i])) == Rest(inventory, after)[i + 1..]
    decreases |inventory|
  {
    var rest := Rest(inventory, after);
    var key := rest[i];
    RestFacts(inventory, after);
    if rest == inventory {
      DropTo(inventory, i);
    } else {
      assert key in inventory[1..] by {
        assert rest == Rest(inventory[1..], after);
        RestFacts(inventory[1..], after);
      }
      RestOfRest(inventory[1..], after, i);
      var j :| 0 <= j < |inventory[1..]| && inventory[1..][j] == key;
      assert Before(inventory[0], inventory[j + 1]);
      NotBoth(inventory[0], key);
    }
  }

  lemma NotBoth(a: string, b: string)
    requires Before(a, b)
    ensures !Before(b, a)
  {
    if Before(b, a) {
      BeforeTransitive(a, b, a);
      BeforeIrreflexive(a);
    }
  }

  lemma {:induction false} DropTo(inventory: seq<string>, i: nat)
    requires Ascending(inventory) && i < |inventory|
    ensures Rest(inventory, Some(inventory[i])) == inventory[i + 1..]
  {
    if i == 0 {
      BeforeIrreflexive(inventory[0]);
      if |inventory| > 1 {
        assert Before(inventory[0], inventory[1]);
        assert Rest(inventory[1..], Some(inventory[0])) == inventory[1..];
      }
    } else {
      NotBoth(inventory[0], inventory[i]);
      DropTo(inventory[1..], i - 1);
    }
  }

  /** Nothing changing, the pages are the inventory. */
  lemma {:induction false} PagesAreInventory(inventory: seq<string>, inventories: seq<seq<string>>,
      after: Option<string>)
    requires Ascending(inventory) && Named(inventory) && (after.None? || after.value in inventory)
    requires |inventories| > |Rest(inventory, after)| && forall i <- inventories :: i == inventory
    ensures Finishes(inventories, after) && Collected(inventories, after) == Rest(inventory, after)
    decreases |inventories|
  {
    var rest := Rest(inventory, after);
    assert inventories[0] in inventories;
    RestFacts(inventory, after);
    if |rest| > PAGE {
      RestOfRest(inventory, after, PAGE - 1);
      assert rest[PAGE - 1] in rest;
      forall i | i in inventories[1..] ensures i == inventory {
        assert i in inventories;
      }
      PagesAreInventory(inventory, inventories[1..], Some(rest[PAGE - 1]));
      assert rest[..PAGE] + rest[PAGE..] == rest;
    }
  }
}
