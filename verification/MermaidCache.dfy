/**
 The diagram cache: an ordered map of rendered results with a byte count, and a queue of rendering jobs that run
 one at a time. Every method is one turn of the event loop, so their interleavings are sequences of calls.

 Keys stand for the serialized pair of theme and source.
 */
module MermaidCache {
  import opened Wrappers

  const MAX_ENTRIES: nat := 32
  const MAX_BYTES: nat := 2_000_000

  type Signal = nat

  // Entries are kept in insertion order, and reading one inserts it anew.
  datatype Entry = Entry(key: string, value: string)

  datatype Phase = Queued | Rendering | Settled

  datatype Job = Job(key: string, epoch: nat, consumers: set<Signal>, phase: Phase)

  function Size(key: string, value: string): nat {
    2 * (|key| + |value|)
  }

  function Total(entries: seq<Entry>): nat {
    if entries == [] then 0 else Size(entries[0].key, entries[0].value) + Total(entries[1..])
  }

  function Find(entries: seq<Entry>, key: string): (i: nat)
    ensures i <= |entries|
    ensures i < |entries| ==> entries[i].key == key
    ensures i == |entries| ==> forall e <- entries :: e.key != key
  {
    if entries == [] || entries[0].key == key then 0 else 1 + Find(entries[1..], key)
  }

  predicate Cached(entries: seq<Entry>, key: string) {
    exists e <- entries :: e.key == key
  }

  predicate WithinLimits(entries: seq<Entry>) {
    |entries| <= MAX_ENTRIES && Total(entries) <= MAX_BYTES
  }

  ghost predicate Distinct(entries: seq<Entry>) {
    forall i, j | 0 <= i < j < |entries| :: entries[i].key != entries[j].key
  }

  /** The entries after a use of the one at i. */
  function Touched(entries: seq<Entry>, i: nat): seq<Entry>
    requires i < |entries|
  {
    entries[..i] + entries[i + 1..] + [entries[i]]
  }

  /** The fewest oldest entries go that bring the rest within the limits. */
  function Evicted(entries: seq<Entry>): (kept: seq<Entry>)
    ensures WithinLimits(kept)
    ensures |kept| <= |entries| && kept == entries[|entries| - |kept|..]
    ensures forall n | 0 <= n < |entries| - |kept| :: !WithinLimits(entries[n..])
  {
    if WithinLimits(entries) then
      assert entries[0..] == entries;
      entries
    else
      var kept := Evicted(entries[1..]);
      assert forall n | 0 < n < |entries| - |kept| :: entries[n..] == entries[1..][n - 1..];
      kept
  }

  lemma {:induction false} TotalConcat(a: seq<Entry>, b: seq<Entry>)
    ensures Total(a + b) == Total(a) + Total(b)
  {
    if a == [] {
      assert a + b == b;
    } else {
      TotalConcat(a[1..], b);
      assert (a + b)[1..] == a[1..] + b;
    }
  }

  lemma TouchedFacts(entries: seq<Entry>, i: nat)
    requires i < |entries| && Distinct(entries)
    ensures Total(Touched(entries, i)) == Total(entries) && Distinct(Touched(entries, i))
            && |Touched(entries, i)| == |entries|
    ensures forall key :: Cached(Touched(entries, i), key) <==> Cached(entries, key)
    ensures forall e :: e in Touched(entries, i) <==> e in entries
  {
    TouchedMembers(entries, i);
    TouchedTotal(entries, i);
    TouchedDistinct(entries, i);
    assert |Touched(entries, i)| == |entries|;
    hide Total, Distinct, Touched;
  }

  lemma TouchedTotal(entries: seq<Entry>, i: nat)
    requires i < |entries|
    ensures Total(Touched(entries, i)) == Total(entries)
  {
    hide Total;
    var a, e, b := entries[..i], [entries[i]], entries[i + 1..];
    assert entries == a + (e + b);
    TotalConcat(a, e + b);
    TotalConcat(e, b);
    TotalConcat(a + b, e);
    TotalConcat(a, b);
  }

  lemma TouchedDistinct(entries: seq<Entry>, i: nat)
    requires i < |entries| && Distinct(entries)
    ensures Distinct(Touched(entries, i))
  {
    var touched := Touched(entries, i);
    forall a, b | 0 <= a < b < |touched| ensures touched[a].key != touched[b].key {
      assert touched[a] == entries[if a < i then a else a + 1];
      assert touched[b] == if b == |touched| - 1 then entries[i] else entries[if b < i then b else b + 1];
    }
  }

  lemma TouchedMembers(entries: seq<Entry>, i: nat)
    requires i < |entries|
    ensures forall e :: e in Touched(entries, i) <==> e in entries
  {
    assert entries == entries[..i] + [entries[i]] + entries[i + 1..];
  }

  /** A result that fits by itself is never evicted on its own account. */
  lemma NewestStays(entries: seq<Entry>, e: Entry)
    requires Size(e.key, e.value) <= MAX_BYTES
    ensures Evicted(entries + [e]) != []
    ensures var kept := Evicted(entries + [e]); kept[|kept| - 1] == e
  {
    var all := entries + [e];
    assert all[|entries|..] == [e] && WithinLimits([e]) by {
      assert [e][1..] == [];
    }
  }

  lemma LimitsAre(entries: seq<Entry>)
    requires WithinLimits(entries)
    ensures |entries| <= 32 && Total(entries) <= 2_000_000
  {
  }

  // When each key was last used, by a count of uses.
  type Uses = map<string, nat>

  /** Entries are in the order of their last use. */
  ghost predicate InUseOrder(entries: seq<Entry>, used: Uses, uses: nat) {
    && (forall e <- entries :: e.key in used && used[e.key] < uses)
    && (forall i, j | 0 <= i < j < |entries| :: Earlier(entries[i], entries[j], used))
  }

  predicate Earlier(a: Entry, b: Entry, used: Uses) {
    a.key in used && b.key in used && used[a.key] < used[b.key]
  }

  lemma TouchedOrder(entries: seq<Entry>, i: nat, used: Uses, uses: nat)
    requires InUseOrder(entries, used, uses) && i < |entries| && Distinct(entries)
    ensures InUseOrder(Touched(entries, i), used[entries[i].key := uses], uses + 1)
  {
    var touched, used' := Touched(entries, i), used[entries[i].key := uses];
    forall e | e in touched ensures e.key in used' && used'[e.key] < uses + 1 {
      assert e in entries;
    }
    forall a, b | 0 <= a < b < |touched| ensures Earlier(touched[a], touched[b], used') {
      assert touched[a] == entries[if a < i then a else a + 1] && touched[a] in entries;
      if b < |touched| - 1 {
        assert touched[b] == entries[if b < i then b else b + 1] && touched[b] in entries;
        assert Earlier(touched[a], touched[b], used);
      }
    }
  }

  lemma AppendedOrder(entries: seq<Entry>, e: Entry, used: Uses, uses: nat)
    requires InUseOrder(entries, used, uses) && !Cached(entries, e.key)
    ensures InUseOrder(entries + [e], used[e.key := uses], uses + 1)
  {
    var all, used' := entries + [e], used[e.key := uses];
    forall a, b | 0 <= a < b < |all| ensures Earlier(all[a], all[b], used') {
      assert all[a] in entries;
      if b < |entries| {
        assert all[b] in entries && Earlier(entries[a], entries[b], used);
      }
    }
  }

  lemma SuffixOrder(entries: seq<Entry>, n: nat, used: Uses, uses: nat)
    requires InUseOrder(entries, used, uses) && n <= |entries|
    ensures InUseOrder(entries[n..], used, uses)
  {
    var rest := entries[n..];
    forall e | e in rest ensures e in entries {
    }
    forall a, b | 0 <= a < b < |rest| ensures Earlier(rest[a], rest[b], used) {
      assert Earlier(entries[a + n], entries[b + n], used);
    }
  }

  /** Each entry is the result of one of the first n jobs, begun in the present generation. */
  ghost predicate FromJobs(entries: seq<Entry>, origin: map<string, nat>, jobs: seq<Job>, n: nat, generation: nat)
    requires n <= |jobs|
  {
    forall e <- entries :: e.key in origin && origin[e.key] < n && jobs[origin[e.key]].key == e.key
      && jobs[origin[e.key]].epoch == generation
  }

  lemma FromSameJobs(entries: seq<Entry>, entries': seq<Entry>, origin: map<string, nat>, jobs: seq<Job>,
      jobs': seq<Job>, n: nat, n': nat, generation: nat)
    requires n <= |jobs| && n' <= |jobs'| && n <= n' && |jobs| <= |jobs'|
             && FromJobs(entries, origin, jobs, n, generation)
    requires forall e <- entries' :: e in entries
    requires forall j | 0 <= j < n :: jobs'[j].key == jobs[j].key && jobs'[j].epoch == jobs[j].epoch
    ensures FromJobs(entries', origin, jobs', n', generation)
  {
  }

  /** Jobs before n are settled; the others wait, but for the one at n, which may be rendering. */
  ghost predicate InQueue(jobs: seq<Job>, n: nat, generation: nat) {
    && n <= |jobs|
    && (forall j | 0 <= j < |jobs| :: jobs[j].epoch <= generation)
    && (forall j | 0 <= j < n :: jobs[j].phase == Settled && jobs[j].consumers == {})
    && (forall j | n <= j < |jobs| :: jobs[j].phase == Queued || (jobs[j].phase == Rendering && j == n))
  }

  /** Pending are exactly the jobs of the present generation that are not settled, each under its key. */
  ghost predicate PendingJobs(pending: map<string, nat>, jobs: seq<Job>, n: nat, generation: nat) {
    && (forall key <- pending ::
      n <= pending[key] < |jobs| && jobs[pending[key]].key == key && jobs[pending[key]].epoch == generation)
    && (forall j | n <= j < |jobs| && jobs[j].epoch == generation ::
      jobs[j].key in pending && pending[jobs[j].key] == j)
  }

  lemma SettledPending(pending: map<string, nat>, jobs: seq<Job>, n: nat, generation: nat)
    requires PendingJobs(pending, jobs, n, generation) && n < |jobs|
    ensures var key := jobs[n].key;
            PendingJobs(if key in pending && pending[key] == n then pending - {key} else pending,
                        jobs[n := jobs[n].(consumers := {}, phase := Settled)], n + 1, generation)
  {
  }

  lemma PendingInRange(pending: map<string, nat>, jobs: seq<Job>, n: nat, generation: nat)
    requires PendingJobs(pending, jobs, n, generation)
    ensures forall key <- pending :: pending[key] < |jobs|
  {
  }

  lemma HeadIsPending(pending: map<string, nat>, jobs: seq<Job>, n: nat, generation: nat)
    requires PendingJobs(pending, jobs, n, generation) && n < |jobs| && jobs[n].epoch == generation
    ensures jobs[n].key in pending && pending[jobs[n].key] == n
    ensures forall key <- pending | pending[key] != n :: key != jobs[n].key
  {
  }

  lemma JoinedJob(pending: map<string, nat>, jobs: seq<Job>, n: nat, generation: nat, key: string, signal: Signal)
    requires InQueue(jobs, n, generation) && PendingJobs(pending, jobs, n, generation) && key in pending
    ensures var j := pending[key];
            && n <= j < |jobs|
            && var jobs' := jobs[j := jobs[j].(consumers := jobs[j].consumers + {signal})];
               InQueue(jobs', n, generation) && PendingJobs(pending, jobs', n, generation)
  {
  }

  lemma StartedJob(pending: map<string, nat>, jobs: seq<Job>, n: nat, generation: nat, job: Job)
    requires InQueue(jobs, n, generation) && PendingJobs(pending, jobs, n, generation)
    requires job.key !in pending && job.epoch == generation && job.phase == Queued
    ensures n <= |jobs| && InQueue(jobs + [job], n, generation)
            && PendingJobs(pending[job.key := |jobs|], jobs + [job], n, generation)
  {
  }

  /** What is pending is not cached. */
  ghost predicate Apart(pending: map<string, nat>, entries: seq<Entry>) {
    forall key <- pending :: !Cached(entries, key)
  }

  // What a request comes to: nothing for an aborted one, a cached result, or a job, joined or started.
  datatype Rendered = Nothing | Hit(value: string) | Joined(job: nat) | Started(job: nat)

  class Cache {
    var cache: seq<Entry>
    var pending: map<string, nat>
    var bytes: int
    var generation: nat
    // All jobs so far. Those before `next` are settled; the queue runs the others in turn.
    var jobs: seq<Job>
    var next: nat
    ghost var used: Uses
    ghost var uses: nat
    // The job that each cached result comes from.
    ghost var origin: map<string, nat>

    ghost predicate Counted()
      reads this
    {
      Distinct(cache) && bytes == Total(cache) && WithinLimits(cache)
    }

    ghost predicate Valid()
      reads this
    {
      && InQueue(jobs, next, generation) && PendingJobs(pending, jobs, next, generation)
      && Counted() && Apart(pending, cache)
      && InUseOrder(cache, used, uses) && FromJobs(cache, origin, jobs, next, generation)
    }

    constructor ()
      ensures Valid() && cache == [] && jobs == [] && generation == 0
    {
      cache, pending, bytes, generation, jobs, next := [], map[], 0, 0, [], 0;
      used, uses, origin := map[], 0, map[];
    }

    method Get(key: string) returns (value: Option<string>)
      requires Valid()
      modifies `cache, `used, `uses
      ensures Valid()
      ensures if Cached(old(cache), key)
              then var i := Find(old(cache), key);
                   && value == Some(old(cache)[i].value) && cache == Touched(old(cache), i)
                   && used == old(used)[key := old(uses)] && uses == old(uses) + 1
              else value == None && cache == old(cache) && used == old(used) && uses == old(uses)
    {
      var i := Find(cache, key);
      if i == |cache| {
        return None;
      }
      assert cache[i] in cache;
      value := Some(cache[i].value);
      TouchedFacts(cache, i);
      TouchedOrder(cache, i, used, uses);
      hide Total, Distinct, InUseOrder, PendingJobs, InQueue, Touched;
      FromSameJobs(cache, Touched(cache, i), origin, jobs, jobs, next, next, generation);
      hide FromJobs;
      cache := Touched(cache, i);
      used, uses := used[key := uses], uses + 1;
    }

    predicate Cancelled(j: nat)
      requires j < |jobs|
      reads this
    {
      jobs[j].epoch != generation || jobs[j].consumers == {}
    }

    method Render(key: string, signal: Signal, aborted: bool) returns (r: Rendered)
      requires Valid()
      modifies this
      ensures Valid() && generation == old(generation) && next == old(next) && bytes == old(bytes)
              && origin == old(origin)
      ensures aborted ==> r == Nothing && cache == old(cache)
      ensures !aborted && Cached(old(cache), key) ==>
                var i := Find(old(cache), key);
                && r == Hit(old(cache)[i].value) && cache == Touched(old(cache), i)
                && used == old(used)[key := old(uses)] && uses == old(uses) + 1
      ensures !r.Hit? ==> used == old(used) && uses == old(uses)
      ensures !aborted && !Cached(old(cache), key) ==> cache == old(cache)
      ensures r.Nothing? || r.Hit? ==> jobs == old(jobs) && pending == old(pending)
      ensures !aborted && !Cached(old(cache), key) && key in old(pending) ==>
                var j := old(pending)[key];
                && r == Joined(j) && pending == old(pending)
                && jobs == old(jobs)[j := old(jobs)[j].(consumers := old(jobs)[j].consumers + {signal})]
      ensures !aborted && !Cached(old(cache), key) && key !in old(pending) ==>
                && r == Started(|old(jobs)|) && pending == old(pending)[key := |old(jobs)|]
                && jobs == old(jobs) + [Job(key, generation, {signal}, Queued)]
    {
      if aborted {
        return Nothing;
      }
      PendingInRange(pending, jobs, next, generation);
      var cached := Get(key);
      if cached.Some? {
        return Hit(cached.value);
      }
      hide Total, Distinct, InUseOrder, WithinLimits, Touched, InQueue, PendingJobs, FromJobs;
      if key in pending {
        Join(key, signal);
        return Joined(pending[key]);
      }
      Start(key, signal);
      return Started(pending[key]);
    }

    method Join(key: string, signal: Signal)
      requires Valid() && key in pending && pending[key] < |jobs|
      modifies `jobs
      ensures Valid()
      ensures var job := old(jobs)[pending[key]];
              jobs == old(jobs)[pending[key] := job.(consumers := job.consumers + {signal})]
    {
      var j := pending[key];
      JoinedJob(pending, jobs, next, generation, key, signal);
      FromSameJobs(cache, cache, origin, jobs, jobs[j := jobs[j].(consumers := jobs[j].consumers + {signal})], next,
        next, generation);
      hide Total, Distinct, InUseOrder, WithinLimits, InQueue, PendingJobs, FromJobs;
      jobs := jobs[j := jobs[j].(consumers := jobs[j].consumers + {signal})];
    }

    method Start(key: string, signal: Signal)
      requires Valid() && key !in pending && !Cached(cache, key)
      modifies `jobs, `pending
      ensures Valid() && pending == old(pending)[key := |old(jobs)|]
              && jobs == old(jobs) + [Job(key, generation, {signal}, Queued)]
    {
      StartedJob(pending, jobs, next, generation, Job(key, generation, {signal}, Queued));
      FromSameJobs(cache, cache, origin, jobs, jobs + [Job(key, generation, {signal}, Queued)], next, next, generation);
      hide Total, Distinct, InUseOrder, WithinLimits, InQueue, PendingJobs, FromJobs, Cached;
      pending := pending[key := |jobs|];
      jobs := jobs + [Job(key, generation, {signal}, Queued)];
    }

    /** A signal aborts: it consumes nothing any longer. */
    method Abort(signal: Signal)
      requires Valid()
      modifies `jobs
      ensures Valid() && |jobs| == |old(jobs)|
      ensures forall j | 0 <= j < |jobs| :: jobs[j] == old(jobs)[j].(consumers := old(jobs)[j].consumers - {signal})
    {
      hide Total, Distinct, InUseOrder, WithinLimits;
      jobs := seq(|jobs|, j requires 0 <= j < |jobs| reads this => jobs[j].(consumers := jobs[j].consumers - {signal}));
    }

    /** One job is settled, which nothing waits for any longer; all others are what they were. */
    ghost predicate SettledAt(was: seq<Job>, waiting: map<string, nat>, n: nat)
      requires n < |was|
      reads `jobs, `pending
    {
      && jobs == was[n := was[n].(consumers := {}, phase := Settled)]
      && pending == if was[n].key in waiting && waiting[was[n].key] == n then waiting - {was[n].key} else waiting
    }

    /** The end of the job at the head of the queue. */
    method Settle()
      requires InQueue(jobs, next, generation) && PendingJobs(pending, jobs, next, generation) && next < |jobs|
      requires Counted() && forall key <- pending | pending[key] != next :: !Cached(cache, key)
      requires InUseOrder(cache, used, uses) && FromJobs(cache, origin, jobs, next + 1, generation)
      modifies `jobs, `next, `pending
      ensures Valid() && next == old(next) + 1
      ensures SettledAt(old(jobs), old(pending), old(next))
    {
      var key := jobs[next].key;
      SettledPending(pending, jobs, next, generation);
      ghost var settled := jobs[next := jobs[next].(consumers := {}, phase := Settled)];
      FromSameJobs(cache, cache, origin, jobs, settled, next + 1, next + 1, generation);
      hide Total, Distinct, InUseOrder, WithinLimits, FromJobs;
      assert (key in pending && pending[key] == next) || forall k <- pending :: pending[k] != next;
      hide PendingJobs;
      jobs := jobs[next := jobs[next].(consumers := {}, phase := Settled)];
      if key in pending && pending[key] == next {
        pending := pending - {key};
      }
      next := next + 1;
    }

    /** The queue reaches a job. One that nobody waits for any longer, or that a clear has outdated, ends at once. */
    method Begin()
      requires Valid() && next < |jobs| && jobs[next].phase == Queued
      modifies `jobs, `next, `pending
      ensures Valid()
      ensures old(Cancelled(next)) ==> next == old(next) + 1 && SettledAt(old(jobs), old(pending), old(next))
      ensures !old(Cancelled(next)) ==>
                next == old(next) && pending == old(pending)
                  && jobs == old(jobs)[next := old(jobs)[next].(phase := Rendering)]
    {
      hide Total, Distinct, InUseOrder, WithinLimits;
      if Cancelled(next) {
        FromSameJobs(cache, cache, origin, jobs, jobs, next, next + 1, generation);
        Settle();
      } else {
        jobs := jobs[next := jobs[next].(phase := Rendering)];
      }
    }

    /** Adds a result that the cache does not have, then evicts from the front. */
    method Remember(key: string, value: string, ghost job: nat)
      requires Counted() && InUseOrder(cache, used, uses) && !Cached(cache, key)
      requires next < |jobs| && FromJobs(cache, origin, jobs, next, generation)
      requires job == next && jobs[job].key == key && jobs[job].epoch == generation
      modifies `cache, `bytes, `used, `uses, `origin
      ensures Counted() && InUseOrder(cache, used, uses) && FromJobs(cache, origin, jobs, next + 1, generation)
      ensures cache == if Size(key, value) > MAX_BYTES then old(cache) else Evicted(old(cache) + [Entry(key, value)])
      ensures forall e <- cache :: e in old(cache) || (e == Entry(key, value) && origin[key] == job)
      ensures if Size(key, value) > MAX_BYTES then used == old(used) && uses == old(uses)
              else used == old(used)[key := old(uses)] && uses == old(uses) + 1
      ensures forall gone <- old(cache), kept <- cache | gone !in cache :: Earlier(gone, kept, used)
    {
      hide InUseOrder, FromJobs, Distinct, Cached, Total, WithinLimits, Evicted;
      var weight := Size(key, value);
      if weight > MAX_BYTES {
        FromSameJobs(cache, cache, origin, jobs, jobs, next, next + 1, generation);
        return;
      }
      AppendedOrder(cache, Entry(key, value), used, uses);
      AppendedFacts(cache, Entry(key, value), origin, jobs, next, generation);
      var e := Entry(key, value);
      EvictedMembers(cache, e);
      EvictedOrder(cache + [e], used[key := uses], uses + 1);
      EvictedEarlier(cache, e, used[key := uses], uses + 1);
      FromSameJobs(cache + [e], Evicted(cache + [e]), origin[key := job], jobs, jobs, next + 1, next + 1, generation);
      cache, bytes := cache + [Entry(key, value)], bytes + weight;
      used, uses, origin := used[key := uses], uses + 1, origin[key := job];
      Evict();
    }

    method Evict()
      requires bytes == Total(cache)
      modifies `cache, `bytes
      ensures cache == Evicted(old(cache)) && bytes == Total(cache)
    {
      ghost var all := cache;
      while |cache| > MAX_ENTRIES || bytes > MAX_BYTES
        invariant bytes == Total(cache) && Evicted(cache) == Evicted(all)
        decreases |cache|
      {
        // Nothing counted and nothing held: an empty cache is within the limits.
        assert cache != [];
        var oldest := cache[0];
        cache, bytes := cache[1..], bytes - Size(oldest.key, oldest.value);
      }
    }

    /** The renderer of the head of the queue returns, with None for an error or a result that is not final. */
    method Complete(result: Option<string>) returns (delivered: Option<string>)
      requires Valid() && next < |jobs| && jobs[next].phase == Rendering
      modifies this
      ensures Valid() && next == old(next) + 1 && generation == old(generation)
      ensures SettledAt(old(jobs), old(pending), old(next))
      ensures |cache| <= 32 && bytes <= 2_000_000
      ensures delivered == if old(Cancelled(next)) then None else result
      ensures cache == if delivered.None? || Size(old(jobs)[old(next)].key, delivered.value) > MAX_BYTES then old(cache)
                       else Evicted(old(cache) + [Entry(old(jobs)[old(next)].key, delivered.value)])
      ensures forall e <- cache ::
              e in old(cache) || (old(jobs)[old(next)].epoch == generation && origin[e.key] == old(next))
      ensures if delivered.None? || Size(old(jobs)[old(next)].key, delivered.value) > MAX_BYTES
              then used == old(used) && uses == old(uses)
              else used == old(used)[old(jobs)[old(next)].key := old(uses)] && uses == old(uses) + 1
      ensures forall gone <- old(cache), kept <- cache | gone !in cache :: Earlier(gone, kept, used)
    {
      hide Total, Distinct, InUseOrder, WithinLimits, InQueue, FromJobs, PendingJobs, Evicted, Touched, Earlier;
      if Cancelled(next) {
        FromSameJobs(cache, cache, origin, jobs, jobs, next, next + 1, generation);
        Settle();
        LimitsAre(cache);
        return None;
      }
      delivered := result;
      var key := jobs[next].key;
      HeadIsPending(pending, jobs, next, generation);
      if result.Some? {
        // Pending and therefore not cached, so that no bytes are counted twice.
        ghost var before := cache;
        Remember(key, result.value, next);
        assert forall k <- pending | pending[k] != next :: k != key && !Cached(before, k);
      } else {
        FromSameJobs(cache, cache, origin, jobs, jobs, next, next + 1, generation);
      }
      Settle();
      LimitsAre(cache);
    }

    /** A clear outdates every job and forgets every result. */
    method Clear()
      requires Valid()
      modifies `generation, `cache, `pending, `bytes
      ensures Valid() && generation == old(generation) + 1 && cache == [] && pending == map[] && bytes == 0
      ensures forall j | next <= j < |jobs| :: Cancelled(j)
    {
      generation, cache, pending, bytes := generation + 1, [], map[], 0;
    }
  }

  lemma AppendedFacts(entries: seq<Entry>, e: Entry, origin: map<string, nat>, jobs: seq<Job>, n: nat, generation: nat)
    requires Distinct(entries) && !Cached(entries, e.key)
    requires n < |jobs| && FromJobs(entries, origin, jobs, n, generation) && jobs[n].key == e.key
             && jobs[n].epoch == generation
    ensures Distinct(entries + [e]) && Total(entries + [e]) == Total(entries) + Size(e.key, e.value)
    ensures FromJobs(entries + [e], origin[e.key := n], jobs, n + 1, generation)
  {
    TotalConcat(entries, [e]);
    assert [e][1..] == [];
    forall i | 0 <= i < |entries| ensures entries[i].key != e.key {
      assert entries[i] in entries;
    }
  }

  lemma EvictedMembers(entries: seq<Entry>, e: Entry)
    ensures forall x <- Evicted(entries + [e]) :: x in entries || x == e
    ensures forall x <- Evicted(entries + [e]) :: x in entries + [e]
  {
    var all := entries + [e];
    var kept := Evicted(all);
    hide *;
    assert kept == all[|all| - |kept|..];
  }

  lemma EvictedOrder(all: seq<Entry>, used: Uses, uses: nat)
    requires Distinct(all) && InUseOrder(all, used, uses)
    ensures Distinct(Evicted(all)) && InUseOrder(Evicted(all), used, uses)
  {
    var n := |all| - |Evicted(all)|;
    hide *;
    assert Evicted(all) == all[n..];
    SuffixOrder(all, n, used, uses);
    SuffixDistinct(all, n);
  }

  lemma SuffixEarlier(all: seq<Entry>, n: nat, used: Uses, uses: nat, a: Entry, b: Entry)
    requires InUseOrder(all, used, uses) && n <= |all| && a in all && b in all[n..] && a !in all[n..]
    ensures Earlier(a, b, used)
  {
    hide Earlier;
    assert all == all[..n] + all[n..];
    assert a in all[..n];
    var i :| 0 <= i < n && all[..n][i] == a;
    var j :| 0 <= j < |all[n..]| && all[n..][j] == b;
    assert all[i] == a && all[n + j] == b;
  }

  /** What is evicted was used before all that is kept. */
  lemma EvictedEarlier(entries: seq<Entry>, e: Entry, used: Uses, uses: nat)
    requires InUseOrder(entries + [e], used, uses)
    ensures var kept := Evicted(entries + [e]); forall a <- entries, b <- kept | a !in kept :: Earlier(a, b, used)
  {
    var all := entries + [e];
    var kept := Evicted(all);
    var n := |all| - |kept|;
    hide *;
    assert kept == all[n..];
    forall a, b | a in entries && b in kept && a !in kept ensures Earlier(a, b, used) {
      assert a in all;
      SuffixEarlier(all, n, used, uses, a, b);
    }
  }

  lemma SuffixDistinct(entries: seq<Entry>, n: nat)
    requires Distinct(entries) && n <= |entries|
    ensures Distinct(entries[n..])
  {
  }
}
