/**
 Eviction of chat histories that nobody looks at: oversized ones lose their oldest pages, tasks share one allowance,
 and the tasks used longest ago go first. Sizes are what any function of the data says.
 */
module TaskHistory {
  const MAX_TASKS: nat := 5
  const MAX_BYTES: nat := 4_000_000
  const MAX_DETAILS: nat := 3
  const MAX_DETAIL_BYTES: nat := 2_000_000

  // Pages and the parameters they were fetched with go in lockstep; `rest` is what else the data holds.
  datatype Data = Data(pages: seq<int>, params: seq<int>, rest: int)

  datatype Entry = Entry(hash: string, task: string, usedAt: nat, data: Data, size: nat)

  datatype Task = Task(task: string, entries: seq<Entry>, usedAt: nat, size: nat)

  function Dropped(data: Data): Data
    requires data.pages != []
  {
    data.(pages := data.pages[1..], params := if data.params == [] then [] else data.params[1..])
  }

  function Trimmed(data: Data, size: Data -> nat): Data
    decreases |data.pages|
  {
    if size(data) > MAX_BYTES && |data.pages| > 1 then Trimmed(Dropped(data), size) else data
  }

  function TrimmedEntry(e: Entry, size: Data -> nat): Entry {
    e.(data := Trimmed(e.data, size), size := size(Trimmed(e.data, size)))
  }

  /** The trimmed entries that fit the allowance by themselves. */
  function Fitting(entries: seq<Entry>, size: Data -> nat): seq<Entry> {
    if entries == [] then []
    else
      var e := TrimmedEntry(entries[|entries| - 1], size);
      Fitting(entries[..|entries| - 1], size) + if e.size > MAX_BYTES then [] else [e]
  }

  function Oversized(entries: seq<Entry>, size: Data -> nat): seq<string> {
    if entries == [] then []
    else
      var e := TrimmedEntry(entries[|entries| - 1], size);
      Oversized(entries[..|entries| - 1], size) + if e.size > MAX_BYTES then [e.hash] else []
  }

  function Sizes(entries: seq<Entry>): nat {
    if entries == [] then 0 else entries[0].size + Sizes(entries[1..])
  }

  function LastUse(entries: seq<Entry>): nat {
    if entries == [] then 0
    else
      var before := LastUse(entries[..|entries| - 1]);
      if before < entries[|entries| - 1].usedAt then entries[|entries| - 1].usedAt else before
  }

  function TaskOf(name: string, entries: seq<Entry>): Task {
    Task(name, entries, LastUse(entries), Sizes(entries))
  }

  function Place(tasks: seq<Task>, name: string): (i: nat)
    ensures i <= |tasks| && (i < |tasks| ==> tasks[i].task == name)
    ensures forall j | 0 <= j < i :: tasks[j].task != name
  {
    if tasks == [] || tasks[0].task == name then 0 else 1 + Place(tasks[1..], name)
  }

  /** The entries of each task, in the order in which tasks first appear. */
  function Grouped(entries: seq<Entry>): seq<Task> {
    if entries == [] then []
    else
      var tasks, e := Grouped(entries[..|entries| - 1]), entries[|entries| - 1];
      var i := Place(tasks, e.task);
      if i == |tasks| then tasks + [TaskOf(e.task, [e])] else tasks[i := TaskOf(e.task, tasks[i].entries + [e])]
  }

  // The stable sorts by the time of use.

  function InsertEntry(entries: seq<Entry>, e: Entry): seq<Entry> {
    if entries != [] && entries[|entries| - 1].usedAt > e.usedAt then
      InsertEntry(entries[..|entries| - 1], e) + [entries[|entries| - 1]]
    else entries + [e]
  }

  function EntriesByUse(entries: seq<Entry>): seq<Entry> {
    if entries == [] then [] else InsertEntry(EntriesByUse(entries[..|entries| - 1]), entries[|entries| - 1])
  }

  function InsertTask(tasks: seq<Task>, t: Task): seq<Task> {
    if tasks != [] && tasks[|tasks| - 1].usedAt > t.usedAt then
      InsertTask(tasks[..|tasks| - 1], t) + [tasks[|tasks| - 1]]
    else tasks + [t]
  }

  function TasksByUse(tasks: seq<Task>): seq<Task> {
    if tasks == [] then [] else InsertTask(TasksByUse(tasks[..|tasks| - 1]), tasks[|tasks| - 1])
  }

  /** Variants of one task share its allowance: the ones used longest ago go. The time of use stays that of all. */
  function Shared(task: Task): Task
    decreases |task.entries|
  {
    if task.size > MAX_BYTES && |task.entries| > 1 then Shared(Shifted(task)) else task
  }

  function Shifted(task: Task): Task
    requires task.entries != []
  {
    task.(entries := task.entries[1..],
          size := if task.size < task.entries[0].size then 0 else task.size - task.entries[0].size)
  }

  function Unshared(task: Task): seq<string>
    decreases |task.entries|
  {
    if task.size > MAX_BYTES && |task.entries| > 1 then [task.entries[0].hash] + Unshared(Shifted(task)) else []
  }

  function AllShared(tasks: seq<Task>): (shared: seq<Task>)
    ensures |shared| == |tasks| && forall i | 0 <= i < |tasks| :: shared[i] == Shared(tasks[i])
  {
    seq(|tasks|, i requires 0 <= i < |tasks| => Shared(tasks[i]))
  }

  function Total(tasks: seq<Task>): nat {
    if tasks == [] then 0 else tasks[0].size + Total(tasks[1..])
  }

  predicate WithinLimits(tasks: seq<Task>) {
    |tasks| <= MAX_TASKS && Total(tasks) <= MAX_BYTES
  }

  /** The fewest tasks go from the front that bring the rest within the limits. */
  function Kept(tasks: seq<Task>): (kept: seq<Task>)
    ensures WithinLimits(kept)
    ensures |kept| <= |tasks| && kept == tasks[|tasks| - |kept|..]
    ensures forall n | 0 <= n < |tasks| - |kept| :: !WithinLimits(tasks[n..])
  {
    if WithinLimits(tasks) then
      assert tasks[0..] == tasks;
      tasks
    else
      var kept := Kept(tasks[1..]);
      assert forall n | 0 < n < |tasks| - |kept| :: tasks[n..] == tasks[1..][n - 1..];
      kept
  }

  function Hashes(entries: seq<Entry>): seq<string> {
    if entries == [] then [] else [entries[0].hash] + Hashes(entries[1..])
  }

  function TaskHashes(tasks: seq<Task>): seq<string> {
    if tasks == [] then [] else Hashes(tasks[0].entries) + TaskHashes(tasks[1..])
  }

  /** Everything up to the final loop: what it starts from. */
  function Candidates(inactive: seq<Entry>, size: Data -> nat): seq<Task> {
    AllShared(TasksByUse(Grouped(Fitting(EntriesByUse(inactive), size))))
  }

  // The loops.

  method TrimEntries(entries: seq<Entry>, size: Data -> nat) returns (fitting: seq<Entry>, removed: seq<string>)
    ensures fitting == Fitting(entries, size) && removed == Oversized(entries, size)
  {
    fitting, removed := [], [];
    var k := 0;
    while k < |entries|
      invariant 0 <= k <= |entries| && fitting == Fitting(entries[..k], size)
                && removed == Oversized(entries[..k], size)
    {
      assert entries[..k + 1][..k] == entries[..k];
      var data := entries[k].data;
      var bytes := size(data);
      while bytes > MAX_BYTES && |data.pages| > 1
        invariant bytes == size(data) && Trimmed(data, size) == Trimmed(entries[k].data, size)
        decreases |data.pages|
      {
        data := data.(pages := data.pages[1..], params := if data.params == [] then [] else data.params[1..]);
        bytes := size(data);
      }
      if bytes > MAX_BYTES {
        removed := removed + [entries[k].hash];
      } else {
        fitting := fitting + [entries[k].(data := data, size := bytes)];
      }
      k := k + 1;
    }
    assert entries[..k] == entries;
  }

  method GroupByTask(entries: seq<Entry>) returns (tasks: seq<Task>)
    ensures tasks == Grouped(entries)
  {
    tasks := [];
    var k := 0;
    while k < |entries|
      invariant 0 <= k <= |entries| && tasks == Grouped(entries[..k])
    {
      assert entries[..k + 1][..k] == entries[..k];
      var i := Place(tasks, entries[k].task);
      if i == |tasks| {
        tasks := tasks + [TaskOf(entries[k].task, [entries[k]])];
      } else {
        tasks := tasks[i := TaskOf(entries[k].task, tasks[i].entries + [entries[k]])];
      }
      k := k + 1;
    }
    assert entries[..k] == entries;
  }

  method ShareAllowance(task0: Task) returns (task: Task, removed: seq<string>)
    ensures task == Shared(task0) && removed == Unshared(task0)
  {
    task, removed := task0, [];
    while task.size > MAX_BYTES && |task.entries| > 1
      invariant Shared(task) == Shared(task0) && removed + Unshared(task) == Unshared(task0)
      decreases |task.entries|
    {
      removed := removed + [task.entries[0].hash];
      task := Shifted(task);
    }
  }

  method EvictTasks(tasks0: seq<Task>) returns (tasks: seq<Task>, removed: seq<string>)
    ensures tasks == Kept(tasks0)
    ensures removed + TaskHashes(tasks) == TaskHashes(tasks0)
  {
    hide Hashes, TaskHashes, Kept, Total;
    tasks, removed := tasks0, [];
    var total := Total(tasks0);
    while |tasks| > MAX_TASKS || total > MAX_BYTES
      invariant total == Total(tasks) && Kept(tasks) == Kept(tasks0)
      invariant removed + TaskHashes(tasks) == TaskHashes(tasks0)
      decreases |tasks|
    {
      // Nothing counted and nothing held: no tasks are within the limits.
      FirstTask(tasks);
      var oldest := tasks[0];
      assert removed + Hashes(oldest.entries) + TaskHashes(tasks[1..]) == removed + TaskHashes(tasks);
      tasks, total := tasks[1..], total - oldest.size;
      removed := removed + Hashes(oldest.entries);
    }
    EnoughKept(tasks);
  }

  lemma FirstTask(tasks: seq<Task>)
    requires !WithinLimits(tasks)
    ensures tasks != [] && Kept(tasks) == Kept(tasks[1..]) && Total(tasks) == tasks[0].size + Total(tasks[1..])
    ensures TaskHashes(tasks) == Hashes(tasks[0].entries) + TaskHashes(tasks[1..])
  {
    hide Hashes;
  }

  lemma EnoughKept(tasks: seq<Task>)
    requires WithinLimits(tasks)
    ensures Kept(tasks) == tasks
  {
  }

  lemma NoHashes(tasks: seq<Task>)
    requires tasks == []
    ensures TaskHashes(tasks) == []
  {
  }

  lemma NextHashes(tasks: seq<Task>, n: nat)
    requires n < |tasks|
    ensures TaskHashes(tasks[..n + 1]) == TaskHashes(tasks[..n]) + Hashes(tasks[n].entries)
  {
    assert tasks[..n + 1] == tasks[..n] + [tasks[n]];
    HashesMore(tasks[..n], tasks[n]);
  }

  lemma {:induction false} HashesMore(tasks: seq<Task>, task: Task)
    ensures TaskHashes(tasks + [task]) == TaskHashes(tasks) + Hashes(task.entries)
  {
    hide Hashes;
    if tasks == [] {
      assert [task][1..] == [];
      assert tasks + [task] == [task];
    } else {
      HashesMore(tasks[1..], task);
      assert (tasks + [task])[1..] == tasks[1..] + [task];
      assert TaskHashes(tasks + [task]) == Hashes(tasks[0].entries) + TaskHashes(tasks[1..] + [task]);
    }
  }

  method ShareAll(tasks: seq<Task>) returns (shared: seq<Task>, removed: seq<string>)
    ensures shared == AllShared(tasks)
    ensures multiset(removed) + multiset(TaskHashes(shared)) == multiset(TaskHashes(tasks))
  {
    hide TaskHashes, Hashes, Shared, Unshared;
    shared, removed := [], [];
    NoHashes(shared);
    NoHashes(tasks[..0]);
    var k := 0;
    while k < |tasks|
      invariant 0 <= k <= |tasks| && |shared| == k && forall i | 0 <= i < k :: shared[i] == Shared(tasks[i])
      invariant multiset(removed) + multiset(TaskHashes(shared)) == multiset(TaskHashes(tasks[..k]))
    {
      var task, gone := ShareAllowance(tasks[k]);
      SharedHashes(tasks[k]);
      NextHashes(tasks, k);
      HashesMore(shared, task);
      FourParts(removed, gone, TaskHashes(shared), Hashes(task.entries), TaskHashes(tasks[..k]),
        Hashes(tasks[k].entries));
      shared, removed := shared + [task], removed + gone;
      k := k + 1;
    }
    assert tasks[..k] == tasks;
  }

  lemma FourParts(a: seq<string>, b: seq<string>, c: seq<string>, d: seq<string>, ac: seq<string>, bd: seq<string>)
    requires multiset(a) + multiset(c) == multiset(ac) && multiset(b) + multiset(d) == multiset(bd)
    ensures multiset(a + b) + multiset(c + d) == multiset(ac + bd)
  {
    assert multiset(a + b) == multiset(a) + multiset(b) && multiset(c + d) == multiset(c) + multiset(d);
    assert multiset(ac + bd) == multiset(ac) + multiset(bd);
  }

  method PruneInactiveHistory(inactive: seq<Entry>, size: Data -> nat)
      returns (retained: seq<Task>, removed: seq<string>)
    ensures retained == Kept(Candidates(inactive, size))
    ensures multiset(removed) + multiset(TaskHashes(retained)) == multiset(Hashes(inactive))
  {
    hide EntriesByUse, Fitting, Oversized, Grouped, TasksByUse, AllShared, Kept, TaskHashes, Hashes;
    var entries := EntriesByUse(inactive);
    var fitting, oversized := TrimEntries(entries, size);
    var grouped := GroupByTask(fitting);
    var tasks := TasksByUse(grouped);
    var shared, unshared := ShareAll(tasks);
    var evicted;
    retained, evicted := EvictTasks(shared);
    SortedHashes(inactive);
    FittingHashes(entries, size);
    GroupedHashes(fitting);
    SortedTaskHashes(grouped);
    removed := oversized + unshared + evicted;
    PartsAddUp(oversized, unshared, evicted, TaskHashes(retained), multiset(TaskHashes(shared)),
      multiset(TaskHashes(tasks)),
               multiset(Hashes(inactive)));
  }

  lemma PartsAddUp(oversized: seq<string>, unshared: seq<string>, evicted: seq<string>, retained: seq<string>,
                   shared: multiset<string>, tasks: multiset<string>, all: multiset<string>)
    requires multiset(evicted + retained) == shared && multiset(unshared) + shared == tasks
             && multiset(oversized) + tasks == all
    ensures multiset(oversized + unshared + evicted) + multiset(retained) == all
  {
    assert multiset(oversized + unshared + evicted) == multiset(oversized) + multiset(unshared) + multiset(evicted);
    assert multiset(evicted + retained) == multiset(evicted) + multiset(retained);
  }

  lemma {:induction false} HashesConcat(a: seq<Entry>, b: seq<Entry>)
    ensures Hashes(a + b) == Hashes(a) + Hashes(b)
  {
    if a == [] {
      assert a + b == b;
    } else {
      HashesConcat(a[1..], b);
      assert (a + b)[1..] == a[1..] + b && (a + b)[0] == a[0];
      assert Hashes(a + b) == [a[0].hash] + Hashes(a[1..] + b);
    }
  }

  lemma NoEntryHashes()
    ensures Hashes([]) == []
  {
  }

  lemma HashOfOne(e: Entry)
    ensures Hashes([e]) == [e.hash]
  {
    assert [e][1..] == [];
  }

  lemma {:induction false} SharedHashes(task: Task)
    ensures multiset(Unshared(task)) + multiset(Hashes(Shared(task).entries)) == multiset(Hashes(task.entries))
    decreases |task.entries|
  {
    if task.size > MAX_BYTES && |task.entries| > 1 {
      SharedHashes(Shifted(task));
      assert multiset(Unshared(task)) == multiset{task.entries[0].hash} + multiset(Unshared(Shifted(task)));
    }
  }

  lemma {:induction false} InsertedHashes(entries: seq<Entry>, e: Entry)
    ensures multiset(Hashes(InsertEntry(entries, e))) == multiset(Hashes(entries)) + multiset{e.hash}
  {
    HashOfOne(e);
    if entries != [] && entries[|entries| - 1].usedAt > e.usedAt {
      var shorter, last := entries[..|entries| - 1], entries[|entries| - 1];
      InsertedHashes(shorter, e);
      HashOfOne(last);
      HashesConcat(InsertEntry(shorter, e), [last]);
      HashesConcat(shorter, [last]);
      assert entries == shorter + [last];
    } else {
      HashesConcat(entries, [e]);
    }
  }

  lemma HashesLast(entries: seq<Entry>)
    requires entries != []
    ensures multiset(Hashes(entries)) ==
            multiset(Hashes(entries[..|entries| - 1])) + multiset{entries[|entries| - 1].hash}
  {
    var shorter, last := entries[..|entries| - 1], entries[|entries| - 1];
    HashOfOne(last);
    HashesConcat(shorter, [last]);
    hide Hashes;
    assert entries == shorter + [last];
  }

  lemma {:induction false} SortedHashes(entries: seq<Entry>)
    ensures multiset(Hashes(EntriesByUse(entries))) == multiset(Hashes(entries))
  {
    hide Hashes, InsertEntry;
    if entries == [] {
      assert EntriesByUse(entries) == entries;
    } else {
      SortedHashes(entries[..|entries| - 1]);
      InsertedHashes(EntriesByUse(entries[..|entries| - 1]), entries[|entries| - 1]);
      HashesLast(entries);
    }
  }

  lemma OneMoreHash(a: seq<string>, b: seq<string>, ab: seq<string>, hash: string)
    requires multiset(a) + multiset(b) == multiset(ab)
    ensures multiset(a + [hash]) + multiset(b) == multiset(ab + [hash])
            && multiset(a) + multiset(b + [hash]) == multiset(ab + [hash])
    ensures a + [] == a
  {
    assert multiset(a + [hash]) == multiset(a) + multiset{hash} && multiset(b + [hash]) == multiset(b) + multiset{hash};
    assert multiset(ab + [hash]) == multiset(ab) + multiset{hash};
  }

  lemma {:induction false} FittingHashes(entries: seq<Entry>, size: Data -> nat)
    ensures multiset(Oversized(entries, size)) + multiset(Hashes(Fitting(entries, size))) == multiset(Hashes(entries))
  {
    hide Trimmed, Hashes;
    if entries == [] {
      NoEntryHashes();
    } else {
      var shorter, last := entries[..|entries| - 1], entries[|entries| - 1];
      FittingHashes(shorter, size);
      HashOfOne(last);
      HashOfOne(TrimmedEntry(last, size));
      HashesConcat(shorter, [last]);
      HashesConcat(Fitting(shorter, size), [TrimmedEntry(last, size)]);
      assert entries == shorter + [last];
      assert Fitting(shorter, size) + [] == Fitting(shorter, size);
      OneMoreHash(Oversized(shorter, size), Hashes(Fitting(shorter, size)), Hashes(shorter), last.hash);
    }
  }

  lemma {:induction false} ReplacedHashes(tasks: seq<Task>, i: nat, task: Task, e: Entry)
    requires i < |tasks| && task.entries == tasks[i].entries + [e]
    ensures multiset(TaskHashes(tasks[i := task])) == multiset(TaskHashes(tasks)) + multiset{e.hash}
  {
    if i == 0 {
      HashOfOne(e);
      HashesConcat(tasks[0].entries, [e]);
      assert tasks[0 := task][1..] == tasks[1..];
    } else {
      ReplacedHashes(tasks[1..], i - 1, task, e);
      assert tasks[i := task][1..] == tasks[1..][i - 1 := task];
    }
  }

  lemma {:induction false} GroupedHashes(entries: seq<Entry>)
    ensures multiset(TaskHashes(Grouped(entries))) == multiset(Hashes(entries))
  {
    if entries != [] {
      var shorter, e := entries[..|entries| - 1], entries[|entries| - 1];
      GroupedHashes(shorter);
      HashOfOne(e);
      HashesConcat(shorter, [e]);
      assert entries == shorter + [e];
      var tasks := Grouped(shorter);
      var i := Place(tasks, e.task);
      if i == |tasks| {
        HashesMore(tasks, TaskOf(e.task, [e]));
      } else {
        ReplacedHashes(tasks, i, TaskOf(e.task, tasks[i].entries + [e]), e);
      }
    }
  }

  lemma {:induction false} InsertedTaskHashes(tasks: seq<Task>, t: Task)
    ensures multiset(TaskHashes(InsertTask(tasks, t))) == multiset(TaskHashes(tasks)) + multiset(Hashes(t.entries))
  {
    hide TaskHashes, Hashes;
    if tasks != [] && tasks[|tasks| - 1].usedAt > t.usedAt {
      var shorter, last := tasks[..|tasks| - 1], tasks[|tasks| - 1];
      InsertedTaskHashes(shorter, t);
      HashesMore(InsertTask(shorter, t), last);
      HashesMore(shorter, last);
      assert tasks == shorter + [last];
      hide InsertTask;
      Moved(TaskHashes(InsertTask(shorter, t)), TaskHashes(shorter), Hashes(t.entries), Hashes(last.entries));
    } else {
      HashesMore(tasks, t);
      assert multiset(TaskHashes(tasks) + Hashes(t.entries)) == multiset(TaskHashes(tasks))
             + multiset(Hashes(t.entries));
    }
  }

  lemma Moved(all: seq<string>, a: seq<string>, b: seq<string>, c: seq<string>)
    requires multiset(all) == multiset(a) + multiset(b)
    ensures multiset(all + c) == multiset(a + c) + multiset(b)
  {
    assert multiset(all + c) == multiset(all) + multiset(c) && multiset(a + c) == multiset(a) + multiset(c);
  }

  lemma {:induction false} SortedTaskHashes(tasks: seq<Task>)
    ensures multiset(TaskHashes(TasksByUse(tasks))) == multiset(TaskHashes(tasks))
  {
    hide TaskHashes, Hashes, InsertTask;
    if tasks != [] {
      var shorter, last := tasks[..|tasks| - 1], tasks[|tasks| - 1];
      SortedTaskHashes(shorter);
      InsertedTaskHashes(TasksByUse(shorter), last);
      HashesMore(shorter, last);
      assert tasks == shorter + [last];
      assert multiset(TaskHashes(shorter) + Hashes(last.entries)) == multiset(TaskHashes(shorter))
             + multiset(Hashes(last.entries));
    }
  }

  // What survives.

  /** The data of an entry after n of its pages were dropped. */
  predicate Suffix(data: Data, data': Data, n: nat) {
    && n <= |data.pages| && data'.pages == data.pages[n..]
    && data'.params == (if n <= |data.params| then data.params[n..] else []) && data'.rest == data.rest
    && (n > 0 ==> data'.pages != [])
  }

  /** The data without the oldest m of its pages. */
  function DroppedBy(data: Data, m: nat): Data
    requires m <= |data.pages|
  {
    data.(pages := data.pages[m..], params := if m <= |data.params| then data.params[m..] else [])
  }

  lemma DroppedNext(data: Data, m: nat)
    requires m < |data.pages|
    ensures DroppedBy(Dropped(data), m) == DroppedBy(data, m + 1)
  {
    assert data.pages[1..][m..] == data.pages[m + 1..];
    if data.params != [] && m + 1 <= |data.params| {
      assert data.params[1..][m..] == data.params[m + 1..];
    }
  }

  lemma NothingDropped(data: Data)
    ensures DroppedBy(data, 0) == data && Suffix(data, data, 0)
  {
    assert data.pages[0..] == data.pages && data.params[0..] == data.params;
  }

  lemma SuffixNext(data: Data, data': Data, m: nat)
    requires |data.pages| > 1 && Suffix(Dropped(data), data', m)
    ensures Suffix(data, data', m + 1)
  {
    assert data.pages[1..][m..] == data.pages[m + 1..];
    if data.params != [] && m + 1 <= |data.params| {
      assert data.params[1..][m..] == data.params[m + 1..];
    }
  }

  lemma {:induction false} TrimmedIsSuffix(data: Data, size: Data -> nat) returns (n: nat)
    ensures Suffix(data, Trimmed(data, size), n)
    ensures forall m | 0 <= m < n :: size(DroppedBy(data, m)) > 4_000_000
    decreases |data.pages|
  {
    NothingDropped(data);
    if size(data) > MAX_BYTES && |data.pages| > 1 {
      var k := TrimmedIsSuffix(Dropped(data), size);
      n := k + 1;
      SuffixNext(data, Trimmed(data, size), k);
      hide DroppedBy, Trimmed;
      forall m | 0 <= m < n ensures size(DroppedBy(data, m)) > 4_000_000 {
        if m > 0 {
          DroppedNext(data, m - 1);
        }
      }
    } else {
      n := 0;
    }
  }

  ghost predicate ByUse(tasks: seq<Task>) {
    forall i, j | 0 <= i < j < |tasks| :: tasks[i].usedAt <= tasks[j].usedAt
  }

  lemma {:induction false} InsertTaskFacts(tasks: seq<Task>, t: Task)
    requires ByUse(tasks)
    ensures ByUse(InsertTask(tasks, t)) && |InsertTask(tasks, t)| == |tasks| + 1
    ensures forall x: Task :: x in InsertTask(tasks, t) <==> x in tasks || x == t
  {
    if tasks != [] && tasks[|tasks| - 1].usedAt > t.usedAt {
      var shorter, last := tasks[..|tasks| - 1], tasks[|tasks| - 1];
      assert tasks == shorter + [last];
      InsertTaskFacts(shorter, t);
      assert InsertTask(tasks, t) == InsertTask(shorter, t) + [last];
      hide InsertTask;
      forall x | x in shorter ensures x.usedAt <= last.usedAt {
        var i :| 0 <= i < |shorter| && shorter[i] == x;
        assert tasks[i].usedAt <= tasks[|tasks| - 1].usedAt;
      }
    }
  }

  lemma {:induction false} TasksByUseFacts(tasks: seq<Task>)
    ensures ByUse(TasksByUse(tasks)) && |TasksByUse(tasks)| == |tasks|
    ensures forall x: Task :: x in TasksByUse(tasks) <==> x in tasks
  {
    if tasks != [] {
      var shorter, last := tasks[..|tasks| - 1], tasks[|tasks| - 1];
      assert tasks == shorter + [last];
      TasksByUseFacts(shorter);
      InsertTaskFacts(TasksByUse(shorter), last);
    }
  }

  lemma {:induction false} SharedUse(task: Task)
    ensures Shared(task).usedAt == task.usedAt && Shared(task).task == task.task
    ensures Shared(task).entries <= task.entries || forall e <- Shared(task).entries :: e in task.entries
    ensures forall e <- Shared(task).entries :: e in task.entries
    decreases |task.entries|
  {
    if task.size > MAX_BYTES && |task.entries| > 1 {
      SharedUse(Shifted(task));
      assert forall e <- Shifted(task).entries :: e in task.entries;
    }
  }

  /**
   The final loop ends with no more than five tasks within the budget, having taken the fewest it could, and every
   task it took was used no later than any that it kept.
   */
  lemma EvictsLeastRecent(inactive: seq<Entry>, size: Data -> nat)
    ensures var all := Candidates(inactive, size);
            var kept := Kept(all);
            && |kept| <= 5 && Total(kept) <= 4_000_000
            && (forall n | 0 <= n < |all| - |kept| :: !WithinLimits(all[n..]))
            && (forall i, t | 0 <= i < |all| - |kept| && t in kept :: all[i].usedAt <= t.usedAt)
  {
    var grouped := Grouped(Fitting(EntriesByUse(inactive), size));
    var tasks := TasksByUse(grouped);
    TasksByUseFacts(grouped);
    hide Grouped, Fitting, EntriesByUse, TasksByUse, Shared, Total, WithinLimits;
    var all := AllShared(tasks);
    assert Candidates(inactive, size) == all;
    SharedByUse(tasks);
    SuffixByUse(all, |all| - |Kept(all)|);
    assert WithinLimits(Kept(all));
    LimitsAre(Kept(all));
  }

  lemma LimitsAre(tasks: seq<Task>)
    requires WithinLimits(tasks)
    ensures |tasks| <= 5 && Total(tasks) <= 4_000_000
  {
  }

  lemma SharedByUse(tasks: seq<Task>)
    requires ByUse(tasks)
    ensures ByUse(AllShared(tasks))
  {
    hide Shared;
    forall i | 0 <= i < |tasks| ensures Shared(tasks[i]).usedAt == tasks[i].usedAt {
      SharedUse(tasks[i]);
    }
  }

  lemma SuffixByUse(tasks: seq<Task>, n: nat)
    requires ByUse(tasks) && n <= |tasks|
    ensures forall i, t | 0 <= i < n && t in tasks[n..] :: tasks[i].usedAt <= t.usedAt
  {
  }

  ghost predicate Counted(task: Task) {
    task.size == Sizes(task.entries) && forall e <- task.entries :: e.task == task.task && e.size <= MAX_BYTES
  }

  /** What every group is: counted, not empty, and of entries of the list. */
  ghost predicate GroupOk(t: Task, entries: seq<Entry>) {
    Counted(t) && t.entries != [] && t.usedAt == LastUse(t.entries) && forall e <- t.entries :: e in entries
  }

  lemma NewGroupOk(e: Entry, entries: seq<Entry>)
    requires e.size <= MAX_BYTES && e in entries
    ensures GroupOk(TaskOf(e.task, [e]), entries)
  {
    assert [e][1..] == [];
  }

  lemma MoreGroupOk(t: Task, e: Entry, entries: seq<Entry>, all: seq<Entry>)
    requires GroupOk(t, entries) && e.size <= MAX_BYTES && e.task == t.task && e in all && forall x <- entries ::
             x in all
    ensures GroupOk(TaskOf(e.task, t.entries + [e]), all)
  {
  }

  lemma LaterGroupOk(t: Task, entries: seq<Entry>, all: seq<Entry>)
    requires GroupOk(t, entries) && forall x <- entries :: x in all
    ensures GroupOk(t, all)
  {
  }

  lemma {:induction false} GroupedCounts(entries: seq<Entry>)
    requires forall e <- entries :: e.size <= MAX_BYTES
    ensures forall t <- Grouped(entries) :: GroupOk(t, entries)
    ensures forall i, j | 0 <= i < j < |Grouped(entries)| :: Grouped(entries)[i].task != Grouped(entries)[j].task
  {
    hide GroupOk;
    if entries != [] {
      var shorter, e := entries[..|entries| - 1], entries[|entries| - 1];
      assert entries == shorter + [e];
      GroupedCounts(shorter);
      var tasks := Grouped(shorter);
      var i := Place(tasks, e.task);
      if i < |tasks| {
        assert tasks[i] in tasks;
        MoreGroupOk(tasks[i], e, shorter, entries);
      } else {
        NewGroupOk(e, entries);
      }
      forall t | t in tasks ensures GroupOk(t, entries) {
        LaterGroupOk(t, shorter, entries);
      }
    }
  }

  lemma {:induction false} SharedFits(task: Task)
    requires Counted(task) && task.entries != []
    ensures Counted(Shared(task)) && Shared(task).entries != [] && Shared(task).size <= MAX_BYTES
    decreases |task.entries|
  {
    if task.size > MAX_BYTES && |task.entries| > 1 {
      SharedFits(Shifted(task));
    } else if |task.entries| == 1 {
      assert Sizes(task.entries) == task.entries[0].size + Sizes([]);
      assert task.entries[0] in task.entries;
    }
  }

  lemma {:induction false} FittingEntries(entries: seq<Entry>, size: Data -> nat, e: Entry)
    requires e in Fitting(entries, size)
    ensures e.size <= MAX_BYTES && e.size == size(e.data)
    ensures exists o <- entries :: e == TrimmedEntry(o, size)
  {
    var shorter, last := entries[..|entries| - 1], entries[|entries| - 1];
    assert entries == shorter + [last];
    if e in Fitting(shorter, size) {
      FittingEntries(shorter, size, e);
    }
  }

  lemma {:induction false} InsertEntryMembers(entries: seq<Entry>, e: Entry, x: Entry)
    ensures x in InsertEntry(entries, e) <==> x in entries || x == e
  {
    if entries != [] && entries[|entries| - 1].usedAt > e.usedAt {
      assert entries == entries[..|entries| - 1] + [entries[|entries| - 1]];
      InsertEntryMembers(entries[..|entries| - 1], e, x);
    }
  }

  lemma {:induction false} EntriesByUseMembers(entries: seq<Entry>, x: Entry)
    ensures x in EntriesByUse(entries) <==> x in entries
  {
    if entries != [] {
      assert entries == entries[..|entries| - 1] + [entries[|entries| - 1]];
      EntriesByUseMembers(entries[..|entries| - 1], x);
      InsertEntryMembers(EntriesByUse(entries[..|entries| - 1]), entries[|entries| - 1], x);
    }
  }

  lemma CandidateFacts(inactive: seq<Entry>, size: Data -> nat, t: Task)
    requires t in Candidates(inactive, size)
    ensures Counted(t) && t.entries != [] && t.size <= MAX_BYTES
    ensures forall e <- t.entries :: e in Fitting(EntriesByUse(inactive), size)
  {
    var fitting := Fitting(EntriesByUse(inactive), size);
    var grouped := Grouped(fitting);
    forall e | e in fitting ensures e.size <= MAX_BYTES {
      FittingEntries(EntriesByUse(inactive), size, e);
    }
    GroupedCounts(fitting);
    TasksByUseFacts(grouped);
    hide Grouped, Fitting, TasksByUse, Shared;
    var tasks := TasksByUse(grouped);
    var i :| 0 <= i < |tasks| && Shared(tasks[i]) == t;
    assert tasks[i] in tasks && tasks[i] in grouped;
    SharedFits(tasks[i]);
    SharedUse(tasks[i]);
  }

  /**
   Every entry that survives is an inactive one with the newest of its pages, one at least, and their parameters;
   nothing was dropped of it that still fitted; and it is counted in its own task only.
   */
  lemma SurvivorsKeepNewestPages(inactive: seq<Entry>, size: Data -> nat, t: Task, e: Entry) returns (o: Entry, n: nat)
    requires t in Kept(Candidates(inactive, size)) && e in t.entries
    ensures o in inactive && e == o.(data := e.data, size := size(e.data)) && e.task == t.task
    ensures Suffix(o.data, e.data, n) && size(e.data) <= 4_000_000
    ensures t.size == Sizes(t.entries) <= 4_000_000
  {
    var all := Candidates(inactive, size);
    assert t in all by {
      hide Candidates;
    }
    CandidateFacts(inactive, size, t);
    hide Candidates, Fitting, Trimmed;
    FittingEntries(EntriesByUse(inactive), size, e);
    o :| o in EntriesByUse(inactive) && e == TrimmedEntry(o, size);
    EntriesByUseMembers(inactive, o);
    n := TrimmedIsSuffix(o.data, size);
  }

  // Of the variants of one task, too.

  ghost predicate EntriesOrdered(entries: seq<Entry>) {
    forall i, j | 0 <= i < j < |entries| :: entries[i].usedAt <= entries[j].usedAt
  }

  lemma OrderedMore(entries: seq<Entry>, e: Entry)
    requires EntriesOrdered(entries) && forall x <- entries :: x.usedAt <= e.usedAt
    ensures EntriesOrdered(entries + [e])
  {
  }

  lemma {:induction false} InsertEntryOrdered(entries: seq<Entry>, e: Entry)
    requires EntriesOrdered(entries)
    ensures EntriesOrdered(InsertEntry(entries, e))
  {
    if entries != [] && entries[|entries| - 1].usedAt > e.usedAt {
      var shorter, last := entries[..|entries| - 1], entries[|entries| - 1];
      InsertEntryOrdered(shorter, e);
      hide InsertEntry;
      forall x | x in InsertEntry(shorter, e) ensures x.usedAt <= last.usedAt {
        InsertEntryMembers(shorter, e, x);
      }
      OrderedMore(InsertEntry(shorter, e), last);
    } else {
      OrderedMore(entries, e);
    }
  }

  lemma {:induction false} EntriesByUseOrdered(entries: seq<Entry>)
    ensures EntriesOrdered(EntriesByUse(entries))
  {
    hide InsertEntry;
    if entries != [] {
      EntriesByUseOrdered(entries[..|entries| - 1]);
      InsertEntryOrdered(EntriesByUse(entries[..|entries| - 1]), entries[|entries| - 1]);
    }
  }

  lemma {:induction false} FittingOrdered(entries: seq<Entry>, size: Data -> nat)
    requires EntriesOrdered(entries)
    ensures EntriesOrdered(Fitting(entries, size))
  {
    hide Trimmed;
    if entries != [] {
      var shorter, last := entries[..|entries| - 1], entries[|entries| - 1];
      FittingOrdered(shorter, size);
      var e := TrimmedEntry(last, size);
      forall x | x in Fitting(shorter, size) ensures x.usedAt <= e.usedAt {
        FittingEntries(shorter, size, x);
        var o :| o in shorter && x == TrimmedEntry(o, size);
      }
      hide Fitting;
      OrderedMore(Fitting(shorter, size), e);
      assert Fitting(shorter, size) + [] == Fitting(shorter, size);
      FittingNext(entries, size);
    }
  }

  lemma FittingNext(entries: seq<Entry>, size: Data -> nat)
    requires entries != []
    ensures var e := TrimmedEntry(entries[|entries| - 1], size);
            Fitting(entries, size) == Fitting(entries[..|entries| - 1], size) + if e.size > MAX_BYTES then [] else [e]
  {
    hide Trimmed;
  }

  lemma {:induction false} GroupedOrdered(entries: seq<Entry>)
    requires EntriesOrdered(entries) && forall e <- entries :: e.size <= MAX_BYTES
    ensures forall t <- Grouped(entries) :: EntriesOrdered(t.entries)
  {
    hide EntriesOrdered;
    if entries != [] {
      var shorter, e := entries[..|entries| - 1], entries[|entries| - 1];
      assert entries == shorter + [e];
      LastIsLatest(entries);
      GroupedOrdered(shorter);
      GroupedCounts(shorter);
      var tasks := Grouped(shorter);
      var i := Place(tasks, e.task);
      if i < |tasks| {
        assert GroupOk(tasks[i], shorter);
        OrderedMore(tasks[i].entries, e);
      } else {
        AloneOrdered(e);
      }
    }
  }

  lemma AloneOrdered(e: Entry)
    ensures EntriesOrdered([e])
  {
  }

  lemma LastIsLatest(entries: seq<Entry>)
    requires EntriesOrdered(entries) && entries != []
    ensures EntriesOrdered(entries[..|entries| - 1])
    ensures forall x <- entries[..|entries| - 1] :: x.usedAt <= entries[|entries| - 1].usedAt
  {
  }

  lemma FirstHash(entries: seq<Entry>, k: nat)
    requires k < |entries|
    ensures Hashes(entries[..k + 1]) == [entries[0].hash] + Hashes(entries[1..][..k])
  {
    assert entries[..k + 1][0] == entries[0] && entries[..k + 1][1..] == entries[1..][..k];
  }

  /** Enough that n entries go, and too little that fewer do. */
  ghost predicate Fewest(entries: seq<Entry>, n: nat)
    requires n < |entries|
  {
    && (forall m | 0 <= m < n :: Sizes(entries[m..]) > MAX_BYTES)
    && (n + 1 < |entries| ==> Sizes(entries[n..]) <= MAX_BYTES)
  }

  lemma FewestNext(entries: seq<Entry>, k: nat)
    requires k + 1 < |entries| && Sizes(entries) > MAX_BYTES && Fewest(entries[1..], k)
    ensures Fewest(entries, k + 1)
  {
    hide Sizes;
    var rest := entries[1..];
    assert entries[0..] == entries && entries[k + 1..] == rest[k..];
    forall m | 0 <= m < k + 1 ensures Sizes(entries[m..]) > MAX_BYTES {
      if m > 0 {
        assert entries[m..] == rest[m - 1..];
      }
    }
  }

  lemma ShiftedIsCounted(task: Task)
    requires Counted(task) && task.entries != []
    ensures Counted(Shifted(task)) && Shifted(task).entries == task.entries[1..]
    ensures task.size == Sizes(task.entries)
  {
  }

  /** What sharing takes from a task: the first n of its entries, as few as leave the rest within the allowance. */
  lemma {:induction false} SharedTakesFewest(task: Task) returns (n: nat)
    requires Counted(task) && task.entries != []
    ensures n < |task.entries| && Shared(task).entries == task.entries[n..]
            && Unshared(task) == Hashes(task.entries[..n])
    ensures Fewest(task.entries, n)
    decreases |task.entries|
  {
    ShiftedIsCounted(task);
    hide Counted, Sizes, Hashes, Fewest, Shifted;
    if task.size > MAX_BYTES && |task.entries| > 1 {
      var k := SharedTakesFewest(Shifted(task));
      n := k + 1;
      assert task.entries[1..][k..] == task.entries[n..];
      FirstHash(task.entries, k);
      FewestNext(task.entries, k);
    } else {
      n := 0;
      NoneTaken(task.entries);
    }
  }

  lemma NoneTaken(entries: seq<Entry>)
    requires entries != []
    ensures entries[0..] == entries && Hashes(entries[..0]) == []
    ensures Sizes(entries) <= MAX_BYTES || |entries| == 1 ==> Fewest(entries, 0)
  {
  }

  lemma GroupFacts(inactive: seq<Entry>, size: Data -> nat, task: Task)
    requires task in TasksByUse(Grouped(Fitting(EntriesByUse(inactive), size)))
    ensures Counted(task) && task.entries != [] && EntriesOrdered(task.entries)
  {
    var sorted := EntriesByUse(inactive);
    EntriesByUseOrdered(inactive);
    hide EntriesByUse, EntriesOrdered, Grouped, TasksByUse, Trimmed, Sizes;
    FittingOrdered(sorted, size);
    forall e | e in Fitting(sorted, size) ensures e.size <= MAX_BYTES {
      FittingEntries(sorted, size, e);
    }
    hide Fitting;
    var grouped := Grouped(Fitting(sorted, size));
    GroupedCounts(Fitting(sorted, size));
    GroupedOrdered(Fitting(sorted, size));
    TasksByUseFacts(grouped);
    assert task in grouped;
  }

  lemma CutInOrder(entries: seq<Entry>, n: nat)
    requires EntriesOrdered(entries) && n <= |entries|
    ensures entries == entries[..n] + entries[n..]
    ensures forall g <- entries[..n], k <- entries[n..] :: g.usedAt <= k.usedAt
  {
  }

  /**
   Of the variants of a task that share its allowance, those used longest ago go: as few as leave the rest within it,
   and each used no later than any that stays.
   */
  lemma VariantsGoLeastRecent(inactive: seq<Entry>, size: Data -> nat, task: Task) returns (gone: seq<Entry>)
    requires task in TasksByUse(Grouped(Fitting(EntriesByUse(inactive), size)))
    ensures task.entries == gone + Shared(task).entries && Shared(task).entries != [] && Unshared(task) == Hashes(gone)
    ensures forall g <- gone, k <- Shared(task).entries :: g.usedAt <= k.usedAt
    ensures forall m | 0 <= m < |gone| :: Sizes(task.entries[m..]) > 4_000_000
    ensures Sizes(Shared(task).entries) <= 4_000_000
  {
    GroupFacts(inactive, size, task);
    hide Grouped, Fitting, TasksByUse, EntriesByUse, Shared, Unshared, Sizes, Hashes, Counted, EntriesOrdered;
    var n := SharedTakesFewest(task);
    SharedCounts(task);
    CutInOrder(task.entries, n);
    gone := task.entries[..n];
  }

  lemma SharedCounts(task: Task)
    requires Counted(task) && task.entries != []
    ensures Sizes(Shared(task).entries) <= MAX_BYTES
  {
    SharedFits(task);
  }

  // What becomes of an entry.

  lemma {:induction false} LastUseIsLatest(entries: seq<Entry>)
    requires entries != []
    ensures forall e <- entries :: e.usedAt <= LastUse(entries)
    ensures exists e <- entries :: e.usedAt == LastUse(entries)
  {
    var n := |entries| - 1;
    assert entries == entries[..n] + [entries[n]];
    if n > 0 {
      LastUseIsLatest(entries[..n]);
      var e :| e in entries[..n] && e.usedAt == LastUse(entries[..n]);
      assert e in entries && entries[n] in entries;
    } else {
      assert entries[..0] == [] && entries[0] in entries;
    }
  }

  /** The data that trimming leaves fits, or has no page to spare. */
  lemma {:induction false} TrimmedFits(data: Data, size: Data -> nat)
    ensures size(Trimmed(data, size)) <= 4_000_000 || |Trimmed(data, size).pages| <= 1
    decreases |data.pages|
  {
    if size(data) > MAX_BYTES && |data.pages| > 1 {
      TrimmedFits(Dropped(data), size);
    }
  }

  lemma {:induction false} FittingComplete(entries: seq<Entry>, size: Data -> nat, o: Entry)
    requires o in entries
    ensures TrimmedEntry(o, size) in Fitting(entries, size) || TrimmedEntry(o, size).size > MAX_BYTES
  {
    hide Trimmed;
    var n := |entries| - 1;
    assert entries == entries[..n] + [entries[n]];
    if o in entries[..n] {
      FittingComplete(entries[..n], size, o);
    }
  }

  lemma {:induction false} GroupedComplete(entries: seq<Entry>, e: Entry)
    requires e in entries
    ensures exists t <- Grouped(entries) :: t.task == e.task && e in t.entries
  {
    var n := |entries| - 1;
    var tasks, last := Grouped(entries[..n]), entries[n];
    assert entries == entries[..n] + [last];
    var i := Place(tasks, last.task);
    if e in entries[..n] {
      GroupedComplete(entries[..n], e);
      var t :| t in tasks && t.task == e.task && e in t.entries;
      var j :| 0 <= j < |tasks| && tasks[j] == t;
      hide LastUse, Sizes, Place;
      assert Grouped(entries)[j] in Grouped(entries);
      assert e in Grouped(entries)[j].entries && Grouped(entries)[j].task == e.task;
    } else {
      hide LastUse, Sizes, Place;
      assert Grouped(entries)[i] in Grouped(entries);
      assert e in Grouped(entries)[i].entries && Grouped(entries)[i].task == e.task;
    }
  }

  /**
   Every inactive entry is counted in the task that shows it, with the newest of its pages, unless its last page alone
   is over the budget; so that besides these only variants over the allowance and whole tasks go.
   */
  lemma EveryEntryIsCounted(inactive: seq<Entry>, size: Data -> nat, o: Entry)
    requires o in inactive
    ensures var e := TrimmedEntry(o, size);
            || (e.size > 4_000_000 && |e.data.pages| <= 1)
            || exists t <- TasksByUse(Grouped(Fitting(EntriesByUse(inactive), size))) ::
                 t.task == o.task && e in t.entries
  {
    var sorted, e := EntriesByUse(inactive), TrimmedEntry(o, size);
    EntriesByUseMembers(inactive, o);
    TrimmedFits(o.data, size);
    hide EntriesByUse, Trimmed, Grouped, TasksByUse;
    FittingComplete(sorted, size, o);
    hide Fitting;
    if e in Fitting(sorted, size) {
      GroupedComplete(Fitting(sorted, size), e);
      var t :| t in Grouped(Fitting(sorted, size)) && t.task == e.task && e in t.entries;
      TasksByUseFacts(Grouped(Fitting(sorted, size)));
    }
  }

  // Activity details: single entries, and smaller limits.

  datatype Details = Details(hash: string, usedAt: nat, size: nat)

  function DetailBytes(entries: seq<Details>): nat {
    if entries == [] then 0 else entries[0].size + DetailBytes(entries[1..])
  }

  predicate DetailsFit(entries: seq<Details>) {
    |entries| <= MAX_DETAILS && DetailBytes(entries) <= MAX_DETAIL_BYTES
  }

  // Stable insertion sort by last use.
  function InsertDetails(entries: seq<Details>, d: Details): seq<Details> {
    if entries != [] && entries[|entries| - 1].usedAt > d.usedAt
    then InsertDetails(entries[..|entries| - 1], d) + [entries[|entries| - 1]]
    else entries + [d]
  }

  function DetailsByUse(entries: seq<Details>): seq<Details> {
    if entries == [] then [] else InsertDetails(DetailsByUse(entries[..|entries| - 1]), entries[|entries| - 1])
  }

  ghost predicate DetailsOrdered(entries: seq<Details>) {
    forall i, j | 0 <= i < j < |entries| :: entries[i].usedAt <= entries[j].usedAt
  }

  lemma {:induction false} InsertDetailsContents(entries: seq<Details>, d: Details)
    ensures multiset(InsertDetails(entries, d)) == multiset(entries) + multiset{d}
  {
    if entries != [] && entries[|entries| - 1].usedAt > d.usedAt {
      InsertDetailsContents(entries[..|entries| - 1], d);
      assert entries == entries[..|entries| - 1] + [entries[|entries| - 1]];
    }
  }

  lemma {:induction false} InsertDetailsOrdered(entries: seq<Details>, d: Details)
    requires DetailsOrdered(entries)
    ensures DetailsOrdered(InsertDetails(entries, d))
  {
    if entries != [] && entries[|entries| - 1].usedAt > d.usedAt {
      var shorter, last := entries[..|entries| - 1], entries[|entries| - 1];
      InsertDetailsOrdered(shorter, d);
      InsertDetailsContents(shorter, d);
      var inserted := InsertDetails(shorter, d);
      hide InsertDetails;
      forall x | x in inserted ensures x.usedAt <= last.usedAt {
        assert x in multiset(inserted);
        assert x in multiset(shorter) <==> x in shorter;
      }
      hide *;
      DetailsOrderedMore(inserted, last);
    } else {
      DetailsOrderedMore(entries, d);
    }
  }

  lemma DetailsOrderedMore(entries: seq<Details>, d: Details)
    requires DetailsOrdered(entries) && forall x <- entries :: x.usedAt <= d.usedAt
    ensures DetailsOrdered(entries + [d])
  {
  }

  lemma {:induction false} DetailsByUseFacts(entries: seq<Details>)
    ensures DetailsOrdered(DetailsByUse(entries)) && multiset(DetailsByUse(entries)) == multiset(entries)
  {
    hide InsertDetails;
    if entries != [] {
      var shorter, last := entries[..|entries| - 1], entries[|entries| - 1];
      DetailsByUseFacts(shorter);
      InsertDetailsContents(DetailsByUse(shorter), last);
      InsertDetailsOrdered(DetailsByUse(shorter), last);
      assert entries == shorter + [last];
    }
  }

  /** These entries go and those stay, in the order of use: the fewest that leave the rest within the limits. */
  ghost predicate FewestOldest(found: seq<Details>, gone: seq<Details>, kept: seq<Details>) {
    && multiset(gone + kept) == multiset(found)
    && (forall g <- gone, k <- kept :: g.usedAt <= k.usedAt)
    && DetailsFit(kept) && forall m | 0 <= m < |gone| :: !DetailsFit((gone + kept)[m..])
  }

  function DetailHashes(entries: seq<Details>): (hashes: seq<string>)
    ensures |hashes| == |entries|
    ensures forall i | 0 <= i < |entries| :: hashes[i] == entries[i].hash
  {
    seq(|entries|, i requires 0 <= i < |entries| => entries[i].hash)
  }

  lemma FirstDetail(entries: seq<Details>)
    requires !DetailsFit(entries)
    ensures entries != [] && DetailBytes(entries) == entries[0].size + DetailBytes(entries[1..])
  {
  }

  lemma NextDetail(sorted: seq<Details>, n: nat)
    requires n < |sorted|
    ensures sorted[n..][1..] == sorted[n + 1..] && sorted[n..][0] == sorted[n]
    ensures DetailHashes(sorted[..n + 1]) == DetailHashes(sorted[..n]) + [sorted[n].hash]
  {
  }

  lemma DetailsGo(found: seq<Details>, sorted: seq<Details>, n: nat)
    requires n <= |sorted| && DetailsOrdered(sorted) && multiset(sorted) == multiset(found) && DetailsFit(sorted[n..])
    requires forall m | 0 <= m < n :: !DetailsFit(sorted[m..])
    ensures FewestOldest(found, sorted[..n], sorted[n..])
  {
    hide DetailsFit;
    assert sorted[..n] + sorted[n..] == sorted;
    var gone, kept := sorted[..n], sorted[n..];
    forall g, k | g in gone && k in kept ensures g.usedAt <= k.usedAt {
      var i :| 0 <= i < n && gone[i] == g;
      var j :| 0 <= j < |kept| && kept[j] == k;
      assert sorted[i] == g && sorted[n + j] == k;
    }
  }

  /** Details that nobody looks at are sorted by their last use; the ones used longest ago go until the rest fit. */
  method PruneInactiveActivityDetails(found: seq<Details>) returns (entries: seq<Details>, removed: seq<string>)
    ensures exists gone :: FewestOldest(found, gone, entries) && removed == DetailHashes(gone)
    ensures |entries| <= 3 && DetailBytes(entries) <= 2_000_000
  {
    var sorted := DetailsByUse(found);
    DetailsByUseFacts(found);
    hide DetailsByUse, DetailsOrdered, DetailBytes, DetailHashes, FewestOldest;
    entries, removed := sorted, [];
    var total := DetailBytes(sorted);
    ghost var n := 0;
    assert sorted[0..] == sorted && sorted[..0] == [];
    while |entries| > MAX_DETAILS || total > MAX_DETAIL_BYTES
      invariant 0 <= n <= |sorted| && entries == sorted[n..] && total == DetailBytes(entries)
      invariant removed == DetailHashes(sorted[..n])
      invariant forall m | 0 <= m < n :: !DetailsFit(sorted[m..])
      decreases |entries|
    {
      FirstDetail(entries);
      NextDetail(sorted, n);
      var oldest := entries[0];
      entries, total, n := entries[1..], total - oldest.size, n + 1;
      removed := removed + [oldest.hash];
    }
    DetailsGo(found, sorted, n);
  }
}
