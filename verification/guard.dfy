/** Per-thread mutual exclusion and the serial event log, with the exact condition under which the
    thread lock protects its holders. */
module Guard {
  import opened Store
  import opened Protocol
  import Lease
  import Ordering

  // The handler relies on its thread's lock: it is inside runLoop, or its next claim will succeed.
  predicate Relies(s: State, t: Task) {
    Executing(t) || (t.place.At? && t.place.pc.Acquired? && IsStatus(s.db, t.job, Pending))
  }

  // Every handler that relies on its thread's lock has it.
  predicate Guarded(s: State) {
    forall id :: id in s.tasks && Relies(s, s.tasks[id]) ==> LockNames(s, s.tasks[id].job)
  }

  predicate ReliedOn(s: State, j: Job) {
    exists k :: k in s.tasks && s.tasks[k].job == j && Relies(s, s.tasks[k])
  }

  // The step takes a lock from under a handler that relies on it: another handler of the run
  // releases it, or a reaper deletes it; or a reaper makes a run claimable again while a handler
  // that passed the guard earlier no longer has the lock.
  predicate Steals(s: State, step: Step) {
    match step
    case Worker(id, Release) =>
      IsAt(s, id) && exists k :: k in s.tasks && k != id && s.tasks[k].job == s.tasks[id].job && Relies(s, s.tasks[k])
    case Reaping(r, Unlock) =>
      ReaperOf(s, r).Reset? && ReliedOn(s, ReaperOf(s, r).job)
    case Reaping(r, Reap(j, at)) =>
      ReaperOf(s, r).Scanned? && Stale(s.db, j, ReaperOf(s, r).cutoff) && !LockNames(s, j)
      && exists k :: k in s.tasks && s.tasks[k].job == j && s.tasks[k].place.At? && s.tasks[k].place.pc.Acquired?
    case _ => false
  }

  lemma GuardedApi(s: State, step: ApiStep)
    requires Registered(s) && Guarded(s) && ApiEnabled(s, step)
    ensures Guarded(ApplyApi(s, step))
  {
  }

  lemma GuardedBroker(s: State, step: BrokerStep)
    requires Guarded(s) && BrokerEnabled(s, step)
    ensures Guarded(ApplyBroker(s, step))
  {
  }

  lemma GuardedRelease(s: State, id: TaskId)
    requires Guarded(s) && WorkerEnabled(s, id, Release)
    ensures Guarded(ApplyWorker(s, id, Release)) <==> !Steals(s, Worker(id, Release))
  {
    var s' := ApplyWorker(s, id, Release);
    if k :| k in s.tasks && k != id && s.tasks[k].job == s.tasks[id].job && Relies(s, s.tasks[k]) {
      assert s'.tasks[k] == s.tasks[k] && Relies(s', s'.tasks[k]) && !LockNames(s', s'.tasks[k].job);
    }
  }

  lemma GuardedWorker(s: State, id: TaskId, step: WorkerStep)
    requires Guarded(s) && WorkerEnabled(s, id, step) && !step.Release?
    ensures Guarded(ApplyWorker(s, id, step))
  {
    var s' := ApplyWorker(s, id, step);
    forall k | k in s'.tasks && Relies(s', s'.tasks[k])
      ensures LockNames(s', s'.tasks[k].job)
    {
      if k != id { GuardedOther(s, id, step, k); } else { GuardedSelf(s, id, step); }
    }
  }

  // A lock that is held stays, but for a release.
  lemma LockStays(s: State, id: TaskId, step: WorkerStep, j: Job)
    requires WorkerEnabled(s, id, step) && !step.Release? && LockNames(s, j)
    ensures LockNames(ApplyWorker(s, id, step), j)
  {
  }

  lemma GuardedOther(s: State, id: TaskId, step: WorkerStep, k: TaskId)
    requires Guarded(s) && WorkerEnabled(s, id, step) && !step.Release? && k != id
    requires k in ApplyWorker(s, id, step).tasks && Relies(ApplyWorker(s, id, step), ApplyWorker(s, id, step).tasks[k])
    ensures LockNames(ApplyWorker(s, id, step), ApplyWorker(s, id, step).tasks[k].job)
  {
    OnlyTaskWorker(s, id, step);
    var t := ApplyWorker(s, id, step).tasks[k];
    StatusEdgeWorker(s, id, step, t.job);
    assert k in s.tasks && s.tasks[k] == t && Relies(s, t);
    LockStays(s, id, step, t.job);
  }

  lemma GuardedSelf(s: State, id: TaskId, step: WorkerStep)
    requires Guarded(s) && WorkerEnabled(s, id, step) && !step.Release?
    requires id in ApplyWorker(s, id, step).tasks && Relies(ApplyWorker(s, id, step), ApplyWorker(s, id, step).tasks[id])
    ensures LockNames(ApplyWorker(s, id, step), ApplyWorker(s, id, step).tasks[id].job)
  {
    OnlyTaskWorker(s, id, step);
    var t := ApplyWorker(s, id, step).tasks[id];
    StatusEdgeWorker(s, id, step, t.job);
    if !step.TryAcquire? {
      assert Relies(s, s.tasks[id]);
      LockStays(s, id, step, t.job);
    }
  }

  lemma GuardedUnlock(s: State, r: ReaperId)
    requires Guarded(s) && ReaperEnabled(s, r, Unlock)
    ensures Guarded(ApplyReaper(s, r, Unlock)) <==> !Steals(s, Reaping(r, Unlock))
  {
    var s', j := ApplyReaper(s, r, Unlock), ReaperOf(s, r).job;
    if k :| k in s.tasks && s.tasks[k].job == j && Relies(s, s.tasks[k]) {
      assert s'.tasks[k] == s.tasks[k] && Relies(s', s'.tasks[k]) && !LockNames(s', j);
    }
  }

  lemma GuardedReap(s: State, r: ReaperId, j: Job, at: int)
    requires Guarded(s) && ReaperEnabled(s, r, Reap(j, at))
    ensures Guarded(ApplyReaper(s, r, Reap(j, at))) <==> !Steals(s, Reaping(r, Reap(j, at)))
  {
    var s' := ApplyReaper(s, r, Reap(j, at));
    if k :| k in s.tasks && s.tasks[k].job == j && s.tasks[k].place.At? && s.tasks[k].place.pc.Acquired? {
      assert s'.tasks[k] == s.tasks[k] && (LockNames(s', j) <==> LockNames(s, j));
      assert Stale(s.db, j, ReaperOf(s, r).cutoff) ==> Relies(s', s'.tasks[k]);
    }
  }

  lemma GuardedReaper(s: State, r: ReaperId, step: ReaperStep)
    requires Guarded(s) && ReaperEnabled(s, r, step)
    ensures Guarded(ApplyReaper(s, r, step)) <==> !Steals(s, Reaping(r, step))
  {
    match step
    case Scan(at) =>
    case Reap(j, at) => GuardedReap(s, r, j, at);
    case Unlock => GuardedUnlock(s, r);
    case Republish(copy) =>
    case Return =>
    case Die =>
  }

  // One step leaves a handler without the lock it relies on exactly when it steals it.
  lemma GuardedStep(s: State, step: Step)
    requires Registered(s) && Guarded(s) && Enabled(s, step)
    ensures Guarded(Apply(s, step)) <==> !Steals(s, step)
  {
    match step
    case Tick(now) =>
    case Api(a) => GuardedApi(s, a);
    case Broker(b) => GuardedBroker(s, b);
    case Worker(id, a) => if a.Release? { GuardedRelease(s, id); } else { GuardedWorker(s, id, a); }
    case Reaping(r, p) => GuardedReaper(s, r, p);
  }

  ghost predicate NeverSteals(states: seq<State>, steps: seq<Step>, n: nat)
    requires n <= |steps| && n <= |states|
  {
    forall m :: 0 <= m < n ==> !Steals(states[m], steps[m])
  }

  /** Main result. With duplicates, redeliveries, resets, failed claims and crashes all allowed: in
      every state so far each handler that relies on its thread's lock has it, if and only if no
      step so far stole a lock. */
  lemma {:induction false} GuardedIffNeverStolen(states: seq<State>, steps: seq<Step>, n: nat)
    requires Behavior(states, steps) && n < |states|
    ensures (forall m :: 0 <= m <= n ==> Guarded(states[m])) <==> NeverSteals(states, steps, n)
  {
    if n > 0 {
      GuardedIffNeverStolen(states, steps, n - 1);
      GuardedAt(states, steps, n - 1);
      assert NeverSteals(states, steps, n) <==>
             NeverSteals(states, steps, n - 1) && !Steals(states[n - 1], steps[n - 1]);
    }
  }

  lemma GuardedAt(states: seq<State>, steps: seq<Step>, n: nat)
    requires Behavior(states, steps) && n < |steps|
    ensures Guarded(states[n]) ==> (Guarded(states[n + 1]) <==> !Steals(states[n], steps[n]))
  {
    AlwaysRegistered(states, steps, n);
    assert Enabled(states[n], steps[n]);
    if Guarded(states[n]) { GuardedStep(states[n], steps[n]); }
  }

  /** So, as long as no lock was stolen, two handlers of one thread inside runLoop are handlers of
      the same run, whose id the lock holds; and they are one handler if the lease hypothesis held. */
  lemma NoTwoRunsTogether(states: seq<State>, steps: seq<Step>, n: nat, i: TaskId, k: TaskId)
    requires Behavior(states, steps) && n < |states| && NeverSteals(states, steps, n)
    requires i in states[n].tasks && k in states[n].tasks
    requires Executing(states[n].tasks[i]) && Executing(states[n].tasks[k])
    requires states[n].tasks[i].job.threadId == states[n].tasks[k].job.threadId
    ensures states[n].tasks[i].job == states[n].tasks[k].job && LockNames(states[n], states[n].tasks[i].job)
    ensures (forall m :: 0 <= m < n ==> Lease.Fresh(states[m])) ==> i == k
  {
    GuardedIffNeverStolen(states, steps, n);
    assert Guarded(states[n]);
    if forall m :: 0 <= m < n ==> Lease.Fresh(states[m]) {
      Lease.AtMostOneExecutor(states, steps, n, i, k);
    }
  }

  // ---------- the thread's log is serial ----------

  // The run has events, or a handler inside runLoop that may yet write some.
  predicate Started(s: State, j: Job) {
    || (exists k :: 0 <= k < |s.db.log| && s.db.log[k].job == j)
    || (exists id :: id in s.tasks && Executing(s.tasks[id]) && s.tasks[id].job == j)
  }

  // A reaper makes a started run claimable again.
  predicate Rewinds(s: State, step: Step) {
    match step
    case Reaping(r, Reap(j, at)) =>
      ReaperOf(s, r).Scanned? && Stale(s.db, j, ReaperOf(s, r).cutoff) && Started(s, j)
    case _ => false
  }

  // Once j has an event, everything after it in the thread is j's.
  predicate LastOfThread(log: seq<Event>, j: Job) {
    forall p, q :: 0 <= p < q < |log| && log[p].job == j && log[q].job.threadId == j.threadId ==> log[q].job == j
  }

  predicate RunContiguous(log: seq<Event>) {
    forall p, q, u ::
      0 <= p < q < u < |log| && log[p].job == log[u].job && log[q].job.threadId == log[p].job.threadId
      ==> log[q].job == log[p].job
  }

  predicate Serial(s: State) {
    && RunContiguous(s.db.log)
    && (forall k :: 0 <= k < |s.db.log| ==> !IsStatus(s.db, s.db.log[k].job, Pending))
    && (forall id :: id in s.tasks && Executing(s.tasks[id]) ==>
          LastOfThread(s.db.log, s.tasks[id].job) && !IsStatus(s.db, s.tasks[id].job, Pending))
  }

  lemma SerialInsert(s: State, id: TaskId)
    requires Guarded(s) && Serial(s) && WorkerEnabled(s, id, WorkerStep.Insert)
    ensures Serial(ApplyWorker(s, id, WorkerStep.Insert))
  {
    var s' := ApplyWorker(s, id, WorkerStep.Insert);
    assert LastOfThread(s.db.log, s.tasks[id].job) && Relies(s, s.tasks[id]);
    forall k | k in s'.tasks && Executing(s'.tasks[k])
      ensures LastOfThread(s'.db.log, s'.tasks[k].job) && !IsStatus(s'.db, s'.tasks[k].job, Pending)
    {
      assert Relies(s, s.tasks[k]) && LastOfThread(s.db.log, s.tasks[k].job);
    }
  }

  lemma SerialWorker(s: State, id: TaskId, step: WorkerStep)
    requires Guarded(s) && Serial(s) && WorkerEnabled(s, id, step)
    ensures Serial(ApplyWorker(s, id, step))
  {
    if step.Insert? {
      SerialInsert(s, id);
    } else {
      var s' := ApplyWorker(s, id, step);
      assert s'.db.log == s.db.log;
      forall k | 0 <= k < |s.db.log|
        ensures !IsStatus(s'.db, s.db.log[k].job, Pending)
      {
        StatusEdgeWorker(s, id, step, s.db.log[k].job);
      }
      forall k | k in s'.tasks && Executing(s'.tasks[k])
        ensures LastOfThread(s.db.log, s'.tasks[k].job) && !IsStatus(s'.db, s'.tasks[k].job, Pending)
      {
        assert k in s.tasks && s.tasks[k].job == s'.tasks[k].job;
        StatusEdgeWorker(s, id, step, s'.tasks[k].job);
      }
    }
  }

  lemma SerialReaper(s: State, r: ReaperId, step: ReaperStep)
    requires Serial(s) && ReaperEnabled(s, r, step) && !Rewinds(s, Reaping(r, step))
    ensures Serial(ApplyReaper(s, r, step))
  {
    var s' := ApplyReaper(s, r, step);
    forall k | 0 <= k < |s.db.log|
      ensures !IsStatus(s'.db, s.db.log[k].job, Pending)
    {
      assert Started(s, s.db.log[k].job);
    }
    forall id | id in s.tasks && Executing(s.tasks[id])
      ensures !IsStatus(s'.db, s.tasks[id].job, Pending)
    {
      assert Started(s, s.tasks[id].job);
    }
  }

  lemma SerialApi(s: State, step: ApiStep)
    requires Registered(s) && Serial(s) && ApiEnabled(s, step)
    ensures Serial(ApplyApi(s, step))
  {
  }

  lemma SerialBroker(s: State, step: BrokerStep)
    requires Serial(s) && BrokerEnabled(s, step)
    ensures Serial(ApplyBroker(s, step))
  {
  }

  lemma SerialStep(s: State, step: Step)
    requires Registered(s) && Guarded(s) && Serial(s) && Enabled(s, step) && !Rewinds(s, step)
    ensures Serial(Apply(s, step))
  {
    match step
    case Tick(now) =>
    case Api(a) => SerialApi(s, a);
    case Broker(b) => SerialBroker(s, b);
    case Worker(id, a) => SerialWorker(s, id, a);
    case Reaping(r, p) => SerialReaper(s, r, p);
  }

  lemma {:induction false} AlwaysSerial(states: seq<State>, steps: seq<Step>, n: nat)
    requires Behavior(states, steps) && n < |states| && NeverSteals(states, steps, n)
    requires forall m :: 0 <= m < n ==> !Rewinds(states[m], steps[m])
    ensures Serial(states[n])
  {
    if n > 0 {
      assert NeverSteals(states, steps, n - 1);
      AlwaysSerial(states, steps, n - 1);
      SerialAt(states, steps, n - 1);
    }
  }

  lemma SerialAt(states: seq<State>, steps: seq<Step>, n: nat)
    requires Behavior(states, steps) && n < |steps| && NeverSteals(states, steps, n)
    requires Serial(states[n]) && !Rewinds(states[n], steps[n])
    ensures Serial(states[n + 1])
  {
    AlwaysRegistered(states, steps, n);
    GuardedIffNeverStolen(states, steps, n);
    assert Enabled(states[n], steps[n]) && Guarded(states[n]);
    SerialStep(states[n], steps[n]);
  }

  // The run ids of one thread's events, in commit order.
  function ThreadLog(log: seq<Event>, t: ThreadId): seq<int> {
    if log == [] then []
    else
      var last := log[|log| - 1].job;
      ThreadLog(log[..|log| - 1], t) + if last.threadId == t then [last.runId] else []
  }

  // Where the p-th event of thread t sits in the whole log.
  function Position(log: seq<Event>, t: ThreadId, p: nat): (a: nat)
    requires p < |ThreadLog(log, t)|
    ensures a < |log| && log[a].job == Job(ThreadLog(log, t)[p], t)
  {
    var front := log[..|log| - 1];
    if p < |ThreadLog(front, t)| then Position(front, t, p) else |log| - 1
  }

  lemma {:induction false} PositionIncreases(log: seq<Event>, t: ThreadId, p: nat, q: nat)
    requires p < q < |ThreadLog(log, t)|
    ensures Position(log, t, p) < Position(log, t, q)
  {
    var front := log[..|log| - 1];
    if q < |ThreadLog(front, t)| {
      PositionIncreases(front, t, p, q);
    }
  }

  /** Main result. With duplicates, redeliveries, failed claims and crashes allowed: unless a lock
      was stolen, or a started run was reset, the committed events of each thread are run-contiguous:
      in commit order, the interleaving check of the ordering verifier finds nothing. */
  lemma SerialThreadLog(states: seq<State>, steps: seq<Step>, n: nat, t: ThreadId)
    requires Behavior(states, steps) && n < |states|
    requires forall m :: 0 <= m < n ==> !Steals(states[m], steps[m]) && !Rewinds(states[m], steps[m])
    ensures !Ordering.Interleaved(ThreadLog(states[n].db.log, t))
  {
    assert NeverSteals(states, steps, n);
    AlwaysSerial(states, steps, n);
    var log := states[n].db.log;
    var runs := ThreadLog(log, t);
    forall p, q, u | 0 <= p < q < u < |runs| && runs[p] == runs[u]
      ensures runs[q] == runs[p]
    {
      PositionIncreases(log, t, p, q);
      PositionIncreases(log, t, q, u);
      assert log[Position(log, t, q)].job == log[Position(log, t, p)].job;
    }
  }
}
