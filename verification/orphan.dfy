/** Orphaned thread locks: which lock can no longer be removed, exactly which step makes it so, and
    why such a lock is fatal. */
module OrphanedLock {
  import opened Store
  import opened Protocol

  // A refused handler whose message the broker took back: its ack throws outside the try block,
  // and only the crash of its process is left.
  predicate Stuck(s: State, id: TaskId)
    requires id in s.tasks
  {
    s.tasks[id].place.At? && s.tasks[id].place.pc.Refused? && id in s.returned
  }

  // Handlers and messages of j outside a set can do nothing any more.
  predicate OnlyStuck(s: State, j: Job, but: set<TaskId>) {
    forall id :: id in s.tasks && s.tasks[id].job == j && id !in but ==> Stuck(s, id)
  }

  predicate Recovering(s: State, j: Job, but: set<ReaperId>) {
    exists r :: r in s.reapers && r !in but && Holding(s.reapers[r], j)
  }

  // Nobody will come to the lock of thread t: the run that holds it is not running, nor yet to be
  // published, no reaper is recovering it, and it has no message and no handler that could move.
  predicate Dead(s: State, t: ThreadId) {
    t in s.db.locks &&
    var j := s.db.locks[t];
    && j.threadId == t && j in s.db.runs && s.db.runs[j].status != Running && j !in s.unpublished
    && OnlyStuck(s, j, {}) && !Recovering(s, j, {})
  }

  // The step takes the last one who would: a worker dies, a release fails, a reaper dies, or a
  // cancel hides a crashed run from the reaper's scan.
  predicate Kills(s: State, step: Step, t: ThreadId) {
    t in s.db.locks &&
    var j := s.db.locks[t];
    var running := IsStatus(s.db, j, Running);
    j !in s.unpublished &&
    match step
    case Tick(now) => false
    case Api(a) => a.CancelWrite? && a.job == j && running && OnlyStuck(s, j, {}) && !Recovering(s, j, {})
    case Broker(b) =>
      b.Crash? && !running && !Recovering(s, j, {})
      && forall id :: id in s.tasks && s.tasks[id].job == j && Survives(s, id, b.worker) ==> Stuck(s, id)
    case Worker(id, a) =>
      a.ReleaseFails? && id in s.tasks && s.tasks[id].job == j && !running
      && OnlyStuck(s, j, {id}) && !Recovering(s, j, {})
    case Reaping(r, p) =>
      p.Die? && Holding(ReaperOf(s, r), j) && !running && OnlyStuck(s, j, {}) && !Recovering(s, j, {r})
  }

  // The lock's run has a document.
  predicate LocksRegistered(s: State) {
    forall t :: t in s.db.locks ==> s.db.locks[t] in s.db.runs
  }

  predicate Sane(s: State) {
    Registered(s) && LocksKeyed(s) && LocksRegistered(s)
  }

  lemma SaneStep(s: State, step: Step)
    requires Sane(s) && Enabled(s, step)
    ensures Sane(Apply(s, step))
  {
    RegisteredStep(s, step);
    LocksKeyedStep(s, step);
    match step
    case Tick(now) =>
    case Api(a) => assert s.db.runs.Keys <= ApplyApi(s, a).db.runs.Keys;
    case Broker(b) => assert ApplyBroker(s, b).db == s.db;
    case Worker(id, a) => LocksRegisteredWorker(s, id, a);
    case Reaping(r, p) => assert s.db.runs.Keys <= ApplyReaper(s, r, p).db.runs.Keys;
  }

  lemma LocksRegisteredWorker(s: State, id: TaskId, a: WorkerStep)
    requires Registered(s) && LocksRegistered(s) && WorkerEnabled(s, id, a)
    ensures LocksRegistered(ApplyWorker(s, id, a))
  {
  }

  lemma {:induction false} AlwaysSane(states: seq<State>, steps: seq<Step>, n: nat)
    requires Behavior(states, steps) && n < |states|
    ensures Sane(states[n])
  {
    if n > 0 {
      AlwaysSane(states, steps, n - 1);
      assert Enabled(states[n - 1], steps[n - 1]);
      SaneStep(states[n - 1], steps[n - 1]);
    }
  }

  // ---------- one step ----------

  lemma DeadApi(s: State, a: ApiStep, t: ThreadId)
    requires Sane(s) && ApiEnabled(s, a)
    ensures Dead(ApplyApi(s, a), t) <==> Dead(s, t) || Kills(s, Api(a), t)
  {
    if a.Publish? {
      DeadPublish(s, a, t);
    } else {
      var s' := ApplyApi(s, a);
      assert s'.tasks == s.tasks && s'.returned == s.returned && s'.reapers == s.reapers;
    }
  }

  lemma DeadPublish(s: State, a: ApiStep, t: ThreadId)
    requires Sane(s) && a.Publish? && ApiEnabled(s, a)
    ensures Dead(ApplyApi(s, a), t) <==> Dead(s, t)
  {
    assert ApplyApi(s, a).tasks[a.copy] == Task(a.job, Ready);
  }

  lemma StuckAfterCrash(s: State, w: WorkerId, j: Job)
    ensures OnlyStuck(ApplyBroker(s, Crash(w)), j, {}) <==>
            forall id :: id in s.tasks && s.tasks[id].job == j && Survives(s, id, w) ==> Stuck(s, id)
  {
    var s' := ApplyBroker(s, Crash(w));
    forall id | id in s.tasks && Survives(s, id, w)
      ensures id in s'.tasks && s'.tasks[id].job == s.tasks[id].job && (Stuck(s', id) <==> Stuck(s, id))
    {
    }
  }

  lemma DeadCrash(s: State, w: WorkerId, t: ThreadId)
    requires Sane(s)
    ensures Dead(ApplyBroker(s, Crash(w)), t) <==> Dead(s, t) || Kills(s, Broker(Crash(w)), t)
  {
    if t in s.db.locks {
      StuckAfterCrash(s, w, s.db.locks[t]);
    }
  }

  lemma DeadBroker(s: State, b: BrokerStep, t: ThreadId)
    requires Sane(s) && BrokerEnabled(s, b) && !b.Crash?
    ensures Dead(ApplyBroker(s, b), t) <==> Dead(s, t)
  {
  }

  // The acting handler is not stuck, and afterwards still not, unless its release comes.
  lemma ActorIsFree(s: State, id: TaskId, a: WorkerStep)
    requires WorkerEnabled(s, id, a)
    ensures !Stuck(s, id)
    ensures !a.Release? && !a.ReleaseFails? && CanAcquire(s.db, s.tasks[id].job) ==>
              var s' := ApplyWorker(s, id, a); id in s'.tasks && s'.tasks[id].job == s.tasks[id].job && !Stuck(s', id)
  {
  }

  lemma OthersStuck(s: State, id: TaskId, a: WorkerStep, j: Job)
    requires WorkerEnabled(s, id, a) && s.tasks[id].job != j
    ensures OnlyStuck(ApplyWorker(s, id, a), j, {}) <==> OnlyStuck(s, j, {})
  {
    var s' := ApplyWorker(s, id, a);
    forall k | k in s.tasks && s.tasks[k].job == j
      ensures k in s'.tasks && s'.tasks[k] == s.tasks[k]
    {
    }
    assert s'.returned == s.returned;
    forall k | k in s'.tasks && s'.tasks[k].job == j
      ensures k in s.tasks && s'.tasks[k] == s.tasks[k]
    {
    }
  }

  lemma DeadWorker(s: State, id: TaskId, a: WorkerStep, t: ThreadId)
    requires Sane(s) && WorkerEnabled(s, id, a)
    ensures Dead(ApplyWorker(s, id, a), t) <==> Dead(s, t) || Kills(s, Worker(id, a), t)
  {
    ActorIsFree(s, id, a);
    if a.ReleaseFails? {
      DeadReleaseFails(s, id, t);
    } else if t !in s.db.locks {
      DeadGrant(s, id, a, t);
    } else if s.tasks[id].job == s.db.locks[t] {
      DeadOwner(s, id, a, t);
    } else {
      OthersStuck(s, id, a, s.db.locks[t]);
      DeadOther(s, id, a, t);
    }
  }

  lemma DeadReleaseFails(s: State, id: TaskId, t: ThreadId)
    requires Sane(s) && WorkerEnabled(s, id, ReleaseFails)
    ensures Dead(ApplyWorker(s, id, ReleaseFails), t) <==> Dead(s, t) || Kills(s, Worker(id, ReleaseFails), t)
  {
  }

  lemma DeadGrant(s: State, id: TaskId, a: WorkerStep, t: ThreadId)
    requires Sane(s) && WorkerEnabled(s, id, a) && t !in s.db.locks
    ensures !Dead(ApplyWorker(s, id, a), t)
  {
    ActorIsFree(s, id, a);
  }

  lemma DeadOwner(s: State, id: TaskId, a: WorkerStep, t: ThreadId)
    requires Sane(s) && WorkerEnabled(s, id, a) && t in s.db.locks && s.tasks[id].job == s.db.locks[t] && !a.ReleaseFails?
    ensures !Dead(s, t) && !Dead(ApplyWorker(s, id, a), t)
  {
    ActorIsFree(s, id, a);
  }

  lemma DeadOther(s: State, id: TaskId, a: WorkerStep, t: ThreadId)
    requires Sane(s) && WorkerEnabled(s, id, a) && t in s.db.locks && s.tasks[id].job != s.db.locks[t]
    requires OnlyStuck(ApplyWorker(s, id, a), s.db.locks[t], {}) <==> OnlyStuck(s, s.db.locks[t], {})
    ensures Dead(ApplyWorker(s, id, a), t) <==> Dead(s, t)
  {
    var s', j := ApplyWorker(s, id, a), s.db.locks[t];
    assert t in s'.db.locks && s'.db.locks[t] == j;
    assert s'.db.runs[j] == s.db.runs[j];
  }

  lemma DeadReaper(s: State, r: ReaperId, p: ReaperStep, t: ThreadId)
    requires Sane(s) && ReaperEnabled(s, r, p)
    ensures Dead(ApplyReaper(s, r, p), t) <==> Dead(s, t) || Kills(s, Reaping(r, p), t)
  {
    var s' := ApplyReaper(s, r, p);
    if p.Die? {
      DeadDie(s, r, t);
    } else if p.Reap? || p.Republish? {
      DeadRecovery(s, r, p, t);
    } else if t in s.db.locks {
      assert s'.tasks == s.tasks && s'.returned == s.returned && s'.db.runs == s.db.runs;
      assert t in s'.db.locks ==> (Recovering(s', s.db.locks[t], {}) <==> Recovering(s, s.db.locks[t], {})) by {
        RecoveringElsewhere(s, r, p, s.db.locks[t]);
      }
    }
  }

  // A phase that neither resets nor republishes keeps what its reaper holds.
  lemma RecoveringElsewhere(s: State, r: ReaperId, p: ReaperStep, j: Job)
    requires ReaperEnabled(s, r, p) && (p.Scan? || p.Unlock? || p.Return?)
    ensures Recovering(ApplyReaper(s, r, p), j, {}) <==> Recovering(s, j, {})
  {
    var s' := ApplyReaper(s, r, p);
    forall q | q in s'.reapers
      ensures Holding(s'.reapers[q], j) <==> q in s.reapers && Holding(s.reapers[q], j)
    {
    }
  }

  lemma DeadDie(s: State, r: ReaperId, t: ThreadId)
    requires Sane(s)
    ensures Dead(ApplyReaper(s, r, Die), t) <==> Dead(s, t) || Kills(s, Reaping(r, Die), t)
  {
    var s' := ApplyReaper(s, r, Die);
    if t in s.db.locks {
      forall q | q in s'.reapers
        ensures Holding(s'.reapers[q], s.db.locks[t]) <==> q != r && q in s.reapers && Holding(s.reapers[q], s.db.locks[t])
      {
      }
      assert OnlyStuck(s', s.db.locks[t], {}) <==> OnlyStuck(s, s.db.locks[t], {});
    }
  }

  lemma DeadRecovery(s: State, r: ReaperId, p: ReaperStep, t: ThreadId)
    requires Sane(s) && ReaperEnabled(s, r, p) && (p.Reap? || p.Republish?)
    ensures Dead(ApplyReaper(s, r, p), t) <==> Dead(s, t)
  {
    var s' := ApplyReaper(s, r, p);
    if p.Republish? {
      assert s'.tasks[p.copy] == Task(s.reapers[r].job, Ready);
    } else if t in s.db.locks {
      assert s'.tasks == s.tasks && s'.returned == s.returned;
      ResetRecovers(s, r, p, s.db.locks[t]);
    }
  }

  lemma ResetRecovers(s: State, r: ReaperId, p: ReaperStep, j: Job)
    requires ReaperEnabled(s, r, p) && p.Reap?
    ensures Recovering(ApplyReaper(s, r, p), j, {}) <==> Recovering(s, j, {}) || Resets(s, Reaping(r, p), j)
  {
    var s' := ApplyReaper(s, r, p);
    assert r in s'.reapers && (Holding(s'.reapers[r], j) <==> Resets(s, Reaping(r, p), j));
    forall q | q in s'.reapers && q != r
      ensures q in s.reapers && s'.reapers[q] == s.reapers[q]
    {
    }
  }

  // One step leaves a lock dead exactly if it was so before, or if the step kills it.
  lemma DeadStep(s: State, step: Step, t: ThreadId)
    requires Sane(s) && Enabled(s, step)
    ensures Dead(Apply(s, step), t) <==> Dead(s, t) || Kills(s, step, t)
  {
    match step
    case Tick(now) =>
    case Api(a) => DeadApi(s, a, t);
    case Broker(b) => if b.Crash? { DeadCrash(s, b.worker, t); } else { DeadBroker(s, b, t); }
    case Worker(id, a) => DeadWorker(s, id, a, t);
    case Reaping(r, p) => DeadReaper(s, r, p, t);
  }

  lemma DeadLockStays(s: State, step: Step, t: ThreadId)
    requires Sane(s) && Enabled(s, step) && Dead(s, t)
    ensures t in Apply(s, step).db.locks && Apply(s, step).db.locks[t] == s.db.locks[t]
  {
    match step
    case Tick(now) =>
    case Api(a) => assert ApplyApi(s, a).db.locks == s.db.locks;
    case Broker(b) => assert ApplyBroker(s, b).db == s.db;
    case Worker(id, a) => OnlyOwnerReleases(s, id, a, t);
    case Reaping(r, p) => OnlyHolderUnlocks(s, r, p, t);
  }

  lemma OnlyHolderUnlocks(s: State, r: ReaperId, p: ReaperStep, t: ThreadId)
    requires ReaperEnabled(s, r, p) && Dead(s, t)
    ensures t in ApplyReaper(s, r, p).db.locks && ApplyReaper(s, r, p).db.locks[t] == s.db.locks[t]
  {
    if p.Unlock? {
      assert r in s.reapers && !Holding(s.reapers[r], s.db.locks[t]);
    }
  }

  lemma OnlyOwnerReleases(s: State, id: TaskId, a: WorkerStep, t: ThreadId)
    requires WorkerEnabled(s, id, a) && Dead(s, t)
    ensures t in ApplyWorker(s, id, a).db.locks && ApplyWorker(s, id, a).db.locks[t] == s.db.locks[t]
  {
    ActorIsFree(s, id, a);
    assert s.tasks[id].job != s.db.locks[t];
  }

  // ---------- every history ----------

  ghost predicate Killed(states: seq<State>, steps: seq<Step>, n: nat, t: ThreadId)
    requires n <= |steps| && n <= |states|
  {
    exists m :: 0 <= m < n && Kills(states[m], steps[m], t)
  }

  /** Main result. After any history the lock of a thread is dead if and only if some step so far
      killed it: took the last handler, message or reaper that would still come to it while its run
      was not running, or cancelled a run of which only the running status was left. */
  lemma {:induction false} DeadIffKilled(states: seq<State>, steps: seq<Step>, n: nat, t: ThreadId)
    requires Behavior(states, steps) && n < |states|
    ensures Dead(states[n], t) <==> Killed(states, steps, n, t)
  {
    if n > 0 {
      DeadIffKilled(states, steps, n - 1, t);
      AlwaysSane(states, steps, n - 1);
      assert Enabled(states[n - 1], steps[n - 1]);
      DeadStep(states[n - 1], steps[n - 1], t);
    }
  }

  lemma {:induction false} DeadForever(states: seq<State>, steps: seq<Step>, m: nat, n: nat, t: ThreadId)
    requires Path(states, steps) && m <= n < |states| && Sane(states[m]) && Dead(states[m], t)
    ensures Sane(states[n]) && Dead(states[n], t) && states[n].db.locks[t] == states[m].db.locks[t]
  {
    if m < n {
      DeadForever(states, steps, m, n - 1, t);
      assert Enabled(states[n - 1], steps[n - 1]);
      SaneStep(states[n - 1], steps[n - 1]);
      DeadStep(states[n - 1], steps[n - 1], t);
      DeadLockStays(states[n - 1], steps[n - 1], t);
    }
  }

  // ---------- and a lock that is not dead can still be removed ----------

  // Some continuation of the system removes the lock of t.
  ghost predicate Freeable(s: State, t: ThreadId) {
    exists states: seq<State>, steps: seq<Step> :: Path(states, steps) && states[0] == s && t !in states[|steps|].db.locks
  }

  lemma FreedNow(s: State, t: ThreadId)
    requires t !in s.db.locks
    ensures Freeable(s, t)
  {
    assert Path([s], []);
  }

  lemma FreedAfter(s: State, step: Step, t: ThreadId)
    requires Enabled(s, step) && Freeable(Apply(s, step), t)
    ensures Freeable(s, t)
  {
    var states: seq<State>, steps: seq<Step> :| Path(states, steps) && states[0] == Apply(s, step) && t !in states[|steps|].db.locks;
    PathPrepends(s, step, states, steps);
    assert ([s] + states)[|[step] + steps|] == states[|steps|];
  }

  // A message or handler that can move, of the run that holds the lock.
  predicate Serves(s: State, id: TaskId, t: ThreadId) {
    && t in s.db.locks && s.db.locks[t].threadId == t
    && id in s.tasks && s.tasks[id].job == s.db.locks[t] && !Stuck(s, id)
  }

  // How far the handler is from its release.
  function Distance(p: Place): nat {
    match p
    case Ready => 6
    case Timer(w) => 7
    case At(w, pc) =>
      match pc
      case Start => 5
      case Refused => 8
      case Acquired => 4
      case Looping(inflight) => if inflight.Some? then 3 else 2
      case Unclaimed => 1
      case Returning(status) => 1
      case Nacking => 1
      case Releasing(acked) => 0
  }

  // The next step on its way there.
  function Onward(s: State, id: TaskId, copy: TaskId): Step
    requires id in s.tasks
  {
    match s.tasks[id].place
    case Ready => Broker(Deliver(id, 0))
    case Timer(w) => Broker(TimerFires(id))
    case At(w, pc) =>
      match pc
      case Start => Worker(id, TryAcquire)
      case Refused => Worker(id, Requeue)
      case Acquired => Worker(id, Claim(s.clock))
      case Looping(inflight) =>
        if inflight.None? then Worker(id, Finish(Done, s.clock, true))
        else if SeqTaken(s.db, s.tasks[id].job, inflight.value) then Worker(id, InsertThrows)
        else Worker(id, Insert)
      case Unclaimed => Worker(id, DropDuplicate)
      case Returning(status) => Settles(s, id, copy)
      case Nacking => Settles(s, id, copy)
      case Releasing(acked) => Worker(id, Release)
  }

  function Settles(s: State, id: TaskId, copy: TaskId): Step {
    Worker(id, if id in s.returned then SettleFails else Settle(copy))
  }

  // The handler is nearer, or the lock gone.
  predicate Closer(s: State, s': State, id: TaskId, t: ThreadId) {
    t in s'.db.locks ==>
      Serves(s', id, t) && id in s.tasks && Distance(s'.tasks[id].place) < Distance(s.tasks[id].place)
  }

  lemma Nearer(s: State, id: TaskId, t: ThreadId, copy: TaskId)
    requires Serves(s, id, t) && Unused(s, copy)
    ensures Enabled(s, Onward(s, id, copy)) && Closer(s, Apply(s, Onward(s, id, copy)), id, t)
  {
    if s.tasks[id].place.At? {
      NearerHandler(s, id, t, copy);
    }
  }

  lemma NearerHandler(s: State, id: TaskId, t: ThreadId, copy: TaskId)
    requires Serves(s, id, t) && Unused(s, copy) && s.tasks[id].place.At?
    ensures var a := Onward(s, id, copy).act; WorkerEnabled(s, id, a) && Closer(s, ApplyWorker(s, id, a), id, t)
  {
    var pc := s.tasks[id].place.pc;
    if pc.Returning? || pc.Nacking? {
      NearerSettled(s, id, t, copy);
    } else {
      var s' := ApplyWorker(s, id, Onward(s, id, copy).act);
      assert s'.returned == s.returned;
    }
  }

  lemma NearerSettled(s: State, id: TaskId, t: ThreadId, copy: TaskId)
    requires Serves(s, id, t) && Unused(s, copy)
    requires s.tasks[id].place.At? && (s.tasks[id].place.pc.Returning? || s.tasks[id].place.pc.Nacking?)
    ensures var a := Settles(s, id, copy).act; WorkerEnabled(s, id, a) && Closer(s, ApplyWorker(s, id, a), id, t)
  {
    var s' := ApplyWorker(s, id, Settles(s, id, copy).act);
    assert s'.tasks[id].job == s.tasks[id].job && s'.tasks[id].place.pc.Releasing?;
    assert s'.db == s.db;
  }

  lemma {:induction false} HandlerFrees(s: State, id: TaskId, t: ThreadId)
    requires Serves(s, id, t)
    ensures Freeable(s, t)
    decreases Distance(s.tasks[id].place)
  {
    var copy := UnusedCopy(s);
    Nearer(s, id, t, copy);
    var s' := Apply(s, Onward(s, id, copy));
    if t in s'.db.locks {
      HandlerFrees(s', id, t);
    } else {
      FreedNow(s', t);
    }
    FreedAfter(s, Onward(s, id, copy), t);
  }

  lemma ReaperFrees(s: State, r: ReaperId, t: ThreadId)
    requires t in s.db.locks && s.db.locks[t].threadId == t
    requires r in s.reapers && Holding(s.reapers[r], s.db.locks[t])
    ensures Freeable(s, t)
  {
    if s.reapers[r].Reset? {
      FreedNow(Apply(s, Reaping(r, Unlock)), t);
      FreedAfter(s, Reaping(r, Unlock), t);
    } else {
      var copy := UnusedCopy(s);
      HandlerFrees(Apply(s, Reaping(r, ReaperStep.Republish(copy))), copy, t);
      FreedAfter(s, Reaping(r, ReaperStep.Republish(copy)), t);
    }
  }

  lemma PublishFrees(s: State, t: ThreadId)
    requires t in s.db.locks && s.db.locks[t].threadId == t && s.db.locks[t] in s.unpublished
    ensures Freeable(s, t)
  {
    var copy := UnusedCopy(s);
    HandlerFrees(Apply(s, Api(Publish(s.db.locks[t], copy))), copy, t);
    FreedAfter(s, Api(Publish(s.db.locks[t], copy)), t);
  }

  // Its lease runs out and a new reaper finds it.
  lemma RunningFrees(s: State, t: ThreadId)
    requires t in s.db.locks && s.db.locks[t].threadId == t && IsStatus(s.db, s.db.locks[t], Running)
    ensures Freeable(s, t)
  {
    var j := s.db.locks[t];
    var r := Above(s.reapers.Keys);
    var expiry := s.db.runs[j].updatedAt + s.leaseTtl + 1;
    var now := if s.clock < expiry then expiry else s.clock;
    var s1 := Apply(s, Tick(now));
    var s2 := Apply(s1, Reaping(r, Scan(now)));
    assert j in s2.reapers[r].todo;
    var s3 := Apply(s2, Reaping(r, Reap(j, now)));
    ReaperFrees(s3, r, t);
    FreedAfter(s2, Reaping(r, Reap(j, now)), t);
    FreedAfter(s1, Reaping(r, Scan(now)), t);
    FreedAfter(s, Tick(now), t);
  }

  /** What dead means: in every reachable state a held lock is dead if and only if no continuation of
      the system, however lucky, removes it. */
  lemma DeadIffNotFreeable(states: seq<State>, steps: seq<Step>, n: nat, t: ThreadId)
    requires Behavior(states, steps) && n < |states| && t in states[n].db.locks
    ensures Dead(states[n], t) <==> !Freeable(states[n], t)
  {
    var s := states[n];
    AlwaysSane(states, steps, n);
    if Dead(s, t) {
      NeverFreed(s, t);
    } else {
      RescuedLock(s, t);
    }
  }

  lemma NeverFreed(s: State, t: ThreadId)
    requires Sane(s) && Dead(s, t)
    ensures !Freeable(s, t)
  {
    forall states: seq<State>, steps: seq<Step> | Path(states, steps) && states[0] == s
      ensures t in states[|steps|].db.locks
    {
      DeadForever(states, steps, 0, |steps|, t);
    }
  }

  lemma RescuedLock(s: State, t: ThreadId)
    requires Sane(s) && t in s.db.locks && !Dead(s, t)
    ensures Freeable(s, t)
  {
    var j := s.db.locks[t];
    if id :| id in s.tasks && s.tasks[id].job == j && !Stuck(s, id) {
      HandlerFrees(s, id, t);
    } else if r :| r in s.reapers && Holding(s.reapers[r], j) {
      ReaperFrees(s, r, t);
    } else if j in s.unpublished {
      PublishFrees(s, t);
    } else {
      RunningFrees(s, t);
    }
  }

  /** The documented promise, with its exact hypothesis: while no step has killed the lock of a thread,
      the run that holds it has a message or a handler that can move, or is running, where a reaper will
      find it, or is being recovered, or is yet to be published. */
  lemma NoOrphanedLock(states: seq<State>, steps: seq<Step>, n: nat, t: ThreadId)
    requires Behavior(states, steps) && n < |states| && t in states[n].db.locks && !Killed(states, steps, n, t)
    ensures var s := states[n]; var j := s.db.locks[t];
            || (exists id :: id in s.tasks && s.tasks[id].job == j && !Stuck(s, id))
            || IsStatus(s.db, j, Running) || Recovering(s, j, {}) || j in s.unpublished
    ensures Freeable(states[n], t)
  {
    DeadIffKilled(states, steps, n, t);
    AlwaysSane(states, steps, n);
    DeadIffNotFreeable(states, steps, n, t);
  }

  // The windows: a worker can only kill a lock by dying with an armed republish of its run, at a
  // handler that has settled its message, or at one whose message the broker took back.
  lemma KilledInWindow(s: State, w: WorkerId, t: ThreadId)
    requires Sane(s) && !Dead(s, t) && Kills(s, Broker(Crash(w)), t)
    ensures exists id :: id in s.tasks && s.tasks[id].job == s.db.locks[t] && !s.tasks[id].place.Ready?
                         && s.tasks[id].place.worker == w
                         && (s.tasks[id].place.Timer? || s.tasks[id].place.pc.Releasing? || id in s.returned)
  {
    var id :| id in s.tasks && s.tasks[id].job == s.db.locks[t] && !Stuck(s, id);
    assert !Survives(s, id, w);
  }

  // ---------- what a dead lock does to its thread ----------

  // And no handler of the thread is past its lock request.
  predicate Orphaned(s: State, t: ThreadId) {
    Dead(s, t) && forall id :: id in s.tasks && s.tasks[id].job.threadId == t ==> Waiting(s.tasks[id])
  }

  predicate Waiting(k: Task) {
    k.place.At? ==> k.place.pc.Start? || k.place.pc.Refused?
  }

  lemma WaitingWorker(s: State, id: TaskId, a: WorkerStep, t: ThreadId)
    requires Sane(s) && Orphaned(s, t) && WorkerEnabled(s, id, a)
    ensures forall k :: k in ApplyWorker(s, id, a).tasks && ApplyWorker(s, id, a).tasks[k].job.threadId == t ==>
              Waiting(ApplyWorker(s, id, a).tasks[k])
  {
    ActorIsFree(s, id, a);
  }

  lemma WaitingStep(s: State, step: Step, t: ThreadId)
    requires Sane(s) && Orphaned(s, t) && Enabled(s, step)
    ensures Orphaned(Apply(s, step), t)
  {
    DeadStep(s, step, t);
    match step
    case Tick(now) =>
    case Api(a) =>
    case Broker(b) =>
    case Worker(id, a) => WaitingWorker(s, id, a, t);
    case Reaping(r, p) =>
  }

  /** A dead lock is fatal: once no handler of its thread is past the lock request, no run of that
      thread is ever executed again, however the system continues. */
  lemma {:induction false} OrphanedThreadIsDead(states: seq<State>, steps: seq<Step>, m: nat, n: nat, t: ThreadId)
    requires Path(states, steps) && m <= n < |states| && Sane(states[m]) && Orphaned(states[m], t)
    ensures Sane(states[n]) && Orphaned(states[n], t) && states[n].db.locks[t] == states[m].db.locks[t]
    ensures forall id :: id in states[n].tasks && states[n].tasks[id].job.threadId == t ==>
              !Executing(states[n].tasks[id])
  {
    if m < n {
      OrphanedThreadIsDead(states, steps, m, n - 1, t);
      assert Enabled(states[n - 1], steps[n - 1]);
      SaneStep(states[n - 1], steps[n - 1]);
      WaitingStep(states[n - 1], steps[n - 1], t);
      DeadLockStays(states[n - 1], steps[n - 1], t);
    }
  }
}
