/** No published run is lost, except by one step whose exact condition is given. */
module LostRun {
  import opened Store
  import opened Protocol

  // A message, or a handler still holding one, that will reach a claim or be put back in the
  // queue if nothing crashes. A handler whose message the broker took back holds none.
  predicate LiveCopy(s: State, id: TaskId)
    requires id in s.tasks
  {
    LivePlace(s.tasks[id].place) && id !in s.returned
  }

  predicate LivePlace(p: Place) {
    match p
    case Ready => true
    case Timer(w) => true
    case At(w, pc) => pc.Start? || pc.Refused? || pc.Acquired? || pc.Nacking?
  }

  predicate HasCopy(s: State, j: Job) {
    exists id :: id in s.tasks && s.tasks[id].job == j && LiveCopy(s, id)
  }

  predicate HeldByReaper(s: State, j: Job) {
    exists r :: r in s.reapers && Holding(s.reapers[r], j)
  }

  predicate Waits(s: State, j: Job) {
    IsStatus(s.db, j, Pending) && j !in s.unpublished
  }

  // Every published pending run still has a message somewhere.
  predicate Recoverable(s: State, j: Job) {
    Waits(s, j) ==> HasCopy(s, j) || HeldByReaper(s, j)
  }

  // The message copy that is live after a crash of w.
  predicate LiveAfterCrash(s: State, id: TaskId, w: WorkerId)
    requires id in s.tasks
  {
    Survives(s, id, w) && id !in s.returned && LivePlace(AfterCrash(s.tasks[id], w).place)
  }

  // The step takes the last message of a waiting run: a worker dies with nothing of j but armed
  // timers, or a reaper dies between resetting j and republishing it when j has no message left.
  predicate Deprives(s: State, step: Step, j: Job) {
    Waits(s, j) &&
    match step
    case Broker(Crash(w)) =>
      !HeldByReaper(s, j) && forall id :: id in s.tasks && s.tasks[id].job == j ==> !LiveAfterCrash(s, id, w)
    case Reaping(r, Die) =>
      Holding(ReaperOf(s, r), j) && !HasCopy(s, j)
      && forall q :: q in s.reapers && q != r ==> !Holding(s.reapers[q], j)
    case _ => false
  }

  // A live copy of j stays in its place.
  lemma CopyStays(s: State, s': State, j: Job, id: TaskId)
    requires id in s.tasks && s.tasks[id].job == j && LiveCopy(s, id)
    requires id in s'.tasks && s'.tasks[id].job == j && LivePlace(s'.tasks[id].place) && id !in s'.returned
    ensures HasCopy(s', j)
  {
  }

  lemma RecoverableApi(s: State, step: ApiStep, j: Job)
    requires Registered(s) && Recoverable(s, j) && ApiEnabled(s, step)
    ensures Recoverable(ApplyApi(s, step), j)
  {
    var s' := ApplyApi(s, step);
    if step.Publish? && step.job == j {
      assert step.copy in s'.tasks && LiveCopy(s', step.copy);
    } else if HasCopy(s, j) {
      var id :| id in s.tasks && s.tasks[id].job == j && LiveCopy(s, id);
      CopyStays(s, s', j, id);
    }
  }

  lemma RecoverableCrash(s: State, w: WorkerId, j: Job)
    requires Recoverable(s, j)
    ensures Recoverable(ApplyBroker(s, Crash(w)), j) <==> !Deprives(s, Broker(Crash(w)), j)
  {
    var s' := ApplyBroker(s, Crash(w));
    if HasCopy(s', j) {
      var id :| id in s'.tasks && s'.tasks[id].job == j && LiveCopy(s', id);
      assert LiveAfterCrash(s, id, w);
    }
    if id :| id in s.tasks && s.tasks[id].job == j && LiveAfterCrash(s, id, w) {
      assert id in s'.tasks && LiveCopy(s', id);
    }
  }

  lemma RecoverableBroker(s: State, step: BrokerStep, j: Job)
    requires Recoverable(s, j) && BrokerEnabled(s, step)
    ensures Recoverable(ApplyBroker(s, step), j) <==> !Deprives(s, Broker(step), j)
  {
    if step.Crash? {
      RecoverableCrash(s, step.worker, j);
    } else if HasCopy(s, j) {
      var s' := ApplyBroker(s, step);
      var id :| id in s.tasks && s.tasks[id].job == j && LiveCopy(s, id);
      if step.Redeliver? && step.id == id {
        assert step.copy in s'.tasks && s'.tasks[step.copy].job == j && LiveCopy(s', step.copy);
      } else {
        CopyStays(s, s', j, id);
      }
    }
  }

  lemma RecoverableWorker(s: State, id: TaskId, step: WorkerStep, j: Job)
    requires Recoverable(s, j) && WorkerEnabled(s, id, step)
    ensures Recoverable(ApplyWorker(s, id, step), j)
  {
    var s' := ApplyWorker(s, id, step);
    if IsStatus(s'.db, j, Pending) {
      StatusEdgeWorker(s, id, step, j);
      if j !in s.unpublished && HasCopy(s, j) {
        var k :| k in s.tasks && s.tasks[k].job == j && LiveCopy(s, k);
        if step.Settle? && k == id {
          assert step.copy in s'.tasks && s'.tasks[step.copy].job == j && LiveCopy(s', step.copy);
        } else {
          CopyStays(s, s', j, k);
        }
      }
    }
  }

  lemma RecoverableReaper(s: State, r: ReaperId, step: ReaperStep, j: Job)
    requires Recoverable(s, j) && ReaperEnabled(s, r, step) && !step.Die?
    ensures Recoverable(ApplyReaper(s, r, step), j)
  {
    var s' := ApplyReaper(s, r, step);
    if Holding(ReaperOf(s, r), j) || (step.Reap? && step.job == j && Stale(s.db, j, ReaperOf(s, r).cutoff)) {
      if step.Republish? {
        assert s'.tasks[step.copy] == Task(j, Ready) && LiveCopy(s', step.copy);
      } else {
        assert Holding(s'.reapers[r], j);
      }
    } else if HasCopy(s, j) {
      var k :| k in s.tasks && s.tasks[k].job == j && LiveCopy(s, k);
      CopyStays(s, s', j, k);
    } else if HeldByReaper(s, j) {
      var q :| q in s.reapers && Holding(s.reapers[q], j);
      assert s'.reapers[q] == s.reapers[q];
    }
  }

  lemma RecoverableDeath(s: State, r: ReaperId, j: Job)
    requires Recoverable(s, j)
    ensures Recoverable(ApplyReaper(s, r, Die), j) <==> !Deprives(s, Reaping(r, Die), j)
  {
    var s' := ApplyReaper(s, r, Die);
    assert HasCopy(s', j) <==> HasCopy(s, j) by {
      if HasCopy(s, j) {
        var k :| k in s.tasks && s.tasks[k].job == j && LiveCopy(s, k);
        assert k in s'.tasks && LiveCopy(s', k);
      }
      if HasCopy(s', j) {
        var k :| k in s'.tasks && s'.tasks[k].job == j && LiveCopy(s', k);
        assert k in s.tasks && LiveCopy(s, k);
      }
    }
    if q :| q in s.reapers && q != r && Holding(s.reapers[q], j) {
      assert s'.reapers[q] == s.reapers[q];
    }
  }

  lemma RecoverableTick(s: State, now: int, j: Job)
    requires Recoverable(s, j)
    ensures Recoverable(s.(clock := now), j)
  {
    if HasCopy(s, j) {
      var k :| k in s.tasks && s.tasks[k].job == j && LiveCopy(s, k);
      CopyStays(s, s.(clock := now), j, k);
    }
  }

  // One step loses the last message exactly when it deprives.
  lemma RecoverableStep(s: State, step: Step, j: Job)
    requires Registered(s) && Recoverable(s, j) && Enabled(s, step)
    ensures Recoverable(Apply(s, step), j) <==> !Deprives(s, step, j)
  {
    match step
    case Tick(now) => RecoverableTick(s, now, j);
    case Api(a) => RecoverableApi(s, a, j);
    case Broker(b) => RecoverableBroker(s, b, j);
    case Worker(id, a) => RecoverableWorker(s, id, a, j);
    case Reaping(r, p) => if p.Die? { RecoverableDeath(s, r, j); } else { RecoverableReaper(s, r, p, j); }
  }

  ghost predicate NeverDeprived(states: seq<State>, steps: seq<Step>, n: nat, j: Job)
    requires n <= |steps| && n <= |states|
  {
    forall m :: 0 <= m < n ==> !Deprives(states[m], steps[m], j)
  }

  /** Main result. Over every interleaving of deliveries, nacks, duplicates, redeliveries, cancels,
      crashes, lost answers and reaps: run j has been recoverable in every state so far if and only
      if no step so far took its last message. */
  lemma {:induction false} RecoverableIffNotDeprived(states: seq<State>, steps: seq<Step>, n: nat, j: Job)
    requires Behavior(states, steps) && n < |states|
    ensures (forall m :: 0 <= m <= n ==> Recoverable(states[m], j)) <==> NeverDeprived(states, steps, n, j)
  {
    if n > 0 {
      RecoverableIffNotDeprived(states, steps, n - 1, j);
      AlwaysRegistered(states, steps, n - 1);
      if Recoverable(states[n - 1], j) {
        RecoverableAt(states, steps, n - 1, j);
      }
      assert NeverDeprived(states, steps, n, j) <==>
             NeverDeprived(states, steps, n - 1, j) && !Deprives(states[n - 1], steps[n - 1], j);
    }
  }

  lemma RecoverableAt(states: seq<State>, steps: seq<Step>, n: nat, j: Job)
    requires Path(states, steps) && n < |steps| && Registered(states[n]) && Recoverable(states[n], j)
    ensures Recoverable(states[n + 1], j) <==> !Deprives(states[n], steps[n], j)
  {
    assert Enabled(states[n], steps[n]);
    RecoverableStep(states[n], steps[n], j);
  }

  /** What that means: a published run that is not terminal is marked running, so a reaper's scan
      can see it, or has a message ready, at a handler that will use or return it, in a timer, or
      with a reaper. */
  lemma NoLostRun(states: seq<State>, steps: seq<Step>, n: nat, j: Job)
    requires Behavior(states, steps) && n < |states|
    requires forall m :: 0 <= m < n ==> !Deprives(states[m], steps[m], j)
    ensures j in states[n].db.runs && j !in states[n].unpublished && !states[n].db.runs[j].status.Terminal() ==>
              states[n].db.runs[j].status == Running || HasCopy(states[n], j) || HeldByReaper(states[n], j)
  {
    RecoverableIffNotDeprived(states, steps, n, j);
    assert NeverDeprived(states, steps, n, j);
    assert Recoverable(states[n], j);
  }

  // The two fault windows: a worker dies with a delayed republish of j armed, or a reaper dies
  // between resetting j and republishing it.
  predicate LosesCopy(s: State, step: Step, j: Job) {
    || (step.Broker? && step.broker.Crash?
        && exists id :: id in s.tasks && s.tasks[id] == Task(j, Timer(step.broker.worker)))
    || (step.Reaping? && step.phase.Die? && Holding(ReaperOf(s, step.reaper), j))
  }

  // Only in one of them can a recoverable run be deprived.
  lemma DeprivedInWindow(s: State, step: Step, j: Job)
    requires Recoverable(s, j) && Deprives(s, step, j)
    ensures LosesCopy(s, step, j)
  {
    if HasCopy(s, j) {
      var id :| id in s.tasks && s.tasks[id].job == j && LiveCopy(s, id);
      assert step.Broker? ==> !LiveAfterCrash(s, id, step.broker.worker);
      assert step.Broker? ==> s.tasks[id] == Task(j, Timer(step.broker.worker));
    }
  }

  // ---------- and a lost run stays lost ----------

  // A message, or a handler that could still claim the run, put its message back, or give it back by
  // dying. After a redelivery the first is all that is left.
  predicate Claimable(s: State, id: TaskId)
    requires id in s.tasks
  {
    match s.tasks[id].place
    case Ready => true
    case Timer(w) => true
    case At(w, pc) => !pc.Releasing? && (id !in s.returned || pc.Start? || pc.Acquired?)
  }

  // Pending and published, no reaper about to republish it, and nothing left that could claim it.
  predicate Lost(s: State, j: Job) {
    && Waits(s, j) && !HeldByReaper(s, j)
    && (forall id :: id in s.tasks && s.tasks[id].job == j ==> !Claimable(s, id))
  }

  // A run that a step deprives of its last message is lost, unless a handler of it is left that could
  // still claim it after a redelivery, or that took it before it was reset.
  lemma DeprivedIsLost(s: State, step: Step, j: Job)
    requires Registered(s) && Recoverable(s, j) && Enabled(s, step) && Deprives(s, step, j)
    ensures var s' := Apply(s, step);
            Lost(s', j) <==> forall id :: id in s'.tasks && s'.tasks[id].job == j ==> !Claimable(s', id)
  {
    RecoverableStep(s, step, j);
  }

  lemma LostStep(s: State, step: Step, j: Job)
    requires Lost(s, j) && Enabled(s, step)
    ensures Lost(Apply(s, step), j) || IsTerminal(StatusOf(Apply(s, step), j))
    ensures !Claims(s, step, j)
  {
    match step
    case Tick(now) =>
    case Api(a) => LostApi(s, a, j);
    case Broker(b) => LostBroker(s, b, j);
    case Worker(id, a) => LostWorker(s, id, a, j);
    case Reaping(r, p) => LostReaper(s, r, p, j);
  }

  lemma LostApi(s: State, step: ApiStep, j: Job)
    requires Lost(s, j) && ApiEnabled(s, step)
    ensures Lost(ApplyApi(s, step), j) || IsTerminal(StatusOf(ApplyApi(s, step), j))
  {
  }

  lemma LostBroker(s: State, step: BrokerStep, j: Job)
    requires Lost(s, j) && BrokerEnabled(s, step)
    ensures Lost(ApplyBroker(s, step), j)
  {
  }

  lemma LostWorker(s: State, id: TaskId, step: WorkerStep, j: Job)
    requires Lost(s, j) && WorkerEnabled(s, id, step)
    ensures Lost(ApplyWorker(s, id, step), j) || IsTerminal(StatusOf(ApplyWorker(s, id, step), j))
    ensures !Claims(s, Worker(id, step), j)
  {
    StatusEdgeWorker(s, id, step, j);
  }

  lemma LostReaper(s: State, r: ReaperId, step: ReaperStep, j: Job)
    requires Lost(s, j) && ReaperEnabled(s, r, step)
    ensures Lost(ApplyReaper(s, r, step), j)
  {
  }

  /** No component ever picks up a lost run again: the reaper scans only running runs. From then on
      the run is lost or terminal, and no claim of it takes effect. */
  lemma {:induction false} LostForever(states: seq<State>, steps: seq<Step>, m: nat, n: nat, j: Job)
    requires Path(states, steps) && m <= n < |states| && Lost(states[m], j)
    ensures Lost(states[n], j) || IsTerminal(StatusOf(states[n], j))
    ensures n < |steps| ==> Enabled(states[n], steps[n]) && !Claims(states[n], steps[n], j)
  {
    if m < n {
      LostForever(states, steps, m, n - 1, j);
      LostOrTerminalStep(states[n - 1], steps[n - 1], j);
    }
    if n < |steps| {
      assert Enabled(states[n], steps[n]);
      LostOrTerminalStep(states[n], steps[n], j);
    }
  }

  lemma LostOrTerminalStep(s: State, step: Step, j: Job)
    requires Enabled(s, step) && (Lost(s, j) || IsTerminal(StatusOf(s, j)))
    ensures Lost(Apply(s, step), j) || IsTerminal(StatusOf(Apply(s, step), j))
    ensures !Claims(s, step, j)
  {
    StatusEdgeStep(s, step, j);
    if Lost(s, j) {
      LostStep(s, step, j);
    }
  }
}
