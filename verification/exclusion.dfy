/** A simple sufficient condition for the thread lock to hold: histories without duplicates, resets
    and effectless failed claims. In these a run also has one message copy and one handler. */
module Exclusion {
  import opened Store
  import opened Protocol
  import Guard
  import Ordering

  // The hypothesis: no duplicate delivery or redelivery to a second handler, no reset by a reaper, and no claim that throws
  // without having taken effect. Crashes, lost answers, failing loops, failing releases,
  // cancels and lost timers are all allowed.
  predicate Orderly(s: State, step: Step)
    requires Enabled(s, step)
  {
    match step
    case Broker(Duplicate(id, copy)) => false
    case Broker(Redeliver(id, copy)) => false
    case Worker(id, ClaimThrows(applied, at)) => applied
    case Reaping(r, Reap(j, at)) => !Stale(s.db, j, ReaperOf(s, r).cutoff)
    case _ => true
  }

  predicate Early(t: Task) {
    t.place.At? ==> t.place.pc.Start? || t.place.pc.Refused? || t.place.pc.Acquired?
  }

  predicate OneCopy(s: State) {
    forall i, k ::
      i in s.tasks && k in s.tasks && HoldsCopy(s.tasks[i]) && HoldsCopy(s.tasks[k]) && s.tasks[i].job == s.tasks[k].job
      ==> i == k
  }

  // An executor is the only trace of its message.
  predicate Alone(s: State) {
    forall i, k ::
      i in s.tasks && k in s.tasks && Executing(s.tasks[i]) && s.tasks[i].job == s.tasks[k].job ==> i == k
  }

  predicate TaskInv(s: State, t: Task) {
    && t.job !in s.unpublished
    && (IsStatus(s.db, t.job, Pending) ==> Early(t))
  }

  predicate Tasks(s: State) {
    forall id :: id in s.tasks ==> TaskInv(s, s.tasks[id])
  }

  predicate NothingReset(s: State) {
    s.returned == {} && forall r :: r in s.reapers ==> !s.reapers[r].Reset? && !s.reapers[r].Unlocked?
  }

  predicate Exclusive(s: State) {
    Registered(s) && OneCopy(s) && Alone(s) && Tasks(s) && NothingReset(s)
  }

  lemma OneCopyWorker(s: State, id: TaskId, step: WorkerStep)
    requires OneCopy(s) && s.returned == {} && WorkerEnabled(s, id, step)
    ensures OneCopy(ApplyWorker(s, id, step))
  {
  }

  lemma AloneWorker(s: State, id: TaskId, step: WorkerStep)
    requires OneCopy(s) && Alone(s) && Tasks(s) && s.returned == {} && WorkerEnabled(s, id, step)
    ensures Alone(ApplyWorker(s, id, step))
  {
    var s' := ApplyWorker(s, id, step);
    forall i, k |
      i in s'.tasks && k in s'.tasks && Executing(s'.tasks[i]) && s'.tasks[i].job == s'.tasks[k].job
      ensures i == k
    {
      if step.Claim? && i == id {
        assert TaskInv(s, s.tasks[i]) && TaskInv(s, s.tasks[k]);
        assert HoldsCopy(s.tasks[i]) && HoldsCopy(s.tasks[k]);
      }
    }
  }

  lemma TasksWorker(s: State, id: TaskId, step: WorkerStep)
    requires Exclusive(s) && WorkerEnabled(s, id, step) && Orderly(s, Worker(id, step))
    ensures Tasks(ApplyWorker(s, id, step))
  {
    var s' := ApplyWorker(s, id, step);
    forall k | k in s'.tasks
      ensures TaskInv(s', s'.tasks[k])
    {
      StatusEdgeWorker(s, id, step, s'.tasks[k].job);
      assert TaskInv(s, s.tasks[id]);
      if k in s.tasks {
        assert TaskInv(s, s.tasks[k]);
      }
    }
  }

  lemma ExclusiveWorker(s: State, id: TaskId, step: WorkerStep)
    requires Exclusive(s) && WorkerEnabled(s, id, step) && Orderly(s, Worker(id, step))
    ensures Exclusive(ApplyWorker(s, id, step))
  {
    RegisteredWorker(s, id, step);
    OneCopyWorker(s, id, step);
    AloneWorker(s, id, step);
    TasksWorker(s, id, step);
    assert ApplyWorker(s, id, step).reapers == s.reapers && ApplyWorker(s, id, step).returned == {};
  }

  lemma ExclusiveBroker(s: State, step: BrokerStep)
    requires Exclusive(s) && BrokerEnabled(s, step) && Orderly(s, Broker(step))
    ensures Exclusive(ApplyBroker(s, step))
  {
    var s' := ApplyBroker(s, step);
    RegisteredBroker(s, step);
    OneCopyBroker(s, step);
    forall id | id in s'.tasks ensures TaskInv(s', s'.tasks[id]) {
      assert TaskInv(s, s.tasks[id]);
    }
  }

  lemma OneCopyBroker(s: State, step: BrokerStep)
    requires OneCopy(s) && Alone(s) && s.returned == {} && BrokerEnabled(s, step) && Orderly(s, Broker(step))
    ensures OneCopy(ApplyBroker(s, step)) && Alone(ApplyBroker(s, step))
  {
    var s' := ApplyBroker(s, step);
    assert forall id :: id in s'.tasks ==> id in s.tasks && s'.tasks[id].job == s.tasks[id].job;
    assert forall id :: id in s'.tasks && Executing(s'.tasks[id]) ==> s.tasks[id] == s'.tasks[id];
    assert forall id :: id in s'.tasks && HoldsCopy(s'.tasks[id]) ==> HoldsCopy(s.tasks[id]);
  }

  lemma ExclusiveApi(s: State, step: ApiStep)
    requires Exclusive(s) && ApiEnabled(s, step)
    ensures Exclusive(ApplyApi(s, step))
  {
    var s' := ApplyApi(s, step);
    RegisteredApi(s, step);
    OneCopyApi(s, step);
    TasksApi(s, step);
    assert Alone(s') by {
      assert forall k :: k in s'.tasks && k !in s.tasks ==> step.Publish? && s'.tasks[k].job in s.unpublished;
    }
  }

  lemma OneCopyApi(s: State, step: ApiStep)
    requires OneCopy(s) && Tasks(s) && ApiEnabled(s, step)
    ensures OneCopy(ApplyApi(s, step))
  {
    assert forall id :: id in s.tasks ==> TaskInv(s, s.tasks[id]);
  }

  lemma TasksApi(s: State, step: ApiStep)
    requires Registered(s) && Tasks(s) && ApiEnabled(s, step)
    ensures Tasks(ApplyApi(s, step))
  {
    var s' := ApplyApi(s, step);
    forall id | id in s'.tasks ensures TaskInv(s', s'.tasks[id]) {
      assert id in s.tasks ==> TaskInv(s, s.tasks[id]);
    }
  }

  lemma ExclusiveReaper(s: State, r: ReaperId, step: ReaperStep)
    requires Exclusive(s) && ReaperEnabled(s, r, step) && Orderly(s, Reaping(r, step))
    ensures Exclusive(ApplyReaper(s, r, step))
  {
  }

  lemma ExclusiveStep(s: State, step: Step)
    requires Exclusive(s) && Enabled(s, step) && Orderly(s, step)
    ensures Exclusive(Apply(s, step))
  {
    match step
    case Tick(now) =>
    case Api(a) => ExclusiveApi(s, a);
    case Broker(b) => ExclusiveBroker(s, b);
    case Worker(id, a) => ExclusiveWorker(s, id, a);
    case Reaping(r, p) => ExclusiveReaper(s, r, p);
  }

  lemma {:induction false} AlwaysExclusive(states: seq<State>, steps: seq<Step>, n: nat)
    requires Behavior(states, steps) && n < |states|
    requires forall m :: 0 <= m < n ==> Orderly(states[m], steps[m])
    ensures Exclusive(states[n])
  {
    if n > 0 {
      AlwaysExclusive(states, steps, n - 1);
      ExclusiveAt(states, steps, n - 1);
    }
  }

  lemma ExclusiveAt(states: seq<State>, steps: seq<Step>, n: nat)
    requires Path(states, steps) && n < |steps|
    requires Enabled(states[n], steps[n]) ==> Orderly(states[n], steps[n])
    ensures Exclusive(states[n]) ==> Exclusive(states[n + 1])
  {
    assert Enabled(states[n], steps[n]);
    if Exclusive(states[n]) { ExclusiveStep(states[n], steps[n]); }
  }

  // ---------- orderly histories steal nothing ----------

  lemma OrderlyStealsNothing(s: State, step: Step)
    requires Exclusive(s) && Enabled(s, step) && Orderly(s, step)
    ensures !Guard.Steals(s, step) && !Guard.Rewinds(s, step)
  {
    if step.Worker? && step.act.Release? {
      forall k | k in s.tasks && k != step.id && s.tasks[k].job == s.tasks[step.id].job
        ensures !Guard.Relies(s, s.tasks[k])
      {
        assert TaskInv(s, s.tasks[step.id]) && TaskInv(s, s.tasks[k]);
      }
    }
  }

  lemma OrderlyAt(states: seq<State>, steps: seq<Step>, n: nat)
    requires Behavior(states, steps) && n < |steps|
    requires forall m :: 0 <= m <= n ==> Orderly(states[m], steps[m])
    ensures !Guard.Steals(states[n], steps[n]) && !Guard.Rewinds(states[n], steps[n])
  {
    AlwaysExclusive(states, steps, n);
    OrderlyStealsNothing(states[n], steps[n]);
  }

  lemma OrderlyNeverSteals(states: seq<State>, steps: seq<Step>, n: nat)
    requires Behavior(states, steps) && n < |states|
    requires forall m :: 0 <= m < n ==> Orderly(states[m], steps[m])
    ensures Guard.NeverSteals(states, steps, n)
  {
    forall m | 0 <= m < n ensures !Guard.Steals(states[m], steps[m]) {
      OrderlyAt(states, steps, m);
    }
  }

  /** In every orderly history, with any number of workers, runs and threads and
      crashes at any point: each job has at most one message copy, every handler inside runLoop
      holds its thread's lock, and no two handlers of one thread are inside runLoop together. */
  lemma MutualExclusion(states: seq<State>, steps: seq<Step>, n: nat, i: TaskId, k: TaskId)
    requires Behavior(states, steps) && n < |states|
    requires forall m :: 0 <= m < n ==> Orderly(states[m], steps[m])
    requires i in states[n].tasks && k in states[n].tasks
    ensures
      var ti, tk := states[n].tasks[i], states[n].tasks[k];
      && (HoldsCopy(ti) && HoldsCopy(tk) && ti.job == tk.job ==> i == k)
      && (Executing(ti) ==> LockNames(states[n], ti.job))
      && (Executing(ti) && Executing(tk) && ti.job.threadId == tk.job.threadId ==> i == k)
  {
    AlwaysExclusive(states, steps, n);
    OrderlyNeverSteals(states, steps, n);
    Guard.GuardedIffNeverStolen(states, steps, n);
    var s := states[n];
    assert Guard.Guarded(s);
    assert Executing(s.tasks[i]) ==> Guard.Relies(s, s.tasks[i]);
    assert Executing(s.tasks[k]) ==> Guard.Relies(s, s.tasks[k]);
  }

  /** In every orderly history each thread's committed events are run-contiguous. */
  lemma SerialThreadLog(states: seq<State>, steps: seq<Step>, n: nat, t: ThreadId)
    requires Behavior(states, steps) && n < |states|
    requires forall m :: 0 <= m < n ==> Orderly(states[m], steps[m])
    ensures !Ordering.Interleaved(Guard.ThreadLog(states[n].db.log, t))
  {
    forall m | 0 <= m < n ensures !Guard.Steals(states[m], steps[m]) && !Guard.Rewinds(states[m], steps[m]) {
      OrderlyAt(states, steps, m);
    }
    Guard.SerialThreadLog(states, steps, n, t);
  }
}
