/** Lease safety, the claim/reset ledger, and closure of the terminal statuses. */
module Lease {
  import opened Store
  import opened Protocol

  // The lease hypothesis: the run of every handler inside runLoop was touched at most
  // leaseTtl ago, as long as it is still marked running.
  predicate Fresh(s: State) {
    forall id :: id in s.tasks && Executing(s.tasks[id]) && IsStatus(s.db, s.tasks[id].job, Running) ==>
      s.clock - s.db.runs[s.tasks[id].job].updatedAt <= s.leaseTtl
  }

  // What every fresh history keeps. Reapers may hold arbitrarily old cutoffs.
  predicate Leased(s: State) {
    ExecutorsKnown(s) && ExecutorsUnique(s) && CutoffsPast(s)
  }

  predicate ExecutorsKnown(s: State) {
    forall id :: id in s.tasks && Executing(s.tasks[id]) ==> ExecutorKnown(s, s.tasks[id])
  }

  predicate ExecutorsUnique(s: State) {
    forall i, k ::
      i in s.tasks && k in s.tasks && Executing(s.tasks[i]) && Executing(s.tasks[k]) && s.tasks[i].job == s.tasks[k].job
      ==> i == k
  }

  predicate CutoffsPast(s: State) {
    forall r :: r in s.reapers && !s.reapers[r].Idle? ==> s.reapers[r].cutoff <= s.clock - s.leaseTtl
  }

  predicate ExecutorKnown(s: State, t: Task)
    requires Executing(t)
  {
    && t.job in s.db.runs
    && s.db.runs[t.job].status != Pending
    && (s.db.runs[t.job].status == Running ==> s.db.runs[t.job].claimedBy == Some(t.place.worker))
  }

  lemma KnownWorker(s: State, id: TaskId, step: WorkerStep)
    requires ExecutorsKnown(s) && ExecutorsUnique(s) && WorkerEnabled(s, id, step)
    ensures ExecutorsKnown(ApplyWorker(s, id, step))
  {
  }

  lemma UniqueWorker(s: State, id: TaskId, step: WorkerStep)
    requires ExecutorsKnown(s) && ExecutorsUnique(s) && WorkerEnabled(s, id, step)
    ensures ExecutorsUnique(ApplyWorker(s, id, step))
  {
  }

  lemma LeasedReaper(s: State, r: ReaperId, step: ReaperStep)
    requires Leased(s) && Fresh(s) && ReaperEnabled(s, r, step)
    ensures Leased(ApplyReaper(s, r, step))
  {
  }

  lemma LeasedBroker(s: State, step: BrokerStep)
    requires Leased(s) && BrokerEnabled(s, step)
    ensures Leased(ApplyBroker(s, step))
  {
  }

  lemma LeasedApi(s: State, step: ApiStep)
    requires Leased(s) && ApiEnabled(s, step)
    ensures Leased(ApplyApi(s, step))
  {
  }

  lemma LeasedStep(s: State, step: Step)
    requires Leased(s) && Fresh(s) && Enabled(s, step)
    ensures Leased(Apply(s, step))
  {
    match step
    case Tick(now) =>
    case Api(a) => LeasedApi(s, a);
    case Broker(b) => LeasedBroker(s, b);
    case Worker(id, a) => KnownWorker(s, id, a); UniqueWorker(s, id, a);
    case Reaping(r, p) => LeasedReaper(s, r, p);
  }

  lemma {:induction false} AlwaysLeased(states: seq<State>, steps: seq<Step>, n: nat)
    requires Behavior(states, steps) && n < |states|
    requires forall m :: 0 <= m < n ==> Fresh(states[m])
    ensures Leased(states[n])
  {
    if n > 0 {
      AlwaysLeased(states, steps, n - 1);
      LeasedStep(states[n - 1], steps[n - 1]);
    }
  }

  /** Main result. Whatever the duplicates, crashes, cancels, lost answers and concurrent
      reapers: while the lease hypothesis has held, a run has at most one handler inside
      runLoop, and while the run is marked running its document names that handler's worker. */
  lemma AtMostOneExecutor(states: seq<State>, steps: seq<Step>, n: nat, i: TaskId, k: TaskId)
    requires Behavior(states, steps) && n < |states|
    requires forall m :: 0 <= m < n ==> Fresh(states[m])
    requires i in states[n].tasks && k in states[n].tasks
    requires Executing(states[n].tasks[i]) && Executing(states[n].tasks[k])
    requires states[n].tasks[i].job == states[n].tasks[k].job
    ensures i == k
    ensures var j := states[n].tasks[i].job;
            IsStatus(states[n].db, j, Running) ==>
              states[n].db.runs[j].claimedBy == Some(states[n].tasks[i].place.worker)
  {
    AlwaysLeased(states, steps, n);
  }

  // ---------- where the freshness comes from ----------

  // The timestamp of the latest claim or number that this handler sent, in the first n steps.
  function LastBeat(steps: seq<Step>, n: nat, id: TaskId): Option<int>
    requires n <= |steps|
  {
    if n == 0 then None
    else
      match steps[n - 1]
      case Worker(k, Claim(at)) => if k == id then Some(at) else LastBeat(steps, n - 1, id)
      case Worker(k, Allocate(at)) => if k == id then Some(at) else LastBeat(steps, n - 1, id)
      case Worker(k, AllocateThrows(at)) => if k == id then Some(at) else LastBeat(steps, n - 1, id)
      case _ => LastBeat(steps, n - 1, id)
  }

  // The handler's own latest claim or number is at most leaseTtl old.
  predicate Beats(s: State, steps: seq<Step>, n: nat, id: TaskId)
    requires n <= |steps|
  {
    LastBeat(steps, n, id).Some? && s.clock - LastBeat(steps, n, id).value <= s.leaseTtl
  }

  // So it is of every handler inside runLoop, as long as its run is marked running.
  predicate AllBeat(s: State, steps: seq<Step>, n: nat)
    requires n <= |steps|
  {
    forall id :: id in s.tasks && Executing(s.tasks[id]) && IsStatus(s.db, s.tasks[id].job, Running) ==>
      Beats(s, steps, n, id)
  }

  // The document of a running executor carries that timestamp.
  predicate Stamped(s: State, steps: seq<Step>, n: nat)
    requires n <= |steps|
  {
    forall id :: id in s.tasks && Executing(s.tasks[id]) && IsStatus(s.db, s.tasks[id].job, Running) ==>
      LastBeat(steps, n, id) == Some(s.db.runs[s.tasks[id].job].updatedAt)
  }

  lemma StampedWorker(s: State, steps: seq<Step>, n: nat, id: TaskId, a: WorkerStep)
    requires n < |steps| && steps[n] == Worker(id, a) && WorkerEnabled(s, id, a)
    requires Leased(s) && Stamped(s, steps, n)
    ensures Stamped(ApplyWorker(s, id, a), steps, n + 1)
  {
    var s' := ApplyWorker(s, id, a);
    OnlyTaskWorker(s, id, a);
    forall k | k in s'.tasks && Executing(s'.tasks[k]) && IsStatus(s'.db, s'.tasks[k].job, Running)
      ensures LastBeat(steps, n + 1, k) == Some(s'.db.runs[s'.tasks[k].job].updatedAt)
    {
      if k == id {
        OwnStamp(s, steps, n, id, a);
      } else {
        OthersStamp(s, steps, n, id, a, k);
      }
    }
  }

  lemma OwnStamp(s: State, steps: seq<Step>, n: nat, id: TaskId, a: WorkerStep)
    requires n < |steps| && steps[n] == Worker(id, a) && WorkerEnabled(s, id, a) && Stamped(s, steps, n)
    ensures var s' := ApplyWorker(s, id, a);
            id in s'.tasks && Executing(s'.tasks[id]) && IsStatus(s'.db, s'.tasks[id].job, Running) ==>
              LastBeat(steps, n + 1, id) == Some(s'.db.runs[s'.tasks[id].job].updatedAt)
  {
  }

  // No other handler writes the document of a running executor.
  lemma OthersStamp(s: State, steps: seq<Step>, n: nat, id: TaskId, a: WorkerStep, k: TaskId)
    requires n < |steps| && steps[n] == Worker(id, a) && WorkerEnabled(s, id, a) && k != id
    requires Leased(s) && Stamped(s, steps, n) && k in s.tasks && Executing(s.tasks[k])
    ensures var s' := ApplyWorker(s, id, a); var j := s.tasks[k].job;
            IsStatus(s'.db, j, Running) ==> LastBeat(steps, n + 1, k) == Some(s'.db.runs[j].updatedAt)
  {
    var j := s.tasks[k].job;
    assert ExecutorKnown(s, s.tasks[k]);
    if s.tasks[id].job == j {
      assert !Executing(s.tasks[id]);
      assert ApplyWorker(s, id, a).db.runs == s.db.runs;
    }
  }

  lemma StampedStep(s: State, steps: seq<Step>, n: nat)
    requires n < |steps| && Enabled(s, steps[n]) && Leased(s) && Stamped(s, steps, n)
    ensures Stamped(Apply(s, steps[n]), steps, n + 1)
  {
    match steps[n]
    case Tick(now) =>
    case Api(a) => StampedApi(s, steps, n, a);
    case Broker(b) => assert ApplyBroker(s, b).db == s.db;
    case Worker(id, a) => StampedWorker(s, steps, n, id, a);
    case Reaping(r, p) => StampedReaper(s, steps, n, r, p);
  }

  lemma StampedApi(s: State, steps: seq<Step>, n: nat, a: ApiStep)
    requires n < |steps| && steps[n] == Api(a) && ApiEnabled(s, a) && Leased(s) && Stamped(s, steps, n)
    ensures Stamped(ApplyApi(s, a), steps, n + 1)
  {
  }

  lemma StampedReaper(s: State, steps: seq<Step>, n: nat, r: ReaperId, p: ReaperStep)
    requires n < |steps| && steps[n] == Reaping(r, p) && ReaperEnabled(s, r, p) && Leased(s) && Stamped(s, steps, n)
    ensures Stamped(ApplyReaper(s, r, p), steps, n + 1)
  {
  }

  // Up to state n every executor has beaten in time.
  ghost predicate Heartbeat(states: seq<State>, steps: seq<Step>, n: nat)
    requires n <= |steps| && n < |states|
  {
    forall m :: 0 <= m <= n ==> AllBeat(states[m], steps, m)
  }

  /** The heartbeat: numbering an event touches the run document. So if at every state the latest claim
      or number of each executor itself was stamped at most a lease ago, the documents are fresh, and a
      run has at most one executor. */
  lemma {:induction false} HeartbeatKeepsLease(states: seq<State>, steps: seq<Step>, n: nat)
    requires Behavior(states, steps) && n < |states| && Heartbeat(states, steps, n)
    ensures forall m :: 0 <= m <= n ==> Fresh(states[m])
    ensures Leased(states[n]) && Stamped(states[n], steps, n)
  {
    if n > 0 {
      var m := n - 1;
      HeartbeatKeepsLease(states, steps, m);
      assert Enabled(states[m], steps[m]);
      LeasedStep(states[m], steps[m]);
      StampedStep(states[m], steps, m);
    }
    StampedIsFresh(states[n], steps, n);
  }

  lemma StampedIsFresh(s: State, steps: seq<Step>, n: nat)
    requires n <= |steps| && Stamped(s, steps, n) && AllBeat(s, steps, n)
    ensures Fresh(s)
  {
    forall id | id in s.tasks && Executing(s.tasks[id]) && IsStatus(s.db, s.tasks[id].job, Running)
      ensures s.clock - s.db.runs[s.tasks[id].job].updatedAt <= s.leaseTtl
    {
      assert Beats(s, steps, n, id);
    }
  }

  // ---------- the ledger of claims and resets ----------

  // Successful claims minus successful resets of run j in the first n steps.
  function Ledger(states: seq<State>, steps: seq<Step>, j: Job, n: nat): int
    requires Behavior(states, steps) && n < |states|
  {
    if n == 0 then 0
    else
      Ledger(states, steps, j, n - 1)
      + (if Claims(states[n - 1], steps[n - 1], j) then 1 else 0)
      - (if Resets(states[n - 1], steps[n - 1], j) then 1 else 0)
  }

  // The ledger balances against the status.
  predicate Balanced(status: Option<Status>, ledger: int) {
    match status
    case None => ledger == 0
    case Some(Pending) => ledger == 0
    case Some(Running) => ledger == 1
    case Some(_) => ledger == 0 || ledger == 1
  }

  /** Over every history whatsoever, successful claims minus successful resets of a run is 1
      while it is running, 0 while it is pending, and 0 or 1 once it is terminal. */
  lemma {:induction false} ClaimsMatchResets(states: seq<State>, steps: seq<Step>, j: Job, n: nat)
    requires Behavior(states, steps) && n < |states|
    ensures Balanced(StatusOf(states[n], j), Ledger(states, steps, j, n))
  {
    if n > 0 {
      ClaimsMatchResets(states, steps, j, n - 1);
      StatusEdgeStep(states[n - 1], steps[n - 1], j);
    }
  }

  lemma TerminalStep(s: State, step: Step, j: Job)
    requires Enabled(s, step) && IsTerminal(StatusOf(s, j))
    ensures IsTerminal(StatusOf(Apply(s, step), j))
  {
    StatusEdgeStep(s, step, j);
  }

  /** {done, failed, cancelled} is never left, although finishRun and the cancel endpoint may
      overwrite one terminal status with another. */
  lemma {:induction false} TerminalForever(states: seq<State>, steps: seq<Step>, j: Job, m: nat, n: nat)
    requires Path(states, steps) && m <= n < |states| && IsTerminal(StatusOf(states[m], j))
    ensures IsTerminal(StatusOf(states[n], j))
  {
    if m < n {
      TerminalForever(states, steps, j, m, n - 1);
      TerminalStep(states[n - 1], steps[n - 1], j);
    }
  }
}
