/** Accounting of event sequence numbers: emitEvent takes a number, then inserts. */
module Sequence {
  import opened Store
  import opened Protocol
  import Lease

  predicate Inflight(t: Task) {
    t.place.At? && t.place.pc.Looping? && t.place.pc.inflight.Some?
  }

  function NumberOf(t: Task): nat
    requires Inflight(t)
  {
    t.place.pc.inflight.value
  }

  function LastSeq(s: State, j: Job): nat {
    if j in s.db.runs then s.db.runs[j].lastEventSeq else 0
  }

  // ---------- what a handler's step does to numbers and log ----------

  datatype Emission = Quiet | Took(kept: bool) | Stored

  function EmissionOf(s: State, id: TaskId, step: WorkerStep): Emission
    requires id in s.tasks
  {
    match step
    case Allocate(at) => Took(true)
    case AllocateThrows(at) => if s.tasks[id].job in s.db.runs then Took(false) else Quiet
    case Insert => Stored
    case _ => Quiet
  }

  ghost predicate Emits(s: State, s': State, id: TaskId, e: Emission) {
    && id in s.tasks && OnlyTask(s, s', id)
    && (e.Stored? ==>
          Inflight(s.tasks[id]) && s'.db.log == s.db.log + [Event(s.tasks[id].job, NumberOf(s.tasks[id]))])
    && (!e.Stored? ==> s'.db.log == s.db.log)
    && (e.Took? ==> !Inflight(s.tasks[id]))
    && (forall j :: LastSeq(s', j) == if e.Took? && j == s.tasks[id].job then LastSeq(s, j) + 1 else LastSeq(s, j))
    && (id in s'.tasks && Inflight(s'.tasks[id]) <==> e == Took(true))
    && (e == Took(true) ==> NumberOf(s'.tasks[id]) == LastSeq(s', s.tasks[id].job))
  }

  lemma WorkerEmits(s: State, id: TaskId, step: WorkerStep)
    requires WorkerEnabled(s, id, step)
    ensures Emits(s, ApplyWorker(s, id, step), id, EmissionOf(s, id, step))
  {
    OnlyTaskWorker(s, id, step);
  }

  // ---------- every history: numbers are unique ----------

  predicate Numbered(s: State) {
    LogNumbered(s) && InflightNumbered(s)
  }

  predicate LogNumbered(s: State) {
    && (forall k :: 0 <= k < |s.db.log| ==> 1 <= s.db.log[k].seqNo <= LastSeq(s, s.db.log[k].job))
    && (forall p, q :: 0 <= p < q < |s.db.log| ==> s.db.log[p] != s.db.log[q])
  }

  predicate InflightNumbered(s: State) {
    && (forall id :: id in s.tasks && Inflight(s.tasks[id]) ==>
          1 <= NumberOf(s.tasks[id]) <= LastSeq(s, s.tasks[id].job)
          && !SeqTaken(s.db, s.tasks[id].job, NumberOf(s.tasks[id])))
    && (forall i, k ::
          i in s.tasks && k in s.tasks && i != k && Inflight(s.tasks[i]) && Inflight(s.tasks[k])
          && s.tasks[i].job == s.tasks[k].job
          ==> NumberOf(s.tasks[i]) != NumberOf(s.tasks[k]))
  }

  lemma NumberedEmits(s: State, s': State, id: TaskId, e: Emission)
    requires Numbered(s) && Emits(s, s', id, e)
    ensures Numbered(s')
  {
    assert LogNumbered(s');
  }

  lemma NumberedReaper(s: State, r: ReaperId, step: ReaperStep)
    requires Numbered(s) && ReaperEnabled(s, r, step)
    ensures Numbered(ApplyReaper(s, r, step))
  {
  }

  lemma NumberedApi(s: State, step: ApiStep)
    requires Numbered(s) && ApiEnabled(s, step)
    ensures Numbered(ApplyApi(s, step))
  {
  }

  lemma NumberedBroker(s: State, step: BrokerStep)
    requires Numbered(s) && BrokerEnabled(s, step)
    ensures Numbered(ApplyBroker(s, step))
  {
  }

  lemma NumberedStep(s: State, step: Step)
    requires Numbered(s) && Enabled(s, step)
    ensures Numbered(Apply(s, step))
  {
    match step
    case Tick(now) =>
    case Api(a) => NumberedApi(s, a);
    case Broker(b) => NumberedBroker(s, b);
    case Worker(id, a) => WorkerEmits(s, id, a); NumberedEmits(s, Apply(s, step), id, EmissionOf(s, id, a));
    case Reaping(r, p) => NumberedReaper(s, r, p);
  }

  /** With no hypothesis: any number of concurrent emitters of one run, crashes included, never
      collide. Stored numbers are distinct, numbers in flight are distinct and unused, and all of
      them lie in 1..lastEventSeq; so the insert into the unique (runId, seq) index succeeds. */
  lemma NumbersNeverCollide(states: seq<State>, steps: seq<Step>, n: nat, id: TaskId)
    requires Behavior(states, steps) && n < |states|
    ensures Numbered(states[n])
    ensures id in states[n].tasks && Inflight(states[n].tasks[id]) ==> WorkerEnabled(states[n], id, WorkerStep.Insert)
  {
    AlwaysNumbered(states, steps, n);
  }

  lemma {:induction false} AlwaysNumbered(states: seq<State>, steps: seq<Step>, n: nat)
    requires Behavior(states, steps) && n < |states|
    ensures Numbered(states[n])
  {
    if n > 0 {
      AlwaysNumbered(states, steps, n - 1);
      NumberedStep(states[n - 1], steps[n - 1]);
    }
  }

  // ---------- what becomes of every number ----------

  predicate IsInflight(s: State, j: Job, n: nat) {
    exists id :: id in s.tasks && s.tasks[id].job == j && Inflight(s.tasks[id]) && NumberOf(s.tasks[id]) == n
  }

  // Taken, but neither stored nor about to be.
  predicate Missing(s: State, j: Job, n: nat) {
    1 <= n <= LastSeq(s, j) && !SeqTaken(s.db, j, n) && !IsInflight(s, j, n)
  }

  // The faults that lose a number of run j.
  predicate Loses(s: State, step: Step, j: Job, n: nat)
    requires Enabled(s, step)
  {
    match step
    case Broker(Crash(w)) =>
      exists id :: id in s.tasks && s.tasks[id].job == j && Inflight(s.tasks[id]) && s.tasks[id].place.worker == w
                   && NumberOf(s.tasks[id]) == n
    case Worker(id, InsertThrows) => s.tasks[id].job == j && NumberOf(s.tasks[id]) == n
    case Worker(id, AllocateThrows(at)) => s.tasks[id].job == j && j in s.db.runs && n == LastSeq(s, j) + 1
    case _ => false
  }

  // The number a handler's step loses, if any.
  predicate EmissionLoses(s: State, s': State, id: TaskId, e: Emission, j: Job, n: nat)
    requires id in s.tasks
  {
    && s.tasks[id].job == j
    && ((e.Quiet? && Inflight(s.tasks[id]) && NumberOf(s.tasks[id]) == n)
        || (e == Took(false) && n == LastSeq(s, j) + 1))
  }

  lemma MissingEmits(s: State, s': State, id: TaskId, e: Emission, j: Job, n: nat)
    requires Numbered(s) && Emits(s, s', id, e)
    ensures Missing(s', j, n) <==> Missing(s, j, n) || EmissionLoses(s, s', id, e, j, n)
  {
    var mine := s.tasks[id].job == j && Inflight(s.tasks[id]) && NumberOf(s.tasks[id]) == n;
    var taken := s.tasks[id].job == j && e == Took(true) && n == LastSeq(s, j) + 1;
    assert IsInflight(s', j, n) <==> taken || (IsInflight(s, j, n) && !mine) by {
      if IsInflight(s, j, n) && !mine {
        var k :| k in s.tasks && s.tasks[k].job == j && Inflight(s.tasks[k]) && NumberOf(s.tasks[k]) == n;
        assert k in s'.tasks && s'.tasks[k] == s.tasks[k];
      }
      if IsInflight(s', j, n) && !taken {
        var k :| k in s'.tasks && s'.tasks[k].job == j && Inflight(s'.tasks[k]) && NumberOf(s'.tasks[k]) == n;
        assert k in s.tasks && s.tasks[k] == s'.tasks[k];
      }
    }
    assert SeqTaken(s'.db, j, n) <==> SeqTaken(s.db, j, n) || (e.Stored? && mine);
  }

  lemma MissingWorker(s: State, id: TaskId, step: WorkerStep, j: Job, n: nat)
    requires Numbered(s) && WorkerEnabled(s, id, step)
    ensures Missing(ApplyWorker(s, id, step), j, n) <==> Missing(s, j, n) || Loses(s, Worker(id, step), j, n)
  {
    WorkerEmits(s, id, step);
    MissingEmits(s, ApplyWorker(s, id, step), id, EmissionOf(s, id, step), j, n);
  }

  lemma MissingBroker(s: State, step: BrokerStep, j: Job, n: nat)
    requires Numbered(s) && BrokerEnabled(s, step)
    ensures Missing(ApplyBroker(s, step), j, n) <==> Missing(s, j, n) || Loses(s, Broker(step), j, n)
  {
    var s' := ApplyBroker(s, step);
    if IsInflight(s, j, n) {
      var k :| k in s.tasks && s.tasks[k].job == j && Inflight(s.tasks[k]) && NumberOf(s.tasks[k]) == n;
      assert !Loses(s, Broker(step), j, n) ==> k in s'.tasks && s'.tasks[k] == s.tasks[k];
    }
    if IsInflight(s', j, n) {
      var k :| k in s'.tasks && s'.tasks[k].job == j && Inflight(s'.tasks[k]) && NumberOf(s'.tasks[k]) == n;
      assert k in s.tasks && s.tasks[k] == s'.tasks[k];
      assert forall i :: i in s.tasks && i != k && s.tasks[i].job == j && Inflight(s.tasks[i]) ==> NumberOf(s.tasks[i]) != n;
    }
  }

  lemma MissingApi(s: State, step: ApiStep, j: Job, n: nat)
    requires Registered(s) && ApiEnabled(s, step)
    ensures Missing(ApplyApi(s, step), j, n) <==> Missing(s, j, n)
  {
    var s' := ApplyApi(s, step);
    assert forall i :: LastSeq(s', i) == LastSeq(s, i);
    InflightUnchanged(s, s', j, n);
  }

  lemma MissingReaper(s: State, r: ReaperId, step: ReaperStep, j: Job, n: nat)
    requires ReaperEnabled(s, r, step)
    ensures Missing(ApplyReaper(s, r, step), j, n) <==> Missing(s, j, n)
  {
    var s' := ApplyReaper(s, r, step);
    assert LastSeq(s', j) == LastSeq(s, j);
    InflightUnchanged(s, s', j, n);
  }

  lemma InflightUnchanged(s: State, s': State, j: Job, n: nat)
    requires forall id :: id in s.tasks ==> id in s'.tasks && s'.tasks[id] == s.tasks[id]
    requires forall id :: id in s'.tasks && id !in s.tasks ==> s'.tasks[id].place.Ready?
    ensures IsInflight(s', j, n) <==> IsInflight(s, j, n)
  {
    if IsInflight(s, j, n) {
      var k :| k in s.tasks && s.tasks[k].job == j && Inflight(s.tasks[k]) && NumberOf(s.tasks[k]) == n;
      assert k in s'.tasks && s'.tasks[k] == s.tasks[k];
    }
  }

  /** Each number of 1..lastEventSeq is stored, in flight or missing; a number goes missing
      exactly when a fault loses it, and is then never stored nor taken again. */
  lemma MissingStep(s: State, step: Step, j: Job, n: nat)
    requires Registered(s) && Numbered(s) && Enabled(s, step)
    ensures Missing(Apply(s, step), j, n) <==> Missing(s, j, n) || Loses(s, step, j, n)
  {
    match step
    case Tick(now) => InflightUnchanged(s, Apply(s, step), j, n);
    case Api(a) => MissingApi(s, a, j, n);
    case Broker(b) => MissingBroker(s, b, j, n);
    case Worker(id, a) => MissingWorker(s, id, a, j, n);
    case Reaping(r, p) => MissingReaper(s, r, p, j, n);
  }

  /** Over every history: number n of run j is missing at the end if and only if some step of
      the history lost it. In particular a history without such faults has no gaps. */
  lemma {:induction false} MissingIffLost(states: seq<State>, steps: seq<Step>, j: Job, n: nat, m: nat)
    requires Behavior(states, steps) && m < |states|
    ensures Missing(states[m], j, n) <==> exists i :: 0 <= i < m && Loses(states[i], steps[i], j, n)
  {
    if m > 0 {
      MissingIffLost(states, steps, j, n, m - 1);
      AlwaysRegistered(states, steps, m - 1);
      AlwaysNumbered(states, steps, m - 1);
      MissingStep(states[m - 1], steps[m - 1], j, n);
    }
  }

  // ---------- one emitter: commit order is sequence order ----------

  // The sequence numbers of run j, in commit order.
  function Numbers(log: seq<Event>, j: Job): seq<nat> {
    if log == [] then []
    else
      var last := log[|log| - 1];
      Numbers(log[..|log| - 1], j) + if last.job == j then [last.seqNo] else []
  }

  predicate Ascending(ns: seq<nat>) {
    forall p, q :: 0 <= p < q < |ns| ==> ns[p] < ns[q]
  }

  predicate AllBelow(ns: seq<nat>, n: nat) {
    forall p :: 0 <= p < |ns| ==> ns[p] < n
  }

  predicate InOrder(s: State, j: Job) {
    && Ascending(Numbers(s.db.log, j))
    && AllBelow(Numbers(s.db.log, j), LastSeq(s, j) + 1)
    && (forall id :: id in s.tasks && s.tasks[id].job == j && Inflight(s.tasks[id]) ==>
          NumberOf(s.tasks[id]) <= LastSeq(s, j) && AllBelow(Numbers(s.db.log, j), NumberOf(s.tasks[id])))
  }

  lemma InOrderEmits(s: State, s': State, id: TaskId, e: Emission, j: Job)
    requires Lease.ExecutorsUnique(s) && InOrder(s, j) && Emits(s, s', id, e)
    requires e != Quiet ==> Executing(s.tasks[id])
    ensures InOrder(s', j)
  {
    if e.Stored? {
      assert s'.db.log[..|s'.db.log| - 1] == s.db.log;
    } else {
      assert Numbers(s'.db.log, j) == Numbers(s.db.log, j) && LastSeq(s, j) <= LastSeq(s', j);
    }
  }

  lemma InOrderWorker(s: State, id: TaskId, step: WorkerStep, j: Job)
    requires Lease.ExecutorsUnique(s) && InOrder(s, j) && WorkerEnabled(s, id, step)
    ensures InOrder(ApplyWorker(s, id, step), j)
  {
    WorkerEmits(s, id, step);
    InOrderEmits(s, ApplyWorker(s, id, step), id, EmissionOf(s, id, step), j);
  }

  lemma InOrderStep(s: State, step: Step, j: Job)
    requires Registered(s) && Lease.Leased(s) && InOrder(s, j) && Enabled(s, step)
    ensures InOrder(Apply(s, step), j)
  {
    match step
    case Tick(now) => InOrderElsewhere(s, Apply(s, step), j);
    case Api(a) => InOrderApi(s, a, j);
    case Broker(b) => InOrderBroker(s, b, j);
    case Worker(id, a) => InOrderWorker(s, id, a, j);
    case Reaping(r, p) => InOrderReaper(s, r, p, j);
  }

  lemma InOrderApi(s: State, step: ApiStep, j: Job)
    requires Registered(s) && InOrder(s, j) && ApiEnabled(s, step)
    ensures InOrder(ApplyApi(s, step), j)
  {
    InOrderElsewhere(s, ApplyApi(s, step), j);
  }

  lemma InOrderBroker(s: State, step: BrokerStep, j: Job)
    requires InOrder(s, j) && BrokerEnabled(s, step)
    ensures InOrder(ApplyBroker(s, step), j)
  {
    InOrderElsewhere(s, ApplyBroker(s, step), j);
  }

  lemma InOrderReaper(s: State, r: ReaperId, step: ReaperStep, j: Job)
    requires InOrder(s, j) && ReaperEnabled(s, r, step)
    ensures InOrder(ApplyReaper(s, r, step), j)
  {
    InOrderElsewhere(s, ApplyReaper(s, r, step), j);
  }

  lemma InOrderElsewhere(s: State, s': State, j: Job)
    requires InOrder(s, j)
    requires s'.db.log == s.db.log && LastSeq(s', j) == LastSeq(s, j)
    requires forall id :: id in s'.tasks && Inflight(s'.tasks[id]) ==> id in s.tasks && s'.tasks[id] == s.tasks[id]
    ensures InOrder(s', j)
  {
  }

  /** While the lease hypothesis holds, each run's events are committed in strictly increasing
      sequence order, through crashes, takeovers and failed inserts. */
  lemma {:induction false} CommitOrderIsSequenceOrder(states: seq<State>, steps: seq<Step>, n: nat, j: Job)
    requires Behavior(states, steps) && n < |states|
    requires forall m :: 0 <= m < n ==> Lease.Fresh(states[m])
    ensures InOrder(states[n], j)
  {
    if n > 0 {
      CommitOrderIsSequenceOrder(states, steps, n - 1, j);
      AlwaysRegistered(states, steps, n - 1);
      Lease.AlwaysLeased(states, steps, n - 1);
      InOrderStep(states[n - 1], steps[n - 1], j);
    }
  }

  // ---------- no fault: no gap ----------

  lemma {:induction false} StoredIsNumbered(log: seq<Event>, j: Job, n: nat)
    ensures Event(j, n) in log <==> n in Numbers(log, j)
  {
    if log != [] {
      var front, last := log[..|log| - 1], log[|log| - 1];
      StoredIsNumbered(front, j, n);
      assert log == front + [last];
    }
  }

  // Ascending positive numbers that skip nothing are 1, 2, 3, ...
  lemma {:induction false} NothingSkipped(ns: seq<nat>, p: nat)
    requires Ascending(ns) && p < |ns|
    requires forall q :: 0 <= q < |ns| ==> 1 <= ns[q]
    requires forall v :: 1 <= v < ns[p] ==> v in ns
    ensures ns[p] == p + 1
  {
    if p > 0 {
      NothingSkipped(ns, p - 1);
      assert p + 1 < ns[p] ==> p + 1 in ns;
    } else {
      assert 1 < ns[0] ==> 1 in ns;
    }
  }

  /** With one emitter at a time (the lease hypothesis) and no fault that loses a number of j, the
      committed numbers of j are exactly 1, 2, 3, ... in that order, and lastEventSeq is the last
      one, or one more while an insert is still in flight. */
  lemma GapFree(states: seq<State>, steps: seq<Step>, n: nat, j: Job)
    requires Behavior(states, steps) && n < |states|
    requires forall m :: 0 <= m < n ==> Lease.Fresh(states[m])
    requires forall m, u: nat :: 0 <= m < n ==> !Loses(states[m], steps[m], j, u)
    ensures var ns := Numbers(states[n].db.log, j);
            && (forall p :: 0 <= p < |ns| ==> ns[p] == p + 1)
            && (LastSeq(states[n], j) == |ns|
                || (LastSeq(states[n], j) == |ns| + 1 && IsInflight(states[n], j, |ns| + 1)))
  {
    var s := states[n];
    var ns := Numbers(s.db.log, j);
    CommitOrderIsSequenceOrder(states, steps, n, j);
    AlwaysNumbered(states, steps, n);
    forall v: nat | 1 <= v <= LastSeq(s, j)
      ensures v in ns || IsInflight(s, j, v)
    {
      MissingIffLost(states, steps, j, v, n);
      StoredIsNumbered(s.db.log, j, v);
    }
    forall p | 0 <= p < |ns|
      ensures 1 <= ns[p] && ns[p] == p + 1
    {
      forall q | 0 <= q < |ns| ensures 1 <= ns[q] { StoredIsNumbered(s.db.log, j, ns[q]); }
      NothingSkipped(ns, p);
    }
    if LastSeq(s, j) > |ns| {
      Lease.AlwaysLeased(states, steps, n);
      var a, b := |ns| + 1, LastSeq(s, j);
      assert a !in ns && b !in ns;
      var i :| i in s.tasks && s.tasks[i].job == j && Inflight(s.tasks[i]) && NumberOf(s.tasks[i]) == a;
      var k :| k in s.tasks && s.tasks[k].job == j && Inflight(s.tasks[k]) && NumberOf(s.tasks[k]) == b;
      assert Executing(s.tasks[i]) && Executing(s.tasks[k]);
    } else if |ns| > 0 {
      assert ns[|ns| - 1] <= LastSeq(s, j);
    }
  }
}
