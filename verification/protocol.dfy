/** The run protocol as a step machine: API, workers, reapers, the broker and an
    adversary, interleaving at every await. */
module Protocol {
  import opened Store

  type TaskId = int
  type ReaperId = int

  // Where one consumed message is in the worker's message handler.
  datatype Pc =
    | Start                          // delivered; the thread lock is not yet requested
    | Refused                        // another run holds the thread
    | Acquired                       // lock obtained; the claim is next
    | Unclaimed                      // the claim found the run not pending
    | Looping(inflight: Option<nat>) // inside runLoop; perhaps between the two halves of emitEvent
    | Returning(status: Status)      // runLoop wrote its final status
    | Nacking                        // an exception reached the handler
    | Releasing(acked: bool)         // in the finally block, lock not yet released; acked: no copy was put back

  // A message copy, or a handler that outlives its copy.
  datatype Place = Ready | Timer(worker: WorkerId) | At(worker: WorkerId, pc: Pc)

  datatype Task = Task(job: Job, place: Place)

  datatype Reaper =
    | Idle
    | Scanned(cutoff: int, todo: set<Job>)
    | Reset(job: Job, cutoff: int, todo: set<Job>)    // run reset; its lock not yet deleted
    | Unlocked(job: Job, cutoff: int, todo: set<Job>) // lock deleted; job not yet republished

  datatype State = State(
    clock: int,
    leaseTtl: nat,
    db: Db,
    unpublished: set<Job>,    // created by POST /runs, message not (yet) published
    cancels: multiset<Job>,   // cancel requests between their read and their write
    tasks: map<TaskId, Task>,
    reapers: map<ReaperId, Reaper>,
    returned: set<TaskId>)    // messages the broker took back while their handler lives on

  // Timestamps `at` are read from the process clock before the operation is sent.
  datatype ApiStep =
    | Create(job: Job, at: int)
    | Publish(job: Job, copy: TaskId)
    | CancelRead(job: Job)
    | CancelWrite(job: Job, at: int)

  datatype BrokerStep =
    | Deliver(id: TaskId, worker: WorkerId)
    | TimerFires(id: TaskId)
    | Duplicate(id: TaskId, copy: TaskId)
    | Redeliver(id: TaskId, copy: TaskId)      // the connection dropped under a live handler
    | Crash(worker: WorkerId)

  datatype WorkerStep =
    | TryAcquire
    | Requeue                                    // thread busy: ack, and arm the delayed republish; outside
                                                 // the try, so after a redelivery only the crash is left
    | Claim(at: int)
    | ClaimThrows(applied: bool, at: int)        // with or without its effect
    | DropDuplicate                              // run not pending: ack
    | Allocate(at: int)
    | AllocateThrows(at: int)                    // number taken, answer lost
    | Insert
    | InsertThrows
    | Finish(status: Status, at: int, ok: bool)  // ok: the answer arrived and runLoop returns
    | LoopThrows
    | Settle(copy: TaskId)                       // ack when done; otherwise nack, which makes a ready copy
    | SettleFails                                // after a redelivery ack and nack throw, and leave no copy
    | Release
    | ReleaseFails

  datatype ReaperStep =
    | Scan(at: int)
    | Reap(job: Job, at: int)
    | Unlock
    | Republish(copy: TaskId)
    | Return
    | Die

  datatype Step =
    | Tick(now: int)
    | Api(api: ApiStep)
    | Broker(broker: BrokerStep)
    | Worker(id: TaskId, act: WorkerStep)
    | Reaping(reaper: ReaperId, phase: ReaperStep)

  // ---------- vocabulary ----------

  predicate HoldsCopy(t: Task) {
    t.place.Ready? || t.place.Timer? || (t.place.At? && !t.place.pc.Releasing?)
  }

  // The handler is inside runLoop.
  predicate Executing(t: Task) {
    t.place.At? && (t.place.pc.Looping? || t.place.pc.Returning?)
  }

  predicate IsAt(s: State, id: TaskId) {
    id in s.tasks && s.tasks[id].place.At?
  }

  predicate Holding(r: Reaper, j: Job) {
    (r.Reset? || r.Unlocked?) && r.job == j
  }

  predicate LockNames(s: State, j: Job) {
    j.threadId in s.db.locks && s.db.locks[j.threadId] == j
  }

  function Move(s: State, id: TaskId, p: Place): State
    requires id in s.tasks
  {
    s.(tasks := s.tasks[id := s.tasks[id].(place := p)])
  }

  function Goto(s: State, id: TaskId, pc: Pc): State
    requires IsAt(s, id)
  {
    Move(s, id, s.tasks[id].place.(pc := pc))
  }

  function AddCopy(s: State, copy: TaskId, j: Job): State {
    s.(tasks := s.tasks[copy := Task(j, Ready)])
  }

  // No message has, or had, this id.
  predicate Unused(s: State, copy: TaskId) {
    copy !in s.tasks && copy !in s.returned
  }

  lemma UnusedCopy(s: State) returns (copy: TaskId)
    ensures Unused(s, copy)
  {
    copy := Above(s.tasks.Keys + s.returned);
  }

  lemma Above(used: set<int>) returns (bound: int)
    ensures forall x :: x in used ==> x < bound
  {
    bound := 0;
    if x :| x in used {
      var b := Above(used - {x});
      bound := if x < b then b else x + 1;
      assert forall y :: y in used ==> y == x || y in used - {x};
    }
  }

  // Ready messages and other workers' tasks survive a crash of w; unacked copies
  // return to the queue; armed timers and handlers without a copy vanish.
  predicate Survives(s: State, id: TaskId, w: WorkerId)
    requires id in s.tasks
  {
    var p := s.tasks[id].place;
    p.Ready? || p.worker != w || (p.At? && !p.pc.Releasing? && id !in s.returned)
  }

  function AfterCrash(t: Task, w: WorkerId): Task {
    if t.place.At? && t.place.worker == w then t.(place := Ready) else t
  }

  function StaleRuns(db: Db, cutoff: int): set<Job> {
    set j | j in db.runs && Stale(db, j, cutoff)
  }

  // ---------- API ----------

  predicate ApiEnabled(s: State, step: ApiStep) {
    match step
    case Create(j, at) => j !in s.db.runs && at <= s.clock
    case Publish(j, copy) => j in s.unpublished && Unused(s, copy)
    case CancelRead(j) => j in s.db.runs && !s.db.runs[j].status.Terminal()
    case CancelWrite(j, at) => j in s.cancels && at <= s.clock
  }

  function ApplyApi(s: State, step: ApiStep): State
    requires ApiEnabled(s, step)
  {
    match step
    case Create(j, at) => s.(db := CreateRun(s.db, j, at), unpublished := s.unpublished + {j})
    case Publish(j, copy) => AddCopy(s, copy, j).(unpublished := s.unpublished - {j})
    case CancelRead(j) => s.(cancels := s.cancels + multiset{j})
    case CancelWrite(j, at) => s.(cancels := s.cancels - multiset{j}, db := SetStatus(s.db, j, Cancelled, at))
  }

  // ---------- broker, and the faults it makes visible ----------

  predicate BrokerEnabled(s: State, step: BrokerStep) {
    match step
    case Deliver(id, w) => id in s.tasks && s.tasks[id].place.Ready?
    case TimerFires(id) => id in s.tasks && s.tasks[id].place.Timer?
    case Duplicate(id, copy) => id in s.tasks && HoldsCopy(s.tasks[id]) && id !in s.returned && Unused(s, copy)
    case Redeliver(id, copy) => IsAt(s, id) && HoldsCopy(s.tasks[id]) && id !in s.returned && Unused(s, copy)
    case Crash(w) => true
  }

  function ApplyBroker(s: State, step: BrokerStep): State
    requires BrokerEnabled(s, step)
  {
    match step
    case Deliver(id, w) => Move(s, id, At(w, Start))
    case TimerFires(id) => Move(s, id, Ready)
    case Duplicate(id, copy) => AddCopy(s, copy, s.tasks[id].job)
    case Redeliver(id, copy) => AddCopy(s, copy, s.tasks[id].job).(returned := s.returned + {id})
    case Crash(w) =>
      s.(tasks := map id | id in s.tasks && Survives(s, id, w) :: AfterCrash(s.tasks[id], w))
  }

  // ---------- the worker's message handler ----------

  predicate WorkerEnabled(s: State, id: TaskId, step: WorkerStep) {
    IsAt(s, id) &&
    var pc := s.tasks[id].place.pc;
    match step
    case TryAcquire => pc.Start?
    case Requeue => pc.Refused? && id !in s.returned
    case Claim(at) => pc.Acquired? && at <= s.clock
    case ClaimThrows(applied, at) => pc.Acquired? && at <= s.clock
    case DropDuplicate => pc.Unclaimed?
    case Allocate(at) => pc == Looping(None) && s.tasks[id].job in s.db.runs && at <= s.clock
    case AllocateThrows(at) => pc == Looping(None) && at <= s.clock
    case Insert => pc.Looping? && pc.inflight.Some? && !SeqTaken(s.db, s.tasks[id].job, pc.inflight.value)
    case InsertThrows => pc.Looping? && pc.inflight.Some?
    case Finish(status, at, ok) => pc == Looping(None) && status.Terminal() && at <= s.clock
    case LoopThrows => pc == Looping(None)
    case Settle(copy) => (pc.Returning? || pc.Nacking?) && id !in s.returned && Unused(s, copy)
    case SettleFails => (pc.Returning? || pc.Nacking?) && id in s.returned
    case Release => pc.Releasing?
    case ReleaseFails => pc.Releasing?
  }

  function ApplyWorker(s: State, id: TaskId, step: WorkerStep): State
    requires WorkerEnabled(s, id, step)
  {
    var j, pc, w := s.tasks[id].job, s.tasks[id].place.pc, s.tasks[id].place.worker;
    match step
    case TryAcquire =>
      Goto(s, id, if CanAcquire(s.db, j) then Acquired else Refused).(db := AcquireThread(s.db, j))
    case Requeue => Move(s, id, Timer(w))
    case Claim(at) =>
      Goto(s, id, if IsStatus(s.db, j, Pending) then Looping(None) else Unclaimed).(db := ClaimRun(s.db, j, w, at))
    case ClaimThrows(applied, at) =>
      Goto(s, id, Nacking).(db := if applied then ClaimRun(s.db, j, w, at) else s.db)
    case DropDuplicate => Goto(s, id, Releasing(true))
    case Allocate(at) =>
      Goto(s, id, Looping(Some(s.db.runs[j].lastEventSeq + 1))).(db := AllocateSeq(s.db, j, at))
    case AllocateThrows(at) => s.(db := AllocateSeq(s.db, j, at))
    case Insert => Goto(s, id, Looping(None)).(db := InsertEvent(s.db, j, pc.inflight.value))
    case InsertThrows => Goto(s, id, Looping(None))
    case Finish(status, at, ok) =>
      Goto(s, id, if ok then Returning(status) else Looping(None)).(db := SetStatus(s.db, j, status, at))
    case LoopThrows => Goto(s, id, Nacking)
    case Settle(copy) =>
      if pc == Returning(Done)
      then Goto(s, id, Releasing(true))
      else AddCopy(Goto(s, id, Releasing(false)), copy, j)
    case SettleFails => Goto(s, id, Releasing(true))
    case Release => s.(db := ReleaseThread(s.db, j), tasks := s.tasks - {id})
    case ReleaseFails => s.(tasks := s.tasks - {id})
  }

  // ---------- reaper ----------

  function ReaperOf(s: State, r: ReaperId): Reaper {
    if r in s.reapers then s.reapers[r] else Idle
  }

  predicate ReaperEnabled(s: State, r: ReaperId, step: ReaperStep) {
    var me := ReaperOf(s, r);
    match step
    case Scan(at) => me.Idle? && at <= s.clock
    case Reap(j, at) => me.Scanned? && j in me.todo && at <= s.clock
    case Unlock => me.Reset?
    case Republish(copy) => me.Unlocked? && Unused(s, copy)
    case Return => me.Scanned? && me.todo == {}
    case Die => true
  }

  function ApplyReaper(s: State, r: ReaperId, step: ReaperStep): State
    requires ReaperEnabled(s, r, step)
  {
    var me := ReaperOf(s, r);
    match step
    case Scan(at) =>
      var cutoff := at - s.leaseTtl;
      s.(reapers := s.reapers[r := Scanned(cutoff, StaleRuns(s.db, cutoff))])
    case Reap(j, at) =>
      var todo := me.todo - {j};
      var next := if Stale(s.db, j, me.cutoff) then Reset(j, me.cutoff, todo) else Scanned(me.cutoff, todo);
      s.(reapers := s.reapers[r := next], db := ResetStale(s.db, j, me.cutoff, at))
    case Unlock =>
      s.(reapers := s.reapers[r := Unlocked(me.job, me.cutoff, me.todo)], db := ReleaseThread(s.db, me.job))
    case Republish(copy) =>
      AddCopy(s, copy, me.job).(reapers := s.reapers[r := Scanned(me.cutoff, me.todo)])
    case Return => s.(reapers := s.reapers[r := Idle])
    case Die => s.(reapers := s.reapers[r := Idle])
  }

  // ---------- the whole system ----------

  predicate Enabled(s: State, step: Step) {
    match step
    case Tick(now) => s.clock <= now
    case Api(a) => ApiEnabled(s, a)
    case Broker(b) => BrokerEnabled(s, b)
    case Worker(id, a) => WorkerEnabled(s, id, a)
    case Reaping(r, p) => ReaperEnabled(s, r, p)
  }

  function Apply(s: State, step: Step): State
    requires Enabled(s, step)
  {
    match step
    case Tick(now) => s.(clock := now)
    case Api(a) => ApplyApi(s, a)
    case Broker(b) => ApplyBroker(s, b)
    case Worker(id, a) => ApplyWorker(s, id, a)
    case Reaping(r, p) => ApplyReaper(s, r, p)
  }

  // ---------- runs of the system ----------

  predicate Init(s: State) {
    && s.db == Db(map[], map[], [])
    && s.unpublished == {} && s.cancels == multiset{}
    && s.tasks == map[] && s.reapers == map[] && s.returned == {}
  }

  // states[n+1] is states[n] after steps[n].
  predicate Path(states: seq<State>, steps: seq<Step>) {
    && |states| == |steps| + 1
    && forall n {:trigger Enabled(states[n], steps[n])} ::
         0 <= n < |steps| ==> Enabled(states[n], steps[n]) && states[n + 1] == Apply(states[n], steps[n])
  }

  predicate Behavior(states: seq<State>, steps: seq<Step>) {
    Path(states, steps) && Init(states[0])
  }

  lemma PathExtends(states: seq<State>, steps: seq<Step>, step: Step)
    requires Path(states, steps) && Enabled(states[|steps|], step)
    ensures Path(states + [Apply(states[|steps|], step)], steps + [step])
  {
    var states', steps' := states + [Apply(states[|steps|], step)], steps + [step];
    forall n | 0 <= n < |steps'|
      ensures Enabled(states'[n], steps'[n]) && states'[n + 1] == Apply(states'[n], steps'[n])
    {
      if n < |steps| { assert Enabled(states[n], steps[n]); }
    }
  }

  lemma PathPrepends(s: State, step: Step, states: seq<State>, steps: seq<Step>)
    requires Path(states, steps) && Enabled(s, step) && states[0] == Apply(s, step)
    ensures Path([s] + states, [step] + steps)
  {
    var states', steps' := [s] + states, [step] + steps;
    forall n | 0 <= n < |steps'|
      ensures Enabled(states'[n], steps'[n]) && states'[n + 1] == Apply(states'[n], steps'[n])
    {
      if n > 0 {
        assert Enabled(states[n - 1], steps[n - 1]);
        assert states'[n] == states[n - 1] && steps'[n] == steps[n - 1] && states'[n + 1] == states[n];
      }
    }
  }

  // ---------- facts that hold with no hypothesis at all ----------

  // Every job mentioned anywhere has a run document.
  predicate Registered(s: State) {
    && s.unpublished <= s.db.runs.Keys
    && (forall id :: id in s.tasks ==> s.tasks[id].job in s.db.runs)
    && (forall r :: r in s.reapers ==> ReaperRegistered(s, s.reapers[r]))
    && (forall k :: 0 <= k < |s.db.log| ==> s.db.log[k].job in s.db.runs)
  }

  predicate ReaperRegistered(s: State, r: Reaper) {
    r.Reset? || r.Unlocked? ==> r.job in s.db.runs
  }

  lemma RegisteredWorker(s: State, id: TaskId, step: WorkerStep)
    requires Registered(s) && WorkerEnabled(s, id, step)
    ensures Registered(ApplyWorker(s, id, step))
  {
  }

  lemma RegisteredReaper(s: State, r: ReaperId, step: ReaperStep)
    requires Registered(s) && ReaperEnabled(s, r, step)
    ensures Registered(ApplyReaper(s, r, step))
  {
  }

  lemma RegisteredApi(s: State, step: ApiStep)
    requires Registered(s) && ApiEnabled(s, step)
    ensures Registered(ApplyApi(s, step))
  {
  }

  lemma RegisteredBroker(s: State, step: BrokerStep)
    requires Registered(s) && BrokerEnabled(s, step)
    ensures Registered(ApplyBroker(s, step))
  {
  }

  lemma RegisteredStep(s: State, step: Step)
    requires Registered(s) && Enabled(s, step)
    ensures Registered(Apply(s, step))
  {
    match step
    case Tick(now) =>
    case Api(a) => RegisteredApi(s, a);
    case Broker(b) => RegisteredBroker(s, b);
    case Worker(id, a) => RegisteredWorker(s, id, a);
    case Reaping(r, p) => RegisteredReaper(s, r, p);
  }

  lemma {:induction false} AlwaysRegistered(states: seq<State>, steps: seq<Step>, n: nat)
    requires Behavior(states, steps) && n < |states|
    ensures Registered(states[n])
  {
    if n > 0 {
      AlwaysRegistered(states, steps, n - 1);
      RegisteredStep(states[n - 1], steps[n - 1]);
    }
  }

  // A lock document sits under its own run's thread.
  predicate LocksKeyed(s: State) {
    forall t :: t in s.db.locks ==> s.db.locks[t].threadId == t
  }

  lemma LocksKeyedWorker(s: State, id: TaskId, step: WorkerStep)
    requires LocksKeyed(s) && WorkerEnabled(s, id, step)
    ensures LocksKeyed(ApplyWorker(s, id, step))
  {
  }

  lemma LocksKeyedReaper(s: State, r: ReaperId, step: ReaperStep)
    requires LocksKeyed(s) && ReaperEnabled(s, r, step)
    ensures LocksKeyed(ApplyReaper(s, r, step))
  {
  }

  lemma LocksKeyedStep(s: State, step: Step)
    requires LocksKeyed(s) && Enabled(s, step)
    ensures LocksKeyed(Apply(s, step))
  {
    match step
    case Tick(now) =>
    case Api(a) => assert ApplyApi(s, a).db.locks == s.db.locks;
    case Broker(b) => assert ApplyBroker(s, b).db == s.db;
    case Worker(id, a) => LocksKeyedWorker(s, id, a);
    case Reaping(r, p) => LocksKeyedReaper(s, r, p);
  }

  // ---------- how the status of one run can move in one step ----------

  function StatusOf(s: State, j: Job): Option<Status> {
    if j in s.db.runs then Some(s.db.runs[j].status) else None
  }

  predicate IsTerminal(st: Option<Status>) {
    st.Some? && st.value.Terminal()
  }

  // The step is a claim of j that takes effect.
  predicate Claims(s: State, step: Step, j: Job)
    requires Enabled(s, step)
  {
    step.Worker? && s.tasks[step.id].job == j && IsStatus(s.db, j, Pending)
    && (step.act.Claim? || (step.act.ClaimThrows? && step.act.applied))
  }

  // The step is a reaper's reset of j that takes effect.
  predicate Resets(s: State, step: Step, j: Job)
    requires Enabled(s, step)
  {
    step.Reaping? && step.phase.Reap? && step.phase.job == j && Stale(s.db, j, ReaperOf(s, step.reaper).cutoff)
  }

  predicate StatusEdge(a: Option<Status>, b: Option<Status>, claims: bool, resets: bool) {
    && (claims ==> a == Some(Pending) && b == Some(Running))
    && (resets ==> a == Some(Running) && b == Some(Pending))
    && (!claims && !resets ==> a == b || (a == None && b == Some(Pending)) || (a.Some? && IsTerminal(b)))
    && (IsTerminal(a) ==> IsTerminal(b))
  }

  lemma StatusEdgeWorker(s: State, id: TaskId, a: WorkerStep, j: Job)
    requires WorkerEnabled(s, id, a)
    ensures StatusEdge(StatusOf(s, j), StatusOf(ApplyWorker(s, id, a), j), Claims(s, Worker(id, a), j), false)
  {
  }

  lemma StatusEdgeApi(s: State, a: ApiStep, j: Job)
    requires ApiEnabled(s, a)
    ensures StatusEdge(StatusOf(s, j), StatusOf(ApplyApi(s, a), j), false, false)
  {
  }

  lemma StatusEdgeReaper(s: State, r: ReaperId, p: ReaperStep, j: Job)
    requires ReaperEnabled(s, r, p)
    ensures StatusEdge(StatusOf(s, j), StatusOf(ApplyReaper(s, r, p), j), false, Resets(s, Reaping(r, p), j))
  {
  }

  /** A run's status moves only along the documented edges: created pending, pending to running
      by a claim, running to pending by a reset, anything to terminal, and terminal to terminal. */
  lemma StatusEdgeStep(s: State, step: Step, j: Job)
    requires Enabled(s, step)
    ensures StatusEdge(StatusOf(s, j), StatusOf(Apply(s, step), j), Claims(s, step, j), Resets(s, step, j))
  {
    match step
    case Tick(now) =>
    case Api(a) => StatusEdgeApi(s, a, j);
    case Broker(b) => assert ApplyBroker(s, b).db == s.db;
    case Worker(id, a) => StatusEdgeWorker(s, id, a, j);
    case Reaping(r, p) => StatusEdgeReaper(s, r, p, j);
  }

  // ---------- what a handler's step leaves alone ----------

  // Only the acting task changes, and it keeps its job; new tasks are ready copies.
  predicate OnlyTask(s: State, s': State, id: TaskId) {
    && (forall k :: k in s.tasks && k != id ==> k in s'.tasks && s'.tasks[k] == s.tasks[k])
    && (forall k :: k in s'.tasks && k != id && k !in s.tasks ==> s'.tasks[k].place.Ready?)
    && (id in s.tasks && id in s'.tasks ==> s'.tasks[id].job == s.tasks[id].job)
  }

  lemma OnlyTaskWorker(s: State, id: TaskId, step: WorkerStep)
    requires WorkerEnabled(s, id, step)
    ensures OnlyTask(s, ApplyWorker(s, id, step), id)
  {
  }
}
