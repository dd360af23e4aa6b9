/** Concrete histories showing that the hypotheses of the protocol theorems are needed. Each contract
    names the faults of its history: there are no others. */
module Witness {
  import opened Store
  import opened Protocol
  import Lease
  import LostRun
  import OrphanedLock
  import Guard
  import Exclusion
  import Ordering
  import Sequence

  datatype History = History(states: seq<State>, steps: seq<Step>, notes: Notes) {
    ghost predicate Valid() {
      Behavior(states, steps) && notes == NotesOf(states, steps)
    }

    function Now(): State
      requires states != []
    {
      states[|states| - 1]
    }
  }

  // Everything that can go wrong: duplicates, crashes, throwing operations, and a reaper's resets.
  predicate IsFault(step: Step) {
    match step
    case Tick(now) => false
    case Api(a) => false
    case Broker(b) => b.Duplicate? || b.Redeliver? || b.Crash?
    case Worker(id, a) =>
      a.ClaimThrows? || a.AllocateThrows? || a.InsertThrows? || (a.Finish? && !a.ok) || a.LoopThrows?
      || a.SettleFails? || a.ReleaseFails?
    case Reaping(r, p) => p.Reap? || p.Die?
  }

  datatype Incident = Incident(before: State, step: Step)

  // The faults of a history, its stolen locks, and how often the lease hypothesis failed.
  datatype Notes = Notes(faults: seq<Incident>, thefts: seq<Incident>, lapses: nat)

  const NONE := Notes([], [], 0)

  function Add(n: Notes, s: State, step: Step, s': State): Notes {
    Notes(n.faults + if IsFault(step) then [Incident(s, step)] else [],
          n.thefts + if Guard.Steals(s, step) then [Incident(s, step)] else [],
          n.lapses + if Lease.Fresh(s') then 0 else 1)
  }

  function NotesOf(states: seq<State>, steps: seq<Step>): Notes
    requires |states| == |steps| + 1
    decreases |steps|
  {
    if steps == [] then NONE
    else
      var n := |steps| - 1;
      Add(NotesOf(states[..n + 1], steps[..n]), states[n], steps[n], states[n + 1])
  }

  // Without a lapse the lease hypothesis held throughout.
  lemma {:induction false} NoLapses(states: seq<State>, steps: seq<Step>, m: nat)
    requires Behavior(states, steps) && NotesOf(states, steps).lapses == 0 && m < |states|
    ensures Lease.Fresh(states[m])
    decreases |steps|
  {
    if 0 < m == |steps| {
    } else if m < |steps| {
      var n := |steps| - 1;
      assert Path(states[..n + 1], steps[..n]) by {
        assert forall k :: 0 <= k < n ==> Enabled(states[k], steps[k]) && states[..n + 1][k] == states[k];
      }
      NoLapses(states[..n + 1], steps[..n], m);
    }
  }

  // ---------- single steps ----------

  lemma Go(h: History, step: Step) returns (h': History)
    requires h.Valid() && Enabled(h.Now(), step)
    ensures h'.Valid() && h'.Now() == Apply(h.Now(), step)
    ensures h'.notes == Add(h.notes, h.Now(), step, h'.Now())
  {
    var s' := Apply(h.Now(), step);
    PathExtends(h.states, h.steps, step);
    NotesExtend(h.states, h.steps, step, s');
    h' := History(h.states + [s'], h.steps + [step], Add(h.notes, h.Now(), step, s'));
  }

  lemma NotesExtend(states: seq<State>, steps: seq<Step>, step: Step, s': State)
    requires |states| == |steps| + 1
    ensures NotesOf(states + [s'], steps + [step]) == Add(NotesOf(states, steps), states[|steps|], step, s')
  {
    var n := |steps|;
    assert (states + [s'])[..n + 1] == states && (steps + [step])[..n] == steps;
  }

  // No fault, no theft, and no lapse if there was none.
  predicate Quietly(h: History, h': History)
    requires h.states != []
  {
    && h'.notes.faults == h.notes.faults && h'.notes.thefts == h.notes.thefts
    && (Lease.Fresh(h.Now()) ==> h'.notes.lapses == h.notes.lapses)
  }

  // A step that is neither a fault nor a theft nor a tick.
  lemma Quiet(h: History, step: Step) returns (h': History)
    requires h.Valid() && Enabled(h.Now(), step) && !IsFault(step) && !Guard.Steals(h.Now(), step)
    requires Lease.Fresh(h.Now()) ==> Lease.Fresh(Apply(h.Now(), step))
    ensures h'.Valid() && h'.Now() == Apply(h.Now(), step) && Quietly(h, h')
  {
    h' := Go(h, step);
  }

  // The handler of id moves to another point.
  function Moved(s: State, id: TaskId, pc: Pc): State
    requires id in s.tasks && s.tasks[id].place.At?
  {
    s.(tasks := s.tasks[id := Task(s.tasks[id].job, At(s.tasks[id].place.worker, pc))])
  }

  predicate AtPc(s: State, id: TaskId, pc: Pc) {
    id in s.tasks && s.tasks[id].place.At? && s.tasks[id].place.pc == pc
  }

  lemma Submit(h: History, j: Job, copy: TaskId) returns (h': History)
    requires h.Valid() && h.Now().unpublished == {} && j !in h.Now().db.runs && Unused(h.Now(), copy)
    requires forall id :: id in h.Now().tasks ==> h.Now().tasks[id].job != j
    ensures h'.Valid() && Quietly(h, h')
    ensures var s := h.Now();
            h'.Now() == s.(db := CreateRun(s.db, j, s.clock), tasks := s.tasks[copy := Task(j, Ready)])
  {
    var h1 := Quiet(h, Api(Create(j, h.Now().clock)));
    h' := Quiet(h1, Api(Publish(j, copy)));
    assert h'.Now().unpublished == {};
  }

  // Worker w takes message id and gets the lock.
  lemma Take(h: History, id: TaskId, w: WorkerId) returns (h': History)
    requires h.Valid() && id in h.Now().tasks && h.Now().tasks[id].place.Ready?
    requires CanAcquire(h.Now().db, h.Now().tasks[id].job)
    ensures h'.Valid() && Quietly(h, h')
    ensures var s := h.Now();
            h'.Now() == s.(db := AcquireThread(s.db, s.tasks[id].job),
                           tasks := s.tasks[id := Task(s.tasks[id].job, At(w, Acquired))])
  {
    var h1 := Quiet(h, Broker(Deliver(id, w)));
    h' := Quiet(h1, Worker(id, TryAcquire));
    assert h'.Now().tasks == h.Now().tasks[id := Task(h.Now().tasks[id].job, At(w, Acquired))];
  }

  // Worker w takes message id, is refused the lock and arms the delayed republish.
  lemma Refuse(h: History, id: TaskId, w: WorkerId) returns (h': History)
    requires h.Valid() && id in h.Now().tasks && h.Now().tasks[id].place.Ready? && h.Now().returned == {}
    requires !CanAcquire(h.Now().db, h.Now().tasks[id].job)
    ensures h'.Valid() && Quietly(h, h')
    ensures var s := h.Now();
            h'.Now() == s.(tasks := s.tasks[id := Task(s.tasks[id].job, Timer(w))])
  {
    var h1 := TurnAway(h, id, w);
    h' := Quiet(h1, Worker(id, Requeue));
    assert h'.Now().tasks == h.Now().tasks[id := Task(h.Now().tasks[id].job, Timer(w))];
    assert h'.Now().returned == {};
  }

  lemma TurnAway(h: History, id: TaskId, w: WorkerId) returns (h': History)
    requires h.Valid() && id in h.Now().tasks && h.Now().tasks[id].place.Ready?
    requires !CanAcquire(h.Now().db, h.Now().tasks[id].job)
    ensures h'.Valid() && Quietly(h, h')
    ensures var s := h.Now();
            h'.Now() == s.(tasks := s.tasks[id := Task(s.tasks[id].job, At(w, Refused))])
  {
    var h1 := Quiet(h, Broker(Deliver(id, w)));
    h' := Quiet(h1, Worker(id, TryAcquire));
    assert h'.Now().tasks == h.Now().tasks[id := Task(h.Now().tasks[id].job, At(w, Refused))];
  }

  lemma Win(h: History, id: TaskId) returns (h': History)
    requires h.Valid() && AtPc(h.Now(), id, Acquired) && IsStatus(h.Now().db, h.Now().tasks[id].job, Pending)
    ensures h'.Valid() && Quietly(h, h')
    ensures var s := h.Now(); var t := s.tasks[id];
            h'.Now() == Moved(s, id, Looping(None)).(db := ClaimRun(s.db, t.job, t.place.worker, s.clock))
  {
    h' := Quiet(h, Worker(id, Claim(h.Now().clock)));
  }

  lemma Lose(h: History, id: TaskId) returns (h': History)
    requires h.Valid() && AtPc(h.Now(), id, Acquired) && !IsStatus(h.Now().db, h.Now().tasks[id].job, Pending)
    ensures h'.Valid() && Quietly(h, h') && h'.Now() == Moved(h.Now(), id, Unclaimed)
  {
    h' := Quiet(h, Worker(id, Claim(h.Now().clock)));
  }

  lemma Drop(h: History, id: TaskId) returns (h': History)
    requires h.Valid() && AtPc(h.Now(), id, Unclaimed)
    ensures h'.Valid() && Quietly(h, h') && h'.Now() == Moved(h.Now(), id, Releasing(true))
  {
    h' := Quiet(h, Worker(id, DropDuplicate));
  }

  lemma Nack(h: History, id: TaskId, copy: TaskId) returns (h': History)
    requires h.Valid() && AtPc(h.Now(), id, Nacking) && id !in h.Now().returned && Unused(h.Now(), copy)
    ensures h'.Valid() && Quietly(h, h')
    ensures var s := Moved(h.Now(), id, Releasing(false));
            h'.Now() == s.(tasks := s.tasks[copy := Task(h.Now().tasks[id].job, Ready)])
  {
    h' := Quiet(h, Worker(id, Settle(copy)));
  }

  lemma Conclude(h: History, id: TaskId, copy: TaskId) returns (h': History)
    requires h.Valid() && AtPc(h.Now(), id, Looping(None)) && id !in h.Now().returned && Unused(h.Now(), copy)
    ensures h'.Valid() && Quietly(h, h')
    ensures var s := h.Now();
            h'.Now() == Moved(s, id, Releasing(true)).(db := SetStatus(s.db, s.tasks[id].job, Done, s.clock))
  {
    var h1 := Return(h, id);
    h' := Quiet(h1, Worker(id, Settle(copy)));
    assert h'.Now().tasks == Moved(h.Now(), id, Releasing(true)).tasks;
  }

  lemma Return(h: History, id: TaskId) returns (h': History)
    requires h.Valid() && AtPc(h.Now(), id, Looping(None))
    ensures h'.Valid() && Quietly(h, h')
    ensures var s := h.Now();
            h'.Now() == Moved(s, id, Returning(Done)).(db := SetStatus(s.db, s.tasks[id].job, Done, s.clock))
  {
    h' := Quiet(h, Worker(id, Finish(Done, h.Now().clock, true)));
  }

  // The finally block, nobody else relying on the lock.
  lemma Leave(h: History, id: TaskId, acked: bool) returns (h': History)
    requires h.Valid() && AtPc(h.Now(), id, Releasing(acked)) && !Guard.Steals(h.Now(), Worker(id, Release))
    ensures h'.Valid() && Quietly(h, h')
    ensures var s := h.Now();
            h'.Now() == s.(db := ReleaseThread(s.db, s.tasks[id].job), tasks := s.tasks - {id})
  {
    h' := Quiet(h, Worker(id, Release));
  }

  // The finally block takes the lock from another handler of the run.
  lemma LeaveStealing(h: History, id: TaskId, acked: bool, k: TaskId) returns (h': History)
    requires h.Valid() && AtPc(h.Now(), id, Releasing(acked)) && k in h.Now().tasks && k != id
    requires h.Now().tasks[k].job == h.Now().tasks[id].job && Guard.Relies(h.Now(), h.Now().tasks[k])
    ensures h'.Valid() && h'.notes.faults == h.notes.faults
    ensures h'.notes.thefts == h.notes.thefts + [Incident(h.Now(), Worker(id, Release))]
    ensures Guard.Steals(h.Now(), Worker(id, Release))
    ensures var s := h.Now();
            h'.Now() == s.(db := ReleaseThread(s.db, s.tasks[id].job), tasks := s.tasks - {id})
  {
    h' := Go(h, Worker(id, Release));
  }

  // One event: the number is taken and stored.
  lemma Emit(h: History, id: TaskId) returns (h': History)
    requires h.Valid() && AtPc(h.Now(), id, Looping(None)) && h.Now().tasks[id].job in h.Now().db.runs
    requires !SeqTaken(h.Now().db, h.Now().tasks[id].job, h.Now().db.runs[h.Now().tasks[id].job].lastEventSeq + 1)
    ensures h'.Valid() && Quietly(h, h')
    ensures var s := h.Now(); var j := s.tasks[id].job;
            h'.Now() == s.(db := InsertEvent(AllocateSeq(s.db, j, s.clock), j, s.db.runs[j].lastEventSeq + 1))
  {
    var h1 := Number(h, id);
    h' := Save(h1, id);
    assert h'.Now().tasks == h.Now().tasks;
  }

  lemma Number(h: History, id: TaskId) returns (h': History)
    requires h.Valid() && AtPc(h.Now(), id, Looping(None)) && h.Now().tasks[id].job in h.Now().db.runs
    ensures h'.Valid() && Quietly(h, h')
    ensures var s := h.Now(); var j := s.tasks[id].job;
            h'.Now() == Moved(s, id, Looping(Some(s.db.runs[j].lastEventSeq + 1))).(db := AllocateSeq(s.db, j, s.clock))
  {
    h' := Quiet(h, Worker(id, Allocate(h.Now().clock)));
  }

  lemma Save(h: History, id: TaskId) returns (h': History)
    requires h.Valid() && id in h.Now().tasks && Sequence.Inflight(h.Now().tasks[id])
    requires !SeqTaken(h.Now().db, h.Now().tasks[id].job, Sequence.NumberOf(h.Now().tasks[id]))
    ensures h'.Valid() && Quietly(h, h')
    ensures var s := h.Now(); var t := s.tasks[id];
            h'.Now() == Moved(s, id, Looping(None)).(db := InsertEvent(s.db, t.job, Sequence.NumberOf(t)))
  {
    h' := Quiet(h, Worker(id, Insert));
  }

  lemma Unlocks(h: History, r: ReaperId) returns (h': History)
    requires h.Valid() && ReaperOf(h.Now(), r).Reset? && !Guard.Steals(h.Now(), Reaping(r, Unlock))
    ensures h'.Valid() && Quietly(h, h')
    ensures var s := h.Now(); var me := ReaperOf(s, r);
            h'.Now() == s.(reapers := s.reapers[r := Unlocked(me.job, me.cutoff, me.todo)], db := ReleaseThread(s.db, me.job))
  {
    h' := Quiet(h, Reaping(r, Unlock));
  }

  lemma Republishes(h: History, r: ReaperId, copy: TaskId) returns (h': History)
    requires h.Valid() && ReaperOf(h.Now(), r).Unlocked? && Unused(h.Now(), copy)
    ensures h'.Valid() && Quietly(h, h')
    ensures var s := h.Now(); var me := ReaperOf(s, r);
            h'.Now() == s.(reapers := s.reapers[r := Scanned(me.cutoff, me.todo)], tasks := s.tasks[copy := Task(me.job, Ready)])
  {
    h' := Quiet(h, Reaping(r, Republish(copy)));
  }

  // A fault that is not a theft.
  lemma Suffer(h: History, step: Step) returns (h': History)
    requires h.Valid() && Enabled(h.Now(), step) && IsFault(step) && !Guard.Steals(h.Now(), step)
    ensures h'.Valid() && h'.Now() == Apply(h.Now(), step)
    ensures h'.notes.faults == h.notes.faults + [Incident(h.Now(), step)] && h'.notes.thefts == h.notes.thefts
    ensures Lease.Fresh(h'.Now()) ==> h'.notes.lapses == h.notes.lapses
  {
    h' := Go(h, step);
  }

  // The lease of A runs out and reaper 0 finds it.
  lemma Expire(h: History) returns (h': History)
    requires h.Valid() && h.Now().clock == 0 && h.Now().leaseTtl == 10 && h.Now().reapers == map[]
    requires A in h.Now().db.runs && h.Now().db.runs[A].status == Running && h.Now().db.runs[A].updatedAt == 0
    requires forall j :: j in h.Now().db.runs && j != A ==> !h.Now().db.runs[j].status.Running?
    ensures h'.Valid() && h'.notes.faults == h.notes.faults && h'.notes.thefts == h.notes.thefts
    ensures h'.Now() == h.Now().(clock := 11, reapers := map[0 := Scanned(1, {A})])
    ensures Lease.Fresh(h'.Now()) ==> h'.notes.lapses == h.notes.lapses
  {
    var h1 := Go(h, Tick(11));
    h' := Go(h1, Reaping(0, Scan(11)));
    assert StaleRuns(h1.Now().db, 1) == {A};
    assert Lease.Fresh(h1.Now()) <==> Lease.Fresh(h'.Now());
  }

  // Reaper 0 resets A.
  lemma ResetA(h: History) returns (h': History)
    requires h.Valid() && h.Now().clock == 11 && h.Now().reapers == map[0 := Scanned(1, {A})]
    requires Stale(h.Now().db, A, 1) && !Guard.Steals(h.Now(), REAP)
    ensures h'.Valid() && h'.notes.thefts == h.notes.thefts
    ensures h'.notes.faults == h.notes.faults + [Incident(h.Now(), REAP)]
    ensures h'.Now() == h.Now().(db := ResetStale(h.Now().db, A, 1, 11), reapers := map[0 := Reset(A, 1, {})])
    ensures Lease.Fresh(h'.Now()) ==> h'.notes.lapses == h.notes.lapses
  {
    h' := Suffer(h, REAP);
    assert {A} - {A} == {};
    assert h'.Now().reapers == map[0 := Reset(A, 1, {})];
  }

  const A := Job(1, 7)
  const B := Job(2, 7)
  const REAP := Reaping(0, Reap(A, 11))

  // ---------- where the histories start ----------

  function At0(runs: map<Job, RunDoc>, locks: map<ThreadId, Job>, log: seq<Event>, tasks: map<TaskId, Task>): State {
    State(0, 10, Db(runs, locks, log), {}, multiset{}, tasks, map[], {})
  }

  lemma Nothing() returns (h: History)
    ensures h.Valid() && h.notes == NONE && h.Now() == At0(map[], map[], [], map[])
  {
    h := History([At0(map[], map[], [], map[])], [], NONE);
  }

  // A worker holds A's lock and is about to claim.
  lemma BeforeClaim() returns (h: History)
    ensures h.Valid() && h.notes == NONE
    ensures h.Now() == At0(map[A := RunDoc(Pending, 0, 0, None)], map[7 := A], [], map[1 := Task(A, At(1, Acquired))])
  {
    h := Nothing();
    h := Submit(h, A, 1);
    assert h.Now() == At0(map[A := RunDoc(Pending, 0, 0, None)], map[], [], map[1 := Task(A, Ready)]);
    h := Take(h, 1, 1);
    assert h.Now().tasks == map[1 := Task(A, At(1, Acquired))];
  }

  // Worker 1 executes A.
  lemma Begin() returns (h: History)
    ensures h.Valid() && h.notes == NONE
    ensures h.Now() == At0(map[A := RunDoc(Running, 0, 0, Some(1))], map[7 := A], [], map[1 := Task(A, At(1, Looping(None)))])
  {
    h := BeforeClaim();
    h := Win(h, 1);
    assert h.Now().tasks == map[1 := Task(A, At(1, Looping(None)))];
    assert h.Now().db.runs == map[A := RunDoc(Running, 0, 0, Some(1))];
  }

  // And has stored one event.
  lemma BeginLogged() returns (h: History)
    ensures h.Valid() && h.notes == NONE
    ensures h.Now() == At0(map[A := RunDoc(Running, 1, 0, Some(1))], map[7 := A], [Event(A, 1)],
                           map[1 := Task(A, At(1, Looping(None)))])
  {
    h := Begin();
    h := Emit(h, 1);
    assert h.Now().db.runs == map[A := RunDoc(Running, 1, 0, Some(1))];
  }

  // ---------- a stolen lock ----------

  predicate TwoExecutors(s: State, i: TaskId, k: TaskId) {
    i != k && i in s.tasks && k in s.tasks && Executing(s.tasks[i]) && Executing(s.tasks[k])
  }

  // Two different runs of thread 7 execute together.
  ghost predicate ThreadShared(s: State) {
    exists i, k :: TwoExecutors(s, i, k) && s.tasks[i].job == A && s.tasks[k].job == B
  }

  // Once the lock of the executing A is gone, B gets in.
  lemma SecondRunEnters(h: History, i: TaskId, k: TaskId) returns (h': History)
    requires h.Valid() && i in h.Now().tasks && h.Now().tasks[i].job == A && Executing(h.Now().tasks[i])
    requires 7 !in h.Now().db.locks && B !in h.Now().db.runs && h.Now().unpublished == {} && Unused(h.Now(), k)
    requires forall id :: id in h.Now().tasks ==> h.Now().tasks[id].job == A
    ensures h'.Valid() && Quietly(h, h')
    ensures var s := h.Now();
            h'.Now() == s.(db := s.db.(locks := s.db.locks[7 := B], runs := s.db.runs[B := RunDoc(Running, 0, s.clock, Some(2))]),
                           tasks := s.tasks[k := Task(B, At(2, Looping(None)))])
    ensures ThreadShared(h'.Now())
  {
    h' := Enter(h, k);
    assert TwoExecutors(h'.Now(), i, k);
  }

  // B is submitted, finds the thread free and is executed by worker 2.
  lemma Enter(h: History, k: TaskId) returns (h': History)
    requires h.Valid() && 7 !in h.Now().db.locks && B !in h.Now().db.runs && h.Now().unpublished == {} && Unused(h.Now(), k)
    requires forall id :: id in h.Now().tasks ==> h.Now().tasks[id].job == A
    ensures h'.Valid() && Quietly(h, h')
    ensures var s := h.Now();
            h'.Now() == s.(db := s.db.(locks := s.db.locks[7 := B], runs := s.db.runs[B := RunDoc(Running, 0, s.clock, Some(2))]),
                           tasks := s.tasks[k := Task(B, At(2, Looping(None)))])
  {
    var h1 := SubmitAndTake(h, k);
    h' := Win(h1, k);
    assert h'.Now().tasks == h.Now().tasks[k := Task(B, At(2, Looping(None)))];
    assert h'.Now().db.runs == h.Now().db.runs[B := RunDoc(Running, 0, h.Now().clock, Some(2))];
  }

  lemma SubmitAndTake(h: History, k: TaskId) returns (h': History)
    requires h.Valid() && 7 !in h.Now().db.locks && B !in h.Now().db.runs && h.Now().unpublished == {} && Unused(h.Now(), k)
    requires forall id :: id in h.Now().tasks ==> h.Now().tasks[id].job == A
    ensures h'.Valid() && Quietly(h, h')
    ensures var s := h.Now();
            h'.Now() == s.(db := s.db.(locks := s.db.locks[7 := B], runs := s.db.runs[B := RunDoc(Pending, 0, s.clock, None)]),
                           tasks := s.tasks[k := Task(B, At(2, Acquired))])
  {
    var h1 := Submit(h, B, k);
    h' := Take(h1, k, 2);
    assert h'.Now().tasks == h.Now().tasks[k := Task(B, At(2, Acquired))];
  }

  // The fault is the only one of the history, and it is what an orderly history excludes.
  ghost predicate OnlyFault(h: History, step: Step) {
    && |h.notes.faults| == 1 && h.notes.faults[0].step == step
    && Enabled(h.notes.faults[0].before, step) && !Exclusion.Orderly(h.notes.faults[0].before, step)
  }

  ghost predicate OnlyTheft(h: History, step: Step) {
    |h.notes.thefts| == 1 && h.notes.thefts[0].step == step && Guard.Steals(h.notes.thefts[0].before, step)
  }

  // A duplicate of A has passed the guard beside A's executor.
  lemma Doubled(h: History) returns (h': History)
    requires h.Valid() && h.Now().tasks == map[1 := Task(A, At(1, Looping(None)))] && h.Now().returned == {}
    requires h.Now().db.locks == map[7 := A]
    ensures h'.Valid() && h'.notes.thefts == h.notes.thefts
    ensures h'.notes.faults == h.notes.faults + [Incident(h.Now(), Broker(Duplicate(1, 2)))]
    ensures h'.Now() == h.Now().(tasks := map[1 := Task(A, At(1, Looping(None))), 2 := Task(A, At(2, Acquired))])
  {
    var h1 := Suffer(h, Broker(Duplicate(1, 2)));
    h' := Take(h1, 2, 2);
    assert h'.Now().db.locks == map[7 := A];
    assert h'.Now().tasks == map[1 := Task(A, At(1, Looping(None))), 2 := Task(A, At(2, Acquired))];
  }

  // It was dropped as already claimed.
  lemma Dropped(h: History) returns (h': History)
    requires h.Valid() && IsStatus(h.Now().db, A, Running)
    requires h.Now().tasks == map[1 := Task(A, At(1, Looping(None))), 2 := Task(A, At(2, Acquired))]
    ensures h'.Valid() && h'.notes.thefts == h.notes.thefts && h'.notes.faults == h.notes.faults
    ensures h'.Now() == h.Now().(tasks := map[1 := Task(A, At(1, Looping(None))), 2 := Task(A, At(2, Releasing(true)))])
  {
    var h1 := Lose(h, 2);
    h' := Drop(h1, 2);
    assert h'.Now().tasks == map[1 := Task(A, At(1, Looping(None))), 2 := Task(A, At(2, Releasing(true)))];
  }

  // And its handler has released the lock under A's executor.
  lemma Robbed(h: History) returns (h': History)
    requires h.Valid() && h.Now().tasks == map[1 := Task(A, At(1, Looping(None)))] && h.Now().returned == {}
    requires IsStatus(h.Now().db, A, Running) && h.Now().db.locks == map[7 := A]
    ensures h'.Valid() && h'.Now() == h.Now().(db := h.Now().db.(locks := map[]))
    ensures h'.notes.faults == h.notes.faults + [Incident(h.Now(), Broker(Duplicate(1, 2)))]
    ensures |h'.notes.thefts| == |h.notes.thefts| + 1 && h'.notes.thefts[|h.notes.thefts|].step == Worker(2, Release)
    ensures Guard.Steals(h'.notes.thefts[|h.notes.thefts|].before, Worker(2, Release))
  {
    var h1 := Doubled(h);
    var h2 := Dropped(h1);
    h' := LeaveStealing(h2, 2, true, 1);
    assert h'.Now().tasks == h.Now().tasks && h'.Now().db.locks == map[];
  }

  /** A duplicate delivery breaks mutual exclusion: the second handler of A re-enters A's lock,
      finds A already claimed, and its finally block releases the lock under the first. */
  lemma DuplicateBreaksExclusion()
    ensures exists h: History ::
              h.Valid() && ThreadShared(h.Now())
              && OnlyFault(h, Broker(Duplicate(1, 2))) && OnlyTheft(h, Worker(2, Release))
  {
    var h := Begin();
    h := Robbed(h);
    h := SecondRunEnters(h, 1, 3);
    assert OnlyFault(h, Broker(Duplicate(1, 2))) && OnlyTheft(h, Worker(2, Release));
  }

  // A's claim threw, and its message went back before the lock was released.
  lemma ClaimLost() returns (h: History)
    ensures h.Valid() && h.notes.thefts == [] && OnlyFault(h, Worker(1, ClaimThrows(false, 0)))
    ensures h.Now() == At0(map[A := RunDoc(Pending, 0, 0, None)], map[7 := A], [],
                           map[1 := Task(A, At(1, Releasing(false))), 2 := Task(A, Ready)])
  {
    h := BeforeClaim();
    h := Suffer(h, Worker(1, ClaimThrows(false, 0)));
    h := Nack(h, 1, 2);
    assert h.Now().tasks == map[1 := Task(A, At(1, Releasing(false))), 2 := Task(A, Ready)];
  }

  // A second handler has claimed it.
  lemma Reclaimed() returns (h: History)
    ensures h.Valid() && h.notes.thefts == [] && OnlyFault(h, Worker(1, ClaimThrows(false, 0)))
    ensures h.Now() == At0(map[A := RunDoc(Running, 0, 0, Some(2))], map[7 := A], [],
                           map[1 := Task(A, At(1, Releasing(false))), 2 := Task(A, At(2, Looping(None)))])
  {
    h := ClaimLost();
    h := Take(h, 2, 2);
    assert h.Now().db.locks == map[7 := A];
    h := Win(h, 2);
    assert h.Now().tasks == map[1 := Task(A, At(1, Releasing(false))), 2 := Task(A, At(2, Looping(None)))];
    assert h.Now().db.runs == map[A := RunDoc(Running, 0, 0, Some(2))];
  }

  /** So does a claim that throws without effect: the handler nacks before it releases, a second
      handler of A re-enters the lock and claims, and the first then releases it. */
  lemma FailedClaimBreaksExclusion()
    ensures exists h: History ::
              h.Valid() && ThreadShared(h.Now())
              && OnlyFault(h, Worker(1, ClaimThrows(false, 0))) && OnlyTheft(h, Worker(1, Release))
  {
    var h := Reclaimed();
    h := LeaveStealing(h, 1, false, 2);
    h := SecondRunEnters(h, 2, 3);
    assert OnlyFault(h, Worker(1, ClaimThrows(false, 0))) && OnlyTheft(h, Worker(1, Release));
  }

  // A's worker has died, its message is back, and its lease has run out.
  lemma CrashedAndExpired() returns (h: History)
    ensures h.Valid() && h.notes.thefts == [] && h.notes.lapses == 0
    ensures |h.notes.faults| == 1 && h.notes.faults[0].step == Broker(Crash(1))
    ensures h.Now() == State(11, 10, Db(map[A := RunDoc(Running, 0, 0, Some(1))], map[7 := A], []), {}, multiset{},
                             map[1 := Task(A, Ready)], map[0 := Scanned(1, {A})], {})
  {
    h := Begin();
    h := Suffer(h, Broker(Crash(1)));
    assert h.Now().tasks == map[1 := Task(A, Ready)];
    h := Expire(h);
  }

  // A has been reset; its lock is still there.
  lemma CrashedAndReset() returns (h: History)
    ensures h.Valid() && h.notes.thefts == [] && h.notes.lapses == 0
    ensures |h.notes.faults| == 2 && h.notes.faults[0].step == Broker(Crash(1)) && h.notes.faults[1].step == REAP
    ensures Enabled(h.notes.faults[1].before, REAP) && !Exclusion.Orderly(h.notes.faults[1].before, REAP)
    ensures h.Now() == State(11, 10, Db(map[A := RunDoc(Pending, 0, 11, None)], map[7 := A], []), {}, multiset{},
                             map[1 := Task(A, Ready)], map[0 := Reset(A, 1, {})], {})
  {
    h := CrashedAndExpired();
    h := ResetA(h);
    assert h.Now().db.runs == map[A := RunDoc(Pending, 0, 11, None)];
  }

  // The redelivered message has been claimed by worker 2 under A's old lock.
  lemma ReclaimedEarly() returns (h: History)
    ensures h.Valid() && h.notes.thefts == [] && h.notes.lapses == 0
    ensures |h.notes.faults| == 2 && h.notes.faults[0].step == Broker(Crash(1)) && h.notes.faults[1].step == REAP
    ensures h.Now() == State(11, 10, Db(map[A := RunDoc(Running, 0, 11, Some(2))], map[7 := A], []), {}, multiset{},
                             map[1 := Task(A, At(2, Looping(None)))], map[0 := Reset(A, 1, {})], {})
  {
    h := CrashedAndReset();
    h := Take(h, 1, 2);
    assert h.Now().db.locks == map[7 := A] && h.Now().tasks == map[1 := Task(A, At(2, Acquired))];
    h := Win(h, 1);
    assert h.Now().tasks == map[1 := Task(A, At(2, Looping(None)))];
    assert h.Now().db.runs == map[A := RunDoc(Running, 0, 11, Some(2))];
  }

  // And the reaper has deleted that lock.
  lemma RobbedByReaper() returns (h: History)
    ensures h.Valid() && h.notes.lapses == 0 && OnlyTheft(h, Reaping(0, Unlock))
    ensures |h.notes.faults| == 2 && h.notes.faults[0].step == Broker(Crash(1)) && h.notes.faults[1].step == REAP
    ensures h.Now() == State(11, 10, Db(map[A := RunDoc(Running, 0, 11, Some(2))], map[], []), {}, multiset{},
                             map[1 := Task(A, At(2, Looping(None)))], map[0 := Unlocked(A, 1, {})], {})
  {
    h := ReclaimedEarly();
    var robbed := h.Now();
    assert Guard.Relies(robbed, robbed.tasks[1]);
    h := Go(h, Reaping(0, Unlock));
    assert Guard.Steals(robbed, Reaping(0, Unlock));
    assert h.Now().db.locks == map[] && h.Now().reapers == map[0 := Unlocked(A, 1, {})];
  }

  /** Crash recovery itself breaks mutual exclusion, with the lease hypothesis intact and no
      duplicate: the redelivered message re-enters A's lock and claims the reset run before the
      reaper deletes "the stale lock", which is by then the new executor's. */
  lemma ReapBreaksExclusion()
    ensures exists h: History ::
              h.Valid() && ThreadShared(h.Now()) && (forall m :: 0 <= m < |h.states| ==> Lease.Fresh(h.states[m]))
              && |h.notes.faults| == 2 && h.notes.faults[0].step == Broker(Crash(1)) && h.notes.faults[1].step == REAP
              && OnlyTheft(h, Reaping(0, Unlock))
  {
    var h := RobbedByReaper();
    h := SecondRunEnters(h, 1, 2);
    forall m | 0 <= m < |h.states| ensures Lease.Fresh(h.states[m]) { NoLapses(h.states, h.steps, m); }
    assert OnlyTheft(h, Reaping(0, Unlock));
  }

  // Beside a duplicate that has passed the guard, A's executor died.
  lemma Survived() returns (h: History)
    ensures h.Valid() && h.notes.thefts == []
    ensures |h.notes.faults| == 2 && h.notes.faults[0].step == Broker(Duplicate(1, 2)) && h.notes.faults[1].step == Broker(Crash(1))
    ensures h.Now() == At0(map[A := RunDoc(Running, 0, 0, Some(1))], map[7 := A], [],
                           map[1 := Task(A, Ready), 2 := Task(A, At(2, Acquired))])
  {
    h := Begin();
    h := Doubled(h);
    h := Suffer(h, Broker(Crash(1)));
    assert h.Now().tasks == map[1 := Task(A, Ready), 2 := Task(A, At(2, Acquired))];
  }

  // Its message was taken again.
  lemma Beside() returns (h: History)
    ensures h.Valid() && h.notes.thefts == []
    ensures |h.notes.faults| == 2 && h.notes.faults[0].step == Broker(Duplicate(1, 2)) && h.notes.faults[1].step == Broker(Crash(1))
    ensures h.Now() == At0(map[A := RunDoc(Running, 0, 0, Some(1))], map[7 := A], [],
                           map[1 := Task(A, At(3, Acquired)), 2 := Task(A, At(2, Acquired))])
  {
    h := Survived();
    h := Take(h, 1, 3);
    assert h.Now().db.locks == map[7 := A];
    assert h.Now().tasks == map[1 := Task(A, At(3, Acquired)), 2 := Task(A, At(2, Acquired))];
  }

  // It was dropped as claimed, and its handler released the lock, on which nobody relied.
  lemma Passed() returns (h: History)
    ensures h.Valid() && h.notes.thefts == []
    ensures |h.notes.faults| == 2 && h.notes.faults[0].step == Broker(Duplicate(1, 2)) && h.notes.faults[1].step == Broker(Crash(1))
    ensures h.Now() == At0(map[A := RunDoc(Running, 0, 0, Some(1))], map[], [], map[2 := Task(A, At(2, Acquired))])
  {
    h := Beside();
    h := Lose(h, 1);
    h := Drop(h, 1);
    assert h.Now().tasks == map[1 := Task(A, At(3, Releasing(true))), 2 := Task(A, At(2, Acquired))];
    h := Leave(h, 1, true);
    assert h.Now().tasks == map[2 := Task(A, At(2, Acquired))] && h.Now().db.locks == map[];
  }

  // A's lease ran out, and B took the thread.
  lemma Occupied() returns (h: History)
    ensures h.Valid() && h.notes.thefts == []
    ensures |h.notes.faults| == 2 && h.notes.faults[0].step == Broker(Duplicate(1, 2)) && h.notes.faults[1].step == Broker(Crash(1))
    ensures h.Now() == State(11, 10, Db(map[A := RunDoc(Running, 0, 0, Some(1)), B := RunDoc(Running, 0, 11, Some(2))], map[7 := B], []),
                             {}, multiset{}, map[2 := Task(A, At(2, Acquired)), 3 := Task(B, At(2, Looping(None)))],
                             map[0 := Scanned(1, {A})], {})
  {
    h := Passed();
    h := Expire(h);
    h := Enter(h, 3);
    assert h.Now().db.locks == map[7 := B];
    assert h.Now().tasks == map[2 := Task(A, At(2, Acquired)), 3 := Task(B, At(2, Looping(None)))];
    assert h.Now().db.runs == map[A := RunDoc(Running, 0, 0, Some(1)), B := RunDoc(Running, 0, 11, Some(2))];
  }

  /** Nor is it needed that a lock is deleted under its holder: a reset is enough when a handler that
      passed the guard long ago has not claimed yet and the thread has changed hands. */
  lemma LateResetBreaksExclusion()
    ensures exists h: History ::
              h.Valid() && ThreadShared(h.Now()) && OnlyTheft(h, REAP)
              && |h.notes.faults| == 3 && h.notes.faults[0].step == Broker(Duplicate(1, 2))
              && h.notes.faults[1].step == Broker(Crash(1)) && h.notes.faults[2].step == REAP
  {
    var h := Occupied();
    var robbed := h.Now();
    h := Go(h, REAP);
    assert Guard.Steals(robbed, REAP) by { assert robbed.tasks[2].place.pc.Acquired?; }
    h := Win(h, 2);
    assert TwoExecutors(h.Now(), 2, 3);
    assert OnlyTheft(h, REAP);
  }

  // ---------- without the lease hypothesis ----------

  // Worker 1 still executes A, which was reset and republished.
  lemma ResetAlive() returns (h: History)
    ensures h.Valid() && |h.notes.faults| == 1 && h.notes.faults[0].step == REAP
    ensures h.Now() == State(11, 10, Db(map[A := RunDoc(Pending, 0, 11, None)], map[7 := A], []), {}, multiset{},
                             map[1 := Task(A, At(1, Looping(None)))], map[0 := Reset(A, 1, {})], {})
  {
    h := Begin();
    h := Expire(h);
    h := ResetA(h);
    assert h.Now().db.runs == map[A := RunDoc(Pending, 0, 11, None)];
  }

  lemma RepublishedAlive() returns (h: History)
    ensures h.Valid() && |h.notes.faults| == 1 && h.notes.faults[0].step == REAP
    ensures h.Now() == State(11, 10, Db(map[A := RunDoc(Pending, 0, 11, None)], map[], []), {}, multiset{},
                             map[1 := Task(A, At(1, Looping(None))), 2 := Task(A, Ready)], map[0 := Scanned(1, {})], {})
  {
    h := ResetAlive();
    h := Go(h, Reaping(0, Unlock));
    assert h.Now().db.locks == map[] && h.Now().reapers == map[0 := Unlocked(A, 1, {})];
    h := Republishes(h, 0, 2);
    assert h.Now().tasks == map[1 := Task(A, At(1, Looping(None))), 2 := Task(A, Ready)];
    assert h.Now().reapers == map[0 := Scanned(1, {})];
  }

  // And worker 2 claimed it again.
  lemma TakenOver() returns (h: History)
    ensures h.Valid() && |h.notes.faults| == 1 && h.notes.faults[0].step == REAP
    ensures h.Now().tasks == map[1 := Task(A, At(1, Looping(None))), 2 := Task(A, At(2, Looping(None)))]
    ensures h.Now().db == Db(map[A := RunDoc(Running, 0, 11, Some(2))], map[7 := A], [])
  {
    h := RepublishedAlive();
    h := Take(h, 2, 2);
    assert h.Now().db.locks == map[7 := A];
    h := Win(h, 2);
    assert h.Now().tasks == map[1 := Task(A, At(1, Looping(None))), 2 := Task(A, At(2, Looping(None)))];
    assert h.Now().db.runs == map[A := RunDoc(Running, 0, 11, Some(2))];
  }

  // One run is executed by two handlers.
  ghost predicate RunShared(s: State) {
    exists i, k :: TwoExecutors(s, i, k) && s.tasks[i].job == s.tasks[k].job
  }

  /** Without the lease hypothesis, one run gets two executors: A's worker is alive but has not
      touched its document for longer than the lease, and a reset is all it takes. */
  lemma LateHeartbeatBreaksLease()
    ensures exists h: History ::
              h.Valid() && RunShared(h.Now()) && |h.notes.faults| == 1 && h.notes.faults[0].step == REAP
  {
    var h := TakenOver();
    assert TwoExecutors(h.Now(), 1, 2);
  }

  // Both executors have taken a number.
  lemma BothNumbered() returns (h: History)
    ensures h.Valid() && |h.notes.faults| == 1 && h.notes.faults[0].step == REAP
    ensures h.Now().tasks == map[1 := Task(A, At(1, Looping(Some(1)))), 2 := Task(A, At(2, Looping(Some(2))))]
    ensures h.Now().db.log == []
  {
    h := TakenOver();
    h := Number(h, 1);
    assert h.Now().db.runs == map[A := RunDoc(Running, 1, h.Now().clock, Some(2))];
    h := Number(h, 2);
    assert h.Now().tasks == map[1 := Task(A, At(1, Looping(Some(1)))), 2 := Task(A, At(2, Looping(Some(2))))];
  }

  /** And its events can then be committed out of sequence order. */
  lemma LateHeartbeatReorders()
    ensures exists h: History ::
              h.Valid() && Sequence.Numbers(h.Now().db.log, A) == [2, 1]
              && |h.notes.faults| == 1 && h.notes.faults[0].step == REAP
  {
    var h := BothNumbered();
    h := Save(h, 2);
    h := Save(h, 1);
    assert h.Now().db.log == [Event(A, 2), Event(A, 1)];
    ReorderedNumbers();
  }

  lemma ReorderedNumbers()
    ensures Sequence.Numbers([Event(A, 2), Event(A, 1)], A) == [2, 1]
  {
    var log := [Event(A, 2), Event(A, 1)];
    assert log[..1] == [Event(A, 2)] && log[..1][..0] == [];
    assert Sequence.Numbers(log[..1], A) == [2];
  }

  // ---------- a lost run, an orphaned lock ----------

  // B was refused by worker 2.
  lemma RefusedB() returns (h: History)
    ensures h.Valid() && h.notes == NONE
    ensures h.Now() == At0(map[A := RunDoc(Running, 0, 0, Some(1)), B := RunDoc(Pending, 0, 0, None)], map[7 := A], [],
                           map[1 := Task(A, At(1, Looping(None))), 2 := Task(B, Timer(2))])
  {
    h := Begin();
    h := Submit(h, B, 2);
    h := Refuse(h, 2, 2);
    assert h.Now().tasks == map[1 := Task(A, At(1, Looping(None))), 2 := Task(B, Timer(2))];
    assert h.Now().db.runs == map[A := RunDoc(Running, 0, 0, Some(1)), B := RunDoc(Pending, 0, 0, None)];
  }

  /** A worker that dies with a delayed republish armed loses the refused run for good. */
  lemma TimerCrashLosesRun()
    ensures exists h: History ::
              h.Valid() && LostRun.Lost(h.Now(), B)
              && |h.notes.faults| == 1 && h.notes.faults[0].step == Broker(Crash(2))
              && LostRun.Deprives(h.notes.faults[0].before, Broker(Crash(2)), B)
  {
    var h := RefusedB();
    DeprivedB(h.Now());
    h := Suffer(h, Broker(Crash(2)));
  }

  lemma DeprivedB(s: State)
    requires s == At0(map[A := RunDoc(Running, 0, 0, Some(1)), B := RunDoc(Pending, 0, 0, None)], map[7 := A], [],
                      map[1 := Task(A, At(1, Looping(None))), 2 := Task(B, Timer(2))])
    ensures LostRun.Deprives(s, Broker(Crash(2)), B) && LostRun.Lost(Apply(s, Broker(Crash(2))), B)
  {
  }

  // A's worker has died, and its message was redelivered to worker 2.
  lemma CrashedAndRetaken() returns (h: History)
    ensures h.Valid() && |h.notes.faults| == 1 && h.notes.faults[0].step == Broker(Crash(1))
    ensures h.Now() == At0(map[A := RunDoc(Running, 0, 0, Some(1))], map[7 := A], [], map[1 := Task(A, At(2, Acquired))])
  {
    h := Begin();
    h := Suffer(h, Broker(Crash(1)));
    assert h.Now().tasks == map[1 := Task(A, Ready)];
    h := Take(h, 1, 2);
    assert h.Now().db.locks == map[7 := A] && h.Now().tasks == map[1 := Task(A, At(2, Acquired))];
  }

  // And dropped, since A is marked running.
  lemma CrashedAndDropped() returns (h: History)
    ensures h.Valid() && |h.notes.faults| == 1 && h.notes.faults[0].step == Broker(Crash(1))
    ensures h.Now() == At0(map[A := RunDoc(Running, 0, 0, Some(1))], map[], [], map[])
  {
    h := CrashedAndRetaken();
    h := Lose(h, 1);
    h := Drop(h, 1);
    assert h.Now().tasks == map[1 := Task(A, At(2, Releasing(true)))];
    h := Leave(h, 1, true);
    assert h.Now().tasks == map[] && h.Now().db.locks == map[];
  }

  /** So does a reaper that dies between resetting a run and republishing it, when the
      redelivered message was already dropped because the run was still marked running. */
  lemma ReaperDeathLosesRun()
    ensures exists h: History ::
              h.Valid() && LostRun.Lost(h.Now(), A)
              && |h.notes.faults| == 3 && h.notes.faults[0].step == Broker(Crash(1))
              && h.notes.faults[1].step == REAP && h.notes.faults[2].step == Reaping(0, Die)
              && LostRun.Deprives(h.notes.faults[2].before, Reaping(0, Die), A)
  {
    var h := CrashedAndDropped();
    h := Expire(h);
    h := ResetA(h);
    var before := h.Now();
    h := Suffer(h, Reaping(0, Die));
    assert LostRun.Deprives(before, Reaping(0, Die), A);
    assert LostRun.Lost(h.Now(), A);
  }

  // A is done and acked; its handler has the release ahead of it.
  lemma Acked() returns (h: History)
    ensures h.Valid() && h.notes == NONE
    ensures h.Now() == At0(map[A := RunDoc(Done, 0, 0, Some(1))], map[7 := A], [], map[1 := Task(A, At(1, Releasing(true)))])
  {
    h := Begin();
    h := Conclude(h, 1, 2);
    assert h.Now().tasks == map[1 := Task(A, At(1, Releasing(true)))];
    assert h.Now().db.runs == map[A := RunDoc(Done, 0, 0, Some(1))];
  }

  // The thread is dead, and its only fault killed the lock.
  ghost predicate OrphanedBy(h: History, step: Step) {
    && h.states != [] && OrphanedLock.Orphaned(h.Now(), 7)
    && |h.notes.faults| == 1 && h.notes.faults[0].step == step
    && OrphanedLock.Kills(h.notes.faults[0].before, step, 7)
  }

  /** A worker that dies between its ack and its release orphans the thread for ever. */
  lemma AckBeforeReleaseOrphansLock()
    ensures exists h: History :: h.Valid() && OrphanedBy(h, Broker(Crash(1)))
  {
    var h := Acked();
    var before := h.Now();
    h := Suffer(h, Broker(Crash(1)));
    assert h.Now().tasks == map[];
    assert OrphanedLock.Kills(before, Broker(Crash(1)), 7);
    assert OrphanedBy(h, Broker(Crash(1)));
  }

  /** So does a release that fails after the ack. */
  lemma FailedReleaseOrphansLock()
    ensures exists h: History :: h.Valid() && OrphanedBy(h, Worker(1, ReleaseFails))
  {
    var h := Acked();
    var before := h.Now();
    h := Suffer(h, Worker(1, ReleaseFails));
    assert h.Now().tasks == map[];
    assert OrphanedLock.Kills(before, Worker(1, ReleaseFails), 7);
    assert OrphanedBy(h, Worker(1, ReleaseFails));
  }

  // The last step of the history, taken in `before`, killed the lock and orphaned the thread.
  ghost predicate LastKilled(h: History, before: State, step: Step) {
    && Enabled(before, step) && h.states != [] && h.Now() == Apply(before, step)
    && !OrphanedLock.Dead(before, 7) && OrphanedLock.Kills(before, step, 7) && OrphanedLock.Orphaned(h.Now(), 7)
  }

  // A's worker died, and a second one takes its message to find the run not pending.
  lemma Redriven() returns (h: History)
    ensures h.Valid() && |h.notes.faults| == 1 && h.notes.faults[0].step == Broker(Crash(1))
    ensures h.Now() == At0(map[A := RunDoc(Running, 0, 0, Some(1))], map[7 := A], [], map[1 := Task(A, At(2, Acquired))])
                         .(cancels := multiset{A})
  {
    h := Begin();
    h := Quiet(h, Api(CancelRead(A)));
    h := Suffer(h, Broker(Crash(1)));
    assert h.Now().tasks == map[1 := Task(A, Ready)];
    h := Take(h, 1, 2);
    assert h.Now().db.locks == map[7 := A];
    assert h.Now().tasks == map[1 := Task(A, At(2, Acquired))];
  }

  // It acks and dies too. The lock's run is still running, so a reaper would recover it.
  lemma Abandoned() returns (h: History)
    ensures h.Valid() && |h.notes.faults| == 2
    ensures h.notes.faults[0].step == Broker(Crash(1)) && h.notes.faults[1].step == Broker(Crash(2))
    ensures !OrphanedLock.Dead(h.Now(), 7)
    ensures h.Now() == At0(map[A := RunDoc(Running, 0, 0, Some(1))], map[7 := A], [], map[]).(cancels := multiset{A})
  {
    h := Redriven();
    h := Quiet(h, Worker(1, Claim(0)));
    assert h.Now().tasks == map[1 := Task(A, At(2, Unclaimed))];
    h := Quiet(h, Worker(1, DropDuplicate));
    assert h.Now().tasks == map[1 := Task(A, At(2, Releasing(true)))];
    h := Suffer(h, Broker(Crash(2)));
    assert h.Now().tasks == map[];
  }

  /** And so does a cancel: of a run whose handlers all died only the running status is left, for a
      reaper to find; the user's cancel takes it away. Neither crash kills the lock, the cancel does. */
  lemma CancelOrphansLock()
    ensures exists h: History, before: State ::
              h.Valid() && |h.notes.faults| == 2 && LastKilled(h, before, Api(CancelWrite(A, 0)))
              && h.notes.faults[0].step == Broker(Crash(1)) && h.notes.faults[1].step == Broker(Crash(2))
  {
    var h := Abandoned();
    var before := h.Now();
    h := Quiet(h, Api(CancelWrite(A, 0)));
    assert LastKilled(h, before, Api(CancelWrite(A, 0)));
  }

  // ---------- a thread log that is not serial ----------

  ghost predicate Mixed(h: History) {
    h.states != [] && Ordering.Interleaved(Guard.ThreadLog(h.Now().db.log, 7))
  }

  lemma MixedLog()
    ensures Ordering.Interleaved(Guard.ThreadLog([Event(A, 1), Event(B, 1), Event(A, 2)], 7))
  {
    var log := [Event(A, 1), Event(B, 1), Event(A, 2)];
    assert log[..2] == [Event(A, 1), Event(B, 1)] && log[..2][..1] == [Event(A, 1)] && log[..2][..1][..0] == [];
    assert Guard.ThreadLog(log[..2][..1], 7) == [1];
    assert Guard.ThreadLog(log[..2], 7) == [1, 2];
    var runs := Guard.ThreadLog(log, 7);
    assert runs == [1, 2, 1];
    assert runs[0] == runs[2] != runs[1];
  }

  // A and B execute together, A having written an event.
  lemma SharedLogged() returns (h: History)
    ensures h.Valid() && OnlyFault(h, Broker(Duplicate(1, 2)))
    ensures h.Now() == At0(map[A := RunDoc(Running, 1, 0, Some(1)), B := RunDoc(Running, 0, 0, Some(2))], map[7 := B], [Event(A, 1)],
                           map[1 := Task(A, At(1, Looping(None))), 3 := Task(B, At(2, Looping(None)))])
  {
    h := BeginLogged();
    h := Robbed(h);
    h := Enter(h, 3);
    assert h.Now().db.locks == map[7 := B];
    assert h.Now().tasks == map[1 := Task(A, At(1, Looping(None))), 3 := Task(B, At(2, Looping(None)))];
    assert h.Now().db.runs == map[A := RunDoc(Running, 1, 0, Some(1)), B := RunDoc(Running, 0, 0, Some(2))];
  }

  /** A stolen lock mixes the events of two runs. */
  lemma TheftMixesLog()
    ensures exists h: History :: h.Valid() && Mixed(h) && OnlyFault(h, Broker(Duplicate(1, 2)))
  {
    var h := SharedLogged();
    h := Emit(h, 3);
    assert h.Now().db.runs[A] == RunDoc(Running, 1, 0, Some(1));
    h := Emit(h, 1);
    assert h.Now().db.log == [Event(A, 1), Event(B, 1), Event(A, 2)];
    MixedLog();
    assert OnlyFault(h, Broker(Duplicate(1, 2)));
  }

  // A wrote an event before its worker died, and its lease ran out.
  lemma LoggedCrash() returns (h: History)
    ensures h.Valid() && h.notes.thefts == [] && |h.notes.faults| == 1 && h.notes.faults[0].step == Broker(Crash(1))
    ensures h.Now() == State(11, 10, Db(map[A := RunDoc(Running, 1, 0, Some(1))], map[7 := A], [Event(A, 1)]), {}, multiset{},
                             map[1 := Task(A, Ready)], map[0 := Scanned(1, {A})], {})
  {
    h := BeginLogged();
    h := Suffer(h, Broker(Crash(1)));
    assert h.Now().tasks == map[1 := Task(A, Ready)];
    h := Expire(h);
  }

  // It was reset.
  lemma ResetLogged() returns (h: History)
    ensures h.Valid() && h.notes.thefts == []
    ensures |h.notes.faults| == 2 && h.notes.faults[0].step == Broker(Crash(1)) && h.notes.faults[1].step == REAP
    ensures Guard.Rewinds(h.notes.faults[1].before, REAP)
    ensures h.Now() == State(11, 10, Db(map[A := RunDoc(Pending, 1, 11, None)], map[7 := A], [Event(A, 1)]), {}, multiset{},
                             map[1 := Task(A, Ready)], map[0 := Reset(A, 1, {})], {})
  {
    h := LoggedCrash();
    var before := h.Now();
    assert Guard.Started(before, A) by { assert before.db.log[0].job == A; }
    h := ResetA(h);
    assert h.Now().db.runs == map[A := RunDoc(Pending, 1, 11, None)];
  }

  // And unlocked.
  lemma Recovering() returns (h: History)
    ensures h.Valid() && h.notes.thefts == []
    ensures |h.notes.faults| == 2 && h.notes.faults[0].step == Broker(Crash(1)) && h.notes.faults[1].step == REAP
    ensures Guard.Rewinds(h.notes.faults[1].before, REAP)
    ensures h.Now() == State(11, 10, Db(map[A := RunDoc(Pending, 1, 11, None)], map[], [Event(A, 1)]), {}, multiset{},
                             map[1 := Task(A, Ready)], map[0 := Unlocked(A, 1, {})], {})
  {
    h := ResetLogged();
    h := Unlocks(h, 0);
    assert h.Now().db.locks == map[] && h.Now().reapers == map[0 := Unlocked(A, 1, {})];
  }

  // Meanwhile B entered.
  lemma Entered() returns (h: History)
    ensures h.Valid() && h.notes.thefts == []
    ensures |h.notes.faults| == 2 && h.notes.faults[0].step == Broker(Crash(1)) && h.notes.faults[1].step == REAP
    ensures Guard.Rewinds(h.notes.faults[1].before, REAP)
    ensures h.Now() == State(11, 10, Db(map[A := RunDoc(Pending, 1, 11, None), B := RunDoc(Running, 0, 11, Some(2))],
                                        map[7 := B], [Event(A, 1)]), {}, multiset{},
                             map[1 := Task(A, Ready), 2 := Task(B, At(2, Looping(None)))], map[0 := Unlocked(A, 1, {})], {})
  {
    h := Recovering();
    h := Enter(h, 2);
    assert h.Now().db.locks == map[7 := B];
    assert h.Now().tasks == map[1 := Task(A, Ready), 2 := Task(B, At(2, Looping(None)))];
    assert h.Now().db.runs == map[A := RunDoc(Pending, 1, 11, None), B := RunDoc(Running, 0, 11, Some(2))];
  }

  // It wrote an event.
  lemma Wrote() returns (h: History)
    ensures h.Valid() && h.notes.thefts == []
    ensures |h.notes.faults| == 2 && h.notes.faults[0].step == Broker(Crash(1)) && h.notes.faults[1].step == REAP
    ensures Guard.Rewinds(h.notes.faults[1].before, REAP)
    ensures h.Now() == State(11, 10, Db(map[A := RunDoc(Pending, 1, 11, None), B := RunDoc(Running, 1, 11, Some(2))],
                                        map[7 := B], [Event(A, 1), Event(B, 1)]), {}, multiset{},
                             map[1 := Task(A, Ready), 2 := Task(B, At(2, Looping(None)))], map[0 := Unlocked(A, 1, {})], {})
  {
    h := Entered();
    h := Emit(h, 2);
    assert h.Now().db.runs == map[A := RunDoc(Pending, 1, 11, None), B := RunDoc(Running, 1, 11, Some(2))];
  }

  // And finished, its lock still to be released.
  lemma Concluded() returns (h: History)
    ensures h.Valid() && h.notes.thefts == []
    ensures |h.notes.faults| == 2 && h.notes.faults[0].step == Broker(Crash(1)) && h.notes.faults[1].step == REAP
    ensures Guard.Rewinds(h.notes.faults[1].before, REAP)
    ensures h.Now() == State(11, 10, Db(map[A := RunDoc(Pending, 1, 11, None), B := RunDoc(Done, 1, 11, Some(2))],
                                        map[7 := B], [Event(A, 1), Event(B, 1)]), {}, multiset{},
                             map[1 := Task(A, Ready), 2 := Task(B, At(2, Releasing(true)))], map[0 := Unlocked(A, 1, {})], {})
  {
    h := Wrote();
    h := Conclude(h, 2, 3);
    assert h.Now().tasks == map[1 := Task(A, Ready), 2 := Task(B, At(2, Releasing(true)))];
    assert h.Now().db.runs == map[A := RunDoc(Pending, 1, 11, None), B := RunDoc(Done, 1, 11, Some(2))];
  }

  lemma Overtaken() returns (h: History)
    ensures h.Valid() && h.notes.thefts == []
    ensures |h.notes.faults| == 2 && h.notes.faults[0].step == Broker(Crash(1)) && h.notes.faults[1].step == REAP
    ensures Guard.Rewinds(h.notes.faults[1].before, REAP)
    ensures h.Now().tasks == map[1 := Task(A, Ready)] && h.Now().db.locks == map[]
    ensures A in h.Now().db.runs && h.Now().db.runs[A] == RunDoc(Pending, 1, 11, None)
    ensures h.Now().db.log == [Event(A, 1), Event(B, 1)]
  {
    h := Concluded();
    h := Leave(h, 2, true);
    assert h.Now().tasks == map[1 := Task(A, Ready)] && h.Now().db.locks == map[];
  }

  /** Recovery alone does, with no lock stolen: A writes an event and its worker dies, the reaper
      resets A, B runs to its end, and A resumes. So the ordering verifier fails on a thread whose
      runs never executed together. */
  lemma RecoveryMixesLog()
    ensures exists h: History ::
              h.Valid() && Mixed(h) && h.notes.thefts == []
              && |h.notes.faults| == 2 && h.notes.faults[0].step == Broker(Crash(1)) && h.notes.faults[1].step == REAP
              && Guard.Rewinds(h.notes.faults[1].before, REAP)
  {
    var h := Overtaken();
    h := Take(h, 1, 3);
    h := Win(h, 1);
    assert h.Now().tasks == map[1 := Task(A, At(3, Looping(None)))];
    h := Emit(h, 1);
    assert h.Now().db.log == [Event(A, 1), Event(B, 1), Event(A, 2)];
    MixedLog();
  }
}
