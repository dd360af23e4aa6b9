/** The worker's message handler, the reaper's pass and the two writing requests of the API,
    statement by statement, with every other process free to act at each await. All are proved
    to walk the step machine. */
module Cluster {
  import opened Store
  import opened Protocol
  import opened Mongo
  import Sequence

  datatype Actor = Handler(id: TaskId) | Collector(reaper: ReaperId) | Poster(job: Job) | Canceler(job: Job)

  // What the API answers: 202, 200, 404, 409 or 503. A 503 may follow a write that took effect.
  datatype Reply = Accepted | CancelDone | NotFound | Conflict | Unavailable(written: bool)

  // The step is somebody else's, and does not kill this actor.
  predicate Foreign(s: State, step: Step, me: Actor) {
    match me
    case Handler(id) =>
      match step {
        case Worker(k, a) => k != id
        case Broker(Crash(w)) => IsAt(s, id) && s.tasks[id].place.worker != w
        case _ => true
      }
    case Collector(r) => step.Reaping? ==> step.reaper != r
    case Poster(j) => step.Api? && step.api.Publish? ==> step.api.job != j
    case Canceler(j) => step.Api? && step.api.CancelWrite? && step.api.job == j ==> s.cancels[j] >= 2
  }

  predicate Untouched(s: State, s': State, me: Actor) {
    match me
    case Handler(id) => id in s.tasks && id in s'.tasks && s'.tasks[id] == s.tasks[id]
    case Collector(r) => r in s.reapers ==> r in s'.reapers && s'.reapers[r] == s.reapers[r]
    case Poster(j) => j in s.unpublished ==> j in s'.unpublished
    case Canceler(j) => (j in s.cancels ==> j in s'.cancels) && (j in s.db.runs ==> j in s'.db.runs)
  }

  lemma ForeignWorker(s: State, id: TaskId, a: WorkerStep, me: Actor)
    requires WorkerEnabled(s, id, a) && Foreign(s, Worker(id, a), me)
    requires me.Handler? ==> IsAt(s, me.id)
    ensures Untouched(s, ApplyWorker(s, id, a), me)
  {
    OnlyTaskWorker(s, id, a);
  }

  lemma ForeignStep(s: State, step: Step, me: Actor)
    requires Enabled(s, step) && Foreign(s, step, me)
    requires me.Handler? ==> IsAt(s, me.id)
    ensures Untouched(s, Apply(s, step), me)
  {
    match step
    case Tick(now) =>
    case Api(a) => ForeignApi(s, a, me);
    case Broker(b) => ForeignBroker(s, b, me);
    case Worker(id, a) => ForeignWorker(s, id, a, me);
    case Reaping(r, p) => ForeignReaper(s, r, p, me);
  }

  lemma ForeignApi(s: State, a: ApiStep, me: Actor)
    requires ApiEnabled(s, a) && Foreign(s, Api(a), me)
    requires me.Handler? ==> IsAt(s, me.id)
    ensures Untouched(s, ApplyApi(s, a), me)
  {
  }

  lemma ForeignBroker(s: State, b: BrokerStep, me: Actor)
    requires BrokerEnabled(s, b) && Foreign(s, Broker(b), me)
    requires me.Handler? ==> IsAt(s, me.id)
    ensures Untouched(s, ApplyBroker(s, b), me)
  {
  }

  lemma ForeignReaper(s: State, r: ReaperId, p: ReaperStep, me: Actor)
    requires ReaperEnabled(s, r, p) && Foreign(s, Reaping(r, p), me)
    requires me.Handler? ==> IsAt(s, me.id)
    ensures Untouched(s, ApplyReaper(s, r, p), me)
  {
  }

  // The id of the message copy a step adds, if any.
  function CopyOf(step: Step): Option<TaskId> {
    match step
    case Api(Publish(j, copy)) => Some(copy)
    case Broker(Duplicate(id, copy)) => Some(copy)
    case Broker(Redeliver(id, copy)) => Some(copy)
    case Worker(id, Settle(copy)) => Some(copy)
    case Reaping(r, Republish(copy)) => Some(copy)
    case _ => None
  }

  // A step adds at most that copy, keeps the configuration and never turns the clock back.
  lemma StepFrame(s: State, step: Step)
    requires Enabled(s, step)
    ensures forall k :: k in Apply(s, step).tasks ==> k in s.tasks || CopyOf(step) == Some(k)
    ensures Apply(s, step).returned <= s.returned + s.tasks.Keys
    ensures Apply(s, step).leaseTtl == s.leaseTtl && Apply(s, step).clock >= s.clock
  {
    match step
    case Tick(now) =>
    case Api(a) => assert forall k :: k in ApplyApi(s, a).tasks ==> k in s.tasks || CopyOf(step) == Some(k);
    case Broker(b) => assert forall k :: k in ApplyBroker(s, b).tasks ==> k in s.tasks || CopyOf(step) == Some(k);
    case Worker(id, a) => assert forall k :: k in ApplyWorker(s, id, a).tasks ==> k in s.tasks || CopyOf(step) == Some(k);
    case Reaping(r, p) => assert forall k :: k in ApplyReaper(s, r, p).tasks ==> k in s.tasks || CopyOf(step) == Some(k);
  }

  // How often message id was settled (ack, nack, ack-and-rearm, or a swallowed failure), and its handler's
  // finally block was reached.
  function Settlements(steps: seq<Step>, id: TaskId): nat {
    if steps == [] then 0
    else Settlements(steps[..|steps| - 1], id) + if Settles(steps[|steps| - 1], id) then 1 else 0
  }

  predicate Settles(step: Step, id: TaskId) {
    step.Worker? && step.id == id && 
    (step.act.Requeue? || step.act.DropDuplicate? || step.act.Settle? || step.act.SettleFails?)
  }

  function Releases(steps: seq<Step>, id: TaskId): nat {
    if steps == [] then 0
    else Releases(steps[..|steps| - 1], id) + if FreesLock(steps[|steps| - 1], id) then 1 else 0
  }

  predicate FreesLock(step: Step, id: TaskId) {
    step.Worker? && step.id == id && (step.act.Release? || step.act.ReleaseFails?)
  }

  function Republishes(steps: seq<Step>, r: ReaperId): nat {
    if steps == [] then 0
    else Republishes(steps[..|steps| - 1], r) + if IsRepublish(steps[|steps| - 1], r) then 1 else 0
  }

  predicate IsRepublish(step: Step, r: ReaperId) {
    step.Reaping? && step.reaper == r && step.phase.Republish?
  }

  function Publishes(steps: seq<Step>, j: Job): nat {
    if steps == [] then 0
    else Publishes(steps[..|steps| - 1], j) + if IsPublish(steps[|steps| - 1], j) then 1 else 0
  }

  predicate IsPublish(step: Step, j: Job) {
    step.Api? && step.api.Publish? && step.api.job == j
  }

  // Some behaviour of the step machine takes exactly these steps and ends in s.
  ghost predicate Explains(steps: seq<Step>, s: State) {
    exists states :: Behavior(states, steps) && states[|steps|] == s
  }

  lemma ExplainMore(steps: seq<Step>, s: State, step: Step)
    requires Explains(steps, s) && Enabled(s, step)
    ensures Explains(steps + [step], Apply(s, step))
  {
    var states :| Behavior(states, steps) && states[|steps|] == s;
    PathExtends(states, steps, step);
    assert Behavior(states + [Apply(s, step)], steps + [step]);
  }

  // ---------- what a request meets ----------

  // The answer of one operation: it arrives, or the operation throws, with or without its effect.
  datatype Answer = Answered | Throws(applied: bool)

  type FinalStatus = st: Status | st.Terminal() witness Done

  // What runLoop does to the store: an event, in two halves, or a status write that takes effect and throws.
  datatype LoopOp = Emits(number: Answer, store: Answer) | LosesStatus(status: FinalStatus)

  // It returns with a status it has written, or lets an exception out.
  datatype Ending = Returns(status: FinalStatus) | Escapes

  // One consumed message: what each of its operations answers, and what the agent loop does.
  datatype Course = Course(lock: Answer, claim: Answer, loop: seq<LoopOp>, ending: Ending, release: Answer)

  predicate SmoothLoop(loop: seq<LoopOp>) {
    forall i :: 0 <= i < |loop| ==> loop[i] == Emits(Answered, Answered)
  }

  // Nothing throws.
  predicate Smooth(c: Course) {
    c.lock.Answered? && c.claim.Answered? && SmoothLoop(c.loop) && c.ending.Returns? && c.release.Answered?
  }

  // ---------- what the system holds about one run ----------

  // Its document, the lock of its thread, its messages and handlers, the numbers of its events in commit
  // order, which of its messages the broker took back, and whether it is yet to be published.
  datatype Footprint = Footprint(doc: Option<RunDoc>, lock: Option<Job>, copies: map<TaskId, Place>,
                                 events: seq<nat>, lost: set<TaskId>, unpublished: bool)

  function CopiesOf(tasks: map<TaskId, Task>, j: Job): map<TaskId, Place> {
    map k | k in tasks && tasks[k].job == j :: tasks[k].place
  }

  function EventsOf(log: seq<Event>, j: Job): seq<nat> {
    if log == [] then []
    else
      var last := log[|log| - 1];
      EventsOf(log[..|log| - 1], j) + if last.job == j then [last.seqNo] else []
  }

  function FootprintOf(s: State, j: Job): Footprint {
    var copies := CopiesOf(s.tasks, j);
    Footprint(if j in s.db.runs then Some(s.db.runs[j]) else None,
              if j.threadId in s.db.locks then Some(s.db.locks[j.threadId]) else None,
              copies, EventsOf(s.db.log, j), s.returned * copies.Keys, j in s.unpublished)
  }

  // Nothing about these runs changes.
  predicate Spares(s: State, s': State, jobs: set<Job>) {
    forall j :: j in jobs ==> FootprintOf(s', j) == FootprintOf(s, j)
  }

  lemma LostInFootprint(s: State, j: Job, id: TaskId)
    ensures id in s.tasks && s.tasks[id].job == j ==> (id in FootprintOf(s, j).lost <==> id in s.returned)
  {
  }

  lemma CopiesPut(s: State, j: Job, id: TaskId, p: Place)
    requires id in s.tasks && s.tasks[id].job == j
    ensures FootprintOf(Move(s, id, p), j) == FootprintOf(s, j).(copies := FootprintOf(s, j).copies[id := p])
  {
    var s' := Move(s, id, p);
    assert CopiesOf(s'.tasks, j) == CopiesOf(s.tasks, j)[id := p];
    assert CopiesOf(s'.tasks, j).Keys == CopiesOf(s.tasks, j).Keys;
  }

  lemma CopiesAdd(s: State, j: Job, copy: TaskId)
    requires Unused(s, copy)
    ensures FootprintOf(AddCopy(s, copy, j), j) == FootprintOf(s, j).(copies := FootprintOf(s, j).copies[copy := Ready])
  {
    var s' := AddCopy(s, copy, j);
    assert CopiesOf(s'.tasks, j) == CopiesOf(s.tasks, j)[copy := Ready];
    assert s'.returned * CopiesOf(s'.tasks, j).Keys == s.returned * CopiesOf(s.tasks, j).Keys;
  }

  lemma CopiesDrop(s: State, j: Job, id: TaskId)
    ensures var f := FootprintOf(s, j);
            FootprintOf(s.(tasks := s.tasks - {id}), j) == f.(copies := f.copies - {id}, lost := f.lost - {id})
  {
    var s' := s.(tasks := s.tasks - {id});
    assert CopiesOf(s'.tasks, j) == CopiesOf(s.tasks, j) - {id};
    assert s.returned * (CopiesOf(s.tasks, j) - {id}).Keys == s.returned * CopiesOf(s.tasks, j).Keys - {id};
  }

  lemma EventsAppend(log: seq<Event>, j: Job, n: nat)
    ensures EventsOf(log + [Event(j, n)], j) == EventsOf(log, j) + [n]
  {
    assert (log + [Event(j, n)])[..|log|] == log;
  }

  // What the steps of a handler that meets no fault do to its run's footprint.
  lemma OwnFootprint(s: State, id: TaskId, a: WorkerStep)
    requires WorkerEnabled(s, id, a)
    ensures var t := s.tasks[id]; var w := t.place.worker;
            var was, now := FootprintOf(s, t.job), FootprintOf(ApplyWorker(s, id, a), t.job);
            match a
            case TryAcquire =>
              var granted := was.lock == None || was.lock == Some(t.job);
              now == was.(lock := if granted then Some(t.job) else was.lock,
                          copies := was.copies[id := At(w, if granted then Acquired else Refused)])
            case Requeue => now == was.(copies := was.copies[id := Timer(w)])
            case Claim(at) =>
              Claimed(was, now, id, w, if was.doc.Some? && was.doc.value.status == Pending then Looping(None) else Unclaimed)
            case DropDuplicate => now == was.(copies := was.copies[id := At(w, Releasing(true))])
            case Allocate(at) => was.doc.Some? && Numbered(was, now, id, w, was.doc.value.lastEventSeq + 1)
            case Insert =>
              now == was.(events := was.events + [t.place.pc.inflight.value], copies := was.copies[id := At(w, Looping(None))])
            case Finish(status, at, ok) => was.doc.Some? && ok ==> Ended(was, now, id, w, status)
            case Settle(copy) =>
              now == if t.place.pc == Returning(Done) then was.(copies := was.copies[id := At(w, Releasing(true))])
                     else was.(copies := was.copies[id := At(w, Releasing(false))][copy := Ready])
            case Release => Released(was, now, t.job, id)
            case _ => true
  {
    var t := s.tasks[id];
    var w := t.place.worker;
    match a
    case TryAcquire => CopiesPut(s, t.job, id, At(w, if CanAcquire(s.db, t.job) then Acquired else Refused));
    case Requeue => CopiesPut(s, t.job, id, Timer(w));
    case Claim(at) => CopiesPut(s, t.job, id, At(w, if IsStatus(s.db, t.job, Pending) then Looping(None) else Unclaimed));
    case DropDuplicate => CopiesPut(s, t.job, id, At(w, Releasing(true)));
    case Allocate(at) => CopiesPut(s, t.job, id, At(w, Looping(Some(s.db.runs[t.job].lastEventSeq + 1))));
    case Insert =>
      CopiesPut(s, t.job, id, At(w, Looping(None)));
      EventsAppend(s.db.log, t.job, t.place.pc.inflight.value);
    case Finish(status, at, ok) => if ok { CopiesPut(s, t.job, id, At(w, Returning(status))); }
    case Settle(copy) =>
      CopiesPut(s, t.job, id, At(w, Releasing(t.place.pc == Returning(Done))));
      if t.place.pc != Returning(Done) {
        CopiesAdd(Goto(s, id, Releasing(false)), t.job, copy);
      }
    case Release => CopiesDrop(s, t.job, id);
    case _ =>
  }

  // The lock is granted exactly on a free thread or to its holder.
  predicate LockAnswered(was: Footprint, now: Footprint, j: Job, id: TaskId, w: WorkerId, acquired: bool) {
    && (acquired <==> was.lock == None || was.lock == Some(j))
    && now == was.(lock := if acquired then Some(j) else was.lock,
                   copies := was.copies[id := At(w, if acquired then Acquired else Refused)])
  }

  lemma AnsweredAfterDelivery(was: Footprint, mid: Footprint, now: Footprint, j: Job, id: TaskId, w: WorkerId, acquired: bool)
    requires mid == was.(copies := was.copies[id := At(w, Start)]) && LockAnswered(mid, now, j, id, w, acquired)
    ensures LockAnswered(was, now, j, id, w, acquired)
  {
    var p := At(w, if acquired then Acquired else Refused);
    assert was.copies[id := At(w, Start)][id := p] == was.copies[id := p];
  }

  // A pending run is now running under worker w, and its handler inside the loop.
  predicate Claimed(was: Footprint, now: Footprint, id: TaskId, w: WorkerId, pc: Pc) {
    if was.doc.Some? && was.doc.value.status == Pending then
      && pc == Looping(None) && now.doc.Some?
      && now.doc.value == RunDoc(Running, was.doc.value.lastEventSeq, now.doc.value.updatedAt, Some(w))
      && now == was.(doc := now.doc, copies := was.copies[id := At(w, pc)])
    else
      pc == Unclaimed && now == was.(copies := was.copies[id := At(w, pc)])
  }

  predicate Numbered(was: Footprint, now: Footprint, id: TaskId, w: WorkerId, n: nat) {
    && was.doc.Some? && now.doc.Some? && n == was.doc.value.lastEventSeq + 1
    && now.doc.value == was.doc.value.(lastEventSeq := n, updatedAt := now.doc.value.updatedAt)
    && now == was.(doc := now.doc, copies := was.copies[id := At(w, Looping(Some(n)))])
  }

  predicate Ended(was: Footprint, now: Footprint, id: TaskId, w: WorkerId, status: Status) {
    && was.doc.Some? && now.doc.Some?
    && now.doc.value == was.doc.value.(status := status, updatedAt := now.doc.value.updatedAt)
    && now == was.(doc := now.doc, copies := was.copies[id := At(w, Returning(status))])
  }

  function Numbers(low: nat, k: nat): seq<nat> {
    seq(k, i => low + 1 + i)
  }

  // k more events, numbered on from the counter.
  predicate Emitted(was: Footprint, now: Footprint, id: TaskId, w: WorkerId, k: nat) {
    && was.doc.Some? && now.doc.Some? && id in was.copies && was.copies[id] == At(w, Looping(None))
    && now.doc.value == was.doc.value.(lastEventSeq := was.doc.value.lastEventSeq + k, updatedAt := now.doc.value.updatedAt)
    && now == was.(doc := now.doc, events := was.events + Numbers(was.doc.value.lastEventSeq, k))
  }

  lemma EmittedOneMore(was: Footprint, mid: Footprint, now: Footprint, id: TaskId, w: WorkerId, k: nat)
    requires Emitted(was, mid, id, w, k) && Emitted(mid, now, id, w, 1)
    ensures Emitted(was, now, id, w, k + 1)
  {
    var n := was.doc.value.lastEventSeq;
    assert Numbers(n, k) + Numbers(n + k, 1) == Numbers(n, k + 1);
  }

  lemma EmittedOnce(was: Footprint, mid: Footprint, now: Footprint, id: TaskId, w: WorkerId, n: nat)
    requires id in was.copies && was.copies[id] == At(w, Looping(None)) && Numbered(was, mid, id, w, n)
    requires now == mid.(events := mid.events + [n], copies := mid.copies[id := At(w, Looping(None))])
    ensures Emitted(was, now, id, w, 1)
  {
    assert Numbers(was.doc.value.lastEventSeq, 1) == [n];
    assert was.copies[id := At(w, Looping(Some(n)))][id := At(w, Looping(None))] == was.copies;
  }

  // The loop ran: k events, and the status.
  predicate Executed(was: Footprint, now: Footprint, id: TaskId, w: WorkerId, k: nat, status: Status) {
    && was.doc.Some? && now.doc.Some?
    && now.doc.value == was.doc.value.(status := status, lastEventSeq := was.doc.value.lastEventSeq + k, updatedAt := now.doc.value.updatedAt)
    && now == was.(doc := now.doc, events := was.events + Numbers(was.doc.value.lastEventSeq, k),
                   copies := was.copies[id := At(w, Returning(status))])
  }

  predicate Attempted(was: Footprint, now: Footprint, id: TaskId, w: WorkerId, c: Course, pc: Pc) {
    if was.doc.Some? && was.doc.value.status == Pending then
      && c.ending.Returns? && pc == Returning(c.ending.status)
      && Executed(was.(doc := Some(was.doc.value.(claimedBy := Some(w)))), now, id, w, |c.loop|, c.ending.status)
    else
      pc == Unclaimed && now == was.(copies := was.copies[id := At(w, pc)])
  }

  lemma ClaimedAndExecuted(was: Footprint, claimed: Footprint, now: Footprint, id: TaskId, w: WorkerId, c: Course)
    requires Claimed(was, claimed, id, w, Looping(None)) && c.ending.Returns?
    requires Executed(claimed, now, id, w, |c.loop|, c.ending.status)
    ensures Attempted(was, now, id, w, c, Returning(c.ending.status))
  {
    var p := At(w, Returning(c.ending.status));
    assert was.copies[id := At(w, Looping(None))][id := p] == was.copies[id := p];
  }

  // Acked, with no copy left but the handler itself, or put back as exactly one new ready copy.
  ghost predicate Settled(was: Footprint, now: Footprint, id: TaskId, w: WorkerId, pc: Pc) {
    if pc == Unclaimed || pc == Returning(Done) then
      now == was.(copies := was.copies[id := At(w, Releasing(true))])
    else
      exists copy :: copy !in was.copies && now == was.(copies := was.copies[id := At(w, Releasing(false))][copy := Ready])
  }

  lemma NewCopySettles(was: Footprint, now: Footprint, id: TaskId, w: WorkerId, pc: Pc, copy: TaskId)
    requires copy !in was.copies && pc != Unclaimed && pc != Returning(Done)
    requires now == was.(copies := was.copies[id := At(w, Releasing(false))][copy := Ready])
    ensures Settled(was, now, id, w, pc)
  {
  }

  // The lock is gone, if the run held it, and so is the handler.
  predicate Released(was: Footprint, now: Footprint, j: Job, id: TaskId) {
    now == was.(lock := if was.lock == Some(j) then None else was.lock, copies := was.copies - {id}, lost := was.lost - {id})
  }

  // After a granted lock: a pending run was claimed by w, executed and given the loop's status, and its
  // message is gone exactly if that is done, else one new copy is ready; any other run is as it was, its
  // message gone. The thread is free.
  ghost predicate Processed(was: Footprint, now: Footprint, id: TaskId, w: WorkerId, c: Course) {
    if was.doc.Some? && was.doc.value.status == Pending then
      var n := was.doc.value.lastEventSeq;
      && c.ending.Returns? && now.doc.Some?
      && now.doc.value == RunDoc(c.ending.status, n + |c.loop|, now.doc.value.updatedAt, Some(w))
      && now == was.(doc := now.doc, lock := None, events := was.events + Numbers(n, |c.loop|), copies := now.copies)
      && if c.ending.status == Done then now.copies == was.copies - {id}
         else exists copy :: copy !in was.copies && now.copies == (was.copies - {id})[copy := Ready]
    else
      now == was.(lock := None, copies := was.copies - {id})
  }

  // The same from a ready message; a busy thread leaves an armed timer instead.
  ghost predicate Served(was: Footprint, now: Footprint, j: Job, id: TaskId, w: WorkerId, c: Course) {
    if was.lock == None || was.lock == Some(j) then Processed(was, now, id, w, c)
    else now == was.(copies := was.copies[id := Timer(w)])
  }

  lemma Compose(was: Footprint, attempted: Footprint, settled: Footprint, now: Footprint,
                j: Job, id: TaskId, w: WorkerId, c: Course, pc: Pc)
    requires was.lock == Some(j) && id in was.copies && id !in was.lost
    requires Attempted(was, attempted, id, w, c, pc) && Settled(attempted, settled, id, w, pc) && Released(settled, now, j, id)
    ensures Processed(was, now, id, w, c)
  {
    assert was.lost - {id} == was.lost;
    if pc == Unclaimed || pc == Returning(Done) {
      assert now.copies == was.copies - {id};
    } else {
      var copy :| copy !in attempted.copies
                  && settled == attempted.(copies := attempted.copies[id := At(w, Releasing(false))][copy := Ready]);
      assert copy !in was.copies && now.copies == (was.copies - {id})[copy := Ready];
    }
  }

  lemma ServedEitherWay(was: Footprint, received: Footprint, now: Footprint, j: Job, id: TaskId, w: WorkerId, c: Course, acquired: bool)
    requires id in was.copies
    requires LockAnswered(was, received, j, id, w, acquired)
    requires if acquired then Processed(received, now, id, w, c)
             else now == received.(copies := received.copies[id := Timer(w)])
    ensures Served(was, now, j, id, w, c)
  {
    assert received.copies - {id} == was.copies - {id};
    assert !acquired ==> received.copies[id := Timer(w)] == was.copies[id := Timer(w)];
    assert forall k :: k in received.copies <==> k in was.copies;
  }

  // A handler's run has a document, and the number it holds is free.
  lemma ExplainedHandler(steps: seq<Step>, s: State, id: TaskId)
    requires Explains(steps, s) && IsAt(s, id)
    ensures s.tasks[id].job in s.db.runs
    ensures var pc := s.tasks[id].place.pc;
            pc.Looping? && pc.inflight.Some? ==> Event(s.tasks[id].job, pc.inflight.value) !in s.db.log
  {
    var states :| Behavior(states, steps) && states[|steps|] == s;
    AlwaysRegistered(states, steps, |steps|);
    Sequence.NumbersNeverCollide(states, steps, |steps|, id);
  }

  // ---------- the same for requests and reapers ----------

  // One more ready message, and nothing else.
  ghost predicate Reappears(was: Footprint, now: Footprint) {
    exists copy :: copy !in was.copies && now == was.(copies := was.copies[copy := Ready])
  }

  lemma AppearsAs(was: Footprint, now: Footprint, copy: TaskId)
    requires copy !in was.copies && now == was.(copies := was.copies[copy := Ready])
    ensures Reappears(was, now)
  {
  }

  lemma CopiesElsewhere(s: State, j: Job, k: Job, copy: TaskId)
    requires Unused(s, copy) && j != k
    ensures FootprintOf(AddCopy(s, copy, j), k) == FootprintOf(s, k)
  {
    assert CopiesOf(AddCopy(s, copy, j).tasks, k) == CopiesOf(s.tasks, k);
  }

  // What a POST leaves: on a free id and with no throw, a fresh pending run with one message.
  ghost predicate Posted(was: Footprint, now: Footprint, insert: Answer, publishThrows: bool, reply: Reply) {
    if insert == Throws(false) || was.doc.Some? then reply == Unavailable(false) && now == was
    else
      && now.doc.Some? && now.doc.value == RunDoc(Pending, 0, now.doc.value.updatedAt, None)
      && if insert.Throws? || publishThrows
         then reply == Unavailable(true) && now == was.(doc := now.doc, unpublished := true)
         else reply == Accepted && Reappears(was.(doc := now.doc, unpublished := false), now)
  }

  predicate MarkedCancelled(was: Footprint, now: Footprint) {
    && was.doc.Some? && now.doc.Some?
    && now == was.(doc := Some(was.doc.value.(status := Cancelled, updatedAt := now.doc.value.updatedAt)))
  }

  predicate CancelledAs(was: Footprint, now: Footprint, reply: Reply) {
    if was.doc.None? then reply == NotFound && now == was
    else if was.doc.value.status.Terminal() then reply == Conflict && now == was
    else reply == CancelDone && MarkedCancelled(was, now)
  }

  // Which operation on a stale run throws. One that takes effect and throws is like the next one throwing.
  datatype Trouble = AtReset | AtUnlock | AtRepublish

  predicate StaleDoc(doc: Option<RunDoc>, cutoff: int) {
    doc.Some? && doc.value.status == Running && doc.value.updatedAt < cutoff
  }

  predicate WasReset(was: Footprint, now: Footprint) {
    && was.doc.Some? && now.doc.Some?
    && now == was.(doc := Some(RunDoc(Pending, was.doc.value.lastEventSeq, now.doc.value.updatedAt, None)))
  }

  // Another run's lock may be gone, nothing else.
  predicate Aside(was: Footprint, now: Footprint, j: Job) {
    now == was.(lock := now.lock) && (now.lock == was.lock || (was.lock == Some(j) && now.lock == None))
  }

  ghost predicate Republished(was: Footprint, now: Footprint, j: Job) {
    now.lock != Some(j) && Reappears(was.(lock := now.lock), now)
  }

  lemma RepublishedFrom(was: Footprint, mid: Footprint, now: Footprint, j: Job)
    requires Aside(was, mid, j) && mid.lock != Some(j) && Reappears(mid, now)
    ensures Republished(was, now, j)
  {
    var copy :| copy !in mid.copies && now == mid.(copies := mid.copies[copy := Ready]);
    AppearsAs(was.(lock := now.lock), now, copy);
  }

  // Pending again, with nobody's claim on it, without its lock and with one more ready message.
  ghost predicate Recovered(was: Footprint, now: Footprint, j: Job) {
    && was.doc.Some? && now.doc.Some? && now.lock != Some(j)
    && now.doc.value == RunDoc(Pending, was.doc.value.lastEventSeq, now.doc.value.updatedAt, None)
    && Reappears(was.(doc := now.doc, lock := now.lock), now)
  }

  lemma RecoveredFrom(was: Footprint, mid: Footprint, now: Footprint, j: Job)
    requires WasReset(was, mid) && Republished(mid, now, j)
    ensures Recovered(was, now, j)
  {
    var copy :| copy !in mid.copies && now == mid.(lock := now.lock, copies := mid.copies[copy := Ready]);
    AppearsAs(was.(doc := now.doc, lock := now.lock), now, copy);
  }

  // What was recovered stays so when another run's lock goes.
  lemma RecoveredStays(was: Footprint, mid: Footprint, now: Footprint, k: Job, j: Job)
    requires Recovered(was, mid, k) && Aside(mid, now, j)
    ensures Recovered(was, now, k)
  {
    var copy :| copy !in was.copies && mid == was.(doc := mid.doc, lock := mid.lock, copies := was.copies[copy := Ready]);
    AppearsAs(was.(doc := now.doc, lock := now.lock), now, copy);
  }

  // A run whose lock another one's recovery may have taken is recovered no less.
  lemma RecoveredLate(was: Footprint, mid: Footprint, now: Footprint, j: Job)
    requires mid == was.(lock := mid.lock) && Recovered(mid, now, j)
    ensures Recovered(was, now, j)
  {
    var copy :| copy !in mid.copies && now == mid.(doc := now.doc, lock := now.lock, copies := mid.copies[copy := Ready]);
    AppearsAs(was.(doc := now.doc, lock := now.lock), now, copy);
  }

  // The runs of the scan that are not yet to do are recovered, the others as they were.
  ghost predicate Underway(start: State, now: State, stale: set<Job>, todo: set<Job>) {
    && (forall k :: k in todo ==> FootprintOf(now, k) == FootprintOf(start, k).(lock := FootprintOf(now, k).lock))
    && (forall k :: k in stale && k !in todo ==> Recovered(FootprintOf(start, k), FootprintOf(now, k), k))
  }

  ghost predicate SameFootprints(s: State, s': State) {
    forall j :: FootprintOf(s', j) == FootprintOf(s, j)
  }

  ghost predicate AllRecovered(start: State, now: State, stale: set<Job>) {
    forall j :: j in stale ==> Recovered(FootprintOf(start, j), FootprintOf(now, j), j)
  }

  lemma PassDone(scanned: State, done: State, now: State, stale: set<Job>)
    requires Underway(scanned, done, stale, {}) && SameFootprints(done, now)
    ensures AllRecovered(scanned, now, stale)
  {
  }

  lemma RecoveredSince(start: State, scanned: State, now: State, stale: set<Job>)
    requires SameFootprints(start, scanned) && AllRecovered(scanned, now, stale)
    ensures AllRecovered(start, now, stale)
  {
  }

  // The pass has one run fewer to go.
  lemma OneFewer(start: State, before: State, after: State, stale: set<Job>, todo: set<Job>, j: Job)
    requires j in todo && todo <= stale && Recovered(FootprintOf(before, j), FootprintOf(after, j), j)
    requires Underway(start, before, stale, todo)
    requires forall k :: k in stale && k != j ==> Aside(FootprintOf(before, k), FootprintOf(after, k), j)
    ensures Underway(start, after, stale, todo - {j})
  {
    forall k | k in stale && k !in todo - {j}
      ensures Recovered(FootprintOf(start, k), FootprintOf(after, k), k)
    {
      if k == j {
        RecoveredLate(FootprintOf(start, j), FootprintOf(before, j), FootprintOf(after, j), j);
      } else {
        RecoveredStays(FootprintOf(start, k), FootprintOf(before, k), FootprintOf(after, k), k, j);
      }
    }
  }

  class System {
    const mongo: Collections
    const leaseTtl: nat
    var clock: int
    var unpublished: set<Job>
    var cancels: multiset<Job>
    var tasks: map<TaskId, Task>
    var reapers: map<ReaperId, Reaper>
    var returned: set<TaskId>
    var nextCopy: TaskId
    ghost var steps: seq<Step>

    constructor (ttl: nat, now: int)
      ensures Valid() && fresh(mongo) && Init(View()) && steps == []
    {
      mongo := new Collections();
      leaseTtl, clock := ttl, now;
      unpublished, cancels, tasks, reapers, returned := {}, multiset{}, map[], map[], {};
      nextCopy := 0;
      new;
      steps := [];
      assert Behavior([View()], []);
    }

    function View(): State
      reads this, mongo
    {
      State(clock, leaseTtl, mongo.View(), unpublished, cancels, tasks, reapers, returned)
    }

    // The recorded steps explain the present state, and the next message id is unused.
    ghost predicate Valid()
      reads this, mongo
    {
      Explains(steps, View()) && forall k :: k in tasks || k in returned ==> k < nextCopy
    }

    // The present state is `before` after `step`: note the step.
    ghost method Record(before: State, step: Step)
      requires Explains(steps, before) && Enabled(before, step) && View() == Apply(before, step)
      modifies this`steps
      ensures Explains(steps, View()) && steps == old(steps) + [step] && steps[..|steps| - 1] == old(steps)
    {
      ExplainMore(steps, before, step);
      steps := steps + [step];
    }

    // Some other process performs one step.
    method Perform(step: Step)
      requires Valid() && Enabled(View(), step)
      modifies this, mongo
      ensures Valid() && View() == Apply(old(View()), step)
      ensures steps == old(steps) + [step] && steps[..|steps| - 1] == old(steps)
    {
      var s := Apply(View(), step);
      StepFrame(View(), step);
      Install(s);
      if CopyOf(step).Some? && nextCopy <= CopyOf(step).value {
        nextCopy := CopyOf(step).value + 1;
      }
      Record(old(View()), step);
    }

    method Install(s: State)
      requires s.leaseTtl == leaseTtl
      modifies this`clock, this`unpublished, this`cancels, this`tasks, this`reapers, this`returned, mongo
      ensures View() == s
    {
      mongo.runs, mongo.locks, mongo.log := s.db.runs, s.db.locks, s.db.log;
      clock, unpublished, cancels := s.clock, s.unpublished, s.cancels;
      tasks, reapers, returned := s.tasks, s.reapers, s.returned;
    }

    // Everything the store and the queue hold about run j and the lock of its thread.
    ghost function Of(j: Job): Footprint
      reads this, mongo
    {
      FootprintOf(View(), j)
    }

    // An await: any number of foreign steps, none of which touches a spared run.
    method Others(me: Actor, spared: set<Job>)
      requires Valid() && (me.Handler? ==> me.id in tasks && tasks[me.id].place.At?)
      modifies this, mongo
      ensures Valid() && Spares(old(View()), View(), spared) && Awaited(me)
    {
      var n: nat := *;
      while n > 0
        invariant Valid() && Spares(old(View()), View(), spared) && Awaited(me)
      {
        var step: Step := *;
        if Enabled(View(), step) && Foreign(View(), step, me) && Spares(View(), Apply(View(), step), spared) {
          ForeignStep(View(), step, me);
          StepFrame(View(), step);
          Perform(step);
        }
        n := n - 1;
      }
    }

    // What this actor was about is still there, and the others took none of its steps.
    twostate predicate Awaited(me: Actor)
      reads this, mongo
    {
      && clock >= old(clock) && old(steps) <= steps
      && match me
         case Handler(id) =>
           && (id in old(tasks) ==> id in tasks && tasks[id] == old(tasks)[id])
           && Settlements(steps, id) == Settlements(old(steps), id) && Releases(steps, id) == Releases(old(steps), id)
         case Collector(r) =>
           && (r in old(reapers) ==> r in reapers && reapers[r] == old(reapers)[r])
           && Republishes(steps, r) == Republishes(old(steps), r)
         case Poster(j) => (j in old(unpublished) ==> j in unpublished) && Publishes(steps, j) == Publishes(old(steps), j)
         case Canceler(j) => (j in old(cancels) ==> j in cancels) && (j in old(mongo.runs) ==> j in mongo.runs)
    }

    // ---------- worker.ts: one consumed message ----------

    // Message id, for job j, is at this point of worker w's handler.
    ghost predicate Handling(id: TaskId, j: Job, w: WorkerId, pc: Pc)
      reads this, mongo
    {
      Valid() && id in tasks && tasks[id] == Task(j, At(w, pc))
    }

    // The history only grew; in the new part message id was settled and its lock released
    // this often; and the last step is this one of id's handler.
    twostate predicate Since(id: TaskId, settled: nat, released: nat, act: WorkerStep)
      reads this
    {
      && old(steps) <= steps && steps != [] && steps[|steps| - 1] == Worker(id, act)
      && Settlements(steps, id) == Settlements(old(steps), id) + settled
      && Releases(steps, id) == Releases(old(steps), id) + released
    }

    // The last step was id's own.
    ghost function Last(): WorkerStep
      reads this
    {
      if steps != [] && steps[|steps| - 1].Worker? then steps[|steps| - 1].act else TryAcquire
    }

    // Note a step of id's own handler.
    ghost method RecordOwn(before: State, id: TaskId, act: WorkerStep)
      requires Explains(steps, before) && WorkerEnabled(before, id, act) && View() == ApplyWorker(before, id, act)
      modifies this`steps
      ensures Explains(steps, View())
      ensures Since(id, if Settles(Worker(id, act), id) then 1 else 0, if FreesLock(Worker(id, act), id) then 1 else 0, act)
    {
      Record(before, Worker(id, act));
    }

    // Each method below is one await followed by one atomic operation.

    // The lock request lies outside the try block: if it throws, with or without its effect, the
    // process dies of the exception.
    method TryAcquireThread(id: TaskId, ghost j: Job, ghost w: WorkerId, answer: Answer, spared: set<Job>)
      returns (acquired: bool, died: bool)
      requires Handling(id, j, w, Start)
      modifies this, mongo
      ensures died <==> answer.Throws?
      ensures died ==> Died(id, w)
      ensures !died ==> Handling(id, j, w, if acquired then Acquired else Refused) && Since(id, 0, 0, TryAcquire)
      ensures !died && j in spared ==> LockAnswered(old(Of(j)), Of(j), j, id, w, acquired)
    {
      Others(Handler(id), spared);
      acquired, died := false, answer.Throws?;
      if answer != Throws(false) {
        acquired := AcquireNow(id, j, w);
      }
      if died {
        Die(id, w);
      }
    }

    method AcquireNow(id: TaskId, ghost j: Job, ghost w: WorkerId) returns (acquired: bool)
      requires Handling(id, j, w, Start)
      modifies this, mongo
      ensures Handling(id, j, w, if acquired then Acquired else Refused) && Since(id, 0, 0, TryAcquire)
      ensures LockAnswered(old(Of(j)), Of(j), j, id, w, acquired)
    {
      ghost var before := View();
      acquired := mongo.TryAcquireThread(tasks[id].job);
      tasks := tasks[id := Task(tasks[id].job, At(tasks[id].place.worker, if acquired then Acquired else Refused))];
      OwnFootprint(before, id, TryAcquire);
      RecordOwn(before, id, TryAcquire);
    }

    // The process of handler id dies of an exception that nothing catches.
    method Die(id: TaskId, ghost w: WorkerId)
      requires Valid() && id in tasks && tasks[id].place.At? && tasks[id].place.worker == w
      modifies this, mongo
      ensures Died(id, w) && (id in old(returned) ==> id !in tasks) && returned == old(returned)
    {
      Perform(Broker(Crash(tasks[id].place.worker)));
    }

    // The last step was the crash of worker w; its handler settled and released nothing, and its
    // message, if the broker did not have it back already, is ready again.
    twostate predicate Died(id: TaskId, w: WorkerId)
      reads this, mongo
    {
      && Valid() && old(steps) <= steps && steps != [] && steps[|steps| - 1] == Broker(Crash(w))
      && Settlements(steps, id) == Settlements(old(steps), id) && Releases(steps, id) == Releases(old(steps), id)
      && (id in tasks ==> tasks[id].place.Ready?)
    }

    // Ack the message and arm the 250 ms republish. If the broker has taken the message back the ack
    // throws, outside the try block, before anything is armed.
    method Requeue(id: TaskId, ghost j: Job, ghost w: WorkerId, spared: set<Job>) returns (died: bool)
      requires Handling(id, j, w, Refused)
      modifies this, mongo
      ensures died <==> id in returned
      ensures died ==> Died(id, w) && id !in tasks
      ensures !died ==> Valid() && id in tasks && tasks[id] == Task(j, Timer(w)) && Since(id, 1, 0, WorkerStep.Requeue)
      ensures j in spared && id !in old(returned) ==>
                !died && Of(j) == old(Of(j)).(copies := old(Of(j)).copies[id := Timer(w)])
    {
      ghost var start := View();
      Others(Handler(id), spared);
      LostInFootprint(start, j, id);
      LostInFootprint(View(), j, id);
      died := id in returned;
      if died {
        Die(id, w);
      } else {
        Rearm(id, j, w);
      }
    }

    method Rearm(id: TaskId, ghost j: Job, ghost w: WorkerId)
      requires Handling(id, j, w, Refused) && id !in returned
      modifies this, mongo
      ensures Valid() && id in tasks && tasks[id] == Task(j, Timer(w)) && Since(id, 1, 0, WorkerStep.Requeue)
      ensures Of(j) == old(Of(j)).(copies := old(Of(j)).copies[id := Timer(w)]) && returned == old(returned)
    {
      ghost var before := View();
      tasks := tasks[id := tasks[id].(place := Timer(tasks[id].place.worker))];
      OwnFootprint(before, id, WorkerStep.Requeue);
      RecordOwn(before, id, WorkerStep.Requeue);
    }

    method ClaimRun(id: TaskId, ghost j: Job, ghost w: WorkerId, answer: Answer, spared: set<Job>) returns (pc: Pc)
      requires Handling(id, j, w, Acquired)
      modifies this, mongo
      ensures pc in {Looping(None), Unclaimed, Nacking} && Handling(id, j, w, pc)
      ensures pc == Nacking <==> answer.Throws?
      ensures (Last().Claim? || Last().ClaimThrows?) && Since(id, 0, 0, Last())
      ensures j in spared && answer.Answered? ==> Claimed(old(Of(j)), Of(j), id, w, pc)
    {
      var now := clock;
      Others(Handler(id), spared);
      pc := ClaimNow(id, j, w, now, answer);
    }

    // The claim may throw, before or after taking effect.
    method ClaimNow(id: TaskId, ghost j: Job, ghost w: WorkerId, now: int, answer: Answer) returns (pc: Pc)
      requires Handling(id, j, w, Acquired) && now <= clock
      modifies this, mongo
      ensures pc in {Looping(None), Unclaimed, Nacking} && Handling(id, j, w, pc)
      ensures pc == Nacking <==> answer.Throws?
      ensures answer.Answered? ==> Claimed(old(Of(j)), Of(j), id, w, pc)
      ensures (Last().Claim? || Last().ClaimThrows?) && Since(id, 0, 0, Last())
    {
      if answer == Throws(false) {
        pc := Nacking;
        LoseClaim(id, j, w, now);
      } else {
        pc := ClaimSent(id, j, w, now, answer.Throws?);
      }
    }

    method ClaimSent(id: TaskId, ghost j: Job, ghost w: WorkerId, now: int, throws: bool) returns (pc: Pc)
      requires Handling(id, j, w, Acquired) && now <= clock
      modifies this, mongo
      ensures pc in {Looping(None), Unclaimed, Nacking} && Handling(id, j, w, pc)
      ensures pc == Nacking <==> throws
      ensures !throws ==> Claimed(old(Of(j)), Of(j), id, w, pc)
      ensures (Last().Claim? || Last().ClaimThrows?) && Since(id, 0, 0, Last())
    {
      ghost var before := View();
      ghost var act := if throws then ClaimThrows(true, now) else Claim(now);
      var claimed := mongo.ClaimRun(tasks[id].job, tasks[id].place.worker, now);
      pc := if throws then Nacking else if claimed then Looping(None) else Unclaimed;
      tasks := tasks[id := Task(tasks[id].job, At(tasks[id].place.worker, pc))];
      OwnFootprint(before, id, act);
      RecordOwn(before, id, act);
    }

    // The claim throws without effect.
    method LoseClaim(id: TaskId, ghost j: Job, ghost w: WorkerId, now: int)
      requires Handling(id, j, w, Acquired) && now <= clock
      modifies this, mongo
      ensures Handling(id, j, w, Nacking) && mongo.View() == old(mongo.View())
      ensures Last().ClaimThrows? && Since(id, 0, 0, Last())
    {
      tasks := tasks[id := Task(tasks[id].job, At(tasks[id].place.worker, Nacking))];
      RecordOwn(old(View()), id, ClaimThrows(false, now));
    }

    // First half of emitEvent. None: the operation threw, though it took the number.
    method AllocateSeq(id: TaskId, ghost j: Job, ghost w: WorkerId, throws: bool, spared: set<Job>) returns (n: Option<nat>)
      requires Handling(id, j, w, Looping(None))
      modifies this, mongo
      ensures Handling(id, j, w, Looping(n)) && (n.None? <==> throws)
      ensures (if n.Some? then Last().Allocate? else Last().AllocateThrows?) && Since(id, 0, 0, Last())
      ensures j in spared && n.Some? ==> Numbered(old(Of(j)), Of(j), id, w, n.value)
    {
      var now := clock;
      Others(Handler(id), spared);
      n := AllocateNow(id, j, w, now, throws);
    }

    method AllocateNow(id: TaskId, ghost j: Job, ghost w: WorkerId, now: int, throws: bool) returns (n: Option<nat>)
      requires Handling(id, j, w, Looping(None)) && now <= clock
      modifies this, mongo
      ensures Handling(id, j, w, Looping(n)) && (n.None? <==> throws)
      ensures (if n.Some? then Last().Allocate? else Last().AllocateThrows?) && Since(id, 0, 0, Last())
      ensures n.Some? ==> Numbered(old(Of(j)), Of(j), id, w, n.value)
      ensures j in mongo.runs && mongo.runs[j].updatedAt == now
    {
      ghost var before := View();
      ExplainedHandler(steps, before, id);
      n := mongo.AllocateSeq(tasks[id].job, now);
      if throws {
        n := None;
        RecordOwn(before, id, AllocateThrows(now));
      } else {
        Hold(id, j, w, n.value, now, before);
      }
    }

    // The answer arrived: the handler holds the number it took.
    method Hold(id: TaskId, ghost j: Job, ghost w: WorkerId, n: nat, ghost now: int, ghost before: State)
      requires Explains(steps, before) && WorkerEnabled(before, id, Allocate(now)) && before.tasks == tasks
      requires id in tasks && tasks[id] == Task(j, At(w, Looping(None)))
      requires forall k :: k in tasks || k in returned ==> k < nextCopy
      requires View() == before.(db := Store.AllocateSeq(before.db, j, now)) && n == before.db.runs[j].lastEventSeq + 1
      modifies this`tasks, this`steps
      ensures Handling(id, j, w, Looping(Some(n)))
      ensures Last().Allocate? && Since(id, 0, 0, Last())
      ensures Numbered(FootprintOf(before, j), Of(j), id, w, n)
    {
      tasks := tasks[id := Task(tasks[id].job, At(tasks[id].place.worker, Looping(Some(n))))];
      OwnFootprint(before, id, Allocate(now));
      RecordOwn(before, id, Allocate(now));
    }

    // Second half. Not ok: the operation threw, perhaps after storing the event. The unique index never
    // rejects the number.
    method InsertEvent(id: TaskId, ghost j: Job, ghost w: WorkerId, n: nat, answer: Answer, spared: set<Job>)
      returns (ok: bool, stored: bool)
      requires Handling(id, j, w, Looping(Some(n)))
      modifies this, mongo
      ensures Handling(id, j, w, Looping(None)) && (ok <==> answer.Answered?) && (stored <==> answer != Throws(false))
      ensures Since(id, 0, 0, if stored then Insert else InsertThrows)
      ensures j in spared && stored ==>
                Of(j) == old(Of(j)).(events := old(Of(j)).events + [n], copies := old(Of(j)).copies[id := At(w, Looping(None))])
    {
      Others(Handler(id), spared);
      ok, stored := answer.Answered?, answer != Throws(false);
      InsertNow(id, j, w, n, stored);
    }

    method InsertNow(id: TaskId, ghost j: Job, ghost w: WorkerId, n: nat, sent: bool)
      requires Handling(id, j, w, Looping(Some(n)))
      modifies this, mongo
      ensures Handling(id, j, w, Looping(None)) && Since(id, 0, 0, if sent then Insert else InsertThrows)
      ensures sent ==>
                Of(j) == old(Of(j)).(events := old(Of(j)).events + [n], copies := old(Of(j)).copies[id := At(w, Looping(None))])
    {
      ghost var before := View();
      ExplainedHandler(steps, before, id);
      if sent {
        var stored := mongo.InsertEvent(tasks[id].job, n);
        assert stored;
      }
      tasks := tasks[id := Task(tasks[id].job, At(tasks[id].place.worker, Looping(None)))];
      OwnFootprint(before, id, if sent then Insert else InsertThrows);
      RecordOwn(before, id, if sent then Insert else InsertThrows);
    }

    // A status write that takes effect and then throws: runLoop goes on, in its catch block.
    method LoseStatus(id: TaskId, ghost j: Job, ghost w: WorkerId, status: FinalStatus, spared: set<Job>)
      requires Handling(id, j, w, Looping(None))
      modifies this, mongo
      ensures Handling(id, j, w, Looping(None)) && IsStatus(mongo.View(), j, status)
      ensures Last().Finish? && !Last().ok && Last().status == status && Since(id, 0, 0, Last())
    {
      var now := clock;
      Others(Handler(id), spared);
      ghost var before := View();
      ExplainedHandler(steps, before, id);
      mongo.FinishRun(tasks[id].job, status, now);
      RecordOwn(before, id, Finish(status, now, false));
    }

    // The last operation of runLoop: finishRun, or an exception that escapes it.
    method Return(id: TaskId, ghost j: Job, ghost w: WorkerId, ending: Ending, spared: set<Job>) returns (pc: Pc)
      requires Handling(id, j, w, Looping(None))
      modifies this, mongo
      ensures pc == (if ending.Escapes? then Nacking else Returning(ending.status)) && Handling(id, j, w, pc)
      ensures (if pc.Nacking? then Last().LoopThrows? else Last().Finish?) && Since(id, 0, 0, Last())
      ensures j in spared && ending.Returns? ==> Ended(old(Of(j)), Of(j), id, w, ending.status)
    {
      var now := clock;
      Others(Handler(id), spared);
      if ending.Escapes? {
        pc := Nacking;
        ghost var before := View();
        tasks := tasks[id := Task(tasks[id].job, At(tasks[id].place.worker, pc))];
        RecordOwn(before, id, LoopThrows);
      } else {
        pc := Returning(ending.status);
        FinishNow(id, j, w, ending.status, now);
      }
    }

    method FinishNow(id: TaskId, ghost j: Job, ghost w: WorkerId, status: FinalStatus, now: int)
      requires Handling(id, j, w, Looping(None)) && now <= clock
      modifies this, mongo
      ensures Handling(id, j, w, Returning(status)) && Last().Finish? && Since(id, 0, 0, Last())
      ensures Ended(old(Of(j)), Of(j), id, w, status)
    {
      ghost var before := View();
      ExplainedHandler(steps, before, id);
      mongo.FinishRun(tasks[id].job, status, now);
      tasks := tasks[id := Task(tasks[id].job, At(tasks[id].place.worker, Returning(status)))];
      OwnFootprint(before, id, Finish(status, now, true));
      RecordOwn(before, id, Finish(status, now, true));
    }

    // Ack a finished or unclaimable message; nack with requeue everything else. When the broker
    // has taken the message back, both throw and the handler goes on without it.
    method Settle(id: TaskId, ghost j: Job, ghost w: WorkerId, pc: Pc, spared: set<Job>) returns (acked: bool)
      requires Handling(id, j, w, pc) && (pc.Unclaimed? || pc.Returning? || pc.Nacking?)
      modifies this, mongo
      ensures Handling(id, j, w, Releasing(acked))
      ensures acked <==> pc == Unclaimed || pc == Returning(Done) || Last().SettleFails?
      ensures (Last().DropDuplicate? <==> pc.Unclaimed?) && Since(id, 1, 0, Last())
      ensures Last().DropDuplicate? || Last().Settle? || Last().SettleFails?
      ensures j in spared && id !in old(returned) ==> Settled(old(Of(j)), Of(j), id, w, pc)
    {
      ghost var start := View();
      Others(Handler(id), spared);
      LostInFootprint(start, j, id);
      LostInFootprint(View(), j, id);
      acked := pc == Unclaimed || pc == Returning(Done) || id in returned;
      if pc != Unclaimed && id in returned {
        SwallowNack(id, j, w, pc);
      } else if pc == Unclaimed || pc == Returning(Done) {
        Ack(id, j, w, pc);
      } else {
        Nack(id, j, w, pc);
      }
    }

    // The nack throws and is swallowed: no copy goes back, the broker has sent one already.
    method SwallowNack(id: TaskId, ghost j: Job, ghost w: WorkerId, pc: Pc)
      requires Handling(id, j, w, pc) && (pc.Returning? || pc.Nacking?) && id in returned
      modifies this, mongo
      ensures Handling(id, j, w, Releasing(true)) && Last().SettleFails? && Since(id, 1, 0, Last())
      ensures tasks == old(tasks)[id := Task(j, At(w, Releasing(true)))]
    {
      tasks := tasks[id := Task(tasks[id].job, At(tasks[id].place.worker, Releasing(true)))];
      RecordOwn(old(View()), id, SettleFails);
    }

    method Ack(id: TaskId, ghost j: Job, ghost w: WorkerId, pc: Pc)
      requires Handling(id, j, w, pc) && (pc == Unclaimed || (pc == Returning(Done) && id !in returned))
      modifies this, mongo
      ensures Handling(id, j, w, Releasing(true))
      ensures (if pc.Unclaimed? then Last().DropDuplicate? else Last().Settle?) && Since(id, 1, 0, Last())
      ensures Settled(old(Of(j)), Of(j), id, w, pc)
    {
      ghost var before, act := View(), if pc == Unclaimed then DropDuplicate else WorkerStep.Settle(nextCopy);
      tasks := tasks[id := Task(tasks[id].job, At(tasks[id].place.worker, Releasing(true)))];
      OwnFootprint(before, id, act);
      RecordOwn(before, id, act);
    }

    method Nack(id: TaskId, ghost j: Job, ghost w: WorkerId, pc: Pc)
      requires Handling(id, j, w, pc) && ((pc.Returning? && pc != Returning(Done)) || pc.Nacking?) && id !in returned
      modifies this, mongo
      ensures Handling(id, j, w, Releasing(false)) && Last().Settle? && Since(id, 1, 0, Last())
      ensures tasks == old(tasks)[id := Task(j, At(w, Releasing(false)))][old(nextCopy) := Task(j, Ready)]
      ensures Settled(old(Of(j)), Of(j), id, w, pc)
    {
      ghost var before, copy := View(), nextCopy;
      tasks := tasks[id := Task(tasks[id].job, At(tasks[id].place.worker, Releasing(false)))];
      tasks := tasks[nextCopy := Task(tasks[id].job, Ready)];
      nextCopy := nextCopy + 1;
      OwnFootprint(before, id, WorkerStep.Settle(copy));
      NewCopySettles(FootprintOf(before, j), Of(j), id, w, pc, copy);
      RecordOwn(before, id, WorkerStep.Settle(copy));
    }

    // The finally block. A failing release is swallowed.
    method ReleaseThread(id: TaskId, ghost j: Job, ghost w: WorkerId, ghost acked: bool, answer: Answer, spared: set<Job>)
      requires Handling(id, j, w, Releasing(acked))
      modifies this, mongo
      ensures Valid() && id !in tasks
      ensures Since(id, 0, 1, if answer == Throws(false) then ReleaseFails else Release)
      ensures j in spared && answer != Throws(false) ==> Released(old(Of(j)), Of(j), j, id)
    {
      Others(Handler(id), spared);
      ReleaseNow(id, j, w, acked, answer != Throws(false));
    }

    method ReleaseNow(id: TaskId, ghost j: Job, ghost w: WorkerId, ghost acked: bool, sent: bool)
      requires Handling(id, j, w, Releasing(acked))
      modifies this, mongo
      ensures Valid() && id !in tasks && Since(id, 0, 1, if sent then Release else ReleaseFails)
      ensures sent ==> Released(old(Of(j)), Of(j), j, id)
    {
      ghost var before := View();
      if sent {
        mongo.ReleaseThread(tasks[id].job);
      }
      tasks := tasks - {id};
      OwnFootprint(before, id, if sent then Release else ReleaseFails);
      RecordOwn(before, id, if sent then Release else ReleaseFails);
    }

    // One event. False: an exception reached runLoop.
    method EmitEvent(id: TaskId, ghost j: Job, ghost w: WorkerId, number: Answer, store: Answer, spared: set<Job>) returns (ok: bool)
      requires Handling(id, j, w, Looping(None))
      modifies this, mongo
      ensures Handling(id, j, w, Looping(None)) && old(steps) <= steps
      ensures ok <==> number.Answered? && store.Answered?
      ensures Settlements(steps, id) == Settlements(old(steps), id) && Releases(steps, id) == Releases(old(steps), id)
      ensures j in spared && ok ==> Emitted(old(Of(j)), Of(j), id, w, 1)
    {
      ghost var start := Of(j);
      ok := number.Answered?;
      if number == Throws(false) { return; }
      var n := AllocateSeq(id, j, w, !ok, spared);
      if ok {
        ghost var taken := Of(j);
        var stored: bool;
        ok, stored := InsertEvent(id, j, w, n.value, store, spared);
        if j in spared && ok {
          EmittedOnce(start, taken, Of(j), id, w, n.value);
        }
      }
    }

    // runLoop as the protocol sees it: events and status writes with a lost answer, at any point an
    // exception, at last a status.
    method RunLoop(id: TaskId, ghost j: Job, ghost w: WorkerId, loop: seq<LoopOp>, ending: Ending, spared: set<Job>) returns (pc: Pc)
      requires Handling(id, j, w, Looping(None))
      modifies this, mongo
      ensures pc == (if ending.Escapes? then Nacking else Returning(ending.status))
      ensures Handling(id, j, w, pc) && old(steps) <= steps
      ensures Settlements(steps, id) == Settlements(old(steps), id) && Releases(steps, id) == Releases(old(steps), id)
      ensures j in spared && SmoothLoop(loop) && ending.Returns? ==> Executed(old(Of(j)), Of(j), id, w, |loop|, ending.status)
    {
      ExplainedHandler(steps, View(), id);
      for i := 0 to |loop|
        invariant Handling(id, j, w, Looping(None)) && old(steps) <= steps
        invariant Settlements(steps, id) == Settlements(old(steps), id) && Releases(steps, id) == Releases(old(steps), id)
        invariant j in spared && SmoothLoop(loop) ==> Emitted(old(Of(j)), Of(j), id, w, i)
      {
        ghost var before := Of(j);
        match loop[i]
        case LosesStatus(status) => LoseStatus(id, j, w, status, spared);
        case Emits(number, store) =>
          var ok := EmitEvent(id, j, w, number, store, spared);
          if j in spared && SmoothLoop(loop) {
            EmittedOneMore(old(Of(j)), before, Of(j), id, w, i);
          }
      }
      pc := Return(id, j, w, ending, spared);
    }

    // The body of the try block.
    method Attempt(id: TaskId, ghost j: Job, ghost w: WorkerId, c: Course, spared: set<Job>) returns (pc: Pc)
      requires Handling(id, j, w, Acquired)
      modifies this, mongo
      ensures pc.Unclaimed? || pc.Returning? || pc.Nacking?
      ensures pc.Nacking? ==> c.claim.Throws? || c.ending.Escapes?
      ensures pc.Returning? ==> c.claim.Answered? && c.ending.Returns? && pc.status == c.ending.status
      ensures Handling(id, j, w, pc) && old(steps) <= steps
      ensures Settlements(steps, id) == Settlements(old(steps), id) && Releases(steps, id) == Releases(old(steps), id)
      ensures j in spared && Smooth(c) ==> Attempted(old(Of(j)), Of(j), id, w, c, pc)
    {
      ghost var start := Of(j);
      pc := ClaimRun(id, j, w, c.claim, spared);
      if pc == Looping(None) {
        ghost var claimed := Of(j);
        pc := RunLoop(id, j, w, c.loop, c.ending, spared);
        if j in spared && Smooth(c) {
          ClaimedAndExecuted(start, claimed, Of(j), id, w, c);
        }
      }
    }

    // What follows a successful acquire: try, settle, finally.
    method Process(id: TaskId, ghost j: Job, ghost w: WorkerId, c: Course, spared: set<Job>)
      requires Handling(id, j, w, Acquired)
      modifies this, mongo
      ensures Valid() && id !in tasks && old(steps) <= steps
      ensures Settlements(steps, id) == Settlements(old(steps), id) + 1
      ensures Releases(steps, id) == Releases(old(steps), id) + 1
      ensures j in spared && Smooth(c) && id !in old(returned) && old(Of(j)).lock == Some(j) ==>
                Processed(old(Of(j)), Of(j), id, w, c)
    {
      ghost var start := View();
      var pc := Attempt(id, j, w, c, spared);
      ghost var attempted := Of(j);
      LostInFootprint(start, j, id);
      LostInFootprint(View(), j, id);
      var acked := Settle(id, j, w, pc, spared);
      ghost var settled := Of(j);
      ReleaseThread(id, j, w, acked, c.release, spared);
      if j in spared && Smooth(c) && id !in start.returned && FootprintOf(start, j).lock == Some(j) {
        Compose(FootprintOf(start, j), attempted, settled, Of(j), j, id, w, c, pc);
      }
    }

    // Delivery up to the answer of the lock request.
    method Receive(id: TaskId, ghost j: Job, w: WorkerId, answer: Answer, spared: set<Job>) returns (acquired: bool, died: bool)
      requires Valid() && id in tasks && tasks[id] == Task(j, Ready)
      modifies this, mongo
      ensures died <==> answer.Throws?
      ensures died ==> Died(id, w)
      ensures !died ==> Handling(id, j, w, if acquired then Acquired else Refused) && old(steps) <= steps
      ensures Settlements(steps, id) == Settlements(old(steps), id) && Releases(steps, id) == Releases(old(steps), id)
      ensures !died && j in spared ==> LockAnswered(old(Of(j)), Of(j), j, id, w, acquired)
    {
      ghost var start := Of(j);
      DeliverNow(id, j, w);
      ghost var delivered := Of(j);
      acquired, died := TryAcquireThread(id, j, w, answer, spared);
      if !died && j in spared {
        AnsweredAfterDelivery(start, delivered, Of(j), j, id, w, acquired);
      }
    }

    method DeliverNow(id: TaskId, ghost j: Job, w: WorkerId)
      requires Valid() && id in tasks && tasks[id] == Task(j, Ready)
      modifies this, mongo
      ensures Handling(id, j, w, Start) && old(steps) <= steps
      ensures Settlements(steps, id) == Settlements(old(steps), id) && Releases(steps, id) == Releases(old(steps), id)
      ensures Of(j) == old(Of(j)).(copies := old(Of(j)).copies[id := At(w, Start)])
    {
      ghost var before := View();
      tasks := tasks[id := Task(tasks[id].job, At(w, Start))];
      CopiesPut(before, j, id, At(w, Start));
      Record(before, Broker(Deliver(id, w)));
    }

    /** The message handler. Whatever the other processes do at its awaits and whichever operations
        throw, its execution is a path of the step machine. Unless the process dies, which it does
        exactly by an exception outside the try block, the message is settled exactly once and, if the
        thread lock was obtained, the release reached exactly once, after which the handler is gone; a
        refused message is left in an armed timer. And if nothing throws and nobody else touches the run,
        the handler does its job: a pending run on a free thread is claimed, executed and given the loop's
        status, a run that is not pending is left alone, and a busy thread is waited for. */
    method Consume(id: TaskId, w: WorkerId, c: Course, spared: set<Job>) returns (died: bool)
      requires Valid() && id in tasks && tasks[id].place.Ready?
      modifies this, mongo
      ensures Valid() && old(steps) <= steps
      ensures died ==> Died(id, w) && (c.lock.Throws? || id in returned)
      ensures c.lock.Throws? ==> died
      ensures !died ==> Settlements(steps, id) == Settlements(old(steps), id) + 1
      ensures !died && id !in tasks ==> Releases(steps, id) == Releases(old(steps), id) + 1
      ensures !died && id in tasks ==> tasks[id] == Task(old(tasks)[id].job, Timer(w))
                                       && Releases(steps, id) == Releases(old(steps), id)
      ensures var j := old(tasks)[id].job;
              j in spared && Smooth(c) && id !in old(returned) ==> !died && Served(old(Of(j)), Of(j), j, id, w, c)
    {
      ghost var j := tasks[id].job;
      ghost var start := View();
      var acquired: bool;
      acquired, died := Receive(id, j, w, c.lock, spared);
      if died { return; }
      LostInFootprint(start, j, id);
      LostInFootprint(View(), j, id);
      ghost var received := Of(j);
      if acquired {
        Process(id, j, w, c, spared);
      } else {
        died := Requeue(id, j, w, spared);
      }
      if j in spared && Smooth(c) && id !in start.returned {
        ServedEitherWay(FootprintOf(start, j), received, Of(j), j, id, w, c, acquired);
      }
    }

    // ---------- server.ts: the requests that write ----------

    // Note a step of the API.
    ghost method RecordApi(before: State, act: ApiStep)
      requires Explains(steps, before) && ApiEnabled(before, act) && View() == ApplyApi(before, act)
      modifies this`steps
      ensures Explains(steps, View()) && old(steps) <= steps
      ensures forall j :: Publishes(steps, j) == Publishes(old(steps), j) + if IsPublish(Api(act), j) then 1 else 0
    {
      Record(before, Api(act));
    }

    method CreateNow(j: Job, now: int) returns (created: bool)
      requires Valid() && now <= clock
      modifies this, mongo
      ensures Valid() && old(steps) <= steps && Publishes(steps, j) == Publishes(old(steps), j)
      ensures created <==> j !in old(mongo.runs)
      ensures created ==> j in unpublished && j in mongo.runs && mongo.runs[j] == RunDoc(Pending, 0, now, None)
      ensures Of(j) == if created then old(Of(j)).(doc := Some(RunDoc(Pending, 0, now, None)), unpublished := true) else old(Of(j))
    {
      created := mongo.CreateRun(j, now);
      if created {
        unpublished := unpublished + {j};
        RecordApi(old(View()), Create(j, now));
      }
    }

    method PublishNow(j: Job)
      requires Valid() && j in unpublished
      modifies this, mongo
      ensures Valid() && old(steps) <= steps && Publishes(steps, j) == Publishes(old(steps), j) + 1
      ensures unpublished == old(unpublished) - {j} && tasks == old(tasks)[old(nextCopy) := Task(j, Ready)]
      ensures Reappears(old(Of(j)).(unpublished := false), Of(j))
    {
      ghost var copy, before := nextCopy, View();
      tasks := tasks[nextCopy := Task(j, Ready)];
      nextCopy := nextCopy + 1;
      unpublished := unpublished - {j};
      CopiesAdd(before, j, copy);
      AppearsAs(FootprintOf(before, j).(unpublished := false), Of(j), copy);
      RecordApi(before, Publish(j, copy));
    }

    /** POST /runs. Whatever happens at its awaits, it is a path of the step machine that publishes
        the job at most once, and exactly if it answers 202; a 503 after the insert, an insert whose
        answer was lost included, leaves a pending run without a message. It answers 503 only if one of
        its operations throws or the id is taken; and if nobody else touches the run, a 202 leaves a fresh
        pending run with one ready message. */
    method PostRun(j: Job, insert: Answer, publishThrows: bool, spared: set<Job>) returns (reply: Reply)
      requires Valid()
      modifies this, mongo
      ensures Valid() && old(steps) <= steps && (reply.Accepted? || reply.Unavailable?)
      ensures Publishes(steps, j) == Publishes(old(steps), j) + if reply.Accepted? then 1 else 0
      ensures reply.Accepted? ==> j !in unpublished && exists id :: id in tasks && tasks[id] == Task(j, Ready)
      ensures reply == Unavailable(true) ==> j in unpublished && (insert == Throws(true) || (insert.Answered? && publishThrows))
      ensures reply.Accepted? ==> insert.Answered? && !publishThrows
      ensures j in spared ==> Posted(old(Of(j)), Of(j), insert, publishThrows, reply)
    {
      var now := clock;
      Others(Poster(j), spared);
      if insert == Throws(false) { return Unavailable(false); }
      var created := CreateNow(j, now);
      if insert.Throws? || !created { return Unavailable(created); }
      reply := PostCreated(j, publishThrows, spared);
    }

    // The run document exists; publish its job.
    method PostCreated(j: Job, publishThrows: bool, spared: set<Job>) returns (reply: Reply)
      requires Valid() && j in unpublished
      modifies this, mongo
      ensures Valid() && old(steps) <= steps && reply == (if publishThrows then Unavailable(true) else Accepted)
      ensures Publishes(steps, j) == Publishes(old(steps), j) + if reply.Accepted? then 1 else 0
      ensures reply.Accepted? ==> j !in unpublished && exists id :: id in tasks && tasks[id] == Task(j, Ready)
      ensures publishThrows ==> j in unpublished
      ensures j in spared ==>
                if publishThrows then Of(j) == old(Of(j)) else Reappears(old(Of(j)).(unpublished := false), Of(j))
    {
      Others(Poster(j), spared);
      if publishThrows { return Unavailable(true); }
      ghost var copy := nextCopy;
      PublishNow(j);
      assert tasks[copy] == Task(j, Ready);
      reply := Accepted;
    }

    /** POST /runs/:id/cancel: read, then write without a second look. Either may throw, the write also
        after taking effect; only then is the answer 503. If nobody else touches the run, an unknown run
        and a terminal one are left alone, and any other is marked cancelled and otherwise left alone. */
    method CancelRun(j: Job, readThrows: bool, write: Answer, spared: set<Job>) returns (reply: Reply)
      requires Valid()
      modifies this, mongo
      ensures Valid() && old(steps) <= steps && !reply.Accepted?
      ensures reply.CancelDone? || reply == Unavailable(true) ==> IsStatus(mongo.View(), j, Cancelled)
      ensures reply.NotFound? ==> j !in mongo.runs
      ensures reply.Conflict? ==> j in mongo.runs && mongo.runs[j].status.Terminal()
      ensures reply.Unavailable? ==> readThrows || write.Throws?
      ensures j in spared && !readThrows && write.Answered? ==> CancelledAs(old(Of(j)), Of(j), reply)
    {
      Others(Canceler(j), spared);
      if readThrows { return Unavailable(false); }
      if j !in mongo.runs { return NotFound; }
      if mongo.runs[j].status.Terminal() { return Conflict; }
      NoteRead(j);
      var now := clock;
      Others(Canceler(j), spared);
      reply := WriteOrFail(j, now, write);
    }

    method NoteRead(j: Job)
      requires Valid() && j in mongo.runs && !mongo.runs[j].status.Terminal()
      modifies this
      ensures Valid() && old(steps) <= steps && j in cancels && Of(j) == old(Of(j)) && mongo.runs == old(mongo.runs)
      ensures clock == old(clock)
    {
      ghost var before := View();
      cancels := cancels + multiset{j};
      RecordApi(before, CancelRead(j));
    }

    method WriteOrFail(j: Job, now: int, write: Answer) returns (reply: Reply)
      requires Valid() && j in cancels && j in mongo.runs && now <= clock
      modifies this, mongo
      ensures Valid() && old(steps) <= steps
      ensures reply == match write { case Answered => CancelDone case Throws(applied) => Unavailable(applied) }
      ensures if write == Throws(false) then mongo.View() == old(mongo.View()) else IsStatus(mongo.View(), j, Cancelled)
      ensures write.Answered? ==> MarkedCancelled(old(Of(j)), Of(j))
    {
      if write == Throws(false) { return Unavailable(false); }
      WriteCancel(j, now);
      reply := if write.Throws? then Unavailable(true) else CancelDone;
    }

    method WriteCancel(j: Job, now: int)
      requires Valid() && j in cancels && j in mongo.runs && now <= clock
      modifies this, mongo
      ensures Valid() && old(steps) <= steps && IsStatus(mongo.View(), j, Cancelled)
      ensures MarkedCancelled(old(Of(j)), Of(j))
    {
      cancels := cancels - multiset{j};
      mongo.FinishRun(j, Cancelled, now);
      RecordApi(old(View()), CancelWrite(j, now));
    }

    // ---------- reaper.ts: one pass ----------

    ghost predicate Reaping(r: ReaperId, me: Reaper)
      reads this, mongo
    {
      Valid() && r in reapers && reapers[r] == me
    }

    // Note a step of reaper r.
    ghost method RecordReaper(before: State, r: ReaperId, phase: ReaperStep)
      requires Explains(steps, before) && ReaperEnabled(before, r, phase) && View() == ApplyReaper(before, r, phase)
      modifies this`steps
      ensures Explains(steps, View()) && old(steps) <= steps
      ensures steps != [] && steps[|steps| - 1] == Step.Reaping(r, phase)
      ensures Republishes(steps, r) == Republishes(old(steps), r) + if phase.Republish? then 1 else 0
    {
      Record(before, Step.Reaping(r, phase));
    }

    method ScanNow(r: ReaperId, now: int) returns (cutoff: int, todo: set<Job>)
      requires Valid() && (r in reapers ==> reapers[r].Idle?) && now <= clock
      modifies this, mongo
      ensures Reaping(r, Scanned(cutoff, todo)) && old(steps) <= steps && cutoff == now - leaseTtl
      ensures forall j :: j in todo <==> j in mongo.runs && mongo.runs[j].status == Running && mongo.runs[j].updatedAt < cutoff
      ensures todo == StaleRuns(old(mongo.View()), cutoff) && SameFootprints(old(View()), View())
      ensures Republishes(steps, r) == Republishes(old(steps), r)
    {
      cutoff := now - leaseTtl;
      todo := mongo.FindStale(cutoff);
      assert todo == StaleRuns(mongo.View(), cutoff);
      reapers := reapers[r := Scanned(cutoff, todo)];
      RecordReaper(old(View()), r, Scan(now));
    }

    method ResetNow(r: ReaperId, j: Job, cutoff: int, todo: set<Job>, now: int) returns (modified: bool)
      requires Reaping(r, Scanned(cutoff, todo)) && j in todo && now <= clock
      modifies this, mongo
      ensures Reaping(r, if modified then Reset(j, cutoff, todo - {j}) else Scanned(cutoff, todo - {j}))
      ensures modified <==> StaleDoc(old(Of(j)).doc, cutoff)
      ensures modified ==> WasReset(old(Of(j)), Of(j)) && mongo.runs[j].updatedAt == now
      ensures forall k :: k != j || !modified ==> Of(k) == old(Of(k))
      ensures old(steps) <= steps && Republishes(steps, r) == Republishes(old(steps), r)
    {
      modified := mongo.ResetStale(j, cutoff, now);
      reapers := reapers[r := if modified then Reset(j, cutoff, todo - {j}) else Scanned(cutoff, todo - {j})];
      RecordReaper(old(View()), r, Reap(j, now));
    }

    method UnlockNow(r: ReaperId, j: Job, cutoff: int, todo: set<Job>)
      requires Reaping(r, Reset(j, cutoff, todo))
      modifies this, mongo
      ensures Reaping(r, Unlocked(j, cutoff, todo)) && Of(j).lock != Some(j)
      ensures forall k :: Aside(old(Of(k)), Of(k), j)
      ensures old(steps) <= steps && Republishes(steps, r) == Republishes(old(steps), r)
    {
      mongo.ReleaseThread(j);
      reapers := reapers[r := Unlocked(j, cutoff, todo)];
      RecordReaper(old(View()), r, Unlock);
    }

    method RepublishNow(r: ReaperId, j: Job, cutoff: int, todo: set<Job>)
      requires Reaping(r, Unlocked(j, cutoff, todo))
      modifies this, mongo
      ensures Reaping(r, Scanned(cutoff, todo)) && tasks == old(tasks)[old(nextCopy) := Task(j, Ready)]
      ensures Reappears(old(Of(j)), Of(j)) && forall k :: k != j ==> Of(k) == old(Of(k))
      ensures old(steps) <= steps && Republishes(steps, r) == Republishes(old(steps), r) + 1
    {
      ghost var copy, before := nextCopy, View();
      tasks := tasks[nextCopy := Task(j, Ready)];
      nextCopy := nextCopy + 1;
      reapers := reapers[r := Scanned(cutoff, todo)];
      CopiesAdd(before, j, copy);
      AppearsAs(FootprintOf(before, j), Of(j), copy);
      forall k | k != j ensures Of(k) == FootprintOf(before, k) {
        CopiesElsewhere(before, j, k, copy);
      }
      RecordReaper(before, r, Republish(copy));
    }

    // An operation of the pass throws: the pass is given up where it stands, as if its process died.
    method GiveUp(r: ReaperId)
      requires Valid() && r in reapers
      modifies this, mongo
      ensures Reaping(r, Idle) && old(steps) <= steps && Republishes(steps, r) == Republishes(old(steps), r)
    {
      reapers := reapers[r := Idle];
      RecordReaper(old(View()), r, ReaperStep.Die);
    }

    // Reset one run of the scan, if it is still stale; then delete its lock and republish it.
    method ReapRun(r: ReaperId, j: Job, cutoff: int, todo: set<Job>, trouble: Option<Trouble>, spared: set<Job>)
      returns (republished: bool, failed: bool)
      requires Reaping(r, Scanned(cutoff, todo)) && j in todo
      modifies this, mongo
      ensures Reaping(r, if failed then Idle else Scanned(cutoff, todo - {j})) && old(steps) <= steps
      ensures Republishes(steps, r) == Republishes(old(steps), r) + if republished then 1 else 0
      ensures failed ==> trouble.Some?
      ensures trouble.None? && j in spared && StaleDoc(old(Of(j)).doc, cutoff) ==> republished && Recovered(old(Of(j)), Of(j), j)
      ensures trouble.None? ==> forall k :: k in spared && k != j ==> Aside(old(Of(k)), Of(k), j)
    {
      var now := clock;
      Others(Collector(r), spared);
      republished, failed := false, trouble == Some(AtReset);
      if failed {
        GiveUp(r);
        return;
      }
      ghost var before := View();
      var modified := ResetNow(r, j, cutoff, todo, now);
      if modified {
        ghost var middle := View();
        republished, failed := Recover(r, j, cutoff, todo - {j}, trouble, spared);
        if trouble.None? && j in spared {
          RecoveredFrom(FootprintOf(before, j), FootprintOf(middle, j), Of(j), j);
        }
      }
    }

    // Delete the lock of a run just reset, and republish its job.
    method Recover(r: ReaperId, j: Job, cutoff: int, todo: set<Job>, trouble: Option<Trouble>, spared: set<Job>)
      returns (republished: bool, failed: bool)
      requires Reaping(r, Reset(j, cutoff, todo))
      modifies this, mongo
      ensures Reaping(r, if failed then Idle else Scanned(cutoff, todo)) && old(steps) <= steps
      ensures Republishes(steps, r) == Republishes(old(steps), r) + if republished then 1 else 0
      ensures (republished <==> !failed) && (failed ==> trouble.Some?)
      ensures trouble.None? && j in spared ==> Republished(old(Of(j)), Of(j), j)
      ensures trouble.None? ==> forall k :: k in spared && k != j ==> Aside(old(Of(k)), Of(k), j)
    {
      ghost var start := View();
      failed := trouble == Some(AtUnlock);
      UnlockRun(r, j, cutoff, todo, failed, spared);
      if failed { return false, true; }
      ghost var middle := View();
      failed := trouble == Some(AtRepublish);
      RepublishRun(r, j, cutoff, todo, failed, spared);
      republished := !failed;
      if trouble.None? && j in spared {
        RepublishedFrom(FootprintOf(start, j), FootprintOf(middle, j), Of(j), j);
      }
    }

    method UnlockRun(r: ReaperId, j: Job, cutoff: int, todo: set<Job>, throws: bool, spared: set<Job>)
      requires Reaping(r, Reset(j, cutoff, todo))
      modifies this, mongo
      ensures Reaping(r, if throws then Idle else Unlocked(j, cutoff, todo)) && old(steps) <= steps
      ensures Republishes(steps, r) == Republishes(old(steps), r)
      ensures !throws ==> Of(j).lock != Some(j) && forall k :: k in spared ==> Aside(old(Of(k)), Of(k), j)
    {
      Others(Collector(r), spared);
      if throws {
        GiveUp(r);
      } else {
        UnlockNow(r, j, cutoff, todo);
      }
    }

    method RepublishRun(r: ReaperId, j: Job, cutoff: int, todo: set<Job>, throws: bool, spared: set<Job>)
      requires Reaping(r, Unlocked(j, cutoff, todo))
      modifies this, mongo
      ensures Reaping(r, if throws then Idle else Scanned(cutoff, todo)) && old(steps) <= steps
      ensures Republishes(steps, r) == Republishes(old(steps), r) + if throws then 0 else 1
      ensures !throws && j in spared ==> Reappears(old(Of(j)), Of(j))
      ensures !throws ==> forall k :: k in spared && k != j ==> Of(k) == old(Of(k))
    {
      Others(Collector(r), spared);
      if throws {
        GiveUp(r);
      } else {
        RepublishNow(r, j, cutoff, todo);
      }
    }

    // Work through the runs found stale.
    method ReapAll(r: ReaperId, cutoff: int, stale: set<Job>, troubles: map<Job, Trouble>, spared: set<Job>)
      returns (reaped: nat, failed: bool)
      requires Reaping(r, Scanned(cutoff, stale)) && stale <= StaleRuns(mongo.View(), cutoff)
      modifies this, mongo
      ensures Reaping(r, if failed then Idle else Scanned(cutoff, {})) && old(steps) <= steps
      ensures Republishes(steps, r) == Republishes(old(steps), r) + reaped
      ensures failed ==> exists j :: j in stale && j in troubles
      ensures stale !! troubles.Keys && stale <= spared ==> !failed && reaped == |stale| && Underway(old(View()), View(), stale, {})
    {
      var todo := stale;
      reaped, failed := 0, false;
      ghost var start, calm := View(), stale !! troubles.Keys && stale <= spared;
      while todo != {} && !failed
        invariant Reaping(r, if failed then Idle else Scanned(cutoff, todo)) && old(steps) <= steps && todo <= stale
        invariant Republishes(steps, r) == Republishes(old(steps), r) + reaped
        invariant failed ==> exists j :: j in stale && j in troubles
        invariant calm ==> !failed && reaped == |stale| - |todo| && Underway(start, View(), stale, todo)
        decreases |todo|
      {
        var j :| j in todo;
        var republished: bool;
        republished, failed := ReapNext(r, j, cutoff, todo, if j in troubles then Some(troubles[j]) else None, spared, start, stale);
        todo := todo - {j};
        reaped := reaped + if republished then 1 else 0;
      }
    }

    method ReapNext(r: ReaperId, j: Job, cutoff: int, todo: set<Job>, trouble: Option<Trouble>, spared: set<Job>,
                    ghost start: State, ghost stale: set<Job>)
      returns (republished: bool, failed: bool)
      requires Reaping(r, Scanned(cutoff, todo)) && j in todo && todo <= stale && StaleDoc(FootprintOf(start, j).doc, cutoff)
      modifies this, mongo
      ensures Reaping(r, if failed then Idle else Scanned(cutoff, todo - {j})) && old(steps) <= steps
      ensures Republishes(steps, r) == Republishes(old(steps), r) + if republished then 1 else 0
      ensures failed ==> trouble.Some?
      ensures trouble.None? && stale <= spared && Underway(start, old(View()), stale, todo) ==>
                republished && Underway(start, View(), stale, todo - {j})
    {
      ghost var before := View();
      republished, failed := ReapRun(r, j, cutoff, todo, trouble, spared);
      if trouble.None? && stale <= spared && Underway(start, before, stale, todo) {
        OneFewer(start, before, View(), stale, todo, j);
      }
    }

    /** One reaper pass. Whatever the other processes (other reapers included) do at its awaits and
        whichever operation throws, it is a path of the step machine; its result counts exactly the jobs
        it republished; and it is given up only if an operation on a stale run throws, or the connection
        to the broker. If nothing throws and nobody else touches them, every run that was running and
        stale is pending again, without its lock and with one more message. */
    method ReapOnce(r: ReaperId, connects: bool, troubles: map<Job, Trouble>, spared: set<Job>) returns (reaped: nat, failed: bool)
      requires Valid() && (r in reapers ==> reapers[r].Idle?)
      modifies this, mongo
      ensures Reaping(r, Idle) && old(steps) <= steps
      ensures Republishes(steps, r) == Republishes(old(steps), r) + reaped
      ensures !failed ==> steps[|steps| - 1] == Step.Reaping(r, ReaperStep.Return)
      ensures var stale := StaleRuns(old(mongo.View()), old(clock) - leaseTtl);
              && (failed ==> !connects || exists j :: j in stale && j in troubles)
              && (connects && stale !! troubles.Keys && stale <= spared ==>
                    !failed && reaped == |stale| && AllRecovered(old(View()), View(), stale))
    {
      ghost var start := View();
      var cutoff, stale := ScanNow(r, clock);
      ghost var scanned := View();
      reaped, failed := 0, stale != {} && !connects;
      if failed {
        GiveUp(r);
        return;
      }
      reaped, failed := ReapAndReturn(r, cutoff, stale, troubles, spared);
      if stale !! troubles.Keys && stale <= spared {
        RecoveredSince(start, scanned, View(), stale);
      }
    }

    method ReapAndReturn(r: ReaperId, cutoff: int, stale: set<Job>, troubles: map<Job, Trouble>, spared: set<Job>)
      returns (reaped: nat, failed: bool)
      requires Reaping(r, Scanned(cutoff, stale)) && stale <= StaleRuns(mongo.View(), cutoff)
      modifies this, mongo
      ensures Reaping(r, Idle) && old(steps) <= steps
      ensures Republishes(steps, r) == Republishes(old(steps), r) + reaped
      ensures !failed ==> steps != [] && steps[|steps| - 1] == Step.Reaping(r, ReaperStep.Return)
      ensures failed ==> exists j :: j in stale && j in troubles
      ensures stale !! troubles.Keys && stale <= spared ==> !failed && reaped == |stale| && AllRecovered(old(View()), View(), stale)
    {
      ghost var scanned := View();
      reaped, failed := ReapAll(r, cutoff, stale, troubles, spared);
      if failed { return; }
      ghost var done := View();
      ReturnNow(r, cutoff);
      if stale !! troubles.Keys && stale <= spared {
        PassDone(scanned, done, View(), stale);
      }
    }

    method ReturnNow(r: ReaperId, ghost cutoff: int)
      requires Reaping(r, Scanned(cutoff, {}))
      modifies this, mongo
      ensures Reaping(r, Idle) && old(steps) <= steps && Republishes(steps, r) == Republishes(old(steps), r)
      ensures steps != [] && steps[|steps| - 1] == Step.Reaping(r, ReaperStep.Return)
      ensures SameFootprints(old(View()), View())
    {
      reapers := reapers[r := Idle];
      RecordReaper(old(View()), r, ReaperStep.Return);
    }
  }
}
