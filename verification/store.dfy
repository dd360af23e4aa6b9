/** The MongoDB collections shared by every process, and the single-document
    operations on them. Each operation is atomic; everything between two of them
    may interleave with other processes. */
module Store {
  datatype Option<+T> = None | Some(value: T)

  type ThreadId = int
  type WorkerId = int

  // A queue message carries the pair (runId, threadId); a run document has the same
  // immutable pair, so the pair is used as the identity of the run.
  datatype Job = Job(runId: int, threadId: ThreadId)

  datatype Status = Pending | Running | Done | Failed | Cancelled {
    predicate Terminal() {
      Done? || Failed? || Cancelled?
    }
  }

  datatype RunDoc = RunDoc(status: Status, lastEventSeq: nat, updatedAt: int, claimedBy: Option<WorkerId>)

  datatype Event = Event(job: Job, seqNo: nat)

  datatype Db = Db(runs: map<Job, RunDoc>, locks: map<ThreadId, Job>, log: seq<Event>)

  // ---------- thread_locks ----------

  // The filter of the upsert: no lock document, or one that already names this run.
  predicate CanAcquire(db: Db, j: Job) {
    j.threadId !in db.locks || db.locks[j.threadId] == j
  }

  function AcquireThread(db: Db, j: Job): Db {
    if CanAcquire(db, j) then db.(locks := db.locks[j.threadId := j]) else db
  }

  // deleteOne({_id: threadId, runId}): removes the lock only if this run holds it.
  function ReleaseThread(db: Db, j: Job): Db {
    if j.threadId in db.locks && db.locks[j.threadId] == j
    then db.(locks := db.locks - {j.threadId})
    else db
  }

  // ---------- agent_runs ----------

  predicate IsStatus(db: Db, j: Job, st: Status) {
    j in db.runs && db.runs[j].status == st
  }

  function CreateRun(db: Db, j: Job, at: int): Db {
    db.(runs := db.runs[j := RunDoc(Pending, 0, at, None)])
  }

  function ClaimRun(db: Db, j: Job, w: WorkerId, at: int): Db {
    if IsStatus(db, j, Pending)
    then db.(runs := db.runs[j := db.runs[j].(status := Running, claimedBy := Some(w), updatedAt := at)])
    else db
  }

  // Unconditional: no check of the status being overwritten.
  function SetStatus(db: Db, j: Job, st: Status, at: int): Db {
    if j in db.runs then db.(runs := db.runs[j := db.runs[j].(status := st, updatedAt := at)]) else db
  }

  predicate Stale(db: Db, j: Job, cutoff: int) {
    IsStatus(db, j, Running) && db.runs[j].updatedAt < cutoff
  }

  function ResetStale(db: Db, j: Job, cutoff: int, at: int): Db {
    if Stale(db, j, cutoff)
    then db.(runs := db.runs[j := db.runs[j].(status := Pending, claimedBy := None, updatedAt := at)])
    else db
  }

  // ---------- run_events ----------

  // First half of emitEvent: bump the run's counter and read the new value.
  function AllocateSeq(db: Db, j: Job, at: int): Db {
    if j in db.runs
    then db.(runs := db.runs[j := db.runs[j].(lastEventSeq := db.runs[j].lastEventSeq + 1, updatedAt := at)])
    else db
  }

  // The unique (runId, seq) index.
  predicate SeqTaken(db: Db, j: Job, n: nat) {
    Event(j, n) in db.log
  }

  // Second half of emitEvent: append the event to the log, in commit order.
  function InsertEvent(db: Db, j: Job, n: nat): Db {
    db.(log := db.log + [Event(j, n)])
  }
}
