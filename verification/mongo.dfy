/** The collections as one shared mutable object: each method is one atomic operation. Its contract
    names the fields it writes, and ties it to the corresponding function on values. */
module Mongo {
  import opened Store

  class Collections {
    var runs: map<Job, RunDoc>
    var locks: map<ThreadId, Job>
    var log: seq<Event>

    function View(): Db
      reads this
    {
      Db(runs, locks, log)
    }

    constructor ()
      ensures View() == Db(map[], map[], [])
    {
      runs, locks, log := map[], map[], [];
    }

    // Upsert filtered on "no document, or ours"; a duplicate key means another run holds the thread.
    method TryAcquireThread(j: Job) returns (acquired: bool)
      modifies this`locks
      ensures View() == AcquireThread(old(View()), j)
      ensures acquired == CanAcquire(old(View()), j)
      ensures acquired <==> j.threadId !in old(locks) || old(locks)[j.threadId] == j
      ensures locks == if acquired then old(locks)[j.threadId := j] else old(locks)
    {
      if j.threadId !in locks {
        locks := locks[j.threadId := j];
      }
      acquired := locks[j.threadId] == j;
      assert old(CanAcquire(View(), j)) ==> locks == old(locks)[j.threadId := j];
    }

    method ReleaseThread(j: Job)
      modifies this`locks
      ensures View() == Store.ReleaseThread(old(View()), j)
      ensures locks == if j.threadId in old(locks) && old(locks)[j.threadId] == j then old(locks) - {j.threadId} else old(locks)
    {
      if j.threadId in locks && locks[j.threadId] == j {
        locks := locks - {j.threadId};
      }
    }

    // insertOne: an id that is taken is a duplicate-key error and changes nothing.
    method CreateRun(j: Job, at: int) returns (created: bool)
      modifies this`runs
      ensures created <==> j !in old(runs)
      ensures runs == if created then old(runs)[j := RunDoc(Pending, 0, at, None)] else old(runs)
      ensures View() == if created then Store.CreateRun(old(View()), j, at) else old(View())
    {
      created := j !in runs;
      if created {
        runs := runs[j := RunDoc(Pending, 0, at, None)];
      }
    }

    method ClaimRun(j: Job, w: WorkerId, at: int) returns (claimed: bool)
      modifies this`runs
      ensures View() == Store.ClaimRun(old(View()), j, w, at)
      ensures claimed <==> j in old(runs) && old(runs)[j].status == Pending
      ensures runs == if claimed then old(runs)[j := RunDoc(Running, old(runs)[j].lastEventSeq, at, Some(w))] else old(runs)
    {
      claimed := j in runs && runs[j].status == Pending;
      if claimed {
        runs := runs[j := runs[j].(status := Running, claimedBy := Some(w), updatedAt := at)];
      }
    }

    method FinishRun(j: Job, status: Status, at: int)
      modifies this`runs
      ensures View() == SetStatus(old(View()), j, status, at)
      ensures runs == if j !in old(runs) then old(runs)
                      else old(runs)[j := RunDoc(status, old(runs)[j].lastEventSeq, at, old(runs)[j].claimedBy)]
    {
      if j in runs {
        runs := runs[j := runs[j].(status := status, updatedAt := at)];
      }
    }

    method AllocateSeq(j: Job, at: int) returns (n: Option<nat>)
      modifies this`runs
      ensures View() == Store.AllocateSeq(old(View()), j, at)
      ensures n == if j in old(runs) then Some(old(runs)[j].lastEventSeq + 1) else None
      ensures runs == if n.None? then old(runs)
                      else old(runs)[j := RunDoc(old(runs)[j].status, n.value, at, old(runs)[j].claimedBy)]
    {
      n := None;
      if j in runs {
        n := Some(runs[j].lastEventSeq + 1);
        runs := runs[j := runs[j].(lastEventSeq := runs[j].lastEventSeq + 1, updatedAt := at)];
      }
    }

    // False when the unique (runId, seq) index rejects the document.
    method InsertEvent(j: Job, n: nat) returns (ok: bool)
      modifies this`log
      ensures ok <==> Event(j, n) !in old(log)
      ensures log == if ok then old(log) + [Event(j, n)] else old(log)
      ensures View() == if ok then Store.InsertEvent(old(View()), j, n) else old(View())
    {
      ok := Event(j, n) !in log;
      if ok {
        log := log + [Event(j, n)];
      }
    }

    method FindStale(cutoff: int) returns (stale: set<Job>)
      ensures forall j :: j in stale <==> j in runs && runs[j].status == Running && runs[j].updatedAt < cutoff
    {
      stale := set j | j in runs && runs[j].status == Running && runs[j].updatedAt < cutoff;
    }

    method ResetStale(j: Job, cutoff: int, at: int) returns (modified: bool)
      modifies this`runs
      ensures View() == Store.ResetStale(old(View()), j, cutoff, at)
      ensures modified <==> j in old(runs) && old(runs)[j].status == Running && old(runs)[j].updatedAt < cutoff
      ensures runs == if modified then old(runs)[j := RunDoc(Pending, old(runs)[j].lastEventSeq, at, None)] else old(runs)
    {
      modified := j in runs && runs[j].status == Running && runs[j].updatedAt < cutoff;
      if modified {
        runs := runs[j := runs[j].(status := Pending, claimedBy := None, updatedAt := at)];
      }
    }
  }
}
