/** The in-memory queue, blob store and cancellation registry, and the machine state they show. */
module MemoryBackends {
  import opened Jobs
  import opened StoreModel
  import opened Lifecycle
  import M = MemoryStorage

  /** A bounded FIFO channel. */
  class MemoryQueue {
    var jobs: seq<Job>
    const size: nat

    constructor (size: nat)
      ensures jobs == [] && this.size == size
    {
      jobs, this.size := [], size;
    }

    /** Never blocks: a full queue is an error. */
    method Push(job: Job) returns (ok: bool)
      modifies this
      ensures ok <==> |old(jobs)| < size
      ensures jobs == if ok then old(jobs) + [job] else old(jobs)
    {
      ok := |jobs| < size;
      if ok { jobs := jobs + [job]; }
    }

    /** Takes the oldest job, or gives up when the context is done; it blocks while neither is possible. */
    method Pop(ctxDone: bool) returns (job: Option<Job>)
      requires jobs != [] || ctxDone
      modifies this
      ensures job.Some? ==> old(jobs) == [job.value] + jobs
      ensures job.None? ==> ctxDone && jobs == old(jobs)
    {
      var takeJob := !ctxDone;
      if jobs != [] && ctxDone {
        takeJob := *;
      }
      if takeJob {
        job := Some(jobs[0]);
        jobs := jobs[1..];
      } else {
        job := None;
      }
    }
  }

  class MemoryBlobs {
    var data: map<string, string>

    constructor ()
      ensures data == map[]
    {
      data := map[];
    }

    method Put(key: string, bytes: string)
      modifies this
      ensures data == old(data)[key := bytes]
    {
      data := data[key := bytes];
    }

    method Get(key: string) returns (bytes: Option<string>)
      ensures bytes == if key in data then Some(data[key]) else None
    {
      if key !in data { return None; }
      bytes := Some(data[key]);
    }
  }

  /** Cancel functions by job; calling worker w's function puts w's context among the done ones. */
  class Registry {
    var cancels: map<string, nat>
    var interrupted: set<nat>

    constructor ()
      ensures cancels == map[] && interrupted == {}
    {
      cancels, interrupted := map[], {};
    }

    /** A fresh context for w, whose cancel function is filed under the job. */
    method Register(jobID: string, w: nat)
      modifies this
      ensures cancels == old(cancels)[jobID := w] && interrupted == old(interrupted) - {w}
    {
      cancels, interrupted := cancels[jobID := w], interrupted - {w};
    }

    method Unregister(jobID: string)
      modifies this
      ensures cancels == old(cancels) - {jobID} && interrupted == old(interrupted)
    {
      cancels := cancels - {jobID};
    }

    method Cancel(jobID: string) returns (ok: bool)
      modifies this
      ensures ok <==> jobID in cancels
      ensures cancels == old(cancels)
      ensures interrupted == if ok then old(interrupted) + {cancels[jobID]} else old(interrupted)
    {
      ok := jobID in cancels;
      if ok { interrupted := interrupted + {cancels[jobID]}; }
    }
  }

  /** Everything one process shares between its handlers and its workers. */
  class Backends {
    const storage: M.MemoryStorage
    const queue: MemoryQueue
    const blobs: MemoryBlobs
    const cancels: Registry
    var sent: seq<Event>

    constructor (storage: M.MemoryStorage, queue: MemoryQueue, blobs: MemoryBlobs, cancels: Registry)
      ensures this.storage == storage && this.queue == queue && this.blobs == blobs && this.cancels == cancels && sent == []
    {
      this.storage, this.queue, this.blobs, this.cancels, sent := storage, queue, blobs, cancels, [];
    }

    /** The shared part of the machine state is what these objects hold. */
    ghost predicate Shows(s: State)
      reads this, storage, queue, blobs, cancels
    {
      && Consistent(s.store) && storage.View() == s.store && queue.jobs == s.queue && blobs.data == s.blobs
      && cancels.cancels == s.registry && cancels.interrupted == s.interrupted && sent == s.sent
    }
  }

  /** One more step of a run. */
  lemma LeadsOneMore(c: Config, s: State, acts: seq<Action>, m: State, a: Action)
    requires Leads(c, s, acts, m) && Enabled(c, m, a)
    ensures Leads(c, s, acts + [a], Apply(c, m, a))
  {
    assert [a][1..] == [];
    assert Leads(c, m, [a], Apply(c, m, a));
    LeadsAppend(c, s, acts, m, [a], Apply(c, m, a));
  }

  lemma {:induction false} FreshNat(taken: set<nat>) returns (n: nat)
    ensures n !in taken && forall x :: x in taken ==> x < n
  {
    if taken == {} {
      n := 0;
    } else {
      var x :| x in taken;
      var m := FreshNat(taken - {x});
      n := if m <= x then x + 1 else m;
      assert taken == (taken - {x}) + {x};
    }
  }
}
