/**
 What every interleaving keeps when the queue hands each message over once: a job is in one
 place at a time, and a job that is nowhere has a terminal status.
 */
module LifecycleOnce {
  import opened Jobs
  import opened StoreModel
  import opened Lifecycle
  import opened LifecycleBase

  predicate Holds(wk: Worker, id: string) { !wk.Idle? && wk.job.id == id }

  ghost predicate InQueue(queue: seq<Job>, id: string) {
    exists i :: 0 <= i < |queue| && queue[i].id == id
  }

  ghost predicate InHands(workers: map<nat, Worker>, id: string) {
    exists w :: w in workers && Holds(workers[w], id)
  }

  // ----- one place at a time -----

  ghost predicate QueueDistinct(queue: seq<Job>) {
    forall i, j :: 0 <= i < j < |queue| ==> queue[i].id != queue[j].id
  }

  ghost predicate HandsDistinct(workers: map<nat, Worker>) {
    forall v, w :: v in workers && w in workers && v != w && !workers[v].Idle? && !workers[w].Idle? ==>
      workers[v].job.id != workers[w].job.id
  }

  ghost predicate QueueOutOfHands(queue: seq<Job>, workers: map<nat, Worker>) {
    forall i, w :: 0 <= i < |queue| && w in workers ==> !Holds(workers[w], queue[i].id)
  }

  // ----- statuses -----

  predicate Waiting(records: map<string, JobResult>, id: string) {
    id in records && (records[id].status == Pending || records[id].status == Canceled)
  }

  predicate Underway(records: map<string, JobResult>, id: string) {
    id in records && (records[id].status == Processing || records[id].status == Canceled)
  }

  predicate Settled(records: map<string, JobResult>, id: string) {
    id in records && records[id].status.Terminal()
  }

  /** The statuses a job can have while its worker is at this point. */
  predicate StageStatus(records: map<string, JobResult>, wk: Worker) {
    match wk
    case Idle => true
    case Fetched(job) => Waiting(records, job.id)
    case Starting(job) => Waiting(records, job.id)
    case Notifying(job, _) => Settled(records, job.id)
    case Unregistering(job) => Settled(records, job.id)
    case Returning(job) => Settled(records, job.id)
    case _ => Underway(records, wk.job.id)
  }

  predicate SubmitStatus(records: map<string, JobResult>, id: string, sub: Submitter) {
    && (sub.Pushing? || sub.RollingBack? ==> Waiting(records, id))
    && (sub.Rejected? && id in records ==> records[id].status == Canceled)
  }

  ghost predicate QueueStatuses(records: map<string, JobResult>, queue: seq<Job>) {
    forall i :: 0 <= i < |queue| ==> Waiting(records, queue[i].id)
  }

  ghost predicate StageStatuses(records: map<string, JobResult>, workers: map<nat, Worker>) {
    forall w :: w in workers ==> StageStatus(records, workers[w])
  }

  ghost predicate SubmitStatuses(records: map<string, JobResult>, subs: map<string, Submitter>) {
    forall id :: id in subs ==> SubmitStatus(records, id, subs[id])
  }

  /** An accepted job that is neither queued nor held is settled. */
  ghost predicate NoneLost(s: State) {
    forall id :: id in s.submitters && s.submitters[id].Accepted? ==>
      InQueue(s.queue, id) || InHands(s.workers, id) || Settled(s.store.results, id)
  }

  ghost predicate Once(s: State) {
    && QueueDistinct(s.queue)
    && HandsDistinct(s.workers)
    && QueueOutOfHands(s.queue, s.workers)
    && QueueStatuses(s.store.results, s.queue)
    && StageStatuses(s.store.results, s.workers)
    && SubmitStatuses(s.store.results, s.submitters)
    && NoneLost(s)
  }

  // ----- places -----

  /** A job still being submitted is neither queued nor held. */
  lemma SubmittedIsNowhere(s: State, id: string)
    requires Base(s) && (id in s.submitters ==> !s.submitters[id].Accepted?)
    ensures !InQueue(s.queue, id) && !InHands(s.workers, id)
  {
  }

  lemma HeldStays(workers: map<nat, Worker>, w: nat, next: Worker, id: string)
    requires InHands(workers, id) && w in workers
    requires Holds(workers[w], id) ==> Holds(next, id)
    ensures InHands(workers[w := next], id)
  {
    var v :| v in workers && Holds(workers[v], id);
    assert Holds(workers[w := next][v], id);
  }

  lemma QueuedStays(queue: seq<Job>, job: Job, id: string)
    requires InQueue(queue, id) || job.id == id
    ensures InQueue(queue + [job], id)
  {
    if job.id == id {
      assert (queue + [job])[|queue|] == job;
    } else {
      var i :| 0 <= i < |queue| && queue[i].id == id;
      assert (queue + [job])[i] == queue[i];
    }
  }

  // ----- submitters -----

  /** A submitter moves without being accepted, and its record does not change. */
  lemma AdvanceKeepsOnce(s: State, id: string, next: Submitter)
    requires Once(s) && SubmitStatus(s.store.results, id, next)
    requires next.Accepted? ==> InQueue(s.queue, id) || InHands(s.workers, id)
    ensures Once(s.(submitters := s.submitters[id := next]))
  {
  }

  lemma InitializeKeepsOnce(s: State, id: string, r: JobResult, now: Time)
    requires Base(s) && Once(s) && id in s.submitters && s.submitters[id].Initializing? && r.status == Pending
    ensures Once(s.(submitters := s.submitters[id := Pushing(s.submitters[id].job)], store := SetRecord(s.store, id, r, now)))
  {
    SubmittedIsNowhere(s, id);
    var t := s.(submitters := s.submitters[id := Pushing(s.submitters[id].job)], store := SetRecord(s.store, id, r, now));
    OtherStatusesKept(s, id, t.store.results);
    forall x | x in t.submitters && t.submitters[x].Accepted?
      ensures InQueue(t.queue, x) || InHands(t.workers, x) || Settled(t.store.results, x)
    {
      assert x in s.submitters && x != id;
    }
  }

  /** Changing only an absent job's record keeps the statuses of everything queued or held. */
  lemma OtherStatusesKept(s: State, id: string, after: map<string, JobResult>)
    requires Once(s) && !InQueue(s.queue, id) && !InHands(s.workers, id)
    requires forall x :: x != id && x in s.store.results ==> x in after && after[x] == s.store.results[x]
    ensures QueueStatuses(after, s.queue) && StageStatuses(after, s.workers)
  {
  }

  lemma RollbackKeepsOnce(s: State, id: string)
    requires Base(s) && Once(s) && id in s.submitters && s.submitters[id].RollingBack?
    ensures Once(s.(submitters := s.submitters[id := Rejected(s.submitters[id].job)], store := DeleteRecord(s.store, id)))
  {
    SubmittedIsNowhere(s, id);
    var t := s.(submitters := s.submitters[id := Rejected(s.submitters[id].job)], store := DeleteRecord(s.store, id));
    OtherStatusesKept(s, id, t.store.results);
    forall x | x in t.submitters && t.submitters[x].Accepted?
      ensures InQueue(t.queue, x) || InHands(t.workers, x) || Settled(t.store.results, x)
    {
      assert x in s.submitters && x != id;
    }
    forall x | x in t.submitters ensures SubmitStatus(t.store.results, x, t.submitters[x]) {
      if x != id { assert SubmitStatus(s.store.results, x, s.submitters[x]); }
    }
  }

  lemma EnqueueKeepsOnce(s: State, job: Job)
    requires Base(s) && Once(s) && job.id in s.submitters && s.submitters[job.id] == Pushing(job)
    ensures Once(s.(submitters := s.submitters[job.id := Accepted(job)], queue := s.queue + [job]))
  {
    SubmittedIsNowhere(s, job.id);
    assert SubmitStatus(s.store.results, job.id, s.submitters[job.id]);
    var t := s.(submitters := s.submitters[job.id := Accepted(job)], queue := s.queue + [job]);
    forall x | x in t.submitters && t.submitters[x].Accepted?
      ensures InQueue(t.queue, x) || InHands(t.workers, x) || Settled(t.store.results, x)
    {
      if x == job.id || InQueue(s.queue, x) { QueuedStays(s.queue, job, x); }
    }
  }

  lemma HandOffKeepsOnce(s: State, job: Job, w: nat)
    requires Base(s) && Once(s) && job.id in s.submitters && s.submitters[job.id] == Pushing(job)
    requires w in s.workers && s.workers[w].Idle?
    ensures Once(s.(submitters := s.submitters[job.id := Accepted(job)], workers := s.workers[w := Fetched(job)]))
  {
    SubmittedIsNowhere(s, job.id);
    assert SubmitStatus(s.store.results, job.id, s.submitters[job.id]);
    var t := s.(submitters := s.submitters[job.id := Accepted(job)], workers := s.workers[w := Fetched(job)]);
    forall x | x in t.submitters && t.submitters[x].Accepted?
      ensures InQueue(t.queue, x) || InHands(t.workers, x) || Settled(t.store.results, x)
    {
      if x == job.id {
        assert Holds(t.workers[w], x);
      } else if InHands(s.workers, x) {
        HeldStays(s.workers, w, Fetched(job), x);
      }
    }
  }

  lemma SubmitKeepsOnce(c: Config, s: State, id: string, a: SubmitStep)
    requires Base(s) && Once(s) && SubmitEnabled(c, s, id, a)
    ensures Once(SubmitApply(c, s, id, a))
  {
    match a
    case Begin(job) =>
      assert id !in s.store.results;
      AdvanceKeepsOnce(s, id, Reserving(job));
    case Reserve => ReserveKeepsOnce(c, s, id);
    case Initialize(created, now) =>
      InitializeKeepsOnce(s, id, Blank(s.submitters[id].job, Pending).(createdAt := created, updatedAt := created), now);
    case Push =>
      if |s.queue| < c.capacity {
        EnqueueKeepsOnce(s, s.submitters[id].job);
      } else {
        assert SubmitStatus(s.store.results, id, s.submitters[id]);
        AdvanceKeepsOnce(s, id, RollingBack(s.submitters[id].job));
      }
    case HandOff(w) => HandOffKeepsOnce(s, s.submitters[id].job, w);
    case Rollback => RollbackKeepsOnce(s, id);
  }

  lemma ReserveKeepsOnce(c: Config, s: State, id: string)
    requires Base(s) && Once(s) && SubmitEnabled(c, s, id, Reserve)
    ensures Once(SubmitApply(c, s, id, Reserve))
  {
    AdvanceKeepsOnce(s, id, SubmitNext(c, s, id, Reserve));
    assert SubmitApply(c, s, id, Reserve).store.results == s.store.results;
  }

  // ----- cancelers -----

  /** Writing Canceled is compatible with every place a job can be in. */
  lemma CancelWriteKeepsOnce(s: State, id: string, r: JobResult, now: Time)
    requires Once(s) && r.status == Canceled
    ensures Once(s.(store := SetRecord(s.store, id, r, now)))
  {
  }

  lemma CancelKeepsOnce(s: State, k: nat, a: CancelStep)
    requires Once(s) && CancelEnabled(s, k, a)
    ensures Once(CancelApply(s, k, a))
  {
    if a.Write? {
      CancelWriteKeepsOnce(s, s.cancelers[k].id, CanceledRecord(s.cancelers[k].copy), a.now);
    }
  }

  // ----- workers -----

  /** A worker moves on with the same job. */
  lemma MoveKeepsOnce(s: State, w: nat, next: Worker)
    requires Once(s) && w in s.workers && !s.workers[w].Idle?
    requires !next.Idle? && next.job == s.workers[w].job && StageStatus(s.store.results, next)
    ensures Once(s.(workers := s.workers[w := next]))
  {
    forall x | x in s.submitters && s.submitters[x].Accepted?
      ensures InQueue(s.queue, x) || InHands(s.workers[w := next], x) || Settled(s.store.results, x)
    {
      if InHands(s.workers, x) { HeldStays(s.workers, w, next, x); }
    }
  }

  /** A worker writes its own job's record and moves on with the same job. */
  lemma WorkerWriteKeepsOnce(s: State, w: nat, next: Worker, r: JobResult, now: Time)
    requires Base(s) && Once(s) && w in s.workers && !s.workers[w].Idle?
    requires !next.Idle? && next.job == s.workers[w].job
    requires StageStatus(SetRecord(s.store, next.job.id, r, now).results, next)
    ensures Once(s.(workers := s.workers[w := next], store := SetRecord(s.store, next.job.id, r, now)))
  {
    var after := SetRecord(s.store, next.job.id, r, now).results;
    WriteKeepsStatuses(s, w, next.job.id, after);
    forall x | x in s.submitters && s.submitters[x].Accepted?
      ensures InQueue(s.queue, x) || InHands(s.workers[w := next], x) || Settled(after, x)
    {
      if InHands(s.workers, x) { HeldStays(s.workers, w, next, x); }
    }
  }

  /** Writing a held job's record leaves every other process's record as it was. */
  lemma WriteKeepsStatuses(s: State, w: nat, id: string, after: map<string, JobResult>)
    requires Base(s) && Once(s) && w in s.workers && Holds(s.workers[w], id)
    requires id in after && forall x :: x != id ==> (x in after <==> x in s.store.results)
    requires forall x :: x != id && x in after ==> after[x] == s.store.results[x]
    ensures forall v :: v in s.workers && v != w ==> StageStatus(after, s.workers[v])
    ensures SubmitStatuses(after, s.submitters) && QueueStatuses(after, s.queue)
  {
    assert WorkerSound(s.submitters, s.blobs, s.workers[w]);
    forall v | v in s.workers && v != w ensures StageStatus(after, s.workers[v]) {
      assert StageStatus(s.store.results, s.workers[v]);
    }
    forall x | x in s.submitters ensures SubmitStatus(after, x, s.submitters[x]) {
      assert SubmitStatus(s.store.results, x, s.submitters[x]);
    }
  }

  lemma TakeKeepsOnce(s: State, w: nat)
    requires Once(s) && w in s.workers && s.workers[w].Idle? && s.queue != []
    ensures Once(s.(workers := s.workers[w := Fetched(s.queue[0])], queue := s.queue[1..]))
  {
    var job, t := s.queue[0], s.(workers := s.workers[w := Fetched(s.queue[0])], queue := s.queue[1..]);
    forall x | x in s.submitters && s.submitters[x].Accepted?
      ensures InQueue(t.queue, x) || InHands(t.workers, x) || Settled(t.store.results, x)
    {
      if x == job.id {
        assert Holds(t.workers[w], x);
      } else if InQueue(s.queue, x) {
        var i :| 0 <= i < |s.queue| && s.queue[i].id == x;
        assert t.queue[i - 1].id == x;
      } else if InHands(s.workers, x) {
        HeldStays(s.workers, w, Fetched(job), x);
      }
    }
  }

  lemma AckKeepsOnce(s: State, w: nat)
    requires Once(s) && w in s.workers && s.workers[w].Returning?
    ensures Once(s.(workers := s.workers[w := Idle]))
  {
    assert StageStatus(s.store.results, s.workers[w]);
    forall x | x in s.submitters && s.submitters[x].Accepted?
      ensures InQueue(s.queue, x) || InHands(s.workers[w := Idle], x) || Settled(s.store.results, x)
    {
      if InHands(s.workers, x) && !Settled(s.store.results, x) { HeldStays(s.workers, w, Idle, x); }
    }
  }

  lemma NextStage(c: Config, s: State, w: nat, a: WorkStep)
    requires Once(s) && WorkEnabled(s, w, a) && !a.Take? && !a.Ack?
    ensures !WorkNext(c, s, w, a).Idle? && WorkNext(c, s, w, a).job == s.workers[w].job
    ensures !a.Start? && !a.Save? ==> StageStatus(s.store.results, WorkNext(c, s, w, a))
  {
  }

  lemma WorkKeepsOnce(c: Config, s: State, w: nat, a: WorkStep)
    requires Base(s) && Once(s) && WorkEnabled(s, w, a)
    ensures Once(WorkApply(c, s, w, a))
  {
    if a.Take? {
      TakeKeepsOnce(s, w);
    } else if a.Ack? {
      AckKeepsOnce(s, w);
    } else {
      NextStage(c, s, w, a);
      var next := WorkNext(c, s, w, a);
      if a.Start? {
        WorkerWriteKeepsOnce(s, w, next, Blank(next.job, Processing), a.now);
      } else if a.Save? {
        assert WorkerSound(s.submitters, s.blobs, s.workers[w]);
        WorkerWriteKeepsOnce(s, w, next, s.workers[w].result, a.now);
      } else {
        MoveKeepsOnce(s, w, next);
      }
    }
  }

  lemma StepKeepsOnce(c: Config, s: State, a: Action)
    requires Base(s) && Once(s) && Enabled(c, s, a) && !a.Redeliver?
    ensures Once(Apply(c, s, a))
  {
    match a
    case Submit(id, step) => SubmitKeepsOnce(c, s, id, step);
    case Cancel(k, step) => CancelKeepsOnce(s, k, step);
    case Work(w, step) => WorkKeepsOnce(c, s, w, step);
    case Shutdown =>
  }

  lemma {:induction false} RunKeepsOnce(c: Config, s: State, acts: seq<Action>, t: State)
    requires Base(s) && Once(s) && Leads(c, s, acts, t) && NoRedelivery(acts)
    ensures Base(t) && Once(t)
    decreases |acts|
  {
    if acts != [] {
      StepKeepsBase(c, s, acts[0]);
      StepKeepsOnce(c, s, acts[0]);
      RunKeepsOnce(c, Apply(c, s, acts[0]), acts[1..], t);
    }
  }

  lemma ReachableIsOnce(c: Config, s: State)
    requires ReachableOnce(c, s)
    ensures Base(s) && Once(s)
  {
    var init, acts :| Init(init) && NoRedelivery(acts) && Leads(c, init, acts, s);
    RunKeepsOnce(c, init, acts, s);
  }

  // ----- main results -----

  /** An accepted job is queued once, or held by one worker, or nowhere and then its status is terminal. */
  lemma AcceptedJobIsInOnePlace(c: Config, s: State, job: Job)
    requires ReachableOnce(c, s) && IsAccepted(s.submitters, job)
    ensures InQueue(s.queue, job.id) ==> !InHands(s.workers, job.id)
    ensures forall i, j :: 0 <= i < |s.queue| && 0 <= j < |s.queue| && s.queue[i].id == s.queue[j].id == job.id ==> i == j
    ensures forall v, w :: v in s.workers && w in s.workers && Holds(s.workers[v], job.id) && Holds(s.workers[w], job.id)
              ==> v == w
    ensures job.id in s.store.results
    ensures !InQueue(s.queue, job.id) && !InHands(s.workers, job.id) ==> s.store.results[job.id].status.Terminal()
  {
    ReachableIsOnce(c, s);
  }

  /** A Pending or Processing record always has its submission under way, a queue entry or a worker. */
  lemma NoRecordIsStuck(c: Config, s: State, id: string)
    requires ReachableOnce(c, s) && id in s.store.results && !s.store.results[id].status.Terminal()
    ensures id in s.submitters
    ensures s.submitters[id].Pushing? || s.submitters[id].RollingBack?
            || InQueue(s.queue, id) || InHands(s.workers, id)
  {
    ReachableIsOnce(c, s);
    assert RecordBelongs(s.submitters, id, s.store.results[id]);
    assert SubmitStatus(s.store.results, id, s.submitters[id]);
  }
}
