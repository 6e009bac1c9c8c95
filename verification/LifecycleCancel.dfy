/**
 What a cancellation, a completion and a rollback are worth under interleaving.  Each can be
 overwritten by a write whose read came first; each lasts exactly when no such write is pending.
 */
module LifecycleCancel {
  import opened Jobs
  import opened StoreModel
  import opened Lifecycle
  import opened LifecycleBase
  import opened LifecycleOnce

  ghost predicate AcceptedID(s: State, id: string) {
    id in s.submitters && s.submitters[id].Accepted?
  }

  /** Some worker has read the job as not canceled and will write it without looking again. */
  ghost predicate WorkerWritePending(s: State, id: string) {
    exists w :: w in s.workers && InWindow(s.workers[w]) && s.workers[w].job.id == id
  }

  /** Some canceler has read the job as not terminal and will write it without looking again. */
  ghost predicate CancelWritePending(s: State, id: string) {
    exists k :: k in s.cancelers && s.cancelers[k].Writing? && s.cancelers[k].id == id
  }

  // ----- what a step leaves alone -----

  lemma SubmitLeavesOthers(c: Config, s: State, who: string, a: SubmitStep, id: string)
    requires SubmitEnabled(c, s, who, a) && who != id
    ensures
      var t := SubmitApply(c, s, who, a);
      && Lookup(t.store, id) == Lookup(s.store, id) && t.cancelers == s.cancelers
      && (id in t.submitters <==> id in s.submitters)
      && (id in s.submitters ==> t.submitters[id] == s.submitters[id])
  {
  }

  lemma WorkLeavesOthers(c: Config, s: State, w: nat, a: WorkStep, id: string)
    requires WorkEnabled(s, w, a) && (a.Start? || a.Save? ==> s.workers[w].job.id != id)
    ensures
      var t := WorkApply(c, s, w, a);
      Lookup(t.store, id) == Lookup(s.store, id) && t.cancelers == s.cancelers && t.submitters == s.submitters
  {
  }

  // ----- a settled cancellation -----

  ghost predicate CanceledForGood(s: State, id: string) {
    AcceptedID(s, id) && IsCanceled(s.store, id) && !WorkerWritePending(s, id)
  }

  predicate Harmless(wk: Worker, id: string) { InWindow(wk) ==> wk.job.id != id }

  ghost predicate AllHarmless(workers: map<nat, Worker>, id: string) {
    forall v :: v in workers ==> Harmless(workers[v], id)
  }

  lemma HarmlessStays(workers: map<nat, Worker>, w: nat, next: Worker, id: string)
    requires AllHarmless(workers, id) && Harmless(next, id)
    ensures AllHarmless(workers[w := next], id)
  {
  }

  lemma NoWritePending(s: State, id: string)
    ensures !WorkerWritePending(s, id) <==> AllHarmless(s.workers, id)
  {
  }

  lemma SubmitKeepsCanceled(c: Config, s: State, id: string, who: string, a: SubmitStep)
    requires Base(s) && CanceledForGood(s, id) && SubmitEnabled(c, s, who, a)
    ensures CanceledForGood(SubmitApply(c, s, who, a), id)
  {
    assert who != id;
    SubmitLeavesOthers(c, s, who, a, id);
    NoWritePending(s, id);
    NoWritePending(SubmitApply(c, s, who, a), id);
    if a.HandOff? { HarmlessStays(s.workers, a.w, Fetched(s.submitters[who].job), id); }
  }

  lemma NextIsHarmless(c: Config, s: State, id: string, w: nat, a: WorkStep)
    requires WorkEnabled(s, w, a) && IsCanceled(s.store, id) && Harmless(s.workers[w], id)
    ensures Harmless(WorkNext(c, s, w, a), id)
  {
  }

  lemma WorkKeepsCanceled(c: Config, s: State, id: string, w: nat, a: WorkStep)
    requires CanceledForGood(s, id) && WorkEnabled(s, w, a)
    ensures CanceledForGood(WorkApply(c, s, w, a), id)
  {
    NoWritePending(s, id);
    NoWritePending(WorkApply(c, s, w, a), id);
    WorkLeavesOthers(c, s, w, a, id);
    NextIsHarmless(c, s, id, w, a);
    HarmlessStays(s.workers, w, WorkNext(c, s, w, a), id);
  }

  lemma CancelKeepsCanceled(s: State, id: string, k: nat, a: CancelStep)
    requires CanceledForGood(s, id) && CancelEnabled(s, k, a)
    ensures CanceledForGood(CancelApply(s, k, a), id)
  {
  }

  lemma StepKeepsCanceled(c: Config, s: State, id: string, a: Action)
    requires Base(s) && CanceledForGood(s, id) && Enabled(c, s, a)
    ensures CanceledForGood(Apply(c, s, a), id)
  {
    match a
    case Submit(who, step) => SubmitKeepsCanceled(c, s, id, who, step);
    case Cancel(k, step) => CancelKeepsCanceled(s, id, k, step);
    case Work(w, step) => WorkKeepsCanceled(c, s, id, w, step);
    case Shutdown =>
    case Redeliver(_) =>
  }

  lemma {:induction false} RunKeepsCanceled(c: Config, s: State, id: string, acts: seq<Action>, t: State)
    requires Base(s) && CanceledForGood(s, id) && Leads(c, s, acts, t)
    ensures CanceledForGood(t, id)
    decreases |acts|
  {
    if acts != [] {
      StepKeepsBase(c, s, acts[0]);
      StepKeepsCanceled(c, s, id, acts[0]);
      RunKeepsCanceled(c, Apply(c, s, acts[0]), id, acts[1..], t);
    }
  }

  /** In every later state the job is still canceled. */
  ghost predicate StaysCanceled(c: Config, s: State, id: string) {
    forall acts, t :: Leads(c, s, acts, t) ==> IsCanceled(t.store, id)
  }

  lemma OneStep(c: Config, s: State, a: Action)
    requires Enabled(c, s, a)
    ensures Leads(c, s, [a], Apply(c, s, a))
  {
  }

  lemma TwoSteps(c: Config, s: State, a: Action, b: Action)
    requires Enabled(c, s, a) && Enabled(c, Apply(c, s, a), b)
    ensures Leads(c, s, [a] + [b], Apply(c, Apply(c, s, a), b))
  {
  }

  /** A pending worker write puts the job out of Canceled. */
  lemma PendingWriteUndoesCancel(c: Config, s: State, id: string)
    requires Base(s) && WorkerWritePending(s, id)
    ensures !StaysCanceled(c, s, id)
  {
    var w :| w in s.workers && InWindow(s.workers[w]) && s.workers[w].job.id == id;
    assert WorkerSound(s.submitters, s.blobs, s.workers[w]);
    if s.workers[w].Starting? {
      OneStep(c, s, Work(w, Start(1)));
      assert !IsCanceled(Apply(c, s, Work(w, Start(1))).store, id);
    } else if s.workers[w].Storing? {
      OneStep(c, s, Work(w, Save(1)));
      assert !IsCanceled(Apply(c, s, Work(w, Save(1))).store, id);
    } else {
      UploadUndoesCancel(c, s, w);
    }
  }

  lemma UploadUndoesCancel(c: Config, s: State, w: nat)
    requires w in s.workers && s.workers[w].Uploading?
    ensures !StaysCanceled(c, s, s.workers[w].job.id)
  {
    var upload, save := Work(w, Upload(false, "")), Work(w, Save(1));
    var t := Apply(c, Apply(c, s, upload), save);
    TwoSteps(c, s, upload, save);
    assert !IsCanceled(t.store, s.workers[w].job.id);
  }

  /**
   A canceled accepted job stays canceled, whatever interleaving and redeliveries follow, exactly
   when no worker on it sits between its not-canceled read and the write that follows.
   */
  lemma CanceledStaysIff(c: Config, s: State, id: string)
    requires Reachable(c, s) && AcceptedID(s, id) && IsCanceled(s.store, id)
    ensures StaysCanceled(c, s, id) <==> !WorkerWritePending(s, id)
  {
    ReachableIsBase(c, s);
    if WorkerWritePending(s, id) {
      PendingWriteUndoesCancel(c, s, id);
    } else {
      forall acts, t | Leads(c, s, acts, t) ensures IsCanceled(t.store, id) {
        RunKeepsCanceled(c, s, id, acts, t);
      }
    }
  }

  // ----- a settled completion or failure -----

  ghost predicate FinishedForGood(s: State, id: string, st: JobStatus) {
    && AcceptedID(s, id) && id in s.store.results && s.store.results[id].status == st
    && !CancelWritePending(s, id)
  }

  lemma FinishedIsNotWritten(s: State, id: string, w: nat)
    requires Once(s) && id in s.store.results && w in s.workers && Holds(s.workers[w], id)
    requires s.store.results[id].status == Completed || s.store.results[id].status == Failed
    ensures s.workers[w].Notifying? || s.workers[w].Unregistering? || s.workers[w].Returning?
  {
  }

  lemma StepKeepsFinished(c: Config, s: State, id: string, st: JobStatus, a: Action)
    requires Base(s) && Once(s) && FinishedForGood(s, id, st) && (st == Completed || st == Failed)
    requires Enabled(c, s, a) && !a.Redeliver?
    ensures FinishedForGood(Apply(c, s, a), id, st)
  {
    match a
    case Submit(who, step) => SubmitKeepsFinished(c, s, id, st, who, step);
    case Cancel(k, step) => CancelKeepsFinished(s, id, st, k, step);
    case Work(w, step) =>
      if Holds(s.workers[w], id) { FinishedIsNotWritten(s, id, w); }
      WorkLeavesOthers(c, s, w, step, id);
    case Shutdown =>
  }

  lemma SubmitKeepsFinished(c: Config, s: State, id: string, st: JobStatus, who: string, a: SubmitStep)
    requires Base(s) && FinishedForGood(s, id, st) && SubmitEnabled(c, s, who, a)
    ensures FinishedForGood(SubmitApply(c, s, who, a), id, st)
  {
    assert who != id;
    SubmitLeavesOthers(c, s, who, a, id);
  }

  lemma CancelKeepsFinished(s: State, id: string, st: JobStatus, k: nat, a: CancelStep)
    requires FinishedForGood(s, id, st) && st.Terminal() && CancelEnabled(s, k, a)
    ensures FinishedForGood(CancelApply(s, k, a), id, st)
  {
  }

  lemma {:induction false} RunKeepsFinished(c: Config, s: State, id: string, st: JobStatus, acts: seq<Action>, t: State)
    requires Base(s) && Once(s) && FinishedForGood(s, id, st) && (st == Completed || st == Failed)
    requires Leads(c, s, acts, t) && NoRedelivery(acts)
    ensures FinishedForGood(t, id, st)
    decreases |acts|
  {
    if acts != [] {
      StepKeepsBase(c, s, acts[0]);
      StepKeepsOnce(c, s, acts[0]);
      StepKeepsFinished(c, s, id, st, acts[0]);
      RunKeepsFinished(c, Apply(c, s, acts[0]), id, st, acts[1..], t);
    }
  }

  /** In every later state reached without redelivery the job still has this status. */
  ghost predicate StaysFinished(c: Config, s: State, id: string, st: JobStatus) {
    forall acts, t :: Leads(c, s, acts, t) && NoRedelivery(acts) ==>
      id in t.store.results && t.store.results[id].status == st
  }

  lemma PendingCancelOverwrites(c: Config, s: State, id: string, k: nat)
    requires k in s.cancelers && s.cancelers[k].Writing? && s.cancelers[k].id == id
    ensures Leads(c, s, [Cancel(k, Write(1))], Apply(c, s, Cancel(k, Write(1))))
    ensures IsCanceled(Apply(c, s, Cancel(k, Write(1))).store, id)
    ensures NoRedelivery([Cancel(k, Write(1))])
  {
  }

  lemma PendingCancelUnfinishes(c: Config, s: State, id: string, st: JobStatus)
    requires CancelWritePending(s, id) && st != Canceled
    ensures !StaysFinished(c, s, id, st)
  {
    var k :| k in s.cancelers && s.cancelers[k].Writing? && s.cancelers[k].id == id;
    PendingCancelOverwrites(c, s, id, k);
  }

  /**
   A completed or failed job keeps its status for ever, with a queue that delivers once, exactly
   when no canceler that read it earlier is still to write.
   */
  lemma FinishedStaysIff(c: Config, s: State, id: string, st: JobStatus)
    requires ReachableOnce(c, s) && AcceptedID(s, id) && (st == Completed || st == Failed)
    requires id in s.store.results && s.store.results[id].status == st
    ensures StaysFinished(c, s, id, st) <==> !CancelWritePending(s, id)
  {
    ReachableIsOnce(c, s);
    if CancelWritePending(s, id) {
      PendingCancelUnfinishes(c, s, id, st);
    } else {
      forall acts, t | Leads(c, s, acts, t) && NoRedelivery(acts)
        ensures id in t.store.results && t.store.results[id].status == st
      {
        RunKeepsFinished(c, s, id, st, acts, t);
      }
    }
  }

  // ----- a settled rollback -----

  ghost predicate DeletedForGood(s: State, id: string) {
    && id in s.submitters && s.submitters[id].Rejected? && id !in s.store.results
    && !CancelWritePending(s, id)
  }

  lemma StepKeepsDeleted(c: Config, s: State, id: string, a: Action)
    requires Base(s) && DeletedForGood(s, id) && Enabled(c, s, a)
    ensures DeletedForGood(Apply(c, s, a), id)
  {
    match a
    case Submit(who, step) => SubmitKeepsDeleted(c, s, id, who, step);
    case Cancel(k, step) => CancelKeepsDeleted(s, id, k, step);
    case Work(w, step) =>
      assert WorkerSound(s.submitters, s.blobs, s.workers[w]);
      WorkLeavesOthers(c, s, w, step, id);
    case Shutdown =>
    case Redeliver(_) =>
  }

  lemma SubmitKeepsDeleted(c: Config, s: State, id: string, who: string, a: SubmitStep)
    requires DeletedForGood(s, id) && SubmitEnabled(c, s, who, a)
    ensures DeletedForGood(SubmitApply(c, s, who, a), id)
  {
    assert who != id;
    SubmitLeavesOthers(c, s, who, a, id);
  }

  lemma CancelKeepsDeleted(s: State, id: string, k: nat, a: CancelStep)
    requires DeletedForGood(s, id) && CancelEnabled(s, k, a)
    ensures DeletedForGood(CancelApply(s, k, a), id)
  {
  }

  lemma {:induction false} RunKeepsDeleted(c: Config, s: State, id: string, acts: seq<Action>, t: State)
    requires Base(s) && DeletedForGood(s, id) && Leads(c, s, acts, t)
    ensures DeletedForGood(t, id)
    decreases |acts|
  {
    if acts != [] {
      StepKeepsBase(c, s, acts[0]);
      StepKeepsDeleted(c, s, id, acts[0]);
      RunKeepsDeleted(c, Apply(c, s, acts[0]), id, acts[1..], t);
    }
  }

  ghost predicate StaysDeleted(c: Config, s: State, id: string) {
    forall acts, t :: Leads(c, s, acts, t) ==> id !in t.store.results
  }

  /** A rolled-back submission leaves no record for ever exactly when no canceler that read it is still to write. */
  lemma DeletedStaysIff(c: Config, s: State, id: string)
    requires Reachable(c, s) && id in s.submitters && s.submitters[id].Rejected? && id !in s.store.results
    ensures StaysDeleted(c, s, id) <==> !CancelWritePending(s, id)
  {
    ReachableIsBase(c, s);
    if CancelWritePending(s, id) {
      var k :| k in s.cancelers && s.cancelers[k].Writing? && s.cancelers[k].id == id;
      PendingCancelOverwrites(c, s, id, k);
    } else {
      forall acts, t | Leads(c, s, acts, t) ensures id !in t.store.results {
        RunKeepsDeleted(c, s, id, acts, t);
      }
    }
  }

  // ----- the races are real: three reachable runs -----

  lemma ReachableStep(c: Config, s: State, a: Action)
    requires ReachableOnce(c, s) && Enabled(c, s, a) && !a.Redeliver?
    ensures ReachableOnce(c, Apply(c, s, a))
  {
    var init, acts :| Init(init) && NoRedelivery(acts) && Leads(c, init, acts, s);
    OneStep(c, s, a);
    LeadsAppend(c, init, acts, s, [a], Apply(c, s, a));
    assert NoRedelivery(acts + [a]);
  }

  lemma OnceIsReachable(c: Config, s: State)
    requires ReachableOnce(c, s)
    ensures Reachable(c, s)
  {
  }

  /** One submitted job, still to be pushed, with one idle worker. */
  lemma Submitted(c: Config, job: Job) returns (s: State)
    ensures ReachableOnce(c, s) && s.workers == map[0 := Idle] && s.queue == [] && s.cancelers == map[]
    ensures s.submitters == map[job.id := Pushing(job)]
    ensures job.id in s.store.results && s.store.results[job.id].status == Pending
  {
    s := Reserved(c, job);
    ReachableStep(c, s, Submit(job.id, Initialize(1, 1)));
    s := Apply(c, s, Submit(job.id, Initialize(1, 1)));
    assert s.submitters == map[job.id := Pushing(job)];
  }

  lemma Reserved(c: Config, job: Job) returns (s: State)
    ensures ReachableOnce(c, s) && s.workers == map[0 := Idle] && s.queue == [] && s.cancelers == map[]
    ensures s.submitters == map[job.id := Initializing(job)] && s.store.results == map[]
  {
    s := State(EMPTY, [], map[], map[], {}, false, [], map[], map[0 := Idle], map[]);
    assert Leads(c, s, [], s) && NoRedelivery([]) && Init(s);
    ReachableStep(c, s, Submit(job.id, Begin(job)));
    s := Apply(c, s, Submit(job.id, Begin(job)));
    ReachableStep(c, s, Submit(job.id, Reserve));
    s := Apply(c, s, Submit(job.id, Reserve));
    assert s.submitters == map[job.id := Initializing(job)];
  }

  /** A canceler that has read the job and is still to write. */
  lemma CancelerPoised(c: Config, s: State, k: nat, id: string) returns (t: State)
    requires ReachableOnce(c, s) && k !in s.cancelers
    requires id in s.store.results && !s.store.results[id].status.Terminal()
    ensures ReachableOnce(c, t)
    ensures t == s.(cancelers := s.cancelers[k := Writing(id, s.store.results[id])])
  {
    ReachableStep(c, s, Cancel(k, Request(id)));
    t := Apply(c, s, Cancel(k, Request(id)));
    ReachableStep(c, t, Cancel(k, Read));
    t := Apply(c, t, Cancel(k, Read));
    assert t.cancelers == s.cancelers[k := Writing(id, s.store.results[id])];
  }

  /** The job is pushed, taken and found not canceled. */
  lemma AcceptedAndChecked(c: Config, s: State, job: Job) returns (t: State)
    requires c.capacity > 0 && ReachableOnce(c, s) && s.workers == map[0 := Idle] && s.queue == []
    requires s.submitters == map[job.id := Pushing(job)]
    requires job.id in s.store.results && s.store.results[job.id].status == Pending
    ensures ReachableOnce(c, t) && t.workers == map[0 := Starting(job)]
    ensures t.submitters == map[job.id := Accepted(job)] && t.store == s.store && t.cancelers == s.cancelers
  {
    t := PushedAndTaken(c, s, job);
    ReachableStep(c, t, Work(0, Check));
    t := Apply(c, t, Work(0, Check));
    assert t.workers == map[0 := Starting(job)];
  }

  lemma PushedAndTaken(c: Config, s: State, job: Job) returns (t: State)
    requires c.capacity > 0 && ReachableOnce(c, s) && s.workers == map[0 := Idle] && s.queue == []
    requires s.submitters == map[job.id := Pushing(job)]
    ensures ReachableOnce(c, t) && t.workers == map[0 := Fetched(job)]
    ensures t.submitters == map[job.id := Accepted(job)] && t.store == s.store && t.cancelers == s.cancelers
  {
    t := JustPushed(c, s, job);
    ReachableStep(c, t, Work(0, Take));
    t := Apply(c, t, Work(0, Take));
    assert t.workers == map[0 := Fetched(job)];
  }

  lemma JustPushed(c: Config, s: State, job: Job) returns (t: State)
    requires c.capacity > 0 && ReachableOnce(c, s) && s.queue == []
    requires s.submitters == map[job.id := Pushing(job)]
    ensures ReachableOnce(c, t) && t.workers == s.workers && t.queue == [job]
    ensures t.submitters == map[job.id := Accepted(job)] && t.store == s.store && t.cancelers == s.cancelers
  {
    ReachableStep(c, s, Submit(job.id, Push));
    t := Apply(c, s, Submit(job.id, Push));
    assert t.submitters == map[job.id := Accepted(job)];
  }

  /** A cancel that lands between a worker's check and its write is lost: the job ends up processing. */
  lemma CancelCanBeLost(c: Config, job: Job) returns (s: State)
    requires c.capacity > 0
    ensures ReachableOnce(c, s) && AcceptedID(s, job.id) && IsCanceled(s.store, job.id)
    ensures !StaysCanceled(c, s, job.id)
  {
    s := Submitted(c, job);
    s := AcceptedAndChecked(c, s, job);
    s := CancelerPoised(c, s, 0, job.id);
    ReachableStep(c, s, Cancel(0, Write(1)));
    s := Apply(c, s, Cancel(0, Write(1)));
    OnceIsReachable(c, s);
    assert s.workers[0] == Starting(job) && InWindow(s.workers[0]);
    CanceledStaysIff(c, s, job.id);
  }

  /** A canceler that read a submission before it was rolled back brings its record back. */
  lemma DeletedCanReturn(c: Config, job: Job) returns (s: State)
    requires c.capacity == 0
    ensures ReachableOnce(c, s) && job.id in s.submitters && s.submitters[job.id].Rejected?
    ensures job.id !in s.store.results && !StaysDeleted(c, s, job.id)
  {
    s := Submitted(c, job);
    s := CancelerPoised(c, s, 0, job.id);
    ReachableStep(c, s, Submit(job.id, Push));
    s := Apply(c, s, Submit(job.id, Push));
    assert s.submitters[job.id] == RollingBack(job);
    ReachableStep(c, s, Submit(job.id, Rollback));
    s := Apply(c, s, Submit(job.id, Rollback));
    OnceIsReachable(c, s);
    DeletedStaysIff(c, s, job.id);
  }

  /** A canceler that read a job before it completed turns the completed job into a canceled one. */
  lemma CompletedCanBeCanceled(c: Config, job: Job) returns (s: State)
    requires c.capacity > 0
    ensures ReachableOnce(c, s) && AcceptedID(s, job.id)
    ensures job.id in s.store.results && s.store.results[job.id].status == Completed
    ensures !StaysFinished(c, s, job.id, Completed)
  {
    s := Submitted(c, job);
    s := CancelerPoised(c, s, 0, job.id);
    s := AcceptedAndChecked(c, s, job);
    s := RenderedAndSaved(c, s, job);
    assert CancelWritePending(s, job.id);
    FinishedStaysIff(c, s, job.id, Completed);
  }

  lemma RenderedAndSaved(c: Config, s: State, job: Job) returns (t: State)
    requires ReachableOnce(c, s) && s.workers == map[0 := Starting(job)]
    ensures ReachableOnce(c, t) && t.submitters == s.submitters && t.cancelers == s.cancelers
    ensures job.id in t.store.results && t.store.results[job.id].status == Completed
  {
    t := RenderedTo(c, s, job);
    ReachableStep(c, t, Work(0, Recheck));
    t := Apply(c, t, Work(0, Recheck));
    assert t.workers[0] == Uploading(job, "");
    ReachableStep(c, t, Work(0, Upload(true, "")));
    t := Apply(c, t, Work(0, Upload(true, "")));
    ReachableStep(c, t, Work(0, Save(1)));
    t := Apply(c, t, Work(0, Save(1)));
  }

  lemma RenderedTo(c: Config, s: State, job: Job) returns (t: State)
    requires ReachableOnce(c, s) && s.workers == map[0 := Starting(job)]
    ensures ReachableOnce(c, t) && t.submitters == s.submitters && t.cancelers == s.cancelers
    ensures t.workers == map[0 := Rechecking(job, Rendered(""))]
    ensures job.id in t.store.results && t.store.results[job.id].status == Processing
  {
    t := StartedRendering(c, s, job);
    ReachableStep(c, t, Work(0, Render(Rendered(""))));
    t := Apply(c, t, Work(0, Render(Rendered(""))));
    assert t.workers == map[0 := Rechecking(job, Rendered(""))];
  }

  lemma StartedRendering(c: Config, s: State, job: Job) returns (t: State)
    requires ReachableOnce(c, s) && s.workers == map[0 := Starting(job)]
    ensures ReachableOnce(c, t) && t.submitters == s.submitters && t.cancelers == s.cancelers
    ensures t.workers == map[0 := Rendering(job, 1)]
    ensures job.id in t.store.results && t.store.results[job.id].status == Processing
  {
    ReachableStep(c, s, Work(0, Start(1)));
    t := Apply(c, s, Work(0, Start(1)));
    ReachableStep(c, t, Work(0, Register));
    t := Apply(c, t, Work(0, Register));
    assert t.workers == map[0 := Rendering(job, 1)];
  }
}
