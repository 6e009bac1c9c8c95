/**
 What every interleaving keeps, redeliveries included: idempotency keys have one owner,
 accepted jobs keep their records, and a completed job's document is in the blob store.
 */
module LifecycleBase {
  import opened Jobs
  import opened StoreModel
  import opened Lifecycle

  // ----- the invariant, one predicate per pair of components -----

  /** Submitters are filed under the identifier they drew. */
  ghost predicate Named(subs: map<string, Submitter>) {
    forall id :: id in subs ==> subs[id].job.id == id
  }

  predicate OwnsKey(sub: Submitter) {
    sub.Initializing? || sub.Pushing? || sub.RollingBack? || sub.Accepted?
  }

  predicate HasRecord(sub: Submitter) {
    sub.Pushing? || sub.RollingBack? || sub.Accepted?
  }

  /** A record may outlive its submission only by being written back after the rollback. */
  predicate MayHaveRecord(sub: Submitter) {
    HasRecord(sub) || sub.Rejected?
  }

  /** Every submitter past its reservation holds its key. */
  ghost predicate KeysOwned(subs: map<string, Submitter>, reserved: map<string, string>) {
    forall id :: id in subs && OwnsKey(subs[id]) && subs[id].job.idempotencyKey != "" ==>
      subs[id].job.idempotencyKey in reserved && reserved[subs[id].job.idempotencyKey] == id
  }

  predicate RecordBelongs(subs: map<string, Submitter>, id: string, r: JobResult) {
    id in subs && MayHaveRecord(subs[id]) && r.idempotencyKey == subs[id].job.idempotencyKey
  }

  ghost predicate RecordsBelong(subs: map<string, Submitter>, records: map<string, JobResult>) {
    forall id :: id in records ==> RecordBelongs(subs, id, records[id])
  }

  ghost predicate RecordsKept(subs: map<string, Submitter>, records: map<string, JobResult>) {
    forall id :: id in subs && HasRecord(subs[id]) ==> id in records
  }

  ghost predicate QueueAccepted(subs: map<string, Submitter>, queue: seq<Job>) {
    forall i :: 0 <= i < |queue| ==> IsAccepted(subs, queue[i])
  }

  predicate Downloadable(blobs: map<string, string>, r: JobResult) {
    r.status == Completed ==> r.pdfKey in blobs
  }

  predicate WorkerSound(subs: map<string, Submitter>, blobs: map<string, string>, wk: Worker) {
    wk.Idle? ||
    (IsAccepted(subs, wk.job) &&
     (wk.Storing? ==>
        && wk.result.idempotencyKey == wk.job.idempotencyKey
        && (wk.result.status == Completed || wk.result.status == Failed)
        && Downloadable(blobs, wk.result)))
  }

  ghost predicate WorkersSound(subs: map<string, Submitter>, blobs: map<string, string>, workers: map<nat, Worker>) {
    forall w :: w in workers ==> WorkerSound(subs, blobs, workers[w])
  }

  predicate CancelerSound(subs: map<string, Submitter>, c: Canceler) {
    c.Writing? ==> RecordBelongs(subs, c.id, c.copy) && !c.copy.status.Terminal()
  }

  ghost predicate CancelersSound(subs: map<string, Submitter>, cancelers: map<nat, Canceler>) {
    forall c :: c in cancelers ==> CancelerSound(subs, cancelers[c])
  }

  ghost predicate AllDownloadable(blobs: map<string, string>, records: map<string, JobResult>) {
    forall id :: id in records ==> Downloadable(blobs, records[id])
  }

  ghost predicate Base(s: State) {
    && Named(s.submitters)
    && KeysOwned(s.submitters, s.store.idempotency)
    && RecordsBelong(s.submitters, s.store.results)
    && RecordsKept(s.submitters, s.store.results)
    && QueueAccepted(s.submitters, s.queue)
    && WorkersSound(s.submitters, s.blobs, s.workers)
    && CancelersSound(s.submitters, s.cancelers)
    && AllDownloadable(s.blobs, s.store.results)
  }

  // ----- submitters -----

  /** A submitter moves without giving up a key or a record. */
  predicate Advances(before: Submitter, after: Submitter) {
    && before.job == after.job && !before.Accepted?
    && (MayHaveRecord(before) ==> MayHaveRecord(after))
  }

  lemma SubmitterAdvances(s: State, id: string, next: Submitter)
    requires Base(s) && id in s.submitters && Advances(s.submitters[id], next)
    ensures
      var subs := s.submitters[id := next];
      && Named(subs) && QueueAccepted(subs, s.queue) && WorkersSound(subs, s.blobs, s.workers)
      && RecordsBelong(subs, s.store.results) && CancelersSound(subs, s.cancelers)
  {
  }

  lemma BeginKeepsBase(s: State, job: Job)
    requires Base(s) && job.id !in s.submitters
    ensures Base(s.(submitters := s.submitters[job.id := Reserving(job)]))
  {
  }

  /** A submitter moves and may reserve its key; records, queue and processes stay as they are. */
  lemma AdvanceKeepsBase(s: State, id: string, next: Submitter, store: Store)
    requires Base(s) && id in s.submitters && Advances(s.submitters[id], next)
    requires store.results == s.store.results
    requires HasRecord(next) ==> HasRecord(s.submitters[id])
    requires KeysOwned(s.submitters[id := next], store.idempotency)
    ensures Base(s.(submitters := s.submitters[id := next], store := store))
  {
    SubmitterAdvances(s, id, next);
  }

  lemma ReserveKeepsKeys(s: State, id: string, next: Submitter)
    requires Base(s) && id in s.submitters && s.submitters[id].Reserving? && next.job == s.submitters[id].job
    requires next.Initializing?
    requires next.job.idempotencyKey == "" || next.job.idempotencyKey !in s.store.idempotency
    ensures KeysOwned(s.submitters[id := next], ReserveKey(s.store, next.job.idempotencyKey, id).idempotency)
  {
  }

  lemma InitializeKeepsBase(s: State, id: string, r: JobResult, now: Time)
    requires Base(s) && id in s.submitters && s.submitters[id].Initializing?
    requires r.idempotencyKey == s.submitters[id].job.idempotencyKey && r.status == Pending
    ensures Base(s.(submitters := s.submitters[id := Pushing(s.submitters[id].job)], store := SetRecord(s.store, id, r, now)))
  {
    SubmitterAdvances(s, id, Pushing(s.submitters[id].job));
    assert id !in s.store.results;
  }

  /** A rollback releases only the key of the submission it undoes. */
  lemma RollbackReleasesOwnKey(s: State, id: string, other: string)
    requires Base(s) && id in s.submitters && s.submitters[id].RollingBack?
    requires other in s.submitters && other != id && OwnsKey(s.submitters[other])
    requires s.submitters[other].job.idempotencyKey != ""
    ensures
      var reserved, key := DeleteRecord(s.store, id).idempotency, s.submitters[other].job.idempotencyKey;
      key in reserved && reserved[key] == other
  {
  }

  lemma RollbackKeepsBase(s: State, id: string)
    requires Base(s) && id in s.submitters && s.submitters[id].RollingBack?
    ensures Base(s.(submitters := s.submitters[id := Rejected(s.submitters[id].job)], store := DeleteRecord(s.store, id)))
  {
    var subs, store := s.submitters[id := Rejected(s.submitters[id].job)], DeleteRecord(s.store, id);
    SubmitterAdvances(s, id, Rejected(s.submitters[id].job));
    forall x | x in subs && OwnsKey(subs[x]) && subs[x].job.idempotencyKey != ""
      ensures subs[x].job.idempotencyKey in store.idempotency && store.idempotency[subs[x].job.idempotencyKey] == x
    {
      RollbackReleasesOwnKey(s, id, x);
    }
  }

  lemma ReserveKeepsBase(c: Config, s: State, id: string)
    requires Base(s) && SubmitEnabled(c, s, id, Reserve)
    ensures Base(SubmitApply(c, s, id, Reserve))
  {
    var next := SubmitNext(c, s, id, Reserve);
    if next.Initializing? { ReserveKeepsKeys(s, id, next); }
    AdvanceKeepsBase(s, id, next, ReserveKey(s.store, next.job.idempotencyKey, id));
  }

  lemma PushKeepsBase(c: Config, s: State, id: string)
    requires Base(s) && SubmitEnabled(c, s, id, Push)
    ensures Base(SubmitApply(c, s, id, Push))
  {
    var next := SubmitNext(c, s, id, Push);
    AdvanceKeepsBase(s, id, next, s.store);
    assert QueueAccepted(s.submitters[id := next], SubmitApply(c, s, id, Push).queue);
  }

  lemma HandOffKeepsBase(c: Config, s: State, id: string, w: nat)
    requires Base(s) && SubmitEnabled(c, s, id, HandOff(w))
    ensures Base(SubmitApply(c, s, id, HandOff(w)))
  {
    var next := SubmitNext(c, s, id, HandOff(w));
    AdvanceKeepsBase(s, id, next, s.store);
    assert WorkersSound(s.submitters[id := next], s.blobs, SubmitApply(c, s, id, HandOff(w)).workers);
  }

  lemma SubmitKeepsBase(c: Config, s: State, id: string, a: SubmitStep)
    requires Base(s) && SubmitEnabled(c, s, id, a)
    ensures Base(SubmitApply(c, s, id, a))
  {
    match a
    case Begin(job) => BeginKeepsBase(s, job);
    case Reserve => ReserveKeepsBase(c, s, id);
    case Initialize(created, now) =>
      InitializeKeepsBase(s, id, Blank(s.submitters[id].job, Pending).(createdAt := created, updatedAt := created), now);
    case Push => PushKeepsBase(c, s, id);
    case HandOff(w) => HandOffKeepsBase(c, s, id, w);
    case Rollback => RollbackKeepsBase(s, id);
  }

  // ----- cancelers and workers -----

  /** Writing a record with the job's own key keeps every record fact. */
  lemma WriteKeepsBase(s: State, id: string, r: JobResult, now: Time)
    requires Base(s) && RecordBelongs(s.submitters, id, r) && Downloadable(s.blobs, r)
    ensures Base(s.(store := SetRecord(s.store, id, r, now)))
  {
  }

  lemma CancelKeepsBase(s: State, k: nat, a: CancelStep)
    requires Base(s) && CancelEnabled(s, k, a)
    ensures Base(CancelApply(s, k, a))
  {
    var moved := s.(cancelers := s.cancelers[k := CancelNext(s, k, a)]);
    if !a.Request? { assert CancelerSound(s.submitters, s.cancelers[k]); }
    if a.Read? && CancelNext(s, k, a).Writing? {
      assert RecordBelongs(s.submitters, s.cancelers[k].id, s.store.results[s.cancelers[k].id]);
    }
    assert Base(moved);
    if a.Write? {
      WriteKeepsBase(moved, s.cancelers[k].id, CanceledRecord(s.cancelers[k].copy), a.now);
    }
  }

  lemma UploadKeepsBase(s: State, key: string, pdf: string)
    requires Base(s)
    ensures Base(s.(blobs := s.blobs[key := pdf]))
  {
  }

  lemma MoveKeepsBase(s: State, w: nat, next: Worker)
    requires Base(s) && WorkerSound(s.submitters, s.blobs, next)
    ensures Base(s.(workers := s.workers[w := next]))
  {
  }

  /** The worker's next point is sound once an upload has reached the blob store. */
  lemma NextIsSound(c: Config, s: State, w: nat, a: WorkStep)
    requires Base(s) && WorkEnabled(s, w, a)
    ensures WorkerSound(s.submitters, WorkApply(c, s, w, a).blobs, WorkNext(c, s, w, a))
  {
    assert WorkerSound(s.submitters, s.blobs, s.workers[w]);
  }

  /** A worker's write carries its job's own key. */
  lemma WorkerWriteKeepsBase(c: Config, s: State, w: nat, a: WorkStep)
    requires Base(s) && WorkEnabled(s, w, a) && (a.Start? || a.Save?)
    ensures Base(WorkApply(c, s, w, a))
  {
    assert WorkerSound(s.submitters, s.blobs, s.workers[w]);
    NextIsSound(c, s, w, a);
    MoveKeepsBase(s, w, WorkNext(c, s, w, a));
    WriteKeepsBase(s.(workers := s.workers[w := WorkNext(c, s, w, a)]), s.workers[w].job.id,
                   if a.Start? then Blank(s.workers[w].job, Processing) else s.workers[w].result, a.now);
  }

  lemma WorkKeepsBase(c: Config, s: State, w: nat, a: WorkStep)
    requires Base(s) && WorkEnabled(s, w, a)
    ensures Base(WorkApply(c, s, w, a))
  {
    if a.Start? || a.Save? {
      WorkerWriteKeepsBase(c, s, w, a);
    } else {
      NextIsSound(c, s, w, a);
      if a.Upload? && a.stored {
        UploadKeepsBase(s, PDFKey(s.workers[w].job.id), s.workers[w].pdf);
        MoveKeepsBase(s.(blobs := WorkApply(c, s, w, a).blobs), w, WorkNext(c, s, w, a));
      } else {
        MoveKeepsBase(s, w, WorkNext(c, s, w, a));
      }
    }
  }

  lemma StepKeepsBase(c: Config, s: State, a: Action)
    requires Base(s) && Enabled(c, s, a)
    ensures Base(Apply(c, s, a))
  {
    match a
    case Submit(id, step) => SubmitKeepsBase(c, s, id, step);
    case Cancel(k, step) => CancelKeepsBase(s, k, step);
    case Work(w, step) => WorkKeepsBase(c, s, w, step);
    case Shutdown =>
    case Redeliver(job) =>
  }

  lemma {:induction false} RunKeepsBase(c: Config, s: State, acts: seq<Action>, t: State)
    requires Base(s) && Leads(c, s, acts, t)
    ensures Base(t)
    decreases |acts|
  {
    if acts != [] {
      StepKeepsBase(c, s, acts[0]);
      RunKeepsBase(c, Apply(c, s, acts[0]), acts[1..], t);
    }
  }

  lemma ReachableIsBase(c: Config, s: State)
    requires Reachable(c, s)
    ensures Base(s)
  {
    var init, acts :| Init(init) && Leads(c, init, acts, s);
    RunKeepsBase(c, init, acts, s);
  }

  // ----- main results -----

  /** In every reachable state no two accepted jobs share a non-empty idempotency key. */
  lemma OneAcceptedJobPerKey(c: Config, s: State, a: Job, b: Job)
    requires Reachable(c, s) && IsAccepted(s.submitters, a) && IsAccepted(s.submitters, b)
    requires a.idempotencyKey == b.idempotencyKey != ""
    ensures a == b
    ensures a.idempotencyKey in s.store.idempotency && s.store.idempotency[a.idempotencyKey] == a.id
  {
    ReachableIsBase(c, s);
  }

  lemma SubmitKeepsAccepted(c: Config, s: State, id: string, a: SubmitStep, job: Job)
    requires SubmitEnabled(c, s, id, a) && IsAccepted(s.submitters, job)
    ensures IsAccepted(SubmitApply(c, s, id, a).submitters, job)
  {
  }

  lemma StepKeepsAccepted(c: Config, s: State, a: Action, job: Job)
    requires Enabled(c, s, a) && IsAccepted(s.submitters, job)
    ensures IsAccepted(Apply(c, s, a).submitters, job)
  {
    if a.Submit? { SubmitKeepsAccepted(c, s, a.id, a.submit, job); }
  }

  /** Once accepted, a job stays accepted, keeps its record and owns its key in every later state. */
  lemma {:induction false} AcceptedJobOwnsItsKey(c: Config, s: State, acts: seq<Action>, t: State, job: Job)
    requires Reachable(c, s) && Leads(c, s, acts, t) && IsAccepted(s.submitters, job)
    ensures IsAccepted(t.submitters, job) && job.id in t.store.results
    ensures job.idempotencyKey != "" ==>
              job.idempotencyKey in t.store.idempotency && t.store.idempotency[job.idempotencyKey] == job.id
  {
    ReachableIsBase(c, s);
    RunKeepsBase(c, s, acts, t);
    RunKeepsAccepted(c, s, acts, t, job);
  }

  lemma {:induction false} RunKeepsAccepted(c: Config, s: State, acts: seq<Action>, t: State, job: Job)
    requires Base(s) && Leads(c, s, acts, t) && IsAccepted(s.submitters, job)
    ensures IsAccepted(t.submitters, job)
    decreases |acts|
  {
    if acts != [] {
      StepKeepsBase(c, s, acts[0]);
      StepKeepsAccepted(c, s, acts[0], job);
      RunKeepsAccepted(c, Apply(c, s, acts[0]), acts[1..], t, job);
    }
  }

  /** A completed job's document is in the blob store, however often the queue redelivers. */
  lemma CompletedIsDownloadable(c: Config, s: State, id: string)
    requires Reachable(c, s) && id in s.store.results && s.store.results[id].status == Completed
    ensures s.store.results[id].pdfKey in s.blobs
  {
    ReachableIsBase(c, s);
    assert Downloadable(s.blobs, s.store.results[id]);
  }
}
