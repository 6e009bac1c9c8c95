/**
 The job life cycle on the in-memory back ends as an interleaved machine: any number of
 submitters, workers and cancelers, where one step is one storage, queue, blob or registry call.
 A submitter is named by the fresh job identifier it draws.
 */
module Lifecycle {
  import opened Jobs
  import opened StoreModel

  /** capacity of the queue, render attempts per job, and whether a webhook notifier is configured. */
  datatype Config = Config(capacity: nat, attempts: nat, notifier: bool)

  datatype Submitter =
    | Reserving(job: Job)
    | Initializing(job: Job)
    | Pushing(job: Job)
    | RollingBack(job: Job)
    | Accepted(job: Job)
    | Duplicate(job: Job, holder: string)
    | Rejected(job: Job)

  datatype Canceler =
    | Reading(id: string)
    | Writing(id: string, copy: JobResult)
    | Signaling(id: string)
    | Answered(id: string)

  datatype Outcome = Rendered(pdf: string) | RenderFailed(error: string)

  datatype Worker =
    | Idle
    | Fetched(job: Job)
    | Starting(job: Job)
    | Registering(job: Job)
    | Rendering(job: Job, attempt: nat)
    | BackingOff(job: Job, attempt: nat)
    | Rechecking(job: Job, outcome: Outcome)
    | Uploading(job: Job, pdf: string)
    | Storing(job: Job, result: JobResult)
    | Notifying(job: Job, result: JobResult)
    | Unregistering(job: Job)
    | Returning(job: Job)

  /** A webhook call. */
  datatype Event = Event(callbackURL: string, jobID: string, url: string, status: JobStatus, error: string,
                         pdfKey: string, pdfSize: nat, requestID: string)

  datatype State = State(store: Store, queue: seq<Job>, blobs: map<string, string>, registry: map<string, nat>,
                         interrupted: set<nat>, stopping: bool, sent: seq<Event>,
                         submitters: map<string, Submitter>, workers: map<nat, Worker>, cancelers: map<nat, Canceler>)

  datatype SubmitStep =
    | Begin(job: Job)
    | Reserve
    | Initialize(created: Time, now: Time)
    | Push
    | HandOff(w: nat)
    | Rollback

  datatype CancelStep = Request(id: string) | Read | Write(now: Time) | Signal

  datatype WorkStep =
    | Take
    | Check
    | Start(now: Time)
    | Register
    | Render(outcome: Outcome)
    | Resume
    | Interrupt
    | Recheck
    | Upload(stored: bool, error: string)
    | Save(now: Time)
    | Notify
    | Unregister
    | Ack

  datatype Action =
    | Submit(id: string, submit: SubmitStep)
    | Cancel(c: nat, cancel: CancelStep)
    | Work(w: nat, work: WorkStep)
    | Shutdown
    | Redeliver(job: Job)

  // ----- what each call reads and writes -----

  function PDFKey(id: string): string { "pdf/" + id + ".pdf" }

  function Blank(job: Job, status: JobStatus): JobResult {
    JobResult(job.url, status, "", "", 0, "", job.idempotencyKey, job.callbackURL, job.requestID, ZERO_TIME, ZERO_TIME)
  }

  function FailedResult(job: Job, error: string): JobResult { Blank(job, Failed).(error := error) }

  const CONTEXT_CANCELED := "context canceled"

  /** The error recorded for a failed render: a cancellation during shutdown is called an interruption. */
  function RecordedError(stopping: bool, error: string): string {
    if stopping && error == CONTEXT_CANCELED then "job interrupted by shutdown" else error
  }

  function CompletedResult(job: Job, pdf: string): JobResult {
    Blank(job, Completed).(pdfKey := PDFKey(job.id), pdfSize := |pdf|)
  }

  function CallbackFor(job: Job, r: JobResult): string {
    if r.callbackURL == "" then job.callbackURL else r.callbackURL
  }

  predicate Notifies(c: Config, job: Job, r: JobResult) {
    c.notifier && CallbackFor(job, r) != "" && (r.status == Completed || r.status == Failed)
  }

  function EventFor(job: Job, r: JobResult): Event {
    Event(CallbackFor(job, r), job.id, r.url, r.status, r.error, r.pdfKey, r.pdfSize, r.requestID)
  }

  predicate IsCanceled(s: Store, id: string) {
    id in s.results && s.results[id].status == Canceled
  }

  predicate CtxDone(s: State, w: nat) { w in s.interrupted || s.stopping }

  predicate IsAccepted(subs: map<string, Submitter>, job: Job) {
    job.id in subs && subs[job.id] == Accepted(job)
  }

  // ----- submitters -----

  predicate SubmitEnabled(c: Config, s: State, id: string, a: SubmitStep) {
    if a.Begin? then id !in s.submitters && a.job.id == id
    else
      && id in s.submitters
      && match a
         case Reserve => s.submitters[id].Reserving?
         case Initialize(created, now) => s.submitters[id].Initializing? && created != ZERO_TIME && now != ZERO_TIME
         case Push => s.submitters[id].Pushing?
         case HandOff(w) => s.submitters[id].Pushing? && c.capacity == 0 && w in s.workers && s.workers[w].Idle?
         case Rollback => s.submitters[id].RollingBack?
  }

  function SubmitNext(c: Config, s: State, id: string, a: SubmitStep): Submitter
    requires SubmitEnabled(c, s, id, a)
  {
    match a
    case Begin(job) => Reserving(job)
    case Reserve =>
      var job := s.submitters[id].job;
      if job.idempotencyKey != "" && job.idempotencyKey in s.store.idempotency
      then Duplicate(job, s.store.idempotency[job.idempotencyKey]) else Initializing(job)
    case Initialize(_, _) => Pushing(s.submitters[id].job)
    case Push => if |s.queue| < c.capacity then Accepted(s.submitters[id].job) else RollingBack(s.submitters[id].job)
    case HandOff(_) => Accepted(s.submitters[id].job)
    case Rollback => Rejected(s.submitters[id].job)
  }

  function SubmitApply(c: Config, s: State, id: string, a: SubmitStep): State
    requires SubmitEnabled(c, s, id, a)
  {
    var moved := s.(submitters := s.submitters[id := SubmitNext(c, s, id, a)]);
    match a
    case Begin(_) => moved
    case Reserve => moved.(store := ReserveKey(s.store, s.submitters[id].job.idempotencyKey, id))
    case Initialize(created, now) =>
      moved.(store := SetRecord(s.store, id,
                                Blank(s.submitters[id].job, Pending).(createdAt := created, updatedAt := created), now))
    case Push => if |s.queue| < c.capacity then moved.(queue := s.queue + [s.submitters[id].job]) else moved
    case HandOff(w) => moved.(workers := s.workers[w := Fetched(s.submitters[id].job)])
    case Rollback => moved.(store := DeleteRecord(s.store, id))
  }

  // ----- cancelers -----

  predicate CancelEnabled(s: State, c: nat, a: CancelStep) {
    if a.Request? then c !in s.cancelers
    else
      && c in s.cancelers
      && match a
         case Read => s.cancelers[c].Reading?
         case Write(now) => s.cancelers[c].Writing? && now != ZERO_TIME
         case Signal => s.cancelers[c].Signaling?
  }

  function CancelNext(s: State, c: nat, a: CancelStep): Canceler
    requires CancelEnabled(s, c, a)
  {
    match a
    case Request(id) => Reading(id)
    case Read =>
      var id := s.cancelers[c].id;
      if id !in s.store.results || s.store.results[id].status.Terminal() then Signaling(id)
      else Writing(id, s.store.results[id])
    case Write(_) => Signaling(s.cancelers[c].id)
    case Signal => Answered(s.cancelers[c].id)
  }

  function CancelApply(s: State, c: nat, a: CancelStep): State
    requires CancelEnabled(s, c, a)
  {
    var moved := s.(cancelers := s.cancelers[c := CancelNext(s, c, a)]);
    match a
    case Request(_) => moved
    case Read => moved
    case Write(now) =>
      moved.(store := SetRecord(s.store, s.cancelers[c].id, CanceledRecord(s.cancelers[c].copy), now))
    case Signal =>
      var id := s.cancelers[c].id;
      if id in s.registry then moved.(interrupted := s.interrupted + {s.registry[id]}) else moved
  }

  // ----- workers -----

  predicate WorkEnabled(s: State, w: nat, a: WorkStep) {
    && w in s.workers
    && match a
       case Take => s.workers[w].Idle? && s.queue != []
       case Check => s.workers[w].Fetched?
       case Start(now) => s.workers[w].Starting? && now != ZERO_TIME
       case Register => s.workers[w].Registering?
       case Render(_) => s.workers[w].Rendering?
       case Resume => s.workers[w].BackingOff?
       case Interrupt => s.workers[w].BackingOff? && CtxDone(s, w)
       case Recheck => s.workers[w].Rechecking?
       case Upload(_, _) => s.workers[w].Uploading?
       case Save(now) => s.workers[w].Storing? && now != ZERO_TIME
       case Notify => s.workers[w].Notifying?
       case Unregister => s.workers[w].Unregistering?
       case Ack => s.workers[w].Returning?
  }

  function WorkNext(c: Config, s: State, w: nat, a: WorkStep): Worker
    requires WorkEnabled(s, w, a)
  {
    var wk := s.workers[w];
    match a
    case Take => Fetched(s.queue[0])
    case Check => if IsCanceled(s.store, wk.job.id) then Returning(wk.job) else Starting(wk.job)
    case Start(_) => Registering(wk.job)
    case Register => Rendering(wk.job, 1)
    case Render(outcome) =>
      if outcome.Rendered? || CtxDone(s, w) || wk.attempt >= c.attempts then Rechecking(wk.job, outcome)
      else BackingOff(wk.job, wk.attempt)
    case Resume => Rendering(wk.job, wk.attempt + 1)
    case Interrupt => Rechecking(wk.job, RenderFailed(CONTEXT_CANCELED))
    case Recheck =>
      if IsCanceled(s.store, wk.job.id) then Notifying(wk.job, s.store.results[wk.job.id])
      else if wk.outcome.RenderFailed? then 
        Storing(wk.job, FailedResult(wk.job, RecordedError(s.stopping, wk.outcome.error)))
      else Uploading(wk.job, wk.outcome.pdf)
    case Upload(stored, error) =>
      Storing(wk.job, if stored then CompletedResult(wk.job, wk.pdf) else FailedResult(wk.job, error))
    case Save(now) => Notifying(wk.job, Filled(s.store, wk.job.id, wk.result, now))
    case Notify => Unregistering(wk.job)
    case Unregister => Returning(wk.job)
    case Ack => Idle
  }

  function WorkApply(c: Config, s: State, w: nat, a: WorkStep): State
    requires WorkEnabled(s, w, a)
  {
    var wk := s.workers[w];
    var moved := s.(workers := s.workers[w := WorkNext(c, s, w, a)]);
    match a
    case Take => moved.(queue := s.queue[1..])
    case Start(now) => moved.(store := SetRecord(s.store, wk.job.id, Blank(wk.job, Processing), now))
    case Register => moved.(registry := s.registry[wk.job.id := w], interrupted := s.interrupted - {w})
    case Upload(stored, error) => if stored then moved.(blobs := s.blobs[PDFKey(wk.job.id) := wk.pdf]) else moved
    case Save(now) => moved.(store := SetRecord(s.store, wk.job.id, wk.result, now))
    case Notify =>
      if Notifies(c, wk.job, wk.result) then moved.(sent := s.sent + [EventFor(wk.job, wk.result)]) else moved
    case Unregister => moved.(registry := s.registry - {wk.job.id})
    case _ => moved
  }

  // ----- the machine -----

  predicate Enabled(c: Config, s: State, a: Action) {
    match a
    case Submit(id, step) => SubmitEnabled(c, s, id, step)
    case Cancel(k, step) => CancelEnabled(s, k, step)
    case Work(w, step) => WorkEnabled(s, w, step)
    case Shutdown => true
    case Redeliver(job) => IsAccepted(s.submitters, job)
  }

  function Apply(c: Config, s: State, a: Action): State
    requires Enabled(c, s, a)
  {
    match a
    case Submit(id, step) => SubmitApply(c, s, id, step)
    case Cancel(k, step) => CancelApply(s, k, step)
    case Work(w, step) => WorkApply(c, s, w, step)
    case Shutdown => s.(stopping := true)
    case Redeliver(job) => s.(queue := s.queue + [job])
  }

  ghost predicate Init(s: State) {
    && s.store == EMPTY && s.queue == [] && s.blobs == map[] && s.registry == map[]
    && s.sent == [] && s.submitters == map[] && s.cancelers == map[]
    && forall w :: w in s.workers ==> s.workers[w].Idle?
  }

  /** Running the actions from s, each enabled in turn, ends in t. */
  ghost predicate Leads(c: Config, s: State, acts: seq<Action>, t: State)
    decreases |acts|
  {
    if acts == [] then s == t
    else Enabled(c, s, acts[0]) && Leads(c, Apply(c, s, acts[0]), acts[1..], t)
  }

  ghost predicate NoRedelivery(acts: seq<Action>) {
    forall i :: 0 <= i < |acts| ==> !acts[i].Redeliver?
  }

  ghost predicate Reachable(c: Config, s: State) {
    exists init, acts :: Init(init) && Leads(c, init, acts, s)
  }

  /** Reachable by a queue that hands each message over once. */
  ghost predicate ReachableOnce(c: Config, s: State) {
    exists init, acts :: Init(init) && NoRedelivery(acts) && Leads(c, init, acts, s)
  }

  /** Between a not-canceled read of the job's record and the write that follows it. */
  predicate InWindow(wk: Worker) { wk.Starting? || wk.Uploading? || wk.Storing? }

  lemma {:induction false} LeadsAppend(c: Config, s: State, a: seq<Action>, m: State, b: seq<Action>, t: State)
    requires Leads(c, s, a, m) && Leads(c, m, b, t)
    ensures Leads(c, s, a + b, t)
    decreases |a|
  {
    if a == [] {
      assert a + b == b;
    } else {
      assert (a + b)[1..] == a[1..] + b;
      LeadsAppend(c, Apply(c, s, a[0]), a[1..], m, b, t);
    }
  }
}
