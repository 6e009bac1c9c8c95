/**
 What the workers leave behind when the queue hands each message over once: the registry
 names the worker rendering a job, documents have the recorded size, webhooks are unique.
 */
module LifecycleEffects {
  import opened Jobs
  import opened StoreModel
  import opened Lifecycle
  import opened LifecycleBase
  import opened LifecycleOnce

  // ----- cancellation registry -----

  /** Between registering its cancel function and unregistering it. */
  predicate Registered(wk: Worker) {
    wk.Rendering? || wk.BackingOff? || wk.Rechecking? || wk.Uploading? || wk.Storing? || wk.Notifying? || wk.Unregistering?
  }

  predicate Listed(registry: map<string, nat>, w: nat, wk: Worker) {
    Registered(wk) ==> wk.job.id in registry && registry[wk.job.id] == w
  }

  predicate Names(workers: map<nat, Worker>, id: string, w: nat) {
    w in workers && Registered(workers[w]) && workers[w].job.id == id
  }

  ghost predicate Wired(s: State) {
    && (forall w :: w in s.workers ==> Listed(s.registry, w, s.workers[w]))
    && (forall id :: id in s.registry ==> Names(s.workers, id, s.registry[id]))
  }

  lemma RegisterKeepsWired(s: State, w: nat, next: Worker)
    requires Once(s) && Wired(s) && w in s.workers && s.workers[w].Registering?
    requires Registered(next) && next.job == s.workers[w].job
    ensures Wired(s.(workers := s.workers[w := next], registry := s.registry[next.job.id := w]))
  {
    var t := s.(workers := s.workers[w := next], registry := s.registry[next.job.id := w]);
    forall v | v in t.workers ensures Listed(t.registry, v, t.workers[v]) {
      if v != w { assert Listed(s.registry, v, s.workers[v]); }
    }
    forall id | id in t.registry ensures Names(t.workers, id, t.registry[id]) {
      if id != next.job.id { assert Names(s.workers, id, s.registry[id]); }
    }
  }

  lemma UnregisterKeepsWired(s: State, w: nat, next: Worker)
    requires Once(s) && Wired(s) && w in s.workers && s.workers[w].Unregistering? && next.Returning?
    ensures Wired(s.(workers := s.workers[w := next], registry := s.registry - {s.workers[w].job.id}))
  {
  }

  lemma MoveKeepsWired(s: State, w: nat, next: Worker)
    requires Wired(s) && w in s.workers && Registered(next) == Registered(s.workers[w])
    requires Registered(next) ==> next.job == s.workers[w].job
    ensures Wired(s.(workers := s.workers[w := next]))
  {
  }

  lemma WorkKeepsWired(c: Config, s: State, w: nat, a: WorkStep)
    requires Once(s) && Wired(s) && WorkEnabled(s, w, a)
    ensures Wired(WorkApply(c, s, w, a))
  {
    var next := WorkNext(c, s, w, a);
    if a.Register? {
      RegisterKeepsWired(s, w, next);
    } else if a.Unregister? {
      UnregisterKeepsWired(s, w, next);
    } else {
      MoveKeepsWired(s, w, next);
    }
  }

  // ----- blob sizes -----

  predicate Exact(blobs: map<string, string>, id: string, r: JobResult) {
    r.status == Completed ==> r.pdfKey == PDFKey(id) && PDFKey(id) in blobs && |blobs[PDFKey(id)]| == r.pdfSize
  }

  predicate StoringExact(blobs: map<string, string>, wk: Worker) {
    wk.Storing? ==> Exact(blobs, wk.job.id, wk.result)
  }

  ghost predicate Sized(s: State) {
    && (forall id :: id in s.store.results ==> Exact(s.blobs, id, s.store.results[id]))
    && (forall w :: w in s.workers ==> StoringExact(s.blobs, s.workers[w]))
  }

  lemma PDFKeysDiffer(a: string, b: string)
    requires PDFKey(a) == PDFKey(b)
    ensures a == b
  {
    assert PDFKey(a)[4..|PDFKey(a)| - 4] == a && PDFKey(b)[4..|PDFKey(b)| - 4] == b;
  }

  lemma ExactAfterUpload(blobs: map<string, string>, pdf: string, id: string, other: string, r: JobResult)
    requires Exact(blobs, other, r) && (other == id ==> r.status != Completed)
    ensures Exact(blobs[PDFKey(id) := pdf], other, r)
  {
    if PDFKey(other) == PDFKey(id) { PDFKeysDiffer(other, id); }
  }

  lemma UploadKeepsSized(s: State, w: nat, next: Worker)
    requires Once(s) && Sized(s) && w in s.workers && s.workers[w].Uploading?
    requires next == Storing(s.workers[w].job, CompletedResult(s.workers[w].job, s.workers[w].pdf))
    ensures Sized(s.(workers := s.workers[w := next], blobs := s.blobs[PDFKey(s.workers[w].job.id) := s.workers[w].pdf]))
  {
    var id, pdf := s.workers[w].job.id, s.workers[w].pdf;
    assert StageStatus(s.store.results, s.workers[w]);
    forall x | x in s.store.results ensures Exact(s.blobs[PDFKey(id) := pdf], x, s.store.results[x]) {
      ExactAfterUpload(s.blobs, pdf, id, x, s.store.results[x]);
    }
    forall v | v in s.workers && v != w ensures StoringExact(s.blobs[PDFKey(id) := pdf], s.workers[v]) {
      if s.workers[v].Storing? {
        assert StoringExact(s.blobs, s.workers[v]);
        ExactAfterUpload(s.blobs, pdf, id, s.workers[v].job.id, s.workers[v].result);
      }
    }
  }

  lemma WorkKeepsSized(c: Config, s: State, w: nat, a: WorkStep)
    requires Once(s) && Sized(s) && WorkEnabled(s, w, a)
    ensures Sized(WorkApply(c, s, w, a))
  {
    if a.Upload? && a.stored {
      UploadKeepsSized(s, w, WorkNext(c, s, w, a));
    } else {
      assert StoringExact(s.blobs, s.workers[w]);
      assert StoringExact(s.blobs, WorkNext(c, s, w, a));
    }
  }

  lemma WriteKeepsSized(s: State, id: string, r: JobResult, now: Time)
    requires Sized(s) && Exact(s.blobs, id, r)
    ensures Sized(s.(store := SetRecord(s.store, id, r, now)))
  {
  }

  // ----- webhooks -----

  /** Past the point where it may call the webhook. */
  predicate Notified(wk: Worker) { wk.Unregistering? || wk.Returning? }

  predicate EventSound(subs: map<string, Submitter>, e: Event) {
    e.jobID in subs && subs[e.jobID].Accepted? && (e.status == Completed || e.status == Failed)
  }

  ghost predicate Unrepeated(sent: seq<Event>) {
    forall i, j :: 0 <= i < j < |sent| ==> sent[i].jobID != sent[j].jobID
  }

  ghost predicate EventsSound(subs: map<string, Submitter>, sent: seq<Event>) {
    forall i :: 0 <= i < |sent| ==> EventSound(subs, sent[i])
  }

  ghost predicate SentNotQueued(sent: seq<Event>, queue: seq<Job>) {
    forall i, k :: 0 <= i < |sent| && 0 <= k < |queue| ==> sent[i].jobID != queue[k].id
  }

  predicate SentIsDone(sent: seq<Event>, wk: Worker) {
    !wk.Idle? && !Notified(wk) ==> forall i :: 0 <= i < |sent| ==> sent[i].jobID != wk.job.id
  }

  ghost predicate SentAreDone(sent: seq<Event>, workers: map<nat, Worker>) {
    forall w :: w in workers ==> SentIsDone(sent, workers[w])
  }

  /** Each announced job was announced once, by a worker that has no other use for it. */
  ghost predicate SentOnce(s: State) {
    Unrepeated(s.sent) && EventsSound(s.submitters, s.sent) && SentNotQueued(s.sent, s.queue)
    && SentAreDone(s.sent, s.workers)
  }

  lemma NotifyKeepsSent(s: State, w: nat, e: Event)
    requires Base(s) && Once(s) && SentOnce(s) && w in s.workers && s.workers[w].Notifying?
    requires e.jobID == s.workers[w].job.id && (e.status == Completed || e.status == Failed)
    ensures SentOnce(s.(sent := s.sent + [e], workers := s.workers[w := Unregistering(s.workers[w].job)]))
  {
    var job := s.workers[w].job;
    assert WorkerSound(s.submitters, s.blobs, s.workers[w]);
    assert SentIsDone(s.sent, s.workers[w]);
    forall k | 0 <= k < |s.queue| ensures s.queue[k].id != job.id {
      assert !Holds(s.workers[w], s.queue[k].id);
    }
    forall v | v in s.workers && v != w ensures SentIsDone(s.sent + [e], s.workers[v]) {
      assert SentIsDone(s.sent, s.workers[v]);
    }
  }

  lemma NextIsUnsent(c: Config, s: State, w: nat, a: WorkStep)
    requires Once(s) && SentOnce(s) && WorkEnabled(s, w, a)
    ensures SentIsDone(s.sent, WorkNext(c, s, w, a))
  {
    if a.Take? {
      assert forall i :: 0 <= i < |s.sent| ==> s.sent[i].jobID != s.queue[0].id;
    } else {
      if !a.Ack? { NextStage(c, s, w, a); }
      assert SentIsDone(s.sent, s.workers[w]);
    }
  }

  lemma QuietStep(c: Config, s: State, w: nat, a: WorkStep)
    requires WorkEnabled(s, w, a) && !a.Take?
    requires !(a.Notify? && Notifies(c, s.workers[w].job, s.workers[w].result))
    ensures
      var t := WorkApply(c, s, w, a);
      && t.sent == s.sent && t.queue == s.queue && t.submitters == s.submitters
      && t.workers == s.workers[w := WorkNext(c, s, w, a)]
  {
  }

  lemma QuietStepKeepsSent(s: State, t: State, w: nat, next: Worker)
    requires SentOnce(s) && SentIsDone(s.sent, next)
    requires t.sent == s.sent && t.queue == s.queue && t.submitters == s.submitters && t.workers == s.workers[w := next]
    ensures SentOnce(t)
  {
  }

  lemma TakeKeepsSent(c: Config, s: State, w: nat)
    requires SentOnce(s) && WorkEnabled(s, w, Take)
    ensures SentOnce(WorkApply(c, s, w, Take))
  {
  }

  lemma WorkKeepsSent(c: Config, s: State, w: nat, a: WorkStep)
    requires Base(s) && Once(s) && SentOnce(s) && WorkEnabled(s, w, a)
    ensures SentOnce(WorkApply(c, s, w, a))
  {
    if a.Notify? && Notifies(c, s.workers[w].job, s.workers[w].result) {
      NotifyKeepsSent(s, w, EventFor(s.workers[w].job, s.workers[w].result));
    } else if a.Take? {
      TakeKeepsSent(c, s, w);
    } else {
      NextIsUnsent(c, s, w, a);
      QuietStep(c, s, w, a);
      QuietStepKeepsSent(s, WorkApply(c, s, w, a), w, WorkNext(c, s, w, a));
    }
  }

  lemma SentStaySound(s: State, id: string, next: Submitter)
    requires EventsSound(s.submitters, s.sent) && (id in s.submitters ==> !s.submitters[id].Accepted?)
    ensures EventsSound(s.submitters[id := next], s.sent)
    ensures forall i :: 0 <= i < |s.sent| ==> s.sent[i].jobID != id
  {
  }

  lemma QueuedIsUnsent(s: State, job: Job)
    requires SentOnce(s) && forall i :: 0 <= i < |s.sent| ==> s.sent[i].jobID != job.id
    ensures SentNotQueued(s.sent, s.queue + [job])
    ensures forall w :: w in s.workers ==> SentAreDone(s.sent, s.workers[w := Fetched(job)])
  {
  }

  lemma SubmitKeepsSent(c: Config, s: State, id: string, a: SubmitStep)
    requires Base(s) && SentOnce(s) && SubmitEnabled(c, s, id, a)
    ensures SentOnce(SubmitApply(c, s, id, a))
  {
    SentStaySound(s, id, SubmitNext(c, s, id, a));
    if a.Push? || a.HandOff? {
      assert s.submitters[id].job.id == id;
      QueuedIsUnsent(s, s.submitters[id].job);
    }
  }

  // ----- all steps -----

  ghost predicate Tidy(s: State) { Wired(s) && Sized(s) && SentOnce(s) }

  lemma SubmitKeepsTidy(c: Config, s: State, id: string, a: SubmitStep)
    requires Base(s) && Once(s) && Tidy(s) && SubmitEnabled(c, s, id, a)
    ensures Tidy(SubmitApply(c, s, id, a))
  {
    SubmitKeepsSent(c, s, id, a);
    SubmitKeepsWired(c, s, id, a);
    SubmitKeepsSized(c, s, id, a);
  }

  lemma SubmitKeepsWired(c: Config, s: State, id: string, a: SubmitStep)
    requires Wired(s) && SubmitEnabled(c, s, id, a)
    ensures Wired(SubmitApply(c, s, id, a))
  {
  }

  lemma SubmitKeepsSized(c: Config, s: State, id: string, a: SubmitStep)
    requires Sized(s) && SubmitEnabled(c, s, id, a)
    ensures Sized(SubmitApply(c, s, id, a))
  {
  }

  lemma CancelKeepsTidy(s: State, k: nat, a: CancelStep)
    requires Tidy(s) && CancelEnabled(s, k, a)
    ensures Tidy(CancelApply(s, k, a))
  {
    if a.Write? { WriteKeepsSized(s, s.cancelers[k].id, CanceledRecord(s.cancelers[k].copy), a.now); }
  }

  lemma StepKeepsTidy(c: Config, s: State, a: Action)
    requires Base(s) && Once(s) && Tidy(s) && Enabled(c, s, a) && !a.Redeliver?
    ensures Tidy(Apply(c, s, a))
  {
    match a
    case Submit(id, step) => SubmitKeepsTidy(c, s, id, step);
    case Cancel(k, step) => CancelKeepsTidy(s, k, step);
    case Work(w, step) =>
      WorkKeepsWired(c, s, w, step);
      WorkKeepsSized(c, s, w, step);
      WorkKeepsSent(c, s, w, step);
    case Shutdown =>
  }

  lemma {:induction false} RunKeepsTidy(c: Config, s: State, acts: seq<Action>, t: State)
    requires Base(s) && Once(s) && Tidy(s) && Leads(c, s, acts, t) && NoRedelivery(acts)
    ensures Base(t) && Once(t) && Tidy(t)
    decreases |acts|
  {
    if acts != [] {
      StepKeepsBase(c, s, acts[0]);
      StepKeepsOnce(c, s, acts[0]);
      StepKeepsTidy(c, s, acts[0]);
      RunKeepsTidy(c, Apply(c, s, acts[0]), acts[1..], t);
    }
  }

  lemma ReachableIsTidy(c: Config, s: State)
    requires ReachableOnce(c, s)
    ensures Base(s) && Once(s) && Tidy(s)
  {
    var init, acts :| Init(init) && NoRedelivery(acts) && Leads(c, init, acts, s);
    RunKeepsTidy(c, init, acts, s);
  }

  // ----- main results -----

  /** A completed job's document has exactly the recorded size. */
  lemma CompletedHasRecordedSize(c: Config, s: State, id: string)
    requires ReachableOnce(c, s) && id in s.store.results && s.store.results[id].status == Completed
    ensures s.store.results[id].pdfKey in s.blobs
    ensures |s.blobs[s.store.results[id].pdfKey]| == s.store.results[id].pdfSize
  {
    ReachableIsTidy(c, s);
    assert Exact(s.blobs, id, s.store.results[id]);
  }

  /** A cancel signal interrupts the one worker registered for the job, and nobody when there is none. */
  lemma CancelReachesTheRenderer(c: Config, s: State, k: nat)
    requires ReachableOnce(c, s) && CancelEnabled(s, k, Signal)
    ensures
      var id, after := s.cancelers[k].id, CancelApply(s, k, Signal);
      && (forall w :: w in s.workers && Names(s.workers, id, w) ==> after.interrupted == s.interrupted + {w})
      && (forall v, w :: Names(s.workers, id, v) && Names(s.workers, id, w) ==> v == w)
      && ((forall w :: w in s.workers ==> !Names(s.workers, id, w)) ==> after.interrupted == s.interrupted)
  {
    ReachableIsTidy(c, s);
    var id := s.cancelers[k].id;
    forall w | Names(s.workers, id, w) ensures id in s.registry && s.registry[id] == w {
      assert Listed(s.registry, w, s.workers[w]);
    }
    if id in s.registry { assert Names(s.workers, id, s.registry[id]); }
  }

  /** No job is announced twice, and only completed or failed jobs are announced. */
  lemma OneWebhookPerJob(c: Config, s: State, i: nat, j: nat)
    requires ReachableOnce(c, s) && i < |s.sent| && j < |s.sent|
    ensures s.sent[i].jobID == s.sent[j].jobID ==> i == j
    ensures s.sent[i].status == Completed || s.sent[i].status == Failed
  {
    ReachableIsTidy(c, s);
    assert EventSound(s.submitters, s.sent[i]);
  }
}
