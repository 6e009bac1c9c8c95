/**
 What a record says of its job.  In every interleaving, redeliveries included, its URL, idempotency key,
 callback and request identifier are those of the job, its document and error fields follow from its
 status, its creation instant is the first it was given, and webhooks go where the job asked.
 */
module LifecycleRecords {
  import opened Jobs
  import opened StoreModel
  import opened Lifecycle
  import opened LifecycleBase

  // ----- the invariant -----

  predicate Describes(r: JobResult, job: Job) {
    && r.url == job.url && r.idempotencyKey == job.idempotencyKey
    && r.callbackURL == job.callbackURL && r.requestID == job.requestID
  }

  /** What the fields that change say at each status. */
  predicate Shaped(id: string, r: JobResult) {
    && r.inlinePDF == ""
    && (r.status == Completed ==> r.pdfKey == "pdf/" + id + ".pdf" && r.error == "")
    && (r.status != Completed ==> r.pdfKey == "" && r.pdfSize == 0)
    && (r.status == Pending || r.status == Processing ==> r.error == "")
    && (r.status == Canceled ==> r.error == "job canceled")
  }

  predicate Proper(subs: map<string, Submitter>, id: string, r: JobResult) {
    id in subs && Describes(r, subs[id].job) && Shaped(id, r)
  }

  predicate CopyProper(subs: map<string, Submitter>, k: Canceler) {
    k.Writing? ==> Proper(subs, k.id, k.copy)
  }

  predicate ResultProper(subs: map<string, Submitter>, wk: Worker) {
    wk.Storing? || wk.Notifying? ==> Proper(subs, wk.job.id, wk.result)
  }

  predicate EventProper(subs: map<string, Submitter>, e: Event) {
    && e.jobID in subs && subs[e.jobID].Accepted?
    && var job := subs[e.jobID].job;
       && e.callbackURL == job.callbackURL != "" && e.url == job.url && e.requestID == job.requestID
       && e.pdfKey == (if e.status == Completed then "pdf/" + job.id + ".pdf" else "")
       && (e.status == Completed ==> e.error == "")
  }

  ghost predicate RecordsProper(s: State) {
    forall id :: id in s.store.results ==> Proper(s.submitters, id, s.store.results[id])
  }

  ghost predicate CopiesProper(s: State) {
    forall k :: k in s.cancelers ==> CopyProper(s.submitters, s.cancelers[k])
  }

  ghost predicate ResultsProper(s: State) {
    forall w :: w in s.workers ==> ResultProper(s.submitters, s.workers[w])
  }

  ghost predicate EventsProper(s: State) {
    forall i :: 0 <= i < |s.sent| ==> EventProper(s.submitters, s.sent[i])
  }

  ghost predicate AllProper(s: State) {
    RecordsProper(s) && CopiesProper(s) && ResultsProper(s) && EventsProper(s)
  }

  // ----- records -----

  /** Fields a result leaves out are inherited from a record that describes the same job. */
  lemma FilledIsProper(s: State, id: string, r: JobResult, now: Time)
    requires RecordsProper(s) && Proper(s.submitters, id, r)
    ensures Proper(s.submitters, id, Filled(s.store, id, r, now))
  {
    if id in s.store.results { assert Proper(s.submitters, id, s.store.results[id]); }
  }

  lemma WriteKeepsProper(s: State, id: string, r: JobResult, now: Time)
    requires AllProper(s) && Proper(s.submitters, id, r)
    ensures AllProper(s.(store := SetRecord(s.store, id, r, now)))
  {
    FilledIsProper(s, id, r, now);
  }

  // ----- submitters -----

  /** A submitter's job never changes, and an accepted submission stays accepted. */
  lemma MovedSubmitter(s: State, id: string, next: Submitter)
    requires AllProper(s) && (id in s.submitters ==> next.job == s.submitters[id].job && !s.submitters[id].Accepted?)
    ensures AllProper(s.(submitters := s.submitters[id := next]))
  {
    var t := s.(submitters := s.submitters[id := next]);
    forall x, r | Proper(s.submitters, x, r) ensures Proper(t.submitters, x, r) {
    }
    forall i | 0 <= i < |s.sent| ensures EventProper(t.submitters, s.sent[i]) {
      assert EventProper(s.submitters, s.sent[i]);
    }
  }

  lemma SubmitKeepsProper(c: Config, s: State, id: string, a: SubmitStep)
    requires Base(s) && AllProper(s) && SubmitEnabled(c, s, id, a)
    ensures AllProper(SubmitApply(c, s, id, a))
  {
    MovedSubmitter(s, id, SubmitNext(c, s, id, a));
    var moved := s.(submitters := s.submitters[id := SubmitNext(c, s, id, a)]);
    match a
    case Initialize(created, now) =>
      WriteKeepsProper(moved, id, Blank(s.submitters[id].job, Pending).(createdAt := created, updatedAt := created), now);
    case Rollback => assert RecordsProper(moved.(store := DeleteRecord(s.store, id)));
    case _ =>
  }

  // ----- cancelers -----

  lemma CancelKeepsProper(s: State, k: nat, a: CancelStep)
    requires Base(s) && AllProper(s) && CancelEnabled(s, k, a)
    ensures AllProper(CancelApply(s, k, a))
  {
    var next := CancelNext(s, k, a);
    if a.Read? && next.Writing? {
      assert Proper(s.submitters, next.id, s.store.results[next.id]);
    }
    var moved := s.(cancelers := s.cancelers[k := next]);
    assert AllProper(moved);
    if a.Write? {
      assert CancelerSound(s.submitters, s.cancelers[k]) && CopyProper(s.submitters, s.cancelers[k]);
      WriteKeepsProper(moved, s.cancelers[k].id, CanceledRecord(s.cancelers[k].copy), a.now);
    }
  }

  // ----- workers -----

  lemma BuiltIsProper(subs: map<string, Submitter>, job: Job, error: string, pdf: string)
    requires IsAccepted(subs, job)
    ensures Proper(subs, job.id, Blank(job, Processing)) && Proper(subs, job.id, FailedResult(job, error))
    ensures Proper(subs, job.id, CompletedResult(job, pdf))
  {
  }

  lemma NextIsProper(c: Config, s: State, w: nat, a: WorkStep)
    requires Base(s) && AllProper(s) && WorkEnabled(s, w, a)
    ensures ResultProper(s.submitters, WorkNext(c, s, w, a))
  {
    var wk := s.workers[w];
    assert WorkerSound(s.submitters, s.blobs, wk) && ResultProper(s.submitters, wk);
    match a
    case Recheck =>
      if IsCanceled(s.store, wk.job.id) {
        assert Proper(s.submitters, wk.job.id, s.store.results[wk.job.id]);
      } else if wk.outcome.RenderFailed? {
        BuiltIsProper(s.submitters, wk.job, RecordedError(s.stopping, wk.outcome.error), "");
      }
    case Upload(_, error) => BuiltIsProper(s.submitters, wk.job, error, wk.pdf);
    case Save(now) => FilledIsProper(s, wk.job.id, wk.result, now);
    case _ =>
  }

  lemma NotifiedIsProper(c: Config, s: State, w: nat)
    requires Base(s) && AllProper(s) && WorkEnabled(s, w, Notify)
    ensures
      var wk := s.workers[w];
      Notifies(c, wk.job, wk.result) ==> EventProper(s.submitters, EventFor(wk.job, wk.result))
  {
    assert WorkerSound(s.submitters, s.blobs, s.workers[w]) && ResultProper(s.submitters, s.workers[w]);
  }

  lemma WorkKeepsProper(c: Config, s: State, w: nat, a: WorkStep)
    requires Base(s) && AllProper(s) && WorkEnabled(s, w, a)
    ensures AllProper(WorkApply(c, s, w, a))
  {
    NextIsProper(c, s, w, a);
    MoveKeepsProper(s, w, WorkNext(c, s, w, a));
    match a
    case Start(now) => WorkerWriteKeepsProper(c, s, w, a);
    case Save(now) => WorkerWriteKeepsProper(c, s, w, a);
    case Notify => NotifyKeepsProper(c, s, w);
    case _ =>
      assert WorkApply(c, s, w, a).store == s.store && WorkApply(c, s, w, a).sent == s.sent;
  }

  lemma MoveKeepsProper(s: State, w: nat, next: Worker)
    requires AllProper(s) && ResultProper(s.submitters, next)
    ensures AllProper(s.(workers := s.workers[w := next]))
  {
  }

  lemma WorkerWriteKeepsProper(c: Config, s: State, w: nat, a: WorkStep)
    requires Base(s) && AllProper(s) && WorkEnabled(s, w, a) && (a.Start? || a.Save?)
    requires AllProper(s.(workers := s.workers[w := WorkNext(c, s, w, a)]))
    ensures AllProper(WorkApply(c, s, w, a))
  {
    var wk := s.workers[w];
    var moved := s.(workers := s.workers[w := WorkNext(c, s, w, a)]);
    assert WorkerSound(s.submitters, s.blobs, wk) && ResultProper(s.submitters, wk);
    BuiltIsProper(s.submitters, wk.job, "", "");
    WriteKeepsProper(moved, wk.job.id, if a.Start? then Blank(wk.job, Processing) else wk.result, a.now);
  }

  lemma NotifyKeepsProper(c: Config, s: State, w: nat)
    requires Base(s) && AllProper(s) && WorkEnabled(s, w, Notify)
    requires AllProper(s.(workers := s.workers[w := WorkNext(c, s, w, Notify)]))
    ensures AllProper(WorkApply(c, s, w, Notify))
  {
    NotifiedIsProper(c, s, w);
    assert EventsProper(WorkApply(c, s, w, Notify));
  }

  lemma StepKeepsProper(c: Config, s: State, a: Action)
    requires Base(s) && AllProper(s) && Enabled(c, s, a)
    ensures AllProper(Apply(c, s, a))
  {
    match a
    case Submit(id, step) => SubmitKeepsProper(c, s, id, step);
    case Cancel(k, step) => CancelKeepsProper(s, k, step);
    case Work(w, step) => WorkKeepsProper(c, s, w, step);
    case Shutdown =>
    case Redeliver(job) =>
  }

  lemma {:induction false} RunKeepsProper(c: Config, s: State, acts: seq<Action>, t: State)
    requires Base(s) && AllProper(s) && Leads(c, s, acts, t)
    ensures Base(t) && AllProper(t)
    decreases |acts|
  {
    if acts != [] {
      StepKeepsBase(c, s, acts[0]);
      StepKeepsProper(c, s, acts[0]);
      RunKeepsProper(c, Apply(c, s, acts[0]), acts[1..], t);
    }
  }

  lemma ReachableIsProper(c: Config, s: State)
    requires Reachable(c, s)
    ensures Base(s) && AllProper(s)
  {
    var init, acts :| Init(init) && Leads(c, init, acts, s);
    RunKeepsProper(c, init, acts, s);
  }

  // ----- creation instants -----

  /** Every copy of the job's record, stored or in a canceler's hands, bears this creation instant. */
  ghost predicate Dated(s: State, id: string, created: Time) {
    && created != ZERO_TIME && id in s.submitters && MayHaveRecord(s.submitters[id])
    && (id in s.store.results ==> s.store.results[id].createdAt == created)
    && (forall k :: k in s.cancelers && s.cancelers[k].Writing? && s.cancelers[k].id == id ==>
          s.cancelers[k].copy.createdAt == created)
  }

  /** Workers leave the creation instant to the store. */
  ghost predicate WorkersUndated(s: State) {
    forall w :: w in s.workers && s.workers[w].Storing? ==> s.workers[w].result.createdAt == ZERO_TIME
  }

  ghost predicate AllDated(s: State) {
    forall id :: id in s.submitters && MayHaveRecord(s.submitters[id]) ==> exists created :: Dated(s, id, created)
  }

  lemma SubmitKeepsDated(c: Config, s: State, who: string, a: SubmitStep, id: string, created: Time)
    requires Dated(s, id, created) && SubmitEnabled(c, s, who, a)
    ensures Dated(SubmitApply(c, s, who, a), id, created)
  {
  }

  lemma CancelKeepsDated(s: State, k: nat, a: CancelStep, id: string, created: Time)
    requires Dated(s, id, created) && CancelEnabled(s, k, a)
    ensures Dated(CancelApply(s, k, a), id, created)
  {
  }

  lemma WorkKeepsDated(c: Config, s: State, w: nat, a: WorkStep, id: string, created: Time)
    requires Base(s) && WorkersUndated(s) && Dated(s, id, created) && WorkEnabled(s, w, a)
    ensures Dated(WorkApply(c, s, w, a), id, created)
  {
    assert WorkerSound(s.submitters, s.blobs, s.workers[w]);
  }

  lemma StepKeepsDated(c: Config, s: State, a: Action, id: string, created: Time)
    requires Base(s) && WorkersUndated(s) && Dated(s, id, created) && Enabled(c, s, a)
    ensures Dated(Apply(c, s, a), id, created)
  {
    match a
    case Submit(who, step) => SubmitKeepsDated(c, s, who, step, id, created);
    case Cancel(k, step) => CancelKeepsDated(s, k, step, id, created);
    case Work(w, step) => WorkKeepsDated(c, s, w, step, id, created);
    case Shutdown =>
    case Redeliver(job) =>
  }

  lemma StepKeepsUndated(c: Config, s: State, a: Action)
    requires WorkersUndated(s) && Enabled(c, s, a)
    ensures WorkersUndated(Apply(c, s, a))
  {
    if a.Work? { NextIsUndated(c, s, a.w, a.work); }
  }

  lemma NextIsUndated(c: Config, s: State, w: nat, a: WorkStep)
    requires WorkersUndated(s) && WorkEnabled(s, w, a)
    ensures WorkNext(c, s, w, a).Storing? ==> WorkNext(c, s, w, a).result.createdAt == ZERO_TIME
    ensures WorkApply(c, s, w, a).workers == s.workers[w := WorkNext(c, s, w, a)]
  {
  }

  /** A record's first instant is the one its submission gave. */
  lemma InitializeDates(c: Config, s: State, id: string, created: Time, now: Time)
    requires Base(s) && SubmitEnabled(c, s, id, Initialize(created, now))
    ensures Dated(SubmitApply(c, s, id, Initialize(created, now)), id, created)
  {
    forall k | k in s.cancelers && s.cancelers[k].Writing? ensures s.cancelers[k].id != id {
      assert CancelerSound(s.submitters, s.cancelers[k]);
    }
  }

  /** Only its own initialization gives a submission a record. */
  lemma RecordedFirst(c: Config, s: State, a: Action, id: string)
    requires Enabled(c, s, a) && !(id in s.submitters && MayHaveRecord(s.submitters[id]))
    requires id in Apply(c, s, a).submitters && MayHaveRecord(Apply(c, s, a).submitters[id])
    ensures a.Submit? && a.id == id && a.submit.Initialize?
  {
    if a.Submit? {
      SubmittersAfter(c, s, a.id, a.submit);
    } else {
      OthersLeaveSubmitters(c, s, a);
    }
  }

  lemma SubmittersAfter(c: Config, s: State, id: string, a: SubmitStep)
    requires SubmitEnabled(c, s, id, a)
    ensures SubmitApply(c, s, id, a).submitters == s.submitters[id := SubmitNext(c, s, id, a)]
  {
  }

  lemma OthersLeaveSubmitters(c: Config, s: State, a: Action)
    requires Enabled(c, s, a) && !a.Submit?
    ensures Apply(c, s, a).submitters == s.submitters
  {
    match a
    case Cancel(k, step) => assert CancelApply(s, k, step).submitters == s.submitters;
    case Work(w, step) => WorkLeavesSubmitters(c, s, w, step);
    case Shutdown =>
    case Redeliver(job) =>
  }

  lemma WorkLeavesSubmitters(c: Config, s: State, w: nat, a: WorkStep)
    requires WorkEnabled(s, w, a)
    ensures WorkApply(c, s, w, a).submitters == s.submitters
  {
  }

  lemma StepKeepsAllDated(c: Config, s: State, a: Action)
    requires Base(s) && WorkersUndated(s) && AllDated(s) && Enabled(c, s, a)
    ensures AllDated(Apply(c, s, a))
  {
    var t := Apply(c, s, a);
    forall id | id in t.submitters && MayHaveRecord(t.submitters[id]) ensures exists created :: Dated(t, id, created) {
      if id in s.submitters && MayHaveRecord(s.submitters[id]) {
        var created :| Dated(s, id, created);
        StepKeepsDated(c, s, a, id, created);
      } else {
        RecordedFirst(c, s, a, id);
        InitializeDates(c, s, id, a.submit.created, a.submit.now);
      }
    }
  }

  lemma {:induction false} RunKeepsAllDated(c: Config, s: State, acts: seq<Action>, t: State)
    requires Base(s) && WorkersUndated(s) && AllDated(s) && Leads(c, s, acts, t)
    ensures WorkersUndated(t) && AllDated(t)
    decreases |acts|
  {
    if acts != [] {
      StepKeepsBase(c, s, acts[0]);
      StepKeepsUndated(c, s, acts[0]);
      StepKeepsAllDated(c, s, acts[0]);
      RunKeepsAllDated(c, Apply(c, s, acts[0]), acts[1..], t);
    }
  }

  lemma {:induction false} RunKeepsDated(c: Config, s: State, acts: seq<Action>, t: State, id: string, created: Time)
    requires Base(s) && WorkersUndated(s) && Dated(s, id, created) && Leads(c, s, acts, t)
    ensures Dated(t, id, created)
    decreases |acts|
  {
    if acts != [] {
      StepKeepsBase(c, s, acts[0]);
      StepKeepsUndated(c, s, acts[0]);
      StepKeepsDated(c, s, acts[0], id, created);
      RunKeepsDated(c, Apply(c, s, acts[0]), acts[1..], t, id, created);
    }
  }

  // ----- main results -----

  /** In every reachable state an accepted job's record tells the job as it was submitted. */
  lemma RecordDescribesJob(c: Config, s: State, job: Job)
    requires Reachable(c, s) && IsAccepted(s.submitters, job)
    ensures job.id in s.store.results
    ensures
      var r := s.store.results[job.id];
      && r.url == job.url && r.idempotencyKey == job.idempotencyKey
      && r.callbackURL == job.callbackURL && r.requestID == job.requestID
  {
    ReachableIsProper(c, s);
    assert Proper(s.submitters, job.id, s.store.results[job.id]);
  }

  /** In every reachable state a record's document fields and its error are the ones its status calls for. */
  lemma RecordFollowsStatus(c: Config, s: State, id: string)
    requires Reachable(c, s) && id in s.store.results
    ensures
      var r := s.store.results[id];
      && r.inlinePDF == "" && r.pdfKey == (if r.status == Completed then "pdf/" + id + ".pdf" else "")
      && (r.status != Completed ==> r.pdfSize == 0)
      && (r.status == Canceled ==> r.error == "job canceled")
      && (r.status == Pending || r.status == Processing || r.status == Completed ==> r.error == "")
  {
    ReachableIsProper(c, s);
    assert Proper(s.submitters, id, s.store.results[id]);
  }

  /** In every reachable state every webhook for a job went to the callback the job was submitted with. */
  lemma WebhookDescribesJob(c: Config, s: State, i: nat, job: Job)
    requires Reachable(c, s) && i < |s.sent| && IsAccepted(s.submitters, job) && s.sent[i].jobID == job.id
    ensures
      var e := s.sent[i];
      && e.callbackURL == job.callbackURL != "" && e.url == job.url && e.requestID == job.requestID
      && e.pdfKey == (if e.status == Completed then "pdf/" + job.id + ".pdf" else "")
      && (e.status == Completed ==> e.error == "")
  {
    ReachableIsProper(c, s);
    assert EventProper(s.submitters, s.sent[i]);
  }

  /** A record's creation instant never changes in any run, not even through a rollback and back. */
  lemma CreatedOnce(c: Config, s: State, acts: seq<Action>, t: State, id: string)
    requires Reachable(c, s) && Leads(c, s, acts, t) && id in s.store.results && id in t.store.results
    ensures t.store.results[id].createdAt == s.store.results[id].createdAt != ZERO_TIME
  {
    ReachableIsBase(c, s);
    var init, before :| Init(init) && Leads(c, init, before, s);
    RunKeepsAllDated(c, init, before, s);
    assert RecordBelongs(s.submitters, id, s.store.results[id]);
    var created :| Dated(s, id, created);
    RunKeepsDated(c, s, acts, t, id, created);
  }
}
