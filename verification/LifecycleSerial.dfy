/**
 The life cycle graph.  When the queue delivers once and no check-then-write pair of a canceler
 or a worker has another write to the same job inside it, statuses only move along the documented
 edges and a webhook announces the status the job keeps.
 */
module LifecycleSerial {
  import opened Jobs
  import opened StoreModel
  import opened Lifecycle
  import opened LifecycleBase
  import opened LifecycleOnce
  import opened LifecycleEffects
  import opened LifecycleCancel

  predicate Edge(before: JobStatus, after: JobStatus) {
    || (before == Pending && after == Processing)
    || (before == Processing && (after == Completed || after == Failed))
    || ((before == Pending || before == Processing) && after == Canceled)
  }

  ghost predicate OtherCancelWritePending(s: State, k: nat, id: string) {
    exists j :: j in s.cancelers && j != k && s.cancelers[j].Writing? && s.cancelers[j].id == id
  }

  /** The step writes no job that another process has read and is still to write. */
  ghost predicate Undisturbed(s: State, a: Action) {
    match a
    case Cancel(k, Write(_)) =>
      k in s.cancelers && s.cancelers[k].Writing? ==>
        !OtherCancelWritePending(s, k, s.cancelers[k].id) && !WorkerWritePending(s, s.cancelers[k].id)
    case Work(w, Start(_)) => w in s.workers && s.workers[w].Starting? ==> !CancelWritePending(s, s.workers[w].job.id)
    case Work(w, Save(_)) => w in s.workers && s.workers[w].Storing? ==> !CancelWritePending(s, s.workers[w].job.id)
    case Redeliver(_) => false
    case _ => true
  }

  ghost predicate LeadsSerially(c: Config, s: State, acts: seq<Action>, t: State)
    decreases |acts|
  {
    if acts == [] then s == t
    else Enabled(c, s, acts[0]) && Undisturbed(s, acts[0]) && LeadsSerially(c, Apply(c, s, acts[0]), acts[1..], t)
  }

  // ----- reads stay fresh until their write -----

  predicate CancelFresh(subs: map<string, Submitter>, records: map<string, JobResult>, k: Canceler) {
    k.Writing? && k.id in subs && HasRecord(subs[k.id]) ==> k.id in records && !records[k.id].status.Terminal()
  }

  predicate WorkFresh(records: map<string, JobResult>, wk: Worker) {
    match wk
    case Starting(job) => job.id in records && records[job.id].status == Pending
    case Uploading(job, _) => job.id in records && records[job.id].status == Processing
    case Storing(job, _) => job.id in records && records[job.id].status == Processing
    case Notifying(job, r) => job.id in records && records[job.id] == r
    case _ => true
  }

  ghost predicate CancelersFresh(s: State) {
    forall k :: k in s.cancelers ==> CancelFresh(s.submitters, s.store.results, s.cancelers[k])
  }

  ghost predicate WorkersFresh(s: State) {
    forall w :: w in s.workers ==> WorkFresh(s.store.results, s.workers[w])
  }

  /** The event tells what the record holds. */
  predicate Tells(e: Event, r: JobResult) {
    && e.url == r.url && e.status == r.status && e.error == r.error
    && e.pdfKey == r.pdfKey && e.pdfSize == r.pdfSize && e.requestID == r.requestID
  }

  /** Every announcement tells what is now stored. */
  ghost predicate Truthful(s: State) {
    forall i :: 0 <= i < |s.sent| ==>
      s.sent[i].jobID in s.store.results && Tells(s.sent[i], s.store.results[s.sent[i].jobID])
  }

  ghost predicate Fresh(s: State) { CancelersFresh(s) && WorkersFresh(s) && Truthful(s) }

  ghost predicate Sound(s: State) { Base(s) && Once(s) && Tidy(s) }

  // ----- cancelers -----

  lemma CancelWriteKeepsFresh(s: State, k: nat, now: Time)
    requires Sound(s) && Fresh(s) && CancelEnabled(s, k, Write(now)) && Undisturbed(s, Cancel(k, Write(now)))
    ensures Fresh(CancelApply(s, k, Write(now)))
  {
    var t, id := CancelApply(s, k, Write(now)), s.cancelers[k].id;
    assert CancelerSound(s.submitters, s.cancelers[k]) && CancelFresh(s.submitters, s.store.results, s.cancelers[k]);
    forall j | j in t.cancelers ensures CancelFresh(t.submitters, t.store.results, t.cancelers[j]) {
      if j != k { assert CancelFresh(s.submitters, s.store.results, s.cancelers[j]); }
    }
    forall w | w in t.workers ensures WorkFresh(t.store.results, t.workers[w]) {
      assert WorkFresh(s.store.results, s.workers[w]) && StageStatus(s.store.results, s.workers[w]);
      assert WorkerSound(s.submitters, s.blobs, s.workers[w]);
    }
    forall i | 0 <= i < |s.sent| ensures s.sent[i].jobID != id {
      assert EventSound(s.submitters, s.sent[i]);
    }
  }

  lemma CancelReadKeepsFresh(s: State, k: nat)
    requires Sound(s) && Fresh(s) && CancelEnabled(s, k, Read)
    ensures Fresh(CancelApply(s, k, Read))
  {
    assert CancelFresh(s.submitters, s.store.results, CancelNext(s, k, Read));
  }

  lemma CancelKeepsFresh(s: State, k: nat, a: CancelStep)
    requires Sound(s) && Fresh(s) && CancelEnabled(s, k, a) && Undisturbed(s, Cancel(k, a))
    ensures Fresh(CancelApply(s, k, a))
  {
    if a.Write? {
      CancelWriteKeepsFresh(s, k, a.now);
    } else if a.Read? {
      CancelReadKeepsFresh(s, k);
    }
  }

  // ----- workers -----

  lemma NextIsFresh(c: Config, s: State, w: nat, a: WorkStep)
    requires Once(s) && WorkersFresh(s) && WorkEnabled(s, w, a)
    ensures WorkFresh(WorkApply(c, s, w, a).store.results, WorkNext(c, s, w, a))
  {
    assert WorkFresh(s.store.results, s.workers[w]) && StageStatus(s.store.results, s.workers[w]);
  }

  /** A worker's write disturbs no other process. */
  lemma WorkerWriteKeepsFresh(s: State, w: nat, next: Worker, r: JobResult, now: Time)
    requires SentOnce(s) && HandsDistinct(s.workers) && Fresh(s)
    requires w in s.workers && (s.workers[w].Starting? || s.workers[w].Storing?)
    requires !next.Idle? && next.job == s.workers[w].job && !CancelWritePending(s, next.job.id)
    requires WorkFresh(SetRecord(s.store, next.job.id, r, now).results, next)
    ensures Fresh(s.(workers := s.workers[w := next], store := SetRecord(s.store, next.job.id, r, now)))
  {
    WriteKeepsCancelersFresh(s, next.job.id, r, now);
    WriteKeepsWorkersFresh(s, w, next, r, now);
    WriteKeepsTruthful(s, w, r, now);
  }

  lemma WriteKeepsTruthful(s: State, w: nat, r: JobResult, now: Time)
    requires SentOnce(s) && Truthful(s) && w in s.workers && (s.workers[w].Starting? || s.workers[w].Storing?)
    ensures Truthful(s.(store := SetRecord(s.store, s.workers[w].job.id, r, now)))
  {
    assert SentIsDone(s.sent, s.workers[w]);
  }

  lemma WriteKeepsCancelersFresh(s: State, id: string, r: JobResult, now: Time)
    requires CancelersFresh(s) && !CancelWritePending(s, id)
    ensures CancelersFresh(s.(store := SetRecord(s.store, id, r, now)))
  {
    forall k | k in s.cancelers ensures CancelFresh(s.submitters, SetRecord(s.store, id, r, now).results, s.cancelers[k]) {
      assert CancelFresh(s.submitters, s.store.results, s.cancelers[k]);
    }
  }

  lemma WriteKeepsWorkersFresh(s: State, w: nat, next: Worker, r: JobResult, now: Time)
    requires HandsDistinct(s.workers) && WorkersFresh(s) && w in s.workers && !s.workers[w].Idle?
    requires !next.Idle? && next.job == s.workers[w].job
    requires WorkFresh(SetRecord(s.store, next.job.id, r, now).results, next)
    ensures WorkersFresh(s.(workers := s.workers[w := next], store := SetRecord(s.store, next.job.id, r, now)))
  {
    var after := SetRecord(s.store, next.job.id, r, now).results;
    forall v | v in s.workers && v != w ensures WorkFresh(after, s.workers[v]) {
      assert WorkFresh(s.store.results, s.workers[v]);
    }
  }

  lemma WorkKeepsFresh(c: Config, s: State, w: nat, a: WorkStep)
    requires Sound(s) && Fresh(s) && WorkEnabled(s, w, a) && Undisturbed(s, Work(w, a))
    ensures Fresh(WorkApply(c, s, w, a))
  {
    var next := WorkNext(c, s, w, a);
    NextIsFresh(c, s, w, a);
    if a.Start? {
      WorkerWriteKeepsFresh(s, w, next, Blank(next.job, Processing), a.now);
    } else if a.Save? {
      WorkerWriteKeepsFresh(s, w, next, s.workers[w].result, a.now);
    } else {
      MoveKeepsFresh(c, s, w, a);
    }
  }

  lemma MoveKeepsFresh(c: Config, s: State, w: nat, a: WorkStep)
    requires Fresh(s) && WorkEnabled(s, w, a) && !a.Start? && !a.Save?
    requires WorkFresh(s.store.results, WorkNext(c, s, w, a))
    ensures Fresh(WorkApply(c, s, w, a))
  {
    var t := WorkApply(c, s, w, a);
    WorkLeavesOthers(c, s, w, a, "");
    MoveLeavesStore(c, s, w, a);
    assert CancelersFresh(t);
    assert WorkFresh(s.store.results, s.workers[w]);
    assert Truthful(t);
  }

  lemma MoveLeavesStore(c: Config, s: State, w: nat, a: WorkStep)
    requires WorkEnabled(s, w, a) && !a.Start? && !a.Save?
    ensures WorkApply(c, s, w, a).store == s.store
    ensures WorkApply(c, s, w, a).sent == s.sent ||
            (a.Notify? && WorkApply(c, s, w, a).sent == s.sent + [EventFor(s.workers[w].job, s.workers[w].result)])
  {
  }

  // ----- submitters -----

  lemma SubmitKeepsCancelerFresh(c: Config, s: State, id: string, a: SubmitStep, cn: Canceler)
    requires Base(s) && SubmitEnabled(c, s, id, a)
    requires CancelFresh(s.submitters, s.store.results, cn) && CancelerSound(s.submitters, cn)
    ensures CancelFresh(SubmitApply(c, s, id, a).submitters, SubmitApply(c, s, id, a).store.results, cn)
  {
    if cn.Writing? && cn.id != id { SubmitLeavesOthers(c, s, id, a, cn.id); }
  }

  lemma SubmitKeepsCancelersFresh(c: Config, s: State, id: string, a: SubmitStep)
    requires Base(s) && CancelersFresh(s) && SubmitEnabled(c, s, id, a)
    ensures CancelersFresh(SubmitApply(c, s, id, a))
  {
    var t := SubmitApply(c, s, id, a);
    assert t.cancelers == s.cancelers;
    forall k | k in s.cancelers ensures CancelFresh(t.submitters, t.store.results, s.cancelers[k]) {
      assert CancelFresh(s.submitters, s.store.results, s.cancelers[k]) && CancelerSound(s.submitters, s.cancelers[k]);
      SubmitKeepsCancelerFresh(c, s, id, a, s.cancelers[k]);
    }
  }

  lemma SubmitKeepsWorkersFresh(c: Config, s: State, id: string, a: SubmitStep)
    requires Base(s) && WorkersFresh(s) && SubmitEnabled(c, s, id, a)
    ensures WorkersFresh(SubmitApply(c, s, id, a))
  {
    var t := SubmitApply(c, s, id, a);
    forall w | w in t.workers ensures WorkFresh(t.store.results, t.workers[w]) {
      if a.HandOff? && w == a.w {
        assert t.workers[w].Fetched?;
      } else {
        assert t.workers[w] == s.workers[w];
        assert WorkFresh(s.store.results, s.workers[w]) && WorkerSound(s.submitters, s.blobs, s.workers[w]);
        if !s.workers[w].Idle? { SubmitLeavesOthers(c, s, id, a, s.workers[w].job.id); }
      }
    }
  }

  lemma SubmitKeepsTruthful(c: Config, s: State, id: string, a: SubmitStep)
    requires Base(s) && SentOnce(s) && Truthful(s) && SubmitEnabled(c, s, id, a)
    ensures Truthful(SubmitApply(c, s, id, a))
  {
    var t := SubmitApply(c, s, id, a);
    assert t.sent == s.sent;
    forall i | 0 <= i < |s.sent| ensures Lookup(t.store, s.sent[i].jobID) == Lookup(s.store, s.sent[i].jobID) {
      SubmitLeavesAnnounced(c, s, id, a, i);
    }
  }

  lemma SubmitLeavesAnnounced(c: Config, s: State, id: string, a: SubmitStep, i: nat)
    requires SentOnce(s) && SubmitEnabled(c, s, id, a) && i < |s.sent|
    ensures Lookup(SubmitApply(c, s, id, a).store, s.sent[i].jobID) == Lookup(s.store, s.sent[i].jobID)
  {
    assert EventSound(s.submitters, s.sent[i]);
    if s.sent[i].jobID != id { SubmitLeavesOthers(c, s, id, a, s.sent[i].jobID); }
  }

  // ----- all steps -----

  lemma StepKeepsFresh(c: Config, s: State, a: Action)
    requires Sound(s) && Fresh(s) && Enabled(c, s, a) && Undisturbed(s, a)
    ensures Fresh(Apply(c, s, a))
  {
    match a
    case Submit(id, step) =>
      SubmitKeepsCancelersFresh(c, s, id, step);
      SubmitKeepsWorkersFresh(c, s, id, step);
      SubmitKeepsTruthful(c, s, id, step);
    case Cancel(k, step) => CancelKeepsFresh(s, k, step);
    case Work(w, step) => WorkKeepsFresh(c, s, w, step);
    case Shutdown =>
  }

  lemma StepKeepsSound(c: Config, s: State, a: Action)
    requires Sound(s) && Enabled(c, s, a) && !a.Redeliver?
    ensures Sound(Apply(c, s, a))
  {
    StepKeepsBase(c, s, a);
    StepKeepsOnce(c, s, a);
    StepKeepsTidy(c, s, a);
  }

  lemma {:induction false} RunKeepsFresh(c: Config, s: State, acts: seq<Action>, t: State)
    requires Sound(s) && Fresh(s) && LeadsSerially(c, s, acts, t)
    ensures Sound(t) && Fresh(t)
    decreases |acts|
  {
    if acts != [] {
      StepKeepsSound(c, s, acts[0]);
      StepKeepsFresh(c, s, acts[0]);
      RunKeepsFresh(c, Apply(c, s, acts[0]), acts[1..], t);
    }
  }

  // ----- main results -----

  /** From before to after is an edge of the life cycle, or no move. */
  predicate Moves(before: Store, after: Store, id: string) {
    && id in before.results && id in after.results
    && (before.results[id].status == after.results[id].status
        || Edge(before.results[id].status, after.results[id].status))
  }

  lemma CancelFollowsEdge(s: State, k: nat, a: CancelStep, id: string)
    requires Sound(s) && Fresh(s) && CancelEnabled(s, k, a) && AcceptedID(s, id)
    ensures Moves(s.store, CancelApply(s, k, a).store, id)
  {
    if a.Write? { assert CancelFresh(s.submitters, s.store.results, s.cancelers[k]); }
  }

  lemma WorkFollowsEdge(c: Config, s: State, w: nat, a: WorkStep, id: string)
    requires Sound(s) && Fresh(s) && WorkEnabled(s, w, a) && AcceptedID(s, id)
    ensures Moves(s.store, WorkApply(c, s, w, a).store, id)
  {
    assert id in s.store.results by { assert HasRecord(s.submitters[id]); }
    if !a.Start? && !a.Save? {
      MoveLeavesStore(c, s, w, a);
    } else if s.workers[w].job.id != id {
      WorkLeavesOthers(c, s, w, a, id);
    } else {
      WriteFollowsEdge(c, s, w, a);
    }
  }

  lemma WriteFollowsEdge(c: Config, s: State, w: nat, a: WorkStep)
    requires Base(s) && WorkersFresh(s) && WorkEnabled(s, w, a) && (a.Start? || a.Save?)
    ensures Moves(s.store, WorkApply(c, s, w, a).store, s.workers[w].job.id)
  {
    assert WorkFresh(s.store.results, s.workers[w]) && WorkerSound(s.submitters, s.blobs, s.workers[w]);
  }

  lemma StepFollowsEdge(c: Config, s: State, a: Action, id: string)
    requires Sound(s) && Fresh(s) && Enabled(c, s, a) && !a.Redeliver? && AcceptedID(s, id)
    ensures Moves(s.store, Apply(c, s, a).store, id)
  {
    match a
    case Submit(who, step) => SubmitLeavesOthers(c, s, who, step, id);
    case Cancel(k, step) => CancelFollowsEdge(s, k, step, id);
    case Work(w, step) => WorkFollowsEdge(c, s, w, step, id);
    case Shutdown =>
  }

  lemma InitIsFresh(s: State)
    requires Init(s)
    ensures Sound(s) && Fresh(s)
  {
  }

  /**
   After any undisturbed run from the start, the next step moves an accepted job along an edge of
   the life cycle or leaves its status alone; terminal statuses have no outgoing edge.
   */
  lemma LifecycleGraph(c: Config, init: State, acts: seq<Action>, s: State, a: Action, id: string)
    requires Init(init) && LeadsSerially(c, init, acts, s)
    requires Enabled(c, s, a) && !a.Redeliver? && AcceptedID(s, id)
    ensures Moves(s.store, Apply(c, s, a).store, id)
    ensures s.store.results[id].status.Terminal() ==>
              Apply(c, s, a).store.results[id].status == s.store.results[id].status
  {
    InitIsFresh(init);
    RunKeepsFresh(c, init, acts, s);
    StepFollowsEdge(c, s, a, id);
  }

  /** After any undisturbed run each announced job was announced once, with what its record still holds. */
  lemma WebhookTellsTheFinalStatus(c: Config, init: State, acts: seq<Action>, s: State, i: nat)
    requires Init(init) && LeadsSerially(c, init, acts, s) && i < |s.sent|
    ensures s.sent[i].status == Completed || s.sent[i].status == Failed
    ensures s.sent[i].jobID in s.store.results && Tells(s.sent[i], s.store.results[s.sent[i].jobID])
    ensures forall j :: 0 <= j < |s.sent| && s.sent[j].jobID == s.sent[i].jobID ==> i == j
  {
    InitIsFresh(init);
    RunKeepsFresh(c, init, acts, s);
    assert EventSound(s.submitters, s.sent[i]);
  }
}
