/**
 A worker's loop body, each call against the shared back ends, proved to be a run of the life cycle
 machine.  Cancel requests that arrive while a render or a back-off is under way are part of the script.
 */
module WorkerPool {
  import opened Jobs
  import opened StoreModel
  import opened Lifecycle
  import opened MemoryBackends
  import H = Handler
  import LB = LifecycleBase
  import LR = LifecycleRecords

  /**
   What one render attempt meets: its outcome and duration, and whether a cancel request lands
   during the attempt or, so long into it, during the back-off that follows.
   */
  datatype Attempt = Attempt(outcome: Outcome, duration: nat, canceled: bool, canceledWaiting: bool, waited: nat, at: Time)

  /** The longest a job can spend rendering. */
  function RenderBudget(attempts: nat, pageTimeout: nat, backoff: nat): nat {
    attempts * pageTimeout + (if attempts == 0 then 0 else attempts - 1) * backoff
  }

  class Pool {
    const backends: Backends
    const handler: H.Handler
    const attempts: nat
    const backoff: nat
    const notifier: bool

    constructor (backends: Backends, handler: H.Handler, retries: int, backoff: int, notifier: bool)
      requires handler.backends == backends
      ensures this.backends == backends && this.handler == handler && this.notifier == notifier
      ensures attempts == (if retries < 0 then 0 else retries) + 1
      ensures this.backoff == if backoff <= 0 then SECOND / 2 else backoff
    {
      this.backends, this.handler, this.notifier := backends, handler, notifier;
      this.attempts := (if retries < 0 then 0 else retries) + 1;
      this.backoff := if backoff <= 0 then SECOND / 2 else backoff;
    }

    ghost predicate Configured(c: Config) {
      && handler.backends == backends && attempts >= 1
      && c == Config(backends.queue.size, attempts, notifier)
    }

    /** The worker stands at this point of the run and the back ends agree with the machine. */
    ghost predicate At(c: Config, s: State, w: nat, wk: Worker)
      reads backends, backends.storage, backends.queue, backends.blobs, backends.cancels
    {
      Configured(c) && backends.Shows(s) && w in s.workers && s.workers[w] == wk
    }

    method CancelIf(arrives: bool, jobID: string, now: Time, ghost c: Config, ghost s: State)
      returns (ghost acts: seq<Action>, ghost t: State)
      requires Configured(c) && backends.Shows(s) && now != ZERO_TIME
      modifies backends.storage, backends.cancels
      ensures Leads(c, s, acts, t) && backends.Shows(t)
      ensures t.workers == s.workers && Keeps(s, t, jobID) && Requested(s, t, jobID, arrives, now)
    {
      acts, t := [], s;
      if arrives {
        var result;
        result, acts, t := handler.CancelJob(jobID, now, c, s);
      }
    }

    /** One render attempt; done unless it failed with a live context and attempts left. */
    method RunAttempt(w: nat, job: Job, attempt: nat, a: Attempt, stopping: bool, ghost c: Config, ghost s: State)
      returns (done: bool, ghost acts: seq<Action>, ghost t: State)
      requires At(c, s, w, Rendering(job, attempt)) && stopping == s.stopping && a.at != ZERO_TIME
      modifies backends.storage, backends.cancels
      ensures Leads(c, s, acts, t)
      ensures At(c, t, w, if done then Rechecking(job, a.outcome) else BackingOff(job, attempt))
      ensures done <==> a.outcome.Rendered? || CtxDone(s, w) || (a.canceled && Stops(s, job.id, w)) || attempt >= attempts
      ensures Keeps(s, t, job.id) && Requested(s, t, job.id, a.canceled, a.at)
    {
      ghost var m: State;
      acts, m := CancelIf(a.canceled, job.id, a.at, c, s);
      DoneAfter(s, m, w, job.id, a.canceled, a.at);
      done := a.outcome.Rendered? || w in backends.cancels.interrupted || stopping || attempt >= attempts;
      acts, t := H.Extend(c, s, acts, m, Work(w, Render(a.outcome)));
    }

    /** The back-off after a failed attempt, cut short when the context is done. */
    method Wait(w: nat, job: Job, attempt: nat, a: Attempt, stopping: bool, ghost c: Config, ghost s: State)
      returns (interrupted: bool, spent: nat, ghost acts: seq<Action>, ghost t: State)
      requires At(c, s, w, BackingOff(job, attempt)) && stopping == s.stopping && a.at != ZERO_TIME
      modifies backends.storage, backends.cancels
      ensures Leads(c, s, acts, t)
      ensures At(c, t, w, if interrupted then Rechecking(job, RenderFailed(CONTEXT_CANCELED)) else Rendering(job, attempt + 1))
      ensures interrupted <==> CtxDone(s, w) || (a.canceledWaiting && Stops(s, job.id, w))
      ensures spent == if !interrupted then backoff else if CtxDone(s, w) then 0 else a.waited
      ensures Keeps(s, t, job.id) && Requested(s, t, job.id, a.canceledWaiting, a.at)
    {
      var already := w in backends.cancels.interrupted || stopping;
      ghost var m: State;
      acts, m := CancelIf(a.canceledWaiting, job.id, a.at, c, s);
      DoneAfter(s, m, w, job.id, a.canceledWaiting, a.at);
      interrupted := w in backends.cancels.interrupted || stopping;
      spent := if !interrupted then backoff else if already then 0 else a.waited;
      acts, t := RestRun(c, s, acts, m, w, interrupted);
    }

    /** One turn of the loop: an attempt, and the back-off after it if another one is to follow. */
    method Turn(w: nat, job: Job, attempt: nat, a: Attempt, stopping: bool, ghost c: Config, ghost s: State)
      returns (ended: bool, outcome: Outcome, spent: nat, ghost acts: seq<Action>, ghost t: State)
      requires At(c, s, w, Rendering(job, attempt)) && stopping == s.stopping && a.at != ZERO_TIME && attempt <= attempts
      modifies backends.storage, backends.cancels
      ensures Leads(c, s, acts, t)
      ensures At(c, t, w, if ended then Rechecking(job, outcome) else Rendering(job, attempt + 1))
      ensures ended <==> attempt == attempts || !GoesOn(a, CtxDone(s, w), Stops(s, job.id, w))
      ensures ended ==> EndsWith(a, attempts - attempt, CtxDone(s, w), Stops(s, job.id, w), outcome, spent)
      ensures !ended ==> spent == a.duration + backoff
      ensures Stops(s, job.id, w) ==>
                Requested(s, t, job.id, Lands(a, attempts - attempt, CtxDone(s, w), Stops(s, job.id, w)), a.at)
      ensures ended && attempt < attempts && outcome.RenderFailed? ==> CtxDone(t, w)
      ensures !ended ==> Unstopped(s, t, w, job.id)
      ensures Keeps(s, t, job.id)
    {
      outcome := a.outcome;
      ended, acts, t := RunAttempt(w, job, attempt, a, stopping, c, s);
      if ended { return ended, outcome, a.duration, acts, t; }
      ghost var m, more := t, acts;
      Missed(s, m, w, job.id, a.canceled, a.at);
      var waited;
      ended, waited, more, t := Wait(w, job, attempt, a, stopping, c, m);
      if ended {
        DoneAfter(m, t, w, job.id, a.canceledWaiting, a.at);
        RequestedSince(s, m, t, w, job.id, a, attempts - attempt);
      } else {
        Missed(m, t, w, job.id, a.canceledWaiting, a.at);
        StillUnstopped(s, m, t, w, job.id);
      }
      LeadsAppend(c, s, acts, m, more, t);
      acts := acts + more;
      spent := a.duration + waited;
      if ended { outcome := RenderFailed(CONTEXT_CANCELED); }
    }

    /**
     Renders until an attempt succeeds, the context is done or the attempts are used up: the outcome is the
     last attempt's, unless a cancel request cuts a back-off short.
     */
    method GenerateWithRetries(w: nat, job: Job, script: seq<Attempt>, stopping: bool, pageTimeout: nat,
                               ghost c: Config, ghost s: State)
      returns (outcome: Outcome, elapsed: nat, ghost acts: seq<Action>, ghost t: State)
      requires At(c, s, w, Rendering(job, 1)) && stopping == s.stopping && Playable(script, attempts, pageTimeout, backoff)
      modifies backends.storage, backends.cancels
      ensures Leads(c, s, acts, t) && At(c, t, w, Rechecking(job, outcome)) && Keeps(s, t, job.id)
      ensures
        var k := LastRender(script, attempts, CtxDone(s, w), Stops(s, job.id, w));
        && RenderedUpTo(script, attempts, CtxDone(s, w), Stops(s, job.id, w), backoff, k, outcome, elapsed)
        && (Stops(s, job.id, w) ==>
              Requested(s, t, job.id, Lands(script[k], attempts - 1 - k, CtxDone(s, w), Stops(s, job.id, w)), script[k].at))
      ensures elapsed <= RenderBudget(attempts, pageTimeout, backoff)
      ensures !CtxDone(s, w) && Uncanceled(script[..attempts]) ==> FirstSuccessOrLast(script[..attempts], outcome)
      ensures outcome.RenderFailed? ==> CtxDone(t, w) || forall i :: 0 <= i < attempts ==> script[i].outcome.RenderFailed?
    {
      ghost var k, spent;
      outcome, elapsed, k, spent, acts, t := RenderLoop(w, job, script, stopping, pageTimeout, c, s);
      Ended(script, attempts, k, CtxDone(s, w), Stops(s, job.id, w), pageTimeout, backoff, elapsed - spent, outcome, spent);
    }

    /** The loop; k names its last attempt and spent the time that one took. */
    method RenderLoop(w: nat, job: Job, script: seq<Attempt>, stopping: bool, pageTimeout: nat, ghost c: Config, ghost s: State)
      returns (outcome: Outcome, elapsed: nat, ghost k: nat, ghost spent: nat, ghost acts: seq<Action>, ghost t: State)
      requires At(c, s, w, Rendering(job, 1)) && stopping == s.stopping && Playable(script, attempts, pageTimeout, backoff)
      modifies backends.storage, backends.cancels
      ensures Leads(c, s, acts, t) && At(c, t, w, Rechecking(job, outcome)) && Keeps(s, t, job.id)
      ensures k < attempts && spent <= elapsed && Going(script, k, CtxDone(s, w), Stops(s, job.id, w), backoff, elapsed - spent)
      ensures k == attempts - 1 || !GoesOn(script[k], CtxDone(s, w), Stops(s, job.id, w))
      ensures EndsWith(script[k], attempts - 1 - k, CtxDone(s, w), Stops(s, job.id, w), outcome, spent)
      ensures Stops(s, job.id, w) ==>
                Requested(s, t, job.id, Lands(script[k], attempts - 1 - k, CtxDone(s, w), Stops(s, job.id, w)), script[k].at)
      ensures k < attempts - 1 && outcome.RenderFailed? ==> CtxDone(t, w)
    {
      var attempt := 1;
      elapsed, acts, t := 0, [], s;
      while true
        invariant 1 <= attempt <= attempts
        invariant Going(script, attempt - 1, CtxDone(s, w), Stops(s, job.id, w), backoff, elapsed)
        invariant Leads(c, s, acts, t) && At(c, t, w, Rendering(job, attempt)) && Unstopped(s, t, w, job.id)
        decreases attempts - attempt
      {
        k := attempt - 1;
        ghost var m, more, before := t, acts, elapsed;
        var ended, took;
        ended, outcome, took, more, t := Turn(w, job, attempt, script[attempt - 1], stopping, c, m);
        LeadsAppend(c, s, acts, m, more, t);
        acts := acts + more;
        elapsed := elapsed + took;
        if ended {
          spent := took;
          RequestedSince(s, m, t, w, job.id, script[k], attempts - attempt);
          return;
        }
        StillGoing(script, k, CtxDone(s, w), Stops(s, job.id, w), backoff, before);
        StillUnstopped(s, m, t, w, job.id);
        attempt := attempt + 1;
      }
    }

    /** Skips a canceled job; otherwise marks it Processing and registers its cancel function. */
    method Prepare(w: nat, job: Job, now: Time, ghost c: Config, ghost s: State)
      returns (skipped: bool, ghost acts: seq<Action>, ghost t: State)
      requires At(c, s, w, Fetched(job)) && now != ZERO_TIME
      modifies backends.storage, backends.cancels
      ensures Leads(c, s, acts, t) && At(c, t, w, if skipped then Returning(job) else Rendering(job, 1))
      ensures skipped <==> IsCanceled(s.store, job.id)
      ensures t.queue == s.queue && t.sent == s.sent && t.blobs == s.blobs && t.stopping == s.stopping
      ensures skipped ==> t.store == s.store
      ensures !skipped ==> InHand(t, w, job.id)
      ensures job.id in t.store.results
    {
      var current := backends.storage.Get(job.id);
      skipped := current.Some? && current.value.status == Canceled;
      if skipped {
        acts, t := SkipRun(c, s, w);
        return;
      }
      acts, t := Mark(w, job, now, c, s);
    }

    method Mark(w: nat, job: Job, now: Time, ghost c: Config, ghost s: State)
      returns (ghost acts: seq<Action>, ghost t: State)
      requires At(c, s, w, Fetched(job)) && now != ZERO_TIME && !IsCanceled(s.store, job.id)
      modifies backends.storage, backends.cancels
      ensures Leads(c, s, acts, t) && At(c, t, w, Rendering(job, 1)) && InHand(t, w, job.id)
      ensures t.queue == s.queue && t.sent == s.sent && t.blobs == s.blobs && t.stopping == s.stopping
    {
      var stored := backends.storage.Set(job.id, Blank(job, Processing), now);
      backends.cancels.Register(job.id, w);
      acts, t := PrepareRun(c, s, w, now);
    }

    method Announce(job: Job, result: JobResult)
      modifies backends
      ensures backends.sent == Announced(notifier, old(backends.sent), job, result)
      ensures Told(notifier, old(backends.sent), job, result, backends.sent)
    {
      var callbackURL := result.callbackURL;
      if callbackURL == "" { callbackURL := job.callbackURL; }
      if callbackURL == "" || !notifier { return; }
      if result.status != Completed && result.status != Failed { return; }
      backends.sent := backends.sent + [Event(callbackURL, job.id, result.url, result.status, result.error,
                                              result.pdfKey, result.pdfSize, result.requestID)];
    }

    /**
     After rendering: a canceled job keeps its record and is not announced; a failed render or upload is
     stored as Failed, a stored document as Completed, and the status just stored is announced.
     */
    method Finish(w: nat, job: Job, outcome: Outcome, putError: Option<string>, stopping: bool, now: Time,
                  ghost c: Config, ghost s: State)
      returns (ghost acts: seq<Action>, ghost t: State)
      requires At(c, s, w, Rechecking(job, outcome)) && stopping == s.stopping && now != ZERO_TIME
      modifies backends, backends.storage, backends.blobs
      ensures t == FinishedState(c, s, w, putError, now)
      ensures Leads(c, s, acts, t) && At(c, t, w, Unregistering(job))
    {
      StoreOutcome(job, outcome, putError, stopping, now);
      FinishedKeepsConsistent(c, s, w, putError, now);
      acts, t := FinishRun(c, s, w, putError, now);
    }

    method StoreOutcome(job: Job, outcome: Outcome, putError: Option<string>, stopping: bool, now: Time)
      requires backends.storage.Valid() && now != ZERO_TIME
      modifies backends, backends.storage, backends.blobs
      ensures backends.storage.Valid()
      ensures
        var before, after := old(backends.storage.View()), backends.storage.View();
        if IsCanceled(before, job.id)
        then after == before && backends.sent == old(backends.sent) && backends.blobs.data == old(backends.blobs.data)
        else
          var result := FinalResult(stopping, job, outcome, putError);
          && after == SetRecord(before, job.id, result, now)
          && backends.sent == Announced(notifier, old(backends.sent), job, Filled(before, job.id, result, now))
          && backends.blobs.data == if outcome.Rendered? && putError.None?
                                    then old(backends.blobs.data)[PDFKey(job.id) := outcome.pdf] else old(backends.blobs.data)
      ensures
        if IsCanceled(old(backends.storage.View()), job.id) then backends.sent == old(backends.sent)
        else OutcomeStored(job, outcome, putError, stopping, notifier, backends.storage.results, backends.blobs.data,
                           old(backends.sent), backends.sent)
    {
      StoredConcludes(backends.storage.View(), job, outcome, putError, stopping, now);
      AnnouncedIsTold(notifier, backends.sent, job, Filled(backends.storage.View(), job.id, FinalResult(stopping, job, outcome, putError), now));
      var current := backends.storage.Get(job.id);
      if outcome.RenderFailed? {
        if current.Some? && current.value.status == Canceled {
          Announce(job, current.value);
          return;
        }
        var failed := Conclude(job, FailedResult(job, RecordedError(stopping, outcome.error)), now);
        return;
      }
      if current.Some? && current.value.status == Canceled {
        Announce(job, current.value);
        return;
      }
      if putError.Some? {
        var failed := Conclude(job, FailedResult(job, putError.value), now);
        return;
      }
      backends.blobs.Put(PDFKey(job.id), outcome.pdf);
      var completed := Conclude(job, CompletedResult(job, outcome.pdf), now);
    }

    /** Stores a final result and announces it as stored. */
    method Conclude(job: Job, result: JobResult, now: Time) returns (stored: JobResult)
      requires backends.storage.Valid() && now != ZERO_TIME
      modifies backends, backends.storage
      ensures backends.storage.Valid()
      ensures backends.storage.View() == SetRecord(old(backends.storage.View()), job.id, result, now)
      ensures stored == Filled(old(backends.storage.View()), job.id, result, now)
      ensures backends.sent == Announced(notifier, old(backends.sent), job, stored)
    {
      stored := backends.storage.Set(job.id, result, now);
      Announce(job, stored);
    }

    /** One job from queue to acknowledgement: a run of this worker from Fetched to Returning. */
    method ProcessJob(w: nat, job: Job, script: seq<Attempt>, stopping: bool, pageTimeout: nat,
                      putError: Option<string>, started: Time, finished: Time, ghost c: Config, ghost s: State)
      returns (ghost acts: seq<Action>, ghost t: State)
      requires At(c, s, w, Fetched(job)) && stopping == s.stopping && Playable(script, attempts, pageTimeout, backoff)
      requires started != ZERO_TIME && finished != ZERO_TIME
      modifies backends, backends.storage, backends.blobs, backends.cancels
      ensures Leads(c, s, acts, t) && At(c, t, w, Returning(job))
      ensures Settled(job, s, t)
      ensures IsCanceled(s.store, job.id) ==> t.store == s.store && t.blobs == s.blobs
      ensures !IsCanceled(s.store, job.id) ==> Processed(script, attempts, stopping, putError, notifier, job, s, t)
      ensures Reachable(c, s) ==>
                var r := t.store.results[job.id];
                && r.url == job.url && r.idempotencyKey == job.idempotencyKey
                && r.callbackURL == job.callbackURL && r.requestID == job.requestID
                && forall i :: |s.sent| <= i < |t.sent| ==>
                     t.sent[i].jobID == job.id && t.sent[i].callbackURL == job.callbackURL
                     && t.sent[i].url == job.url && t.sent[i].requestID == job.requestID
    {
      var skipped;
      skipped, acts, t := Prepare(w, job, started, c, s);
      if !skipped {
        ghost var m, more := t, acts;
        more, t := RenderAndFinish(w, job, script, stopping, pageTimeout, putError, finished, c, m);
        LeadsAppend(c, s, acts, m, more, t);
        acts := acts + more;
      }
      if Reachable(c, s) { ProcessedAsSubmitted(c, s, acts, t, w, job); }
    }

    method RenderAndFinish(w: nat, job: Job, script: seq<Attempt>, stopping: bool, pageTimeout: nat,
                           putError: Option<string>, finished: Time, ghost c: Config, ghost s: State)
      returns (ghost acts: seq<Action>, ghost t: State)
      requires At(c, s, w, Rendering(job, 1)) && stopping == s.stopping && Playable(script, attempts, pageTimeout, backoff)
      requires InHand(s, w, job.id) && finished != ZERO_TIME
      modifies backends, backends.storage, backends.blobs, backends.cancels
      ensures Leads(c, s, acts, t) && At(c, t, w, Returning(job))
      ensures Settled(job, s, t) && Processed(script, attempts, stopping, putError, notifier, job, s, t)
    {
      ghost var m;
      acts, m := RenderAndConclude(w, job, script, stopping, pageTimeout, putError, finished, c, s);
      backends.cancels.Unregister(job.id);
      acts, t := H.Extend(c, s, acts, m, Work(w, Unregister));
      Unregistered(script, attempts, stopping, putError, notifier, job, s, m, t);
    }

    method RenderAndConclude(w: nat, job: Job, script: seq<Attempt>, stopping: bool, pageTimeout: nat,
                             putError: Option<string>, finished: Time, ghost c: Config, ghost s: State)
      returns (ghost acts: seq<Action>, ghost t: State)
      requires At(c, s, w, Rendering(job, 1)) && stopping == s.stopping && Playable(script, attempts, pageTimeout, backoff)
      requires InHand(s, w, job.id) && finished != ZERO_TIME
      modifies backends, backends.storage, backends.blobs, backends.cancels
      ensures Leads(c, s, acts, t) && At(c, t, w, Unregistering(job))
      ensures Settled(job, s, t) && Processed(script, attempts, stopping, putError, notifier, job, s, t)
    {
      var outcome, elapsed;
      outcome, elapsed, acts, t := GenerateWithRetries(w, job, script, stopping, pageTimeout, c, s);
      ghost var m, more := t, acts;
      FinishedAsScripted(c, s, m, w, job, script, attempts, backoff, outcome, elapsed, putError, finished);
      more, t := Finish(w, job, outcome, putError, stopping, finished, c, m);
      LeadsAppend(c, s, acts, m, more, t);
      acts := acts + more;
    }

    /**
     One turn of the worker loop: the worker stops when the context is done and no job was received;
     otherwise the oldest job is processed, even if the context is done by then.
     */
    method Serve(w: nat, stopping: bool, script: seq<Attempt>, pageTimeout: nat, putError: Option<string>,
                 started: Time, finished: Time, ghost c: Config, ghost s: State)
      returns (stopped: bool, ghost acts: seq<Action>, ghost t: State)
      requires At(c, s, w, Idle) && stopping == s.stopping && (s.queue != [] || stopping) && Playable(script, attempts, pageTimeout, backoff)
      requires started != ZERO_TIME && finished != ZERO_TIME
      modifies backends, backends.storage, backends.blobs, backends.cancels, backends.queue
      ensures Leads(c, s, acts, t) && At(c, t, w, Idle)
      ensures stopped ==> s.stopping && t == s
      ensures !stopped ==> s.queue != [] && Served(s.queue[0], s, t)
    {
      var job := backends.queue.Pop(stopping);
      stopped := job.None?;
      acts, t := [], s;
      if stopped { return; }
      acts, t := H.Extend(c, s, [], s, Work(w, Take));
      ghost var m, more := t, acts;
      more, t := ProcessJob(w, job.value, script, stopping, pageTimeout, putError, started, finished, c, m);
      LeadsAppend(c, s, acts, m, more, t);
      acts, t := H.Extend(c, s, acts + more, t, Work(w, Ack));
    }
  }

  /** The oldest queue entry was taken, and its record is finished. */
  ghost predicate Served(job: Job, s: State, t: State) {
    && s.queue == [job] + t.queue
    && job.id in t.store.results && t.store.results[job.id].status.Terminal()
  }

  /** The webhook calls made after one more result. */
  function Announced(notifier: bool, sent: seq<Event>, job: Job, r: JobResult): seq<Event> {
    if notifier && CallbackFor(job, r) != "" && (r.status == Completed || r.status == Failed)
    then sent + [EventFor(job, r)] else sent
  }

  /** What the record says of a job rendered with this outcome, and whose upload met this error, if any. */
  predicate Concludes(r: JobResult, job: Job, outcome: Outcome, putError: Option<string>, stopping: bool) {
    && r.url == job.url
    && (job.idempotencyKey != "" ==> r.idempotencyKey == job.idempotencyKey)
    && (job.callbackURL != "" ==> r.callbackURL == job.callbackURL)
    && (job.requestID != "" ==> r.requestID == job.requestID)
    && (outcome.Rendered? && putError.None? ==>
          r.status == Completed && r.error == "" && r.pdfKey == "pdf/" + job.id + ".pdf" && r.pdfSize == |outcome.pdf|)
    && (outcome.Rendered? && putError.Some? ==>
          r.status == Failed && r.error == putError.value && r.pdfKey == "" && r.pdfSize == 0)
    && (outcome.RenderFailed? ==>
          && r.status == Failed && r.pdfKey == "" && r.pdfSize == 0
          && r.error == if stopping && outcome.error == "context canceled" then "job interrupted by shutdown" else outcome.error)
  }

  /** The record, the document and the webhook that follow from an outcome. */
  predicate OutcomeStored(job: Job, outcome: Outcome, putError: Option<string>, stopping: bool, notifier: bool,
                          results: map<string, JobResult>, blobs: map<string, string>, before: seq<Event>, after: seq<Event>)
  {
    && job.id in results && Concludes(results[job.id], job, outcome, putError, stopping)
    && Told(notifier, before, job, results[job.id], after)
    && (outcome.Rendered? && putError.None? ==>
          var key := "pdf/" + job.id + ".pdf"; key in blobs && blobs[key] == outcome.pdf)
  }

  lemma StoredConcludes(s: Store, job: Job, outcome: Outcome, putError: Option<string>, stopping: bool, now: Time)
    ensures Concludes(Filled(s, job.id, FinalResult(stopping, job, outcome, putError), now), job, outcome, putError, stopping)
  {
  }

  /** A completed or failed job is told to its callback, if it has one and a notifier is there: once, as recorded. */
  predicate Told(notifier: bool, before: seq<Event>, job: Job, r: JobResult, after: seq<Event>) {
    var callback := if r.callbackURL == "" then job.callbackURL else r.callbackURL;
    if notifier && callback != "" && (r.status == Completed || r.status == Failed) then
      && |after| == |before| + 1 && after[..|before|] == before
      && var e := after[|before|];
         && e.callbackURL == callback && e.jobID == job.id && e.url == r.url && e.status == r.status
         && e.error == r.error && e.pdfKey == r.pdfKey && e.pdfSize == r.pdfSize && e.requestID == r.requestID
    else after == before
  }

  lemma AnnouncedIsTold(notifier: bool, sent: seq<Event>, job: Job, r: JobResult)
    ensures Told(notifier, sent, job, r, Announced(notifier, sent, job, r))
  {
  }

  // ----- the runs -----

  lemma SkipRun(c: Config, s: State, w: nat) returns (acts: seq<Action>, t: State)
    requires w in s.workers && s.workers[w].Fetched? && IsCanceled(s.store, s.workers[w].job.id)
    ensures Leads(c, s, acts, t) && t == s.(workers := s.workers[w := Returning(s.workers[w].job)])
  {
    assert Leads(c, s, [], s);
    acts, t := H.Extend(c, s, [], s, Work(w, Check));
  }

  lemma PrepareRun(c: Config, s: State, w: nat, now: Time) returns (acts: seq<Action>, t: State)
    requires w in s.workers && s.workers[w].Fetched? && !IsCanceled(s.store, s.workers[w].job.id) && now != ZERO_TIME
    ensures
      var job := s.workers[w].job;
      && Leads(c, s, acts, t)
      && t == s.(workers := s.workers[w := Rendering(job, 1)], store := SetRecord(s.store, job.id, Blank(job, Processing), now),
                 registry := s.registry[job.id := w], interrupted := s.interrupted - {w})
      && InHand(t, w, job.id)
  {
    assert Leads(c, s, [], s);
    acts, t := H.Extend(c, s, [], s, Work(w, Check));
    acts, t := H.Extend(c, s, acts, t, Work(w, Start(now)));
    acts, t := H.Extend(c, s, acts, t, Work(w, Register));
    assert t.workers == s.workers[w := Rendering(s.workers[w].job, 1)];
  }

  lemma RestRun(c: Config, s: State, acts: seq<Action>, m: State, w: nat, interrupted: bool)
    returns (acts': seq<Action>, t: State)
    requires Leads(c, s, acts, m) && w in m.workers && m.workers[w].BackingOff? && (interrupted ==> CtxDone(m, w))
    ensures
      var BackingOff(job, attempt) := m.workers[w];
      && Leads(c, s, acts', t)
      && t == m.(workers := m.workers[w := if interrupted then Rechecking(job, RenderFailed(CONTEXT_CANCELED))
                                           else Rendering(job, attempt + 1)])
  {
    acts', t := H.Extend(c, s, acts, m, Work(w, if interrupted then Interrupt else Resume));
  }

  lemma DiscardRun(c: Config, s: State, w: nat) returns (acts: seq<Action>, t: State)
    requires w in s.workers && s.workers[w].Rechecking? && IsCanceled(s.store, s.workers[w].job.id)
    ensures Leads(c, s, acts, t) && t == s.(workers := s.workers[w := Unregistering(s.workers[w].job)])
  {
    assert Leads(c, s, [], s);
    acts, t := H.Extend(c, s, [], s, Work(w, Recheck));
    acts, t := H.Extend(c, s, acts, t, Work(w, Notify));
    assert t.workers == s.workers[w := Unregistering(s.workers[w].job)];
  }

  /** Storing a final result and announcing what was stored. */
  lemma ConcludeRun(c: Config, s: State, acts: seq<Action>, m: State, w: nat, now: Time)
    returns (acts': seq<Action>, t: State)
    requires Leads(c, s, acts, m) && w in m.workers && m.workers[w].Storing? && now != ZERO_TIME
    ensures
      var Storing(job, result) := m.workers[w];
      && Leads(c, s, acts', t)
      && t == m.(workers := m.workers[w := Unregistering(job)], store := SetRecord(m.store, job.id, result, now),
                 sent := Announced(c.notifier, m.sent, job, Filled(m.store, job.id, result, now)))
  {
    acts', t := SaveRun(c, s, acts, m, w, now);
    acts', t := NotifyRun(c, s, acts', t, w);
    assert t.workers == m.workers[w := Unregistering(m.workers[w].job)];
  }

  lemma SaveRun(c: Config, s: State, acts: seq<Action>, m: State, w: nat, now: Time)
    returns (acts': seq<Action>, t: State)
    requires Leads(c, s, acts, m) && w in m.workers && m.workers[w].Storing? && now != ZERO_TIME
    ensures
      var Storing(job, result) := m.workers[w];
      && Leads(c, s, acts', t)
      && t == m.(workers := m.workers[w := Notifying(job, Filled(m.store, job.id, result, now))],
                 store := SetRecord(m.store, job.id, result, now))
  {
    acts', t := H.Extend(c, s, acts, m, Work(w, Save(now)));
  }

  lemma NotifyRun(c: Config, s: State, acts: seq<Action>, m: State, w: nat)
    returns (acts': seq<Action>, t: State)
    requires Leads(c, s, acts, m) && w in m.workers && m.workers[w].Notifying?
    ensures
      var Notifying(job, result) := m.workers[w];
      && Leads(c, s, acts', t)
      && t == m.(workers := m.workers[w := Unregistering(job)], sent := Announced(c.notifier, m.sent, job, result))
  {
    acts', t := H.Extend(c, s, acts, m, Work(w, Notify));
  }

  /** The result a worker stores after rendering. */
  function FinalResult(stopping: bool, job: Job, outcome: Outcome, putError: Option<string>): JobResult {
    match outcome
    case RenderFailed(error) => FailedResult(job, RecordedError(stopping, error))
    case Rendered(pdf) => if putError.Some? then FailedResult(job, putError.value) else CompletedResult(job, pdf)
  }

  /** The state a worker leaves behind when nothing else runs between its last check and its webhook call. */
  function FinishedState(c: Config, s: State, w: nat, putError: Option<string>, now: Time): State
    requires w in s.workers && s.workers[w].Rechecking?
  {
    var Rechecking(job, outcome) := s.workers[w];
    var moved := s.(workers := s.workers[w := Unregistering(job)]);
    if IsCanceled(s.store, job.id) then moved
    else
      var result := FinalResult(s.stopping, job, outcome, putError);
      moved.(store := SetRecord(s.store, job.id, result, now),
             blobs := if outcome.Rendered? && putError.None? then s.blobs[PDFKey(job.id) := outcome.pdf] else s.blobs,
             sent := Announced(c.notifier, s.sent, job, Filled(s.store, job.id, result, now)))
  }

  lemma FinishedKeepsConsistent(c: Config, s: State, w: nat, putError: Option<string>, now: Time)
    requires w in s.workers && s.workers[w].Rechecking? && Consistent(s.store) && now != ZERO_TIME
    ensures Consistent(FinishedState(c, s, w, putError, now).store)
  {
    SetKeepsConsistent(s.store, s.workers[w].job.id, FinalResult(s.stopping, s.workers[w].job, s.workers[w].outcome, putError), now);
  }

  /**
   What finishing is worth: a canceled record is left as it was and not announced; otherwise the status
   is Completed exactly when the document was rendered and stored, the document is there with the
   recorded size, and at most one webhook tells the stored status.
   */
  lemma FinishedIsSettled(c: Config, s: State, w: nat, putError: Option<string>, now: Time)
    requires w in s.workers && s.workers[w].Rechecking?
    ensures
      var Rechecking(job, outcome) := s.workers[w];
      var t := FinishedState(c, s, w, putError, now);
      && job.id in t.store.results && t.store.results[job.id].status.Terminal()
      && (t.store.results[job.id].status == Canceled <==> IsCanceled(s.store, job.id))
      && (IsCanceled(s.store, job.id) ==> t.store == s.store && t.sent == s.sent && t.blobs == s.blobs)
      && (t.store.results[job.id].status == Completed <==>
            !IsCanceled(s.store, job.id) && outcome.Rendered? && putError.None?)
      && (t.store.results[job.id].status == Completed ==>
            && t.store.results[job.id].pdfKey == PDFKey(job.id) && PDFKey(job.id) in t.blobs
            && t.blobs[PDFKey(job.id)] == outcome.pdf && t.store.results[job.id].pdfSize == |outcome.pdf|)
      && (t.sent == s.sent || t.sent == s.sent + [EventFor(job, t.store.results[job.id])])
  {
  }

  /**
   What processing a job comes to, from what its attempts met.  A cancel request that lands during the last
   attempt or its back-off leaves a canceled record and no webhook; otherwise the last attempt's outcome is
   recorded, the document is there, and the record is told.
   */
  ghost predicate Processed(script: seq<Attempt>, attempts: nat, stopping: bool, putError: Option<string>, notifier: bool,
                            job: Job, s: State, t: State)
    requires 1 <= attempts <= |script|
  {
    var k := LastRender(script, attempts, stopping, true);
    && job.id in t.store.results
    && var r := t.store.results[job.id];
       if Lands(script[k], attempts - 1 - k, stopping, true) then
         r.status == Canceled && r.error == "job canceled" && t.sent == s.sent && t.blobs == s.blobs
       else
         && Concludes(r, job, script[k].outcome, putError, stopping)
         && Told(notifier, s.sent, job, r, t.sent)
         && t.blobs == (if r.status == Completed then s.blobs["pdf/" + job.id + ".pdf" := script[k].outcome.pdf] else s.blobs)
  }

  /** The job's record is finished; at most one webhook was sent, telling it, and none for a canceled job. */
  ghost predicate Settled(job: Job, s: State, t: State) {
    && t.queue == s.queue && job.id in t.store.results && t.store.results[job.id].status.Terminal()
    && (t.sent == s.sent || t.sent == s.sent + [EventFor(job, t.store.results[job.id])])
    && (t.store.results[job.id].status == Canceled ==> t.sent == s.sent)
  }

  lemma Unregistered(script: seq<Attempt>, attempts: nat, stopping: bool, putError: Option<string>, notifier: bool,
                     job: Job, s: State, m: State, t: State)
    requires 1 <= attempts <= |script| && t.store == m.store && t.sent == m.sent && t.blobs == m.blobs && t.queue == m.queue
    requires Settled(job, s, m) && Processed(script, attempts, stopping, putError, notifier, job, s, m)
    ensures Settled(job, s, t) && Processed(script, attempts, stopping, putError, notifier, job, s, t)
  {
  }

  lemma FinishedAsScripted(c: Config, s: State, m: State, w: nat, job: Job, script: seq<Attempt>, attempts: nat, backoff: nat,
                           outcome: Outcome, elapsed: nat, putError: Option<string>, now: Time)
    requires w in m.workers && m.workers[w] == Rechecking(job, outcome) && 1 <= attempts <= |script|
    requires InHand(s, w, job.id) && Keeps(s, m, job.id) && Consistent(s.store)
    requires
      var k := LastRender(script, attempts, s.stopping, true);
      && RenderedUpTo(script, attempts, s.stopping, true, backoff, k, outcome, elapsed)
      && Requested(s, m, job.id, Lands(script[k], attempts - 1 - k, s.stopping, true), script[k].at)
    ensures Processed(script, attempts, s.stopping, putError, c.notifier, job, s, FinishedState(c, m, w, putError, now))
    ensures Settled(job, s, FinishedState(c, m, w, putError, now))
  {
    FinishedIsSettled(c, m, w, putError, now);
    var k := LastRender(script, attempts, s.stopping, true);
    CancelIsExact(s.store, job.id, script[k].at);
    StoredConcludes(m.store, job, outcome, putError, s.stopping, now);
    AnnouncedIsTold(c.notifier, m.sent, job, Filled(m.store, job.id, FinalResult(s.stopping, job, outcome, putError), now));
  }

  lemma StillReachable(c: Config, s: State, acts: seq<Action>, t: State)
    requires Reachable(c, s) && Leads(c, s, acts, t)
    ensures Reachable(c, t)
  {
    var init, before :| Init(init) && Leads(c, init, before, s);
    LeadsAppend(c, init, before, s, acts, t);
  }

  /** In any run of the system the record and the webhook tell the job as it was submitted. */
  lemma ProcessedAsSubmitted(c: Config, s: State, acts: seq<Action>, t: State, w: nat, job: Job)
    requires Reachable(c, s) && Leads(c, s, acts, t) && w in t.workers && t.workers[w] == Returning(job)
    requires Settled(job, s, t)
    ensures
      var r := t.store.results[job.id];
      && r.url == job.url && r.idempotencyKey == job.idempotencyKey
      && r.callbackURL == job.callbackURL && r.requestID == job.requestID
      && forall i :: |s.sent| <= i < |t.sent| ==>
           t.sent[i].jobID == job.id && t.sent[i].callbackURL == job.callbackURL
           && t.sent[i].url == job.url && t.sent[i].requestID == job.requestID
  {
    StillReachable(c, s, acts, t);
    LR.ReachableIsProper(c, t);
    assert LB.WorkerSound(t.submitters, t.blobs, t.workers[w]);
    LR.RecordDescribesJob(c, t, job);
    if |t.sent| > |s.sent| { LR.WebhookDescribesJob(c, t, |s.sent|, job); }
  }

  lemma UploadRun(c: Config, s: State, w: nat, putError: Option<string>)
    returns (acts: seq<Action>, t: State)
    requires w in s.workers && s.workers[w].Rechecking? && !IsCanceled(s.store, s.workers[w].job.id)
    ensures
      var Rechecking(job, outcome) := s.workers[w];
      && Leads(c, s, acts, t)
      && t == s.(workers := s.workers[w := Storing(job, FinalResult(s.stopping, job, outcome, putError))],
                 blobs := if outcome.Rendered? && putError.None? then s.blobs[PDFKey(job.id) := outcome.pdf] else s.blobs)
  {
    assert Leads(c, s, [], s);
    acts, t := H.Extend(c, s, [], s, Work(w, Recheck));
    if s.workers[w].outcome.Rendered? {
      acts, t := H.Extend(c, s, acts, t, Work(w, Upload(putError.None?, if putError.Some? then putError.value else "")));
      assert t.workers == s.workers[w := t.workers[w]];
    }
  }

  lemma FinishRun(c: Config, s: State, w: nat, putError: Option<string>, now: Time) returns (acts: seq<Action>, t: State)
    requires w in s.workers && s.workers[w].Rechecking? && now != ZERO_TIME
    ensures t == FinishedState(c, s, w, putError, now) && Leads(c, s, acts, t)
  {
    if IsCanceled(s.store, s.workers[w].job.id) {
      acts, t := DiscardRun(c, s, w);
    } else {
      acts, t := UploadRun(c, s, w, putError);
      acts, t := ConcludeRun(c, s, acts, t, w, now);
      assert t.workers == s.workers[w := Unregistering(s.workers[w].job)];
    }
  }

  /** The registry has the worker's cancel function under the job. */
  predicate Stops(s: State, id: string, w: nat) { id in s.registry && s.registry[id] == w }

  /** Of store and contexts, only what a cancel request for the job changes has changed, and only if one landed. */
  ghost predicate Requested(s: State, t: State, id: string, landed: bool, now: Time) {
    && t.store == (if landed then CancelRecord(s.store, id, now) else s.store)
    && t.interrupted == (if landed && id in s.registry then s.interrupted + {s.registry[id]} else s.interrupted)
  }

  /** Nothing but the cancel requests that missed the worker has happened since. */
  ghost predicate Unstopped(s: State, t: State, w: nat, id: string) {
    && Keeps(s, t, id) && CtxDone(t, w) == CtxDone(s, w)
    && (Stops(s, id, w) ==> t.store == s.store && t.interrupted == s.interrupted)
  }

  /** After a request that may have landed, the context is done if it was before or the request reached the worker. */
  lemma DoneAfter(s: State, t: State, w: nat, id: string, landed: bool, now: Time)
    requires t.stopping == s.stopping && Requested(s, t, id, landed, now)
    ensures CtxDone(t, w) <==> CtxDone(s, w) || (landed && Stops(s, id, w))
  {
  }

  lemma Missed(s: State, t: State, w: nat, id: string, landed: bool, now: Time)
    requires Keeps(s, t, id) && Requested(s, t, id, landed, now) && !(landed && Stops(s, id, w))
    ensures Unstopped(s, t, w, id)
  {
  }

  lemma StillUnstopped(s: State, m: State, t: State, w: nat, id: string)
    requires Unstopped(s, m, w, id) && Unstopped(m, t, w, id)
    ensures Unstopped(s, t, w, id)
  {
  }

  lemma RequestedSince(s: State, m: State, t: State, w: nat, id: string, a: Attempt, left: nat)
    requires Unstopped(s, m, w, id) && Stops(m, id, w) == Stops(s, id, w)
    requires Stops(m, id, w) ==> Requested(m, t, id, Lands(a, left, CtxDone(m, w), Stops(m, id, w)), a.at)
    ensures Stops(s, id, w) ==> Requested(s, t, id, Lands(a, left, CtxDone(s, w), Stops(s, id, w)), a.at)
  {
  }

  /** An attempt that another one follows. */
  predicate GoesOn(a: Attempt, done: bool, stops: bool) {
    a.outcome.RenderFailed? && !done && !(stops && (a.canceled || a.canceledWaiting))
  }

  /** The index of the last attempt made: the first that does not go on, or the last there is. */
  function LastRender(script: seq<Attempt>, attempts: nat, done: bool, stops: bool): (k: nat)
    requires 1 <= attempts <= |script|
    ensures k < attempts && forall i :: 0 <= i < k ==> GoesOn(script[i], done, stops)
    ensures k == attempts - 1 || !GoesOn(script[k], done, stops)
  {
    if attempts == 1 || !GoesOn(script[0], done, stops) then 0
    else
      assert forall i :: 0 <= i < |script| - 1 ==> script[1..][i] == script[i + 1];
      1 + LastRender(script[1..], attempts - 1, done, stops)
  }

  lemma LastRenderIs(script: seq<Attempt>, attempts: nat, done: bool, stops: bool, k: nat)
    requires 1 <= attempts <= |script| && k < attempts && forall i :: 0 <= i < k ==> GoesOn(script[i], done, stops)
    requires k == attempts - 1 || !GoesOn(script[k], done, stops)
    ensures LastRender(script, attempts, done, stops) == k
  {
  }

  /** A cancel request landed during the attempt or the back-off after it. */
  predicate Lands(a: Attempt, left: nat, done: bool, stops: bool) {
    a.canceled || CutShort(a, left, done, stops)
  }

  /** What the last attempt gives, and the time it takes. */
  predicate EndsWith(a: Attempt, left: nat, done: bool, stops: bool, outcome: Outcome, spent: nat) {
    var cut := CutShort(a, left, done, stops);
    && outcome == (if cut then RenderFailed("context canceled") else a.outcome)
    && spent == a.duration + (if cut then a.waited else 0)
  }

  /** The k-th attempt was the last; what it gave, and the time all attempts and back-offs took. */
  predicate RenderedUpTo(script: seq<Attempt>, attempts: nat, done: bool, stops: bool, backoff: nat, k: nat,
                         outcome: Outcome, elapsed: nat)
    requires k < attempts <= |script|
  {
    var cut := CutShort(script[k], attempts - 1 - k, done, stops);
    && outcome == (if cut then RenderFailed("context canceled") else script[k].outcome)
    && elapsed == Durations(script[..k + 1]) + Pauses(k, backoff) + (if cut then script[k].waited else 0)
  }

  /** So many attempts have failed, each with its full back-off. */
  ghost predicate Going(script: seq<Attempt>, count: nat, done: bool, stops: bool, backoff: nat, elapsed: nat) {
    && count <= |script| && elapsed == Durations(script[..count]) + Pauses(count, backoff)
    && forall i :: 0 <= i < count ==> GoesOn(script[i], done, stops)
  }

  lemma StillGoing(script: seq<Attempt>, count: nat, done: bool, stops: bool, backoff: nat, elapsed: nat)
    requires Going(script, count, done, stops, backoff, elapsed) && count < |script| && GoesOn(script[count], done, stops)
    ensures Going(script, count + 1, done, stops, backoff, elapsed + script[count].duration + backoff)
  {
    assert script[..count + 1][..count] == script[..count];
  }

  /** Rendering ends with this attempt: what that means for the whole script. */
  lemma Ended(script: seq<Attempt>, attempts: nat, k: nat, done: bool, stops: bool, pageTimeout: nat, backoff: nat,
              elapsed: nat, outcome: Outcome, spent: nat)
    requires k < attempts && Playable(script, attempts, pageTimeout, backoff)
    requires Going(script, k, done, stops, backoff, elapsed) && (k == attempts - 1 || !GoesOn(script[k], done, stops))
    requires EndsWith(script[k], attempts - 1 - k, done, stops, outcome, spent)
    ensures LastRender(script, attempts, done, stops) == k
    ensures RenderedUpTo(script, attempts, done, stops, backoff, k, outcome, elapsed + spent)
    ensures elapsed + spent <= RenderBudget(attempts, pageTimeout, backoff)
    ensures !done && Uncanceled(script[..attempts]) ==> FirstSuccessOrLast(script[..attempts], outcome)
    ensures k == attempts - 1 && outcome.RenderFailed? ==>
              forall i :: 0 <= i < attempts ==> script[i].outcome.RenderFailed?
  {
    LastRenderIs(script, attempts, done, stops, k);
    assert script[..k + 1][..k] == script[..k];
    WithinBudget(script, attempts, k, spent - script[k].duration, pageTimeout, backoff);
    if !done { Undisturbed(script, attempts, stops, k); }
  }

  predicate Uncanceled(script: seq<Attempt>) {
    forall i :: 0 <= i < |script| ==> !script[i].canceled && !script[i].canceledWaiting
  }

  /** The first document any attempt renders, or else the error of the last attempt. */
  predicate FirstSuccessOrLast(script: seq<Attempt>, outcome: Outcome) {
    exists k :: 0 <= k < |script| && outcome == script[k].outcome && (outcome.Rendered? || k == |script| - 1)
                && forall i :: 0 <= i < k ==> script[i].outcome.RenderFailed?
  }

  lemma Undisturbed(script: seq<Attempt>, attempts: nat, stops: bool, k: nat)
    requires k < attempts <= |script| && forall i :: 0 <= i < k ==> GoesOn(script[i], false, stops)
    requires k == attempts - 1 || !GoesOn(script[k], false, stops)
    ensures Uncanceled(script[..attempts]) ==> FirstSuccessOrLast(script[..attempts], script[k].outcome)
    ensures Uncanceled(script[..attempts]) ==> !CutShort(script[k], attempts - 1 - k, false, stops)
  {
    var played := script[..attempts];
    assert played[k] == script[k] && forall i :: 0 <= i < k ==> played[i] == script[i];
  }

  /** With attempts left after it, a failed attempt's back-off is cut short by a cancel request. */
  predicate CutShort(a: Attempt, left: nat, done: bool, stops: bool) {
    left > 0 && a.outcome.RenderFailed? && !done && stops && !a.canceled && a.canceledWaiting
  }

  /** So many full back-offs. */
  function Pauses(count: nat, backoff: nat): nat {
    if count == 0 then 0 else Pauses(count - 1, backoff) + backoff
  }

  lemma {:induction false} DurationsWithin(script: seq<Attempt>, pageTimeout: nat)
    requires forall i :: 0 <= i < |script| ==> script[i].duration <= pageTimeout
    ensures Durations(script) <= Pauses(|script|, pageTimeout)
  {
    if script != [] { DurationsWithin(script[..|script| - 1], pageTimeout); }
  }

  lemma {:induction false} PausesTotal(count: nat, backoff: nat)
    ensures Pauses(count, backoff) == count * backoff
  {
    if count > 0 {
      PausesTotal(count - 1, backoff);
      assert count * backoff == (count - 1) * backoff + backoff;
    }
  }

  lemma WithinBudget(script: seq<Attempt>, attempts: nat, k: nat, extra: nat, pageTimeout: nat, backoff: nat)
    requires k < attempts && Playable(script, attempts, pageTimeout, backoff)
    requires extra <= if k == attempts - 1 then 0 else backoff
    ensures Durations(script[..k + 1]) + Pauses(k, backoff) + extra <= RenderBudget(attempts, pageTimeout, backoff)
  {
    DurationsWithin(script[..k + 1], pageTimeout);
    PausesTotal(k + 1, pageTimeout);
    PausesTotal(k, backoff);
    Monotone(k + 1, attempts, pageTimeout);
    Monotone(k, attempts - 1, backoff);
    if k < attempts - 1 {
      PausesTotal(k + 1, backoff);
      Monotone(k + 1, attempts - 1, backoff);
    }
  }

  function Durations(script: seq<Attempt>): nat {
    if script == [] then 0 else Durations(script[..|script| - 1]) + script[|script| - 1].duration
  }

  /** A script for so many attempts, within the render limits. */
  ghost predicate Playable(script: seq<Attempt>, attempts: nat, pageTimeout: nat, backoff: nat) {
    && |script| >= attempts
    && forall i :: 0 <= i < |script| ==> script[i].duration <= pageTimeout && script[i].waited <= backoff && script[i].at != ZERO_TIME
  }

  /** The job is Processing, and only a cancel request can stop the worker on it. */
  predicate InHand(s: State, w: nat, id: string) {
    && Stops(s, id, w) && w !in s.interrupted
    && id in s.store.results && s.store.results[id].status == Processing
  }

  /** What a render leaves alone. */
  ghost predicate Keeps(s: State, t: State, id: string) {
    && t.stopping == s.stopping && t.sent == s.sent && t.blobs == s.blobs && t.queue == s.queue && t.registry == s.registry
    && (id in s.store.results ==> id in t.store.results)
  }

  /** Rendering and waiting time of so many failed attempts, each followed by a full back-off. */
  function Spent(attempts: nat, pageTimeout: nat, backoff: nat): nat {
    attempts * pageTimeout + attempts * backoff
  }

  lemma SpentGrows(attempt: nat, attempts: nat, pageTimeout: nat, backoff: nat)
    requires 1 <= attempt <= attempts
    ensures Spent(attempt, pageTimeout, backoff) == Spent(attempt - 1, pageTimeout, backoff) + pageTimeout + backoff
    ensures Spent(attempt - 1, pageTimeout, backoff) + pageTimeout <= RenderBudget(attempts, pageTimeout, backoff)
    ensures attempt < attempts ==> Spent(attempt, pageTimeout, backoff) <= RenderBudget(attempts, pageTimeout, backoff)
  {
    assert attempt * pageTimeout == (attempt - 1) * pageTimeout + pageTimeout;
    assert attempt * backoff == (attempt - 1) * backoff + backoff;
    Monotone(attempt, attempts, pageTimeout);
    Monotone(attempt - 1, attempts - 1, backoff);
    if attempt < attempts { Monotone(attempt, attempts - 1, backoff); }
  }

  lemma Monotone(a: nat, b: nat, x: nat)
    requires a <= b
    ensures a * x <= b * x
  {
  }
}
