/** The HTTP handler's submit and cancel operations, each proved to be a run of the life cycle machine. */
module Handler {
  import opened Jobs
  import opened StoreModel
  import opened Lifecycle
  import opened MemoryBackends

  datatype SubmitRequest = SubmitRequest(url: string, idempotencyKey: string, callbackURL: string, requestID: string)

  datatype Reply =
    | Accepted202(jobID: string, idempotent: bool)
    | BadRequest(code: string)
    | QueueFull503

  class Handler {
    const backends: Backends
    const requireIdempotencyKey: bool
    const defaultWebhookURL: string

    constructor (backends: Backends, requireIdempotencyKey: bool, defaultWebhookURL: string)
      ensures this.backends == backends && this.requireIdempotencyKey == requireIdempotencyKey
      ensures this.defaultWebhookURL == defaultWebhookURL
    {
      this.backends, this.requireIdempotencyKey, this.defaultWebhookURL := backends, requireIdempotencyKey, defaultWebhookURL;
    }

    function CallbackOf(req: SubmitRequest): string {
      if req.callbackURL == "" then defaultWebhookURL else req.callbackURL
    }

    /** The URL and the callback URL, if there is one, are valid, and a key is given where one is required. */
    predicate Acceptable(req: SubmitRequest, validURL: string -> bool) {
      && validURL(req.url)
      && (requireIdempotencyKey ==> req.idempotencyKey != "")
      && (CallbackOf(req) != "" ==> validURL(CallbackOf(req)))
    }

    /**
     Reserve, write Pending, push; a full queue undoes the first two exactly.  validURL stands for the
     URL check, jobID for the fresh UUID, and the request's fields are already trimmed.
     */
    method SubmitJob(req: SubmitRequest, validURL: string -> bool, jobID: string, created: Time, now: Time,
                     ghost c: Config, ghost s: State)
      returns (reply: Reply, ghost acts: seq<Action>, ghost t: State)
      requires backends.Shows(s) && c.capacity == backends.queue.size
      requires jobID !in s.submitters && jobID !in s.store.results && created != ZERO_TIME && now != ZERO_TIME
      modifies backends.storage, backends.queue
      ensures Leads(c, s, acts, t) && backends.Shows(t)
      ensures reply.Accepted202? && !reply.idempotent ==>
                && reply.jobID == jobID && |t.queue| == |s.queue| + 1
                && var job := t.queue[|s.queue|];
                   && t.queue == s.queue + [job] && jobID in t.submitters && t.submitters[jobID] == Accepted(job)
                   && job.id == jobID && job.url == req.url && job.idempotencyKey == req.idempotencyKey
                   && job.callbackURL == (if req.callbackURL == "" then defaultWebhookURL else req.callbackURL)
                   && job.requestID == req.requestID
                   && RecordedPending(t.store, job, created, now)
      ensures reply.Accepted202? && !reply.idempotent && req.idempotencyKey != "" ==>
                req.idempotencyKey in t.store.idempotency && t.store.idempotency[req.idempotencyKey] == jobID
      ensures reply.Accepted202? && reply.idempotent ==>
                && req.idempotencyKey in s.store.idempotency && reply.jobID == s.store.idempotency[req.idempotencyKey]
      ensures reply == BadRequest("invalid_url") <==> !validURL(req.url)
      ensures reply == BadRequest("missing_idempotency_key") <==>
                validURL(req.url) && requireIdempotencyKey && req.idempotencyKey == ""
      ensures reply == BadRequest("invalid_callback_url") <==>
                && validURL(req.url) && (requireIdempotencyKey ==> req.idempotencyKey != "")
                && var callback := if req.callbackURL == "" then defaultWebhookURL else req.callbackURL;
                   callback != "" && !validURL(callback)
      ensures reply.BadRequest? <==> !Acceptable(req, validURL)
      ensures reply.BadRequest? ==> t == s
      ensures reply.QueueFull503? <==>
                && Acceptable(req, validURL) && |s.queue| >= c.capacity
                && (req.idempotencyKey == "" || req.idempotencyKey !in s.store.idempotency)
      ensures !reply.Accepted202? || reply.idempotent ==> t.store == s.store && t.queue == s.queue
    {
      acts, t := [], s;
      if !validURL(req.url) { return BadRequest("invalid_url"), acts, t; }
      if requireIdempotencyKey && req.idempotencyKey == "" {
        return BadRequest("missing_idempotency_key"), acts, t;
      }
      var callbackURL := CallbackOf(req);
      if callbackURL != "" && !validURL(callbackURL) { return BadRequest("invalid_callback_url"), acts, t; }

      var job := Job(jobID, req.url, req.idempotencyKey, callbackURL, req.requestID, NoMessage, ZERO_TIME);
      reply, acts, t := Enqueue(job, created, now, c, s);
    }

    method Enqueue(job: Job, created: Time, now: Time, ghost c: Config, ghost s: State)
      returns (reply: Reply, ghost acts: seq<Action>, ghost t: State)
      requires backends.Shows(s) && c.capacity == backends.queue.size
      requires job.id !in s.submitters && job.id !in s.store.results && created != ZERO_TIME && now != ZERO_TIME
      modifies backends.storage, backends.queue
      ensures Leads(c, s, acts, t) && backends.Shows(t) && acts != []
      ensures !reply.BadRequest?
      ensures reply.Accepted202? && !reply.idempotent ==> reply.jobID == job.id && TakenIn(s, t, job, created, now)
      ensures reply.Accepted202? && reply.idempotent ==>
                && job.idempotencyKey in s.store.idempotency && reply.jobID == s.store.idempotency[job.idempotencyKey]
      ensures reply.QueueFull503? <==>
                && |s.queue| >= c.capacity
                && (job.idempotencyKey == "" || job.idempotencyKey !in s.store.idempotency)
      ensures !reply.Accepted202? || reply.idempotent ==> t.store == s.store && t.queue == s.queue
    {
      var holder, reserved := backends.storage.ReserveIdempotencyKey(job.idempotencyKey, job.id);
      if !reserved {
        acts, t := DuplicateRun(c, s, job);
        return Accepted202(holder, true), acts, t;
      }
      reply, acts, t := Commit(job, created, now, c, s);
    }

    /** The submission after its key is reserved. */
    method Commit(job: Job, created: Time, now: Time, ghost c: Config, ghost s: State)
      returns (reply: Reply, ghost acts: seq<Action>, ghost t: State)
      requires backends.Shows(s.(store := ReserveKey(s.store, job.idempotencyKey, job.id))) && Consistent(s.store)
      requires job.idempotencyKey == "" || job.idempotencyKey !in s.store.idempotency
      requires job.id !in s.submitters && job.id !in s.store.results && created != ZERO_TIME && now != ZERO_TIME
      requires c.capacity == backends.queue.size
      modifies backends.storage, backends.queue
      ensures Leads(c, s, acts, t) && backends.Shows(t) && acts != []
      ensures reply == if |s.queue| < c.capacity then Accepted202(job.id, false) else QueueFull503
      ensures reply.Accepted202? ==> TakenIn(s, t, job, created, now)
      ensures reply.QueueFull503? ==> t.store == s.store && t.queue == s.queue
    {
      var pushed := Place(job, created, now);
      if pushed {
        acts, t := AcceptedRun(c, s, job, created, now);
        PlacedIsTaken(s, t, job, created, now);
        reply := Accepted202(job.id, false);
      } else {
        RollbackIsExact(s.store, job.id, PendingRecord(job, created), now);
        acts, t := RolledBackRun(c, s, job, created, now);
        reply := QueueFull503;
      }
    }

    /** Writes the Pending record and pushes; a failed push deletes the record again. */
    method Place(job: Job, created: Time, now: Time) returns (pushed: bool)
      requires backends.storage.Valid() && now != ZERO_TIME
      modifies backends.storage, backends.queue
      ensures backends.storage.Valid() && (pushed <==> |old(backends.queue.jobs)| < backends.queue.size)
      ensures backends.queue.jobs == old(backends.queue.jobs) + if pushed then [job] else []
      ensures backends.storage.View() ==
              var written := SetRecord(old(backends.storage.View()), job.id, PendingRecord(job, created), now);
              if pushed then written else DeleteRecord(written, job.id)
    {
      var stored := backends.storage.Set(job.id, PendingRecord(job, created), now);
      pushed := backends.queue.Push(job);
      if !pushed {
        backends.storage.Delete(job.id);
      }
    }

    /** Storage first, then the registry: two calls, of which the first reads and then writes. */
    method CancelJob(jobID: string, now: Time, ghost c: Config, ghost s: State)
      returns (result: Option<JobResult>, ghost acts: seq<Action>, ghost t: State)
      requires backends.Shows(s) && now != ZERO_TIME
      modifies backends.storage, backends.cancels
      ensures Leads(c, s, acts, t) && backends.Shows(t)
      ensures t == s.(store := CancelRecord(s.store, jobID, now), cancelers := t.cancelers, interrupted := t.interrupted)
      ensures t.interrupted == if jobID in s.registry then s.interrupted + {s.registry[jobID]} else s.interrupted
      ensures result == Lookup(t.store, jobID)
      ensures jobID in s.store.results && (s.store.results[jobID].status == Pending || s.store.results[jobID].status == Processing) ==>
                result == Some(s.store.results[jobID].(status := Canceled, error := "job canceled", updatedAt := now))
      ensures jobID in s.store.results && s.store.results[jobID].status != Pending && s.store.results[jobID].status != Processing ==>
                result == Some(s.store.results[jobID])
    {
      result := backends.storage.Cancel(jobID, now);
      var found := backends.cancels.Cancel(jobID);
      acts, t := CancelRun(c, s, jobID, now);
    }
  }

  // ----- the runs -----

  function PendingRecord(job: Job, created: Time): JobResult {
    Blank(job, Pending).(createdAt := created, updatedAt := created)
  }

  /** The job's record is Pending, dated, and tells the job. */
  predicate RecordedPending(s: Store, job: Job, created: Time, now: Time) {
    && job.id in s.results
    && var r := s.results[job.id];
       && r.status == Pending && r.createdAt == created && r.updatedAt == now
       && r.url == job.url && r.idempotencyKey == job.idempotencyKey && r.callbackURL == job.callbackURL
       && r.requestID == job.requestID
       && r.error == "" && r.pdfKey == "" && r.pdfSize == 0 && r.inlinePDF == ""
  }

  /** The job was accepted, is last in the queue, is recorded as Pending, and holds its key. */
  predicate TakenIn(s: State, t: State, job: Job, created: Time, now: Time) {
    && job.id in t.submitters && t.submitters[job.id] == Accepted(job) && t.queue == s.queue + [job]
    && RecordedPending(t.store, job, created, now)
    && (job.idempotencyKey != "" ==>
          job.idempotencyKey in t.store.idempotency && t.store.idempotency[job.idempotencyKey] == job.id)
  }

  lemma PlacedIsTaken(s: State, t: State, job: Job, created: Time, now: Time)
    requires job.id !in s.store.results && created != ZERO_TIME
    requires job.idempotencyKey == "" || job.idempotencyKey !in s.store.idempotency
    requires t.submitters == s.submitters[job.id := Accepted(job)] && t.queue == s.queue + [job]
    requires t.store == SetRecord(ReserveKey(s.store, job.idempotencyKey, job.id), job.id, PendingRecord(job, created), now)
    ensures TakenIn(s, t, job, created, now)
  {
    PendingIsRecorded(ReserveKey(s.store, job.idempotencyKey, job.id), job, created, now);
  }

  lemma PendingIsRecorded(s: Store, job: Job, created: Time, now: Time)
    requires job.id !in s.results && created != ZERO_TIME
    ensures RecordedPending(SetRecord(s, job.id, PendingRecord(job, created), now), job, created, now)
  {
  }

  /** Extends a run by one enabled action. */
  lemma Extend(c: Config, s: State, acts: seq<Action>, m: State, a: Action) returns (acts': seq<Action>, t: State)
    requires Leads(c, s, acts, m) && Enabled(c, m, a)
    ensures acts' == acts + [a] && t == Apply(c, m, a) && Leads(c, s, acts', t)
  {
    LeadsOneMore(c, s, acts, m, a);
    acts', t := acts + [a], Apply(c, m, a);
  }

  lemma ReserveRun(c: Config, s: State, job: Job) returns (acts: seq<Action>, t: State)
    requires job.id !in s.submitters
    ensures Leads(c, s, acts, t) && acts != []
    ensures t == s.(submitters := t.submitters, store := ReserveKey(s.store, job.idempotencyKey, job.id))
    ensures t.submitters == s.submitters[job.id :=
              if job.idempotencyKey != "" && job.idempotencyKey in s.store.idempotency
              then Duplicate(job, s.store.idempotency[job.idempotencyKey]) else Initializing(job)]
  {
    assert Leads(c, s, [], s);
    acts, t := Extend(c, s, [], s, Submit(job.id, Begin(job)));
    acts, t := Extend(c, s, acts, t, Submit(job.id, Reserve));
    assert t.submitters == s.submitters[job.id := t.submitters[job.id]];
  }

  lemma DuplicateRun(c: Config, s: State, job: Job) returns (acts: seq<Action>, t: State)
    requires job.id !in s.submitters && job.idempotencyKey != "" && job.idempotencyKey in s.store.idempotency
    ensures Leads(c, s, acts, t) && acts != [] && t == s.(submitters := t.submitters)
  {
    acts, t := ReserveRun(c, s, job);
  }

  lemma PendingRun(c: Config, s: State, job: Job, created: Time, now: Time) returns (acts: seq<Action>, t: State)
    requires job.id !in s.submitters && created != ZERO_TIME && now != ZERO_TIME
    requires job.idempotencyKey == "" || job.idempotencyKey !in s.store.idempotency
    ensures Leads(c, s, acts, t) && acts != [] && t.submitters == s.submitters[job.id := Pushing(job)]
    ensures t == s.(submitters := t.submitters,
                    store := SetRecord(ReserveKey(s.store, job.idempotencyKey, job.id), job.id, PendingRecord(job, created), now))
  {
    acts, t := ReserveRun(c, s, job);
    acts, t := Extend(c, s, acts, t, Submit(job.id, Initialize(created, now)));
  }

  lemma AcceptedRun(c: Config, s: State, job: Job, created: Time, now: Time) returns (acts: seq<Action>, t: State)
    requires job.id !in s.submitters && created != ZERO_TIME && now != ZERO_TIME && |s.queue| < c.capacity
    requires job.idempotencyKey == "" || job.idempotencyKey !in s.store.idempotency
    ensures Leads(c, s, acts, t) && acts != [] && t.submitters == s.submitters[job.id := Accepted(job)]
    ensures t == s.(submitters := t.submitters, queue := s.queue + [job],
                    store := SetRecord(ReserveKey(s.store, job.idempotencyKey, job.id), job.id, PendingRecord(job, created), now))
  {
    acts, t := PendingRun(c, s, job, created, now);
    acts, t := Extend(c, s, acts, t, Submit(job.id, Push));
  }

  lemma RolledBackRun(c: Config, s: State, job: Job, created: Time, now: Time) returns (acts: seq<Action>, t: State)
    requires job.id !in s.submitters && created != ZERO_TIME && now != ZERO_TIME && |s.queue| >= c.capacity
    requires job.idempotencyKey == "" || job.idempotencyKey !in s.store.idempotency
    ensures Leads(c, s, acts, t) && acts != []
    ensures t == s.(submitters := t.submitters,
                    store := DeleteRecord(SetRecord(ReserveKey(s.store, job.idempotencyKey, job.id), job.id,
                                                    PendingRecord(job, created), now), job.id))
  {
    acts, t := PendingRun(c, s, job, created, now);
    acts, t := Extend(c, s, acts, t, Submit(job.id, Push));
    acts, t := Extend(c, s, acts, t, Submit(job.id, Rollback));
  }

  lemma CancelReadRun(c: Config, s: State, k: nat, id: string) returns (acts: seq<Action>, t: State)
    requires k !in s.cancelers
    ensures Leads(c, s, acts, t) && t == s.(cancelers := t.cancelers) && k in t.cancelers
    ensures t.cancelers[k] == if id in s.store.results && !s.store.results[id].status.Terminal()
                              then Writing(id, s.store.results[id]) else Signaling(id)
  {
    assert Leads(c, s, [], s);
    acts, t := Extend(c, s, [], s, Cancel(k, Request(id)));
    acts, t := Extend(c, s, acts, t, Cancel(k, Read));
  }

  lemma CancelWriteRun(c: Config, s: State, k: nat, id: string, now: Time) returns (acts: seq<Action>, t: State)
    requires k !in s.cancelers && now != ZERO_TIME
    ensures Leads(c, s, acts, t) && k in t.cancelers && t.cancelers[k] == Signaling(id)
    ensures t == s.(cancelers := t.cancelers, store := CancelRecord(s.store, id, now))
  {
    acts, t := CancelReadRun(c, s, k, id);
    if t.cancelers[k].Writing? {
      acts, t := Extend(c, s, acts, t, Cancel(k, Write(now)));
    }
  }

  lemma CancelRun(c: Config, s: State, id: string, now: Time) returns (acts: seq<Action>, t: State)
    requires now != ZERO_TIME
    ensures Leads(c, s, acts, t)
    ensures t == s.(store := CancelRecord(s.store, id, now), cancelers := t.cancelers,
                    interrupted := if id in s.registry then s.interrupted + {s.registry[id]} else s.interrupted)
  {
    var k := FreshNat(s.cancelers.Keys);
    acts, t := CancelWriteRun(c, s, k, id, now);
    acts, t := Extend(c, s, acts, t, Cancel(k, Signal));
  }
}
