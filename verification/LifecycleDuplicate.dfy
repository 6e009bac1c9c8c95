/** What a duplicate reply is worth: the job it names is safe from rejection exactly when already accepted. */
module LifecycleDuplicate {
  import opened Jobs
  import opened StoreModel
  import opened Lifecycle
  import opened LifecycleBase
  import opened MemoryBackends
  import H = Handler

  /** Every reserved key is held by a submission on its way, or accepted, with that key. */
  ghost predicate KeysHeld(subs: map<string, Submitter>, reserved: map<string, string>) {
    forall key :: key in reserved ==>
      && key != "" && reserved[key] in subs && OwnsKey(subs[reserved[key]]) && subs[reserved[key]].job.idempotencyKey == key
  }

  /** The named submission has reserved its key at some time. */
  predicate HasReserved(sub: Submitter) { OwnsKey(sub) || sub.Rejected? }

  /** A duplicate names a submission with its own key that reserved it first. */
  ghost predicate DuplicatesNamed(subs: map<string, Submitter>) {
    forall id :: id in subs && subs[id].Duplicate? ==>
      && subs[id].holder in subs && HasReserved(subs[subs[id].holder])
      && subs[subs[id].holder].job.idempotencyKey == subs[id].job.idempotencyKey
  }

  ghost predicate Tracked(s: State) {
    KeysHeld(s.submitters, s.store.idempotency) && DuplicatesNamed(s.submitters)
  }

  lemma SubmitKeepsTracked(c: Config, s: State, id: string, a: SubmitStep)
    requires Base(s) && Tracked(s) && SubmitEnabled(c, s, id, a)
    ensures Tracked(SubmitApply(c, s, id, a))
  {
    if a.Rollback? {
      RollbackKeepsHeld(s, id, SubmitNext(c, s, id, a));
    } else if a.Reserve? {
      ReserveKeepsHeld(c, s, id);
    } else {
      SubmitKeepsKeys(c, s, id, a);
      if id in s.submitters && OwnsKey(s.submitters[id]) { SubmitKeepsOwner(c, s, id, a); }
      AdvanceKeepsHeld(s.submitters, s.store.idempotency, id, SubmitNext(c, s, id, a));
    }
    SubmitterKeepsDuplicates(c, s, id, a);
  }

  lemma SubmitKeepsKeys(c: Config, s: State, id: string, a: SubmitStep)
    requires SubmitEnabled(c, s, id, a) && !a.Rollback? && !a.Reserve?
    ensures SubmitApply(c, s, id, a).store.idempotency == s.store.idempotency
    ensures SubmitApply(c, s, id, a).submitters == s.submitters[id := SubmitNext(c, s, id, a)]
  {
  }

  lemma SubmitKeepsOwner(c: Config, s: State, id: string, a: SubmitStep)
    requires SubmitEnabled(c, s, id, a) && !a.Rollback? && id in s.submitters && OwnsKey(s.submitters[id])
    ensures OwnsKey(SubmitNext(c, s, id, a)) && SubmitNext(c, s, id, a).job == s.submitters[id].job
  {
  }

  lemma AdvanceKeepsHeld(subs: map<string, Submitter>, reserved: map<string, string>, id: string, next: Submitter)
    requires KeysHeld(subs, reserved)
    requires id in subs && OwnsKey(subs[id]) ==> OwnsKey(next) && next.job == subs[id].job
    ensures KeysHeld(subs[id := next], reserved)
  {
  }

  lemma ReserveKeepsHeld(c: Config, s: State, id: string)
    requires KeysHeld(s.submitters, s.store.idempotency) && SubmitEnabled(c, s, id, Reserve)
    ensures KeysHeld(s.submitters[id := SubmitNext(c, s, id, Reserve)],
                     ReserveKey(s.store, s.submitters[id].job.idempotencyKey, id).idempotency)
  {
  }

  lemma RollbackKeepsHeld(s: State, id: string, next: Submitter)
    requires Base(s) && KeysHeld(s.submitters, s.store.idempotency)
    requires id in s.submitters && s.submitters[id].RollingBack?
    ensures KeysHeld(s.submitters[id := next], DeleteRecord(s.store, id).idempotency)
  {
    assert RecordBelongs(s.submitters, id, s.store.results[id]);
  }

  lemma SubmitterKeepsDuplicates(c: Config, s: State, id: string, a: SubmitStep)
    requires Tracked(s) && SubmitEnabled(c, s, id, a)
    ensures DuplicatesNamed(s.submitters[id := SubmitNext(c, s, id, a)])
  {
    var subs := s.submitters[id := SubmitNext(c, s, id, a)];
    forall i | i in subs && subs[i].Duplicate?
      ensures subs[i].holder in subs && HasReserved(subs[subs[i].holder])
      ensures subs[subs[i].holder].job.idempotencyKey == subs[i].job.idempotencyKey
    {
      if i != id { assert subs[i] == s.submitters[i]; }
    }
  }

  lemma StepKeepsTracked(c: Config, s: State, a: Action)
    requires Base(s) && Tracked(s) && Enabled(c, s, a)
    ensures Tracked(Apply(c, s, a))
  {
    match a
    case Submit(id, step) => SubmitKeepsTracked(c, s, id, step);
    case Cancel(k, step) => CancelKeepsKeys(s, k, step);
    case Work(w, step) => WorkKeepsKeys(c, s, w, step);
    case Shutdown =>
    case Redeliver(_) =>
  }

  lemma WorkKeepsKeys(c: Config, s: State, w: nat, a: WorkStep)
    requires WorkEnabled(s, w, a)
    ensures WorkApply(c, s, w, a).submitters == s.submitters
    ensures WorkApply(c, s, w, a).store.idempotency == s.store.idempotency
  {
  }

  lemma CancelKeepsKeys(s: State, k: nat, a: CancelStep)
    requires CancelEnabled(s, k, a)
    ensures CancelApply(s, k, a).submitters == s.submitters
    ensures CancelApply(s, k, a).store.idempotency == s.store.idempotency
  {
  }

  lemma {:induction false} RunKeepsTracked(c: Config, s: State, acts: seq<Action>, t: State)
    requires Base(s) && Tracked(s) && Leads(c, s, acts, t)
    ensures Tracked(t)
    decreases |acts|
  {
    if acts != [] {
      StepKeepsTracked(c, s, acts[0]);
      StepKeepsBase(c, s, acts[0]);
      RunKeepsTracked(c, Apply(c, s, acts[0]), acts[1..], t);
    }
  }

  // ----- a run that rejects the named job -----

  lemma FreshID(taken: set<string>) returns (id: string)
    ensures id !in taken
  {
    var lengths := set x | x in taken :: |x|;
    var n := FreshNat(lengths);
    id := seq(n, _ => 'x');
    assert id in taken ==> |id| in lengths;
  }

  /** Other submissions, without keys, fill the queue. */
  lemma {:induction false} FillQueue(c: Config, s: State) returns (acts: seq<Action>, t: State)
    ensures Leads(c, s, acts, t) && |t.queue| >= c.capacity
    ensures forall id :: id in s.submitters ==> id in t.submitters && t.submitters[id] == s.submitters[id]
    decreases c.capacity - |s.queue|
  {
    if |s.queue| >= c.capacity {
      acts, t := [], s;
    } else {
      var id := FreshID(s.submitters.Keys);
      var job := Job(id, "", "", "", "", NoMessage, ZERO_TIME);
      var first, m := H.AcceptedRun(c, s, job, 1, 1);
      var rest;
      rest, t := FillQueue(c, m);
      LeadsAppend(c, s, first, m, rest, t);
      acts := first + rest;
    }
  }

  /** A submission that is still pushing is turned away by a full queue. */
  lemma RejectionRun(c: Config, s: State, h: string) returns (acts: seq<Action>, t: State)
    requires h in s.submitters && s.submitters[h].Pushing?
    ensures Leads(c, s, acts, t) && h in t.submitters && t.submitters[h].Rejected?
  {
    acts, t := FillQueue(c, s);
    acts, t := H.Extend(c, s, acts, t, Submit(h, Push));
    acts, t := H.Extend(c, s, acts, t, Submit(h, Rollback));
  }

  lemma CanBeRejected(c: Config, s: State, h: string) returns (acts: seq<Action>, t: State)
    requires h in s.submitters && HasReserved(s.submitters[h]) && !s.submitters[h].Accepted?
    ensures Leads(c, s, acts, t) && h in t.submitters && t.submitters[h].Rejected?
  {
    acts, t := [], s;
    assert Leads(c, s, [], s);
    if s.submitters[h].RollingBack? {
      acts, t := H.Extend(c, s, acts, t, Submit(h, Rollback));
    } else if s.submitters[h].Initializing? {
      acts, t := H.Extend(c, s, acts, t, Submit(h, Initialize(1, 1)));
      var more, u := RejectionRun(c, t, h);
      LeadsAppend(c, s, acts, t, more, u);
      acts, t := acts + more, u;
    } else if s.submitters[h].Pushing? {
      acts, t := RejectionRun(c, s, h);
    }
  }

  ghost predicate NeverRejected(c: Config, s: State, h: string) {
    forall acts, t :: Leads(c, s, acts, t) ==> h in t.submitters && !t.submitters[h].Rejected?
  }

  /**
   A duplicate reply names a submission with the same key; that one is never rejected, whatever follows,
   exactly when it is accepted already.
   */
  lemma DuplicateIsSafeIff(c: Config, s: State, id: string)
    requires Reachable(c, s) && id in s.submitters && s.submitters[id].Duplicate?
    ensures
      var h := s.submitters[id].holder;
      && h in s.submitters && s.submitters[h].job.idempotencyKey == s.submitters[id].job.idempotencyKey
      && (NeverRejected(c, s, h) <==> s.submitters[h].Accepted?)
  {
    var h := s.submitters[id].holder;
    var init, acts :| Init(init) && Leads(c, init, acts, s);
    ReachableIsBase(c, init) by { assert Leads(c, init, [], init); }
    RunKeepsTracked(c, init, acts, s);
    if s.submitters[h].Accepted? {
      ReachableIsBase(c, s);
      forall more, t | Leads(c, s, more, t) ensures h in t.submitters && !t.submitters[h].Rejected? {
        RunKeepsAccepted(c, s, more, t, s.submitters[h].job);
      }
    } else {
      var more, t := CanBeRejected(c, s, h);
    }
  }
}
