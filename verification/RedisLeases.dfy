/**
 Leases and time: a live worker's lease is never reclaimed, and a lease that was reclaimed never comes
 back, so a late acknowledgement of it does nothing.
 */
module RedisLeases {
  import opened Jobs
  import opened WorkerPool
  import opened RedisSystem

  // ----- whole seconds -----

  /** A lease is due at every instant from its end on, and never a full second or more before its end. */
  lemma DueExactly(l: Lease, at: Time)
    ensures at >= l.until ==> Due(l, at)
    ensures at + SECOND <= l.until ==> !Due(l, at)
    ensures Due(l, at) <==> l.until < (UnixSeconds(at) + 1) * SECOND
  {
  }

  /** Once due, always due. */
  lemma DueStays(l: Lease, at: Time, later: Time)
    requires Due(l, at) && at <= later
    ensures Due(l, later)
  {
  }

  /** What a range query returned at an instant is due from then on. */
  ghost predicate BatchDue(wk: Worker, now: Time) {
    match wk
    case Ranging(at) => at <= now
    case Reclaiming(batch) => forall l :: l in batch ==> Due(l, now)
    case Relisting(_, batch) => forall l :: l in batch ==> Due(l, now)
    case _ => true
  }

  /** Every lease reclaimed, or about to be, is due. */
  ghost predicate OnlyDueReclaimed(s: State) {
    && (forall w :: w in s.workers ==> BatchDue(s.workers[w], s.now))
    && (forall l :: l in s.reclaimed ==> Due(l, s.now))
  }

  lemma StepKeepsDue(c: Config, s: State, w: nat, a: Step)
    requires StepEnabled(c, s, w, a) && OnlyDueReclaimed(s)
    ensures OnlyDueReclaimed(StepApply(c, s, w, a))
  {
    var t, wk := StepApply(c, s, w, a), s.workers[w];
    assert BatchDue(wk, s.now);
    if a.Range? {
      forall l | l in a.batch ensures Due(l, s.now) { DueStays(l, wk.at, s.now); }
    }
    assert BatchDue(t.workers[w], t.now);
  }

  lemma TickKeepsDue(s: State, d: nat)
    requires OnlyDueReclaimed(s)
    ensures OnlyDueReclaimed(s.(now := s.now + d, workers := AllOlder(s.workers, d)))
  {
  }

  lemma ActionKeepsDue(c: Config, s: State, a: Action)
    requires Enabled(c, s, a) && OnlyDueReclaimed(s)
    ensures OnlyDueReclaimed(Apply(c, s, a))
  {
    if a.Work? { StepKeepsDue(c, s, a.w, a.step); }
    if a.Tick? { TickKeepsDue(s, a.d); }
  }

  // ----- how old a delivery can be -----

  /** The most time that can have passed since the stamp of a delivery at this point of processJob. */
  function Allowance(c: Config, stage: Stage, timer: nat, other: nat): nat {
    var cycle := c.pageTimeout + c.backoff;
    match stage
    case Checking => other
    case Starting => other
    case Rendering(k) => (if k == 0 then 0 else k - 1) * cycle + timer + other
    case BackingOff(k) => (if k == 0 then 0 else k - 1) * cycle + c.pageTimeout + timer + other
    case Rechecking => RenderBudget(c.attempts, c.pageTimeout, c.backoff) + other
    case Finishing => RenderBudget(c.attempts, c.pageTimeout, c.backoff) + other
    case Settled => RenderBudget(c.attempts, c.pageTimeout, c.backoff) + other
  }

  predicate AttemptsWithin(c: Config, stage: Stage) {
    && (stage.Rendering? ==> 1 <= stage.attempt <= c.attempts)
    && (stage.BackingOff? ==> 1 <= stage.attempt < c.attempts)
  }

  predicate OnTime(c: Config, now: Time, wk: Worker) {
    match wk
    case Leasing(l, other) => InBounds(c, wk) && now + c.visibility <= l.until + other
    case Working(l, stage, timer, other) =>
      && InBounds(c, wk) && AttemptsWithin(c, stage)
      && now + c.visibility <= l.until + Allowance(c, stage, timer, other)
    case _ => true
  }

  ghost predicate AllOnTime(c: Config, s: State) {
    forall w :: w in s.workers ==> OnTime(c, s.now, s.workers[w])
  }

  /** So many attempts and back-offs fit the budget of the retry loop. */
  lemma CyclesFit(attempts: nat, k: nat, pageTimeout: nat, backoff: nat)
    requires 1 <= k <= attempts
    ensures (k - 1) * (pageTimeout + backoff) + pageTimeout <= RenderBudget(attempts, pageTimeout, backoff)
    ensures k < attempts ==> k * (pageTimeout + backoff) <= RenderBudget(attempts, pageTimeout, backoff)
    ensures k * (pageTimeout + backoff) == (k - 1) * (pageTimeout + backoff) + pageTimeout + backoff
  {
    SpentGrows(k, attempts, pageTimeout, backoff);
    assert (k - 1) * (pageTimeout + backoff) == (k - 1) * pageTimeout + (k - 1) * backoff;
    assert k * (pageTimeout + backoff) == k * pageTimeout + k * backoff;
  }

  lemma StepIsOnTime(c: Config, s: State, w: nat, a: Step)
    requires StepEnabled(c, s, w, a) && OnTime(c, s.now, s.workers[w]) && c.attempts >= 1
    ensures OnTime(c, s.now, StepNext(c, s, w, a))
  {
    var wk := s.workers[w];
    if wk.Working? && (wk.stage.Rendering? || wk.stage.BackingOff?) {
      CyclesFit(c.attempts, wk.stage.attempt, c.pageTimeout, c.backoff);
    }
    if wk.Working? && wk.stage.Checking? && c.attempts >= 1 {
      CyclesFit(c.attempts, 1, c.pageTimeout, c.backoff);
    }
  }

  lemma OlderIsOnTime(c: Config, now: Time, wk: Worker, d: nat)
    requires OnTime(c, now, wk) && InBounds(c, Older(wk, d))
    ensures OnTime(c, now + d, Older(wk, d))
  {
  }

  lemma ActionIsOnTime(c: Config, s: State, a: Action)
    requires Enabled(c, s, a) && Timely(c, s, a) && AllOnTime(c, s) && c.attempts >= 1
    ensures AllOnTime(c, Apply(c, s, a))
  {
    var t := Apply(c, s, a);
    if a.Work? { StepIsOnTime(c, s, a.w, a.step); }
    if a.Tick? {
      forall w | w in t.workers ensures OnTime(c, t.now, t.workers[w]) {
        OlderIsOnTime(c, s.now, s.workers[w], a.d);
      }
    }
  }

  // ----- a live worker keeps its lease -----

  /** The visibility timeout covers a whole delivery with a second to spare. */
  predicate Ample(c: Config) {
    c.attempts >= 1 && c.visibility >= RenderBudget(c.attempts, c.pageTimeout, c.backoff) + c.others + SECOND
  }

  lemma AllowanceFits(c: Config, stage: Stage, timer: nat, other: nat)
    requires AttemptsWithin(c, stage) && other <= c.others
    requires (stage.Rendering? ==> timer <= c.pageTimeout) && (stage.BackingOff? ==> timer <= c.backoff)
    ensures Allowance(c, stage, timer, other) <= RenderBudget(c.attempts, c.pageTimeout, c.backoff) + c.others
  {
    if stage.Rendering? || stage.BackingOff? {
      CyclesFit(c.attempts, stage.attempt, c.pageTimeout, c.backoff);
    }
  }

  /** A delivery on time is not due: its lease ends a full second or more from now. */
  lemma OnTimeIsNotDue(c: Config, now: Time, wk: Worker)
    requires Ample(c) && OnTime(c, now, wk) && HasStamp(wk)
    ensures now + SECOND <= wk.lease.until && !Due(wk.lease, now)
  {
    if wk.Working? { AllowanceFits(c, wk.stage, wk.timer, wk.other); }
    DueExactly(wk.lease, now);
  }

  /** Every delivery under way has its lease in the processing set. */
  ghost predicate AllHeld(s: State) {
    forall w :: w in s.workers && s.workers[w].Working? ==> s.workers[w].lease in s.leases
  }

  /** No two deliveries bear the same stamp, and a stamp not yet recorded is in nobody's hands. */
  ghost predicate StampsApart(s: State) {
    && (forall v, w :: v in s.workers && w in s.workers && v != w && HasStamp(s.workers[v]) && HasStamp(s.workers[w])
          ==> s.workers[v].lease != s.workers[w].lease)
    && (forall w :: w in s.workers && s.workers[w].Leasing? ==> s.workers[w].lease !in s.leases)
  }

  lemma StepKeepsStampsApart(c: Config, s: State, w: nat, a: Step)
    requires StepEnabled(c, s, w, a) && StampsApart(s) && FreshStamp(c, s, Work(w, a))
    ensures StampsApart(StepApply(c, s, w, a))
  {
    var t, wk := StepApply(c, s, w, a), s.workers[w];
    forall v | v in t.workers && t.workers[v].Leasing? ensures t.workers[v].lease !in t.leases {
      if v != w { assert t.workers[v] == s.workers[v]; }
    }
    if HasStamp(t.workers[w]) && !a.Stamp? { assert HasStamp(wk) && t.workers[w].lease == wk.lease; }
  }

  lemma ActionKeepsStampsApart(c: Config, s: State, a: Action)
    requires Enabled(c, s, a) && StampsApart(s) && FreshStamp(c, s, a)
    ensures StampsApart(Apply(c, s, a))
  {
    if a.Work? { StepKeepsStampsApart(c, s, a.w, a.step); }
    if a.Tick? {
      var t := Apply(c, s, a);
      forall w | w in t.workers
        ensures HasStamp(t.workers[w]) == HasStamp(s.workers[w])
        ensures HasStamp(s.workers[w]) ==> t.workers[w].lease == s.workers[w].lease
      {
      }
    }
  }

  lemma StepKeepsHeld(c: Config, s: State, w: nat, a: Step)
    requires StepEnabled(c, s, w, a) && Ample(c)
    requires AllHeld(s) && OnlyDueReclaimed(s) && AllOnTime(c, s) && StampsApart(s)
    ensures AllHeld(StepApply(c, s, w, a))
  {
    var t, wk := StepApply(c, s, w, a), s.workers[w];
    forall v | v in t.workers && t.workers[v].Working? ensures t.workers[v].lease in t.leases {
      if v != w {
        assert t.workers[v] == s.workers[v] && OnTime(c, s.now, s.workers[v]) && BatchDue(wk, s.now);
        OnTimeIsNotDue(c, s.now, s.workers[v]);
      }
    }
  }

  lemma ActionKeepsHeld(c: Config, s: State, a: Action)
    requires Enabled(c, s, a) && Ample(c)
    requires AllHeld(s) && OnlyDueReclaimed(s) && AllOnTime(c, s) && StampsApart(s)
    ensures AllHeld(Apply(c, s, a))
  {
    if a.Work? { StepKeepsHeld(c, s, a.w, a.step); }
  }

  /** What holds throughout a timely run. */
  ghost predicate Steady(c: Config, s: State) {
    OnlyDueReclaimed(s) && AllOnTime(c, s) && StampsApart(s) && AllHeld(s)
  }

  lemma ActionKeepsSteady(c: Config, s: State, a: Action)
    requires Ample(c) && Enabled(c, s, a) && Timely(c, s, a) && FreshStamp(c, s, a) && Steady(c, s)
    ensures Steady(c, Apply(c, s, a))
  {
    ActionKeepsDue(c, s, a);
    ActionIsOnTime(c, s, a);
    ActionKeepsStampsApart(c, s, a);
    ActionKeepsHeld(c, s, a);
  }

  lemma {:induction false} RunKeepsSteady(c: Config, p: Promises, s: State, acts: seq<Action>, t: State)
    requires Ample(c) && p.timely && p.freshStamps && Runs(c, p, s, acts, t) && Steady(c, s)
    ensures Steady(c, t)
    decreases |acts|
  {
    if acts != [] {
      ActionKeepsSteady(c, s, acts[0]);
      RunKeepsSteady(c, p, Apply(c, s, acts[0]), acts[1..], t);
    }
  }

  lemma {:induction false} RunIsOnTime(c: Config, p: Promises, s: State, acts: seq<Action>, t: State)
    requires c.attempts >= 1 && p.timely && Runs(c, p, s, acts, t) && OnlyDueReclaimed(s) && AllOnTime(c, s)
    ensures OnlyDueReclaimed(t) && AllOnTime(c, t)
    decreases |acts|
  {
    if acts != [] {
      ActionKeepsDue(c, s, acts[0]);
      ActionIsOnTime(c, s, acts[0]);
      RunIsOnTime(c, p, Apply(c, s, acts[0]), acts[1..], t);
    }
  }

  /**
   A live worker keeps its lease: with an ample visibility timeout no lease is reclaimed, or picked for
   reclaiming, between its stamp and its worker's acknowledgement.
   */
  lemma LiveLeaseIsNotReclaimed(c: Config, p: Promises, t: State, w: nat, v: nat)
    requires Ample(c) && p.timely && Reachable(c, p, t)
    requires w in t.workers && HasStamp(t.workers[w])
    ensures t.now + SECOND <= t.workers[w].lease.until
    ensures t.workers[w].lease !in t.reclaimed
    ensures v in t.workers && (t.workers[v].Reclaiming? || t.workers[v].Relisting?) ==>
              t.workers[w].lease !in t.workers[v].batch
  {
    var s, acts :| Init(s) && Runs(c, p, s, acts, t);
    RunIsOnTime(c, p, s, acts, t);
    assert OnTime(c, t.now, t.workers[w]);
    OnTimeIsNotDue(c, t.now, t.workers[w]);
    if v in t.workers { assert BatchDue(t.workers[v], t.now); }
  }

  /** With stamps apart it stays in the processing set all that time: nobody else's acknowledgement removes it. */
  lemma LiveWorkerKeepsLease(c: Config, p: Promises, t: State, w: nat)
    requires Ample(c) && p.timely && p.freshStamps && Reachable(c, p, t)
    requires w in t.workers && t.workers[w].Working?
    ensures t.workers[w].lease in t.leases
  {
    var s, acts :| Init(s) && Runs(c, p, s, acts, t);
    RunKeepsSteady(c, p, s, acts, t);
  }

  // ----- a reclaimed lease never comes back -----

  lemma {:induction false} RunKeepsDue(c: Config, p: Promises, s: State, acts: seq<Action>, t: State)
    requires Runs(c, p, s, acts, t) && OnlyDueReclaimed(s)
    ensures OnlyDueReclaimed(t)
    decreases |acts|
  {
    if acts != [] {
      ActionKeepsDue(c, s, acts[0]);
      RunKeepsDue(c, p, Apply(c, s, acts[0]), acts[1..], t);
    }
  }

  lemma StampIsLater(c: Config, s: State, w: nat, l: Lease)
    requires c.visibility >= SECOND && OnlyDueReclaimed(s) && StepEnabled(c, s, w, Stamp) && l in s.reclaimed
    ensures StepNext(c, s, w, Stamp).lease.until > l.until
  {
  }

  /** Every lease stamped after a reclaim ends strictly later than the reclaimed one, in every run. */
  lemma LaterStampsEndLater(c: Config, p: Promises, t: State, w: nat, l: Lease)
    requires c.visibility >= SECOND && Reachable(c, p, t)
    requires StepEnabled(c, t, w, Stamp) && l in t.reclaimed
    ensures StepNext(c, t, w, Stamp).lease.until > l.until
  {
    var s, acts :| Init(s) && Runs(c, p, s, acts, t);
    RunKeepsDue(c, p, s, acts, t);
    StampIsLater(c, t, w, l);
  }

  /** A reclaimed lease is in the processing set no more, and nobody is about to record it. */
  ghost predicate ReclaimedStayOut(s: State) {
    && (forall l :: l in s.reclaimed ==> l !in s.leases)
    && (forall w :: w in s.workers && s.workers[w].Leasing? ==> s.workers[w].lease !in s.reclaimed)
  }

  lemma StepKeepsReclaimedOut(c: Config, s: State, w: nat, a: Step)
    requires StepEnabled(c, s, w, a) && c.visibility >= SECOND
    requires ReclaimedStayOut(s) && OnlyDueReclaimed(s) && StampsApart(s)
    ensures ReclaimedStayOut(StepApply(c, s, w, a))
  {
    var t, wk := StepApply(c, s, w, a), s.workers[w];
    forall v | v in t.workers && t.workers[v].Leasing? ensures t.workers[v].lease !in t.reclaimed {
      if v != w {
        assert t.workers[v] == s.workers[v];
      } else if t.workers[w].lease in s.reclaimed {
        StampIsLater(c, s, w, t.workers[w].lease);
      }
    }
  }

  lemma ActionKeepsReclaimedOut(c: Config, s: State, a: Action)
    requires Enabled(c, s, a) && c.visibility >= SECOND
    requires ReclaimedStayOut(s) && OnlyDueReclaimed(s) && StampsApart(s)
    ensures ReclaimedStayOut(Apply(c, s, a))
  {
    if a.Work? { StepKeepsReclaimedOut(c, s, a.w, a.step); }
  }

  lemma {:induction false} RunKeepsReclaimedOut(c: Config, p: Promises, s: State, acts: seq<Action>, t: State)
    requires c.visibility >= SECOND && p.freshStamps && Runs(c, p, s, acts, t)
    requires ReclaimedStayOut(s) && OnlyDueReclaimed(s) && StampsApart(s)
    ensures ReclaimedStayOut(t)
    decreases |acts|
  {
    if acts != [] {
      ActionKeepsReclaimedOut(c, s, acts[0]);
      ActionKeepsDue(c, s, acts[0]);
      ActionKeepsStampsApart(c, s, acts[0]);
      RunKeepsReclaimedOut(c, p, Apply(c, s, acts[0]), acts[1..], t);
    }
  }

  /**
   While no two deliveries share a stamp, acknowledging a lease that was reclaimed meanwhile removes no
   lease and settles no message, however slow its worker was.
   */
  lemma StaleAckIsHarmless(c: Config, p: Promises, t: State, w: nat, applied: bool)
    requires c.visibility >= SECOND && p.freshStamps && Reachable(c, p, t)
    requires StepEnabled(c, t, w, Acknowledge(applied)) && t.workers[w].lease in t.reclaimed
    ensures
      var u := Apply(c, t, Work(w, Acknowledge(applied)));
      u.leases == t.leases && u.acked == t.acked && u.list == t.list && u.status == t.status
  {
    var s, acts :| Init(s) && Runs(c, p, s, acts, t);
    RunKeepsReclaimedOut(c, p, s, acts, t);
  }
}
