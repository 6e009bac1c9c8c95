/**
 What exactly a run must promise, and how long the visibility timeout must be: for no live lease to be
 reclaimed, for no late acknowledgement to remove a lease others rely on, and for no job to get stuck.
 */
module RedisExact {
  import opened Jobs
  import opened WorkerPool
  import opened RedisSystem
  import opened RedisLeases
  import opened RedisProgress
  import opened RedisFailures
  import opened RedisCopies

  // ----- no live lease is reclaimed -----

  /** The lease was not reclaimed, and no worker has it in the batch it is working off. */
  ghost predicate LeftAlone(s: State, l: Lease) {
    && l !in s.reclaimed
    && forall v :: v in s.workers && (s.workers[v].Reclaiming? || s.workers[v].Relisting?) ==> l !in s.workers[v].batch
  }

  /** In every reachable state every live worker's lease is left alone. */
  ghost predicate LiveLeasesLeftAlone(c: Config, p: Promises) {
    forall s, w :: Reachable(c, p, s) && w in s.workers && HasStamp(s.workers[w]) ==> LeftAlone(s, s.workers[w].lease)
  }

  ghost predicate Reached(c: Config, l: Lease, now: Time, wk: Worker, status: JobStatus) {
    Reachable(c, CAREFUL, OnJob(l, now, wk, status))
  }

  lemma TimePasses(c: Config, l: Lease, now: Time, wk: Worker, status: JobStatus, d: nat)
    requires Reached(c, l, now, wk, status) && InBounds(c, Older(wk, d))
    ensures Reached(c, l, now + d, Older(wk, d), status)
  {
    var t := TickRun(c, CAREFUL, OnJob(l, now, wk, status), d);
    assert t.workers == map[0 := Older(wk, d), 1 := Idle];
  }

  /** An attempt that fails after all the time it may take, with attempts left. */
  lemma AttemptFails(c: Config, l: Lease, now: Time, k: nat, other: nat)
    requires 1 <= k < c.attempts && other <= c.others
    requires Reached(c, l, now, Working(l, Rendering(k), 0, other), Processing)
    ensures Reached(c, l, now + c.pageTimeout, Working(l, BackingOff(k), 0, other), Processing)
  {
    TimePasses(c, l, now, Working(l, Rendering(k), 0, other), Processing, c.pageTimeout);
    var s := OnJob(l, now + c.pageTimeout, Working(l, Rendering(k), c.pageTimeout, other), Processing);
    var t := Plain(c, CAREFUL, s, 0, Render(true));
    assert t.workers == map[0 := Working(l, BackingOff(k), 0, other), 1 := Idle];
  }

  /** A full back-off and the start of the next attempt. */
  lemma BackOffEnds(c: Config, l: Lease, now: Time, k: nat, other: nat)
    requires other <= c.others && Reached(c, l, now, Working(l, BackingOff(k), 0, other), Processing)
    ensures Reached(c, l, now + c.backoff, Working(l, Rendering(k + 1), 0, other), Processing)
  {
    TimePasses(c, l, now, Working(l, BackingOff(k), 0, other), Processing, c.backoff);
    var s := OnJob(l, now + c.backoff, Working(l, BackingOff(k), c.backoff, other), Processing);
    var t := Plain(c, CAREFUL, s, 0, Resume(false));
    assert t.workers == map[0 := Working(l, Rendering(k + 1), 0, other), 1 := Idle];
  }

  /** All attempts left, up to the end of the last. */
  lemma {:induction false} AllAttempts(c: Config, l: Lease, now: Time, k: nat, other: nat)
    requires 1 <= k <= c.attempts && other <= c.others
    requires Reached(c, l, now, Working(l, Rendering(k), 0, other), Processing)
    ensures Reached(c, l, now + (c.attempts - k) * (c.pageTimeout + c.backoff) + c.pageTimeout,
                    Working(l, Rendering(c.attempts), c.pageTimeout, other), Processing)
    decreases c.attempts - k
  {
    if k == c.attempts {
      TimePasses(c, l, now, Working(l, Rendering(k), 0, other), Processing, c.pageTimeout);
    } else {
      AttemptFails(c, l, now, k, other);
      BackOffEnds(c, l, now + c.pageTimeout, k, other);
      AllAttempts(c, l, now + c.pageTimeout + c.backoff, k + 1, other);
      assert (c.attempts - k) * (c.pageTimeout + c.backoff)
          == (c.attempts - (k + 1)) * (c.pageTimeout + c.backoff) + (c.pageTimeout + c.backoff);
    }
  }

  /** The longest a delivery can take within all bounds. */
  function Longest(c: Config): nat { RenderBudget(c.attempts, c.pageTimeout, c.backoff) + c.others }

  /** A delivery stamped at any chosen instant, about to render, having spent all its time for other calls. */
  lemma StampedAt(c: Config, at: Time, job: string) returns (l: Lease)
    ensures l == Lease(Message(0, job), at + c.visibility)
    ensures Reached(c, l, at + c.others, Working(l, Rendering(1), 0, c.others), Processing)
  {
    var m := Message(0, job);
    l := Lease(m, at + c.visibility);
    var start := LeasedAt(c, CAREFUL, at, job);
    TimePasses(c, l, at, Working(l, Starting, 0, 0), Pending, c.others);
    var s := OnJob(l, at + c.others, Working(l, Starting, 0, c.others), Pending);
    var t := Plain(c, CAREFUL, s, 0, Start(true));
    assert t.workers == map[0 := Working(l, Rendering(1), 0, c.others), 1 := Idle];
    assert t.status == map[job := Processing];
  }

  /** With a shorter timeout a worker that keeps every bound can have its lease picked for reclaiming. */
  lemma ShortTimeoutIsTooShort(c: Config, job: string) returns (s: State)
    requires c.attempts >= 1 && !Ample(c)
    ensures Reachable(c, CAREFUL, s) && {0, 1} <= s.workers.Keys
    ensures s.workers[0].Working? && s.workers[1] == Reclaiming([s.workers[0].lease])
  {
    var at := WholeSecondAfter(Longest(c));
    var l := StampedAt(c, at, job);
    AllAttempts(c, l, at + c.others, 1, c.others);
    var cycle := c.pageTimeout + c.backoff;
    assert (c.attempts - 1) * cycle == (c.attempts - 1) * c.pageTimeout + (c.attempts - 1) * c.backoff;
    assert c.attempts * c.pageTimeout == (c.attempts - 1) * c.pageTimeout + c.pageTimeout;
    var now := at + Longest(c);
    s := OnJob(l, now, Working(l, Rendering(c.attempts), c.pageTimeout, c.others), Processing);
    DueOnTheSecond(l, now);
    s := PickRun(c, CAREFUL, s, 1, l);
  }

  /** Nor can any timeout protect a worker that keeps no bounds. */
  lemma SlowLeaseIsPicked(c: Config, p: Promises, job: string) returns (s: State)
    requires !p.timely
    ensures Reachable(c, p, s) && {0, 1} <= s.workers.Keys
    ensures s.workers[0].Working? && s.workers[1] == Reclaiming([s.workers[0].lease])
  {
    var l;
    s, l := AsleepUntilDue(c, p, job, c.visibility);
    s := PickRun(c, p, s, 1, l);
  }

  lemma LiveLeasePicked(c: Config, p: Promises, job: string) returns (s: State)
    requires c.attempts >= 1 && !(p.timely && Ample(c))
    ensures Reachable(c, p, s) && {0, 1} <= s.workers.Keys
    ensures s.workers[0].Working? && s.workers[1] == Reclaiming([s.workers[0].lease])
  {
    if p.timely {
      s := ShortTimeoutIsTooShort(c, job);
      ReachablePromisesLess(c, p, CAREFUL, s);
    } else {
      s := SlowLeaseIsPicked(c, p, job);
    }
  }

  /**
   A live worker keeps its lease, in every reachable state, exactly when workers keep to their bounds and
   the visibility timeout is at least the render budget, the time of the other calls and one more second.
   */
  lemma LiveLeasesLeftAloneIff(c: Config, p: Promises)
    requires c.attempts >= 1
    ensures LiveLeasesLeftAlone(c, p) <==> p.timely && Ample(c)
  {
    if p.timely && Ample(c) {
      forall s, w | Reachable(c, p, s) && w in s.workers && HasStamp(s.workers[w])
        ensures LeftAlone(s, s.workers[w].lease)
      {
        forall v | v in s.workers && (s.workers[v].Reclaiming? || s.workers[v].Relisting?)
          ensures s.workers[w].lease !in s.workers[v].batch
        {
          LiveLeaseIsNotReclaimed(c, p, s, w, v);
        }
        LiveLeaseIsNotReclaimed(c, p, s, w, w);
      }
    } else {
      var s := LiveLeasePicked(c, p, "job");
      assert s.workers[1].batch[0] == s.workers[0].lease;
      assert !LeftAlone(s, s.workers[0].lease);
    }
  }

  // ----- stamps -----

  /** No two deliveries share a stamp, by promise or because no message has two copies. */
  predicate StampsDiffer(p: Promises) { p.freshStamps || (p.apart && p.confirmed) }

  lemma DifferingStamps(c: Config, p: Promises, s: State)
    requires StampsDiffer(p) && c.visibility >= SECOND && Reachable(c, p, s)
    ensures Reachable(c, p.(freshStamps := true), s)
  {
    if !p.freshStamps {
      FreshStampsForFree(c, p, s);
    } else {
      assert p.(freshStamps := true) == p;
    }
  }

  // ----- a late acknowledgement -----

  /** Acknowledging a lease that was reclaimed meanwhile removes no lease and settles no message. */
  ghost predicate StaleAcksHarmless(c: Config, p: Promises) {
    forall s, w, applied :: Reachable(c, p, s) && StepEnabled(c, s, w, Acknowledge(applied))
                            && s.workers[w].lease in s.reclaimed ==>
      Harmless(s, Apply(c, s, Work(w, Acknowledge(applied))))
  }

  ghost predicate Harmless(s: State, t: State) { t.leases == s.leases && t.acked == s.acked }

  /** Stamps are recorded, and their jobs marked Processing, a second or more before their leases end. */
  predicate InTime(c: Config, p: Promises) { p.timely && Prompt(c) }

  /** A reclaimed lease is in the processing set no more. */
  ghost predicate ReclaimedGone(s: State) { forall l :: l in s.reclaimed ==> l !in s.leases }

  lemma ActionKeepsReclaimedGone(c: Config, s: State, a: Action)
    requires Enabled(c, s, a) && Prompt(c)
    requires ReclaimedGone(s) && OnlyDueReclaimed(s) && AllOnTime(c, s)
    ensures ReclaimedGone(Apply(c, s, a))
  {
    if a.Work? {
      assert OnTime(c, s.now, s.workers[a.w]);
      if s.workers[a.w].Leasing? { EarlyIsNotDue(c, s.now, s.workers[a.w]); }
    }
  }

  lemma {:induction false} RunKeepsReclaimedGone(c: Config, p: Promises, s: State, acts: seq<Action>, t: State)
    requires InTime(c, p) && Runs(c, p, s, acts, t)
    requires ReclaimedGone(s) && OnlyDueReclaimed(s) && AllOnTime(c, s)
    ensures ReclaimedGone(t)
    decreases |acts|
  {
    if acts != [] {
      ActionKeepsReclaimedGone(c, s, acts[0]);
      ActionKeepsDue(c, s, acts[0]);
      ActionIsOnTime(c, s, acts[0]);
      RunKeepsReclaimedGone(c, p, Apply(c, s, acts[0]), acts[1..], t);
    }
  }

  lemma PromptAcksHarmless(c: Config, p: Promises, s: State, w: nat, applied: bool)
    requires InTime(c, p) && Reachable(c, p, s)
    requires StepEnabled(c, s, w, Acknowledge(applied)) && s.workers[w].lease in s.reclaimed
    ensures Harmless(s, Apply(c, s, Work(w, Acknowledge(applied))))
  {
    var init, acts :| Init(init) && Runs(c, p, init, acts, s);
    RunKeepsReclaimedGone(c, p, init, acts, s);
  }

  lemma BothStamped(c: Config, p: Promises, job: string, wait: nat) returns (s: State, l: Lease)
    requires !p.freshStamps && (!p.apart || !p.confirmed)
    ensures l == Lease(Message(0, job), c.visibility + wait + c.visibility)
    ensures Reachable(c, p, s)
    ensures s == TwoDeliveries(c, job, l, c.visibility + wait, {l}, Crashed, Working(l, Checking, 0, 0), Leasing(l, 0))
  {
    var m := Message(0, job);
    l := Lease(m, c.visibility + wait + c.visibility);
    s := BothTaken(c, p, job, wait);
    s := StampRun(c, p, s, 1, m);
    s := StampRun(c, p, s, 2, m);
    s := Plain(c, p, s, 1, Hold);
    assert s.workers == map[0 := Crashed, 1 := Working(l, Checking, 0, 0), 2 := Leasing(l, 0)];
  }

  /** Time passes until their lease is due. */
  lemma BothDue(c: Config, p: Promises, job: string, d: nat) returns (s: State, l: Lease)
    requires !p.freshStamps && (!p.apart || !p.confirmed) && Outlasts(c, p, d)
    ensures Reachable(c, p, s) && l.msg == Message(0, job) && Due(l, s.now)
    ensures s == TwoDeliveries(c, job, l, s.now, {l}, Crashed, Working(l, Checking, 0, d), Leasing(l, d))
  {
    var wait := WholeSecondAfter(c.visibility + d);
    s, l := BothStamped(c, p, job, wait);
    s := TickRun(c, p, s, d);
    assert s.workers == map[0 := Crashed, 1 := Working(l, Checking, 0, d), 2 := Leasing(l, d)];
    DueOnTheSecond(l, s.now);
  }

  /** A third worker reclaims it, and the second delivery records it again. */
  lemma LateHold(c: Config, p: Promises, job: string, d: nat) returns (s: State, l: Lease)
    requires !p.freshStamps && (!p.apart || !p.confirmed) && Outlasts(c, p, d)
    ensures Reachable(c, p, s) && l.msg == Message(0, job) && l in s.leases && l in s.reclaimed
    ensures Stands(s, 1, Working(l, Checking, 0, d)) && s.status == map[job := Pending]
  {
    s, l := BothDue(c, p, job, d);
    s := RestartAndReclaimRun(c, p, s, 0, l);
    s := Plain(c, p, s, 2, Hold);
  }

  lemma RestartAndReclaimRun(c: Config, p: Promises, s: State, w: nat, l: Lease) returns (t: State)
    requires Reachable(c, p, s) && Stands(s, w, Crashed) && s.leases == {l} && Due(l, s.now)
    requires forall v :: v in s.workers ==> BatchOf(s.workers[v]) == []
    ensures Reachable(c, p, t)
    ensures t == Put(s, w, Relisting(l.msg, [])).(leases := {}, reclaimed := s.reclaimed + {l})
  {
    t := Plain(c, p, s, w, Restart);
    t := PickRun(c, p, t, w, l);
    t := Plain(c, p, t, w, Remove);
    assert [l][1..] == [];
    assert t.workers == s.workers[w := Relisting(l.msg, [])];
    assert t.leases == {};
  }

  /** The first delivery's acknowledgement then removes a lease that was reclaimed from it. */
  lemma StaleAckRemovesLease(c: Config, p: Promises, job: string, d: nat) returns (s: State)
    requires !p.freshStamps && (!p.apart || !p.confirmed) && Outlasts(c, p, d)
    ensures Reachable(c, p, s) && StepEnabled(c, s, 1, Acknowledge(true)) && s.workers[1].lease in s.reclaimed
    ensures !Harmless(s, Apply(c, s, Work(1, Acknowledge(true))))
  {
    var l;
    s, l := LateHold(c, p, job, d);
    s := Plain(c, p, s, 1, Check(true));
    s := SettleRun(c, p, s, 1, l, d, true);
    AckRemoves(c, s, 1, l);
  }

  lemma AckRemoves(c: Config, s: State, w: nat, l: Lease)
    requires w in s.workers && s.workers[w].Working? && s.workers[w].stage.Settled? && s.workers[w].lease == l
    requires l in s.leases
    ensures StepEnabled(c, s, w, Acknowledge(true)) && !Harmless(s, Apply(c, s, Work(w, Acknowledge(true))))
  {
    assert l !in Apply(c, s, Work(w, Acknowledge(true))).leases;
  }

  /**
   A stale acknowledgement is harmless, in every reachable state, exactly when no two deliveries share a
   stamp, or stamps are recorded promptly enough that a reclaimed one is never recorded again.
   */
  lemma StaleAcksHarmlessIff(c: Config, p: Promises)
    requires c.attempts >= 1 && c.visibility >= SECOND
    ensures StaleAcksHarmless(c, p) <==> StampsDiffer(p) || InTime(c, p)
  {
    if StampsDiffer(p) || InTime(c, p) {
      forall s, w, applied | Reachable(c, p, s) && StepEnabled(c, s, w, Acknowledge(applied))
                             && s.workers[w].lease in s.reclaimed
        ensures Harmless(s, Apply(c, s, Work(w, Acknowledge(applied))))
      {
        if StampsDiffer(p) {
          DifferingStamps(c, p, s);
          StaleAckIsHarmless(c, p.(freshStamps := true), s, w, applied);
        } else {
          PromptAcksHarmless(c, p, s, w, applied);
        }
      }
    } else {
      var s := StaleAckRemovesLease(c, p, "job", if p.timely then c.others else c.visibility);
    }
  }

  // ----- the lease of a live worker -----

  /** In every reachable state a delivery under way has its lease in the processing set. */
  ghost predicate LeasesHeld(c: Config, p: Promises) {
    forall s, w :: Reachable(c, p, s) && w in s.workers && s.workers[w].Working? ==> s.workers[w].lease in s.leases
  }

  /** The lease stays in the processing set exactly when, besides, no two deliveries share a stamp. */
  lemma LeasesHeldIff(c: Config, p: Promises)
    requires c.attempts >= 1 && c.visibility >= SECOND
    ensures LeasesHeld(c, p) <==> p.timely && Ample(c) && StampsDiffer(p)
  {
    if p.timely && Ample(c) && StampsDiffer(p) {
      forall s, w | Reachable(c, p, s) && w in s.workers && s.workers[w].Working?
        ensures s.workers[w].lease in s.leases
      {
        DifferingStamps(c, p, s);
        LiveWorkerKeepsLease(c, p.(freshStamps := true), s, w);
      }
    } else if !StampsDiffer(p) {
      var s := SharedLease(c, p, "job");
      s := CompleteRun(c, p, s, 1, s.workers[1].lease, true);
      assert s.workers[2].lease !in s.leases;
    } else {
      var s := LiveLeasePicked(c, p, "job");
      s := Plain(c, p, s, 1, Remove);
      assert s.workers[0].lease !in s.leases;
    }
  }

  // ----- stuck jobs -----

  /** In no reachable state is an accepted, unfinished job without a copy of its message to deliver. */
  ghost predicate NeverStuck(c: Config, p: Promises) {
    forall s, job :: Reachable(c, p, s) && IsAccepted(s, job) && Unfinished(s, job) ==> Recoverable(s, job)
  }

  /** Hand-overs succeed, final writes are saved, stamps differ, and no lease runs out before its job is marked. */
  predicate KeepsJobs(c: Config, p: Promises) { p.lossless && p.saved && StampsDiffer(p) && InTime(c, p) }

  /** No job is ever stuck exactly when a run keeps these promises, whatever the render limits. */
  lemma NeverStuckIff(c: Config, p: Promises)
    requires c.attempts >= 1 && c.visibility >= SECOND
    ensures NeverStuck(c, p) <==> KeepsJobs(c, p)
  {
    if KeepsJobs(c, p) {
      forall s, job | Reachable(c, p, s) && IsAccepted(s, job) && Unfinished(s, job) ensures Recoverable(s, job) {
        DifferingStamps(c, p, s);
        NoStuckJob(c, p.(freshStamps := true), s, job);
      }
    } else {
      var s := StuckWithout(c, p, "job");
    }
  }

  /** Without any one of them a job can get stuck for good. */
  lemma StuckWithout(c: Config, p: Promises, job: string) returns (s: State)
    requires c.attempts >= 1 && c.visibility >= SECOND && !KeepsJobs(c, p)
    ensures Reachable(c, p, s)
    ensures IsAccepted(s, job) && Unfinished(s, job) && Forgotten(s, job) && !Recoverable(s, job)
  {
    if !p.lossless {
      s := CrashInHandOver(c, job);
      ReachablePromisesLess(c, p, CAREFUL.(lossless := false), s);
    } else if !p.saved {
      s := FailedSave(c, job);
      ReachablePromisesLess(c, p, CAREFUL.(saved := false), s);
    } else if !StampsDiffer(p) {
      s := SameStamp(c, p, job);
    } else {
      s := SlowWorker(c, p, job, if p.timely then c.others else c.visibility);
    }
  }
}
