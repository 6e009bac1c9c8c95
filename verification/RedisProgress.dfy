/** No stuck job: while an accepted job is not finished, a copy of its message can still be delivered. */
module RedisProgress {
  import opened Jobs
  import opened RedisSystem
  import opened RedisDelivery
  import opened RedisLeases

  predicate Unfinished(s: State, job: string) { job in s.status && !s.status[job].Terminal() }

  predicate IsAccepted(s: State, job: string) { job in s.submissions && s.submissions[job].Accepted? }

  // ----- deliveries about to mark their job -----

  /** The visibility timeout covers the time up to the start of the first render, with a second to spare. */
  predicate Prompt(c: Config) { c.attempts >= 1 && c.visibility >= c.others + SECOND }

  /** Stamped, but yet to mark its job Processing. */
  predicate Early(wk: Worker) { wk.Leasing? || (wk.Working? && (wk.stage.Checking? || wk.stage.Starting?)) }

  lemma EarlyIsNotDue(c: Config, now: Time, wk: Worker)
    requires Prompt(c) && OnTime(c, now, wk) && Early(wk)
    ensures !Due(wk.lease, now)
  {
    DueExactly(wk.lease, now);
  }

  /** Every delivery about to mark its job Processing has its lease in the processing set. */
  ghost predicate EarlyHeld(s: State) {
    forall w :: w in s.workers && s.workers[w].Working? && Early(s.workers[w]) ==> s.workers[w].lease in s.leases
  }

  lemma StepKeepsEarlyHeld(c: Config, s: State, w: nat, a: Step)
    requires StepEnabled(c, s, w, a) && Prompt(c)
    requires EarlyHeld(s) && OnlyDueReclaimed(s) && AllOnTime(c, s) && StampsApart(s)
    ensures EarlyHeld(StepApply(c, s, w, a))
  {
    var t, wk := StepApply(c, s, w, a), s.workers[w];
    forall v | v in t.workers && t.workers[v].Working? && Early(t.workers[v]) ensures t.workers[v].lease in t.leases {
      if v != w {
        assert t.workers[v] == s.workers[v] && OnTime(c, s.now, s.workers[v]) && BatchDue(wk, s.now);
        EarlyIsNotDue(c, s.now, s.workers[v]);
      }
    }
  }

  /** What holds throughout a timely run, whatever the render limits. */
  ghost predicate Orderly(c: Config, s: State) {
    OnlyDueReclaimed(s) && AllOnTime(c, s) && StampsApart(s) && EarlyHeld(s)
  }

  lemma ActionKeepsOrderly(c: Config, s: State, a: Action)
    requires Prompt(c) && Enabled(c, s, a) && Timely(c, s, a) && FreshStamp(c, s, a) && Orderly(c, s)
    ensures Orderly(c, Apply(c, s, a))
  {
    ActionKeepsDue(c, s, a);
    ActionIsOnTime(c, s, a);
    ActionKeepsStampsApart(c, s, a);
    if a.Work? { StepKeepsEarlyHeld(c, s, a.w, a.step); }
  }

  // ----- copies that can be delivered -----

  /** A copy nobody is about to acknowledge. */
  ghost predicate Safe(s: State, m: Message, p: Place) {
    && At(s, m, p)
    && (p.Leased? ==> forall w :: w in s.workers && s.workers[w].Working? && s.workers[w].lease == p.lease ==>
                                    !s.workers[w].stage.Settled?)
  }

  ghost predicate Recoverable(s: State, job: string) {
    exists m: Message, p: Place :: m.job == job && Safe(s, m, p)
  }

  ghost predicate AllRecoverable(s: State) {
    forall job :: IsAccepted(s, job) && Unfinished(s, job) ==> Recoverable(s, job)
  }

  /** While its job stays unfinished, a safe copy stays safe or moves to another safe place. */
  lemma StepMovesSafe(c: Config, s: State, w: nat, a: Step, m: Message, p: Place) returns (q: Place)
    requires StepEnabled(c, s, w, a) && Lossless(s, Work(w, a)) && Saved(Work(w, a)) && StampsApart(s)
    requires Safe(s, m, p) && Unfinished(s, m.job) && Unfinished(StepApply(c, s, w, a), m.job)
    ensures Safe(StepApply(c, s, w, a), m, q)
  {
    var t, wk := StepApply(c, s, w, a), s.workers[w];
    q := p;
    match p {
      case Listed =>
        if a.TakeTail? {
          if m == s.list[|s.list| - 1] {
            q := With(w);
          } else {
            var i :| 0 <= i < |s.list| && s.list[i] == m;
            assert t.list[i] == m;
          }
        }
      case Leased(l) =>
        if a.Remove? && wk.batch[0] == l { q := With(w); }
      case With(v) =>
        if v == w {
          q := if a.Relist? || a.PutBack? then Listed else if a.Hold? then Leased(wk.lease) else With(w);
        }
    }
  }

  /** A delivery that marks its job Processing still holds its lease, and will not acknowledge it yet. */
  lemma StartIsSafe(c: Config, s: State, w: nat, stored: bool)
    requires StepEnabled(c, s, w, Start(stored)) && StampsApart(s) && EarlyHeld(s)
    ensures Safe(StepApply(c, s, w, Start(stored)), s.workers[w].lease.msg, Leased(s.workers[w].lease))
  {
  }

  lemma StepKeepsRecoverable(c: Config, s: State, w: nat, a: Step)
    requires StepEnabled(c, s, w, a) && Lossless(s, Work(w, a)) && Saved(Work(w, a)) && StampsApart(s) && EarlyHeld(s)
    requires AllRecoverable(s)
    ensures AllRecoverable(StepApply(c, s, w, a))
  {
    var t := StepApply(c, s, w, a);
    forall job | IsAccepted(t, job) && Unfinished(t, job) ensures Recoverable(t, job) {
      if Unfinished(s, job) {
        var m: Message, p: Place :| m.job == job && Safe(s, m, p);
        var q := StepMovesSafe(c, s, w, a, m, p);
      } else {
        assert a.Start? && s.workers[w].lease.msg.job == job;
        StartIsSafe(c, s, w, a.stored);
      }
    }
  }

  lemma TickKeepsRecoverable(s: State, d: nat)
    requires AllRecoverable(s)
    ensures AllRecoverable(s.(now := s.now + d, workers := AllOlder(s.workers, d)))
  {
    var t := s.(now := s.now + d, workers := AllOlder(s.workers, d));
    forall job | IsAccepted(t, job) && Unfinished(t, job) ensures Recoverable(t, job) {
      assert IsAccepted(s, job) && Unfinished(s, job);
      var m: Message, p: Place :| m.job == job && Safe(s, m, p);
      assert Safe(t, m, p);
    }
  }

  lemma ActionKeepsRecoverable(c: Config, s: State, a: Action)
    requires Enabled(c, s, a) && Lossless(s, a) && Saved(a) && StampsApart(s) && EarlyHeld(s) && AllRecoverable(s)
    ensures AllRecoverable(Apply(c, s, a))
  {
    if a.Work? {
      StepKeepsRecoverable(c, s, a.w, a.step);
    } else if a.Tick? {
      TickKeepsRecoverable(s, a.d);
    } else {
      var t := Apply(c, s, a);
      forall job | IsAccepted(t, job) && Unfinished(t, job) ensures Recoverable(t, job) {
        if IsAccepted(s, job) {
          assert Unfinished(s, job);
          var m: Message, p: Place :| m.job == job && Safe(s, m, p);
          assert Safe(t, m, p);
        } else {
          assert a.Enqueue? && a.job == job;
          assert Safe(t, Message(a.id, job), Listed);
        }
      }
    }
  }

  /** The promises under which no job gets stuck. */
  predicate NoneStuck(p: Promises) { p.lossless && p.timely && p.freshStamps && p.saved }

  lemma {:induction false} RunKeepsRecoverable(c: Config, p: Promises, s: State, acts: seq<Action>, t: State)
    requires Prompt(c) && NoneStuck(p) && Runs(c, p, s, acts, t)
    requires Orderly(c, s) && AllRecoverable(s)
    ensures AllRecoverable(t)
    decreases |acts|
  {
    if acts != [] {
      ActionKeepsRecoverable(c, s, acts[0]);
      ActionKeepsOrderly(c, s, acts[0]);
      RunKeepsRecoverable(c, p, Apply(c, s, acts[0]), acts[1..], t);
    }
  }

  /**
   No stuck job: if workers keep to their bounds, start rendering within their leases, have stamps of their
   own, final writes reach the store and no failure hits a hand-over, an accepted job that is Pending or Processing has a copy of its message in the list, in a
   worker's hands on its way there, or leased by nobody who is about to acknowledge it.
   */
  lemma NoStuckJob(c: Config, p: Promises, s: State, job: string)
    requires Prompt(c) && NoneStuck(p) && Reachable(c, p, s) && IsAccepted(s, job) && Unfinished(s, job)
    ensures Recoverable(s, job)
  {
    var init, acts :| Init(init) && Runs(c, p, init, acts, s);
    RunKeepsRecoverable(c, p, init, acts, s);
  }

  // ----- jobs that nothing will touch again -----

  /** The worker has nothing to do with the job, now or through a batch it is working off. */
  ghost predicate Uninvolved(wk: Worker, job: string) {
    match wk
    case Reclaiming(batch) => forall l :: l in batch ==> l.msg.job != job
    case Relisting(msg, batch) => msg.job != job && forall l :: l in batch ==> l.msg.job != job
    case Popped(msg) => msg.job != job
    case PuttingBack(msg) => msg.job != job
    case Leasing(lease, _) => lease.msg.job != job
    case Working(lease, _, _, _) => lease.msg.job != job
    case _ => true
  }

  /** An accepted job of which there is no message anywhere and that no worker is on. */
  ghost predicate Forgotten(s: State, job: string) {
    && IsAccepted(s, job)
    && (forall m :: m in s.list ==> m.job != job)
    && (forall l :: l in s.leases ==> l.msg.job != job)
    && (forall w :: w in s.workers ==> Uninvolved(s.workers[w], job))
  }

  lemma StepKeepsForgotten(c: Config, s: State, w: nat, a: Step, job: string)
    requires StepEnabled(c, s, w, a) && Forgotten(s, job)
    ensures Forgotten(StepApply(c, s, w, a), job)
    ensures job in StepApply(c, s, w, a).status <==> job in s.status
    ensures job in s.status ==> StepApply(c, s, w, a).status[job] == s.status[job]
  {
    var t := StepApply(c, s, w, a);
    assert Uninvolved(s.workers[w], job) && Uninvolved(t.workers[w], job);
  }

  lemma ActionKeepsForgotten(c: Config, s: State, a: Action, job: string)
    requires Enabled(c, s, a) && Forgotten(s, job) && a != CancelWrite(job)
    ensures Forgotten(Apply(c, s, a), job)
    ensures job in Apply(c, s, a).status <==> job in s.status
    ensures job in s.status ==> Apply(c, s, a).status[job] == s.status[job]
  {
    if a.Work? { StepKeepsForgotten(c, s, a.w, a.step, job); }
    if a.Tick? {
      forall w | w in s.workers ensures Uninvolved(Older(s.workers[w], a.d), job) {
        assert Uninvolved(s.workers[w], job);
      }
    }
  }

  /** Stuck for good: whatever follows, short of a cancel request for it, such a job keeps its status. */
  lemma {:induction false} ForgottenForGood(c: Config, p: Promises, s: State, acts: seq<Action>, t: State, job: string)
    requires Forgotten(s, job) && Runs(c, p, s, acts, t) && forall i :: 0 <= i < |acts| ==> acts[i] != CancelWrite(job)
    ensures Forgotten(t, job) && !Recoverable(t, job)
    ensures job in t.status <==> job in s.status
    ensures job in s.status ==> t.status[job] == s.status[job]
    decreases |acts|
  {
    if acts == [] {
      ForgottenIsNotRecoverable(s, job);
    } else {
      ActionKeepsForgotten(c, s, acts[0], job);
      ForgottenForGood(c, p, Apply(c, s, acts[0]), acts[1..], t, job);
    }
  }

  lemma ForgottenIsNotRecoverable(s: State, job: string)
    requires Forgotten(s, job)
    ensures !Recoverable(s, job)
  {
    forall m: Message, p: Place | m.job == job ensures !Safe(s, m, p) {
      if p.With? && p.w in s.workers { assert Uninvolved(s.workers[p.w], job); }
    }
  }
}
