/** Concrete runs showing that each promise of a careful run is needed: without it a job can be stuck for good. */
module RedisFailures {
  import opened Jobs
  import opened RedisSystem
  import opened RedisDelivery
  import opened RedisLeases
  import opened RedisProgress

  function Put(s: State, w: nat, wk: Worker): State { s.(workers := s.workers[w := wk]) }

  predicate Stands(s: State, w: nat, wk: Worker) { w in s.workers && s.workers[w] == wk }

  /** A step that no promise is about. */
  lemma Plain(c: Config, p: Promises, s: State, w: nat, a: Step) returns (t: State)
    requires Reachable(c, p, s) && StepEnabled(c, s, w, a)
    requires !a.Lose? && !a.Crash? && !a.Stamp? && !a.Finish? && !a.HoldFailed?
    requires a.Range? && p.apart ==> Apart(s, Work(w, a))
    ensures t == StepApply(c, s, w, a) && Reachable(c, p, t)
  {
    t := Go(c, p, s, Work(w, a));
  }

  lemma TickRun(c: Config, p: Promises, s: State, d: nat) returns (t: State)
    requires Reachable(c, p, s)
    requires p.timely ==> forall w :: w in s.workers ==> InBounds(c, Older(s.workers[w], d))
    ensures Reachable(c, p, t) && t == s.(now := s.now + d, workers := AllOlder(s.workers, d))
  {
    t := Go(c, p, s, Tick(d));
  }

  lemma CrashRun(c: Config, p: Promises, s: State, w: nat, wk: Worker) returns (t: State)
    requires Reachable(c, p, s) && Stands(s, w, wk) && !wk.Crashed? && (p.lossless ==> Carried(wk).None?)
    ensures Reachable(c, p, t) && t == Put(s, w, Crashed).(lost := s.lost + Dropped(wk))
  {
    t := Go(c, p, s, Work(w, Crash));
  }

  lemma FinishRun(c: Config, p: Promises, s: State, w: nat, l: Lease, other: nat, stored: bool) returns (t: State)
    requires Reachable(c, p, s) && Stands(s, w, Working(l, Finishing, 0, other)) && (p.saved ==> stored)
    ensures Reachable(c, p, t)
    ensures t == Put(s, w, Working(l, Settled, 0, other)).(status := if stored then s.status[l.msg.job := Completed] else s.status)
  {
    t := Go(c, p, s, Work(w, Finish(Completed, stored)));
  }

  /** No copy of any message is anywhere, and no worker is on any job. */
  lemma NothingLeft(s: State, m: Message, job: string)
    requires s.list == [] && s.leases == {} && IsAccepted(s, job)
    requires forall w :: w in s.workers ==> s.workers[w].Idle? || s.workers[w].Waiting? || s.workers[w].Crashed?
    ensures !HasCopy(s, m) && Forgotten(s, job) && !Recoverable(s, job)
  {
    ForgottenIsNotRecoverable(s, job);
  }

  lemma Begin(c: Config, p: Promises, workers: map<nat, Worker>) returns (s: State)
    requires forall w :: w in workers ==> workers[w].Idle?
    ensures Reachable(c, p, s) && s == State(0, [], {}, workers, map[], map[], {}, {}, {}, {})
  {
    s := State(0, [], {}, workers, map[], map[], {}, {}, {}, {});
    assert Init(s) && Runs(c, p, s, [], s);
  }

  /** A job just accepted on an idle system. */
  lemma SubmitRun(c: Config, p: Promises, workers: map<nat, Worker>, job: string) returns (s: State)
    requires forall w :: w in workers ==> workers[w].Idle?
    ensures Reachable(c, p, s)
    ensures s == State(0, [Message(0, job)], {}, workers, map[job := Pending], map[job := Submission.Accepted],
                       {Message(0, job)}, {}, {}, {})
  {
    s := Begin(c, p, workers);
    s := Go(c, p, s, Submit(job));
    s := Go(c, p, s, Store(job));
    s := Go(c, p, s, Enqueue(job, 0, Done));
    assert s.status == map[job := Pending] && s.submissions == map[job := Submission.Accepted];
  }

  /** A worker finds nothing due and waits for the list. */
  lemma ScanRun(c: Config, p: Promises, s: State, w: nat) returns (t: State)
    requires Reachable(c, p, s) && Stands(s, w, Idle) && forall l :: l in s.leases ==> !Due(l, s.now)
    ensures Reachable(c, p, t) && t == Put(s, w, Waiting)
  {
    t := Plain(c, p, s, w, ReadClock);
    t := Plain(c, p, t, w, Range([]));
    t := Plain(c, p, t, w, BeginWait);
    assert t.workers == s.workers[w := Waiting];
  }

  lemma TakeRun(c: Config, p: Promises, s: State, w: nat, m: Message) returns (t: State)
    requires Reachable(c, p, s) && Stands(s, w, Waiting) && s.list != [] && s.list[|s.list| - 1] == m
    ensures Reachable(c, p, t) && t == Put(s, w, Popped(m)).(list := s.list[..|s.list| - 1])
  {
    t := Plain(c, p, s, w, TakeTail);
  }

  lemma StampRun(c: Config, p: Promises, s: State, w: nat, m: Message) returns (t: State)
    requires Reachable(c, p, s) && Stands(s, w, Popped(m))
    requires p.freshStamps ==> FreshStamp(c, s, Work(w, Stamp))
    ensures Reachable(c, p, t) && t == Put(s, w, Leasing(Lease(m, s.now + c.visibility), 0))
  {
    t := Go(c, p, s, Work(w, Stamp));
  }

  /** It leases the message and finds the job not canceled. */
  lemma LeaseRun(c: Config, p: Promises, s: State, w: nat, m: Message) returns (t: State)
    requires Reachable(c, p, s) && Stands(s, w, Popped(m)) && !IsCanceled(s.status, m.job)
    requires p.freshStamps ==> FreshStamp(c, s, Work(w, Stamp))
    ensures
      var l := Lease(m, s.now + c.visibility);
      Reachable(c, p, t) && t == Put(s, w, Working(l, Starting, 0, 0)).(leases := s.leases + {l})
  {
    t := StampRun(c, p, s, w, m);
    t := Plain(c, p, t, w, Hold);
    t := Plain(c, p, t, w, Check(true));
    assert t.workers == s.workers[w := Working(Lease(m, s.now + c.visibility), Starting, 0, 0)];
  }

  /** It renders the job, stores the outcome if the write works, and acknowledges. */
  lemma CompleteRun(c: Config, p: Promises, s: State, w: nat, l: Lease, stored: bool) returns (t: State)
    requires Reachable(c, p, s) && Stands(s, w, Working(l, Starting, 0, 0)) && l in s.leases && (p.saved ==> stored)
    ensures Reachable(c, p, t)
    ensures t == Put(s, w, Idle).(leases := s.leases - {l}, acked := s.acked + {l.msg},
                                  status := s.status[l.msg.job := if stored then Completed else Processing])
  {
    t := SettleRun(c, p, s, w, l, 0, stored);
    t := Plain(c, p, t, w, Acknowledge(true));
    assert t.workers == s.workers[w := Idle];
    assert t.status == s.status[l.msg.job := if stored then Completed else Processing];
  }

  lemma SettleRun(c: Config, p: Promises, s: State, w: nat, l: Lease, other: nat, stored: bool) returns (t: State)
    requires Reachable(c, p, s) && Stands(s, w, Working(l, Starting, 0, other)) && (p.saved ==> stored)
    ensures Reachable(c, p, t)
    ensures t == Put(s, w, Working(l, Settled, 0, other)).(
                   status := s.status[l.msg.job := if stored then Completed else Processing])
  {
    t := RenderRun(c, p, s, w, l, other);
    t := FinishRun(c, p, t, w, l, other, stored);
    assert t.workers == s.workers[w := Working(l, Settled, 0, other)];
  }

  lemma RenderRun(c: Config, p: Promises, s: State, w: nat, l: Lease, other: nat) returns (t: State)
    requires Reachable(c, p, s) && Stands(s, w, Working(l, Starting, 0, other))
    ensures Reachable(c, p, t)
    ensures t == Put(s, w, Working(l, Finishing, 0, other)).(status := s.status[l.msg.job := Processing])
  {
    t := Plain(c, p, s, w, Start(true));
    t := Plain(c, p, t, w, Render(false));
    t := Plain(c, p, t, w, Recheck(true));
    assert t.workers == s.workers[w := Working(l, Finishing, 0, other)];
  }

  /** It picks up the one lease there is, now due. */
  lemma PickRun(c: Config, p: Promises, s: State, w: nat, l: Lease) returns (t: State)
    requires Reachable(c, p, s) && Stands(s, w, Idle) && s.leases == {l} && Due(l, s.now)
    requires p.apart ==> forall v :: v in s.workers && v != w ==> BatchOf(s.workers[v]) == []
    ensures Reachable(c, p, t) && t == Put(s, w, Reclaiming([l]))
  {
    t := Plain(c, p, s, w, ReadClock);
    t := Plain(c, p, t, w, Range([l]));
    assert t.workers == s.workers[w := Reclaiming([l])];
  }

  /** It removes the lease, whether or not it is still there, and puts the message back. */
  lemma ReclaimRun(c: Config, p: Promises, s: State, w: nat, l: Lease) returns (t: State)
    requires Reachable(c, p, s) && Stands(s, w, Reclaiming([l]))
    ensures Reachable(c, p, t)
    ensures t == Put(s, w, Waiting).(leases := s.leases - {l}, list := [l.msg] + s.list,
                                     reclaimed := if l in s.leases then s.reclaimed + {l} else s.reclaimed)
  {
    t := Plain(c, p, s, w, Remove);
    t := Plain(c, p, t, w, Relist);
    t := Plain(c, p, t, w, BeginWait);
    assert t.workers == s.workers[w := Waiting];
  }

  /** A worker marks its job Processing and crashes. */
  lemma MarkAndCrashRun(c: Config, p: Promises, s: State, w: nat, l: Lease, other: nat) returns (t: State)
    requires Reachable(c, p, s) && Stands(s, w, Working(l, Starting, 0, other))
    ensures Reachable(c, p, t)
    ensures t == Put(s, w, Crashed).(status := s.status[l.msg.job := Processing])
  {
    t := Plain(c, p, s, w, Start(true));
    t := CrashRun(c, p, t, w, Working(l, Rendering(1), 0, other));
    assert t.workers == s.workers[w := Crashed];
  }

  /** A crash between taking a message from the list and leasing it loses it: its job stays Pending for good. */
  lemma CrashInHandOver(c: Config, job: string) returns (s: State)
    ensures Reachable(c, CAREFUL.(lossless := false), s) && IsAccepted(s, job) && Unfinished(s, job)
    ensures s.pushed == {Message(0, job)} && s.acked == {} && !HasCopy(s, Message(0, job)) && Forgotten(s, job) && !Recoverable(s, job)
  {
    var p := CAREFUL.(lossless := false);
    s := SubmitRun(c, p, map[0 := Idle], job);
    s := ScanRun(c, p, s, 0);
    s := TakeRun(c, p, s, 0, Message(0, job));
    s := CrashRun(c, p, s, 0, Popped(Message(0, job)));
    NothingLeft(s, Message(0, job), job);
  }

  /** A final write that fails leaves an acknowledged job Processing. */
  lemma FailedSave(c: Config, job: string) returns (s: State)
    ensures Reachable(c, CAREFUL.(saved := false), s) && IsAccepted(s, job)
    ensures Unfinished(s, job) && Forgotten(s, job) && !Recoverable(s, job)
  {
    var p, m := CAREFUL.(saved := false), Message(0, job);
    s := SubmitRun(c, p, map[0 := Idle], job);
    s := ScanRun(c, p, s, 0);
    s := TakeRun(c, p, s, 0, m);
    s := LeaseRun(c, p, s, 0, m);
    s := CompleteRun(c, p, s, 0, Lease(m, c.visibility), false);
    NothingLeft(s, m, job);
  }

  // ----- a delivery that is slow to start rendering -----

  /** One worker on a leased job, another idle. */
  function OnJob(l: Lease, now: Time, wk: Worker, status: JobStatus): State {
    State(now, [], {l}, map[0 := wk, 1 := Idle], map[l.msg.job := status], map[l.msg.job := Submission.Accepted],
          {l.msg}, {}, {}, {})
  }

  lemma QueuedAt(c: Config, p: Promises, at: Time, job: string) returns (s: State)
    ensures Reachable(c, p, s)
    ensures s == State(at, [Message(0, job)], {}, map[0 := Idle, 1 := Idle], map[job := Pending],
                       map[job := Submission.Accepted], {Message(0, job)}, {}, {}, {})
  {
    s := SubmitRun(c, p, map[0 := Idle, 1 := Idle], job);
    s := TickRun(c, p, s, at);
    assert s.workers == map[0 := Idle, 1 := Idle];
  }

  /** A job leased at a chosen instant. */
  lemma LeasedAt(c: Config, p: Promises, at: Time, job: string) returns (s: State)
    ensures
      var l := Lease(Message(0, job), at + c.visibility);
      Reachable(c, p, s) && s == OnJob(l, at, Working(l, Starting, 0, 0), Pending)
  {
    var m := Message(0, job);
    var l := Lease(m, at + c.visibility);
    s := QueuedAt(c, p, at, job);
    s := ScanRun(c, p, s, 0);
    s := TakeRun(c, p, s, 0, m);
    s := LeaseRun(c, p, s, 0, m);
    assert s.workers == map[0 := Working(l, Starting, 0, 0), 1 := Idle];
    assert s.list == [] && s.leases == {l};
  }

  /** The instant that lets this much time end on a whole second. */
  lemma WholeSecondAfter(d: nat) returns (at: nat)
    ensures (at + d) % SECOND == 0
  {
    at := (SECOND - d % SECOND) % SECOND;
  }

  /** A lease that ends less than a second after a whole second is due at it. */
  lemma DueOnTheSecond(l: Lease, now: Time)
    requires now % SECOND == 0 && l.until < now + SECOND
    ensures Due(l, now)
  {
    DueExactly(l, now);
  }

  /** So much time lets a lease become due, and workers may take it. */
  predicate Outlasts(c: Config, p: Promises, d: nat) { c.visibility < d + SECOND && (p.timely ==> d <= c.others) }

  /** Its worker sleeps until the lease is due. */
  lemma AsleepUntilDue(c: Config, p: Promises, job: string, d: nat) returns (s: State, l: Lease)
    requires Outlasts(c, p, d)
    ensures Reachable(c, p, s) && s == OnJob(l, s.now, Working(l, Starting, 0, d), Pending)
    ensures l.msg == Message(0, job) && l.until + d == s.now + c.visibility && Due(l, s.now)
  {
    var at := WholeSecondAfter(d);
    l := Lease(Message(0, job), at + c.visibility);
    s := LeasedAt(c, p, at, job);
    s := TickRun(c, p, s, d);
    assert s.workers == map[0 := Working(l, Starting, 0, d), 1 := Idle];
    DueOnTheSecond(l, s.now);
  }

  /** The message is in the second worker's hands, while the first only sleeps. */
  lemma TakenOver(c: Config, p: Promises, job: string, d: nat) returns (s: State, l: Lease)
    requires Outlasts(c, p, d)
    ensures Reachable(c, p, s) && l.msg == Message(0, job) && l.until + d == s.now + c.visibility
    ensures s == OnJob(l, s.now, Working(l, Starting, 0, d), Pending)
                 .(leases := {}, workers := map[0 := Working(l, Starting, 0, d), 1 := Popped(l.msg)], reclaimed := {l})
  {
    s, l := AsleepUntilDue(c, p, job, d);
    s := PickRun(c, p, s, 1, l);
    s := ReclaimRun(c, p, s, 1, l);
    s := TakeRun(c, p, s, 1, l.msg);
    assert s.workers == map[0 := Working(l, Starting, 0, d), 1 := Popped(l.msg)];
    assert s.list == [] && s.leases == {};
  }

  lemma LeasedAgain(c: Config, p: Promises, job: string, d: nat) returns (s: State, l: Lease, k: Lease)
    requires Outlasts(c, p, d) && d > 0
    ensures Reachable(c, p, s) && s.list == [] && s.leases == {k} && s.status == map[job := Pending] && k.msg.job == job
    ensures s.workers == map[0 := Working(l, Starting, 0, d), 1 := Working(k, Starting, 0, 0)]
    ensures s.submissions == map[job := Submission.Accepted] && l.msg == k.msg
  {
    s, l := TakenOver(c, p, job, d);
    k := Lease(l.msg, s.now + c.visibility);
    s := LeaseRun(c, p, s, 1, l.msg);
    assert s.workers == map[0 := Working(l, Starting, 0, d), 1 := Working(k, Starting, 0, 0)];
    assert s.leases == {k};
  }

  /** And completes the job. */
  lemma Overtaken(c: Config, p: Promises, job: string, d: nat) returns (s: State, l: Lease)
    requires Outlasts(c, p, d) && d > 0
    ensures Reachable(c, p, s) && s.list == [] && s.leases == {} && s.status == map[job := Completed]
    ensures s.workers == map[0 := Working(l, Starting, 0, d), 1 := Idle] && l.msg.job == job
    ensures s.submissions == map[job := Submission.Accepted]
  {
    var k;
    s, l, k := LeasedAgain(c, p, job, d);
    s := CompleteRun(c, p, s, 1, k, true);
    assert s.workers == map[0 := Working(l, Starting, 0, d), 1 := Idle];
    assert s.leases == {};
  }

  /** A worker that starts after its lease marks a job Processing that another finished meanwhile, and crashes. */
  lemma SlowWorker(c: Config, p: Promises, job: string, d: nat) returns (s: State)
    requires Outlasts(c, p, d) && d > 0
    ensures Reachable(c, p, s) && IsAccepted(s, job)
    ensures Unfinished(s, job) && Forgotten(s, job) && !Recoverable(s, job)
  {
    var l;
    s, l := Overtaken(c, p, job, d);
    s := MarkAndCrashRun(c, p, s, 0, l, d);
    NothingLeft(s, l.msg, job);
  }

  // ----- a message with two copies -----

  /** Three workers; the job is leased to the first until this instant. */
  function Staged(c: Config, job: string, now: Time, first: Worker): State {
    var m := Message(0, job);
    State(now, [], {Lease(m, c.visibility)}, map[0 := first, 1 := Idle, 2 := Idle],
          map[job := Pending], map[job := Submission.Accepted], {m}, {}, {}, {})
  }

  lemma CrashedAtOnce(c: Config, p: Promises, job: string) returns (s: State)
    ensures Reachable(c, p, s) && s == Staged(c, job, 0, Crashed)
  {
    s := FirstLease(c, p, job);
    s := CrashRun(c, p, s, 0, Working(Lease(Message(0, job), c.visibility), Starting, 0, 0));
    assert s.workers == map[0 := Crashed, 1 := Idle, 2 := Idle];
  }

  lemma CrashedUntilDue(c: Config, p: Promises, job: string) returns (s: State)
    ensures Reachable(c, p, s) && s == Staged(c, job, c.visibility, Crashed)
  {
    s := CrashedAtOnce(c, p, job);
    s := TickRun(c, p, s, c.visibility);
    assert s.workers == map[0 := Crashed, 1 := Idle, 2 := Idle];
  }

  lemma FirstLease(c: Config, p: Promises, job: string) returns (s: State)
    ensures
      var m := Message(0, job);
      var l := Lease(m, c.visibility);
      Reachable(c, p, s) && s == Staged(c, job, 0, Working(l, Starting, 0, 0))
  {
    var m := Message(0, job);
    s := TakenAtOnce(c, p, job);
    s := LeaseRun(c, p, s, 0, m);
    assert s.workers == map[0 := Working(Lease(m, c.visibility), Starting, 0, 0), 1 := Idle, 2 := Idle];
  }

  /** A message listed twice, an instant after its lease ran out, and two workers waiting for the list. */
  function Doubled(c: Config, job: string): State {
    var m := Message(0, job);
    State(c.visibility, [m, m], {}, map[0 := Crashed, 1 := Waiting, 2 := Waiting],
          map[job := Pending], map[job := Submission.Accepted], {m}, {}, {}, {Lease(m, c.visibility)})
  }

  lemma PickedTwice(c: Config, p: Promises, job: string) returns (s: State)
    requires !p.apart
    ensures
      var l := Lease(Message(0, job), c.visibility);
      && Reachable(c, p, s)
      && s == Staged(c, job, c.visibility, Crashed)
              .(workers := map[0 := Crashed, 1 := Reclaiming([l]), 2 := Reclaiming([l])])
  {
    var l := Lease(Message(0, job), c.visibility);
    s := CrashedUntilDue(c, p, job);
    s := PickRun(c, p, s, 1, l);
    s := PickRun(c, p, s, 2, l);
    assert s.workers == map[0 := Crashed, 1 := Reclaiming([l]), 2 := Reclaiming([l])];
  }

  /** Both other workers reclaim the crashed worker's lease: the message is listed twice. */
  lemma ReclaimedTwice(c: Config, p: Promises, job: string) returns (s: State)
    requires !p.apart
    ensures Reachable(c, p, s) && s == Doubled(c, job)
  {
    var l := Lease(Message(0, job), c.visibility);
    s := PickedTwice(c, p, job);
    s := ReclaimRun(c, p, s, 1, l);
    s := ReclaimRun(c, p, s, 2, l);
    assert s.workers == map[0 := Crashed, 1 := Waiting, 2 := Waiting];
  }

  lemma TakenAtOnce(c: Config, p: Promises, job: string) returns (s: State)
    ensures Reachable(c, p, s)
    ensures s == State(0, [], {}, map[0 := Popped(Message(0, job)), 1 := Idle, 2 := Idle],
                       map[job := Pending], map[job := Submission.Accepted], {Message(0, job)}, {}, {}, {})
  {
    s := SubmitRun(c, p, map[0 := Idle, 1 := Idle, 2 := Idle], job);
    s := ScanRun(c, p, s, 0);
    s := TakeRun(c, p, s, 0, Message(0, job));
    assert s.workers == map[0 := Popped(Message(0, job)), 1 := Idle, 2 := Idle];
  }

  /** A lease is recorded although the worker is told that it failed, and puts the message back. */
  lemma RecordedUnawares(c: Config, p: Promises, job: string) returns (s: State)
    requires !p.confirmed
    ensures Reachable(c, p, s) && s == Staged(c, job, 0, Idle).(list := [Message(0, job)])
  {
    var m := Message(0, job);
    s := TakenAtOnce(c, p, job);
    s := StampRun(c, p, s, 0, m);
    s := UnconfirmedRun(c, p, s, 0, Lease(m, c.visibility));
    assert s.workers == map[0 := Idle, 1 := Idle, 2 := Idle];
  }

  lemma UnconfirmedRun(c: Config, p: Promises, s: State, w: nat, l: Lease) returns (t: State)
    requires !p.confirmed && Reachable(c, p, s) && Stands(s, w, Leasing(l, 0)) && s.list == []
    ensures Reachable(c, p, t) && t == Put(s, w, Idle).(leases := s.leases + {l}, list := [l.msg])
  {
    t := Go(c, p, s, Work(w, HoldFailed(true)));
    t := Plain(c, p, t, w, PutBack);
    assert t.workers == s.workers[w := Idle];
  }

  lemma RecordedUntilDue(c: Config, p: Promises, job: string) returns (s: State)
    requires !p.confirmed
    ensures Reachable(c, p, s) && s == Staged(c, job, c.visibility, Crashed).(list := [Message(0, job)])
  {
    s := RecordedUnawares(c, p, job);
    s := CrashRun(c, p, s, 0, Idle);
    s := TickRun(c, p, s, c.visibility);
    assert s.workers == map[0 := Crashed, 1 := Idle, 2 := Idle];
  }

  /** When that lease has run out, its message is listed a second time. */
  lemma ListedAgain(c: Config, p: Promises, job: string) returns (s: State)
    requires !p.confirmed
    ensures Reachable(c, p, s) && s == Doubled(c, job)
  {
    var m := Message(0, job);
    var l := Lease(m, c.visibility);
    s := RecordedUntilDue(c, p, job);
    s := PickRun(c, p, s, 1, l);
    s := ReclaimRun(c, p, s, 1, l);
    s := ScanRun(c, p, s, 2);
    assert s.workers == map[0 := Crashed, 1 := Waiting, 2 := Waiting];
  }

  /** In either way a message can come to be listed twice. */
  lemma ListedTwice(c: Config, p: Promises, job: string) returns (s: State)
    requires !p.apart || !p.confirmed
    ensures Reachable(c, p, s) && s == Doubled(c, job)
  {
    if !p.apart { s := ReclaimedTwice(c, p, job); } else { s := ListedAgain(c, p, job); }
  }

  /** Two deliveries of one message under one stamp: the first recorded, the second on its way to it. */
  function TwoDeliveries(c: Config, job: string, l: Lease, now: Time, leases: set<Lease>, zero: Worker,
                         first: Worker, second: Worker): State
  {
    var m := Message(0, job);
    State(now, [], leases, map[0 := zero, 1 := first, 2 := second], map[job := Pending],
          map[job := Submission.Accepted], {m}, {}, {}, {Lease(m, c.visibility)})
  }

  lemma DoubledFor(c: Config, p: Promises, job: string, wait: nat) returns (s: State)
    requires !p.apart || !p.confirmed
    ensures Reachable(c, p, s) && s == Doubled(c, job).(now := c.visibility + wait)
  {
    s := ListedTwice(c, p, job);
    s := TickRun(c, p, s, wait);
    assert s.workers == map[0 := Crashed, 1 := Waiting, 2 := Waiting];
  }

  /** Both copies of a duplicated message are taken at a chosen instant. */
  lemma BothTaken(c: Config, p: Promises, job: string, wait: nat) returns (s: State)
    requires !p.apart || !p.confirmed
    ensures
      var m := Message(0, job);
      var l := Lease(m, c.visibility + wait + c.visibility);
      && Reachable(c, p, s)
      && s == TwoDeliveries(c, job, l, c.visibility + wait, {}, Crashed, Popped(m), Popped(m))
  {
    var m := Message(0, job);
    s := DoubledFor(c, p, job, wait);
    s := TakeRun(c, p, s, 1, m);
    s := TakeRun(c, p, s, 2, m);
    assert s.workers == map[0 := Crashed, 1 := Popped(m), 2 := Popped(m)];
  }

  /** Both take a copy and lease it at the same instant: one lease stands for two deliveries. */
  lemma SharedLease(c: Config, p: Promises, job: string) returns (s: State)
    requires !p.freshStamps && (!p.apart || !p.confirmed)
    ensures
      var m := Message(0, job);
      var l := Lease(m, c.visibility + c.visibility);
      && Reachable(c, p, s) && s.list == [] && s.leases == {l} && s.status == map[job := Pending]
      && s.workers == map[0 := Crashed, 1 := Working(l, Starting, 0, 0), 2 := Working(l, Starting, 0, 0)]
      && s.submissions == map[job := Submission.Accepted]
  {
    var m := Message(0, job);
    s := BothTaken(c, p, job, 0);
    s := LeaseRun(c, p, s, 1, m);
    s := LeaseRun(c, p, s, 2, m);
    assert s.workers == map[0 := Crashed, 1 := Working(Lease(m, c.visibility + c.visibility), Starting, 0, 0),
                            2 := Working(Lease(m, c.visibility + c.visibility), Starting, 0, 0)];
  }

  /** The first acknowledgement then removes the lease the other delivery relies on. */
  lemma SameStamp(c: Config, p: Promises, job: string) returns (s: State)
    requires !p.freshStamps && (!p.apart || !p.confirmed)
    ensures Reachable(c, p, s) && IsAccepted(s, job)
    ensures Unfinished(s, job) && Forgotten(s, job) && !Recoverable(s, job)
  {
    var m := Message(0, job);
    s := SharedLease(c, p, job);
    s := CompleteRun(c, p, s, 1, Lease(m, c.visibility + c.visibility), true);
    s := MarkAndCrashRun(c, p, s, 2, Lease(m, c.visibility + c.visibility), 0);
    NothingLeft(s, m, job);
  }
}
