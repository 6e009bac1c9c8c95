/**
 The Redis queue under any number of workers, one step for each Redis command, clock reading, storage
 call or failure.  A Redis command takes effect atomically; the worker that sent it may crash before or
 after, and may be told of an error although the command took effect.
 */
module RedisSystem {
  import opened Jobs
  import opened Sorting
  import opened WorkerPool
  import LQ = LeaseQueue

  /** A queued message: its identifier and the job it carries. */
  datatype Message = Message(id: nat, job: string)

  /** A member of the processing set; its score is the whole second of its end. */
  datatype Lease = Lease(msg: Message, until: Time)

  /**
   The visibility timeout, the render limits of a worker, and a bound on the time one delivery spends
   in all its other calls.
   */
  datatype Config = Config(visibility: nat, attempts: nat, pageTimeout: nat, backoff: nat, others: nat)

  /** Where a worker stands in processJob; a settled worker has only its acknowledgement left. */
  datatype Stage = Checking | Starting | Rendering(attempt: nat) | BackingOff(attempt: nat) | Rechecking | Finishing | Settled

  /** timer runs during one render or back-off, other adds up the time of all other calls since the stamp. */
  datatype Worker =
    | Idle
    | Ranging(at: Time)
    | Reclaiming(batch: seq<Lease>)
    | Relisting(msg: Message, batch: seq<Lease>)
    | Waiting
    | Popped(msg: Message)
    | Leasing(lease: Lease, other: nat)
    | PuttingBack(msg: Message)
    | Working(lease: Lease, stage: Stage, timer: nat, other: nat)
    | Crashed

  /** How far a submit request has got; its job identifier is never drawn again. */
  datatype Submission = Storing | Enqueuing | RollingBack | RolledBack | Accepted

  /**
   The list has its head at index 0.  pushed, acked, lost and reclaimed record which messages were pushed,
   had a lease removed by an acknowledgement, lost a copy in a failure, and which leases were reclaimed.
   */
  datatype State = State(now: Time, list: seq<Message>, leases: set<Lease>, workers: map<nat, Worker>,
                         status: map<string, JobStatus>, submissions: map<string, Submission>,
                         pushed: set<Message>, acked: set<Message>, lost: set<Message>, reclaimed: set<Lease>)

  datatype Enqueued = Done | Refused | Unconfirmed

  datatype Step =
    | ReadClock
    | Range(batch: seq<Lease>)
    | Remove
    | Relist
    | BeginWait
    | TakeTail
    | Stamp
    | Hold
    | HoldFailed(applied: bool)
    | PutBack
    | Check(readable: bool)
    | Start(stored: bool)
    | Render(again: bool)
    | Resume(interrupted: bool)
    | Recheck(readable: bool)
    | Finish(outcome: JobStatus, stored: bool)
    | Acknowledge(applied: bool)
    | Abandon
    | Lose
    | Crash
    | Restart

  datatype Action =
    | Submit(job: string)
    | Store(job: string)
    | Enqueue(job: string, id: nat, result: Enqueued)
    | Rollback(job: string)
    | CancelWrite(job: string)
    | Tick(d: nat)
    | Work(w: nat, step: Step)

  /** The lease's score is at most the given instant's: both are cut to whole seconds. */
  predicate Due(l: Lease, at: Time) { UnixSeconds(l.until) <= UnixSeconds(at) }

  predicate IsCanceled(status: map<string, JobStatus>, job: string) { job in status && status[job] == Canceled }

  /** A reply to the range query: at most 25 due members, each once, and all of them if there are fewer. */
  ghost predicate RangeReply(leases: set<Lease>, at: Time, batch: seq<Lease>) {
    && |batch| <= LQ.BATCH_LIMIT && Distinct(batch)
    && (forall l :: l in batch ==> l in leases && Due(l, at))
    && (|batch| < LQ.BATCH_LIMIT ==> forall l :: l in leases && Due(l, at) ==> l in batch)
  }

  ghost predicate StepEnabled(c: Config, s: State, w: nat, a: Step) {
    && w in s.workers
    && var wk := s.workers[w];
       match a
       case ReadClock => wk.Idle?
       case Range(batch) => wk.Ranging? && RangeReply(s.leases, wk.at, batch)
       case Remove => wk.Reclaiming? && wk.batch != []
       case Relist => wk.Relisting?
       case BeginWait => wk.Reclaiming? && wk.batch == []
       case TakeTail => wk.Waiting? && s.list != []
       case Stamp => wk.Popped?
       case Hold => wk.Leasing?
       case HoldFailed(_) => wk.Leasing?
       case PutBack => wk.PuttingBack?
       case Check(_) => wk.Working? && wk.stage.Checking?
       case Start(_) => wk.Working? && wk.stage.Starting?
       case Render(_) => wk.Working? && wk.stage.Rendering?
       case Resume(_) => wk.Working? && wk.stage.BackingOff?
       case Recheck(_) => wk.Working? && wk.stage.Rechecking?
       case Finish(outcome, _) => wk.Working? && wk.stage.Finishing? && (outcome == Completed || outcome == Failed)
       case Acknowledge(_) => wk.Working? && wk.stage.Settled?
       case Abandon => wk.Ranging? || wk.Reclaiming? || wk.Waiting?
       case Lose => (wk.Waiting? && s.list != []) || (wk.Reclaiming? && wk.batch != []) || wk.Relisting? || wk.PuttingBack?
       case Crash => !wk.Crashed?
       case Restart => wk.Crashed?
  }

  /** Where the step takes the worker. */
  function StepNext(c: Config, s: State, w: nat, a: Step): Worker
    requires StepEnabled(c, s, w, a)
  {
    var wk := s.workers[w];
    match a
    case ReadClock => Ranging(s.now)
    case Range(batch) => Reclaiming(batch)
    case Remove => Relisting(wk.batch[0].msg, wk.batch[1..])
    case Relist => Reclaiming(wk.batch)
    case BeginWait => Waiting
    case TakeTail => Popped(s.list[|s.list| - 1])
    case Stamp => Leasing(Lease(wk.msg, s.now + c.visibility), 0)
    case Hold => Working(wk.lease, Checking, 0, wk.other)
    case HoldFailed(_) => PuttingBack(wk.lease.msg)
    case PutBack => Idle
    case Check(readable) =>
      wk.(stage := if readable && IsCanceled(s.status, wk.lease.msg.job) then Settled else Starting)
    case Start(_) => wk.(stage := Rendering(1), timer := 0)
    case Render(again) =>
      wk.(stage := if again && wk.stage.attempt < c.attempts then BackingOff(wk.stage.attempt) else Rechecking, timer := 0)
    case Resume(interrupted) =>
      wk.(stage := if interrupted then Rechecking else Rendering(wk.stage.attempt + 1), timer := 0)
    case Recheck(readable) =>
      wk.(stage := if readable && IsCanceled(s.status, wk.lease.msg.job) then Settled else Finishing)
    case Finish(_, _) => wk.(stage := Settled)
    case Acknowledge(_) => Idle
    case Abandon => Idle
    case Lose => Idle
    case Crash => Crashed
    case Restart => Idle
  }

  /** The message a worker alone holds while it is in neither the list nor the processing set. */
  function Carried(wk: Worker): Option<Message> {
    match wk
    case Relisting(msg, _) => Some(msg)
    case Popped(msg) => Some(msg)
    case Leasing(lease, _) => Some(lease.msg)
    case PuttingBack(msg) => Some(msg)
    case Idle => None
    case Ranging(_) => None
    case Reclaiming(_) => None
    case Waiting => None
    case Working(_, _, _, _) => None
    case Crashed => None
  }

  function Dropped(wk: Worker): set<Message> {
    if Carried(wk).Some? then {Carried(wk).value} else {}
  }

  function Removed(s: State, l: Lease): State {
    s.(leases := s.leases - {l}, reclaimed := if l in s.leases then s.reclaimed + {l} else s.reclaimed)
  }

  function StepApply(c: Config, s: State, w: nat, a: Step): State
    requires StepEnabled(c, s, w, a)
  {
    var wk := s.workers[w];
    var t := s.(workers := s.workers[w := StepNext(c, s, w, a)]);
    match a
    case Remove => Removed(t, wk.batch[0])
    case Relist => t.(list := [wk.msg] + s.list)
    case TakeTail => t.(list := s.list[..|s.list| - 1])
    case Hold => t.(leases := s.leases + {wk.lease})
    case HoldFailed(applied) => if applied then t.(leases := s.leases + {wk.lease}) else t
    case PutBack => t.(list := [wk.msg] + s.list)
    case Start(stored) => if stored then t.(status := s.status[wk.lease.msg.job := Processing]) else t
    case Finish(outcome, stored) => if stored then t.(status := s.status[wk.lease.msg.job := outcome]) else t
    case Acknowledge(applied) =>
      if applied then t.(leases := s.leases - {wk.lease},
                         acked := if wk.lease in s.leases then s.acked + {wk.lease.msg} else s.acked)
      else t
    case Lose =>
      if wk.Waiting? then t.(list := s.list[..|s.list| - 1], lost := s.lost + {s.list[|s.list| - 1]})
      else if wk.Reclaiming? then Removed(t, wk.batch[0]).(lost := s.lost + {wk.batch[0].msg})
      else t.(lost := s.lost + Dropped(wk))
    case Crash => t.(lost := s.lost + Dropped(wk))
    case _ => t
  }

  // ----- time -----

  /** Time that passes counts against the render or back-off under way, or else against the other calls. */
  function Older(wk: Worker, d: nat): Worker {
    match wk
    case Leasing(lease, other) => Leasing(lease, other + d)
    case Working(lease, stage, timer, other) =>
      if stage.Rendering? || stage.BackingOff? then Working(lease, stage, timer + d, other)
      else Working(lease, stage, timer, other + d)
    case _ => wk
  }

  function AllOlder(workers: map<nat, Worker>, d: nat): map<nat, Worker> {
    map w | w in workers :: Older(workers[w], d)
  }

  /** A render takes at most the page timeout, a back-off its delay, and the other calls together their bound. */
  predicate InBounds(c: Config, wk: Worker) {
    match wk
    case Leasing(_, other) => other <= c.others
    case Working(_, stage, timer, other) =>
      && other <= c.others
      && (stage.Rendering? ==> timer <= c.pageTimeout)
      && (stage.BackingOff? ==> timer <= c.backoff)
    case _ => true
  }

  // ----- the machine -----

  ghost predicate Enabled(c: Config, s: State, a: Action) {
    match a
    case Submit(job) => job !in s.submissions
    case Store(job) => job in s.submissions && s.submissions[job].Storing?
    case Enqueue(job, id, result) =>
      job in s.submissions && s.submissions[job].Enqueuing? && forall m :: m in s.pushed ==> m.id != id
    case Rollback(job) => job in s.submissions && s.submissions[job].RollingBack?
    case CancelWrite(job) => job in s.submissions
    case Tick(d) => true
    case Work(w, step) => StepEnabled(c, s, w, step)
  }

  function Apply(c: Config, s: State, a: Action): State
    requires Enabled(c, s, a)
  {
    match a
    case Submit(job) => s.(submissions := s.submissions[job := Storing])
    case Store(job) => s.(submissions := s.submissions[job := Enqueuing], status := s.status[job := Pending])
    case Enqueue(job, id, result) =>
      var m := Message(id, job);
      var t := if result.Refused? then s else s.(list := [m] + s.list, pushed := s.pushed + {m});
      t.(submissions := s.submissions[job := if result.Done? then Accepted else RollingBack])
    case Rollback(job) => s.(submissions := s.submissions[job := RolledBack], status := s.status - {job})
    case CancelWrite(job) => s.(status := s.status[job := Canceled])
    case Tick(d) => s.(now := s.now + d, workers := AllOlder(s.workers, d))
    case Work(w, step) => StepApply(c, s, w, step)
  }

  ghost predicate Init(s: State) {
    && s.list == [] && s.leases == {} && s.status == map[] && s.submissions == map[]
    && s.pushed == {} && s.acked == {} && s.lost == {} && s.reclaimed == {}
    && forall w :: w in s.workers ==> s.workers[w].Idle?
  }

  // ----- promises about a run -----

  /** No copy is lost: no crash or failed command while a worker carries the only copy, or just took it. */
  predicate Lossless(s: State, a: Action) {
    a.Work? && a.w in s.workers ==>
      !a.step.Lose? && (a.step.Crash? ==> Carried(s.workers[a.w]).None?)
  }

  /** Live workers keep within the render limits and the bound on their other calls. */
  ghost predicate Timely(c: Config, s: State, a: Action) {
    a.Tick? ==> forall w :: w in s.workers ==> InBounds(c, Older(s.workers[w], a.d))
  }

  predicate HasStamp(wk: Worker) { wk.Leasing? || wk.Working? }

  /** No delivery is stamped with an instant at which the same message is, or is about to be, leased already. */
  ghost predicate FreshStamp(c: Config, s: State, a: Action) {
    a.Work? && a.w in s.workers && a.step.Stamp? && s.workers[a.w].Popped? ==>
      var l := Lease(s.workers[a.w].msg, s.now + c.visibility);
      && l !in s.leases
      && forall w :: w in s.workers && HasStamp(s.workers[w]) ==> s.workers[w].lease != l
  }

  /** The write of a final status reaches the store. */
  predicate Saved(a: Action) {
    a.Work? && a.step.Finish? ==> a.step.stored
  }

  /** The leases a worker is still to reclaim. */
  function BatchOf(wk: Worker): seq<Lease> {
    if wk.Reclaiming? || wk.Relisting? then wk.batch else []
  }

  /** No worker picks a lease that another worker is already to reclaim. */
  ghost predicate Apart(s: State, a: Action) {
    a.Work? && a.step.Range? ==>
      forall v, l :: v in s.workers && v != a.w && l in a.step.batch ==> l !in BatchOf(s.workers[v])
  }

  /** A command that records a lease is not reported as failed. */
  predicate Confirmed(a: Action) {
    a.Work? && a.step.HoldFailed? ==> !a.step.applied
  }

  /** What a run promises about each of its steps. */
  datatype Promises = Promises(lossless: bool, timely: bool, freshStamps: bool, saved: bool, apart: bool, confirmed: bool)

  ghost predicate Kept(c: Config, p: Promises, s: State, a: Action) {
    && (p.lossless ==> Lossless(s, a))
    && (p.timely ==> Timely(c, s, a))
    && (p.freshStamps ==> FreshStamp(c, s, a))
    && (p.saved ==> Saved(a))
    && (p.apart ==> Apart(s, a))
    && (p.confirmed ==> Confirmed(a))
  }

  const CAREFUL := Promises(true, true, true, true, true, true)

  /** Running the actions from s, each enabled and keeping the promises, ends in t. */
  ghost predicate Runs(c: Config, p: Promises, s: State, acts: seq<Action>, t: State)
    decreases |acts|
  {
    if acts == [] then s == t
    else Enabled(c, s, acts[0]) && Kept(c, p, s, acts[0]) && Runs(c, p, Apply(c, s, acts[0]), acts[1..], t)
  }

  ghost predicate Reachable(c: Config, p: Promises, s: State) {
    exists init, acts :: Init(init) && Runs(c, p, init, acts, s)
  }

  lemma {:induction false} RunsOneMore(c: Config, p: Promises, s: State, acts: seq<Action>, t: State, a: Action)
    requires Runs(c, p, s, acts, t) && Enabled(c, t, a) && Kept(c, p, t, a)
    ensures Runs(c, p, s, acts + [a], Apply(c, t, a))
    decreases |acts|
  {
    if acts == [] {
      assert [a][1..] == [];
      assert acts + [a] == [a];
    } else {
      assert (acts + [a])[1..] == acts[1..] + [a];
      RunsOneMore(c, p, Apply(c, s, acts[0]), acts[1..], t, a);
    }
  }

  /** Everything the first promises, the second promises too. */
  predicate PromisesLess(p: Promises, q: Promises) {
    && (p.lossless ==> q.lossless) && (p.timely ==> q.timely) && (p.freshStamps ==> q.freshStamps) && (p.saved ==> q.saved)
    && (p.apart ==> q.apart) && (p.confirmed ==> q.confirmed)
  }

  lemma {:induction false} RunPromisesLess(c: Config, p: Promises, q: Promises, s: State, acts: seq<Action>, t: State)
    requires PromisesLess(p, q) && Runs(c, q, s, acts, t)
    ensures Runs(c, p, s, acts, t)
    decreases |acts|
  {
    if acts != [] { RunPromisesLess(c, p, q, Apply(c, s, acts[0]), acts[1..], t); }
  }

  /** What is reachable under more promises is reachable under fewer. */
  lemma ReachablePromisesLess(c: Config, p: Promises, q: Promises, s: State)
    requires PromisesLess(p, q) && Reachable(c, q, s)
    ensures Reachable(c, p, s)
  {
    var init, acts :| Init(init) && Runs(c, q, init, acts, s);
    RunPromisesLess(c, p, q, init, acts, s);
  }

  /** One more step of a run. */
  lemma Go(c: Config, p: Promises, s: State, a: Action) returns (t: State)
    requires Reachable(c, p, s) && Enabled(c, s, a) && Kept(c, p, s, a)
    ensures t == Apply(c, s, a) && Reachable(c, p, t)
  {
    t := Apply(c, s, a);
    var init, acts :| Init(init) && Runs(c, p, init, acts, s);
    RunsOneMore(c, p, init, acts, s, a);
  }
}
