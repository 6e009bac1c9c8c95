/**
 At most one copy: a message is never in two places exactly when no two workers reclaim one lease and no
 recorded lease is reported as failed.  Stamps are then distinct by themselves.
 */
module RedisCopies {
  import opened Jobs
  import opened Sorting
  import opened RedisSystem
  import D = RedisDelivery
  import opened RedisLeases
  import F = RedisFailures

  /** Where a copy of a message is or will come from: a picked lease that is gone is put back all the same. */
  datatype Spot = InList(i: nat) | InSet(lease: Lease) | InHand(w: nat) | InBatch(v: nat, k: nat)

  ghost predicate Holds(s: State, m: Message, p: Spot) {
    match p
    case InList(i) => i < |s.list| && s.list[i] == m
    case InSet(l) => l in s.leases && l.msg == m
    case InHand(w) => w in s.workers && Carried(s.workers[w]) == Some(m)
    case InBatch(v, k) =>
      v in s.workers && k < |BatchOf(s.workers[v])|
      && BatchOf(s.workers[v])[k].msg == m && BatchOf(s.workers[v])[k] !in s.leases
  }

  ghost predicate Single(s: State) {
    forall m, p, q :: Holds(s, m, p) && Holds(s, m, q) ==> p == q
  }

  ghost predicate Known(s: State) {
    forall m, p :: Holds(s, m, p) ==> m in s.pushed
  }

  /** No lease is in two batches, or twice in one. */
  ghost predicate BatchesApart(workers: map<nat, Worker>) {
    && (forall v :: v in workers ==> Distinct(BatchOf(workers[v])))
    && (forall v, w, l :: v in workers && w in workers && v != w && l in BatchOf(workers[v]) ==>
                           l !in BatchOf(workers[w]))
  }

  // ----- where a copy was one step ago -----

  function Origin(s: State, w: nat, a: Step, q: Spot): Spot
    requires w in s.workers
  {
    var wk := s.workers[w];
    if (a.Relist? || a.PutBack?) && q.InList? then (if q.i == 0 then InHand(w) else InList(q.i - 1))
    else if a.TakeTail? && q == InHand(w) then InList(if s.list == [] then 0 else |s.list| - 1)
    else if a.Hold? && wk.Leasing? && q == InSet(wk.lease) then InHand(w)
    else if a.Remove? && wk.Reclaiming? && wk.batch != [] && q == InHand(w) then
      if wk.batch[0] in s.leases then InSet(wk.batch[0]) else InBatch(w, 0)
    else if a.Remove? && q.InBatch? && q.v == w then InBatch(w, q.k + 1)
    else if a == Acknowledge(true) && wk.Working? && q.InBatch? && IsAt(s, q, wk.lease) && wk.lease in s.leases
    then InSet(wk.lease)
    else q
  }

  predicate IsAt(s: State, q: Spot, l: Lease)
    requires q.InBatch?
  {
    q.v in s.workers && q.k < |BatchOf(s.workers[q.v])| && BatchOf(s.workers[q.v])[q.k] == l
  }

  lemma StepOrigin(c: Config, s: State, w: nat, a: Step, m: Message, q: Spot)
    requires StepEnabled(c, s, w, a) && BatchesApart(s.workers) && Confirmed(Work(w, a))
    requires Holds(StepApply(c, s, w, a), m, q)
    ensures Holds(s, m, Origin(s, w, a, q))
  {
    match q {
      case InList(i) =>
      case InSet(l) =>
      case InHand(v) => if v != w { OthersStay(c, s, w, a, v); }
      case InBatch(v, k) => BatchOrigin(c, s, w, a, m, v, k);
    }
  }

  lemma OthersStay(c: Config, s: State, w: nat, a: Step, v: nat)
    requires StepEnabled(c, s, w, a) && v != w
    ensures v in StepApply(c, s, w, a).workers <==> v in s.workers
    ensures v in s.workers ==> StepApply(c, s, w, a).workers[v] == s.workers[v]
  {
  }

  lemma BatchOrigin(c: Config, s: State, w: nat, a: Step, m: Message, v: nat, k: nat)
    requires StepEnabled(c, s, w, a) && BatchesApart(s.workers) && Confirmed(Work(w, a))
    requires Holds(StepApply(c, s, w, a), m, InBatch(v, k))
    ensures Holds(s, m, Origin(s, w, a, InBatch(v, k)))
  {
    if v != w {
      OthersStay(c, s, w, a, v);
      assert BatchOf(s.workers[v])[k] in BatchOf(s.workers[v]);
    }
  }

  /** Two spots with one origin are one. */
  lemma OriginIsInjective(c: Config, s: State, w: nat, a: Step, m: Message, p: Spot, q: Spot)
    requires StepEnabled(c, s, w, a) && BatchesApart(s.workers)
    requires Holds(StepApply(c, s, w, a), m, p) && Holds(StepApply(c, s, w, a), m, q)
    requires Origin(s, w, a, p) == Origin(s, w, a, q)
    ensures p == q
  {
    if p.InBatch? && q.InBatch? && a == Acknowledge(true) && s.workers[w].Working? {
      SameEntry(s, p, q, s.workers[w].lease);
    }
  }

  lemma SameEntry(s: State, p: Spot, q: Spot, l: Lease)
    requires BatchesApart(s.workers) && p.InBatch? && q.InBatch?
    ensures IsAt(s, p, l) && IsAt(s, q, l) ==> p == q
  {
    assert IsAt(s, p, l) ==> l in BatchOf(s.workers[p.v]);
    assert IsAt(s, q, l) ==> l in BatchOf(s.workers[q.v]);
  }

  lemma StepKeepsSingle(c: Config, s: State, w: nat, a: Step)
    requires StepEnabled(c, s, w, a) && Confirmed(Work(w, a))
    requires Single(s) && Known(s) && BatchesApart(s.workers)
    ensures Single(StepApply(c, s, w, a)) && Known(StepApply(c, s, w, a))
  {
    var t := StepApply(c, s, w, a);
    forall m, p, q | Holds(t, m, p) && Holds(t, m, q) ensures p == q {
      StepOrigin(c, s, w, a, m, p);
      StepOrigin(c, s, w, a, m, q);
      OriginIsInjective(c, s, w, a, m, p, q);
    }
    forall m, p | Holds(t, m, p) ensures m in t.pushed {
      StepOrigin(c, s, w, a, m, p);
    }
  }

  lemma StepKeepsBatchesApart(c: Config, s: State, w: nat, a: Step)
    requires StepEnabled(c, s, w, a) && Apart(s, Work(w, a)) && BatchesApart(s.workers)
    ensures BatchesApart(StepApply(c, s, w, a).workers)
  {
    var t := StepApply(c, s, w, a);
    assert t.workers == s.workers[w := StepNext(c, s, w, a)];
    NextBatch(c, s, w, a);
  }

  /** A worker's batch is what it just picked, or loses its first lease, or stays, or is dropped. */
  lemma NextBatch(c: Config, s: State, w: nat, a: Step)
    requires StepEnabled(c, s, w, a)
    ensures
      var before, after := BatchOf(s.workers[w]), BatchOf(StepNext(c, s, w, a));
      || after == [] || after == before || (before != [] && after == before[1..])
      || (a.Range? && after == a.batch && Distinct(after))
  {
  }

  // ----- all actions -----

  lemma EnqueueKeepsSingle(c: Config, s: State, job: string, id: nat, result: Enqueued)
    requires Enabled(c, s, Enqueue(job, id, result)) && Single(s) && Known(s)
    ensures Single(Apply(c, s, Enqueue(job, id, result))) && Known(Apply(c, s, Enqueue(job, id, result)))
  {
    var t, added := Apply(c, s, Enqueue(job, id, result)), Message(id, job);
    forall m, p | Holds(t, m, p)
      ensures m in t.pushed
      ensures Holds(s, m, Unshifted(p, result)) || (p == InList(0) && m == added)
      ensures m == added && !result.Refused? ==> p == InList(0)
    {
      if Holds(s, m, Unshifted(p, result)) { assert m in s.pushed; }
    }
    forall m, p, q | Holds(t, m, p) && Holds(t, m, q) ensures p == q {
      if m != added || result.Refused? {
        assert Unshifted(p, result) == Unshifted(q, result);
      }
    }
  }

  /** The spot before a push at the head of the list. */
  function Unshifted(p: Spot, result: Enqueued): Spot {
    if p.InList? && p.i > 0 && !result.Refused? then InList(p.i - 1) else p
  }

  lemma TickKeepsSpots(s: State, d: nat, m: Message, p: Spot)
    requires Holds(s.(now := s.now + d, workers := AllOlder(s.workers, d)), m, p)
    ensures Holds(s, m, p)
  {
  }

  lemma TickKeepsSingle(s: State, d: nat)
    requires Single(s) && Known(s) && BatchesApart(s.workers)
    ensures
      var t := s.(now := s.now + d, workers := AllOlder(s.workers, d));
      Single(t) && Known(t) && BatchesApart(t.workers)
  {
    var t := s.(now := s.now + d, workers := AllOlder(s.workers, d));
    forall m, p | Holds(t, m, p) ensures Holds(s, m, p) { TickKeepsSpots(s, d, m, p); }
    assert forall v :: v in s.workers ==> BatchOf(t.workers[v]) == BatchOf(s.workers[v]);
  }

  lemma ActionKeepsSingle(c: Config, s: State, a: Action)
    requires Enabled(c, s, a) && Apart(s, a) && Confirmed(a)
    requires Single(s) && Known(s) && BatchesApart(s.workers)
    ensures Single(Apply(c, s, a)) && Known(Apply(c, s, a)) && BatchesApart(Apply(c, s, a).workers)
  {
    if a.Work? {
      StepKeepsSingle(c, s, a.w, a.step);
      StepKeepsBatchesApart(c, s, a.w, a.step);
    } else if a.Tick? {
      TickKeepsSingle(s, a.d);
    } else if a.Enqueue? {
      EnqueueKeepsSingle(c, s, a.job, a.id, a.result);
    } else {
      assert forall m, p :: Holds(Apply(c, s, a), m, p) <==> Holds(s, m, p);
    }
  }

  lemma {:induction false} RunKeepsSingle(c: Config, p: Promises, s: State, acts: seq<Action>, t: State)
    requires p.apart && p.confirmed && Runs(c, p, s, acts, t)
    requires Single(s) && Known(s) && BatchesApart(s.workers)
    ensures Single(t) && Known(t) && BatchesApart(t.workers)
    decreases |acts|
  {
    if acts != [] {
      ActionKeepsSingle(c, s, acts[0]);
      RunKeepsSingle(c, p, Apply(c, s, acts[0]), acts[1..], t);
    }
  }

  /** Every message is in one place at most, and in the list once at most. */
  ghost predicate OneCopy(s: State) {
    && (forall m, p, q :: D.At(s, m, p) && D.At(s, m, q) ==> p == q)
    && Distinct(s.list)
  }

  lemma SingleIsOneCopy(s: State)
    requires Single(s)
    ensures OneCopy(s)
  {
    forall i, j | 0 <= i < j < |s.list| ensures s.list[i] != s.list[j] {
      if s.list[i] == s.list[j] { assert Holds(s, s.list[i], InList(i)) && Holds(s, s.list[i], InList(j)); }
    }
    forall m, p, q | D.At(s, m, p) && D.At(s, m, q) ensures p == q {
      var x := SpotOf(s, m, p);
      var y := SpotOf(s, m, q);
    }
  }

  lemma SpotOf(s: State, m: Message, p: D.Place) returns (q: Spot)
    requires D.At(s, m, p)
    ensures Holds(s, m, q)
    ensures match p case Listed => q.InList? case Leased(l) => q == InSet(l) case With(w) => q == InHand(w)
  {
    match p {
      case Listed =>
        var i :| 0 <= i < |s.list| && s.list[i] == m;
        q := InList(i);
      case Leased(l) => q := InSet(l);
      case With(w) => q := InHand(w);
    }
  }

  /** No message ever has two copies exactly when reclaimers stay apart and recorded leases are confirmed. */
  lemma OneCopyIff(c: Config, p: Promises)
    ensures (forall s :: Reachable(c, p, s) ==> OneCopy(s)) <==> p.apart && p.confirmed
  {
    if p.apart && p.confirmed {
      forall s | Reachable(c, p, s) ensures OneCopy(s) {
        var init, acts :| Init(init) && Runs(c, p, init, acts, s);
        RunKeepsSingle(c, p, init, acts, s);
        SingleIsOneCopy(s);
      }
    } else {
      var s := F.ListedTwice(c, p, "job");
      assert s.list[0] == s.list[1];
    }
  }

  // ----- fresh stamps for free -----

  /** A delivery's lease is in the processing set unless it was reclaimed. */
  ghost predicate HeldOrReclaimed(s: State) {
    forall w :: w in s.workers && s.workers[w].Working? ==>
      s.workers[w].lease in s.leases || s.workers[w].lease in s.reclaimed
  }

  lemma ActionKeepsHeldOrReclaimed(c: Config, s: State, a: Action)
    requires Enabled(c, s, a) && HeldOrReclaimed(s) && StampsApart(s)
    ensures HeldOrReclaimed(Apply(c, s, a))
  {
    if a.Work? {
      var t := Apply(c, s, a);
      forall v | v in t.workers && t.workers[v].Working?
        ensures t.workers[v].lease in t.leases || t.workers[v].lease in t.reclaimed
      {
        if v != a.w { OthersStay(c, s, a.w, a.step, v); }
      }
    }
  }

  lemma OnlySpot(s: State, m: Message, p: Spot, q: Spot)
    requires Single(s) && Holds(s, m, p)
    ensures p != q ==> !Holds(s, m, q)
  {
  }

  lemma StampIsFresh(c: Config, s: State, a: Action)
    requires Enabled(c, s, a) && c.visibility >= SECOND
    requires Single(s) && HeldOrReclaimed(s) && OnlyDueReclaimed(s)
    ensures FreshStamp(c, s, a)
  {
    if a.Work? && a.step.Stamp? {
      var w, m := a.w, s.workers[a.w].msg;
      var l := Lease(m, s.now + c.visibility);
      OnlySpot(s, m, InHand(w), InSet(l));
      DueExactly(l, s.now);
      forall v | v in s.workers && HasStamp(s.workers[v]) ensures s.workers[v].lease != l {
        OnlySpot(s, m, InHand(w), InHand(v));
      }
    }
  }

  lemma {:induction false} RunStampsFreshly(c: Config, p: Promises, s: State, acts: seq<Action>, t: State)
    requires p.apart && p.confirmed && c.visibility >= SECOND && Runs(c, p, s, acts, t)
    requires Single(s) && Known(s) && BatchesApart(s.workers) && StampsApart(s) && HeldOrReclaimed(s) && OnlyDueReclaimed(s)
    ensures Runs(c, p.(freshStamps := true), s, acts, t)
    decreases |acts|
  {
    if acts != [] {
      StampIsFresh(c, s, acts[0]);
      ActionKeepsSingle(c, s, acts[0]);
      ActionKeepsStampsApart(c, s, acts[0]);
      ActionKeepsHeldOrReclaimed(c, s, acts[0]);
      ActionKeepsDue(c, s, acts[0]);
      RunStampsFreshly(c, p, Apply(c, s, acts[0]), acts[1..], t);
    }
  }

  /** With at most one copy of each message no two deliveries can share a stamp. */
  lemma FreshStampsForFree(c: Config, p: Promises, s: State)
    requires p.apart && p.confirmed && c.visibility >= SECOND && Reachable(c, p, s)
    ensures Reachable(c, p.(freshStamps := true), s)
  {
    var init, acts :| Init(init) && Runs(c, p, init, acts, s);
    RunStampsFreshly(c, p, init, acts, s);
  }
}
