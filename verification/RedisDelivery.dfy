/** At-least-once delivery: every message pushed has a copy somewhere until one of its leases is acknowledged. */
module RedisDelivery {
  import opened Jobs
  import opened RedisSystem

  /** Where a copy of a message is. */
  datatype Place = Listed | Leased(lease: Lease) | With(w: nat)

  ghost predicate At(s: State, m: Message, p: Place) {
    match p
    case Listed => m in s.list
    case Leased(l) => l in s.leases && l.msg == m
    case With(w) => w in s.workers && Carried(s.workers[w]) == Some(m)
  }

  ghost predicate HasCopy(s: State, m: Message) { exists p :: At(s, m, p) }

  ghost predicate Accounted(s: State, m: Message) { m in s.acked || m in s.lost }

  /** A message is settled, or the copy at a place is still there or has moved on. */
  lemma StepMovesCopy(c: Config, s: State, w: nat, a: Step, m: Message, p: Place) returns (q: Place)
    requires StepEnabled(c, s, w, a) && At(s, m, p)
    ensures Accounted(StepApply(c, s, w, a), m) || At(StepApply(c, s, w, a), m, q)
  {
    var t, wk := StepApply(c, s, w, a), s.workers[w];
    q := p;
    match p {
      case Listed =>
        if a.TakeTail? && m == s.list[|s.list| - 1] {
          q := With(w);
        } else if a.TakeTail? || (a.Lose? && wk.Waiting? && m != s.list[|s.list| - 1]) {
          var i :| 0 <= i < |s.list| && s.list[i] == m;
          assert t.list[i] == m;
        }
      case Leased(l) =>
        if a.Remove? && wk.batch[0] == l { q := With(w); }
      case With(v) =>
        if v == w {
          q := if a.Relist? || a.PutBack? then Listed else if a.Hold? then Leased(wk.lease) else With(w);
        }
    }
  }

  lemma MovesCopy(c: Config, s: State, a: Action, m: Message, p: Place) returns (q: Place)
    requires Enabled(c, s, a) && At(s, m, p)
    ensures Accounted(Apply(c, s, a), m) || At(Apply(c, s, a), m, q)
  {
    if a.Work? {
      q := StepMovesCopy(c, s, a.w, a.step, m, p);
    } else {
      q := p;
    }
  }

  /** Every message pushed has a copy, or a lease of it was acknowledged, or a failure lost a copy. */
  ghost predicate AllCovered(s: State) {
    forall m :: m in s.pushed ==> Accounted(s, m) || HasCopy(s, m)
  }

  lemma SettledStays(c: Config, s: State, a: Action, m: Message)
    requires Enabled(c, s, a) && Accounted(s, m)
    ensures Accounted(Apply(c, s, a), m)
  {
  }

  lemma ActionCovers(c: Config, s: State, a: Action)
    requires Enabled(c, s, a) && AllCovered(s)
    ensures AllCovered(Apply(c, s, a))
  {
    var t := Apply(c, s, a);
    forall m | m in t.pushed && !Accounted(t, m) ensures HasCopy(t, m) {
      if m !in s.pushed {
        assert At(t, m, Listed);
      } else {
        if Accounted(s, m) { SettledStays(c, s, a, m); }
        var p :| At(s, m, p);
        var q := MovesCopy(c, s, a, m, p);
      }
    }
  }

  lemma {:induction false} RunCovers(c: Config, p: Promises, s: State, acts: seq<Action>, t: State)
    requires Runs(c, p, s, acts, t) && AllCovered(s)
    ensures AllCovered(t)
    decreases |acts|
  {
    if acts != [] {
      ActionCovers(c, s, acts[0]);
      RunCovers(c, p, Apply(c, s, acts[0]), acts[1..], t);
    }
  }

  /** Over every run, whatever fails: a message without a copy was acknowledged or lost a copy in a failure. */
  lemma NoCopyVanishes(c: Config, p: Promises, t: State, m: Message)
    requires Reachable(c, p, t) && m in t.pushed
    ensures HasCopy(t, m) || m in t.acked || m in t.lost
  {
    var s, acts :| Init(s) && Runs(c, p, s, acts, t);
    RunCovers(c, p, s, acts, t);
  }

  lemma {:induction false} LosslessRunLosesNothing(c: Config, p: Promises, s: State, acts: seq<Action>, t: State)
    requires p.lossless && Runs(c, p, s, acts, t)
    ensures t.lost == s.lost
    decreases |acts|
  {
    if acts != [] {
      LosslessRunLosesNothing(c, p, Apply(c, s, acts[0]), acts[1..], t);
    }
  }

  /**
   At least once: when no failure hits a hand-over, every message pushed and not acknowledged has a copy
   in the list, in the processing set or in the hands of a worker moving it.
   */
  lemma AtLeastOnce(c: Config, p: Promises, t: State, m: Message)
    requires p.lossless && Reachable(c, p, t) && m in t.pushed && m !in t.acked
    ensures HasCopy(t, m)
  {
    NoCopyVanishes(c, p, t, m);
    var s, acts :| Init(s) && Runs(c, p, s, acts, t);
    LosslessRunLosesNothing(c, p, s, acts, t);
  }
}
