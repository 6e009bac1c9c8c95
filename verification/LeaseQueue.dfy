/**
 The Redis queue with operations run one at a time: a list pushed at the head and popped at the tail,
 and a sorted set of leased payloads scored by the whole second their lease ends.
 */
module LeaseQueue {
  import opened Jobs
  import opened Sorting

  const BATCH_LIMIT := 25

  /** A sorted set member and its score. */
  datatype Lease = Lease(member: Payload, score: nat)

  datatype Queue = Queue(list: seq<Payload>, leases: seq<Lease>) {
    function Len(): nat { |list| + |leases| }
  }

  function Members(leases: seq<Lease>): (ps: seq<Payload>)
    ensures |ps| == |leases| && forall i :: 0 <= i < |ps| ==> ps[i] == leases[i].member
  {
    if leases == [] then [] else [leases[0].member] + Members(leases[1..])
  }

  /** A sorted set without one member. */
  function Unleased(leases: seq<Lease>, p: Payload): (r: seq<Lease>)
    ensures forall l :: l in r <==> l in leases && l.member != p
    ensures |r| <= |leases|
  {
    if leases == [] then []
    else (if leases[0].member == p then [] else [leases[0]]) + Unleased(leases[1..], p)
  }

  // ----- what a payload says -----

  function NameOf(p: Payload): MessageID {
    if p.Json? then p.job.messageID else NoMessage
  }

  /** A payload without its lease: what a message stays through every hand-over once it has a name. */
  function Unstamped(p: Payload): Payload {
    if p.Json? then Json(p.job.(leaseUntil := ZERO_TIME)) else p
  }

  /** A job without its identifier and lease. */
  function Body(job: Job): Job { job.(messageID := NoMessage, leaseUntil := ZERO_TIME) }

  /** The payload a popped job is leased under; a nameless message is given its name here. */
  function Stamped(p: Payload, uuid: nat, leaseUntil: Time): Payload {
    if p.Malformed? then p
    else Json(p.job.(messageID := if p.job.messageID == NoMessage then Uuid(uuid) else p.job.messageID,
                     leaseUntil := leaseUntil))
  }

  /** The sorted set member a message identifier names, if it is the text of one. */
  function MemberNamed(m: MessageID): Option<Payload> {
    if m.Text? then Some(m.payload) else None
  }

  // ----- steps on values -----

  /** One expired payload goes back to the head of the list; text that does not decode is removed for good. */
  function Requeued(q: Queue, p: Payload): Queue {
    var rest := Unleased(q.leases, p);
    if p.Json? then Queue([Unstamped(p)] + q.list, rest) else q.(leases := rest)
  }

  function RequeuedAll(q: Queue, batch: seq<Payload>): Queue
    decreases |batch|
  {
    if batch == [] then q else RequeuedAll(Requeued(q, batch[0]), batch[1..])
  }

  /** The member's lease has run out at this instant, both cut to whole seconds. */
  ghost predicate Expired(leases: seq<Lease>, p: Payload, now: Time) {
    exists l :: l in leases && l.member == p && l.score <= UnixSeconds(now)
  }

  ghost predicate ExpiredDuring(leases: seq<Lease>, p: Payload, turns: seq<Time>) {
    exists now :: now in turns && Expired(leases, p, now)
  }

  // ----- history -----

  /**
   What has happened so far: payloads in the order they were pushed and delivered, the payloads ever put
   back into the list, and the messages pushed, acknowledged, and dropped as undecodable.
   */
  datatype History = History(log: seq<Payload>, delivered: seq<Payload>, returned: set<Payload>,
                             pushed: multiset<Payload>, acked: multiset<Payload>, dropped: multiset<Payload>)

  /** The messages among payloads. */
  function Messages(ps: seq<Payload>): multiset<Payload> {
    if ps == [] then multiset{} else multiset{Unstamped(ps[0])} + Messages(ps[1..])
  }

  function Outstanding(q: Queue): multiset<Payload> {
    Messages(q.list) + Messages(Members(q.leases))
  }

  function Gone(h: History): multiset<Payload> { h.acked + h.dropped }

  /** The payloads that were never put back. */
  function Never(ps: seq<Payload>, returned: set<Payload>): seq<Payload> {
    if ps == [] then [] else (if ps[0] in returned then [] else [ps[0]]) + Never(ps[1..], returned)
  }

  /** Everything pushed is listed, leased, acknowledged or dropped: nothing is lost and nothing is made up. */
  ghost predicate Accounted(q: Queue, h: History) {
    h.pushed == Outstanding(q) + Gone(h)
  }

  /** What was never put back is delivered in the order it was pushed. */
  ghost predicate InOrder(q: Queue, h: History) {
    Never(h.log, h.returned) == Never(h.delivered, h.returned) + Reverse(Never(q.list, h.returned))
  }

  /** No named message is outstanding twice. */
  ghost predicate Once(messages: multiset<Payload>) {
    forall p :: p in messages && NameOf(p) != NoMessage ==> messages[p] == 1
  }

  /** A sorted set has each member once, and what this queue leases has a name. */
  ghost predicate SortedSet(leases: seq<Lease>) {
    && Distinct(Members(leases))
    && (forall l :: l in leases && l.member.Json? ==> NameOf(l.member) != NoMessage)
  }

  ghost predicate Sound(q: Queue, h: History) {
    Accounted(q, h) && InOrder(q, h) && Once(Outstanding(q)) && SortedSet(q.leases)
  }

  function NewHistory(q: Queue): History {
    History(Reverse(q.list), [], {}, Outstanding(q), multiset{}, multiset{})
  }

  /** No message bears this identifier yet. */
  ghost predicate Unused(q: Queue, m: MessageID) {
    forall p :: p in Outstanding(q) ==> NameOf(p) != m
  }

  // ----- lemmas about the vocabulary -----

  lemma {:induction false} MessagesAppend(a: seq<Payload>, b: seq<Payload>)
    ensures Messages(a + b) == Messages(a) + Messages(b)
  {
    if a == [] {
      assert a + b == b;
    } else {
      assert (a + b)[1..] == a[1..] + b;
      MessagesAppend(a[1..], b);
    }
  }

  lemma MessagesOfOne(p: Payload)
    ensures Messages([p]) == multiset{Unstamped(p)}
  {
  }

  lemma {:induction false} MessagesHas(ps: seq<Payload>, p: Payload)
    requires p in ps
    ensures Unstamped(p) in Messages(ps)
  {
    if p != ps[0] { MessagesHas(ps[1..], p); }
  }

  lemma {:induction false} UnleasedAbsent(leases: seq<Lease>, p: Payload)
    requires forall l :: l in leases ==> l.member != p
    ensures Unleased(leases, p) == leases
  {
    if leases != [] {
      UnleasedAbsent(leases[1..], p);
      assert leases == [leases[0]] + leases[1..];
    }
  }

  /** Removing a member takes exactly its own message away. */
  lemma {:induction false} MessagesUnleased(leases: seq<Lease>, p: Payload)
    requires Distinct(Members(leases)) && p in Members(leases)
    ensures Messages(Members(leases)) == Messages(Members(Unleased(leases, p))) + multiset{Unstamped(p)}
    ensures |Unleased(leases, p)| == |leases| - 1
  {
    var head, tail := leases[0], leases[1..];
    assert leases == [head] + tail;
    MessagesOfCons(head, tail);
    MembersOfTail(leases);
    if head.member == p {
      UnleasedAbsent(tail, p);
      assert Unleased(leases, p) == tail;
    } else {
      MessagesUnleased(tail, p);
      MessagesOfCons(head, Unleased(tail, p));
      assert Unleased(leases, p) == [head] + Unleased(tail, p);
    }
  }

  lemma {:induction false} MessagesOfCons(l: Lease, leases: seq<Lease>)
    ensures Messages(Members([l] + leases)) == multiset{Unstamped(l.member)} + Messages(Members(leases))
  {
    assert Members([l] + leases)[1..] == Members(leases);
  }

  lemma {:induction false} MembersOfTail(leases: seq<Lease>)
    requires Distinct(Members(leases)) && leases != []
    ensures Distinct(Members(leases[1..])) && forall l :: l in leases[1..] ==> l.member != leases[0].member
    ensures forall p :: p in Members(leases) ==> p == leases[0].member || p in Members(leases[1..])
  {
    var ps := Members(leases);
    assert ps[1..] == Members(leases[1..]);
    forall i, j | 0 <= i < j < |ps[1..]| ensures ps[1..][i] != ps[1..][j] {
      assert ps[i + 1] != ps[j + 1];
    }
    forall l | l in leases[1..] ensures l.member != leases[0].member {
      var i :| 0 <= i < |leases[1..]| && leases[1..][i] == l;
      assert ps[i + 1] == l.member;
    }
  }

  lemma {:induction false} UnleasedDistinct(leases: seq<Lease>, p: Payload)
    requires Distinct(Members(leases))
    ensures Distinct(Members(Unleased(leases, p)))
  {
    if leases != [] {
      var ps, rest := Members(leases), Unleased(leases[1..], p);
      forall i, j | 0 <= i < j < |ps[1..]| ensures Members(leases[1..])[i] != Members(leases[1..])[j] {
        assert ps[i + 1] != ps[j + 1];
      }
      UnleasedDistinct(leases[1..], p);
      forall k | 0 <= k < |rest| ensures Members(rest)[k] != ps[0] {
        assert rest[k] in leases[1..];
        var i :| 0 <= i < |leases[1..]| && leases[1..][i] == rest[k];
        assert ps[i + 1] != ps[0];
      }
      assert leases[0].member != p ==> Members([leases[0]] + rest) == [ps[0]] + Members(rest);
    }
  }

  lemma {:induction false} NeverAppend(a: seq<Payload>, b: seq<Payload>, returned: set<Payload>)
    ensures Never(a + b, returned) == Never(a, returned) + Never(b, returned)
  {
    if a == [] {
      assert a + b == b;
    } else {
      assert (a + b)[1..] == a[1..] + b;
      NeverAppend(a[1..], b, returned);
    }
  }

  lemma {:induction false} NeverMore(ps: seq<Payload>, returned: set<Payload>, p: Payload)
    ensures Never(ps, returned + {p}) == Without(Never(ps, returned), p)
  {
    if ps != [] {
      NeverMore(ps[1..], returned, p);
      var rest := Never(ps[1..], returned);
      assert ([ps[0]] + rest)[1..] == rest;
      assert [] + rest == rest;
    }
  }

  lemma {:induction false} NeverReverse(ps: seq<Payload>)
    ensures Never(ps, {}) == ps
  {
    if ps != [] { NeverReverse(ps[1..]); }
  }

  /** Putting a payload back leaves the order of the others as it was. */
  lemma ReturnKeepsOrder(q: Queue, h: History, list: seq<Payload>, p: Payload)
    requires InOrder(q, h) && (list == [p] + q.list)
    ensures InOrder(q.(list := list), h.(returned := h.returned + {p}))
  {
    var r := h.returned + {p};
    NeverMore(h.log, h.returned, p);
    NeverMore(h.delivered, h.returned, p);
    NeverMore(q.list, h.returned, p);
    assert list[1..] == q.list;
    assert Never(list, r) == Never(q.list, r);
    WithoutAppend(Never(h.delivered, h.returned), Reverse(Never(q.list, h.returned)), p);
    WithoutReverse(Never(q.list, h.returned), p);
  }

  // ----- every step keeps the invariant -----

  lemma StartIsSound(q: Queue)
    requires Once(Outstanding(q)) && SortedSet(q.leases)
    ensures Sound(q, NewHistory(q))
  {
    NeverReverse(q.list);
    NeverReverse(Reverse(q.list));
  }

  function PushedHistory(h: History, p: Payload): History {
    h.(log := h.log + [p], pushed := h.pushed + multiset{p})
  }

  /** A message leaves the outstanding ones for the acknowledged or the dropped ones. */
  lemma Settled(pushed: multiset<Payload>, before: multiset<Payload>, after: multiset<Payload>, m: Payload,
                acked: multiset<Payload>, dropped: multiset<Payload>)
    requires pushed == before + (acked + dropped) && before == after + multiset{m} && Once(before)
    ensures pushed == after + (acked + multiset{m} + dropped)
    ensures pushed == after + (acked + (dropped + multiset{m}))
    ensures Once(after)
  {
  }

  /** A message goes on under another identity, or under the same. */
  lemma Renamed(pushed: multiset<Payload>, out: multiset<Payload>, gone: multiset<Payload>, m: Payload, n: Payload)
    requires pushed == out + gone && m in out && (n == m || n !in out) && Once(out)
    ensures pushed - multiset{m} + multiset{n} == out - multiset{m} + multiset{n} + gone
    ensures Once(out - multiset{m} + multiset{n})
  {
  }

  lemma PushKeepsSound(q: Queue, h: History, p: Payload)
    requires Sound(q, h) && p == Unstamped(p) && NameOf(p) != NoMessage && p !in Outstanding(q)
    ensures Sound(q.(list := [p] + q.list), PushedHistory(h, p))
  {
    var t := q.(list := [p] + q.list);
    PushAddsMessage(q, p);
    Added(h.pushed, Outstanding(q), Outstanding(t), Gone(h), p);
    PushKeepsOrder(q, h, p);
  }

  lemma PushKeepsOrder(q: Queue, h: History, p: Payload)
    requires InOrder(q, h)
    ensures InOrder(q.(list := [p] + q.list), PushedHistory(h, p))
  {
    var done, left, last := Never(h.delivered, h.returned), Never(q.list, h.returned), Never([p], h.returned);
    NeverAppend(h.log, [p], h.returned);
    NeverAppend([p], q.list, h.returned);
    ReverseAppend(last, left);
    assert last == if p in h.returned then [] else [p] by { assert [p][1..] == []; }
    assert Reverse(last) == last;
    assert (done + Reverse(left)) + last == done + (Reverse(left) + last);
  }

  /** The payload was added at the head of the list. */
  ghost predicate PushStep(q: Queue, h: History, p: Payload, t: Queue, g: History) {
    t == q.(list := [p] + q.list) && g == PushedHistory(h, p)
  }

  lemma PushStepKeepsSound(q: Queue, h: History, p: Payload, t: Queue, g: History)
    requires Sound(q, h) && p == Unstamped(p) && NameOf(p) != NoMessage && Unused(q, NameOf(p)) && PushStep(q, h, p, t, g)
    ensures Sound(t, g) && t.Len() == q.Len() + 1
  {
    PushKeepsSound(q, h, p);
  }

  lemma PushAddsMessage(q: Queue, p: Payload)
    ensures Outstanding(q.(list := [p] + q.list)) == Outstanding(q) + multiset{Unstamped(p)}
  {
  }

  lemma Added(pushed: multiset<Payload>, before: multiset<Payload>, after: multiset<Payload>, gone: multiset<Payload>,
              m: Payload)
    requires pushed == before + gone && after == before + multiset{m} && m !in before && Once(before)
    ensures pushed + multiset{m} == after + gone
    ensures Once(after)
  {
  }

  function RequeuedHistory(h: History, p: Payload): History {
    if p.Json? then h.(returned := h.returned + {Unstamped(p)}) else h.(dropped := h.dropped + multiset{p})
  }

  lemma RequeueKeepsMessages(q: Queue, p: Payload)
    requires Distinct(Members(q.leases)) && p in Members(q.leases)
    ensures p.Json? ==> Outstanding(q) == Outstanding(Requeued(q, p))
    ensures p.Malformed? ==> Outstanding(q) == Outstanding(Requeued(q, p)) + multiset{p}
    ensures Requeued(q, p).Len() == q.Len() - if p.Json? then 0 else 1
  {
    MessagesUnleased(q.leases, p);
    if p.Json? {
      assert Requeued(q, p).list[1..] == q.list;
    }
  }

  lemma RequeueKeepsSound(q: Queue, h: History, p: Payload)
    requires Sound(q, h) && p in Members(q.leases)
    ensures Sound(Requeued(q, p), RequeuedHistory(h, p))
    ensures Requeued(q, p).Len() == q.Len() - if p.Json? then 0 else 1
  {
    var t := Requeued(q, p);
    RequeueKeepsMessages(q, p);
    UnleasedDistinct(q.leases, p);
    if p.Json? {
      ReturnKeepsOrder(q, h, t.list, Unstamped(p));
    } else {
      Settled(h.pushed, Outstanding(q), Outstanding(t), p, h.acked, h.dropped);
    }
  }

  /** The last list element is taken out; the rest of the list stays. */
  lemma TakeLast(list: seq<Payload>)
    requires list != []
    ensures Messages(list) == Messages(list[..|list| - 1]) + multiset{Unstamped(list[|list| - 1])}
  {
    var last := list[|list| - 1];
    assert list == list[..|list| - 1] + [last];
    MessagesAppend(list[..|list| - 1], [last]);
    MessagesOfOne(last);
  }

  function TakenHistory(h: History, p: Payload): History { h.(delivered := h.delivered + [p]) }

  lemma TakeKeepsOrder(q: Queue, h: History)
    requires InOrder(q, h) && q.list != []
    ensures InOrder(q.(list := q.list[..|q.list| - 1]), TakenHistory(h, q.list[|q.list| - 1]))
  {
    var front, last := q.list[..|q.list| - 1], q.list[|q.list| - 1];
    assert q.list == front + [last];
    NeverAppend(front, [last], h.returned);
    NeverAppend(h.delivered, [last], h.returned);
    ReverseAppend(Never(front, h.returned), Never([last], h.returned));
    assert [last][1..] == [];
    assert Reverse(Never([last], h.returned)) == Never([last], h.returned);
    assert Reverse(Never(q.list, h.returned)) == Never([last], h.returned) + Reverse(Never(front, h.returned));
  }

  /** A popped job moves from the tail of the list to the leases. */
  function Leased(q: Queue, uuid: nat, leaseUntil: Time): Queue
    requires q.list != []
  {
    var p := Stamped(q.list[|q.list| - 1], uuid, leaseUntil);
    Queue(q.list[..|q.list| - 1], Unleased(q.leases, p) + [Lease(p, UnixSeconds(leaseUntil))])
  }

  /** A nameless message is counted from now on under the name it is given. */
  function LeasedHistory(q: Queue, h: History, uuid: nat): History
    requires q.list != []
  {
    var last := q.list[|q.list| - 1];
    TakenHistory(h, last).(pushed := h.pushed - multiset{Unstamped(last)}
                                     + multiset{Stamped(last, uuid, ZERO_TIME)})
  }

  lemma InBoth(a: multiset<Payload>, b: multiset<Payload>, p: Payload)
    ensures p in a && p in b ==> (a + b)[p] >= 2
    ensures p in b ==> p in a + b
  {
  }

  lemma SortedSetGrows(leases: seq<Lease>, l: Lease)
    requires SortedSet(leases) && l.member !in Members(leases) && NameOf(l.member) != NoMessage
    ensures SortedSet(leases + [l])
  {
  }

  /** No lease bears the new stamp yet, so adding it to the sorted set overwrites nothing. */
  lemma StampIsNew(q: Queue, uuid: nat, leaseUntil: Time)
    requires q.list != [] && q.list[|q.list| - 1].Json? && Once(Outstanding(q)) && Unused(q, Uuid(uuid))
    ensures Stamped(q.list[|q.list| - 1], uuid, leaseUntil) !in Members(q.leases)
  {
    var last := q.list[|q.list| - 1];
    var p := Stamped(last, uuid, leaseUntil);
    if p in Members(q.leases) {
      MessagesHas(Members(q.leases), p);
      MessagesHas(q.list, last);
      InBoth(Messages(q.list), Messages(Members(q.leases)), Unstamped(p));
    }
  }

  /** There is a next message, and nothing is leased yet under the stamp it will get. */
  ghost predicate StampFits(q: Queue, uuid: nat, leaseUntil: Time) {
    q.list != [] &&
    (q.list[|q.list| - 1].Json? ==> Stamped(q.list[|q.list| - 1], uuid, leaseUntil) !in Members(q.leases))
  }

  /** Under a stamp that fits, leasing adds to the sorted set and overwrites nothing. */
  lemma LeaseAdds(q: Queue, uuid: nat, leaseUntil: Time)
    requires StampFits(q, uuid, leaseUntil) && q.list[|q.list| - 1].Json?
    ensures
      var p, t := Stamped(q.list[|q.list| - 1], uuid, leaseUntil), Leased(q, uuid, leaseUntil);
      && t.leases == q.leases + [Lease(p, UnixSeconds(leaseUntil))]
      && Members(t.leases) == Members(q.leases) + [p]
      && Unleased(t.leases, p) == q.leases
      && t.Len() == q.Len()
  {
    var p, t := Stamped(q.list[|q.list| - 1], uuid, leaseUntil), Leased(q, uuid, leaseUntil);
    forall k | k in q.leases ensures k.member != p {
      var i :| 0 <= i < |q.leases| && q.leases[i] == k;
      assert Members(q.leases)[i] == k.member;
    }
    UnleasedAbsent(q.leases, p);
    UnleasedLast(q.leases, Lease(p, UnixSeconds(leaseUntil)));
  }

  lemma {:induction false} UnleasedLast(leases: seq<Lease>, l: Lease)
    ensures Unleased(leases + [l], l.member) == Unleased(leases, l.member)
  {
    if leases == [] {
      assert leases + [l] == [l] && [l][1..] == [];
    } else {
      assert (leases + [l])[1..] == leases[1..] + [l];
      UnleasedLast(leases[1..], l);
    }
  }

  lemma LeaseMovesMessage(q: Queue, uuid: nat, leaseUntil: Time)
    requires StampFits(q, uuid, leaseUntil) && q.list[|q.list| - 1].Json?
    ensures
      var last := q.list[|q.list| - 1];
      Unstamped(last) in Outstanding(q) &&
      Outstanding(Leased(q, uuid, leaseUntil)) ==
      Outstanding(q) - multiset{Unstamped(last)} + multiset{Stamped(last, uuid, ZERO_TIME)}
  {
    var p := Stamped(q.list[|q.list| - 1], uuid, leaseUntil);
    TakeLast(q.list);
    LeaseAdds(q, uuid, leaseUntil);
    MessagesAppend(Members(q.leases), [p]);
    MessagesOfOne(p);
  }

  lemma LeaseKeepsSound(q: Queue, h: History, uuid: nat, leaseUntil: Time)
    requires Sound(q, h) && q.list != [] && q.list[|q.list| - 1].Json? && Unused(q, Uuid(uuid))
    ensures Sound(Leased(q, uuid, leaseUntil), LeasedHistory(q, h, uuid))
    ensures StampFits(q, uuid, leaseUntil) && Leased(q, uuid, leaseUntil).Len() == q.Len()
  {
    StampIsNew(q, uuid, leaseUntil);
    LeaseMovesMessage(q, uuid, leaseUntil);
    TakeKeepsOrder(q, h);
    LeaseAdds(q, uuid, leaseUntil);
    var last, t := q.list[|q.list| - 1], Leased(q, uuid, leaseUntil);
    Renamed(h.pushed, Outstanding(q), Gone(h), Unstamped(last), Stamped(last, uuid, ZERO_TIME));
    SortedSetGrows(q.leases, t.leases[|q.leases|]);
    assert Outstanding(t) == Outstanding(q) - multiset{Unstamped(last)} + multiset{Stamped(last, uuid, ZERO_TIME)};
  }

  lemma DropKeepsSound(q: Queue, h: History)
    requires Sound(q, h) && q.list != [] && q.list[|q.list| - 1].Malformed?
    ensures
      var last := q.list[|q.list| - 1];
      Sound(q.(list := q.list[..|q.list| - 1]), TakenHistory(h, last).(dropped := h.dropped + multiset{last}))
  {
    var last, t := q.list[|q.list| - 1], q.(list := q.list[..|q.list| - 1]);
    TakeLast(q.list);
    TakeKeepsOrder(q, h);
    assert Outstanding(q) == Outstanding(t) + multiset{last};
    Settled(h.pushed, Outstanding(q), Outstanding(t), last, h.acked, h.dropped);
  }

  /** A payload popped but not leased goes back, to the other end of the list. */
  lemma PutBackKeepsSound(q: Queue, h: History)
    requires Sound(q, h) && q.list != []
    ensures
      var last := q.list[|q.list| - 1];
      Sound(q.(list := [last] + q.list[..|q.list| - 1]),
            TakenHistory(h, last).(returned := h.returned + {last}))
  {
    var front, last := q.list[..|q.list| - 1], q.list[|q.list| - 1];
    var t := q.(list := [last] + front);
    TakeLast(q.list);
    TakeKeepsOrder(q, h);
    ReturnKeepsOrder(q.(list := front), TakenHistory(h, last), t.list, last);
    assert t.list[1..] == front;
    assert Outstanding(t) == Outstanding(q);
  }

  function AckedHistory(h: History, p: Payload): History { h.(acked := h.acked + multiset{Unstamped(p)}) }

  lemma AckKeepsSound(q: Queue, h: History, p: Payload)
    requires Sound(q, h) && p in Members(q.leases)
    ensures Sound(q.(leases := Unleased(q.leases, p)), AckedHistory(h, p))
    ensures |Unleased(q.leases, p)| == |q.leases| - 1
  {
    var t := q.(leases := Unleased(q.leases, p));
    MessagesUnleased(q.leases, p);
    UnleasedDistinct(q.leases, p);
    assert Outstanding(q) == Outstanding(t) + multiset{Unstamped(p)};
    Settled(h.pushed, Outstanding(q), Outstanding(t), Unstamped(p), h.acked, h.dropped);
  }

  /** The lease was removed and its message counted as acknowledged. */
  ghost predicate AckStep(q: Queue, h: History, p: Payload, t: Queue, g: History) {
    t == q.(leases := Unleased(q.leases, p)) && g == AckedHistory(h, p)
  }

  lemma AckStepKeepsSound(q: Queue, h: History, p: Payload, t: Queue, g: History)
    requires Sound(q, h) && p in Members(q.leases) && AckStep(q, h, p, t, g)
    ensures Sound(t, g) && |t.leases| == |q.leases| - 1
  {
    AckKeepsSound(q, h, p);
  }

  /** Every message pushed is still listed or leased, or was acknowledged or dropped; the counts agree. */
  lemma NothingIsLost(q: Queue, h: History, m: Payload)
    requires Sound(q, h)
    ensures h.pushed[m] == Messages(q.list)[m] + Messages(Members(q.leases))[m] + h.acked[m] + h.dropped[m]
    ensures |h.pushed| == q.Len() + |h.acked| + |h.dropped|
  {
    MessagesCount(q.list);
    MessagesCount(Members(q.leases));
  }

  lemma {:induction false} MessagesCount(ps: seq<Payload>)
    ensures |Messages(ps)| == |ps|
  {
    if ps != [] { MessagesCount(ps[1..]); }
  }

  /** Deliveries of messages never put back are a front part of the pushes of such messages. */
  lemma DeliveredInPushOrder(q: Queue, h: History)
    requires Sound(q, h)
    ensures Never(h.delivered, h.returned) <= Never(h.log, h.returned)
    ensures q.list == [] ==> Never(h.delivered, h.returned) == Never(h.log, h.returned)
  {
  }

  // ----- the queue -----

  function RequeuedAllHistory(h: History, batch: seq<Payload>): History
    decreases |batch|
  {
    if batch == [] then h else RequeuedAllHistory(RequeuedHistory(h, batch[0]), batch[1..])
  }

  /** The first lease with the lowest score. */
  function Lowest(leases: seq<Lease>): (r: Lease)
    requires leases != []
    ensures r in leases && forall l :: l in leases ==> r.score <= l.score
  {
    if |leases| == 1 then leases[0]
    else
      var r := Lowest(leases[1..]);
      if leases[0].score <= r.score then leases[0] else r
  }

  datatype PushResult = Pushed | QueueFull

  datatype PopResult = Delivered(job: Job) | Stopped | Undecodable | LeaseFailed

  /** What becomes of the message at the tail of the list. */
  function Next(q: Queue, uuid: nat, leaseUntil: Time, zaddWorks: bool): (PopResult, Queue)
    requires q.list != []
  {
    var front, last := q.list[..|q.list| - 1], q.list[|q.list| - 1];
    if last.Malformed? then (Undecodable, q.(list := front))
    else if !zaddWorks then (LeaseFailed, q.(list := [last] + front))
    else
      var leased := Stamped(last, uuid, leaseUntil);
      (Delivered(leased.job.(messageID := Text(leased))), Leased(q, uuid, leaseUntil))
  }

  /** The tail of the list and what becomes of it, field by field. */
  ghost predicate TailTaken(q: Queue, uuid: nat, leaseUntil: Time, zaddWorks: bool, r: PopResult, t: Queue) {
    && q.list != []
    && var front, last := q.list[..|q.list| - 1], q.list[|q.list| - 1];
       if last.Malformed? then r == Undecodable && t.list == front && t.leases == q.leases
       else if !zaddWorks then r == LeaseFailed && t.list == [last] + front && t.leases == q.leases
       else
         && r.Delivered? && t.list == front && r.job.messageID.Text?
         && r.job.id == last.job.id && r.job.url == last.job.url && r.job.idempotencyKey == last.job.idempotencyKey
         && r.job.callbackURL == last.job.callbackURL && r.job.requestID == last.job.requestID
         && r.job.leaseUntil == leaseUntil
         && LeasedAs(q, last.job, uuid, leaseUntil, r.job.messageID.payload, t)
  }

  /** The sorted set gained the job under a name and with its lease, scored by the whole second it ends in. */
  ghost predicate LeasedAs(q: Queue, job: Job, uuid: nat, leaseUntil: Time, member: Payload, t: Queue) {
    && member == Json(job.(messageID := if job.messageID == NoMessage then Uuid(uuid) else job.messageID,
                           leaseUntil := leaseUntil))
    && forall l :: l in t.leases <==> l == Lease(member, leaseUntil / SECOND) || (l in q.leases && l.member != member)
  }

  lemma NextIsTaken(q: Queue, uuid: nat, leaseUntil: Time, zaddWorks: bool)
    requires q.list != []
    ensures TailTaken(q, uuid, leaseUntil, zaddWorks, Next(q, uuid, leaseUntil, zaddWorks).0,
                      Next(q, uuid, leaseUntil, zaddWorks).1)
  {
  }

  /** The old list is still there behind what was put back: the batch's jobs, without their leases. */
  ghost predicate PutBack(before: seq<Payload>, batch: seq<Payload>, after: seq<Payload>) {
    && |before| <= |after| && after[|after| - |before|..] == before
    && (forall p :: p in batch && p.Json? ==> Json(p.job.(leaseUntil := ZERO_TIME)) in after)
    && (forall p :: p in after ==> p in before || CameFrom(batch, p))
  }

  ghost predicate CameFrom(batch: seq<Payload>, p: Payload) {
    exists b :: b in batch && b.Json? && p == Json(b.job.(leaseUntil := ZERO_TIME))
  }

  /** One payload put back, and then the rest of the batch. */
  lemma PutBackAfter(before: seq<Payload>, b: Payload, mid: seq<Payload>, rest: seq<Payload>, after: seq<Payload>)
    requires mid == (if b.Json? then [Unstamped(b)] + before else before) && PutBack(mid, rest, after)
    ensures PutBack(before, [b] + rest, after)
  {
    assert before == mid[|mid| - |before|..];
    assert after[|after| - |before|..] == after[|after| - |mid|..][|mid| - |before|..];
    if b.Json? { assert after[|after| - |mid|..][0] == mid[0] == Unstamped(b); }
    forall p | p in after ensures p in before || CameFrom([b] + rest, p) {
      CameFromMore(b, rest, p);
    }
  }

  lemma CameFromMore(b: Payload, rest: seq<Payload>, p: Payload)
    ensures CameFrom(rest, p) ==> CameFrom([b] + rest, p)
    ensures b.Json? && p == Unstamped(b) ==> CameFrom([b] + rest, p)
  {
    if CameFrom(rest, p) {
      var x :| x in rest && x.Json? && p == Json(x.job.(leaseUntil := ZERO_TIME));
      assert x in [b] + rest;
    } else if b.Json? && p == Unstamped(b) {
      assert b in [b] + rest;
    }
  }

  lemma {:induction false} RequeuedArePutBack(q: Queue, batch: seq<Payload>)
    ensures PutBack(q.list, batch, RequeuedAll(q, batch).list)
    decreases |batch|
  {
    if batch != [] {
      var q' := Requeued(q, batch[0]);
      RequeuedArePutBack(q', batch[1..]);
      PutBackAfter(q.list, batch[0], q'.list, batch[1..], RequeuedAll(q', batch[1..]).list);
      assert batch == [batch[0]] + batch[1..];
    }
  }

  function NextHistory(q: Queue, h: History, uuid: nat, zaddWorks: bool): History
    requires q.list != []
  {
    var last := q.list[|q.list| - 1];
    if last.Malformed? then TakenHistory(h, last).(dropped := h.dropped + multiset{last})
    else if !zaddWorks then TakenHistory(h, last).(returned := h.returned + {last})
    else LeasedHistory(q, h, uuid)
  }

  /**
   Popping keeps the books; the job delivered is the one pushed, and its identifier names a lease nobody
   held before, so acknowledging it removes that lease and no other.
   */
  lemma NextKeepsSound(q: Queue, h: History, uuid: nat, leaseUntil: Time, zaddWorks: bool)
    requires Sound(q, h) && q.list != [] && Unused(q, Uuid(uuid))
    ensures Sound(Next(q, uuid, leaseUntil, zaddWorks).1, NextHistory(q, h, uuid, zaddWorks))
    ensures Next(q, uuid, leaseUntil, zaddWorks).1.Len() + |NextHistory(q, h, uuid, zaddWorks).dropped|
            == q.Len() + |h.dropped|
    ensures StampFits(q, uuid, leaseUntil)
  {
    if q.list[|q.list| - 1].Malformed? {
      DropKeepsSound(q, h);
    } else if !zaddWorks {
      PutBackKeepsSound(q, h);
      StampIsNew(q, uuid, leaseUntil);
    } else {
      LeaseKeepsSound(q, h, uuid, leaseUntil);
      StampIsNew(q, uuid, leaseUntil);
    }
  }

  /** The tail of the list was taken, with this result and this state and history after it. */
  ghost predicate NextStep(q: Queue, h: History, uuid: nat, leaseUntil: Time, zaddWorks: bool,
                           r: PopResult, t: Queue, g: History)
  {
    q.list != [] && (r, t) == Next(q, uuid, leaseUntil, zaddWorks) && g == NextHistory(q, h, uuid, zaddWorks)
  }

  /** The reclaimed payloads were put back, and then the tail of the list was taken unless Pop stopped. */
  ghost predicate PopStep(q: Queue, h: History, reclaimed: seq<Payload>, uuid: nat, leaseUntil: Time, zaddWorks: bool,
                          r: PopResult, t: Queue, g: History)
  {
    var (q', h') := (RequeuedAll(q, reclaimed), RequeuedAllHistory(h, reclaimed));
    if r.Stopped? then t == q' && g == h' else NextStep(q', h', uuid, leaseUntil, zaddWorks, r, t, g)
  }

  lemma NextStepKeepsSound(q: Queue, h: History, uuid: nat, leaseUntil: Time, zaddWorks: bool,
                           r: PopResult, t: Queue, g: History)
    requires Sound(q, h) && Unused(q, Uuid(uuid)) && NextStep(q, h, uuid, leaseUntil, zaddWorks, r, t, g)
    ensures Sound(t, g) && t.Len() + |g.dropped| == q.Len() + |h.dropped|
  {
    NextKeepsSound(q, h, uuid, leaseUntil, zaddWorks);
  }

  lemma DeliveryNamesItsLease(q: Queue, uuid: nat, leaseUntil: Time)
    requires StampFits(q, uuid, leaseUntil) && q.list[|q.list| - 1].Json?
    ensures
      var (r, t) := Next(q, uuid, leaseUntil, true);
      var added := t.leases[|t.leases| - 1];
      && r.Delivered? && Body(r.job) == Body(q.list[|q.list| - 1].job) && r.job.leaseUntil == leaseUntil
      && MemberNamed(r.job.messageID) == Some(added.member) && added.score == UnixSeconds(leaseUntil)
      && Unleased(t.leases, added.member) == q.leases
  {
    LeaseAdds(q, uuid, leaseUntil);
  }

  class RedisQueue {
    var list: seq<Payload>
    var leases: seq<Lease>
    const capacity: int
    const visibilityTimeout: nat
    ghost var history: History

    function View(): Queue reads this`list, this`leases { Queue(list, leases) }

    ghost predicate Valid() reads this {
      Sound(View(), history) && visibilityTimeout > 0
    }

    /** Takes up whatever the two keys hold. */
    constructor (list: seq<Payload>, leases: seq<Lease>, capacity: int, visibilityTimeout: int)
      requires Once(Outstanding(Queue(list, leases))) && SortedSet(leases)
      ensures Valid() && View() == Queue(list, leases) && history == NewHistory(View())
      ensures this.capacity == capacity
      ensures this.visibilityTimeout == if visibilityTimeout <= 0 then 300 * SECOND else visibilityTimeout
    {
      this.list, this.leases, this.capacity := list, leases, capacity;
      this.visibilityTimeout := if visibilityTimeout <= 0 then 300 * SECOND else visibilityTimeout;
      history := NewHistory(Queue(list, leases));
      StartIsSound(Queue(list, leases));
    }

    /** LLEN plus ZCARD. */
    method Len() returns (n: nat)
      ensures n == View().Len()
    {
      n := |list| + |leases|;
    }

    /** Full queues refuse; otherwise the job goes to the head of the list, unleased and under a name. */
    method Push(job: Job, uuid: nat) returns (r: PushResult)
      requires Valid() && Unused(View(), Uuid(uuid))
      requires job.messageID != NoMessage ==> Unused(View(), job.messageID)
      modifies this
      ensures Valid()
      ensures r == if 0 < capacity <= old(View().Len()) then QueueFull else Pushed
      ensures r == QueueFull ==> View() == old(View()) && history == old(history)
      ensures r == Pushed ==>
                PushStep(old(View()), old(history), Stamped(Json(job), uuid, ZERO_TIME), View(), history)
      ensures r == Pushed ==>
                && leases == old(leases)
                && list == [Json(job.(messageID := if job.messageID == NoMessage then Uuid(uuid) else job.messageID,
                                      leaseUntil := ZERO_TIME))] + old(list)
      ensures capacity > 0 && old(View().Len()) <= capacity ==> View().Len() <= capacity
    {
      if capacity > 0 {
        var depth := Len();
        if depth >= capacity { return QueueFull; }
      }
      var data := job;
      if data.messageID == NoMessage { data := data.(messageID := Uuid(uuid)); }
      data := data.(leaseUntil := ZERO_TIME);
      ghost var q, h := View(), history;
      list := [Json(data)] + list;
      history := PushedHistory(history, Json(data));
      PushStepKeepsSound(q, h, Json(data), View(), history);
      r := Pushed;
    }

    /** Up to 25 members with a score of at most now in whole seconds, lowest scores first. */
    method ZRangeByScore(now: Time) returns (batch: seq<Payload>)
      requires Valid()
      ensures |batch| <= BATCH_LIMIT && Distinct(batch)
      ensures forall p :: p in batch ==> p in Members(leases) && Expired(leases, p, now)
      ensures |batch| < BATCH_LIMIT ==> forall l :: l in leases && l.member !in batch ==> l.score > UnixSeconds(now)
      ensures forall k, l :: k in leases && l in leases && k.member in batch && l.member !in batch ==> k.score <= l.score
    {
      batch := [];
      var rest := leases;
      while |batch| < BATCH_LIMIT && rest != []
        invariant |batch| <= BATCH_LIMIT && Distinct(batch)
        invariant forall l :: l in rest <==> l in leases && l.member !in batch
        invariant forall p :: p in batch ==> p in Members(leases) && Expired(leases, p, now)
        invariant forall k, l :: k in leases && l in rest && k.member in batch ==> k.score <= l.score
        decreases BATCH_LIMIT - |batch|
      {
        var l := Lowest(rest);
        if l.score > UnixSeconds(now) { break; }
        SameMember(leases, l);
        batch := batch + [l.member];
        rest := Unleased(rest, l.member);
      }
    }

    /** Puts one batch of expired leases back; unless the batch is full, none that has expired is left. */
    method RequeueExpired(now: Time) returns (batch: seq<Payload>)
      requires Valid()
      modifies this
      ensures Valid() && |batch| <= 25
      ensures View() == RequeuedAll(old(View()), batch) && history == RequeuedAllHistory(old(history), batch)
      ensures forall p :: p in batch ==> Expired(old(leases), p, now)
      ensures forall l :: l in leases <==> l in old(leases) && l.member !in batch
      ensures |batch| < 25 ==> forall l :: l in leases ==> l.score > UnixSeconds(now)
      ensures View().Len() + |history.dropped| == old(View().Len() + |history.dropped|)
      ensures Outstanding(View()) <= old(Outstanding(View()))
    {
      batch := ZRangeByScore(now);
      RequeueAllAddsNothing(View(), batch);
      RequeueAllKeepsSound(View(), history, batch);
      for i := 0 to |batch|
        invariant RequeuedAll(old(View()), batch) == RequeuedAll(View(), batch[i..])
        invariant RequeuedAllHistory(old(history), batch) == RequeuedAllHistory(history, batch[i..])
      {
        var payload := batch[i];
        assert batch[i..][1..] == batch[i + 1..];
        history := RequeuedHistory(history, payload);
        leases := Unleased(leases, payload);
        if payload.Json? {
          list := [Unstamped(payload)] + list;
        }
      }
    }

    /** Takes the tail of the list and leases it; if that fails, the payload goes back to the list. */
    method LeaseNext(uuid: nat, now: Time, zaddWorks: bool) returns (r: PopResult)
      requires list != []
      modifies this
      ensures NextStep(old(View()), old(history), uuid, now + visibilityTimeout, zaddWorks, r, View(), history)
      ensures !r.Stopped?
    {
      history := NextHistory(View(), history, uuid, zaddWorks);
      var payload := list[|list| - 1];
      list := list[..|list| - 1];
      if payload.Malformed? { return Undecodable; }
      var job := payload.job;
      if job.messageID == NoMessage { job := job.(messageID := Uuid(uuid)); }
      job := job.(leaseUntil := now + visibilityTimeout);
      var leased := Json(job);
      if !zaddWorks {
        list := [payload] + list;
        return LeaseFailed;
      }
      ZAdd(leased, UnixSeconds(job.leaseUntil));
      r := Delivered(job.(messageID := Text(leased)));
    }

    /** Adds a member to the sorted set, or changes its score. */
    method ZAdd(member: Payload, score: nat)
      modifies this`leases
      ensures leases == Unleased(old(leases), member) + [Lease(member, score)]
    {
      leases := Unleased(leases, member) + [Lease(member, score)];
    }

    method DeliverNext(uuid: nat, leasedAt: Time, zaddWorks: bool) returns (r: PopResult)
      requires Valid() && Unused(View(), Uuid(uuid)) && list != []
      modifies this
      ensures Valid() && !r.Stopped?
      ensures NextStep(old(View()), old(history), uuid, leasedAt + visibilityTimeout, zaddWorks, r, View(), history)
      ensures View().Len() + |history.dropped| == old(View().Len() + |history.dropped|)
    {
      ghost var q, h, until := View(), history, leasedAt + visibilityTimeout;
      r := LeaseNext(uuid, leasedAt, zaddWorks);
      NextStepKeepsSound(q, h, uuid, until, zaddWorks, r, View(), history);
    }

    /** One turn of Pop: puts expired leases back, then takes the tail of the list if there is one. */
    method Turn(now: Time, uuid: nat, leasedAt: Time, zaddWorks: bool) returns (r: PopResult, batch: seq<Payload>)
      requires Valid() && Unused(View(), Uuid(uuid))
      modifies this
      ensures Valid()
      ensures forall p :: p in batch ==> Expired(old(leases), p, now)
      ensures PopStep(old(View()), old(history), batch, uuid, leasedAt + visibilityTimeout, zaddWorks, r, View(), history)
      ensures r.Stopped? ==> list == [] && Unused(View(), Uuid(uuid)) && forall l :: l in leases ==> l in old(leases)
      ensures View().Len() + |history.dropped| == old(View().Len() + |history.dropped|)
    {
      batch := RequeueExpired(now);
      if list == [] { return Stopped, batch; }
      r := DeliverNext(uuid, leasedAt, zaddWorks);
    }

    /**
     Each turn puts expired leases back and then waits for the tail of the list; the first message met is
     leased and returned.  When the turns are used up, the context is done.
     */
    method Pop(turns: seq<Time>, uuid: nat, leasedAt: Time, zaddWorks: bool)
      returns (r: PopResult, reclaimed: seq<Payload>)
      requires Valid() && Unused(View(), Uuid(uuid))
      modifies this
      ensures Valid()
      ensures forall p :: p in reclaimed ==> ExpiredDuring(old(leases), p, turns)
      ensures PopStep(old(View()), old(history), reclaimed, uuid, leasedAt + visibilityTimeout, zaddWorks,
                      r, View(), history)
      ensures r.Stopped? && turns != [] ==> list == []
      ensures View().Len() + |history.dropped| == old(View().Len() + |history.dropped|)
    {
      reclaimed := [];
      for i := 0 to |turns|
        invariant Valid() && Unused(View(), Uuid(uuid))
        invariant View() == RequeuedAll(old(View()), reclaimed)
        invariant history == RequeuedAllHistory(old(history), reclaimed)
        invariant i > 0 ==> list == []
        invariant forall l :: l in leases ==> l in old(leases)
        invariant forall p :: p in reclaimed ==> ExpiredDuring(old(leases), p, turns)
        invariant View().Len() + |history.dropped| == old(View().Len() + |history.dropped|)
      {
        var batch;
        r, batch := Turn(turns[i], uuid, leasedAt, zaddWorks);
        forall p | p in batch ensures ExpiredDuring(old(leases), p, turns) {
          assert Expired(old(leases), p, turns[i]);
        }
        RequeuedAllAppend(old(View()), old(history), reclaimed, batch);
        reclaimed := reclaimed + batch;
        if !r.Stopped? { return; }
      }
      r := Stopped;
    }

    /** Removes the lease the job was delivered under, if it still stands; a stale acknowledgement does nothing. */
    method Ack(job: Job)
      requires Valid()
      modifies this
      ensures Valid() && list == old(list)
      ensures forall l :: l in leases <==> l in old(leases) && Text(l.member) != job.messageID
      ensures
        var m := MemberNamed(job.messageID);
        if m.Some? && m.value in Members(old(leases))
        then AckStep(old(View()), old(history), m.value, View(), history) && |leases| == |old(leases)| - 1
        else leases == old(leases) && history == old(history)
    {
      if job.messageID == NoMessage { return; }
      var m := MemberNamed(job.messageID);
      if m.Some? && m.value in Members(leases) {
        ghost var q, h := View(), history;
        history := AckedHistory(history, m.value);
        leases := Unleased(leases, m.value);
        AckStepKeepsSound(q, h, m.value, View(), history);
      }
    }
  }

  lemma {:induction false} RequeuedAllAppend(q: Queue, h: History, a: seq<Payload>, b: seq<Payload>)
    ensures RequeuedAll(q, a + b) == RequeuedAll(RequeuedAll(q, a), b)
    ensures RequeuedAllHistory(h, a + b) == RequeuedAllHistory(RequeuedAllHistory(h, a), b)
    decreases |a|
  {
    if a == [] {
      assert a + b == b;
    } else {
      assert (a + b)[1..] == a[1..] + b;
      RequeuedAllAppend(Requeued(q, a[0]), RequeuedHistory(h, a[0]), a[1..], b);
    }
  }

  lemma {:induction false} RequeueAllKeepsSound(q: Queue, h: History, batch: seq<Payload>)
    requires Sound(q, h) && Distinct(batch) && forall p :: p in batch ==> p in Members(q.leases)
    ensures
      var t, g := RequeuedAll(q, batch), RequeuedAllHistory(h, batch);
      && Sound(t, g)
      && t.Len() + |g.dropped| == q.Len() + |h.dropped|
      && (forall l :: l in t.leases <==> l in q.leases && l.member !in batch)
    decreases |batch|
  {
    if batch != [] {
      RequeueOneKeepsSound(q, h, batch);
      RequeueAllKeepsSound(Requeued(q, batch[0]), RequeuedHistory(h, batch[0]), batch[1..]);
    }
  }

  /** The first of a batch is put back, and the others are still leased. */
  lemma RequeueOneKeepsSound(q: Queue, h: History, batch: seq<Payload>)
    requires Sound(q, h) && batch != [] && Distinct(batch) && forall p :: p in batch ==> p in Members(q.leases)
    ensures
      var t, g := Requeued(q, batch[0]), RequeuedHistory(h, batch[0]);
      && Sound(t, g)
      && t.Len() + |g.dropped| == q.Len() + |h.dropped|
      && Distinct(batch[1..]) && (forall p :: p in batch[1..] ==> p in Members(t.leases))
      && (forall l :: l in t.leases <==> l in q.leases && l.member != batch[0])
  {
    RequeueKeepsSound(q, h, batch[0]);
    StillMembers(q.leases, batch[0], batch, 0);
  }

  lemma {:induction false} RequeueAllAddsNothing(q: Queue, batch: seq<Payload>)
    requires Distinct(Members(q.leases)) && Distinct(batch) && forall p :: p in batch ==> p in Members(q.leases)
    ensures Outstanding(RequeuedAll(q, batch)) <= Outstanding(q)
    decreases |batch|
  {
    if batch != [] {
      RequeueKeepsMessages(q, batch[0]);
      UnleasedDistinct(q.leases, batch[0]);
      StillMembers(q.leases, batch[0], batch, 0);
      RequeueAllAddsNothing(Requeued(q, batch[0]), batch[1..]);
    }
  }

  lemma SameMember(leases: seq<Lease>, l: Lease)
    requires Distinct(Members(leases)) && l in leases
    ensures l.member in Members(leases)
    ensures forall k :: k in leases && k.member == l.member ==> k == l
  {
  }

  lemma StillMembers(leases: seq<Lease>, p: Payload, batch: seq<Payload>, i: nat)
    requires i < |batch| && batch[i] == p && Distinct(batch)
    requires forall j :: i <= j < |batch| ==> batch[j] in Members(leases)
    ensures forall j :: i < j < |batch| ==> batch[j] in Members(Unleased(leases, p))
  {
  }
}
