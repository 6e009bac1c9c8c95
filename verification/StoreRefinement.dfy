/** The two storage back ends side by side: what they agree on, and exactly when their listings agree. */
module StoreRefinement {
  import opened Jobs
  import opened Sorting
  import opened StoreModel
  import M = MemoryStorage
  import R = RedisStorage

  /** The second store is the first without the bytes of inline documents. */
  ghost predicate Corresponds(s: Store, t: Store) { t == Bare(s) }

  lemma OperationCorresponds(s: Store, t: Store, op: Op, now: Time)
    requires Corresponds(s, t)
    ensures Corresponds(ApplyOp(s, op, now), ApplyOp(t, BareOp(op), now))
  {
    BareCommutes(s, op, now);
  }

  /** What an operation returned. */
  datatype Answer = Done | CancelAnswer(result: Option<JobResult>) | Reserved(holder: string, reserved: bool)

  /**
   Run one at a time with the same clock readings, both back ends hold the same store throughout, but for
   the bytes of inline documents, which only the in-memory back end keeps.
   */
  method RunBoth(mem: M.MemoryStorage, redis: R.RedisStorage, ops: seq<(Op, Time)>)
    requires mem.Valid() && redis.Valid() && Corresponds(mem.View(), redis.store)
    requires forall i :: 0 <= i < |ops| ==> ops[i].1 != ZERO_TIME
    modifies mem, redis`store, redis.client
    ensures mem.Valid() && redis.Valid()
    ensures mem.View() == ApplyOps(old(mem.View()), ops) && Corresponds(mem.View(), redis.store)
  {
    ghost var start := mem.View();
    for i := 0 to |ops|
      invariant mem.Valid() && redis.Valid()
      invariant Corresponds(mem.View(), redis.store)
      invariant ApplyOps(mem.View(), ops[i..]) == ApplyOps(start, ops)
    {
      assert ops[i..][1..] == ops[i + 1..];
      var ours, theirs := Both(mem, redis, ops[i].0, ops[i].1);
    }
  }

  /** Both back ends answer a reservation alike; a cancel request, each in its own way. */
  method Both(mem: M.MemoryStorage, redis: R.RedisStorage, op: Op, now: Time) returns (ours: Answer, theirs: Answer)
    requires mem.Valid() && redis.Valid() && Corresponds(mem.View(), redis.store) && now != ZERO_TIME
    modifies mem, redis`store, redis.client
    ensures mem.Valid() && redis.Valid()
    ensures mem.View() == ApplyOp(old(mem.View()), op, now) && Corresponds(mem.View(), redis.store)
    ensures !op.CancelOp? ==> ours == theirs
    ensures op.ReserveOp? ==> ours.Reserved?
    ensures op.CancelOp? ==> ours == CancelAnswer(Lookup(CancelRecord(old(mem.View()), op.id, now), op.id))
    ensures op.CancelOp? ==> theirs == CancelAnswer(R.CancelReply(old(redis.store), op.id))
  {
    OperationCorresponds(mem.View(), redis.store, op, now);
    match op {
      case SetOp(id, r) =>
        var stored := mem.Set(id, r, now);
        redis.Set(id, r, now);
        return Done, Done;
      case DeleteOp(id) =>
        mem.Delete(id);
        redis.Delete(id);
        return Done, Done;
      case CancelOp(id) =>
        var a := mem.Cancel(id, now);
        var b := redis.Cancel(id, now);
        return CancelAnswer(a), CancelAnswer(b);
      case ReserveOp(key, id) =>
        ours, theirs := BothReserve(mem, redis, key, id);
    }
  }

  method BothReserve(mem: M.MemoryStorage, redis: R.RedisStorage, key: string, id: string)
    returns (ours: Answer, theirs: Answer)
    requires mem.Valid() && redis.Valid() && Corresponds(mem.View(), redis.store)
    modifies mem, redis`store, redis.client
    ensures mem.Valid() && redis.Valid()
    ensures mem.View() == ReserveKey(old(mem.View()), key, id) && redis.store == ReserveKey(old(redis.store), key, id)
    ensures ours == theirs && ours.Reserved?
  {
    assert Bare(mem.View()).idempotency == mem.View().idempotency;
    var h, r := mem.ReserveIdempotencyKey(key, id);
    var h', r' := redis.ReserveIdempotencyKey(key, id);
    ours, theirs := Reserved(h, r), Reserved(h', r');
  }

  /**
   The two back ends return the same record from Cancel, inline bytes apart, exactly when the job is missing
   or already finished, or was last updated at this very instant.
   */
  lemma CancelRepliesAgreeIff(s: Store, id: string, now: Time)
    requires Consistent(s)
    ensures
      var ours := Lookup(Bare(CancelRecord(s, id, now)), id);
      ours == R.CancelReply(Bare(s), id) <==>
        id !in s.results || s.results[id].status.Terminal() || s.results[id].updatedAt == now
  {
    if id in s.results && !s.results[id].status.Terminal() {
      assert Filled(s, id, CanceledRecord(s.results[id]), now) == CanceledRecord(s.results[id]).(updatedAt := now);
    }
  }

  // ----- listings -----

  ghost predicate DistinctInstants(s: Store)
    requires Consistent(s)
  {
    forall a, b :: a in s.results && b in s.results && a != b ==> s.results[a].createdAt != s.results[b].createdAt
  }

  lemma SnapshotsReverse(s: Store, ids: seq<string>)
    requires forall id :: id in ids ==> id in s.results
    ensures forall id :: id in Reverse(ids) ==> id in s.results
    ensures Snapshots(s, Reverse(ids)) == Reverse(Snapshots(s, ids))
  {
  }

  lemma ListedLength(s: Store)
    ensures |R.Listed(s)| == if |s.order| <= R.LIST_LIMIT then |s.order| else R.LIST_LIMIT
    ensures |s.order| <= R.LIST_LIMIT ==> R.Listed(s) == Reverse(s.order)
  {
  }

  lemma ListingsAgreeWhenDistinct(s: Store)
    requires Consistent(s) && |s.order| <= R.LIST_LIMIT && DistinctInstants(s)
    ensures R.ShortListing(s) == Listing(s)
  {
    var snaps := Snapshots(s, s.order);
    assert R.ShortListing(s) == NewestFirst(Reverse(snaps)) by {
      ListedLength(s);
      SnapshotsReverse(s, s.order);
    }
    SortsOfPermutations(snaps, Reverse(snaps)) by { ReverseMultiset(snaps); }
    ListingInstantsDistinct(s);
    DescendingUnique(Listing(s), NewestFirst(Reverse(snaps)));
  }

  lemma SortsOfPermutations(a: seq<JobSnapshot>, b: seq<JobSnapshot>)
    requires multiset(a) == multiset(b)
    ensures Descending(NewestFirst(a)) && Descending(NewestFirst(b))
    ensures multiset(NewestFirst(a)) == multiset(NewestFirst(b))
  {
    NewestFirstSorts(a);
    NewestFirstSorts(b);
  }

  lemma ListingInstantsDistinct(s: Store)
    requires Consistent(s) && DistinctInstants(s)
    ensures forall i, j :: 0 <= i < j < |Listing(s)| ==> Listing(s)[i].createdAt != Listing(s)[j].createdAt
  {
    var snaps, l := Snapshots(s, s.order), Listing(s);
    NewestFirstMembers(snaps);
    ListedOnce(s, s.order);
    forall i, j | 0 <= i < j < |l| ensures l[i].createdAt != l[j].createdAt {
      assert l[i] in snaps && l[j] in snaps;
      assert SnapshotIDs(l)[i] != SnapshotIDs(l)[j];
    }
  }

  /** A tie is listed in opposite orders by the two back ends. */
  lemma ListingsDifferOnTie(s: Store, a: string, b: string)
    requires Consistent(s) && |s.order| <= R.LIST_LIMIT
    requires a in s.results && b in s.results && a != b && s.results[a].createdAt == s.results[b].createdAt
    ensures R.ShortListing(s) != Listing(s)
  {
    var snaps, t := Snapshots(s, s.order), s.results[a].createdAt;
    TiesAreNoPalindrome(s, a, b);
    ListedLength(s);
    SnapshotsReverse(s, s.order);
    NewestFirstSorts(snaps);
    NewestFirstSorts(Reverse(snaps));
    CreatedAtReverse(snaps, t);
    assert CreatedAt(Listing(s), t) != CreatedAt(R.ShortListing(s), t);
  }

  lemma TiesAreNoPalindrome(s: Store, a: string, b: string)
    requires Consistent(s)
    requires a in s.results && b in s.results && a != b && s.results[a].createdAt == s.results[b].createdAt
    ensures
      var tied := CreatedAt(Snapshots(s, s.order), s.results[a].createdAt);
      tied != Reverse(tied)
  {
    var snaps, t := Snapshots(s, s.order), s.results[a].createdAt;
    var tied := CreatedAt(snaps, t);
    CreatedAtMembers(snaps, t);
    SnapshotListed(s, a);
    SnapshotListed(s, b);
    var p :| 0 <= p < |tied| && tied[p] == Snapshot(s, a);
    var q :| 0 <= q < |tied| && tied[q] == Snapshot(s, b);
    TiedIDsDistinct(s, t);
    if tied == Reverse(tied) { PalindromeIsShort(tied); }
  }

  lemma SnapshotListed(s: Store, a: string)
    requires Consistent(s) && a in s.results
    ensures Snapshot(s, a) in Snapshots(s, s.order)
  {
  }

  lemma PalindromeIsShort(tied: seq<JobSnapshot>)
    requires Distinct(SnapshotIDs(tied)) && tied == Reverse(tied)
    ensures |tied| <= 1
  {
  }

  lemma {:induction false} CreatedAtIDsDistinct(snaps: seq<JobSnapshot>, t: Time)
    requires Distinct(SnapshotIDs(snaps))
    ensures Distinct(SnapshotIDs(CreatedAt(snaps, t)))
  {
    if snaps != [] {
      assert SnapshotIDs(snaps)[1..] == SnapshotIDs(snaps[1..]);
      CreatedAtIDsDistinct(snaps[1..], t);
      CreatedAtMembers(snaps[1..], t);
      var rest := CreatedAt(snaps[1..], t);
      forall k | 0 <= k < |rest| ensures rest[k].id != snaps[0].id {
        assert rest[k] in snaps[1..];
        var m :| 0 <= m < |snaps[1..]| && snaps[1..][m] == rest[k];
        assert SnapshotIDs(snaps)[m + 1] == rest[k].id;
      }
    }
  }

  lemma TiedIDsDistinct(s: Store, t: Time)
    requires Consistent(s)
    ensures Distinct(SnapshotIDs(CreatedAt(Snapshots(s, s.order), t)))
  {
    SnapshotsIDs(s, s.order);
    CreatedAtIDsDistinct(Snapshots(s, s.order), t);
  }

  lemma BareIsConsistent(s: Store)
    requires Consistent(s)
    ensures Consistent(Bare(s)) && |Bare(s).results| == |s.results|
  {
    assert Bare(s).results.Keys == s.results.Keys;
  }

  /** Snapshots say nothing of inline documents. */
  lemma BareSnapshots(s: Store, ids: seq<string>)
    requires forall id :: id in ids ==> id in s.results
    ensures Snapshots(Bare(s), ids) == Snapshots(s, ids)
  {
  }

  /**
   The listings of the two back ends agree exactly when at most 200 jobs are stored and no two share a
   creation instant.
   */
  lemma ListingsAgreeIff(s: Store)
    requires Consistent(s)
    ensures Consistent(Bare(s))
    ensures R.ShortListing(Bare(s)) == Listing(s) <==> |s.results| <= R.LIST_LIMIT && DistinctInstants(s)
  {
    BareIsConsistent(s);
    BareSnapshots(s, s.order);
    ShortListingAgreesIff(Bare(s));
    if DistinctInstants(Bare(s)) {
      forall a, b | a in s.results && b in s.results && a != b ensures s.results[a].createdAt != s.results[b].createdAt {
        assert Bare(s).results[a].createdAt != Bare(s).results[b].createdAt;
      }
    }
  }

  lemma ShortListingAgreesIff(s: Store)
    requires Consistent(s)
    ensures R.ShortListing(s) == Listing(s) <==> |s.results| <= R.LIST_LIMIT && DistinctInstants(s)
  {
    DistinctSize(s.order, s.results.Keys);
    ListedLength(s);
    NewestFirstMembers(Snapshots(s, s.order));
    NewestFirstMembers(Snapshots(s, R.Listed(s)));
    if |s.order| <= R.LIST_LIMIT {
      if DistinctInstants(s) {
        ListingsAgreeWhenDistinct(s);
      } else {
        var a, b :| a in s.results && b in s.results && a != b && s.results[a].createdAt == s.results[b].createdAt;
        ListingsDifferOnTie(s, a, b);
      }
    }
  }

  function InlineBytes(s: Store, ids: seq<string>): nat
    requires forall id :: id in ids ==> id in s.results
  {
    if ids == [] then 0 else |s.results[ids[0]].inlinePDF| + InlineBytes(s, ids[1..])
  }

  lemma {:induction false} BareTallies(s: Store, ids: seq<string>, st: JobStatus)
    requires forall id :: id in ids ==> id in s.results
    ensures CountStatus(Bare(s), ids, st) == CountStatus(s, ids, st)
    ensures PDFBytes(s, ids) == PDFBytes(Bare(s), ids) + InlineBytes(s, ids)
    ensures InlineBytes(s, ids) == 0 <==> forall id :: id in ids ==> s.results[id].inlinePDF == ""
  {
    if ids != [] {
      BareTallies(s, ids[1..], st);
      assert ids == [ids[0]] + ids[1..];
    }
  }

  /**
   The statistics of the two back ends agree exactly when at most 200 jobs are stored and none has inline
   document bytes.
   */
  lemma StatsAgreeIff(s: Store, mem: StorageStats, redis: StorageStats)
    requires Consistent(s)
    requires Tallies(s, s.order, mem) && Tallies(Bare(s), R.Listed(Bare(s)), redis)
    ensures mem == redis <==>
              |s.results| <= R.LIST_LIMIT && forall id :: id in s.results ==> s.results[id].inlinePDF == ""
  {
    BareIsConsistent(s);
    DistinctSize(s.order, s.results.Keys);
    ListedLength(Bare(s));
    BareTallies(s, s.order, Pending);
    if |s.order| <= R.LIST_LIMIT {
      ReverseMultiset(s.order);
      TalliesPermuted(Bare(s), R.Listed(Bare(s)), s.order, redis);
      if InlineBytes(s, s.order) == 0 {
        TalliesOfBare(s, mem);
        TalliesAreUnique(Bare(s), s.order, mem, redis);
      }
    }
  }

  lemma TalliesOfBare(s: Store, stats: StorageStats)
    requires Consistent(s) && Tallies(s, s.order, stats) && InlineBytes(s, s.order) == 0
    ensures Tallies(Bare(s), s.order, stats)
  {
    forall st ensures CountStatus(Bare(s), s.order, st) == CountStatus(s, s.order, st) {
      BareTallies(s, s.order, st);
    }
    BareTallies(s, s.order, Pending);
    forall id | id in s.order ensures Bare(s).results[id].createdAt == s.results[id].createdAt {
    }
  }

  lemma TalliesAreUnique(s: Store, ids: seq<string>, a: StorageStats, b: StorageStats)
    requires forall id :: id in ids ==> id in s.results
    requires Tallies(s, ids, a) && Tallies(s, ids, b)
    ensures a == b
  {
  }
}
