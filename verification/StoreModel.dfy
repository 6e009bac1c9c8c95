/**
 The job store as a value: what each storage operation does to the records, to the
 idempotency keys and to the insertion order.  Both storage back ends and the interleaved
 life cycle are specified by these functions.
 */
module StoreModel {
  import opened Jobs
  import opened Sorting

  datatype Store = Store(results: map<string, JobResult>, idempotency: map<string, string>, order: seq<string>)

  const EMPTY: Store := Store(map[], map[], [])

  function Lookup(s: Store, id: string): Option<JobResult> {
    if id in s.results then Some(s.results[id]) else None
  }

  /** The record Set leaves behind: unset fields are inherited from the record it replaces. */
  function FillFrom(existing: Option<JobResult>, r: JobResult, now: Time): JobResult {
    r.(createdAt := if r.createdAt != ZERO_TIME then r.createdAt
                    else if existing.Some? && existing.value.createdAt != ZERO_TIME then existing.value.createdAt
                    else now,
       updatedAt := now,
       idempotencyKey := if existing.Some? && r.idempotencyKey == "" then existing.value.idempotencyKey else r.idempotencyKey,
       callbackURL := if existing.Some? && r.callbackURL == "" then existing.value.callbackURL else r.callbackURL,
       requestID := if existing.Some? && r.requestID == "" then existing.value.requestID else r.requestID)
  }

  /** What Set makes of the result it is given, field by field, and of the record it replaces. */
  predicate Recorded(before: Option<JobResult>, given: JobResult, now: Time, after: JobResult) {
    && after.url == given.url && after.status == given.status && after.error == given.error
    && after.inlinePDF == given.inlinePDF && after.pdfKey == given.pdfKey && after.pdfSize == given.pdfSize
    && after.updatedAt == now
    && after.createdAt == (if given.createdAt != ZERO_TIME then given.createdAt
                           else if before.Some? then before.value.createdAt else now)
    && after.idempotencyKey == (if given.idempotencyKey == "" && before.Some? then before.value.idempotencyKey
                                else given.idempotencyKey)
    && after.callbackURL == (if given.callbackURL == "" && before.Some? then before.value.callbackURL else given.callbackURL)
    && after.requestID == (if given.requestID == "" && before.Some? then before.value.requestID else given.requestID)
  }

  /** Stored records are dated, so a result without a creation instant takes the one there is. */
  lemma FilledIsRecorded(s: Store, id: string, r: JobResult, now: Time)
    requires Consistent(s)
    ensures Recorded(Lookup(s, id), r, now, Filled(s, id, r, now))
  {
  }

  function Filled(s: Store, id: string, r: JobResult, now: Time): JobResult {
    FillFrom(Lookup(s, id), r, now)
  }

  function SetRecord(s: Store, id: string, r: JobResult, now: Time): Store {
    Store(s.results[id := Filled(s, id, r, now)], s.idempotency,
          if id in s.results then s.order else s.order + [id])
  }

  /** The store after Set: one record written, its identifier appended if it is new, nothing else changed. */
  ghost predicate SetTo(s: Store, id: string, given: JobResult, now: Time, t: Store) {
    && id in t.results && t.results == s.results[id := t.results[id]] && t.idempotency == s.idempotency
    && t.order == s.order + (if id in s.results then [] else [id])
    && Recorded(Lookup(s, id), given, now, t.results[id])
  }

  lemma SetIsRecorded(s: Store, id: string, r: JobResult, now: Time)
    requires Consistent(s)
    ensures SetTo(s, id, r, now, SetRecord(s, id, r, now))
  {
    FilledIsRecorded(s, id, r, now);
    assert s.order + [] == s.order;
  }

  function DeleteRecord(s: Store, id: string): Store {
    if id !in s.results then s
    else
      var key := s.results[id].idempotencyKey;
      Store(s.results - {id}, if key == "" then s.idempotency else s.idempotency - {key}, Without(s.order, id))
  }

  /** The idempotency key of a stored job, if it has one. */
  function HeldKey(s: Store, id: string): string {
    if id in s.results then s.results[id].idempotencyKey else ""
  }

  function CanceledRecord(r: JobResult): JobResult {
    r.(status := Canceled, error := "job canceled")
  }

  /** Cancel when nothing else writes between its read and its write. */
  function CancelRecord(s: Store, id: string, now: Time): Store {
    if id !in s.results || s.results[id].status.Terminal() then s
    else SetRecord(s, id, CanceledRecord(s.results[id]), now)
  }

  /** A cancellation of an unfinished job changes its status, its error and its update instant, of any other nothing. */
  lemma CancelIsExact(s: Store, id: string, now: Time)
    requires Consistent(s)
    ensures CancelRecord(s, id, now) ==
            if id in s.results && (s.results[id].status == Pending || s.results[id].status == Processing)
            then s.(results := s.results[id := s.results[id].(status := Canceled, error := "job canceled", updatedAt := now)])
            else s
  {
    if id in s.results && !s.results[id].status.Terminal() {
      FilledIsRecorded(s, id, CanceledRecord(s.results[id]), now);
    }
  }

  function ReserveKey(s: Store, key: string, id: string): Store {
    if key == "" || key in s.idempotency then s else s.(idempotency := s.idempotency[key := id])
  }

  /** The three structures are in step: order lists each stored job once, and every record is dated. */
  ghost predicate Consistent(s: Store) {
    && Distinct(s.order)
    && (forall id :: id in s.order <==> id in s.results)
    && (forall id :: id in s.results ==> s.results[id].createdAt != ZERO_TIME)
  }

  lemma SetKeepsConsistent(s: Store, id: string, r: JobResult, now: Time)
    requires Consistent(s) && now != ZERO_TIME
    ensures Consistent(SetRecord(s, id, r, now))
  {
  }

  lemma DeleteKeepsConsistent(s: Store, id: string)
    requires Consistent(s)
    ensures Consistent(DeleteRecord(s, id))
  {
    WithoutDistinct(s.order, id);
  }

  /** One storage operation, for statements about sequences of them. */
  datatype Op = SetOp(id: string, record: JobResult) | DeleteOp(id: string) | CancelOp(id: string)
              | ReserveOp(key: string, id: string)

  function ApplyOp(s: Store, op: Op, now: Time): Store {
    match op
    case SetOp(id, r) => SetRecord(s, id, r, now)
    case DeleteOp(id) => DeleteRecord(s, id)
    case CancelOp(id) => CancelRecord(s, id, now)
    case ReserveOp(key, id) => ReserveKey(s, key, id)
  }

  function ApplyOps(s: Store, ops: seq<(Op, Time)>): Store
    decreases |ops|
  {
    if ops == [] then s else ApplyOps(ApplyOp(s, ops[0].0, ops[0].1), ops[1..])
  }

  lemma OperationKeepsConsistent(s: Store, op: Op, now: Time)
    requires Consistent(s) && now != ZERO_TIME
    ensures Consistent(ApplyOp(s, op, now))
  {
    match op {
      case SetOp(id, r) => SetKeepsConsistent(s, id, r, now);
      case DeleteOp(id) => DeleteKeepsConsistent(s, id);
      case CancelOp(id) =>
        if id in s.results { SetKeepsConsistent(s, id, CanceledRecord(s.results[id]), now); }
      case ReserveOp(key, id) =>
    }
  }

  /** Order, records and dates stay in step under every sequence of operations. */
  lemma {:induction false} OperationsKeepConsistent(s: Store, ops: seq<(Op, Time)>)
    requires Consistent(s) && forall i :: 0 <= i < |ops| ==> ops[i].1 != ZERO_TIME
    ensures Consistent(ApplyOps(s, ops))
    decreases |ops|
  {
    if ops != [] {
      assert ops[0].1 != ZERO_TIME;
      OperationKeepsConsistent(s, ops[0].0, ops[0].1);
      OperationsKeepConsistent(ApplyOp(s, ops[0].0, ops[0].1), ops[1..]);
    }
  }

  /** The operation neither takes the job away nor gives it another creation instant. */
  predicate KeepsDate(op: Op, id: string, created: Time) {
    && op != DeleteOp(id)
    && (op.SetOp? && op.id == id ==> op.record.createdAt == ZERO_TIME || op.record.createdAt == created)
  }

  lemma OperationKeepsDate(s: Store, op: Op, now: Time, id: string)
    requires Consistent(s) && id in s.results && KeepsDate(op, id, s.results[id].createdAt)
    ensures id in ApplyOp(s, op, now).results && ApplyOp(s, op, now).results[id].createdAt == s.results[id].createdAt
  {
  }

  /** A stored job's creation instant lasts through every sequence of such operations. */
  lemma {:induction false} OperationsKeepDate(s: Store, ops: seq<(Op, Time)>, id: string)
    requires Consistent(s) && id in s.results
    requires forall i :: 0 <= i < |ops| ==> ops[i].1 != ZERO_TIME && KeepsDate(ops[i].0, id, s.results[id].createdAt)
    ensures id in ApplyOps(s, ops).results && ApplyOps(s, ops).results[id].createdAt == s.results[id].createdAt
    decreases |ops|
  {
    if ops != [] {
      var (op, now) := ops[0];
      assert KeepsDate(ops[0].0, id, s.results[id].createdAt) && ops[0].1 != ZERO_TIME;
      OperationKeepsConsistent(s, op, now);
      OperationKeepsDate(s, op, now, id);
      OperationsKeepDate(ApplyOp(s, op, now), ops[1..], id);
    }
  }

  // ----- a store without inline documents -----

  function Bared(r: JobResult): JobResult { r.(inlinePDF := "") }

  /** The same store with the bytes of inline documents dropped. */
  function Bare(s: Store): Store {
    s.(results := map id | id in s.results :: Bared(s.results[id]))
  }

  function BareOp(op: Op): Op {
    if op.SetOp? then op.(record := Bared(op.record)) else op
  }

  /** Dropping inline bytes before an operation or after it comes to the same. */
  lemma BareCommutes(s: Store, op: Op, now: Time)
    ensures Bare(ApplyOp(s, op, now)) == ApplyOp(Bare(s), BareOp(op), now)
  {
    match op {
      case SetOp(id, r) => BareSet(s, id, r, now);
      case DeleteOp(id) => BareDelete(s, id);
      case CancelOp(id) =>
        if id in s.results { BareSet(s, id, CanceledRecord(s.results[id]), now); }
      case ReserveOp(key, id) =>
    }
  }

  lemma BareSet(s: Store, id: string, r: JobResult, now: Time)
    ensures Bare(SetRecord(s, id, r, now)) == SetRecord(Bare(s), id, Bared(r), now)
  {
    assert Bared(Filled(s, id, r, now)) == Filled(Bare(s), id, Bared(r), now);
    assert Bare(SetRecord(s, id, r, now)).results == SetRecord(Bare(s), id, Bared(r), now).results;
  }

  lemma BareDelete(s: Store, id: string)
    ensures Bare(DeleteRecord(s, id)) == DeleteRecord(Bare(s), id)
  {
    assert Bare(DeleteRecord(s, id)).results == DeleteRecord(Bare(s), id).results;
  }

  /** A submission that reserves its key, writes its record and is then rolled back leaves no trace. */
  lemma RollbackIsExact(s: Store, id: string, r: JobResult, now: Time)
    requires Consistent(s) && id !in s.results
    requires r.idempotencyKey == "" || r.idempotencyKey !in s.idempotency
    ensures DeleteRecord(SetRecord(ReserveKey(s, r.idempotencyKey, id), id, r, now), id) == s
  {
    var key := r.idempotencyKey;
    var reserved := ReserveKey(s, key, id);
    var filled := Filled(reserved, id, r, now);
    var t := SetRecord(reserved, id, r, now);
    assert t == Store(s.results[id := filled], reserved.idempotency, s.order + [id]);
    assert t.results[id].idempotencyKey == key;
    assert Without(s.order + [id], id) == s.order by {
      WithoutAppend(s.order, [id], id);
      WithoutAbsent(s.order, id);
      assert Without([id], id) == [];
    }
    MapRestored(s.results, id, filled);
    if key != "" {
      MapRestored(s.idempotency, key, id);
    }
  }

  lemma MapRestored<V>(m: map<string, V>, k: string, v: V)
    requires k !in m
    ensures m[k := v] - {k} == m
  {
  }

  // ----- listing and statistics -----

  function Snapshot(s: Store, id: string): JobSnapshot
    requires id in s.results
  {
    var r := s.results[id];
    JobSnapshot(id, r.url, r.status, r.error, r.createdAt, r.updatedAt)
  }

  function Snapshots(s: Store, ids: seq<string>): (r: seq<JobSnapshot>)
    requires forall id :: id in ids ==> id in s.results
    ensures |r| == |ids| && forall i :: 0 <= i < |ids| ==> r[i] == Snapshot(s, ids[i])
  {
    seq(|ids|, i requires 0 <= i < |ids| => Snapshot(s, ids[i]))
  }

  /** The memory back end's listing: newest first, ties in insertion order. */
  ghost function Listing(s: Store): seq<JobSnapshot>
    requires Consistent(s)
  {
    NewestFirst(Snapshots(s, s.order))
  }

  function CountStatus(s: Store, ids: seq<string>, st: JobStatus): nat
    requires forall id :: id in ids ==> id in s.results
  {
    if ids == [] then 0
    else (if s.results[ids[0]].status == st then 1 else 0) + CountStatus(s, ids[1..], st)
  }

  function PDFBytes(s: Store, ids: seq<string>): nat
    requires forall id :: id in ids ==> id in s.results
  {
    if ids == [] then 0
    else BytesOf(s.results[ids[0]]) + PDFBytes(s, ids[1..])
  }

  /** t is the earliest creation instant among ids, or unset when there are none. */
  ghost predicate IsOldest(s: Store, ids: seq<string>, t: Time)
    requires forall id :: id in ids ==> id in s.results
  {
    if ids == [] then t == ZERO_TIME
    else (exists id :: id in ids && s.results[id].createdAt == t)
         && (forall id :: id in ids ==> t <= s.results[id].createdAt)
  }

  /** stats counts exactly the jobs in ids, each of them once. */
  ghost predicate Tallies(s: Store, ids: seq<string>, stats: StorageStats)
    requires forall id :: id in ids ==> id in s.results
  {
    && stats.total == |ids|
    && (forall st :: st in stats.byStatus <==> CountStatus(s, ids, st) > 0)
    && (forall st :: st in stats.byStatus ==> stats.byStatus[st] == CountStatus(s, ids, st))
    && stats.pdfBytes == PDFBytes(s, ids)
    && IsOldest(s, ids, stats.oldestJobAt)
  }

  lemma {:induction false} CountSplit(s: Store, a: seq<string>, b: seq<string>, st: JobStatus)
    requires forall id :: id in a || id in b ==> id in s.results
    ensures forall id :: id in a + b ==> id in s.results
    ensures CountStatus(s, a + b, st) == CountStatus(s, a, st) + CountStatus(s, b, st)
    ensures PDFBytes(s, a + b) == PDFBytes(s, a) + PDFBytes(s, b)
  {
    if a == [] {
      assert a + b == b;
    } else {
      assert (a + b)[1..] == a[1..] + b;
      CountSplit(s, a[1..], b, st);
    }
  }

  /** One identifier's contribution can be taken out anywhere. */
  lemma CountWithout(s: Store, b: seq<string>, k: nat, st: JobStatus)
    requires k < |b| && forall id :: id in b ==> id in s.results
    ensures CountStatus(s, b, st) == CountStatus(s, b[..k] + b[k + 1..], st) + CountStatus(s, [b[k]], st)
    ensures PDFBytes(s, b) == PDFBytes(s, b[..k] + b[k + 1..]) + PDFBytes(s, [b[k]])
  {
    CountSplit(s, b[..k], b[k + 1..], st);
    assert b == b[..k] + ([b[k]] + b[k + 1..]);
    CountSplit(s, b[..k], [b[k]] + b[k + 1..], st);
    CountSplit(s, [b[k]], b[k + 1..], st);
  }

  /** Counts do not depend on the order in which jobs are visited. */
  lemma {:induction false} CountPermuted(s: Store, a: seq<string>, b: seq<string>, st: JobStatus)
    requires forall id :: id in a || id in b ==> id in s.results
    requires multiset(a) == multiset(b)
    ensures CountStatus(s, a, st) == CountStatus(s, b, st) && PDFBytes(s, a) == PDFBytes(s, b)
  {
    if a == [] {
      assert |multiset(b)| == 0;
    } else {
      var k := PermutationRest(a, b);
      CountPermuted(s, a[1..], b[..k] + b[k + 1..], st);
      CountWithout(s, b, k, st);
    }
  }

  lemma {:induction false} DistinctSameMembers(a: seq<string>, b: seq<string>)
    requires Distinct(a) && Distinct(b) && forall x :: x in a <==> x in b
    ensures multiset(a) == multiset(b)
  {
    forall x ensures multiset(a)[x] == multiset(b)[x] {
      DistinctMultiplicity(a, x);
      DistinctMultiplicity(b, x);
    }
  }

  lemma {:induction false} DistinctMultiplicity(a: seq<string>, x: string)
    requires Distinct(a)
    ensures multiset(a)[x] == if x in a then 1 else 0
  {
    if a != [] {
      DistinctMultiplicity(a[1..], x);
      assert a == [a[0]] + a[1..];
    }
  }

  lemma {:induction false} DistinctSize(a: seq<string>, keys: set<string>)
    requires Distinct(a) && forall x :: x in a <==> x in keys
    ensures |keys| == |a|
  {
    if a == [] {
      assert keys == {};
    } else {
      assert a[0] !in a[1..];
      DistinctSize(a[1..], keys - {a[0]});
    }
  }

  /** A tally of the jobs visited in any order is a tally in insertion order. */
  lemma TalliesPermuted(s: Store, a: seq<string>, b: seq<string>, stats: StorageStats)
    requires forall id :: id in a || id in b ==> id in s.results
    requires multiset(a) == multiset(b) && Tallies(s, a, stats)
    ensures Tallies(s, b, stats)
  {
    assert |multiset(a)| == |a| && |multiset(b)| == |b|;
    assert forall id :: id in a <==> id in multiset(a);
    assert forall id :: id in b <==> id in multiset(b);
    forall st ensures CountStatus(s, a, st) == CountStatus(s, b, st) {
      CountPermuted(s, a, b, st);
    }
    CountPermuted(s, a, b, Pending);
  }

  /** The statistics after visiting one more job. */
  function Tally(stats: StorageStats, status: JobStatus, createdAt: Time, bytes: nat): StorageStats {
    StorageStats(stats.total + 1,
                 stats.byStatus[status := (if status in stats.byStatus then stats.byStatus[status] else 0) + 1],
                 stats.pdfBytes + bytes,
                 if stats.oldestJobAt == ZERO_TIME || createdAt < stats.oldestJobAt then createdAt else stats.oldestJobAt)
  }

  function BytesOf(r: JobResult): nat { r.pdfSize + |r.inlinePDF| }

  function TallyRecord(stats: StorageStats, r: JobResult): StorageStats {
    Tally(stats, r.status, r.createdAt, BytesOf(r))
  }

  function CountOf(stats: StorageStats, st: JobStatus): nat {
    if st in stats.byStatus then stats.byStatus[st] else 0
  }

  lemma {:induction false} CountIsSize(s: Store, ids: seq<string>, st: JobStatus)
    requires Distinct(ids) && forall id :: id in ids ==> id in s.results
    ensures CountStatus(s, ids, st) == |set id | id in ids && s.results[id].status == st|
  {
    if ids != [] {
      CountIsSize(s, ids[1..], st);
      OneMoreOfStatus(s, ids[0], ids[1..], st);
      assert ids == [ids[0]] + ids[1..];
    }
  }

  lemma OneMoreOfStatus(s: Store, head: string, tail: seq<string>, st: JobStatus)
    requires head !in tail && head in s.results && forall id :: id in tail ==> id in s.results
    ensures
      |set id | id in [head] + tail && s.results[id].status == st| ==
      (if s.results[head].status == st then 1 else 0) + |set id | id in tail && s.results[id].status == st|
  {
    var rest := set id | id in tail && s.results[id].status == st;
    var all := set id | id in [head] + tail && s.results[id].status == st;
    assert all == if s.results[head].status == st then rest + {head} else rest;
  }

  /** What a tally says of distinct jobs: how many there are of each status, and how old the oldest is. */
  lemma TalliesMean(s: Store, ids: seq<string>, stats: StorageStats)
    requires Distinct(ids) && (forall id :: id in ids ==> id in s.results) && Tallies(s, ids, stats)
    ensures forall st :: CountOf(stats, st) == |set id | id in ids && s.results[id].status == st|
    ensures ids != [] ==> exists id :: id in ids && s.results[id].createdAt == stats.oldestJobAt
    ensures forall id :: id in ids ==> stats.oldestJobAt <= s.results[id].createdAt
  {
    forall st ensures CountOf(stats, st) == |set id | id in ids && s.results[id].status == st| {
      CountIsSize(s, ids, st);
    }
  }

  /** One job more adds the size of its document, stored or inline, to the bytes counted. */
  lemma BytesOfOneMore(s: Store, ids: seq<string>, id: string)
    requires id in s.results && forall x :: x in ids ==> x in s.results
    ensures forall x :: x in ids + [id] ==> x in s.results
    ensures PDFBytes(s, ids + [id]) == PDFBytes(s, ids) + s.results[id].pdfSize + |s.results[id].inlinePDF|
    ensures PDFBytes(s, []) == 0
  {
    CountSplit(s, ids, [id], Pending);
    assert [id][1..] == [];
  }

  lemma TallyExtends(s: Store, ids: seq<string>, id: string, stats: StorageStats)
    requires forall x :: x in ids ==> x in s.results
    requires id in s.results && Consistent(s) && Tallies(s, ids, stats)
    ensures forall x :: x in ids + [id] ==> x in s.results
    ensures Tallies(s, ids + [id], TallyRecord(stats, s.results[id]))
  {
    var r := s.results[id];
    assert forall x :: x in ids + [id] <==> x in ids || x == id;
    forall st
      ensures CountStatus(s, ids + [id], st) == CountStatus(s, ids, st) + (if st == r.status then 1 else 0)
    {
      CountSplit(s, ids, [id], st);
      assert [id][1..] == [];
    }
    CountSplit(s, ids, [id], Pending);
    assert [id][1..] == [];
    OldestExtends(s, ids, id, stats.oldestJobAt);
  }

  lemma OldestExtends(s: Store, ids: seq<string>, id: string, t: Time)
    requires forall x :: x in ids ==> x in s.results
    requires id in s.results && Consistent(s) && IsOldest(s, ids, t)
    ensures forall x :: x in ids + [id] ==> x in s.results
    ensures IsOldest(s, ids + [id], if t == ZERO_TIME || s.results[id].createdAt < t then s.results[id].createdAt else t)
  {
  }

  lemma {:induction false} StatusesSum(s: Store, ids: seq<string>)
    requires forall id :: id in ids ==> id in s.results
    ensures CountStatus(s, ids, Pending) + CountStatus(s, ids, Processing) + CountStatus(s, ids, Completed)
            + CountStatus(s, ids, Failed) + CountStatus(s, ids, Canceled) == |ids|
  {
    if ids != [] {
      StatusesSum(s, ids[1..]);
    }
  }

  /** The listing is every stored job once, newest first, ties in insertion order. */
  lemma ListingIsSorted(s: Store)
    requires Consistent(s)
    ensures Descending(Listing(s)) && |Listing(s)| == |s.results|
    ensures multiset(Listing(s)) == multiset(Snapshots(s, s.order))
    ensures forall t :: CreatedAt(Listing(s), t) == CreatedAt(Snapshots(s, s.order), t)
  {
    NewestFirstSorts(Snapshots(s, s.order));
    DistinctSize(s.order, s.results.Keys);
  }

  function SnapshotIDs(jobs: seq<JobSnapshot>): (ids: seq<string>)
    ensures |ids| == |jobs| && forall i :: 0 <= i < |jobs| ==> ids[i] == jobs[i].id
  {
    seq(|jobs|, i requires 0 <= i < |jobs| => jobs[i].id)
  }

  lemma SnapshotsIDs(s: Store, ids: seq<string>)
    requires forall id :: id in ids ==> id in s.results
    ensures SnapshotIDs(Snapshots(s, ids)) == ids
  {
  }

  lemma {:induction false} IDsPermuted(a: seq<JobSnapshot>, b: seq<JobSnapshot>)
    requires multiset(a) == multiset(b)
    ensures multiset(SnapshotIDs(a)) == multiset(SnapshotIDs(b))
  {
    if a == [] {
      assert |multiset(b)| == 0;
    } else {
      var k := PermutationRest(a, b);
      var rest := b[..k] + b[k + 1..];
      IDsPermuted(a[1..], rest);
      assert SnapshotIDs(a) == [a[0].id] + SnapshotIDs(a[1..]);
      assert SnapshotIDs(rest) == SnapshotIDs(b[..k]) + SnapshotIDs(b[k + 1..]);
      assert SnapshotIDs(b) == SnapshotIDs(b[..k]) + [b[k].id] + SnapshotIDs(b[k + 1..]);
    }
  }

  lemma ListingIDsPermuted(snaps: seq<JobSnapshot>)
    ensures multiset(SnapshotIDs(NewestFirst(snaps))) == multiset(SnapshotIDs(snaps))
  {
    NewestFirstSorts(snaps);
    IDsPermuted(NewestFirst(snaps), snaps);
  }

  lemma ListedOnce(s: Store, ids: seq<string>)
    requires Distinct(ids) && forall id :: id in ids ==> id in s.results
    ensures Distinct(SnapshotIDs(NewestFirst(Snapshots(s, ids))))
  {
    ListingIDsPermuted(Snapshots(s, ids));
    SnapshotsIDs(s, ids);
    var listed := SnapshotIDs(NewestFirst(Snapshots(s, ids)));
    forall i, j | 0 <= i < j < |listed| ensures listed[i] != listed[j] {
      DistinctMultiplicity(ids, listed[i]);
      if listed[i] == listed[j] { RepeatCountsTwice(listed, i, j); }
    }
  }

  lemma RepeatCountsTwice(ids: seq<string>, i: nat, j: nat)
    requires i < j < |ids| && ids[i] == ids[j]
    ensures multiset(ids)[ids[i]] >= 2
  {
    assert ids == ids[..i] + [ids[i]] + ids[i + 1..j] + [ids[j]] + ids[j + 1..];
  }

  /** Every job listed is shown as its record has it. */
  ghost predicate Shows(s: Store, jobs: seq<JobSnapshot>) {
    forall job :: job in jobs ==>
      && job.id in s.results && job.url == s.results[job.id].url && job.status == s.results[job.id].status
      && job.error == s.results[job.id].error && job.createdAt == s.results[job.id].createdAt
      && job.updatedAt == s.results[job.id].updatedAt
  }

  /** No job is listed twice, and newer ones come first. */
  ghost predicate Ranked(jobs: seq<JobSnapshot>) {
    forall i, j :: 0 <= i < j < |jobs| ==> jobs[i].id != jobs[j].id && jobs[i].createdAt >= jobs[j].createdAt
  }

  predicate IsListed(jobs: seq<JobSnapshot>, id: string) {
    exists i :: 0 <= i < |jobs| && jobs[i].id == id
  }

  /** A listing of distinct jobs shows each of them once, as its record has it, newest first. */
  lemma ListedEachOnce(s: Store, ids: seq<string>)
    requires Distinct(ids) && forall id :: id in ids ==> id in s.results
    ensures
      var jobs := NewestFirst(Snapshots(s, ids));
      |jobs| == |ids| && Shows(s, jobs) && Ranked(jobs) && forall id :: id in ids ==> IsListed(jobs, id)
  {
    var snaps := Snapshots(s, ids);
    var jobs := NewestFirst(snaps);
    NewestFirstMembers(snaps);
    ListedOnce(s, ids);
    forall i, j | 0 <= i < j < |jobs| ensures jobs[i].id != jobs[j].id {
      assert SnapshotIDs(jobs)[i] != SnapshotIDs(jobs)[j];
    }
    forall id | id in ids ensures IsListed(jobs, id) {
      var k :| 0 <= k < |ids| && ids[k] == id;
      assert snaps[k] in jobs;
      var i :| 0 <= i < |jobs| && jobs[i] == snaps[k];
    }
  }

  /** The oldest instant of the statistics is the one the listing ends with. */
  lemma OldestIsListedLast(s: Store, t: Time)
    requires Consistent(s) && s.order != [] && IsOldest(s, s.order, t)
    ensures Listing(s) != [] && t == Listing(s)[|Listing(s)| - 1].createdAt
  {
    var snaps, l := Snapshots(s, s.order), Listing(s);
    NewestFirstMembers(snaps);
    var last := l[|l| - 1];
    assert last in snaps;
    NoSnapshotIsOlder(s, last, t);
    var id :| id in s.order && s.results[id].createdAt == t;
    LastIsOldest(s, id);
  }

  lemma NoSnapshotIsOlder(s: Store, snap: JobSnapshot, t: Time)
    requires Consistent(s) && IsOldest(s, s.order, t) && snap in Snapshots(s, s.order)
    ensures t <= snap.createdAt
  {
  }

  lemma LastIsOldest(s: Store, id: string)
    requires Consistent(s) && id in s.order
    ensures Listing(s) != [] && Listing(s)[|Listing(s)| - 1].createdAt <= s.results[id].createdAt
  {
    var snaps, l := Snapshots(s, s.order), Listing(s);
    NewestFirstSorts(snaps);
    NewestFirstMembers(snaps);
    var k :| 0 <= k < |s.order| && s.order[k] == id;
    assert snaps[k] in l;
    var m :| 0 <= m < |l| && l[m] == snaps[k];
  }

  /** The listing and the statistics describe the same jobs. */
  lemma ListingAgreesWithStats(s: Store, stats: StorageStats)
    requires Consistent(s) && Tallies(s, s.order, stats)
    ensures |Listing(s)| == stats.total == |s.results|
    ensures CountOf(stats, Pending) + CountOf(stats, Processing) + CountOf(stats, Completed)
            + CountOf(stats, Failed) + CountOf(stats, Canceled) == stats.total
    ensures stats.oldestJobAt == if Listing(s) == [] then ZERO_TIME else Listing(s)[|Listing(s)| - 1].createdAt
  {
    ListingIsSorted(s);
    DistinctSize(s.order, s.results.Keys);
    StatusesSum(s, s.order);
    forall st ensures CountOf(stats, st) == CountStatus(s, s.order, st) {
    }
    if s.order != [] {
      OldestIsListedLast(s, stats.oldestJobAt);
    }
  }
}
