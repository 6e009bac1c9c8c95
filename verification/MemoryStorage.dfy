/** The in-memory back end: a map of records, a map of idempotency keys and an insertion order. */
module MemoryStorage {
  import opened Jobs
  import opened Sorting
  import opened StoreModel

  /** What a tally of all jobs says, whatever order they were visited in. */
  lemma VisitedAll(s: Store, visited: seq<string>, stats: StorageStats)
    requires Consistent(s) && Distinct(visited) && forall id :: id in visited <==> id in s.results
    requires Tallies(s, visited, stats)
    ensures stats.total == |s.results| && Tallies(s, s.order, stats)
    ensures forall st :: CountOf(stats, st) == |set id | id in s.results && s.results[id].status == st|
    ensures s.results == map[] ==> stats.oldestJobAt == ZERO_TIME
    ensures s.results != map[] ==> exists id :: id in s.results && s.results[id].createdAt == stats.oldestJobAt
    ensures forall id :: id in s.results ==> stats.oldestJobAt <= s.results[id].createdAt
  {
    DistinctSize(visited, s.results.Keys);
    DistinctSameMembers(visited, s.order);
    TalliesPermuted(s, visited, s.order, stats);
    TalliesMean(s, visited, stats);
    forall st ensures CountOf(stats, st) == |set id | id in s.results && s.results[id].status == st| {
      assert (set id | id in visited && s.results[id].status == st) == (set id | id in s.results && s.results[id].status == st);
    }
    if s.results != map[] {
      var id :| id in s.results;
      assert id in visited;
    }
  }

  class MemoryStorage {
    var results: map<string, JobResult>
    var idempotency: map<string, string>
    var order: seq<string>

    ghost function View(): Store
      reads this
    {
      Store(results, idempotency, order)
    }

    ghost predicate Valid()
      reads this
    {
      Consistent(View())
    }

    constructor ()
      ensures Valid() && View() == EMPTY
    {
      results, idempotency, order := map[], map[], [];
    }

    /** Stores result with its unset fields filled in; the caller's object is filled in too. */
    method Set(jobID: string, result: JobResult, now: Time) returns (stored: JobResult)
      requires Valid() && now != ZERO_TIME
      modifies this
      ensures Valid() && View() == SetRecord(old(View()), jobID, result, now)
      ensures stored == Filled(old(View()), jobID, result, now)
      ensures SetTo(old(View()), jobID, result, now, View()) && stored == results[jobID]
    {
      SetKeepsConsistent(View(), jobID, result, now);
      SetIsRecorded(View(), jobID, result, now);
      stored := result;
      if jobID !in results {
        order := order + [jobID];
      }
      if stored.createdAt == ZERO_TIME {
        if jobID in results && results[jobID].createdAt != ZERO_TIME {
          stored := stored.(createdAt := results[jobID].createdAt);
        } else {
          stored := stored.(createdAt := now);
        }
      }
      stored := stored.(updatedAt := now);
      if jobID in results {
        var existing := results[jobID];
        if stored.idempotencyKey == "" { stored := stored.(idempotencyKey := existing.idempotencyKey); }
        if stored.callbackURL == "" { stored := stored.(callbackURL := existing.callbackURL); }
        if stored.requestID == "" { stored := stored.(requestID := existing.requestID); }
      }
      results := results[jobID := stored];
    }

    method Delete(jobID: string)
      requires Valid()
      modifies this
      ensures Valid() && View() == DeleteRecord(old(View()), jobID)
      ensures results == old(results) - {jobID}
      ensures idempotency == if jobID in old(results) && old(results)[jobID].idempotencyKey != ""
                             then old(idempotency) - {old(results)[jobID].idempotencyKey} else old(idempotency)
      ensures jobID !in old(results) ==> order == old(order)
      ensures jobID in old(results) ==>
                exists k :: 0 <= k < |old(order)| && old(order)[k] == jobID
                            && order == old(order)[..k] + old(order)[k + 1..]
    {
      if jobID !in results { return; }
      DeleteKeepsConsistent(View(), jobID);
      var result := results[jobID];
      results := results - {jobID};
      if result.idempotencyKey != "" {
        idempotency := idempotency - {result.idempotencyKey};
      }
      var i := 0;
      while i < |order|
        invariant 0 <= i <= |order| && order == old(order)
        invariant jobID !in order[..i]
        invariant results == old(results) - {jobID}
        invariant idempotency == DeleteRecord(old(View()), jobID).idempotency
      {
        if order[i] == jobID {
          WithoutIsCut(order, i);
          order := order[..i] + order[i + 1..];
          return;
        }
        i := i + 1;
      }
      WithoutAbsent(order, jobID);
    }

    method Get(jobID: string) returns (result: Option<JobResult>)
      ensures result == if jobID in results then Some(results[jobID]) else None
    {
      if jobID !in results { return None; }
      result := Some(results[jobID]);
    }

    /** Cancels a job that is not terminal; any other record is returned as it is. */
    method Cancel(jobID: string, now: Time) returns (result: Option<JobResult>)
      requires Valid() && now != ZERO_TIME
      modifies this
      ensures Valid() && View() == CancelRecord(old(View()), jobID, now)
      ensures result == if jobID in results then Some(results[jobID]) else None
      ensures jobID in old(results) && (old(results)[jobID].status == Pending || old(results)[jobID].status == Processing) ==>
                result == Some(old(results)[jobID].(status := Canceled, error := "job canceled", updatedAt := now))
      ensures jobID in old(results) && old(results)[jobID].status != Pending && old(results)[jobID].status != Processing ==>
                result == Some(old(results)[jobID])
      ensures results == if result.None? then old(results) else old(results)[jobID := result.value]
      ensures idempotency == old(idempotency) && order == old(order)
    {
      result := Get(jobID);
      if result.None? { return; }
      if result.value.status == Completed || result.value.status == Failed || result.value.status == Canceled {
        return;
      }
      var stored := Set(jobID, CanceledRecord(result.value), now);
      result := Some(stored);
    }

    /** Gives the key to jobID unless another job has it; the key's holder is returned. */
    method ReserveIdempotencyKey(key: string, jobID: string) returns (holder: string, reserved: bool)
      requires Valid()
      modifies this
      ensures Valid() && View() == ReserveKey(old(View()), key, jobID)
      ensures reserved <==> key == "" || key !in old(idempotency)
      ensures key == "" ==> holder == ""
      ensures key != "" ==> key in idempotency && holder == idempotency[key]
      ensures key != "" && reserved ==> holder == jobID
      ensures idempotency == if key != "" && reserved then old(idempotency)[key := jobID] else old(idempotency)
    {
      if key == "" { return "", true; }
      if key in idempotency { return idempotency[key], false; }
      idempotency := idempotency[key := jobID];
      holder, reserved := jobID, true;
    }

    /** Counts the stored jobs, visiting the records in any order. */
    method Stats() returns (stats: StorageStats)
      requires Valid()
      ensures Tallies(View(), order, stats)
      ensures stats.total == |results|
      ensures forall st :: CountOf(stats, st) == |set id | id in results && results[id].status == st|
      ensures results == map[] ==> stats.oldestJobAt == ZERO_TIME
      ensures results != map[] ==> exists id :: id in results && results[id].createdAt == stats.oldestJobAt
      ensures forall id :: id in results ==> stats.oldestJobAt <= results[id].createdAt
    {
      stats := StorageStats(0, map[], 0, ZERO_TIME);
      ghost var visited: seq<string> := [];
      var left := results.Keys;
      while left != {}
        invariant Distinct(visited) && left <= results.Keys
        invariant forall id :: id in visited <==> id in results && id !in left
        invariant Tallies(View(), visited, stats)
        decreases left
      {
        var id :| id in left;
        left := left - {id};
        TallyExtends(View(), visited, id, stats);
        stats := TallyRecord(stats, results[id]);
        visited := visited + [id];
      }
      VisitedAll(View(), visited, stats);
      stats := stats.(total := |results|);
    }

    method List() returns (jobs: seq<JobSnapshot>)
      requires Valid()
      ensures jobs == Listing(View())
      ensures Shows(View(), jobs) && Ranked(jobs) && forall id :: id in results ==> IsListed(jobs, id)
    {
      jobs := [];
      for i := 0 to |order|
        invariant jobs == Snapshots(View(), order[..i])
      {
        var jobID := order[i];
        assert jobID in order;
        var result := results[jobID];
        jobs := jobs + [JobSnapshot(jobID, result.url, result.status, result.error, result.createdAt, result.updatedAt)];
        assert order[..i + 1] == order[..i] + [jobID];
      }
      assert order[..|order|] == order;
      ListedEachOnce(View(), order);
      jobs := NewestFirst(jobs);
    }
  }
}
