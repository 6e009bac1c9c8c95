/**
 The Redis back end: one hash per job, one list of job identifiers (newest first) and one
 string per idempotency key.  Every operation is specified by the same StoreModel function
 as its in-memory counterpart, through the abstraction Represents.
 */
module RedisStorage {
  import opened Jobs
  import opened Sorting
  import opened Decimal
  import opened StoreModel
  import opened RedisKeyspace

  // ----- key builders -----

  function JobKey(prefix: string, jobID: string): string { prefix + ":job:" + jobID }

  function OrderKey(prefix: string): string { prefix + ":jobs" }

  function IdempotencyKey(prefix: string, key: string): string { prefix + ":idempotency:" + key }

  function QueueKey(prefix: string): string { prefix + ":queue" }

  function ProcessingKey(prefix: string): string { prefix + ":processing" }

  // ----- record encoding -----

  function StatusName(st: JobStatus): string {
    match st
    case Pending => "pending"
    case Processing => "processing"
    case Completed => "completed"
    case Failed => "failed"
    case Canceled => "canceled"
  }

  /** The status with this name; no other text is ever written. */
  function StatusNamed(name: string): JobStatus {
    if name == "processing" then Processing
    else if name == "completed" then Completed
    else if name == "failed" then Failed
    else if name == "canceled" then Canceled
    else Pending
  }

  lemma StatusRoundTrip(st: JobStatus)
    ensures StatusNamed(StatusName(st)) == st
  {
  }

  /** An instant as text: decimal nanoseconds stand for RFC 3339 text, which is as injective. */
  function FormatTime(t: Time): string { Digits(t) }

  /** Text that does not parse reads as zero. */
  function ParseNumber(s: string): nat {
    if s != [] && forall i :: 0 <= i < |s| ==> IsDigit(s[i]) then DigitsValue(s) else 0
  }

  function Field(m: map<string, string>, name: string): string {
    if name in m then m[name] else ""
  }

  function Encode(r: JobResult): map<string, string> {
    map["url" := r.url, "status" := StatusName(r.status), "pdf_key" := r.pdfKey, "pdf_size" := Digits(r.pdfSize),
        "error" := r.error, "idempotency_key" := r.idempotencyKey, "callback_url" := r.callbackURL,
        "request_id" := r.requestID, "created_at" := FormatTime(r.createdAt), "updated_at" := FormatTime(r.updatedAt)]
  }

  function Decode(m: map<string, string>): JobResult {
    JobResult(Field(m, "url"), StatusNamed(Field(m, "status")), "", Field(m, "pdf_key"), ParseNumber(Field(m, "pdf_size")),
              Field(m, "error"), Field(m, "idempotency_key"), Field(m, "callback_url"), Field(m, "request_id"),
              ParseNumber(Field(m, "created_at")), ParseNumber(Field(m, "updated_at")))
  }

  lemma FieldNamesDistinct()
    ensures Distinct(["url", "status", "pdf_key", "pdf_size", "error", "idempotency_key", "callback_url",
                      "request_id", "created_at", "updated_at"])
  {
  }

  /** Reading a stored record back loses only the inline PDF bytes, which this back end never stores. */
  lemma RecordRoundTrip(r: JobResult)
    ensures Decode(Encode(r)) == r.(inlinePDF := "")
  {
    FieldNamesDistinct();
    var names := ["url", "status", "pdf_key", "pdf_size", "error", "idempotency_key", "callback_url",
                  "request_id", "created_at", "updated_at"];
    assert names[0] != names[1];
    StatusRoundTrip(r.status);
    DigitsRoundTrip(r.pdfSize);
    DigitsRoundTrip(r.createdAt);
    DigitsRoundTrip(r.updatedAt);
    assert forall i, j :: 0 <= i < j < 10 ==> names[i] != names[j];
    var m := Encode(r);
    assert m[names[0]] == r.url;
    assert m[names[1]] == StatusName(r.status);
    assert m[names[2]] == r.pdfKey;
    assert m[names[3]] == Digits(r.pdfSize);
    assert m[names[4]] == r.error;
    assert m[names[5]] == r.idempotencyKey;
    assert m[names[6]] == r.callbackURL;
    assert m[names[7]] == r.requestID;
    assert m[names[8]] == FormatTime(r.createdAt);
    assert m[names[9]] == FormatTime(r.updatedAt);
  }

  /** The ten fields that tell a record. */
  predicate IsWritten(r: JobResult, fields: map<string, string>) {
    && fields.Keys == {"url", "status", "pdf_key", "pdf_size", "error", "idempotency_key", "callback_url", "request_id",
                       "created_at", "updated_at"}
    && fields["url"] == r.url && fields["pdf_key"] == r.pdfKey && fields["error"] == r.error
    && fields["idempotency_key"] == r.idempotencyKey && fields["callback_url"] == r.callbackURL
    && fields["request_id"] == r.requestID && fields["pdf_size"] == Itoa(r.pdfSize)
    && fields["created_at"] == FormatTime(r.createdAt) && fields["updated_at"] == FormatTime(r.updatedAt)
    && (fields["status"] == "pending" <==> r.status == Pending)
    && (fields["status"] == "processing" <==> r.status == Processing)
    && (fields["status"] == "completed" <==> r.status == Completed)
    && (fields["status"] == "failed" <==> r.status == Failed)
    && (fields["status"] == "canceled" <==> r.status == Canceled)
  }

  lemma EncodedFields(r: JobResult)
    ensures IsWritten(r, Encode(r))
  {
    FieldNamesDistinct();
    var names := ["url", "status", "pdf_key", "pdf_size", "error", "idempotency_key", "callback_url",
                  "request_id", "created_at", "updated_at"];
    assert forall i, j :: 0 <= i < j < 10 ==> names[i] != names[j];
    var m := Encode(r);
    assert m[names[0]] == r.url && m[names[1]] == StatusName(r.status) && m[names[2]] == r.pdfKey;
    assert m[names[3]] == Digits(r.pdfSize) && m[names[4]] == r.error && m[names[5]] == r.idempotencyKey;
    assert m[names[6]] == r.callbackURL && m[names[7]] == r.requestID;
    assert m[names[8]] == FormatTime(r.createdAt) && m[names[9]] == FormatTime(r.updatedAt);
  }

  // ----- layout -----

  /** What a Redis key is for, recovered from its text. */
  datatype Use = JobRecord(id: string) | Reservation(key: string) | InsertionOrder | Other

  /** Where and how a store is kept: key builders and the record encoding, with their inverses. */
  datatype Layout = Layout(jobKey: string -> string, orderKey: string, idempotencyKey: string -> string,
                           use: string -> Use,
                           fields: set<string>, encode: JobResult -> map<string, string>, decode: map<string, string> -> JobResult)

  /** A key with a use is the one its builder makes. */
  ghost predicate Built(l: Layout, use: Use, key: string) {
    match use
    case JobRecord(id) => key == l.jobKey(id)
    case Reservation(k) => key == l.idempotencyKey(k)
    case InsertionOrder => key == l.orderKey
    case Other => true
  }

  /** Keys tell their use, and a use tells its key. */
  ghost predicate Addressed(l: Layout) {
    && (forall a :: l.use(l.jobKey(a)) == JobRecord(a))
    && (forall k :: l.use(l.idempotencyKey(k)) == Reservation(k))
    && l.use(l.orderKey) == InsertionOrder
    && (forall key :: Built(l, l.use(key), key))
  }

  /** Records read back as they were stored, inline bytes apart, and all have the same fields. */
  ghost predicate Encodes(l: Layout) {
    && l.fields != {}
    && (forall r :: l.decode(l.encode(r)) == r.(inlinePDF := ""))
    && (forall r :: l.encode(r).Keys == l.fields)
  }

  /** What the storage operations need of a layout. */
  ghost predicate Sound(l: Layout) {
    Addressed(l) && Encodes(l)
  }

  function UseOf(prefix: string, key: string): Use {
    if StartsWith(key, prefix + ":job:") then JobRecord(key[|prefix| + 5..])
    else if StartsWith(key, prefix + ":idempotency:") then Reservation(key[|prefix| + 13..])
    else if key == prefix + ":jobs" then InsertionOrder
    else Other
  }

  predicate StartsWith(s: string, start: string) {
    |start| <= |s| && s[..|start|] == start
  }

  function LayoutFor(prefix: string): (l: Layout) {
    Layout(id => JobKey(prefix, id), OrderKey(prefix), k => IdempotencyKey(prefix, k), key => UseOf(prefix, key),
           Encode(JobResult("", Pending, "", "", 0, "", "", "", "", 0, 0)).Keys, r => Encode(r), m => Decode(m))
  }

  lemma UseIsRecovered(p: string, a: string)
    ensures UseOf(p, JobKey(p, a)) == JobRecord(a)
    ensures UseOf(p, IdempotencyKey(p, a)) == Reservation(a)
    ensures UseOf(p, OrderKey(p)) == InsertionOrder
    ensures UseOf(p, QueueKey(p)) == UseOf(p, ProcessingKey(p)) == Other
  {
    assert IdempotencyKey(p, a)[..|p| + 13] == p + ":idempotency:";
    assert IdempotencyKey(p, a)[|p| + 1] == 'i' && (p + ":job:")[|p| + 1] == 'j';
    assert (p + ":idempotency:")[|p| + 1] == 'i' && OrderKey(p)[|p| + 1] == 'j';
    assert OrderKey(p)[|p| + 4] == 's' && (p + ":job:")[|p| + 4] == ':';
    assert QueueKey(p)[|p| + 1] == 'q' && ProcessingKey(p)[|p| + 1] == 'p';
  }

  /** The real key builders and the real encoding are a sound layout. */
  lemma UsedAsBuilt(prefix: string, key: string)
    ensures Built(LayoutFor(prefix), LayoutFor(prefix).use(key), key)
  {
  }

  lemma LayoutIsSound(prefix: string)
    ensures Sound(LayoutFor(prefix))
  {
    LayoutIsAddressed(prefix);
    LayoutEncodes(prefix);
  }

  lemma LayoutIsAddressed(prefix: string)
    ensures Addressed(LayoutFor(prefix))
  {
    var l := LayoutFor(prefix);
    UseIsRecovered(prefix, "");
    forall key ensures Built(l, l.use(key), key) {
      UsedAsBuilt(prefix, key);
    }
    forall a ensures l.use(l.jobKey(a)) == JobRecord(a) && l.use(l.idempotencyKey(a)) == Reservation(a) {
      UseIsRecovered(prefix, a);
    }
  }

  lemma LayoutEncodes(prefix: string)
    ensures Encodes(LayoutFor(prefix))
  {
    var l := LayoutFor(prefix);
    assert "url" in l.fields;
    forall r ensures l.decode(l.encode(r)) == r.(inlinePDF := "") {
      RecordRoundTrip(r);
    }
  }

  // ----- abstraction -----

  function At(keys: Keyspace, key: string): Option<Item> {
    if key in keys then Some(keys[key]) else None
  }

  /** What a key with this use holds when the store is s. */
  function Wanted(l: Layout, s: Store, use: Use): Option<Item> {
    match use
    case JobRecord(id) => if id in s.results then Some(Hash(l.encode(s.results[id]))) else None
    case Reservation(k) => if k in s.idempotency then Some(Str(s.idempotency[k])) else None
    case InsertionOrder => if s.order != [] then Some(Items(Reverse(s.order))) else None
    case Other => None
  }

  ghost predicate Matches(keys: Keyspace, l: Layout, s: Store) {
    forall key :: l.use(key) != Other ==> At(keys, key) == Wanted(l, s, l.use(key))
  }

  /** The keyspace holds exactly the store s: its records, its reserved keys and its order, newest first. */
  ghost predicate Represents(keys: Keyspace, l: Layout, s: Store) {
    && Consistent(s)
    && (forall id :: id in s.results ==> s.results[id].inlinePDF == "")
    && Matches(keys, l, s)
  }

  /** At most one store is represented, so the abstraction is a function of the keyspace. */
  lemma RepresentsOneStore(keys: Keyspace, l: Layout, s: Store, t: Store)
    requires Sound(l)
    requires Represents(keys, l, s) && Represents(keys, l, t)
    ensures s == t
  {
    forall id ensures id in s.results <==> id in t.results
              ensures id in s.results ==> s.results[id] == t.results[id] {
      assert l.use(l.jobKey(id)) == JobRecord(id);
      if id in s.results && id in t.results {
        assert l.decode(l.encode(s.results[id])) == s.results[id];
        assert l.decode(l.encode(t.results[id])) == t.results[id];
      }
    }
    assert s.results == t.results;
    forall k ensures k in s.idempotency <==> k in t.idempotency
             ensures k in s.idempotency ==> s.idempotency[k] == t.idempotency[k] {
      assert l.use(l.idempotencyKey(k)) == Reservation(k);
    }
    assert s.idempotency == t.idempotency;
    assert l.use(l.orderKey) == InsertionOrder;
    if s.order != [] {
      assert Reverse(s.order) == Reverse(t.order);
      forall i | 0 <= i < |s.order| ensures s.order[i] == t.order[i] {
        assert Reverse(s.order)[|s.order| - 1 - i] == s.order[i];
        assert Reverse(t.order)[|s.order| - 1 - i] == t.order[i];
      }
    }
  }

  lemma WantedAfterSet(l: Layout, s: Store, id: string, r: JobResult, now: Time, use: Use)
    ensures Wanted(l, SetRecord(s, id, r, now), use) ==
            if use == JobRecord(id) then Some(Hash(l.encode(Filled(s, id, r, now))))
            else if use == InsertionOrder && id !in s.results then Some(Items([id] + Reverse(s.order)))
            else Wanted(l, s, use)
  {
    ReverseAppend(s.order, [id]);
    assert Reverse([id]) == [id];
  }

  lemma WantedAfterDelete(l: Layout, s: Store, id: string, use: Use)
    requires id in s.results
    ensures Wanted(l, DeleteRecord(s, id), use) ==
            var left := Without(Reverse(s.order), id);
            if use == JobRecord(id) then None
            else if use == InsertionOrder then (if left == [] then None else Some(Items(left)))
            else if s.results[id].idempotencyKey != "" && use == Reservation(s.results[id].idempotencyKey) then None
            else Wanted(l, s, use)
  {
    WithoutReverse(s.order, id);
  }

  lemma RepresentsAfterReserve(keys: Keyspace, l: Layout, s: Store, key: string, id: string)
    requires Addressed(l) && Matches(keys, l, s) && key != "" && key !in s.idempotency
    ensures Matches(keys[l.idempotencyKey(key) := Str(id)], l, ReserveKey(s, key, id))
  {
  }

  lemma RecordIsStored(keys: Keyspace, l: Layout, s: Store, id: string)
    requires Sound(l) && Represents(keys, l, s)
    ensures id in s.results <==> l.jobKey(id) in keys
    ensures id in s.results ==>
              && keys[l.jobKey(id)] == Hash(l.encode(s.results[id]))
              && l.encode(s.results[id]) != map[]
              && l.encode(s.results[id]).Keys == l.fields
              && l.decode(l.encode(s.results[id])) == s.results[id]
  {
  }

  /** How a stored record can be read with any Redis client: the text of each field of its hash. */
  lemma StoredFields(keys: Keyspace, prefix: string, s: Store, id: string)
    requires Represents(keys, LayoutFor(prefix), s) && id in s.results
    ensures
      var key := prefix + ":job:" + id;
      key in keys && keys[key].Hash? && IsWritten(s.results[id], keys[key].fields)
  {
    LayoutIsSound(prefix);
    RecordIsStored(keys, LayoutFor(prefix), s, id);
    EncodedFields(s.results[id]);
  }

  lemma OrderIsStored(keys: Keyspace, l: Layout, s: Store)
    requires Sound(l) && Represents(keys, l, s)
    ensures l.orderKey in keys <==> s.order != []
    ensures s.order != [] ==> keys[l.orderKey] == Items(Reverse(s.order))
  {
  }

  /** The keyspace after a job is listed (when new) and its hash written. */
  function Written(keys: Keyspace, l: Layout, id: string, record: JobResult, known: bool): Keyspace
    requires l.orderKey in keys ==> keys[l.orderKey].Items?
  {
    var listed := if known then keys
                  else keys[l.orderKey := Items([id] + if l.orderKey in keys then keys[l.orderKey].elements else [])];
    listed[l.jobKey(id) := Hash(l.encode(record))]
  }

  lemma RepresentsAfterSet(keys: Keyspace, l: Layout, s: Store, id: string, r: JobResult, now: Time)
    requires Sound(l) && Represents(keys, l, s)
    ensures l.orderKey in keys ==> keys[l.orderKey].Items?
    ensures Matches(Written(keys, l, id, Filled(s, id, r, now), id in s.results), l, SetRecord(s, id, r, now))
  {
    OrderIsStored(keys, l, s);
    var after := Written(keys, l, id, Filled(s, id, r, now), id in s.results);
    forall key | l.use(key) != Other
      ensures At(after, key) == Wanted(l, SetRecord(s, id, r, now), l.use(key))
    {
      WantedAfterSet(l, s, id, r, now, l.use(key));
      assert Built(l, l.use(key), key);
      assert l.use(l.jobKey(id)) == JobRecord(id);
      assert s.order == [] ==> [id] + Reverse(s.order) == [id];
    }
  }

  /** What Set needs to know before it writes, and what its writes achieve. */
  lemma SetIsRepresented(keys: Keyspace, l: Layout, s: Store, id: string, r: JobResult, now: Time)
    requires Sound(l) && Represents(keys, l, s) && now != ZERO_TIME && r.inlinePDF == ""
    ensures l.jobKey(id) != l.orderKey
    ensures l.orderKey in keys ==> keys[l.orderKey].Items?
    ensures l.jobKey(id) in keys ==>
              keys[l.jobKey(id)].Hash? && keys[l.jobKey(id)].fields.Keys == l.encode(Filled(s, id, r, now)).Keys
    ensures Represents(Written(keys, l, id, Filled(s, id, r, now), id in s.results), l, SetRecord(s, id, r, now))
  {
    RecordIsStored(keys, l, s, id);
    SetKeepsConsistent(s, id, r, now);
    RepresentsAfterSet(keys, l, s, id, r, now);
    assert l.use(l.jobKey(id)) != l.use(l.orderKey);
    assert l.encode(Filled(s, id, r, now)).Keys == l.fields;
  }

  /** The keyspace after DEL of a job's hash, LREM of its list entry and DEL of its reservation. */
  function Erased(keys: Keyspace, l: Layout, id: string, key: string): Keyspace
    requires l.orderKey in keys ==> keys[l.orderKey].Items?
  {
    var hashless := keys - {l.jobKey(id)};
    var unlisted := if l.orderKey !in hashless then hashless
                    else var left := Without(hashless[l.orderKey].elements, id);
                         if left == [] then hashless - {l.orderKey} else hashless[l.orderKey := Items(left)];
    if key == "" then unlisted else unlisted - {l.idempotencyKey(key)}
  }

  lemma RepresentsAfterDelete(keys: Keyspace, l: Layout, s: Store, id: string)
    requires Sound(l) && Represents(keys, l, s) && id in s.results
    ensures l.orderKey in keys && keys[l.orderKey].Items?
    ensures Matches(Erased(keys, l, id, HeldKey(s, id)), l, DeleteRecord(s, id))
  {
    OrderIsStored(keys, l, s);
    assert id in s.order;
    var after := Erased(keys, l, id, HeldKey(s, id));
    forall key | l.use(key) != Other
      ensures At(after, key) == Wanted(l, DeleteRecord(s, id), l.use(key))
    {
      WantedAfterDelete(l, s, id, l.use(key));
      ErasedAt(keys, l, s, id, key);
    }
  }

  lemma ErasedAt(keys: Keyspace, l: Layout, s: Store, id: string, key: string)
    requires Sound(l) && l.use(key) != Other && l.orderKey in keys && keys[l.orderKey] == Items(Reverse(s.order))
    ensures
      var left := Without(Reverse(s.order), id);
      At(Erased(keys, l, id, HeldKey(s, id)), key) ==
      if l.use(key) == JobRecord(id) then None
      else if l.use(key) == InsertionOrder then (if left == [] then None else Some(Items(left)))
      else if HeldKey(s, id) != "" && l.use(key) == Reservation(HeldKey(s, id)) then None
      else At(keys, key)
  {
    assert Built(l, l.use(key), key);
    assert l.use(l.jobKey(id)) == JobRecord(id);
    assert l.use(l.orderKey) == InsertionOrder;
    assert l.use(l.idempotencyKey(HeldKey(s, id))) == Reservation(HeldKey(s, id));
  }

  lemma ErasedIsUnchanged(keys: Keyspace, l: Layout, s: Store, id: string)
    requires Sound(l) && Represents(keys, l, s) && id !in s.results
    ensures l.orderKey in keys ==> keys[l.orderKey].Items?
    ensures Erased(keys, l, id, "") == keys
  {
    RecordIsStored(keys, l, s, id);
    OrderIsStored(keys, l, s);
    assert keys - {l.jobKey(id)} == keys;
    WithoutAbsent(Reverse(s.order), id);
  }

  lemma DeleteIsRepresented(keys: Keyspace, l: Layout, s: Store, id: string)
    requires Sound(l) && Represents(keys, l, s)
    ensures l.orderKey in keys ==> keys[l.orderKey].Items?
    ensures Represents(Erased(keys, l, id, HeldKey(s, id)), l, DeleteRecord(s, id))
  {
    if id in s.results {
      RepresentsAfterDelete(keys, l, s, id);
      DeleteKeepsConsistent(s, id);
    } else {
      ErasedIsUnchanged(keys, l, s, id);
    }
  }

  lemma ReplacingAllFields(a: map<string, string>, b: map<string, string>)
    requires a.Keys == b.Keys
    ensures a + b == b
  {
  }

  // ----- the back end -----

  const LIST_LIMIT: nat := 200

  /** The identifiers a listing reads: the newest 200 entries of the order list. */
  function Listed(s: Store): (ids: seq<string>)
    ensures forall id :: id in ids ==> id in s.order
  {
    Front(Reverse(s.order), LIST_LIMIT - 1)
  }

  /** This back end's listing: the listed jobs newest first, ties with the later insertion first. */
  ghost function ShortListing(s: Store): seq<JobSnapshot>
    requires Consistent(s)
  {
    NewestFirst(Snapshots(s, Listed(s)))
  }

  /** What Cancel returns: the record as read, marked canceled if it was not finished. */
  function CancelReply(s: Store, id: string): Option<JobResult> {
    if id !in s.results then None
    else if s.results[id].status.Terminal() then Some(s.results[id])
    else Some(CanceledRecord(s.results[id]))
  }

  /** The reply, field by field. */
  predicate CancelAnswered(s: Store, id: string, reply: Option<JobResult>) {
    if id !in s.results then reply.None?
    else if s.results[id].status == Pending || s.results[id].status == Processing
    then reply == Some(s.results[id].(status := Canceled, error := "job canceled"))
    else reply == Some(s.results[id])
  }

  lemma CancelIsAnswered(s: Store, id: string)
    ensures CancelAnswered(s, id, CancelReply(s, id))
  {
  }

  lemma RecordsAreBare(keys: Keyspace, l: Layout, s: Store, id: string)
    requires Represents(keys, l, s) && id in s.results
    ensures Bared(CanceledRecord(s.results[id])) == CanceledRecord(s.results[id])
  {
  }

  /** Folds an alternating field/value reply into a map. */
  method Collect(arr: seq<string>) returns (m: map<string, string>)
    ensures m == Pairs(arr)
  {
    m := map[];
    var i := 0;
    while i + 1 < |arr|
      invariant 0 <= i <= |arr| && i % 2 == 0
      invariant m == Pairs(arr[..i])
    {
      m := m[arr[i] := arr[i + 1]];
      assert arr[..i + 2][..i] == arr[..i];
      i := i + 2;
    }
    assert |arr| % 2 == 0 ==> arr[..i] == arr;
  }

  /** The record to write: unset fields come from the existing one. */
  method FillIn(result: JobResult, existing: Option<JobResult>, now: Time) returns (record: JobResult)
    ensures record == FillFrom(existing, result, now)
  {
    var createdAt := result.createdAt;
    if createdAt == ZERO_TIME {
      if existing.Some? && existing.value.createdAt != ZERO_TIME {
        createdAt := existing.value.createdAt;
      } else {
        createdAt := now;
      }
    }
    var idempotencyKey, callbackURL, requestID := result.idempotencyKey, result.callbackURL, result.requestID;
    if existing.Some? {
      if idempotencyKey == "" { idempotencyKey := existing.value.idempotencyKey; }
      if callbackURL == "" { callbackURL := existing.value.callbackURL; }
      if requestID == "" { requestID := existing.value.requestID; }
    }
    record := result.(createdAt := createdAt, updatedAt := now, idempotencyKey := idempotencyKey,
                      callbackURL := callbackURL, requestID := requestID);
  }

  class RedisStorage {
    const client: RedisServer
    const layout: Layout
    ghost var store: Store

    ghost predicate Valid()
      reads this, client
    {
      Sound(layout) && Represents(client.keys, layout, store)
    }

    constructor (client: RedisServer, prefix: string)
      requires Represents(client.keys, LayoutFor(if prefix == "" then "chromaflow" else prefix), EMPTY)
      ensures Valid() && store == EMPTY && this.client == client
      ensures layout == LayoutFor(if prefix == "" then "chromaflow" else prefix)
    {
      this.client := client;
      this.layout := LayoutFor(if prefix == "" then "chromaflow" else prefix);
      store := EMPTY;
      LayoutIsSound(if prefix == "" then "chromaflow" else prefix);
    }

    method Get(jobID: string) returns (result: Option<JobResult>)
      requires Valid()
      ensures result == if jobID in store.results then Some(store.results[jobID]) else None
    {
      RecordIsStored(client.keys, layout, store, jobID);
      var v := client.HGetAll(layout.jobKey(jobID));
      if v.WrongType? || v.value == [] {
        return None;
      }
      var m := Collect(v.value);
      result := Some(layout.decode(m));
    }

    /** The hash has no field for inline document bytes: they are dropped. */
    method Set(jobID: string, result: JobResult, now: Time)
      requires Valid() && now != ZERO_TIME
      modifies this`store, client
      ensures Valid() && store == SetRecord(old(store), jobID, Bared(result), now)
      ensures SetTo(old(store), jobID, result.(inlinePDF := ""), now, store)
    {
      var existing := Get(jobID);
      var record := FillIn(Bared(result), existing, now);
      SetIsRepresented(client.keys, layout, store, jobID, Bared(result), now);
      SetIsRecorded(store, jobID, Bared(result), now);
      WriteRecord(jobID, record, existing.Some?);
      store := SetRecord(store, jobID, Bared(result), now);
    }

    /** Lists a new job and writes its hash. */
    method WriteRecord(jobID: string, record: JobResult, known: bool)
      requires layout.jobKey(jobID) != layout.orderKey
      requires layout.orderKey in client.keys ==> client.keys[layout.orderKey].Items?
      requires layout.jobKey(jobID) in client.keys ==>
                 client.keys[layout.jobKey(jobID)].Hash? &&
                 client.keys[layout.jobKey(jobID)].fields.Keys == layout.encode(record).Keys
      modifies client
      ensures client.keys == Written(old(client.keys), layout, jobID, record, known)
    {
      if !known {
        var pushed := client.LPush(layout.orderKey, jobID);
      }
      if layout.jobKey(jobID) in client.keys {
        ReplacingAllFields(client.keys[layout.jobKey(jobID)].fields, layout.encode(record));
      }
      var stored := client.HSet(layout.jobKey(jobID), layout.encode(record));
      assert map[] + layout.encode(record) == layout.encode(record);
    }

    method Delete(jobID: string)
      requires Valid()
      modifies this`store, client
      ensures Valid() && store == DeleteRecord(old(store), jobID)
    {
      var result := Get(jobID);
      DeleteIsRepresented(client.keys, layout, store, jobID);
      client.Del(layout.jobKey(jobID));
      var removed := client.LRem(layout.orderKey, jobID);
      if result.Some? && result.value.idempotencyKey != "" {
        client.Del(layout.idempotencyKey(result.value.idempotencyKey));
      }
      store := DeleteRecord(store, jobID);
    }

    /** Unlike the in-memory back end, the record returned after a write keeps its old update instant. */
    method Cancel(jobID: string, now: Time) returns (result: Option<JobResult>)
      requires Valid() && now != ZERO_TIME
      modifies this`store, client
      ensures Valid() && store == CancelRecord(old(store), jobID, now)
      ensures result == CancelReply(old(store), jobID)
      ensures CancelAnswered(old(store), jobID, result)
    {
      CancelIsAnswered(store, jobID);
      result := Get(jobID);
      if result.None? { return; }
      if result.value.status == Completed || result.value.status == Failed || result.value.status == Canceled {
        return;
      }
      RecordsAreBare(client.keys, layout, store, jobID);
      result := Some(CanceledRecord(result.value));
      Set(jobID, result.value, now);
    }

    method ReserveIdempotencyKey(key: string, jobID: string) returns (holder: string, reserved: bool)
      requires Valid()
      modifies this`store, client
      ensures Valid() && store == ReserveKey(old(store), key, jobID)
      ensures reserved <==> key == "" || key !in old(store).idempotency
      ensures key == "" ==> holder == ""
      ensures key != "" ==> key in store.idempotency && holder == store.idempotency[key]
      ensures key != "" && reserved ==> holder == jobID
      ensures store.idempotency == if key != "" && reserved then old(store).idempotency[key := jobID] else old(store).idempotency
    {
      if key == "" { return "", true; }
      if key !in store.idempotency {
        RepresentsAfterReserve(client.keys, layout, store, key, jobID);
      }
      store := ReserveKey(store, key, jobID);
      reserved := client.SetNX(layout.idempotencyKey(key), jobID);
      if reserved { return jobID, true; }
      var existing := client.Get(layout.idempotencyKey(key));
      holder := if existing.Ok? && existing.value.Some? then existing.value.value else "";
    }

    method List() returns (jobs: seq<JobSnapshot>)
      requires Valid()
      ensures jobs == ShortListing(store)
      ensures |jobs| == if |store.order| <= 200 then |store.order| else 200
      ensures Shows(store, jobs) && Ranked(jobs)
      ensures forall k :: 0 <= k < |store.order| && |store.order| - 200 <= k ==> IsListed(jobs, store.order[k])
    {
      var v := client.LRange(layout.orderKey, LIST_LIMIT - 1);
      var ids := if v.Ok? then v.value else [];
      assert ids == Listed(store);
      jobs := [];
      var seen: set<string> := {};
      for i := 0 to |ids|
        invariant jobs == Snapshots(store, ids[..i])
        invariant seen == set id | id in ids[..i]
      {
        var id := ids[i];
        ListedNext(store, i);
        if id in seen { continue; }
        seen := seen + {id};
        var result := Get(id);
        if result.None? { continue; }
        var r := result.value;
        jobs := jobs + [JobSnapshot(id, r.url, r.status, r.error, r.createdAt, r.updatedAt)];
      }
      assert ids[..|ids|] == ids;
      ListedDistinct(store);
      ListedEachOnce(store, ids);
      LatestAreListed(store);
      jobs := NewestFirst(jobs);
    }

    /** Counts the listed jobs only. */
    method Stats() returns (stats: StorageStats)
      requires Valid()
      ensures Tallies(store, Listed(store), stats)
      ensures stats.total == if |store.order| <= 200 then |store.order| else 200
      ensures forall st :: CountOf(stats, st) == |set id | id in Listed(store) && store.results[id].status == st|
    {
      var jobs := List();
      stats := StorageStats(0, map[], 0, ZERO_TIME);
      for i := 0 to |jobs|
        invariant CountedUpTo(store, jobs, i, stats)
      {
        CountedStep(store, jobs, i, stats);
        var job := jobs[i];
        var result := Get(job.id);
        stats := Tally(stats, job.status, job.createdAt, SizeOf(result));
      }
      CountedAll(store, jobs, stats);
    }
  }

  /** The next listed job was not listed before, and its snapshot is the next one. */
  lemma ListedNext(s: Store, i: nat)
    requires Consistent(s) && i < |Listed(s)|
    ensures
      var ids := Listed(s);
      && ids[i] in s.results && ids[i] !in ids[..i] && ids[..i + 1] == ids[..i] + [ids[i]]
      && Snapshots(s, ids[..i + 1]) == Snapshots(s, ids[..i]) + [Snapshot(s, ids[i])]
  {
    var ids := Listed(s);
    assert ids[i] in ids;
    ListedDistinct(s);
    assert ids[..i + 1] == ids[..i] + [ids[i]];
  }

  function SizeOf(result: Option<JobResult>): nat {
    if result.Some? then result.value.pdfSize else 0
  }

  /** stats tallies the first i listed jobs. */
  ghost predicate CountedUpTo(s: Store, jobs: seq<JobSnapshot>, i: nat, stats: StorageStats) {
    && i <= |jobs|
    && (forall id :: id in SnapshotIDs(jobs[..i]) ==> id in s.results)
    && Tallies(s, SnapshotIDs(jobs[..i]), stats)
  }

  lemma CountedStep(s: Store, jobs: seq<JobSnapshot>, i: nat, stats: StorageStats)
    requires Consistent(s) && (forall id :: id in s.results ==> s.results[id].inlinePDF == "")
    requires jobs == ShortListing(s) && i < |jobs| && CountedUpTo(s, jobs, i, stats)
    ensures jobs[i].id in s.results
    ensures jobs[i] == Snapshot(s, jobs[i].id)
    ensures CountedUpTo(s, jobs, i + 1, TallyRecord(stats, s.results[jobs[i].id]))
  {
    ListedJob(s, jobs[i]);
    TallyExtends(s, SnapshotIDs(jobs[..i]), jobs[i].id, stats);
    assert SnapshotIDs(jobs[..i + 1]) == SnapshotIDs(jobs[..i]) + [jobs[i].id];
  }

  lemma CountedAll(s: Store, jobs: seq<JobSnapshot>, stats: StorageStats)
    requires Consistent(s) && jobs == ShortListing(s) && CountedUpTo(s, jobs, |jobs|, stats)
    ensures Tallies(s, Listed(s), stats)
    ensures stats.total == if |s.order| <= 200 then |s.order| else 200
    ensures forall st :: CountOf(stats, st) == |set id | id in Listed(s) && s.results[id].status == st|
  {
    assert jobs[..|jobs|] == jobs;
    VisitedIsListed(s, SnapshotIDs(jobs));
    TalliesPermuted(s, SnapshotIDs(jobs), Listed(s), stats);
    ListedDistinct(s);
    LatestAreListed(s);
    TalliesMean(s, Listed(s), stats);
  }

  lemma ListedJob(s: Store, job: JobSnapshot)
    requires Consistent(s) && job in ShortListing(s)
    ensures job.id in s.results && job == Snapshot(s, job.id)
  {
    NewestFirstMembers(Snapshots(s, Listed(s)));
  }

  lemma VisitedIsListed(s: Store, visited: seq<string>)
    requires Consistent(s) && visited == SnapshotIDs(ShortListing(s))
    ensures multiset(visited) == multiset(Listed(s))
  {
    ListingIDsPermuted(Snapshots(s, Listed(s)));
    SnapshotsIDs(s, Listed(s));
  }

  /** The jobs listed are the last 200 in insertion order. */
  lemma LatestAreListed(s: Store)
    ensures |Listed(s)| == if |s.order| <= 200 then |s.order| else 200
    ensures forall k :: 0 <= k < |s.order| && |s.order| - 200 <= k ==> s.order[k] in Listed(s)
  {
    forall k | 0 <= k < |s.order| && |s.order| - 200 <= k ensures s.order[k] in Listed(s) {
      assert Listed(s)[|s.order| - 1 - k] == s.order[k];
    }
  }

  lemma ListedDistinct(s: Store)
    requires Consistent(s)
    ensures Distinct(Listed(s))
  {
    var r := Reverse(s.order);
    forall i, j | 0 <= i < j < |r| ensures r[i] != r[j] {
      assert r[i] == s.order[|r| - 1 - i] && r[j] == s.order[|r| - 1 - j];
    }
  }
}
