/** The metrics registry: counters and cumulative histograms per label, with durations as reals. */
module Metrics {
  import opened Jobs
  import opened Decimal

  const RENDER_BUCKETS: seq<real> := [1.0, 2.5, 5.0, 10.0, 15.0, 30.0, 60.0, 120.0]
  const HTTP_BUCKETS: seq<real> := [0.005, 0.01, 0.025, 0.05, 0.1, 0.25, 0.5, 1.0, 2.5, 5.0, 10.0]

  datatype HTTPLabel = HTTPLabel(httpMethod: string, path: string, code: string)

  datatype Render = Render(status: string, seconds: real, bytes: int)

  /** Three maps kept in step: observations, their sum, and how many were at or below each bound. */
  datatype Histogram<!K(==)> = Histogram(count: map<K, nat>, sum: map<K, real>, buckets: map<K, seq<nat>>)

  // ----- what a histogram should say about the observations made -----

  /** One observation: its label and its duration. */
  datatype Sample<K> = Sample(series: K, seconds: real)

  function Of<K(==)>(log: seq<Sample<K>>, series: K): seq<real> {
    if log == [] then []
    else Of(log[..|log| - 1], series) + (if log[|log| - 1].series == series then [log[|log| - 1].seconds] else [])
  }

  function AtMost(values: seq<real>, bound: real): nat {
    if values == [] then 0
    else AtMost(values[..|values| - 1], bound) + if values[|values| - 1] <= bound then 1 else 0
  }

  function Sum(values: seq<real>): real {
    if values == [] then 0.0 else Sum(values[..|values| - 1]) + values[|values| - 1]
  }

  ghost predicate Describes(buckets: seq<nat>, bounds: seq<real>, values: seq<real>) {
    |buckets| == |bounds| && forall i :: 0 <= i < |bounds| ==> buckets[i] == AtMost(values, bounds[i])
  }

  /** What the three maps say of one label, given the durations observed under it. */
  ghost predicate Tells<K>(h: Histogram<K>, bounds: seq<real>, series: K, values: seq<real>) {
    if values == [] then series !in h.count && series !in h.sum && series !in h.buckets
    else
      && series in h.count && h.count[series] == |values|
      && series in h.sum && h.sum[series] == Sum(values)
      && series in h.buckets && Describes(h.buckets[series], bounds, values)
  }

  /** Each label has the count, sum and buckets of its own observations; a label not seen has none. */
  ghost predicate Faithful<K(!new)>(h: Histogram<K>, bounds: seq<real>, log: seq<Sample<K>>) {
    forall k :: Tells(h, bounds, k, Of(log, k))
  }

  ghost predicate Ascending(bounds: seq<real>) {
    forall i, j :: 0 <= i < j < |bounds| ==> bounds[i] < bounds[j]
  }

  /** It is the number of observations at or below the bound. */
  lemma {:induction false} AtMostIsSize(values: seq<real>, bound: real)
    ensures AtMost(values, bound) == |set i: nat | i < |values| && values[i] <= bound|
  {
    if values == [] {
      NoneAtMost(values, bound);
    } else {
      AtMostIsSize(values[..|values| - 1], bound);
      OneMoreAtMost(values[..|values| - 1], values[|values| - 1], bound);
      assert values == values[..|values| - 1] + [values[|values| - 1]];
    }
  }

  lemma NoneAtMost(values: seq<real>, bound: real)
    requires |values| == 0
    ensures (set i: nat | i < |values| && values[i] <= bound) == {}
  {
  }

  lemma OneMoreAtMost(front: seq<real>, last: real, bound: real)
    ensures
      |set i: nat | i < |front + [last]| && (front + [last])[i] <= bound| ==
      |set i: nat | i < |front| && front[i] <= bound| + if last <= bound then 1 else 0
  {
    var before := set i: nat | i < |front| && front[i] <= bound;
    var all := set i: nat | i < |front + [last]| && (front + [last])[i] <= bound;
    assert all == if last <= bound then before + {|front|} else before;
  }

  lemma {:induction false} AtMostGrows(values: seq<real>, low: real, high: real)
    requires low <= high
    ensures AtMost(values, low) <= AtMost(values, high) <= |values|
  {
    if values != [] { AtMostGrows(values[..|values| - 1], low, high); }
  }

  /** In a faithful histogram every label's buckets are non-decreasing and at most its count. */
  lemma BucketsAreCumulative<K(!new)>(h: Histogram<K>, bounds: seq<real>, log: seq<Sample<K>>, series: K)
    requires Faithful(h, bounds, log) && Ascending(bounds) && Of(log, series) != []
    ensures series in h.count && series in h.buckets && h.count[series] == |Of(log, series)|
    ensures |h.buckets[series]| == |bounds|
    ensures forall i, j :: 0 <= i <= j < |bounds| ==> h.buckets[series][i] <= h.buckets[series][j] <= h.count[series]
  {
    var values := Of(log, series);
    assert Tells(h, bounds, series, values);
    forall i, j | 0 <= i <= j < |bounds|
      ensures h.buckets[series][i] <= h.buckets[series][j] <= h.count[series]
    {
      AtMostGrows(values, bounds[i], bounds[j]);
    }
  }

  lemma {:induction false} OfMembers<K>(log: seq<Sample<K>>, series: K, seconds: real)
    ensures seconds in Of(log, series) <==> Sample(series, seconds) in log
  {
    if log != [] {
      var front, last := log[..|log| - 1], log[|log| - 1];
      OfMembers(front, series, seconds);
      assert log == front + [last];
    }
  }

  lemma BoundsAscend()
    ensures Ascending(RENDER_BUCKETS) && Ascending(HTTP_BUCKETS)
  {
  }

  // ----- one observation -----

  /** Adds one to every bucket whose bound the observation does not exceed. */
  method CountIn(bounds: seq<real>, buckets: seq<nat>, seconds: real, ghost values: seq<real>) returns (r: seq<nat>)
    requires Describes(buckets, bounds, values)
    ensures Describes(r, bounds, values + [seconds])
  {
    assert (values + [seconds])[..|values|] == values;
    r := buckets;
    for i := 0 to |bounds|
      invariant |r| == |bounds|
      invariant forall k :: 0 <= k < i ==> r[k] == AtMost(values + [seconds], bounds[k])
      invariant forall k :: i <= k < |bounds| ==> r[k] == AtMost(values, bounds[k])
    {
      if seconds <= bounds[i] {
        r := r[i := r[i] + 1];
      }
    }
  }

  lemma {:induction false} NothingAtMost(bounds: seq<real>)
    ensures Describes(seq(|bounds|, _ => 0), bounds, [])
  {
  }

  lemma OfOneMore<K>(log: seq<Sample<K>>, sample: Sample<K>, series: K)
    ensures Of(log + [sample], series) ==
            if sample.series == series then Of(log, series) + [sample.seconds] else Of(log, series)
  {
  }

  method Observe<K(!new, ==)>(h: Histogram<K>, bounds: seq<real>, series: K, seconds: real, ghost log: seq<Sample<K>>)
    returns (r: Histogram<K>)
    requires Faithful(h, bounds, log)
    ensures Faithful(r, bounds, log + [Sample(series, seconds)])
    ensures r.count == h.count[series := (if series in h.count then h.count[series] else 0) + 1]
  {
    ghost var values := Of(log, series);
    assert Tells(h, bounds, series, values);
    var count := if series in h.count then h.count[series] else 0;
    var sum := if series in h.sum then h.sum[series] else 0.0;
    var buckets := if series in h.buckets then h.buckets[series] else seq(|bounds|, _ => 0);
    NothingAtMost(bounds);
    buckets := CountIn(bounds, buckets, seconds, values);
    r := Histogram(h.count[series := count + 1], h.sum[series := sum + seconds], h.buckets[series := buckets]);
    assert (values + [seconds])[..|values|] == values;
    OneSeriesChanges(h, r, bounds, log, Sample(series, seconds));
  }

  /** Only the observed label's entries differ, and they tell of one more observation. */
  lemma OneSeriesChanges<K(!new)>(h: Histogram<K>, r: Histogram<K>, bounds: seq<real>, log: seq<Sample<K>>, x: Sample<K>)
    requires Faithful(h, bounds, log) && Tells(r, bounds, x.series, Of(log, x.series) + [x.seconds])
    requires forall k :: k != x.series ==> Same(h, r, k)
    ensures Faithful(r, bounds, log + [x])
  {
    forall k ensures Tells(r, bounds, k, Of(log + [x], k)) {
      OfOneMore(log, x, k);
      assert Tells(h, bounds, k, Of(log, k));
      if k != x.series { assert Same(h, r, k); }
    }
  }

  /** Two histograms hold the same of a label. */
  ghost predicate Same<K>(h: Histogram<K>, r: Histogram<K>, k: K) {
    && (k in r.count <==> k in h.count) && (k in h.count && k in r.count ==> r.count[k] == h.count[k])
    && (k in r.sum <==> k in h.sum) && (k in h.sum && k in r.sum ==> r.sum[k] == h.sum[k])
    && (k in r.buckets <==> k in h.buckets) && (k in h.buckets && k in r.buckets ==> r.buckets[k] == h.buckets[k])
  }

  // ----- the registry -----

  ghost predicate RendersValid(renders: Histogram<string>, jobsFinished: map<string, nat>, pdfBytes: nat,
                               rendered: seq<Render>)
  {
    && Faithful(renders, RENDER_BUCKETS, RenderSamples(rendered)) && jobsFinished == renders.count
    && pdfBytes == Bytes(rendered)
  }

  class Registry {
    var jobsFinished: map<string, nat>
    var renders: Histogram<string>
    var pdfBytes: nat
    var httpRequests: map<HTTPLabel, nat>
    var requests: Histogram<HTTPLabel>
    ghost var rendered: seq<Render>
    ghost var served: seq<Sample<HTTPLabel>>

    /** The counters and histograms are exactly those of the renders and requests recorded so far. */
    ghost predicate Valid() reads this {
      && RendersValid(renders, jobsFinished, pdfBytes, rendered)
      && Faithful(requests, HTTP_BUCKETS, served) && httpRequests == requests.count
    }

    constructor ()
      ensures Valid() && rendered == [] && served == []
    {
      jobsFinished, renders, pdfBytes := map[], Histogram(map[], map[], map[]), 0;
      httpRequests, requests := map[], Histogram(map[], map[], map[]);
      rendered, served := [], [];
    }

    method RenderFinished(status: string, seconds: real, bytes: int)
      requires Valid()
      modifies this
      ensures Valid() && rendered == old(rendered) + [Render(status, seconds, bytes)] && served == old(served)
      ensures pdfBytes == old(pdfBytes) + if bytes > 0 then bytes else 0
      ensures jobsFinished == old(jobsFinished)[status := (if status in old(jobsFinished) then old(jobsFinished)[status] else 0) + 1]
    {
      var count := if status in jobsFinished then jobsFinished[status] else 0;
      jobsFinished := jobsFinished[status := count + 1];
      ghost var log := rendered + [Render(status, seconds, bytes)];
      OneMoreRender(rendered, Render(status, seconds, bytes));
      renders := Observe(renders, RENDER_BUCKETS, status, seconds, RenderSamples(rendered));
      assert Faithful(renders, RENDER_BUCKETS, RenderSamples(log)) && jobsFinished == renders.count;
      if bytes > 0 { pdfBytes := pdfBytes + bytes; }
      rendered := log;
    }

    method RecordHTTP(httpMethod: string, path: string, code: int, seconds: real)
      requires Valid()
      modifies this
      ensures Valid() && rendered == old(rendered)
      ensures served == old(served) + [Sample(HTTPLabel(httpMethod, path, Itoa(code)), seconds)]
      ensures
        var series := HTTPLabel(httpMethod, path, Itoa(code));
        httpRequests == old(httpRequests)[series := (if series in old(httpRequests) then old(httpRequests)[series] else 0) + 1]
    {
      var series := HTTPLabel(httpMethod, path, Itoa(code));
      var count := if series in httpRequests then httpRequests[series] else 0;
      httpRequests := httpRequests[series := count + 1];
      requests := Observe(requests, HTTP_BUCKETS, series, seconds, served);
      served := served + [Sample(series, seconds)];
    }
  }

  function RenderSamples(rendered: seq<Render>): seq<Sample<string>> {
    if rendered == [] then []
    else
      var last := rendered[|rendered| - 1];
      RenderSamples(rendered[..|rendered| - 1]) + [Sample(last.status, last.seconds)]
  }

  lemma OneMoreRender(rendered: seq<Render>, r: Render)
    ensures RenderSamples(rendered + [r]) == RenderSamples(rendered) + [Sample(r.status, r.seconds)]
    ensures Bytes(rendered + [r]) == Bytes(rendered) + if r.bytes > 0 then r.bytes else 0
  {
    assert (rendered + [r])[..|rendered|] == rendered;
  }

  function Bytes(rendered: seq<Render>): nat {
    if rendered == [] then 0
    else
      var last := rendered[|rendered| - 1];
      Bytes(rendered[..|rendered| - 1]) + if last.bytes > 0 then last.bytes else 0
  }

  /** What a scrape shows of one status: each bucket counts the renders no longer than its bound. */
  lemma RenderHistogram(r: Registry, status: string, i: nat, j: nat)
    requires r.Valid() && i <= j < |RENDER_BUCKETS|
    requires exists k :: 0 <= k < |r.rendered| && r.rendered[k].status == status
    ensures
      var durations := Of(RenderSamples(r.rendered), status);
      && status in r.renders.buckets && |r.renders.buckets[status]| == |RENDER_BUCKETS|
      && r.renders.buckets[status][i] == |set k: nat | k < |durations| && durations[k] <= RENDER_BUCKETS[i]|
      && r.renders.buckets[status][i] <= r.renders.buckets[status][j] <= r.renders.count[status]
      && r.renders.count[status] == r.jobsFinished[status] == |durations|
  {
    RenderIsSampled(r.rendered, status);
    AtMostIsSize(Of(RenderSamples(r.rendered), status), RENDER_BUCKETS[i]);
    BoundsAscend();
    BucketsAreCumulative(r.renders, RENDER_BUCKETS, RenderSamples(r.rendered), status);
    assert Tells(r.renders, RENDER_BUCKETS, status, Of(RenderSamples(r.rendered), status));
  }

  lemma {:induction false} RenderIsSampled(rendered: seq<Render>, status: string)
    requires exists k :: 0 <= k < |rendered| && rendered[k].status == status
    ensures Of(RenderSamples(rendered), status) != []
  {
    var front, last := rendered[..|rendered| - 1], rendered[|rendered| - 1];
    OfOneMore(RenderSamples(front), Sample(last.status, last.seconds), status);
    if last.status != status {
      var k :| 0 <= k < |rendered| && rendered[k].status == status;
      assert front[k].status == status;
      RenderIsSampled(front, status);
    }
  }

  // ----- the order labels are written in -----

  /** Byte order of strings. */
  predicate Less(a: string, b: string) {
    b != [] && (a == [] || a[0] < b[0] || (a[0] == b[0] && Less(a[1..], b[1..])))
  }

  lemma {:induction false} LessIsTotal(a: string, b: string)
    ensures a == b || Less(a, b) || Less(b, a)
    ensures !Less(a, a) && !(Less(a, b) && Less(b, a))
  {
    if a != [] && b != [] {
      LessIsTotal(a[1..], b[1..]);
      assert a == [a[0]] + a[1..] && b == [b[0]] + b[1..];
    }
    if a != [] { LessIsTotal(a[1..], a[1..]); }
  }

  lemma {:induction false} LessIsTransitive(a: string, b: string, c: string)
    requires Less(a, b) && Less(b, c)
    ensures Less(a, c)
  {
    if a != [] && a[0] == b[0] == c[0] { LessIsTransitive(a[1..], b[1..], c[1..]); }
  }

  /** The first difference is at this index: there the one string ends, or has the smaller byte. */
  predicate DivergesAt(a: string, b: string, k: nat) {
    k <= |a| && k < |b| && a[..k] == b[..k] && (k == |a| || a[k] < b[k])
  }

  /** A string is less than another exactly when it is a proper prefix of it or has the smaller byte where they part. */
  lemma {:induction false} LessExactly(a: string, b: string)
    ensures Less(a, b) <==> exists k :: DivergesAt(a, b, k)
  {
    if a != [] && b != [] && a[0] == b[0] {
      LessExactly(a[1..], b[1..]);
      if Less(a, b) {
        var k: nat :| DivergesAt(a[1..], b[1..], k);
        assert a[..k + 1] == [a[0]] + a[1..][..k] && b[..k + 1] == [b[0]] + b[1..][..k];
        assert DivergesAt(a, b, k + 1);
      }
      if k: nat :| DivergesAt(a, b, k) {
        assert k > 0;
        assert a[1..][..k - 1] == a[..k][1..] && b[1..][..k - 1] == b[..k][1..];
        assert DivergesAt(a[1..], b[1..], k - 1);
      }
    } else {
      if Less(a, b) { assert DivergesAt(a, b, 0); }
      if k: nat :| DivergesAt(a, b, k) {
        if k > 0 { assert a[..k][0] == b[..k][0]; }
      }
    }
  }

  /** Method first, then path, then code. */
  predicate Before(a: HTTPLabel, b: HTTPLabel) {
    if a.httpMethod != b.httpMethod then Less(a.httpMethod, b.httpMethod)
    else if a.path != b.path then Less(a.path, b.path)
    else Less(a.code, b.code)
  }

  lemma BeforeIsOrder(a: HTTPLabel, b: HTTPLabel, c: HTTPLabel)
    ensures a == b || Before(a, b) || Before(b, a)
    ensures !Before(a, a) && !(Before(a, b) && Before(b, a))
    ensures Before(a, b) && Before(b, c) ==> Before(a, c)
  {
    LessIsTotal(a.httpMethod, b.httpMethod);
    LessIsTotal(a.path, b.path);
    LessIsTotal(a.code, b.code);
    if Before(a, b) && Before(b, c) {
      LessIsTotal(b.httpMethod, c.httpMethod);
      LessIsTotal(b.path, c.path);
      if Less(a.httpMethod, b.httpMethod) && Less(b.httpMethod, c.httpMethod) {
        LessIsTransitive(a.httpMethod, b.httpMethod, c.httpMethod);
      }
      if Less(a.path, b.path) && Less(b.path, c.path) { LessIsTransitive(a.path, b.path, c.path); }
      if Less(a.code, b.code) && Less(b.code, c.code) { LessIsTransitive(a.code, b.code, c.code); }
    }
  }

  ghost predicate InOrder(keys: seq<HTTPLabel>) {
    forall i, j :: 0 <= i < j < |keys| ==> Before(keys[i], keys[j])
  }

  function Insert(x: HTTPLabel, keys: seq<HTTPLabel>): (r: seq<HTTPLabel>)
    ensures multiset(r) == multiset(keys) + multiset{x}
  {
    if keys == [] || Before(x, keys[0]) then [x] + keys
    else
      assert keys == [keys[0]] + keys[1..];
      [keys[0]] + Insert(x, keys[1..])
  }

  lemma {:induction false} InsertKeepsOrder(x: HTTPLabel, keys: seq<HTTPLabel>)
    requires InOrder(keys) && x !in keys
    ensures InOrder(Insert(x, keys)) && forall k :: k in Insert(x, keys) <==> k == x || k in keys
  {
    var r := Insert(x, keys);
    forall k ensures k in r <==> k == x || k in keys {
      assert k in r <==> k in multiset(r);
      assert k in keys <==> k in multiset(keys);
    }
    if keys != [] {
      if Before(x, keys[0]) {
        forall i | 0 <= i < |keys| ensures Before(x, keys[i]) { BeforeIsOrder(x, keys[0], keys[i]); }
      } else {
        InsertKeepsOrder(x, keys[1..]);
        BeforeIsOrder(x, keys[0], x);
        forall k | k in Insert(x, keys[1..]) ensures Before(keys[0], k) {
          if k != x {
            var i :| 0 <= i < |keys[1..]| && keys[1..][i] == k;
            assert keys[i + 1] == k;
          }
        }
      }
    }
  }

  /** The labels of a map, each once, in order: the same list whatever order the map is walked in. */
  method SortedHTTPKeys(counts: map<HTTPLabel, nat>) returns (keys: seq<HTTPLabel>)
    ensures InOrder(keys) && forall k :: k in keys <==> k in counts
    ensures forall i, j :: 0 <= i < j < |keys| ==>
              || Less(keys[i].httpMethod, keys[j].httpMethod)
              || (keys[i].httpMethod == keys[j].httpMethod
                  && (Less(keys[i].path, keys[j].path)
                      || (keys[i].path == keys[j].path && Less(keys[i].code, keys[j].code))))
  {
    keys := [];
    var rest := counts.Keys;
    while rest != {}
      invariant InOrder(keys) && forall k :: k in keys <==> k in counts && k !in rest
      invariant rest <= counts.Keys
      decreases rest
    {
      var k :| k in rest;
      InsertKeepsOrder(k, keys);
      keys := Insert(k, keys);
      rest := rest - {k};
    }
  }

  /** There is only one such list. */
  lemma {:induction false} OrderIsUnique(a: seq<HTTPLabel>, b: seq<HTTPLabel>)
    requires InOrder(a) && InOrder(b) && forall k :: k in a <==> k in b
    ensures a == b
  {
    if a == [] {
      if b != [] { HasMember(b); }
    } else {
      assert a[0] in b && b[0] in a;
      var i :| 0 <= i < |b| && b[i] == a[0];
      var j :| 0 <= j < |a| && a[j] == b[0];
      BeforeIsOrder(a[0], b[0], a[0]);
      forall k ensures k in a[1..] <==> k in b[1..] {
        SameRest(a, b, k);
        SameRest(b, a, k);
      }
      OrderIsUnique(a[1..], b[1..]);
      assert a == [a[0]] + a[1..] && b == [b[0]] + b[1..];
    }
  }

  lemma HasMember(b: seq<HTTPLabel>)
    requires b != []
    ensures exists k :: k in b
  {
    assert b[0] in b;
  }

  lemma SameRest(a: seq<HTTPLabel>, b: seq<HTTPLabel>, k: HTTPLabel)
    requires a != [] && b != [] && a[0] == b[0] && InOrder(a) && forall x :: x in a ==> x in b
    ensures k in a[1..] ==> k in b[1..]
  {
    if k in a[1..] {
      var i :| 0 <= i < |a[1..]| && a[1..][i] == k;
      assert a[i + 1] == k && Before(a[0], k);
      assert k in a;
      BeforeIsOrder(a[0], a[0], k);
      var j :| 0 <= j < |b| && b[j] == k;
      assert j > 0 && b[1..][j - 1] == k;
    }
  }
}
