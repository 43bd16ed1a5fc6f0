/** The supplier that aggregates the registered HTTP servers' counters per
    server address and reports them metric by metric. */
module HttpServerSupplier {
  import opened Samples
  import opened HttpCounters
  import opened HttpServer
  import opened HttpAggregation

  /** The readings of the servers `ms`, in registration order. */
  function ReadingsOf(ms: seq<HttpServerMetrics>): (rs: seq<Reading>)
    reads set m | m in ms
    ensures |rs| == |ms|
    ensures forall i :: 0 <= i < |ms| ==> rs[i] == Reading(ms[i].serverAddress, ms[i].Snapshot())
  {
    if ms == [] then []
    else ReadingsOf(ms[..|ms| - 1]) + [Reading(ms[|ms| - 1].serverAddress, ms[|ms| - 1].Snapshot())]
  }

  /** `ms` without `m`. */
  function Without(ms: seq<HttpServerMetrics>, m: HttpServerMetrics): seq<HttpServerMetrics> {
    if ms == [] then []
    else Without(ms[..|ms| - 1], m) + (if ms[|ms| - 1] == m then [] else [ms[|ms| - 1]])
  }

  predicate Distinct(ms: seq<HttpServerMetrics>) {
    forall i, j :: 0 <= i < j < |ms| ==> ms[i] != ms[j]
  }

  class HttpServerMetricsSupplier {
    const baseName: string
    /** The registered servers; a set, kept in registration order. */
    var metricsSet: seq<HttpServerMetrics>

    ghost predicate Valid()
      reads this
    {
      Distinct(metricsSet)
    }

    constructor (prefix: string)
      ensures baseName == BaseName(prefix, "vertx.http.server.")
      ensures Valid() && metricsSet == []
    {
      baseName := BaseName(prefix, "vertx.http.server.");
      metricsSet := [];
    }

    /** Set insertion: a server registered twice is held once. */
    method Register(httpServerMetrics: HttpServerMetrics)
      requires Valid()
      modifies this
      ensures Valid()
      ensures httpServerMetrics in old(metricsSet) ==> metricsSet == old(metricsSet)
      ensures httpServerMetrics !in old(metricsSet) ==> metricsSet == old(metricsSet) + [httpServerMetrics]
    {
      if httpServerMetrics !in metricsSet {
        metricsSet := metricsSet + [httpServerMetrics];
      }
    }

    method Unregister(httpServerMetrics: HttpServerMetrics)
      requires Valid()
      modifies this
      ensures Valid() && httpServerMetrics !in metricsSet
      ensures metricsSet == Without(old(metricsSet), httpServerMetrics)
    {
      metricsSet := Without(metricsSet, httpServerMetrics);
      WithoutDistinct(old(metricsSet), httpServerMetrics);
      WithoutMembers(old(metricsSet), httpServerMetrics);
    }

    /** `metric`: a sample named after the supplier's base name. */
    function Metric(name: string, timestamp: int, value: int, kind: MetricType): (s: Sample)
      ensures s.name == baseName + name && s.timestamp == timestamp && s.value == value && s.kind == kind
    {
      Sample(baseName + name, timestamp, value, kind)
    }

    /** `metrics`: one sample per address, in the iteration order `order`,
        named `host:port.<metric>` and carrying the address's sum of `k`. */
    method Metrics(k: HttpMetric, timestamp: int, sums: map<SocketAddress, Counters>, order: seq<SocketAddress>)
      returns (res: seq<Sample>)
      requires forall j :: 0 <= j < |order| ==> order[j] in sums
      ensures res == MetricBlock(baseName, k, order, sums, timestamp)
    {
      res := [];
      var i := 0;
      while i < |order|
        invariant 0 <= i <= |order|
        invariant res == MetricBlock(baseName, k, order[..i], sums, timestamp)
      {
        var addressId := AddressId(order[i]);
        var sample := Metric(addressId + "." + MetricName(k), timestamp, Value(sums[order[i]], k), MetricKind(k));
        assert sample == AddressSample(baseName, k, order[i], sums, timestamp);
        MetricBlockSnoc(baseName, k, order, sums, timestamp, i);
        res := res + [sample];
        i := i + 1;
      }
      assert order[..i] == order;
    }

    /** The first half of `collect`: merges every registered server's
        counters into the sums of its address; `order` is the maps'
        iteration order, addresses in order of first merge. */
    method Aggregate() returns (sums: map<SocketAddress, Counters>, order: seq<SocketAddress>)
      ensures sums == TotalsMap(ReadingsOf(metricsSet))
      ensures order == Addresses(ReadingsOf(metricsSet))
    {
      // The eight per-metric maps of the source, held as one map from an
      // address to its eight sums.
      sums := map[];
      order := [];
      ghost var rs := ReadingsOf(metricsSet);
      var i := 0;
      while i < |metricsSet|
        invariant 0 <= i <= |metricsSet|
        invariant order == Addresses(rs[..i])
        invariant sums == TotalsMap(rs[..i])
      {
        var httpServerMetrics := metricsSet[i];
        var serverAddress := httpServerMetrics.serverAddress;
        assert rs[..i + 1][..i] == rs[..i];
        assert rs[i] == Reading(serverAddress, httpServerMetrics.Snapshot());
        sums := Merge(sums, serverAddress, httpServerMetrics.Snapshot());
        if serverAddress !in order {
          order := order + [serverAddress];
        }
        i := i + 1;
      }
      assert rs[..i] == rs;
    }

    /** Sums every metric per server address over the registered servers,
        then lists the sums metric by metric in the fixed order. */
    method Collect(timestamp: int) returns (res: seq<Sample>)
      ensures res == SupplierReport(baseName, ReadingsOf(metricsSet), timestamp)
    {
      var sums, order := Aggregate();
      ghost var rs := ReadingsOf(metricsSet);
      assert forall j :: 0 <= j < |order| ==> order[j] in sums;
      res := Report(timestamp, sums, order);
      assert order == Addresses(rs) && sums == TotalsMap(rs);
    }

    /** The second half of `collect`: the eight metrics' blocks, one after
        the other. */
    method Report(timestamp: int, sums: map<SocketAddress, Counters>, order: seq<SocketAddress>)
      returns (res: seq<Sample>)
      requires forall j :: 0 <= j < |order| ==> order[j] in sums
      ensures res == SupplierReportOf(baseName, order, sums, timestamp)
    {
      res := Metrics(ProcessingTime, timestamp, sums, order);
      var block: seq<Sample>;
      block := Metrics(RequestCount, timestamp, sums, order);
      res := res + block;
      block := Metrics(Requests, timestamp, sums, order);
      res := res + block;
      block := Metrics(HttpConnections, timestamp, sums, order);
      res := res + block;
      block := Metrics(WsConnections, timestamp, sums, order);
      res := res + block;
      block := Metrics(BytesReceived, timestamp, sums, order);
      res := res + block;
      block := Metrics(BytesSent, timestamp, sums, order);
      res := res + block;
      block := Metrics(ErrorCount, timestamp, sums, order);
      res := res + block;
    }
  }

  /** `Without(ms, m)` holds exactly the members of `ms` other than `m`. */
  lemma {:induction false} WithoutMembers(ms: seq<HttpServerMetrics>, m: HttpServerMetrics)
    ensures forall x :: x in Without(ms, m) <==> x in ms && x != m
    decreases |ms|
  {
    if ms != [] {
      var init := ms[..|ms| - 1];
      WithoutMembers(init, m);
      assert ms == init + [ms[|ms| - 1]];
    }
  }

  lemma {:induction false} WithoutDistinct(ms: seq<HttpServerMetrics>, m: HttpServerMetrics)
    requires Distinct(ms)
    ensures Distinct(Without(ms, m))
    decreases |ms|
  {
    if ms != [] {
      var init, last := ms[..|ms| - 1], ms[|ms| - 1];
      WithoutDistinct(init, m);
      WithoutMembers(init, m);
      var rest := Without(init, m);
      assert last !in init;
      forall i | 0 <= i < |rest| ensures rest[i] != last {
        assert rest[i] in rest;
      }
    }
  }

  /** Unregistering a server removes exactly its contribution from every
      total: the others' sum is what is left. */
  lemma {:induction false} UnregisterTotal(ms: seq<HttpServerMetrics>, m: HttpServerMetrics, a: SocketAddress, k: HttpMetric)
    requires Distinct(ms)
    ensures Total(ReadingsOf(ms), a, k) ==
      Total(ReadingsOf(Without(ms, m)), a, k) + (if m in ms && m.serverAddress == a then Value(m.Snapshot(), k) else 0)
    decreases |ms|
  {
    if ms != [] {
      var init, last := ms[..|ms| - 1], ms[|ms| - 1];
      UnregisterTotal(init, m, a, k);
      LastTotal(ms, a, k);
      assert ms == init + [last];
      if last == m {
        assert m !in init && m in ms;
        assert Without(ms, m) == Without(init, m);
      } else {
        assert (m in ms) == (m in init);
        assert Without(ms, m) == Without(init, m) + [last];
        SnocTotal(Without(init, m), last, a, k);
      }
    }
  }

  /** The last server's reading is added last to every total at its address. */
  lemma LastTotal(ms: seq<HttpServerMetrics>, a: SocketAddress, k: HttpMetric)
    requires ms != []
    ensures var m := ms[|ms| - 1];
      Total(ReadingsOf(ms), a, k) == Total(ReadingsOf(ms[..|ms| - 1]), a, k) + (if m.serverAddress == a then Value(m.Snapshot(), k) else 0)
  {
    var m := ms[|ms| - 1];
    TotalAppend(ReadingsOf(ms[..|ms| - 1]), [Reading(m.serverAddress, m.Snapshot())], a, k);
  }

  /** Appending a server adds its reading to every total at its address. */
  lemma SnocTotal(ms: seq<HttpServerMetrics>, m: HttpServerMetrics, a: SocketAddress, k: HttpMetric)
    ensures Total(ReadingsOf(ms + [m]), a, k) == Total(ReadingsOf(ms), a, k) + (if m.serverAddress == a then Value(m.Snapshot(), k) else 0)
  {
    assert (ms + [m])[..|ms|] == ms;
    var r := Reading(m.serverAddress, m.Snapshot());
    TotalAppend(ReadingsOf(ms), [r], a, k);
  }
}
