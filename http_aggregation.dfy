/** What the HTTP server supplier reports, on values: the readings of the
    registered servers, summed per address and metric, and laid out metric
    by metric in the fixed order, one sample per address. */
module HttpAggregation {
  import opened JavaLang
  import opened Samples
  import opened HttpCounters

  /** One registered server's address and counter values at collection time. */
  datatype Reading = Reading(address: SocketAddress, counters: Counters)

  /** The eight counters added field by field. */
  function Add(c: Counters, d: Counters): (r: Counters)
    ensures forall k :: Value(r, k) == Value(c, k) + Value(d, k)
  {
    Counters(
      c.processingTime + d.processingTime, c.requestCount + d.requestCount, c.requests + d.requests,
      c.httpConnections + d.httpConnections, c.wsConnections + d.wsConnections,
      c.bytesReceived + d.bytesReceived, c.bytesSent + d.bytesSent, c.errorCount + d.errorCount)
  }

  /** `merge(map, address, value)` applied to the eight per-metric maps at
      once (they always share their keys): `Map.merge` with `Long::sum`, so
      a new address starts at the reading's values and a known one has them
      added. */
  function Merge(sums: map<SocketAddress, Counters>, address: SocketAddress, c: Counters): (r: map<SocketAddress, Counters>)
    ensures r.Keys == sums.Keys + {address}
    ensures address in sums ==> r[address] == Add(sums[address], c)
    ensures address !in sums ==> r[address] == c
    ensures forall b :: b in sums && b != address ==> r[b] == sums[b]
  {
    sums[address := if address in sums then Add(sums[address], c) else c]
  }

  /** The per-address sums after merging every reading in order (what
      `collect`'s first loop builds). */
  function TotalsMap(rs: seq<Reading>): (r: map<SocketAddress, Counters>)
    ensures r.Keys == set a | a in Addresses(rs)
  {
    if rs == [] then map[]
    else
      var last := rs[|rs| - 1];
      Merge(TotalsMap(rs[..|rs| - 1]), last.address, last.counters)
  }

  /** Reference definition: the sum of metric `k` over the readings at `a`. */
  function Total(rs: seq<Reading>, a: SocketAddress, k: HttpMetric): int {
    if rs == [] then 0
    else (if rs[0].address == a then Value(rs[0].counters, k) else 0) + Total(rs[1..], a, k)
  }

  /** The distinct addresses of the readings, in order of first appearance
      (the iteration order the model gives the source's hash maps). */
  function Addresses(rs: seq<Reading>): seq<SocketAddress> {
    if rs == [] then []
    else
      var prior := Addresses(rs[..|rs| - 1]);
      var a := rs[|rs| - 1].address;
      if a in prior then prior else prior + [a]
  }

  lemma {:induction false} TotalAppend(rs: seq<Reading>, tail: seq<Reading>, a: SocketAddress, k: HttpMetric)
    ensures Total(rs + tail, a, k) == Total(rs, a, k) + Total(tail, a, k)
    decreases |rs|
  {
    if rs != [] {
      assert (rs + tail)[1..] == rs[1..] + tail;
      TotalAppend(rs[1..], tail, a, k);
    } else {
      assert rs + tail == tail;
    }
  }

  /** An address no reading carries totals zero. */
  lemma {:induction false} TotalAbsent(rs: seq<Reading>, a: SocketAddress, k: HttpMetric)
    requires forall i :: 0 <= i < |rs| ==> rs[i].address != a
    ensures Total(rs, a, k) == 0
    decreases |rs|
  {
    if rs != [] {
      TotalAbsent(rs[1..], a, k);
    }
  }

  /** The addresses listed are exactly those of the readings, each once. */
  lemma {:induction false} AddressesExact(rs: seq<Reading>)
    ensures forall i, j :: 0 <= i < j < |Addresses(rs)| ==> Addresses(rs)[i] != Addresses(rs)[j]
    ensures forall a :: a in Addresses(rs) <==> exists i :: 0 <= i < |rs| && rs[i].address == a
    decreases |rs|
  {
    if rs != [] {
      var init := rs[..|rs| - 1];
      AddressesExact(init);
      forall a ensures a in Addresses(rs) <==> exists i :: 0 <= i < |rs| && rs[i].address == a {
        if a in Addresses(init) {
          var i :| 0 <= i < |init| && init[i].address == a;
          assert rs[i].address == a;
        }
        if exists i :: 0 <= i < |rs| && rs[i].address == a {
          var i :| 0 <= i < |rs| && rs[i].address == a;
          if i < |rs| - 1 {
            assert init[i].address == a;
          }
        }
      }
    }
  }

  /** Merging reading by reading builds a map whose keys are exactly the
      listed addresses and whose value at each is, metric by metric, the
      sum over the readings at that address. */
  lemma {:induction false} TotalsMapIsTotal(rs: seq<Reading>)
    ensures forall a, k :: a in TotalsMap(rs) ==> Value(TotalsMap(rs)[a], k) == Total(rs, a, k)
    decreases |rs|
  {
    if rs != [] {
      var init, last := rs[..|rs| - 1], rs[|rs| - 1];
      TotalsMapIsTotal(init);
      assert rs == init + [last];
      forall a, k | a in TotalsMap(rs) ensures Value(TotalsMap(rs)[a], k) == Total(rs, a, k) {
        TotalAppend(init, [last], a, k);
        assert Total([last], a, k) == (if last.address == a then Value(last.counters, k) else 0) by {
          assert [last][1..] == [];
        }
        if a !in TotalsMap(init) {
          AddressesExact(init);
          TotalAbsent(init, a, k);
        }
      }
    }
  }

  /** The sample `metric(addressId + "." + name, ...)` that `metrics`
      emits for address `a`: named `base + host:port + "." + metric`. */
  function AddressSample(base: string, k: HttpMetric, a: SocketAddress, sums: map<SocketAddress, Counters>, timestamp: int): (s: Sample)
    requires a in sums
  {
    Sample(base + (AddressId(a) + "." + MetricName(k)), timestamp, Value(sums[a], k), MetricKind(k))
  }

  /** `metrics(name, ...)` for metric `k`: one sample per address, in the
      iteration order `addresses`. */
  function MetricBlock(base: string, k: HttpMetric, addresses: seq<SocketAddress>, sums: map<SocketAddress, Counters>, timestamp: int): (r: seq<Sample>)
    requires forall j :: 0 <= j < |addresses| ==> addresses[j] in sums
    ensures |r| == |addresses|
  {
    if addresses == [] then []
    else
      var last := addresses[|addresses| - 1];
      MetricBlock(base, k, addresses[..|addresses| - 1], sums, timestamp) + [AddressSample(base, k, last, sums, timestamp)]
  }

  /** The `j`th sample of a block is the `j`th address's. */
  lemma {:induction false} MetricBlockIndex(base: string, k: HttpMetric, addresses: seq<SocketAddress>, sums: map<SocketAddress, Counters>, timestamp: int, j: nat)
    requires forall i :: 0 <= i < |addresses| ==> addresses[i] in sums
    requires j < |addresses|
    ensures MetricBlock(base, k, addresses, sums, timestamp)[j] == AddressSample(base, k, addresses[j], sums, timestamp)
    decreases |addresses|
  {
    var init := addresses[..|addresses| - 1];
    var front := MetricBlock(base, k, init, sums, timestamp);
    SnocIndex(front, AddressSample(base, k, addresses[|addresses| - 1], sums, timestamp), j);
    if j < |init| {
      MetricBlockIndex(base, k, init, sums, timestamp, j);
    }
  }

  lemma SnocIndex<T>(a: seq<T>, x: T, j: nat)
    requires j <= |a|
    ensures j < |a| ==> (a + [x])[j] == a[j]
    ensures j == |a| ==> (a + [x])[j] == x
  {
  }

  lemma MetricBlockAt(base: string, k: HttpMetric, addresses: seq<SocketAddress>, sums: map<SocketAddress, Counters>, timestamp: int)
    requires forall j :: 0 <= j < |addresses| ==> addresses[j] in sums
    ensures forall j :: 0 <= j < |addresses| ==>
      MetricBlock(base, k, addresses, sums, timestamp)[j] == AddressSample(base, k, addresses[j], sums, timestamp)
  {
    forall j | 0 <= j < |addresses|
      ensures MetricBlock(base, k, addresses, sums, timestamp)[j] == AddressSample(base, k, addresses[j], sums, timestamp)
    {
      MetricBlockIndex(base, k, addresses, sums, timestamp, j);
    }
  }

  /** A block over one more address ends with that address's sample. */
  lemma MetricBlockSnoc(base: string, k: HttpMetric, addresses: seq<SocketAddress>, sums: map<SocketAddress, Counters>, timestamp: int, i: nat)
    requires i < |addresses| && forall j :: 0 <= j < |addresses| ==> addresses[j] in sums
    ensures MetricBlock(base, k, addresses[..i + 1], sums, timestamp)
      == MetricBlock(base, k, addresses[..i], sums, timestamp) + [AddressSample(base, k, addresses[i], sums, timestamp)]
  {
    assert addresses[..i + 1][..i] == addresses[..i];
  }

  /** Metric `k`'s block of the supplier report, over the summed readings. */
  function Block(base: string, k: HttpMetric, rs: seq<Reading>, timestamp: int): seq<Sample> {
    MetricBlock(base, k, Addresses(rs), TotalsMap(rs), timestamp)
  }

  /** What `collect` returns: the blocks of the eight metrics in the fixed
      order. */
  function SupplierReport(base: string, rs: seq<Reading>, timestamp: int): seq<Sample> {
    Block(base, ProcessingTime, rs, timestamp) + Block(base, RequestCount, rs, timestamp)
      + Block(base, Requests, rs, timestamp) + Block(base, HttpConnections, rs, timestamp)
      + Block(base, WsConnections, rs, timestamp) + Block(base, BytesReceived, rs, timestamp)
      + Block(base, BytesSent, rs, timestamp) + Block(base, ErrorCount, rs, timestamp)
  }

  /** The same report over sums already computed, with `order` the
      addresses in iteration order. */
  function SupplierReportOf(base: string, order: seq<SocketAddress>, sums: map<SocketAddress, Counters>, timestamp: int): seq<Sample>
    requires forall j :: 0 <= j < |order| ==> order[j] in sums
  {
    MetricBlock(base, ProcessingTime, order, sums, timestamp) + MetricBlock(base, RequestCount, order, sums, timestamp)
      + MetricBlock(base, Requests, order, sums, timestamp) + MetricBlock(base, HttpConnections, order, sums, timestamp)
      + MetricBlock(base, WsConnections, order, sums, timestamp) + MetricBlock(base, BytesReceived, order, sums, timestamp)
      + MetricBlock(base, BytesSent, order, sums, timestamp) + MetricBlock(base, ErrorCount, order, sums, timestamp)
  }

  /** Metric `k`'s block: one sample per distinct address, in order of
      first appearance, named `base + host:port + "." + metric` and carrying
      the sum of `k` over the readings at that address. */
  lemma BlockMeaning(base: string, k: HttpMetric, rs: seq<Reading>, timestamp: int)
    ensures |Block(base, k, rs, timestamp)| == |Addresses(rs)|
    ensures forall j :: 0 <= j < |Addresses(rs)| ==>
      Block(base, k, rs, timestamp)[j]
        == Sample(base + (AddressId(Addresses(rs)[j]) + "." + MetricName(k)), timestamp, Total(rs, Addresses(rs)[j], k), MetricKind(k))
  {
    TotalsMapIsTotal(rs);
    MetricBlockAt(base, k, Addresses(rs), TotalsMap(rs), timestamp);
  }

  /** A block's size and timestamps, without its contents. */
  lemma BlockShape(base: string, k: HttpMetric, rs: seq<Reading>, timestamp: int)
    ensures |Block(base, k, rs, timestamp)| == |Addresses(rs)|
    ensures forall j :: 0 <= j < |Block(base, k, rs, timestamp)| ==> Block(base, k, rs, timestamp)[j].timestamp == timestamp
  {
    BlockMeaning(base, k, rs, timestamp);
  }

  lemma AllAt(s: seq<Sample>, t: seq<Sample>, timestamp: int)
    requires forall i :: 0 <= i < |s| ==> s[i].timestamp == timestamp
    requires forall i :: 0 <= i < |t| ==> t[i].timestamp == timestamp
    ensures forall i :: 0 <= i < |s + t| ==> (s + t)[i].timestamp == timestamp
  {
  }

  /** The supplier reports `8 × (number of distinct addresses)` samples, all
      at the one timestamp, and none when no server is registered. */
  lemma SupplierReportSize(base: string, rs: seq<Reading>, timestamp: int)
    ensures |SupplierReport(base, rs, timestamp)| == 8 * |Addresses(rs)|
    ensures forall i :: 0 <= i < |SupplierReport(base, rs, timestamp)| ==> SupplierReport(base, rs, timestamp)[i].timestamp == timestamp
    ensures rs == [] ==> SupplierReport(base, rs, timestamp) == []
  {
    BlockShape(base, ProcessingTime, rs, timestamp);
    BlockShape(base, RequestCount, rs, timestamp);
    BlockShape(base, Requests, rs, timestamp);
    BlockShape(base, HttpConnections, rs, timestamp);
    BlockShape(base, WsConnections, rs, timestamp);
    BlockShape(base, BytesReceived, rs, timestamp);
    BlockShape(base, BytesSent, rs, timestamp);
    BlockShape(base, ErrorCount, rs, timestamp);
    var r := Block(base, ProcessingTime, rs, timestamp);
    AllAt(r, Block(base, RequestCount, rs, timestamp), timestamp);
    r := r + Block(base, RequestCount, rs, timestamp);
    AllAt(r, Block(base, Requests, rs, timestamp), timestamp);
    r := r + Block(base, Requests, rs, timestamp);
    AllAt(r, Block(base, HttpConnections, rs, timestamp), timestamp);
    r := r + Block(base, HttpConnections, rs, timestamp);
    AllAt(r, Block(base, WsConnections, rs, timestamp), timestamp);
    r := r + Block(base, WsConnections, rs, timestamp);
    AllAt(r, Block(base, BytesReceived, rs, timestamp), timestamp);
    r := r + Block(base, BytesReceived, rs, timestamp);
    AllAt(r, Block(base, BytesSent, rs, timestamp), timestamp);
    r := r + Block(base, BytesSent, rs, timestamp);
    AllAt(r, Block(base, ErrorCount, rs, timestamp), timestamp);
    r := r + Block(base, ErrorCount, rs, timestamp);
  }

  lemma MetricNameHasNoDot(k: HttpMetric)
    ensures '.' !in MetricName(k)
  {
  }

  /** Within one report, sample names identify the address and the metric:
      metric names hold no dot, so the last dot separates them. */
  lemma SupplierSampleNameInjective(base: string, a: SocketAddress, k: HttpMetric, b: SocketAddress, l: HttpMetric)
    requires base + (AddressId(a) + "." + MetricName(k)) == base + (AddressId(b) + "." + MetricName(l))
    ensures a == b && k == l
  {
    CancelHead(base, AddressId(a) + "." + MetricName(k), AddressId(b) + "." + MetricName(l));
    MetricNameHasNoDot(k);
    MetricNameHasNoDot(l);
    SplitAtLast(AddressId(a), MetricName(k), AddressId(b), MetricName(l), '.');
    AddressIdInjective(a, b);
    MetricNameInjective(k, l);
  }

  /** The supplier names a server's metric exactly as that server's own
      accumulator does (the supplier's base name ends in a dot). */
  lemma SupplierNameMatchesServer(prefix: string, a: SocketAddress, k: HttpMetric, timestamp: int, value: int)
    ensures BaseName(prefix, "vertx.http.server.") + (AddressId(a) + "." + MetricName(k))
      == BuildMetric(BaseName(prefix, "vertx.http.server." + AddressId(a)), MetricName(k), timestamp, value, MetricKind(k)).name
  {
    var head := if prefix == "" then "" else prefix + ".";
    assert BaseName(prefix, "vertx.http.server.") == head + "vertx.http.server.";
    assert BaseName(prefix, "vertx.http.server." + AddressId(a)) == head + ("vertx.http.server." + AddressId(a));
    Regroup(head, "vertx.http.server.", AddressId(a), MetricName(k));
  }

  /** Moving the category from the base name to the sample name keeps the
      full name. */
  lemma Regroup(head: string, category: string, id: string, name: string)
    ensures (head + category) + (id + "." + name) == (head + (category + id)) + "." + name
  {
  }
}
