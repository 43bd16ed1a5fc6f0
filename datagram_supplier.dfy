/** The supplier that aggregates UDP traffic per remote address: bytes
    received and sent per address, errors overall. */
module DatagramSupplier {
  import opened Samples

  /** The two running sums kept for one remote address. */
  datatype Values = Values(received: int, sent: int)

  /** What the supplier has been told, in order. */
  datatype Event =
    | Received(address: SocketAddress, bytes: int)
    | Sent(address: SocketAddress, bytes: int)
    | Error

  /** Bytes received from `a` over all events. */
  ghost function ReceivedTotal(events: seq<Event>, a: SocketAddress): int {
    if events == [] then 0
    else
      var e := events[|events| - 1];
      ReceivedTotal(events[..|events| - 1], a) + (if e.Received? && e.address == a then e.bytes else 0)
  }

  /** Bytes sent to `a` over all events. */
  ghost function SentTotal(events: seq<Event>, a: SocketAddress): int {
    if events == [] then 0
    else
      var e := events[|events| - 1];
      SentTotal(events[..|events| - 1], a) + (if e.Sent? && e.address == a then e.bytes else 0)
  }

  ghost function ErrorTotal(events: seq<Event>): int {
    if events == [] then 0
    else ErrorTotal(events[..|events| - 1]) + (if events[|events| - 1].Error? then 1 else 0)
  }

  /** The addresses some traffic event names. */
  ghost function Touched(events: seq<Event>): set<SocketAddress> {
    if events == [] then {}
    else
      var e := events[|events| - 1];
      Touched(events[..|events| - 1]) + (if e.Error? then {} else {e.address})
  }

  /** An address no event names has nothing received or sent. */
  lemma {:induction false} UntouchedTotals(events: seq<Event>, a: SocketAddress)
    requires a !in Touched(events)
    ensures ReceivedTotal(events, a) == 0 && SentTotal(events, a) == 0
    decreases |events|
  {
    if events != [] {
      UntouchedTotals(events[..|events| - 1], a);
    }
  }

  /** What one more event changes in the running totals. */
  lemma EventStep(events: seq<Event>, e: Event)
    ensures forall a :: ReceivedTotal(events + [e], a) == ReceivedTotal(events, a) + (if e.Received? && e.address == a then e.bytes else 0)
    ensures forall a :: SentTotal(events + [e], a) == SentTotal(events, a) + (if e.Sent? && e.address == a then e.bytes else 0)
    ensures ErrorTotal(events + [e]) == ErrorTotal(events) + (if e.Error? then 1 else 0)
    ensures Touched(events + [e]) == Touched(events) + (if e.Error? then {} else {e.address})
  {
    assert (events + [e])[..|events|] == events;
  }

  /** The supplier's state accounts for `events`: one map entry per address
      some traffic was recorded for, listed once in `addresses`, carrying that
      address's sums; `errors` counts the errors. */
  ghost predicate Accounts(metrics: map<SocketAddress, Values>, addresses: seq<SocketAddress>, errors: int, events: seq<Event>) {
    && (forall i, j :: 0 <= i < j < |addresses| ==> addresses[i] != addresses[j])
    && (forall a :: a in metrics <==> a in addresses)
    && metrics.Keys == Touched(events)
    && (forall a :: a in metrics ==> metrics[a] == Values(ReceivedTotal(events, a), SentTotal(events, a)))
    && errors == ErrorTotal(events)
  }

  /** Recording traffic for an address adds its bytes to the address's
      entry, created at zero and listed last on first use, and keeps the
      state accounting for the events. */
  lemma RecordTraffic(metrics: map<SocketAddress, Values>, addresses: seq<SocketAddress>, errors: int, events: seq<Event>,
                      e: Event, metrics': map<SocketAddress, Values>, addresses': seq<SocketAddress>)
    requires Accounts(metrics, addresses, errors, events) && !e.Error?
    requires var before := if e.address in metrics then metrics[e.address] else Values(0, 0);
      metrics' == metrics[e.address := if e.Received? then before.(received := before.received + e.bytes)
                                       else before.(sent := before.sent + e.bytes)]
    requires addresses' == addresses + (if e.address in metrics then [] else [e.address])
    ensures Accounts(metrics', addresses', errors, events + [e])
  {
    if e.address !in metrics {
      UntouchedTotals(events, e.address);
    }
    EventStep(events, e);
  }

  /** Recording an error counts it and leaves the map alone. */
  lemma RecordError(metrics: map<SocketAddress, Values>, addresses: seq<SocketAddress>, errors: int, events: seq<Event>)
    requires Accounts(metrics, addresses, errors, events)
    ensures Accounts(metrics, addresses, errors + 1, events + [Error])
  {
    EventStep(events, Error);
  }

  /** `toMetricList`: the address's two counters, received bytes first. */
  function ToMetricList(baseName: string, timestamp: int, address: SocketAddress, values: Values): (r: seq<Sample>)
    ensures |r| == 2 && r[0].timestamp == timestamp && r[1].timestamp == timestamp
    ensures r[0].value == values.received && r[1].value == values.sent
    ensures r[0].kind == Counter && r[1].kind == Counter
    ensures r[0].name == baseName + AddressId(address) + ".bytesReceived"
    ensures r[1].name == baseName + AddressId(address) + ".bytesSent"
  {
    var addressId := AddressId(address);
    [Sample(baseName + (addressId + ".bytesReceived"), timestamp, values.received, Counter),
     Sample(baseName + (addressId + ".bytesSent"), timestamp, values.sent, Counter)]
  }

  lemma AppendAssociative<T>(a: seq<T>, b: seq<T>, c: seq<T>)
    ensures (a + b) + c == a + (b + c)
  {
  }

  /** The per-address part of `collect` for the first `n` addresses: each
      address's two counters, in the order of `addresses`. */
  function Pairs(baseName: string, timestamp: int, addresses: seq<SocketAddress>, metrics: map<SocketAddress, Values>, n: nat): (r: seq<Sample>)
    requires n <= |addresses| && forall a :: a in addresses ==> a in metrics
    ensures |r| == 2 * n
  {
    if n == 0 then []
    else Pairs(baseName, timestamp, addresses, metrics, n - 1) + ToMetricList(baseName, timestamp, addresses[n - 1], metrics[addresses[n - 1]])
  }

  /** A pair of a sequence of pairs with one more pair appended is the
      old pair, or the new one. */
  lemma PairOfAppend<T>(p: seq<T>, t: seq<T>, j: nat)
    requires |t| == 2 && 2 * j + 2 <= |p| + 2 && |p| % 2 == 0
    ensures 2 * j < |p| ==> (p + t)[2 * j .. 2 * j + 2] == p[2 * j .. 2 * j + 2]
    ensures 2 * j == |p| ==> (p + t)[2 * j .. 2 * j + 2] == t
  {
  }

  /** Address `j`'s counters sit at positions `2j` and `2j + 1`. */
  lemma {:induction false} PairAt(baseName: string, timestamp: int, addresses: seq<SocketAddress>, metrics: map<SocketAddress, Values>, n: nat, j: nat)
    requires n <= |addresses| && forall a :: a in addresses ==> a in metrics
    requires j < n
    ensures Pairs(baseName, timestamp, addresses, metrics, n)[2 * j .. 2 * j + 2]
      == ToMetricList(baseName, timestamp, addresses[j], metrics[addresses[j]])
    decreases n
  {
    var p := Pairs(baseName, timestamp, addresses, metrics, n - 1);
    var t := ToMetricList(baseName, timestamp, addresses[n - 1], metrics[addresses[n - 1]]);
    assert Pairs(baseName, timestamp, addresses, metrics, n) == p + t;
    PairOfAppend(p, t, j);
    if j < n - 1 {
      PairAt(baseName, timestamp, addresses, metrics, n - 1, j);
    }
  }

  /** What `collect` reports, once the state accounts for the increments:
      after the error count, each address's total received and total sent
      bytes, in the map's iteration order. */
  lemma CollectedTotals(baseName: string, timestamp: int, metrics: map<SocketAddress, Values>, addresses: seq<SocketAddress>, errors: int, events: seq<Event>)
    requires Accounts(metrics, addresses, errors, events)
    ensures forall a :: a in addresses ==> a in metrics
    ensures |Pairs(baseName, timestamp, addresses, metrics, |addresses|)| == 2 * |addresses|
    ensures forall j :: 0 <= j < |addresses| ==>
      && Pairs(baseName, timestamp, addresses, metrics, |addresses|)[2 * j]
        == Sample(baseName + (AddressId(addresses[j]) + ".bytesReceived"), timestamp, ReceivedTotal(events, addresses[j]), Counter)
      && Pairs(baseName, timestamp, addresses, metrics, |addresses|)[2 * j + 1]
        == Sample(baseName + (AddressId(addresses[j]) + ".bytesSent"), timestamp, SentTotal(events, addresses[j]), Counter)
  {
    forall j | 0 <= j < |addresses|
      ensures Pairs(baseName, timestamp, addresses, metrics, |addresses|)[2 * j]
        == Sample(baseName + (AddressId(addresses[j]) + ".bytesReceived"), timestamp, ReceivedTotal(events, addresses[j]), Counter)
      ensures Pairs(baseName, timestamp, addresses, metrics, |addresses|)[2 * j + 1]
        == Sample(baseName + (AddressId(addresses[j]) + ".bytesSent"), timestamp, SentTotal(events, addresses[j]), Counter)
    {
      var pairs := Pairs(baseName, timestamp, addresses, metrics, |addresses|);
      PairAt(baseName, timestamp, addresses, metrics, |addresses|, j);
      assert addresses[j] in metrics;
      assert pairs[2 * j] == pairs[2 * j .. 2 * j + 2][0];
      assert pairs[2 * j + 1] == pairs[2 * j .. 2 * j + 2][1];
    }
  }

  class DatagramSocketMetricsSupplier {
    const baseName: string
    /** The sums per remote address. */
    var metrics: map<SocketAddress, Values>
    /** The map's iteration order: addresses in order of first use. */
    var addresses: seq<SocketAddress>
    var errors: int
    /** Every increment so far, oldest first. */
    ghost var events: seq<Event>

    /** The map holds one entry per address some traffic was recorded for,
        carrying that address's sums; `errors` counts the errors. */
    ghost predicate Valid()
      reads this
    {
      Accounts(metrics, addresses, errors, events)
    }

    constructor (prefix: string)
      ensures baseName == BaseName(prefix, "vertx.datagram.")
      ensures Valid() && metrics == map[] && addresses == [] && errors == 0 && events == []
    {
      baseName := BaseName(prefix, "vertx.datagram.");
      metrics := map[];
      addresses := [];
      errors := 0;
      events := [];
    }

    /** `computeIfAbsent`: the sums of `address`, created at zero on first
        use. */
    method GetValuesForAddress(address: SocketAddress) returns (values: Values)
      modifies this
      ensures address in old(metrics) ==> metrics == old(metrics) && addresses == old(addresses)
      ensures address !in old(metrics) ==>
        metrics == old(metrics)[address := Values(0, 0)] && addresses == old(addresses) + [address]
      ensures address in metrics && values == metrics[address]
      ensures errors == old(errors) && events == old(events)
    {
      if address !in metrics {
        metrics := metrics[address := Values(0, 0)];
        addresses := addresses + [address];
      }
      values := metrics[address];
    }

    method IncrementBytesReceived(address: SocketAddress, bytes: int)
      requires Valid()
      modifies this
      ensures Valid() && events == old(events) + [Received(address, bytes)]
      ensures var before := if address in old(metrics) then old(metrics)[address] else Values(0, 0);
        metrics == old(metrics)[address := before.(received := before.received + bytes)]
      ensures addresses == old(addresses) + (if address in old(metrics) then [] else [address])
      ensures errors == old(errors)
    {
      var values := GetValuesForAddress(address);
      metrics := metrics[address := values.(received := values.received + bytes)];
      RecordTraffic(old(metrics), old(addresses), errors, events, Received(address, bytes), metrics, addresses);
      events := events + [Received(address, bytes)];
    }

    method IncrementBytesSent(address: SocketAddress, bytes: int)
      requires Valid()
      modifies this
      ensures Valid() && events == old(events) + [Sent(address, bytes)]
      ensures var before := if address in old(metrics) then old(metrics)[address] else Values(0, 0);
        metrics == old(metrics)[address := before.(sent := before.sent + bytes)]
      ensures addresses == old(addresses) + (if address in old(metrics) then [] else [address])
      ensures errors == old(errors)
    {
      var values := GetValuesForAddress(address);
      metrics := metrics[address := values.(sent := values.sent + bytes)];
      RecordTraffic(old(metrics), old(addresses), errors, events, Sent(address, bytes), metrics, addresses);
      events := events + [Sent(address, bytes)];
    }

    method IncrementErrorCount()
      requires Valid()
      modifies this
      ensures Valid() && events == old(events) + [Error]
      ensures errors == old(errors) + 1
      ensures metrics == old(metrics) && addresses == old(addresses)
    {
      RecordError(metrics, addresses, errors, events);
      errors := errors + 1;
      events := events + [Error];
    }

    /** The error count first, then each address's two counters, in the
        map's iteration order: `1 + 2n` samples at one timestamp. */
    method Collect(timestamp: int) returns (res: seq<Sample>)
      requires Valid()
      ensures forall a :: a in addresses ==> a in metrics
      ensures res == [Sample(baseName + "errorCount", timestamp, ErrorTotal(events), Counter)]
        + Pairs(baseName, timestamp, addresses, metrics, |addresses|)
    {
      assert forall a :: a in addresses ==> a in metrics;
      res := [Sample(baseName + "errorCount", timestamp, errors, Counter)];
      ghost var head := res;
      var i := 0;
      while i < |addresses|
        invariant 0 <= i <= |addresses|
        invariant res == head + Pairs(baseName, timestamp, addresses, metrics, i)
      {
        var address := addresses[i];
        var pair := ToMetricList(baseName, timestamp, address, metrics[address]);
        assert Pairs(baseName, timestamp, addresses, metrics, i + 1) == Pairs(baseName, timestamp, addresses, metrics, i) + pair;
        AppendAssociative(head, Pairs(baseName, timestamp, addresses, metrics, i), pair);
        res := res + pair;
        i := i + 1;
      }
    }
  }

  /** Within one collection, distinct samples carry distinct names: the
      error count is shorter than any per-address name, received and sent
      names end differently, and distinct addresses render differently. */
  lemma DatagramNameInjective(baseName: string, a: SocketAddress, b: SocketAddress, s1: string, s2: string)
    requires s1 in {".bytesReceived", ".bytesSent"} && s2 in {".bytesReceived", ".bytesSent"}
    requires baseName + (AddressId(a) + s1) == baseName + (AddressId(b) + s2)
    ensures a == b && s1 == s2
  {
    var n1, n2 := AddressId(a) + s1, AddressId(b) + s2;
    assert n1 == (baseName + n1)[|baseName|..];
    assert n2 == (baseName + n2)[|baseName|..];
    assert n1[|n1| - 1] == s1[|s1| - 1];
    assert n2[|n2| - 1] == s2[|s2| - 1];
    assert s1 == s2;
    assert AddressId(a) == n1[..|n1| - |s1|];
    assert AddressId(b) == n2[..|n2| - |s2|];
    AddressIdInjective(a, b);
  }

  /** No per-address name equals the error count's name. */
  lemma ErrorCountNameUnique(baseName: string, a: SocketAddress, s: string)
    requires s in {".bytesReceived", ".bytesSent"}
    ensures baseName + "errorCount" != baseName + (AddressId(a) + s)
  {
    assert |AddressId(a)| >= 2;
  }
}
