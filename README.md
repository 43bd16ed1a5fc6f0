# Vert.x monitor: a Dafny model

This project models the sequential bookkeeping of the Vert.x metrics
reporter for Hawkular, in both of its generations: the `io.vertx.ext.hawkular`
one and the older `org.hawkular.vertx.monitor` one. It covers the following
pieces.

- **The batching sender.** It keeps a queue below the batch size and cuts
  full batches off the front when samples arrive. It flushes the whole queue
  once more than `batchDelay` seconds have passed since the last send.
- **The per-resource accumulators.** These are the HTTP server (both
  generations), TCP server and datagram socket (both generations) metrics
  classes. Their hook methods move counters, and `collect` reports the
  counters as samples in a fixed order with fixed kinds.
- **The two suppliers.** One sums the eight HTTP metrics per server address
  over the registered servers. The other keeps received and sent bytes per
  remote address and a global error count.
- **The handler measurements.** A handler count changes by copying, and one
  processing-time accumulator is shared by all copies.
- **The scheduled-metrics base class.** A tick forwards a collected list
  only when it is non-empty. Closing cancels the timer.
- **The options classes and the generated JSON converter.** This covers the
  defaults, the copy constructors and the fluent setters. It also covers the
  JSON constructors, with the exceptions the typed JSON getters throw, and
  the older options' `toString`.

Java's `int` is modelled as the subtype `Int32`. Number-to-`int` narrowing is
written out as `WrapInt`. `long` counters and sample values are unbounded
integers. A Java `null` string is `None` of an `Option`.

The modules are:

- `JavaLang`: Java integers, `null` and decimal rendering, plus `LastIndexOf`, a proof device (not a call the program makes) for splitting names such as `host:port` at their last separator.
- `Json`: Vert.x `JsonObject`.
- `Samples`: samples, addresses and metric-name building.
- `HttpCounters`, `HttpServer`, `HttpAggregation` and `HttpServerSupplier`.
- `NetServer`, `Datagram` and `DatagramSupplier`.
- `Handlers` and `Scheduling`.
- `Batching` and `Sending`.
- `HawkularOptions`, `MonitorOptions`, `LegacyMonitorOptions` and
  `OptionsConverter`.

Several modules model methods that change state as classes with `modifies`
clauses. Each such class comes with a value snapshot (`Snapshot()`) or a
specification function that its methods are proved against. The sender, for
example, is proved against `Batches` and `Rest`. The HTTP supplier is proved
against `SupplierReport`, and the datagram supplier against `Pairs` with the
`Accounts` invariant.

The HTTP server and datagram socket accumulators are line for line the same
in both generations (`impl/HttpServerMetricsImpl.java` and
`impl/DatagramSocketMetricsImpl.java` under `src/main/java/org/hawkular/vertx/monitor`,
lines 58-132 and 46-89). One class models each pair. Its rows below cite
the newer file. The older file has the same methods with the same bodies,
except that the older HTTP class has no `upgrade`.

## Model

| member | source | states |
|---|---|---|
| JavaLang.WrapInt | src/main/generated/io/vertx/ext/hawkular/VertxHawkularOptionsConverter.java:29-31 | `Number.intValue()` narrowing: the result is a Java `int`, congruent to the input modulo 2^32, and equal to it when the input is already in range |
| JavaLang.NanosToMillis | src/main/java/io/vertx/ext/hawkular/impl/HandlersMeasurements.java:58-60 | `MILLISECONDS.convert(n, NANOSECONDS)` truncates toward zero: for non-negative `n`, the result times 10^6 is at most `n` and less than one more millisecond; for negative `n`, the result rounds up toward zero |
| JavaLang.NatToString | src/main/java/io/vertx/ext/hawkular/impl/HttpServerMetricsSupplier.java:89 | the decimal rendering of a port is non-empty and starts with a digit |
| JavaLang.DigitsValueOfNatToString | src/main/java/io/vertx/ext/hawkular/impl/HttpServerMetricsSupplier.java:89 | reading the decimal rendering back gives the number: rendering has an inverse |
| JavaLang.IntToString | src/main/java/io/vertx/ext/hawkular/impl/HttpServerMetricsSupplier.java:89 | `"" + i` is the digits of `|i|`, preceded by `-` exactly when `i` is negative |
| JavaLang.NatToStringDigits | src/main/java/io/vertx/ext/hawkular/impl/HttpServerMetricsSupplier.java:89 | only decimal digits appear in the rendering of a natural number |
| JavaLang.IntToStringChars | src/main/java/io/vertx/ext/hawkular/impl/HttpServerMetricsSupplier.java:89 | only `-` and digits appear in `"" + i` (so no `:` and no `,`) |
| JavaLang.NatToStringInjective | src/main/java/io/vertx/ext/hawkular/impl/HttpServerMetricsSupplier.java:89 | distinct natural numbers render differently |
| JavaLang.IntToStringInjective | src/main/java/io/vertx/ext/hawkular/impl/HttpServerMetricsSupplier.java:89 | distinct integers render differently |
| JavaLang.JavaString | src/main/java/org/hawkular/vertx/monitor/VertxMonitorOptions.java:97-98 | string concatenation renders a `null` string as `null` and any other string as itself |
| JavaLang.LastIndexOf | src/main/java/io/vertx/ext/hawkular/impl/HttpServerMetricsSupplier.java:89-90 | proof device for the names built here, which the source never splits: the last position holding the character, or -1 exactly when it does not occur |
| JavaLang.LastIndexBeforeTail | src/main/java/io/vertx/ext/hawkular/impl/HttpServerMetricsSupplier.java:89-90 | in `head + c + tail` with no `c` in `tail`, the last `c` is at `|head|` |
| JavaLang.SplitAtLast | src/main/java/io/vertx/ext/hawkular/impl/HttpServerMetricsSupplier.java:89-90 | two strings `h + c + t` whose tails hold no `c` are equal only if the heads and the tails are |
| Json.ValueOf | src/main/generated/io/vertx/ext/hawkular/VertxHawkularOptionsConverter.java:29-30 | `getValue` is `null` both for a missing key and for a JSON `null`, and otherwise the stored value |
| Json.StringOf | src/main/java/io/vertx/ext/hawkular/VertxMonitorOptions.java:62-71 | `getString(key, def)`: the default exactly for a missing key, `null` for JSON `null`, the string for a string, and a `ClassCastException` for anything else |
| Json.IntegerOf | src/main/java/io/vertx/ext/hawkular/VertxMonitorOptions.java:62-71 | `getInteger(key, def)`: the default exactly for a missing key, `null` for JSON `null`, the narrowed number for a number, and an exception for anything else |
| Json.Unbox | src/main/java/io/vertx/ext/hawkular/VertxMonitorOptions.java:62-71 | assigning an `Integer` to an `int` field throws a `NullPointerException` on `null` and passes earlier exceptions on |
| Json.JsonObject.Put | src/main/generated/io/vertx/ext/hawkular/VertxHawkularOptionsConverter.java:53-54 | `put` maps the key to the value and leaves every other key as it was |
| Samples.AddressIdInjective | src/main/java/io/vertx/ext/hawkular/impl/HttpServerMetricsSupplier.java:89 | `host:port` identifies the address: equal identifiers mean equal addresses |
| Samples.AddressId | src/main/java/io/vertx/ext/hawkular/impl/HttpServerMetricsSupplier.java:89 | `host:port`: the host, then a colon, then a port rendering that holds no colon, so the last colon separates the two |
| Samples.BaseName | src/main/java/io/vertx/ext/hawkular/impl/HttpServerMetricsSupplier.java:42 | the base name is the category alone for an empty prefix, and `prefix + "." + category` otherwise |
| Samples.BuildMetricNameInjective | src/main/java/io/vertx/ext/hawkular/impl/HttpServerMetricsImpl.java:132-134 | two samples built on one base name have equal names only if their metric names are equal |
| Samples.BuildMetric | src/main/java/io/vertx/ext/hawkular/impl/HttpServerMetricsImpl.java:132-134 | a sample named `baseName + "." + name`, carrying the timestamp, value and kind unchanged (no contract of its own; `BuildMetricNameInjective` and `ServerMetricName` state its naming) |
| HttpCounters.MetricNameInjective | src/main/java/io/vertx/ext/hawkular/impl/HttpServerMetricsImpl.java:120-130 | the eight metric names are pairwise distinct |
| HttpCounters.MetricOrderDistinct | src/main/java/io/vertx/ext/hawkular/impl/HttpServerMetricsImpl.java:120-130 | the reporting order lists each metric once |
| HttpCounters.ServerReportShape | src/main/java/io/vertx/ext/hawkular/impl/HttpServerMetricsImpl.java:120-134 | a server report has 8 samples with pairwise distinct names and one timestamp; requests and both connection counts are gauges, the other five counters |
| HttpServer.HttpServerMetrics.constructor | src/main/java/io/vertx/ext/hawkular/impl/HttpServerMetricsImpl.java:58-60 | the accumulator once the base class has set its timer: the base name is `prefix? + "vertx.http.server." + host:port`, and all counters start at zero |
| HttpServer.Create | src/main/java/io/vertx/ext/hawkular/impl/HttpServerMetricsImpl.java:55-61 | the constructor as the source runs it: the base class first sets the collection timer, and a schedule below one second throws an `IllegalArgumentException` with no timer set; otherwise the new timer of `schedule × 1000` ms is set and the accumulator above is built |
| HttpServer.HttpServerMetrics.RequestBegin | src/main/java/io/vertx/ext/hawkular/impl/HttpServerMetricsImpl.java:63-67 | one more request in flight, nothing else changes, and the clock reading is returned |
| HttpServer.HttpServerMetrics.ResponseEnd | src/main/java/io/vertx/ext/hawkular/impl/HttpServerMetricsImpl.java:69-75 | one more request counted, the elapsed milliseconds added, and one fewer in flight; nothing else changes |
| HttpServer.HttpServerMetrics.Upgrade | src/main/java/io/vertx/ext/hawkular/impl/HttpServerMetricsImpl.java:77-80 | an upgrade returns no metric and changes no counter |
| HttpServer.HttpServerMetrics.WebSocketConnected | src/main/java/io/vertx/ext/hawkular/impl/HttpServerMetricsImpl.java:82-86 | only `wsConnections` moves, by +1 |
| HttpServer.HttpServerMetrics.WebSocketDisconnected | src/main/java/io/vertx/ext/hawkular/impl/HttpServerMetricsImpl.java:88-91 | only `wsConnections` moves, by -1 |
| HttpServer.HttpServerMetrics.Connected | src/main/java/io/vertx/ext/hawkular/impl/HttpServerMetricsImpl.java:93-97 | only `httpConnections` moves, by +1 |
| HttpServer.HttpServerMetrics.Disconnected | src/main/java/io/vertx/ext/hawkular/impl/HttpServerMetricsImpl.java:99-102 | only `httpConnections` moves, by -1 |
| HttpServer.HttpServerMetrics.BytesRead | src/main/java/io/vertx/ext/hawkular/impl/HttpServerMetricsImpl.java:104-107 | only `bytesReceived` moves, by the byte count |
| HttpServer.HttpServerMetrics.BytesWritten | src/main/java/io/vertx/ext/hawkular/impl/HttpServerMetricsImpl.java:109-112 | only `bytesSent` moves, by the byte count |
| HttpServer.HttpServerMetrics.ExceptionOccurred | src/main/java/io/vertx/ext/hawkular/impl/HttpServerMetricsImpl.java:114-117 | only `errorCount` moves, by +1 |
| HttpServer.HttpServerMetrics.Collect | src/main/java/io/vertx/ext/hawkular/impl/HttpServerMetricsImpl.java:119-134 | the eight counters' current values, in the fixed order, each named `baseName.<metric>` with its kind and the one timestamp (a server report, see `ServerReportShape`) |
| HttpServer.MatchedRequest | src/main/java/io/vertx/ext/hawkular/impl/HttpServerMetricsImpl.java:63-75 | a request's begin followed by its end leaves `requests` unchanged, counts one request, adds the elapsed milliseconds and touches nothing else |
| HttpServer.ServerMetricName | src/main/java/io/vertx/ext/hawkular/impl/HttpServerMetricsImpl.java:55-61 | a server metric is named `[prefix.]vertx.http.server.<host>:<port>.<metric>` |
| HttpAggregation.Add | src/main/java/io/vertx/ext/hawkular/impl/HttpServerMetricsSupplier.java:82-84 | `Long::sum` on all eight metrics: each metric of the result is the sum of the two |
| HttpAggregation.Merge | src/main/java/io/vertx/ext/hawkular/impl/HttpServerMetricsSupplier.java:58-68 | `Map.merge(address, value, Long::sum)` on all eight maps at once: the address is added to the keys, its sums grow by the reading (or start at it when absent), and every other address keeps its sums |
| HttpAggregation.TotalsMap | src/main/java/io/vertx/ext/hawkular/impl/HttpServerMetricsSupplier.java:58-68 | the merged maps have exactly the readings' addresses as keys |
| HttpAggregation.TotalAppend | src/main/java/io/vertx/ext/hawkular/impl/HttpServerMetricsSupplier.java:58-68 | the reference sum over two runs of readings is the sum of the sums |
| HttpAggregation.TotalAbsent | src/main/java/io/vertx/ext/hawkular/impl/HttpServerMetricsSupplier.java:58-68 | an address no reading carries sums to zero |
| HttpAggregation.AddressesExact | src/main/java/io/vertx/ext/hawkular/impl/HttpServerMetricsSupplier.java:58-68 | the iteration order lists each address of the readings exactly once, and no other |
| HttpAggregation.TotalsMapIsTotal | src/main/java/io/vertx/ext/hawkular/impl/HttpServerMetricsSupplier.java:58-84 | merging reading by reading yields, for each address and metric, the sum of that metric over the readings at that address |
| HttpAggregation.MetricBlock | src/main/java/io/vertx/ext/hawkular/impl/HttpServerMetricsSupplier.java:86-93 | `metrics` yields one sample per address |
| HttpAggregation.MetricBlockIndex | src/main/java/io/vertx/ext/hawkular/impl/HttpServerMetricsSupplier.java:86-97 | the `j`th sample of a block is the `j`th address's `host:port.<metric>` sample |
| HttpAggregation.MetricBlockAt | src/main/java/io/vertx/ext/hawkular/impl/HttpServerMetricsSupplier.java:86-97 | every sample of a block is its address's sample |
| HttpAggregation.MetricBlockSnoc | src/main/java/io/vertx/ext/hawkular/impl/HttpServerMetricsSupplier.java:88-91 | a block over one more address ends with that address's sample |
| HttpAggregation.BlockMeaning | src/main/java/io/vertx/ext/hawkular/impl/HttpServerMetricsSupplier.java:58-97 | a metric's block has one sample per distinct address, named `base + host:port + "." + metric`, with the metric's kind and the sum of the metric over the servers at that address |
| HttpAggregation.BlockShape | src/main/java/io/vertx/ext/hawkular/impl/HttpServerMetricsSupplier.java:86-93 | a block has one sample per address, all at the collection timestamp |
| HttpAggregation.SupplierReportSize | src/main/java/io/vertx/ext/hawkular/impl/HttpServerMetricsSupplier.java:45-80 | `collect` reports `8 × (distinct addresses)` samples at one timestamp, and none when no server is registered |
| HttpAggregation.MetricNameHasNoDot | src/main/java/io/vertx/ext/hawkular/impl/HttpServerMetricsSupplier.java:71-78 | no metric name holds a dot |
| HttpAggregation.SupplierSampleNameInjective | src/main/java/io/vertx/ext/hawkular/impl/HttpServerMetricsSupplier.java:89-96 | within one report, a sample name determines both the address and the metric |
| HttpAggregation.SupplierNameMatchesServer | src/main/java/io/vertx/ext/hawkular/impl/HttpServerMetricsSupplier.java:42-96 | the supplier names a metric exactly as the server's own accumulator does |
| HttpServerSupplier.ReadingsOf | src/main/java/io/vertx/ext/hawkular/impl/HttpServerMetricsSupplier.java:58-59 | one reading per registered server, in registration order: its address and its eight counters |
| HttpServerSupplier.HttpServerMetricsSupplier.constructor | src/main/java/io/vertx/ext/hawkular/impl/HttpServerMetricsSupplier.java:41-43 | the base name is `prefix? + "vertx.http.server."`, and no server is registered |
| HttpServerSupplier.HttpServerMetricsSupplier.Register | src/main/java/io/vertx/ext/hawkular/impl/HttpServerMetricsSupplier.java:99-101 | set insertion: an absent server is added last, and a present one changes nothing |
| HttpServerSupplier.HttpServerMetricsSupplier.Unregister | src/main/java/io/vertx/ext/hawkular/impl/HttpServerMetricsSupplier.java:103-105 | set removal: the server is no longer registered and the others keep their order |
| HttpServerSupplier.HttpServerMetricsSupplier.Metric | src/main/java/io/vertx/ext/hawkular/impl/HttpServerMetricsSupplier.java:95-97 | a sample named `baseName + name`, with the given timestamp, value and kind |
| HttpServerSupplier.HttpServerMetricsSupplier.Metrics | src/main/java/io/vertx/ext/hawkular/impl/HttpServerMetricsSupplier.java:86-93 | the loop builds exactly `MetricBlock`: one sample per address, in iteration order |
| HttpServerSupplier.HttpServerMetricsSupplier.Aggregate | src/main/java/io/vertx/ext/hawkular/impl/HttpServerMetricsSupplier.java:49-68 | the merge loop builds the per-address sums `TotalsMap` and the iteration order `Addresses` of the registered servers' readings |
| HttpServerSupplier.HttpServerMetricsSupplier.Collect | src/main/java/io/vertx/ext/hawkular/impl/HttpServerMetricsSupplier.java:45-80 | `collect` returns `SupplierReport` of the registered servers: the eight blocks, in the fixed order, whose meaning `BlockMeaning` and `SupplierReportSize` state |
| HttpServerSupplier.HttpServerMetricsSupplier.Report | src/main/java/io/vertx/ext/hawkular/impl/HttpServerMetricsSupplier.java:70-79 | the eight `metrics` calls concatenated in the fixed order |
| HttpServerSupplier.WithoutMembers | src/main/java/io/vertx/ext/hawkular/impl/HttpServerMetricsSupplier.java:103-105 | after removal, exactly the other servers are registered |
| HttpServerSupplier.WithoutDistinct | src/main/java/io/vertx/ext/hawkular/impl/HttpServerMetricsSupplier.java:39-105 | removal keeps the registry a set |
| HttpServerSupplier.UnregisterTotal | src/main/java/io/vertx/ext/hawkular/impl/HttpServerMetricsSupplier.java:58-105 | an unregistered server no longer contributes: every sum loses exactly that server's value |
| HttpServerSupplier.LastTotal | src/main/java/io/vertx/ext/hawkular/impl/HttpServerMetricsSupplier.java:58-68 | the last registered server's value is added last to its address's sums |
| HttpServerSupplier.SnocTotal | src/main/java/io/vertx/ext/hawkular/impl/HttpServerMetricsSupplier.java:58-101 | a newly registered server adds its value to every sum at its address |
| NetServer.NetServerMetrics.constructor | src/main/java/io/vertx/ext/hawkular/impl/NetServerMetricsImpl.java:44-50 | for a non-null prefix, the base name is `prefix? + "vertx.net.server." + host:port`, and all counters start at zero |
| NetServer.Create | src/main/java/io/vertx/ext/hawkular/impl/NetServerMetricsImpl.java:44-50 | the constructor as the source runs it: the base class first sets the collection timer, and a schedule below one second throws an `IllegalArgumentException` with no timer set; otherwise the timer is set, and then a `null` options prefix throws a `NullPointerException`, leaving that timer set; any other prefix builds the accumulator above |
| NetServer.NetServerMetrics.Connected | src/main/java/io/vertx/ext/hawkular/impl/NetServerMetricsImpl.java:52-56 | only `connections` moves, by +1 |
| NetServer.NetServerMetrics.Disconnected | src/main/java/io/vertx/ext/hawkular/impl/NetServerMetricsImpl.java:58-61 | only `connections` moves, by -1 |
| NetServer.NetServerMetrics.BytesRead | src/main/java/io/vertx/ext/hawkular/impl/NetServerMetricsImpl.java:63-66 | only `bytesReceived` moves, by the byte count |
| NetServer.NetServerMetrics.BytesWritten | src/main/java/io/vertx/ext/hawkular/impl/NetServerMetricsImpl.java:68-71 | only `bytesSent` moves, by the byte count |
| NetServer.NetServerMetrics.ExceptionOccurred | src/main/java/io/vertx/ext/hawkular/impl/NetServerMetricsImpl.java:73-76 | only `errorCount` moves, by +1 |
| NetServer.NetServerMetrics.Collect | src/main/java/io/vertx/ext/hawkular/impl/NetServerMetricsImpl.java:78-89 | four samples at one timestamp with pairwise distinct names `baseName.<metric>`: connections as a gauge, then received bytes, sent bytes and errors as counters |
| Datagram.DatagramSocketMetrics.constructor | src/main/java/io/vertx/ext/hawkular/impl/DatagramSocketMetricsImpl.java:44-49 | for a non-null prefix, the base name is `prefix? + "vertx.datagram"`; the socket has no name yet, and the counters are zero |
| Datagram.Create | src/main/java/io/vertx/ext/hawkular/impl/DatagramSocketMetricsImpl.java:44-49 | the constructor as the source runs it: the base class first sets the collection timer, and a schedule below one second throws an `IllegalArgumentException` with no timer set; otherwise the timer is set, and then a `null` options prefix throws a `NullPointerException`, leaving that timer set; any other prefix builds the unnamed accumulator above |
| Datagram.DatagramSocketMetrics.Listening | src/main/java/io/vertx/ext/hawkular/impl/DatagramSocketMetricsImpl.java:51-55 | the socket is named `host:port` and its received bytes restart at 0; sent bytes and errors are kept |
| Datagram.DatagramSocketMetrics.BytesRead | src/main/java/io/vertx/ext/hawkular/impl/DatagramSocketMetricsImpl.java:57-60 | only `bytesReceived` moves |
| Datagram.DatagramSocketMetrics.BytesWritten | src/main/java/io/vertx/ext/hawkular/impl/DatagramSocketMetricsImpl.java:62-65 | only `bytesSent` moves |
| Datagram.DatagramSocketMetrics.ExceptionOccurred | src/main/java/io/vertx/ext/hawkular/impl/DatagramSocketMetricsImpl.java:67-70 | only `errorCount` moves, by +1 |
| Datagram.DatagramSocketMetrics.Collect | src/main/java/io/vertx/ext/hawkular/impl/DatagramSocketMetricsImpl.java:72-87 | sent bytes then errors, plus, only once the socket is named, received bytes under `baseName.<host:port>.bytesReceived`; all of them counters |
| Datagram.ListenThenRead | src/main/java/io/vertx/ext/hawkular/impl/DatagramSocketMetricsImpl.java:51-83 | after `listening` and a read, the third sample reports exactly the bytes read since then, under the listening address |
| DatagramSupplier.UntouchedTotals | src/main/java/io/vertx/ext/hawkular/impl/DatagramSocketMetricsSupplier.java:60-66 | an address no traffic named has received and sent nothing |
| DatagramSupplier.EventStep | src/main/java/io/vertx/ext/hawkular/impl/DatagramSocketMetricsSupplier.java:60-71 | what one increment adds to each running total and to the set of known addresses |
| DatagramSupplier.RecordTraffic | src/main/java/io/vertx/ext/hawkular/impl/DatagramSocketMetricsSupplier.java:60-75 | adding bytes to an address's entry (created at zero on first use) keeps the map accounting for every increment |
| DatagramSupplier.RecordError | src/main/java/io/vertx/ext/hawkular/impl/DatagramSocketMetricsSupplier.java:69-71 | counting an error keeps the state accounting for every increment |
| DatagramSupplier.Pairs | src/main/java/io/vertx/ext/hawkular/impl/DatagramSocketMetricsSupplier.java:52-56 | two samples per address |
| DatagramSupplier.ToMetricList | src/main/java/io/vertx/ext/hawkular/impl/DatagramSocketMetricsSupplier.java:86-90 | exactly two counters at the given timestamp: `<base><host:port>.bytesReceived` with the received sum, then `<base><host:port>.bytesSent` with the sent sum |
| DatagramSupplier.PairAt | src/main/java/io/vertx/ext/hawkular/impl/DatagramSocketMetricsSupplier.java:52-90 | address `j`'s two samples sit at positions `2j` and `2j + 1` |
| DatagramSupplier.CollectedTotals | src/main/java/io/vertx/ext/hawkular/impl/DatagramSocketMetricsSupplier.java:47-94 | the reported per-address samples are `host:port.bytesReceived` then `host:port.bytesSent`, carrying the total bytes received from and sent to that address over all increments |
| DatagramSupplier.DatagramSocketMetricsSupplier.constructor | src/main/java/io/vertx/ext/hawkular/impl/DatagramSocketMetricsSupplier.java:42-45 | the base name is `prefix? + "vertx.datagram."`, and the map and error count are empty |
| DatagramSupplier.DatagramSocketMetricsSupplier.GetValuesForAddress | src/main/java/io/vertx/ext/hawkular/impl/DatagramSocketMetricsSupplier.java:73-75 | `computeIfAbsent`: an existing entry is returned unchanged; a missing one is created at zero and listed last |
| DatagramSupplier.DatagramSocketMetricsSupplier.IncrementBytesReceived | src/main/java/io/vertx/ext/hawkular/impl/DatagramSocketMetricsSupplier.java:60-62 | the address's received total grows by the bytes; its sent total, other addresses and errors are unchanged; the invariant holds |
| DatagramSupplier.DatagramSocketMetricsSupplier.IncrementBytesSent | src/main/java/io/vertx/ext/hawkular/impl/DatagramSocketMetricsSupplier.java:64-66 | the address's sent total grows by the bytes; the rest is unchanged; the invariant holds |
| DatagramSupplier.DatagramSocketMetricsSupplier.IncrementErrorCount | src/main/java/io/vertx/ext/hawkular/impl/DatagramSocketMetricsSupplier.java:69-71 | the error count grows by one and no address entry changes |
| DatagramSupplier.DatagramSocketMetricsSupplier.Collect | src/main/java/io/vertx/ext/hawkular/impl/DatagramSocketMetricsSupplier.java:47-58 | the error count (the number of errors recorded) first, then each address's two samples in iteration order: `1 + 2n` samples |
| DatagramSupplier.DatagramNameInjective | src/main/java/io/vertx/ext/hawkular/impl/DatagramSocketMetricsSupplier.java:86-94 | per-address sample names determine the address and which counter it is |
| DatagramSupplier.ErrorCountNameUnique | src/main/java/io/vertx/ext/hawkular/impl/DatagramSocketMetricsSupplier.java:51-94 | no per-address name equals the error count's |
| Handlers.HandlersMeasurements.constructor | src/main/java/io/vertx/ext/hawkular/impl/HandlersMeasurements.java:36-39 | a first handler: count 1, and a new accumulator at zero |
| Handlers.HandlersMeasurements.WithCount | src/main/java/io/vertx/ext/hawkular/impl/HandlersMeasurements.java:41-44 | the private constructor shares the given accumulator |
| Handlers.HandlersMeasurements.AddProcessingTime | src/main/java/io/vertx/ext/hawkular/impl/HandlersMeasurements.java:51-53 | the shared sum grows by the nanoseconds |
| Handlers.HandlersMeasurements.ProcessingTime | src/main/java/io/vertx/ext/hawkular/impl/HandlersMeasurements.java:58-60 | the total in whole milliseconds, rounded down |
| Handlers.HandlersMeasurements.IncrementHandlersCount | src/main/java/io/vertx/ext/hawkular/impl/HandlersMeasurements.java:72-74 | a new instance with count + 1 (Java `int`) and the same accumulator; the receiver is unchanged |
| Handlers.HandlersMeasurements.DecrementHandlersCount | src/main/java/io/vertx/ext/hawkular/impl/HandlersMeasurements.java:79-81 | a new instance with count - 1, with no lower bound, and the same accumulator |
| Handlers.HandlersMeasurements.Equals | src/main/java/io/vertx/ext/hawkular/impl/HandlersMeasurements.java:83-89 | false on `null`, true on the same instance, and true on another instance only when the counts agree (the full equivalence is `EqualsContract`) |
| Handlers.HandlersMeasurements.HashCode | src/main/java/io/vertx/ext/hawkular/impl/HandlersMeasurements.java:91-94 | the handler count itself (no contract of its own; consistency with `Equals` is `EqualsContract`) |
| Handlers.EqualsContract | src/main/java/io/vertx/ext/hawkular/impl/HandlersMeasurements.java:83-94 | `equals` is reflexive, symmetric and transitive, false on `null`, decided by the count, and consistent with `hashCode` |
| Handlers.WrapIncrementDecrement | src/main/java/io/vertx/ext/hawkular/impl/HandlersMeasurements.java:72-81 | decrement undoes increment, and increment undoes decrement, even across the `int` wrap-around |
| Handlers.RegisterThenUnregister | src/main/java/io/vertx/ext/hawkular/impl/HandlersMeasurements.java:72-94 | incrementing then decrementing gives an instance equal to the original, with the same hash and accumulator |
| Handlers.SharedAccumulator | src/main/java/io/vertx/ext/hawkular/impl/HandlersMeasurements.java:41-74 | time added through a copy is seen through the original |
| Scheduling.Timers.SetPeriodic | src/main/java/io/vertx/ext/hawkular/impl/ScheduledMetrics.java:42 | a period below 1 ms is refused with an `IllegalArgumentException` and sets nothing; any other period sets a new periodic timer with a fresh id |
| Scheduling.Timers.CancelTimer | src/main/java/io/vertx/ext/hawkular/impl/ScheduledMetrics.java:63 | the timer is no longer running; the result says whether it was |
| Scheduling.SecondsToMillis | src/main/java/io/vertx/ext/hawkular/impl/ScheduledMetrics.java:41 | the period in milliseconds is the schedule times 1000 |
| Scheduling.ScheduledMetrics.constructor | src/main/java/io/vertx/ext/hawkular/impl/ScheduledMetrics.java:42 | the id of the timer just set is recorded, and nothing has been handled yet |
| Scheduling.Create | src/main/java/io/vertx/ext/hawkular/impl/ScheduledMetrics.java:37-43 | a schedule below one second throws an `IllegalArgumentException` with no timer set; otherwise a periodic timer of `schedule × 1000` ms is set and its fresh id is recorded |
| Scheduling.ScheduledMetrics.Tick | src/main/java/io/vertx/ext/hawkular/impl/ScheduledMetrics.java:45-50 | the collected list reaches the handler, unmodified, exactly when it is non-null and non-empty |
| Scheduling.ScheduledMetrics.Collect | src/main/java/io/vertx/ext/hawkular/impl/ScheduledMetrics.java:52-54 | the default `collect` returns a list that is never forwarded |
| Scheduling.ScheduledMetrics.CollectAndQueue | src/main/java/io/vertx/ext/hawkular/impl/ScheduledMetrics.java:45-54 | with the default `collect`, a tick forwards nothing |
| Scheduling.ScheduledMetrics.IsEnabled | src/main/java/io/vertx/ext/hawkular/impl/ScheduledMetrics.java:56-59 | always enabled |
| Scheduling.ScheduledMetrics.Close | src/main/java/io/vertx/ext/hawkular/impl/ScheduledMetrics.java:61-64 | the timer recorded at construction is cancelled, and no other timer is touched |
| Scheduling.ForwardRule | src/main/java/io/vertx/ext/hawkular/impl/ScheduledMetrics.java:47 | a list is forwarded exactly when it holds at least one sample; `null` never is |
| Batching.FlattenAppend | src/main/java/io/vertx/ext/hawkular/impl/Sender.java:87-91 | joining distributes over appending batch lists |
| Batching.BatchesCutExactly | src/main/java/io/vertx/ext/hawkular/impl/Sender.java:83-92 | the cut loses and reorders nothing (batches joined plus remainder equal the input); every batch is full; the remainder is shorter than a batch; there are `len div size` batches and `len mod size` left over |
| Batching.RestIsSuffix | src/main/java/io/vertx/ext/hawkular/impl/Sender.java:87-92 | the remainder is the input's last `len mod size` elements, and at least one batch is cut when the input reaches the size |
| Batching.TwoBatchesAndFive | src/main/java/io/vertx/ext/hawkular/impl/Sender.java:83-92 | `2B + 5` samples with `B > 5` make two full batches and leave five |
| Batching.CutOne | src/main/java/io/vertx/ext/hawkular/impl/Sender.java:88-90 | one pass of the do-while moves one batch from `temp` to the sent batches and keeps the remainder and the contents |
| Sending.Sender.constructor | src/main/java/io/vertx/ext/hawkular/impl/Sender.java:54-63 | the metrics URI is built from the tenant; the queue is empty |
| Sending.Sender.Init | src/main/java/io/vertx/ext/hawkular/impl/Sender.java:65-71 | a batch delay below one second throws an `IllegalArgumentException` before the clock is read, so no timer is set and the send time is unchanged; otherwise the idle-flush timer of `batchDelay × 1000` ms is set and the clock reading becomes the send time; the queue and logs are untouched either way |
| Sending.Sender.Send | src/main/java/io/vertx/ext/hawkular/impl/Sender.java:95-112 | the batch is logged as sent and the send time becomes now |
| Sending.Sender.IdleSince | src/main/java/io/vertx/ext/hawkular/impl/Sender.java:116 | the idle test of `flushIfIdle`: strictly more than `batchDelay` seconds, in nanoseconds, since the last send (no contract of its own; `QuietAfterSend` and `FlushIfIdle` state its consequences) |
| Sending.Sender.Accept | src/main/java/io/vertx/ext/hawkular/impl/Sender.java:78-93 | below the threshold, the samples are queued and nothing is sent; otherwise exactly the full batches of queue ++ samples are sent, in order, the remainder is queued, and the send time is now; the queue stays below a batch, and nothing accepted is lost or reordered |
| Sending.Sender.FlushIfIdle | src/main/java/io/vertx/ext/hawkular/impl/Sender.java:114-119 | when strictly more than `batchDelay` seconds have passed and the queue is non-empty, the whole queue is sent as one batch and emptied; otherwise nothing changes |
| Sending.SliceScenario | src/main/java/io/vertx/ext/hawkular/impl/Sender.java:78-93 | with batch size 3, `[a, b]` then `[c, d]` sends `[a, b, c]` and keeps `[d]` |
| Sending.QuietAfterSend | src/main/java/io/vertx/ext/hawkular/impl/Sender.java:111-115 | after an accept that sends, an idle check within `batchDelay` sends nothing more |
| HawkularOptions.NormalizePrefix | src/main/java/io/vertx/ext/hawkular/VertxHawkularOptions.java:174-177 | `null` becomes the empty prefix; any other prefix is kept |
| HawkularOptions.VertxHawkularOptions.constructor | src/main/java/io/vertx/ext/hawkular/VertxHawkularOptions.java:78-86 | the defaults: `localhost:8080`, `/hawkular/metrics`, tenant `default`, schedule 1, empty prefix, batches of 50, delay 1 |
| HawkularOptions.VertxHawkularOptions.Copy | src/main/java/io/vertx/ext/hawkular/VertxHawkularOptions.java:88-97 | all seven fields are copied |
| HawkularOptions.VertxHawkularOptions.SetHttpOptions | src/main/java/io/vertx/ext/hawkular/VertxHawkularOptions.java:114-117 | the field is stored, nothing else changes, and `this` is returned |
| HawkularOptions.VertxHawkularOptions.SetMetricsServiceUri | src/main/java/io/vertx/ext/hawkular/VertxHawkularOptions.java:129-132 | the field is stored, nothing else changes, and `this` is returned |
| HawkularOptions.VertxHawkularOptions.SetTenant | src/main/java/io/vertx/ext/hawkular/VertxHawkularOptions.java:144-147 | the field is stored, nothing else changes, and `this` is returned |
| HawkularOptions.VertxHawkularOptions.SetSchedule | src/main/java/io/vertx/ext/hawkular/VertxHawkularOptions.java:159-162 | the field is stored, nothing else changes, and `this` is returned |
| HawkularOptions.VertxHawkularOptions.SetPrefix | src/main/java/io/vertx/ext/hawkular/VertxHawkularOptions.java:174-177 | the normalised prefix is stored, nothing else changes, and `this` is returned |
| HawkularOptions.VertxHawkularOptions.SetBatchSize | src/main/java/io/vertx/ext/hawkular/VertxHawkularOptions.java:189-192 | the field is stored, nothing else changes, and `this` is returned |
| HawkularOptions.VertxHawkularOptions.SetBatchDelay | src/main/java/io/vertx/ext/hawkular/VertxHawkularOptions.java:204-207 | the field is stored, nothing else changes, and `this` is returned |
| HawkularOptions.Configure | src/main/java/io/vertx/ext/hawkular/VertxHawkularOptions.java:144-192 | chained setters act on one object, each on its own field |
| OptionsConverter.NumberAt | src/main/generated/io/vertx/ext/hawkular/VertxHawkularOptionsConverter.java:29-30 | `instanceof Number` holds exactly for a JSON number, whose `intValue()` is read |
| OptionsConverter.TextAt | src/main/generated/io/vertx/ext/hawkular/VertxHawkularOptionsConverter.java:35-36 | `instanceof String` holds exactly for a JSON string |
| OptionsConverter.SetHost | src/main/generated/io/vertx/ext/hawkular/VertxHawkularOptionsConverter.java:35-37 | the host goes into the HTTP client options; nothing else changes |
| OptionsConverter.SetPort | src/main/generated/io/vertx/ext/hawkular/VertxHawkularOptionsConverter.java:38-40 | the port goes into the HTTP client options; nothing else changes |
| OptionsConverter.DecodeIntoFields | src/main/generated/io/vertx/ext/hawkular/VertxHawkularOptionsConverter.java:28-50 | applied to a whole object, `fromJson` changes the seven fields key by key and leaves the service URI alone |
| OptionsConverter.FromJson | src/main/generated/io/vertx/ext/hawkular/VertxHawkularOptionsConverter.java:28-50 | each field takes the value under its key when the key holds the right JSON type, and is kept otherwise; the prefix goes through `setPrefix`, and the service URI is untouched |
| OptionsConverter.ToJson | src/main/generated/io/vertx/ext/hawkular/VertxHawkularOptionsConverter.java:52-66 | the four `int` fields are always written, and the strings only when non-null; other keys stay |
| OptionsConverter.NewFromJson | src/main/java/io/vertx/ext/hawkular/VertxHawkularOptions.java:99-102 | the JSON constructor is the defaults followed by `fromJson` |
| OptionsConverter.DecodeEncode | src/main/generated/io/vertx/ext/hawkular/VertxHawkularOptionsConverter.java:28-66 | round trip: `fromJson(toJson(o))` restores all seven fields, whatever the target held, when `o` has no null string |
| OptionsConverter.EncodeKeys | src/main/generated/io/vertx/ext/hawkular/VertxHawkularOptionsConverter.java:52-66 | `toJson` adds exactly the four `int` keys and the non-null string keys, and leaves other keys' values alone |
| OptionsConverter.DecodeIgnores | src/main/generated/io/vertx/ext/hawkular/VertxHawkularOptionsConverter.java:28-50 | an object without the seven keys changes nothing, and a wrongly typed value is ignored like a missing key |
| OptionsConverter.CopyThroughJson | src/main/generated/io/vertx/ext/hawkular/VertxHawkularOptionsConverter.java:28-66 | options rebuilt from another's JSON agree with it on all seven fields |
| MonitorOptions.VertxMonitorOptions.constructor | src/main/java/io/vertx/ext/hawkular/VertxMonitorOptions.java:25-49 | the defaults: `localhost:8080`, tenant `default`, schedule 1, empty prefix, batches of 50, delay 1 |
| MonitorOptions.VertxMonitorOptions.Copy | src/main/java/io/vertx/ext/hawkular/VertxMonitorOptions.java:51-60 | all seven fields are copied |
| MonitorOptions.VertxMonitorOptions.SetHost | src/main/java/io/vertx/ext/hawkular/VertxMonitorOptions.java:77-80 | only the host changes, and `this` is returned |
| MonitorOptions.VertxMonitorOptions.SetPort | src/main/java/io/vertx/ext/hawkular/VertxMonitorOptions.java:86-89 | only the port changes, and `this` is returned |
| MonitorOptions.VertxMonitorOptions.SetTenant | src/main/java/io/vertx/ext/hawkular/VertxMonitorOptions.java:95-98 | only the tenant changes, and `this` is returned |
| MonitorOptions.VertxMonitorOptions.SetSchedule | src/main/java/io/vertx/ext/hawkular/VertxMonitorOptions.java:104-107 | only the schedule changes, and `this` is returned |
| MonitorOptions.VertxMonitorOptions.SetPrefix | src/main/java/io/vertx/ext/hawkular/VertxMonitorOptions.java:113-116 | only the prefix changes; `null` is stored as the empty prefix, so it is never `null` afterwards |
| MonitorOptions.VertxMonitorOptions.SetBatchSize | src/main/java/io/vertx/ext/hawkular/VertxMonitorOptions.java:122-125 | only the batch size changes, and `this` is returned |
| MonitorOptions.VertxMonitorOptions.SetBatchDelay | src/main/java/io/vertx/ext/hawkular/VertxMonitorOptions.java:131-134 | only the batch delay changes, and `this` is returned |
| MonitorOptions.NewFromJson | src/main/java/io/vertx/ext/hawkular/VertxMonitorOptions.java:62-71 | the JSON constructor yields an object exactly when the seven reads succeed, and then holds the values read; otherwise the first read's exception |
| MonitorOptions.DecodeSucceeds | src/main/java/io/vertx/ext/hawkular/VertxMonitorOptions.java:62-71 | construction succeeds exactly on objects whose string keys hold strings or `null` and whose integer keys hold numbers; each field is then its key's value, or the default when the key is missing |
| MonitorOptions.DecodeEmpty | src/main/java/io/vertx/ext/hawkular/VertxMonitorOptions.java:62-71 | an object without the seven keys gives the defaults |
| MonitorOptions.NullIntegerThrows | src/main/java/io/vertx/ext/hawkular/VertxMonitorOptions.java:64 | a JSON `null` port throws a `NullPointerException` |
| LegacyMonitorOptions.RenderTail | src/main/java/org/hawkular/vertx/monitor/VertxMonitorOptions.java:97-98 | the rendering after the port starts with a comma |
| LegacyMonitorOptions.VertxMonitorOptions.constructor | src/main/java/org/hawkular/vertx/monitor/VertxMonitorOptions.java:26-41 | the defaults: `localhost:8080`, tenant `default`, schedule 1 |
| LegacyMonitorOptions.VertxMonitorOptions.Copy | src/main/java/org/hawkular/vertx/monitor/VertxMonitorOptions.java:43-49 | all four fields are copied |
| LegacyMonitorOptions.VertxMonitorOptions.SetHost | src/main/java/org/hawkular/vertx/monitor/VertxMonitorOptions.java:63-66 | only the host changes, and `this` is returned |
| LegacyMonitorOptions.VertxMonitorOptions.SetPort | src/main/java/org/hawkular/vertx/monitor/VertxMonitorOptions.java:72-75 | only the port changes, and `this` is returned |
| LegacyMonitorOptions.VertxMonitorOptions.SetTenant | src/main/java/org/hawkular/vertx/monitor/VertxMonitorOptions.java:81-84 | only the tenant changes, and `this` is returned |
| LegacyMonitorOptions.VertxMonitorOptions.SetSchedule | src/main/java/org/hawkular/vertx/monitor/VertxMonitorOptions.java:90-93 | only the schedule changes, and `this` is returned |
| LegacyMonitorOptions.VertxMonitorOptions.ToString | src/main/java/org/hawkular/vertx/monitor/VertxMonitorOptions.java:95-99 | `toString` renders the current four fields through `Render`: it starts with the class name and the host, and ends with `]` (with `RenderShowsPort` and `RenderDefaults` below) |
| LegacyMonitorOptions.NewFromJson | src/main/java/org/hawkular/vertx/monitor/VertxMonitorOptions.java:51-57 | the JSON constructor yields an object exactly when the four reads succeed, and then holds the values read; otherwise the first read's exception |
| LegacyMonitorOptions.DecodeValues | src/main/java/org/hawkular/vertx/monitor/VertxMonitorOptions.java:51-57 | no keys give the defaults; well-typed keys give their values |
| LegacyMonitorOptions.DefaultNumbers | src/main/java/org/hawkular/vertx/monitor/VertxMonitorOptions.java:27-29 | the default port and schedule render as `8080` and `1` |
| LegacyMonitorOptions.RenderDefaults | src/main/java/org/hawkular/vertx/monitor/VertxMonitorOptions.java:95-99 | the defaults render as `VertxMonitorOptions[host='localhost', port=8080, tenant='default', schedule=1]` |
| LegacyMonitorOptions.SplitAfterNumber | src/main/java/org/hawkular/vertx/monitor/VertxMonitorOptions.java:97 | two numbers followed by text starting with a comma split the same way |
| LegacyMonitorOptions.RenderAroundPort | src/main/java/org/hawkular/vertx/monitor/VertxMonitorOptions.java:97-98 | the rendering is the head, the port and the tail |
| LegacyMonitorOptions.RenderShowsPort | src/main/java/org/hawkular/vertx/monitor/VertxMonitorOptions.java:95-99 | options with the same host and equal renderings have the same port |

## Left out

- Concurrency. Atomic counters, `LongAdder`, `ConcurrentHashMap`,
  `CopyOnWriteArraySet` and the event-loop hand-offs (`runOnContext`) are
  modelled as plain sequential fields. Freedom from lost updates is not
  stated.
- Integer widths of `long` counters and sums. These are unbounded integers,
  so 64-bit overflow is not modelled. Java `int` fields and `intValue()`
  narrowing are modelled.
- Floating point. Sample values (`doubleValue()`) are kept as integers.
  JSON numbers are integers, so `intValue()` of a fractional number is not
  modelled.
- The HTTP client, the JSON encoding of batches (`Batcher`), response and
  exception handlers, and logging. `send` appends the batch to a ghost log
  and records the send time.
- Clocks and timers. `System.nanoTime()` and `currentTimeMillis()` are
  parameters (`now`, `timestamp`). `setPeriodic` and `cancelTimer` act on
  the small `Timers` registry, which refuses a period below 1 ms as Vert.x
  does. Ticks are explicit method calls.
- NetServer.Create, Datagram.Create: when a `null` prefix throws, the timer
  the base class already set stays in the registry, but its later ticks are
  not modelled (they would forward samples named `null.connections`,
  `null.bytesSent` and so on). The base class's collect-and-forward loop is
  modelled on its own, in `Scheduling`, and is not attached to these
  accumulators.
- Map iteration order. `HashMap` and `ConcurrentHashMap` iterate in an
  unspecified order. The model iterates over addresses in order of first
  appearance. Properties that depend on iteration order hold for that
  order only.
- HttpServerSupplier.HttpServerMetricsSupplier.Aggregate: the eight
  per-metric maps are held as one map from an address to its eight sums.
  They always have the same keys, which is what makes this sound.
- HttpServer.HttpServerMetrics: the supplier calls `getServerAddress` and
  the counter getters, which are not in the class's file. They are modelled
  as the `serverAddress` field and the counter fields.
- DatagramSupplier.DatagramSocketMetricsSupplier: a `Values` object is
  shared between the map and its callers. It is modelled as a map value that
  the increments replace. `Values.baseName` is always the supplier's own
  base name, so it is not stored.
- Sending.Sender.Accept: `batchSize >= 1` is a precondition. With 0 the
  source's do-while loop never ends.
- Sending.Sender.constructor: `batchSize >= 0` is a precondition. The
  `ArrayList` capacity argument throws on a negative size.
- Sending.Sender.constructor: a `null` tenant would render as `null` in the
  URI. The model takes a tenant string.
- Sender `stop`, which cancels the timer and closes the HTTP client, is not
  modelled. There is no state of the model that it changes.
- The older `Sender` and `ScheduledMetrics`. The first is built on a
  blocking queue drained by a worker thread. The second hands collection to
  a worker pool. Both are concurrency code.
- The wiring classes (`VertxMetricsImpl`, `VertxMetricsFactoryImpl`), the
  event-bus handler timing, the `MetricSupplier` interface, the no-op older
  net server and event-bus metrics, and the example program. They construct
  objects or measure time and have no bookkeeping of their own.
- The `MetricsOptions` superclass. Its `enabled` flag and `super(json)` /
  `super(other)` are not modelled. `HttpClientOptions` is reduced to its
  default host and port.
- HawkularOptions.VertxHawkularOptions.Copy: the copy constructor shares
  one mutable `HttpClientOptions` object between the copy and the original.
  The model copies a value, so a later change to the default host or port
  through one object is not seen through the other. Aliasing of the HTTP
  client options is not modelled.
- HawkularOptions.VertxHawkularOptions.SetHttpOptions: the source stores a
  `null` argument as it is. The model's `HttpClientOptions` value cannot be
  `null`, so that case, and the exceptions that later uses of it would throw,
  are not modelled.
- OptionsConverter.SetHost, OptionsConverter.SetPort: the options class
  has no `setHost` or `setPort`. The converter's calls are modelled as
  setting the HTTP client options' default host and port.
- MonitorOptions.NewFromJson, LegacyMonitorOptions.NewFromJson: a
  constructor that can throw is modelled as a method returning either the
  new object or the exception.
- `JsonObject` arrays and nested objects are one `JOther` value. Booleans
  are kept only to show that they are ignored or rejected.
- Handlers.HandlersMeasurements.Equals: `getClass() != o.getClass()` is
  not modelled. Only `HandlersMeasurements` instances are compared.
- Getters are not modelled as separate members. They read the fields that
  the model exposes directly.
