/** What every metric source produces: timestamped, typed samples whose names
    are composed from a prefix, a category, a server address and a metric. */
module Samples {
  import opened JavaLang

  /** The backend's classification of a sample. */
  datatype MetricType = Counter | Gauge

  /** One observation, as the client library's `SingleMetric(name, timestamp,
      value, type)`; the value is kept as an integer. */
  datatype Sample = Sample(name: string, timestamp: int, value: int, kind: MetricType)

  /** A socket address: host name and port. */
  datatype SocketAddress = SocketAddress(host: string, port: int)

  /** `address.host() + ":" + address.port()`, the identifier of a server or
      peer inside metric names. */
  function AddressId(a: SocketAddress): (id: string)
    ensures |id| > |a.host| && id[..|a.host|] == a.host && id[|a.host|] == ':'
    ensures ':' !in id[|a.host| + 1..]
  {
    IntToStringChars(a.port);
    a.host + ":" + IntToString(a.port)
  }

  /** Distinct addresses get distinct identifiers: the port is rendered
      without a colon, so the last colon separates host from port. */
  lemma AddressIdInjective(a: SocketAddress, b: SocketAddress)
    requires AddressId(a) == AddressId(b)
    ensures a == b
  {
    var pa, pb := IntToString(a.port), IntToString(b.port);
    IntToStringChars(a.port);
    IntToStringChars(b.port);
    assert ':' !in pa && ':' !in pb;
    assert a.host + [':'] + pa == AddressId(a);
    assert b.host + [':'] + pb == AddressId(b);
    SplitAtLast(a.host, pa, b.host, pb, ':');
    IntToStringInjective(a.port, b.port);
  }

  /** `prefix + (prefix.isEmpty() ? "" : ".") + category`: the metric name
      base shared by one component's samples. */
  function BaseName(prefix: string, category: string): (r: string)
    ensures prefix == [] ==> r == category
    ensures prefix != [] ==> r == prefix + "." + category
  {
    prefix + (if prefix == [] then "" else ".") + category
  }

  /** `buildMetric`: a sample named `baseName + "." + name`. */
  function BuildMetric(baseName: string, name: string, timestamp: int, value: int, kind: MetricType): Sample {
    Sample(baseName + "." + name, timestamp, value, kind)
  }

  /** Two samples built on one base name have the same name only if their
      metric names agree. */
  lemma BuildMetricNameInjective(baseName: string, n1: string, n2: string, timestamp: int, v1: int, v2: int, k1: MetricType, k2: MetricType)
    requires BuildMetric(baseName, n1, timestamp, v1, k1).name == BuildMetric(baseName, n2, timestamp, v2, k2).name
    ensures n1 == n2
  {
    var s1 := BuildMetric(baseName, n1, timestamp, v1, k1).name;
    assert n1 == s1[|baseName| + 1..];
  }
}
