/** The configuration of the Hawkular reporter: where the metrics service
    is, which tenant, how often to collect, the metric name prefix and how
    samples are batched. */
module HawkularOptions {
  import opened JavaLang

  const DEFAULT_HOST: string := "localhost"
  const DEFAULT_PORT: Int32 := 8080
  const DEFAULT_METRICS_URI: string := "/hawkular/metrics"
  const DEFAULT_TENANT: string := "default"
  const DEFAULT_SCHEDULE: Int32 := 1
  const DEFAULT_PREFIX: string := ""
  const DEFAULT_BATCH_SIZE: Int32 := 50
  const DEFAULT_BATCH_DELAY: Int32 := 1

  /** The HTTP client options, reduced to the default host and port the
      reporter sets. */
  datatype HttpClientOptions = HttpClientOptions(defaultHost: Option<string>, defaultPort: Int32)

  /** All the fields of one options object, for stating what a setter
      leaves alone. */
  datatype Settings = Settings(
    httpOptions: HttpClientOptions, metricsServiceUri: Option<string>, tenant: Option<string>,
    schedule: Int32, prefix: string, batchSize: Int32, batchDelay: Int32)

  const DefaultSettings := Settings(
    HttpClientOptions(Some(DEFAULT_HOST), DEFAULT_PORT), Some(DEFAULT_METRICS_URI), Some(DEFAULT_TENANT),
    DEFAULT_SCHEDULE, DEFAULT_PREFIX, DEFAULT_BATCH_SIZE, DEFAULT_BATCH_DELAY)

  /** `setPrefix`'s normalisation: `null` becomes the empty prefix. */
  function NormalizePrefix(prefix: Option<string>): (r: string)
    ensures prefix.None? ==> r == DEFAULT_PREFIX
    ensures prefix.Some? ==> r == prefix.value
  {
    match prefix
    case None => DEFAULT_PREFIX
    case Some(p) => p
  }

  class VertxHawkularOptions {
    var httpOptions: HttpClientOptions
    var metricsServiceUri: Option<string>
    var tenant: Option<string>
    var schedule: Int32
    /** Never `null`: both the default and the setter see to it. */
    var prefix: string
    var batchSize: Int32
    var batchDelay: Int32

    function Snapshot(): Settings
      reads this
    {
      Settings(httpOptions, metricsServiceUri, tenant, schedule, prefix, batchSize, batchDelay)
    }

    /** The defaults: `localhost:8080`, `/hawkular/metrics`, tenant
        `default`, every second, no prefix, batches of 50 or every second. */
    constructor ()
      ensures Snapshot() == DefaultSettings
    {
      httpOptions := HttpClientOptions(Some(DEFAULT_HOST), DEFAULT_PORT);
      metricsServiceUri := Some(DEFAULT_METRICS_URI);
      tenant := Some(DEFAULT_TENANT);
      schedule := DEFAULT_SCHEDULE;
      prefix := DEFAULT_PREFIX;
      batchSize := DEFAULT_BATCH_SIZE;
      batchDelay := DEFAULT_BATCH_DELAY;
    }

    /** The copy constructor: every field copied. */
    constructor Copy(other: VertxHawkularOptions)
      ensures Snapshot() == other.Snapshot()
    {
      httpOptions := other.httpOptions;
      metricsServiceUri := other.metricsServiceUri;
      tenant := other.tenant;
      schedule := other.schedule;
      prefix := other.prefix;
      batchSize := other.batchSize;
      batchDelay := other.batchDelay;
    }

    method SetHttpOptions(httpOptions: HttpClientOptions) returns (self: VertxHawkularOptions)
      modifies this
      ensures self == this && Snapshot() == old(Snapshot()).(httpOptions := httpOptions)
    {
      this.httpOptions := httpOptions;
      self := this;
    }

    method SetMetricsServiceUri(metricsServiceUri: Option<string>) returns (self: VertxHawkularOptions)
      modifies this
      ensures self == this && Snapshot() == old(Snapshot()).(metricsServiceUri := metricsServiceUri)
    {
      this.metricsServiceUri := metricsServiceUri;
      self := this;
    }

    method SetTenant(tenant: Option<string>) returns (self: VertxHawkularOptions)
      modifies this
      ensures self == this && Snapshot() == old(Snapshot()).(tenant := tenant)
    {
      this.tenant := tenant;
      self := this;
    }

    method SetSchedule(schedule: Int32) returns (self: VertxHawkularOptions)
      modifies this
      ensures self == this && Snapshot() == old(Snapshot()).(schedule := schedule)
    {
      this.schedule := schedule;
      self := this;
    }

    /** A `null` prefix is stored as the empty prefix. */
    method SetPrefix(prefix: Option<string>) returns (self: VertxHawkularOptions)
      modifies this
      ensures self == this && Snapshot() == old(Snapshot()).(prefix := NormalizePrefix(prefix))
    {
      this.prefix := if prefix == None then DEFAULT_PREFIX else prefix.value;
      self := this;
    }

    method SetBatchSize(batchSize: Int32) returns (self: VertxHawkularOptions)
      modifies this
      ensures self == this && Snapshot() == old(Snapshot()).(batchSize := batchSize)
    {
      this.batchSize := batchSize;
      self := this;
    }

    method SetBatchDelay(batchDelay: Int32) returns (self: VertxHawkularOptions)
      modifies this
      ensures self == this && Snapshot() == old(Snapshot()).(batchDelay := batchDelay)
    {
      this.batchDelay := batchDelay;
      self := this;
    }
  }

  /** Fluent configuration: chained setters act on the one object, each
      changing its own field. */
  method Configure(tenant: string, prefix: Option<string>, batchSize: Int32) returns (o: VertxHawkularOptions)
    ensures fresh(o)
    ensures o.Snapshot() == DefaultSettings.(tenant := Some(tenant), prefix := NormalizePrefix(prefix), batchSize := batchSize)
  {
    o := new VertxHawkularOptions();
    var self := o.SetTenant(Some(tenant));
    self := self.SetPrefix(prefix);
    self := self.SetBatchSize(batchSize);
  }
}
