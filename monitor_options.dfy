/** The options of the Vert.x monitor: where the Hawkular server is, which
    tenant, how often to collect, the metric name prefix and how samples are
    batched. */
module MonitorOptions {
  import opened JavaLang
  import opened Json
  import HawkularOptions

  const DEFAULT_HOST: string := "localhost"
  const DEFAULT_PORT: Int32 := 8080
  const DEFAULT_TENANT: string := "default"
  const DEFAULT_SCHEDULE: Int32 := 1
  const DEFAULT_PREFIX: string := ""
  const DEFAULT_BATCH_SIZE: Int32 := 50
  const DEFAULT_BATCH_DELAY: Int32 := 1

  /** All the fields of one options object. The prefix can be `null`: the
      JSON constructor stores what it reads without going through the setter. */
  datatype Settings = Settings(
    host: Option<string>, port: Int32, tenant: Option<string>, schedule: Int32,
    prefix: Option<string>, batchSize: Int32, batchDelay: Int32)

  const DefaultSettings := Settings(
    Some(DEFAULT_HOST), DEFAULT_PORT, Some(DEFAULT_TENANT), DEFAULT_SCHEDULE,
    Some(DEFAULT_PREFIX), DEFAULT_BATCH_SIZE, DEFAULT_BATCH_DELAY)

  /** The JSON constructor on values: each field read from its own key with
      `getString` or `getInteger`, in declaration order, the first failing
      read deciding the exception. */
  function Decode(json: map<string, JsonValue>): Result<Settings> {
    match StringOf(json, "host", Some(DEFAULT_HOST))
    case Throws(e) => Throws(e)
    case Ok(host) =>
      match Unbox(IntegerOf(json, "port", DEFAULT_PORT))
      case Throws(e) => Throws(e)
      case Ok(port) =>
        match StringOf(json, "tenant", Some(DEFAULT_TENANT))
        case Throws(e) => Throws(e)
        case Ok(tenant) =>
          match Unbox(IntegerOf(json, "schedule", DEFAULT_SCHEDULE))
          case Throws(e) => Throws(e)
          case Ok(schedule) =>
            match StringOf(json, "prefix", Some(DEFAULT_PREFIX))
            case Throws(e) => Throws(e)
            case Ok(prefix) =>
              match Unbox(IntegerOf(json, "batchSize", DEFAULT_BATCH_SIZE))
              case Throws(e) => Throws(e)
              case Ok(batchSize) =>
                match Unbox(IntegerOf(json, "batchDelay", DEFAULT_BATCH_DELAY))
                case Throws(e) => Throws(e)
                case Ok(batchDelay) =>
                  Ok(Settings(host, port, tenant, schedule, prefix, batchSize, batchDelay))
  }

  class VertxMonitorOptions {
    var host: Option<string>
    var port: Int32
    var tenant: Option<string>
    var schedule: Int32
    var prefix: Option<string>
    var batchSize: Int32
    var batchDelay: Int32

    function Snapshot(): Settings
      reads this
    {
      Settings(host, port, tenant, schedule, prefix, batchSize, batchDelay)
    }

    /** The defaults: `localhost:8080`, tenant `default`, every second, no
        prefix, batches of 50 or every second. */
    constructor ()
      ensures Snapshot() == DefaultSettings
    {
      host := Some(DEFAULT_HOST);
      port := DEFAULT_PORT;
      tenant := Some(DEFAULT_TENANT);
      schedule := DEFAULT_SCHEDULE;
      prefix := Some(DEFAULT_PREFIX);
      batchSize := DEFAULT_BATCH_SIZE;
      batchDelay := DEFAULT_BATCH_DELAY;
    }

    /** The copy constructor: every field copied. */
    constructor Copy(other: VertxMonitorOptions)
      ensures Snapshot() == other.Snapshot()
    {
      host := other.host;
      port := other.port;
      tenant := other.tenant;
      schedule := other.schedule;
      prefix := other.prefix;
      batchSize := other.batchSize;
      batchDelay := other.batchDelay;
    }

    method SetHost(host: Option<string>) returns (self: VertxMonitorOptions)
      modifies this
      ensures self == this && Snapshot() == old(Snapshot()).(host := host)
    {
      this.host := host;
      self := this;
    }

    method SetPort(port: Int32) returns (self: VertxMonitorOptions)
      modifies this
      ensures self == this && Snapshot() == old(Snapshot()).(port := port)
    {
      this.port := port;
      self := this;
    }

    method SetTenant(tenant: Option<string>) returns (self: VertxMonitorOptions)
      modifies this
      ensures self == this && Snapshot() == old(Snapshot()).(tenant := tenant)
    {
      this.tenant := tenant;
      self := this;
    }

    method SetSchedule(schedule: Int32) returns (self: VertxMonitorOptions)
      modifies this
      ensures self == this && Snapshot() == old(Snapshot()).(schedule := schedule)
    {
      this.schedule := schedule;
      self := this;
    }

    /** A `null` prefix is stored as the empty prefix, so after the setter
        the prefix is never `null`. */
    method SetPrefix(prefix: Option<string>) returns (self: VertxMonitorOptions)
      modifies this
      ensures self == this && Snapshot() == old(Snapshot()).(prefix := Some(HawkularOptions.NormalizePrefix(prefix)))
      ensures this.prefix.Some?
    {
      this.prefix := if prefix == None then Some(DEFAULT_PREFIX) else prefix;
      self := this;
    }

    method SetBatchSize(batchSize: Int32) returns (self: VertxMonitorOptions)
      modifies this
      ensures self == this && Snapshot() == old(Snapshot()).(batchSize := batchSize)
    {
      this.batchSize := batchSize;
      self := this;
    }

    method SetBatchDelay(batchDelay: Int32) returns (self: VertxMonitorOptions)
      modifies this
      ensures self == this && Snapshot() == old(Snapshot()).(batchDelay := batchDelay)
    {
      this.batchDelay := batchDelay;
      self := this;
    }
  }

  /** The JSON constructor: reads the seven keys in order; an exception from
      a read ends construction and no object is obtained. */
  method NewFromJson(json: JsonObject) returns (r: Result<VertxMonitorOptions>)
    ensures r.Ok? <==> Decode(json.entries).Ok?
    ensures r.Throws? ==> r.error == Decode(json.entries).error
    ensures r.Ok? ==> fresh(r.value) && r.value.Snapshot() == Decode(json.entries).value
  {
    var host := StringOf(json.entries, "host", Some(DEFAULT_HOST));
    if host.Throws? {
      return Throws(host.error);
    }
    var port := Unbox(IntegerOf(json.entries, "port", DEFAULT_PORT));
    if port.Throws? {
      return Throws(port.error);
    }
    var tenant := StringOf(json.entries, "tenant", Some(DEFAULT_TENANT));
    if tenant.Throws? {
      return Throws(tenant.error);
    }
    var schedule := Unbox(IntegerOf(json.entries, "schedule", DEFAULT_SCHEDULE));
    if schedule.Throws? {
      return Throws(schedule.error);
    }
    var prefix := StringOf(json.entries, "prefix", Some(DEFAULT_PREFIX));
    if prefix.Throws? {
      return Throws(prefix.error);
    }
    var batchSize := Unbox(IntegerOf(json.entries, "batchSize", DEFAULT_BATCH_SIZE));
    if batchSize.Throws? {
      return Throws(batchSize.error);
    }
    var batchDelay := Unbox(IntegerOf(json.entries, "batchDelay", DEFAULT_BATCH_DELAY));
    if batchDelay.Throws? {
      return Throws(batchDelay.error);
    }
    var o := new VertxMonitorOptions();
    o.host := host.value;
    o.port := port.value;
    o.tenant := tenant.value;
    o.schedule := schedule.value;
    o.prefix := prefix.value;
    o.batchSize := batchSize.value;
    o.batchDelay := batchDelay.value;
    r := Ok(o);
  }

  /** The key names the JSON constructor reads. */
  const StringKeys: set<string> := {"host", "tenant", "prefix"}
  const IntegerKeys: set<string> := {"port", "schedule", "batchSize", "batchDelay"}

  /** A JSON object the constructor accepts: string keys hold a string or
      `null`, integer keys a number. */
  predicate WellTyped(json: map<string, JsonValue>) {
    (forall k :: k in StringKeys && k in json ==> json[k].JString? || json[k] == JNull) &&
    (forall k :: k in IntegerKeys && k in json ==> json[k].JNumber?)
  }

  /** A string field as read by `getString` with its default. */
  function StringRead(json: map<string, JsonValue>, key: string, def: string): Option<string> {
    if key !in json then Some(def) else if json[key].JString? then Some(json[key].s) else None
  }

  /** An `int` field as read by `getInteger` with its default. */
  function IntegerRead(json: map<string, JsonValue>, key: string, def: Int32): Int32
    requires key in json ==> json[key].JNumber?
  {
    if key !in json then def else IntValue(json[key].n)
  }

  /** The JSON constructor succeeds exactly on well-typed objects, and then
      every field is the key's value, or the default when the key is
      missing; a JSON `null` string stays `null`. */
  lemma DecodeSucceeds(json: map<string, JsonValue>)
    ensures Decode(json).Ok? <==> WellTyped(json)
    ensures WellTyped(json) ==> Decode(json).value == Settings(
      StringRead(json, "host", DEFAULT_HOST), IntegerRead(json, "port", DEFAULT_PORT),
      StringRead(json, "tenant", DEFAULT_TENANT), IntegerRead(json, "schedule", DEFAULT_SCHEDULE),
      StringRead(json, "prefix", DEFAULT_PREFIX), IntegerRead(json, "batchSize", DEFAULT_BATCH_SIZE),
      IntegerRead(json, "batchDelay", DEFAULT_BATCH_DELAY))
  {
    if WellTyped(json) {
      assert "host" in StringKeys && "tenant" in StringKeys && "prefix" in StringKeys;
      assert "port" in IntegerKeys && "schedule" in IntegerKeys;
      assert "batchSize" in IntegerKeys && "batchDelay" in IntegerKeys;
    } else if k :| k in StringKeys && k in json && !(json[k].JString? || json[k] == JNull) {
      assert k == "host" || k == "tenant" || k == "prefix";
    } else {
      var k :| k in IntegerKeys && k in json && !json[k].JNumber?;
      assert k == "port" || k == "schedule" || k == "batchSize" || k == "batchDelay";
    }
  }

  /** A JSON object without any of the seven keys gives the defaults. */
  lemma DecodeEmpty(json: map<string, JsonValue>)
    requires forall k :: k in json ==> k !in StringKeys && k !in IntegerKeys
    ensures Decode(json) == Ok(DefaultSettings)
  {
    assert "host" !in json && "tenant" !in json && "prefix" !in json;
    assert "port" !in json && "schedule" !in json && "batchSize" !in json && "batchDelay" !in json;
  }

  /** A JSON `null` under an integer key reaches the `int` field through
      unboxing and throws a `NullPointerException` (when the keys read
      before it are fine). */
  lemma NullIntegerThrows(json: map<string, JsonValue>)
    requires "host" !in json && "port" in json && json["port"] == JNull
    ensures Decode(json) == Throws(NullPointerException)
  {
  }
}
