/** The options of the earlier monitor: the Hawkular server's host and
    port, the tenant and the collection schedule, with a readable rendering. */
module LegacyMonitorOptions {
  import opened JavaLang
  import opened Json

  const DEFAULT_HOST: string := "localhost"
  const DEFAULT_PORT: Int32 := 8080
  const DEFAULT_TENANT: string := "default"
  const DEFAULT_SCHEDULE: Int32 := 1

  datatype Settings = Settings(host: Option<string>, port: Int32, tenant: Option<string>, schedule: Int32)

  const DefaultSettings := Settings(Some(DEFAULT_HOST), DEFAULT_PORT, Some(DEFAULT_TENANT), DEFAULT_SCHEDULE)

  /** The JSON constructor on values: the four keys in order, the first
      failing read deciding the exception. */
  function Decode(json: map<string, JsonValue>): Result<Settings> {
    match StringOf(json, "host", Some(DEFAULT_HOST))
    case Throws(e) => Throws(e)
    case Ok(host) =>
      match Unbox(IntegerOf(json, "port", DEFAULT_PORT))
      case Throws(e) => Throws(e)
      case Ok(port) =>
        match StringOf(json, "tenant", Some(DEFAULT_TENANT))
        case Throws(e) => Throws(e)
        case Ok(tenant) =>
          match Unbox(IntegerOf(json, "schedule", DEFAULT_SCHEDULE))
          case Throws(e) => Throws(e)
          case Ok(schedule) => Ok(Settings(host, port, tenant, schedule))
  }

  /** `toString`: the four fields in declaration order, strings quoted,
      `null` written as `null`. */
  function Render(s: Settings): string {
    RenderHead(s.host) + IntToString(s.port) + RenderTail(s.tenant, s.schedule)
  }

  /** The rendering up to the port. */
  function RenderHead(host: Option<string>): string {
    "VertxMonitorOptions[host='" + JavaString(host) + "', port="
  }

  /** The rendering after the port. */
  function RenderTail(tenant: Option<string>, schedule: Int32): (r: string)
    ensures |r| >= 1 && r[0] == ','
  {
    ", tenant='" + JavaString(tenant) + "', schedule=" + IntToString(schedule) + "]"
  }

  class VertxMonitorOptions {
    var host: Option<string>
    var port: Int32
    var tenant: Option<string>
    var schedule: Int32

    function Snapshot(): Settings
      reads this
    {
      Settings(host, port, tenant, schedule)
    }

    /** The defaults: `localhost:8080`, tenant `default`, every second. */
    constructor ()
      ensures Snapshot() == DefaultSettings
    {
      host := Some(DEFAULT_HOST);
      port := DEFAULT_PORT;
      tenant := Some(DEFAULT_TENANT);
      schedule := DEFAULT_SCHEDULE;
    }

    /** The copy constructor: all four fields copied. */
    constructor Copy(other: VertxMonitorOptions)
      ensures Snapshot() == other.Snapshot()
    {
      host := other.host;
      port := other.port;
      tenant := other.tenant;
      schedule := other.schedule;
    }

    method SetHost(host: Option<string>) returns (self: VertxMonitorOptions)
      modifies this
      ensures self == this && Snapshot() == old(Snapshot()).(host := host)
    {
      this.host := host;
      self := this;
    }

    method SetPort(port: Int32) returns (self: VertxMonitorOptions)
      modifies this
      ensures self == this && Snapshot() == old(Snapshot()).(port := port)
    {
      this.port := port;
      self := this;
    }

    method SetTenant(tenant: Option<string>) returns (self: VertxMonitorOptions)
      modifies this
      ensures self == this && Snapshot() == old(Snapshot()).(tenant := tenant)
    {
      this.tenant := tenant;
      self := this;
    }

    method SetSchedule(schedule: Int32) returns (self: VertxMonitorOptions)
      modifies this
      ensures self == this && Snapshot() == old(Snapshot()).(schedule := schedule)
    {
      this.schedule := schedule;
      self := this;
    }

    /** `toString`, the rendering of the current settings: the class name
        and the host come first, and a closing bracket ends it. */
    function ToString(): (r: string)
      reads this
      ensures RenderHead(host) <= r
      ensures r[|r| - 1] == ']'
    {
      Render(Snapshot())
    }
  }

  /** The JSON constructor: reads the four keys in order; an exception from
      a read ends construction and no object is obtained. */
  method NewFromJson(json: JsonObject) returns (r: Result<VertxMonitorOptions>)
    ensures r.Ok? <==> Decode(json.entries).Ok?
    ensures r.Throws? ==> r.error == Decode(json.entries).error
    ensures r.Ok? ==> fresh(r.value) && r.value.Snapshot() == Decode(json.entries).value
  {
    var host := StringOf(json.entries, "host", Some(DEFAULT_HOST));
    if host.Throws? {
      return Throws(host.error);
    }
    var port := Unbox(IntegerOf(json.entries, "port", DEFAULT_PORT));
    if port.Throws? {
      return Throws(port.error);
    }
    var tenant := StringOf(json.entries, "tenant", Some(DEFAULT_TENANT));
    if tenant.Throws? {
      return Throws(tenant.error);
    }
    var schedule := Unbox(IntegerOf(json.entries, "schedule", DEFAULT_SCHEDULE));
    if schedule.Throws? {
      return Throws(schedule.error);
    }
    var o := new VertxMonitorOptions();
    o.host := host.value;
    o.port := port.value;
    o.tenant := tenant.value;
    o.schedule := schedule.value;
    r := Ok(o);
  }

  /** A JSON object without the four keys gives the defaults; a number
      under every integer key and a string under every string key gives
      exactly those values. */
  lemma DecodeValues(json: map<string, JsonValue>)
    ensures "host" !in json && "port" !in json && "tenant" !in json && "schedule" !in json
      ==> Decode(json) == Ok(DefaultSettings)
    ensures "host" in json && json["host"].JString? && "port" in json && json["port"].JNumber?
      && "tenant" in json && json["tenant"].JString? && "schedule" in json && json["schedule"].JNumber?
      ==> Decode(json) == Ok(Settings(Some(json["host"].s), IntValue(json["port"].n),
            Some(json["tenant"].s), IntValue(json["schedule"].n)))
  {
  }

  /** The decimal renderings of the default port and schedule. */
  lemma DefaultNumbers()
    ensures IntToString(DEFAULT_PORT) == "8080" && IntToString(DEFAULT_SCHEDULE) == "1"
  {
    assert DigitChar(8) == '8' && DigitChar(0) == '0' && DigitChar(1) == '1';
    assert NatToString(80) == "80";
    assert NatToString(808) == "808";
  }

  /** The default options render as
      `VertxMonitorOptions[host='localhost', port=8080, tenant='default', schedule=1]`. */
  lemma RenderDefaults()
    ensures Render(DefaultSettings)
      == "VertxMonitorOptions[host='localhost', port=" + "8080" + ", tenant='default', schedule=1]"
  {
    DefaultNumbers();
    assert RenderHead(Some(DEFAULT_HOST)) == "VertxMonitorOptions[host='localhost', port=";
    assert RenderTail(Some(DEFAULT_TENANT), DEFAULT_SCHEDULE) == ", tenant='default', schedule=1]";
  }

  /** The first character after `a` in `a + x` is the first of `x`. */
  lemma FirstAfter(a: string, x: string)
    ensures |x| >= 1 ==> (a + x)[|a|] == x[0]
  {
  }

  /** Two signed numbers followed by text starting with a comma split the
      same way. */
  lemma SplitAfterNumber(a: string, x: string, b: string, y: string)
    requires forall k :: 0 <= k < |a| ==> a[k] == '-' || '0' <= a[k] <= '9'
    requires forall k :: 0 <= k < |b| ==> b[k] == '-' || '0' <= b[k] <= '9'
    requires |x| >= 1 && x[0] == ',' && |y| >= 1 && y[0] == ','
    requires a + x == b + y
    ensures a == b && x == y
  {
    if |a| < |b| {
      FirstAfter(a, x);
      assert false;
    } else if |b| < |a| {
      FirstAfter(b, y);
      assert false;
    }
    assert a == (a + x)[..|a|];
    assert b == (b + y)[..|b|];
    CancelHead(a, x, y);
  }

  /** The rendering split around the port. */
  lemma RenderAroundPort(s: Settings)
    ensures Render(s) == RenderHead(s.host) + (IntToString(s.port) + RenderTail(s.tenant, s.schedule))
  {
  }

  /** Options with the same host render differently when their ports
      differ: the rendering shows the port. */
  lemma RenderShowsPort(s: Settings, t: Settings)
    requires s.host == t.host && Render(s) == Render(t)
    ensures s.port == t.port
  {
    RenderAroundPort(s);
    RenderAroundPort(t);
    var ps, pt := IntToString(s.port), IntToString(t.port);
    var restS, restT := RenderTail(s.tenant, s.schedule), RenderTail(t.tenant, t.schedule);
    CancelHead(RenderHead(s.host), ps + restS, pt + restT);
    IntToStringChars(s.port);
    IntToStringChars(t.port);
    SplitAfterNumber(ps, restS, pt, restT);
    IntToStringInjective(s.port, t.port);
  }
}
