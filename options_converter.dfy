/** The JSON converter of the Hawkular options: `fromJson` applies each
    correctly typed key through its setter, `toJson` writes each field under
    its own key, skipping `null` strings. It addresses host and port, which
    live in the HTTP client options of the options object. */
module OptionsConverter {
  import opened JavaLang
  import opened Json
  import opened HawkularOptions

  /** The seven fields the converter reads and writes. */
  datatype Fields = Fields(
    batchDelay: Int32, batchSize: Int32, host: Option<string>, port: Int32,
    prefix: Option<string>, schedule: Int32, tenant: Option<string>)

  function FieldsOf(o: Settings): Fields {
    Fields(o.batchDelay, o.batchSize, o.httpOptions.defaultHost, o.httpOptions.defaultPort,
      Some(o.prefix), o.schedule, o.tenant)
  }

  /** `getValue(key) instanceof Number`, and then its `intValue()`. */
  function NumberAt(json: map<string, JsonValue>, key: string): (r: Option<Int32>)
    ensures r.Some? <==> key in json && json[key].JNumber?
    ensures r.Some? ==> r.value == IntValue(json[key].n)
  {
    var v := ValueOf(json, key);
    if v.Some? && v.value.JNumber? then Some(IntValue(v.value.n)) else None
  }

  /** `getValue(key) instanceof String`, and then the string. */
  function TextAt(json: map<string, JsonValue>, key: string): (r: Option<string>)
    ensures r.Some? <==> key in json && json[key].JString?
    ensures r.Some? ==> r.value == json[key].s
  {
    var v := ValueOf(json, key);
    if v.Some? && v.value.JString? then Some(v.value.s) else None
  }

  /** An `int` field after `fromJson`: the number under `key` if there is
      one, otherwise the field as it was. */
  function IntField(json: map<string, JsonValue>, key: string, current: Int32): Int32 {
    var n := NumberAt(json, key);
    if n.Some? then n.value else current
  }

  /** A string field after `fromJson`: the string under `key` if there is
      one, otherwise the field as it was. */
  function StringField(json: map<string, JsonValue>, key: string, current: Option<string>): Option<string> {
    var t := TextAt(json, key);
    if t.Some? then t else current
  }

  /** `fromJson` on field values: each key applied to its own field, the
      prefix through `setPrefix`. */
  function Decode(json: map<string, JsonValue>, f: Fields): Fields {
    Fields(
      IntField(json, "batchDelay", f.batchDelay),
      IntField(json, "batchSize", f.batchSize),
      StringField(json, "host", f.host),
      IntField(json, "port", f.port),
      StringField(json, "prefix", f.prefix),
      IntField(json, "schedule", f.schedule),
      StringField(json, "tenant", f.tenant))
  }

  /** `toJson` on field values: the four `int` fields always, the strings
      only when not `null`; other keys of `json` stay. */
  function Encode(f: Fields, json: map<string, JsonValue>): map<string, JsonValue> {
    var j1 := json["batchDelay" := JNumber(f.batchDelay)]["batchSize" := JNumber(f.batchSize)];
    var j2 := if f.host.Some? then j1["host" := JString(f.host.value)] else j1;
    var j3 := j2["port" := JNumber(f.port)];
    var j4 := if f.prefix.Some? then j3["prefix" := JString(f.prefix.value)] else j3;
    var j5 := j4["schedule" := JNumber(f.schedule)];
    if f.tenant.Some? then j5["tenant" := JString(f.tenant.value)] else j5
  }

  /** The converter's `setHost`: the HTTP client's default host. */
  method SetHost(obj: VertxHawkularOptions, host: Option<string>)
    modifies obj
    ensures obj.Snapshot() == old(obj.Snapshot()).(httpOptions := old(obj.httpOptions).(defaultHost := host))
  {
    obj.httpOptions := obj.httpOptions.(defaultHost := host);
  }

  /** The converter's `setPort`: the HTTP client's default port. */
  method SetPort(obj: VertxHawkularOptions, port: Int32)
    modifies obj
    ensures obj.Snapshot() == old(obj.Snapshot()).(httpOptions := old(obj.httpOptions).(defaultPort := port))
  {
    obj.httpOptions := obj.httpOptions.(defaultPort := port);
  }

  /** `fromJson` on a whole options object: the same seven steps, in the
      source's order, each applied to its own field. */
  function DecodeInto(json: map<string, JsonValue>, s: Settings): Settings {
    var s1 := s.(batchDelay := IntField(json, "batchDelay", s.batchDelay));
    var s2 := s1.(batchSize := IntField(json, "batchSize", s1.batchSize));
    var s3 := s2.(httpOptions := s2.httpOptions.(defaultHost := StringField(json, "host", s2.httpOptions.defaultHost)));
    var s4 := s3.(httpOptions := s3.httpOptions.(defaultPort := IntField(json, "port", s3.httpOptions.defaultPort)));
    var s5 := s4.(prefix := StringField(json, "prefix", Some(s4.prefix)).value);
    var s6 := s5.(schedule := IntField(json, "schedule", s5.schedule));
    s6.(tenant := StringField(json, "tenant", s6.tenant))
  }

  /** Applied to a whole options object, decoding changes the seven
      converter fields as `Decode` says and leaves the service URI alone. */
  lemma DecodeIntoFields(json: map<string, JsonValue>, s: Settings)
    ensures FieldsOf(DecodeInto(json, s)) == Decode(json, FieldsOf(s))
    ensures DecodeInto(json, s).metricsServiceUri == s.metricsServiceUri
  {
  }

  method FromJson(json: JsonObject, obj: VertxHawkularOptions)
    modifies obj
    ensures obj.Snapshot() == DecodeInto(json.entries, old(obj.Snapshot()))
    ensures FieldsOf(obj.Snapshot()) == Decode(json.entries, FieldsOf(old(obj.Snapshot())))
    ensures obj.metricsServiceUri == old(obj.metricsServiceUri)
  {
    DecodeIntoFields(json.entries, obj.Snapshot());
    ghost var s := obj.Snapshot();
    var self: VertxHawkularOptions;
    var n := NumberAt(json.entries, "batchDelay");
    if n.Some? {
      self := obj.SetBatchDelay(n.value);
    }
    s := s.(batchDelay := IntField(json.entries, "batchDelay", s.batchDelay));
    assert obj.Snapshot() == s;
    n := NumberAt(json.entries, "batchSize");
    if n.Some? {
      self := obj.SetBatchSize(n.value);
    }
    s := s.(batchSize := IntField(json.entries, "batchSize", s.batchSize));
    assert obj.Snapshot() == s;
    var t := TextAt(json.entries, "host");
    if t.Some? {
      SetHost(obj, t);
    }
    s := s.(httpOptions := s.httpOptions.(defaultHost := StringField(json.entries, "host", s.httpOptions.defaultHost)));
    assert obj.Snapshot() == s;
    n := NumberAt(json.entries, "port");
    if n.Some? {
      SetPort(obj, n.value);
    }
    s := s.(httpOptions := s.httpOptions.(defaultPort := IntField(json.entries, "port", s.httpOptions.defaultPort)));
    assert obj.Snapshot() == s;
    t := TextAt(json.entries, "prefix");
    if t.Some? {
      self := obj.SetPrefix(t);
    }
    s := s.(prefix := StringField(json.entries, "prefix", Some(s.prefix)).value);
    assert obj.Snapshot() == s;
    n := NumberAt(json.entries, "schedule");
    if n.Some? {
      self := obj.SetSchedule(n.value);
    }
    s := s.(schedule := IntField(json.entries, "schedule", s.schedule));
    assert obj.Snapshot() == s;
    t := TextAt(json.entries, "tenant");
    if t.Some? {
      self := obj.SetTenant(t);
    }
    s := s.(tenant := StringField(json.entries, "tenant", s.tenant));
    assert obj.Snapshot() == s;
  }

  method ToJson(obj: VertxHawkularOptions, json: JsonObject)
    modifies json
    ensures json.entries == Encode(FieldsOf(obj.Snapshot()), old(json.entries))
  {
    json.Put("batchDelay", JNumber(obj.batchDelay));
    json.Put("batchSize", JNumber(obj.batchSize));
    if obj.httpOptions.defaultHost != None {
      json.Put("host", JString(obj.httpOptions.defaultHost.value));
    }
    json.Put("port", JNumber(obj.httpOptions.defaultPort));
    json.Put("prefix", JString(obj.prefix));
    json.Put("schedule", JNumber(obj.schedule));
    if obj.tenant != None {
      json.Put("tenant", JString(obj.tenant.value));
    }
  }

  /** The JSON constructor: the defaults, then `fromJson`. */
  method NewFromJson(json: JsonObject) returns (o: VertxHawkularOptions)
    ensures fresh(o)
    ensures FieldsOf(o.Snapshot()) == Decode(json.entries, FieldsOf(DefaultSettings))
    ensures o.metricsServiceUri == Some(DEFAULT_METRICS_URI)
  {
    o := new VertxHawkularOptions();
    FromJson(json, o);
  }

  /** Round trip: decoding what was encoded restores every field, whatever
      the object decoded into held before, as long as no string is `null`. */
  lemma DecodeEncode(f: Fields, g: Fields, json: map<string, JsonValue>)
    requires f.host.Some? && f.prefix.Some? && f.tenant.Some?
    ensures Decode(Encode(f, json), g) == f
  {
    var e := Encode(f, json);
    assert ValueOf(e, "batchDelay") == Some(JNumber(f.batchDelay));
    assert ValueOf(e, "batchSize") == Some(JNumber(f.batchSize));
    assert ValueOf(e, "port") == Some(JNumber(f.port));
    assert ValueOf(e, "schedule") == Some(JNumber(f.schedule));
    assert ValueOf(e, "host") == Some(JString(f.host.value));
    assert ValueOf(e, "prefix") == Some(JString(f.prefix.value));
    assert ValueOf(e, "tenant") == Some(JString(f.tenant.value));
  }

  /** Encoding writes the four `int` keys and the non-`null` string keys,
      and nothing else. */
  lemma EncodeKeys(f: Fields, json: map<string, JsonValue>)
    ensures Encode(f, json).Keys == json.Keys + {"batchDelay", "batchSize", "port", "schedule"}
      + (if f.host.Some? then {"host"} else {}) + (if f.prefix.Some? then {"prefix"} else {})
      + (if f.tenant.Some? then {"tenant"} else {})
    ensures forall k :: (k in json && k !in {"batchDelay", "batchSize", "host", "port", "prefix", "schedule", "tenant"}
      ==> Encode(f, json)[k] == json[k])
  {
  }

  /** Decoding a JSON object holding none of the seven keys changes nothing,
      and a key of the wrong type is ignored like a missing one. */
  lemma DecodeIgnores(json: map<string, JsonValue>, f: Fields, key: string)
    requires key in {"batchDelay", "batchSize", "host", "port", "prefix", "schedule", "tenant"}
    ensures (forall k :: k in json ==> k !in {"batchDelay", "batchSize", "host", "port", "prefix", "schedule", "tenant"})
      ==> Decode(json, f) == f
    ensures key in json && (json[key].JBool? || json[key].JOther? || json[key].JNull?)
      ==> Decode(json, f) == Decode(json - {key}, f)
  {
  }

  /** Options built from the encoding of other options agree with them on
      all seven fields. */
  method CopyThroughJson(other: VertxHawkularOptions) returns (o: VertxHawkularOptions)
    requires other.httpOptions.defaultHost.Some? && other.tenant.Some?
    ensures fresh(o) && FieldsOf(o.Snapshot()) == FieldsOf(other.Snapshot())
  {
    ghost var f := FieldsOf(other.Snapshot());
    var json := new JsonObject(map[]);
    ToJson(other, json);
    assert json.entries == Encode(f, map[]);
    DecodeEncode(f, FieldsOf(DefaultSettings), map[]);
    o := NewFromJson(json);
    assert FieldsOf(other.Snapshot()) == f;
  }
}
