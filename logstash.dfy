/** log/logstash.go: a logrus hook that sends each entry to Logstash as
    one line of JSON. The dial, the JSON encoder and the connection's
    `Write` are oracles passed in; the time stamp arrives already
    formatted as RFC 3339 in UTC. */
module Logstash {
  import opened Common

  /** logrus levels. */
  const PanicLevel: int := 0
  const FatalLevel: int := 1
  const ErrorLevel: int := 2
  const WarnLevel: int := 3
  const InfoLevel: int := 4
  const DebugLevel: int := 5
  const TraceLevel: int := 6

  /** `logrus.Level.String()`. */
  function LevelName(level: int): (name: string)
    ensures 0 <= level <= TraceLevel <==> name != "unknown"
  {
    if level == PanicLevel then "panic"
    else if level == FatalLevel then "fatal"
    else if level == ErrorLevel then "error"
    else if level == WarnLevel then "warning"
    else if level == InfoLevel then "info"
    else if level == DebugLevel then "debug"
    else if level == TraceLevel then "trace"
    else "unknown"
  }

  /** A field value: a string, or any other value known by its rendering. */
  datatype FieldValue = Text(s: string) | Opaque(rendered: string)

  /** A `*logrus.Entry`. */
  datatype Entry = Entry(data: map<string, FieldValue>, timestamp: string, message: string, level: int)

  /** The keys `format` always sets. */
  const Reserved: set<string> := {"@timestamp", "message", "level", "appName", "env"}

  /** The field map `format` serialises. */
  function Fields(entry: Entry, project: string, env: string): (f: map<string, FieldValue>)
    ensures f.Keys == entry.data.Keys + Reserved
    ensures forall k :: k in entry.data && k !in Reserved ==> f[k] == entry.data[k]
    ensures f["@timestamp"] == Text(entry.timestamp) && f["message"] == Text(entry.message)
    ensures f["level"] == Text(LevelName(entry.level))
    ensures f["appName"] == Text(project) && f["env"] == Text(env)
  {
    entry.data["@timestamp" := Text(entry.timestamp)]["message" := Text(entry.message)]
      ["level" := Text(LevelName(entry.level))]["appName" := Text(project)]["env" := Text(env)]
  }

  /** `'\n'`. */
  const Newline: bv8 := 10

  /** `*Logstash`: the connection, once dialled, and the settings. */
  class Hook {
    var conn: Option<int>
    var project: string
    var proto: string
    var address: string
    var env: string

    constructor (project: string, proto: string, address: string, env: string)
      ensures this.project == project && this.proto == proto && this.address == address && this.env == env
      ensures conn.None?
    {
      this.project, this.proto, this.address, this.env := project, proto, address, env;
      conn := None;
    }

    /** `format`: copies the entry's data into a fresh map, sets the five
        reserved keys over it, and returns the JSON followed by one newline,
        or a wrapped error when the encoder fails. */
    method Format(entry: Entry, marshal: map<string, FieldValue> -> Result<seq<bv8>>)
      returns (out: Result<seq<bv8>>)
      ensures marshal(Fields(entry, project, env)).Ok? ==>
        out == Ok(marshal(Fields(entry, project, env)).value + [Newline])
      ensures marshal(Fields(entry, project, env)).Err? ==>
        out == Err(Error("Failed to marshal fields to JSON, " + marshal(Fields(entry, project, env)).error.msg))
    {
      var fields: map<string, FieldValue> := map[];
      var todo := entry.data.Keys;
      while todo != {}
        invariant todo <= entry.data.Keys
        invariant fields.Keys == entry.data.Keys - todo
        invariant forall k :: k in fields ==> fields[k] == entry.data[k]
        decreases |todo|
      {
        var k :| k in todo;
        fields := fields[k := entry.data[k]];
        todo := todo - {k};
      }
      assert fields == entry.data;
      fields := fields["@timestamp" := Text(entry.timestamp)];
      fields := fields["message" := Text(entry.message)];
      fields := fields["level" := Text(LevelName(entry.level))];
      fields := fields["appName" := Text(project)];
      fields := fields["env" := Text(env)];
      match marshal(fields)
      case Err(e) =>
        out := Err(Error("Failed to marshal fields to JSON, " + e.msg));
      case Ok(serialized) =>
        out := Ok(serialized + [Newline]);
    }

    /** `Fire`: a format error is returned without writing; otherwise the
        formatted line is written and the write's error returned. A hook
        that was never dialled has a nil connection, and the write panics. */
    method Fire(entry: Entry, marshal: map<string, FieldValue> -> Result<seq<bv8>>, writeErr: Option<Error>)
      returns (err: Outcome<Option<Error>>, written: Option<seq<bv8>>)
      ensures marshal(Fields(entry, project, env)).Err? ==>
        written.None? && err == Returned(Some(Error("Failed to marshal fields to JSON, " + marshal(Fields(entry, project, env)).error.msg)))
      ensures marshal(Fields(entry, project, env)).Ok? && conn.None? ==>
        written.None? && err == Panicked(NilDereference)
      ensures marshal(Fields(entry, project, env)).Ok? && conn.Some? ==>
        written == Some(marshal(Fields(entry, project, env)).value + [Newline]) && err == Returned(writeErr)
    {
      var out := Format(entry, marshal);
      if out.Err? {
        return Returned(Some(out.error)), None;
      }
      if conn.None? {
        return Panicked(NilDereference), None;
      }
      written := Some(out.value);
      err := Returned(writeErr);
    }
  }

  /** `NewLogstash`, given what dialling returns: on success the connection
      is stored in the same configuration, which is returned. */
  method NewLogstash(conf: Hook, dial: Result<int>) returns (hook: Hook?, err: Option<Error>)
    modifies conf`conn
    ensures dial.Err? ==> hook == null && err == Some(dial.error) && conf.conn == old(conf.conn)
    ensures dial.Ok? ==> hook == conf && err.None? && conf.conn == Some(dial.value)
  {
    if dial.Err? {
      return null, Some(dial.error);
    }
    conf.conn := Some(dial.value);
    hook, err := conf, None;
  }

  /** `Levels`. */
  function Levels(): (ls: seq<int>)
    ensures |ls| == 6
  {
    [PanicLevel, FatalLevel, ErrorLevel, WarnLevel, InfoLevel, DebugLevel]
  }

  /** The hook fires for every named level but trace, from the most severe
      down, each once. */
  lemma LevelsOrder()
    ensures forall i, j :: 0 <= i < j < |Levels()| ==> Levels()[i] < Levels()[j]
    ensures forall l :: l in Levels() <==> PanicLevel <= l <= DebugLevel
    ensures TraceLevel !in Levels()
  {
  }
}
