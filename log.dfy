/** log/log.go and log/param.go: the zap cores `Init` installs, the file
    rotation pattern of `getWriter`, the level filters, and the trace id
    carried in a context. zap, rotatelogs and the encoders are libraries
    and are not modelled; the installed logger is the list of its cores. */
module Log {
  import opened Common

  /** zapcore levels. */
  const DebugLevel: int := -1
  const InfoLevel: int := 0
  const WarnLevel: int := 1
  const ErrorLevel: int := 2
  const DPanicLevel: int := 3
  const PanicLevel: int := 4
  const FatalLevel: int := 5

  /** The level filters of param.go. */
  datatype Filter = HighPriority | LowPriority | DebugOnly | InfoOnly | WarnOnly | ErrorOnly | FatalOnly

  /** Whether a filter lets a level through. */
  predicate Enabled(f: Filter, lvl: int)
  {
    match f
    case HighPriority => lvl >= InfoLevel
    case LowPriority => lvl >= DebugLevel
    case DebugOnly => lvl == DebugLevel
    case InfoOnly => lvl == InfoLevel
    case WarnOnly => lvl == WarnLevel
    case ErrorOnly => lvl == ErrorLevel
    case FatalOnly => lvl == FatalLevel
  }

  /** The filters that admit a single level. */
  predicate PerLevel(f: Filter)
  {
    !f.HighPriority? && !f.LowPriority?
  }

  /** The one level a per-level filter admits. */
  function LevelOf(f: Filter): (lvl: int)
    requires PerLevel(f)
    ensures Enabled(f, lvl)
    ensures forall l :: Enabled(f, l) ==> l == lvl
  {
    match f
    case DebugOnly => DebugLevel
    case InfoOnly => InfoLevel
    case WarnOnly => WarnLevel
    case ErrorOnly => ErrorLevel
    case FatalOnly => FatalLevel
  }

  /** `highPriority` admits no more than `lowPriority`, and the difference
      is the debug level alone. */
  lemma PriorityFilters(lvl: int)
    ensures Enabled(HighPriority, lvl) ==> Enabled(LowPriority, lvl)
    ensures Enabled(LowPriority, lvl) && !Enabled(HighPriority, lvl) <==> lvl == DebugLevel
  {
  }

  /** Two different per-level filters never admit the same level, and
      DPanic and Panic pass none of them. */
  lemma PerLevelFilters(f: Filter, g: Filter, lvl: int)
    requires PerLevel(f) && PerLevel(g) && f != g
    ensures !(Enabled(f, lvl) && Enabled(g, lvl))
    ensures !Enabled(f, DPanicLevel) && !Enabled(f, PanicLevel)
  {
  }

  /** Whether ".log" occurs at the start of `s`. */
  predicate StartsWithLog(s: string)
  {
    |s| >= 4 && s[0] == '.' && s[1] == 'l' && s[2] == 'o' && s[3] == 'g'
  }

  /** `strings.Replace(s, ".log", "", -1)`: every occurrence of ".log",
      found left to right without overlap, removed. */
  function StripLog(s: string): string
    decreases |s|
  {
    if StartsWithLog(s) then StripLog(s[4..])
    else if s == [] then []
    else [s[0]] + StripLog(s[1..])
  }

  /** Removing never lengthens a name, and a name without '.' holds no
      ".log" and comes back unchanged. */
  lemma {:induction false} StripLogBounds(s: string)
    ensures |StripLog(s)| <= |s|
    ensures (forall i :: 0 <= i < |s| ==> s[i] != '.') ==> StripLog(s) == s
    decreases |s|
  {
    if StartsWithLog(s) {
      StripLogBounds(s[4..]);
    } else if s != [] {
      StripLogBounds(s[1..]);
      if forall i :: 0 <= i < |s| ==> s[i] != '.' {
        assert forall i :: 0 <= i < |s[1..]| ==> s[1..][i] == s[i + 1];
        assert s == [s[0]] + s[1..];
      }
    }
  }

  /** No occurrence straddles the seam when the second part does not start
      with the tail of ".log", so the parts are stripped separately. */
  lemma {:induction false} StripLogAppend(x: string, y: string)
    requires y == [] || (y[0] != 'l' && y[0] != 'o' && y[0] != 'g')
    ensures StripLog(x + y) == StripLog(x) + StripLog(y)
    decreases |x|, 1
  {
    if x == [] {
      assert x + y == y;
    } else if StartsWithLog(x) {
      StripLogAppendMatch(x, y);
    } else {
      StripLogAppendChar(x, y);
    }
  }

  lemma {:induction false} StripLogAppendMatch(x: string, y: string)
    requires y == [] || (y[0] != 'l' && y[0] != 'o' && y[0] != 'g')
    requires StartsWithLog(x)
    ensures StripLog(x + y) == StripLog(x) + StripLog(y)
    decreases |x|, 0
  {
    var xy := x + y;
    assert xy[0] == x[0] && xy[1] == x[1] && xy[2] == x[2] && xy[3] == x[3];
    assert xy[4..] == x[4..] + y;
    StripLogAppend(x[4..], y);
  }

  lemma {:induction false} StripLogAppendChar(x: string, y: string)
    requires y == [] || (y[0] != 'l' && y[0] != 'o' && y[0] != 'g')
    requires x != [] && !StartsWithLog(x)
    ensures StripLog(x + y) == StripLog(x) + StripLog(y)
    decreases |x|, 0
  {
    var xy := x + y;
    NoSeamMatch(x, y);
    assert xy[0] == x[0];
    assert xy[1..] == x[1..] + y;
    StripLogAppend(x[1..], y);
  }

  lemma NoSeamMatch(x: string, y: string)
    requires y == [] || (y[0] != 'l' && y[0] != 'o' && y[0] != 'g')
    requires x != [] && !StartsWithLog(x)
    ensures !StartsWithLog(x + y)
  {
    var xy := x + y;
    if |x| >= 4 {
      assert xy[0] == x[0] && xy[1] == x[1] && xy[2] == x[2] && xy[3] == x[3];
    } else if |xy| >= 4 {
      assert xy[|x|] == y[0];
    }
  }

  /** `getWriter`'s rotating file: the link name and the pattern the
      rotated files are named by. */
  datatype Writer = Writer(linkName: string, pattern: string, maxAge: int, rotationTime: int)

  /** `getWriter(filename)`: keeps a week of hourly files named by the
      filename without ".log" and a time stamp. */
  function GetWriter(filename: string): (w: Writer)
    ensures w.linkName == filename && w.maxAge == 7 * 24 * Hour && w.rotationTime == Hour
  {
    Writer(filename, StripLog(filename) + "_%Y%m%d%H.log", Hour * 24 * 7, Hour)
  }

  /** The files `Init` names end in ".log"; their rotation pattern is the
      name without that ending, followed by the time stamp. */
  lemma RotationPattern(stem: string)
    ensures GetWriter(stem + ".log").pattern == StripLog(stem) + "_%Y%m%d%H.log"
  {
    StripLogAppend(stem, ".log");
    StripLogSuffix();
  }

  lemma StripLogSuffix()
    ensures StripLog(".log") == ""
  {
    assert StartsWithLog(".log");
    assert ".log"[4..] == [];
  }

  /** Where a core writes: standard output, or the rotating writer
      `GetWriter(name)` for a file name. */
  datatype Sink = Console | File(name: string)

  /** One `zapcore.Core`: a sink and its filter. */
  datatype Core = Core(sink: Sink, filter: Filter)

  /** `*Config`. */
  datatype Config = Config(logPath: string, appName: string, debug: bool, multiFile: bool)

  /** The filter of the console and of the single log file. */
  function Priority(debug: bool): (f: Filter)
    ensures f == LowPriority <==> debug
    ensures !PerLevel(f)
  {
    if debug then LowPriority else HighPriority
  }

  function FileCore(c: Config, suffix: string, f: Filter): Core
  {
    Core(File(c.logPath + c.appName + suffix), f)
  }

  /** The cores `Init` installs, in order. */
  function Plan(c: Config): (cores: seq<Core>)
    ensures |cores| >= 1 && cores[0] == Core(Console, Priority(c.debug))
    ensures c.logPath == "" ==> |cores| == 1
  {
    var console := [Core(Console, Priority(c.debug))];
    if c.logPath == "" then console
    else if c.multiFile then
      console + [FileCore(c, "_info.log", InfoOnly), FileCore(c, "_warn.log", WarnOnly),
                 FileCore(c, "_error.log", ErrorOnly), FileCore(c, "_fatal.log", FatalOnly)]
      + (if c.debug then [FileCore(c, "_debug.log", DebugOnly)] else [])
    else console + [FileCore(c, ".log", Priority(c.debug))]
  }

  /** The file cores that let a level through. */
  function FilesFor(cores: seq<Core>, lvl: int): (fs: seq<Core>)
    ensures |fs| <= |cores|
    ensures |cores| == 1 ==> fs == if cores[0].sink.File? && Enabled(cores[0].filter, lvl) then cores else []
  {
    if cores == [] then []
    else
      var head := if cores[0].sink.File? && Enabled(cores[0].filter, lvl) then [cores[0]] else [];
      head + FilesFor(cores[1..], lvl)
  }

  /** Every core `FilesFor` keeps is a file core of the list that lets the
      level through, and every such core is kept. */
  lemma {:induction false} FilesForExact(cores: seq<Core>, lvl: int)
    ensures forall k :: k in FilesFor(cores, lvl) <==> k in cores && k.sink.File? && Enabled(k.filter, lvl)
  {
    if cores != [] {
      FilesForExact(cores[1..], lvl);
      assert cores == [cores[0]] + cores[1..];
    }
  }

  /** With several files, each of Info, Warn, Error and Fatal reaches
      exactly its own file; Debug reaches one file iff debugging is on;
      DPanic and Panic reach no file at all. */
  lemma MultiFileRouting(c: Config, lvl: int)
    requires c.logPath != "" && c.multiFile
    ensures lvl == InfoLevel ==> FilesFor(Plan(c), lvl) == [FileCore(c, "_info.log", InfoOnly)]
    ensures lvl == WarnLevel ==> FilesFor(Plan(c), lvl) == [FileCore(c, "_warn.log", WarnOnly)]
    ensures lvl == ErrorLevel ==> FilesFor(Plan(c), lvl) == [FileCore(c, "_error.log", ErrorOnly)]
    ensures lvl == FatalLevel ==> FilesFor(Plan(c), lvl) == [FileCore(c, "_fatal.log", FatalOnly)]
    ensures lvl == DebugLevel ==>
      FilesFor(Plan(c), lvl) == if c.debug then [FileCore(c, "_debug.log", DebugOnly)] else []
    ensures lvl == DPanicLevel || lvl == PanicLevel ==> FilesFor(Plan(c), lvl) == []
  {
    MultiFilePlan(c, lvl);
  }

  /** A per-level file lets through its own level and no other. */
  lemma OwnFile(c: Config, suffix: string, f: Filter, lvl: int)
    requires PerLevel(f)
    ensures FilesFor([FileCore(c, suffix, f)], lvl) == if lvl == LevelOf(f) then [FileCore(c, suffix, f)] else []
  {
  }

  /** The files of the multi-file plan, one at a time: each per-level file
      contributes itself exactly when the level is its own. */
  lemma MultiFilePlan(c: Config, lvl: int)
    requires c.logPath != "" && c.multiFile
    ensures FilesFor(Plan(c), lvl) ==
      (if lvl == InfoLevel then [FileCore(c, "_info.log", InfoOnly)] else [])
      + (if lvl == WarnLevel then [FileCore(c, "_warn.log", WarnOnly)] else [])
      + (if lvl == ErrorLevel then [FileCore(c, "_error.log", ErrorOnly)] else [])
      + (if lvl == FatalLevel then [FileCore(c, "_fatal.log", FatalOnly)] else [])
      + (if c.debug && lvl == DebugLevel then [FileCore(c, "_debug.log", DebugOnly)] else [])
  {
    MultiFileParts(c, lvl);
    OwnFile(c, "_info.log", InfoOnly, lvl);
    OwnFile(c, "_warn.log", WarnOnly, lvl);
    OwnFile(c, "_error.log", ErrorOnly, lvl);
    OwnFile(c, "_fatal.log", FatalOnly, lvl);
    OwnFile(c, "_debug.log", DebugOnly, lvl);
  }

  /** `FilesFor` over the multi-file plan, split at the cores. */
  lemma MultiFileParts(c: Config, lvl: int)
    requires c.logPath != "" && c.multiFile
    ensures FilesFor(Plan(c), lvl) ==
      FilesFor([FileCore(c, "_info.log", InfoOnly)], lvl) + FilesFor([FileCore(c, "_warn.log", WarnOnly)], lvl)
      + FilesFor([FileCore(c, "_error.log", ErrorOnly)], lvl) + FilesFor([FileCore(c, "_fatal.log", FatalOnly)], lvl)
      + FilesFor(if c.debug then [FileCore(c, "_debug.log", DebugOnly)] else [], lvl)
  {
    var f0, f1, f2, f3 := [FileCore(c, "_info.log", InfoOnly)], [FileCore(c, "_warn.log", WarnOnly)],
      [FileCore(c, "_error.log", ErrorOnly)], [FileCore(c, "_fatal.log", FatalOnly)];
    var debugFile := if c.debug then [FileCore(c, "_debug.log", DebugOnly)] else [];
    var console := [Core(Console, Priority(c.debug))];
    var a1 := console + f0;
    var a2 := a1 + f1;
    var a3 := a2 + f2;
    var a4 := a3 + f3;
    assert Plan(c) == a4 + debugFile;
    FilesForAppend(console, f0, lvl);
    assert FilesFor(a1, lvl) == FilesFor(f0, lvl);
    FilesForAppend(a1, f1, lvl);
    FilesForAppend(a2, f2, lvl);
    FilesForAppend(a3, f3, lvl);
    FilesForAppend(a4, debugFile, lvl);
  }

  lemma {:induction false} FilesForAppend(a: seq<Core>, b: seq<Core>, lvl: int)
    ensures FilesFor(a + b, lvl) == FilesFor(a, lvl) + FilesFor(b, lvl)
  {
    if a != [] {
      assert (a + b)[1..] == a[1..] + b;
      FilesForAppend(a[1..], b, lvl);
    } else {
      assert a + b == b;
    }
  }

  /** With one file, it admits exactly what the console admits. */
  lemma SingleFileRouting(c: Config, lvl: int)
    requires c.logPath != "" && !c.multiFile
    ensures |Plan(c)| == 2
    ensures FilesFor(Plan(c), lvl) == if Enabled(Plan(c)[0].filter, lvl) then [Plan(c)[1]] else []
  {
    assert Plan(c)[1..][1..] == [];
  }

  /** Every file is named by the plain concatenation of the log path, the
      application name and a suffix. */
  lemma FileNames(c: Config, i: nat)
    requires 0 < i < |Plan(c)|
    ensures Plan(c)[i].sink.File?
    ensures exists suffix :: Plan(c)[i].sink.name == c.logPath + c.appName + suffix
  {
    var p := Plan(c);
    var suffixes := if c.multiFile then ["", "_info.log", "_warn.log", "_error.log", "_fatal.log", "_debug.log"]
                    else ["", ".log"];
    assert p[i].sink.name == c.logPath + c.appName + suffixes[i];
  }

  /** The package's logger: the cores of the installed zap logger. */
  class Global {
    var cores: seq<Core>

    /** The logger in place before `Init`: the console at debug level. */
    constructor ()
      ensures cores == [Core(Console, LowPriority)]
    {
      cores := [Core(Console, LowPriority)];
    }

    /** `Init`: builds the cores by successive appends and installs them. */
    method Init(c: Config)
      modifies this
      ensures cores == Plan(c)
    {
      var cs: seq<Core> := [];
      if c.debug {
        cs := cs + [Core(Console, LowPriority)];
      } else {
        cs := cs + [Core(Console, HighPriority)];
      }
      if c.logPath != "" {
        if c.multiFile {
          cs := cs + [Core(File(c.logPath + c.appName + "_info.log"), InfoOnly)];
          cs := cs + [Core(File(c.logPath + c.appName + "_warn.log"), WarnOnly)];
          cs := cs + [Core(File(c.logPath + c.appName + "_error.log"), ErrorOnly)];
          cs := cs + [Core(File(c.logPath + c.appName + "_fatal.log"), FatalOnly)];
          if c.debug {
            cs := cs + [Core(File(c.logPath + c.appName + "_debug.log"), DebugOnly)];
          }
        } else {
          if c.debug {
            cs := cs + [Core(File(c.logPath + c.appName + ".log"), LowPriority)];
          } else {
            cs := cs + [Core(File(c.logPath + c.appName + ".log"), HighPriority)];
          }
        }
      }
      cores := cs;
    }
  }

  /** A context key: Go compares keys by dynamic type and value. */
  datatype Key = Key(typeName: string, value: string)

  /** `traceIDKey`, of the package's own `ctxKey` type. */
  const TraceIDKey: Key := Key("log.ctxKey", "trace_id")

  /** A value stored in a context. */
  datatype Value = StringValue(s: string) | OtherValue(rendered: string)

  /** A `context.Context` as far as its values go. */
  datatype Context = Background | WithValue(parent: Context, key: Key, val: Value)

  /** `ctx.Value(key)`: the innermost value stored under the key. */
  function Lookup(ctx: Context, key: Key): (v: Option<Value>)
    ensures ctx.WithValue? && ctx.key == key ==> v == Some(ctx.val)
    ensures ctx.Background? ==> v.None?
  {
    match ctx
    case Background => None
    case WithValue(parent, k, val) => if k == key then Some(val) else Lookup(parent, key)
  }

  /** `WithTraceID`. */
  function WithTraceID(ctx: Context, traceID: string): (r: Context)
    ensures Lookup(r, TraceIDKey) == Some(StringValue(traceID))
    ensures forall k :: k != TraceIDKey ==> Lookup(r, k) == Lookup(ctx, k)
  {
    WithValue(ctx, TraceIDKey, StringValue(traceID))
  }

  /** `FromContext`: the trace id when one is stored as a string. */
  function FromContext(ctx: Context): (r: (string, bool))
    ensures r.1 <==> Lookup(ctx, TraceIDKey).Some? && Lookup(ctx, TraceIDKey).value.StringValue?
    ensures r.1 ==> r.0 == Lookup(ctx, TraceIDKey).value.s
    ensures !r.1 ==> r.0 == ""
  {
    match Lookup(ctx, TraceIDKey)
    case None => ("", false)
    case Some(v) => if v.StringValue? then (v.s, true) else ("", false)
  }

  /** The trace id set last is the one read back, and values under other
      keys, including a plain string "trace_id", neither hide nor fake it. */
  lemma TraceIDRoundTrip(ctx: Context, id: string, k: Key, v: Value)
    requires k != TraceIDKey
    ensures FromContext(WithTraceID(ctx, id)) == (id, true)
    ensures FromContext(WithValue(WithTraceID(ctx, id), k, v)) == (id, true)
    ensures FromContext(WithValue(ctx, k, v)) == FromContext(ctx)
    ensures FromContext(WithValue(ctx, Key("string", "trace_id"), StringValue(id))) == FromContext(ctx)
  {
  }

  /** Whether some `WithValue` in the chain used the key. */
  predicate Carries(ctx: Context, key: Key)
  {
    ctx.WithValue? && (ctx.key == key || Carries(ctx.parent, key))
  }

  /** A lookup finds a value exactly when some link carries the key, so a
      context that never had a trace id gives none. */
  lemma {:induction false} LookupFindsKey(ctx: Context, key: Key)
    ensures Lookup(ctx, key).Some? <==> Carries(ctx, key)
    ensures !Carries(ctx, TraceIDKey) ==> FromContext(ctx) == ("", false)
  {
    if ctx.WithValue? {
      LookupFindsKey(ctx.parent, key);
      LookupFindsKey(ctx.parent, TraceIDKey);
    }
  }

  /** A sugared logger, by the fields `With` has added to it. */
  datatype Logger = Logger(fields: seq<(string, string)>)

  /** `withCtx`: adds the trace id as a field when there is one. */
  function WithCtx(ctx: Option<Context>, logger: Logger): (l: Logger)
    ensures ctx.None? ==> l == logger
    ensures ctx.Some? && FromContext(ctx.value).1 ==>
      l.fields == logger.fields + [("trace_id", FromContext(ctx.value).0)]
    ensures ctx.Some? && !FromContext(ctx.value).1 ==> l == logger
  {
    if ctx.None? then logger
    else
      var (tid, ok) := FromContext(ctx.value);
      if ok then Logger(logger.fields + [("trace_id", tid)]) else logger
  }
}
