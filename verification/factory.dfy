/**
 * The logger factory of logger_tool.py: `get_logger` looks a logger up by
 * name in the process-wide registry (creating it when absent), sets its
 * level, turns propagation off, and then either attaches a console and a
 * file handler (first configuration) or re-levels and re-formats the
 * handlers it already has (reconfiguration). `get_loggers` lists the
 * registry. Handlers and loggers are values here; the registry is an
 * object whose map the factory updates.
 */
module LoggerFactory {
  import opened Wrappers
  import opened Levels

  /**
   * Stands for this module's own `__name__`, the name it was imported under
   * (`logger_tool` here; a package-qualified name or `__main__` elsewhere):
   * the key every caller that gives no name shares.
   */
  const ModuleName: string := "logger_tool"

  /** A file handler is also a stream handler; `Stream` is any other stream handler. */
  datatype HandlerKind = Stream | File(path: string) | Other

  /** The formatter a handler holds: none, one of the module's two, or someone else's. */
  datatype FormatterKind = NoFormatter | Colored | Plain | Foreign

  datatype Handler = Handler(kind: HandlerKind, level: int, formatter: FormatterKind)

  datatype Logger = Logger(level: int, propagate: bool, handlers: seq<Handler>)

  /** A logger as the registry creates it: level NOTSET, propagating, no handlers. */
  const Unconfigured := Logger(NOTSET, true, [])

  /** A record a convenience method hands on for emission. */
  datatype Emission = Emission(levelno: int, message: string)

  /**
   * A convenience method (`chat` … `success`) called on a logger: it emits a
   * record at its own rank exactly when the logger is enabled for that rank,
   * and does nothing otherwise.
   */
  function Emit(logger: Logger, m: LevelMethod, message: string): (r: Option<Emission>)
    ensures r.Some? <==> MethodRank(m) >= logger.level
    ensures r.Some? ==> r.value.levelno == MethodRank(m) && r.value.message == message
  {
    if IsEnabledFor(logger.level, MethodRank(m)) then Some(Emission(MethodRank(m), message)) else None
  }

  /** The default `delimiter` of `get_logger`. */
  const DefaultDelimiter := "_"

  /** The arguments of `get_logger`; `delimiter` is `DefaultDelimiter` unless the caller gives one. */
  datatype Request = Request(
    name: Option<string>,
    logLevel: Option<string>,
    logPath: Option<string>,
    logFile: Option<string>,
    delimiter: string)

  /** Why a first configuration stopped: no directory given, or the filesystem refused. */
  datatype ConfigError = PathMissing | FileSystemFailure

  /** `name if name else __name__`: a missing or empty name means the module's own. */
  function LoggerKey(name: Option<string>): (key: string)
    ensures key != ""
    ensures name.Some? && name.value != "" ==> key == name.value
    ensures (name.None? || name.value == "") ==> key == ModuleName
  {
    if name.Some? && name.value != "" then name.value else ModuleName
  }

  /**
   * The level `get_logger` sets: the resolved `log_level` when one is given;
   * otherwise the logger's own level if it is set (non-zero), else INFO.
   * Never NOTSET.
   */
  function DesiredLevel(logLevel: Option<string>, current: int): (d: int)
    ensures d != NOTSET
    ensures logLevel.Some? ==> RankName(d).Some?
    ensures logLevel.None? ==> d == current || (current == NOTSET && d == INFO)
  {
    if logLevel.Some? then LevelFromName(logLevel.value)
    else if current != NOTSET then current else INFO
  }

  /**
   * `os.path.join` of two POSIX paths: an absolute second part replaces the
   * first; otherwise the two are joined with one `/` unless the first is
   * empty or already ends with `/`.
   */
  function JoinPath(dir: string, file: string): (p: string)
    ensures |p| >= |file| && p[|p| - |file|..] == file
    ensures file != [] && file[0] == '/' ==> p == file
    ensures (file == [] || file[0] != '/') ==> |p| >= |dir| && p[..|dir|] == dir
    ensures (file == [] || file[0] != '/') ==> p == dir + file || p == dir + "/" + file
    ensures (file == [] || file[0] != '/') ==> (p == dir + "/" + file <==> dir != [] && dir[|dir| - 1] != '/')
  {
    if file != [] && file[0] == '/' then file
    else if dir == [] || dir[|dir| - 1] == '/' then dir + file
    else dir + "/" + file
  }

  /** `f"{log_file}"`: a given file name is used as it is; a missing one renders as `None`. */
  function FileStem(logFile: Option<string>): (stem: string)
    ensures logFile.Some? ==> stem == logFile.value
    ensures logFile.None? ==> stem == "None"
  {
    match logFile
    case None => "None"
    case Some(f) => f
  }

  /** `log_path` joined with `log_file + delimiter + timestamp + ".log"`. */
  function LogFilePath(logPath: string, logFile: Option<string>, delimiter: string, timestamp: string): (p: string)
    ensures var name := FileStem(logFile) + delimiter + timestamp + ".log";
      && |p| >= |name| && p[|p| - |name|..] == name
      && (name[0] != '/' ==> |p| >= |logPath| && p[..|logPath|] == logPath)
      && (name[0] != '/' ==> p == logPath + name || p == logPath + "/" + name)
      && (name[0] != '/' ==> (p == logPath + "/" + name <==> logPath != [] && logPath[|logPath| - 1] != '/'))
  {
    JoinPath(logPath, FileStem(logFile) + delimiter + timestamp + ".log")
  }

  /**
   * One handler after reconfiguration: level `d`; a file handler gets the
   * file formatter, any other stream handler the console formatter, and any
   * other handler keeps its formatter.
   */
  function Reconfigured(h: Handler, d: int): (r: Handler)
    ensures r.kind == h.kind && r.level == d
  {
    match h.kind
    case File(_) => h.(level := d, formatter := Plain)
    case Stream => h.(level := d, formatter := Colored)
    case Other => h.(level := d)
  }

  /** Every handler reconfigured, in place and in order. */
  function ReconfigureAll(hs: seq<Handler>, d: int): (r: seq<Handler>)
    ensures |r| == |hs|
    ensures forall i :: 0 <= i < |hs| ==> r[i].kind == hs[i].kind && r[i].level == d
  {
    seq(|hs|, i requires 0 <= i < |hs| => Reconfigured(hs[i], d))
  }

  /** The loop of `get_logger` over existing handlers. */
  method ReconfigureHandlers(hs: seq<Handler>, d: int) returns (out: seq<Handler>)
    ensures out == ReconfigureAll(hs, d)
  {
    out := hs;
    var i := 0;
    while i < |out|
      invariant 0 <= i <= |out| == |hs|
      invariant forall j :: 0 <= j < i ==> out[j] == Reconfigured(hs[j], d)
      invariant forall j :: i <= j < |out| ==> out[j] == hs[j]
    {
      var h := out[i].(level := d);
      if h.kind.File? {
        h := h.(formatter := Plain);
      } else if h.kind.Stream? {
        h := h.(formatter := Colored);
      }
      out := out[i := h];
      i := i + 1;
    }
  }

  /** What one `get_logger` call does to the logger it resolves, and whether it raised. */
  datatype Step = Step(logger: Logger, error: Option<ConfigError>)

  /**
   * One `get_logger` call on a logger: level and propagation set; then, on a
   * logger without handlers, a console handler, and a file handler unless
   * the directory is missing or the filesystem refuses (`fsOk` is the
   * outcome of creating the directory and opening the file); on a logger
   * with handlers, the same handlers reconfigured.
   */
  function Configure(before: Logger, req: Request, timestamp: string, fsOk: bool): (s: Step)
    ensures s.logger.level == DesiredLevel(req.logLevel, before.level) && !s.logger.propagate
    ensures before.handlers != [] ==> s.error.None? && |s.logger.handlers| == |before.handlers|
    ensures before.handlers == [] ==>
      && 1 <= |s.logger.handlers| <= 2
      && (|s.logger.handlers| == 2 <==> s.error.None?)
      && (s.error == Some(PathMissing) <==> req.logPath.None?)
  {
    var d := DesiredLevel(req.logLevel, before.level);
    if before.handlers != [] then
      Step(Logger(d, false, ReconfigureAll(before.handlers, d)), None)
    else
      var console := Handler(Stream, d, Colored);
      if req.logPath.None? then
        Step(Logger(d, false, [console]), Some(PathMissing))
      else if !fsOk then
        Step(Logger(d, false, [console]), Some(FileSystemFailure))
      else
        var path := LogFilePath(req.logPath.value, req.logFile, req.delimiter, timestamp);
        Step(Logger(d, false, [console, Handler(File(path), d, Plain)]), None)
  }

  /**
   * The body of `get_logger` once the logger is resolved: it sets the level
   * and propagation, then attaches or reconfigures handlers, as `Configure`
   * describes. It is kept apart from `Registry.GetLogger` so that each proof
   * stays small: the registry method only resolves the entry and stores it.
   */
  method ConfigureLogger(before: Logger, req: Request, timestamp: string, fsOk: bool)
    returns (logger: Logger, error: Option<ConfigError>)
    ensures Step(logger, error) == Configure(before, req, timestamp, fsOk)
  {
    ghost var step := Configure(before, req, timestamp, fsOk);
    var desired: int;
    if req.logLevel.Some? {
      desired := LevelFromName(req.logLevel.value);
    } else {
      desired := if before.level != NOTSET then before.level else INFO;
    }
    assert desired == DesiredLevel(req.logLevel, before.level);
    logger := before.(level := desired, propagate := false);
    error := None;
    if logger.handlers == [] {
      logger := logger.(handlers := [Handler(Stream, desired, Colored)]);
      if req.logPath.None? {
        error := Some(PathMissing);
      } else if !fsOk {
        error := Some(FileSystemFailure);
      } else {
        var path := LogFilePath(req.logPath.value, req.logFile, req.delimiter, timestamp);
        logger := logger.(handlers := logger.handlers + [Handler(File(path), desired, Plain)]);
      }
    } else {
      var hs := ReconfigureHandlers(logger.handlers, desired);
      logger := logger.(handlers := hs);
    }
    assert logger.handlers == step.logger.handlers;
  }

  /**
   * `logging.getLogger` on a registry: the entry for a known key, and for an
   * unknown one the logger it creates: level NOTSET, propagating, no handlers.
   */
  function Lookup(loggers: map<string, Logger>, key: string): (l: Logger)
    ensures key in loggers ==> l == loggers[key]
    ensures key !in loggers ==> l.level == NOTSET && l.propagate && l.handlers == []
  {
    if key in loggers then loggers[key] else Unconfigured
  }

  /**
   * The name `logging.getLogger` answers with the root logger instead of a
   * registry entry (Python 3.9 and later; earlier versions make an ordinary
   * entry of that name).
   */
  const RootName: string := "root"

  /**
   * The root logger once the module is imported: its import-time `logging.debug`
   * calls configure the root with one stream handler (level NOTSET, the
   * library's basic formatter); the root's level stays WARNING.
   */
  const RootAtImport := Logger(WARNING, true, [Handler(Stream, NOTSET, Foreign)])

  /**
   * The process-wide logger registry: named loggers keyed by name, and the
   * root logger, which is kept outside the map.
   */
  class Registry {
    var loggers: map<string, Logger>
    var root: Logger

    /** The root logger is never an entry of the map. */
    predicate Valid()
      reads this
    {
      RootName !in loggers
    }

    /**
     * The registry as the module's import leaves it: the named loggers that
     * already exist (the host program's and those its imported libraries
     * create), and the root configured by the import-time `logging.debug` calls.
     */
    constructor (initial: map<string, Logger>)
      requires RootName !in initial
      ensures Valid()
      ensures loggers == initial && root == RootAtImport
    {
      loggers := initial;
      root := RootAtImport;
    }

    /**
     * `get_logger`: the logger under the request's key becomes the logger
     * `Configure` describes: the root logger for the name `root`, otherwise
     * the map's entry (created first when absent). Nothing else changes.
     * Returns the key, or the error the first configuration raised.
     */
    method GetLogger(req: Request, timestamp: string, fsOk: bool) returns (r: Result<string, ConfigError>)
      requires Valid()
      modifies this
      ensures Valid()
      ensures var key := LoggerKey(req.name);
              var before := if key == RootName then old(root) else Lookup(old(loggers), key);
              var step := Configure(before, req, timestamp, fsOk);
              && (key == RootName ==> root == step.logger && loggers == old(loggers))
              && (key != RootName ==> root == old(root) && loggers == old(loggers)[key := step.logger])
              && r == if step.error.Some? then Err(step.error.value) else Ok(key)
    {
      var key := LoggerKey(req.name);
      var logger, error;
      if key == RootName {
        logger, error := ConfigureLogger(root, req, timestamp, fsOk);
        root := logger;
      } else {
        if key !in loggers {
          loggers := loggers[key := Unconfigured];
        }
        logger, error := ConfigureLogger(loggers[key], req, timestamp, fsOk);
        loggers := loggers[key := logger];
      }
      r := if error.Some? then Err(error.value) else Ok(key);
    }

    /**
     * `get_loggers`: every name in the registry once, in an order the
     * caller must not rely on; the root logger is not among them. The
     * registry is not changed.
     */
    method GetLoggers() returns (names: seq<string>)
      requires Valid()
      ensures RootName !in names
      ensures |names| == |loggers|
      ensures forall n :: n in names <==> n in loggers
      ensures forall i, j :: 0 <= i < j < |names| ==> names[i] != names[j]
    {
      names := [];
      var rest := loggers.Keys;
      while rest != {}
        invariant rest <= loggers.Keys
        invariant forall n :: n in names <==> n in loggers && n !in rest
        invariant forall i, j :: 0 <= i < j < |names| ==> names[i] != names[j]
        invariant |names| + |rest| == |loggers|
        decreases |rest|
      {
        var n :| n in rest;
        names := names + [n];
        rest := rest - {n};
      }
    }
  }
}

/** What `get_logger` guarantees over one call and over many. */
module FactoryProperties {
  import opened Wrappers
  import opened Levels
  import opened LoggerFactory
  import Formatters

  /** The level a call sets: the listed rank, INFO for an unlisted name, or the kept level. */
  lemma LevelAfterConfigure(before: Logger, req: Request, timestamp: string, fsOk: bool)
    ensures var after := Configure(before, req, timestamp, fsOk).logger;
      && !after.propagate
      && (req.logLevel.Some? && req.logLevel.value in LogLevels ==> after.level == LogLevels[req.logLevel.value])
      && (req.logLevel.Some? && req.logLevel.value !in LogLevels ==> after.level == INFO)
      && (req.logLevel.None? && before.level != NOTSET ==> after.level == before.level)
      && (req.logLevel.None? && before.level == NOTSET ==> after.level == INFO)
  {
  }

  /**
   * First configuration: a console handler with the coloured formatter,
   * then a file handler with the plain formatter on the timestamped path,
   * both at the desired level. When the filesystem refuses, the console
   * handler is already attached.
   */
  lemma FirstConfiguration(before: Logger, req: Request, timestamp: string, fsOk: bool)
    requires before.handlers == [] && req.logPath.Some?
    ensures var d := DesiredLevel(req.logLevel, before.level);
      var console := Handler(Stream, d, Colored);
      var file := Handler(File(LogFilePath(req.logPath.value, req.logFile, req.delimiter, timestamp)), d, Plain);
      Configure(before, req, timestamp, fsOk) ==
        if fsOk then Step(Logger(d, false, [console, file]), None)
        else Step(Logger(d, false, [console]), Some(FileSystemFailure))
  {
  }

  /**
   * Reconfiguration: the same handlers in the same order, each at the
   * desired level; file handlers get the file formatter, other stream
   * handlers the console formatter, and the rest keep theirs.
   */
  lemma Reconfiguration(before: Logger, req: Request, timestamp: string, fsOk: bool, i: int)
    requires before.handlers != [] && 0 <= i < |before.handlers|
    ensures var s := Configure(before, req, timestamp, fsOk);
      var h := before.handlers[i];
      var h' := s.logger.handlers[i];
      && s.error.None? && |s.logger.handlers| == |before.handlers|
      && h'.kind == h.kind && h'.level == DesiredLevel(req.logLevel, before.level)
      && h'.formatter == match h.kind { case File(_) => Plain case Stream => Colored case Other => h.formatter }
  {
  }

  /** Reconfiguring at the level already set changes nothing more. */
  lemma ReconfigureAllIdempotent(hs: seq<Handler>, d: int)
    ensures ReconfigureAll(ReconfigureAll(hs, d), d) == ReconfigureAll(hs, d)
  {
  }

  /**
   * Calling `get_logger` a second time with the same arguments leaves the
   * logger exactly as the first call did and raises nothing, whatever the
   * clock and the filesystem do on the second call.
   */
  lemma ConfigureIdempotent(before: Logger, req: Request, t1: string, ok1: bool, t2: string, ok2: bool)
    ensures var first := Configure(before, req, t1, ok1).logger;
      Configure(first, req, t2, ok2) == Step(first, None)
  {
  }

  /** One call of `get_logger` on the same name: its arguments and its environment. */
  datatype Call = Call(req: Request, timestamp: string, fsOk: bool)

  /** The logger after a series of `get_logger` calls on its name. */
  function Replay(l: Logger, calls: seq<Call>): Logger
    decreases |calls|
  {
    if calls == [] then l
    else Replay(Configure(l, calls[0].req, calls[0].timestamp, calls[0].fsOk).logger, calls[1..])
  }

  /**
   * Repeated calls never grow a handler list that is already non-empty:
   * every later call keeps the same handlers, of the same kinds, in order.
   */
  lemma {:induction false} ReplayNeverGrows(l: Logger, calls: seq<Call>)
    requires l.handlers != []
    decreases |calls|
    ensures var r := Replay(l, calls);
      && |r.handlers| == |l.handlers|
      && forall i :: 0 <= i < |l.handlers| ==> r.handlers[i].kind == l.handlers[i].kind
  {
    if calls != [] {
      var next := Configure(l, calls[0].req, calls[0].timestamp, calls[0].fsOk).logger;
      assert |next.handlers| == |l.handlers|;
      assert forall i :: 0 <= i < |l.handlers| ==> next.handlers[i].kind == l.handlers[i].kind;
      ReplayNeverGrows(next, calls[1..]);
    }
  }

  /**
   * The handlers the factory attaches: none yet, or a console handler
   * followed by at most one file handler.
   */
  predicate FactoryShaped(l: Logger)
  {
    l.handlers == [] ||
    (&& 1 <= |l.handlers| <= 2
     && l.handlers[0].kind == Stream
     && (|l.handlers| == 2 ==> l.handlers[1].kind.File?))
  }

  /**
   * However many times `get_logger` is called for a name whose logger
   * starts without handlers (a fresh one in particular), the logger holds
   * exactly one console handler and at most one file handler after the
   * first call.
   */
  lemma {:induction false} AtMostOneConsoleAndOneFile(l: Logger, calls: seq<Call>)
    requires FactoryShaped(l)
    decreases |calls|
    ensures var r := Replay(l, calls);
      && FactoryShaped(r)
      && |r.handlers| <= 2
      && (calls != [] ==> r.handlers != [] && r.handlers[0].kind == Stream)
  {
    if calls != [] {
      var next := Configure(l, calls[0].req, calls[0].timestamp, calls[0].fsOk).logger;
      assert FactoryShaped(next) && next.handlers != [];
      if calls[1..] != [] {
        AtMostOneConsoleAndOneFile(next, calls[1..]);
      } else {
        assert Replay(next, calls[1..]) == next;
      }
    }
  }

  /**
   * A first call that raises leaves the console handler alone on the
   * logger, and no later call ever adds the file handler.
   */
  lemma ConsoleOnlyAfterFailedFirstCall(l: Logger, first: Call, calls: seq<Call>)
    requires l.handlers == []
    requires Configure(l, first.req, first.timestamp, first.fsOk).error.Some?
    ensures var r := Replay(Configure(l, first.req, first.timestamp, first.fsOk).logger, calls);
      |r.handlers| == 1 && r.handlers[0].kind == Stream
  {
    ReplayNeverGrows(Configure(l, first.req, first.timestamp, first.fsOk).logger, calls);
  }

  /**
   * After `get_logger` with a listed level name, a convenience method emits
   * exactly when its rank is at least the rank of that name.
   */
  lemma EmitAfterConfigure(before: Logger, req: Request, timestamp: string, fsOk: bool, m: LevelMethod, message: string)
    requires req.logLevel.Some? && req.logLevel.value in LogLevels
    ensures var after := Configure(before, req, timestamp, fsOk).logger;
      Emit(after, m, message).Some? <==> MethodRank(m) >= LogLevels[req.logLevel.value]
  {
  }

  /**
   * A fresh logger configured at DATABASE under `/tmp/logs` with file name
   * `svc`: level 21, the file `/tmp/logs/svc_<timestamp>.log`, and
   * `database` emits while `testing` does not.
   */
  lemma DatabaseScenario(timestamp: string)
    ensures var req := Request(Some("svc"), Some("DATABASE"), Some("/tmp/logs"), Some("svc"), DefaultDelimiter);
      var after := Configure(Unconfigured, req, timestamp, true).logger;
      && after.level == DATABASE
      && after.handlers == [Handler(Stream, DATABASE, Colored), Handler(File("/tmp/logs/svc_" + timestamp + ".log"), DATABASE, Plain)]
      && Emit(after, Database, "ok") == Some(Emission(DATABASE, "ok"))
      && Emit(after, Testing, "ok") == None
  {
    var name := "svc" + "_" + timestamp + ".log";
    assert name[0] == 's';
    assert JoinPath("/tmp/logs", name) == "/tmp/logs" + "/" + name;
    assert LogFilePath("/tmp/logs", Some("svc"), "_", timestamp) == "/tmp/logs/svc_" + timestamp + ".log";
    assert LevelFromName("DATABASE") == DATABASE;
  }

  /**
   * `get_logger("root")` without a level or a path: the root logger keeps its
   * level WARNING and its one stream handler, which is re-levelled and given
   * the console formatter; nothing is attached and nothing is raised.
   */
  lemma RootIsOnlyReconfigured(timestamp: string, fsOk: bool)
    ensures var req := Request(Some(RootName), None, None, None, DefaultDelimiter);
      Configure(RootAtImport, req, timestamp, fsOk)
        == Step(Logger(WARNING, false, [Handler(Stream, WARNING, Colored)]), None)
  {
  }

  /**
   * The file line of the record `database("ok")` emits in that scenario,
   * whatever its time, filename and function: the level field holds
   * DATABASE and the line ends with `ok`. The console line is the colour of
   * DATABASE, then the same template over the shortened filename (again
   * holding DATABASE and ending with `ok`), then the reset code.
   */
  lemma DatabaseScenarioLine(timestamp: string, asctime: string, filename: string, funcName: string)
    ensures var req := Request(Some("svc"), Some("DATABASE"), Some("/tmp/logs"), Some("svc"), DefaultDelimiter);
      var after := Configure(Unconfigured, req, timestamp, true).logger;
      var e := Emit(after, Database, "ok");
      && e.Some? && RankName(e.value.levelno) == Some("DATABASE")
      && var v := Formatters.RecordView(e.value.levelno, "DATABASE", asctime, filename, funcName, e.value.message);
         var line := Formatters.FileText(v);
         var shown := Formatters.FileText(Formatters.AfterConsole(v));
         && line[|asctime| + 1..|asctime| + 9] == "DATABASE"
         && line[|line| - 2..] == "ok"
         && Formatters.ConsoleText(v) == Ok(Formatters.YELLOW + shown + Formatters.RESET)
         && shown[|asctime| + 1..|asctime| + 9] == "DATABASE"
         && shown[|shown| - 2..] == "ok"
  {
    DatabaseScenario(timestamp);
    var v := Formatters.RecordView(DATABASE, "DATABASE", asctime, filename, funcName, "ok");
    Formatters.LineShape(v);
    Formatters.LineShape(Formatters.AfterConsole(v));
  }
}
