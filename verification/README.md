# captains-log logger tool, modelled in Dafny

This project models the core of `logger_tool.py`, a configuration layer over Python's
`logging` module. It covers:

- the nine custom severity ranks and the `log_levels` name table (`levels.dfy`, module `Levels`);
- the colour table, the shared line template and the two formatters (`formatters.dfy`,
  module `Formatters`). The console formatter strips the record's filename in place.
  The file formatter renders the record unchanged, without colour;
- the logger registry with `get_logger` and `get_loggers` (`factory.dfy`, modules
  `LoggerFactory` and `FactoryProperties`). `get_logger` gets or creates a logger by
  name, sets its level and turns propagation off. Then it either attaches a console
  handler and a file handler, or re-levels and re-formats the handlers the logger
  already has.

The registry is a class (`LoggerFactory.Registry`) whose `loggers` map the factory
updates. The root logger is a separate field, because `logging.getLogger("root")` answers
with it (Python 3.9 and later) and it is never an entry of the map. The registry starts as the module's import
leaves it. The map holds whatever named loggers already exist, such as those of the host
program and of the libraries it imported.
The import-time `logging.debug` calls give it one stream handler, and its level stays
WARNING. Loggers and handlers are values: a logger is a level, a propagate flag and a
sequence of handlers. A handler is a kind (stream, file with its path, or other), a
level and a formatter. `Configure` is the specification of one `get_logger` call on a
logger. `ConfigureLogger` and `Registry.GetLogger` are the imperative code proved
against it. The loop over existing handlers is `ReconfigureHandlers`.

The clock and the filesystem are parameters. `timestamp` is the already formatted
`strftime` text. `fsOk` says whether creating the directory and opening the log file
succeed. The constant `"logger_tool"` stands for the name the module is imported under,
its `__name__`. Imported as part of a package it is package-qualified, and run as a script it
is `"__main__"`. Every caller that gives no name shares that one logger.
A record from `chat` … `success` names this module's own file and wrapper function as its
`filename` and `funcName` (`logger_tool`, `database`). `findCaller` skips only the frames of
`logging` itself, and each wrapper calls `_log` directly.

Where the code and the module's own comments or intent differ, the model follows the code:

- Level names are looked up exactly and case-sensitively: `"debug"` resolves to INFO.
- A rank without a colour makes the console formatter fail. There is no fallback to
  a neutral colour. The filename is already stripped by then.
- Only the console formatter strips the filename. The file line shows a stripped name
  only because the console handler formats the same record first
  (`Formatters.ConsoleMatchesFile`).
- With `log_file` absent, a file handler is still added. Its file is named
  `None<delimiter><timestamp>.log`, which the docstring does not say.
- A first configuration that raises keeps its console handler. No later call adds the
  file handler (`FactoryProperties.ConsoleOnlyAfterFailedFirstCall`).

## Model

| member | source | states |
|---|---|---|
| `Levels.LevelFromName` | logger_tool.py:159-181 | the resolved rank always has a display name; it is displayed under the given string exactly when that string is a key of `log_levels`; any other string gives INFO |
| `Levels.LevelTableRoundTrip` | logger_tool.py:65-82 | `log_levels` and the registered level names are inverse tables: a name maps to a rank iff that rank is displayed under that name |
| `Levels.RankName` | logger_tool.py:74-82 | exactly the five standard and the nine custom ranks have a display name, and every display name is a key of `log_levels` |
| `Levels.LookupIsCaseSensitive` | logger_tool.py:181 | `"DEBUG"` gives 10, while `"debug"` and `"Database"` fall back to INFO |
| `Levels.MethodRank` | logger_tool.py:84-118 | each convenience method logs at one of the nine custom ranks: the rank `log_levels` lists for the method's level name (`chat` at CHAT, …, `success` at SUCCESS), displayed under that name |
| `Levels.MethodRanksDistinct` | logger_tool.py:84-118 | no two convenience methods share a rank |
| `Formatters.ColorOf` | logger_tool.py:40-55 | the colour table covers exactly the ranks that have a display name, and each entry is one `ESC [ digits m` escape |
| `Formatters.StripExtension` | logger_tool.py:58 | `filename[:-3]`: exactly the last three characters go; a name shorter than three becomes empty |
| `Formatters.PadRight` | logger_tool.py:10 | `%-10s`: the level name, left-aligned, padded with spaces to width 10 and never cut |
| `Formatters.LineShape` | logger_tool.py:10 | `LOG_FORMAT` filled in: the time and a space, then the level name left-aligned in a field of at least ten characters, then `: <filename> > <funcName> >>> <message>` |
| `Formatters.AfterConsole` | logger_tool.py:58 | the console formatter changes the record's filename to its stripped form and nothing else |
| `Formatters.ConsoleText` | logger_tool.py:57-62 | the console line fails exactly for ranks without a display name; otherwise it is the rank's colour from the table, then the file formatter's line for the stripped record, then the reset code |
| `Formatters.ColoredFormat` | logger_tool.py:57-62 | the record's filename is stripped in place, even when formatting then fails, and the result is `ConsoleText` of the record as it was |
| `Formatters.FileText` | logger_tool.py:130-134 | the file line is the `LOG_FORMAT` template over the record as it is; it carries no escape when the record's fields carry none, so removing colour leaves it unchanged; it ends with the message |
| `Formatters.StripPlainPrefix` | logger_tool.py:130-134 | removing colour leaves text without escape characters unchanged, whatever follows it |
| `Formatters.StripLeadingCode` | logger_tool.py:40-55 | removing colour deletes a leading colour escape as a whole |
| `Formatters.ConsoleMatchesFile` | logger_tool.py:57-62 | the console line with its colour removed equals the file formatter's line for the record the console formatter has stripped |
| `LoggerFactory.Emit` | logger_tool.py:84-118 | a convenience method emits a record at its own rank, with the given message, exactly when its rank is at least the logger's level, and otherwise does nothing |
| `LoggerFactory.LoggerKey` | logger_tool.py:176-177 | the registry key is never empty; a non-empty given name is its own key, and a missing or empty name gives this module's own `__name__` |
| `LoggerFactory.DesiredLevel` | logger_tool.py:179-184 | the level set is never NOTSET; a given level name yields a named rank; without one, the current level is kept, or INFO when it is NOTSET |
| `LoggerFactory.JoinPath` | logger_tool.py:204 | `os.path.join`: an absolute file part is the whole path; otherwise the path is the directory and the file part, joined by one `/` exactly when the directory is non-empty and does not already end in `/` |
| `LoggerFactory.FileStem` | logger_tool.py:204 | `f"{log_file}"`: a given file name is used as it is, a missing one renders as `None` |
| `LoggerFactory.LogFilePath` | logger_tool.py:204 | the path is `log_path` and `log_file + delimiter + timestamp + ".log"` joined as `os.path.join` does: by one `/` exactly when `log_path` is non-empty and does not end in `/`, and the file name alone when it is absolute |
| `LoggerFactory.Reconfigured` | logger_tool.py:211-216 | reconfiguring a handler keeps its kind and sets its level |
| `LoggerFactory.ReconfigureAll` | logger_tool.py:211-216 | reconfiguration keeps the number of handlers and each one's kind, and sets every level |
| `LoggerFactory.ReconfigureHandlers` | logger_tool.py:211-216 | the loop over existing handlers computes `ReconfigureAll` |
| `LoggerFactory.Configure` | logger_tool.py:179-216 | level set and propagation off; with handlers, none are added and no error is raised; without handlers, one or two are attached, and two exactly when no error is raised, the error being PathMissing exactly when `log_path` is absent |
| `LoggerFactory.ConfigureLogger` | logger_tool.py:179-216 | the imperative body of `get_logger` yields the logger and error `Configure` describes |
| `LoggerFactory.Lookup` | logger_tool.py:177 | `getLogger` returns the entry for a known name and otherwise a new logger at NOTSET, propagating, with no handlers |
| `LoggerFactory.Registry.constructor` | logger_tool.py:17-39 | the registry after import: the named loggers that already exist, none of them under `root`, and the root at WARNING with the one stream handler that the import-time `logging.debug` calls attach |
| `LoggerFactory.Registry.GetLogger` | logger_tool.py:147-217 | only the logger under the resolved key changes, to the configured logger: the root logger for `root`, otherwise the map's entry, created first when absent; the key is returned, or the error |
| `LoggerFactory.Registry.GetLoggers` | logger_tool.py:221-235 | every registered name appears exactly once, nothing else appears, and the root logger is not listed |
| `FactoryProperties.LevelAfterConfigure` | logger_tool.py:179-190 | the level after a call is the listed rank, INFO for an unlisted name, or the existing non-zero level (INFO when NOTSET); propagation is off |
| `FactoryProperties.FirstConfiguration` | logger_tool.py:197-208 | a logger without handlers gets a console handler with the coloured formatter, then a file handler on the timestamped path with the plain formatter, both at the desired level; a filesystem failure leaves only the console handler |
| `FactoryProperties.Reconfiguration` | logger_tool.py:209-216 | with handlers present: same handlers in the same order, each at the desired level; file handlers get the file formatter, other stream handlers the console one, the rest keep theirs |
| `FactoryProperties.ReconfigureAllIdempotent` | logger_tool.py:211-216 | reconfiguring twice at one level is reconfiguring once |
| `FactoryProperties.ConfigureIdempotent` | logger_tool.py:147-217 | a second call with the same arguments leaves the logger exactly as the first call did and raises nothing, whatever the clock and filesystem do |
| `FactoryProperties.ReplayNeverGrows` | logger_tool.py:196-216 | once a logger has handlers, any number of further calls keep their number and kinds |
| `FactoryProperties.AtMostOneConsoleAndOneFile` | logger_tool.py:196-216 | from a logger without handlers, any series of calls leaves a console handler first and at most one file handler after it |
| `FactoryProperties.ConsoleOnlyAfterFailedFirstCall` | logger_tool.py:197-208 | after a first call that raised, the logger keeps exactly one console handler for good |
| `FactoryProperties.EmitAfterConfigure` | logger_tool.py:84-118 | after configuring with a listed level name, a convenience method emits iff its rank is at least that name's rank |
| `FactoryProperties.RootIsOnlyReconfigured` | logger_tool.py:176-216 | `get_logger("root")` with no level and no path keeps the root at WARNING with its one stream handler, now at WARNING with the console formatter, and raises nothing |
| `FactoryProperties.DatabaseScenario` | logger_tool.py:159-208 | `get_logger("svc", "DATABASE", "/tmp/logs", "svc")` on a fresh logger gives level 21 and handlers console then `/tmp/logs/svc_<timestamp>.log`; `database` emits and `testing` does not |
| `FactoryProperties.DatabaseScenarioLine` | logger_tool.py:10-134 | in that scenario, the file line of the record `database("ok")` emits holds DATABASE in its level field and ends with `ok`, whatever the time, filename and function; the console line is the colour of DATABASE, a line of the same template (filename without its last three characters) that also holds DATABASE and ends with `ok`, and the reset code |

## Left out

- Loading the environment file at import, and `set_log_path`: environment lookup and directory creation are I/O.
- Creating the directory, opening the file, and writing to stderr or to the file are left out. The single `fsOk` parameter stands for whether creating the directory and opening the file succeed. A missing `log_path` is the separate error `PathMissing`.
- The timestamp is a parameter. `strftime` and the `asctime` of records are not modelled.
- The `%`-interpolation is written out for the one template the module uses. Merging the message with its arguments and appending exception text belong to the logging library and are left out.
- The logging library's internals are left out: `_log`, record creation, handler-level filtering and `callHandlers`. The effect of handler order on the shared record is stated as a lemma over the two formatters.
- `LoggerFactory.Emit`: the enabled check is `rank >= level`. The library's walk to a parent's level for a NOTSET logger, its cache and `manager.disable` are not modelled.
- `Levels.RankName` covers only the fourteen ranks the module uses. The library's `NOTSET` and `Level N` names for other ranks are not modelled.
- The runtime patching of the logger class is left out. The convenience methods are a closed set (`Levels.LevelMethod`).
- `LoggerFactory.Registry.GetLoggers` returns the registry's names, not logger objects. The library's placeholder entries for dotted parent names are not modelled, so neither is `get_loggers` turning them into loggers. The root logger is kept outside the map and is not listed.
- Handlers are values. Sharing one handler object between two loggers, and the fresh formatter objects made on each call, are not captured. Formatter identity is reduced to which of the module's two formatters is used.
- `FileHandler` turning the path into an absolute path is library behaviour and is left out.
- `LoggerFactory.Registry.GetLogger`: the root logger's starting state is the one this module's import gives it. Configuration of the root by other code before that import is not modelled.
- Arguments are typed. A non-string `name` or `log_level` and a non-string `log_file` rendered by the f-string are left out.
- Thread safety of the shared registry is not addressed by the code and is not modelled.
