/**
 * The severity levels of logger_tool.py: the five standard ranks of the
 * host logging facility, the nine custom ranks registered with
 * `addLevelName`, the `log_levels` table `get_logger` resolves names
 * with, and the nine level-gated convenience methods.
 */
module Levels {
  import opened Wrappers

  // Standard ranks of the host logging facility.
  const NOTSET := 0
  const DEBUG := 10
  const INFO := 20
  const WARNING := 30
  const ERROR := 40
  const CRITICAL := 50

  // Custom ranks registered by the module.
  const SUCCESS := 24
  const APP := 23
  const PROD := 22
  const DATABASE := 21
  const TESTING := 9
  const CHAT := 8
  const QUERY := 7
  const VARIABLES := 5
  const PEDANTIC := 1

  const StandardRanks: set<int> := {DEBUG, INFO, WARNING, ERROR, CRITICAL}
  const CustomRanks: set<int> := {SUCCESS, APP, PROD, DATABASE, TESTING, CHAT, QUERY, VARIABLES, PEDANTIC}

  /** The `log_levels` table of `get_logger`: configuration name to rank. */
  const LogLevels: map<string, int> := map[
    "CRITICAL" := CRITICAL,
    "ERROR" := ERROR,
    "WARNING" := WARNING,
    "CHAT" := CHAT,
    "PROD" := PROD,
    "QUERY" := QUERY,
    "INFO" := INFO,
    "DEBUG" := DEBUG,
    "VARIABLES" := VARIABLES,
    "PEDANTIC" := PEDANTIC,
    "DATABASE" := DATABASE,
    "TESTING" := TESTING,
    "APP" := APP,
    "SUCCESS" := SUCCESS
  ]

  /**
   * The display name the logging facility holds for a rank: its own name
   * for a standard rank, the name given to `addLevelName` for a custom one,
   * and none for any rank the module does not use.
   */
  function RankName(rank: int): (name: Option<string>)
    ensures name.Some? <==> rank in StandardRanks + CustomRanks
    ensures name.Some? ==> name.value in LogLevels
  {
    match rank
    case 50 => Some("CRITICAL")
    case 40 => Some("ERROR")
    case 30 => Some("WARNING")
    case 20 => Some("INFO")
    case 10 => Some("DEBUG")
    case 24 => Some("SUCCESS")
    case 23 => Some("APP")
    case 22 => Some("PROD")
    case 21 => Some("DATABASE")
    case 9 => Some("TESTING")
    case 8 => Some("CHAT")
    case 7 => Some("QUERY")
    case 5 => Some("VARIABLES")
    case 1 => Some("PEDANTIC")
    case _ => None
  }

  /**
   * Resolution of a `log_level` string: exact, case-sensitive lookup in
   * `log_levels`, INFO for every other string. The result is always a rank
   * with a display name, and it is the rank displayed under the given
   * string exactly when the string is one of the table's names.
   */
  function LevelFromName(s: string): (rank: int)
    ensures RankName(rank).Some?
    ensures RankName(rank) == Some(s) <==> s in LogLevels
    ensures s !in LogLevels ==> rank == INFO
  {
    if s in LogLevels then LogLevels[s] else INFO
  }

  /**
   * `log_levels` and the display names agree in both directions: a name
   * resolves to a rank exactly when that rank is displayed under that name.
   */
  lemma LevelTableRoundTrip(name: string, rank: int)
    ensures name in LogLevels && LogLevels[name] == rank <==> RankName(rank) == Some(name)
  {
  }

  /** Lookup is case-sensitive: a lower-case name falls back to INFO. */
  lemma LookupIsCaseSensitive()
    ensures LevelFromName("DEBUG") == DEBUG
    ensures LevelFromName("debug") == INFO
    ensures LevelFromName("Database") == INFO
  {
  }

  /** The level-gated convenience methods added to every logger. */
  datatype LevelMethod = Chat | Variables | Pedantic | Prod | Query | Database | Testing | App | Success

  /** The level name each convenience method is registered under: `chat` logs as CHAT, and so on. */
  function MethodName(m: LevelMethod): string
  {
    match m
    case Chat => "CHAT"
    case Variables => "VARIABLES"
    case Pedantic => "PEDANTIC"
    case Prod => "PROD"
    case Query => "QUERY"
    case Database => "DATABASE"
    case Testing => "TESTING"
    case App => "APP"
    case Success => "SUCCESS"
  }

  /**
   * The fixed rank each convenience method logs at: always one of the
   * custom ranks, the one `log_levels` lists for the method's level name,
   * and displayed under that name.
   */
  function MethodRank(m: LevelMethod): (rank: int)
    ensures rank in CustomRanks && rank !in StandardRanks
    ensures MethodName(m) in LogLevels && rank == LogLevels[MethodName(m)]
    ensures RankName(rank) == Some(MethodName(m))
  {
    match m
    case Chat => CHAT
    case Variables => VARIABLES
    case Pedantic => PEDANTIC
    case Prod => PROD
    case Query => QUERY
    case Database => DATABASE
    case Testing => TESTING
    case App => APP
    case Success => SUCCESS
  }

  /** Distinct convenience methods log at distinct ranks. */
  lemma MethodRanksDistinct(m1: LevelMethod, m2: LevelMethod)
    ensures MethodRank(m1) == MethodRank(m2) ==> m1 == m2
  {
  }

  /** The enabled check, taken as the threshold comparison `rank >= level`. */
  predicate IsEnabledFor(level: int, rank: int)
  {
    rank >= level
  }
}
