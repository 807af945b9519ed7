/**
 * The daemon's leveled console logging (gcs2postgresql.js:17-22).
 * LOG_LEVELS maps four level names to ranks; a message of level L is written
 * when `LOG_LEVELS[config.logLevel] <= LOG_LEVELS.L`.  Any other configured
 * name makes every comparison false: it looks up `undefined`, or a value
 * inherited from `Object.prototype` such as `toString`, and either one
 * compares as NaN.  Such a configuration writes nothing.
 */
module LogGate {
  import opened Wrappers

  datatype Level = Debug | Info | Warnings | Errors

  /** The key of a level in LOG_LEVELS. */
  function LevelName(l: Level): string {
    match l
    case Debug => "debug"
    case Info => "info"
    case Warnings => "warnings"
    case Errors => "errors"
  }

  /** The value of a level in LOG_LEVELS. */
  function Rank(l: Level): nat {
    match l
    case Debug => 0
    case Info => 1
    case Warnings => 2
    case Errors => 3
  }

  /**
   * `LOG_LEVELS[name]` as the gate sees it: the rank of the level spelled
   * `name`, or None for any other name, whose comparison is always false.
   */
  function Lookup(name: string): (r: Option<nat>)
    ensures r.Some? <==> exists l :: LevelName(l) == name
    ensures forall l :: LevelName(l) == name ==> r == Some(Rank(l))
  {
    if name == "errors" then assert LevelName(Errors) == name; Some(3)
    else if name == "warnings" then assert LevelName(Warnings) == name; Some(2)
    else if name == "info" then assert LevelName(Info) == name; Some(1)
    else if name == "debug" then assert LevelName(Debug) == name; Some(0)
    else None
  }

  /** JavaScript's `a <= b` where `a` may compare as NaN (None). */
  predicate AtMost(a: Option<nat>, b: nat) {
    match a
    case Some(x) => x <= b
    case None => false
  }

  /** `LOG_LEVELS[configured] <= LOG_LEVELS.msg`: whether a message of level `msg` is written. */
  predicate Enabled(configured: string, msg: Level) {
    AtMost(Lookup(configured), Rank(msg))
  }

  /**
   * The levels whose messages are written under the configured name: none
   * for a name that is not a level, otherwise those ranked at least as high.
   */
  function EnabledLevels(configured: string): (s: set<Level>)
    ensures Lookup(configured).None? ==> s == {}
    ensures forall c, l :: LevelName(c) == configured ==> (l in s <==> Rank(c) <= Rank(l))
  {
    set l | l in {Debug, Info, Warnings, Errors} && Enabled(configured, l)
  }

  /** A written log line: the level whose gate let it through and what it says. */
  datatype LogLine = LogLine(level: Level, msg: Message)

  /** The messages the daemon writes (Date prefixes are not modelled). */
  datatype Message =
    | Fetching(objectName: string)          // line 51
    | ClearingTable(rowCount: nat)          // line 70
    | NoObjectsFound                        // line 74
    | QueryText(query: string)              // line 77
    | Failure(reason: string)               // lines 81, 83, 92
    | TransactionCompleted                  // line 86

  /** The lines one gated console call writes: the line itself, or nothing. */
  function Log(configured: string, level: Level, m: Message): seq<LogLine> {
    if Enabled(configured, level) then [LogLine(level, m)] else []
  }

  /** A message is written iff the configured name is a level whose rank is at most the message's. */
  lemma EnabledIff(configured: string, msg: Level)
    ensures Enabled(configured, msg) <==>
            exists c :: LevelName(c) == configured && Rank(c) <= Rank(msg)
  {
    if Enabled(configured, msg) {
      var c :| LevelName(c) == configured;
      assert Rank(c) <= Rank(msg);
    }
  }

  /** A configured name that is none of the four levels suppresses every message. */
  lemma UnknownLevelSilences(configured: string, msg: Level)
    requires forall c :: LevelName(c) != configured
    ensures !Enabled(configured, msg)
    ensures EnabledLevels(configured) == {}
  {
  }

  /** If a message of some level is written, so is every message of a higher-ranked level. */
  lemma EnabledMonotone(configured: string, msg: Level, higher: Level)
    requires Enabled(configured, msg)
    requires Rank(msg) <= Rank(higher)
    ensures Enabled(configured, higher)
  {
  }

  /** Raising the configured level never enables a message that was suppressed. */
  lemma RaisingLevelOnlySuppresses(lower: Level, higher: Level, msg: Level)
    requires Rank(lower) <= Rank(higher)
    requires Enabled(LevelName(higher), msg)
    ensures Enabled(LevelName(lower), msg)
  {
  }

  /** What each configuration writes, level by level. */
  lemma GateTable()
    ensures EnabledLevels("debug") == {Debug, Info, Warnings, Errors}
    ensures EnabledLevels("info") == {Info, Warnings, Errors}
    ensures EnabledLevels("warnings") == {Warnings, Errors}
    ensures EnabledLevels("errors") == {Errors}
  {
  }

  /** Rank and name identify a level: the four keys of LOG_LEVELS carry four distinct ranks. */
  lemma LookupRoundTrip(l: Level)
    ensures Lookup(LevelName(l)) == Some(Rank(l))
    ensures forall m :: Rank(m) == Rank(l) ==> m == l
  {
  }
}
