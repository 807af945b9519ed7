/**
 * One firing of an object's cron job (gcs2postgresql.js:46-94): log that the
 * object is being fetched, collect the download, parse it, build the column
 * set and insert statement, plan the query, execute it, and route every
 * failure to the gated error log.  The storage stream's settled outcome, the
 * JSON parser, pg-promise's insert generator and the database are parameters.
 */
module Firing {
  import opened Wrappers
  import opened LogGate
  import ObjectName
  import SC = StreamCollector
  import opened LoadPlanner

  /** An entry of `config.gcFiles`. */
  datatype GcFile = GcFile(name: string, columnSet: seq<string>, appendData: bool)

  /** What one firing does: the lines it writes and the query it sends to the database, if any. */
  datatype Run = Run(logs: seq<LogLine>, executed: Option<string>)

  /** The `.catch` handlers of lines 81 and 83: log the failure when errors are enabled. */
  function Caught(configured: string, reason: string): seq<LogLine> {
    Log(configured, Errors, Failure(reason))
  }

  /**
   * The `.finally` handler of lines 84-89 as written.  A finally handler is
   * called without arguments, so `e === undefined` always holds and the
   * completion line does not depend on whether the run failed.
   */
  function FinallyAsWritten(configured: string, failed: bool): seq<LogLine> {
    Log(configured, Info, TransactionCompleted)
  }

  /** The `.finally` handler as its `e === undefined` test intends: completion only after success. */
  function Finally(configured: string, failed: bool): seq<LogLine> {
    if failed then [] else Log(configured, Info, TransactionCompleted)
  }

  /** The error line 49 raises: `config` is declared `const` on line 12. */
  const ConstAssignment: string := "TypeError: Assignment to constant variable."

  /**
   * A firing as written: line 49 assigns to the constant `config`, which
   * throws before anything else runs; lines 90-93 catch it and log it.
   */
  function FireAsWritten<Row>(configured: string, file: GcFile, download: SC.Outcome,
                              parse: seq<SC.Byte> -> Result<seq<Row>, string>,
                              insert: (seq<Row>, ColumnSet) -> Result<string, string>,
                              execute: string -> Option<string>): Run
  {
    Run(Log(configured, Errors, Failure(ConstAssignment)), None)
  }

  /**
   * A firing as the code evidently intends it: without the configuration
   * reload of line 49, with the configured level as a parameter, and with the
   * corrected `Finally` in place of the `.finally` handler as written (so a
   * failed run does not log "Transaction completed.").  `download` is the settled state of `downloadJSON`'s promise
   * (Pending: it never settles, so nothing after the fetch line runs);
   * `parse` is `JSON.parse` of the UTF-8 text; `insert` is
   * `helpers.insert(rows, cs)`, which may throw; `execute` is `db.none`,
   * giving the failure reason if the statement fails.
   */
  function Fire<Row>(configured: string, file: GcFile, download: SC.Outcome,
                     parse: seq<SC.Byte> -> Result<seq<Row>, string>,
                     insert: (seq<Row>, ColumnSet) -> Result<string, string>,
                     execute: string -> Option<string>): Run
  {
    var fetching := Log(configured, Info, Fetching(file.name));
    match download
    case Pending => Run(fetching, None)
    case Rejected(reason) => Run(fetching + Caught(configured, reason) + Finally(configured, true), None)
    case Resolved(payload) =>
      match parse(payload)
      case Err(reason) => Run(fetching + Caught(configured, reason) + Finally(configured, true), None)
      case Ok(rows) =>
        var cs := ColumnSetFor(file.columnSet, file.name);
        match insert(rows, cs)
        case Err(reason) => Run(fetching + Caught(configured, reason) + Finally(configured, true), None)
        case Ok(text) =>
          var load := Load(configured, file, |rows|, text, execute);
          Run(fetching + load.logs, load.executed)
  }

  /** Lines 65-89 once the insert text exists: plan, execute, then catch and finally. */
  function Load(configured: string, file: GcFile, rowCount: nat, text: string,
                execute: string -> Option<string>): Run
  {
    var plan := PlanLoad(configured, rowCount, file.appendData, ObjectName.TableName(file.name), text);
    var outcome :=
      match execute(plan.query)
      case Some(reason) => Caught(configured, reason) + Finally(configured, true)
      case None => Finally(configured, false);
    Run(plan.logs + outcome, Some(plan.query))
  }

  /** Whether every stage up to the database succeeded, leaving the insert text. */
  ghost predicate Reaches<Row>(file: GcFile, download: SC.Outcome,
                         parse: seq<SC.Byte> -> Result<seq<Row>, string>,
                         insert: (seq<Row>, ColumnSet) -> Result<string, string>,
                         rows: seq<Row>, text: string)
  {
    download.Resolved? && parse(download.payload) == Ok(rows) &&
    insert(rows, ColumnSetFor(file.columnSet, file.name)) == Ok(text)
  }

  /**
   * A query reaches the database only when download, parse and insert
   * generation all succeeded; it is then the planned query, and in the
   * replace branch it deletes from the column set's own table and wraps
   * exactly the generated insert.
   */
  lemma FireExecutesPlannedQuery<Row>(configured: string, file: GcFile, download: SC.Outcome,
                                      parse: seq<SC.Byte> -> Result<seq<Row>, string>,
                                      insert: (seq<Row>, ColumnSet) -> Result<string, string>,
                                      execute: string -> Option<string>)
    ensures Fire(configured, file, download, parse, insert, execute).executed.Some? <==>
            exists rows, text :: Reaches(file, download, parse, insert, rows, text)
    ensures forall rows, text :: Reaches(file, download, parse, insert, rows, text) ==>
              var q := Fire(configured, file, download, parse, insert, execute).executed.value;
              var table := ColumnSetFor(file.columnSet, file.name).table;
              (if ReplacesTable(|rows|, file.appendData)
               then UnwrapReplace(q, table) == Some(text)
               else q == text)
  {
    var r := Fire(configured, file, download, parse, insert, execute);
    if r.executed.Some? {
      var rows := parse(download.payload).value;
      var text := insert(rows, ColumnSetFor(file.columnSet, file.name)).value;
      assert Reaches(file, download, parse, insert, rows, text);
    }
    forall rows, text | Reaches(file, download, parse, insert, rows, text)
      ensures var q := Fire(configured, file, download, parse, insert, execute).executed.value;
              var table := ColumnSetFor(file.columnSet, file.name).table;
              (if ReplacesTable(|rows|, file.appendData)
               then UnwrapReplace(q, table) == Some(text)
               else q == text)
    {
      LoadQueryBranches(|rows|, file.appendData, ObjectName.TableName(file.name), text);
    }
  }

  /**
   * Every line a firing writes passed the level gate: under a configured
   * name that is not a level the firing writes nothing at all.
   */
  lemma FireLogsAreGated<Row>(configured: string, file: GcFile, download: SC.Outcome,
                              parse: seq<SC.Byte> -> Result<seq<Row>, string>,
                              insert: (seq<Row>, ColumnSet) -> Result<string, string>,
                              execute: string -> Option<string>)
    ensures forall line :: line in Fire(configured, file, download, parse, insert, execute).logs ==>
              Enabled(configured, line.level)
    ensures (forall c :: LevelName(c) != configured) ==>
              Fire(configured, file, download, parse, insert, execute).logs == []
  {
    var r := Fire(configured, file, download, parse, insert, execute);
    if download.Resolved? && parse(download.payload).Ok? {
      var rows := parse(download.payload).value;
      var cs := ColumnSetFor(file.columnSet, file.name);
      if insert(rows, cs).Ok? {
        PlanLogsAreGated(configured, |rows|, file.appendData, ObjectName.TableName(file.name), insert(rows, cs).value);
      }
    }
    if forall c :: LevelName(c) != configured {
      forall line | line in r.logs ensures false {
        UnknownLevelSilences(configured, line.level);
      }
    }
  }

  /**
   * The completion line is written iff info is enabled and every stage,
   * the database statement included, succeeded.
   */
  lemma CompletionIffSuccess<Row>(configured: string, file: GcFile, download: SC.Outcome,
                                  parse: seq<SC.Byte> -> Result<seq<Row>, string>,
                                  insert: (seq<Row>, ColumnSet) -> Result<string, string>,
                                  execute: string -> Option<string>)
    ensures var r := Fire(configured, file, download, parse, insert, execute);
            LogLine(Info, TransactionCompleted) in r.logs <==>
            Enabled(configured, Info) && r.executed.Some? && execute(r.executed.value).None?
  {
    var r := Fire(configured, file, download, parse, insert, execute);
    if download.Resolved? && parse(download.payload).Ok? {
      var rows := parse(download.payload).value;
      var cs := ColumnSetFor(file.columnSet, file.name);
      if insert(rows, cs).Ok? {
        var plan := PlanLoad(configured, |rows|, file.appendData, ObjectName.TableName(file.name), insert(rows, cs).value);
        assert LogLine(Info, TransactionCompleted) !in plan.logs;
      }
    }
  }

  /**
   * Finding: as written the completion line follows a failure.  With level
   * "info", a run whose statement failed still logs "Transaction completed.",
   * which the corrected handler does not.
   */
  lemma FinallyAsWrittenReportsFailureAsCompleted()
    ensures FinallyAsWritten("info", true) == [LogLine(Info, TransactionCompleted)]
    ensures Finally("info", true) == []
  {
  }

  /**
   * Finding: as written no firing fetches or loads anything.  Whatever the
   * stream, parser, insert generator and database would do, the only effect
   * is the logged TypeError, while the firing without the reload runs the
   * query whenever the stages before it succeed.
   */
  lemma ReloadAbortsEveryFiring<Row>(configured: string, file: GcFile, download: SC.Outcome,
                                     parse: seq<SC.Byte> -> Result<seq<Row>, string>,
                                     insert: (seq<Row>, ColumnSet) -> Result<string, string>,
                                     execute: string -> Option<string>, rows: seq<Row>, text: string)
    requires Reaches(file, download, parse, insert, rows, text)
    ensures FireAsWritten(configured, file, download, parse, insert, execute).executed == None
    ensures FireAsWritten(configured, file, download, parse, insert, execute).logs ==
            (if Enabled(configured, Errors) then [LogLine(Errors, Failure(ConstAssignment))] else [])
    ensures Fire(configured, file, download, parse, insert, execute).executed.Some?
  {
  }

  /** When the stages succeed the database receives the load query for the object's table. */
  lemma FireReplaceQuery<Row>(configured: string, file: GcFile, download: SC.Outcome,
                              parse: seq<SC.Byte> -> Result<seq<Row>, string>,
                              insert: (seq<Row>, ColumnSet) -> Result<string, string>,
                              execute: string -> Option<string>, rows: seq<Row>, text: string)
    requires Reaches(file, download, parse, insert, rows, text)
    ensures Fire(configured, file, download, parse, insert, execute).executed ==
            Some(LoadQuery(|rows|, file.appendData, ObjectName.TableName(file.name), text))
  {
  }

  /**
   * The replace scenario: object `users.json`, append mode off, two rows
   * downloaded.  The table `users` is emptied and loaded in one transaction.
   */
  lemma UsersReplaceScenario<Row>(configured: string, download: SC.Outcome,
                                  parse: seq<SC.Byte> -> Result<seq<Row>, string>,
                                  insert: (seq<Row>, ColumnSet) -> Result<string, string>,
                                  execute: string -> Option<string>, rows: seq<Row>, text: string)
    requires |rows| == 2
    requires Reaches(GcFile("users.json", ["id", "email"], false), download, parse, insert, rows, text)
    ensures Fire(configured, GcFile("users.json", ["id", "email"], false), download, parse, insert, execute).executed ==
            Some("begin;\ndelete from users;\n" + text + ";\ncommit;")
  {
    var file := GcFile("users.json", ["id", "email"], false);
    FireReplaceQuery(configured, file, download, parse, insert, execute, rows, text);
    ObjectName.TableNameUnique("users.json", "users");
    UsersQueryText(text);
  }

  /** The replace template for table `users`, spelled out. */
  lemma UsersQueryText(text: string)
    ensures ReplaceQuery("users", text) == "begin;\ndelete from users;\n" + text + ";\ncommit;"
  {
    var header: string := "begin;\ndelete from users;\n";
    assert DeleteHeader("users") == header;
  }

  /**
   * The append scenario: the same object in append mode sends the insert
   * statement alone, and still writes the "No JSON objects found." warning
   * when warnings are enabled.
   */
  lemma UsersAppendScenario<Row>(configured: string, download: SC.Outcome,
                                 parse: seq<SC.Byte> -> Result<seq<Row>, string>,
                                 insert: (seq<Row>, ColumnSet) -> Result<string, string>,
                                 execute: string -> Option<string>, rows: seq<Row>, text: string)
    requires |rows| == 2
    requires Reaches(GcFile("users.json", ["id", "email"], true), download, parse, insert, rows, text)
    ensures var r := Fire(configured, GcFile("users.json", ["id", "email"], true), download, parse, insert, execute);
            r.executed == Some(text) &&
            (LogLine(Warnings, NoObjectsFound) in r.logs <==> Enabled(configured, Warnings))
  {
    NoObjectsWarningIff(configured, 2, true, ObjectName.TableName("users.json"), text);
  }
}
