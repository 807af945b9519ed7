/**
 * Query assembly inside the firing callback (gcs2postgresql.js:63-78).  The
 * multi-row insert statement comes from pg-promise's `helpers.insert` and is
 * taken here as given text; the planner decides whether to wrap it in a
 * transaction that first empties the table, and which messages it logs.
 */
module LoadPlanner {
  import opened Wrappers
  import opened LogGate
  import ObjectName

  /** The `ColumnSet` a firing builds: the configured columns bound to the object's table. */
  datatype ColumnSet = ColumnSet(columns: seq<string>, table: string)

  /** `new ColumnSet(gcFile.columnSet, { table: gcFile.name.split('.')[0] })` (line 63). */
  function ColumnSetFor(columns: seq<string>, objectName: string): (cs: ColumnSet)
    ensures cs.columns == columns
    ensures '.' !in cs.table && cs.table <= objectName
    ensures |cs.table| == |objectName| || objectName[|cs.table|] == '.'
  {
    ColumnSet(columns, ObjectName.TableName(objectName))
  }

  /** The condition on line 68: rows were found and the object is not in append mode. */
  predicate ReplacesTable(rowCount: nat, appendData: bool) {
    rowCount > 0 && !appendData
  }

  const Begin: string := "begin;\ndelete from "
  const Commit: string := ";\ncommit;"

  /** The text in front of the insert statement when the table is replaced. */
  function DeleteHeader(table: string): string {
    Begin + table + ";\n"
  }

  /** The template on line 72: empty the table and insert, in one transaction. */
  function ReplaceQuery(table: string, insert: string): string {
    DeleteHeader(table) + insert + Commit
  }

  /** The query executed for a firing (lines 65 and 68-72). */
  function LoadQuery(rowCount: nat, appendData: bool, table: string, insert: string): string {
    if ReplacesTable(rowCount, appendData) then ReplaceQuery(table, insert) else insert
  }

  /**
   * Reads a replace transaction for `table` back into the statement it wraps,
   * or None when the text is not such a transaction.
   */
  function UnwrapReplace(query: string, table: string): Option<string> {
    var head := DeleteHeader(table);
    if |query| >= |head| + |Commit| && query[..|head|] == head && query[|query| - |Commit|..] == Commit
    then Some(query[|head|..|query| - |Commit|])
    else None
  }

  /** pg-promise's multi-row insert text always begins with `insert `. */
  predicate InsertStatement(insert: string) {
    |insert| >= 7 && insert[..7] == "insert "
  }

  /** Whether a query begins by deleting from a table. */
  predicate DeletesFirst(query: string) {
    |query| >= |Begin| && query[..|Begin|] == Begin
  }

  /**
   * The replace query is the delete header for the table, then the insert
   * statement, then the commit, in that order: it reads back to that
   * statement.
   */
  lemma UnwrapReplaceQuery(table: string, insert: string)
    ensures UnwrapReplace(ReplaceQuery(table, insert), table) == Some(insert)
  {
    var q := ReplaceQuery(table, insert);
    var head := DeleteHeader(table);
    assert q[..|head|] == head;
    assert q[|q| - |Commit|..] == Commit;
    assert q[|head|..|q| - |Commit|] == insert;
  }

  /** Conversely, any text that reads back as a replace transaction is the template around what it read. */
  lemma ReplaceQueryOfUnwrap(query: string, table: string, insert: string)
    requires UnwrapReplace(query, table) == Some(insert)
    ensures ReplaceQuery(table, insert) == query
  {
    var head := DeleteHeader(table);
    assert query == query[..|head|] + query[|head|..|query| - |Commit|] + query[|query| - |Commit|..];
  }

  /**
   * When rows were found and append mode is off the query is the insert
   * wrapped in the delete transaction; otherwise it is the insert statement
   * unchanged, with no delete added.
   */
  lemma LoadQueryBranches(rowCount: nat, appendData: bool, table: string, insert: string)
    ensures ReplacesTable(rowCount, appendData) ==>
            UnwrapReplace(LoadQuery(rowCount, appendData, table, insert), table) == Some(insert)
    ensures !ReplacesTable(rowCount, appendData) ==> LoadQuery(rowCount, appendData, table, insert) == insert
  {
    UnwrapReplaceQuery(table, insert);
  }

  /** For a genuine insert statement, the query deletes first exactly when the replace branch is taken. */
  lemma DeletesFirstIffReplace(rowCount: nat, appendData: bool, table: string, insert: string)
    requires InsertStatement(insert)
    ensures DeletesFirst(LoadQuery(rowCount, appendData, table, insert)) <==> ReplacesTable(rowCount, appendData)
  {
    var q := LoadQuery(rowCount, appendData, table, insert);
    if ReplacesTable(rowCount, appendData) {
      assert q[..|Begin|] == Begin;
    } else {
      assert q[0] == 'i' != Begin[0];
    }
  }

  /** A load plan: the query to run and the lines logged while building it. */
  datatype Plan = Plan(query: string, logs: seq<LogLine>)

  /**
   * Lines 68-78: pick the query, log "N JSON objects found. Clearing table"
   * (debug) on the replace branch or "No JSON objects found." (warnings) on
   * the other, then log the query text (debug).
   */
  function PlanLoad(configured: string, rowCount: nat, appendData: bool, table: string, insert: string): Plan {
    var query := LoadQuery(rowCount, appendData, table, insert);
    var branchLog :=
      if ReplacesTable(rowCount, appendData) then Log(configured, Debug, ClearingTable(rowCount))
      else Log(configured, Warnings, NoObjectsFound);
    Plan(query, branchLog + Log(configured, Debug, QueryText(query)))
  }

  /**
   * The warning "No JSON objects found." is written iff the replace branch is
   * not taken and warnings are enabled: in append mode it is written even
   * when rows were found.
   */
  lemma NoObjectsWarningIff(configured: string, rowCount: nat, appendData: bool, table: string, insert: string)
    ensures LogLine(Warnings, NoObjectsFound) in PlanLoad(configured, rowCount, appendData, table, insert).logs
            <==> (rowCount == 0 || appendData) && Enabled(configured, Warnings)
  {
  }

  /** The "clearing table" line is written iff the replace branch is taken and debug is enabled. */
  lemma ClearingLineIff(configured: string, rowCount: nat, appendData: bool, table: string, insert: string)
    ensures LogLine(Debug, ClearingTable(rowCount)) in PlanLoad(configured, rowCount, appendData, table, insert).logs
            <==> rowCount > 0 && !appendData && Enabled(configured, Debug)
  {
  }

  /** Every line the planner writes passed the level gate, and the query it logs is the query it returns. */
  lemma PlanLogsAreGated(configured: string, rowCount: nat, appendData: bool, table: string, insert: string)
    ensures forall line :: line in PlanLoad(configured, rowCount, appendData, table, insert).logs ==>
              Enabled(configured, line.level)
    ensures forall q :: LogLine(Debug, QueryText(q)) in PlanLoad(configured, rowCount, appendData, table, insert).logs ==>
              q == PlanLoad(configured, rowCount, appendData, table, insert).query
  {
  }
}
