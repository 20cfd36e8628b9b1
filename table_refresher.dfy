/** `load_csv_from_s3_to_redshift`: the three-step refresh of a Redshift table
    from a CSV object in S3 through the Redshift Data API: an existence check, a
    TRUNCATE only when the check's answer is truthy, then a COPY, each awaited
    before the next is submitted. The warehouse's behaviour is given per
    statement as data. */
module TableRefresher {
  import opened Common
  import opened StatementWaiter

  /** The handler's arguments. */
  datatype RefreshPlan = RefreshPlan(
    s3Bucket: string,
    s3Key: string,
    database: string,
    schema: string,
    table: string,
    clusterId: string,
    secretArn: string,
    iamRole: string)

  /** How the Data API treats one `execute_statement` call: it rejects it with
      a ClientError, or accepts it and answers the polls of the statement. */
  datatype Submission = Rejected | Accepted(polls: seq<Poll>)

  /** The submission ends: it is rejected, or its polls reach a terminal status. */
  predicate Completes(s: Submission) {
    s.Rejected? || Terminates(s.polls)
  }

  /** The Data API's treatment of the three statements the handler may submit. */
  datatype Warehouse = Warehouse(check: Submission, truncate: Submission, copy: Submission)

  predicate WarehouseCompletes(wh: Warehouse) {
    Completes(wh.check) && Completes(wh.truncate) && Completes(wh.copy)
  }

  /** An `execute_statement` call: the cluster, database and secret of the plan and the SQL text. */
  datatype Statement = Statement(clusterIdentifier: string, database: string, secretArn: string, sql: string)

  /** A submitted statement and what waiting for it gave. */
  datatype Step = Step(statement: Statement, result: PyResult<Value>)

  /** The function's result: 0 or 1, or an exception escaping it. */
  datatype RefreshOutcome = ReturnCode(code: int) | Escaped(exc: Exc)

  /** The statements submitted, in order, with their results, and the outcome. */
  datatype RefreshRun = RefreshRun(steps: seq<Step>, outcome: RefreshOutcome)

  /** The line break and indentation that separate the lines of the
      triple-quoted queries. */
  const Break: string := "\n        "

  /** A triple-quoted query: every line, and the closing quotes, starts after
      a `Break`. */
  function Lines(lines: seq<string>): string {
    if |lines| == 0 then Break else Break + lines[0] + Lines(lines[1..])
  }

  function SchemaClause(schema: string): string {
    "table_schema = '" + schema + "'"
  }

  function TableClause(table: string): string {
    "table_name = '" + table + "'"
  }

  /** The existence query; schema and table are embedded verbatim in quotes. */
  function CheckTableSql(schema: string, table: string): string {
    Lines([
      "SELECT EXISTS (",
      "    SELECT 1",
      "    FROM information_schema.tables",
      "    WHERE " + SchemaClause(schema),
      "    AND " + TableClause(table),
      ");"])
  }

  function TruncateSql(schema: string, table: string): string {
    "TRUNCATE TABLE " + schema + "." + table + ";"
  }

  function CopyTarget(plan: RefreshPlan): string {
    "COPY " + plan.schema + "." + plan.table
  }

  function CopySource(plan: RefreshPlan): string {
    "FROM 's3://" + plan.s3Bucket + "/" + plan.s3Key + "'"
  }

  function CopyRole(plan: RefreshPlan): string {
    "IAM_ROLE '" + plan.iamRole + "'"
  }

  /** The COPY command: target, source, role, and the CSV format with one
      header line to skip. */
  function CopySql(plan: RefreshPlan): string {
    Lines([CopyTarget(plan), CopySource(plan), CopyRole(plan), "CSV", "IGNOREHEADER 1"])
  }

  function Submit(plan: RefreshPlan, sql: string): Statement {
    Statement(plan.clusterId, plan.database, plan.secretArn, sql)
  }

  /** `t` occurs in `s` at index `i`. */
  predicate OccursAt(s: string, t: string, i: int) {
    0 <= i <= |s| - |t| && s[i..i + |t|] == t
  }

  /** `t` occurs in `s`. */
  ghost predicate Contains(s: string, t: string) {
    exists i :: OccursAt(s, t, i)
  }

  lemma ContainsMiddle(a: string, t: string, b: string)
    ensures Contains(a + t + b, t)
  {
    assert OccursAt(a + t + b, t, |a|);
  }

  lemma ContainsEnd(a: string, t: string)
    ensures Contains(a + t, t)
  {
    assert OccursAt(a + t, t, |a|);
  }

  lemma ContainsSuffix(a: string, s: string, t: string)
    requires Contains(s, t)
    ensures Contains(a + s, t)
  {
    var i :| OccursAt(s, t, i);
    assert (a + s)[|a| + i..|a| + i + |t|] == s[i..i + |t|];
    assert OccursAt(a + s, t, |a| + i);
  }

  /** Every line of a triple-quoted query occurs in its text. */
  lemma {:induction false} LinesContain(lines: seq<string>, k: nat)
    requires k < |lines|
    ensures Contains(Lines(lines), lines[k])
  {
    if k == 0 {
      ContainsMiddle(Break, lines[0], Lines(lines[1..]));
    } else {
      LinesContain(lines[1..], k - 1);
      assert Lines(lines) == (Break + lines[0]) + Lines(lines[1..]);
      ContainsSuffix(Break + lines[0], Lines(lines[1..]), lines[k]);
    }
  }

  /** The text of a query that starts with the line `first`. */
  lemma LinesStart(lines: seq<string>)
    requires |lines| > 0 && |lines[0]| > 0
    ensures |Lines(lines)| > 9 && Lines(lines)[..9] == Break && Lines(lines)[9] == lines[0][0]
  {
    assert Lines(lines) == (Break + lines[0]) + Lines(lines[1..]);
  }

  /** One line of a triple-quoted query and the rest of it. */
  lemma LinesCons(lines: seq<string>)
    requires |lines| > 0
    ensures Lines(lines) == Break + lines[0] + Lines(lines[1..])
  {
  }

  /** The same text built from the last line backwards: each line is appended
      after the text before it, followed by a `Break`. */
  function Flat(lines: seq<string>): string {
    if |lines| == 0 then Break else Flat(lines[..|lines| - 1]) + lines[|lines| - 1] + Break
  }

  lemma {:induction false} FlatCons(a: string, rest: seq<string>)
    ensures Flat([a] + rest) == Break + a + Flat(rest)
    decreases |rest|
  {
    if rest == [] {
      assert ([a] + rest)[..0] == [];
    } else {
      var m := |rest| - 1;
      assert ([a] + rest)[..|rest|] == [a] + rest[..m];
      FlatCons(a, rest[..m]);
    }
  }

  /** Both ways of building a triple-quoted query give the same text. */
  lemma {:induction false} LinesFlat(lines: seq<string>)
    ensures Lines(lines) == Flat(lines)
  {
    if lines != [] {
      LinesFlat(lines[1..]);
      FlatCons(lines[0], lines[1..]);
      assert [lines[0]] + lines[1..] == lines;
    }
  }

  lemma FlatSnoc(lines: seq<string>, k: nat)
    requires k < |lines|
    ensures Flat(lines[..k + 1]) == Flat(lines[..k]) + lines[k] + Break
  {
    assert lines[..k + 1][..k] == lines[..k];
  }

  /** A five-line query, unfolded. */
  lemma LinesFive(lines: seq<string>)
    requires |lines| == 5
    ensures Lines(lines) ==
      Break + lines[0] + Break + lines[1] + Break + lines[2] + Break + lines[3] + Break + lines[4] + Break
  {
    LinesFlat(lines);
    assert lines[..0] == [] && lines[..5] == lines;
    FlatSnoc(lines, 0);
    FlatSnoc(lines, 1);
    FlatSnoc(lines, 2);
    FlatSnoc(lines, 3);
    FlatSnoc(lines, 4);
  }

  /** A six-line query, unfolded. */
  lemma LinesSix(lines: seq<string>)
    requires |lines| == 6
    ensures Lines(lines) ==
      Break + lines[0] + Break + lines[1] + Break + lines[2] + Break + lines[3] + Break + lines[4] +
      Break + lines[5] + Break
  {
    LinesFlat(lines);
    assert lines[..0] == [] && lines[..6] == lines;
    FlatSnoc(lines, 0);
    FlatSnoc(lines, 1);
    FlatSnoc(lines, 2);
    FlatSnoc(lines, 3);
    FlatSnoc(lines, 4);
    FlatSnoc(lines, 5);
  }

  /** The existence query as the f-string lays it out: each line on its own,
      indented by eight spaces, and the closing quotes on a line of their own. */
  lemma CheckTableSqlLayout(schema: string, table: string)
    ensures CheckTableSql(schema, table) ==
      Break + "SELECT EXISTS (" + Break + "    SELECT 1" + Break + "    FROM information_schema.tables" +
      Break + "    WHERE " + SchemaClause(schema) + Break + "    AND " + TableClause(table) +
      Break + ");" + Break
  {
    var lines := [
      "SELECT EXISTS (",
      "    SELECT 1",
      "    FROM information_schema.tables",
      "    WHERE " + SchemaClause(schema),
      "    AND " + TableClause(table),
      ");"];
    LinesSix(lines);
  }

  /** The COPY command as the f-string lays it out. */
  lemma CopySqlLayout(plan: RefreshPlan)
    ensures CopySql(plan) ==
      Break + CopyTarget(plan) + Break + CopySource(plan) + Break + CopyRole(plan) +
      Break + "CSV" + Break + "IGNOREHEADER 1" + Break
  {
    LinesFive([CopyTarget(plan), CopySource(plan), CopyRole(plan), "CSV", "IGNOREHEADER 1"]);
  }

  /** TRUNCATE names the qualified table right after `TRUNCATE TABLE ` and ends
      the statement with a semicolon. */
  lemma TruncateSqlNamesTable(schema: string, table: string)
    ensures OccursAt(TruncateSql(schema, table), "TRUNCATE TABLE ", 0)
    ensures OccursAt(TruncateSql(schema, table), schema + "." + table, 15)
    ensures |TruncateSql(schema, table)| == 15 + |schema + "." + table| + 1
    ensures TruncateSql(schema, table)[|TruncateSql(schema, table)| - 1] == ';'
  {
    var target := schema + "." + table;
    assert TruncateSql(schema, table) == "TRUNCATE TABLE " + target + ";";
  }

  /** The existence query names the schema and the table inside single quotes. */
  lemma CheckSqlQuotesNames(schema: string, table: string)
    ensures Contains(CheckTableSql(schema, table), SchemaClause(schema))
    ensures Contains(CheckTableSql(schema, table), TableClause(table))
  {
    var lines := [
      "SELECT EXISTS (",
      "    SELECT 1",
      "    FROM information_schema.tables",
      "    WHERE " + SchemaClause(schema),
      "    AND " + TableClause(table),
      ");"];
    LinesContain(lines, 3);
    LinesContain(lines, 4);
    ContainsEnd("    WHERE ", SchemaClause(schema));
    ContainsEnd("    AND ", TableClause(table));
    ContainsWithin(CheckTableSql(schema, table), lines[3], SchemaClause(schema));
    ContainsWithin(CheckTableSql(schema, table), lines[4], TableClause(table));
  }

  /** Containment is transitive. */
  lemma ContainsWithin(s: string, u: string, t: string)
    requires Contains(s, u) && Contains(u, t)
    ensures Contains(s, t)
  {
    var i :| OccursAt(s, u, i);
    var j :| OccursAt(u, t, j);
    forall k | 0 <= k < |t|
      ensures s[i + j..i + j + |t|][k] == t[k]
    {
      assert s[i..i + |u|][j + k] == u[j + k];
      assert u[j..j + |t|][k] == t[k];
    }
    assert OccursAt(s, t, i + j);
  }

  /** The COPY loads `s3://<bucket>/<key>` into `<schema>.<table>` with the
      plan's IAM role, as CSV, skipping one header line. */
  lemma CopySqlNamesSourceAndRole(plan: RefreshPlan)
    ensures Contains(CopySql(plan), CopyTarget(plan))
    ensures Contains(CopySql(plan), CopySource(plan))
    ensures Contains(CopySql(plan), CopyRole(plan))
    ensures Contains(CopySql(plan), "CSV") && Contains(CopySql(plan), "IGNOREHEADER 1")
  {
    var lines := [CopyTarget(plan), CopySource(plan), CopyRole(plan), "CSV", "IGNOREHEADER 1"];
    LinesContain(lines, 0);
    LinesContain(lines, 1);
    LinesContain(lines, 2);
    LinesContain(lines, 3);
    LinesContain(lines, 4);
  }

  /** The three statements are told apart by their text. */
  lemma StatementTextsDiffer(plan: RefreshPlan)
    ensures CheckTableSql(plan.schema, plan.table) != TruncateSql(plan.schema, plan.table)
    ensures CheckTableSql(plan.schema, plan.table) != CopySql(plan)
    ensures TruncateSql(plan.schema, plan.table) != CopySql(plan)
  {
    LinesStart([
      "SELECT EXISTS (",
      "    SELECT 1",
      "    FROM information_schema.tables",
      "    WHERE " + SchemaClause(plan.schema),
      "    AND " + TableClause(plan.table),
      ");"]);
    LinesStart([CopyTarget(plan), CopySource(plan), CopyRole(plan), "CSV", "IGNOREHEADER 1"]);
    assert TruncateSql(plan.schema, plan.table)[0] == 'T';
  }

  /** `execute_statement` followed by `wait_for_statement_completion`. */
  function Execute(s: Submission): PyResult<Value>
    requires Completes(s)
  {
    match s
    case Rejected => Raised(ClientError("ExecuteStatement"))
    case Accepted(polls) => Await(polls)
  }

  /** The `except ClientError` handler: a ClientError becomes return code 1,
      anything else escapes. */
  function Handle(e: Exc): RefreshOutcome {
    if e.ClientError? then ReturnCode(1) else Escaped(e)
  }

  /** The refresh protocol: each statement is awaited and must return before the
      next is submitted; the check comes first; TRUNCATE is submitted exactly
      when the check returned a truthy value; COPY is last, with nothing after
      it; 0 is returned only once COPY's wait has returned, 1 only for a
      ClientError, and every other exception escapes. */
  function Refresh(plan: RefreshPlan, wh: Warehouse): (run: RefreshRun)
    requires WarehouseCompletes(wh)
    ensures 1 <= |run.steps| <= 3
    ensures forall i :: 0 <= i < |run.steps| - 1 ==> run.steps[i].result.Returned?
    ensures run.steps[0] == Step(Submit(plan, CheckTableSql(plan.schema, plan.table)), Execute(wh.check))
    ensures forall i :: 1 <= i < |run.steps| ==>
      run.steps[i].statement.sql == TruncateSql(plan.schema, plan.table) || run.steps[i].statement.sql == CopySql(plan)
    ensures (|run.steps| >= 2 && run.steps[1].statement.sql == TruncateSql(plan.schema, plan.table)) <==>
      Execute(wh.check).Returned? && Truthy(Execute(wh.check).value)
    ensures forall i :: 0 <= i < |run.steps| && run.steps[i].statement.sql == TruncateSql(plan.schema, plan.table) ==>
      i == 1 && run.steps[i] == Step(Submit(plan, TruncateSql(plan.schema, plan.table)), Execute(wh.truncate))
    ensures forall i :: 0 <= i < |run.steps| && run.steps[i].statement.sql == CopySql(plan) ==>
      i == |run.steps| - 1 && run.steps[i] == Step(Submit(plan, CopySql(plan)), Execute(wh.copy))
    ensures var last := run.steps[|run.steps| - 1];
      last.statement.sql != CopySql(plan) ==> last.result.Raised?
    ensures var last := run.steps[|run.steps| - 1];
      run.outcome == if last.result.Returned? then ReturnCode(0) else Handle(last.result.exc)
    ensures run.outcome == ReturnCode(0) ==> run.steps[|run.steps| - 1].statement.sql == CopySql(plan)
  {
    StatementTextsDiffer(plan);
    var check := Step(Submit(plan, CheckTableSql(plan.schema, plan.table)), Execute(wh.check));
    if check.result.Raised? then RefreshRun([check], Handle(check.result.exc))
    else
      var copy := Step(Submit(plan, CopySql(plan)), Execute(wh.copy));
      var finish := if copy.result.Returned? then ReturnCode(0) else Handle(copy.result.exc);
      if Truthy(check.result.value) then
        var truncate := Step(Submit(plan, TruncateSql(plan.schema, plan.table)), Execute(wh.truncate));
        if truncate.result.Raised? then RefreshRun([check, truncate], Handle(truncate.result.exc))
        else RefreshRun([check, truncate, copy], finish)
      else RefreshRun([check, copy], finish)
  }

  /** Submits one statement and waits for it. */
  method RunStatement(s: Submission) returns (result: PyResult<Value>)
    requires Completes(s)
    ensures result == Execute(s)
  {
    match s
    case Rejected =>
      result := Raised(ClientError("ExecuteStatement"));
    case Accepted(polls) =>
      var describeCalls;
      result, describeCalls := WaitForStatementCompletion(polls);
  }

  /** The handler's body, statement by statement. */
  method LoadCsvFromS3ToRedshift(plan: RefreshPlan, wh: Warehouse) returns (run: RefreshRun)
    requires WarehouseCompletes(wh)
    ensures run == Refresh(plan, wh)
  {
    var checkTableSql := CheckTableSql(plan.schema, plan.table);
    var response := RunStatement(wh.check);
    var steps := [Step(Submit(plan, checkTableSql), response)];
    if response.Raised? {
      return RefreshRun(steps, Handle(response.exc));
    }
    var tableExists := response.value;
    if Truthy(tableExists) {
      var truncateSql := TruncateSql(plan.schema, plan.table);
      response := RunStatement(wh.truncate);
      steps := steps + [Step(Submit(plan, truncateSql), response)];
      if response.Raised? {
        return RefreshRun(steps, Handle(response.exc));
      }
    }
    var copyCommand := CopySql(plan);
    response := RunStatement(wh.copy);
    steps := steps + [Step(Submit(plan, copyCommand), response)];
    if response.Raised? {
      return RefreshRun(steps, Handle(response.exc));
    }
    return RefreshRun(steps, ReturnCode(0));
  }

  /** The return code is 0 or 1, 1 exactly when the failing step raised a
      ClientError; an exception that escapes is never a ClientError. */
  lemma ReturnCodes(plan: RefreshPlan, wh: Warehouse)
    requires WarehouseCompletes(wh)
    ensures var run := Refresh(plan, wh); var last := run.steps[|run.steps| - 1];
      && (run.outcome.ReturnCode? ==> run.outcome.code == 0 || run.outcome.code == 1)
      && (run.outcome == ReturnCode(1) <==> last.result.Raised? && last.result.exc.ClientError?)
      && (run.outcome.Escaped? ==> !run.outcome.exc.ClientError? && last.result == Raised(run.outcome.exc))
  {
  }

  /** 0 is returned exactly when the check returned, TRUNCATE returned if it was
      submitted, and COPY returned; every statement of such a run returned. */
  lemma RefreshSucceeds(plan: RefreshPlan, wh: Warehouse)
    requires WarehouseCompletes(wh)
    ensures Refresh(plan, wh).outcome == ReturnCode(0) <==>
      && Execute(wh.check).Returned?
      && (Truthy(Execute(wh.check).value) ==> Execute(wh.truncate).Returned?)
      && Execute(wh.copy).Returned?
    ensures var run := Refresh(plan, wh);
      run.outcome == ReturnCode(0) ==> forall i :: 0 <= i < |run.steps| ==> run.steps[i].result.Returned?
  {
  }

  /** A table reported missing (a falsy check value) is not truncated: the COPY
      comes straight after the check. */
  lemma MissingTableSkipsTruncate(plan: RefreshPlan, wh: Warehouse)
    requires WarehouseCompletes(wh)
    requires Execute(wh.check).Returned? && !Truthy(Execute(wh.check).value)
    ensures var run := Refresh(plan, wh);
      |run.steps| == 2 && run.steps[1].statement.sql == CopySql(plan)
  {
  }

  /** A FAILED or ABORTED answer while waiting for any statement is a plain
      Exception: it escapes the function instead of producing return code 1. */
  lemma WaiterFailureEscapes(plan: RefreshPlan, wh: Warehouse, i: nat)
    requires WarehouseCompletes(wh)
    requires i < |Refresh(plan, wh).steps|
    requires Refresh(plan, wh).steps[i].result.Raised?
    requires Refresh(plan, wh).steps[i].result.exc.PlainException?
    ensures Refresh(plan, wh).outcome == Escaped(Refresh(plan, wh).steps[i].result.exc)
  {
  }

  /** If TRUNCATE completed and COPY then failed, the run ends with the COPY: no
      statement restores the truncated table, and 0 is not returned. */
  lemma TruncatedTableNotRestored(plan: RefreshPlan, wh: Warehouse)
    requires WarehouseCompletes(wh)
    requires Execute(wh.check).Returned? && Truthy(Execute(wh.check).value)
    requires Execute(wh.truncate).Returned? && Execute(wh.copy).Raised?
    ensures var run := Refresh(plan, wh);
      && |run.steps| == 3
      && run.steps[1].statement.sql == TruncateSql(plan.schema, plan.table)
      && run.steps[2].statement.sql == CopySql(plan)
      && run.outcome != ReturnCode(0)
  {
  }

  /** A Data API cell such as `{'booleanValue': False}` is a non-empty dict and
      so truthy: a check answered that way still leads to TRUNCATE. */
  lemma FalseBooleanCellStillTruncates(plan: RefreshPlan, wh: Warehouse, r: StatusResponse)
    requires WarehouseCompletes(wh)
    requires r.status == "FINISHED" && r.records == Some([[Dict(map["booleanValue" := Bool(false)])]])
    requires wh.check == Accepted([Described(r)])
    ensures |Refresh(plan, wh).steps| >= 2
    ensures Refresh(plan, wh).steps[1].statement.sql == TruncateSql(plan.schema, plan.table)
  {
    var cell := Dict(map["booleanValue" := Bool(false)]);
    assert "booleanValue" in cell.fields;
    assert Truthy(cell);
    assert EndsWait([Described(r)][0]);
    assert Execute(wh.check) == Returned(cell);
  }
}
