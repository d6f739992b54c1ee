/**
 * The coordinator's expression-only decisions: which timeout a new
 * execution gets, and whether a statement becomes a config execution
 * (administrative statements, answered by a config-task visitor) or a
 * query execution driven by a planner.
 */
module QueryRouting {
  import opened Results

  const LONG_MAX: int := 0x7FFF_FFFF_FFFF_FFFF

  /** A process-unique query id: the data node's id and the generator's counter. */
  datatype QueryId = QueryId(dataNodeId: int, counter: nat)

  datatype QueryType = Read | Write | ReadWrite

  /** A tree-model statement: its type tag, and its query type when it is an IConfigStatement. */
  datatype TreeStatement = TreeStatement(statementType: string, configQueryType: Option<QueryType>)

  /**
   * REMOVE AINODE: a config statement whose query type is WRITE. Its type
   * tag comes from the Statement base class, which is not part of this model.
   */
  function RemoveAINodeStatement(statementType: string): (s: TreeStatement)
    ensures s.configQueryType == Some(Write) && s.statementType == statementType
  {
    TreeStatement(statementType, Some(Write))
  }

  /** The relational statement classes the table-model routing tells apart. */
  datatype TableStatementKind =
    | DropDB | ShowDB | CreateDB | AlterDB | Use
    | CreateTable | DescribeTable | ShowTables | AddColumn | SetProperties
    | DropColumn | DropTable | SetTableComment | SetColumnComment | DeleteDevice
    | RenameColumn | RenameTable | ShowCluster | ShowRegions | ShowDataNodes
    | ShowConfigNodes | ShowAINodes | Flush | ClearCache | SetConfiguration
    | LoadConfiguration | SetSystemStatus | StartRepairData | StopRepairData | PipeStatement
    | RemoveDataNode | RemoveConfigNode | RemoveAINode | SubscriptionStatement | ShowCurrentSqlDialect
    | SetSqlDialect | ShowCurrentUser | ShowCurrentDatabase | ShowVersion | ShowVariables
    | ShowClusterId | ShowCurrentTimestamp | KillQuery | CreateFunction | DropFunction
    | ShowFunctions | RelationalAuthorStatement | MigrateRegion | ReconstructRegion | ExtendRegion
    | CreateModel | CreateTraining | ShowModels | DropModel | RemoveRegion
    | WrappedInsertStatement
    | OtherTableStatement(className: string)

  /** A relational statement; a wrapped insert is bound to the query context that plans it. */
  datatype TableStatement = TableStatement(kind: TableStatementKind, boundContext: Option<QueryId>)

  /** The closed list of relational statement classes that become config executions. */
  predicate IsTableConfigStatement(kind: TableStatementKind)
  {
    || kind.DropDB? || kind.ShowDB? || kind.CreateDB? || kind.AlterDB? || kind.Use?
    || kind.CreateTable? || kind.DescribeTable? || kind.ShowTables? || kind.AddColumn? || kind.SetProperties?
    || kind.DropColumn? || kind.DropTable? || kind.SetTableComment? || kind.SetColumnComment? || kind.DeleteDevice?
    || kind.RenameColumn? || kind.RenameTable? || kind.ShowCluster? || kind.ShowRegions? || kind.ShowDataNodes?
    || kind.ShowConfigNodes? || kind.ShowAINodes? || kind.Flush? || kind.ClearCache? || kind.SetConfiguration?
    || kind.LoadConfiguration? || kind.SetSystemStatus? || kind.StartRepairData? || kind.StopRepairData?
    || kind.PipeStatement? || kind.RemoveDataNode? || kind.RemoveConfigNode? || kind.RemoveAINode?
    || kind.SubscriptionStatement? || kind.ShowCurrentSqlDialect? || kind.SetSqlDialect? || kind.ShowCurrentUser?
    || kind.ShowCurrentDatabase? || kind.ShowVersion? || kind.ShowVariables? || kind.ShowClusterId?
    || kind.ShowCurrentTimestamp? || kind.KillQuery? || kind.CreateFunction? || kind.DropFunction?
    || kind.ShowFunctions? || kind.RelationalAuthorStatement? || kind.MigrateRegion? || kind.ReconstructRegion?
    || kind.ExtendRegion? || kind.CreateModel? || kind.CreateTraining? || kind.ShowModels? || kind.DropModel?
    || kind.RemoveRegion?
  }

  /** The per-operation context the coordinator creates and the planners fill in. */
  datatype QueryContext = QueryContext(
    sql: string,
    globalQueryId: QueryId,
    localQueryId: int,
    userQuery: bool,
    timeOut: Option<int>,
    startTime: Option<int>,
    queryType: Option<QueryType>)

  datatype Planner =
    | TreeModelPlanner(treeStatement: TreeStatement)
    | TableModelPlanner(tableStatement: TableStatement)
    | ConvertedTableModelPlanner(convertedFrom: TreeStatement)

  datatype ExecutionKind =
    | ConfigExecution(statementType: Option<string>)
    | QueryExecution(planner: Planner)

  /** The caller's timeout when positive, otherwise the configured query-timeout threshold. */
  function EffectiveTimeout(timeOut: int, queryTimeoutThreshold: int): (t: int)
    ensures t == timeOut || t == queryTimeoutThreshold
    ensures t == timeOut <== timeOut > 0
    ensures t == queryTimeoutThreshold <== timeOut <= 0
  {
    if timeOut > 0 then timeOut else queryTimeoutThreshold
  }

  /**
   * Tree-model routing: an IConfigStatement becomes a config execution and
   * copies its query type into the context; anything else is planned.
   */
  function CreateQueryExecutionForTreeModel(
    statement: TreeStatement, context: QueryContext, timeOut: int, startTime: int)
    : (r: (QueryContext, ExecutionKind))
    ensures r.0.timeOut == Some(timeOut) && r.0.startTime == Some(startTime)
    ensures r.1.ConfigExecution? <==> statement.configQueryType.Some?
    ensures r.1.ConfigExecution? ==>
              r.0.queryType == statement.configQueryType && r.1.statementType == Some(statement.statementType)
    ensures r.1.QueryExecution? ==>
              r.0.queryType == context.queryType && r.1.planner == TreeModelPlanner(statement)
    ensures r.0.(timeOut := context.timeOut, startTime := context.startTime, queryType := context.queryType) == context
  {
    var timed := context.(timeOut := Some(timeOut), startTime := Some(startTime));
    if statement.configQueryType.Some? then
      (timed.(queryType := statement.configQueryType), ConfigExecution(Some(statement.statementType)))
    else
      (timed, QueryExecution(TreeModelPlanner(statement)))
  }

  /**
   * Table-model routing: exactly the listed statement classes become config
   * executions; otherwise a wrapped insert is first bound to the context,
   * and the statement is planned.
   */
  function CreateQueryExecutionForTableModel(
    statement: TableStatement, context: QueryContext, timeOut: int, startTime: int)
    : (r: (QueryContext, ExecutionKind))
    ensures r.0 == context.(timeOut := Some(timeOut), startTime := Some(startTime))
    ensures r.1.ConfigExecution? <==> IsTableConfigStatement(statement.kind)
    ensures r.1.ConfigExecution? ==> r.1.statementType == None
    ensures r.1.QueryExecution? ==>
              r.1.planner.TableModelPlanner? && r.1.planner.tableStatement.kind == statement.kind
    ensures r.1.QueryExecution? && statement.kind.WrappedInsertStatement? ==>
              r.1.planner.tableStatement.boundContext == Some(context.globalQueryId)
    ensures r.1.QueryExecution? && !statement.kind.WrappedInsertStatement? ==>
              r.1.planner.tableStatement == statement
  {
    var timed := context.(timeOut := Some(timeOut), startTime := Some(startTime));
    if IsTableConfigStatement(statement.kind) then
      (timed, ConfigExecution(None))
    else
      var planned :=
        if statement.kind.WrappedInsertStatement? then statement.(boundContext := Some(timed.globalQueryId))
        else statement;
      (timed, QueryExecution(TableModelPlanner(planned)))
  }

  /** The table-model entry that takes a tree-model statement always plans it, never routing to config. */
  function CreateQueryExecutionForConvertedStatement(
    statement: TreeStatement, context: QueryContext, timeOut: int, startTime: int)
    : (r: (QueryContext, ExecutionKind))
    ensures r.0 == context.(timeOut := Some(timeOut), startTime := Some(startTime))
    ensures r.1 == QueryExecution(ConvertedTableModelPlanner(statement))
  {
    (context.(timeOut := Some(timeOut), startTime := Some(startTime)), QueryExecution(ConvertedTableModelPlanner(statement)))
  }

  /** REMOVE AINODE is administrative in both models: a config execution, and a write in the tree model. */
  lemma RemoveAINodeIsConfigInBothModels(
    statementType: string, context: QueryContext, timeOut: int, startTime: int, bound: Option<QueryId>)
    ensures var tree := CreateQueryExecutionForTreeModel(RemoveAINodeStatement(statementType), context, timeOut, startTime);
            tree.1.ConfigExecution? && tree.0.queryType == Some(Write)
    ensures CreateQueryExecutionForTableModel(TableStatement(RemoveAINode, bound), context, timeOut, startTime).1.ConfigExecution?
  {
  }
}
