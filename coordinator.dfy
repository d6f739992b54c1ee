/**
 * The coordinator's execution registry: executions that are queries are
 * filed under the caller's query id until they are cleaned up; cleanup
 * decides the slow-query and sampling telemetry. The planners, the
 * executions themselves and the loggers are outside the model: what an
 * execution does is an ExecutionOutcome the caller supplies, and what the
 * loggers and lock manager observe is a ghost trace of events.
 */
module Coordination {
  import opened Results
  import opened QueryRouting

  datatype Throwable = Throwable(message: string)

  /** The part of a TSStatus the coordinator touches. */
  datatype TSStatus = TSStatus(code: int, needRetry: bool)

  datatype ExecutionResult = ExecutionResult(queryId: QueryId, status: Option<TSStatus>)

  /** A native-API request; its printable content is what telemetry records. */
  datatype NativeRequest = NativeRequest(content: string)

  /** The configuration values the coordinator reads. */
  datatype CoordinatorConfig = CoordinatorConfig(
    dataNodeId: int,
    queryTimeoutThreshold: int,
    slowQueryThreshold: int,
    enableQuerySampling: bool,
    querySamplingHasRateLimit: bool,
    retryableStatusCodes: set<int>)

  /**
   * What the foreign parts of one execution do: whether building the
   * execution (planner or config-task visitor) throws, whether it is a
   * query, whether start() throws, and the status it then reports.
   */
  datatype ExecutionOutcome = ExecutionOutcome(
    buildFailure: Option<Throwable>,
    isQuery: bool,
    startFailure: Option<Throwable>,
    status: Option<TSStatus>)

  /** An execution as the registry sees it; the user-query flag is its context's. */
  datatype ExecutionHandle = ExecutionHandle(
    kind: ExecutionKind,
    context: QueryContext,
    isQuery: bool,
    totalExecutionTimeNs: int)

  /** What the loggers, the memory accounting and the schema lock manager observe. */
  datatype Event =
    | FrontEndMemoryReleased(query: QueryId)
    | SchemaReadLockReleased(query: QueryId)
    | StoppedAndCleanedUp(query: QueryId, cause: Option<Throwable>)
    | SlowQueryLogged(costMs: int, request: string)
    | QuerySampled(request: string)

  /** The execution factory each public entry point hands to `execution`. */
  datatype Route =
    | TreeModelRoute(treeStatement: TreeStatement, timeOut: int)
    | TableModelRoute(tableStatement: TableStatement, timeOut: int)
    | ConvertedTreeStatementRoute(convertedStatement: TreeStatement, timeOut: int)

  /** StatusUtils.needRetry is not part of this model: a status needs a retry when its code is configured as retryable. */
  predicate NeedRetry(status: TSStatus, config: CoordinatorConfig)
  {
    status.code in config.retryableStatusCodes
  }

  /** A fresh context: nothing but the sql, the two ids and the user flag is set. */
  function InitialContext(sql: string, globalQueryId: QueryId, queryId: int, userQuery: bool): (c: QueryContext)
    ensures c.globalQueryId == globalQueryId && c.localQueryId == queryId && c.userQuery == userQuery
    ensures c.timeOut.None? && c.startTime.None? && c.queryType.None?
  {
    QueryContext(sql, globalQueryId, queryId, userQuery, None, None, None)
  }

  /** Applies the factory: the effective timeout is chosen, then the statement is routed. */
  function BuildExecution(route: Route, context: QueryContext, startTime: int, config: CoordinatorConfig)
    : (r: (QueryContext, ExecutionKind))
    ensures r.0.timeOut == Some(EffectiveTimeout(route.timeOut, config.queryTimeoutThreshold))
    ensures r.0.startTime == Some(startTime)
    ensures r.0.sql == context.sql && r.0.globalQueryId == context.globalQueryId
    ensures r.0.localQueryId == context.localQueryId && r.0.userQuery == context.userQuery
  {
    var timeOut := EffectiveTimeout(route.timeOut, config.queryTimeoutThreshold);
    match route
    case TreeModelRoute(statement, _) => CreateQueryExecutionForTreeModel(statement, context, timeOut, startTime)
    case TableModelRoute(statement, _) => CreateQueryExecutionForTableModel(statement, context, timeOut, startTime)
    case ConvertedTreeStatementRoute(statement, _) =>
      CreateQueryExecutionForConvertedStatement(statement, context, timeOut, startTime)
  }

  /** The status returned: a non-query's retryable status gets its retry flag set; anything else is unchanged. */
  function RetryFlagged(status: Option<TSStatus>, isQuery: bool, config: CoordinatorConfig): (r: Option<TSStatus>)
    ensures r.Some? <==> status.Some?
    ensures status.Some? ==> r.value.code == status.value.code
    ensures status.Some? ==>
              (r.value.needRetry <==> status.value.needRetry || (!isQuery && NeedRetry(status.value, config)))
  {
    if !isQuery && status.Some? && NeedRetry(status.value, config) then Some(status.value.(needRetry := true))
    else status
  }

  /** An execution is registered exactly when it could be built and is a query. */
  predicate Registers(outcome: ExecutionOutcome)
  {
    outcome.buildFailure.None? && outcome.isQuery
  }

  datatype ExecutionStep = ExecutionStep(
    registry: map<int, ExecutionHandle>,
    started: Option<ExecutionHandle>,
    events: seq<Event>,
    result: Result<ExecutionResult, Throwable>)

  /** One run of `execution`, from the registry before it to the registry, events and result after it. */
  function RunExecution(
    registry: map<int, ExecutionHandle>, globalQueryId: QueryId, queryId: int, sql: string, userQuery: bool,
    startTime: int, route: Route, config: CoordinatorConfig, outcome: ExecutionOutcome)
    : (s: ExecutionStep)
    // memory and the read lock are released on every exit path
    ensures s.events == [FrontEndMemoryReleased(globalQueryId), SchemaReadLockReleased(globalQueryId)]
    ensures s.result.Failure? <==> outcome.buildFailure.Some? || outcome.startFailure.Some?
    ensures s.result.Failure? ==>
              s.result.error == if outcome.buildFailure.Some? then outcome.buildFailure.value else outcome.startFailure.value
    ensures s.started.Some? <==> outcome.buildFailure.None?
    // only queries are filed, under the caller's id, and no other entry changes
    ensures s.registry.Keys == if Registers(outcome) then registry.Keys + {queryId} else registry.Keys
    ensures forall id :: id in registry && id != queryId ==> s.registry[id] == registry[id]
    ensures !Registers(outcome) ==> s.registry == registry
    ensures Registers(outcome) ==> s.registry[queryId] == s.started.value
    // a query keeps the effective timeout; anything else runs without a limit
    ensures s.started.Some? ==>
              var h := s.started.value;
              && h.isQuery == outcome.isQuery
              && h.context.globalQueryId == globalQueryId && h.context.localQueryId == queryId
              && h.context.userQuery == userQuery && h.context.startTime == Some(startTime)
              && h.context.timeOut ==
                   Some(if outcome.isQuery then EffectiveTimeout(route.timeOut, config.queryTimeoutThreshold) else LONG_MAX)
    ensures s.result.Success? ==>
              s.result.value == ExecutionResult(globalQueryId, RetryFlagged(outcome.status, outcome.isQuery, config))
  {
    var releases := [FrontEndMemoryReleased(globalQueryId), SchemaReadLockReleased(globalQueryId)];
    if outcome.buildFailure.Some? then
      ExecutionStep(registry, None, releases, Failure(outcome.buildFailure.value))
    else
      var built := BuildExecution(route, InitialContext(sql, globalQueryId, queryId, userQuery), startTime, config);
      var context := if outcome.isQuery then built.0 else built.0.(timeOut := Some(LONG_MAX));
      var handle := ExecutionHandle(built.1, context, outcome.isQuery, 0);
      var registered := if outcome.isQuery then registry[queryId := handle] else registry;
      if outcome.startFailure.Some? then
        ExecutionStep(registered, Some(handle), releases, Failure(outcome.startFailure.value))
      else
        ExecutionStep(registered, Some(handle), releases,
                      Success(ExecutionResult(globalQueryId, RetryFlagged(outcome.status, outcome.isQuery, config))))
  }

  /** Java's `ns / 1_000_000` on a long: division truncating toward zero. */
  function MillisOfNanos(ns: int): (ms: int)
    ensures ns >= 0 ==> 0 <= ms && ms * 1_000_000 <= ns < ms * 1_000_000 + 1_000_000
    ensures ns < 0 ==> ms <= 0 && ms * 1_000_000 >= ns > ms * 1_000_000 - 1_000_000
  {
    if ns >= 0 then ns / 1_000_000 else -((-ns) / 1_000_000)
  }

  /** CommonUtils.getContentOfRequest is not part of this model: the request's content, else the execution's sql. */
  function ContentOfRequest(request: Option<NativeRequest>, execution: ExecutionHandle): string
  {
    if request.Some? then request.value.content else execution.context.sql
  }

  predicate IsUserQueryExecution(execution: ExecutionHandle)
  {
    execution.isQuery && execution.context.userQuery
  }

  predicate IsSlow(execution: ExecutionHandle, config: CoordinatorConfig)
  {
    IsUserQueryExecution(execution) && MillisOfNanos(execution.totalExecutionTimeNs) >= config.slowQueryThreshold
  }

  predicate IsSampled(
    execution: ExecutionHandle, request: Option<NativeRequest>, t: Option<Throwable>,
    config: CoordinatorConfig, tryAcquire: nat -> bool)
  {
    && IsUserQueryExecution(execution) && t.None? && config.enableQuerySampling
    && (config.querySamplingHasRateLimit ==> tryAcquire(|ContentOfRequest(request, execution)|))
  }

  /** How many slow-query records a log holds. */
  function SlowRecordCount(events: seq<Event>): nat
  {
    if events == [] then 0
    else (if events[0].SlowQueryLogged? then 1 else 0) + SlowRecordCount(events[1..])
  }

  /** How many sampled-query records a log holds. */
  function SampledRecordCount(events: seq<Event>): nat
  {
    if events == [] then 0
    else (if events[0].QuerySampled? then 1 else 0) + SampledRecordCount(events[1..])
  }

  lemma {:induction false} RecordCountsOfConcat(a: seq<Event>, b: seq<Event>)
    ensures SlowRecordCount(a + b) == SlowRecordCount(a) + SlowRecordCount(b)
    ensures SampledRecordCount(a + b) == SampledRecordCount(a) + SampledRecordCount(b)
  {
    if a == [] {
      assert a + b == b;
    } else {
      assert (a + b)[1..] == a[1..] + b;
      RecordCountsOfConcat(a[1..], b);
    }
  }

  /**
   * The telemetry of cleaning up one user query, in the order it is logged:
   * one slow-query record exactly when the query is slow, then one sampled
   * record exactly when it is sampled, and nothing else.
   */
  function UserQueryTelemetry(
    execution: ExecutionHandle, request: Option<NativeRequest>, t: Option<Throwable>,
    config: CoordinatorConfig, tryAcquire: nat -> bool)
    : (e: seq<Event>)
    requires IsUserQueryExecution(execution)
    ensures SlowRecordCount(e) == if IsSlow(execution, config) then 1 else 0
    ensures SampledRecordCount(e) == if IsSampled(execution, request, t, config, tryAcquire) then 1 else 0
    ensures |e| == SlowRecordCount(e) + SampledRecordCount(e)
    ensures forall i, j :: 0 <= i < j < |e| ==> !(e[i].QuerySampled? && e[j].SlowQueryLogged?)
    ensures forall k :: 0 <= k < |e| && e[k].SlowQueryLogged? ==>
              e[k] == SlowQueryLogged(MillisOfNanos(execution.totalExecutionTimeNs), ContentOfRequest(request, execution))
    ensures forall k :: 0 <= k < |e| ==> e[k].SlowQueryLogged? || e[k] == QuerySampled(ContentOfRequest(request, execution))
  {
    var content := ContentOfRequest(request, execution);
    var costMs := MillisOfNanos(execution.totalExecutionTimeNs);
    var slow := if costMs >= config.slowQueryThreshold then [SlowQueryLogged(costMs, content)] else [];
    var sampled :=
      if t.None? && config.enableQuerySampling && (!config.querySamplingHasRateLimit || tryAcquire(|content|))
      then [QuerySampled(content)]
      else [];
    RecordCountsOfConcat(slow, sampled);
    assert slow != [] ==> slow[1..] == [];
    assert sampled != [] ==> sampled[1..] == [];
    slow + sampled
  }

  /**
   * The events of cleanupQueryExecution(queryId, request, t) against
   * `registry`: nothing for an unknown id; otherwise the stop-and-cleanup
   * first, followed only by at most one slow-query record and then at most
   * one sampled record.
   */
  function CleanupEvents(
    registry: map<int, ExecutionHandle>, queryId: int, request: Option<NativeRequest>, t: Option<Throwable>,
    config: CoordinatorConfig, tryAcquire: nat -> bool)
    : (e: seq<Event>)
    ensures queryId !in registry ==> e == []
    ensures queryId in registry ==>
              |e| >= 1 && e[0] == StoppedAndCleanedUp(registry[queryId].context.globalQueryId, t)
    ensures queryId in registry ==> |e| == 1 + SlowRecordCount(e) + SampledRecordCount(e)
    ensures SlowRecordCount(e) == if queryId in registry && IsSlow(registry[queryId], config) then 1 else 0
    ensures SampledRecordCount(e) ==
              if queryId in registry && IsSampled(registry[queryId], request, t, config, tryAcquire) then 1 else 0
    ensures forall i, j :: 0 <= i < j < |e| ==> !(e[i].QuerySampled? && e[j].SlowQueryLogged?)
    ensures forall k :: 0 <= k < |e| && e[k].SlowQueryLogged? ==>
              e[k] == SlowQueryLogged(MillisOfNanos(registry[queryId].totalExecutionTimeNs),
                                      ContentOfRequest(request, registry[queryId]))
    ensures forall k :: 0 <= k < |e| && e[k].QuerySampled? ==>
              e[k] == QuerySampled(ContentOfRequest(request, registry[queryId]))
  {
    if queryId !in registry then []
    else
      var execution := registry[queryId];
      var telemetry :=
        if IsUserQueryExecution(execution) then UserQueryTelemetry(execution, request, t, config, tryAcquire) else [];
      var stopped := [StoppedAndCleanedUp(execution.context.globalQueryId, t)];
      RecordCountsOfConcat(stopped, telemetry);
      assert stopped[1..] == [];
      assert forall k :: 1 <= k < |stopped + telemetry| ==> (stopped + telemetry)[k] == telemetry[k - 1];
      stopped + telemetry
  }

  /** Cleanup removes the entry, so cleaning the same id up again emits nothing. */
  lemma SecondCleanupIsSilent(
    registry: map<int, ExecutionHandle>, queryId: int,
    request1: Option<NativeRequest>, t1: Option<Throwable>,
    request2: Option<NativeRequest>, t2: Option<Throwable>,
    config: CoordinatorConfig, tryAcquire: nat -> bool)
    ensures var once := CleanupEvents(registry, queryId, request1, t1, config, tryAcquire);
            once + CleanupEvents(registry - {queryId}, queryId, request2, t2, config, tryAcquire) == once
    ensures (registry - {queryId}) - {queryId} == registry - {queryId}
  {
  }

  /** The write entry point runs its execution with no time limit and never as a user query. */
  lemma WriteEntryIsUnlimitedAndInternal(
    registry: map<int, ExecutionHandle>, globalQueryId: QueryId, queryId: int, sql: string, startTime: int,
    statement: TreeStatement, config: CoordinatorConfig, outcome: ExecutionOutcome)
    requires outcome.buildFailure.None?
    ensures var s := RunExecution(registry, globalQueryId, queryId, sql, false, startTime,
                                  TreeModelRoute(statement, LONG_MAX), config, outcome);
            s.started.value.context.timeOut == Some(LONG_MAX) && !s.started.value.context.userQuery
  {
  }

  /** A non-query is never filed, so cleaning up its id afterwards emits nothing and changes nothing. */
  lemma NonQueryCleanupIsSilent(
    registry: map<int, ExecutionHandle>, globalQueryId: QueryId, queryId: int, sql: string, userQuery: bool,
    startTime: int, route: Route, config: CoordinatorConfig, outcome: ExecutionOutcome,
    request: Option<NativeRequest>, t: Option<Throwable>, tryAcquire: nat -> bool)
    requires !outcome.isQuery && queryId !in registry
    ensures var s := RunExecution(registry, globalQueryId, queryId, sql, userQuery, startTime, route, config, outcome);
            && CleanupEvents(s.registry, queryId, request, t, config, tryAcquire) == []
            && s.registry - {queryId} == s.registry
  {
  }

  /** The registry after recordExecutionTime: the execution's total grows by `executionTime`, if there is one. */
  function RecordedTime(registry: map<int, ExecutionHandle>, queryId: int, executionTime: int)
    : (r: map<int, ExecutionHandle>)
    ensures r.Keys == registry.Keys
    ensures forall id :: id in registry && id != queryId ==> r[id] == registry[id]
  {
    if queryId in registry then
      registry[queryId := registry[queryId].(totalExecutionTimeNs := registry[queryId].totalExecutionTimeNs + executionTime)]
    else registry
  }

  /** getTotalExecutionTime: the registered execution's total, or -1 when none is registered. */
  function TotalExecutionTime(registry: map<int, ExecutionHandle>, queryId: int): (r: int)
    ensures queryId !in registry ==> r == -1
  {
    if queryId in registry then registry[queryId].totalExecutionTimeNs else -1
  }

  /** Recording adds to the total a later lookup reports, and a miss stays a miss. */
  lemma RecordedTimeIsReported(registry: map<int, ExecutionHandle>, queryId: int, executionTime: int, other: int)
    ensures TotalExecutionTime(RecordedTime(registry, queryId, executionTime), queryId) ==
              if queryId in registry then TotalExecutionTime(registry, queryId) + executionTime else -1
    ensures other != queryId ==>
              TotalExecutionTime(RecordedTime(registry, queryId, executionTime), other) == TotalExecutionTime(registry, other)
  {
  }

  /** Every entry is a query filed under its own id, with a global id the generator has already handed out. */
  ghost predicate WellFiled(registry: map<int, ExecutionHandle>, nextQueryNumber: nat)
  {
    forall id :: id in registry ==>
      && registry[id].isQuery
      && registry[id].context.localQueryId == id
      && registry[id].context.globalQueryId.counter < nextQueryNumber
  }

  class Coordinator {
    const config: CoordinatorConfig
    var queryExecutionMap: map<int, ExecutionHandle>
    /** Stand-in for QueryIdGenerator: the counter of the next id it hands out. */
    var nextQueryNumber: nat
    ghost var trace: seq<Event>

    ghost predicate Valid()
      reads this
    {
      WellFiled(queryExecutionMap, nextQueryNumber)
    }

    constructor (config: CoordinatorConfig)
      ensures Valid()
      ensures this.config == config && queryExecutionMap == map[] && nextQueryNumber == 0 && trace == []
    {
      this.config := config;
      queryExecutionMap := map[];
      nextQueryNumber := 0;
      trace := [];
    }

    /** createQueryId: an id no registered execution carries. */
    method CreateQueryId() returns (id: QueryId)
      requires Valid()
      modifies this
      ensures Valid()
      ensures id == QueryId(config.dataNodeId, old(nextQueryNumber)) && nextQueryNumber == old(nextQueryNumber) + 1
      ensures forall q :: q in queryExecutionMap ==> queryExecutionMap[q].context.globalQueryId != id
      ensures queryExecutionMap == old(queryExecutionMap) && trace == old(trace)
    {
      id := QueryId(config.dataNodeId, nextQueryNumber);
      nextQueryNumber := nextQueryNumber + 1;
    }

    /** execution: build, file if a query, unlimit if not, start, flag a retry, and always release. */
    method Execution(queryId: int, sql: string, userQuery: bool, startTime: int, route: Route, outcome: ExecutionOutcome)
      returns (r: Result<ExecutionResult, Throwable>)
      requires Valid()
      modifies this
      ensures Valid()
      ensures nextQueryNumber == old(nextQueryNumber) + 1
      ensures var step := RunExecution(old(queryExecutionMap), QueryId(config.dataNodeId, old(nextQueryNumber)),
                                       queryId, sql, userQuery, startTime, route, config, outcome);
              && queryExecutionMap == step.registry && trace == old(trace) + step.events && r == step.result
    {
      var globalQueryId := CreateQueryId();
      var releases := [FrontEndMemoryReleased(globalQueryId), SchemaReadLockReleased(globalQueryId)];
      var queryContext := InitialContext(sql, globalQueryId, queryId, userQuery);
      if outcome.buildFailure.Some? {
        trace := trace + releases;
        return Failure(outcome.buildFailure.value);
      }
      var built := BuildExecution(route, queryContext, startTime, config);
      queryContext := built.0;
      if outcome.isQuery {
        queryExecutionMap := queryExecutionMap[queryId := ExecutionHandle(built.1, queryContext, true, 0)];
      } else {
        // writes are not time-limited
        queryContext := queryContext.(timeOut := Some(LONG_MAX));
      }
      if outcome.startFailure.Some? {
        trace := trace + releases;
        return Failure(outcome.startFailure.value);
      }
      var status := outcome.status;
      if !outcome.isQuery && status.Some? && NeedRetry(status.value, config) {
        status := Some(status.value.(needRetry := true));
      }
      trace := trace + releases;
      return Success(ExecutionResult(globalQueryId, status));
    }

    /** executeForTreeModel with an explicit timeout and user flag. */
    method ExecuteForTreeModel(
      statement: TreeStatement, queryId: int, sql: string, timeOut: int, userQuery: bool,
      startTime: int, outcome: ExecutionOutcome)
      returns (r: Result<ExecutionResult, Throwable>)
      requires Valid()
      modifies this
      ensures Valid()
      ensures nextQueryNumber == old(nextQueryNumber) + 1
      ensures var step := RunExecution(old(queryExecutionMap), QueryId(config.dataNodeId, old(nextQueryNumber)),
                                       queryId, sql, userQuery, startTime, TreeModelRoute(statement, timeOut), config, outcome);
              && queryExecutionMap == step.registry && trace == old(trace) + step.events && r == step.result
    {
      r := Execution(queryId, sql, userQuery, startTime, TreeModelRoute(statement, timeOut), outcome);
    }

    /** The write-path executeForTreeModel: no time limit, not a user query. */
    method ExecuteWriteForTreeModel(
      statement: TreeStatement, queryId: int, sql: string, startTime: int, outcome: ExecutionOutcome)
      returns (r: Result<ExecutionResult, Throwable>)
      requires Valid()
      modifies this
      ensures Valid()
      ensures nextQueryNumber == old(nextQueryNumber) + 1
      ensures var step := RunExecution(old(queryExecutionMap), QueryId(config.dataNodeId, old(nextQueryNumber)),
                                       queryId, sql, false, startTime, TreeModelRoute(statement, LONG_MAX), config, outcome);
              && queryExecutionMap == step.registry && trace == old(trace) + step.events && r == step.result
    {
      r := ExecuteForTreeModel(statement, queryId, sql, LONG_MAX, false, startTime, outcome);
    }

    /** executeForTableModel for a relational statement. */
    method ExecuteForTableModel(
      statement: TableStatement, queryId: int, sql: string, timeOut: int, userQuery: bool,
      startTime: int, outcome: ExecutionOutcome)
      returns (r: Result<ExecutionResult, Throwable>)
      requires Valid()
      modifies this
      ensures Valid()
      ensures nextQueryNumber == old(nextQueryNumber) + 1
      ensures var step := RunExecution(old(queryExecutionMap), QueryId(config.dataNodeId, old(nextQueryNumber)),
                                       queryId, sql, userQuery, startTime, TableModelRoute(statement, timeOut), config, outcome);
              && queryExecutionMap == step.registry && trace == old(trace) + step.events && r == step.result
    {
      r := Execution(queryId, sql, userQuery, startTime, TableModelRoute(statement, timeOut), outcome);
    }

    /** executeForTableModel for a tree-model statement: never a user query. */
    method ExecuteTreeStatementForTableModel(
      statement: TreeStatement, queryId: int, sql: string, timeOut: int, startTime: int, outcome: ExecutionOutcome)
      returns (r: Result<ExecutionResult, Throwable>)
      requires Valid()
      modifies this
      ensures Valid()
      ensures nextQueryNumber == old(nextQueryNumber) + 1
      ensures var step := RunExecution(old(queryExecutionMap), QueryId(config.dataNodeId, old(nextQueryNumber)),
                                       queryId, sql, false, startTime, ConvertedTreeStatementRoute(statement, timeOut),
                                       config, outcome);
              && queryExecutionMap == step.registry && trace == old(trace) + step.events && r == step.result
    {
      r := Execution(queryId, sql, false, startTime, ConvertedTreeStatementRoute(statement, timeOut), outcome);
    }

    function GetQueryExecution(queryId: int): (r: Option<ExecutionHandle>)
      reads this
      ensures r.Some? <==> queryId in queryExecutionMap
      ensures r.Some? ==> r.value == queryExecutionMap[queryId]
    {
      if queryId in queryExecutionMap then Some(queryExecutionMap[queryId]) else None
    }

    /** getAllQueryExecutions: every registered execution, each of them the query filed under its own id. */
    function AllQueryExecutions(): (r: set<ExecutionHandle>)
      reads this
      requires Valid()
      ensures forall id :: id in queryExecutionMap ==> queryExecutionMap[id] in r
      ensures forall h :: h in r ==>
                h.isQuery && h.context.localQueryId in queryExecutionMap
                && queryExecutionMap[h.context.localQueryId] == h
    {
      set id | id in queryExecutionMap :: queryExecutionMap[id]
    }

    function QueryExecutionMapSize(): (n: nat)
      reads this
      ensures n == |queryExecutionMap.Keys|
    {
      |queryExecutionMap|
    }

    /** cleanupQueryExecution(queryId, request, t): stop, unregister, then log. */
    method CleanupQueryExecution(
      queryId: int, request: Option<NativeRequest>, t: Option<Throwable>, tryAcquire: nat -> bool)
      requires Valid()
      modifies this
      ensures Valid()
      ensures queryExecutionMap == old(queryExecutionMap) - {queryId}
      ensures trace == old(trace) + CleanupEvents(old(queryExecutionMap), queryId, request, t, config, tryAcquire)
      ensures nextQueryNumber == old(nextQueryNumber)
    {
      var queryExecution := GetQueryExecution(queryId);
      if queryExecution.Some? {
        var execution := queryExecution.value;
        trace := trace + [StoppedAndCleanedUp(execution.context.globalQueryId, t)];
        queryExecutionMap := queryExecutionMap - {queryId};
        if execution.isQuery && execution.context.userQuery {
          var costTime := execution.totalExecutionTimeNs;
          if MillisOfNanos(costTime) >= config.slowQueryThreshold {
            trace := trace + [SlowQueryLogged(MillisOfNanos(costTime), ContentOfRequest(request, execution))];
          }
          // only successful queries are sampled
          if t.None? && config.enableQuerySampling {
            var queryRequest := ContentOfRequest(request, execution);
            if config.querySamplingHasRateLimit {
              if tryAcquire(|queryRequest|) {
                trace := trace + [QuerySampled(queryRequest)];
              }
            } else {
              trace := trace + [QuerySampled(queryRequest)];
            }
          }
        }
      }
    }

    /** cleanupQueryExecution(queryId): the same with no request and no cause. */
    method CleanupQueryExecutionById(queryId: int, tryAcquire: nat -> bool)
      requires Valid()
      modifies this
      ensures Valid()
      ensures queryExecutionMap == old(queryExecutionMap) - {queryId}
      ensures trace == old(trace) + CleanupEvents(old(queryExecutionMap), queryId, None, None, config, tryAcquire)
      ensures nextQueryNumber == old(nextQueryNumber)
    {
      CleanupQueryExecution(queryId, None, None, tryAcquire);
    }

    method RecordExecutionTime(queryId: int, executionTime: int)
      requires Valid()
      modifies this
      ensures Valid()
      ensures queryExecutionMap == RecordedTime(old(queryExecutionMap), queryId, executionTime)
      ensures nextQueryNumber == old(nextQueryNumber) && trace == old(trace)
    {
      var queryExecution := GetQueryExecution(queryId);
      if queryExecution.Some? {
        var execution := queryExecution.value;
        queryExecutionMap :=
          queryExecutionMap[queryId := execution.(totalExecutionTimeNs := execution.totalExecutionTimeNs + executionTime)];
      }
    }

    function GetTotalExecutionTime(queryId: int): (r: int)
      reads this
      ensures r == TotalExecutionTime(queryExecutionMap, queryId)
    {
      var queryExecution := GetQueryExecution(queryId);
      if queryExecution.Some? then queryExecution.value.totalExecutionTimeNs else -1
    }
  }
}
