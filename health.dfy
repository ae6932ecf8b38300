/** The health report: the database, Redis and Flow checks and the overall status derived from
    them. What each probe observes (a pool, a connection, an exception) is a parameter. */
module Health {
  import opened Wrappers

  /** What the database check observes. */
  datatype DatabaseProbe = NoPool | Connected(poolSize: string) | DatabaseFailed(error: string)

  /** What the Redis check observes. */
  datatype RedisProbe = QueueStats(stats: map<string, int>) | RedisFailed(error: string)

  /** The Flow service object: `accessNode` is `None` when the object has no such attribute. */
  datatype FlowService = FlowService(network: string, contractAddresses: map<string, Option<string>>,
                                     accessNode: Option<string>)

  /** One service's entry in the report. */
  datatype ServiceReport = ServiceReport(status: string, details: map<string, string>)

  datatype RedisReport = RedisReport(status: string, queued: int, processing: int, error: Option<string>)

  datatype FlowReport = FlowReport(status: string, network: string, accessNode: Option<string>,
                                   contracts: map<string, string>, error: Option<string>)

  datatype HealthReport = HealthReport(status: string, database: ServiceReport, redis: RedisReport, flow: FlowReport)

  const PoolMissing := "Database pool not initialized"
  const MissingAccessNode := "'FlowService' object has no attribute 'access_node'"

  /** `check_database`. */
  function CheckDatabase(probe: DatabaseProbe): (r: ServiceReport)
    ensures r.status == "down" <==> probe.NoPool? || probe.DatabaseFailed?
    ensures r.status == "up" <==> probe.Connected?
  {
    match probe
    case NoPool => ServiceReport("down", map["message" := PoolMissing])
    case Connected(size) => ServiceReport("up", map["pool_size" := size])
    case DatabaseFailed(e) => ServiceReport("down", map["error" := e])
  }

  /** `stats.get(key, 0)`. */
  function StatOr0(stats: map<string, int>, key: string): int
  {
    if key in stats then stats[key] else 0
  }

  /** `check_redis`. */
  function CheckRedis(probe: RedisProbe): (r: RedisReport)
    ensures r.status == "down" <==> probe.RedisFailed?
    ensures r.status == "up" <==> probe.QueueStats?
    ensures probe.QueueStats? ==> r.queued == StatOr0(probe.stats, "queued") && r.processing == StatOr0(probe.stats, "processing")
    ensures probe.QueueStats? && "queued" !in probe.stats ==> r.queued == 0
  {
    match probe
    case QueueStats(stats) => RedisReport("up", StatOr0(stats, "queued"), StatOr0(stats, "processing"), None)
    case RedisFailed(e) => RedisReport("down", 0, 0, Some(e))
  }

  /** `any(flow_service.contract_addresses.values())`: some address is set and non-empty. */
  predicate AnyContractSet(addresses: map<string, Option<string>>)
  {
    exists name :: name in addresses && addresses[name].Some? && addresses[name].value != ""
  }

  /** The per-contract entry: "configured" for a set address, "missing" otherwise. */
  function ContractStatuses(addresses: map<string, Option<string>>): (r: map<string, string>)
    ensures r.Keys == addresses.Keys
    ensures forall name :: name in r ==> (r[name] == "configured" <==> addresses[name].Some? && addresses[name].value != "")
    ensures forall name :: name in r ==> (r[name] == "missing" <==> !(addresses[name].Some? && addresses[name].value != ""))
  {
    map name | name in addresses :: if addresses[name].Some? && addresses[name].value != "" then "configured" else "missing"
  }

  /** `check_flow_service` as written: building the report reads `flow_service.access_node`, and
      reading an attribute the object lacks raises, which the check reports as "error". */
  function CheckFlowServiceAsWritten(fs: FlowService): (r: FlowReport)
    ensures fs.accessNode.None? ==> r.status == "error"
    ensures fs.accessNode.Some? ==> (r.status == "configured" <==> AnyContractSet(fs.contractAddresses))
    ensures fs.accessNode.Some? ==> (r.status == "unconfigured" <==> !AnyContractSet(fs.contractAddresses))
  {
    if fs.accessNode.None? then FlowReport("error", "", None, map[], Some(MissingAccessNode))
    else
      FlowReport(if AnyContractSet(fs.contractAddresses) then "configured" else "unconfigured",
                 fs.network, fs.accessNode, ContractStatuses(fs.contractAddresses), None)
  }

  /** `check_flow_service` as evidently intended: the access node is reported when the service has
      one, and the status follows the contract addresses alone. */
  function CheckFlowService(fs: FlowService): (r: FlowReport)
    ensures r.status == "configured" <==> AnyContractSet(fs.contractAddresses)
    ensures r.status == "unconfigured" <==> !AnyContractSet(fs.contractAddresses)
    ensures r.contracts.Keys == fs.contractAddresses.Keys && r.accessNode == fs.accessNode
  {
    FlowReport(if AnyContractSet(fs.contractAddresses) then "configured" else "unconfigured",
               fs.network, fs.accessNode, ContractStatuses(fs.contractAddresses), None)
  }

  /** The Flow service as the repository defines it: testnet, three contracts with no address
      yet, and no `access_node` attribute. */
  function DeployedFlowService(): FlowService
  {
    FlowService("testnet", map["ARAssetNFT" := None, "CollaborationHub" := None, "ForteAutomation" := None], None)
  }

  /** The overall status: unhealthy when the database or Redis is down, otherwise degraded when
      Flow is unconfigured, otherwise healthy. */
  function OverallStatus(database: string, redis: string, flow: string): (r: string)
    ensures r == "unhealthy" <==> database == "down" || redis == "down"
    ensures r == "degraded" <==> database != "down" && redis != "down" && flow == "unconfigured"
    ensures r == "healthy" <==> database != "down" && redis != "down" && flow != "unconfigured"
  {
    if database == "down" || redis == "down" then "unhealthy"
    else if flow == "unconfigured" then "degraded"
    else "healthy"
  }

  /** A Flow check that failed counts as healthy. */
  lemma FlowErrorIsHealthy(database: string, redis: string)
    requires database != "down" && redis != "down"
    ensures OverallStatus(database, redis, "error") == "healthy"
  {
  }

  /** `get_full_health_status`, with the corrected Flow check. */
  function FullHealthStatus(db: DatabaseProbe, redis: RedisProbe, fs: FlowService): (r: HealthReport)
    ensures r.status == "unhealthy" <==> db.NoPool? || db.DatabaseFailed? || redis.RedisFailed?
    ensures r.status == "degraded" <==> db.Connected? && redis.QueueStats? && !AnyContractSet(fs.contractAddresses)
  {
    var database := CheckDatabase(db);
    var redisReport := CheckRedis(redis);
    var flow := CheckFlowService(fs);
    HealthReport(OverallStatus(database.status, redisReport.status, flow.status), database, redisReport, flow)
  }

  /** As written, the repository's Flow service always makes the Flow check fail, so the overall
      status is never "degraded", whatever the database and Redis report. */
  lemma DegradedUnreachableAsWritten(db: DatabaseProbe, redis: RedisProbe)
    ensures CheckFlowServiceAsWritten(DeployedFlowService()).status == "error"
    ensures OverallStatus(CheckDatabase(db).status, CheckRedis(redis).status,
                          CheckFlowServiceAsWritten(DeployedFlowService()).status) != "degraded"
  {
  }

  /** With the corrected check, the repository's Flow service has no contract address set, so a
      system whose database and Redis are up is "degraded". */
  lemma DegradedReachable(size: string, stats: map<string, int>)
    ensures CheckFlowService(DeployedFlowService()).status == "unconfigured"
    ensures FullHealthStatus(Connected(size), QueueStats(stats), DeployedFlowService()).status == "degraded"
  {
    var addresses := DeployedFlowService().contractAddresses;
    assert forall name :: name in addresses ==> addresses[name].None?;
  }
}
