/**
 * The `dkron_job` resource schema and the records that cross its boundary:
 * the configuration Terraform hands to the provider, and the job body the
 * scheduling service receives and returns (dkron/resource_job.go:16-134).
 */
module JobSchema {
  import opened Wrappers

  /** A scalar as the Terraform SDK hands it out behind Go's `any`. */
  datatype Value = Str(s: string) | Int(i: int) | Bool(b: bool)

  /** A processor configuration as the service stores it: `map[string]string`. */
  type Processor = map<string, string>

  /** The attributes of a `dkron_job` block, as `d.Get` reads them. */
  datatype Config = Config(
    name: string,
    timezone: string,
    displayname: string,
    schedule: string,
    owner: string,
    ownerEmail: string,
    disabled: bool,
    tags: map<string, Value>,
    retries: int,
    parentJob: string,
    concurrency: string,
    executor: string,
    executorConfig: map<string, Value>,
    metadata: map<string, Value>,
    processors: seq<map<string, Value>>)

  /**
   * The job body exchanged with the service; `successCount` and `errorCount`
   * are int32 there. `P` is the type of a processor value: a `Processor` in a
   * job that is sent, an `Option<Processor>` in a job that is decoded, where
   * `None` is a JSON `null`, which Go decodes as a nil map.
   */
  datatype JobOf<P> = Job(
    name: string,
    timezone: string,
    schedule: string,
    owner: string,
    ownerEmail: string,
    successCount: int,
    errorCount: int,
    disabled: bool,
    tags: map<string, string>,
    retries: int,
    dependentJobs: seq<string>,
    parentJob: string,
    concurrency: string,
    executor: string,
    executorConfig: map<string, string>,
    metadata: map<string, string>,
    displayname: string,
    processors: map<string, P>,
    ephemeral: bool)

  type Job = JobOf<Processor>

  type DecodedJob = JobOf<Option<Processor>>

  /** The executor kinds the `executor` attribute accepts. */
  datatype Executor = GcpPubSub | Grpc | Http | Kafka | Nats | RabbitMq | Shell

  const EXECUTOR_NAMES: set<string> := {"gcppubsub", "grpc", "http", "kafka", "nats", "rabbitmq", "shell"}

  function ExecutorName(e: Executor): (s: string)
    ensures s in EXECUTOR_NAMES
  {
    match e
    case GcpPubSub => "gcppubsub"
    case Grpc => "grpc"
    case Http => "http"
    case Kafka => "kafka"
    case Nats => "nats"
    case RabbitMq => "rabbitmq"
    case Shell => "shell"
  }

  /** Case-sensitive membership test of the `executor` validator. */
  function ParseExecutor(s: string): (r: Option<Executor>)
    ensures r.Some? <==> s in EXECUTOR_NAMES
    ensures r.Some? ==> ExecutorName(r.value) == s
  {
    match s
    case "gcppubsub" => Some(GcpPubSub)
    case "grpc" => Some(Grpc)
    case "http" => Some(Http)
    case "kafka" => Some(Kafka)
    case "nats" => Some(Nats)
    case "rabbitmq" => Some(RabbitMq)
    case "shell" => Some(Shell)
    case _ => None
  }

  lemma ExecutorRoundTrip(e: Executor)
    ensures ParseExecutor(ExecutorName(e)) == Some(e)
  {
  }

  /** The processor kinds a processor's `type` attribute accepts. */
  datatype ProcessorKind = Files | Log | Syslog

  const PROCESSOR_KIND_NAMES: set<string> := {"files", "log", "syslog"}

  function ProcessorKindName(k: ProcessorKind): (s: string)
    ensures s in PROCESSOR_KIND_NAMES
  {
    match k
    case Files => "files"
    case Log => "log"
    case Syslog => "syslog"
  }

  /** Case-sensitive membership test of the processor `type` validator. */
  function ParseProcessorKind(s: string): (r: Option<ProcessorKind>)
    ensures r.Some? <==> s in PROCESSOR_KIND_NAMES
    ensures r.Some? ==> ProcessorKindName(r.value) == s
  {
    match s
    case "files" => Some(Files)
    case "log" => Some(Log)
    case "syslog" => Some(Syslog)
    case _ => None
  }

  lemma ProcessorKindRoundTrip(k: ProcessorKind)
    ensures ParseProcessorKind(ProcessorKindName(k)) == Some(k)
  {
  }

  lemma ProcessorKindCount()
    ensures |PROCESSOR_KIND_NAMES| == 3
  {
  }
}
