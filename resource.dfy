/**
 * The create, read, update and delete operations of the `dkron_job` resource
 * (dkron/resource_job.go:144-287). The scheduling service is an abstract job
 * table that records every request it receives; what it answers is the
 * `Reply` each operation is given.
 */
module JobResource {
  import opened JobSchema
  import opened MapConversion
  import opened ProcessorShape

  /** What an HTTP call yields: a transport failure, or a status code with the body text. */
  datatype Reply = TransportError(message: string) | Response(status: int, body: string)

  /** What `json.Unmarshal` makes of a response body. */
  datatype Decoded = Decoded(job: DecodedJob) | Malformed(message: string)

  /**
   * What an operation returns to Terraform; `Panic` is a Go run-time panic: a
   * failed type assertion, or a write into a nil map.
   */
  datatype Diagnostics = Clean | Error(message: string) | Panic

  datatype Request = Upsert(body: Job) | Show(name: string) | Remove(name: string)

  /** The service acts on a request exactly when it answers with a 2xx status. */
  predicate Succeeded(reply: Reply) {
    reply.Response? && 200 <= reply.status < 300
  }

  function Upserted(jobs: map<string, Job>, body: Job, reply: Reply): (r: map<string, Job>)
    ensures Succeeded(reply) ==> body.name in r && r[body.name] == body
    ensures !Succeeded(reply) ==> r == jobs
    ensures forall n | n in jobs && n != body.name :: n in r && r[n] == jobs[n]
    ensures r.Keys <= jobs.Keys + {body.name}
  {
    if Succeeded(reply) then jobs[body.name := body] else jobs
  }

  function Removed(jobs: map<string, Job>, name: string, reply: Reply): (r: map<string, Job>)
    ensures Succeeded(reply) ==> name !in r
    ensures !Succeeded(reply) ==> r == jobs
    ensures forall n | n in jobs && n != name :: n in r && r[n] == jobs[n]
    ensures r.Keys <= jobs.Keys
  {
    if Succeeded(reply) then jobs - {name} else jobs
  }

  /** The remote scheduler: its jobs by name, and the requests sent to it so far. */
  class JobService {
    var jobs: map<string, Job>
    var requests: seq<Request>

    constructor (jobs: map<string, Job>)
      ensures this.jobs == jobs && requests == []
    {
      this.jobs := jobs;
      requests := [];
    }

    /** `CreateOrUpdateJobWithBody`, answered with `reply`. */
    method CreateOrUpdateJob(body: Job, reply: Reply)
      modifies this
      ensures requests == old(requests) + [Upsert(body)]
      ensures jobs == Upserted(old(jobs), body, reply)
    {
      requests := requests + [Upsert(body)];
      jobs := Upserted(jobs, body, reply);
    }

    /** `ShowJobByName`; reading changes no job. */
    method ShowJobByName(name: string)
      modifies this`requests
      ensures requests == old(requests) + [Show(name)]
    {
      requests := requests + [Show(name)];
    }

    /** `DeleteJob`, answered with `reply`. */
    method DeleteJob(name: string, reply: Reply)
      modifies this
      ensures requests == old(requests) + [Remove(name)]
      ensures jobs == Removed(old(jobs), name, reply)
    {
      requests := requests + [Remove(name)];
      jobs := Removed(jobs, name, reply);
    }
  }

  /** Terraform's record of one resource instance. */
  class ResourceData {
    /** `d.Id()`: the empty string until `d.SetId`. */
    var id: string
    /** What `d.Get` reads and `d.Set` writes. */
    var config: Config
    /** The `name` of the prior state: the old half of `d.GetChange("name")`. */
    const priorName: string

    constructor (id: string, config: Config, priorName: string)
      ensures this.id == id && this.config == config && this.priorName == priorName
    {
      this.id := id;
      this.config := config;
      this.priorName := priorName;
    }
  }

  /** Every `convertMap` of the create operation meets only strings. */
  predicate Convertible(c: Config) {
    AllStrings(c.tags) && AllStrings(c.executorConfig) && AllStrings(c.metadata) && AllConvertible(c.processors)
  }

  /** The request body assembled from a configuration and its converted maps. */
  function BodyOf(c: Config, tags: map<string, string>, executorConfig: map<string, string>,
                  metadata: map<string, string>, processors: map<string, Processor>): Job
  {
    Job(name := c.name, timezone := c.timezone, schedule := c.schedule, owner := c.owner,
        ownerEmail := c.ownerEmail, successCount := 0, errorCount := 0, disabled := c.disabled,
        tags := tags, retries := c.retries, dependentJobs := [], parentJob := c.parentJob,
        concurrency := c.concurrency, executor := c.executor, executorConfig := executorConfig,
        metadata := metadata, displayname := c.displayname, processors := processors,
        ephemeral := false)
  }

  /** The job a create operation sends for configuration `c`. */
  function JobBody(c: Config): Job
    requires Convertible(c)
  {
    BodyOf(c, Strings(c.tags), Strings(c.executorConfig), Strings(c.metadata),
           Reshaped(StringsEach(c.processors)))
  }

  /** What a create operation returns: success exactly on status 201. */
  function CreateOutcome(c: Config, reply: Reply): (r: Diagnostics)
    ensures r == Panic <==> !Convertible(c)
    ensures r == Clean <==> Convertible(c) && reply.Response? && reply.status == 201
    ensures r.Error? && reply.Response? ==> r.message == reply.body
    ensures r.Error? && reply.TransportError? ==> r.message == reply.message
  {
    if !Convertible(c) then Panic
    else match reply
      case TransportError(message) => Error(message)
      case Response(status, text) => if status == 201 then Clean else Error(text)
  }

  /**
   * `resourceDkronJobCreate`: convert and reshape the configuration, send it,
   * and take the job name as identity only on a 201.
   */
  method Create(d: ResourceData, svc: JobService, reply: Reply) returns (diags: Diagnostics)
    modifies d`id, svc
    ensures diags == CreateOutcome(d.config, reply)
    ensures d.id == if diags == Clean then d.config.name else old(d.id)
    ensures svc.requests == old(svc.requests) + if Convertible(d.config) then [Upsert(JobBody(d.config))] else []
    ensures svc.jobs == if Convertible(d.config) then Upserted(old(svc.jobs), JobBody(d.config), reply) else old(svc.jobs)
  {
    var c := d.config;
    var tags := ConvertMap(c.tags);
    if tags.None? {
      return Panic;
    }
    var executorConfig := ConvertMap(c.executorConfig);
    if executorConfig.None? {
      return Panic;
    }
    var metadata := ConvertMap(c.metadata);
    if metadata.None? {
      return Panic;
    }
    var processors := ReshapeProcessors(c.processors);
    if processors.None? {
      return Panic;
    }
    var body := BodyOf(c, tags.value, executorConfig.value, metadata.value, processors.value);
    svc.CreateOrUpdateJob(body, reply);
    match reply {
      case TransportError(message) =>
        return Error(message);
      case Response(status, text) =>
        if status != 201 {
          return Error(text);
        }
    }
    d.id := body.name;
    diags := Clean;
  }

  /** The configuration a successful read writes back, with `processors` as reconstructed. */
  function ConfigOf<P>(job: JobOf<P>, processors: seq<map<string, Value>>): Config {
    Config(name := job.name, timezone := job.timezone, displayname := job.displayname,
           schedule := job.schedule, owner := job.owner, ownerEmail := job.ownerEmail,
           disabled := job.disabled, tags := Lift(job.tags), retries := job.retries,
           parentJob := job.parentJob, concurrency := job.concurrency, executor := job.executor,
           executorConfig := Lift(job.executorConfig), metadata := Lift(job.metadata),
           processors := processors)
  }

  /**
   * What a read operation returns: success exactly on status 200 with a body
   * that decodes and has no `null` processor.
   */
  function ReadOutcome(reply: Reply, decoded: Decoded): (r: Diagnostics)
    ensures r == Clean <==>
      reply.Response? && reply.status == 200 && decoded.Decoded? && NoNil(decoded.job.processors)
    ensures r == Panic <==>
      reply.Response? && reply.status == 200 && decoded.Decoded? && !NoNil(decoded.job.processors)
    ensures reply.Response? && reply.status == 200 && decoded.Malformed? ==> r == Error(decoded.message)
    ensures r.Error? && reply.Response? && reply.status != 200 ==> r.message == reply.body
    ensures r.Error? && reply.TransportError? ==> r.message == reply.message
  {
    match reply
    case TransportError(message) => Error(message)
    case Response(status, text) =>
      if status != 200 then Error(text)
      else match decoded
        case Malformed(message) => Error(message)
        case Decoded(job) => if NoNil(job.processors) then Clean else Panic
  }

  /**
   * `resourceDkronJobRead`: fetch the job named by the identity and, on
   * success, overwrite every attribute with what the service holds.
   * `decoded` is what the reply body unmarshals to. The scalar and map
   * attributes are written before the processors are rebuilt, so a panic in
   * that loop leaves them written and the processors as they were.
   */
  method Read(d: ResourceData, svc: JobService, reply: Reply, decoded: Decoded) returns (diags: Diagnostics)
    modifies d`config, svc`requests
    ensures svc.requests == old(svc.requests) + [Show(d.id)]
    ensures diags == ReadOutcome(reply, decoded)
    ensures diags.Error? ==> d.config == old(d.config)
    ensures diags == Panic ==> d.config == ConfigOf(decoded.job, old(d.config).processors)
    ensures diags == Clean ==> d.config == ConfigOf(decoded.job, d.config.processors)
    ensures diags == Clean ==> AllConvertible(d.config.processors)
    ensures diags == Clean ==>
      multiset(StringsEach(d.config.processors)) == multiset(RestoredEntries(Present(decoded.job.processors)))
  {
    svc.ShowJobByName(d.id);
    match reply {
      case TransportError(message) =>
        return Error(message);
      case Response(status, text) =>
        if status != 200 {
          return Error(text);
        }
    }
    match decoded {
      case Malformed(message) =>
        return Error(message);
      case Decoded(job) =>
        d.config := ConfigOf(job, d.config.processors);
        var processors := RestoreProcessors(job.processors);
        if processors.None? {
          return Panic;
        }
        d.config := ConfigOf(job, LiftEach(processors.value));
        diags := Clean;
    }
  }

  /**
   * `resourceDkronJobDelete`: only a transport failure is reported; the
   * status of the reply is not looked at.
   */
  method Delete(d: ResourceData, svc: JobService, reply: Reply) returns (diags: Diagnostics)
    modifies svc
    ensures diags == if reply.TransportError? then Error(reply.message) else Clean
    ensures svc.requests == old(svc.requests) + [Remove(d.id)]
    ensures svc.jobs == Removed(old(svc.jobs), d.id, reply)
  {
    svc.DeleteJob(d.id, reply);
    if reply.TransportError? {
      return Error(reply.message);
    }
    diags := Clean;
  }

  /**
   * `resourceDkronJobUpdate`: a changed name first deletes the job under the
   * old identity, whose outcome is ignored; the create operation always runs
   * and its outcome is the update's.
   */
  method Update(d: ResourceData, svc: JobService, deleteReply: Reply, createReply: Reply) returns (diags: Diagnostics)
    modifies d`id, svc
    ensures diags == CreateOutcome(d.config, createReply)
    ensures d.id == if diags == Clean then d.config.name else old(d.id)
    ensures svc.requests == old(svc.requests)
      + (if d.priorName != d.config.name then [Remove(old(d.id))] else [])
      + (if Convertible(d.config) then [Upsert(JobBody(d.config))] else [])
    ensures var afterDelete := if d.priorName != d.config.name then Removed(old(svc.jobs), old(d.id), deleteReply) else old(svc.jobs);
      svc.jobs == if Convertible(d.config) then Upserted(afterDelete, JobBody(d.config), createReply) else afterDelete
    ensures diags == Clean ==> d.config.name in svc.jobs && svc.jobs[d.config.name] == JobBody(d.config)
  {
    if d.priorName != d.config.name {
      var _ := Delete(d, svc, deleteReply);
    }
    diags := Create(d, svc, createReply);
  }

  /**
   * Create then read: with every configured processor typed and no type
   * repeated, reading back what was sent restores every attribute, and the
   * processors come back, as a multiset, with empty `forward`/`log_dir` removed.
   */
  lemma CreateReadRoundTrip(c: Config, processors: seq<map<string, Value>>)
    requires Convertible(c) && Typed(StringsEach(c.processors)) && DistinctTypes(StringsEach(c.processors))
    requires AllConvertible(processors)
    requires multiset(StringsEach(processors)) == multiset(RestoredEntries(JobBody(c).processors))
    ensures ConfigOf(JobBody(c), processors) == c.(processors := processors)
    ensures multiset(StringsEach(processors)) == multiset(Normalized(StringsEach(c.processors)))
  {
    LiftStrings(c.tags);
    LiftStrings(c.executorConfig);
    LiftStrings(c.metadata);
    RoundTrip(StringsEach(c.processors));
  }
}
