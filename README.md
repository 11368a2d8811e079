# dkron_job resource, modelled in Dafny

This project models the `dkron_job` resource of a Terraform provider for the
Dkron job scheduler. The resource turns a `dkron_job` configuration block into
calls on Dkron's REST API, and turns the job the API returns back into
configuration. The logic that matters is the reshaping of the data:

- `convertMap` copies the SDK's `map[string]any` into a `map[string]string`.
- Create turns the configured list of processor records into the map the
  service expects. The map is keyed by each record's `type`. The `type` key is
  removed from each value, and an empty `forward` or `log_dir` is dropped.
- Read turns that map back into a list. It writes each key back into its value
  under `type`.
- Update deletes the job under its old identity when `name` has changed. Create
  always follows.

Files and modules:

- `wrappers.dfy` (`Wrappers`): `Option`.
- `schema.dfy` (`JobSchema`): the configuration record (`Config`), the service's
  job body (`Job`), dynamic scalar values (`Value`), and the two enumerations the
  schema validates (executors and processor kinds).
- `convert.dfy` (`MapConversion`): `convertMap` as a loop over the map's keys.
- `processors.dfy` (`ProcessorShape`): the outbound loop (list to map) and the
  inbound loop (map to list). They are proved against the specification
  functions `Outbound`, `Reshaped`, `Inbound` and `RestoredEntries`, and the
  lemmas about those functions state the keys, the last-writer-wins rule, the
  dropped fields and the round trip.
- `resource.dfy` (`JobResource`): Create, Read, Update and Delete as methods
  over two classes. `ResourceData` is Terraform's record of the resource: its
  identity, its attributes and the prior `name`. `JobService` is the scheduler,
  seen as a table of jobs by name plus the log of requests sent to it.

A failed `v.(string)` type assertion panics in Go, and so does Read's write of
`type` into a processor that the body gave as JSON `null` (Go decodes it as a
nil map). Here each panic is an explicit outcome: `None` of `ConvertMap`,
`ReshapeProcessors` and `RestoreProcessors`, and `Panic` of Create, Read and
Update. A job that is sent has `Processor` values (`Job`); a decoded job has
`Option<Processor>` values, where `None` is a `null` (`DecodedJob`). The network is a parameter of each operation: a `Reply` is either
a transport failure or a status code with the body text. Read is also given
what `json.Unmarshal` makes of the reply body (`Decoded`). The service table
changes exactly when the reply carries a 2xx status. This is an assumption
about the service, not something the provider checks.

In two places the code does less than a reader of the resource's description
might expect. The model follows the code:

- Delete reports an error only for a transport failure. The reply's status
  is never looked at, so a 404 or a 500 still counts as a successful delete
  (dkron/resource_job.go:282-286).
- Read gives back the configured processors only when no two of them share a
  type. Create keeps only the last record of each type
  (`ProcessorShape.ReshapedLastWins`), so the round trip is proved under that
  condition (`ProcessorShape.RoundTrip`, `JobResource.CreateReadRoundTrip`).

## Model

| member | source | states |
|---|---|---|
| `JobSchema.ParseExecutor` | dkron/resource_job.go:70-74 | A string is accepted as an executor exactly when it is one of the seven names, compared case-sensitively, and the parsed kind's name is that string |
| `JobSchema.ExecutorRoundTrip` | dkron/resource_job.go:73 | Every executor kind's name parses back to that kind |
| `JobSchema.ParseProcessorKind` | dkron/resource_job.go:92-96 | A processor `type` is accepted exactly when it is `files`, `log` or `syslog`, and the parsed kind's name is that string |
| `JobSchema.ProcessorKindRoundTrip` | dkron/resource_job.go:95 | Every processor kind's name parses back to that kind |
| `MapConversion.ConvertMap` | dkron/resource_job.go:136-142 | The copy succeeds exactly when every value is a string; it then has the input's key set and maps each key to the same string. A non-string value gives the panic outcome |
| `MapConversion.LiftStrings` | dkron/resource_job.go:247 | A configured all-string map, converted and then written back with `d.Set`, is unchanged |
| `ProcessorShape.Outbound` | dkron/resource_job.go:177-185 | The value sent has no `type`; it has `forward` (and `log_dir`) exactly when the input's was non-empty; every kept key keeps its value; every other key is kept |
| `ProcessorShape.ReshapeProcessors` | dkron/resource_job.go:171-188 | The loop returns the panic outcome exactly when some record holds a non-string; otherwise it returns `Reshaped` of the converted list, the records written one by one in list order under their types |
| `ProcessorShape.ReshapedKeys` | dkron/resource_job.go:173-188 | The keys of the outbound map are exactly the `type` values of the list's records (the empty string for a record without one) |
| `ProcessorShape.ReshapedLastWins` | dkron/resource_job.go:187 | Under each type the map holds the outbound form of the last record of that type in list order |
| `ProcessorShape.ReshapedUntyped` | dkron/resource_job.go:177-178 | No value of the outbound map contains a `type` key |
| `ProcessorShape.ReshapedWithinSchema` | dkron/resource_job.go:92-95 | When every record's type is one of the three validated kinds, at most three processors are sent |
| `ProcessorShape.ReshapedStep` | dkron/resource_job.go:174-188 | One more iteration adds the next record's outbound form under its type, overwriting what was there |
| `ProcessorShape.Inbound` | dkron/resource_job.go:257 | A record read back carries its map key under `type` and otherwise equals the stored value |
| `ProcessorShape.RestoreProcessors` | dkron/resource_job.go:255-259 | The loop panics exactly when some decoded value is `null` (a nil map); otherwise the list has one entry per map entry, and as a multiset it is the set of values with their keys written back, whatever order the map is visited in |
| `ProcessorShape.RestoreStep` | dkron/resource_job.go:256-258 | One iteration adds to the list exactly the record of the key it visits |
| `ProcessorShape.RestoredEntryShape` | dkron/resource_job.go:256-258 | A record is in the read-back result exactly when its `type` is a key of the map and it is that key's value with the key written back |
| `ProcessorShape.RestoredEntriesAdd` | dkron/resource_job.go:256-258 | A new key adds exactly one new record to the read-back result |
| `ProcessorShape.RestoredEntriesCount` | dkron/resource_job.go:255-259 | Distinct keys give distinct records, so there are exactly as many records as map entries |
| `ProcessorShape.InboundOutbound` | dkron/resource_job.go:177-187 | For a record with a `type`, writing the type back into its outbound form gives the record with an empty `forward` or `log_dir` removed |
| `ProcessorShape.RoundTrip` | dkron/resource_job.go:173-188 | A list of typed records with distinct types, sent and read back, gives, as a multiset, the original records with empty `forward` and `log_dir` removed |
| `JobResource.Upserted` | dkron/resource_job.go:195-200 | Service side of the upsert: on a 2xx reply the job is stored under its name; other jobs are untouched; otherwise nothing changes |
| `JobResource.Removed` | dkron/resource_job.go:282 | Service side of the delete: on a 2xx reply the name is gone; other jobs are untouched; otherwise nothing changes |
| `JobResource.JobService.CreateOrUpdateJob` | dkron/resource_job.go:195-200 | The request is logged and the table is upserted according to the reply |
| `JobResource.JobService.ShowJobByName` | dkron/resource_job.go:224 | The request is logged and the table does not change |
| `JobResource.JobService.DeleteJob` | dkron/resource_job.go:282 | The request is logged and the table is shrunk according to the reply |
| `JobResource.CreateOutcome` | dkron/resource_job.go:201-212 | Create panics exactly when a map holds a non-string; otherwise it succeeds exactly on status 201; a non-201 status gives an error with the response body text, a transport failure its own message |
| `JobResource.Create` | dkron/resource_job.go:144-213 | The panic outcome sends nothing; otherwise exactly one upsert of the body built from the configuration is sent; the identity becomes the job name only on 201 and is otherwise left as it was; the attributes do not change |
| `JobResource.ReadOutcome` | dkron/resource_job.go:224-259 | Read succeeds exactly on status 200 with a body that decodes and has no `null` processor, and panics exactly when a decoded processor is `null`; a non-200 status gives an error with the body text; a transport or decoding failure gives its own message |
| `JobResource.Read` | dkron/resource_job.go:215-263 | The job named by the identity is requested; on an error no attribute changes; on a panic the scalar and map attributes are already overwritten and the processors are not; on success every attribute is overwritten from the job, and the processors are the reconstructed list |
| `JobResource.Delete` | dkron/resource_job.go:273-287 | A delete of the identity is sent; the result is an error exactly on a transport failure, whatever the status |
| `JobResource.Update` | dkron/resource_job.go:265-271 | A delete of the old identity is sent exactly when the prior and new `name` differ, and before the create; the create always runs and its outcome is the update's, whatever the delete's reply; after a successful update the new name holds the sent body, while the old name is gone only if the delete succeeded |
| `JobResource.CreateReadRoundTrip` | dkron/resource_job.go:240-259 | Reading back a job created from a configuration with typed, distinct processors restores every attribute, and the processors as a multiset with empty `forward` and `log_dir` removed. It assumes the service returns exactly the job that was sent |

## Left out

- Client construction (`NewClientWithResponses`, `NewClient`) is taken as always succeeding, because no client options are passed. Its error branches (dkron/resource_job.go:148-151, 219-222, 277-280) are not modelled.
- The HTTP calls are not modelled as network I/O. Each call's answer is the `Reply` parameter, and the scheduler is an abstract table. Whether it changes on a reply is an assumption, stated in `Upserted` and `Removed`.
- Read: its `reply` and `decoded` are not tied to the service's table, because the service's answer is outside the provider. `CreateReadRoundTrip` therefore takes as an assumption that the job read back is the job that was sent (`JobBody(c)`), with every processor present.
- `json.Marshal` of the body (dkron/resource_job.go:190-193) cannot fail for this record and is not modelled. The JSON encoding and `omitempty` are not modelled either. `json.Unmarshal` is represented by the `Decoded` parameter of Read.
- The error from `io.ReadAll` is ignored by the source. The body text is taken as given.
- `context.Context` and the parts of `diag.Diagnostics` other than the message are not modelled. Of `schema.ResourceData`, only the identity, the attributes and the prior `name` are kept.
- The `StringInSlice` validators run in Terraform before Create. Only their two enumerations are modelled (`ParseExecutor`, `ParseProcessorKind`). Create itself does not check them, and neither does the model.
- The `p.(map[string]any)` assertion on processor list elements always holds with the nested schema, so the list is a sequence of maps.
- After `d.Set`, Terraform normalises processor records to the schema's keys: unknown keys are dropped and missing ones read as "". That is why an omitted `forward` or `log_dir` shows as empty after a read. This normalisation belongs to the SDK and is not modelled; the round-trip lemmas state the records as Read builds them.
- RestoreProcessors: Go writes `type` into the decoded job's maps in place. The model builds new map values, so it does not capture that aliasing. The decoded job is local to Read, so nothing can observe the difference.
- `successCount` and `errorCount` are int32 in the source. Create always sends 0 for them and Read does not copy them back, so their width is not modelled. Read does not copy back `dependent_jobs` or `ephemeral` either.
- The Terraform runtime's own actions are not modelled. After a successful Delete it drops the identity; after Read it may plan the resource for re-creation. Read does not clear the identity on an error status, and neither does the model.
