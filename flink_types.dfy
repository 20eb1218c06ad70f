/** The `FlinkDeployment` custom resource as the dashboard sees it
    (types/flink.ts).

    `spec` is kept as a JSON object (a map from keys to values), because
    the patch merge works on it key by key and the API server may return
    keys the interface does not name.  `IsSpec` states the shape the
    interface gives the keys it does name.  `metadata` and `status` are
    only ever read, so they are typed records with optional fields. */
module FlinkTypes {
  import opened Outcomes

  /** A JSON value.  JavaScript numbers are modelled as reals. */
  datatype Value =
    | Null
    | Bool(b: bool)
    | Num(n: real)
    | Str(s: string)
    | List(items: seq<Value>)
    | Obj(fields: map<string, Value>)

  /** A JSON object. */
  type Fields = map<string, Value>

  const JobKey := "job"
  const StateKey := "state"
  const Running := "running"
  const Suspended := "suspended"

  /** `m[key]`, or `None` when the key is absent (`undefined`). */
  function Get(m: Fields, key: string): Option<Value> {
    if key in m then Some(m[key]) else None
  }

  // ---------------------------------------------------------------------
  // The shape of FlinkDeploymentSpec: every field optional.
  // ---------------------------------------------------------------------

  predicate IsStringList(v: Value) {
    v.List? && forall i :: 0 <= i < |v.items| ==> v.items[i].Str?
  }

  /** `Record<string, string>`. */
  predicate IsStringRecord(v: Value) {
    v.Obj? && forall k :: k in v.fields ==> v.fields[k].Str?
  }

  /** `{ memory?: string; cpu?: number }`. */
  predicate IsResource(v: Value) {
    && v.Obj?
    && ("memory" in v.fields ==> v.fields["memory"].Str?)
    && ("cpu" in v.fields ==> v.fields["cpu"].Num?)
  }

  /** The `jobManager` / `taskManager` objects. */
  predicate IsPodResources(v: Value) {
    && v.Obj?
    && ("resource" in v.fields ==> IsResource(v.fields["resource"]))
    && ("replicas" in v.fields ==> v.fields["replicas"].Num?)
  }

  /** The desired run state: `'running' | 'suspended'`. */
  predicate IsJobState(v: Value) {
    v == Str(Running) || v == Str(Suspended)
  }

  /** The fields of the `job` object. */
  predicate IsJobFields(j: Fields) {
    && ("jarURI" in j ==> j["jarURI"].Str?)
    && ("parallelism" in j ==> j["parallelism"].Num?)
    && ("upgradeMode" in j ==> j["upgradeMode"].Str?)
    && (StateKey in j ==> IsJobState(j[StateKey]))
    && ("savepointTriggerNonce" in j ==> j["savepointTriggerNonce"].Num?)
    && ("entryClass" in j ==> j["entryClass"].Str?)
    && ("args" in j ==> IsStringList(j["args"]))
  }

  predicate IsJob(v: Value) {
    v.Obj? && IsJobFields(v.fields)
  }

  /** FlinkDeploymentSpec.  Keys the interface does not name are allowed:
      the server returns the whole custom resource. */
  predicate IsSpec(spec: Fields) {
    && ("image" in spec ==> spec["image"].Str?)
    && ("flinkVersion" in spec ==> spec["flinkVersion"].Str?)
    && ("serviceAccount" in spec ==> spec["serviceAccount"].Str?)
    && ("jobManager" in spec ==> IsPodResources(spec["jobManager"]))
    && ("taskManager" in spec ==> IsPodResources(spec["taskManager"]))
    && (JobKey in spec ==> IsJob(spec[JobKey]))
    && ("flinkConfiguration" in spec ==> IsStringRecord(spec["flinkConfiguration"]))
    && ("logConfiguration" in spec ==> IsStringRecord(spec["logConfiguration"]))
  }

  // ---------------------------------------------------------------------
  // FlinkDeploymentStatus, metadata, FlinkDeployment, FlinkDeploymentList.
  // ---------------------------------------------------------------------

  datatype Savepoint = Savepoint(location: Option<string>, timeStamp: Option<real>)

  datatype SavepointInfo = SavepointInfo(lastSavepoint: Option<Savepoint>)

  datatype JobStatus = JobStatus(
    state: Option<string>,
    jobId: Option<string>,
    jobName: Option<string>,
    startTime: Option<string>,
    updateTime: Option<string>,
    savepointInfo: Option<SavepointInfo>)

  datatype ReconciliationStatus = ReconciliationStatus(
    state: Option<string>,
    lastReconciledSpec: Option<string>)

  /** The observed state, written only by the operator.  `lifecycleState`
      is free-form and independent of the desired `spec.job.state`. */
  datatype Status = Status(
    lifecycleState: Option<string>,
    jobStatus: Option<JobStatus>,
    error: Option<string>,
    clusterInfo: Option<map<string, string>>,
    reconciliationStatus: Option<ReconciliationStatus>)

  /** Every resource has a name; the namespace may be absent. */
  datatype Metadata = Metadata(
    name: string,
    namespace: Option<string>,
    uid: Option<string>,
    resourceVersion: Option<string>,
    creationTimestamp: Option<string>,
    labels: Option<map<string, string>>,
    annotations: Option<map<string, string>>)

  /** Every deployment has a `spec`; `status` may be absent. */
  datatype Deployment = Deployment(
    apiVersion: string,
    kind: string,
    metadata: Metadata,
    spec: Fields,
    status: Option<Status>)

  datatype ListMetadata = ListMetadata(resourceVersion: Option<string>)

  datatype DeploymentList = DeploymentList(
    apiVersion: string,
    kind: string,
    items: seq<Deployment>,
    metadata: Option<ListMetadata>)

  /** `spec.job?.state`: the desired run state as stored.  Optional chaining
      yields `undefined` when `job` is absent or null, and a non-object has
      no `state` property. */
  function DesiredState(spec: Fields): (state: Option<Value>)
    ensures state.Some? ==> JobKey in spec && spec[JobKey].Obj? && StateKey in spec[JobKey].fields
    ensures JobKey in spec && spec[JobKey].Obj? && StateKey in spec[JobKey].fields
            ==> state == Some(spec[JobKey].fields[StateKey])
    ensures IsSpec(spec) ==> state == None || state == Some(Str(Running)) || state == Some(Str(Suspended))
  {
    if JobKey in spec && spec[JobKey].Obj? then Get(spec[JobKey].fields, StateKey) else None
  }

  /** Every field of a spec and of a job is optional: the empty spec and a
      spec whose job has no `state` have the interface's shape. */
  lemma EverySpecFieldOptional(image: string)
    ensures IsSpec(map[])
    ensures IsSpec(map[JobKey := Obj(map[])]) && DesiredState(map[JobKey := Obj(map[])]) == None
    ensures IsSpec(map["image" := Str(image)]) && DesiredState(map["image" := Str(image)]) == None
  {
  }
}
