/** Credential resolution and the FlinkDeployment gateway of
    lib/kubernetes.ts, with every call into the Kubernetes client library
    replaced by an outcome taken from an `Environment`.

    Each operation returns, beside its result, the sequence of outside
    calls it made, so that the order of attempts ("in-cluster first"), the
    absence of a network call after a credential failure and the absence
    of a write after a failed read are stated in the contracts. */
module KubeClient {
  import opened Outcomes
  import opened FlinkTypes
  import opened SpecMerge

  const FlinkApiVersion := "flink.apache.org/v1beta1"
  const FlinkKind := "FlinkDeployment"
  const ConfigErrorMessage := "Could not load Kubernetes configuration"

  /** The two places a configuration can come from. */
  datatype Loader = InCluster | DefaultKubeconfig

  /** A `KubeConfig` object: empty when constructed, then filled by one
      loader.  Its contents (server, credentials) are the library's. */
  datatype KubeConfig = KubeConfig(loadedFrom: Option<Loader>)

  /** The object API client built from a configuration. */
  datatype Client = Client(config: KubeConfig)

  /** What the functions of the module throw. */
  datatype Error =
    | ConfigError(message: string)  // neither loader succeeded
    | ApiError(cause: string)        // rethrown from the client library

  /** The `{ apiVersion, kind, metadata: { name, namespace } }` argument of `read`. */
  datatype ObjectRef = ObjectRef(apiVersion: string, kind: string, name: string, namespace: string)

  /** A call into the client library. */
  datatype Call =
    | LoadFromCluster
    | LoadFromDefault
    | ListCall(apiVersion: string, kind: string)
    | ReadCall(ref: ObjectRef)
    | PatchCall(body: Deployment)

  /** What the client library would do on this occasion: whether each
      loader succeeds, and what `list`, `read` and `patch` return or throw.
      The server's own merge semantics for `patch` are not modelled: its
      answer is whatever `patch` returns. */
  datatype Environment = Environment(
    inClusterLoads: bool,
    defaultLoads: bool,
    list: Result<DeploymentList, string>,
    read: ObjectRef -> Result<Deployment, string>,
    patch: Deployment -> Result<Deployment, string>)

  /** Some loader succeeds. */
  predicate CanResolve(env: Environment) {
    env.inClusterLoads || env.defaultLoads
  }

  /** The loader calls `getKubeConfig` makes: the kubeconfig file is tried
      only after the in-cluster configuration failed. */
  function ResolutionCalls(env: Environment): seq<Call> {
    if env.inClusterLoads then [LoadFromCluster] else [LoadFromCluster, LoadFromDefault]
  }

  /** The reference `getFlinkDeployment` reads. */
  function Ref(namespace: string, name: string): ObjectRef {
    ObjectRef(FlinkApiVersion, FlinkKind, name, namespace)
  }

  /** A library error escapes unchanged. */
  function Rethrow(outcome: Result<Deployment, string>): Result<Deployment, Error> {
    match outcome
    case Ok(d) => Ok(d)
    case Err(e) => Err(ApiError(e))
  }

  /** `getKubeConfig`: in-cluster first, then the default kubeconfig; an
      error only when both fail. */
  method GetKubeConfig(env: Environment) returns (kc: Result<KubeConfig, Error>, calls: seq<Call>)
    ensures calls == ResolutionCalls(env)
    ensures kc.Ok? <==> CanResolve(env)
    ensures kc.Ok? ==> kc.value.loadedFrom == Some(if env.inClusterLoads then InCluster else DefaultKubeconfig)
    ensures kc.Err? ==> kc.error == ConfigError(ConfigErrorMessage)
  {
    var config := KubeConfig(None);
    calls := [LoadFromCluster];
    if env.inClusterLoads {
      config := config.(loadedFrom := Some(InCluster));
    } else {
      calls := calls + [LoadFromDefault];
      if env.defaultLoads {
        config := config.(loadedFrom := Some(DefaultKubeconfig));
      } else {
        return Err(ConfigError(ConfigErrorMessage)), calls;
      }
    }
    kc := Ok(config);
  }

  /** `getCustomObjectsApi`: resolves the configuration afresh on every
      call and lets a credential error escape. */
  method GetCustomObjectsApi(env: Environment) returns (client: Result<Client, Error>, calls: seq<Call>)
    ensures calls == ResolutionCalls(env)
    ensures client.Ok? <==> CanResolve(env)
    ensures client.Ok? ==> client.value.config.loadedFrom.Some?
    ensures client.Err? ==> client.error == ConfigError(ConfigErrorMessage)
  {
    var kc;
    kc, calls := GetKubeConfig(env);
    if kc.Err? {
      return Err(kc.error), calls;
    }
    client := Ok(Client(kc.value));
  }

  /** `listFlinkDeployments`: a failing `list` yields no deployments, but a
      credential failure escapes, because the client is built before the
      `try`. */
  method ListFlinkDeployments(env: Environment) returns (r: Result<seq<Deployment>, Error>, calls: seq<Call>)
    ensures !CanResolve(env) ==> r == Err(ConfigError(ConfigErrorMessage)) && calls == ResolutionCalls(env)
    ensures CanResolve(env) ==> calls == ResolutionCalls(env) + [ListCall(FlinkApiVersion, FlinkKind)]
    ensures CanResolve(env) ==> r == Ok(if env.list.Ok? then env.list.value.items else [])
    ensures r.Err? ==> r.error.ConfigError?
  {
    var client;
    client, calls := GetCustomObjectsApi(env);
    if client.Err? {
      return Err(client.error), calls;
    }
    calls := calls + [ListCall(FlinkApiVersion, FlinkKind)];
    match env.list {
      case Ok(response) => r := Ok(response.items);
      case Err(_) => r := Ok([]);
    }
  }

  /** `getFlinkDeployment`: reads one resource; every error escapes. */
  method GetFlinkDeployment(env: Environment, namespace: string, name: string)
    returns (r: Result<Deployment, Error>, calls: seq<Call>)
    ensures !CanResolve(env) ==> r == Err(ConfigError(ConfigErrorMessage)) && calls == ResolutionCalls(env)
    ensures CanResolve(env) ==> calls == ResolutionCalls(env) + [ReadCall(Ref(namespace, name))]
    ensures CanResolve(env) ==> r == Rethrow(env.read(Ref(namespace, name)))
  {
    var client;
    client, calls := GetCustomObjectsApi(env);
    if client.Err? {
      return Err(client.error), calls;
    }
    var ref := Ref(namespace, name);
    calls := calls + [ReadCall(ref)];
    r := Rethrow(env.read(ref));
  }

  /** `patchFlinkDeployment`: builds a client, reads the current resource
      (which builds a second client), merges the patch into it and sends
      the whole merged resource.  Every error escapes; a failed read means
      nothing is sent. */
  method PatchFlinkDeployment(env: Environment, namespace: string, name: string, patch: Patch)
    returns (r: Result<Deployment, Error>, calls: seq<Call>)
    ensures !CanResolve(env) ==> r == Err(ConfigError(ConfigErrorMessage)) && calls == ResolutionCalls(env)
    ensures CanResolve(env) && env.read(Ref(namespace, name)).Err? ==>
      && r == Err(ApiError(env.read(Ref(namespace, name)).error))
      && calls == ResolutionCalls(env) + ResolutionCalls(env) + [ReadCall(Ref(namespace, name))]
    ensures CanResolve(env) && env.read(Ref(namespace, name)).Ok? ==>
      var updated := Merge(env.read(Ref(namespace, name)).value, patch);
      && calls == ResolutionCalls(env) + ResolutionCalls(env) + [ReadCall(Ref(namespace, name)), PatchCall(updated)]
      && r == Rethrow(env.patch(updated))
  {
    var client;
    client, calls := GetCustomObjectsApi(env);
    if client.Err? {
      return Err(client.error), calls;
    }
    var current, readCalls := GetFlinkDeployment(env, namespace, name);
    calls := calls + readCalls;
    if current.Err? {
      return current, calls;
    }
    var updated := Merge(current.value, patch);
    calls := calls + [PatchCall(updated)];
    r := Rethrow(env.patch(updated));
  }

  /** `suspendFlinkDeployment`: the resource sent differs from the one read
      only in `spec.job.state`, which is `'suspended'`. */
  method SuspendFlinkDeployment(env: Environment, namespace: string, name: string)
    returns (r: Result<Deployment, Error>, calls: seq<Call>)
    ensures !CanResolve(env) ==> r == Err(ConfigError(ConfigErrorMessage)) && calls == ResolutionCalls(env)
    ensures CanResolve(env) && env.read(Ref(namespace, name)).Err? ==>
      && r == Err(ApiError(env.read(Ref(namespace, name)).error))
      && calls == ResolutionCalls(env) + ResolutionCalls(env) + [ReadCall(Ref(namespace, name))]
    ensures CanResolve(env) && env.read(Ref(namespace, name)).Ok? ==>
      var current := env.read(Ref(namespace, name)).value;
      var updated := current.(spec := WithJobField(current.spec, StateKey, Str(Suspended)));
      && calls == ResolutionCalls(env) + ResolutionCalls(env) + [ReadCall(Ref(namespace, name)), PatchCall(updated)]
      && r == Rethrow(env.patch(updated))
  {
    r, calls := PatchFlinkDeployment(env, namespace, name, SuspendPatch());
    var read := env.read(Ref(namespace, name));
    if read.Ok? {
      StatePatchSetsOnlyState(read.value.spec, Suspended);
    }
  }

  /** `resumeFlinkDeployment`: the resource sent differs from the one read
      only in `spec.job.state`, which is `'running'`. */
  method ResumeFlinkDeployment(env: Environment, namespace: string, name: string)
    returns (r: Result<Deployment, Error>, calls: seq<Call>)
    ensures !CanResolve(env) ==> r == Err(ConfigError(ConfigErrorMessage)) && calls == ResolutionCalls(env)
    ensures CanResolve(env) && env.read(Ref(namespace, name)).Err? ==>
      && r == Err(ApiError(env.read(Ref(namespace, name)).error))
      && calls == ResolutionCalls(env) + ResolutionCalls(env) + [ReadCall(Ref(namespace, name))]
    ensures CanResolve(env) && env.read(Ref(namespace, name)).Ok? ==>
      var current := env.read(Ref(namespace, name)).value;
      var updated := current.(spec := WithJobField(current.spec, StateKey, Str(Running)));
      && calls == ResolutionCalls(env) + ResolutionCalls(env) + [ReadCall(Ref(namespace, name)), PatchCall(updated)]
      && r == Rethrow(env.patch(updated))
  {
    r, calls := PatchFlinkDeployment(env, namespace, name, ResumePatch());
    var read := env.read(Ref(namespace, name));
    if read.Ok? {
      StatePatchSetsOnlyState(read.value.spec, Running);
    }
  }
}
