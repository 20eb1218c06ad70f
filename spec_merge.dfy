/** The spec merge inside `patchFlinkDeployment` and the two fixed patches
    built by `suspendFlinkDeployment` and `resumeFlinkDeployment`
    (lib/kubernetes.ts).

    The merge spreads objects two levels deep: every top-level `spec` key
    the patch names replaces the current value wholesale, the `job` object
    is merged key by key, and everything outside `spec` is copied. */
module SpecMerge {
  import opened Outcomes
  import opened FlinkTypes

  /** The `patch` argument.  Only its `spec` is read; a missing `spec`
      spreads as `{}`. */
  datatype Patch = Patch(spec: Option<Fields>)

  /** The keys `...v` contributes to an object literal.  An object spreads
      its own keys; `undefined`, `null`, booleans and numbers spread
      nothing. */
  function Spread(v: Option<Value>): Fields {
    if v.Some? && v.value.Obj? then v.value.fields else map[]
  }

  /** The keys of `spec.job` as a spread sees them. */
  function JobOf(spec: Fields): Fields {
    Spread(Get(spec, JobKey))
  }

  /** `patch.spec || {}`. */
  function PatchSpec(patch: Patch): Fields {
    patch.spec.GetOr(map[])
  }

  /** `{ ...current, ...(patch.spec || {}), job: { ...current.job, ...(patch.spec?.job || {}) } }`
      on a spec. */
  function MergeSpec(current: Fields, patch: Patch): (merged: Fields)
    ensures merged.Keys == current.Keys + PatchSpec(patch).Keys + {JobKey}
    ensures forall k :: k in PatchSpec(patch) && k != JobKey ==> merged[k] == PatchSpec(patch)[k]
    ensures forall k :: k in current && k !in PatchSpec(patch) && k != JobKey ==> merged[k] == current[k]
    ensures merged[JobKey].Obj?
    ensures JobOf(merged).Keys == JobOf(current).Keys + JobOf(PatchSpec(patch)).Keys
    ensures forall k :: k in JobOf(PatchSpec(patch)) ==> JobOf(merged)[k] == JobOf(PatchSpec(patch))[k]
    ensures forall k :: k in JobOf(current) && k !in JobOf(PatchSpec(patch)) ==> JobOf(merged)[k] == JobOf(current)[k]
  {
    var ps := PatchSpec(patch);
    (current + ps)[JobKey := Obj(JobOf(current) + JobOf(ps))]
  }

  /** The resource sent back to the server: `current` with only its `spec`
      rebuilt. */
  function Merge(current: Deployment, patch: Patch): (updated: Deployment)
    ensures updated.apiVersion == current.apiVersion && updated.kind == current.kind
    ensures updated.metadata == current.metadata && updated.status == current.status
    ensures updated.spec == MergeSpec(current.spec, patch)
  {
    current.(spec := MergeSpec(current.spec, patch))
  }

  /** A patch naming only `spec.job.state`. */
  function StatePatch(state: string): (p: Patch)
    ensures PatchSpec(p).Keys == {JobKey}
    ensures JobOf(PatchSpec(p)) == map[StateKey := Str(state)]
  {
    Patch(Some(map[JobKey := Obj(map[StateKey := Str(state)])]))
  }

  /** The patch `suspendFlinkDeployment` sends. */
  function SuspendPatch(): (p: Patch)
    ensures IsSpec(PatchSpec(p)) && DesiredState(PatchSpec(p)) == Some(Str(Suspended))
  {
    StatePatch(Suspended)
  }

  /** The patch `resumeFlinkDeployment` sends. */
  function ResumePatch(): (p: Patch)
    ensures IsSpec(PatchSpec(p)) && DesiredState(PatchSpec(p)) == Some(Str(Running))
  {
    StatePatch(Running)
  }

  /** Reference definition: `spec` with exactly `job.<key>` set to `v`, a
      `job` object being created when there is none. */
  function WithJobField(spec: Fields, key: string, v: Value): Fields {
    spec[JobKey := Obj(JobOf(spec)[key := v])]
  }

  // ---------------------------------------------------------------------
  // Properties of the merge.
  // ---------------------------------------------------------------------

  /** The merged spec always holds a `job` object; when neither the current
      spec nor the patch has a job object it is empty. */
  lemma MergeAlwaysHasJob(current: Fields, patch: Patch)
    ensures JobKey in MergeSpec(current, patch)
    ensures JobOf(current) == map[] && JobOf(PatchSpec(patch)) == map[]
            ==> MergeSpec(current, patch)[JobKey] == Obj(map[])
  {
  }

  /** Applying the same patch to the merged resource changes nothing. */
  lemma MergeIdempotent(current: Deployment, patch: Patch)
    ensures Merge(Merge(current, patch), patch) == Merge(current, patch)
  {
    var once := MergeSpec(current.spec, patch);
    var twice := MergeSpec(once, patch);
    assert JobOf(twice) == JobOf(once);
    assert twice == once;
  }

  /** Merging a patch that names only `spec.job.state` replaces exactly
      that field: every other spec key and every other job key keeps its
      value. */
  lemma StatePatchSetsOnlyState(spec: Fields, state: string)
    ensures MergeSpec(spec, StatePatch(state)) == WithJobField(spec, StateKey, Str(state))
  {
    var ps := PatchSpec(StatePatch(state));
    assert JobOf(ps) == map[StateKey := Str(state)];
    var merged := MergeSpec(spec, StatePatch(state));
    assert JobOf(merged) == JobOf(spec)[StateKey := Str(state)];
  }

  /** `WithJobField` touches nothing but `job.<key>`. */
  lemma WithJobFieldPreserves(spec: Fields, key: string, v: Value)
    ensures var r := WithJobField(spec, key, v);
      && r.Keys == spec.Keys + {JobKey}
      && (forall k :: k in spec && k != JobKey ==> r[k] == spec[k])
      && JobOf(r).Keys == JobOf(spec).Keys + {key}
      && JobOf(r)[key] == v
      && (forall k :: k in JobOf(spec) && k != key ==> JobOf(r)[k] == JobOf(spec)[k])
  {
  }

  /** Suspending and then resuming leaves `job.state` running and every
      other spec and job field as it was before either call; the resource
      outside `spec` is untouched. */
  lemma SuspendThenResume(d: Deployment)
    ensures Merge(Merge(d, SuspendPatch()), ResumePatch()) == Merge(d, ResumePatch())
    ensures var r := Merge(Merge(d, SuspendPatch()), ResumePatch());
      && DesiredState(r.spec) == Some(Str(Running))
      && r.spec.Keys == d.spec.Keys + {JobKey}
      && (forall k :: k in d.spec && k != JobKey ==> r.spec[k] == d.spec[k])
      && JobOf(r.spec).Keys == JobOf(d.spec).Keys + {StateKey}
      && (forall k :: k in JobOf(d.spec) && k != StateKey ==> JobOf(r.spec)[k] == JobOf(d.spec)[k])
      && r.apiVersion == d.apiVersion && r.kind == d.kind
      && r.metadata == d.metadata && r.status == d.status
  {
    var suspended := WithJobField(d.spec, StateKey, Str(Suspended));
    StatePatchSetsOnlyState(d.spec, Suspended);
    StatePatchSetsOnlyState(suspended, Running);
    StatePatchSetsOnlyState(d.spec, Running);
    assert JobOf(suspended) == JobOf(d.spec)[StateKey := Str(Suspended)];
    assert JobOf(suspended)[StateKey := Str(Running)] == JobOf(d.spec)[StateKey := Str(Running)];
    assert WithJobField(suspended, StateKey, Str(Running)) == WithJobField(d.spec, StateKey, Str(Running));
    WithJobFieldPreserves(d.spec, StateKey, Str(Running));
  }

  /** A merge of a well-shaped patch into a well-shaped spec is well
      shaped. */
  lemma MergePreservesShape(current: Fields, patch: Patch)
    requires IsSpec(current) && IsSpec(PatchSpec(patch))
    ensures IsSpec(MergeSpec(current, patch))
  {
  }

  /** Both fixed patches have the spec's shape, so suspending or resuming a
      well-shaped resource keeps it well shaped. */
  lemma StatePatchesAreSpecs(d: Deployment)
    requires IsSpec(d.spec)
    ensures IsSpec(PatchSpec(SuspendPatch())) && IsSpec(PatchSpec(ResumePatch()))
    ensures IsSpec(Merge(d, SuspendPatch()).spec) && IsSpec(Merge(d, ResumePatch()).spec)
  {
    assert IsSpec(PatchSpec(SuspendPatch()));
    assert IsSpec(PatchSpec(ResumePatch()));
    MergePreservesShape(d.spec, SuspendPatch());
    MergePreservesShape(d.spec, ResumePatch());
  }

  /** A running job with a jar and a parallelism is suspended without
      losing either. */
  lemma SuspendKeepsJarAndParallelism(d: Deployment)
    requires JobKey in d.spec
    requires d.spec[JobKey] == Obj(map["jarURI" := Str("s3://a.jar"), "parallelism" := Num(4.0), StateKey := Str(Running)])
    ensures Merge(d, SuspendPatch()).spec[JobKey]
         == Obj(map["jarURI" := Str("s3://a.jar"), "parallelism" := Num(4.0), StateKey := Str(Suspended)])
  {
  }
}
