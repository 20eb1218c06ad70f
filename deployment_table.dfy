/** The non-visual logic of the deployment table
    (components/DeploymentTable.tsx): what each row shows, which action it
    offers, its key, and the `loading` bookkeeping of `handleAction`. */
module DeploymentTable {
  import opened Outcomes
  import opened FlinkTypes
  import opened SpecMerge

  const NotAvailable := "N/A"
  const DefaultNamespace := "default"
  const Processing := "Processing..."

  const GreenClass := "text-green-600 bg-green-50"
  const YellowClass := "text-yellow-600 bg-yellow-50"
  const RedClass := "text-red-600 bg-red-50"
  const GrayClass := "text-gray-600 bg-gray-50"

  // ---------------------------------------------------------------------
  // Status colours.
  // ---------------------------------------------------------------------

  /** `toLowerCase` on one character (ASCII letters only). */
  function LowerChar(c: char): char {
    if 'A' <= c <= 'Z' then (c as int + 32) as char else c
  }

  /** `toLowerCase` on a string: each character lowered in place. */
  function Lower(s: string): (r: string)
    ensures |r| == |s|
    ensures forall i :: 0 <= i < |s| ==> r[i] == LowerChar(s[i])
  {
    if s == [] then [] else [LowerChar(s[0])] + Lower(s[1..])
  }

  /** `s` and `t` are the same word in possibly different casings. */
  predicate SameIgnoringCase(s: string, t: string) {
    |s| == |t| && forall i :: 0 <= i < |s| ==> LowerChar(s[i]) == LowerChar(t[i])
  }

  /** `getStatusColor`: the badge classes for a state. */
  function StatusColor(state: Option<string>): (cls: string)
    ensures state == None ==> cls == GrayClass
  {
    if state.None? then GrayClass
    else
      var lowered := Lower(state.value);
      if lowered == "running" then GreenClass
      else if lowered == "suspended" then YellowClass
      else if lowered == "failed" then RedClass
      else GrayClass
  }

  /** A word with no upper-case ASCII letter is its own lower case. */
  lemma LowerOfLowerCaseWord(word: string)
    requires forall i :: 0 <= i < |word| ==> !('A' <= word[i] <= 'Z')
    ensures Lower(word) == word
  {
  }

  /** The colour depends only on the letters, not their case. */
  lemma StatusColorIgnoresCase(s: string, t: string)
    requires SameIgnoringCase(s, t)
    ensures StatusColor(Some(s)) == StatusColor(Some(t))
  {
  }

  /** Any casing of `running` is green, of `suspended` yellow, of `failed`
      red; every other string is gray. */
  lemma StatusColorCases(s: string)
    ensures StatusColor(Some(s)) == GreenClass <==> SameIgnoringCase(s, "running")
    ensures StatusColor(Some(s)) == YellowClass <==> SameIgnoringCase(s, "suspended")
    ensures StatusColor(Some(s)) == RedClass <==> SameIgnoringCase(s, "failed")
    ensures StatusColor(Some(s)) == GrayClass <==>
      !SameIgnoringCase(s, "running") && !SameIgnoringCase(s, "suspended") && !SameIgnoringCase(s, "failed")
  {
  }

  // ---------------------------------------------------------------------
  // What a row shows.
  // ---------------------------------------------------------------------

  /** `deployment.spec.job?.state || 'N/A'`. */
  function DisplayedJobState(d: Deployment): (shown: string)
    ensures shown != ""
    ensures shown == NotAvailable || DesiredState(d.spec) == Some(Str(shown))
    ensures DesiredState(d.spec).None? || DesiredState(d.spec) == Some(Str("")) ==> shown == NotAvailable
    ensures DesiredState(d.spec).Some? && DesiredState(d.spec).value.Str? && DesiredState(d.spec).value.s != ""
            ==> shown == DesiredState(d.spec).value.s
    ensures IsSpec(d.spec) ==> shown == Running || shown == Suspended || shown == NotAvailable
  {
    match DesiredState(d.spec)
    case Some(Str(s)) => if s == "" then NotAvailable else s
    case _ => NotAvailable
  }

  /** `deployment.status?.lifecycleState || 'N/A'`. */
  function DisplayedLifecycleState(d: Deployment): (shown: string)
    ensures shown != ""
    ensures d.status.None? || d.status.value.lifecycleState.None? ==> shown == NotAvailable
    ensures d.status.Some? && d.status.value.lifecycleState == Some("") ==> shown == NotAvailable
    ensures d.status.Some? && d.status.value.lifecycleState.Some? && d.status.value.lifecycleState.value != ""
            ==> shown == d.status.value.lifecycleState.value
  {
    if d.status.Some? && d.status.value.lifecycleState.Some? && d.status.value.lifecycleState.value != ""
    then d.status.value.lifecycleState.value
    else NotAvailable
  }

  /** The desired state of a well-shaped resource is never shown red, and
      it is green or yellow exactly when it is running or suspended. */
  lemma JobStateColor(d: Deployment)
    requires IsSpec(d.spec)
    ensures StatusColor(Some(DisplayedJobState(d))) != RedClass
    ensures StatusColor(Some(DisplayedJobState(d))) == GreenClass <==> DesiredState(d.spec) == Some(Str(Running))
    ensures StatusColor(Some(DisplayedJobState(d))) == YellowClass <==> DesiredState(d.spec) == Some(Str(Suspended))
  {
    var shown := DisplayedJobState(d);
    if shown == Running {
      LowerOfLowerCaseWord(Running);
    } else if shown == Suspended {
      LowerOfLowerCaseWord(Suspended);
    } else {
      assert Lower(shown)[0] == 'n' && Lower(shown)[1] == '/';
      assert StatusColor(Some(shown)) == GrayClass;
    }
  }

  /** A patch rewrites the desired state but never the shown lifecycle
      state, which comes from `status`. */
  lemma PatchKeepsLifecycleState(d: Deployment, patch: Patch)
    ensures DisplayedLifecycleState(Merge(d, patch)) == DisplayedLifecycleState(d)
  {
  }

  // ---------------------------------------------------------------------
  // The action a row offers.
  // ---------------------------------------------------------------------

  datatype Action = Suspend | Resume

  /** Resume for a shown state of exactly `'suspended'`, Suspend otherwise
      (including `'N/A'`). */
  function OfferedAction(jobState: string): (action: Action)
    ensures action == Resume ==> StatusColor(Some(jobState)) == YellowClass
    ensures jobState == NotAvailable || jobState == Running ==> action == Suspend
  {
    LowerOfLowerCaseWord(Suspended);
    if jobState == Suspended then Resume else Suspend
  }

  /** The patch the deployment route sends for an action. */
  function PatchFor(action: Action): (patch: Patch)
    ensures IsSpec(PatchSpec(patch))
    ensures DesiredState(PatchSpec(patch)) == Some(Str(if action == Resume then Running else Suspended))
  {
    match action
    case Suspend => SuspendPatch()
    case Resume => ResumePatch()
  }

  /** Carrying out the offered action flips the shown job state, and with
      it the action offered next. */
  lemma OfferedActionToggles(d: Deployment)
    ensures var action := OfferedAction(DisplayedJobState(d));
      var after := Merge(d, PatchFor(action));
      && (action == Resume <==> DisplayedJobState(d) == Suspended)
      && DisplayedJobState(after) == (if action == Resume then Running else Suspended)
      && OfferedAction(DisplayedJobState(after)) != action
  {
    var action := OfferedAction(DisplayedJobState(d));
    var state := if action == Resume then Running else Suspended;
    assert PatchFor(action) == StatePatch(state);
    var after := Merge(d, PatchFor(action));
    StatePatchSetsOnlyState(d.spec, state);
    WithJobFieldPreserves(d.spec, StateKey, Str(state));
    assert after.spec == WithJobField(d.spec, StateKey, Str(state));
    assert DesiredState(after.spec) == Some(Str(state));
    assert DisplayedJobState(after) == state;
  }

  /** The action choice is case-sensitive while the colour is not: a state
      written `SUSPENDED` is shown yellow but offers Suspend. */
  lemma ActionIsCaseSensitive()
    ensures OfferedAction("SUSPENDED") == Suspend
    ensures StatusColor(Some("SUSPENDED")) == YellowClass
    ensures OfferedAction(NotAvailable) == Suspend
  {
  }

  // ---------------------------------------------------------------------
  // Row identity.
  // ---------------------------------------------------------------------

  /** `const { namespace = 'default' } = deployment.metadata`: only an
      absent namespace is defaulted. */
  function NamespaceOf(m: Metadata): (ns: string)
    ensures m.namespace.None? ==> ns == DefaultNamespace
    ensures ns == "" <==> m.namespace == Some("")
  {
    m.namespace.GetOr(DefaultNamespace)
  }

  /** `${namespace}/${name}`: the row key and the loading key. */
  function RowKey(m: Metadata): (key: string)
    ensures |key| == |NamespaceOf(m)| + 1 + |m.name|
    ensures key[..|NamespaceOf(m)|] == NamespaceOf(m) && key[|NamespaceOf(m)|] == '/'
    ensures key[|NamespaceOf(m)| + 1..] == m.name
  {
    NamespaceOf(m) + "/" + m.name
  }

  /** Two keys joined at their first slash split back uniquely. */
  lemma SplitAtFirstSlash(a: string, b: string, c: string, d: string)
    requires '/' !in a && '/' !in c
    requires a + "/" + b == c + "/" + d
    ensures a == c && b == d
  {
    var s := a + "/" + b;
    var k := if |a| <= |c| then |a| else |c|;
    assert s[k] == '/';
    assert k == |a| == |c|;
    assert a == s[..|a|] == c;
    assert b == s[|a| + 1..] == d;
  }

  /** Since a namespace holds no slash, the row key identifies the
      namespace and the name. */
  lemma RowKeyIdentifies(m1: Metadata, m2: Metadata)
    requires '/' !in NamespaceOf(m1) && '/' !in NamespaceOf(m2)
    ensures RowKey(m1) == RowKey(m2) <==> NamespaceOf(m1) == NamespaceOf(m2) && m1.name == m2.name
  {
    if RowKey(m1) == RowKey(m2) {
      SplitAtFirstSlash(NamespaceOf(m1), m1.name, NamespaceOf(m2), m2.name);
    }
  }

  /** An absent namespace is shown, keyed and requested as `default`; an
      empty one is not defaulted. */
  lemma AbsentNamespaceIsDefault(m: Metadata)
    ensures RowKey(m.(namespace := None)) == RowKey(m.(namespace := Some(DefaultNamespace)))
    ensures RowKey(m.(namespace := None)) == "default/" + m.name
    ensures RowKey(m.(namespace := Some(""))) == "/" + m.name
  {
  }

  // ---------------------------------------------------------------------
  // The action button and the loading bookkeeping.
  // ---------------------------------------------------------------------

  datatype Button = Button(action: Action, caption: string, disabled: bool)

  /** The button of the row showing `d` while `loading` is in flight. */
  function ActionButton(d: Deployment, loading: Option<string>): (b: Button)
    ensures b.disabled <==> loading == Some(RowKey(d.metadata))
    ensures b.disabled <==> b.caption == Processing
    ensures b.action == Resume <==> DisplayedJobState(d) == Suspended
  {
    var action := OfferedAction(DisplayedJobState(d));
    var isLoading := loading == Some(RowKey(d.metadata));
    var caption := if isLoading then Processing else if action == Resume then "Resume" else "Suspend";
    Button(action, caption, isLoading)
  }

  /** The request `handleAction` sends: a PATCH of this path with body
      `{ action }`. */
  datatype ActionRequest = ActionRequest(path: string, action: Action)

  /** How the `fetch` of `handleAction` ended. */
  datatype FetchOutcome = Responded(ok: bool) | NetworkFailure

  /** The table's state: the key of the row whose action is in flight. */
  class Table {
    var loading: Option<string>

    constructor ()
      ensures loading == None
    {
      loading := None;
    }

    /** `isLoading` of the row showing `d`. */
    predicate IsLoading(d: Deployment)
      reads this
    {
      loading == Some(RowKey(d.metadata))
    }

    /** `handleAction` up to its `await`: marks the row as loading and
        builds the request. */
    method BeginAction(d: Deployment, action: Action) returns (request: ActionRequest)
      modifies this
      ensures loading == Some(RowKey(d.metadata))
      ensures forall e: Deployment :: IsLoading(e) <==> RowKey(e.metadata) == RowKey(d.metadata)
      ensures request == ActionRequest("/api/deployments/" + NamespaceOf(d.metadata) + "/" + d.metadata.name, action)
    {
      loading := Some(RowKey(d.metadata));
      request := ActionRequest("/api/deployments/" + NamespaceOf(d.metadata) + "/" + d.metadata.name, action);
    }

    /** `handleAction` after its `await`: a response that is ok refreshes
        the list, anything else raises the alert, and in both cases the
        loading key is cleared. */
    method FinishAction(outcome: FetchOutcome) returns (refreshed: bool, alerted: bool)
      modifies this
      ensures loading == None
      ensures forall e: Deployment :: !IsLoading(e)
      ensures refreshed <==> outcome == Responded(true)
      ensures alerted <==> !refreshed
    {
      refreshed := outcome == Responded(true);
      alerted := !refreshed;
      loading := None;
    }

    /** `handleAction` as a whole. */
    method HandleAction(d: Deployment, action: Action, outcome: FetchOutcome)
      returns (request: ActionRequest, refreshed: bool, alerted: bool)
      modifies this
      ensures loading == None
      ensures request.path == "/api/deployments/" + RowKey(d.metadata) && request.action == action
      ensures refreshed <==> outcome == Responded(true)
      ensures alerted <==> !refreshed
    {
      request := BeginAction(d, action);
      refreshed, alerted := FinishAction(outcome);
    }
  }
}
