/** The objects the controller works on, and the read-only predicates over them. */
module Model {
  type Id = string
  type int32 = x: int | -0x8000_0000 <= x < 0x8000_0000

  datatype Option<+T> = None | Some(value: T)

  // ---------------------------------------------------------------- constants

  const DEFAULT_TEMPLATE := "default"
  const INSTANCE_KEY := "tapp_instance_key"
  const TEMPLATE_HASH_KEY := "tapp_template_hash_key"
  const UNIQ_HASH_KEY := "tapp_uniq_hash_key"
  const GATE_TYPE := "tkestack.io/InPlaceUpdate"
  const READY_TYPE := "Ready"
  const UPDATE_STATE_KEY := "tkestack.io/inplace-update-state"
  const UPDATE_STATE_VALUE := "true"
  const SPECIAL_ANNOTATION := "tkestack.io/portmapping"

  // ---------------------------------------------------------------- pods and templates

  datatype Phase = PhasePending | PhaseRunning | PhaseFailed | PhaseSucceeded | PhaseUnknown | PhaseOther

  datatype ConditionStatus = CondTrue | CondFalse | CondUnknown

  datatype Condition = Condition(kind: string, status: ConditionStatus, reason: string, message: string)

  datatype RestartPolicy = RestartAlways | RestartOnFailure | RestartNever | RestartOther

  /** `settings` stands for every container field other than its name and image. */
  datatype Container = Container(name: string, image: string, settings: string)

  datatype ContainerStatus = ContainerStatus(name: string, image: string, imageId: string)

  /** `settings` stands for the remaining fields of a pod specification. */
  datatype PodSpec = PodSpec(containers: seq<Container>, initContainers: seq<Container>,
                             restartPolicy: RestartPolicy, readinessGates: seq<string>, settings: string)

  /** A template's label map can be nil, and the hash can tell nil from empty. */
  datatype Template = Template(labels: Option<map<string, string>>, annotations: map<string, string>,
                               spec: PodSpec)

  /** `dying` says that the deletion timestamp is set. All pods live in the app's namespace,
      so `name` is the full name. */
  datatype Pod = Pod(name: string, labels: map<string, string>, annotations: map<string, string>,
                     dying: bool, nodeName: string, spec: PodSpec, phase: Phase,
                     conditions: seq<Condition>, initStatuses: seq<ContainerStatus>,
                     containerStatuses: seq<ContainerStatus>)

  /** The node cache: conditions of the nodes it holds, and nodes whose lookup fails with
      something other than "not found". */
  datatype NodeStore = NodeStore(nodes: map<string, seq<Condition>>, failing: set<string>)

  // ---------------------------------------------------------------- the app

  datatype InstanceStatus = NotCreated | Pending | Running | Updating | PodFailed | PodSucc
                          | Killing | Killed | Failed | Succ | Unknown | OtherStatus(text: string)

  datatype AppStatus = AppUnset | AppPending | AppRunning | AppFailed | AppSucc | AppKilled

  datatype IntOrString = IntOrString(kind: ValueKind, intVal: int32, strVal: string)
  datatype ValueKind = IntKind | StringKind | OtherKind

  datatype TAppSpec = TAppSpec(
    replicas: int32,
    template: Template,
    templatePool: map<string, Template>,
    statuses: map<Id, InstanceStatus>,
    templates: map<Id, string>,
    rollingTemplate: string,
    maxUnavailable: Option<IntOrString>,
    forceMaxUnavailable: Option<IntOrString>,
    forceDeletePod: bool,
    autoDeleteUnusedTemplate: bool,
    neverMigrate: bool,
    defaultTemplateName: string)

  datatype TAppStatus = TAppStatus(observedGeneration: int, replicas: int, readyReplicas: int,
                                   appStatus: AppStatus, statuses: map<Id, InstanceStatus>)

  datatype TApp = TApp(name: string, generation: int, spec: TAppSpec, status: TAppStatus)

  // ---------------------------------------------------------------- reads

  /** A Go map read: the zero value when the key is missing. */
  function Label(labels: map<string, string>, key: string): string {
    if key in labels then labels[key] else ""
  }

  function StatusOf(statuses: map<Id, InstanceStatus>, id: Id): InstanceStatus {
    if id in statuses then statuses[id] else OtherStatus("")
  }

  function PodIndex(pod: Pod): Option<Id> {
    if INSTANCE_KEY in pod.labels then Some(pod.labels[INSTANCE_KEY]) else None
  }

  predicate IsPodInactive(pod: Pod) {
    pod.dying || pod.phase != PhaseRunning
  }

  predicate IsPodCompleted(pod: Pod) {
    pod.phase == PhaseFailed || pod.phase == PhaseSucceeded
  }

  predicate IsInstanceFinished(status: InstanceStatus) {
    status == Killed || status == Failed || status == Succ
  }

  predicate IsInstanceAlive(status: InstanceStatus) {
    status in {NotCreated, Pending, Running, Killing, Unknown, PodFailed, PodSucc}
  }

  predicate IsFinishedStatus(status: AppStatus) {
    status == AppFailed || status == AppSucc || status == AppKilled
  }

  predicate IsTAppFinished(t: TApp) {
    IsFinishedStatus(t.status.appStatus)
  }

  /** Index of the first condition of a kind, or the length when there is none. */
  function FirstCondition(conditions: seq<Condition>, kind: string): (i: nat)
    ensures i <= |conditions|
    ensures i < |conditions| ==> conditions[i].kind == kind
    ensures forall k :: 0 <= k < i ==> conditions[k].kind != kind
  {
    if conditions == [] || conditions[0].kind == kind then 0
    else 1 + FirstCondition(conditions[1..], kind)
  }

  /** The status GetPodCondition finds for a kind. */
  function ConditionOf(conditions: seq<Condition>, kind: string): Option<Condition> {
    var i := FirstCondition(conditions, kind);
    if i < |conditions| then Some(conditions[i]) else None
  }

  predicate IsMarkedReady(pod: Pod) {
    var c := ConditionOf(pod.conditions, READY_TYPE);
    c.Some? && c.value.status == CondTrue
  }

  /** isPodReady: a missing Ready condition counts as ready. */
  predicate IsPodReady(pod: Pod) {
    var c := ConditionOf(pod.conditions, READY_TYPE);
    c.None? || c.value.status == CondTrue
  }

  function ExpectedImages(containers: seq<Container>): map<string, string> {
    if containers == [] then map[]
    else
      var last := containers[|containers| - 1];
      ExpectedImages(containers[..|containers| - 1])[last.name := last.image]
  }

  predicate IsSameImage(expected: string, actual: string) {
    expected == actual || "docker.io/" + expected == actual
    || "docker.io/" + expected + ":latest" == actual || expected + ":latest" == actual
  }

  predicate IsStatusUpdating(expected: map<string, string>, status: ContainerStatus) {
    status.name in expected && (!IsSameImage(expected[status.name], status.image) || status.imageId == "")
  }

  /** The kubelet is still swapping an image of this pod. */
  predicate IsUpdating(pod: Pod) {
    UPDATE_STATE_KEY in pod.annotations && pod.annotations[UPDATE_STATE_KEY] == UPDATE_STATE_VALUE
    && exists k :: 0 <= k < |pod.containerStatuses|
                && IsStatusUpdating(ExpectedImages(pod.spec.containers), pod.containerStatuses[k])
  }

  /** Up, ready and not in the middle of an in-place update. */
  predicate IsAvailable(pod: Pod) {
    !IsPodInactive(pod) && !IsUpdating(pod) && IsMarkedReady(pod)
  }

  method ScanIsUpdating(pod: Pod) returns (updating: bool)
    ensures updating == IsUpdating(pod)
  {
    if UPDATE_STATE_KEY !in pod.annotations || pod.annotations[UPDATE_STATE_KEY] != UPDATE_STATE_VALUE {
      return false;
    }
    var expected: map<string, string> := map[];
    var cs := pod.spec.containers;
    for i := 0 to |cs|
      invariant expected == ExpectedImages(cs[..i])
    {
      assert cs[..i + 1][..i] == cs[..i];
      expected := expected[cs[i].name := cs[i].image];
    }
    assert cs[..|cs|] == cs;
    for k := 0 to |pod.containerStatuses|
      invariant forall m :: 0 <= m < k ==> !IsStatusUpdating(expected, pod.containerStatuses[m])
    {
      if IsStatusUpdating(expected, pod.containerStatuses[k]) {
        return true;
      }
    }
    return false;
  }

  // ---------------------------------------------------------------- template choice

  function TemplateName(spec: TAppSpec, id: Id): string {
    if id in spec.templates then spec.templates[id] else spec.defaultTemplateName
  }

  /** getPodTemplate: the reserved name is the inline template, other names come from the pool. */
  function PodTemplate(spec: TAppSpec, id: Id): Option<Template> {
    var name := TemplateName(spec, id);
    if name == DEFAULT_TEMPLATE then Some(spec.template)
    else if name in spec.templatePool then Some(spec.templatePool[name])
    else None
  }

  function RollingTemplateKey(spec: TAppSpec): string {
    if spec.rollingTemplate != "" then spec.rollingTemplate else spec.defaultTemplateName
  }

  predicate IsInRollingUpdate(spec: TAppSpec, id: Id) {
    TemplateName(spec, id) == RollingTemplateKey(spec)
  }

  datatype Migration = Decided(migrate: bool) | NoTemplate

  function ShouldPodMigrate(spec: TAppSpec, pod: Pod, id: Id): Migration {
    match PodTemplate(spec, id)
    case None => NoTemplate
    case Some(template) =>
      if spec.neverMigrate then Decided(false)
      else if pod.nodeName != "" && |pod.initStatuses| == 0 && |pod.containerStatuses| == 0 then Decided(true)
      else
        match template.spec.restartPolicy
        case RestartAlways => Decided(true)
        case RestartOnFailure => Decided(pod.phase == PhaseFailed)
        case RestartNever => Decided(false)
        case RestartOther => Decided(true)
  }

  /** The last pod carrying an id wins, pods without the label are skipped. */
  function PodMap(pods: seq<Pod>): (m: map<Id, Pod>)
    ensures forall id :: id in m ==> PodIndex(m[id]) == Some(id)
  {
    if pods == [] then map[]
    else
      var last := pods[|pods| - 1];
      var rest := PodMap(pods[..|pods| - 1]);
      match PodIndex(last)
      case None => rest
      case Some(id) => rest[id := last]
  }

  method MakePodMap(pods: seq<Pod>) returns (m: map<Id, Pod>)
    ensures m == PodMap(pods)
  {
    m := map[];
    for i := 0 to |pods|
      invariant m == PodMap(pods[..i])
    {
      assert pods[..i + 1][..i] == pods[..i];
      match PodIndex(pods[i])
      case None =>
      case Some(id) => m := m[id := pods[i]];
    }
    assert pods[..|pods|] == pods;
  }

  predicate IsLast(pods: seq<Pod>, id: Id, k: int) {
    && 0 <= k < |pods| && PodIndex(pods[k]) == Some(id)
    && forall m :: k < m < |pods| ==> PodIndex(pods[m]) != Some(id)
  }

  lemma LastOfMore(pods: seq<Pod>, id: Id, k: int)
    requires pods != [] && IsLast(pods[..|pods| - 1], id, k) && PodIndex(pods[|pods| - 1]) != Some(id)
    ensures IsLast(pods, id, k) && pods[k] == pods[..|pods| - 1][k]
  {
    var init := pods[..|pods| - 1];
    forall m | k < m < |pods| ensures PodIndex(pods[m]) != Some(id) {
      assert m < |init| ==> init[m] == pods[m];
    }
  }

  /** Which pod the map holds: the last one in the list with that label. */
  lemma {:induction false} PodMapHoldsLast(pods: seq<Pod>, id: Id)
    ensures id in PodMap(pods) <==> exists k :: 0 <= k < |pods| && PodIndex(pods[k]) == Some(id)
    ensures id in PodMap(pods) ==> exists k :: IsLast(pods, id, k) && PodMap(pods)[id] == pods[k]
  {
    if pods != [] {
      var n := |pods| - 1;
      var init := pods[..n];
      PodMapHoldsLast(init, id);
      assert forall k :: 0 <= k < n ==> init[k] == pods[k];
      if PodIndex(pods[n]) == Some(id) {
        assert IsLast(pods, id, n) && PodMap(pods)[id] == pods[n];
      } else if id in PodMap(init) {
        var k :| IsLast(init, id, k) && PodMap(init)[id] == init[k];
        LastOfMore(pods, id, k);
        assert PodMap(pods)[id] == pods[k];
      }
    }
  }

  // ---------------------------------------------------------------- what the predicates say

  /** Condition `k` is the first of its kind. */
  predicate FirstAt(conditions: seq<Condition>, kind: string, k: int) {
    0 <= k < |conditions| && conditions[k].kind == kind && forall m :: 0 <= m < k ==> conditions[m].kind != kind
  }

  lemma FirstAtIsFirst(conditions: seq<Condition>, kind: string, k: int)
    requires FirstAt(conditions, kind, k)
    ensures FirstCondition(conditions, kind) == k
  {
  }

  /** An available pod is alive and running, its first Ready condition is True, and no update is under way. */
  lemma AvailableMeans(pod: Pod)
    ensures IsAvailable(pod) <==>
              && !pod.dying && pod.phase == PhaseRunning && !IsUpdating(pod)
              && exists k :: FirstAt(pod.conditions, "Ready", k) && pod.conditions[k].status == CondTrue
  {
    if IsAvailable(pod) {
      assert FirstAt(pod.conditions, "Ready", FirstCondition(pod.conditions, "Ready"));
    }
    if k :| FirstAt(pod.conditions, "Ready", k) && pod.conditions[k].status == CondTrue {
      FirstAtIsFirst(pod.conditions, "Ready", k);
    }
  }

  /** A pod with no Ready condition counts as ready for its status, though not as available. */
  lemma ReadyMeans(pod: Pod)
    ensures IsPodReady(pod) <==>
              forall k :: FirstAt(pod.conditions, "Ready", k) ==> pod.conditions[k].status == CondTrue
  {
    var first := FirstCondition(pod.conditions, "Ready");
    assert first < |pod.conditions| ==> FirstAt(pod.conditions, "Ready", first);
    forall k | FirstAt(pod.conditions, "Ready", k) ensures k == first {
      FirstAtIsFirst(pod.conditions, "Ready", k);
    }
  }

  /** Container `i` is the last of its name. */
  predicate LastNamed(containers: seq<Container>, name: string, i: int) {
    && 0 <= i < |containers| && containers[i].name == name
    && forall m :: i < m < |containers| ==> containers[m].name != name
  }

  lemma {:induction false} ExpectedImageOf(containers: seq<Container>, name: string)
    ensures name in ExpectedImages(containers) <==> exists i :: LastNamed(containers, name, i)
    ensures forall i :: LastNamed(containers, name, i) ==>
              name in ExpectedImages(containers) && ExpectedImages(containers)[name] == containers[i].image
  {
    if containers != [] {
      var n := |containers| - 1;
      var init := containers[..n];
      ExpectedImageOf(init, name);
      if containers[n].name == name {
        assert LastNamed(containers, name, n);
      } else {
        forall i ensures LastNamed(init, name, i) <==> LastNamed(containers, name, i) {
          assert forall m :: 0 <= m < n ==> init[m] == containers[m];
          if LastNamed(init, name, i) {
            forall m | i < m < |containers| ensures containers[m].name != name {
              assert m < n ==> init[m] == containers[m];
            }
          }
        }
      }
    }
  }

  /** The ways a container runtime may report an image. */
  function ReportedForms(image: string): set<string> {
    {image, "docker.io/" + image, "docker.io/" + image + ":latest", image + ":latest"}
  }

  /** A container whose status still shows another image, or none yet. */
  predicate Swapping(pod: Pod, status: ContainerStatus, i: int) {
    LastNamed(pod.spec.containers, status.name, i)
    && (status.image !in ReportedForms(pod.spec.containers[i].image) || status.imageId == "")
  }

  /** An update is under way as long as the pod is annotated and some container is still being swapped. */
  lemma UpdatingMeans(pod: Pod)
    ensures IsUpdating(pod) <==>
              && "tkestack.io/inplace-update-state" in pod.annotations
              && pod.annotations["tkestack.io/inplace-update-state"] == "true"
              && exists status, i :: status in pod.containerStatuses && Swapping(pod, status, i)
  {
    forall status ensures IsStatusUpdating(ExpectedImages(pod.spec.containers), status) <==>
                            exists i :: Swapping(pod, status, i)
    {
      SwappingMeans(pod, status);
    }
  }

  lemma SwappingMeans(pod: Pod, status: ContainerStatus)
    ensures IsStatusUpdating(ExpectedImages(pod.spec.containers), status) <==> exists i :: Swapping(pod, status, i)
  {
    var expected := ExpectedImages(pod.spec.containers);
    ExpectedImageOf(pod.spec.containers, status.name);
    forall image ensures status.image in ReportedForms(image) <==> IsSameImage(image, status.image) { }
    if IsStatusUpdating(expected, status) {
      var i :| LastNamed(pod.spec.containers, status.name, i);
      assert Swapping(pod, status, i);
    }
  }

  /** Without a template there is no decision. */
  lemma MigrateNeedsTemplate(spec: TAppSpec, pod: Pod, id: Id)
    ensures ShouldPodMigrate(spec, pod, id) == NoTemplate <==> PodTemplate(spec, id) == None
  {
  }

  /** When a completed pod is to be started again: never without a template or against the spec, always if
      it was assigned to a node and none of its containers ran, and otherwise as the restart policy says. */
  lemma MigrateMeans(spec: TAppSpec, pod: Pod, id: Id, template: Template)
    requires IsPodCompleted(pod) && PodTemplate(spec, id) == Some(template)
    ensures ShouldPodMigrate(spec, pod, id) == Decided(true) <==>
              && !spec.neverMigrate
              && (|| (pod.nodeName != "" && pod.initStatuses == [] && pod.containerStatuses == [])
                  || template.spec.restartPolicy == RestartAlways || template.spec.restartPolicy == RestartOther
                  || (template.spec.restartPolicy == RestartOnFailure && pod.phase != PhaseSucceeded))
  {
  }

  /** The template of an id, read from the spec: its own name or the default one, the name "default" for
      the inline template and any other name in the pool. */
  lemma TemplateMeans(spec: TAppSpec, id: Id, name: string)
    requires if id in spec.templates then name == spec.templates[id] else name == spec.defaultTemplateName
    ensures PodTemplate(spec, id).Some? <==> name == "default" || name in spec.templatePool
    ensures name == "default" ==> PodTemplate(spec, id) == Some(spec.template)
    ensures name != "default" && name in spec.templatePool ==> PodTemplate(spec, id) == Some(spec.templatePool[name])
    ensures IsInRollingUpdate(spec, id) <==>
              name == if spec.rollingTemplate == "" then spec.defaultTemplateName else spec.rollingTemplate
  {
  }
}
